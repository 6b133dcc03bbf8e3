/** The record shapes of the storefront: a catalog product and a cart line. */
module Types {

  datatype Option<T> = None | Some(value: T)

  /** The fixed set of product categories. */
  datatype Category = Promos | Pizzas | Bebidas | Picoteo

  /**
   * A catalog product, or the product handed to the cart after configuration.
   * Optional list fields that the code treats alike when absent or empty are
   * plain sequences; `selectedIngredients` keeps the difference, because the
   * cart's merge test tells an absent list from an empty one. Optional counts
   * are `None` when absent; the code's `x || d` treats `None` and `Some(0)` alike.
   */
  datatype Product = Product(
    id: string,
    name: string,
    description: string,
    price: int,
    category: Category,
    selectedIngredients: Option<seq<string>>,
    pizzaBundles: seq<seq<string>>,
    maxIngredients: Option<nat>,
    ingredientOptions: seq<string>,
    pizzaCount: Option<nat>)

  /** A cart line: a product snapshot and how many of it are ordered. */
  datatype CartItem = CartItem(product: Product, quantity: int)

  /** JavaScript's `x || d` on an optional count: the default when absent or zero. */
  function OrDefault(x: Option<nat>, d: nat): nat {
    if x.Some? && x.value != 0 then x.value else d
  }
}
