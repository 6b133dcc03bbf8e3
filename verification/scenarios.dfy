/**
 * End-to-end facts over the catalog: the cart engine, the configurator and the
 * checkout total working together.
 */
module Scenarios {
  import opened Types
  import CartEngine
  import Configurator
  import Checkout
  import opened Catalog

  /**
   * Two configured `promo-1-3ing` pizzas with different toppings end up as ONE line of
   * quantity 2 that keeps the first pizza's toppings: the merge test ignores bundles.
   */
  lemma PromoAddedTwiceMerges()
    ensures var first := PromoOne3.(pizzaBundles := [["Carne", "Tomate"]]);
            var second := PromoOne3.(pizzaBundles := [["Salame"]]);
            var c := CartEngine.AddedToCart(CartEngine.AddedToCart([], first), second);
            && |c| == 1
            && c[0].quantity == 2
            && c[0].product.pizzaBundles == [["Carne", "Tomate"]]
            && CartEngine.CartCount(c) == 2
            && Checkout.Total(c) == 19980
  {
    var first := PromoOne3.(pizzaBundles := [["Carne", "Tomate"]]);
    var second := PromoOne3.(pizzaBundles := [["Salame"]]);
    var c1 := CartEngine.AddedToCart([], first);
    assert c1 == [CartItem(first, 1)];
    assert CartEngine.Matches(c1[0], second);
    var c := CartEngine.AddedToCart(c1, second);
    assert c[0] == CartItem(CartEngine.SortedProduct(first), 2);
  }

  /**
   * `promo-2rocker`: the confirm button stays disabled while the second pizza has no
   * topping, and enabling it and confirming puts one line with both slots in the cart.
   */
  method PromoTwoRockerSession() returns (before: bool, after: bool, items: seq<CartItem>)
    ensures !before && after
    ensures |items| == 1
    ensures items[0].quantity == 1
    ensures items[0].product.id == "promo-2rocker"
    ensures items[0].product.pizzaBundles == [["Carne"], ["Pollo"]]
    ensures Checkout.Total(items) == 17990
  {
    var cart := new CartEngine.Cart();
    var session := new Configurator.BundleConfigurator();
    session.HandleProductClick(PromoTwoRocker, cart);
    assert session.pizzaBundles == [[], []] && session.currentPizzaIndex == 0;
    assert Configurator.ToggleCap(session.selectedProduct) == 3;
    assert Configurator.ToggledSlot([], "Carne", 3) == ["Carne"];
    session.HandleIngredientToggle("Carne");
    assert session.pizzaBundles == [["Carne"], []];
    before := session.AllPizzasSelected();
    assert !before by {
      assert |session.pizzaBundles[1]| == 0;
    }
    session.ClickConfirm(cart);
    session.SelectPizza(1);
    assert Configurator.ToggledSlot([], "Pollo", 3) == ["Pollo"];
    session.HandleIngredientToggle("Pollo");
    assert session.pizzaBundles == [["Carne"], ["Pollo"]];
    after := session.AllPizzasSelected();
    session.ClickConfirm(cart);
    items := cart.items;
  }

  /** A drink click goes straight to the cart; two clicks make one line of two. */
  method DrinkClickedTwice() returns (items: seq<CartItem>, sessionOpen: bool)
    ensures !sessionOpen
    ensures items == [CartItem(DrinkCan, 2)]
    ensures Checkout.Total(items) == 3000
  {
    var cart := new CartEngine.Cart();
    var session := new Configurator.BundleConfigurator();
    session.HandleProductClick(DrinkCan, cart);
    assert cart.items == [CartItem(DrinkCan, 1)];
    session.HandleProductClick(DrinkCan, cart);
    assert CartEngine.Matches(CartItem(DrinkCan, 1), DrinkCan);
    items := cart.items;
    sessionOpen := session.selectedProduct.Some?;
  }
}
