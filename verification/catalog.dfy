/**
 * The storefront's catalog: four configurable promos over the sixteen Rocker
 * ingredients and two drinks. Display-only fields (image, popular) are not part of
 * the product record here.
 */
module Catalog {
  import opened Types
  import Configurator

  /** `ROCKER_INGREDIENTS`: the toppings every promo offers. */
  const RockerIngredients: seq<string> := [
    "Salame", "Aceituna", "Carne", "Tomate", "Doble queso", "Pepperoni", "Maíz", "Camarón",
    "Pimentón", "Champiñon", "Choricillo", "Pollo crispy", "Pollo", "Piña", "Palmitos", "Tocino"
  ]

  /** A configurable promo: no selection yet, no bundles yet, the Rocker toppings. */
  function Promo(id: string, name: string, description: string, price: int, pizzaCount: nat, maxIngredients: nat): Product {
    Product(id, name, description, price, Promos, None, [], Some(maxIngredients), RockerIngredients, Some(pizzaCount))
  }

  /** A drink: nothing to configure. */
  function Drink(id: string, name: string, description: string, price: int): Product {
    Product(id, name, description, price, Bebidas, None, [], None, [], None)
  }

  const PromoOne3: Product := Promo("promo-1-3ing", "1 Pizza 3 Ingredientes",
    "Arma tu Rocker con hasta 3 ingredientes a elección.", 9990, 1, 3)
  const PromoOne5: Product := Promo("promo-1-5ing", "1 Pizza 5 Ingredientes",
    "Arma tu Rocker con hasta 5 ingredientes a elección.", 11990, 1, 5)
  const PromoTwoRocker: Product := Promo("promo-2rocker", "2 Rocker Pizza's",
    "2 Pizzas Familiares con 3 ingredientes cada una.", 17990, 2, 3)
  const PromoThreeRocker: Product := Promo("promo-3rocker", "3 ROCKER PIZZA'S",
    "3 Pizzas Familiares con 3 ingredientes cada una.", 25990, 3, 3)
  const DrinkBottle: Product := Drink("bebida-1.5", "Bebida 1.5L", "Coca-Cola, Fanta, Sprite", 2500)
  const DrinkCan: Product := Drink("bebida-lata", "Bebida Lata", "Coca-Cola, Fanta, Sprite", 1500)

  /** `products`, in menu order. */
  const Products: seq<Product> := [PromoOne3, PromoOne5, PromoTwoRocker, PromoThreeRocker, DrinkBottle, DrinkCan]

  /** No two catalog entries share an id, so the cart's id-based updates never mix two catalog products. */
  lemma IdsDistinct()
    ensures |Products| == 6
    ensures forall i, j :: 0 <= i < j < |Products| ==> Products[i].id != Products[j].id
  {
    assert Products[0].id[6] == '1' && Products[1].id[6] == '1' && Products[2].id[6] == '2' && Products[3].id[6] == '3';
    assert Products[0].id[8] == '3' && Products[1].id[8] == '5';
    assert Products[4].id[7] == '1' && Products[5].id[7] == 'l';
  }

  /** Every promo is configured: it has options, and its slot count and cap are present and at least 1. */
  lemma PromosConfigured()
    ensures forall i :: 0 <= i < |Products| && Products[i].category == Promos ==>
      && Configurator.NeedsConfiguration(Products[i])
      && Products[i].pizzaCount.Some? && Products[i].pizzaCount.value >= 1
      && Products[i].maxIngredients.Some? && Products[i].maxIngredients.value >= 1
  {
  }

  /**
   * Promos agree on the two caps the configurator computes, because their cap is
   * present; their session has as many slots as the promo has pizzas.
   */
  lemma PromoCapsAgree()
    ensures forall i :: 0 <= i < |Products| && Products[i].category == Promos ==>
      && Configurator.ToggleCap(Some(Products[i])) == Configurator.DisplayCap(Products[i])
      && Configurator.SlotCount(Products[i]) == Products[i].pizzaCount.value
  {
  }

  /** Drinks have no options, so a click adds them to the cart directly. */
  lemma DrinksAddDirectly()
    ensures forall i :: 0 <= i < |Products| && Products[i].category == Bebidas ==>
      !Configurator.NeedsConfiguration(Products[i])
    ensures forall i :: 0 <= i < |Products| ==> (Products[i].category == Bebidas <==> !Configurator.NeedsConfiguration(Products[i]))
  {
  }

  /** Every price is a positive whole number of pesos; the listed prices are the menu's. */
  lemma PricesPositive()
    ensures forall i :: 0 <= i < |Products| ==> Products[i].price > 0
    ensures Products[0].id == "promo-1-3ing" && Products[0].price == 9990
    ensures Products[1].id == "promo-1-5ing" && Products[1].price == 11990
    ensures Products[2].id == "promo-2rocker" && Products[2].price == 17990
    ensures Products[3].id == "promo-3rocker" && Products[3].price == 25990
    ensures Products[4].id == "bebida-1.5" && Products[4].price == 2500
    ensures Products[5].id == "bebida-lata" && Products[5].price == 1500
  {
  }

  /** The Rocker list holds sixteen distinct names. */
  lemma IngredientsDistinct()
    ensures |RockerIngredients| == 16
    ensures Configurator.NoDuplicates(RockerIngredients)
  {
  }

  /** Catalog products carry no selection and no bundles: a session starts from nothing. */
  lemma CatalogStartsEmpty()
    ensures forall i :: 0 <= i < |Products| ==> Products[i].pizzaBundles == [] && Products[i].selectedIngredients.None?
  {
  }
}
