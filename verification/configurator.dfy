/**
 * The promo configurator of the menu: clicking a product either opens a session with
 * one empty ingredient slot per pizza or adds the product straight to the cart; the
 * tabs pick the current slot; ingredient buttons toggle names in that slot within a
 * cap; the search box narrows the options shown; confirming hands the slots to the
 * cart and ends the session.
 */
module Configurator {
  import opened Types
  import opened Builtins
  import CartEngine

  // ---------------------------------------------------------------------------
  // Defaults and slot operations
  // ---------------------------------------------------------------------------

  /** `product.pizzaCount || 1`: the number of pizza slots of a session. */
  function SlotCount(p: Product): nat {
    OrDefault(p.pizzaCount, 1)
  }

  /** `selectedProduct?.maxIngredients || 1`: the cap the toggle handler enforces. */
  function ToggleCap(selected: Option<Product>): nat {
    if selected.Some? then OrDefault(selected.value.maxIngredients, 1) else 1
  }

  /** `selectedProduct.maxIngredients || 3`: the cap the counter shows and the disable check uses. */
  function DisplayCap(p: Product): nat {
    OrDefault(p.maxIngredients, 3)
  }

  /** A product with ingredient options is configured in a session; any other is added directly. */
  predicate NeedsConfiguration(p: Product) {
    |p.ingredientOptions| > 0
  }

  /** `Array(count).fill([])`. */
  function EmptySlots(n: nat): seq<seq<string>> {
    seq(n, _ => [])
  }

  predicate NoDuplicates(s: seq<string>) {
    forall i, j :: 0 <= i < j < |s| ==> s[i] != s[j]
  }

  function Other(ingredient: string): string -> bool {
    (i: string) => i != ingredient
  }

  /**
   * The new contents of the current slot after `handleIngredientToggle(ingredient)`:
   * a selected ingredient is filtered out; an unselected one is appended while the
   * slot holds fewer than `cap` names; otherwise the slot stays as it was.
   */
  function ToggledSlot(slot: seq<string>, ingredient: string, cap: int): seq<string> {
    if ingredient in slot then Filter(slot, Other(ingredient))
    else if |slot| < cap then slot + [ingredient]
    else slot
  }

  /** Toggling a selected ingredient removes it, and only it, whatever the cap. */
  lemma ToggleRemovesSelected(slot: seq<string>, ingredient: string, cap: int)
    requires ingredient in slot
    ensures ingredient !in ToggledSlot(slot, ingredient, cap)
    ensures forall x :: x in ToggledSlot(slot, ingredient, cap) <==> x in slot && x != ingredient
  {
  }

  /**
   * A slot without duplicates and within the cap stays so after a toggle; an unselected
   * ingredient is refused once the slot is full.
   */
  lemma ToggleKeepsSlotValid(slot: seq<string>, ingredient: string, cap: int)
    requires NoDuplicates(slot) && |slot| <= cap
    ensures NoDuplicates(ToggledSlot(slot, ingredient, cap))
    ensures |ToggledSlot(slot, ingredient, cap)| <= cap
    ensures ingredient !in slot && |slot| == cap ==> ToggledSlot(slot, ingredient, cap) == slot
  {
    if ingredient in slot {
      assert Pairwise(slot, (a: string, b: string) => a != b);
      FilterPairwise(slot, Other(ingredient), (a: string, b: string) => a != b);
    }
  }

  /** Selecting an ingredient that fits and then toggling it again restores the slot. */
  lemma ToggleTwiceRestores(slot: seq<string>, ingredient: string, cap: int)
    requires ingredient !in slot && |slot| < cap
    ensures ToggledSlot(ToggledSlot(slot, ingredient, cap), ingredient, cap) == slot
  {
    FilterAppend(slot, [ingredient], Other(ingredient));
    FilterKeepsAll(slot, Other(ingredient));
    assert Filter([ingredient], Other(ingredient)) == [];
  }

  /** The disable check of an option button: `!isSelected && currentCount >= max`. */
  predicate OptionDisabled(slot: seq<string>, option: string, cap: int) {
    option !in slot && |slot| >= cap
  }

  /**
   * Without a `maxIngredients`, the counter and the disable check allow three names per
   * slot while the toggle handler allows one: a second option stays enabled, and
   * clicking it changes nothing.
   */
  lemma DefaultCapsDisagree(p: Product, slot: seq<string>, option: string)
    requires p.maxIngredients == None && |slot| == 1 && option !in slot
    ensures DisplayCap(p) == 3 && ToggleCap(Some(p)) == 1
    ensures !OptionDisabled(slot, option, DisplayCap(p))
    ensures ToggledSlot(slot, option, ToggleCap(Some(p))) == slot
  {
  }

  // ---------------------------------------------------------------------------
  // Search and completion
  // ---------------------------------------------------------------------------

  function OptionMatches(term: string, lower: string -> string): string -> bool {
    (option: string) => Contains(lower(option), lower(term))
  }

  /**
   * The options listed for a search term: those whose lower-case form contains the
   * lower-cased term. `lower` stands for `toLowerCase`.
   */
  function FilterOptions(options: seq<string>, term: string, lower: string -> string): (r: seq<string>)
    ensures forall o :: o in r <==> o in options && Contains(lower(o), lower(term))
    ensures |r| <= |options|
  {
    Filter(options, OptionMatches(term, lower))
  }

  /** The search keeps the options' catalog order. */
  lemma FilterOptionsInOrder(a: seq<string>, b: seq<string>, term: string, lower: string -> string)
    ensures FilterOptions(a + b, term, lower) == FilterOptions(a, term, lower) + FilterOptions(b, term, lower)
  {
    FilterAppend(a, b, OptionMatches(term, lower));
  }

  /** An empty search box lists every option. */
  lemma FilterOptionsEmptyTerm(options: seq<string>, lower: string -> string)
    requires lower("") == ""
    ensures FilterOptions(options, "", lower) == options
  {
    forall i | 0 <= i < |options| ensures OptionMatches("", lower)(options[i]) {
      ContainsEmpty(lower(options[i]));
    }
    FilterKeepsAll(options, OptionMatches("", lower));
  }

  /** `allPizzasSelected`: a product is selected and every slot holds an ingredient. */
  predicate AllSelected(selected: Option<Product>, bundles: seq<seq<string>>) {
    selected.Some? && forall i :: 0 <= i < |bundles| ==> |bundles[i]| > 0
  }

  /** A freshly opened session is never complete, since it has at least one slot and all are empty. */
  lemma OpenedSessionIncomplete(p: Product)
    ensures |EmptySlots(SlotCount(p))| >= 1
    ensures !AllSelected(Some(p), EmptySlots(SlotCount(p)))
  {
    assert EmptySlots(SlotCount(p))[0] == [];
  }

  // ---------------------------------------------------------------------------
  // The configurator state
  // ---------------------------------------------------------------------------

  /** The configurator state of the menu section. */
  class BundleConfigurator {
    var selectedProduct: Option<Product>
    var currentPizzaIndex: int
    var pizzaBundles: seq<seq<string>>
    var searchTerm: string

    ghost predicate Valid()
      reads this
    {
      && (selectedProduct.None? ==> pizzaBundles == [])
      && (selectedProduct.Some? ==>
            |pizzaBundles| == SlotCount(selectedProduct.value) && 0 <= currentPizzaIndex < |pizzaBundles|)
      && forall k :: 0 <= k < |pizzaBundles| ==>
           NoDuplicates(pizzaBundles[k]) && |pizzaBundles[k]| <= ToggleCap(selectedProduct)
    }

    constructor ()
      ensures Valid()
      ensures selectedProduct == None && currentPizzaIndex == 0 && pizzaBundles == [] && searchTerm == ""
    {
      selectedProduct := None;
      currentPizzaIndex := 0;
      pizzaBundles := [];
      searchTerm := "";
    }

    /** `handleProductClick(product)`. */
    method HandleProductClick(p: Product, cart: CartEngine.Cart)
      requires Valid() && cart.Valid()
      modifies this, cart
      ensures Valid() && cart.Valid()
      ensures NeedsConfiguration(p) ==>
        && selectedProduct == Some(p)
        && currentPizzaIndex == 0
        && pizzaBundles == EmptySlots(SlotCount(p))
        && searchTerm == ""
        && cart.items == old(cart.items)
      ensures !NeedsConfiguration(p) ==>
        && selectedProduct == old(selectedProduct)
        && currentPizzaIndex == old(currentPizzaIndex)
        && pizzaBundles == old(pizzaBundles)
        && searchTerm == old(searchTerm)
        && cart.items == CartEngine.AddedToCart(old(cart.items), p)
    {
      if NeedsConfiguration(p) {
        selectedProduct := Some(p);
        currentPizzaIndex := 0;
        pizzaBundles := EmptySlots(SlotCount(p));
        searchTerm := "";
      } else {
        cart.AddToCart(p);
      }
    }

    /** A pizza tab: `setCurrentPizzaIndex(i)`; the tabs number the slots of the session. */
    method SelectPizza(i: int)
      requires Valid() && selectedProduct.Some? && 0 <= i < |pizzaBundles|
      modifies this`currentPizzaIndex
      ensures Valid() && currentPizzaIndex == i
    {
      currentPizzaIndex := i;
    }

    /** The search box: `setSearchTerm(term)`; the slots are untouched. */
    method SetSearchTerm(term: string)
      requires Valid()
      modifies this`searchTerm
      ensures Valid() && searchTerm == term
    {
      searchTerm := term;
    }

    /** `handleIngredientToggle(ingredient)`: only the current slot changes. */
    method HandleIngredientToggle(ingredient: string)
      requires Valid() && selectedProduct.Some?
      modifies this`pizzaBundles
      ensures Valid()
      ensures |pizzaBundles| == |old(pizzaBundles)|
      ensures pizzaBundles == old(pizzaBundles)[currentPizzaIndex :=
        ToggledSlot(old(pizzaBundles)[currentPizzaIndex], ingredient, ToggleCap(selectedProduct))]
    {
      var current := pizzaBundles[currentPizzaIndex];
      ToggleKeepsSlotValid(current, ingredient, ToggleCap(selectedProduct));
      pizzaBundles := pizzaBundles[currentPizzaIndex := ToggledSlot(current, ingredient, ToggleCap(selectedProduct))];
    }

    /** Whether the button of `option` is disabled in the current slot. */
    predicate IsDisabled(option: string)
      reads this
      requires Valid() && selectedProduct.Some?
    {
      OptionDisabled(pizzaBundles[currentPizzaIndex], option, DisplayCap(selectedProduct.value))
    }

    /** A click on an option button: `!isDisabled && handleIngredientToggle(option)`. */
    method ClickOption(option: string)
      requires Valid() && selectedProduct.Some?
      modifies this`pizzaBundles
      ensures Valid()
      ensures pizzaBundles ==
        if OptionDisabled(old(pizzaBundles)[currentPizzaIndex], option, DisplayCap(selectedProduct.value))
        then old(pizzaBundles)
        else old(pizzaBundles)[currentPizzaIndex :=
          ToggledSlot(old(pizzaBundles)[currentPizzaIndex], option, ToggleCap(selectedProduct))]
    {
      if !IsDisabled(option) {
        HandleIngredientToggle(option);
      }
    }

    /** The options listed under the search box. */
    function VisibleOptions(lower: string -> string): (r: seq<string>)
      reads this
      requires selectedProduct.Some?
      ensures forall o :: o in r <==> o in selectedProduct.value.ingredientOptions && Contains(lower(o), lower(searchTerm))
    {
      FilterOptions(selectedProduct.value.ingredientOptions, searchTerm, lower)
    }

    /** `allPizzasSelected`, which enables the confirm button. */
    predicate AllPizzasSelected()
      reads this
    {
      AllSelected(selectedProduct, pizzaBundles)
    }

    /** `handleModalAddToCart()`: the product goes to the cart with the slots as its bundles, and the session ends. */
    method HandleModalAddToCart(cart: CartEngine.Cart)
      requires Valid() && cart.Valid()
      modifies this, cart
      ensures Valid() && cart.Valid()
      ensures old(selectedProduct).Some? ==>
        && cart.items == CartEngine.AddedToCart(old(cart.items), old(selectedProduct).value.(pizzaBundles := old(pizzaBundles)))
        && selectedProduct == None
        && pizzaBundles == []
        && currentPizzaIndex == old(currentPizzaIndex)
        && searchTerm == old(searchTerm)
      ensures old(selectedProduct).None? ==> unchanged(this) && cart.items == old(cart.items)
    {
      if selectedProduct.Some? {
        cart.AddToCart(selectedProduct.value.(pizzaBundles := pizzaBundles));
        selectedProduct := None;
        pizzaBundles := [];
      }
    }

    /** The confirm button, which is disabled unless every slot holds an ingredient. */
    method ClickConfirm(cart: CartEngine.Cart)
      requires Valid() && cart.Valid()
      modifies this, cart
      ensures Valid() && cart.Valid()
      ensures !old(AllPizzasSelected()) ==> unchanged(this) && cart.items == old(cart.items)
      ensures old(AllPizzasSelected()) ==>
        && cart.items == CartEngine.AddedToCart(old(cart.items), old(selectedProduct).value.(pizzaBundles := old(pizzaBundles)))
        && selectedProduct == None
        && pizzaBundles == []
        && currentPizzaIndex == old(currentPizzaIndex)
        && searchTerm == old(searchTerm)
    {
      if AllPizzasSelected() {
        HandleModalAddToCart(cart);
      }
    }
  }
}
