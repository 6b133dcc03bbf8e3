/**
 * The cart of the storefront: an ordered list of lines, with the add, change-quantity
 * and remove operations of the application shell and the item count shown on the
 * cart badge. Each operation is a pure transformation of the list; the class `Cart`
 * holds the list and replaces it on every update.
 */
module CartEngine {
  import opened Types
  import opened Builtins

  // ---------------------------------------------------------------------------
  // The merge key
  // ---------------------------------------------------------------------------

  /** `selectedIngredients?.sort()`: a present list is sorted, an absent one stays absent. */
  function SortedIngredients(o: Option<seq<string>>): Option<seq<string>> {
    match o
    case None => None
    case Some(s) => Some(Sort(s))
  }

  /** A product after the in-place sort of its ingredient list. */
  function SortedProduct(p: Product): Product {
    p.(selectedIngredients := SortedIngredients(p.selectedIngredients))
  }

  /**
   * What the merge test compares: the id and the sorted ingredient list. Comparing the
   * JSON texts of two sorted lists is comparing the lists, and an absent list (whose
   * JSON text is `undefined`) equals only another absent list. Nothing else of the
   * product, in particular not `pizzaBundles`, takes part.
   */
  function Key(p: Product): (string, Option<seq<string>>) {
    (p.id, SortedIngredients(p.selectedIngredients))
  }

  /** The test of addToCart's `find` and `map` callbacks. */
  predicate Matches(item: CartItem, p: Product) {
    Key(item.product) == Key(p)
  }

  /** Two ingredient selections hold the same names, counted with multiplicity, or are both absent. */
  predicate SameSelection(a: Option<seq<string>>, b: Option<seq<string>>) {
    (a.None? && b.None?) || (a.Some? && b.Some? && multiset(a.value) == multiset(b.value))
  }

  /** Matching depends on the id and on which ingredients are selected, not on their order. */
  lemma MatchesIffSameSelection(item: CartItem, p: Product)
    ensures Matches(item, p) <==>
      item.product.id == p.id && SameSelection(item.product.selectedIngredients, p.selectedIngredients)
  {
    var a, b := item.product.selectedIngredients, p.selectedIngredients;
    if a.Some? && b.Some? {
      SortCanonical(a.value, b.value);
    }
  }

  /** The in-place sort never changes the merge key. */
  lemma KeyOfSortedProduct(p: Product)
    ensures Key(SortedProduct(p)) == Key(p)
  {
    if p.selectedIngredients.Some? {
      SortIdempotent(p.selectedIngredients.value);
    }
  }

  // ---------------------------------------------------------------------------
  // Cart invariants and counts
  // ---------------------------------------------------------------------------

  predicate HasId(c: seq<CartItem>, id: string) {
    exists i :: 0 <= i < |c| && c[i].product.id == id
  }

  predicate HasMatch(c: seq<CartItem>, p: Product) {
    exists i :: 0 <= i < |c| && Matches(c[i], p)
  }

  predicate AllPositive(c: seq<CartItem>) {
    forall i :: 0 <= i < |c| ==> c[i].quantity > 0
  }

  predicate KeysDiffer(a: CartItem, b: CartItem) {
    Key(a.product) != Key(b.product)
  }

  /** No two lines would both match one product. */
  predicate DistinctKeys(c: seq<CartItem>) {
    Pairwise(c, KeysDiffer)
  }

  /** `cartCount`: the sum of the line quantities. */
  function CartCount(c: seq<CartItem>): int {
    if |c| == 0 then 0 else c[0].quantity + CartCount(c[1..])
  }

  lemma {:induction false} CartCountAppend(a: seq<CartItem>, b: seq<CartItem>)
    ensures CartCount(a + b) == CartCount(a) + CartCount(b)
    decreases |a|
  {
    if |a| == 0 {
      assert a + b == b;
    } else {
      assert (a + b)[1..] == a[1..] + b;
      CartCountAppend(a[1..], b);
    }
  }

  /** The number of lines matching `p`. */
  function NumMatches(c: seq<CartItem>, p: Product): nat {
    if |c| == 0 then 0 else (if Matches(c[0], p) then 1 else 0) + NumMatches(c[1..], p)
  }

  lemma {:induction false} NumMatchesExact(c: seq<CartItem>, p: Product)
    requires DistinctKeys(c)
    ensures NumMatches(c, p) == if HasMatch(c, p) then 1 else 0
    decreases |c|
  {
    if |c| > 0 {
      assert DistinctKeys(c[1..]) by {
        forall i, j | 0 <= i < j < |c| - 1 ensures KeysDiffer(c[1..][i], c[1..][j]) {
          assert KeysDiffer(c[i + 1], c[j + 1]);
        }
      }
      NumMatchesExact(c[1..], p);
      if Matches(c[0], p) {
        assert !HasMatch(c[1..], p) by {
          forall j | 0 <= j < |c| - 1 ensures !Matches(c[1..][j], p) {
            assert KeysDiffer(c[0], c[j + 1]);
          }
        }
      } else if HasMatch(c, p) {
        var i :| 0 <= i < |c| && Matches(c[i], p);
        assert Matches(c[1..][i - 1], p);
      } else {
        assert !HasMatch(c[1..], p) by {
          forall j | 0 <= j < |c| - 1 ensures !Matches(c[1..][j], p) {
            assert c[1..][j] == c[j + 1];
          }
        }
      }
    }
  }

  /** Raising each matching line by one raises the count by the number of matching lines. */
  lemma {:induction false} CountAfterIncrement(c: seq<CartItem>, r: seq<CartItem>, p: Product)
    requires |r| == |c|
    requires forall i :: 0 <= i < |c| ==> r[i].quantity == c[i].quantity + (if Matches(c[i], p) then 1 else 0)
    ensures CartCount(r) == CartCount(c) + NumMatches(c, p)
    decreases |c|
  {
    if |c| > 0 {
      CountAfterIncrement(c[1..], r[1..], p);
    }
  }

  // ---------------------------------------------------------------------------
  // addToCart
  // ---------------------------------------------------------------------------

  /** Every line with the product's id, after `find` and `map` sorted its ingredient list in place. */
  function SortSameId(c: seq<CartItem>, id: string): seq<CartItem> {
    seq(|c|, i requires 0 <= i < |c| =>
      if c[i].product.id == id then c[i].(product := SortedProduct(c[i].product)) else c[i])
  }

  /** The added product after the comparisons: they sort its list in place, but only run against a line with its id. */
  function AddedProduct(c: seq<CartItem>, p: Product): Product {
    if HasId(c, p.id) then SortedProduct(p) else p
  }

  /** `prev.map(item => matches ? {...item, quantity: item.quantity + 1} : item)`. */
  function IncrementMatches(c: seq<CartItem>, p: Product): seq<CartItem> {
    seq(|c|, i requires 0 <= i < |c| =>
      if Matches(c[i], p) then c[i].(quantity := c[i].quantity + 1) else c[i])
  }

  /**
   * `addToCart(product)`: every line matching the product gains one; when none matches,
   * a line of quantity 1 is appended. Lines keep their places; the only other change
   * is the in-place sort of the ingredient lists compared along the way.
   */
  function AddedToCart(c: seq<CartItem>, p: Product): (r: seq<CartItem>)
    ensures |r| == if HasMatch(c, p) then |c| else |c| + 1
    ensures forall i :: 0 <= i < |c| ==>
      r[i] == CartItem(
        if c[i].product.id == p.id then SortedProduct(c[i].product) else c[i].product,
        c[i].quantity + (if Matches(c[i], p) then 1 else 0))
    ensures !HasMatch(c, p) ==> r[|c|] == CartItem(AddedProduct(c, p), 1)
  {
    var sorted := SortSameId(c, p.id);
    var key := AddedProduct(c, p);
    KeyOfSortedProduct(p);
    assert forall i :: 0 <= i < |c| ==> (Matches(sorted[i], key) <==> Matches(c[i], p)) by {
      forall i | 0 <= i < |c| ensures Matches(sorted[i], key) <==> Matches(c[i], p) {
        KeyOfSortedProduct(c[i].product);
      }
    }
    assert HasMatch(sorted, key) <==> HasMatch(c, p) by {
      if HasMatch(c, p) {
        var i :| 0 <= i < |c| && Matches(c[i], p);
        assert Matches(sorted[i], key);
      }
    }
    if HasMatch(sorted, key) then IncrementMatches(sorted, key) else sorted + [CartItem(key, 1)]
  }

  /** Adding a product whose key is already present adds one to exactly that line; the badge count grows by one either way. */
  lemma AddedToCartCount(c: seq<CartItem>, p: Product)
    requires DistinctKeys(c)
    ensures CartCount(AddedToCart(c, p)) == CartCount(c) + 1
  {
    var r := AddedToCart(c, p);
    NumMatchesExact(c, p);
    if HasMatch(c, p) {
      CountAfterIncrement(c, r, p);
    } else {
      CountAfterIncrement(c, r[..|c|], p);
      assert r == r[..|c|] + [r[|c|]];
      CartCountAppend(r[..|c|], [r[|c|]]);
    }
  }

  /** addToCart keeps every quantity positive and never creates two lines with one key. */
  lemma AddedToCartValid(c: seq<CartItem>, p: Product)
    requires AllPositive(c) && DistinctKeys(c)
    ensures AllPositive(AddedToCart(c, p)) && DistinctKeys(AddedToCart(c, p))
  {
    var r := AddedToCart(c, p);
    forall i | 0 <= i < |c| ensures Key(r[i].product) == Key(c[i].product) {
      KeyOfSortedProduct(c[i].product);
    }
    KeyOfSortedProduct(p);
    forall i, j | 0 <= i < j < |r| ensures KeysDiffer(r[i], r[j]) {
      if j < |c| {
        assert KeysDiffer(c[i], c[j]);
      } else {
        assert !Matches(c[i], p);
      }
    }
  }

  // ---------------------------------------------------------------------------
  // removeFromCart
  // ---------------------------------------------------------------------------

  function OtherId(id: string): CartItem -> bool {
    (item: CartItem) => item.product.id != id
  }

  function SameId(id: string): CartItem -> bool {
    (item: CartItem) => item.product.id == id
  }

  /** `removeFromCart(id)`: the lines with another id, in their order. */
  function RemovedFromCart(c: seq<CartItem>, id: string): (r: seq<CartItem>)
    ensures forall x :: x in r <==> x in c && x.product.id != id
    ensures !HasId(c, id) ==> r == c
  {
    var r := Filter(c, OtherId(id));
    assert !HasId(c, id) ==> r == c by {
      if !HasId(c, id) {
        FilterKeepsAll(c, OtherId(id));
      }
    }
    r
  }

  /** Removal works line by line, so the lines it keeps stay in their relative order. */
  lemma RemovedFromCartAppend(a: seq<CartItem>, b: seq<CartItem>, id: string)
    ensures RemovedFromCart(a + b, id) == RemovedFromCart(a, id) + RemovedFromCart(b, id)
  {
    FilterAppend(a, b, OtherId(id));
  }

  /** Removing an id lowers the badge count by exactly the quantities of the lines with that id. */
  lemma {:induction false} RemovedFromCartCount(c: seq<CartItem>, id: string)
    ensures CartCount(RemovedFromCart(c, id)) == CartCount(c) - CartCount(Filter(c, SameId(id)))
    decreases |c|
  {
    if |c| > 0 {
      RemovedFromCartCount(c[1..], id);
      assert Filter(c, OtherId(id)) == (if c[0].product.id != id then [c[0]] else []) + Filter(c[1..], OtherId(id));
      CartCountAppend(if c[0].product.id != id then [c[0]] else [], Filter(c[1..], OtherId(id)));
      CartCountAppend(if c[0].product.id == id then [c[0]] else [], Filter(c[1..], SameId(id)));
    }
  }

  lemma RemovedFromCartValid(c: seq<CartItem>, id: string)
    requires AllPositive(c) && DistinctKeys(c)
    ensures AllPositive(RemovedFromCart(c, id)) && DistinctKeys(RemovedFromCart(c, id))
  {
    FilterPairwise(c, OtherId(id), KeysDiffer);
    var r := RemovedFromCart(c, id);
    forall i | 0 <= i < |r| ensures r[i].quantity > 0 {
      assert r[i] in c;
    }
  }

  // ---------------------------------------------------------------------------
  // updateQuantity
  // ---------------------------------------------------------------------------

  function Max0(x: int): nat {
    if x > 0 then x else 0
  }

  /** The `map` step of updateQuantity: every line with the id gets `max(0, quantity + delta)`. */
  function WithDelta(c: seq<CartItem>, id: string, delta: int): seq<CartItem> {
    seq(|c|, i requires 0 <= i < |c| =>
      if c[i].product.id == id then c[i].(quantity := Max0(c[i].quantity + delta)) else c[i])
  }

  function Positive(item: CartItem): bool {
    item.quantity > 0
  }

  /** `updateQuantity(id, delta)`: the `map` step, then the lines whose quantity is still positive. */
  function QuantityUpdated(c: seq<CartItem>, id: string, delta: int): (r: seq<CartItem>)
    ensures AllPositive(r)
    ensures |r| <= |c|
  {
    var r := Filter(WithDelta(c, id, delta), Positive);
    assert forall i :: 0 <= i < |r| ==> r[i] in r;
    r
  }

  lemma WithDeltaTail(c: seq<CartItem>, id: string, delta: int)
    requires |c| > 0
    ensures WithDelta(c, id, delta)[1..] == WithDelta(c[1..], id, delta)
  {
  }

  /** Lines with other ids come through updateQuantity unchanged and in their original order. */
  lemma {:induction false} QuantityUpdatedOthers(c: seq<CartItem>, id: string, delta: int)
    requires AllPositive(c)
    ensures RemovedFromCart(QuantityUpdated(c, id, delta), id) == RemovedFromCart(c, id)
    decreases |c|
  {
    if |c| > 0 {
      var w := WithDelta(c, id, delta);
      WithDeltaTail(c, id, delta);
      QuantityUpdatedOthers(c[1..], id, delta);
      var head := if Positive(w[0]) then [w[0]] else [];
      assert Filter(w, Positive) == head + Filter(w[1..], Positive);
      FilterAppend(head, Filter(w[1..], Positive), OtherId(id));
      assert Filter(c, OtherId(id)) == (if c[0].product.id != id then [c[0]] else []) + Filter(c[1..], OtherId(id));
    }
  }

  /** A change that takes every line with the id to zero or below removes them all, exactly as removeFromCart would. */
  lemma {:induction false} QuantityUpdatedToZero(c: seq<CartItem>, id: string, delta: int)
    requires AllPositive(c)
    requires forall i :: 0 <= i < |c| && c[i].product.id == id ==> c[i].quantity + delta <= 0
    ensures QuantityUpdated(c, id, delta) == RemovedFromCart(c, id)
    decreases |c|
  {
    if |c| > 0 {
      var w := WithDelta(c, id, delta);
      WithDeltaTail(c, id, delta);
      QuantityUpdatedToZero(c[1..], id, delta);
      assert Filter(w, Positive) == (if Positive(w[0]) then [w[0]] else []) + Filter(w[1..], Positive);
      assert Filter(c, OtherId(id)) == (if c[0].product.id != id then [c[0]] else []) + Filter(c[1..], OtherId(id));
    }
  }

  /**
   * Exactly which lines survive a quantity change: a line with another id as it was
   * (when its quantity is positive), and a line with the id moved by delta, when that
   * leaves it above zero.
   */
  lemma QuantityUpdatedMembers(c: seq<CartItem>, id: string, delta: int)
    ensures forall x :: x in QuantityUpdated(c, id, delta) <==>
      || (x in c && x.product.id != id && x.quantity > 0)
      || (exists y :: y in c && y.product.id == id && y.quantity + delta > 0 && x == y.(quantity := y.quantity + delta))
  {
    var w := WithDelta(c, id, delta);
    forall x
      ensures x in w && Positive(x) <==>
        || (x in c && x.product.id != id && x.quantity > 0)
        || (exists y :: y in c && y.product.id == id && y.quantity + delta > 0 && x == y.(quantity := y.quantity + delta))
    {
      if x in w && Positive(x) {
        var i :| 0 <= i < |w| && w[i] == x;
        assert c[i] in c;
      }
      if x in c && x.product.id != id && x.quantity > 0 {
        var i :| 0 <= i < |c| && c[i] == x;
        assert w[i] == x;
      }
      if exists y :: y in c && y.product.id == id && y.quantity + delta > 0 && x == y.(quantity := y.quantity + delta) {
        var y :| y in c && y.product.id == id && y.quantity + delta > 0 && x == y.(quantity := y.quantity + delta);
        var i :| 0 <= i < |c| && c[i] == y;
        assert w[i] == x;
      }
    }
  }

  /** A quantity change works line by line, so the surviving lines, of any id, keep their relative order. */
  lemma QuantityUpdatedAppend(a: seq<CartItem>, b: seq<CartItem>, id: string, delta: int)
    ensures QuantityUpdated(a + b, id, delta) == QuantityUpdated(a, id, delta) + QuantityUpdated(b, id, delta)
  {
    assert WithDelta(a + b, id, delta) == WithDelta(a, id, delta) + WithDelta(b, id, delta);
    FilterAppend(WithDelta(a, id, delta), WithDelta(b, id, delta), Positive);
  }

  /** What one line becomes: with the id, `max(0, q + delta)` and dropped at zero; otherwise kept while positive. */
  lemma QuantityUpdatedLine(x: CartItem, id: string, delta: int)
    ensures QuantityUpdated([x], id, delta) ==
      if x.product.id == id then
        (if x.quantity + delta > 0 then [x.(quantity := x.quantity + delta)] else [])
      else
        (if x.quantity > 0 then [x] else [])
  {
    assert WithDelta([x], id, delta)[1..] == [];
  }

  /** A change that leaves every line with the id above zero keeps all lines and only moves their quantities by delta. */
  lemma QuantityUpdatedKeepsLines(c: seq<CartItem>, id: string, delta: int)
    requires AllPositive(c)
    requires forall i :: 0 <= i < |c| && c[i].product.id == id ==> c[i].quantity + delta > 0
    ensures |QuantityUpdated(c, id, delta)| == |c|
    ensures forall i :: 0 <= i < |c| ==>
      QuantityUpdated(c, id, delta)[i] ==
        c[i].(quantity := if c[i].product.id == id then c[i].quantity + delta else c[i].quantity)
  {
    FilterKeepsAll(WithDelta(c, id, delta), Positive);
  }

  lemma QuantityUpdatedValid(c: seq<CartItem>, id: string, delta: int)
    requires AllPositive(c) && DistinctKeys(c)
    ensures AllPositive(QuantityUpdated(c, id, delta)) && DistinctKeys(QuantityUpdated(c, id, delta))
  {
    var w := WithDelta(c, id, delta);
    assert Pairwise(w, KeysDiffer) by {
      forall i, j | 0 <= i < j < |w| ensures KeysDiffer(w[i], w[j]) {
        assert KeysDiffer(c[i], c[j]);
      }
    }
    FilterPairwise(w, Positive, KeysDiffer);
  }

  // ---------------------------------------------------------------------------
  // The cart state
  // ---------------------------------------------------------------------------

  /** The `cartItems` state of the application shell. */
  class Cart {
    var items: seq<CartItem>

    ghost predicate Valid()
      reads this
    {
      AllPositive(items) && DistinctKeys(items)
    }

    constructor ()
      ensures Valid() && items == []
    {
      items := [];
    }

    method AddToCart(p: Product)
      requires Valid()
      modifies this
      ensures Valid()
      ensures items == AddedToCart(old(items), p)
      ensures CartCount(items) == CartCount(old(items)) + 1
    {
      AddedToCartValid(items, p);
      AddedToCartCount(items, p);
      items := AddedToCart(items, p);
    }

    method UpdateQuantity(id: string, delta: int)
      requires Valid()
      modifies this
      ensures Valid()
      ensures items == QuantityUpdated(old(items), id, delta)
      ensures RemovedFromCart(items, id) == RemovedFromCart(old(items), id)
    {
      QuantityUpdatedValid(items, id, delta);
      QuantityUpdatedOthers(items, id, delta);
      items := QuantityUpdated(items, id, delta);
    }

    method RemoveFromCart(id: string)
      requires Valid()
      modifies this
      ensures Valid()
      ensures items == RemovedFromCart(old(items), id)
      ensures !HasId(items, id)
    {
      RemovedFromCartValid(items, id);
      items := RemovedFromCart(items, id);
      assert forall i :: 0 <= i < |items| ==> items[i] in items;
    }
  }
}
