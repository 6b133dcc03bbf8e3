/**
 * The cart drawer's order total and the order transcript sent to the restaurant's
 * messaging contact. The transcript is a list of lines joined by newlines; the method
 * `BuildMessage` builds the same text step by step, the way the checkout handler does.
 * `fmt` stands for the es-CL `toLocaleString` of an amount.
 */
module Checkout {
  import opened Types
  import opened Builtins
  import CartEngine

  /** The delivery form of the cart drawer. */
  datatype DeliveryInfo = DeliveryInfo(name: string, address: string, paymentMethod: string, notes: string)

  // ---------------------------------------------------------------------------
  // The total
  // ---------------------------------------------------------------------------

  /** `total`: the sum over the lines of price times quantity, in exact integers. */
  function Total(items: seq<CartItem>): int {
    if |items| == 0 then 0 else items[0].product.price * items[0].quantity + Total(items[1..])
  }

  lemma {:induction false} TotalAppend(a: seq<CartItem>, b: seq<CartItem>)
    ensures Total(a + b) == Total(a) + Total(b)
    decreases |a|
  {
    if |a| == 0 {
      assert a + b == b;
    } else {
      assert (a + b)[1..] == a[1..] + b;
      TotalAppend(a[1..], b);
    }
  }

  lemma {:induction false} TotalAfterIncrement(c: seq<CartItem>, r: seq<CartItem>, p: Product)
    requires |r| == |c|
    requires forall i :: 0 <= i < |c| ==> r[i].product.price == c[i].product.price
    requires forall i :: 0 <= i < |c| ==> r[i].quantity == c[i].quantity + (if CartEngine.Matches(c[i], p) then 1 else 0)
    requires forall i :: 0 <= i < |c| && CartEngine.Matches(c[i], p) ==> c[i].product.price == p.price
    ensures Total(r) == Total(c) + p.price * CartEngine.NumMatches(c, p)
    decreases |c|
  {
    if |c| > 0 {
      TotalAfterIncrement(c[1..], r[1..], p);
      var price, q := c[0].product.price, c[0].quantity;
      if CartEngine.Matches(c[0], p) {
        assert price * (q + 1) == price * q + price;
      }
      assert p.price * CartEngine.NumMatches(c, p) ==
        (if CartEngine.Matches(c[0], p) then p.price else 0) + p.price * CartEngine.NumMatches(c[1..], p);
    }
  }

  /**
   * With one price per product id, as in the catalog, adding a product raises the
   * total by its price, whether it merges into a line or opens one.
   */
  lemma TotalAfterAdd(c: seq<CartItem>, p: Product)
    requires CartEngine.DistinctKeys(c)
    requires forall i :: 0 <= i < |c| && c[i].product.id == p.id ==> c[i].product.price == p.price
    ensures Total(CartEngine.AddedToCart(c, p)) == Total(c) + p.price
  {
    var r := CartEngine.AddedToCart(c, p);
    CartEngine.NumMatchesExact(c, p);
    if CartEngine.HasMatch(c, p) {
      TotalAfterIncrement(c, r, p);
    } else {
      TotalAfterIncrement(c, r[..|c|], p);
      assert r == r[..|c|] + [r[|c|]];
      TotalAppend(r[..|c|], [r[|c|]]);
      if CartEngine.HasId(c, p.id) {
        CartEngine.KeyOfSortedProduct(p);
      }
    }
  }

  // ---------------------------------------------------------------------------
  // The transcript
  // ---------------------------------------------------------------------------

  /** `text || fallback` on a form field. */
  function OrFallback(text: string, fallback: string): string {
    if text == "" then fallback else text
  }

  // Written as two literals: the verifier reads single characters of a short literal,
  // which `NotesLineIffNotes` needs, but not of a long one.
  const Greeting: string := "*Hola! " + "Quiero realizar un pedido en Rocker Pizza*"
  const DetailHeading: string := "*DETALLE DEL PEDIDO:*"
  const NotesLabel: string := "*Notas:* "

  function HeaderLines(info: DeliveryInfo): seq<string> {
    [ Greeting,
      "",
      "*Cliente:* " + OrFallback(info.name, "Sin nombre"),
      "*Dirección:* " + OrFallback(info.address, "Retiro en local"),
      "*Pago:* " + info.paymentMethod ]
    + (if info.notes != "" then [NotesLabel + info.notes] else [])
    + ["", DetailHeading]
  }

  /** The quantity, name and subtotal of a line. */
  function ItemLine(item: CartItem, fmt: int -> string): string {
    "• " + IntToString(item.quantity) + "x " + item.product.name
    + " ($" + fmt(item.product.price * item.quantity) + ")"
  }

  /** The sub-line of slot `k` of a bundle. */
  function BundleLine(k: nat, bundle: seq<string>): string {
    "  🍕 Pizza " + IntToString(k + 1) + ": " + Join(bundle, ", ")
  }

  function BundleLines(bundles: seq<seq<string>>): seq<string> {
    seq(|bundles|, k requires 0 <= k < |bundles| => BundleLine(k, bundles[k]))
  }

  function IngredientsLine(ingredients: seq<string>): string {
    "  _Ingredientes: " + Join(ingredients, ", ") + "_"
  }

  /** Bundle sub-lines take priority; otherwise an ingredients sub-line when any are selected. */
  function SubLines(p: Product): seq<string> {
    if |p.pizzaBundles| > 0 then BundleLines(p.pizzaBundles)
    else if p.selectedIngredients.Some? && |p.selectedIngredients.value| > 0 then [IngredientsLine(p.selectedIngredients.value)]
    else []
  }

  function ItemLines(item: CartItem, fmt: int -> string): seq<string> {
    [ItemLine(item, fmt)] + SubLines(item.product)
  }

  function DetailLines(items: seq<CartItem>, fmt: int -> string): seq<string> {
    if |items| == 0 then [] else ItemLines(items[0], fmt) + DetailLines(items[1..], fmt)
  }

  function TotalLine(total: int, fmt: int -> string): string {
    "*TOTAL: $" + fmt(total) + "*"
  }

  /** The lines of the order message. */
  function Transcript(items: seq<CartItem>, info: DeliveryInfo, fmt: int -> string): seq<string> {
    HeaderLines(info) + DetailLines(items, fmt) + ["", TotalLine(Total(items), fmt)]
  }

  /** The order message: the transcript's lines joined by newlines. */
  function Message(items: seq<CartItem>, info: DeliveryInfo, fmt: int -> string): string {
    Join(Transcript(items, info, fmt), "\n")
  }

  /** The header names the customer and the address, with fallbacks for empty fields, and always the payment method. */
  lemma TranscriptHeader(items: seq<CartItem>, info: DeliveryInfo, fmt: int -> string)
    ensures Transcript(items, info, fmt)[0] == Greeting
    ensures Transcript(items, info, fmt)[1] == ""
    ensures Transcript(items, info, fmt)[2] ==
      if info.name == "" then "*Cliente:* Sin nombre" else "*Cliente:* " + info.name
    ensures Transcript(items, info, fmt)[3] ==
      if info.address == "" then "*Dirección:* Retiro en local" else "*Dirección:* " + info.address
    ensures Transcript(items, info, fmt)[4] == "*Pago:* " + info.paymentMethod
  {
  }

  /** The notes line is there exactly when notes were written; without notes no header line carries the notes label. */
  lemma NotesLineIffNotes(items: seq<CartItem>, info: DeliveryInfo, fmt: int -> string)
    ensures Transcript(items, info, fmt)[5] == NotesLabel + info.notes <==> info.notes != ""
    ensures |HeaderLines(info)| == if info.notes != "" then 8 else 7
    ensures info.notes == "" ==> forall k :: 0 <= k < |HeaderLines(info)| ==> !(NotesLabel <= HeaderLines(info)[k])
  {
    var h := HeaderLines(info);
    if info.notes == "" {
      var client := "*Cliente:* " + OrFallback(info.name, "Sin nombre");
      var address := "*Dirección:* " + OrFallback(info.address, "Retiro en local");
      var payment := "*Pago:* " + info.paymentMethod;
      assert h == [Greeting, "", client, address, payment, "", DetailHeading];
      assert NotesLabel[1] == 'N';
      forall k | 0 <= k < |h| ensures !(NotesLabel <= h[k]) {
        if k == 0 {
          assert h[k][1] == 'H';
        } else if k == 2 {
          assert h[k][1] == 'C';
        } else if k == 3 || k == 6 {
          assert h[k][1] == 'D';
        } else if k == 4 {
          assert h[k][1] == 'P';
        }
      }
    }
  }

  /** The lines of the items follow the cart's order. */
  lemma {:induction false} DetailLinesAppend(a: seq<CartItem>, b: seq<CartItem>, fmt: int -> string)
    ensures DetailLines(a + b, fmt) == DetailLines(a, fmt) + DetailLines(b, fmt)
    decreases |a|
  {
    if |a| == 0 {
      assert a + b == b;
    } else {
      assert (a + b)[1..] == a[1..] + b;
      DetailLinesAppend(a[1..], b, fmt);
    }
  }

  /**
   * Each line starts with its quantity, name and subtotal; a bundle adds one sub-line per
   * slot, in slot order, and then no ingredients sub-line; otherwise one ingredients
   * sub-line appears exactly when ingredients are selected.
   */
  lemma ItemLinesShape(item: CartItem, fmt: int -> string)
    ensures ItemLines(item, fmt)[0] ==
      "• " + IntToString(item.quantity) + "x " + item.product.name
      + " ($" + fmt(item.product.price * item.quantity) + ")"
    ensures |item.product.pizzaBundles| > 0 ==>
      && |ItemLines(item, fmt)| == 1 + |item.product.pizzaBundles|
      && forall k :: 0 <= k < |item.product.pizzaBundles| ==>
           ItemLines(item, fmt)[k + 1] == "  🍕 Pizza " + IntToString(k + 1) + ": " + Join(item.product.pizzaBundles[k], ", ")
    ensures |item.product.pizzaBundles| == 0 ==>
      |ItemLines(item, fmt)| == if item.product.selectedIngredients.Some? && |item.product.selectedIngredients.value| > 0 then 2 else 1
    ensures |item.product.pizzaBundles| == 0 && item.product.selectedIngredients.Some? && |item.product.selectedIngredients.value| > 0 ==>
      ItemLines(item, fmt)[1] == "  _Ingredientes: " + Join(item.product.selectedIngredients.value, ", ") + "_"
  {
  }

  /** The message ends with a blank line and the total line. */
  lemma MessageEndsWithTotal(items: seq<CartItem>, info: DeliveryInfo, fmt: int -> string)
    ensures Message(items, info, fmt) ==
      Join(HeaderLines(info) + DetailLines(items, fmt), "\n") + "\n\n" + "*TOTAL: $" + fmt(Total(items)) + "*"
  {
    var body := HeaderLines(info) + DetailLines(items, fmt);
    var last := TotalLine(Total(items), fmt);
    JoinSnoc(body, "", "\n");
    JoinSnoc(body + [""], last, "\n");
    assert Transcript(items, info, fmt) == body + [""] + [last];
    calc {
      Message(items, info, fmt);
      Join(body + [""] + [last], "\n");
      Join(body + [""], "\n") + "\n" + last;
      Join(body, "\n") + "\n" + "" + "\n" + last;
      { assert "\n" + "" + "\n" == "\n\n"; }
      Join(body, "\n") + "\n\n" + last;
    }
  }

  // ---------------------------------------------------------------------------
  // Building the message
  // ---------------------------------------------------------------------------

  /** Each line followed by a newline. */
  function Terminated(lines: seq<string>): string {
    if |lines| == 0 then "" else Terminated(lines[..|lines| - 1]) + lines[|lines| - 1] + "\n"
  }

  lemma TerminatedSnoc(lines: seq<string>, line: string)
    ensures Terminated(lines + [line]) == Terminated(lines) + line + "\n"
  {
    assert (lines + [line])[..|lines|] == lines;
  }

  /** Joining with newlines is terminating every line but the last. */
  lemma {:induction false} JoinIsTerminated(lines: seq<string>, last: string)
    ensures Join(lines + [last], "\n") == Terminated(lines) + last
    decreases |lines|
  {
    if |lines| == 0 {
      assert lines + [last] == [last];
    } else {
      var init, l := lines[..|lines| - 1], lines[|lines| - 1];
      assert lines == init + [l];
      JoinSnoc(lines, last, "\n");
      JoinIsTerminated(init, l);
    }
  }

  lemma BundleLinesSnoc(bundles: seq<seq<string>>, k: nat)
    requires k < |bundles|
    ensures BundleLines(bundles[..k + 1]) == BundleLines(bundles[..k]) + [BundleLine(k, bundles[k])]
  {
  }

  lemma {:induction false} TerminatedAppend(a: seq<string>, b: seq<string>)
    ensures Terminated(a + b) == Terminated(a) + Terminated(b)
    decreases |b|
  {
    if |b| == 0 {
      assert a + b == a;
    } else {
      var init, l := b[..|b| - 1], b[|b| - 1];
      assert b == init + [l];
      assert a + b == (a + init) + [l];
      TerminatedSnoc(a + init, l);
      TerminatedSnoc(init, l);
      TerminatedAppend(a, init);
    }
  }

  /** The header part of the message, appended line by line. */
  method WriteHeader(info: DeliveryInfo) returns (m: string)
    ensures m == Terminated(HeaderLines(info))
  {
    ghost var emitted: seq<string> := [];
    m := "";
    var line := Greeting;
    m := m + line + "\n";
    TerminatedSnoc(emitted, line);
    emitted := emitted + [line];
    assert m == Terminated(emitted);
    line := "";
    m := m + line + "\n";
    TerminatedSnoc(emitted, line);
    emitted := emitted + [line];
    assert m == Terminated(emitted);
    line := "*Cliente:* " + OrFallback(info.name, "Sin nombre");
    m := m + line + "\n";
    TerminatedSnoc(emitted, line);
    emitted := emitted + [line];
    assert m == Terminated(emitted);
    line := "*Dirección:* " + OrFallback(info.address, "Retiro en local");
    m := m + line + "\n";
    TerminatedSnoc(emitted, line);
    emitted := emitted + [line];
    assert m == Terminated(emitted);
    line := "*Pago:* " + info.paymentMethod;
    m := m + line + "\n";
    TerminatedSnoc(emitted, line);
    emitted := emitted + [line];
    assert m == Terminated(emitted);
    if info.notes != "" {
      line := NotesLabel + info.notes;
      m := m + line + "\n";
      TerminatedSnoc(emitted, line);
      emitted := emitted + [line];
    }
    assert m == Terminated(emitted);
    line := "";
    m := m + line + "\n";
    TerminatedSnoc(emitted, line);
    emitted := emitted + [line];
    assert m == Terminated(emitted);
    line := DetailHeading;
    m := m + line + "\n";
    TerminatedSnoc(emitted, line);
    emitted := emitted + [line];
    assert m == Terminated(emitted);
    assert emitted == HeaderLines(info);
  }

  /** The part of the message for one cart line: its line, then its bundle or ingredients sub-lines. */
  method WriteItem(item: CartItem, fmt: int -> string) returns (m: string)
    ensures m == Terminated(ItemLines(item, fmt))
  {
    var line := ItemLine(item, fmt);
    m := line + "\n";
    TerminatedSnoc([], line);
    assert [] + [line] == [line];
    ghost var emitted := [line];
    var bundles := item.product.pizzaBundles;
    if |bundles| > 0 {
      var k := 0;
      while k < |bundles|
        invariant 0 <= k <= |bundles|
        invariant emitted == [ItemLine(item, fmt)] + BundleLines(bundles[..k])
        invariant m == Terminated(emitted)
      {
        line := BundleLine(k, bundles[k]);
        m := m + line + "\n";
        TerminatedSnoc(emitted, line);
        emitted := emitted + [line];
        BundleLinesSnoc(bundles, k);
        k := k + 1;
      }
      assert bundles[..k] == bundles;
    } else if item.product.selectedIngredients.Some? && |item.product.selectedIngredients.value| > 0 {
      line := IngredientsLine(item.product.selectedIngredients.value);
      m := m + line + "\n";
      TerminatedSnoc(emitted, line);
      emitted := emitted + [line];
    }
    assert emitted == ItemLines(item, fmt);
  }

  /** The message is the header and item lines, each terminated, then a blank line and the total line. */
  lemma MessageIsTerminated(items: seq<CartItem>, info: DeliveryInfo, fmt: int -> string)
    ensures Message(items, info, fmt) ==
      Terminated(HeaderLines(info) + DetailLines(items, fmt)) + "\n" + TotalLine(Total(items), fmt)
  {
    var body := HeaderLines(info) + DetailLines(items, fmt);
    var last := TotalLine(Total(items), fmt);
    TerminatedSnoc(body, "");
    JoinIsTerminated(body + [""], last);
    assert Transcript(items, info, fmt) == body + [""] + [last];
  }

  lemma DetailLinesSnoc(items: seq<CartItem>, i: nat, fmt: int -> string)
    requires i < |items|
    ensures DetailLines(items[..i + 1], fmt) == DetailLines(items[..i], fmt) + ItemLines(items[i], fmt)
  {
    assert items[..i + 1] == items[..i] + [items[i]];
    DetailLinesAppend(items[..i], [items[i]], fmt);
    assert DetailLines([items[i]], fmt) == ItemLines(items[i], fmt) + DetailLines([], fmt);
  }

  /** The item part of the message: every cart line in order, appended line by line. */
  method WriteItems(items: seq<CartItem>, fmt: int -> string) returns (m: string)
    ensures m == Terminated(DetailLines(items, fmt))
  {
    m := "";
    var i := 0;
    assert DetailLines(items[..0], fmt) == [];
    while i < |items|
      invariant 0 <= i <= |items|
      invariant m == Terminated(DetailLines(items[..i], fmt))
    {
      var part := WriteItem(items[i], fmt);
      TerminatedAppend(DetailLines(items[..i], fmt), ItemLines(items[i], fmt));
      DetailLinesSnoc(items, i, fmt);
      m := m + part;
      i := i + 1;
    }
    assert items[..i] == items;
  }

  /**
   * `handleWhatsAppCheckout`'s message: nothing for an empty cart, otherwise the
   * transcript, built with `+=` line by line.
   */
  method BuildMessage(items: seq<CartItem>, info: DeliveryInfo, fmt: int -> string) returns (message: Option<string>)
    ensures message.None? <==> |items| == 0
    ensures message.Some? ==> message.value == Message(items, info, fmt)
  {
    if |items| == 0 {
      return None;
    }
    var header := WriteHeader(info);
    var details := WriteItems(items, fmt);
    var m := header + details;
    TerminatedAppend(HeaderLines(info), DetailLines(items, fmt));
    m := m + "\n" + TotalLine(Total(items), fmt);
    MessageIsTerminated(items, info, fmt);
    message := Some(m);
  }
}
