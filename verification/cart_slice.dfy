/** The cart store (`src/store/cartSlice.js`): an ordered list of cart lines
    keyed by the menu item's id, and two totals that every reducer
    recomputes from the list. */
module CartSlice {
  import opened Wrappers
  import opened Seqs
  import opened Catalog

  /** `{ ...item, quantity }`: the item's own fields plus the quantity. */
  datatype CartLine = CartLine(item: MenuItem, quantity: int)

  /** `items.reduce((total, item) => total + item.quantity, 0)` */
  function QuantitySum(lines: seq<CartLine>): int {
    if lines == [] then 0
    else QuantitySum(lines[..|lines| - 1]) + lines[|lines| - 1].quantity
  }

  function LineAmount(line: CartLine): real {
    line.item.price * line.quantity as real
  }

  /** `items.reduce((total, item) => total + item.price * item.quantity, 0)` */
  function AmountSum(lines: seq<CartLine>): real {
    if lines == [] then 0.0
    else AmountSum(lines[..|lines| - 1]) + LineAmount(lines[|lines| - 1])
  }

  predicate HasLine(lines: seq<CartLine>, id: string) {
    exists j :: 0 <= j < |lines| && lines[j].item.id == id
  }

  /** At most one line per item id. */
  predicate UniqueIds(lines: seq<CartLine>) {
    forall i, j :: 0 <= i < |lines| && 0 <= j < |lines| && lines[i].item.id == lines[j].item.id ==> i == j
  }

  /** `items.find(line => line.id === id)`, as the index of the line found. */
  function IndexOfLine(lines: seq<CartLine>, id: string): (r: Option<nat>)
    ensures r.None? <==> !HasLine(lines, id)
    ensures r.Some? ==> r.value < |lines| && lines[r.value].item.id == id
    ensures r.Some? ==> forall j :: 0 <= j < r.value ==> lines[j].item.id != id
  {
    if lines == [] then None
    else if lines[0].item.id == id then Some(0)
    else
      match IndexOfLine(lines[1..], id)
      case None => None
      case Some(i) => Some(i + 1)
  }

  /** `items.filter(line => line.id !== id)` */
  function WithoutId(lines: seq<CartLine>, id: string): seq<CartLine> {
    Filter(lines, (l: CartLine) => l.item.id != id)
  }

  /** The list after `addToCart({ item, quantity: q })`. */
  function Added(lines: seq<CartLine>, item: MenuItem, q: int): seq<CartLine> {
    match IndexOfLine(lines, item.id)
    case Some(i) => lines[i := lines[i].(quantity := lines[i].quantity + q)]
    case None => lines + [CartLine(item, q)]
  }

  /** The list after `updateQuantity({ itemId: id, quantity: q })`. */
  function Updated(lines: seq<CartLine>, id: string, q: int): seq<CartLine> {
    match IndexOfLine(lines, id)
    case Some(i) => if q <= 0 then WithoutId(lines, id) else lines[i := lines[i].(quantity := q)]
    case None => lines
  }

  // ---------------------------------------------------------------------
  // What the reducers promise about the list

  /** Adding an item already in the cart grows only the first line with
      that id, by the given quantity; its other fields are kept. */
  lemma AddMergesExisting(lines: seq<CartLine>, item: MenuItem, q: int)
    requires HasLine(lines, item.id)
    ensures var r, i := Added(lines, item, q), IndexOfLine(lines, item.id).value;
      && |r| == |lines|
      && r[i] == CartLine(lines[i].item, lines[i].quantity + q)
      && forall j :: 0 <= j < |lines| && j != i ==> r[j] == lines[j]
  {
  }

  /** Adding a new item appends one line with the given quantity. */
  lemma AddAppendsNew(lines: seq<CartLine>, item: MenuItem, q: int)
    requires !HasLine(lines, item.id)
    ensures var r := Added(lines, item, q);
      && |r| == |lines| + 1
      && r[..|lines|] == lines
      && r[|lines|] == CartLine(item, q)
  {
  }

  /** `addToCart` keeps the cart at one line per item id. */
  lemma AddKeepsIdsUnique(lines: seq<CartLine>, item: MenuItem, q: int)
    requires UniqueIds(lines)
    ensures UniqueIds(Added(lines, item, q))
  {
  }

  lemma {:induction false} QuantitySumUpdate(s: seq<CartLine>, i: nat, x: CartLine)
    requires i < |s|
    ensures QuantitySum(s[i := x]) == QuantitySum(s) - s[i].quantity + x.quantity
    decreases |s|
  {
    var n := |s| - 1;
    if i == n {
      assert s[i := x][..n] == s[..n];
    } else {
      assert s[i := x][..n] == s[..n][i := x];
      QuantitySumUpdate(s[..n], i, x);
    }
  }

  lemma {:induction false} AmountSumUpdate(s: seq<CartLine>, i: nat, x: CartLine)
    requires i < |s|
    ensures AmountSum(s[i := x]) == AmountSum(s) - LineAmount(s[i]) + LineAmount(x)
    decreases |s|
  {
    var n := |s| - 1;
    if i == n {
      assert s[i := x][..n] == s[..n];
    } else {
      assert s[i := x][..n] == s[..n][i := x];
      AmountSumUpdate(s[..n], i, x);
    }
  }

  /** The unit price `addToCart` charges: the existing line's, since a
      merge keeps that line's fields. */
  function PriceCharged(lines: seq<CartLine>, item: MenuItem): real {
    match IndexOfLine(lines, item.id)
    case Some(i) => lines[i].item.price
    case None => item.price
  }

  lemma LineGrows(line: CartLine, q: int)
    ensures LineAmount(line.(quantity := line.quantity + q)) == LineAmount(line) + line.item.price * q as real
  {
    var p, a := line.item.price, line.quantity as real;
    calc {
      LineAmount(line.(quantity := line.quantity + q));
      p * (a + q as real);
      p * a + p * q as real;
    }
  }

  /** After `addToCart` with quantity q the totals grow by q items and by
      q times the unit price of the line that received them. */
  lemma AddTotals(lines: seq<CartLine>, item: MenuItem, q: int)
    ensures QuantitySum(Added(lines, item, q)) == QuantitySum(lines) + q
    ensures AmountSum(Added(lines, item, q)) == AmountSum(lines) + PriceCharged(lines, item) * q as real
  {
    var found := IndexOfLine(lines, item.id);
    if found.Some? {
      var i := found.value;
      var x := lines[i].(quantity := lines[i].quantity + q);
      assert Added(lines, item, q) == lines[i := x];
      QuantitySumUpdate(lines, i, x);
      AmountSumUpdate(lines, i, x);
      LineGrows(lines[i], q);
    } else {
      var r := lines + [CartLine(item, q)];
      assert Added(lines, item, q) == r;
      assert r[..|lines|] == lines;
    }
  }

  /** `removeFromCart` drops every line with the id and keeps the others
      in order; an id not in the cart changes nothing. */
  lemma RemoveDropsId(lines: seq<CartLine>, id: string)
    ensures var r := WithoutId(lines, id);
      && IsSubsequence(r, lines)
      && (forall l :: l in r <==> l in lines && l.item.id != id)
      && (forall l :: multiset(r)[l] == if l.item.id != id then multiset(lines)[l] else 0)
      && (!HasLine(lines, id) ==> r == lines)
  {
    FilterIsSubsequence(lines, (l: CartLine) => l.item.id != id);
    FilterCounts(lines, (l: CartLine) => l.item.id != id);
    if !HasLine(lines, id) {
      FilterKeepsAll(lines, (l: CartLine) => l.item.id != id);
    }
  }

  /** `removeFromCart` keeps the cart at one line per item id. */
  lemma {:induction false} RemoveKeepsIdsUnique(lines: seq<CartLine>, id: string)
    requires UniqueIds(lines)
    ensures UniqueIds(WithoutId(lines, id))
    decreases |lines|
  {
    if lines != [] {
      var init, last := lines[..|lines| - 1], lines[|lines| - 1];
      assert lines == init + [last];
      RemoveKeepsIdsUnique(init, id);
      forall l | l in WithoutId(init, id)
        ensures l.item.id != last.item.id
      {
        var k :| 0 <= k < |init| && init[k] == l;
        assert lines[k] == l;
      }
    }
  }

  /** `updateQuantity` keeps the cart at one line per item id. */
  lemma UpdateKeepsIdsUnique(lines: seq<CartLine>, id: string, q: int)
    requires UniqueIds(lines)
    ensures UniqueIds(Updated(lines, id, q))
  {
    if HasLine(lines, id) && q <= 0 {
      RemoveKeepsIdsUnique(lines, id);
    }
  }

  /** `updateQuantity` with q <= 0 on a line in the cart is `removeFromCart`. */
  lemma UpdateNonPositiveRemoves(lines: seq<CartLine>, id: string, q: int)
    requires HasLine(lines, id) && q <= 0
    ensures Updated(lines, id, q) == WithoutId(lines, id)
  {
  }

  /** `updateQuantity` with q > 0 sets the first matching line's quantity
      to exactly q and touches nothing else. */
  lemma UpdatePositiveSets(lines: seq<CartLine>, id: string, q: int)
    requires HasLine(lines, id) && q > 0
    ensures var r, i := Updated(lines, id, q), IndexOfLine(lines, id).value;
      && |r| == |lines|
      && r[i] == CartLine(lines[i].item, q)
      && forall j :: 0 <= j < |lines| && j != i ==> r[j] == lines[j]
  {
  }

  /** `updateQuantity` for an id not in the cart changes nothing. */
  lemma UpdateAbsentUnchanged(lines: seq<CartLine>, id: string, q: int)
    requires !HasLine(lines, id)
    ensures Updated(lines, id, q) == lines
  {
  }

  // ---------------------------------------------------------------------
  // The reducers' state

  class Cart {
    var items: seq<CartLine>
    var totalAmount: real
    var totalItems: int

    /** The totals never drift from the lines. */
    ghost predicate Valid()
      reads this
    {
      totalItems == QuantitySum(items) && totalAmount == AmountSum(items)
    }

    /** `initialState` */
    constructor ()
      ensures Valid() && items == []
    {
      items, totalAmount, totalItems := [], 0.0, 0;
    }

    /** `calculateTotals` */
    method CalculateTotals()
      modifies this
      ensures Valid() && items == old(items)
    {
      totalItems := SumQuantities(items);
      totalAmount := SumAmounts(items);
    }

    /** `addToCart`; `quantity` is `None` when the payload omits it. */
    method AddToCart(item: MenuItem, quantity: Option<int>)
      modifies this
      ensures Valid()
      ensures items == Added(old(items), item, quantity.GetOr(1))
      ensures UniqueIds(old(items)) ==> UniqueIds(items)
    {
      var q := quantity.GetOr(1);
      if UniqueIds(items) {
        AddKeepsIdsUnique(items, item, q);
      }
      var found := IndexOfLine(items, item.id);
      match found {
        case Some(i) =>
          items := items[i := items[i].(quantity := items[i].quantity + q)];
        case None =>
          items := items + [CartLine(item, q)];
      }
      CalculateTotals();
    }

    /** `removeFromCart` */
    method RemoveFromCart(itemId: string)
      modifies this
      ensures Valid()
      ensures items == WithoutId(old(items), itemId)
      ensures UniqueIds(old(items)) ==> UniqueIds(items)
    {
      if UniqueIds(items) {
        RemoveKeepsIdsUnique(items, itemId);
      }
      items := WithoutId(items, itemId);
      CalculateTotals();
    }

    /** `updateQuantity` */
    method UpdateQuantity(itemId: string, quantity: int)
      modifies this
      ensures Valid()
      ensures items == Updated(old(items), itemId, quantity)
      ensures UniqueIds(old(items)) ==> UniqueIds(items)
    {
      if UniqueIds(items) {
        UpdateKeepsIdsUnique(items, itemId, quantity);
      }
      var found := IndexOfLine(items, itemId);
      if found.Some? {
        var i := found.value;
        if quantity <= 0 {
          items := WithoutId(items, itemId);
        } else {
          items := items[i := items[i].(quantity := quantity)];
        }
      }
      CalculateTotals();
    }

    /** `clearCart` */
    method ClearCart()
      modifies this
      ensures Valid()
      ensures items == [] && totalAmount == 0.0 && totalItems == 0
    {
      items := [];
      totalAmount := 0.0;
      totalItems := 0;
    }
  }

  /** The first `reduce` of `calculateTotals`, as the loop it runs. */
  method SumQuantities(lines: seq<CartLine>) returns (total: int)
    ensures total == QuantitySum(lines)
  {
    total := 0;
    for i := 0 to |lines|
      invariant total == QuantitySum(lines[..i])
    {
      assert lines[..i + 1][..i] == lines[..i];
      total := total + lines[i].quantity;
    }
    assert lines[..|lines|] == lines;
  }

  /** The second `reduce` of `calculateTotals`. */
  method SumAmounts(lines: seq<CartLine>) returns (total: real)
    ensures total == AmountSum(lines)
  {
    total := 0.0;
    for i := 0 to |lines|
      invariant total == AmountSum(lines[..i])
    {
      assert lines[..i + 1][..i] == lines[..i];
      total := total + LineAmount(lines[i]);
    }
    assert lines[..|lines|] == lines;
  }
}
