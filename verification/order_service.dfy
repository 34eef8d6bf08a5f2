/** The in-memory order table (`src/services/api/orderService.js`).
    Unlike the other services, the generated fields come first and the
    caller's fields are spread over them. */
module OrderService {
  import opened Wrappers
  import opened Records
  import opened Text

  const NotFound := "Order not found"

  /** The message `getById` throws for a missing id. */
  function NotFoundFor(id: string): (m: string)
    ensures |m| > |id| && m[|m| - |id|..] == id
  {
    "Order not found for id: " + id
  }

  /** `ORD-` and the last six digits of the timestamp. */
  function OrderNumber(now: nat): string {
    "ORD-" + LastChars(Decimal(now), 6)
  }

  /** `Date.now().toString().slice(-6)` */
  function OrderDigits(now: nat): string {
    LastChars(Decimal(now), 6)
  }

  function Pow10(k: nat): (p: nat)
    ensures p >= 1
  {
    if k == 0 then 1 else 10 * Pow10(k - 1)
  }

  lemma {:induction false} DecimalLength(n: nat, k: nat)
    requires n >= Pow10(k)
    ensures |Decimal(n)| > k
    decreases k
  {
    if k > 0 {
      DecimalLength(n / 10, k - 1);
    }
  }

  /** The order number is "ORD-" and then at most six digits, exactly six
      once the clock reads 100000 ms or more. */
  lemma OrderNumberShape(now: nat)
    ensures var o := OrderNumber(now);
      && o[..4] == "ORD-"
      && 5 <= |o| <= 10
      && (forall i :: 4 <= i < |o| ==> '0' <= o[i] <= '9')
      && (now >= 100000 ==> |o| == 10)
  {
    if now >= 100000 {
      DecimalLength(now, 5);
    }
  }

  /** Splitting a = q * p + v (v < p) and appending a digit d splits
      10a + d by 10p the same way. */
  lemma DigitStep(a: int, d: int, q: int, p: nat, v: int)
    requires 0 <= d < 10 && a == q * p + v && 0 <= v < p
    ensures a * 10 + d == q * (10 * p) + (v * 10 + d) && v * 10 + d < 10 * p
  {
    assert (q * p) * 10 == q * (10 * p);
  }

  /** The last k digits of a digit string are its value modulo 10^k:
      the value is q * 10^k plus what they denote, for the q returned. */
  lemma {:induction false} SuffixValue(s: string, k: nat) returns (q: int)
    requires forall i :: 0 <= i < |s| ==> '0' <= s[i] <= '9'
    requires k <= |s|
    ensures DigitsValue(s) == q * Pow10(k) + DigitsValue(s[|s| - k..])
    ensures 0 <= DigitsValue(s[|s| - k..]) < Pow10(k)
    decreases k
  {
    if k == 0 {
      assert s[|s|..] == [];
      q := DigitsValue(s);
    } else {
      var init, d := s[..|s| - 1], s[|s| - 1] as int - '0' as int;
      var suffix := s[|s| - k..];
      var tail := init[|init| - (k - 1)..];
      assert suffix[..|suffix| - 1] == tail;
      var q' := SuffixValue(init, k - 1);
      var p' := Pow10(k - 1);
      var a, v' := DigitsValue(init), DigitsValue(tail);
      assert DigitsValue(s) == a * 10 + d;
      assert DigitsValue(suffix) == v' * 10 + d;
      DigitStep(a, d, q', p', v');
      q := q';
    }
  }

  /** The order number is "ORD-" followed by `OrderDigits`. */
  lemma OrderNumberSplit(now: nat)
    ensures OrderNumber(now)[4..] == OrderDigits(now)
  {
    assert OrderNumber(now) == "ORD-" + OrderDigits(now);
  }

  /** The digits of the order number are the clock reading modulo 10^6:
      the reading is q * 10^6 plus what they denote, for the q returned. */
  lemma OrderNumberDigits(now: nat) returns (q: int)
    ensures 0 <= DigitsValue(OrderDigits(now)) < 1000000
    ensures now == q * 1000000 + DigitsValue(OrderDigits(now))
  {
    var s := Decimal(now);
    DecimalValue(now);
    if |s| >= 6 {
      assert OrderDigits(now) == s[|s| - 6..];
      q := SuffixValue(s, 6);
      assert Pow10(6) == 1000000;
    } else {
      assert OrderDigits(now) == s;
      ShortDecimal(now);
      q := 0;
    }
  }

  /** Fewer than six digits means a reading below 10^5. */
  lemma ShortDecimal(now: nat)
    requires |Decimal(now)| < 6
    ensures now < 100000
  {
    assert Pow10(5) == 100000;
    if now >= Pow10(5) {
      DecimalLength(now, 5);
    }
  }

  const ThirtyMinutesMs: nat := 30 * 60 * 1000

  /** The fields `create` generates before spreading the caller's data. */
  function Generated(now: nat, iso: nat -> string): (g: Record)
    ensures g.Keys == {"id", "orderNumber", "status", "createdAt", "estimatedDelivery"}
    ensures g["id"] == Str(Decimal(now)) && g["orderNumber"] == Str(OrderNumber(now))
    ensures g["status"] == Str("pending") && g["createdAt"] == Str(iso(now))
    ensures g["estimatedDelivery"] == Str(iso(now + ThirtyMinutesMs))
  {
    map[
      "id" := Str(Decimal(now)),
      "orderNumber" := Str(OrderNumber(now)),
      "status" := Str("pending"),
      "createdAt" := Str(iso(now)),
      "estimatedDelivery" := Str(iso(now + ThirtyMinutesMs))]
  }

  /** `{ id, orderNumber, status, createdAt, estimatedDelivery, ...orderData }`:
      the caller's fields win, the generated ones fill in the rest. */
  function NewOrder(orderData: Record, now: nat, iso: nat -> string): (r: Record)
    ensures r.Keys == orderData.Keys + Generated(now, iso).Keys
    ensures forall k :: k in orderData ==> r[k] == orderData[k]
    ensures forall k :: k in Generated(now, iso) && k !in orderData ==> r[k] == Generated(now, iso)[k]
  {
    Spread(Generated(now, iso), orderData)
  }

  /** An order created from data without an `estimatedDelivery` is due
      thirty minutes after it was created. */
  lemma DeliveryThirtyMinutesLater(orderData: Record, now: nat, iso: nat -> string)
    requires "estimatedDelivery" !in orderData && "createdAt" !in orderData
    ensures var r := NewOrder(orderData, now, iso);
      r["createdAt"] == Str(iso(now)) && r["estimatedDelivery"] == Str(iso(now + 1800000))
  {
  }

  class OrderTable {
    var orders: seq<Record>

    /** `let orders = [...orderData]` */
    constructor (fixture: seq<Record>)
      ensures orders == fixture
    {
      orders := fixture;
    }

    /** `getAll` */
    method GetAll() returns (r: seq<Record>)
      ensures r == orders
    {
      r := orders;
    }

    /** `getById`: the first order with that id, or an error naming the id. */
    method GetById(id: string) returns (r: Result<Record>)
      ensures r.Err? <==> NoneHasId(orders, id)
      ensures r.Err? ==> r.message == NotFoundFor(id)
      ensures r.Ok? ==> exists i :: 0 <= i < |orders| && r.value == orders[i]
                          && HasId(orders[i], id) && NoneHasId(orders[..i], id)
    {
      var found := IndexOfId(orders, id);
      match found {
        case None => r := Err(NotFoundFor(id));
        case Some(i) => r := Ok(orders[i]);
      }
    }

    /** `create`: appends the new order. */
    method Create(orderData: Record, now: nat, iso: nat -> string) returns (r: Record)
      modifies this
      ensures r == NewOrder(orderData, now, iso)
      ensures orders == old(orders) + [r]
    {
      r := NewOrder(orderData, now, iso);
      orders := orders + [r];
    }

    /** `update`: merges `data` into the first order with that id. */
    method Update(id: string, data: Record) returns (r: Result<Record>)
      modifies this
      ensures match IndexOfId(old(orders), id)
        case None => r == Err(NotFound) && orders == old(orders)
        case Some(i) =>
          && r == Ok(Spread(old(orders)[i], data))
          && orders == old(orders)[i := r.value]
    {
      var found := IndexOfId(orders, id);
      match found {
        case None => r := Err(NotFound);
        case Some(i) =>
          orders := orders[i := Spread(orders[i], data)];
          r := Ok(orders[i]);
      }
    }

    /** `delete`: splices out the first order with that id. */
    method Delete(id: string) returns (r: Result<Record>)
      modifies this
      ensures match IndexOfId(old(orders), id)
        case None => r == Err(NotFound) && orders == old(orders)
        case Some(i) => r == Ok(Success) && orders == RemoveAt(old(orders), i)
    {
      var found := IndexOfId(orders, id);
      match found {
        case None => r := Err(NotFound);
        case Some(i) =>
          orders := RemoveAt(orders, i);
          r := Ok(Success);
      }
    }
  }
}
