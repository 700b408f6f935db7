/** What a quotation's items, tax and discount come to. */
module Pricing {
  import opened Common

  /** An amount of money in hundredths. */
  type Money = int

  datatype Line = Line(quantity: int, unitPrice: Money)

  predicate LineOk(line: Line) { line.quantity > 0 && line.unitPrice >= 0 }

  function Subtotal(items: seq<Line>): Money {
    if items == [] then 0
    else Subtotal(items[..|items| - 1]) + items[|items| - 1].unitPrice * items[|items| - 1].quantity
  }

  /** What a quotation request is worth, or why it is refused. */
  function Price(items: seq<Line>, tax: Money, discount: Money): Result<(Money, Money)> {
    if items == [] || !(forall i :: 0 <= i < |items| ==> LineOk(items[i])) then Err(BadRequest)
    else if tax < 0 || discount < 0 then Err(BadRequest)
    else
      var total := Subtotal(items) + tax - discount;
      if total < 0 then Err(BadRequest) else Ok((Subtotal(items), total))
  }

  // ---------------------------------------------------------------- what a subtotal is

  /** One line is worth its price times its quantity. */
  lemma OneLine(q: int, p: Money)
    ensures Subtotal([Line(q, p)]) == p * q
  {
    assert [Line(q, p)][..0] == [];
  }

  /** Two lists together are worth what they are worth apart. */
  lemma {:induction false} SubtotalOfBoth(a: seq<Line>, b: seq<Line>)
    ensures Subtotal(a + b) == Subtotal(a) + Subtotal(b)
    decreases |b|
  {
    if b == [] {
      assert a + b == a;
    } else {
      assert (a + b)[..|a + b| - 1] == a + b[..|b| - 1];
      SubtotalOfBoth(a, b[..|b| - 1]);
    }
  }

  /** The order of the lines does not matter. */
  lemma {:induction false} SubtotalIgnoresOrder(a: seq<Line>, b: seq<Line>)
    requires multiset(a) == multiset(b)
    ensures Subtotal(a) == Subtotal(b)
    decreases |a|
  {
    assert |a| == |multiset(a)| == |multiset(b)| == |b|;
    if a != [] {
      var init, last := a[..|a| - 1], a[|a| - 1];
      assert a == init + [last];
      assert last in multiset(b);
      var k :| 0 <= k < |b| && b[k] == last;
      assert b == b[..k] + [last] + b[k + 1..];
      assert multiset(a) == multiset(init) + multiset{last};
      assert multiset(b) == multiset(b[..k]) + multiset{last} + multiset(b[k + 1..]);
      assert multiset(b[..k] + b[k + 1..]) == multiset(b[..k]) + multiset(b[k + 1..]);
      assert multiset(init) == multiset(a) - multiset{last} == multiset(b) - multiset{last};
      SubtotalIgnoresOrder(init, b[..k] + b[k + 1..]);
      SubtotalOfBoth(b[..k], b[k + 1..]);
      SubtotalOfBoth(b[..k], [last]);
      SubtotalOfBoth(b[..k] + [last], b[k + 1..]);
      SubtotalOfBoth(init, [last]);
    }
  }

  function Times(items: seq<Line>, k: int): (r: seq<Line>)
    ensures |r| == |items| && forall i :: 0 <= i < |items| ==> r[i] == items[i].(quantity := k * items[i].quantity)
  {
    seq(|items|, i requires 0 <= i < |items| => items[i].(quantity := k * items[i].quantity))
  }

  /** Ordering `k` times as much of everything costs `k` times as much. */
  lemma {:induction false} SubtotalScales(items: seq<Line>, k: int)
    ensures Subtotal(Times(items, k)) == k * Subtotal(items)
  {
    if items != [] {
      var n := |items| - 1;
      var q, p := items[n].quantity, items[n].unitPrice;
      assert Times(items, k)[..n] == Times(items[..n], k);
      SubtotalScales(items[..n], k);
      assert p * (k * q) == k * (p * q);
      Distribute(k, Subtotal(items[..n]), p * q);
    }
  }

  lemma Distribute(k: int, x: int, y: int)
    ensures k * (x + y) == k * x + k * y
  {}

  /** Two lines of one price are one line of that price with their quantities added, wherever they stand. */
  lemma MergedLines(a: seq<Line>, b: seq<Line>, c: seq<Line>, q1: int, q2: int, p: Money)
    ensures Subtotal(a + [Line(q1, p)] + b + [Line(q2, p)] + c) == Subtotal(a + [Line(q1 + q2, p)] + b + c)
  {
    OneLine(q1, p);
    OneLine(q2, p);
    OneLine(q1 + q2, p);
    Distribute(p, q1, q2);
    JoinThree(a, [Line(q1, p)], b);
    JoinThree(a + [Line(q1, p)] + b, [Line(q2, p)], c);
    JoinThree(a, [Line(q1 + q2, p)], b);
    SubtotalOfBoth(a + [Line(q1 + q2, p)] + b, c);
  }

  lemma JoinThree(a: seq<Line>, b: seq<Line>, c: seq<Line>)
    ensures Subtotal(a + b + c) == Subtotal(a) + Subtotal(b) + Subtotal(c)
  {
    SubtotalOfBoth(a + b, c);
    SubtotalOfBoth(a, b);
  }

  lemma {:induction false} SubtotalIsNonNegative(items: seq<Line>)
    requires forall i :: 0 <= i < |items| ==> LineOk(items[i])
    ensures Subtotal(items) >= 0
  {
    if items != [] {
      var last := items[|items| - 1];
      assert LineOk(last);
      SubtotalIsNonNegative(items[..|items| - 1]);
      assert last.unitPrice * last.quantity >= 0;
    }
  }

  // ---------------------------------------------------------------- when there is a price

  /** Items there are, each of a positive quantity at no negative price, and the discount is covered. */
  predicate Priced(items: seq<Line>, tax: Money, discount: Money) {
    && items != [] && (forall i :: 0 <= i < |items| ==> items[i].quantity >= 1 && 0 <= items[i].unitPrice)
    && 0 <= tax && 0 <= discount <= Subtotal(items) + tax
  }

  lemma PriceExactly(items: seq<Line>, tax: Money, discount: Money)
    ensures Price(items, tax, discount)
         == if Priced(items, tax, discount) then Ok((Subtotal(items), Subtotal(items) + tax - discount))
            else Err(BadRequest)
  {
    if Priced(items, tax, discount) {
      forall i | 0 <= i < |items| ensures LineOk(items[i]) {
        assert items[i].quantity >= 1;
      }
    } else if forall i :: 0 <= i < |items| ==> LineOk(items[i]) {
      assert forall i :: 0 <= i < |items| ==> LineOk(items[i]) && items[i].quantity >= 1 && 0 <= items[i].unitPrice;
    }
  }

  /** A single line is priced at its unit price times its quantity, exactly when both are acceptable. */
  lemma OneLinePrice(q: int, p: Money)
    ensures Price([Line(q, p)], 0, 0) == if q > 0 && p >= 0 then Ok((p * q, p * q)) else Err(BadRequest)
  {
    OneLine(q, p);
    PriceExactly([Line(q, p)], 0, 0);
    assert [Line(q, p)][0] == Line(q, p);
    if q > 0 && p >= 0 {
      assert p * q >= 0;
    }
  }
}
