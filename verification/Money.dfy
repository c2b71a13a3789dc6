/**
 The totals the clients check are computed in IEEE 754 binary64. Prices and totals are safe
 integers, but products and partial sums may pass 2^53, where not every integer is a double.
 `Round` is round-to-nearest, ties to even (section 4.3.1 of IEEE 754-2019), on natural
 numbers far below the largest double.
 */
module Money {
  const TWO_52: nat := 0x10_0000_0000_0000
  const TWO_53: nat := 0x20_0000_0000_0000
  const MAX_SAFE: nat := TWO_53 - 1

  /** The distance between neighbouring doubles at `n`. */
  function Ulp(n: nat): (u: nat)
    ensures u >= 1
    ensures n >= TWO_53 ==> u >= 2 && u * TWO_52 <= n
  {
    if n < TWO_53 then 1 else 2 * Ulp(n / 2)
  }

  function Round(n: nat): nat {
    var u := Ulp(n);
    var q, r := n / u, n % u;
    if 2 * r < u || (2 * r == u && q % 2 == 0) then q * u else (q + 1) * u
  }

  lemma SmallIsExact(n: nat)
    requires n < TWO_53
    ensures Round(n) == n
  {
  }

  lemma MulMono(a: nat, b: nat, u: nat)
    requires a <= b
    ensures a * u <= b * u
  {
  }

  lemma DivideBack(n: nat, u: nat, k: nat)
    requires u >= 1 && k * u <= n
    ensures k <= n / u && k * u <= n / u * u <= n
  {
    assert n == n / u * u + n % u;
    assert (n / u + 1) * u == n / u * u + u;
    if n / u + 1 <= k { MulMono(n / u + 1, k, u); }
    MulMono(k, n / u, u);
  }

  /** Rounding never brings a large number back into the safe range. */
  lemma LargeStaysLarge(n: nat)
    requires n >= TWO_53
    ensures Round(n) >= TWO_53
  {
    var u := Ulp(n);
    DivideBack(n, u, TWO_52);
    var q := n / u;
    assert TWO_53 == TWO_52 * 2 <= TWO_52 * u;
    assert TWO_52 * u == u * TWO_52;
    assert (q + 1) * u == q * u + u;
  }

  lemma DivisionOf(n: nat, u: nat)
    requires u >= 1
    ensures n == n / u * u + n % u && n % u < u
  {
  }

  lemma NextMultiple(q: nat, u: nat)
    ensures (q + 1) * u == q * u + u
  {
  }

  lemma RoundIs(n: nat)
    ensures var q := n / Ulp(n); Round(n) == q * Ulp(n) || Round(n) == (q + 1) * Ulp(n)
    ensures Round(n) == if 2 * (n % Ulp(n)) < Ulp(n) || (2 * (n % Ulp(n)) == Ulp(n) && n / Ulp(n) % 2 == 0)
                        then n / Ulp(n) * Ulp(n) else (n / Ulp(n) + 1) * Ulp(n)
  {
    hide Ulp;
  }

  /** The rounded value is a nearest multiple of the spacing. */
  lemma RoundsToNearest(n: nat)
    ensures exists k: nat :: Round(n) == k * Ulp(n)
    ensures -(Ulp(n) as int) <= 2 * (Round(n) - n) <= Ulp(n)
  {
    RoundIs(n);
    DivisionOf(n, Ulp(n));
    NextMultiple(n / Ulp(n), Ulp(n));
    hide *;
    var k: nat := if Round(n) == n / Ulp(n) * Ulp(n) then n / Ulp(n) else n / Ulp(n) + 1;
    assert Round(n) == k * Ulp(n);
  }

  datatype Line = Line(unitPrice: nat, quantity: nat)

  /** What the parsers demand of each line: safe prices, quantities from 1 to 999. */
  predicate LineOk(l: Line) {
    1 <= l.unitPrice <= MAX_SAFE && 1 <= l.quantity <= 999
  }

  predicate LinesOk(lines: seq<Line>) {
    1 <= |lines| <= 100 && forall i :: 0 <= i < |lines| ==> LineOk(lines[i])
  }

  function Exact(lines: seq<Line>): nat {
    if lines == [] then 0
    else Exact(lines[..|lines| - 1]) + lines[|lines| - 1].unitPrice * lines[|lines| - 1].quantity
  }

  /** `items.reduce((n, i) => n + i.unitPriceRial * i.quantity, 0)`: every product and
      every addition is rounded. */
  function Reduced(lines: seq<Line>): nat {
    if lines == [] then 0
    else Round(Reduced(lines[..|lines| - 1]) + Round(lines[|lines| - 1].unitPrice * lines[|lines| - 1].quantity))
  }

  /** As long as the exact sum is safe nothing was rounded; from then on the computed sum
      stays out of the safe range. */
  lemma {:induction false} ReducedTracksExact(lines: seq<Line>)
    ensures Exact(lines) < TWO_53 ==> Reduced(lines) == Exact(lines)
    ensures Exact(lines) >= TWO_53 ==> Reduced(lines) >= TWO_53
  {
    if lines != [] {
      var front, last := lines[..|lines| - 1], lines[|lines| - 1];
      var product := last.unitPrice * last.quantity;
      ReducedTracksExact(front);
      if product < TWO_53 { SmallIsExact(product); } else { LargeStaysLarge(product); }
      var sum := Reduced(front) + Round(product);
      if sum < TWO_53 { SmallIsExact(sum); } else { LargeStaysLarge(sum); }
    }
  }

  /** `quote`, and each row of a comparison: the total agrees with the lines. */
  predicate QuoteAccepted(lines: seq<Line>, total: int) {
    LinesOk(lines) && 1 <= total <= MAX_SAFE && Reduced(lines) == total
  }

  /** `order`: the total is what was paid, and agrees with the lines. */
  predicate OrderAccepted(lines: seq<Line>, total: int, cash: int, credit: int) {
    && LinesOk(lines) && 1 <= total <= MAX_SAFE && 0 <= cash <= MAX_SAFE && 0 <= credit <= MAX_SAFE
    && total == Round(cash + credit) && total == Reduced(lines)
  }

  /** A quote or comparison passes exactly when the exact integer sum is the total. */
  lemma QuoteTotalsAreExact(lines: seq<Line>, total: int)
    ensures QuoteAccepted(lines, total) <==> LinesOk(lines) && 1 <= total <= MAX_SAFE && Exact(lines) == total
  {
    ReducedTracksExact(lines);
  }

  /** An order passes exactly when lines and payments add up to the total as integers. */
  lemma OrderTotalsAreExact(lines: seq<Line>, total: int, cash: int, credit: int)
    ensures OrderAccepted(lines, total, cash, credit) <==>
              && LinesOk(lines) && 1 <= total <= MAX_SAFE && 0 <= cash <= MAX_SAFE && 0 <= credit <= MAX_SAFE
              && cash + credit == total && Exact(lines) == total
  {
    ReducedTracksExact(lines);
    if 0 <= cash && 0 <= credit {
      if cash + credit < TWO_53 { SmallIsExact(cash + credit); } else { LargeStaysLarge(cash + credit); }
    }
  }

  /** Said with the numbers themselves: a quote or a comparison row passes exactly for 1 to 100
      lines of 1 to 999 pieces whose prices and total are positive integers below 2^53 and
      whose products add up to the total. */
  lemma QuoteLimits(lines: seq<Line>, total: int)
    ensures QuoteAccepted(lines, total) <==>
              && 1 <= |lines| <= 100
              && (forall l :: l in lines ==> 0 < l.unitPrice < 9007199254740992 && 0 < l.quantity < 1000)
              && 0 < total < 9007199254740992 && Exact(lines) == total
  {
    QuoteTotalsAreExact(lines, total);
    forall i | 0 <= i < |lines| ensures lines[i] in lines {}
  }

  /** The same limits for an order, which also needs payments that are not negative. */
  lemma OrderLimits(lines: seq<Line>, total: int, cash: int, credit: int)
    ensures OrderAccepted(lines, total, cash, credit) <==>
              && 1 <= |lines| <= 100
              && (forall l :: l in lines ==> 0 < l.unitPrice < 9007199254740992 && 0 < l.quantity < 1000)
              && 0 < total < 9007199254740992 && Exact(lines) == total
              && 0 <= cash && 0 <= credit && cash + credit == total
  {
    OrderTotalsAreExact(lines, total, cash, credit);
    forall i | 0 <= i < |lines| ensures lines[i] in lines {}
  }

  /** The computed sum is not exact in general: two lines of 2^53 - 1 and 2 print one less. */
  lemma SumsCanBeRounded()
    ensures var lines := [Line(MAX_SAFE, 1), Line(2, 1)];
            LinesOk(lines) && Exact(lines) == TWO_53 + 1 && Reduced(lines) == TWO_53
  {
    var first, both := [Line(MAX_SAFE, 1)], [Line(MAX_SAFE, 1), Line(2, 1)];
    assert both[..1] == first && first[..0] == [];
    assert Exact(first) == MAX_SAFE && Reduced(first) == MAX_SAFE;
    assert Ulp(TWO_53 + 1) == 2 && Round(TWO_53 + 1) == TWO_53;
  }
}
