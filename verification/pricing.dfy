/**
 * Checkout pricing and the quantity controls of the purchase form: one
 * price break at two units, a stepper and a typed field that both keep the
 * quantity between one and five.
 */
module Pricing {
  import opened Options
  import Decimal

  /** Unit price in cents below the price break (S/ 159.90). */
  const BasePrice: int := 15990
  /** Unit price in cents from two units on (S/ 149.90). */
  const TierPrice: int := 14990
  const MinQuantity: int := 1
  const MaxQuantity: int := 5

  datatype Quote = Quote(
    unitPrice: int,
    subtotal: int,
    total: int,
    savingsPerUnit: int,
    totalSavings: int)

  function Max(a: int, b: int): int {
    if a >= b then a else b
  }

  function Min(a: int, b: int): int {
    if a <= b then a else b
  }

  /** The unit price the form charges for `qty` units. */
  function UnitPrice(qty: int): (p: int)
    ensures p == TierPrice <==> qty >= 2
    ensures p == BasePrice <==> qty < 2
  {
    if qty >= 2 then TierPrice else BasePrice
  }

  /** The figures the order summary shows for `qty` units. */
  function QuoteFor(qty: int): (q: Quote)
    ensures q.unitPrice == UnitPrice(qty)
    ensures q.subtotal == BasePrice * qty
    ensures q.total == q.unitPrice * qty
    ensures q.savingsPerUnit == (if qty >= 2 then 1000 else 0)
    ensures q.totalSavings == q.subtotal - q.total
    ensures qty >= 0 ==> 0 <= q.totalSavings && q.total <= q.subtotal
  {
    var unit := UnitPrice(qty);
    var perUnit := Max(0, BasePrice - unit);
    Quote(unit, BasePrice * qty, unit * qty, perUnit, perUnit * qty)
  }

  /** The figures of the worked examples: one unit, and two units with the discount. */
  lemma QuoteExamples()
    ensures QuoteFor(1).total == 15990 && QuoteFor(1).totalSavings == 0
    ensures QuoteFor(2).total == 29980 && QuoteFor(2).totalSavings == 2000
    ensures QuoteFor(5).total == 74950 && QuoteFor(5).totalSavings == 5000
  {
  }

  /** Buying more units never costs less, despite the price break. */
  lemma TotalIncreasing(a: int, b: int)
    requires 1 <= a < b
    ensures QuoteFor(a).total < QuoteFor(b).total
  {
    if a == 1 {
      assert QuoteFor(b).total == TierPrice * b >= TierPrice * 2;
    } else {
      assert TierPrice * b - TierPrice * a == TierPrice * (b - a);
    }
  }

  /** The plus (`increment`) or minus stepper button applied to `q`. */
  function Step(q: int, increment: bool): (r: int)
    ensures MinQuantity <= q <= MaxQuantity ==> MinQuantity <= r <= MaxQuantity
    ensures increment ==> r <= MaxQuantity && (q < MaxQuantity ==> r == q + 1)
    ensures !increment ==> r >= MinQuantity && (q > MinQuantity ==> r == q - 1)
    ensures increment && q >= MaxQuantity ==> r == MaxQuantity
    ensures !increment && q <= MinQuantity ==> r == MinQuantity
  {
    if increment then Min(q + 1, MaxQuantity) else Max(q - 1, MinQuantity)
  }

  /** The plus button is disabled at five and the minus button at one. */
  predicate ButtonEnabled(q: int, increment: bool) {
    if increment then !(q >= MaxQuantity) else !(q <= MinQuantity)
  }

  /** Within range, a button is enabled exactly when pressing it would change the quantity. */
  lemma ButtonEnabledIffEffective(q: int, increment: bool)
    requires MinQuantity <= q <= MaxQuantity
    ensures ButtonEnabled(q, increment) <==> Step(q, increment) != q
  {
  }

  /** Plus then minus, or minus then plus, away from the bounds returns to where it started. */
  lemma StepRoundTrip(q: int)
    requires MinQuantity <= q <= MaxQuantity
    ensures q < MaxQuantity ==> Step(Step(q, true), false) == q
    ensures q > MinQuantity ==> Step(Step(q, false), true) == q
  {
  }

  /** `Math.max(1, Math.min(5, parseInt(text) || 1))`: NaN and 0 are falsy and become 1. */
  function TypedQuantity(text: string): (r: int)
    ensures MinQuantity <= r <= MaxQuantity
    ensures Decimal.ParseInt(text).None? ==> r == 1
    ensures Decimal.ParseInt(text) == Some(0) ==> r == 1
    ensures Decimal.ParseInt(text).Some? && Decimal.ParseInt(text).value < 0 ==> r == 1
    ensures Decimal.ParseInt(text).Some? && MinQuantity <= Decimal.ParseInt(text).value <= MaxQuantity
      ==> r == Decimal.ParseInt(text).value
    ensures Decimal.ParseInt(text).Some? && Decimal.ParseInt(text).value > MaxQuantity ==> r == MaxQuantity
  {
    var parsed := match Decimal.ParseInt(text)
      case None => 1
      case Some(n) => if n == 0 then 1 else n;
    Max(MinQuantity, Min(MaxQuantity, parsed))
  }

  /** Typing the digits of an allowed quantity selects that quantity. */
  lemma TypedQuantityOfText(n: nat)
    requires MinQuantity <= n <= MaxQuantity
    ensures TypedQuantity(Decimal.Text(n)) == n
  {
    Decimal.ParseText(n);
  }

  /** The quantity shown back in the field reads as itself: clamping is idempotent. */
  lemma TypedQuantityIdempotent(text: string)
    ensures TypedQuantity(Decimal.Text(TypedQuantity(text))) == TypedQuantity(text)
  {
    Decimal.ParseText(TypedQuantity(text));
  }

  /** A fractional or exponent input keeps only its leading integer part, as `parseInt` does. */
  lemma TypedQuantityTruncates(n: nat, rest: string)
    requires MinQuantity <= n <= MaxQuantity
    requires |rest| > 0 && (rest[0] == '.' || rest[0] == 'e')
    ensures TypedQuantity(Decimal.Text(n) + rest) == n
  {
    Decimal.DigitPrefixStops(Decimal.Text(n), rest);
    assert (Decimal.Text(n) + rest)[0] == Decimal.Text(n)[0];
  }
}
