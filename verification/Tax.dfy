/**
 Tax added at checkout and taken back out at completion (`src/checkout/checkout.service.ts`):
 amounts in integer cents, rates exact, rounding half up as `Math.round` does.
 */
module Tax {

  datatype TaxConfig = TaxConfig(rate: real, isInclusive: bool)

  /** `Math.round`: the nearest integer, the upper one on a tie. */
  function Round(x: real): (n: int)
    ensures n as real - 0.5 <= x < n as real + 0.5
  {
    (x + 0.5).Floor
  }

  lemma RoundIsUnique(x: real, n: int)
    requires n as real - 0.5 <= x < n as real + 0.5
    ensures Round(x) == n
  {
  }

  predicate Charges(tax: TaxConfig) { tax.rate > 0.0 && !tax.isInclusive }

  function ExactTax(amount: real, rate: real): real { amount * rate }

  /** Checkout: the tax of an amount without it. */
  function TaxOn(amount: int, tax: TaxConfig): int {
    if Charges(tax) then Round(ExactTax(amount as real, tax.rate)) else 0
  }

  function TotalOf(amount: int, tax: TaxConfig): int { amount + TaxOn(amount, tax) }

  function Share(total: real, rate: real): real
    requires rate > 0.0
  {
    total * rate / (1.0 + rate)
  }

  /** Completion: the tax inside a total. */
  function TaxWithin(total: int, tax: TaxConfig): int {
    if Charges(tax) then Round(Share(total as real, tax.rate)) else 0
  }

  function SubtotalOf(total: int, tax: TaxConfig): int { total - TaxWithin(total, tax) }

  lemma DividedSum(x: real, y: real, d: real)
    requires d > 0.0
    ensures (x * d + y) / d == x + y / d
  {
    var q := y / d;
    assert y == q * d;
    assert x * d + y == (x + q) * d;
  }

  lemma ShrinkStaysWithin(e: real, d: real)
    requires -0.5 <= e < 0.5 && d >= 1.0
    ensures -0.5 <= e / d < 0.5
  {
    var q := e / d;
    assert e == q * d;
    if q >= 0.0 { assert q * d >= q; } else { assert q * d <= q; }
  }

  lemma Regrouped(amount: real, tax: real, rate: real)
    ensures (amount + tax) * rate == tax * (1.0 + rate) + (amount * rate - tax)
  {
  }

  /** The share of a total that is tax, off the tax charged by the rounding error shrunk by 1 + r. */
  lemma ShareOfTotal(amount: real, tax: real, rate: real) returns (shrunk: real)
    requires rate > 0.0 && -0.5 <= amount * rate - tax < 0.5
    ensures Share(amount + tax, rate) == tax + shrunk && -0.5 <= shrunk < 0.5
  {
    var error := amount * rate - tax;
    shrunk := error / (1.0 + rate);
    Regrouped(amount, tax, rate);
    DividedSum(tax, error, 1.0 + rate);
    ShrinkStaysWithin(error, 1.0 + rate);
  }

  lemma TakenBackOut(amount: int, t: int, rate: real)
    requires rate > 0.0 && Round(ExactTax(amount as real, rate)) == t
    ensures Round(Share((amount + t) as real, rate)) == t
  {
    hide Share;
    var shrunk := ShareOfTotal(amount as real, t as real, rate);
    assert (amount + t) as real == amount as real + t as real;
    RoundIsUnique(Share((amount + t) as real, rate), t);
  }

  /** Whatever the amount and the configuration, completion finds the tax and the amount of checkout. */
  lemma TaxRoundTrip(amount: int, tax: TaxConfig)
    ensures TaxWithin(TotalOf(amount, tax), tax) == TaxOn(amount, tax)
    ensures SubtotalOf(TotalOf(amount, tax), tax) == amount
  {
    hide Round, Share, ExactTax;
    if Charges(tax) { TakenBackOut(amount, TaxOn(amount, tax), tax.rate); }
  }

  lemma ShareTimes(total: real, rate: real)
    requires rate > 0.0
    ensures Share(total, rate) * (1.0 + rate) == total * rate
  {
    var d := 1.0 + rate;
    var share := total * rate / d;
    assert share * d == total * rate;
  }

  /** How far the exact tax within a total is from the whole cents taken, in cents of total. */
  function Slack(total: int, rate: real): real
    requires rate > 0.0
  {
    (Share(total as real, rate) - Round(Share(total as real, rate)) as real) * (1.0 + rate)
  }

  /** What the subtotal taken out of a total would be taxed, against the tax taken out of it. */
  lemma TaxOfSubtotal(total: int, t: int, rate: real)
    requires rate > 0.0 && t == Round(Share(total as real, rate))
    ensures ExactTax((total - t) as real, rate) - t as real == Slack(total, rate)
  {
    hide Share, Round;
    ShareTimes(total as real, rate);
    var x, y, share := total as real, t as real, Share(total as real, rate);
    assert (total - t) as real == x - y;
    Expanded(share, y, rate);
    assert (x - y) * rate == x * rate - y * rate;
  }

  lemma Expanded(share: real, tax: real, rate: real)
    ensures (share - tax) * (1.0 + rate) == share * (1.0 + rate) - (tax + tax * rate)
  {
  }

  lemma SubtotalIsTaxedIff(total: int, tax: TaxConfig)
    requires Charges(tax)
    ensures TotalOf(SubtotalOf(total, tax), tax) == total <==> -0.5 <= Slack(total, tax.rate) < 0.5
  {
    hide Share, Round, Slack, ExactTax;
    var t := Round(Share(total as real, tax.rate));
    TaxOfSubtotal(total, t, tax.rate);
    RoundsTo(ExactTax((total - t) as real, tax.rate), t);
  }

  lemma RoundsTo(x: real, n: int)
    ensures Round(x) == n <==> -0.5 <= x - n as real < 0.5
  {
  }

  /**
   A total splits into a subtotal that charges it again exactly when some checkout could have
   produced it, and that is when the rounding of its tax, scaled back up to the total, stays within
   half a cent.
   */
  lemma SplitIsFaithfulIff(total: int, tax: TaxConfig)
    ensures TotalOf(SubtotalOf(total, tax), tax) == total
            <==> !Charges(tax) || -0.5 <= Slack(total, tax.rate) < 0.5
    ensures TotalOf(SubtotalOf(total, tax), tax) == total <==> exists amount :: TotalOf(amount, tax) == total
  {
    hide Slack, Share, Round;
    if Charges(tax) { SubtotalIsTaxedIff(total, tax); }
    if amount :| TotalOf(amount, tax) == total { TaxRoundTrip(amount, tax); }
  }

  /** Not every total can: at 19% nothing costs 3 cents with tax, since 2 gives 2 and 3 gives 4. */
  lemma SomeTotalsAreNobodys()
    ensures forall amount :: TotalOf(amount, TaxConfig(0.19, false)) != 3
  {
    var tax := TaxConfig(0.19, false);
    forall amount ensures TotalOf(amount, tax) != 3 {
      TaxRoundTrip(amount, tax);
      RoundIsUnique(3.0 * 0.19 / 1.19, 0);
      RoundIsUnique(3.0 * 0.19, 1);
    }
  }

  /** A larger amount never costs the same or less. */
  lemma TotalsGrow(a: int, b: int, tax: TaxConfig)
    requires a < b
    ensures TotalOf(a, tax) < TotalOf(b, tax)
  {
    if Charges(tax) {
      assert a as real * tax.rate <= b as real * tax.rate;
    }
  }

  /** A rate already in the amount, or no rate, adds nothing and takes nothing out; any other is charged to the nearest cent. */
  lemma OnlyAddedTaxIsCharged(amount: int, tax: TaxConfig)
    ensures tax.isInclusive || tax.rate <= 0.0 ==> TotalOf(amount, tax) == amount && SubtotalOf(amount, tax) == amount
    ensures !tax.isInclusive && tax.rate > 0.0 ==>
              var exact := ExactTax(amount as real, tax.rate);
              TotalOf(amount, tax) as real - 0.5 <= amount as real + exact < TotalOf(amount, tax) as real + 0.5
  {
    hide ExactTax, Share;
  }

  /** 19% on 10000 cents: 1900 added, unless the amount already carries it. */
  lemma NineteenPercent()
    ensures TotalOf(10000, TaxConfig(0.19, false)) == 11900 && SubtotalOf(11900, TaxConfig(0.19, false)) == 10000
    ensures TotalOf(10000, TaxConfig(0.19, true)) == 10000 && TotalOf(10000, TaxConfig(0.0, false)) == 10000
  {
    RoundIsUnique(10000.0 * 0.19, 1900);
    RoundIsUnique(11900.0 * 0.19 / 1.19, 1900);
  }
}
