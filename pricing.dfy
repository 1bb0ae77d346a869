/**
 * The landing page's pricing section: the billing-period toggle, the price of
 * a plan in the chosen period (yearly billing is twelve months less 15%,
 * rounded to a whole amount), and the price label (`getPrice`, `formatPrice`,
 * `getPriceDisplay`).
 *
 * Prices are whole non-negative amounts. `Math.round(m * 12 * 0.85)` is
 * modelled exactly: the product is the rational `m * 1020 / 100`, rounded half
 * up. The product is never within 0.1 of a half (`YearlyNeverTies`), so for
 * the amounts the page lists (0, 19 and 99), and any amount small enough that
 * the double's rounding error stays below 0.1, floating point does not change
 * the result. Very large amounts (beyond about 10^13) are not covered by this
 * argument.
 */
module Pricing {
  import opened Text

  datatype BillingPeriod = Monthly | Yearly

  /** The plan prices the page lists, per month. */
  const FreePrice: nat := 0
  const ProPrice: nat := 19
  const EnterprisePrice: nat := 99

  /** `Math.round(num / den)` for a non-negative rational: the nearest whole number, halves going up. */
  function RoundHalfUp(num: nat, den: nat): (r: nat)
    requires den > 0
    ensures r * (2 * den) <= 2 * num + den < (r + 1) * (2 * den)
  {
    var r := (2 * num + den) / (2 * den);
    DivBounds(2 * num + den, 2 * den);
    r
  }

  /**
   * `getPrice`: a free plan costs nothing, monthly billing is the monthly
   * price, and yearly billing is the whole amount nearest to twelve months
   * at 85%, `10.2 m`.
   */
  function GetPrice(period: BillingPeriod, monthly: nat): (r: nat)
    ensures monthly == 0 || period == Monthly ==> r == monthly
    ensures period == Yearly ==> r * 100 <= 1020 * monthly + 50 < (r + 1) * 100
  {
    if monthly == 0 then 0
    else if period == Yearly then RoundHalfUp(monthly * 12 * 85, 100)
    else monthly
  }

  /**
   * Separates the digits in groups of three from the right with commas, as
   * `toLocaleString` does in the en-US locale.
   */
  function GroupThousands(digits: string): string
    decreases |digits|
  {
    if |digits| <= 3 then digits
    else GroupThousands(digits[..|digits| - 3]) + "," + digits[|digits| - 3..]
  }

  /**
   * Digits grouped as the en-US locale writes them: a character is a comma
   * exactly when it stands four, eight, twelve ... places from the end, and
   * the first group is not empty.
   */
  predicate ThousandsGrouped(s: string)
  {
    && s != [] && s[0] != ','
    && forall i :: 0 <= i < |s| ==> (s[i] == ',' <==> (|s| - i) % 4 == 0)
  }

  /** Grouping puts the separators exactly where the en-US locale does. */
  lemma {:induction false} GroupThousandsGrouped(digits: string)
    requires digits != [] && ',' !in digits
    ensures ThousandsGrouped(GroupThousands(digits))
    decreases |digits|
  {
    if |digits| > 3 {
      var head, tail := digits[..|digits| - 3], digits[|digits| - 3..];
      assert ',' !in head && ',' !in tail;
      GroupThousandsGrouped(head);
      var g := GroupThousands(head);
      var s := g + "," + tail;
      forall i | 0 <= i < |s|
        ensures s[i] == ',' <==> (|s| - i) % 4 == 0
      {
        if i < |g| {
          assert s[i] == g[i] && |s| - i == (|g| - i) + 4;
        } else if i > |g| {
          assert s[i] == tail[i - |g| - 1];
        }
      }
    } else {
      assert forall i :: 0 <= i < |digits| ==> digits[i] != ',';
    }
  }

  /** Drops the group separators: the partner of `GroupThousands`. */
  function RemoveCommas(s: string): string
  {
    if s == [] then [] else (if s[0] == ',' then [] else [s[0]]) + RemoveCommas(s[1..])
  }

  lemma {:induction false} RemoveCommasAppend(a: string, b: string)
    ensures RemoveCommas(a + b) == RemoveCommas(a) + RemoveCommas(b)
  {
    if a == [] {
      assert a + b == b;
    } else {
      assert (a + b)[1..] == a[1..] + b;
      RemoveCommasAppend(a[1..], b);
    }
  }

  lemma {:induction false} RemoveCommasKeepsPlain(s: string)
    requires ',' !in s
    ensures RemoveCommas(s) == s
  {
    if s != [] {
      RemoveCommasKeepsPlain(s[1..]);
    }
  }

  /** A separator disappears and the plain group after it stays as it is. */
  lemma {:induction false} RemoveCommasAtSeparator(g: string, t: string)
    requires ',' !in t
    ensures RemoveCommas(g + "," + t) == RemoveCommas(g) + t
  {
    var rest := [','] + t;
    assert g + "," + t == g + rest;
    RemoveCommasAppend(g, rest);
    assert rest[0] == ',' && rest[1..] == t;
    RemoveCommasKeepsPlain(t);
  }

  /** Grouping loses nothing: removing the separators gives the digits back. */
  lemma {:induction false} GroupThousandsRoundTrip(digits: string)
    requires ',' !in digits
    ensures RemoveCommas(GroupThousands(digits)) == digits
    decreases |digits|
  {
    if |digits| <= 3 {
      RemoveCommasKeepsPlain(digits);
    } else {
      var head, tail := digits[..|digits| - 3], digits[|digits| - 3..];
      assert ',' !in head && ',' !in tail;
      GroupThousandsRoundTrip(head);
      RemoveCommasAtSeparator(GroupThousands(head), tail);
      assert head + tail == digits;
    }
  }

  /** One separator for every full group of three digits before the last group. */
  lemma {:induction false} GroupThousandsLength(digits: string)
    requires digits != []
    ensures |GroupThousands(digits)| == |digits| + (|digits| - 1) / 3
    decreases |digits|
  {
    if |digits| > 3 {
      GroupThousandsLength(digits[..|digits| - 3]);
    }
  }

  /**
   * `formatPrice`: `"0"` for zero, otherwise the amount's digits grouped in
   * thousands: without its separators the label is the amount's decimal
   * rendering, and the separators stand where the en-US locale puts them.
   */
  function FormatPrice(amount: nat): (r: string)
    ensures RemoveCommas(r) == NatToString(amount)
    ensures ThousandsGrouped(r)
  {
    var digits := NatToString(amount);
    assert ',' !in digits by {
      assert forall i :: 0 <= i < |digits| ==> digits[i] != ',';
    }
    GroupThousandsRoundTrip(digits);
    GroupThousandsGrouped(digits);
    if amount == 0 then "0" else GroupThousands(digits)
  }

  /** Reading the label's digits back gives the amount. */
  lemma FormatPriceReadsBack(amount: nat)
    ensures ParseDigits(RemoveCommas(FormatPrice(amount))) == amount
  {
    NatToStringRoundTrip(amount);
  }

  function PeriodSuffix(period: BillingPeriod): string
  {
    if period == Yearly then "/year" else "/month"
  }

  /** `getPriceDisplay`: the dollar sign, the formatted price, and the period. */
  function GetPriceDisplay(period: BillingPeriod, monthly: nat): (r: string)
    ensures |r| > 1 + |PeriodSuffix(period)| && r[0] == '$'
    ensures var digits := r[1..|r| - |PeriodSuffix(period)|];
      && r == "$" + digits + PeriodSuffix(period)
      && RemoveCommas(digits) == NatToString(GetPrice(period, monthly))
      && ThousandsGrouped(digits)
  {
    var r := "$" + FormatPrice(GetPrice(period, monthly)) + PeriodSuffix(period);
    assert r[1..|r| - |PeriodSuffix(period)|] == FormatPrice(GetPrice(period, monthly));
    r
  }

  /** The quotient is the whole number whose multiples bracket the dividend. */
  lemma DivBounds(n: nat, d: nat)
    requires d > 0
    ensures (n / d) * d <= n < (n / d + 1) * d
  {
    assert n == (n / d) * d + n % d;
  }

  /** The yearly price in whole-number arithmetic: `(1020 m + 50) div 100`. */
  lemma YearlyClosedForm(m: nat)
    ensures GetPrice(Yearly, m) == (1020 * m + 50) / 100
  {
  }

  /**
   * Twelve discounted months, `10.2 m`, always ends in an even tenth, so it is
   * never exactly halfway between two whole amounts and the rounding rule
   * cannot matter.
   */
  lemma YearlyNeverTies(m: nat)
    ensures (1020 * m) % 100 != 50
    ensures (1020 * m) % 100 == 20 * (m % 5)
  {
    var q, r := m / 5, m % 5;
    assert m == 5 * q + r;
    assert 1020 * m == 100 * (51 * q + 10 * r) + 20 * r;
  }

  /** The yearly price never drops when the monthly price rises. */
  lemma YearlyMonotone(m: nat, n: nat)
    requires m <= n
    ensures GetPrice(Yearly, m) <= GetPrice(Yearly, n)
  {
    YearlyClosedForm(m);
    YearlyClosedForm(n);
    assert 1020 * m + 50 <= 1020 * n + 50;
  }

  /** A paid plan is always cheaper billed yearly than twelve monthly payments. */
  lemma YearlyIsDiscounted(m: nat)
    requires m >= 1
    ensures GetPrice(Yearly, m) < 12 * m
    ensures GetPrice(Yearly, m) >= 10 * m
  {
    YearlyClosedForm(m);
  }

  /** Monthly billing shows the monthly price as it is, and a free plan is free either way. */
  lemma MonthlyIsIdentity(m: nat, period: BillingPeriod)
    ensures GetPrice(Monthly, m) == m
    ensures GetPrice(period, 0) == 0
  {
  }

  /** The page's two paid plans, billed yearly: 194 and 1010. */
  lemma PlanPrices()
    ensures GetPrice(Yearly, ProPrice) == 194 && GetPrice(Yearly, EnterprisePrice) == 1010
  {
    YearlyClosedForm(ProPrice);
    YearlyClosedForm(EnterprisePrice);
  }

  /** The pro plan billed yearly shows the amount `194`. */
  lemma ProYearlyAmount()
    ensures FormatPrice(GetPrice(Yearly, ProPrice)) == "194"
  {
    PlanPrices();
    assert NatToString(19) == "19";
    assert NatToString(194) == NatToString(19) + "4" == "194";
  }

  /** The enterprise plan billed yearly shows the amount with its thousands separator, `1,010`. */
  lemma EnterpriseYearlyAmount()
    ensures FormatPrice(GetPrice(Yearly, EnterprisePrice)) == "1,010"
  {
    PlanPrices();
    assert NatToString(10) == "10";
    assert NatToString(101) == NatToString(10) + "1" == "101";
    assert NatToString(1010) == NatToString(101) + "0" == "1010";
    assert "1010"[..1] == "1" && "1010"[1..] == "010";
    assert GroupThousands("1010") == "1" + "," + "010" == "1,010";
  }

  /** The labels the page shows for the pro plan billed monthly and for the free plan. */
  lemma MonthlyLabels()
    ensures GetPriceDisplay(Monthly, ProPrice) == "$19/month"
    ensures GetPriceDisplay(Yearly, FreePrice) == "$0/year"
  {
    assert NatToString(19) == "19";
  }

  /** The pricing section's state: only its two buttons change the billing period. */
  class PricingPage {
    var billingPeriod: BillingPeriod

    constructor ()
      ensures billingPeriod == Monthly
    {
      billingPeriod := Monthly;
    }

    method SelectMonthly()
      modifies this
      ensures billingPeriod == Monthly
    {
      billingPeriod := Monthly;
    }

    method SelectYearly()
      modifies this
      ensures billingPeriod == Yearly
    {
      billingPeriod := Yearly;
    }

    /** The label the page shows for a plan in the current period. */
    function PriceLabel(monthly: nat): (r: string)
      reads this
      ensures r == GetPriceDisplay(billingPeriod, monthly)
    {
      GetPriceDisplay(billingPeriod, monthly)
    }
  }
}
