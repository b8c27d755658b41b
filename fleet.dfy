/** The fleet screen's figures for one motorcycle: the straight-line depreciation estimate (1% of
    the purchase value per 30 days of use, capped at 99%), the odometer guess (350 km per day of
    use), and the screen's own currency formatter. Today's date is a parameter. */
module Fleet {
  import opened Wrappers
  import opened Text
  import opened Calendar
  import Reconciliation

  const KmPerDay := 350
  const DaysPerMonth := 30
  const MonthlyRate: real := 0.01
  const MaxRate: real := 0.99

  /** `float(d_valor or 0)`: a missing purchase value counts as 0. */
  function OriginalValue(valorCompra: Option<real>): real
  {
    valorCompra.GetOr(0.0)
  }

  /** `(hoje - data_compra).days`, or 0 when there is no purchase date. */
  function DaysInUse(purchase: Option<Date>, today: Date): int
    requires Valid(today) && (purchase.Some? ==> Valid(purchase.value))
  {
    if purchase.None? then 0 else DayNumber(today) - DayNumber(purchase.value)
  }

  /** `max(0, dias_uso // 30)`: Python's floor division, which Dafny's `/` by a positive number is too. */
  function MonthsInUse(days: int): nat
  {
    if days < 0 then 0 else days / DaysPerMonth
  }

  /** `dias_uso * 350`. */
  function EstimatedKm(days: int): int
  {
    days * KmPerDay
  }

  /** `min(0.99, meses_uso * 0.01)`. */
  function Rate(months: nat): real
  {
    var linear := months as real * MonthlyRate;
    if linear < MaxRate then linear else MaxRate
  }

  /** `valor_orig - valor_orig * taxa`. */
  function Depreciated(original: real, months: nat): real
  {
    original - original * Rate(months)
  }

  /** The figures the "Valores" tab shows. */
  datatype Estimate = Estimate(original: real, days: int, months: nat, km: int, rate: real, value: real)

  function EstimateFor(valorCompra: Option<real>, purchase: Option<Date>, today: Date): Estimate
    requires Valid(today) && (purchase.Some? ==> Valid(purchase.value))
  {
    var original := OriginalValue(valorCompra);
    var days := DaysInUse(purchase, today);
    var months := MonthsInUse(days);
    Estimate(original, days, months, EstimatedKm(days), Rate(months), Depreciated(original, months))
  }

  /** Months of use are the whole 30-day periods elapsed, and none before the first 30 days. */
  lemma MonthsInUseBounds(days: int)
    ensures days >= 0 ==> MonthsInUse(days) * DaysPerMonth <= days < (MonthsInUse(days) + 1) * DaysPerMonth
    ensures days < DaysPerMonth ==> MonthsInUse(days) == 0
  {
  }

  /** The rate grows by 1% a month up to 99% and stays there. */
  lemma RateBounds(months: nat)
    ensures 0.0 <= Rate(months) <= MaxRate
    ensures months <= 99 ==> Rate(months) == months as real * MonthlyRate
    ensures months >= 99 ==> Rate(months) == MaxRate
  {
  }

  /** For a non-negative purchase value the estimate never drops below 1% of it, so it is never
      negative, and it never exceeds the purchase value. */
  lemma DepreciatedBounds(original: real, months: nat)
    requires original >= 0.0
    ensures original / 100.0 <= Depreciated(original, months) <= original
  {
    RateBounds(months);
    var r := Rate(months);
    assert original * r <= original * MaxRate;
    assert original * r >= 0.0;
  }

  /** No depreciation during the first 30 days of use (nor with a purchase date in the future). */
  lemma NoDepreciationFirstMonth(original: real, days: int)
    requires days < DaysPerMonth
    ensures Depreciated(original, MonthsInUse(days)) == original
  {
  }

  /** The estimate never goes up as the days of use grow. */
  lemma DepreciationNonIncreasing(original: real, d1: int, d2: int)
    requires original >= 0.0 && d1 <= d2
    ensures Depreciated(original, MonthsInUse(d2)) <= Depreciated(original, MonthsInUse(d1))
  {
    var m1, m2 := MonthsInUse(d1), MonthsInUse(d2);
    if d1 >= 0 {
      MonthsInUseBounds(d1);
      MonthsInUseBounds(d2);
      assert m1 <= m2;
    }
    assert m1 <= m2;
    assert Rate(m1) <= Rate(m2);
    assert original * Rate(m1) <= original * Rate(m2);
  }

  /** Without a purchase date nothing has elapsed: full value, no kilometres. */
  lemma NoPurchaseDate(valorCompra: Option<real>, today: Date)
    requires Valid(today)
    ensures var e := EstimateFor(valorCompra, None, today);
      e.days == 0 && e.km == 0 && e.rate == 0.0 && e.value == OriginalValue(valorCompra)
  {
  }

  /** The fleet screen's `format_currency`: `f"R$ {v:,.2f}"` with the three replaces, and
      "R$ 0,00" for a value `float()` rejects. */
  function FormatCurrencyBRL(v: Amount): (r: string)
    ensures v.NotNumeric? ==> r == "R$ 0,00"
  {
    match v
    case Number(c) => ReplaceChar(ReplaceChar(ReplaceChar("R$ " + GroupedFixed2(c), ',', 'X'), '.', ','), 'X', '.')
    case NotNumeric(_) => "R$ 0,00"
  }

  /** A number renders as "R$ " followed by the dashboard's separator-swapped rendering, and a value
      `float()` rejects renders as zero does. */
  lemma FleetCurrencyIsPrefixedSwap(v: Amount)
    ensures v.Number? ==> FormatCurrencyBRL(v) == "R$ " + Reconciliation.FormatCurrency(v)
    ensures v.NotNumeric? ==> FormatCurrencyBRL(v) == FormatCurrencyBRL(Number(0))
  {
    if v.Number? {
      var g := GroupedFixed2(v.cents);
      assert "R$ " + g == ['R', '$', ' '] + g;
      ThreeReplacesSwap("R$ " + g);
      SwapSeparatorsConcat("R$ ", g);
      assert SwapSeparators("R$ ") == "R$ ";
    } else {
      ZeroCurrency();
    }
  }

  /** Zero is shown as "R$ 0,00". */
  lemma ZeroCurrency()
    ensures FormatCurrencyBRL(Number(0)) == "R$ 0,00"
  {
    assert Pad(0, 2) == "00";
    assert GroupedFixed2(0) == "0.00";
    var s := "R$ 0.00";
    assert "R$ " + GroupedFixed2(0) == s;
    ThreeReplacesSwap(s);
    assert SwapSeparators(s) == "R$ 0,00";
  }
}
