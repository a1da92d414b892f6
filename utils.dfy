/** The metric helpers of src/lib/utils.ts: zero-guarded ratios and the
    threshold colour bands used to tint a metric's value. */
module Utils {

  /** `num / den`, or 0 when the denominator is 0. */
  function GuardedRatio(num: real, den: real): (r: real)
    ensures den == 0.0 ==> r == 0.0
    ensures den != 0.0 ==> r * den == num
  {
    if den == 0.0 then 0.0 else num / den
  }

  /** A guarded ratio is 0 exactly when its denominator or its numerator is 0. */
  lemma GuardedRatioZero(num: real, den: real)
    ensures GuardedRatio(num, den) == 0.0 <==> den == 0.0 || num == 0.0
  {
    if den != 0.0 && GuardedRatio(num, den) == 0.0 {
      assert num == GuardedRatio(num, den) * den;
    }
  }

  /** Return on ad spend. */
  function CalculateRoas(revenue: real, spend: real): (r: real)
    ensures spend == 0.0 ==> r == 0.0
    ensures spend != 0.0 ==> r * spend == revenue
  {
    GuardedRatio(revenue, spend)
  }

  /** Click-through rate. */
  function CalculateCtr(clicks: real, impressions: real): (r: real)
    ensures impressions == 0.0 ==> r == 0.0
    ensures impressions != 0.0 ==> r * impressions == clicks
  {
    GuardedRatio(clicks, impressions)
  }

  /** Cost per click. */
  function CalculateCpc(spend: real, clicks: real): (r: real)
    ensures clicks == 0.0 ==> r == 0.0
    ensures clicks != 0.0 ==> r * clicks == spend
  {
    GuardedRatio(spend, clicks)
  }

  /** Cost per acquisition. */
  function CalculateCpa(spend: real, conversions: real): (r: real)
    ensures conversions == 0.0 ==> r == 0.0
    ensures conversions != 0.0 ==> r * conversions == spend
  {
    GuardedRatio(spend, conversions)
  }

  /** The metric a colour is asked for; `OtherKind` is any value outside the
      declared union, which only untyped callers can pass. */
  datatype MetricKind = RoasKind | CtrKind | CpcKind | CpaKind | OtherKind

  /** The Tailwind text colours `getPerformanceColor` returns. */
  datatype Band = Green | Yellow | Red | Gray

  function BandClass(b: Band): string {
    match b
    case Green => "text-green-600"
    case Yellow => "text-yellow-600"
    case Red => "text-red-600"
    case Gray => "text-gray-600"
  }

  /** ROAS and CTR are higher-is-better, CPC and CPA lower-is-better. */
  function PerformanceColor(value: real, kind: MetricKind): (r: Band)
    ensures r == Gray <==> kind == OtherKind
    ensures kind == RoasKind ==> (r == Green <==> 4.0 <= value) && (r == Red <==> value < 2.0)
    ensures kind == CtrKind ==> (r == Green <==> 0.02 <= value) && (r == Red <==> value < 0.01)
    ensures kind == CpcKind ==> (r == Green <==> value <= 1.0) && (r == Red <==> 3.0 < value)
    ensures kind == CpaKind ==> (r == Green <==> value <= 20.0) && (r == Red <==> 50.0 < value)
  {
    match kind
    case RoasKind => if value >= 4.0 then Green else if value >= 2.0 then Yellow else Red
    case CtrKind => if value >= 0.02 then Green else if value >= 0.01 then Yellow else Red
    case CpcKind => if value <= 1.0 then Green else if value <= 3.0 then Yellow else Red
    case CpaKind => if value <= 20.0 then Green else if value <= 50.0 then Yellow else Red
    case OtherKind => Gray
  }

  /** How good a band is: red 0, yellow 1, green 2. */
  function Goodness(b: Band): nat {
    match b
    case Red => 0
    case Yellow => 1
    case Green => 2
    case Gray => 0
  }

  /** Raising ROAS or CTR never moves the colour toward red; raising CPC or
      CPA never moves it toward green. */
  lemma PerformanceColorMonotone(kind: MetricKind, lo: real, hi: real)
    requires lo <= hi
    ensures kind in {RoasKind, CtrKind} ==>
      Goodness(PerformanceColor(lo, kind)) <= Goodness(PerformanceColor(hi, kind))
    ensures kind in {CpcKind, CpaKind} ==>
      Goodness(PerformanceColor(lo, kind)) >= Goodness(PerformanceColor(hi, kind))
  {
  }

  /** The Web App init-data check is a stub that accepts everything. */
  function ValidateTelegramWebAppData(initData: string): (r: bool)
    ensures r
  {
    true
  }
}
