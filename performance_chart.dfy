/** The performance chart's data: the top campaigns by ROAS, the
    budget-versus-revenue bars, the per-platform pie and its colour cycle. */
module PerformanceChart {
  import opened Common
  import opened Types
  import Seqs
  import PlatformGroups

  /** `name.length > n ? name.substring(0, n) + '...' : name` */
  function Truncate(name: string, n: nat): (r: string)
    ensures |name| <= n ==> r == name
    ensures |name| > n ==> |r| == n + 3 && r[..n] == name[..n] && r[n..] == "..."
  {
    if |name| > n then name[..n] + "..." else name
  }

  /** One bar of the ROAS chart. */
  datatype RoasPoint = RoasPoint(name: string, roas: real, spend: real, revenue: real, platform: Option<string>)

  function RoasPointOf(c: DashboardCampaign): RoasPoint {
    RoasPoint(Truncate(c.campaign.name, 15), RoasOf(c), SpendOf(c), RevenueOf(c), c.platform_name)
  }

  function PointRoas(p: RoasPoint): real { p.roas }

  /** `roasData` */
  function RoasData(cs: seq<DashboardCampaign>): seq<RoasPoint> {
    Seqs.Take(Seqs.SortDesc(Seqs.Map(Seqs.Filter(cs, HasMetrics), RoasPointOf), PointRoas), 10)
  }

  /** At most ten points, highest ROAS first, each drawn from a campaign
      with metrics. */
  lemma RoasDataShape(cs: seq<DashboardCampaign>)
    ensures |RoasData(cs)| <= 10
    ensures Seqs.SortedDesc(RoasData(cs), PointRoas)
    ensures forall p | p in RoasData(cs) :: exists c | c in cs :: HasMetrics(c) && p == RoasPointOf(c)
  {
    var withMetrics := Seqs.Filter(cs, HasMetrics);
    var points := Seqs.Map(withMetrics, RoasPointOf);
    var sorted := Seqs.SortDesc(points, PointRoas);
    var r := Seqs.Take(sorted, 10);
    assert RoasData(cs) == r;
    forall p | p in r ensures exists c | c in cs :: HasMetrics(c) && p == RoasPointOf(c) {
      assert p in sorted;
      assert p in multiset(sorted);
      var i :| 0 <= i < |points| && points[i] == p;
      assert withMetrics[i] in withMetrics;
    }
    forall i, j | 0 <= i < j < |r| ensures r[i].roas >= r[j].roas {
      assert r[i] == sorted[i] && r[j] == sorted[j];
    }
  }

  /** Ten points, or one per campaign with metrics when there are fewer, and
      no point more often than campaigns with metrics map to it. */
  lemma RoasDataCount(cs: seq<DashboardCampaign>)
    ensures |RoasData(cs)| ==
      if |Seqs.Filter(cs, HasMetrics)| < 10 then |Seqs.Filter(cs, HasMetrics)| else 10
    ensures multiset(RoasData(cs)) <= multiset(Seqs.Map(Seqs.Filter(cs, HasMetrics), RoasPointOf))
  {
    Seqs.TopOfSort(Seqs.Map(Seqs.Filter(cs, HasMetrics), RoasPointOf), PointRoas, 10);
  }

  /** A campaign with metrics whose ROAS beats the last point shown is
      itself among the points shown. */
  lemma RoasDataIsTop(cs: seq<DashboardCampaign>, c: DashboardCampaign)
    requires c in cs && HasMetrics(c)
    requires |RoasData(cs)| == 10 && RoasOf(c) > RoasData(cs)[9].roas
    ensures RoasPointOf(c) in RoasData(cs)
  {
    var points := Seqs.Map(Seqs.Filter(cs, HasMetrics), RoasPointOf);
    var sorted := Seqs.SortDesc(points, PointRoas);
    assert c in Seqs.Filter(cs, HasMetrics);
    var i :| 0 <= i < |Seqs.Filter(cs, HasMetrics)| && Seqs.Filter(cs, HasMetrics)[i] == c;
    assert points[i] == RoasPointOf(c);
    assert RoasPointOf(c) in multiset(points);
    assert RoasPointOf(c) in multiset(sorted);
    var j :| 0 <= j < |sorted| && sorted[j] == RoasPointOf(c);
    assert RoasData(cs)[9] == sorted[9];
    assert forall k | 10 <= k < |sorted| :: sorted[9].roas >= sorted[k].roas;
    assert j < 10;
    assert RoasData(cs) == sorted[..10];
    assert sorted[..10][j] == sorted[j];
  }

  /** One bar of the budget-versus-performance chart. */
  datatype BudgetPoint = BudgetPoint(name: string, budget: real, spend: real, roas: real, revenue: real)

  function BudgetPointOf(c: DashboardCampaign): BudgetPoint {
    BudgetPoint(Truncate(c.campaign.name, 12), c.campaign.budget, SpendOf(c), RoasOf(c), RevenueOf(c))
  }

  function PointRevenue(p: BudgetPoint): real { p.revenue }

  /** `budgetVsPerformance` */
  function BudgetVsPerformance(cs: seq<DashboardCampaign>): seq<BudgetPoint> {
    Seqs.Take(Seqs.SortDesc(Seqs.Map(Seqs.Filter(cs, HasMetrics), BudgetPointOf), PointRevenue), 8)
  }

  /** At most eight bars, highest revenue first, each drawn from a campaign
      with metrics, its name cut at twelve characters. */
  lemma BudgetVsPerformanceShape(cs: seq<DashboardCampaign>)
    ensures |BudgetVsPerformance(cs)| <= 8
    ensures Seqs.SortedDesc(BudgetVsPerformance(cs), PointRevenue)
    ensures forall p | p in BudgetVsPerformance(cs) ::
      |p.name| <= 15 && exists c | c in cs :: HasMetrics(c) && p == BudgetPointOf(c)
  {
    var points := Seqs.Map(Seqs.Filter(cs, HasMetrics), BudgetPointOf);
    var sorted := Seqs.SortDesc(points, PointRevenue);
    forall p | p in BudgetVsPerformance(cs)
      ensures |p.name| <= 15 && exists c | c in cs :: HasMetrics(c) && p == BudgetPointOf(c)
    {
      assert p in sorted;
      assert p in multiset(sorted);
      assert p in points;
      var i :| 0 <= i < |points| && points[i] == p;
      assert Seqs.Filter(cs, HasMetrics)[i] in Seqs.Filter(cs, HasMetrics);
    }
    var r := BudgetVsPerformance(cs);
    forall i, j | 0 <= i < j < |r| ensures r[i].revenue >= r[j].revenue {
      assert r[i] == sorted[i] && r[j] == sorted[j];
    }
  }

  /** Eight bars, or one per campaign with metrics when there are fewer, and
      no bar more often than campaigns with metrics map to it. */
  lemma BudgetVsPerformanceCount(cs: seq<DashboardCampaign>)
    ensures |BudgetVsPerformance(cs)| ==
      if |Seqs.Filter(cs, HasMetrics)| < 8 then |Seqs.Filter(cs, HasMetrics)| else 8
    ensures multiset(BudgetVsPerformance(cs)) <= multiset(Seqs.Map(Seqs.Filter(cs, HasMetrics), BudgetPointOf))
  {
    Seqs.TopOfSort(Seqs.Map(Seqs.Filter(cs, HasMetrics), BudgetPointOf), PointRevenue, 8);
  }

  /** A campaign with metrics whose revenue beats the last bar shown is
      itself among the bars shown. */
  lemma BudgetVsPerformanceIsTop(cs: seq<DashboardCampaign>, c: DashboardCampaign)
    requires c in cs && HasMetrics(c)
    requires |BudgetVsPerformance(cs)| == 8 && RevenueOf(c) > BudgetVsPerformance(cs)[7].revenue
    ensures BudgetPointOf(c) in BudgetVsPerformance(cs)
  {
    var points := Seqs.Map(Seqs.Filter(cs, HasMetrics), BudgetPointOf);
    var sorted := Seqs.SortDesc(points, PointRevenue);
    assert c in Seqs.Filter(cs, HasMetrics);
    var i :| 0 <= i < |Seqs.Filter(cs, HasMetrics)| && Seqs.Filter(cs, HasMetrics)[i] == c;
    assert points[i] == BudgetPointOf(c);
    assert BudgetPointOf(c) in multiset(points);
    assert BudgetPointOf(c) in multiset(sorted);
    var j :| 0 <= j < |sorted| && sorted[j] == BudgetPointOf(c);
    assert BudgetVsPerformance(cs)[7] == sorted[7];
    assert forall k | 8 <= k < |sorted| :: sorted[7].revenue >= sorted[k].revenue;
    assert j < 8;
    assert BudgetVsPerformance(cs) == sorted[..8];
    assert sorted[..8][j] == sorted[j];
  }

  /** `platformChartData`: every campaign, with or without metrics, counts
      towards its platform; the slices add up to the campaign count and the
      spend to the total spend. */
  lemma PlatformDataTotals(cs: seq<DashboardCampaign>)
    ensures PlatformGroups.SumCampaigns(PlatformGroups.Groups(cs)) == |cs|
    ensures PlatformGroups.SumSpend(PlatformGroups.Groups(cs)) == Sum(cs, SpendOf)
  {
    PlatformGroups.GroupsTotals(cs);
  }

  const Colors: seq<string> :=
    ["#8884d8", "#82ca9d", "#ffc658", "#ff7300", "#8dd1e1",
     "#d084d0", "#ffb347", "#87ceeb", "#dda0dd", "#98fb98"]

  /** The fill of pie cell `index`. */
  function PieColor(index: nat): (r: string)
    ensures r in Colors
  {
    Colors[index % |Colors|]
  }

  /** The fills repeat every ten cells and the first ten are all different. */
  lemma PieColorCycle(index: nat)
    ensures PieColor(index + 10) == PieColor(index)
    ensures index < 10 ==> forall j | 0 <= j < 10 && j != index :: PieColor(j) != PieColor(index)
  {
    assert |Colors| == 10;
    assert (index + 10) % 10 == index % 10;
  }
}
