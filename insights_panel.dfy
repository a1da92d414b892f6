/** The dashboard's insights panel: up to four rule-based insights derived
    from the campaign list, and the colour classes each insight is drawn
    with. */
module InsightsPanel {
  import opened Common
  import opened Text
  import opened Types
  import opened JsNumber
  import Seqs
  import PlatformGroups

  /** The four insights, with the figures each one reports. */
  datatype Insight =
    | HighPerformer(campaignName: string, roas: real)
    | Underperforming(count: nat)
    | BudgetReallocation(portfolioRoas: JsNum)
    | PlatformOutperforming(platform: string, platformRoas: JsNum)
  {
    /** The position of the rule that produces this insight. */
    function Slot(): nat {
      match this
      case HighPerformer(_, _) => 0
      case Underperforming(_) => 1
      case BudgetReallocation(_) => 2
      case PlatformOutperforming(_, _) => 3
    }

    function Color(): string {
      match this
      case HighPerformer(_, _) => "green"
      case Underperforming(_) => "red"
      case BudgetReallocation(_) => "blue"
      case PlatformOutperforming(_, _) => "green"
    }

    function Confidence(): nat {
      match this
      case HighPerformer(_, _) => 95
      case Underperforming(_) => 88
      case BudgetReallocation(_) => 82
      case PlatformOutperforming(_, _) => 90
    }
  }

  /** The warning's text; the ROAS figures of the other insights go through
      `toFixed`, which is not modelled. */
  function UnderperformingText(count: nat): (r: string)
    ensures StartsWith(r, NatToString(count))
  {
    var n := NatToString(count);
    var r := n + " campaigns have ROAS below 2x. Review targeting, creative, and bidding strategies.";
    assert r[..|n|] == n;
    r
  }

  /** The best campaign: the head of the campaigns with metrics, sorted by
      ROAS, highest first. */
  function BestCampaign(cs: seq<DashboardCampaign>): (b: Option<DashboardCampaign>)
    ensures b.None? <==> forall c | c in cs :: !HasMetrics(c)
    ensures b.Some? ==> b.value in cs && HasMetrics(b.value)
    ensures b.Some? ==> forall c | c in cs && HasMetrics(c) :: RoasOf(b.value) >= RoasOf(c)
  {
    var withMetrics := Seqs.Filter(cs, HasMetrics);
    var s := Seqs.SortDesc(withMetrics, RoasOf);
    if s == [] then
      assert |multiset(withMetrics)| == |multiset(s)| == 0;
      None
    else
      assert s[0] in multiset(s);
      assert s[0] in multiset(withMetrics);
      assert s[0] in withMetrics;
      forall c | c in cs && HasMetrics(c) ensures RoasOf(s[0]) >= RoasOf(c) {
        Seqs.SortDescHeadIsMax(withMetrics, RoasOf, c);
      }
      Some(s[0])
  }

  /** The sort is stable, so of campaigns with equal ROAS the first one is
      named: the best campaign occurs no later than any campaign with
      metrics whose ROAS reaches its own. */
  lemma BestCampaignFirst(cs: seq<DashboardCampaign>)
    requires BestCampaign(cs).Some?
    ensures var b := BestCampaign(cs).value;
      forall j | 0 <= j < |cs| && HasMetrics(cs[j]) && RoasOf(cs[j]) >= RoasOf(b) :: Seqs.OccursBy(cs, b, j)
  {
    var s := Seqs.SortDesc(Seqs.Filter(cs, HasMetrics), RoasOf);
    assert s != [] && BestCampaign(cs).value == s[0];
    Seqs.FilterSortHeadFirst(cs, HasMetrics, RoasOf);
  }

  predicate LowRoas(c: DashboardCampaign) {
    c.metrics.Some? && c.metrics.value.roas < 2.0
  }

  /** `totalRevenue / totalSpend`, missing metrics counting 0 in both. */
  function PortfolioRoas(cs: seq<DashboardCampaign>): JsNum {
    Div(Sum(cs, RevenueOf), Sum(cs, SpendOf))
  }

  /** A platform entry's `revenue / spend`. */
  function GroupRoas(g: PlatformGroups.PlatformGroup): JsNum {
    Div(g.revenue, g.spend)
  }

  /** The first entry with the largest ROAS among those whose ROAS is a
      number (what a stable descending sort puts first when no ROAS is
      NaN). */
  function BestPlatform(gs: seq<PlatformGroups.PlatformGroup>): (r: Option<PlatformGroups.PlatformGroup>)
    ensures r.None? <==> forall g | g in gs :: GroupRoas(g).NaN?
    ensures r.Some? ==> r.value in gs && !GroupRoas(r.value).NaN?
    ensures r.Some? ==> forall g | g in gs && !GroupRoas(g).NaN? :: AtLeast(GroupRoas(r.value), GroupRoas(g))
  {
    if gs == [] then None
    else
      var rest := BestPlatform(gs[1..]);
      assert forall g | g in gs :: g == gs[0] || g in gs[1..];
      if GroupRoas(gs[0]).NaN? then rest
      else if rest.None? || AtLeast(GroupRoas(gs[0]), GroupRoas(rest.value)) then Some(gs[0])
      else rest
  }

  /** Of platforms with equal ROAS the first one is named: the best
      platform occurs no later than any non-NaN platform whose ROAS reaches
      its own. */
  lemma {:induction false} BestPlatformFirst(gs: seq<PlatformGroups.PlatformGroup>)
    requires BestPlatform(gs).Some?
    ensures var r := BestPlatform(gs).value;
      forall j | 0 <= j < |gs| && !GroupRoas(gs[j]).NaN? && AtLeast(GroupRoas(gs[j]), GroupRoas(r)) ::
        Seqs.OccursBy(gs, r, j)
  {
    if gs != [] {
      var rest := BestPlatform(gs[1..]);
      if GroupRoas(gs[0]).NaN? || (rest.Some? && !AtLeast(GroupRoas(gs[0]), GroupRoas(rest.value))) {
        BestPlatformFirst(gs[1..]);
        Seqs.NoLaterThanShift(gs, rest.value, g => !GroupRoas(g).NaN? && AtLeast(GroupRoas(g), GroupRoas(rest.value)));
      } else {
        Seqs.HeadNoLater(gs, g => !GroupRoas(g).NaN? && AtLeast(GroupRoas(g), GroupRoas(gs[0])));
      }
    }
  }

  /** At most one insight, and only ones from rule `k`. */
  predicate FromRule(p: seq<Insight>, k: nat) {
    |p| <= 1 && forall x | x in p :: x.Slot() == k
  }

  function HighPerformerPart(cs: seq<DashboardCampaign>): (p: seq<Insight>)
    ensures FromRule(p, 0)
  {
    var b := BestCampaign(cs);
    if b.Some? && RoasOf(b.value) > 4.0 then [HighPerformer(b.value.campaign.name, RoasOf(b.value))] else []
  }

  function UnderperformingPart(cs: seq<DashboardCampaign>): (p: seq<Insight>)
    ensures FromRule(p, 1)
  {
    var low := Seqs.Filter(cs, LowRoas);
    if |low| > 0 then [Underperforming(|low|)] else []
  }

  function BudgetPart(cs: seq<DashboardCampaign>): (p: seq<Insight>)
    ensures FromRule(p, 2)
  {
    var avg := PortfolioRoas(cs);
    if Exceeds(avg, 3.0) then [BudgetReallocation(avg)] else []
  }

  function PlatformPart(cs: seq<DashboardCampaign>): (p: seq<Insight>)
    ensures FromRule(p, 3)
  {
    var best := BestPlatform(PlatformGroups.Groups(cs));
    if best.Some? && Exceeds(GroupRoas(best.value), 3.5) then
      [PlatformOutperforming(best.value.name, GroupRoas(best.value))]
    else []
  }

  /** `generateInsights`, as the list it returns. */
  function Insights(cs: seq<DashboardCampaign>): seq<Insight> {
    HighPerformerPart(cs) + UnderperformingPart(cs) + BudgetPart(cs) + PlatformPart(cs)
  }

  /** Four parts from rules 0 to 3, concatenated, are in rule order. */
  lemma SlotsOrdered(a: seq<Insight>, b: seq<Insight>, c: seq<Insight>, d: seq<Insight>)
    requires FromRule(a, 0) && FromRule(b, 1) && FromRule(c, 2) && FromRule(d, 3)
    ensures |a + b + c + d| <= 4
    ensures forall i, j | 0 <= i < j < |a + b + c + d| :: (a + b + c + d)[i].Slot() < (a + b + c + d)[j].Slot()
  {
    var s := a + b + c + d;
    forall k | 0 <= k < |s|
      ensures s[k].Slot() == (if k < |a| then 0 else if k < |a| + |b| then 1 else if k < |a| + |b| + |c| then 2 else 3)
    {
      if k < |a| { assert s[k] in a; }
      else if k < |a| + |b| { assert s[k] == b[k - |a|]; }
      else if k < |a| + |b| + |c| { assert s[k] == c[k - |a| - |b|]; }
      else { assert s[k] == d[k - |a| - |b| - |c|]; }
    }
  }

  /** At most four insights, strictly in rule order. */
  lemma InsightsOrdered(cs: seq<DashboardCampaign>)
    ensures |Insights(cs)| <= 4
    ensures forall i, j | 0 <= i < j < |Insights(cs)| :: Insights(cs)[i].Slot() < Insights(cs)[j].Slot()
  {
    SlotsOrdered(HighPerformerPart(cs), UnderperformingPart(cs), BudgetPart(cs), PlatformPart(cs));
  }

  /** The best-campaign insight appears iff some campaign with metrics has
      ROAS above 4; it then names a campaign of highest ROAS. */
  lemma HighPerformerIff(cs: seq<DashboardCampaign>)
    ensures HighPerformerPart(cs) != [] <==> exists c | c in cs :: HasMetrics(c) && RoasOf(c) > 4.0
    ensures HighPerformerPart(cs) != [] ==>
      exists b | b in cs :: HasMetrics(b) && HighPerformerPart(cs) == [HighPerformer(b.campaign.name, RoasOf(b))] &&
        forall c | c in cs && HasMetrics(c) :: RoasOf(b) >= RoasOf(c)
  {
  }

  /** The warning appears iff some campaign with metrics has ROAS below 2,
      and it carries the number of such campaigns. */
  lemma UnderperformingIff(cs: seq<DashboardCampaign>)
    ensures UnderperformingPart(cs) != [] <==> exists c | c in cs :: LowRoas(c)
    ensures UnderperformingPart(cs) != [] ==>
      UnderperformingPart(cs) == [Underperforming(|Seqs.Filter(cs, LowRoas)|)]
  {
    var low := Seqs.Filter(cs, LowRoas);
    if low != [] {
      assert low[0] in low;
    }
  }

  /** With no spend at all but some revenue, the portfolio ROAS is Infinity
      and the budget insight appears. */
  lemma ZeroSpendBudgetInsight(cs: seq<DashboardCampaign>)
    requires Sum(cs, SpendOf) == 0.0 && Sum(cs, RevenueOf) > 0.0
    ensures BudgetPart(cs) == [BudgetReallocation(PosInfinity)]
  {
  }

  /** With positive total spend, the budget insight appears iff revenue is
      more than three times the spend. */
  lemma BudgetIff(cs: seq<DashboardCampaign>)
    requires Sum(cs, SpendOf) > 0.0
    ensures BudgetPart(cs) != [] <==> Sum(cs, RevenueOf) > 3.0 * Sum(cs, SpendOf)
  {
    DivExceeds(Sum(cs, RevenueOf), Sum(cs, SpendOf), 3.0);
  }

  /** The platform insight appears iff some platform's ROAS exceeds 3.5. */
  lemma PlatformIff(cs: seq<DashboardCampaign>)
    ensures PlatformPart(cs) != [] <==>
      exists g | g in PlatformGroups.Groups(cs) :: Exceeds(GroupRoas(g), 3.5)
  {
    var gs := PlatformGroups.Groups(cs);
    var best := BestPlatform(gs);
    if g :| g in gs && Exceeds(GroupRoas(g), 3.5) {
      ExceedsMonotone(GroupRoas(best.value), GroupRoas(g), 3.5);
    }
  }

  /** `generateInsights` as the source runs it: each rule pushes onto the
      list in turn; the platform totals come from the in-place reduce. */
  method GenerateInsights(cs: seq<DashboardCampaign>) returns (insights: seq<Insight>)
    ensures insights == Insights(cs)
  {
    insights := [];
    var best := BestCampaign(cs);
    if best.Some? && RoasOf(best.value) > 4.0 {
      insights := insights + [HighPerformer(best.value.campaign.name, RoasOf(best.value))];
    }
    assert insights == HighPerformerPart(cs);
    var underperforming := Seqs.Filter(cs, LowRoas);
    if |underperforming| > 0 {
      insights := insights + [Underperforming(|underperforming|)];
    }
    assert insights == HighPerformerPart(cs) + UnderperformingPart(cs);
    var avgRoas := Div(Sum(cs, RevenueOf), Sum(cs, SpendOf));
    if Exceeds(avgRoas, 3.0) {
      insights := insights + [BudgetReallocation(avgRoas)];
    }
    assert insights == HighPerformerPart(cs) + UnderperformingPart(cs) + BudgetPart(cs);
    var platformPerf := PlatformGroups.GroupByPlatform(cs);
    assert platformPerf == PlatformGroups.Groups(cs);
    var bestPlatform := BestPlatform(platformPerf);
    if bestPlatform.Some? && Exceeds(GroupRoas(bestPlatform.value), 3.5) {
      insights := insights + [PlatformOutperforming(bestPlatform.value.name, GroupRoas(bestPlatform.value))];
    }
    assert PlatformPart(cs) == if bestPlatform.Some? && Exceeds(GroupRoas(bestPlatform.value), 3.5) then
      [PlatformOutperforming(bestPlatform.value.name, GroupRoas(bestPlatform.value))] else [];
    assert Insights(cs) == HighPerformerPart(cs) + UnderperformingPart(cs) + BudgetPart(cs) + PlatformPart(cs);
  }

  /** The classes of one insight card. */
  datatype ColorClasses = ColorClasses(bg: string, icon: string, title: string, desc: string, button: string)

  function Palette(c: string): ColorClasses {
    ColorClasses("bg-" + c + "-50 border-" + c + "-200", "text-" + c + "-600 bg-" + c + "-100",
                 "text-" + c + "-800", "text-" + c + "-700", "bg-" + c + "-600 hover:bg-" + c + "-700 text-white")
  }

  /** `getColorClasses`: green, red and blue have their own palette; every
      other colour gets gray. */
  function GetColorClasses(color: string): (r: ColorClasses)
    ensures color == "green" || color == "red" || color == "blue" ==> r == Palette(color)
    ensures !(color == "green" || color == "red" || color == "blue") ==> r == Palette("gray")
  {
    if color == "green" then Palette("green")
    else if color == "red" then Palette("red")
    else if color == "blue" then Palette("blue")
    else Palette("gray")
  }

  /** Every insight is drawn in its own colour, never the gray fallback. */
  lemma InsightsNeverGray(i: Insight)
    ensures GetColorClasses(i.Color()) == Palette(i.Color()) && i.Color() != "gray"
  {
  }
}
