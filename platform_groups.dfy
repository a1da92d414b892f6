/** The per-platform `reduce` shared by the insights panel and the performance
    chart: campaigns are keyed by `platform_name || 'Unknown'`, and each key's
    entry accumulates spend, revenue and a campaign count. The accumulator is
    an object, so its entries come out in first-insertion order. */
module PlatformGroups {
  import opened Types

  datatype PlatformGroup = PlatformGroup(name: string, spend: real, revenue: real, campaigns: nat)

  /** One campaign's contribution added to an existing entry. */
  function Bump(g: PlatformGroup, spend: real, revenue: real): PlatformGroup {
    g.(spend := g.spend + spend, revenue := g.revenue + revenue, campaigns := g.campaigns + 1)
  }

  /** The reducer's step: bump the entry named `name`, creating it at the end
      when there is none. */
  function AddTo(gs: seq<PlatformGroup>, name: string, spend: real, revenue: real): (r: seq<PlatformGroup>)
    ensures |r| == |gs| || |r| == |gs| + 1
  {
    if gs == [] then [PlatformGroup(name, spend, revenue, 1)]
    else if gs[0].name == name then [Bump(gs[0], spend, revenue)] + gs[1..]
    else [gs[0]] + AddTo(gs[1..], name, spend, revenue)
  }

  /** The accumulator after reducing over all of `cs`. */
  function Groups(cs: seq<DashboardCampaign>): seq<PlatformGroup> {
    if cs == [] then []
    else
      var c := cs[|cs| - 1];
      AddTo(Groups(cs[..|cs| - 1]), PlatformKey(c), SpendOf(c), RevenueOf(c))
  }

  /** The entry named `name`, looked up the way `acc[name]` does. */
  function Find(gs: seq<PlatformGroup>, name: string): (r: Common.Option<PlatformGroup>)
    ensures r.Some? ==> r.value in gs && r.value.name == name
    ensures r.None? ==> forall g | g in gs :: g.name != name
  {
    if gs == [] then Common.None
    else if gs[0].name == name then Common.Some(gs[0])
    else Find(gs[1..], name)
  }

  ghost predicate DistinctNames(gs: seq<PlatformGroup>) {
    forall i, j :: 0 <= i < j < |gs| ==> gs[i].name != gs[j].name
  }

  // Reference definitions: what a key's entry should hold, computed straight
  // from the campaign list.

  function CountOf(cs: seq<DashboardCampaign>, name: string): nat {
    if cs == [] then 0
    else CountOf(cs[..|cs| - 1], name) + (if PlatformKey(cs[|cs| - 1]) == name then 1 else 0)
  }

  function SpendFor(cs: seq<DashboardCampaign>, name: string): real {
    if cs == [] then 0.0
    else SpendFor(cs[..|cs| - 1], name) + (if PlatformKey(cs[|cs| - 1]) == name then SpendOf(cs[|cs| - 1]) else 0.0)
  }

  function RevenueFor(cs: seq<DashboardCampaign>, name: string): real {
    if cs == [] then 0.0
    else RevenueFor(cs[..|cs| - 1], name) + (if PlatformKey(cs[|cs| - 1]) == name then RevenueOf(cs[|cs| - 1]) else 0.0)
  }

  function SumCampaigns(gs: seq<PlatformGroup>): nat {
    if gs == [] then 0 else gs[0].campaigns + SumCampaigns(gs[1..])
  }

  function SumSpend(gs: seq<PlatformGroup>): real {
    if gs == [] then 0.0 else gs[0].spend + SumSpend(gs[1..])
  }

  function SumRevenue(gs: seq<PlatformGroup>): real {
    if gs == [] then 0.0 else gs[0].revenue + SumRevenue(gs[1..])
  }

  lemma {:induction false} FindAddTo(gs: seq<PlatformGroup>, name: string, spend: real, revenue: real, other: string)
    ensures Find(AddTo(gs, name, spend, revenue), other) ==
      if other != name then Find(gs, other)
      else if Find(gs, name).None? then Common.Some(PlatformGroup(name, spend, revenue, 1))
      else Common.Some(Bump(Find(gs, name).value, spend, revenue))
  {
    if gs != [] && gs[0].name != name {
      FindAddTo(gs[1..], name, spend, revenue, other);
    }
  }

  lemma {:induction false} AddToDistinct(gs: seq<PlatformGroup>, name: string, spend: real, revenue: real)
    requires DistinctNames(gs)
    ensures DistinctNames(AddTo(gs, name, spend, revenue))
    ensures forall g | g in AddTo(gs, name, spend, revenue) :: g.name == name || g in gs
  {
    if gs != [] && gs[0].name != name {
      var rest := AddTo(gs[1..], name, spend, revenue);
      AddToDistinct(gs[1..], name, spend, revenue);
      forall j | 0 <= j < |rest| ensures rest[j].name != gs[0].name {
        assert rest[j] in rest;
        if rest[j].name != name {
          var k :| 0 <= k < |gs[1..]| && gs[1..][k] == rest[j];
          assert gs[k + 1] == rest[j];
        }
      }
    }
  }

  lemma {:induction false} AddToSums(gs: seq<PlatformGroup>, name: string, spend: real, revenue: real)
    ensures SumCampaigns(AddTo(gs, name, spend, revenue)) == SumCampaigns(gs) + 1
    ensures SumSpend(AddTo(gs, name, spend, revenue)) == SumSpend(gs) + spend
    ensures SumRevenue(AddTo(gs, name, spend, revenue)) == SumRevenue(gs) + revenue
  {
    if gs != [] && gs[0].name != name {
      AddToSums(gs[1..], name, spend, revenue);
      assert AddTo(gs, name, spend, revenue)[1..] == AddTo(gs[1..], name, spend, revenue);
    } else if gs != [] {
      assert AddTo(gs, name, spend, revenue)[1..] == gs[1..];
    } else {
      assert AddTo(gs, name, spend, revenue)[1..] == [];
    }
  }

  lemma {:induction false} NoCampaignsNoSums(cs: seq<DashboardCampaign>, name: string)
    requires CountOf(cs, name) == 0
    ensures SpendFor(cs, name) == 0.0 && RevenueFor(cs, name) == 0.0
  {
    if cs != [] {
      NoCampaignsNoSums(cs[..|cs| - 1], name);
    }
  }

  /** Each key's entry holds exactly that key's campaign count, spend and
      revenue, and a key has an entry iff some campaign carries it. */
  lemma {:induction false} GroupsAgree(cs: seq<DashboardCampaign>, name: string)
    ensures Find(Groups(cs), name) ==
      if CountOf(cs, name) == 0 then Common.None
      else Common.Some(PlatformGroup(name, SpendFor(cs, name), RevenueFor(cs, name), CountOf(cs, name)))
  {
    if cs != [] {
      var c, init := cs[|cs| - 1], cs[..|cs| - 1];
      var key := PlatformKey(c);
      var before := Find(Groups(init), name);
      GroupsAgree(init, name);
      FindAddTo(Groups(init), key, SpendOf(c), RevenueOf(c), name);
      if key != name {
        assert Find(Groups(cs), name) == before;
        assert CountOf(cs, name) == CountOf(init, name);
        assert SpendFor(cs, name) == SpendFor(init, name) && RevenueFor(cs, name) == RevenueFor(init, name);
      } else if CountOf(init, name) == 0 {
        NoCampaignsNoSums(init, name);
        assert Find(Groups(cs), name) == Common.Some(PlatformGroup(name, SpendOf(c), RevenueOf(c), 1));
        assert CountOf(cs, name) == 1;
        assert SpendFor(cs, name) == SpendOf(c) && RevenueFor(cs, name) == RevenueOf(c);
      } else {
        assert Find(Groups(cs), name) == Common.Some(Bump(before.value, SpendOf(c), RevenueOf(c)));
        assert CountOf(cs, name) == CountOf(init, name) + 1;
        assert SpendFor(cs, name) == SpendFor(init, name) + SpendOf(c);
        assert RevenueFor(cs, name) == RevenueFor(init, name) + RevenueOf(c);
      }
    }
  }

  /** No platform name appears twice. */
  lemma {:induction false} GroupsDistinct(cs: seq<DashboardCampaign>)
    ensures DistinctNames(Groups(cs))
  {
    if cs != [] {
      var c := cs[|cs| - 1];
      GroupsDistinct(cs[..|cs| - 1]);
      AddToDistinct(Groups(cs[..|cs| - 1]), PlatformKey(c), SpendOf(c), RevenueOf(c));
    }
  }

  /** Every campaign is counted once, and all spend and revenue are accounted for. */
  lemma {:induction false} GroupsTotals(cs: seq<DashboardCampaign>)
    ensures SumCampaigns(Groups(cs)) == |cs|
    ensures SumSpend(Groups(cs)) == Sum(cs, SpendOf)
    ensures SumRevenue(Groups(cs)) == Sum(cs, RevenueOf)
  {
    if cs != [] {
      var c := cs[|cs| - 1];
      GroupsTotals(cs[..|cs| - 1]);
      AddToSums(Groups(cs[..|cs| - 1]), PlatformKey(c), SpendOf(c), RevenueOf(c));
    }
  }

  lemma {:induction false} AddToAt(gs: seq<PlatformGroup>, j: nat, name: string, spend: real, revenue: real)
    requires j < |gs| && gs[j].name == name
    requires forall k | 0 <= k < j :: gs[k].name != name
    ensures AddTo(gs, name, spend, revenue) == gs[j := Bump(gs[j], spend, revenue)]
  {
    if j > 0 {
      AddToAt(gs[1..], j - 1, name, spend, revenue);
    }
  }

  lemma {:induction false} AddToMissing(gs: seq<PlatformGroup>, name: string, spend: real, revenue: real)
    requires forall k | 0 <= k < |gs| :: gs[k].name != name
    ensures AddTo(gs, name, spend, revenue) == gs + [PlatformGroup(name, spend, revenue, 1)]
  {
    if gs != [] {
      AddToMissing(gs[1..], name, spend, revenue);
    }
  }

  /** The reduce as the source runs it: one pass over the campaigns, looking
      up the key's entry and bumping it in place or appending a new one. */
  method GroupByPlatform(cs: seq<DashboardCampaign>) returns (acc: seq<PlatformGroup>)
    ensures acc == Groups(cs)
  {
    acc := [];
    var i := 0;
    while i < |cs|
      invariant i <= |cs|
      invariant acc == Groups(cs[..i])
    {
      var c := cs[i];
      var key := PlatformKey(c);
      var j := 0;
      while j < |acc| && acc[j].name != key
        invariant j <= |acc|
        invariant forall k | 0 <= k < j :: acc[k].name != key
      {
        j := j + 1;
      }
      assert cs[..i + 1][..i] == cs[..i];
      if j < |acc| {
        AddToAt(acc, j, key, SpendOf(c), RevenueOf(c));
        acc := acc[j := Bump(acc[j], SpendOf(c), RevenueOf(c))];
      } else {
        AddToMissing(acc, key, SpendOf(c), RevenueOf(c));
        acc := acc + [PlatformGroup(key, SpendOf(c), RevenueOf(c), 1)];
      }
      i := i + 1;
    }
    assert cs[..i] == cs;
  }
}
