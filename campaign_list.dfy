/** The campaign list: status badge colours, the pause/resume toggle, and
    which view the list shows. */
module CampaignList {
  import opened Common
  import opened Types
  import Text
  import Seqs

  const Green := "bg-green-100 text-green-800"
  const Yellow := "bg-yellow-100 text-yellow-800"
  const Blue := "bg-blue-100 text-blue-800"
  const Red := "bg-red-100 text-red-800"
  const Gray := "bg-gray-100 text-gray-800"

  /** `getStatusColor(status)`, chosen by the lower-cased status. */
  function StatusColor(status: string): (r: string)
    ensures r == Green <==> Text.Lower(status) == "active"
    ensures r == Yellow <==> Text.Lower(status) == "paused"
    ensures r == Blue <==> Text.Lower(status) == "completed"
    ensures r == Red <==> Text.Lower(status) == "deleted"
    ensures r == Gray <==> Text.Lower(status) !in {"active", "paused", "completed", "deleted"}
  {
    var s := Text.Lower(status);
    if s == "active" then Green
    else if s == "paused" then Yellow
    else if s == "completed" then Blue
    else if s == "deleted" then Red
    else Gray
  }

  /** The badge colour does not depend on letter case. */
  lemma StatusColorIgnoresCase(status: string)
    ensures StatusColor(Text.Lower(status)) == StatusColor(status)
  {
    Text.LowerIdempotent(status);
  }

  /** The status the toggle button asks for. */
  function ToggleTarget(status: string): (r: string)
    ensures r == "paused" <==> status == "active"
    ensures r == "active" <==> status != "active"
  {
    if status == "active" then "paused" else "active"
  }

  /** Toggling twice restores an active or a paused campaign; every other
      status, draft and deleted included, is sent to "active". */
  lemma ToggleRoundTrip(status: string)
    ensures status in {"active", "paused"} ==> ToggleTarget(ToggleTarget(status)) == status
    ensures status !in {"active", "paused"} ==> ToggleTarget(status) == "active"
  {
  }

  /** The toggle compares case-sensitively while the badge does not: an
      "ACTIVE" campaign wears the green badge, yet its toggle asks for
      "active" rather than "paused". */
  lemma ToggleIsCaseSensitive()
    ensures StatusColor("ACTIVE") == Green && ToggleTarget("ACTIVE") == "active"
  {
    var l := Text.Lower("ACTIVE");
    assert l[0] == 'a' && l[1] == 'c' && l[2] == 't' && l[3] == 'i' && l[4] == 'v' && l[5] == 'e';
    assert l == "active";
  }

  /** The four figures of a campaign's metrics row. */
  datatype MetricsRow = MetricsRow(spend: real, revenue: real, roas: real, ctr: real)

  /** One row of the list: the badge, the toggle (with the pause icon when
      the campaign is active) and the metrics, when the campaign has them. */
  datatype Row = Row(
    id: string,
    name: string,
    badgeClass: string,
    toggleTarget: string,
    showsPause: bool,
    metrics: Option<MetricsRow>)

  function RowOf(c: DashboardCampaign): Row {
    Row(c.campaign.id, c.campaign.name, StatusColor(c.campaign.status),
        ToggleTarget(c.campaign.status), c.campaign.status == "active",
        if c.metrics.Some? then
          Some(MetricsRow(c.metrics.value.spend, c.metrics.value.revenue, c.metrics.value.roas, c.metrics.value.ctr))
        else None)
  }

  /** "{n} campaign{s} found" */
  function CountLine(n: nat): (r: string)
    ensures Text.StartsWith(r, Text.NatToString(n))
  {
    Text.NatToString(n) + " campaign" + (if n != 1 then "s" else "") + " found"
  }

  /** The count line is singular exactly for one campaign. */
  lemma CountLinePlural(n: nat)
    ensures n == 1 ==> CountLine(n) == "1 campaign found"
    ensures n != 1 ==> CountLine(n) == Text.NatToString(n) + " campaigns found"
  {
    if n == 1 {
      assert Text.NatToString(1) == "1";
    }
  }

  datatype View = Skeleton(placeholders: nat) | NoCampaigns | Listing(countLine: string, rows: seq<Row>)

  /** What the list renders, with `loading` defaulting to false. */
  function CampaignView(campaigns: seq<DashboardCampaign>, loading: Option<bool>): (v: View)
    ensures loading == Some(true) <==> v.Skeleton?
    ensures v.Skeleton? ==> v.placeholders == 3
    ensures v.NoCampaigns? <==> loading != Some(true) && |campaigns| == 0
    ensures v.Listing? ==> v.countLine == CountLine(|campaigns|) && |v.rows| == |campaigns|
    ensures v.Listing? ==> forall i | 0 <= i < |campaigns| ::
      v.rows[i].id == campaigns[i].campaign.id &&
      v.rows[i].badgeClass == StatusColor(campaigns[i].campaign.status) &&
      v.rows[i].toggleTarget == ToggleTarget(campaigns[i].campaign.status) &&
      (v.rows[i].metrics.Some? <==> campaigns[i].metrics.Some?)
    ensures v.Listing? ==> forall i | 0 <= i < |campaigns| :: v.rows[i] == RowOf(campaigns[i])
  {
    if loading.GetOr(false) then Skeleton(3)
    else if |campaigns| == 0 then NoCampaigns
    else Listing(CountLine(|campaigns|), Seqs.Map(campaigns, RowOf))
  }

  /** In every listed row the pause icon and the toggle agree: the pause icon
      shows exactly when the toggle would pause. */
  lemma RowsToggleAgree(campaigns: seq<DashboardCampaign>)
    requires |campaigns| > 0
    ensures CampaignView(campaigns, None).Listing?
    ensures forall r | r in CampaignView(campaigns, None).rows :: r.showsPause <==> r.toggleTarget == "paused"
  {
  }
}
