/** The ad-provider layer: the registry of integrations and the mapping of
    Meta Graph API records onto the dashboard's own records. The HTTP calls
    themselves are outside the model; each provider call is represented by
    the reply it produced. */
module AdPlatforms {
  import opened Common
  import opened Types
  import opened JsNumber
  import Text
  import Seqs

  /** The wire name of a platform. */
  function PlatformName(p: AdPlatform): string {
    match p
    case Meta => "meta"
    case Google => "google"
    case TikTok => "tiktok"
    case LinkedIn => "linkedin"
    case Twitter => "twitter"
  }

  /** Distinct platforms have distinct names. */
  lemma PlatformNameInjective(p: AdPlatform, q: AdPlatform)
    requires PlatformName(p) == PlatformName(q)
    ensures p == q
  {
  }

  /** The provider integrations the code implements. */
  datatype Integration = MetaAds | GoogleAds

  /** A provider reply: the JSON carried an `error`, with its message, or it
      carried the `data` list. */
  datatype Reply<T> = ProviderError(message: string) | Data(items: seq<T>)

  /** An account as the Graph API lists it. `account_status` is absent when
      the reply leaves it out. */
  datatype RawAccount = RawAccount(id: string, name: string, account_status: Option<int>)

  /** `data.data.map(account => ...)` */
  function MapAccount(raw: RawAccount, accessToken: string): (a: AdAccount)
    ensures a.platform == Meta
    ensures a.id == raw.id && a.account_id == raw.id
    ensures a.account_name == raw.name && a.access_token == accessToken
    ensures a.status == AccountActive <==> raw.account_status == Some(1)
    ensures a.status != AccountError
  {
    AdAccount(raw.id, Meta, raw.id, raw.name, accessToken,
              if raw.account_status == Some(1) then AccountActive else AccountInactive)
  }

  /** A campaign as the Graph API lists it. The budgets are the decimal
      strings the API sends, absent when not set. */
  datatype RawCampaign = RawCampaign(
    id: string,
    name: string,
    status: string,
    objective: string,
    daily_budget: Option<string>,
    lifetime_budget: Option<string>,
    start_time: string,
    stop_time: Option<string>)

  /** A mapped Meta campaign. `budget` is the budget text that was chosen, or
      `None` where the code falls back to the number 0. */
  datatype ProviderCampaign = ProviderCampaign(
    id: string,
    ad_account_id: string,
    platform_campaign_id: string,
    name: string,
    status: string,
    objective: string,
    budget: Option<string>,
    budget_type: BudgetType,
    start_date: string,
    end_date: Option<string>)

  /** `daily_budget || lifetime_budget || 0` */
  function ChosenBudget(raw: RawCampaign): Option<string> {
    OrElse(OrElse(raw.daily_budget, raw.lifetime_budget), None)
  }

  function MapCampaign(raw: RawCampaign, accountId: string): (c: ProviderCampaign)
    ensures c.id == raw.id && c.platform_campaign_id == raw.id
    ensures c.ad_account_id == accountId
    ensures c.name == raw.name && c.objective == raw.objective
    ensures c.status == Text.Lower(raw.status)
    ensures c.budget_type == Daily <==> TruthyText(raw.daily_budget)
    ensures c.start_date == raw.start_time && c.end_date == raw.stop_time
  {
    ProviderCampaign(raw.id, accountId, raw.id, raw.name, Text.Lower(raw.status), raw.objective,
                     ChosenBudget(raw), if TruthyText(raw.daily_budget) then Daily else Lifetime,
                     raw.start_time, raw.stop_time)
  }

  /** The budget is the daily budget when one is set, else the lifetime
      budget when one is set, else 0; and the budget type agrees with it: a
      lifetime-typed campaign never carries the daily figure unless the two
      are the same text. */
  lemma MapCampaignBudget(raw: RawCampaign, accountId: string)
    ensures TruthyText(raw.daily_budget) ==>
      MapCampaign(raw, accountId).budget == raw.daily_budget
    ensures !TruthyText(raw.daily_budget) && TruthyText(raw.lifetime_budget) ==>
      MapCampaign(raw, accountId).budget == raw.lifetime_budget
    ensures !TruthyText(raw.daily_budget) && !TruthyText(raw.lifetime_budget) ==>
      MapCampaign(raw, accountId).budget == None
    ensures MapCampaign(raw, accountId).budget == None || TruthyText(MapCampaign(raw, accountId).budget)
    ensures MapCampaign(raw, accountId).budget_type == Lifetime ==>
      MapCampaign(raw, accountId).budget in {raw.lifetime_budget, None}
  {
  }

  /** The mapped status is already lower case, whatever the API sent. */
  lemma MapCampaignStatusLowered(raw: RawCampaign, accountId: string)
    ensures Text.Lower(MapCampaign(raw, accountId).status) == MapCampaign(raw, accountId).status
  {
    Text.LowerIdempotent(raw.status);
  }

  /** One day of Graph API insights, with each figure as `parseInt` (the
      counts) or `parseFloat` (spend and conversion value) reads it: a number,
      ±Infinity for a value beyond the double range, or NaN for a missing or
      unparsable field. */
  datatype RawMetric = RawMetric(
    date_start: string,
    impressions: JsNum,
    clicks: JsNum,
    spend: JsNum,
    conversions: JsNum,
    conversion_values: JsNum)

  /** A mapped Meta metric; every figure is a JavaScript number. */
  datatype ProviderMetrics = ProviderMetrics(
    id: string,
    campaign_id: string,
    date: string,
    impressions: JsNum,
    clicks: JsNum,
    spend: JsNum,
    conversions: JsNum,
    revenue: JsNum,
    ctr: JsNum,
    cpc: JsNum,
    cpa: JsNum,
    roas: JsNum)

  function MetricId(campaignId: string, date: string): string {
    campaignId + "-" + date
  }

  function MapMetric(raw: RawMetric, campaignId: string): (m: ProviderMetrics)
    ensures m.campaign_id == campaignId && m.date == raw.date_start
    ensures m.id == MetricId(campaignId, raw.date_start)
    ensures !m.impressions.NaN? && !m.clicks.NaN? && !m.spend.NaN? && !m.conversions.NaN?
    ensures !m.revenue.NaN? && !m.ctr.NaN? && !m.cpc.NaN? && !m.cpa.NaN? && !m.roas.NaN?
  {
    ProviderMetrics(
      MetricId(campaignId, raw.date_start), campaignId, raw.date_start,
      OrZero(raw.impressions), OrZero(raw.clicks), OrZero(raw.spend),
      OrZero(raw.conversions), OrZero(raw.conversion_values),
      OrZero(DivParsed(raw.clicks, raw.impressions)),
      OrZero(DivParsed(raw.spend, raw.clicks)),
      OrZero(DivParsed(raw.spend, raw.conversions)),
      OrZero(DivParsed(raw.conversion_values, raw.spend)))
  }

  /** `a / b || 0` for two parsed figures, case by case: 0 when either is
      unparsable, both are 0, both are infinite or only the denominator is;
      the quotient over a non-zero finite denominator; an infinity of the
      numerator's sign over a zero one; and an infinite numerator over a
      finite denominator stays infinite, its sign flipped by a negative one. */
  predicate IsGuardedQuotient(q: JsNum, a: JsNum, b: JsNum) {
    (a.NaN? || b.NaN? ==> q == Num(0.0)) &&
    (a.Num? && b.Num? && b.r != 0.0 ==> q == Num(a.r / b.r)) &&
    (a.Num? && b == Num(0.0) && a.r > 0.0 ==> q == PosInfinity) &&
    (a.Num? && b == Num(0.0) && a.r < 0.0 ==> q == NegInfinity) &&
    (a == Num(0.0) && b == Num(0.0) ==> q == Num(0.0)) &&
    (a.Num? && IsInfinite(b) ==> q == Num(0.0)) &&
    (IsInfinite(a) && b.Num? && b.r >= 0.0 ==> q == a) &&
    (IsInfinite(a) && b.Num? && b.r < 0.0 ==> q == Negated(a)) &&
    (IsInfinite(a) && IsInfinite(b) ==> q == Num(0.0))
  }

  /** `a / b || 0` meets the case table above for every pair of figures. */
  lemma GuardedQuotient(a: JsNum, b: JsNum)
    ensures IsGuardedQuotient(OrZero(DivParsed(a, b)), a, b)
  {
  }

  /** Unparsable figures become 0 and parsable ones are kept; each of the
      four ratios is its two parsed figures' quotient guarded by `|| 0`. */
  lemma MapMetricFigures(raw: RawMetric, campaignId: string)
    ensures raw.spend.NaN? ==> MapMetric(raw, campaignId).spend == Num(0.0)
    ensures !raw.spend.NaN? ==> MapMetric(raw, campaignId).spend == raw.spend
    ensures raw.conversion_values.NaN? ==> MapMetric(raw, campaignId).revenue == Num(0.0)
    ensures !raw.conversion_values.NaN? ==> MapMetric(raw, campaignId).revenue == raw.conversion_values
    ensures IsGuardedQuotient(MapMetric(raw, campaignId).ctr, raw.clicks, raw.impressions)
    ensures IsGuardedQuotient(MapMetric(raw, campaignId).cpc, raw.spend, raw.clicks)
    ensures IsGuardedQuotient(MapMetric(raw, campaignId).cpa, raw.spend, raw.conversions)
    ensures IsGuardedQuotient(MapMetric(raw, campaignId).roas, raw.conversion_values, raw.spend)
    ensures raw.impressions.NaN? ==> MapMetric(raw, campaignId).impressions == Num(0.0)
    ensures !raw.impressions.NaN? ==> MapMetric(raw, campaignId).impressions == raw.impressions
    ensures raw.clicks.NaN? ==> MapMetric(raw, campaignId).clicks == Num(0.0)
    ensures !raw.clicks.NaN? ==> MapMetric(raw, campaignId).clicks == raw.clicks
    ensures raw.conversions.NaN? ==> MapMetric(raw, campaignId).conversions == Num(0.0)
    ensures !raw.conversions.NaN? ==> MapMetric(raw, campaignId).conversions == raw.conversions
    ensures raw.clicks.NaN? || raw.impressions.NaN? ==> MapMetric(raw, campaignId).ctr == Num(0.0)
    ensures raw.conversion_values.NaN? || raw.spend.NaN? ==> MapMetric(raw, campaignId).roas == Num(0.0)
    ensures raw.conversion_values.Num? && raw.conversion_values.r > 0.0 && raw.spend == Num(0.0) ==>
      MapMetric(raw, campaignId).roas == PosInfinity
    ensures raw.conversion_values.Num? && raw.spend.Num? && raw.spend.r > 0.0 ==>
      MapMetric(raw, campaignId).roas == Num(raw.conversion_values.r / raw.spend.r)
    ensures raw.clicks.Num? && raw.impressions.Num? && raw.impressions.r > 0.0 ==>
      MapMetric(raw, campaignId).ctr == Num(raw.clicks.r / raw.impressions.r)
  {
    GuardedQuotient(raw.clicks, raw.impressions);
    GuardedQuotient(raw.spend, raw.clicks);
    GuardedQuotient(raw.spend, raw.conversions);
    GuardedQuotient(raw.conversion_values, raw.spend);
  }

  /** The metric id reads back as the campaign id and the date around the
      first dash after the campaign id, so two days of one campaign never
      share an id. */
  lemma MetricIdSplits(campaignId: string, date: string, other: string)
    ensures MetricId(campaignId, date)[..|campaignId|] == campaignId
    ensures MetricId(campaignId, date)[|campaignId|] == '-'
    ensures MetricId(campaignId, date)[|campaignId| + 1..] == date
    ensures date != other ==> MetricId(campaignId, date) != MetricId(campaignId, other)
  {
    var id := MetricId(campaignId, date);
    assert id[|campaignId| + 1..] == date;
    if date != other {
      assert MetricId(campaignId, other)[|campaignId| + 1..] == other;
    }
  }

  /** A token exchange reply: an error with its description, or the tokens. */
  datatype TokenReply = TokenError(description: string) | Tokens(access_token: string, refresh_token: Option<string>)

  datatype Session = Session(accessToken: string, refreshToken: Option<string>)

  /** `authenticate(code)`: Meta keeps only the access token; Google keeps
      both. */
  function Authenticate(integration: Integration, reply: TokenReply): (r: Result<Session, string>)
    ensures reply.TokenError? <==> r.Err?
    ensures reply.TokenError? ==> r.error == reply.description
    ensures reply.Tokens? ==> r.value.accessToken == reply.access_token
    ensures integration == MetaAds && r.Ok? ==> r.value.refreshToken == None
    ensures integration == GoogleAds && r.Ok? ==> r.value.refreshToken == reply.refresh_token
  {
    match reply
    case TokenError(d) => Err(d)
    case Tokens(access, refresh) =>
      Ok(Session(access, if integration == GoogleAds then refresh else None))
  }

  /** `refreshToken(token)`: Meta always fails; Google passes the exchange's
      outcome on. */
  function RefreshToken(integration: Integration, reply: TokenReply): (r: Result<Session, string>)
    ensures integration == MetaAds ==> r == Err("Meta token refresh not implemented")
    ensures integration == GoogleAds ==> (r.Err? <==> reply.TokenError?)
    ensures integration == GoogleAds && reply.Tokens? ==>
      r == Ok(Session(reply.access_token, reply.refresh_token))
  {
    match integration
    case MetaAds => Err("Meta token refresh not implemented")
    case GoogleAds =>
      match reply
      case TokenError(d) => Err(d)
      case Tokens(access, refresh) => Ok(Session(access, refresh))
  }

  /** `getAccounts(accessToken)`. Google's is a stub that lists nothing
      without asking the provider. */
  function GetAccounts(integration: Integration, reply: Reply<RawAccount>, accessToken: string): (r: Result<seq<AdAccount>, string>)
    ensures integration == GoogleAds ==> r == Ok([])
    ensures integration == MetaAds ==> (r.Err? <==> reply.ProviderError?)
    ensures integration == MetaAds && reply.ProviderError? ==> r.error == reply.message
    ensures integration == MetaAds && reply.Data? ==>
      |r.value| == |reply.items| &&
      forall i | 0 <= i < |reply.items| :: r.value[i] == MapAccount(reply.items[i], accessToken)
  {
    match integration
    case GoogleAds => Ok([])
    case MetaAds =>
      match reply
      case ProviderError(m) => Err(m)
      case Data(items) => Ok(Seqs.Map(items, (a: RawAccount) => MapAccount(a, accessToken)))
  }

  /** `getCampaigns(accountId, accessToken)` */
  function GetCampaigns(integration: Integration, reply: Reply<RawCampaign>, accountId: string): (r: Result<seq<ProviderCampaign>, string>)
    ensures integration == GoogleAds ==> r == Ok([])
    ensures integration == MetaAds ==> (r.Err? <==> reply.ProviderError?)
    ensures integration == MetaAds && reply.ProviderError? ==> r.error == reply.message
    ensures integration == MetaAds && reply.Data? ==>
      |r.value| == |reply.items| &&
      forall i | 0 <= i < |reply.items| :: r.value[i] == MapCampaign(reply.items[i], accountId)
  {
    match integration
    case GoogleAds => Ok([])
    case MetaAds =>
      match reply
      case ProviderError(m) => Err(m)
      case Data(items) => Ok(Seqs.Map(items, (c: RawCampaign) => MapCampaign(c, accountId)))
  }

  /** `getMetrics(campaignId, accessToken, dateRange)` */
  function GetMetrics(integration: Integration, reply: Reply<RawMetric>, campaignId: string): (r: Result<seq<ProviderMetrics>, string>)
    ensures integration == GoogleAds ==> r == Ok([])
    ensures integration == MetaAds ==> (r.Err? <==> reply.ProviderError?)
    ensures integration == MetaAds && reply.ProviderError? ==> r.error == reply.message
    ensures integration == MetaAds && reply.Data? ==>
      |r.value| == |reply.items| &&
      forall i | 0 <= i < |reply.items| :: r.value[i] == MapMetric(reply.items[i], campaignId)
  {
    match integration
    case GoogleAds => Ok([])
    case MetaAds =>
      match reply
      case ProviderError(m) => Err(m)
      case Data(items) => Ok(Seqs.Map(items, (m: RawMetric) => MapMetric(m, campaignId)))
  }

  /** Every metric a Meta reply yields belongs to the requested campaign and
      no two days share an id. */
  lemma MetaMetricsIds(reply: Reply<RawMetric>, campaignId: string)
    requires reply.Data?
    requires forall i, j | 0 <= i < j < |reply.items| :: reply.items[i].date_start != reply.items[j].date_start
    ensures forall m | m in GetMetrics(MetaAds, reply, campaignId).value :: m.campaign_id == campaignId
    ensures forall i, j | 0 <= i < j < |reply.items| ::
      GetMetrics(MetaAds, reply, campaignId).value[i].id != GetMetrics(MetaAds, reply, campaignId).value[j].id
  {
    var ms := GetMetrics(MetaAds, reply, campaignId).value;
    forall i, j | 0 <= i < j < |reply.items| ensures ms[i].id != ms[j].id {
      MetricIdSplits(campaignId, reply.items[i].date_start, reply.items[j].date_start);
    }
  }

  /** `AdPlatformManager`: the registry of integrations, filled once. */
  class AdPlatformManager {
    var integrations: map<AdPlatform, Integration>

    constructor()
      ensures integrations == map[Meta := MetaAds, Google := GoogleAds]
    {
      integrations := map[];
      new;
      integrations := integrations[Meta := MetaAds];
      integrations := integrations[Google := GoogleAds];
    }

    /** `getIntegration(platform)` */
    method GetIntegration(platform: AdPlatform) returns (r: Result<Integration, string>)
      ensures r.Ok? <==> platform in integrations
      ensures r.Ok? ==> r.value == integrations[platform]
      ensures r.Err? ==> r.error == "Platform " + PlatformName(platform) + " not supported"
    {
      if platform in integrations {
        r := Ok(integrations[platform]);
      } else {
        r := Err("Platform " + PlatformName(platform) + " not supported");
      }
    }
  }

  /** A fresh manager serves exactly Meta and Google, each by its own
      integration, and refuses TikTok, LinkedIn and Twitter. */
  method SupportedPlatforms(platform: AdPlatform) returns (r: Result<Integration, string>)
    ensures r.Ok? <==> platform in {Meta, Google}
    ensures platform == Meta ==> r == Ok(MetaAds)
    ensures platform == Google ==> r == Ok(GoogleAds)
    ensures platform == TikTok ==> r == Err("Platform tiktok not supported")
  {
    var manager := new AdPlatformManager();
    r := manager.GetIntegration(platform);
    assert "Platform " + PlatformName(TikTok) + " not supported" == "Platform tiktok not supported";
  }
}
