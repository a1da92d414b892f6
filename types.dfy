/** The records of src/types/index.ts. Numbers are reals (float rounding is not
    modelled); optional fields are `Option`s; timestamps are left out. */
module Types {
  import opened Common

  datatype AuthProvider = TelegramProvider | GoogleProvider

  /** The `AdPlatform` union. */
  datatype AdPlatform = Meta | Google | TikTok | LinkedIn | Twitter

  datatype AccountStatus = AccountActive | AccountInactive | AccountError

  datatype BudgetType = Daily | Lifetime

  /** A row of the users table. The id is the key the database assigns
      (a number here); `name` and the timestamps are left out. */
  datatype User = User(
    id: nat,
    email: Option<string>,
    first_name: Option<string>,
    last_name: Option<string>,
    username: Option<string>,
    avatar_url: Option<string>,
    telegram_id: Option<string>,
    google_id: Option<string>,
    language_code: Option<string>,
    is_premium: Option<bool>,
    auth_provider: Option<AuthProvider>)

  /** An ad account as a provider reports it. */
  datatype AdAccount = AdAccount(
    id: string,
    platform: AdPlatform,
    account_id: string,
    account_name: string,
    access_token: string,
    status: AccountStatus)

  /** A campaign. `status` is kept as the provider's text (a lowercased Meta
      status need not be one of the `CampaignStatus` names). */
  datatype Campaign = Campaign(
    id: string,
    ad_account_id: string,
    platform_campaign_id: string,
    name: string,
    status: string,
    objective: string,
    budget: real,
    budget_type: BudgetType,
    start_date: string,
    end_date: Option<string>)

  /** One day of a campaign's metrics. */
  datatype AdMetrics = AdMetrics(
    id: string,
    campaign_id: string,
    date: string,
    impressions: real,
    clicks: real,
    spend: real,
    conversions: real,
    revenue: real,
    ctr: real,
    cpc: real,
    cpa: real,
    roas: real)

  /** The dashboard's campaign row: a campaign with its platform's display
      name and its latest metrics, either of which may be missing. */
  datatype DashboardCampaign = DashboardCampaign(
    campaign: Campaign,
    platform_name: Option<string>,
    metrics: Option<AdMetrics>)

  /** `c.metrics?.spend || 0` */
  function SpendOf(c: DashboardCampaign): real {
    if c.metrics.Some? then c.metrics.value.spend else 0.0
  }

  /** `c.metrics?.revenue || 0` */
  function RevenueOf(c: DashboardCampaign): real {
    if c.metrics.Some? then c.metrics.value.revenue else 0.0
  }

  /** `c.metrics?.roas || 0` */
  function RoasOf(c: DashboardCampaign): real {
    if c.metrics.Some? then c.metrics.value.roas else 0.0
  }

  /** `c.platform_name || 'Unknown'` */
  function PlatformKey(c: DashboardCampaign): (r: string)
    ensures TruthyText(c.platform_name) ==> r == c.platform_name.value
    ensures !TruthyText(c.platform_name) ==> r == "Unknown"
  {
    OrElse(c.platform_name, Some("Unknown")).value
  }

  predicate HasMetrics(c: DashboardCampaign) {
    c.metrics.Some?
  }

  /** The sum of `f` over a list, as `reduce((sum, c) => sum + f(c), 0)` computes it. */
  function Sum(cs: seq<DashboardCampaign>, f: DashboardCampaign -> real): real {
    if cs == [] then 0.0 else Sum(cs[..|cs| - 1], f) + f(cs[|cs| - 1])
  }

}
