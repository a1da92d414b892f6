/** The answer engine of src/lib/deepseek.ts: the rule-based mock classifier,
    the client's choice between the remote API and the mock, and the prompt
    pair that `answerQuestion` sends. The remote call is an abstract outcome;
    the canned answers are named by a `Template` rather than reproduced. */
module Deepseek {
  import opened Common
  import opened Text
  import Seqs

  /** The canned answers `generateMockResponse` can return. */
  datatype Template =
    | CyberMondayAnalysis | ValentineAnalysis | SummerStyleAnalysis
    | CampaignsRequiringAction | TopPerformers | NeedsAttention | Optimization
    | PlatformComparison | RoasAnalysis | BudgetAnalysis | RecentTrends
    | CampaignComparison | Conversions | AudienceInsights | CreativeInsights
    | SeasonalInsights | PerformanceOverview | AssistantReady

  /** The classifier's rules, one per `if` block, in source order. */
  datatype Rule =
    | NamedCampaign | ActionList | BestCampaigns | WorstCampaigns | OptimizeTips
    | Platforms | Roas | Budget | TimeWindow | Compare | Sales | Audience
    | Creative | Seasonal | Overview

  const NamedCampaignPhrases: seq<string> := ["cyber monday", "valentine", "summer style"]
  const ActionPhrases: seq<string> := ["which campaigns", "campaign list", "pause", "quali campagne",
    "campaigns should", "consider pausing", "improving", "below 2.0", "above", "highlight"]
  const BestPhrases: seq<string> := ["best", "top", "highest", "migliore", "migliori"]
  const WorstPhrases: seq<string> := ["worst", "bad", "poor", "attention", "problemi", "peggiore"]
  const OptimizePhrases: seq<string> := ["optimize", "improve", "better", "ottimizzare", "migliorare",
    "suggestions", "recommendations", "should i", "improvements"]
  const PlatformPhrases: seq<string> := ["google ads", "meta ads", "facebook", "platform"]
  const BudgetPhrases: seq<string> := ["budget", "spend", "money", "spesa"]
  const TimePhrases: seq<string> := ["this month", "last week", "yesterday", "trend", "recently"]
  const ComparePhrases: seq<string> := ["compare", "vs", "difference", "which is"]
  const SalesPhrases: seq<string> := ["conversion", "sales", "revenue", "customers", "orders"]
  const AudiencePhrases: seq<string> := ["audience", "targeting", "demographics", "who", "customers"]
  const CreativePhrases: seq<string> := ["creative", "ad copy", "images", "video", "text"]
  const SeasonalPhrases: seq<string> := ["season", "trending", "holiday", "summer", "winter", "trends"]
  const OverviewPhrases: seq<string> := ["metriche", "spesa totale", "ricavo", "january", "gennaio",
    "total spend", "total revenue"]

  /** Some phrase of the list occurs in `m` (the `||` of `includes` calls). */
  predicate AnyOf(m: string, phrases: seq<string>) {
    phrases != [] && (Contains(m, phrases[0]) || AnyOf(m, phrases[1..]))
  }

  lemma {:induction false} AnyOfMeansSomePhrase(m: string, phrases: seq<string>)
    ensures AnyOf(m, phrases) <==> exists p | p in phrases :: Contains(m, p)
  {
    if phrases != [] {
      AnyOfMeansSomePhrase(m, phrases[1..]);
      assert forall p | p in phrases :: p == phrases[0] || p in phrases[1..];
    }
  }

  /** The overview rule's condition. */
  predicate OverviewCondition(m: string) {
    (Contains(m, "performance") && (Contains(m, "overall") || Contains(m, "general")))
    || (Contains(m, "how are") && Contains(m, "campaigns"))
    || AnyOf(m, OverviewPhrases)
    || (Contains(m, "ctr") && Contains(m, "cpa"))
  }

  /** `generateMockResponse` on the already lowercased last message: the
      first `if` whose condition holds picks the answer. */
  function Classify(m: string): Template {
    if AnyOf(m, NamedCampaignPhrases) then
      if Contains(m, "cyber monday") then CyberMondayAnalysis
      else if Contains(m, "valentine") then ValentineAnalysis
      else SummerStyleAnalysis
    else if AnyOf(m, ActionPhrases) then CampaignsRequiringAction
    else if AnyOf(m, BestPhrases) then TopPerformers
    else if AnyOf(m, WorstPhrases) then NeedsAttention
    else if AnyOf(m, OptimizePhrases) then Optimization
    else if AnyOf(m, PlatformPhrases) then PlatformComparison
    else if Contains(m, "roas") && !Contains(m, "overall") then RoasAnalysis
    else if AnyOf(m, BudgetPhrases) then BudgetAnalysis
    else if AnyOf(m, TimePhrases) then RecentTrends
    else if AnyOf(m, ComparePhrases) then CampaignComparison
    else if AnyOf(m, SalesPhrases) then Conversions
    else if AnyOf(m, AudiencePhrases) then AudienceInsights
    else if AnyOf(m, CreativePhrases) then CreativeInsights
    else if AnyOf(m, SeasonalPhrases) then SeasonalInsights
    else if OverviewCondition(m) then PerformanceOverview
    else AssistantReady
  }

  // ---------------------------------------------------------------------
  // A second, table-driven reading of the classifier: a priority list of
  // rules, each with its trigger and its answer, searched for the first
  // rule that fires.

  const Priority: seq<Rule> := [NamedCampaign, ActionList, BestCampaigns, WorstCampaigns,
    OptimizeTips, Platforms, Roas, Budget, TimeWindow, Compare, Sales, Audience, Creative,
    Seasonal, Overview]

  predicate Fires(r: Rule, m: string) {
    match r
    case NamedCampaign => AnyOf(m, NamedCampaignPhrases)
    case ActionList => AnyOf(m, ActionPhrases)
    case BestCampaigns => AnyOf(m, BestPhrases)
    case WorstCampaigns => AnyOf(m, WorstPhrases)
    case OptimizeTips => AnyOf(m, OptimizePhrases)
    case Platforms => AnyOf(m, PlatformPhrases)
    case Roas => Contains(m, "roas") && !Contains(m, "overall")
    case Budget => AnyOf(m, BudgetPhrases)
    case TimeWindow => AnyOf(m, TimePhrases)
    case Compare => AnyOf(m, ComparePhrases)
    case Sales => AnyOf(m, SalesPhrases)
    case Audience => AnyOf(m, AudiencePhrases)
    case Creative => AnyOf(m, CreativePhrases)
    case Seasonal => AnyOf(m, SeasonalPhrases)
    case Overview => OverviewCondition(m)
  }

  /** The answer a rule gives once it has fired. */
  function Answer(r: Rule, m: string): Template {
    match r
    case NamedCampaign =>
      if Contains(m, "cyber monday") then CyberMondayAnalysis
      else if Contains(m, "valentine") then ValentineAnalysis
      else SummerStyleAnalysis
    case ActionList => CampaignsRequiringAction
    case BestCampaigns => TopPerformers
    case WorstCampaigns => NeedsAttention
    case OptimizeTips => Optimization
    case Platforms => PlatformComparison
    case Roas => RoasAnalysis
    case Budget => BudgetAnalysis
    case TimeWindow => RecentTrends
    case Compare => CampaignComparison
    case Sales => Conversions
    case Audience => AudienceInsights
    case Creative => CreativeInsights
    case Seasonal => SeasonalInsights
    case Overview => PerformanceOverview
  }

  /** The first rule of `rules` that fires on `m`. */
  function FirstMatch(rules: seq<Rule>, m: string): (r: Option<Rule>)
    ensures r.Some? ==> r.value in rules
  {
    if rules == [] then None
    else if Fires(rules[0], m) then Some(rules[0])
    else FirstMatch(rules[1..], m)
  }

  function ClassifyByTable(m: string): Template {
    match FirstMatch(Priority, m)
    case None => AssistantReady
    case Some(r) => Answer(r, m)
  }

  /** The first match is the rule at `k` exactly when that rule fires and
      none before it does (the rules being distinct). */
  lemma {:induction false} FirstMatchAt(rules: seq<Rule>, m: string, k: nat)
    requires k < |rules|
    requires forall i, j | 0 <= i < j < |rules| :: rules[i] != rules[j]
    ensures FirstMatch(rules, m) == Some(rules[k]) <==>
      Fires(rules[k], m) && forall j | 0 <= j < k :: !Fires(rules[j], m)
  {
    if k > 0 {
      assert rules[0] != rules[k];
      if !Fires(rules[0], m) {
        FirstMatchAt(rules[1..], m, k - 1);
        assert rules[1..][k - 1] == rules[k];
        forall j | 0 <= j < k - 1 ensures rules[1..][j] == rules[j + 1] {}
        assert forall j | 0 <= j < k :: j == 0 || rules[j] == rules[1..][j - 1];
      }
    }
  }

  /** No match at all exactly when no rule fires. */
  lemma {:induction false} FirstMatchNone(rules: seq<Rule>, m: string)
    ensures FirstMatch(rules, m) == None <==> forall j | 0 <= j < |rules| :: !Fires(rules[j], m)
  {
    if rules != [] && !Fires(rules[0], m) {
      FirstMatchNone(rules[1..], m);
      assert forall j | 1 <= j < |rules| :: rules[1..][j - 1] == rules[j];
    }
  }

  lemma PriorityDistinct()
    ensures forall i, j | 0 <= i < j < |Priority| :: Priority[i] != Priority[j]
  {
  }

  /** When the rule at position `k` is the first to fire, the `if` chain
      gives that rule's answer. */
  lemma ClassifyFirstFiring(m: string, k: nat)
    requires k < |Priority| && Fires(Priority[k], m)
    requires forall j | 0 <= j < k :: !Fires(Priority[j], m)
    ensures Classify(m) == Answer(Priority[k], m)
  {
    PriorityNames();
  }

  /** When no rule fires, the `if` chain falls through to the default. */
  lemma ClassifyNoneFiring(m: string)
    requires forall j | 0 <= j < |Priority| :: !Fires(Priority[j], m)
    ensures Classify(m) == AssistantReady
  {
    PriorityNames();
  }

  lemma PriorityNames()
    ensures Priority[0] == NamedCampaign && Priority[1] == ActionList && Priority[2] == BestCampaigns
    ensures Priority[3] == WorstCampaigns && Priority[4] == OptimizeTips && Priority[5] == Platforms
    ensures Priority[6] == Roas && Priority[7] == Budget && Priority[8] == TimeWindow
    ensures Priority[9] == Compare && Priority[10] == Sales && Priority[11] == Audience
    ensures Priority[12] == Creative && Priority[13] == Seasonal && Priority[14] == Overview
  {
  }

  /** The `if` chain and the priority table agree on every message. */
  lemma ClassifyAgreesWithTable(m: string)
    ensures Classify(m) == ClassifyByTable(m)
  {
    PriorityDistinct();
    match FirstMatch(Priority, m)
    case None =>
      FirstMatchNone(Priority, m);
      ClassifyNoneFiring(m);
    case Some(r) =>
      var k :| 0 <= k < |Priority| && Priority[k] == r;
      FirstMatchAt(Priority, m, k);
      ClassifyFirstFiring(m, k);
  }

  /** A rule's place in the priority list. */
  function Position(r: Rule): (k: nat)
    ensures k < |Priority| && Priority[k] == r
  {
    PriorityNames();
    match r
    case NamedCampaign => 0
    case ActionList => 1
    case BestCampaigns => 2
    case WorstCampaigns => 3
    case OptimizeTips => 4
    case Platforms => 5
    case Roas => 6
    case Budget => 7
    case TimeWindow => 8
    case Compare => 9
    case Sales => 10
    case Audience => 11
    case Creative => 12
    case Seasonal => 13
    case Overview => 14
  }

  /** The place of the rule that gives `t`; the default answer ranks after
      every rule. */
  function Rank(t: Template): nat {
    match t
    case CyberMondayAnalysis => 0
    case ValentineAnalysis => 0
    case SummerStyleAnalysis => 0
    case CampaignsRequiringAction => 1
    case TopPerformers => 2
    case NeedsAttention => 3
    case Optimization => 4
    case PlatformComparison => 5
    case RoasAnalysis => 6
    case BudgetAnalysis => 7
    case RecentTrends => 8
    case CampaignComparison => 9
    case Conversions => 10
    case AudienceInsights => 11
    case CreativeInsights => 12
    case SeasonalInsights => 13
    case PerformanceOverview => 14
    case AssistantReady => 15
  }

  lemma RankOfAnswer(r: Rule, m: string)
    ensures Rank(Answer(r, m)) == Position(r)
  {
  }

  /** First match wins: the answer comes from the rule at position `k`
      exactly when that rule fires and no earlier rule does. */
  lemma ClassifyRank(m: string, k: nat)
    requires k < |Priority|
    ensures Rank(Classify(m)) == k <==>
      Fires(Priority[k], m) && forall j | 0 <= j < k :: !Fires(Priority[j], m)
  {
    ClassifyAgreesWithTable(m);
    PriorityDistinct();
    FirstMatchAt(Priority, m, k);
    match FirstMatch(Priority, m)
    case None =>
      FirstMatchNone(Priority, m);
    case Some(r) =>
      RankOfAnswer(r, m);
      assert Position(r) == k <==> r == Priority[k];
  }

  /** The default answer is given exactly when no rule fires. */
  lemma ClassifyDefault(m: string)
    ensures Classify(m) == AssistantReady <==> forall j | 0 <= j < |Priority| :: !Fires(Priority[j], m)
  {
    ClassifyAgreesWithTable(m);
    FirstMatchNone(Priority, m);
    match FirstMatch(Priority, m)
    case None =>
    case Some(r) =>
      RankOfAnswer(r, m);
  }

  /** A rule that fires bounds the rank of the answer: some rule no later
      than it has answered. */
  lemma ClassifyRankAtMost(m: string, k: nat)
    requires k < |Priority| && Fires(Priority[k], m)
    ensures Rank(Classify(m)) <= k
  {
    ClassifyDefault(m);
    var t := Classify(m);
    if Rank(t) > k {
      assert t != AssistantReady;
      ClassifyRank(m, Rank(t));
    }
  }

  lemma PhraseFires(m: string, phrases: seq<string>, p: string)
    requires p in phrases && Contains(m, p)
    ensures AnyOf(m, phrases)
  {
    AnyOfMeansSomePhrase(m, phrases);
  }

  /** "pause" outranks "best": such a message never gets the top-performer
      answer, and gets the action list unless it names a campaign. */
  lemma PauseBeatsBest(m: string)
    requires Contains(m, "pause") && Contains(m, "best")
    ensures Classify(m) != TopPerformers
    ensures !AnyOf(m, NamedCampaignPhrases) ==> Classify(m) == CampaignsRequiringAction
  {
    PriorityNames();
    PhraseFires(m, ActionPhrases, "pause");
    ClassifyRankAtMost(m, 1);
  }

  /** Inside the named-campaign rule, Cyber Monday beats Valentine's Day,
      which beats Summer Style; "summer style" never reaches the seasonal rule. */
  lemma NamedCampaignOrder(m: string)
    ensures Contains(m, "cyber monday") ==> Classify(m) == CyberMondayAnalysis
    ensures Contains(m, "valentine") && !Contains(m, "cyber monday") ==> Classify(m) == ValentineAnalysis
    ensures Contains(m, "summer style") && !Contains(m, "cyber monday") && !Contains(m, "valentine") ==>
      Classify(m) == SummerStyleAnalysis
  {
    if Contains(m, "cyber monday") { PhraseFires(m, NamedCampaignPhrases, "cyber monday"); }
    if Contains(m, "valentine") { PhraseFires(m, NamedCampaignPhrases, "valentine"); }
    if Contains(m, "summer style") { PhraseFires(m, NamedCampaignPhrases, "summer style"); }
  }

  /** The ROAS answer needs "roas", no "overall", and none of the six
      earlier rules firing; and those conditions suffice. */
  lemma RoasRule(m: string)
    ensures Classify(m) == RoasAnalysis <==>
      Contains(m, "roas") && !Contains(m, "overall") && forall j | 0 <= j < 6 :: !Fires(Priority[j], m)
  {
    PriorityNames();
    ClassifyRank(m, 6);
  }

  /** "customers" is listed by both the conversions rule and the audience
      rule; the conversions rule comes first, so the audience answer is
      never given for it. */
  lemma CustomersNeverAudience(m: string)
    requires Contains(m, "customers")
    ensures Classify(m) != AudienceInsights
    ensures Rank(Classify(m)) <= 10
  {
    PriorityNames();
    PhraseFires(m, SalesPhrases, "customers");
    ClassifyRankAtMost(m, 10);
  }

  /** The overview answer needs the overview condition and no earlier rule. */
  lemma OverviewRule(m: string)
    ensures Classify(m) == PerformanceOverview <==>
      OverviewCondition(m) && forall j | 0 <= j < 14 :: !Fires(Priority[j], m)
  {
    PriorityNames();
    ClassifyRank(m, 14);
  }

  /** Three of the overview rule's phrases can never select it: each
      contains a word an earlier rule already matches ("spend", "spesa",
      "revenue"). */
  lemma OverviewPhrasesShadowed(m: string)
    requires Contains(m, "total spend") || Contains(m, "spesa totale") || Contains(m, "total revenue")
    ensures Classify(m) != PerformanceOverview
  {
    PriorityNames();
    if Contains(m, "total spend") {
      assert "total spend"[6..11] == "spend";
      ContainsWithin(m, "total spend", "spend", 6);
      PhraseFires(m, BudgetPhrases, "spend");
      ClassifyRankAtMost(m, 7);
    } else if Contains(m, "spesa totale") {
      assert "spesa totale"[0..5] == "spesa";
      ContainsWithin(m, "spesa totale", "spesa", 0);
      PhraseFires(m, BudgetPhrases, "spesa");
      ClassifyRankAtMost(m, 7);
    } else {
      assert "total revenue"[6..13] == "revenue";
      ContainsWithin(m, "total revenue", "revenue", 6);
      PhraseFires(m, SalesPhrases, "revenue");
      ClassifyRankAtMost(m, 10);
    }
  }

  lemma {:induction false} NoPhraseInEmpty(m: string, phrases: seq<string>)
    requires m == []
    ensures AnyOf(m, phrases) <==> [] in phrases
  {
    if phrases != [] {
      NoPhraseInEmpty(m, phrases[1..]);
      assert Contains(m, phrases[0]) <==> phrases[0] == [] by {
        if phrases[0] != [] { NothingInEmpty(phrases[0]); } else { ContainsItself(m); }
      }
      assert phrases == [phrases[0]] + phrases[1..];
    }
  }

  lemma EmptyFiresNothing(m: string, r: Rule)
    requires m == []
    ensures !Fires(r, m)
  {
    match r
    case NamedCampaign => NoPhraseInEmpty(m, NamedCampaignPhrases);
    case ActionList => NoPhraseInEmpty(m, ActionPhrases);
    case BestCampaigns => NoPhraseInEmpty(m, BestPhrases);
    case WorstCampaigns => NoPhraseInEmpty(m, WorstPhrases);
    case OptimizeTips => NoPhraseInEmpty(m, OptimizePhrases);
    case Platforms => NoPhraseInEmpty(m, PlatformPhrases);
    case Roas => NothingInEmpty("roas");
    case Budget => NoPhraseInEmpty(m, BudgetPhrases);
    case TimeWindow => NoPhraseInEmpty(m, TimePhrases);
    case Compare => NoPhraseInEmpty(m, ComparePhrases);
    case Sales => NoPhraseInEmpty(m, SalesPhrases);
    case Audience => NoPhraseInEmpty(m, AudiencePhrases);
    case Creative => NoPhraseInEmpty(m, CreativePhrases);
    case Seasonal => NoPhraseInEmpty(m, SeasonalPhrases);
    case Overview =>
      NoPhraseInEmpty(m, OverviewPhrases);
      NothingInEmpty("performance");
      NothingInEmpty("how are");
      NothingInEmpty("ctr");
  }

  /** An empty message gets the default answer. */
  lemma EmptyGetsDefault(m: string)
    requires m == []
    ensures Classify(m) == AssistantReady
  {
    forall j | 0 <= j < |Priority| ensures !Fires(Priority[j], m) {
      EmptyFiresNothing(m, Priority[j]);
    }
    ClassifyDefault(m);
  }

  // ---------------------------------------------------------------------
  // Messages, the mock answer and the client's choice of path.

  datatype Role = SystemRole | UserRole | AssistantRole

  datatype Message = Message(role: Role, content: string)

  /** `generateMockResponse`: the last message's text, lowercased, is
      classified; with no messages the text is empty. */
  function MockResponse(messages: seq<Message>): (t: Template)
    ensures messages == [] ==> t == AssistantReady
    ensures messages != [] && messages[|messages| - 1].content == [] ==> t == AssistantReady
  {
    var text := if messages == [] then "" else messages[|messages| - 1].content;
    if text == [] then
      EmptyGetsDefault(Lower(text));
      Classify(Lower(text))
    else Classify(Lower(text))
  }

  /** Only the lowercase form of the last message matters: earlier messages
      and letter case are ignored. */
  lemma MockIgnoresCase(earlier: seq<Message>, a: Message, b: Message)
    requires Lower(a.content) == Lower(b.content)
    ensures MockResponse(earlier + [a]) == MockResponse([b])
  {
    assert (earlier + [a])[|earlier + [a]| - 1] == a;
  }

  /** How the remote call ended: a parsed reply whose `choices` field may be
      missing (each choice's content may be missing too), a non-ok HTTP
      status, or a thrown error (network failure, unparsable body). */
  datatype RemoteOutcome =
    | Completed(choices: Option<seq<Option<string>>>)
    | HttpError(status: int)
    | Thrown

  /** What `chat` returns: a canned mock answer, or the remote model's text. */
  datatype Reply = Canned(template: Template) | Generated(text: string)

  /** The client's configuration, fixed at construction. */
  datatype DeepseekClient = DeepseekClient(apiKey: string, baseUrl: string) {

    /** Mock mode: no API key. */
    predicate UseMockMode() {
      apiKey == ""
    }

    /** `chat`: the mock in mock mode; otherwise the remote reply's first
        choice (or "" when it has none), falling back to the mock on a
        non-ok status or any error. In mock mode the remote outcome is
        never looked at. */
    function Chat(messages: seq<Message>, remote: RemoteOutcome): (r: Reply)
      ensures UseMockMode() ==> r == Canned(MockResponse(messages))
      ensures r.Canned? ==> r == Canned(MockResponse(messages))
      ensures r.Generated? <==> !UseMockMode() && remote.Completed? && remote.choices.Some?
      ensures r.Generated? ==>
        (r.text == "" <==> remote.choices.value == [] || !TruthyText(remote.choices.value[0]))
      ensures r.Generated? && r.text != "" ==> r.text == remote.choices.value[0].value
    {
      if UseMockMode() then Canned(MockResponse(messages))
      else
        match remote
        case HttpError(_) => Canned(MockResponse(messages))
        case Thrown => Canned(MockResponse(messages))
        case Completed(choices) =>
          if choices.None? then Canned(MockResponse(messages))
          else if choices.value == [] then Generated("")
          else Generated(OrElse(choices.value[0], Some("")).value)
    }
  }

  /** The constructor: the key and base URL come from the environment,
      with "" and the public endpoint as defaults. */
  function NewClient(envApiKey: Option<string>, envBaseUrl: Option<string>): (c: DeepseekClient)
    ensures c.UseMockMode() <==> !TruthyText(envApiKey)
    ensures TruthyText(envApiKey) ==> c.apiKey == envApiKey.value
    ensures TruthyText(envBaseUrl) ==> c.baseUrl == envBaseUrl.value
    ensures !TruthyText(envBaseUrl) ==> c.baseUrl == "https://api.deepseek.com"
  {
    DeepseekClient(OrElse(envApiKey, Some("")).value, OrElse(envBaseUrl, Some("https://api.deepseek.com")).value)
  }

  /** A successful remote reply without content yields the empty answer:
      a non-empty answer is not guaranteed. */
  lemma SuccessMayBeEmpty(c: DeepseekClient, messages: seq<Message>)
    requires !c.UseMockMode()
    ensures c.Chat(messages, Completed(Some([]))) == Generated("")
    ensures c.Chat(messages, Completed(Some([None]))) == Generated("")
  {
  }

  // ---------------------------------------------------------------------
  // answerQuestion: the system and user prompts built from the context.

  /** `x?.toLocaleString() || d`: the default applies when the value is
      missing or its rendering is empty. */
  function LocalizedOrDefault(f: Field, d: string): (r: string)
    ensures f.Present? && f.text != "" ==> r == f.text
    ensures !(f.Present? && f.text != "") ==> r == d
  {
    if f.Present? && f.text != "" then f.text else d
  }

  /** The mock portfolio summary a caller may pass. */
  datatype CampaignSummary = CampaignSummary(
    totalCampaigns: Field, totalSpend: Field, totalRevenue: Field, averageRoas: Field,
    googleCampaigns: Field, metaCampaigns: Field,
    bestName: Field, bestRoas: Field, worstName: Field, worstRoas: Field)

  const NoSummary := CampaignSummary(Missing, Missing, Missing, Missing, Missing, Missing,
    Missing, Missing, Missing, Missing)

  /** The `context` argument. The flags are already reduced to booleans
      (`|| false`); each recent-metrics row is its JSON text as it appears
      inside the indented array. */
  datatype QuestionContext = QuestionContext(
    isAICommand: bool,
    isMockData: bool,
    userName: Field,
    campaignSummary: Option<CampaignSummary>,
    recentMetrics: Option<seq<string>>)

  const PromptIntro := "You are an expert AI advertising consultant with deep knowledge of digital marketing across platforms like Meta Ads, Google Ads, TikTok Ads, and LinkedIn Ads. "
  const CommandFraming := "The user is asking for advertising optimization tips via a Telegram bot command. Provide concise, actionable advice (max 500 words) with:\n      • Specific optimization tactics\n      • Expected ROI/ROAS improvements \n      • Platform-specific recommendations\n      • Quick implementation steps\n      \n      Use emojis and bullet points for readability in Telegram."
  const GeneralFraming := "Answer questions about advertising campaign performance, optimization strategies, and marketing insights using the provided context data."
  const ExpertiseAreas := "Key expertise areas:\n    - ROAS & CPA optimization\n    - Audience targeting & lookalike audiences  \n    - Creative testing & ad fatigue management\n    - Bidding strategies (CBO, ABO, Target CPA, etc.)\n    - Attribution & tracking setup\n    - Platform-specific best practices\n    - Budget allocation & scaling strategies"

  /** The demo-data paragraph, with the defaults for missing values. */
  function DemoBlock(ctx: QuestionContext): string {
    var s := ctx.campaignSummary.GetOr(NoSummary);
    "You are analyzing DEMO campaign data for a user named " + OrDefault(ctx.userName, "User")
    + ". The data includes:\n      - " + OrDefault(s.totalCampaigns, "Multiple")
    + " campaigns across Google Ads and Meta Ads\n      - Total spend: $" + LocalizedOrDefault(s.totalSpend, "54,859")
    + "\n      - Total revenue: $" + LocalizedOrDefault(s.totalRevenue, "193,652")
    + "\n      - Average ROAS: " + OrDefault(s.averageRoas, "3.44")
    + "x\n      - Best performing: " + OrDefault(s.bestName, "Cyber Monday Exclusive")
    + " (" + OrDefault(s.bestRoas, "4.75")
    + "x ROAS)\n      - Worst performing: " + OrDefault(s.worstName, "Valentine's Day Looks")
    + " (" + OrDefault(s.worstRoas, "2.19")
    + "x ROAS)\n      \n      Provide specific insights and actionable recommendations based on this performance data."
  }

  function SystemPrompt(ctx: QuestionContext): string {
    PromptIntro + "\n\n    " + (if ctx.isAICommand then CommandFraming else GeneralFraming)
    + "\n    \n    " + (if ctx.isMockData then DemoBlock(ctx) else "")
    + "\n    \n    " + ExpertiseAreas
  }

  function Join(rows: seq<string>, sep: string): string {
    if rows == [] then "" else if |rows| == 1 then rows[0] else rows[0] + sep + Join(rows[1..], sep)
  }

  /** `JSON.stringify(rows, null, 2)` for a non-empty array of rendered rows. */
  function JsonArray(rows: seq<string>): string {
    "[\n  " + Join(rows, ",\n  ") + "\n]"
  }

  const AiCommandNotePrefix := "Note: User doesn't have campaign data connected yet. Provide general advertising optimization "
  const NoDataNote := "Context: No campaign data available."

  /** The summary prompt's figures block. */
  function SummaryFigures(s: CampaignSummary): string {
    "\n\nCampaign Performance Summary:\n- Total Campaigns: " + Rendered(s.totalCampaigns)
    + "\n- Total Spend: $" + Rendered(s.totalSpend) + "\n- Total Revenue: $" + Rendered(s.totalRevenue)
    + "\n- Average ROAS: " + Rendered(s.averageRoas) + "x\n- Google Ads Campaigns: " + Rendered(s.googleCampaigns)
    + "\n- Meta Ads Campaigns: " + Rendered(s.metaCampaigns)
  }

  function TopPerformerLine(s: CampaignSummary): string {
    "\n\nTop Performer: " + Rendered(s.bestName) + " - " + Rendered(s.bestRoas) + "x ROAS"
  }

  function NeedsAttentionLine(s: CampaignSummary): string {
    "\nNeeds Attention: " + Rendered(s.worstName) + " - " + Rendered(s.worstRoas) + "x ROAS"
  }

  const SummaryClosing := "\n\nBased on this campaign data, provide specific, actionable optimization recommendations."

  /** The user prompt: the mock summary when there is one, else the recent
      metrics when there are any, else the bare question with a note. */
  function UserPrompt(question: string, ctx: QuestionContext): string {
    if ctx.isMockData && ctx.campaignSummary.Some? then
      var s := ctx.campaignSummary.value;
      "User Question: " + question + SummaryFigures(s) + TopPerformerLine(s) + NeedsAttentionLine(s) + SummaryClosing
    else if ctx.recentMetrics.Some? && |ctx.recentMetrics.value| > 0 then
      "Campaign Context: " + JsonArray(Seqs.Take(ctx.recentMetrics.value, 5)) + "\n      \nQuestion: " + question
    else if ctx.isAICommand then
      "Question: " + question + "\n      \n" + AiCommandNotePrefix + "best practices."
    else
      "Question: " + question + "\n      \n" + NoDataNote
  }

  /** The pair `answerQuestion` sends: the system prompt, then the user prompt. */
  function AnswerMessages(question: string, ctx: QuestionContext): (r: seq<Message>)
    ensures |r| == 2 && r[0].role == SystemRole && r[1].role == UserRole
    ensures r[0].content == SystemPrompt(ctx) && r[1].content == UserPrompt(question, ctx)
  {
    [Message(SystemRole, SystemPrompt(ctx)), Message(UserRole, UserPrompt(question, ctx))]
  }

  /** `answerQuestion`. In mock mode the built user prompt, not the bare
      question, is what gets classified. */
  function AnswerQuestion(client: DeepseekClient, question: string, ctx: QuestionContext, remote: RemoteOutcome): (r: Reply)
    ensures client.UseMockMode() ==> r == Canned(Classify(Lower(UserPrompt(question, ctx))))
    ensures r.Canned? ==> r.template == Classify(Lower(UserPrompt(question, ctx)))
  {
    client.Chat(AnswerMessages(question, ctx), remote)
  }

  /** A phrase in the (lowercased) question is also in the lowercased
      prompt, whichever prompt is built. */
  lemma QuestionPhraseInPrompt(question: string, ctx: QuestionContext, phrase: string)
    requires Contains(Lower(question), phrase)
    ensures Contains(Lower(UserPrompt(question, ctx)), phrase)
  {
    if ctx.isMockData && ctx.campaignSummary.Some? {
      var s := ctx.campaignSummary.value;
      var a := "User Question: " + question;
      LowerContainsRight("User Question: ", question, phrase);
      LowerContainsLeft(a, SummaryFigures(s), phrase);
      LowerContainsLeft(a + SummaryFigures(s), TopPerformerLine(s), phrase);
      LowerContainsLeft(a + SummaryFigures(s) + TopPerformerLine(s), NeedsAttentionLine(s), phrase);
      LowerContainsLeft(a + SummaryFigures(s) + TopPerformerLine(s) + NeedsAttentionLine(s), SummaryClosing, phrase);
    } else if ctx.recentMetrics.Some? && |ctx.recentMetrics.value| > 0 {
      LowerContainsRight("Campaign Context: " + JsonArray(Seqs.Take(ctx.recentMetrics.value, 5)) + "\n      \nQuestion: ", question, phrase);
    } else {
      var a := "Question: " + question;
      LowerContainsRight("Question: ", question, phrase);
      LowerContainsLeft(a, "\n      \n", phrase);
      if ctx.isAICommand {
        LowerContainsLeft(a + "\n      \n", AiCommandNotePrefix, phrase);
        LowerContainsLeft(a + "\n      \n" + AiCommandNotePrefix, "best practices.", phrase);
      } else {
        LowerContainsLeft(a + "\n      \n", NoDataNote, phrase);
      }
    }
  }

  /** In mock mode a question naming Cyber Monday always gets the Cyber
      Monday answer, whatever the context. */
  lemma CyberMondayQuestion(client: DeepseekClient, question: string, ctx: QuestionContext, remote: RemoteOutcome)
    requires client.UseMockMode() && Contains(Lower(question), "cyber monday")
    ensures AnswerQuestion(client, question, ctx, remote) == Canned(CyberMondayAnalysis)
  {
    QuestionPhraseInPrompt(question, ctx, "cyber monday");
    NamedCampaignOrder(Lower(UserPrompt(question, ctx)));
  }

  /** In mock mode a question with a named-campaign or action-list phrase
      gets one of those two rules' answers, whatever the context. */
  lemma ActionQuestion(client: DeepseekClient, question: string, ctx: QuestionContext, remote: RemoteOutcome, phrase: string)
    requires client.UseMockMode()
    requires phrase in NamedCampaignPhrases + ActionPhrases && Contains(Lower(question), phrase)
    ensures Rank(AnswerQuestion(client, question, ctx, remote).template) <= 1
  {
    var m := Lower(UserPrompt(question, ctx));
    QuestionPhraseInPrompt(question, ctx, phrase);
    PriorityNames();
    if phrase in NamedCampaignPhrases {
      PhraseFires(m, NamedCampaignPhrases, phrase);
      ClassifyRankAtMost(m, 0);
    } else {
      PhraseFires(m, ActionPhrases, phrase);
      ClassifyRankAtMost(m, 1);
    }
  }

  /** A top-performer phrase in the message means no rule after the third
      can answer. */
  lemma BestPhraseRank(m: string, phrase: string)
    requires phrase in BestPhrases && Contains(m, phrase)
    ensures Rank(Classify(m)) <= 2
  {
    PriorityNames();
    PhraseFires(m, BestPhrases, phrase);
    ClassifyRankAtMost(m, 2);
  }

  lemma BestPracticesLowered(x: string)
    ensures Contains(Lower(x + "best practices."), "best")
  {
    var s := x + "best practices.";
    assert s[|x|] == 'b' && s[|x| + 1] == 'e' && s[|x| + 2] == 's' && s[|x| + 3] == 't';
    forall k | 0 <= k < 4 ensures LowerChar(s[|x| + k]) == "best"[k] {
      if k == 0 {} else if k == 1 {} else if k == 2 {} else {}
    }
    LowerOccurs(s, "best", |x|);
  }

  /** A bot command with no campaign data: the prompt's note asks for "best
      practices", so in mock mode the answer comes from one of the first
      three rules (named campaign, action list, top performers). */
  lemma BestPracticesAnswer(client: DeepseekClient, question: string, ctx: QuestionContext, remote: RemoteOutcome)
    requires client.UseMockMode() && ctx.isAICommand
    requires !(ctx.isMockData && ctx.campaignSummary.Some?)
    requires !(ctx.recentMetrics.Some? && |ctx.recentMetrics.value| > 0)
    ensures Rank(AnswerQuestion(client, question, ctx, remote).template) <= 2
  {
    var prefix := "Question: " + question + "\n      \n" + AiCommandNotePrefix;
    BestPracticesLowered(prefix);
    assert UserPrompt(question, ctx) == prefix + "best practices.";
    BestPhraseRank(Lower(UserPrompt(question, ctx)), "best");
  }

  /** Whatever the top-performer line contains, the summary prompt contains. */
  lemma TopLineInPrompt(question: string, ctx: QuestionContext, phrase: string)
    requires ctx.isMockData && ctx.campaignSummary.Some?
    requires Contains(Lower(TopPerformerLine(ctx.campaignSummary.value)), phrase)
    ensures Contains(Lower(UserPrompt(question, ctx)), phrase)
  {
    var s := ctx.campaignSummary.value;
    var a := "User Question: " + question + SummaryFigures(s);
    var line := TopPerformerLine(s);
    LowerContainsRight(a, line, phrase);
    LowerContainsLeft(a + line, NeedsAttentionLine(s), phrase);
    LowerContainsLeft(a + line + NeedsAttentionLine(s), SummaryClosing, phrase);
  }

  lemma SummaryPromptSplit(question: string, ctx: QuestionContext)
    requires ctx.isMockData && ctx.campaignSummary.Some?
    ensures Contains(Lower(UserPrompt(question, ctx)), "top")
    ensures Contains(Lower(Rendered(ctx.campaignSummary.value.bestName)), "cyber monday") ==>
      Contains(Lower(UserPrompt(question, ctx)), "cyber monday")
  {
    var s := ctx.campaignSummary.value;
    var line := TopPerformerLine(s);
    assert line[2] == 'T' && line[3] == 'o' && line[4] == 'p';
    forall k | 0 <= k < 3 ensures LowerChar(line[2 + k]) == "top"[k] {
      if k == 0 {} else if k == 1 {} else {}
    }
    LowerOccurs(line, "top", 2);
    TopLineInPrompt(question, ctx, "top");
    if Contains(Lower(Rendered(s.bestName)), "cyber monday") {
      var topLabel := "\n\nTop Performer: ";
      var name := Rendered(s.bestName);
      LowerContainsRight(topLabel, name, "cyber monday");
      LowerContainsLeft(topLabel + name, " - ", "cyber monday");
      LowerContainsLeft(topLabel + name + " - ", Rendered(s.bestRoas), "cyber monday");
      LowerContainsLeft(topLabel + name + " - " + Rendered(s.bestRoas), "x ROAS", "cyber monday");
      TopLineInPrompt(question, ctx, "cyber monday");
    }
  }

  /** With a mock summary, the prompt's "Top Performer" topLabel means the
      answer comes from one of the first three rules; and when the best
      campaign is named Cyber Monday, every question gets the Cyber Monday
      answer. */
  lemma SummaryAnswer(client: DeepseekClient, question: string, ctx: QuestionContext, remote: RemoteOutcome)
    requires client.UseMockMode() && ctx.isMockData && ctx.campaignSummary.Some?
    ensures Rank(AnswerQuestion(client, question, ctx, remote).template) <= 2
    ensures Contains(Lower(Rendered(ctx.campaignSummary.value.bestName)), "cyber monday") ==>
      AnswerQuestion(client, question, ctx, remote) == Canned(CyberMondayAnalysis)
  {
    var m := Lower(UserPrompt(question, ctx));
    SummaryPromptSplit(question, ctx);
    BestPhraseRank(m, "top");
    NamedCampaignOrder(m);
  }
}
