/** The Telegram bot client: its configuration accessors, the result rule of
    `sendMessage`, the secret check for incoming webhooks and the text of the
    messages it composes. The HTTP calls themselves are outcomes passed in. */
module Telegram {
  import opened Common
  import opened Text

  /** The `token` getter: an unset or empty TELEGRAM_BOT_TOKEN throws. */
  function BotToken(env: Option<string>): (r: Result<string, string>)
    ensures r.Ok? <==> TruthyText(env)
    ensures r.Ok? ==> r.value == env.value
    ensures r.Err? ==> r.error == "TELEGRAM_BOT_TOKEN not configured"
  {
    if TruthyText(env) then Ok(env.value) else Err("TELEGRAM_BOT_TOKEN not configured")
  }

  /** What came back from the `sendMessage` endpoint: a JSON body with its
      `ok` flag, or an exception (network failure, unparsable body). */
  datatype SendOutcome = Responded(ok: bool) | Failed

  /** `sendMessage`: the token is read inside the `try`, so a missing token
      is reported like any other failure. */
  function SendMessageResult(token: Option<string>, outcome: SendOutcome): (r: bool)
    ensures r <==> TruthyText(token) && outcome == Responded(true)
    ensures !TruthyText(token) || outcome.Failed? ==> !r
  {
    match BotToken(token)
    case Err(_) => false
    case Ok(_) => outcome.Responded? && outcome.ok
  }

  /** `validateWebhookData`: strict equality with the configured secret, so
      an unset secret rejects every token. */
  function ValidateWebhookData(secretToken: string, expected: Option<string>): (r: bool)
    ensures r <==> expected == Some(secretToken)
    ensures expected.None? ==> !r
  {
    expected.Some? && secretToken == expected.value
  }

  datatype ParseMode = Html | Markdown

  datatype OutgoingMessage = OutgoingMessage(chatId: int, text: string, parseMode: Option<ParseMode>)

  /** The campaign fields an alert interpolates. */
  datatype AlertCampaign = AlertCampaign(name: Field, overBudget: Field, roas: Field)

  const AlertTypes: seq<string> := ["budget_exceeded", "low_performance", "high_performance", "optimization_ready"]

  const Fallback := "Campaign update available"

  /** The text looked up in `alertMessages`, or None for an unknown type. */
  function AlertTemplate(campaign: AlertCampaign, alertType: string): (r: Option<string>)
    ensures r.Some? <==> alertType in AlertTypes
    ensures r.Some? ==> Contains(r.value, Rendered(campaign.name)) && |r.value| > |Fallback|
  {
    var name := Rendered(campaign.name);
    if alertType == "budget_exceeded" then
      var pre := "\U{1F6A8} *Budget Alert*\n\nCampaign: ";
      var post := "\nBudget exceeded by " + Rendered(campaign.overBudget) + "%\n\nAction needed!";
      NameInside(pre, name, post);
      Some(pre + name + post)
    else if alertType == "low_performance" then
      var pre := "\U{1F4C9} *Performance Alert*\n\nCampaign: ";
      var post := "\nROAS dropped to " + Rendered(campaign.roas) + "\n\nReview recommended!";
      NameInside(pre, name, post);
      Some(pre + name + post)
    else if alertType == "high_performance" then
      var pre := "\U{1F680} *Opportunity Alert*\n\nCampaign: ";
      var post := "\nExcellent ROAS: " + Rendered(campaign.roas) + "\n\nConsider increasing budget!";
      NameInside(pre, name, post);
      Some(pre + name + post)
    else if alertType == "optimization_ready" then
      var pre := "\U{1F4A1} *Optimization Available*\n\nNew insights available for: ";
      var post := "\n\nCheck your dashboard for recommendations!";
      NameInside(pre, name, post);
      Some(pre + name + post)
    else
      None
  }

  lemma NameInside(pre: string, name: string, post: string)
    ensures Contains(pre + name + post, name)
  {
    ContainsItself(name);
    ContainsInRight(pre, name, name);
    ContainsInLeft(pre + name, post, name);
  }

  /** `sendCampaignAlert`: the known templates are never empty, so the
      fallback text is used exactly for the unknown alert types. */
  function CampaignAlert(chatId: int, campaign: AlertCampaign, alertType: string): (m: OutgoingMessage)
    ensures m.chatId == chatId && m.parseMode == Some(Markdown)
    ensures m.text == Fallback <==> alertType !in AlertTypes
    ensures alertType in AlertTypes ==> Contains(m.text, Rendered(campaign.name))
  {
    var text := match AlertTemplate(campaign, alertType)
      case Some(t) => if t != "" then t else Fallback
      case None => Fallback;
    OutgoingMessage(chatId, text, Some(Markdown))
  }

  /** The summary fields `sendDailySummary` interpolates. */
  datatype DailySummary = DailySummary(
    totalSpend: Field, totalRevenue: Field, averageRoas: Field, activeCampaigns: Field, topInsight: Field)

  /** The conditional line of the daily summary. */
  function TopInsightLine(topInsight: Field): (r: string)
    ensures r == "" <==> !(topInsight.Present? && topInsight.truthy)
    ensures r != "" ==> StartsWith(r, "\U{1F4A1} Top Insight: ") && Contains(r, topInsight.text)
  {
    if topInsight.Present? && topInsight.truthy then
      var head := "\U{1F4A1} Top Insight: ";
      ContainsItself(topInsight.text);
      ContainsInRight(head, topInsight.text, topInsight.text);
      assert (head + topInsight.text)[..|head|] == head;
      head + topInsight.text
    else
      ""
  }

  function DailySummaryFigures(s: DailySummary): string {
    "\U{1F4CA} *Daily Summary*\n\n\U{1F4B0} Total Spend: $" + Rendered(s.totalSpend)
      + "\n\U{1F4C8} Total Revenue: $" + Rendered(s.totalRevenue)
      + "\n\U{1F3AF} Average ROAS: " + Rendered(s.averageRoas)
      + "\n\U{1F680} Active Campaigns: " + Rendered(s.activeCampaigns) + "\n\n"
  }

  const DailySummaryClosing := "\n\nCheck your dashboard for detailed insights!"

  /** `sendDailySummary`: figures, then the insight line (empty when the
      insight is falsy), then the closing line; always Markdown. */
  function DailySummaryMessage(chatId: int, s: DailySummary): (m: OutgoingMessage)
    ensures m.chatId == chatId && m.parseMode == Some(Markdown)
    ensures s.topInsight.Present? && s.topInsight.truthy ==>
      Contains(m.text, "\U{1F4A1} Top Insight: " + s.topInsight.text)
    ensures !(s.topInsight.Present? && s.topInsight.truthy) ==>
      m.text == DailySummaryFigures(s) + DailySummaryClosing
  {
    var line := TopInsightLine(s.topInsight);
    var text := DailySummaryFigures(s) + line + DailySummaryClosing;
    if line != "" then
      ContainsItself(line);
      ContainsInRight(DailySummaryFigures(s), line, line);
      ContainsInLeft(DailySummaryFigures(s) + line, DailySummaryClosing, line);
      OutgoingMessage(chatId, text, Some(Markdown))
    else
      OutgoingMessage(chatId, text, Some(Markdown))
  }

  datatype BotCommand = BotCommand(command: string, description: string)

  /** The command list `setBotCommands` registers. */
  function BotCommands(): (r: seq<BotCommand>)
    ensures |r| == 3
    ensures r[0].command == "start" && r[1].command == "ai" && r[2].command == "help"
  {
    [ BotCommand("start", "Show welcome message & dashboard button"),
      BotCommand("ai", "Ask AI for ad-optimization tips"),
      BotCommand("help", "Display usage instructions") ]
  }

  /** `setBotCommands`: the same result rule as `sendMessage`. */
  function SetBotCommandsResult(token: Option<string>, outcome: SendOutcome): (r: bool)
    ensures r <==> TruthyText(token) && outcome == Responded(true)
  {
    SendMessageResult(token, outcome)
  }
}
