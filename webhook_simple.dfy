/** The simpler Telegram webhook route: a secret check before parsing, no
    authentication, mock campaign data for AI answers and an extra
    /insights command, over its own AI-mode map. */
module WebhookSimple {
  import opened Common
  import opened Text
  import opened AiModeStore
  import Deepseek

  /** The message `handleSimpleMessage` sends back. */
  datatype Reply =
    | ExitedAiMode
    | AiConversation(question: string, context: Deepseek.QuestionContext)
    | Hello(firstName: string)
    | HelpText
    | AiModeActivated(firstName: string)
    | QuickInsights(firstName: string)
    | Echo(firstName: string, text: string)

  datatype Command = Start | Help | Ai | Insights | NoCommand

  /** The regular commands, tested by prefix in the order /start, /help,
      /ai, /insights; no text starts with two of them. */
  function CommandOf(text: string): (c: Command)
    ensures c == Start <==> StartsWith(text, "/start")
    ensures c == Help <==> StartsWith(text, "/help")
    ensures c == Ai <==> StartsWith(text, "/ai")
    ensures c == Insights <==> StartsWith(text, "/insights")
    ensures c == NoCommand <==>
      !StartsWith(text, "/start") && !StartsWith(text, "/help") &&
      !StartsWith(text, "/ai") && !StartsWith(text, "/insights")
  {
    if StartsWith(text, "/start") then
      PrefixClash(text, "/start", "/help", 1);
      PrefixClash(text, "/start", "/ai", 1);
      PrefixClash(text, "/start", "/insights", 1);
      Start
    else if StartsWith(text, "/help") then
      PrefixClash(text, "/help", "/ai", 1);
      PrefixClash(text, "/help", "/insights", 1);
      Help
    else if StartsWith(text, "/ai") then
      PrefixClash(text, "/ai", "/insights", 1);
      Ai
    else if StartsWith(text, "/insights") then Insights
    else NoCommand
  }

  /** The context `handleAIConversationWithMockData` passes: the mock
      summary, the user's first name, and both flags set. */
  function MockContext(firstName: string, summary: Deepseek.CampaignSummary): (ctx: Deepseek.QuestionContext)
    ensures ctx.isAICommand && ctx.isMockData
    ensures ctx.campaignSummary == Some(summary)
  {
    Deepseek.QuestionContext(true, true, Present(firstName, firstName != ""), Some(summary), None)
  }

  /** The reply to one message, given whether its sender was in AI mode. */
  function Respond(inAiMode: bool, firstName: string, text: string, summary: Deepseek.CampaignSummary): (r: Reply)
    ensures inAiMode ==>
      (r == ExitedAiMode <==> IsExitCommand(text)) &&
      (r == AiConversation(text, MockContext(firstName, summary)) <==> !IsExitCommand(text))
    ensures r.AiConversation? ==> r.context.isMockData && r.context.isAICommand
    ensures r.Hello? <==> !inAiMode && StartsWith(text, "/start")
    ensures r.HelpText? <==> !inAiMode && StartsWith(text, "/help")
    ensures r.AiModeActivated? <==> !inAiMode && StartsWith(text, "/ai")
    ensures (r.ExitedAiMode? || r.AiConversation?) <==> inAiMode
    ensures r.QuickInsights? <==> !inAiMode && StartsWith(text, "/insights")
    ensures r.Echo? <==> !inAiMode && CommandOf(text) == NoCommand
    ensures r.Echo? ==> r.text == text
  {
    if inAiMode then
      if IsExitCommand(text) then ExitedAiMode else AiConversation(text, MockContext(firstName, summary))
    else
      match CommandOf(text)
      case Start => Hello(firstName)
      case Help => HelpText
      case Ai => AiModeActivated(firstName)
      case Insights => QuickInsights(firstName)
      case NoCommand => Echo(firstName, text)
  }

  /** The AI-mode map after one message: only /ai outside AI mode sets it,
      only an exit command inside AI mode clears it. */
  function NextState(state: map<string, bool>, userId: string, text: string): (r: map<string, bool>)
    ensures r == state || r == state - {userId} || r == state[userId := true]
    ensures forall u | u != userId :: ModeOf(r, u) == ModeOf(state, u)
    ensures ModeOf(r, userId) <==>
      if ModeOf(state, userId) then !IsExitCommand(text) else StartsWith(text, "/ai")
  {
    if ModeOf(state, userId) then
      if IsExitCommand(text) then state - {userId} else state
    else if CommandOf(text) == Ai then state[userId := true]
    else state
  }

  /** `handleSimpleMessage`. */
  method HandleSimpleMessage(store: ModeStore, userId: string, firstName: string, text: string,
                             summary: Deepseek.CampaignSummary)
    returns (reply: Reply)
    modifies store
    ensures reply == Respond(old(store.IsUserInAiMode(userId)), firstName, text, summary)
    ensures store.state == NextState(old(store.state), userId, text)
  {
    if store.IsUserInAiMode(userId) {
      if Lower(text) == "/exit" || Lower(text) == "/stop" || Lower(text) == "/end" {
        store.ClearUserAiMode(userId);
        reply := ExitedAiMode;
        return;
      }
      reply := AiConversation(text, MockContext(firstName, summary));
      return;
    }
    if StartsWith(text, "/start") {
      reply := Hello(firstName);
    } else if StartsWith(text, "/help") {
      reply := HelpText;
    } else if StartsWith(text, "/ai") {
      store.SetUserAiMode(userId, true);
      reply := AiModeActivated(firstName);
    } else if StartsWith(text, "/insights") {
      reply := QuickInsights(firstName);
    } else {
      reply := Echo(firstName, text);
    }
  }

  /** An update's `message`, reduced to what the route reads. */
  datatype Message = Message(userId: string, firstName: Option<string>, text: Option<string>)

  /** The request body as `request.json()` sees it. */
  datatype Body = Unparsable | NullJson | Update(message: Option<Message>)

  datatype Response = Acknowledged | Failure(status: int, error: string)

  /** The secret test: strict equality of the header (null when absent)
      with the configured secret (undefined when unset), so an absent
      header never passes. */
  predicate SecretMatches(secretHeader: Option<string>, expected: Option<string>) {
    secretHeader.Some? && secretHeader == expected
  }

  /** The status `POST` answers with: the secret first, then parsing. An
      unparsable body and a `null` body (whose `message` access throws)
      are reported as 500; any other parsed value is acknowledged. */
  function PostResponse(secretHeader: Option<string>, body: Body, expected: Option<string>): (r: Response)
    ensures r == Failure(401, "Unauthorized") <==> !SecretMatches(secretHeader, expected)
    ensures r == Failure(500, "Internal error") <==> SecretMatches(secretHeader, expected) && !body.Update?
    ensures r == Acknowledged <==> SecretMatches(secretHeader, expected) && body.Update?
  {
    if !SecretMatches(secretHeader, expected) then Failure(401, "Unauthorized")
    else if !body.Update? then Failure(500, "Internal error")
    else Acknowledged
  }

  /** The message `POST` hands to `handleSimpleMessage`: one with truthy text. */
  function Handled(body: Body): (m: Option<Message>)
    ensures m.Some? <==> body.Update? && body.message.Some? && TruthyText(body.message.value.text)
    ensures m.Some? ==> m.value == body.message.value
  {
    if body.Update? && body.message.Some? && TruthyText(body.message.value.text) then body.message else None
  }

  /** `POST`: a handled message always ends in `{ ok: true }`, since
      `handleSimpleMessage` swallows its own errors. */
  method Post(store: ModeStore, secretHeader: Option<string>, body: Body, expected: Option<string>,
              summary: Deepseek.CampaignSummary)
    returns (response: Response, reply: Option<Reply>)
    modifies store
    ensures response == PostResponse(secretHeader, body, expected)
    ensures reply.Some? <==> SecretMatches(secretHeader, expected) && Handled(body).Some?
    ensures reply.Some? ==> response == Acknowledged
    ensures reply.None? ==> store.state == old(store.state)
    ensures reply.Some? ==>
      var m := Handled(body).value;
      var firstName := if TruthyText(m.firstName) then m.firstName.value else "there";
      reply.value == Respond(old(store.IsUserInAiMode(m.userId)), firstName, m.text.value, summary) &&
      store.state == NextState(old(store.state), m.userId, m.text.value)
  {
    reply := None;
    if secretHeader.None? || secretHeader != expected {
      response := Failure(401, "Unauthorized");
      return;
    }
    if !body.Update? {
      response := Failure(500, "Internal error");
      return;
    }
    if body.message.Some? && TruthyText(body.message.value.text) {
      var m := body.message.value;
      var firstName := if TruthyText(m.firstName) then m.firstName.value else "there";
      var r := HandleSimpleMessage(store, m.userId, firstName, m.text.value, summary);
      reply := Some(r);
    }
    response := Acknowledged;
  }

  /** With no API key, an AI-mode question always gets one of the first
      three templates: the mock summary's "Top Performer" line fires the
      top-performer rule unless an earlier rule does. */
  lemma MockAnswer(client: Deepseek.DeepseekClient, firstName: string, text: string,
                   summary: Deepseek.CampaignSummary, remote: Deepseek.RemoteOutcome)
    requires client.UseMockMode() && !IsExitCommand(text)
    ensures var r := Respond(true, firstName, text, summary);
      Deepseek.Rank(Deepseek.AnswerQuestion(client, r.question, r.context, remote).template) <= 2
  {
    var r := Respond(true, firstName, text, summary);
    Deepseek.SummaryAnswer(client, r.question, r.context, remote);
  }
}
