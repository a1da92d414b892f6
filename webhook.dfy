/** The Telegram webhook route backed by the user table: request
    validation, authentication of the sender and the command/mode dispatch
    over the shared AI-mode map. Authentication, the metrics query and the
    outgoing messages are outcomes passed in or replies returned. */
module Webhook {
  import opened Common
  import opened Text
  import opened AiModeStore
  import Telegram
  import Deepseek

  /** What `authenticateTelegramUser` gave back: no user, or a user that
      is new or was already known. */
  datatype AuthOutcome = NoUser | Authenticated(isNewUser: bool)

  /** The message `handleMessage` sends back. */
  datatype Reply =
    | AuthApology
    | ExitedAiMode
    | AiConversation(question: string, context: Deepseek.QuestionContext)
    | Welcome(firstName: string, isNewUser: bool)
    | HelpText
    | AiModeActivated
    | Unrecognised(firstName: string)

  datatype Command = Start | Help | Ai | NoCommand

  /** The regular commands, tested by prefix in the order /start, /help,
      /ai. No text starts with two of them, so each is recognised exactly
      when the text starts with it. */
  function CommandOf(text: string): (c: Command)
    ensures c == Start <==> StartsWith(text, "/start")
    ensures c == Help <==> StartsWith(text, "/help")
    ensures c == Ai <==> StartsWith(text, "/ai")
    ensures c == NoCommand <==>
      !StartsWith(text, "/start") && !StartsWith(text, "/help") && !StartsWith(text, "/ai")
  {
    if StartsWith(text, "/start") then
      PrefixClash(text, "/start", "/help", 1);
      PrefixClash(text, "/start", "/ai", 1);
      Start
    else if StartsWith(text, "/help") then
      PrefixClash(text, "/help", "/ai", 1);
      Help
    else if StartsWith(text, "/ai") then Ai
    else NoCommand
  }

  /** `message.from.first_name || "there"` */
  function FirstName(given: Option<string>): (r: string)
    ensures r != ""
    ensures TruthyText(given) ==> r == given.value
  {
    if TruthyText(given) then given.value else "there"
  }

  /** The context `handleAIConversation` passes: the user's recent metrics
      rows (an empty list when the query gave none) and the AI-command
      flag; no mock summary. */
  function ConversationContext(recentMetrics: seq<string>): (ctx: Deepseek.QuestionContext)
    ensures ctx.isAICommand && !ctx.isMockData && ctx.campaignSummary.None?
    ensures ctx.recentMetrics == Some(recentMetrics)
  {
    Deepseek.QuestionContext(true, false, Missing, None, Some(recentMetrics))
  }

  /** The reply to one message, given whether its sender was in AI mode. */
  function Respond(inAiMode: bool, firstName: string, text: string, auth: AuthOutcome, recentMetrics: seq<string>): (r: Reply)
    ensures r == AuthApology <==> auth.NoUser?
    ensures auth.Authenticated? && inAiMode ==>
      (r == ExitedAiMode <==> IsExitCommand(text)) &&
      (r == AiConversation(text, ConversationContext(recentMetrics)) <==> !IsExitCommand(text))
    ensures r.Welcome? <==> auth.Authenticated? && !inAiMode && StartsWith(text, "/start")
    ensures r.Welcome? ==> r.isNewUser == auth.isNewUser
    ensures r == HelpText <==> auth.Authenticated? && !inAiMode && StartsWith(text, "/help")
    ensures r == AiModeActivated <==> auth.Authenticated? && !inAiMode && StartsWith(text, "/ai")
    ensures (r == ExitedAiMode || r.AiConversation?) <==> auth.Authenticated? && inAiMode
    ensures r.Unrecognised? <==> auth.Authenticated? && !inAiMode && CommandOf(text) == NoCommand
  {
    if auth.NoUser? then AuthApology
    else if inAiMode then
      if IsExitCommand(text) then ExitedAiMode else AiConversation(text, ConversationContext(recentMetrics))
    else
      match CommandOf(text)
      case Start => Welcome(firstName, auth.isNewUser)
      case Help => HelpText
      case Ai => AiModeActivated
      case NoCommand => Unrecognised(firstName)
  }

  /** The AI-mode map after one message. */
  function NextState(state: map<string, bool>, userId: string, text: string, auth: AuthOutcome): (r: map<string, bool>)
    ensures r == state || r == state - {userId} || r == state[userId := true]
    ensures auth.NoUser? ==> r == state
    ensures forall u | u != userId :: ModeOf(r, u) == ModeOf(state, u)
    ensures ModeOf(r, userId) <==>
      if auth.NoUser? then ModeOf(state, userId)
      else if ModeOf(state, userId) then !IsExitCommand(text)
      else StartsWith(text, "/ai")
  {
    if auth.NoUser? then state
    else if ModeOf(state, userId) then
      if IsExitCommand(text) then state - {userId} else state
    else if CommandOf(text) == Ai then state[userId := true]
    else state
  }

  /** The map keeps holding only `true`. */
  lemma NextStateOnlyTrue(state: map<string, bool>, userId: string, text: string, auth: AuthOutcome)
    requires OnlyTrue(state)
    ensures OnlyTrue(NextState(state, userId, text, auth))
  {
  }

  /** `handleMessage`, after the sender's authentication. */
  method HandleMessage(store: ModeStore, userId: string, firstName: string, text: string,
                       auth: AuthOutcome, recentMetrics: seq<string>)
    returns (reply: Reply)
    modifies store
    ensures reply == Respond(old(store.IsUserInAiMode(userId)), firstName, text, auth, recentMetrics)
    ensures store.state == NextState(old(store.state), userId, text, auth)
  {
    if auth.NoUser? {
      reply := AuthApology;
      return;
    }
    if store.IsUserInAiMode(userId) {
      if Lower(text) == "/exit" || Lower(text) == "/stop" || Lower(text) == "/end" {
        store.ClearUserAiMode(userId);
        reply := ExitedAiMode;
        return;
      }
      reply := AiConversation(text, ConversationContext(recentMetrics));
      return;
    }
    if StartsWith(text, "/start") {
      reply := Welcome(firstName, auth.isNewUser);
    } else if StartsWith(text, "/help") {
      reply := HelpText;
    } else if StartsWith(text, "/ai") {
      store.SetUserAiMode(userId, true);
      reply := AiModeActivated;
    } else {
      reply := Unrecognised(firstName);
    }
  }

  /** An update's `message`, reduced to what the route reads. */
  datatype Message = Message(userId: string, firstName: Option<string>, text: Option<string>)

  /** The request body: not JSON, the JSON literal `null`, or an update
      object (any other JSON value reads as an update without a message). */
  datatype Body = Unparsable | NullJson | Update(message: Option<Message>)

  datatype Response = Acknowledged | Failure(status: int, error: string)

  /** The status `POST` answers with: JSON first, then the secret (a
      missing header is checked as ""), then the body's shape. */
  function PostResponse(secretHeader: Option<string>, body: Body, expected: Option<string>): (r: Response)
    ensures r == Failure(400, "Invalid JSON") <==> body.Unparsable?
    ensures r == Failure(401, "Unauthorized") <==>
      !body.Unparsable? && !Telegram.ValidateWebhookData(secretHeader.GetOr(""), expected)
    ensures r == Failure(500, "Internal error") <==>
      body.NullJson? && Telegram.ValidateWebhookData(secretHeader.GetOr(""), expected)
    ensures r == Acknowledged <==>
      body.Update? && Telegram.ValidateWebhookData(secretHeader.GetOr(""), expected)
  {
    if body.Unparsable? then Failure(400, "Invalid JSON")
    else if !Telegram.ValidateWebhookData(secretHeader.GetOr(""), expected) then Failure(401, "Unauthorized")
    else if body.NullJson? then Failure(500, "Internal error")
    else Acknowledged
  }

  /** The message `POST` hands to `handleMessage`: one with truthy text. */
  function Handled(body: Body): (m: Option<Message>)
    ensures m.Some? <==> body.Update? && body.message.Some? && TruthyText(body.message.value.text)
    ensures m.Some? ==> m.value == body.message.value
  {
    if body.Update? && body.message.Some? && TruthyText(body.message.value.text) then body.message else None
  }

  /** `POST`: the response, and the reply to the message when one was
      handled. Nothing but a handled message touches the map. */
  method Post(store: ModeStore, secretHeader: Option<string>, body: Body, expected: Option<string>,
              auth: AuthOutcome, recentMetrics: seq<string>)
    returns (response: Response, reply: Option<Reply>)
    modifies store
    ensures response == PostResponse(secretHeader, body, expected)
    ensures reply.Some? <==> response == Acknowledged && Handled(body).Some?
    ensures reply.None? ==> store.state == old(store.state)
    ensures reply.Some? ==>
      var m := Handled(body).value;
      reply.value == Respond(old(store.IsUserInAiMode(m.userId)), FirstName(m.firstName), m.text.value, auth, recentMetrics) &&
      store.state == NextState(old(store.state), m.userId, m.text.value, auth)
  {
    reply := None;
    if body.Unparsable? {
      response := Failure(400, "Invalid JSON");
      return;
    }
    if !Telegram.ValidateWebhookData(secretHeader.GetOr(""), expected) {
      response := Failure(401, "Unauthorized");
      return;
    }
    if body.NullJson? {
      response := Failure(500, "Internal error");
      return;
    }
    if body.message.Some? && TruthyText(body.message.value.text) {
      var m := body.message.value;
      var r := HandleMessage(store, m.userId, FirstName(m.firstName), m.text.value, auth, recentMetrics);
      reply := Some(r);
    }
    response := Acknowledged;
  }

  /** With no recent metrics and no API key, an AI-mode question is answered
      by one of the first two rules or the top-performer template: the
      prompt's closing "best practices" always fires the third. */
  lemma NoMetricsAnswer(client: Deepseek.DeepseekClient, inAiMode: bool, firstName: string, text: string,
                        auth: AuthOutcome, remote: Deepseek.RemoteOutcome)
    requires client.UseMockMode()
    requires Respond(inAiMode, firstName, text, auth, []).AiConversation?
    ensures var r := Respond(inAiMode, firstName, text, auth, []);
      Deepseek.Rank(Deepseek.AnswerQuestion(client, r.question, r.context, remote).template) <= 2
  {
    var r := Respond(inAiMode, firstName, text, auth, []);
    Deepseek.BestPracticesAnswer(client, r.question, r.context, remote);
  }
}
