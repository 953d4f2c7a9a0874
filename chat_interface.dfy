/**
 * The chat panel: the message list and its send state machine (guard,
 * user message, exactly one bot reply or error, loading cleared), the
 * agent-name lookup and the routing badge condition.
 */
module ChatInterface {
  import opened Wrappers
  import opened Text

  datatype Sender = UserSender | BotSender

  datatype ChatMessage = ChatMessage(
    id: string,
    content: string,
    sender: Sender,
    agentUsed: Option<string>,
    routingReason: Option<string>)

  const WelcomeText := "Hello! I'm your AI research assistant. I can help you with academic research, FOMC analysis, political news, or general questions. What would you like to know?"
  const ErrorText := "I'm sorry, I encountered an error processing your request. Please try again."

  /** The message the panel starts with. */
  const Welcome := ChatMessage("1", WelcomeText, BotSender, Some("routing_agent"), Some("Welcome message"))

  /** The JSON body of a `/chat` response. */
  datatype ChatReply = ChatReply(
    success: bool,
    response: string,
    agentUsed: Option<string>,
    routingReason: Option<string>,
    sessionId: Option<string>)

  /** How the request settled: failed (transport error, non-ok status, unparseable body) or a parsed reply. */
  datatype ChatOutcome = RequestFailed | Replied(reply: ChatReply)

  /** The `data.success` branch is taken. */
  predicate IsSuccess(outcome: ChatOutcome)
  {
    outcome.Replied? && outcome.reply.success
  }

  /** The one bot message appended once the request settles: the reply, or the fixed error text. */
  function BotMessage(outcome: ChatOutcome, id: string): (m: ChatMessage)
    ensures m.sender == BotSender && m.id == id
    ensures IsSuccess(outcome) ==>
      m.content == outcome.reply.response && m.agentUsed == outcome.reply.agentUsed
      && m.routingReason == outcome.reply.routingReason
    ensures !IsSuccess(outcome) ==> m.content == ErrorText && m.agentUsed == Some("error") && m.routingReason == None
  {
    if IsSuccess(outcome) then
      ChatMessage(id, outcome.reply.response, BotSender, outcome.reply.agentUsed, outcome.reply.routingReason)
    else
      ChatMessage(id, ErrorText, BotSender, Some("error"), None)
  }

  /** `sessionId` after the request: replaced only by a non-empty id from a successful reply. */
  function NextSessionId(current: Option<string>, outcome: ChatOutcome): (next: Option<string>)
    ensures next != current ==> IsSuccess(outcome) && Truthy(outcome.reply.sessionId) && next == outcome.reply.sessionId
    ensures IsSuccess(outcome) && Truthy(outcome.reply.sessionId) ==> next == outcome.reply.sessionId
  {
    if IsSuccess(outcome) && Truthy(outcome.reply.sessionId) then outcome.reply.sessionId else current
  }

  /** The guard of `sendMessage`. */
  predicate CanSend(input: string, isLoading: bool)
    ensures CanSend(input, isLoading) <==> !IsBlank(input) && !isLoading
  {
    TrimEmptyIffBlank(input);
    Trim(input) != "" && !isLoading
  }

  /** The number of messages from `sender`. */
  function Count(messages: seq<ChatMessage>, sender: Sender): nat
  {
    if messages == [] then 0
    else Count(messages[..|messages| - 1], sender) + (if messages[|messages| - 1].sender == sender then 1 else 0)
  }

  lemma CountAppend(messages: seq<ChatMessage>, m: ChatMessage, sender: Sender)
    ensures Count(messages + [m], sender) == Count(messages, sender) + (if m.sender == sender then 1 else 0)
  {
    assert (messages + [m])[..|messages|] == messages;
  }

  // ------------------------------------------------------------ display

  const AgentNames: map<string, string> := map[
    "academic_coordinator" := "Academic Research",
    "fomc_research_agent" := "FOMC Research",
    "political_news_coordinator" := "Political News",
    "routing_agent" := "AI Assistant",
    "error" := "Error Handler"
  ]

  /** `getAgentDisplayName`: the table's label, else the key with its first '_' turned into a space. */
  function AgentDisplayName(agentUsed: Option<string>): (name: string)
    ensures name != ""
    ensures !Truthy(agentUsed) ==> name == "AI Assistant"
    ensures Truthy(agentUsed) && agentUsed.value in AgentNames ==> name == AgentNames[agentUsed.value]
    ensures Truthy(agentUsed) && agentUsed.value !in AgentNames ==>
      |name| == |agentUsed.value| && name == ReplaceFirst(agentUsed.value, '_', ' ')
  {
    if !Truthy(agentUsed) then "AI Assistant"
    else if agentUsed.value in AgentNames then AgentNames[agentUsed.value]
    else ReplaceFirst(agentUsed.value, '_', ' ')
  }

  /** An unknown name has only its first underscore replaced. */
  lemma UnknownAgentNameReplacesFirstUnderscore(agent: string)
    requires agent != "" && agent !in AgentNames && '_' in agent
    ensures var k := IndexOf(agent, '_');
      AgentDisplayName(Some(agent)) == agent[..k] + " " + agent[k + 1..]
      && '_' !in AgentDisplayName(Some(agent))[..k]
  {
  }

  /** "a_b_c" is shown as "a b_c": later underscores stay. */
  lemma AgentNameExample()
    ensures AgentDisplayName(Some("a_b_c")) == "a b_c"
    ensures AgentDisplayName(Some("fomc_research_agent")) == "FOMC Research"
    ensures AgentDisplayName(None) == "AI Assistant" && AgentDisplayName(Some("")) == "AI Assistant"
  {
    var s := "a_b_c";
    assert s[0] != '_' && s[1] == '_';
    assert ReplaceFirst(s[1..], '_', ' ') == " " + s[2..];
  }

  /** The routing badge: a reason and an agent are both present, and the agent is not the router. */
  predicate ShowsRoutingBadge(m: ChatMessage)
    ensures ShowsRoutingBadge(m) ==> m.routingReason.Some? && m.agentUsed.Some? && m.agentUsed != Welcome.agentUsed
  {
    Truthy(m.routingReason) && Truthy(m.agentUsed) && m.agentUsed.value != "routing_agent"
  }

  /** The text of the routing badge: the message's routing reason, when the badge is shown at all. */
  function BadgeText(m: ChatMessage): (text: Option<string>)
    ensures text.Some? <==> ShowsRoutingBadge(m)
    ensures text.Some? ==> text == m.routingReason && text.value != ""
  {
    if ShowsRoutingBadge(m) then m.routingReason else None
  }

  /** Neither the welcome message nor an error message carries a badge. */
  lemma NoBadgeOnWelcomeOrError(outcome: ChatOutcome, id: string)
    ensures !ShowsRoutingBadge(Welcome)
    ensures !IsSuccess(outcome) ==> !ShowsRoutingBadge(BotMessage(outcome, id))
  {
  }

  // ------------------------------------------------------------ state

  /** The panel's state: `messages`, `inputMessage`, `isLoading`, `sessionId`. */
  class Chat {
    var messages: seq<ChatMessage>
    var inputMessage: string
    var isLoading: bool
    var sessionId: Option<string>

    /**
     * The welcome message stays first; while a request is pending the last
     * message is the user's and bot messages equal user messages in number,
     * otherwise there is one bot message more (the welcome).
     */
    ghost predicate Valid()
      reads this
    {
      && |messages| >= 1 && messages[0] == Welcome
      && Count(messages, BotSender) == Count(messages, UserSender) + (if isLoading then 0 else 1)
      && (isLoading ==> messages[|messages| - 1].sender == UserSender)
    }

    constructor ()
      ensures Valid()
      ensures messages == [Welcome] && inputMessage == "" && !isLoading && sessionId == None
    {
      messages := [Welcome];
      inputMessage := "";
      isLoading := false;
      sessionId := None;
      assert [Welcome][..0] == [];
    }

    /** The input's `onChange`. */
    method SetInput(value: string)
      requires Valid()
      modifies this
      ensures Valid()
      ensures inputMessage == value
      ensures messages == old(messages) && isLoading == old(isLoading) && sessionId == old(sessionId)
    {
      inputMessage := value;
    }

    /** `sendMessage` up to the request: the guard, then the user message appended and loading set. */
    method BeginSend(userId: string) returns (sent: bool)
      requires Valid()
      modifies this
      ensures Valid()
      ensures sent == CanSend(old(inputMessage), old(isLoading))
      ensures !sent ==> messages == old(messages) && inputMessage == old(inputMessage)
                        && isLoading == old(isLoading) && sessionId == old(sessionId)
      ensures sent ==> messages == old(messages) + [ChatMessage(userId, old(inputMessage), UserSender, None, None)]
                       && inputMessage == "" && isLoading && sessionId == old(sessionId)
    {
      if !CanSend(inputMessage, isLoading) {
        return false;
      }
      var userMessage := ChatMessage(userId, inputMessage, UserSender, None, None);
      CountAppend(messages, userMessage, BotSender);
      CountAppend(messages, userMessage, UserSender);
      messages := messages + [userMessage];
      inputMessage := "";
      isLoading := true;
      sent := true;
    }

    /** `sendMessage` after the request settles: one bot message, the session id, loading cleared. */
    method Settle(outcome: ChatOutcome, botId: string)
      requires Valid() && isLoading
      modifies this
      ensures Valid()
      ensures messages == old(messages) + [BotMessage(outcome, botId)]
      ensures sessionId == NextSessionId(old(sessionId), outcome)
      ensures !isLoading && inputMessage == old(inputMessage)
    {
      var botMessage := BotMessage(outcome, botId);
      CountAppend(messages, botMessage, BotSender);
      CountAppend(messages, botMessage, UserSender);
      messages := messages + [botMessage];
      sessionId := NextSessionId(sessionId, outcome);
      isLoading := false;
    }

    /** The whole `sendMessage`, with the request's outcome given. */
    method SendMessage(outcome: ChatOutcome, userId: string, botId: string) returns (sent: bool)
      requires Valid()
      modifies this
      ensures Valid()
      ensures sent == CanSend(old(inputMessage), old(isLoading))
      ensures !sent ==> messages == old(messages) && inputMessage == old(inputMessage)
                        && isLoading == old(isLoading) && sessionId == old(sessionId)
      ensures sent ==> messages == old(messages) + [ChatMessage(userId, old(inputMessage), UserSender, None, None),
                                                    BotMessage(outcome, botId)]
                       && inputMessage == "" && !isLoading && sessionId == NextSessionId(old(sessionId), outcome)
    {
      sent := BeginSend(userId);
      if sent {
        Settle(outcome, botId);
      }
    }
  }
}
