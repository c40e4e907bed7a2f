/**
 The `/api/chat` handler of the backend: validate the message, build one
 upstream request per persona from its stored history, and fold the three
 settled outcomes into one `responses` object.

 The three upstream calls themselves are not modelled: their settled
 outcomes are a parameter of `HandleChat`, and the requests the handler
 would hand to the providers are returned beside the HTTP response so that
 "no upstream call was made" can be stated as `issued == []`.
 */
module Server {
  import opened Personas
  import opened JsText

  // ---------------------------------------------------------------------------
  // Upstream request construction

  /** A stored conversation entry as the server reads it: its `type` and
      `text` fields (the page also sends a timestamp and an error flag, which
      the server never reads). */
  datatype Entry = Entry(kind: string, text: string)

  datatype Role = SystemRole | UserRole | AssistantRole

  /** Message content: text that was said, or a persona's fixed system prompt
      (kept opaque: only which persona it belongs to matters here). */
  datatype Content = Said(text: string) | Prompt(persona: PersonaId)

  datatype ChatMessage = ChatMessage(role: Role, content: Content)

  /** A stored entry as a role-labelled message: only `type === 'user'`
      speaks as the user; every other type speaks as the assistant. */
  function ToChat(e: Entry): (m: ChatMessage)
    ensures m.role == UserRole <==> e.kind == "user"
    ensures m.role == AssistantRole <==> e.kind != "user"
    ensures m.content == Said(e.text)
  {
    ChatMessage(if e.kind == "user" then UserRole else AssistantRole, Said(e.text))
  }

  /** `history.map(...)`: one message per stored entry, in the same order. */
  function MapHistory(h: seq<Entry>): (r: seq<ChatMessage>)
    ensures |r| == |h|
    ensures forall i :: 0 <= i < |h| ==> r[i] == ToChat(h[i])
    ensures forall i :: 0 <= i < |r| ==> r[i].role != SystemRole
  {
    if h == [] then [] else [ToChat(h[0])] + MapHistory(h[1..])
  }

  /** Mapping a history piecewise is mapping it whole. */
  lemma MapHistoryAppend(a: seq<Entry>, b: seq<Entry>)
    ensures MapHistory(a + b) == MapHistory(a) + MapHistory(b)
  {
    var l, r := MapHistory(a + b), MapHistory(a) + MapHistory(b);
    assert |l| == |r|;
    forall i | 0 <= i < |l|
      ensures l[i] == r[i]
    {
      if i < |a| {
        assert (a + b)[i] == a[i];
      } else {
        assert (a + b)[i] == b[i - |a|];
      }
    }
  }

  /** The new message as the final user-role entry of a request. */
  function UserTurn(message: string): ChatMessage
  {
    ChatMessage(UserRole, Said(message))
  }

  /** What the handler hands to a provider's SDK: an OpenAI chat completion
      (sampling temperature 0.7, kept as seven tenths) or an Anthropic
      message creation with its separate `system` field. */
  datatype UpstreamRequest =
    | ChatCompletion(model: string, messages: seq<ChatMessage>, temperatureTenths: nat, maxTokens: nat)
    | MessagesCreate(model: string, maxTokens: nat, system: Content, messages: seq<ChatMessage>)

  /** The system prompt a request carries, wherever its provider puts it. */
  function SystemPromptOf(r: UpstreamRequest): Option<Content>
  {
    match r
    case ChatCompletion(_, msgs, _, _) =>
      if msgs != [] && msgs[0].role == SystemRole then Some(msgs[0].content) else None
    case MessagesCreate(_, _, system, _) => Some(system)
  }

  /** The conversation a request carries, without its system prompt. */
  function Dialogue(r: UpstreamRequest): seq<ChatMessage>
  {
    match r
    case ChatCompletion(_, msgs, _, _) =>
      if msgs != [] && msgs[0].role == SystemRole then msgs[1..] else msgs
    case MessagesCreate(_, _, _, msgs) => msgs
  }

  /** The request sent for persona `p`: its prompt in its provider's system
      slot, then its mapped history, then the new message. */
  function BuildRequest(p: PersonaId, history: seq<Entry>, message: string): (r: UpstreamRequest)
    ensures r.model == ModelOf(p) && r.maxTokens == MaxTokensOf(p)
    ensures r.ChatCompletion? <==> ProviderOf(p) == OpenAI
    ensures r.ChatCompletion? ==> r.temperatureTenths == 7
    ensures SystemPromptOf(r) == Some(Prompt(p))
    ensures Dialogue(r) == MapHistory(history) + [UserTurn(message)]
    ensures |r.messages| == |history| + (if ProviderOf(p) == OpenAI then 2 else 1)
    ensures r.messages[|r.messages| - 1] == UserTurn(message)
    ensures forall i :: 0 <= i < |r.messages| ==>
              (r.messages[i].role == SystemRole <==> (i == 0 && ProviderOf(p) == OpenAI))
  {
    var turns := MapHistory(history) + [UserTurn(message)];
    match ProviderOf(p)
    case OpenAI =>
      ChatCompletion(ModelOf(p), [ChatMessage(SystemRole, Prompt(p))] + turns, 7, MaxTokensOf(p))
    case Anthropic =>
      MessagesCreate(ModelOf(p), MaxTokensOf(p), Prompt(p), turns)
  }

  /** `conversations[key] || []`: a persona with no stored thread has an
      empty history. */
  function HistoryFor(c: map<string, seq<Entry>>, p: PersonaId): (r: seq<Entry>)
    ensures Key(p) in c ==> r == c[Key(p)]
    ensures Key(p) !in c ==> r == []
  {
    if Key(p) in c then c[Key(p)] else []
  }

  /** The three requests, in council order, that one valid chat request
      sends upstream. */
  function IssueAll(c: map<string, seq<Entry>>, message: string): (r: seq<UpstreamRequest>)
    ensures |r| == |CouncilOrder|
    ensures forall i :: 0 <= i < |CouncilOrder| ==>
              r[i] == BuildRequest(CouncilOrder[i], HistoryFor(c, CouncilOrder[i]), message)
  {
    [ BuildRequest(Supporter, HistoryFor(c, Supporter), message),
      BuildRequest(Analyst, HistoryFor(c, Analyst), message),
      BuildRequest(Challenger, HistoryFor(c, Challenger), message) ]
  }

  // ---------------------------------------------------------------------------
  // Settled outcomes and their aggregation

  /** How one upstream call settled. `Malformed` is a fulfilled call whose
      value makes the text lookup throw: an OpenAI value without `choices[0]`
      or without `choices[0].message`, or an Anthropic value without `content`
      or without `content[0]`. A lookup that reaches its last step always
      yields an entry, even when that step is `null` or `undefined`. */
  datatype Outcome = Fulfilled(text: string) | Malformed | Rejected(reason: string)

  /** One persona's entry in `responses`; `error` is absent on success. */
  datatype Reply = Reply(success: bool, text: string, error: Option<string>)

  /** A fault thrown inside the handler's `try` block, outside the settled calls. */
  datatype Fault =
    | MessageNotString                  // `message.trim` is not a function
    | ConversationsMissing              // reading a key of undefined or null
    | NoCompletionText(persona: PersonaId)

  datatype Result<+T> = Ok(value: T) | Err(fault: Fault)

  /** Persona `p`'s branch of the `responses` literal: the text of a fulfilled
      call, or `p`'s fallback and the rejection's message. */
  function ReplyFor(p: PersonaId, o: Outcome): (r: Result<Reply>)
    ensures r.Err? <==> o.Malformed?
    ensures r.Err? ==> r.fault == NoCompletionText(p)
    ensures r.Ok? ==> (r.value.success <==> o.Fulfilled?) && (r.value.error.None? <==> o.Fulfilled?)
    ensures o.Fulfilled? ==> r.value.text == o.text
    ensures o.Rejected? ==> r.value.text == Fallback(p) && r.value.error == Some(o.reason)
  {
    match o
    case Fulfilled(text) => Ok(Reply(true, text, None))
    case Malformed => Err(NoCompletionText(p))
    case Rejected(reason) => Ok(Reply(false, Fallback(p), Some(reason)))
  }

  /** The `responses` object, read in council order: the first fulfilled call
      whose text lookup throws ends the handler; otherwise every persona gets an entry,
      its model's text when fulfilled and its own fallback when rejected. */
  function Aggregate(o: PerPersona<Outcome>): (r: Result<PerPersona<Reply>>)
    ensures r.Ok? <==> forall p :: !o.Get(p).Malformed?
    ensures r.Err? ==> r.fault.NoCompletionText? && o.Get(r.fault.persona).Malformed?
    ensures r.Err? ==> forall q :: Rank(q) < Rank(r.fault.persona) ==> !o.Get(q).Malformed?
    ensures r.Ok? ==> forall p :: r.value.Get(p).success <==> o.Get(p).Fulfilled?
    ensures r.Ok? ==> forall p :: o.Get(p).Fulfilled? ==>
              r.value.Get(p) == Reply(true, o.Get(p).text, None)
    ensures r.Ok? ==> forall p :: o.Get(p).Rejected? ==>
              r.value.Get(p) == Reply(false, Fallback(p), Some(o.Get(p).reason))
  {
    var s := ReplyFor(Supporter, o.supporter);
    var a := ReplyFor(Analyst, o.analyst);
    var c := ReplyFor(Challenger, o.challenger);
    if s.Err? then
      assert o.Get(Supporter).Malformed?;
      Err(s.fault)
    else if a.Err? then
      assert o.Get(Analyst).Malformed?;
      Err(a.fault)
    else if c.Err? then
      assert o.Get(Challenger).Malformed?;
      Err(c.fault)
    else
      Ok(PerPersona(s.value, a.value, c.value))
  }

  /** One persona's entry depends on its own outcome alone. */
  lemma AggregateIsolates(o1: PerPersona<Outcome>, o2: PerPersona<Outcome>, p: PersonaId)
    requires Aggregate(o1).Ok? && Aggregate(o2).Ok?
    requires o1.Get(p) == o2.Get(p)
    ensures Aggregate(o1).value.Get(p) == Aggregate(o2).value.Get(p)
  {
  }

  // ---------------------------------------------------------------------------
  // The handler

  /** The `message` field of the request body. `NonString` is any other JSON
      value, split by JavaScript truthiness (`null`, `false` and `0` are
      falsy; numbers, `true`, arrays and objects are truthy). */
  datatype MessageField = Missing | Str(s: string) | NonString(truthy: bool)

  /** The `conversations` field: `Absent` is `undefined` or `null`, the two
      values whose properties cannot be read. A primitive such as `false` or
      `5` reads every thread as `undefined`, which is `Given(map[])`. */
  datatype ConversationsField = Absent | Given(threads: map<string, seq<Entry>>)

  datatype ChatBody = ChatBody(conversations: ConversationsField, message: MessageField)

  const MessageRequired: string := "Message is required"

  /** `{success: true, responses}`, `{success: false, error: "Message is required"}`
      or `{success: false, error: error.message}`. */
  datatype ResponseBody =
    | Replies(responses: map<string, Reply>)
    | Invalid(error: string)
    | InternalError(fault: Fault)

  datatype Response = Response(status: nat, body: ResponseBody)

  /** The requests the handler issued upstream, and what it answered. */
  datatype Exchange = Exchange(issued: seq<UpstreamRequest>, response: Response)

  /** `!message || !message.trim()`, for the values that do not throw: no
      message, a falsy one, or a string of white space only. */
  function MessageMissing(m: MessageField): (r: bool)
    ensures r <==> m.Missing? || (m.Str? && IsBlank(m.s)) || (m.NonString? && !m.truthy)
  {
    match m
    case Missing => true
    case Str(s) => TrimEmptyIffBlank(s); Trim(s) == []
    case NonString(truthy) => !truthy
  }

  /** The handler body of `POST /api/chat`, given how the three upstream calls
      would settle. */
  function HandleChat(body: ChatBody, outcomes: PerPersona<Outcome>): (x: Exchange)
    ensures x.response.status in {200, 400, 500}
    ensures x.response.status == 400 <==> MessageMissing(body.message)
    ensures x.response.status == 400 ==> x.response.body == Invalid(MessageRequired)
    ensures x.issued != [] <==>
              !MessageMissing(body.message) && body.message.Str? && body.conversations.Given?
    ensures x.issued != [] ==>
              |x.issued| == |CouncilOrder| &&
              forall i :: 0 <= i < |CouncilOrder| ==>
                x.issued[i] == BuildRequest(CouncilOrder[i], HistoryFor(body.conversations.threads, CouncilOrder[i]),
                                            body.message.s)
    ensures x.response.status == 200 <==> x.issued != [] && Aggregate(outcomes).Ok?
    ensures x.response.status == 200 ==> x.response.body == Replies(ToObject(Aggregate(outcomes).value))
    ensures x.response.status == 500 ==> x.response.body.InternalError?
  {
    match body.message
    case Missing => Exchange([], Response(400, Invalid(MessageRequired)))
    case NonString(truthy) =>
      if truthy then Exchange([], Response(500, InternalError(MessageNotString)))
      else Exchange([], Response(400, Invalid(MessageRequired)))
    case Str(message) =>
      if Trim(message) == [] then Exchange([], Response(400, Invalid(MessageRequired)))
      else
        match body.conversations
        case Absent => Exchange([], Response(500, InternalError(ConversationsMissing)))
        case Given(c) =>
          var issued := IssueAll(c, message);
          match Aggregate(outcomes)
          case Ok(replies) => Exchange(issued, Response(200, Replies(ToObject(replies))))
          case Err(f) => Exchange(issued, Response(500, InternalError(f)))
  }

  /** `success` at the top level of the response body. */
  function TopLevelSuccess(b: ResponseBody): bool
  {
    b.Replies?
  }

  /** Upstream failures never fail the request: with a valid message and
      stored threads, even three rejected calls give status 200 and
      `success: true`, every persona answering with its fallback. */
  lemma AllRejectedStillSucceeds(body: ChatBody, outcomes: PerPersona<Outcome>)
    requires body.message.Str? && !IsBlank(body.message.s) && body.conversations.Given?
    requires forall p :: outcomes.Get(p).Rejected?
    ensures var x := HandleChat(body, outcomes);
            && x.response.status == 200
            && TopLevelSuccess(x.response.body)
            && x.response.body.responses.Keys == PersonaKeys
            && forall p :: x.response.body.responses[Key(p)]
                           == Reply(false, Fallback(p), Some(outcomes.Get(p).reason))
  {
    assert forall p :: !outcomes.Get(p).Malformed?;
  }

  /** Without `conversations`, reading the first persona's thread throws
      before any request is built: status 500, nothing issued upstream. */
  lemma ConversationsMissingFails(message: string, outcomes: PerPersona<Outcome>)
    requires Trim(message) != []
    ensures HandleChat(ChatBody(Absent, Str(message)), outcomes)
            == Exchange([], Response(500, InternalError(ConversationsMissing)))
  {
  }

  /** A truthy message that is not a string has no `trim` to call: status 500,
      nothing issued upstream, whatever `conversations` holds. */
  lemma NonStringMessageFails(conversations: ConversationsField, outcomes: PerPersona<Outcome>)
    ensures HandleChat(ChatBody(conversations, NonString(true)), outcomes)
            == Exchange([], Response(500, InternalError(MessageNotString)))
  {
  }

  /** A stored thread that is absent is the same as one that is empty. */
  lemma AbsentThreadIsEmpty(c: map<string, seq<Entry>>, message: string, p: PersonaId)
    requires Key(p) !in c
    ensures IssueAll(c, message) == IssueAll(c[Key(p) := []], message)
  {
    var c' := c[Key(p) := []];
    assert HistoryFor(c, Supporter) == HistoryFor(c', Supporter);
    assert HistoryFor(c, Analyst) == HistoryFor(c', Analyst);
    assert HistoryFor(c, Challenger) == HistoryFor(c', Challenger);
  }

  /** Keys of `conversations` that name no persona are never read. */
  lemma OtherThreadsIgnored(c: map<string, seq<Entry>>, message: string)
    ensures IssueAll(c, message) == IssueAll(map k | k in c && k in PersonaKeys :: c[k], message)
  {
    var c' := map k | k in c && k in PersonaKeys :: c[k];
    assert HistoryFor(c, Supporter) == HistoryFor(c', Supporter);
    assert HistoryFor(c, Analyst) == HistoryFor(c', Analyst);
    assert HistoryFor(c, Challenger) == HistoryFor(c', Challenger);
  }
}
