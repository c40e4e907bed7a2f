/**
 The page's state and its transitions: `handleSend`, `togglePanel`, and the
 layout and label chosen from how many panels are visible. React state is a
 `PageState` value; a transition is a function from the state it starts in.
 */
module Client {
  import opened Personas
  import opened JsText
  import Server

  datatype Sender = User | Ai

  /** A thread entry on the page (its `Date.now()` timestamp is left out).
      A user entry has no `error` field, which reads as false. */
  datatype Message = Message(sender: Sender, text: string, error: bool)

  type Threads = PerPersona<seq<Message>>

  type Panels = PerPersona<bool>

  datatype PageState = PageState(input: string, loading: bool, conversations: Threads, visiblePanels: Panels)

  /** The page when it first renders: empty input and threads, all panels shown. */
  const InitialState: PageState :=
    PageState("", false, PerPersona([], [], []), PerPersona(true, true, true))

  const Apology: string := "Sorry, I encountered an error. Please try again."

  function UserMessage(text: string): Message
  {
    Message(User, text, false)
  }

  /** A persona's reply as it is appended: flagged when the server reported
      that persona's call as failed. */
  function ReplyMessage(r: Server.Reply): Message
  {
    Message(Ai, r.text, !r.success)
  }

  const ApologyMessage: Message := Message(Ai, Apology, true)

  // ---------------------------------------------------------------------------
  // The API service

  /** What `apiService.sendMessage` is given. */
  datatype ApiRequest = ApiRequest(conversations: Threads, message: string)

  /** How `await apiService.sendMessage(...)` ended: it threw, or it resolved
      with a body whose `responses` object is given. */
  datatype ApiReply = Threw | Answered(responses: map<string, Server.Reply>)

  /** A thread entry as it travels in the request body; the server reads
      only `type` and `text`. */
  function Encode(m: Message): (e: Server.Entry)
    ensures e.kind == "user" <==> m.sender == User
    ensures e.text == m.text
  {
    Server.Entry(if m.sender == User then "user" else "ai", m.text)
  }

  function EncodeThread(t: seq<Message>): (r: seq<Server.Entry>)
    ensures |r| == |t|
    ensures forall i :: 0 <= i < |t| ==> r[i] == Encode(t[i])
  {
    if t == [] then [] else [Encode(t[0])] + EncodeThread(t[1..])
  }

  lemma EncodeThreadAppend(t: seq<Message>, m: Message)
    ensures EncodeThread(t + [m]) == EncodeThread(t) + [Encode(m)]
  {
    assert forall i :: 0 <= i < |t| ==> (t + [m])[i] == t[i];
  }

  /** `JSON.stringify({ conversations, message })` as the server parses it. */
  function ToBody(req: ApiRequest): (b: Server.ChatBody)
    ensures b.message == Server.Str(req.message)
    ensures b.conversations.Given? && b.conversations.threads.Keys == PersonaKeys
    ensures forall p :: Server.HistoryFor(b.conversations.threads, p)
                        == EncodeThread(req.conversations.Get(p))
  {
    var threads := ToObject(Tabulate(p => EncodeThread(req.conversations.Get(p))));
    Server.ChatBody(Server.Given(threads), Server.Str(req.message))
  }

  /** `sendMessage` after the fetch: a response that is not `ok` (status
      outside 200-299) or a failed fetch (`None`) throws; otherwise the
      body's `responses` is handed back. A 2xx body without `responses`
      makes the caller's `Object.keys(undefined)` throw, which ends the
      same way as a throw here. */
  function ReceiveResponse(r: Option<Server.Response>): (a: ApiReply)
    ensures a.Answered? <==> r.Some? && 200 <= r.value.status < 300 && r.value.body.Replies?
    ensures a.Answered? ==> a.responses == r.value.body.responses
  {
    match r
    case None => Threw
    case Some(resp) =>
      if 200 <= resp.status < 300 && resp.body.Replies? then Answered(resp.body.responses) else Threw
  }

  // ---------------------------------------------------------------------------
  // handleSend

  /** Appends one message at the end of every thread. */
  function AppendToEach(t: Threads, m: Message): (r: Threads)
    ensures forall p :: r.Get(p) == t.Get(p) + [m]
  {
    Tabulate(p => t.Get(p) + [m])
  }

  /** The success path's `forEach` over `Object.keys(responses)`, when every
      key names a persona: each key's reply is pushed onto the thread of the
      persona it names, and a persona without a key keeps its thread. */
  function WithReplies(t: Threads, responses: map<string, Server.Reply>): (r: Threads)
    requires forall k :: k in responses ==> ParseKey(k).Some?
    ensures forall k :: k in responses ==>
              r.Get(ParseKey(k).value) == t.Get(ParseKey(k).value) + [ReplyMessage(responses[k])]
    ensures forall p :: Key(p) !in responses ==> r.Get(p) == t.Get(p)
  {
    Tabulate(p => if Key(p) in responses then t.Get(p) + [ReplyMessage(responses[Key(p)])] else t.Get(p))
  }

  /** The threads once the request has settled. A key of `responses` that
      names no persona makes `finalConversations[key].push` throw, which
      lands in the same `catch` as a failed request; the `catch` rebuilds
      from the threads as they were before the send. */
  function SettledThreads(before: Threads, sent: string, reply: ApiReply): (r: Threads)
    ensures reply.Answered? && (forall k :: k in reply.responses ==> ParseKey(k).Some?) ==>
              forall k :: k in reply.responses ==>
                r.Get(ParseKey(k).value)
                == before.Get(ParseKey(k).value) + [UserMessage(sent), ReplyMessage(reply.responses[k])]
    ensures reply.Answered? && (forall k :: k in reply.responses ==> ParseKey(k).Some?) ==>
              forall p :: Key(p) !in reply.responses ==> r.Get(p) == before.Get(p) + [UserMessage(sent)]
    ensures !(reply.Answered? && forall k :: k in reply.responses ==> ParseKey(k).Some?) ==>
              forall p :: r.Get(p) == before.Get(p) + [ApologyMessage]
  {
    match reply
    case Answered(responses) =>
      if responses.Keys <= PersonaKeys then WithReplies(AppendToEach(before, UserMessage(sent)), responses)
      else
        assert exists k :: k in responses && k !in PersonaKeys;
        AppendToEach(before, ApologyMessage)
    case Threw => AppendToEach(before, ApologyMessage)
  }

  /** One click of Send: ignored, or the request it sent together with the
      state while the request is in flight and the state once it settled. */
  datatype SendStep = Ignored | Sent(request: ApiRequest, pending: PageState, settled: PageState)

  /** `!input.trim() || loading`: nothing to send, or a send in flight. */
  predicate SendBlocked(s: PageState)
  {
    Trim(s.input) == [] || s.loading
  }

  function HandleSend(s: PageState, reply: ApiReply): (step: SendStep)
    ensures step.Ignored? <==> IsBlank(s.input) || s.loading
    ensures step.Sent? ==> step.request == ApiRequest(s.conversations, s.input)
    ensures step.Sent? ==>
              && step.pending.loading && step.pending.input == ""
              && step.pending.visiblePanels == s.visiblePanels
              && forall p :: step.pending.conversations.Get(p) == s.conversations.Get(p) + [UserMessage(s.input)]
    ensures step.Sent? ==>
              && !step.settled.loading && step.settled.input == ""
              && step.settled.visiblePanels == s.visiblePanels
  {
    TrimEmptyIffBlank(s.input);
    if SendBlocked(s) then Ignored
    else
      var pending := s.(loading := true, input := "",
                        conversations := AppendToEach(s.conversations, UserMessage(s.input)));
      var settled := pending.(loading := false,
                              conversations := SettledThreads(s.conversations, s.input, reply));
      Sent(ApiRequest(s.conversations, s.input), pending, settled)
  }

  /** The state once `handleSend` has returned. */
  function After(s: PageState, reply: ApiReply): PageState
  {
    match HandleSend(s, reply)
    case Ignored => s
    case Sent(_, _, settled) => settled
  }

  /** A blocked send leaves the page exactly as it was. */
  lemma BlockedSendChangesNothing(s: PageState, reply: ApiReply)
    requires IsBlank(s.input) || s.loading
    ensures After(s, reply) == s
  {
  }

  /** On success each thread keeps its entries, then holds the user's message,
      then one reply if its persona's key is in `responses`, carrying the
      reply's text and flagged exactly when the persona's call failed
      (`ReplyMessage`). */
  lemma SendSuccess(s: PageState, responses: map<string, Server.Reply>, p: PersonaId)
    requires !IsBlank(s.input) && !s.loading
    requires responses.Keys <= PersonaKeys
    ensures Key(p) in responses ==>
              After(s, Answered(responses)).conversations.Get(p)
              == s.conversations.Get(p) + [UserMessage(s.input), ReplyMessage(responses[Key(p)])]
    ensures Key(p) !in responses ==>
              After(s, Answered(responses)).conversations.Get(p)
              == s.conversations.Get(p) + [UserMessage(s.input)]
  {
    var before := s.conversations.Get(p);
    if Key(p) in responses {
      assert before + [UserMessage(s.input)] + [ReplyMessage(responses[Key(p)])]
          == before + [UserMessage(s.input), ReplyMessage(responses[Key(p)])];
    }
  }

  /** On the error path every thread ends as it was before the send plus one
      apology: the user's just-sent message is not kept, because the `catch`
      starts again from the pre-send threads. This holds both when the
      request throws and when `responses` carries a key that names no
      persona. */
  lemma SendFailureDropsUserMessage(s: PageState, reply: ApiReply)
    requires !IsBlank(s.input) && !s.loading
    requires reply.Threw? || !(reply.responses.Keys <= PersonaKeys)
    ensures forall p :: After(s, reply).conversations.Get(p) == s.conversations.Get(p) + [ApologyMessage]
    ensures forall p :: UserMessage(s.input) !in After(s, reply).conversations.Get(p)[|s.conversations.Get(p)|..]
    ensures !After(s, reply).loading
  {
    forall p
      ensures UserMessage(s.input) !in After(s, reply).conversations.Get(p)[|s.conversations.Get(p)|..]
    {
      var before := s.conversations.Get(p);
      assert (before + [ApologyMessage])[|before|..] == [ApologyMessage];
    }
  }

  // ---------------------------------------------------------------------------
  // Panels, layout and label

  /** `{ ...prev, [id]: !prev[id] }`. */
  function TogglePanel(v: Panels, p: PersonaId): (r: Panels)
    ensures r.Get(p) == !v.Get(p)
    ensures forall q :: q != p ==> r.Get(q) == v.Get(q)
  {
    v.Set(p, !v.Get(p))
  }

  lemma ToggleTwiceRestores(v: Panels, p: PersonaId)
    ensures TogglePanel(TogglePanel(v, p), p) == v
  {
    Extensionality(TogglePanel(TogglePanel(v, p), p), v);
  }

  /** Toggling two panels gives the same result in either order. */
  lemma TogglesCommute(v: Panels, p: PersonaId, q: PersonaId)
    ensures TogglePanel(TogglePanel(v, p), q) == TogglePanel(TogglePanel(v, q), p)
  {
    Extensionality(TogglePanel(TogglePanel(v, p), q), TogglePanel(TogglePanel(v, q), p));
  }

  function Indicator(b: bool): nat
  {
    if b then 1 else 0
  }

  /** `Object.values(visiblePanels).filter(Boolean).length`. */
  function VisibleCount(v: Panels): (n: nat)
    ensures n <= |CouncilOrder|
    ensures n == 0 <==> forall p :: !v.Get(p)
    ensures n == |CouncilOrder| <==> forall p :: v.Get(p)
  {
    assert v.Get(Supporter) == v.supporter && v.Get(Analyst) == v.analyst
        && v.Get(Challenger) == v.challenger;
    Indicator(v.supporter) + Indicator(v.analyst) + Indicator(v.challenger)
  }

  /** Each toggle moves the visible count by exactly one. */
  lemma ToggleMovesCountByOne(v: Panels, p: PersonaId)
    ensures VisibleCount(TogglePanel(v, p)) == if v.Get(p) then VisibleCount(v) - 1 else VisibleCount(v) + 1
  {
  }

  const TwoByTwo: string := "grid-cols-2 grid-rows-2"
  const TwoByOne: string := "grid-cols-2 grid-rows-1"
  const OneByOne: string := "grid-cols-1 grid-rows-1"

  /** The grid classes for a visible count: two rows only for three panels,
      one column only when no count of one to three applies. */
  function GridClass(n: int): (c: string)
    ensures c in {TwoByTwo, TwoByOne, OneByOne}
    ensures c == TwoByTwo <==> n == 3
    ensures c == TwoByOne <==> n == 1 || n == 2
    ensures c == OneByOne <==> !(1 <= n <= 3)
  {
    // the three classes differ in their column digit (index 10) or row digit (index 22)
    assert TwoByTwo[22] != TwoByOne[22] && TwoByTwo[10] != OneByOne[10] && TwoByOne[10] != OneByOne[10];
    if n == 3 then TwoByTwo
    else if n == 2 then TwoByOne
    else if n == 1 then TwoByOne
    else OneByOne
  }

  /** The page's layout in terms of its panels. */
  lemma LayoutOfPanels(v: Panels)
    ensures GridClass(VisibleCount(v)) == TwoByTwo <==> forall p :: v.Get(p)
    ensures GridClass(VisibleCount(v)) == OneByOne <==> forall p :: !v.Get(p)
  {
  }

  /** `{count} perspective{count !== 1 ? "s" : ""} listening`: the visible
      count, then " perspective", an "s" exactly when the count is not one,
      and " listening". */
  function ListeningLabel(v: Panels): (caption: string)
    ensures |caption| > 13
    ensures caption[0] == '0' + VisibleCount(v) as char
    ensures caption[1..13] == " perspective"
    ensures caption[13] == 's' <==> VisibleCount(v) != 1
    ensures caption[|caption| - 10..] == " listening"
    ensures |caption| == 23 + (if VisibleCount(v) != 1 then 1 else 0)
  {
    var n := VisibleCount(v);
    ['0' + n as char] + " perspective" + (if n != 1 then "s" else "") + " listening"
  }
}
