/**
 One turn of the whole system: the page sends, the server builds its three
 upstream requests from what the page sent and answers from how those calls
 settled, and the page folds the answer into its threads.
 */
module Council {
  import opened Personas
  import opened JsText
  import opened Server
  import opened Client

  /** The request body the page sends on a Send from `s`. */
  function RequestBody(s: PageState): ChatBody
  {
    ToBody(ApiRequest(s.conversations, s.input))
  }

  /** The page after one Send from `s`, when the fetch reaches the server and
      the three upstream calls settle as `outcomes`. A blocked Send never
      looks at the server's answer. */
  function Turn(s: PageState, outcomes: PerPersona<Outcome>): PageState
  {
    After(s, ReceiveResponse(Some(HandleChat(RequestBody(s), outcomes).response)))
  }

  /** The reply the server gives for persona `p` in a turn where no call came
      back `Malformed`, as it lands in `p`'s thread. */
  function ExpectedReply(outcomes: PerPersona<Outcome>, p: PersonaId): Message
    requires forall q :: !outcomes.Get(q).Malformed?
  {
    match outcomes.Get(p)
    case Fulfilled(text) => Message(Ai, text, false)
    case Rejected(_) => Message(Ai, Fallback(p), true)
  }

  /** Whatever the page lets through its own guard passes the server's:
      the page sends the untrimmed input, and it is never answered with 400;
      all three upstream requests are issued. */
  lemma SentMessageIsNeverRejected(s: PageState, outcomes: PerPersona<Outcome>)
    requires !IsBlank(s.input) && !s.loading
    ensures var x := HandleChat(RequestBody(s), outcomes);
            && x.response.status != 400
            && |x.issued| == |CouncilOrder|
  {
    TrimEmptyIffBlank(s.input);
  }

  /** What the server makes of a Send: each upstream request carries the
      pre-send thread, mapped, followed by the new message. */
  lemma RequestDialogue(s: PageState, outcomes: PerPersona<Outcome>, i: nat)
    requires !IsBlank(s.input)
    requires i < |CouncilOrder|
    ensures var x := HandleChat(RequestBody(s), outcomes);
            && |x.issued| == |CouncilOrder|
            && Dialogue(x.issued[i])
               == MapHistory(EncodeThread(s.conversations.Get(CouncilOrder[i]))) + [UserTurn(s.input)]
  {
    TrimEmptyIffBlank(s.input);
    var body := RequestBody(s);
    var p := CouncilOrder[i];
    assert HistoryFor(body.conversations.threads, p) == EncodeThread(s.conversations.Get(p));
  }

  /** Encoding and mapping a thread with one more message gives one more
      role-labelled message at the end. */
  lemma MapEncodeAppend(t: seq<Message>, m: Message)
    ensures MapHistory(EncodeThread(t + [m])) == MapHistory(EncodeThread(t)) + [ToChat(Encode(m))]
  {
    EncodeThreadAppend(t, m);
    MapHistoryAppend(EncodeThread(t), [Encode(m)]);
  }

  /** The conversation each upstream request carries is exactly the thread the
      page shows while the request is in flight: the history sent is the
      pre-send thread and the server appends the new message once. */
  lemma RequestMirrorsPendingThread(s: PageState, reply: ApiReply, outcomes: PerPersona<Outcome>, i: nat)
    requires !IsBlank(s.input) && !s.loading
    requires i < |CouncilOrder|
    ensures var x := HandleChat(ToBody(HandleSend(s, reply).request), outcomes);
            && |x.issued| == |CouncilOrder|
            && Dialogue(x.issued[i])
               == MapHistory(EncodeThread(HandleSend(s, reply).pending.conversations.Get(CouncilOrder[i])))
  {
    var step := HandleSend(s, reply);
    assert ToBody(step.request) == RequestBody(s);
    RequestDialogue(s, outcomes, i);
    MapEncodeAppend(s.conversations.Get(CouncilOrder[i]), UserMessage(s.input));
  }

  /** The new message occurs in each request's conversation exactly once more
      than in the stored history it was sent with. */
  lemma UserMessageSentOnce(s: PageState, outcomes: PerPersona<Outcome>, i: nat)
    requires !IsBlank(s.input) && !s.loading
    requires i < |CouncilOrder|
    ensures var x := HandleChat(RequestBody(s), outcomes);
            && |x.issued| == |CouncilOrder|
            && multiset(Dialogue(x.issued[i]))[UserTurn(s.input)]
               == multiset(MapHistory(EncodeThread(s.conversations.Get(CouncilOrder[i]))))[UserTurn(s.input)] + 1
  {
    RequestDialogue(s, outcomes, i);
    var h := MapHistory(EncodeThread(s.conversations.Get(CouncilOrder[i])));
    assert multiset(h + [UserTurn(s.input)]) == multiset(h) + multiset{UserTurn(s.input)};
  }

  /** With every call fulfilled with readable text or rejected, the page receives the
      aggregated `responses` object. */
  lemma ServerAnswers(s: PageState, outcomes: PerPersona<Outcome>)
    requires !IsBlank(s.input)
    requires forall q :: !outcomes.Get(q).Malformed?
    ensures ReceiveResponse(Some(HandleChat(RequestBody(s), outcomes).response))
            == Answered(ToObject(Aggregate(outcomes).value))
  {
    TrimEmptyIffBlank(s.input);
  }

  lemma TurnAnswered(s: PageState, outcomes: PerPersona<Outcome>)
    requires !IsBlank(s.input) && !s.loading
    requires forall q :: !outcomes.Get(q).Malformed?
    ensures Turn(s, outcomes) == After(s, Answered(ToObject(Aggregate(outcomes).value)))
  {
    ServerAnswers(s, outcomes);
  }

  /** The page's side of a turn in which every call was fulfilled with readable text or was
      rejected. */
  lemma SettleAnswers(s: PageState, outcomes: PerPersona<Outcome>, p: PersonaId)
    requires !IsBlank(s.input) && !s.loading
    requires forall q :: !outcomes.Get(q).Malformed?
    ensures After(s, Answered(ToObject(Aggregate(outcomes).value))).conversations.Get(p)
            == s.conversations.Get(p) + [UserMessage(s.input), ExpectedReply(outcomes, p)]
  {
    var replies := Aggregate(outcomes).value;
    var responses := ToObject(replies);
    SendSuccess(s, responses, p);
    assert responses[Key(p)] == replies.Get(p);
    ReplyMatchesOutcome(outcomes, p);
  }

  /** A turn in which every call is fulfilled with readable text or is rejected appends two
      entries to each thread: the user's message, then that persona's reply
      (its model's text, or its fallback flagged as an error). */
  lemma FullTurn(s: PageState, outcomes: PerPersona<Outcome>, p: PersonaId)
    requires !IsBlank(s.input) && !s.loading
    requires forall q :: !outcomes.Get(q).Malformed?
    ensures Turn(s, outcomes).conversations.Get(p)
            == s.conversations.Get(p) + [UserMessage(s.input), ExpectedReply(outcomes, p)]
  {
    TurnAnswered(s, outcomes);
    SettleAnswers(s, outcomes, p);
  }

  /** The entry aggregation gives a persona, as the page appends it. */
  lemma ReplyMatchesOutcome(outcomes: PerPersona<Outcome>, p: PersonaId)
    requires forall q :: !outcomes.Get(q).Malformed?
    ensures ReplyMessage(Aggregate(outcomes).value.Get(p)) == ExpectedReply(outcomes, p)
  {
  }

  /** When a call comes back `Malformed` the server answers 500,
      the page takes its error path, and every thread loses the just-sent
      message and gains one apology instead. */
  lemma ServerFaultDropsUserMessage(s: PageState, outcomes: PerPersona<Outcome>, p: PersonaId)
    requires !IsBlank(s.input) && !s.loading
    requires outcomes.Get(p).Malformed?
    ensures forall q :: Turn(s, outcomes).conversations.Get(q) == s.conversations.Get(q) + [ApologyMessage]
  {
    TrimEmptyIffBlank(s.input);
    assert HandleChat(RequestBody(s), outcomes).response.status == 500;
  }

  /** Fed back as history on the next turn, the two new entries are read as a
      user turn followed by an assistant turn, after the older history. */
  lemma NextTurnHistory(s: PageState, outcomes: PerPersona<Outcome>, p: PersonaId)
    requires !IsBlank(s.input) && !s.loading
    requires forall q :: !outcomes.Get(q).Malformed?
    ensures MapHistory(EncodeThread(Turn(s, outcomes).conversations.Get(p)))
            == MapHistory(EncodeThread(s.conversations.Get(p)))
               + [UserTurn(s.input), ChatMessage(AssistantRole, Said(ExpectedReply(outcomes, p).text))]
  {
    FullTurn(s, outcomes, p);
    MapEncodeTwo(s.conversations.Get(p), UserMessage(s.input), ExpectedReply(outcomes, p));
  }

  /** A thread with a user message and a persona reply appended, as the next
      request reads it. */
  lemma MapEncodeTwo(t: seq<Message>, u: Message, r: Message)
    requires u.sender == User && r.sender == Ai
    ensures MapHistory(EncodeThread(t + [u, r]))
            == MapHistory(EncodeThread(t)) + [UserTurn(u.text), ChatMessage(AssistantRole, Said(r.text))]
  {
    var m := MapHistory(EncodeThread(t));
    MapEncodeAppend(t, u);
    MapEncodeAppend(t + [u], r);
    assert t + [u, r] == t + [u] + [r];
    assert ToChat(Encode(u)) == UserTurn(u.text);
    assert ToChat(Encode(r)) == ChatMessage(AssistantRole, Said(r.text));
    assert m + [UserTurn(u.text)] + [ChatMessage(AssistantRole, Said(r.text))]
        == m + [UserTurn(u.text), ChatMessage(AssistantRole, Said(r.text))];
  }

  /** The first turn from a fresh page with the analyst's call rejected: the
      other two personas show their text, the analyst its fallback. */
  lemma FirstTurnWithAnalystDown(input: string, supporterText: string, challengerText: string, reason: string)
    requires !IsBlank(input)
    ensures var t := Turn(InitialState.(input := input),
                          PerPersona(Fulfilled(supporterText), Rejected(reason), Fulfilled(challengerText)));
            && t.conversations.Get(Supporter) == [UserMessage(input), Message(Ai, supporterText, false)]
            && t.conversations.Get(Analyst) == [UserMessage(input), Message(Ai, Fallback(Analyst), true)]
            && t.conversations.Get(Challenger) == [UserMessage(input), Message(Ai, challengerText, false)]
  {
    var s := InitialState.(input := input);
    var o := PerPersona(Fulfilled(supporterText), Rejected(reason), Fulfilled(challengerText));
    assert forall q :: !o.Get(q).Malformed?;
    assert s.conversations.Get(Supporter) == [] && s.conversations.Get(Analyst) == []
        && s.conversations.Get(Challenger) == [];
    FullTurn(s, o, Supporter);
    FullTurn(s, o, Analyst);
    FullTurn(s, o, Challenger);
    assert ExpectedReply(o, Analyst) == Message(Ai, Fallback(Analyst), true);
  }
}
