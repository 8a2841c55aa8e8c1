/** The conversation engine of the chat button: an append-only message log,
    a single in-flight guard, and a conversation id adopted at most once.
    A send is split into its two events: `Submit`, which appends the user's
    turn and produces the request, and `Complete`, which appends the
    assistant's turn once the request has an outcome. */
module Chat {
  import opened Wrappers
  import opened Text
  import opened Wire
  import opened Prompt

  datatype Sender = User | Ai

  /** One turn of the conversation. Ids and timestamps come from the clock
      and are taken as given. */
  datatype Message = Message(id: string, content: string, sender: Sender, timestamp: string)

  const ModelName := "gpt-3.5-turbo"
  const Temperature: real := 0.7
  const MaxTokens: nat := 1000

  /** The request body posted to the chat endpoint. */
  datatype Request = Request(
    model: string,
    temperature: real,
    maxTokens: nat,
    conversationId: Option<string>,
    messages: seq<WireMessage>)

  const UnexpectedFormatReply := "Sorry, I received an unexpected response format."
  const ApologyReply := "Sorry, I encountered an error. Please try again."

  /** How a dispatched request ended: a well-formed reply, an ok response
      without `choices[0].message`, a non-ok status, or a thrown error. A
      throw before the body is read (network failure, unreadable body)
      carries no id; one raised by the shape test on a parsed body (say
      `choices: [null]`) comes after the body's `conversation_id` was
      already taken, and carries it. */
  datatype Outcome =
    | Reply(replyId: Option<string>, content: string)
    | UnexpectedShape(shapeId: Option<string>)
    | ErrorStatus(status: int)
    | Thrown(thrownId: Option<string>)

  /** The `conversation_id` seen before the outcome was decided; a non-ok
      status throws before the body is read and carries none. */
  function ResponseId(o: Outcome): Option<string> {
    match o
    case Reply(id, _) => id
    case UnexpectedShape(id) => id
    case Thrown(id) => id
    case ErrorStatus(_) => None
  }

  datatype ChatState = ChatState(log: seq<Message>, loading: bool, conversationId: Option<string>)

  const Initial := ChatState([], false, None)

  /** An id counts as held when it is present and non-empty. */
  predicate Held(id: Option<string>) {
    id.Some? && id.value != ""
  }

  /* ---------------------------------------------------------------------- */
  /*  Request assembly                                                       */
  /* ---------------------------------------------------------------------- */

  function RoleOf(s: Sender): Role {
    if s == User then UserRole else AssistantRole
  }

  /** The log as wire messages: contents unchanged, order kept, user turns
      under the user role and every other turn under the assistant role. */
  function History(log: seq<Message>): (r: seq<WireMessage>)
    ensures |r| == |log|
    ensures forall i :: 0 <= i < |log| ==>
      && r[i].content == log[i].content
      && (r[i].role == UserRole <==> log[i].sender == User)
      && (r[i].role == AssistantRole <==> log[i].sender != User)
    decreases |log|
  {
    if |log| == 0 then [] else [WireMessage(RoleOf(log[0].sender), log[0].content)] + History(log[1..])
  }

  lemma {:induction false} HistoryAppend(a: seq<Message>, b: seq<Message>)
    ensures History(a + b) == History(a) + History(b)
    decreases |a|
  {
    if |a| == 0 {
      assert a + b == b;
    } else {
      assert (a + b)[0] == a[0];
      assert (a + b)[1..] == a[1..] + b;
      HistoryAppend(a[1..], b);
    }
  }

  /** The payload of `fetchAIResponse`: the system message first, then the
      log as it stood before the new turn, then the new user turn; the
      conversation id is included exactly when one is held. */
  function BuildRequest(prior: seq<Message>, newMessage: string, conversationId: Option<string>,
                        system: WireMessage): (r: Request)
    ensures |r.messages| == |prior| + 2
    ensures r.messages[0] == system
    ensures r.messages[1..|prior| + 1] == History(prior)
    ensures r.messages[|prior| + 1] == WireMessage(UserRole, newMessage)
    ensures r.conversationId.Some? <==> Held(conversationId)
    ensures r.conversationId.Some? ==> r.conversationId == conversationId
    ensures r.model == ModelName && r.temperature == Temperature && r.maxTokens == MaxTokens
  {
    var id := if Held(conversationId) then conversationId else None;
    var msgs := [system] + History(prior) + [WireMessage(UserRole, newMessage)];
    assert msgs[1..|prior| + 1] == History(prior);
    Request(ModelName, Temperature, MaxTokens, id, msgs)
  }

  /* ---------------------------------------------------------------------- */
  /*  Submit                                                                 */
  /* ---------------------------------------------------------------------- */

  /** The state after a submission, and the request dispatched, if any. */
  datatype Submission = Submission(state: ChatState, request: Option<Request>)

  /** `sendMessage` up to the dispatch: ignored when the trimmed input is
      empty or a request is in flight; otherwise appends the trimmed text as
      a user turn, sets the guard, and builds the request from the log as it
      stood before the append. `system` is what `createSystemPrompt` gives
      at that moment (see `Step`). */
  function Submit(st: ChatState, input: string, id: string, timestamp: string,
                  system: WireMessage): (r: Submission)
    ensures Trim(input) == "" || st.loading ==> r == Submission(st, None)
    ensures Trim(input) != "" && !st.loading ==>
      && r.state == ChatState(st.log + [Message(id, Trim(input), User, timestamp)], true, st.conversationId)
      && r.request == Some(BuildRequest(st.log, Trim(input), st.conversationId, system))
  {
    var text := Trim(input);
    if text == "" || st.loading then Submission(st, None)
    else
      var user := Message(id, text, User, timestamp);
      var req := BuildRequest(st.log, text, st.conversationId, system);
      Submission(ChatState(st.log + [user], true, st.conversationId), Some(req))
  }

  /** The request built from the log before the new turn carries exactly the
      log after it: the history read before the append, followed by the new
      turn, is the history of the appended log. */
  lemma SubmitRequestMatchesLog(st: ChatState, input: string, id: string, timestamp: string,
                                system: WireMessage)
    requires Trim(input) != "" && !st.loading
    ensures var r := Submit(st, input, id, timestamp, system);
      r.request.value.messages == [system] + History(r.state.log)
  {
    var r := Submit(st, input, id, timestamp, system);
    var user := Message(id, Trim(input), User, timestamp);
    var msgs := r.request.value.messages;
    HistoryAppend(st.log, [user]);
    assert History([user]) == [WireMessage(UserRole, Trim(input))];
    assert msgs == [system] + History(st.log) + [WireMessage(UserRole, Trim(input))] by {
      assert msgs == [msgs[0]] + msgs[1..|st.log| + 1] + [msgs[|st.log| + 1]];
    }
  }

  /* ---------------------------------------------------------------------- */
  /*  Complete                                                               */
  /* ---------------------------------------------------------------------- */

  /** The assistant's turn for an outcome. */
  function ReplyText(o: Outcome): (r: string)
    ensures o.Reply? ==> r == o.content
    ensures o.UnexpectedShape? ==> r == UnexpectedFormatReply
    ensures o.ErrorStatus? || o.Thrown? ==> r == ApologyReply
  {
    match o
    case Reply(_, content) => content
    case UnexpectedShape(_) => UnexpectedFormatReply
    case _ => ApologyReply
  }

  /** The id held after a response: a held id is kept; otherwise a
      non-empty id carried by the response is adopted. */
  function Adopt(held: Option<string>, o: Outcome): (r: Option<string>)
    ensures Held(held) ==> r == held
    ensures !Held(held) && Held(ResponseId(o)) ==> r == ResponseId(o)
    ensures r != held ==> !Held(held) && Held(r) && r == ResponseId(o)
  {
    if !Held(held) && Held(ResponseId(o)) then ResponseId(o) else held
  }

  /** The rest of `sendMessage`: exactly one assistant turn is appended,
      the id may be adopted, and the guard is cleared on every path. */
  function Complete(st: ChatState, o: Outcome, id: string, timestamp: string): (r: ChatState)
    ensures r.log == st.log + [Message(id, ReplyText(o), Ai, timestamp)]
    ensures !r.loading
    ensures r.conversationId == Adopt(st.conversationId, o)
  {
    ChatState(st.log + [Message(id, ReplyText(o), Ai, timestamp)], false, Adopt(st.conversationId, o))
  }

  /* ---------------------------------------------------------------------- */
  /*  Runs of events                                                         */
  /* ---------------------------------------------------------------------- */

  /** What happens to the chat: the user submits text, or the request in
      flight comes back. */
  datatype Event =
    | Send(input: string, id: string, timestamp: string, includePersonalData: bool, snap: Snapshot)
    | Receive(outcome: Outcome, replyMessageId: string, replyTimestamp: string)

  /** One event. A `Receive` while nothing is in flight cannot come from the
      engine and leaves the state alone. */
  function Step(st: ChatState, e: Event): (r: ChatState)
    ensures st.log <= r.log && |r.log| <= |st.log| + 1
    ensures e.Receive? && !st.loading ==> r == st
  {
    match e
    case Send(input, id, ts, flag, snap) => Submit(st, input, id, ts, SystemMessage(flag, snap)).state
    case Receive(o, id, ts) => if st.loading then Complete(st, o, id, ts) else st
  }

  function Run(st: ChatState, es: seq<Event>): ChatState
    decreases |es|
  {
    if |es| == 0 then st else Run(Step(st, es[0]), es[1..])
  }

  /** The log only grows: every earlier turn stays, in place. */
  lemma {:induction false} RunAppendOnly(st: ChatState, es: seq<Event>)
    ensures st.log <= Run(st, es).log
    decreases |es|
  {
    if |es| > 0 {
      RunAppendOnly(Step(st, es[0]), es[1..]);
    }
  }

  /** A held conversation id survives every later event. */
  lemma {:induction false} RunKeepsHeldId(st: ChatState, es: seq<Event>)
    requires Held(st.conversationId)
    ensures Run(st, es).conversationId == st.conversationId
    decreases |es|
  {
    if |es| > 0 {
      RunKeepsHeldId(Step(st, es[0]), es[1..]);
    }
  }

  /** The id held after a run is the one held before it, or else it was
      adopted from a response while none was held. */
  lemma {:induction false} RunIdSetOnce(st: ChatState, es: seq<Event>)
    ensures Run(st, es).conversationId == st.conversationId
         || (!Held(st.conversationId) && Held(Run(st, es).conversationId))
    decreases |es|
  {
    if |es| > 0 {
      var next := Step(st, es[0]);
      RunIdSetOnce(next, es[1..]);
      if Held(next.conversationId) {
        RunKeepsHeldId(next, es[1..]);
      }
    }
  }

  /** Turns appended since `base` alternate user, assistant, user, ... and
      a request is in flight exactly when the last of them is a user turn. */
  ghost predicate Alternating(base: ChatState, st: ChatState) {
    && base.log <= st.log
    && (forall i :: |base.log| <= i < |st.log| ==>
          st.log[i].sender == (if (i - |base.log|) % 2 == 0 then User else Ai))
    && (st.loading <==> (|st.log| - |base.log|) % 2 == 1)
  }

  /** The three things an event can do: nothing; accept a submission while
      idle, appending a user turn; or complete the request in flight,
      appending an assistant turn. */
  ghost predicate OneStep(st: ChatState, r: ChatState) {
    || r == st
    || (!st.loading && r.loading && |r.log| == |st.log| + 1 && r.log[..|st.log|] == st.log
        && r.log[|st.log|].sender == User)
    || (st.loading && !r.loading && |r.log| == |st.log| + 1 && r.log[..|st.log|] == st.log
        && r.log[|st.log|].sender == Ai)
  }

  lemma StepCases(st: ChatState, e: Event)
    ensures OneStep(st, Step(st, e))
  {
    match e
    case Send(input, id, ts, flag, snap) =>
      var r := Submit(st, input, id, ts, SystemMessage(flag, snap)).state;
      if Trim(input) != "" && !st.loading {
        assert r.log == st.log + [Message(id, Trim(input), User, ts)];
        assert r.log[..|st.log|] == st.log;
      }
    case Receive(o, id, ts) =>
      if st.loading {
        var r := Complete(st, o, id, ts);
        assert r.log[..|st.log|] == st.log;
      }
  }

  lemma OneStepAlternating(base: ChatState, st: ChatState, r: ChatState)
    requires Alternating(base, st) && OneStep(st, r)
    ensures Alternating(base, r)
  {
    if r != st {
      var n, b := |st.log|, |base.log|;
      assert r.log[..n] == st.log;
      assert base.log <= r.log by {
        assert r.log[..b] == st.log[..b];
      }
      forall i | b <= i < |r.log|
        ensures r.log[i].sender == (if (i - b) % 2 == 0 then User else Ai)
      {
        if i < n {
          assert r.log[i] == st.log[..n][i];
        }
      }
    }
  }

  /** From an idle state, the engine never has two requests in flight: each
      accepted submission is answered by exactly one assistant turn before
      the next submission is accepted. */
  lemma {:induction false} RunAlternates(base: ChatState, st: ChatState, es: seq<Event>)
    requires Alternating(base, st)
    ensures Alternating(base, Run(st, es))
    decreases |es|
  {
    if |es| > 0 {
      StepCases(st, es[0]);
      OneStepAlternating(base, st, Step(st, es[0]));
      RunAlternates(base, Step(st, es[0]), es[1..]);
    }
  }

  lemma RunFromIdleAlternates(st: ChatState, es: seq<Event>)
    requires !st.loading
    ensures Alternating(st, Run(st, es))
  {
    assert Alternating(st, st);
    RunAlternates(st, st, es);
  }

  /* ---------------------------------------------------------------------- */
  /*  Scenarios                                                              */
  /* ---------------------------------------------------------------------- */

  /** Sending "Hi" from an empty chat with personal data off: one user turn
      is logged and the request carries only the fixed instruction and the
      new turn, with no conversation id. */
  lemma ScenarioHelloRequest(snap: Snapshot)
    ensures var sub := Submit(Initial, "Hi", "1", "t1", SystemMessage(false, snap));
      && sub.state == ChatState([Message("1", "Hi", User, "t1")], true, None)
      && sub.request.Some?
      && |sub.request.value.messages| == 2
      && sub.request.value.messages[0] == WireMessage(SystemRole, BaseInstruction)
      && sub.request.value.messages[1] == WireMessage(UserRole, "Hi")
      && sub.request.value.conversationId == None
  {
    assert Trim("Hi") == "Hi" by {
      assert !IsWhitespace('H') && !IsWhitespace('i');
      TrimKeeps("Hi");
    }
    var s1 := Submit(Initial, "Hi", "1", "t1", SystemMessage(false, snap)).state;
    assert s1.log == [] + [Message("1", "Hi", User, "t1")];
  }

  /** The answer "Hello!" to that request, carrying the server's id: the log
      holds exactly the two turns, the guard is cleared and the id adopted. */
  lemma ScenarioHelloReply()
    ensures Complete(ChatState([Message("1", "Hi", User, "t1")], true, None), Reply(Some("c-1"), "Hello!"), "2", "t2")
         == ChatState([Message("1", "Hi", User, "t1"), Message("2", "Hello!", Ai, "t2")], false, Some("c-1"))
  {
  }

  /** A transport failure leaves the user's turn and the fixed apology, and
      clears the guard. */
  lemma ScenarioFailure(st: ChatState, input: string, system: WireMessage)
    requires !st.loading && Trim(input) != ""
    ensures var s1 := Submit(st, input, "1", "t1", system).state;
      var s2 := Complete(s1, Thrown(None), "2", "t2");
      && s2.log == st.log + [Message("1", Trim(input), User, "t1")] + [Message("2", ApologyReply, Ai, "t2")]
      && !s2.loading
      && s2.conversationId == st.conversationId
  {
  }

  /** A body whose shape test throws after its id was read: the turn is the
      fixed apology, yet the id is adopted when none was held. */
  lemma ScenarioThrownAfterId(log: seq<Message>)
    ensures Complete(ChatState(log, true, None), Thrown(Some("c")), "2", "t2")
         == ChatState(log + [Message("2", ApologyReply, Ai, "t2")], false, Some("c"))
  {
  }

  /** A second submission before the first completes is dropped. */
  lemma ScenarioDoubleSend(st: ChatState, a: string, b: string, system: WireMessage)
    requires !st.loading && Trim(a) != ""
    ensures var s1 := Submit(st, a, "1", "t1", system).state;
      var s2 := Submit(s1, b, "2", "t2", system);
      && s2.state == s1 && s2.request == None
      && |s1.log| == |st.log| + 1
  {
  }
}
