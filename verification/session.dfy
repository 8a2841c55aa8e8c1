/** The chat engine together with its storage: every change of the log is
    saved, and every change of the id is saved when an id is held. The
    result is that a restart at any point finds what the engine held. */
module Session {
  import opened Wrappers
  import opened Chat
  import opened Storage

  datatype Session = Session(chat: ChatState, store: Store)

  function Start(store: Store): Session {
    var m := Mount(store);
    Session(m.state, m.store)
  }

  /** The save effects after a state change: each runs only when its value changed. */
  function Persist(store: Store, before: ChatState, after: ChatState): (r: Store)
    ensures after.log != before.log ==> MessagesKey in r && r[MessagesKey] == EncodeLog(after.log)
    ensures after.log == before.log && MessagesKey in store ==>
      MessagesKey in r && r[MessagesKey] == store[MessagesKey]
    ensures after.conversationId != before.conversationId && Held(after.conversationId) ==>
      LoadId(r) == after.conversationId
    ensures after.conversationId == before.conversationId ==> LoadId(r) == LoadId(store)
  {
    var s1 := if after.log != before.log then SaveLog(store, after.log) else store;
    assert LoadId(s1) == LoadId(store);
    if after.conversationId != before.conversationId then SaveId(s1, after.conversationId) else s1
  }

  function Advance(s: Session, e: Event): Session {
    var next := Step(s.chat, e);
    Session(next, Persist(s.store, s.chat, next))
  }

  function Replay(s: Session, es: seq<Event>): Session
    decreases |es|
  {
    if |es| == 0 then s else Replay(Advance(s, es[0]), es[1..])
  }

  /** Ids the engine can hold: none, or a non-empty one. */
  predicate IdShape(id: Option<string>) {
    id.None? || Held(id)
  }

  /** Storage agrees with the engine: the log key holds the encoded log and
      the id a load would adopt is the id held. */
  ghost predicate Consistent(s: Session) {
    && IdShape(s.chat.conversationId)
    && MessagesKey in s.store && s.store[MessagesKey] == EncodeLog(s.chat.log)
    && LoadId(s.store) == s.chat.conversationId
  }

  lemma StartConsistent(store: Store)
    ensures Consistent(Start(store))
  {
    var m := Mount(store);
    assert Load(m.store) == m.state;
  }

  /** Only adoption changes the id, and it adopts a non-empty one. */
  lemma StepIdShape(st: ChatState, e: Event)
    requires IdShape(st.conversationId)
    ensures IdShape(Step(st, e).conversationId)
    ensures Step(st, e).conversationId != st.conversationId ==> Held(Step(st, e).conversationId)
  {
  }

  lemma AdvanceConsistent(s: Session, e: Event)
    requires Consistent(s)
    ensures Consistent(Advance(s, e))
  {
    StepIdShape(s.chat, e);
  }

  lemma {:induction false} ReplayConsistent(s: Session, es: seq<Event>)
    requires Consistent(s)
    ensures Consistent(Replay(s, es))
    decreases |es|
  {
    if |es| > 0 {
      AdvanceConsistent(s, es[0]);
      ReplayConsistent(Advance(s, es[0]), es[1..]);
    }
  }

  /** After any sequence of events from start-up, loading the storage again
      restores exactly the log and the id the engine holds. */
  lemma RestartRestores(store: Store, es: seq<Event>)
    ensures var s := Replay(Start(store), es);
      Load(s.store).log == s.chat.log && Load(s.store).conversationId == s.chat.conversationId
  {
    StartConsistent(store);
    ReplayConsistent(Start(store), es);
    var s := Replay(Start(store), es);
    DecodeEncodeLog(s.chat.log);
  }
}
