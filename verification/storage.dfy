/** Persistence of the conversation in local storage: the message log under
    one key and the conversation id under another. The log is written as a
    self-delimiting text in which every field is prefixed by its length; it
    stands in for the JSON text and has the property the engine relies on,
    that decoding what was encoded gives back the same log. */
module Storage {
  import opened Wrappers
  import opened Text
  import opened Chat

  type Store = map<string, string>

  const MessagesKey := "aiChatMessages"
  const ConversationKey := "aiConversationId"

  /* ---------------------------------------------------------------------- */
  /*  Codec                                                                  */
  /* ---------------------------------------------------------------------- */

  /** A field as its length, a colon, and its text. */
  function EncodeField(s: string): string {
    NatToString(|s|) + ":" + s
  }

  function SenderTag(s: Sender): string {
    if s == User then "user" else "ai"
  }

  function TagSender(t: string): (r: Option<Sender>)
    ensures r.Some? ==> SenderTag(r.value) == t
  {
    if t == "user" then Some(User) else if t == "ai" then Some(Ai) else None
  }

  function EncodeMessage(m: Message): string {
    EncodeField(m.id) + EncodeField(m.content) + EncodeField(SenderTag(m.sender)) + EncodeField(m.timestamp)
  }

  function EncodeMessages(log: seq<Message>): string
    decreases |log|
  {
    if |log| == 0 then "" else EncodeMessage(log[0]) + EncodeMessages(log[1..])
  }

  /** The stored text of a log; never empty, like the JSON of an array. */
  function EncodeLog(log: seq<Message>): (r: string)
    ensures |r| >= 2
  {
    "[" + EncodeMessages(log) + "]"
  }

  /** The leading run of digits of `s`, and what follows it. */
  function ReadDigits(s: string): (r: (string, string))
    ensures AllDigits(r.0) && r.0 + r.1 == s
    ensures |r.1| > 0 ==> !IsDigit(r.1[0])
    decreases |s|
  {
    if |s| > 0 && IsDigit(s[0]) then
      var (d, rest) := ReadDigits(s[1..]);
      assert [s[0]] + d + rest == s;
      ([s[0]] + d, rest)
    else ("", s)
  }

  /** Reads one length-prefixed field; what remains is strictly shorter. */
  function ParseField(s: string): (r: Option<(string, string)>)
    ensures r.Some? ==> |r.value.1| < |s|
  {
    var (digits, rest) := ReadDigits(s);
    if |digits| == 0 || |rest| == 0 || rest[0] != ':' then None
    else
      var n := DigitsValue(digits);
      if n > |rest| - 1 then None else Some((rest[1..1 + n], rest[1 + n..]))
  }

  function ParseMessage(s: string): (r: Option<(Message, string)>)
    ensures r.Some? ==> |r.value.1| < |s|
  {
    var f1 :- ParseField(s);
    var f2 :- ParseField(f1.1);
    var f3 :- ParseField(f2.1);
    var f4 :- ParseField(f3.1);
    var sender :- TagSender(f3.0);
    Some((Message(f1.0, f2.0, sender, f4.0), f4.1))
  }

  function ParseMessages(s: string): Option<seq<Message>>
    decreases |s|
  {
    if |s| == 0 then Some([])
    else
      var first :- ParseMessage(s);
      var rest :- ParseMessages(first.1);
      Some([first.0] + rest)
  }

  /** Reads a stored log back; `None` for text that is not one. */
  function DecodeLog(s: string): Option<seq<Message>> {
    if |s| >= 2 && s[0] == '[' && s[|s| - 1] == ']' then ParseMessages(s[1..|s| - 1]) else None
  }

  lemma {:induction false} ReadDigitsConcat(d: string, t: string)
    requires AllDigits(d)
    requires |t| > 0 && !IsDigit(t[0])
    ensures ReadDigits(d + t) == (d, t)
    decreases |d|
  {
    if |d| == 0 {
      assert d + t == t;
    } else {
      assert (d + t)[1..] == d[1..] + t;
      ReadDigitsConcat(d[1..], t);
      assert [d[0]] + d[1..] == d;
    }
  }

  lemma ParseEncodeField(x: string, rest: string)
    ensures ParseField(EncodeField(x) + rest) == Some((x, rest))
  {
    var digits := NatToString(|x|);
    var t := ":" + x + rest;
    assert EncodeField(x) + rest == digits + t;
    ReadDigitsConcat(digits, t);
    assert t[1..1 + |x|] == x;
    assert t[1 + |x|..] == rest;
  }

  lemma ParseEncodeMessage(m: Message, rest: string)
    ensures ParseMessage(EncodeMessage(m) + rest) == Some((m, rest))
  {
    var a, b, c, d := EncodeField(m.id), EncodeField(m.content),
                      EncodeField(SenderTag(m.sender)), EncodeField(m.timestamp);
    assert EncodeMessage(m) + rest == a + (b + (c + (d + rest)));
    ParseEncodeField(m.id, b + (c + (d + rest)));
    ParseEncodeField(m.content, c + (d + rest));
    ParseEncodeField(SenderTag(m.sender), d + rest);
    ParseEncodeField(m.timestamp, rest);
  }

  lemma {:induction false} ParseEncodeMessages(log: seq<Message>)
    ensures ParseMessages(EncodeMessages(log)) == Some(log)
    decreases |log|
  {
    if |log| > 0 {
      var s := EncodeMessages(log);
      ParseEncodeMessage(log[0], EncodeMessages(log[1..]));
      ParseEncodeMessages(log[1..]);
      assert |EncodeMessage(log[0])| > 0 by {
        assert |EncodeField(log[0].id)| > 0;
      }
      assert [log[0]] + log[1..] == log;
    }
  }

  /** Decoding a stored log gives back exactly the log that was stored. */
  lemma DecodeEncodeLog(log: seq<Message>)
    ensures DecodeLog(EncodeLog(log)) == Some(log)
  {
    var s := EncodeLog(log);
    assert s[1..|s| - 1] == EncodeMessages(log);
    ParseEncodeMessages(log);
  }

  /* ---------------------------------------------------------------------- */
  /*  Load and save                                                          */
  /* ---------------------------------------------------------------------- */

  /** The log read at start-up: the stored one when present, non-empty and
      readable; otherwise the initial empty log. */
  function LoadLog(store: Store): (r: seq<Message>)
    ensures MessagesKey !in store || store[MessagesKey] == "" ==> r == []
    ensures MessagesKey in store && store[MessagesKey] != "" ==>
      r == DecodeLog(store[MessagesKey]).GetOr([])
  {
    if MessagesKey in store && store[MessagesKey] != "" then
      match DecodeLog(store[MessagesKey])
      case Some(log) => log
      case None => []
    else []
  }

  /** The id read at start-up: adopted only when stored and non-empty. */
  function LoadId(store: Store): (r: Option<string>)
    ensures r.Some? <==> ConversationKey in store && store[ConversationKey] != ""
    ensures r.Some? ==> Held(r) && r.value == store[ConversationKey]
  {
    if ConversationKey in store && store[ConversationKey] != "" then Some(store[ConversationKey]) else None
  }

  /** The state right after the load effect: nothing in flight, an empty
      log when none is stored, and any id it holds non-empty. */
  function Load(store: Store): (r: ChatState)
    ensures !r.loading
    ensures MessagesKey !in store ==> r.log == []
    ensures r.conversationId.Some? ==> Held(r.conversationId)
  {
    ChatState(LoadLog(store), false, LoadId(store))
  }

  /** The save effect for the log: overwrites the log key, nothing else. */
  function SaveLog(store: Store, log: seq<Message>): (r: Store)
    ensures MessagesKey in r && r[MessagesKey] == EncodeLog(log)
    ensures r.Keys == store.Keys + {MessagesKey}
    ensures forall k :: k in store && k != MessagesKey ==> r[k] == store[k]
  {
    store[MessagesKey := EncodeLog(log)]
  }

  /** The save effect for the id: writes it only when one is held, and
      never removes a stored id. */
  function SaveId(store: Store, id: Option<string>): (r: Store)
    ensures Held(id) ==> ConversationKey in r && r[ConversationKey] == id.value
    ensures !Held(id) ==> r == store
    ensures store.Keys <= r.Keys
    ensures forall k :: k in store && k != ConversationKey ==> r[k] == store[k]
  {
    if Held(id) then store[ConversationKey := id.value] else store
  }

  /** Saving a log and loading it again gives back the log. */
  lemma LoadSaveLog(store: Store, log: seq<Message>)
    ensures LoadLog(SaveLog(store, log)) == log
  {
    DecodeEncodeLog(log);
  }

  /** A held id that was saved is what the next load adopts; saving no id
      leaves what a load adopts as it was. */
  lemma LoadSaveId(store: Store, id: Option<string>)
    ensures Held(id) ==> LoadId(SaveId(store, id)) == id
    ensures !Held(id) ==> LoadId(SaveId(store, id)) == LoadId(store)
  {
  }

  /** Saving the whole conversation and loading it again restores the log
      and, when one is held, the id. */
  lemma LoadSaveRoundTrip(store: Store, st: ChatState)
    ensures Load(SaveId(SaveLog(store, st.log), st.conversationId)).log == st.log
    ensures Held(st.conversationId) ==>
      Load(SaveId(SaveLog(store, st.log), st.conversationId)).conversationId == st.conversationId
  {
    var s1 := SaveLog(store, st.log);
    var s2 := SaveId(s1, st.conversationId);
    assert MessagesKey in s2 && s2[MessagesKey] == s1[MessagesKey];
    DecodeEncodeLog(st.log);
  }

  /** The component after mounting, and the storage once the effects of
      the first renders have run. */
  datatype Mounted = Mounted(state: ChatState, store: Store)

  /** Mounting: the load effect reads storage; the save effects of the first
      render write the initial empty log and skip the absent id; once the
      loaded values are in state, the save effects write them back. */
  function Mount(store: Store): (r: Mounted)
    ensures r.state == Load(store)
    ensures MessagesKey in r.store && r.store[MessagesKey] == EncodeLog(r.state.log)
    ensures Load(r.store) == r.state
  {
    var loaded := Load(store);
    var first := SaveLog(store, []);
    var settled := SaveId(SaveLog(first, loaded.log), loaded.conversationId);
    DecodeEncodeLog(loaded.log);
    assert settled[MessagesKey] == EncodeLog(loaded.log);
    Mounted(loaded, settled)
  }

  /** A stored log that cannot be read is overwritten by the empty log at
      mount time; the stored id is never removed. */
  lemma MountDiscardsUnreadable(store: Store)
    requires MessagesKey in store && DecodeLog(store[MessagesKey]).None?
    ensures Mount(store).state.log == []
    ensures Mount(store).store[MessagesKey] == EncodeLog([])
  {
  }

  /** Mounting writes a stored id back unchanged. */
  lemma MountKeepsId(store: Store)
    ensures ConversationKey in store ==>
      ConversationKey in Mount(store).store && Mount(store).store[ConversationKey] == store[ConversationKey]
  {
  }
}
