/** What the steps of the legacy client promise: held actions follow the last
    press or release received, the caches suppress repeated values, removal is
    only of cached ids, and the bytes written are the sent messages one per line. */
module LegacyClientProperties {
  import opened Outcomes
  import opened PyValue
  import opened Framing
  import RuntimeClient
  import opened LegacyClient

  // ---------------------------------------------------------------------------
  // Held actions

  /** Whether message `m` presses (`Some(true)`) or releases (`Some(false)`) the
      action whose dict key is `key`. */
  function Press(m: Value, key: Value): Option<bool> {
    if !m.Dict? then None
    else match (Lookup(m.entries, SKey("type")), Lookup(m.entries, SKey("actionId")))
      case (Some(t), Some(aid)) =>
        if Hashable(aid) && HashKey(aid) == key && (PyEq(t, Str("down")) || PyEq(t, Str("up")))
        then Some(PyEq(t, Str("down"))) else None
      case _ => None
  }

  /** The last press or release of `key` among `msgs`. */
  function LastPress(msgs: seq<Value>, key: Value): Option<bool> {
    if msgs == [] then None
    else
      var p := Press(msgs[|msgs| - 1], key);
      if p.Some? then p else LastPress(msgs[..|msgs| - 1], key)
  }

  /** The messages `msgs` handled in the order they arrived, up to the first one that
      raises. */
  function ReceiveAll(s: S, msgs: seq<Value>): (S, Outcome) {
    if msgs == [] then (s, Done)
    else
      var (s1, o1) := ReceiveAll(s, msgs[..|msgs| - 1]);
      if o1.Raised? then (s1, o1) else OnReceiveStep(s1, msgs[|msgs| - 1])
  }

  /** One message: a press adds the key, a release removes it, anything else leaves
      it as it was. */
  lemma OnReceiveHeld(s: S, m: Value, key: Value)
    ensures OnReceiveStep(s, m).1.Done? ==>
      (key in OnReceiveStep(s, m).0.held <==> Press(m, key) == Some(true) || (Press(m, key).None? && key in s.held))
  {
  }

  /** After a run of messages handled without error, an action is held exactly when
      its last press or release was a press, or it had none and was held before. */
  lemma {:induction false} HeldFollowsLastPress(s: S, msgs: seq<Value>, key: Value)
    ensures ReceiveAll(s, msgs).1.Done? ==>
      (key in ReceiveAll(s, msgs).0.held
       <==> LastPress(msgs, key) == Some(true) || (LastPress(msgs, key).None? && key in s.held))
    decreases |msgs|
  {
    if msgs != [] {
      var (s1, o1) := ReceiveAll(s, msgs[..|msgs| - 1]);
      HeldFollowsLastPress(s, msgs[..|msgs| - 1], key);
      if o1.Done? {
        OnReceiveHeld(s1, msgs[|msgs| - 1], key);
      }
    }
  }

  /** The message Touch Portal sends when action `a` is pressed (`down`) or released. */
  function PressMessage(kind: string, a: Value): Value {
    Dict([(SKey("type"), Str(kind)), (SKey("actionId"), a)])
  }

  /** `isActionBeingHeld` answers true after a `down` and false after an `up` of the
      same action; the answer for any other action is unchanged, and each message is
      emitted under its type. */
  lemma PressThenQuery(s: S, kind: string, a: Value, b: Value)
    requires kind == "down" || kind == "up"
    requires Hashable(a) && Hashable(b)
    ensures var (s1, o) := OnReceiveStep(s, PressMessage(kind, a));
      o == Done
      && HeldQuery(s1.held, a) == Ok(kind == "down")
      && (!PyEq(a, b) ==> HeldQuery(s1.held, b) == HeldQuery(s.held, b))
      && s1.emitted == s.emitted + [Event(Str(kind), PressMessage(kind, a))]
  {
    var es := PressMessage(kind, a).entries;
    assert Lookup(es, SKey("type")) == Some(Str(kind));
    assert Lookup(es, SKey("actionId")) == Some(a);
    assert PyEq(Str(kind), Str("down")) <==> kind == "down";
    assert HeldStep(s.held, es)
        == (if kind == "down" then s.held + {HashKey(a)} else s.held - {HashKey(a)}, Done);
    HashKeyIsEquality(a, b);
  }

  /** A message without a type raises `KeyError` and emits nothing; a message that is
      not a dict raises `TypeError`. */
  lemma OnReceiveErrors(s: S, m: Value)
    ensures !m.Dict? ==> OnReceiveStep(s, m) == (s, Raised(TypeError))
    ensures m.Dict? && Lookup(m.entries, SKey("type")).None? ==>
      OnReceiveStep(s, m) == (s, Raised(KeyError))
  {
  }

  // ---------------------------------------------------------------------------
  // The caches

  /** `stateUpdate` sends exactly when the id is new or its value changed, and leaves
      the value cached; other ids keep theirs. */
  lemma StateUpdateSpec(enc: Value -> seq<byte>, s: S, id: string, value: Value, other: string)
    ensures var s1 := StateUpdateStep(enc, s, id, value);
      s1.sent == s.sent + (if RuntimeClient.Cached(s.states, id, value) then []
                           else [RuntimeClient.Msg([("type", Str("stateUpdate")), ("id", Str(id)), ("value", value)])])
      && RuntimeClient.Cached(s1.states, id, value)
      && (other != id ==> Lookup(s1.states, other) == Lookup(s.states, other))
  {
    PutSpec(s.states, id, value, other);
    PyEqRefl(value);
  }

  /** A second `stateUpdate` with the same value changes nothing. */
  lemma StateUpdateIdempotent(enc: Value -> seq<byte>, s: S, id: string, value: Value)
    ensures StateUpdateStep(enc, StateUpdateStep(enc, s, id, value), id, value) == StateUpdateStep(enc, s, id, value)
  {
    StateUpdateSpec(enc, s, id, value, id);
  }

  /** `settingUpdate` sends exactly when the name is new or its value changed, and
      leaves the value cached; other names keep theirs. */
  lemma SettingUpdateSpec(enc: Value -> seq<byte>, s: S, name: string, value: Value, other: string)
    ensures var s1 := SettingUpdateStep(enc, s, name, value);
      s1.sent == s.sent + (if RuntimeClient.Cached(s.settings, name, value) then []
                           else [RuntimeClient.Msg([("type", Str("settingUpdate")), ("name", Str(name)), ("value", value)])])
      && RuntimeClient.Cached(s1.settings, name, value)
      && (other != name ==> Lookup(s1.settings, other) == Lookup(s.settings, other))
  {
    PutSpec(s.settings, name, value, other);
    PyEqRefl(value);
  }

  /** A second `settingUpdate` with the same value changes nothing. */
  lemma SettingUpdateIdempotent(enc: Value -> seq<byte>, s: S, name: string, value: Value)
    ensures SettingUpdateStep(enc, SettingUpdateStep(enc, s, name, value), name, value) == SettingUpdateStep(enc, s, name, value)
  {
    SettingUpdateSpec(enc, s, name, value, name);
  }

  /** `createState` with an empty id, description or value does nothing; otherwise the
      value ends up cached and other ids keep their values.  A new id sends
      `createState`; a known one defers to `stateUpdate`, which sends only a changed
      value. */
  lemma CreateStateSpec(enc: Value -> seq<byte>, s: S, id: string, desc: Value, value: Value, other: string)
    ensures id == [] || desc == Null || desc == Str("") || value == Null || value == Str("") ==>
      CreateStateStep(enc, s, id, desc, value) == s
    ensures !(id == [] || desc == Null || desc == Str("") || value == Null || value == Str("")) ==>
      var s1 := CreateStateStep(enc, s, id, desc, value);
      RuntimeClient.Cached(s1.states, id, value)
      && (other != id ==> Lookup(s1.states, other) == Lookup(s.states, other))
      && (id !in KeysOf(s.states) ==> s1.sent == s.sent + [RuntimeClient.Msg([("type", Str("createState")), ("id", Str(id)),
                                                                             ("desc", desc), ("defaultValue", value)])])
      && (id in KeysOf(s.states) ==>
            s1.sent == s.sent + (if RuntimeClient.Cached(s.states, id, value) then []
                                 else [RuntimeClient.Msg([("type", Str("stateUpdate")), ("id", Str(id)), ("value", value)])]))
  {
    PutSpec(s.states, id, value, other);
    StateUpdateSpec(enc, s, id, value, other);
    PyEqRefl(value);
  }

  /** `removeState` succeeds exactly for a cached id, which it then drops and reports;
      otherwise nothing changes. */
  lemma RemoveStateSpec(enc: Value -> seq<byte>, s: S, id: string, other: string)
    ensures var (s1, o) := RemoveStateStep(enc, s, id);
      (o.Done? <==> id in KeysOf(s.states))
      && (o.Raised? ==> s1 == s)
      && (o.Done? ==>
            Lookup(s1.states, id).None?
            && (other != id ==> Lookup(s1.states, other) == Lookup(s.states, other))
            && s1.sent == s.sent + [RuntimeClient.Msg([("type", Str("removeState")), ("id", Str(id))])])
  {
    DeleteSpec(s.states, id, other);
  }

  /** A state just created can be removed. */
  lemma CreateThenRemove(enc: Value -> seq<byte>, s: S, id: string, desc: Value, value: Value)
    requires id != [] && desc != Null && desc != Str("") && value != Null && value != Str("")
    ensures RemoveStateStep(enc, CreateStateStep(enc, s, id, desc, value), id).1 == Done
  {
    CreateStateSpec(enc, s, id, desc, value, id);
    LookupSpec(CreateStateStep(enc, s, id, desc, value).states, id);
  }

  /** `choiceUpdate` raises exactly when the values are not a list, and otherwise
      sends one `choiceUpdate` naming the id (and the instance, when given) with the
      values, leaving both caches and the held actions as they were. */
  lemma ChoiceUpdateSpec(enc: Value -> seq<byte>, s: S, id: string, values: Value, instanceId: Option<Value>)
    ensures var (s1, o) := ChoiceUpdateStep(enc, s, id, values, instanceId);
      (o.Raised? <==> !values.List?)
      && (o.Raised? ==> s1 == s)
      && (o.Done? ==>
            s1.sent == s.sent + [RuntimeClient.Msg(
              if instanceId.None? then [("type", Str("choiceUpdate")), ("id", Str(id)), ("value", values)]
              else [("type", Str("choiceUpdate")), ("id", Str(id)), ("instanceId", instanceId.value), ("value", values)])]
            && s1.states == s.states && s1.settings == s.settings && s1.held == s.held)
  {
  }

  // ---------------------------------------------------------------------------
  // The wire

  /** The encodings of the messages, in order. */
  function Encodings(enc: Value -> seq<byte>, ms: seq<Value>): (r: seq<seq<byte>>)
    ensures |r| == |ms|
    ensures forall k :: 0 <= k < |ms| ==> r[k] == enc(ms[k])
  {
    if ms == [] then [] else Encodings(enc, ms[..|ms| - 1]) + [enc(ms[|ms| - 1])]
  }

  /** The bytes written are the sent messages, each on its own line. */
  predicate WireFramed(enc: Value -> seq<byte>, s: S) {
    s.wire == Join(Encodings(enc, s.sent))
  }

  lemma {:induction false} JoinSnoc(fs: seq<seq<byte>>, f: seq<byte>)
    ensures Join(fs + [f]) == Join(fs) + f + [LF]
    decreases |fs|
  {
    if fs != [] {
      assert (fs + [f])[1..] == fs[1..] + [f];
      JoinSnoc(fs[1..], f);
    }
  }

  /** `send` keeps the wire framed. */
  lemma SendKeepsFramed(enc: Value -> seq<byte>, s: S, data: Value)
    requires WireFramed(enc, s)
    ensures WireFramed(enc, SendStep(enc, s, data))
  {
    var s1 := SendStep(enc, s, data);
    assert s1.sent[..|s1.sent| - 1] == s.sent;
    JoinSnoc(Encodings(enc, s.sent), enc(data));
  }

  /** Cutting a framed wire at its newlines gives back the encodings of the messages
      sent, as long as no encoding holds a newline (JSON escapes them). */
  lemma WireFramesAreMessages(enc: Value -> seq<byte>, s: S)
    requires WireFramed(enc, s)
    requires forall k :: 0 <= k < |s.sent| ==> LF !in enc(s.sent[k])
    ensures Frames(s.wire) == Encodings(enc, s.sent)
    ensures Rest(s.wire) == []
  {
    var fs := Encodings(enc, s.sent);
    assert Join(fs) + [] == s.wire;
    FramesOfJoin(fs, []);
  }

  /** What the legacy reader takes off a line written by `send` is the message's
      encoding. */
  lemma ReadBackSent(enc: Value -> seq<byte>, data: Value, rest: seq<byte>)
    requires LF !in enc(data)
    ensures ReadLineStep(enc(data) + [LF] + rest) == (rest, Some(enc(data)))
  {
    ReadLineUnique(enc(data) + [LF] + rest, enc(data), rest);
  }
}
