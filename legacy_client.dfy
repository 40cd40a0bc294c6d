/** The first, legacy client of the Touch Portal plugin API
    (TouchPortal-API/TouchPortalAPI/__init__.py).

    The legacy client reads one byte at a time until a newline, keeps a dict of the
    actions held down, and caches the states and settings it has sent so that an
    unchanged value is not sent twice.  Every operation is a method of `Client`
    that changes those fields in place, proved to act as a step function on a
    snapshot `S`; the lemmas in `LegacyClientProperties` state what the steps
    promise.

    The socket is two byte sequences: `incoming`, the bytes the peer has still to
    deliver, and `wire`, the bytes written so far.  JSON serialization is the
    function `encode`, given when the client is built; decoding happens before
    `OnReceive`, which takes the decoded message.  Handler dispatch is the
    sequence `emitted`. */
module LegacyClient {
  import opened Outcomes
  import opened PyValue
  import opened Framing
  import RuntimeClient

  const TPHOST := "127.0.0.1"
  const TPPORT: nat := 12136

  /** One `emit(name, client, data)` to the registered handlers. */
  datatype Event = Event(name: Value, data: Value)

  /** A snapshot of the client: the bytes still to be received, the bytes written, the
      messages sent, both caches, the held action ids (as dict keys) and the events
      emitted. */
  datatype S = S(incoming: seq<byte>, wire: seq<byte>, sent: seq<Value>,
                 states: seq<(string, Value)>, settings: seq<(string, Value)>,
                 held: set<Value>, emitted: seq<Event>)

  // ---------------------------------------------------------------------------
  // Reading

  /** `__buffered_readLine`: the bytes before the first newline, which is consumed
      and not returned.  Without a newline every byte is consumed and there is no
      line (the source then waits forever; see README). */
  function ReadLineStep(src: seq<byte>): (r: (seq<byte>, Option<seq<byte>>))
    ensures r.1.Some? ==> src == r.1.value + [LF] + r.0 && LF !in r.1.value
    ensures r.1.None? ==> LF !in src && r.0 == []
  {
    FindLFFirst(src);
    var i := FindLF(src);
    if i < 0 then ([], None)
    else
      assert src == src[..i] + [LF] + src[i + 1..];
      (src[i + 1..], Some(src[..i]))
  }

  // ---------------------------------------------------------------------------
  // Receiving

  /** The held-action bookkeeping of `__onReceiveCallback`, inside its `try`: a
      missing key is a `KeyError` that is caught, and so is releasing an action that
      was not held; an unhashable action id raises `TypeError`, which is not. */
  function HeldStep(held: set<Value>, es: seq<(Key, Value)>): (set<Value>, Outcome) {
    match Lookup(es, SKey("type"))
    case None => (held, Done)
    case Some(t) =>
      if !PyEq(t, Str("down")) && !PyEq(t, Str("up")) then (held, Done)
      else match Lookup(es, SKey("actionId"))
        case None => (held, Done)
        case Some(aid) =>
          if !Hashable(aid) then (held, Raised(TypeError))
          else if PyEq(t, Str("down")) then (held + {HashKey(aid)}, Done)
          else (held - {HashKey(aid)}, Done)
  }

  /** `__onReceiveCallback` on the decoded message: the held actions are updated, then
      the message is emitted under its `type`. */
  function OnReceiveStep(s: S, data: Value): (S, Outcome) {
    if !data.Dict? then (s, Raised(TypeError))
    else
      var (held, o) := HeldStep(s.held, data.entries);
      if o.Raised? then (s, o)
      else match Lookup(data.entries, SKey("type"))
        case None => (s.(held := held), Raised(KeyError))
        case Some(t) => (s.(held := held, emitted := s.emitted + [Event(t, data)]), Done)
  }

  /** `isActionBeingHeld`. */
  function HeldQuery(held: set<Value>, actionId: Value): Result<bool> {
    if !Hashable(actionId) then Err(TypeError) else Ok(HashKey(actionId) in held)
  }

  // ---------------------------------------------------------------------------
  // Sending and the caches

  /** `send`: the encoded message and a newline go out on the socket. */
  function SendStep(enc: Value -> seq<byte>, s: S, data: Value): S {
    s.(wire := s.wire + enc(data) + [LF], sent := s.sent + [data])
  }

  /** `stateUpdate`: send and cache only a new id or a changed value. */
  function StateUpdateStep(enc: Value -> seq<byte>, s: S, id: string, value: Value): S {
    if RuntimeClient.Cached(s.states, id, value) then s
    else
      var s1 := SendStep(enc, s, RuntimeClient.Msg([("type", Str("stateUpdate")), ("id", Str(id)), ("value", value)]));
      s1.(states := Put(s1.states, id, value))
  }

  /** `createState`: nothing unless the id, the description and the value are all
      given and non-empty; a new id is created and cached, a known one updated. */
  function CreateStateStep(enc: Value -> seq<byte>, s: S, id: string, desc: Value, value: Value): S {
    if id == [] || desc == Null || desc == Str("") || value == Null || value == Str("") then s
    else if id !in KeysOf(s.states) then
      var s1 := SendStep(enc, s, RuntimeClient.Msg([("type", Str("createState")), ("id", Str(id)), ("desc", desc),
                                                     ("defaultValue", value)]));
      s1.(states := Put(s1.states, id, value))
    else StateUpdateStep(enc, s, id, value)
  }

  /** `removeState`: a cached id is removed from Touch Portal and from the cache; any
      other id raises. */
  function RemoveStateStep(enc: Value -> seq<byte>, s: S, id: string): (S, Outcome) {
    if id in KeysOf(s.states) then
      var s1 := SendStep(enc, s, RuntimeClient.Msg([("type", Str("removeState")), ("id", Str(id))]));
      (s1.(states := Delete(s1.states, id)), Done)
    else (s, Raised(GenericException(id + " Does not exist.")))
  }

  /** `str(type(v))`. */
  function TypeText(v: Value): string {
    match v
    case Null => "<class 'NoneType'>"
    case Bool(_) => "<class 'bool'>"
    case Int(_) => "<class 'int'>"
    case Float(_) => "<class 'float'>"
    case Str(_) => "<class 'str'>"
    case List(_) => "<class 'list'>"
    case Dict(_) => "<class 'dict'>"
  }

  /** `choiceUpdate` and `choiceUpdateSpecific` (with an instance id): the values must
      be a list. */
  function ChoiceUpdateStep(enc: Value -> seq<byte>, s: S, id: string, values: Value, instanceId: Option<Value>): (S, Outcome) {
    if !values.List? then (s, Raised(GenericException("values argument needs to be a list not a " + TypeText(values))))
    else
      var fields := match instanceId
        case None => [("type", Str("choiceUpdate")), ("id", Str(id)), ("value", values)]
        case Some(inst) => [("type", Str("choiceUpdate")), ("id", Str(id)), ("instanceId", inst), ("value", values)];
      (SendStep(enc, s, RuntimeClient.Msg(fields)), Done)
  }

  /** `settingUpdate`: send and cache only a new name or a changed value. */
  function SettingUpdateStep(enc: Value -> seq<byte>, s: S, name: string, value: Value): S {
    if RuntimeClient.Cached(s.settings, name, value) then s
    else
      var s1 := SendStep(enc, s, RuntimeClient.Msg([("type", Str("settingUpdate")), ("name", Str(name)), ("value", value)]));
      s1.(settings := Put(s1.settings, name, value))
  }

  // ---------------------------------------------------------------------------
  // The client

  class Client {
    const pluginId: string
    /** `json.dumps` followed by UTF-8 encoding. */
    const encode: Value -> seq<byte>

    var incoming: seq<byte>
    var wire: seq<byte>
    var sent: seq<Value>
    var currentStates: seq<(string, Value)>
    var currentSettings: seq<(string, Value)>
    var heldActions: set<Value>
    var emitted: seq<Event>

    function Snap(): S
      reads this
    {
      S(incoming, wire, sent, currentStates, currentSettings, heldActions, emitted)
    }

    /** A client whose peer will deliver `incoming`. */
    constructor (pluginId: string, encode: Value -> seq<byte>, incoming: seq<byte>)
      ensures this.pluginId == pluginId && this.encode == encode
      ensures Snap() == S(incoming, [], [], [], [], {}, [])
    {
      this.pluginId := pluginId;
      this.encode := encode;
      this.incoming := incoming;
      wire := [];
      sent := [];
      currentStates := [];
      currentSettings := [];
      heldActions := {};
      emitted := [];
    }

    /** Receives one byte at a time until a newline. */
    method ReadLine() returns (line: Option<seq<byte>>)
      modifies this
      ensures (incoming, line) == ReadLineStep(old(incoming))
      ensures Snap() == old(Snap()).(incoming := incoming)
    {
      var acc: seq<byte> := [];
      ghost var src := incoming;
      while incoming != [] && incoming[0] != LF
        invariant src == acc + incoming
        invariant LF !in acc
        invariant Snap() == old(Snap()).(incoming := incoming)
        decreases |incoming|
      {
        acc := acc + [incoming[0]];
        incoming := incoming[1..];
      }
      if incoming == [] {
        line := None;
      } else {
        incoming := incoming[1..];
        line := Some(acc);
        ReadLineUnique(src, acc, incoming);
      }
    }

    method OnReceive(data: Value) returns (o: Outcome)
      modifies this
      ensures (Snap(), o) == OnReceiveStep(old(Snap()), data)
    {
      if !data.Dict? {
        return Raised(TypeError);
      }
      var held;
      held, o := HeldUpdate(data.entries);
      if o.Raised? {
        return;
      }
      heldActions := held;
      var t := Lookup(data.entries, SKey("type"));
      if t.None? {
        return Raised(KeyError);
      }
      emitted := emitted + [Event(t.value, data)];
    }

    /** The `try` block of `__onReceiveCallback`, on the current held actions. */
    method HeldUpdate(es: seq<(Key, Value)>) returns (held: set<Value>, o: Outcome)
      ensures (held, o) == HeldStep(heldActions, es)
    {
      held, o := heldActions, Done;
      var t := Lookup(es, SKey("type"));
      if t.None? || (!PyEq(t.value, Str("down")) && !PyEq(t.value, Str("up"))) {
        return;
      }
      var aid := Lookup(es, SKey("actionId"));
      if aid.None? {
        return;
      }
      if !Hashable(aid.value) {
        o := Raised(TypeError);
      } else if PyEq(t.value, Str("down")) {
        held := held + {HashKey(aid.value)};
      } else {
        held := held - {HashKey(aid.value)};
      }
    }

    function IsActionBeingHeld(actionId: Value): (r: Result<bool>)
      reads this
      ensures r == HeldQuery(heldActions, actionId)
    {
      if !Hashable(actionId) then Err(TypeError) else Ok(HashKey(actionId) in heldActions)
    }

    method Send(data: Value)
      modifies this
      ensures Snap() == SendStep(encode, old(Snap()), data)
    {
      wire := wire + encode(data) + [LF];
      sent := sent + [data];
    }

    method StateUpdate(id: string, value: Value)
      modifies this
      ensures Snap() == StateUpdateStep(encode, old(Snap()), id, value)
    {
      if !RuntimeClient.Cached(currentStates, id, value) {
        Send(RuntimeClient.Msg([("type", Str("stateUpdate")), ("id", Str(id)), ("value", value)]));
        currentStates := Put(currentStates, id, value);
      }
    }

    method CreateState(id: string, desc: Value, value: Value)
      modifies this
      ensures Snap() == CreateStateStep(encode, old(Snap()), id, desc, value)
    {
      if id != [] && desc != Null && desc != Str("") && value != Null && value != Str("") {
        if id !in KeysOf(currentStates) {
          Send(RuntimeClient.Msg([("type", Str("createState")), ("id", Str(id)), ("desc", desc),
                                  ("defaultValue", value)]));
          currentStates := Put(currentStates, id, value);
        } else {
          StateUpdate(id, value);
        }
      }
    }

    method RemoveState(id: string) returns (o: Outcome)
      modifies this
      ensures (Snap(), o) == RemoveStateStep(encode, old(Snap()), id)
    {
      if id in KeysOf(currentStates) {
        Send(RuntimeClient.Msg([("type", Str("removeState")), ("id", Str(id))]));
        currentStates := Delete(currentStates, id);
        o := Done;
      } else {
        o := Raised(GenericException(id + " Does not exist."));
      }
    }

    method ChoiceUpdate(id: string, values: Value) returns (o: Outcome)
      modifies this
      ensures (Snap(), o) == ChoiceUpdateStep(encode, old(Snap()), id, values, None)
    {
      if values.List? {
        Send(RuntimeClient.Msg([("type", Str("choiceUpdate")), ("id", Str(id)), ("value", values)]));
        o := Done;
      } else {
        o := Raised(GenericException("values argument needs to be a list not a " + TypeText(values)));
      }
    }

    method ChoiceUpdateSpecific(id: string, values: Value, instanceId: Value) returns (o: Outcome)
      modifies this
      ensures (Snap(), o) == ChoiceUpdateStep(encode, old(Snap()), id, values, Some(instanceId))
    {
      if values.List? {
        Send(RuntimeClient.Msg([("type", Str("choiceUpdate")), ("id", Str(id)), ("instanceId", instanceId),
                                ("value", values)]));
        o := Done;
      } else {
        o := Raised(GenericException("values argument needs to be a list not a " + TypeText(values)));
      }
    }

    method SettingUpdate(name: string, value: Value)
      modifies this
      ensures Snap() == SettingUpdateStep(encode, old(Snap()), name, value)
    {
      if !RuntimeClient.Cached(currentSettings, name, value) {
        Send(RuntimeClient.Msg([("type", Str("settingUpdate")), ("name", Str(name)), ("value", value)]));
        currentSettings := Put(currentSettings, name, value);
      }
    }
  }

  /** The line read is the one `ReadLineStep` describes. */
  lemma ReadLineUnique(src: seq<byte>, line: seq<byte>, rest: seq<byte>)
    requires src == line + [LF] + rest && LF !in line
    ensures ReadLineStep(src) == (rest, Some(line))
  {
    FindLFAfterFrame(line, rest);
    assert src[..|line|] == line && src[|line| + 1..] == rest;
  }
}
