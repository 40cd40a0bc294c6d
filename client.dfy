/** The runtime client of the Touch Portal plugin API (TouchPortalAPI/client.py).

    The client keeps a receive buffer that is cut into newline-terminated JSON frames, a
    bounded send buffer guarded by a lock, a cache of the states and settings it has
    sent, and the set of actions that are currently held down.  Every operation is a
    method of `Client` that updates those fields in place; each method is proved to
    act exactly as a step function on a snapshot `S` of the client, and the lemmas
    below the class state what the steps promise.

    Sockets, the selector and the thread pool are not modelled: a receive is a
    `ReadResult` and a socket write a `WriteResult` handed to the method; the lock
    and the stop/data-ready events are booleans; handler dispatch is the ghost
    sequence `emitted`; JSON serialization is the function `encode`, given when the
    client is built. */
module RuntimeClient {
  import opened Outcomes
  import opened PyValue
  import opened Framing
  import opened Text

  /** Largest chunk taken from the socket by one receive. */
  const RCV_BUFFER_SZ: nat := 4096
  /** Capacity of the send buffer, `32**4`. */
  const SND_BUFFER_SZ: nat := 32 * 32 * 32 * 32

  const DEADLOCK_MSG := "Send buffer mutex deadlock, cannot continue."
  const PEER_CLOSED_MSG := "Peer closed the connection."

  /** What one non-blocking `recv` produced. */
  datatype ReadResult = Received(bytes: seq<byte>) | ReadBlocked | ReadError

  /** What one non-blocking `send` on the socket produced. */
  datatype WriteResult = Accepted(count: nat) | WriteBlocked | WriteError

  /** One `emit(name, data)` to the registered handlers. */
  datatype Event = Event(name: Value, data: Value)

  /** The constructor arguments that the operations consult. */
  datatype Config = Config(pluginId: string, autoClose: bool, checkPluginId: bool,
                           updateStatesOnBroadcast: bool)

  /** A snapshot of the client: the stop flag, the data-ready flag, the write lock,
      whether a socket is open, both byte buffers, the state and setting caches, the
      held actions, and (for the proofs) the events emitted and the messages queued. */
  datatype S = S(stopped: bool, dataReady: bool, locked: bool, connected: bool,
                 sendBuffer: seq<byte>, recvBuffer: seq<byte>,
                 states: seq<(string, Value)>, settings: seq<(string, Value)>,
                 held: set<Value>, emitted: seq<Event>, sent: seq<Value>)

  /** A JSON object with string keys, in the given key order. */
  function Msg(fields: seq<(string, Value)>): Value {
    Dict(seq(|fields|, i requires 0 <= i < |fields| => (SKey(fields[i].0), fields[i].1)))
  }

  function ShutdownMessage(): Value {
    Msg([("type", Str("closePlugin"))])
  }

  // ---------------------------------------------------------------------------
  // Steps

  /** `__emitEvent`: the typed event, then `any`. */
  function Emit(s: S, name: Value, data: Value): S {
    s.(emitted := s.emitted + [Event(name, data), Event(Str("any"), data)])
  }

  /** `__close`: stop, free the lock, drop unsent data, forget the socket. */
  function Closed(s: S): S {
    s.(stopped := true, locked := false, sendBuffer := [], connected := false)
  }

  /** `__die`: announce a shutdown to the handlers, then close. */
  function Died(s: S): S {
    Closed(Emit(s, Str("closePlugin"), ShutdownMessage()))
  }

  /** `__getWriteLock`: a lock nobody will release times out and kills the client; a
      stopped client gives the lock back at once. */
  function WriteLockStep(s: S): (S, Result<bool>) {
    if s.locked then (Died(s), Err(RuntimeError(DEADLOCK_MSG)))
    else if s.stopped then (s, Ok(false))
    else (s.(locked := true), Ok(true))
  }

  /** `send`: the capacity check uses `len` of the unserialized object, which raises
      TypeError, with the lock still held, for an object without a length. */
  function SendStep(enc: Value -> seq<byte>, s: S, data: Value): (S, Outcome) {
    var (s1, got) := WriteLockStep(s);
    if got.Err? then (s1, Raised(got.error))
    else if !got.value then (s1, Done)
    else match Len(data)
      case Err(e) => (s1, Raised(e))
      case Ok(n) =>
        if |s1.sendBuffer| + n > SND_BUFFER_SZ then (s1.(locked := false), Raised(ResourceWarning))
        else (s1.(sendBuffer := s1.sendBuffer + enc(data) + [LF], sent := s1.sent + [data],
                  locked := false, dataReady := true), Done)
  }

  /** `__write`: hand the buffer to the socket and drop the prefix it accepted. */
  function WriteStep(s: S, w: WriteResult): (S, Outcome)
    requires w.Accepted? ==> w.count <= |s.sendBuffer|
  {
    if !s.connected || s.sendBuffer == [] then (s, Done)
    else
      var (s1, got) := WriteLockStep(s);
      if got.Err? then (s1, Raised(got.error))
      else if !got.value then (s1, Done)
      else
        var s2 := if w.Accepted? then s1.(sendBuffer := s1.sendBuffer[w.count..]) else s1;
        var s3 := s2.(dataReady := s2.dataReady && s2.sendBuffer != [], locked := false);
        (s3, if w.WriteError? then Raised(OSError) else Done)
  }

  /** `__buffered_readLine`. */
  function ReadStep(s: S, r: ReadResult): (S, Result<seq<seq<byte>>>) {
    match r
    case ReadBlocked => (s, Ok([]))
    case ReadError => (s, Err(OSError))
    case Received(bytes) =>
      if bytes == [] then (s, Err(RuntimeError(PEER_CLOSED_MSG)))
      else
        var buf := s.recvBuffer + bytes;
        (s.(recvBuffer := Rest(buf)), Ok(Frames(buf)))
  }

  /** Sends `msg`; when that succeeds, the state cache is updated by `after`. */
  function SendThen(enc: Value -> seq<byte>, s: S, msg: Value, id: string, value: Value): (S, Outcome) {
    var (s1, o) := SendStep(enc, s, msg);
    if o.Raised? then (s1, o) else (s1.(states := Put(s1.states, id, value)), Done)
  }

  /** Whether the cache already holds a value equal to `value` under `id`. */
  predicate Cached(cache: seq<(string, Value)>, id: string, value: Value) {
    var c := Lookup(cache, id);
    c.Some? && PyEq(c.value, value)
  }

  /** `__stateUpdate`: send when forced, new or changed; cache the value in any case. */
  function StateUpdateStep(enc: Value -> seq<byte>, s: S, id: string, value: Value, forced: bool): (S, Outcome) {
    if id == [] then (s, Done)
    else if forced || !Cached(s.states, id, value) then
      SendThen(enc, s, Msg([("type", Str("stateUpdate")), ("id", Str(id)), ("value", value)]), id, value)
    else (s.(states := Put(s.states, id, value)), Done)
  }

  /** `createState`. */
  function CreateStateStep(enc: Value -> seq<byte>, s: S, id: string, desc: string, value: Value): (S, Outcome) {
    if id == [] || desc == [] || value == Null then (s, Done)
    else if id !in KeysOf(s.states) then
      SendThen(enc, s, Msg([("type", Str("createState")), ("id", Str(id)), ("desc", Str(desc)),
                            ("defaultValue", value)]), id, value)
    else StateUpdateStep(enc, s, id, value, false)
  }

  /** `removeState`. */
  function RemoveStateStep(enc: Value -> seq<byte>, s: S, id: string, validateExists: bool): (S, Outcome) {
    if id != [] && id in KeysOf(s.states) then
      var (s1, o) := SendStep(enc, s, Msg([("type", Str("removeState")), ("id", Str(id))]));
      if o.Raised? then (s1, o) else (s1.(states := Delete(s1.states, id)), Done)
    else if validateExists then (s, Raised(GenericException(id + " Does not exist.")))
    else (s, Done)
  }

  /** `choiceUpdate`. */
  function ChoiceUpdateStep(enc: Value -> seq<byte>, s: S, id: string, values: Value): (S, Outcome) {
    if id == [] then (s, Done)
    else if values.List? then SendStep(enc, s, Msg([("type", Str("choiceUpdate")), ("id", Str(id)), ("value", values)]))
    else (s, Raised(TypeError))
  }

  /** The guard of `settingUpdate` as written: `and` binds tighter than `or`, so an empty
      name skips the first test and looks itself up in the cache. */
  function SettingGuardAsWritten(cache: seq<(string, Value)>, name: string, value: Value): Result<bool> {
    if name != [] && name !in KeysOf(cache) then Ok(true)
    else match Lookup(cache, name)
      case None => Err(KeyError)
      case Some(v) => Ok(!PyEq(v, value))
  }

  /** The guard as `__stateUpdate` and the other cache methods write it: a non-empty
      name whose cached value is missing or different. */
  function SettingGuard(cache: seq<(string, Value)>, name: string, value: Value): (send: bool)
    ensures send <==> name != [] && !Cached(cache, name, value)
    ensures name != [] ==> SettingGuardAsWritten(cache, name, value) == Ok(send)
  {
    LookupSpec(cache, name);
    name != [] && !Cached(cache, name, value)
  }

  /** `settingUpdate`, with the guard of `SettingGuard`. */
  function SettingUpdateStep(enc: Value -> seq<byte>, s: S, name: string, value: Value): (S, Outcome) {
    if !SettingGuard(s.settings, name, value) then (s, Done)
    else
      var (s1, o) := SendStep(enc, s, Msg([("type", Str("settingUpdate")), ("name", Str(name)), ("value", value)]));
      if o.Raised? then (s1, o) else (s1.(settings := Put(s1.settings, name, value)), Done)
  }

  /** `str(v)` of a Python int or bool. */
  function IntText(v: Value): string
    requires v.Int? || v.Bool?
  {
    if v.Bool? then (if v.b then "True" else "False") else IntToString(v.i)
  }

  function IntOf(v: Value): int
    requires v.Int? || v.Bool?
  {
    if v.Bool? then (if v.b then 1 else 0) else v.i
  }

  /** The connector id Touch Portal expects: `pc_<pluginId>_<connectorId>_`. */
  function ConnectorFullId(pluginId: string, connectorId: string): string {
    "pc_" + pluginId + "_" + connectorId + "_"
  }

  /** `connectorUpdate`: a str id and an int (or bool) value in 0..100. */
  function ConnectorUpdateStep(enc: Value -> seq<byte>, cfg: Config, s: S, connectorId: Value,
                               connectorValue: Value): (S, Outcome) {
    if !connectorId.Str? then (s, Raised(TypeError))
    else if !IsA(connectorValue, TInt) then (s, Raised(TypeError))
    else if 0 <= IntOf(connectorValue) <= 100 then
      SendStep(enc, s, Msg([("type", Str("connectorUpdate")),
                            ("connectorId", Str(ConnectorFullId(cfg.pluginId, connectorId.s))),
                            ("value", Str(IntText(connectorValue)))]))
    else (s, Raised(TypeError))
  }

  /** `connect`, up to starting the event loop: `socketOpened` says whether the socket opened. */
  function ConnectStep(enc: Value -> seq<byte>, cfg: Config, s: S, socketOpened: bool): (S, Outcome) {
    if !s.stopped then (s, Done)
    else if !socketOpened then (s, Raised(OSError))
    else SendStep(enc, s.(connected := true, stopped := false), Msg([("type", Str("pair")), ("id", Str(cfg.pluginId))]))
  }

  /** `disconnect`. */
  function DisconnectStep(s: S): S {
    if !s.stopped then Closed(s) else s
  }

  /** The broadcast branch: every cached state is re-sent, in cache order. */
  function BroadcastStep(enc: Value -> seq<byte>, s: S, entries: seq<(string, Value)>): (S, Outcome)
    decreases |entries|
  {
    if entries == [] then (s, Done)
    else
      var (s1, o) := StateUpdateStep(enc, s, entries[0].0, entries[0].1, true);
      if o.Raised? then (s1, o) else BroadcastStep(enc, s1, entries[1..])
  }

  /** The bookkeeping of `__processMessage` for an accepted message of type `t`. */
  function BookkeepingStep(enc: Value -> seq<byte>, cfg: Config, s: S, t: Value, data: Value): (S, Outcome)
    requires data.Dict?
  {
    var aid := Get(data.entries, "actionId");
    if t == Str("closePlugin") then (if cfg.autoClose then Closed(s) else s, Done)
    else if t == Str("down") && Truthy(aid) then
      if Hashable(aid) then (s.(held := s.held + {HashKey(aid)}), Done) else (s, Raised(TypeError))
    else if t == Str("up") && Truthy(aid) then
      if !Hashable(aid) then (s, Raised(TypeError))
      else if HashKey(aid) !in s.held then (s, Raised(KeyError))
      else (s.(held := s.held - {HashKey(aid)}), Done)
    else if t == Str("broadcast") && cfg.updateStatesOnBroadcast then BroadcastStep(enc, s, s.states)
    else (s, Done)
  }

  /** Whether `__processMessage` drops `data` for carrying another plugin's id. */
  predicate ForeignPlugin(cfg: Config, data: Value)
    requires data.Dict?
  {
    var pid := Get(data.entries, "pluginId");
    cfg.checkPluginId && Truthy(pid) && pid != Str(cfg.pluginId)
  }

  /** `__processMessage` on the decoded message. */
  function ProcessStep(enc: Value -> seq<byte>, cfg: Config, s: S, data: Value): (S, Outcome) {
    if !Truthy(data) then (s, Done)
    else match Field(data, "type")
      case Err(e) => (s, Raised(e))
      case Ok(t) =>
        if !Truthy(t) || ForeignPlugin(cfg, data) then (s, Done)
        else
          var (s1, o) := BookkeepingStep(enc, cfg, s, t, data);
          if o.Raised? then (s1, o) else (Emit(s1, t, data), Done)
  }

  // ---------------------------------------------------------------------------
  // The client object

  class Client {
    const pluginId: string
    const autoClose: bool
    const checkPluginId: bool
    const updateStatesOnBroadcast: bool
    /** `json.dumps` followed by UTF-8 encoding. */
    const encode: Value -> seq<byte>

    var stopped: bool
    var dataReady: bool
    var locked: bool
    var connected: bool
    var sendBuffer: seq<byte>
    var recvBuffer: seq<byte>
    var currentStates: seq<(string, Value)>
    var currentSettings: seq<(string, Value)>
    var heldActions: set<Value>
    ghost var emitted: seq<Event>
    ghost var sent: seq<Value>

    function Cfg(): Config {
      Config(pluginId, autoClose, checkPluginId, updateStatesOnBroadcast)
    }

    ghost function Snap(): S
      reads this
    {
      S(stopped, dataReady, locked, connected, sendBuffer, recvBuffer, currentStates,
        currentSettings, heldActions, emitted, sent)
    }

    constructor (pluginId: string, autoClose: bool, checkPluginId: bool,
                 updateStatesOnBroadcast: bool, encode: Value -> seq<byte>)
      ensures Cfg() == Config(pluginId, autoClose, checkPluginId, updateStatesOnBroadcast)
      ensures this.encode == encode
      ensures Snap() == S(true, false, false, false, [], [], [], [], {}, [], [])
    {
      this.pluginId := pluginId;
      this.autoClose := autoClose;
      this.checkPluginId := checkPluginId;
      this.updateStatesOnBroadcast := updateStatesOnBroadcast;
      this.encode := encode;
      stopped := true;
      dataReady := false;
      locked := false;
      connected := false;
      sendBuffer := [];
      recvBuffer := [];
      currentStates := [];
      currentSettings := [];
      heldActions := {};
      emitted := [];
      sent := [];
    }

    /** True while the client runs: `connect` sets it, `disconnect` and shutdown clear it. */
    function IsConnected(): (r: bool)
      reads this
      ensures r <==> !Snap().stopped
    {
      !stopped
    }

    /** True between a `down` and the matching `up` for the action. */
    function IsActionBeingHeld(actionId: string): (r: bool)
      reads this
      ensures r <==> Str(actionId) in Snap().held
    {
      Str(actionId) in heldActions
    }

    method EmitEvent(name: Value, data: Value)
      modifies this
      ensures Snap() == Emit(old(Snap()), name, data)
    {
      emitted := emitted + [Event(name, data), Event(Str("any"), data)];
    }

    method Close()
      modifies this
      ensures Snap() == Closed(old(Snap()))
    {
      stopped := true;
      locked := false;
      sendBuffer := [];
      connected := false;
    }

    method Die()
      modifies this
      ensures Snap() == Died(old(Snap()))
    {
      EmitEvent(Str("closePlugin"), ShutdownMessage());
      Close();
    }

    method GetWriteLock() returns (r: Result<bool>)
      modifies this
      ensures (Snap(), r) == WriteLockStep(old(Snap()))
    {
      if locked {
        Die();
        r := Err(RuntimeError(DEADLOCK_MSG));
      } else if stopped {
        r := Ok(false);
      } else {
        locked := true;
        r := Ok(true);
      }
    }

    method Send(data: Value) returns (o: Outcome)
      modifies this
      ensures (Snap(), o) == SendStep(encode, old(Snap()), data)
    {
      var got := GetWriteLock();
      if got.Err? {
        return Raised(got.error);
      }
      if !got.value {
        return Done;
      }
      var n := Len(data);
      if n.Err? {
        return Raised(n.error);
      }
      if |sendBuffer| + n.value > SND_BUFFER_SZ {
        locked := false;
        return Raised(ResourceWarning);
      }
      sendBuffer := sendBuffer + encode(data) + [LF];
      sent := sent + [data];
      locked := false;
      dataReady := true;
      o := Done;
    }

    method Write(w: WriteResult) returns (o: Outcome)
      requires w.Accepted? ==> w.count <= |sendBuffer|
      modifies this
      ensures (Snap(), o) == WriteStep(old(Snap()), w)
    {
      o := Done;
      if connected && sendBuffer != [] {
        var got := GetWriteLock();
        if got.Err? {
          return Raised(got.error);
        }
        if got.value {
          if w.Accepted? {
            sendBuffer := sendBuffer[w.count..];
          } else if w.WriteError? {
            o := Raised(OSError);
          }
          if sendBuffer == [] {
            dataReady := false;
          }
          locked := false;
        }
      }
    }

    method BufferedReadLine(r: ReadResult) returns (lines: Result<seq<seq<byte>>>)
      modifies this
      ensures (Snap(), lines) == ReadStep(old(Snap()), r)
    {
      match r
      case ReadBlocked =>
        lines := Ok([]);
      case ReadError =>
        lines := Err(OSError);
      case Received(bytes) =>
        if bytes == [] {
          return Err(RuntimeError(PEER_CLOSED_MSG));
        }
        var acc := AppendAndCut(bytes);
        lines := Ok(acc);
    }

    /** The cutting loop: append the chunk, then move every newline-terminated prefix
        out of the buffer. */
    method AppendAndCut(bytes: seq<byte>) returns (acc: seq<seq<byte>>)
      modifies this`recvBuffer
      ensures acc == Frames(old(recvBuffer) + bytes)
      ensures recvBuffer == Rest(old(recvBuffer) + bytes)
    {
      recvBuffer := recvBuffer + bytes;
      ghost var start := recvBuffer;
      acc := [];
      while FindLF(recvBuffer) > -1
        invariant acc + Frames(recvBuffer) == Frames(start)
        invariant Rest(recvBuffer) == Rest(start)
        decreases |recvBuffer|
      {
        var i := FindLF(recvBuffer);
        FramesStep(recvBuffer);
        acc := acc + [recvBuffer[..i]];
        recvBuffer := recvBuffer[i + 1..];
      }
    }

    method StateUpdateInternal(id: string, value: Value, forced: bool) returns (o: Outcome)
      modifies this
      ensures (Snap(), o) == StateUpdateStep(encode, old(Snap()), id, value, forced)
    {
      o := Done;
      if id != [] {
        if forced || !Cached(currentStates, id, value) {
          o := Send(Msg([("type", Str("stateUpdate")), ("id", Str(id)), ("value", value)]));
          if o.Raised? {
            return;
          }
        }
        currentStates := Put(currentStates, id, value);
      }
    }

    method StateUpdate(id: string, value: Value) returns (o: Outcome)
      modifies this
      ensures (Snap(), o) == StateUpdateStep(encode, old(Snap()), id, value, false)
    {
      o := StateUpdateInternal(id, value, false);
    }

    method CreateState(id: string, desc: string, value: Value) returns (o: Outcome)
      modifies this
      ensures (Snap(), o) == CreateStateStep(encode, old(Snap()), id, desc, value)
    {
      o := Done;
      if id != [] && desc != [] && value != Null {
        if id !in KeysOf(currentStates) {
          o := Send(Msg([("type", Str("createState")), ("id", Str(id)), ("desc", Str(desc)),
                         ("defaultValue", value)]));
          if o.Raised? {
            return;
          }
          currentStates := Put(currentStates, id, value);
        } else {
          o := StateUpdate(id, value);
        }
      }
    }

    method RemoveState(id: string, validateExists: bool) returns (o: Outcome)
      modifies this
      ensures (Snap(), o) == RemoveStateStep(encode, old(Snap()), id, validateExists)
    {
      o := Done;
      if id != [] && id in KeysOf(currentStates) {
        o := Send(Msg([("type", Str("removeState")), ("id", Str(id))]));
        if o.Raised? {
          return;
        }
        currentStates := Delete(currentStates, id);
      } else if validateExists {
        o := Raised(GenericException(id + " Does not exist."));
      }
    }

    method ChoiceUpdate(id: string, values: Value) returns (o: Outcome)
      modifies this
      ensures (Snap(), o) == ChoiceUpdateStep(encode, old(Snap()), id, values)
    {
      o := Done;
      if id != [] {
        if values.List? {
          o := Send(Msg([("type", Str("choiceUpdate")), ("id", Str(id)), ("value", values)]));
        } else {
          o := Raised(TypeError);
        }
      }
    }

    method SettingUpdate(name: string, value: Value) returns (o: Outcome)
      modifies this
      ensures (Snap(), o) == SettingUpdateStep(encode, old(Snap()), name, value)
    {
      o := Done;
      if SettingGuard(currentSettings, name, value) {
        o := Send(Msg([("type", Str("settingUpdate")), ("name", Str(name)), ("value", value)]));
        if o.Raised? {
          return;
        }
        currentSettings := Put(currentSettings, name, value);
      }
    }

    method ConnectorUpdate(connectorId: Value, connectorValue: Value) returns (o: Outcome)
      modifies this
      ensures (Snap(), o) == ConnectorUpdateStep(encode, Cfg(), old(Snap()), connectorId, connectorValue)
    {
      if !connectorId.Str? {
        return Raised(TypeError);
      }
      if !IsA(connectorValue, TInt) {
        return Raised(TypeError);
      }
      if 0 <= IntOf(connectorValue) <= 100 {
        o := Send(Msg([("type", Str("connectorUpdate")),
                       ("connectorId", Str(ConnectorFullId(pluginId, connectorId.s))),
                       ("value", Str(IntText(connectorValue)))]));
      } else {
        o := Raised(TypeError);
      }
    }

    method Connect(socketOpened: bool) returns (o: Outcome)
      modifies this
      ensures (Snap(), o) == ConnectStep(encode, Cfg(), old(Snap()), socketOpened)
    {
      if IsConnected() {
        return Done;
      }
      if !socketOpened {
        return Raised(OSError);
      }
      connected := true;
      stopped := false;
      o := Send(Msg([("type", Str("pair")), ("id", Str(pluginId))]));
    }

    method Disconnect()
      modifies this
      ensures Snap() == DisconnectStep(old(Snap()))
    {
      if IsConnected() {
        Close();
      }
    }

    method ProcessMessage(data: Value) returns (o: Outcome)
      modifies this
      ensures (Snap(), o) == ProcessStep(encode, Cfg(), old(Snap()), data)
    {
      o := Done;
      if !Truthy(data) {
        return;
      }
      var t := Field(data, "type");
      if t.Err? {
        return Raised(t.error);
      }
      var actType := t.value;
      if !Truthy(actType) || ForeignPlugin(Cfg(), data) {
        return;
      }
      var aid := Get(data.entries, "actionId");
      if actType == Str("closePlugin") {
        if autoClose {
          Close();
        }
      } else if actType == Str("down") && Truthy(aid) {
        if !Hashable(aid) {
          return Raised(TypeError);
        }
        heldActions := heldActions + {HashKey(aid)};
      } else if actType == Str("up") && Truthy(aid) {
        if !Hashable(aid) {
          return Raised(TypeError);
        }
        if HashKey(aid) !in heldActions {
          return Raised(KeyError);
        }
        heldActions := heldActions - {HashKey(aid)};
      } else if actType == Str("broadcast") && updateStatesOnBroadcast {
        o := Broadcast();
        if o.Raised? {
          return;
        }
      }
      EmitEvent(actType, data);
    }

    /** The loop of the broadcast branch over a snapshot of the cached states. */
    method Broadcast() returns (o: Outcome)
      modifies this
      ensures (Snap(), o) == BroadcastStep(encode, old(Snap()), old(currentStates))
    {
      var entries := currentStates;
      var i := 0;
      while i < |entries|
        invariant 0 <= i <= |entries|
        invariant BroadcastStep(encode, old(Snap()), entries) == BroadcastStep(encode, Snap(), entries[i..])
      {
        assert entries[i..][1..] == entries[i + 1..];
        o := StateUpdateInternal(entries[i].0, entries[i].1, true);
        if o.Raised? {
          return;
        }
        i := i + 1;
      }
      o := Done;
    }
  }

  /** Client-side action data lookup (`getActionDataValue`): see `ActionData`. */
  function GetActionDataValue(data: Value, valueId: Value): (r: Result<Value>)
    ensures !Truthy(data) ==> r == Ok(Null)
    ensures Truthy(data) && !data.List? ==> r.Err?
    ensures Truthy(data) && data.List? && Truthy(valueId) ==> r == ActionDataById(data.items, valueId)
    ensures Truthy(data) && data.List? && !Truthy(valueId) ==> r == ActionDataFirstValue(data.items)
  {
    if !Truthy(data) then Ok(Null)
    else match data
      case List(items) => if Truthy(valueId) then ActionDataById(items, valueId) else ActionDataFirstValue(items)
      case Dict(_) => Err(AttributeError)   // iterating a dict yields its keys, which have no `get`
      case Str(_) => Err(AttributeError)    // iterating a str yields one-character strs
      case _ => Err(TypeError)              // numbers and bools are not iterable
  }

  /** `x.get('id', '') == valueId` for a dict item. */
  predicate IdMatches(x: Value, valueId: Value)
    requires x.Dict?
  {
    PyEq(match Lookup(x.entries, SKey("id")) case None => Str("") case Some(v) => v, valueId)
  }

  /** Whether the scan by id passes over item `x` without stopping. */
  predicate SkipById(x: Value, valueId: Value) {
    x.Dict? && !IdMatches(x, valueId)
  }

  /** The first item whose id matches gives its `value` (None when it has none); items are
      read in order and a non-dict reached first raises AttributeError. */
  function ActionDataById(items: seq<Value>, valueId: Value): (r: Result<Value>)
    ensures (forall j :: 0 <= j < |items| ==> SkipById(items[j], valueId)) ==> r == Ok(Null)
    ensures r.Err? ==> (r.error == AttributeError &&
      exists i :: 0 <= i < |items| && !items[i].Dict? && forall j :: 0 <= j < i ==> SkipById(items[j], valueId))
    ensures r.Ok? && r.value != Null ==>
      exists i :: 0 <= i < |items| && items[i].Dict? && IdMatches(items[i], valueId) &&
        Get(items[i].entries, "value") == r.value && forall j :: 0 <= j < i ==> SkipById(items[j], valueId)
    decreases |items|
  {
    if items == [] then Ok(Null)
    else if !items[0].Dict? then Err(AttributeError)
    else if IdMatches(items[0], valueId) then Ok(Get(items[0].entries, "value"))
    else
      var r := ActionDataById(items[1..], valueId);
      assert forall j :: 1 <= j < |items| ==> items[1..][j - 1] == items[j];
      r
  }

  /** Completeness of the scan by id: the first item that is not passed over decides,
      its `value` when its id matches, AttributeError when it is not a dict. */
  lemma {:induction false} ActionDataByIdFirstStop(items: seq<Value>, valueId: Value, i: nat)
    requires i < |items| && !SkipById(items[i], valueId)
    requires forall j :: 0 <= j < i ==> SkipById(items[j], valueId)
    ensures items[i].Dict? ==> ActionDataById(items, valueId) == Ok(Get(items[i].entries, "value"))
    ensures !items[i].Dict? ==> ActionDataById(items, valueId) == Err(AttributeError)
    decreases i
  {
    if i > 0 {
      assert SkipById(items[0], valueId);
      assert forall j :: 0 <= j < i - 1 ==> items[1..][j] == items[j + 1];
      ActionDataByIdFirstStop(items[1..], valueId, i - 1);
    }
  }

  /** Whether the scan for the first value passes over item `x` without stopping. */
  predicate SkipNoValue(x: Value) {
    x.Dict? && Get(x.entries, "value") == Null
  }

  /** The first item with a non-None `value` gives it; a non-dict reached first raises. */
  function ActionDataFirstValue(items: seq<Value>): (r: Result<Value>)
    ensures (forall j :: 0 <= j < |items| ==> SkipNoValue(items[j])) <==> r == Ok(Null)
    ensures r.Err? ==> (r.error == AttributeError &&
      exists i :: 0 <= i < |items| && !items[i].Dict? && forall j :: 0 <= j < i ==> SkipNoValue(items[j]))
    ensures r.Ok? && r.value != Null ==>
      exists i :: 0 <= i < |items| && items[i].Dict? && Get(items[i].entries, "value") == r.value &&
        forall j :: 0 <= j < i ==> SkipNoValue(items[j])
    decreases |items|
  {
    if items == [] then Ok(Null)
    else if !items[0].Dict? then Err(AttributeError)
    else if Get(items[0].entries, "value") != Null then Ok(Get(items[0].entries, "value"))
    else
      var r := ActionDataFirstValue(items[1..]);
      assert forall j :: 1 <= j < |items| ==> items[1..][j - 1] == items[j];
      r
  }

  /** Completeness of the scan for a value: the first item that is not passed over
      decides, its `value` when it is a dict, AttributeError when it is not. */
  lemma {:induction false} ActionDataFirstValueFirstStop(items: seq<Value>, i: nat)
    requires i < |items| && !SkipNoValue(items[i])
    requires forall j :: 0 <= j < i ==> SkipNoValue(items[j])
    ensures items[i].Dict? ==> ActionDataFirstValue(items) == Ok(Get(items[i].entries, "value"))
    ensures !items[i].Dict? ==> ActionDataFirstValue(items) == Err(AttributeError)
    decreases i
  {
    if i > 0 {
      assert SkipNoValue(items[0]);
      assert forall j :: 0 <= j < i - 1 ==> items[1..][j] == items[j + 1];
      ActionDataFirstValueFirstStop(items[1..], i - 1);
    }
  }
}
