/** What the steps of the runtime client promise: the send queue, the receive
    framing, message bookkeeping and the change-detecting caches. */
module ClientProperties {
  import opened Outcomes
  import opened PyValue
  import opened Framing
  import opened Text
  import opened RuntimeClient

  /** The client is running and nobody holds the write lock. */
  predicate Running(s: S) {
    !s.stopped && !s.locked
  }

  // ---------------------------------------------------------------------------
  // Send queue

  /** A message that fits is appended, serialized and newline-terminated, the data-ready
      flag is raised and the lock is free again; nothing else changes. */
  lemma SendQueuesMessage(enc: Value -> seq<byte>, s: S, data: Value, n: nat)
    requires Running(s) && Len(data) == Ok(n)
    requires |s.sendBuffer| + n <= SND_BUFFER_SZ
    ensures SendStep(enc, s, data) ==
      (s.(sendBuffer := s.sendBuffer + enc(data) + [LF], sent := s.sent + [data], dataReady := true), Done)
  {
  }

  /** A message over capacity raises ResourceWarning and leaves the client as it was,
      lock released. */
  lemma SendFullRejects(enc: Value -> seq<byte>, s: S, data: Value, n: nat)
    requires Running(s) && Len(data) == Ok(n)
    requires |s.sendBuffer| + n > SND_BUFFER_SZ
    ensures SendStep(enc, s, data) == (s, Raised(ResourceWarning))
  {
  }

  /** The capacity check counts the entries of the unserialized object, not the bytes
      queued: a one-entry message is accepted into a buffer one byte short of full,
      whatever the length of its serialization. */
  lemma SendCapacityCountsEntries(enc: Value -> seq<byte>, s: S, k: string, v: Value)
    requires Running(s) && |s.sendBuffer| + 1 == SND_BUFFER_SZ
    ensures SendStep(enc, s, Msg([(k, v)])).1 == Done
    ensures |SendStep(enc, s, Msg([(k, v)])).0.sendBuffer| == SND_BUFFER_SZ + |enc(Msg([(k, v)]))|
  {
  }

  /** Sending an object without a length raises TypeError and keeps the lock; the next
      send then finds the lock taken, the client shuts down and the queue is lost. */
  lemma SendUnsizedWedgesLock(enc: Value -> seq<byte>, s: S, data: Value, next: Value)
    requires Running(s) && Len(data).Err?
    ensures SendStep(enc, s, data) == (s.(locked := true), Raised(TypeError))
    ensures var t := SendStep(enc, s, data).0;
      SendStep(enc, t, next) == (Died(t), Raised(RuntimeError(DEADLOCK_MSG)))
    ensures var u := SendStep(enc, SendStep(enc, s, data).0, next).0;
      u.stopped && u.sendBuffer == [] && !u.locked && u.emitted == s.emitted + [Event(Str("closePlugin"), ShutdownMessage()), Event(Str("any"), ShutdownMessage())]
  {
  }

  /** A stopped client drops messages silently. */
  lemma SendWhileStoppedDrops(enc: Value -> seq<byte>, s: S, data: Value)
    requires s.stopped && !s.locked
    ensures SendStep(enc, s, data) == (s, Done)
  {
  }

  /** Each queued message stays one frame for the peer: if the buffer ended on a frame
      boundary, its frames gain exactly the serialized message and it ends on a boundary
      again. */
  lemma QueuedMessageIsOneFrame(enc: Value -> seq<byte>, s: S, data: Value, n: nat)
    requires Running(s) && Len(data) == Ok(n)
    requires |s.sendBuffer| + n <= SND_BUFFER_SZ
    requires Rest(s.sendBuffer) == [] && LF !in enc(data)
    ensures var t := SendStep(enc, s, data).0;
      Frames(t.sendBuffer) == Frames(s.sendBuffer) + [enc(data)] && Rest(t.sendBuffer) == []
  {
    SendQueuesMessage(enc, s, data, n);
    AppendOneFrame(s.sendBuffer, enc(data));
  }

  /** The wire form of a list of messages, as successive sends queue it. */
  function Wire(enc: Value -> seq<byte>, msgs: seq<Value>): seq<byte> {
    if msgs == [] then [] else enc(msgs[0]) + [LF] + Wire(enc, msgs[1..])
  }

  function Serialized(enc: Value -> seq<byte>, msgs: seq<Value>): (r: seq<seq<byte>>)
    ensures |r| == |msgs| && forall i :: 0 <= i < |msgs| ==> r[i] == enc(msgs[i])
  {
    if msgs == [] then [] else [enc(msgs[0])] + Serialized(enc, msgs[1..])
  }

  /** The peer cuts the wire form back into the serialized messages, in order, with
      nothing left over, however the bytes are split into chunks on the way. */
  lemma {:induction false} WireRoundTrip(enc: Value -> seq<byte>, msgs: seq<Value>, chunks: seq<seq<byte>>)
    requires forall i :: 0 <= i < |msgs| ==> LF !in enc(msgs[i])
    requires Concat(chunks) == Wire(enc, msgs)
    ensures Feed([], chunks) == (Serialized(enc, msgs), [])
  {
    WireIsJoin(enc, msgs);
    assert Concat(chunks) == Join(Serialized(enc, msgs)) + [];
    FramingIdempotence(chunks, Serialized(enc, msgs), []);
  }

  lemma {:induction false} WireIsJoin(enc: Value -> seq<byte>, msgs: seq<Value>)
    ensures Wire(enc, msgs) == Join(Serialized(enc, msgs))
  {
    if msgs != [] {
      WireIsJoin(enc, msgs[1..]);
      JoinCons(enc(msgs[0]), Serialized(enc, msgs[1..]));
    }
  }

  // ---------------------------------------------------------------------------
  // Socket writes

  /** A write of `n` bytes drops exactly those bytes from the front of the queue, clears
      data-ready exactly when the queue is empty, and frees the lock. */
  lemma WriteDropsAcceptedPrefix(s: S, n: nat)
    requires Running(s) && s.connected && s.sendBuffer != [] && n <= |s.sendBuffer|
    ensures var (t, o) := WriteStep(s, Accepted(n));
      o == Done && !t.locked && s.sendBuffer[..n] + t.sendBuffer == s.sendBuffer &&
      t.sendBuffer == s.sendBuffer[n..] && (t.dataReady <==> s.dataReady && n < |s.sendBuffer|) &&
      t == s.(sendBuffer := s.sendBuffer[n..], dataReady := t.dataReady)
  {
  }

  /** A socket error is raised after the lock is released; nothing is dropped. */
  lemma WriteErrorKeepsQueue(s: S)
    requires Running(s) && s.connected && s.sendBuffer != []
    ensures WriteStep(s, WriteError) == (s, Raised(OSError))
  {
  }

  /** Nothing to write, or no socket: nothing happens. */
  lemma WriteIdle(s: S, w: WriteResult)
    requires !s.connected || s.sendBuffer == []
    requires w.Accepted? ==> w.count <= |s.sendBuffer|
    ensures WriteStep(s, w) == (s, Done)
  {
  }

  // ---------------------------------------------------------------------------
  // Receiving

  /** A would-block read yields no frames and leaves the buffer alone; an empty read is
      the peer closing the connection. */
  lemma ReadEdgeCases(s: S)
    ensures ReadStep(s, ReadBlocked) == (s, Ok([]))
    ensures ReadStep(s, Received([])) == (s, Err(RuntimeError(PEER_CLOSED_MSG)))
    ensures ReadStep(s, ReadError) == (s, Err(OSError))
  {
  }

  /** A chunk is appended to the buffer; the frames returned, each followed by its newline,
      then what stays buffered, are exactly the old buffer and the chunk; the frames hold
      no newline and only an unterminated tail stays. */
  lemma {:induction false} ReadLosesNothing(s: S, bytes: seq<byte>)
    requires bytes != []
    ensures var (t, r) := ReadStep(s, Received(bytes));
      r.Ok? && Join(r.value) + t.recvBuffer == s.recvBuffer + bytes &&
      (forall k :: 0 <= k < |r.value| ==> LF !in r.value[k]) && LF !in t.recvBuffer &&
      t == s.(recvBuffer := t.recvBuffer)
  {
    Reassemble(s.recvBuffer + bytes);
    NoDelimiterLeft(s.recvBuffer + bytes);
  }

  // ---------------------------------------------------------------------------
  // Message bookkeeping

  /** A message that `__processMessage` acts on: a dict with a truthy type and no foreign
      plugin id. */
  predicate Handled(cfg: Config, data: Value) {
    data.Dict? && Truthy(Get(data.entries, "type")) && !ForeignPlugin(cfg, data)
  }

  /** Messages without a type and messages for another plugin change nothing and emit
      nothing. */
  lemma IgnoredMessages(enc: Value -> seq<byte>, cfg: Config, s: S, data: Value)
    requires data.Dict?
    requires !Truthy(Get(data.entries, "type")) || ForeignPlugin(cfg, data)
    ensures ProcessStep(enc, cfg, s, data) == (s, Done)
  {
  }

  /** With the id check on, a message naming another plugin is dropped: the
      foreign-plugin case of `IgnoredMessages`. */
  lemma ForeignPluginDropped(enc: Value -> seq<byte>, cfg: Config, s: S, data: Value, other: string)
    requires cfg.checkPluginId && other != [] && other != cfg.pluginId
    requires data.Dict? && Get(data.entries, "pluginId") == Str(other)
    ensures ProcessStep(enc, cfg, s, data) == (s, Done)
  {
    IgnoredMessages(enc, cfg, s, data);
  }

  /** A message whose `actionId` is the string `x`. */
  predicate ForAction(data: Value, kind: string, x: string) {
    data.Dict? && Get(data.entries, "type") == Str(kind) && Get(data.entries, "actionId") == Str(x)
  }

  /** A handled message is bookkept first and announced after. */
  lemma ProcessHandled(enc: Value -> seq<byte>, cfg: Config, s: S, data: Value)
    requires Handled(cfg, data)
    ensures var t := Get(data.entries, "type");
      var (s1, o) := BookkeepingStep(enc, cfg, s, t, data);
      ProcessStep(enc, cfg, s, data) == if o.Raised? then (s1, o) else (Emit(s1, t, data), Done)
  {
    assert data.entries != [];
  }

  /** After `down` for X the action is held; the event and then `any` are emitted. */
  lemma DownHolds(enc: Value -> seq<byte>, cfg: Config, s: S, data: Value, x: string)
    requires x != [] && ForAction(data, "down", x) && !ForeignPlugin(cfg, data)
    ensures var r := ProcessStep(enc, cfg, s, data);
      r.1 == Done && r.0.held == s.held + {Str(x)} && Str(x) in r.0.held &&
      r.0.emitted == s.emitted + [Event(Str("down"), data), Event(Str("any"), data)]
  {
    ProcessHandled(enc, cfg, s, data);
    DownBookkeeping(enc, cfg, s, data, x);
  }

  lemma DownBookkeeping(enc: Value -> seq<byte>, cfg: Config, s: S, data: Value, x: string)
    requires x != [] && ForAction(data, "down", x)
    ensures BookkeepingStep(enc, cfg, s, Str("down"), data) == (s.(held := s.held + {Str(x)}), Done)
  {
    assert "down" != "closePlugin";
    assert Str("down") != Str("closePlugin");
    var aid := Get(data.entries, "actionId");
    assert aid == Str(x) && Truthy(aid) && Hashable(aid);
    assert HashKey(Str(x)) == Str(x);
  }

  /** After the matching `up` the action is no longer held. */
  lemma UpReleases(enc: Value -> seq<byte>, cfg: Config, s: S, data: Value, x: string)
    requires x != [] && ForAction(data, "up", x) && !ForeignPlugin(cfg, data)
    requires Str(x) in s.held
    ensures var r := ProcessStep(enc, cfg, s, data);
      r.1 == Done && r.0.held == s.held - {Str(x)} && Str(x) !in r.0.held &&
      r.0.emitted == s.emitted + [Event(Str("up"), data), Event(Str("any"), data)]
  {
    ProcessHandled(enc, cfg, s, data);
    UpBookkeeping(enc, cfg, s, data, x);
  }

  lemma UpBookkeeping(enc: Value -> seq<byte>, cfg: Config, s: S, data: Value, x: string)
    requires x != [] && ForAction(data, "up", x) && Str(x) in s.held
    ensures BookkeepingStep(enc, cfg, s, Str("up"), data) == (s.(held := s.held - {Str(x)}), Done)
  {
    assert "up" != "closePlugin" && "up" != "down";
    assert Str("up") != Str("closePlugin") && Str("up") != Str("down");
    var aid := Get(data.entries, "actionId");
    assert aid == Str(x) && Truthy(aid) && Hashable(aid);
    assert HashKey(Str(x)) == Str(x);
  }

  /** An `up` for an action that is not held raises KeyError before any event. */
  lemma UpUnheldRaises(enc: Value -> seq<byte>, cfg: Config, s: S, data: Value, x: string)
    requires x != [] && ForAction(data, "up", x) && !ForeignPlugin(cfg, data)
    requires Str(x) !in s.held
    ensures var r := ProcessStep(enc, cfg, s, data);
      r.1 == Raised(KeyError) && r.0 == s
  {
    ProcessHandled(enc, cfg, s, data);
    UpUnheldBookkeeping(enc, cfg, s, data, x);
  }

  lemma UpUnheldBookkeeping(enc: Value -> seq<byte>, cfg: Config, s: S, data: Value, x: string)
    requires x != [] && ForAction(data, "up", x) && Str(x) !in s.held
    ensures BookkeepingStep(enc, cfg, s, Str("up"), data) == (s, Raised(KeyError))
  {
    assert Str("up") != Str("closePlugin") && Str("up") != Str("down");
    var aid := Get(data.entries, "actionId");
    assert aid == Str(x) && Truthy(aid) && Hashable(aid);
    assert HashKey(Str(x)) == Str(x);
  }

  /** `closePlugin` shuts the client down when auto-close is on, and is still announced. */
  lemma ClosePluginAutoCloses(enc: Value -> seq<byte>, cfg: Config, s: S, data: Value)
    requires data.Dict? && Get(data.entries, "type") == Str("closePlugin") && !ForeignPlugin(cfg, data)
    ensures var (t, o) := ProcessStep(enc, cfg, s, data);
      o == Done && (t.stopped <==> cfg.autoClose || s.stopped) &&
      (cfg.autoClose ==> t.sendBuffer == [] && !t.connected) &&
      t.emitted == s.emitted + [Event(Str("closePlugin"), data), Event(Str("any"), data)]
  {
  }

  /** In a dict with distinct keys, an entry is what a lookup of its key finds. */
  lemma {:induction false} UniqueLookup<K(!new), V>(es: seq<(K, V)>, i: nat)
    requires UniqueKeys(es) && i < |es|
    ensures Lookup(es, es[i].0) == Some(es[i].1)
  {
    if i > 0 {
      KeysOfIndex(es);
      assert es[0].0 != es[i].0 by {
        assert KeysOf(es)[0] != KeysOf(es)[i];
      }
      assert UniqueKeys(es[1..]) by {
        KeysOfCons(es);
        assert KeysOf(es[1..]) == KeysOf(es)[1..];
      }
      UniqueLookup(es[1..], i - 1);
    }
  }

  /** Re-assigning the value a key already has leaves the dict as it is. */
  lemma {:induction false} PutSame<K(!new), V>(es: seq<(K, V)>, k: K, v: V)
    requires Lookup(es, k) == Some(v)
    ensures Put(es, k, v) == es
  {
    if es[0].0 == k {
      assert es[0] == (k, v);
      assert es == [es[0]] + es[1..];
    } else {
      assert Lookup(es[1..], k) == Some(v);
      PutSame(es[1..], k, v);
      assert es == [es[0]] + es[1..];
    }
  }

  /** Sending touches neither the caches nor the held actions. */
  lemma SendKeepsCaches(enc: Value -> seq<byte>, s: S, data: Value)
    ensures var t := SendStep(enc, s, data).0;
      t.states == s.states && t.settings == s.settings && t.held == s.held && t.recvBuffer == s.recvBuffer
  {
  }

  /** A send that completes on a running client queues the message and leaves the
      client running, with nothing emitted. */
  lemma SendDoneRunning(enc: Value -> seq<byte>, s: S, data: Value)
    requires Running(s) && SendStep(enc, s, data).1 == Done
    ensures var t := SendStep(enc, s, data).0;
      Running(t) && t.sent == s.sent + [data] && t.emitted == s.emitted
  {
  }

  /** The messages a broadcast re-sends for some cached entries, in order. */
  function StateUpdates(entries: seq<(string, Value)>): seq<Value> {
    if entries == [] then []
    else if entries[0].0 == [] then StateUpdates(entries[1..])
    else [Msg([("type", Str("stateUpdate")), ("id", Str(entries[0].0)), ("value", entries[0].1)])]
         + StateUpdates(entries[1..])
  }

  /** Re-sending a cached entry keeps the caches as they are. */
  lemma ResendKeepsCaches(enc: Value -> seq<byte>, s: S, k: string, v: Value)
    requires Lookup(s.states, k) == Some(v)
    ensures var t := StateUpdateStep(enc, s, k, v, true).0;
      t.states == s.states && t.settings == s.settings && t.held == s.held
  {
    if k != [] {
      var msg := Msg([("type", Str("stateUpdate")), ("id", Str(k)), ("value", v)]);
      SendKeepsCaches(enc, s, msg);
      PutSame(s.states, k, v);
    }
  }

  /** A broadcast keeps the caches and the held actions as they are, whether or not it
      completes. */
  lemma {:induction false} BroadcastKeepsCaches(enc: Value -> seq<byte>, s: S, entries: seq<(string, Value)>)
    requires UniqueKeys(s.states)
    requires forall e :: e in entries ==> e in s.states
    ensures var t := BroadcastStep(enc, s, entries).0;
      t.states == s.states && t.settings == s.settings && t.held == s.held
    decreases |entries|
  {
    if entries != [] {
      var k := entries[0].0;
      var v := entries[0].1;
      assert entries[0] in entries;
      var i :| 0 <= i < |s.states| && s.states[i] == (k, v);
      UniqueLookup(s.states, i);
      ResendKeepsCaches(enc, s, k, v);
      var so := StateUpdateStep(enc, s, k, v, true);
      if !so.1.Raised? {
        assert forall e :: e in entries[1..] ==> e in entries;
        BroadcastKeepsCaches(enc, so.0, entries[1..]);
      }
    }
  }

  /** A broadcast that completes on a running client has queued one stateUpdate per
      entry with a non-empty id, in order, and emitted nothing. */
  lemma {:induction false} BroadcastResendsAll(enc: Value -> seq<byte>, s: S, entries: seq<(string, Value)>)
    requires Running(s) && BroadcastStep(enc, s, entries).1 == Done
    ensures var t := BroadcastStep(enc, s, entries).0;
      Running(t) && t.sent == s.sent + StateUpdates(entries) && t.emitted == s.emitted
    decreases |entries|
  {
    if entries != [] {
      var k := entries[0].0;
      var v := entries[0].1;
      var so := StateUpdateStep(enc, s, k, v, true);
      assert !so.1.Raised?;
      assert BroadcastStep(enc, s, entries) == BroadcastStep(enc, so.0, entries[1..]);
      ForcedUpdateRunning(enc, s, k, v);
      BroadcastResendsAll(enc, so.0, entries[1..]);
    }
  }

  /** A forced state update that does not raise on a running client queues its
      message, unless the id is empty, and emits nothing. */
  lemma ForcedUpdateRunning(enc: Value -> seq<byte>, s: S, k: string, v: Value)
    requires Running(s) && !StateUpdateStep(enc, s, k, v, true).1.Raised?
    ensures var t := StateUpdateStep(enc, s, k, v, true).0;
      Running(t) && t.emitted == s.emitted &&
      t.sent == s.sent + (if k == [] then [] else [Msg([("type", Str("stateUpdate")), ("id", Str(k)), ("value", v)])])
  {
    if k != [] {
      SendDoneRunning(enc, s, Msg([("type", Str("stateUpdate")), ("id", Str(k)), ("value", v)]));
    }
  }

  /** An accepted message that is handled without error is announced as its type and then
      as `any`, after everything else the handling did. */
  lemma {:induction false} AcceptedMessageEmits(enc: Value -> seq<byte>, cfg: Config, s: S, data: Value)
    requires Handled(cfg, data)
    requires ProcessStep(enc, cfg, s, data).1 == Done
    ensures var t := ProcessStep(enc, cfg, s, data).0;
      |t.emitted| >= 2 &&
      t.emitted[|t.emitted| - 2..] == [Event(Get(data.entries, "type"), data), Event(Str("any"), data)]
  {
  }

  // ---------------------------------------------------------------------------
  // State and setting caches

  /** On a running client with room in the queue, a state update is sent exactly when it
      is forced, the id is new or the cached value differs, and in every case the cache
      then holds the new value. */
  lemma StateUpdateSendsOnChange(enc: Value -> seq<byte>, s: S, id: string, value: Value, forced: bool)
    requires id != [] && Running(s) && |s.sendBuffer| + 3 <= SND_BUFFER_SZ
    ensures var (t, o) := StateUpdateStep(enc, s, id, value, forced);
      o == Done && Lookup(t.states, id) == Some(value) &&
      (forall k :: k != id ==> Lookup(t.states, k) == Lookup(s.states, k)) &&
      t.sent == s.sent + (if forced || !Cached(s.states, id, value)
                          then [Msg([("type", Str("stateUpdate")), ("id", Str(id)), ("value", value)])]
                          else [])
  {
    forall k
      ensures Lookup(Put(s.states, id, value), id) == Some(value)
      ensures k != id ==> Lookup(Put(s.states, id, value), k) == Lookup(s.states, k)
    {
      PutSpec(s.states, id, value, k);
    }
  }

  /** An empty state id is ignored. */
  lemma StateUpdateEmptyId(enc: Value -> seq<byte>, s: S, value: Value, forced: bool)
    ensures StateUpdateStep(enc, s, [], value, forced) == (s, Done)
  {
  }

  /** A new state is announced with createState and cached; an existing one is updated
      as by stateUpdate; an empty id or description, or a None value, does nothing. */
  lemma CreateStateCases(enc: Value -> seq<byte>, s: S, id: string, desc: string, value: Value)
    requires Running(s) && |s.sendBuffer| + 4 <= SND_BUFFER_SZ
    ensures var (t, o) := CreateStateStep(enc, s, id, desc, value);
      (id == [] || desc == [] || value == Null ==> t == s && o == Done) &&
      (id != [] && desc != [] && value != Null && id !in KeysOf(s.states) ==>
        o == Done && Lookup(t.states, id) == Some(value) &&
        (forall k :: k != id ==> Lookup(t.states, k) == Lookup(s.states, k)) &&
        t.sent == s.sent + [Msg([("type", Str("createState")), ("id", Str(id)), ("desc", Str(desc)),
                                 ("defaultValue", value)])]) &&
      (id != [] && desc != [] && value != Null && id in KeysOf(s.states) ==>
        (t, o) == StateUpdateStep(enc, s, id, value, false))
  {
    forall k
      ensures Lookup(Put(s.states, id, value), id) == Some(value)
      ensures k != id ==> Lookup(Put(s.states, id, value), k) == Lookup(s.states, k)
    {
      PutSpec(s.states, id, value, k);
    }
  }

  /** Removing a cached state sends removeState and forgets the id; removing an unknown id
      raises when asked to validate and otherwise does nothing. */
  lemma RemoveStateCases(enc: Value -> seq<byte>, s: S, id: string, validateExists: bool)
    requires Running(s) && |s.sendBuffer| + 2 <= SND_BUFFER_SZ
    ensures var (t, o) := RemoveStateStep(enc, s, id, validateExists);
      (id != [] && id in KeysOf(s.states) ==>
        o == Done && id !in KeysOf(t.states) &&
        (forall k :: k != id ==> Lookup(t.states, k) == Lookup(s.states, k)) &&
        t.sent == s.sent + [Msg([("type", Str("removeState")), ("id", Str(id))])]) &&
      (!(id != [] && id in KeysOf(s.states)) ==>
        t == s && o == (if validateExists then Raised(GenericException(id + " Does not exist.")) else Done))
  {
    forall k
      ensures Lookup(Delete(s.states, id), id) == None
      ensures k != id ==> Lookup(Delete(s.states, id), k) == Lookup(s.states, k)
    {
      DeleteSpec(s.states, id, k);
    }
    LookupSpec(Delete(s.states, id), id);
  }

  /** Choice lists must be lists. */
  lemma ChoiceUpdateNeedsList(enc: Value -> seq<byte>, s: S, id: string, values: Value)
    requires id != [] && !values.List?
    ensures ChoiceUpdateStep(enc, s, id, values) == (s, Raised(TypeError))
  {
  }

  /** The guard as written raises KeyError for an empty setting name, which the other
      cache methods simply ignore. */
  lemma SettingGuardEmptyNameRaises(value: Value)
    ensures SettingGuardAsWritten([], [], value) == Err(KeyError)
    ensures !SettingGuard([], [], value)
  {
  }

  /** A setting update on a running client sends and caches exactly when the name is
      non-empty and the cached value is missing or different; otherwise the cache is
      left as it was, and other names always keep their values. */
  lemma SettingUpdateSendsOnChange(enc: Value -> seq<byte>, s: S, name: string, value: Value)
    requires Running(s) && |s.sendBuffer| + 3 <= SND_BUFFER_SZ
    ensures var (t, o) := SettingUpdateStep(enc, s, name, value);
      o == Done &&
      (name != [] ==> Cached(t.settings, name, value)) &&
      (forall k :: k != name ==> Lookup(t.settings, k) == Lookup(s.settings, k)) &&
      (name == [] || Cached(s.settings, name, value) ==> t.settings == s.settings) &&
      t.sent == s.sent + (if name != [] && !Cached(s.settings, name, value)
                          then [Msg([("type", Str("settingUpdate")), ("name", Str(name)), ("value", value)])]
                          else [])
  {
    var (t, o) := SettingUpdateStep(enc, s, name, value);
    forall k
      ensures Lookup(Put(s.settings, name, value), name) == Some(value)
      ensures k != name ==> Lookup(Put(s.settings, name, value), k) == Lookup(s.settings, k)
    {
      PutSpec(s.settings, name, value, k);
    }
    PyEqRefl(value);
    if name != [] && Cached(s.settings, name, value) {
      assert t.settings == s.settings;
    }
  }

  // ---------------------------------------------------------------------------
  // Connectors

  /** Values outside 0..100 are rejected with TypeError and nothing is sent. */
  lemma ConnectorOutOfRange(enc: Value -> seq<byte>, cfg: Config, s: S, id: string, n: int)
    requires n < 0 || n > 100
    ensures ConnectorUpdateStep(enc, cfg, s, Str(id), Int(n)) == (s, Raised(TypeError))
  {
  }

  /** A value in range is sent for `pc_<pluginId>_<id>_` as its decimal text. */
  lemma ConnectorInRange(enc: Value -> seq<byte>, cfg: Config, s: S, id: string, n: int)
    requires 0 <= n <= 100 && Running(s) && |s.sendBuffer| + 3 <= SND_BUFFER_SZ
    ensures var (t, o) := ConnectorUpdateStep(enc, cfg, s, Str(id), Int(n));
      o == Done && t.sent == s.sent + [Msg([("type", Str("connectorUpdate")),
        ("connectorId", Str("pc_" + cfg.pluginId + "_" + id + "_")), ("value", Str(NatToString(n)))])]
  {
  }

  /** `bool` is an `int` to the type check, so `True` passes and is sent as "True". */
  lemma ConnectorAcceptsBool(enc: Value -> seq<byte>, cfg: Config, s: S, id: string)
    requires Running(s) && |s.sendBuffer| + 3 <= SND_BUFFER_SZ
    ensures ConnectorUpdateStep(enc, cfg, s, Str(id), Bool(true)).0.sent ==
      s.sent + [Msg([("type", Str("connectorUpdate")),
        ("connectorId", Str(ConnectorFullId(cfg.pluginId, id))), ("value", Str("True"))])]
  {
  }

  // ---------------------------------------------------------------------------
  // Connection state

  /** `connect` on a running client and `disconnect` on a stopped one do nothing;
      `disconnect` stops a running client and drops its queue. */
  lemma ConnectionGating(enc: Value -> seq<byte>, cfg: Config, s: S, socketOpened: bool)
    ensures !s.stopped ==> ConnectStep(enc, cfg, s, socketOpened) == (s, Done)
    ensures s.stopped ==> DisconnectStep(s) == s
    ensures !s.stopped ==> DisconnectStep(s).stopped && DisconnectStep(s).sendBuffer == [] &&
                           !DisconnectStep(s).locked
  {
  }

  /** Connecting a stopped client opens it and queues the pairing message. */
  lemma ConnectPairs(enc: Value -> seq<byte>, cfg: Config, s: S)
    requires s.stopped && !s.locked && |s.sendBuffer| + 2 <= SND_BUFFER_SZ
    ensures var (t, o) := ConnectStep(enc, cfg, s, true);
      o == Done && !t.stopped && t.connected &&
      t.sent == s.sent + [Msg([("type", Str("pair")), ("id", Str(cfg.pluginId))])]
  {
  }
}
