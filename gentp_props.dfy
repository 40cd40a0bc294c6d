/** What the legacy generator promises: a filtered dict holds exactly the requested
    attributes the item gives a value, unchanged; a filtered array has one dict per
    declared value, in order; an action keeps only whitelisted attributes with its
    data filtered; connectors come only with an SDK above 3; and the entry has
    exactly one category. */
module LegacyGeneratorProperties {
  import opened Outcomes
  import opened PyValue
  import opened LegacyGenerator

  // ---------------------------------------------------------------------------
  // dictFromItem

  /** The value `item` gives `k`, when it is requested and not `None`. */
  function Picked(item: Entries, keys: seq<string>, k: Key): Option<Value> {
    var v := Lookup(item, k);
    if k.SKey? && k.s in keys && v.Some? && v.value != Null then v else None
  }

  lemma {:induction false} FilteredLookup(item: Entries, keys: seq<string>, i: nat, acc: Entries, k: Key)
    requires i <= |keys|
    ensures Lookup(Filtered(item, keys, i, acc), k)
      == if Picked(item, keys[i..], k).Some? then Picked(item, keys[i..], k) else Lookup(acc, k)
    decreases |keys| - i
  {
    if i < |keys| {
      var v := Lookup(item, SKey(keys[i]));
      var acc1 := if v.Some? && v.value != Null then Put(acc, SKey(keys[i]), v.value) else acc;
      FilteredLookup(item, keys, i + 1, acc1, k);
      assert keys[i..] == [keys[i]] + keys[i + 1..];
      if v.Some? && v.value != Null {
        PutSpec(acc, SKey(keys[i]), v.value, k);
      }
    }
  }

  /** `dictFromItem` holds a key exactly when it is requested and the item has it with
      a value other than `None`, and then with that value; an item that is not a
      dict raises. */
  lemma DictFromItemSpec(item: Value, keys: seq<string>, k: Key)
    ensures !item.Dict? ==> DictFromItem(item, keys) == Err(AttributeError)
    ensures item.Dict? ==> Lookup(DictFromItem(item, keys).value, k) == Picked(item.entries, keys, k)
    ensures item.Dict? && k in KeysOf(DictFromItem(item, keys).value) ==> k.SKey? && k.s in keys
  {
    if item.Dict? {
      FilteredLookup(item.entries, keys, 0, [], k);
      assert keys[0..] == keys;
      LookupSpec(DictFromItem(item, keys).value, k);
    }
  }

  // ---------------------------------------------------------------------------
  // arrayFromDict

  lemma {:induction false} FilteredAllSpec(items: seq<Value>, keys: seq<string>, i: nat, acc: seq<Value>, j: nat)
    requires i <= |items|
    ensures FilteredAll(items, keys, i, acc).Ok? ==>
      var r := FilteredAll(items, keys, i, acc).value;
      |r| == |acc| + |items| - i && r[..|acc|] == acc
      && (i <= j < |items| ==> items[j].Dict? && r[|acc| + j - i] == Dict(DictFromItem(items[j], keys).value))
    ensures i <= j < |items| && !items[j].Dict? ==> FilteredAll(items, keys, i, acc).Err?
    decreases |items| - i
  {
    if i < |items| && items[i].Dict? {
      var acc1 := acc + [Dict(DictFromItem(items[i], keys).value)];
      FilteredAllSpec(items, keys, i + 1, acc1, j);
      if FilteredAll(items, keys, i, acc).Ok? {
        var r := FilteredAll(items, keys, i, acc).value;
        assert r[..|acc1|] == acc1;
        assert r[..|acc|] == acc1[..|acc|];
      }
    }
  }

  /** `arrayFromDict` gives one filtered dict per value of the dict, in order, and
      raises when the argument or one of its values is not a dict. */
  lemma ArrayFromDictSpec(d: Value, keys: seq<string>, j: nat)
    ensures !d.Dict? ==> ArrayFromDict(d, keys) == Err(AttributeError)
    ensures d.Dict? && j < |d.entries| && !d.entries[j].1.Dict? ==> ArrayFromDict(d, keys).Err?
    ensures ArrayFromDict(d, keys).Ok? ==>
      var r := ArrayFromDict(d, keys).value;
      |r| == |d.entries|
      && (j < |r| ==> d.entries[j].1.Dict? && r[j] == Dict(DictFromItem(d.entries[j].1, keys).value))
  {
    if d.Dict? {
      FilteredAllSpec(ValuesOf(d.entries), keys, 0, [], j);
    }
  }

  // ---------------------------------------------------------------------------
  // Actions

  /** What an action keeps of attribute `k`: its data, filtered, or a whitelisted
      attribute's value; nothing else. */
  function Kept(es: Entries, k: Key): Option<Value>
    requires k == SKey("data") && Lookup(es, k).Some? ==> ArrayFromDict(Lookup(es, k).value, DATA_KEYS).Ok?
  {
    var v := Lookup(es, k);
    if v.None? then None
    else if k == SKey("data") then Some(List(ArrayFromDict(v.value, DATA_KEYS).value))
    else if k.SKey? && k.s in ACTION_KEYS then v
    else None
  }

  lemma {:induction false} ActionFromLookup(es: Entries, i: nat, act: Entries, k: Key)
    requires i <= |es| && UniqueKeys(es)
    ensures ActionFrom(es, i, act).Ok? ==>
      (k == SKey("data") && Lookup(es[i..], k).Some? ==> ArrayFromDict(Lookup(es[i..], k).value, DATA_KEYS).Ok?)
      && Lookup(ActionFrom(es, i, act).value, k)
         == if Kept(es[i..], k).Some? then Kept(es[i..], k) else Lookup(act, k)
    decreases |es| - i
  {
    if i < |es| {
      var (k0, v0) := es[i];
      assert es[i..][0] == es[i] && es[i..][1..] == es[i + 1..];
      if k0 == k {
        assert Lookup(es[i + 1..], k).None? by {
          KeysOfIndex(es);
          KeysOfIndex(es[i + 1..]);
          LookupSpec(es[i + 1..], k);
        }
      }
      if k0 == SKey("data") {
        var a := ArrayFromDict(v0, DATA_KEYS);
        if a.Ok? {
          ActionFromLookup(es, i + 1, Put(act, k0, List(a.value)), k);
          PutSpec(act, k0, List(a.value), k);
        }
      } else if k0.SKey? && k0.s in ACTION_KEYS {
        ActionFromLookup(es, i + 1, Put(act, k0, v0), k);
        PutSpec(act, k0, v0, k);
      } else {
        ActionFromLookup(es, i + 1, act, k);
      }
    }
  }

  /** A generated action holds the item's data, filtered to the data whitelist, and
      the item's whitelisted attributes, unchanged, and nothing else. */
  lemma ActionSpec(item: Value, k: Key)
    requires item.Dict? && UniqueKeys(item.entries)
    ensures Action(item).Ok? ==>
      (k == SKey("data") && Lookup(item.entries, k).Some? ==> ArrayFromDict(Lookup(item.entries, k).value, DATA_KEYS).Ok?)
      && Lookup(Action(item).value, k) == Kept(item.entries, k)
  {
    ActionFromLookup(item.entries, 0, [], k);
    assert item.entries[0..] == item.entries;
  }

  // ---------------------------------------------------------------------------
  // The entry

  /** The category gets connectors from the declaration only for an SDK version above
      3; below that it keeps whatever it had.  Either way it is the entry's only
      category. */
  lemma CompletedSpec(entry: Entries, cat: Entries, connectors: Value, sdk: Value)
    requires Lookup(entry, SKey("sdk")) == Some(sdk)
    ensures Completed(entry, cat, connectors).Ok? ==>
      var e := Completed(entry, cat, connectors).value;
      Num(sdk).Some? && e.Dict?
      && var cs := Lookup(e.entries, SKey("categories"));
      cs.Some? && cs.value.List? && |cs.value.items| == 1 && cs.value.items[0].Dict?
      && var c := cs.value.items[0].entries;
      Lookup(c, SKey("connectors"))
        == if Num(sdk).value > 3.0 then Some(List(ArrayFromDict(connectors, CONNECTOR_KEYS).value))
           else Lookup(cat, SKey("connectors"))
  {
    var e := Completed(entry, cat, connectors);
    if e.Ok? {
      var above := PyLess(Int(3), sdk).value;
      var c := if above then ConnectorsAdded(cat, connectors).value else cat;
      PutSpec(entry, SKey("categories"), List([Dict(c)]), SKey("categories"));
      if above {
        PutSpec(cat, SKey("connectors"), List(ArrayFromDict(connectors, CONNECTOR_KEYS).value), SKey("connectors"));
      }
    }
  }

  /** The generated entry has exactly one category, and besides its settings and that
      category only the whitelisted info attributes. */
  lemma GeneratedEntrySpec(info: Value, cat: Value, settings: Value, actions: Value, states: Value,
                           events: Value, connectors: Value, k: Key)
    ensures GeneratedEntry(info, cat, settings, actions, states, events, connectors).Ok? ==>
      var e := GeneratedEntry(info, cat, settings, actions, states, events, connectors).value;
      e.Dict?
      && var cs := Lookup(e.entries, SKey("categories"));
      cs.Some? && cs.value.List? && |cs.value.items| == 1
      && (k in KeysOf(e.entries) ==> k == SKey("settings") || k == SKey("categories") || (k.SKey? && k.s in INFO_KEYS))
  {
    var r := GeneratedEntry(info, cat, settings, actions, states, events, connectors);
    if r.Ok? {
      var entry := DictFromItem(info, INFO_KEYS).value;
      var sts := ArrayFromDict(settings, SETTING_KEYS).value;
      var c := CategoryArrays(cat, actions, states, events).value;
      var entry1 := Put(entry, SKey("settings"), List(sts));
      var sdk := Lookup(entry1, SKey("sdk")).value;
      CompletedSpec(entry1, c, connectors, sdk);
      var above := PyLess(Int(3), sdk).value;
      var c1 := if above then ConnectorsAdded(c, connectors).value else c;
      assert r.value == Dict(Put(entry1, SKey("categories"), List([Dict(c1)])));
      PutKeys(entry, SKey("settings"), List(sts));
      PutKeys(entry1, SKey("categories"), List([Dict(c1)]));
      DictFromItemSpec(info, INFO_KEYS, k);
    }
  }
}
