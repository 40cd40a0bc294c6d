/** The legacy entry generator (TouchPortal-API/sdk/tpsdk-gentp.py): it copies the
    whitelisted attributes of the plugin's declaration dicts into an `entry.tp`
    structure with one category.  Importing the plugin module, printing and
    writing the file are not modelled: the declarations are parameters and the
    entry is the result. */
module LegacyGenerator {
  import opened Outcomes
  import opened PyValue

  type Entries = seq<(Key, Value)>

  const INFO_KEYS: seq<string> := ["sdk", "version", "name", "id", "configuration", "plugin_start_cmd"]
  const SETTING_KEYS: seq<string> := ["name", "default", "type", "maxLength", "isPassword", "minValue", "maxValue", "readOnly"]
  const DATA_KEYS: seq<string> := ["id", "type", "label", "default", "valueChoices", "extensions", "allowDecimals",
                                   "minValue", "maxValue"]
  const ACTION_KEYS: seq<string> := ["id", "name", "prefix", "type", "executionType", "execution_cmd", "description",
                                     "tryInline", "format", "hasHoldFunctionality"]
  const STATE_KEYS: seq<string> := ["id", "type", "desc", "default", "valueChoices"]
  const EVENT_KEYS: seq<string> := ["id", "name", "format", "type", "valueChoices", "valueType", "valueStateId"]
  const CONNECTOR_KEYS: seq<string> := ["id", "name", "format", "data"]

  // ---------------------------------------------------------------------------
  // Specification

  /** The loop of `dictFromItem` from `keys[i]` on, with `acc` built so far: each
      key the item holds with a value other than `None` is copied. */
  function Filtered(item: Entries, keys: seq<string>, i: nat, acc: Entries): Entries
    requires i <= |keys|
    decreases |keys| - i
  {
    if i == |keys| then acc
    else
      var v := Lookup(item, SKey(keys[i]));
      Filtered(item, keys, i + 1, if v.Some? && v.value != Null then Put(acc, SKey(keys[i]), v.value) else acc)
  }

  /** `dictFromItem(item, keys)`; an item without `get` raises `AttributeError`. */
  function DictFromItem(item: Value, keys: seq<string>): Result<Entries> {
    if !item.Dict? then Err(AttributeError) else Ok(Filtered(item.entries, keys, 0, []))
  }

  /** The loop of `arrayFromDict` from `items[i]` on. */
  function FilteredAll(items: seq<Value>, keys: seq<string>, i: nat, acc: seq<Value>): Result<seq<Value>>
    requires i <= |items|
    decreases |items| - i
  {
    if i == |items| then Ok(acc)
    else match DictFromItem(items[i], keys)
      case Err(e) => Err(e)
      case Ok(d) => FilteredAll(items, keys, i + 1, acc + [Dict(d)])
  }

  /** `arrayFromDict(d, keys)`: one filtered dict per value of `d`, in order. */
  function ArrayFromDict(d: Value, keys: seq<string>): Result<seq<Value>> {
    if !d.Dict? then Err(AttributeError) else FilteredAll(ValuesOf(d.entries), keys, 0, [])
  }

  /** The inner loop of `main` over the attributes `es[i..]` of one action: `data` is
      filtered to the data whitelist, other whitelisted attributes are copied and the
      rest dropped. */
  function ActionFrom(es: Entries, i: nat, act: Entries): Result<Entries>
    requires i <= |es|
    decreases |es| - i
  {
    if i == |es| then Ok(act)
    else
      var (k, v) := es[i];
      if k == SKey("data") then
        match ArrayFromDict(v, DATA_KEYS)
        case Err(e) => Err(e)
        case Ok(a) => ActionFrom(es, i + 1, Put(act, k, List(a)))
      else if k.SKey? && k.s in ACTION_KEYS then ActionFrom(es, i + 1, Put(act, k, v))
      else ActionFrom(es, i + 1, act)
  }

  /** One action of `main`; an action that is not a dict has no `items`. */
  function Action(item: Value): Result<Entries> {
    if !item.Dict? then Err(AttributeError) else ActionFrom(item.entries, 0, [])
  }

  /** The outer loop of `main` over the declared actions `items[i..]`. */
  function ActionsFrom(items: seq<Value>, i: nat, acc: seq<Value>): Result<seq<Value>>
    requires i <= |items|
    decreases |items| - i
  {
    if i == |items| then Ok(acc)
    else match Action(items[i])
      case Err(e) => Err(e)
      case Ok(a) => ActionsFrom(items, i + 1, acc + [Dict(a)])
  }

  /** The declared actions, assembled. */
  function Actions(actions: Value): Result<seq<Value>> {
    if !actions.Dict? then Err(AttributeError) else ActionsFrom(ValuesOf(actions.entries), 0, [])
  }

  /** `main` from the point the declarations are loaded to the point the entry is
      complete: the info whitelist and the settings, then the category, which is
      the entry's only one. */
  function GeneratedEntry(info: Value, cat: Value, settings: Value, actions: Value, states: Value,
                          events: Value, connectors: Value): Result<Value>
  {
    var entry :- DictFromItem(info, INFO_KEYS);
    EntryFrom(entry, cat, settings, actions, states, events, connectors)
  }

  /** The entry after its info: the settings, then the category. */
  function EntryFrom(entry: Entries, cat: Value, settings: Value, actions: Value, states: Value,
                     events: Value, connectors: Value): Result<Value>
  {
    var sts :- ArrayFromDict(settings, SETTING_KEYS);
    CategoryAdded(Put(entry, SKey("settings"), List(sts)), cat, actions, states, events, connectors)
  }

  /** The entry after its settings: the category is built and added. */
  function CategoryAdded(entry: Entries, cat: Value, actions: Value, states: Value, events: Value,
                         connectors: Value): Result<Value>
  {
    var c :- CategoryArrays(cat, actions, states, events);
    Completed(entry, c, connectors)
  }

  /** The category's actions, states and events, set in that order. */
  function CategoryArrays(cat: Value, actions: Value, states: Value, events: Value): Result<Entries> {
    if !cat.Dict? then Err(TypeError)
    else
      var acts :- Actions(actions);
      var states1 :- ArrayFromDict(states, STATE_KEYS);
      var events1 :- ArrayFromDict(events, EVENT_KEYS);
      Ok(Put(Put(Put(cat.entries, SKey("actions"), List(acts)), SKey("states"), List(states1)),
             SKey("events"), List(events1)))
  }

  /** The connectors, for an SDK version above 3, and the category put in the entry. */
  function Completed(entry: Entries, cat: Entries, connectors: Value): Result<Value> {
    match Lookup(entry, SKey("sdk"))
    case None => Err(KeyError)
    case Some(sdk) =>
      var above :- PyLess(Int(3), sdk);
      var c :- if above then ConnectorsAdded(cat, connectors) else Ok(cat);
      Ok(Dict(Put(entry, SKey("categories"), List([Dict(c)]))))
  }

  /** `cat['connectors']`, filtered. */
  function ConnectorsAdded(cat: Entries, connectors: Value): Result<Entries> {
    var cons :- ArrayFromDict(connectors, CONNECTOR_KEYS);
    Ok(Put(cat, SKey("connectors"), List(cons)))
  }

  // ---------------------------------------------------------------------------
  // The generator

  method FilterItem(item: Value, keys: seq<string>) returns (r: Result<Entries>)
    ensures r == DictFromItem(item, keys)
  {
    if !item.Dict? {
      return Err(AttributeError);
    }
    var ret: Entries := [];
    for i := 0 to |keys|
      invariant Filtered(item.entries, keys, 0, []) == Filtered(item.entries, keys, i, ret)
    {
      var v := Lookup(item.entries, SKey(keys[i]));
      if v.Some? && v.value != Null {
        ret := Put(ret, SKey(keys[i]), v.value);
      }
    }
    return Ok(ret);
  }

  method FilterArray(d: Value, keys: seq<string>) returns (r: Result<seq<Value>>)
    ensures r == ArrayFromDict(d, keys)
  {
    if !d.Dict? {
      return Err(AttributeError);
    }
    var items := ValuesOf(d.entries);
    var ret: seq<Value> := [];
    for i := 0 to |items|
      invariant FilteredAll(items, keys, 0, []) == FilteredAll(items, keys, i, ret)
    {
      var f := FilterItem(items[i], keys);
      if f.Err? {
        return Err(f.error);
      }
      ret := ret + [Dict(f.value)];
    }
    return Ok(ret);
  }

  method BuildAction(item: Value) returns (r: Result<Entries>)
    ensures r == Action(item)
  {
    if !item.Dict? {
      return Err(AttributeError);
    }
    var es := item.entries;
    var act: Entries := [];
    for i := 0 to |es|
      invariant ActionFrom(es, 0, []) == ActionFrom(es, i, act)
    {
      var (k, v) := es[i];
      if k == SKey("data") {
        var a := FilterArray(v, DATA_KEYS);
        if a.Err? {
          return Err(a.error);
        }
        act := Put(act, k, List(a.value));
      } else if k.SKey? && k.s in ACTION_KEYS {
        act := Put(act, k, v);
      }
    }
    return Ok(act);
  }

  method BuildActions(actions: Value) returns (r: Result<seq<Value>>)
    ensures r == Actions(actions)
  {
    if !actions.Dict? {
      return Err(AttributeError);
    }
    var items := ValuesOf(actions.entries);
    var ret: seq<Value> := [];
    for i := 0 to |items|
      invariant ActionsFrom(items, 0, []) == ActionsFrom(items, i, ret)
    {
      var a := BuildAction(items[i]);
      if a.Err? {
        return Err(a.error);
      }
      ret := ret + [Dict(a.value)];
    }
    return Ok(ret);
  }

  /** `main` without the import, the printing and the file. */
  method Generate(info: Value, cat: Value, settings: Value, actions: Value, states: Value,
                  events: Value, connectors: Value) returns (r: Result<Value>)
    ensures r == GeneratedEntry(info, cat, settings, actions, states, events, connectors)
  {
    var entry :- FilterItem(info, INFO_KEYS);
    r := BuildEntry(entry, cat, settings, actions, states, events, connectors);
  }

  method BuildEntry(entry: Entries, cat: Value, settings: Value, actions: Value, states: Value,
                    events: Value, connectors: Value) returns (r: Result<Value>)
    ensures r == EntryFrom(entry, cat, settings, actions, states, events, connectors)
  {
    var sts :- FilterArray(settings, SETTING_KEYS);
    r := AddCategory(Put(entry, SKey("settings"), List(sts)), cat, actions, states, events, connectors);
  }

  method AddCategory(entry: Entries, cat: Value, actions: Value, states: Value, events: Value,
                     connectors: Value) returns (r: Result<Value>)
    ensures r == CategoryAdded(entry, cat, actions, states, events, connectors)
  {
    var c :- BuildCategory(cat, actions, states, events);
    r := Complete(entry, c, connectors);
  }

  method BuildCategory(cat: Value, actions: Value, states: Value, events: Value) returns (r: Result<Entries>)
    ensures r == CategoryArrays(cat, actions, states, events)
  {
    if !cat.Dict? {
      return Err(TypeError);
    }
    var acts :- BuildActions(actions);
    var c := Put(cat.entries, SKey("actions"), List(acts));
    var states1 :- FilterArray(states, STATE_KEYS);
    c := Put(c, SKey("states"), List(states1));
    var events1 :- FilterArray(events, EVENT_KEYS);
    c := Put(c, SKey("events"), List(events1));
    return Ok(c);
  }

  method Complete(entry: Entries, cat: Entries, connectors: Value) returns (r: Result<Value>)
    ensures r == Completed(entry, cat, connectors)
  {
    var sdk := Lookup(entry, SKey("sdk"));
    if sdk.None? {
      return Err(KeyError);
    }
    var above :- PyLess(Int(3), sdk.value);
    var c := cat;
    if above {
      var cons :- FilterArray(connectors, CONNECTOR_KEYS);
      c := Put(c, SKey("connectors"), List(cons));
    }
    return Ok(Dict(Put(entry, SKey("categories"), List([Dict(c)]))));
  }
}
