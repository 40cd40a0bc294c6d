/** The reverse converter: a Touch Portal entry, already decoded from JSON, turned
    back into the index-keyed dicts of the Python declaration format.  The converter
    keeps one dict each for the states, actions, events and connectors it has
    generated, and every `generate*` call adds to them. */
module ReverseConversion {
  import opened Outcomes
  import opened PyValue
  import opened Text

  /** A Python dict, in insertion order. */
  type Entries = seq<(Key, Value)>

  // ---------------------------------------------------------------------------
  // __convertData

  /** `items` keyed by consecutive integers from `base`, in order. */
  function IndexKeyed(items: seq<Value>, base: int): (r: Entries)
    ensures |r| == |items|
    ensures forall i :: 0 <= i < |r| ==> r[i] == (IKey(base + i), items[i])
  {
    if items == [] then [] else [(IKey(base), items[0])] + IndexKeyed(items[1..], base + 1)
  }

  /** `__convertData(data)`: a list keyed by 0-based index; anything else gives `{}`. */
  function ConvertedData(data: Value): Entries {
    if data.List? then IndexKeyed(data.items, 0) else []
  }

  /** One more item extends the keyed list by one entry. */
  lemma IndexKeyedSnoc(items: seq<Value>, x: Value, base: int)
    ensures IndexKeyed(items + [x], base) == IndexKeyed(items, base) + [(IKey(base + |items|), x)]
  {
  }

  /** The keyed list only uses the keys `base .. base + |items| - 1`. */
  lemma IndexKeyedKeys(items: seq<Value>, base: int, k: int)
    requires !(base <= k < base + |items|)
    ensures IKey(k) !in KeysOf(IndexKeyed(items, base))
  {
    KeysOfIndex(IndexKeyed(items, base));
  }

  // ---------------------------------------------------------------------------
  // __convertFormat

  /** The placeholder `{$id$}` a definition uses for a data id. */
  function Placeholder(id: string): string {
    "{$" + id + "$}"
  }

  /** The positional token `$[n]`. */
  function PositionToken(n: nat): string {
    "$[" + NatToString(n) + "]"
  }

  /** `data[i]`: a list item, the entry of a dict under the integer key `i`
      (KeyError without one), or the `i`-th character of a string. */
  function ItemAt(data: Value, i: nat): Result<Value>
    requires Len(data).Ok? && i < Len(data).value
  {
    match data
    case List(items) => Ok(items[i])
    case Dict(es) => (match Lookup(es, IKey(i)) case None => Err(KeyError) case Some(v) => Ok(v))
    case Str(s) => Ok(Str([s[i]]))
  }

  /** `v[name]`: KeyError for a dict without the key, TypeError for anything but a dict. */
  function Subscript(v: Value, name: string): Result<Value> {
    if !v.Dict? then Err(TypeError)
    else match Lookup(v.entries, SKey(name))
      case None => Err(KeyError)
      case Some(x) => Ok(x)
  }

  /** The loop of `__convertFormat` from data item `i` on, with `f` the text so far:
      each item whose id occurs in the original `format` has its placeholder
      replaced by its 1-based position. */
  function FormatFrom(format: string, f: string, data: Value, n: nat, i: nat): Result<string>
    requires i <= n && Len(data) == Ok(n)
    decreases n - i
  {
    if i == n then Ok(f)
    else match ItemAt(data, i)
      case Err(e) => Err(e)
      case Ok(item) =>
        match Subscript(item, "id")
        case Err(e) => Err(e)
        case Ok(id) =>
          if !id.Str? then Err(TypeError)
          else if Occurs(id.s, format) then FormatFrom(format, ReplaceAll(f, Placeholder(id.s), PositionToken(i + 1)), data, n, i + 1)
          else FormatFrom(format, f, data, n, i + 1)
  }

  /** `__convertFormat(format, data)`. */
  function ConvertedFormat(format: Value, data: Value): Result<Value> {
    match Len(data)
    case Err(e) => Err(e)
    case Ok(n) =>
      if n == 0 then Ok(format)
      else if !format.Str? then Err(TypeError)
      else match FormatFrom(format.s, format.s, data, n, 0)
        case Err(e) => Err(e)
        case Ok(f) => Ok(Str(f))
  }

  // ---------------------------------------------------------------------------
  // generateInfo and generateSettings

  /** The root attributes `generateInfo` copies. */
  const INFO_KEYS: seq<string> := ["sdk", "version", "name", "id", "configuration", "plugin_start_cmd_windows",
                                   "plugin_start_cmd_linux", "plugin_start_cmd_mac", "plugin_start_cmd"]

  predicate IsInfoKey(k: Key) {
    k.SKey? && k.s in INFO_KEYS
  }

  /** The loop of `generateInfo` over `es[i..]`, storing into `info`. */
  function InfoFrom(es: Entries, i: nat, info: Entries): Entries
    requires i <= |es|
    decreases |es| - i
  {
    if i == |es| then info
    else InfoFrom(es, i + 1, if IsInfoKey(es[i].0) then Put(info, es[i].0, es[i].1) else info)
  }

  /** `generateInfo()`. */
  function GeneratedInfo(entry: Value): Result<Entries> {
    if !entry.Dict? then Err(AttributeError) else Ok(InfoFrom(entry.entries, 0, []))
  }

  /** `generateSettings()`: the settings list keyed from 1, `{}` when `settings` is
      present but falsy or not a list. */
  function GeneratedSettings(entry: Value): Result<Entries> {
    if !entry.Dict? then Err(AttributeError)
    else
      var present := Lookup(entry.entries, SKey("settings"));
      if present.Some? && !Truthy(present.value) then Ok([])
      else
        var settings := GetOr(entry.entries, "settings", List([]));
        Ok(if settings.List? then IndexKeyed(settings.items, 1) else [])
  }

  // ---------------------------------------------------------------------------
  // generateStates, generateEvents, generateActions, generateConnectors

  /** `d["category"] = category` on a dict. */
  function Tagged(d: Value, category: Value): Value
    requires d.Dict?
  {
    Dict(Put(d.entries, SKey("category"), category))
  }

  /** The loop shared by `generateStates` and `generateEvents` over `items[i..]`,
      writing at `idx` and moving on by `step`: each item is stored and tagged with
      the category; an item that is not a dict is stored and the tagging raises. */
  function TaggedFrom(st: Entries, items: seq<Value>, i: nat, idx: int, step: int, category: Value): (Entries, Outcome)
    requires i <= |items|
    decreases |items| - i
  {
    if i == |items| then (st, Done)
    else if !items[i].Dict? then (Put(st, IKey(idx), items[i]), Raised(TypeError))
    else TaggedFrom(Put(st, IKey(idx), Tagged(items[i], category)), items, i + 1, idx + step, step, category)
  }

  /** `generateStates(data, category)` (step 1) on the dict `st`, and the dict it returns. */
  function TaggedStep(st: Entries, data: Value, step: int, category: Value): (Entries, Result<Entries>) {
    match Iterate(data)
    case Err(e) => (st, Err(e))
    case Ok(items) =>
      var (st1, o) := TaggedFrom(st, items, 0, |st|, step, category);
      (st1, if o.Raised? then Err(o.error) else Ok(st1))
  }

  /** `generateEvents` as written: its index is never advanced. */
  function EventsAsWritten(st: Entries, data: Value, category: Value): (Entries, Result<Entries>) {
    TaggedStep(st, data, 0, category)
  }

  /** A truthy `format` is rewritten against the entry's data (which must then exist);
      any other entry is left as it is. */
  function FormatStep(e: Entries): Result<Entries> {
    if !Truthy(Get(e, "format")) then Ok(e)
    else match Lookup(e, SKey("data"))
      case None => Err(KeyError)
      case Some(data) =>
        match ConvertedFormat(Get(e, "format"), data)
        case Err(x) => Err(x)
        case Ok(f) => Ok(Put(e, SKey("format"), f))
  }

  /** A truthy `data` list becomes a dict keyed by index; any other entry is left as
      it is. */
  function DataStep(e: Entries): Entries {
    if Truthy(Get(e, "data")) then Put(e, SKey("data"), Dict(ConvertedData(Get(e, "data")))) else e
  }

  /** One action of `generateActions`: format first, then data, then the category. */
  function ConvertedAction(e: Entries, category: Value): Result<Entries> {
    match FormatStep(e)
    case Err(x) => Err(x)
    case Ok(e1) => Ok(Put(DataStep(e1), SKey("category"), category))
  }

  /** The loop of `generateActions` over `items[i..]`, the last key used being `idx`:
      each action is stored at the next key and converted there. */
  function ActionsFrom(st: Entries, items: seq<Value>, i: nat, idx: int, category: Value): (Entries, Outcome)
    requires i <= |items|
    decreases |items| - i
  {
    if i == |items| then (st, Done)
    else if !items[i].Dict? then (Put(st, IKey(idx + 1), items[i]), Raised(AttributeError))
    else match ConvertedAction(items[i].entries, category)
      case Err(x) => (Put(st, IKey(idx + 1), items[i]), Raised(x))
      case Ok(a) => ActionsFrom(Put(st, IKey(idx + 1), Dict(a)), items, i + 1, idx + 1, category)
  }

  /** `generateActions(data, category)` on the dict `st`, and the dict it returns. */
  function ActionsStep(st: Entries, data: Value, category: Value): (Entries, Result<Entries>) {
    match Iterate(data)
    case Err(e) => (st, Err(e))
    case Ok(items) =>
      var (st1, o) := ActionsFrom(st, items, 0, |st|, category);
      (st1, if o.Raised? then Err(o.error) else Ok(st1))
  }

  /** One connector of `generateConnectors`: the category first, then format, then
      data; on failure, the connector as far as it was changed. */
  function ConvertedConnector(e: Entries, category: Value): (Entries, Result<Entries>) {
    var e1 := Put(e, SKey("category"), category);
    match FormatStep(e1)
    case Err(x) => (e1, Err(x))
    case Ok(e2) => (e2, Ok(DataStep(e2)))
  }

  /** The loop of `generateConnectors` over `items[i..]`, writing at `idx` and moving
      on by `step`. */
  function ConnectorsFrom(st: Entries, items: seq<Value>, i: nat, idx: int, step: int, category: Value): (Entries, Outcome)
    requires i <= |items|
    decreases |items| - i
  {
    if i == |items| then (st, Done)
    else if !items[i].Dict? then (Put(st, IKey(idx), items[i]), Raised(TypeError))
    else
      var (partial, r) := ConvertedConnector(items[i].entries, category);
      match r
      case Err(x) => (Put(st, IKey(idx), Dict(partial)), Raised(x))
      case Ok(c) => ConnectorsFrom(Put(st, IKey(idx), Dict(c)), items, i + 1, idx + step, step, category)
  }

  /** `generateConnectors(data, category)` on the dict `st` (step 1), and the dict it returns. */
  function ConnectorsStep(st: Entries, data: Value, step: int, category: Value): (Entries, Result<Entries>) {
    match Iterate(data)
    case Err(e) => (st, Err(e))
    case Ok(items) =>
      var (st1, o) := ConnectorsFrom(st, items, 0, |st|, step, category);
      (st1, if o.Raised? then Err(o.error) else Ok(st1))
  }

  /** `generateConnectors` as written: its index is never advanced. */
  function ConnectorsAsWritten(st: Entries, data: Value, category: Value): (Entries, Result<Entries>) {
    ConnectorsStep(st, data, 0, category)
  }

  // ---------------------------------------------------------------------------
  // generateCalegories

  /** The four dicts the converter fills. */
  datatype Structs = Structs(states: Entries, actions: Entries, events: Entries, connectors: Entries)

  /** The arrays of a category, in the order `generateCalegories` visits them. */
  datatype Todo = Actions | States | Connectors | Events

  const TODO: seq<Todo> := [Actions, States, Connectors, Events]

  function TodoKey(t: Todo): string {
    match t
    case Actions => "actions"
    case States => "states"
    case Connectors => "connectors"
    case Events => "events"
  }

  /** The generator a category array is handed to. */
  function RunTodo(s: Structs, t: Todo, data: Value, category: Value): (Structs, Result<Entries>) {
    match t
    case Actions => var (st, r) := ActionsStep(s.actions, data, category); (s.(actions := st), r)
    case States => var (st, r) := TaggedStep(s.states, data, 1, category); (s.(states := st), r)
    case Connectors => var (st, r) := ConnectorsStep(s.connectors, data, 1, category); (s.(connectors := st), r)
    case Events => var (st, r) := TaggedStep(s.events, data, 1, category); (s.(events := st), r)
  }

  /** The arrays `TODO[i..]` of category `c`: each non-empty list is generated. */
  function TodoFrom(s: Structs, c: Entries, i: nat, category: Value): (Structs, Outcome)
    requires i <= |TODO|
    decreases |TODO| - i
  {
    if i == |TODO| then (s, Done)
    else
      var data := Get(c, TodoKey(TODO[i]));
      if !(Truthy(data) && data.List?) then TodoFrom(s, c, i + 1, category)
      else
        var (s1, r1) := RunTodo(s, TODO[i], data, category);
        if r1.Err? then (s1, Raised(r1.error)) else TodoFrom(s1, c, i + 1, category)
  }

  /** The summary `generateCalegories` keeps of a category. */
  function CategoryInfo(c: Entries): Entries {
    [(SKey("id"), Get(c, "id")), (SKey("name"), GetOr(c, "name", Str(""))), (SKey("imagepath"), GetOr(c, "imagepath", Str("")))]
  }

  /** The key of a category: the last dotted segment of its id (`""` without one). */
  function CategoryKey(c: Value): Result<string> {
    if !c.Dict? then Err(AttributeError)
    else
      var id := GetOr(c.entries, "id", Str(""));
      if !id.Str? then Err(AttributeError) else Ok(LastSegment(id.s))
  }

  /** The category loop over `cats[i..]`, with `gen` the categories generated so far. */
  function CategoriesFrom(s: Structs, cats: seq<Value>, i: nat, gen: Entries): (Structs, Result<Entries>)
    requires i <= |cats|
    decreases |cats| - i
  {
    if i == |cats| then (s, Ok(gen))
    else match CategoryKey(cats[i])
      case Err(e) => (s, Err(e))
      case Ok(name) =>
        var gen1 := Put(gen, SKey(name), Dict(CategoryInfo(cats[i].entries)));
        var (s1, o1) := TodoFrom(s, cats[i].entries, 0, Str(name));
        if o1.Raised? then (s1, Err(o1.error)) else CategoriesFrom(s1, cats, i + 1, gen1)
  }

  /** `generateCalegories()`. */
  function GeneratedCategories(s: Structs, entry: Value): (Structs, Result<Entries>) {
    if !entry.Dict? then (s, Err(AttributeError))
    else match Iterate(GetOr(entry.entries, "categories", List([])))
      case Err(e) => (s, Err(e))
      case Ok(cats) => CategoriesFrom(s, cats, 0, [])
  }

  // ---------------------------------------------------------------------------
  // The converter

  class TpToPy {
    /** The decoded entry. */
    const entry: Value
    var structState: Entries
    var structAction: Entries
    var structEvent: Entries
    var structConnector: Entries

    function Snap(): Structs
      reads this
    {
      Structs(structState, structAction, structEvent, structConnector)
    }

    constructor(entry: Value)
      ensures this.entry == entry && Snap() == Structs([], [], [], [])
    {
      this.entry := entry;
      structState := [];
      structAction := [];
      structEvent := [];
      structConnector := [];
    }

    /** `items` keyed by consecutive integers from `base`. */
    method KeyByIndex(items: seq<Value>, base: int) returns (r: Entries)
      ensures r == IndexKeyed(items, base)
    {
      r := [];
      var i := 0;
      while i < |items|
        invariant i <= |items| && r == IndexKeyed(items[..i], base)
      {
        IndexKeyedKeys(items[..i], base, base + i);
        PutNew(r, IKey(base + i), items[i]);
        r := Put(r, IKey(base + i), items[i]);
        IndexKeyedSnoc(items[..i], items[i], base);
        assert items[..i + 1] == items[..i] + [items[i]];
        i := i + 1;
      }
      assert items[..i] == items;
    }

    /** `__convertData(data)`. */
    method ConvertData(data: Value) returns (r: Entries)
      ensures r == ConvertedData(data)
    {
      r := [];
      if data.List? {
        r := KeyByIndex(data.items, 0);
      }
    }

    /** `__convertFormat(format, data)`. */
    method ConvertFormat(format: Value, data: Value) returns (r: Result<Value>)
      ensures r == ConvertedFormat(format, data)
    {
      var len := Len(data);
      if len.Err? {
        return Err(len.error);
      }
      var n := len.value;
      if n == 0 {
        return Ok(format);
      }
      if !format.Str? {
        return Err(TypeError);
      }
      var f := format.s;
      var i := 0;
      while i < n
        invariant i <= n
        invariant FormatFrom(format.s, format.s, data, n, 0) == FormatFrom(format.s, f, data, n, i)
      {
        var item := ItemAt(data, i);
        if item.Err? {
          return Err(item.error);
        }
        var id := Subscript(item.value, "id");
        if id.Err? {
          return Err(id.error);
        }
        if !id.value.Str? {
          return Err(TypeError);
        }
        if Occurs(id.value.s, format.s) {
          f := ReplaceAll(f, Placeholder(id.value.s), PositionToken(i + 1));
        }
        i := i + 1;
      }
      r := Ok(Str(f));
    }

    /** `generateInfo()`. */
    method GenerateInfo() returns (r: Result<Entries>)
      ensures r == GeneratedInfo(entry)
    {
      if !entry.Dict? {
        return Err(AttributeError);
      }
      var es := entry.entries;
      var info: Entries := [];
      var i := 0;
      while i < |es|
        invariant i <= |es| && InfoFrom(es, 0, []) == InfoFrom(es, i, info)
      {
        if IsInfoKey(es[i].0) {
          info := Put(info, es[i].0, es[i].1);
        }
        i := i + 1;
      }
      r := Ok(info);
    }

    /** `generateSettings()`. */
    method GenerateSettings() returns (r: Result<Entries>)
      ensures r == GeneratedSettings(entry)
    {
      if !entry.Dict? {
        return Err(AttributeError);
      }
      var present := Lookup(entry.entries, SKey("settings"));
      if present.Some? && !Truthy(present.value) {
        return Ok([]);
      }
      var settings := GetOr(entry.entries, "settings", List([]));
      var generated: Entries := [];
      if settings.List? {
        generated := KeyByIndex(settings.items, 1);
      }
      r := Ok(generated);
    }

    /** `generateStates(data, category)`. */
    method GenerateStates(data: Value, category: Value) returns (r: Result<Entries>)
      modifies this
      ensures (structState, r) == TaggedStep(old(structState), data, 1, category)
      ensures structAction == old(structAction) && structEvent == old(structEvent) && structConnector == old(structConnector)
    {
      var items := Iterate(data);
      if items.Err? {
        return Err(items.error);
      }
      var xs := items.value;
      var idx := |structState|;
      var i := 0;
      while i < |xs|
        invariant i <= |xs|
        invariant TaggedFrom(old(structState), xs, 0, |old(structState)|, 1, category) == TaggedFrom(structState, xs, i, idx, 1, category)
        invariant structAction == old(structAction) && structEvent == old(structEvent) && structConnector == old(structConnector)
      {
        if !xs[i].Dict? {
          structState := Put(structState, IKey(idx), xs[i]);
          return Err(TypeError);
        }
        structState := Put(structState, IKey(idx), Tagged(xs[i], category));
        idx := idx + 1;
        i := i + 1;
      }
      r := Ok(structState);
    }

    /** `generateEvents(data, category)`, with its index advanced after each event. */
    method GenerateEvents(data: Value, category: Value) returns (r: Result<Entries>)
      modifies this
      ensures (structEvent, r) == TaggedStep(old(structEvent), data, 1, category)
      ensures structState == old(structState) && structAction == old(structAction) && structConnector == old(structConnector)
    {
      var items := Iterate(data);
      if items.Err? {
        return Err(items.error);
      }
      var xs := items.value;
      var idx := |structEvent|;
      var i := 0;
      while i < |xs|
        invariant i <= |xs|
        invariant TaggedFrom(old(structEvent), xs, 0, |old(structEvent)|, 1, category) == TaggedFrom(structEvent, xs, i, idx, 1, category)
        invariant structState == old(structState) && structAction == old(structAction) && structConnector == old(structConnector)
      {
        if !xs[i].Dict? {
          structEvent := Put(structEvent, IKey(idx), xs[i]);
          return Err(TypeError);
        }
        structEvent := Put(structEvent, IKey(idx), Tagged(xs[i], category));
        idx := idx + 1;
        i := i + 1;
      }
      r := Ok(structEvent);
    }

    /** The format and data steps of one action or connector. */
    method ConvertFormatAndData(e: Entries) returns (r: Result<Entries>)
      ensures r.Err? <==> FormatStep(e).Err?
      ensures r.Err? ==> r.error == FormatStep(e).error
      ensures r.Ok? ==> r.value == DataStep(FormatStep(e).value)
    {
      var e1 := e;
      if Truthy(Get(e, "format")) {
        var data := Lookup(e, SKey("data"));
        if data.None? {
          return Err(KeyError);
        }
        var f := ConvertFormat(Get(e, "format"), data.value);
        if f.Err? {
          return Err(f.error);
        }
        e1 := Put(e, SKey("format"), f.value);
      }
      var e2 := e1;
      if Truthy(Get(e1, "data")) {
        var d := ConvertData(Get(e1, "data"));
        e2 := Put(e1, SKey("data"), Dict(d));
      }
      r := Ok(e2);
    }

    /** `generateActions(data, category)`. */
    method GenerateActions(data: Value, category: Value) returns (r: Result<Entries>)
      modifies this
      ensures (structAction, r) == ActionsStep(old(structAction), data, category)
      ensures structState == old(structState) && structEvent == old(structEvent) && structConnector == old(structConnector)
    {
      var items := Iterate(data);
      if items.Err? {
        return Err(items.error);
      }
      var xs := items.value;
      var idx := |structAction|;
      var i := 0;
      while i < |xs|
        invariant i <= |xs|
        invariant ActionsFrom(old(structAction), xs, 0, |old(structAction)|, category) == ActionsFrom(structAction, xs, i, idx, category)
        invariant structState == old(structState) && structEvent == old(structEvent) && structConnector == old(structConnector)
      {
        idx := idx + 1;
        if !xs[i].Dict? {
          structAction := Put(structAction, IKey(idx), xs[i]);
          return Err(AttributeError);
        }
        var converted := ConvertFormatAndData(xs[i].entries);
        if converted.Err? {
          structAction := Put(structAction, IKey(idx), xs[i]);
          return Err(converted.error);
        }
        structAction := Put(structAction, IKey(idx), Dict(Put(converted.value, SKey("category"), category)));
        i := i + 1;
      }
      r := Ok(structAction);
    }

    /** `generateConnectors(data, category)`, with its index advanced after each connector. */
    method GenerateConnectors(data: Value, category: Value) returns (r: Result<Entries>)
      modifies this
      ensures (structConnector, r) == ConnectorsStep(old(structConnector), data, 1, category)
      ensures structState == old(structState) && structAction == old(structAction) && structEvent == old(structEvent)
    {
      var items := Iterate(data);
      if items.Err? {
        return Err(items.error);
      }
      var xs := items.value;
      var idx := |structConnector|;
      var i := 0;
      while i < |xs|
        invariant i <= |xs|
        invariant ConnectorsFrom(old(structConnector), xs, 0, |old(structConnector)|, 1, category)
               == ConnectorsFrom(structConnector, xs, i, idx, 1, category)
        invariant structState == old(structState) && structAction == old(structAction) && structEvent == old(structEvent)
      {
        if !xs[i].Dict? {
          structConnector := Put(structConnector, IKey(idx), xs[i]);
          return Err(TypeError);
        }
        var tagged := Put(xs[i].entries, SKey("category"), category);
        var converted := ConvertFormatAndData(tagged);
        if converted.Err? {
          structConnector := Put(structConnector, IKey(idx), Dict(tagged));
          return Err(converted.error);
        }
        structConnector := Put(structConnector, IKey(idx), Dict(converted.value));
        idx := idx + 1;
        i := i + 1;
      }
      r := Ok(structConnector);
    }

    /** The generator a category array is handed to. */
    method Run(t: Todo, data: Value, category: Value) returns (r: Result<Entries>)
      modifies this
      ensures (Snap(), r) == RunTodo(old(Snap()), t, data, category)
    {
      match t
      case Actions => r := GenerateActions(data, category);
      case States => r := GenerateStates(data, category);
      case Connectors => r := GenerateConnectors(data, category);
      case Events => r := GenerateEvents(data, category);
    }

    /** The arrays of category `c`, in the order of `TODO`. */
    method GenerateArrays(c: Entries, category: Value) returns (o: Outcome)
      modifies this
      ensures (Snap(), o) == TodoFrom(old(Snap()), c, 0, category)
    {
      var i := 0;
      while i < |TODO|
        invariant i <= |TODO|
        invariant TodoFrom(old(Snap()), c, 0, category) == TodoFrom(Snap(), c, i, category)
      {
        var data := Get(c, TodoKey(TODO[i]));
        if Truthy(data) && data.List? {
          var r := Run(TODO[i], data, category);
          if r.Err? {
            return Raised(r.error);
          }
        }
        i := i + 1;
      }
      o := Done;
    }

    /** `generateCalegories()`. */
    method GenerateCategories() returns (r: Result<Entries>)
      modifies this
      ensures (Snap(), r) == GeneratedCategories(old(Snap()), entry)
    {
      if !entry.Dict? {
        return Err(AttributeError);
      }
      var categories := Iterate(GetOr(entry.entries, "categories", List([])));
      if categories.Err? {
        return Err(categories.error);
      }
      var cats := categories.value;
      var gen: Entries := [];
      var i := 0;
      while i < |cats|
        invariant i <= |cats|
        invariant GeneratedCategories(old(Snap()), entry) == CategoriesFrom(Snap(), cats, i, gen)
      {
        var name := CategoryKey(cats[i]);
        if name.Err? {
          return Err(name.error);
        }
        gen := Put(gen, SKey(name.value), Dict(CategoryInfo(cats[i].entries)));
        var o := GenerateArrays(cats[i].entries, Str(name.value));
        if o.Raised? {
          return Err(o.error);
        }
        i := i + 1;
      }
      r := Ok(gen);
    }
  }
}
