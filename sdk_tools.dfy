/** The definition-file validator and generator of the SDK tools.  The two module
    globals, the warning list `g_messages` and the seen-id dict `g_seen_ids`, are the
    fields of class `Tools`; the functions below define what each operation does to
    them (`Globals` is a snapshot of both) and what it returns, and the methods of
    `Tools` carry out the same operations with the source's loops. */
module SdkTools {
  import opened Outcomes
  import opened PyValue
  import opened Text
  import opened SdkSpec

  /** The warnings the tools add to `g_messages`, one constructor per message text. */
  datatype Warning =
    | MissingRequired(keyPath: string)
    | WrongType(keyPath: string, expected: seq<PyType>, got: Value)
    | WrongSdk(keyPath: string, minimum: int, using: Value)
    | NotAChoice(keyPath: string, got: Value, choices: seq<Value>)
    | NotUnique(id: Value, keyPath: string, previous: string)
    | UnknownAttribute(keyPath: string)
    | BadArrayMember(item: Value, path: string)
    | NoReplacement(token: string, element: Value)

  /** `g_messages` and `g_seen_ids` (id value to the key path where it was first seen). */
  datatype Globals = Globals(messages: seq<Warning>, seenIds: seq<(Value, string)>)

  const CLEARED := Globals([], [])

  function Warn(g: Globals, w: Warning): Globals {
    g.(messages := g.messages + [w])
  }

  // ---------------------------------------------------------------------------
  // Key paths

  /** `":".join(filter(None, parts))`: the non-empty parts joined by colons. */
  function JoinPath(parts: seq<string>): string {
    if parts == [] then []
    else
      var rest := JoinPath(parts[1..]);
      if parts[0] == [] then rest else if rest == [] then parts[0] else parts[0] + ":" + rest
  }

  /** `_keyPath(path, key)`. */
  function KeyPath(path: string, key: string): (r: string)
    ensures r == JoinPath([path, key])
  {
    assert [path, key][1..] == [key];
    assert [key][1..] == [];
    assert JoinPath([key]) == key;
    if path == [] then key else if key == [] then path else path + ":" + key
  }

  /** `_keyPath(path, k)` for a dict key that may be an integer: `0` is filtered out
      like an empty string, any other integer makes `str.join` raise TypeError. */
  function KeyPathOf(path: string, k: Key): (r: Result<string>)
    ensures k.SKey? ==> r == Ok(KeyPath(path, k.s))
    ensures k.IKey? ==> (r.Ok? <==> k.n == 0)
  {
    match k
    case SKey(s) => Ok(KeyPath(path, s))
    case IKey(n) => if n == 0 then Ok(path) else Err(TypeError)
  }

  /** `f"{key}"` for a dict key. */
  function KeyText(k: Key): string {
    match k
    case SKey(s) => s
    case IKey(n) => IntToString(n)
  }

  /** `f"{path}[{i}]"`. */
  function IndexPath(path: string, index: string): string {
    path + "[" + index + "]"
  }

  // ---------------------------------------------------------------------------
  // validateAttribValue

  /** `g_seen_ids.get(v)`: the path stored under the first key equal to `v`. */
  function SeenPath(seen: seq<(Value, string)>, v: Value): (r: Option<string>)
    ensures r.None? <==> forall i :: 0 <= i < |seen| ==> !PyEq(seen[i].0, v)
  {
    if seen == [] then None
    else if PyEq(seen[0].0, v) then Some(seen[0].1)
    else
      assert forall i :: 1 <= i < |seen| ==> seen[i] == seen[1..][i - 1];
      SeenPath(seen[1..], v)
  }

  /** `validateAttribValue(key, value, a, sdk, path)`: the checks in their order
      (missing, type, minimum SDK, choices, unique id), each failing one adding its
      warning and answering `False`.  Comparing a non-numeric `sdk` with the minimum
      version raises TypeError, and so does an unhashable `id`. */
  function ValidateAttrib(g: Globals, key: string, value: Value, a: Attrib, sdk: Value, path: string)
    : (Globals, Result<bool>)
  {
    var kp := KeyPath(path, key);
    if value.Null? then
      (if a.r then Warn(g, MissingRequired(kp)) else g, Ok(false))
    else if !IsInstance(value, a.t) then
      (Warn(g, WrongType(kp, a.t, value)), Ok(false))
    else
      match PyLess(sdk, Int(a.v))
      case Err(e) => (g, Err(e))
      case Ok(tooOld) =>
        if tooOld then (Warn(g, WrongSdk(kp, a.v, sdk)), Ok(false))
        else if a.c != [] && !PyIn(value, a.c) then (Warn(g, NotAChoice(kp, value, a.c)), Ok(false))
        else if key != "id" then (g, Ok(true))
        else if !Hashable(value) then (g, Err(TypeError))
        else
          match SeenPath(g.seenIds, value)
          case None => (g.(seenIds := g.seenIds + [(value, kp)]), Ok(true))
          case Some(previous) => (Warn(g, NotUnique(value, kp, previous)), Ok(false))
  }

  // ---------------------------------------------------------------------------
  // _validateDefinitionDict and _validateDefinitionArray

  /** `table.get(k)`: tables have string keys only. */
  function TableRow(table: Table, k: Key): Option<Attrib> {
    if k.SKey? then Lookup(table, k.s) else None
  }

  /** Validation of the entries `d.entries[i..]`, one after the other. */
  function ValidateEntries(tables: Tables, g: Globals, d: Value, i: nat, table: Table, sdk: Value, path: string): (Globals, Outcome)
    requires d.Dict? && i <= |d.entries|
    decreases d, |d.entries| - i + 1
  {
    if i == |d.entries| then (g, Done)
    else
      var (g1, o1) := ValidateEntry(tables, g, d, i, table, sdk, path);
      if o1.Raised? then (g1, o1) else ValidateEntries(tables, g1, d, i + 1, table, sdk, path)
  }

  /** One attribute of a dict: unknown keys are reported, known ones validated and,
      when they hold a list with a child table, walked into. */
  function ValidateEntry(tables: Tables, g: Globals, d: Value, i: nat, table: Table, sdk: Value, path: string): (Globals, Outcome)
    requires d.Dict? && i < |d.entries|
    decreases d, 0
  {
    var (k, v) := d.entries[i];
    match KeyPathOf(path, k)
    case Err(e) => (g, Raised(e))
    case Ok(kp) =>
      match TableRow(table, k)
      case None => (Warn(g, UnknownAttribute(kp)), Done)
      case Some(a) =>
        var (g1, r) := ValidateAttrib(g, k.s, v, a, sdk, path);
        match r
        case Err(e) => (g1, Raised(e))
        case Ok(valid) =>
          if valid && v.List? && ChildTable(tables, a) != [] then ValidateArray(tables, g1, v, ChildTable(tables, a), sdk, kp)
          else (g1, Done)
  }

  /** The warning of the required-attribute pass for row `j`: required rows whose
      key the dict lacks are reported. */
  function MissingRow(keys: seq<Key>, table: Table, j: nat, path: string): seq<Warning>
    requires j < |table|
  {
    if table[j].1.r && SKey(table[j].0) !in keys then [MissingRequired(KeyPath(path, table[j].0))] else []
  }

  /** The required-attribute pass over the rows `table[..j]`. */
  function MissingUpTo(keys: seq<Key>, table: Table, j: nat, path: string): seq<Warning>
    requires j <= |table|
  {
    if j == 0 then [] else MissingUpTo(keys, table, j - 1, path) + MissingRow(keys, table, j - 1, path)
  }

  /** `_validateDefinitionDict(d, table, sdk, path)`. */
  function ValidateDict(tables: Tables, g: Globals, d: Value, table: Table, sdk: Value, path: string): (Globals, Outcome)
    requires d.Dict?
    decreases d, |d.entries| + 2
  {
    var (g1, o1) := ValidateEntries(tables, g, d, 0, table, sdk, path);
    if o1.Raised? then (g1, o1)
    else (g1.(messages := g1.messages + MissingUpTo(KeysOf(d.entries), table, |table|, path)), Done)
  }

  /** Validation of the members `a.items[i..]`. */
  function ValidateItems(tables: Tables, g: Globals, a: Value, i: nat, table: Table, sdk: Value, path: string): (Globals, Outcome)
    requires a.List? && i <= |a.items|
    decreases a, |a.items| - i + 1
  {
    if i == |a.items| then (g, Done)
    else
      var (g1, o1) := ValidateItem(tables, g, a, i, table, sdk, path);
      if o1.Raised? then (g1, o1) else ValidateItems(tables, g1, a, i + 1, table, sdk, path)
  }

  /** One array member: dicts are validated against the table, anything else reported. */
  function ValidateItem(tables: Tables, g: Globals, a: Value, i: nat, table: Table, sdk: Value, path: string): (Globals, Outcome)
    requires a.List? && i < |a.items|
    decreases a, 0
  {
    var item := a.items[i];
    if item.Dict? then ValidateDict(tables, g, item, table, sdk, IndexPath(path, IntToString(i)))
    else (Warn(g, BadArrayMember(item, path)), Done)
  }

  /** `_validateDefinitionArray(a, table, sdk, path)`. */
  function ValidateArray(tables: Tables, g: Globals, a: Value, table: Table, sdk: Value, path: string): (Globals, Outcome)
    requires a.List?
    decreases a, |a.items| + 2
  {
    ValidateItems(tables, g, a, 0, table, sdk, path)
  }

  /** `data.get('sdk', TPSDK_DEFAULT_VERSION)`. */
  function SdkOf(data: Value): Value
    requires data.Dict?
  {
    match Lookup(data.entries, SKey("sdk"))
    case None => Int(DEFAULT_VERSION)
    case Some(v) => v
  }

  /** `validateDefinitionObject(data)`: a fresh validation of a whole definition
      against the root table; `True` exactly when it produced no warning. */
  function ValidateDefinition(tables: Tables, data: Value): (Globals, Result<bool>) {
    if !data.Dict? then (CLEARED, Err(AttributeError))
    else
      var (g, o) := ValidateDict(tables, CLEARED, data, tables(RootTable), SdkOf(data), "");
      match o
      case Raised(e) => (g, Err(e))
      case Done => (g, Ok(|g.messages| == 0))
  }

  // ---------------------------------------------------------------------------
  // _replaceFormatTokens

  /** `\w` over ASCII. */
  predicate IsWordChar(c: char) {
    'a' <= c <= 'z' || 'A' <= c <= 'Z' || '0' <= c <= '9' || c == '_'
  }

  /** The end of the run of word characters that starts at `i`. */
  function WordRunEnd(s: string, i: nat): (j: nat)
    requires i <= |s|
    ensures i <= j <= |s|
    ensures j < |s| ==> !IsWordChar(s[j])
    decreases |s| - i
  {
    if i == |s| || !IsWordChar(s[i]) then i else WordRunEnd(s, i + 1)
  }

  /** The run found by `WordRunEnd` consists of word characters only. */
  lemma {:induction false} WordRunEndAllWord(s: string, i: nat)
    requires i <= |s|
    ensures forall k :: i <= k < WordRunEnd(s, i) ==> IsWordChar(s[k])
    decreases |s| - i
  {
    if i < |s| && IsWordChar(s[i]) {
      WordRunEndAllWord(s, i + 1);
    }
  }

  /** The end of a match of `\$\[(\w+)\]` starting at `p`, if there is one. */
  function TokenAt(s: string, p: nat): (r: Option<nat>)
    requires p <= |s|
    ensures r.Some? ==> p + 4 <= r.value <= |s|
  {
    if p + 1 < |s| && s[p] == '$' && s[p + 1] == '[' then
      var j := WordRunEnd(s, p + 2);
      if j > p + 2 && j < |s| && s[j] == ']' then Some(j + 1) else None
    else None
  }

  /** `rx.search(s, begin)`: the leftmost match at or after `begin`, as (start, end). */
  function FindToken(s: string, begin: nat): (r: Option<(nat, nat)>)
    requires begin <= |s|
    ensures r.Some? ==> begin <= r.value.0 && r.value.0 + 4 <= r.value.1 <= |s|
    decreases |s| - begin
  {
    if begin == |s| then None
    else match TokenAt(s, begin)
      case Some(end) => Some((begin, end))
      case None => FindToken(s, begin + 1)
  }

  /** The replacement of token `name`: the data id whose last segment it is, else
      the `name`-th data id (1-based) when `name` is a number in range. */
  function Resolve(ids: seq<(string, string)>, name: string): Option<string> {
    match Lookup(ids, name)
    case Some(id) => Some(id)
    case None =>
      if IsDigits(name) && 1 <= ParseNat(name) <= |ids| then Some(ids[ParseNat(name) - 1].1) else None
  }

  /** The `while` loop of `_replaceFormatTokens` from position `begin` of `fmt`: the
      rewritten text and the warnings for tokens that could not be resolved. */
  function Rewrite(fmt: string, begin: nat, ids: seq<(string, string)>, element: Value): (string, seq<Warning>)
    requires begin <= |fmt|
    decreases |fmt| - begin, 1
  {
    match FindToken(fmt, begin)
    case None => (fmt, [])
    case Some((start, end)) => RewriteToken(fmt, start, end, ids, element)
  }

  /** One pass of that loop, at the token `fmt[start..end]`. */
  function RewriteToken(fmt: string, start: nat, end: nat, ids: seq<(string, string)>, element: Value): (string, seq<Warning>)
    requires start + 4 <= end <= |fmt|
    decreases |fmt| - start, 0
  {
    var name := fmt[start + 2..end - 1];
    match Resolve(ids, name)
    case None =>
      var (f, ws) := Rewrite(fmt, end, ids, element);
      (f, [NoReplacement(name, element)] + ws)
    case Some(id) =>
      Rewrite(fmt[..start] + "{$" + id + "$}" + fmt[end..], start + |id| + 4, ids, element)
  }

  /** `Rewrite` at a token whose name cannot be resolved: a warning, and the search
      goes on after the token. */
  lemma RewriteUnresolved(fmt: string, begin: nat, ids: seq<(string, string)>, element: Value, start: nat, end: nat)
    requires begin <= |fmt| && FindToken(fmt, begin) == Some((start, end))
    requires Resolve(ids, fmt[start + 2..end - 1]).None?
    ensures Rewrite(fmt, begin, ids, element).0 == Rewrite(fmt, end, ids, element).0
    ensures Rewrite(fmt, begin, ids, element).1 == [NoReplacement(fmt[start + 2..end - 1], element)] + Rewrite(fmt, end, ids, element).1
  {
  }

  /** `Rewrite` at a token resolved to `id`: the token is replaced by `{$id$}` and
      the search goes on after the replacement. */
  lemma RewriteResolved(fmt: string, begin: nat, ids: seq<(string, string)>, element: Value, start: nat, end: nat, id: string)
    requires begin <= |fmt| && FindToken(fmt, begin) == Some((start, end))
    requires Resolve(ids, fmt[start + 2..end - 1]) == Some(id)
    ensures start + |id| + 4 <= |fmt[..start] + "{$" + id + "$}" + fmt[end..]|
    ensures Rewrite(fmt, begin, ids, element) == Rewrite(fmt[..start] + "{$" + id + "$}" + fmt[end..], start + |id| + 4, ids, element)
  {
  }

  /** The `data_ids` dict built from `datas[i..]` on top of `ids`: each truthy `id`
      keyed by its last dotted segment. */
  function DataIds(datas: seq<Value>, i: nat, ids: seq<(string, string)>): Result<seq<(string, string)>>
    requires i <= |datas|
    decreases |datas| - i
  {
    if i == |datas| then Ok(ids)
    else match Field(datas[i], "id")
      case Err(e) => Err(e)
      case Ok(did) =>
        if !Truthy(did) then DataIds(datas, i + 1, ids)
        else if !did.Str? then Err(AttributeError)
        else DataIds(datas, i + 1, Put(ids, LastSegment(did.s), did.s))
  }

  /** One element of `_replaceFormatTokens`: only dicts with both `format` and
      `data` and at least one data id have their `format` rewritten. */
  function FormatItem(g: Globals, d: Value): (Globals, Result<Value>) {
    if !d.Dict? || SKey("format") !in KeysOf(d.entries) || SKey("data") !in KeysOf(d.entries) then (g, Ok(d))
    else match Iterate(Get(d.entries, "data"))
      case Err(e) => (g, Err(e))
      case Ok(datas) =>
        match DataIds(datas, 0, [])
        case Err(e) => (g, Err(e))
        case Ok(ids) =>
          if ids == [] then (g, Ok(d))
          else
            var fmt := Get(d.entries, "format");
            if !fmt.Str? then (g, Err(TypeError))
            else
              var (f, ws) := Rewrite(fmt.s, 0, ids, Get(d.entries, "id"));
              (g.(messages := g.messages + ws), Ok(Dict(Put(d.entries, SKey("format"), Str(f)))))
  }

  /** `_replaceFormatTokens` over `items[i..]`, after `done` were rewritten. */
  function FormatItems(g: Globals, items: seq<Value>, i: nat, done: seq<Value>): (Globals, Result<seq<Value>>)
    requires i <= |items|
    decreases |items| - i
  {
    if i == |items| then (g, Ok(done))
    else
      var (g1, r1) := FormatItem(g, items[i]);
      match r1
      case Err(e) => (g1, Err(e))
      case Ok(x) => FormatItems(g1, items, i + 1, done + [x])
  }

  // ---------------------------------------------------------------------------
  // _dictFromItem and _arrayFromDict

  function DefaultOf(a: Attrib): Value {
    if a.d.Some? then a.d.value else Null
  }

  /** Adds attribute `k` with value `v` when it validates, or, unless invalid values
      are skipped, whenever it is not `None`. */
  function Keep(g: Globals, k: string, v: Value, a: Attrib, ret: seq<(Key, Value)>, sdk: Value, path: string, skip: bool)
    : (Globals, Result<seq<(Key, Value)>>)
  {
    var (g1, r) := ValidateAttrib(g, k, v, a, sdk, path);
    match r
    case Err(e) => (g1, Err(e))
    case Ok(valid) => (g1, Ok(if valid || (!skip && !v.Null?) then Put(ret, SKey(k), v) else ret))
  }

  /** The rows `table[i..]` of `_dictFromItem`, after `ret` was built from the others. */
  function ItemRows(tables: Tables, g: Globals, item: Value, table: Table, i: nat, ret: seq<(Key, Value)>, sdk: Value, path: string, skip: bool)
    : (Globals, Result<seq<(Key, Value)>>)
    requires item.Dict? && i <= |table|
    decreases item, |table| - i + 1
  {
    if i == |table| then (g, Ok(ret))
    else
      var (g1, r1) := ItemRow(tables, g, item, table, i, ret, sdk, path, skip);
      match r1
      case Err(e) => (g1, Err(e))
      case Ok(ret1) => ItemRows(tables, g1, item, table, i + 1, ret1, sdk, path, skip)
  }

  /** Row `i`: the explicit value, else the default; a dict given for a list
      attribute is first turned into an array. */
  function ItemRow(tables: Tables, g: Globals, item: Value, table: Table, i: nat, ret: seq<(Key, Value)>, sdk: Value, path: string, skip: bool)
    : (Globals, Result<seq<(Key, Value)>>)
    requires item.Dict? && i < |table|
    decreases item, 0
  {
    var (k, a) := table[i];
    var explicit := Get(item.entries, k);
    var v := if explicit.Null? then DefaultOf(a) else explicit;
    if v.Dict? && a.t == [TList] then
      LookupSpec(item.entries, SKey(k));
      var (g1, r1) := ArrayFromDict(tables, g, v, ChildTable(tables, a), sdk, Null, KeyPath(path, k), skip);
      match r1
      case Err(e) => (g1, Err(e))
      case Ok(list) => Keep(g1, k, List(list), a, ret, sdk, path, skip)
    else Keep(g, k, v, a, ret, sdk, path, skip)
  }

  /** `_dictFromItem(item, table, sdk, path, skip)`; a non-dict item gives `{}`. */
  function DictFromItem(tables: Tables, g: Globals, item: Value, table: Table, sdk: Value, path: string, skip: bool)
    : (Globals, Result<seq<(Key, Value)>>)
    decreases item, |table| + 2
  {
    if !item.Dict? then (g, Ok([])) else ItemRows(tables, g, item, table, 0, [], sdk, path, skip)
  }

  /** Whether `_arrayFromDict` takes an item: always without a category, else when
      the item names no category or the wanted one. */
  function Selected(item: Value, category: Value): Result<bool> {
    if !Truthy(category) then Ok(true)
    else match Field(item, "category")
      case Err(e) => Err(e)
      case Ok(cat) => Ok(!Truthy(cat) || PyEq(cat, category))
  }

  /** The entries `d.entries[i..]` of `_arrayFromDict`, after `ret` was built. */
  function ArrayEntries(tables: Tables, g: Globals, d: Value, i: nat, ret: seq<Value>, table: Table, sdk: Value, category: Value,
                        path: string, skip: bool): (Globals, Result<seq<Value>>)
    requires d.Dict? && i <= |d.entries|
    decreases d, |d.entries| - i + 1
  {
    if i == |d.entries| then (g, Ok(ret))
    else
      var (g1, r1) := ArrayEntry(tables, g, d, i, ret, table, sdk, category, path, skip);
      match r1
      case Err(e) => (g1, Err(e))
      case Ok(ret1) => ArrayEntries(tables, g1, d, i + 1, ret1, table, sdk, category, path, skip)
  }

  function ArrayEntry(tables: Tables, g: Globals, d: Value, i: nat, ret: seq<Value>, table: Table, sdk: Value, category: Value,
                      path: string, skip: bool): (Globals, Result<seq<Value>>)
    requires d.Dict? && i < |d.entries|
    decreases d, 0
  {
    var (key, item) := d.entries[i];
    match Selected(item, category)
    case Err(e) => (g, Err(e))
    case Ok(take) =>
      if !take then (g, Ok(ret))
      else
        var (g1, r1) := DictFromItem(tables, g, item, table, sdk, IndexPath(path, KeyText(key)), skip);
        match r1
        case Err(e) => (g1, Err(e))
        case Ok(x) => (g1, Ok(ret + [Dict(x)]))
  }

  /** `_arrayFromDict(d, table, sdk, category, path, skip)`; a non-dict gives `[]`, and
      the `actions` and `connectors` arrays get their format tokens replaced. */
  function ArrayFromDict(tables: Tables, g: Globals, d: Value, table: Table, sdk: Value, category: Value, path: string, skip: bool)
    : (Globals, Result<seq<Value>>)
    decreases d, (if d.Dict? then |d.entries| else 0) + 2
  {
    if !d.Dict? then (g, Ok([]))
    else
      var (g1, r1) := ArrayEntries(tables, g, d, 0, [], table, sdk, category, path, skip);
      match r1
      case Err(e) => (g1, Err(e))
      case Ok(items) =>
        if path == "actions" || path == "connectors" then FormatItems(g1, items, 0, []) else (g1, Ok(items))
  }

  // ---------------------------------------------------------------------------
  // generateDefinitionFromDeclaration

  /** The optional keyword arguments (each `{}` when not given). */
  datatype Declarations = Declarations(settings: Value, actions: Value, states: Value, events: Value, connectors: Value)

  /** `tgt_sdk_v >= n`, TypeError for a non-number. */
  function AtLeast(sdk: Value, n: int): (r: Result<bool>)
    ensures r.Ok? <==> Num(sdk).Some?
    ensures r.Ok? ==> r.value == (Num(sdk).value >= n as real)
  {
    match PyLess(sdk, Int(n))
    case Err(e) => Err(e)
    case Ok(less) => Ok(!less)
  }

  /** The dict built for category `cat`: its own attributes, then its actions, states,
      events and, from SDK 4 on, its connectors. */
  function CategoryOf(tables: Tables, g: Globals, cat: Key, data: Value, sdk: Value, decl: Declarations, skip: bool)
    : (Globals, Result<seq<(Key, Value)>>)
  {
    var catv := KeyValue(cat);
    var (g1, r1) := DictFromItem(tables, g, data, tables(CategoryTable), sdk, IndexPath("category", KeyText(cat)), skip);
    if r1.Err? then (g1, Err(r1.error)) else
    var (g2, r2) := CategoryArrays(tables, g1, r1.value, CategoryStages(decl), 0, catv, sdk, skip);
    if r2.Err? then (g2, Err(r2.error)) else CategoryConnectors(tables, g2, r2.value, catv, sdk, decl, skip)
  }

  /** The arrays every category gets, in the order they are assigned: each is named
      by its key, declared by one argument and built against one table. */
  function CategoryStages(decl: Declarations): seq<(string, Value, TableId)> {
    [("actions", decl.actions, ActionTable), ("states", decl.states, StateTable), ("events", decl.events, EventTable)]
  }

  /** The arrays `stages[i..]` of the category dict `c`, each holding the items
      selected by category `catv`. */
  function CategoryArrays(tables: Tables, g: Globals, c: seq<(Key, Value)>, stages: seq<(string, Value, TableId)>, i: nat,
                          catv: Value, sdk: Value, skip: bool): (Globals, Result<seq<(Key, Value)>>)
    requires i <= |stages|
    decreases |stages| - i
  {
    if i == |stages| then (g, Ok(c))
    else
      var (name, d, id) := stages[i];
      var (g1, r1) := ArrayFromDict(tables, g, d, tables(id), sdk, catv, name, skip);
      if r1.Err? then (g1, Err(r1.error))
      else CategoryArrays(tables, g1, Put(c, SKey(name), List(r1.value)), stages, i + 1, catv, sdk, skip)
  }

  /** The `connectors` array of the category dict `c`, added from SDK 4 on. */
  function CategoryConnectors(tables: Tables, g: Globals, c: seq<(Key, Value)>, catv: Value, sdk: Value, decl: Declarations, skip: bool)
    : (Globals, Result<seq<(Key, Value)>>)
  {
    match AtLeast(sdk, 4)
    case Err(e) => (g, Err(e))
    case Ok(withConnectors) =>
      if !withConnectors then (g, Ok(c))
      else
        var (g5, r5) := ArrayFromDict(tables, g, decl.connectors, tables(ConnectorTable), sdk, catv, "connectors", skip);
        if r5.Err? then (g5, Err(r5.error)) else (g5, Ok(Put(c, SKey("connectors"), List(r5.value))))
  }

  /** `entry[name].append(x)` (or `.extend`): KeyError without the key, AttributeError
      when it does not hold a list. */
  function AppendTo(entry: seq<(Key, Value)>, name: string, xs: seq<Value>): Result<seq<(Key, Value)>> {
    match Lookup(entry, SKey(name))
    case None => Err(KeyError)
    case Some(v) => if v.List? then Ok(Put(entry, SKey(name), List(v.items + xs))) else Err(AttributeError)
  }

  /** The category loop over `cats[i..]`. */
  function CategoriesFrom(tables: Tables, g: Globals, entry: seq<(Key, Value)>, cats: seq<(Key, Value)>, i: nat, sdk: Value,
                          decl: Declarations, skip: bool): (Globals, Result<seq<(Key, Value)>>)
    requires i <= |cats|
    decreases |cats| - i
  {
    if i == |cats| then (g, Ok(entry))
    else
      var (g1, r1) := CategoryOf(tables, g, cats[i].0, cats[i].1, sdk, decl, skip);
      if r1.Err? then (g1, Err(r1.error))
      else match AppendTo(entry, "categories", [Dict(r1.value)])
        case Err(e) => (g1, Err(e))
        case Ok(entry1) => CategoriesFrom(tables, g1, entry1, cats, i + 1, sdk, decl, skip)
  }

  /** The settings step: from SDK 3 on, the settings array is appended to the root. */
  function AddSettings(tables: Tables, g: Globals, entry: seq<(Key, Value)>, sdk: Value, decl: Declarations, skip: bool)
    : (Globals, Result<seq<(Key, Value)>>)
  {
    match AtLeast(sdk, 3)
    case Err(e) => (g, Err(e))
    case Ok(withSettings) =>
      if !withSettings then (g, Ok(entry))
      else match Lookup(entry, SKey("settings"))
        case None => (g, Err(KeyError))
        case Some(current) =>
          if !current.List? then (g, Err(AttributeError))
          else
            var (g1, r1) := ArrayFromDict(tables, g, decl.settings, tables(SettingsTable), sdk, Null, "settings", skip);
            if r1.Err? then (g1, Err(r1.error)) else (g1, Ok(Put(entry, SKey("settings"), List(current.items + r1.value))))
  }

  /** `generateDefinitionFromDeclaration(info, categories, skip_invalid, **decl)`. */
  function GenerateDefinition(tables: Tables, info: Value, categories: Value, skip: bool, decl: Declarations)
    : (Globals, Result<seq<(Key, Value)>>)
  {
    var (g1, r1) := DictFromItem(tables, CLEARED, info, tables(RootTable), Int(DEFAULT_VERSION), "info", false);
    if r1.Err? then (g1, Err(r1.error)) else
    match Lookup(r1.value, SKey("sdk"))
    case None => (g1, Err(KeyError))
    case Some(sdk) =>
      if !categories.Dict? then (g1, Err(AttributeError))
      else
        var (g2, r2) := CategoriesFrom(tables, g1, r1.value, categories.entries, 0, sdk, decl, skip);
        if r2.Err? then (g2, Err(r2.error)) else AddSettings(tables, g2, r2.value, sdk, decl, skip)
  }

  // ---------------------------------------------------------------------------
  // The module and its globals

  class Tools {
    /** The SDK's attribute tables. */
    const tables: Tables
    var messages: seq<Warning>
    var seenIds: seq<(Value, string)>

    function Snap(): Globals
      reads this
    {
      Globals(messages, seenIds)
    }

    constructor ()
      ensures tables == TableOf
      ensures Snap() == CLEARED
    {
      tables := TableOf;
      messages := [];
      seenIds := [];
    }

    /** `clearMessages()` followed by `_clearSeenIds()`. */
    method Clear()
      modifies this
      ensures Snap() == CLEARED
    {
      messages := [];
      seenIds := [];
    }

    method AddMessage(w: Warning)
      modifies this
      ensures Snap() == Warn(old(Snap()), w)
    {
      messages := messages + [w];
    }

    method ValidateAttribValue(key: string, value: Value, a: Attrib, sdk: Value, path: string) returns (r: Result<bool>)
      modifies this
      ensures (Snap(), r) == ValidateAttrib(old(Snap()), key, value, a, sdk, path)
    {
      var keypath := KeyPath(path, key);
      if value.Null? {
        if a.r {
          AddMessage(MissingRequired(keypath));
        }
        return Ok(false);
      }
      if !IsInstance(value, a.t) {
        AddMessage(WrongType(keypath, a.t, value));
        return Ok(false);
      }
      var tooOld := PyLess(sdk, Int(a.v));
      if tooOld.Err? {
        return Err(tooOld.error);
      }
      if tooOld.value {
        AddMessage(WrongSdk(keypath, a.v, sdk));
        return Ok(false);
      }
      if a.c != [] && !PyIn(value, a.c) {
        AddMessage(NotAChoice(keypath, value, a.c));
        return Ok(false);
      }
      if key == "id" {
        if !Hashable(value) {
          return Err(TypeError);
        }
        var previous := SeenPath(seenIds, value);
        if previous.None? {
          seenIds := seenIds + [(value, keypath)];
        } else {
          AddMessage(NotUnique(value, keypath, previous.value));
          return Ok(false);
        }
      }
      return Ok(true);
    }

    method ValidateDefinitionDict(d: Value, table: Table, sdk: Value, path: string) returns (o: Outcome)
      requires d.Dict?
      modifies this
      ensures (Snap(), o) == ValidateDict(tables, old(Snap()), d, table, sdk, path)
      decreases d, 1
    {
      var i := 0;
      while i < |d.entries|
        invariant i <= |d.entries|
        invariant ValidateEntries(tables, Snap(), d, i, table, sdk, path)
               == ValidateEntries(tables, old(Snap()), d, 0, table, sdk, path)
      {
        var entry := ValidateDictEntry(d, i, table, sdk, path);
        if entry.Raised? {
          return entry;
        }
        i := i + 1;
      }
      AddMissingRequired(KeysOf(d.entries), table, path);
      return Done;
    }

    /** The second loop of `_validateDefinitionDict`: every required row whose key
        is not among `keys` adds a warning, in table order. */
    method AddMissingRequired(keys: seq<Key>, table: Table, path: string)
      modifies this
      ensures messages == old(messages) + MissingUpTo(keys, table, |table|, path)
      ensures seenIds == old(seenIds)
    {
      var j := 0;
      while j < |table|
        invariant j <= |table|
        invariant messages == old(messages) + MissingUpTo(keys, table, j, path)
        invariant seenIds == old(seenIds)
      {
        var (k, a) := table[j];
        if a.r && SKey(k) !in keys {
          AddMessage(MissingRequired(KeyPath(path, k)));
        }
        assert old(messages) + MissingUpTo(keys, table, j + 1, path)
            == (old(messages) + MissingUpTo(keys, table, j, path)) + MissingRow(keys, table, j, path);
        j := j + 1;
      }
    }

    /** The body of the first loop of `_validateDefinitionDict`, for entry `i`. */
    method ValidateDictEntry(d: Value, i: nat, table: Table, sdk: Value, path: string) returns (o: Outcome)
      requires d.Dict? && i < |d.entries|
      modifies this
      ensures (Snap(), o) == ValidateEntry(tables, old(Snap()), d, i, table, sdk, path)
      decreases d, 0
    {
      var (k, v) := d.entries[i];
      var adata := TableRow(table, k);
      var keypath := KeyPathOf(path, k);
      if keypath.Err? {
        return Raised(keypath.error);
      }
      if adata.None? {
        AddMessage(UnknownAttribute(keypath.value));
        return Done;
      }
      var valid := ValidateAttribValue(k.s, v, adata.value, sdk, path);
      if valid.Err? {
        return Raised(valid.error);
      }
      o := Done;
      if valid.value && v.List? && ChildTable(tables, adata.value) != [] {
        o := ValidateDefinitionArray(v, ChildTable(tables, adata.value), sdk, keypath.value);
      }
    }

    method ValidateDefinitionArray(a: Value, table: Table, sdk: Value, path: string) returns (o: Outcome)
      requires a.List?
      modifies this
      ensures (Snap(), o) == ValidateArray(tables, old(Snap()), a, table, sdk, path)
      decreases a, 2
    {
      var i := 0;
      while i < |a.items|
        invariant i <= |a.items|
        invariant ValidateItems(tables, Snap(), a, i, table, sdk, path) == ValidateItems(tables, old(Snap()), a, 0, table, sdk, path)
      {
        var item := a.items[i];
        if item.Dict? {
          var nested := ValidateDefinitionDict(item, table, sdk, IndexPath(path, IntToString(i)));
          if nested.Raised? {
            return nested;
          }
        } else {
          AddMessage(BadArrayMember(item, path));
        }
        i := i + 1;
      }
      return Done;
    }

    method ValidateDefinitionObject(data: Value) returns (r: Result<bool>)
      modifies this
      ensures (Snap(), r) == ValidateDefinition(tables, data)
    {
      Clear();
      if !data.Dict? {
        return Err(AttributeError);
      }
      var sdk := SdkOf(data);
      var o := ValidateDefinitionDict(data, tables(RootTable), sdk, "");
      if o.Raised? {
        return Err(o.error);
      }
      return Ok(|messages| == 0);
    }

    // -------------------------------------------------------------------------
    // Generator

    /** `_dictFromItem(item, table, sdk, path, skip)`. */
    method BuildDict(item: Value, table: Table, sdk: Value, path: string, skip: bool) returns (r: Result<seq<(Key, Value)>>)
      modifies this
      ensures (Snap(), r) == DictFromItem(tables, old(Snap()), item, table, sdk, path, skip)
      decreases item, 3
    {
      if !item.Dict? {
        return Ok([]);
      }
      r := BuildRows(item, table, sdk, path, skip);
    }

    /** The loop of `_dictFromItem` over the rows of `table`. */
    method BuildRows(item: Value, table: Table, sdk: Value, path: string, skip: bool) returns (r: Result<seq<(Key, Value)>>)
      requires item.Dict?
      modifies this
      ensures (Snap(), r) == ItemRows(tables, old(Snap()), item, table, 0, [], sdk, path, skip)
      decreases item, 2
    {
      var ret := [];
      var i := 0;
      while i < |table|
        invariant i <= |table|
        invariant ItemRows(tables, Snap(), item, table, i, ret, sdk, path, skip)
               == ItemRows(tables, old(Snap()), item, table, 0, [], sdk, path, skip)
      {
        ghost var before := ItemRows(tables, Snap(), item, table, i, ret, sdk, path, skip);
        var row := BuildRow(item, table, i, ret, sdk, path, skip);
        if row.Err? {
          return Err(row.error);
        }
        ret := row.value;
        i := i + 1;
        assert ItemRows(tables, Snap(), item, table, i, ret, sdk, path, skip) == before;
      }
      return Ok(ret);
    }

    /** The body of the loop of `_dictFromItem`, for row `i`. */
    method BuildRow(item: Value, table: Table, i: nat, ret: seq<(Key, Value)>, sdk: Value, path: string, skip: bool)
      returns (r: Result<seq<(Key, Value)>>)
      requires item.Dict? && i < |table|
      modifies this
      ensures (Snap(), r) == ItemRow(tables, old(Snap()), item, table, i, ret, sdk, path, skip)
      decreases item, 1
    {
      var (k, a) := table[i];
      var v := Get(item.entries, k);
      if v.Null? {
        v := DefaultOf(a);
      }
      if v.Dict? && a.t == [TList] {
        LookupSpec(item.entries, SKey(k));
        var list := BuildArray(v, ChildTable(tables, a), sdk, Null, KeyPath(path, k), skip);
        if list.Err? {
          return Err(list.error);
        }
        v := List(list.value);
      }
      var valid := ValidateAttribValue(k, v, a, sdk, path);
      if valid.Err? {
        return Err(valid.error);
      }
      if valid.value || (!skip && !v.Null?) {
        return Ok(Put(ret, SKey(k), v));
      }
      return Ok(ret);
    }

    /** `_arrayFromDict(d, table, sdk, category, path, skip)`. */
    method BuildArray(d: Value, table: Table, sdk: Value, category: Value, path: string, skip: bool) returns (r: Result<seq<Value>>)
      modifies this
      ensures (Snap(), r) == ArrayFromDict(tables, old(Snap()), d, table, sdk, category, path, skip)
      decreases d, 3
    {
      if !d.Dict? {
        return Ok([]);
      }
      var items := SelectItems(d, table, sdk, category, path, skip);
      if items.Err? {
        return items;
      }
      if path == "actions" || path == "connectors" {
        r := ReplaceFormatTokens(items.value);
      } else {
        r := items;
      }
    }

    /** The loop of `_arrayFromDict`: the selected items of `d`, each built by
        `_dictFromItem`. */
    method SelectItems(d: Value, table: Table, sdk: Value, category: Value, path: string, skip: bool) returns (r: Result<seq<Value>>)
      requires d.Dict?
      modifies this
      ensures (Snap(), r) == ArrayEntries(tables, old(Snap()), d, 0, [], table, sdk, category, path, skip)
      decreases d, 2
    {
      var ret := [];
      var i := 0;
      while i < |d.entries|
        invariant i <= |d.entries|
        invariant ArrayEntries(tables, Snap(), d, i, ret, table, sdk, category, path, skip)
               == ArrayEntries(tables, old(Snap()), d, 0, [], table, sdk, category, path, skip)
      {
        ghost var before := ArrayEntries(tables, Snap(), d, i, ret, table, sdk, category, path, skip);
        var entry := BuildArrayEntry(d, i, ret, table, sdk, category, path, skip);
        if entry.Err? {
          return Err(entry.error);
        }
        ret := entry.value;
        i := i + 1;
        assert ArrayEntries(tables, Snap(), d, i, ret, table, sdk, category, path, skip) == before;
      }
      return Ok(ret);
    }

    /** The body of the loop of `_arrayFromDict`, for entry `i`. */
    method BuildArrayEntry(d: Value, i: nat, ret: seq<Value>, table: Table, sdk: Value, category: Value, path: string, skip: bool)
      returns (r: Result<seq<Value>>)
      requires d.Dict? && i < |d.entries|
      modifies this
      ensures (Snap(), r) == ArrayEntry(tables, old(Snap()), d, i, ret, table, sdk, category, path, skip)
      decreases d, 1
    {
      var (key, item) := d.entries[i];
      var take := Selected(item, category);
      if take.Err? {
        return Err(take.error);
      }
      if !take.value {
        return Ok(ret);
      }
      var x := BuildDict(item, table, sdk, IndexPath(path, KeyText(key)), skip);
      if x.Err? {
        return Err(x.error);
      }
      return Ok(ret + [Dict(x.value)]);
    }

    /** `_replaceFormatTokens(items)`; the rewritten items are returned rather than
        updated in place. */
    method ReplaceFormatTokens(items: seq<Value>) returns (r: Result<seq<Value>>)
      modifies this
      ensures (Snap(), r) == FormatItems(old(Snap()), items, 0, [])
    {
      var done := [];
      var i := 0;
      while i < |items|
        invariant i <= |items|
        invariant FormatItems(Snap(), items, i, done) == FormatItems(old(Snap()), items, 0, [])
      {
        var x := FormatElement(items[i]);
        if x.Err? {
          return Err(x.error);
        }
        done := done + [x.value];
        i := i + 1;
      }
      return Ok(done);
    }

    /** The body of the loop of `_replaceFormatTokens`, for element `d`. */
    method FormatElement(d: Value) returns (r: Result<Value>)
      modifies this
      ensures (Snap(), r) == FormatItem(old(Snap()), d)
    {
      if !d.Dict? || SKey("format") !in KeysOf(d.entries) || SKey("data") !in KeysOf(d.entries) {
        return Ok(d);
      }
      var datas := Iterate(Get(d.entries, "data"));
      if datas.Err? {
        return Err(datas.error);
      }
      var ids := CollectDataIds(datas.value);
      if ids.Err? {
        return Err(ids.error);
      }
      if ids.value == [] {
        return Ok(d);
      }
      var fmt := Get(d.entries, "format");
      if !fmt.Str? {
        return Err(TypeError);
      }
      var f := RewriteFormat(fmt.s, ids.value, Get(d.entries, "id"));
      return Ok(Dict(Put(d.entries, SKey("format"), Str(f))));
    }

    /** The `data_ids` loop of `_replaceFormatTokens`. */
    method CollectDataIds(datas: seq<Value>) returns (r: Result<seq<(string, string)>>)
      ensures r == DataIds(datas, 0, [])
    {
      var ids := [];
      var i := 0;
      while i < |datas|
        invariant i <= |datas|
        invariant DataIds(datas, i, ids) == DataIds(datas, 0, [])
      {
        var did := Field(datas[i], "id");
        if did.Err? {
          return Err(did.error);
        }
        if Truthy(did.value) {
          if !did.value.Str? {
            return Err(AttributeError);
          }
          ids := Put(ids, LastSegment(did.value.s), did.value.s);
        }
        i := i + 1;
      }
      return Ok(ids);
    }

    /** The `while` loop of `_replaceFormatTokens` over the format string `fmt`. */
    method RewriteFormat(fmt: string, ids: seq<(string, string)>, element: Value) returns (f: string)
      modifies this
      ensures f == Rewrite(fmt, 0, ids, element).0
      ensures messages == old(messages) + Rewrite(fmt, 0, ids, element).1
      ensures seenIds == old(seenIds)
    {
      f := fmt;
      var begin: nat := 0;
      while FindToken(f, begin).Some?
        invariant begin <= |f|
        invariant Rewrite(f, begin, ids, element).0 == Rewrite(fmt, 0, ids, element).0
        invariant messages + Rewrite(f, begin, ids, element).1 == old(messages) + Rewrite(fmt, 0, ids, element).1
        invariant seenIds == old(seenIds)
        decreases |f| - begin
      {
        ghost var before := Rewrite(f, begin, ids, element);
        ghost var previous := messages;
        f, begin := RewriteNext(f, begin, ids, element);
        assert Rewrite(f, begin, ids, element).0 == before.0;
        assert messages + Rewrite(f, begin, ids, element).1 == previous + before.1;
      }
    }

    /** One iteration of the `while` loop of `_replaceFormatTokens`, at the token
        found from `begin`: the rewriting of the rest of the text is unchanged by it,
        and the warnings it adds come first. */
    method RewriteNext(f: string, begin: nat, ids: seq<(string, string)>, element: Value) returns (f': string, begin': nat)
      requires begin <= |f| && FindToken(f, begin).Some?
      modifies this
      ensures begin' <= |f'| && |f'| - begin' < |f| - begin
      ensures Rewrite(f', begin', ids, element).0 == Rewrite(f, begin, ids, element).0
      ensures messages + Rewrite(f', begin', ids, element).1 == old(messages) + Rewrite(f, begin, ids, element).1
      ensures seenIds == old(seenIds)
    {
      var (start, end) := FindToken(f, begin).value;
      var name := f[start + 2..end - 1];
      var val := Resolve(ids, name);
      if val.None? {
        RewriteUnresolved(f, begin, ids, element, start, end);
        ghost var rest := Rewrite(f, end, ids, element);
        assert messages + Rewrite(f, begin, ids, element).1 == (messages + [NoReplacement(name, element)]) + rest.1;
        f', begin' := f, end;
        AddMessage(NoReplacement(name, element));
        assert Rewrite(f', begin', ids, element) == rest;
      } else {
        f', begin' := ReplaceToken(f, begin, ids, element, start, end, val.value);
      }
    }

    /** The replacement of the token at `start..end` of `f` by `{$id$}`. */
    method ReplaceToken(f: string, begin: nat, ids: seq<(string, string)>, element: Value, start: nat, end: nat, id: string)
      returns (f': string, begin': nat)
      requires begin <= |f| && FindToken(f, begin) == Some((start, end))
      requires Resolve(ids, f[start + 2..end - 1]) == Some(id)
      ensures begin' <= |f'| && |f'| - begin' < |f| - begin
      ensures Rewrite(f', begin', ids, element) == Rewrite(f, begin, ids, element)
    {
      f' := f[..start] + "{$" + id + "$}" + f[end..];
      begin' := start + |id| + 4;
      RewriteResolved(f, begin, ids, element, start, end, id);
    }

    /** `generateDefinitionFromDeclaration(info, categories, skip_invalid, **decl)`:
        a fresh generation of the root definition. */
    method GenerateDefinitionFromDeclaration(info: Value, categories: Value, skip: bool, decl: Declarations)
      returns (r: Result<seq<(Key, Value)>>)
      modifies this
      ensures (Snap(), r) == GenerateDefinition(tables, info, categories, skip, decl)
    {
      Clear();
      var entry := BuildDict(info, tables(RootTable), Int(DEFAULT_VERSION), "info", false);
      if entry.Err? {
        return entry;
      }
      var sdk := Lookup(entry.value, SKey("sdk"));
      if sdk.None? {
        return Err(KeyError);
      }
      if !categories.Dict? {
        return Err(AttributeError);
      }
      var withCategories := AddCategories(entry.value, categories.entries, sdk.value, decl, skip);
      if withCategories.Err? {
        return withCategories;
      }
      r := AddRootSettings(withCategories.value, sdk.value, decl, skip);
    }

    /** The category loop of `generateDefinitionFromDeclaration`. */
    method AddCategories(entry: seq<(Key, Value)>, cats: seq<(Key, Value)>, sdk: Value, decl: Declarations, skip: bool)
      returns (r: Result<seq<(Key, Value)>>)
      modifies this
      ensures (Snap(), r) == CategoriesFrom(tables, old(Snap()), entry, cats, 0, sdk, decl, skip)
    {
      var current := entry;
      var i := 0;
      while i < |cats|
        invariant i <= |cats|
        invariant CategoriesFrom(tables, Snap(), current, cats, i, sdk, decl, skip)
               == CategoriesFrom(tables, old(Snap()), entry, cats, 0, sdk, decl, skip)
      {
        ghost var before := CategoriesFrom(tables, Snap(), current, cats, i, sdk, decl, skip);
        var category := BuildCategory(cats[i].0, cats[i].1, sdk, decl, skip);
        if category.Err? {
          return category;
        }
        var appended := AppendTo(current, "categories", [Dict(category.value)]);
        if appended.Err? {
          return appended;
        }
        current := appended.value;
        i := i + 1;
        assert CategoriesFrom(tables, Snap(), current, cats, i, sdk, decl, skip) == before;
      }
      return Ok(current);
    }

    /** The body of the category loop, for category `cat` declared by `data`. */
    method BuildCategory(cat: Key, data: Value, sdk: Value, decl: Declarations, skip: bool) returns (r: Result<seq<(Key, Value)>>)
      modifies this
      ensures (Snap(), r) == CategoryOf(tables, old(Snap()), cat, data, sdk, decl, skip)
    {
      var category := BuildDict(data, tables(CategoryTable), sdk, IndexPath("category", KeyText(cat)), skip);
      if category.Err? {
        return category;
      }
      var withArrays := AddCategoryArrays(category.value, CategoryStages(decl), KeyValue(cat), sdk, skip);
      if withArrays.Err? {
        return withArrays;
      }
      r := AddConnectors(withArrays.value, KeyValue(cat), sdk, decl, skip);
    }

    /** `category['actions']`, `['states']` and `['events']` of the category loop. */
    method AddCategoryArrays(c: seq<(Key, Value)>, stages: seq<(string, Value, TableId)>, catv: Value, sdk: Value, skip: bool)
      returns (r: Result<seq<(Key, Value)>>)
      modifies this
      ensures (Snap(), r) == CategoryArrays(tables, old(Snap()), c, stages, 0, catv, sdk, skip)
    {
      var current := c;
      var i := 0;
      while i < |stages|
        invariant i <= |stages|
        invariant CategoryArrays(tables, Snap(), current, stages, i, catv, sdk, skip)
               == CategoryArrays(tables, old(Snap()), c, stages, 0, catv, sdk, skip)
      {
        ghost var before := CategoryArrays(tables, Snap(), current, stages, i, catv, sdk, skip);
        var (name, d, id) := stages[i];
        var items := BuildArray(d, tables(id), sdk, catv, name, skip);
        if items.Err? {
          return Err(items.error);
        }
        current := Put(current, SKey(name), List(items.value));
        i := i + 1;
        assert CategoryArrays(tables, Snap(), current, stages, i, catv, sdk, skip) == before;
      }
      return Ok(current);
    }

    /** `category['connectors']` of the category loop, from SDK 4 on. */
    method AddConnectors(c: seq<(Key, Value)>, catv: Value, sdk: Value, decl: Declarations, skip: bool)
      returns (r: Result<seq<(Key, Value)>>)
      modifies this
      ensures (Snap(), r) == CategoryConnectors(tables, old(Snap()), c, catv, sdk, decl, skip)
    {
      var withConnectors := AtLeast(sdk, 4);
      if withConnectors.Err? {
        return Err(withConnectors.error);
      }
      if !withConnectors.value {
        return Ok(c);
      }
      var connectors := BuildArray(decl.connectors, tables(ConnectorTable), sdk, catv, "connectors", skip);
      if connectors.Err? {
        return Err(connectors.error);
      }
      return Ok(Put(c, SKey("connectors"), List(connectors.value)));
    }

    /** The settings step of `generateDefinitionFromDeclaration`. */
    method AddRootSettings(entry: seq<(Key, Value)>, sdk: Value, decl: Declarations, skip: bool) returns (r: Result<seq<(Key, Value)>>)
      modifies this
      ensures (Snap(), r) == AddSettings(tables, old(Snap()), entry, sdk, decl, skip)
    {
      var withSettings := AtLeast(sdk, 3);
      if withSettings.Err? {
        return Err(withSettings.error);
      }
      if !withSettings.value {
        return Ok(entry);
      }
      var current := Lookup(entry, SKey("settings"));
      if current.None? {
        return Err(KeyError);
      }
      if !current.value.List? {
        return Err(AttributeError);
      }
      var settings := BuildArray(decl.settings, tables(SettingsTable), sdk, Null, "settings", skip);
      if settings.Err? {
        return Err(settings.error);
      }
      return Ok(Put(entry, SKey("settings"), List(current.value.items + settings.value)));
    }
  }
}
