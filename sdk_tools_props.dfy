/** Properties of the definition-file validator and generator: what one attribute
    check reports, what the recursive walk keeps and reports, how format tokens are
    rewritten, and what the generator emits. */
module SdkToolsProperties {
  import opened Outcomes
  import opened PyValue
  import opened Text
  import opened SdkSpec
  import opened SdkTools

  // ---------------------------------------------------------------------------
  // validateAttribValue

  /** A missing value (`None`) is never valid; it is reported, once, exactly when
      the attribute is required, and the seen ids stay as they were. */
  lemma AttribMissing(g: Globals, key: string, a: Attrib, sdk: Value, path: string)
    ensures ValidateAttrib(g, key, Null, a, sdk, path).1 == Ok(false)
    ensures ValidateAttrib(g, key, Null, a, sdk, path).0.seenIds == g.seenIds
    ensures ValidateAttrib(g, key, Null, a, sdk, path).0.messages
         == g.messages + (if a.r then [MissingRequired(KeyPath(path, key))] else [])
  {
  }

  /** A value is accepted exactly when it passes every check: present, of a listed
      type, for a target SDK at least the attribute's minimum, among the choices when
      there are any, and, for `id`, hashable and not seen before. */
  lemma AttribAccepted(g: Globals, key: string, value: Value, a: Attrib, sdk: Value, path: string)
    ensures ValidateAttrib(g, key, value, a, sdk, path).1 == Ok(true) <==>
      !value.Null? && IsInstance(value, a.t) && Num(sdk).Some? && Num(sdk).value >= a.v as real
      && (a.c == [] || PyIn(value, a.c))
      && (key == "id" ==> Hashable(value) && SeenPath(g.seenIds, value).None?)
  {
  }

  /** The first failing check decides: a wrong type, then a too-old SDK, then a value
      outside the choices each give `False` with exactly that one warning, and leave
      the seen ids alone. */
  lemma AttribFirstFailure(g: Globals, key: string, value: Value, a: Attrib, sdk: Value, path: string)
    requires !value.Null?
    ensures var (g2, r) := ValidateAttrib(g, key, value, a, sdk, path);
      var kp := KeyPath(path, key);
      if !IsInstance(value, a.t) then
        r == Ok(false) && g2 == Warn(g, WrongType(kp, a.t, value))
      else if Num(sdk).None? then
        r == Err(TypeError) && g2 == g
      else if Num(sdk).value < a.v as real then
        r == Ok(false) && g2 == Warn(g, WrongSdk(kp, a.v, sdk))
      else if a.c != [] && !PyIn(value, a.c) then
        r == Ok(false) && g2 == Warn(g, NotAChoice(kp, value, a.c))
      else
        g2.messages == g.messages || (key == "id" && r == Ok(false))
  {
  }

  /** An `id` that passes the other checks is recorded with its key path and accepted
      the first time; any later equal `id` is rejected with a not-unique warning that
      names where it was first seen, and the seen ids stay as they were. */
  lemma AttribIdFirstAndRepeated(g: Globals, value: Value, a: Attrib, sdk: Value, path: string)
    requires IsInstance(value, a.t) && Hashable(value) && Num(sdk).Some? && Num(sdk).value >= a.v as real
    requires a.c == [] || PyIn(value, a.c)
    ensures SeenPath(g.seenIds, value).None? ==>
      ValidateAttrib(g, "id", value, a, sdk, path)
        == (g.(seenIds := g.seenIds + [(value, KeyPath(path, "id"))]), Ok(true))
    ensures SeenPath(g.seenIds, value).Some? ==>
      ValidateAttrib(g, "id", value, a, sdk, path)
        == (Warn(g, NotUnique(value, KeyPath(path, "id"), SeenPath(g.seenIds, value).value)), Ok(false))
  {
    assert !value.Null?;
  }

  /** Declaring the same `id` value twice: the second declaration is reported as not
      unique, naming the key path of the first. */
  lemma DuplicateIdReported(g: Globals, value: Value, a: Attrib, sdk: Value, path1: string, path2: string)
    requires IsInstance(value, a.t) && Hashable(value) && Num(sdk).Some? && Num(sdk).value >= a.v as real
    requires a.c == [] || PyIn(value, a.c)
    requires SeenPath(g.seenIds, value).None?
    ensures var g1 := ValidateAttrib(g, "id", value, a, sdk, path1).0;
      ValidateAttrib(g1, "id", value, a, sdk, path2)
        == (Warn(g1, NotUnique(value, KeyPath(path2, "id"), KeyPath(path1, "id"))), Ok(false))
  {
    AttribIdFirstAndRepeated(g, value, a, sdk, path1);
    var g1 := ValidateAttrib(g, "id", value, a, sdk, path1).0;
    SeenPathAppend(g.seenIds, value, KeyPath(path1, "id"));
    AttribIdFirstAndRepeated(g1, value, a, sdk, path2);
  }

  /** Looking up a value recorded last, after no earlier equal one, finds its path. */
  lemma {:induction false} SeenPathAppend(seen: seq<(Value, string)>, v: Value, p: string)
    requires SeenPath(seen, v).None?
    ensures SeenPath(seen + [(v, p)], v) == Some(p)
  {
    if seen == [] {
      PyEqRefl(v);
    } else {
      assert (seen + [(v, p)])[1..] == seen[1..] + [(v, p)];
      SeenPathAppend(seen[1..], v, p);
    }
  }

  // ---------------------------------------------------------------------------
  // The recursive walk keeps what it has and keeps ids distinct

  /** `g2` is `g` with possibly more warnings and more seen ids appended. */
  ghost predicate Extends(g: Globals, g2: Globals) {
    g.messages <= g2.messages && g.seenIds <= g2.seenIds
  }

  /** No two recorded ids compare equal. */
  ghost predicate DistinctIds(seen: seq<(Value, string)>) {
    forall i, j :: 0 <= i < j < |seen| ==> !PyEq(seen[i].0, seen[j].0)
  }

  /** Both invariants for one step from `g` to `g2`. */
  ghost predicate Keeps(g: Globals, g2: Globals) {
    Extends(g, g2) && (DistinctIds(g.seenIds) ==> DistinctIds(g2.seenIds))
  }

  lemma KeepsTrans(g1: Globals, g2: Globals, g3: Globals)
    requires Keeps(g1, g2) && Keeps(g2, g3)
    ensures Keeps(g1, g3)
  {
  }

  /** One attribute check only appends: at most one warning, and an `id` is recorded
      only when no equal one was, so recorded ids stay distinct. */
  lemma AttribKeeps(g: Globals, key: string, value: Value, a: Attrib, sdk: Value, path: string)
    ensures Keeps(g, ValidateAttrib(g, key, value, a, sdk, path).0)
    ensures |ValidateAttrib(g, key, value, a, sdk, path).0.messages| <= |g.messages| + 1
  {
    var g2 := ValidateAttrib(g, key, value, a, sdk, path).0;
    if g2.seenIds != g.seenIds && DistinctIds(g.seenIds) {
      assert g2.seenIds == g.seenIds + [(value, KeyPath(path, key))];
      forall i, j | 0 <= i < j < |g2.seenIds|
        ensures !PyEq(g2.seenIds[i].0, g2.seenIds[j].0)
      {
        if j == |g.seenIds| {
          assert !PyEq(g.seenIds[i].0, value);
        }
      }
    }
  }

  lemma {:induction false} EntriesKeep(tables: Tables, g: Globals, d: Value, i: nat, table: Table, sdk: Value, path: string)
    requires d.Dict? && i <= |d.entries|
    ensures Keeps(g, ValidateEntries(tables, g, d, i, table, sdk, path).0)
    decreases d, |d.entries| - i + 1
  {
    if i < |d.entries| {
      var (g1, o1) := ValidateEntry(tables, g, d, i, table, sdk, path);
      EntryKeeps(tables, g, d, i, table, sdk, path);
      if o1.Done? {
        EntriesKeep(tables, g1, d, i + 1, table, sdk, path);
        KeepsTrans(g, g1, ValidateEntries(tables, g1, d, i + 1, table, sdk, path).0);
      }
    }
  }

  lemma {:induction false} EntryKeeps(tables: Tables, g: Globals, d: Value, i: nat, table: Table, sdk: Value, path: string)
    requires d.Dict? && i < |d.entries|
    ensures Keeps(g, ValidateEntry(tables, g, d, i, table, sdk, path).0)
    decreases d, 0
  {
    var (k, v) := d.entries[i];
    if KeyPathOf(path, k).Ok? && TableRow(table, k).Some? {
      var a := TableRow(table, k).value;
      var (g1, r) := ValidateAttrib(g, k.s, v, a, sdk, path);
      AttribKeeps(g, k.s, v, a, sdk, path);
      if r == Ok(true) && v.List? && ChildTable(tables, a) != [] {
        ArrayKeeps(tables, g1, v, ChildTable(tables, a), sdk, KeyPathOf(path, k).value);
        KeepsTrans(g, g1, ValidateArray(tables, g1, v, ChildTable(tables, a), sdk, KeyPathOf(path, k).value).0);
      }
    }
  }

  /** `_validateDefinitionDict` only appends warnings and seen ids, and keeps the
      recorded ids distinct. */
  lemma {:induction false} DictKeeps(tables: Tables, g: Globals, d: Value, table: Table, sdk: Value, path: string)
    requires d.Dict?
    ensures Keeps(g, ValidateDict(tables, g, d, table, sdk, path).0)
    decreases d, |d.entries| + 2
  {
    EntriesKeep(tables, g, d, 0, table, sdk, path);
  }

  lemma {:induction false} ItemsKeep(tables: Tables, g: Globals, a: Value, i: nat, table: Table, sdk: Value, path: string)
    requires a.List? && i <= |a.items|
    ensures Keeps(g, ValidateItems(tables, g, a, i, table, sdk, path).0)
    decreases a, |a.items| - i + 1
  {
    if i < |a.items| {
      var (g1, o1) := ValidateItem(tables, g, a, i, table, sdk, path);
      if a.items[i].Dict? {
        DictKeeps(tables, g, a.items[i], table, sdk, IndexPath(path, IntToString(i)));
      }
      if o1.Done? {
        ItemsKeep(tables, g1, a, i + 1, table, sdk, path);
        KeepsTrans(g, g1, ValidateItems(tables, g1, a, i + 1, table, sdk, path).0);
      }
    }
  }

  /** `_validateDefinitionArray` only appends warnings and seen ids, and keeps the
      recorded ids distinct. */
  lemma {:induction false} ArrayKeeps(tables: Tables, g: Globals, a: Value, table: Table, sdk: Value, path: string)
    requires a.List?
    ensures Keeps(g, ValidateArray(tables, g, a, table, sdk, path).0)
    decreases a, |a.items| + 2
  {
    ItemsKeep(tables, g, a, 0, table, sdk, path);
  }

  // ---------------------------------------------------------------------------
  // What the walk reports

  /** The required-attribute pass reports exactly the required rows whose key the
      dict lacks: each such row has its warning, and each warning comes from one. */
  lemma {:induction false} MissingUpToSpec(keys: seq<Key>, table: Table, n: nat, path: string)
    requires n <= |table|
    ensures forall j :: 0 <= j < n && table[j].1.r && SKey(table[j].0) !in keys ==>
      MissingRequired(KeyPath(path, table[j].0)) in MissingUpTo(keys, table, n, path)
    ensures forall w :: w in MissingUpTo(keys, table, n, path) ==>
      exists j :: 0 <= j < n && table[j].1.r && SKey(table[j].0) !in keys && w == MissingRequired(KeyPath(path, table[j].0))
  {
    if n > 0 {
      MissingUpToSpec(keys, table, n - 1, path);
      assert MissingUpTo(keys, table, n, path) == MissingUpTo(keys, table, n - 1, path) + MissingRow(keys, table, n - 1, path);
    }
  }

  /** Every required attribute missing from a dict is reported by
      `_validateDefinitionDict` (when it completes). */
  lemma MissingRequiredReported(tables: Tables, g: Globals, d: Value, table: Table, sdk: Value, path: string, j: nat)
    requires d.Dict? && j < |table| && table[j].1.r && SKey(table[j].0) !in KeysOf(d.entries)
    ensures ValidateDict(tables, g, d, table, sdk, path).1.Done? ==>
      MissingRequired(KeyPath(path, table[j].0)) in ValidateDict(tables, g, d, table, sdk, path).0.messages
  {
    MissingUpToSpec(KeysOf(d.entries), table, |table|, path);
  }

  /** The entries from `j` on report an unknown string key at `i >= j`, unless an
      exception cuts the walk short. */
  lemma {:induction false} UnknownKeyReportedFrom(tables: Tables, g: Globals, d: Value, j: nat, table: Table, sdk: Value,
                                                  path: string, i: nat)
    requires d.Dict? && j <= i < |d.entries| && d.entries[i].0.SKey? && Lookup(table, d.entries[i].0.s).None?
    ensures ValidateEntries(tables, g, d, j, table, sdk, path).1.Done? ==>
      UnknownAttribute(KeyPath(path, d.entries[i].0.s)) in ValidateEntries(tables, g, d, j, table, sdk, path).0.messages
    decreases i - j
  {
    var (g1, o1) := ValidateEntry(tables, g, d, j, table, sdk, path);
    if o1.Done? {
      if j == i {
        assert g1 == Warn(g, UnknownAttribute(KeyPath(path, d.entries[i].0.s)));
        EntriesKeep(tables, g1, d, j + 1, table, sdk, path);
        assert g1.messages[|g1.messages| - 1] == UnknownAttribute(KeyPath(path, d.entries[i].0.s));
        assert ValidateEntries(tables, g1, d, j + 1, table, sdk, path).0.messages[|g1.messages| - 1]
            == UnknownAttribute(KeyPath(path, d.entries[i].0.s));
      } else {
        UnknownKeyReportedFrom(tables, g1, d, j + 1, table, sdk, path, i);
      }
    }
  }

  /** Every attribute of a dict that its table does not know is reported by
      `_validateDefinitionDict` (when it completes). */
  lemma UnknownKeyReported(tables: Tables, g: Globals, d: Value, table: Table, sdk: Value, path: string, i: nat)
    requires d.Dict? && i < |d.entries| && d.entries[i].0.SKey? && Lookup(table, d.entries[i].0.s).None?
    ensures ValidateDict(tables, g, d, table, sdk, path).1.Done? ==>
      UnknownAttribute(KeyPath(path, d.entries[i].0.s)) in ValidateDict(tables, g, d, table, sdk, path).0.messages
  {
    UnknownKeyReportedFrom(tables, g, d, 0, table, sdk, path, i);
  }

  /** The members from `j` on report a non-dict member at `i >= j`, unless an
      exception cuts the walk short. */
  lemma {:induction false} BadMemberReportedFrom(tables: Tables, g: Globals, a: Value, j: nat, table: Table, sdk: Value,
                                                 path: string, i: nat)
    requires a.List? && j <= i < |a.items| && !a.items[i].Dict?
    ensures ValidateItems(tables, g, a, j, table, sdk, path).1.Done? ==>
      BadArrayMember(a.items[i], path) in ValidateItems(tables, g, a, j, table, sdk, path).0.messages
    decreases i - j
  {
    var (g1, o1) := ValidateItem(tables, g, a, j, table, sdk, path);
    if o1.Done? {
      if j == i {
        ItemsKeep(tables, g1, a, j + 1, table, sdk, path);
        assert g1.messages[|g1.messages| - 1] == BadArrayMember(a.items[i], path);
        assert ValidateItems(tables, g1, a, j + 1, table, sdk, path).0.messages[|g1.messages| - 1]
            == BadArrayMember(a.items[i], path);
      } else {
        BadMemberReportedFrom(tables, g1, a, j + 1, table, sdk, path, i);
      }
    }
  }

  /** Every member of an array that is not a dict is reported by
      `_validateDefinitionArray` (when it completes). */
  lemma BadMemberReported(tables: Tables, g: Globals, a: Value, table: Table, sdk: Value, path: string, i: nat)
    requires a.List? && i < |a.items| && !a.items[i].Dict?
    ensures ValidateArray(tables, g, a, table, sdk, path).1.Done? ==>
      BadArrayMember(a.items[i], path) in ValidateArray(tables, g, a, table, sdk, path).0.messages
  {
    BadMemberReportedFrom(tables, g, a, 0, table, sdk, path, i);
  }

  /** `validateDefinitionObject` answers `True` only for a dict that has every
      required root attribute and no attribute the root table does not know. */
  lemma AcceptedDefinitionComplete(tables: Tables, data: Value)
    requires ValidateDefinition(tables, data).1 == Ok(true)
    ensures data.Dict?
    ensures forall j :: 0 <= j < |tables(RootTable)| && tables(RootTable)[j].1.r ==>
      SKey(tables(RootTable)[j].0) in KeysOf(data.entries)
    ensures forall i :: 0 <= i < |data.entries| && data.entries[i].0.SKey? ==>
      Lookup(tables(RootTable), data.entries[i].0.s).Some?
  {
    var root := tables(RootTable);
    var (g, o) := ValidateDict(tables, CLEARED, data, root, SdkOf(data), "");
    assert o.Done? && g.messages == [];
    forall j | 0 <= j < |root| && root[j].1.r
      ensures SKey(root[j].0) in KeysOf(data.entries)
    {
      if SKey(root[j].0) !in KeysOf(data.entries) {
        MissingRequiredReported(tables, CLEARED, data, root, SdkOf(data), "", j);
      }
    }
    forall i | 0 <= i < |data.entries| && data.entries[i].0.SKey?
      ensures Lookup(root, data.entries[i].0.s).Some?
    {
      if Lookup(root, data.entries[i].0.s).None? {
        UnknownKeyReported(tables, CLEARED, data, root, SdkOf(data), "", i);
      }
    }
  }

  /** The entries from `j` on report an attribute at `i >= j`, other than `id`, whose
      value fails its check (a missing value counting only when the attribute is
      required), unless an exception cuts the walk short. */
  lemma {:induction false} RejectedAttribReportedFrom(tables: Tables, g: Globals, d: Value, j: nat, table: Table, sdk: Value,
                                                      path: string, i: nat, a: Attrib)
    requires d.Dict? && j <= i < |d.entries| && d.entries[i].0.SKey? && d.entries[i].0.s != "id"
    requires Lookup(table, d.entries[i].0.s) == Some(a)
    requires !AttribValid(d.entries[i].1, a, sdk) && (d.entries[i].1.Null? ==> a.r)
    ensures ValidateEntries(tables, g, d, j, table, sdk, path).1.Done? ==>
      |ValidateEntries(tables, g, d, j, table, sdk, path).0.messages| > |g.messages|
    decreases i - j
  {
    var (g1, o1) := ValidateEntry(tables, g, d, j, table, sdk, path);
    if o1.Done? {
      EntryKeeps(tables, g, d, j, table, sdk, path);
      EntriesKeep(tables, g1, d, j + 1, table, sdk, path);
      if j == i {
        var (k, v) := d.entries[i];
        if v.Null? {
          AttribMissing(g, k.s, a, sdk, path);
        } else {
          AttribFirstFailure(g, k.s, v, a, sdk, path);
        }
        assert |g1.messages| > |g.messages|;
      } else {
        RejectedAttribReportedFrom(tables, g1, d, j + 1, table, sdk, path, i, a);
      }
    }
  }

  /** Every attribute of a dict, other than `id`, whose value fails its check is
      reported by `_validateDefinitionDict` (when it completes). */
  lemma RejectedAttribReported(tables: Tables, g: Globals, d: Value, table: Table, sdk: Value, path: string, i: nat, a: Attrib)
    requires d.Dict? && i < |d.entries| && d.entries[i].0.SKey? && d.entries[i].0.s != "id"
    requires Lookup(table, d.entries[i].0.s) == Some(a)
    requires !AttribValid(d.entries[i].1, a, sdk) && (d.entries[i].1.Null? ==> a.r)
    ensures ValidateDict(tables, g, d, table, sdk, path).1.Done? ==>
      |ValidateDict(tables, g, d, table, sdk, path).0.messages| > |g.messages|
  {
    RejectedAttribReportedFrom(tables, g, d, 0, table, sdk, path, i, a);
  }

  /** An accepted definition holds an `sdk` entry, the one `SdkOf` reads, and an
      `api` entry. */
  lemma AcceptedRootEntries(data: Value)
    requires ValidateDefinition(TableOf, data).1 == Ok(true)
    ensures data.Dict? && (SKey("sdk"), SdkOf(data)) in data.entries && SKey("api") in KeysOf(data.entries)
  {
    AcceptedDefinitionComplete(TableOf, data);
    RootRequiredKeys();
    assert ROOT[0].1.r && ROOT[1].1.r;
    LookupSpec(data.entries, SKey("sdk"));
  }

  /** A target SDK of 7 or more is not among the root `sdk` choices, and anything
      else is too old for the root `api` attribute. */
  lemma RootSdkApiClash(sdk: Value, api: Value)
    ensures !AttribValid(sdk, ROOT[0].1, sdk) || !AttribValid(api, ROOT[1].1, sdk)
  {
    if Num(sdk).Some? && Num(sdk).value >= 7.0 {
      var c := ROOT[0].1.c;
      forall n | 0 <= n < |c|
        ensures !PyEq(sdk, c[n])
      {
        assert Num(c[n]).Some? && Num(c[n]).value <= 6.0;
      }
    }
  }

  /** With the shipped tables `validateDefinitionObject` never answers `True`: the
      root `sdk` choices stop at 6 while the required `api` attribute needs SDK 7, so
      either the `sdk` value is not among its choices or the `api` value is rejected
      as too new for the target SDK. */
  lemma ShippedTablesNeverAccept(data: Value)
    ensures ValidateDefinition(TableOf, data).1 != Ok(true)
  {
    if ValidateDefinition(TableOf, data).1 == Ok(true) {
      AcceptedRootEntries(data);
      var es, sdk := data.entries, SdkOf(data);
      KeysOfIndex(es);
      var ia :| 0 <= ia < |es| && es[ia].0 == SKey("api");
      var isdk :| 0 <= isdk < |es| && es[isdk] == (SKey("sdk"), sdk);
      RootSdkApiClash(sdk, es[ia].1);
      RootRequiredKeys();
      if !AttribValid(sdk, ROOT[0].1, sdk) {
        RejectedAttribReported(TableOf, CLEARED, data, ROOT, sdk, "", isdk, ROOT[0].1);
      } else {
        RejectedAttribReported(TableOf, CLEARED, data, ROOT, sdk, "", ia, ROOT[1].1);
      }
    }
  }

  // ---------------------------------------------------------------------------
  // Format tokens

  /** A token name: a non-empty run of word characters. */
  predicate IsTokenName(name: string) {
    name != [] && forall k :: 0 <= k < |name| ==> IsWordChar(name[k])
  }

  /** A match found by `TokenAt` reads `$[`, a token name, `]`. */
  lemma TokenAtShape(s: string, p: nat)
    requires p <= |s| && TokenAt(s, p).Some?
    ensures var end := TokenAt(s, p).value;
      s[p] == '$' && s[p + 1] == '[' && s[end - 1] == ']' && IsTokenName(s[p + 2..end - 1])
  {
    WordRunEndAllWord(s, p + 2);
  }

  /** `rx.search(s, begin)` finds the leftmost token at or after `begin`, and finds
      nothing only when there is no token there at all. */
  lemma {:induction false} FindTokenLeftmost(s: string, begin: nat)
    requires begin <= |s|
    ensures FindToken(s, begin).None? ==> forall p :: begin <= p <= |s| ==> TokenAt(s, p).None?
    ensures FindToken(s, begin).Some? ==>
      var (start, end) := FindToken(s, begin).value;
      TokenAt(s, start) == Some(end) && forall p :: begin <= p < start ==> TokenAt(s, p).None?
    decreases |s| - begin
  {
    if begin < |s| && TokenAt(s, begin).None? {
      FindTokenLeftmost(s, begin + 1);
    }
  }

  /** Every warning of the rewrite names this element and a token, taken from the
      format, that neither names a data id nor counts one. */
  lemma {:induction false} RewriteWarnings(fmt: string, begin: nat, ids: seq<(string, string)>, element: Value)
    requires begin <= |fmt|
    ensures forall w :: w in Rewrite(fmt, begin, ids, element).1 ==> UnresolvedIn(w, ids, element)
    decreases |fmt| - begin, 1
  {
    match FindToken(fmt, begin)
    case None =>
    case Some((start, end)) =>
      FindTokenLeftmost(fmt, begin);
      RewriteTokenWarnings(fmt, start, end, ids, element);
  }

  /** A warning about a token that is a token name and resolves to nothing. */
  ghost predicate UnresolvedIn(w: Warning, ids: seq<(string, string)>, element: Value) {
    w.NoReplacement? && w.element == element && IsTokenName(w.token) && Resolve(ids, w.token).None?
  }

  lemma {:induction false} RewriteTokenWarnings(fmt: string, start: nat, end: nat, ids: seq<(string, string)>, element: Value)
    requires start + 4 <= end <= |fmt| && TokenAt(fmt, start) == Some(end)
    ensures forall w :: w in RewriteToken(fmt, start, end, ids, element).1 ==> UnresolvedIn(w, ids, element)
    decreases |fmt| - start, 0
  {
    var name := fmt[start + 2..end - 1];
    match Resolve(ids, name)
    case None =>
      TokenAtShape(fmt, start);
      RewriteWarnings(fmt, end, ids, element);
    case Some(id) =>
      RewriteWarnings(fmt[..start] + "{$" + id + "$}" + fmt[end..], start + |id| + 4, ids, element);
  }

  /** The rewrite leaves the text before `begin` alone. */
  lemma {:induction false} RewriteKeepsPrefix(fmt: string, begin: nat, ids: seq<(string, string)>, element: Value)
    requires begin <= |fmt|
    ensures begin <= |Rewrite(fmt, begin, ids, element).0|
    ensures Rewrite(fmt, begin, ids, element).0[..begin] == fmt[..begin]
    decreases |fmt| - begin, 1
  {
    match FindToken(fmt, begin)
    case None =>
    case Some((start, end)) =>
      RewriteTokenKeepsPrefix(fmt, start, end, ids, element);
      PrefixOfPrefix(Rewrite(fmt, begin, ids, element).0, fmt, begin, start);
  }

  lemma {:induction false} RewriteTokenKeepsPrefix(fmt: string, start: nat, end: nat, ids: seq<(string, string)>, element: Value)
    requires start + 4 <= end <= |fmt|
    ensures start <= |RewriteToken(fmt, start, end, ids, element).0|
    ensures RewriteToken(fmt, start, end, ids, element).0[..start] == fmt[..start]
    decreases |fmt| - start, 0
  {
    var name := fmt[start + 2..end - 1];
    match Resolve(ids, name)
    case None =>
      RewriteKeepsPrefix(fmt, end, ids, element);
      PrefixOfPrefix(Rewrite(fmt, end, ids, element).0, fmt, start, end);
    case Some(id) =>
      var fmt2 := fmt[..start] + "{$" + id + "$}" + fmt[end..];
      RewriteKeepsPrefix(fmt2, start + |id| + 4, ids, element);
      PrefixOfPrefix(Rewrite(fmt2, start + |id| + 4, ids, element).0, fmt2, start, start + |id| + 4);
      assert fmt2[..start] == fmt[..start];
  }

  /** Agreeing on a longer prefix means agreeing on a shorter one. */
  lemma PrefixOfPrefix(f: string, g: string, m: nat, n: nat)
    requires m <= n <= |f| && n <= |g| && f[..n] == g[..n]
    ensures f[..m] == g[..m]
  {
    assert f[..m] == f[..n][..m];
  }

  /** When no token of the text resolves, the text is left as it was. */
  lemma {:induction false} RewriteNothingResolves(fmt: string, begin: nat, ids: seq<(string, string)>, element: Value)
    requires begin <= |fmt|
    requires forall p :: begin <= p <= |fmt| && TokenAt(fmt, p).Some? ==> Resolve(ids, fmt[p + 2..TokenAt(fmt, p).value - 1]).None?
    ensures Rewrite(fmt, begin, ids, element).0 == fmt
    decreases |fmt| - begin
  {
    var t := FindToken(fmt, begin);
    if t.Some? {
      var (start, end) := t.value;
      FindTokenLeftmost(fmt, begin);
      RewriteUnresolved(fmt, begin, ids, element, start, end);
      RewriteNothingResolves(fmt, end, ids, element);
    }
  }

  /** A format of literal pieces and tokens: `ws[0] $[ns[0]] ws[1] … $[ns[m-1]] ws[m]`. */
  function TokenFormat(ws: seq<string>, ns: seq<string>): string
    requires |ws| == |ns| + 1
    decreases |ns|
  {
    if ns == [] then ws[0] else ws[0] + "$[" + ns[0] + "]" + TokenFormat(ws[1..], ns[1..])
  }

  /** What the token `$[name]` turns into: `{$id$}` when the name resolves to `id`,
      otherwise the token itself. */
  function TokenOutcome(ids: seq<(string, string)>, name: string): string {
    match Resolve(ids, name)
    case Some(id) => "{$" + id + "$}"
    case None => "$[" + name + "]"
  }

  /** `TokenFormat` with every token replaced by its outcome. */
  function FilledFormat(ws: seq<string>, ns: seq<string>, ids: seq<(string, string)>): string
    requires |ws| == |ns| + 1
    decreases |ns|
  {
    if ns == [] then ws[0] else ws[0] + TokenOutcome(ids, ns[0]) + FilledFormat(ws[1..], ns[1..], ids)
  }

  /** One warning per unresolved token name, in the order of the format. */
  function TokenWarnings(ns: seq<string>, ids: seq<(string, string)>, element: Value): seq<Warning>
    decreases |ns|
  {
    if ns == [] then []
    else (if Resolve(ids, ns[0]).None? then [NoReplacement(ns[0], element)] else []) + TokenWarnings(ns[1..], ids, element)
  }

  /** Text that cannot start a token. */
  predicate NoDollar(w: string) {
    forall k :: 0 <= k < |w| ==> w[k] != '$'
  }

  /** The search passes over text without `$`. */
  lemma {:induction false} FindTokenSkip(s: string, b: nat, e: nat)
    requires b <= e <= |s|
    requires forall k :: b <= k < e ==> s[k] != '$'
    ensures FindToken(s, b) == FindToken(s, e)
    decreases e - b
  {
    if b < e {
      assert TokenAt(s, b).None?;
      FindTokenSkip(s, b + 1, e);
    }
  }

  /** A run of word characters from `i` to `j`, closed by a non-word character, is
      the run `WordRunEnd` measures. */
  lemma {:induction false} WordRunTo(s: string, i: nat, j: nat)
    requires i <= j < |s|
    requires forall k :: i <= k < j ==> IsWordChar(s[k])
    requires !IsWordChar(s[j])
    ensures WordRunEnd(s, i) == j
    decreases j - i
  {
    if i < j {
      WordRunTo(s, i + 1, j);
    }
  }

  /** A token `$[n]` at `start`, after `$`-free text from `b`, is the first match
      the search from `b` finds. */
  lemma TokenAtRun(s: string, b: nat, start: nat, n: string)
    requires b <= start && start + |n| + 3 <= |s|
    requires forall k :: b <= k < start ==> s[k] != '$'
    requires s[start] == '$' && s[start + 1] == '[' && s[start + |n| + 2] == ']'
    requires s[start + 2..start + |n| + 2] == n && IsTokenName(n)
    ensures FindToken(s, b) == Some((start, start + |n| + 3))
  {
    FindTokenSkip(s, b, start);
    assert forall k :: start + 2 <= k < start + |n| + 2 ==> IsWordChar(s[k]) by {
      forall k | start + 2 <= k < start + |n| + 2 ensures IsWordChar(s[k]) {
        assert s[k] == n[k - start - 2];
      }
    }
    WordRunTo(s, start + 2, start + |n| + 2);
  }

  /** Where the pieces of `pre + w + "$[" + n + "]" + rest` sit. */
  lemma TokenLayout(s: string, pre: string, w: string, n: string, rest: string)
    requires s == pre + w + "$[" + n + "]" + rest && NoDollar(w)
    ensures var start := |pre| + |w|;
      start + |n| + 3 <= |s|
      && (forall k :: |pre| <= k < start ==> s[k] != '$')
      && s[start] == '$' && s[start + 1] == '[' && s[start + |n| + 2] == ']'
      && s[start + 2..start + |n| + 2] == n
  {
    var start := |pre| + |w|;
    forall k | |pre| <= k < start ensures s[k] != '$' {
      assert s[k] == w[k - |pre|];
    }
    assert s[start + 2..start + |n| + 2] == n;
  }

  /** In `s = pre + w + "$[" + n + "]" + rest`, with no `$` in `w`, the search from
      the end of `pre` finds the token `$[n]`. */
  lemma TokenFound(s: string, pre: string, w: string, n: string, rest: string)
    requires s == pre + w + "$[" + n + "]" + rest
    requires NoDollar(w) && IsTokenName(n)
    ensures FindToken(s, |pre|) == Some((|pre| + |w|, |pre| + |w| + |n| + 3))
  {
    TokenLayout(s, pre, w, n, rest);
    TokenAtRun(s, |pre|, |pre| + |w|, n);
  }

  /** The `while` loop of `_replaceFormatTokens` on a format of `$`-free pieces and
      tokens, from the end of a prefix it has already passed: every token that names
      a data id (by last segment) or counts one (from 1) becomes `{$id$}`, every
      other token stays in place, and there is one warning per unresolved token, in
      order. */
  lemma {:induction false} RewriteFills(pre: string, ws: seq<string>, ns: seq<string>, ids: seq<(string, string)>, element: Value)
    requires |ws| == |ns| + 1
    requires forall t :: 0 <= t < |ws| ==> NoDollar(ws[t])
    requires forall t :: 0 <= t < |ns| ==> IsTokenName(ns[t])
    ensures Rewrite(pre + TokenFormat(ws, ns), |pre|, ids, element)
         == (pre + FilledFormat(ws, ns, ids), TokenWarnings(ns, ids, element))
    decreases |ns|
  {
    if ns == [] {
      RewriteNoToken(pre + ws[0], pre, ws[0], ids, element);
    } else {
      TailPieces(ws, ns);
      var pre' := pre + ws[0] + TokenOutcome(ids, ns[0]);
      RewriteFills(pre', ws[1..], ns[1..], ids, element);
      RewriteFillsStep(pre, ws[0], ns[0], TokenFormat(ws[1..], ns[1..]), FilledFormat(ws[1..], ns[1..], ids),
                       TokenWarnings(ns[1..], ids, element), ids, element);
    }
  }

  /** The pieces and names after the first keep their shape. */
  lemma TailPieces(ws: seq<string>, ns: seq<string>)
    requires |ws| == |ns| + 1 && ns != []
    requires forall t :: 0 <= t < |ws| ==> NoDollar(ws[t])
    requires forall t :: 0 <= t < |ns| ==> IsTokenName(ns[t])
    ensures forall t :: 0 <= t < |ws[1..]| ==> NoDollar(ws[1..][t])
    ensures forall t :: 0 <= t < |ns[1..]| ==> IsTokenName(ns[1..][t])
  {
    forall t | 0 <= t < |ws[1..]| ensures NoDollar(ws[1..][t]) {
      assert ws[1..][t] == ws[t + 1];
    }
    forall t | 0 <= t < |ns[1..]| ensures IsTokenName(ns[1..][t]) {
      assert ns[1..][t] == ns[t + 1];
    }
  }

  /** With no `$` after `pre`, the loop finds nothing and changes nothing. */
  lemma RewriteNoToken(s: string, pre: string, w: string, ids: seq<(string, string)>, element: Value)
    requires s == pre + w && NoDollar(w)
    ensures Rewrite(s, |pre|, ids, element) == (s, [])
  {
    forall k | |pre| <= k < |s| ensures s[k] != '$' {
      assert s[k] == w[k - |pre|];
    }
    FindTokenSkip(s, |pre|, |s|);
  }

  /** One token of the format: given what the loop makes of the rest once it has
      passed the token's outcome, the loop from the end of `pre` yields the outcome,
      then that, with the token's warning in front when it did not resolve. */
  lemma RewriteFillsStep(pre: string, w: string, n: string, rest: string, f: string, wr: seq<Warning>,
                         ids: seq<(string, string)>, element: Value)
    requires NoDollar(w) && IsTokenName(n)
    requires var pre' := pre + w + TokenOutcome(ids, n);
      Rewrite(pre' + rest, |pre'|, ids, element) == (pre' + f, wr)
    ensures Rewrite(pre + (w + "$[" + n + "]" + rest), |pre|, ids, element)
         == (pre + (w + TokenOutcome(ids, n) + f),
             (if Resolve(ids, n).None? then [NoReplacement(n, element)] else []) + wr)
  {
    var o := TokenOutcome(ids, n);
    var pre' := pre + w + o;
    assert pre' + f == pre + (w + o + f) by {
      ConcatAssoc3(pre, w, o, f);
    }
    RewriteTokenStep(pre + (w + "$[" + n + "]" + rest), pre, w, n, rest, pre', ids, element);
  }

  lemma ConcatAssoc3(a: string, b: string, c: string, d: string)
    ensures a + b + c + d == a + (b + c + d)
  {
  }

  /** The loop at the token `$[n]` that follows `pre + w`: it goes on from the end of
      the token's outcome, warning first when the token did not resolve. */
  lemma RewriteTokenStep(s: string, pre: string, w: string, n: string, rest: string, pre': string,
                         ids: seq<(string, string)>, element: Value)
    requires s == pre + (w + "$[" + n + "]" + rest) && NoDollar(w) && IsTokenName(n)
    requires pre' == pre + w + TokenOutcome(ids, n)
    ensures Rewrite(s, |pre|, ids, element).0 == Rewrite(pre' + rest, |pre'|, ids, element).0
    ensures Rewrite(s, |pre|, ids, element).1
         == (if Resolve(ids, n).None? then [NoReplacement(n, element)] else []) + Rewrite(pre' + rest, |pre'|, ids, element).1
  {
    assert s == pre + w + "$[" + n + "]" + rest;
    TokenFound(s, pre, w, n, rest);
    TokenLayout(s, pre, w, n, rest);
    match Resolve(ids, n)
    case None =>
      RewriteUnresolvedStep(s, pre, w, n, rest, pre', ids, element);
    case Some(id) =>
      RewriteResolvedStep(s, pre, w, n, rest, pre', ids, element, id);
  }

  /** An unresolved token: the loop warns and goes on after it. */
  lemma RewriteUnresolvedStep(s: string, pre: string, w: string, n: string, rest: string, pre': string,
                              ids: seq<(string, string)>, element: Value)
    requires s == pre + w + "$[" + n + "]" + rest && pre' == pre + w + ("$[" + n + "]")
    requires FindToken(s, |pre|) == Some((|pre| + |w|, |pre| + |w| + |n| + 3))
    requires s[|pre| + |w| + 2..|pre| + |w| + |n| + 2] == n && Resolve(ids, n).None?
    ensures Rewrite(s, |pre|, ids, element).0 == Rewrite(pre' + rest, |pre'|, ids, element).0
    ensures Rewrite(s, |pre|, ids, element).1 == [NoReplacement(n, element)] + Rewrite(pre' + rest, |pre'|, ids, element).1
  {
    var start := |pre| + |w|;
    var end := start + |n| + 3;
    assert s == pre' + rest && |pre'| == end by {
      SplicedLayout(s, pre, w, n, rest, "$[" + n + "]");
    }
    UnresolvedGoesOn(s, |pre|, start, end, n, ids, element);
  }

  /** `RewriteUnresolved` with the token's name given. */
  lemma UnresolvedGoesOn(s: string, begin: nat, start: nat, end: nat, n: string,
                         ids: seq<(string, string)>, element: Value)
    requires begin <= |s| && FindToken(s, begin) == Some((start, end))
    requires s[start + 2..end - 1] == n && Resolve(ids, n).None?
    ensures Rewrite(s, begin, ids, element).0 == Rewrite(s, end, ids, element).0
    ensures Rewrite(s, begin, ids, element).1 == [NoReplacement(n, element)] + Rewrite(s, end, ids, element).1
  {
    RewriteUnresolved(s, begin, ids, element, start, end);
  }

  /** A token resolved to `id`: the loop puts `{$id$}` in its place and goes on after
      the replacement. */
  lemma RewriteResolvedStep(s: string, pre: string, w: string, n: string, rest: string, pre': string,
                            ids: seq<(string, string)>, element: Value, id: string)
    requires s == pre + w + "$[" + n + "]" + rest && pre' == pre + w + ("{$" + id + "$}")
    requires FindToken(s, |pre|) == Some((|pre| + |w|, |pre| + |w| + |n| + 3))
    requires s[|pre| + |w| + 2..|pre| + |w| + |n| + 2] == n && Resolve(ids, n) == Some(id)
    ensures Rewrite(s, |pre|, ids, element) == Rewrite(pre' + rest, |pre'|, ids, element)
  {
    var start := |pre| + |w|;
    var end := start + |n| + 3;
    assert pre' + rest == s[..start] + "{$" + id + "$}" + s[end..] && |pre'| == start + |id| + 4 by {
      SplicedLayout(s, pre, w, n, rest, "{$" + id + "$}");
      assert s[..start] + "{$" + id + "$}" + s[end..] == s[..start] + ("{$" + id + "$}") + s[end..];
    }
    ResolvedGoesOn(s, |pre|, start, end, id, pre' + rest, |pre'|, ids, element);
  }

  /** `RewriteResolved` with the rewritten text and the resume position given. */
  lemma ResolvedGoesOn(s: string, begin: nat, start: nat, end: nat, id: string, t: string, resume: nat,
                       ids: seq<(string, string)>, element: Value)
    requires begin <= |s| && FindToken(s, begin) == Some((start, end))
    requires Resolve(ids, s[start + 2..end - 1]) == Some(id)
    requires t == s[..start] + "{$" + id + "$}" + s[end..] && resume == start + |id| + 4
    ensures resume <= |t| && Rewrite(s, begin, ids, element) == Rewrite(t, resume, ids, element)
  {
    RewriteResolved(s, begin, ids, element, start, end, id);
  }

  /** Putting `o` in the place of the token `$[n]` of `pre + w + "$[" + n + "]" + rest`;
      with `o` the token itself, the text is unchanged. */
  lemma SplicedLayout(s: string, pre: string, w: string, n: string, rest: string, o: string)
    requires s == pre + w + "$[" + n + "]" + rest
    ensures var start := |pre| + |w|;
      var end := start + |n| + 3;
      end <= |s| && |pre + w + o| == start + |o|
      && s[..start] + o + s[end..] == (pre + w + o) + rest
      && s == (pre + w + ("$[" + n + "]")) + rest
  {
    var start := |pre| + |w|;
    var end := start + |n| + 3;
    assert s[..start] == pre + w;
    assert s[end..] == rest;
  }

  /** The rewrite of a whole format of pieces and tokens, as `_replaceFormatTokens`
      starts it (`begin = 0`). */
  lemma RewriteTokenFormat(ws: seq<string>, ns: seq<string>, ids: seq<(string, string)>, element: Value)
    requires |ws| == |ns| + 1
    requires forall t :: 0 <= t < |ws| ==> NoDollar(ws[t])
    requires forall t :: 0 <= t < |ns| ==> IsTokenName(ns[t])
    ensures Rewrite(TokenFormat(ws, ns), 0, ids, element) == (FilledFormat(ws, ns, ids), TokenWarnings(ns, ids, element))
  {
    RewriteFills([], ws, ns, ids, element);
    assert [] + TokenFormat(ws, ns) == TokenFormat(ws, ns);
    assert [] + FilledFormat(ws, ns, ids) == FilledFormat(ws, ns, ids);
  }

  /** A token naming a data id (its last dotted segment) resolves to that id. */
  lemma ResolveByName(ids: seq<(string, string)>, name: string, id: string)
    requires (name, id) in ids && UniqueKeys(ids)
    ensures Resolve(ids, name) == Some(id)
  {
    LookupUnique(ids, name, id);
  }

  /** A token `n` (decimal, 1-based) that names no data id resolves to the `n`-th
      data id. */
  lemma ResolveByPosition(ids: seq<(string, string)>, n: nat)
    requires 1 <= n <= |ids| && Lookup(ids, NatToString(n)).None?
    ensures Resolve(ids, NatToString(n)) == Some(ids[n - 1].1)
  {
    ParseNatToString(n);
  }

  /** The `data_ids` dict keys every id by its last dotted segment, once per key. */
  lemma {:induction false} DataIdsKeyed(datas: seq<Value>, i: nat, ids: seq<(string, string)>)
    requires i <= |datas|
    requires UniqueKeys(ids) && forall p :: p in ids ==> p.0 == LastSegment(p.1)
    ensures DataIds(datas, i, ids).Ok? ==>
      var r := DataIds(datas, i, ids).value;
      UniqueKeys(r) && forall p :: p in r ==> p.0 == LastSegment(p.1)
    decreases |datas| - i
  {
    if i < |datas| {
      match Field(datas[i], "id")
      case Err(_) =>
      case Ok(did) =>
        if !Truthy(did) {
          DataIdsKeyed(datas, i + 1, ids);
        } else if did.Str? {
          var ids2 := Put(ids, LastSegment(did.s), did.s);
          PutKeepsUniqueKeys(ids, LastSegment(did.s), did.s);
          PutEntries(ids, LastSegment(did.s), did.s);
          DataIdsKeyed(datas, i + 1, ids2);
        }
    }
  }

  /** Ids already keyed stay keyed while the rest of the data is read. */
  lemma {:induction false} DataIdsKeepsKeys(datas: seq<Value>, i: nat, ids: seq<(string, string)>, key: string)
    requires i <= |datas| && key in KeysOf(ids)
    ensures DataIds(datas, i, ids).Ok? ==> key in KeysOf(DataIds(datas, i, ids).value)
    decreases |datas| - i
  {
    if i < |datas| {
      match Field(datas[i], "id")
      case Err(_) =>
      case Ok(did) =>
        if !Truthy(did) {
          DataIdsKeepsKeys(datas, i + 1, ids, key);
        } else if did.Str? {
          PutKeys(ids, LastSegment(did.s), did.s);
          DataIdsKeepsKeys(datas, i + 1, Put(ids, LastSegment(did.s), did.s), key);
        }
    }
  }

  /** Every non-empty string id among the data is keyed by its last dotted segment. */
  lemma {:induction false} DataIdsCover(datas: seq<Value>, i: nat, ids: seq<(string, string)>, k: nat, s: string)
    requires i <= k < |datas| && Field(datas[k], "id") == Ok(Str(s)) && s != []
    ensures DataIds(datas, i, ids).Ok? ==> LastSegment(s) in KeysOf(DataIds(datas, i, ids).value)
    decreases |datas| - i
  {
    var did := Field(datas[i], "id");
    if did.Ok? && Truthy(did.value) && did.value.Str? {
      var ids2 := Put(ids, LastSegment(did.value.s), did.value.s);
      assert DataIds(datas, i, ids) == DataIds(datas, i + 1, ids2);
      if i == k {
        PutKeys(ids, LastSegment(s), s);
        DataIdsKeepsKeys(datas, i + 1, ids2, LastSegment(s));
      } else {
        DataIdsCover(datas, i + 1, ids2, k, s);
      }
    } else if did.Ok? && !Truthy(did.value) {
      assert DataIds(datas, i, ids) == DataIds(datas, i + 1, ids);
      DataIdsCover(datas, i + 1, ids, k, s);
    }
  }

  /** So a token naming a data id by its last segment is always resolved. */
  lemma DataIdTokenResolves(datas: seq<Value>, k: nat, s: string)
    requires k < |datas| && Field(datas[k], "id") == Ok(Str(s)) && s != []
    ensures DataIds(datas, 0, []).Ok? ==> Resolve(DataIds(datas, 0, []).value, LastSegment(s)).Some?
  {
    DataIdsCover(datas, 0, [], k, s);
    if DataIds(datas, 0, []).Ok? {
      LookupSpec(DataIds(datas, 0, []).value, LastSegment(s));
    }
  }

  // ---------------------------------------------------------------------------
  // What the generator emits

  /** An entry of a generated dict: its key is the name of a row of `table`, its
      value is not `None`, and when invalid values are skipped it has the row's type. */
  ghost predicate RowEntry(table: Table, p: (Key, Value), skip: bool) {
    exists j :: 0 <= j < |table| && p.0 == SKey(table[j].0) && !p.1.Null? && (skip ==> IsInstance(p.1, table[j].1.t))
  }

  /** `Keep` stores the value under its key, or leaves the dict as it was. */
  lemma KeepEntries(g: Globals, k: string, v: Value, a: Attrib, ret: seq<(Key, Value)>, sdk: Value, path: string, skip: bool)
    ensures Keep(g, k, v, a, ret, sdk, path, skip).1.Ok? ==>
      forall p :: p in Keep(g, k, v, a, ret, sdk, path, skip).1.value ==>
        p in ret || (p == (SKey(k), v) && !v.Null? && (skip ==> IsInstance(v, a.t)))
    ensures !skip && !v.Null? && Keep(g, k, v, a, ret, sdk, path, skip).1.Ok? ==>
      Keep(g, k, v, a, ret, sdk, path, skip).1.value == Put(ret, SKey(k), v)
    ensures skip && Keep(g, k, v, a, ret, sdk, path, skip).1.Ok? ==>
      Keep(g, k, v, a, ret, sdk, path, skip).1.value
        == if ValidateAttrib(g, k, v, a, sdk, path).1 == Ok(true) then Put(ret, SKey(k), v) else ret
  {
    AttribAccepted(g, k, v, a, sdk, path);
    PutEntries(ret, SKey(k), v);
  }

  lemma ItemRowEntries(tables: Tables, g: Globals, item: Value, table: Table, i: nat, ret: seq<(Key, Value)>, sdk: Value,
                       path: string, skip: bool)
    requires item.Dict? && i < |table|
    ensures ItemRow(tables, g, item, table, i, ret, sdk, path, skip).1.Ok? ==>
      forall p :: p in ItemRow(tables, g, item, table, i, ret, sdk, path, skip).1.value ==> p in ret || RowEntry(table, p, skip)
  {
    var (k, a) := table[i];
    var explicit := Get(item.entries, k);
    var v := if explicit.Null? then DefaultOf(a) else explicit;
    if v.Dict? && a.t == [TList] {
      var (g1, r1) := ArrayFromDict(tables, g, v, ChildTable(tables, a), sdk, Null, KeyPath(path, k), skip);
      if r1.Ok? {
        KeepEntries(g1, k, List(r1.value), a, ret, sdk, path, skip);
      }
    } else {
      KeepEntries(g, k, v, a, ret, sdk, path, skip);
    }
  }

  lemma {:induction false} ItemRowsEntries(tables: Tables, g: Globals, item: Value, table: Table, i: nat, ret: seq<(Key, Value)>,
                                           sdk: Value, path: string, skip: bool)
    requires item.Dict? && i <= |table|
    requires forall p :: p in ret ==> RowEntry(table, p, skip)
    ensures ItemRows(tables, g, item, table, i, ret, sdk, path, skip).1.Ok? ==>
      forall p :: p in ItemRows(tables, g, item, table, i, ret, sdk, path, skip).1.value ==> RowEntry(table, p, skip)
    decreases |table| - i
  {
    if i < |table| {
      var (g1, r1) := ItemRow(tables, g, item, table, i, ret, sdk, path, skip);
      ItemRowEntries(tables, g, item, table, i, ret, sdk, path, skip);
      if r1.Ok? {
        ItemRowsEntries(tables, g1, item, table, i + 1, r1.value, sdk, path, skip);
      }
    }
  }

  /** `_dictFromItem` emits only attributes its table knows, never a `None`, and with
      `skip_invalid` only values of the attribute's type. */
  lemma DictFromItemEntries(tables: Tables, g: Globals, item: Value, table: Table, sdk: Value, path: string, skip: bool)
    ensures DictFromItem(tables, g, item, table, sdk, path, skip).1.Ok? ==>
      forall p :: p in DictFromItem(tables, g, item, table, sdk, path, skip).1.value ==> RowEntry(table, p, skip)
  {
    if item.Dict? {
      ItemRowsEntries(tables, g, item, table, 0, [], sdk, path, skip);
    }
  }

  /** Row `i` either leaves the dict alone or stores something under its own key. */
  lemma ItemRowShape(tables: Tables, g: Globals, item: Value, table: Table, i: nat, ret: seq<(Key, Value)>, sdk: Value,
                     path: string, skip: bool, k: Key)
    requires item.Dict? && i < |table| && k != SKey(table[i].0)
    ensures ItemRow(tables, g, item, table, i, ret, sdk, path, skip).1.Ok? ==>
      Lookup(ItemRow(tables, g, item, table, i, ret, sdk, path, skip).1.value, k) == Lookup(ret, k)
  {
    var (name, a) := table[i];
    var explicit := Get(item.entries, name);
    var v := if explicit.Null? then DefaultOf(a) else explicit;
    if v.Dict? && a.t == [TList] {
      var (g1, r1) := ArrayFromDict(tables, g, v, ChildTable(tables, a), sdk, Null, KeyPath(path, name), skip);
      if r1.Ok? {
        PutSpec(ret, SKey(name), List(r1.value), k);
      }
    } else {
      PutSpec(ret, SKey(name), v, k);
    }
  }

  /** Later rows with other names leave a stored attribute alone. */
  lemma {:induction false} ItemRowsKeepKey(tables: Tables, g: Globals, item: Value, table: Table, i: nat, ret: seq<(Key, Value)>,
                                           sdk: Value, path: string, skip: bool, k: string)
    requires item.Dict? && i <= |table|
    requires forall j :: i <= j < |table| ==> table[j].0 != k
    ensures ItemRows(tables, g, item, table, i, ret, sdk, path, skip).1.Ok? ==>
      Lookup(ItemRows(tables, g, item, table, i, ret, sdk, path, skip).1.value, SKey(k)) == Lookup(ret, SKey(k))
    decreases |table| - i
  {
    if i < |table| {
      var (g1, r1) := ItemRow(tables, g, item, table, i, ret, sdk, path, skip);
      ItemRowShape(tables, g, item, table, i, ret, sdk, path, skip, SKey(k));
      if r1.Ok? {
        ItemRowsKeepKey(tables, g1, item, table, i + 1, r1.value, sdk, path, skip, k);
      }
    }
  }

  /** The rows from `i` on are row `i`, then the rows from `i + 1` on. */
  lemma ItemRowsStep(tables: Tables, g: Globals, item: Value, table: Table, i: nat, ret: seq<(Key, Value)>,
                     sdk: Value, path: string, skip: bool)
    requires item.Dict? && i < |table|
    ensures var (g1, r1) := ItemRow(tables, g, item, table, i, ret, sdk, path, skip);
      ItemRows(tables, g, item, table, i, ret, sdk, path, skip)
        == if r1.Ok? then ItemRows(tables, g1, item, table, i + 1, r1.value, sdk, path, skip) else (g1, Err(r1.error))
  {
  }

  /** The value `_dictFromItem` considers for a row: the explicit one, else the default. */
  ghost function RowValue(item: Value, row: (string, Attrib)): Value
    requires item.Dict?
  {
    var explicit := Get(item.entries, row.0);
    if explicit.Null? then DefaultOf(row.1) else explicit
  }

  /** What `validateAttribValue` accepts for an attribute other than `id`, where the
      ids seen so far play no part. */
  ghost predicate AttribValid(value: Value, a: Attrib, sdk: Value) {
    !value.Null? && IsInstance(value, a.t) && Num(sdk).Some? && Num(sdk).value >= a.v as real
    && (a.c == [] || PyIn(value, a.c))
  }

  /** Whether row `j` of `_dictFromItem` stores its value: always without `skip_invalid`
      (the value is then not `None`), and with it exactly when the value validates. */
  ghost predicate RowStores(item: Value, table: Table, j: nat, sdk: Value, skip: bool)
    requires item.Dict? && j < |table|
  {
    !skip || AttribValid(RowValue(item, table[j]), table[j].1, sdk)
  }

  /** The rows whose value `RowStores` speaks for: not a dict to be turned into an array,
      not `None` without `skip_invalid`, and not `id` with it. */
  ghost predicate PlainRow(item: Value, table: Table, j: nat, skip: bool)
    requires item.Dict? && j < |table|
  {
    !(RowValue(item, table[j]).Dict? && table[j].1.t == [TList])
    && (!skip ==> !RowValue(item, table[j]).Null?)
    && (skip ==> table[j].0 != "id")
  }

  /** Row `j` stores its value (explicit, else default) when `RowStores` says so, and
      otherwise leaves the dict alone. */
  lemma ItemRowValue(tables: Tables, g: Globals, item: Value, table: Table, j: nat, ret: seq<(Key, Value)>,
                     sdk: Value, path: string, skip: bool)
    requires item.Dict? && j < |table| && PlainRow(item, table, j, skip)
    ensures ItemRow(tables, g, item, table, j, ret, sdk, path, skip).1.Ok? ==>
      Lookup(ItemRow(tables, g, item, table, j, ret, sdk, path, skip).1.value, SKey(table[j].0))
        == if RowStores(item, table, j, sdk, skip) then Some(RowValue(item, table[j])) else Lookup(ret, SKey(table[j].0))
  {
    var (k, a) := table[j];
    var v := RowValue(item, table[j]);
    KeepEntries(g, k, v, a, ret, sdk, path, skip);
    AttribAccepted(g, k, v, a, sdk, path);
    PutSpec(ret, SKey(k), v, SKey(k));
  }

  /** What `ItemRowsValue` states: the rows from `i` on leave row `j`'s value under its name
      when `RowStores` says so, and otherwise what `ret` had there. */
  ghost predicate RowsKeepValue(tables: Tables, g: Globals, item: Value, table: Table, i: nat, ret: seq<(Key, Value)>,
                                sdk: Value, path: string, skip: bool, j: nat)
    requires item.Dict? && i <= |table| && j < |table|
  {
    var rows := ItemRows(tables, g, item, table, i, ret, sdk, path, skip).1;
    rows.Ok? ==>
      Lookup(rows.value, SKey(table[j].0))
        == if RowStores(item, table, j, sdk, skip) then Some(RowValue(item, table[j])) else Lookup(ret, SKey(table[j].0))
  }

  /** One step of `ItemRowsValue`, given what it says about the rows after row `i`. */
  lemma ItemRowsValueStep(tables: Tables, g: Globals, item: Value, table: Table, i: nat, ret: seq<(Key, Value)>,
                          sdk: Value, path: string, skip: bool, j: nat)
    requires item.Dict? && i <= j < |table| && PlainRow(item, table, j, skip)
    requires forall m :: i <= m < |table| && m != j ==> table[m].0 != table[j].0
    requires var step := ItemRow(tables, g, item, table, i, ret, sdk, path, skip);
      i < j && step.1.Ok? ==> RowsKeepValue(tables, step.0, item, table, i + 1, step.1.value, sdk, path, skip, j)
    ensures RowsKeepValue(tables, g, item, table, i, ret, sdk, path, skip, j)
  {
    var step := ItemRow(tables, g, item, table, i, ret, sdk, path, skip);
    ItemRowsStep(tables, g, item, table, i, ret, sdk, path, skip);
    if step.1.Ok? && i < j {
      ItemRowShape(tables, g, item, table, i, ret, sdk, path, skip, SKey(table[j].0));
    } else if step.1.Ok? {
      ItemRowValue(tables, g, item, table, j, ret, sdk, path, skip);
      ItemRowsKeepKey(tables, step.0, item, table, i + 1, step.1.value, sdk, path, skip, table[j].0);
    }
  }

  /** The rows from `i` on store row `j`'s value when `RowStores` says so, and otherwise
      leave what `ret` had under its name, when no other row has that name. */
  lemma ItemRowsValue(tables: Tables, g: Globals, item: Value, table: Table, i: nat, ret: seq<(Key, Value)>,
                      sdk: Value, path: string, skip: bool, j: nat)
    requires item.Dict? && i <= j < |table| && PlainRow(item, table, j, skip)
    requires forall m :: i <= m < |table| && m != j ==> table[m].0 != table[j].0
    ensures ItemRows(tables, g, item, table, i, ret, sdk, path, skip).1.Ok? ==>
      Lookup(ItemRows(tables, g, item, table, i, ret, sdk, path, skip).1.value, SKey(table[j].0))
        == if RowStores(item, table, j, sdk, skip) then Some(RowValue(item, table[j])) else Lookup(ret, SKey(table[j].0))
  {
    RowsKeepValueFrom(tables, g, item, table, i, ret, sdk, path, skip, j);
  }

  /** `ItemRowsValue` by induction over the rows, stated through `RowsKeepValue`. */
  lemma {:induction false} RowsKeepValueFrom(tables: Tables, g: Globals, item: Value, table: Table, i: nat,
                                             ret: seq<(Key, Value)>, sdk: Value, path: string, skip: bool, j: nat)
    requires item.Dict? && i <= j < |table| && PlainRow(item, table, j, skip)
    requires forall m :: i <= m < |table| && m != j ==> table[m].0 != table[j].0
    ensures RowsKeepValue(tables, g, item, table, i, ret, sdk, path, skip, j)
    decreases j - i
  {
    var step := ItemRow(tables, g, item, table, i, ret, sdk, path, skip);
    if i < j && step.1.Ok? {
      RowsKeepValueFrom(tables, step.0, item, table, i + 1, step.1.value, sdk, path, skip, j);
    }
    ItemRowsValueStep(tables, g, item, table, i, ret, sdk, path, skip, j);
  }

  /** Without `skip_invalid`, the generated dict holds the value given for row `j`, or
      its default, whenever that is not `None`, needs no nesting and no other row has
      the same name. */
  lemma DictFromItemKeepsValue(tables: Tables, g: Globals, item: Value, table: Table, sdk: Value, path: string, j: nat)
    requires item.Dict? && j < |table|
    requires forall m :: 0 <= m < |table| && m != j ==> table[m].0 != table[j].0
    requires !RowValue(item, table[j]).Null? && !(RowValue(item, table[j]).Dict? && table[j].1.t == [TList])
    ensures DictFromItem(tables, g, item, table, sdk, path, false).1.Ok? ==>
      Lookup(DictFromItem(tables, g, item, table, sdk, path, false).1.value, SKey(table[j].0)) == Some(RowValue(item, table[j]))
  {
    ItemRowsValue(tables, g, item, table, 0, [], sdk, path, false, j);
  }

  /** With `skip_invalid`, an attribute other than `id` whose name no other row shares is
      emitted, with the value given or its default, exactly when that value validates. */
  lemma DictFromItemSkipsInvalid(tables: Tables, g: Globals, item: Value, table: Table, sdk: Value, path: string, j: nat)
    requires item.Dict? && j < |table| && table[j].0 != "id"
    requires forall m :: 0 <= m < |table| && m != j ==> table[m].0 != table[j].0
    requires !(RowValue(item, table[j]).Dict? && table[j].1.t == [TList])
    ensures DictFromItem(tables, g, item, table, sdk, path, true).1.Ok? ==>
      Lookup(DictFromItem(tables, g, item, table, sdk, path, true).1.value, SKey(table[j].0))
        == if AttribValid(RowValue(item, table[j]), table[j].1, sdk) then Some(RowValue(item, table[j])) else None
  {
    ItemRowsValue(tables, g, item, table, 0, [], sdk, path, true, j);
  }

  /** An item `_arrayFromDict` takes: any item when no category is asked for, else a
      dict that names no category or the asked one. */
  ghost predicate Takes(item: Value, category: Value) {
    !Truthy(category)
    || (item.Dict? && (!Truthy(Get(item.entries, "category")) || PyEq(Get(item.entries, "category"), category)))
  }

  /** The category test raises only for a non-dict item when a category is asked for,
      and otherwise answers `Takes`: an item naming another category is left out. */
  lemma SelectedTakes(item: Value, category: Value)
    ensures Selected(item, category).Err? <==> Truthy(category) && !item.Dict?
    ensures Selected(item, category).Ok? ==> (Selected(item, category).value <==> Takes(item, category))
  {
  }

  /** The entries of `es` that `_arrayFromDict` takes, in dict order. */
  ghost function Picked(es: seq<(Key, Value)>, category: Value): seq<(Key, Value)> {
    if es == [] then []
    else (if Takes(es[0].1, category) then [es[0]] else []) + Picked(es[1..], category)
  }

  /** `x` is the dict `_dictFromItem` builds for entry `e` of an array at `path`, for
      some warnings and seen ids before it. */
  ghost predicate GeneratedFor(tables: Tables, x: Value, e: (Key, Value), table: Table, sdk: Value, path: string, skip: bool) {
    x.Dict? && exists g: Globals :: DictFromItem(tables, g, e.1, table, sdk, IndexPath(path, KeyText(e.0)), skip).1 == Ok(x.entries)
  }

  /** Taking the entries from `i` on is deciding on entry `i`, then on the rest. */
  lemma PickedStep(es: seq<(Key, Value)>, i: nat, category: Value)
    requires i < |es|
    ensures Picked(es[i..], category)
         == (if Takes(es[i].1, category) then [es[i]] else []) + Picked(es[i + 1..], category)
  {
    assert es[i..][1..] == es[i + 1..];
  }

  /** One entry of the item loop appends the dict generated for it when it is taken. */
  lemma ArrayEntryShape(tables: Tables, g: Globals, d: Value, i: nat, ret: seq<Value>, table: Table,
                        sdk: Value, category: Value, path: string, skip: bool)
    requires d.Dict? && i < |d.entries|
    ensures var r := ArrayEntry(tables, g, d, i, ret, table, sdk, category, path, skip).1;
      r.Ok? ==>
        if Takes(d.entries[i].1, category) then
          |r.value| == |ret| + 1 && r.value[..|ret|] == ret
          && GeneratedFor(tables, r.value[|ret|], d.entries[i], table, sdk, path, skip)
        else r.value == ret
  {
    var (key, item) := d.entries[i];
    SelectedTakes(item, category);
    var r := ArrayEntry(tables, g, d, i, ret, table, sdk, category, path, skip).1;
    if r.Ok? && Takes(item, category) {
      var x := DictFromItem(tables, g, item, table, sdk, IndexPath(path, KeyText(key)), skip).1.value;
      assert r.value == ret + [Dict(x)];
      assert r.value[..|ret|] == ret;
    }
  }

  /** The item loop from `i` on is entry `i`, then the loop from `i + 1` on. */
  lemma ArrayEntriesStep(tables: Tables, g: Globals, d: Value, i: nat, ret: seq<Value>, table: Table,
                         sdk: Value, category: Value, path: string, skip: bool)
    requires d.Dict? && i < |d.entries|
    ensures var (g1, r1) := ArrayEntry(tables, g, d, i, ret, table, sdk, category, path, skip);
      ArrayEntries(tables, g, d, i, ret, table, sdk, category, path, skip)
        == if r1.Ok? then ArrayEntries(tables, g1, d, i + 1, r1.value, table, sdk, category, path, skip) else (g1, Err(r1.error))
  {
  }

  /** The item loop appends to `ret` one dict per entry it takes, and nothing else. */
  lemma {:induction false} ArrayEntriesLength(tables: Tables, g: Globals, d: Value, i: nat, ret: seq<Value>, table: Table,
                                              sdk: Value, category: Value, path: string, skip: bool)
    requires d.Dict? && i <= |d.entries|
    ensures var r := ArrayEntries(tables, g, d, i, ret, table, sdk, category, path, skip).1;
      r.Ok? ==> |r.value| == |ret| + |Picked(d.entries[i..], category)| && r.value[..|ret|] == ret
    decreases |d.entries| - i
  {
    if i < |d.entries| {
      var (g1, r1) := ArrayEntry(tables, g, d, i, ret, table, sdk, category, path, skip);
      ArrayEntriesStep(tables, g, d, i, ret, table, sdk, category, path, skip);
      if r1.Ok? {
        ArrayEntryShape(tables, g, d, i, ret, table, sdk, category, path, skip);
        PickedStep(d.entries, i, category);
        ArrayEntriesLength(tables, g1, d, i + 1, r1.value, table, sdk, category, path, skip);
        var r := ArrayEntries(tables, g1, d, i + 1, r1.value, table, sdk, category, path, skip).1;
        if r.Ok? {
          assert r.value[..|ret|] == r.value[..|r1.value|][..|ret|];
        }
      }
    }
  }

  /** One step of `ArrayEntriesPicked`, on sequences: what entry `i` appends and what
      the rest of the loop appends after it line up with the entries taken. */
  lemma PickedCombine(tables: Tables, table: Table, sdk: Value, path: string, skip: bool, ret: seq<Value>, ret1: seq<Value>,
                      r: seq<Value>, e: (Key, Value), taken: bool, rest: seq<(Key, Value)>, m: nat)
    requires taken ==> |ret1| == |ret| + 1 && ret1[..|ret|] == ret && GeneratedFor(tables, ret1[|ret|], e, table, sdk, path, skip)
    requires !taken ==> ret1 == ret
    requires |r| == |ret1| + |rest| && r[..|ret1|] == ret1
    requires taken && 0 < m <= |rest| ==> GeneratedFor(tables, r[|ret1| + m - 1], rest[m - 1], table, sdk, path, skip)
    requires !taken && m < |rest| ==> GeneratedFor(tables, r[|ret1| + m], rest[m], table, sdk, path, skip)
    ensures var picked := (if taken then [e] else []) + rest;
      m < |picked| ==> |ret| + m < |r| && GeneratedFor(tables, r[|ret| + m], picked[m], table, sdk, path, skip)
  {
    if taken && m == 0 {
      assert r[|ret|] == r[..|ret1|][|ret|];
    }
  }

  /** The `m`-th dict the item loop appends to `ret` is built from the `m`-th entry it takes. */
  lemma {:induction false} ArrayEntriesPicked(tables: Tables, g: Globals, d: Value, i: nat, ret: seq<Value>, table: Table,
                                              sdk: Value, category: Value, path: string, skip: bool, m: nat)
    requires d.Dict? && i <= |d.entries|
    ensures var r := ArrayEntries(tables, g, d, i, ret, table, sdk, category, path, skip).1;
      r.Ok? && m < |Picked(d.entries[i..], category)| ==>
        |ret| + m < |r.value| && GeneratedFor(tables, r.value[|ret| + m], Picked(d.entries[i..], category)[m], table, sdk, path, skip)
    decreases |d.entries| - i
  {
    if i < |d.entries| {
      var (g1, r1) := ArrayEntry(tables, g, d, i, ret, table, sdk, category, path, skip);
      ArrayEntriesStep(tables, g, d, i, ret, table, sdk, category, path, skip);
      if r1.Ok? {
        ArrayEntryShape(tables, g, d, i, ret, table, sdk, category, path, skip);
        PickedStep(d.entries, i, category);
        ArrayEntriesLength(tables, g1, d, i + 1, r1.value, table, sdk, category, path, skip);
        var taken := Takes(d.entries[i].1, category);
        if taken && m > 0 {
          ArrayEntriesPicked(tables, g1, d, i + 1, r1.value, table, sdk, category, path, skip, m - 1);
        } else if !taken {
          ArrayEntriesPicked(tables, g1, d, i + 1, r1.value, table, sdk, category, path, skip, m);
        }
        var r := ArrayEntries(tables, g1, d, i + 1, r1.value, table, sdk, category, path, skip).1;
        if r.Ok? {
          PickedCombine(tables, table, sdk, path, skip, ret, r1.value, r.value, d.entries[i], taken,
                        Picked(d.entries[i + 1..], category), m);
        }
      }
    }
  }

  /** The value `_replaceFormatTokens` makes of one element does not depend on the
      warnings before it. */
  lemma FormatItemIgnoresGlobals(g: Globals, g': Globals, d: Value)
    ensures FormatItem(g, d).1 == FormatItem(g', d).1
  {
  }

  /** `_replaceFormatTokens` keeps the number and order of the elements and rewrites
      each one on its own: the `m`-th result is what `FormatItem` makes of the `m`-th
      element. */
  lemma {:induction false} FormatItemsEach(g: Globals, items: seq<Value>, i: nat, done: seq<Value>, m: nat)
    requires i <= |items|
    ensures var r := FormatItems(g, items, i, done).1;
      r.Ok? ==> |r.value| == |done| + |items| - i && r.value[..|done|] == done
    ensures var r := FormatItems(g, items, i, done).1;
      r.Ok? && i + m < |items| ==> FormatItem(g, items[i + m]).1 == Ok(r.value[|done| + m])
    decreases |items| - i
  {
    if i < |items| {
      var (g1, r1) := FormatItem(g, items[i]);
      if r1.Ok? {
        var done1 := done + [r1.value];
        assert FormatItems(g, items, i, done) == FormatItems(g1, items, i + 1, done1);
        var r := FormatItems(g1, items, i + 1, done1).1;
        if m == 0 {
          FormatItemsEach(g1, items, i + 1, done1, 0);
          if r.Ok? {
            assert r.value[|done|] == r.value[..|done1|][|done|];
          }
        } else {
          FormatItemsEach(g1, items, i + 1, done1, m - 1);
          if i + m < |items| {
            FormatItemIgnoresGlobals(g, g1, items[i + m]);
          }
          if r.Ok? {
            assert r.value[..|done|] == r.value[..|done1|][..|done|];
          }
        }
      }
    }
  }

  /** `_arrayFromDict`: a non-dict gives `[]`. A dict gives one generated dict per entry
      it takes, in dict order, leaving out items of another category; the `actions` and
      `connectors` arrays then have each such dict's format tokens replaced, and other
      arrays are left as they are. */
  lemma ArrayFromDictItems(tables: Tables, g: Globals, d: Value, table: Table, sdk: Value, category: Value, path: string,
                           skip: bool, m: nat)
    ensures !d.Dict? ==> ArrayFromDict(tables, g, d, table, sdk, category, path, skip) == (g, Ok([]))
    ensures var r := ArrayFromDict(tables, g, d, table, sdk, category, path, skip).1;
      d.Dict? && r.Ok? ==> |r.value| == |Picked(d.entries, category)|
    ensures var r := ArrayFromDict(tables, g, d, table, sdk, category, path, skip).1;
      d.Dict? && r.Ok? && m < |r.value| && path != "actions" && path != "connectors" ==>
        GeneratedFor(tables, r.value[m], Picked(d.entries, category)[m], table, sdk, path, skip)
    ensures var r := ArrayFromDict(tables, g, d, table, sdk, category, path, skip).1;
      d.Dict? && r.Ok? && m < |r.value| && (path == "actions" || path == "connectors") ==>
        exists x :: GeneratedFor(tables, x, Picked(d.entries, category)[m], table, sdk, path, skip)
          && FormatItem(g, x).1 == Ok(r.value[m])
  {
    if d.Dict? {
      var (g1, r1) := ArrayEntries(tables, g, d, 0, [], table, sdk, category, path, skip);
      ArrayEntriesLength(tables, g, d, 0, [], table, sdk, category, path, skip);
      ArrayEntriesPicked(tables, g, d, 0, [], table, sdk, category, path, skip, m);
      assert d.entries[0..] == d.entries;
      if r1.Ok? && (path == "actions" || path == "connectors") {
        FormatItemsEach(g1, r1.value, 0, [], m);
        var r := FormatItems(g1, r1.value, 0, []).1;
        if r.Ok? && m < |r.value| {
          FormatItemIgnoresGlobals(g, g1, r1.value[m]);
          assert GeneratedFor(tables, r1.value[m], Picked(d.entries, category)[m], table, sdk, path, skip);
        }
      }
    }
  }

  /** The category arrays keep the keys the category dict had. */
  lemma {:induction false} CategoryArraysKeepKeys(tables: Tables, g: Globals, c: seq<(Key, Value)>, stages: seq<(string, Value, TableId)>,
                                                  i: nat, catv: Value, sdk: Value, skip: bool, key: Key)
    requires i <= |stages| && key in KeysOf(c)
    ensures CategoryArrays(tables, g, c, stages, i, catv, sdk, skip).1.Ok? ==>
      key in KeysOf(CategoryArrays(tables, g, c, stages, i, catv, sdk, skip).1.value)
    decreases |stages| - i
  {
    if i < |stages| {
      var (name, d, id) := stages[i];
      var (g1, r1) := ArrayFromDict(tables, g, d, tables(id), sdk, catv, name, skip);
      if r1.Ok? {
        var c1 := Put(c, SKey(name), List(r1.value));
        assert CategoryArrays(tables, g, c, stages, i, catv, sdk, skip) == CategoryArrays(tables, g1, c1, stages, i + 1, catv, sdk, skip);
        PutKeys(c, SKey(name), List(r1.value));
        CategoryArraysKeepKeys(tables, g1, c1, stages, i + 1, catv, sdk, skip, key);
      }
    }
  }

  /** The category arrays add one key per stage. */
  lemma {:induction false} CategoryArraysKeys(tables: Tables, g: Globals, c: seq<(Key, Value)>, stages: seq<(string, Value, TableId)>,
                                              i: nat, catv: Value, sdk: Value, skip: bool, m: nat)
    requires i <= m < |stages|
    ensures CategoryArrays(tables, g, c, stages, i, catv, sdk, skip).1.Ok? ==>
      SKey(stages[m].0) in KeysOf(CategoryArrays(tables, g, c, stages, i, catv, sdk, skip).1.value)
    decreases |stages| - i
  {
    var (name, d, id) := stages[i];
    var (g1, r1) := ArrayFromDict(tables, g, d, tables(id), sdk, catv, name, skip);
    if r1.Ok? {
      var c1 := Put(c, SKey(name), List(r1.value));
      assert CategoryArrays(tables, g, c, stages, i, catv, sdk, skip) == CategoryArrays(tables, g1, c1, stages, i + 1, catv, sdk, skip);
      if m == i {
        PutKeys(c, SKey(name), List(r1.value));
        CategoryArraysKeepKeys(tables, g1, c1, stages, i + 1, catv, sdk, skip, SKey(name));
      } else {
        CategoryArraysKeys(tables, g1, c1, stages, i + 1, catv, sdk, skip, m);
      }
    }
  }

  /** Every generated category has `actions`, `states` and `events`, and from SDK 4
      on also `connectors`. */
  lemma CategoryOfArrays(tables: Tables, g: Globals, cat: Key, data: Value, sdk: Value, decl: Declarations, skip: bool)
    ensures CategoryOf(tables, g, cat, data, sdk, decl, skip).1.Ok? ==>
      var r := CategoryOf(tables, g, cat, data, sdk, decl, skip).1.value;
      SKey("actions") in KeysOf(r) && SKey("states") in KeysOf(r) && SKey("events") in KeysOf(r)
      && (Num(sdk).value >= 4.0 ==> SKey("connectors") in KeysOf(r))
  {
    var catv := KeyValue(cat);
    var (g1, r1) := DictFromItem(tables, g, data, tables(CategoryTable), sdk, IndexPath("category", KeyText(cat)), skip);
    if r1.Ok? {
      var stages := CategoryStages(decl);
      var (g2, r2) := CategoryArrays(tables, g1, r1.value, stages, 0, catv, sdk, skip);
      CategoryArraysKeys(tables, g1, r1.value, stages, 0, catv, sdk, skip, 0);
      CategoryArraysKeys(tables, g1, r1.value, stages, 0, catv, sdk, skip, 1);
      CategoryArraysKeys(tables, g1, r1.value, stages, 0, catv, sdk, skip, 2);
      if r2.Ok? {
        assert SKey(stages[0].0) in KeysOf(r2.value) && SKey(stages[1].0) in KeysOf(r2.value) && SKey(stages[2].0) in KeysOf(r2.value);
        var (g3, r3) := CategoryConnectors(tables, g2, r2.value, catv, sdk, decl, skip);
        if r3.Ok? && AtLeast(sdk, 4).value {
          var (g5, r5) := ArrayFromDict(tables, g2, decl.connectors, tables(ConnectorTable), sdk, catv, "connectors", skip);
          PutKeys(r2.value, SKey("connectors"), List(r5.value));
        } else if r3.Ok? {
          assert r3.value == r2.value;
        }
      }
    }
  }

  /** Below SDK 4 no connectors are generated for a category. */
  lemma ConnectorsOnlyFromSdk4(tables: Tables, g: Globals, c: seq<(Key, Value)>, catv: Value, sdk: Value, decl: Declarations, skip: bool)
    requires Num(sdk).Some? && Num(sdk).value < 4.0
    ensures CategoryConnectors(tables, g, c, catv, sdk, decl, skip) == (g, Ok(c))
  {
  }

  /** Below SDK 3 no settings are generated. */
  lemma SettingsOnlyFromSdk3(tables: Tables, g: Globals, entry: seq<(Key, Value)>, sdk: Value, decl: Declarations, skip: bool)
    requires Num(sdk).Some? && Num(sdk).value < 3.0
    ensures AddSettings(tables, g, entry, sdk, decl, skip) == (g, Ok(entry))
  {
  }

  /** `xs` is a list value that extends `items` by `n` dicts. */
  predicate ExtendsByDicts(xs: Option<Value>, items: seq<Value>, n: nat) {
    xs.Some? && xs.value.List? && |xs.value.items| == |items| + n && items <= xs.value.items
    && forall k :: |items| <= k < |xs.value.items| ==> xs.value.items[k].Dict?
  }

  /** The category loop appends one category dict per declared category to the
      `categories` list and keeps what it held. */
  lemma {:induction false} CategoriesAppended(tables: Tables, g: Globals, entry: seq<(Key, Value)>, cats: seq<(Key, Value)>, i: nat,
                                              sdk: Value, decl: Declarations, skip: bool, items: seq<Value>)
    requires i <= |cats| && Lookup(entry, SKey("categories")) == Some(List(items))
    ensures CategoriesFrom(tables, g, entry, cats, i, sdk, decl, skip).1.Ok? ==>
      ExtendsByDicts(Lookup(CategoriesFrom(tables, g, entry, cats, i, sdk, decl, skip).1.value, SKey("categories")), items, |cats| - i)
    decreases |cats| - i
  {
    if i < |cats| {
      var (g1, r1) := CategoryOf(tables, g, cats[i].0, cats[i].1, sdk, decl, skip);
      if r1.Ok? {
        var x := Dict(r1.value);
        var entry1 := Put(entry, SKey("categories"), List(items + [x]));
        assert AppendTo(entry, "categories", [x]) == Ok(entry1);
        assert CategoriesFrom(tables, g, entry, cats, i, sdk, decl, skip) == CategoriesFrom(tables, g1, entry1, cats, i + 1, sdk, decl, skip);
        PutSpec(entry, SKey("categories"), List(items + [x]), SKey("categories"));
        CategoriesAppended(tables, g1, entry1, cats, i + 1, sdk, decl, skip, items + [x]);
        var rest := CategoriesFrom(tables, g1, entry1, cats, i + 1, sdk, decl, skip).1;
        if rest.Ok? {
          ExtendsByOneMore(Lookup(rest.value, SKey("categories")), items, x, |cats| - (i + 1));
        }
      }
    }
  }

  lemma ExtendsByOneMore(xs: Option<Value>, items: seq<Value>, x: Value, n: nat)
    requires x.Dict? && ExtendsByDicts(xs, items + [x], n)
    ensures ExtendsByDicts(xs, items, n + 1)
  {
    var ys := xs.value.items;
    assert ys[|items|] == (items + [x])[|items|];
    assert items == (items + [x])[..|items|];
  }
}
