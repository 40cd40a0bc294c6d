/** Properties of the reverse converter: how data lists are keyed, how placeholders
    become positional tokens, what the info and settings dicts hold, where the
    generated states, events, actions and connectors land, and how categories are
    keyed. */
module ReverseConversionProperties {
  import opened Outcomes
  import opened PyValue
  import opened Text
  import opened ReverseConversion

  // ---------------------------------------------------------------------------
  // __convertData and generateSettings

  /** The `j`-th item is found under key `base + j`. */
  lemma {:induction false} IndexKeyedLookup(items: seq<Value>, base: int, j: nat)
    requires j < |items|
    ensures Lookup(IndexKeyed(items, base), IKey(base + j)) == Some(items[j])
    decreases j
  {
    var r := IndexKeyed(items, base);
    var rest := IndexKeyed(items[1..], base + 1);
    var key := IKey(base + j);
    assert r == [(IKey(base), items[0])] + rest;
    if j > 0 {
      assert r[0].0 != key && r[1..] == rest;
      assert Lookup(r, key) == Lookup(rest, key);
      assert items[1..][j - 1] == items[j];
      IndexKeyedLookup(items[1..], base + 1, j - 1);
      assert base + 1 + (j - 1) == base + j;
    } else {
      assert r[0] == (key, items[0]);
    }
  }

  /** A key outside `base .. base + |items| - 1` is not found. */
  lemma IndexKeyedMissing(items: seq<Value>, base: int, k: Key)
    requires !(k.IKey? && base <= k.n < base + |items|)
    ensures Lookup(IndexKeyed(items, base), k) == None
  {
    KeysOfIndex(IndexKeyed(items, base));
    LookupSpec(IndexKeyed(items, base), k);
  }

  /** `__convertData` keys a list by 0-based index, with the same items and no other
      key, and turns anything else into `{}`. */
  lemma ConvertedDataSpec(data: Value, k: Key)
    ensures !data.List? ==> ConvertedData(data) == []
    ensures data.List? ==>
      Lookup(ConvertedData(data), k) == if k.IKey? && 0 <= k.n < |data.items| then Some(data.items[k.n]) else None
  {
    if data.List? {
      if k.IKey? && 0 <= k.n < |data.items| {
        IndexKeyedLookup(data.items, 0, k.n);
      } else {
        IndexKeyedMissing(data.items, 0, k);
      }
    }
  }

  /** `generateSettings` keys the settings list from 1, and gives `{}` when
      `settings` is missing, falsy or not a list. */
  lemma GeneratedSettingsSpec(entry: Value, k: Key)
    requires entry.Dict?
    ensures var present := Lookup(entry.entries, SKey("settings"));
      present.None? || !Truthy(present.value) || !present.value.List? ==> GeneratedSettings(entry) == Ok([])
    ensures var present := Lookup(entry.entries, SKey("settings"));
      present.Some? && present.value.List? ==>
        Lookup(GeneratedSettings(entry).value, k)
          == if k.IKey? && 1 <= k.n <= |present.value.items| then Some(present.value.items[k.n - 1]) else None
  {
    var present := Lookup(entry.entries, SKey("settings"));
    if present.Some? && present.value.List? {
      var items := present.value.items;
      if k.IKey? && 1 <= k.n <= |items| {
        IndexKeyedLookup(items, 1, k.n - 1);
      } else {
        IndexKeyedMissing(items, 1, k);
      }
    }
  }

  // ---------------------------------------------------------------------------
  // __convertFormat

  /** Data item `j` has a string id that does not occur in `format`. */
  predicate IdAbsent(data: Value, j: nat, format: string)
    requires Len(data).Ok? && j < Len(data).value
  {
    ItemAt(data, j).Ok? && Subscript(ItemAt(data, j).value, "id").Ok?
    && Subscript(ItemAt(data, j).value, "id").value.Str?
    && !Occurs(Subscript(ItemAt(data, j).value, "id").value.s, format)
  }

  lemma {:induction false} FormatFromUnchanged(format: string, f: string, data: Value, n: nat, i: nat)
    requires i <= n && Len(data) == Ok(n)
    requires forall j :: i <= j < n ==> IdAbsent(data, j, format)
    ensures FormatFrom(format, f, data, n, i) == Ok(f)
    decreases n - i
  {
    if i < n {
      assert IdAbsent(data, i, format);
      FormatFromUnchanged(format, f, data, n, i + 1);
    }
  }

  /** A format that mentions none of the data ids is left as it is. */
  lemma ConvertedFormatUnchanged(format: string, data: Value)
    requires Len(data).Ok?
    requires forall j :: 0 <= j < Len(data).value ==> IdAbsent(data, j, format)
    ensures ConvertedFormat(Str(format), data) == Ok(Str(format))
  {
    if Len(data).value > 0 {
      FormatFromUnchanged(format, format, data, Len(data).value, 0);
    }
  }

  /** Items whose ids do not occur in the format are passed over. */
  lemma {:induction false} FormatFromSkips(format: string, f: string, data: Value, n: nat, i: nat, k: nat)
    requires i <= k <= n && Len(data) == Ok(n)
    requires forall j :: i <= j < k ==> IdAbsent(data, j, format)
    ensures FormatFrom(format, f, data, n, i) == FormatFrom(format, f, data, n, k)
    decreases k - i
  {
    if i < k {
      assert IdAbsent(data, i, format);
      FormatFromSkips(format, f, data, n, i + 1, k);
    }
  }

  /** The placeholder `{$x$}` of data item `k`, occurring once in the format, becomes
      the positional token `$[k+1]` when no other data id occurs in the format; the
      text around it is kept. */
  lemma ConvertedFormatReplaces(pre: string, post: string, data: Value, k: nat, x: string)
    requires Len(data).Ok? && k < Len(data).value
    requires ItemAt(data, k).Ok? && Subscript(ItemAt(data, k).value, "id") == Ok(Str(x))
    requires forall i :: 0 <= i < |pre| ==> !OccursAt(Placeholder(x), pre + Placeholder(x) + post, i)
    requires !Occurs(Placeholder(x), post)
    requires forall j :: 0 <= j < Len(data).value && j != k ==> IdAbsent(data, j, pre + Placeholder(x) + post)
    ensures ConvertedFormat(Str(pre + Placeholder(x) + post), data) == Ok(Str(pre + PositionToken(k + 1) + post))
  {
    var n := Len(data).value;
    var p := Placeholder(x);
    var format := pre + p + post;
    assert OccursAt(x, format, |pre| + 2) by {
      assert format[|pre| + 2..|pre| + 2 + |x|] == p[2..2 + |x|] == x;
    }
    FormatFromSkips(format, format, data, n, 0, k);
    ReplaceOnce(pre, p, post, PositionToken(k + 1));
    var f := pre + PositionToken(k + 1) + post;
    assert FormatFrom(format, format, data, n, k) == FormatFrom(format, f, data, n, k + 1);
    FormatFromUnchanged(format, f, data, n, k + 1);
  }

  /** Data item `j` has a string id. */
  predicate HasStrId(data: Value, j: nat)
    requires Len(data).Ok? && j < Len(data).value
  {
    ItemAt(data, j).Ok? && Subscript(ItemAt(data, j).value, "id").Ok?
    && Subscript(ItemAt(data, j).value, "id").value.Str?
  }

  /** The id of data item `j`. */
  function IdOf(data: Value, j: nat): string
    requires Len(data).Ok? && j < Len(data).value && HasStrId(data, j)
  {
    Subscript(ItemAt(data, j).value, "id").value.s
  }

  /** Every data item has a string id without `$`, `{` or `[`. */
  predicate PlainIds(data: Value)
    requires Len(data).Ok?
  {
    forall j :: 0 <= j < Len(data).value ==>
      HasStrId(data, j) && '$' !in IdOf(data, j) && '{' !in IdOf(data, j) && '[' !in IdOf(data, j)
  }

  /** No two data items share an id. */
  predicate DistinctIds(data: Value)
    requires Len(data).Ok? && PlainIds(data)
  {
    forall j, j' :: 0 <= j < j' < Len(data).value ==> IdOf(data, j) != IdOf(data, j')
  }

  /** What stands for data item `j` once the loop has handled the items before `i`:
      its position token if it was handled, else its placeholder. */
  function Hole(data: Value, j: nat, i: nat): string
    requires Len(data).Ok? && j < Len(data).value && PlainIds(data)
  {
    if j < i then PositionToken(j + 1) else Placeholder(IdOf(data, j))
  }

  /** The text pieces `ws` with the holes of data items `js` between them:
      `ws[0] + Hole(js[0]) + ws[1] + ... + ws[|js|]`. With `i == 0` every hole is a
      placeholder `{$id$}`; with `i` the number of items, a position token `$[j+1]`. */
  function Filled(ws: seq<string>, data: Value, js: seq<nat>, i: nat): string
    requires Len(data).Ok? && PlainIds(data) && |ws| == |js| + 1
    requires forall t :: 0 <= t < |js| ==> js[t] < Len(data).value
    decreases |js|
  {
    if js == [] then ws[0]
    else ws[0] + Hole(data, js[0], i) + Filled(ws[1..], data, js[1..], i)
  }

  /** A placeholder has `{` only in front when its id has none. */
  lemma PlaceholderOpens(y: string)
    requires '{' !in y
    ensures forall k :: 1 <= k < |Placeholder(y)| ==> Placeholder(y)[k] != '{'
  {
    forall k | 1 <= k < |Placeholder(y)|
      ensures Placeholder(y)[k] != '{'
    {
      if 2 <= k < 2 + |y| {
        assert Placeholder(y)[k] == y[k - 2];
      }
    }
  }

  /** The placeholders of two different ids without `$` do not match at the same place. */
  lemma PlaceholderMismatch(x: string, y: string, rest: string)
    requires '$' !in x && '$' !in y && x != y
    ensures !OccursAt(Placeholder(x), Placeholder(y) + rest, 0)
  {
    var px := Placeholder(x);
    var s := Placeholder(y) + rest;
    if |px| <= |s| {
      if |x| < |y| {
        assert s[2 + |x|] == y[|x|] && px[2 + |x|] == '$';
        assert s[..|px|][2 + |x|] != px[2 + |x|];
      } else if |x| > |y| {
        assert s[2 + |y|] == '$' && px[2 + |y|] == x[|y|];
        assert s[..|px|][2 + |y|] != px[2 + |y|];
      } else {
        var d :| 0 <= d < |x| && x[d] != y[d];
        assert s[2 + d] == y[d] && px[2 + d] == x[d];
        assert s[..|px|][2 + d] != px[2 + d];
      }
    }
  }

  /** A position token starts with `$[` and holds no `{`. */
  lemma TokenShape(n: nat)
    ensures |PositionToken(n)| >= 4 && PositionToken(n)[0] == '$' && PositionToken(n)[1] == '['
    ensures forall k :: 0 <= k < |PositionToken(n)| ==> PositionToken(n)[k] != '{'
  {
    var t := NatToString(n);
    forall k | 0 <= k < |PositionToken(n)|
      ensures PositionToken(n)[k] != '{'
    {
      if 2 <= k < 2 + |t| {
        assert PositionToken(n)[k] == t[k - 2];
        assert IsDigit(t[k - 2]);
      }
    }
  }

  /** Text without `{$` holds no placeholder. */
  lemma NoPlaceholderIn(w: string, x: string)
    requires !Occurs("{$", w)
    ensures !Occurs(Placeholder(x), w)
  {
    var p := Placeholder(x);
    forall k | 0 <= k <= |w| - |p|
      ensures !OccursAt(p, w, k)
    {
      assert !OccursAt("{$", w, k);
      assert w[k..k + 2] != p[..2];
      assert w[k..k + |p|][..2] == w[k..k + 2];
    }
  }

  /** No placeholder crosses from a text piece into the hole after it. */
  lemma PieceNoneCrosses(w: string, h: string, rest: string, x: string, n: nat)
    requires !Occurs("{$", w) && '$' !in x && '[' !in x
    requires h == PositionToken(n) || (|h| >= 4 && h[0] == '{')
    ensures NoneCrosses(w, h + rest, Placeholder(x))
  {
    var p := Placeholder(x);
    var s := w + (h + rest);
    TokenShape(n);
    assert p[..2] == "{$" && p[0] == '{' && p[1] == '$';
    assert p[2] != '[' by {
      if x == [] {
        assert p[2] == '$';
      } else {
        assert p[2] == x[0];
      }
    }
    forall k | 0 <= k < |w| < k + |p|
      ensures !OccursAt(p, s, k)
    {
      if k + |p| <= |s| {
        var m := s[k..k + |p|];
        if k + 1 < |w| {
          assert !OccursAt("{$", w, k);
          assert w[k..k + 2] == [w[k], w[k + 1]];
          assert w[k] != '{' || w[k + 1] != '$';
          assert m[0] == s[k] == w[k] && m[1] == s[k + 1] == w[k + 1];
          assert m[0] != p[0] || m[1] != p[1];
        } else if h[0] == '{' {
          assert m[1] == s[k + 1] == h[0];
          assert m[1] != p[1];
        } else {
          assert h == PositionToken(n);
          assert m[2] == s[k + 2] == h[1] == '[';
          assert m[2] != p[2];
        }
      }
    }
  }

  /** No placeholder crosses out of a hole. */
  lemma HoleNoneCrosses(data: Value, j: nat, i: nat, rest: string, x: string)
    requires Len(data).Ok? && j < Len(data).value && PlainIds(data) && '$' !in x
    ensures NoneCrosses(Hole(data, j, i), rest, Placeholder(x))
  {
    var h := Hole(data, j, i);
    var p := Placeholder(x);
    var s := h + rest;
    if j < i {
      TokenShape(j + 1);
    } else {
      PlaceholderOpens(IdOf(data, j));
      if x != IdOf(data, j) {
        PlaceholderMismatch(x, IdOf(data, j), rest);
      }
    }
    assert p[0] == '{';
    forall k | 0 <= k < |h| < k + |p|
      ensures !OccursAt(p, s, k)
    {
      if k + |p| <= |s| && (j < i || k > 0) {
        assert s[k..k + |p|][0] == h[k];
      }
    }
  }

  /** Text without `{` holds no placeholder. */
  lemma NoBraceNoPlaceholder(w: string, x: string)
    requires forall k :: 0 <= k < |w| ==> w[k] != '{'
    ensures !Occurs(Placeholder(x), w)
  {
    var p := Placeholder(x);
    forall k | 0 <= k <= |w| - |p|
      ensures !OccursAt(p, w, k)
    {
      assert w[k..k + |p|][0] == w[k] && p[0] == '{';
    }
  }

  /** A placeholder holds no other placeholder of a `$`-free id. */
  lemma OtherPlaceholderAbsent(x: string, y: string)
    requires '$' !in x && '$' !in y && '{' !in y && x != y
    ensures !Occurs(Placeholder(x), Placeholder(y))
  {
    var p := Placeholder(x);
    var h := Placeholder(y);
    PlaceholderOpens(y);
    PlaceholderMismatch(x, y, []);
    assert h + [] == h;
    forall k | 0 <= k <= |h| - |p|
      ensures !OccursAt(p, h, k)
    {
      if k > 0 {
        assert h[k..k + |p|][0] == h[k] && p[0] == '{';
      }
    }
  }

  /** Replacing the placeholder of item `i` by its token turns each hole into the hole
      after item `i` is handled. */
  lemma ReplaceInHole(data: Value, j: nat, i: nat)
    requires Len(data).Ok? && j < Len(data).value && i < Len(data).value && PlainIds(data) && DistinctIds(data)
    ensures ReplaceAll(Hole(data, j, i), Placeholder(IdOf(data, i)), PositionToken(i + 1)) == Hole(data, j, i + 1)
  {
    var p := Placeholder(IdOf(data, i));
    var t := PositionToken(i + 1);
    if j < i {
      TokenShape(j + 1);
      NoBraceNoPlaceholder(PositionToken(j + 1), IdOf(data, i));
      ReplaceAbsent(PositionToken(j + 1), p, t);
    } else if j == i {
      ReplaceLeading(p, t, []);
      assert p + [] == p;
    } else {
      OtherPlaceholderAbsent(IdOf(data, i), IdOf(data, j));
      ReplaceAbsent(Placeholder(IdOf(data, j)), p, t);
    }
  }

  /** One step of `ReplaceInFilled`, given what it says about the pieces after the first. */
  lemma ReplaceInFilledStep(ws: seq<string>, data: Value, js: seq<nat>, i: nat)
    requires Len(data).Ok? && i < Len(data).value && PlainIds(data) && DistinctIds(data) && |ws| == |js| + 1
    requires js != [] && forall t :: 0 <= t < |js| ==> js[t] < Len(data).value
    requires !Occurs("{$", ws[0])
    requires ReplaceAll(Filled(ws[1..], data, js[1..], i), Placeholder(IdOf(data, i)), PositionToken(i + 1))
      == Filled(ws[1..], data, js[1..], i + 1)
    ensures ReplaceAll(Filled(ws, data, js, i), Placeholder(IdOf(data, i)), PositionToken(i + 1)) == Filled(ws, data, js, i + 1)
  {
    var x := IdOf(data, i);
    var p := Placeholder(x);
    var t := PositionToken(i + 1);
    var h := Hole(data, js[0], i);
    var rest := Filled(ws[1..], data, js[1..], i);
    NoPlaceholderIn(ws[0], x);
    ReplaceAbsent(ws[0], p, t);
    PieceNoneCrosses(ws[0], h, rest, x, js[0] + 1);
    HoleNoneCrosses(data, js[0], i, rest, x);
    ReplaceThree(ws[0], h, rest, p, t);
    ReplaceInHole(data, js[0], i);
  }

  /** Replacing the placeholder of item `i` in the filled format is handling item `i`. */
  lemma {:induction false} ReplaceInFilled(ws: seq<string>, data: Value, js: seq<nat>, i: nat)
    requires Len(data).Ok? && i < Len(data).value && PlainIds(data) && DistinctIds(data) && |ws| == |js| + 1
    requires forall t :: 0 <= t < |js| ==> js[t] < Len(data).value
    requires forall t :: 0 <= t < |ws| ==> !Occurs("{$", ws[t])
    ensures ReplaceAll(Filled(ws, data, js, i), Placeholder(IdOf(data, i)), PositionToken(i + 1)) == Filled(ws, data, js, i + 1)
    decreases |js|
  {
    if js == [] {
      NoPlaceholderIn(ws[0], IdOf(data, i));
      ReplaceAbsent(ws[0], Placeholder(IdOf(data, i)), PositionToken(i + 1));
    } else {
      ReplaceInFilled(ws[1..], data, js[1..], i);
      ReplaceInFilledStep(ws, data, js, i);
    }
  }

  /** Handling an item that has no hole leaves the filled format as it is. */
  lemma {:induction false} FilledNoHole(ws: seq<string>, data: Value, js: seq<nat>, i: nat)
    requires Len(data).Ok? && PlainIds(data) && |ws| == |js| + 1
    requires forall t :: 0 <= t < |js| ==> js[t] < Len(data).value && js[t] != i
    ensures Filled(ws, data, js, i) == Filled(ws, data, js, i + 1)
    decreases |js|
  {
    if js != [] {
      FilledNoHole(ws[1..], data, js[1..], i);
    }
  }

  /** The id of an item with a hole occurs in the format. */
  lemma {:induction false} FilledHasId(ws: seq<string>, data: Value, js: seq<nat>, t: nat)
    requires Len(data).Ok? && PlainIds(data) && |ws| == |js| + 1
    requires forall u :: 0 <= u < |js| ==> js[u] < Len(data).value
    requires t < |js|
    ensures Occurs(IdOf(data, js[t]), Filled(ws, data, js, 0))
    decreases |js|
  {
    var f := Filled(ws, data, js, 0);
    var rest := Filled(ws[1..], data, js[1..], 0);
    var h := Hole(data, js[0], 0);
    assert f == ws[0] + h + rest;
    if t == 0 {
      var x := IdOf(data, js[0]);
      assert h[2..2 + |x|] == x;
      assert OccursAt(x, h, 2);
      OccursWithin(x, ws[0], h, rest);
    } else {
      FilledHasId(ws[1..], data, js[1..], t - 1);
      assert js[1..][t - 1] == js[t];
      OccursWithin(IdOf(data, js[t]), ws[0] + h, rest, []);
      assert ws[0] + h + rest + [] == f;
    }
  }

  /** One step of `FormatFromFilled`: item `i` turns the text filled up to `i` into the
      text filled up to `i + 1`. */
  lemma FormatFromFilledStep(ws: seq<string>, data: Value, js: seq<nat>, n: nat, i: nat)
    requires Len(data) == Ok(n) && i < n && PlainIds(data) && DistinctIds(data) && |ws| == |js| + 1
    requires forall t :: 0 <= t < |js| ==> js[t] < n
    requires forall t :: 0 <= t < |ws| ==> !Occurs("{$", ws[t])
    ensures FormatFrom(Filled(ws, data, js, 0), Filled(ws, data, js, i), data, n, i)
      == FormatFrom(Filled(ws, data, js, 0), Filled(ws, data, js, i + 1), data, n, i + 1)
  {
    var format := Filled(ws, data, js, 0);
    var x := IdOf(data, i);
    assert HasStrId(data, i);
    if Occurs(x, format) {
      ReplaceInFilled(ws, data, js, i);
    } else {
      forall t | 0 <= t < |js|
        ensures js[t] != i
      {
        FilledHasId(ws, data, js, t);
      }
      FilledNoHole(ws, data, js, i);
    }
  }

  /** The loop of `__convertFormat` from item `i` on finishes the filling. */
  lemma {:induction false} FormatFromFilled(ws: seq<string>, data: Value, js: seq<nat>, n: nat, i: nat)
    requires Len(data) == Ok(n) && i <= n && PlainIds(data) && DistinctIds(data) && |ws| == |js| + 1
    requires forall t :: 0 <= t < |js| ==> js[t] < n
    requires forall t :: 0 <= t < |ws| ==> !Occurs("{$", ws[t])
    ensures FormatFrom(Filled(ws, data, js, 0), Filled(ws, data, js, i), data, n, i) == Ok(Filled(ws, data, js, n))
    decreases n - i
  {
    if i < n {
      FormatFromFilledStep(ws, data, js, n, i);
      FormatFromFilled(ws, data, js, n, i + 1);
    }
  }

  /** `__convertFormat` on a format that interleaves text with the placeholders
      `{$id$}` of any data items, in any order and any number of times: every
      placeholder becomes its item's 1-based position token `$[j+1]`, and the text
      between them is kept. The ids are distinct strings without `$`, `{` or `[`, and
      the text holds no `{$`. */
  lemma ConvertedFormatFills(ws: seq<string>, data: Value, js: seq<nat>)
    requires Len(data).Ok? && PlainIds(data) && DistinctIds(data) && |ws| == |js| + 1
    requires forall t :: 0 <= t < |js| ==> js[t] < Len(data).value
    requires forall t :: 0 <= t < |ws| ==> !Occurs("{$", ws[t])
    ensures ConvertedFormat(Str(Filled(ws, data, js, 0)), data) == Ok(Str(Filled(ws, data, js, Len(data).value)))
  {
    var n := Len(data).value;
    if n > 0 {
      FormatFromFilled(ws, data, js, n, 0);
    }
  }

  /** The pieces of `"Set {$a$} to {$b$}"`, before and after the conversion. */
  lemma TwoIdsFilled(data: Value)
    requires Len(data) == Ok(2) && PlainIds(data) && IdOf(data, 0) == "a" && IdOf(data, 1) == "b"
    ensures Filled(["Set ", " to ", ""], data, [0, 1], 0) == "Set " + Placeholder("a") + " to " + Placeholder("b")
    ensures Filled(["Set ", " to ", ""], data, [0, 1], 2) == "Set " + PositionToken(1) + " to " + PositionToken(2)
  {
    var ws := ["Set ", " to ", ""];
    var js: seq<nat> := [0, 1];
    assert ws[1..] == [" to ", ""] && js[1..] == [1];
    assert ws[1..][1..] == [""] && js[1..][1..] == [];
    assert Filled(ws[1..], data, js[1..], 0) == " to " + Placeholder("b") + "";
    assert Filled(ws[1..], data, js[1..], 2) == " to " + PositionToken(2) + "";
  }

  /** The format `"Set {$a$} to {$b$}"` with data ids `a` and `b` becomes
      `"Set $[1] to $[2]"`. */
  lemma ConvertedFormatTwoIds(d0: Value, d1: Value)
    requires Subscript(d0, "id") == Ok(Str("a")) && Subscript(d1, "id") == Ok(Str("b"))
    ensures ConvertedFormat(Str("Set " + Placeholder("a") + " to " + Placeholder("b")), List([d0, d1]))
      == Ok(Str("Set " + PositionToken(1) + " to " + PositionToken(2)))
  {
    var data := List([d0, d1]);
    assert HasStrId(data, 0) && IdOf(data, 0) == "a";
    assert HasStrId(data, 1) && IdOf(data, 1) == "b";
    assert PlainIds(data);
    var ws := ["Set ", " to ", ""];
    NoOpenBrace(ws[0]);
    NoOpenBrace(ws[1]);
    NoOpenBrace(ws[2]);
    ConvertedFormatFills(ws, data, [0, 1]);
    TwoIdsFilled(data);
  }

  // ---------------------------------------------------------------------------
  // generateInfo

  /** The loop of `generateInfo` from `i` on adds exactly the whitelisted entries of
      `es[i..]` to what `info` held. */
  lemma {:induction false} InfoFromLookup(es: Entries, i: nat, info: Entries, k: Key)
    requires i <= |es| && UniqueKeys(es)
    ensures Lookup(InfoFrom(es, i, info), k)
      == if IsInfoKey(k) && Lookup(es[i..], k).Some? then Lookup(es[i..], k) else Lookup(info, k)
    decreases |es| - i
  {
    if i < |es| {
      var info1 := if IsInfoKey(es[i].0) then Put(info, es[i].0, es[i].1) else info;
      InfoFromLookup(es, i + 1, info1, k);
      assert es[i..][1..] == es[i + 1..];
      if es[i].0 == k {
        assert Lookup(es[i + 1..], k).None? by {
          KeysOfIndex(es);
          KeysOfIndex(es[i + 1..]);
          LookupSpec(es[i + 1..], k);
        }
        if IsInfoKey(k) {
          PutSpec(info, k, es[i].1, k);
        }
      } else if IsInfoKey(es[i].0) {
        PutSpec(info, es[i].0, es[i].1, k);
      }
    }
  }

  /** `generateInfo` copies exactly the whitelisted keys of the entry, with their
      values. */
  lemma GeneratedInfoExact(entry: Value, k: Key)
    requires entry.Dict? && UniqueKeys(entry.entries)
    ensures GeneratedInfo(entry).Ok?
    ensures Lookup(GeneratedInfo(entry).value, k) == if IsInfoKey(k) then Lookup(entry.entries, k) else None
  {
    InfoFromLookup(entry.entries, 0, [], k);
    assert entry.entries[0..] == entry.entries;
  }

  // ---------------------------------------------------------------------------
  // generateStates and generateEvents

  /** With step 1, a key outside the ones written from `idx` keeps its value. */
  lemma {:induction false} TaggedFromKeeps(st: Entries, items: seq<Value>, i: nat, idx: int, category: Value, k: Key)
    requires i <= |items|
    requires !(k.IKey? && idx <= k.n < idx + |items| - i)
    ensures TaggedFrom(st, items, i, idx, 1, category).1.Done? ==>
      Lookup(TaggedFrom(st, items, i, idx, 1, category).0, k) == Lookup(st, k)
    decreases |items| - i
  {
    if i < |items| && items[i].Dict? {
      var st1 := Put(st, IKey(idx), Tagged(items[i], category));
      TaggedFromKeeps(st1, items, i + 1, idx + 1, category, k);
      PutSpec(st, IKey(idx), Tagged(items[i], category), k);
    }
  }

  /** With step 1, item `j` is found, tagged, `j - i` keys after `idx`. */
  lemma {:induction false} TaggedFromStores(st: Entries, items: seq<Value>, i: nat, idx: int, category: Value, j: nat)
    requires i <= j < |items|
    ensures TaggedFrom(st, items, i, idx, 1, category).1.Done? ==>
      items[j].Dict? && Lookup(TaggedFrom(st, items, i, idx, 1, category).0, IKey(idx + j - i)) == Some(Tagged(items[j], category))
    decreases |items| - i
  {
    if items[i].Dict? {
      var st1 := Put(st, IKey(idx), Tagged(items[i], category));
      if j == i {
        TaggedFromKeeps(st1, items, i + 1, idx + 1, category, IKey(idx));
        PutSpec(st, IKey(idx), Tagged(items[i], category), IKey(idx));
      } else {
        TaggedFromStores(st1, items, i + 1, idx + 1, category, j);
      }
    }
  }

  /** `generateStates` (and `generateEvents` with its index advanced) places state `j`
      at key `|st| + j`, tagged with the category, and leaves every other key alone. */
  lemma StatesPlaced(st: Entries, items: seq<Value>, category: Value, j: nat, k: Key)
    ensures TaggedStep(st, List(items), 1, category).1.Ok? ==>
      var r := TaggedStep(st, List(items), 1, category).1.value;
      (j < |items| ==> items[j].Dict? && Lookup(r, IKey(|st| + j)) == Some(Tagged(items[j], category)))
      && (!(k.IKey? && |st| <= k.n < |st| + |items|) ==> Lookup(r, k) == Lookup(st, k))
  {
    if j < |items| {
      TaggedFromStores(st, items, 0, |st|, category, j);
    }
    if !(k.IKey? && |st| <= k.n < |st| + |items|) {
      TaggedFromKeeps(st, items, 0, |st|, category, k);
    }
  }

  /** With step 0, every key but `idx` keeps its value. */
  lemma {:induction false} TaggedFromInPlaceKeeps(st: Entries, items: seq<Value>, i: nat, idx: int, category: Value, k: Key)
    requires i <= |items| && k != IKey(idx)
    ensures TaggedFrom(st, items, i, idx, 0, category).1.Done? ==>
      Lookup(TaggedFrom(st, items, i, idx, 0, category).0, k) == Lookup(st, k)
    decreases |items| - i
  {
    if i < |items| && items[i].Dict? {
      var st1 := Put(st, IKey(idx), Tagged(items[i], category));
      TaggedFromInPlaceKeeps(st1, items, i + 1, idx, category, k);
      PutSpec(st, IKey(idx), Tagged(items[i], category), k);
    }
  }

  /** With step 0, the last item is the one left at `idx`. */
  lemma {:induction false} TaggedFromInPlaceLast(st: Entries, items: seq<Value>, i: nat, idx: int, category: Value)
    requires i < |items|
    ensures TaggedFrom(st, items, i, idx, 0, category).1.Done? ==>
      items[|items| - 1].Dict?
      && Lookup(TaggedFrom(st, items, i, idx, 0, category).0, IKey(idx)) == Some(Tagged(items[|items| - 1], category))
    decreases |items| - i
  {
    if items[i].Dict? {
      var st1 := Put(st, IKey(idx), Tagged(items[i], category));
      if i + 1 == |items| {
        PutSpec(st, IKey(idx), Tagged(items[i], category), IKey(idx));
      } else {
        TaggedFromInPlaceLast(st1, items, i + 1, idx, category);
      }
    }
  }

  /** `generateEvents` as written writes every event of a call at the same key, so
      only the last event of the call is kept there, and no other key changes. */
  lemma EventsAsWrittenLastWins(st: Entries, items: seq<Value>, category: Value, k: Key)
    requires items != []
    ensures EventsAsWritten(st, List(items), category).1.Ok? ==>
      var r := EventsAsWritten(st, List(items), category).1.value;
      items[|items| - 1].Dict? && Lookup(r, IKey(|st|)) == Some(Tagged(items[|items| - 1], category))
      && (k != IKey(|st|) ==> Lookup(r, k) == Lookup(st, k))
  {
    TaggedFromInPlaceLast(st, items, 0, |st|, category);
    if k != IKey(|st|) {
      TaggedFromInPlaceKeeps(st, items, 0, |st|, category, k);
    }
  }

  /** Two events declared in one category: as written only the second is kept; with
      the index advanced, both are. */
  lemma EventsAsWrittenDropsFirst(e1: Value, e2: Value, category: Value)
    requires e1.Dict? && e2.Dict?
    ensures EventsAsWritten([], List([e1, e2]), category).1 == Ok([(IKey(0), Tagged(e2, category))])
    ensures TaggedStep([], List([e1, e2]), 1, category).1
      == Ok([(IKey(0), Tagged(e1, category)), (IKey(1), Tagged(e2, category))])
  {
    var t1 := Tagged(e1, category);
    var t2 := Tagged(e2, category);
    var items := [e1, e2];
    assert Put([], IKey(0), t1) == [(IKey(0), t1)];
    assert Put([(IKey(0), t1)], IKey(0), t2) == [(IKey(0), t2)];
    assert TaggedFrom([], items, 0, 0, 0, category) == TaggedFrom([(IKey(0), t1)], items, 1, 0, 0, category);
    assert TaggedFrom([(IKey(0), t1)], items, 1, 0, 0, category) == TaggedFrom([(IKey(0), t2)], items, 2, 0, 0, category);
    assert Put([(IKey(0), t1)], IKey(1), t2) == [(IKey(0), t1), (IKey(1), t2)];
    assert TaggedFrom([], items, 0, 0, 1, category) == TaggedFrom([(IKey(0), t1)], items, 1, 1, 1, category);
    assert TaggedFrom([(IKey(0), t1)], items, 1, 1, 1, category)
      == TaggedFrom([(IKey(0), t1), (IKey(1), t2)], items, 2, 2, 1, category);
  }

  // ---------------------------------------------------------------------------
  // generateActions and generateConnectors

  /** One converted action: the category is set, the format (when truthy) is
      converted against the original data list, the data (when truthy) is keyed by
      index, and every other attribute is kept. */
  lemma ConvertedActionSpec(e: Entries, category: Value, k: Key)
    ensures Truthy(Get(e, "format")) && Lookup(e, SKey("data")).None? ==> ConvertedAction(e, category) == Err(KeyError)
    ensures ConvertedAction(e, category).Ok? ==>
      var a := ConvertedAction(e, category).value;
      Lookup(a, SKey("category")) == Some(category)
      && (Truthy(Get(e, "format")) ==> Lookup(a, SKey("format")) == Some(ConvertedFormat(Get(e, "format"), Get(e, "data")).value))
      && (Truthy(Get(e, "data")) ==> Lookup(a, SKey("data")) == Some(Dict(ConvertedData(Get(e, "data")))))
      && (k != SKey("category") && k != SKey("format") && k != SKey("data") ==> Lookup(a, k) == Lookup(e, k))
  {
    var f := FormatStep(e);
    if f.Ok? {
      var e1 := f.value;
      var e2 := DataStep(e1);
      PutSpec(e2, SKey("category"), category, k);
      PutSpec(e2, SKey("category"), category, SKey("format"));
      PutSpec(e2, SKey("category"), category, SKey("data"));
      if Truthy(Get(e, "data")) || Truthy(Get(e1, "data")) {
        PutSpec(e1, SKey("data"), Dict(ConvertedData(Get(e1, "data"))), k);
        PutSpec(e1, SKey("data"), Dict(ConvertedData(Get(e1, "data"))), SKey("format"));
        PutSpec(e1, SKey("data"), Dict(ConvertedData(Get(e1, "data"))), SKey("data"));
      }
      if Truthy(Get(e, "format")) {
        LookupSpec(e, SKey("data"));
        PutSpec(e, SKey("format"), ConvertedFormat(Get(e, "format"), Get(e, "data")).value, k);
        PutSpec(e, SKey("format"), ConvertedFormat(Get(e, "format"), Get(e, "data")).value, SKey("format"));
        PutSpec(e, SKey("format"), ConvertedFormat(Get(e, "format"), Get(e, "data")).value, SKey("data"));
      }
    }
  }

  /** A key outside `idx + 1 .. idx + |items| - i` keeps its value. */
  lemma {:induction false} ActionsFromKeeps(st: Entries, items: seq<Value>, i: nat, idx: int, category: Value, k: Key)
    requires i <= |items|
    requires !(k.IKey? && idx < k.n <= idx + |items| - i)
    ensures ActionsFrom(st, items, i, idx, category).1.Done? ==>
      Lookup(ActionsFrom(st, items, i, idx, category).0, k) == Lookup(st, k)
    decreases |items| - i
  {
    if i < |items| && items[i].Dict? && ConvertedAction(items[i].entries, category).Ok? {
      var a := Dict(ConvertedAction(items[i].entries, category).value);
      var st1 := Put(st, IKey(idx + 1), a);
      ActionsFromKeeps(st1, items, i + 1, idx + 1, category, k);
      PutSpec(st, IKey(idx + 1), a, k);
    }
  }

  /** What `ActionsFromStores` states: action `j` is found, converted, `j - i + 1` keys
      after `idx`. */
  ghost predicate StoresAction(st: Entries, items: seq<Value>, i: nat, idx: int, category: Value, j: nat)
    requires i <= j < |items|
  {
    ActionsFrom(st, items, i, idx, category).1.Done? ==>
      items[j].Dict? && ConvertedAction(items[j].entries, category).Ok?
      && Lookup(ActionsFrom(st, items, i, idx, category).0, IKey(idx + 1 + j - i))
         == Some(Dict(ConvertedAction(items[j].entries, category).value))
  }

  /** One step of `ActionsFromStores`, given what it says about the actions after `i`. */
  lemma ActionsFromStoresStep(st: Entries, items: seq<Value>, i: nat, idx: int, category: Value, j: nat)
    requires i <= j < |items|
    requires items[i].Dict? && ConvertedAction(items[i].entries, category).Ok? && i < j ==>
      var st1 := Put(st, IKey(idx + 1), Dict(ConvertedAction(items[i].entries, category).value));
      ActionsFrom(st1, items, i + 1, idx + 1, category).1.Done? ==>
        items[j].Dict? && ConvertedAction(items[j].entries, category).Ok?
        && Lookup(ActionsFrom(st1, items, i + 1, idx + 1, category).0, IKey(idx + 1 + 1 + j - (i + 1)))
           == Some(Dict(ConvertedAction(items[j].entries, category).value))
    ensures StoresAction(st, items, i, idx, category, j)
  {
    if items[i].Dict? && ConvertedAction(items[i].entries, category).Ok? {
      var a := Dict(ConvertedAction(items[i].entries, category).value);
      var st1 := Put(st, IKey(idx + 1), a);
      assert ActionsFrom(st, items, i, idx, category) == ActionsFrom(st1, items, i + 1, idx + 1, category);
      if j == i {
        ActionsFromKeeps(st1, items, i + 1, idx + 1, category, IKey(idx + 1));
        PutSpec(st, IKey(idx + 1), a, IKey(idx + 1));
      }
    }
  }

  /** Action `j` is found, converted, `j - i + 1` keys after `idx`. */
  lemma {:induction false} ActionsFromStores(st: Entries, items: seq<Value>, i: nat, idx: int, category: Value, j: nat)
    requires i <= j < |items|
    ensures ActionsFrom(st, items, i, idx, category).1.Done? ==>
      items[j].Dict? && ConvertedAction(items[j].entries, category).Ok?
      && Lookup(ActionsFrom(st, items, i, idx, category).0, IKey(idx + 1 + j - i))
         == Some(Dict(ConvertedAction(items[j].entries, category).value))
    decreases |items| - i
  {
    if items[i].Dict? && ConvertedAction(items[i].entries, category).Ok? && i < j {
      var st1 := Put(st, IKey(idx + 1), Dict(ConvertedAction(items[i].entries, category).value));
      ActionsFromStores(st1, items, i + 1, idx + 1, category, j);
    }
    ActionsFromStoresStep(st, items, i, idx, category, j);
    assert StoresAction(st, items, i, idx, category, j);
  }

  /** `generateActions` stores action `j`, converted, at key `|st| + 1 + j`, and leaves
      every other key alone. */
  lemma ActionsPlaced(st: Entries, items: seq<Value>, category: Value, j: nat, k: Key)
    ensures ActionsStep(st, List(items), category).1.Ok? ==>
      var r := ActionsStep(st, List(items), category).1.value;
      (j < |items| ==>
         items[j].Dict? && ConvertedAction(items[j].entries, category).Ok?
         && Lookup(r, IKey(|st| + 1 + j)) == Some(Dict(ConvertedAction(items[j].entries, category).value)))
      && (!(k.IKey? && |st| < k.n <= |st| + |items|) ==> Lookup(r, k) == Lookup(st, k))
  {
    if j < |items| {
      ActionsFromStores(st, items, 0, |st|, category, j);
    }
    if !(k.IKey? && |st| < k.n <= |st| + |items|) {
      ActionsFromKeeps(st, items, 0, |st|, category, k);
    }
  }

  /** A connector converted without error: the category is set and the data keyed by
      index. */
  predicate ConnectorOk(c: Value, category: Value) {
    c.Dict? && ConvertedConnector(c.entries, category).1.Ok?
  }

  /** With step 1, a key outside the ones written from `idx` keeps its value. */
  lemma {:induction false} ConnectorsFromKeeps(st: Entries, items: seq<Value>, i: nat, idx: int, category: Value, k: Key)
    requires i <= |items|
    requires !(k.IKey? && idx <= k.n < idx + |items| - i)
    ensures ConnectorsFrom(st, items, i, idx, 1, category).1.Done? ==>
      Lookup(ConnectorsFrom(st, items, i, idx, 1, category).0, k) == Lookup(st, k)
    decreases |items| - i
  {
    if i < |items| && ConnectorOk(items[i], category) {
      var c := Dict(ConvertedConnector(items[i].entries, category).1.value);
      var st1 := Put(st, IKey(idx), c);
      ConnectorsFromKeeps(st1, items, i + 1, idx + 1, category, k);
      PutSpec(st, IKey(idx), c, k);
    }
  }

  /** With step 1, connector `j` is found, converted, `j - i` keys after `idx`. */
  lemma {:induction false} ConnectorsFromStores(st: Entries, items: seq<Value>, i: nat, idx: int, category: Value, j: nat)
    requires i <= j < |items|
    ensures ConnectorsFrom(st, items, i, idx, 1, category).1.Done? ==>
      ConnectorOk(items[j], category)
      && Lookup(ConnectorsFrom(st, items, i, idx, 1, category).0, IKey(idx + j - i))
         == Some(Dict(ConvertedConnector(items[j].entries, category).1.value))
    decreases |items| - i
  {
    if ConnectorOk(items[i], category) {
      var c := Dict(ConvertedConnector(items[i].entries, category).1.value);
      var st1 := Put(st, IKey(idx), c);
      if j == i {
        ConnectorsFromKeeps(st1, items, i + 1, idx + 1, category, IKey(idx));
        PutSpec(st, IKey(idx), c, IKey(idx));
      } else {
        ConnectorsFromStores(st1, items, i + 1, idx + 1, category, j);
      }
    }
  }

  /** The corrected `generateConnectors` stores connector `j`, converted, at key
      `|st| + j`, and leaves every other key alone. */
  lemma ConnectorsPlaced(st: Entries, items: seq<Value>, category: Value, j: nat, k: Key)
    ensures ConnectorsStep(st, List(items), 1, category).1.Ok? ==>
      var r := ConnectorsStep(st, List(items), 1, category).1.value;
      (j < |items| ==>
         ConnectorOk(items[j], category)
         && Lookup(r, IKey(|st| + j)) == Some(Dict(ConvertedConnector(items[j].entries, category).1.value)))
      && (!(k.IKey? && |st| <= k.n < |st| + |items|) ==> Lookup(r, k) == Lookup(st, k))
  {
    if j < |items| {
      ConnectorsFromStores(st, items, 0, |st|, category, j);
    }
    if !(k.IKey? && |st| <= k.n < |st| + |items|) {
      ConnectorsFromKeeps(st, items, 0, |st|, category, k);
    }
  }

  /** With step 0, every key but `idx` keeps its value. */
  lemma {:induction false} ConnectorsFromInPlaceKeeps(st: Entries, items: seq<Value>, i: nat, idx: int, category: Value, k: Key)
    requires i <= |items| && k != IKey(idx)
    ensures ConnectorsFrom(st, items, i, idx, 0, category).1.Done? ==>
      Lookup(ConnectorsFrom(st, items, i, idx, 0, category).0, k) == Lookup(st, k)
    decreases |items| - i
  {
    if i < |items| && ConnectorOk(items[i], category) {
      var c := Dict(ConvertedConnector(items[i].entries, category).1.value);
      var st1 := Put(st, IKey(idx), c);
      ConnectorsFromInPlaceKeeps(st1, items, i + 1, idx, category, k);
      PutSpec(st, IKey(idx), c, k);
    }
  }

  /** With step 0, the last connector is the one left at `idx`. */
  lemma {:induction false} ConnectorsFromInPlaceLast(st: Entries, items: seq<Value>, i: nat, idx: int, category: Value)
    requires i < |items|
    ensures ConnectorsFrom(st, items, i, idx, 0, category).1.Done? ==>
      ConnectorOk(items[|items| - 1], category)
      && Lookup(ConnectorsFrom(st, items, i, idx, 0, category).0, IKey(idx))
         == Some(Dict(ConvertedConnector(items[|items| - 1].entries, category).1.value))
    decreases |items| - i
  {
    if ConnectorOk(items[i], category) {
      var c := Dict(ConvertedConnector(items[i].entries, category).1.value);
      var st1 := Put(st, IKey(idx), c);
      if i + 1 == |items| {
        PutSpec(st, IKey(idx), c, IKey(idx));
      } else {
        ConnectorsFromInPlaceLast(st1, items, i + 1, idx, category);
      }
    }
  }

  /** `generateConnectors` as written keeps only the last connector of a call. */
  lemma ConnectorsAsWrittenLastWins(st: Entries, items: seq<Value>, category: Value, k: Key)
    requires items != []
    ensures ConnectorsAsWritten(st, List(items), category).1.Ok? ==>
      var r := ConnectorsAsWritten(st, List(items), category).1.value;
      ConnectorOk(items[|items| - 1], category)
      && Lookup(r, IKey(|st|)) == Some(Dict(ConvertedConnector(items[|items| - 1].entries, category).1.value))
      && (k != IKey(|st|) ==> Lookup(r, k) == Lookup(st, k))
  {
    ConnectorsFromInPlaceLast(st, items, 0, |st|, category);
    if k != IKey(|st|) {
      ConnectorsFromInPlaceKeeps(st, items, 0, |st|, category, k);
    }
  }

  // ---------------------------------------------------------------------------
  // generateCalegories

  /** The keys of the categories in `cats` that have one. */
  function CategoryKeys(cats: seq<Value>): (r: set<Key>)
    ensures forall k :: k in r ==> k.SKey?
  {
    if cats == [] then {}
    else (match CategoryKey(cats[0]) case Ok(n) => {SKey(n)} case Err(_) => {}) + CategoryKeys(cats[1..])
  }

  lemma CategoryKeysFrom(cats: seq<Value>, i: nat)
    requires i < |cats| && CategoryKey(cats[i]).Ok?
    ensures CategoryKeys(cats[i..]) == {SKey(CategoryKey(cats[i]).value)} + CategoryKeys(cats[i + 1..])
  {
    assert cats[i..][0] == cats[i] && cats[i..][1..] == cats[i + 1..];
  }

  /** What `CategoriesFromKeys` states about key `k`. */
  ghost predicate CategoriesKeep(s: Structs, cats: seq<Value>, i: nat, gen: Entries, k: Key)
    requires i <= |cats|
  {
    CategoriesFrom(s, cats, i, gen).1.Ok? ==>
      (k in KeysOf(CategoriesFrom(s, cats, i, gen).1.value) <==> k in KeysOf(gen) || k in CategoryKeys(cats[i..]))
  }

  /** One step of `CategoriesFromKeys`, given what it says about the categories after `i`. */
  lemma CategoriesFromKeysStep(s: Structs, cats: seq<Value>, i: nat, gen: Entries, k: Key)
    requires i < |cats|
    requires CategoryKey(cats[i]).Ok? ==>
      var name := CategoryKey(cats[i]).value;
      var step := TodoFrom(s, cats[i].entries, 0, Str(name));
      step.1.Done? ==> CategoriesKeep(step.0, cats, i + 1, Put(gen, SKey(name), Dict(CategoryInfo(cats[i].entries))), k)
    ensures CategoriesKeep(s, cats, i, gen, k)
  {
    if CategoryKey(cats[i]).Ok? {
      var name := CategoryKey(cats[i]).value;
      var gen1 := Put(gen, SKey(name), Dict(CategoryInfo(cats[i].entries)));
      var step := TodoFrom(s, cats[i].entries, 0, Str(name));
      if step.1.Done? {
        assert CategoriesFrom(s, cats, i, gen) == CategoriesFrom(step.0, cats, i + 1, gen1);
        PutKeys(gen, SKey(name), Dict(CategoryInfo(cats[i].entries)));
        CategoryKeysFrom(cats, i);
      } else {
        assert CategoriesFrom(s, cats, i, gen).1.Err?;
      }
    } else {
      assert CategoriesFrom(s, cats, i, gen).1.Err?;
    }
  }

  /** The category loop only adds keys: the ones already there, and those of the
      categories it goes through. */
  lemma {:induction false} CategoriesFromKeys(s: Structs, cats: seq<Value>, i: nat, gen: Entries, k: Key)
    requires i <= |cats|
    ensures CategoriesFrom(s, cats, i, gen).1.Ok? ==>
      (k in KeysOf(CategoriesFrom(s, cats, i, gen).1.value) <==> k in KeysOf(gen) || k in CategoryKeys(cats[i..]))
    decreases |cats| - i
  {
    if i == |cats| {
      assert cats[i..] == [];
    } else {
      if CategoryKey(cats[i]).Ok? {
        var name := CategoryKey(cats[i]).value;
        var gen1 := Put(gen, SKey(name), Dict(CategoryInfo(cats[i].entries)));
        var step := TodoFrom(s, cats[i].entries, 0, Str(name));
        if step.1.Done? {
          CategoriesFromKeys(step.0, cats, i + 1, gen1, k);
          assert CategoriesKeep(step.0, cats, i + 1, gen1, k);
        }
      }
      CategoriesFromKeysStep(s, cats, i, gen, k);
      assert CategoriesKeep(s, cats, i, gen, k);
    }
  }

  /** A category loop that succeeds went through categories that all had a key. */
  lemma {:induction false} CategoriesFromAllKeyed(s: Structs, cats: seq<Value>, i: nat, gen: Entries, j: nat)
    requires i <= j < |cats|
    ensures CategoriesFrom(s, cats, i, gen).1.Ok? ==> CategoryKey(cats[j]).Ok?
    decreases |cats| - i
  {
    if CategoryKey(cats[i]).Ok? && j > i {
      var name := CategoryKey(cats[i]).value;
      var gen1 := Put(gen, SKey(name), Dict(CategoryInfo(cats[i].entries)));
      var (s1, o1) := TodoFrom(s, cats[i].entries, 0, Str(name));
      if o1.Done? {
        assert CategoriesFrom(s, cats, i, gen) == CategoriesFrom(s1, cats, i + 1, gen1);
        CategoriesFromAllKeyed(s1, cats, i + 1, gen1, j);
      }
    }
  }

  /** `generateCalegories` keys every category by the last dotted segment of its id,
      and has no other keys. */
  lemma CategoriesKeyedByLastSegment(s: Structs, entry: Value, j: nat, k: Key)
    requires entry.Dict?
    ensures GeneratedCategories(s, entry).1.Ok? ==>
      var cats := Iterate(GetOr(entry.entries, "categories", List([]))).value;
      var r := GeneratedCategories(s, entry).1.value;
      (j < |cats| ==> CategoryKey(cats[j]).Ok? && SKey(LastSegment(GetOr(cats[j].entries, "id", Str("")).s)) in KeysOf(r))
      && (k in KeysOf(r) <==> k in CategoryKeys(cats))
  {
    var it := Iterate(GetOr(entry.entries, "categories", List([])));
    if it.Ok? && GeneratedCategories(s, entry).1.Ok? {
      var cats := it.value;
      assert cats[0..] == cats;
      CategoriesFromKeys(s, cats, 0, [], k);
      if j < |cats| {
        CategoriesFromAllKeyed(s, cats, 0, [], j);
        CategoryKeysHas(cats, j);
        CategoriesFromKeys(s, cats, 0, [], SKey(CategoryKey(cats[j]).value));
      }
    }
  }

  /** A key of the categories after `cats[i]` is a key of those from `cats[i]` on. */
  lemma CategoryKeysGrow(cats: seq<Value>, i: nat, x: Key)
    requires i < |cats| && x in CategoryKeys(cats[i + 1..])
    ensures x in CategoryKeys(cats[i..])
  {
    assert cats[i..][0] == cats[i] && cats[i..][1..] == cats[i + 1..];
  }

  /** A key of the categories from `cats[j]` on is a key of them all. */
  lemma CategoryKeysSuffix(cats: seq<Value>, j: nat, x: Key)
    requires j <= |cats| && x in CategoryKeys(cats[j..])
    ensures x in CategoryKeys(cats)
  {
    var i := j;
    while i > 0
      invariant 0 <= i <= j && x in CategoryKeys(cats[i..])
    {
      CategoryKeysGrow(cats, i - 1, x);
      i := i - 1;
    }
    assert cats[0..] == cats;
  }

  lemma CategoryKeysHas(cats: seq<Value>, j: nat)
    requires j < |cats| && CategoryKey(cats[j]).Ok?
    ensures SKey(CategoryKey(cats[j]).value) in CategoryKeys(cats)
  {
    CategoryKeysFrom(cats, j);
    CategoryKeysSuffix(cats, j, SKey(CategoryKey(cats[j]).value));
  }
}
