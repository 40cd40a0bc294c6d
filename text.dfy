/** Python string operations used by the client, the definition generator and the
    reverse converter: `str(n)` and `int(s)` for decimal numbers, `s.split(".")[-1]`,
    the substring test `p in s` and `s.replace(old, new)`.  Characters are compared
    as code points; `isdigit` and `\w` are taken over ASCII. */
module Text {

  predicate IsDigit(c: char) {
    '0' <= c <= '9'
  }

  /** `s.isdigit()`: non-empty and made of digits only. */
  predicate IsDigits(s: string) {
    |s| > 0 && forall k :: 0 <= k < |s| ==> IsDigit(s[k])
  }

  function DigitChar(d: nat): (c: char)
    requires d < 10
    ensures IsDigit(c)
  {
    ('0' as int + d) as char
  }

  function DigitValue(c: char): (d: nat)
    requires IsDigit(c)
    ensures d < 10 && DigitChar(d) == c
  {
    (c as int - '0' as int) as nat
  }

  /** `str(n)` for a non-negative integer. */
  function NatToString(n: nat): (s: string)
    ensures IsDigits(s)
    ensures |s| > 1 ==> s[0] != '0'
  {
    if n < 10 then [DigitChar(n)]
    else NatToString(n / 10) + [DigitChar(n % 10)]
  }

  /** `int(s)` for a string of digits. */
  function ParseNat(s: string): nat
    requires forall k :: 0 <= k < |s| ==> IsDigit(s[k])
  {
    if s == [] then 0 else 10 * ParseNat(s[..|s| - 1]) + DigitValue(s[|s| - 1])
  }

  /** `int(str(n)) == n`. */
  lemma {:induction false} ParseNatToString(n: nat)
    ensures ParseNat(NatToString(n)) == n
  {
    var s := NatToString(n);
    if n >= 10 {
      ParseNatToString(n / 10);
      assert s[..|s| - 1] == NatToString(n / 10);
    }
  }

  /** Different numbers print differently. */
  lemma NatToStringInjective(m: nat, n: nat)
    requires NatToString(m) == NatToString(n)
    ensures m == n
  {
    ParseNatToString(m);
    ParseNatToString(n);
  }

  /** `str(i)` for any integer. */
  function IntToString(i: int): (s: string)
    ensures |s| > 0
    ensures i >= 0 ==> IsDigits(s)
    ensures i < 0 ==> s[0] == '-' && IsDigits(s[1..])
  {
    if i >= 0 then NatToString(i) else "-" + NatToString(-i)
  }

  /** `s.split(".")[-1]` (equivalently `s.rsplit(".", 1)[-1]`): the text after the last dot. */
  function LastSegment(s: string): (r: string)
    ensures '.' !in r
    ensures |r| <= |s| && s[|s| - |r|..] == r
    ensures |r| < |s| ==> s[|s| - |r| - 1] == '.'
  {
    if s == [] then []
    else if s[|s| - 1] == '.' then []
    else
      var r := LastSegment(s[..|s| - 1]);
      assert s[..|s| - 1][|s| - 1 - |r|..] == s[|s| - 1 - |r|..|s| - 1];
      r + [s[|s| - 1]]
  }

  /** The last segment of a dotted name is the part after its last dot. */
  lemma {:induction false} LastSegmentOfDotted(prefix: string, name: string)
    requires '.' !in name
    ensures LastSegment(prefix + "." + name) == name
    decreases |name|
  {
    var s := prefix + "." + name;
    if name != [] {
      var init := name[..|name| - 1];
      assert s[..|s| - 1] == prefix + "." + init;
      LastSegmentOfDotted(prefix, init);
      assert name == init + [name[|name| - 1]];
    }
  }

  /** A name without dots is its own last segment. */
  lemma {:induction false} LastSegmentUndotted(name: string)
    requires '.' !in name
    ensures LastSegment(name) == name
    decreases |name|
  {
    if name != [] {
      var init := name[..|name| - 1];
      LastSegmentUndotted(init);
      assert name == init + [name[|name| - 1]];
    }
  }

  /** `p in s` for strings. */
  predicate Occurs(p: string, s: string) {
    exists i | 0 <= i <= |s| - |p| :: OccursAt(p, s, i)
  }

  predicate OccursAt(p: string, s: string, i: int) {
    0 <= i <= |s| - |p| && s[i..i + |p|] == p
  }

  /** `s.replace(pat, rep)`: every non-overlapping occurrence of `pat`, scanning from
      the left, becomes `rep`; an empty `pat` inserts `rep` around every character. */
  function ReplaceAll(s: string, pat: string, rep: string): (r: string)
    decreases |s|
  {
    if pat == [] then
      if s == [] then rep else rep + [s[0]] + ReplaceAll(s[1..], pat, rep)
    else if |s| < |pat| then s
    else if s[..|pat|] == pat then rep + ReplaceAll(s[|pat|..], pat, rep)
    else [s[0]] + ReplaceAll(s[1..], pat, rep)
  }

  /** Replacing a string that does not occur changes nothing. */
  lemma {:induction false} ReplaceAbsent(s: string, pat: string, rep: string)
    requires !Occurs(pat, s)
    ensures ReplaceAll(s, pat, rep) == s
    decreases |s|
  {
    if pat == [] {
      assert OccursAt(pat, s, 0);
    } else if |s| >= |pat| {
      assert !OccursAt(pat, s, 0);
      forall i | 0 <= i <= |s| - 1 - |pat|
        ensures !OccursAt(pat, s[1..], i)
      {
        assert !OccursAt(pat, s, i + 1);
        assert s[1..][i..i + |pat|] == s[i + 1..i + 1 + |pat|];
      }
      ReplaceAbsent(s[1..], pat, rep);
      assert s == [s[0]] + s[1..];
    }
  }

  /** Replacing a string by itself changes nothing. */
  lemma {:induction false} ReplaceBySelf(s: string, pat: string)
    ensures ReplaceAll(s, pat, pat) == s
    decreases |s|
  {
    if pat == [] {
      if s != [] {
        ReplaceBySelf(s[1..], pat);
      }
    } else if |s| >= |pat| {
      if s[..|pat|] == pat {
        ReplaceBySelf(s[|pat|..], pat);
      } else {
        ReplaceBySelf(s[1..], pat);
      }
    }
  }

  /** A string that occurs exactly once is replaced there and nowhere else. */
  lemma {:induction false} ReplaceOnce(pre: string, pat: string, post: string, rep: string)
    requires pat != []
    requires forall i :: 0 <= i < |pre| ==> !OccursAt(pat, pre + pat + post, i)
    requires !Occurs(pat, post)
    ensures ReplaceAll(pre + pat + post, pat, rep) == pre + rep + post
    decreases |pre|
  {
    var s := pre + pat + post;
    if pre == [] {
      assert s == pat + post;
      ReplaceLeading(pat, rep, post);
      ReplaceAbsent(post, pat, rep);
    } else {
      assert !OccursAt(pat, s, 0);
      assert s[1..] == pre[1..] + pat + post;
      forall i | 0 <= i < |pre[1..]|
        ensures !OccursAt(pat, pre[1..] + pat + post, i)
      {
        assert !OccursAt(pat, s, i + 1);
        assert s[1..][i..i + |pat|] == s[i + 1..i + 1 + |pat|];
      }
      ReplaceOnce(pre[1..], pat, post, rep);
      assert pre + rep + post == [s[0]] + (pre[1..] + rep + post);
    }
  }

  /** No occurrence of `pat` crosses from `a` into `b`. */
  predicate NoneCrosses(a: string, b: string, pat: string) {
    forall k :: 0 <= k < |a| < k + |pat| ==> !OccursAt(pat, a + b, k)
  }

  /** Dropping a prefix of `a` keeps occurrences from crossing into `b`. */
  lemma NoneCrossesDrop(a: string, b: string, pat: string, d: nat)
    requires d <= |a| && NoneCrosses(a, b, pat)
    ensures NoneCrosses(a[d..], b, pat)
  {
    var s := a + b;
    var a1 := a[d..];
    forall k | 0 <= k < |a1| < k + |pat|
      ensures !OccursAt(pat, a1 + b, k)
    {
      assert !OccursAt(pat, s, k + d);
      if k + |pat| <= |a1 + b| {
        assert (a1 + b)[k..k + |pat|] == s[k + d..k + d + |pat|];
      }
    }
  }

  /** One step of `ReplaceConcat` when `a` starts with `pat`. */
  lemma ReplaceConcatMatch(a: string, b: string, pat: string, rep: string)
    requires pat != [] && |pat| <= |a| && a[..|pat|] == pat
    requires ReplaceAll(a[|pat|..] + b, pat, rep) == ReplaceAll(a[|pat|..], pat, rep) + ReplaceAll(b, pat, rep)
    ensures ReplaceAll(a + b, pat, rep) == ReplaceAll(a, pat, rep) + ReplaceAll(b, pat, rep)
  {
    var s := a + b;
    assert s[..|pat|] == pat;
    assert s[|pat|..] == a[|pat|..] + b;
  }

  /** Text that does not start with `pat` keeps its first character. */
  lemma ReplaceSkipsFirst(s: string, pat: string, rep: string)
    requires pat != [] && s != [] && !OccursAt(pat, s, 0)
    ensures ReplaceAll(s, pat, rep) == [s[0]] + ReplaceAll(s[1..], pat, rep)
  {
    if |s| < |pat| {
      assert ReplaceAll(s[1..], pat, rep) == s[1..];
      assert s == [s[0]] + s[1..];
    }
  }

  /** One step of `ReplaceConcat` when neither `a + b` nor `a` starts with `pat`: both
      keep `a[0]` in front. */
  lemma ReplaceConcatSkip(a: string, b: string, pat: string, rep: string)
    requires a != []
    requires ReplaceAll(a + b, pat, rep) == [a[0]] + ReplaceAll(a[1..] + b, pat, rep)
    requires ReplaceAll(a, pat, rep) == [a[0]] + ReplaceAll(a[1..], pat, rep)
    requires ReplaceAll(a[1..] + b, pat, rep) == ReplaceAll(a[1..], pat, rep) + ReplaceAll(b, pat, rep)
    ensures ReplaceAll(a + b, pat, rep) == ReplaceAll(a, pat, rep) + ReplaceAll(b, pat, rep)
  {
    var r1 := ReplaceAll(a[1..], pat, rep);
    var rb := ReplaceAll(b, pat, rep);
    assert [a[0]] + (r1 + rb) == ([a[0]] + r1) + rb;
  }

  /** `replace` works piece by piece on `a + b` when no occurrence of `pat` starts in
      `a` and ends in `b`. */
  lemma {:induction false} ReplaceConcat(a: string, b: string, pat: string, rep: string)
    requires pat != [] && NoneCrosses(a, b, pat)
    ensures ReplaceAll(a + b, pat, rep) == ReplaceAll(a, pat, rep) + ReplaceAll(b, pat, rep)
    decreases |a|
  {
    if a == [] {
      assert a + b == b;
    } else if OccursAt(pat, a + b, 0) {
      assert |pat| <= |a| && (a + b)[..|pat|] == a[..|pat|];
      NoneCrossesDrop(a, b, pat, |pat|);
      ReplaceConcat(a[|pat|..], b, pat, rep);
      ReplaceConcatMatch(a, b, pat, rep);
    } else {
      assert !OccursAt(pat, a, 0) by {
        if |pat| <= |a| {
          assert (a + b)[..|pat|] == a[..|pat|];
        }
      }
      assert (a + b)[1..] == a[1..] + b;
      ReplaceSkipsFirst(a + b, pat, rep);
      ReplaceSkipsFirst(a, pat, rep);
      NoneCrossesDrop(a, b, pat, 1);
      ReplaceConcat(a[1..], b, pat, rep);
      ReplaceConcatSkip(a, b, pat, rep);
    }
  }

  /** `replace` on three pieces, when no occurrence crosses from one into the next. */
  lemma ReplaceThree(w: string, h: string, rest: string, pat: string, rep: string)
    requires pat != [] && NoneCrosses(w, h + rest, pat) && NoneCrosses(h, rest, pat)
    ensures ReplaceAll(w + h + rest, pat, rep)
      == ReplaceAll(w, pat, rep) + ReplaceAll(h, pat, rep) + ReplaceAll(rest, pat, rep)
  {
    assert w + h + rest == w + (h + rest);
    ReplaceConcat(w, h + rest, pat, rep);
    ReplaceConcat(h, rest, pat, rep);
  }

  /** What occurs in `b` occurs in `a + b + c`. */
  lemma OccursWithin(p: string, a: string, b: string, c: string)
    requires Occurs(p, b)
    ensures Occurs(p, a + b + c)
  {
    var k :| 0 <= k <= |b| - |p| && OccursAt(p, b, k);
    var s := a + b + c;
    assert s[|a| + k..|a| + k + |p|] == b[k..k + |p|];
    assert OccursAt(p, s, |a| + k);
  }

  /** Text without `{` holds no `{$`. */
  lemma NoOpenBrace(w: string)
    requires '{' !in w
    ensures !Occurs("{$", w)
  {
    forall k | 0 <= k <= |w| - 2
      ensures !OccursAt("{$", w, k)
    {
      assert w[k..k + 2][0] == w[k];
    }
  }

  /** Text that starts with the replaced string has its replacement in front. */
  lemma ReplaceLeading(pat: string, rep: string, s: string)
    requires pat != []
    ensures ReplaceAll(pat + s, pat, rep) == rep + ReplaceAll(s, pat, rep)
  {
    assert (pat + s)[..|pat|] == pat;
    assert (pat + s)[|pat|..] == s;
  }
}
