/** Newline framing of the byte stream received from Touch Portal.  Every message
    is one line terminated by a single `\n` byte.  `Frames(buf)` are the complete
    lines in `buf` and `Rest(buf)` is the unterminated tail left buffered. */
module Framing {

  newtype byte = b: int | 0 <= b < 256

  /** The frame delimiter `\n`. */
  const LF: byte := 10

  /** `bytearray.find(b'\n')`: the index of the first newline, or -1 (see `FindLFFirst`). */
  function FindLF(s: seq<byte>): (i: int)
    ensures -1 <= i < |s|
    ensures 0 <= i ==> s[i] == LF
  {
    if s == [] then -1
    else if s[0] == LF then 0
    else
      var j := FindLF(s[1..]);
      if j < 0 then -1 else j + 1
  }

  /** The complete frames in `buf`, in order, each without its delimiter. */
  function Frames(buf: seq<byte>): seq<seq<byte>>
    decreases |buf|
  {
    var i := FindLF(buf);
    if i < 0 then [] else [buf[..i]] + Frames(buf[i + 1..])
  }

  /** What stays buffered: the bytes after the last newline. */
  function Rest(buf: seq<byte>): seq<byte>
    decreases |buf|
  {
    var i := FindLF(buf);
    if i < 0 then buf else Rest(buf[i + 1..])
  }

  /** The wire form of a list of frames: each followed by `\n`. */
  function Join(fs: seq<seq<byte>>): seq<byte> {
    if fs == [] then [] else fs[0] + [LF] + Join(fs[1..])
  }

  /** The chunks received so far, concatenated. */
  function Concat(chunks: seq<seq<byte>>): seq<byte> {
    if chunks == [] then [] else chunks[0] + Concat(chunks[1..])
  }

  /** Feeding chunks one at a time to a receive buffer holding `buf`: each chunk is
      appended, its complete frames are returned and its tail stays buffered. */
  function Feed(buf: seq<byte>, chunks: seq<seq<byte>>): (seq<seq<byte>>, seq<byte>)
    decreases chunks
  {
    if chunks == [] then ([], buf)
    else
      var b := buf + chunks[0];
      var (more, tail) := Feed(Rest(b), chunks[1..]);
      (Frames(b) + more, tail)
  }

  // ---------------------------------------------------------------------------
  // The first newline

  /** `find` answers -1 exactly when there is no newline, and otherwise the first one. */
  lemma {:induction false} FindLFFirst(s: seq<byte>)
    ensures FindLF(s) == -1 <==> LF !in s
    ensures 0 <= FindLF(s) ==> LF !in s[..FindLF(s)]
  {
    if s != [] && s[0] != LF {
      FindLFFirst(s[1..]);
      var j := FindLF(s[1..]);
      if j >= 0 {
        assert s[..j + 1] == [s[0]] + s[1..][..j];
      } else {
        assert s == [s[0]] + s[1..];
      }
    }
  }

  /** The first newline of `a + b` is the first newline of `a` when `a` has one. */
  lemma {:induction false} FindLFAppend(a: seq<byte>, b: seq<byte>)
    requires FindLF(a) >= 0
    ensures FindLF(a + b) == FindLF(a)
  {
    if a[0] != LF {
      assert (a + b)[1..] == a[1..] + b;
      FindLFAppend(a[1..], b);
    }
  }

  /** A frame followed by its delimiter: the delimiter is the first newline. */
  lemma {:induction false} FindLFAfterFrame(f: seq<byte>, rest: seq<byte>)
    requires LF !in f
    ensures FindLF(f + [LF] + rest) == |f|
  {
    if f != [] {
      assert (f + [LF] + rest)[1..] == f[1..] + [LF] + rest;
      FindLFAfterFrame(f[1..], rest);
    }
  }

  // ---------------------------------------------------------------------------
  // Cutting one frame

  /** One turn of the cutting loop: the first frame is the text before the first newline,
      and the rest is cut from what follows it. */
  lemma FramesStep(buf: seq<byte>)
    requires FindLF(buf) >= 0
    ensures Frames(buf) == [buf[..FindLF(buf)]] + Frames(buf[FindLF(buf) + 1..])
    ensures Rest(buf) == Rest(buf[FindLF(buf) + 1..])
  {
  }

  /** Without a newline there is no frame and everything stays buffered. */
  lemma NoFrame(a: seq<byte>)
    requires FindLF(a) < 0
    ensures Frames(a) == [] && Rest(a) == a
  {
  }

  /** Appending after a complete frame leaves that frame first. */
  lemma FirstFrameOfAppend(a: seq<byte>, b: seq<byte>)
    requires FindLF(a) >= 0
    ensures Frames(a + b) == [a[..FindLF(a)]] + Frames(a[FindLF(a) + 1..] + b)
    ensures Rest(a + b) == Rest(a[FindLF(a) + 1..] + b)
  {
    var i := FindLF(a);
    var c := a + b;
    FindLFAppend(a, b);
    assert c[..i] == a[..i];
    assert c[i + 1..] == a[i + 1..] + b;
    FramesStep(c);
  }

  lemma ConcatAssoc<T>(x: seq<T>, y: seq<T>, z: seq<T>)
    ensures x + (y + z) == (x + y) + z
  {
  }

  // ---------------------------------------------------------------------------
  // Properties of the cut

  /** Cutting lines never yields a newline: every frame, and the tail, is newline-free. */
  lemma NoDelimiterLeft(buf: seq<byte>)
    ensures forall k :: 0 <= k < |Frames(buf)| ==> LF !in Frames(buf)[k]
    ensures LF !in Rest(buf)
  {
    FramesNewlineFree(buf);
    RestNewlineFree(buf);
  }

  lemma {:induction false} FramesNewlineFree(buf: seq<byte>)
    ensures forall k :: 0 <= k < |Frames(buf)| ==> LF !in Frames(buf)[k]
    decreases |buf|
  {
    var i := FindLF(buf);
    if i >= 0 {
      var tail := buf[i + 1..];
      FramesNewlineFree(tail);
      FramesStep(buf);
      FindLFFirst(buf);
      ConsNewlineFree(buf[..i], Frames(tail));
    }
  }

  lemma ConsNewlineFree(f: seq<byte>, fs: seq<seq<byte>>)
    requires LF !in f
    requires forall k :: 0 <= k < |fs| ==> LF !in fs[k]
    ensures forall k :: 0 <= k < |[f] + fs| ==> LF !in ([f] + fs)[k]
  {
    forall k | 0 <= k < |[f] + fs|
      ensures LF !in ([f] + fs)[k]
    {
      if k > 0 {
        assert ([f] + fs)[k] == fs[k - 1];
      }
    }
  }

  lemma {:induction false} RestNewlineFree(buf: seq<byte>)
    ensures LF !in Rest(buf)
    decreases |buf|
  {
    var i := FindLF(buf);
    if i >= 0 {
      FramesStep(buf);
      RestNewlineFree(buf[i + 1..]);
    } else {
      FindLFFirst(buf);
      NoFrame(buf);
    }
  }

  /** Nothing is lost or reordered: the frames, each with its delimiter, followed by
      the buffered tail give back the input. */
  lemma {:induction false} Reassemble(buf: seq<byte>)
    ensures Join(Frames(buf)) + Rest(buf) == buf
    decreases |buf|
  {
    if FindLF(buf) >= 0 {
      Reassemble(buf[FindLF(buf) + 1..]);
      ReassembleStep(buf);
    } else {
      NoFrame(buf);
      assert Join([]) + buf == buf;
    }
  }

  /** One turn of `Reassemble`: a buffer with a newline reassembles when what follows
      its first newline does. */
  lemma ReassembleStep(buf: seq<byte>)
    requires FindLF(buf) >= 0
    requires Join(Frames(buf[FindLF(buf) + 1..])) + Rest(buf[FindLF(buf) + 1..]) == buf[FindLF(buf) + 1..]
    ensures Join(Frames(buf)) + Rest(buf) == buf
  {
    var i := FindLF(buf);
    var tail := buf[i + 1..];
    FramesStep(buf);
    JoinCons(buf[..i], Frames(tail));
    Glue(buf, i, Join(Frames(tail)), Rest(tail));
  }

  lemma Glue(buf: seq<byte>, i: int, j: seq<byte>, r: seq<byte>)
    requires 0 <= i < |buf| && buf[i] == LF
    requires j + r == buf[i + 1..]
    ensures buf[..i] + [LF] + j + r == buf
  {
    assert buf == buf[..i] + [buf[i]] + buf[i + 1..];
  }

  lemma JoinCons(f: seq<byte>, fs: seq<seq<byte>>)
    ensures Join([f] + fs) == f + [LF] + Join(fs)
  {
    assert ([f] + fs)[1..] == fs;
  }

  /** Framing is independent of where the stream was split: taking the frames of `a`
      and then those of its tail extended by `b` is the same as framing `a + b`. */
  lemma SplitInvariance(a: seq<byte>, b: seq<byte>)
    ensures Frames(a + b) == Frames(a) + Frames(Rest(a) + b)
    ensures Rest(a + b) == Rest(Rest(a) + b)
  {
    SplitFrames(a, b);
    SplitRest(a, b);
  }

  lemma {:induction false} SplitFrames(a: seq<byte>, b: seq<byte>)
    ensures Frames(a + b) == Frames(a) + Frames(Rest(a) + b)
    decreases |a|
  {
    if FindLF(a) >= 0 {
      SplitFrames(a[FindLF(a) + 1..], b);
      SplitFramesStep(a, b);
    } else {
      NoFrame(a);
      assert [] + Frames(a + b) == Frames(a + b);
    }
  }

  /** One turn of `SplitFrames`, given the split of what follows the first newline. */
  lemma SplitFramesStep(a: seq<byte>, b: seq<byte>)
    requires FindLF(a) >= 0
    requires var tail := a[FindLF(a) + 1..];
      Frames(tail + b) == Frames(tail) + Frames(Rest(tail) + b)
    ensures Frames(a + b) == Frames(a) + Frames(Rest(a) + b)
  {
    var i := FindLF(a);
    var tail := a[i + 1..];
    FirstFrameOfAppend(a, b);
    FramesStep(a);
    ConcatAssoc([a[..i]], Frames(tail), Frames(Rest(tail) + b));
  }

  lemma {:induction false} SplitRest(a: seq<byte>, b: seq<byte>)
    ensures Rest(a + b) == Rest(Rest(a) + b)
    decreases |a|
  {
    if FindLF(a) >= 0 {
      SplitRest(a[FindLF(a) + 1..], b);
      SplitRestStep(a, b);
    } else {
      NoFrame(a);
    }
  }

  /** One turn of `SplitRest`, given the split of what follows the first newline. */
  lemma SplitRestStep(a: seq<byte>, b: seq<byte>)
    requires FindLF(a) >= 0
    requires var tail := a[FindLF(a) + 1..];
      Rest(tail + b) == Rest(Rest(tail) + b)
    ensures Rest(a + b) == Rest(Rest(a) + b)
  {
    FirstFrameOfAppend(a, b);
    FramesStep(a);
  }

  /** Framing inverts `Join`: newline-free frames followed by a newline-free tail are
      recovered exactly, with the tail left buffered. */
  lemma {:induction false} FramesOfJoin(fs: seq<seq<byte>>, partial: seq<byte>)
    requires forall k :: 0 <= k < |fs| ==> LF !in fs[k]
    requires LF !in partial
    ensures Frames(Join(fs) + partial) == fs
    ensures Rest(Join(fs) + partial) == partial
  {
    if fs == [] {
      assert Join(fs) + partial == partial;
      FindLFFirst(partial);
      NoFrame(partial);
    } else {
      var s := Join(fs) + partial;
      var later := Join(fs[1..]) + partial;
      assert s == fs[0] + [LF] + later;
      FindLFAfterFrame(fs[0], later);
      assert s[..|fs[0]|] == fs[0];
      assert s[|fs[0]| + 1..] == later;
      FramesStep(s);
      FramesOfJoin(fs[1..], partial);
      assert fs == [fs[0]] + fs[1..];
    }
  }

  /** A single newline-free frame and its newline is that one frame, with nothing left. */
  lemma OneFrame(e: seq<byte>)
    requires LF !in e
    ensures Frames(e + [LF]) == [e]
    ensures Rest(e + [LF]) == []
  {
    assert Join([e]) + [] == e + [LF];
    FramesOfJoin([e], []);
  }

  /** Appending a newline-free frame and its newline to a buffer that ends on a frame
      boundary adds exactly that frame and ends on a boundary again. */
  lemma AppendOneFrame(a: seq<byte>, e: seq<byte>)
    requires Rest(a) == [] && LF !in e
    ensures Frames(a + e + [LF]) == Frames(a) + [e]
    ensures Rest(a + e + [LF]) == []
  {
    var b := e + [LF];
    SplitInvariance(a, b);
    assert a + e + [LF] == a + b;
    assert Rest(a) + b == b;
    OneFrame(e);
  }

  /** One chunk of `Feed`. */
  lemma FeedStep(buf: seq<byte>, chunks: seq<seq<byte>>)
    requires chunks != []
    ensures var b := buf + chunks[0];
      Feed(buf, chunks) == (Frames(b) + Feed(Rest(b), chunks[1..]).0, Feed(Rest(b), chunks[1..]).1)
  {
  }

  /** Feeding chunks one by one yields the frames, and leaves the tail, of their
      concatenation: the split pattern of the stream does not matter. */
  lemma {:induction false} FeedAnySplit(buf: seq<byte>, chunks: seq<seq<byte>>)
    requires LF !in buf
    ensures Feed(buf, chunks) == (Frames(buf + Concat(chunks)), Rest(buf + Concat(chunks)))
    decreases chunks
  {
    if chunks == [] {
      assert buf + Concat(chunks) == buf;
      FindLFFirst(buf);
      NoFrame(buf);
    } else {
      var b := buf + chunks[0];
      var later := Concat(chunks[1..]);
      RestNewlineFree(b);
      FeedAnySplit(Rest(b), chunks[1..]);
      SplitInvariance(b, later);
      assert buf + Concat(chunks) == b + later;
      FeedStep(buf, chunks);
    }
  }

  /** A stream `frame1 \n frame2 \n ... partial`, delivered in any chunks, yields
      exactly `[frame1, frame2, ...]` and keeps `partial` buffered. */
  lemma FramingIdempotence(chunks: seq<seq<byte>>, fs: seq<seq<byte>>, partial: seq<byte>)
    requires Concat(chunks) == Join(fs) + partial
    requires forall k :: 0 <= k < |fs| ==> LF !in fs[k]
    requires LF !in partial
    ensures Feed([], chunks) == (fs, partial)
  {
    FeedAnySplit([], chunks);
    assert [] + Concat(chunks) == Join(fs) + partial;
    FramesOfJoin(fs, partial);
  }
}
