/** Text helpers shared by every script: the prefix tests, strip, split and join
    that the message handlers use, and the newline framing used both by the
    mpv event reader and by the playlist (.m3u) writers. */
module Text {

  /** `s.startswith(p)` */
  predicate StartsWith<T(==)>(s: seq<T>, p: seq<T>) {
    |p| <= |s| && s[..|p|] == p
  }

  /** `s.endswith(p)` */
  predicate EndsWith<T(==)>(s: seq<T>, p: seq<T>) {
    |p| <= |s| && s[|s| - |p|..] == p
  }

  /** What follows a prefix the message is known to start with; for a prefix
      ending in ':' this is `msg.split(":", 1)[1]`. */
  function After<T(==)>(s: seq<T>, p: seq<T>): (r: seq<T>)
    requires StartsWith(s, p)
    ensures p + r == s
  {
    s[|p|..]
  }

  /** The characters Python's `str.strip()` removes (the ASCII and Latin-1 ones). */
  predicate IsSpace(c: char) {
    c == ' ' || c == '\t' || c == '\n' || c == '\r' || c == '\U{0B}' || c == '\U{0C}'
    || c == '\U{1C}' || c == '\U{1D}' || c == '\U{1E}' || c == '\U{1F}' || c == '\U{85}' || c == '\U{A0}'
  }

  predicate AllSpace(s: string) {
    forall i :: 0 <= i < |s| ==> IsSpace(s[i])
  }

  function TrimLeft(s: string): (r: string)
    ensures |r| <= |s| && EndsWith(s, r) && AllSpace(s[..|s| - |r|])
    ensures r == [] || !IsSpace(r[0])
  {
    if s != [] && IsSpace(s[0]) then TrimLeft(s[1..]) else s
  }

  function TrimRight(s: string): (r: string)
    ensures |r| <= |s| && StartsWith(s, r) && AllSpace(s[|r|..])
    ensures r == [] || !IsSpace(r[|r| - 1])
  {
    if s != [] && IsSpace(s[|s| - 1]) then TrimRight(s[..|s| - 1]) else s
  }

  /** `s.strip()`: the result is `s` without its leading and trailing white space. */
  function Strip(s: string): (r: string)
    ensures |r| <= |s|
    ensures r == [] || (!IsSpace(r[0]) && !IsSpace(r[|r| - 1]))
  {
    TrimRight(TrimLeft(s))
  }

  /** A string that is already stripped is left alone. */
  lemma {:induction false} StripUnpadded(s: string)
    requires s == [] || (!IsSpace(s[0]) && !IsSpace(s[|s| - 1]))
    ensures Strip(s) == s
  {
  }

  /** Stripping only removes characters: what is left is the run of `s`
      that starts after its leading white space. */
  lemma StripKeeps(s: string)
    ensures var k := |s| - |TrimLeft(s)|;
            k + |Strip(s)| <= |s| && Strip(s) == s[k..k + |Strip(s)|]
  {
    var l := TrimLeft(s);
    assert l == s[|s| - |l|..];
    assert TrimRight(l) == l[..|TrimRight(l)|];
  }

  /** Joining with a separator: `sep.join(xs)`. */
  function JoinWith<T>(xs: seq<seq<T>>, sep: T): (r: seq<T>)
  {
    if xs == [] then []
    else if |xs| == 1 then xs[0]
    else xs[0] + [sep] + JoinWith(xs[1..], sep)
  }

  /** Index of the first occurrence of `x` in `s`. */
  function FirstIndex<T(==)>(s: seq<T>, x: T): (i: nat)
    requires x in s
    ensures i < |s| && s[i] == x && x !in s[..i]
  {
    if s[0] == x then 0
    else
      var k := FirstIndex(s[1..], x);
      assert s[1..][..k] == s[1..k + 1];
      1 + k
  }

  /** Python's `s.split(sep)` for a one-character separator: never empty, and the
      pieces contain no separator. */
  function Split<T(==)>(s: seq<T>, sep: T): (r: seq<seq<T>>)
    ensures |r| >= 1
    ensures forall k :: 0 <= k < |r| ==> sep !in r[k]
    decreases |s|
  {
    if sep !in s then [s]
    else
      var i := FirstIndex(s, sep);
      [s[..i]] + Split(s[i + 1..], sep)
  }

  lemma JoinCons<T>(x: seq<T>, xs: seq<seq<T>>, sep: T)
    requires |xs| >= 1
    ensures JoinWith([x] + xs, sep) == x + [sep] + JoinWith(xs, sep)
  {
    assert ([x] + xs)[1..] == xs;
  }

  /** Splitting and joining back gives the original text. */
  lemma {:induction false} JoinSplit<T>(s: seq<T>, sep: T)
    ensures JoinWith(Split(s, sep), sep) == s
    decreases |s|
  {
    if sep in s {
      var i := FirstIndex(s, sep);
      JoinCons(s[..i], Split(s[i + 1..], sep), sep);
      JoinSplit(s[i + 1..], sep);
      assert s == s[..i] + [sep] + s[i + 1..];
    }
  }

  /** Joining a non-empty list of separator-free pieces and splitting it again
      gives the list back. (An empty list joins to "" which splits to [""].) */
  lemma {:induction false} SplitJoin<T>(xs: seq<seq<T>>, sep: T)
    requires |xs| >= 1
    requires forall k :: 0 <= k < |xs| ==> sep !in xs[k]
    ensures Split(JoinWith(xs, sep), sep) == xs
    decreases |xs|
  {
    if |xs| > 1 {
      var s := JoinWith(xs, sep);
      assert s == xs[0] + [sep] + JoinWith(xs[1..], sep);
      assert s[|xs[0]|] == sep;
      assert s[..|xs[0]|] == xs[0];
      assert FirstIndex(s, sep) == |xs[0]|;
      assert s[|xs[0]| + 1..] == JoinWith(xs[1..], sep);
      SplitJoin(xs[1..], sep);
    }
  }

  // ---------------------------------------------------------------------
  // Newline framing: a stream is a sequence of complete lines, each ended by
  // the separator, followed by an unfinished tail.
  // ---------------------------------------------------------------------

  /** `s` holds no separator. */
  predicate Free<T(==)>(s: seq<T>, sep: T) {
    forall k :: 0 <= k < |s| ==> s[k] != sep
  }

  /** Index of the first separator in a stream that holds one. */
  function FirstSep<T(==)>(s: seq<T>, sep: T): (i: nat)
    requires !Free(s, sep)
    ensures i < |s| && s[i] == sep && Free(s[..i], sep)
  {
    if s[0] == sep then 0
    else
      var k := FirstSep(s[1..], sep);
      assert s[1..][..k] == s[1..k + 1];
      1 + k
  }

  datatype Framed<T> = Framed(lines: seq<seq<T>>, rest: seq<T>)

  /** Cuts `s` into its complete lines (separator removed) and the trailing
      partial line. Defined element by element from the end, as a reader that
      appends what arrives would see it. */
  function Frame<T(==)>(s: seq<T>, sep: T): (f: Framed<T>)
    ensures Free(f.rest, sep)
    ensures forall k :: 0 <= k < |f.lines| ==> Free(f.lines[k], sep)
  {
    if s == [] then Framed([], [])
    else
      var f := Frame(s[..|s| - 1], sep);
      if s[|s| - 1] == sep then Framed(f.lines + [f.rest], [])
      else Framed(f.lines, f.rest + [s[|s| - 1]])
  }

  /** Each line followed by the separator: the text the playlist writers emit
      (`f.write(line + "\n")` for every line). */
  function Unframe<T>(lines: seq<seq<T>>, sep: T): (s: seq<T>)
  {
    if lines == [] then [] else lines[0] + [sep] + Unframe(lines[1..], sep)
  }

  lemma {:induction false} UnframeAppend<T>(a: seq<seq<T>>, b: seq<seq<T>>, sep: T)
    ensures Unframe(a + b, sep) == Unframe(a, sep) + Unframe(b, sep)
  {
    if a != [] {
      assert (a + b)[1..] == a[1..] + b;
      UnframeAppend(a[1..], b, sep);
    } else {
      assert a + b == b;
    }
  }

  /** A separator-free stream is all tail. */
  lemma {:induction false} FrameFree<T>(s: seq<T>, sep: T)
    requires Free(s, sep)
    ensures Frame(s, sep) == Framed([], s)
  {
    if s != [] {
      FrameFree(s[..|s| - 1], sep);
      assert s[..|s| - 1] + [s[|s| - 1]] == s;
    }
  }

  /** Framing loses nothing: the complete lines and the tail rebuild the input. */
  lemma {:induction false} FrameRebuilds<T>(s: seq<T>, sep: T)
    ensures Unframe(Frame(s, sep).lines, sep) + Frame(s, sep).rest == s
  {
    if s != [] {
      var s' := s[..|s| - 1];
      var f := Frame(s', sep);
      FrameRebuilds(s', sep);
      assert s == s' + [s[|s| - 1]];
      if s[|s| - 1] == sep {
        UnframeAppend(f.lines, [f.rest], sep);
        assert Unframe([f.rest], sep) == f.rest + [sep];
      }
    }
  }

  /** Framing does not depend on where the stream was cut into chunks: the lines
      of `a + b` are the lines of `a`, then the lines that the tail of `a`
      completes with `b`; the tails agree. */
  lemma {:induction false} FrameAppend<T>(a: seq<T>, b: seq<T>, sep: T)
    ensures Frame(a + b, sep).lines == Frame(a, sep).lines + Frame(Frame(a, sep).rest + b, sep).lines
    ensures Frame(a + b, sep).rest == Frame(Frame(a, sep).rest + b, sep).rest
    decreases |b|
  {
    var r := Frame(a, sep).rest;
    if b == [] {
      assert a + b == a && r + b == r;
      FrameFree(r, sep);
    } else {
      var b' := b[..|b| - 1];
      FrameAppend(a, b', sep);
      assert (a + b)[..|a + b| - 1] == a + b';
      assert (r + b)[..|r + b| - 1] == r + b';
    }
  }

  /** A separator-free line and its separator frame as that line, ahead of
      whatever follows. */
  lemma FrameLine<T>(l: seq<T>, tail: seq<T>, sep: T)
    requires Free(l, sep)
    ensures Frame(l + [sep] + tail, sep).lines == [l] + Frame(tail, sep).lines
    ensures Frame(l + [sep] + tail, sep).rest == Frame(tail, sep).rest
  {
    var head := l + [sep];
    assert head[..|head| - 1] == l;
    FrameFree(l, sep);
    assert Frame(head, sep) == Framed([l], []);
    FrameAppend(head, tail, sep);
    assert [] + tail == tail;
  }

  /** One step of the reader's `line, buf = buf.split(sep, 1)`: the first
      complete line is the text before the first separator, and the remaining
      lines and tail are those of the text after it. */
  lemma FrameFirstLine<T>(s: seq<T>, sep: T)
    requires !Free(s, sep)
    ensures Frame(s, sep).lines == [s[..FirstSep(s, sep)]] + Frame(s[FirstSep(s, sep) + 1..], sep).lines
    ensures Frame(s, sep).rest == Frame(s[FirstSep(s, sep) + 1..], sep).rest
  {
    var i := FirstSep(s, sep);
    assert s == s[..i] + [sep] + s[i + 1..];
    FrameLine(s[..i], s[i + 1..], sep);
  }

  /** Reading back what the writers emit: separator-free lines followed by a
      separator-free tail frame into exactly those lines and that tail. */
  lemma {:induction false} FrameUnframe<T>(lines: seq<seq<T>>, rest: seq<T>, sep: T)
    requires forall k :: 0 <= k < |lines| ==> Free(lines[k], sep)
    requires Free(rest, sep)
    ensures Frame(Unframe(lines, sep) + rest, sep) == Framed(lines, rest)
    decreases |lines|
  {
    if lines == [] {
      assert Unframe(lines, sep) + rest == rest;
      FrameFree(rest, sep);
    } else {
      var tail := Unframe(lines[1..], sep) + rest;
      assert Unframe(lines, sep) + rest == lines[0] + [sep] + tail;
      FrameLine(lines[0], tail, sep);
      FrameUnframe(lines[1..], rest, sep);
      assert lines == [lines[0]] + lines[1..];
    }
  }
}
