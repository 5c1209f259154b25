/** File and directory names: joining paths, the case-insensitive extension
    test the listing code applies, and the ordering `list.sort()` gives
    category names. */
module Names {
  import Text

  /** `os.path.join(dir, name)` / `Path(dir) / name` for a relative name. */
  function PathJoin(dir: string, name: string): string {
    dir + "/" + name
  }

  function JoinAll(dir: string, names: seq<string>): seq<string> {
    seq(|names|, i requires 0 <= i < |names| => PathJoin(dir, names[i]))
  }

  // ---------------------------------------------------------------------
  // Extension filter: `name.lower().endswith(VIDEO_EXTENSIONS)`
  // ---------------------------------------------------------------------

  function LowerChar(c: char): char {
    if 'A' <= c <= 'Z' then (c as int + 32) as char else c
  }

  function Lower(s: string): (r: string)
    ensures |r| == |s|
  {
    seq(|s|, i requires 0 <= i < |s| => LowerChar(s[i]))
  }

  predicate HasExtension(name: string, exts: seq<string>) {
    exists e :: e in exts && Text.EndsWith(Lower(name), e)
  }

  /** The names in a listing that carry one of the extensions, in listing order. */
  function KeepExtensions(names: seq<string>, exts: seq<string>): (r: seq<string>)
    ensures |r| <= |names|
    ensures forall x :: x in r <==> x in names && HasExtension(x, exts)
  {
    if names == [] then []
    else
      var tail := KeepExtensions(names[1..], exts);
      assert names == [names[0]] + names[1..];
      if HasExtension(names[0], exts) then [names[0]] + tail else tail
  }

  // ---------------------------------------------------------------------
  // Ordering of names: Python compares strings code point by code point,
  // a proper prefix coming first.
  // ---------------------------------------------------------------------

  predicate LessEq(a: string, b: string) {
    a == [] || (b != [] && (a[0] < b[0] || (a[0] == b[0] && LessEq(a[1..], b[1..]))))
  }

  lemma {:induction false} LessEqTotal(a: string, b: string)
    ensures LessEq(a, b) || LessEq(b, a)
  {
    if a != [] && b != [] && a[0] == b[0] {
      LessEqTotal(a[1..], b[1..]);
    }
  }

  predicate Sorted(s: seq<string>) {
    forall i :: 0 < i < |s| ==> LessEq(s[i - 1], s[i])
  }

  function Insert(x: string, s: seq<string>): (r: seq<string>)
    requires Sorted(s)
    ensures Sorted(r)
    ensures multiset(r) == multiset(s) + multiset{x}
    ensures r[0] == x || (s != [] && r[0] == s[0])
  {
    if s == [] then [x]
    else if LessEq(x, s[0]) then [x] + s
    else
      LessEqTotal(x, s[0]);
      var t := Insert(x, s[1..]);
      assert s == [s[0]] + s[1..];
      [s[0]] + t
  }

  /** `sorted(names)`: the same names, in ascending order. */
  function Sort(s: seq<string>): (r: seq<string>)
    ensures Sorted(r)
    ensures multiset(r) == multiset(s)
  {
    if s == [] then []
    else
      assert s == [s[0]] + s[1..];
      Insert(s[0], Sort(s[1..]))
  }

  /** Sorting keeps exactly the names it was given. */
  lemma SortMembers(s: seq<string>)
    ensures forall x :: x in Sort(s) <==> x in s
  {
    forall x
      ensures x in Sort(s) <==> x in s
    {
      assert x in Sort(s) <==> x in multiset(Sort(s));
      assert x in s <==> x in multiset(s);
    }
  }

  lemma {:induction false} LessEqAntisymmetric(a: string, b: string)
    requires LessEq(a, b) && LessEq(b, a)
    ensures a == b
  {
    if a != [] && b != [] {
      LessEqAntisymmetric(a[1..], b[1..]);
      assert a == [a[0]] + a[1..] && b == [b[0]] + b[1..];
    }
  }

  lemma {:induction false} LessEqTransitive(a: string, b: string, c: string)
    requires LessEq(a, b) && LessEq(b, c)
    ensures LessEq(a, c)
  {
    if a != [] && b != [] && c != [] && a[0] == b[0] && b[0] == c[0] {
      LessEqTransitive(a[1..], b[1..], c[1..]);
    }
  }

  /** The first name of a sorted list comes before every name in it. */
  lemma {:induction false} SortedFirst(s: seq<string>, k: nat)
    requires Sorted(s) && k < |s|
    ensures LessEq(s[0], s[k])
  {
    if k == 0 {
      if s[0] != [] {
        LessEqTotal(s[0], s[0]);
      }
    } else {
      SortedFirst(s, k - 1);
      LessEqTransitive(s[0], s[k - 1], s[k]);
    }
  }

  lemma MultisetTail(s: seq<string>)
    requires s != []
    ensures multiset(s[1..]) == multiset(s) - multiset{s[0]}
  {
    assert s == [s[0]] + s[1..];
  }

  /** Two non-empty sorted lists holding the same names start alike. */
  lemma SortedSameHead(a: seq<string>, b: seq<string>)
    requires Sorted(a) && Sorted(b) && multiset(a) == multiset(b) && a != []
    ensures b != [] && a[0] == b[0]
  {
    assert a[0] in multiset(b);
    assert b[0] in multiset(a);
    var i :| 0 <= i < |b| && b[i] == a[0];
    var j :| 0 <= j < |a| && a[j] == b[0];
    SortedFirst(b, i);
    SortedFirst(a, j);
    LessEqAntisymmetric(a[0], b[0]);
  }

  /** Two sorted lists holding the same names are the same list. */
  lemma {:induction false} SortedUnique(a: seq<string>, b: seq<string>)
    requires Sorted(a) && Sorted(b) && multiset(a) == multiset(b)
    ensures a == b
    decreases |a|
  {
    if a != [] {
      SortedSameHead(a, b);
      MultisetTail(a);
      MultisetTail(b);
      assert Sorted(a[1..]) && Sorted(b[1..]);
      SortedUnique(a[1..], b[1..]);
      assert a == [a[0]] + a[1..] && b == [b[0]] + b[1..];
    } else {
      assert |b| == |multiset(b)| == 0;
    }
  }

  /** Sorting forgets the order a directory happened to list its names in. */
  lemma SortCanonical(a: seq<string>, b: seq<string>)
    requires multiset(a) == multiset(b)
    ensures Sort(a) == Sort(b)
  {
    SortedUnique(Sort(a), Sort(b));
  }

  /** The extension filter keeps every copy of a matching name and no copy
      of any other. */
  lemma {:induction false} KeepCount(names: seq<string>, exts: seq<string>, x: string)
    ensures multiset(KeepExtensions(names, exts))[x] == if HasExtension(x, exts) then multiset(names)[x] else 0
  {
    if names != [] {
      KeepCount(names[1..], exts, x);
      assert names == [names[0]] + names[1..];
    }
  }

  /** Filtering two orderings of the same names gives two orderings of the
      same kept names. */
  lemma KeepPermutation(a: seq<string>, b: seq<string>, exts: seq<string>)
    requires multiset(a) == multiset(b)
    ensures multiset(KeepExtensions(a, exts)) == multiset(KeepExtensions(b, exts))
  {
    forall x
      ensures multiset(KeepExtensions(a, exts))[x] == multiset(KeepExtensions(b, exts))[x]
    {
      KeepCount(a, exts, x);
      KeepCount(b, exts, x);
    }
  }
}
