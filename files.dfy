/** Directory listings as the scripts see them. A `Tree` maps a directory
    path to its entries, in the order the directory is iterated; a path that
    is not a key does not exist. */
module Files {
  import Text
  import Names
  import Blocks

  datatype Entry = Entry(name: string, isDir: bool)

  type Tree = map<string, seq<Entry>>

  /** The entries of `dir`, none when it does not exist. */
  function Listing(fs: Tree, dir: string): seq<Entry> {
    if dir in fs then fs[dir] else []
  }

  function NamesOf(entries: seq<Entry>): (r: seq<string>)
    ensures |r| == |entries|
  {
    seq(|entries|, i requires 0 <= i < |entries| => entries[i].name)
  }

  /** A real directory never lists one name twice. */
  predicate WellFormed(fs: Tree) {
    forall d :: d in fs ==> Blocks.Distinct(NamesOf(fs[d]))
  }

  /** The names of the sub-directories, in listing order. */
  function SubDirs(entries: seq<Entry>): (r: seq<string>)
    ensures |r| <= |entries|
    ensures forall i :: 0 <= i < |r| ==> exists j :: 0 <= j < |entries| && entries[j].isDir && entries[j].name == r[i]
  {
    if entries == [] then []
    else
      var tail := SubDirs(entries[1..]);
      if entries[0].isDir then [entries[0].name] + tail else tail
  }

  /** Exactly the directory entries are listed as sub-directories. */
  lemma {:induction false} SubDirsMembers(entries: seq<Entry>, n: string)
    ensures n in SubDirs(entries) <==> exists j :: 0 <= j < |entries| && entries[j].isDir && entries[j].name == n
    decreases |entries|
  {
    if entries != [] {
      SubDirsMembers(entries[1..], n);
      if exists j :: 0 <= j < |entries| && entries[j].isDir && entries[j].name == n {
        var j :| 0 <= j < |entries| && entries[j].isDir && entries[j].name == n;
        if j > 0 {
          assert entries[1..][j - 1] == entries[j];
        }
      }
      if n in SubDirs(entries[1..]) {
        var j :| 0 <= j < |entries| - 1 && entries[1..][j].isDir && entries[1..][j].name == n;
        assert entries[j + 1] == entries[1..][j];
      }
    }
  }

  // ---------------------------------------------------------------------
  // `Path.suffix`: from the last dot of the final component, provided the
  // dot is neither the first nor the last character.
  // ---------------------------------------------------------------------

  function LastDot(s: string): (i: int)
    ensures -1 <= i < |s|
    ensures i >= 0 ==> s[i] == '.' && forall k :: i < k < |s| ==> s[k] != '.'
    ensures i == -1 ==> forall k :: 0 <= k < |s| ==> s[k] != '.'
  {
    if s == [] then -1
    else if s[|s| - 1] == '.' then |s| - 1
    else LastDot(s[..|s| - 1])
  }

  function Suffix(name: string): (r: string)
    ensures r == [] || (|r| >= 2 && r[0] == '.' && Text.EndsWith(name, r) && |r| < |name|)
  {
    var i := LastDot(name);
    if 0 < i < |name| - 1 then name[i..] else []
  }

  /** `p.is_file() and p.suffix.lower() in VIDEO_EXTENSIONS` */
  predicate IsVideoFile(e: Entry, exts: seq<string>) {
    !e.isDir && Names.Lower(Suffix(e.name)) in exts
  }

  /** The names of the video files among the entries, in listing order. */
  function VideoNames(entries: seq<Entry>, exts: seq<string>): (r: seq<string>)
    ensures |r| <= |entries|
    ensures forall i :: 0 <= i < |r| ==> Names.Lower(Suffix(r[i])) in exts
  {
    if entries == [] then []
    else
      var tail := VideoNames(entries[1..], exts);
      if IsVideoFile(entries[0], exts) then [entries[0].name] + tail else tail
  }

  /** `[p for p in d.iterdir() if is_video(p)] if d.exists() else []`:
      full paths of the video files of `dir`. */
  function VideoPaths(fs: Tree, dir: string, exts: seq<string>): seq<string> {
    Names.JoinAll(dir, VideoNames(Listing(fs, dir), exts))
  }

  /** `[f for f in os.listdir(d) if f.lower().endswith(exts)]`: bare names,
      filtered by extension only. */
  function ListVideos(fs: Tree, dir: string, exts: seq<string>): seq<string> {
    Names.KeepExtensions(NamesOf(Listing(fs, dir)), exts)
  }

  // ---------------------------------------------------------------------
  // Listings without repeated names give pools without repeated entries,
  // which is what makes the three sampled videos of a block different.
  // ---------------------------------------------------------------------

  lemma {:induction false} VideoNamesFrom(entries: seq<Entry>, exts: seq<string>, x: string)
    requires x in VideoNames(entries, exts)
    ensures x in NamesOf(entries)
  {
    if entries != [] {
      assert NamesOf(entries) == [entries[0].name] + NamesOf(entries[1..]);
      if x != entries[0].name {
        VideoNamesFrom(entries[1..], exts, x);
      }
    }
  }

  lemma {:induction false} VideoNamesDistinct(entries: seq<Entry>, exts: seq<string>)
    requires Blocks.Distinct(NamesOf(entries))
    ensures Blocks.Distinct(VideoNames(entries, exts))
  {
    if entries != [] {
      var e := entries[0];
      assert NamesOf(entries) == [e.name] + NamesOf(entries[1..]);
      Blocks.DistinctCons(e.name, NamesOf(entries[1..]));
      VideoNamesDistinct(entries[1..], exts);
      var tail := VideoNames(entries[1..], exts);
      if IsVideoFile(e, exts) {
        if e.name in tail {
          VideoNamesFrom(entries[1..], exts, e.name);
        }
        Blocks.DistinctCons(e.name, tail);
      }
    }
  }

  lemma {:induction false} KeepDistinct(names: seq<string>, exts: seq<string>)
    requires Blocks.Distinct(names)
    ensures Blocks.Distinct(Names.KeepExtensions(names, exts))
  {
    if names != [] {
      KeepDistinct(names[1..], exts);
      var tail := Names.KeepExtensions(names[1..], exts);
      if Names.HasExtension(names[0], exts) {
        forall k | 0 <= k < |tail|
          ensures tail[k] != names[0]
        {
          assert tail[k] in names[1..];
        }
      }
    }
  }

  lemma PathJoinInjective(dir: string, a: string, b: string)
    requires Names.PathJoin(dir, a) == Names.PathJoin(dir, b)
    ensures a == b
  {
    var pa := Names.PathJoin(dir, a);
    assert a == pa[|dir| + 1..];
  }

  lemma JoinAllDistinct(dir: string, names: seq<string>)
    requires Blocks.Distinct(names)
    ensures Blocks.Distinct(Names.JoinAll(dir, names))
  {
    var r := Names.JoinAll(dir, names);
    forall i, j | 0 <= i < j < |r|
      ensures r[i] != r[j]
    {
      if r[i] == r[j] {
        PathJoinInjective(dir, names[i], names[j]);
      }
    }
  }

  /** In a well-formed tree the video paths of a directory are pairwise
      different, and so are its extension-filtered names. */
  lemma ListingsDistinct(fs: Tree, dir: string, exts: seq<string>)
    ensures WellFormed(fs) ==> Blocks.Distinct(VideoPaths(fs, dir, exts))
    ensures WellFormed(fs) ==> Blocks.Distinct(ListVideos(fs, dir, exts))
  {
    if WellFormed(fs) {
      VideoNamesDistinct(Listing(fs, dir), exts);
      JoinAllDistinct(dir, VideoNames(Listing(fs, dir), exts));
      KeepDistinct(NamesOf(Listing(fs, dir)), exts);
    }
  }
}
