/** What the stand-alone players (HyperObjectLumalogySingle/roleplayer-rotable.py,
    HyperObjectLumalogySingle/roleplayer-fullscreen.py and
    python-autoplayer/autoplayer.py) share: the category list read from the
    base directory, the pair of directories a category's videos live in, the
    block of a category, and the playlist of `ROUNDS` shuffled passes over
    the categories that the two playlist players write to an m3u file. */
module SinglePlayer {
  import opened Wrappers
  import Text
  import Names
  import Blocks
  import Files
  import Roleplayer

  const ROUNDS: nat := 10
  const VIDEO_EXTENSIONS: seq<string> := [".mp4", ".mov", ".mkv"]

  /** The exceptions these players raise. */
  datatype Error = FileNotFoundError | KeyError | IndexError

  datatype Result<T> = Ok(value: T) | Err(error: Error)

  /** `[d.name for d in BASE_VIDEO_DIR.iterdir() if d.is_dir()]`, in listing
      order; `iterdir` raises when the base directory is missing. */
  function Categories(fs: Files.Tree, base: string): (r: Option<seq<string>>)
    ensures r.None? <==> base !in fs
    ensures r.Some? ==> |r.value| <= |fs[base]|
    ensures r.Some? ==> forall n :: n in r.value <==>
                          exists j :: 0 <= j < |fs[base]| && fs[base][j].isDir && fs[base][j].name == n
  {
    if base !in fs then None
    else
      assert forall n :: n in Files.SubDirs(fs[base]) <==>
                         exists j :: 0 <= j < |fs[base]| && fs[base][j].isDir && fs[base][j].name == n by {
        forall n {
          Files.SubDirsMembers(fs[base], n);
        }
      }
      Some(Files.SubDirs(fs[base]))
  }

  /** The sub-directory names a category's text videos and plain videos live in. */
  datatype Layout = Layout(textDir: string, videoDir: string)

  /** The rule of `category_dirs` when only "hor" is told apart: "hor" uses
      `hor_text`/`hor`, every other orientation `ver_rotated_text`/
      `ver_rotated`. In both the text directory is the video directory with
      `_text` appended. */
  function TwoWayLayout(orientation: string): (l: Layout)
    ensures l.textDir == l.videoDir + "_text"
    ensures l.videoDir == (if orientation == "hor" then "hor" else "ver_rotated")
  {
    if orientation == "hor" then Layout("hor_text", "hor") else Layout("ver_rotated_text", "ver_rotated")
  }

  /** `BASE_VIDEO_DIR / cat / text_dir` and `BASE_VIDEO_DIR / cat / video_dir`. */
  function Dirs(base: string, cat: string, layout: Layout): (string, string) {
    (Names.PathJoin(Names.PathJoin(base, cat), layout.textDir),
     Names.PathJoin(Names.PathJoin(base, cat), layout.videoDir))
  }

  /** `[p for p in text_dir.iterdir() if is_video(p)] if text_dir.exists() else []` */
  function TextPool(fs: Files.Tree, base: string, cat: string, layout: Layout): seq<string> {
    Files.VideoPaths(fs, Dirs(base, cat, layout).0, VIDEO_EXTENSIONS)
  }

  function VidPool(fs: Files.Tree, base: string, cat: string, layout: Layout): seq<string> {
    Files.VideoPaths(fs, Dirs(base, cat, layout).1, VIDEO_EXTENSIONS)
  }

  /** A text video and three plain videos are there. */
  predicate Playable(fs: Files.Tree, base: string, cat: string, layout: Layout) {
    |TextPool(fs, base, cat, layout)| >= 1 && |VidPool(fs, base, cat, layout)| >= 3
  }

  predicate DrawFits(fs: Files.Tree, base: string, cat: string, layout: Layout, d: Blocks.Draw) {
    Blocks.Fits(d, |TextPool(fs, base, cat, layout)|, |VidPool(fs, base, cat, layout)|, 1, 3)
  }

  /** The block of a category for a draw. */
  function Block(fs: Files.Tree, base: string, cat: string, layout: Layout, d: Blocks.Draw): seq<string>
    requires DrawFits(fs, base, cat, layout, d)
  {
    Blocks.OneAndThree(TextPool(fs, base, cat, layout), VidPool(fs, base, cat, layout), d)
  }

  /** The block of a category: nothing unless it is playable, else a text
      video followed by three plain videos of the category, the three
      pairwise different in a well-formed tree. */
  lemma BlockShape(fs: Files.Tree, base: string, cat: string, layout: Layout, d: Blocks.Draw)
    requires DrawFits(fs, base, cat, layout, d)
    ensures var b := Block(fs, base, cat, layout, d);
            (b == [] <==> !Playable(fs, base, cat, layout))
            && (b != [] ==> Blocks.IsBlock(b, TextPool(fs, base, cat, layout), VidPool(fs, base, cat, layout)))
            && (b != [] && Files.WellFormed(fs) ==> Blocks.Distinct(b[1..]))
  {
    Files.ListingsDistinct(fs, Dirs(base, cat, layout).1, VIDEO_EXTENSIONS);
  }

  // ---------------------------------------------------------------------
  // The playlist of ROUNDS passes
  // ---------------------------------------------------------------------

  /** What the random module supplies for one build: the order each round's
      in-place shuffle leaves the categories in, and a draw per visit. */
  predicate Supplies(fs: Files.Tree, base: string, layout: Layout, cats: seq<string>,
                     orders: seq<seq<string>>, draws: seq<seq<Blocks.Draw>>) {
    |orders| == ROUNDS && |draws| == ROUNDS
    && forall r :: 0 <= r < ROUNDS ==>
         multiset(orders[r]) == multiset(cats) && |draws[r]| == |orders[r]|
         && forall j :: 0 <= j < |orders[r]| ==> DrawFits(fs, base, orders[r][j], layout, draws[r][j])
  }

  /** The blocks of one round, in visiting order (empty for a skipped category). */
  function RoundBlocks(fs: Files.Tree, base: string, layout: Layout, order: seq<string>, ds: seq<Blocks.Draw>): seq<seq<string>>
    requires |ds| == |order|
    requires forall j :: 0 <= j < |order| ==> DrawFits(fs, base, order[j], layout, ds[j])
  {
    seq(|order|, j requires 0 <= j < |order| => Block(fs, base, order[j], layout, ds[j]))
  }

  function AllRounds(fs: Files.Tree, base: string, layout: Layout, cats: seq<string>,
                     orders: seq<seq<string>>, draws: seq<seq<Blocks.Draw>>): (rounds: seq<seq<seq<string>>>)
    requires Supplies(fs, base, layout, cats, orders, draws)
    ensures |rounds| == ROUNDS
  {
    seq(ROUNDS, r requires 0 <= r < ROUNDS => RoundBlocks(fs, base, layout, orders[r], draws[r]))
  }

  /** The lines `build_playlist` returns: every round's blocks, in order. */
  function Playlist(fs: Files.Tree, base: string, layout: Layout, cats: seq<string>,
                    orders: seq<seq<string>>, draws: seq<seq<Blocks.Draw>>): seq<string>
    requires Supplies(fs, base, layout, cats, orders, draws)
  {
    Blocks.Concat2(AllRounds(fs, base, layout, cats, orders, draws))
  }

  /** The two loops of `build_playlist`: each round shuffles the categories
      in place and extends the lines with the block of every playable one. */
  method BuildLines(fs: Files.Tree, base: string, layout: Layout, cats: seq<string>,
                    orders: seq<seq<string>>, draws: seq<seq<Blocks.Draw>>) returns (lines: seq<string>)
    requires Supplies(fs, base, layout, cats, orders, draws)
    ensures lines == Playlist(fs, base, layout, cats, orders, draws)
  {
    ghost var rounds := AllRounds(fs, base, layout, cats, orders, draws);
    var categories := cats;
    lines := [];
    for i := 0 to ROUNDS
      invariant lines == Blocks.Concat2(rounds[..i])
    {
      // random.shuffle(categories)
      categories := orders[i];
      lines := ExtendRound(lines, fs, base, layout, categories, draws[i]);
      Blocks.Concat2PrefixSnoc(rounds, i);
    }
    assert rounds[..ROUNDS] == rounds;
  }

  /** The inner loop: one round's categories in order, each extending the
      lines with its block, a category without one being skipped. */
  method ExtendRound(start: seq<string>, fs: Files.Tree, base: string, layout: Layout,
                     categories: seq<string>, ds: seq<Blocks.Draw>) returns (lines: seq<string>)
    requires |ds| == |categories|
    requires forall j :: 0 <= j < |categories| ==> DrawFits(fs, base, categories[j], layout, ds[j])
    ensures lines == start + Blocks.Concat(RoundBlocks(fs, base, layout, categories, ds))
  {
    ghost var blocks := RoundBlocks(fs, base, layout, categories, ds);
    lines := start;
    for j := 0 to |categories|
      invariant lines == start + Blocks.Concat(blocks[..j])
    {
      var block := CategoryBlock(fs, base, layout, categories[j], ds[j]);
      Blocks.ConcatPrefixExtend(start, lines, blocks, j);
      lines := lines + block;
    }
    assert blocks[..|categories|] == blocks;
  }

  /** The body of the inner loop for one category: both pools are listed,
      too small a pool skips the category, otherwise the chosen text video
      and the three sampled videos. */
  method CategoryBlock(fs: Files.Tree, base: string, layout: Layout, cat: string, d: Blocks.Draw)
    returns (block: seq<string>)
    requires DrawFits(fs, base, cat, layout, d)
    ensures block == Block(fs, base, cat, layout, d)
  {
    var textos := TextPool(fs, base, cat, layout);
    var vids := VidPool(fs, base, cat, layout);
    if textos == [] || |vids| < 3 {
      return [];
    }
    block := [textos[d.text]] + Blocks.Take(vids, d.vids);
  }

  /** The playlist is made of whole blocks, four lines per playable visit,
      so its length is a multiple of four and at most four per category per
      round. */
  lemma PlaylistShape(fs: Files.Tree, base: string, layout: Layout, cats: seq<string>,
                      orders: seq<seq<string>>, draws: seq<seq<Blocks.Draw>>)
    requires Supplies(fs, base, layout, cats, orders, draws)
    ensures var p := Playlist(fs, base, layout, cats, orders, draws);
            |p| % 4 == 0 && |p| <= 4 * ROUNDS * |cats|
  {
    var rounds := AllRounds(fs, base, layout, cats, orders, draws);
    forall r | 0 <= r < |rounds|
      ensures |rounds[r]| == |cats| && Blocks.WholeBlocks(rounds[r])
    {
      assert |multiset(orders[r])| == |multiset(cats)|;
      forall j | 0 <= j < |rounds[r]|
        ensures |rounds[r][j]| == 0 || |rounds[r][j]| == 4
      {
        BlockShape(fs, base, orders[r][j], layout, draws[r][j]);
      }
    }
    Blocks.Concat2WholeBlocks(rounds, |cats|);
  }

  /** The playlist is empty exactly when no category has a text video and
      three videos: every round visits every category. */
  lemma EmptyIffNothingPlayable(fs: Files.Tree, base: string, layout: Layout, cats: seq<string>,
                                orders: seq<seq<string>>, draws: seq<seq<Blocks.Draw>>)
    requires Supplies(fs, base, layout, cats, orders, draws)
    ensures Playlist(fs, base, layout, cats, orders, draws) == [] <==>
              forall c :: c in cats ==> !Playable(fs, base, c, layout)
  {
    if c :| c in cats && Playable(fs, base, c, layout) {
      PlayableGivesLines(fs, base, layout, cats, orders, draws, c);
    } else {
      NothingPlayableGivesNone(fs, base, layout, cats, orders, draws);
    }
  }

  /** A playable category is visited in the first round, so its block is in
      the playlist. */
  lemma PlayableGivesLines(fs: Files.Tree, base: string, layout: Layout, cats: seq<string>,
                           orders: seq<seq<string>>, draws: seq<seq<Blocks.Draw>>, c: string)
    requires Supplies(fs, base, layout, cats, orders, draws)
    requires c in cats && Playable(fs, base, c, layout)
    ensures Playlist(fs, base, layout, cats, orders, draws) != []
  {
    var rounds := AllRounds(fs, base, layout, cats, orders, draws);
    assert c in multiset(orders[0]);
    var j :| 0 <= j < |orders[0]| && orders[0][j] == c;
    BlockShape(fs, base, c, layout, draws[0][j]);
    assert rounds[0][j] != [];
    Blocks.ConcatEmpty(rounds[0]);
    assert Blocks.Concat2(rounds) == Blocks.Concat(rounds[0]) + Blocks.Concat2(rounds[1..]);
  }

  /** With no playable category every block of every round is empty. */
  lemma NothingPlayableGivesNone(fs: Files.Tree, base: string, layout: Layout, cats: seq<string>,
                                 orders: seq<seq<string>>, draws: seq<seq<Blocks.Draw>>)
    requires Supplies(fs, base, layout, cats, orders, draws)
    requires forall c :: c in cats ==> !Playable(fs, base, c, layout)
    ensures Playlist(fs, base, layout, cats, orders, draws) == []
  {
    var rounds := AllRounds(fs, base, layout, cats, orders, draws);
    forall r | 0 <= r < ROUNDS
      ensures Blocks.Concat(rounds[r]) == []
    {
      forall j | 0 <= j < |rounds[r]|
        ensures rounds[r][j] == []
      {
        assert orders[r][j] in multiset(orders[r]);
        BlockShape(fs, base, orders[r][j], layout, draws[r][j]);
      }
      Blocks.ConcatEmpty(rounds[r]);
    }
    Blocks.Concat2Empty(rounds);
  }

  /** `write_playlist`'s file: nothing is written for an empty playlist and
      the call reports False; otherwise one line per entry and True. */
  method WritePlaylist(lines: seq<string>) returns (ok: bool, file: Option<string>)
    ensures ok <==> lines != []
    ensures !ok ==> file == None
    ensures ok ==> file == Some(Text.Unframe(lines, '\n'))
  {
    if lines == [] {
      return false, None;
    }
    var text := Roleplayer.WriteM3u(lines);
    return true, Some(text);
  }
}
