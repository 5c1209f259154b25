/** The single-node roleplayer: an audio drone chosen by role and one video
    mpv fed a long m3u playlist of `ROUNDS` shuffled passes over the
    categories, one block per category, reloaded once mpv has sat idle for
    more than 0.8 s. */
module Roleplayer {
  import opened Wrappers
  import Text
  import Decimal
  import Names
  import Blocks
  import Files

  const ROUNDS: nat := 10
  const BLOCK_TEXT_COUNT: nat := 1
  const BLOCK_NO_TEXT_COUNT: nat := 3
  const VIDEO_EXTENSIONS: seq<string> := [".mp4", ".mov", ".mkv"]
  /** How long mpv must have been idle before the playlist is reloaded, in
      milliseconds (strictly longer). */
  const IDLE_MARGIN: int := 800

  /** The exceptions the helpers raise. */
  datatype Error = ValueError | FileNotFoundError

  datatype Result<T> = Ok(value: T) | Err(error: Error)

  // ---------------------------------------------------------------------
  // Audio by role
  // ---------------------------------------------------------------------

  /** `pick_audio_by_role`: roles 0 to 3 get drone_81 to drone_84 under the
      audio directory; any other role raises `ValueError`. */
  function PickAudioByRole(audioDir: string, role: int): (r: Result<string>)
    ensures r.Ok? <==> 0 <= role <= 3
    ensures r.Err? ==> r.error == ValueError
  {
    if 0 <= role <= 3 then Ok(Names.PathJoin(audioDir, "drone_8" + [Decimal.DigitChar(role + 1)] + ".WAV"))
    else Err(ValueError)
  }

  /** Four nodes, four different drones: no two roles share a track, and
      the leader's is drone_81. */
  lemma EachRoleItsTrack(audioDir: string, a: int, b: int)
    requires 0 <= a <= 3 && 0 <= b <= 3 && a != b
    ensures PickAudioByRole(audioDir, a).value != PickAudioByRole(audioDir, b).value
    ensures PickAudioByRole(audioDir, 0).value == Names.PathJoin(audioDir, "drone_81.WAV")
  {
    var pa := PickAudioByRole(audioDir, a).value;
    var pb := PickAudioByRole(audioDir, b).value;
    var at := |audioDir| + 1 + 7;
    assert pa[at] == Decimal.DigitChar(a + 1);
    assert pb[at] == Decimal.DigitChar(b + 1);
  }

  // ---------------------------------------------------------------------
  // Categories and directories
  // ---------------------------------------------------------------------

  /** `list_categories`: raises when the base is not a directory; otherwise
      the names of its sub-directories in ascending order. */
  function ListCategories(fs: Files.Tree, base: string): (r: Result<seq<string>>)
    ensures r.Err? <==> base !in fs
    ensures r.Err? ==> r.error == FileNotFoundError
    ensures r.Ok? ==> Names.Sorted(r.value) && multiset(r.value) == multiset(Files.SubDirs(fs[base]))
  {
    if base !in fs then Err(FileNotFoundError) else Ok(Names.Sort(Files.SubDirs(fs[base])))
  }

  /** `category_dirs`: only "hor" and "ver" are accepted; the text
      directory is the orientation followed by `_text`, the plain one the
      orientation itself, both under the category. */
  function CategoryDirs(base: string, cat: string, orientation: string): (r: Result<(string, string)>)
    ensures r.Ok? <==> orientation == "hor" || orientation == "ver"
    ensures r.Err? ==> r.error == ValueError
    ensures r.Ok? ==> Text.StartsWith(r.value.0, Names.PathJoin(base, cat) + "/")
                      && Text.StartsWith(r.value.1, Names.PathJoin(base, cat) + "/")
                      && r.value.0 == r.value.1 + "_text"
    ensures r.Ok? ==> r.value.1 == Names.PathJoin(Names.PathJoin(base, cat), orientation)
  {
    if orientation != "hor" && orientation != "ver" then Err(ValueError)
    else
      var dir := Names.PathJoin(base, cat);
      assert Names.PathJoin(dir, orientation + "_text") == Names.PathJoin(dir, orientation) + "_text";
      Ok((Names.PathJoin(dir, orientation + "_text"), Names.PathJoin(dir, orientation)))
  }

  // ---------------------------------------------------------------------
  // Blocks
  // ---------------------------------------------------------------------

  function TextPool(fs: Files.Tree, dirs: (string, string)): seq<string> {
    Files.VideoPaths(fs, dirs.0, VIDEO_EXTENSIONS)
  }

  function VidPool(fs: Files.Tree, dirs: (string, string)): seq<string> {
    Files.VideoPaths(fs, dirs.1, VIDEO_EXTENSIONS)
  }

  /** The draw fits the category's pools, whenever the orientation is valid. */
  predicate DrawFits(fs: Files.Tree, base: string, cat: string, orientation: string, d: Blocks.Draw) {
    var dirs := CategoryDirs(base, cat, orientation);
    dirs.Ok? ==> Blocks.Fits(d, |TextPool(fs, dirs.value)|, |VidPool(fs, dirs.value)|,
                             BLOCK_TEXT_COUNT, BLOCK_NO_TEXT_COUNT)
  }

  /** The block `pick_block_for_category` returns for a draw. */
  function Block(fs: Files.Tree, base: string, cat: string, orientation: string, d: Blocks.Draw): Result<seq<string>>
    requires DrawFits(fs, base, cat, orientation, d)
  {
    var dirs := CategoryDirs(base, cat, orientation);
    if dirs.Err? then Err(dirs.error)
    else Ok(Blocks.OneAndThree(TextPool(fs, dirs.value), VidPool(fs, dirs.value), d))
  }

  /** The two orientations the program knows always give a block or nothing. */
  lemma BlockOk(fs: Files.Tree, base: string, cat: string, orientation: string, d: Blocks.Draw)
    requires DrawFits(fs, base, cat, orientation, d)
    requires orientation == "hor" || orientation == "ver"
    ensures Block(fs, base, cat, orientation, d).Ok?
  {
  }

  /** A bad orientation raises; otherwise too small a pool gives no block,
      and a block is one text video followed by three plain videos of the
      category, pairwise different in a well-formed tree. */
  lemma BlockShape(fs: Files.Tree, base: string, cat: string, orientation: string, d: Blocks.Draw)
    requires DrawFits(fs, base, cat, orientation, d)
    ensures var r := Block(fs, base, cat, orientation, d);
            (r.Ok? <==> orientation == "hor" || orientation == "ver")
            && (r.Err? ==> r.error == ValueError)
    ensures var r := Block(fs, base, cat, orientation, d);
            r.Ok? ==> var dirs := CategoryDirs(base, cat, orientation).value;
                      (r.value == [] <==> |TextPool(fs, dirs)| < BLOCK_TEXT_COUNT || |VidPool(fs, dirs)| < BLOCK_NO_TEXT_COUNT)
                      && (r.value != [] ==> Blocks.IsBlock(r.value, TextPool(fs, dirs), VidPool(fs, dirs)))
                      && (r.value != [] && Files.WellFormed(fs) ==> Blocks.Distinct(r.value[1..]))
  {
    var dirs := CategoryDirs(base, cat, orientation);
    if dirs.Ok? {
      Files.ListingsDistinct(fs, dirs.value.1, VIDEO_EXTENSIONS);
    }
  }

  /** Every block is whole: four entries or none. */
  lemma BlockWhole(fs: Files.Tree, base: string, cat: string, orientation: string, d: Blocks.Draw)
    requires DrawFits(fs, base, cat, orientation, d)
    requires orientation == "hor" || orientation == "ver"
    ensures |Block(fs, base, cat, orientation, d).value| in {0, 4}
  {
    BlockShape(fs, base, cat, orientation, d);
  }

  /** `pick_block_for_category`: both pools are filtered, too small a pool
      gives no block, otherwise the sampled text video is followed by the
      three sampled plain videos. */
  method PickBlockForCategory(fs: Files.Tree, base: string, cat: string, orientation: string, d: Blocks.Draw)
    returns (r: Result<seq<string>>)
    requires DrawFits(fs, base, cat, orientation, d)
    ensures r == Block(fs, base, cat, orientation, d)
  {
    var dirs := CategoryDirs(base, cat, orientation);
    if dirs.Err? {
      return Err(dirs.error);
    }
    var texts := TextPool(fs, dirs.value);
    var vids := VidPool(fs, dirs.value);
    if |texts| < BLOCK_TEXT_COUNT {
      return Ok([]);
    }
    if |vids| < BLOCK_NO_TEXT_COUNT {
      return Ok([]);
    }
    var block := [];
    block := block + [texts[d.text]];
    block := block + Blocks.Take(vids, d.vids);
    assert block == Blocks.OneAndThree(texts, vids, d);
    return Ok(block);
  }

  // ---------------------------------------------------------------------
  // The long playlist
  // ---------------------------------------------------------------------

  /** What the random module supplies for one build: each round's order of
      the categories (a shuffled copy) and a draw per visit. */
  predicate Supplies(fs: Files.Tree, base: string, orientation: string, cats: seq<string>,
                     orders: seq<seq<string>>, draws: seq<seq<Blocks.Draw>>) {
    |orders| == ROUNDS && |draws| == ROUNDS
    && forall r :: 0 <= r < ROUNDS ==>
         multiset(orders[r]) == multiset(cats) && |draws[r]| == |orders[r]|
         && forall j :: 0 <= j < |orders[r]| ==> DrawFits(fs, base, orders[r][j], orientation, draws[r][j])
  }

  /** What `Supplies` says about round `i`. */
  lemma SuppliesRound(fs: Files.Tree, base: string, orientation: string, cats: seq<string>,
                      orders: seq<seq<string>>, draws: seq<seq<Blocks.Draw>>, i: nat)
    requires Supplies(fs, base, orientation, cats, orders, draws) && i < ROUNDS
    ensures |draws[i]| == |orders[i]| && multiset(orders[i]) == multiset(cats)
    ensures forall j :: 0 <= j < |orders[i]| ==> DrawFits(fs, base, orders[i][j], orientation, draws[i][j])
  {
  }

  /** The blocks of one round, in visiting order (empty for a skipped category). */
  function RoundBlocks(fs: Files.Tree, base: string, orientation: string, order: seq<string>, ds: seq<Blocks.Draw>): seq<seq<string>>
    requires (orientation == "hor" || orientation == "ver") && |ds| == |order|
    requires forall j :: 0 <= j < |order| ==> DrawFits(fs, base, order[j], orientation, ds[j])
  {
    seq(|order|, j requires 0 <= j < |order| => Block(fs, base, order[j], orientation, ds[j]).value)
  }

  function AllRounds(fs: Files.Tree, base: string, orientation: string, cats: seq<string>,
                     orders: seq<seq<string>>, draws: seq<seq<Blocks.Draw>>): (rounds: seq<seq<seq<string>>>)
    requires orientation == "hor" || orientation == "ver"
    requires Supplies(fs, base, orientation, cats, orders, draws)
    ensures |rounds| == ROUNDS
  {
    seq(ROUNDS, r requires 0 <= r < ROUNDS => RoundBlocks(fs, base, orientation, orders[r], draws[r]))
  }

  /** What `build_long_playlist` returns: the base directory missing
      raises; no category gives an empty list; a bad orientation raises at
      the first category; otherwise the blocks of every round, in order. */
  function LongPlaylist(fs: Files.Tree, base: string, orientation: string,
                        orders: seq<seq<string>>, draws: seq<seq<Blocks.Draw>>): Result<seq<string>>
    requires ListCategories(fs, base).Ok? ==>
               Supplies(fs, base, orientation, ListCategories(fs, base).value, orders, draws)
  {
    var listed := ListCategories(fs, base);
    if listed.Err? then Err(listed.error)
    else if listed.value == [] then Ok([])
    else if orientation != "hor" && orientation != "ver" then Err(ValueError)
    else Ok(Blocks.Concat2(AllRounds(fs, base, orientation, listed.value, orders, draws)))
  }

  /** `build_long_playlist` */
  method BuildLongPlaylist(fs: Files.Tree, base: string, orientation: string,
                           orders: seq<seq<string>>, draws: seq<seq<Blocks.Draw>>)
    returns (r: Result<seq<string>>)
    requires ListCategories(fs, base).Ok? ==>
               Supplies(fs, base, orientation, ListCategories(fs, base).value, orders, draws)
    ensures r == LongPlaylist(fs, base, orientation, orders, draws)
  {
    var listed := ListCategories(fs, base);
    if listed.Err? {
      return Err(listed.error);
    }
    var cats := listed.value;
    if cats == [] {
      return Ok([]);
    }
    if orientation != "hor" && orientation != "ver" {
      // the first `category_dirs` call raises
      return Err(ValueError);
    }
    var playlist := RunRounds(fs, base, orientation, cats, orders, draws);
    return Ok(playlist);
  }

  /** The outer loop of `build_long_playlist`. */
  method RunRounds(fs: Files.Tree, base: string, orientation: string, cats: seq<string>,
                   orders: seq<seq<string>>, draws: seq<seq<Blocks.Draw>>) returns (playlist: seq<string>)
    requires orientation == "hor" || orientation == "ver"
    requires Supplies(fs, base, orientation, cats, orders, draws)
    ensures playlist == Blocks.Concat2(AllRounds(fs, base, orientation, cats, orders, draws))
  {
    ghost var rounds := AllRounds(fs, base, orientation, cats, orders, draws);
    playlist := [];
    for i := 0 to ROUNDS
      invariant playlist == Blocks.Concat2(rounds[..i])
    {
      SuppliesRound(fs, base, orientation, cats, orders, draws, i);
      var roundCats := orders[i];
      playlist := AppendRound(playlist, fs, base, orientation, roundCats, draws[i]);
      Blocks.Concat2PrefixSnoc(rounds, i);
    }
    assert rounds[..ROUNDS] == rounds;
  }

  /** The inner loop of `build_long_playlist`: one round's categories in
      order, each adding its block when it has one. */
  method AppendRound(start: seq<string>, fs: Files.Tree, base: string, orientation: string,
                     roundCats: seq<string>, ds: seq<Blocks.Draw>) returns (playlist: seq<string>)
    requires (orientation == "hor" || orientation == "ver") && |ds| == |roundCats|
    requires forall j :: 0 <= j < |roundCats| ==> DrawFits(fs, base, roundCats[j], orientation, ds[j])
    ensures playlist == start + Blocks.Concat(RoundBlocks(fs, base, orientation, roundCats, ds))
  {
    ghost var blocks := RoundBlocks(fs, base, orientation, roundCats, ds);
    playlist := start;
    for j := 0 to |roundCats|
      invariant playlist == start + Blocks.Concat(blocks[..j])
    {
      var block := PickBlockForCategory(fs, base, roundCats[j], orientation, ds[j]);
      BlockOk(fs, base, roundCats[j], orientation, ds[j]);
      Blocks.ConcatPrefixExtend(start, playlist, blocks, j);
      if block.value != [] {
        playlist := playlist + block.value;
      }
    }
    assert blocks[..|roundCats|] == blocks;
  }

  /** The long playlist is made of whole blocks: four lines per category
      visit that had a full block, none for a skipped one; so its length is
      a multiple of four and at most four per category per round. */
  lemma LongPlaylistShape(fs: Files.Tree, base: string, orientation: string, cats: seq<string>,
                          orders: seq<seq<string>>, draws: seq<seq<Blocks.Draw>>)
    requires orientation == "hor" || orientation == "ver"
    requires Supplies(fs, base, orientation, cats, orders, draws)
    ensures var p := Blocks.Concat2(AllRounds(fs, base, orientation, cats, orders, draws));
            |p| % 4 == 0 && |p| <= 4 * ROUNDS * |cats|
  {
    var rounds := AllRounds(fs, base, orientation, cats, orders, draws);
    forall r | 0 <= r < |rounds|
      ensures |rounds[r]| == |cats| && Blocks.WholeBlocks(rounds[r])
    {
      assert |multiset(orders[r])| == |multiset(cats)|;
      forall j | 0 <= j < |rounds[r]|
        ensures |rounds[r][j]| == 0 || |rounds[r][j]| == 4
      {
        BlockWhole(fs, base, orders[r][j], orientation, draws[r][j]);
      }
    }
    Blocks.Concat2WholeBlocks(rounds, |cats|);
  }

  // ---------------------------------------------------------------------
  // The m3u file
  // ---------------------------------------------------------------------

  /** `write_m3u`: each path on its own line, in order. */
  method WriteM3u(paths: seq<string>) returns (text: string)
    ensures text == Text.Unframe(paths, '\n')
  {
    text := "";
    for i := 0 to |paths|
      invariant text == Text.Unframe(paths[..i], '\n')
    {
      Text.UnframeAppend(paths[..i], [paths[i]], '\n');
      assert paths[..i + 1] == paths[..i] + [paths[i]];
      text := text + paths[i] + "\n";
    }
    assert paths[..|paths|] == paths;
  }

  /** Reading the file back line by line gives the playlist again, provided
      no path holds a line break. */
  lemma M3uReadsBack(paths: seq<string>)
    requires forall k :: 0 <= k < |paths| ==> Text.Free(paths[k], '\n')
    ensures Text.Frame(Text.Unframe(paths, '\n'), '\n') == Text.Framed(paths, [])
  {
    Text.FrameUnframe(paths, [], '\n');
    assert Text.Unframe(paths, '\n') + [] == Text.Unframe(paths, '\n');
  }

  // ---------------------------------------------------------------------
  // Replies and the idle watch
  // ---------------------------------------------------------------------

  /** The part of a JSON value the watch looks at. */
  datatype Value = Bool(b: bool) | OtherValue

  /** A decoded reply: its `error` and `data` members, when present. */
  datatype Reply = Reply(error: Option<string>, data: Option<Value>)

  /** `get_property`: the reply's data when its error is "success", nothing
      otherwise (no reply, another error, or no data). */
  function GetProperty(reply: Option<Reply>): (r: Option<Value>)
    ensures r.Some? ==> reply.Some? && reply.value.error == Some("success") && reply.value.data == r
    ensures reply.Some? && reply.value.error == Some("success") ==> r == reply.value.data
  {
    if reply.Some? && reply.value.error == Some("success") then reply.value.data else None
  }

  /** `idle is True`: only a successful reply carrying the boolean true. */
  predicate IdleActive(reply: Option<Reply>) {
    GetProperty(reply) == Some(Bool(true))
  }

  /** An error reply or no reply never reads as idle. */
  lemma FailedReplyNotIdle(reply: Option<Reply>)
    requires reply.None? || reply.value.error != Some("success")
    ensures !IdleActive(reply)
  {
  }

  /** One observation of the watch loop: the time, the decoded reply to the
      `idle-active` query, and whether a reload would succeed if attempted. */
  datatype Observation = Observation(now: int, reply: Option<Reply>, reloadOk: bool)
  {
    /** mpv reported idle. */
    predicate Idle() {
      IdleActive(reply)
    }
  }

  /** Whether this observation attempts a reload. */
  predicate Attempts(idleSince: Option<int>, o: Observation) {
    o.Idle() && idleSince.Some? && o.now - idleSince.value > IDLE_MARGIN
  }

  /** `idle_since` after the observation. */
  function Next(idleSince: Option<int>, o: Observation): Option<int> {
    if !o.Idle() then None
    else if Attempts(idleSince, o) && o.reloadOk then None
    else if idleSince.None? then Some(o.now)
    else idleSince
  }

  function Watch(obs: seq<Observation>): Option<int> {
    if obs == [] then None else Next(Watch(obs[..|obs| - 1]), obs[|obs| - 1])
  }

  /** While `idle_since` is set it is the time of an earlier idle
      observation, and every observation since then was idle. */
  lemma {:induction false} WatchMeans(obs: seq<Observation>)
    ensures Watch(obs).Some? ==>
              exists j :: 0 <= j < |obs| && obs[j].now == Watch(obs).value
                          && forall k :: j <= k < |obs| ==> obs[k].Idle()
  {
    if obs != [] {
      var init := obs[..|obs| - 1];
      var last := obs[|obs| - 1];
      WatchMeans(init);
      if Watch(obs).Some? {
        if Watch(init).Some? && Watch(obs) == Watch(init) {
          var j :| 0 <= j < |init| && init[j].now == Watch(init).value
                   && forall k :: j <= k < |init| ==> init[k].Idle();
          assert forall k :: j <= k < |obs| ==> obs[k].Idle() by {
            forall k | j <= k < |obs| ensures obs[k].Idle() {
              if k < |init| { assert obs[k] == init[k]; }
            }
          }
        } else {
          assert obs[|obs| - 1].now == Watch(obs).value;
        }
      }
    }
  }

  /** Hence a reload is attempted only after mpv was seen idle at every
      observation of a stretch lasting more than the margin. */
  lemma ReloadOnlyAfterIdleStretch(obs: seq<Observation>, o: Observation)
    requires Attempts(Watch(obs), o)
    ensures exists j :: 0 <= j < |obs| && o.now - obs[j].now > IDLE_MARGIN
                        && forall k :: j <= k < |obs| ==> obs[k].Idle()
  {
    WatchMeans(obs);
  }

  /** The idle state of `playlist_manager_video`. */
  class IdleWatch {
    var idleSince: Option<int>

    constructor ()
      ensures idleSince == None
    {
      idleSince := None;
    }

    /** One pass of the loop: a non-idle reading clears the mark; an idle
        one sets it if unset, and once idleness has lasted more than the
        margin a reload is attempted, which clears the mark when it works. */
    method Observe(o: Observation) returns (attempted: bool)
      modifies this
      ensures attempted == Attempts(old(idleSince), o)
      ensures idleSince == Next(old(idleSince), o)
    {
      attempted := false;
      if o.Idle() {
        if idleSince.None? {
          idleSince := Some(o.now);
        }
        if o.now - idleSince.value > IDLE_MARGIN {
          attempted := true;
          if o.reloadOk {
            idleSince := None;
          }
        }
      } else {
        idleSince := None;
      }
    }
  }
}
