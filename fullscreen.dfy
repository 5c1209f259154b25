/** HyperObjectLumalogySingle/roleplayer-fullscreen.py: a stand-alone player
    that fills the screen. The orientation only chooses between the
    horizontal and the rotated directories; the playlist is `ROUNDS`
    shuffled passes over the categories, one block per playable category,
    written to an m3u file unless it is empty. */
module RoleplayerFullscreen {
  import opened Wrappers
  import Text
  import Names
  import Blocks
  import Files
  import SinglePlayer

  /** `category_dirs`: `hor_text`/`hor` for "hor", the rotated pair for any
      other orientation; the text directory is the video directory with
      `_text` appended. */
  function CategoryDirs(base: string, cat: string, orientation: string): (r: (string, string))
    ensures Text.StartsWith(r.1, Names.PathJoin(base, cat) + "/")
    ensures r.0 == r.1 + "_text"
    ensures r.1 == Names.PathJoin(Names.PathJoin(base, cat), if orientation == "hor" then "hor" else "ver_rotated")
  {
    var dirs := SinglePlayer.Dirs(base, cat, SinglePlayer.TwoWayLayout(orientation));
    assert dirs.0 == dirs.1 + "_text";
    dirs
  }

  predicate Supplied(fs: Files.Tree, base: string, orientation: string,
                     orders: seq<seq<string>>, draws: seq<seq<Blocks.Draw>>) {
    SinglePlayer.Categories(fs, base).Some? ==>
      SinglePlayer.Supplies(fs, base, SinglePlayer.TwoWayLayout(orientation),
                            SinglePlayer.Categories(fs, base).value, orders, draws)
  }

  /** What `build_playlist` returns: a missing base directory raises
      `FileNotFoundError`; otherwise the lines of every round. */
  function Build(fs: Files.Tree, base: string, orientation: string,
                 orders: seq<seq<string>>, draws: seq<seq<Blocks.Draw>>): SinglePlayer.Result<seq<string>>
    requires Supplied(fs, base, orientation, orders, draws)
  {
    var cats := SinglePlayer.Categories(fs, base);
    if cats.None? then SinglePlayer.Err(SinglePlayer.FileNotFoundError)
    else SinglePlayer.Ok(SinglePlayer.Playlist(fs, base, SinglePlayer.TwoWayLayout(orientation), cats.value, orders, draws))
  }

  /** `build_playlist` */
  method BuildPlaylist(fs: Files.Tree, base: string, orientation: string,
                       orders: seq<seq<string>>, draws: seq<seq<Blocks.Draw>>)
    returns (r: SinglePlayer.Result<seq<string>>)
    requires Supplied(fs, base, orientation, orders, draws)
    ensures r == Build(fs, base, orientation, orders, draws)
  {
    var cats := SinglePlayer.Categories(fs, base);
    if cats.None? {
      return SinglePlayer.Err(SinglePlayer.FileNotFoundError);
    }
    var lines := SinglePlayer.BuildLines(fs, base, SinglePlayer.TwoWayLayout(orientation), cats.value, orders, draws);
    return SinglePlayer.Ok(lines);
  }

  /** The lines are whole blocks, at most four per category per round, and
      there are none exactly when no category has a text video and three
      videos. */
  lemma BuildShape(fs: Files.Tree, base: string, orientation: string,
                   orders: seq<seq<string>>, draws: seq<seq<Blocks.Draw>>)
    requires Supplied(fs, base, orientation, orders, draws)
    ensures var r := Build(fs, base, orientation, orders, draws);
            (r.Err? <==> base !in fs)
            && (r.Ok? ==> var cats := SinglePlayer.Categories(fs, base).value;
                          |r.value| % 4 == 0 && |r.value| <= 4 * SinglePlayer.ROUNDS * |cats|
                          && (r.value == [] <==> forall c :: c in cats ==>
                                !SinglePlayer.Playable(fs, base, c, SinglePlayer.TwoWayLayout(orientation))))
  {
    var cats := SinglePlayer.Categories(fs, base);
    if cats.Some? {
      var layout := SinglePlayer.TwoWayLayout(orientation);
      SinglePlayer.PlaylistShape(fs, base, layout, cats.value, orders, draws);
      SinglePlayer.EmptyIffNothingPlayable(fs, base, layout, cats.value, orders, draws);
    }
  }

  /** `write_playlist`: the playlist is built (a missing base directory
      propagates), then written unless empty; the result says whether it
      was written. */
  method WritePlaylist(fs: Files.Tree, base: string, orientation: string,
                       orders: seq<seq<string>>, draws: seq<seq<Blocks.Draw>>)
    returns (r: SinglePlayer.Result<bool>, file: Option<string>)
    requires Supplied(fs, base, orientation, orders, draws)
    ensures var built := Build(fs, base, orientation, orders, draws);
            (built.Err? ==> r == SinglePlayer.Err(built.error) && file == None)
            && (built.Ok? ==> r == SinglePlayer.Ok(built.value != [])
                              && file == (if built.value == [] then None else Some(Text.Unframe(built.value, '\n'))))
  {
    var lines := BuildPlaylist(fs, base, orientation, orders, draws);
    if lines.Err? {
      return SinglePlayer.Err(lines.error), None;
    }
    var ok;
    ok, file := SinglePlayer.WritePlaylist(lines.value);
    return SinglePlayer.Ok(ok), file;
  }
}
