/** HyperObjectLumalogySingle/roleplayer-rotable.py: a stand-alone player for
    a screen mounted in one of four orientations. The orientation picks a
    rotation for mpv and the pair of directories the videos come from; the
    playlist is `ROUNDS` shuffled passes over the categories, one block per
    playable category, written to an m3u file unless it is empty. */
module RoleplayerRotable {
  import opened Wrappers
  import Text
  import Names
  import Blocks
  import Files
  import SinglePlayer

  /** One entry of `ORIENTATION_MAP`. */
  datatype Config = Config(rotation: nat, layout: SinglePlayer.Layout)

  /** `ORIENTATION_MAP[orientation]`, or nothing for an unknown key. */
  function OrientationMap(orientation: string): (r: Option<Config>)
    ensures r.Some? <==> orientation in {"hor", "ver", "inverted_hor", "inverted_ver"}
    ensures r.Some? ==> r.value.rotation in {0, 90, 180, 270}
    ensures r.Some? ==> r.value.layout.textDir == r.value.layout.videoDir + "_text"
  {
    match orientation
    case "hor" => Some(Config(0, SinglePlayer.Layout("hor_text", "hor")))
    case "ver" => Some(Config(90, SinglePlayer.Layout("ver_rotated_text", "ver_rotated")))
    case "inverted_hor" => Some(Config(180, SinglePlayer.Layout("hor_text", "hor")))
    case "inverted_ver" => Some(Config(270, SinglePlayer.Layout("ver_rotated_text", "ver_rotated")))
    case _ => None
  }

  /** An inverted mounting is the upright one turned half a turn: the same
      directories, the rotation 180 degrees further; the `hor` mountings
      read the horizontal directories and the `ver` ones the rotated ones. */
  lemma InvertedIsHalfTurn(o: string)
    requires o == "hor" || o == "ver"
    ensures OrientationMap("inverted_" + o).Some? && OrientationMap(o).Some?
    ensures OrientationMap("inverted_" + o).value.rotation == OrientationMap(o).value.rotation + 180
    ensures OrientationMap("inverted_" + o).value.layout == OrientationMap(o).value.layout
    ensures OrientationMap(o).value.layout == SinglePlayer.TwoWayLayout(o)
  {
    if o == "hor" {
      assert "inverted_" + o == "inverted_hor";
    } else {
      assert "inverted_" + o == "inverted_ver";
    }
  }

  /** The four mountings have four different rotations. */
  lemma RotationsDistinct(a: string, b: string)
    requires OrientationMap(a).Some? && OrientationMap(b).Some? && a != b
    ensures OrientationMap(a).value.rotation != OrientationMap(b).value.rotation
  {
  }

  /** `category_dirs`: both directories under the category, the text one
      being the video one with `_text` appended; an unknown orientation
      raises `KeyError`. */
  function CategoryDirs(base: string, cat: string, orientation: string): (r: Option<(string, string)>)
    ensures r.None? <==> OrientationMap(orientation).None?
    ensures r.Some? ==> Text.StartsWith(r.value.1, Names.PathJoin(base, cat) + "/")
                        && r.value.0 == r.value.1 + "_text"
    ensures r.Some? ==> r.value == SinglePlayer.Dirs(base, cat, OrientationMap(orientation).value.layout)
    ensures r.Some? ==> r.value.1 == Names.PathJoin(Names.PathJoin(base, cat),
                                                    if orientation in {"hor", "inverted_hor"} then "hor" else "ver_rotated")
  {
    var cfg := OrientationMap(orientation);
    if cfg.None? then None
    else
      var dirs := SinglePlayer.Dirs(base, cat, cfg.value.layout);
      assert dirs.0 == dirs.1 + "_text";
      Some(dirs)
  }

  /** What the random module supplies, whenever it is called. */
  predicate Supplied(fs: Files.Tree, base: string, orientation: string,
                     orders: seq<seq<string>>, draws: seq<seq<Blocks.Draw>>) {
    SinglePlayer.Categories(fs, base).Some? && OrientationMap(orientation).Some? ==>
      SinglePlayer.Supplies(fs, base, OrientationMap(orientation).value.layout,
                            SinglePlayer.Categories(fs, base).value, orders, draws)
  }

  /** What `build_playlist` returns: a missing base directory raises
      `FileNotFoundError`; no category gives no lines; an unknown
      orientation raises `KeyError` at the first category; otherwise the
      lines of every round. */
  function Build(fs: Files.Tree, base: string, orientation: string,
                 orders: seq<seq<string>>, draws: seq<seq<Blocks.Draw>>): SinglePlayer.Result<seq<string>>
    requires Supplied(fs, base, orientation, orders, draws)
  {
    var cats := SinglePlayer.Categories(fs, base);
    if cats.None? then SinglePlayer.Err(SinglePlayer.FileNotFoundError)
    else if cats.value == [] then SinglePlayer.Ok([])
    else if OrientationMap(orientation).None? then SinglePlayer.Err(SinglePlayer.KeyError)
    else SinglePlayer.Ok(SinglePlayer.Playlist(fs, base, OrientationMap(orientation).value.layout, cats.value, orders, draws))
  }

  /** `build_playlist` */
  method BuildPlaylist(fs: Files.Tree, base: string, orientation: string,
                       orders: seq<seq<string>>, draws: seq<seq<Blocks.Draw>>)
    returns (r: SinglePlayer.Result<seq<string>>)
    requires Supplied(fs, base, orientation, orders, draws)
    ensures r == Build(fs, base, orientation, orders, draws)
  {
    var cats := SinglePlayer.Categories(fs, base);
    if cats.None? {
      return SinglePlayer.Err(SinglePlayer.FileNotFoundError);
    }
    if cats.value == [] {
      return SinglePlayer.Ok([]);
    }
    var cfg := OrientationMap(orientation);
    if cfg.None? {
      return SinglePlayer.Err(SinglePlayer.KeyError);
    }
    var lines := SinglePlayer.BuildLines(fs, base, cfg.value.layout, cats.value, orders, draws);
    return SinglePlayer.Ok(lines);
  }

  /** The lines are whole blocks, at most four per category per round, and
      there are none exactly when no category has a text video and three
      videos. */
  lemma BuildShape(fs: Files.Tree, base: string, orientation: string,
                   orders: seq<seq<string>>, draws: seq<seq<Blocks.Draw>>)
    requires Supplied(fs, base, orientation, orders, draws)
    ensures var r := Build(fs, base, orientation, orders, draws);
            (r.Err? <==> base !in fs || (SinglePlayer.Categories(fs, base).value != [] && OrientationMap(orientation).None?))
    ensures var r := Build(fs, base, orientation, orders, draws);
            r.Ok? ==> var cats := SinglePlayer.Categories(fs, base).value;
                      |r.value| % 4 == 0 && |r.value| <= 4 * SinglePlayer.ROUNDS * |cats|
                      && (r.value == [] <==> cats == [] || forall c :: c in cats ==>
                            !SinglePlayer.Playable(fs, base, c, OrientationMap(orientation).value.layout))
  {
    var cats := SinglePlayer.Categories(fs, base);
    if cats.Some? && cats.value != [] && OrientationMap(orientation).Some? {
      var layout := OrientationMap(orientation).value.layout;
      SinglePlayer.PlaylistShape(fs, base, layout, cats.value, orders, draws);
      SinglePlayer.EmptyIffNothingPlayable(fs, base, layout, cats.value, orders, draws);
    }
  }

  /** `write_playlist`: the playlist is built (its exceptions propagate),
      then written unless empty; the result says whether it was written. */
  method WritePlaylist(fs: Files.Tree, base: string, orientation: string,
                       orders: seq<seq<string>>, draws: seq<seq<Blocks.Draw>>)
    returns (r: SinglePlayer.Result<bool>, file: Option<string>)
    requires Supplied(fs, base, orientation, orders, draws)
    ensures var built := Build(fs, base, orientation, orders, draws);
            (built.Err? ==> r == SinglePlayer.Err(built.error) && file == None)
            && (built.Ok? ==> r == SinglePlayer.Ok(built.value != [])
                              && file == (if built.value == [] then None else Some(Text.Unframe(built.value, '\n'))))
  {
    var lines := BuildPlaylist(fs, base, orientation, orders, draws);
    if lines.Err? {
      return SinglePlayer.Err(lines.error), None;
    }
    var ok;
    ok, file := SinglePlayer.WritePlaylist(lines.value);
    return SinglePlayer.Ok(ok), file;
  }
}
