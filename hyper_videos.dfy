/** What the two HyperObject scripts (HyperObject/leader2_modify.py and
    HyperObject/follower2_org.py) both define: the rotated video directories
    of a category, `pick_videos` (a one-block list, or an empty list), and
    `generate_playlist`, which writes every block's items one per line. */
module HyperVideos {
  import Text
  import Names
  import Blocks
  import Files

  const VIDEO_EXTENSIONS: seq<string> := [".mp4", ".mov"]

  function TextDir(base: string, cat: string): string {
    Names.PathJoin(Names.PathJoin(base, cat), "ver_rotated_text")
  }

  function VideoDir(base: string, cat: string): string {
    Names.PathJoin(Names.PathJoin(base, cat), "ver_rotated")
  }

  /** The bare video names of a directory, in listing order. */
  function Listed(fs: Files.Tree, dir: string): seq<string> {
    Files.ListVideos(fs, dir, VIDEO_EXTENSIONS)
  }

  /** What the random module returns for one call of `pick_videos`: the
      `choice`/`sample(videos, 3)` draw of the block with text, and the
      positions `sample(videos, 4)` takes for the block without text. */
  datatype Pick = Pick(block: Blocks.Draw, four: seq<nat>)

  predicate PickFits(fs: Files.Tree, base: string, cat: string, p: Pick) {
    var texts := |Listed(fs, TextDir(base, cat))|;
    var vids := |Listed(fs, VideoDir(base, cat))|;
    Blocks.Fits(p.block, texts, vids, 1, 3)
    && (vids >= 4 ==> Blocks.DistinctIndices(p.four, vids, 4))
  }

  /** Both directories exist and hold enough videos for the requested
      variant: a text video and three videos, or four videos. */
  predicate Playable(fs: Files.Tree, base: string, cat: string, includeText: bool) {
    TextDir(base, cat) in fs && VideoDir(base, cat) in fs
    && if includeText then |Listed(fs, TextDir(base, cat))| >= 1 && |Listed(fs, VideoDir(base, cat))| >= 3
       else |Listed(fs, VideoDir(base, cat))| >= 4
  }

  /** `pick_videos(categoria, include_text)`: a list holding one block, or
      an empty list. */
  function PickVideos(fs: Files.Tree, base: string, cat: string, includeText: bool, p: Pick): (r: seq<seq<string>>)
    requires PickFits(fs, base, cat, p)
    ensures r == [] <==> !Playable(fs, base, cat, includeText)
    ensures r != [] ==> |r| == 1 && |r[0]| == 4
  {
    var td := TextDir(base, cat);
    var vd := VideoDir(base, cat);
    if td !in fs || vd !in fs then []
    else
      var textos := Listed(fs, td);
      var videos := Listed(fs, vd);
      if includeText && |textos| >= 1 && |videos| >= 3 then
        [[Names.PathJoin(td, textos[p.block.text])] + Names.JoinAll(vd, Blocks.Take(videos, p.block.vids))]
      else if !includeText && |videos| >= 4 then
        [Names.JoinAll(vd, Blocks.Take(videos, p.four))]
      else []
  }

  /** The block is made of the category's own videos: with text, a text
      video followed by three videos; without, four videos. In a tree whose
      listings repeat no name the videos of a block are pairwise different. */
  lemma PickVideosShape(fs: Files.Tree, base: string, cat: string, includeText: bool, p: Pick)
    requires PickFits(fs, base, cat, p)
    ensures var r := PickVideos(fs, base, cat, includeText, p);
            var texts := Names.JoinAll(TextDir(base, cat), Listed(fs, TextDir(base, cat)));
            var vids := Names.JoinAll(VideoDir(base, cat), Listed(fs, VideoDir(base, cat)));
            r != [] ==>
              (includeText ==> Blocks.IsBlock(r[0], texts, vids))
              && (!includeText ==> (forall k :: 0 <= k < 4 ==> r[0][k] in vids)
                                   && (Files.WellFormed(fs) ==> Blocks.Distinct(r[0])))
              && (includeText && Files.WellFormed(fs) ==> Blocks.Distinct(r[0][1..]))
  {
    var td := TextDir(base, cat);
    var vd := VideoDir(base, cat);
    var r := PickVideos(fs, base, cat, includeText, p);
    if r != [] {
      var texts := Names.JoinAll(td, Listed(fs, td));
      var vids := Names.JoinAll(vd, Listed(fs, vd));
      var idx := if includeText then p.block.vids else p.four;
      var chosen := Blocks.Take(Listed(fs, vd), idx);
      assert Blocks.Take(vids, idx) == Names.JoinAll(vd, chosen);
      if includeText {
        assert r[0] == Blocks.OneAndThree(texts, vids, p.block);
      } else {
        assert r[0] == Blocks.Take(vids, p.four);
      }
      if Files.WellFormed(fs) {
        Files.ListingsDistinct(fs, vd, VIDEO_EXTENSIONS);
        Files.JoinAllDistinct(vd, Listed(fs, vd));
        Blocks.TakeFromDistinct(vids, idx, |idx|);
      }
    }
  }

  /** `generate_playlist`: for every block, every video on its own line. */
  method GeneratePlaylist(blocks: seq<seq<string>>) returns (text: string)
    ensures text == Text.Unframe(Blocks.Concat(blocks), '\n')
  {
    text := "";
    ghost var written: seq<string> := [];
    for b := 0 to |blocks|
      invariant written == Blocks.Concat(blocks[..b])
      invariant text == Text.Unframe(written, '\n')
    {
      for v := 0 to |blocks[b]|
        invariant written == Blocks.Concat(blocks[..b]) + blocks[b][..v]
        invariant text == Text.Unframe(written, '\n')
      {
        Text.UnframeAppend(written, [blocks[b][v]], '\n');
        assert blocks[b][..v + 1] == blocks[b][..v] + [blocks[b][v]];
        written := written + [blocks[b][v]];
        text := text + blocks[b][v] + "\n";
      }
      assert blocks[b][..|blocks[b]|] == blocks[b];
      Blocks.ConcatAppend(blocks[..b], [blocks[b]]);
      assert blocks[..b + 1] == blocks[..b] + [blocks[b]];
    }
    assert blocks[..|blocks|] == blocks;
  }

  /** Reading the playlist back line by line gives every block's videos in
      order, provided no path holds a line break. */
  lemma PlaylistReadsBack(blocks: seq<seq<string>>)
    requires forall k :: 0 <= k < |Blocks.Concat(blocks)| ==> Text.Free(Blocks.Concat(blocks)[k], '\n')
    ensures Text.Frame(Text.Unframe(Blocks.Concat(blocks), '\n'), '\n') == Text.Framed(Blocks.Concat(blocks), [])
  {
    Text.FrameUnframe(Blocks.Concat(blocks), [], '\n');
    assert Text.Unframe(Blocks.Concat(blocks), '\n') + [] == Text.Unframe(Blocks.Concat(blocks), '\n');
  }
}
