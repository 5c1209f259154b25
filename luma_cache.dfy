/** What the two HyperObjectLumalogy nodes share: the per-category cache of
    video pools read once at start-up, the block a cached category yields,
    and the audio track a host picks from the audio directory. */
module LumaCache {
  import opened Wrappers
  import Names
  import Blocks
  import Files
  import Decimal

  const VIDEO_EXTENSIONS: seq<string> := [".mp4", ".mov"]
  const AUDIO_EXTENSIONS: seq<string> := [".mp3", ".wav", ".ogg"]

  /** `{"text": [...], "videos": [...]}` */
  datatype Pools = Pools(text: seq<string>, videos: seq<string>)

  type Cache = map<string, Pools>

  /** `[os.path.join(d, f) for f in os.listdir(d) if is_valid_video(f)]`,
      or nothing when `d` does not exist. */
  function Videos(fs: Files.Tree, dir: string): seq<string> {
    Names.JoinAll(dir, Files.ListVideos(fs, dir, VIDEO_EXTENSIONS))
  }

  function TextDir(base: string, cat: string): string {
    Names.PathJoin(Names.PathJoin(base, cat), "hor_text")
  }

  function VideoDir(base: string, cat: string): string {
    Names.PathJoin(Names.PathJoin(base, cat), "hor")
  }

  /** The cache entry of one category: the videos of `hor_text` and `hor`. */
  function CategoryPools(fs: Files.Tree, base: string, cat: string): Pools {
    Pools(Videos(fs, TextDir(base, cat)), Videos(fs, VideoDir(base, cat)))
  }

  /** Every cached path is a video file of the directory it was listed from,
      and in a well-formed tree no path is cached twice in one pool. */
  lemma CategoryPoolsFrom(fs: Files.Tree, base: string, cat: string)
    ensures forall p :: p in CategoryPools(fs, base, cat).text ==>
              exists n :: n in Files.ListVideos(fs, TextDir(base, cat), VIDEO_EXTENSIONS)
                          && p == Names.PathJoin(TextDir(base, cat), n)
    ensures forall p :: p in CategoryPools(fs, base, cat).videos ==>
              exists n :: n in Files.ListVideos(fs, VideoDir(base, cat), VIDEO_EXTENSIONS)
                          && p == Names.PathJoin(VideoDir(base, cat), n)
    ensures Files.WellFormed(fs) ==>
              Blocks.Distinct(CategoryPools(fs, base, cat).text)
              && Blocks.Distinct(CategoryPools(fs, base, cat).videos)
  {
    var pools := CategoryPools(fs, base, cat);
    forall p | p in pools.text
      ensures exists n :: n in Files.ListVideos(fs, TextDir(base, cat), VIDEO_EXTENSIONS)
                          && p == Names.PathJoin(TextDir(base, cat), n)
    {
      var i :| 0 <= i < |pools.text| && pools.text[i] == p;
      assert Files.ListVideos(fs, TextDir(base, cat), VIDEO_EXTENSIONS)[i] in
             Files.ListVideos(fs, TextDir(base, cat), VIDEO_EXTENSIONS);
    }
    forall p | p in pools.videos
      ensures exists n :: n in Files.ListVideos(fs, VideoDir(base, cat), VIDEO_EXTENSIONS)
                          && p == Names.PathJoin(VideoDir(base, cat), n)
    {
      var i :| 0 <= i < |pools.videos| && pools.videos[i] == p;
      assert Files.ListVideos(fs, VideoDir(base, cat), VIDEO_EXTENSIONS)[i] in
             Files.ListVideos(fs, VideoDir(base, cat), VIDEO_EXTENSIONS);
    }
    if Files.WellFormed(fs) {
      Files.ListingsDistinct(fs, TextDir(base, cat), VIDEO_EXTENSIONS);
      Files.ListingsDistinct(fs, VideoDir(base, cat), VIDEO_EXTENSIONS);
      Files.JoinAllDistinct(TextDir(base, cat), Files.ListVideos(fs, TextDir(base, cat), VIDEO_EXTENSIONS));
      Files.JoinAllDistinct(VideoDir(base, cat), Files.ListVideos(fs, VideoDir(base, cat), VIDEO_EXTENSIONS));
    }
  }

  /** The draw is usable for the category whenever the code draws. */
  predicate DrawFits(cache: Cache, cat: string, d: Blocks.Draw) {
    cat in cache ==> Blocks.Fits(d, |cache[cat].text|, |cache[cat].videos|, 1, 3)
  }

  /** `make_playlist`: the items written to the temporary m3u, or `None`
      for a category that is not cached or lacks a text video or three
      videos. */
  function MakePlaylist(cache: Cache, cat: string, d: Blocks.Draw): (r: Option<seq<string>>)
    requires DrawFits(cache, cat, d)
    ensures r.None? <==> cat !in cache || |cache[cat].text| < 1 || |cache[cat].videos| < 3
    ensures r.Some? ==> Blocks.IsBlock(r.value, cache[cat].text, cache[cat].videos)
  {
    if cat !in cache then None
    else
      var b := Blocks.OneAndThree(cache[cat].text, cache[cat].videos, d);
      if b == [] then None else Some(b)
  }

  /** The audio file names of a directory, in listing order. */
  function AudioNames(fs: Files.Tree, dir: string): seq<string> {
    Names.KeepExtensions(Files.NamesOf(Files.Listing(fs, dir)), AUDIO_EXTENSIONS)
  }

  /** `os.path.join(dir, audios[sum(ord(c) for c in host) % len(audios)])`,
      or `None` when there is no audio file. */
  function HostTrack(dir: string, audios: seq<string>, host: string): (r: Option<string>)
    ensures r.None? <==> audios == []
    ensures r.Some? ==> r.value in Names.JoinAll(dir, audios)
  {
    if audios == [] then None
    else
      var i := Decimal.HostIndex(host, |audios|);
      assert Names.JoinAll(dir, audios)[i] == Names.PathJoin(dir, audios[i]);
      Some(Names.PathJoin(dir, audios[i]))
  }
}
