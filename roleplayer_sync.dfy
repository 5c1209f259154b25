/** The synchronised roleplayer: one persistent mpv per node, a category
    playlist of `ROUNDS` shuffles, and either the leader's round loop (role
    0) or a follower that plays the leader's `PLAY:<idx>` and reports
    `DONE:<idx>`, falling back to playing on its own when no leader has been
    heard from recently. Each loop iteration and each received datagram is
    one atomic step; a blocking wait reads a finite sequence of arrivals and
    reports when the source would still be waiting at their end. */
module RoleplayerSync {
  import opened Wrappers
  import Text
  import Decimal
  import Names
  import Blocks
  import Files
  import Mpv = MpvController

  const ROUNDS: nat := 100
  /** A follower plays on its own when the leader was last heard this many
      milliseconds ago or earlier. */
  const LEADER_TIMEOUT: int := 6000
  const VIDEO_EXTENSIONS: seq<string> := [".mp4", ".mov", ".mkv"]

  // ---------------------------------------------------------------------
  // Orientation and directories
  // ---------------------------------------------------------------------

  datatype Orientation = Hor | Ver | InvertedHor | InvertedVer

  datatype Layout = Layout(rotation: int, textDir: string, videoDir: string)

  function OrientationMap(o: Orientation): Layout {
    match o
    case Hor => Layout(0, "hor_text", "hor")
    case Ver => Layout(0, "ver_rotated_text", "ver_rotated")
    case InvertedHor => Layout(180, "hor_text", "hor")
    case InvertedVer => Layout(180, "ver_rotated_text", "ver_rotated")
  }

  function Upright(o: Orientation): Orientation {
    match o
    case InvertedHor => Hor
    case InvertedVer => Ver
    case _ => o
  }

  /** An inverted screen shows the same material as its upright form, only
      turned by 180 degrees; upright screens are not turned (vertical videos
      come already rotated). */
  lemma InvertedOnlyRotates(o: Orientation)
    ensures OrientationMap(o).textDir == OrientationMap(Upright(o)).textDir
    ensures OrientationMap(o).videoDir == OrientationMap(Upright(o)).videoDir
    ensures OrientationMap(Upright(o)).rotation == 0
    ensures OrientationMap(o).rotation == (if o == Upright(o) then 0 else 180)
  {
  }

  /** `category_dirs`: the text and plain directories of a category. */
  function CategoryDirs(base: string, cat: string, o: Orientation): (string, string) {
    var l := OrientationMap(o);
    (Names.PathJoin(Names.PathJoin(base, cat), l.textDir),
     Names.PathJoin(Names.PathJoin(base, cat), l.videoDir))
  }

  function TextPool(fs: Files.Tree, base: string, cat: string, o: Orientation): seq<string> {
    Files.VideoPaths(fs, CategoryDirs(base, cat, o).0, VIDEO_EXTENSIONS)
  }

  function VidPool(fs: Files.Tree, base: string, cat: string, o: Orientation): seq<string> {
    Files.VideoPaths(fs, CategoryDirs(base, cat, o).1, VIDEO_EXTENSIONS)
  }

  predicate DrawFits(fs: Files.Tree, base: string, cat: string, o: Orientation, d: Blocks.Draw) {
    Blocks.Fits(d, |TextPool(fs, base, cat, o)|, |VidPool(fs, base, cat, o)|, 1, 3)
  }

  /** `pick_block`: nothing when the category lacks a text video or three
      plain videos; otherwise a text video followed by three plain videos of
      the category, pairwise different. */
  function PickBlock(fs: Files.Tree, base: string, cat: string, o: Orientation, d: Blocks.Draw): (b: seq<string>)
    requires DrawFits(fs, base, cat, o, d)
    ensures b == [] <==> (TextPool(fs, base, cat, o) == [] || |VidPool(fs, base, cat, o)| < 3)
    ensures b != [] ==> Blocks.IsBlock(b, TextPool(fs, base, cat, o), VidPool(fs, base, cat, o))
    ensures b != [] && Files.WellFormed(fs) ==> Blocks.Distinct(b[1..])
  {
    Files.ListingsDistinct(fs, CategoryDirs(base, cat, o).1, VIDEO_EXTENSIONS);
    Blocks.OneAndThree(TextPool(fs, base, cat, o), VidPool(fs, base, cat, o), d)
  }

  /** `all_categories`: the sub-directories of the base, none when it is missing. */
  function AllCategories(fs: Files.Tree, base: string): seq<string> {
    if base in fs then Files.SubDirs(fs[base]) else []
  }

  // ---------------------------------------------------------------------
  // The category playlist
  // ---------------------------------------------------------------------

  /** The orders `random.shuffle` leaves the category list in, one per round. */
  predicate Shuffles(orders: seq<seq<string>>, cats: seq<string>) {
    |orders| == ROUNDS && forall r :: 0 <= r < |orders| ==> multiset(orders[r]) == multiset(cats)
  }

  /** `build_category_playlist`: every round's shuffled order, one after the other. */
  method BuildCategoryPlaylist(fs: Files.Tree, base: string, orders: seq<seq<string>>) returns (out: seq<string>)
    requires Shuffles(orders, AllCategories(fs, base))
    ensures out == Blocks.Concat(orders)
  {
    var cats := AllCategories(fs, base);
    if cats == [] {
      EmptyRounds(orders);
      return [];
    }
    out := [];
    for r := 0 to ROUNDS
      invariant out == Blocks.Concat(orders[..r])
    {
      cats := orders[r];
      Blocks.ConcatAppend(orders[..r], [cats]);
      assert orders[..r + 1] == orders[..r] + [cats];
      assert Blocks.Concat([cats]) == cats;
      out := out + cats;
    }
    assert orders[..ROUNDS] == orders;
  }

  lemma {:induction false} EmptyRounds(orders: seq<seq<string>>)
    requires forall r :: 0 <= r < |orders| ==> orders[r] == []
    ensures Blocks.Concat(orders) == []
  {
    if orders != [] {
      EmptyRounds(orders[1..]);
    }
  }

  /** The `r`-th stretch of `n` entries of a playlist. */
  function Round(playlist: seq<string>, n: nat, r: nat): seq<string> {
    if r * n <= (r + 1) * n <= |playlist| then playlist[r * n..(r + 1) * n] else []
  }

  lemma {:induction false} MulBelow(r: nat, k: nat, n: nat)
    requires r < k
    ensures (r + 1) * n <= k * n
    decreases k
  {
    if k > r + 1 {
      MulBelow(r, k - 1, n);
      Blocks.MulSucc(k - 1, n);
    }
  }

  lemma {:induction false} RoundsLength(orders: seq<seq<string>>, n: nat)
    requires forall r :: 0 <= r < |orders| ==> |orders[r]| == n
    ensures |Blocks.Concat(orders)| == |orders| * n
  {
    if orders != [] {
      RoundsLength(orders[1..], n);
      Blocks.MulSucc(|orders| - 1, n);
    }
  }

  /** Round `r` occupies the `r`-th stretch of `n` entries. */
  lemma {:induction false} RoundsStretch(orders: seq<seq<string>>, n: nat, r: nat)
    requires forall k :: 0 <= k < |orders| ==> |orders[k]| == n
    requires r < |orders|
    ensures (r + 1) * n <= |Blocks.Concat(orders)|
    ensures Blocks.Concat(orders)[r * n..(r + 1) * n] == orders[r]
  {
    RoundsLength(orders, n);
    MulBelow(r, |orders|, n);
    var tail := Blocks.Concat(orders[1..]);
    var whole := Blocks.Concat(orders);
    assert whole == orders[0] + tail;
    if r == 0 {
      assert whole[..n] == orders[0];
    } else {
      RoundsStretch(orders[1..], n, r - 1);
      Blocks.MulSucc(r - 1, n);
      Blocks.MulSucc(r, n);
      assert whole[r * n..(r + 1) * n] == tail[(r - 1) * n..r * n];
    }
  }

  lemma {:induction false} RoundsCount(orders: seq<seq<string>>, cats: seq<string>, c: string)
    requires forall r :: 0 <= r < |orders| ==> multiset(orders[r]) == multiset(cats)
    ensures multiset(Blocks.Concat(orders))[c] == |orders| * multiset(cats)[c]
  {
    if orders != [] {
      RoundsCount(orders[1..], cats, c);
      assert multiset(Blocks.Concat(orders)) == multiset(orders[0]) + multiset(Blocks.Concat(orders[1..]));
      assert |orders| * multiset(cats)[c] == multiset(cats)[c] + (|orders| - 1) * multiset(cats)[c];
    }
  }

  /** The playlist is empty exactly when there is no category; otherwise it
      holds `ROUNDS` stretches of one permutation of the categories each, so
      each category `ROUNDS` times. */
  lemma CategoryPlaylist(orders: seq<seq<string>>, cats: seq<string>)
    requires Shuffles(orders, cats)
    ensures Blocks.Concat(orders) == [] <==> cats == []
    ensures |Blocks.Concat(orders)| == ROUNDS * |cats|
    ensures forall r :: 0 <= r < ROUNDS ==> multiset(Round(Blocks.Concat(orders), |cats|, r)) == multiset(cats)
    ensures forall c :: multiset(Blocks.Concat(orders))[c] == ROUNDS * multiset(cats)[c]
  {
    var n := |cats|;
    forall r | 0 <= r < |orders|
      ensures |orders[r]| == n
    {
      assert |multiset(orders[r])| == |multiset(cats)|;
    }
    RoundsLength(orders, n);
    forall r | 0 <= r < ROUNDS
      ensures multiset(Round(Blocks.Concat(orders), n, r)) == multiset(cats)
    {
      RoundsStretch(orders, n, r);
      Blocks.MulSucc(r, n);
    }
    forall c
      ensures multiset(Blocks.Concat(orders))[c] == ROUNDS * multiset(cats)[c]
    {
      RoundsCount(orders, cats, c);
    }
  }

  // ---------------------------------------------------------------------
  // Messages
  // ---------------------------------------------------------------------

  function PlayMessage(idx: int): string { "PLAY:" + Decimal.Format(idx) }
  function DoneMessage(idx: int): string { "DONE:" + Decimal.Format(idx) }

  function RegisterMessage(host: string, role: nat): string {
    "REGISTER:" + host + ":ROLE=" + Decimal.Format(role)
  }

  /** The index after `tag` in a stripped message, `None` when the tag is
      missing or the rest is not an integer (`int(msg.split(":", 1)[1])`). */
  function TaggedIndex(msg: string, tag: string): Option<int> {
    var m := Text.Strip(msg);
    if Text.StartsWith(m, tag) then Decimal.ParseInt(Text.After(m, tag)) else None
  }

  /** What a node sends under a tag, the receiver reads back. */
  lemma TaggedRoundTrip(tag: string, n: int)
    requires tag == "PLAY:" || tag == "DONE:"
    ensures TaggedIndex(tag + Decimal.Format(n), tag) == Some(n)
  {
    var s := tag + Decimal.Format(n);
    var f := Decimal.Format(n);
    assert s[|s| - 1] == f[|f| - 1];
    assert Decimal.IsDigit(f[|f| - 1]);
    Text.StripUnpadded(s);
    assert Text.StartsWith(s, tag);
    assert Text.After(s, tag) == f;
    Decimal.ParseFormat(n);
  }

  /** A follower's `DONE:<i>` counts for the leader's current index `idx`
      exactly when `i` is that index. */
  lemma DoneMatchesOnlyItsRound(i: int, idx: int)
    ensures TaggedIndex(DoneMessage(i), "DONE:") == Some(idx) <==> i == idx
  {
    TaggedRoundTrip("DONE:", i);
  }

  /** A follower reads back the index the leader broadcast. */
  lemma PlayRoundTrip(i: int)
    ensures TaggedIndex(PlayMessage(i), "PLAY:") == Some(i)
  {
    TaggedRoundTrip("PLAY:", i);
  }

  /** A DONE whose payload holds no digit reads as no index at all, so it
      matches no round. */
  lemma NonIntegerDone(p: string)
    requires Decimal.NoDigit(p)
    ensures TaggedIndex("DONE:" + p, "DONE:") == None
  {
    var msg := "DONE:" + p;
    var m := Text.Strip(msg);
    if Text.StartsWith(m, "DONE:") {
      Text.StripKeeps(msg);
      var rest := Text.After(m, "DONE:");
      var k := |msg| - |Text.TrimLeft(msg)|;
      forall i | 0 <= i < |rest|
        ensures !Decimal.IsDigit(rest[i])
      {
        assert rest[i] == m[5 + i] == msg[k + 5 + i];
      }
      Decimal.NoDigitNoInt(rest);
    }
  }

  // ---------------------------------------------------------------------
  // The leader's race between its own completion and a follower's DONE
  // ---------------------------------------------------------------------

  /** What reaches the leader while a round plays. */
  datatype Arrival = DoneDatagram(text: string) | EngineChunk(bytes: seq<Mpv.byte>)

  datatype Race = Race(firstDone: bool, reader: Mpv.Reader)

  function RaceStep(s: Race, a: Arrival, idx: int, decode: seq<Mpv.byte> -> Mpv.EventKind): Race {
    match a
    case DoneDatagram(m) => s.(firstDone := s.firstDone || TaggedIndex(m, "DONE:") == Some(idx))
    case EngineChunk(c) => s.(reader := Mpv.Feed(s.reader, c, decode))
  }

  function RaceRun(s: Race, arrivals: seq<Arrival>, idx: int, decode: seq<Mpv.byte> -> Mpv.EventKind): Race {
    if arrivals == [] then s
    else RaceStep(RaceRun(s, arrivals[..|arrivals| - 1], idx, decode), arrivals[|arrivals| - 1], idx, decode)
  }

  predicate RoundOver(s: Race) {
    s.firstDone || s.reader.count >= Mpv.BLOCK_SIZE
  }

  /** A DONE for any other round changes nothing. */
  lemma StaleDoneIgnored(s: Race, j: int, idx: int, decode: seq<Mpv.byte> -> Mpv.EventKind)
    requires j != idx
    ensures RaceStep(s, DoneDatagram(DoneMessage(j)), idx, decode) == s
  {
    DoneMatchesOnlyItsRound(j, idx);
  }

  /** A DONE for the current round ends it, and a repeated one changes nothing. */
  lemma CurrentDoneEnds(s: Race, idx: int, decode: seq<Mpv.byte> -> Mpv.EventKind)
    ensures RoundOver(RaceStep(s, DoneDatagram(DoneMessage(idx)), idx, decode))
    ensures s.firstDone ==> RaceStep(s, DoneDatagram(DoneMessage(idx)), idx, decode) == s
  {
    DoneMatchesOnlyItsRound(idx, idx);
  }

  function Chunks(arrivals: seq<Arrival>): seq<seq<Mpv.byte>> {
    if arrivals == [] then []
    else
      var last := arrivals[|arrivals| - 1];
      Chunks(arrivals[..|arrivals| - 1]) + (if last.EngineChunk? then [last.bytes] else [])
  }

  predicate IsCurrentDone(a: Arrival, idx: int) {
    a.DoneDatagram? && TaggedIndex(a.text, "DONE:") == Some(idx)
  }

  /** Some arrival is a DONE for the round `idx`. */
  predicate HasCurrentDone(arrivals: seq<Arrival>, idx: int) {
    arrivals != []
    && (HasCurrentDone(arrivals[..|arrivals| - 1], idx) || IsCurrentDone(arrivals[|arrivals| - 1], idx))
  }

  /** The two completion sources do not interfere. The engine side counts
      exactly what the engine chunks alone count, whatever DONEs come in
      between. */
  lemma {:induction false} RaceReader(s: Race, arrivals: seq<Arrival>, idx: int, decode: seq<Mpv.byte> -> Mpv.EventKind)
    ensures RaceRun(s, arrivals, idx, decode).reader == Mpv.FeedAll(s.reader, Chunks(arrivals), decode)
  {
    if arrivals != [] {
      var init := arrivals[..|arrivals| - 1];
      var last := arrivals[|arrivals| - 1];
      RaceReader(s, init, idx, decode);
      if last.EngineChunk? {
        Mpv.FeedAllSnoc(s.reader, Chunks(init), last.bytes, decode);
      } else {
        assert Chunks(arrivals) == Chunks(init);
      }
    }
  }

  /** The flag is up exactly when it already was or some DONE for the
      current round came in, whatever the engine reports in between. */
  lemma {:induction false} RaceFlag(s: Race, arrivals: seq<Arrival>, idx: int, decode: seq<Mpv.byte> -> Mpv.EventKind)
    ensures RaceRun(s, arrivals, idx, decode).firstDone <==> s.firstDone || HasCurrentDone(arrivals, idx)
  {
    if arrivals != [] {
      var init := arrivals[..|arrivals| - 1];
      RaceFlag(s, init, idx, decode);
    }
  }

  // ---------------------------------------------------------------------
  // The leader
  // ---------------------------------------------------------------------

  datatype RoundOutcome =
    | Sleeping       // the node started with an empty playlist and never left its sleep
    | Crashed        // the rebuilt playlist is empty and `playlist[0]` raises
    | Skipped        // the category has no full block
    | Advanced       // the round ended
    | StillWaiting   // the arrivals ran out before the round ended

  /** Where the loop stands after the wrap check: past the end it starts over
      on the rebuilt playlist. */
  datatype Spot = Spot(playlist: seq<string>, idx: nat)

  function Wrap(playlist: seq<string>, idx: nat, rebuilt: seq<string>): (s: Spot)
    ensures s.idx < |s.playlist| || s.playlist == rebuilt
  {
    if idx >= |playlist| then Spot(rebuilt, 0) else Spot(playlist, idx)
  }

  class Leader {
    var playlist: seq<string>
    /** `current_idx_ref["idx"]` */
    var idx: nat
    /** `first_done_evt` */
    var firstDone: bool
    /** Every `PLAY:<idx>` broadcast, oldest first. */
    var broadcasts: seq<string>
    const mpv: Mpv.Controller
    /** The first playlist was empty: `leader_main` sleeps forever before
        any thread starts, so no handler and no turn of the loop runs. */
    const idle: bool

    /** `leader_main` up to its loop. */
    constructor (fs: Files.Tree, base: string, orders: seq<seq<string>>, mpv: Mpv.Controller)
      requires Shuffles(orders, AllCategories(fs, base))
      ensures playlist == Blocks.Concat(orders) && idx == 0 && !firstDone && broadcasts == []
      ensures idle <==> Blocks.Concat(orders) == []
      ensures this.mpv == mpv
    {
      var first := BuildCategoryPlaylist(fs, base, orders);
      this.mpv := mpv;
      idx := 0;
      firstDone := false;
      broadcasts := [];
      playlist := first;
      idle := first == [];
    }

    /** The DONE listener: raise the flag for a DONE of the current index;
        an idle leader never started the listener. */
    method OnDone(msg: string)
      modifies this
      ensures firstDone == (old(firstDone) || (!idle && TaggedIndex(msg, "DONE:") == Some(idx)))
      ensures playlist == old(playlist) && idx == old(idx) && broadcasts == old(broadcasts)
    {
      if idle {
        return;
      }
      var didx := TaggedIndex(msg, "DONE:");
      if didx.Some? && didx.value == idx {
        if !firstDone {
          firstDone := true;
        }
      }
    }

    /** One turn of the leader's loop. Past the end the playlist is rebuilt
        and the index wraps to 0; a category without a full block is passed
        over without a broadcast; otherwise the flag is cleared, `PLAY:<idx>`
        goes out, the block is loaded, and the round lasts until the first
        DONE of this index or the local block end, whichever comes first;
        then the index moves on by one. An idle leader does nothing. */
    method RoundStep(fs: Files.Tree, base: string, o: Orientation, orders: seq<seq<string>>,
                     draw: Blocks.Draw, arrivals: seq<Arrival>, decode: seq<Mpv.byte> -> Mpv.EventKind)
      returns (outcome: RoundOutcome, used: nat)
      requires Shuffles(orders, AllCategories(fs, base))
      requires var w := Wrap(playlist, idx, Blocks.Concat(orders));
               w.idx < |w.playlist| ==> DrawFits(fs, base, w.playlist[w.idx], o, draw)
      modifies this, mpv
      ensures idle ==> outcome == Sleeping && used == 0 && unchanged(this) && unchanged(mpv)
      ensures !idle ==> outcome != Sleeping
      ensures var w := Wrap(old(playlist), old(idx), Blocks.Concat(orders));
              !idle ==>
              playlist == w.playlist
              && (w.idx >= |w.playlist| ==> outcome == Crashed && idx == w.idx)
              && (w.idx < |w.playlist| && PickBlock(fs, base, w.playlist[w.idx], o, draw) == [] ==>
                    outcome == Skipped && idx == w.idx + 1)
      ensures outcome in {Crashed, Skipped} ==>
                broadcasts == old(broadcasts) && mpv.sent == old(mpv.sent) && firstDone == old(firstDone)
                && mpv.endfileCount == old(mpv.endfileCount) && mpv.buf == old(mpv.buf) && used == 0
      ensures var w := Wrap(old(playlist), old(idx), Blocks.Concat(orders));
              outcome !in {Sleeping, Crashed, Skipped} ==>
                w.idx < |w.playlist|
                && var b := PickBlock(fs, base, w.playlist[w.idx], o, draw);
                b != []
                && broadcasts == old(broadcasts) + [PlayMessage(w.idx)]
                && mpv.sent == old(mpv.sent) + Mpv.LoadCommands(b)
                && used <= |arrivals|
                && Race(firstDone, mpv.State())
                   == RaceRun(Race(false, Mpv.Reader(0, old(mpv.buf))), arrivals[..used], w.idx, decode)
                && (forall k :: 0 <= k < used ==>
                      !RoundOver(RaceRun(Race(false, Mpv.Reader(0, old(mpv.buf))), arrivals[..k], w.idx, decode)))
                && (outcome == Advanced <==> RoundOver(Race(firstDone, mpv.State())))
                && (outcome == Advanced ==> idx == w.idx + 1)
                && (outcome == StillWaiting ==> idx == w.idx && used == |arrivals|)
    {
      used := 0;
      if idle {
        return Sleeping, 0;
      }
      var i := idx;
      if i >= |playlist| {
        playlist := BuildCategoryPlaylist(fs, base, orders);
        idx := 0;
        i := 0;
      }
      if i >= |playlist| {
        return Crashed, 0;
      }
      var cat := playlist[i];
      var block := PickBlock(fs, base, cat, o, draw);
      if |block| != Mpv.BLOCK_SIZE {
        idx := idx + 1;
        return Skipped, 0;
      }
      var over;
      over, used := PlayRound(block, arrivals, decode);
      if over {
        idx := idx + 1;
        return Advanced, used;
      }
      return StillWaiting, used;
    }

    /** One arrival during a round: a datagram goes to the DONE listener, an
        engine chunk to the event reader. */
    method Receive(a: Arrival, decode: seq<Mpv.byte> -> Mpv.EventKind)
      requires !idle
      modifies this, mpv
      ensures Race(firstDone, mpv.State()) == RaceStep(old(Race(firstDone, mpv.State())), a, idx, decode)
      ensures playlist == old(playlist) && idx == old(idx) && broadcasts == old(broadcasts)
      ensures mpv.sent == old(mpv.sent)
    {
      match a
      case DoneDatagram(m) =>
        OnDone(m);
      case EngineChunk(c) =>
        mpv.ReadChunk(c, decode);
    }

    /** The part of a round after a full block was picked: clear the flag,
        broadcast `PLAY:<idx>`, load the block, then read arrivals until the
        first DONE of this index or the local block end. */
    method PlayRound(block: seq<string>, arrivals: seq<Arrival>, decode: seq<Mpv.byte> -> Mpv.EventKind)
      returns (over: bool, used: nat)
      requires |block| == Mpv.BLOCK_SIZE
      requires !idle
      modifies this, mpv
      ensures playlist == old(playlist) && idx == old(idx)
      ensures broadcasts == old(broadcasts) + [PlayMessage(idx)]
      ensures mpv.sent == old(mpv.sent) + Mpv.LoadCommands(block)
      ensures used <= |arrivals|
      ensures Race(firstDone, mpv.State()) == RaceRun(Race(false, Mpv.Reader(0, old(mpv.buf))), arrivals[..used], idx, decode)
      ensures forall k :: 0 <= k < used ==>
                !RoundOver(RaceRun(Race(false, Mpv.Reader(0, old(mpv.buf))), arrivals[..k], idx, decode))
      ensures over <==> RoundOver(Race(firstDone, mpv.State()))
      ensures !over ==> used == |arrivals|
    {
      ghost var init := Race(false, Mpv.Reader(0, mpv.buf));
      firstDone := false;
      broadcasts := broadcasts + [PlayMessage(idx)];
      var ok := mpv.LoadBlock(block);
      used := 0;
      while !(firstDone || mpv.BlockDone()) && used < |arrivals|
        invariant used <= |arrivals|
        invariant playlist == old(playlist) && idx == old(idx)
        invariant broadcasts == old(broadcasts) + [PlayMessage(idx)]
        invariant mpv.sent == old(mpv.sent) + Mpv.LoadCommands(block)
        invariant Race(firstDone, mpv.State()) == RaceRun(init, arrivals[..used], idx, decode)
        invariant forall k :: 0 <= k < used ==> !RoundOver(RaceRun(init, arrivals[..k], idx, decode))
      {
        assert arrivals[..used + 1][..used] == arrivals[..used];
        ghost var before := RaceRun(init, arrivals[..used], idx, decode);
        assert !RoundOver(before);
        Receive(arrivals[used], decode);
        used := used + 1;
        forall k | 0 <= k < used
          ensures !RoundOver(RaceRun(init, arrivals[..k], idx, decode))
        {
          if k == used - 1 {
            assert arrivals[..k] == arrivals[..used - 1];
          }
        }
      }
      over := firstDone || mpv.BlockDone();
    }
  }

  // ---------------------------------------------------------------------
  // The follower
  // ---------------------------------------------------------------------

  datatype Mode = Auto | Sync

  datatype Datagram = Datagram(to: string, text: string)

  datatype FollowerOutcome =
    | Asleep         // the node started with an empty playlist and never left its sleep
    | Ignored        // the command was not a usable PLAY, or the index is out of range
    | LeaderSeen     // a leader is present: register and wait for commands
    | Halted        // the rebuilt playlist is empty and `playlist[0]` raises
    | Unplayable        // the category has no full block
    | Played         // the block was played to its end
    | StillPlaying   // the engine events ran out before the block ended

  class Follower {
    var playlist: seq<string>
    var mode: Mode
    /** `current_idx["idx"]` */
    var currentIdx: nat
    var leaderIp: Option<string>
    /** When the last heartbeat arrived, in milliseconds. */
    var lastSeen: int
    /** Registration and DONE datagrams sent, oldest first. */
    var outbox: seq<Datagram>
    const host: string
    const role: nat
    const mpv: Mpv.Controller
    /** The first playlist was empty: `follower_main` sleeps forever before
        any thread starts, so no listener and no turn of the loop runs. */
    const idle: bool

    /** `if not lip`: no address, or an empty one. */
    predicate KnowsLeader()
      reads this
    {
      leaderIp.Some? && leaderIp.value != ""
    }

    predicate LeaderPresent(now: int)
      reads this
    {
      KnowsLeader() && now - lastSeen < LEADER_TIMEOUT
    }

    constructor (fs: Files.Tree, base: string, orders: seq<seq<string>>, host: string, role: nat, mpv: Mpv.Controller)
      requires Shuffles(orders, AllCategories(fs, base))
      ensures playlist == Blocks.Concat(orders) && mode == Auto && currentIdx == 0
      ensures leaderIp == None && lastSeen == 0 && outbox == []
      ensures idle <==> Blocks.Concat(orders) == []
      ensures this.host == host && this.role == role && this.mpv == mpv
    {
      var first := BuildCategoryPlaylist(fs, base, orders);
      this.host := host;
      this.role := role;
      this.mpv := mpv;
      mode := Auto;
      currentIdx := 0;
      leaderIp := None;
      lastSeen := 0;
      outbox := [];
      playlist := first;
      idle := first == [];
    }

    /** The discovery listener: any datagram starting with `LEADER_HERE`
        names its sender as the leader, seen now. An idle follower never
        started the listener. */
    method OnHeartbeat(msg: string, sender: string, now: int)
      modifies this
      ensures !idle && Text.StartsWith(msg, "LEADER_HERE") ==> leaderIp == Some(sender) && lastSeen == now
      ensures idle || !Text.StartsWith(msg, "LEADER_HERE") ==> leaderIp == old(leaderIp) && lastSeen == old(lastSeen)
      ensures playlist == old(playlist) && mode == old(mode) && currentIdx == old(currentIdx) && outbox == old(outbox)
    {
      if !idle && Text.StartsWith(msg, "LEADER_HERE") {
        leaderIp := Some(sender);
        lastSeen := now;
      }
    }

    /** `follower_register_once` */
    method RegisterOnce()
      modifies this
      ensures outbox == old(outbox) + (if KnowsLeader() then [Datagram(leaderIp.value, RegisterMessage(host, role))] else [])
      ensures playlist == old(playlist) && mode == old(mode) && currentIdx == old(currentIdx)
      ensures leaderIp == old(leaderIp) && lastSeen == old(lastSeen)
    {
      if KnowsLeader() {
        outbox := outbox + [Datagram(leaderIp.value, RegisterMessage(host, role))];
      }
    }

    /** `follower_send_done` */
    method SendDone(idx: int)
      modifies this
      ensures outbox == old(outbox) + (if KnowsLeader() then [Datagram(leaderIp.value, DoneMessage(idx))] else [])
      ensures playlist == old(playlist) && mode == old(mode) && currentIdx == old(currentIdx)
      ensures leaderIp == old(leaderIp) && lastSeen == old(lastSeen)
    {
      if KnowsLeader() {
        outbox := outbox + [Datagram(leaderIp.value, DoneMessage(idx))];
      }
    }

    /** What `play_idx` leaves behind, from the mode, index, outbox and
        engine state before it: an index outside the playlist changes
        nothing; otherwise the node is in SYNC at that index, a category
        without a full block sends nothing, and a block is loaded and, once
        the engine reports it done, reported with `DONE:<idx>` to the known
        leader. */
    ghost predicate IdxPlayed(idx: int, fs: Files.Tree, base: string, o: Orientation, draw: Blocks.Draw,
                              mode0: Mode, idx0: nat, outbox0: seq<Datagram>, sent0: seq<Mpv.Command>,
                              endfile0: nat, buf0: seq<Mpv.byte>, outcome: FollowerOutcome)
      requires 0 <= idx < |playlist| ==> DrawFits(fs, base, playlist[idx], o, draw)
      reads this, mpv
    {
      (!(0 <= idx < |playlist|) ==>
         outcome == Ignored && mode == mode0 && currentIdx == idx0 && outbox == outbox0
         && mpv.sent == sent0 && mpv.endfileCount == endfile0 && mpv.buf == buf0)
      && (0 <= idx < |playlist| ==>
            mode == Sync && currentIdx == idx
            && var b := PickBlock(fs, base, playlist[idx], o, draw);
            (b == [] ==> outcome == Unplayable && mpv.sent == sent0 && outbox == outbox0)
            && (b != [] ==>
                  (mpv.sent == sent0 + Mpv.LoadCommands(b)
                   && (outcome == Played <==> mpv.BlockDone())
                   && outcome in {Played, StillPlaying}
                   && outbox == outbox0
                      + (if outcome == Played && KnowsLeader()
                         then [Datagram(leaderIp.value, DoneMessage(idx))] else []))))
    }

    /** `play_idx`: an index outside the playlist is ignored; otherwise the
        node switches to SYNC and records the index before it even tries
        the category, plays the block and reports DONE when it ends. */
    method PlayIdx(idx: int, fs: Files.Tree, base: string, o: Orientation, draw: Blocks.Draw,
                   events: seq<seq<Mpv.byte>>, decode: seq<Mpv.byte> -> Mpv.EventKind)
      returns (outcome: FollowerOutcome)
      requires 0 <= idx < |playlist| ==> DrawFits(fs, base, playlist[idx], o, draw)
      requires !idle
      modifies this, mpv
      ensures playlist == old(playlist) && leaderIp == old(leaderIp) && lastSeen == old(lastSeen)
      ensures IdxPlayed(idx, fs, base, o, draw, old(mode), old(currentIdx), old(outbox), old(mpv.sent),
                        old(mpv.endfileCount), old(mpv.buf), outcome)
    {
      if idx < 0 || idx >= |playlist| {
        return Ignored;
      }
      mode := Sync;
      currentIdx := idx;
      var cat := playlist[idx];
      var block := PickBlock(fs, base, cat, o, draw);
      if |block| != Mpv.BLOCK_SIZE {
        return Unplayable;
      }
      var ok := mpv.LoadBlock(block);
      var done, used := mpv.WaitBlockDone(events, decode);
      if !done {
        return StillPlaying;
      }
      SendDone(idx);
      return Played;
    }

    /** The command listener: a stripped `PLAY:<int>` goes to `play_idx`,
        anything else is dropped. An idle follower never started the
        listener. */
    method OnCommand(msg: string, fs: Files.Tree, base: string, o: Orientation, draw: Blocks.Draw,
                     events: seq<seq<Mpv.byte>>, decode: seq<Mpv.byte> -> Mpv.EventKind)
      returns (outcome: FollowerOutcome)
      requires var p := TaggedIndex(msg, "PLAY:");
               p.Some? && 0 <= p.value < |playlist| ==> DrawFits(fs, base, playlist[p.value], o, draw)
      modifies this, mpv
      ensures idle ==> outcome == Asleep && unchanged(this) && unchanged(mpv)
      ensures playlist == old(playlist) && leaderIp == old(leaderIp) && lastSeen == old(lastSeen)
      ensures !idle && TaggedIndex(msg, "PLAY:") == None ==>
                outcome == Ignored && mode == old(mode) && currentIdx == old(currentIdx)
                && outbox == old(outbox) && mpv.sent == old(mpv.sent)
                && mpv.endfileCount == old(mpv.endfileCount) && mpv.buf == old(mpv.buf)
      ensures var p := TaggedIndex(msg, "PLAY:");
              !idle && p.Some? ==>
                IdxPlayed(p.value, fs, base, o, draw, old(mode), old(currentIdx), old(outbox), old(mpv.sent),
                          old(mpv.endfileCount), old(mpv.buf), outcome)
    {
      if idle {
        return Asleep;
      }
      var m := Text.Strip(msg);
      if !Text.StartsWith(m, "PLAY:") {
        return Ignored;
      }
      var p := Decimal.ParseInt(Text.After(m, "PLAY:"));
      if p.None? {
        return Ignored;
      }
      outcome := PlayIdx(p.value, fs, base, o, draw, events, decode);
    }

    /** One turn of the follower's main loop at time `now`: with a leader
        heard from within the timeout it only registers; otherwise it is in
        AUTO and plays the next category of its own playlist, rebuilding it
        past the end, and moves on by one. An idle follower does nothing. */
    method MainStep(now: int, fs: Files.Tree, base: string, o: Orientation, orders: seq<seq<string>>,
                    draw: Blocks.Draw, events: seq<seq<Mpv.byte>>, decode: seq<Mpv.byte> -> Mpv.EventKind)
      returns (outcome: FollowerOutcome)
      requires Shuffles(orders, AllCategories(fs, base))
      requires var w := Wrap(playlist, currentIdx, Blocks.Concat(orders));
               w.idx < |w.playlist| ==> DrawFits(fs, base, w.playlist[w.idx], o, draw)
      modifies this, mpv
      ensures idle ==> outcome == Asleep && unchanged(this) && unchanged(mpv)
      ensures leaderIp == old(leaderIp) && lastSeen == old(lastSeen)
      ensures !idle && old(LeaderPresent(now)) ==>
                outcome == LeaderSeen && mode == old(mode) && currentIdx == old(currentIdx)
                && playlist == old(playlist) && mpv.sent == old(mpv.sent)
                && outbox == old(outbox) + [Datagram(leaderIp.value, RegisterMessage(host, role))]
      ensures !idle && !old(LeaderPresent(now)) ==>
                mode == Auto && outbox == old(outbox)
                && AutoPlayed(fs, base, o, orders, draw, old(playlist), old(currentIdx), old(mpv.sent), outcome)
    {
      if idle {
        return Asleep;
      }
      if LeaderPresent(now) {
        RegisterOnce();
        return LeaderSeen;
      }
      mode := Auto;
      outcome := AutoStep(fs, base, o, orders, draw, events, decode);
    }

    /** What one turn of AUTO leaves behind, from the playlist, index and
        engine commands before it: the wrapped playlist is kept; past its end
        the loop halts; a category without a block is skipped; otherwise its
        block is loaded and the index moves on once the engine reports the
        block done. */
    ghost predicate AutoPlayed(fs: Files.Tree, base: string, o: Orientation, orders: seq<seq<string>>,
                               draw: Blocks.Draw, playlist0: seq<string>, idx0: nat, sent0: seq<Mpv.Command>,
                               outcome: FollowerOutcome)
      requires Shuffles(orders, AllCategories(fs, base))
      requires var w := Wrap(playlist0, idx0, Blocks.Concat(orders));
               w.idx < |w.playlist| ==> DrawFits(fs, base, w.playlist[w.idx], o, draw)
      reads this, mpv
    {
      var w := Wrap(playlist0, idx0, Blocks.Concat(orders));
      playlist == w.playlist
      && (w.idx >= |w.playlist| ==> outcome == Halted)
      && (w.idx < |w.playlist| ==>
            var b := PickBlock(fs, base, w.playlist[w.idx], o, draw);
            (b == [] ==> outcome == Unplayable && currentIdx == w.idx + 1 && mpv.sent == sent0)
            && (b != [] ==>
                  (mpv.sent == sent0 + Mpv.LoadCommands(b)
                   && (outcome == Played <==> mpv.BlockDone())
                   && (outcome == Played ==> currentIdx == w.idx + 1)
                   && (outcome != Played ==> outcome == StillPlaying && currentIdx == w.idx))))
    }

    /** The AUTO branch of the main loop. */
    method AutoStep(fs: Files.Tree, base: string, o: Orientation, orders: seq<seq<string>>,
                    draw: Blocks.Draw, events: seq<seq<Mpv.byte>>, decode: seq<Mpv.byte> -> Mpv.EventKind)
      returns (outcome: FollowerOutcome)
      requires Shuffles(orders, AllCategories(fs, base))
      requires var w := Wrap(playlist, currentIdx, Blocks.Concat(orders));
               w.idx < |w.playlist| ==> DrawFits(fs, base, w.playlist[w.idx], o, draw)
      requires !idle
      modifies this, mpv
      ensures leaderIp == old(leaderIp) && lastSeen == old(lastSeen) && mode == old(mode) && outbox == old(outbox)
      ensures AutoPlayed(fs, base, o, orders, draw, old(playlist), old(currentIdx), old(mpv.sent), outcome)
    {
      var i := currentIdx;
      if i >= |playlist| {
        playlist := BuildCategoryPlaylist(fs, base, orders);
        i := 0;
        currentIdx := 0;
      }
      if i >= |playlist| {
        return Halted;
      }
      var cat := playlist[i];
      var block := PickBlock(fs, base, cat, o, draw);
      if |block| != Mpv.BLOCK_SIZE {
        currentIdx := currentIdx + 1;
        return Unplayable;
      }
      var ok := mpv.LoadBlock(block);
      var done, used := mpv.WaitBlockDone(events, decode);
      if !done {
        return StillPlaying;
      }
      currentIdx := currentIdx + 1;
      return Played;
    }
  }
}
