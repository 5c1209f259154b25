/** HyperObjectLumalogy/Leader/leader.py: the leader of the HyperObjectLumalogy
    installation. It announces itself with the category list, keeps the set
    of registered followers, and walks a shuffled category queue: for each
    playable category it commands `PLAY:<category>`, plays its own block,
    waits for the first follower's `done` and commands `NEXT`.

    Handlers are atomic transitions on the module globals, the fields of
    `Leader`. A `send_to_followers` call is recorded as its message and the
    set of followers it reached; the order in which the set is walked is not
    kept. Whether a send raises is an input: the set of unreachable
    addresses. */
module LumaLeader {
  import opened Wrappers
  import Text
  import Names
  import Blocks
  import Files

  const VIDEO_EXTENSIONS: seq<string> := [".mp4", ".mov"]
  const LEADER_HERE: string := "LEADER_HERE:"
  const DONE: string := "done"
  const NEXT: string := "NEXT"

  /** One `send_to_followers` call: the text and who received it. */
  datatype Sent = Sent(text: string, to: set<string>)

  datatype TurnOutcome =
    | Skipped        // the category has no block: no command at all
    | Advanced       // a `done` arrived and NEXT went out
    | StillWaiting   // the DONE datagrams ran out before a `done`

  /** `pick_categories`: none when the base directory is missing, else the
      sub-directory names in ascending order. */
  function PickCategories(fs: Files.Tree, base: string): (r: seq<string>)
    ensures base !in fs ==> r == []
    ensures base in fs ==> Names.Sorted(r) && multiset(r) == multiset(Files.SubDirs(Files.Listing(fs, base)))
  {
    if base !in fs then [] else Names.Sort(Files.SubDirs(Files.Listing(fs, base)))
  }

  function TextDir(base: string, cat: string): string {
    Names.PathJoin(Names.PathJoin(base, cat), "hor_text")
  }

  function VideoDir(base: string, cat: string): string {
    Names.PathJoin(Names.PathJoin(base, cat), "hor")
  }

  /** The bare video names of a directory. */
  function VideoNamesIn(fs: Files.Tree, dir: string): seq<string> {
    Files.ListVideos(fs, dir, VIDEO_EXTENSIONS)
  }

  predicate DrawFits(fs: Files.Tree, base: string, cat: string, d: Blocks.Draw) {
    Blocks.Fits(d, |VideoNamesIn(fs, TextDir(base, cat))|, |VideoNamesIn(fs, VideoDir(base, cat))|, 1, 3)
  }

  /** Both directories exist, with a text video and three videos. */
  predicate Playable(fs: Files.Tree, base: string, cat: string) {
    TextDir(base, cat) in fs && VideoDir(base, cat) in fs
    && |VideoNamesIn(fs, TextDir(base, cat))| >= 1 && |VideoNamesIn(fs, VideoDir(base, cat))| >= 3
  }

  /** `pick_videos`: nothing when either directory is missing or there is no
      text video or fewer than three videos; otherwise the chosen text video
      and the three sampled videos, each joined under its directory. */
  function PickVideos(fs: Files.Tree, base: string, cat: string, d: Blocks.Draw): (r: seq<string>)
    requires DrawFits(fs, base, cat, d)
    ensures r == [] <==> !Playable(fs, base, cat)
    ensures |r| == 0 || |r| == 4
  {
    var td := TextDir(base, cat);
    var vd := VideoDir(base, cat);
    if td !in fs || vd !in fs then []
    else
      var textos := VideoNamesIn(fs, td);
      var videos := VideoNamesIn(fs, vd);
      if |textos| < 1 || |videos| < 3 then []
      else
        var chosen := Blocks.Take(videos, d.vids);
        [Names.PathJoin(td, textos[d.text]), Names.PathJoin(vd, chosen[0]),
         Names.PathJoin(vd, chosen[1]), Names.PathJoin(vd, chosen[2])]
  }

  /** A non-empty pick is a block of the joined pools: the text video first,
      then three videos of the plain directory, pairwise different in a
      well-formed tree. */
  lemma PickVideosIsBlock(fs: Files.Tree, base: string, cat: string, d: Blocks.Draw)
    requires DrawFits(fs, base, cat, d)
    ensures var r := PickVideos(fs, base, cat, d);
            r != [] ==>
              Blocks.IsBlock(r, Names.JoinAll(TextDir(base, cat), VideoNamesIn(fs, TextDir(base, cat))),
                                Names.JoinAll(VideoDir(base, cat), VideoNamesIn(fs, VideoDir(base, cat))))
              && (Files.WellFormed(fs) ==> Blocks.Distinct(r[1..]))
  {
    var td := TextDir(base, cat);
    var vd := VideoDir(base, cat);
    var r := PickVideos(fs, base, cat, d);
    if r != [] {
      var texts := Names.JoinAll(td, VideoNamesIn(fs, td));
      var vids := Names.JoinAll(vd, VideoNamesIn(fs, vd));
      var chosen := Blocks.Take(VideoNamesIn(fs, vd), d.vids);
      assert Blocks.Take(vids, d.vids) == Names.JoinAll(vd, chosen);
      assert r == Blocks.OneAndThree(texts, vids, d);
      if Files.WellFormed(fs) {
        Files.ListingsDistinct(fs, vd, VIDEO_EXTENSIONS);
        Files.JoinAllDistinct(vd, VideoNamesIn(fs, vd));
      }
    }
  }

  /** The heartbeat: `LEADER_HERE:` and the queue joined with commas. */
  function Heartbeat(queue: seq<string>): (msg: string)
    ensures Text.StartsWith(msg, LEADER_HERE)
  {
    LEADER_HERE + Text.JoinWith(queue, ',')
  }

  /** A receiver that splits the heartbeat's payload at commas gets the
      queue back, provided it is not empty (the program stops before
      broadcasting an empty one) and no name holds a comma. */
  lemma HeartbeatCarriesQueue(queue: seq<string>)
    requires |queue| >= 1
    requires forall k :: 0 <= k < |queue| ==> ',' !in queue[k]
    ensures Text.Split(Text.After(Heartbeat(queue), LEADER_HERE), ',') == queue
  {
    assert Text.After(Heartbeat(queue), LEADER_HERE) == Text.JoinWith(queue, ',');
    Text.SplitJoin(queue, ',');
  }

  /** The commands of a round made of fully played categories: PLAY then NEXT
      for each playable category, nothing for the others. */
  function RoundCommands(fs: Files.Tree, base: string, cats: seq<string>, to: set<string>): seq<Sent>
    decreases |cats|
  {
    if cats == [] then []
    else
      var n := |cats| - 1;
      RoundCommands(fs, base, cats[..n], to)
      + (if Playable(fs, base, cats[n]) then [Sent("PLAY:" + cats[n], to), Sent(NEXT, to)] else [])
  }

  /** One more category at the end of the round. */
  lemma RoundCommandsSnoc(fs: Files.Tree, base: string, cats: seq<string>, i: nat, to: set<string>)
    requires i < |cats|
    ensures RoundCommands(fs, base, cats[..i + 1], to)
            == RoundCommands(fs, base, cats[..i], to)
               + (if Playable(fs, base, cats[i]) then [Sent("PLAY:" + cats[i], to), Sent(NEXT, to)] else [])
  {
    assert cats[..i + 1][..i] == cats[..i];
  }

  /** PLAY and NEXT alternate, starting with PLAY, and every PLAY names one of
      `cats`. */
  predicate Alternating(c: seq<Sent>, cats: seq<string>, to: set<string>) {
    |c| % 2 == 0
    && forall k :: 0 <= k < |c| / 2 ==>
         c[2 * k + 1] == Sent(NEXT, to)
         && Text.StartsWith(c[2 * k].text, "PLAY:")
         && Text.After(c[2 * k].text, "PLAY:") in cats
  }

  lemma AlternatingSnoc(c: seq<Sent>, small: seq<string>, cats: seq<string>, x: string, to: set<string>)
    requires Alternating(c, small, to)
    requires forall y :: y in small ==> y in cats
    requires x in cats
    ensures Alternating(c + [Sent("PLAY:" + x, to), Sent(NEXT, to)], cats, to)
  {
    var c1 := c + [Sent("PLAY:" + x, to), Sent(NEXT, to)];
    forall k | 0 <= k < |c1| / 2
      ensures c1[2 * k + 1] == Sent(NEXT, to)
      ensures Text.StartsWith(c1[2 * k].text, "PLAY:") && Text.After(c1[2 * k].text, "PLAY:") in cats
    {
      if k < |c| / 2 {
        assert c1[2 * k] == c[2 * k] && c1[2 * k + 1] == c[2 * k + 1];
      } else {
        assert c1[2 * k].text == "PLAY:" + x;
        assert Text.StartsWith("PLAY:" + x, "PLAY:");
      }
    }
  }

  lemma AlternatingWiden(c: seq<Sent>, small: seq<string>, cats: seq<string>, to: set<string>)
    requires Alternating(c, small, to)
    requires forall y :: y in small ==> y in cats
    ensures Alternating(c, cats, to)
  {
  }

  /** In a completed stretch of the round every PLAY is followed at once by
      NEXT, and the PLAYs name categories of the queue. */
  lemma {:induction false} RoundCommandsAlternate(fs: Files.Tree, base: string, cats: seq<string>, to: set<string>)
    ensures Alternating(RoundCommands(fs, base, cats, to), cats, to)
    decreases |cats|
  {
    if cats != [] {
      var n := |cats| - 1;
      RoundCommandsAlternate(fs, base, cats[..n], to);
      var c0 := RoundCommands(fs, base, cats[..n], to);
      if Playable(fs, base, cats[n]) {
        AlternatingSnoc(c0, cats[..n], cats, cats[n], to);
      } else {
        AlternatingWiden(c0, cats[..n], cats, to);
      }
    }
  }

  /** Every playable one of `cats` got its `done` among the DONE datagrams
      that arrived during its turn. */
  predicate AllAnswered(fs: Files.Tree, base: string, cats: seq<string>, arrivals: seq<seq<string>>)
    requires |cats| <= |arrivals|
  {
    forall i :: 0 <= i < |cats| ==> Playable(fs, base, cats[i]) ==> DONE in arrivals[i]
  }

  lemma InPrefix<T>(x: T, s: seq<T>, n: nat)
    requires n <= |s| && x in s[..n]
    ensures x in s
  {
    var k :| 0 <= k < n && s[..n][k] == x;
    assert s[k] == x;
  }

  lemma AnsweredStep(fs: Files.Tree, base: string, perm: seq<string>, t: nat, arrivals: seq<seq<string>>)
    requires t < |perm| <= |arrivals|
    requires AllAnswered(fs, base, perm[..t], arrivals)
    requires Playable(fs, base, perm[t]) ==> DONE in arrivals[t]
    ensures AllAnswered(fs, base, perm[..t + 1], arrivals)
  {
  }

  /** The blocks the leader's own screen plays in the first `n` turns of a
      pass over `perm`: one per playable category, in turn order. */
  function PassScreens(fs: Files.Tree, base: string, perm: seq<string>, draws: seq<Blocks.Draw>, n: nat)
    : seq<seq<string>>
    requires n <= |perm| <= |draws|
    requires forall i :: 0 <= i < |perm| ==> DrawFits(fs, base, perm[i], draws[i])
  {
    if n == 0 then []
    else PassScreens(fs, base, perm, draws, n - 1)
         + (if Playable(fs, base, perm[n - 1]) then [PickVideos(fs, base, perm[n - 1], draws[n - 1])] else [])
  }

  /** The pass's screens grow by the block of every playable turn. */
  lemma PassScreensStep(fs: Files.Tree, base: string, perm: seq<string>, draws: seq<Blocks.Draw>, t: nat)
    requires t < |perm| <= |draws|
    requires forall i :: 0 <= i < |perm| ==> DrawFits(fs, base, perm[i], draws[i])
    ensures PassScreens(fs, base, perm, draws, t + 1)
            == PassScreens(fs, base, perm, draws, t)
               + (if Playable(fs, base, perm[t]) then [PickVideos(fs, base, perm[t], draws[t])] else [])
  {
  }

  /** The leader plays a block of its own for every PLAY/NEXT pair it
      sends: the command list of the completed turns is twice as long as
      the list of blocks on its screen. */
  lemma {:induction false} ScreensMatchCommands(fs: Files.Tree, base: string, perm: seq<string>,
                                               draws: seq<Blocks.Draw>, n: nat, to: set<string>)
    requires n <= |perm| <= |draws|
    requires forall i :: 0 <= i < |perm| ==> DrawFits(fs, base, perm[i], draws[i])
    ensures |RoundCommands(fs, base, perm[..n], to)| == 2 * |PassScreens(fs, base, perm, draws, n)|
  {
    if n > 0 {
      ScreensMatchCommands(fs, base, perm, draws, n - 1, to);
      RoundCommandsSnoc(fs, base, perm, n - 1, to);
      PassScreensStep(fs, base, perm, draws, n - 1);
    }
  }

  /** Every block on the leader's screen is whole: a text video and three
      videos. */
  lemma {:induction false} ScreensAreWhole(fs: Files.Tree, base: string, perm: seq<string>,
                                          draws: seq<Blocks.Draw>, n: nat)
    requires n <= |perm| <= |draws|
    requires forall i :: 0 <= i < |perm| ==> DrawFits(fs, base, perm[i], draws[i])
    ensures forall k :: 0 <= k < |PassScreens(fs, base, perm, draws, n)| ==>
              |PassScreens(fs, base, perm, draws, n)[k]| == 4
  {
    if n > 0 {
      ScreensAreWhole(fs, base, perm, draws, n - 1);
      PassScreensStep(fs, base, perm, draws, n - 1);
      var prev := PassScreens(fs, base, perm, draws, n - 1);
      if Playable(fs, base, perm[n - 1]) {
        var block := PickVideos(fs, base, perm[n - 1], draws[n - 1]);
        WholeSnoc(prev, block);
      }
    }
  }

  lemma WholeSnoc(blocks: seq<seq<string>>, block: seq<string>)
    requires forall k :: 0 <= k < |blocks| ==> |blocks[k]| == 4
    requires |block| == 4
    ensures forall k :: 0 <= k < |blocks + [block]| ==> |(blocks + [block])[k]| == 4
  {
    forall k | 0 <= k < |blocks + [block]|
      ensures |(blocks + [block])[k]| == 4
    {
      if k < |blocks| {
        assert (blocks + [block])[k] == blocks[k];
      }
    }
  }

  /** How one turn extends the pass's command log: a category without a
      block adds nothing, a finished one its PLAY and NEXT, one still
      waiting its PLAY alone. */
  lemma TurnExtends(fs: Files.Tree, base: string, perm: seq<string>, t: nat, to: set<string>,
                    c0: seq<Sent>, before: seq<Sent>, after: seq<Sent>, advanced: bool)
    requires t < |perm|
    requires before == c0 + RoundCommands(fs, base, perm[..t], to)
    requires !Playable(fs, base, perm[t]) ==> after == before
    requires Playable(fs, base, perm[t]) && advanced ==>
               after == before + [Sent("PLAY:" + perm[t], to), Sent(NEXT, to)]
    requires Playable(fs, base, perm[t]) && !advanced ==> after == before + [Sent("PLAY:" + perm[t], to)]
    ensures advanced || !Playable(fs, base, perm[t]) ==> after == c0 + RoundCommands(fs, base, perm[..t + 1], to)
    ensures !advanced && Playable(fs, base, perm[t]) ==>
              after == c0 + RoundCommands(fs, base, perm[..t], to) + [Sent("PLAY:" + perm[t], to)]
  {
    RoundCommandsSnoc(fs, base, perm, t, to);
  }

  /** The screen and the `done` flag after the first `n` turns of a pass
      that started from `s0` and `d0`: every played block is on the screen,
      and `done` is set once any turn has been played through. */
  ghost predicate Shown(fs: Files.Tree, base: string, perm: seq<string>, draws: seq<Blocks.Draw>, n: nat,
                        s0: seq<seq<string>>, d0: bool, screen: seq<seq<string>>, done: bool)
    requires n <= |perm| <= |draws|
    requires forall i :: 0 <= i < |perm| ==> DrawFits(fs, base, perm[i], draws[i])
  {
    screen == s0 + PassScreens(fs, base, perm, draws, n)
    && (done <==> d0 || |PassScreens(fs, base, perm, draws, n)| > 0)
  }

  /** The leader after the first `n` turns of a pass over `perm`, all of
      them played through or skipped: each played one was answered, and the
      command log, the screen and `done` have grown by those turns. */
  ghost predicate Progress(fs: Files.Tree, base: string, perm: seq<string>, draws: seq<Blocks.Draw>,
                           arrivals: seq<seq<string>>, n: nat, reached: set<string>,
                           c0: seq<Sent>, s0: seq<seq<string>>, d0: bool,
                           commands: seq<Sent>, screen: seq<seq<string>>, done: bool)
    requires n <= |perm| <= |draws| && |perm| <= |arrivals|
    requires forall i :: 0 <= i < |perm| ==> DrawFits(fs, base, perm[i], draws[i])
  {
    AllAnswered(fs, base, perm[..n], arrivals)
    && commands == c0 + RoundCommands(fs, base, perm[..n], reached)
    && Shown(fs, base, perm, draws, n, s0, d0, screen, done)
  }

  /** The leader stopped at turn `t` of a pass: the turns before it are as
      `Progress` says, the category of turn `t` is playable, was sent as a
      PLAY to `reached` and is on the screen, and no DONE came back for it. */
  ghost predicate Waiting(fs: Files.Tree, base: string, perm: seq<string>, draws: seq<Blocks.Draw>,
                          arrivals: seq<seq<string>>, t: nat, reached: set<string>,
                          c0: seq<Sent>, s0: seq<seq<string>>,
                          commands: seq<Sent>, screen: seq<seq<string>>, done: bool, current: Option<string>)
    requires t < |perm| <= |draws| && |perm| <= |arrivals|
    requires forall i :: 0 <= i < |perm| ==> DrawFits(fs, base, perm[i], draws[i])
  {
    Playable(fs, base, perm[t]) && DONE !in arrivals[t] && current == Some(perm[t])
    && AllAnswered(fs, base, perm[..t], arrivals)
    && commands == c0 + RoundCommands(fs, base, perm[..t], reached) + [Sent("PLAY:" + perm[t], reached)]
    && screen == s0 + PassScreens(fs, base, perm, draws, t) + [PickVideos(fs, base, perm[t], draws[t])]
    && !done
  }

  /** How one turn extends the screens and the `done` flag of a pass, with
      `shown` the blocks of the turns before it and `shownNext` those up to
      and including it: a skipped turn leaves both alone, and a played one
      adds its block and sets `done` exactly when the turn advanced. */
  lemma ScreenExtends(s0: seq<seq<string>>, d0: bool, shown: seq<seq<string>>, shownNext: seq<seq<string>>,
                      block: seq<string>, playable: bool, before: seq<seq<string>>, after: seq<seq<string>>,
                      doneBefore: bool, doneAfter: bool, advanced: bool)
    requires shownNext == shown + (if playable then [block] else [])
    requires before == s0 + shown
    requires doneBefore <==> d0 || |shown| > 0
    requires !playable ==> after == before && doneAfter == doneBefore
    requires playable ==> after == before + [block] && (doneAfter <==> advanced)
    ensures advanced || !playable ==> after == s0 + shownNext && (doneAfter <==> d0 || |shownNext| > 0)
    ensures !advanced && playable ==> after == s0 + shown + [block] && !doneAfter
  {
    if playable {
      assert (s0 + shown) + [block] == s0 + (shown + [block]);
    }
  }

  class Leader {
    var followers: set<string>
    /** `categoria_queue` */
    var queue: seq<string>
    var currentCategory: Option<string>
    /** `done_flag` */
    var done: bool
    /** Every `send_to_followers` call, oldest first. */
    var commands: seq<Sent>
    /** The blocks the leader's own screen was started on, oldest first. */
    var screen: seq<seq<string>>

    /** `main` up to the threads: the queue is the sorted category list; the
        program stops at once when it is empty. */
    constructor (fs: Files.Tree, base: string)
      ensures queue == PickCategories(fs, base)
      ensures followers == {} && currentCategory == None && !done && commands == [] && screen == []
    {
      queue := PickCategories(fs, base);
      followers := {};
      currentCategory := None;
      done := false;
      commands := [];
      screen := [];
    }

    /** `send_to_followers`: every follower is sent the message except those
        whose send raises, which are dropped from the set. */
    method SendToFollowers(message: string, unreachable: set<string>)
      modifies this
      ensures followers == old(followers) - unreachable
      ensures commands == old(commands) + [Sent(message, old(followers) - unreachable)]
      ensures queue == old(queue) && currentCategory == old(currentCategory)
      ensures done == old(done) && screen == old(screen)
    {
      var pending := followers;
      var reached: set<string> := {};
      while pending != {}
        invariant pending <= old(followers)
        invariant reached == (old(followers) - pending) - unreachable
        invariant followers == old(followers) - ((old(followers) - pending) * unreachable)
        invariant commands == old(commands) && queue == old(queue) && currentCategory == old(currentCategory)
        invariant done == old(done) && screen == old(screen)
        decreases pending
      {
        var ip :| ip in pending;
        if ip in unreachable {
          followers := followers - {ip};
        } else {
          reached := reached + {ip};
        }
        pending := pending - {ip};
      }
      assert reached == old(followers) - unreachable;
      commands := commands + [Sent(message, reached)];
    }

    /** `listen_for_followers`, one datagram: a `REGISTER:` adds the sender
        and, while a category is active, sends it (and everyone) the PLAY
        again. */
    method OnRegister(msg: string, sender: string, unreachable: set<string>)
      modifies this
      ensures !Text.StartsWith(msg, "REGISTER:") ==> followers == old(followers) && commands == old(commands)
      ensures Text.StartsWith(msg, "REGISTER:") && (old(currentCategory) == None || old(currentCategory) == Some("")) ==>
                followers == old(followers) + {sender} && commands == old(commands)
      ensures Text.StartsWith(msg, "REGISTER:") && old(currentCategory).Some? && old(currentCategory).value != "" ==>
                followers == (old(followers) + {sender}) - unreachable
                && commands == old(commands) + [Sent("PLAY:" + old(currentCategory).value,
                                                     (old(followers) + {sender}) - unreachable)]
      ensures queue == old(queue) && currentCategory == old(currentCategory)
      ensures done == old(done) && screen == old(screen)
    {
      if Text.StartsWith(msg, "REGISTER:") {
        followers := followers + {sender};
        if currentCategory.Some? && currentCategory.value != "" {
          SendToFollowers("PLAY:" + currentCategory.value, unreachable);
        }
      }
    }

    /** `receive_done`, one datagram: only the exact text `done` counts. */
    method OnDone(msg: string)
      modifies this
      ensures done <==> old(done) || msg == DONE
      ensures followers == old(followers) && queue == old(queue) && currentCategory == old(currentCategory)
      ensures commands == old(commands) && screen == old(screen)
    {
      if msg == DONE {
        done := true;
      }
    }

    /** `done_flag.wait()` over the DONE datagrams that arrive: returns after
        the first `done`, or with all of them used when none is. */
    method WaitDone(arrivals: seq<string>) returns (used: nat)
      modifies this
      ensures used <= |arrivals|
      ensures done <==> old(done) || DONE in arrivals[..used]
      ensures !old(done) && done ==> used >= 1 && arrivals[used - 1] == DONE && DONE !in arrivals[..used - 1]
      ensures !done ==> used == |arrivals|
      ensures followers == old(followers) && queue == old(queue) && currentCategory == old(currentCategory)
      ensures commands == old(commands) && screen == old(screen)
    {
      used := 0;
      while !done && used < |arrivals|
        invariant used <= |arrivals|
        invariant done <==> old(done) || DONE in arrivals[..used]
        invariant !old(done) && done ==> used >= 1 && arrivals[used - 1] == DONE && DONE !in arrivals[..used - 1]
        invariant followers == old(followers) && queue == old(queue) && currentCategory == old(currentCategory)
        invariant commands == old(commands) && screen == old(screen)
      {
        assert arrivals[..used + 1] == arrivals[..used] + [arrivals[used]];
        OnDone(arrivals[used]);
        used := used + 1;
      }
    }

    /** One category of `play_loop`: it becomes current before anything
        else; without a block it is skipped with no command; otherwise PLAY
        goes out, the flag is cleared, the leader's screen starts the block,
        and only a `done` lets NEXT go out. */
    method Turn(fs: Files.Tree, base: string, cat: string, d: Blocks.Draw,
                unreachablePlay: set<string>, unreachableNext: set<string>, arrivals: seq<string>)
      returns (outcome: TurnOutcome, used: nat)
      requires DrawFits(fs, base, cat, d)
      modifies this
      ensures currentCategory == Some(cat) && queue == old(queue)
      ensures PickVideos(fs, base, cat, d) == [] ==>
                outcome == Skipped && used == 0 && followers == old(followers)
                && commands == old(commands) && done == old(done) && screen == old(screen)
      ensures PickVideos(fs, base, cat, d) != [] ==>
                screen == old(screen) + [PickVideos(fs, base, cat, d)]
                && (done <==> outcome == Advanced)
                && used <= |arrivals|
                && (outcome == Advanced <==> DONE in arrivals[..used])
                && (outcome == Advanced ==>
                      arrivals[used - 1] == DONE && DONE !in arrivals[..used - 1]
                      && followers == old(followers) - unreachablePlay - unreachableNext
                      && commands == old(commands) + [Sent("PLAY:" + cat, old(followers) - unreachablePlay),
                                                      Sent(NEXT, old(followers) - unreachablePlay - unreachableNext)])
                && (outcome != Advanced ==>
                      outcome == StillWaiting && used == |arrivals|
                      && followers == old(followers) - unreachablePlay
                      && commands == old(commands) + [Sent("PLAY:" + cat, old(followers) - unreachablePlay)])
    {
      currentCategory := Some(cat);
      var videos := PickVideos(fs, base, cat, d);
      if videos == [] {
        return Skipped, 0;
      }
      SendToFollowers("PLAY:" + cat, unreachablePlay);
      done := false;
      screen := screen + [videos];
      used := WaitDone(arrivals);
      if !done {
        return StillWaiting, used;
      }
      SendToFollowers(NEXT, unreachableNext);
      return Advanced, used;
    }

    /** One pass of `play_loop`: the queue is shuffled in place into `perm`
        and its categories take their turns in that order. A turn whose
        DONE datagrams run out without a `done` leaves the leader waiting,
        and the pass stops there; `turns` counts the turns completed before
        it. Everything sent up to that point is the round's command list
        for those categories (PLAY and NEXT for each playable one), then
        the lone PLAY of the category still waiting; the unreachable
        followers are gone after the first send and every message reaches
        the rest. */
    method PlayPass(fs: Files.Tree, base: string, perm: seq<string>, draws: seq<Blocks.Draw>,
                    unreachable: set<string>, arrivals: seq<seq<string>>) returns (turns: nat)
      requires multiset(perm) == multiset(queue)
      requires |draws| == |perm| && |arrivals| == |perm|
      requires forall i :: 0 <= i < |perm| ==> DrawFits(fs, base, perm[i], draws[i])
      modifies this
      ensures queue == perm && turns <= |perm|
      ensures followers <= old(followers) && followers - unreachable == old(followers) - unreachable
      ensures turns < |perm| ==>
                Waiting(fs, base, perm, draws, arrivals, turns, old(followers) - unreachable,
                        old(commands), old(screen), commands, screen, done, currentCategory)
      ensures turns == |perm| ==>
                Progress(fs, base, perm, draws, arrivals, turns, old(followers) - unreachable,
                         old(commands), old(screen), old(done), commands, screen, done)
      ensures turns == |perm| && perm != [] ==> currentCategory == Some(perm[|perm| - 1])
      ensures perm == [] ==> currentCategory == old(currentCategory)
    {
      ghost var reached := followers - unreachable;
      queue := perm;
      turns := 0;
      if perm == [] {  // no category, no turn
        return;
      }
      while turns < |perm|
        invariant turns <= |perm| && queue == perm
        invariant followers <= old(followers) && followers - unreachable == reached
        invariant turns > 0 ==> currentCategory == Some(perm[turns - 1])
        invariant Progress(fs, base, perm, draws, arrivals, turns, reached, old(commands), old(screen), old(done),
                           commands, screen, done)
      {
        var waiting := PassTurn(fs, base, perm, draws, turns, unreachable, arrivals, old(followers), reached,
                                old(commands), old(screen), old(done));
        if waiting {
          return;
        }
        turns := turns + 1;
      }
    }

    /** Turn `t` of a pass, in the terms of the pass: the command log and
        the answered turns grow by this category, or the leader is left
        waiting on it after its PLAY. */
    method PassTurn(fs: Files.Tree, base: string, perm: seq<string>, draws: seq<Blocks.Draw>, t: nat,
                    unreachable: set<string>, arrivals: seq<seq<string>>,
                    ghost f0: set<string>, ghost reached: set<string>, ghost c0: seq<Sent>,
                    ghost s0: seq<seq<string>>, ghost d0: bool)
      returns (waiting: bool)
      requires t < |perm| && |draws| == |perm| && |arrivals| == |perm|
      requires forall i :: 0 <= i < |perm| ==> DrawFits(fs, base, perm[i], draws[i])
      requires followers <= f0 && followers - unreachable == reached
      requires Progress(fs, base, perm, draws, arrivals, t, reached, c0, s0, d0, commands, screen, done)
      modifies this
      ensures queue == old(queue) && currentCategory == Some(perm[t])
      ensures followers <= f0 && followers - unreachable == reached
      ensures !waiting ==> Progress(fs, base, perm, draws, arrivals, t + 1, reached, c0, s0, d0, commands, screen, done)
      ensures waiting ==>
                Waiting(fs, base, perm, draws, arrivals, t, reached, c0, s0, commands, screen, done, currentCategory)
    {
      ghost var before := commands;
      ghost var f := followers;
      ghost var shownBefore, doneBefore := screen, done;
      assert f - unreachable - unreachable == f - unreachable;
      var outcome, used := Turn(fs, base, perm[t], draws[t], unreachable, unreachable, arrivals[t]);
      TurnExtends(fs, base, perm, t, reached, c0, before, commands, outcome == Advanced);
      PassScreensStep(fs, base, perm, draws, t);
      ScreenExtends(s0, d0, PassScreens(fs, base, perm, draws, t), PassScreens(fs, base, perm, draws, t + 1),
                    PickVideos(fs, base, perm[t], draws[t]), Playable(fs, base, perm[t]),
                    shownBefore, screen, doneBefore, done, outcome == Advanced);
      waiting := outcome == StillWaiting;
      if outcome == Advanced {
        InPrefix(DONE, arrivals[t], used);
      }
      if !waiting {
        AnsweredStep(fs, base, perm, t, arrivals);
      }
    }
  }
}
