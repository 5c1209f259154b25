/** HyperObject/leader2_modify.py: the leader of the HyperObject
    installation. It broadcasts its presence with the category queue (and
    the current category as a PLAY), keeps the set of registered followers,
    and walks the shuffled queue, playing one block per category. A text
    round counter staggers the text video: on round 0 the leader's block
    starts with a text video, on rounds 1 to 3 it is four plain videos, and
    the counter moves on only when a category was actually played.

    Handlers are atomic transitions on the module globals, the fields of
    `Leader`. The `done` the leader's own `send_done_later` thread raises two
    seconds after a block starts is taken as raised when the wait begins. A
    `send_to_followers` call is recorded as its text and the set of followers
    it reached; which sends raise is the input set `unreachable`. */
module HyperLeader {
  import opened Wrappers
  import Text
  import Blocks
  import Files
  import HyperVideos

  const LEADER_HERE: string := "LEADER_HERE:"
  const REGISTER: string := "REGISTER:"
  const DONE: string := "done"
  const NEXT: string := "NEXT"
  const BROADCAST: string := "<broadcast>"
  const PRESENCE_PORT: nat := 8888
  const COMMAND_PORT: nat := 9001

  datatype Datagram = Datagram(to: string, port: nat, text: string)

  /** One `send_to_followers` call: the text and who received it. */
  datatype Sent = Sent(text: string, to: set<string>)

  /** One beat of `broadcast_leader`: the presence datagram with the queue,
      and the current category as a PLAY command when one is set. */
  function Heartbeat(queue: seq<string>, current: Option<string>): (r: seq<Datagram>)
    ensures 1 <= |r| <= 2
    ensures r[0].port == PRESENCE_PORT && Text.StartsWith(r[0].text, LEADER_HERE)
    ensures Text.After(r[0].text, LEADER_HERE) == Text.JoinWith(queue, ',')
    ensures |r| == 2 <==> current.Some? && current.value != ""
    ensures |r| == 2 ==> r[1] == Datagram(BROADCAST, COMMAND_PORT, "PLAY:" + current.value)
  {
    var presence := Datagram(BROADCAST, PRESENCE_PORT, LEADER_HERE + Text.JoinWith(queue, ','));
    if current.Some? && current.value != "" then
      [presence, Datagram(BROADCAST, COMMAND_PORT, "PLAY:" + current.value)]
    else
      [presence]
  }

  /** The presence payload splits back into the queue, provided the queue is
      not empty and no category name holds a comma. */
  lemma HeartbeatCarriesQueue(queue: seq<string>, current: Option<string>)
    requires |queue| >= 1
    requires forall k :: 0 <= k < |queue| ==> ',' !in queue[k]
    ensures Text.Split(Text.After(Heartbeat(queue, current)[0].text, LEADER_HERE), ',') == queue
  {
    Text.SplitJoin(queue, ',');
  }

  // ---------------------------------------------------------------------
  // The text round over a pass of `play_loop`
  // ---------------------------------------------------------------------

  /** One step round the cycle of four, or none. */
  function NextRound(t: nat, step: bool): nat {
    if step then (t + 1) % 4 else t
  }

  /** The counter after one category: one step round the cycle of four if
      the category had a block for the variant its round asks for, no step
      if it was skipped. */
  function NextTextRound(fs: Files.Tree, base: string, cat: string, round: nat): nat {
    NextRound(round, HyperVideos.Playable(fs, base, cat, round == 0))
  }

  /** The counter after a sequence of categories. */
  function TextRoundAfter(fs: Files.Tree, base: string, cats: seq<string>, round: nat): (r: nat)
    ensures round < 4 ==> r < 4
    decreases |cats|
  {
    if cats == [] then round
    else NextTextRound(fs, base, cats[|cats| - 1], TextRoundAfter(fs, base, cats[..|cats| - 1], round))
  }

  /** How many of the categories were played rather than skipped. */
  function PlayedCount(fs: Files.Tree, base: string, cats: seq<string>, round: nat): (n: nat)
    ensures n <= |cats|
    decreases |cats|
  {
    if cats == [] then 0
    else
      var before := TextRoundAfter(fs, base, cats[..|cats| - 1], round);
      PlayedCount(fs, base, cats[..|cats| - 1], round)
      + (if HyperVideos.Playable(fs, base, cats[|cats| - 1], before == 0) then 1 else 0)
  }

  /** A counter kept as `x % 4` stays so when `x` counts one step more or none. */
  lemma CountStep(x: nat, t: nat, step: bool)
    requires t == x % 4
    ensures NextRound(t, step) == (x + (if step then 1 else 0)) % 4
  {
  }

  /** The last category of a sequence moves the counter on from where the
      ones before left it. */
  lemma TextRoundLast(fs: Files.Tree, base: string, cats: seq<string>, round: nat)
    requires cats != []
    ensures var before := TextRoundAfter(fs, base, cats[..|cats| - 1], round);
            var step := HyperVideos.Playable(fs, base, cats[|cats| - 1], before == 0);
            TextRoundAfter(fs, base, cats, round) == NextRound(before, step)
            && PlayedCount(fs, base, cats, round)
               == PlayedCount(fs, base, cats[..|cats| - 1], round) + (if step then 1 else 0)
  {
  }

  /** The counter only counts played categories: after any sequence it is
      the starting round plus the number played, modulo four. So exactly one
      played category in every four consecutive ones gets the text video. */
  lemma {:induction false} TextRoundCounts(fs: Files.Tree, base: string, cats: seq<string>, round: nat)
    requires round < 4
    ensures TextRoundAfter(fs, base, cats, round) == (round + PlayedCount(fs, base, cats, round)) % 4
    decreases |cats|
  {
    if cats != [] {
      var init := cats[..|cats| - 1];
      var before := TextRoundAfter(fs, base, init, round);
      var played := PlayedCount(fs, base, init, round);
      TextRoundCounts(fs, base, init, round);
      var step := HyperVideos.Playable(fs, base, cats[|cats| - 1], before == 0);
      CountStep(round + played, before, step);
      TextRoundLast(fs, base, cats, round);
    }
  }

  /** One more category at the end of the pass. */
  lemma TextRoundSnoc(fs: Files.Tree, base: string, cats: seq<string>, i: nat, round: nat)
    requires i < |cats|
    ensures TextRoundAfter(fs, base, cats[..i + 1], round)
            == NextTextRound(fs, base, cats[i], TextRoundAfter(fs, base, cats[..i], round))
    ensures PlayedCount(fs, base, cats[..i + 1], round)
            == PlayedCount(fs, base, cats[..i], round)
               + (if HyperVideos.Playable(fs, base, cats[i], TextRoundAfter(fs, base, cats[..i], round) == 0) then 1 else 0)
  {
    assert cats[..i + 1][..i] == cats[..i];
  }

  /** The playlist file the leader writes for a category in a round. */
  function PlaylistFor(fs: Files.Tree, base: string, cat: string, round: nat, p: HyperVideos.Pick): string {
    // A pick that does not fit the directories is never drawn.
    if HyperVideos.PickFits(fs, base, cat, p)
    then Text.Unframe(Blocks.Concat(HyperVideos.PickVideos(fs, base, cat, round == 0, p)), '\n')
    else ""
  }

  /** The playlists the leader plays in the first `n` categories of a pass
      over `perm` that starts at `round`: one per category that has a block
      for the variant its own round asks for, in order. */
  function PassPlaylists(fs: Files.Tree, base: string, perm: seq<string>, picks: seq<HyperVideos.Pick>,
                         n: nat, round: nat): seq<string>
    requires n <= |perm| <= |picks|
  {
    if n == 0 then []
    else
      var before := TextRoundAfter(fs, base, perm[..n - 1], round);
      PassPlaylists(fs, base, perm, picks, n - 1, round)
      + (if HyperVideos.Playable(fs, base, perm[n - 1], before == 0)
         then [PlaylistFor(fs, base, perm[n - 1], before, picks[n - 1])] else [])
  }

  /** One playlist per played category: the pass's playlists are as many as
      the categories it did not skip. */
  lemma {:induction false} PlaylistsCounted(fs: Files.Tree, base: string, perm: seq<string>,
                                           picks: seq<HyperVideos.Pick>, n: nat, round: nat)
    requires n <= |perm| <= |picks|
    ensures |PassPlaylists(fs, base, perm, picks, n, round)| == PlayedCount(fs, base, perm[..n], round)
  {
    if n > 0 {
      PlaylistsCounted(fs, base, perm, picks, n - 1, round);
      TextRoundSnoc(fs, base, perm, n - 1, round);
    }
  }

  /** The playlists grow by the block of every played category. */
  lemma PassPlaylistsStep(fs: Files.Tree, base: string, perm: seq<string>, picks: seq<HyperVideos.Pick>,
                          i: nat, round: nat)
    requires i < |perm| <= |picks|
    ensures var before := TextRoundAfter(fs, base, perm[..i], round);
            PassPlaylists(fs, base, perm, picks, i + 1, round)
            == PassPlaylists(fs, base, perm, picks, i, round)
               + (if HyperVideos.Playable(fs, base, perm[i], before == 0)
                  then [PlaylistFor(fs, base, perm[i], before, picks[i])] else [])
  {
  }

  /** The leader after the first `n` categories of a pass over `perm` that
      started with round `round0`, playlists `pl0`, log `s0`, followers `f0`,
      flag `d0` and category `c0`: the last category taken is current, the
      round has moved on by the played categories, their
      playlists were played, one NEXT per played category went to
      `reached`, and once one was sent the unreachable followers are gone
      and the flag is clear. */
  ghost predicate Progress(fs: Files.Tree, base: string, perm: seq<string>, picks: seq<HyperVideos.Pick>, n: nat,
                           round0: nat, pl0: seq<string>, s0: seq<Sent>, f0: set<string>, d0: bool,
                           c0: Option<string>, reached: set<string>, textRound: nat, playlists: seq<string>,
                           sent: seq<Sent>, followers: set<string>, done: bool, current: Option<string>)
    requires n <= |perm| <= |picks|
  {
    RoundSoFar(fs, base, perm, picks, n, round0, pl0, c0, textRound, playlists, current)
    && LogSoFar(s0, f0, d0, reached, PlayedCount(fs, base, perm[..n], round0), sent, followers, done)
  }

  /** The category, round and playlists after the first `n` categories. */
  ghost predicate RoundSoFar(fs: Files.Tree, base: string, perm: seq<string>, picks: seq<HyperVideos.Pick>, n: nat,
                             round0: nat, pl0: seq<string>, c0: Option<string>,
                             textRound: nat, playlists: seq<string>, current: Option<string>)
    requires n <= |perm| <= |picks|
  {
    current == (if n == 0 then c0 else Some(perm[n - 1]))
    && textRound == TextRoundAfter(fs, base, perm[..n], round0)
    && playlists == pl0 + PassPlaylists(fs, base, perm, picks, n, round0)
  }

  /** One more category for `RoundSoFar`; it counts as played exactly when
      `Turn` played it. */
  lemma RoundStep(fs: Files.Tree, base: string, perm: seq<string>, picks: seq<HyperVideos.Pick>, i: nat,
                  round0: nat, pl0: seq<string>, c0: Option<string>,
                  round: nat, pl: seq<string>, cur: Option<string>,
                  round': nat, pl': seq<string>, cur': Option<string>, played: bool)
    requires i < |perm| <= |picks|
    requires HyperVideos.PickFits(fs, base, perm[i], picks[i])
    requires RoundSoFar(fs, base, perm, picks, i, round0, pl0, c0, round, pl, cur)
    requires cur' == Some(perm[i])
    requires played <==> HyperVideos.Playable(fs, base, perm[i], round == 0)
    requires round' == NextTextRound(fs, base, perm[i], round)
    requires !played ==> pl' == pl
    requires played ==>
               pl' == pl + [Text.Unframe(Blocks.Concat(HyperVideos.PickVideos(fs, base, perm[i], round == 0, picks[i])), '\n')]
    ensures RoundSoFar(fs, base, perm, picks, i + 1, round0, pl0, c0, round', pl', cur')
    ensures PlayedCount(fs, base, perm[..i + 1], round0)
            == PlayedCount(fs, base, perm[..i], round0) + (if played then 1 else 0)
  {
    TextRoundSnoc(fs, base, perm, i, round0);
    PassPlaylistsStep(fs, base, perm, picks, i, round0);
    if played {
      assert pl' == pl0 + (PassPlaylists(fs, base, perm, picks, i, round0) + [PlaylistFor(fs, base, perm[i], round, picks[i])]);
    }
  }

  /** The log, followers and flag after `count` played categories: one NEXT
      to `reached` per played category after the starting log `s0`, and once
      one was sent the followers are `reached` and the flag is clear. */
  predicate LogSoFar(s0: seq<Sent>, f0: set<string>, d0: bool, reached: set<string>, count: nat,
                     sent: seq<Sent>, followers: set<string>, done: bool)
  {
    |sent| == |s0| + count && sent[..|s0|] == s0 && AllNextTo(sent[|s0|..], reached)
    && (count > 0 ==> followers == reached && !done)
    && (count == 0 ==> followers == f0 && done == d0)
  }

  /** What one category does to the pass state, in the terms `Turn`
      states it: skipped, nothing changes but the category; played, the
      round moves on, its playlist is played and a NEXT reaches the
      followers that are still reachable. */
  lemma ProgressStep(fs: Files.Tree, base: string, perm: seq<string>, picks: seq<HyperVideos.Pick>, i: nat,
                     round0: nat, pl0: seq<string>, s0: seq<Sent>, f0: set<string>, d0: bool, c0: Option<string>,
                     unreachable: set<string>,
                     round: nat, pl: seq<string>, sn: seq<Sent>, fo: set<string>, dn: bool, cur: Option<string>,
                     round': nat, pl': seq<string>, sn': seq<Sent>, fo': set<string>, dn': bool, cur': Option<string>,
                     played: bool)
    requires i < |perm| <= |picks|
    requires HyperVideos.PickFits(fs, base, perm[i], picks[i])
    requires Progress(fs, base, perm, picks, i, round0, pl0, s0, f0, d0, c0, f0 - unreachable,
                      round, pl, sn, fo, dn, cur)
    requires cur' == Some(perm[i])
    requires played <==> HyperVideos.Playable(fs, base, perm[i], round == 0)
    requires round' == NextTextRound(fs, base, perm[i], round)
    requires !played ==> fo' == fo && dn' == dn && sn' == sn && pl' == pl
    requires played ==>
               fo' == fo - unreachable && !dn' && sn' == sn + [Sent(NEXT, fo - unreachable)]
               && pl' == pl + [Text.Unframe(Blocks.Concat(HyperVideos.PickVideos(fs, base, perm[i], round == 0, picks[i])), '\n')]
    ensures Progress(fs, base, perm, picks, i + 1, round0, pl0, s0, f0, d0, c0, f0 - unreachable,
                     round', pl', sn', fo', dn', cur')
  {
    RoundStep(fs, base, perm, picks, i, round0, pl0, c0, round, pl, cur, round', pl', cur', played);
    LogStep(s0, sn, sn', f0, fo, fo', d0, dn, dn', unreachable,
            PlayedCount(fs, base, perm[..i], round0), PlayedCount(fs, base, perm[..i + 1], round0), played);
  }

  /** A pass that has taken all its categories, in the terms of `PlayPass`. */
  lemma ProgressEnd(fs: Files.Tree, base: string, perm: seq<string>, picks: seq<HyperVideos.Pick>,
                    round0: nat, pl0: seq<string>, s0: seq<Sent>, f0: set<string>, d0: bool, c0: Option<string>,
                    reached: set<string>,
                    round: nat, pl: seq<string>, sn: seq<Sent>, fo: set<string>, dn: bool, cur: Option<string>)
    requires |perm| <= |picks|
    requires Progress(fs, base, perm, picks, |perm|, round0, pl0, s0, f0, d0, c0, reached, round, pl, sn, fo, dn, cur)
    ensures round == TextRoundAfter(fs, base, perm, round0)
    ensures pl == pl0 + PassPlaylists(fs, base, perm, picks, |perm|, round0)
    ensures |pl| == |pl0| + PlayedCount(fs, base, perm, round0)
    ensures |sn| == |s0| + PlayedCount(fs, base, perm, round0)
    ensures sn[..|s0|] == s0 && AllNextTo(sn[|s0|..], reached)
    ensures PlayedCount(fs, base, perm, round0) > 0 ==> fo == reached && !dn
    ensures PlayedCount(fs, base, perm, round0) == 0 ==> fo == f0 && dn == d0
    ensures perm != [] ==> cur == Some(perm[|perm| - 1])
    ensures perm == [] ==> cur == c0
  {
    assert perm[..|perm|] == perm;
    PlaylistsCounted(fs, base, perm, picks, |perm|, round0);
  }

  /** Every message in `s` is a NEXT to the followers in `to`. */
  predicate AllNextTo(s: seq<Sent>, to: set<string>) {
    forall k :: 0 <= k < |s| ==> s[k] == Sent(NEXT, to)
  }

  /** The log, followers and flag after one more category: a played one
      sends one more NEXT to the followers still reachable, who are the
      same after the first send, and clears the flag; a skipped one changes
      none of them. */
  lemma LogStep(s0: seq<Sent>, sn: seq<Sent>, sn': seq<Sent>, f0: set<string>, fo: set<string>, fo': set<string>,
                d0: bool, dn: bool, dn': bool, unreachable: set<string>, count: nat, count': nat, played: bool)
    requires LogSoFar(s0, f0, d0, f0 - unreachable, count, sn, fo, dn)
    requires count' == count + (if played then 1 else 0)
    requires !played ==> fo' == fo && dn' == dn && sn' == sn
    requires played ==> fo' == fo - unreachable && !dn' && sn' == sn + [Sent(NEXT, fo - unreachable)]
    ensures LogSoFar(s0, f0, d0, f0 - unreachable, count', sn', fo', dn')
  {
    if played {
      var reached := f0 - unreachable;
      assert fo - unreachable == reached;
      assert sn'[..|s0|] == sn[..|s0|];
      assert sn'[|s0|..] == sn[|s0|..] + [Sent(NEXT, reached)];
    }
  }

  class Leader {
    var followers: set<string>
    var queue: seq<string>
    var currentCategory: Option<string>
    /** Which device shows the text video: 0 is the leader, 1 to 3 the followers. */
    var textRound: nat
    var done: bool
    /** Every `send_to_followers` call, oldest first. */
    var sent: seq<Sent>
    /** The playlist files the leader played, oldest first. */
    var playlists: seq<string>

    predicate Valid()
      reads this
    {
      textRound < 4
    }

    /** `main` up to the threads: the queue is the listing's sub-directories,
        in listing order (a missing base directory stops the program). */
    constructor (fs: Files.Tree, base: string)
      requires base in fs
      ensures Valid()
      ensures queue == Files.SubDirs(Files.Listing(fs, base))
      ensures followers == {} && currentCategory == None && textRound == 0 && !done
      ensures sent == [] && playlists == []
    {
      queue := Files.SubDirs(Files.Listing(fs, base));
      followers := {};
      currentCategory := None;
      textRound := 0;
      done := false;
      sent := [];
      playlists := [];
    }

    /** `listen_for_followers`, one datagram: a `REGISTER:` adds the sender. */
    method OnRegister(msg: string, sender: string)
      modifies this
      ensures Text.StartsWith(msg, REGISTER) ==> followers == old(followers) + {sender}
      ensures !Text.StartsWith(msg, REGISTER) ==> followers == old(followers)
      ensures queue == old(queue) && currentCategory == old(currentCategory) && textRound == old(textRound)
      ensures done == old(done) && sent == old(sent) && playlists == old(playlists)
    {
      if Text.StartsWith(msg, REGISTER) {
        followers := followers + {sender};
      }
    }

    /** `receive_done`, one datagram: only the exact text `done` counts. */
    method OnDone(msg: string)
      modifies this
      ensures done <==> old(done) || msg == DONE
      ensures followers == old(followers) && queue == old(queue) && currentCategory == old(currentCategory)
      ensures textRound == old(textRound) && sent == old(sent) && playlists == old(playlists)
    {
      if msg == DONE {
        done := true;
      }
    }

    /** `send_to_followers`: every follower is sent the message; those whose
        send raises are discarded from the set. */
    method SendToFollowers(message: string, unreachable: set<string>)
      modifies this
      ensures followers == old(followers) - unreachable
      ensures sent == old(sent) + [Sent(message, old(followers) - unreachable)]
      ensures queue == old(queue) && currentCategory == old(currentCategory) && textRound == old(textRound)
      ensures done == old(done) && playlists == old(playlists)
    {
      var pending := followers;
      var reached: set<string> := {};
      while pending != {}
        invariant pending <= old(followers)
        invariant reached == (old(followers) - pending) - unreachable
        invariant followers == old(followers) - ((old(followers) - pending) * unreachable)
        invariant sent == old(sent) && queue == old(queue) && currentCategory == old(currentCategory)
        invariant textRound == old(textRound) && done == old(done) && playlists == old(playlists)
        decreases pending
      {
        var ip :| ip in pending;
        if ip in unreachable {
          followers := followers - {ip};
        } else {
          reached := reached + {ip};
        }
        pending := pending - {ip};
      }
      assert reached == old(followers) - unreachable;
      sent := sent + [Sent(message, reached)];
    }

    /** One category of `play_loop`: it becomes current; round 0 asks for
        the block with text, the other rounds for four plain videos; without
        a block the category is skipped and the round stays; otherwise the
        leader plays the playlist, its `done` arrives, NEXT goes out, the
        flag is cleared and the round moves on. */
    method Turn(fs: Files.Tree, base: string, cat: string, p: HyperVideos.Pick, unreachable: set<string>)
      returns (played: bool)
      requires Valid() && HyperVideos.PickFits(fs, base, cat, p)
      modifies this
      ensures Valid() && queue == old(queue) && currentCategory == Some(cat)
      ensures played <==> HyperVideos.Playable(fs, base, cat, old(textRound) == 0)
      ensures textRound == NextTextRound(fs, base, cat, old(textRound))
      ensures !played ==>
                followers == old(followers) && done == old(done)
                && sent == old(sent) && playlists == old(playlists)
      ensures played ==>
                followers == old(followers) - unreachable && !done
                && sent == old(sent) + [Sent(NEXT, old(followers) - unreachable)]
                && playlists == old(playlists)
                   + [Text.Unframe(Blocks.Concat(HyperVideos.PickVideos(fs, base, cat, old(textRound) == 0, p)), '\n')]
    {
      currentCategory := Some(cat);
      var blocks := HyperVideos.PickVideos(fs, base, cat, textRound == 0, p);
      if blocks == [] {
        return false;
      }
      var playlist := HyperVideos.GeneratePlaylist(blocks);
      playlists := playlists + [playlist];
      // `send_done_later` raises the flag, so `done_flag.wait()` returns.
      done := true;
      SendToFollowers(NEXT, unreachable);
      done := false;
      textRound := (textRound + 1) % 4;
      return true;
    }

    /** One pass of `main`'s loop: `random.shuffle` reorders the queue in
        place (`perm` is the order it produced), then `play_loop` takes each
        category in turn. The round counter ends where the specification of
        the pass says; the leader plays the pass's playlists and sends one
        NEXT per played category, each to the followers it can reach; the
        unreachable ones are gone once anything was sent. */
    method PlayPass(fs: Files.Tree, base: string, perm: seq<string>, picks: seq<HyperVideos.Pick>,
                    unreachable: set<string>)
      requires Valid()
      requires multiset(perm) == multiset(queue)
      requires |picks| == |perm|
      requires forall i :: 0 <= i < |perm| ==> HyperVideos.PickFits(fs, base, perm[i], picks[i])
      modifies this
      ensures Valid() && queue == perm
      ensures textRound == TextRoundAfter(fs, base, perm, old(textRound))
      ensures playlists == old(playlists) + PassPlaylists(fs, base, perm, picks, |perm|, old(textRound))
      ensures |playlists| == |old(playlists)| + PlayedCount(fs, base, perm, old(textRound))
      ensures |sent| == |old(sent)| + PlayedCount(fs, base, perm, old(textRound))
      ensures sent[..|old(sent)|] == old(sent)
              && AllNextTo(sent[|old(sent)|..], old(followers) - unreachable)
      ensures PlayedCount(fs, base, perm, old(textRound)) > 0 ==>
                followers == old(followers) - unreachable && !done
      ensures PlayedCount(fs, base, perm, old(textRound)) == 0 ==>
                followers == old(followers) && done == old(done)
      ensures perm != [] ==> currentCategory == Some(perm[|perm| - 1])
      ensures perm == [] ==> currentCategory == old(currentCategory)
    {
      queue := perm;
      assert sent[..|sent|] == sent && sent[|sent|..] == [];
      for i := 0 to |perm|
        invariant Valid() && queue == perm
        invariant Progress(fs, base, perm, picks, i, old(textRound), old(playlists), old(sent), old(followers),
                           old(done), old(currentCategory), old(followers) - unreachable,
                           textRound, playlists, sent, followers, done, currentCategory)
      {
        PassTurn(fs, base, perm, picks, i, unreachable, old(textRound), old(playlists), old(sent),
                 old(followers), old(done), old(currentCategory));
      }
      ProgressEnd(fs, base, perm, picks, old(textRound), old(playlists), old(sent), old(followers), old(done),
                  old(currentCategory), old(followers) - unreachable,
                  textRound, playlists, sent, followers, done, currentCategory);
    }

    /** Category `i` of a pass, in the terms of the pass. */
    method PassTurn(fs: Files.Tree, base: string, perm: seq<string>, picks: seq<HyperVideos.Pick>, i: nat,
                    unreachable: set<string>, ghost round0: nat, ghost pl0: seq<string>, ghost s0: seq<Sent>,
                    ghost f0: set<string>, ghost d0: bool, ghost c0: Option<string>)
      requires Valid() && i < |perm| == |picks|
      requires HyperVideos.PickFits(fs, base, perm[i], picks[i])
      requires Progress(fs, base, perm, picks, i, round0, pl0, s0, f0, d0, c0, f0 - unreachable,
                        textRound, playlists, sent, followers, done, currentCategory)
      modifies this
      ensures Valid() && queue == old(queue)
      ensures Progress(fs, base, perm, picks, i + 1, round0, pl0, s0, f0, d0, c0, f0 - unreachable,
                       textRound, playlists, sent, followers, done, currentCategory)
    {
      ghost var round, pl, sn, fo, dn, cur := textRound, playlists, sent, followers, done, currentCategory;
      var played := Turn(fs, base, perm[i], picks[i], unreachable);
      ProgressStep(fs, base, perm, picks, i, round0, pl0, s0, f0, d0, c0, unreachable,
                   round, pl, sn, fo, dn, cur, textRound, playlists, sent, followers, done, currentCategory, played);
    }
  }
}
