/** HyperObject/follower2_org.py: a follower of the HyperObject
    installation. It takes the sender of the first `LEADER_HERE` broadcast as
    its leader, registers with it, and listens for commands: `CATEGORIAS:`
    replaces its category list, `PLAY:<category>` starts the category unless
    it is the one it last started, and `NEXT` is only acknowledged. A started
    category plays one block with text and reports `done` to the leader.

    The listener is an atomic transition on the module globals, the fields of
    `Follower`; the thread a PLAY starts is recorded as the category it was
    started for and run separately as `Reproduce`. */
module HyperFollower {
  import opened Wrappers
  import Text
  import Names
  import Blocks
  import Files
  import HyperVideos
  import HyperLeader

  const LEADER_HERE: string := "LEADER_HERE"
  const CATEGORIAS: string := "CATEGORIAS:"
  const PLAY: string := "PLAY:"
  const REGISTER_PORT: nat := 8899
  const DONE_PORT: nat := 9100

  /** A datagram as `recvfrom` returns it: the text and the sender's address. */
  datatype Arrival = Arrival(text: string, sender: string)

  // ---------------------------------------------------------------------
  // Leader discovery
  // ---------------------------------------------------------------------

  /** The position of the first arrival announcing a leader, if any. */
  function FirstLeaderHere(arrivals: seq<Arrival>): (r: Option<nat>)
    ensures r.Some? ==> r.value < |arrivals| && Text.StartsWith(arrivals[r.value].text, LEADER_HERE)
    ensures r.Some? ==> forall k :: 0 <= k < r.value ==> !Text.StartsWith(arrivals[k].text, LEADER_HERE)
    ensures r.None? ==> forall k :: 0 <= k < |arrivals| ==> !Text.StartsWith(arrivals[k].text, LEADER_HERE)
    decreases |arrivals|
  {
    if arrivals == [] then None
    else if Text.StartsWith(arrivals[0].text, LEADER_HERE) then Some(0)
    else
      var rest := FirstLeaderHere(arrivals[1..]);
      if rest.None? then None else Some(rest.value + 1)
  }

  // ---------------------------------------------------------------------
  // The command listener as a function of its state
  // ---------------------------------------------------------------------

  /** The listener's state: `CATEGORIAS` and `ultima_categoria`. */
  datatype Listener = Listener(categorias: seq<string>, ultima: Option<string>)

  /** No datagram starts with both command prefixes. */
  lemma PrefixesExclusive(msg: string)
    ensures !(Text.StartsWith(msg, CATEGORIAS) && Text.StartsWith(msg, PLAY))
  {
    if Text.StartsWith(msg, CATEGORIAS) {
      assert msg[0] == CATEGORIAS[0] == 'C';
    }
  }

  /** One datagram on the command port: the new state, and the category a
      playback thread is started for, if any. */
  function Listen(l: Listener, msg: string): (r: (Listener, Option<string>))
    ensures Text.StartsWith(msg, CATEGORIAS) ==>
              r == (Listener(Text.Split(Text.After(msg, CATEGORIAS), ','), l.ultima), None)
    ensures !Text.StartsWith(msg, PLAY) ==> r.1 == None && r.0.ultima == l.ultima
    ensures Text.StartsWith(msg, PLAY) ==>
              r.0 == Listener(l.categorias, Some(Text.After(msg, PLAY)))
              && (r.1.Some? <==> l.ultima != Some(Text.After(msg, PLAY)))
              && (r.1.Some? ==> r.1.value == Text.After(msg, PLAY))
    ensures !Text.StartsWith(msg, CATEGORIAS) && !Text.StartsWith(msg, PLAY) ==> r.0 == l
  {
    PrefixesExclusive(msg);
    if Text.StartsWith(msg, CATEGORIAS) then
      (Listener(Text.Split(Text.After(msg, CATEGORIAS), ','), l.ultima), None)
    else if Text.StartsWith(msg, PLAY) then
      var cat := Text.After(msg, PLAY);
      if Some(cat) != l.ultima then (Listener(l.categorias, Some(cat)), Some(cat))
      else (l, None)
    else
      (l, None)
  }

  /** A NEXT changes nothing and starts nothing. */
  lemma NextIgnored(l: Listener)
    ensures Listen(l, "NEXT") == (l, None)
  {
  }

  /** A PLAY heard twice in a row starts its category at most once: the
      repeat finds it already recorded. */
  lemma PlayDebounced(l: Listener, cat: string)
    ensures var first := Listen(l, PLAY + cat);
            first.0.ultima == Some(cat) && Listen(first.0, PLAY + cat) == (first.0, None)
  {
    assert Text.StartsWith(PLAY + cat, PLAY);
    PrefixesExclusive(PLAY + cat);
    assert Text.After(PLAY + cat, PLAY) == cat;
  }

  /** A category list sent as `CATEGORIAS:a,b,...` arrives intact, provided
      it is not empty and no name holds a comma. */
  lemma CategoriesArrive(l: Listener, cats: seq<string>)
    requires |cats| >= 1
    requires forall k :: 0 <= k < |cats| ==> ',' !in cats[k]
    ensures Listen(l, CATEGORIAS + Text.JoinWith(cats, ',')).0 == Listener(cats, l.ultima)
  {
    assert Text.StartsWith(CATEGORIAS + Text.JoinWith(cats, ','), CATEGORIAS);
    assert Text.After(CATEGORIAS + Text.JoinWith(cats, ','), CATEGORIAS) == Text.JoinWith(cats, ',');
    Text.SplitJoin(cats, ',');
  }

  /** A stream of datagrams: the final state and the categories started, in
      order. */
  function ListenAll(l: Listener, msgs: seq<string>): (Listener, seq<string>)
    decreases |msgs|
  {
    if msgs == [] then (l, [])
    else
      var before := ListenAll(l, msgs[..|msgs| - 1]);
      var step := Listen(before.0, msgs[|msgs| - 1]);
      (step.0, before.1 + if step.1.Some? then [step.1.value] else [])
  }

  /** Over any stream, no category is started twice in a row, the first one
      started is not the one recorded at the outset, and the record is the
      last one started. */
  lemma {:induction false} NeverTwiceInARow(l: Listener, msgs: seq<string>)
    ensures var r := ListenAll(l, msgs);
            (forall k :: 0 <= k < |r.1| - 1 ==> r.1[k] != r.1[k + 1])
            && (r.1 != [] ==> Some(r.1[0]) != l.ultima && r.0.ultima == Some(r.1[|r.1| - 1]))
            && (r.1 == [] ==> r.0.ultima == l.ultima)
    decreases |msgs|
  {
    if msgs != [] {
      var init := msgs[..|msgs| - 1];
      NeverTwiceInARow(l, init);
      var before := ListenAll(l, init);
      var step := Listen(before.0, msgs[|msgs| - 1]);
      if step.1.Some? && before.1 != [] {
        assert before.0.ultima == Some(before.1[|before.1| - 1]);
      }
    }
  }

  /** The leader's heartbeat PLAY for its current category starts that
      category on a follower that did not last start it, and every later
      beat for the same category starts nothing. */
  lemma HeartbeatStartsOnce(queue: seq<string>, cat: string, l: Listener)
    requires cat != ""
    ensures var beat := HyperLeader.Heartbeat(queue, Some(cat))[1].text;
            var first := Listen(l, beat);
            (first.1 == Some(cat) <==> l.ultima != Some(cat))
            && Listen(first.0, beat) == (first.0, None)
  {
    var beat := HyperLeader.Heartbeat(queue, Some(cat))[1].text;
    assert beat == PLAY + cat;
    PlayDebounced(l, cat);
  }

  /** `pick_videos`: the variant with text of the shared selection; nothing
      when a directory is missing or there is no text video or fewer than
      three videos, else one block of the category's own videos. */
  function PickVideos(fs: Files.Tree, base: string, cat: string, p: HyperVideos.Pick): (r: seq<seq<string>>)
    requires HyperVideos.PickFits(fs, base, cat, p)
    ensures r == [] <==>
              HyperVideos.TextDir(base, cat) !in fs || HyperVideos.VideoDir(base, cat) !in fs
              || |HyperVideos.Listed(fs, HyperVideos.TextDir(base, cat))| < 1
              || |HyperVideos.Listed(fs, HyperVideos.VideoDir(base, cat))| < 3
    ensures r != [] ==>
              |r| == 1
              && Blocks.IsBlock(r[0], Names.JoinAll(HyperVideos.TextDir(base, cat), HyperVideos.Listed(fs, HyperVideos.TextDir(base, cat))),
                                      Names.JoinAll(HyperVideos.VideoDir(base, cat), HyperVideos.Listed(fs, HyperVideos.VideoDir(base, cat))))
  {
    HyperVideos.PickVideosShape(fs, base, cat, true, p);
    HyperVideos.PickVideos(fs, base, cat, true, p)
  }

  class Follower {
    var leaderIp: Option<string>
    var categorias: seq<string>
    var ultima: Option<string>
    /** The categories a playback thread was started for, oldest first. */
    var started: seq<string>
    /** The playlist files played, oldest first. */
    var screen: seq<string>
    var outbox: seq<HyperLeader.Datagram>

    function State(): Listener
      reads this
    {
      Listener(categorias, ultima)
    }

    constructor ()
      ensures leaderIp == None && categorias == [] && ultima == None
      ensures started == [] && screen == [] && outbox == []
    {
      leaderIp := None;
      categorias := [];
      ultima := None;
      started := [];
      screen := [];
      outbox := [];
    }

    /** `discover_leader`: reads datagrams until one starts with
        `LEADER_HERE` and keeps its sender; nothing is read once a leader is
        known. */
    method DiscoverLeader(arrivals: seq<Arrival>) returns (used: nat)
      modifies this
      ensures used <= |arrivals|
      ensures old(leaderIp).Some? && old(leaderIp).value != "" ==> leaderIp == old(leaderIp) && used == 0
      ensures !(old(leaderIp).Some? && old(leaderIp).value != "") ==>
                match FirstLeaderHere(arrivals)
                case Some(k) => leaderIp == Some(arrivals[k].sender) && used == k + 1
                case None => leaderIp == old(leaderIp) && used == |arrivals|
      ensures categorias == old(categorias) && ultima == old(ultima) && started == old(started)
      ensures screen == old(screen) && outbox == old(outbox)
    {
      used := 0;
      while !(leaderIp.Some? && leaderIp.value != "") && used < |arrivals|
        invariant used <= |arrivals|
        invariant old(leaderIp).Some? && old(leaderIp).value != "" ==> leaderIp == old(leaderIp) && used == 0
        invariant !(old(leaderIp).Some? && old(leaderIp).value != "") ==>
                    leaderIp == old(leaderIp)
                    && forall k :: 0 <= k < used ==> !Text.StartsWith(arrivals[k].text, LEADER_HERE)
        invariant categorias == old(categorias) && ultima == old(ultima) && started == old(started)
        invariant screen == old(screen) && outbox == old(outbox)
      {
        if Text.StartsWith(arrivals[used].text, LEADER_HERE) {
          leaderIp := Some(arrivals[used].sender);
          used := used + 1;
          FirstLeaderAt(arrivals, used - 1);
          return;
        }
        used := used + 1;
      }
      if !(old(leaderIp).Some? && old(leaderIp).value != "") {
        NoLeaderHere(arrivals);
      }
    }

    /** `register_with_leader`: a `REGISTER:<host>` datagram to the leader;
        without a leader the send raises and nothing goes out. */
    method RegisterWithLeader(host: string)
      modifies this
      ensures leaderIp.Some? ==> outbox == old(outbox) + [HyperLeader.Datagram(leaderIp.value, REGISTER_PORT, "REGISTER:" + host)]
      ensures leaderIp.None? ==> outbox == old(outbox)
      ensures leaderIp == old(leaderIp) && categorias == old(categorias) && ultima == old(ultima)
      ensures started == old(started) && screen == old(screen)
    {
      if leaderIp.Some? {
        outbox := outbox + [HyperLeader.Datagram(leaderIp.value, REGISTER_PORT, "REGISTER:" + host)];
      }
    }

    /** `listen_commands`, one datagram: the category list is cleared and
        refilled in place, a new PLAY is recorded and starts a thread. */
    method OnCommand(msg: string) returns (launch: Option<string>)
      modifies this
      ensures (State(), launch) == Listen(old(State()), msg)
      ensures started == old(started) + (if launch.Some? then [launch.value] else [])
      ensures leaderIp == old(leaderIp) && screen == old(screen) && outbox == old(outbox)
    {
      launch := None;
      PrefixesExclusive(msg);
      if Text.StartsWith(msg, CATEGORIAS) {
        categorias := [];
        categorias := categorias + Text.Split(Text.After(msg, CATEGORIAS), ',');
        assert State() == Listener(Text.Split(Text.After(msg, CATEGORIAS), ','), old(ultima));
      } else if Text.StartsWith(msg, PLAY) {
        var cat := Text.After(msg, PLAY);
        if Some(cat) != ultima {
          ultima := Some(cat);
          started := started + [cat];
          launch := Some(cat);
        }
      }
    }

    /** `reproduce_categoria`: plays the category's block and reports `done`
        to the leader; without a block nothing happens. */
    method Reproduce(fs: Files.Tree, base: string, cat: string, p: HyperVideos.Pick) returns (played: bool)
      requires HyperVideos.PickFits(fs, base, cat, p)
      modifies this
      ensures played <==> HyperVideos.Playable(fs, base, cat, true)
      ensures !played ==> screen == old(screen) && outbox == old(outbox)
      ensures played ==>
                screen == old(screen) + [Text.Unframe(Blocks.Concat(PickVideos(fs, base, cat, p)), '\n')]
                && outbox == old(outbox)
                   + (if leaderIp.Some? then [HyperLeader.Datagram(leaderIp.value, DONE_PORT, "done")] else [])
      ensures leaderIp == old(leaderIp) && categorias == old(categorias) && ultima == old(ultima)
      ensures started == old(started)
    {
      var videos := PickVideos(fs, base, cat, p);
      if videos == [] {
        return false;
      }
      var playlist := HyperVideos.GeneratePlaylist(videos);
      screen := screen + [playlist];
      if leaderIp.Some? {
        outbox := outbox + [HyperLeader.Datagram(leaderIp.value, DONE_PORT, "done")];
      }
      return true;
    }
  }

  lemma FirstLeaderAt(arrivals: seq<Arrival>, k: nat)
    requires k < |arrivals| && Text.StartsWith(arrivals[k].text, LEADER_HERE)
    requires forall j :: 0 <= j < k ==> !Text.StartsWith(arrivals[j].text, LEADER_HERE)
    ensures FirstLeaderHere(arrivals) == Some(k)
  {
  }

  lemma NoLeaderHere(arrivals: seq<Arrival>)
    requires forall j :: 0 <= j < |arrivals| ==> !Text.StartsWith(arrivals[j].text, LEADER_HERE)
    ensures FirstLeaderHere(arrivals) == None
  {
  }
}
