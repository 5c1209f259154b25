/** HyperObjectLumalogy/leader.py: despite its name, a follower screen with
    an offline fallback. In SYNC it plays what the leader commands and
    reports `done`; when no leader has been heard for OFFLINE_AFTER it goes
    OFFLINE, forgets the leader and plays cached categories on its own,
    without reporting; a `LEADER_HERE:` brings it back to SYNC.

    Each handler is one atomic transition on the module globals, which are
    the fields of `Node`; `play_category` is split at the launch of mpv as
    in `LumaFollower`. Time is an integer count of milliseconds. */
module LumaNode {
  import opened Wrappers
  import Text
  import Blocks
  import Files
  import Names
  import opened LumaCache

  const REGISTER_PORT: nat := 8899
  const DONE_PORT: nat := 9100
  /** `OFFLINE_AFTER = 15` seconds */
  const OFFLINE_AFTER: int := 15000
  const LEADER_HERE: string := "LEADER_HERE:"
  const DONE: string := "done"

  datatype Mode = Sync | Offline

  datatype Datagram = Datagram(to: string, port: nat, text: string)

  datatype Start = Busy | NoMaterial | Started(items: seq<string>)

  datatype Heard =
    | NotSyncing                // the node is OFFLINE: every command is dropped
    | NotFromLeader             // a leader is known and the sender is another host
    | Debounced                 // PLAY for the current category
    | Launched(start: Start)    // PLAY for another category
    | NextHeard                 // NEXT: nothing changes
    | Unknown                   // anything else

  datatype OfflineTurn =
    | Waiting                   // not OFFLINE, or nothing cached: the loop sleeps
    | PlayedAlone(start: Start) // one category played without reporting

  /** `pick_audio_deterministic`: like `pick_audio`, but over the audio
      names sorted, so the track does not depend on listing order. */
  function PickAudioDeterministic(fs: Files.Tree, dir: string, host: string): (r: Option<string>)
    ensures r.None? <==> dir !in fs || AudioNames(fs, dir) == []
    ensures r.Some? ==> exists n :: n in AudioNames(fs, dir) && r.value == Names.PathJoin(dir, n)
  {
    if dir !in fs then None
    else
      var sorted := Names.Sort(AudioNames(fs, dir));
      assert |sorted| == |multiset(sorted)| == |AudioNames(fs, dir)|;
      var r := HostTrack(dir, sorted, host);
      if r.Some? then
        var i :| 0 <= i < |sorted| && Names.JoinAll(dir, sorted)[i] == r.value;
        assert sorted[i] in multiset(AudioNames(fs, dir));
        r
      else r
  }

  /** Two listings of the audio directory that hold the same names, in
      whatever order, give every host the same track. */
  lemma AudioIgnoresListingOrder(fs1: Files.Tree, fs2: Files.Tree, dir: string, host: string)
    requires dir in fs1 <==> dir in fs2
    requires multiset(Files.NamesOf(Files.Listing(fs1, dir))) == multiset(Files.NamesOf(Files.Listing(fs2, dir)))
    ensures PickAudioDeterministic(fs1, dir, host) == PickAudioDeterministic(fs2, dir, host)
  {
    Names.KeepPermutation(Files.NamesOf(Files.Listing(fs1, dir)), Files.NamesOf(Files.Listing(fs2, dir)), AUDIO_EXTENSIONS);
    Names.SortCanonical(AudioNames(fs1, dir), AudioNames(fs2, dir));
  }

  function DoneFor(leaderIp: Option<string>): (r: seq<Datagram>)
    ensures r != [] <==> leaderIp.Some? && leaderIp.value != ""
    ensures r != [] ==> r == [Datagram(leaderIp.value, DONE_PORT, DONE)]
  {
    if leaderIp.Some? && leaderIp.value != "" then [Datagram(leaderIp.value, DONE_PORT, DONE)] else []
  }

  // ---------------------------------------------------------------------
  // `discover_leader_loop`: the mode, the leader's address and the time the
  // last heartbeat came in.
  // ---------------------------------------------------------------------

  datatype Presence = Presence(mode: Mode, leaderIp: Option<string>, lastSeen: int)

  /** What the node believes before any datagram. */
  const INITIAL: Presence := Presence(Sync, None, 0)

  /** An OFFLINE node has forgotten its leader. */
  predicate Consistent(p: Presence) {
    p.mode == Offline ==> p.leaderIp == None
  }

  /** A heartbeat: seen now, its sender is the leader, back to SYNC. */
  function Heartbeat(p: Presence, msg: string, sender: string, now: int): (q: Presence)
    ensures Text.StartsWith(msg, LEADER_HERE) ==> q == Presence(Sync, Some(sender), now)
    ensures !Text.StartsWith(msg, LEADER_HERE) ==> q == p
  {
    if Text.StartsWith(msg, LEADER_HERE) then Presence(Sync, Some(sender), now) else p
  }

  /** The watchdog check: silence longer than OFFLINE_AFTER turns a node
      that is not yet OFFLINE offline and forgets the leader. */
  function Watchdog(p: Presence, now: int): (q: Presence)
    ensures now - p.lastSeen > OFFLINE_AFTER ==> q.mode == Offline
    ensures now - p.lastSeen > OFFLINE_AFTER && p.mode == Sync ==> q.leaderIp == None
    ensures now - p.lastSeen <= OFFLINE_AFTER ==> q == p
    ensures q.lastSeen == p.lastSeen
  {
    if now - p.lastSeen > OFFLINE_AFTER && p.mode != Offline then Presence(Offline, None, p.lastSeen) else p
  }

  /** One pass of the loop, after `recvfrom` returned a datagram. */
  function OnDatagram(p: Presence, msg: string, sender: string, now: int): Presence {
    Watchdog(Heartbeat(p, msg, sender, now), now)
  }

  /** A pass keeps an OFFLINE node without a leader. */
  lemma OnDatagramConsistent(p: Presence, msg: string, sender: string, now: int)
    requires Consistent(p)
    ensures Consistent(OnDatagram(p, msg, sender, now))
    ensures Consistent(Watchdog(p, now))
  {
  }

  /** The registration a heartbeat triggers: only when the address changed,
      and only to a non-empty one. */
  function RegisterFor(p: Presence, msg: string, sender: string, host: string): (r: seq<Datagram>)
    ensures r != [] <==> Text.StartsWith(msg, LEADER_HERE) && p.leaderIp != Some(sender) && sender != ""
    ensures r != [] ==> r == [Datagram(sender, REGISTER_PORT, "REGISTER:" + host)]
  {
    if Text.StartsWith(msg, LEADER_HERE) && p.leaderIp != Some(sender) && sender != ""
    then [Datagram(sender, REGISTER_PORT, "REGISTER:" + host)]
    else []
  }

  /** What happens at a moment: a datagram arrives, or time passes with
      the socket silent. */
  datatype Moment = Arrival(msg: string, sender: string, at: int) | Silence(at: int)

  /** The loop as written: it only runs after `recvfrom` returns, so a
      silent moment changes nothing. */
  function RunAsWritten(p: Presence, ms: seq<Moment>): Presence
    decreases |ms|
  {
    if ms == [] then p
    else
      var q := RunAsWritten(p, ms[..|ms| - 1]);
      match ms[|ms| - 1]
      case Arrival(msg, sender, at) => OnDatagram(q, msg, sender, at)
      case Silence(_) => q
  }

  /** A leader heard once and then gone: a minute later the node is still
      in SYNC, still bound to the vanished leader, and the offline player
      never starts. */
  lemma SilentLeaderKeepsSync()
    ensures var p := RunAsWritten(INITIAL, [Arrival("LEADER_HERE:", "10.0.0.1", 1000), Silence(61000)]);
            p.mode == Sync && p.leaderIp == Some("10.0.0.1") && 61000 - p.lastSeen > OFFLINE_AFTER
  {
    var ms := [Arrival("LEADER_HERE:", "10.0.0.1", 1000), Silence(61000)];
    assert ms[..1] == [Arrival("LEADER_HERE:", "10.0.0.1", 1000)];
    assert ms[..1][..0] == [];
    assert Text.StartsWith("LEADER_HERE:", LEADER_HERE);
  }

  /** The loop with the watchdog also run when the socket stays silent. */
  function Step(p: Presence, m: Moment): Presence {
    match m
    case Arrival(msg, sender, at) => OnDatagram(p, msg, sender, at)
    case Silence(at) => Watchdog(p, at)
  }

  function RunWatched(p: Presence, ms: seq<Moment>): Presence
    decreases |ms|
  {
    if ms == [] then p else Step(RunWatched(p, ms[..|ms| - 1]), ms[|ms| - 1])
  }

  /** With the watchdog run on silence too, whenever the node looks at the
      clock and the last heartbeat is older than OFFLINE_AFTER, it is
      OFFLINE and has no leader, whatever happened before. */
  lemma {:induction false} WatchedGoesOffline(ms: seq<Moment>)
    requires ms != []
    requires ms[|ms| - 1].at - RunWatched(INITIAL, ms).lastSeen > OFFLINE_AFTER
    ensures RunWatched(INITIAL, ms).mode == Offline && RunWatched(INITIAL, ms).leaderIp == None
  {
    RunWatchedConsistent(ms[..|ms| - 1]);
  }

  lemma {:induction false} RunWatchedConsistent(ms: seq<Moment>)
    ensures Consistent(RunWatched(INITIAL, ms))
    decreases |ms|
  {
    if ms != [] {
      RunWatchedConsistent(ms[..|ms| - 1]);
    }
  }

  /** The loop of `build_cache` over the sorted names: a fresh dictionary
      holding the pools of exactly those categories. */
  method CollectPools(fs: Files.Tree, base: string, cats: seq<string>) returns (tmp: Cache)
    ensures forall c :: c in tmp <==> c in cats
    ensures forall c :: c in tmp ==> tmp[c] == CategoryPools(fs, base, c)
  {
    tmp := map[];
    for i := 0 to |cats|
      invariant forall c :: c in tmp <==> c in cats[..i]
      invariant forall c :: c in tmp ==> tmp[c] == CategoryPools(fs, base, c)
    {
      assert cats[..i + 1] == cats[..i] + [cats[i]];
      tmp := tmp[cats[i] := CategoryPools(fs, base, cats[i])];
    }
    assert cats[..|cats|] == cats;
  }

  class Node {
    var cache: Cache
    var mode: Mode
    var leaderIp: Option<string>
    /** `last_seen` of the discovery loop */
    var lastSeen: int
    var currentCategory: Option<string>
    var playing: bool
    var outbox: seq<Datagram>
    const host: string

    function Status(): Presence
      reads this
    {
      Presence(mode, leaderIp, lastSeen)
    }

    predicate KnowsLeader()
      reads this
    {
      leaderIp.Some? && leaderIp.value != ""
    }

    constructor (host: string)
      ensures Status() == INITIAL && cache == map[] && currentCategory == None
      ensures !playing && outbox == [] && this.host == host
    {
      this.host := host;
      cache := map[];
      mode := Sync;
      leaderIp := None;
      lastSeen := 0;
      currentCategory := None;
      playing := false;
      outbox := [];
    }

    /** `build_cache`: nothing when the base directory is missing; otherwise
        the cache is replaced by one entry per sub-directory. */
    method BuildCache(fs: Files.Tree, base: string)
      modifies this
      ensures base !in fs ==> cache == old(cache)
      ensures base in fs ==> forall c :: c in cache <==> c in Files.SubDirs(Files.Listing(fs, base))
      ensures base in fs ==> forall c :: c in cache ==> cache[c] == CategoryPools(fs, base, c)
      ensures Status() == old(Status()) && currentCategory == old(currentCategory)
      ensures playing == old(playing) && outbox == old(outbox)
    {
      if base !in fs {
        return;
      }
      var cats := Names.Sort(Files.SubDirs(Files.Listing(fs, base)));
      var tmp := CollectPools(fs, base, cats);
      Names.SortMembers(Files.SubDirs(Files.Listing(fs, base)));
      cache := tmp;
    }

    method StartCategory(cat: string, d: Blocks.Draw) returns (s: Start)
      requires DrawFits(cache, cat, d)
      modifies this
      ensures cache == old(cache) && Status() == old(Status()) && outbox == old(outbox)
      ensures old(playing) ==> s == Busy && playing && currentCategory == old(currentCategory)
      ensures !old(playing) ==>
                currentCategory == Some(cat)
                && (s == NoMaterial <==> MakePlaylist(cache, cat, d).None?)
                && (s.Started? ==> MakePlaylist(cache, cat, d) == Some(s.items))
                && s != Busy && playing == s.Started?
    {
      if playing {
        return Busy;
      }
      playing := true;
      currentCategory := Some(cat);
      var pl := MakePlaylist(cache, cat, d);
      if pl.None? {
        playing := false;
        return NoMaterial;
      }
      return Started(pl.value);
    }

    method SendDone()
      modifies this
      ensures outbox == old(outbox) + DoneFor(leaderIp)
      ensures cache == old(cache) && Status() == old(Status())
      ensures currentCategory == old(currentCategory) && playing == old(playing)
    {
      if KnowsLeader() {
        outbox := outbox + [Datagram(leaderIp.value, DONE_PORT, DONE)];
      }
    }

    /** `play_category` once mpv has exited: `done` only when asked to report
        and a leader is known; the flag is cleared either way. */
    method FinishCategory(reportDone: bool)
      modifies this
      ensures outbox == old(outbox) + (if reportDone then DoneFor(leaderIp) else [])
      ensures !playing
      ensures cache == old(cache) && Status() == old(Status()) && currentCategory == old(currentCategory)
    {
      if reportDone {
        SendDone();
      }
      playing := false;
    }

    /** `discover_leader_loop`, one datagram: the heartbeat rule, the
        registration when the leader's address changed, then the watchdog. */
    method OnBroadcast(msg: string, sender: string, now: int)
      modifies this
      ensures Status() == OnDatagram(old(Status()), msg, sender, now)
      ensures outbox == old(outbox) + RegisterFor(old(Status()), msg, sender, host)
      ensures cache == old(cache) && currentCategory == old(currentCategory) && playing == old(playing)
    {
      if Text.StartsWith(msg, LEADER_HERE) {
        lastSeen := now;
        var changed := leaderIp != Some(sender);
        leaderIp := Some(sender);
        if changed && sender != "" {
          outbox := outbox + [Datagram(sender, REGISTER_PORT, "REGISTER:" + host)];
        }
        mode := Sync;
      }
      if now - lastSeen > OFFLINE_AFTER && mode != Offline {
        mode := Offline;
        leaderIp := None;
      }
    }

    /** The watchdog run on its own when no datagram has come in. */
    method Tick(now: int)
      modifies this
      ensures Status() == Watchdog(old(Status()), now)
      ensures cache == old(cache) && currentCategory == old(currentCategory)
      ensures playing == old(playing) && outbox == old(outbox)
    {
      if now - lastSeen > OFFLINE_AFTER && mode != Offline {
        mode := Offline;
        leaderIp := None;
      }
    }

    /** `listen_commands_loop`, one datagram, stripped: dropped unless in
        SYNC and from the known leader (any sender while none is known); a
        PLAY for the current category is ignored, another PLAY starts
        `play_category` with reporting, NEXT changes nothing. */
    method OnCommand(msg: string, sender: string, d: Blocks.Draw) returns (h: Heard)
      requires var m := Text.Strip(msg);
               Text.StartsWith(m, "PLAY:") ==> DrawFits(cache, Text.After(m, "PLAY:"), d)
      modifies this
      ensures cache == old(cache) && Status() == old(Status()) && outbox == old(outbox)
      ensures old(mode) != Sync ==>
                h == NotSyncing && currentCategory == old(currentCategory) && playing == old(playing)
      ensures old(mode) == Sync && old(KnowsLeader()) && sender != old(leaderIp).value ==>
                h == NotFromLeader && currentCategory == old(currentCategory) && playing == old(playing)
      ensures var m := Text.Strip(msg);
              old(mode) == Sync && !(old(KnowsLeader()) && sender != old(leaderIp).value) && Text.StartsWith(m, "PLAY:") ==>
                (old(currentCategory) == Some(Text.After(m, "PLAY:")) ==>
                   h == Debounced && currentCategory == old(currentCategory) && playing == old(playing))
                && (old(currentCategory) != Some(Text.After(m, "PLAY:")) ==>
                      h.Launched? && (h.start == Busy <==> old(playing))
                      && (old(playing) ==> playing && currentCategory == old(currentCategory))
                      && (!old(playing) ==>
                            var cat := Text.After(m, "PLAY:");
                            currentCategory == Some(cat)
                            && (h.start == NoMaterial <==> MakePlaylist(cache, cat, d).None?)
                            && (h.start.Started? ==> MakePlaylist(cache, cat, d) == Some(h.start.items))
                            && playing == h.start.Started?))
      ensures h in {NextHeard, Unknown} ==> currentCategory == old(currentCategory) && playing == old(playing)
      ensures old(mode) == Sync && !(old(KnowsLeader()) && sender != old(leaderIp).value) && Text.Strip(msg) == "NEXT" ==>
                h == NextHeard
      ensures var m := Text.Strip(msg);
              old(mode) == Sync && !(old(KnowsLeader()) && sender != old(leaderIp).value)
              && !Text.StartsWith(m, "PLAY:") && m != "NEXT" ==>
                h == Unknown
    {
      var m := Text.Strip(msg);
      if mode != Sync {
        return NotSyncing;
      }
      if KnowsLeader() && sender != leaderIp.value {
        return NotFromLeader;
      }
      if Text.StartsWith(m, "PLAY:") {
        var cat := Text.After(m, "PLAY:");
        if currentCategory == Some(cat) {
          return Debounced;
        }
        var s := StartCategory(cat, d);
        return Launched(s);
      } else if m == "NEXT" {
        return NextHeard;
      }
      return Unknown;
    }

    /** `offline_player_loop`, one turn: only OFFLINE and with something
        cached does it play, the category `random.choice` picked, and it
        never reports `done`. */
    method OfflineStep(pick: string, d: Blocks.Draw) returns (t: OfflineTurn)
      requires cache != map[] ==> pick in cache && DrawFits(cache, pick, d)
      modifies this
      ensures outbox == old(outbox) && cache == old(cache) && Status() == old(Status())
      ensures old(mode) != Offline || old(cache) == map[] ==>
                t == Waiting && currentCategory == old(currentCategory) && playing == old(playing)
      ensures old(mode) == Offline && old(cache) != map[] ==>
                t.PlayedAlone? && playing == old(playing)
                && (t.start == Busy <==> old(playing))
                && (old(playing) ==> currentCategory == old(currentCategory))
                && (!old(playing) ==>
                      currentCategory == Some(pick)
                      && (t.start == NoMaterial <==> MakePlaylist(cache, pick, d).None?)
                      && (t.start.Started? ==> MakePlaylist(cache, pick, d) == Some(t.start.items)))
    {
      if mode != Offline || cache == map[] {
        return Waiting;
      }
      var s := StartCategory(pick, d);
      if s.Started? {
        FinishCategory(false);
      }
      return PlayedAlone(s);
    }
  }
}
