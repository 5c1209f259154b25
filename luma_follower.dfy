/** HyperObjectLumalogy/follower.py: a screen that caches its categories at
    start-up, learns the leader from its broadcasts, plays the category a
    `PLAY:<category>` names, one playback at a time, and answers `done`
    when the playback ends.

    Each handler is one atomic transition on the module globals, which are
    the fields of `Follower`. `play_category` runs in a thread of its own
    and blocks on mpv, so it is two transitions: `StartCategory` up to the
    launch of mpv and `FinishCategory` once mpv has exited. */
module LumaFollower {
  import opened Wrappers
  import Text
  import Blocks
  import Files
  import Names
  import opened LumaCache

  const REGISTER_PORT: nat := 8899
  const DONE_PORT: nat := 9100
  const LEADER_HERE: string := "LEADER_HERE:"
  const REGISTER_HELLO: string := "REGISTER:hello"
  const DONE: string := "done"

  /** A UDP datagram the node sent: address, port and text. */
  datatype Datagram = Datagram(to: string, port: nat, text: string)

  /** How a call to `play_category` went up to the launch of mpv. */
  datatype Start =
    | Busy                      // a playback is running: nothing happens
    | NoMaterial                // no playlist for the category: the flag is cleared again
    | Started(items: seq<string>)  // mpv was launched on these four videos

  /** What the command listener did with a datagram. */
  datatype Heard =
    | NotFromLeader             // a leader is known and the sender is another host
    | Debounced                 // PLAY for the category already current
    | Launched(start: Start)    // PLAY for another category
    | NextHeard                 // NEXT
    | Unknown                   // anything else

  /** `pick_audio`: the track of this host among the audio files of the
      audio directory, in listing order; `None` when the directory is
      missing or holds no audio file. */
  function PickAudio(fs: Files.Tree, dir: string, host: string): (r: Option<string>)
    ensures r.None? <==> dir !in fs || AudioNames(fs, dir) == []
    ensures r.Some? ==> r.value in Names.JoinAll(dir, AudioNames(fs, dir))
  {
    if dir !in fs then None else HostTrack(dir, AudioNames(fs, dir), host)
  }

  /** The DONE datagram `send_done` sends, if any: none without a leader. */
  function DoneFor(leaderIp: Option<string>): (r: seq<Datagram>)
    ensures |r| <= 1
    ensures r != [] <==> leaderIp.Some? && leaderIp.value != ""
    ensures r != [] ==> r[0] == Datagram(leaderIp.value, DONE_PORT, DONE)
  {
    if leaderIp.Some? && leaderIp.value != "" then [Datagram(leaderIp.value, DONE_PORT, DONE)] else []
  }

  // ---------------------------------------------------------------------
  // `listen_for_commands` as written. Line 309 assigns `current_category`
  // without a `global` declaration, so the name is a local of the listener:
  // unbound until a NEXT arrives, `None` afterwards. Line 297 reads it.
  // ---------------------------------------------------------------------

  datatype Local = Unbound | BoundToNone

  datatype Reaction =
    | Raises          // UnboundLocalError: the listener thread ends
    | Skip            // the datagram is dropped
    | Spawn(cat: string)  // a `play_category` thread is started
    | Next            // the local is set to None and `playing_flag` cleared

  /** One pass of the listener loop as the code stands. */
  function ListenAsWritten(local: Local, leaderIp: Option<string>, msg: string, sender: string): (r: (Local, Reaction))
    ensures r.1 == Raises <==>
              local == Unbound && Text.StartsWith(msg, "PLAY:")
              && !(leaderIp.Some? && leaderIp.value != "" && sender != leaderIp.value)
  {
    if leaderIp.Some? && leaderIp.value != "" && sender != leaderIp.value then (local, Skip)
    else if Text.StartsWith(msg, "PLAY:") then
      // `categoria == current_category`: a string is never None
      if local == Unbound then (local, Raises) else (local, Spawn(Text.After(msg, "PLAY:")))
    else if msg == "NEXT" then (BoundToNone, Next)
    else (local, Skip)
  }

  /** The first PLAY that gets past the leader filter (the leader is not
      known yet, or the datagram comes from it) reaches the unbound local and
      ends the listener: the follower never plays a commanded category unless
      a NEXT came first. */
  lemma FirstPlayRaises(leaderIp: Option<string>, cat: string, sender: string)
    requires leaderIp.None? || leaderIp.value == "" || sender == leaderIp.value
    ensures ListenAsWritten(Unbound, leaderIp, "PLAY:" + cat, sender).1 == Raises
  {
    assert Text.StartsWith("PLAY:" + cat, "PLAY:");
  }

  /** Once a NEXT has bound the local, a repeated PLAY is never debounced,
      whatever category is playing. */
  lemma AsWrittenNeverDebounces(leaderIp: Option<string>, msg: string, sender: string)
    requires Text.StartsWith(msg, "PLAY:")
    requires !(leaderIp.Some? && leaderIp.value != "") || sender == leaderIp.value
    ensures ListenAsWritten(BoundToNone, leaderIp, msg, sender).1 == Spawn(Text.After(msg, "PLAY:"))
  {
  }

  class Follower {
    /** `categoria_cache` */
    var cache: Cache
    var leaderIp: Option<string>
    var currentCategory: Option<string>
    /** `playing_flag` */
    var playing: bool
    /** Datagrams sent, oldest first. */
    var outbox: seq<Datagram>

    /** `if not leader_ip`: no address, or an empty one. */
    predicate KnowsLeader()
      reads this
    {
      leaderIp.Some? && leaderIp.value != ""
    }

    constructor ()
      ensures cache == map[] && leaderIp == None && currentCategory == None
      ensures !playing && outbox == []
    {
      cache := map[];
      leaderIp := None;
      currentCategory := None;
      playing := false;
      outbox := [];
    }

    /** `build_cache`: nothing when the base directory is missing; otherwise
        every sub-directory gets a fresh entry, and entries of categories
        no longer listed stay as they were. */
    method BuildCache(fs: Files.Tree, base: string)
      modifies this
      ensures base !in fs ==> cache == old(cache)
      ensures base in fs ==>
                forall c :: c in cache <==> c in old(cache) || c in Files.SubDirs(Files.Listing(fs, base))
      ensures base in fs ==>
                forall c :: c in Files.SubDirs(Files.Listing(fs, base)) ==> cache[c] == CategoryPools(fs, base, c)
      ensures base in fs ==>
                forall c :: c in old(cache) && c !in Files.SubDirs(Files.Listing(fs, base)) ==> cache[c] == old(cache)[c]
      ensures leaderIp == old(leaderIp) && currentCategory == old(currentCategory)
      ensures playing == old(playing) && outbox == old(outbox)
    {
      if base !in fs {
        return;
      }
      var cats := Files.SubDirs(Files.Listing(fs, base));
      for i := 0 to |cats|
        invariant forall c :: c in cache <==> c in old(cache) || c in cats[..i]
        invariant forall c :: c in cats[..i] ==> cache[c] == CategoryPools(fs, base, c)
        invariant forall c :: c in old(cache) && c !in cats[..i] ==> cache[c] == old(cache)[c]
        invariant leaderIp == old(leaderIp) && currentCategory == old(currentCategory)
        invariant playing == old(playing) && outbox == old(outbox)
      {
        assert cats[..i + 1] == cats[..i] + [cats[i]];
        cache := cache[cats[i] := CategoryPools(fs, base, cats[i])];
      }
      assert cats[..|cats|] == cats;
    }

    /** `play_category` up to the launch of mpv: nothing while a playback
        runs; otherwise the category becomes current and the flag is set,
        and it is cleared again at once when no playlist can be made. */
    method StartCategory(cat: string, d: Blocks.Draw) returns (s: Start)
      requires DrawFits(cache, cat, d)
      modifies this
      ensures cache == old(cache) && leaderIp == old(leaderIp) && outbox == old(outbox)
      ensures old(playing) ==> s == Busy && playing && currentCategory == old(currentCategory)
      ensures !old(playing) ==>
                currentCategory == Some(cat)
                && (s == NoMaterial <==> MakePlaylist(cache, cat, d).None?)
                && (s.Started? ==> MakePlaylist(cache, cat, d) == Some(s.items))
                && s != Busy && playing == s.Started?
    {
      if playing {
        return Busy;
      }
      currentCategory := Some(cat);
      playing := true;
      var pl := MakePlaylist(cache, cat, d);
      if pl.None? {
        playing := false;
        return NoMaterial;
      }
      return Started(pl.value);
    }

    /** `send_done` */
    method SendDone()
      modifies this
      ensures outbox == old(outbox) + DoneFor(leaderIp)
      ensures cache == old(cache) && leaderIp == old(leaderIp)
      ensures currentCategory == old(currentCategory) && playing == old(playing)
    {
      if KnowsLeader() {
        outbox := outbox + [Datagram(leaderIp.value, DONE_PORT, DONE)];
      }
    }

    /** `play_category` once mpv has exited: `done` goes to the leader, if
        one is known, and the flag is cleared. */
    method FinishCategory()
      modifies this
      ensures outbox == old(outbox) + DoneFor(leaderIp)
      ensures !playing
      ensures cache == old(cache) && leaderIp == old(leaderIp) && currentCategory == old(currentCategory)
    {
      SendDone();
      playing := false;
    }

    /** `register_with_leader` */
    method RegisterWithLeader()
      modifies this
      ensures outbox == old(outbox) + (if KnowsLeader() then [Datagram(leaderIp.value, REGISTER_PORT, REGISTER_HELLO)] else [])
      ensures cache == old(cache) && leaderIp == old(leaderIp)
      ensures currentCategory == old(currentCategory) && playing == old(playing)
    {
      if KnowsLeader() {
        outbox := outbox + [Datagram(leaderIp.value, REGISTER_PORT, REGISTER_HELLO)];
      }
    }

    /** `discover_leader`, one datagram: a `LEADER_HERE:` from a new address
        makes that address the leader and registers with it; anything else,
        or the same leader again, changes nothing. */
    method OnBroadcast(msg: string, sender: string)
      modifies this
      ensures Text.StartsWith(msg, LEADER_HERE) && old(leaderIp) != Some(sender) ==>
                leaderIp == Some(sender)
                && outbox == old(outbox) + (if sender != "" then [Datagram(sender, REGISTER_PORT, REGISTER_HELLO)] else [])
      ensures !(Text.StartsWith(msg, LEADER_HERE) && old(leaderIp) != Some(sender)) ==>
                leaderIp == old(leaderIp) && outbox == old(outbox)
      ensures cache == old(cache) && currentCategory == old(currentCategory) && playing == old(playing)
    {
      if Text.StartsWith(msg, LEADER_HERE) && leaderIp != Some(sender) {
        leaderIp := Some(sender);
        RegisterWithLeader();
      }
    }

    /** `listen_for_commands`, one datagram, with `current_category` read
        and reset as the module global it is meant to be: commands from
        anyone but a known leader are dropped, a PLAY for the current
        category is ignored, another PLAY starts `play_category`, and NEXT
        forgets the current category and clears the flag. */
    method OnCommand(msg: string, sender: string, d: Blocks.Draw) returns (h: Heard)
      requires Text.StartsWith(msg, "PLAY:") ==> DrawFits(cache, Text.After(msg, "PLAY:"), d)
      modifies this
      ensures cache == old(cache) && leaderIp == old(leaderIp) && outbox == old(outbox)
      ensures old(KnowsLeader()) && sender != old(leaderIp).value ==>
                h == NotFromLeader && currentCategory == old(currentCategory) && playing == old(playing)
      ensures !(old(KnowsLeader()) && sender != old(leaderIp).value) && Text.StartsWith(msg, "PLAY:") ==>
                (old(currentCategory) == Some(Text.After(msg, "PLAY:")) ==>
                   h == Debounced && currentCategory == old(currentCategory) && playing == old(playing))
                && (old(currentCategory) != Some(Text.After(msg, "PLAY:")) ==>
                      h.Launched? && (h.start == Busy <==> old(playing))
                      && (old(playing) ==> playing && currentCategory == old(currentCategory))
                      && (!old(playing) ==>
                            var cat := Text.After(msg, "PLAY:");
                            currentCategory == Some(cat)
                            && (h.start == NoMaterial <==> MakePlaylist(cache, cat, d).None?)
                            && (h.start.Started? ==> MakePlaylist(cache, cat, d) == Some(h.start.items))
                            && playing == h.start.Started?))
      ensures !(old(KnowsLeader()) && sender != old(leaderIp).value) && msg == "NEXT" ==>
                h == NextHeard && currentCategory == None && !playing
      ensures !(old(KnowsLeader()) && sender != old(leaderIp).value)
              && !Text.StartsWith(msg, "PLAY:") && msg != "NEXT" ==>
                h == Unknown
      ensures h == Unknown ==> currentCategory == old(currentCategory) && playing == old(playing)
    {
      if KnowsLeader() && sender != leaderIp.value {
        return NotFromLeader;
      }
      if Text.StartsWith(msg, "PLAY:") {
        var cat := Text.After(msg, "PLAY:");
        if currentCategory == Some(cat) {
          return Debounced;
        }
        var s := StartCategory(cat, d);
        return Launched(s);
      } else if msg == "NEXT" {
        currentCategory := None;
        playing := false;
        return NextHeard;
      }
      return Unknown;
    }
  }
}
