/** The persistent-player controller of the synchronised roleplayer: it sends
    JSON commands to one long-lived mpv over its IPC socket and counts the
    `end-file` events mpv reports, so that a block of four videos is known to
    be over without restarting the player.

    The IPC socket is an append-only log of the commands sent; the event
    stream is a sequence of byte chunks; decoding a JSON line is a function
    `decode` that says which kind of event the line holds. */
module MpvController {
  import Text

  /** Videos per block: one with text and three without. */
  const BLOCK_SIZE: nat := 4

  newtype byte = x: int | 0 <= x < 256

  const NEWLINE: byte := 10

  /** One element of a command array: `"loadfile"`, `True`, `0`, ... */
  datatype Arg = Str(s: string) | Flag(b: bool) | Num(n: int)

  /** The array sent as `{"command": [...]}`. */
  type Command = seq<Arg>

  function SetPause(on: bool): Command { [Str("set_property"), Str("pause"), Flag(on)] }
  const PLAYLIST_CLEAR: Command := [Str("playlist-clear")]
  function LoadFile(path: string, how: string): Command { [Str("loadfile"), Str(path), Str(how)] }
  function SetPlaylistPos(n: int): Command { [Str("set_property"), Str("playlist-pos"), Num(n)] }

  /** `loadfile <p> append` for each path, in order. */
  function Appends(paths: seq<string>): (cs: seq<Command>)
    ensures |cs| == |paths|
  {
    seq(|paths|, i requires 0 <= i < |paths| => LoadFile(paths[i], "append"))
  }

  /** The commands `load_block` sends for a block, in the order it sends them. */
  function LoadCommands(block: seq<string>): seq<Command>
    requires |block| >= 1
  {
    [SetPause(true), PLAYLIST_CLEAR, LoadFile(block[0], "replace")]
    + Appends(block[1..])
    + [SetPlaylistPos(0), SetPause(false)]
  }

  // ---------------------------------------------------------------------
  // A reference meaning for those commands: what the player's playlist,
  // position and pause state become.
  // ---------------------------------------------------------------------

  datatype Engine = Engine(playlist: seq<string>, pos: int, paused: bool)

  function Apply(e: Engine, c: Command): Engine {
    if c == PLAYLIST_CLEAR then
      // everything but the entry being played is dropped
      if 0 <= e.pos < |e.playlist| then e.(playlist := [e.playlist[e.pos]], pos := 0)
      else e.(playlist := [], pos := -1)
    else if |c| == 3 && c[0] == Str("loadfile") && c[1].Str? && c[2] == Str("replace") then
      e.(playlist := [c[1].s], pos := 0)
    else if |c| == 3 && c[0] == Str("loadfile") && c[1].Str? && c[2] == Str("append") then
      e.(playlist := e.playlist + [c[1].s])
    else if |c| == 3 && c[0] == Str("set_property") && c[1] == Str("pause") && c[2].Flag? then
      e.(paused := c[2].b)
    else if |c| == 3 && c[0] == Str("set_property") && c[1] == Str("playlist-pos") && c[2].Num?
            && 0 <= c[2].n < |e.playlist| then
      e.(pos := c[2].n)
    else e
  }

  function ApplyAll(e: Engine, cs: seq<Command>): Engine
    decreases |cs|
  {
    if cs == [] then e else ApplyAll(Apply(e, cs[0]), cs[1..])
  }

  lemma {:induction false} ApplyAllAppend(e: Engine, a: seq<Command>, b: seq<Command>)
    ensures ApplyAll(e, a + b) == ApplyAll(ApplyAll(e, a), b)
    decreases |a|
  {
    if a != [] {
      assert (a + b)[1..] == a[1..] + b;
      ApplyAllAppend(Apply(e, a[0]), a[1..], b);
    } else {
      assert a + b == b;
    }
  }

  lemma {:induction false} AppendsEffect(e: Engine, paths: seq<string>)
    ensures ApplyAll(e, Appends(paths)) == e.(playlist := e.playlist + paths)
    decreases |paths|
  {
    if paths != [] {
      var cs := Appends(paths);
      assert cs[1..] == Appends(paths[1..]);
      AppendsEffect(Apply(e, cs[0]), paths[1..]);
      assert e.playlist + [paths[0]] + paths[1..] == e.playlist + paths;
    } else {
      assert e.playlist + paths == e.playlist;
    }
  }

  /** Whatever the player was doing, after the commands of `load_block` its
      playlist is exactly the block, in order, it stands on the first entry
      and it is not paused: the block replaces what was queued without
      restarting the player. */
  lemma LoadCommandsEffect(e: Engine, block: seq<string>)
    requires |block| >= 1
    ensures ApplyAll(e, LoadCommands(block)) == Engine(block, 0, false)
  {
    var head := [SetPause(true), PLAYLIST_CLEAR, LoadFile(block[0], "replace")];
    var tail := [SetPlaylistPos(0), SetPause(false)];
    ApplyAllAppend(e, head + Appends(block[1..]), tail);
    ApplyAllAppend(e, head, Appends(block[1..]));
    var e1 := Apply(Apply(Apply(e, head[0]), head[1]), head[2]);
    assert ApplyAll(e, head) == e1 by {
      var x := Apply(e, head[0]);
      var y := Apply(x, head[1]);
      assert head[1..][0] == head[1] && head[1..][1..] == head[2..];
      assert head[2..][0] == head[2] && head[2..][1..] == [];
      assert ApplyAll(e, head) == ApplyAll(x, head[1..]);
      assert ApplyAll(x, head[1..]) == ApplyAll(y, head[2..]);
      assert ApplyAll(y, head[2..]) == ApplyAll(e1, []);
    }
    assert e1.playlist == [block[0]] && e1.pos == 0 && e1.paused;
    AppendsEffect(e1, block[1..]);
    assert [block[0]] + block[1..] == block;
    var e2 := e1.(playlist := block);
    assert ApplyAll(e2, tail) == Apply(Apply(e2, tail[0]), tail[1]) by {
      assert tail[1..][1..] == [];
    }
  }

  // ---------------------------------------------------------------------
  // The event stream: complete lines are decoded, blank lines skipped, and
  // every `end-file` event counted once.
  // ---------------------------------------------------------------------

  datatype EventKind = EndFile | OtherEvent | Unparseable

  /** The bytes `bytes.strip()` removes. */
  predicate IsSpaceByte(b: byte) {
    b == 32 || (9 <= b <= 13)
  }

  /** `not line.strip()` */
  predicate Blank(line: seq<byte>) {
    forall i :: 0 <= i < |line| ==> IsSpaceByte(line[i])
  }

  /** How many of the lines are non-blank and decode to an `end-file` event. */
  function EndFiles(lines: seq<seq<byte>>, decode: seq<byte> -> EventKind): (n: nat)
    ensures n <= |lines|
  {
    if lines == [] then 0
    else EndFiles(lines[..|lines| - 1], decode)
         + (if !Blank(lines[|lines| - 1]) && decode(lines[|lines| - 1]) == EndFile then 1 else 0)
  }

  lemma {:induction false} EndFilesAppend(a: seq<seq<byte>>, b: seq<seq<byte>>, decode: seq<byte> -> EventKind)
    ensures EndFiles(a + b, decode) == EndFiles(a, decode) + EndFiles(b, decode)
    decreases |b|
  {
    if b == [] {
      assert a + b == a;
    } else {
      EndFilesAppend(a, b[..|b| - 1], decode);
      assert (a + b)[..|a + b| - 1] == a + b[..|b| - 1];
    }
  }

  lemma EndFilesCons(line: seq<byte>, rest: seq<seq<byte>>, decode: seq<byte> -> EventKind)
    ensures EndFiles([line] + rest, decode)
            == (if !Blank(line) && decode(line) == EndFile then 1 else 0) + EndFiles(rest, decode)
  {
    EndFilesAppend([line], rest, decode);
    assert [line][..0] == [];
  }

  /** The reader's state: completions counted so far and the unfinished line. */
  datatype Reader = Reader(count: nat, buf: seq<byte>)

  /** What reading one chunk does to the reader. */
  function Feed(r: Reader, chunk: seq<byte>, decode: seq<byte> -> EventKind): Reader {
    var f := Text.Frame(r.buf + chunk, NEWLINE);
    Reader(r.count + EndFiles(f.lines, decode), f.rest)
  }

  function FeedAll(r: Reader, chunks: seq<seq<byte>>, decode: seq<byte> -> EventKind): Reader
    decreases |chunks|
  {
    if chunks == [] then r else FeedAll(Feed(r, chunks[0], decode), chunks[1..], decode)
  }

  /** Counting does not depend on how the stream is cut into chunks: reading
      `a` then `b` counts what reading `a + b` at once counts and keeps the same
      unfinished line. */
  lemma FeedSplit(r: Reader, a: seq<byte>, b: seq<byte>, decode: seq<byte> -> EventKind)
    ensures Feed(Feed(r, a, decode), b, decode) == Feed(r, a + b, decode)
  {
    var fa := Text.Frame(r.buf + a, NEWLINE);
    Text.FrameAppend(r.buf + a, b, NEWLINE);
    assert r.buf + (a + b) == (r.buf + a) + b;
    EndFilesAppend(fa.lines, Text.Frame(fa.rest + b, NEWLINE).lines, decode);
  }

  /** Hence any cut of the stream into chunks counts what the whole stream
      holds; a connection drop between chunks loses no completion. */
  lemma {:induction false} FeedAllIsFeed(r: Reader, chunks: seq<seq<byte>>, decode: seq<byte> -> EventKind)
    requires Text.Free(r.buf, NEWLINE)
    ensures FeedAll(r, chunks, decode) == Feed(r, Flatten(chunks), decode)
    decreases |chunks|
  {
    if chunks == [] {
      Text.FrameFree(r.buf, NEWLINE);
      assert r.buf + [] == r.buf;
    } else {
      FeedAllIsFeed(Feed(r, chunks[0], decode), chunks[1..], decode);
      FeedSplit(r, chunks[0], Flatten(chunks[1..]), decode);
    }
  }

  function Flatten(chunks: seq<seq<byte>>): seq<byte> {
    if chunks == [] then [] else chunks[0] + Flatten(chunks[1..])
  }

  lemma {:induction false} FeedAllSnoc(r: Reader, chunks: seq<seq<byte>>, c: seq<byte>, decode: seq<byte> -> EventKind)
    ensures FeedAll(r, chunks + [c], decode) == Feed(FeedAll(r, chunks, decode), c, decode)
    decreases |chunks|
  {
    if chunks == [] {
      assert chunks + [c] == [c];
    } else {
      assert (chunks + [c])[1..] == chunks[1..] + [c];
      FeedAllSnoc(Feed(r, chunks[0], decode), chunks[1..], c, decode);
    }
  }

  /** Reading one more of the arrived chunks. */
  lemma FeedAllPrefix(r: Reader, chunks: seq<seq<byte>>, i: nat, decode: seq<byte> -> EventKind)
    requires i < |chunks|
    ensures FeedAll(r, chunks[..i + 1], decode) == Feed(FeedAll(r, chunks[..i], decode), chunks[i], decode)
  {
    FeedAllSnoc(r, chunks[..i], chunks[i], decode);
    assert chunks[..i + 1] == chunks[..i] + [chunks[i]];
  }

  /** The count never goes down while events are read. */
  lemma {:induction false} FeedAllMonotone(r: Reader, chunks: seq<seq<byte>>, decode: seq<byte> -> EventKind)
    ensures FeedAll(r, chunks, decode).count >= r.count
    decreases |chunks|
  {
    if chunks != [] {
      FeedAllMonotone(Feed(r, chunks[0], decode), chunks[1..], decode);
    }
  }

  class Controller {
    /** `end-file` events seen since the last `load_block`. */
    var endfileCount: nat
    /** Bytes read after the last complete line. */
    var buf: seq<byte>
    /** Every command written to the IPC socket, oldest first. */
    var sent: seq<Command>

    function State(): Reader
      reads this
    {
      Reader(endfileCount, buf)
    }

    constructor ()
      ensures endfileCount == 0 && buf == [] && sent == []
    {
      endfileCount := 0;
      buf := [];
      sent := [];
    }

    /** `cmd`: one command, fire and forget. */
    method Cmd(c: Command)
      modifies this
      ensures sent == old(sent) + [c]
      ensures endfileCount == old(endfileCount) && buf == old(buf)
    {
      sent := sent + [c];
    }

    method ResetEndfileCounter()
      modifies this
      ensures endfileCount == 0
      ensures buf == old(buf) && sent == old(sent)
    {
      endfileCount := 0;
    }

    /** `load_block`: refuses anything but a full block, sending nothing;
        otherwise clears the completion count first and then queues the block
        in order and starts it from its first entry. */
    method LoadBlock(block: seq<string>) returns (ok: bool)
      modifies this
      ensures ok <==> |block| == BLOCK_SIZE
      ensures !ok ==> sent == old(sent) && endfileCount == old(endfileCount) && buf == old(buf)
      ensures ok ==> endfileCount == 0 && buf == old(buf)
                     && sent == old(sent) + LoadCommands(block)
    {
      if |block| != BLOCK_SIZE {
        return false;
      }
      ResetEndfileCounter();
      Cmd(SetPause(true));
      Cmd(PLAYLIST_CLEAR);
      Cmd(LoadFile(block[0], "replace"));
      for i := 1 to |block|
        invariant endfileCount == 0 && buf == old(buf)
        invariant sent == old(sent) + [SetPause(true), PLAYLIST_CLEAR, LoadFile(block[0], "replace")]
                          + Appends(block[1..i])
      {
        Cmd(LoadFile(block[i], "append"));
        assert Appends(block[1..i + 1]) == Appends(block[1..i]) + [LoadFile(block[i], "append")];
      }
      Cmd(SetPlaylistPos(0));
      Cmd(SetPause(false));
      assert block[1..|block|] == block[1..];
      return true;
    }

    /** The body of the event listener for one chunk received: append it to
        the buffer, then take every complete line off the front, skip blank
        and undecodable ones and count `end-file` events. */
    method ReadChunk(chunk: seq<byte>, decode: seq<byte> -> EventKind)
      modifies this
      ensures State() == Feed(old(State()), chunk, decode)
      ensures sent == old(sent)
    {
      buf := buf + chunk;
      ghost var all := buf;
      while !Text.Free(buf, NEWLINE)
        invariant Text.Frame(buf, NEWLINE).rest == Text.Frame(all, NEWLINE).rest
        invariant endfileCount + EndFiles(Text.Frame(buf, NEWLINE).lines, decode)
                  == old(endfileCount) + EndFiles(Text.Frame(all, NEWLINE).lines, decode)
        invariant sent == old(sent)
        decreases |buf|
      {
        var i := Text.FirstSep(buf, NEWLINE);
        var line := buf[..i];
        Text.FrameFirstLine(buf, NEWLINE);
        EndFilesCons(line, Text.Frame(buf[i + 1..], NEWLINE).lines, decode);
        buf := buf[i + 1..];
        if !Blank(line) {
          var kind := decode(line);
          if kind == EndFile {
            endfileCount := endfileCount + 1;
          }
        }
      }
      Text.FrameFree(buf, NEWLINE);
    }

    predicate BlockDone()
      reads this
    {
      endfileCount >= BLOCK_SIZE
    }

    /** `wait_block_done`, with the listener's chunks interleaved: it returns
        true exactly when the count has reached the block size, and it stops
        reading at the first chunk that gets it there. */
    method WaitBlockDone(arrivals: seq<seq<byte>>, decode: seq<byte> -> EventKind) returns (done: bool, used: nat)
      modifies this
      ensures used <= |arrivals|
      ensures State() == FeedAll(old(State()), arrivals[..used], decode)
      ensures done <==> BlockDone()
      ensures !done ==> used == |arrivals|
      ensures forall k :: 0 <= k < used ==> FeedAll(old(State()), arrivals[..k], decode).count < BLOCK_SIZE
      ensures sent == old(sent)
    {
      used := 0;
      while !BlockDone() && used < |arrivals|
        invariant used <= |arrivals|
        invariant State() == FeedAll(old(State()), arrivals[..used], decode)
        invariant forall k :: 0 <= k < used ==> FeedAll(old(State()), arrivals[..k], decode).count < BLOCK_SIZE
        invariant sent == old(sent)
      {
        ReadChunk(arrivals[used], decode);
        FeedAllPrefix(old(State()), arrivals, used, decode);
        used := used + 1;
      }
      done := BlockDone();
    }
  }
}
