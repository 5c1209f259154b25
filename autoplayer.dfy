/** python-autoplayer/autoplayer.py: a player that keeps time itself instead
    of driving mpv through a playlist. Forever: choose a category at random,
    draw a block of one text video and three plain videos, play the videos
    one mpv run at a time within a 40-second budget for the block, then show
    a short black gap. Times are integer milliseconds here; the clock
    readings the loop takes are inputs. */
module Autoplayer {
  import Wrappers
  import Blocks
  import Files
  import SinglePlayer

  const BLOCK_DURATION: nat := 40000
  const VIDEO_DURATION: nat := 10000
  const BLACK_GAP: nat := 200

  /** One mpv run: a video for at most `ms`, or black for `ms`. */
  datatype Play = Video(path: string, ms: int) | Black(ms: int)

  function Min(a: int, b: int): int {
    if a <= b then a else b
  }

  /** `pick_block`: nothing when the category lacks a text video or three
      plain videos, else a text video followed by three plain ones. */
  function PickBlock(fs: Files.Tree, base: string, cat: string, orientation: string, d: Blocks.Draw): (b: seq<string>)
    requires SinglePlayer.DrawFits(fs, base, cat, SinglePlayer.TwoWayLayout(orientation), d)
    ensures var layout := SinglePlayer.TwoWayLayout(orientation);
            (b == [] <==> !SinglePlayer.Playable(fs, base, cat, layout))
            && (b != [] ==> Blocks.IsBlock(b, SinglePlayer.TextPool(fs, base, cat, layout), SinglePlayer.VidPool(fs, base, cat, layout)))
            && (b != [] && Files.WellFormed(fs) ==> Blocks.Distinct(b[1..]))
  {
    SinglePlayer.BlockShape(fs, base, cat, SinglePlayer.TwoWayLayout(orientation), d);
    SinglePlayer.Block(fs, base, cat, SinglePlayer.TwoWayLayout(orientation), d)
  }

  /** The time rule of one block. `readings[k]` is the clock when the loop
      reaches `block[k]`. A video plays only while the time since `start`
      is under the budget, and it is asked for the shorter of its own
      length and what is left of the budget; the loop stops at the first
      reading past the budget. */
  predicate FollowsBudget(block: seq<string>, start: int, readings: seq<int>, plays: seq<Play>)
    requires |readings| == |block|
  {
    |plays| <= |block|
    && (forall k :: 0 <= k < |plays| ==>
          readings[k] - start < BLOCK_DURATION
          && plays[k] == Video(block[k], Min(VIDEO_DURATION, BLOCK_DURATION - (readings[k] - start))))
    && (|plays| < |block| ==> readings[|plays|] - start >= BLOCK_DURATION)
  }

  /** The `for video in block` loop of `video_loop`. */
  method PlayBlock(block: seq<string>, start: int, readings: seq<int>) returns (plays: seq<Play>)
    requires |readings| == |block|
    ensures FollowsBudget(block, start, readings, plays)
    ensures forall k :: 0 <= k < |plays| ==> plays[k].Video? && plays[k].path == block[k]
    ensures forall k :: 0 <= k < |plays| ==> 0 < plays[k].ms <= VIDEO_DURATION
    ensures forall k :: 0 <= k < |plays| ==> readings[k] - start + plays[k].ms <= BLOCK_DURATION
  {
    plays := [];
    var i := 0;
    while i < |block|
      invariant 0 <= i <= |block| && |plays| == i
      invariant forall k :: 0 <= k < i ==>
                  readings[k] - start < BLOCK_DURATION
                  && plays[k] == Video(block[k], Min(VIDEO_DURATION, BLOCK_DURATION - (readings[k] - start)))
    {
      var elapsed := readings[i] - start;
      var remaining := BLOCK_DURATION - elapsed;
      if remaining <= 0 {
        break;
      }
      plays := plays + [Video(block[i], Min(VIDEO_DURATION, remaining))];
      i := i + 1;
    }
  }

  /** The time rule leaves no choice: one list of runs fits it. */
  lemma BudgetDeterminesPlays(block: seq<string>, start: int, readings: seq<int>, p: seq<Play>, q: seq<Play>)
    requires |readings| == |block|
    requires FollowsBudget(block, start, readings, p) && FollowsBudget(block, start, readings, q)
    ensures p == q
  {
  }

  function Sum(s: seq<nat>): nat {
    if s == [] then 0 else Sum(s[..|s| - 1]) + s[|s| - 1]
  }

  /** The clock moves at least as far as each video ran: `ran[k]` is how
      long the k-th mpv run lasted, at most what it was asked for. */
  predicate ClockFollowsRuns(start: int, readings: seq<int>, plays: seq<Play>, ran: seq<nat>)
    requires |ran| == |plays| <= |readings|
  {
    (|plays| > 0 ==> readings[0] >= start)
    && (forall k :: 0 <= k < |plays| ==> ran[k] <= plays[k].ms)
    && (forall k :: 0 <= k && k + 1 < |plays| ==> readings[k + 1] >= readings[k] + ran[k])
  }

  /** The videos of `plays[..n]` ran for no longer than the clock had moved
      by the time the last of them was asked for, plus its own run. */
  lemma {:induction false} RunsBehindClock(start: int, readings: seq<int>, plays: seq<Play>, ran: seq<nat>, n: nat)
    requires |ran| == |plays| <= |readings|
    requires ClockFollowsRuns(start, readings, plays, ran)
    requires 0 < n <= |plays|
    ensures Sum(ran[..n]) <= readings[n - 1] - start + ran[n - 1]
  {
    assert ran[..n][..n - 1] == ran[..n - 1];
    if n > 1 {
      RunsBehindClock(start, readings, plays, ran, n - 1);
    } else {
      assert ran[..0] == [];
    }
  }

  /** However long each mpv run really lasts, the videos of a block together
      stay within `BLOCK_DURATION`. */
  lemma BlockWithinBudget(block: seq<string>, start: int, readings: seq<int>, plays: seq<Play>, ran: seq<nat>)
    requires |readings| == |block| && |ran| == |plays|
    requires FollowsBudget(block, start, readings, plays)
    requires ClockFollowsRuns(start, readings, plays, ran)
    ensures Sum(ran) <= BLOCK_DURATION
  {
    if |plays| > 0 {
      var n := |plays|;
      RunsBehindClock(start, readings, plays, ran, n);
      assert ran[..n] == ran;
    }
  }

  /** One turn of `video_loop` over `cats`, the base directory's
      sub-directories as listed once when the loop starts (a missing base
      raises there, before any turn, as `SinglePlayer.Categories` states): choosing from
      no category raises `IndexError`; a category without a block gives no
      run at all (the loop sleeps and tries again); otherwise the block's
      videos within the budget, then the black gap. */
  method Step(fs: Files.Tree, base: string, orientation: string, cats: seq<string>,
              pick: nat, d: Blocks.Draw, start: int, readings: seq<int>)
    returns (r: SinglePlayer.Result<seq<Play>>)
    requires SinglePlayer.Categories(fs, base) == Wrappers.Some(cats)
    requires cats != [] ==> pick < |cats|
                            && SinglePlayer.DrawFits(fs, base, cats[pick], SinglePlayer.TwoWayLayout(orientation), d)
    requires |readings| == 4
    ensures cats == [] <==> r == SinglePlayer.Err(SinglePlayer.IndexError)
    ensures cats != [] ==> r.Ok?
    ensures r.Ok? ==> (r.value == [] <==> !SinglePlayer.Playable(fs, base, cats[pick], SinglePlayer.TwoWayLayout(orientation)))
    ensures r.Ok? && r.value != [] ==>
              var block := PickBlock(fs, base, cats[pick], orientation, d);
              r.value[|r.value| - 1] == Black(BLACK_GAP)
              && FollowsBudget(block, start, readings, r.value[..|r.value| - 1])
  {
    if cats == [] {
      return SinglePlayer.Err(SinglePlayer.IndexError);
    }
    var cat := cats[pick];
    var block := PickBlock(fs, base, cat, orientation, d);
    if block == [] {
      return SinglePlayer.Ok([]);
    }
    var plays := PlayBlock(block, start, readings);
    r := SinglePlayer.Ok(plays + [Black(BLACK_GAP)]);
    assert r.value[..|r.value| - 1] == plays;
  }
}
