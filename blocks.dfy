/** Block selection shared by every script: one video with text drawn with
    `random.choice` and three videos without text drawn with
    `random.sample(vids, 3)`, or nothing when a pool is too small. Randomness
    is a `Draw` made by the caller: the index `choice` returns and the indices
    `sample` returns. */
module Blocks {

  /** What the random module returned: the index `random.choice` took and the
      positions `random.sample` took. */
  datatype Draw = Draw(text: nat, vids: seq<nat>)

  /** `k` positions below `n`, pairwise different: what `random.sample` of size
      `k` from a pool of `n` picks. */
  predicate DistinctIndices(idx: seq<nat>, n: nat, k: nat) {
    |idx| == k
    && (forall i :: 0 <= i < |idx| ==> idx[i] < n)
    && (forall i, j :: 0 <= i < j < |idx| ==> idx[i] != idx[j])
  }

  /** The draw is usable whenever the code actually calls the random module:
      with at least `t` text videos and `k` plain videos. */
  predicate Fits(d: Draw, texts: nat, vids: nat, t: nat, k: nat) {
    (texts >= t && vids >= k) ==> (d.text < texts && DistinctIndices(d.vids, vids, k))
  }

  predicate Distinct<T(==)>(s: seq<T>) {
    forall i, j :: 0 <= i < j < |s| ==> s[i] != s[j]
  }

  /** The pool entries at the drawn positions. */
  function Take<T>(pool: seq<T>, idx: seq<nat>): (r: seq<T>)
    requires forall i :: 0 <= i < |idx| ==> idx[i] < |pool|
    ensures |r| == |idx|
  {
    seq(|idx|, i requires 0 <= i < |idx| => pool[idx[i]])
  }

  /** A name ahead of distinct names keeps them distinct exactly when it is new. */
  lemma DistinctCons<T>(x: T, s: seq<T>)
    ensures Distinct([x] + s) <==> x !in s && Distinct(s)
  {
    var xs := [x] + s;
    assert forall i :: 0 <= i < |s| ==> xs[i + 1] == s[i];
    if Distinct(xs) {
      forall i, j | 0 <= i < j < |s|
        ensures s[i] != s[j]
      {
        assert xs[i + 1] != xs[j + 1];
      }
      forall j | 0 <= j < |s|
        ensures s[j] != x
      {
        assert xs[0] != xs[j + 1];
      }
    }
  }

  /** Sampling a pool without repeated entries gives pairwise different
      entries, all of them from the pool. */
  lemma TakeFromDistinct<T>(pool: seq<T>, idx: seq<nat>, k: nat)
    requires Distinct(pool) && DistinctIndices(idx, |pool|, k)
    ensures Distinct(Take(pool, idx))
    ensures forall x :: x in Take(pool, idx) ==> x in pool
  {
  }

  /** A well-formed block: one text video first, then three plain videos, all
      drawn from their pools, the three pairwise different when the listing has
      no repeated entry. */
  predicate IsBlock<T(==)>(b: seq<T>, texts: seq<T>, vids: seq<T>) {
    |b| == 4 && b[0] in texts
    && (forall i :: 1 <= i < 4 ==> b[i] in vids)
    && (Distinct(vids) ==> Distinct(b[1..]))
  }

  /** `[] if not textos or len(vids) < 3 else [random.choice(textos)] + random.sample(vids, 3)` */
  function OneAndThree<T(==)>(texts: seq<T>, vids: seq<T>, d: Draw): (b: seq<T>)
    requires Fits(d, |texts|, |vids|, 1, 3)
    ensures b == [] <==> (texts == [] || |vids| < 3)
    ensures b != [] ==> IsBlock(b, texts, vids)
  {
    if texts == [] || |vids| < 3 then []
    else
      var chosen := Take(vids, d.vids);
      assert Distinct(vids) ==> Distinct(chosen);
      [texts[d.text]] + chosen
  }

  // ---------------------------------------------------------------------
  // Flattening blocks into one playlist
  // ---------------------------------------------------------------------

  /** `for block in blocks: out.extend(block)` */
  function Concat<T>(xss: seq<seq<T>>): seq<T> {
    if xss == [] then [] else xss[0] + Concat(xss[1..])
  }

  lemma {:induction false} ConcatAppend<T>(a: seq<seq<T>>, b: seq<seq<T>>)
    ensures Concat(a + b) == Concat(a) + Concat(b)
  {
    if a == [] {
      assert a + b == b;
    } else {
      assert (a + b)[1..] == a[1..] + b;
      ConcatAppend(a[1..], b);
    }
  }

  /** Every block is either skipped (empty) or complete. */
  predicate WholeBlocks<T>(blocks: seq<seq<T>>) {
    forall i :: 0 <= i < |blocks| ==> |blocks[i]| == 0 || |blocks[i]| == 4
  }

  /** How many of the blocks are complete. */
  function Complete<T>(blocks: seq<seq<T>>): (n: nat)
    ensures n <= |blocks|
  {
    if blocks == [] then 0 else (if |blocks[0]| == 4 then 1 else 0) + Complete(blocks[1..])
  }

  /** Joining whole blocks gives four lines per complete block and nothing for
      a skipped one. */
  lemma {:induction false} ConcatWholeBlocks<T>(blocks: seq<seq<T>>)
    requires WholeBlocks(blocks)
    ensures |Concat(blocks)| == 4 * Complete(blocks)
  {
    if blocks != [] {
      ConcatWholeBlocks(blocks[1..]);
    }
  }

  /** Rounds of blocks, flattened round by round. */
  function Concat2<T>(rounds: seq<seq<seq<T>>>): seq<T> {
    if rounds == [] then [] else Concat(rounds[0]) + Concat2(rounds[1..])
  }

  function Complete2<T>(rounds: seq<seq<seq<T>>>): nat {
    if rounds == [] then 0 else Complete(rounds[0]) + Complete2(rounds[1..])
  }

  /** A playlist made of `R` rounds of `n` category visits each, every visit
      adding a whole block or nothing, has four lines per playable visit, so a
      multiple of four and at most `4 * R * n`. */
  lemma {:induction false} Concat2WholeBlocks<T>(rounds: seq<seq<seq<T>>>, n: nat)
    requires forall r :: 0 <= r < |rounds| ==> |rounds[r]| == n && WholeBlocks(rounds[r])
    ensures |Concat2(rounds)| == 4 * Complete2(rounds)
    ensures Complete2(rounds) <= |rounds| * n
    ensures |Concat2(rounds)| % 4 == 0 && |Concat2(rounds)| <= 4 * (|rounds| * n)
  {
    if rounds != [] {
      var rest := rounds[1..];
      assert forall r :: 0 <= r < |rest| ==> rest[r] == rounds[r + 1];
      ConcatWholeBlocks(rounds[0]);
      Concat2WholeBlocks(rest, n);
      MulSucc(|rest|, n);
    }
  }

  lemma MulSucc(k: nat, n: nat)
    ensures (k + 1) * n == n + k * n
  {
  }

  /** Flattening gives nothing exactly when every block is empty. */
  lemma {:induction false} ConcatEmpty<T>(xss: seq<seq<T>>)
    ensures Concat(xss) == [] <==> forall i :: 0 <= i < |xss| ==> xss[i] == []
  {
    if xss != [] {
      ConcatEmpty(xss[1..]);
      assert forall i :: 1 <= i < |xss| ==> xss[i] == xss[1..][i - 1];
    }
  }

  lemma {:induction false} Concat2Empty<T>(rounds: seq<seq<seq<T>>>)
    ensures Concat2(rounds) == [] <==> forall r :: 0 <= r < |rounds| ==> Concat(rounds[r]) == []
  {
    if rounds != [] {
      Concat2Empty(rounds[1..]);
      assert forall r :: 1 <= r < |rounds| ==> rounds[r] == rounds[1..][r - 1];
    }
  }

  /** Flattening a prefix one block longer adds that block. */
  lemma ConcatPrefixSnoc<T>(xss: seq<seq<T>>, j: nat)
    requires j < |xss|
    ensures Concat(xss[..j + 1]) == Concat(xss[..j]) + xss[j]
  {
    ConcatAppend(xss[..j], [xss[j]]);
    assert xss[..j + 1] == xss[..j] + [xss[j]];
    assert Concat([xss[j]]) == xss[j] + Concat([]);
  }

  /** Flattening rounds with one more round appended adds that round's blocks. */
  lemma {:induction false} Concat2Snoc<T>(rounds: seq<seq<seq<T>>>, last: seq<seq<T>>)
    ensures Concat2(rounds + [last]) == Concat2(rounds) + Concat(last)
  {
    if rounds == [] {
      assert rounds + [last] == [last];
    } else {
      assert (rounds + [last])[1..] == rounds[1..] + [last];
      Concat2Snoc(rounds[1..], last);
    }
  }

  /** Flattening a prefix of the rounds one round longer adds that round. */
  lemma Concat2PrefixSnoc<T>(rounds: seq<seq<seq<T>>>, i: nat)
    requires i < |rounds|
    ensures Concat2(rounds[..i + 1]) == Concat2(rounds[..i]) + Concat(rounds[i])
  {
    Concat2Snoc(rounds[..i], rounds[i]);
    assert rounds[..i + 1] == rounds[..i] + [rounds[i]];
  }

  /** A loop that appends block `j` to what it built from the blocks before
      it has built from one block more; appending an empty block changes
      nothing. */
  lemma ConcatPrefixExtend<T>(start: seq<T>, acc: seq<T>, xss: seq<seq<T>>, j: nat)
    requires j < |xss| && acc == start + Concat(xss[..j])
    ensures acc + xss[j] == start + Concat(xss[..j + 1])
    ensures xss[j] == [] ==> acc == start + Concat(xss[..j + 1])
  {
    ConcatPrefixSnoc(xss, j);
    assert acc + [] == acc;
  }
}
