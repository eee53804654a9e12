/**
 Splitting a batch of messages into chunks that fit a size (pkg/rtc/utils.go, ChunkProtoBatch): greedy, and optimal.
 */
module BatchChunker {
  function Total<T>(size: T -> nat, ms: seq<T>): nat {
    if ms == [] then 0 else Total(size, ms[..|ms| - 1]) + size(ms[|ms| - 1])
  }

  function Joined<T>(chunks: seq<seq<T>>): seq<T> {
    if chunks == [] then [] else Joined(chunks[..|chunks| - 1]) + chunks[|chunks| - 1]
  }

  /** A chunk is a single message of whatever size, or messages that fit the target together. */
  predicate Allowed<T>(size: T -> nat, target: int, chunk: seq<T>) {
    chunk != [] && (|chunk| == 1 || Total(size, chunk) <= target)
  }

  /** The batch, cut into consecutive allowed chunks. */
  ghost predicate IsSplit<T>(size: T -> nat, target: int, batch: seq<T>, chunks: seq<seq<T>>) {
    Joined(chunks) == batch && forall k :: 0 <= k < |chunks| ==> Allowed(size, target, chunks[k])
  }

  /** More than `closed` chunks, and if just one more, a last chunk of at least `open` messages. */
  predicate Lags<T>(split: seq<seq<T>>, closed: nat, open: nat) {
    |split| > closed && (|split| == closed + 1 ==> |split[closed]| >= open)
  }

  /** No split of the batch does better than `closed` chunks and an open one of `open` messages. */
  ghost predicate NoneBetter<T(!new)>(size: T -> nat, target: int, batch: seq<T>, closed: nat, open: nat) {
    forall other {:trigger IsSplit(size, target, batch, other)} ::
      IsSplit(size, target, batch, other) ==> Lags(other, closed, open)
  }

  lemma SuffixIsSmaller<T>(size: T -> nat, ms: seq<T>, k: nat)
    requires k <= |ms|
    ensures Total(size, ms[k..]) <= Total(size, ms)
    decreases |ms|
  {
    if k < |ms| {
      SuffixIsSmaller(size, ms[..|ms| - 1], k);
      assert ms[k..][..|ms[k..]| - 1] == ms[..|ms| - 1][k..];
    }
  }

  /** A split without its last message: the last chunk is shorter by one, or gone. */
  function Shortened<T>(split: seq<seq<T>>): seq<seq<T>>
    requires split != [] && split[|split| - 1] != []
  {
    var init, last := split[..|split| - 1], split[|split| - 1];
    if |last| == 1 then init else init + [last[..|last| - 1]]
  }

  lemma ShortenedIsSplit<T>(size: T -> nat, target: int, batch: seq<T>, m: T, split: seq<seq<T>>)
    requires IsSplit(size, target, batch + [m], split)
    ensures split != [] && split[|split| - 1] != [] && IsSplit(size, target, batch, Shortened(split))
    ensures split[|split| - 1][|split[|split| - 1]| - 1] == m
  {
    var n := |split| - 1;
    var init, last := split[..n], split[n];
    assert Allowed(size, target, last);
    assert (Joined(init) + last)[|batch|] == m;
    assert last == last[..|last| - 1] + [m];
    calc {
      batch;
      (batch + [m])[..|batch|];
      (Joined(init) + last)[..|batch|];
      Joined(init) + last[..|last| - 1];
    }
    forall k | 0 <= k < n ensures Allowed(size, target, init[k]) { assert Allowed(size, target, split[k]); }
    if |last| > 1 {
      assert Shortened(split)[..n] == init;
      assert Allowed(size, target, last[..|last| - 1]);
    }
  }

  lemma LastChunkIsSuffix<T>(batch: seq<T>, split: seq<seq<T>>, k: nat)
    requires split != [] && Joined(split) == batch && k <= |split[|split| - 1]|
    ensures k <= |batch| && batch[|batch| - k..] == split[|split| - 1][|split[|split| - 1]| - k..]
  {
  }

  /** A message added to a split may join its last chunk, */
  lemma LagsWithOneMore<T>(size: T -> nat, target: int, batch: seq<T>, m: T, split: seq<seq<T>>, closed: nat, open: nat)
    requires IsSplit(size, target, batch + [m], split) && split != [] && split[|split| - 1] != []
    requires Lags(Shortened(split), closed, open)
    ensures Lags(split, closed, open + 1)
  {
  }

  /** and must start a new one when the open chunk, which no last chunk is shorter than, has no room for it. */
  lemma LagsWhenFull<T>(size: T -> nat, target: int, batch: seq<T>, m: T, split: seq<seq<T>>, closed: nat, open: nat)
    requires IsSplit(size, target, batch + [m], split) && split != [] && split[|split| - 1] != []
    requires Lags(Shortened(split), closed, open)
    requires 0 < open <= |batch| && Total(size, batch[|batch| - open..] + [m]) > target
    ensures Lags(split, closed + 1, 1)
  {
    var last := split[|split| - 1];
    if |split| == closed + 1 {
      LagsWithOneMore(size, target, batch, m, split, closed, open);
      LastChunkIsSuffix(batch + [m], split, open + 1);
      assert (batch + [m])[|batch| - open..] == batch[|batch| - open..] + [m];
      SuffixIsSmaller(size, last, |last| - (open + 1));
    }
  }

  lemma NoneBetterWithOneMore<T(!new)>(size: T -> nat, target: int, batch: seq<T>, m: T, closed: nat, open: nat)
    requires NoneBetter(size, target, batch, closed, open)
    ensures NoneBetter(size, target, batch + [m], closed, open + 1)
  {
    forall split | IsSplit(size, target, batch + [m], split) ensures Lags(split, closed, open + 1) {
      ShortenedIsSplit(size, target, batch, m, split);
      LagsWithOneMore(size, target, batch, m, split, closed, open);
    }
  }

  lemma NoneBetterWhenFull<T(!new)>(size: T -> nat, target: int, batch: seq<T>, m: T, closed: nat, open: nat)
    requires NoneBetter(size, target, batch, closed, open)
    requires 0 < open <= |batch| && Total(size, batch[|batch| - open..] + [m]) > target
    ensures NoneBetter(size, target, batch + [m], closed + 1, 1)
  {
    forall split | IsSplit(size, target, batch + [m], split) ensures Lags(split, closed + 1, 1) {
      ShortenedIsSplit(size, target, batch, m, split);
      LagsWhenFull(size, target, batch, m, split, closed, open);
    }
  }

  lemma OneMessageNeedsAChunk<T(!new)>(size: T -> nat, target: int, m: T)
    ensures NoneBetter(size, target, [m], 0, 1)
  {
    forall other | IsSplit(size, target, [m], other) ensures Lags(other, 0, 1) {
      ShortenedIsSplit(size, target, [], m, other);
      assert Allowed(size, target, other[0]);
    }
  }

  lemma OneMoreChunk<T>(size: T -> nat, target: int, batch: seq<T>, chunks: seq<seq<T>>, chunk: seq<T>)
    requires IsSplit(size, target, batch, chunks) && Allowed(size, target, chunk)
    ensures IsSplit(size, target, batch + chunk, chunks + [chunk])
  {
    assert (chunks + [chunk])[..|chunks|] == chunks;
  }

  /** What holds between messages: everything before `start` is chunked, and what follows is the open chunk. */
  ghost predicate Greedy<T(!new)>(
    size: T -> nat, target: int, batch: seq<T>, chunks: seq<seq<T>>, start: nat, i: nat)
    requires start <= i <= |batch|
  {
    && IsSplit(size, target, batch[..start], chunks)
    && (i > 0 ==>
          && start < i && Allowed(size, target, batch[start..i])
          && NoneBetter(size, target, batch[..i], |chunks|, i - start))
  }

  lemma GreedyWithOneMore<T(!new)>(
    size: T -> nat, target: int, batch: seq<T>, chunks: seq<seq<T>>, start: nat, i: nat)
    requires start <= i < |batch| && Greedy(size, target, batch, chunks, start, i)
    requires i == 0 || Total(size, batch[start..i]) + size(batch[i]) <= target
    ensures Greedy(size, target, batch, chunks, start, i + 1)
  {
    assert batch[..i + 1] == batch[..i] + [batch[i]];
    assert batch[start..i + 1] == batch[start..i] + [batch[i]];
    if i == 0 {
      OneMessageNeedsAChunk(size, target, batch[0]);
    } else {
      NoneBetterWithOneMore(size, target, batch[..i], batch[i], |chunks|, i - start);
    }
  }

  lemma GreedyWhenFull<T(!new)>(
    size: T -> nat, target: int, batch: seq<T>, chunks: seq<seq<T>>, start: nat, i: nat)
    requires start < i < |batch| && Greedy(size, target, batch, chunks, start, i)
    requires Total(size, batch[start..i]) + size(batch[i]) > target
    ensures Greedy(size, target, batch, chunks + [batch[start..i]], i, i + 1)
  {
    assert batch[..i + 1] == batch[..i] + [batch[i]] && batch[i..i + 1] == [batch[i]];
    assert batch[..i][start..] == batch[start..i] && batch[..start] + batch[start..i] == batch[..i];
    OneMoreChunk(size, target, batch[..start], chunks, batch[start..i]);
    NoneBetterWhenFull(size, target, batch[..i], batch[i], |chunks|, i - start);
  }

  method ChunkProtoBatch<T(!new)>(batch: seq<T>, size: T -> nat, target: int) returns (chunks: seq<seq<T>>)
    ensures IsSplit(size, target, batch, chunks)
    ensures forall other :: IsSplit(size, target, batch, other) ==> |chunks| <= |other|
  {
    chunks := [];
    var start, sum := 0, 0;
    for i := 0 to |batch|
      invariant start <= i && (i == 0 ==> chunks == [])
      invariant Greedy(size, target, batch, chunks, start, i)
      invariant sum == Total(size, batch[start..i])
    {
      assert batch[start..i + 1] == batch[start..i] + [batch[i]] && batch[i..i + 1] == [batch[i]];
      var s := size(batch[i]);
      if sum + s > target {
        if start < i {
          GreedyWhenFull(size, target, batch, chunks, start, i);
          chunks := chunks + [batch[start..i]];
        } else {
          GreedyWithOneMore(size, target, batch, chunks, start, i);
        }
        start := i;
        sum := 0;
      } else {
        GreedyWithOneMore(size, target, batch, chunks, start, i);
      }
      sum := sum + s;
    }
    assert batch[..|batch|] == batch;
    if start < |batch| {
      OneMoreChunk(size, target, batch[..start], chunks, batch[start..]);
      assert batch[..start] + batch[start..] == batch && batch[start..|batch|] == batch[start..];
      chunks := chunks + [batch[start..]];
    }
  }
}
