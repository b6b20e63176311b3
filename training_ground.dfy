/**
 * The bookkeeping of the training script: which steps write a checkpoint,
 * and how the rank error of each training batch is accumulated and recorded.
 * The network's loss and predictions are opaque values supplied per step.
 */
module TrainingGround {
  import Ranking

  const BATCHSIZE: nat := 50
  const N_ITERATIONS: nat := 100000
  const SAVE_EVERY: nat := 5000

  /** One `saver.save` call: the step and whether the meta graph is written too. */
  datatype Checkpoint = Checkpoint(step: nat, withMetaGraph: bool)

  /** The saves made at the start of iteration `i`. */
  function SavesAt(i: nat): seq<Checkpoint> {
    if i == 0 then [Checkpoint(0, true)]
    else if i % SAVE_EVERY == 0 then [Checkpoint(i, false)]
    else []
  }

  /** The saves made during iterations 0 .. n-1, in order. */
  function SaveSchedule(n: nat): seq<Checkpoint>
    decreases n
  {
    if n == 0 then [] else SaveSchedule(n - 1) + SavesAt(n - 1)
  }

  /**
   * Of iterations 0 .. n-1 exactly the multiples of 5000 save, the k-th save
   * is at step 5000 * k, and only the first writes the meta graph.
   */
  lemma {:induction false} SaveScheduleShape(n: nat)
    ensures |SaveSchedule(n)| == (n + SAVE_EVERY - 1) / SAVE_EVERY
    ensures forall k :: 0 <= k < |SaveSchedule(n)| ==>
              SaveSchedule(n)[k] == Checkpoint(SAVE_EVERY * k, k == 0)
    decreases n
  {
    if n > 0 {
      SaveScheduleShape(n - 1);
      var i := n - 1;
      var q := i / SAVE_EVERY;
      assert i == SAVE_EVERY * q + i % SAVE_EVERY;
      if i % SAVE_EVERY == 0 {
        assert (n + SAVE_EVERY - 1) / SAVE_EVERY == q + 1;
        assert (i + SAVE_EVERY - 1) / SAVE_EVERY == q;
      } else {
        assert (n + SAVE_EVERY - 1) / SAVE_EVERY == q + 1;
        assert (i + SAVE_EVERY - 1) / SAVE_EVERY == q + 1;
      }
    }
  }

  /** The script's 100000 iterations save 20 times; only the save at step 0 writes the meta graph. */
  lemma TrainingRunSaves()
    ensures |SaveSchedule(N_ITERATIONS)| == 20
    ensures forall k :: 0 <= k < 20 ==> SaveSchedule(N_ITERATIONS)[k] == Checkpoint(5000 * k, k == 0)
  {
    SaveScheduleShape(N_ITERATIONS);
  }

  // ---------------------------------------------------------------------------
  // Rank error of a batch

  /** What one iteration sees: the targets, the network's predictions and its loss. */
  datatype Batch = Batch(truth: seq<seq<real>>, pred: seq<seq<real>>, loss: real)

  /** The first `BATCHSIZE` rows exist in both, and corresponding rows have equal length. */
  predicate WellShaped(b: Batch) {
    |b.truth| >= BATCHSIZE && |b.pred| >= BATCHSIZE &&
    forall e :: 0 <= e < BATCHSIZE ==> |b.truth[e]| == |b.pred[e]|
  }

  /** The sum of a sequence of integers, added up front to back. */
  function Total(xs: seq<int>): int
    decreases |xs|
  {
    if |xs| == 0 then 0 else Total(xs[..|xs| - 1]) + xs[|xs| - 1]
  }

  lemma {:induction false} TotalNonnegative(xs: seq<int>)
    requires forall i :: 0 <= i < |xs| ==> xs[i] >= 0
    ensures Total(xs) >= 0
    decreases |xs|
  {
    if |xs| > 0 {
      TotalNonnegative(xs[..|xs| - 1]);
    }
  }

  lemma {:induction false} TotalZero(xs: seq<int>)
    requires forall i :: 0 <= i < |xs| ==> xs[i] == 0
    ensures Total(xs) == 0
    decreases |xs|
  {
    if |xs| > 0 {
      TotalZero(xs[..|xs| - 1]);
    }
  }

  lemma {:induction false} TotalBound(xs: seq<int>, bound: int)
    requires forall i :: 0 <= i < |xs| ==> xs[i] <= bound
    ensures Total(xs) <= |xs| * bound
    decreases |xs|
  {
    if |xs| > 0 {
      var m := |xs| - 1;
      TotalBound(xs[..m], bound);
      assert |xs| * bound == m * bound + bound;
    }
  }

  /** The rank difference of each of the batch's first `BATCHSIZE` rows. */
  function RowDiffs(b: Batch): (d: seq<int>)
    requires WellShaped(b)
    ensures |d| == BATCHSIZE
  {
    seq(BATCHSIZE, e requires 0 <= e < BATCHSIZE => Ranking.RowRankDiff(b.truth[e], b.pred[e]))
  }

  /** `sum_rank_diffs` of one batch. */
  function BatchRankDiff(b: Batch): int
    requires WellShaped(b)
  {
    Total(RowDiffs(b))
  }

  /** The accumulated rank difference is never negative. */
  lemma BatchRankDiffNonnegative(b: Batch)
    requires WellShaped(b)
    ensures BatchRankDiff(b) >= 0
  {
    var d := RowDiffs(b);
    forall e | 0 <= e < |d| ensures d[e] >= 0 {
      Ranking.RowRankDiffSymmetric(b.truth[e], b.pred[e]);
    }
    TotalNonnegative(d);
  }

  /** Predictions that order every row as its targets do (exact ones, in particular) give 0. */
  lemma BatchRankDiffZero(b: Batch)
    requires WellShaped(b)
    requires forall e :: 0 <= e < BATCHSIZE ==> Ranking.SameOrder(b.truth[e], b.pred[e])
    ensures BatchRankDiff(b) == 0
  {
    var d := RowDiffs(b);
    forall e | 0 <= e < |d| ensures d[e] == 0 {
      Ranking.RowRankDiffZero(b.truth[e], b.pred[e]);
    }
    TotalZero(d);
  }

  /** With four outputs per row, each row adds at most 12, so a batch at most 600. */
  lemma BatchRankDiffFourOutputs(b: Batch)
    requires WellShaped(b)
    requires forall e :: 0 <= e < BATCHSIZE ==> |b.truth[e]| == 4
    ensures BatchRankDiff(b) <= 12 * BATCHSIZE
  {
    var d := RowDiffs(b);
    forall e | 0 <= e < |d| ensures d[e] <= 12 {
      Ranking.FourOutputBound(b.truth[e], b.pred[e], 0);
    }
    TotalBound(d, 12);
  }

  /** The rank error recorded for a batch. */
  function RankError(b: Batch): real
    requires WellShaped(b)
  {
    BatchRankDiff(b) as real / BATCHSIZE as real
  }

  /** With four outputs, the recorded rank error lies between 0 and 12. */
  lemma RankErrorFourOutputs(b: Batch)
    requires WellShaped(b)
    requires forall e :: 0 <= e < BATCHSIZE ==> |b.truth[e]| == 4
    ensures 0.0 <= RankError(b) <= 12.0
  {
    BatchRankDiffNonnegative(b);
    BatchRankDiffFourOutputs(b);
  }

  /** The inner loop: `sum_rank_diffs` over the rows of one batch. */
  method RankDiffSum(b: Batch) returns (sum: int)
    requires WellShaped(b)
    ensures sum == BatchRankDiff(b)
  {
    ghost var d := RowDiffs(b);
    sum := 0;
    for elem := 0 to BATCHSIZE
      invariant sum == Total(d[..elem])
    {
      assert d[..elem + 1][..elem] == d[..elem];
      sum := sum + Ranking.RowRankDiff(b.truth[elem], b.pred[elem]);
    }
    assert d[..BATCHSIZE] == d;
  }

  /** The rank error of one batch: its rank differences summed, divided by `BATCHSIZE`. */
  method BatchRankError(b: Batch) returns (err: real)
    requires WellShaped(b)
    ensures err == RankError(b)
  {
    var sumRankDiffs := RankDiffSum(b);
    err := sumRankDiffs as real / BATCHSIZE as real;
  }

  /** One more iteration adds that iteration's saves at the end. */
  lemma SaveScheduleStep(i: nat)
    ensures SaveSchedule(i + 1) == SaveSchedule(i) + SavesAt(i)
  {
  }

  /** The checkpoint saves at the head of iteration `i`. */
  method SaveCheckpoints(i: nat) returns (saved: seq<Checkpoint>)
    ensures saved == SavesAt(i)
  {
    saved := [];
    if i == 0 {
      saved := saved + [Checkpoint(i, true)];
    }
    if i != 0 && i % SAVE_EVERY == 0 {
      saved := saved + [Checkpoint(i, false)];
    }
  }

  /** `f` applied to the first `n` elements of `xs`, in order: a list filled by one append per element. */
  function MapPrefix<A, B>(f: A --> B, xs: seq<A>, n: nat): seq<B>
    requires n <= |xs|
    requires forall i :: 0 <= i < |xs| ==> f.requires(xs[i])
    decreases n
  {
    if n == 0 then [] else MapPrefix(f, xs, n - 1) + [f(xs[n - 1])]
  }

  /** Entry `i` of the list is `f` of element `i`. */
  lemma {:induction false} MapPrefixAt<A, B>(f: A --> B, xs: seq<A>, n: nat)
    requires n <= |xs|
    requires forall i :: 0 <= i < |xs| ==> f.requires(xs[i])
    ensures |MapPrefix(f, xs, n)| == n
    ensures forall i :: 0 <= i < n ==> MapPrefix(f, xs, n)[i] == f(xs[i])
    decreases n
  {
    if n > 0 {
      MapPrefixAt(f, xs, n - 1);
    }
  }

  /** The loss a training step reports. */
  function Loss(b: Batch): real {
    b.loss
  }

  /** The recorded lists hold one loss and one rank error per iteration, in iteration order. */
  lemma RecordedPerIteration(batches: seq<Batch>)
    requires forall i :: 0 <= i < |batches| ==> WellShaped(batches[i])
    ensures |MapPrefix(Loss, batches, |batches|)| == |batches|
    ensures |MapPrefix(RankError, batches, |batches|)| == |batches|
    ensures forall i :: 0 <= i < |batches| ==> MapPrefix(Loss, batches, |batches|)[i] == batches[i].loss
    ensures forall i :: 0 <= i < |batches| ==> MapPrefix(RankError, batches, |batches|)[i] == RankError(batches[i])
  {
    MapPrefixAt(Loss, batches, |batches|);
    MapPrefixAt(RankError, batches, |batches|);
  }

  /**
   * The training loop's bookkeeping over the given iterations: the checkpoint
   * saves, one loss and one rank error (the batch's rank difference divided
   * by `BATCHSIZE`) per iteration.
   */
  method TrainingLoop(batches: seq<Batch>) returns (saves: seq<Checkpoint>, trainLosses: seq<real>, rankErrors: seq<real>)
    requires forall i :: 0 <= i < |batches| ==> WellShaped(batches[i])
    ensures saves == SaveSchedule(|batches|)
    ensures trainLosses == MapPrefix(Loss, batches, |batches|)
    ensures rankErrors == MapPrefix(RankError, batches, |batches|)
  {
    saves, trainLosses, rankErrors := [], [], [];
    for i := 0 to |batches|
      invariant saves == SaveSchedule(i)
      invariant trainLosses == MapPrefix(Loss, batches, i)
      invariant rankErrors == MapPrefix(RankError, batches, i)
    {
      var saved := SaveCheckpoints(i);
      SaveScheduleStep(i);
      saves := saves + saved;
      var b := batches[i];
      var rankError := BatchRankError(b);
      trainLosses := trainLosses + [b.loss];
      rankErrors := rankErrors + [rankError];
    }
  }
}
