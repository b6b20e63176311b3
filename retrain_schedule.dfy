/**
 * The `retrain` routine shared by the worm and the zebrafish retraining
 * scripts: one epoch on a first training set, one epoch on a second, a test
 * of the ablated network every `EVAL_TEST_EVERY` steps, and a final save.
 *
 * The network, the data sets and the test batches are opaque. What the
 * routine does to them is recorded as a trace of events, and the rank error
 * a test reports is supplied by a function of the step it is taken at.
 */
module RetrainSchedule {
  import opened Wrappers
  import MixedInputModel

  const BATCHSIZE: nat := 32
  const TESTSIZE: nat := 128
  const EVAL_TEST_EVERY: nat := 50

  /** The deterministic removal values handed to every train and test call, one vector per layer. */
  type DropList = seq<MixedInputModel.Multipliers>

  /**
   * What `retrain` does to the network: a test with the drop list, a training
   * step on one of the data sets (with the drop list, restricted to the
   * variables whose names contain `filter` when there is one), or the final save.
   */
  datatype Event =
    | Test(step: nat, drop: DropList)
    | Train(step: nat, dataset: nat, drop: DropList, filter: Option<string>)
    | Save(step: nat)

  /** Training steps in one epoch of a data set with `dataSize` samples. */
  function EpochSize(dataSize: nat): nat {
    dataSize / BATCHSIZE
  }

  /** The events of global step `s`: a test when `s` is a multiple of 50, then one training step. */
  function StepEvents(s: nat, dataset: nat, drop: DropList, filter: Option<string>): seq<Event> {
    (if s % EVAL_TEST_EVERY == 0 then [Test(s, drop)] else []) + [Train(s, dataset, drop, filter)]
  }

  /** The events of the `while global_step < hi` loop entered at step `lo`. */
  function Phase(lo: nat, hi: nat, dataset: nat, drop: DropList, filter: Option<string>): seq<Event>
    decreases hi
  {
    if hi <= lo then [] else Phase(lo, hi - 1, dataset, drop, filter) + StepEvents(hi - 1, dataset, drop, filter)
  }

  /** All events of a retrain with epochs of `e1` and `e2` steps on data sets `d1` and `d2`. */
  function Schedule(e1: nat, e2: nat, d1: nat, d2: nat, drop: DropList, filter: Option<string>): seq<Event> {
    Phase(0, e1, d1, drop, filter) + Phase(e1, e1 + e2, d2, drop, filter) + [Save(e1 + e2)]
  }

  // ---------------------------------------------------------------------------
  // Views of a trace

  /** What each of the first `n` events of `t` contributes to a view, front to back. */
  function Collect<T>(f: Event -> seq<T>, t: seq<Event>, n: nat): seq<T>
    requires n <= |t|
    decreases n
  {
    if n == 0 then [] else Collect(f, t, n - 1) + f(t[n - 1])
  }

  function TestOf(e: Event): seq<nat> {
    if e.Test? then [e.step] else []
  }

  function TrainOf(e: Event): seq<(nat, nat)> {
    if e.Train? then [(e.step, e.dataset)] else []
  }

  function SaveOf(e: Event): seq<nat> {
    if e.Save? then [e.step] else []
  }

  /** The steps at which tests were taken, in order. */
  function TestSteps(t: seq<Event>): seq<nat> {
    Collect(TestOf, t, |t|)
  }

  /** The training steps, as pairs of the step and the data set trained on, in order. */
  function Trains(t: seq<Event>): seq<(nat, nat)> {
    Collect(TrainOf, t, |t|)
  }

  /** The steps at which the network was saved, in order. */
  function Saves(t: seq<Event>): seq<nat> {
    Collect(SaveOf, t, |t|)
  }

  /** The errors reported by tests at the given steps. */
  function ErrorsAt(rankErrorAt: nat -> real, steps: seq<nat>): (r: seq<real>)
    ensures |r| == |steps|
    decreases |steps|
  {
    if |steps| == 0 then []
    else ErrorsAt(rankErrorAt, steps[..|steps| - 1]) + [rankErrorAt(steps[|steps| - 1])]
  }

  /** A view of a prefix depends only on that prefix. */
  lemma {:induction false} CollectPrefix<T>(f: Event -> seq<T>, a: seq<Event>, b: seq<Event>, n: nat)
    requires n <= |a|
    ensures Collect(f, a + b, n) == Collect(f, a, n)
    decreases n
  {
    if n > 0 {
      CollectPrefix(f, a, b, n - 1);
      assert (a + b)[n - 1] == a[n - 1];
    }
  }

  lemma {:induction false} CollectAppendUpTo<T>(f: Event -> seq<T>, a: seq<Event>, b: seq<Event>, m: nat)
    requires m <= |b|
    ensures Collect(f, a + b, |a| + m) == Collect(f, a, |a|) + Collect(f, b, m)
    decreases m
  {
    if m == 0 {
      CollectPrefix(f, a, b, |a|);
    } else {
      CollectAppendUpTo(f, a, b, m - 1);
      assert (a + b)[|a| + m - 1] == b[m - 1];
    }
  }

  /** A view of two traces one after the other is the two views one after the other. */
  lemma CollectAppend<T>(f: Event -> seq<T>, a: seq<Event>, b: seq<Event>)
    ensures Collect(f, a + b, |a + b|) == Collect(f, a, |a|) + Collect(f, b, |b|)
  {
    CollectAppendUpTo(f, a, b, |b|);
  }

  /** The views of a single event. */
  lemma SingleViews(x: Event)
    ensures TestSteps([x]) == TestOf(x) && Trains([x]) == TrainOf(x) && Saves([x]) == SaveOf(x)
  {
    assert Collect(TestOf, [x], 0) == [] && Collect(TrainOf, [x], 0) == [] && Collect(SaveOf, [x], 0) == [];
  }

  lemma TestStepsAppend(a: seq<Event>, b: seq<Event>)
    ensures TestSteps(a + b) == TestSteps(a) + TestSteps(b)
  {
    CollectAppend(TestOf, a, b);
  }

  lemma TrainsAppend(a: seq<Event>, b: seq<Event>)
    ensures Trains(a + b) == Trains(a) + Trains(b)
  {
    CollectAppend(TrainOf, a, b);
  }

  lemma SavesAppend(a: seq<Event>, b: seq<Event>)
    ensures Saves(a + b) == Saves(a) + Saves(b)
  {
    CollectAppend(SaveOf, a, b);
  }


  // ---------------------------------------------------------------------------
  // The test steps

  /** The multiples of 50 in `lo .. hi-1`, ascending. */
  function Multiples(lo: nat, hi: nat): seq<nat>
    decreases hi
  {
    if hi <= lo then []
    else Multiples(lo, hi - 1) + (if (hi - 1) % EVAL_TEST_EVERY == 0 then [hi - 1] else [])
  }

  /** `Multiples` holds exactly the multiples of 50 in range, strictly ascending. */
  lemma {:induction false} MultiplesShape(lo: nat, hi: nat)
    ensures forall s :: s in Multiples(lo, hi) <==> lo <= s < hi && s % EVAL_TEST_EVERY == 0
    ensures forall a, b :: 0 <= a < b < |Multiples(lo, hi)| ==> Multiples(lo, hi)[a] < Multiples(lo, hi)[b]
    decreases hi
  {
    if hi > lo {
      MultiplesShape(lo, hi - 1);
      var m := Multiples(lo, hi - 1);
      if (hi - 1) % EVAL_TEST_EVERY == 0 {
        var m' := m + [hi - 1];
        forall a, b | 0 <= a < b < |m'| ensures m'[a] < m'[b] {
          if b == |m| {
            assert m'[a] == m[a] && m[a] in m;
          } else {
            assert m'[a] == m[a] && m'[b] == m[b];
          }
        }
      }
    }
  }

  /** With no multiple of 50 in `lo .. hi-1`, there is no test. */
  lemma {:induction false} MultiplesEmpty(lo: nat, hi: nat)
    requires forall s :: lo <= s < hi ==> s % EVAL_TEST_EVERY != 0
    ensures Multiples(lo, hi) == []
    decreases hi
  {
    if hi > lo {
      MultiplesEmpty(lo, hi - 1);
    }
  }

  lemma MultiplesStep(lo: nat, s: nat)
    requires lo <= s
    ensures Multiples(lo, s + 1) == Multiples(lo, s) + (if s % EVAL_TEST_EVERY == 0 then [s] else [])
  {
  }

  lemma {:induction false} MultiplesSplit(a: nat, b: nat, c: nat)
    requires a <= b <= c
    ensures Multiples(a, b) + Multiples(b, c) == Multiples(a, c)
    decreases c
  {
    if c > b {
      MultiplesSplit(a, b, c - 1);
    } else {
      assert Multiples(b, c) == [];
    }
  }

  // ---------------------------------------------------------------------------
  // One training loop

  lemma PhaseStep(lo: nat, s: nat, dataset: nat, drop: DropList, filter: Option<string>)
    requires lo <= s
    ensures Phase(lo, s + 1, dataset, drop, filter) == Phase(lo, s, dataset, drop, filter) + StepEvents(s, dataset, drop, filter)
  {
  }

  /** What one step contributes to each view of the trace. */
  lemma StepViews(s: nat, dataset: nat, drop: DropList, filter: Option<string>)
    ensures TestSteps(StepEvents(s, dataset, drop, filter)) == (if s % EVAL_TEST_EVERY == 0 then [s] else [])
    ensures Trains(StepEvents(s, dataset, drop, filter)) == [(s, dataset)]
    ensures Saves(StepEvents(s, dataset, drop, filter)) == []
  {
    var train := Train(s, dataset, drop, filter);
    SingleViews(train);
    if s % EVAL_TEST_EVERY == 0 {
      var test := Test(s, drop);
      SingleViews(test);
      assert StepEvents(s, dataset, drop, filter) == [test] + [train];
      TestStepsAppend([test], [train]);
      TrainsAppend([test], [train]);
      SavesAppend([test], [train]);
    } else {
      assert StepEvents(s, dataset, drop, filter) == [train];
    }
  }

  /** A loop tests at the multiples of 50 it passes. */
  lemma {:induction false} PhaseTestSteps(lo: nat, hi: nat, dataset: nat, drop: DropList, filter: Option<string>)
    ensures TestSteps(Phase(lo, hi, dataset, drop, filter)) == Multiples(lo, hi)
    decreases hi
  {
    if hi > lo {
      var s := hi - 1;
      var p, e := Phase(lo, s, dataset, drop, filter), StepEvents(s, dataset, drop, filter);
      var t := if s % EVAL_TEST_EVERY == 0 then [s] else [];
      assert TestSteps(Phase(lo, hi, dataset, drop, filter)) == TestSteps(p + e);
      PhaseTestSteps(lo, s, dataset, drop, filter);
      TestStepsAppend(p, e);
      StepViews(s, dataset, drop, filter);
      assert TestSteps(p + e) == Multiples(lo, s) + t;
      MultiplesStep(lo, s);
    }
  }

  /** A loop from `lo` to `hi` makes one training step per step. */
  lemma {:induction false} PhaseTrainCount(lo: nat, hi: nat, dataset: nat, drop: DropList, filter: Option<string>)
    requires lo <= hi
    ensures |Trains(Phase(lo, hi, dataset, drop, filter))| == hi - lo
    decreases hi
  {
    if hi > lo {
      var s := hi - 1;
      PhaseTrainCount(lo, s, dataset, drop, filter);
      PhaseStep(lo, s, dataset, drop, filter);
      TrainsAppend(Phase(lo, s, dataset, drop, filter), StepEvents(s, dataset, drop, filter));
      StepViews(s, dataset, drop, filter);
    }
  }

  /** A loop from `lo` to `hi` trains once per step, on its data set, with the drop list and the filter. */
  lemma {:induction false} PhaseTrains(lo: nat, hi: nat, dataset: nat, drop: DropList, filter: Option<string>)
    requires lo <= hi
    ensures |Trains(Phase(lo, hi, dataset, drop, filter))| == hi - lo
    ensures forall k :: 0 <= k < hi - lo ==> Trains(Phase(lo, hi, dataset, drop, filter))[k] == (lo + k, dataset)
    decreases hi
  {
    if hi > lo {
      var s := hi - 1;
      PhaseTrains(lo, s, dataset, drop, filter);
      PhaseStep(lo, s, dataset, drop, filter);
      TrainsAppend(Phase(lo, s, dataset, drop, filter), StepEvents(s, dataset, drop, filter));
      StepViews(s, dataset, drop, filter);
    }
  }


  /** Each test is directly followed by the training step of the same step. */
  predicate TestThenTrain(t: seq<Event>) {
    forall i :: 0 <= i < |t| && t[i].Test? ==> i + 1 < |t| && t[i + 1].Train? && t[i + 1].step == t[i].step
  }

  /** Every test and training step uses the drop list `drop`, and every training step the filter. */
  predicate CarriesDrop(t: seq<Event>, drop: DropList, filter: Option<string>) {
    forall i :: 0 <= i < |t| && !t[i].Save? ==> t[i].drop == drop && (t[i].Train? ==> t[i].filter == filter)
  }

  lemma {:induction false} PhaseOrder(lo: nat, hi: nat, dataset: nat, drop: DropList, filter: Option<string>)
    ensures TestThenTrain(Phase(lo, hi, dataset, drop, filter))
    ensures CarriesDrop(Phase(lo, hi, dataset, drop, filter), drop, filter)
    ensures forall i :: 0 <= i < |Phase(lo, hi, dataset, drop, filter)| ==> !Phase(lo, hi, dataset, drop, filter)[i].Save?
    decreases hi
  {
    if hi > lo {
      var s := hi - 1;
      PhaseOrder(lo, s, dataset, drop, filter);
      var p := Phase(lo, s, dataset, drop, filter);
      var e := StepEvents(s, dataset, drop, filter);
      assert Phase(lo, hi, dataset, drop, filter) == p + e;
      assert e[|e| - 1] == Train(s, dataset, drop, filter);
      forall i | 0 <= i < |p + e|
        ensures !(p + e)[i].Save? && (p + e)[i].drop == drop && ((p + e)[i].Train? ==> (p + e)[i].filter == filter)
        ensures (p + e)[i].Test? ==> i + 1 < |p + e| && (p + e)[i + 1].Train? && (p + e)[i + 1].step == (p + e)[i].step
      {
        if i >= |p| {
          assert (p + e)[i] == e[i - |p|];
          if (p + e)[i].Test? {
            assert i - |p| == 0 && |e| == 2;
          }
        } else {
          assert (p + e)[i] == p[i];
          if p[i].Test? {
            if i + 1 < |p| {
              assert (p + e)[i + 1] == p[i + 1];
            }
          }
        }
      }
    }
  }

  /** A trace without a save event has no saves. */
  lemma {:induction false} CollectNone<T>(f: Event -> seq<T>, t: seq<Event>, n: nat)
    requires n <= |t| && forall i :: 0 <= i < n ==> f(t[i]) == []
    ensures Collect(f, t, n) == []
    decreases n
  {
    if n > 0 {
      CollectNone(f, t, n - 1);
    }
  }

  lemma SavesNone(t: seq<Event>)
    requires forall i :: 0 <= i < |t| ==> !t[i].Save?
    ensures Saves(t) == []
  {
    CollectNone(SaveOf, t, |t|);
  }

  /** A training loop never saves. */
  lemma PhaseSaves(lo: nat, hi: nat, dataset: nat, drop: DropList, filter: Option<string>)
    ensures Saves(Phase(lo, hi, dataset, drop, filter)) == []
  {
    PhaseOrder(lo, hi, dataset, drop, filter);
    SavesNone(Phase(lo, hi, dataset, drop, filter));
  }

  // ---------------------------------------------------------------------------
  // The whole retrain

  /** The views of two loops followed by a save. */
  lemma ScheduleViews(p1: seq<Event>, p2: seq<Event>, x: Event)
    requires x.Save?
    ensures TestSteps(p1 + p2 + [x]) == TestSteps(p1) + TestSteps(p2)
    ensures Trains(p1 + p2 + [x]) == Trains(p1) + Trains(p2)
    ensures Saves(p1 + p2 + [x]) == Saves(p1) + Saves(p2) + [x.step]
  {
    TestStepsAppend(p1 + p2, [x]);
    TestStepsAppend(p1, p2);
    TrainsAppend(p1 + p2, [x]);
    TrainsAppend(p1, p2);
    SavesAppend(p1 + p2, [x]);
    SavesAppend(p1, p2);
    SingleViews(x);
  }

  /** Training steps `0 .. e1-1` on `d1` followed by steps `e1 .. e1+e2-1` on `d2`. */
  lemma TrainsJoin(tr1: seq<(nat, nat)>, tr2: seq<(nat, nat)>, e1: nat, e2: nat, d1: nat, d2: nat)
    requires |tr1| == e1 && forall k :: 0 <= k < e1 ==> tr1[k] == (0 + k, d1)
    requires |tr2| == e2 && forall k :: 0 <= k < e2 ==> tr2[k] == (e1 + k, d2)
    ensures |tr1 + tr2| == e1 + e2
    ensures forall k :: 0 <= k < e1 + e2 ==> (tr1 + tr2)[k] == (k, if k < e1 then d1 else d2)
  {
    forall k | 0 <= k < e1 + e2
      ensures (tr1 + tr2)[k] == (k, if k < e1 then d1 else d2)
    {
      if k < e1 {
        assert (tr1 + tr2)[k] == tr1[k];
      } else {
        assert (tr1 + tr2)[k] == tr2[k - e1];
      }
    }
  }

  /** A retrain makes one training step per step of its two epochs. */
  lemma ScheduleTrainCount(e1: nat, e2: nat, d1: nat, d2: nat, drop: DropList, filter: Option<string>)
    ensures |Trains(Schedule(e1, e2, d1, d2, drop, filter))| == e1 + e2
  {
    var p1, p2 := Phase(0, e1, d1, drop, filter), Phase(e1, e1 + e2, d2, drop, filter);
    ScheduleViews(p1, p2, Save(e1 + e2));
    PhaseTrainCount(0, e1, d1, drop, filter);
    PhaseTrainCount(e1, e1 + e2, d2, drop, filter);
  }

  /** Epoch 1 trains on `d1` at steps `0 .. e1-1`, epoch 2 on `d2` at steps `e1 .. e1+e2-1`. */
  lemma ScheduleTrains(e1: nat, e2: nat, d1: nat, d2: nat, drop: DropList, filter: Option<string>)
    ensures |Trains(Schedule(e1, e2, d1, d2, drop, filter))| == e1 + e2
    ensures forall k :: 0 <= k < e1 + e2 ==>
              Trains(Schedule(e1, e2, d1, d2, drop, filter))[k] == (k, if k < e1 then d1 else d2)
  {
    var p1, p2 := Phase(0, e1, d1, drop, filter), Phase(e1, e1 + e2, d2, drop, filter);
    var tr1, tr2 := Trains(p1), Trains(p2);
    assert Trains(Schedule(e1, e2, d1, d2, drop, filter)) == tr1 + tr2 by {
      ScheduleViews(p1, p2, Save(e1 + e2));
    }
    assert |tr1| == e1 && forall k :: 0 <= k < e1 ==> tr1[k] == (0 + k, d1) by {
      PhaseTrains(0, e1, d1, drop, filter);
    }
    assert |tr2| == e2 && forall k :: 0 <= k < e2 ==> tr2[k] == (e1 + k, d2) by {
      PhaseTrains(e1, e1 + e2, d2, drop, filter);
    }
    TrainsJoin(tr1, tr2, e1, e2, d1, d2);
  }

  /** The tests are taken at the multiples of 50 below `e1 + e2`, in ascending order. */
  lemma ScheduleTestSteps(e1: nat, e2: nat, d1: nat, d2: nat, drop: DropList, filter: Option<string>)
    ensures TestSteps(Schedule(e1, e2, d1, d2, drop, filter)) == Multiples(0, e1 + e2)
  {
    var p1, p2 := Phase(0, e1, d1, drop, filter), Phase(e1, e1 + e2, d2, drop, filter);
    ScheduleViews(p1, p2, Save(e1 + e2));
    PhaseTestSteps(0, e1, d1, drop, filter);
    PhaseTestSteps(e1, e1 + e2, d2, drop, filter);
    MultiplesSplit(0, e1, e1 + e2);
  }

  /** A test is taken at step `s` exactly when `s` is a multiple of 50 below `e1 + e2`, in ascending order. */
  lemma ScheduleTests(e1: nat, e2: nat, d1: nat, d2: nat, drop: DropList, filter: Option<string>)
    ensures forall s: nat :: s in TestSteps(Schedule(e1, e2, d1, d2, drop, filter)) <==> s < e1 + e2 && s % EVAL_TEST_EVERY == 0
    ensures forall a, b :: 0 <= a < b < |TestSteps(Schedule(e1, e2, d1, d2, drop, filter))| ==>
              TestSteps(Schedule(e1, e2, d1, d2, drop, filter))[a] < TestSteps(Schedule(e1, e2, d1, d2, drop, filter))[b]
  {
    ScheduleTestSteps(e1, e2, d1, d2, drop, filter);
    MultiplesShape(0, e1 + e2);
  }

  /** The network is saved once, as the last event, at step `e1 + e2`. */
  lemma ScheduleSave(e1: nat, e2: nat, d1: nat, d2: nat, drop: DropList, filter: Option<string>)
    ensures Saves(Schedule(e1, e2, d1, d2, drop, filter)) == [e1 + e2]
    ensures Schedule(e1, e2, d1, d2, drop, filter)[|Schedule(e1, e2, d1, d2, drop, filter)| - 1] == Save(e1 + e2)
  {
    var p1, p2 := Phase(0, e1, d1, drop, filter), Phase(e1, e1 + e2, d2, drop, filter);
    ScheduleViews(p1, p2, Save(e1 + e2));
    PhaseSaves(0, e1, d1, drop, filter);
    PhaseSaves(e1, e1 + e2, d2, drop, filter);
  }

  /** Two loops that keep the order and the drop list, followed by a save, still do. */
  lemma OrderJoin(p1: seq<Event>, p2: seq<Event>, x: Event, drop: DropList, filter: Option<string>)
    requires TestThenTrain(p1) && TestThenTrain(p2) && CarriesDrop(p1, drop, filter) && CarriesDrop(p2, drop, filter)
    requires x.Save?
    ensures TestThenTrain(p1 + p2 + [x]) && CarriesDrop(p1 + p2 + [x], drop, filter)
  {
    var t := p1 + p2 + [x];
    forall i | 0 <= i < |t|
      ensures !t[i].Save? ==> t[i].drop == drop && (t[i].Train? ==> t[i].filter == filter)
      ensures t[i].Test? ==> i + 1 < |t| && t[i + 1].Train? && t[i + 1].step == t[i].step
    {
      if i < |p1| {
        assert t[i] == p1[i];
        if p1[i].Test? {
          assert t[i + 1] == p1[i + 1];
        }
      } else if i < |p1| + |p2| {
        assert t[i] == p2[i - |p1|];
        if p2[i - |p1|].Test? {
          assert t[i + 1] == p2[i + 1 - |p1|];
        }
      }
    }
  }

  /** Every test is directly followed by the training step of the same step, and all use the drop list. */
  lemma ScheduleOrder(e1: nat, e2: nat, d1: nat, d2: nat, drop: DropList, filter: Option<string>)
    ensures TestThenTrain(Schedule(e1, e2, d1, d2, drop, filter))
    ensures CarriesDrop(Schedule(e1, e2, d1, d2, drop, filter), drop, filter)
  {
    PhaseOrder(0, e1, d1, drop, filter);
    PhaseOrder(e1, e1 + e2, d2, drop, filter);
    OrderJoin(Phase(0, e1, d1, drop, filter), Phase(e1, e1 + e2, d2, drop, filter), Save(e1 + e2), drop, filter);
  }

  /** The multiples of 50 below 15: only 0. */
  lemma MultiplesBelowFifteen()
    ensures Multiples(0, 15) == [0]
  {
    MultiplesSplit(0, 1, 15);
    MultiplesEmpty(1, 15);
    MultiplesStep(0, 0);
  }

  /** Data sets of 320 and 160 samples: 15 training steps, and a single test, at step 0. */
  lemma SmallRetrain(size1: nat, size2: nat, d1: nat, d2: nat, drop: DropList, filter: Option<string>)
    requires size1 == 320 && size2 == 160
    ensures EpochSize(size1) == 10 && EpochSize(size2) == 5
    ensures |Trains(Schedule(EpochSize(size1), EpochSize(size2), d1, d2, drop, filter))| == 15
    ensures TestSteps(Schedule(EpochSize(size1), EpochSize(size2), d1, d2, drop, filter)) == [0]
  {
    var e1, e2 := EpochSize(size1), EpochSize(size2);
    assert e1 == 10 && e2 == 5;
    ScheduleTrainCount(e1, e2, d1, d2, drop, filter);
    ScheduleTestSteps(e1, e2, d1, d2, drop, filter);
    MultiplesBelowFifteen();
  }


  // ---------------------------------------------------------------------------
  // The routine itself

  /**
   * One call of `retrain`: the loop counter, the effects on the network so
   * far, and the recorded test errors and test steps.
   */
  class RetrainRun {
    const drop: DropList
    const filter: Option<string>
    const rankErrorAt: nat -> real
    var globalStep: nat
    var trace: seq<Event>
    var testErrors: seq<real>
    var testSteps: seq<nat>

    /** The recorded lists agree with the tests in the trace. */
    ghost predicate Valid()
      reads this
    {
      testSteps == TestSteps(trace) && testErrors == ErrorsAt(rankErrorAt, testSteps)
    }

    constructor(drop: DropList, filter: Option<string>, rankErrorAt: nat -> real)
      ensures this.drop == drop && this.filter == filter && this.rankErrorAt == rankErrorAt
      ensures globalStep == 0 && trace == [] && testErrors == [] && testSteps == []
      ensures Valid()
    {
      this.drop := drop;
      this.filter := filter;
      this.rankErrorAt := rankErrorAt;
      globalStep := 0;
      trace := [];
      testErrors := [];
      testSteps := [];
    }

    /** The nested `test()`: evaluate the rank error at the current step and append it and the step. */
    method Test()
      requires Valid()
      modifies this
      ensures Valid()
      ensures globalStep == old(globalStep) && trace == old(trace) + [Event.Test(globalStep, drop)]
      ensures testSteps == old(testSteps) + [globalStep]
      ensures testErrors == old(testErrors) + [rankErrorAt(globalStep)]
    {
      var re := rankErrorAt(globalStep);
      testErrors := testErrors + [re];
      testSteps := testSteps + [globalStep];
      TestStepsAppend(trace, [Event.Test(globalStep, drop)]);
      SingleViews(Event.Test(globalStep, drop));
      trace := trace + [Event.Test(globalStep, drop)];
      assert testSteps[..|testSteps| - 1] == old(testSteps);
    }

    /** One training step on a batch of data set `dataset`, then `global_step += 1`. */
    method TrainStep(dataset: nat)
      requires Valid()
      modifies this
      ensures Valid()
      ensures globalStep == old(globalStep) + 1
      ensures trace == old(trace) + [Train(old(globalStep), dataset, drop, filter)]
      ensures testSteps == old(testSteps) && testErrors == old(testErrors)
    {
      TestStepsAppend(trace, [Train(globalStep, dataset, drop, filter)]);
      SingleViews(Train(globalStep, dataset, drop, filter));
      trace := trace + [Train(globalStep, dataset, drop, filter)];
      globalStep := globalStep + 1;
    }

    /** One pass of the loop body: test when the step is a multiple of 50, then train on `dataset`. */
    method RunStep(dataset: nat)
      requires Valid()
      modifies this
      ensures Valid()
      ensures globalStep == old(globalStep) + 1
      ensures trace == old(trace) + StepEvents(old(globalStep), dataset, drop, filter)
    {
      if globalStep % EVAL_TEST_EVERY == 0 {
        Test();
      }
      TrainStep(dataset);
    }

    /** `while global_step < end`: test at multiples of 50, train on `dataset`. */
    method RunPhase(end: nat, dataset: nat)
      requires Valid()
      modifies this
      ensures Valid()
      ensures globalStep == if old(globalStep) < end then end else old(globalStep)
      ensures trace == old(trace) + Phase(old(globalStep), end, dataset, drop, filter)
    {
      ghost var lo := globalStep;
      ghost var start := trace;
      while globalStep < end
        invariant Valid()
        invariant lo <= globalStep && (lo < end ==> globalStep <= end) && (lo >= end ==> globalStep == lo)
        invariant trace == start + Phase(lo, globalStep, dataset, drop, filter)
        decreases end - globalStep
      {
        PhaseStep(lo, globalStep, dataset, drop, filter);
        RunStep(dataset);
      }
      if lo >= end {
        assert Phase(lo, end, dataset, drop, filter) == [];
      }
    }

    /** `m.save_state(chk_file, global_step, True)`. */
    method Save()
      requires Valid()
      modifies this
      ensures Valid()
      ensures globalStep == old(globalStep) && trace == old(trace) + [Event.Save(globalStep)]
      ensures testSteps == old(testSteps) && testErrors == old(testErrors)
    {
      TestStepsAppend(trace, [Event.Save(globalStep)]);
      SingleViews(Event.Save(globalStep));
      trace := trace + [Event.Save(globalStep)];
    }
  }

  /**
   * `retrain` on data sets `d1` and `d2` of the given sizes: one epoch each,
   * then a save. The recorded test steps and errors are those of the tests in
   * the trace.
   */
  method Retrain(size1: nat, size2: nat, d1: nat, d2: nat, drop: DropList, filter: Option<string>, rankErrorAt: nat -> real)
    returns (run: RetrainRun)
    ensures fresh(run) && run.Valid()
    ensures run.drop == drop && run.filter == filter && run.rankErrorAt == rankErrorAt
    ensures run.globalStep == EpochSize(size1) + EpochSize(size2)
    ensures run.trace == Schedule(EpochSize(size1), EpochSize(size2), d1, d2, drop, filter)
  {
    var epoch1 := size1 / BATCHSIZE;
    var epoch2 := size2 / BATCHSIZE;
    assert epoch1 == EpochSize(size1) && epoch2 == EpochSize(size2);
    ghost var p1, p2 := Phase(0, epoch1, d1, drop, filter), Phase(epoch1, epoch1 + epoch2, d2, drop, filter);
    run := new RetrainRun(drop, filter, rankErrorAt);
    run.RunPhase(epoch1, d1);
    assert run.trace == p1;
    run.RunPhase(epoch1 + epoch2, d2);
    assert run.trace == p1 + p2;
    run.Save();
    assert run.trace == Schedule(epoch1, epoch2, d1, d2, drop, filter);
  }
}
