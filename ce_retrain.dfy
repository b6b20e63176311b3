/**
 * The C. elegans retraining script. For each network with three hidden
 * layers of 512 units, the AFD and AWC/AIY like cells are ablated and the
 * network is retrained twice: once training only the temperature branch,
 * once training only the shared (non temperature) branch. Each retrain
 * goes into its own folder, and a folder that exists already means that
 * retrain is skipped.
 */
module CeRetrain {
  import opened Wrappers
  import RetrainSchedule
  import opened RetrainCommon

  const BASE_PATH: string := "./model_data/CE_Adam_1e-4/"
  const CE_LIKE: seq<nat> := [1, 7]
  const CE_UNLIKE: seq<nat> := Complement(CE_LIKE, N_CLUSTERS)

  const T_BRANCH_DIR: string := "/cel_tbranch_retrain"
  const NON_T_BRANCH_DIR: string := "/cel_nontbranch_retrain"
  /** The temperature-branch variables have names containing `_t_`, the shared-branch ones `_m_`. */
  const T_FILTER: string := "_t_"
  const M_FILTER: string := "_m_"

  /** `ce_unlike` is `[0, 2, 3, 4, 5, 6]`; with `ce_like` it splits the eight clusters. */
  lemma CeUnlikeValue()
    ensures CE_UNLIKE == [0, 2, 3, 4, 5, 6]
    ensures forall x: nat :: x < N_CLUSTERS ==> (x in CE_LIKE) != (x in CE_UNLIKE)
  {
    assert CE_UNLIKE == [0, 2, 3, 4, 5, 6] by {
      assert Complement(CE_LIKE, 1) == [0];
      assert Complement(CE_LIKE, 2) == [0];
      assert Complement(CE_LIKE, 3) == [0, 2];
      assert Complement(CE_LIKE, 4) == [0, 2, 3];
      assert Complement(CE_LIKE, 5) == [0, 2, 3, 4];
      assert Complement(CE_LIKE, 6) == [0, 2, 3, 4, 5];
      assert Complement(CE_LIKE, 7) == [0, 2, 3, 4, 5, 6];
    }
    assert forall x: nat :: x < N_CLUSTERS ==> (x in CE_LIKE) != (x in CE_UNLIKE) by {
      ComplementPartition(CE_LIKE, N_CLUSTERS);
    }
  }

  /** The two retrain folders of one model. */
  datatype ModelFolders = ModelFolders(tBranch: string, nonTBranch: string)

  /** The folders under `mpath(p)`. */
  function FoldersOf(p: string): ModelFolders {
    var modelPath := MPath(BASE_PATH, p);
    ModelFolders(modelPath + T_BRANCH_DIR, modelPath + NON_T_BRANCH_DIR)
  }

  /** The folders of every model in `paths`, in order. */
  function AllFolders(paths: seq<string>): (fl: seq<ModelFolders>)
    ensures |fl| == |paths| && forall j :: 0 <= j < |paths| ==> fl[j] == FoldersOf(paths[j])
  {
    seq(|paths|, j requires 0 <= j < |paths| => FoldersOf(paths[j]))
  }

  /** The two folders of each model differ, so neither decision can see the other's `mkdir`. */
  predicate Separate(fl: seq<ModelFolders>) {
    forall j :: 0 <= j < |fl| ==> fl[j].tBranch != fl[j].nonTBranch
  }

  lemma AllFoldersSeparate(paths: seq<string>)
    ensures Separate(AllFolders(paths))
  {
    forall j | 0 <= j < |paths| ensures AllFolders(paths)[j].tBranch != AllFolders(paths)[j].nonTBranch {
      var f := FoldersOf(paths[j]);
      assert |f.tBranch| != |f.nonTBranch|;
    }
  }

  /** `np.random.shuffle(train_ix)` on a two-element list: it is swapped or left alone. */
  function Shuffle(trainIx: seq<nat>, swap: bool): seq<nat>
    requires |trainIx| == 2
  {
    if swap then [trainIx[1], trainIx[0]] else trainIx
  }

  /** `train_ix` starts as `[0, 1]` and only ever holds an ordering of the two training sets. */
  predicate IsOrder(trainIx: seq<nat>) {
    trainIx == [0, 1] || trainIx == [1, 0]
  }

  lemma ShuffleKeepsOrder(trainIx: seq<nat>, swap: bool)
    requires IsOrder(trainIx)
    ensures IsOrder(Shuffle(trainIx, swap))
    ensures multiset(Shuffle(trainIx, swap)) == multiset{0, 1}
  {
  }

  /** `if os.path.exists(folder)` skip, else `os.mkdir(folder)` and retrain into it, after what `o` did. */
  function BranchStep(i: nat, folder: string, trainIx: seq<nat>, filter: Option<string>, o: Outcome): Outcome
    requires |trainIx| == 2
  {
    if folder in o.fs then o
    else Outcome(o.log + MkdirThenRetrain(RetrainCall(i, folder, CE_LIKE, trainIx[0], trainIx[1], filter)), o.fs + {folder})
  }

  /**
   * One pass of the driver loop for model `i` with folders `f`, after the
   * shuffle gave `trainIx`: the temperature-branch retrain unless its
   * folder exists, then the shared-branch retrain unless its folder exists.
   */
  function Iteration(i: nat, f: ModelFolders, trainIx: seq<nat>, fs: set<string>): Outcome
    requires |trainIx| == 2
  {
    var first := BranchStep(i, f.tBranch, trainIx, Some(T_FILTER), Outcome([], fs));
    BranchStep(i, f.nonTBranch, trainIx, Some(M_FILTER), first)
  }

  /** The driver loop from model `i` on, with `train_ix` as the previous iteration left it. */
  function Driver(fl: seq<ModelFolders>, swaps: seq<bool>, i: nat, trainIx: seq<nat>, fs: set<string>): Outcome
    requires |swaps| == |fl| && |trainIx| == 2
    decreases |fl| - i
  {
    if i >= |fl| then Outcome([], fs)
    else
      var td := Shuffle(trainIx, swaps[i]);
      var now := Iteration(i, fl[i], td, fs);
      var rest := Driver(fl, swaps, i + 1, td, now.fs);
      Outcome(now.log + rest.log, rest.fs)
  }

  /** The whole script over the models in `paths`: `train_ix` starts as `[0, 1]`. */
  function Run(paths: seq<string>, swaps: seq<bool>, fs: set<string>): Outcome
    requires |swaps| == |paths|
  {
    Driver(AllFolders(paths), swaps, 0, [0, 1], fs)
  }

  // ---------------------------------------------------------------------------
  // One iteration

  /** An iteration leaves both folders of its model, and adds nothing else. */
  lemma IterationFolders(i: nat, f: ModelFolders, trainIx: seq<nat>, fs: set<string>)
    requires |trainIx| == 2
    ensures Iteration(i, f, trainIx, fs).fs == fs + {f.tBranch, f.nonTBranch}
  {
  }

  /** The shared-branch step after the temperature-branch step. */
  lemma IterationSteps(i: nat, f: ModelFolders, trainIx: seq<nat>, fs: set<string>)
    requires |trainIx| == 2
    ensures var first := BranchStep(i, f.tBranch, trainIx, Some(T_FILTER), Outcome([], fs));
      first.fs == fs + {f.tBranch} &&
      first.log == (if f.tBranch in fs then [] else MkdirThenRetrain(RetrainCall(i, f.tBranch, CE_LIKE, trainIx[0], trainIx[1], Some(T_FILTER)))) &&
      Iteration(i, f, trainIx, fs) == BranchStep(i, f.nonTBranch, trainIx, Some(M_FILTER), first)
  {
  }

  /**
   * Each retrain of an iteration happens exactly when its own folder was
   * missing, whatever became of the other, and both use the `ce_like` drop
   * list, the shuffled training order and their branch's filter.
   */
  lemma IterationCalls(i: nat, f: ModelFolders, trainIx: seq<nat>, fs: set<string>)
    requires |trainIx| == 2 && f.tBranch != f.nonTBranch
    ensures var tc := RetrainCall(i, f.tBranch, CE_LIKE, trainIx[0], trainIx[1], Some(T_FILTER));
      var nc := RetrainCall(i, f.nonTBranch, CE_LIKE, trainIx[0], trainIx[1], Some(M_FILTER));
      Calls(Iteration(i, f, trainIx, fs).log) ==
        (if f.tBranch in fs then [] else [tc]) + (if f.nonTBranch in fs then [] else [nc])
  {
    IterationSteps(i, f, trainIx, fs);
    var first := BranchStep(i, f.tBranch, trainIx, Some(T_FILTER), Outcome([], fs));
    var nc := RetrainCall(i, f.nonTBranch, CE_LIKE, trainIx[0], trainIx[1], Some(M_FILTER));
    if f.nonTBranch !in first.fs {
      CallsAppend(first.log, MkdirThenRetrain(nc));
    }
  }

  /** An iteration creates exactly the folders it adds, each just before the retrain into it. */
  lemma IterationMade(i: nat, f: ModelFolders, trainIx: seq<nat>, fs: set<string>)
    requires |trainIx| == 2
    ensures Made(Iteration(i, f, trainIx, fs).log) == Iteration(i, f, trainIx, fs).fs - fs
    ensures MkdirFirst(Iteration(i, f, trainIx, fs).log)
  {
    IterationSteps(i, f, trainIx, fs);
    var first := BranchStep(i, f.tBranch, trainIx, Some(T_FILTER), Outcome([], fs));
    var nc := RetrainCall(i, f.nonTBranch, CE_LIKE, trainIx[0], trainIx[1], Some(M_FILTER));
    assert MkdirFirst(first.log) by {
      MkdirThenRetrainShape(RetrainCall(i, f.tBranch, CE_LIKE, trainIx[0], trainIx[1], Some(T_FILTER)));
    }
    if f.nonTBranch !in first.fs {
      MadeAppend(first.log, MkdirThenRetrain(nc));
      MkdirThenRetrainShape(nc);
      MkdirFirstAppend(first.log, MkdirThenRetrain(nc));
    }
  }

  /** The temperature-branch step pairs the folder it creates, if any, with one retrain. */
  lemma FirstOnce(i: nat, f: ModelFolders, trainIx: seq<nat>, fs: set<string>)
    requires |trainIx| == 2
    ensures var first := BranchStep(i, f.tBranch, trainIx, Some(T_FILTER), Outcome([], fs));
      OncePerFolder(first.log) && Made(first.log) == first.fs - fs && fs <= first.fs
  {
    IterationSteps(i, f, trainIx, fs);
    if f.tBranch in fs {
      OnceEmpty();
      assert Made([]) == {};
    } else {
      MkdirThenRetrainOnce(RetrainCall(i, f.tBranch, CE_LIKE, trainIx[0], trainIx[1], Some(T_FILTER)));
    }
  }

  /** An iteration pairs each folder it creates with exactly one retrain into it. */
  lemma IterationOnce(i: nat, f: ModelFolders, trainIx: seq<nat>, fs: set<string>)
    requires |trainIx| == 2
    ensures OncePerFolder(Iteration(i, f, trainIx, fs).log)
  {
    var first := BranchStep(i, f.tBranch, trainIx, Some(T_FILTER), Outcome([], fs));
    assert Iteration(i, f, trainIx, fs) == BranchStep(i, f.nonTBranch, trainIx, Some(M_FILTER), first) by {
      IterationSteps(i, f, trainIx, fs);
    }
    FirstOnce(i, f, trainIx, fs);
    if f.nonTBranch !in first.fs {
      OnceThen(first.log, RetrainCall(i, f.nonTBranch, CE_LIKE, trainIx[0], trainIx[1], Some(M_FILTER)), fs, first.fs);
    }
  }

  /**
   * A retrain the loop may start: for a listed model, into a folder missing
   * at the start, with the `ce_like` drop list, an ordering of the two
   * training sets, and the branch filter that belongs to the folder.
   */
  predicate Expected(fl: seq<ModelFolders>, c: RetrainCall, fs: set<string>) {
    c.model < |fl| && c.folder !in fs && c.clusters == CE_LIKE && IsOrder([c.first, c.second]) &&
    ((c.folder == fl[c.model].tBranch && c.filter == Some(T_FILTER)) ||
     (c.folder == fl[c.model].nonTBranch && c.filter == Some(M_FILTER)))
  }

  lemma IterationExpected(fl: seq<ModelFolders>, i: nat, trainIx: seq<nat>, fs: set<string>)
    requires i < |fl| && IsOrder(trainIx) && fl[i].tBranch != fl[i].nonTBranch
    ensures forall k :: 0 <= k < |Calls(Iteration(i, fl[i], trainIx, fs).log)| ==>
              Expected(fl, Calls(Iteration(i, fl[i], trainIx, fs).log)[k], fs)
  {
    IterationCalls(i, fl[i], trainIx, fs);
  }

  /** A retrain expected against a larger folder set is expected against a smaller one. */
  lemma ExpectedWeaken(fl: seq<ModelFolders>, c: RetrainCall, fs: set<string>, more: set<string>)
    requires fs <= more && Expected(fl, c, more)
    ensures Expected(fl, c, fs)
  {
  }

  // ---------------------------------------------------------------------------
  // The whole loop

  /** Both folders of every model from `i` on. */
  function FoldersFrom(fl: seq<ModelFolders>, i: nat): set<string>
    decreases |fl| - i
  {
    if i >= |fl| then {} else {fl[i].tBranch, fl[i].nonTBranch} + FoldersFrom(fl, i + 1)
  }

  lemma {:induction false} FoldersFromHas(fl: seq<ModelFolders>, i: nat, j: nat)
    requires i <= j < |fl|
    ensures fl[j].tBranch in FoldersFrom(fl, i) && fl[j].nonTBranch in FoldersFrom(fl, i)
    decreases j - i
  {
    if i < j {
      FoldersFromHas(fl, i + 1, j);
    }
  }

  lemma {:induction false} FoldersFromElement(fl: seq<ModelFolders>, i: nat, x: string)
    requires x in FoldersFrom(fl, i)
    ensures exists j :: i <= j < |fl| && (x == fl[j].tBranch || x == fl[j].nonTBranch)
    decreases |fl| - i
  {
    if x != fl[i].tBranch && x != fl[i].nonTBranch {
      FoldersFromElement(fl, i + 1, x);
    }
  }

  /** The first iteration of the loop from `i`, and the loop after it. */
  lemma DriverUnfold(fl: seq<ModelFolders>, swaps: seq<bool>, i: nat, trainIx: seq<nat>, fs: set<string>)
    requires |swaps| == |fl| && |trainIx| == 2 && i < |fl|
    ensures var td := Shuffle(trainIx, swaps[i]);
      var now := Iteration(i, fl[i], td, fs);
      var rest := Driver(fl, swaps, i + 1, td, now.fs);
      Driver(fl, swaps, i, trainIx, fs) == Outcome(now.log + rest.log, rest.fs)
  {
  }

  /** After the loop both folders exist for every model from `i` on, and nothing else has been added. */
  lemma {:induction false} DriverFolders(fl: seq<ModelFolders>, swaps: seq<bool>, i: nat, trainIx: seq<nat>, fs: set<string>)
    requires |swaps| == |fl| && |trainIx| == 2
    ensures Driver(fl, swaps, i, trainIx, fs).fs == fs + FoldersFrom(fl, i)
    decreases |fl| - i
  {
    if i < |fl| {
      var td := Shuffle(trainIx, swaps[i]);
      var now := Iteration(i, fl[i], td, fs);
      IterationFolders(i, fl[i], td, fs);
      DriverFolders(fl, swaps, i + 1, td, now.fs);
      DriverUnfold(fl, swaps, i, trainIx, fs);
    }
  }

  /** Calls expected against `fs`, then calls expected against a larger set, are all expected against `fs`. */
  lemma ExpectedJoin(fl: seq<ModelFolders>, a: seq<RetrainCall>, b: seq<RetrainCall>, fs: set<string>, more: set<string>)
    requires fs <= more
    requires forall k :: 0 <= k < |a| ==> Expected(fl, a[k], fs)
    requires forall k :: 0 <= k < |b| ==> Expected(fl, b[k], more)
    ensures forall k :: 0 <= k < |a + b| ==> Expected(fl, (a + b)[k], fs)
  {
    forall k | 0 <= k < |a + b| ensures Expected(fl, (a + b)[k], fs) {
      if k < |a| {
        assert (a + b)[k] == a[k];
      } else {
        assert (a + b)[k] == b[k - |a|];
        ExpectedWeaken(fl, b[k - |a|], fs, more);
      }
    }
  }

  /** The loop creates exactly the folders it adds. */
  lemma {:induction false} DriverMade(fl: seq<ModelFolders>, swaps: seq<bool>, i: nat, trainIx: seq<nat>, fs: set<string>)
    requires |swaps| == |fl| && |trainIx| == 2
    ensures Made(Driver(fl, swaps, i, trainIx, fs).log) == Driver(fl, swaps, i, trainIx, fs).fs - fs
    decreases |fl| - i
  {
    if i < |fl| {
      var td := Shuffle(trainIx, swaps[i]);
      var now := Iteration(i, fl[i], td, fs);
      var rest := Driver(fl, swaps, i + 1, td, now.fs);
      assert fs <= now.fs && Made(now.log) == now.fs - fs by {
        IterationMade(i, fl[i], td, fs);
        IterationFolders(i, fl[i], td, fs);
      }
      assert now.fs <= rest.fs && Made(rest.log) == rest.fs - now.fs by {
        DriverMade(fl, swaps, i + 1, td, now.fs);
        DriverFolders(fl, swaps, i + 1, td, now.fs);
      }
      assert Made(now.log + rest.log) == rest.fs - fs by {
        MadeJoin(now.log, rest.log, fs, now.fs, rest.fs);
      }
      DriverUnfold(fl, swaps, i, trainIx, fs);
    }
  }

  /** Every retrain of the loop directly follows the creation of its folder. */
  lemma {:induction false} DriverMkdirFirst(fl: seq<ModelFolders>, swaps: seq<bool>, i: nat, trainIx: seq<nat>, fs: set<string>)
    requires |swaps| == |fl| && |trainIx| == 2
    ensures MkdirFirst(Driver(fl, swaps, i, trainIx, fs).log)
    decreases |fl| - i
  {
    if i < |fl| {
      var td := Shuffle(trainIx, swaps[i]);
      var now := Iteration(i, fl[i], td, fs);
      IterationMade(i, fl[i], td, fs);
      DriverMkdirFirst(fl, swaps, i + 1, td, now.fs);
      DriverUnfold(fl, swaps, i, trainIx, fs);
      MkdirFirstAppend(now.log, Driver(fl, swaps, i + 1, td, now.fs).log);
    }
  }

  /** The loop pairs each folder it creates with exactly one retrain into it. */
  lemma {:induction false} DriverOnce(fl: seq<ModelFolders>, swaps: seq<bool>, i: nat, trainIx: seq<nat>, fs: set<string>)
    requires |swaps| == |fl| && |trainIx| == 2
    ensures OncePerFolder(Driver(fl, swaps, i, trainIx, fs).log)
    decreases |fl| - i
  {
    if i < |fl| {
      var td := Shuffle(trainIx, swaps[i]);
      DriverOnce(fl, swaps, i + 1, td, Iteration(i, fl[i], td, fs).fs);
      DriverOnceStep(fl, swaps, i, trainIx, fs);
    } else {
      OnceEmpty();
    }
  }

  /** One more iteration in front of a loop that pairs creations with retrains keeps them paired. */
  lemma DriverOnceStep(fl: seq<ModelFolders>, swaps: seq<bool>, i: nat, trainIx: seq<nat>, fs: set<string>)
    requires |swaps| == |fl| && |trainIx| == 2 && i < |fl|
    requires var td := Shuffle(trainIx, swaps[i]);
      OncePerFolder(Driver(fl, swaps, i + 1, td, Iteration(i, fl[i], td, fs).fs).log)
    ensures OncePerFolder(Driver(fl, swaps, i, trainIx, fs).log)
  {
    var td := Shuffle(trainIx, swaps[i]);
    var now := Iteration(i, fl[i], td, fs);
    var rest := Driver(fl, swaps, i + 1, td, now.fs);
    assert OncePerFolder(now.log + rest.log) by {
      assert now.fs <= rest.fs && Made(rest.log) == rest.fs - now.fs by {
        DriverMade(fl, swaps, i + 1, td, now.fs);
        DriverFolders(fl, swaps, i + 1, td, now.fs);
      }
      OnceStep(i, fl[i], td, fs, rest.log, rest.fs);
    }
    assert Driver(fl, swaps, i, trainIx, fs).log == now.log + rest.log by {
      DriverUnfold(fl, swaps, i, trainIx, fs);
    }
  }

  /** An iteration's pairs followed by pairs for folders created after it are still paired. */
  lemma OnceStep(i: nat, f: ModelFolders, td: seq<nat>, fs: set<string>, restLog: seq<Action>, restFs: set<string>)
    requires |td| == 2
    requires OncePerFolder(restLog)
    requires Iteration(i, f, td, fs).fs <= restFs && Made(restLog) == restFs - Iteration(i, f, td, fs).fs
    ensures OncePerFolder(Iteration(i, f, td, fs).log + restLog)
  {
    var now := Iteration(i, f, td, fs);
    assert fs <= now.fs && Made(now.log) == now.fs - fs by {
      IterationMade(i, f, td, fs);
      IterationFolders(i, f, td, fs);
    }
    IterationOnce(i, f, td, fs);
    OnceJoin(now.log, restLog, fs, now.fs, restFs);
  }

  /**
   * Every retrain of the loop saves into a folder that was missing at the
   * start, with the `ce_like` drop list and an ordering of the two training sets.
   */
  lemma {:induction false} DriverCalls(fl: seq<ModelFolders>, swaps: seq<bool>, i: nat, trainIx: seq<nat>, fs: set<string>)
    requires |swaps| == |fl| && IsOrder(trainIx) && Separate(fl)
    ensures forall k :: 0 <= k < |Calls(Driver(fl, swaps, i, trainIx, fs).log)| ==>
              Expected(fl, Calls(Driver(fl, swaps, i, trainIx, fs).log)[k], fs)
    decreases |fl| - i
  {
    if i < |fl| {
      var td := Shuffle(trainIx, swaps[i]);
      ShuffleKeepsOrder(trainIx, swaps[i]);
      var now := Iteration(i, fl[i], td, fs);
      var rest := Driver(fl, swaps, i + 1, td, now.fs);
      var a, b := Calls(now.log), Calls(rest.log);
      assert Calls(Driver(fl, swaps, i, trainIx, fs).log) == a + b by {
        DriverUnfold(fl, swaps, i, trainIx, fs);
        CallsAppend(now.log, rest.log);
      }
      assert forall k :: 0 <= k < |a| ==> Expected(fl, a[k], fs) by {
        IterationExpected(fl, i, td, fs);
      }
      assert fs <= now.fs by {
        IterationFolders(i, fl[i], td, fs);
      }
      DriverCalls(fl, swaps, i + 1, td, now.fs);
      ExpectedJoin(fl, a, b, fs, now.fs);
    }
  }

  /** When every folder of the models from `i` on exists, the loop does nothing. */
  lemma {:induction false} DriverIdle(fl: seq<ModelFolders>, swaps: seq<bool>, i: nat, trainIx: seq<nat>, fs: set<string>)
    requires |swaps| == |fl| && |trainIx| == 2
    requires FoldersFrom(fl, i) <= fs
    ensures Driver(fl, swaps, i, trainIx, fs) == Outcome([], fs)
    decreases |fl| - i
  {
    if i < |fl| {
      DriverIdle(fl, swaps, i + 1, Shuffle(trainIx, swaps[i]), fs);
    }
  }

  // ---------------------------------------------------------------------------
  // The script

  /** After the script both retrain folders exist for every model, and nothing else has been created. */
  lemma RunFolders(paths: seq<string>, swaps: seq<bool>, fs: set<string>)
    requires |swaps| == |paths|
    ensures forall j :: 0 <= j < |paths| ==>
              FoldersOf(paths[j]).tBranch in Run(paths, swaps, fs).fs && FoldersOf(paths[j]).nonTBranch in Run(paths, swaps, fs).fs
    ensures forall x :: x in Run(paths, swaps, fs).fs ==>
              x in fs || exists j :: 0 <= j < |paths| && (x == FoldersOf(paths[j]).tBranch || x == FoldersOf(paths[j]).nonTBranch)
  {
    var fl := AllFolders(paths);
    DriverFolders(fl, swaps, 0, [0, 1], fs);
    forall j | 0 <= j < |paths| ensures fl[j].tBranch in FoldersFrom(fl, 0) && fl[j].nonTBranch in FoldersFrom(fl, 0) {
      FoldersFromHas(fl, 0, j);
    }
    forall x | x in FoldersFrom(fl, 0)
      ensures exists j :: 0 <= j < |paths| && (x == fl[j].tBranch || x == fl[j].nonTBranch)
    {
      FoldersFromElement(fl, 0, x);
    }
  }

  /**
   * The script creates exactly the folders it adds, and every retrain saves
   * into a folder it has just created and that was missing before the run,
   * with the `ce_like` drop list and an ordering of the two training sets;
   * each created folder gets exactly one retrain.
   */
  lemma RunLog(paths: seq<string>, swaps: seq<bool>, fs: set<string>)
    requires |swaps| == |paths|
    ensures Made(Run(paths, swaps, fs).log) == Run(paths, swaps, fs).fs - fs
    ensures MkdirFirst(Run(paths, swaps, fs).log)
    ensures forall k :: 0 <= k < |Calls(Run(paths, swaps, fs).log)| ==> Expected(AllFolders(paths), Calls(Run(paths, swaps, fs).log)[k], fs)
    ensures OncePerFolder(Run(paths, swaps, fs).log)
    ensures RetrainAfterMkdir(Run(paths, swaps, fs).log) && DistinctFolders(Calls(Run(paths, swaps, fs).log))
  {
    AllFoldersSeparate(paths);
    DriverMade(AllFolders(paths), swaps, 0, [0, 1], fs);
    DriverMkdirFirst(AllFolders(paths), swaps, 0, [0, 1], fs);
    DriverCalls(AllFolders(paths), swaps, 0, [0, 1], fs);
    DriverOnce(AllFolders(paths), swaps, 0, [0, 1], fs);
    OnceMeaning(Run(paths, swaps, fs).log);
  }

  /** Running the script a second time, with any shuffles, retrains nothing and creates nothing. */
  lemma SecondRunIdle(paths: seq<string>, swaps: seq<bool>, swaps2: seq<bool>, fs: set<string>)
    requires |swaps| == |paths| && |swaps2| == |paths|
    ensures var once := Run(paths, swaps, fs);
      Run(paths, swaps2, once.fs) == Outcome([], once.fs)
  {
    var once := Run(paths, swaps, fs);
    DriverFolders(AllFolders(paths), swaps, 0, [0, 1], fs);
    DriverIdle(AllFolders(paths), swaps2, 0, [0, 1], once.fs);
  }

  /** The loop's state after iteration `i`, when `done` is what the iterations before it logged. */
  lemma DriverStep(fl: seq<ModelFolders>, swaps: seq<bool>, i: nat, trainIx: seq<nat>, fs: set<string>,
                   done: seq<Action>, whole: Outcome)
    requires |swaps| == |fl| && |trainIx| == 2 && i < |fl|
    requires done + Driver(fl, swaps, i, trainIx, fs).log == whole.log
    requires Driver(fl, swaps, i, trainIx, fs).fs == whole.fs
    ensures var td := Shuffle(trainIx, swaps[i]);
      var now := Iteration(i, fl[i], td, fs);
      (done + now.log) + Driver(fl, swaps, i + 1, td, now.fs).log == whole.log &&
      Driver(fl, swaps, i + 1, td, now.fs).fs == whole.fs
  {
    DriverUnfold(fl, swaps, i, trainIx, fs);
  }

  // ---------------------------------------------------------------------------
  // The driver itself

  /** The temperature-branch block: skip when `folder` exists, otherwise create it and retrain into it. */
  method RetrainBranch(i: nat, folder: string, trainIx: seq<nat>, filter: Option<string>, size0: nat, size1: nat, fs: FileSystem,
                       dropList: (nat, seq<nat>) -> RetrainSchedule.DropList, rankErrorAt: string -> nat -> real,
                       log: seq<Action>, traces: seq<seq<RetrainSchedule.Event>>)
    returns (log': seq<Action>, traces': seq<seq<RetrainSchedule.Event>>)
    requires |trainIx| == 2
    requires TracesMatch(log, traces, size0, size1, dropList)
    modifies fs
    ensures log' == log + BranchStep(i, folder, trainIx, filter, Outcome([], old(fs.paths))).log
    ensures fs.paths == BranchStep(i, folder, trainIx, filter, Outcome([], old(fs.paths))).fs
    ensures TracesMatch(log', traces', size0, size1, dropList)
  {
    log', traces' := log, traces;
    if fs.Exists(folder) {
      return;
    }
    log', traces' := RetrainInto(fs, RetrainCall(i, folder, CE_LIKE, trainIx[0], trainIx[1], filter),
                                 size0, size1, dropList, rankErrorAt, log, traces);
  }

  /**
   * The body of the `__main__` loop for model `i` with entry `p`, once the
   * training order is `trainIx`: each branch's folder is created and
   * retrained into unless it exists, the temperature branch first.
   */
  method RetrainModel(i: nat, p: string, trainIx: seq<nat>, size0: nat, size1: nat, fs: FileSystem,
                      dropList: (nat, seq<nat>) -> RetrainSchedule.DropList, rankErrorAt: string -> nat -> real,
                      log: seq<Action>, traces: seq<seq<RetrainSchedule.Event>>)
    returns (log': seq<Action>, traces': seq<seq<RetrainSchedule.Event>>)
    requires |trainIx| == 2
    requires TracesMatch(log, traces, size0, size1, dropList)
    modifies fs
    ensures log' == log + Iteration(i, FoldersOf(p), trainIx, old(fs.paths)).log
    ensures fs.paths == Iteration(i, FoldersOf(p), trainIx, old(fs.paths)).fs
    ensures TracesMatch(log', traces', size0, size1, dropList)
  {
    ghost var f := FoldersOf(p);
    ghost var now := Iteration(i, f, trainIx, fs.paths);
    ghost var first := BranchStep(i, f.tBranch, trainIx, Some(T_FILTER), Outcome([], fs.paths));
    IterationSteps(i, f, trainIx, fs.paths);
    log', traces' := log, traces;

    var modelPath := MPath(BASE_PATH, p);
    var folder := modelPath + T_BRANCH_DIR;
    assert folder == f.tBranch;
    log', traces' := RetrainBranch(i, folder, trainIx, Some(T_FILTER), size0, size1, fs, dropList, rankErrorAt, log', traces');
    folder := modelPath + NON_T_BRANCH_DIR;
    assert folder == f.nonTBranch;
    if fs.Exists(folder) {
      return;
    }
    var nc := RetrainCall(i, folder, CE_LIKE, trainIx[0], trainIx[1], Some(M_FILTER));
    assert now.log == first.log + MkdirThenRetrain(nc);
    log', traces' := RetrainInto(fs, nc, size0, size1, dropList, rankErrorAt, log', traces');
  }

  /**
   * The `__main__` loop over `paths`: shuffle the training order, then for
   * each branch create its folder and retrain unless the folder exists.
   * `swaps[i]` is the outcome of the shuffle of iteration `i`, `size0` and
   * `size1` are the sizes of the two training sets, and `rankErrorAt(folder)`
   * gives the test errors of the retrain saving into `folder`. The traces of
   * the retrains are returned in call order.
   */
  method RetrainAll(paths: seq<string>, swaps: seq<bool>, size0: nat, size1: nat, fs: FileSystem,
                    dropList: (nat, seq<nat>) -> RetrainSchedule.DropList, rankErrorAt: string -> nat -> real)
    returns (log: seq<Action>, traces: seq<seq<RetrainSchedule.Event>>)
    requires |swaps| == |paths|
    modifies fs
    ensures Run(paths, swaps, old(fs.paths)) == Outcome(log, fs.paths)
    ensures TracesMatch(log, traces, size0, size1, dropList)
  {
    ghost var fl := AllFolders(paths);
    ghost var whole := Run(paths, swaps, fs.paths);
    var trainIx: seq<nat> := [0, 1];
    log, traces := [], [];
    for i := 0 to |paths|
      invariant IsOrder(trainIx)
      invariant log + Driver(fl, swaps, i, trainIx, fs.paths).log == whole.log
      invariant Driver(fl, swaps, i, trainIx, fs.paths).fs == whole.fs
      invariant TracesMatch(log, traces, size0, size1, dropList)
    {
      ghost var before, ixBefore := fs.paths, trainIx;
      trainIx := Shuffle(trainIx, swaps[i]);
      ShuffleKeepsOrder(ixBefore, swaps[i]);
      DriverStep(fl, swaps, i, ixBefore, before, log, whole);
      log, traces := RetrainModel(i, paths[i], trainIx, size0, size1, fs, dropList, rankErrorAt, log, traces);
    }
  }
}
