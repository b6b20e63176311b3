/**
 * The zebrafish retraining script. For each network with three hidden
 * layers of 512 units, first the fish-like cells are ablated and the
 * network retrained, then the fish-unlike cells. Each retrain goes into its
 * own folder. An existing fish-like folder skips the whole model, and an
 * existing fish-unlike folder skips the second retrain.
 */
module ZfRetrain {
  import opened Wrappers
  import RetrainSchedule
  import opened RetrainCommon

  const BASE_PATH: string := "./model_data/Adam_1e-4/sepInput_mixTrain/"
  const FISH_LIKE: seq<nat> := [1, 2, 3, 4, 5]
  const FISH_UNLIKE: seq<nat> := Complement(FISH_LIKE, N_CLUSTERS)

  const FISH_LIKE_DIR: string := "/fl_retrain"
  const FISH_UNLIKE_DIR: string := "/nfl_retrain"

  /** `fish_unlike` is `[0, 6, 7]`; with `fish_like` it splits the eight clusters. */
  lemma FishUnlikeValue()
    ensures FISH_UNLIKE == [0, 6, 7]
    ensures forall x: nat :: x < N_CLUSTERS ==> (x in FISH_LIKE) != (x in FISH_UNLIKE)
  {
    assert FISH_UNLIKE == [0, 6, 7] by {
      assert Complement(FISH_LIKE, 1) == [0];
      assert Complement(FISH_LIKE, 2) == [0];
      assert Complement(FISH_LIKE, 3) == [0];
      assert Complement(FISH_LIKE, 4) == [0];
      assert Complement(FISH_LIKE, 5) == [0];
      assert Complement(FISH_LIKE, 6) == [0];
      assert Complement(FISH_LIKE, 7) == [0, 6];
    }
    assert forall x: nat :: x < N_CLUSTERS ==> (x in FISH_LIKE) != (x in FISH_UNLIKE) by {
      ComplementPartition(FISH_LIKE, N_CLUSTERS);
    }
  }

  /** The two retrain folders of one model. */
  datatype ModelFolders = ModelFolders(fishLike: string, fishUnlike: string)

  /** The folders under `mpath(p)`. */
  function FoldersOf(p: string): ModelFolders {
    var modelPath := MPath(BASE_PATH, p);
    ModelFolders(modelPath + FISH_LIKE_DIR, modelPath + FISH_UNLIKE_DIR)
  }

  /** The folders of every model in `paths`, in order. */
  function AllFolders(paths: seq<string>): (fl: seq<ModelFolders>)
    ensures |fl| == |paths| && forall j :: 0 <= j < |paths| ==> fl[j] == FoldersOf(paths[j])
  {
    seq(|paths|, j requires 0 <= j < |paths| => FoldersOf(paths[j]))
  }

  /** The two folders of each model differ. */
  predicate Separate(fl: seq<ModelFolders>) {
    forall j :: 0 <= j < |fl| ==> fl[j].fishLike != fl[j].fishUnlike
  }

  lemma AllFoldersSeparate(paths: seq<string>)
    ensures Separate(AllFolders(paths))
  {
    forall j | 0 <= j < |paths| ensures AllFolders(paths)[j].fishLike != AllFolders(paths)[j].fishUnlike {
      var f := FoldersOf(paths[j]);
      assert |f.fishLike| != |f.fishUnlike|;
    }
  }

  /** The retrain of model `i` into `folder` with the given clusters ablated: `trainingData_1` first, no filter. */
  function Call(i: nat, folder: string, clusters: seq<nat>): RetrainCall {
    RetrainCall(i, folder, clusters, 0, 1, None)
  }

  /**
   * One pass of the driver loop for model `i` with folders `f`: nothing at
   * all when the fish-like folder exists; otherwise create it and retrain
   * with the fish-like cells ablated, then, unless the fish-unlike folder
   * exists, create it and retrain with the fish-unlike cells ablated.
   */
  function Iteration(i: nat, f: ModelFolders, fs: set<string>): Outcome {
    if f.fishLike in fs then Outcome([], fs)
    else
      var first := Outcome(MkdirThenRetrain(Call(i, f.fishLike, FISH_LIKE)), fs + {f.fishLike});
      if f.fishUnlike in first.fs then first
      else Outcome(first.log + MkdirThenRetrain(Call(i, f.fishUnlike, FISH_UNLIKE)), first.fs + {f.fishUnlike})
  }

  /** The driver loop from model `i` on. */
  function Driver(fl: seq<ModelFolders>, i: nat, fs: set<string>): Outcome
    decreases |fl| - i
  {
    if i >= |fl| then Outcome([], fs)
    else
      var now := Iteration(i, fl[i], fs);
      var rest := Driver(fl, i + 1, now.fs);
      Outcome(now.log + rest.log, rest.fs)
  }

  /** The whole script over the models in `paths`. */
  function Run(paths: seq<string>, fs: set<string>): Outcome {
    Driver(AllFolders(paths), 0, fs)
  }

  // ---------------------------------------------------------------------------
  // One iteration

  /** An iteration adds both folders of its model, or nothing when the fish-like folder exists. */
  lemma IterationFolders(i: nat, f: ModelFolders, fs: set<string>)
    ensures Iteration(i, f, fs).fs == if f.fishLike in fs then fs else fs + {f.fishLike, f.fishUnlike}
  {
  }

  /**
   * The retrains of an iteration: the fish-like one exactly when its folder
   * was missing, and the fish-unlike one only after it, when its own folder
   * was missing too.
   */
  lemma IterationCalls(i: nat, f: ModelFolders, fs: set<string>)
    requires f.fishLike != f.fishUnlike
    ensures Calls(Iteration(i, f, fs).log) ==
      if f.fishLike in fs then []
      else [Call(i, f.fishLike, FISH_LIKE)] + (if f.fishUnlike in fs then [] else [Call(i, f.fishUnlike, FISH_UNLIKE)])
  {
    if f.fishLike !in fs && f.fishUnlike !in fs {
      CallsAppend(MkdirThenRetrain(Call(i, f.fishLike, FISH_LIKE)), MkdirThenRetrain(Call(i, f.fishUnlike, FISH_UNLIKE)));
    }
  }

  /** An iteration creates exactly the folders it adds, each just before the retrain into it. */
  lemma IterationMade(i: nat, f: ModelFolders, fs: set<string>)
    ensures Made(Iteration(i, f, fs).log) == Iteration(i, f, fs).fs - fs
    ensures MkdirFirst(Iteration(i, f, fs).log)
  {
    if f.fishLike !in fs {
      var a := MkdirThenRetrain(Call(i, f.fishLike, FISH_LIKE));
      MkdirThenRetrainShape(Call(i, f.fishLike, FISH_LIKE));
      if f.fishUnlike !in fs + {f.fishLike} {
        var b := MkdirThenRetrain(Call(i, f.fishUnlike, FISH_UNLIKE));
        MkdirThenRetrainShape(Call(i, f.fishUnlike, FISH_UNLIKE));
        MadeAppend(a, b);
        MkdirFirstAppend(a, b);
      }
    } else {
      assert Made([]) == {};
    }
  }

  /** An iteration pairs each folder it creates with exactly one retrain into it. */
  lemma IterationOnce(i: nat, f: ModelFolders, fs: set<string>)
    ensures OncePerFolder(Iteration(i, f, fs).log)
  {
    if f.fishLike in fs {
      OnceEmpty();
    } else {
      var a := MkdirThenRetrain(Call(i, f.fishLike, FISH_LIKE));
      MkdirThenRetrainOnce(Call(i, f.fishLike, FISH_LIKE));
      if f.fishUnlike !in fs + {f.fishLike} {
        OnceThen(a, Call(i, f.fishUnlike, FISH_UNLIKE), fs, fs + {f.fishLike});
      }
    }
  }

  /**
   * A retrain the loop may start: for a listed model whose fish-like folder
   * was missing at the start, into a folder missing at the start, with
   * `trainingData_1` first, no filter, and the fish-like cells ablated in
   * the fish-like folder and the fish-unlike cells in the other.
   */
  predicate Expected(fl: seq<ModelFolders>, c: RetrainCall, fs: set<string>) {
    c.model < |fl| && c.folder !in fs && fl[c.model].fishLike !in fs &&
    c.first == 0 && c.second == 1 && c.filter == None &&
    ((c.folder == fl[c.model].fishLike && c.clusters == FISH_LIKE) ||
     (c.folder == fl[c.model].fishUnlike && c.clusters == FISH_UNLIKE))
  }

  lemma IterationExpected(fl: seq<ModelFolders>, i: nat, fs: set<string>)
    requires i < |fl| && fl[i].fishLike != fl[i].fishUnlike
    ensures forall k :: 0 <= k < |Calls(Iteration(i, fl[i], fs).log)| ==> Expected(fl, Calls(Iteration(i, fl[i], fs).log)[k], fs)
  {
    var f := fl[i];
    var cs := Calls(Iteration(i, f, fs).log);
    var c1, c2 := Call(i, f.fishLike, FISH_LIKE), Call(i, f.fishUnlike, FISH_UNLIKE);
    IterationCalls(i, f, fs);
    if f.fishLike in fs {
      assert cs == [];
    } else if f.fishUnlike in fs {
      assert cs == [c1] && Expected(fl, c1, fs);
    } else {
      assert cs == [c1, c2] && Expected(fl, c1, fs) && Expected(fl, c2, fs);
    }
  }

  // ---------------------------------------------------------------------------
  // The whole loop

  /** Both folders of every model from `i` on. */
  function FoldersFrom(fl: seq<ModelFolders>, i: nat): set<string>
    decreases |fl| - i
  {
    if i >= |fl| then {} else {fl[i].fishLike, fl[i].fishUnlike} + FoldersFrom(fl, i + 1)
  }

  /** The fish-like folders of every model from `i` on. */
  function FishLikeFrom(fl: seq<ModelFolders>, i: nat): set<string>
    decreases |fl| - i
  {
    if i >= |fl| then {} else {fl[i].fishLike} + FishLikeFrom(fl, i + 1)
  }

  lemma {:induction false} FishLikeFromHas(fl: seq<ModelFolders>, i: nat, j: nat)
    requires i <= j < |fl|
    ensures fl[j].fishLike in FishLikeFrom(fl, i)
    decreases j - i
  {
    if i < j {
      FishLikeFromHas(fl, i + 1, j);
    }
  }

  lemma {:induction false} FoldersFromElement(fl: seq<ModelFolders>, i: nat, x: string)
    requires x in FoldersFrom(fl, i)
    ensures exists j :: i <= j < |fl| && (x == fl[j].fishLike || x == fl[j].fishUnlike)
    decreases |fl| - i
  {
    if x != fl[i].fishLike && x != fl[i].fishUnlike {
      FoldersFromElement(fl, i + 1, x);
    }
  }

  /** The first iteration of the loop from `i`, and the loop after it. */
  lemma DriverUnfold(fl: seq<ModelFolders>, i: nat, fs: set<string>)
    requires i < |fl|
    ensures var now := Iteration(i, fl[i], fs);
      var rest := Driver(fl, i + 1, now.fs);
      Driver(fl, i, fs) == Outcome(now.log + rest.log, rest.fs)
  {
  }

  /**
   * The loop only adds folders, only folders of the models from `i` on, and
   * leaves the fish-like folder of each of those models in place.
   */
  lemma {:induction false} DriverFolders(fl: seq<ModelFolders>, i: nat, fs: set<string>)
    ensures fs <= Driver(fl, i, fs).fs <= fs + FoldersFrom(fl, i)
    ensures FishLikeFrom(fl, i) <= Driver(fl, i, fs).fs
    decreases |fl| - i
  {
    if i < |fl| {
      var now := Iteration(i, fl[i], fs);
      IterationFolders(i, fl[i], fs);
      DriverFolders(fl, i + 1, now.fs);
      DriverUnfold(fl, i, fs);
    }
  }

  /** The loop creates exactly the folders it adds. */
  lemma {:induction false} DriverMade(fl: seq<ModelFolders>, i: nat, fs: set<string>)
    ensures Made(Driver(fl, i, fs).log) == Driver(fl, i, fs).fs - fs
    decreases |fl| - i
  {
    if i < |fl| {
      var now := Iteration(i, fl[i], fs);
      var rest := Driver(fl, i + 1, now.fs);
      IterationMade(i, fl[i], fs);
      IterationFolders(i, fl[i], fs);
      DriverMade(fl, i + 1, now.fs);
      DriverFolders(fl, i + 1, now.fs);
      DriverUnfold(fl, i, fs);
      MadeJoin(now.log, rest.log, fs, now.fs, rest.fs);
    }
  }

  /** The loop pairs each folder it creates with exactly one retrain into it. */
  lemma {:induction false} DriverOnce(fl: seq<ModelFolders>, i: nat, fs: set<string>)
    ensures OncePerFolder(Driver(fl, i, fs).log)
    decreases |fl| - i
  {
    if i < |fl| {
      var now := Iteration(i, fl[i], fs);
      var rest := Driver(fl, i + 1, now.fs);
      assert OncePerFolder(now.log + rest.log) by {
        assert OncePerFolder(now.log) && fs <= now.fs && Made(now.log) == now.fs - fs by {
          IterationOnce(i, fl[i], fs);
          IterationMade(i, fl[i], fs);
          IterationFolders(i, fl[i], fs);
        }
        assert OncePerFolder(rest.log) && now.fs <= rest.fs && Made(rest.log) == rest.fs - now.fs by {
          DriverOnce(fl, i + 1, now.fs);
          DriverMade(fl, i + 1, now.fs);
          DriverFolders(fl, i + 1, now.fs);
        }
        OnceJoin(now.log, rest.log, fs, now.fs, rest.fs);
      }
      assert Driver(fl, i, fs).log == now.log + rest.log by {
        DriverUnfold(fl, i, fs);
      }
    } else {
      OnceEmpty();
    }
  }

  /** Every retrain of the loop directly follows the creation of its folder. */
  lemma {:induction false} DriverMkdirFirst(fl: seq<ModelFolders>, i: nat, fs: set<string>)
    ensures MkdirFirst(Driver(fl, i, fs).log)
    decreases |fl| - i
  {
    if i < |fl| {
      var now := Iteration(i, fl[i], fs);
      IterationMade(i, fl[i], fs);
      DriverMkdirFirst(fl, i + 1, now.fs);
      DriverUnfold(fl, i, fs);
      MkdirFirstAppend(now.log, Driver(fl, i + 1, now.fs).log);
    }
  }

  /** A retrain expected against a larger folder set is expected against a smaller one. */
  lemma ExpectedWeaken(fl: seq<ModelFolders>, c: RetrainCall, fs: set<string>, more: set<string>)
    requires fs <= more && Expected(fl, c, more)
    ensures Expected(fl, c, fs)
  {
  }

  /** Calls expected against `fs`, then calls expected against a larger set, are all expected against `fs`. */
  lemma ExpectedJoin(fl: seq<ModelFolders>, a: seq<RetrainCall>, b: seq<RetrainCall>, fs: set<string>, more: set<string>)
    requires fs <= more
    requires forall k :: 0 <= k < |a| ==> Expected(fl, a[k], fs)
    requires forall k :: 0 <= k < |b| ==> Expected(fl, b[k], more)
    ensures forall k :: 0 <= k < |a + b| ==> Expected(fl, (a + b)[k], fs)
  {
    forall k | 0 <= k < |a + b| ensures Expected(fl, (a + b)[k], fs) {
      if k < |a| {
        assert (a + b)[k] == a[k];
      } else {
        assert (a + b)[k] == b[k - |a|];
        ExpectedWeaken(fl, b[k - |a|], fs, more);
      }
    }
  }

  /** Every retrain of the loop is one the script may start, judged against the folders at the start. */
  lemma {:induction false} DriverCalls(fl: seq<ModelFolders>, i: nat, fs: set<string>)
    requires Separate(fl)
    ensures forall k :: 0 <= k < |Calls(Driver(fl, i, fs).log)| ==> Expected(fl, Calls(Driver(fl, i, fs).log)[k], fs)
    decreases |fl| - i
  {
    if i < |fl| {
      var now := Iteration(i, fl[i], fs);
      IterationExpected(fl, i, fs);
      IterationFolders(i, fl[i], fs);
      DriverCalls(fl, i + 1, now.fs);
      DriverUnfold(fl, i, fs);
      var rest := Driver(fl, i + 1, now.fs);
      CallsAppend(now.log, rest.log);
      ExpectedJoin(fl, Calls(now.log), Calls(rest.log), fs, now.fs);
    }
  }

  /**
   * When every fish-like folder of the models from `i` on exists, the loop
   * does nothing: no retrain, and a missing fish-unlike folder stays missing.
   */
  lemma {:induction false} DriverIdle(fl: seq<ModelFolders>, i: nat, fs: set<string>)
    requires FishLikeFrom(fl, i) <= fs
    ensures Driver(fl, i, fs) == Outcome([], fs)
    decreases |fl| - i
  {
    if i < |fl| {
      DriverIdle(fl, i + 1, fs);
    }
  }

  // ---------------------------------------------------------------------------
  // The script

  /**
   * After the script every model's fish-like folder exists, nothing was
   * removed, and every new folder is a retrain folder of some model.
   */
  lemma RunFolders(paths: seq<string>, fs: set<string>)
    ensures forall j :: 0 <= j < |paths| ==> FoldersOf(paths[j]).fishLike in Run(paths, fs).fs
    ensures fs <= Run(paths, fs).fs
    ensures forall x :: x in Run(paths, fs).fs ==>
              x in fs || exists j :: 0 <= j < |paths| && (x == FoldersOf(paths[j]).fishLike || x == FoldersOf(paths[j]).fishUnlike)
  {
    var fl := AllFolders(paths);
    DriverFolders(fl, 0, fs);
    forall j | 0 <= j < |paths| ensures fl[j].fishLike in FishLikeFrom(fl, 0) {
      FishLikeFromHas(fl, 0, j);
    }
    forall x | x in FoldersFrom(fl, 0)
      ensures exists j :: 0 <= j < |paths| && (x == fl[j].fishLike || x == fl[j].fishUnlike)
    {
      FoldersFromElement(fl, 0, x);
    }
  }

  /**
   * The script creates exactly the folders it adds, and every retrain saves
   * into a folder it has just created and is one the script may start;
   * each created folder gets exactly one retrain.
   */
  lemma RunLog(paths: seq<string>, fs: set<string>)
    ensures Made(Run(paths, fs).log) == Run(paths, fs).fs - fs
    ensures MkdirFirst(Run(paths, fs).log)
    ensures forall k :: 0 <= k < |Calls(Run(paths, fs).log)| ==> Expected(AllFolders(paths), Calls(Run(paths, fs).log)[k], fs)
    ensures OncePerFolder(Run(paths, fs).log)
    ensures RetrainAfterMkdir(Run(paths, fs).log) && DistinctFolders(Calls(Run(paths, fs).log))
  {
    AllFoldersSeparate(paths);
    DriverMade(AllFolders(paths), 0, fs);
    DriverMkdirFirst(AllFolders(paths), 0, fs);
    DriverCalls(AllFolders(paths), 0, fs);
    DriverOnce(AllFolders(paths), 0, fs);
    OnceMeaning(Run(paths, fs).log);
  }

  /** With every model's fish-like folder present the script does nothing. */
  lemma RunIdle(paths: seq<string>, fs: set<string>)
    requires forall j :: 0 <= j < |paths| ==> FoldersOf(paths[j]).fishLike in fs
    ensures Run(paths, fs) == Outcome([], fs)
  {
    var fl := AllFolders(paths);
    forall x | x in FishLikeFrom(fl, 0) ensures x in fs {
      FishLikeFromElement(fl, 0, x);
    }
    DriverIdle(fl, 0, fs);
  }

  lemma {:induction false} FishLikeFromElement(fl: seq<ModelFolders>, i: nat, x: string)
    requires x in FishLikeFrom(fl, i)
    ensures exists j :: i <= j < |fl| && x == fl[j].fishLike
    decreases |fl| - i
  {
    if x != fl[i].fishLike {
      FishLikeFromElement(fl, i + 1, x);
    }
  }

  /** Running the script a second time retrains nothing and creates nothing. */
  lemma SecondRunIdle(paths: seq<string>, fs: set<string>)
    ensures var once := Run(paths, fs);
      Run(paths, once.fs) == Outcome([], once.fs)
  {
    var once := Run(paths, fs);
    DriverFolders(AllFolders(paths), 0, fs);
    DriverIdle(AllFolders(paths), 0, once.fs);
  }

  // ---------------------------------------------------------------------------
  // The driver itself

  /** The loop after iteration `i`, when `done` is what the iterations before it logged. */
  lemma DriverStep(fl: seq<ModelFolders>, i: nat, fs: set<string>, done: seq<Action>, whole: Outcome)
    requires i < |fl|
    requires done + Driver(fl, i, fs).log == whole.log
    requires Driver(fl, i, fs).fs == whole.fs
    ensures var now := Iteration(i, fl[i], fs);
      (done + now.log) + Driver(fl, i + 1, now.fs).log == whole.log &&
      Driver(fl, i + 1, now.fs).fs == whole.fs
  {
    DriverUnfold(fl, i, fs);
  }

  /**
   * The body of the `__main__` loop for model `i` with entry `p`. Where the
   * script says `continue` this returns, which ends the iteration just the same.
   */
  method RetrainModel(i: nat, p: string, size0: nat, size1: nat, fs: FileSystem,
                      dropList: (nat, seq<nat>) -> RetrainSchedule.DropList, rankErrorAt: string -> nat -> real,
                      log: seq<Action>, traces: seq<seq<RetrainSchedule.Event>>)
    returns (log': seq<Action>, traces': seq<seq<RetrainSchedule.Event>>)
    requires TracesMatch(log, traces, size0, size1, dropList)
    modifies fs
    ensures log' == log + Iteration(i, FoldersOf(p), old(fs.paths)).log
    ensures fs.paths == Iteration(i, FoldersOf(p), old(fs.paths)).fs
    ensures TracesMatch(log', traces', size0, size1, dropList)
  {
    ghost var f := FoldersOf(p);
    ghost var now := Iteration(i, f, fs.paths);
    log', traces' := log, traces;

    var modelPath := MPath(BASE_PATH, p);
    var folder := modelPath + FISH_LIKE_DIR;
    if fs.Exists(folder) {
      assert log' == log + [];
      return;
    }
    var flc := Call(i, folder, FISH_LIKE);
    log', traces' := RetrainInto(fs, flc, size0, size1, dropList, rankErrorAt, log', traces');
    folder := modelPath + FISH_UNLIKE_DIR;
    if fs.Exists(folder) {
      return;
    }
    var nflc := Call(i, folder, FISH_UNLIKE);
    assert now.log == MkdirThenRetrain(flc) + MkdirThenRetrain(nflc);
    log', traces' := RetrainInto(fs, nflc, size0, size1, dropList, rankErrorAt, log', traces');
  }

  /**
   * The `__main__` loop over `paths`. `size0` and `size1` are the sizes of
   * `trainingData_1` and `trainingData_2`, and `rankErrorAt(folder)` gives the
   * test errors of the retrain saving into `folder`. The traces of the
   * retrains are returned in call order.
   */
  method RetrainAll(paths: seq<string>, size0: nat, size1: nat, fs: FileSystem,
                    dropList: (nat, seq<nat>) -> RetrainSchedule.DropList, rankErrorAt: string -> nat -> real)
    returns (log: seq<Action>, traces: seq<seq<RetrainSchedule.Event>>)
    modifies fs
    ensures Run(paths, old(fs.paths)) == Outcome(log, fs.paths)
    ensures TracesMatch(log, traces, size0, size1, dropList)
  {
    ghost var fl := AllFolders(paths);
    ghost var whole := Run(paths, fs.paths);
    log, traces := [], [];
    for i := 0 to |paths|
      invariant log + Driver(fl, i, fs.paths).log == whole.log
      invariant Driver(fl, i, fs.paths).fs == whole.fs
      invariant TracesMatch(log, traces, size0, size1, dropList)
    {
      DriverStep(fl, i, fs.paths, log, whole);
      log, traces := RetrainModel(i, paths[i], size0, size1, fs, dropList, rankErrorAt, log, traces);
    }
  }
}
