/**
 * What the two retraining scripts share besides `retrain` itself: the model
 * folders found under a base path, the complement cluster lists, the folder
 * set the drivers test and extend, and the log of what a driver does.
 */
module RetrainCommon {
  import opened Wrappers
  import Text
  import RetrainSchedule

  /** Only networks with three hidden layers of 512 units are retrained. */
  const MODEL_TAG: string := "_3m512_"

  /** The cluster indices are `range(8)`. */
  const N_CLUSTERS: nat := 8

  // ---------------------------------------------------------------------------
  // Model folders

  /** `mpath`: the base path, then the folder name without its trailing slash (`path[:-1]`). */
  function MPath(base: string, path: string): string {
    if |path| == 0 then base else base + path[..|path| - 1]
  }

  /** A listing entry `f`, stored as `f + '/'`, maps back to `base + f`. */
  lemma MPathOfEntry(base: string, f: string)
    ensures MPath(base, f + "/") == base + f
  {
    assert (f + "/")[..|f|] == f;
  }

  /** Two entries that end in '/' have the same model path only when they are equal. */
  lemma MPathInjective(base: string, p: string, q: string)
    requires |p| > 0 && p[|p| - 1] == '/' && |q| > 0 && q[|q| - 1] == '/'
    ensures MPath(base, p) == MPath(base, q) <==> p == q
  {
    if MPath(base, p) == MPath(base, q) {
      var f, g := p[..|p| - 1], q[..|q| - 1];
      assert p == f + "/" && q == g + "/";
      Text.SamePrefix(base, f, g);
    }
  }

  /** `paths_512`: the listing entries that contain `MODEL_TAG`, each followed by '/', in listing order. */
  function Paths512(listing: seq<string>): seq<string>
    decreases |listing|
  {
    if |listing| == 0 then []
    else
      var f := listing[|listing| - 1];
      Paths512(listing[..|listing| - 1]) + (if Text.Contains(f, MODEL_TAG) then [f + "/"] else [])
  }

  /** Every entry holds `MODEL_TAG` and ends in '/'. */
  lemma {:induction false} Paths512Entries(listing: seq<string>)
    ensures forall p :: p in Paths512(listing) ==>
              Text.Contains(p, MODEL_TAG) && |p| > 0 && p[|p| - 1] == '/'
    decreases |listing|
  {
    if |listing| > 0 {
      var init, f := listing[..|listing| - 1], listing[|listing| - 1];
      Paths512Entries(init);
      if Text.Contains(f, MODEL_TAG) {
        Text.ContainsExtend(f, "/", MODEL_TAG);
      }
    }
  }

  /** The entries are exactly the tagged listing names, each followed by '/'. */
  lemma {:induction false} Paths512Members(listing: seq<string>)
    ensures forall p :: p in Paths512(listing) <==>
              exists f :: f in listing && Text.Contains(f, MODEL_TAG) && p == f + "/"
    decreases |listing|
  {
    if |listing| > 0 {
      var init, f := listing[..|listing| - 1], listing[|listing| - 1];
      Paths512Members(init);
      assert listing == init + [f];
      forall p | p in Paths512(listing)
        ensures exists g :: g in listing && Text.Contains(g, MODEL_TAG) && p == g + "/"
      {
        if p !in Paths512(init) {
          assert f in listing && p == f + "/";
        }
      }
      forall g | g in listing && Text.Contains(g, MODEL_TAG)
        ensures g + "/" in Paths512(listing)
      {
        if g != f {
          assert g in init;
        }
      }
    }
  }

  // ---------------------------------------------------------------------------
  // Complement cluster lists

  /** `[elem for elem in range(n) if elem not in like]`. */
  function Complement(like: seq<nat>, n: nat): seq<nat>
    decreases n
  {
    if n == 0 then [] else Complement(like, n - 1) + (if n - 1 in like then [] else [n - 1])
  }

  /** The complement holds exactly the indices below `n` missing from `like`, strictly ascending. */
  lemma {:induction false} ComplementShape(like: seq<nat>, n: nat)
    ensures forall x: nat :: x in Complement(like, n) <==> x < n && x !in like
    ensures forall a, b :: 0 <= a < b < |Complement(like, n)| ==> Complement(like, n)[a] < Complement(like, n)[b]
    decreases n
  {
    if n > 0 {
      ComplementShape(like, n - 1);
      var c := Complement(like, n - 1);
      if n - 1 !in like {
        var c' := c + [n - 1];
        forall a, b | 0 <= a < b < |c'| ensures c'[a] < c'[b] {
          if b == |c| {
            assert c'[a] == c[a] && c[a] in c;
          } else {
            assert c'[a] == c[a] && c'[b] == c[b];
          }
        }
      }
    }
  }

  /** A cluster list and its complement split `0 .. n-1` between them. */
  lemma ComplementPartition(like: seq<nat>, n: nat)
    ensures forall x: nat :: x < n ==> (x in like) != (x in Complement(like, n))
    ensures forall x: nat :: x in Complement(like, n) ==> x < n
  {
    ComplementShape(like, n);
  }

  // ---------------------------------------------------------------------------
  // The folder set

  /** The directories that exist, as far as the drivers can tell. */
  class FileSystem {
    var paths: set<string>

    constructor(paths: set<string>)
      ensures this.paths == paths
    {
      this.paths := paths;
    }

    /** `os.path.exists`. */
    predicate Exists(p: string)
      reads this
    {
      p in paths
    }

    /** `os.mkdir`: raises when the path exists already, otherwise creates it. */
    method Mkdir(p: string) returns (r: Result<(), string>)
      modifies this
      ensures r.Err? <==> p in old(paths)
      ensures paths == old(paths) + {p}
    {
      if p in paths {
        return Err("FileExistsError");
      }
      paths := paths + {p};
      r := Ok(());
    }
  }

  // ---------------------------------------------------------------------------
  // What a driver does

  /**
   * One `retrain` call: the model's index in `paths_512`, the folder it saves
   * into, the clusters whose units are ablated, the order of the two training
   * sets, and the variable-name filter of the training function (if any).
   */
  datatype RetrainCall = RetrainCall(model: nat, folder: string, clusters: seq<nat>, first: nat, second: nat, filter: Option<string>)

  /** Something a driver does to the outside world. */
  datatype Action = Mkdir(path: string) | Retrain(call: RetrainCall)

  /** `train_list[k].data_size` for the two training sets. */
  function DataSize(size0: nat, size1: nat, k: nat): nat {
    if k == 0 then size0 else size1
  }

  /**
   * The trace of the retrain a call starts, when `dropList(i, clusters)` is
   * the drop list `create_det_drop_list` builds for model `i`.
   */
  function CallTrace(c: RetrainCall, size0: nat, size1: nat, dropList: (nat, seq<nat>) -> RetrainSchedule.DropList): seq<RetrainSchedule.Event> {
    RetrainSchedule.Schedule(
      RetrainSchedule.EpochSize(DataSize(size0, size1, c.first)),
      RetrainSchedule.EpochSize(DataSize(size0, size1, c.second)),
      c.first, c.second, dropList(c.model, c.clusters), c.filter)
  }

  /** The retrain calls of a log, in order. */
  function Calls(log: seq<Action>): seq<RetrainCall>
    decreases |log|
  {
    if |log| == 0 then []
    else Calls(log[..|log| - 1]) + (if log[|log| - 1].Retrain? then [log[|log| - 1].call] else [])
  }

  /** The directories a log creates. */
  function Made(log: seq<Action>): set<string>
    decreases |log|
  {
    if |log| == 0 then {}
    else Made(log[..|log| - 1]) + (if log[|log| - 1].Mkdir? then {log[|log| - 1].path} else {})
  }

  lemma {:induction false} CallsAppend(a: seq<Action>, b: seq<Action>)
    ensures Calls(a + b) == Calls(a) + Calls(b)
    decreases |b|
  {
    if |b| > 0 {
      var b' := b[..|b| - 1];
      assert (a + b)[..|a + b| - 1] == a + b';
      CallsAppend(a, b');
    } else {
      assert a + b == a;
    }
  }

  lemma {:induction false} MadeAppend(a: seq<Action>, b: seq<Action>)
    ensures Made(a + b) == Made(a) + Made(b)
    decreases |b|
  {
    if |b| > 0 {
      var b' := b[..|b| - 1];
      assert (a + b)[..|a + b| - 1] == a + b';
      MadeAppend(a, b');
    } else {
      assert a + b == a;
    }
  }

  /** Two stretches of log that each create exactly the folders they add, one after the other. */
  lemma MadeJoin(a: seq<Action>, b: seq<Action>, fs: set<string>, mid: set<string>, end: set<string>)
    requires fs <= mid <= end
    requires Made(a) == mid - fs && Made(b) == end - mid
    ensures Made(a + b) == end - fs
  {
    MadeAppend(a, b);
  }

  /** What one action contributes to each view of the log. */
  lemma ActionViews(x: Action)
    ensures Calls([x]) == (if x.Retrain? then [x.call] else [])
    ensures Made([x]) == (if x.Mkdir? then {x.path} else {})
  {
    assert [x][..0] == [];
  }

  /** Every retrain is directly preceded by the creation of the folder it saves into. */
  predicate MkdirFirst(log: seq<Action>) {
    forall k :: 0 <= k < |log| && log[k].Retrain? ==> k > 0 && log[k - 1] == Mkdir(log[k].call.folder)
  }

  lemma MkdirFirstAppend(a: seq<Action>, b: seq<Action>)
    requires MkdirFirst(a) && MkdirFirst(b)
    ensures MkdirFirst(a + b)
  {
    forall k | 0 <= k < |a + b| && (a + b)[k].Retrain?
      ensures k > 0 && (a + b)[k - 1] == Mkdir((a + b)[k].call.folder)
    {
      if k < |a| {
        assert (a + b)[k] == a[k] && (a + b)[k - 1] == a[k - 1];
      } else {
        assert (a + b)[k] == b[k - |a|];
        assert (a + b)[k - 1] == b[k - |a| - 1];
      }
    }
  }

  /** Every mkdir is directly followed by a retrain into the directory it created. */
  predicate RetrainAfterMkdir(log: seq<Action>) {
    forall k :: 0 <= k < |log| && log[k].Mkdir? ==>
      k + 1 < |log| && log[k + 1].Retrain? && log[k + 1].call.folder == log[k].path
  }

  lemma RetrainAfterMkdirAppend(a: seq<Action>, b: seq<Action>)
    requires RetrainAfterMkdir(a) && RetrainAfterMkdir(b)
    ensures RetrainAfterMkdir(a + b)
  {
    forall k | 0 <= k < |a + b| && (a + b)[k].Mkdir?
      ensures k + 1 < |a + b| && (a + b)[k + 1].Retrain? && (a + b)[k + 1].call.folder == (a + b)[k].path
    {
      if k < |a| {
        assert (a + b)[k] == a[k] && (a + b)[k + 1] == a[k + 1];
      } else {
        assert (a + b)[k] == b[k - |a|] && (a + b)[k + 1] == b[k - |a| + 1];
      }
    }
  }

  /** The folders a sequence of retrain calls saves into. */
  function Folders(cs: seq<RetrainCall>): set<string>
    decreases |cs|
  {
    if |cs| == 0 then {} else Folders(cs[..|cs| - 1]) + {cs[|cs| - 1].folder}
  }

  lemma {:induction false} FoldersAppend(a: seq<RetrainCall>, b: seq<RetrainCall>)
    ensures Folders(a + b) == Folders(a) + Folders(b)
    decreases |b|
  {
    if |b| > 0 {
      var b' := b[..|b| - 1];
      assert (a + b)[..|a + b| - 1] == a + b';
      FoldersAppend(a, b');
    } else {
      assert a + b == a;
    }
  }

  /** The folder of every call is among the folders of the calls. */
  lemma {:induction false} FoldersHas(cs: seq<RetrainCall>, k: nat)
    requires k < |cs|
    ensures cs[k].folder in Folders(cs)
    decreases |cs|
  {
    if k < |cs| - 1 {
      FoldersHas(cs[..|cs| - 1], k);
    }
  }

  /** No two retrains save into the same folder. */
  predicate DistinctFolders(cs: seq<RetrainCall>) {
    forall a, b :: 0 <= a < b < |cs| ==> cs[a].folder != cs[b].folder
  }

  /** Each call saves into a folder none of the calls before it used. */
  predicate Distinct(cs: seq<RetrainCall>)
    decreases |cs|
  {
    |cs| == 0 || (cs[|cs| - 1].folder !in Folders(cs[..|cs| - 1]) && Distinct(cs[..|cs| - 1]))
  }

  lemma {:induction false} DistinctAppend(a: seq<RetrainCall>, b: seq<RetrainCall>)
    requires Distinct(a) && Distinct(b) && Folders(a) !! Folders(b)
    ensures Distinct(a + b)
    decreases |b|
  {
    if |b| > 0 {
      var b' := b[..|b| - 1];
      assert (a + b)[..|a + b| - 1] == a + b';
      assert (a + b)[|a + b| - 1] == b[|b| - 1];
      FoldersAppend(a, b');
      DistinctAppend(a, b');
    } else {
      assert a + b == a;
    }
  }

  lemma {:induction false} DistinctMeaning(cs: seq<RetrainCall>)
    requires Distinct(cs)
    ensures DistinctFolders(cs)
    decreases |cs|
  {
    if |cs| > 0 {
      var init := cs[..|cs| - 1];
      DistinctMeaning(init);
      forall a, b | 0 <= a < b < |cs| ensures cs[a].folder != cs[b].folder {
        if b < |cs| - 1 {
          assert cs[a] == init[a] && cs[b] == init[b];
        } else {
          FoldersHas(init, a);
        }
      }
    }
  }

  /** The log of creating `folder` and retraining into it. */
  function MkdirThenRetrain(c: RetrainCall): (log: seq<Action>)
    ensures Calls(log) == [c] && Made(log) == {c.folder}
  {
    var log := [Mkdir(c.folder), Retrain(c)];
    assert log == [Mkdir(c.folder)] + [Retrain(c)];
    CallsAppend([Mkdir(c.folder)], [Retrain(c)]);
    MadeAppend([Mkdir(c.folder)], [Retrain(c)]);
    ActionViews(Mkdir(c.folder));
    ActionViews(Retrain(c));
    log
  }

  /** The creation comes straight before the retrain into it. */
  lemma MkdirThenRetrainShape(c: RetrainCall)
    ensures MkdirFirst(MkdirThenRetrain(c)) && RetrainAfterMkdir(MkdirThenRetrain(c))
  {
  }

  /** The log is a run of mkdir-then-retrain pairs, each retrain saving into the folder created just before it. */
  predicate Paired(log: seq<Action>)
    decreases |log|
  {
    |log| == 0 ||
    (|log| >= 2 && log[|log| - 1].Retrain? && log[|log| - 2] == Mkdir(log[|log| - 1].call.folder) &&
     Paired(log[..|log| - 2]))
  }

  lemma {:induction false} PairedAppend(a: seq<Action>, b: seq<Action>)
    requires Paired(a) && Paired(b)
    ensures Paired(a + b)
    decreases |b|
  {
    if |b| > 0 {
      var b' := b[..|b| - 2];
      assert (a + b)[..|a + b| - 2] == a + b';
      assert (a + b)[|a + b| - 1] == b[|b| - 1] && (a + b)[|a + b| - 2] == b[|b| - 2];
      PairedAppend(a, b');
    } else {
      assert a + b == a;
    }
  }

  /** A paired log pairs each creation with the retrain after it, and retrains into exactly the folders it creates. */
  lemma {:induction false} PairedMeaning(log: seq<Action>)
    requires Paired(log)
    ensures MkdirFirst(log) && RetrainAfterMkdir(log)
    ensures Folders(Calls(log)) == Made(log)
    decreases |log|
  {
    if |log| > 0 {
      var init, c := log[..|log| - 2], log[|log| - 1].call;
      var pair := MkdirThenRetrain(c);
      assert log == init + pair;
      PairedMeaning(init);
      assert MkdirFirst(init + pair) && RetrainAfterMkdir(init + pair) by {
        MkdirThenRetrainShape(c);
        MkdirFirstAppend(init, pair);
        RetrainAfterMkdirAppend(init, pair);
      }
      assert Folders(Calls(init + pair)) == Made(init + pair) by {
        CallsAppend(init, pair);
        MadeAppend(init, pair);
        FoldersAppend(Calls(init), [c]);
        assert [c][..0] == [];
      }
    } else {
      assert Calls(log) == [] && Made(log) == {};
    }
  }

  /**
   * Creations and retrains come in pairs: the log is a run of
   * mkdir-then-retrain pairs, and no two retrains share a folder.
   */
  predicate OncePerFolder(log: seq<Action>) {
    Paired(log) && Distinct(Calls(log))
  }

  /**
   * What pairing means: each created folder gets exactly one retrain,
   * straight after its creation, and each retrain saves into a folder
   * created just before it.
   */
  lemma OnceMeaning(log: seq<Action>)
    requires OncePerFolder(log)
    ensures MkdirFirst(log) && RetrainAfterMkdir(log)
    ensures DistinctFolders(Calls(log)) && Folders(Calls(log)) == Made(log)
  {
    PairedMeaning(log);
    DistinctMeaning(Calls(log));
  }

  lemma OnceEmpty()
    ensures OncePerFolder([])
  {
    assert Calls([]) == [];
  }

  /**
   * Two stretches of log that each pair creations with retrains, and that
   * create the folders they add to successive folder sets, pair them together.
   */
  lemma OnceJoin(a: seq<Action>, b: seq<Action>, fs: set<string>, mid: set<string>, end: set<string>)
    requires OncePerFolder(a) && OncePerFolder(b)
    requires fs <= mid <= end
    requires Made(a) == mid - fs && Made(b) == end - mid
    ensures OncePerFolder(a + b)
  {
    PairedAppend(a, b);
    CallsAppend(a, b);
    PairedMeaning(a);
    PairedMeaning(b);
    DistinctAppend(Calls(a), Calls(b));
  }

  /** Creating one more folder, missing so far, and retraining into it keeps creations and retrains paired. */
  lemma OnceThen(a: seq<Action>, c: RetrainCall, fs: set<string>, mid: set<string>)
    requires OncePerFolder(a) && fs <= mid && Made(a) == mid - fs && c.folder !in mid
    ensures OncePerFolder(a + MkdirThenRetrain(c))
  {
    MkdirThenRetrainOnce(c);
    OnceJoin(a, MkdirThenRetrain(c), fs, mid, mid + {c.folder});
  }

  /** Creating a folder and retraining into it pairs the two. */
  lemma MkdirThenRetrainOnce(c: RetrainCall)
    ensures OncePerFolder(MkdirThenRetrain(c))
  {
    assert MkdirThenRetrain(c)[..0] == [];
    assert [c][..0] == [] && Folders([]) == {};
  }

  /** Each trace belongs to the retrain call at the same position of the log. */
  predicate TracesMatch(log: seq<Action>, traces: seq<seq<RetrainSchedule.Event>>,
                        size0: nat, size1: nat, dropList: (nat, seq<nat>) -> RetrainSchedule.DropList) {
    |traces| == |Calls(log)| &&
    forall k :: 0 <= k < |traces| ==> traces[k] == CallTrace(Calls(log)[k], size0, size1, dropList)
  }

  /**
   * `os.mkdir(folder)` followed by `retrain(...)` into it, for a folder the
   * driver has just found missing: the folder now exists, the two actions
   * are logged and the retrain's trace is kept beside its call.
   */
  method RetrainInto(fs: FileSystem, c: RetrainCall, size0: nat, size1: nat,
                     dropList: (nat, seq<nat>) -> RetrainSchedule.DropList, rankErrorAt: string -> nat -> real,
                     log: seq<Action>, traces: seq<seq<RetrainSchedule.Event>>)
    returns (log': seq<Action>, traces': seq<seq<RetrainSchedule.Event>>)
    requires c.folder !in fs.paths
    requires TracesMatch(log, traces, size0, size1, dropList)
    modifies fs
    ensures fs.paths == old(fs.paths) + {c.folder}
    ensures log' == log + MkdirThenRetrain(c)
    ensures traces' == traces + [CallTrace(c, size0, size1, dropList)]
    ensures TracesMatch(log', traces', size0, size1, dropList)
  {
    var _ := fs.Mkdir(c.folder);
    var run := RetrainSchedule.Retrain(DataSize(size0, size1, c.first), DataSize(size0, size1, c.second),
                                       c.first, c.second, dropList(c.model, c.clusters), c.filter, rankErrorAt(c.folder));
    log' := log + [Mkdir(c.folder), Retrain(c)];
    traces' := traces + [run.trace];
    CallsAppend(log, MkdirThenRetrain(c));
  }

  /** What a driver has done so far, and the folder set it leaves. */
  datatype Outcome = Outcome(log: seq<Action>, fs: set<string>)
}
