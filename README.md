# Gradient-navigation network: retraining and bookkeeping core

This project models the deterministic logic underneath a set of TensorFlow
scripts. The scripts train and retrain convolutional networks that predict
the temperature change of four swim behaviours: stay, straight, left and
right. Retraining ablates ("deterministically removes") units that belong to
chosen activity clusters.

The network, the datasets and the file formats are treated as opaque. What
remains is modelled on exact integers and reals (see "## Left out" for the
places where the source rounds to floating point):

- The removal feed (`feed_det_remove`, `create_feed_dict`, `name_det_remove`).
  A `FeedDict` class holds a map that the methods update in place.
- The per-layer wiring of `create_dense_layers`. A method builds the
  intermediate layers in a loop, and it is proved against a pure description
  of each layer.
- The `t_bin` / `binned_size` integer arithmetic, including its failing cases.
- The two-phase `retrain` loop shared by both retraining scripts.
  - A `RetrainRun` class carries the global step, the recorded test steps and
    test errors, and a trace of events: test, train on a data set, save.
  - The class's methods are proved to leave exactly the trace described by a
    pure `Schedule` function.
  - Counts, order, the test steps and the final save are proved about that
    function.
- The skip-if-folder-exists driver loops of both scripts.
  - A `FileSystem` class holds the set of existing directories, and `Mkdir`
    adds to it.
  - Each driver method is proved to do what a pure `Driver` function over
    `ModelFolders` values describes.
  - The lemmas say which retrains happen, into which folders, with which
    cluster list, filter and data-set order.
  - They also show that a second run does nothing.
- The dense per-row ranking that `np.unique(..., return_inverse=True)`
  computes, the rank-difference accumulation over a batch, the per-iteration
  records, and the every-5000-steps checkpoint rule of `trainingGround.py`.

Notes on the code's behaviour:

- Ranks are dense: tied values share a rank, as `np.unique` gives them. There
  is no stable tie-break by index.
- No error is raised for an all-zero removal vector. The code divides by the
  vector's sum without a guard.
- A run over 320 and 160 samples evaluates once, at global step 0: step 0 is a
  multiple of `EVAL_TEST_EVERY` and comes before the first training call.
- `ce_retrain.py` builds its drop list once per model from `ce_like` and uses
  it for both the t-branch and the non-t-branch retrain. `ce_unlike` is
  computed but never used by the driver.
- `zf_retrain.py` always trains on `trainingData_1` and then on
  `trainingData_2`, with the unfiltered `m.train`.

Modules: `Wrappers` (Option, Result), `Text` (decimal strings, substrings),
`MixedInputModel`, `Ranking`, `TrainingGround`, `RetrainSchedule` (the shared
`retrain` loop), `RetrainCommon` (`mpath`, `paths_512`, complements, the file
system, the action log), `CeRetrain` and `ZfRetrain` (the two drivers).

## Model

| member | source | states |
|---|---|---|
| MixedInputModel.NameDetRemove | mixedInputModel.py:64-68 | the name is `remove_` followed by the decimal digits of the index |
| MixedInputModel.NameDetRemoveInjective | mixedInputModel.py:64-68 | two layer indices get the same removal name exactly when they are equal |
| MixedInputModel.PlaceholderNamesDistinct | mixedInputModel.py:116-126 | the placeholders `x_in`, `keep_prob`, `y_` and every `remove_i` have pairwise distinct graph names |
| Text.ParseDecimalInvertsDecimal | mixedInputModel.py:68 | reading back the decimal form of an index gives the index |
| Text.DecimalInjective | mixedInputModel.py:68 | distinct indices have distinct decimal forms |
| MixedInputModel.Ones | mixedInputModel.py:81 | `np.ones(n)` has length n and every entry is 1 |
| MixedInputModel.DefaultRescaleIsOne | mixedInputModel.py:26 | with the all-ones mask, the rescale `n_units / sum(mask)` is exactly 1 |
| MixedInputModel.RemovalEntriesShape | mixedInputModel.py:79-84 | after i loop iterations, exactly layers 0..i-1 have removal entries, each holding that layer's ones vector or `values[i]` |
| MixedInputModel.DetRemoveFeed | mixedInputModel.py:71-85 | fails with ValueError exactly when `values` is given with the wrong length; otherwise every layer gets N_DENSE[i] ones or `values[i]`, no other key is added, and other keys keep their values |
| MixedInputModel.FeedDetRemove | mixedInputModel.py:71-85 | on a wrong length, raises and leaves the dict unchanged; otherwise fills the dict in place as DetRemoveFeed says and returns the same dict object |
| MixedInputModel.FeedEntries | mixedInputModel.py:88-100 | always binds `x_in` and `keep_prob`; binds `y_` exactly when `y_vals` is given; binds a removal entry for every layer; binds nothing else; fails only on a wrong-length `removal` |
| MixedInputModel.BaseFeed | mixedInputModel.py:97-99 | the starting dictionary binds `x_in` to the input and `keep_prob` to `keep`, and binds `y_` only when targets are given (FeedEntries states the full result) |
| MixedInputModel.CreateFeedDict | mixedInputModel.py:88-100 | returns a fresh feed dict holding exactly the entries FeedEntries describes, or ValueError |
| MixedInputModel.ChainLayer | mixedInputModel.py:38-48 | layer l has suffix `str(l)`, `N_DENSE[l]` units and removal index l, and reads `prev_out` when l is 0 and `h_drop_{l-1}` otherwise (ChainShape and CreateDenseLayers state this of the built stack) |
| MixedInputModel.ChainShape | mixedInputModel.py:37-49 | layers built by the chain rule have N_DENSE[l] units, removal index l and suffix str(l); the first reads the previous output, and each later one reads the preceding dropout `h_drop_l` |
| MixedInputModel.IntermediateLayers | mixedInputModel.py:41-46 | the loop produces N_HIDDEN-1 intermediate layers, layer k built by the chain rule with dropout `h_drop_k`, and returns the last dropout |
| MixedInputModel.CreateDenseLayers | mixedInputModel.py:26-49 | IndexError exactly when N_DENSE is empty; otherwise N_HIDDEN layers, layer l with N_DENSE[l] units, removal index l and suffix str(l), N_HIDDEN-1 intermediates, and inputs chained through the dropouts; the default all-ones removal vector `det_remove[l]` of each returned layer has exactly that layer's number of units |
| MixedInputModel.Binning | mixedInputModel.py:111-113 | a zero model rate fails the division, a non-multiple frame rate fails the assert, and a frame rate of 0 gives `t_bin == 0`, so the second division fails; otherwise `t_bin >= 1`, `t_bin * MODEL_RATE == FRAME_RATE` and `binned_size == MODEL_RATE * HIST_SECONDS` |
| Ranking.Unique | trainingGround.py:46-47 | `np.unique`: strictly ascending, and holding exactly the row's values |
| Ranking.DenseRank | trainingGround.py:46-47 | the inverse index vector has one rank per row entry |
| Ranking.DenseRankCountsSmallerValues | trainingGround.py:46-47 | `rank[j]` is the number of distinct row values strictly below `row[j]` |
| Ranking.RankTie | trainingGround.py:46-47 | equal values get equal ranks |
| Ranking.RankOrder | trainingGround.py:46-47 | a smaller value has a smaller rank and vice versa; equal values have equal ranks and vice versa |
| Ranking.RankBound | trainingGround.py:46-47 | every rank lies below the number of distinct values, which is at most the row length |
| Ranking.SameOrderSameRanks | trainingGround.py:46-47 | two rows that order their positions identically have identical rank vectors |
| Ranking.RankOfIncreasing | trainingGround.py:46-47 | in a strictly increasing row, the rank of position j is j |
| Ranking.RankOfDecreasing | trainingGround.py:46-47 | in a strictly decreasing row, the rank of position j is n-1-j |
| Ranking.TiesExample | trainingGround.py:46-47 | `[1,1,2,2]` ranks as `[0,0,1,1]` |
| Ranking.IncreasingExample | trainingGround.py:46-47 | `[1,2,3,4]` ranks as `[0,1,2,3]` |
| Ranking.DecreasingExample | trainingGround.py:46-47 | `[4,3,2,1]` ranks as `[3,2,1,0]` |
| Ranking.ReversedRowDiff | trainingGround.py:46-48 | a fully reversed prediction of four distinct values contributes 8 |
| Ranking.RowRankDiff | trainingGround.py:46-48 | one row's `np.sum(np.abs(rank_real - rank_pred))`, taken over the dense ranks (RowRankDiffSymmetric, RowRankDiffZero and FourOutputBound state its properties) |
| Ranking.SumAbsDiffBounds | trainingGround.py:48 | a sum of absolute differences, each at most b, lies between 0 and n·b |
| Ranking.RowRankDiffSymmetric | trainingGround.py:46-48 | a row's contribution is non-negative and the same with truth and prediction swapped |
| Ranking.RowRankDiffZero | trainingGround.py:46-48 | a prediction that orders the values like the truth, in particular an equal one, contributes 0 |
| Ranking.FourOutputBound | trainingGround.py:46-48 | with four outputs, each absolute rank difference is at most 3 and a row contributes at most 12 |
| TrainingGround.RowDiffs | trainingGround.py:45-48 | one rank difference per batch row, `BATCHSIZE` of them |
| TrainingGround.BatchRankDiff | trainingGround.py:44-48 | `sum_rank_diffs`: the total of the `BATCHSIZE` row differences (the three lemmas below bound it) |
| TrainingGround.BatchRankDiffNonnegative | trainingGround.py:44-48 | the accumulated rank difference of a batch is never negative |
| TrainingGround.BatchRankDiffZero | trainingGround.py:44-48 | the accumulated difference is 0 when every prediction row orders its values like the truth |
| TrainingGround.BatchRankDiffFourOutputs | trainingGround.py:44-48 | with four outputs, the accumulated difference is at most 12·BATCHSIZE |
| TrainingGround.RankError | trainingGround.py:50 | the recorded rank error, `sum_rank_diffs / BATCHSIZE` (RankErrorFourOutputs bounds it) |
| TrainingGround.RankErrorFourOutputs | trainingGround.py:50 | with four outputs, the recorded rank error lies in [0, 12] |
| TrainingGround.RankDiffSum | trainingGround.py:44-48 | the accumulation loop yields the total of the row differences |
| TrainingGround.BatchRankError | trainingGround.py:44-50 | the recorded value is that total divided by BATCHSIZE |
| TrainingGround.SavesAt | trainingGround.py:31-36 | iteration 0 saves with the meta graph, a nonzero multiple of 5000 saves without it, and any other iteration does not save |
| TrainingGround.SaveSchedule | trainingGround.py:29-36 | the saves of iterations 0 .. n-1, in order (SaveScheduleShape counts and places them) |
| TrainingGround.SaveScheduleShape | trainingGround.py:29-36 | over n iterations there are ⌈n/5000⌉ saves, the k-th at step 5000·k, and only the first writes the meta graph |
| TrainingGround.TrainingRunSaves | trainingGround.py:29-36 | the 100000-step run saves 20 times, and only the step-0 save writes the meta graph |
| TrainingGround.SaveScheduleStep | trainingGround.py:31-36 | one more iteration adds exactly that iteration's saves |
| TrainingGround.SaveCheckpoints | trainingGround.py:31-36 | the two checks at the head of iteration i make exactly its SavesAt saves: at i == 0 with the meta graph, and at nonzero multiples of 5000 without it (SaveScheduleShape and TrainingRunSaves prove what these saves add up to over a run) |
| TrainingGround.RecordedPerIteration | trainingGround.py:49-50 | one loss and one rank error are recorded per iteration, in iteration order |
| TrainingGround.TrainingLoop | trainingGround.py:29-50 | the loop's saves follow the save schedule, and its loss and rank-error lists hold each batch's value in order |
| RetrainSchedule.EpochSize | ce_retrain.py:47-48 | an epoch has `data_size // BATCHSIZE` training steps |
| RetrainSchedule.StepEvents | ce_retrain.py:52-56 | one global step: a test when the step is a multiple of 50, then one training call on the phase's data set |
| RetrainSchedule.Phase | ce_retrain.py:51-56 | the events of one `while global_step < hi` loop entered at `lo` (PhaseTestSteps, PhaseTrains and PhaseOrder state its properties) |
| RetrainSchedule.Schedule | ce_retrain.py:47-63 | the first data set's phase, then the second's, then the single save (the Schedule lemmas state its properties) |
| RetrainSchedule.ErrorsAt | ce_retrain.py:38-41 | one test error per test step |
| RetrainSchedule.MultiplesShape | ce_retrain.py:52-53 | the multiples of 50 in [lo, hi) come in strictly ascending order, and a step is among them exactly when it is such a multiple |
| RetrainSchedule.PhaseTestSteps | ce_retrain.py:51-56 | a phase tests exactly at its multiples of 50 |
| RetrainSchedule.PhaseTrains | ce_retrain.py:51-56 | a phase from lo to hi trains hi-lo times, at steps lo, lo+1, … , on its one data set |
| RetrainSchedule.PhaseOrder | ce_retrain.py:51-62 | in a phase, each test is directly followed by that step's training call, every event uses the drop list and filter, and the phase does not save |
| RetrainSchedule.ScheduleTrains | ce_retrain.py:47-62 | a retrain makes e1+e2 training calls; call k is at step k, on the first data set for k < e1 and on the second after |
| RetrainSchedule.ScheduleTestSteps | ce_retrain.py:51-62 | the recorded test steps are the multiples of 50 below e1+e2 |
| RetrainSchedule.ScheduleTests | zf_retrain.py:49-60 | a test is taken at step s exactly when s < e1+e2 and s is a multiple of 50, and the test steps strictly increase |
| RetrainSchedule.ScheduleSave | ce_retrain.py:63 | the only save comes last, at step e1+e2 |
| RetrainSchedule.ScheduleOrder | ce_retrain.py:37-62 | every test is directly followed by the training call of its step, and every test and training call uses the same drop list and filter |
| RetrainSchedule.SmallRetrain | ce_retrain.py:47-62 | 320 and 160 samples make epochs of 10 and 5 steps, 15 training calls and a single test, at step 0 |
| RetrainSchedule.RetrainRun.Test | ce_retrain.py:35-41 | a test records the current step and the error there; the step does not move |
| RetrainSchedule.RetrainRun.TrainStep | ce_retrain.py:54-56 | a training call on the given data set at the current step, then the step advances by one |
| RetrainSchedule.RetrainRun.RunStep | ce_retrain.py:52-56 | one loop body: a test at multiples of 50, then training |
| RetrainSchedule.RetrainRun.RunPhase | ce_retrain.py:51-56 | a while loop runs the step counter up to its bound and leaves that phase's events |
| RetrainSchedule.RetrainRun.Save | ce_retrain.py:63 | the checkpoint is saved at the current global step |
| RetrainSchedule.Retrain | ce_retrain.py:34-63 | a retrain ends at step e1+e2, leaves exactly the schedule's trace, and keeps test steps and errors aligned with it |
| RetrainCommon.MPath | ce_retrain.py:30-31 | the base path followed by the entry without its last character (MPathOfEntry, MPathInjective) |
| RetrainCommon.MPathOfEntry | ce_retrain.py:30-31 | `mpath(f + '/') == base_path + f` |
| RetrainCommon.MPathInjective | zf_retrain.py:30-31 | distinct slash-terminated entries have distinct model paths |
| RetrainCommon.Paths512 | ce_retrain.py:27 | in listing order, the entries that contain `_3m512_`, each followed by '/' (Paths512Entries, Paths512Members) |
| RetrainCommon.Paths512Entries | ce_retrain.py:27 | every entry of `paths_512` contains `_3m512_` and ends in '/' |
| RetrainCommon.Paths512Members | zf_retrain.py:27 | the entries are exactly the tagged listing names, each with '/' appended |
| RetrainCommon.Complement | ce_retrain.py:22 | the indices of `range(n)` missing from the list, in increasing order (ComplementShape, ComplementPartition) |
| RetrainCommon.ComplementShape | ce_retrain.py:22 | the comprehension holds exactly the indices in range(n) absent from the list, strictly ascending |
| RetrainCommon.ComplementPartition | zf_retrain.py:22 | a cluster list and its complement split range(n) between them |
| RetrainCommon.FileSystem.Mkdir | ce_retrain.py:110 | `os.mkdir` fails exactly when the path exists, and afterwards the path exists |
| RetrainCommon.MkdirThenRetrain | ce_retrain.py:110-113 | the folder is created directly before the retrain into it |
| RetrainCommon.RetrainInto | ce_retrain.py:110-113 | a missing folder is created and one retrain runs into it, keeping its trace |
| RetrainCommon.MkdirThenRetrainOnce | ce_retrain.py:110-113 | creating a folder and then retraining into it pairs the creation with exactly one retrain |
| RetrainCommon.OnceJoin | ce_retrain.py:99-125 | two logs that each pair every created folder with one retrain still do so when joined, if the second creates only folders the first did not |
| RetrainCommon.OnceMeaning | ce_retrain.py:104-124 | in a paired log every mkdir is directly followed by a retrain into the created folder, every retrain directly follows the mkdir of its folder, no two retrains share a folder, and the retrained folders are exactly the created ones |
| CeRetrain.CeUnlikeValue | ce_retrain.py:21-22 | `ce_unlike == [0,2,3,4,5,6]`, and each of 0..7 is in exactly one of the two lists |
| CeRetrain.Shuffle | ce_retrain.py:100 | `np.random.shuffle` of the two-element `train_ix`: swapped or left alone, as the swap choice says (ShuffleKeepsOrder) |
| CeRetrain.BranchStep | ce_retrain.py:104-113 | skip when the folder exists; otherwise mkdir, then retrain with `ce_like`, `train_ix` and the branch's filter, and add the folder (lines 115-124 are the same step for the shared branch) |
| CeRetrain.Iteration | ce_retrain.py:100-124 | the t-branch step, then the shared-branch step on the folders it left (the Iteration lemmas state its properties) |
| CeRetrain.Driver | ce_retrain.py:99-125 | the loop from model i: shuffle, one iteration, then the rest of the loop from the resulting folders and order |
| CeRetrain.Run | ce_retrain.py:98-125 | the loop over `paths_512`, with `train_ix` starting as `[0, 1]` |
| CeRetrain.ShuffleKeepsOrder | ce_retrain.py:98-100 | after any shuffle, `train_ix` is still `[0,1]` or `[1,0]` |
| CeRetrain.IterationSteps | ce_retrain.py:104-124 | the t-branch step creates and retrains into its folder only when absent, and the non-t step then starts from the resulting folder set |
| CeRetrain.IterationCalls | ce_retrain.py:104-124 | an iteration runs the t-branch retrain exactly when its folder was absent and the non-t retrain exactly when its own folder was absent, each in its own decision |
| CeRetrain.IterationFolders | ce_retrain.py:104-119 | after an iteration both of the model's folders exist |
| CeRetrain.IterationMade | ce_retrain.py:104-119 | an iteration creates exactly the folders it adds, each before the retrain into it |
| CeRetrain.IterationExpected | ce_retrain.py:104-124 | each retrain of an iteration goes into a folder that was absent, uses `ce_like` and a permutation of [0,1], and filters `_t_` for the t-branch and `_m_` for the non-t-branch |
| CeRetrain.IterationOnce | ce_retrain.py:104-124 | an iteration's log is paired: each folder it creates gets exactly one retrain, directly after the mkdir |
| CeRetrain.DriverFolders | ce_retrain.py:99-125 | the loop adds exactly both folders of every remaining model |
| CeRetrain.DriverMade | ce_retrain.py:99-125 | the loop creates exactly the folders it adds |
| CeRetrain.DriverMkdirFirst | ce_retrain.py:99-125 | every retrain is directly preceded by the creation of its folder |
| CeRetrain.DriverCalls | ce_retrain.py:99-125 | every retrain of the loop is an expected one for a folder absent at the start |
| CeRetrain.DriverOnce | ce_retrain.py:99-125 | the loop's log is paired: each folder it creates gets exactly one retrain, directly after the mkdir |
| CeRetrain.DriverIdle | ce_retrain.py:107-118 | when every remaining folder exists, the loop does nothing |
| CeRetrain.RunFolders | ce_retrain.py:99-125 | after the loop both folders exist for every model, and nothing else is created |
| CeRetrain.RunLog | ce_retrain.py:99-125 | the whole run creates exactly the new folders; each created folder gets exactly one retrain, directly after its mkdir, and each retrain goes into a folder created just before it; every retrain is expected |
| CeRetrain.SecondRunIdle | ce_retrain.py:99-125 | a second run, whatever its shuffles, performs no mkdir and no retrain |
| CeRetrain.RetrainBranch | ce_retrain.py:104-113 | the t-branch block skips or creates and retrains as the pure step says |
| CeRetrain.RetrainModel | ce_retrain.py:100-124 | one loop body changes the folder set and the log as one iteration says, and keeps each trace beside its call |
| CeRetrain.RetrainAll | ce_retrain.py:98-125 | the driver loop leaves the log and folder set of `Run`, with one matching trace per retrain |
| ZfRetrain.FishUnlikeValue | zf_retrain.py:21-22 | `fish_unlike == [0,6,7]`, and each of 0..7 is in exactly one of the two lists |
| ZfRetrain.Call | zf_retrain.py:104-107 | a retrain of model i into a folder with the given clusters ablated, `trainingData_1` first and no filter |
| ZfRetrain.Iteration | zf_retrain.py:96-117 | nothing when `fl_retrain` exists; otherwise mkdir and the fish-like retrain, then, unless `nfl_retrain` exists, mkdir and the fish-unlike retrain |
| ZfRetrain.Driver | zf_retrain.py:95-117 | the loop from model i: one iteration, then the rest of the loop from the resulting folders |
| ZfRetrain.Run | zf_retrain.py:95-117 | the loop over `paths_512` |
| ZfRetrain.IterationCalls | zf_retrain.py:99-117 | no retrain when `fl_retrain` exists; otherwise the fish-like retrain, then the fish-unlike one only when `nfl_retrain` is absent |
| ZfRetrain.IterationFolders | zf_retrain.py:99-113 | an iteration adds both folders, or nothing when the fish-like folder exists |
| ZfRetrain.IterationMade | zf_retrain.py:99-113 | an iteration creates exactly the folders it adds, each before the retrain into it |
| ZfRetrain.IterationExpected | zf_retrain.py:99-117 | each retrain goes into an absent folder of an iteration whose fish-like folder was absent; the fish-like folder uses `fish_like` and the other `fish_unlike`; no filter; data sets 1 then 2 |
| ZfRetrain.IterationOnce | zf_retrain.py:99-117 | an iteration's log is paired: each folder it creates gets exactly one retrain, directly after the mkdir |
| ZfRetrain.DriverFolders | zf_retrain.py:95-117 | the loop only adds folders of remaining models, and every fish-like folder exists afterwards |
| ZfRetrain.DriverMade | zf_retrain.py:95-117 | the loop creates exactly the folders it adds |
| ZfRetrain.DriverMkdirFirst | zf_retrain.py:95-117 | every retrain is directly preceded by the creation of its folder |
| ZfRetrain.DriverCalls | zf_retrain.py:95-117 | every retrain of the loop is an expected one for the folders at the start |
| ZfRetrain.DriverOnce | zf_retrain.py:95-117 | the loop's log is paired: each folder it creates gets exactly one retrain, directly after the mkdir |
| ZfRetrain.DriverIdle | zf_retrain.py:100-102 | when every remaining fish-like folder exists, the loop does nothing |
| ZfRetrain.RunFolders | zf_retrain.py:95-117 | after the loop every fish-like folder exists, and only the models' folders were added |
| ZfRetrain.RunLog | zf_retrain.py:95-117 | the whole run creates exactly the new folders; each created folder gets exactly one retrain, directly after its mkdir, and each retrain goes into a folder created just before it; every retrain is expected |
| ZfRetrain.RunIdle | zf_retrain.py:95-103 | a run in which every `fl_retrain` folder exists performs no mkdir and no retrain |
| ZfRetrain.SecondRunIdle | zf_retrain.py:95-117 | a second run performs no mkdir and no retrain |
| ZfRetrain.RetrainModel | zf_retrain.py:96-117 | one loop body, with both `continue`s, changes the folder set and the log as one iteration says, and keeps each trace beside its call |
| ZfRetrain.RetrainAll | zf_retrain.py:95-117 | the driver loop leaves the log and folder set of `Run`, with one matching trace per retrain |

## Left out

- TensorFlow graph construction and execution are not modelled: placeholders, convolution, pooling, matmul, ReLU, dropout, the loss, the training op, sessions and `tf.train.Saver`. A layer is modelled as its record of units, removal index, name suffix and input name.
- The floating-point rescale `n_units / sum(mask)` is modelled only for the all-ones default mask. The code has no guard for an all-zero mask, so none is modelled.
- HDF5 reading and writing, stimulus interpolation, `print` and all plotting are left out (I/O and floating point). The loss files a retrain writes are left out too; the recorded test steps and errors it would write are modelled.
- The collaborators `GradientData`, `ModelData`, the network model classes, `Analyzer.temperature_activity`, `create_det_drop_list` and `rank_error` are not part of this model. The drop list is an opaque parameter function of the model index and cluster list. A test's rank error is an opaque function of the folder and the step. Batches are opaque values carrying a truth matrix, a prediction matrix and a loss.
- `os.listdir` is the `listing` parameter of `Paths512`. `np.random.shuffle` of the two-element `train_ix` is a sequence of swap choices, one per model.
- Loading, clearing and reloading a model between the two retrains of one driver iteration is not modelled; it has no effect on which retrains happen.
- `TrainingGround.TrainingLoop` records each batch's loss as given, because the loss is computed by the network.
- TrainingGround.RankError: records the exact quotient `sum_rank_diffs / BATCHSIZE` as a `real`, while the source starts `sum_rank_diffs` at `0.0` and records the float64 rounding of that quotient; the total itself is an integer below 2^53 and so exact in both, and the [0, 12] bound of RankErrorFourOutputs holds for the rounded value too, since 0 and 12 are doubles and rounding to nearest is monotone.
- TrainingGround.BatchRankError: the value the loop records is the same exact quotient as RankError, not its float64 rounding.
- Network outputs and targets are modelled as `real`, so the ordering of NaN and infinite values in `np.unique` is not modelled.
- `create_feed_dict`'s default `keep=1.0` is not a default in the model: `CreateFeedDict` and `FeedEntries` take `keep` as an explicit parameter, and a call that omits it in the source corresponds to passing 1.0.
- Integer widths are unbounded: the step counters and sizes in the source are Python integers, so no wrap-around applies.
