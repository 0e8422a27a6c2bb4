# Multi-task criterion and training-loop bookkeeping in Dafny

This project models the bookkeeping of a PyTorch multi-task training
repository in Dafny and proves properties of that model. It covers two files:
the criterion (`criterion.py`) and the training script (`train.py`). The
numerical work of the loss and of the scores is left abstract.

- `wrappers.dfy`, module `Wrappers`: `Option` and `Result`. They stand for
  Python's `None` and for raised exceptions.
- `criterion.dfy`, module `Criterion`, models `MultiTaskCriterion`:
  - **build_criterion** walks the constructor's signature. Each parameter is
    bound to the whole namespace (`args`), to a namespace attribute, or to its
    default. Otherwise a `NotImplementedError` is raised. `BuildCriterion` is
    the loop; `Resolve` is its specification.
  - **forward**, logging part. The model logits are 52 wide and the targets
    are 28 wide:
    - The 22 binary columns are flattened column by column, with a matching
      class-id array.
    - Six multi-class heads of widths 6, 6, 5, 5, 5, 3 read target columns
      22..27. They slice consecutive logits from 22 up to 52.
    - Each head's labels and softmax scores are filtered by the same mask,
      which drops the rows labelled -1.
    - Sigmoid and softmax are parameters over an opaque score type.
  - **reduce_metrics** runs over the logging outputs of several workers:
    - It totals `sample_size` and `batch_size`; a missing key counts as 0.
      The loss divisor is `sample_size or 1`.
    - It logs the binary AUC.
    - It walks the keys of the first output. It skips builtin keys and keys
      not starting with `multiclass`. It concatenates the per-class arrays
      named by the key's last two characters, reads those characters with
      `int()`, and adds both keys of the pair to the builtin set.
    - Each class suffix is logged at most once, and every multi-class key of
      the first output gets its AUC, only because forward writes its keys as
      `multiclass_y_true_NN` / `multiclass_y_score_NN` pairs. Two other keys
      that share a suffix log that class twice.
    - Exceptions are modelled as values: `IndexError` on an empty list,
      `ValueError` from concatenating nothing, `ValueError` from `int()`.
- `train.dfy`, module `Train`:
  - **get_valid_stats**: the running best AUROC. It is kept by a
    `ValidStatsTracker` object whose constructor plays Python's first-call
    `hasattr` set-up.
  - **validate**: it returns the `auroc` entry of the stats.
  - **train**, the per-step decision rule of the epoch loop. A step outcome is
    either skipped (no log output) or an update, with the trainer's count and
    the aggregated validation stats. What the loop sends to the progress bar,
    the meters, the checkpoint utilities and the process group is recorded as
    a trace of events. The loop is `TrainEpoch`, proved against the left fold
    `RunSteps`. The exceptions are `ZeroDivisionError` for a zero
    `log_interval`, `KeyError` for stats without `auroc`, and
    `UnboundLocalError` when no step bound `valid_loss` (see "## Findings").
  - **main**, the epoch loop: as written, and as intended.

The code validates, saves a checkpoint and (when distributed) waits at a
barrier after every step that produced a log output. It does not do this once
per epoch. The code calls `save_checkpoint` first and then the barrier, and the
model keeps that order.

## Model

| member | source | states |
|---|---|---|
| Criterion.FirstFailure | criterion.py:29-49 | The parameter at the returned index raises and every earlier one resolves; no index means every parameter resolves. |
| Criterion.Resolve | criterion.py:25-50 | Resolution fails iff some parameter is `*args`, `**kwargs`, positional-only, or has neither `args` as name nor a namespace attribute nor a default. The error is that of the first such parameter. On success exactly the binding parameters appear: `args` maps to the whole namespace and any other name to its attribute. |
| Criterion.BuildCriterion | criterion.py:28-50 | The signature loop returns exactly `Resolve`: the same error at the first offending parameter, or the same keyword arguments. |
| Criterion.CriterionAlwaysBuilds | criterion.py:20-50 | For the signature `(args)`, every namespace yields exactly the keyword arguments `{args: namespace}`. |
| Criterion.HeadStartEnds | criterion.py:70-90 | The first head starts at logit 22 and the last one ends at logit 52. |
| Criterion.ContiguousSlicesDisjoint | criterion.py:80-90 | Slices that each start where the previous one ends never overlap. |
| Criterion.HeadLayout | criterion.py:70-90 | Six heads read target columns 22..27. Each is as wide as its class count. They start at 22, end at 52, are contiguous and are pairwise disjoint. |
| Criterion.FlattenColumnsLength | criterion.py:102-103 | `m.T[:cols].flatten()` has `cols * n` entries. |
| Criterion.FlattenColumnsEntry | criterion.py:102-103 | The label at row r, column c sits at position `c * n + r` of the flattened labels. |
| Criterion.FlattenColumnsAt | criterion.py:102-103 | Entry j of the flattened labels is row `j % n`, column `j / n`. |
| Criterion.ClassIdsAt | criterion.py:101 | `y_class` has `22 * n` entries and entry j is `j / n`. |
| Criterion.KeptRows | criterion.py:114 | `np.where(y_true != -1)` gives increasing row indices. They are valid and none is labelled -1, and every row not labelled -1 is among them. |
| Criterion.Mask | criterion.py:114-116 | The kept labels and score rows come from the same kept rows in the same order. No -1 label survives. |
| Criterion.Forward | criterion.py:92-120 | The batch size is the number of target rows and the sample size is 1. The binary arrays are the column-major flattenings of the first 22 columns. Head k logs column 22 + k with its masked softmax scores. |
| Criterion.BinaryLogAligned | criterion.py:99-107 | The binary `y_true`, `y_score` and `y_class` line up: position j holds row `j % n` and column `j / n`, and its class id is that column. |
| Criterion.DecimalDigits | criterion.py:117-118 | The text `f"{c}"` is nonempty decimal digits whose value is c; for columns 10..99 it is two characters. |
| Criterion.PyIntDecimal | criterion.py:182 | `int(f"{c}") == c`. |
| Criterion.PyIntSeparatorNotSpace | criterion.py:182 | `int()` strips surrounding space: `int(" 7")` is 7. It does not strip the separator 0x1c: `int("\x1c7")` raises. |
| Criterion.DecimalInjective | criterion.py:117-118 | Distinct columns give distinct key suffixes. |
| Criterion.DispatchKeys | criterion.py:155-182 | The key loop starts from the builtin set as written, missing comma included, and grows it as multi-class keys are met. It appends exactly the events, and raises exactly the error, of the specification `Dispatch` over the intended set. |
| Criterion.ReduceMetrics | criterion.py:125-182 | reduce_metrics issues exactly the events, and raises exactly the error, of the specification `Reduce`. |
| Criterion.ReduceWithBinaryPair | criterion.py:136-153 | When the first output holds the binary pair and some output holds the class ids, the two scalars are followed by the binary AUC and then by whatever the key loop logs. |
| Criterion.DispatchNeverIndexError | criterion.py:164-182 | The key loop itself never raises `IndexError`. |
| Criterion.ReduceTotals | criterion.py:127-140 | The first two events log the summed sample size with divisor `sample_size or 1`: the sum itself, or 1 when the sum is 0. Then the summed batch size. `IndexError` is raised iff the list of outputs is empty. |
| Criterion.DispatchIgnoresOtherKeys | criterion.py:164-166 | Keys not starting with `multiclass` do not affect the dispatch: over only the multi-class keys it gives the same events and error. |
| Criterion.NoMulticlassKeyNoLog | criterion.py:164-166 | Without a multi-class key, the key loop logs nothing and raises nothing. |
| Criterion.DispatchDependsOnMulticlassBuiltins | criterion.py:155-166 | Two builtin sets that agree on the multi-class keys dispatch identically. |
| Criterion.MissingCommaJoinsKeys | criterion.py:155-162 | As written, the builtin set lacks `binary_y_score` and `binary_y_class` and holds their concatenation. The intended set holds both. |
| Criterion.MissingCommaHarmless | criterion.py:155-166 | The as-written and the intended builtin sets give the same dispatch for every output list and key order. |
| Criterion.DispatchFreshAucs | criterion.py:164-182 | When every multi-class key is a y_true/y_score key, the key loop logs only per-class AUCs, and only for suffixes whose keys were not builtin when the loop started. |
| Criterion.DispatchSuffixesDistinct | criterion.py:164-182 | Under the same condition, no suffix is logged twice: adding both keys of a pair to the builtin set stops its partner from being visited again. |
| Criterion.DispatchCoversKeys | criterion.py:164-182 | Under the same condition and without an exception, every multi-class key that was not builtin has its suffix logged. |
| Criterion.BuiltinKeysPairClosed | criterion.py:155-162 | The starting builtin set names no y_true or y_score key, so it holds both keys of a pair or neither. |
| Criterion.ReduceSuffixesDistinct | criterion.py:125-182 | When the first output's multi-class keys are all y_true/y_score keys, reduce_metrics logs no class suffix twice. |
| Criterion.ReduceCoversKeys | criterion.py:125-182 | Under the same condition and without an exception, reduce_metrics logs the suffix of every multi-class key of the first output. |
| Criterion.DuplicateSuffixExample | criterion.py:164-182 | Keys of another shape break this: a first output with `multiclass_a_22` and `multiclass_b_22` logs the class-22 AUC twice. |
| Criterion.SumCountConstant | criterion.py:132-134 | Summing a key that every output holds with value v gives `n * v`. |
| Criterion.DispatchSkipsBuiltinPrefix | criterion.py:164-165 | Leading builtin keys do not affect the dispatch. |
| Criterion.DispatchHeadPair | criterion.py:164-182 | A head's y_true key, met with neither of its keys builtin, logs that column's AUC with class `int(suffix)` equal to the column. The y_score key that follows is then skipped. |
| Criterion.ColumnAucsAt | criterion.py:109-118 | The per-class AUC logged j-th for the heads is that of column 22 + j. |
| Criterion.DispatchForwardHeads | criterion.py:164-182 | Over the head keys forward writes, the dispatch logs one AUC per column in column order and raises nothing. |
| Criterion.ReduceOfForwardKeys | criterion.py:125-182 | When the first output has forward's keys, reduce_metrics logs the two scalars, the binary AUC and then the AUCs of columns 22..27 in order, and raises nothing. |
| Criterion.ReduceForwardOutputs | criterion.py:92-182 | Reducing the outputs of n >= 1 forward calls logs the loss with weight and divisor n, the summed batch size, the binary AUC, then the AUCs of columns 22..27 in order, and raises nothing. |
| Train.Max | train.py:460-463 | `max(a, b)` is at least both and is one of them. |
| Train.ValidStats | train.py:454-468 | The returned stats have the old keys plus `num_updates` and `best_auroc`. `num_updates` is the update count and `best_auroc` the best. Every other entry is unchanged. |
| Train.BestFromBounds | train.py:456-463 | The running best is at least its start (0 on first use) and at least every AUROC seen. |
| Train.BestFromAttained | train.py:456-463 | The running best is its start or one of the AUROCs seen. |
| Train.BestFromMonotone | train.py:459-463 | The running best never decreases as more AUROCs are seen. |
| Train.BestHistoryExample | train.py:456-466 | AUROCs 0.70, 0.65, 0.80 report `best_auroc` 0.70, 0.70, 0.80. |
| Train.ValidStatsTracker.constructor | train.py:456-457 | The best starts at 0. |
| Train.ValidStatsTracker.GetValidStats | train.py:449-468 | With an AUROC, the best becomes `max(auroc, old best)` and the stats are `ValidStats`. Without one, `KeyError` is raised and the best is unchanged. |
| Train.Validate | train.py:436-447 | It returns the validation's own AUROC, prints the tracked stats, and updates the tracker's best. Without an AUROC it raises `KeyError`. |
| Train.TrainStep | train.py:364-383 | One iteration of the loop changes the update count, the trace, `valid_loss` and the tracker's best exactly as `Step` says, and reports the exception it raises. |
| Train.TrainEpoch | train.py:354-392 | The epoch loop with the tracker ends in exactly the events, result and best of the fold `RunSteps` followed by `EndEpoch`. |
| Train.SkippedStepsDoNothing | train.py:362-366 | Steps without a log output change nothing. The epoch runs as if only the updates happened. |
| Train.ZeroIntervalRaises | train.py:366-367 | With `log_interval == 0`, `ZeroDivisionError` is raised iff some step updated; `KeyError` is never raised. |
| Train.MissingAurocRaises | train.py:366-377 | With a nonzero interval, `KeyError` is raised iff some update's validation stats lack `auroc`; `ZeroDivisionError` is never raised. |
| Train.ErrorKinds | train.py:358-383 | The loop raises nothing else. |
| Train.ValidLossBound | train.py:375-377 | If the loop did not raise, `valid_loss` is bound iff some step updated. |
| Train.UnboundExactlyWhenAllSkipped | train.py:358-392 | `train` raises `UnboundLocalError` iff every step of the epoch was skipped. |
| Train.InitialisedNeverUnbound | train.py:329-392 | With `valid_loss` initialised to None, `train` never raises `UnboundLocalError`, returns None iff every step was skipped, and otherwise gives the same trace, loss and exception as the code as written. |
| Train.StepBest | train.py:364-377 | One step never lowers the best and keeps the loss at most the best. An update that does not raise moves the best to `max(auroc, best)`; a skipped step leaves it. |
| Train.EpochBest | train.py:358-377 | The best never goes down and the bound loss is at most the best. Over an epoch that did not raise, the best is the running best of the epoch's AUROCs from where it started, and it is at least each of them. |
| Train.EpochCounts | train.py:364-383 | Over an epoch that did not raise, there is one checkpoint per update. There is one barrier per update when distributed and none otherwise. There is one mid-epoch log per update whose count is a multiple of `log_interval`. |
| Train.StepCounts | train.py:364-383 | One update adds one checkpoint, one barrier if distributed, and one mid-epoch log if its count is a multiple of the interval. |
| Train.ConcatOrdered | train.py:364-392 | Concatenating two traces in order gives a trace in order. |
| Train.LogBlockOrdered | train.py:367-374 | The mid-epoch log followed by its meter reset is in order on its own. |
| Train.ValidBlockOrdered | train.py:376-383 | Printed validation stats, then the checkpoint, then the barrier when distributed, is in order on its own. |
| Train.StepOrdered | train.py:364-383 | Each step keeps the trace in order. `train_inner` is reset right after each mid-epoch log and only then. A checkpoint follows each printed validation and only it. A barrier follows each checkpoint iff distributed. |
| Train.EpochOrdered | train.py:358-383 | The loop's whole trace is in that order. |
| Train.EpochTraceOrdered | train.py:358-392 | The epoch's trace, end-of-epoch print and reset included, is in that order. |
| Train.FinalNumUpdates | train.py:356-366 | After a loop that did not raise, `num_updates` is the count of the last update, or the count read before the loop when every step was skipped. |
| Train.EpochLoopAsWritten | train.py:315-320 | With `max_epoch >= 1`, every iteration trains epoch 1 and the guard never becomes false, however many iterations run. With `max_epoch < 1` nothing runs. |
| Train.EpochLoop | train.py:315-320 | The intended loop trains epochs 1..max_epoch, each once, in order. |

## Left out

- Loss values, `binary_cross_entropy_with_logits`, `cross_entropy`, sigmoid and softmax numerics are left out because they are floating point. Scores are an opaque type and the two activations are parameters.
- Criterion.Forward: the `loss` entry of the logging output and the `reduce=False` variant are not modelled. The source asserts only `dim() == 2`. The widths 52 and 28 appear there only as comments. This model takes them as preconditions, so it does not cover wider inputs, which the source accepts. The equal batch size it also requires is demanded by the source itself: `binary_cross_entropy_with_logits` raises when the logits and the target differ in shape.
- Criterion.ReduceTotals: the loss sum, its division by `log(2)` and rounding are not modelled because they are floating point. The logged value (the summed sample size) and the divisor are stated exactly; the loss value itself is not.
- Criterion.ReduceMetrics: the contents of the concatenated arrays and the AUC computation (`AUCMeter`, the metrics module) are not part of this model. Only which AUCs are logged, in which order and with which class, is modelled.
- `int()` is modelled on ASCII text. Unicode digits, Unicode whitespace and underscore grouping are not modelled; they cannot occur in the two-character suffixes forward writes.
- Train.Validate: `trainer.post_validate` is not part of this model. The model assumes it leaves the stats as they are.
- Train.TrainEpoch: the `train_inner` and `train` aggregation contexts, `get_training_stats` (wall-clock time), the progress-bar configuration and the profiler record are not modelled; they are I/O and timing. The trainer's `train_step` and `get_num_updates` are inputs (`StepOutcome`).
- The `main` set-up is not modelled: seeding, directory verification, model, dataset and trainer construction, `breakpoint()`, logging and the stopwatch. It is process-level I/O.
- `trainer.lr_step(epoch_idx, valid_losses[0])` is not modelled. The trainer is not part of this model, nor is the type of the AUROC the meters return. If that value is a Python float, `valid_losses[0]` itself would raise.
- Train.EpochLoopAsWritten: a `fuel` bound stands for the loop that does not terminate. It shows that any number of iterations leaves the guard true.
- Train.BestFromMonotone: AUROCs are modelled as reals, so a NaN AUROC is not modelled. Python's `max(auroc, best)` keeps a NaN that comes first, so with NaN the running best can fall below an AUROC already seen. Train.BestFromBounds and Train.EpochBest hold only for AUROCs that are not NaN, for the same reason.
- Train.ValidStats: `num_updates` is stored as a real in a map of reals. Python stores an int in a dictionary of mixed values.
- Argument parsing, distributed spawning (`call_main`), checkpoint saving and loading, and the preprocessing script are not part of this model.

## Findings

| source | as written | input that shows it | evidently intended | confidence | as-written member | corrected member |
|---|---|---|---|---|---|---|
| criterion.py:160-161 | No comma between `"binary_y_score"` and `"binary_y_class"`, so the set holds one joined key `"binary_y_scorebinary_y_class"` | Any call: neither `binary_y_score` nor `binary_y_class` is in the builtin set | Six separate builtin keys; the dispatch is unchanged either way because neither key starts with `multiclass` | not executed | Criterion.MissingCommaJoinsKeys | Criterion.MissingCommaHarmless |
| train.py:315-320 | The loop body never changes `epoch_idx`, so `while epoch_idx <= max_epoch` never ends when `train` and `lr_step` return and the AUROC is indexable, for example a one-element array; otherwise line 320 raises after the first epoch | `max_epoch = 1` (the default is 50): epoch 1 is trained again after every return | `epoch_idx += 1` at the end of each iteration, training epochs 1..max_epoch once each | not executed | Train.EpochLoopAsWritten | Train.EpochLoop |
| train.py:375-392 | `valid_loss` is bound only inside `if log_output is not None`, so `return valid_loss` raises `UnboundLocalError` when no step of the epoch produced a log output | An epoch whose every `train_step` returns `None` | `train` returns the validation losses, as its docstring says (train.py:329): `valid_loss = None` before the loop, so such an epoch returns None | not executed | Train.UnboundExactlyWhenAllSkipped | Train.InitialisedNeverUnbound |
