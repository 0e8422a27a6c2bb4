/** The bookkeeping of the training script: the running best AUROC that
    `get_valid_stats` keeps, the per-step decisions of the epoch loop in
    `train` (log mid-epoch stats, validate, save a checkpoint, wait at a
    barrier), what `validate` returns, and the epoch loop of `main`.

    The trainer, the metrics aggregators, the progress bar and the checkpoint
    utilities are outside the model: what they hand back (whether a step
    produced a log output, the update count after it, the aggregated
    validation stats) is an input, and what is sent to them is recorded as a
    trace of events in call order. */
module Train {
  import opened Wrappers

  // ---------------------------------------------------------------------------
  // get_valid_stats: the running best AUROC
  // ---------------------------------------------------------------------------

  /** The exceptions the modelled code raises. */
  datatype TrainError =
    | ZeroLogInterval   // `num_updates % args.log_interval` with a zero interval
    | MissingAuroc      // `stats["auroc"]` on stats without that key
    | UnboundValidLoss  // `return valid_loss` when no step bound it

  /** Python's `max(a, b)` on two numbers. */
  function Max(a: real, b: real): (r: real)
    ensures r >= a && r >= b && (r == a || r == b)
  {
    if b > a then b else a
  }

  /** The stats get_valid_stats hands back: the aggregated validation stats
      with `num_updates` set to the update count and `best_auroc` to the new
      running best. */
  function ValidStats(stats: map<string, real>, numUpdates: int, best: real): (r: map<string, real>)
    ensures r.Keys == stats.Keys + {"num_updates", "best_auroc"}
    ensures r["num_updates"] == numUpdates as real && r["best_auroc"] == best
    ensures forall k :: k in stats && k != "num_updates" && k != "best_auroc" ==> r[k] == stats[k]
  {
    stats["num_updates" := numUpdates as real]["best_auroc" := best]
  }

  /** The running best after a sequence of AUROCs, starting from `start`:
      each call replaces the best by `max(auroc, best)`. */
  function BestFrom(start: real, aurocs: seq<real>): real
    decreases |aurocs|
  {
    if aurocs == [] then start
    else Max(aurocs[|aurocs| - 1], BestFrom(start, aurocs[..|aurocs| - 1]))
  }

  /** The running best after a fresh start, where the first call sets it up
      as 0. */
  function RunningBest(aurocs: seq<real>): real {
    BestFrom(0.0, aurocs)
  }

  /** The best never falls below its start nor below any AUROC seen. */
  lemma {:induction false} BestFromBounds(start: real, aurocs: seq<real>)
    ensures BestFrom(start, aurocs) >= start
    ensures forall i :: 0 <= i < |aurocs| ==> BestFrom(start, aurocs) >= aurocs[i]
    decreases |aurocs|
  {
    if aurocs != [] {
      var init := aurocs[..|aurocs| - 1];
      BestFromBounds(start, init);
      assert forall i :: 0 <= i < |init| ==> aurocs[i] == init[i];
    }
  }

  /** The best is always one of the values it was given: the start or one of
      the AUROCs. */
  lemma {:induction false} BestFromAttained(start: real, aurocs: seq<real>)
    ensures BestFrom(start, aurocs) == start || exists i :: 0 <= i < |aurocs| && BestFrom(start, aurocs) == aurocs[i]
    decreases |aurocs|
  {
    if aurocs != [] {
      var init := aurocs[..|aurocs| - 1];
      BestFromAttained(start, init);
      if BestFrom(start, aurocs) != aurocs[|aurocs| - 1] && BestFrom(start, aurocs) != start {
        var i :| 0 <= i < |init| && BestFrom(start, init) == init[i];
        assert aurocs[i] == init[i];
      }
    }
  }

  /** The best never decreases as more AUROCs are seen. */
  lemma {:induction false} BestFromMonotone(start: real, aurocs: seq<real>, n: nat)
    requires n <= |aurocs|
    ensures BestFrom(start, aurocs[..n]) <= BestFrom(start, aurocs)
    decreases |aurocs|
  {
    if n < |aurocs| {
      var init := aurocs[..|aurocs| - 1];
      assert init[..n] == aurocs[..n];
      BestFromMonotone(start, init, n);
    } else {
      assert aurocs[..n] == aurocs;
    }
  }

  /** The bests after each call of a fresh tracker, as the sequence of
      `best_auroc` values it reports. */
  function BestHistory(aurocs: seq<real>): (r: seq<real>)
    ensures |r| == |aurocs|
  {
    seq(|aurocs|, i requires 0 <= i < |aurocs| => RunningBest(aurocs[..i + 1]))
  }

  /** AUROCs 0.70, 0.65, 0.80 report best values 0.70, 0.70, 0.80. */
  lemma {:induction false} BestHistoryExample()
    ensures BestHistory([0.70, 0.65, 0.80]) == [0.70, 0.70, 0.80]
  {
    var a := [0.70, 0.65, 0.80];
    assert a[..1] == [0.70] && a[..2] == [0.70, 0.65] && a[..3] == a;
    assert [0.70, 0.65][..1] == [0.70] && a[..2] == [0.70, 0.65];
    assert RunningBest([0.70]) == 0.70;
    assert RunningBest([0.70, 0.65]) == 0.70;
    assert RunningBest(a) == 0.80;
  }

  /** The state get_valid_stats keeps on itself between calls. Python stores
      it as an attribute of the function, created as 0 on the first call; here
      it is an object whose constructor plays that first-call set-up. */
  class ValidStatsTracker {
    var best: real

    constructor()
      ensures best == 0.0
    {
      best := 0.0;
    }

    /** Records the update count, folds the AUROC into the running best and
        reports it as `best_auroc`; without an AUROC it raises and the best
        is left as it was. */
    method GetValidStats(stats: map<string, real>, numUpdates: int) returns (r: Result<map<string, real>, TrainError>)
      modifies this
      ensures "auroc" in stats ==>
        best == Max(stats["auroc"], old(best)) && r == Ok(ValidStats(stats, numUpdates, best))
      ensures "auroc" !in stats ==> best == old(best) && r == Err(MissingAuroc)
    {
      var s := stats["num_updates" := numUpdates as real];
      if "auroc" !in s {
        return Err(MissingAuroc);
      }
      best := Max(s["auroc"], best);
      s := s["best_auroc" := best];
      return Ok(s);
    }
  }

  /** validate: the aggregated stats go through get_valid_stats, are printed,
      and their `auroc` entry is returned. The returned value is the AUROC of
      this validation, not the running best. */
  method Validate(tracker: ValidStatsTracker, aggregated: map<string, real>, numUpdates: int)
    returns (r: Result<real, TrainError>, printed: map<string, real>)
    modifies tracker
    ensures "auroc" in aggregated ==>
      r == Ok(aggregated["auroc"]) && tracker.best == Max(aggregated["auroc"], old(tracker.best))
      && printed == ValidStats(aggregated, numUpdates, tracker.best)
    ensures "auroc" !in aggregated ==> r == Err(MissingAuroc) && tracker.best == old(tracker.best)
  {
    var stats := tracker.GetValidStats(aggregated, numUpdates);
    if stats.Err? {
      return Err(stats.error), map[];
    }
    printed := stats.value;
    r := Ok(printed["auroc"]);
  }

  // ---------------------------------------------------------------------------
  // train: the per-step decisions of one epoch
  // ---------------------------------------------------------------------------

  /** What one training step hands back: no log output (out of memory,
      overflow, ...), or an update, with the trainer's update count after it
      and the stats the following validation aggregates. */
  datatype StepOutcome =
    | Skipped
    | Updated(numUpdates: int, validStats: map<string, real>)

  /** The calls the epoch makes on the progress bar, the meters, the
      checkpoint utilities and the process group, in order. */
  datatype Event =
    | LogTrainInner(step: int)                            // progress.log(..., tag="train_inner")
    | ResetTrainInner                                     // metrics.reset_meters("train_inner")
    | PrintValid(stats: map<string, real>, step: int)     // progress.print(..., tag="valid")
    | SaveCheckpoint(epoch: int, validLoss: real)         // checkpoint_utils.save_checkpoint
    | Barrier                                             // torch.distributed.barrier()
    | PrintTrain(step: int)                               // progress.print(..., tag="train")
    | ResetTrain                                          // metrics.reset_meters("train")

  /** The arguments the epoch reads: its number, `args.log_interval`, and
      whether the distributed process group is initialised. */
  datatype Config = Config(epoch: int, logInterval: int, distributed: bool)

  /** The loop's variables after some steps: `num_updates`, the tracker's
      best, `valid_loss` (None while unbound), the events so far, and the
      exception that ended the loop, if any. */
  datatype EpochState = EpochState(
    numUpdates: int, best: real, validLoss: Option<real>, trace: seq<Event>, error: Option<TrainError>)

  function Start(numUpdates: int, best: real): EpochState {
    EpochState(numUpdates, best, None, [], None)
  }

  function BarrierEvents(distributed: bool): seq<Event> {
    if distributed then [Barrier] else []
  }

  /** One iteration of the loop in train. */
  function Step(s: EpochState, o: StepOutcome, cfg: Config): EpochState {
    if s.error.Some? then s
    else match o
      case Skipped => s
      case Updated(n, vs) =>
        if cfg.logInterval == 0 then s.(numUpdates := n, error := Some(ZeroLogInterval))
        else
          var logged := s.trace + (if n % cfg.logInterval == 0 then [LogTrainInner(n), ResetTrainInner] else []);
          if "auroc" !in vs then s.(numUpdates := n, trace := logged, error := Some(MissingAuroc))
          else
            var best := Max(vs["auroc"], s.best);
            var loss := vs["auroc"];
            s.(numUpdates := n, best := best, validLoss := Some(loss),
               trace := logged + [PrintValid(ValidStats(vs, n, best), n), SaveCheckpoint(cfg.epoch, loss)]
                        + BarrierEvents(cfg.distributed))
  }

  /** The loop of train over the outcomes of its steps, as a left fold. */
  function RunSteps(s: EpochState, os: seq<StepOutcome>, cfg: Config): EpochState
    decreases |os|
  {
    if os == [] then s else Step(RunSteps(s, os[..|os| - 1], cfg), os[|os| - 1], cfg)
  }

  /** The end of train: the end-of-epoch stats are printed and the meters
      reset, then `valid_loss` is returned, which raises when no step bound
      it. An exception inside the loop ends the epoch before any of this. */
  function EndEpoch(fin: EpochState): (seq<Event>, Result<real, TrainError>) {
    if fin.error.Some? then (fin.trace, Err(fin.error.value))
    else
      var trace := fin.trace + [PrintTrain(fin.numUpdates), ResetTrain];
      if fin.validLoss.None? then (trace, Err(UnboundValidLoss)) else (trace, Ok(fin.validLoss.value))
  }

  /** The whole epoch from the update count read before the loop and the
      tracker's best. */
  function Epoch(startUpdates: int, best: real, os: seq<StepOutcome>, cfg: Config): (seq<Event>, Result<real, TrainError>) {
    EndEpoch(RunSteps(Start(startUpdates, best), os, cfg))
  }

  lemma {:induction false} RunStepsSnoc(s: EpochState, os: seq<StepOutcome>, i: nat, cfg: Config)
    requires i < |os|
    ensures RunSteps(s, os[..i + 1], cfg) == Step(RunSteps(s, os[..i], cfg), os[i], cfg)
  {
    assert os[..i + 1][..i] == os[..i];
  }

  /** Once an exception is raised, the remaining steps do not run. */
  lemma {:induction false} ErrorSticky(s: EpochState, os: seq<StepOutcome>, cfg: Config)
    requires s.error.Some?
    ensures RunSteps(s, os, cfg) == s
    decreases |os|
  {
    if os != [] {
      ErrorSticky(s, os[..|os| - 1], cfg);
    }
  }

  /** Running two stretches of steps one after the other. */
  lemma {:induction false} RunStepsAppend(s: EpochState, a: seq<StepOutcome>, b: seq<StepOutcome>, cfg: Config)
    ensures RunSteps(s, a + b, cfg) == RunSteps(RunSteps(s, a, cfg), b, cfg)
    decreases |b|
  {
    if b == [] {
      assert a + b == a;
    } else {
      var b' := b[..|b| - 1];
      assert (a + b)[..|a + b| - 1] == a + b';
      RunStepsAppend(s, a, b', cfg);
    }
  }

  /** One iteration of the loop of train: the update count, the periodic
      log and meter reset, then validation, the checkpoint and the barrier.
      The new loop variables and the tracker are those of Step, with the
      exception that ends the loop, if any. */
  method TrainStep(tracker: ValidStatsTracker, numUpdates: int, validLoss: Option<real>, trace: seq<Event>,
                   o: StepOutcome, cfg: Config)
    returns (numUpdates': int, validLoss': Option<real>, trace': seq<Event>, error: Option<TrainError>)
    modifies tracker
    ensures Step(EpochState(numUpdates, old(tracker.best), validLoss, trace, None), o, cfg)
      == EpochState(numUpdates', tracker.best, validLoss', trace', error)
  {
    numUpdates', validLoss', trace', error := numUpdates, validLoss, trace, None;
    match o {
      case Skipped =>
      case Updated(n, vs) =>
        numUpdates' := n;
        if cfg.logInterval == 0 {
          error := Some(ZeroLogInterval);
          return;
        }
        if n % cfg.logInterval == 0 {
          trace' := trace' + [LogTrainInner(n), ResetTrainInner];
        }
        var loss, printed := Validate(tracker, vs, n);
        if loss.Err? {
          error := Some(loss.error);
          return;
        }
        validLoss' := Some(loss.value);
        trace' := trace' + [PrintValid(printed, n), SaveCheckpoint(cfg.epoch, loss.value)];
        if cfg.distributed {
          trace' := trace' + [Barrier];
        }
    }
  }

  /** The loop of train, one step outcome at a time, against the tracker
      that get_valid_stats keeps. */
  method TrainEpoch(tracker: ValidStatsTracker, startUpdates: int, outcomes: seq<StepOutcome>, cfg: Config)
    returns (trace: seq<Event>, r: Result<real, TrainError>)
    modifies tracker
    ensures (trace, r) == Epoch(startUpdates, old(tracker.best), outcomes, cfg)
    ensures tracker.best == RunSteps(Start(startUpdates, old(tracker.best)), outcomes, cfg).best
  {
    ghost var start := Start(startUpdates, tracker.best);
    var numUpdates := startUpdates;
    var validLoss: Option<real> := None;
    trace := [];
    var i := 0;
    while i < |outcomes|
      invariant 0 <= i <= |outcomes|
      invariant RunSteps(start, outcomes[..i], cfg) == EpochState(numUpdates, tracker.best, validLoss, trace, None)
    {
      RunStepsSnoc(start, outcomes, i, cfg);
      var error;
      numUpdates, validLoss, trace, error := TrainStep(tracker, numUpdates, validLoss, trace, outcomes[i], cfg);
      if error.Some? {
        FinishAfterError(start, outcomes, i, cfg);
        return trace, Err(error.value);
      }
      i := i + 1;
    }
    assert outcomes[..i] == outcomes;
    trace := trace + [PrintTrain(numUpdates), ResetTrain];
    if validLoss.None? {
      r := Err(UnboundValidLoss);
    } else {
      r := Ok(validLoss.value);
    }
  }

  /** A step that raises decides the state the whole epoch ends in. */
  lemma {:induction false} FinishAfterError(s: EpochState, os: seq<StepOutcome>, i: nat, cfg: Config)
    requires i < |os| && RunSteps(s, os[..i + 1], cfg).error.Some?
    ensures RunSteps(s, os, cfg) == RunSteps(s, os[..i + 1], cfg)
  {
    assert os == os[..i + 1] + os[i + 1..];
    RunStepsAppend(s, os[..i + 1], os[i + 1..], cfg);
    ErrorSticky(RunSteps(s, os[..i + 1], cfg), os[i + 1..], cfg);
  }

  // ---------------------------------------------------------------------------
  // Properties of the epoch
  // ---------------------------------------------------------------------------

  /** The outcomes that updated the model, in order. */
  function Updates(os: seq<StepOutcome>): (r: seq<StepOutcome>)
    ensures |r| <= |os|
    ensures forall i :: 0 <= i < |r| ==> r[i].Updated?
    decreases |os|
  {
    if os == [] then []
    else Updates(os[..|os| - 1]) + (if os[|os| - 1].Updated? then [os[|os| - 1]] else [])
  }

  /** A step without a log output does nothing: no logging, no meter reset,
      no validation, checkpoint or barrier, and `num_updates` keeps its
      value. The epoch runs as if those steps had not happened. */
  lemma {:induction false} SkippedStepsDoNothing(s: EpochState, os: seq<StepOutcome>, cfg: Config)
    ensures RunSteps(s, os, cfg) == RunSteps(s, Updates(os), cfg)
    decreases |os|
  {
    if os != [] {
      var init := os[..|os| - 1];
      var last := os[|os| - 1];
      SkippedStepsDoNothing(s, init, cfg);
      assert os[..|os| - 1] == init;
      if last.Updated? {
        var u := Updates(init) + [last];
        assert Updates(os) == u;
        assert u[..|u| - 1] == Updates(init) && u[|u| - 1] == last;
      } else {
        assert Updates(os) == Updates(init);
      }
    }
  }

  /** With a zero log interval the loop raises ZeroDivisionError exactly
      when some step updated the model: the first update raises it. */
  lemma {:induction false} ZeroIntervalRaises(s: EpochState, os: seq<StepOutcome>, cfg: Config)
    requires s.error.None? && cfg.logInterval == 0
    ensures RunSteps(s, os, cfg).error == Some(ZeroLogInterval) <==> exists i :: 0 <= i < |os| && os[i].Updated?
    ensures RunSteps(s, os, cfg).error != Some(MissingAuroc)
    decreases |os|
  {
    if os != [] {
      var init := os[..|os| - 1];
      var last := os[|os| - 1];
      ZeroIntervalRaises(s, init, cfg);
      ErrorKinds(s, init, cfg);
      var mid := RunSteps(s, init, cfg);
      if exists i :: 0 <= i < |os| && os[i].Updated? {
        var i :| 0 <= i < |os| && os[i].Updated?;
        if i < |init| {
          assert init[i] == os[i];
        }
      }
      if exists i :: 0 <= i < |init| && init[i].Updated? {
        var i :| 0 <= i < |init| && init[i].Updated?;
        assert os[i] == init[i];
      }
    }
  }

  /** With a nonzero log interval the loop raises KeyError exactly when some
      update's validation stats lack an AUROC, and never ZeroDivisionError. */
  lemma {:induction false} MissingAurocRaises(s: EpochState, os: seq<StepOutcome>, cfg: Config)
    requires s.error.None? && cfg.logInterval != 0
    ensures RunSteps(s, os, cfg).error == Some(MissingAuroc) <==>
      exists i :: 0 <= i < |os| && os[i].Updated? && "auroc" !in os[i].validStats
    ensures RunSteps(s, os, cfg).error != Some(ZeroLogInterval)
    decreases |os|
  {
    if os != [] {
      var init := os[..|os| - 1];
      var last := os[|os| - 1];
      MissingAurocRaises(s, init, cfg);
      ErrorKinds(s, init, cfg);
      if exists i :: 0 <= i < |os| && os[i].Updated? && "auroc" !in os[i].validStats {
        var i :| 0 <= i < |os| && os[i].Updated? && "auroc" !in os[i].validStats;
        if i < |init| {
          assert init[i] == os[i];
        }
      }
      if exists i :: 0 <= i < |init| && init[i].Updated? && "auroc" !in init[i].validStats {
        var i :| 0 <= i < |init| && init[i].Updated? && "auroc" !in init[i].validStats;
        assert os[i] == init[i];
      }
    }
  }

  /** The loop only ever raises the two exceptions a step can raise. */
  lemma {:induction false} ErrorKinds(s: EpochState, os: seq<StepOutcome>, cfg: Config)
    requires s.error.None?
    ensures var e := RunSteps(s, os, cfg).error; e.None? || e == Some(ZeroLogInterval) || e == Some(MissingAuroc)
    decreases |os|
  {
    if os != [] {
      ErrorKinds(s, os[..|os| - 1], cfg);
    }
  }

  /** `valid_loss` is bound after the loop exactly when some step updated
      the model (or a step raised first). */
  lemma {:induction false} ValidLossBound(s: EpochState, os: seq<StepOutcome>, cfg: Config)
    requires s.error.None? && s.validLoss.None?
    ensures var fin := RunSteps(s, os, cfg);
      fin.error.None? ==> (fin.validLoss.Some? <==> exists i :: 0 <= i < |os| && os[i].Updated?)
    decreases |os|
  {
    if os != [] {
      var init := os[..|os| - 1];
      ValidLossBound(s, init, cfg);
      assert forall i :: 0 <= i < |init| ==> os[i] == init[i];
    }
  }

  /** train raises UnboundLocalError exactly when no step of the epoch
      updated the model. */
  lemma {:induction false} UnboundExactlyWhenAllSkipped(startUpdates: int, best: real, os: seq<StepOutcome>, cfg: Config)
    ensures Epoch(startUpdates, best, os, cfg).1 == Err(UnboundValidLoss) <==> forall i :: 0 <= i < |os| ==> os[i].Skipped?
  {
    var s := Start(startUpdates, best);
    ValidLossBound(s, os, cfg);
    ErrorKinds(s, os, cfg);
    if cfg.logInterval == 0 {
      ZeroIntervalRaises(s, os, cfg);
    } else {
      MissingAurocRaises(s, os, cfg);
    }
  }

  /** The end of train with `valid_loss = None` before the loop, as the
      docstring's promise to return the validation losses asks: an epoch in
      which no step updated the model returns None instead of raising. */
  function EndEpochInitialised(fin: EpochState): (seq<Event>, Result<Option<real>, TrainError>) {
    if fin.error.Some? then (fin.trace, Err(fin.error.value))
    else (fin.trace + [PrintTrain(fin.numUpdates), ResetTrain], Ok(fin.validLoss))
  }

  function EpochInitialised(startUpdates: int, best: real, os: seq<StepOutcome>, cfg: Config): (seq<Event>, Result<Option<real>, TrainError>) {
    EndEpochInitialised(RunSteps(Start(startUpdates, best), os, cfg))
  }

  /** With `valid_loss` initialised, train never raises UnboundLocalError,
      returns None exactly when every step was skipped, and otherwise agrees
      with the code as written: same trace, same loss, same exception. */
  lemma {:induction false} InitialisedNeverUnbound(startUpdates: int, best: real, os: seq<StepOutcome>, cfg: Config)
    ensures EpochInitialised(startUpdates, best, os, cfg).1 != Err(UnboundValidLoss)
    ensures EpochInitialised(startUpdates, best, os, cfg).1 == Ok(None) <==> forall i :: 0 <= i < |os| ==> os[i].Skipped?
    ensures EpochInitialised(startUpdates, best, os, cfg).0 == Epoch(startUpdates, best, os, cfg).0
    ensures forall v :: Epoch(startUpdates, best, os, cfg).1 == Ok(v) <==> EpochInitialised(startUpdates, best, os, cfg).1 == Ok(Some(v))
    ensures forall e :: e != UnboundValidLoss ==>
      (Epoch(startUpdates, best, os, cfg).1 == Err(e) <==> EpochInitialised(startUpdates, best, os, cfg).1 == Err(e))
  {
    var s := Start(startUpdates, best);
    ValidLossBound(s, os, cfg);
    ErrorKinds(s, os, cfg);
    UnboundExactlyWhenAllSkipped(startUpdates, best, os, cfg);
  }

  /** The AUROCs of the updates of an epoch that did not raise. */
  function Aurocs(os: seq<StepOutcome>): seq<real>
    requires forall i :: 0 <= i < |os| ==> os[i].Updated? ==> "auroc" in os[i].validStats
    decreases |os|
  {
    if os == [] then []
    else
      var init := os[..|os| - 1];
      var last := os[|os| - 1];
      Aurocs(init) + (if last.Updated? then [last.validStats["auroc"]] else [])
  }

  /** Over an epoch that did not raise, the tracker's best is the running
      best of the epoch's AUROCs from where it started, so it is at least
      every AUROC of the epoch, and the returned validation loss (the last
      AUROC) is at most the best. */
  lemma {:induction false} EpochBest(s: EpochState, os: seq<StepOutcome>, cfg: Config)
    requires s.error.None?
    requires s.validLoss.Some? ==> s.validLoss.value <= s.best
    ensures var fin := RunSteps(s, os, cfg);
      && fin.best >= s.best
      && (fin.validLoss.Some? ==> fin.validLoss.value <= fin.best)
      && (fin.error.None? ==>
            && (forall i :: 0 <= i < |os| && os[i].Updated? ==> "auroc" in os[i].validStats)
            && fin.best == BestFrom(s.best, Aurocs(os))
            && (forall i :: 0 <= i < |os| && os[i].Updated? ==> fin.best >= os[i].validStats["auroc"]))
    decreases |os|
  {
    if os != [] {
      var init := os[..|os| - 1];
      var last := os[|os| - 1];
      EpochBest(s, init, cfg);
      var mid := RunSteps(s, init, cfg);
      var fin := RunSteps(s, os, cfg);
      assert fin == Step(mid, last, cfg);
      StepBest(mid, last, cfg);
      if fin.error.None? {
        assert mid.error.None?;
        assert forall i :: 0 <= i < |init| ==> os[i] == init[i];
        var a := Aurocs(os);
        if last.Updated? {
          assert a == Aurocs(init) + [last.validStats["auroc"]];
          assert a[..|a| - 1] == Aurocs(init);
        } else {
          assert a == Aurocs(init);
        }
      }
    }
  }

  /** One step keeps the tracker's best from going down and the validation
      loss at most the best; a step that updates without raising moves the
      best to the larger of it and the step's AUROC. */
  lemma {:induction false} StepBest(mid: EpochState, o: StepOutcome, cfg: Config)
    requires mid.validLoss.Some? ==> mid.validLoss.value <= mid.best
    ensures var next := Step(mid, o, cfg);
      && next.best >= mid.best
      && (next.validLoss.Some? ==> next.validLoss.value <= next.best)
      && (next.error.None? ==> mid.error.None?)
      && (mid.error.None? && next.error.None? && o.Updated? ==>
            "auroc" in o.validStats && next.best == Max(o.validStats["auroc"], mid.best))
      && (o.Skipped? ==> next.best == mid.best)
  {
  }

  /** How many events of a trace satisfy p. */
  function CountOf(t: seq<Event>, p: Event -> bool): (r: nat)
    ensures r <= |t|
    decreases |t|
  {
    if t == [] then 0 else CountOf(t[..|t| - 1], p) + (if p(t[|t| - 1]) then 1 else 0)
  }

  lemma {:induction false} CountOfAppend(a: seq<Event>, b: seq<Event>, p: Event -> bool)
    ensures CountOf(a + b, p) == CountOf(a, p) + CountOf(b, p)
    decreases |b|
  {
    if b == [] {
      assert a + b == a;
    } else {
      assert (a + b)[..|a + b| - 1] == a + b[..|b| - 1];
      CountOfAppend(a, b[..|b| - 1], p);
    }
  }

  predicate IsSave(e: Event) { e.SaveCheckpoint? }
  predicate IsTrainLog(e: Event) { e.LogTrainInner? }
  predicate IsBarrier(e: Event) { e == Barrier }

  /** The updates whose count is a multiple of the log interval. */
  function LoggedUpdates(os: seq<StepOutcome>, logInterval: int): nat
    requires logInterval != 0
    decreases |os|
  {
    if os == [] then 0
    else
      var last := os[|os| - 1];
      LoggedUpdates(os[..|os| - 1], logInterval) + (if last.Updated? && last.numUpdates % logInterval == 0 then 1 else 0)
  }

  /** What one step that did not raise adds to the counts. */
  lemma {:induction false} StepCounts(mid: EpochState, o: StepOutcome, cfg: Config)
    requires mid.error.None? && cfg.logInterval != 0 && o.Updated?
    requires Step(mid, o, cfg).error.None?
    ensures var t := Step(mid, o, cfg).trace;
      CountOf(t, IsSave) == CountOf(mid.trace, IsSave) + 1
      && CountOf(t, IsBarrier) == CountOf(mid.trace, IsBarrier) + (if cfg.distributed then 1 else 0)
      && CountOf(t, IsTrainLog) == CountOf(mid.trace, IsTrainLog) + (if o.numUpdates % cfg.logInterval == 0 then 1 else 0)
  {
    var n := o.numUpdates;
    var fin := Step(mid, o, cfg);
    var logged: seq<Event> := if n % cfg.logInterval == 0 then [LogTrainInner(n), ResetTrainInner] else [];
    var block := [PrintValid(ValidStats(o.validStats, n, fin.best), n), SaveCheckpoint(cfg.epoch, o.validStats["auroc"])]
      + BarrierEvents(cfg.distributed);
    assert fin.trace == mid.trace + logged + block;
    CountOfAppend(mid.trace + logged, block, IsSave);
    CountOfAppend(mid.trace, logged, IsSave);
    CountOfAppend(mid.trace + logged, block, IsBarrier);
    CountOfAppend(mid.trace, logged, IsBarrier);
    CountOfAppend(mid.trace + logged, block, IsTrainLog);
    CountOfAppend(mid.trace, logged, IsTrainLog);
    BlockCounts(block, ValidStats(o.validStats, n, fin.best), n, cfg.epoch, o.validStats["auroc"], cfg.distributed);
    assert CountOf(logged, IsTrainLog) == if n % cfg.logInterval == 0 then 1 else 0 by {
      if n % cfg.logInterval == 0 {
        assert logged[..1] == [LogTrainInner(n)];
      }
    }
  }

  lemma {:induction false} BlockCounts(block: seq<Event>, stats: map<string, real>, n: int, epoch: int, loss: real, distributed: bool)
    requires block == [PrintValid(stats, n), SaveCheckpoint(epoch, loss)] + BarrierEvents(distributed)
    ensures CountOf(block, IsSave) == 1 && CountOf(block, IsTrainLog) == 0
    ensures CountOf(block, IsBarrier) == if distributed then 1 else 0
  {
    var pair := [PrintValid(stats, n), SaveCheckpoint(epoch, loss)];
    assert pair[..1] == [PrintValid(stats, n)];
    assert [PrintValid(stats, n)][..0] == [];
    CountOfAppend(pair, BarrierEvents(distributed), IsSave);
    CountOfAppend(pair, BarrierEvents(distributed), IsTrainLog);
    CountOfAppend(pair, BarrierEvents(distributed), IsBarrier);
    if distributed {
      assert [Barrier][..0] == [];
    }
  }

  /** Over an epoch that did not raise: one checkpoint per update, one barrier
      per update when distributed and none otherwise, and one mid-epoch log per
      update whose count is a multiple of the log interval. */
  lemma {:induction false} EpochCounts(s: EpochState, os: seq<StepOutcome>, cfg: Config)
    requires s.error.None? && cfg.logInterval != 0
    ensures var fin := RunSteps(s, os, cfg);
      fin.error.None? ==>
        CountOf(fin.trace, IsSave) == CountOf(s.trace, IsSave) + |Updates(os)|
        && CountOf(fin.trace, IsBarrier) == CountOf(s.trace, IsBarrier) + (if cfg.distributed then |Updates(os)| else 0)
        && CountOf(fin.trace, IsTrainLog) == CountOf(s.trace, IsTrainLog) + LoggedUpdates(os, cfg.logInterval)
    decreases |os|
  {
    if os != [] {
      var init := os[..|os| - 1];
      var last := os[|os| - 1];
      EpochCounts(s, init, cfg);
      var mid := RunSteps(s, init, cfg);
      if RunSteps(s, os, cfg).error.None? && last.Updated? {
        StepCounts(mid, last, cfg);
      }
    }
  }

  /** How consecutive events relate: a mid-epoch log is always followed by
      the reset of its meters and that reset only follows such a log; the
      printed validation stats are always followed by a checkpoint and a
      checkpoint only follows them; a barrier follows a checkpoint exactly
      when running distributed, and nothing else precedes a barrier. */
  predicate Adjacent(a: Event, b: Event, distributed: bool) {
    (a.LogTrainInner? <==> b == ResetTrainInner)
    && (a.PrintValid? <==> b.SaveCheckpoint?)
    && (a.SaveCheckpoint? && distributed <==> b == Barrier)
  }

  /** An event that must be followed by another. */
  predicate Opens(e: Event, distributed: bool) {
    e.LogTrainInner? || e.PrintValid? || (e.SaveCheckpoint? && distributed)
  }

  /** An event that must follow another. */
  predicate Closes(e: Event) {
    e == ResetTrainInner || e.SaveCheckpoint? || e == Barrier
  }

  /** The order train promises for its calls: every adjacent pair relates
      as Adjacent says, the trace does not start in the middle of a group
      and does not end with a group left open. */
  predicate WellOrdered(t: seq<Event>, distributed: bool) {
    (forall i :: 1 <= i < |t| ==> Adjacent(t[i - 1], t[i], distributed))
    && (|t| > 0 ==> !Closes(t[0]) && !Opens(t[|t| - 1], distributed))
  }

  lemma {:induction false} ConcatOrdered(a: seq<Event>, b: seq<Event>, distributed: bool)
    requires WellOrdered(a, distributed) && WellOrdered(b, distributed)
    ensures WellOrdered(a + b, distributed)
  {
    var t := a + b;
    forall i | 1 <= i < |t|
      ensures Adjacent(t[i - 1], t[i], distributed)
    {
      if i < |a| {
        assert t[i - 1] == a[i - 1] && t[i] == a[i];
      } else if i == |a| {
        assert t[i - 1] == a[|a| - 1] && t[i] == b[0];
      } else {
        assert t[i - 1] == b[i - 1 - |a|] && t[i] == b[i - |a|];
      }
    }
  }

  /** The periodic log and its meter reset are in order on their own. */
  lemma {:induction false} LogBlockOrdered(n: int, distributed: bool)
    ensures WellOrdered([LogTrainInner(n), ResetTrainInner], distributed)
  {
    var t := [LogTrainInner(n), ResetTrainInner];
    assert t[0] == LogTrainInner(n) && t[1] == ResetTrainInner;
  }

  /** The validation stats, the checkpoint and the barrier are in order on
      their own. */
  lemma {:induction false} ValidBlockOrdered(stats: map<string, real>, n: int, epoch: int, loss: real, distributed: bool)
    ensures WellOrdered([PrintValid(stats, n), SaveCheckpoint(epoch, loss)] + BarrierEvents(distributed), distributed)
  {
    var t := [PrintValid(stats, n), SaveCheckpoint(epoch, loss)] + BarrierEvents(distributed);
    assert t[0] == PrintValid(stats, n) && t[1] == SaveCheckpoint(epoch, loss);
    assert distributed ==> |t| == 3 && t[2] == Barrier;
  }

  /** Each step keeps the trace in the promised order. */
  lemma {:induction false} StepOrdered(s: EpochState, o: StepOutcome, cfg: Config)
    requires WellOrdered(s.trace, cfg.distributed)
    ensures WellOrdered(Step(s, o, cfg).trace, cfg.distributed)
  {
    if s.error.None? && o.Updated? && cfg.logInterval != 0 {
      var n := o.numUpdates;
      var d := cfg.distributed;
      var logged: seq<Event> := if n % cfg.logInterval == 0 then [LogTrainInner(n), ResetTrainInner] else [];
      assert WellOrdered(logged, d) by {
        if n % cfg.logInterval == 0 {
          LogBlockOrdered(n, d);
        }
      }
      ConcatOrdered(s.trace, logged, d);
      if "auroc" in o.validStats {
        var best := Max(o.validStats["auroc"], s.best);
        var loss := o.validStats["auroc"];
        var block := [PrintValid(ValidStats(o.validStats, n, best), n), SaveCheckpoint(cfg.epoch, loss)] + BarrierEvents(d);
        ValidBlockOrdered(ValidStats(o.validStats, n, best), n, cfg.epoch, loss, d);
        ConcatOrdered(s.trace + logged, block, d);
        assert Step(s, o, cfg).trace == s.trace + logged + block;
      }
    }
  }

  /** Every epoch's calls come in the promised order, the end-of-epoch ones
      included. */
  lemma {:induction false} EpochOrdered(s: EpochState, os: seq<StepOutcome>, cfg: Config)
    requires WellOrdered(s.trace, cfg.distributed)
    ensures WellOrdered(RunSteps(s, os, cfg).trace, cfg.distributed)
    decreases |os|
  {
    if os != [] {
      EpochOrdered(s, os[..|os| - 1], cfg);
      StepOrdered(RunSteps(s, os[..|os| - 1], cfg), os[|os| - 1], cfg);
    }
  }

  lemma {:induction false} EpochTraceOrdered(startUpdates: int, best: real, os: seq<StepOutcome>, cfg: Config)
    ensures WellOrdered(Epoch(startUpdates, best, os, cfg).0, cfg.distributed)
  {
    var fin := RunSteps(Start(startUpdates, best), os, cfg);
    EpochOrdered(Start(startUpdates, best), os, cfg);
    if fin.error.None? {
      ConcatOrdered(fin.trace, [PrintTrain(fin.numUpdates), ResetTrain], cfg.distributed);
    }
  }

  /** `num_updates` at the end of the loop is the count the last update
      reported, or the count read before the loop when nothing updated. */
  lemma {:induction false} FinalNumUpdates(s: EpochState, os: seq<StepOutcome>, cfg: Config)
    requires s.error.None?
    ensures var fin := RunSteps(s, os, cfg);
      fin.error.None? ==>
        ((forall i :: 0 <= i < |os| ==> os[i].Skipped?) ==> fin.numUpdates == s.numUpdates)
        && (forall i :: 0 <= i < |os| && os[i].Updated? && (forall j :: i < j < |os| ==> os[j].Skipped?) ==>
              fin.numUpdates == os[i].numUpdates)
    decreases |os|
  {
    if os != [] {
      var init := os[..|os| - 1];
      FinalNumUpdates(s, init, cfg);
      assert forall i :: 0 <= i < |init| ==> os[i] == init[i];
    }
  }

  // ---------------------------------------------------------------------------
  // main: the epoch loop
  // ---------------------------------------------------------------------------

  /** The loop of main as written: `epoch_idx` starts at 1 and the guard is
      `epoch_idx <= max_epoch`, but the body never changes `epoch_idx`. The
      epochs train is called with are recorded; `fuel` bounds how many
      iterations are run, and `finished` says whether the guard became false
      within them. */
  method EpochLoopAsWritten(maxEpoch: int, fuel: nat) returns (epochs: seq<int>, finished: bool)
    ensures maxEpoch >= 1 ==> !finished && |epochs| == fuel && forall i :: 0 <= i < |epochs| ==> epochs[i] == 1
    ensures maxEpoch < 1 ==> finished && epochs == []
  {
    var epochIdx := 1;
    epochs := [];
    var remaining := fuel;
    while epochIdx <= maxEpoch && remaining > 0
      invariant 0 <= remaining <= fuel
      invariant epochIdx == 1
      invariant maxEpoch >= 1 ==> |epochs| == fuel - remaining && forall i :: 0 <= i < |epochs| ==> epochs[i] == 1
      invariant maxEpoch < 1 ==> epochs == []
    {
      epochs := epochs + [epochIdx];
      remaining := remaining - 1;
    }
    finished := !(epochIdx <= maxEpoch);
  }

  /** The loop as intended: each epoch from 1 to `max_epoch` is trained once,
      in order. */
  method EpochLoop(maxEpoch: int) returns (epochs: seq<int>)
    ensures |epochs| == if maxEpoch < 0 then 0 else maxEpoch
    ensures forall i :: 0 <= i < |epochs| ==> epochs[i] == i + 1
  {
    var epochIdx := 1;
    epochs := [];
    while epochIdx <= maxEpoch
      invariant 1 <= epochIdx && (maxEpoch >= 0 ==> epochIdx <= maxEpoch + 1) && (maxEpoch < 1 ==> epochIdx == 1)
      invariant |epochs| == epochIdx - 1
      invariant forall i :: 0 <= i < |epochs| ==> epochs[i] == i + 1
      decreases maxEpoch - epochIdx
    {
      epochs := epochs + [epochIdx];
      epochIdx := epochIdx + 1;
    }
  }
}
