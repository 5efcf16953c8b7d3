/**
 * The bookkeeping of train_model: per-phase accuracy, the optimizer step
 * schedule under gradient accumulation, the best-validation snapshot with
 * the files it writes, and the validation accuracy history.
 *
 * Model weights are opaque values of a type parameter W; the weights the
 * model holds at the end of epoch e's training phase are weightsAt(e).
 * Loss values, gradients and the file contents are not modelled: a save is
 * an event naming its path and what it stores.
 */
module Training {
  import opened Errors
  import opened Masking
  import opened Paths
  import opened Tensors

  datatype Phase = Train | Val

  /** running_corrects.double() / running_foreground: a ratio, or NaN for 0 / 0. */
  datatype Accuracy = Acc(value: real) | NaN

  /** The epoch accuracy of a phase's totals. */
  function EpochAccuracy(s: Stats): (a: Accuracy)
    ensures a.NaN? <==> s.foreground == 0
    ensures a.Acc? && s.corrects <= s.foreground ==> 0.0 <= a.value <= 1.0
  {
    if s.foreground == 0 then NaN else Acc(s.corrects as real / s.foreground as real)
  }

  /** epoch_acc > best_acc; a comparison with NaN is false. */
  predicate Improves(acc: Accuracy, best: real) {
    acc.Acc? && acc.value > best
  }

  /** A batch list that train_model can run: every batch has consistent shapes. */
  predicate ValidBatches(batches: seq<Batch>) {
    forall k :: 0 <= k < |batches| ==> batches[k].Valid()
  }

  /** The statistics of each batch, in order. */
  function BatchResults(batches: seq<Batch>): (r: seq<Result<Stats>>)
    requires ValidBatches(batches)
    ensures |r| == |batches|
    decreases |batches|
  {
    if |batches| == 0 then []
    else BatchResults(batches[..|batches| - 1]) + [BatchStats(batches[|batches| - 1])]
  }

  /** Entry k is the statistics of batch k. */
  lemma {:induction false} BatchResultsAt(batches: seq<Batch>, k: nat)
    requires ValidBatches(batches) && k < |batches|
    ensures BatchResults(batches)[k] == BatchStats(batches[k])
    decreases |batches|
  {
    var n := |batches| - 1;
    if k < n {
      BatchResultsAt(batches[..n], k);
    }
  }

  /** running_corrects and running_foreground after a run of batch results, or the first failure. */
  function Totals(results: seq<Result<Stats>>): Result<Stats>
    decreases |results|
  {
    if |results| == 0 then Ok(Stats(0, 0))
    else
      var n := |results| - 1;
      var before := Totals(results[..n]);
      if before.Err? then before
      else
        match results[n]
        case Err(e) => Err(e)
        case Ok(s) => Ok(Stats(before.value.corrects + s.corrects, before.value.foreground + s.foreground))
  }

  /**
   * The totals succeed exactly when every batch does; a failure is that of the
   * first failing batch; the sums keep corrects <= foreground when every batch does.
   */
  lemma {:induction false} TotalsSpec(results: seq<Result<Stats>>)
    ensures Totals(results).Ok? <==> forall k :: 0 <= k < |results| ==> results[k].Ok?
    ensures Totals(results).Err? ==>
      exists k :: 0 <= k < |results| && results[k] == Totals(results) && forall m :: 0 <= m < k ==> results[m].Ok?
    ensures (forall k :: 0 <= k < |results| && results[k].Ok? ==> results[k].value.corrects <= results[k].value.foreground) ==>
      Totals(results).Ok? ==> Totals(results).value.corrects <= Totals(results).value.foreground
    decreases |results|
  {
    if |results| > 0 {
      var n := |results| - 1;
      TotalsSpec(results[..n]);
      assert forall k :: 0 <= k < n ==> results[..n][k] == results[k];
    }
  }

  /** The summed statistics of a phase's batches, or the first batch's failure. */
  function PhaseStats(batches: seq<Batch>): Result<Stats>
    requires ValidBatches(batches)
  {
    Totals(BatchResults(batches))
  }

  /**
   * A phase's statistics fail exactly when some batch fails the shape
   * assertion or the loss, with the error of the first such batch; otherwise
   * corrects <= foreground.
   */
  lemma PhaseStatsSpec(batches: seq<Batch>)
    requires ValidBatches(batches)
    ensures PhaseStats(batches).Ok? <==> forall k :: 0 <= k < |batches| ==> batches[k].Scores()
    ensures PhaseStats(batches).Err? ==>
      exists k :: 0 <= k < |batches| && !batches[k].Scores() && (forall m :: 0 <= m < k ==> batches[m].Scores()) &&
        PhaseStats(batches).error == if batches[k].SameGrid() then TargetOutOfBounds else DimensionMismatch
    ensures PhaseStats(batches).Ok? ==> PhaseStats(batches).value.corrects <= PhaseStats(batches).value.foreground
  {
    var results := BatchResults(batches);
    forall k | 0 <= k < |batches|
      ensures results[k] == BatchStats(batches[k])
    {
      BatchResultsAt(batches, k);
    }
    TotalsSpec(results);
  }

  /**
   * The loop of one phase after its first i batch results: running_corrects
   * and running_foreground, or the error that ended it, a failed shape
   * assertion or loss or, in training with accum_iters == 0, the modulus
   * batch_ind % accum_iters.
   */
  function PhaseRun(phase: Phase, results: seq<Result<Stats>>, accumIters: int, i: nat): Result<Stats>
    requires i <= |results|
    decreases i
  {
    if i == 0 then Ok(Stats(0, 0))
    else
      match PhaseRun(phase, results, accumIters, i - 1)
      case Err(e) => Err(e)
      case Ok(s) =>
        match results[i - 1]
        case Err(e) => Err(e)
        case Ok(b) =>
          if phase == Train && accumIters == 0 then Err(DivisionByZero)
          else Ok(Stats(s.corrects + b.corrects, s.foreground + b.foreground))
  }

  /** One more batch that neither fails nor divides by zero adds its counts to the totals. */
  lemma PhaseRunNext(phase: Phase, results: seq<Result<Stats>>, accumIters: int, i: nat, s: Stats)
    requires i < |results| && PhaseRun(phase, results, accumIters, i) == Ok(s) && results[i].Ok?
    requires phase == Val || accumIters != 0
    ensures PhaseRun(phase, results, accumIters, i + 1) ==
      Ok(Stats(s.corrects + results[i].value.corrects, s.foreground + results[i].value.foreground))
  {
  }

  /** A loop that has stopped stays stopped: the later batches do not change its outcome. */
  lemma {:induction false} PhaseRunStops(phase: Phase, results: seq<Result<Stats>>, accumIters: int, i: nat, j: nat)
    requires i <= j <= |results| && PhaseRun(phase, results, accumIters, i).Err?
    ensures PhaseRun(phase, results, accumIters, j) == PhaseRun(phase, results, accumIters, i)
    decreases j
  {
    if j > i {
      PhaseRunStops(phase, results, accumIters, i, j - 1);
    }
  }

  /** Unless accum_iters == 0 stops a training phase, the loop keeps the totals of the batches so far. */
  lemma {:induction false} PhaseRunTotals(phase: Phase, results: seq<Result<Stats>>, accumIters: int, i: nat)
    requires i <= |results| && (phase == Val || accumIters != 0)
    ensures PhaseRun(phase, results, accumIters, i) == Totals(results[..i])
    decreases i
  {
    if i > 0 {
      PhaseRunTotals(phase, results, accumIters, i - 1);
      assert results[..i][..i - 1] == results[..i - 1];
    }
  }

  /** With accum_iters == 0 a training loop stops at its first batch: at the shape assertion, the loss or the modulus. */
  lemma {:induction false} PhaseRunZeroAccum(results: seq<Result<Stats>>, i: nat)
    requires 1 <= i <= |results|
    ensures PhaseRun(Train, results, 0, i) == Err(if results[0].Ok? then DivisionByZero else results[0].error)
    decreases i
  {
    if i > 1 {
      PhaseRunZeroAccum(results, i - 1);
    }
  }

  /**
   * How many of the first i batches a training loop got through, each up to
   * and including its optimizer step: all i when none of them stopped it,
   * otherwise the number before the batch that did.
   */
  function Completed(results: seq<Result<Stats>>, accumIters: int, i: nat): (r: nat)
    requires i <= |results|
    ensures r <= i
    decreases i
  {
    if i == 0 then 0
    else if PhaseRun(Train, results, accumIters, i).Ok? then i
    else Completed(results, accumIters, i - 1)
  }

  /**
   * The loop got through every batch exactly when it did not stop; otherwise
   * it got through the batches before the first one that stopped it.
   */
  lemma {:induction false} CompletedSpec(results: seq<Result<Stats>>, accumIters: int, i: nat)
    requires i <= |results|
    ensures Completed(results, accumIters, i) == i <==> PhaseRun(Train, results, accumIters, i).Ok?
    ensures PhaseRun(Train, results, accumIters, Completed(results, accumIters, i)).Ok?
    ensures Completed(results, accumIters, i) < i ==>
      PhaseRun(Train, results, accumIters, Completed(results, accumIters, i) + 1).Err?
    decreases i
  {
    if i > 0 && PhaseRun(Train, results, accumIters, i).Err? {
      CompletedSpec(results, accumIters, i - 1);
      var k := Completed(results, accumIters, i - 1);
      if k == i - 1 {
        assert PhaseRun(Train, results, accumIters, k + 1).Err?;
      }
    }
  }

  /** Once batch k has stopped the loop, the loop got through k batches, however many follow. */
  lemma {:induction false} CompletedStops(results: seq<Result<Stats>>, accumIters: int, k: nat, j: nat)
    requires k < j <= |results|
    requires PhaseRun(Train, results, accumIters, k).Ok? && PhaseRun(Train, results, accumIters, k + 1).Err?
    ensures Completed(results, accumIters, j) == k
    decreases j
  {
    if j > k + 1 {
      CompletedStops(results, accumIters, k, j - 1);
      PhaseRunStops(Train, results, accumIters, k + 1, j);
    }
  }

  /** The training batches whose optimizer steps were taken: all of them, or those before the failure. */
  function TrainedBatches(batches: seq<Batch>, accumIters: int): nat
    requires ValidBatches(batches)
  {
    var results := BatchResults(batches);
    Completed(results, accumIters, |results|)
  }

  /** How one phase ends: the loop's error, the division by len(dataset) == 0, or the epoch accuracy. */
  function PhaseOutcome(phase: Phase, batches: seq<Batch>, accumIters: int): Result<Accuracy>
    requires ValidBatches(batches)
  {
    var results := BatchResults(batches);
    match PhaseRun(phase, results, accumIters, |results|)
    case Err(e) => Err(e)
    case Ok(s) => if |batches| == 0 then Err(DivisionByZero) else Ok(EpochAccuracy(s))
  }

  /**
   * A phase succeeds exactly when it has batches, every batch passes the
   * shape assertion and the loss and, in training, accum_iters is not zero;
   * its accuracy is then that of the summed statistics. It fails with a
   * division by zero exactly when it has no batch or is a training phase with
   * accum_iters == 0 whose first batch gets through; otherwise with the error
   * of the first batch that fails.
   */
  lemma PhaseOutcomeSpec(phase: Phase, batches: seq<Batch>, accumIters: int)
    requires ValidBatches(batches)
    ensures PhaseOutcome(phase, batches, accumIters).Ok? <==>
      && |batches| > 0
      && (phase == Train ==> accumIters != 0)
      && forall k :: 0 <= k < |batches| ==> batches[k].Scores()
    ensures PhaseOutcome(phase, batches, accumIters).Ok? ==>
      PhaseStats(batches).Ok? && PhaseOutcome(phase, batches, accumIters).value == EpochAccuracy(PhaseStats(batches).value)
    ensures PhaseOutcome(phase, batches, accumIters).Err? ==>
      && (PhaseOutcome(phase, batches, accumIters).error == DivisionByZero
          || PhaseOutcome(phase, batches, accumIters).error == DimensionMismatch
          || PhaseOutcome(phase, batches, accumIters).error == TargetOutOfBounds)
      && (PhaseOutcome(phase, batches, accumIters).error == DivisionByZero <==>
          |batches| == 0 || (phase == Train && accumIters == 0 && batches[0].Scores()))
    ensures PhaseOutcome(phase, batches, accumIters).Err? && PhaseOutcome(phase, batches, accumIters).error != DivisionByZero ==>
      PhaseStats(batches).Err? && PhaseStats(batches).error == PhaseOutcome(phase, batches, accumIters).error
  {
    var results := BatchResults(batches);
    if phase == Val || accumIters != 0 {
      PhaseRunTotals(phase, results, accumIters, |results|);
      assert results[..|results|] == results;
      PhaseStatsSpec(batches);
    } else if |batches| > 0 {
      PhaseRunZeroAccum(results, |results|);
      BatchResultsAt(batches, 0);
      PhaseStatsSpec(batches);
    }
  }

  /**
   * The loop stops at batch k, whose statistics failed or whose step schedule
   * divides by zero: the phase fails as that batch did, after k batches.
   */
  lemma StoppedAt(phase: Phase, batches: seq<Batch>, accumIters: int, k: nat)
    requires ValidBatches(batches) && k < |batches|
    requires PhaseRun(phase, BatchResults(batches), accumIters, k).Ok?
    requires BatchResults(batches)[k].Err? || (phase == Train && accumIters == 0)
    ensures PhaseOutcome(phase, batches, accumIters) ==
      Err(if BatchResults(batches)[k].Err? then BatchResults(batches)[k].error else DivisionByZero)
    ensures phase == Train ==> TrainedBatches(batches, accumIters) == k
  {
    var results := BatchResults(batches);
    PhaseRunStops(phase, results, accumIters, k + 1, |results|);
    if phase == Train {
      CompletedStops(results, accumIters, k, |results|);
    }
  }

  /** The loop got through every batch: the phase's accuracy, and every training batch took its step. */
  lemma Finished(phase: Phase, batches: seq<Batch>, accumIters: int, s: Stats)
    requires ValidBatches(batches)
    requires PhaseRun(phase, BatchResults(batches), accumIters, |batches|) == Ok(s)
    ensures PhaseOutcome(phase, batches, accumIters) ==
      if |batches| == 0 then Err(DivisionByZero) else Ok(EpochAccuracy(s))
    ensures phase == Train ==> TrainedBatches(batches, accumIters) == |batches|
  {
  }

  /**
   * After batch batchInd the optimizers step when batch_ind % accum_iters == 0,
   * that is, when accum_iters divides batch_ind; Python's floored % and
   * Dafny's Euclidean % agree on that for either sign of accum_iters. With
   * accum_iters == 0 the modulus raises instead, so no step is taken (the
   * phase fails, see PhaseOutcome).
   */
  predicate StepDue(batchInd: nat, accumIters: int) {
    accumIters != 0 && batchInd % accumIters == 0
  }

  /** The indices of the training batches after which the optimizers step. */
  function StepIndices(n: nat, accumIters: int): (r: seq<nat>)
    ensures forall k :: 0 <= k < |r| ==> r[k] < n && StepDue(r[k], accumIters)
    ensures forall k, l :: 0 <= k < l < |r| ==> r[k] < r[l]
    ensures forall i :: 0 <= i < n && StepDue(i, accumIters) ==> i in r
  {
    if n == 0 then []
    else
      var before := StepIndices(n - 1, accumIters);
      if StepDue(n - 1, accumIters) then before + [n - 1] else before
  }

  /** With accum_iters = a >= 1 the steps come after batches 0, a, 2a, ...: ceil(n / a) of them. */
  lemma {:induction false} StepSchedule(n: nat, a: int)
    requires a >= 1
    ensures |StepIndices(n, a)| == (n + a - 1) / a
    ensures forall k :: 0 <= k < |StepIndices(n, a)| ==> StepIndices(n, a)[k] == k * a
  {
    if n > 0 {
      var m := n - 1;
      StepSchedule(m, a);
      CeilStep(m, a);
    }
  }

  /** ceil((m + 1) / a) grows by one exactly when a divides m, and then m is ceil(m / a) times a. */
  lemma CeilStep(m: nat, a: int)
    requires a >= 1
    ensures (m + a) / a == (m + a - 1) / a + (if m % a == 0 then 1 else 0)
    ensures m % a == 0 ==> m == ((m + a - 1) / a) * a
  {
    var q, rem := m / a, m % a;
    assert (q + 1) * a == q * a + a;
    if rem == 0 {
      DivisionUnique(m + a - 1, a, q, a - 1);
      DivisionUnique(m + a, a, q + 1, 0);
    } else {
      DivisionUnique(m + a - 1, a, q + 1, rem - 1);
      DivisionUnique(m + a, a, q + 1, rem);
    }
  }

  datatype Optimizer = Primary | Secondary

  /** What train_model does that outlives it: optimizer steps and files written. */
  datatype Event<W> =
    | Step(optimizer: Optimizer, epoch: nat, batchInd: nat)  // opt.step(); opt.zero_grad()
    | SaveModel(path: string, weights: W)                    // torch.save(model.state_dict(), outfile)
    | SaveOptimizers(path: string, both: bool)               // the optimizer state, or both optimizers' states

  /** One step: the primary optimizer, then f_opt when there is one. */
  function StepEvents<W>(epoch: nat, batchInd: nat, hasSecondary: bool): seq<Event<W>> {
    [Step(Primary, epoch, batchInd)] + if hasSecondary then [Step(Secondary, epoch, batchInd)] else []
  }

  /** The steps taken during the first n batches of a training phase. */
  function StepLog<W>(epoch: nat, n: nat, accumIters: int, hasSecondary: bool): (r: seq<Event<W>>)
  {
    if n == 0 then []
    else
      StepLog(epoch, n - 1, accumIters, hasSecondary)
        + if StepDue(n - 1, accumIters) then StepEvents(epoch, n - 1, hasSecondary) else []
  }

  /**
   * The step log is the step indices in order, each a primary step followed,
   * when f_opt is given, by a secondary step at the same batch.
   */
  lemma {:induction false} StepLogLayout<W>(epoch: nat, n: nat, a: int, hasSecondary: bool)
    ensures !hasSecondary ==> |StepLog<W>(epoch, n, a, hasSecondary)| == |StepIndices(n, a)|
    ensures !hasSecondary ==> forall p :: 0 <= p < |StepLog<W>(epoch, n, a, hasSecondary)| ==>
      StepLog<W>(epoch, n, a, hasSecondary)[p] == Step(Primary, epoch, StepIndices(n, a)[p])
    ensures hasSecondary ==> |StepLog<W>(epoch, n, a, hasSecondary)| == 2 * |StepIndices(n, a)|
    ensures hasSecondary ==> forall p :: 0 <= p < |StepLog<W>(epoch, n, a, hasSecondary)| ==>
      StepLog<W>(epoch, n, a, hasSecondary)[p] ==
        Step(if p % 2 == 0 then Primary else Secondary, epoch, StepIndices(n, a)[p / 2])
  {
    if n > 0 {
      StepLogLayout<W>(epoch, n - 1, a, hasSecondary);
    }
  }

  /** The files written when the validation accuracy improves: the model, then the optimizer state. */
  function SaveEvents<W>(outfile: Option<string>, hasSecondary: bool, weights: W): (r: seq<Event<W>>)
    ensures outfile.None? <==> r == []
    ensures LastSaved(r) == if outfile.Some? then Some(weights) else None
  {
    match outfile
    case None => []
    case Some(path) =>
      var saves := [SaveModel(path, weights), SaveOptimizers(OptPath(path), hasSecondary)];
      assert saves[..1] == [SaveModel(path, weights)];
      saves
  }

  /** best_acc and the epoch whose weights best_model_wts holds (None: the initial weights). */
  datatype Best = Best(acc: real, epoch: Option<nat>)

  /** The snapshot after a history of validation accuracies: start at 0.0, replace on strict improvement. */
  function Snapshot(history: seq<Accuracy>): (r: Best)
    ensures r.epoch.Some? ==> r.epoch.value < |history|
    decreases |history|
  {
    if |history| == 0 then Best(0.0, None)
    else
      var n := |history| - 1;
      var before := Snapshot(history[..n]);
      if Improves(history[n], before.acc) then Best(history[n].value, Some(n)) else before
  }

  /**
   * best_acc is max(0.0, the largest validation accuracy); it is 0.0 exactly
   * when no epoch beat 0.0, and otherwise it is the accuracy of the first
   * epoch that reached it, whose weights best_model_wts holds.
   */
  lemma {:induction false} SnapshotIsBest(history: seq<Accuracy>)
    ensures Snapshot(history).acc >= 0.0
    ensures forall e :: 0 <= e < |history| && history[e].Acc? ==> history[e].value <= Snapshot(history).acc
    ensures Snapshot(history).epoch.None? ==> Snapshot(history).acc == 0.0
    ensures Snapshot(history).epoch.Some? ==>
      history[Snapshot(history).epoch.value] == Acc(Snapshot(history).acc) && Snapshot(history).acc > 0.0
    ensures Snapshot(history).epoch.Some? ==> forall e :: 0 <= e < Snapshot(history).epoch.value && history[e].Acc? ==>
      history[e].value < Snapshot(history).acc
    decreases |history|
  {
    if |history| > 0 {
      var n := |history| - 1;
      SnapshotIsBest(history[..n]);
      assert forall e :: 0 <= e < n ==> history[..n][e] == history[e];
    }
  }

  /** best_acc never decreases from one epoch to a later one. */
  lemma {:induction false} SnapshotMonotone(history: seq<Accuracy>, k: nat)
    requires k <= |history|
    ensures Snapshot(history[..k]).acc <= Snapshot(history).acc
    decreases |history|
  {
    if k < |history| {
      var n := |history| - 1;
      assert history[..n][..k] == history[..k];
      SnapshotMonotone(history[..n], k);
    } else {
      assert history[..k] == history;
    }
  }

  /** The weights of the best snapshot: those of its epoch, or the initial ones. */
  function BestWeights<W>(history: seq<Accuracy>, weights: seq<W>, initial: W): (r: W)
    requires |weights| == |history|
    ensures Snapshot(history).epoch.None? ==> r == initial
    ensures Snapshot(history).epoch.Some? ==> r == weights[Snapshot(history).epoch.value]
  {
    match Snapshot(history).epoch
    case None => initial
    case Some(e) => weights[e]
  }

  /**
   * best_model_wts in terms of the history alone: the initial copy when no
   * validation accuracy is above 0.0, otherwise the weights of the first epoch
   * whose accuracy is positive and at least every accuracy of the history.
   */
  lemma BestWeightsChosen<W>(history: seq<Accuracy>, weights: seq<W>, initial: W)
    requires |weights| == |history|
    ensures (forall e :: 0 <= e < |history| && history[e].Acc? ==> history[e].value <= 0.0) ==>
      BestWeights(history, weights, initial) == initial
    ensures (exists e :: 0 <= e < |history| && history[e].Acc? && history[e].value > 0.0) ==>
      exists e :: 0 <= e < |history| && BestWeights(history, weights, initial) == weights[e]
        && history[e].Acc? && history[e].value > 0.0
        && (forall m :: 0 <= m < |history| && history[m].Acc? ==> history[m].value <= history[e].value)
        && (forall m :: 0 <= m < e && history[m].Acc? ==> history[m].value < history[e].value)
  {
    SnapshotIsBest(history);
  }


  /** The weights weightsAt(0), ..., weightsAt(n - 1). */
  function WeightsUpTo<W>(weightsAt: nat -> W, n: nat): (r: seq<W>)
    ensures |r| == n
    ensures forall e :: 0 <= e < n ==> r[e] == weightsAt(e)
  {
    if n == 0 then [] else WeightsUpTo(weightsAt, n - 1) + [weightsAt(n - 1)]
  }

  /** The weights carried by the last SaveModel event, if any. */
  function LastSaved<W>(log: seq<Event<W>>): Option<W>
    decreases |log|
  {
    if |log| == 0 then None
    else
      var n := |log| - 1;
      if log[n].SaveModel? then Some(log[n].weights) else LastSaved(log[..n])
  }

  /** A step log writes no model file. */
  lemma {:induction false} StepLogSavesNothing<W>(epoch: nat, n: nat, a: int, hasSecondary: bool)
    ensures LastSaved(StepLog<W>(epoch, n, a, hasSecondary)) == None
  {
    if n > 0 {
      StepLogSavesNothing<W>(epoch, n - 1, a, hasSecondary);
      var due: seq<Event<W>> := if StepDue(n - 1, a) then StepEvents(epoch, n - 1, hasSecondary) else [];
      LastSavedAppend(StepLog<W>(epoch, n - 1, a, hasSecondary), due);
      if StepDue(n - 1, a) {
        StepEventsSaveNothing<W>(epoch, n - 1, hasSecondary);
      }
    }
  }

  /** The events of one optimizer step write no model file. */
  lemma StepEventsSaveNothing<W>(epoch: nat, batchInd: nat, hasSecondary: bool)
    ensures LastSaved(StepEvents<W>(epoch, batchInd, hasSecondary)) == None
  {
    var events := StepEvents<W>(epoch, batchInd, hasSecondary);
    var first: seq<Event<W>> := [Step(Primary, epoch, batchInd)];
    assert first[..0] == [];
    assert LastSaved(first) == None;
    if hasSecondary {
      assert events[..1] == first;
    } else {
      assert events == first;
    }
  }

  /** Appending events without a model save keeps the last saved weights; one with a save replaces them. */
  lemma {:induction false} LastSavedAppend<W>(log: seq<Event<W>>, more: seq<Event<W>>)
    ensures LastSaved(log + more) == if LastSaved(more).Some? then LastSaved(more) else LastSaved(log)
    decreases |more|
  {
    if |more| == 0 {
      assert log + more == log;
    } else {
      var n := |more| - 1;
      assert (log + more)[..|log| + n] == log + more[..n];
      LastSavedAppend(log, more[..n]);
    }
  }

  /** What train_model is given besides the data: outfile, whether f_opt exists, and accum_iters. */
  datatype Settings = Settings(outfile: Option<string>, hasSecondary: bool, accumIters: int)

  /**
   * What one epoch came to: how its training phase ended, how many training
   * batches got through to their optimizer step, how its validation phase
   * ended, and the weights the model held during validation.
   */
  datatype EpochResult<W> = EpochResult(train: Result<Accuracy>, trainBatches: nat, val: Result<Accuracy>, weights: W)

  /**
   * A run so far: the validation accuracy history, the events in order, and
   * the error that ended it, if one did.
   */
  datatype Run<W> = Run(history: seq<Accuracy>, log: seq<Event<W>>, failure: Option<Error>)

  /**
   * One more epoch: nothing after a failure; otherwise the training steps,
   * then the failure of either phase, or the accuracy and, on improvement,
   * the snapshot files.
   */
  function EpochStep<W>(settings: Settings, run: Run<W>, e: nat, epoch: EpochResult<W>): (r: Run<W>)
    ensures run.failure.Some? ==> r == run
    ensures run.failure.None? ==>
      r.failure == if epoch.train.Err? then Some(epoch.train.error)
                   else if epoch.val.Err? then Some(epoch.val.error) else None
  {
    if run.failure.Some? then run
    else
      var steps := StepLog<W>(e, epoch.trainBatches, settings.accumIters, settings.hasSecondary);
      match epoch.train
      case Err(err) => Run(run.history, run.log + steps, Some(err))
      case Ok(_) =>
        match epoch.val
        case Err(err) => Run(run.history, run.log + steps, Some(err))
        case Ok(acc) =>
          var saves := if Improves(acc, Snapshot(run.history).acc)
            then SaveEvents(settings.outfile, settings.hasSecondary, epoch.weights) else [];
          Run(run.history + [acc], run.log + steps + saves, None)
  }

  /** The epochs in order, each a training phase and then a validation phase, up to the first failure. */
  function RunEpochs<W>(settings: Settings, epochs: seq<EpochResult<W>>): (r: Run<W>)
    ensures |r.history| <= |epochs|
    ensures r.failure.None? ==> |r.history| == |epochs|
    decreases |epochs|
  {
    if |epochs| == 0 then Run([], [], None)
    else
      var e := |epochs| - 1;
      EpochStep(settings, RunEpochs(settings, epochs[..e]), e, epochs[e])
  }

  /** Running one more epoch is one more EpochStep. */
  lemma RunEpochsSnoc<W>(settings: Settings, epochs: seq<EpochResult<W>>, epoch: EpochResult<W>)
    ensures RunEpochs(settings, epochs + [epoch]) == EpochStep(settings, RunEpochs(settings, epochs), |epochs|, epoch)
  {
    assert (epochs + [epoch])[..|epochs|] == epochs;
  }

  /**
   * A run without failure passed every phase, and its history holds each
   * epoch's validation accuracy, one entry per epoch in order.
   */
  lemma {:induction false} RunHistory<W>(settings: Settings, epochs: seq<EpochResult<W>>)
    requires RunEpochs(settings, epochs).failure.None?
    ensures forall e :: 0 <= e < |epochs| ==> epochs[e].train.Ok?
    ensures forall e :: 0 <= e < |epochs| ==> epochs[e].val == Ok(RunEpochs(settings, epochs).history[e])
    decreases |epochs|
  {
    if |epochs| > 0 {
      var e := |epochs| - 1;
      var prefix := epochs[..e];
      var before := RunEpochs(settings, prefix);
      assert before.failure.None?;
      RunHistory(settings, prefix);
      var history := RunEpochs(settings, epochs).history;
      assert history == before.history + [epochs[e].val.value];
      forall k | 0 <= k < |epochs|
        ensures epochs[k].train.Ok?
        ensures epochs[k].val == Ok(history[k])
      {
        if k < e {
          assert epochs[k] == prefix[k];
          assert history[k] == before.history[k];
        }
      }
    }
  }

  /** A failure ends the run: the epochs after it change nothing, neither the history nor the events. */
  lemma {:induction false} FailureIsFinal<W>(settings: Settings, epochs: seq<EpochResult<W>>, k: nat)
    requires k <= |epochs|
    requires RunEpochs(settings, epochs[..k]).failure.Some?
    ensures RunEpochs(settings, epochs) == RunEpochs(settings, epochs[..k])
    decreases |epochs|
  {
    if k < |epochs| {
      var e := |epochs| - 1;
      var prefix := epochs[..e];
      assert prefix[..k] == epochs[..k];
      FailureIsFinal(settings, prefix, k);
    } else {
      assert epochs[..k] == epochs;
    }
  }

  /**
   * The model file last written holds the weights of the best snapshot, and
   * none is written while nothing beat 0.0; this holds of a failed run too.
   */
  lemma {:induction false} LastSaveIsBest<W>(settings: Settings, epochs: seq<EpochResult<W>>)
    requires settings.outfile.Some?
    ensures var run := RunEpochs(settings, epochs);
      LastSaved(run.log) == match Snapshot(run.history).epoch
        case None => None
        case Some(e) => Some(epochs[e].weights)
    decreases |epochs|
  {
    if |epochs| > 0 {
      var e := |epochs| - 1;
      var prefix := epochs[..e];
      LastSaveIsBest(settings, prefix);
      var before := RunEpochs(settings, prefix);
      var run := RunEpochs(settings, epochs);
      if Snapshot(before.history).epoch.Some? {
        assert epochs[Snapshot(before.history).epoch.value] == prefix[Snapshot(before.history).epoch.value];
      }
      if before.failure.None? {
        var steps := StepLog<W>(e, epochs[e].trainBatches, settings.accumIters, settings.hasSecondary);
        StepLogSavesNothing<W>(e, epochs[e].trainBatches, settings.accumIters, settings.hasSecondary);
        LastSavedAppend(before.log, steps);
        if epochs[e].train.Ok? && epochs[e].val.Ok? {
          var acc := epochs[e].val.value;
          var saves := if Improves(acc, Snapshot(before.history).acc)
            then SaveEvents(settings.outfile, settings.hasSecondary, epochs[e].weights) else [];
          assert run == Run(before.history + [acc], before.log + steps + saves, None);
          LastSavedAppend(before.log + steps, saves);
          assert run.history[..e] == before.history;
        }
      }
    }
  }

  /** A step log holds optimizer steps only. */
  lemma {:induction false} StepLogOnlySteps<W>(epoch: nat, n: nat, a: int, hasSecondary: bool)
    ensures forall p :: 0 <= p < |StepLog<W>(epoch, n, a, hasSecondary)| ==> StepLog<W>(epoch, n, a, hasSecondary)[p].Step?
  {
    if n > 0 {
      StepLogOnlySteps<W>(epoch, n - 1, a, hasSecondary);
    }
  }

  /** Without an outfile nothing is ever saved: every event of a run is an optimizer step. */
  lemma {:induction false} NoOutfileNoSaves<W>(settings: Settings, epochs: seq<EpochResult<W>>)
    requires settings.outfile.None?
    ensures forall p :: 0 <= p < |RunEpochs(settings, epochs).log| ==> RunEpochs(settings, epochs).log[p].Step?
    decreases |epochs|
  {
    if |epochs| > 0 {
      var e := |epochs| - 1;
      var before := RunEpochs(settings, epochs[..e]);
      NoOutfileNoSaves(settings, epochs[..e]);
      if before.failure.None? {
        var steps := StepLog<W>(e, epochs[e].trainBatches, settings.accumIters, settings.hasSecondary);
        StepLogOnlySteps<W>(e, epochs[e].trainBatches, settings.accumIters, settings.hasSecondary);
        var log := RunEpochs(settings, epochs).log;
        assert log == before.log + steps;
        forall p | 0 <= p < |log|
          ensures log[p].Step?
        {
          if p >= |before.log| {
            assert log[p] == steps[p - |before.log|];
          }
        }
      }
    }
  }

  /** The data loaders: the batches of each phase of each epoch. */
  ghost predicate ValidData(data: (nat, Phase) -> seq<Batch>) {
    forall e: nat, p: Phase :: ValidBatches(data(e, p))
  }

  /** Epoch e as train_model meets it: both phases over the loaders' batches, and the weights after training. */
  function EpochOf<W>(data: (nat, Phase) -> seq<Batch>, weightsAt: nat -> W, accumIters: int, e: nat): (r: EpochResult<W>)
    requires ValidData(data)
  {
    EpochResult(PhaseOutcome(Train, data(e, Train), accumIters), TrainedBatches(data(e, Train), accumIters),
                PhaseOutcome(Val, data(e, Val), accumIters), weightsAt(e))
  }

  /** Every epoch of a run, by its number. */
  function EpochAt<W>(data: (nat, Phase) -> seq<Batch>, weightsAt: nat -> W, accumIters: int): nat -> EpochResult<W>
    requires ValidData(data)
  {
    (e: nat) => EpochOf(data, weightsAt, accumIters, e)
  }

  /** Epochs 0 .. n - 1. */
  function EpochsOf<W>(epochAt: nat -> EpochResult<W>, n: nat): (r: seq<EpochResult<W>>)
    ensures |r| == n
    decreases n
  {
    if n == 0 then [] else EpochsOf(epochAt, n - 1) + [epochAt(n - 1)]
  }

  /** Epoch e of a run comes after epochs 0 .. e - 1. */
  lemma NextEpoch<W>(settings: Settings, data: (nat, Phase) -> seq<Batch>, weightsAt: nat -> W, e: nat)
    requires ValidData(data)
    ensures var epochAt := EpochAt(data, weightsAt, settings.accumIters);
      RunEpochs(settings, EpochsOf(epochAt, e + 1)) ==
        EpochStep(settings, RunEpochs(settings, EpochsOf(epochAt, e)), e,
                  EpochResult(PhaseOutcome(Train, data(e, Train), settings.accumIters),
                              TrainedBatches(data(e, Train), settings.accumIters),
                              PhaseOutcome(Val, data(e, Val), settings.accumIters), weightsAt(e)))
  {
    var epochAt := EpochAt(data, weightsAt, settings.accumIters);
    RunEpochsSnoc(settings, EpochsOf(epochAt, e), epochAt(e));
  }

  /** The state train_model keeps across epochs. */
  class TrainingState<W> {
    var valAccHistory: seq<Accuracy>
    var bestAcc: real
    var bestWeights: W
    var log: seq<Event<W>>
    ghost var valWeights: seq<W>
    ghost const initialWeights: W
    const settings: Settings

    /** best_acc and best_model_wts are the snapshot of the history so far. */
    ghost predicate Valid()
      reads this
    {
      && |valWeights| == |valAccHistory|
      && bestAcc == Snapshot(valAccHistory).acc
      && bestWeights == BestWeights(valAccHistory, valWeights, initialWeights)
    }

    /** Lines 180-183: an empty history, best_acc = 0.0 and a copy of the initial weights. */
    constructor(initialWeights: W, settings: Settings)
      ensures Valid()
      ensures valAccHistory == [] && valWeights == [] && log == []
      ensures bestAcc == 0.0 && bestWeights == initialWeights
      ensures this.initialWeights == initialWeights && this.settings == settings
    {
      valAccHistory := [];
      bestAcc := 0.0;
      bestWeights := initialWeights;
      log := [];
      valWeights := [];
      this.initialWeights := initialWeights;
      this.settings := settings;
    }

    /**
     * The optimizer step after a training batch: every accum_iters batches,
     * the primary optimizer steps, and the secondary one with it if there is one.
     */
    method StepOptimizers(epoch: nat, batchInd: nat, ghost before: seq<Event<W>>)
      requires settings.accumIters != 0
      requires log == before + StepLog(epoch, batchInd, settings.accumIters, settings.hasSecondary)
      modifies this`log
      ensures log == before + StepLog(epoch, batchInd + 1, settings.accumIters, settings.hasSecondary)
    {
      ghost var due := if StepDue(batchInd, settings.accumIters)
        then StepEvents<W>(epoch, batchInd, settings.hasSecondary) else [];
      if batchInd % settings.accumIters == 0 {
        log := log + StepEvents(epoch, batchInd, settings.hasSecondary);
      }
      assert log == before + (StepLog(epoch, batchInd, settings.accumIters, settings.hasSecondary) + due);
    }

    /**
     * One phase over its batches: the statistics of every batch and, in the
     * training phase, an optimizer step after each batch whose index is a
     * multiple of accum_iters.
     */
    method RunPhase(epoch: nat, phase: Phase, batches: seq<Batch>) returns (r: Result<Accuracy>)
      requires ValidBatches(batches)
      modifies this`log
      ensures r == PhaseOutcome(phase, batches, settings.accumIters)
      ensures phase == Train ==>
        log == old(log) + StepLog(epoch, TrainedBatches(batches, settings.accumIters), settings.accumIters, settings.hasSecondary)
      ensures phase == Val ==> log == old(log)
    {
      ghost var results := BatchResults(batches);
      var corrects: nat, foreground: nat := 0, 0;
      var batchInd := 0;
      while batchInd < |batches|
        invariant 0 <= batchInd <= |batches|
        invariant PhaseRun(phase, results, settings.accumIters, batchInd) == Ok(Stats(corrects, foreground))
        invariant phase == Train ==> log == old(log) + StepLog(epoch, batchInd, settings.accumIters, settings.hasSecondary)
        invariant phase == Val ==> log == old(log)
        decreases |batches| - batchInd
      {
        var stats := BatchStats(batches[batchInd]);
        BatchResultsAt(batches, batchInd);
        if stats.Err? {
          StoppedAt(phase, batches, settings.accumIters, batchInd);
          return Err(stats.error);
        }
        if phase == Train {
          if settings.accumIters == 0 {
            StoppedAt(phase, batches, settings.accumIters, batchInd);
            return Err(DivisionByZero);
          }
          StepOptimizers(epoch, batchInd, old(log));
        }
        PhaseRunNext(phase, results, settings.accumIters, batchInd, Stats(corrects, foreground));
        corrects := corrects + stats.value.corrects;
        foreground := foreground + stats.value.foreground;
        batchInd := batchInd + 1;
      }
      Finished(phase, batches, settings.accumIters, Stats(corrects, foreground));
      if |batches| == 0 {
        return Err(DivisionByZero);
      }
      r := Ok(EpochAccuracy(Stats(corrects, foreground)));
    }

    /**
     * The end of a validation phase: on strict improvement, take the snapshot
     * and write the model and optimizer files; then record the accuracy.
     */
    method EndValPhase(acc: Accuracy, weights: W)
      requires Valid()
      modifies this
      ensures Valid()
      ensures valAccHistory == old(valAccHistory) + [acc] && valWeights == old(valWeights) + [weights]
      ensures bestAcc >= old(bestAcc)
      ensures Improves(acc, old(bestAcc)) ==>
        bestAcc == acc.value && bestWeights == weights
        && log == old(log) + SaveEvents(settings.outfile, settings.hasSecondary, weights)
      ensures !Improves(acc, old(bestAcc)) ==>
        bestAcc == old(bestAcc) && bestWeights == old(bestWeights) && log == old(log)
    {
      if Improves(acc, bestAcc) {
        bestAcc := acc.value;
        bestWeights := weights;
        if settings.outfile.Some? {
          log := log + [SaveModel(settings.outfile.value, weights),
                        SaveOptimizers(OptPath(settings.outfile.value), settings.hasSecondary)];
        }
      }
      assert (valAccHistory + [acc])[..|valAccHistory|] == valAccHistory;
      valAccHistory := valAccHistory + [acc];
      valWeights := valWeights + [weights];
    }

    /** One epoch of train_model: the training phase, then the validation phase and its snapshot. */
    method RunEpoch(e: nat, train: seq<Batch>, val: seq<Batch>, weights: W) returns (r: Result<()>)
      requires Valid() && ValidBatches(train) && ValidBatches(val)
      modifies this
      ensures Valid()
      ensures var epoch := EpochResult(PhaseOutcome(Train, train, settings.accumIters),
                                       TrainedBatches(train, settings.accumIters),
                                       PhaseOutcome(Val, val, settings.accumIters), weights);
        Run(valAccHistory, log, if r.Ok? then None else Some(r.error)) ==
          EpochStep(settings, old(Run(valAccHistory, log, None)), e, epoch)
      ensures valWeights == if r.Ok? then old(valWeights) + [weights] else old(valWeights)
    {
      ghost var run := Run(valAccHistory, log, None);
      var trained := RunPhase(e, Train, train);
      ghost var steps := StepLog<W>(e, TrainedBatches(train, settings.accumIters), settings.accumIters, settings.hasSecondary);
      assert log == run.log + steps;
      if trained.Err? {
        return Err(trained.error);
      }
      var validated := RunPhase(e, Val, val);
      if validated.Err? {
        return Err(validated.error);
      }
      ghost var saves := if Improves(validated.value, Snapshot(run.history).acc)
        then SaveEvents(settings.outfile, settings.hasSecondary, weights) else [];
      EndValPhase(validated.value, weights);
      assert log == run.log + steps + saves;
      r := Ok(());
    }
  }

  /** What train_model returns: the model holding the best weights, and the validation accuracy history. */
  datatype Trained<W> = Trained(weights: W, history: seq<Accuracy>)

  /**
   * train_model: num_epochs epochs of a training and a validation phase.
   * Returns the outcome and the events that happened, up to a failure.
   */
  method TrainModel<W>(settings: Settings, data: (nat, Phase) -> seq<Batch>, weightsAt: nat -> W,
                       initialWeights: W, numEpochs: nat)
    returns (r: Result<Trained<W>>, log: seq<Event<W>>)
    requires ValidData(data)
    ensures var run := RunEpochs(settings, EpochsOf(EpochAt(data, weightsAt, settings.accumIters), numEpochs));
      && log == run.log
      && (r.Ok? <==> run.failure.None?)
      && (r.Err? ==> run.failure == Some(r.error))
      && (r.Ok? ==> r.value.history == run.history)
    ensures r.Ok? ==> r.value.weights == match Snapshot(r.value.history).epoch
      case None => initialWeights
      case Some(e) => weightsAt(e)
  {
    var state := new TrainingState(initialWeights, settings);
    var epoch := 0;
    while epoch < numEpochs
      invariant 0 <= epoch <= numEpochs
      invariant state.Valid()
      invariant state.initialWeights == initialWeights && state.settings == settings
      invariant RunEpochs(settings, EpochsOf(EpochAt(data, weightsAt, settings.accumIters), epoch)) ==
        Run(state.valAccHistory, state.log, None)
      invariant state.valWeights == WeightsUpTo(weightsAt, epoch)
      decreases numEpochs - epoch
    {
      var outcome := state.RunEpoch(epoch, data(epoch, Train), data(epoch, Val), weightsAt(epoch));
      NextEpoch(settings, data, weightsAt, epoch);
      if outcome.Err? {
        EpochFails(settings, EpochAt(data, weightsAt, settings.accumIters), epoch, numEpochs);
        return Err(outcome.error), state.log;
      }
      epoch := epoch + 1;
    }
    log := state.log;
    r := Ok(Trained(state.bestWeights, state.valAccHistory));
  }

  /** When epoch e fails, the whole run ends as it did: the later epochs change neither history nor events. */
  lemma {:induction false} EpochFails<W>(settings: Settings, epochAt: nat -> EpochResult<W>, e: nat, n: nat)
    requires e < n && RunEpochs(settings, EpochsOf(epochAt, e + 1)).failure.Some?
    ensures RunEpochs(settings, EpochsOf(epochAt, n)) == RunEpochs(settings, EpochsOf(epochAt, e + 1))
    decreases n
  {
    if n > e + 1 {
      EpochFails(settings, epochAt, e, n - 1);
      RunEpochsSnoc(settings, EpochsOf(epochAt, n - 1), epochAt(n - 1));
    }
  }
}
