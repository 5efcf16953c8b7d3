# GridNet patch prediction and training bookkeeping, in Dafny

This project models the sequential logic of `src/gridnet_patches.py`. Tensors are
nested sequences, the patch classifier is an uninterpreted function and model
weights are opaque values. The parts modelled are:

- **`GridNet.patch_predictions`**. The batch of patch grids is flattened into one
  patch list. The list is classified either in one call or in pieces of at most
  `atonce_patch_limit` patches, taken by a `while` loop with a moving `count` and
  then concatenated. The score rows are reshaped to `(-1, H, W, n_classes)` and
  permuted to `(-1, n_classes, H, W)`. This part is in `GridNet.dfy`, with the
  tensor shape operations in `Tensors.dfy`.
- **The per-batch statistics of `train_model`**. These are the dimension
  assertion, the class-index check of the cross-entropy loss, the channel-last flattening of scores and labels, the foreground mask
  `labels > 0` with the shift of kept labels to 0-based classes, the arg-max
  prediction, and the correct and foreground counts. This part is in `Masking.dfy`.
- **The state `train_model` keeps** (`Training.dfy`):
  - the phase loop with its running counters;
  - the optimizer step schedule under gradient accumulation (`batch_ind % accum_iters == 0`, with `f_opt` stepping alongside the primary optimizer);
  - `best_acc` and `best_model_wts`, updated on strict improvement;
  - the model and optimizer files written on improvement;
  - `val_acc_history`.

  It is a class, `Training.TrainingState`, whose methods are proved against
  specification functions over whole runs (`Training.RunEpochs`).
- **`os.path.splitext(outfile)[0] + ".opt"`**, in `Paths.dfy`.

What happened is recorded as a log of events: optimizer steps, model saves and
optimizer saves. Python exceptions are `Err` values. The first three are raised by
`GridNet.patch_predictions`. The last three are raised by the training loop, which
receives the model's outputs as data (see "Left out"):

- `torch.cat` of an empty list;
- `narrow` with a negative length;
- a reshape that does not fit;
- the dimension assertion;
- a foreground label above `n_classes`, which `criterion` rejects as a class index out of bounds;
- `ZeroDivisionError`.

A run that fails keeps the events that came before the failure.

The steps fall on the first batch of each group of `accum_iters` batches: 0, a, 2a
and so on. Gradients are zeroed only right after a step, and the validation phase
runs no backward pass. Suppose an epoch's last training batch did not take a step.
Then the gradients of the batches after that epoch's last step are not applied
inside the epoch. They are applied together with batch 0's gradient at the next
epoch's first step. When the last training batch took a step, which is always so
for `accum_iters = 1`, nothing carries over, and the next epoch's first step applies
batch 0's gradient alone. A plain reading of the `--accum-iters` help text at line 304, 'Perform optimizer step every "a" batches.', would put the steps at the end of each
group instead. The model follows the code. It records when the steps happen, not
which gradients they apply.

## Model

| member | source | states |
|---|---|---|
| Tensors.ChunksSpec | src/gridnet_patches.py:79-94 | The pieces the chunk loop takes concatenate back to the patch list; each piece has 1 to `limit` patches; all but the last have exactly `limit`. |
| Tensors.ChunksCount | src/gridnet_patches.py:81-93 | There are ceil(n / limit) pieces. |
| Tensors.ChunksOfConcat | src/gridnet_patches.py:96 | Splitting a concatenation of equal-width parts into that width gives the parts back. |
| Tensors.Flatten3Index | src/gridnet_patches.py:73 | Grid element (b, i, j) of a (B, H, W) grid lands at flat position (b*H+i)*W+j, which is in range. |
| Tensors.Unflatten3Index | src/gridnet_patches.py:96 | Reshaping a flat list to (-1, H, W) puts flat element (b*H+i)*W+j at (b, i, j), with shape (m, H, W). |
| Tensors.FlattenRoundTrip | src/gridnet_patches.py:73 | Unflattening the flattened rectangular grid gives the grid back. |
| Tensors.UnflattenRoundTrip | src/gridnet_patches.py:96 | Flattening the unflattened list gives the list back. |
| Tensors.ChannelFirstAt | src/gridnet_patches.py:97 | `permute((0,3,1,2))` puts entry [b][i][j][k] at [b][k][i][j]. |
| Tensors.ChannelLastAt | src/gridnet_patches.py:229 | `permute((0,2,3,1))` puts entry [b][k][i][j] at [b][i][j][k]. |
| Tensors.PermuteRoundTrip | src/gridnet_patches.py:97 | Channel-first then channel-last gives a channel-last grid back. |
| Tensors.PermuteRoundTripChannels | src/gridnet_patches.py:97 | Channel-last then channel-first gives a channel-first tensor back, so the two permutations are inverse to each other. |
| GridNet.ClassifyInChunks | src/gridnet_patches.py:79-93 | The loop ends, and `cp_chunks` is the classifier applied to each piece narrow(count, min(limit, n - count)) in order. |
| GridNet.ZeroLimitNeverAdvances | src/gridnet_patches.py:81-93 | With a limit of 0 and at least one patch, `count` stays 0 after any number of passes, so the loop condition never fails. |
| GridNet.TenPatchesLimitFour | src/gridnet_patches.py:81-93 | Ten patches with a limit of 4 are taken in pieces of 4, 4 and 2. |
| GridNet.FlatPredictionsShape | src/gridnet_patches.py:75-94 | With or without a limit, the flat predictions have one row of n_classes scores per patch. |
| GridNet.ChunkedEqualsUnchunked | src/gridnet_patches.py:75-94 | For a batch-independent classifier, the concatenated chunk results equal classifying the whole list at once. |
| GridNet.LimitDoesNotChangePredictions | src/gridnet_patches.py:75-94 | For a batch-independent classifier, the flat predictions do not depend on `atonce_patch_limit`. |
| GridNet.RowWise | src/gridnet_patches.py:76 | A batch-independent classifier scores each patch in a list as it scores that patch alone. |
| GridNet.PatchPredictions | src/gridnet_patches.py:71-99 | Fails exactly when the flat list is empty with a limit set (empty `torch.cat`), the limit is negative (`narrow`), or the scores do not fit (-1, H, W, n_classes); the error says which. On success the output has shape (B, n_classes, H, W), and undoing the permutation and flattening gives the flat predictions. |
| GridNet.ToScoreGrid | src/gridnet_patches.py:96-97 | Reshape and permute give a (B, C, H, W) tensor whose channel-last flattening is the input rows. |
| GridNet.GridBatchSize | src/gridnet_patches.py:73 | A (B, H, W) patch grid flattens to B*H*W patches, so the `-1` of the final reshape is B. |
| GridNet.ScoreAt | src/gridnet_patches.py:96-97 | For any classifier, output[b][k][i][j] is class k of score row (b*H+i)*W+j, and that row exists and has n_classes entries. |
| GridNet.PatchPredictionAt | src/gridnet_patches.py:73-97 | Output[b][k][i][j] is class k of flat prediction (b*H+i)*W+j, and is class k of the classifier's score for patch x[b][i][j] alone. |
| Masking.ForegroundIndicesSpec | src/gridnet_patches.py:232-233 | The kept positions are exactly those with label > 0, each once, in increasing order. |
| Masking.MaskForegroundSpec | src/gridnet_patches.py:232-234 | Kept outputs and labels have equal length and stay aligned: entry k is the row and the label minus 1 of the k-th foreground position, and is ≥ 0. |
| Masking.ArgmaxSpec | src/gridnet_patches.py:237 | The prediction has a largest score, and every earlier score is strictly smaller. |
| Masking.CountCorrectAll | src/gridnet_patches.py:256 | The correct count is the number of rows exactly when every row's arg-max equals its label. |
| Masking.CellRowsShape | src/gridnet_patches.py:229-231 | Flattening gives one row of n_classes scores and one label per grid cell. |
| Masking.Tally | src/gridnet_patches.py:256-257 | Per batch, corrects ≤ foreground ≤ number of cells. |
| Masking.TallyMasked | src/gridnet_patches.py:232-237 | The one-pass tally equals masking first and then counting: foreground is the number of kept labels, and corrects is the count of kept rows whose arg-max is the shifted label. |
| Masking.BatchStats | src/gridnet_patches.py:227-257 | A batch fails exactly when the spatial dimensions differ (the assertion's error) or, failing that, a label is above n_classes (the loss's error); otherwise its corrects ≤ foreground. |
| Masking.BatchStatsMasked | src/gridnet_patches.py:227-257 | When the grids match, a batch's counts are the lengths and matches of the masked, flattened scores and labels, unless a label above n_classes makes the loss fail. |
| Masking.MaskedCellAligned | src/gridnet_patches.py:229-234 | The k-th kept cell from grid position (b, i, j) has a positive label, kept label `labels[b][i][j] - 1`, and scores `outputs[b][·][i][j]`. |
| Masking.ForegroundCellKept | src/gridnet_patches.py:229-233 | Every grid cell with a positive label is kept. |
| Training.EpochAccuracy | src/gridnet_patches.py:261 | The accuracy is NaN exactly when the foreground count is 0; otherwise it lies in [0, 1] when corrects ≤ foreground. |
| Training.BatchResultsAt | src/gridnet_patches.py:214-257 | Entry k of the batch results is the statistics of batch k. |
| Training.TotalsSpec | src/gridnet_patches.py:255-257 | The running totals succeed exactly when every batch does, fail with the error of the first failing batch otherwise, and keep corrects ≤ foreground. |
| Training.PhaseStatsSpec | src/gridnet_patches.py:214-257 | A phase's totals succeed exactly when every batch passes the dimension assertion and the loss, and then corrects ≤ foreground. Otherwise the error is that of the first batch that fails. |
| Training.PhaseRunTotals | src/gridnet_patches.py:214-257 | Unless `accum_iters == 0` stops a training phase, the loop holds the totals of the batches so far. |
| Training.PhaseRunZeroAccum | src/gridnet_patches.py:227-247 | With `accum_iters == 0`, a training phase stops at its first batch, at the assertion, the loss or the modulus. |
| Training.PhaseRunStops | src/gridnet_patches.py:214-257 | Once the loop has raised, later batches do not change the outcome. |
| Training.CompletedSpec | src/gridnet_patches.py:214-252 | The batches whose step was decided are all of them exactly when the loop did not raise; otherwise they are those before the batch that raised. |
| Training.StoppedAt | src/gridnet_patches.py:214-261 | A phase stopped at batch k fails with that batch's error, and k training batches got through. |
| Training.PhaseOutcomeSpec | src/gridnet_patches.py:214-261 | A phase yields an accuracy exactly when it has batches, all pass the assertion and the loss, and (in training) `accum_iters != 0`. The accuracy is that of the summed statistics. The error is `ZeroDivisionError` exactly when there is no batch or a training phase with `accum_iters == 0` gets through its first batch; otherwise it is the first failing batch's error. |
| Training.StepIndices | src/gridnet_patches.py:247 | The step indices are exactly the batch indices below n where `batch_ind % accum_iters == 0`, in increasing order. |
| Training.StepSchedule | src/gridnet_patches.py:247 | With accum_iters = a ≥ 1, the steps fall at 0, a, 2a, …, ceil(n/a) of them. |
| Training.StepLogLayout | src/gridnet_patches.py:244-252 | The step events of a training phase are the step indices in order; each primary step is followed by an `f_opt` step at the same batch exactly when `f_opt` is given. |
| Training.StepLogOnlySteps | src/gridnet_patches.py:244-252 | A training phase's events are optimizer steps only. |
| Training.SaveEvents | src/gridnet_patches.py:275-283 | Files are written exactly when there is an outfile, and the last model saved holds the current weights. |
| Training.SnapshotIsBest | src/gridnet_patches.py:183-274 | `best_acc` is ≥ 0.0 and ≥ every validation accuracy. It is 0.0 when no epoch improved; otherwise it is the accuracy of the first epoch that reached it. |
| Training.SnapshotMonotone | src/gridnet_patches.py:272-273 | `best_acc` never decreases from one epoch to a later one. |
| Training.BestWeightsChosen | src/gridnet_patches.py:182-274 | `best_model_wts` is the initial copy when no validation accuracy is above 0.0. Otherwise it is the weights of the first epoch whose accuracy is positive and at least every accuracy in the history. |
| Training.LastSavedAppend | src/gridnet_patches.py:276 | After more events the last model saved is the last one among them, or the earlier one if they save none. |
| Training.StepLogSavesNothing | src/gridnet_patches.py:244-252 | Optimizer steps write no model file. |
| Training.RunEpochs | src/gridnet_patches.py:189-285 | The history has at most one entry per epoch, and exactly one per epoch when nothing failed. |
| Training.RunHistory | src/gridnet_patches.py:284-285 | In a run without failure every phase succeeded, and history entry e is epoch e's validation accuracy. |
| Training.FailureIsFinal | src/gridnet_patches.py:189-285 | After a failure, later epochs change neither the history nor the events. |
| Training.LastSaveIsBest | src/gridnet_patches.py:272-283 | With an outfile, the last model file written holds the weights of the best snapshot, and none is written while nothing beat 0.0. This also holds for a failed run. |
| Training.NoOutfileNoSaves | src/gridnet_patches.py:275 | Without an outfile every event of a run is an optimizer step. |
| Training.EpochFails | src/gridnet_patches.py:189-285 | When epoch e fails, the whole run ends as it did. |
| Training.TrainingState.constructor | src/gridnet_patches.py:180-183 | Empty history, `best_acc == 0.0`, `best_model_wts` the initial weights, no events. |
| Training.TrainingState.StepOptimizers | src/gridnet_patches.py:247-252 | After batch `batch_ind` the log is the step log of `batch_ind + 1` batches. |
| Training.TrainingState.RunPhase | src/gridnet_patches.py:206-261 | Returns the phase outcome. In training, appends the steps of the batches before any failure; in validation, appends nothing. |
| Training.TrainingState.EndValPhase | src/gridnet_patches.py:272-285 | Appends the accuracy to the history. On strict improvement it sets `best_acc` and `best_model_wts` and writes the model and `.opt` files when there is an outfile; otherwise it changes nothing else. It keeps the snapshot invariant. |
| Training.TrainingState.RunEpoch | src/gridnet_patches.py:194-285 | The new history, events and failure are one epoch step of the old ones. |
| Training.TrainModel | src/gridnet_patches.py:175-295 | Returns an error exactly when the run fails, and with its error. The events it returns are the run's events. On success, the history is the run's and the weights are those of the best snapshot's epoch, or the initial ones. |
| Paths.LastIndexOf | src/gridnet_patches.py:281 | The last position of the character, or -1 when it does not occur. |
| Paths.SplitExt | src/gridnet_patches.py:281-283 | `root + ext == path`. The extension is empty or is a '.' with no further '.' or '/'. A non-empty extension follows a stem with a character other than '.' in the last component. Conversely, whenever some cut of the path has that form, the extension is not empty. |
| Paths.OptPath | src/gridnet_patches.py:281-283 | The optimizer file is the outfile's root followed by ".opt". |
| Paths.OptPathReplacesExtension | src/gridnet_patches.py:281 | "best.pth" gives "best.opt". |
| Paths.OptPathDottedDirectory | src/gridnet_patches.py:281 | "runs/v1.2/model" gives "runs/v1.2/model.opt". |
| Paths.OptPathHiddenFile | src/gridnet_patches.py:281 | ".gridnet" gives ".gridnet.opt". |
| Paths.OptPathLastExtension | src/gridnet_patches.py:281 | "out/model.tar.gz" gives "out/model.tar.opt". |

## Left out

- Gradient checkpointing, autograd, `loss.backward()` and the `dummy_tensor` trick. The checkpointed and the direct call of `_ppl` are modelled as the same classifier call.
- The corrector networks and `init_weights`: these are neural-network numerics and library calls.
- Floating point. The model leaves out the loss, `running_loss`, softmax and `epoch_loss`'s value. Accuracy is the exact ratio, or NaN for 0 / 0. A NaN accuracy never improves on `best_acc`, as a comparison with NaN is false.
- The forward pass `outputs = model(inputs)` (line 223). The training loop takes the model's outputs as given data, so the model assumes this call returns. A raise inside it would end the run at that batch, before the dimension assertion. This includes the `ShapeError`, `NegativeLength` and `EmptyConcat` errors that `GridNet.PatchPredictions` models, raised for example for an empty batch or a negative `atonce_patch_limit`. `Training` never produces these errors.
- The AUROC computation (`class_auroc`, line 268). It is not part of this model, and the model assumes it returns: an exception it raised would end the run after a phase's accuracy but before the snapshot and the history.
- `foreground_classifier`, which the patch classifier path never calls.
- Device placement, `torch.save` and `load_state_dict` I/O, timing and printing. A save is an event carrying its path and the weights; loading the best weights at the end is returning them.
- `parse_args`, the `__main__` block and the plotting code.
- Model weights are opaque. `weightsAt(e)` is what `model.state_dict()` holds during epoch e's validation phase, and the optimizer states are not modelled beyond which file is written.
- The data loaders are a function from (epoch, phase) to a list of batches. An empty dataset is a loader with no batches, and `len(dataset)` at line 260 is zero exactly then.
- Masking.BatchStats: a batch's scores and labels have the same number of grids, because `Batch.Valid()` gives both one `batchSize`. This holds whenever the dataset's image and label grids have the same size. Otherwise a batch whose scores have more grids than its labels can pass the assertion at line 227, and the boolean mask at line 232 then raises `IndexError`. The model does not capture that failure.
- Masking.Argmax: ties go to the first largest score; `torch.max` does not fix which index it returns on ties. An empty row (no classes) is excluded by requiring at least one class per batch.
- GridNet.PatchPredictions: requires the classifier to return one row of n_classes scores per patch. It also requires that a limit of 0 comes only with an empty patch list, because the source loops forever there; `GridNet.ZeroLimitNeverAdvances` shows why. The reshape at line 73 cannot fail in the model, because the input is already a grid of patches.
- GridNet.PatchPredictionAt: relating an output entry to the patch alone assumes the classifier is batch-independent. The source's classifier is run in eval mode, where this holds up to floating point.
- Training.TrainingState.RunPhase: `accum_iters == 0` fails a training phase at the modulus (line 247). The division of the loss by it (line 236) is a tensor operation that does not raise, and validation never evaluates the modulus.
- Masking.Tally: counts in one pass. `Masking.TallyMasked` proves it equal to masking first and then counting, as the source does.
- Paths.SplitExt: models the POSIX `os.path.splitext`, where '/' is the only separator. The Windows version also treats '\\' as a separator, and is not modelled.
- Concurrency: none exists in the modelled code.
