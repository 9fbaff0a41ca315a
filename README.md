# A verified model of the training orchestration

This project models, in Dafny, the orchestration core of a small machine-learning
deployment:

- a trainer service that keeps one job-state dictionary, launches at most one
  training run at a time, versions and promotes the trained weights, asks the
  inference service to reload them, and journals each completed run;
- a monitor that probes the two services and keeps a bounded log of samples;
- the inference service's lazily loaded model cache.

The Torch computation, the clock, the HTTP exchanges and the file system are
inputs to the model, never computed by it.

Modules, one per source file:

| module | file | models |
|---|---|---|
| `JobState` | `job_state.dfy` | `trainer/src/state.py`: the live dictionary with its lock; `set_state`, `get_state` and `reset_state` are methods of `Store` |
| `Registry` | `registry.dfy` | `trainer/src/registry.py`: version names from the UTC clock, remove-then-copy promotion to `model_latest.pth` (`ModelDir.SetLatest`), the sorted `.pth` listing |
| `Training` | `training.dfy` | `trainer/src/train.py`: `train_one_run` as methods over the store, the model directory and the summary file; below them a function giving the events of each run (`RunOutcome`), checked against the events of a run that succeeds |
| `TrainerApi` | `trainer_api.dfy` | `trainer/src/api.py`: the single-flight launcher `start_train`, `background_train`, the append-only run journal and the `/metrics` projection |
| `Monitor` | `monitor.dfy` | `monitor/src/monitor.py`: probe classification, the 200-sample log and the 20-sample dashboard |
| `Inference` | `inference.dfy` | `app/src/model.py`: the `_model` cache, `load_model` and the error answers of `predict_image_bytes` |
| `Strings`, `Common` | `strings.dfy`, `common.dfy` | lexicographic order, sorting, digit formatting; `Option`, bytes, the text of Python's `AttributeError` on `append` |

Where the code departs from the system's intended design, the model follows
the code. The one exception is the reload request, a bug listed under Findings:
there the rest of the model uses the intended behaviour.

- **Promotion is not atomic.** `set_latest` removes `model_latest.pth` and then
  copies the new artifact. `Registry.ModelDir.SetLatest` exposes the
  intermediate directory, which has no latest file. Its `except` fallback
  repeats the same copy.
- **A failed run can still promote.** A run with no epochs, or one whose
  summary write fails, raises only after it has saved and promoted its
  weights. So a failed run does not always leave the registry unchanged
  (`Training.TrainOneRun`, `Training.CompletesExactly`).
- **No reload request is ever sent.** The reload step imports a module that
  does not exist. `Training.ReloadNeverSent` models the step as written: it
  makes zero requests. The run itself (`Training.NotifyReload`, the
  `Notified` event) uses the intended loop of up to three attempts instead,
  as set out under Findings.
- **`failed` is recorded twice.** A raising run sets `failed` in
  `train_one_run`, and `background_train` sets it again with the same values.
- **A completed run can end as `failed`.** If the journal holds a JSON value
  that is not a list, the append raises after `done` has been set
  (`TrainerApi.UnwritableJournalFails`).
- **The launch does not set `last_error=None` itself.** `start_train` sets
  only `status` and `started_at`; `last_error` is already `None` because of
  the reset just before.
- **The journal entry has no loss.** It holds the fields the code writes and
  nothing else.

## Model

| member | source | states |
|---|---|---|
| JobState.Defaults | trainer/src/state.py:7-16 | the initial dictionary has exactly the eight keys: idle, progress 0.0, epoch 0, the other five None |
| JobState.SpellingInjective | trainer/src/state.py:7-16 | distinct keys have distinct Python spellings (the name of an `Other` key is never one of the eight, by its type), so a map over keys is a `str`-keyed dict |
| JobState.Update | trainer/src/state.py:18-20 | `dict.update`: given keys take their given values, all other keys keep theirs, no key is lost |
| JobState.Reset | trainer/src/state.py:26-37 | the eight keys hold their defaults; any other key keeps its value |
| JobState.ApplyAllKeys | trainer/src/state.py:18-20 | no sequence of updates removes a key |
| JobState.ApplyAllStaysKnown | trainer/src/state.py:7-20 | updates naming only the eight keys keep the dictionary on them |
| JobState.ResetIdempotent | trainer/src/state.py:26-37 | resetting twice is resetting once |
| JobState.ResetAfterUpdates | trainer/src/state.py:18-37 | after any sequence of updates, a reset leaves the eight keys at their defaults and keeps every other key |
| JobState.ResetRestoresInitial | trainer/src/state.py:7-37 | from the initial dictionary, updates on the eight keys followed by a reset give back exactly the initial dictionary |
| JobState.ResetKeepsExtraKey | trainer/src/state.py:18-37 | a key added outside the eight survives a reset with its value |
| JobState.Store.constructor | trainer/src/state.py:7-16 | the store starts at the defaults |
| JobState.Store.SetState | trainer/src/state.py:18-20 | the new state is the old one updated with the arguments; the eight keys stay present |
| JobState.Store.GetState | trainer/src/state.py:22-24 | the snapshot equals the live state |
| JobState.Store.ResetState | trainer/src/state.py:26-37 | the new state is the reset of the old one |
| JobState.SnapshotIsolated | trainer/src/state.py:22-37 | a snapshot keeps its value while the live state is updated and reset afterwards |
| Registry.Timestamp | trainer/src/registry.py:11 | `%Y%m%d_%H%M%S` is 15 characters: digits with `_` at position 8 |
| Registry.VersionName | trainer/src/registry.py:11-12 | `model_v` + timestamp + `.pth`: 26 characters, no `/`, never `model_latest.pth` |
| Registry.SaveModelState | trainer/src/registry.py:10-15 | a function of the clock alone, touching no file: the version name and its path under `/models`, which is never the latest path |
| Registry.TimestampOrder | trainer/src/registry.py:11 | lexicographic order of two timestamps is chronological order; equal timestamps mean equal readings |
| Registry.VersionOrder | trainer/src/registry.py:11-12 | lexicographic order of two version names is chronological order of their clock readings, and the names are unique per second |
| Registry.JoinInModelsDir | trainer/src/registry.py:13 | a name without `/` is joined to `/models/` + name, a direct entry of the directory |
| Registry.JoinInjective | trainer/src/registry.py:13 | different names give different paths |
| Registry.PthOnly | trainer/src/registry.py:28 | the filter keeps exactly the entries ending in `.pth`, and keeps them distinct |
| Strings.Sort | trainer/src/registry.py:28 | `sorted`: the result is ordered and a permutation of its input |
| Registry.ListModels | trainer/src/registry.py:27-28 | the listing is sorted, is a permutation of the filtered entries, and holds exactly the `.pth` names |
| Registry.ListModelsOfDir | trainer/src/registry.py:27-28 | for a directory, the listing holds exactly its `.pth` entries, strictly ascending (no duplicates), and does not depend on the order `os.listdir` returns |
| Registry.PromotedEntries | trainer/src/registry.py:17-28 | after an artifact is written and promoted, the directory's entries are the old ones plus its name and `model_latest.pth`, which is then listed |
| Registry.Promote | trainer/src/registry.py:17-25 | promoting an existing artifact other than the latest copy makes the latest copy hold its bytes and changes nothing else; otherwise the copy raises and the old latest copy is gone |
| Registry.PromoteIdempotent | trainer/src/registry.py:17-25 | promoting the same path twice is promoting it once |
| Registry.ModelDir.WriteFile | trainer/src/train.py:95 | `torch.save` puts the whole artifact under its path and changes no other file |
| Registry.ModelDir.Copy | trainer/src/registry.py:23 | `copy2` copies the source's bytes to the destination, or raises and changes nothing when the source is missing |
| Registry.ModelDir.SetLatest | trainer/src/registry.py:17-25 | the outcome is `Promote`; the latest copy then holds exactly the artifact's bytes; no other entry changes; between the removal and the copy the directory has no latest copy |
| Training.ProgressBounds | trainer/src/train.py:70 | every progress value lies in [0, 100] |
| Training.ProgressMonotone | trainer/src/train.py:68-70 | progress does not decrease as the step counter grows |
| Training.ProgressComplete | trainer/src/train.py:51-70 | the last step of the last epoch reports exactly 100 |
| Training.ProgressAt | trainer/src/train.py:70 | the definition of `min(100.0, step / total_steps * 100.0)`; `ProgressBounds`, `ProgressMonotone` and `ProgressComplete` state its properties |
| Training.BeginUpdate | trainer/src/train.py:27 | the definition of the opening `set_state` call; `HeadState` states the state it leaves |
| Training.BatchUpdate | trainer/src/train.py:71 | the definition of the per-batch `set_state` call; `BatchEventsOnlyMetrics` and `ProgressesOfBatches` state its keys and progress values |
| Training.EpochUpdate | trainer/src/train.py:89 | the definition of the per-epoch `set_state` call; `AllEpochsState` states the metrics it leaves |
| Training.DoneUpdate | trainer/src/train.py:130 | the definition of the final `set_state` call; `DoneState` states the state it leaves |
| Training.FailUpdate | trainer/src/train.py:136 | the definition of the `set_state` call of the `except` branch; `RaisedState` states the state it leaves |
| Training.TotalSteps | trainer/src/train.py:51 | a run with at least one epoch of at least one batch has a positive step total |
| Training.BaseIsProduct | trainer/src/train.py:52-68 | the step counter after `k` epochs is `k` times the batches per epoch |
| Training.BatchEvents | trainer/src/train.py:57-71 | the batch loop makes one `set_state` call per batch |
| Training.ReloadAttempts | trainer/src/train.py:101-106 | the intended loop makes 1 to 3 requests, all but the last refused or failed, and stops early only at an accepted one |
| Training.RunOutcome | trainer/src/train.py:26-137 | the definition of a run's result and events, cut at the first point that raises; `CompletesExactly`, `RaisedIsPrefix`, `SuccessOrder`, `CompletedState` and `RaisedState` specify it, and `TrainOneRun` follows it |
| Training.Finish | trainer/src/train.py:92-131 | the definition of everything after the epoch loop; `CompletesExactly` states its cases, and `FinishRun` follows it |
| Training.CompletesExactly | trainer/src/train.py:26-137 | a run completes exactly when nothing raises before the save, at least one epoch runs and the summary is written; it then returns the last epoch's summary and produces the success trace; a fault before the save is re-raised with its own message; with no epoch it raises the unbound `accuracy` error; a failed summary write re-raises its message |
| Training.PartialIsPrefix | trainer/src/train.py:54-89 | a fault in the epoch loop stops it partway: its events are a strict prefix of the full loop's |
| Training.RaisedIsPrefix | trainer/src/train.py:133-137 | a run that raises produces a strict prefix of the success trace followed by the one `failed` update |
| Training.SuccessOrder | trainer/src/train.py:27-131 | a successful run starts with the `training` update, has only metric updates during the epochs, then saves, promotes the same path, makes the intended reload requests (none, as written: see Findings), writes the summary and sets `done`, in that order |
| Training.ReloadRepliesIrrelevant | trainer/src/train.py:98-110 | the reload replies never change whether or how a run returns or raises |
| Training.BatchEventsOnlyMetrics | trainer/src/train.py:71 | each batch update sets exactly progress, epoch and loss, and never accuracy |
| Training.EpochEventsOnlyMetrics | trainer/src/train.py:54-89 | the whole epoch loop writes only the four metric keys |
| Training.AllEpochsState | trainer/src/train.py:89 | after the loop the state shows the last epoch's number, accuracy and mean validation loss |
| Training.EpochsOverState | trainer/src/train.py:54-89 | the epoch loop adds no key, sets the last epoch's metrics and leaves every non-metric key as it was |
| Training.SuccessReplay | trainer/src/train.py:27-130 | in a successful run only the start update, the epoch updates and the `done` update change the state |
| Training.Updates | trainer/src/train.py:27-136 | the arguments of a trace's `set_state` calls, in order, at most one per event |
| Training.ReplayIsApplyAll | trainer/src/train.py:27-136 | replaying a run's events is applying its `set_state` calls in order, so the lemmas about sequences of `set_state` calls hold for runs |
| Training.ResetAfterRun | trainer/src/api.py:76 | after any run, completed or raised, the reset of the next launch puts the eight keys back at their defaults and keeps every other key the state held before the run |
| Training.DoneState | trainer/src/train.py:130 | the `done` update over the post-epoch state gives status done, progress 100, no error, the finish time, and keeps the start time and metrics |
| Training.CompletedState | trainer/src/train.py:27-131 | a successful run leaves done, progress 100, last_error None, its start and finish times, the last epoch's metrics, and every other key as it was |
| Training.RaisedState | trainer/src/train.py:133-137 | a run that raises leaves status failed with the re-raised message as last_error |
| Training.ProgressesOfBatches | trainer/src/train.py:57-71 | the batch loop reports one progress value per batch, the progress of each successive step |
| Training.ProgressesOfEpochs | trainer/src/train.py:54-71 | the epoch loop reports the progress of steps 1, 2, … in order, one per batch of every epoch |
| Training.SuccessProgresses | trainer/src/train.py:27-130 | the progress values of a successful run are 0, those of the epoch loop, then 100 |
| Training.SuccessProgress | trainer/src/train.py:27-130 | in a successful run, progress goes 0, then `ProgressAt(s)` for each step `s`, then 100; it never decreases, stays in [0, 100], and reaches 100 at the last batch (for at least one batch; `SuccessProgressNoBatches` covers none) |
| Training.NoBatchProgresses | trainer/src/train.py:54-89 | over a loader without batches the epoch loop reports no progress value |
| Training.SuccessProgressNoBatches | trainer/src/train.py:27-130 | a successful run over a loader without batches reports exactly 0 and then 100 |
| Training.RunBatches | trainer/src/train.py:57-71 | the batch loop fails exactly at a batch fault of this epoch; the state is each batch's update applied in turn up to the fault; without a fault the step counter advances by the epoch's batch count |
| Training.RunEpoch | trainer/src/train.py:54-89 | one epoch fails exactly at a fault of this epoch; the state is its trace replayed; without a fault the step counter reaches the epoch's end |
| Training.RunEpochs | trainer/src/train.py:54-90 | the loop stops at the first fault with its message, the state is the loop's trace replayed, and without a fault the last accuracy and loss are those of the last epoch |
| Training.NotifyReload | trainer/src/train.py:101-108 | the intended retry loop makes exactly `ReloadAttempts` requests |
| Training.ReloadNeverSent | trainer/src/train.py:98-110 | as written, no reload request is sent, while the intended loop sends at least one |
| Training.Fail | trainer/src/train.py:133-137 | the `except` branch sets failed with the message and re-raises it |
| Training.SaveAndPromote | trainer/src/train.py:93-96 | the artifact is written under its version path before the latest copy is made from it, and both hold the weights |
| Training.HeadState | trainer/src/train.py:27 | a run begins with status training, progress 0.0, its start time and no error |
| Training.FinishRun | trainer/src/train.py:92-131 | after the loop, the result and the state follow `Finish`; the directory gains the artifact and its latest copy unless the save raised; the summary file is written exactly when the run completes |
| Training.TrainOneRun | trainer/src/train.py:26-137 | the result and state follow `RunOutcome`; `model_latest.pth` and the directory are unchanged whenever the run raises before the save completes, and otherwise hold the new artifact; the summary file is written exactly when the run completes |
| TrainerApi.LoadMetadata | trainer/src/api.py:26-33 | a missing or unparsable journal reads as `[]`, otherwise as its document |
| TrainerApi.Appended | trainer/src/api.py:35-39 | the definition of what `save_metadata` returns and leaves; `SaveThenLoad` and `SaveAllAppends` specify it |
| TrainerApi.SaveThenLoad | trainer/src/api.py:35-39 | saving appends the entry after the old ones; it fails exactly when the journal is not a list, and then changes nothing |
| TrainerApi.SaveAllAppends | trainer/src/api.py:35-39 | the journal is append-only: after any sequence of saves it holds the old entries followed by the new ones, in order |
| TrainerApi.JournalFromNothing | trainer/src/api.py:26-39 | a journal that starts missing holds exactly the saved entries |
| TrainerApi.ParseParams | trainer/src/api.py:72-75 | the parameters parse exactly when no field is malformed |
| TrainerApi.ParamDefaults | trainer/src/api.py:72-75 | an empty body runs 1 epoch, batch size 64, learning rate 0.001 |
| TrainerApi.ParamsTaken | trainer/src/api.py:72-75 | each given field is taken as given and each absent one takes its default |
| TrainerApi.StartOutcome | trainer/src/api.py:64-82 | the definition of `start_train` under the lock; `BusyChangesNothing`, `UnreadableBodyChangesNothing`, `MalformedChangesNothing`, `StartedState` and `SingleFlight` state its cases |
| TrainerApi.BusyChangesNothing | trainer/src/api.py:67-70 | while training, any request is answered 409 with "Training already running" and changes neither the state nor the thread |
| TrainerApi.UnreadableBodyChangesNothing | trainer/src/api.py:72 | when idle, a body not sent as JSON is answered 415 and one that does not parse 400, before any field is read and with nothing changed |
| TrainerApi.MalformedChangesNothing | trainer/src/api.py:72-75 | a malformed parameter fails the request with 500 before anything changes |
| TrainerApi.StartedState | trainer/src/api.py:76-82 | a launch answers 202 with the epochs, records the parsed parameters as the thread's, and leaves the defaults with status training and started_at the launch time, other keys kept |
| TrainerApi.SingleFlight | trainer/src/api.py:67-82 | after a request starts a run, the next request is refused as busy and changes nothing |
| TrainerApi.AfterRun | trainer/src/api.py:41-62 | the definition of the journal and state after a run; `JournalledIffCompleted` and `UnwritableJournalFails` specify it |
| TrainerApi.JournalledIffCompleted | trainer/src/api.py:41-62 | the journal gains the run's entry exactly when the run completes; a completed run leaves the state alone; a raising run leaves the journal and marks the state failed with its message |
| TrainerApi.UnwritableJournalFails | trainer/src/api.py:57-62 | a completed run whose entry cannot be appended leaves the journal and is marked failed with the append error |
| TrainerApi.Metrics | trainer/src/api.py:88-97 | the definition of the `/metrics` body; `MetricsReadFive`, `MetricsAtStart` and `MetricsAfterSuccess` specify it |
| TrainerApi.MetricsReadFive | trainer/src/api.py:88-97 | the metrics depend on accuracy, loss, epoch, progress and status only |
| TrainerApi.MetricsAtStart | trainer/src/api.py:88-97 | the metrics of the initial state and of a fresh launch: no accuracy or loss, epoch 0, progress 0.0, idle or training |
| TrainerApi.MetricsAfterSuccess | trainer/src/api.py:88-97 | after a successful run the metrics show the last epoch's accuracy, loss and number, progress 100 and done |
| TrainerApi.Trainer.constructor | trainer/src/api.py:23 | no run thread at start |
| TrainerApi.Trainer.StartTrain | trainer/src/api.py:64-82 | the answer, the new state and the new thread are those of `StartOutcome`; the journal is untouched |
| TrainerApi.Trainer.SaveMetadata | trainer/src/api.py:35-39 | the error and the new journal are those of appending the entry |
| TrainerApi.Trainer.BackgroundTrain | trainer/src/api.py:41-62 | the run's result is `RunOutcome`'s; a raising run leaves the journal and marks the state failed; a completed run is journalled with its entry, or marked failed when that fails; the models directory is unchanged when the run raises before the save and otherwise gains the version file and `model_latest.pth`; the summary file is written exactly when the run completes |
| Monitor.ServiceStatusOf | monitor/src/monitor.py:22-34 | the definition of `get_service_status` on its request's outcome; `ClassifyProbe` states every case |
| Monitor.ClassifyProbe | monitor/src/monitor.py:22-34 | a service is ok exactly when it answered with an ok code, and the record then has the code and the body (None when it is not JSON); an error code gives its code and "Bad response"; an exception gives its text and no code; every 2xx and 3xx answer is ok with its body, every 4xx and 5xx answer is not ok with its code; the record's keys follow |
| Monitor.CollectMetrics | monitor/src/monitor.py:36-49 | a sample holds exactly the two named services, each classified from its own probe |
| Monitor.Loaded | monitor/src/monitor.py:55-61 | a missing or unreadable log reads as an empty list |
| Monitor.Last | monitor/src/monitor.py:64 | `s[-n:]` is the suffix of length `min(n, len(s))` |
| Monitor.Written | monitor/src/monitor.py:52-67 | the definition of what `write_metrics` raises and leaves; `WriteKeepsWindow`, `WriteOnNonList` and `WriteAllWindow` specify it |
| Monitor.WriteKeepsWindow | monitor/src/monitor.py:52-67 | after a write the log holds 1 to 200 samples with the new one last: the old list plus it when that fits, otherwise the newest 199 old ones plus it |
| Monitor.WriteOnNonList | monitor/src/monitor.py:63 | a log holding another JSON value makes the write raise and leaves it as it was |
| Monitor.WriteAllWindow | monitor/src/monitor.py:52-67 | after any sequence of writes the log holds the newest 200 of the old samples followed by the written ones |
| Monitor.LogIsNewest200 | monitor/src/monitor.py:52-74 | from no file, the log always holds the newest 200 samples written |
| Monitor.Dashboard | monitor/src/monitor.py:77-90 | the newest 20 samples of a stored list, a server error for any other stored document, `[]` when the log is missing or unreadable |
| Monitor.DashboardShowsNewest | monitor/src/monitor.py:77-90 | the dashboard of a log written from nothing shows the newest 20 samples ever written |
| Monitor.MetricsLog.WriteMetrics | monitor/src/monitor.py:52-67 | the error and the new file are those of `Written` |
| Monitor.MetricsLog.Tick | monitor/src/monitor.py:72-74 | one round of the loop writes the sample collected from its inputs |
| Inference.ModelPathIsLatest | app/src/model.py:9 | the app loads the file the trainer promotes |
| Inference.LoadStep | app/src/model.py:33-48 | the definition of `load_model` on the cache; `LoadTransitions`, `ForceReadsFile`, `LoadTwice` and `PromotedIsServed` specify it |
| Inference.LoadTransitions | app/src/model.py:33-48 | a cached model without a forced reload is kept and reported; a missing file reports False and changes nothing; a loadable file replaces the cache; True always leaves a model; any change is to the file's model |
| Inference.ForceReadsFile | app/src/model.py:39-48 | a forced reload re-reads an existing file even with a model cached |
| Inference.LoadTwice | app/src/model.py:39-40 | after a successful load, loading again without force changes nothing, whatever the file holds |
| Inference.PromotedIsServed | app/src/model.py:39-48 | after the trainer promotes a loadable artifact, a forced reload serves exactly its weights |
| Inference.ArgMax | app/src/model.py:69 | `torch.max`: an index in range holding the largest value, the first such index |
| Inference.PredictOutcome | app/src/model.py:50-70 | the definition of `predict_image_bytes` on the cache; `NoModelAnswer`, `InvalidImageAnswer`, `PredictionIsAClass` and `CachedModelIsStale` specify it |
| Inference.NoModelAnswer | app/src/model.py:55-58 | with no model and no file, the answer is "No model at /models/model_latest.pth" and nothing is cached |
| Inference.InvalidImageAnswer | app/src/model.py:60-63 | an undecodable image is answered "Invalid image file", and a model loaded on the way stays cached |
| Inference.PredictionIsAClass | app/src/model.py:65-70 | a prediction names one of the ten classes, with the largest probability the network gives, at its first index |
| Inference.CachedModelIsStale | app/src/model.py:54-70 | a prediction with a model cached never reloads: it classifies with the cached model whatever the file holds |
| Inference.ModelCache.constructor | app/src/model.py:25 | no model at import time |
| Inference.ModelCache.LoadModel | app/src/model.py:33-48 | the result and the new cache are those of `LoadStep` |
| Inference.ModelCache.PredictImageBytes | app/src/model.py:50-70 | the answer and the new cache are those of `PredictOutcome` |

## Left out

- Threads and locks: each region under `_lock`, `_thread_lock` or `file_lock` is one atomic method. How the background run, the status requests and the monitor interleave is not modelled.
- File and network I/O: files are values (maps of bytes, parsed JSON documents). HTTP requests and their replies are inputs. JSON serialisation, `indent=4`, directory creation and logging are not modelled. `print` output is not modelled either.
- Clock readings and `psutil` readings: they are parameters.
- The sleep of `background_loop` and its endless loop: one round is `Monitor.MetricsLog.Tick`. A write that raises would end the loop's thread, and that is not modelled.
- Torch numerics: the network, `softmax`, the image transform, `build_model`, dataset download and `DEVICE` selection. They are given as data: batch counts, metric values, the saved bytes, the network's probabilities, and a point where the computation raises.
- `round`: progress is rounded to 2 places, the losses and accuracy to 4, and the durations to 2. Values are kept as exact reals.
- `int(...)` and `float(...)` of request fields: the parameters are the converted values or a conversion failure. How a given JSON value converts, for example `int(2.7) == 2`, is not modelled. `Request` has no case for a JSON value that is not an object. A falsy one (`[]`, `0`, `""`, `false`, `null`) is replaced by `{}`, so it runs with the defaults like an empty object. A truthy one, such as a non-empty list or a number other than 0, makes `data.get` raise, and the request fails with 500.
- Floating-point time arithmetic: `train_time_sec` and `duration_min` are exact real differences.
- Flask routes that only forward a read: `/status` is `JobState.Store.GetState`, `/models` is `Registry.ListModels`, and `/metadata` is `TrainerApi.LoadMetadata`. The home routes, `/metrics_json` and `/health` are not modelled. `app/src/api.py` and `frontend/src/app.py` are not part of this model.
- Registry.SaveModelState: readings before the year 1000 are excluded by its precondition, because `%Y` does not pad them the same way on every platform.
- Registry.ModelDir.SetLatest: failures of `os.remove` and `copy2` other than a missing source are not modelled, and neither is the metadata `copy2` preserves.
- Training.CompletesExactly: `UnboundAccuracy` is the text Python 3.11 and later give for an unbound local (`cannot access local variable 'accuracy' ...`). Python 3.10 and earlier say `local variable 'accuracy' referenced before assignment`. The interpreter version is not pinned anywhere in the modelled files; the newer one is assumed.
- TrainerApi.StartOutcome: a body not sent as JSON is answered 415 and a JSON body that does not parse 400, as `get_json` does from Werkzeug 2.3 on. Werkzeug 2.1 and 2.2 answer 400 to both, and earlier releases read a body not sent as JSON as `None`, so it would run with the defaults. No version is pinned in the modelled files; the newer behaviour is assumed.
- Training.TrainOneRun: a `torch.save` or summary write that raises is modelled as writing nothing. A partially written file is not modelled.
- Monitor.Dashboard: every stored document that is not a list is answered with 500. For a JSON string, the code would instead answer with its last 20 characters.
- Inference.PredictImageBytes: image decoding either succeeds or raises `UnidentifiedImageError`. Other decoding exceptions, which would propagate, are not modelled, and `round(conf, 4)` is not modelled.
- The status value `cancelled` is never produced by the code and is not modelled.

## Findings

| source | as written | input that shows it | evidently intended | confidence | as-written member | corrected member |
|---|---|---|---|---|---|---|
| trainer/src/train.py:98-110 | `import request` names a module that does not exist; the `ModuleNotFoundError` is swallowed by the outer `except`, so no reload request is ever made | any successful run, including one where the consumer would accept the first request | `import requests`, then up to three POSTs to `/reload`, stopping at the first ok answer | not executed | Training.ReloadNeverSent | Training.NotifyReload |
