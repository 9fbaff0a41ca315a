/**
 * One training run (trainer/src/train.py, `train_one_run`): the fixed order of
 * state updates, artifact writes and the reload request around the opaque
 * Torch computation.
 *
 * The Torch part is given as data: the number of batches per epoch, the
 * metric values each step reports, the bytes `torch.save` writes, and at most
 * one point at which it raises. Every observable step of the run is an
 * `Event`; `RunOutcome` gives the events a run produces from its inputs, the
 * methods leave the job state that trace replays to, and the lemmas relate
 * every trace to the trace of a run that succeeds.
 */
module Training {
  import opened Common
  import opened JobState
  import Registry

  /** Where, if anywhere, the opaque computation raises, and with which `str(e)`. */
  datatype Fault =
    | NoFault
      /** dataset download, loaders, model or optimiser construction */
    | SetupFault(message: string)
      /** the forward/backward pass of one batch (epoch and batch counted from 1) */
    | BatchFault(epoch: int, batch: int, message: string)
      /** the validation pass after one epoch (including `correct / total`) */
    | ValidationFault(epoch: int, message: string)
      /** `torch.save(model.state_dict(), save_path)` */
    | SaveFault(message: string)
      /** writing `training_metadata.json` */
    | SummaryFault(message: string)

  /** The opaque Torch computation of one run. */
  datatype Torch = Torch(
    batches: nat,                      // len(train_loader)
    runningLoss: (int, int) -> real,   // running_loss / batch_idx after a batch of an epoch
    accuracy: int -> real,             // correct / total of an epoch's validation
    meanValLoss: int -> real,          // val_loss / len(val_loader) of an epoch
    totalValLoss: int -> real,         // val_loss of an epoch
    weights: Bytes,                    // what torch.save writes
    device: string,                    // str(DEVICE)
    fault: Fault)

  /** The clock readings a run takes, in order. */
  datatype Clock = Clock(
    startedAt: real,                   // time.time() for started_at
    runStart: real,                    // start_time
    saveStamp: Registry.DateTime,      // datetime.utcnow() in save_model_state
    summaryTime: real,                 // time.time() for train_time_sec
    finishedStamp: string,             // strftime("%Y-%m-%d %H:%M:%S") for finished_at
    finishedAt: real)                  // time.time() for the final finished_at

  /** The answer to one reload request: `resp.ok`, `not resp.ok`, or an exception. */
  datatype ReloadReply = Accepted | Refused | Unreachable(message: string)

  /** The dictionary written to `training_metadata.json` and returned by the run. */
  datatype RunSummary = RunSummary(
    modelName: string, accuracy: real, loss: real, epochs: int,
    device: string, trainTimeSec: real, finishedAt: string)

  /** The outcome of `train_one_run`: its return value or the exception it re-raises. */
  datatype RunResult = Completed(summary: RunSummary) | Raised(message: string)

  /** One observable step of a run. */
  datatype Event =
    | Set(kwargs: State)               // a set_state call
    | Saved(path: string)              // the weights are written under path
    | Promoted(path: string)           // set_latest(path)
    | Notified(attempts: nat)          // the reload loop made this many requests
    | Summarised(summary: RunSummary)  // training_metadata.json is written

  /** `str(e)` of the `UnboundLocalError` raised when no epoch ran and `accuracy` is read. */
  const UnboundAccuracy := "cannot access local variable 'accuracy' where it is not associated with a value"

  /** `/models/training_metadata.json`, rewritten by every run that gets that far. */
  class SummaryFile {
    var content: Option<RunSummary>

    constructor (initial: Option<RunSummary>)
      ensures content == initial
    {
      content := initial;
    }
  }

  function Min(a: real, b: real): real {
    if a <= b then a else b
  }

  /** `min(100.0, (step / total_steps) * 100.0)` */
  function ProgressAt(step: int, total: int): real
    requires total > 0
  {
    Min(100.0, (step as real / total as real) * 100.0)
  }

  /** Every progress value of a run lies in [0, 100]. */
  lemma ProgressBounds(step: int, total: int)
    requires 0 <= step && total > 0
    ensures 0.0 <= ProgressAt(step, total) <= 100.0
  {
  }

  /** Progress does not decrease as the step counter grows. */
  lemma ProgressMonotone(s1: int, s2: int, total: int)
    requires s1 <= s2 && total > 0
    ensures ProgressAt(s1, total) <= ProgressAt(s2, total)
  {
    assert s1 as real / total as real <= s2 as real / total as real;
  }

  /** The last step of the last epoch reports exactly 100. */
  lemma ProgressComplete(total: int)
    requires total > 0
    ensures ProgressAt(total, total) == 100.0
  {
  }

  /** The update at the start of a run. */
  function BeginUpdate(clock: Clock): State {
    map[StatusKey := Str("training"), ProgressKey := Num(0.0),
        StartedAtKey := Num(clock.startedAt), LastErrorKey := Null]
  }

  /** The update after batch `b` of `epoch`, the run's `step`-th batch. */
  function BatchUpdate(torch: Torch, epoch: int, b: int, step: int, total: int): State
    requires total > 0
  {
    map[ProgressKey := Num(ProgressAt(step, total)), EpochKey := Int(epoch),
        LossKey := Num(torch.runningLoss(epoch, b))]
  }

  /** The update after the validation pass of `epoch`. */
  function EpochUpdate(torch: Torch, epoch: int): State {
    map[AccuracyKey := Num(torch.accuracy(epoch)), LossKey := Num(torch.meanValLoss(epoch)),
        EpochKey := Int(epoch)]
  }

  /** The final update of a run that succeeds. */
  function DoneUpdate(clock: Clock): State {
    map[StatusKey := Str("done"), ProgressKey := Num(100.0),
        FinishedAtKey := Num(clock.finishedAt), LastErrorKey := Null]
  }

  /** The update in the `except` branch. */
  function FailUpdate(message: string): State {
    map[StatusKey := Str("failed"), LastErrorKey := Str(message)]
  }


  /** `total_steps = epochs * len(train_loader)` */
  function TotalSteps(epochs: int, batches: nat): (t: int)
    ensures epochs >= 1 && batches >= 1 ==> t >= 1
  {
    epochs * batches
  }

  /** The number of batches run before epoch `k + 1` starts. */
  function Base(k: nat, batches: nat): nat {
    if k == 0 then 0 else Base(k - 1, batches) + batches
  }

  lemma {:induction false} BaseIsProduct(k: nat, batches: nat)
    ensures Base(k, batches) == k * batches
  {
    if k > 0 {
      BaseIsProduct(k - 1, batches);
      assert (k - 1) * batches + batches == k * batches;
    }
  }

  /** The number of iterations of `for epoch in range(1, epochs + 1)`. */
  function EpochsRun(epochs: int): nat {
    if epochs < 0 then 0 else epochs
  }

  // ---------------------------------------------------------------------
  // Traces

  /** The state after one event: a `set_state` call merges, every other event leaves it. */
  function Apply(s: State, e: Event): State {
    if e.Set? then Update(s, e.kwargs) else s
  }

  /** The state after a trace of events, from `s`. */
  function Replay(s: State, events: seq<Event>): State
    decreases |events|
  {
    if events == [] then s else Replay(Apply(s, events[0]), events[1..])
  }

  lemma {:induction false} ReplayAppend(s: State, a: seq<Event>, b: seq<Event>)
    ensures Replay(s, a + b) == Replay(Replay(s, a), b)
    decreases |a|
  {
    if a == [] {
      assert a + b == b;
    } else {
      assert (a + b)[0] == a[0] && (a + b)[1..] == a[1..] + b;
      ReplayAppend(Apply(s, a[0]), a[1..], b);
    }
  }

  lemma ReplaySnoc(s: State, events: seq<Event>, e: Event)
    ensures Replay(s, events + [e]) == Apply(Replay(s, events), e)
  {
    ReplayAppend(s, events, [e]);
    assert [e][1..] == [];
  }

  /** The keyword arguments of the `set_state` calls of a trace, in order. */
  function Updates(events: seq<Event>): (r: seq<State>)
    ensures |r| <= |events|
    decreases |events|
  {
    if events == [] then []
    else (if events[0].Set? then [events[0].kwargs] else []) + Updates(events[1..])
  }

  /**
   * Replaying a trace is applying its `set_state` calls in order: the
   * other events leave the dictionary alone.
   */
  lemma {:induction false} ReplayIsApplyAll(s: State, events: seq<Event>)
    ensures Replay(s, events) == ApplyAll(s, Updates(events))
    decreases |events|
  {
    if events != [] {
      var rest := Updates(events[1..]);
      ReplayIsApplyAll(Apply(s, events[0]), events[1..]);
      if events[0].Set? {
        var u := [events[0].kwargs] + rest;
        assert Updates(events) == u;
        assert u[0] == events[0].kwargs && u[1..] == rest;
      } else {
        assert Updates(events) == [] + rest == rest;
      }
    }
  }

  /** A trace without `set_state` calls leaves the state as it was. */
  lemma {:induction false} ReplayNoSet(s: State, events: seq<Event>)
    requires forall i :: 0 <= i < |events| ==> !events[i].Set?
    ensures Replay(s, events) == s
    decreases |events|
  {
    if events != [] {
      assert !events[0].Set?;
      assert forall i :: 0 <= i < |events[1..]| ==> events[1..][i] == events[i + 1];
      ReplayNoSet(s, events[1..]);
    }
  }

  /** Replaying never removes a key. */
  lemma {:induction false} ReplayKeys(s: State, events: seq<Event>)
    ensures s.Keys <= Replay(s, events).Keys
    decreases |events|
  {
    if events != [] {
      ReplayKeys(Apply(s, events[0]), events[1..]);
    }
  }

  /** The first `count` batch updates of `epoch`, whose first batch is step `base + 1`. */
  function BatchEvents(torch: Torch, epoch: int, base: int, count: nat, total: int): (r: seq<Event>)
    requires count == 0 || total > 0
    ensures |r| == count
  {
    if count == 0 then []
    else BatchEvents(torch, epoch, base, count - 1, total) + [Set(BatchUpdate(torch, epoch, count, base + count, total))]
  }

  /** The events of the first `k` epochs: their batches, each epoch closed by its validation update. */
  function EpochEvents(torch: Torch, k: nat, total: int): seq<Event>
    requires k == 0 || torch.batches == 0 || total > 0
  {
    if k == 0 then []
    else EpochEvents(torch, k - 1, total)
         + BatchEvents(torch, k, Base(k - 1, torch.batches), torch.batches, total)
         + [Set(EpochUpdate(torch, k))]
  }

  lemma BatchStep(torch: Torch, epoch: int, base: int, b: nat, step: int, total: int)
    requires b >= 1 && total > 0 && step == base + b
    ensures BatchEvents(torch, epoch, base, b, total)
            == BatchEvents(torch, epoch, base, b - 1, total) + [Set(BatchUpdate(torch, epoch, b, step, total))]
  {
  }

  lemma EpochStep(torch: Torch, k: nat, total: int)
    requires k >= 1 && (torch.batches == 0 || total > 0)
    ensures EpochEvents(torch, k, total)
            == EpochEvents(torch, k - 1, total) + BatchEvents(torch, k, Base(k - 1, torch.batches), torch.batches, total)
               + [Set(EpochUpdate(torch, k))]
  {
  }

  /** The events of every epoch of a run. */
  function AllEpochs(epochs: int, torch: Torch): seq<Event> {
    var total := TotalSteps(epochs, torch.batches);
    EpochEvents(torch, EpochsRun(epochs), total)
  }

  /** The opaque computation raises during the batches or the validation of an epoch that runs. */
  predicate FaultInEpochs(epochs: int, torch: Torch) {
    match torch.fault
    case BatchFault(e, b, _) => 1 <= e <= epochs && 1 <= b <= torch.batches
    case ValidationFault(e, _) => 1 <= e <= epochs
    case _ => false
  }

  /** The run raises somewhere before the artifact is written. */
  predicate FailsBeforeSave(epochs: int, torch: Torch) {
    torch.fault.SetupFault? || FaultInEpochs(epochs, torch) || torch.fault.SaveFault?
  }

  /**
   * The events of the epoch loop up to the fault that stops it: every
   * earlier epoch, then the batches of the failing epoch before the fault.
   */
  function PartialEpochs(epochs: int, torch: Torch): seq<Event>
    requires FaultInEpochs(epochs, torch)
  {
    var total := TotalSteps(epochs, torch.batches);
    match torch.fault
    case BatchFault(e, b, _) =>
      EpochEvents(torch, e - 1, total) + BatchEvents(torch, e, Base(e - 1, torch.batches), b - 1, total)
    case ValidationFault(e, _) =>
      EpochEvents(torch, e - 1, total) + BatchEvents(torch, e, Base(e - 1, torch.batches), torch.batches, total)
    case _ => []
  }

  /**
   * The summary a run writes: the version name, the last epoch's accuracy
   * and summed validation loss, and the run's own parameters and timings.
   */
  function Summary(name: string, epochs: int, torch: Torch, clock: Clock): RunSummary {
    RunSummary(name, torch.accuracy(epochs), torch.totalValLoss(epochs), epochs,
               torch.device, clock.summaryTime - clock.runStart, clock.finishedStamp)
  }

  /** The number of reload requests the intended three-attempt loop makes. */
  function ReloadAttempts(reply: nat -> ReloadReply): (n: nat)
    ensures 1 <= n <= 3
    ensures forall j :: 0 <= j < n - 1 ==> !reply(j).Accepted?
    ensures n < 3 ==> reply(n - 1).Accepted?
  {
    if reply(0).Accepted? then 1 else if reply(1).Accepted? then 2 else 3
  }

  /** The events before the epochs. */
  function Head(clock: Clock): seq<Event> {
    [Set(BeginUpdate(clock))]
  }

  /** The artifact written, then promoted, then the reload requests. */
  function Sent(clock: Clock, reply: nat -> ReloadReply): seq<Event>
    requires Registry.ValidDateTime(clock.saveStamp)
  {
    var path := Registry.SaveModelState(clock.saveStamp).0;
    [Saved(path), Promoted(path), Notified(ReloadAttempts(reply))]
  }

  /** The events after the epochs of a run that succeeds. */
  function Tail(epochs: int, torch: Torch, clock: Clock, reply: nat -> ReloadReply): seq<Event>
    requires Registry.ValidDateTime(clock.saveStamp)
  {
    var name := Registry.SaveModelState(clock.saveStamp).1;
    Sent(clock, reply) + [Summarised(Summary(name, epochs, torch, clock))] + [Set(DoneUpdate(clock))]
  }

  /** Every event of a run that succeeds, in order. */
  function SuccessTrace(epochs: int, torch: Torch, clock: Clock, reply: nat -> ReloadReply): seq<Event>
    requires Registry.ValidDateTime(clock.saveStamp)
  {
    Head(clock) + AllEpochs(epochs, torch) + Tail(epochs, torch, clock, reply)
  }

  /** A run that raises after the events `before`: the `except` branch records the message. */
  function Failed(before: seq<Event>, message: string): (RunResult, seq<Event>) {
    (Raised(message), before + [Set(FailUpdate(message))])
  }

  /**
   * The outcome of `train_one_run` and the events it produces, branch by
   * branch as the code runs: a fault in the setup or in an epoch that runs,
   * or else whatever happens after the epoch loop.
   */
  function RunOutcome(epochs: int, torch: Torch, clock: Clock, reply: nat -> ReloadReply): (RunResult, seq<Event>)
    requires Registry.ValidDateTime(clock.saveStamp)
  {
    if torch.fault.SetupFault? then Failed(Head(clock), torch.fault.message)
    else if FaultInEpochs(epochs, torch) then Failed(Head(clock) + PartialEpochs(epochs, torch), torch.fault.message)
    else
      var (result, after) := Finish(epochs, torch, clock, reply);
      (result, Head(clock) + AllEpochs(epochs, torch) + after)
  }

  /**
   * The outcome once every epoch has run, and the events from there on: a
   * fault in `torch.save`; no epoch at all, so that reading `accuracy`
   * raises once the artifact is promoted and the reload attempted; a fault
   * writing the summary; or success.
   */
  function Finish(epochs: int, torch: Torch, clock: Clock, reply: nat -> ReloadReply): (RunResult, seq<Event>)
    requires Registry.ValidDateTime(clock.saveStamp)
  {
    var name := Registry.SaveModelState(clock.saveStamp).1;
    if torch.fault.SaveFault? then Failed([], torch.fault.message)
    else if epochs < 1 then Failed(Sent(clock, reply), UnboundAccuracy)
    else if torch.fault.SummaryFault? then Failed(Sent(clock, reply), torch.fault.message)
    else (Completed(Summary(name, epochs, torch, clock)), Tail(epochs, torch, clock, reply))
  }

  // ---------------------------------------------------------------------
  // What a run promises

  /**
   * A run completes exactly when nothing raises before the artifact is
   * written, at least one epoch ran and the summary is written; it then
   * returns the summary of the last epoch.
   */
  lemma CompletesExactly(epochs: int, torch: Torch, clock: Clock, reply: nat -> ReloadReply)
    requires Registry.ValidDateTime(clock.saveStamp)
    ensures var (result, events) := RunOutcome(epochs, torch, clock, reply);
            && (result.Completed? <==> !FailsBeforeSave(epochs, torch) && epochs >= 1 && !torch.fault.SummaryFault?)
            && (result.Completed? ==>
                  result.summary == Summary(Registry.SaveModelState(clock.saveStamp).1, epochs, torch, clock)
                  && result.summary.accuracy == torch.accuracy(epochs)
                  && events == SuccessTrace(epochs, torch, clock, reply))
            && (!FailsBeforeSave(epochs, torch) && epochs < 1 ==> result == Raised(UnboundAccuracy))
            && (FailsBeforeSave(epochs, torch) ==> result == Raised(torch.fault.message))
            && (!FailsBeforeSave(epochs, torch) && epochs >= 1 && torch.fault.SummaryFault?
                ==> result == Raised(torch.fault.message))
  {
  }

  /**
   * The reset of the next launch, after any run, completed or raised: the
   * eight keys are back at their defaults, and every other key the state
   * held before the run is still there.
   */
  lemma ResetAfterRun(s: State, epochs: int, torch: Torch, clock: Clock, reply: nat -> ReloadReply)
    requires Registry.ValidDateTime(clock.saveStamp)
    ensures var r := Reset(Replay(s, RunOutcome(epochs, torch, clock, reply).1));
            && (forall k :: k in KnownKeys ==> r[k] == Defaults()[k])
            && (forall k :: k in s && k !in KnownKeys ==> k in r)
  {
    var events := RunOutcome(epochs, torch, clock, reply).1;
    ReplayIsApplyAll(s, events);
    ResetAfterUpdates(s, Updates(events));
  }

  lemma {:induction false} BatchEventsPrefix(torch: Torch, epoch: int, base: int, c: nat, d: nat, total: int)
    requires c <= d && (d == 0 || total > 0)
    ensures BatchEvents(torch, epoch, base, c, total) <= BatchEvents(torch, epoch, base, d, total)
  {
    if c < d {
      BatchEventsPrefix(torch, epoch, base, c, d - 1, total);
    }
  }

  lemma {:induction false} EpochEventsPrefix(torch: Torch, i: nat, j: nat, total: int)
    requires i <= j && (j == 0 || torch.batches == 0 || total > 0)
    ensures EpochEvents(torch, i, total) <= EpochEvents(torch, j, total)
  {
    if i < j {
      EpochEventsPrefix(torch, i, j - 1, total);
    }
  }

  /** The first `count` batches of epoch `e` are a proper prefix of the first `e` epochs. */
  lemma EpochPrefix(torch: Torch, e: nat, count: nat, total: int)
    requires 1 <= e && count <= torch.batches && (torch.batches == 0 || total > 0)
    ensures EpochEvents(torch, e - 1, total) + BatchEvents(torch, e, Base(e - 1, torch.batches), count, total)
            < EpochEvents(torch, e, total)
  {
    var pre := EpochEvents(torch, e - 1, total);
    var bs := BatchEvents(torch, e, Base(e - 1, torch.batches), count, total);
    var full := BatchEvents(torch, e, Base(e - 1, torch.batches), torch.batches, total);
    BatchEventsPrefix(torch, e, Base(e - 1, torch.batches), count, torch.batches, total);
    assert full == bs + full[|bs|..];
    EpochStep(torch, e, total);
    assert EpochEvents(torch, e, total) == pre + bs + (full[|bs|..] + [Set(EpochUpdate(torch, e))]);
  }

  /** The events up to a fault in an epoch are a proper prefix of those of every epoch. */
  lemma PartialIsPrefix(epochs: int, torch: Torch)
    requires FaultInEpochs(epochs, torch)
    ensures PartialEpochs(epochs, torch) < AllEpochs(epochs, torch)
  {
    var total := TotalSteps(epochs, torch.batches);
    var e := torch.fault.epoch;
    var count := if torch.fault.BatchFault? then torch.fault.batch - 1 else torch.batches;
    assert PartialEpochs(epochs, torch)
           == EpochEvents(torch, e - 1, total) + BatchEvents(torch, e, Base(e - 1, torch.batches), count, total);
    EpochPrefix(torch, e, count, total);
    EpochEventsPrefix(torch, e, EpochsRun(epochs), total);
  }

  /** A proper prefix stays one when a common head is put before it and more is put after. */
  lemma PrefixExtend(h: seq<Event>, a: seq<Event>, b: seq<Event>, t: seq<Event>)
    requires a < b
    ensures h + a < h + b + t
  {
    assert b == a + b[|a|..];
    assert h + b + t == h + a + (b[|a|..] + t);
  }

  /**
   * A run that raises has recorded a proper prefix of the events of a run
   * that succeeds, followed by the `failed` update with the message it
   * re-raises: nothing after the fault happens.
   */
  lemma RaisedIsPrefix(epochs: int, torch: Torch, clock: Clock, reply: nat -> ReloadReply)
    requires Registry.ValidDateTime(clock.saveStamp)
    ensures var (result, events) := RunOutcome(epochs, torch, clock, reply);
            result.Raised? ==>
              && |events| > 0 && events[|events| - 1] == Set(FailUpdate(result.message))
              && events[..|events| - 1] < SuccessTrace(epochs, torch, clock, reply)
  {
    var (result, events) := RunOutcome(epochs, torch, clock, reply);
    var head := Head(clock);
    var all := AllEpochs(epochs, torch);
    var tail := Tail(epochs, torch, clock, reply);
    var sent := Sent(clock, reply);
    assert SuccessTrace(epochs, torch, clock, reply) == head + all + tail;
    if result.Raised? {
      var fail := Set(FailUpdate(result.message));
      var before := events[..|events| - 1];
      if torch.fault.SetupFault? {
        assert before == head;
        PrefixExtend(head, [], all + tail, []);
        assert head + (all + tail) + [] == head + all + tail;
      } else if FaultInEpochs(epochs, torch) {
        assert before == head + PartialEpochs(epochs, torch);
        PartialIsPrefix(epochs, torch);
        PrefixExtend(head, PartialEpochs(epochs, torch), all, tail);
      } else if torch.fault.SaveFault? {
        assert events == head + all + ([] + [fail]);
        assert before == head + all;
        PrefixExtend(head + all, [], tail, []);
      } else {
        assert events == head + all + (sent + [fail]);
        assert events == head + all + sent + [fail];
        assert before == head + all + sent;
        assert tail == sent + (tail[|sent|..]);
        PrefixExtend(head + all, sent, tail, []);
      }
    }
  }

  /**
   * The order of a successful run: the start update, then only the epoch
   * loop's metric updates, then the artifact written, promoted from the
   * same path, the reload requests, the summary written, and `done` last.
   */
  lemma SuccessOrder(epochs: int, torch: Torch, clock: Clock, reply: nat -> ReloadReply)
    requires Registry.ValidDateTime(clock.saveStamp)
    ensures var t := SuccessTrace(epochs, torch, clock, reply);
            var (path, name) := Registry.SaveModelState(clock.saveStamp);
            && |t| >= 6 && t[0] == Set(BeginUpdate(clock))
            && OnlyMetrics(t[1..|t| - 5])
            && t[|t| - 5..] == [Saved(path), Promoted(path), Notified(ReloadAttempts(reply)),
                                Summarised(Summary(name, epochs, torch, clock)), Set(DoneUpdate(clock))]
  {
    var all := AllEpochs(epochs, torch);
    var tail := Tail(epochs, torch, clock, reply);
    EpochEventsOnlyMetrics(torch, EpochsRun(epochs), TotalSteps(epochs, torch.batches));
    var t := SuccessTrace(epochs, torch, clock, reply);
    assert t == Head(clock) + all + tail;
    assert |tail| == 5;
    assert t[1..|t| - 5] == all;
    assert t[|t| - 5..] == tail;
  }

  /**
   * Reload requests never decide how a run ends: whatever the replies, the
   * run returns or raises the same.
   */
  lemma ReloadRepliesIrrelevant(epochs: int, torch: Torch, clock: Clock, reply1: nat -> ReloadReply,
                                reply2: nat -> ReloadReply)
    requires Registry.ValidDateTime(clock.saveStamp)
    ensures RunOutcome(epochs, torch, clock, reply1).0 == RunOutcome(epochs, torch, clock, reply2).0
  {
  }

  /** The keys the epoch loop writes. */
  const MetricKeys: set<Key> := {ProgressKey, EpochKey, AccuracyKey, LossKey}

  /** Every event of the trace is a `set_state` call naming metric keys only. */
  predicate OnlyMetrics(events: seq<Event>) {
    forall i :: 0 <= i < |events| ==> events[i].Set? && events[i].kwargs.Keys <= MetricKeys
  }

  lemma OnlyMetricsAppend(a: seq<Event>, b: seq<Event>)
    requires OnlyMetrics(a) && OnlyMetrics(b)
    ensures OnlyMetrics(a + b)
  {
    forall i | 0 <= i < |a + b| ensures (a + b)[i].Set? && (a + b)[i].kwargs.Keys <= MetricKeys {
      if i >= |a| { assert (a + b)[i] == b[i - |a|]; }
    }
  }

  /** The keys every batch update writes. */
  const BatchKeys: set<Key> := {ProgressKey, EpochKey, LossKey}

  /**
   * Every batch update sets exactly progress, epoch and loss; accuracy is
   * written only after validation.
   */
  lemma {:induction false} BatchEventsOnlyMetrics(torch: Torch, epoch: int, base: int, count: nat, total: int)
    requires count == 0 || total > 0
    ensures forall i :: 0 <= i < count ==>
              BatchEvents(torch, epoch, base, count, total)[i].Set?
              && BatchEvents(torch, epoch, base, count, total)[i].kwargs.Keys == BatchKeys
    ensures OnlyMetrics(BatchEvents(torch, epoch, base, count, total))
  {
    if count > 0 {
      var prev := BatchEvents(torch, epoch, base, count - 1, total);
      var r := BatchEvents(torch, epoch, base, count, total);
      BatchEventsOnlyMetrics(torch, epoch, base, count - 1, total);
      forall i | 0 <= i < count ensures r[i].Set? && r[i].kwargs.Keys == BatchKeys {
        if i < count - 1 {
          assert r[i] == prev[i];
        } else {
          assert r[i].kwargs.Keys == BatchUpdate(torch, epoch, count, base + count, total).Keys;
        }
      }
    }
  }

  lemma {:induction false} EpochEventsOnlyMetrics(torch: Torch, k: nat, total: int)
    requires k == 0 || torch.batches == 0 || total > 0
    ensures OnlyMetrics(EpochEvents(torch, k, total))
  {
    if k > 0 {
      var prev := EpochEvents(torch, k - 1, total);
      var bs := BatchEvents(torch, k, Base(k - 1, torch.batches), torch.batches, total);
      EpochEventsOnlyMetrics(torch, k - 1, total);
      BatchEventsOnlyMetrics(torch, k, Base(k - 1, torch.batches), torch.batches, total);
      OnlyMetricsAppend(prev, bs);
      OnlyMetricsAppend(prev + bs, [Set(EpochUpdate(torch, k))]);
    }
  }

  /** Updates that name metric keys only leave every other key as it was. */
  lemma {:induction false} MetricsKeepOthers(s: State, events: seq<Event>, key: Key)
    requires OnlyMetrics(events) && key in s && key !in MetricKeys
    ensures key in Replay(s, events) && Replay(s, events)[key] == s[key]
    decreases |events|
  {
    if events != [] {
      var tl := events[1..];
      assert OnlyMetrics(tl) by {
        forall i | 0 <= i < |tl| ensures tl[i].Set? && tl[i].kwargs.Keys <= MetricKeys {
          assert tl[i] == events[i + 1];
        }
      }
      var s1 := Apply(s, events[0]);
      assert key in s1 && s1[key] == s[key];
      MetricsKeepOthers(s1, tl, key);
    }
  }

  /** After every epoch, the state shows the last epoch's number, accuracy and mean loss. */
  lemma AllEpochsState(s: State, epochs: int, torch: Torch)
    requires epochs >= 1
    ensures var r := Replay(s, AllEpochs(epochs, torch));
            && EpochKey in r && r[EpochKey] == Int(epochs)
            && AccuracyKey in r && r[AccuracyKey] == Num(torch.accuracy(epochs))
            && LossKey in r && r[LossKey] == Num(torch.meanValLoss(epochs))
  {
    var total := TotalSteps(epochs, torch.batches);
    var prev := EpochEvents(torch, epochs - 1, total);
    var bs := BatchEvents(torch, epochs, Base(epochs - 1, torch.batches), torch.batches, total);
    var last := Set(EpochUpdate(torch, epochs));
    assert AllEpochs(epochs, torch) == prev + bs + [last];
    ReplaySnoc(s, prev + bs, last);
  }

  /** The trace of a successful run, cut where the state changes. */
  lemma SuccessTraceParts(epochs: int, torch: Torch, clock: Clock, reply: nat -> ReloadReply)
    requires Registry.ValidDateTime(clock.saveStamp)
    ensures var name := Registry.SaveModelState(clock.saveStamp).1;
            SuccessTrace(epochs, torch, clock, reply)
            == [Set(BeginUpdate(clock))] + AllEpochs(epochs, torch)
               + (Sent(clock, reply) + [Summarised(Summary(name, epochs, torch, clock))])
               + [Set(DoneUpdate(clock))]
  {
  }

  /** Only the start, the epochs and `done` change the state of a successful run. */
  lemma SuccessReplay(s: State, epochs: int, torch: Torch, clock: Clock, reply: nat -> ReloadReply)
    requires Registry.ValidDateTime(clock.saveStamp)
    ensures Replay(s, SuccessTrace(epochs, torch, clock, reply))
            == Update(Replay(Update(s, BeginUpdate(clock)), AllEpochs(epochs, torch)), DoneUpdate(clock))
  {
    var begin := [Set(BeginUpdate(clock))];
    var all := AllEpochs(epochs, torch);
    var name := Registry.SaveModelState(clock.saveStamp).1;
    var quiet := Sent(clock, reply) + [Summarised(Summary(name, epochs, torch, clock))];
    var doneEv := Set(DoneUpdate(clock));
    SuccessTraceParts(epochs, torch, clock, reply);
    assert Replay(s, begin) == Update(s, BeginUpdate(clock)) by { ReplaySnoc(s, [], Set(BeginUpdate(clock))); }
    ReplayNoSet(Replay(Update(s, BeginUpdate(clock)), all), quiet);
    ReplayAppend(s, begin, all);
    ReplayAppend(s, begin + all, quiet);
    ReplaySnoc(s, begin + all + quiet, doneEv);
  }

  /**
   * After the epochs, from a state holding the eight keys: the same keys,
   * the last epoch's metrics, and every key the epochs do not write as before.
   */
  lemma EpochsOverState(s1: State, epochs: int, torch: Torch)
    requires KnownKeys <= s1.Keys && epochs >= 1
    ensures var s2 := Replay(s1, AllEpochs(epochs, torch));
            && s2.Keys == s1.Keys
            && s2[EpochKey] == Int(epochs) && s2[AccuracyKey] == Num(torch.accuracy(epochs))
            && s2[LossKey] == Num(torch.meanValLoss(epochs))
            && forall k :: k in s1 && k !in MetricKeys ==> s2[k] == s1[k]
  {
    var all := AllEpochs(epochs, torch);
    EpochEventsOnlyMetrics(torch, EpochsRun(epochs), TotalSteps(epochs, torch.batches));
    AllEpochsState(s1, epochs, torch);
    ReplayKeys(s1, all);
    ApplyAllStaysKnownKeys(s1, all);
    forall k | k in s1 && k !in MetricKeys ensures Replay(s1, all)[k] == s1[k] {
      MetricsKeepOthers(s1, all, k);
    }
  }

  /**
   * The state a successful run leaves: `done` at 100, no error, the start
   * and finish times of this run, and the last epoch's number and accuracy;
   * every other key keeps its value.
   */
  lemma CompletedState(s: State, epochs: int, torch: Torch, clock: Clock, reply: nat -> ReloadReply)
    requires Registry.ValidDateTime(clock.saveStamp)
    requires KnownKeys <= s.Keys && epochs >= 1
    ensures var r := Replay(s, SuccessTrace(epochs, torch, clock, reply));
            && r.Keys == s.Keys
            && r[StatusKey] == Str("done") && r[ProgressKey] == Num(100.0) && r[LastErrorKey] == Null
            && r[StartedAtKey] == Num(clock.startedAt) && r[FinishedAtKey] == Num(clock.finishedAt)
            && r[EpochKey] == Int(epochs) && r[AccuracyKey] == Num(torch.accuracy(epochs))
            && r[LossKey] == Num(torch.meanValLoss(epochs))
            && forall k :: k in s && k !in KnownKeys ==> r[k] == s[k]
  {
    var s1 := Update(s, BeginUpdate(clock));
    var s2 := Replay(s1, AllEpochs(epochs, torch));
    SuccessReplay(s, epochs, torch, clock, reply);
    EpochsOverState(s1, epochs, torch);
    DoneState(s, s2, clock, epochs, torch.accuracy(epochs), torch.meanValLoss(epochs));
  }

  /** The map facts behind `CompletedState`, away from the trace. */
  lemma DoneState(s: State, s2: State, clock: Clock, epochs: int, accuracy: real, loss: real)
    requires KnownKeys <= s.Keys
    requires var s1 := Update(s, BeginUpdate(clock));
             && s2.Keys == s1.Keys
             && s2[EpochKey] == Int(epochs) && s2[AccuracyKey] == Num(accuracy) && s2[LossKey] == Num(loss)
             && forall k :: k in s1 && k !in MetricKeys ==> s2[k] == s1[k]
    ensures var r := Update(s2, DoneUpdate(clock));
            && r.Keys == s.Keys
            && r[StatusKey] == Str("done") && r[ProgressKey] == Num(100.0) && r[LastErrorKey] == Null
            && r[StartedAtKey] == Num(clock.startedAt) && r[FinishedAtKey] == Num(clock.finishedAt)
            && r[EpochKey] == Int(epochs) && r[AccuracyKey] == Num(accuracy) && r[LossKey] == Num(loss)
            && forall k :: k in s && k !in KnownKeys ==> r[k] == s[k]
  {
    var s1 := Update(s, BeginUpdate(clock));
    assert StartedAtKey in s1 && StartedAtKey !in MetricKeys;
  }

  /** Replaying epoch events adds no key outside the eight. */
  lemma {:induction false} ApplyAllStaysKnownKeys(s: State, events: seq<Event>)
    requires OnlyMetrics(events)
    ensures Replay(s, events).Keys <= s.Keys + MetricKeys
    decreases |events|
  {
    if events != [] {
      var tl := events[1..];
      assert OnlyMetrics(tl) by {
        forall i | 0 <= i < |tl| ensures tl[i].Set? && tl[i].kwargs.Keys <= MetricKeys {
          assert tl[i] == events[i + 1];
        }
      }
      ApplyAllStaysKnownKeys(Apply(s, events[0]), tl);
    }
  }

  /** A run that raises leaves `failed` with the message it re-raises. */
  lemma RaisedState(s: State, epochs: int, torch: Torch, clock: Clock, reply: nat -> ReloadReply)
    requires Registry.ValidDateTime(clock.saveStamp)
    requires RunOutcome(epochs, torch, clock, reply).0.Raised?
    ensures var (result, events) := RunOutcome(epochs, torch, clock, reply);
            var r := Replay(s, events);
            && StatusKey in r && r[StatusKey] == Str("failed")
            && LastErrorKey in r && r[LastErrorKey] == Str(result.message)
  {
    var (result, events) := RunOutcome(epochs, torch, clock, reply);
    var fail := Set(FailUpdate(result.message));
    var before := events[..|events| - 1];
    if !torch.fault.SetupFault? && !FaultInEpochs(epochs, torch) {
      var after := Finish(epochs, torch, clock, reply).1;
      assert events == Head(clock) + AllEpochs(epochs, torch) + after;
      assert after == after[..|after| - 1] + [fail];
    }
    assert events == before + [fail];
    ReplaySnoc(s, before, fail);
  }

  // ---------------------------------------------------------------------
  // Progress

  /** The progress value an event reports, if any. */
  function Reported(e: Event): seq<real> {
    if e.Set? && ProgressKey in e.kwargs && e.kwargs[ProgressKey].Num? then [e.kwargs[ProgressKey].x] else []
  }

  /** The progress values a trace reports, in order. */
  function Progresses(events: seq<Event>): seq<real>
    decreases |events|
  {
    if events == [] then [] else Reported(events[0]) + Progresses(events[1..])
  }

  lemma {:induction false} ProgressesAppend(a: seq<Event>, b: seq<Event>)
    ensures Progresses(a + b) == Progresses(a) + Progresses(b)
    decreases |a|
  {
    if a == [] {
      assert a + b == b;
    } else {
      assert (a + b)[0] == a[0] && (a + b)[1..] == a[1..] + b;
      ProgressesAppend(a[1..], b);
    }
  }

  lemma ProgressesOne(e: Event)
    ensures Progresses([e]) == Reported(e)
  {
    assert [e][1..] == [];
  }

  lemma {:induction false} ProgressesNoSet(events: seq<Event>)
    requires forall i :: 0 <= i < |events| ==> !events[i].Set?
    ensures Progresses(events) == []
    decreases |events|
  {
    if events != [] {
      assert forall i :: 0 <= i < |events[1..]| ==> events[1..][i] == events[i + 1];
      ProgressesNoSet(events[1..]);
    }
  }

  /** The `i`-th value of `ps` is the progress of step `from + i + 1`. */
  predicate StepsFrom(ps: seq<real>, from: int, total: int)
    requires total > 0
  {
    forall i :: 0 <= i < |ps| ==> ps[i] == ProgressAt(from + i + 1, total)
  }

  lemma {:induction false} ProgressesOfBatches(torch: Torch, epoch: int, base: int, count: nat, total: int)
    requires total > 0
    ensures |Progresses(BatchEvents(torch, epoch, base, count, total))| == count
    ensures StepsFrom(Progresses(BatchEvents(torch, epoch, base, count, total)), base, total)
  {
    if count > 0 {
      var prev := BatchEvents(torch, epoch, base, count - 1, total);
      var e := Set(BatchUpdate(torch, epoch, count, base + count, total));
      ProgressesOfBatches(torch, epoch, base, count - 1, total);
      ProgressesAppend(prev, [e]);
      ProgressesOne(e);
      var ps := Progresses(prev) + [ProgressAt(base + count, total)];
      assert Progresses(BatchEvents(torch, epoch, base, count, total)) == ps;
      forall i | 0 <= i < |ps| ensures ps[i] == ProgressAt(base + i + 1, total) {
        if i < count - 1 { assert ps[i] == Progresses(prev)[i]; }
      }
    }
  }

  lemma StepsFromAppend(a: seq<real>, b: seq<real>, total: int)
    requires total > 0
    requires StepsFrom(a, 0, total) && StepsFrom(b, |a|, total)
    ensures StepsFrom(a + b, 0, total)
  {
    forall i | 0 <= i < |a + b| ensures (a + b)[i] == ProgressAt(i + 1, total) {
      if i >= |a| {
        assert (a + b)[i] == b[i - |a|];
      } else {
        assert (a + b)[i] == a[i];
      }
    }
  }

  /** Over `k` epochs the progress values are those of steps 1 .. Base(k), in order. */
  lemma {:induction false} ProgressesOfEpochs(torch: Torch, k: nat, total: int)
    requires total > 0
    ensures |Progresses(EpochEvents(torch, k, total))| == Base(k, torch.batches)
    ensures StepsFrom(Progresses(EpochEvents(torch, k, total)), 0, total)
  {
    if k > 0 {
      var prev := EpochEvents(torch, k - 1, total);
      var bs := BatchEvents(torch, k, Base(k - 1, torch.batches), torch.batches, total);
      var v := Set(EpochUpdate(torch, k));
      ProgressesOfEpochs(torch, k - 1, total);
      ProgressesAppend(prev + bs, [v]);
      ProgressesAppend(prev, bs);
      ProgressesOne(v);
      assert Reported(v) == [];
      ProgressesOfBatches(torch, k, Base(k - 1, torch.batches), torch.batches, total);
      assert Progresses(EpochEvents(torch, k, total)) == Progresses(prev) + Progresses(bs);
      StepsFromAppend(Progresses(prev), Progresses(bs), total);
    }
  }

  predicate Ascending(s: seq<real>) {
    forall i, j :: 0 <= i < j < |s| ==> s[i] <= s[j]
  }

  /** The progress values of `total` steps, framed by the start (0) and `done` (100). */
  lemma FramedRun(run: seq<real>, total: int)
    requires total > 0 && |run| == total && StepsFrom(run, 0, total)
    ensures var ps := [0.0] + run + [100.0];
            && ps[|ps| - 2] == 100.0 && Ascending(ps)
            && forall i :: 0 <= i < |ps| ==> 0.0 <= ps[i] <= 100.0
  {
    var ps := [0.0] + run + [100.0];
    ProgressComplete(total);
    assert ps[|ps| - 2] == run[total - 1];
    forall i | 0 <= i < |ps| ensures 0.0 <= ps[i] <= 100.0 {
      if 0 < i < |ps| - 1 {
        assert ps[i] == run[i - 1];
        ProgressBounds(i, total);
      }
    }
    forall i, j | 0 <= i < j < |ps| ensures ps[i] <= ps[j] {
      if 0 < i && j < |ps| - 1 {
        assert ps[i] == run[i - 1] && ps[j] == run[j - 1];
        ProgressMonotone(i, j, total);
      } else if 0 < i {
        assert ps[i] == run[i - 1];
        ProgressBounds(i, total);
      } else if j < |ps| - 1 {
        assert ps[j] == run[j - 1];
        ProgressBounds(j, total);
      }
    }
  }

  /** A successful run reports 0 first, then the epochs' values, then 100. */
  lemma SuccessProgresses(epochs: int, torch: Torch, clock: Clock, reply: nat -> ReloadReply)
    requires Registry.ValidDateTime(clock.saveStamp)
    ensures Progresses(SuccessTrace(epochs, torch, clock, reply)) == [0.0] + Progresses(AllEpochs(epochs, torch)) + [100.0]
  {
    var begin := Set(BeginUpdate(clock));
    var all := AllEpochs(epochs, torch);
    var name := Registry.SaveModelState(clock.saveStamp).1;
    var quiet := Sent(clock, reply) + [Summarised(Summary(name, epochs, torch, clock))];
    var doneEv := Set(DoneUpdate(clock));
    SuccessTraceParts(epochs, torch, clock, reply);
    ProgressesAppend([begin] + all + quiet, [doneEv]);
    ProgressesAppend([begin] + all, quiet);
    ProgressesAppend([begin], all);
    ProgressesOne(begin);
    ProgressesOne(doneEv);
    assert Reported(begin) == [0.0] && Reported(doneEv) == [100.0];
    ProgressesNoSet(quiet);
    assert Progresses([begin] + all + quiet) == [0.0] + Progresses(all);
  }

  /**
   * The progress values a successful run reports: 0 at the start, one value
   * per batch (step s reporting min(100, s / total * 100)), the last batch at
   * exactly 100, and 100 again with `done`; the sequence never decreases and
   * stays within [0, 100].
   */
  lemma SuccessProgress(epochs: int, torch: Torch, clock: Clock, reply: nat -> ReloadReply)
    requires Registry.ValidDateTime(clock.saveStamp)
    requires epochs >= 1 && torch.batches >= 1
    ensures var ps := Progresses(SuccessTrace(epochs, torch, clock, reply));
            && |ps| == epochs * torch.batches + 2
            && ps[0] == 0.0 && ps[|ps| - 2] == 100.0 && ps[|ps| - 1] == 100.0
            && (forall s :: 1 <= s <= epochs * torch.batches ==> ps[s] == ProgressAt(s, epochs * torch.batches))
            && Ascending(ps)
            && forall i :: 0 <= i < |ps| ==> 0.0 <= ps[i] <= 100.0
  {
    var total := TotalSteps(epochs, torch.batches);
    var run := Progresses(AllEpochs(epochs, torch));
    SuccessProgresses(epochs, torch, clock, reply);
    ProgressesOfEpochs(torch, epochs, total);
    BaseIsProduct(epochs, torch.batches);
    FramedRun(run, total);
    var ps := [0.0] + run + [100.0];
    forall s | 1 <= s <= total ensures ps[s] == ProgressAt(s, total) {
      var i := s - 1;
      assert ps[s] == run[i];
      assert run[i] == ProgressAt(0 + i + 1, total);
    }
  }

  /** Without batches the epoch loop reports no progress: only validation updates run. */
  lemma {:induction false} NoBatchProgresses(torch: Torch, k: nat, total: int)
    requires torch.batches == 0
    ensures Progresses(EpochEvents(torch, k, total)) == []
  {
    if k > 0 {
      var prev := EpochEvents(torch, k - 1, total);
      var bs := BatchEvents(torch, k, Base(k - 1, torch.batches), torch.batches, total);
      var v := Set(EpochUpdate(torch, k));
      NoBatchProgresses(torch, k - 1, total);
      ProgressesAppend(prev + bs, [v]);
      ProgressesAppend(prev, bs);
      ProgressesOne(v);
      assert ProgressKey !in v.kwargs;
    }
  }

  /**
   * A successful run over a loader without batches reports progress 0 at
   * the start and 100 with `done`, and nothing in between.
   */
  lemma SuccessProgressNoBatches(epochs: int, torch: Torch, clock: Clock, reply: nat -> ReloadReply)
    requires Registry.ValidDateTime(clock.saveStamp)
    requires torch.batches == 0
    ensures Progresses(SuccessTrace(epochs, torch, clock, reply)) == [0.0, 100.0]
  {
    SuccessProgresses(epochs, torch, clock, reply);
    NoBatchProgresses(torch, EpochsRun(epochs), TotalSteps(epochs, torch.batches));
  }

  // ---------------------------------------------------------------------
  // The run, step by step

  /**
   * What the epoch loop leaves behind: the message of a fault in an epoch
   * that runs and the events up to it, or no fault and every epoch's events.
   */
  function EpochsOutcome(epochs: int, torch: Torch): (Option<string>, seq<Event>) {
    if FaultInEpochs(epochs, torch) then (Some(torch.fault.message), PartialEpochs(epochs, torch))
    else (None, AllEpochs(epochs, torch))
  }

  /** `accuracy` and `val_loss` after `k` epochs: the last epoch's, or unbound. */
  function LastMetrics(k: int, torch: Torch): (Option<real>, Option<real>) {
    if k >= 1 then (Some(torch.accuracy(k)), Some(torch.totalValLoss(k))) else (None, None)
  }

  /** The opaque computation raises during the batches or the validation of epoch `e`. */
  predicate FaultAt(torch: Torch, e: int) {
    match torch.fault
    case BatchFault(e', b, _) => e' == e && 1 <= b <= torch.batches
    case ValidationFault(e', _) => e' == e
    case _ => false
  }

  /**
   * The events of epoch `k` on its own: its batches up to a fault in one of
   * them, all of them when the fault is in its validation, and otherwise all
   * of them closed by the validation update.
   */
  function EpochTrace(torch: Torch, k: nat, total: int): seq<Event>
    requires k >= 1 && (torch.batches == 0 || total > 0)
  {
    var base := Base(k - 1, torch.batches);
    match torch.fault
    case BatchFault(e, b, _) =>
      if e == k && 1 <= b <= torch.batches then BatchEvents(torch, k, base, b - 1, total)
      else BatchEvents(torch, k, base, torch.batches, total) + [Set(EpochUpdate(torch, k))]
    case ValidationFault(e, _) =>
      if e == k then BatchEvents(torch, k, base, torch.batches, total)
      else BatchEvents(torch, k, base, torch.batches, total) + [Set(EpochUpdate(torch, k))]
    case _ => BatchEvents(torch, k, base, torch.batches, total) + [Set(EpochUpdate(torch, k))]
  }

  /** An epoch without a fault extends the trace of the epochs before it. */
  lemma EpochTraceStep(torch: Torch, k: nat, total: int)
    requires k >= 1 && (torch.batches == 0 || total > 0) && !FaultAt(torch, k)
    ensures EpochEvents(torch, k, total) == EpochEvents(torch, k - 1, total) + EpochTrace(torch, k, total)
  {
    EpochStep(torch, k, total);
  }

  /** A fault in epoch `e` ends the loop with the events up to it. */
  lemma FaultOutcome(epochs: int, torch: Torch, e: nat, total: int)
    requires 1 <= e <= epochs && total == TotalSteps(epochs, torch.batches) && FaultAt(torch, e)
    ensures EpochsOutcome(epochs, torch)
            == (Some(torch.fault.message), EpochEvents(torch, e - 1, total) + EpochTrace(torch, e, total))
  {
  }

  /** The loop ran every epoch without a fault. */
  lemma NoFaultOutcome(epochs: int, torch: Torch, k: nat, total: int)
    requires k == EpochsRun(epochs) && total == TotalSteps(epochs, torch.batches)
    requires !FaultInEpochs(k, torch)
    ensures EpochsOutcome(epochs, torch) == (None, EpochEvents(torch, k, total))
    ensures LastMetrics(k, torch) == LastMetrics(epochs, torch)
  {
  }

  /** The state after one more batch of the epoch. */
  lemma ReplayBatchStep(s: State, torch: Torch, epoch: int, base: int, b: nat, step: int, total: int)
    requires b >= 1 && total > 0 && step == base + b
    ensures Replay(s, BatchEvents(torch, epoch, base, b, total))
            == Update(Replay(s, BatchEvents(torch, epoch, base, b - 1, total)), BatchUpdate(torch, epoch, b, step, total))
  {
    BatchStep(torch, epoch, base, b, step, total);
    ReplaySnoc(s, BatchEvents(torch, epoch, base, b - 1, total), Set(BatchUpdate(torch, epoch, b, step, total)));
  }

  /** The state after one more epoch: its batches, then its validation update. */
  lemma ReplayEpochStep(s: State, torch: Torch, k: nat, total: int)
    requires k >= 1 && (torch.batches == 0 || total > 0)
    ensures Replay(s, EpochEvents(torch, k, total))
            == Update(Replay(Replay(s, EpochEvents(torch, k - 1, total)),
                             BatchEvents(torch, k, Base(k - 1, torch.batches), torch.batches, total)),
                      EpochUpdate(torch, k))
  {
    var prev := EpochEvents(torch, k - 1, total);
    var bs := BatchEvents(torch, k, Base(k - 1, torch.batches), torch.batches, total);
    EpochStep(torch, k, total);
    ReplaySnoc(s, prev + bs, Set(EpochUpdate(torch, k)));
    ReplayAppend(s, prev, bs);
  }

  /**
   * The batches of one epoch (the inner `for` loop): one `set_state` per
   * batch, until the opaque computation raises in one of them.
   */
  method RunBatches(store: Store, torch: Torch, epoch: int, base: nat, total: int)
    returns (step: nat, failed: bool)
    requires store.Valid()
    requires torch.batches == 0 || total > 0
    modifies store
    ensures failed <==> torch.fault.BatchFault? && torch.fault.epoch == epoch && 1 <= torch.fault.batch <= torch.batches
    ensures store.Valid()
    ensures store.state == Replay(old(store.state), BatchEvents(torch, epoch, base, if failed then torch.fault.batch - 1 else torch.batches, total))
    ensures !failed ==> step == base + torch.batches
  {
    step := base;
    var b := 1;
    while b <= torch.batches
      invariant 1 <= b <= torch.batches + 1
      invariant step == base + (b - 1)
      invariant store.Valid() && store.state == Replay(old(store.state), BatchEvents(torch, epoch, base, b - 1, total))
      invariant torch.fault.BatchFault? && torch.fault.epoch == epoch ==> !(1 <= torch.fault.batch < b)
    {
      if torch.fault.BatchFault? && torch.fault.epoch == epoch && torch.fault.batch == b {
        return step, true;
      }
      step := step + 1;
      ReplayBatchStep(old(store.state), torch, epoch, base, b, step, total);
      store.SetState(BatchUpdate(torch, epoch, b, step, total));
      b := b + 1;
    }
    failed := false;
  }

  /**
   * One iteration of the epoch loop: the batches, then the validation pass
   * and its update, stopping at a fault in either.
   */
  method RunEpoch(store: Store, torch: Torch, epoch: nat, base: nat, total: int)
    returns (step: nat, failed: bool)
    requires store.Valid()
    requires epoch >= 1 && base == Base(epoch - 1, torch.batches) && (torch.batches == 0 || total > 0)
    modifies store
    ensures failed <==> FaultAt(torch, epoch)
    ensures store.Valid() && store.state == Replay(old(store.state), EpochTrace(torch, epoch, total))
    ensures !failed ==> step == Base(epoch, torch.batches)
  {
    step, failed := RunBatches(store, torch, epoch, base, total);
    if failed {
      return;
    }
    if torch.fault.ValidationFault? && torch.fault.epoch == epoch {
      return step, true;
    }
    ReplaySnoc(old(store.state), BatchEvents(torch, epoch, base, torch.batches, total), Set(EpochUpdate(torch, epoch)));
    store.SetState(EpochUpdate(torch, epoch));
  }

  /**
   * The epoch loop of `train_one_run`. Without a fault in an epoch that
   * runs, its events are those of every epoch and `accuracy` and `val_loss`
   * hold the last epoch's values (unbound when no epoch ran); with one, the
   * loop stops at the fault.
   */
  method RunEpochs(store: Store, epochs: int, torch: Torch)
    returns (failure: Option<string>, accuracy: Option<real>, valLoss: Option<real>)
    requires store.Valid()
    modifies store
    ensures failure == EpochsOutcome(epochs, torch).0
    ensures store.Valid() && store.state == Replay(old(store.state), EpochsOutcome(epochs, torch).1)
    ensures failure.None? ==> (accuracy, valLoss) == LastMetrics(epochs, torch)
  {
    var total := TotalSteps(epochs, torch.batches);
    var step := 0;
    accuracy, valLoss := None, None;
    var epoch := 1;
    while epoch <= epochs
      invariant 1 <= epoch <= EpochsRun(epochs) + 1
      invariant step == Base(epoch - 1, torch.batches)
      invariant store.Valid() && store.state == Replay(old(store.state), EpochEvents(torch, epoch - 1, total))
      invariant (accuracy, valLoss) == LastMetrics(epoch - 1, torch)
      invariant !FaultInEpochs(epoch - 1, torch)
    {
      var failed;
      ReplayAppend(old(store.state), EpochEvents(torch, epoch - 1, total), EpochTrace(torch, epoch, total));
      step, failed := RunEpoch(store, torch, epoch, step, total);
      if failed {
        failure := Some(torch.fault.message);
        FaultOutcome(epochs, torch, epoch, total);
        return;
      }
      accuracy := Some(torch.accuracy(epoch));
      valLoss := Some(torch.totalValLoss(epoch));
      EpochTraceStep(torch, epoch, total);
      epoch := epoch + 1;
    }
    failure := None;
    NoFaultOutcome(epochs, torch, epoch - 1, total);
  }

  /**
   * The intended reload loop (train.py:101-106): up to three requests,
   * stopping after the first one answered with `resp.ok`; failed requests
   * and exceptions of single requests are swallowed.
   */
  method NotifyReload(reply: nat -> ReloadReply) returns (attempts: nat)
    ensures attempts == ReloadAttempts(reply)
  {
    attempts := 0;
    var i := 0;
    while i < 3
      invariant 0 <= i <= 3 && attempts == i
      invariant forall j :: 0 <= j < i ==> !reply(j).Accepted?
    {
      attempts := attempts + 1;
      if reply(i).Accepted? {
        break;
      }
      i := i + 1;
    }
  }

  /**
   * The reload step as written: `import request` names a module that does
   * not exist, the `ModuleNotFoundError` goes to the outer `except`, and no
   * request is ever made.
   */
  function ReloadAttemptsAsWritten(reply: nat -> ReloadReply): nat {
    0
  }

  /**
   * Whatever the consumer would answer, the code as written sends no
   * request, where the intended loop sends at least one (exactly one when
   * the first is accepted).
   */
  lemma ReloadNeverSent(reply: nat -> ReloadReply)
    ensures ReloadAttemptsAsWritten(reply) == 0 < ReloadAttempts(reply)
    ensures reply(0).Accepted? ==> ReloadAttempts(reply) == 1
  {
  }

  /** The `except` branch: record the failure; the caller re-raises. */
  method Fail(store: Store, message: string) returns (result: RunResult)
    requires store.Valid()
    modifies store
    ensures store.Valid() && store.state == Update(old(store.state), FailUpdate(message))
    ensures result == Raised(message)
  {
    store.SetState(FailUpdate(message));
    result := Raised(message);
  }

  /** Replaying events that set no state, then one more event. */
  lemma ReplayQuiet(s: State, quiet: seq<Event>, e: Event)
    requires forall i :: 0 <= i < |quiet| ==> !quiet[i].Set?
    ensures Replay(s, quiet + [e]) == Apply(s, e)
  {
    ReplaySnoc(s, quiet, e);
    ReplayNoSet(s, quiet);
  }

  /** `torch.save(...)` to the new version path, then `set_latest` of it. */
  method SaveAndPromote(dir: Registry.ModelDir, path: string, weights: Bytes)
    requires path != Registry.Latest
    modifies dir
    ensures dir.files == old(dir.files)[path := weights][Registry.Latest := weights]
  {
    dir.WriteFile(path, weights);
    var error, between := dir.SetLatest(path);
    assert error.None?;
  }

  /**
   * The part of `train_one_run` after the epoch loop: saving and promoting
   * the artifact, the reload request, the summary and the final update.
   * The model directory changes exactly when `torch.save` succeeds, and the
   * summary file exactly when the run completes.
   */
  method FinishRun(store: Store, dir: Registry.ModelDir, summaryFile: SummaryFile,
                   epochs: int, torch: Torch, clock: Clock, reply: nat -> ReloadReply,
                   accuracy: Option<real>, valLoss: Option<real>)
    returns (result: RunResult)
    requires store.Valid()
    requires Registry.ValidDateTime(clock.saveStamp)
    requires (accuracy, valLoss) == LastMetrics(epochs, torch)
    modifies store, dir, summaryFile
    ensures result == Finish(epochs, torch, clock, reply).0
    ensures store.Valid() && store.state == Replay(old(store.state), Finish(epochs, torch, clock, reply).1)
    ensures dir.files == if torch.fault.SaveFault? then old(dir.files)
                         else old(dir.files)[Registry.SaveModelState(clock.saveStamp).0 := torch.weights]
                                            [Registry.Latest := torch.weights]
    ensures summaryFile.content == if result.Completed? then Some(result.summary) else old(summaryFile.content)
  {
    var saved := Registry.SaveModelState(clock.saveStamp);
    var path, name := saved.0, saved.1;
    if torch.fault.SaveFault? {
      ReplayQuiet(store.state, [], Set(FailUpdate(torch.fault.message)));
      result := Fail(store, torch.fault.message);
      return;
    }
    SaveAndPromote(dir, path, torch.weights);
    var attempts := NotifyReload(reply);
    ghost var sent := Sent(clock, reply);
    assert sent == [Saved(path), Promoted(path), Notified(attempts)];
    if accuracy.None? {
      ReplayQuiet(store.state, sent, Set(FailUpdate(UnboundAccuracy)));
      result := Fail(store, UnboundAccuracy);
      return;
    }
    var summary := RunSummary(name, accuracy.value, valLoss.value, epochs, torch.device,
                              clock.summaryTime - clock.runStart, clock.finishedStamp);
    if torch.fault.SummaryFault? {
      ReplayQuiet(store.state, sent, Set(FailUpdate(torch.fault.message)));
      result := Fail(store, torch.fault.message);
      return;
    }
    summaryFile.content := Some(summary);
    ghost var quiet := sent + [Summarised(summary)];
    assert Tail(epochs, torch, clock, reply) == quiet + [Set(DoneUpdate(clock))];
    ReplayQuiet(store.state, quiet, Set(DoneUpdate(clock)));
    store.SetState(DoneUpdate(clock));
    result := Completed(summary);
  }

  /** The start of a run as a replay from `s`. */
  lemma HeadState(s: State, clock: Clock)
    ensures Replay(s, Head(clock)) == Update(s, BeginUpdate(clock))
  {
    ReplaySnoc(s, [], Set(BeginUpdate(clock)));
  }

  /**
   * `train_one_run(epochs, batch_size, lr)`: its result and events are
   * those of `RunOutcome`, and the state is the one they produce. Until the
   * artifact is written nothing on disk changes; once it is, the new version
   * is promoted, even when the run fails afterwards. The summary file is
   * rewritten exactly when the run completes. `batch_size` and `lr` only
   * shape the opaque computation.
   */
  method TrainOneRun(store: Store, dir: Registry.ModelDir, summaryFile: SummaryFile,
                     epochs: int, batchSize: int, lr: real,
                     torch: Torch, clock: Clock, reply: nat -> ReloadReply)
    returns (result: RunResult)
    requires store.Valid()
    requires Registry.ValidDateTime(clock.saveStamp)
    modifies store, dir, summaryFile
    ensures result == RunOutcome(epochs, torch, clock, reply).0
    ensures store.Valid() && store.state == Replay(old(store.state), RunOutcome(epochs, torch, clock, reply).1)
    ensures dir.files == if FailsBeforeSave(epochs, torch) then old(dir.files)
                         else old(dir.files)[Registry.SaveModelState(clock.saveStamp).0 := torch.weights]
                                            [Registry.Latest := torch.weights]
    ensures summaryFile.content == if result.Completed? then Some(result.summary) else old(summaryFile.content)
  {
    ghost var s0 := store.state;
    HeadState(s0, clock);
    store.SetState(BeginUpdate(clock));
    ghost var s1 := store.state;
    if torch.fault.SetupFault? {
      ReplaySnoc(s0, Head(clock), Set(FailUpdate(torch.fault.message)));
      result := Fail(store, torch.fault.message);
      return;
    }
    var failure, accuracy, valLoss := RunEpochs(store, epochs, torch);
    ghost var s2 := store.state;
    if failure.Some? {
      ReplayAppend(s0, Head(clock), PartialEpochs(epochs, torch));
      ReplaySnoc(s0, Head(clock) + PartialEpochs(epochs, torch), Set(FailUpdate(failure.value)));
      result := Fail(store, failure.value);
      return;
    }
    result := FinishRun(store, dir, summaryFile, epochs, torch, clock, reply, accuracy, valLoss);
    ReplayAppend(s0, Head(clock), AllEpochs(epochs, torch));
    ReplayAppend(s0, Head(clock) + AllEpochs(epochs, torch), Finish(epochs, torch, clock, reply).1);
  }
}
