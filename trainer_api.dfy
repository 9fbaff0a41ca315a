/**
 * The trainer's HTTP front (trainer/src/api.py): the single-flight launcher
 * `start_train`, the background run that journals each completed run, the
 * append-only run journal `/trainer_logs/training_metadata.json`, and the
 * `/metrics` projection of the job state.
 *
 * Each region under `_thread_lock` is one atomic method; the background
 * thread is a separate method invoked after `start_train` has launched it.
 */
module TrainerApi {
  import opened Common
  import opened JobState
  import Registry
  import Training

  // ---------------------------------------------------------------------
  // The run journal

  /** One journal entry, as `background_train` builds it from a completed run. */
  datatype Entry = Entry(
    timestamp: string,     // strftime("%Y-%m-%d %H:%M:%S", localtime(start_time))
    epochs: int,
    batchSize: int,
    lr: real,
    accuracy: real,        // result.get("accuracy")
    savedModel: string,    // result.get("model_name")
    durationMin: real)     // (time.time() - start_time) / 60

  /** What `json.load` reads from the journal: a list of entries, or another JSON value. */
  datatype Document =
    | List(entries: seq<Entry>)
    | NonList(typeName: string)   // e.g. a JSON object, whose Python type is `dict`

  /** The journal file on disk. */
  datatype JournalFile = Missing | Unparsable | Parsed(doc: Document)

  /**
   * `load_metadata()`: the parsed document, and `[]` when the file does not
   * exist or cannot be read as JSON.
   */
  function LoadMetadata(f: JournalFile): (d: Document)
    ensures f.Parsed? ==> d == f.doc
    ensures !f.Parsed? ==> d == List([])
  {
    match f
    case Parsed(doc) => doc
    case _ => List([])
  }

  /**
   * `save_metadata(entry)`: load, append, rewrite. When the journal holds
   * some other JSON value, `append` raises and the file stays as it was.
   */
  function Appended(f: JournalFile, entry: Entry): (r: (Option<string>, JournalFile)) {
    match LoadMetadata(f)
    case List(entries) => (None, Parsed(List(entries + [entry])))
    case NonList(t) => (Some(AppendError(t)), f)
  }

  /**
   * Saving then loading gives the old entries followed by the new one; the
   * save fails, changing nothing, exactly when the journal is not a list.
   */
  lemma SaveThenLoad(f: JournalFile, entry: Entry)
    ensures var (error, g) := Appended(f, entry);
            && (error.None? <==> LoadMetadata(f).List?)
            && (error.None? ==> LoadMetadata(g) == List(LoadMetadata(f).entries + [entry]))
            && (error.Some? ==> g == f && error.value == AppendError(LoadMetadata(f).typeName))
  {
  }

  /** A sequence of saves, in order, each on the file the previous one left. */
  function SaveAll(f: JournalFile, entries: seq<Entry>): JournalFile
    decreases |entries|
  {
    if entries == [] then f else SaveAll(Appended(f, entries[0]).1, entries[1..])
  }

  /**
   * The journal is append-only: after any sequence of saves on a list, it
   * holds the old entries followed by the saved ones, in order.
   */
  lemma {:induction false} SaveAllAppends(f: JournalFile, entries: seq<Entry>)
    requires LoadMetadata(f).List?
    ensures LoadMetadata(SaveAll(f, entries)) == List(LoadMetadata(f).entries + entries)
    decreases |entries|
  {
    if entries == [] {
      assert LoadMetadata(f).entries + entries == LoadMetadata(f).entries;
    } else {
      var g := Appended(f, entries[0]).1;
      SaveAllAppends(g, entries[1..]);
      assert LoadMetadata(f).entries + [entries[0]] + entries[1..] == LoadMetadata(f).entries + entries;
    }
  }

  /** A journal that starts missing holds exactly the saved entries. */
  lemma JournalFromNothing(entries: seq<Entry>)
    ensures LoadMetadata(SaveAll(Missing, entries)) == List(entries)
  {
    SaveAllAppends(Missing, entries);
    assert [] + entries == entries;
  }

  // ---------------------------------------------------------------------
  // Launching a run

  /** A request field: absent, a value `int(...)`/`float(...)` accepts, or one it rejects. */
  datatype Param<T> = Absent | Given(value: T) | Malformed

  /**
   * The body of `POST /train` as `request.get_json()` reads it: the fields of
   * a JSON object (a falsy JSON value such as `null` or `[]` is replaced by
   * `{}`, so every field is absent); a body not sent as JSON, which
   * `get_json` refuses with 415 Unsupported Media Type; or a JSON body that
   * does not parse, an empty one included, which it refuses with 400.
   */
  datatype Request =
    | Fields(epochs: Param<int>, batchSize: Param<int>, lr: Param<real>)
    | NotJson
    | InvalidJson

  /** The parameters of a run. */
  datatype Params = Params(epochs: int, batchSize: int, lr: real)

  const DefaultEpochs := 1
  const DefaultBatchSize := 64
  const DefaultLr := 0.001

  /** `conv(data.get(key, default))`: the default when absent, failure when `conv` raises. */
  function ParamOr<T>(p: Param<T>, default: T): (r: Option<T>) {
    match p
    case Absent => Some(default)
    case Given(v) => Some(v)
    case Malformed => None
  }

  /** The three conversions of `start_train`, in order; any failure aborts the request. */
  function ParseParams(req: Request): (r: Option<Params>)
    requires req.Fields?
    ensures r.Some? <==> !req.epochs.Malformed? && !req.batchSize.Malformed? && !req.lr.Malformed?
  {
    match (ParamOr(req.epochs, DefaultEpochs), ParamOr(req.batchSize, DefaultBatchSize), ParamOr(req.lr, DefaultLr))
    case (Some(e), Some(b), Some(l)) => Some(Params(e, b, l))
    case _ => None
  }

  /** An empty body runs one epoch with batches of 64 at learning rate 1e-3. */
  lemma ParamDefaults()
    ensures ParseParams(Fields(Absent, Absent, Absent)) == Some(Params(1, 64, 0.001))
  {
  }

  /** Each given field is taken as given, each absent one takes its default. */
  lemma ParamsTaken(req: Request)
    requires req.Fields? && ParseParams(req).Some?
    ensures var p := ParseParams(req).value;
            && p.epochs == (if req.epochs.Given? then req.epochs.value else DefaultEpochs)
            && p.batchSize == (if req.batchSize.Given? then req.batchSize.value else DefaultBatchSize)
            && p.lr == (if req.lr.Given? then req.lr.value else DefaultLr)
  {
  }

  /** The answer of `POST /train`. */
  datatype Response =
    | Started(epochs: int)   // {"status": "started", "epochs": epochs}, 202
    | Busy(message: string)  // {"status": "busy", "message": message}, 409
    | UnsupportedMediaType   // get_json refused a body not sent as JSON: 415
    | BadRequest             // get_json refused a body that does not parse: 400
    | ServerError            // a conversion raised inside the handler: Flask answers 500

  const BusyMessage := "Training already running"

  function Code(r: Response): int {
    match r
    case Started(_) => 202
    case Busy(_) => 409
    case UnsupportedMediaType => 415
    case BadRequest => 400
    case ServerError => 500
  }

  /** The state a launch leaves: the reset dictionary, marked as training since `now`. */
  function Launched(s: State, now: real): State {
    Update(Reset(s), map[StatusKey := Str("training"), StartedAtKey := Num(now)])
  }

  /**
   * `start_train` under `_thread_lock`: the answer, the new state and the
   * new `_train_thread` (the parameters of the run it was started for).
   */
  function StartOutcome(s: State, thread: Option<Params>, req: Request, now: real): (Response, State, Option<Params>)
    requires StatusKey in s
  {
    if s[StatusKey] == Str("training") then (Busy(BusyMessage), s, thread)
    else if req.NotJson? then (UnsupportedMediaType, s, thread)
    else if req.InvalidJson? then (BadRequest, s, thread)
    else match ParseParams(req)
      case None => (ServerError, s, thread)
      case Some(p) => (Started(p.epochs), Launched(s, now), Some(p))
  }

  /**
   * While a run is training, a request is refused with "Training already
   * running" and changes nothing, whatever its body.
   */
  lemma BusyChangesNothing(s: State, thread: Option<Params>, req: Request, now: real)
    requires StatusKey in s && IsTraining(s)
    ensures var (resp, r, thread') := StartOutcome(s, thread, req, now);
            && resp == Busy(BusyMessage) && Code(resp) == 409
            && r == s && thread' == thread
  {
  }

  /**
   * When no run is training, a body that `get_json` refuses is answered
   * with a client error before any field is read, and changes nothing.
   */
  lemma UnreadableBodyChangesNothing(s: State, thread: Option<Params>, req: Request, now: real)
    requires StatusKey in s && !IsTraining(s) && !req.Fields?
    ensures var (resp, r, thread') := StartOutcome(s, thread, req, now);
            && Code(resp) == (if req.NotJson? then 415 else 400)
            && r == s && thread' == thread
  {
  }

  /** When no run is training, a malformed parameter fails the request before anything changes. */
  lemma MalformedChangesNothing(s: State, thread: Option<Params>, req: Request, now: real)
    requires StatusKey in s && !IsTraining(s) && req.Fields? && ParseParams(req).None?
    ensures StartOutcome(s, thread, req, now) == (ServerError, s, thread) && Code(ServerError) == 500
  {
  }

  /**
   * A launch answers 202 with the epochs and leaves the defaults, with the
   * status `training` and `started_at` the launch time; a key added outside
   * the eight survives. The new thread runs the parsed parameters.
   */
  lemma StartedState(s: State, thread: Option<Params>, req: Request, now: real)
    requires KnownKeys <= s.Keys && !IsTraining(s) && req.Fields? && ParseParams(req).Some?
    ensures var (resp, r, thread') := StartOutcome(s, thread, req, now);
            && resp == Started(ParseParams(req).value.epochs) && Code(resp) == 202
            && thread' == ParseParams(req)
            && r.Keys == s.Keys
            && r[StatusKey] == Str("training") && r[StartedAtKey] == Num(now)
            && r[ProgressKey] == Num(0.0) && r[EpochKey] == Int(0)
            && r[AccuracyKey] == Null && r[LossKey] == Null
            && r[FinishedAtKey] == Null && r[LastErrorKey] == Null
            && forall k :: k in s && k !in KnownKeys ==> r[k] == s[k]
  {
  }

  /**
   * Single flight: once a request has launched a run, the next one is
   * refused until the status changes.
   */
  lemma SingleFlight(s: State, thread: Option<Params>, req1: Request, now1: real, req2: Request, now2: real)
    requires StatusKey in s
    ensures var (resp1, s1, thread1) := StartOutcome(s, thread, req1, now1);
            resp1.Started? ==> StartOutcome(s1, thread1, req2, now2) == (Busy(BusyMessage), s1, thread1)
  {
  }

  // ---------------------------------------------------------------------
  // After a run

  /** The journal entry of a completed run. */
  function EntryOf(p: Params, summary: Training.RunSummary, startStamp: string, startTime: real, endTime: real): Entry {
    Entry(startStamp, p.epochs, p.batchSize, p.lr, summary.accuracy, summary.modelName, (endTime - startTime) / 60.0)
  }

  /**
   * What `background_train` does once `train_one_run` returns or raises,
   * given the journal and the state the run left: a completed run is
   * journalled; an exception, from the run or from the journal write,
   * marks the state failed with its message.
   */
  function AfterRun(journal: JournalFile, s: State, result: Training.RunResult, entry: Entry): (JournalFile, State) {
    match result
    case Raised(m) => (journal, Update(s, Training.FailUpdate(m)))
    case Completed(_) =>
      var (error, j) := Appended(journal, entry);
      if error.Some? then (j, Update(s, Training.FailUpdate(error.value))) else (j, s)
  }

  /**
   * The journal gains the run's entry exactly when the run completes (on a
   * list journal); a run that raises leaves the journal as it was and the
   * state failed with the run's message.
   */
  lemma JournalledIffCompleted(journal: JournalFile, s: State, result: Training.RunResult, entry: Entry)
    requires LoadMetadata(journal).List?
    ensures var (j, r) := AfterRun(journal, s, result, entry);
            && (LoadMetadata(j) == List(LoadMetadata(journal).entries + [entry]) <==> result.Completed?)
            && (result.Completed? ==> r == s)
            && (result.Raised? ==> j == journal && r[StatusKey] == Str("failed") && r[LastErrorKey] == Str(result.message))
  {
    if result.Raised? {
      assert |LoadMetadata(journal).entries + [entry]| != |LoadMetadata(journal).entries|;
    }
  }

  /** A completed run whose entry cannot be appended is reported as a failure. */
  lemma UnwritableJournalFails(journal: JournalFile, s: State, summary: Training.RunSummary, entry: Entry)
    requires LoadMetadata(journal).NonList?
    ensures var (j, r) := AfterRun(journal, s, Training.Completed(summary), entry);
            && j == journal && r[StatusKey] == Str("failed")
            && r[LastErrorKey] == Str(AppendError(LoadMetadata(journal).typeName))
  {
  }

  // ---------------------------------------------------------------------
  // /metrics

  /** The body of `GET /metrics`: five values read from the state with `dict.get`. */
  datatype MetricsView = MetricsView(accuracy: Value, loss: Value, epoch: Value, progress: Value, status: Value)

  function Metrics(s: State): MetricsView {
    MetricsView(Get(s, AccuracyKey), Get(s, LossKey), Get(s, EpochKey), Get(s, ProgressKey), Get(s, StatusKey))
  }

  /** The projection reads those five keys and nothing else. */
  lemma MetricsReadFive(s: State, t: State)
    requires forall k :: k in {AccuracyKey, LossKey, EpochKey, ProgressKey, StatusKey} ==> Get(s, k) == Get(t, k)
    ensures Metrics(s) == Metrics(t)
  {
    assert Get(s, AccuracyKey) == Get(t, AccuracyKey);
    assert Get(s, LossKey) == Get(t, LossKey);
    assert Get(s, EpochKey) == Get(t, EpochKey);
    assert Get(s, ProgressKey) == Get(t, ProgressKey);
    assert Get(s, StatusKey) == Get(t, StatusKey);
  }

  /** The metrics of the initial state, and right after a launch. */
  lemma MetricsAtStart(s: State, now: real)
    requires KnownKeys <= s.Keys
    ensures Metrics(Defaults()) == MetricsView(Null, Null, Int(0), Num(0.0), Str("idle"))
    ensures Metrics(Launched(s, now)) == MetricsView(Null, Null, Int(0), Num(0.0), Str("training"))
  {
  }

  /**
   * After a successful run the metrics show the last epoch's accuracy, its
   * mean validation loss and number, progress 100 and `done`.
   */
  lemma MetricsAfterSuccess(s: State, epochs: int, torch: Training.Torch, clock: Training.Clock,
                            reply: nat -> Training.ReloadReply)
    requires Registry.ValidDateTime(clock.saveStamp)
    requires KnownKeys <= s.Keys && epochs >= 1
    ensures Metrics(Training.Replay(s, Training.SuccessTrace(epochs, torch, clock, reply)))
            == MetricsView(Num(torch.accuracy(epochs)), Num(torch.meanValLoss(epochs)), Int(epochs),
                           Num(100.0), Str("done"))
  {
    Training.CompletedState(s, epochs, torch, clock, reply);
  }

  // ---------------------------------------------------------------------
  // The service

  /** The API process: the journal file and `_train_thread`. */
  class Trainer {
    var journal: JournalFile
    var thread: Option<Params>

    constructor (initial: JournalFile)
      ensures journal == initial && thread == None
    {
      journal := initial;
      thread := None;
    }

    /** `POST /train`. */
    method StartTrain(store: Store, req: Request, now: real) returns (resp: Response)
      requires store.Valid()
      modifies this, store
      ensures store.Valid()
      ensures (resp, store.state, thread) == StartOutcome(old(store.state), old(thread), req, now)
      ensures journal == old(journal)
    {
      var st := store.GetState();
      if st[StatusKey] == Str("training") {
        return Busy(BusyMessage);
      }
      if req.NotJson? { return UnsupportedMediaType; }
      if req.InvalidJson? { return BadRequest; }
      var epochs := ParamOr(req.epochs, DefaultEpochs);
      if epochs.None? { return ServerError; }
      var batchSize := ParamOr(req.batchSize, DefaultBatchSize);
      if batchSize.None? { return ServerError; }
      var lr := ParamOr(req.lr, DefaultLr);
      if lr.None? { return ServerError; }
      store.ResetState();
      store.SetState(map[StatusKey := Str("training"), StartedAtKey := Num(now)]);
      thread := Some(Params(epochs.value, batchSize.value, lr.value));
      resp := Started(epochs.value);
    }

    /** `save_metadata(entry)`. */
    method SaveMetadata(entry: Entry) returns (error: Option<string>)
      modifies this
      ensures (error, journal) == Appended(old(journal), entry)
      ensures thread == old(thread)
    {
      var data := LoadMetadata(journal);
      if data.NonList? {
        return Some(AppendError(data.typeName));
      }
      journal := Parsed(List(data.entries + [entry]));
      error := None;
    }

    /**
     * `background_train(epochs, batch_size, lr)`: the run, then its journal
     * entry, or the failure. `startStamp`, `startTime` and `endTime` are the
     * clock readings the thread takes.
     */
    method BackgroundTrain(store: Store, dir: Registry.ModelDir, summaryFile: Training.SummaryFile,
                           p: Params, torch: Training.Torch, clock: Training.Clock,
                           reply: nat -> Training.ReloadReply,
                           startStamp: string, startTime: real, endTime: real)
      returns (result: Training.RunResult)
      requires store.Valid()
      requires Registry.ValidDateTime(clock.saveStamp)
      modifies this, store, dir, summaryFile
      ensures result == Training.RunOutcome(p.epochs, torch, clock, reply).0
      ensures store.Valid()
      ensures var ran := Training.Replay(old(store.state), Training.RunOutcome(p.epochs, torch, clock, reply).1);
              && (result.Raised? ==> journal == old(journal) && store.state == Update(ran, Training.FailUpdate(result.message)))
              && (result.Completed? ==>
                    (journal, store.state)
                    == AfterRun(old(journal), ran, result, EntryOf(p, result.summary, startStamp, startTime, endTime)))
      ensures dir.files == if Training.FailsBeforeSave(p.epochs, torch) then old(dir.files)
                           else old(dir.files)[Registry.SaveModelState(clock.saveStamp).0 := torch.weights]
                                              [Registry.Latest := torch.weights]
      ensures summaryFile.content == if result.Completed? then Some(result.summary) else old(summaryFile.content)
      ensures thread == old(thread)
    {
      result := Training.TrainOneRun(store, dir, summaryFile, p.epochs, p.batchSize, p.lr, torch, clock, reply);
      match result
      case Raised(m) =>
        store.SetState(Training.FailUpdate(m));
      case Completed(summary) =>
        var entry := EntryOf(p, summary, startStamp, startTime, endTime);
        var error := SaveMetadata(entry);
        if error.Some? {
          store.SetState(Training.FailUpdate(error.value));
        }
    }
  }
}
