/**
 * The monitor (monitor/src/monitor.py): probing the two services, the
 * metrics log `/logs/metrics.json` that keeps the last 200 samples, and the
 * dashboard that shows the last 20.
 *
 * The log file is read and rewritten under `file_lock`, so each write is one
 * atomic method. The probes' HTTP answers and the psutil readings are inputs.
 */
module Monitor {
  import opened Common

  // ---------------------------------------------------------------------
  // Probing a service

  /** What `requests.get(url, timeout=3)` gives: a response (with its body, if it parses as JSON) or an exception. */
  datatype Probe<P> = Answered(code: int, body: Option<P>) | Failed(message: string)

  /** `r.ok`: `raise_for_status` raises only for the codes 400 to 599. */
  predicate ResponseOk(code: int) {
    !(400 <= code < 600)
  }

  const BadResponse := "Bad response"

  /**
   * The record `get_service_status` returns:
   * `{"ok": True, "status_code", "data"}`, `{"ok": False, "status_code", "error": "Bad response"}`
   * or `{"ok": False, "error": str(e)}`.
   */
  datatype ServiceStatus<P> =
    | Up(statusCode: int, data: Option<P>)
    | Down(statusCode: int, error: string)
    | Unreachable(error: string)

  /** The `"ok"` field of the record. */
  predicate Ok<P>(r: ServiceStatus<P>) {
    r.Up?
  }

  /** The keys of the record as JSON. */
  function Fields<P>(r: ServiceStatus<P>): set<string> {
    match r
    case Up(_, _) => {"ok", "status_code", "data"}
    case Down(_, _) => {"ok", "status_code", "error"}
    case Unreachable(_) => {"ok", "error"}
  }

  /** `get_service_status(name, url)` on the outcome of its request. */
  function ServiceStatusOf<P>(p: Probe<P>): ServiceStatus<P> {
    match p
    case Failed(message) => Unreachable(message)
    case Answered(code, body) => if ResponseOk(code) then Up(code, body) else Down(code, BadResponse)
  }

  /**
   * A service is reported ok exactly when it answered with an ok code; the
   * record then carries the code and the body, `None` when the body is not
   * JSON. A response with an error code is reported with its code and
   * "Bad response"; an exception with its text and no code. In particular
   * every 2xx and 3xx answer is ok, and every 4xx and 5xx answer is not.
   */
  lemma ClassifyProbe<P>(p: Probe<P>)
    ensures var r := ServiceStatusOf(p);
            && (Ok(r) <==> p.Answered? && ResponseOk(p.code))
            && (Ok(r) ==> r.statusCode == p.code && r.data == p.body)
            && (p.Answered? && !ResponseOk(p.code) ==> r == Down(p.code, BadResponse))
            && (p.Failed? ==> r == Unreachable(p.message))
            && (p.Answered? && 200 <= p.code < 400 ==> r == Up(p.code, p.body))
            && (p.Answered? && 400 <= p.code < 600 ==> r == Down(p.code, BadResponse))
            && ("status_code" in Fields(r) <==> p.Answered?)
            && ("data" in Fields(r) <==> Ok(r))
            && ("error" in Fields(r) <==> !Ok(r))
  {
  }

  // ---------------------------------------------------------------------
  // Samples

  /** The two probes of `SERVICES`, by name. */
  const ApiName := "ai_api"
  const TrainerName := "ai_trainer"

  /** One sample of `collect_metrics`. */
  datatype Sample<P> = Sample(
    timestamp: string, cpuUsage: real, ramUsage: real, diskUsage: real,
    services: map<string, ServiceStatus<P>>)

  /** `collect_metrics()`, given the clock, the psutil readings and the two probes. */
  function CollectMetrics<P>(timestamp: string, cpu: real, ram: real, disk: real,
                             api: Probe<P>, trainer: Probe<P>): (m: Sample<P>)
    ensures m.services.Keys == {ApiName, TrainerName}
    ensures m.services[ApiName] == ServiceStatusOf(api) && m.services[TrainerName] == ServiceStatusOf(trainer)
  {
    Sample(timestamp, cpu, ram, disk, map[ApiName := ServiceStatusOf(api), TrainerName := ServiceStatusOf(trainer)])
  }

  // ---------------------------------------------------------------------
  // The metrics log

  /** What `json.load` reads from the log: a list of samples, or another JSON value. */
  datatype Document<P> = List(samples: seq<Sample<P>>) | NonList(typeName: string)

  /** The log file on disk. */
  datatype MetricsFile<P> = Missing | Unreadable | Parsed(doc: Document<P>)

  /**
   * The list `write_metrics` starts from: the stored one, `[]` when missing
   * or unreadable. The same rule as the trainer's `load_metadata`
   * (`TrainerApi.LoadMetadata`), written again in the monitor for its own file.
   */
  function Loaded<P>(f: MetricsFile<P>): (d: Document<P>)
    ensures f.Parsed? ==> d == f.doc
    ensures !f.Parsed? ==> d == List([])
  {
    match f
    case Parsed(doc) => doc
    case _ => List([])
  }

  const Capacity := 200
  const DashboardSize := 20

  /** Python's `s[-n:]` for `n > 0`: the last `n` elements, or all of them when there are fewer. */
  function Last<T>(s: seq<T>, n: nat): (r: seq<T>)
    requires n > 0
    ensures |r| == if |s| <= n then |s| else n
    ensures r == s[|s| - |r|..]
  {
    if |s| <= n then s else s[|s| - n..]
  }

  /** Keeping the last `n` after the last `m >= n` is keeping the last `n`. */
  lemma LastOfLast<T>(s: seq<T>, m: nat, n: nat)
    requires 0 < n <= m
    ensures Last(Last(s, m), n) == Last(s, n)
  {
  }

  /** Trimming before appending does not change the window after it. */
  lemma LastSnoc<T>(s: seq<T>, x: T, n: nat)
    requires n > 0
    ensures Last(Last(s, n) + [x], n) == Last(s + [x], n)
  {
    var t := Last(s, n);
    if |s| > n {
      assert (s + [x])[|s| + 1 - n..] == s[|s| + 1 - n..] + [x];
      assert (t + [x])[|t| + 1 - n..] == t[1..] + [x];
      assert t[1..] == s[|s| + 1 - n..];
    }
  }

  /** `write_metrics(m)`: the error it raises, if any, and the file it leaves. */
  function Written<P>(f: MetricsFile<P>, m: Sample<P>): (Option<string>, MetricsFile<P>) {
    match Loaded(f)
    case List(samples) => (None, Parsed(List(Last(samples + [m], Capacity))))
    case NonList(t) => (Some(AppendError(t)), f)
  }

  /**
   * After a write the log holds at most 200 samples, the new one last:
   * the old list followed by it when that fits, otherwise the newest 199
   * old samples followed by it.
   */
  lemma WriteKeepsWindow<P>(f: MetricsFile<P>, m: Sample<P>)
    requires Loaded(f).List?
    ensures var (error, g) := Written(f, m);
            var before := Loaded(f).samples;
            var after := Loaded(g).samples;
            && error.None? && Loaded(g).List?
            && 1 <= |after| <= Capacity && after[|after| - 1] == m
            && (|before| < Capacity ==> after == before + [m])
            && (|before| >= Capacity ==> after == before[|before| - (Capacity - 1)..] + [m])
  {
    var before := Loaded(f).samples;
    var after := Last(before + [m], Capacity);
    assert Written(f, m) == (None, Parsed(List(after)));
    if |before| >= Capacity {
      assert after == (before + [m])[|before| + 1 - Capacity..];
      assert (before + [m])[|before| + 1 - Capacity..] == before[|before| + 1 - Capacity..] + [m];
    }
  }

  /** A log holding some other JSON value makes the write raise and stay as it was. */
  lemma WriteOnNonList<P>(f: MetricsFile<P>, m: Sample<P>)
    requires Loaded(f).NonList?
    ensures Written(f, m) == (Some(AppendError(Loaded(f).typeName)), f)
  {
  }

  /** The writes of `background_loop`, in order. */
  function WriteAll<P>(f: MetricsFile<P>, ms: seq<Sample<P>>): MetricsFile<P>
    decreases |ms|
  {
    if ms == [] then f else WriteAll(Written(f, ms[0]).1, ms[1..])
  }

  /**
   * After any sequence of writes to a list log, the log holds the newest
   * 200 of the old samples followed by the written ones.
   */
  lemma {:induction false} WriteAllWindow<P>(f: MetricsFile<P>, ms: seq<Sample<P>>)
    requires Loaded(f).List? && (ms != [] || |Loaded(f).samples| <= Capacity)
    ensures Loaded(WriteAll(f, ms)) == List(Last(Loaded(f).samples + ms, Capacity))
    decreases |ms|
  {
    var s := Loaded(f).samples;
    if ms == [] {
      assert s + ms == s;
    } else {
      var m, rest := ms[0], ms[1..];
      WriteFirst(f, ms);
      WriteAllWindow(Parsed(List(Last(s + [m], Capacity))), rest);
      LastAppend(s + [m], rest, Capacity);
      AppendFirst(s, ms);
    }
  }

  /** Writing a non-empty sequence to a list log is writing its first sample, then the rest. */
  lemma WriteFirst<P>(f: MetricsFile<P>, ms: seq<Sample<P>>)
    requires Loaded(f).List? && ms != []
    ensures WriteAll(f, ms) == WriteAll(Parsed(List(Last(Loaded(f).samples + [ms[0]], Capacity))), ms[1..])
  {
  }

  /** Appending a non-empty sequence is appending its first element, then the rest. */
  lemma AppendFirst<T>(s: seq<T>, t: seq<T>)
    requires t != []
    ensures s + [t[0]] + t[1..] == s + t
  {
    assert t == [t[0]] + t[1..];
  }

  /** Trimming first does not change the window after appending more. */
  lemma {:induction false} LastAppend<T>(s: seq<T>, t: seq<T>, n: nat)
    requires n > 0
    ensures Last(Last(s, n) + t, n) == Last(s + t, n)
    decreases |t|
  {
    if t == [] {
      assert Last(s, n) + t == Last(s, n) && s + t == s;
      LastOfLast(s, n, n);
    } else {
      var init, x := t[..|t| - 1], t[|t| - 1];
      assert t == init + [x];
      LastAppend(s, init, n);
      LastSnoc(Last(s, n) + init, x, n);
      LastSnoc(s + init, x, n);
      assert Last(s, n) + init + [x] == Last(s, n) + t;
      assert s + init + [x] == s + t;
    }
  }

  /** From a missing file, the log is always the newest 200 samples written. */
  lemma LogIsNewest200<P>(ms: seq<Sample<P>>)
    ensures Loaded(WriteAll(Missing, ms)) == List(Last(ms, Capacity))
  {
    WriteAllWindow(Missing, ms);
    assert [] + ms == ms;
  }

  /** The answer of `GET /dashboard`. */
  datatype DashboardReply<P> = Samples(samples: seq<Sample<P>>) | ServerError

  /**
   * `dashboard()`: the newest 20 samples, `[]` when the file is missing or
   * unreadable; slicing another JSON value raises and Flask answers 500.
   */
  function Dashboard<P>(f: MetricsFile<P>): (r: DashboardReply<P>)
    ensures !f.Parsed? ==> r == Samples([])
    ensures f.Parsed? && f.doc.List? ==> r == Samples(Last(f.doc.samples, DashboardSize))
    ensures f.Parsed? && f.doc.NonList? ==> r == ServerError
    ensures r.Samples? ==> |r.samples| <= DashboardSize
  {
    match f
    case Parsed(List(samples)) => Samples(Last(samples, DashboardSize))
    case Parsed(NonList(_)) => ServerError
    case _ => Samples([])
  }

  /** The dashboard of a log written from nothing shows the newest 20 samples ever written. */
  lemma DashboardShowsNewest<P>(ms: seq<Sample<P>>)
    requires ms != []
    ensures Dashboard(WriteAll(Missing, ms)) == Samples(Last(ms, DashboardSize))
  {
    var f := WriteAll(Missing, ms);
    LogIsNewest200(ms);
    WritesParse(Missing, ms);
    assert f.doc == List(Last(ms, Capacity));
    LastOfLast(ms, Capacity, DashboardSize);
  }

  /** After at least one write to a list log, the file holds a parsed list. */
  lemma {:induction false} WritesParse<P>(f: MetricsFile<P>, ms: seq<Sample<P>>)
    requires Loaded(f).List? && ms != []
    ensures WriteAll(f, ms).Parsed? && WriteAll(f, ms).doc.List?
    decreases |ms|
  {
    var g := Written(f, ms[0]).1;
    if |ms| > 1 {
      WritesParse(g, ms[1..]);
    }
  }

  /** The log file with `file_lock`. */
  class MetricsLog<P> {
    var file: MetricsFile<P>

    constructor (initial: MetricsFile<P>)
      ensures file == initial
    {
      file := initial;
    }

    /** `write_metrics(new_metrics)` */
    method WriteMetrics(m: Sample<P>) returns (error: Option<string>)
      modifies this
      ensures (error, file) == Written(old(file), m)
    {
      var data: seq<Sample<P>> := [];
      if file.Parsed? {
        if file.doc.NonList? {
          return Some(AppendError(file.doc.typeName));
        }
        data := file.doc.samples;
      }
      data := data + [m];
      data := Last(data, Capacity);
      file := Parsed(List(data));
      error := None;
    }

    /** One round of `background_loop`: collect a sample and write it. */
    method Tick(timestamp: string, cpu: real, ram: real, disk: real, api: Probe<P>, trainer: Probe<P>)
      returns (error: Option<string>)
      modifies this
      ensures (error, file) == Written(old(file), CollectMetrics(timestamp, cpu, ram, disk, api, trainer))
    {
      var m := CollectMetrics(timestamp, cpu, ram, disk, api, trainer);
      error := WriteMetrics(m);
    }
  }
}
