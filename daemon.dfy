/** The WeatherDaemon class of src/weather_daemon/daemon.py: its settings, the
    poll cycle (fetch, parse, write the feed file atomically, report to the
    health server) and the polling loop with stop and cancellation. The world
    outside (HTTP replies, clock, temp-file names, I/O faults, JSON
    serialisation, signals) is passed in as data. */
module Daemon {
  import opened PyJson
  import opened Parser
  import opened Fetch
  import opened AtomicFile
  import opened Health
  import HealthCheck

  /** The error message a cycle whose fetch gave nothing reports. */
  const FetchFailedMessage := "Failed to fetch weather data"

  // ------------------------------------------------------------ one cycle

  /** What the world supplies to one poll cycle: whether the HTTP client
      could be created, the three replies, the time, the random part of the
      temp-file name, and which step of the write fails. */
  datatype CycleInput = CycleInput(
    clientOk: bool, current: Reply, hourly: Reply, daily: Reply,
    now: int, token: string, fault: WriteFault, unlinkFails: bool)

  /** How a cycle ended. */
  datatype CycleOutcome =
    | FetchFailed
    | ParseFailed(parseError: PyException)
    | WriteFailed(writeError: PyException)
    | Published(snapshot: Snapshot)

  /** What a cycle reports to the health server: record_success at a time,
      or record_error with a message. */
  datatype Record = Success(at: int) | Failure(message: string)

  datatype CycleResult = CycleResult(outcome: CycleOutcome, files: map<Path, FileEntry>, record: Record)

  /** _parse_weather_response with the daemon's location fixed, as a
      function of the merged raw data and the time of the cycle. */
  type ResponseParser = (map<string, Json>, int) -> Result<Snapshot>

  /** What the fetch and the parse hand to the rest of a cycle: None when
      _fetch_weather gave nothing, otherwise the parser's result on what it
      gave. */
  function Fetched(parse: ResponseParser, input: CycleInput): Option<Result<Snapshot>>
  {
    var raw := FetchSpec(input.clientOk, input.current, input.hourly, input.daily);
    if raw.None? then None else Some(parse(raw.value, input.now))
  }

  /** _poll_once as a function of the daemon's output directory and parser
      and of the file system before it: the specification
      WeatherDaemon.PollOnce is proved against. render stands for
      json.dump's text of the snapshot. */
  function Cycle(outputDir: string, parse: ResponseParser,
                 files: map<Path, FileEntry>, input: CycleInput, render: Snapshot -> string): (c: CycleResult)
    ensures c.outcome.FetchFailed?
      <==> FetchSpec(input.clientOk, input.current, input.hourly, input.daily).None?
    ensures c.outcome.Published? ==>
      parse(FetchSpec(input.clientOk, input.current, input.hourly, input.daily).value, input.now)
        == Ok(c.outcome.snapshot)
  {
    AfterFetch(outputDir, files, input, Fetched(parse, input), render)
  }

  /** The rest of the cycle once the data is fetched and parsed. */
  function AfterFetch(outputDir: string, files: map<Path, FileEntry>, input: CycleInput,
                      fetched: Option<Result<Snapshot>>, render: Snapshot -> string): (c: CycleResult)
    ensures c.outcome.FetchFailed? <==> fetched.None?
    ensures c.outcome.Published? <==> c.record.Success?
    ensures c.outcome.Published? ==> fetched == Some(Ok(c.outcome.snapshot)) && c.record == Success(input.now)
    ensures !c.outcome.Published? ==> Find(c.files, OutputFile(outputDir)) == Find(files, OutputFile(outputDir))
  {
    match fetched
    case None => CycleResult(FetchFailed, files, Failure(FetchFailedMessage))
    case Some(Err(e)) => CycleResult(ParseFailed(e), files, Failure(e.message))
    case Some(Ok(snapshot)) =>
      TargetOldOrNew(files, OutputFile(outputDir), render(snapshot), input.token, input.now,
                     input.fault, input.unlinkFails);
      var out := AtomicWriteSpec(files, OutputFile(outputDir), render(snapshot), input.token, input.now,
                                 input.fault, input.unlinkFails);
      if out.raised.Some? then CycleResult(WriteFailed(out.raised.value), out.files, Failure(out.raised.value.message))
      else CycleResult(Published(snapshot), out.files, Success(input.now))
  }

  /** The handler attributes after one report. */
  function Recorded(view: HandlerView, record: Record): HandlerView
  {
    match record
    case Success(t) => view.(lastSuccess := Some(t), successCount := view.successCount + 1)
    case Failure(m) => view.(lastError := Some(m), errorCount := view.errorCount + 1)
  }

  /** One report adds one to exactly one counter and sets the matching
      last_success or last_error, leaving the other and the file alone.
      (Stated apart from Recorded so that the run proofs do not carry it.) */
  lemma RecordedEffect(view: HandlerView, record: Record)
    ensures var after := Recorded(view, record);
      && after.outputFile == view.outputFile
      && after.successCount + after.errorCount == view.successCount + view.errorCount + 1
      && (record.Success? ==> && after.lastSuccess == Some(record.at) && after.lastError == view.lastError
                              && after.successCount == view.successCount + 1)
      && (record.Failure? ==> && after.lastError == Some(record.message) && after.lastSuccess == view.lastSuccess
                              && after.errorCount == view.errorCount + 1)
  {
  }

  /** Every cycle reports exactly once: success exactly when it published,
      stamped with the cycle's time; a fetch that gave nothing reports the
      fixed message, any other failure the exception's text. */
  lemma CycleReportsOnce(outputDir: string, parse: ResponseParser,
                         files: map<Path, FileEntry>, input: CycleInput, render: Snapshot -> string)
    ensures var c := Cycle(outputDir, parse, files, input, render);
      && (c.record.Success? <==> c.outcome.Published?)
      && (c.record.Success? ==> c.record.at == input.now)
      && (c.outcome.FetchFailed? ==> c.record == Failure(FetchFailedMessage))
      && (c.outcome.ParseFailed? ==> c.record == Failure(c.outcome.parseError.message))
      && (c.outcome.WriteFailed? ==> c.record == Failure(c.outcome.writeError.message))
  {
  }

  /** A cycle publishes exactly the parse of what it fetched, and fails to
      fetch exactly when the fetch gives nothing. */
  lemma PublishedIsParsedFetch(outputDir: string, parse: ResponseParser,
                               files: map<Path, FileEntry>, input: CycleInput, render: Snapshot -> string)
    ensures var c := Cycle(outputDir, parse, files, input, render);
      var raw := FetchSpec(input.clientOk, input.current, input.hourly, input.daily);
      && (c.outcome.FetchFailed? <==> raw.None?)
      && (c.outcome.ParseFailed? ==> raw.Some? && parse(raw.value, input.now) == Err(c.outcome.parseError))
      && (c.outcome.Published? ==> raw.Some? && parse(raw.value, input.now) == Ok(c.outcome.snapshot))
  {
  }

  /** The feed file changes only when a cycle publishes, and then holds the
      rendered snapshot stamped with the cycle's time. A cycle that fetched
      or parsed nothing leaves the file system untouched, and no cycle
      touches anything besides the feed file and its temp file. */
  lemma FeedChangesOnlyOnPublish(outputDir: string, parse: ResponseParser,
                                 files: map<Path, FileEntry>, input: CycleInput, render: Snapshot -> string)
    ensures var c := Cycle(outputDir, parse, files, input, render);
      var target := OutputFile(outputDir);
      && (c.outcome.Published? ==> Find(c.files, target) == Some(FileEntry(render(c.outcome.snapshot), input.now)))
      && (!c.outcome.Published? ==> Find(c.files, target) == Find(files, target))
      && (c.outcome.FetchFailed? || c.outcome.ParseFailed? ==> c.files == files)
      && (forall p | p != target && p != TempPath(target, input.token) :: Find(c.files, p) == Find(files, p))
  {
    var raw := FetchSpec(input.clientOk, input.current, input.hourly, input.daily);
    if raw.Some? {
      var parsed := parse(raw.value, input.now);
      if parsed.Ok? {
        var target := OutputFile(outputDir);
        var text := render(parsed.value);
        TargetOldOrNew(files, target, text, input.token, input.now, input.fault, input.unlinkFails);
        NoTempLeftBehind(files, target, text, input.token, input.now, input.fault, input.unlinkFails);
      }
    }
  }

  /** The daemon and both health endpoints agree on the file: right after a
      cycle publishes, healthcheck.py's /health answers 200 exactly while the
      file is younger than two poll intervals, and health.py, monitoring the
      same path, calls it healthy exactly while it is younger than two
      hours. */
  lemma PublishedFeedIsHealthy(outputDir: string, parse: ResponseParser,
                               files: map<Path, FileEntry>, input: CycleInput, render: Snapshot -> string,
                               d: HealthCheck.DaemonView, view: HandlerView, t: int)
    requires Cycle(outputDir, parse, files, input, render).outcome.Published?
    requires d.outputDir == outputDir
    requires view.outputFile == Some(OutputFile(outputDir))
    ensures var c := Cycle(outputDir, parse, files, input, render);
      && (HealthCheck.HandleHealth(Some(d), HealthCheck.ProbeOf(c.files, OutputFile(d.outputDir)), t).code == 200
          <==> HealthCheck.Fresh(d.pollInterval, t - input.now))
      && (HealthStatus(view, c.files, t)["healthy"] == JBool(t - input.now < StaleAfter))
  {
    var c := Cycle(outputDir, parse, files, input, render);
    FeedChangesOnlyOnPublish(outputDir, parse, files, input, render);
    var entry := FileEntry(render(c.outcome.snapshot), input.now);
    assert Find(c.files, OutputFile(outputDir)) == Some(entry);
    HealthCheck.HealthIffFresh(d, entry, t);
    HealthyIffFresh(view, c.files, t);
  }

  // ------------------------------------------------------------ many cycles

  /** The cycles run one after another, each on the file system the previous
      one left: their outcomes, the final file system, and the reports in
      order. */
  datatype RunResult = RunResult(outcomes: seq<CycleOutcome>, files: map<Path, FileEntry>, records: seq<Record>)

  /** A cycle as a function of the file system before it and its input. */
  type CycleStep = (map<Path, FileEntry>, CycleInput) -> CycleResult

  /** The cycle of a daemon writing under outputDir with the given parser. */
  function DaemonStep(outputDir: string, parse: ResponseParser, render: Snapshot -> string): CycleStep
  {
    (files: map<Path, FileEntry>, input: CycleInput) => Cycle(outputDir, parse, files, input, render)
  }

  /** One more cycle, on the file system the run so far left. */
  function Then(step: CycleStep, sofar: RunResult, input: CycleInput): (r: RunResult)
    ensures |r.outcomes| == |sofar.outcomes| + 1 && |r.records| == |sofar.records| + 1
  {
    var c := step(sofar.files, input);
    RunResult(sofar.outcomes + [c.outcome], c.files, sofar.records + [c.record])
  }

  /** The first n cycles of a run over inputs. */
  function CyclesUpTo(step: CycleStep, files: map<Path, FileEntry>, inputs: seq<CycleInput>, n: nat): (r: RunResult)
    requires n <= |inputs|
    ensures |r.outcomes| == n && |r.records| == n
    decreases n
  {
    if n == 0 then RunResult([], files, [])
    else Then(step, CyclesUpTo(step, files, inputs, n - 1), inputs[n - 1])
  }

  /** All the cycles of a run over inputs. */
  function Cycles(step: CycleStep, files: map<Path, FileEntry>, inputs: seq<CycleInput>): (r: RunResult)
    ensures |r.outcomes| == |inputs| && |r.records| == |inputs|
  {
    CyclesUpTo(step, files, inputs, |inputs|)
  }

  /** A run reports once per cycle, in order: the i-th report is a success
      exactly when the i-th cycle published. */
  lemma {:induction false} CyclesReportOncePerCycle(outputDir: string, parse: ResponseParser, files: map<Path, FileEntry>,
                                                   inputs: seq<CycleInput>, n: nat, render: Snapshot -> string)
    requires n <= |inputs|
    ensures forall i | 0 <= i < n ::
      CyclesUpTo(DaemonStep(outputDir, parse, render), files, inputs, n).records[i].Success?
      <==> CyclesUpTo(DaemonStep(outputDir, parse, render), files, inputs, n).outcomes[i].Published?
    decreases n
  {
    if n > 0 {
      var step := DaemonStep(outputDir, parse, render);
      var before := CyclesUpTo(step, files, inputs, n - 1);
      CyclesReportOncePerCycle(outputDir, parse, files, inputs, n - 1, render);
      CycleReportsOnce(outputDir, parse, before.files, inputs[n - 1], render);
      var c := Cycle(outputDir, parse, before.files, inputs[n - 1], render);
      var r := CyclesUpTo(step, files, inputs, n);
      assert r.records == before.records + [c.record] && r.outcomes == before.outcomes + [c.outcome];
      forall i | 0 <= i < n
        ensures r.records[i].Success? <==> r.outcomes[i].Published?
      {
        if i < n - 1 {
          assert r.records[i] == before.records[i] && r.outcomes[i] == before.outcomes[i];
        } else {
          assert r.records[i] == c.record && r.outcomes[i] == c.outcome;
        }
      }
    }
  }

  /** The handler attributes after a run of reports. */
  function RecordAll(view: HandlerView, records: seq<Record>): HandlerView
    decreases |records|
  {
    if records == [] then view else Recorded(RecordAll(view, records[..|records| - 1]), records[|records| - 1])
  }

  /** One more report at the end of a run of reports. */
  lemma RecordAllSnoc(view: HandlerView, records: seq<Record>, record: Record)
    ensures RecordAll(view, records + [record]) == Recorded(RecordAll(view, records), record)
  {
    assert (records + [record])[..|records|] == records;
  }

  /** The number of successes among the reports. */
  function Successes(records: seq<Record>): nat
    decreases |records|
  {
    if records == [] then 0
    else Successes(records[..|records| - 1]) + (if records[|records| - 1].Success? then 1 else 0)
  }

  /** The counters count the reports: success_count grows by the number of
      successes, error_count by the rest, and the monitored file is kept. */
  lemma {:induction false} CountersCountReports(view: HandlerView, records: seq<Record>)
    ensures var v := RecordAll(view, records);
      && v.successCount == view.successCount + Successes(records)
      && v.errorCount == view.errorCount + (|records| - Successes(records))
      && v.outputFile == view.outputFile
    decreases |records|
  {
    if records != [] {
      CountersCountReports(view, records[..|records| - 1]);
    }
  }

  // ------------------------------------------------------------ the loop

  /** What happens while the loop sleeps: the task is cancelled; stop() is
      called (a signal handler); or the sleep ends and a cycle runs, after
      which stop() may have been called. */
  datatype Tick =
    | Cancel
    | StopWhileAsleep
    | Wake(input: CycleInput, stopAfterPoll: bool)

  /** The inputs of the cycles the loop runs from tick i on. */
  function PolledFrom(ticks: seq<Tick>, i: nat): (polled: seq<CycleInput>)
    requires i <= |ticks|
    ensures |polled| <= |ticks| - i
    ensures polled != [] <==> i < |ticks| && ticks[i].Wake?
    ensures polled != [] ==> polled[0] == ticks[i].input
    decreases |ticks| - i
  {
    if i == |ticks| then []
    else match ticks[i]
      case Cancel => []
      case StopWhileAsleep => []
      case Wake(input, stop) => [input] + (if stop then [] else PolledFrom(ticks, i + 1))
  }

  /** Whether `running` is still set when the ticks from i on are used up or
      the loop is left. Cancellation leaves the loop by `break`, with the
      flag still set. */
  predicate StillRunningFrom(ticks: seq<Tick>, i: nat)
    requires i <= |ticks|
    decreases |ticks| - i
  {
    i == |ticks| ||
    match ticks[i]
      case Cancel => true
      case StopWhileAsleep => false
      case Wake(_, stop) => !stop && StillRunningFrom(ticks, i + 1)
  }

  /** A tick that clears `running`: stop() while asleep, or during a poll. */
  predicate Stops(t: Tick)
  {
    t.StopWhileAsleep? || (t.Wake? && t.stopAfterPoll)
  }

  /** `running` is cleared by the time the loop is left exactly when some
      tick from i on stops it and every tick before that one is a wake that
      did not: a cancellation first leaves the flag set. */
  lemma {:induction false} StillRunningIffNoStop(ticks: seq<Tick>, i: nat)
    requires i <= |ticks|
    ensures !StillRunningFrom(ticks, i) <==>
      exists j | i <= j < |ticks| :: Stops(ticks[j]) && forall k | i <= k < j :: ticks[k].Wake? && !Stops(ticks[k])
    decreases |ticks| - i
  {
    if i < |ticks| {
      StillRunningIffNoStop(ticks, i + 1);
      if !StillRunningFrom(ticks, i) && !Stops(ticks[i]) {
        var j :| i + 1 <= j < |ticks| && Stops(ticks[j]) && forall k | i + 1 <= k < j :: ticks[k].Wake? && !Stops(ticks[k]);
        assert forall k | i <= k < j :: ticks[k].Wake? && !Stops(ticks[k]);
      }
      if exists j | i <= j < |ticks| :: Stops(ticks[j]) && forall k | i <= k < j :: ticks[k].Wake? && !Stops(ticks[k]) {
        var j :| i <= j < |ticks| && Stops(ticks[j]) && forall k | i <= k < j :: ticks[k].Wake? && !Stops(ticks[k]);
        if j > i {
          assert ticks[i].Wake? && !Stops(ticks[i]);
          assert exists j' | i + 1 <= j' < |ticks| :: Stops(ticks[j']) && forall k | i + 1 <= k < j' :: ticks[k].Wake? && !Stops(ticks[k]);
        }
      }
    }
  }

  /** The inputs of the wakes from tick i up to tick k, in order. */
  function WakeInputs(ticks: seq<Tick>, i: nat, k: nat): seq<CycleInput>
    requires i <= k <= |ticks|
    requires forall j | i <= j < k :: ticks[j].Wake?
    decreases k - i
  {
    if i == k then [] else [ticks[i].input] + WakeInputs(ticks, i + 1, k)
  }

  /** The loop runs a cycle on each wake that neither follows a stop nor is
      followed by one, in order: across such wakes, the inputs polled from
      tick i are theirs followed by the inputs polled from the tick after
      them, where a cancellation or stop polls nothing more. */
  lemma {:induction false} PolledUntilHalt(ticks: seq<Tick>, i: nat, k: nat)
    requires i <= k <= |ticks|
    requires forall j | i <= j < k :: ticks[j].Wake? && !ticks[j].stopAfterPoll
    ensures PolledFrom(ticks, i) == WakeInputs(ticks, i, k) + PolledFrom(ticks, k)
    decreases k - i
  {
    if i < k {
      var x := ticks[i].input;
      var rest := WakeInputs(ticks, i + 1, k);
      assert ticks[i] == Wake(x, false);
      calc {
        PolledFrom(ticks, i);
        [x] + PolledFrom(ticks, i + 1);
        { PolledUntilHalt(ticks, i + 1, k); }
        [x] + (rest + PolledFrom(ticks, k));
        ([x] + rest) + PolledFrom(ticks, k);
        WakeInputs(ticks, i, k) + PolledFrom(ticks, k);
      }
    }
  }

  /** The loop of run() from tick i on, continuing the run so far: the
      specification WeatherDaemon.Run is proved against. */
  function RunFrom(step: CycleStep, ticks: seq<Tick>, i: nat, sofar: RunResult): RunResult
    requires i <= |ticks|
    decreases |ticks| - i
  {
    if i == |ticks| then sofar
    else match ticks[i]
      case Wake(input, stop) =>
        var next := Then(step, sofar, input);
        if stop then next else RunFrom(step, ticks, i + 1, next)
      case _ => sofar
  }

  /** The loop runs at most one cycle per tick, keeps the cycles before
      it, and adds one report for each cycle it runs. */
  lemma {:induction false} RunFromBounds(step: CycleStep, ticks: seq<Tick>, i: nat, sofar: RunResult)
    requires i <= |ticks|
    ensures var r := RunFrom(step, ticks, i, sofar);
      && |sofar.outcomes| <= |r.outcomes| <= |sofar.outcomes| + (|ticks| - i)
      && |r.records| - |sofar.records| == |r.outcomes| - |sofar.outcomes|
      && r.outcomes[..|sofar.outcomes|] == sofar.outcomes
      && r.records[..|sofar.records|] == sofar.records
    decreases |ticks| - i
  {
    if i < |ticks| && ticks[i].Wake? {
      var next := Then(step, sofar, ticks[i].input);
      assert next.outcomes[..|sofar.outcomes|] == sofar.outcomes;
      assert next.records[..|sofar.records|] == sofar.records;
      if !ticks[i].stopAfterPoll {
        RunFromBounds(step, ticks, i + 1, next);
        var r := RunFrom(step, ticks, i + 1, next);
        assert r.outcomes[..|sofar.outcomes|] == r.outcomes[..|next.outcomes|][..|sofar.outcomes|];
        assert r.records[..|sofar.records|] == r.records[..|next.records|][..|sofar.records|];
      }
    }
  }

  /** The first n cycles over inputs do not depend on the inputs after
      them. */
  lemma {:induction false} CyclesPrefix(step: CycleStep, files: map<Path, FileEntry>,
                                       inputs: seq<CycleInput>, more: seq<CycleInput>, n: nat)
    requires n <= |inputs|
    ensures CyclesUpTo(step, files, inputs + more, n)
         == CyclesUpTo(step, files, inputs, n)
    decreases n
  {
    if n > 0 {
      CyclesPrefix(step, files, inputs, more, n - 1);
      assert (inputs + more)[n - 1] == inputs[n - 1];
    }
  }

  /** A run of one cycle. */
  lemma OneCycle(step: CycleStep, files: map<Path, FileEntry>, input: CycleInput)
    ensures Cycles(step, files, [input])
         == Then(step, RunResult([], files, []), input)
  {
    assert CyclesUpTo(step, files, [input], 0) == RunResult([], files, []);
  }

  /** A run over one more input is the run so far followed by that
      input's cycle. */
  lemma CyclesSnoc(step: CycleStep, files: map<Path, FileEntry>, done: seq<CycleInput>, input: CycleInput)
    ensures Cycles(step, files, done + [input])
         == Then(step, Cycles(step, files, done), input)
  {
    CyclesPrefix(step, files, done, [input], |done|);
    assert (done + [input])[|done|] == input;
  }

  /** The loop runs exactly the cycles of the polled inputs, in order: going
      on from the cycles over done, it ends with the cycles over done
      followed by the inputs polled from tick i on. */
  lemma {:induction false} RunFromIsCycles(step: CycleStep, files: map<Path, FileEntry>,
                                          ticks: seq<Tick>, i: nat, done: seq<CycleInput>)
    requires i <= |ticks|
    ensures RunFrom(step, ticks, i, Cycles(step, files, done))
         == Cycles(step, files, done + PolledFrom(ticks, i))
    decreases |ticks| - i
  {
    if i == |ticks| || !ticks[i].Wake? {
      assert done + PolledFrom(ticks, i) == done;
    } else {
      var input := ticks[i].input;
      var longer := done + [input];
      var sofar := Cycles(step, files, done);
      var next := Then(step, sofar, input);
      if ticks[i].stopAfterPoll {
        calc {
          RunFrom(step, ticks, i, sofar);
          next;
          { CyclesSnoc(step, files, done, input); }
          Cycles(step, files, longer);
          { assert PolledFrom(ticks, i) == [input]; }
          Cycles(step, files, done + PolledFrom(ticks, i));
        }
      } else {
        calc {
          RunFrom(step, ticks, i, sofar);
          RunFrom(step, ticks, i + 1, next);
          { CyclesSnoc(step, files, done, input); }
          RunFrom(step, ticks, i + 1, Cycles(step, files, longer));
          { RunFromIsCycles(step, files, ticks, i + 1, longer); }
          Cycles(step, files, longer + PolledFrom(ticks, i + 1));
          { assert done + PolledFrom(ticks, i) == longer + PolledFrom(ticks, i + 1); }
          Cycles(step, files, done + PolledFrom(ticks, i));
        }
      }
    }
  }

  /** The whole of run(): the initial poll followed by the loop runs the
      cycles of the first input and of every input the loop polls. */
  lemma RunIsCycles(step: CycleStep, files: map<Path, FileEntry>, first: CycleInput, ticks: seq<Tick>)
    ensures RunFrom(step, ticks, 0, Then(step, RunResult([], files, []), first))
         == Cycles(step, files, [first] + PolledFrom(ticks, 0))
  {
    OneCycle(step, files, first);
    RunFromIsCycles(step, files, ticks, 0, [first]);
  }

  // ------------------------------------------------------------ the class

  class WeatherDaemon {
    const apiKey: string
    const outputDir: string
    const latitude: PyFloat
    const longitude: PyFloat
    /** The display location: the given name, or "lat,lon". */
    const locationName: string
    const pollInterval: int
    const timeout: int
    /** The base URL without trailing slashes. */
    const apiBaseUrl: string
    const currentEndpoint: string
    const hourlyEndpoint: string
    const dailyEndpoint: string
    var running: bool
    /** The health.py server to report to; the constructor leaves it None. */
    var healthServer: HealthCheckServer?
    /** self._parse_weather_response as a function, the parser the cycles
        are specified over. */
    ghost const parse: ResponseParser

    /** parse is the parser at this daemon's location. Its trigger is the
        parser's own term, so the cycle specifications can be used without
        unfolding the parser. */
    ghost predicate Valid()
    {
      forall raw: map<string, Json>, now: int {:trigger ParseSpec(raw, locationName, latitude, longitude, now)} ::
        parse(raw, now) == ParseSpec(raw, locationName, latitude, longitude, now)
    }

    constructor(apiKey: string, outputDir: string, latitude: PyFloat, longitude: PyFloat,
                locationName: Option<string>, pollInterval: int, timeout: int, apiBaseUrl: string,
                currentEndpoint: string, hourlyEndpoint: string, dailyEndpoint: string)
      ensures this.apiKey == apiKey && this.outputDir == outputDir
      ensures this.latitude == latitude && this.longitude == longitude
      ensures this.locationName == LocationName(locationName, latitude, longitude)
      ensures this.pollInterval == pollInterval && this.timeout == timeout
      ensures this.apiBaseUrl == BaseUrl(apiBaseUrl)
      ensures this.currentEndpoint == currentEndpoint && this.hourlyEndpoint == hourlyEndpoint
      ensures this.dailyEndpoint == dailyEndpoint
      ensures !running && healthServer == null
      ensures Valid()
    {
      this.apiKey := apiKey;
      this.outputDir := outputDir;
      this.latitude := latitude;
      this.longitude := longitude;
      this.locationName := LocationName(locationName, latitude, longitude);
      this.pollInterval := pollInterval;
      this.timeout := timeout;
      this.apiBaseUrl := BaseUrl(apiBaseUrl);
      this.currentEndpoint := currentEndpoint;
      this.hourlyEndpoint := hourlyEndpoint;
      this.dailyEndpoint := dailyEndpoint;
      var location := LocationName(locationName, latitude, longitude);
      this.parse := (raw: map<string, Json>, now: int) => ParseSpec(raw, location, latitude, longitude, now);
      running := false;
      healthServer := null;
    }

    /** The handler attributes a cycle may change: none without a server. */
    function HealthTargets(): set<object>
      reads this
    {
      if healthServer == null then {} else {healthServer.handler}
    }

    /** The handler attributes as a request would read them. */
    function HealthView(): HandlerView
      reads this, HealthTargets()
      requires healthServer != null
    {
      healthServer.handler.View()
    }

    /** This daemon's cycle as a function of the file system. */
    ghost function CycleOf(files: map<Path, FileEntry>, input: CycleInput, render: Snapshot -> string): CycleResult
    {
      Cycle(outputDir, parse, files, input, render)
    }

    /** This daemon publishes the parse, at its own location and at the
        cycle's time, of what it fetched, and reports the parser's exception
        when there is one. */
    lemma PublishesItsParse(files: map<Path, FileEntry>, input: CycleInput, render: Snapshot -> string)
      requires Valid()
      ensures var c := CycleOf(files, input, render);
        var raw := FetchSpec(input.clientOk, input.current, input.hourly, input.daily);
        && (c.outcome.FetchFailed? <==> raw.None?)
        && (c.outcome.ParseFailed? ==>
              raw.Some? && ParseSpec(raw.value, locationName, latitude, longitude, input.now) == Err(c.outcome.parseError))
        && (c.outcome.Published? ==>
              raw.Some? && ParseSpec(raw.value, locationName, latitude, longitude, input.now) == Ok(c.outcome.snapshot))
    {
      PublishedIsParsedFetch(outputDir, parse, files, input, render);
    }

    /** _poll_once: fetch; if nothing came back report the fixed error;
        otherwise parse, write the feed file atomically and report success;
        an exception from parsing or writing is reported with its text. */
    method PollOnce(fs: FileSystem, input: CycleInput, render: Snapshot -> string) returns (outcome: CycleOutcome)
      requires Valid()
      modifies fs, HealthTargets()
      ensures var c := CycleOf(old(fs.files), input, render);
        && outcome == c.outcome
        && fs.files == c.files
        && (healthServer != null ==> HealthView() == Recorded(old(HealthView()), c.record))
    {
      var record: Record;
      var fetched := FetchAndParse(input);
      if fetched.None? {
        outcome, record := FetchFailed, Failure(FetchFailedMessage);
      } else {
        outcome, record := Publish(fs, input, fetched.value, render);
      }
      Report(record);
    }

    /** _fetch_weather, then the parser when the fetch gave something. */
    method FetchAndParse(input: CycleInput) returns (fetched: Option<Result<Snapshot>>)
      requires Valid()
      ensures fetched == Fetched(parse, input)
    {
      var raw := FetchWeather(input.clientOk, input.current, input.hourly, input.daily);
      if raw.None? {
        return None;
      }
      var parsed := ParseWeatherResponse(raw.value, locationName, latitude, longitude, input.now);
      fetched := Some(parsed);
    }

    /** The rest of _poll_once's try block once the data is parsed: a parse
        error is passed on; otherwise the feed file is written atomically. */
    method Publish(fs: FileSystem, input: CycleInput, parsed: Result<Snapshot>, render: Snapshot -> string)
      returns (outcome: CycleOutcome, record: Record)
      modifies fs
      ensures var c := AfterFetch(outputDir, old(fs.files), input, Some(parsed), render);
        outcome == c.outcome && fs.files == c.files && record == c.record
    {
      if parsed.Err? {
        return ParseFailed(parsed.error), Failure(parsed.error.message);
      }
      var raised, _ := WriteJsonAtomic(fs, OutputFile(outputDir), render(parsed.value), input.token, input.now,
                                       input.fault, input.unlinkFails);
      if raised.Some? {
        outcome, record := WriteFailed(raised.value), Failure(raised.value.message);
      } else {
        outcome, record := Published(parsed.value), Success(input.now);
      }
    }

    /** The `if self.health_server:` report at the end of every path of
        _poll_once: record_success or record_error, or nothing without a
        server. */
    method Report(record: Record)
      modifies HealthTargets()
      ensures healthServer != null ==> HealthView() == Recorded(old(HealthView()), record)
    {
      if healthServer != null {
        match record {
          case Success(t) => healthServer.RecordSuccess(t);
          case Failure(m) => healthServer.RecordError(m);
        }
      }
    }

    /** run: set running, poll at once, then on every wake poll again while
        running is still set, until stop() or cancellation. ticks are what
        the sleeps end in; the model stops when they are used up. */
    method Run(fs: FileSystem, first: CycleInput, ticks: seq<Tick>, render: Snapshot -> string)
      returns (outcomes: seq<CycleOutcome>)
      requires Valid()
      modifies this`running, fs, HealthTargets()
      ensures var r := Cycles(DaemonStep(outputDir, parse, render), old(fs.files), [first] + PolledFrom(ticks, 0));
        && outcomes == r.outcomes
        && fs.files == r.files
        && (healthServer != null ==> HealthView() == RecordAll(old(HealthView()), r.records))
      ensures running == StillRunningFrom(ticks, 0)
    {
      running := true;
      ghost var files0 := fs.files;
      ghost var view0 := if healthServer != null then HealthView() else HandlerView(None, None, None, 0, 0);
      ghost var c := CycleOf(fs.files, first, render);
      assert this !in HealthTargets() && this as object != fs;
      var o := PollOnce(fs, first, render);
      RecordAllSnoc(view0, [], c.record);
      ghost var step := DaemonStep(outputDir, parse, render);
      ghost var sofar := Then(step, RunResult([], files0, []), first);
      outcomes := Loop(fs, ticks, [o], sofar, view0, render);
      RunIsCycles(step, files0, first, ticks);
    }

    /** The while loop of run, entered with running set: polled holds the
        outcomes of the run so far, sofar that run, view0 the handler
        attributes before it. */
    method Loop(fs: FileSystem, ticks: seq<Tick>, polled: seq<CycleOutcome>, ghost sofar: RunResult,
                ghost view0: HandlerView, render: Snapshot -> string)
      returns (outcomes: seq<CycleOutcome>)
      requires Valid() && running
      requires polled == sofar.outcomes && fs.files == sofar.files
      requires healthServer != null ==> HealthView() == RecordAll(view0, sofar.records)
      modifies this`running, fs, HealthTargets()
      ensures var r := RunFrom(DaemonStep(outputDir, parse, render), ticks, 0, sofar);
        && outcomes == r.outcomes
        && fs.files == r.files
        && (healthServer != null ==> HealthView() == RecordAll(view0, r.records))
      ensures running == StillRunningFrom(ticks, 0)
    {
      outcomes := polled;
      ghost var step := DaemonStep(outputDir, parse, render);
      ghost var run := sofar;
      ghost var final := RunFrom(step, ticks, 0, sofar);
      var i := 0;
      while i < |ticks| && running
        invariant 0 <= i <= |ticks|
        invariant running ==> RunFrom(step, ticks, i, run) == final
        invariant !running ==> run == final
        invariant running ==> StillRunningFrom(ticks, i) == StillRunningFrom(ticks, 0)
        invariant !running ==> !StillRunningFrom(ticks, 0)
        invariant outcomes == run.outcomes && fs.files == run.files
        invariant healthServer != null ==> HealthView() == RecordAll(view0, run.records)
        decreases |ticks| - i
      {
        match ticks[i] {
          case Cancel =>
            assert RunFrom(step, ticks, i, run) == run;
            break;
          case StopWhileAsleep =>
            assert RunFrom(step, ticks, i, run) == run;
            Stop();
          case Wake(input, stop) =>
            ghost var before := run;
            var o;
            o, run := PollAgain(fs, input, run, view0, render);
            assert RunFrom(step, ticks, i, before) == if stop then run else RunFrom(step, ticks, i + 1, run);
            outcomes := outcomes + [o];
            if stop {
              Stop();
            }
        }
        i := i + 1;
      }
    }

    /** One wake of the loop: a poll, which extends the run so far by one
        cycle. */
    method PollAgain(fs: FileSystem, input: CycleInput, ghost run: RunResult, ghost view0: HandlerView,
                     render: Snapshot -> string)
      returns (outcome: CycleOutcome, ghost next: RunResult)
      requires Valid() && fs.files == run.files
      requires healthServer != null ==> HealthView() == RecordAll(view0, run.records)
      modifies fs, HealthTargets()
      ensures next == Then(DaemonStep(outputDir, parse, render), run, input)
      ensures next.outcomes == run.outcomes + [outcome] && fs.files == next.files
      ensures healthServer != null ==> HealthView() == RecordAll(view0, next.records)
    {
      ghost var c := CycleOf(fs.files, input, render);
      assert this !in HealthTargets() && this as object != fs;
      outcome := PollOnce(fs, input, render);
      RecordAllSnoc(view0, run.records, c.record);
      next := Then(DaemonStep(outputDir, parse, render), run, input);
    }

    /** stop: clears running, so the loop polls no more. */
    method Stop()
      modifies this`running
      ensures !running
    {
      running := false;
    }
  }

  /** Endpoints that differ give URLs that differ: the three requests of a
      cycle go to three different resources when their endpoints differ. */
  lemma DistinctEndpointsDistinctUrls(base: string, e1: string, e2: string, apiKey: string,
                                      latitude: PyFloat, longitude: PyFloat)
    requires e1 != e2
    ensures EndpointUrl(base, e1, apiKey, latitude, longitude) != EndpointUrl(base, e2, apiKey, latitude, longitude)
  {
    var q := Query(apiKey, latitude, longitude);
    var u1 := EndpointUrl(base, e1, apiKey, latitude, longitude);
    var u2 := EndpointUrl(base, e2, apiKey, latitude, longitude);
    JoinShape(base, e1, q);
    JoinShape(base, e2, q);
    assert |u1| == |base| + 1 + |e1| + |q| && |u2| == |base| + 1 + |e2| + |q|;
  }
}
