/** The decision logic of src/weather_daemon/healthcheck.py: the handler looks
    at the daemon it was given and at the feed file, and answers /health and
    /metrics. Times are microseconds; file inspection (exists() then stat())
    is one probe, which may raise. */
module HealthCheck {
  import opened Text
  import opened PyJson
  import opened AtomicFile
  import opened Http

  /** The daemon attributes the handler reads. The coordinates are finite:
      the daemon the server monitors is built from a validated config. */
  datatype DaemonView = DaemonView(
    outputDir: string, pollInterval: int, timeout: int,
    locationName: string, latitude: Decimal, longitude: Decimal)

  /** What inspecting the feed file found. */
  datatype FileProbe = Missing | Found(entry: FileEntry) | ProbeFails(error: PyException)

  /** The probe of a file system that answers without error. */
  function ProbeOf(files: map<Path, FileEntry>, p: Path): (probe: FileProbe)
    ensures probe.Found? <==> p in files
    ensures probe.Found? ==> probe.entry == files[p]
    ensures !probe.ProbeFails?
  {
    if p in files then Found(files[p]) else Missing
  }

  const Micros := 1_000_000

  /** int() of an age in seconds given in microseconds: truncation toward
      zero, unlike Dafny's division for negative ages. */
  function TruncSeconds(micros: int): (s: int)
    ensures micros >= 0 ==> s >= 0 && s * Micros <= micros < (s + 1) * Micros
    ensures micros < 0 ==> s <= 0 && (s - 1) * Micros < micros <= s * Micros
  {
    if micros >= 0 then micros / Micros else -((-micros) / Micros)
  }

  /** The freshness rule: the file is younger than two poll intervals;
      an age of exactly two intervals is already stale. */
  predicate Fresh(pollInterval: int, ageMicros: int)
    ensures pollInterval >= 1 && ageMicros < 2 * Micros ==> Fresh(pollInterval, ageMicros)
  {
    ageMicros < pollInterval * 2 * Micros
  }

  /** A younger file, or a longer poll interval, never turns a fresh file
      stale. */
  lemma FreshMonotone(pollInterval: int, ageMicros: int, longer: int, younger: int)
    requires Fresh(pollInterval, ageMicros)
    requires pollInterval <= longer && younger <= ageMicros
    ensures Fresh(longer, younger)
  {
  }

  /** _handle_health. */
  function HandleHealth(daemon: Option<DaemonView>, probe: FileProbe, now: int): (reply: HttpReply)
    ensures reply.code in {200, 500, 503}
  {
    if daemon.None? then HttpReply(503, None)
    else match probe
      case Missing =>
        HttpReply(503, Some(map[
          "status" := JStr("initializing"),
          "message" := JStr("No data file yet - daemon may be starting up")]))
      case ProbeFails(_) => HttpReply(500, None)
      case Found(entry) =>
        var age := now - entry.mtime;
        var healthy := Fresh(daemon.value.pollInterval, age);
        HttpReply(if healthy then 200 else 503, Some(map[
          "status" := JStr(if healthy then "healthy" else "stale"),
          "last_update" := JTime(entry.mtime),
          "age_seconds" := JInt(TruncSeconds(age)),
          "poll_interval" := JInt(daemon.value.pollInterval)]))
  }

  /** _handle_metrics. */
  function HandleMetrics(daemon: Option<DaemonView>, probe: FileProbe, now: int): (reply: HttpReply)
    ensures reply.code in {200, 500, 503}
  {
    if daemon.None? then HttpReply(503, None)
    else if probe.ProbeFails? then HttpReply(500, None)
    else
      var d := daemon.value;
      var base := map[
        "location" := JStr(d.locationName),
        "coordinates" := JObj(map["latitude" := JFloat(d.latitude), "longitude" := JFloat(d.longitude)]),
        "poll_interval_seconds" := JInt(d.pollInterval),
        "timeout_seconds" := JInt(d.timeout),
        "output_file" := JStr(PathText(OutputFile(d.outputDir))),
        "file_exists" := JBool(probe.Found?)];
      if probe.Missing? then HttpReply(200, Some(base))
      else HttpReply(200, Some(base[
        "last_update" := JTime(probe.entry.mtime)][
        "file_size_bytes" := JInt(Utf8Length(probe.entry.contents))][
        "age_seconds" := JInt(TruncSeconds(now - probe.entry.mtime))]))
  }

  /** do_GET. */
  function Route(daemon: Option<DaemonView>, path: string, probe: FileProbe, now: int): (reply: HttpReply)
    ensures reply.code in {200, 404, 500, 503}
    ensures daemon.None? && (path == "/health" || path == "/metrics") ==> reply == HttpReply(503, None)
    ensures path != "/health" && path != "/metrics" ==> reply == NotFound
  {
    if path == "/health" then HandleHealth(daemon, probe, now)
    else if path == "/metrics" then HandleMetrics(daemon, probe, now)
    else NotFound
  }

  // ------------------------------------------------------------- properties

  /** Without a daemon both endpoints answer 503, and any other path 404. */
  lemma NoDaemonUnavailable(path: string, probe: FileProbe, now: int)
    ensures path == "/health" || path == "/metrics" ==> Route(None, path, probe, now) == HttpReply(503, None)
    ensures path != "/health" && path != "/metrics" ==> Route(None, path, probe, now).code == 404
  {
  }

  /** Before the first file is written, /health reports "initializing" with
      503. */
  lemma MissingFileInitializing(d: DaemonView, now: int)
    ensures var reply := HandleHealth(Some(d), Missing, now);
      reply.code == 503 && reply.body.Some? && reply.body.value["status"] == JStr("initializing")
  {
  }

  /** With the file present, /health is 200 and "healthy" exactly when the
      file is younger than two poll intervals, else 503 and "stale"; it
      reports the truncated age and echoes the interval. */
  lemma HealthIffFresh(d: DaemonView, entry: FileEntry, now: int)
    ensures var reply := HandleHealth(Some(d), Found(entry), now);
      && reply.body.Some?
      && (reply.code == 200 <==> Fresh(d.pollInterval, now - entry.mtime))
      && (reply.code == 200 <==> reply.body.value["status"] == JStr("healthy"))
      && (reply.code == 503 <==> reply.body.value["status"] == JStr("stale"))
      && reply.body.value["age_seconds"] == JInt(TruncSeconds(now - entry.mtime))
      && reply.body.value["poll_interval"] == JInt(d.pollInterval)
      && reply.body.value["last_update"] == JTime(entry.mtime)
  {
  }

  /** The boundary: a file exactly two poll intervals old is stale. */
  lemma TwoIntervalsIsStale(d: DaemonView, entry: FileEntry)
    ensures HandleHealth(Some(d), Found(entry), entry.mtime + d.pollInterval * 2 * Micros).code == 503
  {
  }

  /** /metrics answers 200 whenever there is a daemon and the probe does not
      raise; the file's last_update, size and age appear exactly when it
      exists. */
  lemma MetricsKeys(d: DaemonView, probe: FileProbe, now: int)
    requires !probe.ProbeFails?
    ensures var reply := HandleMetrics(Some(d), probe, now);
      && reply.code == 200 && reply.body.Some?
      && (forall k | k in ["location", "coordinates", "poll_interval_seconds", "timeout_seconds",
                           "output_file", "file_exists"] :: k in reply.body.value)
      && reply.body.value["file_exists"] == JBool(probe.Found?)
      && ("last_update" in reply.body.value <==> probe.Found?)
      && ("file_size_bytes" in reply.body.value <==> probe.Found?)
      && ("age_seconds" in reply.body.value <==> probe.Found?)
  {
  }

  /** /metrics echoes the daemon's settings and the feed file's path, and,
      when the file exists, reports its modification time, its size in
      bytes and its age in whole seconds. */
  lemma MetricsValues(d: DaemonView, probe: FileProbe, now: int)
    requires !probe.ProbeFails?
    ensures var reply := HandleMetrics(Some(d), probe, now);
      && reply.body.Some?
      && reply.body.value["location"] == JStr(d.locationName)
      && reply.body.value["coordinates"]
         == JObj(map["latitude" := JFloat(d.latitude), "longitude" := JFloat(d.longitude)])
      && reply.body.value["poll_interval_seconds"] == JInt(d.pollInterval)
      && reply.body.value["timeout_seconds"] == JInt(d.timeout)
      && reply.body.value["output_file"] == JStr(PathText(OutputFile(d.outputDir)))
      && (probe.Found? ==>
            && reply.body.value["last_update"] == JTime(probe.entry.mtime)
            && reply.body.value["file_size_bytes"] == JInt(Utf8Length(probe.entry.contents))
            && reply.body.value["age_seconds"] == JInt(TruncSeconds(now - probe.entry.mtime)))
  {
  }

  /** Ages under one second are reported as 0, in either direction. */
  lemma SubSecondAgeIsZero(micros: int)
    requires -Micros < micros < Micros
    ensures TruncSeconds(micros) == 0
  {
  }
}
