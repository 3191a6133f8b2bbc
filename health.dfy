/** The health server of src/weather_daemon/health.py. Its handler keeps the
    monitored file and the poll counters in class attributes, shared by every
    request and reset whenever a HealthCheckServer is created; HandlerState
    is that shared object. Responses are built from the attributes, the file
    system and the current time (microseconds). */
module Health {
  import opened Text
  import opened PyJson
  import opened AtomicFile
  import opened Http

  /** Age (microseconds) from which the feed file is too old: 2 hours. */
  const StaleAfter := 7200 * 1_000_000

  /** The handler attributes as one request reads them. */
  datatype HandlerView = HandlerView(
    outputFile: Option<Path>, lastSuccess: Option<int>, lastError: Option<string>,
    successCount: nat, errorCount: nat)

  /** The class attributes of HealthCheckHandler. */
  class HandlerState {
    var outputFile: Option<Path>
    var lastSuccess: Option<int>
    var lastError: Option<string>
    var successCount: nat
    var errorCount: nat

    /** The class-body defaults. */
    constructor()
      ensures View() == HandlerView(None, None, None, 0, 0)
    {
      outputFile := None;
      lastSuccess := None;
      lastError := None;
      successCount := 0;
      errorCount := 0;
    }

    function View(): HandlerView
      reads this
    {
      HandlerView(outputFile, lastSuccess, lastError, successCount, errorCount)
    }

    /** do_GET, answering with what the view, the file system and the clock
        show at the time of the request. */
    method DoGet(path: string, files: map<Path, FileEntry>, now: int) returns (reply: HttpReply)
      ensures reply == Route(View(), path, files, now)
    {
      reply := Route(View(), path, files, now);
    }
  }

  class HealthCheckServer {
    const port: int
    /** The handler's class attributes, shared with every server. */
    const handler: HandlerState

    /** Sets the monitored file and clears the counters and timestamps. */
    constructor(port: int, outputFile: Option<Path>, handler: HandlerState)
      modifies handler
      ensures this.port == port && this.handler == handler
      ensures handler.View() == HandlerView(outputFile, None, None, 0, 0)
    {
      this.port := port;
      this.handler := handler;
      new;
      handler.outputFile := outputFile;
      handler.lastSuccess := None;
      handler.lastError := None;
      handler.successCount := 0;
      handler.errorCount := 0;
    }

    /** record_success: one more success, stamped now; error fields kept. */
    method RecordSuccess(now: int)
      modifies handler
      ensures handler.successCount == old(handler.successCount) + 1
      ensures handler.lastSuccess == Some(now)
      ensures handler.errorCount == old(handler.errorCount) && handler.lastError == old(handler.lastError)
      ensures handler.outputFile == old(handler.outputFile)
    {
      handler.lastSuccess := Some(now);
      handler.successCount := handler.successCount + 1;
    }

    /** record_error: one more error, with its message; success fields kept. */
    method RecordError(message: string)
      modifies handler
      ensures handler.errorCount == old(handler.errorCount) + 1
      ensures handler.lastError == Some(message)
      ensures handler.successCount == old(handler.successCount) && handler.lastSuccess == old(handler.lastSuccess)
      ensures handler.outputFile == old(handler.outputFile)
    {
      handler.lastError := Some(message);
      handler.errorCount := handler.errorCount + 1;
    }
  }

  // ------------------------------------------------------------ responses

  /** The monitored file's entry, when a file is configured and exists. */
  function Probe(outputFile: Option<Path>, files: map<Path, FileEntry>): Option<FileEntry>
  {
    if outputFile.Some? then Find(files, outputFile.value) else None
  }

  /** The health rule: a file is configured, exists, and is less than two
      hours old. */
  predicate FileFresh(outputFile: Option<Path>, files: map<Path, FileEntry>, now: int)
  {
    outputFile.Some? && outputFile.value in files && now - files[outputFile.value].mtime < StaleAfter
  }

  /** _get_health_status. The age is reported in seconds with microsecond
      precision. last_success appears when set; last_error when set and
      non-empty, since "" is falsy. */
  function HealthStatus(view: HandlerView, files: map<Path, FileEntry>, now: int): (status: map<string, Json>)
    ensures "healthy" in status
  {
    var entry := Probe(view.outputFile, files);
    var age := if entry.Some? then Some(now - entry.value.mtime) else None;
    var base := map[
      "healthy" := JBool(age.Some? && age.value < StaleAfter),
      "timestamp" := JTime(now),
      "output_file_exists" := JBool(entry.Some?),
      "output_file_age_seconds" := if age.Some? then JFloat(Decimal(age.value, 6)) else JNull];
    var withSuccess := if view.lastSuccess.Some? then base["last_success" := JTime(view.lastSuccess.value)] else base;
    if view.lastError.Some? && view.lastError.value != "" then withSuccess["last_error" := JStr(view.lastError.value)]
    else withSuccess
  }

  /** _get_metrics: counters always; the file's path when one is
      configured; its size and mtime only when it also exists. */
  function Metrics(view: HandlerView, files: map<Path, FileEntry>, now: int): (m: map<string, Json>)
    ensures "success_count" in m && m["success_count"] == JInt(view.successCount)
    ensures "error_count" in m && m["error_count"] == JInt(view.errorCount)
    ensures "output_file" in m <==> view.outputFile.Some?
    ensures "output_file_size" in m <==> view.outputFile.Some? && view.outputFile.value in files
  {
    var base := map[
      "success_count" := JInt(view.successCount),
      "error_count" := JInt(view.errorCount),
      "last_success" := if view.lastSuccess.Some? then JTime(view.lastSuccess.value) else JNull,
      "last_error" := if view.lastError.Some? then JStr(view.lastError.value) else JNull,
      "timestamp" := JTime(now)];
    if view.outputFile.None? then base
    else
      var withPath := base["output_file" := JStr(PathText(view.outputFile.value))];
      if view.outputFile.value !in files then withPath
      else
        var entry := files[view.outputFile.value];
        withPath["output_file_size" := JInt(Utf8Length(entry.contents))]["output_file_mtime" := JTime(entry.mtime)]
  }

  /** do_GET's routing as a function. */
  function Route(view: HandlerView, path: string, files: map<Path, FileEntry>, now: int): (reply: HttpReply)
    ensures path == "/health" ==> reply.code in {200, 503} && reply.body.Some?
    ensures path == "/metrics" ==> reply.code == 200 && reply.body.Some?
    ensures path != "/health" && path != "/metrics" ==> reply == NotFound
  {
    if path == "/health" then
      var status := HealthStatus(view, files, now);
      HttpReply(if status["healthy"] == JBool(true) then 200 else 503, Some(status))
    else if path == "/metrics" then HttpReply(200, Some(Metrics(view, files, now)))
    else NotFound
  }

  // ------------------------------------------------------------- properties

  /** The status says healthy exactly when the file rule holds; the file is
      reported as existing exactly when it is configured and present. */
  lemma HealthyIffFresh(view: HandlerView, files: map<Path, FileEntry>, now: int)
    ensures HealthStatus(view, files, now)["healthy"] == JBool(FileFresh(view.outputFile, files, now))
    ensures HealthStatus(view, files, now)["output_file_exists"]
      == JBool(view.outputFile.Some? && view.outputFile.value in files)
  {
  }

  /** last_success is reported exactly when a success was recorded, and
      last_error exactly when a non-empty error message was. */
  lemma StatusConditionalKeys(view: HandlerView, files: map<Path, FileEntry>, now: int)
    ensures var status := HealthStatus(view, files, now);
      && ("last_success" in status <==> view.lastSuccess.Some?)
      && ("last_error" in status <==> view.lastError.Some? && view.lastError.value != "")
      && (view.lastSuccess.Some? ==> status["last_success"] == JTime(view.lastSuccess.value))
      && ("last_error" in status ==> status["last_error"] == JStr(view.lastError.value))
  {
  }

  /** The metrics always carry both counters; output_file appears exactly
      when a file is configured, and its size and mtime exactly when it is
      configured and exists. */
  lemma MetricsKeys(view: HandlerView, files: map<Path, FileEntry>, now: int)
    ensures var m := Metrics(view, files, now);
      && m["success_count"] == JInt(view.successCount)
      && m["error_count"] == JInt(view.errorCount)
      && ("output_file" in m <==> view.outputFile.Some?)
      && ("output_file_size" in m <==> view.outputFile.Some? && view.outputFile.value in files)
      && ("output_file_mtime" in m <==> view.outputFile.Some? && view.outputFile.value in files)
      && ("output_file_size" in m ==> m["output_file_size"] == JInt(Utf8Length(files[view.outputFile.value].contents)))
      && ("output_file_mtime" in m ==> m["output_file_mtime"] == JTime(files[view.outputFile.value].mtime))
      && ("output_file" in m ==> m["output_file"] == JStr(PathText(view.outputFile.value)))
      && m["last_success"] == (if view.lastSuccess.Some? then JTime(view.lastSuccess.value) else JNull)
      && m["last_error"] == (if view.lastError.Some? then JStr(view.lastError.value) else JNull)
      && m["timestamp"] == JTime(now)
  {
  }

  /** /health answers 200 when healthy and 503 otherwise, /metrics always
      200, and every other path 404. */
  lemma RouteCodes(view: HandlerView, path: string, files: map<Path, FileEntry>, now: int)
    ensures var reply := Route(view, path, files, now);
      && (path == "/health" ==> (reply.code == 200 <==> FileFresh(view.outputFile, files, now)))
      && (path == "/health" ==> reply.code in {200, 503})
      && (path == "/metrics" ==> reply.code == 200)
      && (path != "/health" && path != "/metrics" ==> reply == NotFound)
  {
    HealthyIffFresh(view, files, now);
  }

  /** A recorded success does not change what /health answers: health is
      decided by the file alone. */
  lemma HealthIgnoresCounters(view: HandlerView, files: map<Path, FileEntry>, now: int, t: int)
    ensures Route(view.(lastSuccess := Some(t), successCount := view.successCount + 1), "/health", files, now).code
      == Route(view, "/health", files, now).code
  {
    HealthyIffFresh(view, files, now);
    HealthyIffFresh(view.(lastSuccess := Some(t), successCount := view.successCount + 1), files, now);
  }
}
