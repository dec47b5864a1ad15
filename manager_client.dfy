/**
 * `ManagerInterface` of monit-collector/app/log.py: the collector's side of
 * the manager.  Creating one asks the manager for a session id and attaches
 * an `APILogHandler` for that session to the `logging` logger named after
 * the app; afterwards it uploads files under the session and closes it.
 *
 * The state the interface changes beyond its own fields is process-wide:
 * the `logging` module's registry of loggers and their handlers, and the
 * requests that have gone out.  Both live in a `Process`.  The manager's
 * answers come from a `server` function from request to reply.
 */
module ManagerClient {
  import opened Common
  import opened Text
  import opened Calendar
  import opened ApiLogging
  import TrackingStore

  /** The requests `emit` sends, one per handler, in handler order. */
  function Posts(hs: seq<ApiHandler>, rec: LogRecord): seq<Request> {
    if hs == [] then [] else Posts(hs[..|hs| - 1], rec) + [EmitRequest(hs[|hs| - 1], rec)]
  }

  /**
   * A record logged through a logger with handlers `hs` goes out once per
   * handler, each copy posted to that handler's endpoint under that
   * handler's session.
   */
  lemma {:induction false} PostsPerHandler(hs: seq<ApiHandler>, rec: LogRecord)
    ensures |Posts(hs, rec)| == |hs|
    ensures forall i :: 0 <= i < |hs| ==> Posts(hs, rec)[i] == EmitRequest(hs[i], rec)
    decreases |hs|
  {
    if hs != [] {
      var front := hs[..|hs| - 1];
      PostsPerHandler(front, rec);
      forall i | 0 <= i < |hs| ensures Posts(hs, rec)[i] == EmitRequest(hs[i], rec) {
        if i < |front| {
          assert Posts(hs, rec)[i] == Posts(front, rec)[i];
          assert front[i] == hs[i];
        }
      }
    }
  }

  /**
   * The parts of the process the interface touches: the `logging` registry
   * (each logger's API handlers, in the order they were added) and every
   * request sent so far.
   */
  class Process {
    var handlers: map<string, seq<ApiHandler>>
    var sent: seq<Request>

    constructor ()
      ensures handlers == map[] && sent == []
    {
      handlers := map[];
      sent := [];
    }

    /** `logging.getLogger(name).handlers`: a logger never configured has none. */
    function HandlersOf(name: string): seq<ApiHandler>
      reads this
    {
      if name in handlers then handlers[name] else []
    }

    /**
     * `logging.getLogger(name).<level>(message)`: each API handler of the
     * logger emits the record in turn; no failure escapes.
     */
    method Log(name: string, rec: LogRecord, server: Request -> Reply) returns (outcomes: seq<EmitOutcome>)
      modifies this
      ensures handlers == old(handlers)
      ensures sent == old(sent) + Posts(HandlersOf(name), rec)
      ensures |outcomes| == |HandlersOf(name)|
      ensures forall i :: 0 <= i < |outcomes| ==>
        outcomes[i] == Emit(HandlersOf(name)[i], rec, server(EmitRequest(HandlersOf(name)[i], rec)))
    {
      var hs := HandlersOf(name);
      outcomes := [];
      var i := 0;
      while i < |hs|
        invariant 0 <= i <= |hs|
        invariant handlers == old(handlers)
        invariant sent == old(sent) + Posts(hs[..i], rec)
        invariant |outcomes| == i
        invariant forall k :: 0 <= k < i ==> outcomes[k] == Emit(hs[k], rec, server(EmitRequest(hs[k], rec)))
      {
        var req := EmitRequest(hs[i], rec);
        assert hs[..i + 1][..i] == hs[..i];
        sent := sent + [req];
        outcomes := outcomes + [Emit(hs[i], rec, server(req))];
        i := i + 1;
      }
      assert hs[..i] == hs;
    }

    /** `logger.addHandler(h)`. */
    method AddHandler(name: string, h: ApiHandler)
      modifies this
      ensures handlers == old(handlers)[name := old(HandlersOf(name)) + [h]]
      ensures sent == old(sent)
    {
      handlers := handlers[name := HandlersOf(name) + [h]];
    }
  }

  // ---------------------------------------------------------------------
  // The requests the interface sends
  // ---------------------------------------------------------------------

  /** `GET {endpoint}/log?app_name=...`: the manager's session-id route. */
  function SessionRequest(endpoint: string, appName: string): Request {
    Request(Get, endpoint + "/log", map["app_name" := appName], map[], None)
  }

  /** A parameter `requests` sends only when its value is not `None`. */
  function WithOptional(p: Payload, key: string, value: Option<string>): Payload {
    if value.Some? then p[key := value.value] else p
  }

  /** `POST {endpoint}/file` with the session, organization and project as query parameters. */
  function UploadRequest(endpoint: string, sessionId: Option<string>, organization: string, project: string,
                         fileName: string): Request
  {
    Request(Post, endpoint + "/file",
            WithOptional(map["organization" := organization, "project" := project], "session_id", sessionId),
            map[], Some(fileName))
  }

  /**
   * `datetime.isoformat()`: the date with its year padded to four digits,
   * 'T', the clock, and the microseconds only when they are not zero.
   */
  function IsoFormat(t: DateTime, micros: nat): (s: string)
    requires ValidDateTime(t) && micros < 1000000
    ensures |s| == (if micros == 0 then 19 else 26)
    ensures s[..10] == IsoFormatDate(t.date) && s[10] == 'T' && s[11..19] == ClockText(t)
    ensures micros != 0 ==> s[19] == '.' && AllDigits(s[20..]) && ParseDigits(s[20..]) == micros
  {
    assert Pow10(6) == 1000000;
    var date, clock := IsoFormatDate(t.date), ClockText(t);
    assert |date| == 10 && |clock| == 8;
    var whole := date + "T" + clock;
    assert |whole| == 19 && whole[..10] == date && whole[10] == 'T' && whole[11..19] == clock;
    if micros == 0 then whole
    else
      var frac := ZeroPadded(micros, 6);
      var s := whole + "." + frac;
      assert s[..|whole|] == whole && s[|whole| + 1..] == frac;
      s
  }

  /** `PUT {endpoint}/status` with the session, the new status and the end instant. */
  function CloseRequest(endpoint: string, sessionId: Option<string>, status: string, end: string): Request {
    Request(Put, endpoint + "/status", map[],
            WithOptional(map["status" := status, "end" := end], "session_id", sessionId), None)
  }

  const ConfiguringMessage := "Configuring API Logs handler."
  const NoSessionMessage := "Unable to retrieve a Logs' Session ID from the API. "

  function SessionMessage(sessionId: string): string {
    "Session id: '" + sessionId + "'"
  }

  lemma SentAssoc(a: seq<Request>, b: seq<Request>, c: seq<Request>)
    ensures a + (b + c) == (a + b) + c
  {
  }

  /** The error `configure_api_logs_handler` logs when the call did not succeed. */
  function ErrorTraffic(hs: seq<ApiHandler>, reply: Reply, asctime: string): seq<Request> {
    if Succeeded(reply) then [] else Posts(hs, LogRecord("ERROR", NoSessionMessage + Describe(reply), asctime))
  }

  /**
   * Everything `configure_api_logs_handler` sends, in order, when the app's
   * logger had handlers `hs`: the "configuring" record, the session-id
   * request, the error record if the request failed, and the "session id"
   * record if an id came back.
   */
  function ConfigureTraffic(hs: seq<ApiHandler>, endpoint: string, appName: string, reply: Reply,
                            asctime: string): seq<Request>
  {
    Posts(hs, LogRecord("INFO", ConfiguringMessage, asctime))
    + [SessionRequest(endpoint, appName)]
    + ErrorTraffic(hs, reply, asctime)
    + (if reply.Replied? && reply.sessionId.Some?
       then Posts(hs, LogRecord("INFO", SessionMessage(reply.sessionId.value), asctime))
       else [])
  }

  /**
   * With no API handler on the app's logger yet (the first interface for an
   * app), configuring sends nothing but the session-id request.
   */
  lemma FirstConfigureSendsOneRequest(endpoint: string, appName: string, reply: Reply, asctime: string)
    ensures ConfigureTraffic([], endpoint, appName, reply, asctime) == [SessionRequest(endpoint, appName)]
  {
  }

  // ---------------------------------------------------------------------
  // ManagerInterface
  // ---------------------------------------------------------------------

  class ManagerInterface {
    const appName: string
    const endpoint: string
    var sessionId: Option<string>

    /** The fields `__init__` sets before it configures the handler. */
    constructor (appName: string, endpoint: string)
      ensures this.appName == appName && this.endpoint == endpoint && sessionId == None
    {
      this.appName := appName;
      this.endpoint := endpoint;
      sessionId := None;
    }

    /**
     * `configure_api_logs_handler`.  It logs that it starts, asks the
     * manager for a session id and logs an error if the call failed.  A call
     * that raised leaves no response to read (UnboundLocalError); a response
     * without a `session_id` fails on the lookup (KeyError), whatever its
     * status.  Otherwise the id is kept and logged, and a handler for it is
     * added to the app's logger, after the handlers already there.  The
     * records it logs itself go only to those earlier handlers.  `asctime`
     * is the clock reading in `formatTime`'s text.
     */
    method Configure(proc: Process, asctime: string, server: Request -> Reply) returns (r: Result<ApiHandler, string>)
      modifies this, proc
      ensures var reply := server(SessionRequest(endpoint, appName));
        var hs := old(proc.HandlersOf(appName));
        && (r.Ok? <==> reply.Replied? && reply.sessionId.Some?)
        && (r.Ok? ==> && sessionId == reply.sessionId
                      && r.value == ApiHandler(endpoint, reply.sessionId.value, appName)
                      && proc.handlers == old(proc.handlers)[appName := hs + [r.value]])
        && (r.Err? ==> sessionId == old(sessionId) && proc.handlers == old(proc.handlers))
        && proc.sent == old(proc.sent) + ConfigureTraffic(hs, endpoint, appName, reply, asctime)
    {
      ghost var hs := proc.HandlersOf(appName);
      var reply := RequestSession(proc, asctime, server);
      ghost var traffic := Posts(hs, LogRecord("INFO", ConfiguringMessage, asctime)) + [SessionRequest(endpoint, appName)]
                           + ErrorTraffic(hs, reply, asctime);
      if reply.Raised? {
        assert traffic + [] == traffic == ConfigureTraffic(hs, endpoint, appName, reply, asctime);
        return Err("UnboundLocalError: response");
      }
      if reply.sessionId.None? {
        assert traffic + [] == traffic == ConfigureTraffic(hs, endpoint, appName, reply, asctime);
        return Err("KeyError: 'session_id'");
      }
      sessionId := reply.sessionId;
      var _ := proc.Log(appName, LogRecord("INFO", SessionMessage(reply.sessionId.value), asctime), server);
      SentAssoc(old(proc.sent), traffic, Posts(hs, LogRecord("INFO", SessionMessage(reply.sessionId.value), asctime)));
      assert traffic + Posts(hs, LogRecord("INFO", SessionMessage(reply.sessionId.value), asctime))
             == ConfigureTraffic(hs, endpoint, appName, reply, asctime);
      var handler := ApiHandler(endpoint, reply.sessionId.value, appName);
      proc.AddHandler(appName, handler);
      r := Ok(handler);
    }

    /**
     * The first half of `configure_api_logs_handler`: the "configuring"
     * record, the session-id request, and the error record when the request
     * did not succeed.  The handlers are untouched.
     */
    method RequestSession(proc: Process, asctime: string, server: Request -> Reply) returns (reply: Reply)
      modifies proc
      ensures reply == server(SessionRequest(endpoint, appName))
      ensures proc.handlers == old(proc.handlers)
      ensures var hs := old(proc.HandlersOf(appName));
        proc.sent == old(proc.sent) + (Posts(hs, LogRecord("INFO", ConfiguringMessage, asctime))
                                       + [SessionRequest(endpoint, appName)] + ErrorTraffic(hs, reply, asctime))
    {
      ghost var hs := proc.HandlersOf(appName);
      ghost var before := proc.sent;
      var _ := proc.Log(appName, LogRecord("INFO", ConfiguringMessage, asctime), server);
      ghost var traffic := Posts(hs, LogRecord("INFO", ConfiguringMessage, asctime));
      var request := SessionRequest(endpoint, appName);
      proc.sent := proc.sent + [request];
      SentAssoc(before, traffic, [request]);
      traffic := traffic + [request];
      reply := server(request);
      if !Succeeded(reply) {
        var _ := proc.Log(appName, LogRecord("ERROR", NoSessionMessage + Describe(reply), asctime), server);
      }
      SentAssoc(before, traffic, ErrorTraffic(hs, reply, asctime));
    }

    /**
     * `upload_file`: one POST under the current session.  The status of the
     * response is not checked; only a call that raises fails.
     */
    method UploadFile(proc: Process, organization: string, project: string, fileName: string,
                      server: Request -> Reply) returns (r: Result<Reply, string>)
      modifies proc
      ensures var request := UploadRequest(endpoint, sessionId, organization, project, fileName);
        && proc.sent == old(proc.sent) + [request]
        && proc.handlers == old(proc.handlers)
        && (r.Err? <==> server(request).Raised?)
        && (r.Ok? ==> r.value == server(request))
    {
      var request := UploadRequest(endpoint, sessionId, organization, project, fileName);
      proc.sent := proc.sent + [request];
      var reply := server(request);
      if reply.Raised? {
        return Err(reply.reason);
      }
      r := Ok(reply);
    }

    /**
     * `close_session`: one PUT setting the status (`COMPLETED` unless given)
     * and the end instant.  As for uploads, only a call that raises fails.
     */
    method CloseSession(proc: Process, now: DateTime, micros: nat, server: Request -> Reply,
                        status: string := "COMPLETED") returns (r: Result<Reply, string>)
      requires ValidDateTime(now) && micros < 1000000
      modifies proc
      ensures var request := CloseRequest(endpoint, sessionId, status, IsoFormat(now, micros));
        && proc.sent == old(proc.sent) + [request]
        && proc.handlers == old(proc.handlers)
        && (r.Err? <==> server(request).Raised?)
        && (r.Ok? ==> r.value == server(request))
    {
      var request := CloseRequest(endpoint, sessionId, status, IsoFormat(now, micros));
      proc.sent := proc.sent + [request];
      var reply := server(request);
      if reply.Raised? {
        return Err(reply.reason);
      }
      r := Ok(reply);
    }
  }

  /**
   * `ManagerInterface(app_name, endpoint)`: the object exists only when
   * configuring the handler succeeded.
   */
  method Connect(proc: Process, appName: string, endpoint: string, asctime: string,
                 server: Request -> Reply) returns (r: Result<ManagerInterface, string>)
    modifies proc
    ensures var reply := server(SessionRequest(endpoint, appName));
      && (r.Ok? <==> reply.Replied? && reply.sessionId.Some?)
      && (r.Ok? ==> && fresh(r.value) && r.value.appName == appName && r.value.endpoint == endpoint
                    && r.value.sessionId == reply.sessionId
                    && proc.handlers == old(proc.handlers)[appName := old(proc.HandlersOf(appName))
                                                           + [ApiHandler(endpoint, reply.sessionId.value, appName)]])
      && (r.Err? ==> proc.handlers == old(proc.handlers))
  {
    var m := new ManagerInterface(appName, endpoint);
    var h := m.Configure(proc, asctime, server);
    if h.Err? {
      return Err(h.error);
    }
    r := Ok(m);
  }

  // ---------------------------------------------------------------------
  // What the manager makes of the requests
  // ---------------------------------------------------------------------

  /** The `FileRequest` the manager's `POST /file` route receives for an upload request. */
  function FileRequestOf(req: Request): TrackingStore.FileRequest {
    TrackingStore.FileRequest(Field(req.query, "session_id"), Field(req.query, "organization"),
                              Field(req.query, "project"), req.upload)
  }

  /**
   * An upload from an interface whose session the manager knows is stored
   * exactly when the file name does not end in `.exe`, under that session,
   * organization and project.
   */
  lemma UploadStored(t: TrackingStore.Tables, endpoint: string, sessionId: string, organization: string,
                     project: string, fileName: string, loadTime: TrackingStore.Time)
    requires TrackingStore.WellFormed(t) && sessionId in t.sessions
    ensures var (r, t') := TrackingStore.UploadFileStep(
              t, FileRequestOf(UploadRequest(endpoint, Some(sessionId), organization, project, fileName)), loadTime);
      && (r.Ok? <==> !TrackingStore.ForbiddenName(fileName))
      && (r.Ok? ==> r.value.sessionId == sessionId && r.value.organization == organization
                    && r.value.project == project && r.value.filename == fileName
                    && t'.files == t.files + [r.value])
      && (r.Err? ==> r == Err(TrackingStore.BadFormat(TrackingStore.InvalidFileFormat)) && t' == t)
  {
    var req := UploadRequest(endpoint, Some(sessionId), organization, project, fileName);
    assert Field(req.query, "session_id") == Some(sessionId);
    assert Field(req.query, "organization") == Some(organization);
    assert Field(req.query, "project") == Some(project);
    TrackingStore.UploadFileOutcome(t, FileRequestOf(req), loadTime);
  }

  /** The `StatusBody` the manager's `PUT /status` route receives; `end` is what the `end` text parses to. */
  function StatusBodyOf(req: Request, end: TrackingStore.Time): TrackingStore.StatusBody {
    TrackingStore.StatusBody(Field(req.body, "session_id"), Field(req.body, "status"), None, Some(end))
  }

  /**
   * Closing a session the manager knows sets its status and end and keeps
   * its start; a body without a session id is refused.
   */
  lemma CloseUpdatesSession(t: TrackingStore.Tables, endpoint: string, sessionId: Option<string>, status: string,
                            endText: string, end: TrackingStore.Time)
    requires TrackingStore.WellFormed(t)
    ensures var (r, t') := TrackingStore.UpdateStatusStep(t, StatusBodyOf(CloseRequest(endpoint, sessionId, status, endText), end));
      && (r.Ok? <==> sessionId.Some? && sessionId.value in t.sessions)
      && (r.Ok? ==> r.value == t.sessions[sessionId.value].(status := status, end := Some(end))
                    && t'.sessions == t.sessions[sessionId.value := r.value])
      && (r.Err? ==> t' == t)
  {
    var req := CloseRequest(endpoint, sessionId, status, endText);
    assert Field(req.body, "status") == Some(status);
    assert Field(req.body, "session_id") == sessionId;
    TrackingStore.UpdateStatusOutcome(t, StatusBodyOf(req, end));
  }

  /**
   * Two interfaces created for the same app share its logger, so after the
   * second one a single log call posts the record twice: once under each
   * session.
   */
  method SharedLoggerScenario(asctime: string, server: Request -> Reply)
    requires server(SessionRequest("http://manager", "collector")).Replied?
    requires server(SessionRequest("http://manager", "collector")).sessionId.Some?
  {
    var proc := new Process();
    var first := Connect(proc, "collector", "http://manager", asctime, server);
    var second := Connect(proc, "collector", "http://manager", asctime, server);
    var sid := server(SessionRequest("http://manager", "collector")).sessionId.value;
    var h := ApiHandler("http://manager", sid, "collector");
    assert proc.HandlersOf("collector") == [h, h];
    var rec := LogRecord("INFO", "uploaded", asctime);
    var before := proc.sent;
    var _ := proc.Log("collector", rec, server);
    PostsPerHandler([h, h], rec);
    assert |proc.sent| == |before| + 2;
  }
}
