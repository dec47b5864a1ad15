/**
 * The manager's tracking store: the `status`, `log` and `file` tables of
 * manager/app/models.py, the request shapes its pydantic models accept, and
 * the outcomes of opening a session, appending a log, updating a status and
 * uploading a file that the manager's tests expect.
 *
 * Each operation is a pure step on `Tables` (its specification, about which
 * the lemmas speak) and a method of the `Store` class that updates the
 * tables in place and is proved to agree with the step.
 */
module TrackingStore {
  import opened Common
  import opened Text

  /** An instant on the service's clock (abstract seconds). */
  type Time = int

  /** A row of the `status` table; `sessionId` is its primary key. */
  datatype Session = Session(sessionId: string, appName: string, start: Time, end: Option<Time>, status: string)

  /** A row of the `log` table. */
  datatype LogRow = LogRow(id: nat, sessionId: string, appName: string, level: string, message: string, timestamp: Time)

  /** A row of the `file` table. */
  datatype FileRow = FileRow(id: nat, sessionId: string, organization: string, project: string, filename: string, uploadTs: Time)

  datatype Tables = Tables(sessions: map<string, Session>, logs: seq<LogRow>, files: seq<FileRow>)

  /** Why a request was refused, with the HTTP status the tests expect. */
  datatype Failure =
    | NotFound(detail: string)     // 404
    | Invalid(detail: string)      // 422, request body does not fit its model
    | BadFormat(detail: string)    // 400, forbidden file extension
    | Conflict(detail: string)     // store failure: duplicate primary key

  const SessionNotFound := "Session ID not found"
  const InvalidFileFormat := "Invalid file format"
  const InitialStatus := "STARTED"

  /** The extensions an upload may not end with. */
  const ForbiddenExtensions: seq<string> := [".exe"]

  /** `LogModel.level`: `Literal["INFO", "WARNING", "ERROR", "CRITICAL"]`. */
  predicate ValidLevel(level: string) {
    level == "INFO" || level == "WARNING" || level == "ERROR" || level == "CRITICAL"
  }

  predicate ForbiddenName(filename: string) {
    exists i :: 0 <= i < |ForbiddenExtensions| && EndsWith(filename, ForbiddenExtensions[i])
  }

  // ---------------------------------------------------------------------
  // Request bodies and their validation (pydantic models)
  // ---------------------------------------------------------------------

  /** A `POST /log` body as sent: a field the client left out is `None`. */
  datatype LogBody = LogBody(sessionId: Option<string>, appName: Option<string>, level: Option<string>,
                             message: Option<string>, timestamp: Option<Time>)

  /** `LogModel`: the fields a valid log body carries. */
  datatype LogModel = LogModel(sessionId: string, appName: string, level: string, message: string, timestamp: Option<Time>)

  /** A `PUT /status` body as sent. */
  datatype StatusBody = StatusBody(sessionId: Option<string>, status: Option<string>, start: Option<Time>, end: Option<Time>)

  /** `StatusUpdateModel`. */
  datatype StatusUpdate = StatusUpdate(sessionId: string, status: string, start: Option<Time>, end: Option<Time>)

  /** A `POST /file` request: query parameters and the uploaded file's name. */
  datatype FileRequest = FileRequest(sessionId: Option<string>, organization: Option<string>, project: Option<string>,
                                     filename: Option<string>)

  function ValidateLog(b: LogBody): (r: Result<LogModel, Failure>)
    ensures r.Ok? <==> b.sessionId.Some? && b.appName.Some? && b.message.Some?
                       && b.level.Some? && ValidLevel(b.level.value)
    ensures r.Ok? ==> r.value == LogModel(b.sessionId.value, b.appName.value, b.level.value, b.message.value, b.timestamp)
    ensures r.Err? ==> r.error.Invalid?
  {
    if b.sessionId.None? || b.appName.None? || b.level.None? || b.message.None? then
      Err(Invalid("field required"))
    else if !ValidLevel(b.level.value) then
      Err(Invalid("Input should be 'INFO', 'WARNING', 'ERROR' or 'CRITICAL'"))
    else
      Ok(LogModel(b.sessionId.value, b.appName.value, b.level.value, b.message.value, b.timestamp))
  }

  function ValidateStatus(b: StatusBody): (r: Result<StatusUpdate, Failure>)
    ensures r.Ok? <==> b.sessionId.Some? && b.status.Some?
    ensures r.Ok? ==> r.value == StatusUpdate(b.sessionId.value, b.status.value, b.start, b.end)
    ensures r.Err? ==> r.error.Invalid?
  {
    if b.sessionId.None? || b.status.None? then Err(Invalid("field required"))
    else Ok(StatusUpdate(b.sessionId.value, b.status.value, b.start, b.end))
  }

  // ---------------------------------------------------------------------
  // The tables' invariant and the pure steps
  // ---------------------------------------------------------------------

  /**
   * Each session is filed under its own id (one row per primary key), every
   * log and file row names an existing session, and the auto-increment ids
   * run 1, 2, 3, ... in insertion order (rows are never deleted).
   */
  predicate WellFormed(t: Tables) {
    && (forall k :: k in t.sessions ==> t.sessions[k].sessionId == k)
    && (forall i :: 0 <= i < |t.logs| ==> t.logs[i].id == i + 1 && t.logs[i].sessionId in t.sessions)
    && (forall i :: 0 <= i < |t.files| ==> t.files[i].id == i + 1 && t.files[i].sessionId in t.sessions)
  }

  /** The column default: the instant captured once when the module was loaded. */
  function OrDefault(given: Option<Time>, loadTime: Time): Time {
    if given.Some? then given.value else loadTime
  }

  function OpenStep(t: Tables, appName: string, id: string, start: Option<Time>, loadTime: Time)
    : (r: (Result<Session, Failure>, Tables))
    requires WellFormed(t)
    ensures WellFormed(r.1)
    ensures r.0.Ok? <==> id !in t.sessions
    ensures r.0.Err? ==> r.1 == t
    ensures r.0.Ok? ==> r.0.value == Session(id, appName, OrDefault(start, loadTime), None, InitialStatus)
    ensures r.0.Ok? ==> r.1 == t.(sessions := t.sessions[id := r.0.value])
  {
    if id in t.sessions then (Err(Conflict("UNIQUE constraint failed: status.session_id")), t)
    else
      var s := Session(id, appName, OrDefault(start, loadTime), None, InitialStatus);
      (Ok(s), t.(sessions := t.sessions[id := s]))
  }

  function AppendLogStep(t: Tables, body: LogBody, loadTime: Time): (r: (Result<LogRow, Failure>, Tables))
    requires WellFormed(t)
    ensures WellFormed(r.1)
  {
    match ValidateLog(body)
    case Err(f) => (Err(f), t)
    case Ok(m) =>
      if m.sessionId !in t.sessions then (Err(NotFound(SessionNotFound)), t)
      else
        var row := LogRow(|t.logs| + 1, m.sessionId, m.appName, m.level, m.message, OrDefault(m.timestamp, loadTime));
        (Ok(row), t.(logs := t.logs + [row]))
  }

  function UpdateStatusStep(t: Tables, body: StatusBody): (r: (Result<Session, Failure>, Tables))
    requires WellFormed(t)
    ensures WellFormed(r.1)
  {
    match ValidateStatus(body)
    case Err(f) => (Err(f), t)
    case Ok(u) =>
      if u.sessionId !in t.sessions then (Err(NotFound(SessionNotFound)), t)
      else
        var before := t.sessions[u.sessionId];
        var s := before.(status := u.status,
                       start := OrDefault(u.start, before.start),
                       end := if u.end.Some? then u.end else before.end);
        (Ok(s), t.(sessions := t.sessions[u.sessionId := s]))
  }

  function UploadFileStep(t: Tables, req: FileRequest, loadTime: Time): (r: (Result<FileRow, Failure>, Tables))
    requires WellFormed(t)
    ensures WellFormed(r.1)
  {
    if req.sessionId.None? || req.organization.None? || req.project.None? || req.filename.None? then
      (Err(Invalid("field required")), t)
    else if req.sessionId.value !in t.sessions then (Err(NotFound(SessionNotFound)), t)
    else if ForbiddenName(req.filename.value) then (Err(BadFormat(InvalidFileFormat)), t)
    else
      var row := FileRow(|t.files| + 1, req.sessionId.value, req.organization.value, req.project.value,
                         req.filename.value, loadTime);
      (Ok(row), t.(files := t.files + [row]))
  }

  // ---------------------------------------------------------------------
  // What the steps guarantee
  // ---------------------------------------------------------------------

  /** The log rows of one session, in insertion order. */
  function LogsOf(logs: seq<LogRow>, sessionId: string): seq<LogRow> {
    if logs == [] then []
    else LogsOf(logs[..|logs| - 1], sessionId)
         + (if logs[|logs| - 1].sessionId == sessionId then [logs[|logs| - 1]] else [])
  }

  /**
   * A log is stored exactly when its body is complete, its level is one of
   * the four and its session exists; a refused log changes no table.  A
   * stored row echoes the body, takes an id no existing row has, and is
   * appended after every earlier row.
   */
  lemma AppendLogOutcome(t: Tables, body: LogBody, loadTime: Time)
    requires WellFormed(t)
    ensures var (r, t') := AppendLogStep(t, body, loadTime);
      && (r.Ok? <==> ValidateLog(body).Ok? && body.sessionId.value in t.sessions)
      && (body.level.Some? && !ValidLevel(body.level.value) ==> r == Err(Invalid(r.error.detail)))
      && (ValidateLog(body).Ok? && body.sessionId.value !in t.sessions ==> r == Err(NotFound(SessionNotFound)))
      && (r.Err? ==> t' == t)
      && (r.Ok? ==> && t'.logs == t.logs + [r.value]
                    && t'.sessions == t.sessions && t'.files == t.files
                    && r.value.sessionId == body.sessionId.value
                    && r.value.appName == body.appName.value
                    && r.value.level == body.level.value
                    && r.value.message == body.message.value
                    && (forall i :: 0 <= i < |t.logs| ==> t.logs[i].id != r.value.id))
  {
  }

  /**
   * A stored log lands at the end of its own session's log, so a session's
   * events read back in the order they were appended.
   */
  lemma AppendLogKeepsOrder(t: Tables, body: LogBody, loadTime: Time, sessionId: string)
    requires WellFormed(t)
    ensures var (r, t') := AppendLogStep(t, body, loadTime);
      r.Ok? ==> LogsOf(t'.logs, sessionId)
                == LogsOf(t.logs, sessionId) + (if r.value.sessionId == sessionId then [r.value] else [])
  {
    var (r, t') := AppendLogStep(t, body, loadTime);
    if r.Ok? {
      assert t'.logs[..|t'.logs| - 1] == t.logs;
    }
  }

  /**
   * Rows stored without an explicit timestamp all carry the same instant,
   * the one captured at module load, however far apart they were inserted.
   */
  lemma DefaultTimestampIsShared(t: Tables, a: LogBody, b: LogBody, loadTime: Time)
    requires WellFormed(t)
    requires a.timestamp.None? && b.timestamp.None?
    ensures var (ra, ta) := AppendLogStep(t, a, loadTime);
      var (rb, tb) := AppendLogStep(ta, b, loadTime);
      ra.Ok? && rb.Ok? ==> ra.value.timestamp == rb.value.timestamp == loadTime
  {
  }

  /**
   * A status update succeeds exactly for a complete body naming an existing
   * session; it returns the session with the new status, overwrites `start`
   * and `end` only when given, and touches no other row.
   */
  lemma UpdateStatusOutcome(t: Tables, body: StatusBody)
    requires WellFormed(t)
    ensures var (r, t') := UpdateStatusStep(t, body);
      && (r.Ok? <==> body.sessionId.Some? && body.status.Some? && body.sessionId.value in t.sessions)
      && (body.sessionId.None? || body.status.None? ==> r.Err? && r.error.Invalid?)
      && (body.sessionId.Some? && body.status.Some? && body.sessionId.value !in t.sessions ==>
            r == Err(NotFound(SessionNotFound)))
      && (r.Err? ==> t' == t)
      && (r.Ok? ==> var before := t.sessions[body.sessionId.value];
                    && r.value.status == body.status.value
                    && r.value.sessionId == before.sessionId && r.value.appName == before.appName
                    && r.value.start == (if body.start.Some? then body.start.value else before.start)
                    && r.value.end == (if body.end.Some? then body.end else before.end)
                    && t'.sessions == t.sessions[body.sessionId.value := r.value]
                    && t'.logs == t.logs && t'.files == t.files)
  {
  }

  /** An empty `PUT /status` body is unprocessable. */
  lemma EmptyStatusBodyRejected(t: Tables)
    requires WellFormed(t)
    ensures UpdateStatusStep(t, StatusBody(None, None, None, None)).0.Err?
    ensures UpdateStatusStep(t, StatusBody(None, None, None, None)).0.error.Invalid?
  {
  }

  /**
   * An upload is recorded exactly for a complete request naming an existing
   * session and an allowed file name.  A missing field is unprocessable, an
   * unknown session is "Session ID not found", and a `.exe` name is refused
   * as a bad format, in that order; a refusal changes no table.  A recorded
   * row echoes session, organization, project and name, with a new id.
   */
  lemma UploadFileOutcome(t: Tables, req: FileRequest, loadTime: Time)
    requires WellFormed(t)
    ensures var (r, t') := UploadFileStep(t, req, loadTime);
      && (r.Ok? <==> && req.sessionId.Some? && req.organization.Some? && req.project.Some?
                     && req.filename.Some? && req.sessionId.value in t.sessions
                     && !ForbiddenName(req.filename.value))
      && (req.sessionId.None? || req.organization.None? || req.project.None? || req.filename.None? ==>
            r.Err? && r.error.Invalid?)
      && ((&& req.sessionId.Some? && req.organization.Some? && req.project.Some? && req.filename.Some?
           && req.sessionId.value !in t.sessions) ==>
            r == Err(NotFound(SessionNotFound)))
      && ((&& req.sessionId.Some? && req.organization.Some? && req.project.Some? && req.filename.Some?
           && req.sessionId.value in t.sessions && ForbiddenName(req.filename.value)) ==>
            r == Err(BadFormat(InvalidFileFormat)))
      && (r.Err? ==> t' == t)
      && (r.Ok? ==> && t'.files == t.files + [r.value]
                    && t'.sessions == t.sessions && t'.logs == t.logs
                    && r.value.sessionId == req.sessionId.value
                    && r.value.organization == req.organization.value
                    && r.value.project == req.project.value
                    && r.value.filename == req.filename.value
                    && (forall i :: 0 <= i < |t.files| ==> t.files[i].id != r.value.id))
  {
  }

  /** Uploading `testfile.exe` to an existing session fails with "Invalid file format". */
  lemma ExeUploadRejected(t: Tables, sessionId: string, loadTime: Time)
    requires WellFormed(t) && sessionId in t.sessions
    ensures UploadFileStep(t, FileRequest(Some(sessionId), Some("TestOrg"), Some("TestProject"),
                                          Some("testfile.exe")), loadTime).0
            == Err(BadFormat(InvalidFileFormat))
  {
    assert EndsWith("testfile.exe", ForbiddenExtensions[0]);
  }

  /**
   * The log test's payload carries its level under `"type"`, so under the
   * `LogModel` shape the body has no `level` and is unprocessable, whatever
   * the session.
   */
  lemma TypeKeyPayloadUnprocessable(t: Tables, sessionId: string, loadTime: Time)
    requires WellFormed(t)
    ensures AppendLogStep(t, LogBody(Some(sessionId), Some("TestApp"), None, Some("Test message"), None), loadTime).0.Err?
    ensures AppendLogStep(t, LogBody(Some(sessionId), Some("TestApp"), None, Some("Test message"), None), loadTime).0.error.Invalid?
  {
  }

  // ---------------------------------------------------------------------
  // The store, updated in place
  // ---------------------------------------------------------------------

  class Store {
    /** `default=datetime.now()`, evaluated once when models.py is imported. */
    const loadTime: Time
    var sessions: map<string, Session>
    var logs: seq<LogRow>
    var files: seq<FileRow>

    function Contents(): Tables
      reads this
    {
      Tables(sessions, logs, files)
    }

    ghost predicate Valid()
      reads this
    {
      WellFormed(Contents())
    }

    constructor (loadTime: Time)
      ensures Valid() && this.loadTime == loadTime
      ensures Contents() == Tables(map[], [], [])
    {
      this.loadTime := loadTime;
      sessions, logs, files := map[], [], [];
    }

    method Open(appName: string, id: string, start: Option<Time>) returns (r: Result<Session, Failure>)
      requires Valid()
      modifies this
      ensures Valid()
      ensures (r, Contents()) == OpenStep(old(Contents()), appName, id, start, loadTime)
    {
      if id in sessions {
        return Err(Conflict("UNIQUE constraint failed: status.session_id"));
      }
      var session := Session(id, appName, if start.Some? then start.value else loadTime, None, InitialStatus);
      sessions := sessions[id := session];
      r := Ok(session);
    }

    method AppendLog(body: LogBody) returns (r: Result<LogRow, Failure>)
      requires Valid()
      modifies this
      ensures Valid()
      ensures (r, Contents()) == AppendLogStep(old(Contents()), body, loadTime)
    {
      var model := ValidateLog(body);
      if model.Err? {
        return Err(model.error);
      }
      var m := model.value;
      if m.sessionId !in sessions {
        return Err(NotFound(SessionNotFound));
      }
      var row := LogRow(|logs| + 1, m.sessionId, m.appName, m.level, m.message,
                        if m.timestamp.Some? then m.timestamp.value else loadTime);
      logs := logs + [row];
      r := Ok(row);
    }

    method UpdateStatus(body: StatusBody) returns (r: Result<Session, Failure>)
      requires Valid()
      modifies this
      ensures Valid()
      ensures (r, Contents()) == UpdateStatusStep(old(Contents()), body)
    {
      var update := ValidateStatus(body);
      if update.Err? {
        return Err(update.error);
      }
      var u := update.value;
      if u.sessionId !in sessions {
        return Err(NotFound(SessionNotFound));
      }
      var session := sessions[u.sessionId].(status := u.status);
      if u.start.Some? {
        session := session.(start := u.start.value);
      }
      if u.end.Some? {
        session := session.(end := u.end);
      }
      sessions := sessions[u.sessionId := session];
      r := Ok(session);
    }

    method UploadFile(req: FileRequest) returns (r: Result<FileRow, Failure>)
      requires Valid()
      modifies this
      ensures Valid()
      ensures (r, Contents()) == UploadFileStep(old(Contents()), req, loadTime)
    {
      if req.sessionId.None? || req.organization.None? || req.project.None? || req.filename.None? {
        return Err(Invalid("field required"));
      }
      if req.sessionId.value !in sessions {
        return Err(NotFound(SessionNotFound));
      }
      if ForbiddenName(req.filename.value) {
        return Err(BadFormat(InvalidFileFormat));
      }
      var row := FileRow(|files| + 1, req.sessionId.value, req.organization.value, req.project.value,
                         req.filename.value, loadTime);
      files := files + [row];
      r := Ok(row);
    }
  }

  /**
   * The status tests' sequence: a session opened, then updated to COMPLETED
   * with an end time, reads back COMPLETED with that end and its start
   * untouched; an unknown id is refused.
   */
  method StatusScenario(loadTime: Time, end: Time)
  {
    var store := new Store(loadTime);
    var created := store.Open("TestAPIStatusRoute", "TestAPIStatusRoute-1", None);
    assert created.Ok?;
    var updated := store.UpdateStatus(StatusBody(Some("TestAPIStatusRoute-1"), Some("COMPLETED"), None, Some(end)));
    assert updated == Ok(Session("TestAPIStatusRoute-1", "TestAPIStatusRoute", loadTime, Some(end), "COMPLETED"));
    var missing := store.UpdateStatus(StatusBody(Some("nonexistent_session"), Some("COMPLETED"), None, None));
    assert missing == Err(NotFound(SessionNotFound));
  }
}
