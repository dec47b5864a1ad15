/**
 * The log shipping shared by the collectors (monit-collector/app/log.py and
 * sivep-extractor/app/utils.py carry the same two classes): `JSONFormatter`
 * turns a log record into a three-key dictionary and `APILogHandler` adds
 * its session and app name and posts the result to the manager's `/log`
 * route, reporting any failure on standard output instead of raising.
 *
 * The HTTP exchange is a value: the request that goes out, and the reply
 * the caller supplies for it.
 */
module ApiLogging {
  import opened Common
  import opened Text
  import opened Calendar
  import TrackingStore

  // ---------------------------------------------------------------------
  // Log records and JSONFormatter
  // ---------------------------------------------------------------------

  /**
   * The parts of a `logging.LogRecord` the formatter reads; `asctime` is
   * its creation time in `formatTime`'s text (see `Stamped`).
   */
  datatype LogRecord = LogRecord(levelname: string, message: string, asctime: string)

  /** The level names of the standard library's levels. */
  predicate StandardLevel(level: string) {
    level == "DEBUG" || level == "INFO" || level == "WARNING" || level == "ERROR" || level == "CRITICAL"
  }

  /** `Formatter.formatTime` without a date format: `%Y-%m-%d %H:%M:%S` then `,` and the milliseconds. */
  function FormatTime(t: DateTime, msecs: nat): (s: string)
    requires ValidDateTime(t) && msecs < 1000
    ensures 1000 <= t.date.year ==> |s| == 23 && s[10] == ' ' && s[19] == ','
    ensures 1000 <= t.date.year ==> s[..10] == IsoDate(t.date) && s[11..19] == ClockText(t)
    ensures 1000 <= t.date.year ==> AllDigits(s[20..]) && ParseDigits(s[20..]) == msecs
  {
    assert Pow10(3) == 1000;
    var date, clock, ms := IsoDate(t.date), ClockText(t), ZeroPadded(msecs, 3);
    IsoDateFields(t.date);
    var s := date + " " + clock + "," + ms;
    assert 1000 <= t.date.year ==> s[..10] == date && s[11..19] == clock && s[20..] == ms;
    s
  }

  /** A record created at `created` plus `msecs` milliseconds. */
  function Stamped(levelname: string, message: string, created: DateTime, msecs: nat): LogRecord
    requires ValidDateTime(created) && msecs < 1000
  {
    LogRecord(levelname, message, FormatTime(created, msecs))
  }

  /** A JSON object whose values are all strings. */
  type Payload = map<string, string>

  /** `JSONFormatter.format`. */
  function Format(rec: LogRecord): Payload {
    map["timestamp" := rec.asctime, "level" := rec.levelname, "message" := rec.message]
  }

  // ---------------------------------------------------------------------
  // APILogHandler
  // ---------------------------------------------------------------------

  /** An `APILogHandler`: its fields are set once, at construction. */
  datatype ApiHandler = ApiHandler(endpoint: string, sessionId: string, appName: string)

  /** The body `emit` posts: the formatted record plus the handler's session id and app name. */
  function Entry(h: ApiHandler, rec: LogRecord): Payload {
    Format(rec)["session_id" := h.sessionId]["app_name" := h.appName]
  }

  /**
   * The formatted record has exactly the keys `timestamp`, `level` and
   * `message`; the entry adds exactly `session_id` and `app_name`, the
   * handler's own, and keeps the formatter's three values unchanged.
   */
  lemma EntryKeys(h: ApiHandler, rec: LogRecord)
    ensures Format(rec).Keys == {"timestamp", "level", "message"}
    ensures Entry(h, rec).Keys == Format(rec).Keys + {"session_id", "app_name"}
    ensures forall k :: k in Format(rec) ==> Entry(h, rec)[k] == Format(rec)[k]
    ensures Entry(h, rec)["session_id"] == h.sessionId && Entry(h, rec)["app_name"] == h.appName
    ensures Entry(h, rec)["level"] == rec.levelname && Entry(h, rec)["message"] == rec.message
    ensures Entry(h, rec)["timestamp"] == rec.asctime
  {
  }

  datatype Verb = Get | Post | Put

  /** An HTTP request: verb, URL, query parameters, JSON body and the name of an uploaded file. */
  datatype Request = Request(verb: Verb, url: string, query: Payload, body: Payload, upload: Option<string>)

  /**
   * What came back: the call raised (connection refused, timeout, ...) with
   * the exception's text, or a response arrived, with its status, its reason
   * phrase, the URL it was finally fetched from, and the `session_id` of its
   * JSON body if it has one.
   */
  datatype Reply =
    | Raised(reason: string)
    | Replied(status: int, reason: string, url: string, sessionId: Option<string>)

  /** `raise_for_status` raises for a client (4xx) or server (5xx) error status, and for no other. */
  predicate Succeeded(reply: Reply) {
    reply.Replied? && !(400 <= reply.status < 600)
  }

  /**
   * `str(e)` for the exception a failed call raises: the exception's own
   * text, or the `HTTPError` of `raise_for_status`, which names the status,
   * its class (client below 500, server from 500), the reason and the URL.
   */
  function Describe(reply: Reply): string {
    match reply
    case Raised(reason) => reason
    case Replied(status, reason, url, _) =>
      IntText(status) + (if status < 500 then " Client Error: " else " Server Error: ") + reason + " for url: " + url
  }

  /** `emit` either delivers the record or prints a line; it never raises. */
  datatype EmitOutcome = Delivered | Printed(line: string)

  /** The request `emit` sends for a record. */
  function EmitRequest(h: ApiHandler, rec: LogRecord): Request {
    Request(Post, h.endpoint + "/log", map[], Entry(h, rec), None)
  }

  /** `APILogHandler.emit`, given the reply to its request. */
  function Emit(h: ApiHandler, rec: LogRecord, reply: Reply): (r: EmitOutcome)
    ensures r.Delivered? <==> Succeeded(reply)
    ensures r.Printed? ==> r.line == "Failed to send log to API: " + Describe(reply)
  {
    if Succeeded(reply) then Delivered else Printed("Failed to send log to API: " + Describe(reply))
  }

  // ---------------------------------------------------------------------
  // What the manager makes of the entry
  // ---------------------------------------------------------------------

  function Field(p: Payload, key: string): Option<string> {
    if key in p then Some(p[key]) else None
  }

  /**
   * The `LogBody` the manager's `POST /log` route receives for a payload;
   * `stamp` is what its `timestamp` text parses to.
   */
  function BodyOf(p: Payload, stamp: Option<TrackingStore.Time>): TrackingStore.LogBody {
    TrackingStore.LogBody(Field(p, "session_id"), Field(p, "app_name"), Field(p, "level"), Field(p, "message"), stamp)
  }

  /**
   * Every entry a handler posts carries all the fields the manager requires,
   * so the manager accepts it exactly when the record's level is one it
   * allows, and then keeps the handler's session id and app name and the
   * record's level and message.
   */
  lemma EntryAcceptedIffLevel(h: ApiHandler, rec: LogRecord, stamp: Option<TrackingStore.Time>)
    ensures var r := TrackingStore.ValidateLog(BodyOf(Entry(h, rec), stamp));
      && (r.Ok? <==> TrackingStore.ValidLevel(rec.levelname))
      && (r.Ok? ==> r.value == TrackingStore.LogModel(h.sessionId, h.appName, rec.levelname, rec.message, stamp))
  {
    var p := Entry(h, rec);
    assert Field(p, "session_id") == Some(h.sessionId);
    assert Field(p, "app_name") == Some(h.appName);
    assert Field(p, "level") == Some(rec.levelname);
    assert Field(p, "message") == Some(rec.message);
  }

  /**
   * The collectors log at DEBUG level and up, and the manager refuses a
   * DEBUG entry: of the standard levels, DEBUG is the only one never stored.
   */
  lemma DebugEntryRejected(h: ApiHandler, rec: LogRecord, stamp: Option<TrackingStore.Time>)
    requires StandardLevel(rec.levelname)
    ensures TrackingStore.ValidateLog(BodyOf(Entry(h, rec), stamp)).Err? <==> rec.levelname == "DEBUG"
  {
    EntryAcceptedIffLevel(h, rec, stamp);
  }

  /**
   * Posting an entry to a manager whose tables hold the handler's session
   * appends exactly one log row, with the next id and the handler's session,
   * when the level is allowed; otherwise the tables do not change.
   */
  lemma EntryStored(t: TrackingStore.Tables, h: ApiHandler, rec: LogRecord,
                    stamp: Option<TrackingStore.Time>, loadTime: TrackingStore.Time)
    requires TrackingStore.WellFormed(t) && h.sessionId in t.sessions
    ensures var (r, t') := TrackingStore.AppendLogStep(t, BodyOf(Entry(h, rec), stamp), loadTime);
      && (r.Ok? <==> TrackingStore.ValidLevel(rec.levelname))
      && (r.Ok? ==> t'.logs == t.logs + [r.value] && r.value.id == |t.logs| + 1
                    && r.value.sessionId == h.sessionId && r.value.level == rec.levelname
                    && r.value.message == rec.message)
      && (r.Err? ==> t' == t)
  {
    EntryAcceptedIffLevel(h, rec, stamp);
    TrackingStore.AppendLogOutcome(t, BodyOf(Entry(h, rec), stamp), loadTime);
  }
}
