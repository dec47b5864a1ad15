/**
 * The lab-attachment downloader of extractor/app/download_files.py: it
 * searches each lab's e-mail addresses for messages with attachments sent
 * since the day before the last run, collects the attachments, and saves
 * each one in the lab's data folder as `{lab}_{YYYY-MM-DD}__{filename}`,
 * the date being that of the message's `Date` header.
 *
 * Gmail is a parameter (the messages a query finds), the file system is
 * the downloader's state (the folders that exist, the stamp file, the
 * writes made) and today's date is a parameter.
 */
module EmailDownload {
  import opened Common
  import opened Text
  import opened Calendar
  import Notifier

  // ---------------------------------------------------------------------
  // The `Date` header: `strptime(date, '%a, %d %b %Y %H:%M:%S %z')`
  // ---------------------------------------------------------------------

  const DayAbbrevs: seq<string> := ["Mon", "Tue", "Wed", "Thu", "Fri", "Sat", "Sun"]
  const MonthAbbrevs: seq<string> :=
    ["Jan", "Feb", "Mar", "Apr", "May", "Jun", "Jul", "Aug", "Sep", "Oct", "Nov", "Dec"]

  /** The `%b` group: the month an English abbreviation names, searching from the `k`-th. */
  function MonthFrom(s: string, k: nat): (r: Option<int>)
    requires k <= 12
    ensures r.Some? ==> k < r.value <= 12 && MonthAbbrevs[r.value - 1] == s
    ensures r.None? ==> forall j :: k <= j < 12 ==> MonthAbbrevs[j] != s
    decreases 12 - k
  {
    if k == 12 then None else if MonthAbbrevs[k] == s then Some(k + 1) else MonthFrom(s, k + 1)
  }

  /** The month of an English abbreviation written as `Mar` is; `None` for any other text. */
  function MonthNumber(s: string): (r: Option<int>)
    ensures r.Some? ==> 1 <= r.value <= 12 && MonthAbbrevs[r.value - 1] == s
    ensures r.None? ==> forall j :: 0 <= j < 12 ==> MonthAbbrevs[j] != s
  {
    MonthFrom(s, 0)
  }

  lemma AbbrevsDistinct()
    ensures forall i, j :: 0 <= i < j < 12 ==> MonthAbbrevs[i][1..] != MonthAbbrevs[j][1..]
  {
  }

  lemma {:induction false} MonthFromOf(m: int, k: nat)
    requires k < m <= 12
    ensures MonthFrom(MonthAbbrevs[m - 1], k) == Some(m)
    decreases 12 - k
  {
    if k < m - 1 {
      AbbrevsDistinct();
      assert MonthAbbrevs[k][1..] != MonthAbbrevs[m - 1][1..];
      MonthFromOf(m, k + 1);
    }
  }

  /** Each abbreviation names its own month. */
  lemma MonthNumberOf(m: int)
    requires 1 <= m <= 12
    ensures MonthNumber(MonthAbbrevs[m - 1]) == Some(m)
  {
    MonthFromOf(m, 0);
  }

  /** Two digits at `i` denote a number below `bound`. */
  predicate TwoDigitsBelow(s: string, i: nat, bound: nat) {
    i + 2 <= |s| && AllDigits(s[i..i + 2]) && ParseDigits(s[i..i + 2]) < bound
  }

  /** `%H:%M:%S` with two-digit fields. */
  predicate ClockOk(c: string) {
    |c| == 8 && c[2] == ':' && c[5] == ':'
    && TwoDigitsBelow(c, 0, 24) && TwoDigitsBelow(c, 3, 60) && TwoDigitsBelow(c, 6, 60)
  }

  /** `%z` as `+hhmm` or `-hhmm`, an offset below a day. */
  predicate ZoneOk(z: string) {
    |z| == 5 && (z[0] == '+' || z[0] == '-') && TwoDigitsBelow(z, 1, 24) && TwoDigitsBelow(z, 3, 60)
  }

  /**
   * The calendar date of a `Date` header written as section 3.3 of RFC 5322
   * lays it out, `Mon, 15 Mar 2024 10:05:07 +0000`, and `None` for any other
   * text.  `strptime` accepts more than this layout (letter case, whitespace
   * runs, one-digit clock fields, other zone forms), so `None` does not mean
   * that it raises.  The day of the week is not checked against the date,
   * and the date is the one written, in the header's own zone.
   */
  function HeaderDate(s: string): (r: Option<Date>)
    ensures r.Some? ==> ValidDate(r.value)
  {
    if |s| < 5 || s[..3] !in DayAbbrevs || s[3] != ',' || s[4] != ' ' then None
    else
      match DayField(s, 5)
      case None => None
      case Some(df) =>
        var rest := s[df.1..];
        if |rest| != 24 || rest[0] != ' ' || rest[4] != ' ' || rest[9] != ' ' || rest[18] != ' ' then None
        else if !AllDigits(rest[5..9]) || !ClockOk(rest[10..18]) || !ZoneOk(rest[19..]) then None
        else
          match MonthNumber(rest[1..4])
          case None => None
          case Some(m) =>
            var d := Date(ParseDigits(rest[5..9]), m, df.0);
            if ValidDate(d) then Some(d) else None
  }

  /** `+hhmm`/`-hhmm` for an offset in minutes. */
  function ZoneText(zone: int): string
    requires -1440 < zone < 1440
  {
    var a := if zone < 0 then -zone else zone;
    (if zone < 0 then "-" else "+") + ZeroPadded(a / 60, 2) + ZeroPadded(a % 60, 2)
  }

  /** A `Date` header as a mail client writes it (`email.utils.format_datetime`). */
  function HeaderText(t: DateTime, weekday: nat, zone: int): string
    requires ValidDateTime(t) && 1000 <= t.date.year && weekday < 7 && -1440 < zone < 1440
  {
    DayAbbrevs[weekday] + ", " + ZeroPadded(t.date.day, 2) + " " + MonthAbbrevs[t.date.month - 1] + " "
    + YearText(t.date.year) + " " + ClockText(t) + " " + ZoneText(zone)
  }

  lemma ZoneTextOk(zone: int)
    requires -1440 < zone < 1440
    ensures ZoneOk(ZoneText(zone))
  {
    var a := if zone < 0 then -zone else zone;
    var z, h, m := ZoneText(zone), ZeroPadded(a / 60, 2), ZeroPadded(a % 60, 2);
    assert Pow10(2) == 100;
    assert z[1..3] == h && z[3..5] == m;
  }

  lemma ClockTextOk(t: DateTime)
    requires ValidDateTime(t)
    ensures ClockOk(ClockText(t))
  {
    var c := ClockText(t);
    assert c[0..2] == c[..2];
  }

  /** A header whose fields all read is the date they name. */
  lemma HeaderDateOf(s: string, day: int, m: int)
    requires |s| == 31 && s[..3] in DayAbbrevs && s[3] == ',' && s[4] == ' '
    requires DayField(s, 5) == Some((day, 7))
    requires s[7] == ' ' && s[11] == ' ' && s[16] == ' ' && s[25] == ' '
    requires MonthNumber(s[8..11]) == Some(m) && AllDigits(s[12..16]) && ClockOk(s[17..25]) && ZoneOk(s[26..])
    requires ValidDate(Date(ParseDigits(s[12..16]), m, day))
    ensures HeaderDate(s) == Some(Date(ParseDigits(s[12..16]), m, day))
  {
    var rest := s[7..];
    assert rest[1..4] == s[8..11] && rest[5..9] == s[12..16] && rest[10..18] == s[17..25] && rest[19..] == s[26..];
  }

  /** Where the fields of `Ddd, DD Mon YYYY HH:MM:SS +hhmm` sit, whatever they hold. */
  lemma Layout(a: string, dd: string, mo: string, y: string, c: string, z: string)
    requires |a| == 3 && |dd| == 2 && |mo| == 3 && |y| == 4 && |c| == 8 && |z| == 5
    ensures var s := a + ", " + dd + " " + mo + " " + y + " " + c + " " + z;
      && |s| == 31 && s[..3] == a && s[3] == ',' && s[4] == ' ' && s[5..7] == dd
      && s[7] == ' ' && s[11] == ' ' && s[16] == ' ' && s[25] == ' '
      && s[8..11] == mo && s[12..16] == y && s[17..25] == c && s[26..] == z
  {
  }

  /** Where each field of a written header sits. */
  lemma HeaderShape(t: DateTime, weekday: nat, zone: int)
    requires ValidDateTime(t) && 1000 <= t.date.year && weekday < 7 && -1440 < zone < 1440
    ensures var s := HeaderText(t, weekday, zone);
      && |s| == 31 && s[..3] == DayAbbrevs[weekday] && s[3] == ',' && s[4] == ' '
      && s[5..7] == ZeroPadded(t.date.day, 2)
      && s[7] == ' ' && s[11] == ' ' && s[16] == ' ' && s[25] == ' '
      && s[8..11] == MonthAbbrevs[t.date.month - 1] && s[12..16] == YearText(t.date.year)
      && s[17..25] == ClockText(t) && s[26..] == ZoneText(zone)
  {
    assert Pow10(3) == 1000 && Pow10(4) == 10000;
    DecimalLength(t.date.year, 4);
    assert |DayAbbrevs[weekday]| == 3 && |MonthAbbrevs[t.date.month - 1]| == 3;
    Layout(DayAbbrevs[weekday], ZeroPadded(t.date.day, 2), MonthAbbrevs[t.date.month - 1],
           YearText(t.date.year), ClockText(t), ZoneText(zone));
  }

  /** What a mail client writes in the `Date` header, the downloader reads back as the same calendar date. */
  lemma HeaderDateRoundTrip(t: DateTime, weekday: nat, zone: int)
    requires ValidDateTime(t) && 1000 <= t.date.year && weekday < 7 && -1440 < zone < 1440
    ensures HeaderDate(HeaderText(t, weekday, zone)) == Some(t.date)
  {
    var s := HeaderText(t, weekday, zone);
    HeaderShape(t, weekday, zone);
    DayFieldPadded(s, 5, t.date.day);
    ClockTextOk(t);
    ZoneTextOk(zone);
    MonthNumberOf(t.date.month);
    HeaderDateOf(s, t.date.day, t.date.month);
  }

  // ---------------------------------------------------------------------
  // Saved names
  // ---------------------------------------------------------------------

  /** `f"{lab_name}_{date_str}__{filename}"`. */
  function SavedName(lab: string, dateStr: string, filename: string): string {
    lab + "_" + dateStr + "__" + filename
  }

  /** `os.path.join(path, name)` for two parts: an absolute `name` starts over. */
  function PathJoin(path: string, name: string): string {
    if |name| > 0 && name[0] == '/' then name
    else if path == [] || path[|path| - 1] == '/' then path + name
    else path + "/" + name
  }

  /**
   * The notifier shows the part of a stored name after its last `__`: for a
   * saved attachment whose own name has no `__`, that is the name the
   * attachment had in the e-mail, whatever the folder and lab.
   */
  lemma ShownNameOfSaved(folder: string, lab: string, d: Date, filename: string)
    requires ValidDate(d) && Find(filename, "__").None?
    ensures Notifier.ShownName(PathJoin(folder, SavedName(lab, IsoDate(d), filename))) == filename
  {
    var date := IsoDate(d);
    IsoDateFields(d);
    var stem := lab + "_" + date;
    assert stem[|stem| - 1] == date[|date| - 1];
    assert SavedName(lab, date, filename) == stem + ("__" + filename);
    PathJoinAppend(folder, stem, "__" + filename);
    var prefix := PathJoin(folder, stem);
    assert prefix + ("__" + filename) == prefix + "__" + filename;
    LastPieceAfterDoubleUnderscore(prefix, filename);
  }

  /** Joining a name that starts with `stem` joins `stem` and keeps the rest; the join ends as `stem` does. */
  lemma PathJoinAppend(folder: string, stem: string, tail: string)
    requires |stem| > 0
    ensures PathJoin(folder, stem + tail) == PathJoin(folder, stem) + tail
    ensures var p := PathJoin(folder, stem); |p| > 0 && p[|p| - 1] == stem[|stem| - 1]
  {
    var name := stem + tail;
    assert name[0] == stem[0];
    if stem[0] == '/' {
    } else if folder == [] || folder[|folder| - 1] == '/' {
      assert folder + name == (folder + stem) + tail;
    } else {
      assert folder + "/" + name == (folder + "/" + stem) + tail;
    }
  }

  // ---------------------------------------------------------------------
  // download_attachments_from_lab
  // ---------------------------------------------------------------------

  type Bytes = seq<bv8>

  datatype Header = Header(name: string, value: string)
  datatype Part = Part(filename: string, data: Bytes)
  /** A message as Gmail returns it: its headers and its payload's parts. */
  datatype Message = Message(headers: seq<Header>, parts: seq<Part>)
  /** `(filename, buffer, date, sender)`: a decoded attachment with its message's `Date` and `From`. */
  datatype Attachment = Attachment(filename: string, data: Bytes, date: string, sender: string)

  /** `next(h['value'] for h in headers if h['name'] == name)`; `None` where `next` raises StopIteration. */
  function FirstHeader(headers: seq<Header>, name: string): (r: Option<string>)
    ensures r.None? <==> forall k :: 0 <= k < |headers| ==> headers[k].name != name
    ensures r.Some? ==> exists k :: 0 <= k < |headers| && headers[k] == Header(name, r.value)
  {
    if headers == [] then None
    else if headers[0].name == name then Some(headers[0].value)
    else
      var r := FirstHeader(headers[1..], name);
      assert forall k :: 1 <= k < |headers| ==> headers[k] == headers[1..][k - 1];
      r
  }

  /** The inner loop: every part with a non-empty filename, in part order. */
  function PartAttachments(parts: seq<Part>, date: string, sender: string): (r: seq<Attachment>)
    ensures |r| <= |parts|
  {
    if parts == [] then []
    else
      var front, p := parts[..|parts| - 1], parts[|parts| - 1];
      PartAttachments(front, date, sender) + (if p.filename != [] then [Attachment(p.filename, p.data, date, sender)] else [])
  }

  /** The attachments of a message are exactly its named parts, each with the message's date and sender. */
  lemma {:induction false} PartAttachmentsMembers(parts: seq<Part>, date: string, sender: string)
    ensures forall a :: a in PartAttachments(parts, date, sender) <==>
      a.filename != [] && Part(a.filename, a.data) in parts && a.date == date && a.sender == sender
  {
    if parts != [] {
      var front, p := parts[..|parts| - 1], parts[|parts| - 1];
      assert parts == front + [p];
      PartAttachmentsMembers(front, date, sender);
    }
  }

  /** One message: its `Date` and `From` headers must both be there, whether it has attachments or not. */
  function MessageAttachments(m: Message): Result<seq<Attachment>, string> {
    match (FirstHeader(m.headers, "Date"), FirstHeader(m.headers, "From"))
    case (Some(date), Some(sender)) => Ok(PartAttachments(m.parts, date, sender))
    case _ => Err("StopIteration")
  }

  /** The attachments of all messages, in message order; the first message missing a header stops the collection. */
  function Collected(messages: seq<Message>): Result<seq<Attachment>, string> {
    if messages == [] then Ok([])
    else
      match MessageAttachments(messages[0])
      case Err(e) => Err(e)
      case Ok(first) =>
        var rest := Collected(messages[1..]);
        if rest.Ok? then Ok(first + rest.value) else rest
  }

  /** The collection fails exactly when some message lacks its `Date` or `From` header. */
  lemma {:induction false} CollectedFailsIffHeaderMissing(messages: seq<Message>)
    ensures Collected(messages).Err? <==> exists k :: 0 <= k < |messages| && MessageAttachments(messages[k]).Err?
  {
    if messages != [] {
      CollectedFailsIffHeaderMissing(messages[1..]);
      assert forall k :: 1 <= k < |messages| ==> messages[k] == messages[1..][k - 1];
    }
  }

  /** `a` is one of the parts of `m`, with `m`'s first `Date` and `From` headers. */
  predicate FromMessage(a: Attachment, m: Message) {
    && Part(a.filename, a.data) in m.parts
    && FirstHeader(m.headers, "Date") == Some(a.date)
    && FirstHeader(m.headers, "From") == Some(a.sender)
  }

  /** Every collected attachment has a name and comes, with its message's date and sender, from a message part. */
  lemma {:induction false} CollectedFromParts(messages: seq<Message>)
    requires Collected(messages).Ok?
    ensures forall a :: a in Collected(messages).value ==>
      a.filename != [] && exists k :: 0 <= k < |messages| && FromMessage(a, messages[k])
  {
    if messages != [] {
      var m := messages[0];
      var date, sender := FirstHeader(m.headers, "Date").value, FirstHeader(m.headers, "From").value;
      var first := PartAttachments(m.parts, date, sender);
      var rest := Collected(messages[1..]).value;
      assert Collected(messages).value == first + rest;
      PartAttachmentsMembers(m.parts, date, sender);
      CollectedFromParts(messages[1..]);
      forall a: Attachment | a in first + rest
        ensures a.filename != [] && exists k :: 0 <= k < |messages| && FromMessage(a, messages[k])
      {
        if a in first {
          assert FromMessage(a, messages[0]);
        } else {
          var k :| 0 <= k < |messages[1..]| && FromMessage(a, messages[1..][k]);
          assert messages[1..][k] == messages[k + 1];
        }
      }
    }
  }

  /** `acc` followed by what `r` collects. */
  function After(acc: seq<Attachment>, r: Result<seq<Attachment>, string>): Result<seq<Attachment>, string> {
    if r.Ok? then Ok(acc + r.value) else r
  }

  /** Collecting from message `i` on: a message missing a header stops everything. */
  lemma {:induction false} CollectedStops(messages: seq<Message>, i: nat, acc: seq<Attachment>)
    requires i < |messages| && MessageAttachments(messages[i]).Err?
    requires Collected(messages) == After(acc, Collected(messages[i..]))
    ensures Collected(messages) == Err("StopIteration")
  {
    assert messages[i..][0] == messages[i];
  }

  /** A message with both headers contributes its attachments ahead of the rest. */
  lemma {:induction false} CollectedCons(messages: seq<Message>)
    requires messages != [] && MessageAttachments(messages[0]).Ok?
    ensures Collected(messages) == After(MessageAttachments(messages[0]).value, Collected(messages[1..]))
  {
  }

  lemma AfterAssoc(acc: seq<Attachment>, more: seq<Attachment>, r: Result<seq<Attachment>, string>)
    ensures After(acc, After(more, r)) == After(acc + more, r)
  {
    if r.Ok? {
      assert acc + (more + r.value) == acc + more + r.value;
    }
  }

  /** Collecting from message `i` on: its attachments come first. */
  lemma {:induction false} CollectedStep(messages: seq<Message>, i: nat, acc: seq<Attachment>, found: seq<Attachment>)
    requires i < |messages| && MessageAttachments(messages[i]) == Ok(found)
    requires Collected(messages) == After(acc, Collected(messages[i..]))
    ensures Collected(messages) == After(acc + found, Collected(messages[i + 1..]))
  {
    assert messages[i..][0] == messages[i] && messages[i..][1..] == messages[i + 1..];
    CollectedCons(messages[i..]);
    AfterAssoc(acc, found, Collected(messages[i + 1..]));
  }

  /** The inner loop of `download_attachments_from_lab`, over one message's parts. */
  method NamedParts(parts: seq<Part>, date: string, sender: string) returns (found: seq<Attachment>)
    ensures found == PartAttachments(parts, date, sender)
  {
    found := [];
    var j := 0;
    while j < |parts|
      invariant 0 <= j <= |parts|
      invariant found == PartAttachments(parts[..j], date, sender)
    {
      assert parts[..j + 1][..j] == parts[..j] && parts[..j + 1][j] == parts[j];
      if parts[j].filename != [] {
        found := found + [Attachment(parts[j].filename, parts[j].data, date, sender)];
      }
      j := j + 1;
    }
    assert parts[..j] == parts;
  }

  /** `download_attachments_from_lab` once Gmail has listed and fetched the messages. */
  method DownloadAttachmentsFromLab(messages: seq<Message>) returns (r: Result<seq<Attachment>, string>)
    ensures r == Collected(messages)
  {
    var buffers: seq<Attachment> := [];
    var i := 0;
    assert messages[0..] == messages;
    assert Collected(messages).Ok? ==> [] + Collected(messages).value == Collected(messages).value;
    while i < |messages|
      invariant 0 <= i <= |messages|
      invariant Collected(messages) == After(buffers, Collected(messages[i..]))
    {
      var m := messages[i];
      var date := FirstHeader(m.headers, "Date");
      var sender := FirstHeader(m.headers, "From");
      if date.None? || sender.None? {
        CollectedStops(messages, i, buffers);
        return Err("StopIteration");
      }
      var found := NamedParts(m.parts, date.value, sender.value);
      CollectedStep(messages, i, buffers, found);
      buffers := buffers + found;
      i := i + 1;
    }
    assert messages[i..] == [] && buffers + [] == buffers;
    return Ok(buffers);
  }

  // ---------------------------------------------------------------------
  // save_attachments_in_folder
  // ---------------------------------------------------------------------

  /** A file written: the folder it was written into, its path, its bytes. */
  datatype Write = Write(folder: string, path: string, data: Bytes)

  /** The write for one attachment whose `Date` header reads as `d`: `{lab}_{YYYY-MM-DD}__{filename}` in `folder`. */
  function SavedWrite(a: Attachment, d: Date, lab: string, folder: string): Write
    requires ValidDate(d)
  {
    Write(folder, PathJoin(folder, SavedName(lab, IsoDate(d), a.filename)), a.data)
  }

  /** How many attachments, from the first, have a `Date` header that reads: the loop stops at the next one. */
  function ReadablePrefix(atts: seq<Attachment>): (n: nat)
    ensures n <= |atts|
    ensures forall k :: 0 <= k < n ==> HeaderDate(atts[k].date).Some?
    ensures n < |atts| ==> HeaderDate(atts[n].date).None?
  {
    if atts == [] || HeaderDate(atts[0].date).None? then 0
    else
      var n := ReadablePrefix(atts[1..]);
      assert forall k :: 1 <= k < |atts| ==> atts[k] == atts[1..][k - 1];
      n + 1
  }

  /**
   * The writes of the saving loop, in attachment order, and the error that
   * stopped it: the first attachment whose `Date` header does not read makes
   * `strptime` raise, after the earlier attachments were written.
   */
  function SaveWrites(atts: seq<Attachment>, lab: string, folder: string): (r: (seq<Write>, Option<string>))
    ensures |r.0| == ReadablePrefix(atts) && (r.1.None? <==> |r.0| == |atts|)
    ensures forall k :: 0 <= k < |r.0| ==>
      && HeaderDate(atts[k].date).Some?
      && r.0[k] == SavedWrite(atts[k], HeaderDate(atts[k].date).value, lab, folder)
      && r.0[k].folder == folder && r.0[k].data == atts[k].data
  {
    var n := ReadablePrefix(atts);
    (seq(n, k requires 0 <= k < n => SavedWrite(atts[k], HeaderDate(atts[k].date).value, lab, folder)),
     if n < |atts| then Some("ValueError") else None)
  }

  /** The prefix runs past every readable attachment it reaches. */
  lemma {:induction false} ReadablePrefixGoesOn(atts: seq<Attachment>, i: nat)
    requires i < |atts| && i <= ReadablePrefix(atts) && HeaderDate(atts[i].date).Some?
    ensures i < ReadablePrefix(atts)
  {
    var n := ReadablePrefix(atts);
    assert n < |atts| ==> HeaderDate(atts[n].date).None?;
  }

  /** A readable attachment within the prefix adds its own write to the ones before it. */
  lemma {:induction false} SaveStep(before: seq<Write>, atts: seq<Attachment>, lab: string, folder: string, i: nat)
    requires i < |atts| && i <= ReadablePrefix(atts) && HeaderDate(atts[i].date).Some?
    ensures var ws := SaveWrites(atts, lab, folder).0;
      && i < |ws|
      && before + ws[..i] + [SavedWrite(atts[i], HeaderDate(atts[i].date).value, lab, folder)] == before + ws[..i + 1]
  {
    ReadablePrefixGoesOn(atts, i);
    var ws := SaveWrites(atts, lab, folder).0;
    PrefixGrows(ws, i);
    assert before + ws[..i] + [ws[i]] == before + (ws[..i] + [ws[i]]);
  }

  /** An unreadable attachment within the prefix ends it, with the error. */
  lemma {:induction false} SaveStop(atts: seq<Attachment>, lab: string, folder: string, i: nat)
    requires i < |atts| && i <= ReadablePrefix(atts) && HeaderDate(atts[i].date).None?
    ensures var r := SaveWrites(atts, lab, folder);
      i == |r.0| && r.0[..i] == r.0 && r.1 == Some("ValueError")
  {
  }

  /**
   * What the notifier later shows for each written file is the attachment's
   * own name, for attachments whose name has no `__`.
   */
  lemma SavedFilesShowOriginalNames(atts: seq<Attachment>, lab: string, folder: string)
    ensures var ws := SaveWrites(atts, lab, folder).0;
      forall k :: 0 <= k < |ws| && Find(atts[k].filename, "__").None? ==>
        Notifier.ShownName(ws[k].path) == atts[k].filename
  {
    var ws := SaveWrites(atts, lab, folder).0;
    forall k | 0 <= k < |ws| && Find(atts[k].filename, "__").None?
      ensures Notifier.ShownName(ws[k].path) == atts[k].filename
    {
      ShownNameOfSaved(folder, lab, HeaderDate(atts[k].date).value, atts[k].filename);
    }
  }

  // ---------------------------------------------------------------------
  // The downloader
  // ---------------------------------------------------------------------

  /** `f"from:{email} after:{past_date_str} has:attachment"`. */
  function Query(email: string, after: string): string {
    "from:" + email + " after:" + after + " has:attachment"
  }

  /** The queries of one lab's addresses, in order. */
  function EmailQueries(emails: seq<string>, after: string): (r: seq<string>)
    ensures |r| == |emails| && forall k :: 0 <= k < |r| ==> r[k] == Query(emails[k], after)
  {
    if emails == [] then [] else [Query(emails[0], after)] + EmailQueries(emails[1..], after)
  }

  /** The labs and their addresses, in the order of `emails.json`. */
  type EmailList = seq<(string, seq<string>)>

  /** The queries of every lab, lab by lab. */
  function AllQueries(list: EmailList, after: string): seq<string> {
    if list == [] then [] else EmailQueries(list[0].1, after) + AllQueries(list[1..], after)
  }

  /** `f'./../data/{lab}'`. */
  function LabFolder(lab: string): string {
    "./../data/" + lab
  }

  /** The day the search starts: the day before the stamp's date; `None` where reading or stepping back raises. */
  function SearchStart(stamp: string): (r: Option<Date>)
    ensures r.Some? ==> ValidDate(r.value)
  {
    match ParseIsoDate(stamp)
    case None => None
    case Some(d) => PrevDay(d)
  }

  /** On a first run the stamp is today's, so the search starts yesterday. */
  lemma FirstRunStartsYesterday(today: Date)
    requires ValidDate(today) && 1000 <= today.year
    ensures SearchStart(IsoDate(today)) == PrevDay(today) && PrevDay(today).Some?
  {
    IsoDateRoundTrip(today);
  }

  /** What a stretch of the download did: the searches made, the files written, and the error that ended it. */
  datatype Outcome = Outcome(queries: seq<string>, writes: seq<Write>, err: Option<string>)

  /** No search, no write, no error. */
  const NoOutcome := Outcome([], [], None)

  /** `a` completed without error, then `b`. */
  function Then(a: Outcome, b: Outcome): Outcome {
    Outcome(a.queries + b.queries, a.writes + b.writes, b.err)
  }

  /**
   * One address of one lab: its search, then the attachments of the messages
   * found, saved into the lab's folder when that folder exists.
   */
  function AddressOutcome(folders: set<string>, email: string, lab: string, after: string,
                          inbox: string -> seq<Message>): Outcome
  {
    var q := Query(email, after);
    var c := Collected(inbox(q));
    if c.Err? then Outcome([q], [], Some(c.error))
    else if LabFolder(lab) !in folders then Outcome([q], [], None)
    else
      var saved := SaveWrites(c.value, lab, LabFolder(lab));
      Outcome([q], saved.0, saved.1)
  }

  /** The addresses of one lab in order; the first address that fails ends the lab, and the run. */
  function LabOutcome(folders: set<string>, lab: string, emails: seq<string>, after: string,
                      inbox: string -> seq<Message>): Outcome
  {
    if emails == [] then NoOutcome
    else
      var first := AddressOutcome(folders, emails[0], lab, after, inbox);
      if first.err.Some? then first else Then(first, LabOutcome(folders, lab, emails[1..], after, inbox))
  }

  /** The labs of `emails.json` in order; the first lab that fails ends the run. */
  function ListOutcome(folders: set<string>, list: EmailList, after: string, inbox: string -> seq<Message>): Outcome {
    if list == [] then NoOutcome
    else
      var first := LabOutcome(folders, list[0].0, list[0].1, after, inbox);
      if first.err.Some? then first else Then(first, ListOutcome(folders, list[1..], after, inbox))
  }

  /**
   * One address makes exactly its own search; it fails exactly when some
   * message found lacks a `Date` or `From` header, or when the lab's folder
   * exists and some attachment's `Date` header does not read; it writes only
   * into the lab's folder, and only when that folder exists.
   */
  lemma AddressOutcomeFacts(folders: set<string>, email: string, lab: string, after: string,
                            inbox: string -> seq<Message>)
    ensures var o := AddressOutcome(folders, email, lab, after, inbox);
      && o.queries == [Query(email, after)]
      && (o.err.None? <==>
            && Collected(inbox(Query(email, after))).Ok?
            && (LabFolder(lab) in folders ==>
                  forall a :: a in Collected(inbox(Query(email, after))).value ==> HeaderDate(a.date).Some?))
      && forall k :: 0 <= k < |o.writes| ==> o.writes[k].folder == LabFolder(lab) && o.writes[k].folder in folders
  {
    var c := Collected(inbox(Query(email, after)));
    if c.Ok? && LabFolder(lab) in folders {
      var atts := c.value;
      var n := ReadablePrefix(atts);
      if n < |atts| {
        assert atts[n] in atts;
      }
    }
  }

  /** One address writes only into the lab's folder, and only when that folder exists. */
  lemma AddressWrites(folders: set<string>, email: string, lab: string, after: string, inbox: string -> seq<Message>)
    ensures forall k :: 0 <= k < |AddressOutcome(folders, email, lab, after, inbox).writes| ==>
      && AddressOutcome(folders, email, lab, after, inbox).writes[k].folder == LabFolder(lab)
      && AddressOutcome(folders, email, lab, after, inbox).writes[k].folder in folders
  {
  }

  /** One step of the loop over a lab's addresses. */
  lemma {:induction false} LabOutcomeAt(folders: set<string>, lab: string, emails: seq<string>, j: nat, after: string,
                                        inbox: string -> seq<Message>)
    requires j < |emails|
    ensures var first := AddressOutcome(folders, emails[j], lab, after, inbox);
      LabOutcome(folders, lab, emails[j..], after, inbox) ==
        if first.err.Some? then first else Then(first, LabOutcome(folders, lab, emails[j + 1..], after, inbox))
  {
    assert emails[j..][0] == emails[j] && emails[j..][1..] == emails[j + 1..];
  }

  /** One step of the loop over the labs. */
  lemma {:induction false} ListOutcomeAt(folders: set<string>, list: EmailList, i: nat, after: string,
                                         inbox: string -> seq<Message>)
    requires i < |list|
    ensures var first := LabOutcome(folders, list[i].0, list[i].1, after, inbox);
      ListOutcome(folders, list[i..], after, inbox) ==
        if first.err.Some? then first else Then(first, ListOutcome(folders, list[i + 1..], after, inbox))
  {
    assert list[i..][0] == list[i] && list[i..][1..] == list[i + 1..];
  }

  /** Appending a completed step to what was already done, in the state and in the outcome still to come. */
  lemma ThenStep(q0: seq<string>, w0: seq<Write>, done: Outcome, step: Outcome, rest: Outcome)
    ensures Then(done, Then(step, rest)) == Then(Then(done, step), rest)
    ensures q0 + done.queries + step.queries == q0 + Then(done, step).queries
    ensures w0 + done.writes + step.writes == w0 + Then(done, step).writes
  {
    assert done.queries + (step.queries + rest.queries) == (done.queries + step.queries) + rest.queries;
    assert done.writes + (step.writes + rest.writes) == (done.writes + step.writes) + rest.writes;
  }

  /** Ending with nothing left to do, or with a failing step. */
  lemma ThenEnd(q0: seq<string>, w0: seq<Write>, done: Outcome, last: Outcome)
    ensures Then(done, NoOutcome) == Outcome(done.queries, done.writes, None)
    ensures q0 + done.queries + last.queries == q0 + Then(done, last).queries
    ensures w0 + done.writes + last.writes == w0 + Then(done, last).writes
  {
    assert done.queries + [] == done.queries && done.writes + [] == done.writes;
  }

  /** A lab fails exactly when one of its addresses fails; every write goes into the lab's folder, which exists. */
  lemma {:induction false} LabOutcomeFacts(folders: set<string>, lab: string, emails: seq<string>, after: string,
                                           inbox: string -> seq<Message>)
    ensures var o := LabOutcome(folders, lab, emails, after, inbox);
      && (o.err.None? <==> forall j :: 0 <= j < |emails| ==> AddressOutcome(folders, emails[j], lab, after, inbox).err.None?)
      && forall k :: 0 <= k < |o.writes| ==> o.writes[k].folder == LabFolder(lab) && o.writes[k].folder in folders
  {
    var o := LabOutcome(folders, lab, emails, after, inbox);
    assert o.err.None? <==> forall j :: 0 <= j < |emails| ==> AddressOutcome(folders, emails[j], lab, after, inbox).err.None? by {
      LabFailsIff(folders, lab, emails, after, inbox);
    }
    assert forall k :: 0 <= k < |o.writes| ==> o.writes[k].folder == LabFolder(lab) && o.writes[k].folder in folders by {
      LabWrites(folders, lab, emails, after, inbox);
    }
  }

  /** A lab fails exactly when one of its addresses fails. */
  lemma {:induction false} LabFailsIff(folders: set<string>, lab: string, emails: seq<string>, after: string,
                                       inbox: string -> seq<Message>)
    ensures LabOutcome(folders, lab, emails, after, inbox).err.None? <==>
      forall j :: 0 <= j < |emails| ==> AddressOutcome(folders, emails[j], lab, after, inbox).err.None?
    decreases |emails|
  {
    if emails != [] {
      var first := AddressOutcome(folders, emails[0], lab, after, inbox);
      if first.err.None? {
        var tail := emails[1..];
        LabFailsIff(folders, lab, tail, after, inbox);
        assert LabOutcome(folders, lab, emails, after, inbox).err == LabOutcome(folders, lab, tail, after, inbox).err;
        assert forall j :: 1 <= j < |emails| ==> emails[j] == tail[j - 1];
      } else {
        assert LabOutcome(folders, lab, emails, after, inbox) == first;
      }
    }
  }

  /** Writes that all go into one existing folder still do when one outcome follows another. */
  lemma ThenWrites(a: Outcome, b: Outcome, folder: string, folders: set<string>)
    requires forall k :: 0 <= k < |a.writes| ==> a.writes[k].folder == folder && a.writes[k].folder in folders
    requires forall k :: 0 <= k < |b.writes| ==> b.writes[k].folder == folder && b.writes[k].folder in folders
    ensures forall k :: 0 <= k < |Then(a, b).writes| ==> Then(a, b).writes[k].folder == folder && Then(a, b).writes[k].folder in folders
  {
    var ws := a.writes + b.writes;
    assert Then(a, b).writes == ws;
    forall k | 0 <= k < |ws|
      ensures ws[k].folder == folder && ws[k].folder in folders
    {
      if k < |a.writes| {
        assert ws[k] == a.writes[k];
      } else {
        assert ws[k] == b.writes[k - |a.writes|];
      }
    }
  }

  /** Every write of a lab goes into the lab's folder, which exists. */
  lemma {:induction false} LabWrites(folders: set<string>, lab: string, emails: seq<string>, after: string,
                                     inbox: string -> seq<Message>)
    ensures forall k :: 0 <= k < |LabOutcome(folders, lab, emails, after, inbox).writes| ==>
      && LabOutcome(folders, lab, emails, after, inbox).writes[k].folder == LabFolder(lab)
      && LabOutcome(folders, lab, emails, after, inbox).writes[k].folder in folders
    decreases |emails|
  {
    if emails != [] {
      var first := AddressOutcome(folders, emails[0], lab, after, inbox);
      AddressWrites(folders, emails[0], lab, after, inbox);
      if first.err.None? {
        var rest := LabOutcome(folders, lab, emails[1..], after, inbox);
        LabWrites(folders, lab, emails[1..], after, inbox);
        ThenWrites(first, rest, LabFolder(lab), folders);
        assert LabOutcome(folders, lab, emails, after, inbox) == Then(first, rest);
      } else {
        assert LabOutcome(folders, lab, emails, after, inbox) == first;
      }
    }
  }

  /**
   * A lab that completes searches every address in order; a lab that fails
   * does so at its first failing address, after the searches up to and
   * including that one, and the later addresses are not searched.
   */
  lemma {:induction false} LabOutcomeQueries(folders: set<string>, lab: string, emails: seq<string>, after: string,
                                             inbox: string -> seq<Message>)
    ensures var o := LabOutcome(folders, lab, emails, after, inbox);
      && (o.err.None? ==> o.queries == EmailQueries(emails, after))
      && (o.err.Some? ==> exists j :: && 0 <= j < |emails|
                                      && AddressOutcome(folders, emails[j], lab, after, inbox).err == o.err
                                      && (forall i :: 0 <= i < j ==> AddressOutcome(folders, emails[i], lab, after, inbox).err.None?)
                                      && o.queries == EmailQueries(emails[..j + 1], after))
    decreases |emails|
  {
    if emails != [] {
      var first := AddressOutcome(folders, emails[0], lab, after, inbox);
      AddressOutcomeFacts(folders, emails[0], lab, after, inbox);
      if first.err.Some? {
        FirstFails(folders, lab, emails, after, inbox);
      } else {
        var tail := emails[1..];
        var rest := LabOutcome(folders, lab, tail, after, inbox);
        LabOutcomeQueries(folders, lab, tail, after, inbox);
        if rest.err.Some? {
          var j :| && 0 <= j < |tail|
                   && AddressOutcome(folders, tail[j], lab, after, inbox).err == rest.err
                   && (forall i :: 0 <= i < j ==> AddressOutcome(folders, tail[i], lab, after, inbox).err.None?)
                   && rest.queries == EmailQueries(tail[..j + 1], after);
          LaterFails(folders, lab, emails, after, inbox, j);
        }
      }
    }
  }

  /** The first address fails: its search is the only one. */
  lemma FirstFails(folders: set<string>, lab: string, emails: seq<string>, after: string, inbox: string -> seq<Message>)
    requires emails != [] && AddressOutcome(folders, emails[0], lab, after, inbox).err.Some?
    ensures LabOutcome(folders, lab, emails, after, inbox).queries == EmailQueries(emails[..1], after)
  {
    AddressOutcomeFacts(folders, emails[0], lab, after, inbox);
    assert EmailQueries(emails[..1], after) == [Query(emails[0], after)];
  }

  /** A later address fails, at index `j` of the rest: shift that index past the first address. */
  lemma LaterFails(folders: set<string>, lab: string, emails: seq<string>, after: string, inbox: string -> seq<Message>, j: nat)
    requires emails != [] && AddressOutcome(folders, emails[0], lab, after, inbox).err.None?
    requires var tail := emails[1..]; var rest := LabOutcome(folders, lab, tail, after, inbox);
      && j < |tail|
      && AddressOutcome(folders, tail[j], lab, after, inbox).err == rest.err
      && (forall i :: 0 <= i < j ==> AddressOutcome(folders, tail[i], lab, after, inbox).err.None?)
      && rest.queries == EmailQueries(tail[..j + 1], after)
    ensures var o := LabOutcome(folders, lab, emails, after, inbox);
      && AddressOutcome(folders, emails[j + 1], lab, after, inbox).err == o.err
      && (forall i :: 0 <= i < j + 1 ==> AddressOutcome(folders, emails[i], lab, after, inbox).err.None?)
      && o.queries == EmailQueries(emails[..j + 2], after)
  {
    var tail := emails[1..];
    AddressOutcomeFacts(folders, emails[0], lab, after, inbox);
    assert forall i :: 1 <= i < |emails| ==> emails[i] == tail[i - 1];
    assert emails[..j + 2][0] == emails[0] && emails[..j + 2][1..] == tail[..j + 1];
  }

  /**
   * The run over the labs fails exactly when one of the labs fails; a run
   * that completes searches every address of every lab in order; every write
   * goes into a folder that exists.
   */
  lemma {:induction false} ListOutcomeFacts(folders: set<string>, list: EmailList, after: string,
                                            inbox: string -> seq<Message>)
    ensures var o := ListOutcome(folders, list, after, inbox);
      && (o.err.None? <==> forall i :: 0 <= i < |list| ==> LabOutcome(folders, list[i].0, list[i].1, after, inbox).err.None?)
      && (o.err.None? ==> o.queries == AllQueries(list, after))
      && forall k :: 0 <= k < |o.writes| ==> o.writes[k].folder in folders
    decreases |list|
  {
    if list != [] {
      var first := LabOutcome(folders, list[0].0, list[0].1, after, inbox);
      LabOutcomeFacts(folders, list[0].0, list[0].1, after, inbox);
      LabOutcomeQueries(folders, list[0].0, list[0].1, after, inbox);
      if first.err.None? {
        var tail := list[1..];
        ListOutcomeFacts(folders, tail, after, inbox);
        assert forall i :: 1 <= i < |list| ==> list[i] == tail[i - 1];
      }
    }
  }

  /**
   * The whole download completes exactly when no address of any lab fails:
   * no collection stops on a missing header and no save stops on a `Date`
   * header that does not read.
   */
  lemma DownloadCompletesIff(folders: set<string>, list: EmailList, after: string, inbox: string -> seq<Message>)
    ensures ListOutcome(folders, list, after, inbox).err.None? <==>
      forall i, j :: 0 <= i < |list| && 0 <= j < |list[i].1| ==>
        AddressOutcome(folders, list[i].1[j], list[i].0, after, inbox).err.None?
  {
    ListOutcomeFacts(folders, list, after, inbox);
    forall i | 0 <= i < |list|
      ensures LabOutcome(folders, list[i].0, list[i].1, after, inbox).err.None? <==>
        forall j :: 0 <= j < |list[i].1| ==> AddressOutcome(folders, list[i].1[j], list[i].0, after, inbox).err.None?
    {
      LabOutcomeFacts(folders, list[i].0, list[i].1, after, inbox);
    }
  }

  /**
   * `EmailFileDownloader` with the file system it sees: the lab folders that
   * exist, the contents of `last_download_time.txt`, and the writes and
   * Gmail searches made so far.
   */
  class Downloader {
    const folders: set<string>
    var stamp: Option<string>
    var queries: seq<string>
    var written: seq<Write>

    constructor(folders: set<string>, stamp: Option<string>)
      ensures this.folders == folders && this.stamp == stamp && queries == [] && written == []
    {
      this.folders := folders;
      this.stamp := stamp;
      queries := [];
      written := [];
    }

    /** `write_last_email_download_time`: the stamp becomes today's `YYYY-MM-DD`. */
    method WriteLastDownloadTime(today: Date)
      requires ValidDate(today)
      modifies this
      ensures stamp == Some(IsoDate(today)) && queries == old(queries) && written == old(written)
    {
      stamp := Some(IsoDate(today));
    }

    /** `get_last_email_download_time`: writes today's stamp if there is none, then reads the stamp back. */
    method GetLastDownloadTime(today: Date) returns (r: Option<Date>)
      requires ValidDate(today)
      modifies this
      ensures stamp == (if old(stamp).None? then Some(IsoDate(today)) else old(stamp))
      ensures r == ParseIsoDate(stamp.value)
      ensures old(stamp).None? && 1000 <= today.year ==> r == Some(today)
      ensures queries == old(queries) && written == old(written)
    {
      if stamp.None? {
        WriteLastDownloadTime(today);
        if 1000 <= today.year {
          IsoDateRoundTrip(today);
        }
      }
      r := ParseIsoDate(stamp.value);
    }

    /** `save_attachments_in_folder`: nothing is written into a folder that does not exist. */
    method SaveAttachmentsInFolder(atts: seq<Attachment>, lab: string, folder: string) returns (err: Option<string>)
      modifies this
      ensures stamp == old(stamp) && queries == old(queries)
      ensures folder !in folders ==> written == old(written) && err.None?
      ensures folder in folders ==>
        written == old(written) + SaveWrites(atts, lab, folder).0 && err == SaveWrites(atts, lab, folder).1
    {
      if folder !in folders {
        return None;
      }
      ghost var ws := SaveWrites(atts, lab, folder).0;
      var i := 0;
      while i < |atts|
        invariant 0 <= i <= |ws|
        invariant written == old(written) + ws[..i]
        invariant stamp == old(stamp) && queries == old(queries)
      {
        var d := HeaderDate(atts[i].date);
        if d.None? {
          SaveStop(atts, lab, folder, i);
          return Some("ValueError");
        }
        var w := SavedWrite(atts[i], d.value, lab, folder);
        SaveStep(old(written), atts, lab, folder, i);
        written := written + [w];
        i := i + 1;
      }
      assert ws[..i] == ws;
      return None;
    }

    /**
     * The day before the stamp's date, as the `after:` of the searches:
     * a stamp that does not read raises ValueError, and the day before
     * 0001-01-01 OverflowError.
     */
    method SearchWindow(today: Date) returns (after: Result<string, string>)
      requires ValidDate(today)
      modifies this
      ensures stamp == (if old(stamp).None? then Some(IsoDate(today)) else old(stamp))
      ensures queries == old(queries) && written == old(written)
      ensures after.Ok? <==> SearchStart(stamp.value).Some?
      ensures after.Ok? ==> after.value == SlashDate(SearchStart(stamp.value).value)
    {
      var current := GetLastDownloadTime(today);
      if current.None? {
        return Err("ValueError");
      }
      var past := PrevDay(current.value);
      if past.None? {
        return Err("OverflowError");
      }
      return Ok(SlashDate(past.value));
    }

    /**
     * One address of one lab: search the inbox, collect the attachments of
     * what it finds and save them into the lab's folder.
     */
    method DownloadFromAddress(email: string, lab: string, after: string, inbox: string -> seq<Message>)
      returns (err: Option<string>)
      modifies this
      ensures stamp == old(stamp)
      ensures var o := AddressOutcome(folders, email, lab, after, inbox);
        queries == old(queries) + o.queries && written == old(written) + o.writes && err == o.err
    {
      var q := Query(email, after);
      queries := queries + [q];
      var buffers := DownloadAttachmentsFromLab(inbox(q));
      if buffers.Err? {
        assert written == old(written) + [];
        return Some(buffers.error);
      }
      err := SaveAttachmentsInFolder(buffers.value, lab, LabFolder(lab));
      assert LabFolder(lab) !in folders ==> written == old(written) + [];
    }

    /**
     * `download_attachments_from_email`: the search window from the stamp,
     * then every address of every lab, in order, until one fails.
     */
    method DownloadAttachmentsFromEmail(list: EmailList, today: Date, inbox: string -> seq<Message>) returns (err: Option<string>)
      requires ValidDate(today)
      modifies this
      ensures stamp == (if old(stamp).None? then Some(IsoDate(today)) else old(stamp))
      ensures SearchStart(stamp.value).None? ==> err.Some? && queries == old(queries) && written == old(written)
      ensures SearchStart(stamp.value).Some? ==>
        var o := ListOutcome(folders, list, SlashDate(SearchStart(stamp.value).value), inbox);
        queries == old(queries) + o.queries && written == old(written) + o.writes && err == o.err
    {
      var window := SearchWindow(today);
      if window.Err? {
        return Some(window.error);
      }
      var after := window.value;
      ghost var stamp0, queries0, written0 := stamp, queries, written;
      ghost var done := NoOutcome;
      var i := 0;
      while i < |list|
        invariant 0 <= i <= |list| && done.err.None?
        invariant stamp == stamp0 && queries == queries0 + done.queries && written == written0 + done.writes
        invariant ListOutcome(folders, list, after, inbox) == Then(done, ListOutcome(folders, list[i..], after, inbox))
      {
        err := DownloadLab(list[i].0, list[i].1, after, inbox);
        ghost var step := LabOutcome(folders, list[i].0, list[i].1, after, inbox);
        ListOutcomeAt(folders, list, i, after, inbox);
        if err.Some? {
          ThenEnd(queries0, written0, done, step);
          return err;
        }
        ThenStep(queries0, written0, done, step, ListOutcome(folders, list[i + 1..], after, inbox));
        done := Then(done, step);
        i := i + 1;
      }
      ThenEnd(queries0, written0, done, NoOutcome);
      return None;
    }

    /** One lab: every address of the lab, in order, each searched and saved, until one fails. */
    method DownloadLab(lab: string, emails: seq<string>, after: string, inbox: string -> seq<Message>)
      returns (err: Option<string>)
      modifies this
      ensures stamp == old(stamp)
      ensures var o := LabOutcome(folders, lab, emails, after, inbox);
        queries == old(queries) + o.queries && written == old(written) + o.writes && err == o.err
    {
      ghost var done := NoOutcome;
      var j := 0;
      while j < |emails|
        invariant 0 <= j <= |emails| && done.err.None?
        invariant stamp == old(stamp) && queries == old(queries) + done.queries && written == old(written) + done.writes
        invariant LabOutcome(folders, lab, emails, after, inbox) == Then(done, LabOutcome(folders, lab, emails[j..], after, inbox))
      {
        err := DownloadFromAddress(emails[j], lab, after, inbox);
        ghost var step := AddressOutcome(folders, emails[j], lab, after, inbox);
        LabOutcomeAt(folders, lab, emails, j, after, inbox);
        if err.Some? {
          ThenEnd(old(queries), old(written), done, step);
          return err;
        }
        ThenStep(old(queries), old(written), done, step, LabOutcome(folders, lab, emails[j + 1..], after, inbox));
        done := Then(done, step);
        j := j + 1;
      }
      ThenEnd(old(queries), old(written), done, NoOutcome);
      return None;
    }

    /**
     * `run`: a missing `emails.json` gives no list, and the download fails on
     * it before anything is searched or written; otherwise the download runs,
     * and the stamp becomes today's exactly when it completes.
     */
    method Run(list: Option<EmailList>, today: Date, inbox: string -> seq<Message>) returns (err: Option<string>)
      requires ValidDate(today)
      modifies this
      ensures list.None? ==> err == Some("AttributeError") && stamp == old(stamp) && queries == old(queries) && written == old(written)
      ensures list.Some? ==>
        var read := if old(stamp).None? then IsoDate(today) else old(stamp).value;
        && (SearchStart(read).None? ==>
              err.Some? && stamp == Some(read) && queries == old(queries) && written == old(written))
        && (SearchStart(read).Some? ==>
              var o := ListOutcome(folders, list.value, SlashDate(SearchStart(read).value), inbox);
              && queries == old(queries) + o.queries && written == old(written) + o.writes && err == o.err
              && stamp == Some(if o.err.None? then IsoDate(today) else read))
    {
      if list.None? {
        return Some("AttributeError");
      }
      err := DownloadAttachmentsFromEmail(list.value, today, inbox);
      if err.None? {
        WriteLastDownloadTime(today);
      }
    }
  }
}
