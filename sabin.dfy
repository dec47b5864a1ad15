/**
 * The Sabin laboratory's results in monit-collector/app/crud.py: each record
 * has its three dates rewritten as `dd/mm/YYYY` text, then the records are
 * split into one JSON file per attendance date under `/data/sabin/`.
 *
 * The files written are modelled as a map from path to the records the
 * file holds; the JSON encoding itself is not modelled.
 */
module Sabin {
  import opened Common
  import opened Text
  import opened Calendar

  /** A `datetime.date`: pydantic only builds dates that exist. */
  type Day = d: Date | ValidDate(d) witness Date(2000, 1, 1)

  /** `SabinData`: a validated record. */
  datatype SabinData = SabinData(
    os: string, codigoPosto: string, estado: string, municipio: string,
    dataAtendimento: Day, dataNascimento: Day,
    sexo: string, descricao: string, parametro: string, resultado: string,
    dataAssinatura: Day)

  /** The dictionary of a record after formatting: the same keys, dates as text. */
  datatype SabinRow = SabinRow(
    os: string, codigoPosto: string, estado: string, municipio: string,
    dataAtendimento: string, dataNascimento: string,
    sexo: string, descricao: string, parametro: string, resultado: string,
    dataAssinatura: string)

  // ---------------------------------------------------------------------
  // format_sabin_data_json
  // ---------------------------------------------------------------------

  /** One iteration of the formatting loop: `data.dict()` with the three dates as `%d/%m/%Y`. */
  function FormatRow(d: SabinData): SabinRow
  {
    SabinRow(d.os, d.codigoPosto, d.estado, d.municipio,
             DmyDate(d.dataAtendimento), DmyDate(d.dataNascimento),
             d.sexo, d.descricao, d.parametro, d.resultado,
             DmyDate(d.dataAssinatura))
  }

  function FormatAll(data: seq<SabinData>): (rows: seq<SabinRow>)
    ensures |rows| == |data|
  {
    if data == [] then [] else FormatAll(data[..|data| - 1]) + [FormatRow(data[|data| - 1])]
  }

  lemma {:induction false} FormatAllAt(data: seq<SabinData>, i: nat)
    requires i < |data|
    ensures FormatAll(data)[i] == FormatRow(data[i])
    decreases |data|
  {
    if i < |data| - 1 {
      FormatAllAt(data[..|data| - 1], i);
    }
  }

  /**
   * Reading `%d/%m/%Y` text as `strftime` writes it: two digits, `/`, two
   * digits, `/`, the year; `None` unless the date exists.
   */
  function ReadDmy(s: string): (r: Option<Day>)
  {
    if |s| >= 7 && s[2] == '/' && s[5] == '/' && AllDigits(s[..2]) && AllDigits(s[3..5]) && AllDigits(s[6..])
       && ValidDate(Date(ParseDigits(s[6..]), ParseDigits(s[3..5]), ParseDigits(s[..2])))
    then Some(Date(ParseDigits(s[6..]), ParseDigits(s[3..5]), ParseDigits(s[..2])))
    else None
  }

  /** Reading back a formatted record: `None` when a date field is not such text. */
  function ReadRow(r: SabinRow): Option<SabinData> {
    match (ReadDmy(r.dataAtendimento), ReadDmy(r.dataNascimento), ReadDmy(r.dataAssinatura))
    case (Some(a), Some(n), Some(s)) =>
      Some(SabinData(r.os, r.codigoPosto, r.estado, r.municipio, a, n, r.sexo, r.descricao, r.parametro,
                     r.resultado, s))
    case _ => None
  }

  /** Formatting a record loses nothing: every field, dates included, reads back. */
  lemma FormatRowRoundTrip(d: SabinData)
    ensures ReadRow(FormatRow(d)) == Some(d)
  {
    DmyDateFields(d.dataAtendimento);
    DmyDateFields(d.dataNascimento);
    DmyDateFields(d.dataAssinatura);
  }

  /** `format_sabin_data_json`: the loop over the records. */
  method FormatSabinData(data: seq<SabinData>) returns (rows: seq<SabinRow>)
    ensures rows == FormatAll(data)
  {
    rows := [];
    var i := 0;
    while i < |data|
      invariant 0 <= i <= |data|
      invariant rows == FormatAll(data[..i])
    {
      assert data[..i + 1][..i] == data[..i];
      rows := rows + [FormatRow(data[i])];
      i := i + 1;
    }
    assert data[..i] == data;
  }

  // ---------------------------------------------------------------------
  // save_sabin_data_one_json_file_by_date
  // ---------------------------------------------------------------------

  /** `set(data['DataAtendimento'] for data in sabin_data)`. */
  function Dates(rows: seq<SabinRow>): set<string> {
    set i | 0 <= i < |rows| :: rows[i].dataAtendimento
  }

  /** `[data for data in sabin_data if data['DataAtendimento'] == date]`. */
  function OnDate(rows: seq<SabinRow>, date: string): (out: seq<SabinRow>)
    ensures forall x :: x in out <==> x in rows && x.dataAtendimento == date
  {
    if rows == [] then []
    else
      var last := rows[|rows| - 1];
      assert rows == rows[..|rows| - 1] + [last];
      OnDate(rows[..|rows| - 1], date) + (if last.dataAtendimento == date then [last] else [])
  }

  /** `f"/data/sabin/sabin_{date.replace('/', '-')}.json"`. */
  function FilePath(date: string): string {
    "/data/sabin/sabin_" + ReplaceChar(date, '/', '-') + ".json"
  }

  /** Two date texts without a `-` of their own get different files. */
  lemma FilePathInjective(a: string, b: string)
    requires forall i :: 0 <= i < |a| ==> a[i] != '-'
    requires forall i :: 0 <= i < |b| ==> b[i] != '-'
    requires FilePath(a) == FilePath(b)
    ensures a == b
  {
    var pa, pb := FilePath(a), FilePath(b);
    assert pa[18..|pa| - 5] == ReplaceChar(a, '/', '-');
    assert pb[18..|pb| - 5] == ReplaceChar(b, '/', '-');
    ReplaceCharInjective(a, b, '/', '-');
  }

  /**
   * A file exists for every date, and each file holds the records of one
   * date whose path it is.
   */
  ghost predicate Saved(rows: seq<SabinRow>, files: map<string, seq<SabinRow>>) {
    && (forall d :: d in Dates(rows) ==> FilePath(d) in files)
    && (forall p :: p in files ==> exists d :: d in Dates(rows) && FilePath(d) == p && files[p] == OnDate(rows, d))
  }

  /**
   * The loop over the distinct dates, each writing its records to its
   * file.  A file exists for every date, and each file holds the records of
   * one date whose path it is: when two date texts share a path, the one
   * written last wins.
   */
  method SaveByDate(rows: seq<SabinRow>) returns (files: map<string, seq<SabinRow>>)
    ensures Saved(rows, files)
  {
    var dates := set i | 0 <= i < |rows| :: rows[i].dataAtendimento;
    var remaining := dates;
    files := map[];
    while remaining != {}
      invariant remaining <= dates
      invariant forall d :: d in dates && d !in remaining ==> FilePath(d) in files
      invariant forall p :: p in files ==> exists d :: d in dates && FilePath(d) == p && files[p] == OnDate(rows, d)
      decreases remaining
    {
      var date :| date in remaining;
      var dateData := [];
      var i := 0;
      while i < |rows|
        invariant 0 <= i <= |rows|
        invariant dateData == OnDate(rows[..i], date)
      {
        assert rows[..i + 1][..i] == rows[..i];
        if rows[i].dataAtendimento == date {
          dateData := dateData + [rows[i]];
        }
        i := i + 1;
      }
      assert rows[..i] == rows;
      files := files[FilePath(date) := dateData];
      remaining := remaining - {date};
    }
  }

  /** The sizes of the groups of the dates `ds`, added up. */
  function GroupSizes(rows: seq<SabinRow>, ds: seq<string>): nat {
    if ds == [] then 0 else |OnDate(rows, ds[0])| + GroupSizes(rows, ds[1..])
  }

  /** How many times `d` occurs in `ds`. */
  function Hits(ds: seq<string>, d: string): nat {
    if ds == [] then 0 else (if ds[0] == d then 1 else 0) + Hits(ds[1..], d)
  }

  predicate Distinct(ds: seq<string>) {
    forall j, k :: 0 <= j < k < |ds| ==> ds[j] != ds[k]
  }

  lemma {:induction false} HitsOfDistinct(ds: seq<string>, d: string)
    requires Distinct(ds)
    ensures Hits(ds, d) == (if d in ds then 1 else 0)
    decreases |ds|
  {
    if ds != [] {
      HitsOfDistinct(ds[1..], d);
      assert ds[0] == d ==> d !in ds[1..];
      assert d in ds <==> ds[0] == d || d in ds[1..];
    }
  }

  /** One more record adds one to the group of its date, in every list of dates. */
  lemma {:induction false} GroupSizesSnoc(rows: seq<SabinRow>, x: SabinRow, ds: seq<string>)
    ensures GroupSizes(rows + [x], ds) == GroupSizes(rows, ds) + Hits(ds, x.dataAtendimento)
    decreases |ds|
  {
    if ds != [] {
      GroupSizesSnoc(rows, x, ds[1..]);
      assert (rows + [x])[..|rows|] == rows;
    }
  }

  /**
   * The groups partition the records: over distinct dates that include
   * every record's date, the group sizes add up to the number of records.
   */
  lemma {:induction false} GroupsPartition(rows: seq<SabinRow>, ds: seq<string>)
    requires Distinct(ds)
    requires forall i :: 0 <= i < |rows| ==> rows[i].dataAtendimento in ds
    ensures GroupSizes(rows, ds) == |rows|
    decreases |rows|
  {
    if rows == [] {
      GroupSizesEmpty(ds);
    } else {
      var init, x := rows[..|rows| - 1], rows[|rows| - 1];
      GroupsPartition(init, ds);
      assert rows == init + [x];
      GroupSizesSnoc(init, x, ds);
      HitsOfDistinct(ds, x.dataAtendimento);
    }
  }

  lemma {:induction false} GroupSizesEmpty(ds: seq<string>)
    ensures GroupSizes([], ds) == 0
    decreases |ds|
  {
    if ds != [] {
      GroupSizesEmpty(ds[1..]);
    }
  }

  // ---------------------------------------------------------------------
  // save_sabin_data
  // ---------------------------------------------------------------------

  /** The records attended on `day`, in input order. */
  function AttendedOn(data: seq<SabinData>, day: Day): seq<SabinData> {
    if data == [] then []
    else
      AttendedOn(data[..|data| - 1], day)
      + (if data[|data| - 1].dataAtendimento == day then [data[|data| - 1]] else [])
  }

  /**
   * Selecting the formatted rows by date text is formatting the records
   * attended on that day: `%d/%m/%Y` tells different valid dates apart.
   */
  lemma {:induction false} OnDateOfFormatted(data: seq<SabinData>, day: Day)
    ensures OnDate(FormatAll(data), DmyDate(day)) == FormatAll(AttendedOn(data, day))
    decreases |data|
  {
    if data != [] {
      var front, last := data[..|data| - 1], data[|data| - 1];
      var rows, text := FormatAll(data), DmyDate(day);
      OnDateOfFormatted(front, day);
      assert rows[..|rows| - 1] == FormatAll(front) && rows[|rows| - 1] == FormatRow(last);
      assert OnDate(rows, text) == OnDate(FormatAll(front), text) + (if FormatRow(last).dataAtendimento == text then [FormatRow(last)] else []);
      if last.dataAtendimento == day {
        var picked := AttendedOn(data, day);
        assert picked == AttendedOn(front, day) + [last];
        assert picked[..|picked| - 1] == AttendedOn(front, day);
        assert FormatAll(picked) == FormatAll(AttendedOn(front, day)) + [FormatRow(last)];
      } else {
        if DmyDate(last.dataAtendimento) == text {
          DmyDateInjective(last.dataAtendimento, day);
        }
        assert AttendedOn(data, day) == AttendedOn(front, day);
      }
    }
  }

  lemma NoDashInDmy(d: Day)
    ensures forall i :: 0 <= i < |DmyDate(d)| ==> DmyDate(d)[i] != '-'
  {
    DmyDateFields(d);
  }

  /** Valid dates with different `%d/%m/%Y` text never share a file. */
  lemma DayPathsDistinct(a: Day, b: Day)
    requires FilePath(DmyDate(a)) == FilePath(DmyDate(b))
    ensures a == b
  {
    NoDashInDmy(a);
    NoDashInDmy(b);
    FilePathInjective(DmyDate(a), DmyDate(b));
    DmyDateInjective(a, b);
  }

  lemma {:induction false} DateListed(data: seq<SabinData>, i: nat)
    requires i < |data|
    ensures DmyDate(data[i].dataAtendimento) in Dates(FormatAll(data))
  {
    FormatAllAt(data, i);
    assert FormatAll(data)[i].dataAtendimento == DmyDate(data[i].dataAtendimento);
  }

  lemma {:induction false} OnlyDateForPath(data: seq<SabinData>, d: string, day: Day)
    requires d in Dates(FormatAll(data)) && FilePath(d) == FilePath(DmyDate(day))
    ensures d == DmyDate(day)
  {
    var rows := FormatAll(data);
    var k :| 0 <= k < |rows| && rows[k].dataAtendimento == d;
    FormatAllAt(data, k);
    DayPathsDistinct(data[k].dataAtendimento, day);
  }

  /** Once formatted, the file of a day holds exactly the records attended that day. */
  lemma {:induction false} FileOfDay(data: seq<SabinData>, files: map<string, seq<SabinRow>>, i: nat)
    requires Saved(FormatAll(data), files) && i < |data|
    ensures var day := data[i].dataAtendimento;
      FilePath(DmyDate(day)) in files && files[FilePath(DmyDate(day))] == FormatAll(AttendedOn(data, day))
  {
    var rows, day := FormatAll(data), data[i].dataAtendimento;
    DateListed(data, i);
    var p := FilePath(DmyDate(day));
    var d :| d in Dates(rows) && FilePath(d) == p && files[p] == OnDate(rows, d);
    OnlyDateForPath(data, d, day);
    OnDateOfFormatted(data, day);
  }

  /** Every file is the file of some record's day. */
  lemma {:induction false} FileHasDay(data: seq<SabinData>, files: map<string, seq<SabinRow>>, p: string)
    requires Saved(FormatAll(data), files) && p in files
    ensures exists i :: 0 <= i < |data| && p == FilePath(DmyDate(data[i].dataAtendimento))
  {
    var rows := FormatAll(data);
    var d :| d in Dates(rows) && FilePath(d) == p && files[p] == OnDate(rows, d);
    var i :| 0 <= i < |rows| && rows[i].dataAtendimento == d;
    FormatAllAt(data, i);
  }

  /**
   * `save_sabin_data`: one file per attendance date; the file of a day
   * holds, in input order, exactly the formatted records attended that day.
   */
  method SaveSabinData(data: seq<SabinData>) returns (files: map<string, seq<SabinRow>>)
    ensures forall p :: p in files <==> exists i :: 0 <= i < |data| && p == FilePath(DmyDate(data[i].dataAtendimento))
    ensures forall i :: 0 <= i < |data| ==>
      files[FilePath(DmyDate(data[i].dataAtendimento))] == FormatAll(AttendedOn(data, data[i].dataAtendimento))
  {
    var rows := FormatSabinData(data);
    files := SaveByDate(rows);
    forall i | 0 <= i < |data|
      ensures FilePath(DmyDate(data[i].dataAtendimento)) in files
      ensures files[FilePath(DmyDate(data[i].dataAtendimento))] == FormatAll(AttendedOn(data, data[i].dataAtendimento))
    {
      FileOfDay(data, files, i);
    }
    forall p | p in files ensures exists i :: 0 <= i < |data| && p == FilePath(DmyDate(data[i].dataAtendimento)) {
      FileHasDay(data, files, p);
    }
  }
}
