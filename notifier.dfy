/**
 * The daily upload summary of manager/app/notifier/notifier.py: the window
 * that starts on the most recent Friday, the rows the query keeps, the
 * project-by-lab grid that starts red and turns green per uploaded file, and
 * the Slack block layout of the report.
 *
 * Days are numbered from 1970-01-01 (a Thursday), as SQLite's date functions
 * count them; the header's clock text is a parameter.
 */
module Notifier {
  import opened Common
  import opened Text

  const Labs: seq<string> := ["fleury", "einstein", "sabin", "hlagyn", "hilab", "hpardini", "dbmol"]
  const Projects: seq<string> := ["arbo", "respat"]

  // ---------------------------------------------------------------------
  // The reporting window
  // ---------------------------------------------------------------------

  /** `strftime('%w', day)`: 0 is Sunday, 5 is Friday. */
  function Weekday(day: int): (w: int)
    ensures 0 <= w < 7
  {
    (day + 4) % 7
  }

  const Friday := 5

  /** `(strftime('%w', 'now') + 2) % 7`: how many days back the last Friday was. */
  function FridayOffset(w: int): (k: int)
    requires 0 <= w < 7
    ensures 0 <= k <= 6
    ensures k == 0 <==> w == Friday
  {
    (w + 2) % 7
  }

  /** `DATE('now', '-' || offset || ' days')`: the first day of the window. */
  function WindowStart(today: int): int {
    today - FridayOffset(Weekday(today))
  }

  /**
   * The window starts on a Friday, at most six days back, and no later day
   * up to today is a Friday: it is the most recent Friday on or before today.
   */
  lemma WindowStartIsLastFriday(today: int)
    ensures Weekday(WindowStart(today)) == Friday
    ensures today - 6 <= WindowStart(today) <= today
    ensures WindowStart(today) == today <==> Weekday(today) == Friday
    ensures forall d :: WindowStart(today) < d <= today ==> Weekday(d) != Friday
  {
    var start := WindowStart(today);
    forall d | start < d <= today ensures Weekday(d) != Friday {
      var k := d - start;
      assert 1 <= k <= 6;
      assert Weekday(d) == (Weekday(start) + k) % 7;
    }
  }

  // ---------------------------------------------------------------------
  // The query's rows
  // ---------------------------------------------------------------------

  /** A row of the query: project, organization, filename and the day of upload_ts. */
  datatype Row = Row(project: string, organization: string, filename: string, uploadDay: int)

  /** The query's WHERE clause. */
  predicate Counts(r: Row, today: int) {
    r.organization in Labs && r.uploadDay >= WindowStart(today)
  }

  /** The rows of the `file` table the query returns, in table order. */
  function Select(rows: seq<Row>, today: int): (out: seq<Row>)
    ensures forall x :: x in out <==> x in rows && Counts(x, today)
  {
    if rows == [] then []
    else
      var last := rows[|rows| - 1];
      assert rows == rows[..|rows| - 1] + [last];
      Select(rows[..|rows| - 1], today) + (if Counts(last, today) then [last] else [])
  }

  // ---------------------------------------------------------------------
  // The summary grid
  // ---------------------------------------------------------------------

  /**
   * The keys of the summary: project names and lab names, in the order the
   * dictionaries were built (Python dictionaries keep insertion order).
   */
  datatype Roster = Roster(projects: seq<string>, labs: seq<string>)

  /** The roster the module declares. */
  const Declared := Roster(Projects, Labs)

  datatype Light = Red | Green

  datatype Entry = Entry(status: Light, files: seq<string>)

  type Grid = map<string, map<string, Entry>>

  /** One entry per lab of the roster. */
  ghost predicate LabKeys(row: map<string, Entry>, labs: seq<string>) {
    forall l :: l in row <==> l in labs
  }

  /** Exactly one entry per project and lab of the roster. */
  ghost predicate GridShape(g: Grid, ro: Roster) {
    && (forall p :: p in g <==> p in ro.projects)
    && (forall p :: p in g ==> LabKeys(g[p], ro.labs))
  }

  /** The grid before any row is read: every entry red with no files. */
  function InitialGrid(ro: Roster): (g: Grid)
    ensures GridShape(g, ro)
    ensures forall p, l :: p in g && l in g[p] ==> g[p][l] == Entry(Red, [])
  {
    map p | p in ro.projects :: map l | l in ro.labs :: Entry(Red, [])
  }

  /** `filename.split('__')[-1]`. */
  function ShownName(filename: string): string {
    LastPiece(filename, "__")
  }

  predicate Matches(r: Row, p: string, l: string) {
    r.project == p && r.organization == l
  }

  predicate HasRow(rows: seq<Row>, p: string, l: string) {
    exists i :: 0 <= i < |rows| && Matches(rows[i], p, l)
  }

  /** The names listed under project `p` and lab `l`, in row order. */
  function FilesFor(rows: seq<Row>, p: string, l: string): seq<string> {
    if rows == [] then []
    else
      var last := rows[|rows| - 1];
      FilesFor(rows[..|rows| - 1], p, l) + (if Matches(last, p, l) then [ShownName(last.filename)] else [])
  }

  /** The entry the loop leaves for project `p` and lab `l` after `rows`. */
  function EntryFor(rows: seq<Row>, p: string, l: string): Entry {
    Entry(if HasRow(rows, p, l) then Green else Red, FilesFor(rows, p, l))
  }

  /** The grid the loop should produce from `rows`: every entry is `EntryFor`. */
  function Summary(rows: seq<Row>, ro: Roster): Grid {
    map p | p in ro.projects :: map l | l in ro.labs :: EntryFor(rows, p, l)
  }

  /** Every row's project and organization are keys of the grid. */
  predicate AllKnown(rows: seq<Row>, ro: Roster) {
    forall i :: 0 <= i < |rows| ==> rows[i].project in ro.projects && rows[i].organization in ro.labs
  }

  /** Listing the files of two batches of rows lists the first batch's first. */
  lemma {:induction false} FilesForAppend(a: seq<Row>, b: seq<Row>, p: string, l: string)
    ensures FilesFor(a + b, p, l) == FilesFor(a, p, l) + FilesFor(b, p, l)
    decreases |b|
  {
    if b == [] {
      assert a + b == a;
    } else {
      var ab := a + b;
      assert ab[..|ab| - 1] == a + b[..|b| - 1];
      FilesForAppend(a, b[..|b| - 1], p, l);
    }
  }

  /** An entry lists a file exactly when some row has its project and lab. */
  lemma {:induction false} FilesForNonEmpty(rows: seq<Row>, p: string, l: string)
    ensures |FilesFor(rows, p, l)| > 0 <==> HasRow(rows, p, l)
    decreases |rows|
  {
    if rows != [] {
      var front := rows[..|rows| - 1];
      FilesForNonEmpty(front, p, l);
      if HasRow(front, p, l) {
        var i :| 0 <= i < |front| && Matches(front[i], p, l);
        assert Matches(rows[i], p, l);
      }
      if HasRow(rows, p, l) && !Matches(rows[|rows| - 1], p, l) {
        var i :| 0 <= i < |rows| && Matches(rows[i], p, l);
        assert Matches(front[i], p, l);
      }
    }
  }

  /** So in the summary an entry is green exactly when it lists some file. */
  lemma GreenIffFiles(rows: seq<Row>, p: string, l: string)
    ensures EntryFor(rows, p, l).status == Green <==> |EntryFor(rows, p, l).files| > 0
  {
    FilesForNonEmpty(rows, p, l);
  }

  /** One more row: the entry it names turns green and gains its name; no other changes. */
  lemma EntryForStep(rows: seq<Row>, i: nat, p: string, l: string)
    requires i < |rows|
    ensures EntryFor(rows[..i + 1], p, l)
            == if Matches(rows[i], p, l)
               then Entry(Green, EntryFor(rows[..i], p, l).files + [ShownName(rows[i].filename)])
               else EntryFor(rows[..i], p, l)
  {
    var next := rows[..i + 1];
    assert next[..i] == rows[..i];
    assert next[i] == rows[i];
    if HasRow(rows[..i], p, l) {
      var k :| 0 <= k < i && Matches(rows[..i][k], p, l);
      assert Matches(next[k], p, l);
    }
    if HasRow(next, p, l) && !Matches(rows[i], p, l) {
      var k :| 0 <= k < i + 1 && Matches(next[k], p, l);
      assert Matches(rows[..i][k], p, l);
    }
  }

  /** Each entry of `g` is the one `rows` leave. */
  ghost predicate Tracks(g: Grid, rows: seq<Row>) {
    forall p, l :: p in g && l in g[p] ==> g[p][l] == EntryFor(rows, p, l)
  }

  /** A grid of the roster's shape whose entries are those `rows` leave is their summary. */
  lemma TracksIsSummary(g: Grid, rows: seq<Row>, ro: Roster)
    requires GridShape(g, ro) && Tracks(g, rows)
    ensures g == Summary(rows, ro)
  {
    var s := Summary(rows, ro);
    forall p | p in g ensures g[p] == s[p] {
      assert g[p].Keys == s[p].Keys;
    }
    assert g.Keys == s.Keys;
  }

  /** `summary[project][organization]` turned green with the row's shown name added. */
  function AddFile(g: Grid, row: Row): Grid
    requires row.project in g && row.organization in g[row.project]
  {
    var e := g[row.project][row.organization];
    g[row.project := g[row.project][row.organization := Entry(Green, e.files + [ShownName(row.filename)])]]
  }

  /** Adding row `i` keeps the shape and moves the tracked prefix one row on. */
  lemma AddFileStep(g: Grid, ro: Roster, rows: seq<Row>, i: nat)
    requires i < |rows| && GridShape(g, ro) && Tracks(g, rows[..i])
    requires rows[i].project in g && rows[i].organization in g[rows[i].project]
    ensures GridShape(AddFile(g, rows[i]), ro) && Tracks(AddFile(g, rows[i]), rows[..i + 1])
  {
    var g' := AddFile(g, rows[i]);
    forall p, l | p in g' && l in g'[p] ensures g'[p][l] == EntryFor(rows[..i + 1], p, l) {
      EntryForStep(rows, i, p, l);
    }
  }

  /** Before any row is read, the grid is the summary of no rows. */
  lemma InitialIsSummary(ro: Roster)
    ensures InitialGrid(ro) == Summary([], ro)
  {
    TracksIsSummary(InitialGrid(ro), [], ro);
  }

  /** Reading row `i` into the summary of the rows before it gives the summary of one row more. */
  lemma SummaryStep(rows: seq<Row>, ro: Roster, i: nat)
    requires i < |rows| && rows[i].project in ro.projects && rows[i].organization in ro.labs
    ensures rows[i].project in Summary(rows[..i], ro)
    ensures rows[i].organization in Summary(rows[..i], ro)[rows[i].project]
    ensures AddFile(Summary(rows[..i], ro), rows[i]) == Summary(rows[..i + 1], ro)
  {
    var g := Summary(rows[..i], ro);
    assert GridShape(g, ro) && Tracks(g, rows[..i]);
    AddFileStep(g, ro, rows, i);
    TracksIsSummary(AddFile(g, rows[i]), rows[..i + 1], ro);
  }

  /**
   * The loop of `create_summary` over the query's rows.  It fails with the
   * missing key exactly when some row's project or organization is not in
   * the roster; otherwise the grid is the summary of the rows: each entry
   * is green iff some row has its project and lab, and lists those rows'
   * shown names in row order.
   */
  method FillSummary(rows: seq<Row>, ro: Roster) returns (r: Result<Grid, string>)
    ensures r.Ok? <==> AllKnown(rows, ro)
    ensures r.Ok? ==> r.value == Summary(rows, ro)
    ensures r.Err? ==> exists i :: 0 <= i < |rows| && (r.error == rows[i].project || r.error == rows[i].organization)
  {
    var grid := InitialGrid(ro);
    InitialIsSummary(ro);
    var i := 0;
    while i < |rows|
      invariant 0 <= i <= |rows|
      invariant AllKnown(rows[..i], ro)
      invariant grid == Summary(rows[..i], ro)
    {
      var row := rows[i];
      FillStep(rows, ro, i);
      if row.project !in grid {
        assert 0 <= i < |rows| && row.project == rows[i].project;
        return Err(row.project);
      }
      if row.organization !in grid[row.project] {
        assert 0 <= i < |rows| && row.organization == rows[i].organization;
        return Err(row.organization);
      }
      grid := AddFile(grid, row);
      i := i + 1;
    }
    assert rows[..i] == rows;
    r := Ok(grid);
  }

  /**
   * One turn of the filling loop: a row whose project or lab is not in the
   * summary makes the whole batch unknown; any other row is added, keeping
   * the summary of the rows read so far.
   */
  lemma FillStep(rows: seq<Row>, ro: Roster, i: nat)
    requires i < |rows| && AllKnown(rows[..i], ro)
    ensures var g, row := Summary(rows[..i], ro), rows[i];
      && (row.project in g <==> row.project in ro.projects)
      && (row.project in g ==> (row.organization in g[row.project] <==> row.organization in ro.labs))
      && (row.project !in ro.projects || row.organization !in ro.labs ==> !AllKnown(rows, ro))
      && (row.project in ro.projects && row.organization in ro.labs ==>
            && row.project in g && row.organization in g[row.project]
            && AddFile(g, row) == Summary(rows[..i + 1], ro) && AllKnown(rows[..i + 1], ro))
  {
    if rows[i].project in ro.projects && rows[i].organization in ro.labs {
      SummaryStep(rows, ro, i);
      AllKnownStep(rows, ro, i);
    }
  }

  lemma AllKnownStep(rows: seq<Row>, ro: Roster, i: nat)
    requires i < |rows| && AllKnown(rows[..i], ro)
    requires rows[i].project in ro.projects && rows[i].organization in ro.labs
    ensures AllKnown(rows[..i + 1], ro)
  {
    assert forall k :: 0 <= k < i ==> rows[..i + 1][k] == rows[..i][k];
  }

  /**
   * The query filters organization but not project, so on its rows the loop
   * with the declared roster fails exactly when some row's project is not
   * `arbo` or `respat`.
   */
  lemma SelectedRowsFailOnlyOnProject(rows: seq<Row>, today: int)
    ensures AllKnown(Select(rows, today), Declared) <==>
            forall x :: x in Select(rows, today) ==> x.project in Projects
  {
    var out := Select(rows, today);
    if forall x :: x in out ==> x.project in Projects {
      forall i | 0 <= i < |out| ensures out[i].project in Projects && out[i].organization in Labs {
        assert out[i] in out;
      }
    }
  }

  // ---------------------------------------------------------------------
  // The Slack report
  // ---------------------------------------------------------------------

  datatype Block = Header(text: string) | Divider | Section(markdown: string)

  const TitlePrefix := "Arquivos enviados pelos laboratórios\nResumo Diário - "

  function Icon(s: Light): string {
    match s
    case Red => "\U{1F534}"
    case Green => "\U{1F7E2}"
  }

  /** `f"{status} *{organization.upper()}* \n {files}"` with the names joined by newlines. */
  function SectionText(e: Entry, lab: string): string {
    Icon(e.status) + " *" + Upper(lab) + "* \n " + Join("\n", e.files)
  }

  /** One section per lab, in roster order. */
  function LabSections(row: map<string, Entry>, labs: seq<string>): (bs: seq<Block>)
    requires forall l :: l in labs ==> l in row
    ensures |bs| == |labs|
  {
    if labs == [] then []
    else
      var l := labs[|labs| - 1];
      LabSections(row, labs[..|labs| - 1]) + [Section(SectionText(row[l], l))]
  }

  /** A project's part: its capitalized name, its lab sections and a divider. */
  function ProjectPart(g: Grid, ro: Roster, p: string): seq<Block>
    requires GridShape(g, ro) && p in ro.projects
  {
    [Header(Capitalize(p))] + LabSections(g[p], ro.labs) + [Divider]
  }

  function ProjectParts(g: Grid, ro: Roster, ps: seq<string>): seq<Block>
    requires GridShape(g, ro) && forall p :: p in ps ==> p in ro.projects
  {
    if ps == [] then [] else ProjectParts(g, ro, ps[..|ps| - 1]) + ProjectPart(g, ro, ps[|ps| - 1])
  }

  /** The whole report: title header and divider, then each project's part. */
  function Report(g: Grid, ro: Roster, clock: string): seq<Block>
    requires GridShape(g, ro)
  {
    [Header(TitlePrefix + clock), Divider] + ProjectParts(g, ro, ro.projects)
  }

  lemma {:induction false} ProjectPartsLength(g: Grid, ro: Roster, ps: seq<string>)
    requires GridShape(g, ro) && forall p :: p in ps ==> p in ro.projects
    ensures |ProjectParts(g, ro, ps)| == |ps| * (|ro.labs| + 2)
    decreases |ps|
  {
    if ps != [] {
      var n, k := |ps|, |ro.labs| + 2;
      ProjectPartsLength(g, ro, ps[..n - 1]);
      assert |ProjectPart(g, ro, ps[n - 1])| == k;
      MulStep(n, k);
    }
  }

  lemma MulStep(n: int, k: int)
    ensures n * k == (n - 1) * k + k
  {
  }

  /** The report has `2 + |projects| * (|labs| + 2)` blocks. */
  lemma ReportLength(g: Grid, ro: Roster, clock: string)
    requires GridShape(g, ro)
    ensures |Report(g, ro, clock)| == 2 + |ro.projects| * (|ro.labs| + 2)
  {
    ProjectPartsLength(g, ro, ro.projects);
  }

  /** With the two projects and seven labs the module declares, the report has 20 blocks. */
  lemma DeclaredReportLength(g: Grid, clock: string)
    requires GridShape(g, Declared)
    ensures |Report(g, Declared, clock)| == 20
  {
    ReportLength(g, Declared, clock);
    assert |Declared.projects| == 2 && |Declared.labs| == 7;
  }

  lemma LabSectionsStep(row: map<string, Entry>, labs: seq<string>, j: nat)
    requires j < |labs| && LabKeys(row, labs)
    ensures LabSections(row, labs[..j + 1]) == LabSections(row, labs[..j]) + [Section(SectionText(row[labs[j]], labs[j]))]
  {
    assert labs[..j + 1][..j] == labs[..j];
  }

  lemma ProjectPartsStep(g: Grid, ro: Roster, i: nat)
    requires i < |ro.projects| && GridShape(g, ro)
    ensures ProjectParts(g, ro, ro.projects[..i + 1]) == ProjectParts(g, ro, ro.projects[..i]) + ProjectPart(g, ro, ro.projects[i])
  {
    assert ro.projects[..i + 1][..i] == ro.projects[..i];
  }

  lemma ConcatAssoc(a: seq<Block>, b: seq<Block>, c: seq<Block>)
    ensures a + (b + c) == (a + b) + c
  {
  }

  /** Appending a project's header, lab sections and divider extends the report by that project's part. */
  lemma ProjectAppended(g: Grid, ro: Roster, title: seq<Block>, i: nat)
    requires GridShape(g, ro) && i < |ro.projects|
    ensures var p := ro.projects[i];
      title + ProjectParts(g, ro, ro.projects[..i]) + [Header(Capitalize(p))] + LabSections(g[p], ro.labs) + [Divider]
      == title + ProjectParts(g, ro, ro.projects[..i + 1])
  {
    var p := ro.projects[i];
    var done, head, labs := ProjectParts(g, ro, ro.projects[..i]), [Header(Capitalize(p))], LabSections(g[p], ro.labs);
    ConcatAssoc(title + done, head, labs);
    ConcatAssoc(title + done, head + labs, [Divider]);
    ConcatAssoc(title, done, head + labs + [Divider]);
    ProjectPartsStep(g, ro, i);
  }

  /** The inner loop of `create_summary`: one section per lab, in roster order, appended to `before`. */
  method AppendLabSections(before: seq<Block>, row: map<string, Entry>, labs: seq<string>) returns (blocks: seq<Block>)
    requires LabKeys(row, labs)
    ensures blocks == before + LabSections(row, labs)
  {
    blocks := before;
    var j := 0;
    assert labs[..0] == [];
    while j < |labs|
      invariant 0 <= j <= |labs|
      invariant blocks == before + LabSections(row, labs[..j])
    {
      var l := labs[j];
      var section := [Section(SectionText(row[l], l))];
      LabSectionsStep(row, labs, j);
      ConcatAssoc(before, LabSections(row, labs[..j]), section);
      blocks := blocks + section;
      j := j + 1;
    }
    assert labs[..j] == labs;
  }

  /** The report-building loops of `create_summary`. */
  method Render(g: Grid, ro: Roster, clock: string) returns (blocks: seq<Block>)
    requires GridShape(g, ro)
    ensures blocks == Report(g, ro, clock)
  {
    var title := [Header(TitlePrefix + clock), Divider];
    blocks := title;
    var i := 0;
    assert ro.projects[..0] == [];
    while i < |ro.projects|
      invariant 0 <= i <= |ro.projects|
      invariant blocks == title + ProjectParts(g, ro, ro.projects[..i])
    {
      var p := ro.projects[i];
      assert p in g && LabKeys(g[p], ro.labs);
      blocks := blocks + [Header(Capitalize(p))];
      blocks := AppendLabSections(blocks, g[p], ro.labs);
      blocks := blocks + [Divider];
      ProjectAppended(g, ro, title, i);
      i := i + 1;
    }
    assert ro.projects[..i] == ro.projects;
  }

  /**
   * `create_summary` end to end on the rows of the `file` table: it fails
   * exactly when a selected row's project is outside the declared roster,
   * and otherwise gives the 20-block report of the summary of the selected
   * rows.
   */
  method CreateSummary(table: seq<Row>, today: int, clock: string) returns (r: Result<seq<Block>, string>)
    ensures r.Ok? <==> forall x :: x in Select(table, today) ==> x.project in Projects
    ensures r.Ok? ==> GridShape(Summary(Select(table, today), Declared), Declared)
    ensures r.Ok? ==> r.value == Report(Summary(Select(table, today), Declared), Declared, clock)
    ensures r.Ok? ==> |r.value| == 20
  {
    var rows := Select(table, today);
    SelectedRowsFailOnlyOnProject(table, today);
    var grid := FillSummary(rows, Declared);
    if grid.Err? {
      return Err(grid.error);
    }
    var blocks := Render(grid.value, Declared, clock);
    DeclaredReportLength(grid.value, clock);
    r := Ok(blocks);
  }
}
