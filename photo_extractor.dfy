/** The shared-library asset extractor as a whole: the version checks, the
    query in the layout they select, the row copy and the report or the
    "no assets" log line. */
module PhotoExtractor {

  import opened Common
  import opened Versions
  import opened PhotoQuery
  import opened PhotoLayouts
  import opened PhotoHeaders

  const UnsupportedPrefix: string :=
    "Unsupported version for iCloud Shared Photo Library assets from PhotoData-Photos.sqlite from iOS "

  const NoAssetsMessage: string :=
    "No assets in iCloud Shared Photo Library found in PhotoData-Photos.sqlite ZSHARE table"

  /** What one invocation leaves behind: the log lines in order, whether the
      database was opened, and the report table when one is written. */
  datatype Run = Run(logs: seq<string>, openedDatabase: bool, report: Option<Table>)

  function Width(l: Layout): nat
  {
    match l
    case LayoutA => 52
    case LayoutB => 55
  }

  function Headers(l: Layout): seq<string>
  {
    match l
    case LayoutA => HeadersA
    case LayoutB => HeadersB
  }

  function Project(l: Layout, j: JoinedRow): (r: seq<Value>)
    ensures |r| == Width(l)
  {
    match l
    case LayoutA => ProjectA(j)
    case LayoutB => ProjectB(j)
  }

  /** `cursor.fetchall()` on the layout's query: the projected rows, in the
      query's order. */
  function Fetch(l: Layout, db: Database): (rows: seq<seq<Value>>)
    ensures |rows| == |Query(db)|
    ensures forall i :: 0 <= i < |rows| ==> rows[i] == Project(l, Query(db)[i])
  {
    var q := Query(db);
    seq(|q|, i requires 0 <= i < |q| => Project(l, q[i]))
  }

  /** What the extractor does, stated on values: the unsupported check is an
      `if` of its own; the layout checks follow as `if`/`elif`. */
  function ExpectedRun(v: Version, versionText: string, db: Database): (run: Run)
    ensures run.openedDatabase <==> Dispatch(v).layout.Some?
    ensures run.report.Some? ==>
      run.openedDatabase && Aligned(run.report.value) && |run.report.value.rows| == |Query(db)| > 0
    ensures run.openedDatabase ==> (run.report.Some? <==> |Query(db)| > 0)
    ensures run.logs ==
      (if Dispatch(v).logsUnsupported then [UnsupportedPrefix + versionText] else []) +
      (if run.openedDatabase && run.report.None? then [NoAssetsMessage] else [])
  {
    HeaderArities();
    var d := Dispatch(v);
    var logs := if d.logsUnsupported then [UnsupportedPrefix + versionText] else [];
    match d.layout
    case None => Run(logs, false, None)
    case Some(l) =>
      var rows := Fetch(l, db);
      if |rows| > 0 then Run(logs, true, Some(Table(Headers(l), rows)))
      else Run(logs + [NoAssetsMessage], true, None)
  }

  /** The loop over `all_rows`: each row is copied column by column, 0 up to
      width - 1, and counted. */
  method CopyRows(allRows: seq<seq<Value>>, width: nat) returns (dataList: seq<seq<Value>>, counter: nat)
    requires forall i :: 0 <= i < |allRows| ==> width <= |allRows[i]|
    ensures counter == |dataList| == |allRows|
    ensures forall i :: 0 <= i < |allRows| ==> dataList[i] == allRows[i][..width]
  {
    dataList := [];
    counter := 0;
    var n := 0;
    while n < |allRows|
      invariant 0 <= n <= |allRows|
      invariant counter == |dataList| == n
      invariant forall i :: 0 <= i < n ==> dataList[i] == allRows[i][..width]
    {
      dataList := dataList + [allRows[n][..width]];
      counter := counter + 1;
      n := n + 1;
    }
  }

  /** One invocation of the extractor on an iOS version (parsed and as text)
      and a database. */
  method ExtractSharedLibraryAssets(v: Version, versionText: string, db: Database) returns (run: Run)
    ensures run == ExpectedRun(v, versionText, db)
  {
    var logs: seq<string> := [];
    if Le(v, LastUnsupported) {
      logs := logs + [UnsupportedPrefix + versionText];
    }
    var layout: Option<Layout> := None;
    if Le(LayoutAFrom, v) && Lt(v, LayoutBFrom) {
      layout := Some(LayoutA);
    } else if Le(LayoutBFrom, v) {
      layout := Some(LayoutB);
    }
    if layout.None? {
      return Run(logs, false, None);
    }
    var l := layout.value;
    var allRows := Fetch(l, db);
    var dataList, counter := CopyRows(allRows, Width(l));
    assert dataList == allRows by {
      forall i | 0 <= i < |allRows| ensures dataList[i] == allRows[i] {
        assert |allRows[i]| == Width(l);
      }
    }
    assert layout == Dispatch(v).layout;
    if |allRows| > 0 {
      run := Run(logs, true, Some(Table(Headers(l), dataList)));
    } else {
      run := Run(logs + [NoAssetsMessage], true, None);
    }
  }

  // ---------------------------------------------------------------------
  // What a run promises.

  /** A report has one row per joined row of the query, in the query's
      order, each as wide as its header row. */
  lemma ReportMatchesQuery(v: Version, versionText: string, db: Database)
    requires ExpectedRun(v, versionText, db).report.Some?
    ensures var t := ExpectedRun(v, versionText, db).report.value;
      var l := Dispatch(v).layout.value;
      Aligned(t) && t.headers == Headers(l) && |t.rows| == |Query(db)| > 0 &&
      forall i :: 0 <= i < |t.rows| ==> t.rows[i] == Project(l, Query(db)[i])
  {
    HeaderArities();
  }

  /** An unsupported version is logged and nothing else happens. */
  lemma UnsupportedRunOnlyLogs(v: Version, versionText: string, db: Database)
    requires Le(v, LastUnsupported)
    ensures ExpectedRun(v, versionText, db) ==
      Run([UnsupportedPrefix + versionText], false, None)
  {
    UnsupportedOpensNothing(v);
  }

  /** A version between 15.8.2 and 16 leaves no trace at all. */
  lemma GapRunIsSilent(v: Version, versionText: string, db: Database)
    requires Lt(LastUnsupported, v) && Lt(v, LayoutAFrom)
    ensures ExpectedRun(v, versionText, db) == Run([], false, None)
  {
    GapMatchesNothing(v);
  }

  /** A supported version opens the database and either writes a report or
      logs that there are no assets, never both and never neither. */
  lemma SupportedRunReportsOrLogs(v: Version, versionText: string, db: Database)
    requires Le(LayoutAFrom, v)
    ensures var run := ExpectedRun(v, versionText, db);
      run.openedDatabase &&
      (run.report.Some? <==> |Query(db)| > 0) &&
      (run.report.None? <==> run.logs == [NoAssetsMessage])
  {
    SupportedOpensOneLayout(v);
  }

  /** Each asset of the active library scope gives as many report rows as
      it has contributors (one when it has none). */
  lemma ReportRowCount(v: Version, versionText: string, db: Database)
    requires ExpectedRun(v, versionText, db).report.Some?
    ensures |ExpectedRun(v, versionText, db).report.value.rows| == ExpectedRowCount(db, db.assets)
  {
    QueryContract(db);
  }
}
