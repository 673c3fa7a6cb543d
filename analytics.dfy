/** The dashboard figures and the export of app/services/analytics_service.py, computed
    from the rows of the hot and cold fact tables. Each SQL query is a function over the
    rows it reads. */
module Analytics {

  /** A row of the hot fact table (the AI confidence column is not modelled). */
  datatype HotFactReport = HotFactReport(
    reportId: string, status: string, categoryId: string, isAnonymous: bool, createdAt: int)

  /** A row of the cold fact table. */
  datatype ColdFactReport = ColdFactReport(reportId: string)

  /** The cold table as its count query sees it: its rows, or a query that raises. */
  datatype ColdTable = Available(rows: seq<ColdFactReport>) | QueryFails

  /** The dashboard KPIs (the average AI confidence is not modelled). */
  datatype DashboardStats = DashboardStats(
    totalReports: int, hotReports: int, coldReports: int,
    statusBreakdown: map<string, nat>, categoryBreakdown: map<string, nat>,
    anonymousReports: int, registeredReports: int)

  /** The export returns at most this many rows. */
  const ExportLimit: nat := 10000

  /** The group-by keys of the two breakdowns. */
  function StatusOf(r: HotFactReport): string { r.status }
  function CategoryOf(r: HotFactReport): string { r.categoryId }

  /** `COUNT(reportId) ... WHERE isAnonymous` */
  function CountAnonymous(rows: seq<HotFactReport>): (n: nat)
    ensures n <= |rows|
  {
    if rows == [] then 0
    else CountAnonymous(rows[..|rows| - 1]) + (if rows[|rows| - 1].isAnonymous then 1 else 0)
  }

  /** The number of rows whose key is `k`. */
  function CountKey(rows: seq<HotFactReport>, key: HotFactReport -> string, k: string): nat {
    if rows == [] then 0
    else CountKey(rows[..|rows| - 1], key, k) + (if key(rows[|rows| - 1]) == k then 1 else 0)
  }

  /** `GROUP BY key` with `COUNT(reportId)`, collected into a dictionary. */
  function GroupCount(rows: seq<HotFactReport>, key: HotFactReport -> string): map<string, nat> {
    if rows == [] then map[]
    else
      var m := GroupCount(rows[..|rows| - 1], key);
      var k := key(rows[|rows| - 1]);
      m[k := (if k in m then m[k] else 0) + 1]
  }

  /** The sum of a dictionary's values. */
  ghost function MapSum(m: map<string, nat>): nat
    decreases |m|
  {
    if m == map[] then 0
    else
      var k :| k in m;
      m[k] + MapSum(m - {k})
  }

  /** The dashboard figures. The total is the hot count plus the cold count, and a cold
      query that raises counts as 0; registered reports are the hot ones that are not
      anonymous. */
  function GetDashboardStats(hot: seq<HotFactReport>, cold: ColdTable): (s: DashboardStats)
    ensures s.totalReports == s.hotReports + s.coldReports
    ensures s.hotReports == |hot|
    ensures s.coldReports == (if cold.Available? then |cold.rows| else 0)
    ensures s.anonymousReports == CountAnonymous(hot)
    ensures s.anonymousReports + s.registeredReports == s.hotReports
    ensures 0 <= s.anonymousReports <= s.hotReports && 0 <= s.registeredReports
  {
    var hotCount := |hot|;
    var coldCount := if cold.Available? then |cold.rows| else 0;
    var anonymousCount := CountAnonymous(hot);
    DashboardStats(
      hotCount + coldCount, hotCount, coldCount,
      GroupCount(hot, StatusOf), GroupCount(hot, CategoryOf),
      anonymousCount, hotCount - anonymousCount)
  }

  /** The positions of the anonymous rows, and of the others. */
  ghost function AnonymousPositions(rows: seq<HotFactReport>): set<int> {
    set i | 0 <= i < |rows| && rows[i].isAnonymous
  }
  ghost function RegisteredPositions(rows: seq<HotFactReport>): set<int> {
    set i | 0 <= i < |rows| && !rows[i].isAnonymous
  }

  /** The anonymous count is the number of anonymous rows, and what is left of the row
      count is the number of rows that are not anonymous. */
  lemma {:induction false} CountAnonymousCountsRows(rows: seq<HotFactReport>)
    ensures CountAnonymous(rows) == |AnonymousPositions(rows)|
    ensures |rows| - CountAnonymous(rows) == |RegisteredPositions(rows)|
  {
    if rows != [] {
      var n := |rows| - 1;
      var init := rows[..n];
      CountAnonymousCountsRows(init);
      if rows[n].isAnonymous {
        assert AnonymousPositions(rows) == AnonymousPositions(init) + {n};
        assert RegisteredPositions(rows) == RegisteredPositions(init);
      } else {
        assert AnonymousPositions(rows) == AnonymousPositions(init);
        assert RegisteredPositions(rows) == RegisteredPositions(init) + {n};
      }
    }
  }

  /** The dashboard's anonymous figure counts the anonymous hot rows and its registered
      figure counts the other hot rows. */
  lemma AnonymousRegisteredSplit(hot: seq<HotFactReport>, cold: ColdTable)
    ensures var s := GetDashboardStats(hot, cold);
      && s.anonymousReports == |AnonymousPositions(hot)|
      && s.registeredReports == |RegisteredPositions(hot)|
  {
    CountAnonymousCountsRows(hot);
  }

  // ----- group-by counts partition the hot rows -----

  /** Removing any one key takes exactly its value off the sum. */
  lemma {:induction false} MapSumRemove(m: map<string, nat>, k: string)
    requires k in m
    ensures MapSum(m) == m[k] + MapSum(m - {k})
    decreases |m|
  {
    var j :| j in m && MapSum(m) == m[j] + MapSum(m - {j});
    if j != k {
      var mj := m - {j};
      var mk := m - {k};
      MapSumRemove(mj, k);
      MapSumRemove(mk, j);
      assert mj - {k} == mk - {j};
    }
  }

  /** One key per distinct key value among the rows, each mapped to the number of rows
      with that value. */
  lemma {:induction false} GroupCountEntries(rows: seq<HotFactReport>, key: HotFactReport -> string)
    ensures GroupCount(rows, key).Keys == set i | 0 <= i < |rows| :: key(rows[i])
    ensures forall k :: k in GroupCount(rows, key) ==>
      GroupCount(rows, key)[k] == CountKey(rows, key, k) && GroupCount(rows, key)[k] > 0
    ensures forall k :: k !in GroupCount(rows, key) ==> CountKey(rows, key, k) == 0
  {
    if rows != [] {
      var init := rows[..|rows| - 1];
      GroupCountEntries(init, key);
      assert (set i | 0 <= i < |rows| :: key(rows[i]))
          == (set i | 0 <= i < |init| :: key(init[i])) + {key(rows[|rows| - 1])};
    }
  }

  /** The counts of a group-by add up to the number of rows. */
  lemma {:induction false} GroupCountSum(rows: seq<HotFactReport>, key: HotFactReport -> string)
    ensures MapSum(GroupCount(rows, key)) == |rows|
  {
    if rows != [] {
      var init := rows[..|rows| - 1];
      var m := GroupCount(init, key);
      var k := key(rows[|rows| - 1]);
      var m' := GroupCount(rows, key);
      GroupCountSum(init, key);
      MapSumRemove(m', k);
      if k in m {
        MapSumRemove(m, k);
        assert m' - {k} == m - {k};
      } else {
        assert m' - {k} == m;
      }
    }
  }

  /** The status breakdown has one key per status among the hot rows, counts the rows of
      each, and its counts add up to the hot count. */
  lemma StatusBreakdownPartitions(hot: seq<HotFactReport>, cold: ColdTable)
    ensures var s := GetDashboardStats(hot, cold);
      && s.statusBreakdown.Keys == (set i | 0 <= i < |hot| :: hot[i].status)
      && (forall k :: k in s.statusBreakdown ==> s.statusBreakdown[k] == CountKey(hot, StatusOf, k))
      && MapSum(s.statusBreakdown) == s.hotReports
  {
    GroupCountEntries(hot, StatusOf);
    GroupCountSum(hot, StatusOf);
  }

  /** The category breakdown has one key per category among the hot rows, counts the rows
      of each, and its counts add up to the hot count. */
  lemma CategoryBreakdownPartitions(hot: seq<HotFactReport>, cold: ColdTable)
    ensures var s := GetDashboardStats(hot, cold);
      && s.categoryBreakdown.Keys == (set i | 0 <= i < |hot| :: hot[i].categoryId)
      && (forall k :: k in s.categoryBreakdown ==> s.categoryBreakdown[k] == CountKey(hot, CategoryOf, k))
      && MapSum(s.categoryBreakdown) == s.hotReports
  {
    GroupCountEntries(hot, CategoryOf);
    GroupCountSum(hot, CategoryOf);
  }

  // ----- the export -----

  /** Newest first: `createdAt` never increases along the sequence. */
  predicate NewestFirst(rows: seq<HotFactReport>) {
    forall i, j :: 0 <= i < j < |rows| ==> rows[j].createdAt <= rows[i].createdAt
  }

  /** A row at least as new as the head of a newest-first sequence can go in front. */
  lemma PrependNewest(a: HotFactReport, rows: seq<HotFactReport>)
    requires NewestFirst(rows) && (rows != [] ==> rows[0].createdAt <= a.createdAt)
    ensures NewestFirst([a] + rows)
  {
    var r := [a] + rows;
    forall i, j | 0 <= i < j < |r| ensures r[j].createdAt <= r[i].createdAt {
      if i == 0 {
        assert r[j] == rows[j - 1];
      } else {
        assert r[i] == rows[i - 1] && r[j] == rows[j - 1];
      }
    }
  }

  /** Puts a row into a newest-first sequence, before the first row not newer than it. */
  function InsertNewestFirst(x: HotFactReport, rows: seq<HotFactReport>): (r: seq<HotFactReport>)
    requires NewestFirst(rows)
    ensures NewestFirst(r)
    ensures multiset(r) == multiset(rows) + multiset{x}
    ensures r[0] == x || (rows != [] && r[0] == rows[0])
  {
    if rows == [] || rows[0].createdAt <= x.createdAt then
      PrependNewest(x, rows);
      [x] + rows
    else
      var rest := InsertNewestFirst(x, rows[1..]);
      assert rows == [rows[0]] + rows[1..];
      assert NewestFirst(rows[1..]);
      PrependNewest(rows[0], rest);
      [rows[0]] + rest
  }

  /** `ORDER BY createdAt DESC`: the rows, newest first. */
  function OrderByCreatedDesc(rows: seq<HotFactReport>): (r: seq<HotFactReport>)
    ensures NewestFirst(r)
    ensures multiset(r) == multiset(rows)
  {
    if rows == [] then []
    else
      assert rows == [rows[0]] + rows[1..];
      InsertNewestFirst(rows[0], OrderByCreatedDesc(rows[1..]))
  }

  /** Cutting a newest-first sequence leaves nothing behind that is newer than what is
      kept in front. */
  lemma CutNewestFirst(rows: seq<HotFactReport>, n: nat)
    requires NewestFirst(rows) && n <= |rows|
    ensures NewestFirst(rows[..n])
    ensures multiset(rows) - multiset(rows[..n]) == multiset(rows[n..])
    ensures forall x, y :: x in rows[..n] && y in rows[n..] ==> y.createdAt <= x.createdAt
  {
    assert rows == rows[..n] + rows[n..];
    forall x, y | x in rows[..n] && y in rows[n..] ensures y.createdAt <= x.createdAt {
      var i :| 0 <= i < n && rows[..n][i] == x;
      var j :| 0 <= j < |rows| - n && rows[n..][j] == y;
      assert rows[i] == x && rows[n + j] == y;
    }
  }

  /** The export: at most 10,000 hot rows, newest first, drawn from the hot table, and no
      row left out is newer than any row returned. */
  function ExportCsvData(hot: seq<HotFactReport>): (r: seq<HotFactReport>)
    ensures |r| == if |hot| < ExportLimit then |hot| else ExportLimit
    ensures NewestFirst(r)
    ensures multiset(r) <= multiset(hot)
    ensures forall x, y :: x in r && y in multiset(hot) - multiset(r) ==> y.createdAt <= x.createdAt
  {
    var ordered := OrderByCreatedDesc(hot);
    var n := if |ordered| < ExportLimit then |ordered| else ExportLimit;
    CutNewestFirst(ordered, n);
    ordered[..n]
  }
}
