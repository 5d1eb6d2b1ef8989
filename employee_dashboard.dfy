// The employee dashboard: the list request for the chosen filter, the four
// stat cards, the status pill's label and the category cell.

module EmployeeDashboard {
  import opened Base
  import opened Text

  const AllFilter := "all"
  const ListPath := "/employee/grievances"

  /** The list request: the plain path for "all", a status query otherwise. */
  function FetchUrl(filter: string): (url: string)
    ensures StartsWith(url, ListPath)
    ensures filter == AllFilter ==> url == ListPath
    ensures filter != AllFilter ==> url == ListPath + "?status=" + filter
  {
    if filter == AllFilter then ListPath else ListPath + "?status=" + filter
  }

  /** Different filters ask for different URLs. */
  lemma FetchUrlInjective(f: string, g: string)
    requires FetchUrl(f) == FetchUrl(g)
    ensures f == g
  {
    var q := |ListPath + "?status="|;
    if f != AllFilter && g != AllFilter {
      assert f == FetchUrl(f)[q..];
      assert g == FetchUrl(g)[q..];
    }
  }

  /** How many rows carry one of `statuses` exactly (a case-sensitive `===`). */
  function CountExact(gs: seq<Grievance>, statuses: set<string>): (n: nat)
    ensures n <= |gs|
  {
    if gs == [] then 0
    else CountExact(gs[1..], statuses) + (if gs[0].status.Some? && gs[0].status.value in statuses then 1 else 0)
  }

  /** Counting is additive when the status sets do not overlap. */
  lemma {:induction false} CountExactDisjoint(gs: seq<Grievance>, a: set<string>, b: set<string>)
    requires a !! b
    ensures CountExact(gs, a) + CountExact(gs, b) == CountExact(gs, a + b)
  {
    if gs != [] {
      CountExactDisjoint(gs[1..], a, b);
    }
  }

  const PendingStatuses := {"PENDING"}
  const InProgressStatuses := {"IN_PROCESS", "INTENDED_RESOLVE"}
  const ResolvedStatuses := {"RESOLVED"}

  /** The stat cards after a load: the row count and three exact-status counts. */
  function EmployeeStats(gs: seq<Grievance>): (st: Stats)
    ensures st.total == |gs|
  {
    Stats(|gs|, CountExact(gs, PendingStatuses), CountExact(gs, InProgressStatuses),
          CountExact(gs, ResolvedStatuses))
  }

  /** The three counted cards never add up to more than the total. */
  lemma EmployeeStatsWithinTotal(gs: seq<Grievance>)
    ensures EmployeeStats(gs).pending + EmployeeStats(gs).inProgress + EmployeeStats(gs).resolved <= EmployeeStats(gs).total
  {
    CountExactDisjoint(gs, PendingStatuses, InProgressStatuses);
    CountExactDisjoint(gs, PendingStatuses + InProgressStatuses, ResolvedStatuses);
  }

  /**
   * getStatusStyle's label: the upper-cased status picks Pending, In Progress
   * or Resolved; any other status is shown as it is, a missing one as nothing.
   */
  function StatusLabel(status: Option<string>): (r: Option<string>)
    ensures status.None? ==> r.None?
  {
    match status
    case None => None
    case Some(s) =>
      var u := Upper(s);
      if u == "PENDING" then Some("Pending")
      else if u == "IN_PROCESS" || u == "INTENDED_RESOLVE" then Some("In Progress")
      else if u == "RESOLVED" then Some("Resolved")
      else Some(s)
  }

  /** Upper-casing leaves an upper-case status word as it is. */
  lemma UpperOfUpper(s: string)
    requires forall i :: 0 <= i < |s| ==> !('a' <= s[i] <= 'z')
    ensures Upper(s) == s
  {
    assert forall i :: 0 <= i < |s| ==> Upper(s)[i] == UpperChar(s[i]);
  }

  /** A row that a card counts carries that card's label. */
  lemma CountedRowsLabelled(g: Grievance)
    ensures CountExact([g], PendingStatuses) == 1 ==> StatusLabel(g.status) == Some("Pending")
    ensures CountExact([g], InProgressStatuses) == 1 ==> StatusLabel(g.status) == Some("In Progress")
    ensures CountExact([g], ResolvedStatuses) == 1 ==> StatusLabel(g.status) == Some("Resolved")
  {
    if g.status.Some? && g.status.value in PendingStatuses + InProgressStatuses + ResolvedStatuses {
      UpperOfUpper(g.status.value);
    }
  }

  /**
   * The converse fails: the label compares after upper-casing, the cards do
   * not, so a lower-case "pending" row is labelled Pending but not counted.
   */
  lemma LowercasePendingLabelledNotCounted()
    ensures StatusLabel(Some("pending")) == Some("Pending")
    ensures EmployeeStats([Grievance("G1", Some("pending"), None, None)]).pending == 0
  {
    assert Upper("pending") == "PENDING";
  }

  /** `g.categoryName || g.category || '—'` */
  function CategoryCell(g: Grievance): (r: string)
    ensures r != ""
    ensures g.categoryName.Some? && g.categoryName.value != "" ==> r == g.categoryName.value
    ensures (g.categoryName.None? || g.categoryName.value == "") && g.category.Some? && g.category.value != "" ==>
              r == g.category.value
  {
    if g.categoryName.Some? && g.categoryName.value != "" then g.categoryName.value
    else if g.category.Some? && g.category.value != "" then g.category.value
    else "—"
  }

  /** What the dashboard holds. */
  datatype Board = Board(grievances: seq<Grievance>, stats: Stats, filter: string, loading: bool)

  const InitialBoard := Board([], Stats(0, 0, 0, 0), AllFilter, true)

  /** Choosing a filter: the effect refetches only when the filter actually changes. */
  function SelectFilter(b: Board, f: string): (r: (Board, seq<Call>))
    ensures r.0.filter == f && r.0.grievances == b.grievances && r.0.stats == b.stats
    ensures f == b.filter ==> r == (b, [])
    ensures f != b.filter ==> r.0.loading && r.1 == [HttpGet(FetchUrl(f))]
  {
    if f == b.filter then (b, []) else (b.(filter := f, loading := true), [HttpGet(FetchUrl(f))])
  }

  /**
   * The list request's outcome (None: it failed; a null body arrives as an
   * empty list): rows and cards are replaced together, a failure keeps both.
   */
  function Receive(b: Board, outcome: Option<seq<Grievance>>): (r: Board)
    ensures !r.loading && r.filter == b.filter
    ensures outcome.None? ==> r.grievances == b.grievances && r.stats == b.stats
    ensures outcome.Some? ==> r.grievances == outcome.value
    ensures r.stats.total == |r.grievances| || r.stats == b.stats
  {
    match outcome
    case None => b.(loading := false)
    case Some(rows) => Board(rows, EmployeeStats(rows), b.filter, false)
  }

  /** After any successful load the cards describe the rows on screen. */
  lemma ReceiveConsistent(b: Board, rows: seq<Grievance>)
    ensures Receive(b, Some(rows)).stats == EmployeeStats(Receive(b, Some(rows)).grievances)
    ensures Receive(b, Some(rows)).stats.pending + Receive(b, Some(rows)).stats.inProgress +
            Receive(b, Some(rows)).stats.resolved <= |rows|
  {
    EmployeeStatsWithinTotal(rows);
  }
}
