// The administrator's dashboard: the substring-based status buckets, the
// grievance statistics, the analytics count cells, the per-tab fetches and
// the two delete-confirmation flows (employees and officers).

module AdminDashboard {
  import opened Base
  import opened Text

  const BucketPending := "pending"
  const BucketInProgress := "in_progress"
  const BucketResolved := "resolved"

  /**
   * The admin page's normalizeStatus: lower-case the status, then the first
   * of "pending", "process", "resolve" it contains decides the bucket.
   */
  function AdminStatus(status: Option<string>): (r: string)
    ensures r == "" || r == BucketPending || r == BucketInProgress || r == BucketResolved
    ensures status.None? || status.value == "" ==> r == ""
  {
    match status
    case None => ""
    case Some(s) =>
      if s == "" then ""
      else
        var l := Lower(s);
        if Contains(l, "pending") then BucketPending
        else if Contains(l, "process") then BucketInProgress
        else if Contains(l, "resolve") then BucketResolved
        else ""
  }

  /** Which bucket a status falls in, by the words its lower-case form contains. */
  lemma AdminStatusByWords(s: string)
    requires s != ""
    ensures AdminStatus(Some(s)) == BucketPending <==> Contains(Lower(s), "pending")
    ensures AdminStatus(Some(s)) == BucketInProgress <==>
              !Contains(Lower(s), "pending") && Contains(Lower(s), "process")
    ensures AdminStatus(Some(s)) == BucketResolved <==>
              !Contains(Lower(s), "pending") && !Contains(Lower(s), "process") && Contains(Lower(s), "resolve")
  {
  }

  /** `s` occurs in `t` at position `k`. */
  lemma ContainsAt(t: string, s: string, k: nat)
    requires k + |s| <= |t| && t[k..k + |s|] == s
    ensures Contains(t, s)
  {
    IndexOfSpec(t, s);
    assert StartsWith(t[k..], s);
  }

  /** A word whose first letter never occurs in `t` is not contained in it. */
  lemma {:induction false} AbsentInitial(t: string, p: string)
    requires p != [] && forall i :: 0 <= i < |t| ==> t[i] != p[0]
    ensures !Contains(t, p)
  {
    if t != [] {
      if |p| <= |t| {
        assert t[..|p|][0] == t[0];
      }
      AbsentInitial(t[1..], p);
    }
  }

  lemma LowerIntendedResolve()
    ensures Lower("INTENDED_RESOLVE") == "intended_resolve"
  {
  }

  /** Neither "pending" nor "process" can start anywhere in these words: they hold no 'p'. */
  lemma NoLetterP()
    ensures forall i :: 0 <= i < |"intended_resolve"| ==> "intended_resolve"[i] != 'p'
    ensures forall i :: 0 <= i < |"unresolved"| ==> "unresolved"[i] != 'p'
  {
  }

  /**
   * A status an officer has marked for resolution counts as resolved here,
   * while the employee dashboard counts it as in progress.
   */
  lemma IntendedResolveCountsResolved()
    ensures AdminStatus(Some("INTENDED_RESOLVE")) == BucketResolved
  {
    LowerIntendedResolve();
    NoLetterP();
    ContainsAt("intended_resolve", "resolve", 9);
    AbsentInitial("intended_resolve", "pending");
    AbsentInitial("intended_resolve", "process");
    AdminStatusByWords("INTENDED_RESOLVE");
  }

  lemma LowerUnresolved()
    ensures Lower("UNRESOLVED") == "unresolved"
  {
  }

  /** Matching on substrings puts a status that says it is not resolved among the resolved. */
  lemma UnresolvedCountsResolved()
    ensures AdminStatus(Some("UNRESOLVED")) == BucketResolved
  {
    LowerUnresolved();
    NoLetterP();
    ContainsAt("unresolved", "resolve", 2);
    AbsentInitial("unresolved", "pending");
    AbsentInitial("unresolved", "process");
    AdminStatusByWords("UNRESOLVED");
  }

  /** How many of the rows fall in `bucket`. */
  function BucketCount(gs: seq<Grievance>, bucket: string): (n: nat)
    ensures n <= |gs|
  {
    if gs == [] then 0
    else BucketCount(gs[..|gs| - 1], bucket) + (if AdminStatus(gs[|gs| - 1].status) == bucket then 1 else 0)
  }

  /** The three buckets together never exceed the number of rows. */
  lemma {:induction false} BucketsWithinTotal(gs: seq<Grievance>)
    ensures BucketCount(gs, BucketPending) + BucketCount(gs, BucketInProgress) +
            BucketCount(gs, BucketResolved) <= |gs|
  {
    if gs != [] {
      BucketsWithinTotal(gs[..|gs| - 1]);
    }
  }

  /** Counting over two lists adds up. */
  lemma {:induction false} BucketCountAppend(a: seq<Grievance>, b: seq<Grievance>, bucket: string)
    ensures BucketCount(a + b, bucket) == BucketCount(a, bucket) + BucketCount(b, bucket)
    decreases |b|
  {
    if b == [] {
      assert a + b == a;
    } else {
      assert (a + b)[..|a + b| - 1] == a + b[..|b| - 1];
      BucketCountAppend(a, b[..|b| - 1], bucket);
    }
  }

  /**
   * The statistics loop of the analytics tab: every row adds to the total
   * and to at most one bucket.
   */
  method ComputeStats(gs: seq<Grievance>) returns (stats: Stats)
    ensures stats.total == |gs|
    ensures stats.pending == BucketCount(gs, BucketPending)
    ensures stats.inProgress == BucketCount(gs, BucketInProgress)
    ensures stats.resolved == BucketCount(gs, BucketResolved)
    ensures stats.pending + stats.inProgress + stats.resolved <= stats.total
  {
    stats := Stats(0, 0, 0, 0);
    var i := 0;
    while i < |gs|
      invariant 0 <= i <= |gs|
      invariant stats.total == i
      invariant stats.pending == BucketCount(gs[..i], BucketPending)
      invariant stats.inProgress == BucketCount(gs[..i], BucketInProgress)
      invariant stats.resolved == BucketCount(gs[..i], BucketResolved)
    {
      assert gs[..i + 1][..i] == gs[..i];
      var st := AdminStatus(gs[i].status);
      stats := stats.(total := stats.total + 1);
      if st == BucketPending { stats := stats.(pending := stats.pending + 1); }
      if st == BucketInProgress { stats := stats.(inProgress := stats.inProgress + 1); }
      if st == BucketResolved { stats := stats.(resolved := stats.resolved + 1); }
      i := i + 1;
    }
    assert gs[..i] == gs;
    BucketsWithinTotal(gs);
  }

  /** The status column of the grievance table: the bucket with its first "_" as a space. */
  function StatusCell(status: Option<string>): (r: string)
    ensures AdminStatus(status) == BucketInProgress ==> r == "in progress"
    ensures AdminStatus(status) != BucketInProgress ==> r == AdminStatus(status)
  {
    var bucket := AdminStatus(status);
    if bucket == BucketInProgress then
      assert IndexOf(bucket, "_") == Some(2) by {
        assert bucket[..1] == "i" && bucket[1..][..1] == "n" && bucket[2..][..1] == "_";
        assert bucket[1..][1..] == bucket[2..];
      }
      ReplaceFirst(bucket, "_", " ")
    else
      IndexOfAbsentChar(bucket, '_');
      ReplaceFirst(bucket, "_", " ")
  }

  /** `a ?? b ?? ... ?? 0` over a row's fields: the first that is present and not null. */
  function CountCell(row: Json, keys: seq<string>): (r: Json)
    ensures (forall i :: 0 <= i < |keys| ==> Get(row, keys[i]).None? || Get(row, keys[i]) == Some(JNull)) ==>
              r == JNumber(0)
    ensures r != JNull
  {
    if keys == [] then JNumber(0)
    else match Get(row, keys[0])
      case Some(v) => if v != JNull then v else CountCell(row, keys[1..])
      case None => CountCell(row, keys[1..])
  }

  /** A first field holding 0 is shown as 0: `??` keeps falsy values that `||` would skip. */
  lemma {:induction false} CountCellKeepsZero(row: Json, keys: seq<string>)
    requires keys != [] && Get(row, keys[0]) == Some(JNumber(0))
    ensures CountCell(row, keys) == JNumber(0)
    ensures !Truthy(CountCell(row, keys))
  {
  }

  /** A field present and not null wins over every later field. */
  lemma {:induction false} CountCellFirstPresent(row: Json, keys: seq<string>, i: nat)
    requires i < |keys| && Get(row, keys[i]).Some? && Get(row, keys[i]).value != JNull
    requires forall k :: 0 <= k < i ==> Get(row, keys[k]).None? || Get(row, keys[k]) == Some(JNull)
    ensures CountCell(row, keys) == Get(row, keys[i]).value
  {
    if i > 0 {
      assert forall k :: 0 <= k < i - 1 ==> keys[1..][k] == keys[k + 1];
      CountCellFirstPresent(row, keys[1..], i - 1);
    }
  }

  const DeptCountKeys := ["count", "total", "totalEmployees"]
  const WorkloadKeys := ["assignedCount", "totalGrievances"]

  datatype Tab = Analytics | Employees | Officers

  /** The requests fetchData issues for a tab. */
  function TabRequests(tab: Tab): (calls: seq<Call>)
    ensures |calls| == (if tab == Analytics then 3 else 1)
    ensures forall c :: c in calls ==> c.HttpGet?
  {
    match tab
    case Analytics => [HttpGet("/admin/analytics/employees-by-department"),
                       HttpGet("/admin/analytics/officer-workload"),
                       HttpGet("/admin/grievances")]
    case Employees => [HttpGet("/admin/analytics/employees")]
    case Officers => [HttpGet("/admin/analytics/officers-list")]
  }

  /** Which list a delete flow works on. */
  datatype Kind = EmployeeRows | OfficerRows

  /** The DELETE path for a row: its `empnum` or `officernum` as text. */
  function DeletePath(kind: Kind, row: Json): string
  {
    match kind
    case EmployeeRows => "/admin/delete_employees/" + ToText(Get(row, "empnum"))
    case OfficerRows => "/admin/delete_officers/" + ToText(Get(row, "officernum"))
  }

  function DeleteFallback(kind: Kind): string
  {
    match kind
    case EmployeeRows => "Failed to delete employee. Please try again."
    case OfficerRows => "Failed to delete officer. Please try again."
  }

  /** One delete-confirmation flow: the row awaiting confirmation, the success notice, the error. */
  datatype DeleteFlow = DeleteFlow(target: Option<Json>, success: bool, error: Option<string>)

  /** The three analytics responses, when all of them arrived. */
  datatype AnalyticsData = AnalyticsData(employeesByDept: Json, workload: Json, grievances: Option<seq<Grievance>>)

  class AdminPage {
    var activeTab: Tab
    var loading: bool
    var employeesByDept: Json
    var workload: Json
    var employees: Json
    var officers: Json
    var allGrievances: seq<Grievance>
    var stats: Stats
    var employeeDelete: DeleteFlow
    var officerDelete: DeleteFlow

    /** The page as it first renders; the mount effect then fetches the analytics tab. */
    constructor ()
      ensures activeTab == Analytics && loading
      ensures employeesByDept == JArray([]) && workload == JArray([])
      ensures employees == JArray([]) && officers == JArray([]) && allGrievances == []
      ensures stats == Stats(0, 0, 0, 0)
      ensures employeeDelete == DeleteFlow(None, false, None) && officerDelete == DeleteFlow(None, false, None)
    {
      activeTab := Analytics;
      loading := true;
      employeesByDept := JArray([]);
      workload := JArray([]);
      employees := JArray([]);
      officers := JArray([]);
      allGrievances := [];
      stats := Stats(0, 0, 0, 0);
      employeeDelete := DeleteFlow(None, false, None);
      officerDelete := DeleteFlow(None, false, None);
    }

    function Flow(kind: Kind): DeleteFlow
      reads this
    {
      if kind == EmployeeRows then employeeDelete else officerDelete
    }

    /** fetchData for the active tab: loading starts and the tab's requests go out. */
    method FetchData() returns (calls: seq<Call>)
      modifies this
      ensures loading && calls == TabRequests(activeTab)
      ensures activeTab == old(activeTab) && allGrievances == old(allGrievances) && stats == old(stats)
      ensures employees == old(employees) && officers == old(officers)
      ensures employeesByDept == old(employeesByDept) && workload == old(workload)
      ensures employeeDelete == old(employeeDelete) && officerDelete == old(officerDelete)
    {
      loading := true;
      calls := TabRequests(activeTab);
    }

    /** A tab button: the effect refetches only when the tab actually changes. */
    method SelectTab(tab: Tab) returns (calls: seq<Call>)
      modifies this
      ensures activeTab == tab
      ensures tab == old(activeTab) ==> calls == [] && loading == old(loading)
      ensures tab != old(activeTab) ==> calls == TabRequests(tab) && loading
      ensures allGrievances == old(allGrievances) && stats == old(stats)
      ensures employees == old(employees) && officers == old(officers)
      ensures employeesByDept == old(employeesByDept) && workload == old(workload)
      ensures employeeDelete == old(employeeDelete) && officerDelete == old(officerDelete)
    {
      if tab == activeTab {
        calls := [];
        return;
      }
      activeTab := tab;
      calls := FetchData();
    }

    /**
     * The analytics requests completing: with all three answered, the tables
     * are filled, a missing grievance list reads as empty, and the statistics
     * are recomputed; if any failed nothing but the loading flag changes.
     */
    method ReceiveAnalytics(outcome: Option<AnalyticsData>)
      modifies this
      ensures !loading
      ensures outcome.None? ==>
        allGrievances == old(allGrievances) && stats == old(stats) &&
        employeesByDept == old(employeesByDept) && workload == old(workload)
      ensures outcome.Some? ==>
        employeesByDept == outcome.value.employeesByDept && workload == outcome.value.workload &&
        allGrievances == (if outcome.value.grievances.Some? then outcome.value.grievances.value else []) &&
        stats.total == |allGrievances| &&
        stats.pending == BucketCount(allGrievances, BucketPending) &&
        stats.inProgress == BucketCount(allGrievances, BucketInProgress) &&
        stats.resolved == BucketCount(allGrievances, BucketResolved)
      ensures activeTab == old(activeTab) && employees == old(employees) && officers == old(officers)
      ensures employeeDelete == old(employeeDelete) && officerDelete == old(officerDelete)
    {
      if outcome.Some? {
        employeesByDept := outcome.value.employeesByDept;
        workload := outcome.value.workload;
        allGrievances := if outcome.value.grievances.Some? then outcome.value.grievances.value else [];
        stats := ComputeStats(allGrievances);
      }
      loading := false;
    }

    /** The employees or officers list completing (None: the request failed). */
    method ReceiveList(kind: Kind, data: Option<Json>)
      modifies this
      ensures !loading
      ensures kind == EmployeeRows ==> employees == (if data.Some? then data.value else old(employees)) && officers == old(officers)
      ensures kind == OfficerRows ==> officers == (if data.Some? then data.value else old(officers)) && employees == old(employees)
      ensures activeTab == old(activeTab) && allGrievances == old(allGrievances) && stats == old(stats)
      ensures employeesByDept == old(employeesByDept) && workload == old(workload)
      ensures employeeDelete == old(employeeDelete) && officerDelete == old(officerDelete)
    {
      if data.Some? {
        if kind == EmployeeRows {
          employees := data.value;
        } else {
          officers := data.value;
        }
      }
      loading := false;
    }

    /** A row's Delete button: it becomes the target and the old error is cleared. */
    method HandleDelete(kind: Kind, row: Json)
      modifies this
      ensures Flow(kind) == old(Flow(kind)).(target := Some(row), error := None)
      ensures kind == EmployeeRows ==> officerDelete == old(officerDelete)
      ensures kind == OfficerRows ==> employeeDelete == old(employeeDelete)
      ensures activeTab == old(activeTab) && loading == old(loading)
      ensures allGrievances == old(allGrievances) && stats == old(stats)
      ensures employees == old(employees) && officers == old(officers)
      ensures employeesByDept == old(employeesByDept) && workload == old(workload)
    {
      if kind == EmployeeRows {
        employeeDelete := employeeDelete.(target := Some(row), error := None);
      } else {
        officerDelete := officerDelete.(target := Some(row), error := None);
      }
    }

    /** Cancel, or a click on the overlay: the confirmation closes. */
    method CancelDelete(kind: Kind)
      modifies this
      ensures Flow(kind) == old(Flow(kind)).(target := None)
      ensures kind == EmployeeRows ==> officerDelete == old(officerDelete)
      ensures kind == OfficerRows ==> employeeDelete == old(employeeDelete)
      ensures activeTab == old(activeTab) && loading == old(loading)
      ensures allGrievances == old(allGrievances) && stats == old(stats)
      ensures employees == old(employees) && officers == old(officers)
      ensures employeesByDept == old(employeesByDept) && workload == old(workload)
    {
      if kind == EmployeeRows {
        employeeDelete := employeeDelete.(target := None);
      } else {
        officerDelete := officerDelete.(target := None);
      }
    }

    /**
     * "Yes, Delete". Without a target nothing happens. Otherwise the row is
     * deleted; success clears the target, shows the notice and refetches the
     * active tab, a failure keeps the confirmation open with the reason.
     */
    method ConfirmDelete(kind: Kind, reply: Reply) returns (calls: seq<Call>)
      modifies this
      ensures old(Flow(kind)).target.None? ==> calls == [] && Flow(kind) == old(Flow(kind)) && loading == old(loading)
      ensures old(Flow(kind)).target.Some? && Succeeded(reply) ==>
        calls == [HttpDelete(DeletePath(kind, old(Flow(kind)).target.value))] + TabRequests(activeTab) &&
        Flow(kind) == DeleteFlow(None, true, None) && loading
      ensures old(Flow(kind)).target.Some? && !Succeeded(reply) ==>
        calls == [HttpDelete(DeletePath(kind, old(Flow(kind)).target.value))] &&
        Flow(kind) == old(Flow(kind)).(error := Some(FirstMessage(ErrorBody(reply), ["message", "error"], DeleteFallback(kind)))) &&
        loading == old(loading)
      ensures kind == EmployeeRows ==> officerDelete == old(officerDelete)
      ensures kind == OfficerRows ==> employeeDelete == old(employeeDelete)
      ensures activeTab == old(activeTab)
      ensures allGrievances == old(allGrievances) && stats == old(stats)
      ensures employees == old(employees) && officers == old(officers)
      ensures employeesByDept == old(employeesByDept) && workload == old(workload)
    {
      var flow := Flow(kind);
      if flow.target.None? {
        calls := [];
        return;
      }
      calls := [HttpDelete(DeletePath(kind, flow.target.value))];
      if !Succeeded(reply) {
        var failed := flow.(error := Some(FirstMessage(ErrorBody(reply), ["message", "error"], DeleteFallback(kind))));
        if kind == EmployeeRows { employeeDelete := failed; } else { officerDelete := failed; }
        return;
      }
      if kind == EmployeeRows {
        employeeDelete := DeleteFlow(None, true, None);
      } else {
        officerDelete := DeleteFlow(None, true, None);
      }
      var refetch := FetchData();
      calls := calls + refetch;
    }

    /** OK on the success notice. */
    method DismissSuccess(kind: Kind)
      modifies this
      ensures Flow(kind) == old(Flow(kind)).(success := false)
      ensures kind == EmployeeRows ==> officerDelete == old(officerDelete)
      ensures kind == OfficerRows ==> employeeDelete == old(employeeDelete)
      ensures activeTab == old(activeTab) && loading == old(loading)
      ensures allGrievances == old(allGrievances) && stats == old(stats)
      ensures employees == old(employees) && officers == old(officers)
      ensures employeesByDept == old(employeesByDept) && workload == old(workload)
    {
      if kind == EmployeeRows {
        employeeDelete := employeeDelete.(success := false);
      } else {
        officerDelete := officerDelete.(success := false);
      }
    }
  }
}
