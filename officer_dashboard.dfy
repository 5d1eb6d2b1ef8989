// The officer dashboard: status normalisation, per-bucket counts, the
// status filter, the Assign button and the assign handler that feeds the
// assignment cache.

module OfficerDashboard {
  import opened Base
  import opened Text
  import opened Storage
  import opened FeatureFlags

  const All := "ALL"
  const Pending := "PENDING"
  const InProcess := "IN_PROCESS"
  const Resolved := "RESOLVED"

  /**
   * normalizeStatus of the officer pages: a missing or empty status gives "";
   * otherwise trim, turn each whitespace run into "_", upper-case.
   */
  function NormalizeStatus(status: Option<string>): string
  {
    match status
    case None => ""
    case Some(s) => if s == "" then "" else Upper(CollapseSpaces(Trim(s)))
  }

  lemma NormalizedHasNoSpace(status: Option<string>)
    ensures NoSpace(NormalizeStatus(status))
  {
    if status.Some? && status.value != "" {
      CollapseSpacesNoSpace(Trim(status.value));
      UpperKeepsSpaces(CollapseSpaces(Trim(status.value)));
    }
  }

  /** The normalised status is empty exactly for a missing or blank status. */
  lemma NormalizeEmpty(status: Option<string>)
    ensures NormalizeStatus(status) == "" <==> status.None? || AllSpace(status.value)
  {
    if status.Some? {
      TrimEmpty(status.value);
    }
  }

  /** A status without whitespace is only upper-cased. */
  lemma NormalizeWord(s: string)
    requires NoSpace(s)
    ensures NormalizeStatus(Some(s)) == Upper(s)
  {
    TrimOfNoSpace(s);
    CollapseOfNoSpace(s);
  }

  lemma NormalizeIdempotent(status: Option<string>)
    ensures NormalizeStatus(Some(NormalizeStatus(status))) == NormalizeStatus(status)
  {
    var n := NormalizeStatus(status);
    NormalizedHasNoSpace(status);
    if n != "" {
      NormalizeWord(n);
      if status.Some? && status.value != "" {
        UpperIdempotent(CollapseSpaces(Trim(status.value)));
      }
    }
  }

  /** The rows whose normalised status is `bucket`, in list order. */
  function WithStatus(gs: seq<Grievance>, bucket: string): (r: seq<Grievance>)
    ensures |r| <= |gs|
    ensures forall g :: g in r <==> g in gs && NormalizeStatus(g.status) == bucket
  {
    if gs == [] then []
    else
      var rest := WithStatus(gs[1..], bucket);
      assert forall g :: g in gs <==> g == gs[0] || g in gs[1..];
      if NormalizeStatus(gs[0].status) == bucket then [gs[0]] + rest else rest
  }

  /** Filtering a concatenation filters each part and keeps their order. */
  lemma {:induction false} WithStatusAppend(a: seq<Grievance>, b: seq<Grievance>, bucket: string)
    ensures WithStatus(a + b, bucket) == WithStatus(a, bucket) + WithStatus(b, bucket)
  {
    if a != [] {
      assert (a + b)[1..] == a[1..] + b;
      WithStatusAppend(a[1..], b, bucket);
      if NormalizeStatus(a[0].status) == bucket {
        assert WithStatus(a + b, bucket) == [a[0]] + WithStatus(a[1..] + b, bucket);
      }
    } else {
      assert a + b == b;
    }
  }

  /** No row falls into two of the three buckets. */
  lemma {:induction false} BucketsFit(gs: seq<Grievance>)
    ensures |WithStatus(gs, Pending)| + |WithStatus(gs, InProcess)| + |WithStatus(gs, Resolved)| <= |gs|
  {
    if gs != [] {
      BucketsFit(gs[1..]);
    }
  }

  datatype Counts = Counts(all: nat, pending: nat, inProcess: nat, resolved: nat)

  /** getCounts: ALL is the row count, each bucket counts its normalised status. */
  function GetCounts(gs: seq<Grievance>): (c: Counts)
    ensures c.all == |gs|
    ensures c.pending + c.inProcess + c.resolved <= c.all
  {
    BucketsFit(gs);
    Counts(|gs|, |WithStatus(gs, Pending)|, |WithStatus(gs, InProcess)|, |WithStatus(gs, Resolved)|)
  }

  /** `counts[key]` */
  function CountFor(c: Counts, key: string): Option<nat>
  {
    if key == All then Some(c.all)
    else if key == Pending then Some(c.pending)
    else if key == InProcess then Some(c.inProcess)
    else if key == Resolved then Some(c.resolved)
    else None
  }

  /** filteredGrievances: everything for "ALL", else the rows of that bucket. */
  function Filtered(gs: seq<Grievance>, filter: string): (r: seq<Grievance>)
    ensures filter == All ==> r == gs
    ensures filter != All ==> forall g :: g in r <==> g in gs && NormalizeStatus(g.status) == filter
    ensures CountFor(GetCounts(gs), filter).Some? ==> CountFor(GetCounts(gs), filter) == Some(|r|)
  {
    if filter == All then gs else WithStatus(gs, filter)
  }

  datatype AssignButton = AssignButton(disabled: bool, caption: string)

  /** The Assign button of one row. */
  function AssignButtonFor(cachedIds: seq<string>, g: Grievance): (b: AssignButton)
    ensures b.disabled <==> g.grvnNum in cachedIds || NormalizeStatus(g.status) != Pending
    ensures b.caption == "Assign" <==> !b.disabled
    ensures b.caption == "Assigned" <==> g.grvnNum in cachedIds
    ensures b.caption == "Locked" <==> g.grvnNum !in cachedIds && NormalizeStatus(g.status) != Pending
  {
    var isAssigned := g.grvnNum in cachedIds;
    var isPending := NormalizeStatus(g.status) == Pending;
    AssignButton(isAssigned || !isPending,
                 if isAssigned then "Assigned" else if !isPending then "Locked" else "Assign")
  }

  /** Once a grievance is in the cache its Assign button stays disabled. */
  lemma AssignedRowLocked(items: map<string, Value>, g: Grievance)
    ensures RecordAssignment(items, g.grvnNum).Some? ==>
              AssignButtonFor(ReadAssigned(RecordAssignment(items, g.grvnNum).value).value, g) ==
              AssignButton(true, "Assigned")
  {
  }

  /** The flags the dashboard holds before it reads storage. */
  function DashboardDefaultFlags(): map<string, bool>
  {
    map[OfficerTableView := true, GrievanceSelfAssignment := true]
  }

  /** fetchFeatureFlags: the stored map replaces the current one when there is one. */
  function LoadedFlags(items: map<string, Value>, current: map<string, bool>): map<string, bool>
  {
    match StoredFlags(items)
    case Some(f) => f
    case None => current
  }

  /** handleView: the detail route, only while officer_table_view is on. */
  function ViewRoute(flags: map<string, bool>, grvnNum: string): (r: Option<string>)
    ensures r.Some? <==> Enabled(flags, OfficerTableView)
    ensures r.Some? ==> r.value == "/officer/grievances/" + grvnNum
  {
    if !Enabled(flags, OfficerTableView) then None else Some("/officer/grievances/" + grvnNum)
  }

  const ListPath := "/officer/grievances"

  function AssignPath(grvnNum: string): string
  {
    "/officer/grievances/" + grvnNum + "/assign"
  }

  /** The assignment body: the stored officer number, "OFF001" when none is stored. */
  function AssignPayload(items: map<string, Value>): (j: Json)
    ensures Get(j, "remarks") == Some(JString("Assigned via Dashboard"))
    ensures HasText(items, OfficerNumKey) ==> Get(j, "officerNum") == Some(JString(TextItem(items, OfficerNumKey).value))
    ensures !HasText(items, OfficerNumKey) ==> Get(j, "officerNum") == Some(JString("OFF001"))
  {
    var officerNum := if HasText(items, OfficerNumKey) then TextItem(items, OfficerNumKey).value else "OFF001";
    JObject(map["officerNum" := JString(officerNum), "remarks" := JString("Assigned via Dashboard")])
  }

  /** The alert for a grievance that is not pending. */
  function NotPendingAlert(grvnNum: string, normalized: string): string
  {
    "Grievance " + grvnNum + " is already '" + ReplaceFirst(normalized, "_", " ") +
    "' and cannot be re-assigned."
  }

  class OfficerDashboardPage {
    const store: LocalStorage
    var grievances: seq<Grievance>
    var loading: bool
    var statusFilter: string
    var flags: map<string, bool>
    /** The page's copy of the assignment cache. */
    var cachedIds: seq<string>

    constructor (store: LocalStorage)
      ensures this.store == store
      ensures grievances == [] && loading && statusFilter == All
      ensures flags == DashboardDefaultFlags()
      ensures cachedIds == (if ReadAssigned(store.items).Some? then ReadAssigned(store.items).value else [])
    {
      this.store := store;
      grievances := [];
      loading := true;
      statusFilter := All;
      flags := DashboardDefaultFlags();
      var read := ReadAssigned(store.items);
      cachedIds := if read.Some? then read.value else [];
    }

    /** The mount effect: read the flags, then request the list. */
    method Mount() returns (calls: seq<Call>)
      modifies this
      ensures flags == LoadedFlags(store.items, old(flags))
      ensures loading && calls == [HttpGet(ListPath)]
      ensures grievances == old(grievances) && cachedIds == old(cachedIds)
      ensures statusFilter == old(statusFilter)
    {
      var stored := StoredFlags(store.items);
      if stored.Some? {
        flags := stored.value;
      }
      loading := true;
      calls := [HttpGet(ListPath)];
    }

    /** The list request's outcome: its rows, or an empty list on failure or a non-array body. */
    method ReceiveGrievances(rows: Option<seq<Grievance>>)
      modifies this
      ensures grievances == (if rows.Some? then rows.value else [])
      ensures !loading
      ensures flags == old(flags) && cachedIds == old(cachedIds) && statusFilter == old(statusFilter)
    {
      grievances := if rows.Some? then rows.value else [];
      loading := false;
    }

    method SetStatusFilter(f: string)
      modifies this
      ensures statusFilter == f
      ensures grievances == old(grievances) && flags == old(flags) && cachedIds == old(cachedIds)
      ensures loading == old(loading)
    {
      statusFilter := f;
    }

    function Counts(): Counts
      reads this
    {
      GetCounts(grievances)
    }

    function Visible(): seq<Grievance>
      reads this
    {
      Filtered(grievances, statusFilter)
    }

    /**
     * handleAssign. A grievance that is not pending is refused with an alert
     * and no request; otherwise the assignment is posted, and on 200 or 201
     * the id is recorded in the cache once and the list is requested again.
     * An unreadable cache makes the 200/201 branch throw into the catch, whose
     * alert is the fixed fallback.
     */
    method HandleAssign(g: Grievance, reply: Reply) returns (calls: seq<Call>, alert: Option<string>)
      modifies this, store
      ensures NormalizeStatus(g.status) != Pending ==>
        calls == [] && alert == Some(NotPendingAlert(g.grvnNum, NormalizeStatus(g.status)))
      ensures NormalizeStatus(g.status) == Pending ==>
        |calls| >= 1 && calls[0] == HttpPost(AssignPath(g.grvnNum), AssignPayload(old(store.items)))
      ensures var recorded := NormalizeStatus(g.status) == Pending && Succeeded(reply) &&
                              (reply.status == 200 || reply.status == 201) &&
                              ReadAssigned(old(store.items)).Some?;
        && store.items == (if recorded then RecordAssignment(old(store.items), g.grvnNum).value else old(store.items))
        && cachedIds == (if recorded && !IsCached(old(store.items), g.grvnNum)
                        then ReadAssigned(store.items).value else old(cachedIds))
        && (recorded ==> calls[1..] == [HttpGet(ListPath)] &&
                         alert == Some("Grievance " + g.grvnNum + " successfully assigned."))
      ensures NormalizeStatus(g.status) == Pending && Succeeded(reply) &&
              (reply.status == 200 || reply.status == 201) && ReadAssigned(old(store.items)).None? ==>
        calls == calls[..1] && alert == Some("Failed to assign. Ensure it is PENDING.")
      ensures NormalizeStatus(g.status) == Pending && Succeeded(reply) &&
              reply.status != 200 && reply.status != 201 ==>
        calls == calls[..1] && alert == None
      ensures NormalizeStatus(g.status) == Pending && !Succeeded(reply) ==>
        calls == calls[..1] &&
        alert == Some(FirstMessage(ErrorBody(reply), ["details"], "Failed to assign. Ensure it is PENDING."))
      ensures grievances == old(grievances) && flags == old(flags) && statusFilter == old(statusFilter)
      ensures loading == old(loading)
    {
      var normalized := NormalizeStatus(g.status);
      if normalized != Pending {
        calls := [];
        alert := Some(NotPendingAlert(g.grvnNum, normalized));
        return;
      }
      calls := [HttpPost(AssignPath(g.grvnNum), AssignPayload(store.items))];
      if !Succeeded(reply) {
        alert := Some(FirstMessage(ErrorBody(reply), ["details"], "Failed to assign. Ensure it is PENDING."));
        return;
      }
      alert := None;
      if reply.status == 200 || reply.status == 201 {
        var read := ReadAssigned(store.items);
        if read.None? {
          alert := Some("Failed to assign. Ensure it is PENDING.");
          return;
        }
        var stored := read.value;
        if g.grvnNum !in stored {
          var updated := stored + [g.grvnNum];
          store.SetItem(AssignedKey, IdList(updated));
          cachedIds := updated;
        }
        alert := Some("Grievance " + g.grvnNum + " successfully assigned.");
        calls := calls + [HttpGet(ListPath)];
      }
    }
  }
}
