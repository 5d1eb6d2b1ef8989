// The officer's view of one grievance: the officer-session gate, taking the
// grievance on (self-assignment), and adding, updating and ending its
// investigations.

module OfficerGrievanceView {
  import opened Base
  import opened Text
  import opened Storage
  import opened FeatureFlags
  import opened OfficerDashboard

  /** An investigation as the timeline lists it. */
  datatype Investigation = Investigation(
    investigationNum: string,
    findings: string,
    remarks: Option<string>,
    outcome: Option<string>,
    endDate: Option<string>)

  /** What the page has fetched, and whether each fetch is still running. */
  datatype Loaded = Loaded(grievance: Option<Grievance>, timeline: Option<Json>, loading: bool, timelineLoading: bool)

  /** The error and success banners (an empty string shows nothing). */
  datatype Banner = Banner(error: string, success: string)

  /** The add-investigation form. */
  datatype InvestigationForm = InvestigationForm(grvnNum: string, findings: string, remarks: string, outcome: string)

  /** The update-investigation form. */
  datatype UpdateForm = UpdateForm(findings: string, remarks: string, outcome: string)

  /** The add-investigation modal: whether it shows, and its form. */
  datatype AddModal = AddModal(open: bool, form: InvestigationForm)

  /** The update-investigation modal: whether it shows, the investigation it edits, and its form. */
  datatype UpdateModal = UpdateModal(open: bool, selected: Option<Investigation>, form: UpdateForm)

  const LoginRequired := "Please log in as an officer to view this page"
  const NotFound := "Grievance not found"
  const LoadFailed := "Failed to load grievance details"
  const ComingSoon := "This feature is not yet available. Coming soon!"
  const OfficerMissing := "Officer number not found. Please log in again."
  const SelectFirst := "Please select this grievance first before adding an investigation"
  const FindingsRequired := "Please enter findings"
  const InvestigationAdded := "Investigation added successfully!"
  const InvestigationUpdated := "Investigation updated successfully!"
  const InvestigationEnded := "Investigation ended successfully!"

  /** The page may be used only with a stored user number and the role "OFFICER". */
  predicate OfficerSession(items: map<string, Value>)
  {
    HasText(items, UserNumKey) && TextItem(items, RoleKey) == Some("OFFICER")
  }

  /** `rows.find(g => g.grvnNum === grvnNum)`: the first row with that number. */
  function FindGrievance(rows: seq<Grievance>, grvnNum: string): (r: Option<Grievance>)
    ensures r.Some? ==> r.value in rows && r.value.grvnNum == grvnNum
    ensures r.Some? ==> exists i :: 0 <= i < |rows| && rows[i] == r.value &&
                                    forall k :: 0 <= k < i ==> rows[k].grvnNum != grvnNum
    ensures r.None? <==> forall g :: g in rows ==> g.grvnNum != grvnNum
  {
    if rows == [] then None
    else if rows[0].grvnNum == grvnNum then Some(rows[0])
    else
      var r := FindGrievance(rows[1..], grvnNum);
      assert forall g :: g in rows <==> g == rows[0] || g in rows[1..];
      if r.Some? then
        var i :| 0 <= i < |rows[1..]| && rows[1..][i] == r.value &&
                 forall k :: 0 <= k < i ==> rows[1..][k].grvnNum != grvnNum;
        assert rows[i + 1] == r.value;
        r
      else r
  }

  function TimelinePath(grvnNum: string): string
  {
    "/grievance/" + grvnNum + "/timeline"
  }

  function InvestigationPath(investigationNum: string, action: string): string
  {
    "/officer/investigations/" + investigationNum + "/" + action
  }

  /** The body of the self-assignment request. */
  function SelfAssignPayload(officerNum: string): Json
  {
    JObject(map["officerNum" := JString(officerNum), "remarks" := JString("Assigned for investigation")])
  }

  /** The body of the add-investigation request: the form as typed. */
  function AddPayload(grvnNum: string, form: InvestigationForm): Json
  {
    JObject(map["grvnNum" := JString(grvnNum), "findings" := JString(form.findings),
                "remarks" := JString(form.remarks), "outcome" := JString(form.outcome)])
  }

  /** The body of the update request: each field trimmed. */
  function UpdatePayload(form: UpdateForm): Json
  {
    JObject(map["findings" := JString(Trim(form.findings)), "remarks" := JString(Trim(form.remarks)),
                "outcome" := JString(Trim(form.outcome))])
  }

  /** `value || ''` for an optional text field. */
  function OrEmpty(v: Option<string>): string
  {
    if v.Some? then v.value else ""
  }

  /** The error the add-investigation button reports, if any. */
  function AddInvestigationError(isAssigned: bool, grievance: Option<Grievance>): (r: Option<string>)
    ensures r.None? <==> isAssigned && grievance.Some? && NormalizeStatus(grievance.value.status) == InProcess
    ensures !isAssigned ==> r == Some(SelectFirst)
    ensures r.Some? ==> r.value != ""
  {
    var status := if grievance.Some? then NormalizeStatus(grievance.value.status) else "";
    if !isAssigned then Some(SelectFirst)
    else if status != InProcess then
      Some("Investigations can only be added when grievance is 'In-Process'. Current status: " +
           ReplaceAllChar(status, '_', ' '))
    else None
  }

  /** The error shown when an investigation update is refused, by what came back. */
  function UpdateErrorMessage(reply: Reply, investigationNum: string): (m: string)
    requires !Succeeded(reply)
    ensures m != ""
    ensures reply.Answered? && reply.status == 404 ==> m == "Investigation " + investigationNum + " not found."
    ensures reply.Answered? && reply.status == 403 ==> m == "You don't have permission to update this investigation."
    ensures reply.NoResponse? ==> m == "No response from server. Please check your connection."
    ensures reply.NotSent? ==> m == "Request failed: " + reply.reason
    ensures reply.Answered? && reply.status != 404 && reply.status != 403 &&
            (Message(reply.body, "message").Some? || Message(reply.body, "error").Some?) ==>
            m == FirstMessage(reply.body, ["message", "error"], "")
    ensures reply.Answered? && Message(reply.body, "message").None? && Message(reply.body, "error").None? ==>
            && (reply.status == 400 ==> m == "Invalid data provided. Please check all fields.")
            && (reply.status !in {400, 403, 404} ==> m == "Server error (" + IntText(reply.status) + "). Please try again.")
  {
    match reply
    case Answered(status, body) =>
      if status == 404 then "Investigation " + investigationNum + " not found."
      else if status == 403 then "You don't have permission to update this investigation."
      else
        var fallback := if status == 400 then "Invalid data provided. Please check all fields."
                        else "Server error (" + IntText(status) + "). Please try again.";
        FirstMessageSpec(body, ["message", "error"], fallback);
        FirstMessageSpec(body, ["message", "error"], "");
        FirstMessage(body, ["message", "error"], fallback)
    case NoResponse => "No response from server. Please check your connection."
    case NotSent(reason) => "Request failed: " + reason
  }

  /** The Select button: offered while self-assignment is on and the grievance is not yet taken. */
  predicate ShowsSelect(flags: map<string, bool>, isAssigned: bool)
  {
    Enabled(flags, GrievanceSelfAssignment) && !isAssigned
  }

  /** The Update and End buttons of an investigation: only for the assigned officer, only while it is open. */
  predicate ShowsInvestigationActions(isAssigned: bool, inv: Investigation)
  {
    isAssigned && (inv.endDate.None? || inv.endDate.value == "")
  }

  /** The note under "+ Add Investigation" that the grievance must be in process. */
  predicate ShowsStatusNote(grievance: Option<Grievance>)
  {
    (if grievance.Some? then NormalizeStatus(grievance.value.status) else "") != InProcess
  }

  /** The update form's submit button is disabled while the findings are blank. */
  predicate UpdateSubmitDisabled(updating: bool, form: UpdateForm)
  {
    updating || Trim(form.findings) == ""
  }

  /** The Select button and an investigation's action buttons are never offered together. */
  lemma SelectExcludesActions(flags: map<string, bool>, isAssigned: bool, inv: Investigation)
    ensures ShowsSelect(flags, isAssigned) ==> !ShowsInvestigationActions(isAssigned, inv)
    ensures ShowsInvestigationActions(isAssigned, inv) ==> AddInvestigationError(isAssigned, None) != Some(SelectFirst)
  {
  }

  /** The add button opens the modal exactly when the note is not shown. */
  lemma AddOpensIffNoNote(grievance: Option<Grievance>)
    ensures AddInvestigationError(true, grievance).None? <==> !ShowsStatusNote(grievance)
  {
  }

  /** A submit that the disabled button would prevent is also refused by the handler. */
  lemma DisabledSubmitRefused(form: UpdateForm)
    ensures UpdateSubmitDisabled(false, form) <==> AllSpace(form.findings)
  {
    TrimEmpty(form.findings);
  }

  class OfficerGrievancePage {
    const store: LocalStorage
    const grvnNum: string
    var data: Loaded
    var isAssigned: bool
    var flags: map<string, bool>
    var banner: Banner
    /** A navigation the page has scheduled. */
    var redirect: Option<string>
    var addModal: AddModal
    var updateModal: UpdateModal

    constructor (store: LocalStorage, grvnNum: string)
      ensures this.store == store && this.grvnNum == grvnNum
      ensures data == Loaded(None, None, true, true)
      ensures !isAssigned && banner == Banner("", "") && redirect.None?
      ensures flags == map[OfficerTableView := true, GrievanceSelfAssignment := true, InvestigateWorkflow := true]
      ensures addModal == AddModal(false, InvestigationForm(grvnNum, "", "", ""))
      ensures updateModal == UpdateModal(false, None, UpdateForm("", "", ""))
    {
      this.store := store;
      this.grvnNum := grvnNum;
      data := Loaded(None, None, true, true);
      isAssigned := false;
      flags := map[OfficerTableView := true, GrievanceSelfAssignment := true, InvestigateWorkflow := true];
      banner := Banner("", "");
      redirect := None;
      addModal := AddModal(false, InvestigationForm(grvnNum, "", "", ""));
      updateModal := UpdateModal(false, None, UpdateForm("", "", ""));
    }

    /**
     * The mount effect. Without an officer session the page reports it and
     * schedules the login route; otherwise it requests the grievance and its
     * timeline, loads the flags and reads the assignment cache. Neither read
     * is guarded: `thrown` says the effect stopped at an entry JSON.parse
     * refuses, after the requests went out.
     */
    method Mount() returns (calls: seq<Call>, thrown: bool)
      modifies this
      ensures !OfficerSession(store.items) ==>
        calls == [] && !thrown && banner == old(banner).(error := LoginRequired) && redirect == Some("/login") &&
        data == old(data) && flags == old(flags) && isAssigned == old(isAssigned)
      ensures OfficerSession(store.items) ==>
        calls == [HttpGet(ListPath), HttpGet(TimelinePath(grvnNum))] &&
        data == old(data).(loading := true, timelineLoading := true) &&
        banner == old(banner) && redirect == old(redirect)
      ensures OfficerSession(store.items) && FlagsParseThrows(store.items) ==>
        thrown && flags == old(flags) && isAssigned == old(isAssigned)
      ensures OfficerSession(store.items) && !FlagsParseThrows(store.items) ==>
        flags == LoadedFlags(store.items, old(flags)) &&
        (thrown <==> ReadAssigned(store.items).None?) &&
        isAssigned == (if thrown then old(isAssigned) else IsCached(store.items, grvnNum))
      ensures addModal == old(addModal) && updateModal == old(updateModal)
    {
      thrown := false;
      if !OfficerSession(store.items) {
        banner := banner.(error := LoginRequired);
        redirect := Some("/login");
        calls := [];
        return;
      }
      data := data.(loading := true, timelineLoading := true);
      calls := [HttpGet(ListPath), HttpGet(TimelinePath(grvnNum))];
      if FlagsParseThrows(store.items) {
        thrown := true;
        return;
      }
      flags := LoadedFlags(store.items, flags);
      if ReadAssigned(store.items).None? {
        thrown := true;
        return;
      }
      isAssigned := IsCached(store.items, grvnNum);
    }

    /**
     * fetchGrievanceDetails completing: `rows` is the listing, or None when the
     * request failed or its body was not an array. A successful load leaves an
     * earlier error in place.
     */
    method LoadGrievanceDetails(rows: Option<seq<Grievance>>)
      modifies this
      ensures !data.loading && data.timeline == old(data.timeline) && data.timelineLoading == old(data.timelineLoading)
      ensures rows.None? ==> banner == old(banner).(error := LoadFailed) && data.grievance == old(data.grievance)
      ensures rows.Some? && FindGrievance(rows.value, grvnNum).None? ==>
        banner == old(banner).(error := NotFound) && data.grievance == old(data.grievance)
      ensures rows.Some? && FindGrievance(rows.value, grvnNum).Some? ==>
        banner == old(banner) && data.grievance == FindGrievance(rows.value, grvnNum)
      ensures isAssigned == old(isAssigned) && flags == old(flags) && redirect == old(redirect)
      ensures addModal == old(addModal) && updateModal == old(updateModal)
    {
      if rows.None? {
        banner := banner.(error := LoadFailed);
      } else {
        var found := FindGrievance(rows.value, grvnNum);
        if found.None? {
          banner := banner.(error := NotFound);
        } else {
          data := data.(grievance := found);
        }
      }
      data := data.(loading := false);
    }

    /** fetchTimeline completing; a failure is silent and keeps the old timeline. */
    method ReceiveTimeline(reply: Reply)
      modifies this
      ensures data == old(data).(timeline := if Succeeded(reply) then Some(reply.body) else old(data.timeline),
                                 timelineLoading := false)
      ensures banner == old(banner) && isAssigned == old(isAssigned) && flags == old(flags) && redirect == old(redirect)
      ensures addModal == old(addModal) && updateModal == old(updateModal)
    {
      if Succeeded(reply) {
        data := data.(timeline := Some(reply.body));
      }
      data := data.(timelineLoading := false);
    }

    /**
     * handleSelect: the officer takes the grievance on. It is refused while
     * self-assignment is off, and when no user number is stored; otherwise
     * the error is cleared and the assignment sent under that number.
     */
    method HandleSelect(reply: Reply) returns (calls: seq<Call>)
      modifies this, store
      ensures !Enabled(old(flags), GrievanceSelfAssignment) ==>
        calls == [] && banner == old(banner).(error := ComingSoon) &&
        store.items == old(store.items) && isAssigned == old(isAssigned) && redirect == old(redirect)
      ensures Enabled(old(flags), GrievanceSelfAssignment) && !HasText(old(store.items), UserNumKey) ==>
        calls == [] && banner == old(banner).(error := OfficerMissing) && redirect == Some("/login") &&
        store.items == old(store.items) && isAssigned == old(isAssigned)
      ensures Enabled(old(flags), GrievanceSelfAssignment) && HasText(old(store.items), UserNumKey) ==>
        |calls| >= 1 && calls[0] == HttpPut(AssignPath(grvnNum), Some(SelfAssignPayload(TextItem(old(store.items), UserNumKey).value))) &&
        redirect == old(redirect) &&
        AssignmentApplied(old(store.items), old(isAssigned), old(banner).(error := ""), reply, calls)
      ensures ShowsSelect(old(flags), old(isAssigned)) && HasText(old(store.items), UserNumKey) ==>
        |calls| >= 1 && calls[0].HttpPut? && calls[0].path == AssignPath(grvnNum)
      ensures data == old(data) && flags == old(flags)
      ensures addModal == old(addModal) && updateModal == old(updateModal)
    {
      if !Enabled(flags, GrievanceSelfAssignment) {
        banner := banner.(error := ComingSoon);
        calls := [];
        return;
      }
      banner := banner.(error := "");
      if !HasText(store.items, UserNumKey) {
        banner := banner.(error := OfficerMissing);
        redirect := Some("/login");
        calls := [];
        return;
      }
      calls := SendSelfAssignment(TextItem(store.items, UserNumKey).value, reply);
    }

    /**
     * What the assignment request leaves behind, given the store, the
     * assigned flag and the banner from before it was sent.
     */
    twostate predicate AssignmentApplied(items: map<string, Value>, wasAssigned: bool, before: Banner,
                                         reply: Reply, calls: seq<Call>)
      reads this, store
    {
      && |calls| >= 1
      && (Succeeded(reply) && reply.status == 200 && RecordAssignment(items, grvnNum).Some? ==>
            store.items == RecordAssignment(items, grvnNum).value && isAssigned &&
            banner == before.(success := "Grievance " + grvnNum + " has been assigned to you successfully!") &&
            calls[1..] == [HttpGet(ListPath), HttpGet(TimelinePath(grvnNum))])
      && (Succeeded(reply) && reply.status == 200 && RecordAssignment(items, grvnNum).None? ==>
            store.items == items && isAssigned == wasAssigned && |calls| == 1 &&
            banner == before.(error := "Failed to assign grievance. Please try again."))
      && (Succeeded(reply) && reply.status != 200 ==>
            store.items == items && isAssigned == wasAssigned && banner == before && |calls| == 1)
      && (!Succeeded(reply) ==>
            store.items == items && isAssigned == wasAssigned && |calls| == 1 &&
            banner == before.(error := FirstMessage(ErrorBody(reply), ["details", "message", "error"],
                                                    "Failed to assign grievance. Please try again.")))
    }

    /**
     * The request part of handleSelect: a 200 records the grievance in the
     * cache, marks the page assigned and reloads the grievance and its
     * timeline; a failure shows the server's reason, and an unreadable cache
     * throws into the same catch with its fixed fallback.
     */
    method SendSelfAssignment(officerNum: string, reply: Reply) returns (calls: seq<Call>)
      modifies this, store
      ensures |calls| >= 1 && calls[0] == HttpPut(AssignPath(grvnNum), Some(SelfAssignPayload(officerNum)))
      ensures AssignmentApplied(old(store.items), old(isAssigned), old(banner), reply, calls)
      ensures Succeeded(reply) && reply.status == 200 && ReadAssigned(old(store.items)).Some? ==>
        !ShowsSelect(flags, isAssigned)
      ensures data == old(data) && flags == old(flags) && redirect == old(redirect)
      ensures addModal == old(addModal) && updateModal == old(updateModal)
    {
      calls := [HttpPut(AssignPath(grvnNum), Some(SelfAssignPayload(officerNum)))];
      if !Succeeded(reply) {
        banner := banner.(error := FirstMessage(ErrorBody(reply), ["details", "message", "error"],
                                                "Failed to assign grievance. Please try again."));
        return;
      }
      if reply.status == 200 {
        var read := ReadAssigned(store.items);
        if read.None? {
          banner := banner.(error := "Failed to assign grievance. Please try again.");
          return;
        }
        var stored := read.value;
        if grvnNum !in stored {
          store.SetItem(AssignedKey, IdList(stored + [grvnNum]));
        }
        isAssigned := true;
        banner := banner.(success := "Grievance " + grvnNum + " has been assigned to you successfully!");
        calls := calls + [HttpGet(ListPath), HttpGet(TimelinePath(grvnNum))];
      }
    }

    /** handleAddInvestigation: open the modal, or say why not. */
    method HandleAddInvestigation()
      modifies this
      ensures AddInvestigationError(isAssigned, data.grievance).None? ==>
        addModal == old(addModal).(open := true) && banner == old(banner)
      ensures AddInvestigationError(isAssigned, data.grievance).Some? ==>
        addModal == old(addModal) &&
        banner == old(banner).(error := AddInvestigationError(isAssigned, data.grievance).value)
      ensures data == old(data) && isAssigned == old(isAssigned) && flags == old(flags) && redirect == old(redirect)
      ensures updateModal == old(updateModal)
    {
      var refusal := AddInvestigationError(isAssigned, data.grievance);
      if refusal.Some? {
        banner := banner.(error := refusal.value);
        return;
      }
      addModal := addModal.(open := true);
    }

    /** Typing into the add-investigation form. */
    method EditInvestigation(form: InvestigationForm)
      modifies this
      ensures addModal == old(addModal).(form := form)
      ensures data == old(data) && isAssigned == old(isAssigned) && flags == old(flags) && redirect == old(redirect)
      ensures banner == old(banner) && updateModal == old(updateModal)
    {
      addModal := addModal.(form := form);
    }

    /** The add modal's Cancel button: the form keeps what was typed. */
    method CloseInvestigationModal()
      modifies this
      ensures addModal == old(addModal).(open := false)
      ensures data == old(data) && isAssigned == old(isAssigned) && flags == old(flags) && redirect == old(redirect)
      ensures banner == old(banner) && updateModal == old(updateModal)
    {
      addModal := addModal.(open := false);
    }

    /**
     * handleSubmitInvestigation: findings that trim to nothing are refused;
     * otherwise the error is cleared and the form posted.
     */
    method HandleSubmitInvestigation(reply: Reply) returns (calls: seq<Call>)
      modifies this
      ensures Trim(old(addModal).form.findings) == "" ==>
        calls == [] && banner == old(banner).(error := FindingsRequired) && addModal == old(addModal)
      ensures Trim(old(addModal).form.findings) != "" ==>
        InvestigationPosted(old(addModal), old(banner).(error := ""), reply, calls)
      ensures data == old(data) && isAssigned == old(isAssigned) && flags == old(flags) && redirect == old(redirect)
      ensures updateModal == old(updateModal)
    {
      if Trim(addModal.form.findings) == "" {
        banner := banner.(error := FindingsRequired);
        calls := [];
        return;
      }
      banner := banner.(error := "");
      calls := PostInvestigation(reply);
    }

    /** What posting the add form leaves behind, given the modal and banner from before. */
    predicate InvestigationPosted(before: AddModal, shown: Banner, reply: Reply, calls: seq<Call>)
      reads this
    {
      && |calls| >= 1
      && calls[0] == HttpPost("/officer/investigations/add", AddPayload(grvnNum, before.form))
      && (Succeeded(reply) ==>
            calls[1..] == [HttpGet(ListPath), HttpGet(TimelinePath(grvnNum))] &&
            banner == shown.(success := InvestigationAdded) &&
            addModal == AddModal(false, InvestigationForm(grvnNum, "", "", "")))
      && (!Succeeded(reply) ==>
            |calls| == 1 && addModal == before &&
            banner == shown.(error := FirstMessage(ErrorBody(reply), ["message", "error"],
                                                   "Failed to add investigation. Please try again.")))
    }

    /**
     * The request part of handleSubmitInvestigation: the form goes out as
     * typed (not trimmed); success closes the modal, clears the form and
     * reloads the grievance and its timeline.
     */
    method PostInvestigation(reply: Reply) returns (calls: seq<Call>)
      modifies this
      ensures InvestigationPosted(old(addModal), old(banner), reply, calls)
      ensures data == old(data) && isAssigned == old(isAssigned) && flags == old(flags) && redirect == old(redirect)
      ensures updateModal == old(updateModal)
    {
      calls := [HttpPost("/officer/investigations/add", AddPayload(grvnNum, addModal.form))];
      if !Succeeded(reply) {
        banner := banner.(error := FirstMessage(ErrorBody(reply), ["message", "error"],
                                                "Failed to add investigation. Please try again."));
        return;
      }
      banner := banner.(success := InvestigationAdded);
      addModal := AddModal(false, InvestigationForm(grvnNum, "", "", ""));
      calls := calls + [HttpGet(ListPath), HttpGet(TimelinePath(grvnNum))];
    }

    /** handleUpdateInvestigation: open the update modal on a copy of the investigation. */
    method HandleUpdateInvestigation(inv: Investigation)
      modifies this
      ensures updateModal == UpdateModal(true, Some(inv), UpdateForm(inv.findings, OrEmpty(inv.remarks), OrEmpty(inv.outcome)))
      ensures data == old(data) && isAssigned == old(isAssigned) && flags == old(flags) && redirect == old(redirect)
      ensures banner == old(banner) && addModal == old(addModal)
    {
      updateModal := UpdateModal(true, Some(inv), UpdateForm(inv.findings, OrEmpty(inv.remarks), OrEmpty(inv.outcome)));
    }

    /** Typing into the update form. */
    method EditUpdate(form: UpdateForm)
      modifies this
      ensures updateModal == old(updateModal).(form := form)
      ensures data == old(data) && isAssigned == old(isAssigned) && flags == old(flags) && redirect == old(redirect)
      ensures banner == old(banner) && addModal == old(addModal)
    {
      updateModal := updateModal.(form := form);
    }

    /** The update modal's Cancel button: closes it, drops the selection and clears the error. */
    method CloseUpdateModal()
      modifies this
      ensures updateModal == old(updateModal).(open := false, selected := None)
      ensures banner == old(banner).(error := "")
      ensures data == old(data) && isAssigned == old(isAssigned) && flags == old(flags) && redirect == old(redirect)
      ensures addModal == old(addModal)
    {
      updateModal := updateModal.(open := false, selected := None);
      banner := banner.(error := "");
    }

    /**
     * handleSubmitUpdate. The form exists only while the update modal shows a
     * selected investigation. The error is cleared first; findings that trim
     * to nothing are refused, otherwise the update is sent.
     */
    method HandleSubmitUpdate(reply: Reply) returns (calls: seq<Call>)
      requires updateModal.open && updateModal.selected.Some?
      modifies this
      ensures Trim(old(updateModal).form.findings) == "" ==>
        calls == [] && banner == old(banner).(error := FindingsRequired) && updateModal == old(updateModal)
      ensures Trim(old(updateModal).form.findings) != "" ==>
        UpdateSent(old(updateModal), old(banner).(error := ""), reply, calls)
      ensures data == old(data) && isAssigned == old(isAssigned) && flags == old(flags) && redirect == old(redirect)
      ensures addModal == old(addModal)
    {
      banner := banner.(error := "");
      if Trim(updateModal.form.findings) == "" {
        banner := banner.(error := FindingsRequired);
        calls := [];
        return;
      }
      calls := PutInvestigationUpdate(reply);
    }

    /** What sending the update form leaves behind, given the modal and banner from before. */
    predicate UpdateSent(before: UpdateModal, shown: Banner, reply: Reply, calls: seq<Call>)
      requires before.selected.Some?
      reads this
    {
      && |calls| >= 1
      && calls[0] == HttpPut(InvestigationPath(before.selected.value.investigationNum, "update"),
                             Some(UpdatePayload(before.form)))
      && (Succeeded(reply) ==>
            calls[1..] == [HttpGet(TimelinePath(grvnNum)), HttpGet(ListPath)] &&
            banner == shown.(success := InvestigationUpdated) &&
            updateModal == UpdateModal(false, None, UpdateForm("", "", "")))
      && (!Succeeded(reply) ==>
            |calls| == 1 && updateModal == before &&
            banner == shown.(error := UpdateErrorMessage(reply, before.selected.value.investigationNum)))
    }

    /**
     * The request part of handleSubmitUpdate: the three fields go out
     * trimmed; success closes the modal and reloads, a failure keeps it open
     * so the officer can correct and resend.
     */
    method PutInvestigationUpdate(reply: Reply) returns (calls: seq<Call>)
      requires updateModal.selected.Some?
      modifies this
      ensures UpdateSent(old(updateModal), old(banner), reply, calls)
      ensures data == old(data) && isAssigned == old(isAssigned) && flags == old(flags) && redirect == old(redirect)
      ensures addModal == old(addModal)
    {
      var num := updateModal.selected.value.investigationNum;
      calls := [HttpPut(InvestigationPath(num, "update"), Some(UpdatePayload(updateModal.form)))];
      if !Succeeded(reply) {
        banner := banner.(error := UpdateErrorMessage(reply, num));
        return;
      }
      banner := banner.(success := InvestigationUpdated);
      updateModal := UpdateModal(false, None, UpdateForm("", "", ""));
      calls := calls + [HttpGet(TimelinePath(grvnNum)), HttpGet(ListPath)];
    }

    /**
     * handleEndInvestigation: after the officer confirms, the investigation is
     * ended and the timeline requested again.
     */
    method HandleEndInvestigation(investigationNum: string, confirmed: bool, reply: Reply) returns (calls: seq<Call>)
      modifies this
      ensures !confirmed ==> calls == [] && banner == old(banner)
      ensures confirmed && Succeeded(reply) ==>
        calls == [HttpPut(InvestigationPath(investigationNum, "end"), None), HttpGet(TimelinePath(grvnNum))] &&
        banner == old(banner).(error := "", success := InvestigationEnded)
      ensures confirmed && !Succeeded(reply) ==>
        calls == [HttpPut(InvestigationPath(investigationNum, "end"), None)] &&
        banner == old(banner).(error := FirstMessage(ErrorBody(reply), ["message", "error"],
                                                     "Failed to end investigation. Please try again."))
      ensures data == old(data) && isAssigned == old(isAssigned) && flags == old(flags) && redirect == old(redirect)
      ensures addModal == old(addModal) && updateModal == old(updateModal)
    {
      if !confirmed {
        calls := [];
        return;
      }
      calls := [HttpPut(InvestigationPath(investigationNum, "end"), None)];
      if !Succeeded(reply) {
        banner := banner.(error := FirstMessage(ErrorBody(reply), ["message", "error"],
                                                "Failed to end investigation. Please try again."));
        return;
      }
      banner := banner.(error := "", success := InvestigationEnded);
      calls := calls + [HttpGet(TimelinePath(grvnNum))];
    }
  }
}
