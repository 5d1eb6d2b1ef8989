// The employee's view of one grievance: the chained loads (details, timeline,
// and the resolution only for a resolved grievance), the controls a resolved
// grievance hides, the intended-resolve action and the appeal dialog.

module GrievanceDetails {
  import opened Base

  const LoadFailed := "Failed to load grievance details"

  function DetailsPath(grvnNum: string): string { "/grievances/" + grvnNum }
  function TimelinePath(grvnNum: string): string { "/grievance/" + grvnNum + "/timeline" }
  function ResolutionPath(grvnNum: string): string { "/resolutions/" + grvnNum }
  function IntendedResolvePath(grvnNum: string): string { "/employee/grievances/" + grvnNum + "/intended-resolve" }

  /** `grievance.status === 'RESOLVED'`, exactly. */
  predicate IsResolved(grievance: Json)
  {
    Get(grievance, "status") == Some(JString("RESOLVED"))
  }

  /** `timeline?.investigations?.length > 0` */
  predicate HasInvestigations(timeline: Json)
  {
    match Get(timeline, "investigations")
    case Some(JArray(items)) => |items| > 0
    case _ => false
  }

  /** The appeal buttons: one per investigation, and only while the controls show. */
  predicate ShowsAppealButtons(grievance: Json, timeline: Json)
  {
    HasInvestigations(timeline) && !IsResolved(grievance)
  }

  /** `grievance.description || "No description provided."` */
  function DescriptionText(grievance: Json): (r: Json)
    ensures Truthy(r)
    ensures Get(grievance, "description").Some? && Truthy(Get(grievance, "description").value) ==>
              r == Get(grievance, "description").value
    ensures !(Get(grievance, "description").Some? && Truthy(Get(grievance, "description").value)) ==>
              r == JString("No description provided.")
  {
    match Get(grievance, "description")
    case Some(d) => if Truthy(d) then d else JString("No description provided.")
    case None => JString("No description provided.")
  }

  /** The appeal dialog: open or not, the investigation it is for, the text typed. */
  datatype AppealModal = AppealModal(open: bool, invNum: Json, content: string)

  /** The requests fetchGrievanceData issues, in order, for the replies it gets. */
  function LoadRequests(grvnNum: string, details: Reply, timeline: Reply): (calls: seq<Call>)
    ensures 1 <= |calls| <= 3 && calls[0] == HttpGet(DetailsPath(grvnNum))
    ensures |calls| >= 2 <==> Succeeded(details)
    ensures |calls| == 3 <==> Succeeded(details) && Succeeded(timeline) && IsResolved(details.body)
    ensures |calls| == 3 ==> calls[2] == HttpGet(ResolutionPath(grvnNum))
  {
    if !Succeeded(details) then [HttpGet(DetailsPath(grvnNum))]
    else if !Succeeded(timeline) || !IsResolved(details.body) then
      [HttpGet(DetailsPath(grvnNum)), HttpGet(TimelinePath(grvnNum))]
    else [HttpGet(DetailsPath(grvnNum)), HttpGet(TimelinePath(grvnNum)), HttpGet(ResolutionPath(grvnNum))]
  }

  /**
   * Whether the chain of loads fails: a refused request, a null details body
   * (reading its status throws), or a refused resolution request.
   */
  predicate LoadFails(details: Reply, timeline: Reply, resolution: Reply)
  {
    || !Succeeded(details)
    || !Succeeded(timeline)
    || details.body == JNull
    || (IsResolved(details.body) && !Succeeded(resolution))
  }

  /** A grievance whose resolution was fetched never offers the appeal buttons. */
  lemma ResolutionHidesAppeals(grvnNum: string, details: Reply, timeline: Reply)
    ensures |LoadRequests(grvnNum, details, timeline)| == 3 ==> !ShowsAppealButtons(details.body, timeline.body)
  {
  }

  class GrievanceDetailsPage {
    const grvnNum: string
    var grievance: Json
    var timeline: Json
    var resolution: Json
    var loading: bool
    var error: string
    var intendedResolveClicked: bool
    var appeal: AppealModal

    constructor (grvnNum: string)
      ensures this.grvnNum == grvnNum
      ensures grievance == JNull && timeline == JNull && resolution == JNull
      ensures loading && error == "" && !intendedResolveClicked
      ensures appeal == AppealModal(false, JNull, "")
    {
      this.grvnNum := grvnNum;
      grievance := JNull;
      timeline := JNull;
      resolution := JNull;
      loading := true;
      error := "";
      intendedResolveClicked := false;
      appeal := AppealModal(false, JNull, "");
    }

    /**
     * fetchGrievanceData: details, then the timeline, then the resolution
     * when the details say RESOLVED. What arrived before a failure stays;
     * any failure sets the one error message; loading always ends.
     */
    method FetchGrievanceData(details: Reply, timelineReply: Reply, resolutionReply: Reply) returns (calls: seq<Call>)
      modifies this
      ensures calls == LoadRequests(grvnNum, details, timelineReply)
      ensures error == (if LoadFails(details, timelineReply, resolutionReply) then LoadFailed else old(error))
      ensures grievance == (if Succeeded(details) then details.body else old(grievance))
      ensures timeline == (if Succeeded(details) && Succeeded(timelineReply) then timelineReply.body else old(timeline))
      ensures resolution == (if |calls| == 3 && Succeeded(resolutionReply) then resolutionReply.body else old(resolution))
      ensures !loading
      ensures intendedResolveClicked == old(intendedResolveClicked) && appeal == old(appeal)
    {
      calls := [HttpGet(DetailsPath(grvnNum))];
      if !Succeeded(details) {
        error := LoadFailed;
        loading := false;
        return;
      }
      grievance := details.body;
      calls := calls + [HttpGet(TimelinePath(grvnNum))];
      if !Succeeded(timelineReply) {
        error := LoadFailed;
        loading := false;
        return;
      }
      timeline := timelineReply.body;
      if details.body == JNull {
        error := LoadFailed;
      } else if IsResolved(details.body) {
        calls := calls + [HttpGet(ResolutionPath(grvnNum))];
        if Succeeded(resolutionReply) {
          resolution := resolutionReply.body;
        } else {
          error := LoadFailed;
        }
      }
      loading := false;
    }

    /**
     * handleIntendedResolve. Declining the confirmation sends nothing; an
     * accepted request marks the click, alerts and starts a reload
     * (`reload`), a refused one only alerts.
     */
    method HandleIntendedResolve(confirmed: bool, reply: Reply) returns (calls: seq<Call>, alerts: seq<string>, reload: bool)
      modifies this
      ensures !confirmed ==> calls == [] && alerts == [] && !reload
      ensures confirmed ==> calls == [HttpPut(IntendedResolvePath(grvnNum), None)]
      ensures confirmed && Succeeded(reply) ==> alerts == ["Grievance marked for resolution."] && reload
      ensures confirmed && !Succeeded(reply) ==> alerts == ["Action failed."] && !reload
      ensures intendedResolveClicked == (old(intendedResolveClicked) || (confirmed && Succeeded(reply)))
      ensures grievance == old(grievance) && timeline == old(timeline) && resolution == old(resolution)
      ensures loading == old(loading) && error == old(error) && appeal == old(appeal)
    {
      if !confirmed {
        calls, alerts, reload := [], [], false;
        return;
      }
      calls := [HttpPut(IntendedResolvePath(grvnNum), None)];
      if Succeeded(reply) {
        intendedResolveClicked := true;
        alerts, reload := ["Grievance marked for resolution."], true;
      } else {
        alerts, reload := ["Action failed."], false;
      }
    }

    /** "File Appeal" on an investigation. */
    method OpenAppeal(invNum: Json)
      modifies this
      ensures appeal == old(appeal).(open := true, invNum := invNum)
      ensures grievance == old(grievance) && timeline == old(timeline) && resolution == old(resolution)
      ensures loading == old(loading) && error == old(error) && intendedResolveClicked == old(intendedResolveClicked)
    {
      appeal := appeal.(open := true, invNum := invNum);
    }

    method EditAppeal(content: string)
      modifies this
      ensures appeal == old(appeal).(content := content)
      ensures grievance == old(grievance) && timeline == old(timeline) && resolution == old(resolution)
      ensures loading == old(loading) && error == old(error) && intendedResolveClicked == old(intendedResolveClicked)
    {
      appeal := appeal.(content := content);
    }

    /** Cancel hides the dialog; the investigation and the text stay. */
    method CancelAppeal()
      modifies this
      ensures appeal == old(appeal).(open := false)
      ensures grievance == old(grievance) && timeline == old(timeline) && resolution == old(resolution)
      ensures loading == old(loading) && error == old(error) && intendedResolveClicked == old(intendedResolveClicked)
    {
      appeal := appeal.(open := false);
    }

    /** Submitting an appeal only raises a placeholder alert: nothing is sent or changed. */
    method SubmitAppeal() returns (calls: seq<Call>, alerts: seq<string>)
      ensures calls == [] && alerts == ["Submit appeal logic"]
    {
      calls, alerts := [], ["Submit appeal logic"];
    }
  }
}
