// Filing a grievance: the category→topic table and the topic reset on a
// category change, the create request, the id taken from its answer, and the
// attachment upload that follows only when there is something to attach.

module ApplyGrievance {
  import opened Base

  /** CATEGORY_MAP: the topics offered for each category, in display order. */
  const Topics: map<string, seq<string>> := map[
    "SAL" := ["Non-payment / Delay / Deduction", "Bonus Issues", "Minimum Wages", "Overtime Issues",
              "Excess Working Hours"],
    "HR" := ["Leave Rejection", "Workplace Harassment", "Sexual Harassment", "Discrimination",
             "Promotion Issues", "Illegal Termination", "Retrenchment / Layoff"],
    "SAF" := ["Unsafe Working Conditions", "Workplace Injuries"],
    "FIN" := ["Provident Fund Issues", "ESI Issues", "Gratuity Issues"],
    "CON" := ["Agreement Violation"],
    "TRF" := ["Forced Transfer"],
    "IT" := ["Data Misuse"]]

  /** `CATEGORY_MAP[category] || []` */
  function AvailableTopics(category: string): (r: seq<string>)
    ensures category in Topics ==> r == Topics[category] && r != []
    ensures category !in Topics ==> r == []
  {
    if category in Topics then Topics[category] else []
  }

  datatype ApplyForm = ApplyForm(category: string, subject: string, description: string, severity: string)

  const InitialForm := ApplyForm("SAL", "", "", "LOW")

  /** The category effect: the subject becomes the category's first topic, or "". */
  function ResetTopic(f: ApplyForm): (r: ApplyForm)
    ensures r.category == f.category && r.description == f.description && r.severity == f.severity
    ensures r.subject == "" <==> AvailableTopics(f.category) == []
    ensures r.subject != "" ==> r.subject in AvailableTopics(f.category)
  {
    var available := AvailableTopics(f.category);
    f.(subject := if available == [] then "" else available[0])
  }

  /** A reset subject never comes from another category's list, and resetting twice changes nothing. */
  lemma ResetTopicBelongs(f: ApplyForm)
    ensures ResetTopic(ResetTopic(f)) == ResetTopic(f)
    ensures f.category in Topics ==> ResetTopic(f).subject == Topics[f.category][0]
    ensures f.category !in Topics ==> ResetTopic(f).subject == ""
  {
  }

  /** The form a new filing opens with. */
  lemma InitialSubject()
    ensures ResetTopic(InitialForm).subject == "Non-payment / Delay / Deduction"
    ensures ResetTopic(InitialForm).category == "SAL" && ResetTopic(InitialForm).severity == "LOW"
  {
  }

  /** The create body: the category goes out as `categoryNum`, the rest as typed. */
  function CreatePayload(f: ApplyForm): (j: Json)
    ensures j.JObject? && j.fields.Keys == {"categoryNum", "subject", "description", "severity"}
    ensures Get(j, "categoryNum") == Some(JString(f.category)) && Get(j, "subject") == Some(JString(f.subject))
    ensures Get(j, "description") == Some(JString(f.description)) && Get(j, "severity") == Some(JString(f.severity))
  {
    StringObject(map["categoryNum" := f.category, "subject" := f.subject,
                     "description" := f.description, "severity" := f.severity])
  }

  /**
   * `res.data.grvnNum || res.data`: the body's truthy `grvnNum`, else the
   * whole body; None for a null body, where reading the property throws.
   */
  function NewGrievanceId(body: Json): (r: Option<Json>)
    ensures r.None? <==> body == JNull
    ensures r.Some? && Get(body, "grvnNum").Some? && Truthy(Get(body, "grvnNum").value) ==>
              r.value == Get(body, "grvnNum").value
    ensures r.Some? && !(Get(body, "grvnNum").Some? && Truthy(Get(body, "grvnNum").value)) ==> r.value == body
  {
    if body == JNull then None
    else match Get(body, "grvnNum")
      case Some(v) => if Truthy(v) then Some(v) else Some(body)
      case None => Some(body)
  }

  /** The upload happens only with staged files and a truthy id. */
  predicate UploadNeeded(files: seq<File>, id: Json)
  {
    |files| > 0 && Truthy(id)
  }

  /**
   * The upload form: one "files" entry per staged file, in order, then the
   * parent table and the parent id as text.
   */
  predicate UploadFormOf(entries: seq<FormEntry>, files: seq<File>, id: Json)
  {
    && |entries| == |files| + 2
    && (forall i :: 0 <= i < |files| ==> entries[i] == FileEntry("files", files[i]))
    && entries[|files|] == TextEntry("parentTable", "grievances")
    && entries[|files| + 1] == TextEntry("parentId", JsonText(id))
  }

  method BuildUploadForm(files: seq<File>, id: Json) returns (entries: seq<FormEntry>)
    ensures |entries| == |files| + 2
    ensures forall i :: 0 <= i < |files| ==> entries[i] == FileEntry("files", files[i])
    ensures entries[|files|] == TextEntry("parentTable", "grievances")
    ensures entries[|files| + 1] == TextEntry("parentId", JsonText(id))
    ensures UploadFormOf(entries, files, id)
  {
    entries := [];
    var i := 0;
    while i < |files|
      invariant 0 <= i <= |files|
      invariant |entries| == i
      invariant forall k :: 0 <= k < i ==> entries[k] == FileEntry("files", files[k])
    {
      entries := entries + [FileEntry("files", files[i])];
      i := i + 1;
    }
    entries := entries + [TextEntry("parentTable", "grievances")];
    entries := entries + [TextEntry("parentId", JsonText(id))];
  }

  const CreatePath := "/employee/grievances"
  const UploadPath := "/attachments/upload"
  const Filed := "Grievance and attachments filed successfully!"
  /** The fallback shown for any failure, the create request's included. */
  const SubmitFallback := "Grievance saved, but failed to upload files."

  /** `err.response?.data?.message || fallback` for a failed request. */
  function SubmitError(reply: Reply): (msg: string)
    ensures msg != ""
    ensures Message(ErrorBody(reply), "message").Some? ==> msg == Message(ErrorBody(reply), "message").value
    ensures Message(ErrorBody(reply), "message").None? ==> msg == SubmitFallback
  {
    FirstMessageSpec(ErrorBody(reply), ["message"], SubmitFallback);
    FirstMessage(ErrorBody(reply), ["message"], SubmitFallback)
  }

  class ApplyGrievancePage {
    var form: ApplyForm
    var topics: seq<string>
    var loading: bool
    var error: string
    var selectedFiles: seq<File>

    constructor ()
      ensures form == InitialForm && topics == [] && !loading && error == "" && selectedFiles == []
    {
      form := InitialForm;
      topics := [];
      loading := false;
      error := "";
      selectedFiles := [];
    }

    /** The category effect, run on mount and after every category change. */
    method CategoryEffect()
      modifies this
      ensures topics == AvailableTopics(form.category)
      ensures form == ResetTopic(old(form))
      ensures loading == old(loading) && error == old(error) && selectedFiles == old(selectedFiles)
    {
      var available := AvailableTopics(form.category);
      topics := available;
      form := form.(subject := if available == [] then "" else available[0]);
    }

    /**
     * A form control changed. Changing the category re-runs the effect, so
     * the topic list follows the category and the subject is reset.
     */
    method HandleChange(name: string, value: string)
      modifies this
      ensures name == "category" && value != old(form.category) ==>
        form == ResetTopic(old(form).(category := value)) && topics == AvailableTopics(value)
      ensures name == "category" && value == old(form.category) ==> form == old(form) && topics == old(topics)
      ensures name == "subject" ==> form == old(form).(subject := value) && topics == old(topics)
      ensures name == "description" ==> form == old(form).(description := value) && topics == old(topics)
      ensures name == "severity" ==> form == old(form).(severity := value) && topics == old(topics)
      ensures name !in {"category", "subject", "description", "severity"} ==> form == old(form) && topics == old(topics)
      ensures loading == old(loading) && error == old(error) && selectedFiles == old(selectedFiles)
    {
      if name == "category" {
        if value != form.category {
          form := form.(category := value);
          CategoryEffect();
        }
      } else if name == "subject" {
        form := form.(subject := value);
      } else if name == "description" {
        form := form.(description := value);
      } else if name == "severity" {
        form := form.(severity := value);
      }
    }

    method HandleFileChange(files: seq<File>)
      modifies this
      ensures selectedFiles == files
      ensures form == old(form) && topics == old(topics) && loading == old(loading) && error == old(error)
    {
      selectedFiles := files;
    }

    /**
     * handleSubmit: create the grievance, then upload the staged files under
     * its id when there are files and the id is truthy. Success alerts and
     * returns to the dashboard; any failure only shows a message, and a
     * grievance already created stays.
     */
    method HandleSubmit(createReply: Reply, uploadReply: Reply) returns (calls: seq<Call>, alerts: seq<string>, route: Option<string>)
      modifies this
      ensures |calls| >= 1 && calls[0] == HttpPost(CreatePath, CreatePayload(form))
      ensures !Succeeded(createReply) ==> calls == calls[..1] && error == SubmitError(createReply)
      ensures Succeeded(createReply) && NewGrievanceId(createReply.body).None? ==>
        calls == calls[..1] && error == SubmitFallback
      ensures Succeeded(createReply) && NewGrievanceId(createReply.body).Some? ==>
        var id := NewGrievanceId(createReply.body).value;
        && (UploadNeeded(selectedFiles, id) <==> |calls| == 2)
        && (UploadNeeded(selectedFiles, id) ==>
              && calls[1].HttpPostForm? && calls[1].path == UploadPath
              && UploadFormOf(calls[1].entries, selectedFiles, id))
        && (UploadNeeded(selectedFiles, id) && !Succeeded(uploadReply) ==> error == SubmitError(uploadReply))
      ensures route.Some? <==> alerts == [Filed]
      ensures route.Some? ==> route.value == "/employee" && error == ""
      ensures route.None? ==> alerts == [] && error != ""
      ensures route.Some? <==>
        Succeeded(createReply) && NewGrievanceId(createReply.body).Some? &&
        (UploadNeeded(selectedFiles, NewGrievanceId(createReply.body).value) ==> Succeeded(uploadReply))
      ensures form == old(form) && topics == old(topics) && selectedFiles == old(selectedFiles) && !loading
    {
      loading := true;
      error := "";
      calls := [HttpPost(CreatePath, CreatePayload(form))];
      alerts, route := [], None;
      if !Succeeded(createReply) {
        error := SubmitError(createReply);
      } else {
        var id := NewGrievanceId(createReply.body);
        if id.None? {
          error := SubmitFallback;
        } else {
          var upload;
          upload, alerts, route := UploadAttachments(id.value, uploadReply);
          calls := calls + upload;
        }
      }
      loading := false;
    }

    /** The second phase, once the grievance exists under `id`. */
    method UploadAttachments(id: Json, uploadReply: Reply) returns (calls: seq<Call>, alerts: seq<string>, route: Option<string>)
      requires error == ""
      modifies this
      ensures UploadNeeded(selectedFiles, id) <==> |calls| == 1
      ensures !UploadNeeded(selectedFiles, id) ==> calls == []
      ensures UploadNeeded(selectedFiles, id) ==>
        && calls[0].HttpPostForm? && calls[0].path == UploadPath
        && UploadFormOf(calls[0].entries, selectedFiles, id)
      ensures UploadNeeded(selectedFiles, id) && !Succeeded(uploadReply) ==>
        error == SubmitError(uploadReply) && alerts == [] && route == None
      ensures !(UploadNeeded(selectedFiles, id) && !Succeeded(uploadReply)) ==>
        error == "" && alerts == [Filed] && route == Some("/employee")
      ensures form == old(form) && topics == old(topics) && selectedFiles == old(selectedFiles) && loading == old(loading)
    {
      calls := [];
      if UploadNeeded(selectedFiles, id) {
        var entries := BuildUploadForm(selectedFiles, id);
        calls := [HttpPostForm(UploadPath, entries)];
        if !Succeeded(uploadReply) {
          error := SubmitError(uploadReply);
          alerts, route := [], None;
          return;
        }
      }
      alerts, route := [Filed], Some("/employee");
    }
  }
}
