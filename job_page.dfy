/**
 * The job list page of src/pages/Job/index.tsx: the status-label lookup,
 * the list transformations its handlers apply, the tag parser of the
 * create dialog, and the page state with its handlers.
 */
module JobPage {
  import opened Wrappers
  import opened JsText
  import opened JobTypes
  import opened ApiHandler
  import opened Toasts
  import opened ResumeMatchClient

  const SelectStatus: string := "Select status"

  /** `JOB_STATUSES.find(s => s.value.toLowerCase() === val.toLowerCase())` over any option list. */
  function FindStatus(options: seq<StatusOption>, val: string): (r: Option<StatusOption>)
    ensures r.Some? ==> r.value in options && ToLower(r.value.value) == ToLower(val)
    ensures r.None? <==> forall k :: 0 <= k < |options| ==> ToLower(options[k].value) != ToLower(val)
  {
    if options == [] then None
    else if ToLower(options[0].value) == ToLower(val) then Some(options[0])
    else FindStatus(options[1..], val)
  }

  /** `getStatusLabel(val)`: the label found, unless it is missing or empty. */
  function StatusLabel(val: string): string
  {
    match FindStatus(JobStatuses, val)
    case Some(option) => if option.labelText != "" then option.labelText else SelectStatus
    case None => SelectStatus
  }

  /**
   * The label of the status whose value equals `val` ignoring case, and
   * "Select status" when none does.
   */
  lemma StatusLabelSpec(val: string)
    ensures forall k :: 0 <= k < |JobStatuses| && ToLower(JobStatuses[k].value) == ToLower(val) ==>
      StatusLabel(val) == JobStatuses[k].labelText
    ensures (forall k :: 0 <= k < |JobStatuses| ==> ToLower(JobStatuses[k].value) != ToLower(val)) ==>
      StatusLabel(val) == SelectStatus
  {
    ValuesDistinctIgnoringCase();
    LabelsAreValues();
    var r := FindStatus(JobStatuses, val);
    if r.Some? {
      var m :| 0 <= m < |JobStatuses| && JobStatuses[m] == r.value;
      forall k | 0 <= k < |JobStatuses| && ToLower(JobStatuses[k].value) == ToLower(val)
        ensures StatusLabel(val) == JobStatuses[k].labelText
      {
        assert k == m;
      }
    }
  }

  /**
   * A job whose status is the create form's upper-case default `"WISHLIST"`
   * is labelled "Wishlist" in its row and in the job dialog.
   */
  lemma DefaultStatusLabel()
    ensures StatusLabel("WISHLIST") == "Wishlist"
  {
    LowerValues();
    assert ToLower("WISHLIST") == "wishlist";
    StatusLabelSpec("WISHLIST");
  }

  /** `jobs.find(j => j.id === id)`: the first job with the id. */
  function FindJob(jobs: seq<Job>, id: string): (r: Option<Job>)
    ensures r.Some? ==> r.value in jobs && r.value.id == id
    ensures r.Some? ==> exists k :: 0 <= k < |jobs| && jobs[k] == r.value && forall i :: 0 <= i < k ==> jobs[i].id != id
    ensures r.None? <==> forall k :: 0 <= k < |jobs| ==> jobs[k].id != id
  {
    if jobs == [] then None
    else if jobs[0].id == id then Some(jobs[0])
    else FindJob(jobs[1..], id)
  }

  /** `jobs.map(job => job.id === id ? {...job, status} : job)`. */
  function WithStatus(jobs: seq<Job>, id: string, status: string): seq<Job>
  {
    if jobs == [] then []
    else [if jobs[0].id == id then jobs[0].(status := status) else jobs[0]] + WithStatus(jobs[1..], id, status)
  }

  /**
   * Saving a status keeps the list's length and order; each job with that id
   * gets the new status and keeps every other field; every other job is
   * left as it was.
   */
  lemma {:induction false} WithStatusSpec(jobs: seq<Job>, id: string, status: string)
    ensures |WithStatus(jobs, id, status)| == |jobs|
    ensures forall k :: 0 <= k < |jobs| ==>
      WithStatus(jobs, id, status)[k] == if jobs[k].id == id then jobs[k].(status := status) else jobs[k]
  {
    if jobs != [] {
      WithStatusSpec(jobs[1..], id, status);
      var r := WithStatus(jobs, id, status);
      forall k | 1 <= k < |jobs|
        ensures r[k] == if jobs[k].id == id then jobs[k].(status := status) else jobs[k]
      {
        assert r[k] == WithStatus(jobs[1..], id, status)[k - 1];
        assert jobs[1..][k - 1] == jobs[k];
      }
    }
  }

  /** `jobs.filter(job => job.id !== id)`. */
  function WithoutJob(jobs: seq<Job>, id: string): seq<Job>
  {
    if jobs == [] then []
    else (if jobs[0].id == id then [] else [jobs[0]]) + WithoutJob(jobs[1..], id)
  }

  /** How many jobs carry the id. */
  function CountId(jobs: seq<Job>, id: string): nat
  {
    if jobs == [] then 0 else (if jobs[0].id == id then 1 else 0) + CountId(jobs[1..], id)
  }

  /**
   * Deleting removes exactly the jobs with that id: what remains is every
   * other job, the length drops by the number of jobs with that id, and a
   * list without that id is returned unchanged.
   */
  lemma {:induction false} WithoutJobSpec(jobs: seq<Job>, id: string)
    ensures forall j :: j in WithoutJob(jobs, id) <==> j in jobs && j.id != id
    ensures |WithoutJob(jobs, id)| == |jobs| - CountId(jobs, id)
    ensures CountId(jobs, id) == 0 ==> WithoutJob(jobs, id) == jobs
  {
    if jobs != [] {
      WithoutJobSpec(jobs[1..], id);
      assert jobs == [jobs[0]] + jobs[1..];
    }
  }

  /** Deleting preserves the order of what remains: it distributes over concatenation. */
  lemma {:induction false} WithoutJobConcat(a: seq<Job>, b: seq<Job>, id: string)
    ensures WithoutJob(a + b, id) == WithoutJob(a, id) + WithoutJob(b, id)
  {
    if a == [] {
      assert a + b == b;
    } else {
      var ab := a + b;
      var head := if a[0].id == id then [] else [a[0]];
      assert ab[0] == a[0] && ab[1..] == a[1..] + b;
      assert WithoutJob(ab, id) == head + WithoutJob(a[1..] + b, id);
      WithoutJobConcat(a[1..], b, id);
      assert WithoutJob(a, id) == head + WithoutJob(a[1..], id);
    }
  }

  /** What a row's status select shows: the staged value when it is non-empty, else the job's status. */
  function DisplayedStatus(statusChanges: map<string, string>, job: Job): string
  {
    if job.id in statusChanges && statusChanges[job.id] != "" then statusChanges[job.id] else job.status
  }

  /** Whether the row offers "Save": a staged entry exists for the job, even an empty one. */
  predicate HasChanged(statusChanges: map<string, string>, id: string)
  {
    id in statusChanges
  }

  /**
   * After a status is staged, the staged row offers Save and shows the staged
   * value (its own status when that value is empty); every other row looks
   * exactly as before.
   */
  lemma StagedRow(statusChanges: map<string, string>, jobId: string, newStatus: string, job: Job)
    ensures HasChanged(statusChanges[jobId := newStatus], jobId)
    ensures job.id == jobId ==>
      DisplayedStatus(statusChanges[jobId := newStatus], job) == if newStatus != "" then newStatus else job.status
    ensures job.id != jobId ==>
      DisplayedStatus(statusChanges[jobId := newStatus], job) == DisplayedStatus(statusChanges, job)
      && (HasChanged(statusChanges[jobId := newStatus], job.id) <==> HasChanged(statusChanges, job.id))
  {
  }

  /**
   * After a successful save, every row with that id shows the status the
   * server returned and no longer offers Save.
   */
  lemma SavedRows(jobs: seq<Job>, statusChanges: map<string, string>, jobId: string, serverStatus: string)
    ensures forall k :: 0 <= k < |WithStatus(jobs, jobId, serverStatus)| && WithStatus(jobs, jobId, serverStatus)[k].id == jobId ==>
      DisplayedStatus(statusChanges - {jobId}, WithStatus(jobs, jobId, serverStatus)[k]) == serverStatus
      && !HasChanged(statusChanges - {jobId}, jobId)
  {
    WithStatusSpec(jobs, jobId, serverStatus);
  }

  /** `value || undefined`: an empty input is left out of the request. */
  function OptionalText(s: string): (r: Option<string>)
    ensures r.None? <==> s == ""
    ensures r.Some? ==> r.value == s
  {
    if s == "" then None else Some(s)
  }

  /** `tags ? tags.split(",").map(tag => tag.trim()) : undefined`. */
  function ParseTags(input: string): Option<seq<string>>
  {
    if input == "" then None
    else
      var pieces := Split(input, ',');
      Some(seq(|pieces|, k requires 0 <= k < |pieces| => Trim(pieces[k])))
  }

  /** A trimmed piece holds only characters of the piece. */
  lemma TrimInfix(s: string, c: char)
    requires c !in s
    ensures c !in Trim(s)
  {
    TrimSpec(s);
    var i, j := LeadingSpace(s), |s| - TrailingSpace(s[LeadingSpace(s)..]);
    forall k | 0 <= k < |Trim(s)| ensures Trim(s)[k] != c {
      assert Trim(s)[k] == s[i + k];
    }
  }

  /**
   * An empty tag input sends no tags; otherwise there is one tag per comma
   * plus one, each the trimmed piece between commas, holding no comma and
   * neither starting nor ending with whitespace.
   */
  lemma ParseTagsSpec(input: string)
    ensures ParseTags(input).None? <==> input == ""
    ensures input != "" ==> |ParseTags(input).value| == Count(input, ',') + 1
    ensures input != "" ==> forall k :: 0 <= k < |ParseTags(input).value| ==>
      && ParseTags(input).value[k] == Trim(Split(input, ',')[k])
      && ',' !in ParseTags(input).value[k]
      && (ParseTags(input).value[k] == []
          || (!IsWhitespace(ParseTags(input).value[k][0])
              && !IsWhitespace(ParseTags(input).value[k][|ParseTags(input).value[k]| - 1])))
  {
    if input != "" {
      SplitCount(input, ',');
      var pieces := Split(input, ',');
      var tags := ParseTags(input).value;
      assert |tags| == |pieces|;
      forall k | 0 <= k < |tags|
        ensures tags[k] == Trim(pieces[k])
        ensures ',' !in tags[k]
        ensures tags[k] == [] || (!IsWhitespace(tags[k][0]) && !IsWhitespace(tags[k][|tags[k]| - 1]))
      {
        TagShape(pieces[k]);
      }
    }
  }

  /** A piece without a comma trims to a tag without a comma and without whitespace at either end. */
  lemma TagShape(piece: string)
    requires ',' !in piece
    ensures ',' !in Trim(piece)
    ensures Trim(piece) == [] || (!IsWhitespace(Trim(piece)[0]) && !IsWhitespace(Trim(piece)[|Trim(piece)| - 1]))
  {
    TrimInfix(piece, ',');
    TrimSpec(piece);
  }

  /** The partial job `handleCreate` posts. */
  datatype JobDraft = JobDraft(
    company: string,
    role: string,
    status: string,
    application_date: Option<string>,
    notes: Option<string>,
    tags: Option<seq<string>>)

  /** The body of the status update: `{ status: statusChanges[jobId] }`, the status missing when nothing is staged. */
  datatype StatusPatch = StatusPatch(jobId: string, status: Option<string>)

  /** One rendered row: the job, the value its select shows, that value's label, and whether Save is offered. */
  datatype Row = Row(job: Job, statusValue: string, statusLabel: string, hasChanged: bool)

  /** The body of the page: skeletons while loading, the empty notice, or the rows. */
  datatype ListView = Skeletons | NoApplications | Rows(rows: seq<Row>)

  const UpdateFailed: Toast := Toast("Update Failed", "Could not update the job status.", true)
  const DeleteFailed: Toast := Toast("Delete Failed", "Something went wrong while deleting the job.", true)
  const CreationFailed: Toast := Toast("Creation Failed", "Could not create the job.", true)

  /** The toast after a successful delete; `job?.company` reads "undefined" when the id is not listed. */
  function JobDeleted(jobs: seq<Job>, jobId: string): Toast
  {
    var company := match FindJob(jobs, jobId) case Some(j) => j.company case None => "undefined";
    Toast("Job Deleted", company + " has been removed.", false)
  }

  /** The state of the job list page; each field is one `useState` of the component. */
  class Page {
    var jobs: seq<Job>
    var statusChanges: map<string, string>
    var loading: bool
    var openJob: Option<Job>
    var createDialogOpen: bool
    var newCompany: string
    var newRole: string
    var newStatus: string
    var newApplicationDate: string
    var newNotes: string
    var newTags: string
    var matchScore: Option<int>
    var suggestedKeywords: seq<string>

    /** The page as first rendered, before the job list has loaded. */
    constructor ()
      ensures jobs == [] && statusChanges == map[] && loading
      ensures openJob == None && !createDialogOpen
      ensures newCompany == "" && newRole == "" && newStatus == "WISHLIST"
      ensures newApplicationDate == "" && newNotes == "" && newTags == ""
      ensures matchScore == None && suggestedKeywords == []
    {
      jobs, statusChanges, loading := [], map[], true;
      openJob, createDialogOpen := None, false;
      newCompany, newRole, newStatus := "", "", "WISHLIST";
      newApplicationDate, newNotes, newTags := "", "", "";
      matchScore, suggestedKeywords := None, [];
    }

    /** The mount-time fetch settles: the list on success, and loading ends either way. */
    method JobsLoaded(reply: Outcome<seq<Job>>)
      modifies this`jobs, this`loading
      ensures jobs == if reply.Ok? then reply.value else old(jobs)
      ensures !loading
    {
      if reply.Ok? {
        jobs := reply.value;
      }
      loading := false;
    }

    /** What the page body renders from the current state. */
    function View(): (v: ListView)
      reads this
      ensures v == Skeletons <==> loading
      ensures v == NoApplications <==> !loading && jobs == []
      ensures v.Rows? ==> |v.rows| == |jobs| && |jobs| > 0 && !loading
      ensures v.Rows? ==> forall k :: 0 <= k < |jobs| ==>
        v.rows[k] == Row(jobs[k], DisplayedStatus(statusChanges, jobs[k]),
                         StatusLabel(DisplayedStatus(statusChanges, jobs[k])), HasChanged(statusChanges, jobs[k].id))
    {
      if loading then Skeletons
      else if jobs == [] then NoApplications
      else
        var list, changes := jobs, statusChanges;
        Rows(seq(|list|, k requires 0 <= k < |list| =>
          Row(list[k], DisplayedStatus(changes, list[k]),
              StatusLabel(DisplayedStatus(changes, list[k])),
              HasChanged(changes, list[k].id))))
    }

    /**
     * The synchronous part of `handleOpenJob(job)`: the job is opened at
     * once and its match is looked up by id. The score and keywords are
     * not touched, so until the lookup settles the dialog shows those of
     * whichever job was looked up last.
     */
    method OpenJob(job: Job) returns (lookupId: string)
      modifies this`openJob
      ensures lookupId == job.id
      ensures openJob == Some(job)
      ensures matchScore == old(matchScore) && suggestedKeywords == old(suggestedKeywords)
    {
      openJob := Some(job);
      lookupId := job.id;
    }

    /**
     * The rest of `handleOpenJob`, once the lookup settles: a match sets the
     * score and its keywords (none when missing), while "no match" or a
     * failed lookup clears both.
     */
    method MatchLoaded(reply: Outcome<ResumeMatch>)
      modifies this`matchScore, this`suggestedKeywords
      ensures var m := GetResumeMatch(reply);
        if m.Ok? && m.value.Some? then
          matchScore == Some(m.value.value.score) && suggestedKeywords == m.value.value.suggestion_keywords.GetOr([])
        else
          matchScore == None && suggestedKeywords == []
    {
      var m := GetResumeMatch(reply);
      match m {
        case Ok(Some(found)) =>
          matchScore := Some(found.score);
          suggestedKeywords := found.suggestion_keywords.GetOr([]);
        case Ok(None) =>
          matchScore := None;
          suggestedKeywords := [];
        case Err(_) =>
          matchScore := None;
          suggestedKeywords := [];
      }
    }

    /** Dismissing the job dialog. */
    method CloseJob()
      modifies this`openJob
      ensures openJob == None
    {
      openJob := None;
    }

    /** `handleStatusChange`: stage a status locally; no request is made and the list is untouched. */
    method StageStatus(jobId: string, status: string)
      modifies this`statusChanges
      ensures statusChanges == old(statusChanges)[jobId := status]
      ensures forall id :: id != jobId ==> (id in statusChanges <==> id in old(statusChanges))
    {
      statusChanges := statusChanges[jobId := status];
    }

    /**
     * `saveStatus(jobId)`: send the staged value; on success give every job
     * with that id the status the server returned, on failure raise a toast
     * and keep the list; in both cases drop that id's staged entry and only it.
     */
    method SaveStatus(jobId: string, reply: Outcome<Job>) returns (patch: StatusPatch, toast: Option<Toast>)
      modifies this`jobs, this`statusChanges
      ensures patch.jobId == jobId
      ensures patch.status == if jobId in old(statusChanges) then Some(old(statusChanges)[jobId]) else None
      ensures jobs == if reply.Ok? then WithStatus(old(jobs), jobId, reply.value.status) else old(jobs)
      ensures toast == if reply.Ok? then None else Some(UpdateFailed)
      ensures statusChanges == old(statusChanges) - {jobId}
    {
      patch := StatusPatch(jobId, if jobId in statusChanges then Some(statusChanges[jobId]) else None);
      toast := None;
      match reply {
        case Ok(updated) =>
          jobs := WithStatus(jobs, jobId, updated.status);
        case Err(_) =>
          toast := Some(UpdateFailed);
      }
      statusChanges := statusChanges - {jobId};
    }

    /**
     * `deleteJob(jobId)`: unless the user confirms, nothing is sent and
     * nothing changes; otherwise one delete is sent, and on success every
     * job with that id leaves the list.
     */
    method DeleteJob(jobId: string, confirmed: bool, reply: Outcome<()>) returns (deleted: Option<string>, toast: Option<Toast>)
      modifies this`jobs
      ensures deleted == if confirmed then Some(jobId) else None
      ensures jobs == if confirmed && reply.Ok? then WithoutJob(old(jobs), jobId) else old(jobs)
      ensures toast == if !confirmed then None
                       else if reply.Ok? then Some(JobDeleted(old(jobs), jobId))
                       else Some(DeleteFailed)
    {
      deleted, toast := None, None;
      if !confirmed {
        return;
      }
      deleted := Some(jobId);
      match reply {
        case Ok(_) =>
          toast := Some(JobDeleted(jobs, jobId));
          jobs := WithoutJob(jobs, jobId);
        case Err(_) =>
          toast := Some(DeleteFailed);
      }
    }

    /**
     * `handleCreate`: without a company and a role nothing is sent and
     * nothing changes; otherwise the draft is sent, and on success the
     * created job is appended, the dialog closes and the form is reset.
     */
    method Create(reply: Outcome<Job>) returns (draft: Option<JobDraft>, toast: Option<Toast>)
      modifies this`jobs, this`createDialogOpen, this`newCompany, this`newRole, this`newStatus,
               this`newApplicationDate, this`newNotes, this`newTags
      ensures old(newCompany) == "" || old(newRole) == "" ==>
        draft == None && toast == None && jobs == old(jobs) && createDialogOpen == old(createDialogOpen)
        && newCompany == old(newCompany) && newRole == old(newRole) && newStatus == old(newStatus)
        && newApplicationDate == old(newApplicationDate) && newNotes == old(newNotes) && newTags == old(newTags)
      ensures old(newCompany) != "" && old(newRole) != "" ==>
        draft == Some(JobDraft(old(newCompany), old(newRole), old(newStatus), OptionalText(old(newApplicationDate)),
                               OptionalText(old(newNotes)), ParseTags(old(newTags))))
      ensures old(newCompany) != "" && old(newRole) != "" && reply.Ok? ==>
        toast == None && jobs == old(jobs) + [reply.value] && !createDialogOpen
        && newCompany == "" && newRole == "" && newStatus == "WISHLIST"
        && newApplicationDate == "" && newNotes == "" && newTags == ""
      ensures old(newCompany) != "" && old(newRole) != "" && reply.Err? ==>
        toast == Some(CreationFailed) && jobs == old(jobs) && createDialogOpen == old(createDialogOpen)
        && newCompany == old(newCompany) && newRole == old(newRole) && newStatus == old(newStatus)
        && newApplicationDate == old(newApplicationDate) && newNotes == old(newNotes) && newTags == old(newTags)
    {
      draft, toast := None, None;
      if newCompany == "" || newRole == "" {
        return;
      }
      draft := Some(JobDraft(newCompany, newRole, newStatus, OptionalText(newApplicationDate),
                             OptionalText(newNotes), ParseTags(newTags)));
      match reply {
        case Ok(created) =>
          jobs := jobs + [created];
          createDialogOpen := false;
          newCompany, newRole, newStatus := "", "", "WISHLIST";
          newApplicationDate, newNotes, newTags := "", "", "";
        case Err(_) =>
          toast := Some(CreationFailed);
      }
    }
  }

  /**
   * Reopening shows a stale score: after job `a`'s lookup settled with a
   * score and the dialog was closed, opening job `b` shows `b` with `a`'s
   * score until `b`'s own lookup settles.
   */
  method StaleScoreAfterReopen(a: Job, b: Job, score: int) returns (shownFor: Option<Job>, shownScore: Option<int>)
    ensures shownFor == Some(b) && shownScore == Some(score)
  {
    var page := new Page();
    var lookupId := page.OpenJob(a);
    page.MatchLoaded(Ok(ResumeMatch(a.id, score, None, None)));
    page.CloseJob();
    lookupId := page.OpenJob(b);
    shownFor, shownScore := page.openJob, page.matchScore;
  }
}
