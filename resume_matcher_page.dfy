/**
 * The resume match checker page of src/pages/ResumeMatcher/index.tsx.
 * `handleSubmit` is split at its `await`: `Submit` validates and starts the
 * request, `Settle` takes the server's outcome.
 */
module ResumeMatcherPage {
  import opened Wrappers
  import opened ApiHandler
  import opened Forms
  import opened Toasts
  import opened JobTypes
  import opened ResumeMatchClient

  /** The result panel's state. */
  datatype MatchResult = MatchResult(score: int, suggested_keywords: seq<string>, remarks: string)

  const MissingJob: Toast := Toast("Missing Job", "Please select a job before checking.", true)
  const MissingResume: Toast := Toast("Missing Resume", "Please upload your resume.", true)
  const MissingJobDescription: Toast := Toast("Missing Job Description", "Please upload the job description.", true)
  const MatchFailed: Toast := Toast("Error", "Failed to process resume match.", true)
  const JobListFailed: Toast := Toast("Error", "Could not load job list.", true)

  /** The notice of the first missing input, checked in the order job, resume, job description. */
  function FirstMissing(jobId: string, resume: Option<File>, jobDescription: Option<File>): Option<Toast>
  {
    if jobId == "" then Some(MissingJob)
    else if resume.None? then Some(MissingResume)
    else if jobDescription.None? then Some(MissingJobDescription)
    else None
  }

  /**
   * Exactly one notice per missing combination, the first in the fixed
   * order: the job notice iff no job is chosen, the resume notice iff a job
   * is chosen but no resume, the job-description notice iff both of those
   * are there but no job description, and none iff all three are there.
   */
  lemma FirstMissingSpec(jobId: string, resume: Option<File>, jobDescription: Option<File>)
    ensures FirstMissing(jobId, resume, jobDescription) == Some(MissingJob) <==> jobId == ""
    ensures FirstMissing(jobId, resume, jobDescription) == Some(MissingResume) <==> jobId != "" && resume.None?
    ensures FirstMissing(jobId, resume, jobDescription) == Some(MissingJobDescription) <==>
      jobId != "" && resume.Some? && jobDescription.None?
    ensures FirstMissing(jobId, resume, jobDescription).None? <==>
      jobId != "" && resume.Some? && jobDescription.Some?
  {
  }

  /** The result the panel shows for a response: its score, its keywords or none, its remarks or "". */
  function ToMatchResult(res: ResumeMatch): (r: MatchResult)
    ensures r.score == res.score
    ensures res.suggestion_keywords.Some? ==> r.suggested_keywords == res.suggestion_keywords.value
    ensures res.suggestion_keywords.None? ==> r.suggested_keywords == []
    ensures res.remarks.Some? ==> r.remarks == res.remarks.value
    ensures res.remarks.None? ==> r.remarks == ""
  {
    MatchResult(res.score, res.suggestion_keywords.GetOr([]), res.remarks.GetOr(""))
  }

  /** Whether the "Summary Remark" block is rendered. */
  predicate RemarksShown(r: MatchResult)
  {
    r.remarks != ""
  }

  /** The remark block appears exactly when the server sent a non-empty remark. */
  lemma RemarksShownIff(res: ResumeMatch)
    ensures RemarksShown(ToMatchResult(res)) <==> res.remarks.Some? && res.remarks.value != ""
  {
  }

  /** The state of the checker page. */
  class Page {
    var jobId: string
    var jobs: seq<Job>
    var resumeFile: Option<File>
    var jdFile: Option<File>
    var loading: bool
    var result: Option<MatchResult>

    constructor ()
      ensures jobId == "" && jobs == [] && resumeFile == None && jdFile == None
      ensures !loading && result == None
    {
      jobId, jobs, resumeFile, jdFile := "", [], None, None;
      loading, result := false, None;
    }

    /** The mount-time job list fetch settles: the list on success, a toast on failure. */
    method JobsLoaded(reply: Outcome<seq<Job>>) returns (toast: Option<Toast>)
      modifies this`jobs
      ensures jobs == if reply.Ok? then reply.value else old(jobs)
      ensures toast == if reply.Ok? then None else Some(JobListFailed)
    {
      toast := None;
      match reply {
        case Ok(list) => jobs := list;
        case Err(_) => toast := Some(JobListFailed);
      }
    }

    /** The check button is enabled: it is disabled while a check is running, so `handleSubmit` cannot run then. */
    predicate CanSubmit()
      reads this
    {
      !loading
    }

    /**
     * The synchronous part of `handleSubmit`: the first missing input raises
     * its notice and nothing else happens; with all three present, loading
     * starts and the three-field form is posted.
     */
    method Submit() returns (notice: Option<Toast>, request: Option<seq<Field<FormValue>>>)
      requires CanSubmit()
      modifies this`loading
      ensures notice == FirstMissing(jobId, resumeFile, jdFile)
      ensures notice.Some? ==> request == None && loading == old(loading)
      ensures notice.None? ==> loading && request == Some(CheckForm(jobId, resumeFile.value, jdFile.value))
    {
      notice := FirstMissing(jobId, resumeFile, jdFile);
      request := None;
      if notice.Some? {
        return;
      }
      loading := true;
      request := Some(CheckForm(jobId, resumeFile.value, jdFile.value));
    }

    /**
     * The rest of `handleSubmit`, once the post settles: on success the
     * result is replaced by the mapped response, on failure a toast is
     * raised and the previous result stays; loading ends either way.
     */
    method Settle(reply: Outcome<ResumeMatch>) returns (toast: Option<Toast>)
      requires loading
      modifies this`loading, this`result
      ensures !loading
      ensures result == if reply.Ok? then Some(ToMatchResult(reply.value)) else old(result)
      ensures toast == if reply.Ok? then None else Some(MatchFailed)
    {
      toast := None;
      match reply {
        case Ok(res) => result := Some(ToMatchResult(res));
        case Err(_) => toast := Some(MatchFailed);
      }
      loading := false;
    }
  }
}
