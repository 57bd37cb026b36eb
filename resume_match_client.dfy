/** The resume-match HTTP client of src/pages/ResumeMatcher/client.ts. */
module ResumeMatchClient {
  import opened Wrappers
  import opened ApiHandler
  import opened Forms

  /** An uploaded file, kept opaque: only its identity matters here. */
  datatype File = File(name: string)

  /** A multipart form value: a text field or a file part. */
  datatype FormValue = Text(text: string) | Upload(file: File)

  /** A match result body as the server sends it; keywords and remarks may be missing. */
  datatype ResumeMatch = ResumeMatch(
    job_id: string,
    score: int,
    suggestion_keywords: Option<seq<string>>,
    remarks: Option<string>)

  /** `${REMOTE_SERVER}/resume-match` for the configured server base. */
  function ResumeMatchApi(server: string): string
  {
    server + "/resume-match"
  }

  /** The POST target of `checkResumeMatch`. */
  function CheckUrl(server: string): (url: string)
    ensures url == server + "/resume-match/check"
  {
    ResumeMatchApi(server) + "/check"
  }

  /** The GET target of `getResumeMatch(jobId)`. */
  function MatchUrl(server: string, jobId: string): (url: string)
    ensures url == server + "/resume-match/" + jobId
  {
    ResumeMatchApi(server) + "/" + jobId
  }

  /** Different jobs are looked up at different addresses. */
  lemma MatchUrlInjective(server: string, a: string, b: string)
    requires MatchUrl(server, a) == MatchUrl(server, b)
    ensures a == b
  {
    var p := ResumeMatchApi(server) + "/";
    assert MatchUrl(server, a) == p + a && MatchUrl(server, b) == p + b;
    assert a == (p + a)[|p|..];
    assert b == (p + b)[|p|..];
  }

  /** The multipart form `checkResumeMatch` posts: `job_id`, `resume`, `job_description`, in that order. */
  function CheckForm(jobId: string, resume: File, jobDescription: File): seq<Field<FormValue>>
  {
    [Field("job_id", Text(jobId)), Field("resume", Upload(resume)), Field("job_description", Upload(jobDescription))]
  }

  /** The form has exactly the three named fields, and each reads back the value put in. */
  lemma CheckFormFields(jobId: string, resume: File, jobDescription: File)
    ensures Names(CheckForm(jobId, resume, jobDescription)) == ["job_id", "resume", "job_description"]
    ensures Get(CheckForm(jobId, resume, jobDescription), "job_id") == Some(Text(jobId))
    ensures Get(CheckForm(jobId, resume, jobDescription), "resume") == Some(Upload(resume))
    ensures Get(CheckForm(jobId, resume, jobDescription), "job_description") == Some(Upload(jobDescription))
  {
    var f := CheckForm(jobId, resume, jobDescription);
    assert f[0].name == "job_id";
    assert f[1].name != "job_id" && f[1].name == "resume";
    assert f[2].name != "job_id" && f[2].name != "resume";
    assert f[1..][0] == f[1];
    assert f[1..][1..][0] == f[2];
  }

  /** A failure that means "no match has been computed for this job". */
  predicate IsNotFound(e: ApiError)
  {
    e.AxiosError? && e.response.Some? && e.response.value.status == 404
  }

  /**
   * `getResumeMatch` given the outcome of its GET: the body on success,
   * `null` for a 404, and every other failure rethrown as it is.
   */
  function GetResumeMatch(reply: Outcome<ResumeMatch>): (r: Outcome<Option<ResumeMatch>>)
    ensures reply.Ok? ==> r == Ok(Some(reply.value))
    ensures reply.Err? && IsNotFound(reply.error) ==> r == Ok(None)
    ensures reply.Err? && !IsNotFound(reply.error) ==> r == Err(reply.error)
  {
    match reply
    case Ok(body) => Ok(Some(body))
    case Err(e) => if IsNotFound(e) then Ok(None) else Err(e)
  }

  /**
   * Absence and failure are told apart exactly by the 404: the lookup says
   * "no result" iff the server answered 404, and it fails iff the call
   * failed in any other way, with the very same error.
   */
  lemma AbsenceIffNotFound(reply: Outcome<ResumeMatch>)
    ensures GetResumeMatch(reply) == Ok(None) <==> reply.Err? && IsNotFound(reply.error)
    ensures GetResumeMatch(reply).Err? <==> reply.Err? && !IsNotFound(reply.error)
    ensures GetResumeMatch(reply).Err? ==> GetResumeMatch(reply).error == reply.error
  {
  }
}
