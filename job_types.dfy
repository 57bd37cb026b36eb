/** The `Job` record and the fixed status enumeration of src/types/job.ts. */
module JobTypes {
  import opened Wrappers
  import opened JsText

  /**
   * A job application as the server returns it. The field names are the
   * JSON member names; the optional members are `Option`s.
   */
  datatype Job = Job(
    id: string,
    user_id: string,
    company: string,
    role: string,
    status: string,
    application_date: Option<string>,
    notes: Option<string>,
    tags: Option<seq<string>>,
    resume_file_path: Option<string>,
    job_description_file_path: Option<string>,
    created_at: string,
    updated_at: string)

  /** One entry of the status drop-down. */
  datatype StatusOption = StatusOption(labelText: string, value: string)

  /** `JOB_STATUSES`, in display order. */
  const JobStatuses: seq<StatusOption> := [
    StatusOption("Applied", "Applied"),
    StatusOption("OA", "OA"),
    StatusOption("Interview", "Interview"),
    StatusOption("Rejected", "Rejected"),
    StatusOption("Offer", "Offer"),
    StatusOption("Wishlist", "Wishlist"),
    StatusOption("Other", "Other")
  ]

  /** The lower-cased status values, in the same order. */
  lemma LowerValues()
    ensures |JobStatuses| == 7
    ensures ToLower(JobStatuses[0].value) == "applied"
    ensures ToLower(JobStatuses[1].value) == "oa"
    ensures ToLower(JobStatuses[2].value) == "interview"
    ensures ToLower(JobStatuses[3].value) == "rejected"
    ensures ToLower(JobStatuses[4].value) == "offer"
    ensures ToLower(JobStatuses[5].value) == "wishlist"
    ensures ToLower(JobStatuses[6].value) == "other"
  {
    assert ToLower("Applied") == "applied";
    assert ToLower("OA") == "oa";
    assert ToLower("Interview") == "interview";
    assert ToLower("Rejected") == "rejected";
    assert ToLower("Offer") == "offer";
    assert ToLower("Wishlist") == "wishlist";
    assert ToLower("Other") == "other";
  }

  /** Every status shows its own value as its label, and no label is empty. */
  lemma LabelsAreValues()
    ensures forall k :: 0 <= k < |JobStatuses| ==> JobStatuses[k].labelText == JobStatuses[k].value
    ensures forall k :: 0 <= k < |JobStatuses| ==> JobStatuses[k].labelText != ""
  {
  }

  /**
   * No two statuses have values that are equal ignoring case, so a
   * case-insensitive lookup matches at most one of them.
   */
  lemma ValuesDistinctIgnoringCase()
    ensures forall i, j :: 0 <= i < j < |JobStatuses| ==>
      ToLower(JobStatuses[i].value) != ToLower(JobStatuses[j].value)
  {
    LowerValues();
    var lows := seq(7, k requires 0 <= k < 7 => ToLower(JobStatuses[k].value));
    assert lows == ["applied", "oa", "interview", "rejected", "offer", "wishlist", "other"];
    forall i, j | 0 <= i < j < 7 ensures lows[i] != lows[j] {
      assert lows[i][0] != lows[j][0] || |lows[i]| != |lows[j]| || lows[i][1] != lows[j][1];
    }
  }
}
