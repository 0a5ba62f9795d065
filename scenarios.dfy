/**
 * What one page leaves for the next: a submission's record as the review
 * page and the home page's card then show it.
 */
module Scenarios {
  import opened Wrappers
  import opened Records
  import opened Puter
  import Upload
  import Resume
  import ResumeCard

  /** The key-value store after a run of the submission pipeline. */
  function RecordsAfter(records: map<string, ResumeRecord>, props: Upload.UploadProps, env: Upload.Collaborators): map<string, ResumeRecord>
  {
    match Upload.FinalRecord(props, env)
    case None => records
    case Some(rec) => records[RecordKey(env.uuid) := rec]
  }

  /**
   * A completed submission can be read back at once: the review page for its
   * uuid finds the stored PDF, the preview image and the scored report.
   */
  lemma SubmitThenReview(records: map<string, ResumeRecord>, entries: seq<Entry>,
                         props: Upload.UploadProps, env: Upload.Collaborators)
    requires Upload.Outcome(props, env).Success?
    requires env.upload.value.value != env.uploadImage.value.value
    ensures var found := Resume.Load(RecordsAfter(records, props, env), Upload.BlobsAfter(entries, props, env), env.uuid).result;
      found == Success(Resume.Found(props.file.bytes, env.convert.value.value.bytes,
        Scored(Upload.Outcome(props, env).value)))
    ensures ResumeCard.CardScore(Scored(Upload.Outcome(props, env).value)) == Upload.Outcome(props, env).value.overallScore
  {
  }

  /**
   * A submission that fails after the provisional write leaves a record the
   * review page finds, with feedback that was never set. As written, the
   * review column then reads `feedback.ATS.score` of the empty string and
   * throws; the home page's card shows it with a score of 0.
   */
  lemma LateFailureCrashesReview(records: map<string, ResumeRecord>, entries: seq<Entry>,
                                 props: Upload.UploadProps, env: Upload.Collaborators)
    requires Upload.Draft(props, env).Some? && Upload.Outcome(props, env).Failure?
    ensures var found := Resume.Load(RecordsAfter(records, props, env), Upload.BlobsAfter(entries, props, env), env.uuid).result;
      found.Success? && found.value.feedback == Unscored
      && Resume.RenderAsWritten(found.value.feedback).Failure?
      && Resume.ColumnAsWritten(Resume.Loaded(Resume.PageData(ObjectUrl(1), ObjectUrl(0), found.value.feedback))).Crashed?
      && ResumeCard.CardScore(found.value.feedback) == 0
  {
  }

  /** With the unscored state rendered as such, the same record shows "not yet scored" instead. */
  lemma LateFailureShowsNotYetScored(records: map<string, ResumeRecord>, entries: seq<Entry>,
                                     props: Upload.UploadProps, env: Upload.Collaborators)
    requires Upload.Draft(props, env).Some? && Upload.Outcome(props, env).Failure?
    ensures var found := Resume.Load(RecordsAfter(records, props, env), Upload.BlobsAfter(entries, props, env), env.uuid).result;
      found.Success?
      && Resume.ColumnFor(Resume.Loaded(Resume.PageData(ObjectUrl(1), ObjectUrl(0), found.value.feedback)))
         == Resume.ReviewColumn(Resume.NotYetScored)
  {
  }
}
