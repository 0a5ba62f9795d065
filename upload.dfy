/**
 * The submission page (app/routes/upload.tsx). `HandleAnalyze` runs the
 * pipeline: upload the PDF, convert its first page to an image, upload the
 * image, save a provisional record with empty feedback under
 * "resume:" + uuid, ask the scoring oracle, read the report out of its
 * answer, save the record again with the report, and navigate to the record's
 * page. Every failure stops the run and shows a message; nothing written
 * before the failure is undone.
 *
 * What the collaborators answer in one run (the file store, the converter,
 * the uuid generator, the oracle and JSON.parse) is the input `env`.
 */
module Upload {
  import opened Wrappers
  import opened Js
  import opened Records
  import opened Puter
  import FileUploader

  const UploadFailed: string := "Failed to upload file"
  const ConvertFailed: string := "Failed to convert PDF to image"
  const UploadImageFailed: string := "Failed to upload image"
  const AnalyzeFailed: string := "Failed to analyze resume"
  const NoFileSelected: string := "Please select a resume file to upload."
  /** The TypeError message for `content[0].text` when the part list is empty. */
  const ReadTextOfUndefined: string := "Cannot read properties " + "of undefined (reading 'text')"

  const StatusUploading: string := "Uploading the file..."
  const StatusConverting: string := "Converting to image..."
  const StatusUploadingImage: string := "Uploading the image..."
  const StatusPreparing: string := "Preparing data..."
  const StatusAnalyzing: string := "Analyzing..."
  const StatusDone: string := "Analysis complete, redirecting..."

  /** The form values and the selected file. */
  datatype UploadProps = UploadProps(companyName: string, jobTitle: string, jobDescription: string, file: File)

  datatype ContentPart = ContentPart(text: string)

  /** `feedback.message.content`: either a string or a list of parts. */
  datatype MessageContent = PlainText(text: string) | PartList(parts: seq<ContentPart>)

  datatype AiResponse = AiResponse(content: MessageContent)

  /**
   * The answers of the collaborators in one run: how each awaited call
   * settled (a fulfilled `None` is a falsy result), the uuid, and JSON.parse
   * (which either yields a report or throws a SyntaxError with a message).
   */
  datatype Collaborators = Collaborators(
    upload: Settled<Option<Path>>,
    convert: Settled<Option<File>>,
    uploadImage: Settled<Option<Path>>,
    uuid: string,
    oracle: Settled<Option<AiResponse>>,
    parse: string -> Result<FeedbackReport, string>)

  datatype Stage = UploadFile | ConvertPdf | UploadImage | Analyze | ReadFeedback

  /** Where the run stopped and what was thrown there. */
  datatype Halt = Halt(stage: Stage, thrown: Thrown)

  /** A call the run makes on a collaborator. */
  datatype Call =
    | UploadCall(file: File)
    | ConvertCall(file: File)
    | KvSetCall(key: string, record: ResumeRecord)
    | OracleCall(path: Path, jobTitle: string, jobDescription: string)

  /** The awaited call gave a truthy result. */
  predicate Ok<T>(s: Settled<Option<T>>)
  {
    s.Fulfilled? && s.value.Some?
  }

  /**
   * An awaited call followed by `if (!result) throw new Error(message)`: a
   * rejection passes its reason on, a falsy result throws the stage's message.
   */
  function Await<T>(s: Settled<Option<T>>, stage: Stage, message: string): Result<T, Halt>
  {
    match s
    case Rejected(reason) => Failure(Halt(stage, reason))
    case Fulfilled(None) => Failure(Halt(stage, ErrorObject(message)))
    case Fulfilled(Some(v)) => Success(v)
  }

  /**
   * The text of the oracle's answer: the string itself, or the text of the
   * first part. Reading `.text` of a missing first part throws a TypeError.
   */
  function FeedbackText(content: MessageContent): (r: Result<string, Halt>)
    ensures content.PlainText? ==> r == Success(content.text)
    ensures content.PartList? && |content.parts| > 0 ==> r == Success(content.parts[0].text)
    ensures content.PartList? && |content.parts| == 0 ==> r.Failure? && r.error.stage == ReadFeedback && r.error.thrown.ErrorObject?
  {
    match content
    case PlainText(s) => Success(s)
    case PartList(parts) =>
      if |parts| > 0 then Success(parts[0].text)
      else Failure(Halt(ReadFeedback, ErrorObject(ReadTextOfUndefined)))
  }

  /** `JSON.parse(feedbackText)`; a SyntaxError is an Error with its own message. */
  function Decode(env: Collaborators, text: string): Result<FeedbackReport, Halt>
  {
    match env.parse(text)
    case Success(report) => Success(report)
    case Failure(message) => Failure(Halt(ReadFeedback, ErrorObject(message)))
  }

  /**
   * The provisional record: it exists exactly when both uploads and the
   * conversion succeeded, and it copies the two stored paths and the three
   * form values, with feedback not yet set.
   */
  function Draft(props: UploadProps, env: Collaborators): (d: Option<ResumeRecord>)
    ensures d.Some? <==> Ok(env.upload) && Ok(env.convert) && Ok(env.uploadImage)
    ensures d.Some? ==> d.value.id == env.uuid && d.value.feedback == Unscored
    ensures d.Some? ==> d.value.resumePath == env.upload.value.value && d.value.imagePath == env.uploadImage.value.value
    ensures d.Some? ==> (d.value.companyName == props.companyName && d.value.jobTitle == props.jobTitle
      && d.value.jobDescription == props.jobDescription)
  {
    if Ok(env.upload) && Ok(env.convert) && Ok(env.uploadImage) then
      Some(ResumeRecord(env.uuid, env.upload.value.value, env.uploadImage.value.value,
        props.companyName, props.jobTitle, props.jobDescription, Unscored))
    else None
  }

  /**
   * How the run ends: the report, or the stage that failed. The stages are
   * tried in order and the first failure stops the run.
   */
  function Outcome(props: UploadProps, env: Collaborators): (r: Result<FeedbackReport, Halt>)
    ensures r.Failure? && r.error.stage == UploadFile <==> !Ok(env.upload)
    ensures r.Failure? && r.error.stage == ConvertPdf <==> Ok(env.upload) && !Ok(env.convert)
    ensures r.Failure? && r.error.stage == UploadImage <==> Ok(env.upload) && Ok(env.convert) && !Ok(env.uploadImage)
    ensures r.Failure? && r.error.stage == Analyze <==> Draft(props, env).Some? && !Ok(env.oracle)
    ensures r.Success? || r.error.stage == ReadFeedback ==> Draft(props, env).Some? && Ok(env.oracle)
    ensures r.Failure? && r.error.stage == ReadFeedback <==> (Draft(props, env).Some? && Ok(env.oracle)
      && (FeedbackText(env.oracle.value.value.content).Failure?
        || env.parse(FeedbackText(env.oracle.value.value.content).value).Failure?))
    ensures env.upload.Rejected? ==> r == Failure(Halt(UploadFile, env.upload.reason))
    ensures Ok(env.upload) && env.convert.Rejected? ==> r == Failure(Halt(ConvertPdf, env.convert.reason))
    ensures Ok(env.upload) && Ok(env.convert) && env.uploadImage.Rejected?
      ==> r == Failure(Halt(UploadImage, env.uploadImage.reason))
    ensures Draft(props, env).Some? && env.oracle.Rejected? ==> r == Failure(Halt(Analyze, env.oracle.reason))
    ensures (Draft(props, env).Some? && Ok(env.oracle) && FeedbackText(env.oracle.value.value.content).Success?
      && env.parse(FeedbackText(env.oracle.value.value.content).value).Failure?)
      ==> r == Failure(Halt(ReadFeedback, ErrorObject(env.parse(FeedbackText(env.oracle.value.value.content).value).error)))
    ensures (Draft(props, env).Some? && Ok(env.oracle) && FeedbackText(env.oracle.value.value.content).Success?
      && env.parse(FeedbackText(env.oracle.value.value.content).value).Success?)
      ==> r == Success(env.parse(FeedbackText(env.oracle.value.value.content).value).value)
    ensures r.Success? ==> (FeedbackText(env.oracle.value.value.content).Success?
      && env.parse(FeedbackText(env.oracle.value.value.content).value) == Success(r.value))
  {
    var path :- Await(env.upload, UploadFile, UploadFailed);
    var image :- Await(env.convert, ConvertPdf, ConvertFailed);
    var imagePath :- Await(env.uploadImage, UploadImage, UploadImageFailed);
    Analysis(env)
  }

  /** The stages after the provisional write: ask the oracle, take its text, parse it. */
  function Analysis(env: Collaborators): Result<FeedbackReport, Halt>
  {
    var response :- Await(env.oracle, Analyze, AnalyzeFailed);
    var text :- FeedbackText(response.content);
    Decode(env, text)
  }

  /** The message the page shows after the run, if it failed. */
  function FailureText(props: UploadProps, env: Collaborators): Option<string>
  {
    var r := Outcome(props, env);
    if r.Failure? then Some(ErrorMessage(r.error.thrown)) else None
  }

  /**
   * The record the key-value store holds for this run once it ends: none if
   * the run stopped before the provisional write, the provisional record if it
   * stopped after it, the scored record if it completed.
   */
  function FinalRecord(props: UploadProps, env: Collaborators): Option<ResumeRecord>
  {
    match Draft(props, env)
    case None => None
    case Some(d) =>
      match Analysis(env)
      case Success(report) => Some(d.(feedback := Scored(report)))
      case Failure(_) => Some(d)
  }

  /**
   * The final record exists exactly when the provisional one was written; it
   * differs from it only in its feedback, which is scored exactly when the
   * run completed, and then holds the run's report.
   */
  lemma FinalRecordMeaning(props: UploadProps, env: Collaborators)
    ensures var rec := FinalRecord(props, env);
      && (rec.Some? <==> Draft(props, env).Some?)
      && (rec.Some? ==> rec.value == Draft(props, env).value.(feedback := rec.value.feedback))
      && (rec.Some? ==> (rec.value.feedback.Scored? <==> Outcome(props, env).Success?))
      && (Outcome(props, env).Success? ==> rec.Some? && rec.value.feedback == Scored(Outcome(props, env).value))
  {
  }

  /** The calls up to and including the image upload, in order. */
  function ArtifactCalls(props: UploadProps, env: Collaborators): seq<Call>
  {
    [UploadCall(props.file)] +
    if !Ok(env.upload) then [] else
      [ConvertCall(props.file)] +
      if !Ok(env.convert) then [] else [UploadCall(env.convert.value.value)]
  }

  /** The calls the run makes, in order. */
  function Calls(props: UploadProps, env: Collaborators): seq<Call>
  {
    ArtifactCalls(props, env) +
    match Draft(props, env)
    case None => []
    case Some(draft) => AnalysisCalls(props, env, draft)
  }

  /** The calls from the provisional write on, in order. */
  function AnalysisCalls(props: UploadProps, env: Collaborators, draft: ResumeRecord): seq<Call>
  {
    [KvSetCall(RecordKey(env.uuid), draft), OracleCall(draft.resumePath, props.jobTitle, props.jobDescription)] +
    match Analysis(env)
    case Success(report) => [KvSetCall(RecordKey(env.uuid), draft.(feedback := Scored(report)))]
    case Failure(_) => []
  }

  /** The blob store after the run: the PDF if its upload succeeded, then the image if its upload did. */
  function BlobsAfter(entries: seq<Entry>, props: UploadProps, env: Collaborators): seq<Entry>
  {
    if !Ok(env.upload) then entries
    else
      var withPdf := Put(entries, Entry(env.upload.value.value, props.file.name, props.file.bytes));
      if Ok(env.convert) && Ok(env.uploadImage) then
        var image := env.convert.value.value;
        Put(withPdf, Entry(env.uploadImage.value.value, image.name, image.bytes))
      else withPdf
  }

  /**
   * A failed PDF upload leaves the blob store as it was; the run keeps paths
   * distinct; once both uploads succeeded, both paths are present and the
   * image path holds the converted image.
   */
  lemma BlobsAfterMeaning(entries: seq<Entry>, props: UploadProps, env: Collaborators)
    ensures var r := BlobsAfter(entries, props, env);
      && (!Ok(env.upload) ==> r == entries)
      && (DistinctPaths(entries) ==> DistinctPaths(r))
      && (Draft(props, env).Some? ==> (Find(r, env.uploadImage.value.value) == Some(env.convert.value.value.bytes)
        && Paths(r) == Paths(entries) + {env.upload.value.value, env.uploadImage.value.value}))
  {
  }

  /** A failure at each stage shows that stage's own message. */
  lemma StageFailureMessages(props: UploadProps, env: Collaborators)
    ensures env.upload == Fulfilled(None) ==> FailureText(props, env) == Some(UploadFailed)
    ensures Ok(env.upload) && env.convert == Fulfilled(None) ==> FailureText(props, env) == Some(ConvertFailed)
    ensures Ok(env.upload) && Ok(env.convert) && env.uploadImage == Fulfilled(None)
      ==> FailureText(props, env) == Some(UploadImageFailed)
    ensures Draft(props, env).Some? && env.oracle.Fulfilled? && env.oracle.value.None?
      ==> FailureText(props, env) == Some(AnalyzeFailed)
    ensures env.upload == Rejected(NonError) ==> FailureText(props, env) == Some(UnknownError)
    ensures env.upload.Rejected? && env.upload.reason.ErrorObject?
      ==> FailureText(props, env) == Some(env.upload.reason.message)
    ensures Draft(props, env).Some? && env.oracle == Rejected(NonError) ==> FailureText(props, env) == Some(UnknownError)
    ensures Draft(props, env).Some? && env.oracle.Rejected? && env.oracle.reason.ErrorObject?
      ==> FailureText(props, env) == Some(env.oracle.reason.message)
    ensures (Draft(props, env).Some? && Ok(env.oracle) && FeedbackText(env.oracle.value.value.content).Success?
      && env.parse(FeedbackText(env.oracle.value.value.content).value).Failure?)
      ==> FailureText(props, env) == Some(env.parse(FeedbackText(env.oracle.value.value.content).value).error)
    ensures FailureText(props, env).None? <==> Outcome(props, env).Success?
  {
  }

  /**
   * Nothing is written to the key-value store before both uploads and the
   * conversion have succeeded, in that order, and every write uses the one
   * key "resume:" + uuid.
   */
  lemma KvWritesFollowUploads(props: UploadProps, env: Collaborators)
    ensures var c := Calls(props, env);
      forall i | 0 <= i < |c| && c[i].KvSetCall? ::
        3 <= i && c[0] == UploadCall(props.file) && c[1] == ConvertCall(props.file)
        && c[2] == UploadCall(env.convert.value.value) && Ok(env.uploadImage)
        && c[i].key == RecordKey(env.uuid)
  {
  }

  /**
   * The oracle is asked only after the provisional record has been written,
   * and is asked about the stored PDF with the job title and description.
   */
  lemma OracleAfterProvisionalRecord(props: UploadProps, env: Collaborators)
    ensures var c := Calls(props, env);
      forall i | 0 <= i < |c| && c[i].OracleCall? ::
        i == 4 && Draft(props, env).Some?
        && c[3] == KvSetCall(RecordKey(env.uuid), Draft(props, env).value)
        && c[i] == OracleCall(env.upload.value.value, props.jobTitle, props.jobDescription)
  {
  }

  /**
   * The only write of a scored record is the last call, and it replaces the
   * run's own provisional record, which was unscored.
   */
  lemma ScoredAtMostOnce(props: UploadProps, env: Collaborators)
    ensures var c := Calls(props, env);
      forall i | 0 <= i < |c| && c[i].KvSetCall? && c[i].record.feedback.Scored? ::
        i == 5 == |c| - 1 && c[3] == KvSetCall(c[i].key, c[i].record.(feedback := Unscored))
  {
  }

  /**
   * A run that fails after the provisional write leaves that record behind,
   * unscored.
   */
  lemma LateFailureLeavesUnscoredRecord(props: UploadProps, env: Collaborators)
    requires Draft(props, env).Some? && Outcome(props, env).Failure?
    ensures Outcome(props, env).error.stage == Analyze || Outcome(props, env).error.stage == ReadFeedback
    ensures FinalRecord(props, env) == Draft(props, env)
    ensures FinalRecord(props, env).value.feedback == Unscored
  {
  }

  class UploadPage {
    const fs: BlobStore
    const kv: KvStore
    const uploader: FileUploader.Uploader

    var isProcessing: bool
    var statusText: string
    var error: Option<string>
    var navigation: Option<Navigation>
    /** Every collaborator call made so far, in order. */
    ghost var calls: seq<Call>

    constructor (fs: BlobStore, kv: KvStore, uploader: FileUploader.Uploader)
      ensures this.fs == fs && this.kv == kv && this.uploader == uploader
      ensures !isProcessing && statusText == "" && error.None? && navigation.None? && calls == []
    {
      this.fs := fs;
      this.kv := kv;
      this.uploader := uploader;
      isProcessing := false;
      statusText := "";
      error := None;
      navigation := None;
      calls := [];
    }

    /** The `catch` block. */
    method Catch(e: Thrown)
      modifies this`error, this`isProcessing, this`statusText
      ensures error == Some(ErrorMessage(e)) && !isProcessing && statusText == ""
    {
      error := Some(ErrorMessage(e));
      isProcessing := false;
      statusText := "";
    }

    /**
     * The first three stages: upload the PDF, convert it, upload the image.
     * Yields the provisional record, or the stage that failed.
     */
    method StoreArtifacts(props: UploadProps, env: Collaborators) returns (d: Result<ResumeRecord, Halt>)
      requires fs.Valid()
      modifies this`calls, this`statusText, fs
      ensures fs.Valid()
      ensures calls == old(calls) + ArtifactCalls(props, env)
      ensures fs.entries == BlobsAfter(old(fs.entries), props, env)
      ensures d.Success? <==> Draft(props, env).Some?
      ensures d.Success? ==> d.value == Draft(props, env).value
      ensures d.Failure? ==> Outcome(props, env) == Failure(d.error)
    {
      statusText := StatusUploading;
      calls := calls + [UploadCall(props.file)];
      var resumePath :- Await(env.upload, UploadFile, UploadFailed);
      fs.Store(resumePath, props.file);

      statusText := StatusConverting;
      calls := calls + [ConvertCall(props.file)];
      var image :- Await(env.convert, ConvertPdf, ConvertFailed);

      statusText := StatusUploadingImage;
      calls := calls + [UploadCall(image)];
      var imagePath :- Await(env.uploadImage, UploadImage, UploadImageFailed);
      fs.Store(imagePath, image);

      d := Success(ResumeRecord(env.uuid, resumePath, imagePath,
        props.companyName, props.jobTitle, props.jobDescription, Unscored));
    }

    /**
     * The stages after the artifacts are stored: write the provisional record,
     * ask the oracle, read and parse its answer, write the scored record and
     * navigate to its page.
     */
    method ScoreDraft(props: UploadProps, env: Collaborators, draft: ResumeRecord)
      requires Draft(props, env) == Some(draft)
      modifies this`calls, this`statusText, this`error, this`isProcessing, this`navigation, kv
      ensures calls == old(calls) + AnalysisCalls(props, env, draft)
      ensures kv.records == old(kv.records)[RecordKey(env.uuid) := FinalRecord(props, env).value]
      ensures Analysis(env).Failure? ==>
        !isProcessing && statusText == "" && error == Some(ErrorMessage(Analysis(env).error.thrown))
        && navigation == old(navigation)
      ensures Analysis(env).Success? ==>
        isProcessing == old(isProcessing) && statusText == StatusDone && error == old(error)
        && navigation == Some(Navigation(ResumeRoute(env.uuid), false))
    {
      var key := RecordKey(env.uuid);
      statusText := StatusPreparing;
      calls := calls + [KvSetCall(key, draft)];
      kv.Set(key, draft);

      statusText := StatusAnalyzing;
      calls := calls + [OracleCall(draft.resumePath, props.jobTitle, props.jobDescription)];
      var scored := Analysis(env);
      if scored.Failure? {
        Catch(scored.error.thrown);
        return;
      }
      var data := draft.(feedback := Scored(scored.value));
      calls := calls + [KvSetCall(key, data)];
      kv.Set(key, data);
      statusText := StatusDone;

      navigation := Some(Navigation(ResumeRoute(env.uuid), false));
    }

    method HandleAnalyze(props: UploadProps, env: Collaborators)
      requires fs.Valid()
      modifies this, fs, kv
      ensures fs.Valid()
      ensures calls == old(calls) + Calls(props, env)
      ensures fs.entries == BlobsAfter(old(fs.entries), props, env)
      ensures kv.records == if FinalRecord(props, env).Some?
        then old(kv.records)[RecordKey(env.uuid) := FinalRecord(props, env).value]
        else old(kv.records)
      ensures Outcome(props, env).Failure? ==>
        !isProcessing && statusText == "" && error == FailureText(props, env) && navigation == old(navigation)
      ensures Outcome(props, env).Success? ==>
        isProcessing && statusText == StatusDone && error.None?
        && navigation == Some(Navigation(ResumeRoute(env.uuid), false))
    {
      isProcessing := true;
      error := None;

      var draft := StoreArtifacts(props, env);
      if draft.Failure? {
        assert Draft(props, env) == None && FinalRecord(props, env) == None;
        assert Calls(props, env) == ArtifactCalls(props, env);
        Catch(draft.error.thrown);
        return;
      }
      assert Outcome(props, env) == Analysis(env);
      assert Calls(props, env) == ArtifactCalls(props, env) + AnalysisCalls(props, env, draft.value);
      ScoreDraft(props, env, draft.value);
    }

    /**
     * `handleSubmit`: clear the error; with no file selected, say so and do
     * not start the run; otherwise run the pipeline on the form values.
     */
    method HandleSubmit(companyName: string, jobTitle: string, jobDescription: string, env: Collaborators)
      requires fs.Valid()
      modifies this, fs, kv
      ensures fs.Valid()
      ensures uploader.file.None? ==>
        error == Some(NoFileSelected) && calls == old(calls) && isProcessing == old(isProcessing)
        && statusText == old(statusText)
        && fs.entries == old(fs.entries) && kv.records == old(kv.records) && navigation == old(navigation)
      ensures uploader.file.Some? ==>
        var props := UploadProps(companyName, jobTitle, jobDescription, uploader.file.value);
        calls == old(calls) + Calls(props, env)
        && fs.entries == BlobsAfter(old(fs.entries), props, env)
        && (FinalRecord(props, env).Some? ==> kv.records == old(kv.records)[RecordKey(env.uuid) := FinalRecord(props, env).value])
        && (FinalRecord(props, env).None? ==> kv.records == old(kv.records))
        && error == FailureText(props, env)
        && (Outcome(props, env).Failure? ==>
              !isProcessing && statusText == "" && navigation == old(navigation))
        && (Outcome(props, env).Success? ==>
              isProcessing && statusText == StatusDone
              && navigation == Some(Navigation(ResumeRoute(env.uuid), false)))
    {
      error := None;
      if uploader.file.None? {
        error := Some(NoFileSelected);
        return;
      }
      HandleAnalyze(UploadProps(companyName, jobTitle, jobDescription, uploader.file.value), env);
    }
  }
}
