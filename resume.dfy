/**
 * The review page (app/routes/resume.tsx). Its effect looks up the record
 * "resume:" + id, reads the PDF and the preview image from the blob store,
 * wraps each in an object URL and shows the record's feedback; the effect's
 * cleanup revokes every URL it made. Each load shows "loading" first and
 * ends in exactly one of "success" or "error".
 */
module Resume {
  import opened Wrappers
  import opened Js
  import opened Records
  import opened Puter
  import Auth
  import Summary
  import Details

  const NotFoundMessage: string := "Resume not found."
  const MissingFileMessage: string := "Could not read resume file."
  const MissingImageMessage: string := "Could not read resume image."
  /** The TypeError of `feedback.ATS.score` when `feedback` is the empty string. */
  const ReadScoreOfUndefined: string := "Cannot read properties " + "of undefined (reading 'score')"
  const AuthRoutePrefix: string := "/auth?next="

  datatype PageData = PageData(imageUrl: Url, resumeUrl: Url, feedback: Feedback)

  /** The tagged page state: loading, success with its data, or an error text. */
  datatype PageState = Loading | Loaded(data: PageData) | Failed(error: string)

  /** What the stores give for an id when every read succeeds. */
  datatype Found = Found(resumeBlob: Bytes, imageBlob: Bytes, feedback: Feedback)

  /**
   * One run of `loadResume`, as a value: the blob paths it reads and the
   * blobs it wraps in object URLs, both in order, and how it ends.
   */
  datatype LoadRun = LoadRun(paths: seq<Path>, acquired: seq<Bytes>, result: Result<Found, string>)

  /**
   * The reads after the record was found: the PDF, then the image; the first
   * one missing decides the error. Every blob read before it is wrapped.
   */
  function ReadRecord(entries: seq<Entry>, rec: ResumeRecord): (run: LoadRun)
    ensures 1 <= |run.paths| <= 2 && run.paths[0] == rec.resumePath
    ensures |run.acquired| == |run.paths| - 1 || run.result.Success?
    ensures run.result.Success? <==> |run.acquired| == 2
    ensures run.result.Success? ==>
      run.acquired == [run.result.value.resumeBlob, run.result.value.imageBlob] && run.result.value.feedback == rec.feedback
    ensures Find(entries, rec.resumePath).None? <==> run.result == Failure(MissingFileMessage)
    ensures Find(entries, rec.resumePath).None? ==> run.acquired == []
    ensures Find(entries, rec.resumePath).Some? && Find(entries, rec.imagePath).None?
      <==> run.result == Failure(MissingImageMessage)
    ensures Find(entries, rec.resumePath).Some? ==>
      run.paths == [rec.resumePath, rec.imagePath] && run.acquired[0] == Find(entries, rec.resumePath).value
    ensures run.result.Success? <==> Find(entries, rec.resumePath).Some? && Find(entries, rec.imagePath).Some?
  {
    match Find(entries, rec.resumePath)
    case None => LoadRun([rec.resumePath], [], Failure(MissingFileMessage))
    case Some(resumeBlob) =>
      match Find(entries, rec.imagePath)
      case None => LoadRun([rec.resumePath, rec.imagePath], [resumeBlob], Failure(MissingImageMessage))
      case Some(imageBlob) =>
        LoadRun([rec.resumePath, rec.imagePath], [resumeBlob, imageBlob], Success(Found(resumeBlob, imageBlob, rec.feedback)))
  }

  /** The whole run: first the record "resume:" + id, then its blobs. */
  function Load(records: map<string, ResumeRecord>, entries: seq<Entry>, id: string): (run: LoadRun)
    ensures |run.acquired| <= |run.paths| <= 2
    ensures run.result.Success? <==> |run.acquired| == 2
  {
    var key := RecordKey(id);
    if key !in records then LoadRun([], [], Failure(NotFoundMessage)) else ReadRecord(entries, records[key])
  }

  /**
   * Each error text names one cause: a missing record, a missing PDF, or a
   * missing image; and each cause decides which blobs were read and wrapped.
   */
  lemma LoadErrors(records: map<string, ResumeRecord>, entries: seq<Entry>, id: string)
    ensures var run := Load(records, entries, id);
      (run.result == Failure(NotFoundMessage) <==> RecordKey(id) !in records)
      && (run.result == Failure(NotFoundMessage) ==> run.paths == [] && run.acquired == [])
      && (run.result == Failure(MissingFileMessage) <==>
            RecordKey(id) in records && Find(entries, records[RecordKey(id)].resumePath).None?)
      && (run.result == Failure(MissingFileMessage) ==> run.paths == [records[RecordKey(id)].resumePath] && run.acquired == [])
      && (run.result == Failure(MissingImageMessage) <==>
            RecordKey(id) in records && Find(entries, records[RecordKey(id)].resumePath).Some?
            && Find(entries, records[RecordKey(id)].imagePath).None?)
      && (run.result == Failure(MissingImageMessage) ==> |run.acquired| == 1 && |run.paths| == 2)
      && (run.result.Success? ==>
            run.paths == [records[RecordKey(id)].resumePath, records[RecordKey(id)].imagePath])
  {
  }

  /** On success the page shows the stored record's feedback, unmodified, and the stored blobs. */
  lemma LoadKeepsFeedback(records: map<string, ResumeRecord>, entries: seq<Entry>, id: string)
    requires Load(records, entries, id).result.Success?
    ensures RecordKey(id) in records
    ensures var found := Load(records, entries, id).result.value;
      found.feedback == records[RecordKey(id)].feedback
      && Find(entries, records[RecordKey(id)].resumePath) == Some(found.resumeBlob)
      && Find(entries, records[RecordKey(id)].imagePath) == Some(found.imageBlob)
  {
  }

  /** The handles `count` successive calls to `URL.createObjectURL` return, starting at serial `start`. */
  function NewUrls(start: nat, count: nat): (us: seq<Url>)
    ensures |us| == count
    ensures forall i | 0 <= i < count :: us[i] == ObjectUrl(start + i)
  {
    if count == 0 then [] else NewUrls(start, count - 1) + [ObjectUrl(start + count - 1)]
  }

  /** The registry after `blobs` are wrapped, in order, starting at serial `start`. */
  function Bound(live: map<Url, Bytes>, start: nat, blobs: seq<Bytes>): map<Url, Bytes>
  {
    if blobs == [] then live
    else Bound(live, start, blobs[..|blobs| - 1])[ObjectUrl(start + |blobs| - 1) := blobs[|blobs| - 1]]
  }

  /** The i-th new handle stands for the i-th blob. */
  lemma {:induction false} BoundBinds(live: map<Url, Bytes>, start: nat, blobs: seq<Bytes>, i: nat)
    requires i < |blobs|
    ensures ObjectUrl(start + i) in Bound(live, start, blobs)
    ensures Bound(live, start, blobs)[ObjectUrl(start + i)] == blobs[i]
  {
    if i < |blobs| - 1 {
      BoundBinds(live, start, blobs[..|blobs| - 1], i);
    }
  }

  /** The handles after wrapping: those live before and the new ones. */
  lemma {:induction false} BoundKeys(live: map<Url, Bytes>, start: nat, blobs: seq<Bytes>)
    ensures Bound(live, start, blobs).Keys == live.Keys + set u | u in NewUrls(start, |blobs|)
  {
    if blobs != [] {
      var init := blobs[..|blobs| - 1];
      BoundKeys(live, start, init);
      assert NewUrls(start, |blobs|) == NewUrls(start, |init|) + [ObjectUrl(start + |init|)];
    }
  }

  /** Handles live before, all older than `start`, keep their blobs. */
  lemma {:induction false} BoundKeeps(live: map<Url, Bytes>, start: nat, blobs: seq<Bytes>, u: Url)
    requires u in live && u.serial < start
    ensures u in Bound(live, start, blobs) && Bound(live, start, blobs)[u] == live[u]
  {
    if blobs != [] {
      BoundKeeps(live, start, blobs[..|blobs| - 1], u);
    }
  }

  /**
   * Revoking the handles made for `blobs` gives back the registry as it was,
   * provided every handle live before has a serial below `start`.
   */
  lemma RevokeBound(live: map<Url, Bytes>, start: nat, blobs: seq<Bytes>)
    requires forall u | u in live :: u.serial < start
    ensures Bound(live, start, blobs) - (set u | u in NewUrls(start, |blobs|)) == live
  {
  }

  /** `${id}` prints a missing route parameter as "undefined". */
  function IdText(id: Option<string>): string
  {
    match id
    case None => "undefined"
    case Some(s) => s
  }

  /** The redirect effect: unauthenticated once auth has loaded, go to sign-in and come back here. */
  function AuthRedirect(isLoading: bool, isAuthenticated: bool, id: Option<string>): (nav: Option<Navigation>)
    ensures nav.Some? <==> !isLoading && !isAuthenticated
    ensures nav.Some? ==> nav.value.replace && nav.value.to == AuthRoutePrefix + ResumeRoute(IdText(id))
  {
    if !isLoading && !isAuthenticated then Some(Navigation(AuthRoutePrefix + ResumeRoute(IdText(id)), true))
    else None
  }

  /** The sign-in page accepts the `next` this page sends and brings the user back here. */
  lemma RedirectReturnsHere(id: Option<string>)
    ensures Auth.IsValidRedirect(Some(ResumeRoute(IdText(id))))
    ensures Auth.NextUrl(Some(ResumeRoute(IdText(id)))) == ResumeRoute(IdText(id))
  {
    var route := ResumeRoute(IdText(id));
    assert route[0] == '/' && route[1] == 'r';
  }

  /** `score || 0`: a missing (or zero) ATS score is shown as 0. */
  function AtsScore(ats: AtsSection): (score: int)
    ensures ats.score.None? ==> score == 0
    ensures ats.score.Some? ==> score == ats.score.value
  {
    match ats.score
    case None => 0
    case Some(s) => s
  }

  /** `tips || []`: missing ATS tips are shown as none. */
  function AtsTips(ats: AtsSection): (tips: seq<AtsTip>)
    ensures ats.tips.None? ==> tips == []
    ensures ats.tips.Some? ==> tips == ats.tips.value
  {
    match ats.tips
    case None => []
    case Some(t) => t
  }

  /** What the review column shows for a scored report. */
  datatype Review = Review(
    summary: seq<Summary.SummaryCategory>,
    gauge: int,
    atsScore: int,
    atsTips: seq<AtsTip>,
    details: seq<Details.AccordionCategory>)

  function ReviewOf(report: FeedbackReport): Review
  {
    Review(Summary.SummaryCategories(report), Summary.GaugeScore(report),
      AtsScore(report.ats), AtsTips(report.ats), Details.AccordionCategories(report))
  }

  /**
   * The review column as the page renders it: the ATS props read
   * `feedback.ATS.score`, which throws when `feedback` is the empty string
   * of a record that was never scored.
   */
  function RenderAsWritten(feedback: Feedback): (r: Result<Review, Thrown>)
    ensures r.Failure? <==> feedback.Unscored?
    ensures feedback.Scored? ==> r == Success(ReviewOf(feedback.report))
  {
    match feedback
    case Unscored => Failure(ErrorObject(ReadScoreOfUndefined))
    case Scored(report) => Success(ReviewOf(report))
  }

  /** The review column with an unscored record shown as such. */
  datatype ReviewView = NotYetScored | Reviewed(review: Review)

  function Render(feedback: Feedback): (v: ReviewView)
    ensures v.NotYetScored? <==> feedback.Unscored?
    ensures feedback.Scored? ==> v == Reviewed(ReviewOf(feedback.report))
    ensures RenderAsWritten(feedback).Success? ==> v == Reviewed(RenderAsWritten(feedback).value)
  {
    match feedback
    case Unscored => NotYetScored
    case Scored(report) => Reviewed(ReviewOf(report))
  }

  /** What the feedback column shows in each page state. */
  datatype Column = Scanning | ReviewColumn(view: ReviewView) | ErrorColumn(message: string) | Crashed(thrown: Thrown)

  /**
   * The feedback column as the page renders it: the scan animation while
   * loading, the error text on error, and on success the review, whose
   * rendering throws for a record that was never scored.
   */
  function ColumnAsWritten(state: PageState): (c: Column)
    ensures state.Loading? <==> c == Scanning
    ensures state.Failed? <==> c.ErrorColumn?
    ensures state.Failed? ==> c.message == state.error
    ensures c.Crashed? <==> state.Loaded? && state.data.feedback.Unscored?
    ensures state.Loaded? && state.data.feedback.Scored? ==>
      c == ReviewColumn(Reviewed(RenderAsWritten(state.data.feedback).value))
  {
    match state
    case Loading => Scanning
    case Loaded(data) =>
      (match RenderAsWritten(data.feedback)
       case Success(review) => ReviewColumn(Reviewed(review))
       case Failure(thrown) => Crashed(thrown))
    case Failed(error) => ErrorColumn(error)
  }

  /**
   * The corrected feedback column: it never crashes, shows an unscored record
   * as such, and otherwise agrees with the column as written.
   */
  function ColumnFor(state: PageState): (c: Column)
    ensures !c.Crashed?
    ensures state.Loaded? ==> c == ReviewColumn(Render(state.data.feedback))
    ensures !ColumnAsWritten(state).Crashed? ==> c == ColumnAsWritten(state)
    ensures ColumnAsWritten(state).Crashed? ==> c == ReviewColumn(NotYetScored)
  {
    match state
    case Loading => Scanning
    case Loaded(data) => ReviewColumn(Render(data.feedback))
    case Failed(error) => ErrorColumn(error)
  }

  class ResumePage {
    const fs: BlobStore
    const kv: KvStore
    const urls: UrlRegistry

    var state: PageState
    /** The handles made by the current run of the effect, in creation order. */
    var objectUrls: seq<Url>
    /** Every page state set so far, in order. */
    ghost var states: seq<PageState>
    /** Every blob path read so far, in order. */
    ghost var blobReads: seq<Path>

    constructor (fs: BlobStore, kv: KvStore, urls: UrlRegistry)
      ensures this.fs == fs && this.kv == kv && this.urls == urls
      ensures state == Loading && objectUrls == [] && states == [] && blobReads == []
    {
      this.fs := fs;
      this.kv := kv;
      this.urls := urls;
      state := Loading;
      objectUrls := [];
      states := [];
      blobReads := [];
    }

    method SetState(s: PageState)
      modifies this`state, this`states
      ensures state == s && states == old(states) + [s]
    {
      state := s;
      states := states + [s];
    }

    /** Create a URL for `blob` and remember it for the cleanup. */
    method Acquire(blob: Bytes) returns (u: Url)
      requires urls.Valid()
      modifies this`objectUrls, urls
      ensures urls.Valid()
      ensures u == ObjectUrl(old(urls.issued)) && u !in old(urls.live)
      ensures urls.live == old(urls.live)[u := blob] && urls.issued == old(urls.issued) + 1
      ensures objectUrls == old(objectUrls) + [u]
    {
      u := urls.Create(blob);
      objectUrls := objectUrls + [u];
    }

    /** The part of `loadResume` after the record was found. */
    method ReadBlobs(data: ResumeRecord)
      requires urls.Valid()
      modifies this`state, this`states, this`blobReads, this`objectUrls, urls
      ensures urls.Valid()
      ensures var run := ReadRecord(fs.entries, data);
        states == old(states) + [state]
        && blobReads == old(blobReads) + run.paths
        && objectUrls == old(objectUrls) + NewUrls(old(urls.issued), |run.acquired|)
        && urls.live == Bound(old(urls.live), old(urls.issued), run.acquired)
        && urls.issued == old(urls.issued) + |run.acquired|
        && (run.result.Failure? ==> state == Failed(run.result.error))
        && (run.result.Success? ==>
              state == Loaded(PageData(ObjectUrl(old(urls.issued) + 1), ObjectUrl(old(urls.issued)), data.feedback)))
    {
      ghost var start := urls.issued;
      blobReads := blobReads + [data.resumePath];
      var resumeBlob := fs.Read(data.resumePath);
      if resumeBlob.None? {
        SetState(Failed(MissingFileMessage));
        return;
      }
      var resumeUrl := Acquire(resumeBlob.value);
      assert NewUrls(start, 1) == [resumeUrl];
      assert Bound(old(urls.live), start, [resumeBlob.value]) == urls.live;

      blobReads := blobReads + [data.imagePath];
      var imageBlob := fs.Read(data.imagePath);
      if imageBlob.None? {
        SetState(Failed(MissingImageMessage));
        return;
      }
      var imageUrl := Acquire(imageBlob.value);
      assert NewUrls(start, 2) == [resumeUrl, imageUrl];
      assert [resumeBlob.value, imageBlob.value][..1] == [resumeBlob.value];

      SetState(Loaded(PageData(imageUrl, resumeUrl, data.feedback)));
    }

    /** `loadResume`: show loading, look the record up, then read its blobs. */
    method LoadResume(id: string)
      requires urls.Valid()
      modifies this`state, this`states, this`blobReads, this`objectUrls, urls
      ensures urls.Valid()
      ensures var run := Load(kv.records, fs.entries, id);
        states == old(states) + [Loading, state]
        && blobReads == old(blobReads) + run.paths
        && objectUrls == old(objectUrls) + NewUrls(old(urls.issued), |run.acquired|)
        && urls.live == Bound(old(urls.live), old(urls.issued), run.acquired)
        && urls.issued == old(urls.issued) + |run.acquired|
        && (run.result.Failure? ==> state == Failed(run.result.error))
        && (run.result.Success? ==>
              state == Loaded(PageData(ObjectUrl(old(urls.issued) + 1), ObjectUrl(old(urls.issued)),
                run.result.value.feedback)))
    {
      SetState(Loading);
      var record := kv.Get(RecordKey(id));
      if record.None? {
        SetState(Failed(NotFoundMessage));
        return;
      }
      ReadBlobs(record.value);
    }

    /**
     * The effect for the route parameter `id`: nothing without an id;
     * otherwise a fresh list of handles and a load.
     */
    method Open(id: Option<string>)
      requires urls.Valid()
      modifies this`state, this`states, this`blobReads, this`objectUrls, urls
      ensures urls.Valid()
      ensures id.None? || id.value == "" ==>
        state == old(state) && states == old(states) && blobReads == old(blobReads)
        && objectUrls == old(objectUrls) && urls.live == old(urls.live) && urls.issued == old(urls.issued)
      ensures id.Some? && id.value != "" ==>
        states == old(states) + [Loading, state]
        && blobReads == old(blobReads) + Load(kv.records, fs.entries, id.value).paths
        && objectUrls == NewUrls(old(urls.issued), |Load(kv.records, fs.entries, id.value).acquired|)
        && urls.live == Bound(old(urls.live), old(urls.issued), Load(kv.records, fs.entries, id.value).acquired)
        && urls.issued == old(urls.issued) + |objectUrls|
        && (Load(kv.records, fs.entries, id.value).result.Failure? ==>
              state == Failed(Load(kv.records, fs.entries, id.value).result.error))
        && (Load(kv.records, fs.entries, id.value).result.Success? ==>
              state == Loaded(PageData(ObjectUrl(old(urls.issued) + 1), ObjectUrl(old(urls.issued)),
                Load(kv.records, fs.entries, id.value).result.value.feedback)))
    {
      if id.None? || id.value == "" {
        return;
      }
      objectUrls := [];
      LoadResume(id.value);
    }

    /** The effect's cleanup: revoke every handle this run made. */
    method Cleanup()
      requires urls.Valid()
      modifies urls
      ensures urls.Valid()
      ensures urls.live == old(urls.live) - (set u | u in objectUrls)
      ensures urls.issued == old(urls.issued)
    {
      var i := 0;
      while i < |objectUrls|
        invariant 0 <= i <= |objectUrls|
        invariant urls.Valid() && urls.issued == old(urls.issued)
        invariant urls.live == old(urls.live) - (set u | u in objectUrls[..i])
      {
        urls.Revoke(objectUrls[i]);
        assert objectUrls[..i + 1] == objectUrls[..i] + [objectUrls[i]];
        i := i + 1;
      }
      assert objectUrls[..i] == objectUrls;
    }

    /**
     * Mount the page for `id` and leave it: whatever the load ended in, the
     * cleanup leaves the registry with exactly the handles live before.
     */
    method VisitAndLeave(id: Option<string>)
      requires urls.Valid()
      modifies this`state, this`states, this`blobReads, this`objectUrls, urls
      ensures urls.Valid()
      ensures urls.live == old(urls.live)
    {
      Open(id);
      if id.Some? && id.value != "" {
        RevokeBound(old(urls.live), old(urls.issued), Load(kv.records, fs.entries, id.value).acquired);
        Cleanup();
      }
    }
  }
}
