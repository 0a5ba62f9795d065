# resumind, modelled in Dafny

resumind is a React app that scores a résumé against a job. On the upload
page the user picks a PDF and fills in the company, the job title and the job
description. The page then runs a pipeline:

1. upload the PDF to the hosted file store;
2. convert the PDF's first page to an image;
3. upload the image;
4. save a provisional record under `resume:<uuid>` in the key-value store, with empty feedback;
5. ask the AI service for feedback and parse its JSON;
6. save the record again with the report;
7. navigate to `/resume/<uuid>`.

The review page reads the record and both blobs, wraps the blobs in object
URLs and shows the report through the Summary, ATS and Details components.
The cleanup of its effect revokes the URLs. The wipe page deletes every
listed file and flushes the key-value store. The sign-in page sends the user
on to a `next` target it has checked. The home page's card shows a record's
title, score and preview.

The model has one module per source file: `Upload`, `Resume`, `Wipe`, `Auth`,
`FileUploader`, `ResumeCard`, `Details`, `Ats`, `Summary`, `ScoreBadge` and
`ScoreCircle`. It adds these shared modules:

- `Wrappers`: Option and Result.
- `Js`: thrown values, settled promises, and the `e instanceof Error` message rule.
- `Text`: integer rendering, with a parser that reads it back.
- `Records`: the stored record, the report, the record key and the page route.
- `Puter`: the hosted file store, the key-value store and the browser's object-URL registry. They are classes whose fields the pages change.
- `ScoreAgreement`: the five copies of the score classifier agree.
- `Scenarios`: what a run of the upload page leaves for the review page and the card.

The page components become classes. Their React state becomes fields, and
each handler becomes a method that states the whole new state. The upload
and wipe pages record every store call they make in a ghost trace, and the
review page records its blob reads; the review page's key-value read and
the card's blob read are not traced. Each method is proved
against a specification function of the inputs: `Outcome`, `Calls`,
`FinalRecord` and `BlobsAfter` for the upload page, `Load` for the review
page, and `RemoveAll` for the wipe page. The lemmas state what the source
promises about those functions.

One run of the upload page depends on what its collaborators answer. These
answers are an input value (`Upload.Collaborators`):

- how each awaited call settled: fulfilled with a value, fulfilled falsy, or rejected;
- the generated uuid;
- what `JSON.parse` yields for the oracle's text.

## Model

| member | source | states |
|---|---|---|
| Js.ErrorMessage | app/routes/upload.tsx:88-91 | a thrown `Error` shows its own message; any other thrown value shows "An unknown error occurred." |
| Records.RecordKey | app/routes/upload.tsx:68 | the record key is "resume:" followed by exactly the id |
| Records.RecordKeyInjective | app/routes/upload.tsx:68 | two different ids never share a key, so runs never overwrite each other's records |
| Records.ResumeRoute | app/routes/upload.tsx:87 | the review route is "/resume/" followed by exactly the id |
| Upload.FeedbackText | app/routes/upload.tsx:79-82 | the text is the string content, or the first part's text; an empty part list throws an Error at the read-feedback stage |
| Upload.Draft | app/routes/upload.tsx:58-67 | the provisional record exists exactly when both uploads and the conversion succeeded; it carries the uuid, both stored paths and the three form values, with feedback unset |
| Upload.Outcome | app/routes/upload.tsx:38-87 | the run stops at the first failing stage: it fails at each of the five stages exactly when the earlier stages succeeded and that one did not; a rejection at any stage halts the run at that stage with the very value the collaborator threw, and a parse error halts it at the read-feedback stage with the parser's message; when every stage succeeds, the run completes with the parse of the oracle's text |
| Upload.FinalRecordMeaning | app/routes/upload.tsx:59-68 | the record left in the store exists exactly when the provisional write happened; it differs from the provisional record only in its feedback, which is scored exactly when the run completed, and then holds the run's report |
| Upload.BlobsAfterMeaning | app/routes/upload.tsx:39-55 | a failed PDF upload leaves the file store unchanged; paths stay distinct; once both uploads succeeded, both paths exist and the image path holds the converted image |
| Upload.StageFailureMessages | app/routes/upload.tsx:41-55 | a falsy answer at each stage shows that stage's own message; a rejection of the file upload or of the oracle shows the thrown Error's own message, or the unknown-error text when what was thrown is not an Error; a parse failure shows the parser's message; an error is shown exactly when the run did not complete |
| Upload.KvWritesFollowUploads | app/routes/upload.tsx:39-68 | no key-value write happens before the PDF upload, the conversion and the image upload, in that order; every write uses the key "resume:" + uuid |
| Upload.OracleAfterProvisionalRecord | app/routes/upload.tsx:68-74 | the oracle is called only as the fifth call, right after the provisional record is written, and gets the stored PDF path, the job title and the job description |
| Upload.ScoredAtMostOnce | app/routes/upload.tsx:83-84 | the only write of a scored record is the last call; it overwrites the run's own unscored provisional record |
| Upload.LateFailureLeavesUnscoredRecord | app/routes/upload.tsx:66-77 | a failure after the provisional write is an analyze or read-feedback failure, and leaves the provisional record, unscored |
| Upload.UploadPage.constructor | app/routes/upload.tsx:20-22 | the page starts idle, with empty status text, no error and no navigation |
| Upload.UploadPage.Catch | app/routes/upload.tsx:88-94 | the catch block shows the thrown value's message, clears the status text and stops processing |
| Upload.UploadPage.StoreArtifacts | app/routes/upload.tsx:38-55 | the first three stages make exactly the artifact calls and leave the file store as `BlobsAfter` says; they yield the provisional record exactly when it exists, and otherwise the run's failure |
| Upload.UploadPage.ScoreDraft | app/routes/upload.tsx:57-87 | the remaining stages write the provisional record, then the final record; on failure they show its message, and on success they set the done status and navigate to the record's page |
| Upload.UploadPage.HandleAnalyze | app/routes/upload.tsx:29-95 | the handler makes exactly `Calls`, leaves `BlobsAfter` and `FinalRecord` in the stores, shows `FailureText` and stops on failure, and navigates to `/resume/<uuid>` on success |
| Upload.UploadPage.HandleSubmit | app/routes/upload.tsx:97-114 | with no file selected it shows "Please select a resume file to upload." and changes nothing else; otherwise it runs the pipeline on the form values and the selected file, with the calls, stores, error, status and navigation `HandleAnalyze` gives |
| FileUploader.MaxFileSize | app/components/FileUploader.tsx:45 | the size limit is 20 MB, 20971520 bytes |
| FileUploader.RejectionMessage | app/components/FileUploader.tsx:17-26 | the too-large and wrong-type codes each get their own message, and every other code gets the generic one (both directions) |
| FileUploader.DropOutcome | app/components/FileUploader.tsx:13-36 | any rejection wins: its first error's message is shown and nothing is selected; without rejections no error is shown and the first accepted file, if any, is selected |
| FileUploader.Uploader.constructor | app/components/FileUploader.tsx:11 | no error and no file at first |
| FileUploader.Uploader.OnFileChange | app/routes/upload.tsx:25-27 | the parent stores the new selection |
| FileUploader.Uploader.OnDrop | app/components/FileUploader.tsx:13-52 | a drop arrives only while no file is held (the drop zone is disabled otherwise); it first clears the error, then leaves the error and selection `DropOutcome` gives |
| FileUploader.Uploader.RemoveFile | app/components/FileUploader.tsx:55-58 | removing clears the selection |
| Puter.Find | app/routes/resume.tsx:51 | a read finds contents exactly for a stored path |
| Puter.Put | app/routes/upload.tsx:40 | storing adds the path, makes it hold the new contents, leaves every other path as it was, and keeps paths distinct |
| Puter.Remove | app/routes/wipe.tsx:32 | a delete removes the path, leaves every other path as it was, and keeps paths distinct |
| Puter.RemoveAllEffect | app/routes/wipe.tsx:32-33 | after deleting a list of paths, exactly those paths are gone and every other file is as it was |
| Puter.Listing | app/routes/wipe.tsx:17 | the listing has one item per stored file, in order, with its path and name |
| Puter.ItemPaths | app/routes/wipe.tsx:32 | the paths of a listing, one per item, in order |
| Puter.InPathsOfListing | app/routes/wipe.tsx:17 | a path is stored exactly when the listing shows it |
| Puter.DeleteListingEmpties | app/routes/wipe.tsx:31-33 | deleting every path of the current listing empties the store |
| Puter.BlobStore.Store | app/routes/upload.tsx:40 | an upload stores the file under the path the store answered |
| Puter.BlobStore.Delete | app/routes/wipe.tsx:32 | a delete removes the path |
| Puter.KvStore.Set | app/routes/upload.tsx:68 | a set binds the key to the record |
| Puter.KvStore.Flush | app/routes/wipe.tsx:34 | a flush empties the key-value store |
| Puter.UrlRegistry.Create | app/routes/resume.tsx:57 | each new object URL is fresh and stands for its blob |
| Puter.UrlRegistry.Revoke | app/routes/resume.tsx:87 | revoking removes only that handle |
| Resume.ReadRecord | app/routes/resume.tsx:51-75 | the PDF is read first; a missing PDF gives "Could not read resume file." before any URL is made; a stored PDF with a missing image gives "Could not read resume image." after the PDF was wrapped; the run succeeds exactly when both blobs are stored, wraps both, and shows the record's own feedback |
| Resume.Load | app/routes/resume.tsx:42-81 | at most two blob reads and two URLs; success exactly when two URLs were made |
| Resume.LoadErrors | app/routes/resume.tsx:45-63 | "Resume not found." exactly for a missing record, "Could not read resume file." exactly for a missing PDF, and "Could not read resume image." exactly for a missing image; each says which blobs were read and wrapped |
| Resume.LoadKeepsFeedback | app/routes/resume.tsx:68-75 | on success the page shows the stored feedback, unchanged, and the two stored blobs |
| Resume.NewUrls | app/routes/resume.tsx:56-66 | the handles the loads create are successive fresh serials |
| Resume.BoundBinds | app/routes/resume.tsx:56-66 | the i-th new handle stands for the i-th blob |
| Resume.BoundKeys | app/routes/resume.tsx:56-66 | after wrapping, the live handles are the earlier ones plus exactly the new ones |
| Resume.BoundKeeps | app/routes/resume.tsx:56-66 | earlier handles keep their blobs |
| Resume.RevokeBound | app/routes/resume.tsx:85-88 | revoking the handles made by one load gives back exactly the registry as it was |
| Resume.AuthRedirect | app/routes/resume.tsx:30-34 | the page redirects exactly when auth has loaded and the user is signed out, to the sign-in page with `next` set to this page, replacing the history entry |
| Resume.RedirectReturnsHere | app/routes/resume.tsx:32 | the sign-in page accepts that `next` and sends the user back to this page |
| Resume.AtsScore | app/routes/resume.tsx:143 | a missing ATS score is shown as 0 |
| Resume.AtsTips | app/routes/resume.tsx:144 | missing ATS tips are shown as none |
| Resume.RenderAsWritten | app/routes/resume.tsx:141-146 | as written, the review column throws exactly for an unscored record, and renders every scored report |
| Resume.Render | app/routes/resume.tsx:136-149 | corrected: an unscored record shows "not yet scored"; it agrees with the as-written render wherever that one does not throw |
| Resume.ColumnAsWritten | app/routes/resume.tsx:128-155 | as written, the feedback column shows the scan animation exactly while loading and the error text exactly on error; on success it crashes exactly for an unscored record, and otherwise shows the review |
| Resume.ColumnFor | app/routes/resume.tsx:128-155 | corrected: the column never crashes, shows an unscored record as not yet scored, and otherwise equals the column as written |
| Resume.ResumePage.constructor | app/routes/resume.tsx:28 | the page starts in the loading state |
| Resume.ResumePage.SetState | app/routes/resume.tsx:43 | sets the page state and records it |
| Resume.ResumePage.Acquire | app/routes/resume.tsx:56-58 | a new handle is made for the blob and remembered for the cleanup |
| Resume.ResumePage.ReadBlobs | app/routes/resume.tsx:51-75 | the reads, the URLs made and the final state are those of `ReadRecord` on the current store |
| Resume.ResumePage.LoadResume | app/routes/resume.tsx:42-81 | shows loading first, then the reads, the URLs made and the final state `Load` gives |
| Resume.ResumePage.Open | app/routes/resume.tsx:36-83 | with no id the effect does nothing; otherwise it starts a fresh handle list, shows loading, and ends with the reads, URLs and final state (loaded or the error text) that `Load` gives |
| Resume.ResumePage.Cleanup | app/routes/resume.tsx:86-88 | the cleanup revokes exactly the handles this run made |
| Resume.ResumePage.VisitAndLeave | app/routes/resume.tsx:36-89 | opening the page and leaving it leaves the live object URLs exactly as they were, however the load ended |
| Wipe.DeleteCalls | app/routes/wipe.tsx:32 | one delete call per path, in order |
| Wipe.WipeRedirect | app/routes/wipe.tsx:25-29 | the page redirects exactly when auth has loaded and the user is signed out, to "/auth?next=/wipe", replacing the history entry |
| Wipe.RedirectReturnsHere | app/routes/wipe.tsx:27 | the sign-in page accepts "/wipe" as `next` and returns to it |
| Wipe.WipePage.constructor | app/routes/wipe.tsx:14 | the listing starts empty |
| Wipe.WipePage.LoadFiles | app/routes/wipe.tsx:16-19 | the files state becomes the store's current listing |
| Wipe.WipePage.DeleteAll | app/routes/wipe.tsx:32-33 | deletes every given path, in order, and leaves the store as `RemoveAll` gives |
| Wipe.WipePage.HandleDelete | app/routes/wipe.tsx:31-36 | deletes every listed path, only then flushes the key-value store, then lists again |
| Wipe.RemoveAllSnoc | app/routes/wipe.tsx:32-33 | deleting one more path extends a batch of deletes by that delete |
| Wipe.DeleteCallsSnoc | app/routes/wipe.tsx:32 | one more path adds one more delete call at the end |
| Wipe.WipeEffect | app/routes/wipe.tsx:31-36 | every listed file is gone and every other file is untouched; with a current listing the store ends empty |
| Auth.NextUrl | app/routes/auth.tsx:15-18 | a `next` starting with "/" but not "//" is kept, anything else becomes "/"; the result always starts with "/" and never with "//" |
| Auth.BackslashTargetKept | app/routes/auth.tsx:16-18 | the check looks at two characters only, so "/\evil.com", which browsers read like "//evil.com", is kept as the target |
| Auth.NextUrlIdempotent | app/routes/auth.tsx:16-18 | a computed target passes the check again unchanged |
| Auth.AuthNavigation | app/routes/auth.tsx:20-22 | a signed-in user is sent to the target, replacing the history entry; a signed-out user stays |
| Auth.Button | app/routes/auth.tsx:33-47 | the signing-in button exactly while loading, then log-out exactly when signed in, log-in otherwise, labelled "Signing you in...", "Log Out" and "Log In" |
| ResumeCard.Title | app/components/ResumeCard.tsx:14 | the title is the first non-empty of company, job title and "Resume", and is never empty |
| ResumeCard.Subtitle | app/components/ResumeCard.tsx:15 | the job title is a subtitle exactly when both company and job title are set, and then the title is the company |
| ResumeCard.AltText | app/components/ResumeCard.tsx:16-18 | the alt text is "Preview of resume for " plus the title, with the subtitle in parentheses when there is one |
| ResumeCard.CardHeadings | app/components/ResumeCard.tsx:14-18 | the alt text for each of the four ways company and job title can be filled in |
| ResumeCard.CardLink | app/components/ResumeCard.tsx:43-44 | the card links to the route the upload page navigates to |
| ResumeCard.CardScore | app/components/ResumeCard.tsx:56 | the circle shows the report's overall score, or 0 for an unscored record |
| ResumeCard.Card.constructor | app/components/ResumeCard.tsx:12 | no preview URL at first |
| ResumeCard.Card.Image | app/components/ResumeCard.tsx:60-68 | the preview image is rendered exactly when a URL is set, with the card's alt text |
| ResumeCard.Card.Mount | app/components/ResumeCard.tsx:20-33 | a missing preview changes nothing; otherwise one fresh URL is made for it and shown |
| ResumeCard.Card.Cleanup | app/components/ResumeCard.tsx:35-39 | the cleanup revokes the URL if one was made, leaves every other URL live and issues none |
| ResumeCard.Card.MountAndUnmount | app/components/ResumeCard.tsx:20-40 | showing and removing the card leaves the live object URLs as they were |
| Details.GetScoreStatus | app/components/Details.tsx:14-22 | good from 70, average from 50 below 70, bad below 50 (both directions) |
| Details.BadgeStyleOneToOne | app/components/Details.tsx:26-37 | different statuses never share a badge colour or a text colour |
| Details.BadgeIcon | app/components/Details.tsx:47 | the check mark exactly for a good score, the warning otherwise |
| Details.BadgeText | app/components/Details.tsx:51 | the badge reads "<score>/100" and the score can be read back from it |
| Details.AccordionCategories | app/components/Details.tsx:124-145 | four items with distinct ids, titled Tone & Style, Content, Structure, Skills, each holding its own report field |
| Details.TipPresentation | app/components/Details.tsx:79-117 | the check mark marks exactly the good tips; good tips are green, improvements yellow, and the two styles differ |
| Ats.GetScoreStatus | app/components/ATS.tsx:8-16 | good from 70, warning from 50 below 70, bad below 50 (both directions) |
| Ats.ScoreStatusConfig | app/components/ATS.tsx:18-37 | each status has its own gradient, and the icon is named after the status |
| Ats.ConfigOneToOne | app/components/ATS.tsx:18-37 | different statuses never share a configuration |
| Ats.Header | app/components/ATS.tsx:58 | the heading reads "ATS Score - <score>/100" and the score can be read back from it |
| Ats.SuggestionIcon | app/components/ATS.tsx:73-78 | the check mark exactly for a good suggestion, the warning exactly for an improvement |
| Summary.GetScoreStatus | app/components/Summary.tsx:9-17 | good from 70, average from 50 below 70, bad below 50 (both directions) |
| Summary.ScoreTextColor | app/components/Summary.tsx:19-23 | each status has its own text colour (both directions) |
| Summary.SummaryCategories | app/components/Summary.tsx:44-49 | four rows with distinct titles, scored from the four categories in order |
| Summary.GaugeIgnoresCategories | app/components/Summary.tsx:54 | the gauge shows the overall score as given, whatever the categories hold |
| ScoreBadge.GetScoreStatus | app/components/ScoreBadge.tsx:8-16 | good from 70, average from 50 below 70, bad below 50 (both directions) |
| ScoreBadge.ScoreConfig | app/components/ScoreBadge.tsx:18-31 | "Strong", "Good Start" and "Needs Work" each belong to exactly one status |
| ScoreBadge.GoodBadgeClass | app/components/ScoreBadge.tsx:20 | the good badge's background and text are both green |
| ScoreBadge.AverageBadgeClass | app/components/ScoreBadge.tsx:24 | the average badge's background and text are both yellow |
| ScoreBadge.BadBadgeClass | app/components/ScoreBadge.tsx:28 | the bad badge's background and text are both red |
| ScoreBadge.OneColourPerBadge | app/components/ScoreBadge.tsx:18-31 | every badge's background and text are of one colour |
| ScoreBadge.Monotone | app/components/ScoreBadge.tsx:8-16 | a higher score never gets a worse status |
| ScoreCircle.GetScoreStatus | app/components/ScoreCircle.tsx:6-10 | good from 70, average from 50 below 70, bad below 50 (both directions) |
| ScoreCircle.ScoreOrDefault | app/components/ScoreCircle.tsx:12 | an absent score is shown as 0 |
| ScoreCircle.AriaLabel | app/components/ScoreCircle.tsx:24 | the label reads "Score: <score> out of 100" and the score can be read back from it |
| ScoreCircle.CentreText | app/components/ScoreCircle.tsx:65 | the centre reads "<score>/100" and the score can be read back from it |
| ScoreAgreement.AtsAgreesWithDetails | app/components/ATS.tsx:8-16 | the ATS panel classifies every score as Details does, with "warning" for "average" |
| ScoreAgreement.SummaryAgreesWithDetails | app/components/Summary.tsx:9-17 | the summary classifies every score as Details does |
| ScoreAgreement.ScoreBadgeAgreesWithDetails | app/components/ScoreBadge.tsx:8-16 | the word badge classifies every score as Details does |
| ScoreAgreement.ScoreCircleAgreesWithDetails | app/components/ScoreCircle.tsx:6-10 | the circle's classifier agrees with Details |
| ScoreAgreement.SummaryRowsMatchAccordion | app/components/Summary.tsx:44-49 | the summary rows and the accordion items list the same categories in the same order, with the same titles and scores |
| Text.ParseIntToString | app/components/ATS.tsx:58 | a rendered integer reads back as itself |
| Text.IntWithSuffix | app/components/Details.tsx:51 | an integer followed by a suffix reads back as itself before the suffix |
| Scenarios.SubmitThenReview | app/routes/resume.tsx:45-75 | when the PDF and the image were stored under different paths, after a completed submission the review page for its uuid finds the submitted PDF, the converted image and the scored report, and the card shows the report's overall score |
| Scenarios.LateFailureCrashesReview | app/routes/resume.tsx:143-144 | after a submission that failed past the provisional write, the review page loads an unscored record, the as-written render and column crash on it, and the card shows 0 |
| Scenarios.LateFailureShowsNotYetScored | app/routes/resume.tsx:136-149 | with the corrected render, the same record shows "not yet scored" |

## Left out

- The collaborators' own code is not part of this model: the hosted store library, the PDF converter, the uuid generator, the AI prompt text and JSON.parse. What they answer is an input, and the stores are modelled by the effect the pages rely on.
- A rejection from the key-value store or from a file read is not modelled. The upload page's `kv.set` and the review page's `kv.get` and `fs.read` always succeed; rejections of the uploads, the conversion and the oracle are modelled.
- JSON stringify and parse of a stored record are taken as lossless, so the store holds the record value itself.
- Scenarios.SubmitThenReview assumes that the store returned different paths for the PDF and the image. The hosted store chooses the paths, and if both uploads got the same one, the image would replace the PDF.
- The empty-string feedback of a provisional record is the `Unscored` case.
- Asynchrony and concurrency are not modelled. Each handler runs to completion in the order the awaits give, so interleaved runs are out of scope. `Promise.all` in the wipe page becomes deletes in listing order.
- Wipe.WipePage.HandleDelete: a failing delete, and the partial wipe it leaves, are not modelled.
- React rendering, the layout markup, CSS classes other than the status-dependent ones, the loading animation, the navbar and the meta tags are left out.
- The dropzone's own MIME and size checks happen inside the library; the model takes its accepted and rejected lists as input.
- FileUploader.DropOutcome: requires the first rejection to carry at least one error. The library always gives one, and the source would throw on an empty list.
- The FileUploader's five-second timer that clears its error is left out, since it is a clock.
- ScoreCircle's SVG geometry (radius, circumference, dash offset) is floating point and is left out.
- Scores are integers. Fractional, NaN and exponent-form numbers are left out, so the text rendering is plain decimal.
- The form lookup in `handleSubmit` (a missing enclosing form returns early) is left out; the form values are parameters.
- A failed `kv.set` on the upload page is not caught separately and has no stage message of its own (app/routes/upload.tsx:68, 84); the model takes both writes as succeeding.
- Resume.ResumePage.VisitAndLeave, ResumeCard.Card.MountAndUnmount: the cleanup is taken to run after the load has finished. In the source the load is not awaited (app/routes/resume.tsx:83, app/components/ResumeCard.tsx:33). A cleanup that runs while a read is pending revokes only the handles made so far, and handles made afterwards are never revoked; the model does not capture that interleaving.
- Resume.RedirectReturnsHere: the id is put into `/auth?next=/resume/${id}` without URL encoding (app/routes/resume.tsx:32), so an id containing `&`, `#`, `+` or `%` reaches the sign-in page changed; the model passes the route to the sign-in check as it is, without modelling query-string parsing.

## Findings

| source | as written | input that shows it | evidently intended | confidence | as-written member | corrected member |
|---|---|---|---|---|---|---|
| app/routes/resume.tsx:143-144 | the review column reads `feedback.ATS.score` of the stored record. A run that fails after the provisional write (app/routes/upload.tsx:66-77) leaves that record with feedback "", so the read throws a TypeError while rendering | a submission whose uploads and conversion succeed and whose oracle answers falsy, then opening `/resume/<uuid>` | show the record as not yet scored | not executed | Resume.RenderAsWritten, Resume.ColumnAsWritten, Scenarios.LateFailureCrashesReview | Resume.Render, Resume.ColumnFor, Scenarios.LateFailureShowsNotYetScored |
