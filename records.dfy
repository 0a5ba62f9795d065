/**
 * The values the app stores and shows: an uploaded file, the scoring report
 * the oracle produces, and the submission record kept in the key-value store
 * under "resume:" + id.
 */
module Records {
  import opened Wrappers
  import opened Text

  type Path = string
  type Bytes = seq<bv8>

  /** A browser `File`: its name and contents. */
  datatype File = File(name: string, bytes: Bytes)

  datatype TipType = GoodTip | ImproveTip

  /** A category tip: `{ type, tip, explanation }`. */
  datatype Tip = Tip(kind: TipType, tip: string, explanation: string)

  /** An ATS tip carries no explanation. */
  datatype AtsTip = AtsTip(kind: TipType, tip: string)

  datatype Category = Category(score: int, tips: seq<Tip>)

  /** The ATS section; its score and tips may be missing from the oracle's JSON. */
  datatype AtsSection = AtsSection(score: Option<int>, tips: Option<seq<AtsTip>>)

  datatype FeedbackReport = FeedbackReport(
    overallScore: int,
    ats: AtsSection,
    toneAndStyle: Category,
    content: Category,
    structure: Category,
    skills: Category)

  /**
   * The `feedback` field of a record: the empty string while the run has not
   * scored it, the parsed report afterwards.
   */
  datatype Feedback = Unscored | Scored(report: FeedbackReport)

  datatype ResumeRecord = ResumeRecord(
    id: string,
    resumePath: Path,
    imagePath: Path,
    companyName: string,
    jobTitle: string,
    jobDescription: string,
    feedback: Feedback)

  /** A client-side navigation: the target and whether it replaces the history entry. */
  datatype Navigation = Navigation(to: string, replace: bool)

  const RecordKeyPrefix: string := "resume:"
  const ResumeRoutePrefix: string := "/resume/"

  /** The key-value store key of a record: `resume:${uuid}`. */
  function RecordKey(id: string): (key: string)
    ensures StartsWith(key, RecordKeyPrefix) && key[|RecordKeyPrefix|..] == id
  {
    RecordKeyPrefix + id
  }

  /** Different ids never share a key. */
  lemma RecordKeyInjective(a: string, b: string)
    ensures RecordKey(a) == RecordKey(b) ==> a == b
  {
  }

  /** The page that shows a record: `/resume/${id}`. */
  function ResumeRoute(id: string): (route: string)
    ensures StartsWith(route, ResumeRoutePrefix) && route[|ResumeRoutePrefix|..] == id
  {
    ResumeRoutePrefix + id
  }
}
