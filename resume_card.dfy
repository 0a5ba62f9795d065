/**
 * One card of the home page's list (app/components/ResumeCard.tsx): a title
 * and subtitle chosen from the record's company and job, an alt text built
 * from them, a link to the record's page, the overall score in a circle, and
 * a preview image wrapped in an object URL that the effect's cleanup revokes.
 */
module ResumeCard {
  import opened Wrappers
  import opened Records
  import opened Puter
  import ScoreCircle

  const DefaultTitle: string := "Resume"
  const AltTextPrefix: string := "Preview of resume for "

  /** `companyName || jobTitle || "Resume"`: the first non-empty of the three. */
  function Title(companyName: string, jobTitle: string): (title: string)
    ensures title != ""
    ensures companyName != "" ==> title == companyName
    ensures companyName == "" && jobTitle != "" ==> title == jobTitle
    ensures companyName == "" && jobTitle == "" ==> title == DefaultTitle
  {
    if companyName != "" then companyName
    else if jobTitle != "" then jobTitle
    else DefaultTitle
  }

  /** `companyName && jobTitle ? jobTitle : null`: the job, shown only under a company title. */
  function Subtitle(companyName: string, jobTitle: string): (subtitle: Option<string>)
    ensures subtitle.Some? <==> companyName != "" && jobTitle != ""
    ensures subtitle.Some? ==> subtitle.value == jobTitle && Title(companyName, jobTitle) == companyName
  {
    if companyName != "" && jobTitle != "" then Some(jobTitle) else None
  }

  /** The preview's alt text: the title, then the subtitle in parentheses when there is one. */
  function AltText(companyName: string, jobTitle: string): (alt: string)
    ensures |alt| > |AltTextPrefix| && alt[..|AltTextPrefix|] == AltTextPrefix
    ensures Subtitle(companyName, jobTitle).None? ==> alt[|AltTextPrefix|..] == Title(companyName, jobTitle)
    ensures Subtitle(companyName, jobTitle).Some? ==>
      alt[|AltTextPrefix|..] == Title(companyName, jobTitle) + " (" + Subtitle(companyName, jobTitle).value + ")"
  {
    var title := Title(companyName, jobTitle);
    var tail := match Subtitle(companyName, jobTitle)
      case Some(subtitle) => " (" + subtitle + ")"
      case None => "";
    assert (AltTextPrefix + title + tail)[|AltTextPrefix|..] == title + tail;
    AltTextPrefix + title + tail
  }

  /**
   * Which of the three inputs the title and alt text show, for each way the
   * company and job can be filled in.
   */
  lemma CardHeadings(companyName: string, jobTitle: string)
    ensures companyName != "" && jobTitle != "" ==>
      AltText(companyName, jobTitle) == AltTextPrefix + companyName + " (" + jobTitle + ")"
    ensures companyName != "" && jobTitle == "" ==> AltText(companyName, jobTitle) == AltTextPrefix + companyName
    ensures companyName == "" && jobTitle != "" ==> AltText(companyName, jobTitle) == AltTextPrefix + jobTitle
    ensures companyName == "" && jobTitle == "" ==> AltText(companyName, jobTitle) == AltTextPrefix + DefaultTitle
  {
  }

  /** The card links to the record's page, the one the submission navigates to. */
  function CardLink(record: ResumeRecord): (link: string)
    ensures link == ResumeRoute(record.id)
    ensures link[|ResumeRoutePrefix|..] == record.id
  {
    ResumeRoute(record.id)
  }

  /**
   * `feedback.overallScore` passed to the circle: an unscored record's empty
   * string has no such field, so the circle's default of 0 applies.
   */
  function CardScore(feedback: Feedback): (score: int)
    ensures feedback.Unscored? ==> score == 0
    ensures feedback.Scored? ==> score == feedback.report.overallScore
  {
    ScoreCircle.ScoreOrDefault(match feedback
      case Unscored => None
      case Scored(report) => Some(report.overallScore))
  }

  /** The preview image element. */
  datatype CardImage = CardImage(src: Url, alt: string)

  class Card {
    const fs: BlobStore
    const urls: UrlRegistry
    const record: ResumeRecord

    /** The `resumeUrl` state; `None` is its initial empty string. */
    var resumeUrl: Option<Url>
    /** The effect's local `url`: the handle this run of the effect made, if any. */
    var url: Option<Url>

    constructor (fs: BlobStore, urls: UrlRegistry, record: ResumeRecord)
      ensures this.fs == fs && this.urls == urls && this.record == record
      ensures resumeUrl.None? && url.None?
    {
      this.fs := fs;
      this.urls := urls;
      this.record := record;
      resumeUrl := None;
      url := None;
    }

    /** The image is rendered only once a URL is set, with the card's alt text. */
    function Image(): (img: Option<CardImage>)
      reads this
      ensures img.Some? <==> resumeUrl.Some?
      ensures img.Some? ==> (img.value.src == resumeUrl.value
        && img.value.alt == AltText(record.companyName, record.jobTitle))
    {
      match resumeUrl
      case None => None
      case Some(u) => Some(CardImage(u, AltText(record.companyName, record.jobTitle)))
    }

    /** The effect: read the preview and, if it exists, wrap it in a new URL. */
    method Mount()
      requires urls.Valid()
      modifies this`resumeUrl, this`url, urls
      ensures urls.Valid()
      ensures fs.Read(record.imagePath).None? ==>
        (url.None? && resumeUrl == old(resumeUrl) && urls.live == old(urls.live) && urls.issued == old(urls.issued))
      ensures fs.Read(record.imagePath).Some? ==>
        (url == Some(ObjectUrl(old(urls.issued))) && resumeUrl == url && url.value !in old(urls.live)
        && urls.live == old(urls.live)[url.value := fs.Read(record.imagePath).value]
        && urls.issued == old(urls.issued) + 1)
    {
      url := None;
      var blob := fs.Read(record.imagePath);
      if blob.None? {
        return;
      }
      var u := urls.Create(blob.value);
      url := Some(u);
      resumeUrl := Some(u);
    }

    /** The effect's cleanup: revoke the handle if one was made. */
    method Cleanup()
      requires urls.Valid()
      modifies urls
      ensures urls.Valid()
      ensures url.None? ==> urls.live == old(urls.live)
      ensures url.Some? ==> urls.live == old(urls.live) - {url.value}
    ensures urls.issued == old(urls.issued)
    {
      if url.Some? {
        urls.Revoke(url.value);
      }
    }

    /** Showing the card and taking it away leaves the live handles as they were. */
    method MountAndUnmount()
      requires urls.Valid()
      modifies this`resumeUrl, this`url, urls
      ensures urls.Valid()
      ensures urls.live == old(urls.live)
    {
      Mount();
      Cleanup();
    }
  }
}
