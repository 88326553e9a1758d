/**
 * The results page: whether it redirects back to the upload page, whether
 * it renders at all, the download link, and the occupancy figures it
 * derives from the report.
 */
module Results {
  import opened Wrappers
  import opened JsonValue

  /** The error toast raised before redirecting to `/`. */
  const NoDataMessage: string := "No analysis data found. Please upload a video first."

  /**
   * The occupancy figures the page computes from the report. The markup
   * does not display them: its two cards hold the download link and the
   * report, shown through the JSON viewer.
   */
  datatype Stats = Stats(totalSpots: int, availableSpots: int, occupiedSpots: int, occupancyRate: int)

  /** What the page holds when it renders at all: the link, the computed figures and the report given to the viewer. */
  datatype Content = Content(downloadUrl: string, stats: Option<Stats>, report: Json)

  /** The page's decision: redirect to `/` or not, the error toast raised with the redirect, and the content it renders, if any. */
  datatype Page = Page(redirectHome: bool, toast: Option<string>, content: Option<Content>)

  /** `${backend}${videoDownloadUrl}`: the two strings joined with nothing in between. */
  function DownloadUrl(backend: string, videoDownloadUrl: string): string {
    backend + videoDownloadUrl
  }

  /**
   * `report[key] || 0`: a missing or falsy member counts as 0. A truthy
   * member that is not a number has no integer value here (`None`).
   */
  function SpotCount(report: Json, key: string): (count: Option<int>)
    ensures Member(report, key).None? ==> count == Some(0)
    ensures Member(report, key).Some? && Falsy(Member(report, key).value) ==> count == Some(0)
    ensures Member(report, key).Some? && Member(report, key).value.JNum? ==>
              count == Some(Member(report, key).value.n)
  {
    match Member(report, key)
    case None => Some(0)
    case Some(v) =>
      if Falsy(v) then Some(0)
      else if v.JNum? then Some(v.n)
      else None
  }

  /**
   * `Math.round(num / den)` for a positive `den`: the nearest integer,
   * halves rounded up.
   */
  function RoundHalfUp(num: int, den: int): (r: int)
    requires den > 0
    ensures den * (2 * r - 1) <= 2 * num < den * (2 * r + 1)
  {
    var r := (2 * num + den) / (2 * den);
    assert 2 * den * r <= 2 * num + den < 2 * den * r + 2 * den;
    r
  }

  /** `totalSpots > 0 ? Math.round(occupiedSpots / totalSpots * 100) : 0` */
  function OccupancyRate(totalSpots: int, occupiedSpots: int): int {
    if totalSpots > 0 then RoundHalfUp(100 * occupiedSpots, totalSpots) else 0
  }

  /** The occupancy figures, when both counts have integer values. */
  function ReportStats(report: Json): Option<Stats> {
    match (SpotCount(report, "total_spots"), SpotCount(report, "available_spots"))
    case (Some(total), Some(available)) =>
      var occupied := total - available;
      Some(Stats(total, available, occupied, OccupancyRate(total, occupied)))
    case _ => None
  }

  /** The redirect effect's condition: no report or no download URL. */
  predicate RedirectsHome(jsonReport: Json, videoDownloadUrl: string) {
    Falsy(jsonReport) || videoDownloadUrl == ""
  }

  /** The page for the store's report and URL, with `backend` the configured service base URL. */
  function ResultsPage(jsonReport: Json, videoDownloadUrl: string, backend: string): Page {
    var redirect := RedirectsHome(jsonReport, videoDownloadUrl);
    Page(
      redirect,
      if redirect then Some(NoDataMessage) else None,
      if Falsy(jsonReport) then None
      else Some(Content(DownloadUrl(backend, videoDownloadUrl), ReportStats(jsonReport), jsonReport)))
  }

  /**
   * The page redirects exactly when the report or the URL is missing, and
   * renders nothing exactly when the report is missing; a report without a
   * URL is still rendered while the redirect fires. The error toast is
   * raised exactly when the page redirects.
   */
  lemma GuardConditions(jsonReport: Json, videoDownloadUrl: string, backend: string)
    ensures ResultsPage(jsonReport, videoDownloadUrl, backend).redirectHome <==>
              Falsy(jsonReport) || videoDownloadUrl == ""
    ensures ResultsPage(jsonReport, videoDownloadUrl, backend).content.None? <==> Falsy(jsonReport)
    ensures ResultsPage(jsonReport, videoDownloadUrl, backend).toast ==
              if Falsy(jsonReport) || videoDownloadUrl == "" then Some(NoDataMessage) else None
    ensures !Falsy(jsonReport) && videoDownloadUrl == "" ==>
              ResultsPage(jsonReport, videoDownloadUrl, backend).redirectHome &&
              ResultsPage(jsonReport, videoDownloadUrl, backend).content.Some?
  {
  }

  /** The link starts with the base URL and ends with the store's URL, nothing inserted between. */
  lemma DownloadUrlJoin(jsonReport: Json, videoDownloadUrl: string, backend: string)
    requires !Falsy(jsonReport)
    ensures var u := ResultsPage(jsonReport, videoDownloadUrl, backend).content.value.downloadUrl;
            && |u| == |backend| + |videoDownloadUrl|
            && u[..|backend|] == backend
            && u[|backend|..] == videoDownloadUrl
  {
  }

  /** A report without the two counts yields all-zero figures. */
  lemma MissingCountsAreZero(jsonReport: Json)
    requires Member(jsonReport, "total_spots").None? && Member(jsonReport, "available_spots").None?
    ensures ReportStats(jsonReport) == Some(Stats(0, 0, 0, 0))
  {
  }

  /** Occupied spots are not clamped: more available than total spots gives a negative count. */
  lemma OccupiedNotClamped(total: int, available: int)
    requires available > total
    ensures var o := ReportStats(JObj([("total_spots", JNum(total)), ("available_spots", JNum(available))]));
            o.Some? && o.value.occupiedSpots == total - available && o.value.occupiedSpots < 0
  {
    var ms := [("total_spots", JNum(total)), ("available_spots", JNum(available))];
    assert ms[..1] == [("total_spots", JNum(total))];
    assert ms[1].0 != "total_spots";
    assert LastMember(ms[..1], "total_spots") == Some(JNum(total));
    assert Member(JObj(ms), "total_spots") == Some(JNum(total));
    assert Member(JObj(ms), "available_spots") == Some(JNum(available));
  }

  /** The rate is the percentage of occupied spots rounded half up, and 0 when there are no spots. */
  lemma RateIsRoundedPercentage(total: int, occupied: int)
    ensures total <= 0 ==> OccupancyRate(total, occupied) == 0
    ensures total > 0 ==>
              var r := OccupancyRate(total, occupied);
              total * (2 * r - 1) <= 200 * occupied < total * (2 * r + 1)
  {
  }

  /** Multiplication by a positive number preserves strict order, so it can be cancelled. */
  lemma CancelPositiveFactor(d: int, x: int, y: int)
    requires d > 0 && d * x < d * y
    ensures x < y
  {
  }

  /** With 0 <= available <= total and total > 0, the rate lies in [0, 100]. */
  lemma {:induction false} RateWithinPercent(total: int, available: int)
    requires total > 0 && 0 <= available <= total
    ensures 0 <= OccupancyRate(total, total - available) <= 100
  {
    var occupied := total - available;
    var r := OccupancyRate(total, occupied);
    assert total * (2 * r - 1) <= 200 * occupied < total * (2 * r + 1);
    assert 0 <= 200 * occupied <= 200 * total;
    CancelPositiveFactor(total, 2 * r - 1, 201);
    CancelPositiveFactor(total, -1, 2 * r + 1);
  }
}
