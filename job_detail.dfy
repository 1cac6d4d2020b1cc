/** The job detail page: it looks up the selected match by job id, shows
    "Job not found" when there is none, colours the three scores, and wires
    the save and apply buttons to the store's lists. Its salary line is the
    card's `formatSalary`, written out again in the page. */
module JobDetail {
  import opened Wrappers
  import opened Types
  import opened ScoreBands
  import opened JobStore
  import opened JobCard

  /** `i` is the position of the first match whose job has id `jobId`. */
  predicate IsFirstWithId(matches: seq<JobMatch>, i: int, jobId: string) {
    && 0 <= i < |matches|
    && matches[i].job.id == jobId
    && forall j :: 0 <= j < i ==> matches[j].job.id != jobId
  }

  /** The position of the first match whose job has id `jobId`, or `|matches|`. */
  function FindIndex(matches: seq<JobMatch>, jobId: string): (i: nat)
    ensures i <= |matches|
    ensures i < |matches| ==> IsFirstWithId(matches, i, jobId)
    ensures forall j :: 0 <= j < i ==> matches[j].job.id != jobId
  {
    if |matches| == 0 then 0
    else if matches[0].job.id == jobId then 0
    else 1 + FindIndex(matches[1..], jobId)
  }

  /** `matches.find(m => m.job.id === jobId)`. */
  function FindMatch(matches: seq<JobMatch>, jobId: string): (r: Option<JobMatch>)
    ensures r.None? <==> forall m :: m in matches ==> m.job.id != jobId
    ensures r.Some? ==> r.value in matches && r.value.job.id == jobId
    ensures r.Some? ==> exists i :: IsFirstWithId(matches, i, jobId) && matches[i] == r.value
  {
    var i := FindIndex(matches, jobId);
    if i < |matches| then Some(matches[i])
    else
      assert forall m :: m in matches ==> m.job.id != jobId by {
        forall m | m in matches ensures m.job.id != jobId {
          var k :| 0 <= k < |matches| && matches[k] == m;
        }
      }
      None
  }

  /** What the page shows: the not-found view, or the match with the state of
      its two buttons. */
  datatype DetailView = NotFound | Found(m: JobMatch, isSaved: bool, isApplied: bool)

  function DetailPage(matches: seq<JobMatch>, savedJobs: seq<string>, appliedJobs: seq<string>, jobId: string)
    : (v: DetailView)
    ensures v.NotFound? <==> forall m :: m in matches ==> m.job.id != jobId
    ensures v.Found? ==> v.m in matches && v.m.job.id == jobId
    ensures v.Found? ==> exists i :: IsFirstWithId(matches, i, jobId) && matches[i] == v.m
    ensures v.Found? ==> (v.isSaved <==> jobId in savedJobs) && (v.isApplied <==> jobId in appliedJobs)
  {
    match FindMatch(matches, jobId)
    case None => NotFound
    case Some(m) => Found(m, m.job.id in savedJobs, m.job.id in appliedJobs)
  }

  /** `getScoreColor` of the page (text colour only). */
  function DetailScoreColor(score: int): string {
    if score >= 80 then "text-emerald-400"
    else if score >= 60 then "text-blue-400"
    else if score >= 40 then "text-amber-400"
    else "text-slate-400"
  }

  /** `getProgressColor`, the colour of the score bars. */
  function ProgressColor(score: int): string {
    if score >= 80 then "bg-emerald-500"
    else if score >= 60 then "bg-blue-500"
    else if score >= 40 then "bg-amber-500"
    else "bg-slate-500"
  }

  /** The rating word under the overall score. */
  function RatingLabel(score: int): string {
    if score >= 80 then "Excellent"
    else if score >= 60 then "Good"
    else if score >= 40 then "Fair"
    else "Low"
  }

  /** The page's text colour separates scores by band. */
  lemma DetailColorFollowsBand(s: int, t: int)
    ensures DetailScoreColor(s) == DetailScoreColor(t) <==> BandOf(s) == BandOf(t)
  {
  }

  /** The bar colour separates scores by band. */
  lemma ProgressColorFollowsBand(s: int, t: int)
    ensures ProgressColor(s) == ProgressColor(t) <==> BandOf(s) == BandOf(t)
  {
  }

  /** The rating word separates scores by band, and so agrees with the card's colour. */
  lemma RatingFollowsBand(s: int, t: int)
    ensures RatingLabel(s) == RatingLabel(t) <==> BandOf(s) == BandOf(t)
    ensures RatingLabel(s) == RatingLabel(t) <==> ScoreColor(s) == ScoreColor(t)
  {
    ColorFollowsBand(s, t);
  }

  /** After applying from the page, the page shows the job as applied and the
      apply button is disabled. */
  lemma ApplyDisablesButton(matches: seq<JobMatch>, savedJobs: seq<string>, appliedJobs: seq<string>, jobId: string)
    requires DetailPage(matches, savedJobs, appliedJobs, jobId).Found?
    requires ApplyInvokes(DetailPage(matches, savedJobs, appliedJobs, jobId).m.job)
    ensures var job := DetailPage(matches, savedJobs, appliedJobs, jobId).m.job;
      var after := DetailPage(matches, savedJobs, ApplyClick(appliedJobs, job), jobId);
      after.Found? && after.isApplied && ApplyDisabled(after.m.job, after.isApplied)
  {
  }

  /** Saving from the page flips the save button. */
  lemma SaveFlipsButton(matches: seq<JobMatch>, savedJobs: seq<string>, appliedJobs: seq<string>, jobId: string, k: nat)
    requires k < |matches| && matches[k].job.id == jobId
    ensures DetailPage(matches, savedJobs, appliedJobs, jobId).Found?
    ensures DetailPage(matches, Toggled(savedJobs, jobId), appliedJobs, jobId).isSaved
      == !DetailPage(matches, savedJobs, appliedJobs, jobId).isSaved
  {
  }
}
