/** The job card of the dashboard list: the score colour and label, the
    salary line, the matched-skill badges and the apply button. Currency
    formatting (`Intl.NumberFormat`) is the parameter `format`, applied to a
    currency code and an amount. */
module JobCard {
  import opened Wrappers
  import opened Seqs
  import opened Types
  import opened ScoreBands
  import opened JobStore

  /** `getScoreColor` of the card. */
  function ScoreColor(score: int): string {
    if score >= 80 then "text-emerald-400 bg-emerald-500/10 border-emerald-500/30"
    else if score >= 60 then "text-blue-400 bg-blue-500/10 border-blue-500/30"
    else if score >= 40 then "text-amber-400 bg-amber-500/10 border-amber-500/30"
    else "text-slate-400 bg-slate-500/10 border-slate-500/30"
  }

  /** `getScoreLabel` of the card. */
  function ScoreLabel(score: int): string {
    if score >= 80 then "Excellent Match"
    else if score >= 60 then "Good Match"
    else if score >= 40 then "Fair Match"
    else "Low Match"
  }

  /** Two scores get the same card colour exactly when they fall in the same band. */
  lemma ColorFollowsBand(s: int, t: int)
    ensures ScoreColor(s) == ScoreColor(t) <==> BandOf(s) == BandOf(t)
  {
  }

  /** The label names the band, so two scores get the same label exactly when
      they fall in the same band; with the lemma above, colour and label
      always agree. */
  lemma LabelFollowsBand(s: int, t: int)
    ensures ScoreLabel(s) == match BandOf(s)
      case Excellent => "Excellent Match"
      case Good => "Good Match"
      case Fair => "Fair Match"
      case Low => "Low Match"
    ensures ScoreLabel(s) == ScoreLabel(t) <==> BandOf(s) == BandOf(t)
  {
  }

  /** `job.salary_currency || 'USD'`. */
  function Currency(job: Job): string {
    if IsTruthyText(job.salary_currency) then job.salary_currency.value else "USD"
  }

  /** `formatSalary`: no salary line when neither bound is set (a `0` bound is
      unset); both bounds as a range; one bound as "From …" or "Up to …". */
  function FormatSalary(job: Job, format: (string, int) -> string): (r: Option<string>)
    ensures r.None? <==> !IsTruthy(job.salary_min) && !IsTruthy(job.salary_max)
    ensures IsTruthy(job.salary_min) && IsTruthy(job.salary_max) ==>
      r == Some(format(Currency(job), job.salary_min.value) + " - " + format(Currency(job), job.salary_max.value))
    ensures IsTruthy(job.salary_min) && !IsTruthy(job.salary_max) ==>
      r == Some("From " + format(Currency(job), job.salary_min.value))
    ensures !IsTruthy(job.salary_min) && IsTruthy(job.salary_max) ==>
      r == Some("Up to " + format(Currency(job), job.salary_max.value))
  {
    if !IsTruthy(job.salary_min) && !IsTruthy(job.salary_max) then None
    else
      var currency := Currency(job);
      if IsTruthy(job.salary_min) && IsTruthy(job.salary_max) then
        Some(format(currency, job.salary_min.value) + " - " + format(currency, job.salary_max.value))
      else if IsTruthy(job.salary_min) then Some("From " + format(currency, job.salary_min.value))
      else if IsTruthy(job.salary_max) then Some("Up to " + format(currency, job.salary_max.value))
      else None
  }

  /** The salary line depends only on the two bounds, the currency and the
      formatter, and a missing currency reads as US dollars. */
  lemma SalaryDefaultsToUsd(job: Job, format: (string, int) -> string)
    requires job.salary_currency.None? || job.salary_currency == Some("")
    ensures FormatSalary(job, format) == FormatSalary(job.(salary_currency := Some("USD")), format)
  {
  }

  /** The matched-skill row: the first five skills as badges and, past five,
      a "+n more" badge carrying the number not shown. The row is not drawn
      for an empty list. */
  datatype SkillRow = NoSkillRow | SkillRow(shown: seq<string>, more: Option<nat>)

  function SkillBadges(skills: seq<string>): (r: SkillRow)
    ensures r.NoSkillRow? <==> skills == []
    ensures r.SkillRow? ==> |r.shown| <= 5 && |r.shown| <= |skills| && r.shown == skills[..|r.shown|]
    ensures r.SkillRow? ==> |r.shown| == if |skills| < 5 then |skills| else 5
    ensures r.SkillRow? ==> (r.more.Some? <==> |skills| > 5)
    ensures r.SkillRow? ==> |r.shown| + r.more.GetOr(0) == |skills|
  {
    if |skills| == 0 then NoSkillRow
    else SkillRow(Take(skills, 5), if |skills| > 5 then Some(|skills| - 5) else None)
  }

  /** The badges account for every matched skill once: the shown badges are
      the leading skills and the "+n more" badge counts exactly the others. */
  lemma SkillBadgesAccountForAll(skills: seq<string>)
    requires skills != []
    ensures var r := SkillBadges(skills);
      && r.shown + skills[|r.shown|..] == skills
      && r.more.GetOr(0) == |skills[|r.shown|..]|
      && (|skills| > 5 ==> r.shown == skills[..5] && r.more == Some(|skills| - 5))
  {
  }

  /** The apply button is disabled when the job is applied or has no link. */
  predicate ApplyDisabled(job: Job, isApplied: bool) {
    isApplied || !IsTruthyText(job.application_url)
  }

  /** What a click on the apply button does: open the link and report the
      application, or nothing when there is no link. */
  predicate ApplyInvokes(job: Job) {
    IsTruthyText(job.application_url)
  }

  /** The applied list after a click on the apply button, where reporting
      the application is `markAsApplied(job.id)` (the dashboard's `onApply`
      and the detail page's own handler): with a link the job is recorded as
      applied, without one nothing changes. */
  function ApplyClick(appliedJobs: seq<string>, job: Job): (r: seq<string>)
    ensures ApplyInvokes(job) ==> job.id in r && |r| >= |appliedJobs| && r[..|appliedJobs|] == appliedJobs
    ensures !ApplyInvokes(job) ==> r == appliedJobs
  {
    if ApplyInvokes(job) then Applied(appliedJobs, job.id) else appliedJobs
  }

  /** A click the enabled button lets through appends the job to the applied
      list once, and the button is disabled afterwards. */
  lemma ApplyClickDisablesButton(appliedJobs: seq<string>, job: Job)
    requires !ApplyDisabled(job, job.id in appliedJobs)
    ensures ApplyClick(appliedJobs, job) == appliedJobs + [job.id]
    ensures ApplyDisabled(job, job.id in ApplyClick(appliedJobs, job))
  {
  }

  /** Whenever the button is disabled, its handler would change nothing: the
      job is applied already, or it has no link to report. */
  lemma DisabledButtonChangesNothing(appliedJobs: seq<string>, job: Job)
    requires ApplyDisabled(job, job.id in appliedJobs)
    ensures ApplyClick(appliedJobs, job) == appliedJobs
  {
  }
}
