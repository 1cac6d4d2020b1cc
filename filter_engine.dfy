/** The match filter of the job store (`filteredMatches`): an order-preserving
    filter over scored matches driven by a sparse `JobFilter`. Every guard
    tests its filter field with JavaScript truthiness, so `0`, `''` and an
    empty list mean "unset". The clock is the parameter `now`, in
    milliseconds. */
module FilterEngine {
  import opened Wrappers
  import opened Seqs
  import opened Text
  import opened Types

  /** `job.skills_required?.join(' ')` inside a template literal: a missing
      list is interpolated as the text "undefined". */
  function SkillsText(skills: Option<seq<string>>): string {
    match skills
    case None => "undefined"
    case Some(list) => Join(list, " ")
  }

  /** The text the keyword guard searches, before lowering. */
  function SearchText(job: Job): string {
    job.title + " " + job.company + " " + job.description + " " + SkillsText(job.skills_required)
  }

  /** The keyword guard: a truthy keyword must occur in the lowered search text. */
  predicate KeywordOk(f: JobFilter, job: Job) {
    IsTruthyText(f.keywords) ==> Includes(Lower(SearchText(job)), Lower(f.keywords.value))
  }

  /** An inclusion guard: a list that is present and non-empty must contain the value. */
  predicate ListAllows(list: Option<seq<string>>, value: string) {
    (list.Some? && |list.value| > 0) ==> value in list.value
  }

  /** The minimum-score guard. */
  predicate ScoreOk(f: JobFilter, m: JobMatch) {
    !(IsTruthy(f.min_match_score) && m.overall_score < f.min_match_score.value)
  }

  /** The guard of the filter's `salary_min` against the job's `salary_max`. */
  predicate SalaryMinOk(f: JobFilter, job: Job) {
    !(IsTruthy(f.salary_min) && IsTruthy(job.salary_max) && job.salary_max.value < f.salary_min.value)
  }

  /** The guard of the filter's `salary_max` against the job's `salary_min`. */
  predicate SalaryMaxOk(f: JobFilter, job: Job) {
    !(IsTruthy(f.salary_max) && IsTruthy(job.salary_min) && job.salary_min.value > f.salary_max.value)
  }

  /** The cases of the recency `switch`; any other key has no case. */
  function BucketHours(key: string): Option<nat> {
    if key == "24h" then Some(24)
    else if key == "7d" then Some(168)
    else if key == "30d" then Some(720)
    else None
  }

  /** The recency guard. `new Date` of a missing or malformed date is NaN and
      `NaN > hours` is false, so such a job passes; otherwise the job fails
      when its age in milliseconds exceeds the bucket. */
  predicate RecencyOk(f: JobFilter, job: Job, now: int) {
    (IsTruthyText(f.posted_within) && f.posted_within.value != "all") ==>
      match BucketHours(f.posted_within.value)
      case None => true
      case Some(hours) =>
        match job.posted_date
        case Millis(t) => !(now - t > hours * MillisPerHour)
        case _ => true
  }

  /** The predicate `filteredMatches` applies to one match. */
  predicate Passes(m: JobMatch, f: JobFilter, now: int) {
    && KeywordOk(f, m.job)
    && ListAllows(f.work_type, WorkTypeName(m.job.work_type))
    && ListAllows(f.job_type, JobTypeName(m.job.job_type))
    && ListAllows(f.seniority, SeniorityName(m.job.seniority))
    && ListAllows(f.sources, m.job.source)
    && ScoreOk(f, m)
    && SalaryMinOk(f, m.job)
    && SalaryMaxOk(f, m.job)
    && RecencyOk(f, m.job, now)
  }

  function PassesFilter(f: JobFilter, now: int): JobMatch -> bool {
    (m: JobMatch) => Passes(m, f, now)
  }

  /** `filteredMatches`: the matches that pass, in their original order. */
  function Filtered(matches: seq<JobMatch>, f: JobFilter, now: int): (r: seq<JobMatch>)
    ensures IsSubsequence(r, matches)
    ensures forall m :: m in r <==> m in matches && Passes(m, f, now)
    ensures forall m :: Count(r, m) == if Passes(m, f, now) then Count(matches, m) else 0
  {
    FilterIsSubsequence(matches, PassesFilter(f, now));
    Filter(matches, PassesFilter(f, now))
  }

  /** What each guard demands, stated on its own terms: the keyword occurs at
      some index of the lowered text, a non-empty list names the job's value,
      the score reaches the minimum, the salary ranges overlap, and a dated
      job is no older than its bucket. */
  ghost predicate Satisfies(m: JobMatch, f: JobFilter, now: int) {
    var job := m.job;
    && (f.keywords.Some? && f.keywords.value != "" ==>
          exists i :: OccursAt(Lower(SearchText(job)), Lower(f.keywords.value), i))
    && (f.work_type.Some? && f.work_type.value != [] ==> WorkTypeName(job.work_type) in f.work_type.value)
    && (f.job_type.Some? && f.job_type.value != [] ==> JobTypeName(job.job_type) in f.job_type.value)
    && (f.seniority.Some? && f.seniority.value != [] ==> SeniorityName(job.seniority) in f.seniority.value)
    && (f.sources.Some? && f.sources.value != [] ==> job.source in f.sources.value)
    && (f.min_match_score.Some? && f.min_match_score.value != 0 ==> m.overall_score >= f.min_match_score.value)
    && (f.salary_min.Some? && job.salary_max.Some? && f.salary_min.value != 0 && job.salary_max.value != 0 ==>
          f.salary_min.value <= job.salary_max.value)
    && (job.salary_min.Some? && f.salary_max.Some? && job.salary_min.value != 0 && f.salary_max.value != 0 ==>
          job.salary_min.value <= f.salary_max.value)
    && (job.posted_date.Millis? ==>
          var age := now - job.posted_date.t;
          && (f.posted_within == Some("24h") ==> age <= 24 * MillisPerHour)
          && (f.posted_within == Some("7d") ==> age <= 7 * 24 * MillisPerHour)
          && (f.posted_within == Some("30d") ==> age <= 30 * 24 * MillisPerHour))
  }

  /** The keyword guard holds exactly when the lowered keyword occurs in the
      lowered search text; an absent or empty keyword constrains nothing. */
  lemma KeywordOkIffOccurs(f: JobFilter, job: Job)
    ensures !IsTruthyText(f.keywords) ==> KeywordOk(f, job)
    ensures IsTruthyText(f.keywords) ==>
      (KeywordOk(f, job) <==> exists i :: OccursAt(Lower(SearchText(job)), Lower(f.keywords.value), i))
  {
    if IsTruthyText(f.keywords) {
      var text, pat := Lower(SearchText(job)), Lower(f.keywords.value);
      IncludesIffOccurs(text, pat);
      if KeywordOk(f, job) {
        var i :| OccursAt(text, pat, i);
        assert exists j :: OccursAt(Lower(SearchText(job)), Lower(f.keywords.value), j) by {
          assert OccursAt(Lower(SearchText(job)), Lower(f.keywords.value), i);
        }
      }
    }
  }

  /** A match passes exactly when it meets every constraint of the filter. */
  lemma PassesIffSatisfies(m: JobMatch, f: JobFilter, now: int)
    ensures Passes(m, f, now) <==> Satisfies(m, f, now)
  {
    KeywordOkIffOccurs(f, m.job);
  }

  /** The keyword guard ignores case: lowering the keyword first changes nothing. */
  lemma KeywordCaseInsensitive(f: JobFilter, job: Job, kw: string)
    requires f.keywords == Some(kw)
    ensures KeywordOk(f, job) == KeywordOk(f.(keywords := Some(Lower(kw))), job)
  {
    LowerIdempotent(kw);
    assert |Lower(kw)| == |kw|;
  }

  /** The empty filter `{}` keeps every match. */
  lemma EmptyFilterKeepsAll(matches: seq<JobMatch>, now: int)
    ensures Filtered(matches, EmptyFilter, now) == matches
  {
    FilterAllPass(matches, PassesFilter(EmptyFilter, now));
  }

  /** Filtering twice with the same filter is filtering once. */
  lemma FilteredIdempotent(matches: seq<JobMatch>, f: JobFilter, now: int)
    ensures Filtered(Filtered(matches, f, now), f, now) == Filtered(matches, f, now)
  {
    FilterAllPass(Filtered(matches, f, now), PassesFilter(f, now));
  }

  function ScoreAtLeast(k: int): JobMatch -> bool {
    (m: JobMatch) => m.overall_score >= k
  }

  /** A filter that sets only `min_match_score` to `k` keeps exactly the
      matches scoring at least `k`, in order; `0` keeps everything. */
  lemma MinScoreOnly(matches: seq<JobMatch>, k: int, now: int)
    ensures Filtered(matches, EmptyFilter.(min_match_score := Some(k)), now)
      == if k == 0 then matches else Filter(matches, ScoreAtLeast(k))
  {
    var f := EmptyFilter.(min_match_score := Some(k));
    if k == 0 {
      FilterAllPass(matches, PassesFilter(f, now));
    } else {
      FilterExtensional(matches, PassesFilter(f, now), ScoreAtLeast(k));
    }
  }

  /** A filter that sets only `work_type` keeps exactly the matches whose work
      type is listed, in order; an empty list keeps everything. */
  lemma WorkTypeOnly(matches: seq<JobMatch>, types: seq<string>, now: int)
    ensures Filtered(matches, EmptyFilter.(work_type := Some(types)), now)
      == if types == [] then matches else Filter(matches, WorkTypeIn(types))
  {
    var f := EmptyFilter.(work_type := Some(types));
    if types == [] {
      FilterAllPass(matches, PassesFilter(f, now));
    } else {
      FilterExtensional(matches, PassesFilter(f, now), WorkTypeIn(types));
    }
  }

  function WorkTypeIn(types: seq<string>): JobMatch -> bool {
    (m: JobMatch) => WorkTypeName(m.job.work_type) in types
  }

  /** A recency key other than "24h", "7d" and "30d" (such as "all", "3h" or an
      unknown key) rejects nothing by itself. */
  lemma OtherBucketsRejectNothing(m: JobMatch, f: JobFilter, now: int)
    requires f.posted_within.None? || f.posted_within.value !in {"24h", "7d", "30d"}
    ensures RecencyOk(f, m.job, now)
  {
  }

  /** A dated job passes the recency guard exactly when its age is at most the
      bucket's hours; a job exactly at the limit passes, one a millisecond
      older does not. */
  lemma RecencyAtLimit(f: JobFilter, job: Job, now: int, hours: nat)
    requires f.posted_within.Some? && BucketHours(f.posted_within.value) == Some(hours)
    requires job.posted_date.Millis?
    ensures RecencyOk(f, job, now) <==> now - job.posted_date.t <= hours * MillisPerHour
    ensures now - job.posted_date.t == hours * MillisPerHour ==> RecencyOk(f, job, now)
    ensures now - job.posted_date.t == hours * MillisPerHour + 1 ==> !RecencyOk(f, job, now)
  {
  }

  /** A match of `job` with overall score `score` and no other detail. */
  function ScoredAt(job: Job, score: int): JobMatch {
    JobMatch(job, score, 0, 0, [], [], None, None, None)
  }

  /** Filtering remote work with a minimum score of 60 over matches scored 50
      (remote), 70 (remote) and 90 (on-site) keeps only the 70-scored one. */
  lemma RemoteMinScoreScenario(job: Job, now: int)
    ensures
      var m50, m70, m90 := ScoredAt(job.(work_type := Remote), 50), ScoredAt(job.(work_type := Remote), 70),
        ScoredAt(job.(work_type := Onsite), 90);
      Filtered([m50, m70, m90], EmptyFilter.(work_type := Some(["remote"]), min_match_score := Some(60)), now) == [m70]
  {
    var m50, m70, m90 := ScoredAt(job.(work_type := Remote), 50), ScoredAt(job.(work_type := Remote), 70),
      ScoredAt(job.(work_type := Onsite), 90);
    var f := EmptyFilter.(work_type := Some(["remote"]), min_match_score := Some(60));
    var p := PassesFilter(f, now);
    var ms := [m50, m70, m90];
    assert !p(m50) && p(m70) && !p(m90);
    assert ms[1..] == [m70, m90] && ms[1..][1..] == [m90] && [m90][1..] == [];
    assert Filter([m90], p) == [];
    assert Filter([m70, m90], p) == [m70];
    assert Filter(ms, p) == [m70];
  }
}
