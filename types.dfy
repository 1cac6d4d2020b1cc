/** The data contracts shared by the store, the filter engine and the pages:
    resumes, jobs, scored matches and the sparse job filter. Optional fields
    (`field?: T`) are `Option<T>`; closed string unions are datatypes whose
    wire spelling is given by a `...Name` function. */
module Types {
  import opened Wrappers

  datatype Experience = Experience(
    title: string,
    company: string,
    location: Option<string>,
    start_date: Option<string>,
    end_date: Option<string>,
    description: Option<string>)

  datatype Education = Education(
    degree: string,
    institution: string,
    graduation_date: Option<string>,
    gpa: Option<string>)

  datatype Resume = Resume(
    id: string,
    name: string,
    email: Option<string>,
    phone: Option<string>,
    location: Option<string>,
    summary: Option<string>,
    skills: seq<string>,
    experience: seq<Experience>,
    education: seq<Education>,
    certifications: Option<seq<string>>,
    languages: Option<seq<string>>,
    rawText: string,
    keywords: Option<seq<string>>,
    createdAt: string)

  datatype WorkType = Remote | Hybrid | Onsite
  datatype JobType = FullTime | PartTime | Contract | Internship | Temporary
  datatype Seniority = Entry | Mid | Senior | Lead | Executive

  function WorkTypeName(w: WorkType): string {
    match w
    case Remote => "remote"
    case Hybrid => "hybrid"
    case Onsite => "onsite"
  }

  function JobTypeName(t: JobType): string {
    match t
    case FullTime => "full_time"
    case PartTime => "part_time"
    case Contract => "contract"
    case Internship => "internship"
    case Temporary => "temporary"
  }

  function SeniorityName(s: Seniority): string {
    match s
    case Entry => "entry"
    case Mid => "mid"
    case Senior => "senior"
    case Lead => "lead"
    case Executive => "executive"
  }

  /** Reads a `work_type` string back; only the three members of the union are accepted. */
  function ParseWorkType(s: string): (r: Option<WorkType>)
    ensures r.Some? ==> WorkTypeName(r.value) == s
    ensures forall w :: WorkTypeName(w) == s ==> r == Some(w)
  {
    if s == "remote" then Some(Remote)
    else if s == "hybrid" then Some(Hybrid)
    else if s == "onsite" then Some(Onsite)
    else None
  }

  /** Reads a `job_type` string back; only the five members of the union are accepted. */
  function ParseJobType(s: string): (r: Option<JobType>)
    ensures r.Some? ==> JobTypeName(r.value) == s
    ensures forall t :: JobTypeName(t) == s ==> r == Some(t)
  {
    if s == "full_time" then Some(FullTime)
    else if s == "part_time" then Some(PartTime)
    else if s == "contract" then Some(Contract)
    else if s == "internship" then Some(Internship)
    else if s == "temporary" then Some(Temporary)
    else None
  }

  /** Reads a `seniority` string back; only the five members of the union are accepted. */
  function ParseSeniority(s: string): (r: Option<Seniority>)
    ensures r.Some? ==> SeniorityName(r.value) == s
    ensures forall l :: SeniorityName(l) == s ==> r == Some(l)
  {
    if s == "entry" then Some(Entry)
    else if s == "mid" then Some(Mid)
    else if s == "senior" then Some(Senior)
    else if s == "lead" then Some(Lead)
    else if s == "executive" then Some(Executive)
    else None
  }

  /** A date string as `new Date(...)` sees it: empty or missing (falsy),
      present but not a date (an Invalid Date, whose time is NaN), or a
      point in time in milliseconds since the epoch. */
  datatype DateText = Blank | Unparseable | Millis(t: int)

  datatype Job = Job(
    id: string,
    external_id: Option<string>,
    source: string,
    title: string,
    company: string,
    company_logo: Option<string>,
    location: string,
    work_type: WorkType,
    job_type: JobType,
    seniority: Seniority,
    salary_min: Option<int>,
    salary_max: Option<int>,
    salary_currency: Option<string>,
    description: string,
    requirements: Option<seq<string>>,
    benefits: Option<seq<string>>,
    skills_required: Option<seq<string>>,
    posted_date: DateText,
    application_url: Option<string>,
    is_active: bool)

  datatype Relevance = High | Medium | Low

  function RelevanceName(r: Relevance): string {
    match r
    case High => "High"
    case Medium => "Medium"
    case Low => "Low"
  }

  /** Reads an `ExperienceMatch.relevance` string back; only High, Medium and Low are accepted. */
  function ParseRelevance(s: string): (r: Option<Relevance>)
    ensures r.Some? ==> RelevanceName(r.value) == s
    ensures forall v :: RelevanceName(v) == s ==> r == Some(v)
  {
    if s == "High" then Some(High)
    else if s == "Medium" then Some(Medium)
    else if s == "Low" then Some(Low)
    else None
  }

  datatype ExperienceMatch = ExperienceMatch(
    job_requirement: string,
    resume_experience: string,
    relevance: Relevance)

  /** One job together with the scores the matching service gave it. */
  datatype JobMatch = JobMatch(
    job: Job,
    overall_score: int,
    skills_score: int,
    experience_score: int,
    matched_skills: seq<string>,
    missing_skills: seq<string>,
    experience_matches: Option<seq<ExperienceMatch>>,
    keyword_matches: Option<seq<string>>,
    recommendation: Option<string>)

  /** The sparse filter: every field may be absent. `title` and `location`
      are part of the shape but no filter reads them. */
  datatype JobFilter = JobFilter(
    keywords: Option<string>,
    title: Option<string>,
    location: Option<string>,
    work_type: Option<seq<string>>,
    job_type: Option<seq<string>>,
    seniority: Option<seq<string>>,
    salary_min: Option<int>,
    salary_max: Option<int>,
    sources: Option<seq<string>>,
    posted_within: Option<string>,
    min_match_score: Option<int>)

  /** `{}`: the filter with no field set. */
  const EmptyFilter := JobFilter(None, None, None, None, None, None, None, None, None, None, None)

  /** What the source registry reports: catalog size, enabled count, and two frequency tables. */
  datatype SourceStats = SourceStats(
    total: nat,
    enabled: nat,
    byType: map<string, nat>,
    byCategory: map<string, nat>)

  /** Milliseconds in an hour: the source's `60 * 60 * 1000` and `1000 * 60 * 60`. */
  const MillisPerHour := 60 * 60 * 1000

  /** JavaScript truthiness of an optional number: absent and `0` are false. */
  predicate IsTruthy(n: Option<int>) {
    n.Some? && n.value != 0
  }

  /** JavaScript truthiness of an optional string: absent and `''` are false. */
  predicate IsTruthyText(s: Option<string>) {
    s.Some? && s.value != ""
  }
}
