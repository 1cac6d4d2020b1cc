/** The job store: one instance of the state the hook keeps (resume, fetched
    jobs, scored matches, saved and applied job ids, filters, loading flag and
    error), the localStorage keys it writes, and the transitions of its
    operations. The two remote functions are replaced by their outcome,
    passed in as a parameter; the request the store would send is returned. */
module JobStore {
  import opened Wrappers
  import opened Seqs
  import opened Types
  import opened FilterEngine

  const RESUME_KEY := "job_hunter_resume"
  const SAVED_JOBS_KEY := "job_hunter_saved_jobs"
  const APPLIED_JOBS_KEY := "job_hunter_applied_jobs"
  const FILTERS_KEY := "job_hunter_filters"

  /** A localStorage value: the JSON the store wrote under one of its keys,
      or text that `JSON.parse` rejects. */
  datatype Stored = ResumeJson(resume: Resume) | IdsJson(ids: seq<string>) | FilterJson(filter: JobFilter) | Malformed

  /** What a remote call produced: its data, or the thrown error's message. */
  datatype Outcome<T> = Ok(value: T) | Err(message: string)

  /** The body sent to the job-aggregation function. */
  datatype FetchRequest = FetchRequest(query: Option<string>, sources: Option<seq<string>>, limit: int)

  /** The reply of the job-aggregation function (`jobs` is absent when the
      reply has none); `sourceStats` lists the entries of its per-source
      counts object in insertion order. */
  datatype FetchData = FetchData(jobs: Option<seq<Job>>, total: int, sourceStats: seq<(string, int)>)

  /** `{ jobs: [], total: 0, sourceStats: {} }`. */
  const NoFetchData := FetchData(Some([]), 0, [])

  /** The body sent to the matching function. */
  datatype MatchRequest = MatchRequest(resume: Resume, jobs: seq<Job>)

  /** The reply of the matching function (`matches` is absent when the reply has none). */
  datatype MatchData = MatchData(matches: Option<seq<JobMatch>>)

  /** `e.message || fallback`. */
  function ErrorText(message: string, fallback: string): (r: string)
    ensures r != "" <== fallback != ""
    ensures message != "" ==> r == message
    ensures message == "" ==> r == fallback
  {
    if message != "" then message else fallback
  }

  /** The saved list after `toggleSaveJob(id)`: without every `id` when it was
      saved, else with `id` appended. */
  function Toggled(ids: seq<string>, id: string): (r: seq<string>)
    ensures id in r <==> id !in ids
    ensures forall x :: x != id ==> (x in r <==> x in ids)
    ensures id in ids ==> IsSubsequence(r, ids)
    ensures id in ids ==> forall x :: Count(r, x) == if x == id then 0 else Count(ids, x)
    ensures id !in ids ==> r == ids + [id]
  {
    if id in ids then
      FilterIsSubsequence(ids, NotEqualTo(id));
      Without(ids, id)
    else ids + [id]
  }

  /** Toggling an id that was not saved, twice, restores the list. */
  lemma ToggleTwiceRestores(ids: seq<string>, id: string)
    requires id !in ids
    ensures Toggled(Toggled(ids, id), id) == ids
  {
    WithoutAppended(ids, id);
  }

  /** Toggling keeps a duplicate-free list duplicate-free. */
  lemma ToggleKeepsNoDuplicates(ids: seq<string>, id: string)
    requires NoDuplicates(ids)
    ensures NoDuplicates(Toggled(ids, id))
  {
    if id in ids {
      FilterKeepsNoDuplicates(ids, NotEqualTo(id));
    }
  }

  /** The applied list after `markAsApplied(id)`. */
  function Applied(ids: seq<string>, id: string): (r: seq<string>)
    ensures id in r
    ensures |r| == |ids| + (if id in ids then 0 else 1)
    ensures r[..|ids|] == ids
  {
    if id in ids then ids else ids + [id]
  }

  /** Marking twice is marking once. */
  lemma AppliedIdempotent(ids: seq<string>, id: string)
    ensures Applied(Applied(ids, id), id) == Applied(ids, id)
  {
  }

  /** Marking never removes an entry, and an id marked for the first time
      occurs exactly once; a duplicate-free list stays duplicate-free. */
  lemma AppliedOnce(ids: seq<string>, id: string)
    ensures forall x :: x in ids ==> x in Applied(ids, id)
    ensures id !in ids ==> Count(Applied(ids, id), id) == 1
    ensures NoDuplicates(ids) ==> NoDuplicates(Applied(ids, id))
  {
    var r := Applied(ids, id);
    forall x | x in ids ensures x in r {
      var i :| 0 <= i < |ids| && ids[i] == x;
      assert r[i] == r[..|ids|][i];
    }
    if id !in ids {
      CountAppend(ids, id, id);
    }
  }

  /** A value the mount load accepts under `key`: present and of the right shape. */
  predicate HasResume(storage: map<string, Stored>) {
    RESUME_KEY in storage && storage[RESUME_KEY].ResumeJson?
  }

  predicate HasIds(storage: map<string, Stored>, key: string) {
    key in storage && storage[key].IdsJson?
  }

  predicate HasFilter(storage: map<string, Stored>) {
    FILTERS_KEY in storage && storage[FILTERS_KEY].FilterJson?
  }

  /** The mount load reads past `key`: it is absent or parses. */
  predicate ReadsPast(storage: map<string, Stored>, key: string) {
    key !in storage || !storage[key].Malformed?
  }

  class Store {
    var resume: Option<Resume>
    var jobs: seq<Job>
    var matches: seq<JobMatch>
    var savedJobs: seq<string>
    var appliedJobs: seq<string>
    var filters: JobFilter
    var isLoading: bool
    var error: Option<string>
    /** The browser's localStorage, as far as the store reads and writes it. */
    var storage: map<string, Stored>

    /** The hook's initial state, over the storage left by earlier sessions. */
    constructor (storage: map<string, Stored>)
      ensures this.storage == storage
      ensures resume == None && jobs == [] && matches == []
      ensures savedJobs == [] && appliedJobs == [] && filters == EmptyFilter
      ensures !isLoading && error == None
    {
      this.storage := storage;
      resume := None;
      jobs, matches := [], [];
      savedJobs, appliedJobs := [], [];
      filters := EmptyFilter;
      isLoading := false;
      error := None;
    }

    /** The mount effect: reads the four keys in order inside one `try`; a
        value that does not parse ends the load, so later keys keep their
        defaults. */
    method LoadFromStorage()
      modifies this`resume, this`savedJobs, this`appliedJobs, this`filters
      ensures resume == if HasResume(storage) then Some(storage[RESUME_KEY].resume) else old(resume)
      ensures savedJobs ==
        if ReadsPast(storage, RESUME_KEY) && HasIds(storage, SAVED_JOBS_KEY)
        then storage[SAVED_JOBS_KEY].ids else old(savedJobs)
      ensures appliedJobs ==
        if ReadsPast(storage, RESUME_KEY) && ReadsPast(storage, SAVED_JOBS_KEY) && HasIds(storage, APPLIED_JOBS_KEY)
        then storage[APPLIED_JOBS_KEY].ids else old(appliedJobs)
      ensures filters ==
        if ReadsPast(storage, RESUME_KEY) && ReadsPast(storage, SAVED_JOBS_KEY)
           && ReadsPast(storage, APPLIED_JOBS_KEY) && HasFilter(storage)
        then storage[FILTERS_KEY].filter else old(filters)
    {
      if !ReadsPast(storage, RESUME_KEY) {
        return;
      }
      if HasResume(storage) {
        resume := Some(storage[RESUME_KEY].resume);
      }
      if !ReadsPast(storage, SAVED_JOBS_KEY) {
        return;
      }
      if HasIds(storage, SAVED_JOBS_KEY) {
        savedJobs := storage[SAVED_JOBS_KEY].ids;
      }
      if !ReadsPast(storage, APPLIED_JOBS_KEY) {
        return;
      }
      if HasIds(storage, APPLIED_JOBS_KEY) {
        appliedJobs := storage[APPLIED_JOBS_KEY].ids;
      }
      if HasFilter(storage) {
        filters := storage[FILTERS_KEY].filter;
      }
    }

    /** `setResume`: stores the resume and persists it, or removes the key for `null`. */
    method SetResume(newResume: Option<Resume>)
      modifies this`resume, this`storage
      ensures resume == newResume
      ensures storage == match newResume
        case Some(r) => old(storage)[RESUME_KEY := ResumeJson(r)]
        case None => old(storage) - {RESUME_KEY}
    {
      resume := newResume;
      if newResume.Some? {
        storage := storage[RESUME_KEY := ResumeJson(newResume.value)];
      } else {
        storage := storage - {RESUME_KEY};
      }
    }

    /** `clearResume`: forgets the resume and the matches made with it. */
    method ClearResume()
      modifies this`resume, this`matches, this`storage
      ensures resume == None && matches == []
      ensures storage == old(storage) - {RESUME_KEY}
      ensures RESUME_KEY !in storage
    {
      resume := None;
      matches := [];
      storage := storage - {RESUME_KEY};
    }

    /** `fetchJobs`: sends the request, and on a reply with jobs replaces the
        job list and returns the reply; on a reply without jobs returns the
        empty reply; on an error records its message (or the default text)
        and returns the empty reply. Loading is off again at the end. */
    method FetchJobs(query: Option<string>, sources: Option<seq<string>>, outcome: Outcome<FetchData>)
      returns (request: FetchRequest, result: FetchData)
      modifies this`jobs, this`isLoading, this`error
      ensures request == FetchRequest(query, sources, 200)
      ensures !isLoading
      ensures match outcome
        case Err(message) =>
          && error == Some(ErrorText(message, "Failed to fetch jobs"))
          && jobs == old(jobs) && result == NoFetchData
        case Ok(data) =>
          && error == None
          && (data.jobs.Some? ==> jobs == data.jobs.value && result == data)
          && (data.jobs.None? ==> jobs == old(jobs) && result == NoFetchData)
    {
      isLoading := true;
      error := None;
      request := FetchRequest(query, sources, 200);
      match outcome {
        case Err(message) =>
          error := Some(ErrorText(message, "Failed to fetch jobs"));
          result := NoFetchData;
        case Ok(data) =>
          if data.jobs.Some? {
            jobs := data.jobs.value;
            result := data;
          } else {
            result := NoFetchData;
          }
      }
      isLoading := false;
    }

    /** `matchJobs`: without a resume it records "No resume uploaded" and
        returns nothing, sending no request and leaving loading and matches
        alone. Otherwise it sends the resume with the given jobs (or the
        store's jobs when none are given), replaces the matches with those of
        a reply that has them, records an error's message (or the default
        text), and ends with loading off. */
    method MatchJobs(jobsToMatch: Option<seq<Job>>, outcome: Outcome<MatchData>)
      returns (request: Option<MatchRequest>, result: seq<JobMatch>)
      modifies this`matches, this`isLoading, this`error
      ensures old(resume).None? ==>
        && request == None && result == []
        && error == Some("No resume uploaded")
        && isLoading == old(isLoading) && matches == old(matches)
      ensures old(resume).Some? ==>
        && request == Some(MatchRequest(old(resume).value, jobsToMatch.GetOr(old(jobs))))
        && !isLoading
        && match outcome
          case Err(message) =>
            error == Some(ErrorText(message, "Failed to match jobs")) && matches == old(matches) && result == []
          case Ok(data) =>
            && error == None
            && (data.matches.Some? ==> matches == data.matches.value && result == data.matches.value)
            && (data.matches.None? ==> matches == old(matches) && result == [])
    {
      if resume.None? {
        error := Some("No resume uploaded");
        return None, [];
      }
      isLoading := true;
      error := None;
      var targetJobs := jobsToMatch.GetOr(jobs);
      request := Some(MatchRequest(resume.value, targetJobs));
      match outcome {
        case Err(message) =>
          error := Some(ErrorText(message, "Failed to match jobs"));
          result := [];
        case Ok(data) =>
          if data.matches.Some? {
            matches := data.matches.value;
            result := data.matches.value;
          } else {
            result := [];
          }
      }
      isLoading := false;
    }

    /** `toggleSaveJob`: flips whether `jobId` is saved and persists the new list. */
    method ToggleSaveJob(jobId: string)
      modifies this`savedJobs, this`storage
      ensures savedJobs == Toggled(old(savedJobs), jobId)
      ensures storage == old(storage)[SAVED_JOBS_KEY := IdsJson(savedJobs)]
    {
      savedJobs := Toggled(savedJobs, jobId);
      storage := storage[SAVED_JOBS_KEY := IdsJson(savedJobs)];
    }

    /** `markAsApplied`: appends `jobId` once and persists the list; an id
        already applied changes neither the list nor the storage. */
    method MarkAsApplied(jobId: string)
      modifies this`appliedJobs, this`storage
      ensures appliedJobs == Applied(old(appliedJobs), jobId)
      ensures jobId in old(appliedJobs) ==> storage == old(storage)
      ensures jobId !in old(appliedJobs) ==> storage == old(storage)[APPLIED_JOBS_KEY := IdsJson(appliedJobs)]
    {
      if jobId in appliedJobs {
        return;
      }
      appliedJobs := appliedJobs + [jobId];
      storage := storage[APPLIED_JOBS_KEY := IdsJson(appliedJobs)];
    }

    /** `setFilters`: replaces the filters and persists them. */
    method SetFilters(newFilters: JobFilter)
      modifies this`filters, this`storage
      ensures filters == newFilters
      ensures storage == old(storage)[FILTERS_KEY := FilterJson(newFilters)]
    {
      filters := newFilters;
      storage := storage[FILTERS_KEY := FilterJson(newFilters)];
    }

    /** `filteredMatches` at clock reading `now`: the stored matches that pass
        the stored filters, in order. */
    function FilteredMatches(now: int): (r: seq<JobMatch>)
      reads this
      ensures r == Filtered(matches, filters, now)
      ensures IsSubsequence(r, matches)
      ensures forall m :: m in r <==> m in matches && Passes(m, filters, now)
      ensures forall m :: Count(r, m) == if Passes(m, filters, now) then Count(matches, m) else 0
    {
      Filtered(matches, filters, now)
    }
  }
}
