/** The dashboard page: the five figures of the stats row, the per-source
    badge row, the job load that chains fetching and matching, and the
    states of the main area (loading, list, "No jobs found", "No matching
    jobs"). */
module Dashboard {
  import opened Wrappers
  import opened Seqs
  import opened Types
  import opened ScoreBands
  import opened FilterEngine
  import opened JobStore

  /** The stats row. */
  datatype Stats = Stats(totalJobs: nat, excellentMatches: nat, goodMatches: nat, savedCount: nat, appliedCount: nat)

  function ScoredAtLeast80(): JobMatch -> bool {
    (m: JobMatch) => m.overall_score >= 80
  }

  function ScoredFrom60To80(): JobMatch -> bool {
    (m: JobMatch) => m.overall_score >= 60 && m.overall_score < 80
  }

  /** `stats`: all matches, those scoring at least 80, those scoring from 60
      up to 80, and the lengths of the saved and applied lists. */
  function ComputeStats(matches: seq<JobMatch>, savedJobs: seq<string>, appliedJobs: seq<string>): (s: Stats)
    ensures s.totalJobs == |matches| && s.savedCount == |savedJobs| && s.appliedCount == |appliedJobs|
    ensures s.excellentMatches + s.goodMatches <= s.totalJobs
  {
    FilterDisjointLength(matches, ScoredAtLeast80(), ScoredFrom60To80());
    Stats(|matches|, |Filter(matches, ScoredAtLeast80())|, |Filter(matches, ScoredFrom60To80())|,
      |savedJobs|, |appliedJobs|)
  }

  function InBand(b: Band): JobMatch -> bool {
    (m: JobMatch) => BandOf(m.overall_score) == b
  }

  /** The two match counts are the sizes of the "Excellent" and "Good" bands
      that the cards colour and label the matches by. */
  lemma StatsCountBands(matches: seq<JobMatch>, savedJobs: seq<string>, appliedJobs: seq<string>)
    ensures ComputeStats(matches, savedJobs, appliedJobs).excellentMatches == |Filter(matches, InBand(Excellent))|
    ensures ComputeStats(matches, savedJobs, appliedJobs).goodMatches == |Filter(matches, InBand(Good))|
  {
    FilterExtensional(matches, ScoredAtLeast80(), InBand(Excellent));
    FilterExtensional(matches, ScoredFrom60To80(), InBand(Good));
  }

  /** One entry of the per-source counts object: source name and count. */
  type Entry = (string, int)

  function HasPositiveCount(): Entry -> bool {
    (e: Entry) => e.1 > 0
  }

  function HasCount(c: int): Entry -> bool {
    (e: Entry) => e.1 == c
  }

  predicate SortedByCountDesc(s: seq<Entry>) {
    forall i, j :: 0 <= i < j < |s| ==> s[i].1 >= s[j].1
  }

  /** Inserts `e` into a list sorted by count, descending, ahead of every entry
      whose count is not larger. */
  function InsertByCount(e: Entry, sorted: seq<Entry>): seq<Entry> {
    if |sorted| == 0 || sorted[0].1 <= e.1 then [e] + sorted
    else [sorted[0]] + InsertByCount(e, sorted[1..])
  }

  /** `.sort((a, b) => b[1] - a[1])`, as an insertion sort. */
  function SortByCountDesc(s: seq<Entry>): seq<Entry> {
    if |s| == 0 then [] else InsertByCount(s[0], SortByCountDesc(s[1..]))
  }

  lemma {:induction false} InsertPermutes(e: Entry, sorted: seq<Entry>)
    ensures multiset(InsertByCount(e, sorted)) == multiset(sorted) + multiset{e}
  {
    if |sorted| > 0 && sorted[0].1 > e.1 {
      InsertPermutes(e, sorted[1..]);
      assert sorted == [sorted[0]] + sorted[1..];
    }
  }

  /** Inserting an entry no larger than a bound into a list no larger than
      that bound gives a list no larger than it. */
  lemma {:induction false} InsertBounded(e: Entry, sorted: seq<Entry>, c: int)
    requires e.1 <= c
    requires forall k :: 0 <= k < |sorted| ==> sorted[k].1 <= c
    ensures forall k :: 0 <= k < |InsertByCount(e, sorted)| ==> InsertByCount(e, sorted)[k].1 <= c
  {
    if |sorted| > 0 && sorted[0].1 > e.1 {
      InsertBounded(e, sorted[1..], c);
    }
  }

  lemma {:induction false} InsertKeepsSorted(e: Entry, sorted: seq<Entry>)
    requires SortedByCountDesc(sorted)
    ensures SortedByCountDesc(InsertByCount(e, sorted))
  {
    if |sorted| > 0 && sorted[0].1 > e.1 {
      var rest := InsertByCount(e, sorted[1..]);
      InsertKeepsSorted(e, sorted[1..]);
      InsertBounded(e, sorted[1..], sorted[0].1);
      var r := [sorted[0]] + rest;
      forall i, j | 0 <= i < j < |r| ensures r[i].1 >= r[j].1 {
        assert r[j] == rest[j - 1];
        if i > 0 {
          assert r[i] == rest[i - 1];
        }
      }
    }
  }

  /** Inserting into a sorted list keeps, for each count, the entries with
      that count in the order of `[e] + sorted`. */
  lemma {:induction false} InsertStable(e: Entry, sorted: seq<Entry>, c: int)
    requires SortedByCountDesc(sorted)
    ensures Filter(InsertByCount(e, sorted), HasCount(c)) == Filter([e] + sorted, HasCount(c))
  {
    if |sorted| > 0 && sorted[0].1 > e.1 {
      var p := HasCount(c);
      var tail := sorted[1..];
      InsertStable(e, tail, c);
      assert ([sorted[0]] + InsertByCount(e, tail))[1..] == InsertByCount(e, tail);
      assert ([e] + tail)[1..] == tail;
      assert ([e] + sorted)[1..] == sorted;
      assert sorted[1..] == tail;
    }
  }

  /** The sort returns a permutation of its input. */
  lemma {:induction false} SortPermutes(s: seq<Entry>)
    ensures multiset(SortByCountDesc(s)) == multiset(s)
  {
    if |s| > 0 {
      SortPermutes(s[1..]);
      InsertPermutes(s[0], SortByCountDesc(s[1..]));
      assert s == [s[0]] + s[1..];
    }
  }

  /** The sort returns its input ordered by count, descending. */
  lemma {:induction false} SortSorts(s: seq<Entry>)
    ensures SortedByCountDesc(SortByCountDesc(s))
  {
    if |s| > 0 {
      SortSorts(s[1..]);
      InsertKeepsSorted(s[0], SortByCountDesc(s[1..]));
    }
  }

  /** The sort is stable: for each count, the entries with that count keep
      their original order, as with the comparator `b[1] - a[1]`. */
  lemma {:induction false} SortStable(s: seq<Entry>, c: int)
    ensures Filter(SortByCountDesc(s), HasCount(c)) == Filter(s, HasCount(c))
  {
    if |s| > 0 {
      var rest := SortByCountDesc(s[1..]);
      SortStable(s[1..], c);
      SortSorts(s[1..]);
      InsertStable(s[0], rest, c);
      assert ([s[0]] + rest)[1..] == rest;
    }
  }

  /** The badge row: entries with a positive count, by count descending (ties
      in their original order), at most ten. */
  function Badges(sourceStats: seq<Entry>): seq<Entry> {
    Take(SortByCountDesc(Filter(sourceStats, HasPositiveCount())), 10)
  }

  /** The sort keeps exactly the entries it is given. */
  lemma SortKeepsMembers(s: seq<Entry>)
    ensures forall e :: e in SortByCountDesc(s) <==> e in s
  {
    SortPermutes(s);
    forall e ensures e in SortByCountDesc(s) <==> e in s {
      assert e in SortByCountDesc(s) <==> e in multiset(SortByCountDesc(s));
    }
  }

  /** A prefix of a list sorted by count is sorted, and no entry past the
      prefix counts more than one in it. */
  lemma PrefixOfSorted(sorted: seq<Entry>, n: nat)
    requires SortedByCountDesc(sorted)
    ensures SortedByCountDesc(Take(sorted, n))
    ensures forall e, x :: e in sorted && e !in Take(sorted, n) && x in Take(sorted, n) ==> x.1 >= e.1
  {
    var r := Take(sorted, n);
    forall e, x | e in sorted && e !in r && x in r ensures x.1 >= e.1 {
      var k :| 0 <= k < |sorted| && sorted[k] == e;
      var i :| 0 <= i < |r| && r[i] == x;
      assert k >= |r|;
    }
  }

  /** At most ten badges, each a positive entry of the counts, in descending
      order of count; all positive entries are shown when there are ten or
      fewer, and an entry left out counts no more than any shown. */
  lemma BadgesAreTopTen(sourceStats: seq<Entry>)
    ensures var r := Badges(sourceStats);
      && |r| <= 10
      && (|r| == 10 || multiset(r) == multiset(Filter(sourceStats, HasPositiveCount())))
      && (forall e :: e in r ==> e in sourceStats && e.1 > 0)
      && SortedByCountDesc(r)
      && (forall e, x :: e in sourceStats && e.1 > 0 && e !in r && x in r ==> x.1 >= e.1)
  {
    var positive := Filter(sourceStats, HasPositiveCount());
    var sorted := SortByCountDesc(positive);
    SortPermutes(positive);
    SortKeepsMembers(positive);
    SortSorts(positive);
    PrefixOfSorted(sorted, 10);
    assert |Take(sorted, 10)| == 10 || Take(sorted, 10) == sorted;
    forall e | e in Take(sorted, 10) ensures e in sourceStats && e.1 > 0 {
      assert e in sorted;
      assert e in positive;
    }
  }

  /** The badge row is shown when the counts object has any key, even if no
      count is positive. */
  function BadgeSection(sourceStats: seq<Entry>): (r: Option<seq<Entry>>)
    ensures r.Some? <==> |sourceStats| > 0
  {
    if |sourceStats| > 0 then Some(Badges(sourceStats)) else None
  }

  /** For each positive count, the badges list the entries with that count
      in the order the counts object gives them. */
  lemma BadgesStable(sourceStats: seq<Entry>, c: int)
    requires c > 0
    ensures Filter(SortByCountDesc(Filter(sourceStats, HasPositiveCount())), HasCount(c))
      == Filter(sourceStats, HasCount(c))
  {
    SortStable(Filter(sourceStats, HasPositiveCount()), c);
    FilterFusion(sourceStats, HasCount(c), HasPositiveCount(), HasCount(c));
  }

  /** The error banner. */
  predicate ShowsError(error: Option<string>) {
    IsTruthyText(error)
  }

  /** The spinner: loading while there are no matches yet. */
  predicate ShowsLoading(isLoading: bool, matches: seq<JobMatch>) {
    isLoading && |matches| == 0
  }

  /** The list of job cards. */
  predicate ShowsList(isLoading: bool, filtered: seq<JobMatch>) {
    !isLoading && |filtered| > 0
  }

  /** "No jobs found". */
  predicate ShowsNoJobs(isLoading: bool, matches: seq<JobMatch>, error: Option<string>) {
    !isLoading && |matches| == 0 && !IsTruthyText(error)
  }

  /** "No matching jobs". */
  predicate ShowsNoMatching(isLoading: bool, matches: seq<JobMatch>, filtered: seq<JobMatch>) {
    !isLoading && |matches| > 0 && |filtered| == 0
  }

  /** With the filtered list taken from the matches, the spinner, the list and
      the two empty states never show together; when nothing is loading and
      there is no error, exactly one of the list and the empty states shows;
      after an error with no matches only the banner shows. */
  lemma ViewStatesExclusive(matches: seq<JobMatch>, f: JobFilter, now: int, isLoading: bool, error: Option<string>)
    ensures var filtered := Filtered(matches, f, now);
      && !(ShowsList(isLoading, filtered) && ShowsNoJobs(isLoading, matches, error))
      && !(ShowsList(isLoading, filtered) && ShowsNoMatching(isLoading, matches, filtered))
      && !(ShowsNoJobs(isLoading, matches, error) && ShowsNoMatching(isLoading, matches, filtered))
      && !(ShowsLoading(isLoading, matches) &&
           (ShowsList(isLoading, filtered) || ShowsNoJobs(isLoading, matches, error)
            || ShowsNoMatching(isLoading, matches, filtered)))
    ensures var filtered := Filtered(matches, f, now);
      !isLoading && !ShowsError(error) ==>
        ShowsList(isLoading, filtered) || ShowsNoJobs(isLoading, matches, error)
        || ShowsNoMatching(isLoading, matches, filtered)
    ensures var filtered := Filtered(matches, f, now);
      !isLoading && ShowsError(error) && |matches| == 0 ==>
        !ShowsList(isLoading, filtered) && !ShowsNoJobs(isLoading, matches, error)
        && !ShowsNoMatching(isLoading, matches, filtered) && !ShowsLoading(isLoading, matches)
  {
  }

  /** The "Clear Filters" button of the "No matching jobs" state always leaves it:
      with the filter `{}` every match is listed. */
  lemma ClearingLeavesNoMatching(matches: seq<JobMatch>, now: int, isLoading: bool)
    ensures !ShowsNoMatching(isLoading, matches, Filtered(matches, EmptyFilter, now))
    ensures !isLoading && |matches| > 0 ==> ShowsList(isLoading, Filtered(matches, EmptyFilter, now))
  {
    EmptyFilterKeepsAll(matches, now);
  }

  /** What a job load reads and writes: the store's jobs, matches, loading
      flag and error, and the page's per-source counts. */
  datatype LoadState = LoadState(jobs: seq<Job>, matches: seq<JobMatch>, sourceStats: seq<Entry>,
                                 isLoading: bool, error: Option<string>)

  /** The state a load ends in, with the requests it sent. */
  datatype LoadRun = LoadRun(after: LoadState, fetchRequest: FetchRequest, matchRequest: Option<MatchRequest>)

  /** What `fetchJobs` hands back to its caller for a reply. */
  function FetchReply(outcome: Outcome<FetchData>): (r: FetchData)
    ensures r.jobs.Some?
    ensures outcome.Ok? && outcome.value.jobs.Some? ==> r == outcome.value
  {
    match outcome
    case Err(_) => NoFetchData
    case Ok(data) => if data.jobs.Some? then data else NoFetchData
  }

  /** `loadJobs` on values: fetch with no query and no sources; when the reply
      has a non-empty job list, keep its per-source counts and match exactly
      that list against the resume. */
  function LoadEffect(before: LoadState, resume: Option<Resume>,
                      fetchOutcome: Outcome<FetchData>, matchOutcome: Outcome<MatchData>): (r: LoadRun)
    ensures r.fetchRequest == FetchRequest(None, None, 200)
    ensures !r.after.isLoading
    ensures r.matchRequest.Some? <==> resume.Some? && FetchReply(fetchOutcome).jobs.value != []
    ensures r.matchRequest.Some? ==> r.matchRequest.value == MatchRequest(resume.value, FetchReply(fetchOutcome).jobs.value)
    ensures r.after.jobs == if fetchOutcome.Ok? && fetchOutcome.value.jobs.Some? then fetchOutcome.value.jobs.value else before.jobs
    ensures r.after.sourceStats == if FetchReply(fetchOutcome).jobs.value != [] then FetchReply(fetchOutcome).sourceStats else before.sourceStats
    ensures r.after.matches != before.matches ==>
      r.matchRequest.Some? && matchOutcome.Ok? && matchOutcome.value.matches == Some(r.after.matches)
    ensures r.after.error.None? <==>
      fetchOutcome.Ok? && (FetchReply(fetchOutcome).jobs.value == [] || (resume.Some? && matchOutcome.Ok?))
  {
    var fetchRequest := FetchRequest(None, None, 200);
    var reply := FetchReply(fetchOutcome);
    var jobs := match fetchOutcome
      case Err(_) => before.jobs
      case Ok(data) => data.jobs.GetOr(before.jobs);
    var fetchError := match fetchOutcome
      case Err(m) => Some(ErrorText(m, "Failed to fetch jobs"))
      case Ok(_) => None;
    if reply.jobs.value == [] then
      LoadRun(LoadState(jobs, before.matches, before.sourceStats, false, fetchError), fetchRequest, None)
    else
      match resume
      case None =>
        LoadRun(LoadState(jobs, before.matches, reply.sourceStats, false, Some("No resume uploaded")), fetchRequest, None)
      case Some(res) =>
        var after := match matchOutcome
          case Err(m) =>
            LoadState(jobs, before.matches, reply.sourceStats, false, Some(ErrorText(m, "Failed to match jobs")))
          case Ok(data) =>
            LoadState(jobs, data.matches.GetOr(before.matches), reply.sourceStats, false, None);
        LoadRun(after, fetchRequest, Some(MatchRequest(res, reply.jobs.value)))
  }

  /** A load whose fetch and match both succeed with a non-empty list of
      matches shows those matches, under the empty filter, and no banner. */
  lemma SuccessfulLoadShowsMatches(before: LoadState, resume: Resume, data: FetchData,
                                   matches: seq<JobMatch>, now: int)
    requires data.jobs.Some? && data.jobs.value != [] && matches != []
    ensures var r := LoadEffect(before, Some(resume), Ok(data), Ok(MatchData(Some(matches))));
      && r.after.matches == matches && r.after.sourceStats == data.sourceStats
      && r.matchRequest == Some(MatchRequest(resume, data.jobs.value))
      && ShowsList(r.after.isLoading, Filtered(r.after.matches, EmptyFilter, now))
      && !ShowsError(r.after.error)
  {
    EmptyFilterKeepsAll(matches, now);
  }

  /** A failed fetch shows the banner and leaves the list, the counts and the
      matches as they were; nothing is matched. */
  lemma FailedFetchShowsBanner(before: LoadState, resume: Option<Resume>, message: string,
                               matchOutcome: Outcome<MatchData>)
    ensures var r := LoadEffect(before, resume, Err(message), matchOutcome);
      && ShowsError(r.after.error)
      && r.after.jobs == before.jobs && r.after.matches == before.matches
      && r.after.sourceStats == before.sourceStats && r.matchRequest.None?
  {
  }

  /** Jobs fetched with no resume in the store are not matched; the banner
      asks for a resume. */
  lemma LoadWithoutResumeAsksForOne(before: LoadState, data: FetchData, matchOutcome: Outcome<MatchData>)
    requires data.jobs.Some? && data.jobs.value != []
    ensures var r := LoadEffect(before, None, Ok(data), matchOutcome);
      && r.after.error == Some("No resume uploaded") && ShowsError(r.after.error)
      && r.matchRequest.None? && r.after.matches == before.matches && r.after.jobs == data.jobs.value
  {
  }

  /** A fetch that finds no jobs, on a page with no matches yet, ends on
      "No jobs found". */
  lemma EmptyFetchShowsNoJobs(before: LoadState, resume: Option<Resume>, data: FetchData,
                              matchOutcome: Outcome<MatchData>)
    requires data.jobs == Some([]) && before.matches == []
    ensures var r := LoadEffect(before, resume, Ok(data), matchOutcome);
      ShowsNoJobs(r.after.isLoading, r.after.matches, r.after.error) && r.matchRequest.None?
  {
  }

  /** `handleRefresh` loads again: with the same replies, a second load
      sends the same requests and ends in the same state as the first. */
  lemma {:induction false} LoadIsRepeatable(before: LoadState, resume: Option<Resume>,
                                            fetchOutcome: Outcome<FetchData>, matchOutcome: Outcome<MatchData>)
    ensures var first := LoadEffect(before, resume, fetchOutcome, matchOutcome);
      LoadEffect(first.after, resume, fetchOutcome, matchOutcome) == first
  {
  }

  /** The dashboard's own state over the shared store. */
  class Page {
    const store: Store
    var sourceStats: seq<Entry>
    var isInitialLoad: bool

    constructor (store: Store)
      ensures this.store == store && sourceStats == [] && isInitialLoad
    {
      this.store := store;
      sourceStats := [];
      isInitialLoad := true;
    }

    /** The part of the page and the store that a load reads and writes. */
    function Snapshot(): LoadState
      reads this, store
    {
      LoadState(store.jobs, store.matches, sourceStats, store.isLoading, store.error)
    }

    /** `loadJobs`: returns the fetch request and the match request, if one
        was sent; the new state is the one `LoadEffect` gives. */
    method LoadJobs(fetchOutcome: Outcome<FetchData>, matchOutcome: Outcome<MatchData>)
      returns (fetchRequest: FetchRequest, matchRequest: Option<MatchRequest>)
      modifies this`sourceStats, store`jobs, store`matches, store`isLoading, store`error
      ensures LoadRun(Snapshot(), fetchRequest, matchRequest)
        == LoadEffect(old(Snapshot()), store.resume, fetchOutcome, matchOutcome)
    {
      var fetched;
      fetchRequest, fetched := store.FetchJobs(None, None, fetchOutcome);
      matchRequest := None;
      if fetched.jobs.Some? && |fetched.jobs.value| > 0 {
        sourceStats := fetched.sourceStats;
        var result;
        matchRequest, result := store.MatchJobs(fetched.jobs, matchOutcome);
      }
    }

    /** The mount effect: the first render loads the jobs, later ones do nothing. */
    method Mount(fetchOutcome: Outcome<FetchData>, matchOutcome: Outcome<MatchData>)
      returns (loaded: bool, fetchRequest: Option<FetchRequest>, matchRequest: Option<MatchRequest>)
      modifies this`sourceStats, this`isInitialLoad, store`jobs, store`matches, store`isLoading, store`error
      ensures loaded == old(isInitialLoad) && !isInitialLoad
      ensures loaded ==>
        && fetchRequest.Some?
        && LoadRun(Snapshot(), fetchRequest.value, matchRequest)
           == LoadEffect(old(Snapshot()), store.resume, fetchOutcome, matchOutcome)
      ensures !loaded ==> fetchRequest.None? && matchRequest.None? && sourceStats == old(sourceStats) && unchanged(store)
    {
      loaded := isInitialLoad;
      fetchRequest, matchRequest := None, None;
      if isInitialLoad {
        var request;
        request, matchRequest := LoadJobs(fetchOutcome, matchOutcome);
        fetchRequest := Some(request);
        isInitialLoad := false;
      }
    }
  }
}
