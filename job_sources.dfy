/** The static catalog of job sources and the queries over it: enabled
    sources, sources of one category, the list of categories, the source
    statistics, and the posting-age filter driven by the time-interval table.
    Every query takes the catalog as a parameter; the application always
    passes JOB_SOURCES. */
module JobSources {
  import opened Wrappers
  import opened Seqs
  import opened Types

  datatype SourceType = Api | Rss | Scraper

  function SourceTypeName(t: SourceType): string {
    match t
    case Api => "api"
    case Rss => "rss"
    case Scraper => "scraper"
  }

  /** A catalog entry; `sourceType` is the source's `type` field. */
  datatype JobSource = JobSource(
    id: string,
    name: string,
    sourceType: SourceType,
    url: string,
    enabled: bool,
    category: string,
    countries: Option<seq<string>>,
    description: string)

  /** The shipped catalog, in declaration order. */
  const JOB_SOURCES: seq<JobSource> := [
    JobSource("remoteok", "RemoteOK", Api, "https://remoteok.com/api", true, "Remote", None, "Remote jobs worldwide"),
    JobSource("arbeitnow", "Arbeitnow", Api, "https://www.arbeitnow.com/api/job-board-api", true, "Tech", None, "European tech jobs"),
    JobSource("jobicy", "Jobicy", Api, "https://jobicy.com/api/v2/remote-jobs", true, "Remote", None, "Remote job listings"),
    JobSource("himalayas", "Himalayas", Api, "https://himalayas.app/jobs/api", true, "Remote", None, "Remote tech jobs"),
    JobSource("remotive", "Remotive", Api, "https://remotive.com/api/remote-jobs", true, "Remote", None, "Remote job board"),
    JobSource("cryptojobs", "Crypto Jobs", Api, "https://api.cryptojobslist.com/jobs", true, "Crypto", None, "Blockchain & crypto jobs"),
    JobSource("web3career", "Web3 Career", Api, "https://web3.career/api/v1/jobs", true, "Web3", None, "Web3 & DeFi jobs"),
    JobSource("devitjobs", "DevIT Jobs", Api, "https://devitjobs.uk/api/jobs", true, "Tech", None, "UK developer jobs"),
    JobSource("nofluffjobs", "No Fluff Jobs", Api, "https://nofluffjobs.com/api/search/posting", true, "Tech", None, "IT jobs in Europe"),
    JobSource("usajobs", "USAJobs", Api, "https://data.usajobs.gov/api/search", true, "Government", None, "US Government jobs"),
    JobSource("angellist", "AngelList/Wellfound", Api, "https://api.angel.co/1/jobs", true, "Startup", None, "Startup jobs"),
    JobSource("weworkremotely", "We Work Remotely", Rss, "https://weworkremotely.com/remote-jobs.rss", true, "Remote", None, "Largest remote work community"),
    JobSource("workingnomads", "Working Nomads", Rss, "https://www.workingnomads.com/jobs/feed", true, "Remote", None, "Digital nomad jobs"),
    JobSource("authenticjobs", "Authentic Jobs", Rss, "https://authenticjobs.com/rss/custom.rss", true, "Design", None, "Design & creative jobs"),
    JobSource("dribbble", "Dribbble Jobs", Rss, "https://dribbble.com/jobs.rss", true, "Design", None, "Designer jobs"),
    JobSource("justremote", "Just Remote", Rss, "https://justremote.co/remote-jobs/rss", true, "Remote", None, "Remote job listings"),
    JobSource("remoteco", "Remote.co", Rss, "https://remote.co/remote-jobs/feed/", true, "Remote", None, "Remote work resources"),
    JobSource("skipthedrive", "Skip The Drive", Rss, "https://www.skipthedrive.com/feed/", true, "Remote", None, "Work from home jobs"),
    JobSource("nodesk", "Nodesk", Rss, "https://nodesk.co/remote-jobs/rss/", true, "Remote", None, "Remote job resources"),
    JobSource("dynamitejobs", "Dynamite Jobs", Rss, "https://dynamitejobs.com/feed", true, "Remote", None, "Remote jobs for digital nomads"),
    JobSource("remoteleaf", "Remote Leaf", Rss, "https://remoteleaf.com/feed", true, "Remote", None, "Curated remote jobs"),
    JobSource("euremotejobs", "EU Remote Jobs", Rss, "https://euremotejobs.com/feed/", true, "Remote", None, "European remote jobs"),
    JobSource("remote4me", "Remote4Me", Rss, "https://remote4me.com/feed", true, "Remote", None, "Remote job aggregator"),
    JobSource("pythonjobs", "Python Jobs", Rss, "https://www.python.org/jobs/feed/rss/", true, "Python", None, "Python developer jobs"),
    JobSource("rubyjobs", "Ruby Jobs", Rss, "https://jobs.rubynow.com/rss", true, "Ruby", None, "Ruby on Rails jobs"),
    JobSource("golangjobs", "Golang Jobs", Rss, "https://golang.cafe/rss", true, "Go", None, "Go developer jobs"),
    JobSource("rustjobs", "Rust Jobs", Rss, "https://rustjobs.dev/feed.xml", true, "Rust", None, "Rust developer jobs"),
    JobSource("phpjobs", "Laravel Jobs", Rss, "https://larajobs.com/feed", true, "PHP", None, "PHP & Laravel jobs"),
    JobSource("iosjobs", "iOS Jobs", Rss, "https://iosdevjobs.com/feed/", true, "Mobile", None, "iOS developer jobs"),
    JobSource("androidjobs", "Android Jobs", Rss, "https://androidjobs.io/feed/", true, "Mobile", None, "Android developer jobs"),
    JobSource("aijobs", "AI Jobs", Rss, "https://ai-jobs.net/feed/", true, "AI/ML", None, "AI & Machine Learning jobs"),
    JobSource("datajobs", "Data Jobs", Rss, "https://datajobs.com/rss", true, "Data", None, "Data science jobs"),
    JobSource("ycombinator", "Y Combinator", Rss, "https://news.ycombinator.com/jobs.rss", true, "Startup", None, "YC startup jobs"),
    JobSource("startupers", "Startupers", Rss, "https://www.startupers.com/feed", true, "Startup", None, "Startup job listings"),
    JobSource("designerjobs", "Designer Jobs", Rss, "https://designerjobs.co/feed", true, "Design", None, "Designer job board"),
    JobSource("uxjobs", "UX Jobs", Rss, "https://www.uxjobsboard.com/feed", true, "Design", None, "UX designer jobs"),
    JobSource("growthhackers", "Growth Hackers", Rss, "https://growthhackers.com/jobs/feed", true, "Marketing", None, "Growth & marketing jobs"),
    JobSource("marketingjobs", "Marketing Jobs", Rss, "https://www.marketingjobs.io/feed", true, "Marketing", None, "Marketing positions"),
    JobSource("eujobs", "EU Jobs", Rss, "https://epso.europa.eu/job-opportunities/feed", true, "Government", None, "European Union jobs"),
    JobSource("unjobs", "UN Jobs", Rss, "https://unjobs.org/rss", true, "Government", None, "United Nations jobs")
  ]

  predicate IsEnabled(s: JobSource) {
    s.enabled
  }

  /** `getEnabledSources`: the enabled entries, in catalog order. */
  function EnabledSources(catalog: seq<JobSource>): (r: seq<JobSource>)
    ensures forall s :: s in r <==> s in catalog && s.enabled
    ensures IsSubsequence(r, catalog)
    ensures forall s :: Count(r, s) == if s.enabled then Count(catalog, s) else 0
  {
    FilterIsSubsequence(catalog, IsEnabled);
    Filter(catalog, IsEnabled)
  }

  function InCategory(category: string): JobSource -> bool {
    (s: JobSource) => s.category == category
  }

  /** The source's predicate `source.category === category && source.enabled`. */
  function InCategoryAndEnabled(category: string): JobSource -> bool {
    (s: JobSource) => s.category == category && s.enabled
  }

  /** `getSourcesByCategory`: the enabled entries of one category, in catalog
      order; they are also a subsequence of the enabled list. */
  function SourcesByCategory(catalog: seq<JobSource>, category: string): (r: seq<JobSource>)
    ensures forall s :: s in r <==> s in catalog && s.enabled && s.category == category
    ensures IsSubsequence(r, catalog)
    ensures IsSubsequence(r, EnabledSources(catalog))
    ensures forall s :: Count(r, s) == if s.enabled && s.category == category then Count(catalog, s) else 0
  {
    var enabled := EnabledSources(catalog);
    FilterFusion(catalog, InCategory(category), IsEnabled, InCategoryAndEnabled(category));
    FilterIsSubsequence(enabled, InCategory(category));
    SubsequenceTransitive(Filter(enabled, InCategory(category)), enabled, catalog);
    Filter(catalog, InCategoryAndEnabled(category))
  }

  /** `sources.map(source => source.category)`. */
  function CategoryColumn(sources: seq<JobSource>): (r: seq<string>)
    ensures |r| == |sources|
    ensures forall i :: 0 <= i < |sources| ==> r[i] == sources[i].category
  {
    seq(|sources|, i requires 0 <= i < |sources| => sources[i].category)
  }

  /** `sources.map(source => source.type)`. */
  function TypeColumn(sources: seq<JobSource>): (r: seq<string>)
    ensures |r| == |sources|
    ensures forall i :: 0 <= i < |sources| ==> r[i] == SourceTypeName(sources[i].sourceType)
  {
    seq(|sources|, i requires 0 <= i < |sources| => SourceTypeName(sources[i].sourceType))
  }

  /** `getCategories`: the categories of all entries, enabled or not, each once. */
  function Categories(catalog: seq<JobSource>): (r: seq<string>)
    ensures NoDuplicates(r)
    ensures forall i :: 0 <= i < |catalog| ==> catalog[i].category in r
    ensures forall c :: c in r ==> exists i :: 0 <= i < |catalog| && catalog[i].category == c
  {
    Distinct(CategoryColumn(catalog))
  }

  /** The categories are listed in the order in which they first occur in the catalog. */
  lemma CategoriesInFirstOccurrenceOrder(catalog: seq<JobSource>)
    ensures forall i, j :: 0 <= i < j < |Categories(catalog)| ==>
      FirstIndex(CategoryColumn(catalog), Categories(catalog)[i])
        < FirstIndex(CategoryColumn(catalog), Categories(catalog)[j])
  {
    DistinctInFirstOccurrenceOrder(CategoryColumn(catalog));
  }

  /** `stats` is what `getSourceStats` reports for `catalog`: the catalog
      size, the number of enabled entries, and the frequency tables of the
      enabled entries' types and categories. */
  ghost predicate IsSourceStats(catalog: seq<JobSource>, stats: SourceStats) {
    && stats.total == |catalog|
    && stats.enabled == |EnabledSources(catalog)|
    && IsTally(stats.byType, TypeColumn(EnabledSources(catalog)))
    && IsTally(stats.byCategory, CategoryColumn(EnabledSources(catalog)))
  }

  /** The `forEach` of `getSourceStats`: one pass over the enabled entries
      that bumps the entry of each one's type and of its category. */
  method TallyTypesAndCategories(enabled: seq<JobSource>)
    returns (byType: map<string, nat>, byCategory: map<string, nat>)
    ensures IsTally(byType, TypeColumn(enabled))
    ensures IsTally(byCategory, CategoryColumn(enabled))
  {
    ghost var types, categories := TypeColumn(enabled), CategoryColumn(enabled);
    byType, byCategory := map[], map[];
    var i := 0;
    while i < |enabled|
      invariant 0 <= i <= |enabled|
      invariant IsTally(byType, types[..i])
      invariant IsTally(byCategory, categories[..i])
    {
      var source := enabled[i];
      var t, c := SourceTypeName(source.sourceType), source.category;
      TallyStep(byType, types, i, t);
      TallyStep(byCategory, categories, i, c);
      byType := Bump(byType, t);
      byCategory := Bump(byCategory, c);
      i := i + 1;
    }
    assert types[..i] == types && categories[..i] == categories;
  }

  /** `getSourceStats`: the catalog size, the enabled count and the two
      frequency tables over the enabled entries. */
  method GetSourceStats(catalog: seq<JobSource>) returns (stats: SourceStats)
    ensures IsSourceStats(catalog, stats)
  {
    var enabled := EnabledSources(catalog);
    var byType, byCategory := TallyTypesAndCategories(enabled);
    stats := SourceStats(|catalog|, |enabled|, byType, byCategory);
  }

  /** The type table over a list of entries has a key exactly for the types
      that occur among the entries; its entries are at least one and, summed
      over the keys in first-occurrence order, add up to the number of entries. */
  lemma TypeTableDescribesEntries(entries: seq<JobSource>, byType: map<string, nat>)
    requires IsTally(byType, TypeColumn(entries))
    ensures forall k :: k in byType <==> exists s :: s in entries && SourceTypeName(s.sourceType) == k
    ensures forall k :: k in byType ==> byType[k] >= 1
    ensures SumAt(byType, Distinct(TypeColumn(entries))) == |entries|
  {
    var types := TypeColumn(entries);
    TallySum(byType, types);
    forall k | k in types ensures exists s :: s in entries && SourceTypeName(s.sourceType) == k {
      var i :| 0 <= i < |types| && types[i] == k;
      assert entries[i] in entries;
    }
    forall s | s in entries ensures SourceTypeName(s.sourceType) in types {
      var i :| 0 <= i < |entries| && entries[i] == s;
      assert types[i] == SourceTypeName(s.sourceType);
    }
  }

  /** The category table over a list of entries has a key exactly for the
      categories that occur among the entries; its entries are at least one
      and add up to the number of entries. */
  lemma CategoryTableDescribesEntries(entries: seq<JobSource>, byCategory: map<string, nat>)
    requires IsTally(byCategory, CategoryColumn(entries))
    ensures forall k :: k in byCategory <==> exists s :: s in entries && s.category == k
    ensures forall k :: k in byCategory ==> byCategory[k] >= 1
    ensures SumAt(byCategory, Distinct(CategoryColumn(entries))) == |entries|
  {
    var categories := CategoryColumn(entries);
    TallySum(byCategory, categories);
    forall k | k in categories ensures exists s :: s in entries && s.category == k {
      var i :| 0 <= i < |categories| && categories[i] == k;
      assert entries[i] in entries;
    }
    forall s | s in entries ensures s.category in categories {
      var i :| 0 <= i < |entries| && entries[i] == s;
      assert categories[i] == s.category;
    }
  }

  /** What the statistics promise: no more enabled than total entries; each
      table has a key exactly for the values that occur among the enabled
      entries, every entry is at least one, and the entries add up to the
      enabled count. */
  lemma SourceStatsConsistent(catalog: seq<JobSource>, stats: SourceStats)
    requires IsSourceStats(catalog, stats)
    ensures stats.enabled <= stats.total
    ensures forall k :: k in stats.byType <==>
      exists s :: s in catalog && s.enabled && SourceTypeName(s.sourceType) == k
    ensures forall k :: k in stats.byCategory <==>
      exists s :: s in catalog && s.enabled && s.category == k
    ensures forall k :: k in stats.byType ==> stats.byType[k] >= 1
    ensures forall k :: k in stats.byCategory ==> stats.byCategory[k] >= 1
    ensures SumAt(stats.byType, Distinct(TypeColumn(EnabledSources(catalog)))) == stats.enabled
    ensures SumAt(stats.byCategory, Distinct(CategoryColumn(EnabledSources(catalog)))) == stats.enabled
  {
    TypeTableDescribesEntries(EnabledSources(catalog), stats.byType);
    CategoryTableDescribesEntries(EnabledSources(catalog), stats.byCategory);
  }

  /** The shipped catalog has forty entries. */
  lemma ShippedCatalogSize()
    ensures |JOB_SOURCES| == 40
  {
  }

  /** Every entry of the shipped catalog is enabled. */
  lemma ShippedCatalogEntriesEnabled()
    ensures forall i :: 0 <= i < |JOB_SOURCES| ==> JOB_SOURCES[i].enabled
  {
  }

  /** So with the shipped catalog the enabled list is the whole catalog, and
      the statistics report as many enabled entries as entries. */
  lemma ShippedCatalogAllEnabled()
    ensures EnabledSources(JOB_SOURCES) == JOB_SOURCES
  {
    ShippedCatalogEntriesEnabled();
    EnabledSourcesAllEnabled(JOB_SOURCES);
  }

  /** A catalog whose every entry is enabled is its own enabled list. */
  lemma EnabledSourcesAllEnabled(catalog: seq<JobSource>)
    requires forall i :: 0 <= i < |catalog| ==> catalog[i].enabled
    ensures EnabledSources(catalog) == catalog
  {
    FilterAllPass(catalog, IsEnabled);
  }

  /** One row of `TIME_INTERVALS` (`labelText` is its `label`); `hours` is `null` for "all". */
  datatype TimeInterval = TimeInterval(labelText: string, hours: Option<nat>)

  const TIME_INTERVALS: map<string, TimeInterval> := map[
    "3h" := TimeInterval("Last 3 hours", Some(3)),
    "24h" := TimeInterval("Last 24 hours", Some(24)),
    "7d" := TimeInterval("Last 7 days", Some(168)),
    "30d" := TimeInterval("Last 30 days", Some(720)),
    "all" := TimeInterval("All time", None)
  ]

  /** The two date fields of a fetched posting that the age filter reads. */
  datatype Listing = Listing(id: string, posted_date: DateText, created_at: DateText)

  /** The date the age filter uses: `posted_date` when truthy, else `created_at`. */
  function ListingDate(l: Listing): DateText {
    if l.posted_date.Blank? then l.created_at else l.posted_date
  }

  /** `postedDate >= cutoffDate`; a missing or invalid date compares as NaN, which is never `>=`. */
  predicate PostedSince(l: Listing, cutoff: int) {
    match ListingDate(l)
    case Millis(t) => t >= cutoff
    case _ => false
  }

  function PostedSinceCutoff(cutoff: int): Listing -> bool {
    (l: Listing) => PostedSince(l, cutoff)
  }

  /** The hours of a known interval key, when that value is truthy (so not for "all"). */
  function IntervalHours(key: string): Option<nat> {
    if key in TIME_INTERVALS && TIME_INTERVALS[key].hours.Some? && TIME_INTERVALS[key].hours.value != 0
    then TIME_INTERVALS[key].hours
    else None
  }

  /** `filterByTimeInterval(jobs, intervalKey)`, with the clock reading `now` in milliseconds. */
  function FilterByTimeInterval(jobs: seq<Listing>, intervalKey: string, now: int): seq<Listing> {
    if intervalKey == "" || intervalKey == "all" then jobs
    else if IntervalHours(intervalKey).None? then jobs
    else Filter(jobs, PostedSinceCutoff(now - IntervalHours(intervalKey).value * MillisPerHour))
  }

  /** An empty, "all", unknown or hour-less key leaves the list as it is. */
  lemma TimeIntervalPassThrough(jobs: seq<Listing>, intervalKey: string, now: int)
    requires intervalKey !in {"3h", "24h", "7d", "30d"}
    ensures FilterByTimeInterval(jobs, intervalKey, now) == jobs
  {
  }

  /** A known bounded key keeps, in order, exactly the postings dated at or after
      `now` minus the interval; one dated exactly at the cutoff is kept. */
  lemma TimeIntervalKeeps(jobs: seq<Listing>, intervalKey: string, now: int)
    requires intervalKey in {"3h", "24h", "7d", "30d"}
    ensures IntervalHours(intervalKey) == TIME_INTERVALS[intervalKey].hours
    ensures var cutoff := now - TIME_INTERVALS[intervalKey].hours.value * MillisPerHour;
      && IsSubsequence(FilterByTimeInterval(jobs, intervalKey, now), jobs)
      && (forall l :: l in FilterByTimeInterval(jobs, intervalKey, now) <==>
           l in jobs && ListingDate(l).Millis? && ListingDate(l).t >= cutoff)
      && (forall l :: Count(FilterByTimeInterval(jobs, intervalKey, now), l) ==
           if ListingDate(l).Millis? && ListingDate(l).t >= cutoff then Count(jobs, l) else 0)
  {
    var cutoff := now - TIME_INTERVALS[intervalKey].hours.value * MillisPerHour;
    FilterIsSubsequence(jobs, PostedSinceCutoff(cutoff));
  }
}
