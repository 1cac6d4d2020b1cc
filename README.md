# Job Hunter: a verified model of the matching dashboard core

This project models the core of the Job Hunter web application. A user uploads a résumé. The app fetches job postings from a catalog of job boards and scores each posting against the résumé. The user filters, saves and applies to the matches.

The model covers:

- the job store hook (`useJobStore`): its state, its persistence to browser storage, the fetch and match calls, the saved and applied lists, and the `filteredMatches` predicate;
- the job-board registry (`jobSources.ts`);
- the filter panel handlers (`JobFilters`);
- the job card and the job detail page: score colours and labels, the salary line, skill badges, and the save and apply buttons;
- the dashboard: the stats row, the per-source badges, the job load and the states of the main area;
- the application shell's navigation state machine (`AppLayout`);
- the shared types.

Modules:

- `Wrappers`, `Seqs`, `Text`: `Option`; order-preserving filtering, subsequences, tallies; ASCII lowering and substring search.
- `Types`: résumé, job, match and filter records; the string unions as datatypes with their spellings.
- `JobSources`: the forty-entry catalog, its queries, the statistics loop and `filterByTimeInterval`.
- `FilterEngine`: `filteredMatches` as a function, proved against a guard-by-guard reference predicate.
- `JobStore`: the store as a class over a modelled storage map; the remote functions are outcome parameters.
- `JobFilters`: the panel's handlers as functions from the current filter to the next one.
- `ScoreBands`: the reference banding (80/60/40) against which every page's if-chain is proved.
- `JobCard`, `JobDetail`, `Dashboard`, `AppLayout`: the pages. The dashboard and the shell are classes whose methods drive the store.

## Model

| member | source | states |
|---|---|---|
| Types.ParseWorkType | src/types/index.ts:44 | a spelling parses to the work type that has it, and only such a spelling parses |
| Types.ParseJobType | src/types/index.ts:45 | same for the job type union |
| Types.ParseSeniority | src/types/index.ts:46 | same for the seniority union |
| Types.ParseRelevance | src/types/index.ts:74 | same for the relevance union of an experience match |
| JobSources.EnabledSources | src/lib/jobSources.ts:73-75 | exactly the enabled catalog entries, in catalog order, each as many times as the catalog lists it |
| JobSources.SourcesByCategory | src/lib/jobSources.ts:78-80 | exactly the enabled entries of the category, in order and with their multiplicities, a subsequence of the enabled list |
| JobSources.CategoryColumn | src/lib/jobSources.ts:84 | the category of every entry, position by position |
| JobSources.TypeColumn | src/lib/jobSources.ts:94 | the type of every entry, position by position |
| JobSources.Categories | src/lib/jobSources.ts:83-85 | each category of the catalog (enabled or not) exactly once, and nothing else |
| JobSources.CategoriesInFirstOccurrenceOrder | src/lib/jobSources.ts:84 | the categories are listed in the order they first occur (the insertion order of a `Set`) |
| JobSources.TallyTypesAndCategories | src/lib/jobSources.ts:93-96 | the loop's two tables count, for every key, the entries of that type or category |
| JobSources.GetSourceStats | src/lib/jobSources.ts:88-104 | total, enabled count and the two tables are those of the catalog |
| JobSources.TypeTableDescribesEntries | src/lib/jobSources.ts:93-96 | the type table has a key exactly for the types present; every count is positive; the counts add up to the number of entries |
| JobSources.CategoryTableDescribesEntries | src/lib/jobSources.ts:93-96 | the same for the category table |
| JobSources.SourceStatsConsistent | src/lib/jobSources.ts:88-104 | enabled is at most total; both tables cover exactly the enabled entries with positive counts summing to the enabled count |
| JobSources.ShippedCatalogSize | src/lib/jobSources.ts:16-70 | the shipped catalog has forty entries |
| JobSources.ShippedCatalogEntriesEnabled | src/lib/jobSources.ts:16-70 | every shipped entry is enabled |
| JobSources.ShippedCatalogAllEnabled | src/lib/jobSources.ts:73-75 | so the enabled list of the shipped catalog is the whole catalog |
| JobSources.EnabledSourcesAllEnabled | src/lib/jobSources.ts:73-75 | a catalog with every entry enabled is its own enabled list |
| JobSources.TimeIntervalPassThrough | src/lib/jobSources.ts:116-120 | an empty, "all" or unknown interval key returns the list unchanged |
| JobSources.FilterByTimeInterval | src/lib/jobSources.ts:107-128 | stated by `TimeIntervalPassThrough` (early returns) and `TimeIntervalKeeps` (the date filter) |
| JobSources.TimeIntervalKeeps | src/lib/jobSources.ts:107-128 | a bounded key keeps, in order and with their multiplicities, exactly the postings dated at or after now minus its hours; one at the cutoff is kept |
| FilterEngine.Filtered | src/hooks/useJobStore.ts:155-211 | the result is a subsequence of the matches, and a match is in it exactly when it passes every guard; a passing match keeps all its occurrences, a failing one keeps none |
| FilterEngine.KeywordOkIffOccurs | src/hooks/useJobStore.ts:158-162 | the keyword guard holds exactly when the lowered keyword occurs at some index of the lowered title, company, description and skills; an empty keyword constrains nothing |
| FilterEngine.Passes | src/hooks/useJobStore.ts:155-211 | stated by `PassesIffSatisfies`: the guard chain for one match equals the declarative reference `Satisfies` |
| FilterEngine.PassesIffSatisfies | src/hooks/useJobStore.ts:155-211 | passing the guards is equivalent to the declarative reference: keyword occurs, listed values, minimum score, overlapping salary ranges, age within bucket |
| FilterEngine.KeywordCaseInsensitive | src/hooks/useJobStore.ts:158-162 | lowering the keyword beforehand does not change the verdict |
| FilterEngine.EmptyFilterKeepsAll | src/hooks/useJobStore.ts:155-211 | the filter `{}` keeps every match in order |
| FilterEngine.FilteredIdempotent | src/hooks/useJobStore.ts:155-211 | filtering twice equals filtering once |
| FilterEngine.MinScoreOnly | src/hooks/useJobStore.ts:180-182 | a lone minimum score keeps exactly the matches scoring at least that much; 0 keeps all |
| FilterEngine.WorkTypeOnly | src/hooks/useJobStore.ts:164-166 | a lone work-type list keeps exactly the listed work types; an empty list keeps all |
| FilterEngine.OtherBucketsRejectNothing | src/hooks/useJobStore.ts:192-208 | a recency key other than 24h, 7d, 30d rejects nothing |
| FilterEngine.RecencyAtLimit | src/hooks/useJobStore.ts:192-208 | a dated job passes exactly when its age is at most the bucket; one millisecond over fails |
| FilterEngine.RemoteMinScoreScenario | src/hooks/useJobStore.ts:164-182 | remote with minimum 60 over remote 50, remote 70, on-site 90 keeps only the 70 |
| JobStore.ErrorText | src/hooks/useJobStore.ts:84-88 | the error message when non-empty, and the fallback exactly when the message is empty; never empty with a non-empty fallback |
| JobStore.Toggled | src/hooks/useJobStore.ts:128-136 | the id is saved afterwards exactly when it was not before; no other id changes; a removal drops every copy of the id, keeps every other entry with its multiplicity and keeps order; an addition appends |
| JobStore.ToggleTwiceRestores | src/hooks/useJobStore.ts:128-136 | saving then unsaving an unsaved id restores the list |
| JobStore.ToggleKeepsNoDuplicates | src/hooks/useJobStore.ts:128-136 | toggling keeps a duplicate-free list duplicate-free |
| JobStore.Applied | src/hooks/useJobStore.ts:139-146 | the id is applied afterwards; the old list is a prefix; the list grows by one only for a new id |
| JobStore.AppliedIdempotent | src/hooks/useJobStore.ts:139-146 | marking twice is marking once |
| JobStore.AppliedOnce | src/hooks/useJobStore.ts:139-146 | nothing is removed; a new id occurs once; no duplicates are introduced |
| JobStore.Store.constructor | src/hooks/useJobStore.ts:13-20 | the initial state: no resume, empty lists, filter `{}`, not loading, no error |
| JobStore.Store.LoadFromStorage | src/hooks/useJobStore.ts:23-46 | each stored key of the right kind replaces its field; a malformed entry stops the load at that key, keeping what was read before |
| JobStore.Store.SetResume | src/hooks/useJobStore.ts:49-57 | the resume is stored and persisted, or removed from storage for none |
| JobStore.Store.ClearResume | src/hooks/useJobStore.ts:60-64 | resume and matches are cleared and the resume key removed |
| JobStore.Store.FetchJobs | src/hooks/useJobStore.ts:67-90 | the request carries the query and sources; success replaces the jobs and clears the error; failure keeps the jobs and sets the message or its fallback; loading ends |
| JobStore.Store.MatchJobs | src/hooks/useJobStore.ts:93-125 | without a resume no request is made and the error is set; otherwise the request carries the resume and the given or stored jobs; success stores the matches; failure keeps them and sets the error |
| JobStore.Store.ToggleSaveJob | src/hooks/useJobStore.ts:128-136 | the saved list becomes its toggle, and is persisted |
| JobStore.Store.MarkAsApplied | src/hooks/useJobStore.ts:139-146 | the id is appended and persisted once; an id already applied changes nothing |
| JobStore.Store.SetFilters | src/hooks/useJobStore.ts:149-152 | the filters are replaced and persisted |
| JobStore.Store.FilteredMatches | src/hooks/useJobStore.ts:155-211 | the stored matches passing the stored filters: `Filtered` of them, so in order and with every occurrence of a passing match |
| JobFilters.WithListField | src/components/job-hunter/JobFilters.tsx:75 | the named list field takes the value; every other field is kept |
| JobFilters.CheckboxChange | src/components/job-hunter/JobFilters.tsx:70-76 | ticking appends; unticking removes every occurrence, keeps every other value with its multiplicity and keeps order; an empty list becomes absent; other fields are kept |
| JobFilters.CheckboxReflectsClick | src/components/job-hunter/JobFilters.tsx:70-76 | after the change the checkbox is ticked exactly when it was clicked on |
| JobFilters.UncheckUndoesCheck | src/components/job-hunter/JobFilters.tsx:70-76 | ticking a value not listed and then unticking it restores the filter |
| JobFilters.UncheckIdempotent | src/components/job-hunter/JobFilters.tsx:70-76 | unticking twice is unticking once |
| JobFilters.ClearFilters | src/components/job-hunter/JobFilters.tsx:78-80 | stated by `ClearFiltersResets`: the next filter has count zero and keeps every match |
| JobFilters.ActiveFilterCount | src/components/job-hunter/JobFilters.tsx:82-84 | stated by `ClearFiltersResets`, `InactiveFilterKeepsAll` and `AllTimeCountedButInert`: zero after clearing, zero only when nothing is filtered, and "all" counted though inert |
| JobFilters.ClearFiltersResets | src/components/job-hunter/JobFilters.tsx:78-80 | after clearing, the count is zero and every match is kept |
| JobFilters.InactiveFilterKeepsAll | src/components/job-hunter/JobFilters.tsx:82-84 | a filter whose count is zero keeps every match |
| JobFilters.AllTimeCountedButInert | src/components/job-hunter/JobFilters.tsx:82-84 | `posted_within: "all"` is counted as active yet keeps every match |
| JobFilters.EditKeywords | src/components/job-hunter/JobFilters.tsx:95 | an empty search text unsets the keyword; other text is stored; nothing else changes |
| JobFilters.EditMinScore | src/components/job-hunter/JobFilters.tsx:126 | a slider value that is not positive unsets the minimum; nothing else changes |
| JobFilters.EditPostedWithin | src/components/job-hunter/JobFilters.tsx:203-206 | "all" unsets the recency key; any other key is stored |
| JobFilters.EditSalaryMin | src/components/job-hunter/JobFilters.tsx:232-238 | empty text unsets the minimum salary; other text is read as `parseInt` reads it |
| JobFilters.EditSalaryMax | src/components/job-hunter/JobFilters.tsx:242-248 | the same for the maximum salary |
| JobFilters.EditsKeepNormalised | src/components/job-hunter/JobFilters.tsx:70-248 | every panel edit keeps a filter free of empty texts, empty lists, zero scores and "all" |
| JobFilters.NormalisedFieldsAreTruthy | src/components/job-hunter/JobFilters.tsx:70-248 | in such a filter, every present keyword, score and work-type, job-type, seniority or source list is one the filtering acts on |
| JobFilters.DigitRun | src/components/job-hunter/JobFilters.tsx:236 | the longest prefix of decimal digits |
| JobFilters.SkipSpaces | src/components/job-hunter/JobFilters.tsx:236 | the text after the leading spaces: a suffix of the input, preceded only by spaces, not starting with one |
| JobFilters.NatText | src/components/job-hunter/JobFilters.tsx:236 | the decimal text of a number is non-empty digits |
| JobFilters.NatTextValue | src/components/job-hunter/JobFilters.tsx:236 | reading back the decimal text of a number gives the number |
| JobFilters.DigitRunOfDigits | src/components/job-hunter/JobFilters.tsx:236 | a text of digits is its own digit run |
| JobFilters.ReadAllDigits | src/components/job-hunter/JobFilters.tsx:236 | a text made only of digits reads as its value |
| JobFilters.ParseUnsigned | src/components/job-hunter/JobFilters.tsx:236 | text that starts with a digit reads as the value of its leading digits |
| JobFilters.ParseNegative | src/components/job-hunter/JobFilters.tsx:236 | a minus sign before such text reads as minus that value |
| JobFilters.ParseInt | src/components/job-hunter/JobFilters.tsx:236 | stated by `ParseUnsigned`, `ParseNegative`, `ParseIntRoundTrip` and `ReadingStopsAtNonDigit`: the signed value of the leading digits after spaces |
| JobFilters.ParseIntRoundTrip | src/components/job-hunter/JobFilters.tsx:232-248 | typing the text of a whole number into a salary box stores that number |
| JobFilters.ReadingStopsAtNonDigit | src/components/job-hunter/JobFilters.tsx:232-248 | text the number input accepts in exponent or decimal form keeps only its leading digits: "1e5" stores 1, "2.5" stores 2 |
| JobFilters.SourceOptions | src/components/job-hunter/JobFilters.tsx:257 | at most fifteen enabled catalog entries, the first of the enabled list, all of it when shorter |
| JobFilters.SourceOptionsOfEnabledCatalog | src/components/job-hunter/JobFilters.tsx:257 | over a catalog of at least fifteen entries, all enabled, the options are its first fifteen entries |
| JobFilters.ShippedSourceOptions | src/components/job-hunter/JobFilters.tsx:257 | with the shipped catalog, exactly the first fifteen entries |
| JobFilters.SourceOptionSelects | src/components/job-hunter/JobFilters.tsx:257-263 | ticking a source on a clear filter keeps exactly the matches from that source |
| ScoreBands.BandOf | src/components/job-hunter/JobCard.tsx:29-41 | the band is fixed by the thresholds 80, 60 and 40 |
| ScoreBands.BandMonotone | src/components/job-hunter/JobCard.tsx:29-41 | a higher score never falls in a lower band |
| JobCard.ScoreColor | src/components/job-hunter/JobCard.tsx:29-34 | stated by `ColorFollowsBand`: one colour per band of `BandOf` |
| JobCard.ScoreLabel | src/components/job-hunter/JobCard.tsx:36-41 | stated by `LabelFollowsBand`: the label names the band |
| JobCard.ColorFollowsBand | src/components/job-hunter/JobCard.tsx:29-34 | two scores get the same card colour exactly when they are in the same band |
| JobCard.LabelFollowsBand | src/components/job-hunter/JobCard.tsx:36-41 | the label names the band; equal labels exactly for equal bands |
| JobCard.FormatSalary | src/components/job-hunter/JobCard.tsx:43-58 | no line when neither bound is truthy; a range for both; "From" or "Up to" for one |
| JobCard.SalaryDefaultsToUsd | src/components/job-hunter/JobCard.tsx:44 | a missing or empty currency formats as US dollars |
| JobCard.SkillBadges | src/components/job-hunter/JobCard.tsx:147-162 | no row for no skills; otherwise the first five skills (all of them when fewer), and a "+n more" badge exactly past five, with n the skills not shown |
| JobCard.SkillBadgesAccountForAll | src/components/job-hunter/JobCard.tsx:147-162 | the shown badges and the "+n more" count together account for every skill once; past five, `slice(0, 5)` and n = length - 5 |
| JobCard.ApplyClick | src/components/job-hunter/JobCard.tsx:189-198 | with a link the job is recorded as applied, the old list a prefix; without one nothing changes |
| JobCard.ApplyClickDisablesButton | src/components/job-hunter/JobCard.tsx:189-198 | a click on the enabled button appends the job once and leaves the button disabled |
| JobCard.DisabledButtonChangesNothing | src/components/job-hunter/JobCard.tsx:189-198 | whenever the button is disabled, its handler would leave the applied list as it is |
| JobDetail.FindIndex | src/components/job-hunter/JobDetailPage.tsx:27 | the position of the first match with the id, or the length when none has it |
| JobDetail.FindMatch | src/components/job-hunter/JobDetailPage.tsx:26-29 | none exactly when no match has the id; otherwise the first match that has it |
| JobDetail.DetailPage | src/components/job-hunter/JobDetailPage.tsx:31-51 | "not found" exactly when no match has the id; otherwise the first match with the id, with saved and applied flags that reflect the lists |
| JobDetail.DetailScoreColor | src/components/job-hunter/JobDetailPage.tsx:53-58 | stated by `DetailColorFollowsBand`: one text colour per band |
| JobDetail.ProgressColor | src/components/job-hunter/JobDetailPage.tsx:60-65 | stated by `ProgressColorFollowsBand`: one bar colour per band |
| JobDetail.RatingLabel | src/components/job-hunter/JobDetailPage.tsx:146 | stated by `RatingFollowsBand`: one rating word per band, agreeing with the card |
| JobDetail.DetailColorFollowsBand | src/components/job-hunter/JobDetailPage.tsx:53-58 | the page's text colour separates scores by band |
| JobDetail.ProgressColorFollowsBand | src/components/job-hunter/JobDetailPage.tsx:60-65 | the bar colour separates scores by band |
| JobDetail.RatingFollowsBand | src/components/job-hunter/JobDetailPage.tsx:146 | the rating word separates by band and agrees with the card's colour |
| JobDetail.ApplyDisablesButton | src/components/job-hunter/JobDetailPage.tsx:170-177 | after applying through the same click as the card, the page shows the job applied and the button disabled |
| JobDetail.SaveFlipsButton | src/components/job-hunter/JobDetailPage.tsx:190 | when a match has the id the page shows it, and saving from the page flips the saved flag |
| Dashboard.ComputeStats | src/components/job-hunter/DashboardPage.tsx:55-61 | total, saved and applied counts are the list lengths; excellent plus good never exceeds total |
| Dashboard.StatsCountBands | src/components/job-hunter/DashboardPage.tsx:55-61 | the two match counts are the sizes of the Excellent and Good bands |
| Dashboard.InsertByCount | src/components/job-hunter/DashboardPage.tsx:167 | stated by `InsertPermutes`, `InsertKeepsSorted` and `InsertStable` |
| Dashboard.SortByCountDesc | src/components/job-hunter/DashboardPage.tsx:167 | stated by `SortPermutes`, `SortSorts` and `SortStable`: a stable descending sort by count |
| Dashboard.InsertPermutes | src/components/job-hunter/DashboardPage.tsx:167 | insertion adds exactly the entry |
| Dashboard.InsertKeepsSorted | src/components/job-hunter/DashboardPage.tsx:167 | insertion into a list sorted by count keeps it sorted |
| Dashboard.InsertStable | src/components/job-hunter/DashboardPage.tsx:167 | insertion keeps the relative order of equal counts |
| Dashboard.SortPermutes | src/components/job-hunter/DashboardPage.tsx:167 | the sort is a permutation |
| Dashboard.SortSorts | src/components/job-hunter/DashboardPage.tsx:167 | the sort orders by count, descending |
| Dashboard.SortStable | src/components/job-hunter/DashboardPage.tsx:167 | entries with equal counts keep their order (the sort is stable) |
| Dashboard.SortKeepsMembers | src/components/job-hunter/DashboardPage.tsx:167 | the sort keeps exactly its entries |
| Dashboard.PrefixOfSorted | src/components/job-hunter/DashboardPage.tsx:168 | a prefix of a sorted list is sorted, and dominates what it leaves out |
| Dashboard.Badges | src/components/job-hunter/DashboardPage.tsx:165-168 | stated by `BadgesAreTopTen` and `BadgesStable` |
| Dashboard.BadgesAreTopTen | src/components/job-hunter/DashboardPage.tsx:165-168 | at most ten badges, positive entries only, descending; all positive entries when ten or fewer; none left out counts more than one shown |
| Dashboard.BadgeSection | src/components/job-hunter/DashboardPage.tsx:162 | the row is drawn exactly when the counts object has a key |
| Dashboard.BadgesStable | src/components/job-hunter/DashboardPage.tsx:165-168 | the entries with one count appear in the counts object's order |
| Dashboard.ViewStatesExclusive | src/components/job-hunter/DashboardPage.tsx:189-260 | spinner, list and the two empty states never show together; with no load and no error one of them shows; an error with no matches shows only the banner |
| Dashboard.ClearingLeavesNoMatching | src/components/job-hunter/DashboardPage.tsx:243-257 | "Clear Filters" always leaves "No matching jobs" and lists every match |
| Dashboard.Page.constructor | src/components/job-hunter/DashboardPage.tsx:32-34 | no source counts and the initial-load flag set |
| Dashboard.LoadEffect | src/components/job-hunter/DashboardPage.tsx:43-49 | the fetch has no query and no sources; matching is requested exactly when a resume exists and the reply's job list is non-empty, and for exactly that list; loading ends off; jobs and counts follow the reply; matches change only to a successful match's list; no error exactly when the fetch succeeds and either finds nothing or the match succeeds |
| Dashboard.SuccessfulLoadShowsMatches | src/components/job-hunter/DashboardPage.tsx:43-49 | a load whose fetch and match succeed shows the returned matches as the list, with the reply's counts and no banner |
| Dashboard.FailedFetchShowsBanner | src/components/job-hunter/DashboardPage.tsx:43-49 | a failed fetch shows the banner, sends no match request and keeps jobs, counts and matches |
| Dashboard.LoadWithoutResumeAsksForOne | src/components/job-hunter/DashboardPage.tsx:43-49 | fetched jobs without a resume are not matched and the banner says "No resume uploaded" |
| Dashboard.EmptyFetchShowsNoJobs | src/components/job-hunter/DashboardPage.tsx:43-49 | a fetch that finds nothing, on a page with no matches, ends on "No jobs found" |
| Dashboard.LoadIsRepeatable | src/components/job-hunter/DashboardPage.tsx:51-53 | refreshing with the same replies sends the same requests and ends in the same state |
| Dashboard.Page.LoadJobs | src/components/job-hunter/DashboardPage.tsx:43-49 | returns the fetch request and the match request sent, and the store and page end in the state `LoadEffect` gives |
| Dashboard.Page.Mount | src/components/job-hunter/DashboardPage.tsx:34-41 | the first mount loads, returning the requests, with the state `LoadEffect` gives; later ones send nothing and change nothing |
| AppLayout.Render | src/components/AppLayout.tsx:43-90 | a render draws nothing exactly when it redirects; landing and upload always draw; the dashboard redirects to upload exactly without a resume and draws otherwise; the detail page redirects to the dashboard exactly without a resume or a selected id and draws otherwise |
| AppLayout.Settled | src/components/AppLayout.tsx:43-90 | stated by `RedirectsSettle`: the view reached after the redirects, always drawn |
| AppLayout.RedirectsSettle | src/components/AppLayout.tsx:43-90 | re-rendering settles on a drawn view; without a resume it is the landing or the upload page |
| AppLayout.JobClickShowsDetail | src/components/AppLayout.tsx:26-30 | clicking a job with a resume loaded shows its detail page |
| AppLayout.NavigationForgetsSelection | src/components/AppLayout.tsx:20-24 | without a selected id the detail page redirects to the dashboard |
| AppLayout.Layout.constructor | src/components/AppLayout.tsx:16-18 | the landing page with no selection |
| AppLayout.Layout.Navigate | src/components/AppLayout.tsx:20-24 | the page changes and the selection is dropped |
| AppLayout.Layout.JobClick | src/components/AppLayout.tsx:26-30 | the job is selected and the detail page opened |
| AppLayout.Layout.ResumeReady | src/components/AppLayout.tsx:32-36 | a resume is stored and persisted; none changes nothing |
| AppLayout.Layout.ContinueToDashboard | src/components/AppLayout.tsx:38-41 | the dashboard opens, keeping the selection |
| AppLayout.Layout.RenderPage | src/components/AppLayout.tsx:43-90 | the page and the view are those `Render` gives for the current state |

## Left out

- Browser storage is a map from key to a parsed value. JSON text, quota errors and exceptions are not modelled. Text that does not parse (`Malformed`) ends the load at that key, as the `JSON.parse` exception does.
- JobStore.Store.LoadFromStorage: a value of the wrong kind under a key (say, a list stored under the résumé key) is ignored and the load goes on to the next key. The source would store whatever `JSON.parse` returns, whatever its shape; the model keeps the typed state instead.
- The edge functions `fetch-jobs` and `match-jobs` are outcome parameters (success data or an error message). The network, the Supabase client and the scoring they perform are outside the model.
- Concurrency is not modelled. Every async call is one atomic step, so races between overlapping loads, React's batching and stale closures are not captured. One such case: at first render `loadJobs` calls a `matchJobs` that still sees no resume.
- Each component calls `useJobStore` and gets its own state in the source (src/hooks/useJobStore.ts:13-20). The detail page's instance starts with no matches, matches are not among the keys read back from storage (src/hooks/useJobStore.ts:23-46), and the page calls neither `fetchJobs` nor `matchJobs` (src/components/job-hunter/JobDetailPage.tsx:23). So in the source its `matches.find` (src/components/job-hunter/JobDetailPage.tsx:27) finds nothing and the page always shows "Job not found". The model has one shared store instead. `JobDetail.DetailPage`, `JobDetail.SaveFlipsButton`, `JobDetail.ApplyDisablesButton` and `AppLayout.JobClickShowsDetail` therefore describe the page over that shared store, not what the program shows.
- The per-source counts object is a sequence of entries in the order the reply lists them. That `Object.entries` puts integer-like keys first, and that an object's keys are unique, are not modelled.
- The raw setters `setJobs`, `setMatches` and `setError` are plain field writes and are not modelled separately.
- Text lowering is ASCII only. `toLowerCase` on other scripts is not modelled.
- Scores and salaries are integers. Floating point and `NaN` are not modelled.
- `JobFilters.EditSalaryMin` and `JobFilters.EditSalaryMax`: text that `parseInt` reads as `NaN` is stored as absent, whereas the source stores `NaN`, which the badge count would count.
- JobFilters.ParseInt skips only spaces. Other leading whitespace, hexadecimal prefixes and the other whitespace rules of `parseInt` are not modelled; a number input supplies none of them.
- Dates are `Blank`, `Unparseable` or milliseconds since the epoch. Date parsing and `formatDistanceToNow` are not modelled, and the clock is the parameter `now`.
- `Intl.NumberFormat` is the parameter `format` of `JobCard.FormatSalary`. The unreachable final `return null` of `formatSalary` is the final `else None` of the model, which no input reaches.
- The `default:` branch of `renderPage` is unreachable, because the `Page` datatype is closed.
- `window.open`, `navigator.share`, clipboard copy and `scrollTo` are effects outside the model. The apply button is modelled by the store update it triggers.
- The detail page caches the found match in component state with an effect. The model reads the lookup directly.
- The badge-removal buttons of the filter panel are the same handlers as the fields (`CheckboxChange` with `false`, and unset keyword or score). They are not modelled separately.
- The résumé parser and uploader, the landing, upload, header and footer components, and all styling other than the score colours are not part of this model.
