/** The filter panel: the checkbox handler shared by the four list fields,
    the field editors that turn neutral inputs into "unset", the reset, the
    active-filter badge count and the list of source options. Every handler
    returns the next filter, which the panel hands to the store. */
module JobFilters {
  import opened Wrappers
  import opened Seqs
  import opened Types
  import opened JobSources
  import opened FilterEngine

  /** The four fields edited through checkboxes. */
  datatype ListKey = WorkTypeKey | JobTypeKey | SeniorityKey | SourcesKey

  function ListField(f: JobFilter, key: ListKey): Option<seq<string>> {
    match key
    case WorkTypeKey => f.work_type
    case JobTypeKey => f.job_type
    case SeniorityKey => f.seniority
    case SourcesKey => f.sources
  }

  /** The scalar fields of two filters agree. */
  predicate SameScalars(a: JobFilter, b: JobFilter) {
    && a.keywords == b.keywords && a.title == b.title && a.location == b.location
    && a.salary_min == b.salary_min && a.salary_max == b.salary_max
    && a.posted_within == b.posted_within && a.min_match_score == b.min_match_score
  }

  /** `{ ...filters, [key]: v }` for a list field. */
  function WithListField(f: JobFilter, key: ListKey, v: Option<seq<string>>): (r: JobFilter)
    ensures ListField(r, key) == v
    ensures forall k :: k != key ==> ListField(r, k) == ListField(f, k)
    ensures SameScalars(r, f)
  {
    match key
    case WorkTypeKey => f.(work_type := v)
    case JobTypeKey => f.(job_type := v)
    case SeniorityKey => f.(seniority := v)
    case SourcesKey => f.(sources := v)
  }

  /** `(filters[key] as string[]) || []`. */
  function CurrentValues(f: JobFilter, key: ListKey): seq<string> {
    ListField(f, key).GetOr([])
  }

  /** Whether a checkbox of the panel shows as ticked: `(filters[key] || []).includes(value)`. */
  predicate IsChecked(f: JobFilter, key: ListKey, value: string) {
    value in CurrentValues(f, key)
  }

  /** `handleCheckboxChange`: ticking appends the value (a second tick appends
      it again); unticking removes every occurrence. A list that ends up empty
      is stored as absent. Every other field is kept. */
  function CheckboxChange(f: JobFilter, key: ListKey, value: string, checked: bool): (r: JobFilter)
    ensures SameScalars(r, f)
    ensures forall k :: k != key ==> ListField(r, k) == ListField(f, k)
    ensures ListField(r, key) != Some([])
    ensures checked ==> ListField(r, key) == Some(CurrentValues(f, key) + [value])
    ensures !checked ==> forall x :: x in CurrentValues(r, key) <==> x in CurrentValues(f, key) && x != value
    ensures !checked ==> IsSubsequence(CurrentValues(r, key), CurrentValues(f, key))
    ensures !checked ==> forall x :: Count(CurrentValues(r, key), x) == if x == value then 0 else Count(CurrentValues(f, key), x)
    ensures !checked ==> (ListField(r, key).None? <==> forall x :: x in CurrentValues(f, key) ==> x == value)
  {
    var current := CurrentValues(f, key);
    var next := if checked then current + [value] else Without(current, value);
    assert !checked ==> IsSubsequence(next, current) by {
      FilterIsSubsequence(current, NotEqualTo(value));
    }
    assert !checked ==> (|next| == 0 <==> forall x :: x in current ==> x == value) by {
      if !checked && |next| > 0 {
        assert next[0] in next;
      }
    }
    WithListField(f, key, if |next| > 0 then Some(next) else None)
  }

  /** After a click the checkbox shows the state it was clicked to. */
  lemma CheckboxReflectsClick(f: JobFilter, key: ListKey, value: string, checked: bool)
    ensures IsChecked(CheckboxChange(f, key, value, checked), key, value) == checked
  {
    var r := CheckboxChange(f, key, value, checked);
    if checked {
      assert CurrentValues(r, key) == CurrentValues(f, key) + [value];
      assert CurrentValues(r, key)[|CurrentValues(f, key)|] == value;
    }
  }

  /** Ticking a value that was not listed and then unticking it gives back the
      filter, except that an empty list comes back absent. */
  lemma UncheckUndoesCheck(f: JobFilter, key: ListKey, value: string)
    requires value !in CurrentValues(f, key)
    ensures CheckboxChange(CheckboxChange(f, key, value, true), key, value, false)
      == WithListField(f, key, if CurrentValues(f, key) == [] then None else Some(CurrentValues(f, key)))
  {
    var current := CurrentValues(f, key);
    var g := CheckboxChange(f, key, value, true);
    assert CurrentValues(g, key) == current + [value];
    WithoutAppended(current, value);
  }

  /** Unticking twice is unticking once. */
  lemma UncheckIdempotent(f: JobFilter, key: ListKey, value: string)
    ensures CheckboxChange(CheckboxChange(f, key, value, false), key, value, false)
      == CheckboxChange(f, key, value, false)
  {
    var g := CheckboxChange(f, key, value, false);
    var current := CurrentValues(g, key);
    FilterAllPass(current, NotEqualTo(value));
  }

  /** `clearFilters`: whatever the panel showed, the next filter is `{}`. */
  function ClearFilters(f: JobFilter): JobFilter {
    EmptyFilter
  }

  function ActiveText(v: Option<string>): nat {
    if v.Some? && v.value != "" then 1 else 0
  }

  function ActiveList(v: Option<seq<string>>): nat {
    if v.Some? && |v.value| > 0 then 1 else 0
  }

  /** A number is counted whenever it is present, `0` included. */
  function ActiveNumber(v: Option<int>): nat {
    if v.Some? then 1 else 0
  }

  /** `activeFilterCount`: the fields whose value is not `undefined`, not `''`
      and, for a list, not empty. */
  function ActiveFilterCount(f: JobFilter): nat {
    ActiveText(f.keywords) + ActiveText(f.title) + ActiveText(f.location)
    + ActiveList(f.work_type) + ActiveList(f.job_type) + ActiveList(f.seniority)
    + ActiveNumber(f.salary_min) + ActiveNumber(f.salary_max)
    + ActiveList(f.sources) + ActiveText(f.posted_within) + ActiveNumber(f.min_match_score)
  }

  /** Clearing leaves no active filter, and the cleared filter keeps every match. */
  lemma ClearFiltersResets(f: JobFilter, matches: seq<JobMatch>, now: int)
    ensures ActiveFilterCount(ClearFilters(f)) == 0
    ensures Filtered(matches, ClearFilters(f), now) == matches
  {
    EmptyFilterKeepsAll(matches, now);
  }

  /** A filter with no active field keeps every match: whenever the filter
      removes something, the badge shows a positive count. */
  lemma InactiveFilterKeepsAll(f: JobFilter, matches: seq<JobMatch>, now: int)
    requires ActiveFilterCount(f) == 0
    ensures Filtered(matches, f, now) == matches
  {
    FilterAllPass(matches, PassesFilter(f, now));
  }

  /** The count over-approximates: `posted_within: 'all'` is counted although
      it filters nothing. */
  lemma AllTimeCountedButInert(matches: seq<JobMatch>, now: int)
    ensures ActiveFilterCount(EmptyFilter.(posted_within := Some("all"))) == 1
    ensures Filtered(matches, EmptyFilter.(posted_within := Some("all")), now) == matches
  {
    FilterAllPass(matches, PassesFilter(EmptyFilter.(posted_within := Some("all")), now));
  }

  /** No field edited through the panel holds a neutral value: no empty
      keyword, no non-positive score, no `'all'` recency, no empty list. */
  predicate Normalised(f: JobFilter) {
    && f.keywords != Some("")
    && (f.min_match_score.Some? ==> f.min_match_score.value > 0)
    && f.posted_within != Some("all")
    && f.work_type != Some([]) && f.job_type != Some([])
    && f.seniority != Some([]) && f.sources != Some([])
  }

  /** The search box: an empty text unsets `keywords`. */
  function EditKeywords(f: JobFilter, text: string): (r: JobFilter)
    ensures r == f.(keywords := r.keywords)
    ensures r.keywords.Some? <==> text != ""
    ensures r.keywords.Some? ==> r.keywords.value == text
  {
    f.(keywords := if text != "" then Some(text) else None)
  }

  /** The score slider: a value that is not positive unsets `min_match_score`. */
  function EditMinScore(f: JobFilter, value: int): (r: JobFilter)
    ensures r == f.(min_match_score := r.min_match_score)
    ensures r.min_match_score.Some? <==> value > 0
    ensures r.min_match_score.Some? ==> r.min_match_score.value == value
  {
    f.(min_match_score := if value > 0 then Some(value) else None)
  }

  /** The recency select: `'all'` unsets `posted_within`. */
  function EditPostedWithin(f: JobFilter, value: string): (r: JobFilter)
    ensures r == f.(posted_within := r.posted_within)
    ensures r.posted_within.None? <==> value == "all"
    ensures r.posted_within.Some? ==> r.posted_within.value == value
  {
    f.(posted_within := if value == "all" then None else Some(value))
  }

  /** The minimum-salary box: empty text unsets the field, other text is read with `ParseInt`. */
  function EditSalaryMin(f: JobFilter, text: string): (r: JobFilter)
    ensures r == f.(salary_min := r.salary_min)
    ensures text == "" ==> r.salary_min.None?
    ensures text != "" ==> r.salary_min == ParseInt(text)
  {
    f.(salary_min := if text != "" then ParseInt(text) else None)
  }

  /** The maximum-salary box, read like the minimum. */
  function EditSalaryMax(f: JobFilter, text: string): (r: JobFilter)
    ensures r == f.(salary_max := r.salary_max)
    ensures text == "" ==> r.salary_max.None?
    ensures text != "" ==> r.salary_max == ParseInt(text)
  {
    f.(salary_max := if text != "" then ParseInt(text) else None)
  }

  /** Every edit the panel can make keeps a normalised filter normalised, and
      clearing produces one. */
  lemma EditsKeepNormalised(f: JobFilter, key: ListKey, value: string, checked: bool, text: string, score: int)
    requires Normalised(f)
    ensures Normalised(CheckboxChange(f, key, value, checked))
    ensures Normalised(EditKeywords(f, text))
    ensures Normalised(EditMinScore(f, score))
    ensures Normalised(EditPostedWithin(f, text))
    ensures Normalised(EditSalaryMin(f, text)) && Normalised(EditSalaryMax(f, text))
    ensures Normalised(ClearFilters(f))
  {
    var r := CheckboxChange(f, key, value, checked);
    assert ListField(r, key) != Some([]);
    assert forall k :: ListField(r, k) != Some([]) by {
      forall k ensures ListField(r, k) != Some([]) {
        if k != key {
          assert ListField(r, k) == ListField(f, k);
        }
      }
    }
    assert ListField(r, WorkTypeKey) == r.work_type && ListField(r, JobTypeKey) == r.job_type;
    assert ListField(r, SeniorityKey) == r.seniority && ListField(r, SourcesKey) == r.sources;
  }

  /** In a normalised filter a present keyword, score or list is one the filter acts on. */
  lemma NormalisedFieldsAreTruthy(f: JobFilter)
    requires Normalised(f)
    ensures f.keywords.Some? <==> IsTruthyText(f.keywords)
    ensures f.min_match_score.Some? <==> IsTruthy(f.min_match_score)
    ensures f.work_type.Some? <==> ActiveList(f.work_type) == 1
    ensures f.job_type.Some? <==> ActiveList(f.job_type) == 1
    ensures f.seniority.Some? <==> ActiveList(f.seniority) == 1
    ensures f.sources.Some? <==> ActiveList(f.sources) == 1
  {
    if f.work_type.Some? {
      assert f.work_type.value != [];
    }
    if f.job_type.Some? {
      assert f.job_type.value != [];
    }
    if f.seniority.Some? {
      assert f.seniority.value != [];
    }
    if f.sources.Some? {
      assert f.sources.value != [];
    }
  }

  predicate IsDigit(c: char) {
    '0' <= c <= '9'
  }

  /** The longest prefix of decimal digits. */
  function DigitRun(s: string): (r: string)
    ensures |r| <= |s| && r == s[..|r|]
    ensures forall i :: 0 <= i < |r| ==> IsDigit(r[i])
    ensures |r| < |s| ==> !IsDigit(s[|r|])
  {
    if |s| == 0 || !IsDigit(s[0]) then [] else [s[0]] + DigitRun(s[1..])
  }

  /** The value of a string of decimal digits, most significant first. */
  function DigitsValue(s: string): nat
    requires forall i :: 0 <= i < |s| ==> IsDigit(s[i])
  {
    if |s| == 0 then 0
    else
      assert IsDigit(s[|s| - 1]);
      DigitsValue(s[..|s| - 1]) * 10 + (s[|s| - 1] as int - '0' as int)
  }

  /** The value of the leading run of digits of `u`; `None` when `u` does not
      start with a digit. */
  function ReadDigits(u: string): Option<nat> {
    var digits := DigitRun(u);
    if |digits| == 0 then None else Some(DigitsValue(digits))
  }

  /** `parseInt(text)` in base 10: leading spaces, an optional sign, then the
      leading run of digits; `None` stands for NaN when there is no digit. */
  function ParseInt(text: string): Option<int> {
    var t := SkipSpaces(text);
    if |t| > 0 && t[0] == '-' then
      match ReadDigits(t[1..])
      case None => None
      case Some(magnitude) => Some(-(magnitude as int))
    else if |t| > 0 && t[0] == '+' then
      match ReadDigits(t[1..])
      case None => None
      case Some(magnitude) => Some(magnitude as int)
    else
      match ReadDigits(t)
      case None => None
      case Some(magnitude) => Some(magnitude as int)
  }

  /** The text after the leading spaces. */
  function SkipSpaces(s: string): (r: string)
    ensures |r| <= |s|
    ensures |r| > 0 ==> r[0] != ' '
    ensures r == s[|s| - |r|..]
    ensures forall i :: 0 <= i < |s| - |r| ==> s[i] == ' '
  {
    if |s| > 0 && s[0] == ' ' then SkipSpaces(s[1..]) else s
  }

  /** The decimal digits of `n`, most significant first, as the number input shows it. */
  function NatText(n: nat): (r: string)
    ensures |r| > 0
    ensures forall i :: 0 <= i < |r| ==> IsDigit(r[i])
  {
    var d := ['0' + (n % 10) as char];
    if n < 10 then d else NatText(n / 10) + d
  }

  /** The text of an integer, with a minus sign when it is negative. */
  function IntText(n: int): string {
    if n < 0 then "-" + NatText(-n) else NatText(n)
  }

  lemma {:induction false} NatTextValue(n: nat)
    ensures DigitsValue(NatText(n)) == n
  {
    var r := NatText(n);
    if n >= 10 {
      NatTextValue(n / 10);
      assert r[..|r| - 1] == NatText(n / 10);
    }
  }

  lemma {:induction false} DigitRunOfDigits(s: string)
    requires forall i :: 0 <= i < |s| ==> IsDigit(s[i])
    ensures DigitRun(s) == s
  {
    if |s| > 0 {
      DigitRunOfDigits(s[1..]);
    }
  }

  /** A run of digits reads as its value. */
  lemma ReadAllDigits(s: string)
    requires |s| > 0 && forall i :: 0 <= i < |s| ==> IsDigit(s[i])
    ensures ReadDigits(s) == Some(DigitsValue(s))
  {
    DigitRunOfDigits(s);
  }

  /** Text that starts with a digit reads as the value of its leading digits. */
  lemma ParseUnsigned(u: string, v: nat)
    requires |u| > 0 && IsDigit(u[0]) && ReadDigits(u) == Some(v)
    ensures ParseInt(u) == Some(v as int)
  {
    assert SkipSpaces(u) == u;
  }

  /** A minus sign followed by such text reads as minus that value. */
  lemma ParseNegative(u: string, v: nat)
    requires ReadDigits(u) == Some(v)
    ensures ParseInt("-" + u) == Some(-(v as int))
  {
    var t := "-" + u;
    assert t[0] == '-' && t[1..] == u;
    assert SkipSpaces(t) == t;
  }

  /** Typing the text of a whole number into a salary box stores that number. */
  lemma ParseIntRoundTrip(n: int)
    ensures ParseInt(IntText(n)) == Some(n)
  {
    var digits := NatText(if n < 0 then -n else n);
    ReadAllDigits(digits);
    NatTextValue(if n < 0 then -n else n);
    if n < 0 {
      ParseNegative(digits, -n);
    } else {
      assert IsDigit(digits[0]);
      ParseUnsigned(digits, n);
    }
  }

  /** The number input accepts exponent and decimal notation, but the
      reading stops at the first character that is not a digit: "1e5" is
      stored as 1 and "2.5" as 2. */
  lemma ReadingStopsAtNonDigit()
    ensures ParseInt("1e5") == Some(1)
    ensures ParseInt("2.5") == Some(2)
  {
    var a, b := "1e5", "2.5";
    assert a[1..] == "e5" && b[1..] == ".5";
    assert DigitRun(a) == "1" && DigitRun(b) == "2";
    assert ReadDigits(a) == Some(1) && ReadDigits(b) == Some(2);
    ParseUnsigned(a, 1);
    ParseUnsigned(b, 2);
  }

  /** The first fifteen enabled sources, the checkboxes of the sources section. */
  function SourceOptions(catalog: seq<JobSource>): (r: seq<JobSource>)
    ensures |r| <= 15 && |r| <= |EnabledSources(catalog)|
    ensures |r| == 15 || r == EnabledSources(catalog)
    ensures forall i :: 0 <= i < |r| ==> r[i] == EnabledSources(catalog)[i]
    ensures forall s :: s in r ==> s in catalog && s.enabled
  {
    Take(EnabledSources(catalog), 15)
  }

  /** Over a catalog of at least fifteen entries, all enabled, the options
      are its first fifteen entries. */
  lemma SourceOptionsOfEnabledCatalog(catalog: seq<JobSource>)
    requires |catalog| >= 15
    requires forall i :: 0 <= i < |catalog| ==> catalog[i].enabled
    ensures |SourceOptions(catalog)| == 15
    ensures forall i :: 0 <= i < 15 ==> SourceOptions(catalog)[i] == catalog[i]
  {
    EnabledSourcesAllEnabled(catalog);
  }

  /** The shipped catalog has more than fifteen enabled sources, so exactly
      fifteen options are offered: the first fifteen catalog entries. */
  lemma ShippedSourceOptions()
    ensures |SourceOptions(JOB_SOURCES)| == 15
    ensures forall i :: 0 <= i < 15 ==> SourceOptions(JOB_SOURCES)[i] == JOB_SOURCES[i]
  {
    ShippedCatalogSize();
    ShippedCatalogEntriesEnabled();
    SourceOptionsOfEnabledCatalog(JOB_SOURCES);
  }

  /** Ticking a source option lists its `name`; the job filter then keeps only
      matches from the listed sources. */
  lemma SourceOptionSelects(f: JobFilter, option: JobSource, m: JobMatch, now: int)
    requires f == EmptyFilter
    ensures var g := CheckboxChange(f, SourcesKey, option.name, true);
      Passes(m, g, now) <==> m.job.source == option.name
  {
    var g := CheckboxChange(f, SourcesKey, option.name, true);
    assert CurrentValues(f, SourcesKey) == [];
    assert [] + [option.name] == [option.name];
    assert g.sources == Some([option.name]);
  }
}
