/**
 * The job records, the three filter inputs, the predicate `matchesFilters`
 * and the order-keeping `jobs.filter(matchesFilters)` of the job board.
 */
module Filtering {
  import opened Text

  /** One posting, with the fields a job object carries. `jobType` is the record's `type`. */
  datatype Job = Job(
    title: string,
    company: string,
    location: string,
    jobType: string,
    salary: string,
    posted: string,
    remote: bool,
    skills: seq<string>,
    description: string,
    applyLink: string)

  /**
   * What the predicate reads: the type of the active chip (`activeType`),
   * the value of the location select and the raw text of the keyword input.
   */
  datatype FilterState = FilterState(activeType: string, location: string, keyword: string)

  /** The chip value that lifts the type restriction. */
  const AnyType: string := "all"

  /** The filter state the page starts in: every chip value, location and keyword unrestricted. */
  const Unrestricted: FilterState := FilterState(AnyType, "", "")

  /** The keyword as the predicate compares it: trimmed, then lower-cased. */
  function NormalizedKeyword(raw: string): (k: string)
    ensures |k| <= |raw|
    ensures forall i :: 0 <= i < |k| ==> !IsUpper(k[i])
    ensures k == [] <==> AllWhitespace(raw)
    ensures k == [] || (!IsWhitespace(k[0]) && !IsWhitespace(k[|k| - 1]))
  {
    TrimEmptyIffBlank(raw);
    Lower(Trim(raw))
  }

  /** The text the keyword is searched in: title, company and description run together, lower-cased. */
  function SearchText(job: Job): string {
    Lower(job.title + job.company + job.description)
  }

  predicate TypePasses(job: Job, f: FilterState) {
    f.activeType == AnyType || job.jobType == f.activeType
  }

  predicate LocationPasses(job: Job, f: FilterState) {
    f.location == "" || job.location == f.location
  }

  predicate KeywordPasses(job: Job, f: FilterState) {
    Contains(SearchText(job), NormalizedKeyword(f.keyword))
  }

  /**
   * `matchesFilters`: rejects on the type, then on the location, then on the
   * keyword, and otherwise accepts. A blank keyword skips the search.
   */
  function MatchesFilters(job: Job, f: FilterState): (r: bool)
    ensures r <==> TypePasses(job, f) && LocationPasses(job, f) && KeywordPasses(job, f)
    ensures f.activeType != AnyType && job.jobType != f.activeType ==> !r
    ensures f.location != "" && job.location != f.location ==> !r
    ensures TypePasses(job, f) && LocationPasses(job, f) && AllWhitespace(f.keyword) ==> r
  {
    var keyword := NormalizedKeyword(f.keyword);
    ContainsSelfAndEmpty(SearchText(job));
    if f.activeType != AnyType && job.jobType != f.activeType then
      false
    else if f.location != "" && job.location != f.location then
      false
    else if keyword != "" && !Contains(SearchText(job), keyword) then
      false
    else
      true
  }

  /** `jobs.filter(matchesFilters)`. */
  function Filter(jobs: seq<Job>, f: FilterState): (r: seq<Job>)
    ensures |r| <= |jobs|
    ensures forall j :: j in r ==> MatchesFilters(j, f)
  {
    if jobs == [] then []
    else
      var rest := Filter(jobs[1..], f);
      assert jobs == [jobs[0]] + jobs[1..];
      if MatchesFilters(jobs[0], f) then [jobs[0]] + rest else rest
  }

  /** `r` is `s` with some elements dropped and the others kept in order. */
  ghost predicate IsSubsequence<T>(r: seq<T>, s: seq<T>)
    decreases |s|
  {
    if r == [] then true
    else if s == [] then false
    else if r[0] == s[0] then IsSubsequence(r[1..], s[1..])
    else IsSubsequence(r, s[1..])
  }

  // ---------------------------------------------------------------------------
  // The keyword

  /** Only the case of the keyword's letters changed: the verdict is the same. */
  lemma KeywordCaseInsensitive(job: Job, f: FilterState, keyword: string)
    requires Lower(keyword) == Lower(f.keyword)
    ensures MatchesFilters(job, f.(keyword := keyword)) == MatchesFilters(job, f)
  {
    TrimLowerCommute(keyword);
    TrimLowerCommute(f.keyword);
  }

  /** Whitespace around the keyword never changes the verdict. */
  lemma KeywordPaddingIgnored(job: Job, f: FilterState, pre: string, post: string)
    requires AllWhitespace(pre) && AllWhitespace(post)
    ensures MatchesFilters(job, f.(keyword := pre + f.keyword + post)) == MatchesFilters(job, f)
  {
    TrimIgnoresPadding(pre, f.keyword, post);
  }

  /** Any keyword that folds to a piece of the title, company and description text, whatever its case, finds the job. */
  lemma KeywordFromSearchTextMatches(job: Job, f: FilterState, i: int, j: int, keyword: string)
    requires TypePasses(job, f) && LocationPasses(job, f)
    requires 0 <= i <= j <= |job.title + job.company + job.description|
    requires Lower(keyword) == Lower((job.title + job.company + job.description)[i..j])
    ensures MatchesFilters(job, f.(keyword := keyword))
  {
    var piece := (job.title + job.company + job.description)[i..j];
    TrimmedSliceContained(job.title + job.company + job.description, i, j);
    KeywordCaseInsensitive(job, f.(keyword := piece), keyword);
  }

  /** Skills are not searched: changing them never changes the verdict. */
  lemma SkillsNotSearched(job: Job, f: FilterState, skills: seq<string>)
    ensures MatchesFilters(job.(skills := skills), f) == MatchesFilters(job, f)
  {
  }

  // ---------------------------------------------------------------------------
  // The filtered list

  /** The filter keeps the matching jobs in their original order. */
  lemma {:induction false} FilterIsSubsequence(jobs: seq<Job>, f: FilterState)
    ensures IsSubsequence(Filter(jobs, f), jobs)
  {
    if jobs != [] {
      FilterIsSubsequence(jobs[1..], f);
    }
  }

  /** A job is in the result exactly when it is in `jobs` and matches. */
  lemma {:induction false} FilterMembers(jobs: seq<Job>, f: FilterState, j: Job)
    ensures j in Filter(jobs, f) <==> j in jobs && MatchesFilters(j, f)
  {
    if jobs != [] {
      FilterMembers(jobs[1..], f, j);
      assert jobs == [jobs[0]] + jobs[1..];
    }
  }

  /** Each job occurs in the result as often as in `jobs` when it matches, and not at all otherwise. */
  lemma {:induction false} FilterMultiplicity(jobs: seq<Job>, f: FilterState, j: Job)
    ensures multiset(Filter(jobs, f))[j] == if MatchesFilters(j, f) then multiset(jobs)[j] else 0
  {
    if jobs != [] {
      var head, rest := jobs[0], jobs[1..];
      FilterMultiplicity(rest, f, j);
      assert jobs == [head] + rest;
      assert multiset(jobs) == multiset([head]) + multiset(rest);
      if MatchesFilters(head, f) {
        assert multiset(Filter(jobs, f)) == multiset([head]) + multiset(Filter(rest, f));
      } else {
        assert Filter(jobs, f) == Filter(rest, f);
      }
    }
  }

  /** Filtering a concatenation filters each part. */
  lemma {:induction false} FilterAppend(a: seq<Job>, b: seq<Job>, f: FilterState)
    ensures Filter(a + b, f) == Filter(a, f) + Filter(b, f)
  {
    if a == [] {
      assert a + b == b;
    } else {
      assert (a + b)[0] == a[0] && (a + b)[1..] == a[1..] + b;
      FilterAppend(a[1..], b, f);
      if MatchesFilters(a[0], f) {
        assert Filter(a + b, f) == [a[0]] + Filter(a[1..] + b, f);
      } else {
        assert Filter(a + b, f) == Filter(a[1..] + b, f);
      }
    }
  }

  /** When every job matches, the filtered list is the whole list, and conversely. */
  lemma {:induction false} FilterKeepsAll(jobs: seq<Job>, f: FilterState)
    ensures Filter(jobs, f) == jobs <==> forall j :: j in jobs ==> MatchesFilters(j, f)
  {
    if jobs != [] {
      FilterKeepsAll(jobs[1..], f);
      if !MatchesFilters(jobs[0], f) {
        assert |Filter(jobs, f)| < |jobs|;
      }
    }
  }

  /** No type, no location and a blank keyword: every job is listed, in its original order. */
  lemma UnrestrictedListsAll(jobs: seq<Job>, f: FilterState)
    requires f.activeType == AnyType && f.location == "" && AllWhitespace(f.keyword)
    ensures Filter(jobs, f) == jobs
  {
    FilterKeepsAll(jobs, f);
  }

  // ---------------------------------------------------------------------------
  // Tightening a filter

  /**
   * `tight` restricts at least as much as `loose`: it fixes the type when `loose`
   * does (to the same value), the location likewise, and its keyword contains
   * `loose`'s keyword.
   */
  predicate Narrows(tight: FilterState, loose: FilterState) {
    && (loose.activeType == AnyType || tight.activeType == loose.activeType)
    && (loose.location == "" || tight.location == loose.location)
    && Contains(NormalizedKeyword(tight.keyword), NormalizedKeyword(loose.keyword))
  }

  /** A job that passes a narrower filter passes the looser one. */
  lemma NarrowerMatchesLess(job: Job, tight: FilterState, loose: FilterState)
    requires Narrows(tight, loose) && MatchesFilters(job, tight)
    ensures MatchesFilters(job, loose)
  {
    ContainsTransitive(SearchText(job), NormalizedKeyword(tight.keyword), NormalizedKeyword(loose.keyword));
  }

  /** Picking a type chip, a location or typing a keyword only narrows the unrestricted filter. */
  lemma EverythingNarrowsUnrestricted(f: FilterState)
    ensures Narrows(f, Unrestricted)
  {
    ContainsSelfAndEmpty(NormalizedKeyword(f.keyword));
  }

  /** Tightening a filter never enlarges the result: the narrower list is a subsequence of the looser one. */
  lemma {:induction false} FilterMonotone(jobs: seq<Job>, tight: FilterState, loose: FilterState)
    requires Narrows(tight, loose)
    ensures IsSubsequence(Filter(jobs, tight), Filter(jobs, loose))
    ensures |Filter(jobs, tight)| <= |Filter(jobs, loose)|
  {
    if jobs != [] {
      FilterMonotone(jobs[1..], tight, loose);
      if MatchesFilters(jobs[0], tight) {
        NarrowerMatchesLess(jobs[0], tight, loose);
      }
    }
  }

  /** Every job a narrower filter lists, the looser filter lists too. */
  lemma FilterMonotoneMembers(jobs: seq<Job>, tight: FilterState, loose: FilterState, j: Job)
    requires Narrows(tight, loose) && j in Filter(jobs, tight)
    ensures j in Filter(jobs, loose)
  {
    FilterMembers(jobs, tight, j);
    NarrowerMatchesLess(j, tight, loose);
    FilterMembers(jobs, loose, j);
  }
}
