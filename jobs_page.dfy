/** The job search page of `frontend/scripts/jobs.js`: the filters the page
    applies to the loaded jobs, the sort orders, the page of twelve jobs
    shown, the window of page buttons, and the page state those operations
    update. A job is the record the page reads, with its fields as the page
    names them; a missing or `null` field is `None`. Dates are milliseconds
    since the epoch and the clock reading is a parameter. */
module JobsPage {
  import opened Wrappers
  import opened Text
  import opened Sorting

  const JobsPerPage: int := 12
  const MaxVisible: int := 5
  const DayMs: int := 24 * 60 * 60 * 1000

  datatype Job = Job(
    title: Option<string>, companyName: Option<string>, description: Option<string>,
    requiredSkills: Option<seq<string>>, location: Option<string>, jobType: Option<string>,
    experienceRequired: Option<real>, salaryMin: Option<real>, salaryMax: Option<real>,
    postedAt: Option<int>, matchScore: Option<real>)

  /** `jobsState.filters`; the salary bounds are None when unset. */
  datatype Filters = Filters(
    search: string, location: seq<string>, locationCity: string, jobType: seq<string>,
    experience: seq<string>, salaryMin: Option<real>, salaryMax: Option<real>, postedDate: string)

  const NoFilters := Filters("", [], "", [], [], None, None, "all")

  /** A JavaScript number used as a condition: `null`, `undefined` and 0 are false. */
  predicate TruthyNum(x: Option<real>) { x.Some? && x.value != 0.0 }

  /** `x || fallback` on a number. */
  function OrNum(x: Option<real>, fallback: real): real {
    if TruthyNum(x) then x.value else fallback
  }

  // ---------------------------------------------------------------- the filters

  datatype Stage = SearchStage | LocationStage | CityStage | TypeStage
                 | ExperienceStage | SalaryMinStage | SalaryMaxStage | PostedStage

  /** The filters in the order `applyFilters` runs them. */
  const AllStages: seq<Stage> := [SearchStage, LocationStage, CityStage, TypeStage,
                                  ExperienceStage, SalaryMinStage, SalaryMaxStage, PostedStage]

  /** `field?.toLowerCase().includes(q)`: an absent field never matches. */
  predicate FieldHas(field: Option<string>, q: string) {
    field.Some? && Contains(LowerStr(field.value), q)
  }

  predicate SearchMatch(job: Job, search: string) {
    var q := LowerStr(search);
    || FieldHas(job.title, q) || FieldHas(job.companyName, q) || FieldHas(job.description, q)
    || (job.requiredSkills.Some? &&
        exists k :: 0 <= k < |job.requiredSkills.value| && Contains(LowerStr(job.requiredSkills.value[k]), q))
  }

  /** One location checkbox against the lower-cased location. */
  predicate LocationCategory(location: string, category: string) {
    if category == "remote" then Contains(location, "remote")
    else if category == "hybrid" then Contains(location, "hybrid")
    else if category == "onsite" then !Contains(location, "remote") && !Contains(location, "hybrid")
    else false
  }

  predicate LocationMatch(job: Job, categories: seq<string>) {
    var location := LowerStr(job.location.GetOr(""));
    exists k :: 0 <= k < |categories| && LocationCategory(location, categories[k])
  }

  /** One experience checkbox against the required years. */
  predicate ExperienceBand(years: real, level: string) {
    if level == "entry" then years <= 2.0
    else if level == "mid" then 2.0 < years <= 5.0
    else if level == "senior" then years > 5.0
    else false
  }

  predicate ExperienceMatch(job: Job, levels: seq<string>) {
    var years := OrNum(job.experienceRequired, 0.0);
    exists k :: 0 <= k < |levels| && ExperienceBand(years, levels[k])
  }

  /** `(job.salary_max || job.salary_min || 0) >= salaryMin`. */
  predicate SalaryMinMatch(job: Job, salaryMin: real) {
    OrNum(job.salaryMax, OrNum(job.salaryMin, 0.0)) >= salaryMin
  }

  /** `(job.salary_min || job.salary_max || Infinity) <= salaryMax`: a job with
      neither salary never passes. */
  predicate SalaryMaxMatch(job: Job, salaryMax: real) {
    if TruthyNum(job.salaryMin) then job.salaryMin.value <= salaryMax
    else if TruthyNum(job.salaryMax) then job.salaryMax.value <= salaryMax
    else false
  }

  /** The look-back of the posted-date radio buttons, in days. */
  function CutoffDays(postedDate: string): (r: Option<int>)
    ensures r.Some? ==> r.value in {1, 7, 30}
  {
    if postedDate == "24h" then Some(1)
    else if postedDate == "7d" then Some(7)
    else if postedDate == "30d" then Some(30)
    else None
  }

  /** Whether `applyFilters` runs a stage: a non-empty text or list, a truthy
      number, a posted-date choice other than "all" with a known look-back. */
  predicate Enabled(f: Filters, st: Stage) {
    match st
    case SearchStage => |f.search| > 0
    case LocationStage => |f.location| > 0
    case CityStage => |f.locationCity| > 0
    case TypeStage => |f.jobType| > 0
    case ExperienceStage => |f.experience| > 0
    case SalaryMinStage => TruthyNum(f.salaryMin)
    case SalaryMaxStage => TruthyNum(f.salaryMax)
    case PostedStage => f.postedDate != "all" && CutoffDays(f.postedDate).Some?
  }

  /** The arrow function a running stage filters with. */
  predicate StageMatch(job: Job, f: Filters, now: int, st: Stage) {
    match st
    case SearchStage => SearchMatch(job, f.search)
    case LocationStage => LocationMatch(job, f.location)
    case CityStage => FieldHas(job.location, LowerStr(f.locationCity))
    case TypeStage => job.jobType.Some? && LowerStr(job.jobType.value) in f.jobType
    case ExperienceStage => ExperienceMatch(job, f.experience)
    case SalaryMinStage => f.salaryMin.Some? && SalaryMinMatch(job, f.salaryMin.value)
    case SalaryMaxStage => f.salaryMax.Some? && SalaryMaxMatch(job, f.salaryMax.value)
    case PostedStage =>
      CutoffDays(f.postedDate).Some? && job.postedAt.Some?
      && job.postedAt.value >= now - CutoffDays(f.postedDate).value * DayMs
  }

  /** A job survives a stage when the stage does not run or the job matches. */
  predicate StagePasses(job: Job, f: Filters, now: int, st: Stage) {
    !Enabled(f, st) || StageMatch(job, f, now, st)
  }

  predicate PassesStages(job: Job, f: Filters, now: int, stages: seq<Stage>) {
    forall i :: 0 <= i < |stages| ==> StagePasses(job, f, now, stages[i])
  }

  /** The jobs that survive every stage in `stages`, in their order. */
  function Keep(xs: seq<Job>, f: Filters, now: int, stages: seq<Stage>): (r: seq<Job>)
    ensures |r| <= |xs|
    ensures forall j :: j in r ==> j in xs && PassesStages(j, f, now, stages)
    decreases |xs|
  {
    if |xs| == 0 then []
    else if PassesStages(xs[0], f, now, stages) then [xs[0]] + Keep(xs[1..], f, now, stages)
    else Keep(xs[1..], f, now, stages)
  }

  /** What `applyFilters` keeps of the loaded jobs. */
  function FilterJobs(allJobs: seq<Job>, f: Filters, now: int): (r: seq<Job>)
    ensures |r| <= |allJobs|
    ensures forall j :: j in r <==> j in allJobs && PassesStages(j, f, now, AllStages)
  {
    KeepIsSubsequence(allJobs, f, now, AllStages);
    Keep(allJobs, f, now, AllStages)
  }

  /** One `filtered = filtered.filter(...)` step, run only when its guard holds. */
  function Guarded(xs: seq<Job>, f: Filters, now: int, st: Stage): seq<Job> {
    if Enabled(f, st) then Keep(xs, f, now, [st]) else xs
  }

  lemma {:induction false} KeepNothing(xs: seq<Job>, f: Filters, now: int)
    ensures Keep(xs, f, now, []) == xs
    decreases |xs|
  {
    if |xs| > 0 {
      KeepNothing(xs[1..], f, now);
      assert xs == [xs[0]] + xs[1..];
    }
  }

  /** Running one more stage on the survivors of the earlier ones is filtering
      by all of them at once. */
  lemma {:induction false} GuardedStep(xs: seq<Job>, f: Filters, now: int, stages: seq<Stage>, st: Stage)
    ensures Guarded(Keep(xs, f, now, stages), f, now, st) == Keep(xs, f, now, stages + [st])
    decreases |xs|
  {
    var ext := stages + [st];
    if |xs| > 0 {
      GuardedStep(xs[1..], f, now, stages, st);
      assert PassesStages(xs[0], f, now, ext) <==>
             PassesStages(xs[0], f, now, stages) && StagePasses(xs[0], f, now, st) by {
        assert forall i :: 0 <= i < |stages| ==> ext[i] == stages[i];
        assert ext[|stages|] == st;
      }
      assert PassesStages(xs[0], f, now, [st]) <==> StagePasses(xs[0], f, now, st) by {
        assert [st][0] == st;
      }
      if Enabled(f, st) {
        var head := Keep(xs, f, now, stages);
        if PassesStages(xs[0], f, now, stages) {
          assert head == [xs[0]] + Keep(xs[1..], f, now, stages);
          assert head[0] == xs[0] && head[1..] == Keep(xs[1..], f, now, stages);
        }
      } else {
        assert forall j :: PassesStages(j, f, now, ext) <==> PassesStages(j, f, now, stages) by {
          forall j ensures PassesStages(j, f, now, ext) <==> PassesStages(j, f, now, stages) {
            assert forall i :: 0 <= i < |stages| ==> ext[i] == stages[i];
            assert ext[|stages|] == st;
          }
        }
        KeepSameTest(xs, f, now, stages, ext);
      }
    }
  }

  /** Two stage lists that every job passes alike keep the same jobs. */
  lemma {:induction false} KeepSameTest(xs: seq<Job>, f: Filters, now: int, a: seq<Stage>, b: seq<Stage>)
    requires forall j :: PassesStages(j, f, now, a) <==> PassesStages(j, f, now, b)
    ensures Keep(xs, f, now, a) == Keep(xs, f, now, b)
    decreases |xs|
  {
    if |xs| > 0 {
      KeepSameTest(xs[1..], f, now, a, b);
    }
  }

  /** Keeping the positions a mask marks, in order. */
  function Select<T>(xs: seq<T>, mask: seq<bool>): seq<T>
    requires |mask| == |xs|
    decreases |xs|
  {
    if |xs| == 0 then [] else (if mask[0] then [xs[0]] else []) + Select(xs[1..], mask[1..])
  }

  ghost predicate IsSubsequence<T(!new)>(a: seq<T>, b: seq<T>) {
    exists mask: seq<bool> :: |mask| == |b| && Select(b, mask) == a
  }

  function PassMask(xs: seq<Job>, f: Filters, now: int, stages: seq<Stage>): (m: seq<bool>)
    ensures |m| == |xs|
    decreases |xs|
  {
    if |xs| == 0 then [] else [PassesStages(xs[0], f, now, stages)] + PassMask(xs[1..], f, now, stages)
  }

  /** Filtering only removes jobs: the survivors are the jobs that pass, in
      their original order. */
  lemma {:induction false} KeepIsSubsequence(xs: seq<Job>, f: Filters, now: int, stages: seq<Stage>)
    ensures Select(xs, PassMask(xs, f, now, stages)) == Keep(xs, f, now, stages)
    ensures IsSubsequence(Keep(xs, f, now, stages), xs)
    ensures forall j :: j in xs && PassesStages(j, f, now, stages) ==> j in Keep(xs, f, now, stages)
    decreases |xs|
  {
    if |xs| > 0 {
      KeepIsSubsequence(xs[1..], f, now, stages);
      assert PassMask(xs, f, now, stages)[1..] == PassMask(xs[1..], f, now, stages);
      assert forall j :: j in xs ==> j == xs[0] || j in xs[1..];
    }
  }

  // ---------------------------------------------------------------- the sort orders

  /** `new Date(posted_at)`; a job without a date counts as posted at the epoch. */
  function DateKey(job: Job): real { job.postedAt.GetOr(0) as real }
  function SalaryHighKey(job: Job): real { OrNum(job.salaryMax, 0.0) }
  /** Ascending minimum salary is descending negated minimum salary. */
  function SalaryLowKey(job: Job): real { -OrNum(job.salaryMin, 0.0) }
  function MatchKey(job: Job): real { OrNum(job.matchScore, 0.0) }

  /** The key of a sort choice; None for "relevance" and any other value. */
  function SortKey(sortBy: string): Option<Job -> real> {
    if sortBy == "date" then Some(DateKey)
    else if sortBy == "salary_high" then Some(SalaryHighKey)
    else if sortBy == "salary_low" then Some(SalaryLowKey)
    else if sortBy == "match_score" then Some(MatchKey)
    else None
  }

  /** The stable sorts of `applySort`. */
  function SortJobs(xs: seq<Job>, sortBy: string): seq<Job> {
    match SortKey(sortBy)
    case Some(key) => SortDesc(xs, key)
    case None => xs
  }

  /** Every choice reorders without adding or losing jobs; a keyed choice
      orders by its key, and "relevance" keeps the order. */
  lemma SortJobsPermutation(xs: seq<Job>, sortBy: string)
    ensures multiset(SortJobs(xs, sortBy)) == multiset(xs) && |SortJobs(xs, sortBy)| == |xs|
    ensures SortKey(sortBy).Some? ==> SortedDesc(SortJobs(xs, sortBy), SortKey(sortBy).value)
    ensures SortKey(sortBy).None? ==> SortJobs(xs, sortBy) == xs
  {
    if SortKey(sortBy).Some? {
      SortDescSortedPermutation(xs, SortKey(sortBy).value);
    }
  }

  // ---------------------------------------------------------------- pages

  /** `Math.ceil(n / jobsPerPage)`. */
  function TotalPages(n: nat): (r: nat)
    ensures r * JobsPerPage >= n
    ensures r > 0 ==> (r - 1) * JobsPerPage < n
  {
    (n + JobsPerPage - 1) / JobsPerPage
  }

  /** The jobs `renderJobs` shows on page `page`. */
  function PageSlice(jobs: seq<Job>, page: int): seq<Job> {
    JsSlice(jobs, (page - 1) * JobsPerPage, (page - 1) * JobsPerPage + JobsPerPage)
  }

  /** A page holds at most twelve consecutive jobs, and a page within the page
      count is never empty. */
  lemma PageSliceBounds(jobs: seq<Job>, page: int)
    requires page >= 1
    ensures |PageSlice(jobs, page)| <= JobsPerPage
    ensures (page - 1) * JobsPerPage < |jobs| ==>
      PageSlice(jobs, page) == jobs[(page - 1) * JobsPerPage..Min((page - 1) * JobsPerPage + JobsPerPage, |jobs|)]
    ensures |PageSlice(jobs, page)| > 0 <==> page <= TotalPages(|jobs|)
  {
  }

  function Min(a: int, b: int): int { if a < b then a else b }
  function Max(a: int, b: int): int { if a > b then a else b }

  /** The first and last numbered buttons of `renderPagination`. */
  function PageWindow(current: int, totalPages: int): (int, int) {
    var start := Max(1, current - MaxVisible / 2);
    var end := Min(totalPages, start + MaxVisible - 1);
    if end - start < MaxVisible - 1 then (Max(1, end - MaxVisible + 1), end) else (start, end)
  }

  /** The window holds the current page and five buttons, or every page when
      there are fewer. */
  lemma PageWindowBounds(current: int, totalPages: int)
    requires 1 <= current <= totalPages
    ensures var (start, end) := PageWindow(current, totalPages);
      1 <= start <= current <= end <= totalPages && end - start + 1 == Min(MaxVisible, totalPages)
  {
  }

  /** The body of `applyFilters` up to the sort: each stage narrows the jobs
      that survived the earlier ones when its guard holds. */
  method RunFilters(allJobs: seq<Job>, f: Filters, now: int) returns (filtered: seq<Job>)
    ensures filtered == FilterJobs(allJobs, f, now)
  {
    filtered := allJobs;
    ghost var done: seq<Stage> := [];
    KeepNothing(allJobs, f, now);
    GuardedStep(allJobs, f, now, done, SearchStage);
    filtered := Guarded(filtered, f, now, SearchStage);
    done := done + [SearchStage];
    GuardedStep(allJobs, f, now, done, LocationStage);
    filtered := Guarded(filtered, f, now, LocationStage);
    done := done + [LocationStage];
    GuardedStep(allJobs, f, now, done, CityStage);
    filtered := Guarded(filtered, f, now, CityStage);
    done := done + [CityStage];
    GuardedStep(allJobs, f, now, done, TypeStage);
    filtered := Guarded(filtered, f, now, TypeStage);
    done := done + [TypeStage];
    GuardedStep(allJobs, f, now, done, ExperienceStage);
    filtered := Guarded(filtered, f, now, ExperienceStage);
    done := done + [ExperienceStage];
    GuardedStep(allJobs, f, now, done, SalaryMinStage);
    filtered := Guarded(filtered, f, now, SalaryMinStage);
    done := done + [SalaryMinStage];
    GuardedStep(allJobs, f, now, done, SalaryMaxStage);
    filtered := Guarded(filtered, f, now, SalaryMaxStage);
    done := done + [SalaryMaxStage];
    GuardedStep(allJobs, f, now, done, PostedStage);
    filtered := Guarded(filtered, f, now, PostedStage);
    done := done + [PostedStage];
    assert done == AllStages;
  }

  // ---------------------------------------------------------------- the page state

  class JobsState {
    var allJobs: seq<Job>
    var filteredJobs: seq<Job>
    var currentPage: int
    var filters: Filters
    var sortBy: string

    /** The current page is 1 or a page that exists. */
    ghost predicate Valid()
      reads this
    {
      currentPage == 1 || 1 <= currentPage <= TotalPages(|filteredJobs|)
    }

    constructor ()
      ensures Valid()
      ensures allJobs == [] && filteredJobs == [] && currentPage == 1
      ensures filters == NoFilters && sortBy == "relevance"
    {
      allJobs := [];
      filteredJobs := [];
      currentPage := 1;
      filters := NoFilters;
      sortBy := "relevance";
    }

    /** The jobs on the current page. */
    function ShownJobs(): (r: seq<Job>)
      reads this
      requires Valid()
      ensures |r| <= JobsPerPage
    {
      PageSliceBounds(filteredJobs, currentPage);
      PageSlice(filteredJobs, currentPage)
    }

    /** `applySort`: `selected` is the sort menu's value (None without the menu). */
    method ApplySort(selected: Option<string>)
      requires Valid()
      modifies this
      ensures Valid()
      ensures sortBy == (if selected.Some? && |selected.value| > 0 then selected.value else "relevance")
      ensures filteredJobs == SortJobs(old(filteredJobs), sortBy)
      ensures multiset(filteredJobs) == multiset(old(filteredJobs))
      ensures allJobs == old(allJobs) && filters == old(filters) && currentPage == old(currentPage)
    {
      sortBy := if selected.Some? && |selected.value| > 0 then selected.value else "relevance";
      SortJobsPermutation(filteredJobs, sortBy);
      filteredJobs := SortJobs(filteredJobs, sortBy);
    }

    /** `applyFilters`: the stages in order, back to page 1, then `applySort`
        with the sort menu's value. */
    method ApplyFilters(now: int, selected: Option<string>)
      requires Valid()
      modifies this
      ensures Valid()
      ensures currentPage == 1
      ensures filteredJobs == SortJobs(FilterJobs(allJobs, filters, now), sortBy)
      ensures sortBy == (if selected.Some? && |selected.value| > 0 then selected.value else "relevance")
      ensures allJobs == old(allJobs) && filters == old(filters)
    {
      var filtered := RunFilters(allJobs, filters, now);
      filteredJobs := filtered;
      currentPage := 1;
      ApplySort(selected);
    }

    /** The filter collector of `window.applyFilters` as intended: the seven
        filters read from the form replace the stored ones, the search text
        (set only by the search box) is kept, then the filtering body of
        `ApplyFilters` runs once. */
    method CollectFilters(location: seq<string>, locationCity: string, jobType: seq<string>,
                          experience: seq<string>, salaryMin: Option<real>, salaryMax: Option<real>,
                          postedDate: string, now: int, selected: Option<string>)
      requires Valid()
      modifies this
      ensures Valid()
      ensures filters == Filters(old(filters).search, location, locationCity, jobType,
                                 experience, salaryMin, salaryMax, postedDate)
      ensures allJobs == old(allJobs) && currentPage == 1
      ensures filteredJobs == SortJobs(FilterJobs(allJobs, filters, now), sortBy)
      ensures multiset(filteredJobs) == multiset(FilterJobs(allJobs, filters, now))
      ensures sortBy == (if selected.Some? && |selected.value| > 0 then selected.value else "relevance")
    {
      filters := Filters(filters.search, location, locationCity, jobType,
                         experience, salaryMin, salaryMax, postedDate);
      ApplyFilters(now, selected);
      SortJobsPermutation(FilterJobs(allJobs, filters, now), sortBy);
    }

    /** `goToPage`: pages outside 1..total are ignored. */
    method GoToPage(page: int)
      requires Valid()
      modifies this
      ensures Valid()
      ensures currentPage == (if 1 <= page <= TotalPages(|filteredJobs|) then page else old(currentPage))
      ensures filteredJobs == old(filteredJobs) && allJobs == old(allJobs)
      ensures filters == old(filters) && sortBy == old(sortBy)
    {
      if page < 1 || page > TotalPages(|filteredJobs|) {
        return;
      }
      currentPage := page;
    }
  }

  // ---------------------------------------------------------------- the global binding

  /** What the global name `applyFilters` is bound to: the filtering body
      declared at the top level, or the collector assigned to
      `window.applyFilters`. */
  datatype Binding = FilterBody | Collector

  /** In a classic script (which the inline `onclick` handlers need) a
      top-level function declaration is a property of `window`, so the later
      assignment to `window.applyFilters` replaces it. */
  const GlobalApplyFilters: Binding := Collector

  /** A call of the global `applyFilters` with `depth` stack frames left:
      the filtering body yields the sorted survivors of the stored filters;
      the collector stores the form's filters and calls the global name
      again. None is the exhausted stack, the RangeError that `loadJobs`
      catches and reports as "Failed to load jobs". */
  function CallApplyFilters(global: Binding, allJobs: seq<Job>, filters: Filters, collected: Filters,
                            now: int, sortBy: string, depth: nat): (r: Option<seq<Job>>)
    ensures r.Some? ==> forall j :: j in r.value ==> j in allJobs
    decreases depth
  {
    if depth == 0 then None
    else match global
      case FilterBody =>
        var kept := FilterJobs(allJobs, filters, now);
        SortJobsPermutation(kept, sortBy);
        assert forall j :: j in SortJobs(kept, sortBy) ==> j in multiset(kept);
        Some(SortJobs(kept, sortBy))
      case Collector => CallApplyFilters(global, allJobs, collected, collected, now, sortBy, depth - 1)
  }

  /** As written, a call of `applyFilters` never yields jobs, however deep
      the stack: the collector only ever calls itself. */
  lemma {:induction false} CollectorNeverReturns(allJobs: seq<Job>, filters: Filters, collected: Filters,
                                                 now: int, sortBy: string, depth: nat)
    ensures CallApplyFilters(GlobalApplyFilters, allJobs, filters, collected, now, sortBy, depth).None?
    decreases depth
  {
    if depth > 0 {
      CollectorNeverReturns(allJobs, collected, collected, now, sortBy, depth - 1);
    }
  }

  /** Bound to the filtering body, one frame is enough for the call to yield
      the sorted survivors, the result `JobsState.CollectFilters` computes. */
  lemma FilterBodyReturns(allJobs: seq<Job>, filters: Filters, collected: Filters,
                          now: int, sortBy: string, depth: nat)
    requires depth >= 1
    ensures CallApplyFilters(FilterBody, allJobs, filters, collected, now, sortBy, depth)
            == Some(SortJobs(FilterJobs(allJobs, filters, now), sortBy))
  {
  }

  // ---------------------------------------------------------------- filter facts

  /** The experience checkboxes split the years into three bands. */
  lemma ExperienceBandsPartition(years: real)
    ensures ExperienceBand(years, "entry") != ExperienceBand(years, "mid") || ExperienceBand(years, "senior")
    ensures ExperienceBand(years, "senior") ==> !ExperienceBand(years, "entry") && !ExperienceBand(years, "mid")
    ensures ExperienceBand(years, "entry") || ExperienceBand(years, "mid") || ExperienceBand(years, "senior")
  {
  }

  /** "onsite" is exactly neither "remote" nor "hybrid". */
  lemma OnsiteIsTheRest(location: string)
    ensures LocationCategory(location, "onsite") <==>
      !LocationCategory(location, "remote") && !LocationCategory(location, "hybrid")
  {
  }
}
