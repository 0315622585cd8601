/** The course browser's `filterCourses`: a text search over four fields, a level
    filter, and a stable sort by popularity or by id. */
module CoursesBrowser {
  import opened Wrappers
  import opened Seqs
  import opened Text
  import opened CourseCatalog
  import opened Sorting

  /** The two `sortBy` values that reorder the list. */
  datatype SortKey = Popular | Newest

  /** `sortBy === 'popular'`, `sortBy === 'newest'`; any other value sorts nothing. */
  function SortKeyOf(sortBy: string): (r: Option<SortKey>)
    ensures r == Some(Popular) <==> sortBy == "popular"
    ensures r == Some(Newest) <==> sortBy == "newest"
  {
    if sortBy == "popular" then Some(Popular)
    else if sortBy == "newest" then Some(Newest)
    else None
  }

  /** The comparator is negative: `a` must come before `b`.
      Popular: `b.students - a.students < 0`; newest: `a.id.localeCompare(b.id) < 0`. */
  predicate Precedes(key: SortKey, a: Course, b: Course) {
    match key
    case Popular => a.students > b.students
    case Newest => Less(a.id, b.id)
  }

  /** The comparator as a relation on courses. */
  function ByKey(key: SortKey): (Course, Course) -> bool {
    (a: Course, b: Course) => Precedes(key, a, b)
  }

  /** Both comparators obey the laws a sort needs. */
  lemma ComparatorLaws(key: SortKey)
    ensures StrictWeakOrder(ByKey(key))
  {
    forall a: Course, b: Course ensures !(Precedes(key, a, b) && Precedes(key, b, a)) {
      if key == Newest {
        LessAsymmetric(a.id, b.id);
      }
    }
    forall a: Course, b: Course, c: Course | Precedes(key, a, c)
      ensures Precedes(key, a, b) || Precedes(key, b, c)
    {
      if key == Newest && a.id != b.id && !Less(a.id, b.id) {
        LessTotal(a.id, b.id);
        LessTransitive(b.id, a.id, c.id);
      }
    }
  }

  /** The comparator ties exactly courses with equal student counts when sorting by
      popularity and courses with equal ids when sorting by id. */
  lemma TiedMeans(key: SortKey, a: Course, b: Course)
    ensures key == Popular ==> (Tied(ByKey(key), a, b) <==> a.students == b.students)
    ensures key == Newest ==> (Tied(ByKey(key), a, b) <==> a.id == b.id)
  {
    if key == Newest {
      if a.id == b.id {
        LessAsymmetric(a.id, a.id);
      } else {
        LessTotal(a.id, b.id);
      }
    }
  }

  /** The lower-cased query occurs in the lower-cased title, description, instructor or category. */
  predicate MatchesQuery(query: string, c: Course) {
    Includes(Lower(c.title), query) || Includes(Lower(c.description), query)
    || Includes(Lower(c.instructor), query) || Includes(Lower(c.category), query)
  }

  /** A course passes the search box: an empty box lets everything through. */
  predicate PassesSearch(searchQuery: string, c: Course) {
    searchQuery == [] || MatchesQuery(Lower(searchQuery), c)
  }

  /** A course passes the level filter: `'all'` lets everything through. */
  predicate PassesLevel(levelFilter: string, c: Course) {
    levelFilter == "all" || LevelName(c.level) == levelFilter
  }

  /** The search step of `filterCourses`. */
  function SearchStep(courses: seq<Course>, searchQuery: string): seq<Course> {
    if searchQuery == [] then courses
    else
      var query := Lower(searchQuery);
      Filter(courses, (c: Course) => MatchesQuery(query, c))
  }

  /** The level step of `filterCourses`. */
  function LevelStep(courses: seq<Course>, levelFilter: string): seq<Course> {
    if levelFilter == "all" then courses
    else Filter(courses, (c: Course) => LevelName(c.level) == levelFilter)
  }

  /** The list `filterCourses` returns. */
  function CourseView(courses: seq<Course>, searchQuery: string, levelFilter: string, sortBy: string): seq<Course> {
    var filtered := LevelStep(SearchStep(courses, searchQuery), levelFilter);
    match SortKeyOf(sortBy)
    case None => filtered
    case Some(key) => StableSort(filtered, ByKey(key))
  }

  /** `filterCourses(courses)` with the component's current `searchQuery`, `levelFilter` and `sortBy`. */
  method FilterCourses(courses: seq<Course>, searchQuery: string, levelFilter: string, sortBy: string)
    returns (filtered: seq<Course>)
    ensures filtered == CourseView(courses, searchQuery, levelFilter, sortBy)
  {
    filtered := courses;
    if searchQuery != [] {
      var query := Lower(searchQuery);
      filtered := Filter(filtered, (c: Course) => MatchesQuery(query, c));
    }
    if levelFilter != "all" {
      filtered := Filter(filtered, (c: Course) => LevelName(c.level) == levelFilter);
    }
    var key := SortKeyOf(sortBy);
    if key.Some? {
      var a := new Course[|filtered|](i requires 0 <= i < |filtered| => filtered[i]);
      assert a[..] == filtered;
      SortInPlace(a, ByKey(key.value));
      filtered := a[..];
    }
  }

  /** The search box as a filter predicate. */
  function SearchPredicate(searchQuery: string): Course -> bool {
    (c: Course) => PassesSearch(searchQuery, c)
  }

  /** The level filter as a filter predicate. */
  function LevelPredicate(levelFilter: string): Course -> bool {
    (c: Course) => PassesLevel(levelFilter, c)
  }

  /** Both filters together: a course passes both the search box and the level filter. */
  function Passes(searchQuery: string, levelFilter: string): Course -> bool {
    (c: Course) => PassesSearch(searchQuery, c) && PassesLevel(levelFilter, c)
  }

  /** The guarded search step filters by `PassesSearch`. */
  lemma SearchStepFilters(courses: seq<Course>, searchQuery: string)
    ensures SearchStep(courses, searchQuery) == Filter(courses, SearchPredicate(searchQuery))
  {
    if searchQuery == [] {
      FilterKeepsAll(courses, SearchPredicate(searchQuery));
    } else {
      var query := Lower(searchQuery);
      FilterCongruent(courses, (c: Course) => MatchesQuery(query, c), SearchPredicate(searchQuery));
    }
  }

  /** The guarded level step filters by `PassesLevel`. */
  lemma LevelStepFilters(courses: seq<Course>, levelFilter: string)
    ensures LevelStep(courses, levelFilter) == Filter(courses, LevelPredicate(levelFilter))
  {
    if levelFilter == "all" {
      FilterKeepsAll(courses, LevelPredicate(levelFilter));
    } else {
      FilterCongruent(courses, (c: Course) => LevelName(c.level) == levelFilter, LevelPredicate(levelFilter));
    }
  }

  /** Before sorting, the view is the input filtered by both conditions, in input order. */
  lemma FilteredBeforeSort(courses: seq<Course>, searchQuery: string, levelFilter: string)
    ensures LevelStep(SearchStep(courses, searchQuery), levelFilter) == Filter(courses, Passes(searchQuery, levelFilter))
  {
    var search, level := SearchPredicate(searchQuery), LevelPredicate(levelFilter);
    SearchStepFilters(courses, searchQuery);
    LevelStepFilters(Filter(courses, search), levelFilter);
    FilterCompose(courses, search, level, Passes(searchQuery, levelFilter));
  }

  /** The view holds exactly the courses that pass both filters, each as often as in the input. */
  lemma CourseViewContents(courses: seq<Course>, searchQuery: string, levelFilter: string, sortBy: string)
    ensures forall c :: multiset(CourseView(courses, searchQuery, levelFilter, sortBy))[c] ==
                        (if PassesSearch(searchQuery, c) && PassesLevel(levelFilter, c) then multiset(courses)[c] else 0)
  {
    var f := Filter(courses, Passes(searchQuery, levelFilter));
    FilteredBeforeSort(courses, searchQuery, levelFilter);
    FilterMultiset(courses, Passes(searchQuery, levelFilter));
    match SortKeyOf(sortBy)
    case None =>
    case Some(key) => StableSortPermutes(f, ByKey(key));
  }

  /** Sorting by popularity lists the courses from most to fewest students. */
  lemma PopularOrder(courses: seq<Course>, searchQuery: string, levelFilter: string)
    ensures var v := CourseView(courses, searchQuery, levelFilter, "popular");
      forall i, j :: 0 <= i < j < |v| ==> v[i].students >= v[j].students
  {
    ComparatorLaws(Popular);
    StableSortSorted(LevelStep(SearchStep(courses, searchQuery), levelFilter), ByKey(Popular));
  }

  /** Sorting by newest lists the courses in increasing id order. */
  lemma NewestOrder(courses: seq<Course>, searchQuery: string, levelFilter: string)
    ensures var v := CourseView(courses, searchQuery, levelFilter, "newest");
      forall i, j :: 0 <= i < j < |v| ==> !Less(v[j].id, v[i].id)
  {
    ComparatorLaws(Newest);
    StableSortSorted(LevelStep(SearchStep(courses, searchQuery), levelFilter), ByKey(Newest));
  }

  /** Courses with the same number of students keep their input order under `'popular'`. */
  lemma PopularStable(courses: seq<Course>, searchQuery: string, levelFilter: string, x: Course)
    ensures Filter(CourseView(courses, searchQuery, levelFilter, "popular"), TiedWith(ByKey(Popular), x))
      == Filter(Filter(courses, Passes(searchQuery, levelFilter)), TiedWith(ByKey(Popular), x))
  {
    FilteredBeforeSort(courses, searchQuery, levelFilter);
    ComparatorLaws(Popular);
    StableSortStable(Filter(courses, Passes(searchQuery, levelFilter)), ByKey(Popular), x);
  }

  /** Any other `sortBy` keeps the filtered courses in input order. */
  lemma UnsortedKeepsOrder(courses: seq<Course>, searchQuery: string, levelFilter: string, sortBy: string)
    requires sortBy != "popular" && sortBy != "newest"
    ensures CourseView(courses, searchQuery, levelFilter, sortBy) == Filter(courses, Passes(searchQuery, levelFilter))
  {
    FilteredBeforeSort(courses, searchQuery, levelFilter);
  }

  /** With an empty search and level `'all'`, every course is shown. */
  lemma NoFilterShowsAll(courses: seq<Course>, sortBy: string)
    ensures multiset(CourseView(courses, "", "all", sortBy)) == multiset(courses)
  {
    match SortKeyOf(sortBy)
    case None =>
    case Some(key) => StableSortPermutes(courses, ByKey(key));
  }

  /** The search ignores letter case. */
  lemma SearchIgnoresCase(courses: seq<Course>, q1: string, q2: string, levelFilter: string, sortBy: string)
    requires Lower(q1) == Lower(q2)
    ensures CourseView(courses, q1, levelFilter, sortBy) == CourseView(courses, q2, levelFilter, sortBy)
  {
  }

  /** Filtering the view again with the same settings changes nothing. */
  lemma CourseViewIdempotent(courses: seq<Course>, searchQuery: string, levelFilter: string, sortBy: string)
    ensures var v := CourseView(courses, searchQuery, levelFilter, sortBy);
      CourseView(v, searchQuery, levelFilter, sortBy) == v
  {
    var p := Passes(searchQuery, levelFilter);
    var v := CourseView(courses, searchQuery, levelFilter, sortBy);
    var f := Filter(courses, p);
    FilteredBeforeSort(courses, searchQuery, levelFilter);
    FilteredBeforeSort(v, searchQuery, levelFilter);
    CourseViewContents(courses, searchQuery, levelFilter, sortBy);
    forall x | x in v ensures p(x) {
      assert multiset(v)[x] > 0;
    }
    FilterKeepsAll(v, p);
    match SortKeyOf(sortBy)
    case None =>
    case Some(key) =>
      ComparatorLaws(key);
      StableSortSorted(f, ByKey(key));
      StableSortOfSorted(v, ByKey(key));
  }
}
