/** The course details page: the course looked up by the route's id, its lesson counts and
    its completion percentage. */
module CourseDetails {
  import opened Wrappers
  import opened Seqs
  import opened CourseCatalog
  import opened JsMath

  /** The courses with a given id. */
  function HasId(courseId: string): Course -> bool {
    (c: Course) => c.id == courseId
  }

  /** `coursesData.find(c => c.id === courseId)`; `None` is the "Course Not Found" page. */
  function FindCourse(courses: seq<Course>, courseId: string): Option<Course> {
    Find(courses, HasId(courseId))
  }

  /** The page shows a course exactly when some course has the id, and then it shows the
      first course with that id. */
  lemma FindCourseSpec(courses: seq<Course>, courseId: string)
    ensures FindCourse(courses, courseId).None? <==> courseId !in Ids(courses)
    ensures FindCourse(courses, courseId).Some? ==>
      var c := FindCourse(courses, courseId).value;
      c.id == courseId && exists i :: 0 <= i < |courses| && courses[i] == c && forall j :: 0 <= j < i ==> courses[j].id != courseId
  {
    var r := FindCourse(courses, courseId);
    var ids := Ids(courses);
    if courseId in ids {
      var i :| 0 <= i < |ids| && ids[i] == courseId;
      assert HasId(courseId)(courses[i]);
    }
    if r.Some? {
      var i :| 0 <= i < |courses| && courses[i] == r.value && HasId(courseId)(courses[i])
               && forall j :: 0 <= j < i ==> !HasId(courseId)(courses[j]);
      assert ids[i] == courseId;
      forall j | 0 <= j < i ensures courses[j].id != courseId {
        assert !HasId(courseId)(courses[j]);
      }
    }
  }

  /** `lesson.completed` is truthy: an absent flag counts as not completed. */
  function IsCompleted(lesson: Lesson): bool {
    lesson.completed == Some(true)
  }

  /** `modules.reduce((acc, module) => acc + module.lessons.length, 0)`. */
  function TotalLessons(modules: seq<CourseModule>): nat {
    if modules == [] then 0 else |modules[0].lessons| + TotalLessons(modules[1..])
  }

  /** `modules.reduce((acc, module) => acc + module.lessons.filter(lesson => lesson.completed).length, 0)`. */
  function CompletedLessons(modules: seq<CourseModule>): nat {
    if modules == [] then 0 else |Filter(modules[0].lessons, IsCompleted)| + CompletedLessons(modules[1..])
  }

  /** Every lesson of every module is completed. */
  predicate AllCompleted(modules: seq<CourseModule>) {
    forall m, k :: 0 <= m < |modules| && 0 <= k < |modules[m].lessons| ==> IsCompleted(modules[m].lessons[k])
  }

  /** No more lessons are completed than there are, and all are completed exactly when
      every lesson of every module is. */
  lemma {:induction false} CompletedAtMostTotal(modules: seq<CourseModule>)
    ensures CompletedLessons(modules) <= TotalLessons(modules)
    ensures CompletedLessons(modules) == TotalLessons(modules) <==> AllCompleted(modules)
    decreases |modules|
  {
    if modules != [] {
      var first, rest := modules[0], modules[1..];
      CompletedAtMostTotal(rest);
      FilterFullLength(first.lessons, IsCompleted);
      assert AllCompleted(modules) <==> (forall k :: 0 <= k < |first.lessons| ==> IsCompleted(first.lessons[k])) && AllCompleted(rest) by {
        if (forall k :: 0 <= k < |first.lessons| ==> IsCompleted(first.lessons[k])) && AllCompleted(rest) {
          forall m, k | 0 <= m < |modules| && 0 <= k < |modules[m].lessons| ensures IsCompleted(modules[m].lessons[k]) {
            if m > 0 {
              assert modules[m] == rest[m - 1];
            }
          }
        }
        if AllCompleted(modules) {
          forall m, k | 0 <= m < |rest| && 0 <= k < |rest[m].lessons| ensures IsCompleted(rest[m].lessons[k]) {
            assert rest[m] == modules[m + 1];
          }
        }
      }
    }
  }

  /** `Math.round(completionPercentage)` with `completionPercentage` taken as the exact ratio
      `completed / total * 100`, and 0 when there are no lessons. */
  function DisplayedPercentage(completed: nat, total: nat): int {
    if total > 0 then RoundDiv(100 * completed, total) else 0
  }

  /** The shown percentage lies in 0..100, is 100 when every lesson is completed and 0 when none is. */
  lemma DisplayedPercentageBounds(completed: nat, total: nat)
    requires completed <= total
    ensures 0 <= DisplayedPercentage(completed, total) <= 100
    ensures total > 0 && completed == total ==> DisplayedPercentage(completed, total) == 100
    ensures completed == 0 ==> DisplayedPercentage(completed, total) == 0
  {
    if total > 0 {
      var scaled := 100 * completed;
      MulMonotone(100, completed, total);
      assert 0 * total == 0 && scaled <= 100 * total;
      RoundDivBounds(scaled, total, 0, 100);
      if completed == total {
        assert scaled == 100 * total;
        RoundDivBounds(scaled, total, 100, 100);
      }
      if completed == 0 {
        assert scaled == 0;
        RoundDivBounds(scaled, total, 0, 0);
      }
    }
  }

  /** The number of completed lessons among three. */
  lemma CompletedOfThree(l: seq<Lesson>)
    requires |l| == 3
    ensures |Filter(l, IsCompleted)| == (if IsCompleted(l[0]) then 1 else 0) + (if IsCompleted(l[1]) then 1 else 0)
                                        + (if IsCompleted(l[2]) then 1 else 0)
  {
    assert l == [l[0]] + [l[1]] + [l[2]];
    FilterAppend([l[0]] + [l[1]], [l[2]], IsCompleted);
    FilterAppend([l[0]], [l[1]], IsCompleted);
    FilterSingleton(l[0], IsCompleted);
    FilterSingleton(l[1], IsCompleted);
    FilterSingleton(l[2], IsCompleted);
  }

  /** The web development course is found under its id. */
  lemma WebDevFound()
    ensures FindCourse(CoursesData, "web-dev-101") == Some(WebDev101)
  {
  }

  /** The web development course's page: 12 lessons, 5 of them completed, shown as 42%
      (its stored `progress` of 68 is a separate number). */
  lemma WebDevProgress()
    ensures TotalLessons(WebDev101.modules) == 12 && CompletedLessons(WebDev101.modules) == 5
    ensures DisplayedPercentage(5, 12) == 42
  {
    var ms := WebDev101.modules;
    assert ms[1..][1..][1..][1..] == [];
    CompletedOfThree(ms[0].lessons);
    CompletedOfThree(ms[1].lessons);
    CompletedOfThree(ms[2].lessons);
    CompletedOfThree(ms[3].lessons);
  }
}
