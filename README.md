# Campus Bridge dashboard logic in Dafny

Campus Bridge is a React dashboard for students, faculty and administrators. Most of it is
markup. This project models the logic behind the markup and proves what that logic promises:

- the course browser's search, level filter and stable sorts;
- the resume form's list updaters and the comma-separated skills box;
- the mentor filter and the weekly time-slot generator;
- the graduation-readiness expand/collapse list, its average and colour bands;
- the AI assistant's transcript and keyword classifier;
- the course page's lesson counts and percentage;
- the project tracker's toggle, task counts, badges and assignee lookup;
- the role-based sidebar menu and its active-link test;
- the login page's validation, routing and demo credentials;
- the leaderboard's rank-change column, badge cell and initials;
- the interview-readiness bands;
- the knowledge maps (three dependency graphs) and the lines drawn between their nodes;
- the coding-practice slices of the question list;
- the static course catalogue, its category buckets and roadmaps.

The project has one module per source file, plus shared modules:

- `Wrappers` holds `Option`.
- `Seqs` holds JavaScript's `filter`, `find`, `map` and `slice(0, n)` with their laws.
- `Text` holds ASCII lower- and upper-casing, `includes`, `startsWith`, JavaScript's `trim`, `split`, `join`, capitalisation and lexicographic order.
- `Sorting` holds a stable insertion sort, with an in-place array version proved equal to the functional one.
- `JsMath` holds `Math.round` of a ratio.
- `UserRoles` holds the three roles.

React state cells updated by handlers are class fields updated by methods:

- `ResumeBuilder.ResumeForm`
- `MentorMatchmaking.MentorPanel`
- `GraduationReadiness.ReadinessPanel`
- `AIAssistant.Chat`
- `ProjectTracker.Tracker`
- `Login.LoginForm`

A `setTimeout` callback is a second method that consumes a queue of the values the timer captured.
`filterCourses`, which reassigns a local list and sorts it in place, is a method whose
result is proved equal to a specification function. The other code consists of filter/map
expressions, switches and constants, and is written as functions and constants with lemmas.

## Model

| member | source | states |
|---|---|---|
| Seqs.Map | src/components/Leaderboard.tsx:228 | `map(f)` keeps the length; its i-th element is f of the i-th input element (`MapAt`) |
| Seqs.Filter | src/components/CoursesBrowser.tsx:23-33 | `filter` keeps at most as many elements, and every kept element satisfies the predicate |
| Seqs.FilterMembers | src/components/CoursesBrowser.tsx:23-33 | an element is kept exactly when it is in the input and satisfies the predicate |
| Seqs.FilterMultiset | src/components/CoursesBrowser.tsx:23-33 | each kept element occurs as often as in the input, and every other element occurs zero times |
| Seqs.FilterIdempotent | src/components/CoursesBrowser.tsx:23-33 | filtering twice with one predicate is filtering once |
| Seqs.FilterCompose | src/components/CoursesBrowser.tsx:23-34 | two filters in a row are one filter by the conjunction |
| Seqs.FilterNarrows | src/components/MentorMatchmaking.tsx:157-163 | a filter by a stronger predicate is the weaker filter's result filtered again |
| Seqs.FilterDistinct | src/components/GraduationReadiness.tsx:34 | filtering a list without duplicates gives a list without duplicates |
| Seqs.FilterAppend | src/components/GraduationReadiness.tsx:34-35 | filtering distributes over concatenation |
| Seqs.FilterKeepsAll | src/components/Sidebar.tsx:120 | a filter whose predicate holds of every element returns its input |
| Seqs.FilterDropsAll | src/components/CodingPractice.tsx:173 | a filter whose predicate holds of no element returns the empty list |
| Seqs.FilterFullLength | src/components/CourseDetails.tsx:52-53 | the filter keeps the whole length exactly when every element satisfies the predicate |
| Seqs.Find | src/components/CourseDetails.tsx:16 | `find` returns nothing exactly when no element satisfies the predicate; otherwise it returns the first element that does |
| Seqs.Take | src/components/CodingPractice.tsx:157 | `slice(0, n)` has length min(n, length) and agrees with the input position by position |
| Seqs.MapAt | src/components/Leaderboard.tsx:228 | the i-th element of `map(f)` is f of the i-th input element |
| Text.StartsWith | src/components/Sidebar.tsx:179 | `startsWith(prefix)`: the string is at least as long as the prefix and begins with it; a common prefix does not change it (`StartsWithCommonPrefix`) |
| Text.Includes | src/components/CoursesBrowser.tsx:24-27 | `includes(sub)`: the substring starts at the front or is included in the rest; it holds exactly when the substring occurs at some offset (`IncludesAt`) |
| Text.Trim | src/components/ResumeBuilder.tsx:134 | `trim()` drops the leading, then the trailing, JavaScript white space; the result is trimmed and trim is the identity exactly on trimmed strings (`TrimSpec`), and it is empty exactly for white-space-only input (`TrimEmpty`) |
| Text.Join | src/components/ResumeBuilder.tsx:427 | `parts.join(sep)`: the parts with the separator between neighbours, "" for no parts; parsing what it shows gives the skills back (`ResumeBuilder.SkillsRoundTrip`) |
| Text.Less | src/components/CoursesBrowser.tsx:41 | the order standing in for `localeCompare(b) < 0`, lexicographic on character codes; it is asymmetric, transitive and total on different strings (`LessAsymmetric`, `LessTransitive`, `LessTotal`) |
| Text.Lower | src/components/CoursesBrowser.tsx:22-27 | `toLowerCase` keeps the length and lower-cases each character |
| Text.LowerIdempotent | src/components/CoursesBrowser.tsx:22-27 | lower-casing twice is lower-casing once |
| Text.IncludesAt | src/components/CoursesBrowser.tsx:24-27 | `includes` holds exactly when the substring occurs at some position |
| Text.TrimStart | src/components/ResumeBuilder.tsx:134 | the result is a suffix that does not start with white space, and only white space was dropped |
| Text.TrimEnd | src/components/ResumeBuilder.tsx:134 | the result is a prefix that does not end with white space, and only white space was dropped |
| Text.TrimSpec | src/components/ResumeBuilder.tsx:134 | `trim` gives a trimmed string, and leaves a string unchanged exactly when it is already trimmed |
| Text.TrimPadded | src/components/ResumeBuilder.tsx:134 | white space added before a trimmed string is removed again |
| Text.TrimIgnoresLeadingSpace | src/components/ResumeBuilder.tsx:134 | leading white space does not change the trimmed result |
| Text.TrimEmpty | src/components/AIAssistant.tsx:63 | `trim` returns the empty string exactly when the input is white space only |
| Text.TrimWithin | src/components/ResumeBuilder.tsx:134 | every character of the trimmed string occurs in the input |
| Text.Split | src/components/ResumeBuilder.tsx:134 | `split` always returns at least one part |
| Text.SplitAtSeparator | src/components/ResumeBuilder.tsx:134 | splitting `a + sep + b`, where `a` has no separator, gives `a` followed by the parts of `b` |
| Text.SplitWithoutSeparator | src/components/Leaderboard.tsx:228 | a string without the separator splits into itself alone |
| Text.SplitPiecesLackSeparator | src/components/ResumeBuilder.tsx:134 | no part contains the separator |
| Text.StartsWithCommonPrefix | src/components/Sidebar.tsx:179 | `startsWith` is unaffected by a prefix common to both strings |
| Text.Capitalize | src/components/ProjectTracker.tsx:263 | `charAt(0).toUpperCase() + slice(1)` keeps the length, upper-cases the first character and keeps the rest |
| Text.LessAsymmetric | src/components/CoursesBrowser.tsx:41 | the order used for `localeCompare` never puts two strings each before the other |
| Text.LessTransitive | src/components/CoursesBrowser.tsx:41 | the order used for `localeCompare` is transitive |
| Text.LessTotal | src/components/CoursesBrowser.tsx:41 | of two different strings, one comes before the other |
| Text.Digit | src/components/MentorMatchmaking.tsx:128 | a slot index below ten is written as one decimal digit |
| JsMath.RoundDiv | src/components/GraduationReadiness.tsx:105-107 | `Math.round(a / n)` is the integer r with r - 1/2 <= a/n < r + 1/2 |
| JsMath.RoundDivBounds | src/components/GraduationReadiness.tsx:105-107 | a ratio between two integers lo and hi rounds to a value between them |
| Sorting.Insert | src/components/CoursesBrowser.tsx:37-42 | one insertion step adds exactly one element |
| Sorting.StableSort | src/components/CoursesBrowser.tsx:37-42 | the sort keeps the length |
| Sorting.StableSortPermutes | src/components/CoursesBrowser.tsx:37-42 | the sort is a permutation of its input |
| Sorting.StableSortSorted | src/components/CoursesBrowser.tsx:37-42 | for a comparator that is a strict weak order, the result is ordered by it |
| Sorting.StableSortStable | src/components/CoursesBrowser.tsx:37-42 | elements the comparator ties keep their input order |
| Sorting.StableSortOfSorted | src/components/CoursesBrowser.tsx:37-42 | an ordered list is left unchanged |
| Sorting.InsertStep | src/components/CoursesBrowser.tsx:38 | one pass of the in-place insertion sort leaves `Insert` of the element into the sorted prefix, and the rest unchanged |
| Sorting.SortInPlace | src/components/CoursesBrowser.tsx:37-42 | `filtered.sort(compare)` on an array leaves exactly the stable sort of the old contents |
| CourseCatalog.WebDev101 | src/data/coursesData.ts:30-86 | the `web-dev-101` course: Web Development, Beginner, its 12 lessons with 5 completed (`CourseDetails.WebDevProgress`) |
| CourseCatalog.JavaProgramming | src/data/coursesData.ts:87-144 | the `java-programming` course of category Programming Languages |
| CourseCatalog.PythonDataScience | src/data/coursesData.ts:145-210 | the `python-data-science` course of category Data Science |
| CourseCatalog.MernStack | src/data/coursesData.ts:211-275 | the `mern-stack` course of category Web Development |
| CourseCatalog.ReactNative | src/data/coursesData.ts:276-340 | the `react-native` course of category Mobile Development |
| CourseCatalog.AwsCloud | src/data/coursesData.ts:341-405 | the `aws-cloud` course of category Cloud Computing |
| CourseCatalog.CybersecurityFundamentals | src/data/coursesData.ts:406-461 | the `cybersecurity-fundamentals` course of category Cybersecurity |
| CourseCatalog.FlutterDevelopment | src/data/coursesData.ts:462-517 | the `flutter-development` course of category Mobile Development |
| CourseCatalog.CoursesData | src/data/coursesData.ts:29-518 | `coursesData`: the eight courses in file order; their ids are distinct (`CourseIdsUnique`) and every category has a bucket (`ShippedCategoriesBucketed`) |
| CourseCatalog.CategorizedCourses | src/data/coursesData.ts:520-527 | `categorizedCourses`: the six buckets of `coursesData`; they are disjoint and cover all eight courses (`CategorizedCoursesPartition`) |
| CourseCatalog.CourseRoadmaps | src/data/coursesData.ts:544-653 | `courseRoadmaps`: the three learning paths with their steps; every course id a step names is a shipped course (`RoadmapCoursesExist`) |
| CourseCatalog.LevelName | src/data/coursesData.ts:12 | a level is written as one of Beginner, Intermediate or Advanced |
| CourseCatalog.Ids | src/data/coursesData.ts:29-518 | the id list has one id per course, position by position |
| CourseCatalog.Categorize | src/data/coursesData.ts:520-527 | the bucket map has an entry for each of the six bucket keys |
| CourseCatalog.CategorizeBucket | src/data/coursesData.ts:520-527 | each bucket is the courses of its category string, in their original order |
| CourseCatalog.InBucket | src/data/coursesData.ts:520-527 | a course is in a bucket exactly when it is in the list and has the bucket's category |
| CourseCatalog.BucketCategoriesDistinct | src/data/coursesData.ts:521-526 | no two buckets filter by the same category |
| CourseCatalog.BucketsPartition | src/data/coursesData.ts:520-527 | when every course's category has a bucket, each course lands in a bucket and no course lands in two |
| CourseCatalog.ShippedCategoriesBucketed | src/data/coursesData.ts:29-527 | every shipped course's category has a bucket |
| CourseCatalog.CategorizedCoursesPartition | src/data/coursesData.ts:520-527 | the shipped buckets cover all eight courses and are pairwise disjoint |
| CourseCatalog.CourseIdsUnique | src/data/coursesData.ts:29-518 | the eight course ids are distinct |
| CourseCatalog.RoadmapCoursesExist | src/data/coursesData.ts:544-653 | every course id named by a roadmap step is the id of a shipped course |
| CoursesBrowser.Precedes | src/components/CoursesBrowser.tsx:37-42 | the comparator is negative: more students for `popular`, the smaller id for `newest`; both are strict weak orders (`ComparatorLaws`) whose ties are equal counts or ids (`TiedMeans`) |
| CoursesBrowser.MatchesQuery | src/components/CoursesBrowser.tsx:23-28 | the lower-cased query occurs in the lower-cased title, description, instructor or category; the search step filters by it (`SearchStepFilters`) |
| CoursesBrowser.SearchStep | src/components/CoursesBrowser.tsx:21-29 | an empty query keeps the list; otherwise the courses matching the lower-cased query, in input order (`SearchStepFilters`) |
| CoursesBrowser.LevelStep | src/components/CoursesBrowser.tsx:32-34 | `all` keeps the list; otherwise the courses of exactly that level, in input order (`LevelStepFilters`) |
| CoursesBrowser.CourseView | src/components/CoursesBrowser.tsx:17-45 | the list `filterCourses` returns: a permutation of exactly the passing courses (`CourseViewContents`), ordered and stable for `popular` (`PopularOrder`, `PopularStable`), ordered by id for `newest` (`NewestOrder`), in input order otherwise (`UnsortedKeepsOrder`), and a fixed point of re-filtering (`CourseViewIdempotent`) |
| CoursesBrowser.SortKeyOf | src/components/CoursesBrowser.tsx:37-42 | `'popular'` and `'newest'` select a sort, and any other value selects none |
| CoursesBrowser.ComparatorLaws | src/components/CoursesBrowser.tsx:37-42 | both comparators are strict weak orders, so the sort is well defined |
| CoursesBrowser.TiedMeans | src/components/CoursesBrowser.tsx:37-42 | the popularity comparator ties equal student counts, and the id comparator ties equal ids |
| CoursesBrowser.FilterCourses | src/components/CoursesBrowser.tsx:17-45 | the method returns the course view: search step, then level step, then the selected stable sort |
| CoursesBrowser.SearchStepFilters | src/components/CoursesBrowser.tsx:21-29 | the guarded search step is a filter by "empty query, or the lower-cased query occurs in one of the four lower-cased fields" |
| CoursesBrowser.LevelStepFilters | src/components/CoursesBrowser.tsx:32-34 | the guarded level step is a filter by "`'all'`, or the course's level" |
| CoursesBrowser.FilteredBeforeSort | src/components/CoursesBrowser.tsx:17-34 | before sorting, the list is the input filtered by both tests, in input order |
| CoursesBrowser.CourseViewContents | src/components/CoursesBrowser.tsx:17-44 | the output is a permutation of exactly the courses that pass both tests |
| CoursesBrowser.PopularOrder | src/components/CoursesBrowser.tsx:37-38 | sorted by `'popular'`, student counts never increase down the list |
| CoursesBrowser.PopularStable | src/components/CoursesBrowser.tsx:37-38 | sorted by `'popular'`, courses with equal student counts keep their input order |
| CoursesBrowser.NewestOrder | src/components/CoursesBrowser.tsx:39-42 | sorted by `'newest'`, ids never decrease down the list |
| CoursesBrowser.UnsortedKeepsOrder | src/components/CoursesBrowser.tsx:36-44 | any other `sortBy` returns the filtered courses in input order |
| CoursesBrowser.NoFilterShowsAll | src/components/CoursesBrowser.tsx:21-34 | an empty query with level `'all'` shows a reordering of the whole input |
| CoursesBrowser.SearchIgnoresCase | src/components/CoursesBrowser.tsx:22 | queries equal up to letter case give the same view |
| CoursesBrowser.CourseViewIdempotent | src/components/CoursesBrowser.tsx:17-45 | filtering the output again with the same settings returns it unchanged |
| ResumeBuilder.InitialResume | src/components/ResumeBuilder.tsx:14-54 | the shipped initial `formData`: the personal details and the education, experience, skills and project entries the form first shows (`ResumeForm.constructor`) |
| ResumeBuilder.RemoveAt | src/components/ResumeBuilder.tsx:93-98 | `filter((_, i) => i !== index)`: exactly the entry at the index is removed, others kept in order, and an out-of-range index changes nothing (`RemoveAtSpec`) |
| ResumeBuilder.ParseSkills | src/components/ResumeBuilder.tsx:134 | `split(',').map(trim).filter(Boolean)`: every skill is clean (`ParseSkillsClean`), leading white space is ignored (`ParseIgnoresLeadingSpace`), and it inverts `ShowSkills` on clean skills (`SkillsRoundTrip`) |
| ResumeBuilder.ShowSkills | src/components/ResumeBuilder.tsx:427 | the box shows `skills.join(', ')`; parsing it gives the skills back exactly when they are clean (`SkillsRoundTrip`, `ParseShowParse`) |
| ResumeBuilder.Blank | src/components/ResumeBuilder.tsx:67-80 | a new entry has exactly the schema's fields, all empty |
| ResumeBuilder.UpdateAt | src/components/ResumeBuilder.tsx:84-91 | an update keeps the list length |
| ResumeBuilder.UpdateAtSpec | src/components/ResumeBuilder.tsx:84-91 | the entry at the index gets the field set to the value, and every other entry is unchanged (all of them when the index is out of range) |
| ResumeBuilder.RemoveAtSpec | src/components/ResumeBuilder.tsx:93-98 | removing drops exactly the entry at the index, and an out-of-range index changes nothing |
| ResumeBuilder.AddThenRemove | src/components/ResumeBuilder.tsx:67-98 | removing the entry just added restores the list |
| ResumeBuilder.ParseSkillsClean | src/components/ResumeBuilder.tsx:133-139 | every parsed skill is non-empty, trimmed and free of commas |
| ResumeBuilder.ParseIgnoresLeadingSpace | src/components/ResumeBuilder.tsx:134 | leading white space in the box does not change the skills |
| ResumeBuilder.ParseAtComma | src/components/ResumeBuilder.tsx:134 | text up to the first comma gives its trimmed skill, if any, followed by the skills of the rest |
| ResumeBuilder.ParseEmpty | src/components/ResumeBuilder.tsx:134 | an empty box gives no skills |
| ResumeBuilder.ParseSingle | src/components/ResumeBuilder.tsx:134 | a box holding one clean skill gives that skill |
| ResumeBuilder.ParseCons | src/components/ResumeBuilder.tsx:134 | a clean skill, `", "` and more text give the skill followed by the skills of the text |
| ResumeBuilder.SkillsRoundTrip | src/components/ResumeBuilder.tsx:134 | for clean skills (non-empty, trimmed, comma-free), parsing the box as displayed (`skills.join(', ')`) gives back exactly the same list: `ParseSkills(ShowSkills(skills)) == skills` |
| ResumeBuilder.ParseShowParse | src/components/ResumeBuilder.tsx:134 | re-parsing the displayed skills changes nothing |
| ResumeBuilder.ResumeForm.constructor | src/components/ResumeBuilder.tsx:14-54 | the form starts with the shipped initial resume |
| ResumeBuilder.ResumeForm.HandlePersonalChange | src/components/ResumeBuilder.tsx:56-65 | the personal map gets the named field set to the value, and nothing else changes |
| ResumeBuilder.ResumeForm.AddEducation | src/components/ResumeBuilder.tsx:67-82 | a blank education entry is appended, and nothing else changes |
| ResumeBuilder.ResumeForm.UpdateEducation | src/components/ResumeBuilder.tsx:84-91 | the education list is updated at the index, and nothing else changes |
| ResumeBuilder.ResumeForm.RemoveEducation | src/components/ResumeBuilder.tsx:93-98 | the education entry at the index is removed, and nothing else changes |
| ResumeBuilder.ResumeForm.AddExperience | src/components/ResumeBuilder.tsx:100-115 | a blank experience entry is appended, and nothing else changes |
| ResumeBuilder.ResumeForm.UpdateExperience | src/components/ResumeBuilder.tsx:117-124 | the experience list is updated at the index, and nothing else changes |
| ResumeBuilder.ResumeForm.RemoveExperience | src/components/ResumeBuilder.tsx:126-131 | the experience entry at the index is removed, and nothing else changes |
| ResumeBuilder.ResumeForm.HandleSkillsChange | src/components/ResumeBuilder.tsx:133-139 | the skills become the parsed box, and nothing else changes |
| ResumeBuilder.ResumeForm.AddProject | src/components/ResumeBuilder.tsx:141-154 | a blank project entry is appended, and nothing else changes |
| ResumeBuilder.ResumeForm.UpdateProject | src/components/ResumeBuilder.tsx:156-163 | the project list is updated at the index, and nothing else changes |
| ResumeBuilder.ResumeForm.RemoveProject | src/components/ResumeBuilder.tsx:165-170 | the project entry at the index is removed, and nothing else changes |
| MentorMatchmaking.Mentors | src/components/MentorMatchmaking.tsx:41-112 | `mentors`: the five mentors with ids, names, roles, expertise, availability and match scores; no mentor is shown twice (`ShownMentorsDistinct`) |
| MentorMatchmaking.LearningAreas | src/components/MentorMatchmaking.tsx:137-144 | `learningAreas`: the six area ids with their display names, which the expertise test looks up |
| MentorMatchmaking.ExpertiseMatches | src/components/MentorMatchmaking.tsx:159-162 | ignoring case, the expertise contains the area id, or the area with that id exists and its name contains the expertise; false when no area has the id, as `?.` gives `undefined` |
| MentorMatchmaking.FilteredMentors | src/components/MentorMatchmaking.tsx:157-163 | `filteredMentors`: exactly the mentors at or above the threshold with a matching expertise, or any expertise for `all` (`FilteredMentorsSpec`) |
| MentorMatchmaking.SlotId | src/components/MentorMatchmaking.tsx:128 | the id `${mentorId}-${day}-${index}`; different (day, index) pairs give different ids (`SlotIdsDiffer`) |
| MentorMatchmaking.WeekSlots | src/components/MentorMatchmaking.tsx:126-133 | `days.flatMap(...)`: each day's seven slots in day order, with the draws numbered on from `first`; slot k is slot k%7 of day k/7 (`WeekSlotsAt`) |
| MentorMatchmaking.WeekSlotsAt | src/components/MentorMatchmaking.tsx:126-133 | the week has seven slots per day, and slot k is the (k%7)-th slot of day k/7, made with the draw numbered `first + 7·(k/7) + k%7` |
| MentorMatchmaking.GenerateTimeSlots | src/components/MentorMatchmaking.tsx:122-134 | `generateTimeSlots(mentorId)`: 35 slots, slot k on day k/7 at time k%7 with the k-th random draw (`GeneratedSlotsAt`), and no two share an id (`GeneratedSlotIdsUnique`) |
| MentorMatchmaking.FilteredMentorsSpec | src/components/MentorMatchmaking.tsx:157-163 | a mentor is shown exactly when its match score reaches the threshold and the area is `'all'` or, ignoring case, one of its expertises contains the area id or is contained in the area's name |
| MentorMatchmaking.AllAreasIsThreshold | src/components/MentorMatchmaking.tsx:158-159 | with area `'all'`, the filter is the score threshold alone |
| MentorMatchmaking.RaisingThresholdNarrows | src/components/MentorMatchmaking.tsx:158 | a higher threshold only removes mentors and keeps the order of the rest |
| MentorMatchmaking.ShownMentorsDistinct | src/components/MentorMatchmaking.tsx:157-163 | no shipped mentor is shown twice |
| MentorMatchmaking.DaySlots | src/components/MentorMatchmaking.tsx:127-132 | a day has one slot per time, seven in all, each on that day |
| MentorMatchmaking.GeneratedSlotsAt | src/components/MentorMatchmaking.tsx:122-134 | the week has 35 slots, and slot k is on day k/7 at time k%7, with id `mentor-day-index` and the k-th random draw as its availability |
| MentorMatchmaking.SlotIdsDiffer | src/components/MentorMatchmaking.tsx:128 | ids of different (day, index) pairs differ |
| MentorMatchmaking.GeneratedSlotIdsUnique | src/components/MentorMatchmaking.tsx:122-134 | no two generated slots share an id |
| MentorMatchmaking.DaysDistinct | src/components/MentorMatchmaking.tsx:123 | the five day names are distinct |
| MentorMatchmaking.DayColumn | src/components/MentorMatchmaking.tsx:126-133 | the slots of one day, in week order, are exactly that day's seven slots |
| MentorMatchmaking.MentorPanel.constructor | src/components/MentorMatchmaking.tsx:147-150 | no mentor is selected, the area is `'algorithms'`, the threshold is 70, and there are no slots |
| MentorMatchmaking.MentorPanel.HandleMentorSelect | src/components/MentorMatchmaking.tsx:152-155 | the mentor is selected and the slots are generated for its id; area and threshold are unchanged |
| GraduationReadiness.ReadinessSections | src/components/GraduationReadiness.tsx:39-103 | `readinessSections` without their items: the five sections at 85, 60, 70, 50 and 40 percent, whose total is 61 (`ShippedReadiness`) |
| GraduationReadiness.SumPercentages | src/components/GraduationReadiness.tsx:106 | the `reduce` sum of the percentages; with each percentage in lo..hi it lies in lo·n..hi·n (`SumBounds`) |
| GraduationReadiness.Toggle | src/components/GraduationReadiness.tsx:31-37 | the id becomes expanded exactly when it was not, and every other id keeps its state |
| GraduationReadiness.ToggleCollapses | src/components/GraduationReadiness.tsx:33-34 | collapsing removes every occurrence of the id and keeps every other entry's count |
| GraduationReadiness.ToggleExpands | src/components/GraduationReadiness.tsx:35 | expanding appends the id after the existing entries |
| GraduationReadiness.ToggleKeepsDistinct | src/components/GraduationReadiness.tsx:31-37 | a list without duplicates stays without duplicates |
| GraduationReadiness.ToggleTwice | src/components/GraduationReadiness.tsx:31-37 | toggling twice restores which ids are expanded, and restores the list itself when the id started collapsed |
| GraduationReadiness.ReadinessPanel.constructor | src/components/GraduationReadiness.tsx:29 | only `'courses'` starts expanded |
| GraduationReadiness.ReadinessPanel.ToggleSection | src/components/GraduationReadiness.tsx:31-37 | the list becomes its toggle, and a list without duplicates stays so |
| GraduationReadiness.SumBounds | src/components/GraduationReadiness.tsx:106 | a sum of percentages each between lo and hi lies between lo·n and hi·n |
| GraduationReadiness.TotalReadiness | src/components/GraduationReadiness.tsx:105-107 | the total exists exactly when there are sections, and is the mean percentage rounded half up |
| GraduationReadiness.TotalReadinessBounds | src/components/GraduationReadiness.tsx:105-107 | for percentages in 0..100 the total lies in 0..100 |
| GraduationReadiness.ShippedReadiness | src/components/GraduationReadiness.tsx:39-107 | the shipped sections (85, 60, 70, 50, 40) give a total of 61 |
| GraduationReadiness.ProgressColor | src/components/GraduationReadiness.tsx:129-134 | green from 80, blue from 60, yellow from 40, red below, each if and only if |
| GraduationReadiness.ProgressColorMonotone | src/components/GraduationReadiness.tsx:129-134 | a higher percentage never gets a lower colour band |
| AIAssistant.CodingWords | src/components/AIAssistant.tsx:76 | the coding keywords code, error, bug and function, which make the topic coding whatever else occurs (`CodingWins`) |
| AIAssistant.LearningWords | src/components/AIAssistant.tsx:78 | the learning keywords learn, course, study and understand, checked second (`Classify`) |
| AIAssistant.ResumeWords | src/components/AIAssistant.tsx:80 | the resume keywords resume, cv, job and hire, checked third (`Classify`) |
| AIAssistant.ContainsAny | src/components/AIAssistant.tsx:76-80 | the `||` chain of `includes` tests: the text contains one of the words; over `a + b` it is the disjunction of the two lists (`ContainsAnyAppend`) |
| AIAssistant.ContainsAnyAppend | src/components/AIAssistant.tsx:76-80 | a text contains a word of `a + b` exactly when it contains a word of `a` or a word of `b` |
| AIAssistant.Greeting | src/components/AIAssistant.tsx:59 | the bot greeting the transcript starts with (`Chat.constructor`) |
| AIAssistant.Blank | src/components/AIAssistant.tsx:63 | the input is white space only, which is exactly `!input.trim()` (`BlankIsEmptyTrim`) |
| AIAssistant.Classify | src/components/AIAssistant.tsx:72-82 | coding if the lower-cased input contains a coding word; otherwise learning if it contains a learning word; otherwise resume if it contains a resume word; otherwise general, each if and only if |
| AIAssistant.ClassifyIgnoresCase | src/components/AIAssistant.tsx:75 | inputs equal up to letter case get the same topic |
| AIAssistant.CodingWins | src/components/AIAssistant.tsx:76-82 | an input containing a coding word is coding, whatever other words it contains |
| AIAssistant.BlankIsEmptyTrim | src/components/AIAssistant.tsx:63 | the send guard `!input.trim()` holds exactly for white-space-only input |
| AIAssistant.Reply | src/components/AIAssistant.tsx:71-84 | the reply is a bot message holding one canned response, which is the general one exactly when no keyword occurs |
| AIAssistant.Chat.constructor | src/components/AIAssistant.tsx:56-60 | the transcript starts as the single bot greeting, with an empty box and no typing shown |
| AIAssistant.Chat.SetInput | src/components/AIAssistant.tsx:56 | typing changes only the box |
| AIAssistant.Chat.HandleSend | src/components/AIAssistant.tsx:62-69 | a blank box changes nothing; otherwise the user message is appended, the box is cleared, typing is shown and the input is queued for a reply |
| AIAssistant.Chat.DeliverReply | src/components/AIAssistant.tsx:71-86 | the reply to the oldest queued input is appended and typing stops |
| AIAssistant.SendAndReply | src/components/AIAssistant.tsx:62-86 | the transcript only grows: earlier messages stay, followed by the user message and its reply |
| CourseDetails.FindCourse | src/components/CourseDetails.tsx:16 | `coursesData.find(c => c.id === courseId)`: none exactly when no course has the id, and otherwise the first course with it (`FindCourseSpec`) |
| CourseDetails.TotalLessons | src/components/CourseDetails.tsx:51 | the `reduce` count of all lessons of all modules; never below the completed count (`CompletedAtMostTotal`) |
| CourseDetails.CompletedLessons | src/components/CourseDetails.tsx:52-53 | the `reduce` count of completed lessons; at most the total, and equal to it exactly when every lesson is completed (`CompletedAtMostTotal`) |
| CourseDetails.DisplayedPercentage | src/components/CourseDetails.tsx:54 | `Math.round(completionPercentage)` with 0 for no lessons: in 0..100, 100 when all lessons are completed and 0 when none is (`DisplayedPercentageBounds`) |
| CourseDetails.FindCourseSpec | src/components/CourseDetails.tsx:16-23 | the lookup fails exactly when no course has the id, and otherwise returns the first course with it |
| CourseDetails.CompletedAtMostTotal | src/components/CourseDetails.tsx:51-53 | completed lessons never exceed total lessons, and equal them exactly when every lesson is completed |
| CourseDetails.DisplayedPercentageBounds | src/components/CourseDetails.tsx:54 | the shown percentage lies in 0..100, is 100 when all lessons are completed and 0 when none is |
| CourseDetails.WebDevFound | src/components/CourseDetails.tsx:16 | `web-dev-101` is found |
| CourseDetails.WebDevProgress | src/components/CourseDetails.tsx:51-54 | the web development course has 12 lessons, 5 completed, shown as 42% |
| ProjectTracker.TasksCompleted | src/components/ProjectTracker.tsx:324 | the "Tasks Completed" count, the completed tasks; with the remaining and overdue counts it adds up to all tasks (`TaskCountsPartition`) |
| ProjectTracker.TasksRemaining | src/components/ProjectTracker.tsx:330 | the "Tasks Remaining" count, the pending and in-progress tasks; overdue tasks are in neither count (`TaskCountsPartition`) |
| ProjectTracker.AssigneeName | src/components/ProjectTracker.tsx:363 | `members.find(m => m.id === task.assignee)?.name`: absent exactly when no member has the id, and otherwise the first such member's name (`AssigneeNameSpec`) |
| ProjectTracker.ShowsAssignee | src/components/ProjectTracker.tsx:361 | the `task.assignee &&` guard: the chip is shown only for a non-empty assignee; every shown shipped assignee resolves (`ShippedAssigneesResolve`) |
| ProjectTracker.Projects | src/components/ProjectTracker.tsx:46-185 | `projects` without titles, mentors and commits: the three projects with their statuses, members and tasks (`ShippedCounts`, `ShippedAtMostOneExpanded`) |
| ProjectTracker.StatusName | src/components/ProjectTracker.tsx:33 | a status is written as a non-empty string |
| ProjectTracker.TaskCountsPartition | src/components/ProjectTracker.tsx:324-330 | completed, remaining and overdue tasks add up to all tasks |
| ProjectTracker.NoOverdueCountsAll | src/components/ProjectTracker.tsx:324-330 | without overdue tasks, completed plus remaining is every task |
| ProjectTracker.ProjectBadge | src/components/ProjectTracker.tsx:263 | apart from in-progress, the project badge is the status name capitalised |
| ProjectTracker.TaskBadge | src/components/ProjectTracker.tsx:374 | a task's badge is the status name with its first letter upper-cased |
| ProjectTracker.Badges | src/components/ProjectTracker.tsx:263-374 | the badge texts, including "In Progress" on a project and "In-progress" on a task |
| ProjectTracker.BadgesDistinguishStatus | src/components/ProjectTracker.tsx:263-374 | different statuses get different badges |
| ProjectTracker.AssigneeNameSpec | src/components/ProjectTracker.tsx:363 | the name is missing exactly when no member has the id, and is otherwise the first such member's name |
| ProjectTracker.ShippedAssigneesResolve | src/components/ProjectTracker.tsx:361-363 | every shipped assignee id names a member of its project |
| ProjectTracker.AtMostOneExpanded | src/components/ProjectTracker.tsx:192-197 | with distinct project ids, at most one project is expanded |
| ProjectTracker.ShippedAtMostOneExpanded | src/components/ProjectTracker.tsx:192-197 | at most one shipped project is expanded |
| ProjectTracker.Toggled | src/components/ProjectTracker.tsx:195-197 | the result is empty or the id; for a non-empty id it is the id exactly when that id was not expanded |
| ProjectTracker.Tracker.constructor | src/components/ProjectTracker.tsx:192 | project `p1` starts expanded |
| ProjectTracker.Tracker.ToggleProject | src/components/ProjectTracker.tsx:195-197 | the expanded project becomes the toggle result: none, or the clicked one |
| ProjectTracker.ShippedCounts | src/components/ProjectTracker.tsx:46-189 | the shipped projects show 2/4, 2/3 and 5/0 completed/remaining tasks |
| UserRoles.RoleName | src/pages/Login.tsx:21 | a role is written as student, faculty or admin, never empty and without `/` |
| UserRoles.RoleNameInjective | src/pages/Login.tsx:21 | different roles have different names |
| Sidebar.RoleMenu | src/components/Sidebar.tsx:37-118 | the menu each role is meant to see: Dashboard first (`MenuStartsWithDashboard`), hrefs `/role/page` (`MenuHrefs`) that are distinct (`MenuHrefsDistinct`); `navItems` equals it (`NavItems`) |
| Sidebar.IsActive | src/components/Sidebar.tsx:179 | the active-link test: the path is the href or starts with href + `/` (`IsActiveSpec`); within a menu at most one item is active (`AtMostOneActive`) |
| Sidebar.NavItems | src/components/Sidebar.tsx:37-121 | the builder returns the role's exact menu, and every item lists the role, so the final filter removes nothing |
| Sidebar.MenuHrefs | src/components/Sidebar.tsx:39-118 | each item's href is `/role/page` for its page |
| Sidebar.MenuStartsWithDashboard | src/components/Sidebar.tsx:39-46 | every menu starts with Dashboard at `/role/dashboard` |
| Sidebar.MenuPagesSimple | src/components/Sidebar.tsx:49-118 | page names are non-empty, contain no `/` and are distinct |
| Sidebar.MenuHrefsDistinct | src/components/Sidebar.tsx:49-118 | hrefs are unique within each role's menu |
| Sidebar.IsActiveSpec | src/components/Sidebar.tsx:179 | a link is active exactly when the path equals its href or starts with href + `/` |
| Sidebar.ActiveNested | src/components/Sidebar.tsx:179 | two active links are equal or one is nested under the other |
| Sidebar.NotBothActive | src/components/Sidebar.tsx:179 | links neither equal nor nested are never both active |
| Sidebar.HrefsNotNested | src/components/Sidebar.tsx:39-118 | hrefs of different single-segment pages differ and are not nested |
| Sidebar.AtMostOneActive | src/components/Sidebar.tsx:179 | for any path, at most one item of a role's menu is active |
| Login.InitialRole | src/pages/Login.tsx:21 | the form starts with the preselected role, or student |
| Login.DashboardRoute | src/pages/Login.tsx:61-68 | a user is sent to `/role/dashboard` |
| Login.Validate | src/pages/Login.tsx:46-68 | a sign-in is rejected exactly when the e-mail or password is empty; an accepted one routes to the role's dashboard |
| Login.RouteIsSidebarDashboard | src/pages/Login.tsx:61-68 | the route is the href of the role's first sidebar item |
| Login.DemoCredentials | src/pages/Login.tsx:85-94 | the demo account is `role@example.com` with password `password` |
| Login.DemoCredentialsAccepted | src/pages/Login.tsx:85-101 | the demo credentials always pass validation and route to the role's dashboard |
| Login.LoginForm.constructor | src/pages/Login.tsx:21-25 | the form starts with the initial role, empty fields, not loading, no timer and no outcome |
| Login.LoginForm.SelectRole | src/pages/Login.tsx:132 | only the role changes |
| Login.LoginForm.SetFields | src/pages/Login.tsx:169-182 | only the e-mail and password change |
| Login.LoginForm.FillDemoCredentials | src/pages/Login.tsx:97-101 | the fields get the selected role's demo account, and nothing else changes |
| Login.LoginForm.HandleLogin | src/pages/Login.tsx:37-42 | loading is shown and a timer is queued over the current values |
| Login.LoginForm.CompleteLogin | src/pages/Login.tsx:42-69 | loading stops and the oldest queued submission's validation outcome is recorded |
| Login.DemoSignIn | src/pages/Login.tsx:37-101 | filling in the demo account and signing in lands on the selected role's dashboard |
| Login.EmptySignIn | src/pages/Login.tsx:46-53 | signing in with an empty field records a rejection and navigates nowhere |
| Leaderboard.Initials | src/components/Leaderboard.tsx:228 | `name.split(' ').map(n => n[0]).join('')`: for single-spaced non-empty words, their first letters (`InitialsOfWords`) |
| Leaderboard.LeaderboardData | src/components/Leaderboard.tsx:23-139 | `leaderboardData` as points, rank and previous rank: ten rows ranked 1 to 10 with strictly falling points (`ShippedTableOrdered`) |
| Leaderboard.RankChangeOf | src/components/Leaderboard.tsx:261-275 | up, down or unchanged, each if and only if the rank moved that way; any shown size is positive and is the distance moved |
| Leaderboard.RankChangeReverses | src/components/Leaderboard.tsx:261-270 | a move up is the same size as the move back down |
| Leaderboard.BadgeSummary | src/components/Leaderboard.tsx:234-243 | at most the first badge is shown, with a `+(n-1) more` tag exactly when there are n > 1 badges, and shown plus more is n |
| Leaderboard.FirstLetters | src/components/Leaderboard.tsx:228 | one letter per word, each the word's first letter |
| Leaderboard.InitialsOfWords | src/components/Leaderboard.tsx:228 | the initials of single-spaced words are their first letters |
| Leaderboard.InitialsOfSampleNames | src/components/Leaderboard.tsx:228 | "Alex Johnson" gives AJ and "Rajiv Patel" gives RP |
| Leaderboard.ShippedTableOrdered | src/components/Leaderboard.tsx:23-139 | the ten rows are ranked 1 to 10, with strictly falling points, and no one moved by more than one place |
| InterviewReadiness.RoleScores | src/components/InterviewReadiness.tsx:29-73 | the readiness scores 78, 65 and 82 of the three shipped roles (`ShippedLabels`) |
| InterviewReadiness.BandOf | src/components/InterviewReadiness.tsx:116-136 | a score is in the top band from 80, the middle band from 60, and the bottom band below |
| InterviewReadiness.ReadinessLabel | src/components/InterviewReadiness.tsx:134-138 | the label is Ready for Interviews, Almost Ready or Needs Improvement exactly in the score's band |
| InterviewReadiness.BadgeColour | src/components/InterviewReadiness.tsx:125-131 | the badge colour is green, yellow or red exactly in the score's band |
| InterviewReadiness.CircleColour | src/components/InterviewReadiness.tsx:116 | the circle colour is green, yellow or red exactly in the score's band |
| InterviewReadiness.SkillBarColour | src/components/InterviewReadiness.tsx:155-160 | the skill bar colour is green, yellow or red exactly in the score's band |
| InterviewReadiness.LabelAndColoursAgree | src/components/InterviewReadiness.tsx:116-160 | two scores share a label exactly when they share each colour, that is, their band |
| InterviewReadiness.BandMonotone | src/components/InterviewReadiness.tsx:116-160 | a higher score never gets a lower band |
| InterviewReadiness.ShippedLabels | src/components/InterviewReadiness.tsx:134-138 | the shipped roles (78, 65, 82) read Almost Ready, Almost Ready and Ready for Interviews |
| KnowledgeGraphData.DataStructuresNodes | src/data/knowledgeGraphData.ts:12-103 | `dataStructuresNodes`: ten nodes with status, type, dependencies and position; the map is well formed (`DataStructuresWellFormed`) |
| KnowledgeGraphData.AlgorithmNodes | src/data/knowledgeGraphData.ts:105-178 | `algorithmNodes`: eight nodes; the map is well formed (`AlgorithmWellFormed`) |
| KnowledgeGraphData.WebDevNodes | src/data/knowledgeGraphData.ts:180-271 | `webDevNodes`: ten nodes; the map is well formed (`WebDevWellFormed`) |
| KnowledgeGraphData.KnowledgeGraphs | src/data/knowledgeGraphData.ts:273-277 | `knowledgeGraphs`: the three subjects mapped to their node lists, each well formed (`KnowledgeGraphsWellFormed`) |
| KnowledgeGraphData.WitnessesResolve | src/data/knowledgeGraphData.ts:3-11 | a map with a position witness for every dependency resolves every dependency |
| KnowledgeGraphData.DependencyComesFirst | src/data/knowledgeGraphData.ts:12-271 | with unique ids and witnesses, a node depends only on nodes listed before it |
| KnowledgeGraphData.NoCycle | src/data/knowledgeGraphData.ts:12-271 | along any chain of dependencies, positions strictly fall |
| KnowledgeGraphData.WitnessesAcyclic | src/data/knowledgeGraphData.ts:12-271 | a map with unique ids and witnesses has no dependency cycle |
| KnowledgeGraphData.StatusesAlongDeps | src/data/knowledgeGraphData.ts:12-271 | a completed node depends only on completed nodes, and an unlocked node only on unlocked nodes |
| KnowledgeGraphData.CheckedGraphWellFormed | src/data/knowledgeGraphData.ts:12-271 | a map that passes the executable checks has unique ids, resolved dependencies, no cycle, and statuses that respect its dependencies |
| KnowledgeGraphData.DataStructuresWellFormed | src/data/knowledgeGraphData.ts:12-103 | the data structures map is well formed, its statuses respect its dependencies, and `arrays` is its only root |
| KnowledgeGraphData.AlgorithmWellFormed | src/data/knowledgeGraphData.ts:105-178 | the algorithms map is well formed, its statuses respect its dependencies, and `timeComplexity` is its only root |
| KnowledgeGraphData.WebDevWellFormed | src/data/knowledgeGraphData.ts:180-271 | the web development map is well formed, its statuses respect its dependencies, and `html` is its only root |
| KnowledgeGraphData.KnowledgeGraphsWellFormed | src/data/knowledgeGraphData.ts:273-277 | every map in `knowledgeGraphs` is well formed |
| KnowledgeGraph.RenderConnections | src/components/KnowledgeGraph.tsx:80-105 | `renderConnections()`: exactly one line per (node, resolving dependency id) pair (`LinesMembers`), never more lines than dependency ids (`LinesCount`) |
| KnowledgeGraph.NodeStatusColor | src/components/KnowledgeGraph.tsx:27-38 | `getNodeStatusColor(status)` with its default for other strings; the three statuses get three different non-default colours (`LookupsDistinguish`) |
| KnowledgeGraph.NodeTypeText | src/components/KnowledgeGraph.tsx:53-64 | `getNodeTypeText(type)` with its default "Topic"; the three types get three different non-default texts (`LookupsDistinguish`) |
| KnowledgeGraph.ButtonDisabled | src/components/KnowledgeGraph.tsx:170 | `disabled={node.status === 'locked'}`: disabled exactly when the button reads Unlock (`DisabledExactlyWhenUnlock`) |
| KnowledgeGraph.FindNodeSpec | src/components/KnowledgeGraph.tsx:83 | a dependency id resolves exactly when some node has it, and resolves to a node with that id |
| KnowledgeGraph.Line | src/components/KnowledgeGraph.tsx:86-101 | a line runs from the node's position to the dependency's position, and is grey and dashed exactly when the node is locked |
| KnowledgeGraph.NodeLinesMembers | src/components/KnowledgeGraph.tsx:82-103 | a node's lines are exactly the lines to the nodes its resolving dependency ids name |
| KnowledgeGraph.NodeLinesCount | src/components/KnowledgeGraph.tsx:82-85 | a node has at most one line per dependency id, and exactly one per id when every id resolves |
| KnowledgeGraph.LinesMembers | src/components/KnowledgeGraph.tsx:80-105 | the lines drawn are exactly the lines for (node, resolving dependency id) pairs |
| KnowledgeGraph.LinesCount | src/components/KnowledgeGraph.tsx:80-105 | there are never more lines than dependency ids, and exactly as many when every dependency resolves |
| KnowledgeGraph.RenderDropsNothing | src/components/KnowledgeGraph.tsx:80-105 | in a map whose dependencies all resolve, one line is drawn per dependency |
| KnowledgeGraph.ShippedDependencyCounts | src/data/knowledgeGraphData.ts:12-271 | the shipped maps have 12, 8 and 11 dependency ids |
| KnowledgeGraph.ShippedDepsResolve | src/data/knowledgeGraphData.ts:12-271 | every dependency of the shipped maps resolves |
| KnowledgeGraph.ShippedLineCounts | src/components/KnowledgeGraph.tsx:80-105 | the shipped maps draw every edge: 12, 8 and 11 lines |
| KnowledgeGraph.LookupsDistinguish | src/components/KnowledgeGraph.tsx:27-64 | a node's status and type never fall to the lookups' defaults, and different statuses or types get different colours or texts |
| KnowledgeGraph.ButtonLabel | src/components/KnowledgeGraph.tsx:172 | the button reads Review Again, Continue or Unlock |
| KnowledgeGraph.DisabledExactlyWhenUnlock | src/components/KnowledgeGraph.tsx:170-172 | the button is disabled exactly when it reads Unlock; it reads Review Again exactly for completed and Continue exactly for in-progress nodes |
| CodingPractice.CodingQuestions | src/components/CodingPractice.tsx:18-67 | `codingQuestions`: five DSA questions q1 to q5 and one SD question q6 (`ShippedSlices`) |
| CodingPractice.DailyChallenges | src/components/CodingPractice.tsx:155-158 | `filter(q => q.category === 'DSA').slice(0, 4)`: a prefix of the DSA questions of length min(4, count) (`DailyChallengesSpec`) |
| CodingPractice.SystemDesign | src/components/CodingPractice.tsx:172-174 | `filter(q => q.category === 'SD')`: exactly the SD questions (`SystemDesignSpec`), none of them a daily challenge (`SlicesDisjoint`) |
| CodingPractice.DifficultyColor | src/components/CodingPractice.tsx:75-79 | every difficulty has one of the three badge colours |
| CodingPractice.DifficultyColorsDistinct | src/components/CodingPractice.tsx:75-79 | the colour map tells the three difficulties apart |
| CodingPractice.DailyChallengesSpec | src/components/CodingPractice.tsx:155-158 | the daily challenges are a prefix of the DSA questions in original order: at most four, all of them when there are at most four, and each a DSA question of the list |
| CodingPractice.SystemDesignSpec | src/components/CodingPractice.tsx:172-174 | the system-design list holds exactly the `'SD'` questions |
| CodingPractice.SlicesDisjoint | src/components/CodingPractice.tsx:155-174 | no question is both a daily challenge and a system-design question |
| CodingPractice.ShippedSlices | src/components/CodingPractice.tsx:18-67 | the shipped card shows q1 to q4 as daily challenges, leaves out the fifth DSA question q5, and lists q6 alone under system design |

## Left out

- JSX rendering, CSS layout, icons, charts and animation are not modelled. Colour classes and texts are modelled only where logic chooses them.
- Timers are not modelled as time. The chat reply and the login check are each a queued second step. Overlapping replies are kept in queue order, with no timing between them.
- The course page's 500 ms loading flag and its re-lookup on a changed route parameter (src/components/CourseDetails.tsx:19-26) are not modelled. The page is modelled from the lookup on.
- `Math.random` in the slot generator is a parameter: `coin(k)` is the k-th draw of `Math.random() > 0.5`.
- Floating point is not modelled. `Math.round` of a ratio is exact rational rounding half up. The course page's unrounded progress-bar value is not modelled.
- `localeCompare` is plain lexicographic order by character code, so locale collation is not modelled. `toLowerCase` and `toUpperCase` act on ASCII letters only; other letters keep their case. `trim` removes JavaScript's full white-space and line-terminator set.
- Navigation, toasts and `useParams` are framework calls. A navigation is modelled as the returned route string. A toast is modelled as the `Rejected`/`Accepted` outcome.
- Display-only fields are dropped from the data:
  - lesson titles and durations;
  - task titles, due dates and commits;
  - node titles and descriptions;
  - mentor ratings and bios;
  - leaderboard names, avatars and badges;
  - question titles and tags.
- The canned chat responses are represented by their key (coding, learning, resume, general), not by their text.
- KnowledgeGraph.NodeStatusColor, KnowledgeGraph.NodeTypeText: the lookups take any string, as in the source. The node type is an enum written out by `TypeName`. The icon lookups (`getNodeIcon`, `getStatusIcon`) and the node box placement and opacity are presentation and are not modelled.
- ProjectTracker.StatusName: a project's status type in the model also admits `pending`, which the source allows only for tasks. No shipped project is pending.
- The remaining tabs of the coding-practice card (assessments, roadmaps, interview preparation) and the dashboards' static content contain no logic and are not modelled.
- The "view more problems" button and `setSelectedQuestion` in the coding-practice card have no visible effect and are not modelled.
