/** The static course catalogue of `src/data/coursesData.ts`: the `Course` record, the
    eight shipped courses, the `categorizedCourses` buckets and the `courseRoadmaps`. */
module CourseCatalog {
  import opened Wrappers
  import opened Seqs

  /** `level: 'Beginner' | 'Intermediate' | 'Advanced'`. */
  datatype Level = Beginner | Intermediate | Advanced

  /** The string a level is written as, which is what the level filter compares against. */
  function LevelName(level: Level): (r: string)
    ensures r in ["Beginner", "Intermediate", "Advanced"]
  {
    match level
    case Beginner => "Beginner"
    case Intermediate => "Intermediate"
    case Advanced => "Advanced"
  }

  /** A lesson as the logic reads it: only the optional `completed` flag (absent on most
      courses); the title and duration are display text. */
  datatype Lesson = Lesson(completed: Option<bool>)

  /** One module of a course (named `modules` in the source). */
  datatype CourseModule = CourseModule(title: string, lessons: seq<Lesson>)

  /** The fields of `Course` that the logic reads or that are shown as numbers. */
  datatype Course = Course(
    id: string,
    title: string,
    description: string,
    instructor: string,
    duration: string,
    students: int,
    progress: Option<int>,
    category: string,
    level: Level,
    modules: seq<CourseModule>)

  /** The ids of a list of courses, in order. */
  function Ids(courses: seq<Course>): (r: seq<string>)
    ensures |r| == |courses|
    ensures forall i :: 0 <= i < |courses| ==> r[i] == courses[i].id
  {
    seq(|courses|, i requires 0 <= i < |courses| => courses[i].id)
  }

  /** `coursesData`, one constant per course. */
  const WebDev101: Course :=
    Course(
    "web-dev-101",
    "Web Development Fundamentals",
    "Learn the core concepts of web development including HTML, CSS, and JavaScript to build responsive websites from scratch.",
    "Prof. Sarah Wilson",
    "8 weeks",
    457,
    Some(68),
    "Web Development",
    Beginner,
    [
      CourseModule("Introduction to HTML", [Lesson(Some(true)), Lesson(Some(true)), Lesson(Some(true))]),
      CourseModule("CSS Styling", [Lesson(Some(true)), Lesson(Some(true)), Lesson(Some(false))]),
      CourseModule("JavaScript Basics", [Lesson(Some(false)), Lesson(Some(false)), Lesson(Some(false))]),
      CourseModule("Advanced Topics", [Lesson(Some(false)), Lesson(Some(false)), Lesson(Some(false))])
    ])

  const JavaProgramming: Course :=
    Course(
    "java-programming",
    "Java Programming Masterclass",
    "Comprehensive course covering core Java concepts, object-oriented programming, and building robust applications.",
    "Dr. Michael Chen",
    "12 weeks",
    382,
    Some(35),
    "Programming Languages",
    Intermediate,
    [
      CourseModule("Java Fundamentals", [Lesson(Some(true)), Lesson(Some(true)), Lesson(Some(false))]),
      CourseModule("Object-Oriented Programming", [Lesson(Some(false)), Lesson(Some(false)), Lesson(Some(false))]),
      CourseModule("Java Collections", [Lesson(Some(false)), Lesson(Some(false)), Lesson(Some(false))]),
      CourseModule("Advanced Java", [Lesson(Some(false)), Lesson(Some(false)), Lesson(Some(false)), Lesson(Some(false))])
    ])

  const PythonDataScience: Course :=
    Course(
    "python-data-science",
    "Python for Data Science",
    "Learn Python programming for data analysis, visualization, and machine learning with practical projects.",
    "Prof. Elena Rodriguez",
    "10 weeks",
    524,
    Some(0),
    "Data Science",
    Intermediate,
    [
      CourseModule("Python Basics", [Lesson(None), Lesson(None), Lesson(None)]),
      CourseModule("Data Analysis with Pandas", [Lesson(None), Lesson(None), Lesson(None)]),
      CourseModule("Data Visualization", [Lesson(None), Lesson(None), Lesson(None)]),
      CourseModule("Machine Learning Basics", [Lesson(None), Lesson(None), Lesson(None)]),
      CourseModule("Capstone Project", [Lesson(None), Lesson(None), Lesson(None), Lesson(None)])
    ])

  const MernStack: Course :=
    Course(
    "mern-stack",
    "MERN Stack Development",
    "Build full-stack web applications using MongoDB, Express, React, and Node.js with authentication and deployment.",
    "Alex Johnson",
    "14 weeks",
    328,
    Some(15),
    "Web Development",
    Advanced,
    [
      CourseModule("Frontend with React", [Lesson(Some(true)), Lesson(Some(false)), Lesson(Some(false))]),
      CourseModule("Backend with Node.js & Express", [Lesson(Some(false)), Lesson(Some(false)), Lesson(Some(false))]),
      CourseModule("Database with MongoDB", [Lesson(Some(false)), Lesson(Some(false)), Lesson(Some(false))]),
      CourseModule("Full Stack Integration", [Lesson(Some(false)), Lesson(Some(false)), Lesson(Some(false))]),
      CourseModule("Advanced Topics", [Lesson(Some(false)), Lesson(Some(false)), Lesson(Some(false)), Lesson(Some(false))])
    ])

  const ReactNative: Course :=
    Course(
    "react-native",
    "Mobile App Development with React Native",
    "Create cross-platform mobile applications for iOS and Android using React Native and JavaScript.",
    "David Miller",
    "10 weeks",
    269,
    Some(0),
    "Mobile Development",
    Intermediate,
    [
      CourseModule("React Native Fundamentals", [Lesson(None), Lesson(None), Lesson(None)]),
      CourseModule("Navigation and Routing", [Lesson(None), Lesson(None), Lesson(None)]),
      CourseModule("Working with Data", [Lesson(None), Lesson(None), Lesson(None)]),
      CourseModule("Native Features", [Lesson(None), Lesson(None), Lesson(None)]),
      CourseModule("Deployment and Publishing", [Lesson(None), Lesson(None), Lesson(None), Lesson(None)])
    ])

  const AwsCloud: Course :=
    Course(
    "aws-cloud",
    "AWS Cloud Practitioner",
    "Introduction to AWS cloud services, infrastructure, security, and pricing models to prepare for the AWS certification.",
    "Dr. James Smith",
    "6 weeks",
    421,
    Some(0),
    "Cloud Computing",
    Beginner,
    [
      CourseModule("Cloud Concepts", [Lesson(None), Lesson(None), Lesson(None)]),
      CourseModule("Core AWS Services", [Lesson(None), Lesson(None), Lesson(None)]),
      CourseModule("Security and Compliance", [Lesson(None), Lesson(None), Lesson(None)]),
      CourseModule("Pricing and Support", [Lesson(None), Lesson(None), Lesson(None)]),
      CourseModule("Certification Preparation", [Lesson(None), Lesson(None), Lesson(None)])
    ])

  const CybersecurityFundamentals: Course :=
    Course(
    "cybersecurity-fundamentals",
    "Cybersecurity Fundamentals",
    "Learn essential cybersecurity concepts, threat detection, and protection strategies to safeguard digital assets.",
    "Prof. Jessica Lee",
    "8 weeks",
    315,
    Some(0),
    "Cybersecurity",
    Beginner,
    [
      CourseModule("Introduction to Cybersecurity", [Lesson(None), Lesson(None), Lesson(None)]),
      CourseModule("Network Security", [Lesson(None), Lesson(None), Lesson(None)]),
      CourseModule("Application Security", [Lesson(None), Lesson(None), Lesson(None)]),
      CourseModule("Security Operations", [Lesson(None), Lesson(None), Lesson(None)])
    ])

  const FlutterDevelopment: Course :=
    Course(
    "flutter-development",
    "Flutter App Development",
    "Create beautiful native apps for iOS and Android from a single codebase using Flutter and Dart.",
    "Emily Zhang",
    "9 weeks",
    287,
    Some(0),
    "Mobile Development",
    Intermediate,
    [
      CourseModule("Dart Programming Basics", [Lesson(None), Lesson(None), Lesson(None)]),
      CourseModule("Flutter Fundamentals", [Lesson(None), Lesson(None), Lesson(None)]),
      CourseModule("Advanced UI and Navigation", [Lesson(None), Lesson(None), Lesson(None)]),
      CourseModule("State Management and Data", [Lesson(None), Lesson(None), Lesson(None)])
    ])

  const CoursesData: seq<Course> := [
    WebDev101,
    JavaProgramming,
    PythonDataScience,
    MernStack,
    ReactNative,
    AwsCloud,
    CybersecurityFundamentals,
    FlutterDevelopment
  ]

  /** The predicate of one bucket filter: `course.category === category`. */
  function InCategory(category: string): Course -> bool {
    (c: Course) => c.category == category
  }

  /** The bucket names of `categorizedCourses`, each with the category string it filters on. */
  const BucketCategories: seq<(string, string)> := [
    ("webDevelopment", "Web Development"),
    ("programming", "Programming Languages"),
    ("dataScience", "Data Science"),
    ("mobile", "Mobile Development"),
    ("cloud", "Cloud Computing"),
    ("cybersecurity", "Cybersecurity")
  ]

  /** The buckets of `categorizedCourses` for a course list: each bucket name maps to
      the list filtered on its category. */
  function Categorize(courses: seq<Course>): (r: map<string, seq<Course>>)
    ensures forall j :: 0 <= j < |BucketCategories| ==> BucketCategories[j].0 in r
  {
    map[
      "webDevelopment" := Filter(courses, InCategory("Web Development")),
      "programming" := Filter(courses, InCategory("Programming Languages")),
      "dataScience" := Filter(courses, InCategory("Data Science")),
      "mobile" := Filter(courses, InCategory("Mobile Development")),
      "cloud" := Filter(courses, InCategory("Cloud Computing")),
      "cybersecurity" := Filter(courses, InCategory("Cybersecurity"))
    ]
  }

  /** `categorizedCourses`. */
  const CategorizedCourses: map<string, seq<Course>> := Categorize(CoursesData)

  /** One step of a roadmap; `courses` holds course ids. */
  datatype RoadmapStep = RoadmapStep(name: string, courses: seq<string>, skills: seq<string>)

  /** A learning path. */
  datatype Roadmap = Roadmap(title: string, description: string, steps: seq<RoadmapStep>)

  /** `courseRoadmaps`. */
  const CourseRoadmaps: map<string, Roadmap> := map[
    "web-development" := Roadmap(
      "Full Stack Web Development Path",
      "Comprehensive roadmap to become a full-stack web developer",
      [
        RoadmapStep("Frontend Fundamentals", ["web-dev-101"], ["HTML5", "CSS3", "JavaScript Basics"]),
        RoadmapStep("JavaScript Mastery", [], ["Advanced JavaScript", "ES6+", "DOM Manipulation"]),
        RoadmapStep("Frontend Frameworks", [], ["React.js", "State Management", "Component Architecture"]),
        RoadmapStep("Backend Development", ["mern-stack"], ["Node.js", "Express.js", "API Development"]),
        RoadmapStep("Database Integration", ["mern-stack"], ["MongoDB", "SQL Basics", "Database Design"]),
        RoadmapStep("Full Stack Projects", ["mern-stack"], ["Full Stack Architecture", "Deployment", "Testing"])
      ]),
    "data-science" := Roadmap(
      "Data Science Career Path",
      "Complete journey from basics to advanced data science",
      [
        RoadmapStep("Programming Foundations", ["python-data-science"], ["Python Basics", "Data Structures", "Algorithms"]),
        RoadmapStep("Data Analysis", ["python-data-science"], ["Pandas", "NumPy", "Data Cleaning"]),
        RoadmapStep("Data Visualization", ["python-data-science"], ["Matplotlib", "Seaborn", "Dashboard Creation"]),
        RoadmapStep("Machine Learning Basics", ["python-data-science"], ["Scikit-learn", "Supervised Learning", "Model Evaluation"]),
        RoadmapStep("Advanced Machine Learning", [], ["Deep Learning", "Neural Networks", "NLP"]),
        RoadmapStep("Big Data & Deployment", [], ["Spark", "Model Deployment", "Production ML"])
      ]),
    "mobile-development" := Roadmap(
      "Mobile App Developer Path",
      "From beginner to professional mobile app developer",
      [
        RoadmapStep("Programming Basics", [], ["Programming Logic", "Variables & Control Flow", "Functions"]),
        RoadmapStep("UI/UX Fundamentals", [], ["Mobile Design Principles", "Wireframing", "Prototyping"]),
        RoadmapStep("Cross-Platform Development", ["react-native", "flutter-development"], ["React Native", "Flutter", "Component-based Architecture"]),
        RoadmapStep("State Management & API Integration", ["react-native"], ["Redux/Context API", "RESTful Services", "GraphQL"]),
        RoadmapStep("Native Features", ["react-native"], ["Camera", "Geolocation", "Push Notifications"]),
        RoadmapStep("App Store Publishing", ["react-native", "flutter-development"], ["App Store Guidelines", "TestFlight", "Google Play Console"])
      ])
  ]

  /** No two shipped courses share an id. */
  lemma CourseIdsUnique()
    ensures Distinct(Ids(CoursesData))
  {
    var ids := Ids(CoursesData);
    assert ids == ["web-dev-101", "java-programming", "python-data-science", "mern-stack",
                   "react-native", "aws-cloud", "cybersecurity-fundamentals", "flutter-development"];
  }

  /** The six bucket categories are different strings. */
  lemma BucketCategoriesDistinct()
    ensures forall i, j :: 0 <= i < j < |BucketCategories| ==> BucketCategories[i].1 != BucketCategories[j].1
  {
  }

  /** The category of some bucket. */
  predicate HasBucket(c: Course) {
    exists j :: 0 <= j < |BucketCategories| && c.category == BucketCategories[j].1
  }

  /** Every shipped course has the category of one of the buckets. */
  lemma ShippedCategoriesBucketed()
    ensures forall k :: 0 <= k < |CoursesData| ==> HasBucket(CoursesData[k])
  {
    assert CoursesData[0].category == BucketCategories[0].1;
    assert CoursesData[1].category == BucketCategories[1].1;
    assert CoursesData[2].category == BucketCategories[2].1;
    assert CoursesData[3].category == BucketCategories[0].1;
    assert CoursesData[4].category == BucketCategories[3].1;
    assert CoursesData[5].category == BucketCategories[4].1;
    assert CoursesData[6].category == BucketCategories[5].1;
    assert CoursesData[7].category == BucketCategories[3].1;
  }

  /** A course is in a category's bucket exactly when it is in the list and has that category. */
  lemma InBucket(courses: seq<Course>, category: string, c: Course)
    ensures c in Filter(courses, InCategory(category)) <==> c in courses && c.category == category
  {
    FilterMembers(courses, InCategory(category));
  }

  /** Bucketing any course list whose categories all have a bucket partitions it:
      every course lies in exactly one bucket. */
  lemma BucketsPartition(courses: seq<Course>)
    requires forall k :: 0 <= k < |courses| ==> HasBucket(courses[k])
    ensures forall k :: 0 <= k < |courses| ==>
      exists j :: 0 <= j < |BucketCategories| && courses[k] in Filter(courses, InCategory(BucketCategories[j].1))
    ensures forall c, i, j :: 0 <= i < j < |BucketCategories| && c in Filter(courses, InCategory(BucketCategories[i].1)) ==>
      c !in Filter(courses, InCategory(BucketCategories[j].1))
  {
    forall k | 0 <= k < |courses|
      ensures exists j :: 0 <= j < |BucketCategories| && courses[k] in Filter(courses, InCategory(BucketCategories[j].1))
    {
      var j :| 0 <= j < |BucketCategories| && courses[k].category == BucketCategories[j].1;
      InBucket(courses, BucketCategories[j].1, courses[k]);
    }
    forall c, i, j | 0 <= i < j < |BucketCategories| && c in Filter(courses, InCategory(BucketCategories[i].1))
      ensures c !in Filter(courses, InCategory(BucketCategories[j].1))
    {
      BucketCategoriesDistinct();
      InBucket(courses, BucketCategories[i].1, c);
      InBucket(courses, BucketCategories[j].1, c);
    }
  }

  /** Each bucket of `categorizedCourses` is the list filtered on that bucket's category. */
  lemma CategorizeBucket(courses: seq<Course>, j: int)
    requires 0 <= j < |BucketCategories|
    ensures Categorize(courses)[BucketCategories[j].0] == Filter(courses, InCategory(BucketCategories[j].1))
  {
  }

  /** The shipped `categorizedCourses` partitions the shipped catalogue. */
  lemma CategorizedCoursesPartition()
    ensures forall k :: 0 <= k < |CoursesData| ==>
      exists j :: 0 <= j < |BucketCategories| && CoursesData[k] in CategorizedCourses[BucketCategories[j].0]
    ensures forall c, i, j :: 0 <= i < j < |BucketCategories| && c in CategorizedCourses[BucketCategories[i].0] ==>
      c !in CategorizedCourses[BucketCategories[j].0]
  {
    ShippedCategoriesBucketed();
    var cs := CoursesData;
    BucketsPartition(cs);
    forall j | 0 <= j < |BucketCategories|
      ensures CategorizedCourses[BucketCategories[j].0] == Filter(cs, InCategory(BucketCategories[j].1))
    {
      CategorizeBucket(cs, j);
    }
    forall k | 0 <= k < |cs|
      ensures exists j :: 0 <= j < |BucketCategories| && cs[k] in CategorizedCourses[BucketCategories[j].0]
    {
      var j :| 0 <= j < |BucketCategories| && cs[k] in Filter(cs, InCategory(BucketCategories[j].1));
      CategorizeBucket(cs, j);
    }
  }

  /** Every course id a roadmap step links to names a shipped course. */
  lemma RoadmapCoursesExist()
    ensures forall key, i, id ::
              key in CourseRoadmaps && 0 <= i < |CourseRoadmaps[key].steps| && id in CourseRoadmaps[key].steps[i].courses
              ==> id in Ids(CoursesData)
  {
    var ids := Ids(CoursesData);
    assert ids == ["web-dev-101", "java-programming", "python-data-science", "mern-stack",
                   "react-native", "aws-cloud", "cybersecurity-fundamentals", "flutter-development"];
  }
}
