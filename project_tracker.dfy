/** The mini project tracker: which project is expanded, a project's task statistics,
    its status badges and the names of task assignees. */
module ProjectTracker {
  import opened Wrappers
  import opened Seqs
  import opened Text

  /** `status: 'pending' | 'in-progress' | 'completed' | 'overdue'`; a project's own status is
      never `pending`. */
  datatype Status = Pending | InProgress | Completed | Overdue

  /** The string a status is written as. */
  function StatusName(status: Status): (r: string)
    ensures r != ""
  {
    match status
    case Pending => "pending"
    case InProgress => "in-progress"
    case Completed => "completed"
    case Overdue => "overdue"
  }

  /** A project member. */
  datatype Member = Member(id: string, name: string)

  /** A task as the logic reads it; the title and due date are display text. */
  datatype Task = Task(id: string, status: Status, assignee: Option<string>)

  /** A project as the logic reads it. */
  datatype Project = Project(id: string, status: Status, members: seq<Member>, tasks: seq<Task>)

  /** `task.status === 'completed'`. */
  function IsDone(task: Task): bool {
    task.status == Completed
  }

  /** `task.status === 'pending' || task.status === 'in-progress'`. */
  function IsOpen(task: Task): bool {
    task.status == Pending || task.status == InProgress
  }

  /** `task.status === 'overdue'`, which neither statistic counts. */
  function IsLate(task: Task): bool {
    task.status == Overdue
  }

  /** "Tasks Completed". */
  function TasksCompleted(tasks: seq<Task>): nat {
    |Filter(tasks, IsDone)|
  }

  /** "Tasks Remaining". */
  function TasksRemaining(tasks: seq<Task>): nat {
    |Filter(tasks, IsOpen)|
  }

  /** Every task is completed, remaining or overdue and counted once: the two statistics
      together fall short of the number of tasks by exactly the overdue ones. */
  lemma {:induction false} TaskCountsPartition(tasks: seq<Task>)
    ensures TasksCompleted(tasks) + TasksRemaining(tasks) + |Filter(tasks, IsLate)| == |tasks|
    ensures TasksCompleted(tasks) + TasksRemaining(tasks) <= |tasks|
  {
    if tasks != [] {
      TaskCountsPartition(tasks[..|tasks| - 1]);
    }
  }

  /** With no overdue task the two statistics add up to the number of tasks. */
  lemma NoOverdueCountsAll(tasks: seq<Task>)
    requires forall i :: 0 <= i < |tasks| ==> tasks[i].status != Overdue
    ensures TasksCompleted(tasks) + TasksRemaining(tasks) == |tasks|
  {
    TaskCountsPartition(tasks);
    FilterDropsAll(tasks, IsLate);
  }

  /** The project badge: `'In Progress'` for in-progress, otherwise the status with its first
      letter upper-cased. */
  function ProjectBadge(status: Status): (r: string)
    ensures status != InProgress ==> |r| == |StatusName(status)| && r[1..] == StatusName(status)[1..]
                                     && r[0] == UpperChar(StatusName(status)[0])
  {
    if status == InProgress then "In Progress" else Capitalize(StatusName(status))
  }

  /** A task's badge: the status with its first letter upper-cased, with no special case. */
  function TaskBadge(status: Status): (r: string)
    ensures |r| == |StatusName(status)| && r[1..] == StatusName(status)[1..]
    ensures r[0] == UpperChar(StatusName(status)[0])
  {
    Capitalize(StatusName(status))
  }

  /** The badges as shown: both badges read the same except for an in-progress status. */
  lemma Badges()
    ensures ProjectBadge(InProgress) == "In Progress" && TaskBadge(InProgress) == "In-progress"
    ensures ProjectBadge(Completed) == TaskBadge(Completed) == "Completed"
    ensures ProjectBadge(Overdue) == TaskBadge(Overdue) == "Overdue"
    ensures ProjectBadge(Pending) == TaskBadge(Pending) == "Pending"
  {
  }

  /** Different statuses get different badges, so a badge tells the status. */
  lemma BadgesDistinguishStatus(a: Status, b: Status)
    requires a != b
    ensures ProjectBadge(a) != ProjectBadge(b) && TaskBadge(a) != TaskBadge(b)
  {
    Badges();
  }

  /** The members with a given id. */
  function MemberWithId(id: string): Member -> bool {
    (m: Member) => m.id == id
  }

  /** `project.members.find(m => m.id === task.assignee)?.name`. */
  function AssigneeName(members: seq<Member>, assignee: string): Option<string> {
    match Find(members, MemberWithId(assignee))
    case Some(m) => Some(m.name)
    case None => None
  }

  /** A name is shown exactly when some member has the assignee's id, and it is the name of
      the first such member. */
  lemma AssigneeNameSpec(members: seq<Member>, assignee: string)
    ensures AssigneeName(members, assignee).None? <==> forall i :: 0 <= i < |members| ==> members[i].id != assignee
    ensures AssigneeName(members, assignee).Some? ==>
      exists i :: 0 <= i < |members| && members[i].id == assignee && members[i].name == AssigneeName(members, assignee).value
                  && forall j :: 0 <= j < i ==> members[j].id != assignee
  {
    var r := Find(members, MemberWithId(assignee));
    if r.None? {
      forall i | 0 <= i < |members| ensures members[i].id != assignee {
        assert !MemberWithId(assignee)(members[i]);
      }
    } else {
      var i :| 0 <= i < |members| && members[i] == r.value && MemberWithId(assignee)(members[i])
               && forall j :: 0 <= j < i ==> !MemberWithId(assignee)(members[j]);
      forall j | 0 <= j < i ensures members[j].id != assignee {
        assert !MemberWithId(assignee)(members[j]);
      }
    }
    if forall i :: 0 <= i < |members| ==> members[i].id != assignee {
      forall i | 0 <= i < |members| ensures !MemberWithId(assignee)(members[i]) {
      }
    }
  }

  /** `task.assignee && …`: the "Assigned to" chip is shown only for a non-empty assignee. */
  predicate ShowsAssignee(task: Task) {
    task.assignee.Some? && task.assignee.value != ""
  }

  /** The three shipped projects, without their titles, mentors and commits. */
  const Projects: seq<Project> := [
    Project("p1", InProgress,
      [Member("m1", "Alex Johnson"), Member("m2", "Maria Rodriguez"), Member("m3", "David Kim")],
      [Task("t1", Completed, None), Task("t2", Completed, None), Task("t3", InProgress, Some("m1")),
       Task("t4", InProgress, Some("m2")), Task("t5", Pending, Some("m3")), Task("t6", Pending, None)]),
    Project("p2", Overdue,
      [Member("m1", "Alex Johnson"), Member("m4", "James Smith")],
      [Task("t1", Completed, None), Task("t2", Completed, None), Task("t3", InProgress, Some("m1")),
       Task("t4", Pending, Some("m4")), Task("t5", Pending, None)]),
    Project("p3", Completed,
      [Member("m2", "Maria Rodriguez"), Member("m3", "David Kim")],
      [Task("t1", Completed, None), Task("t2", Completed, None), Task("t3", Completed, None),
       Task("t4", Completed, None), Task("t5", Completed, None)])
  ]

  /** Every assignee of a shipped task is a member of its project, so every chip shows a name. */
  lemma ShippedAssigneesResolve()
    ensures forall p, k :: 0 <= p < |Projects| && 0 <= k < |Projects[p].tasks| && ShowsAssignee(Projects[p].tasks[k]) ==>
      AssigneeName(Projects[p].members, Projects[p].tasks[k].assignee.value).Some?
  {
    forall p, k | 0 <= p < |Projects| && 0 <= k < |Projects[p].tasks| && ShowsAssignee(Projects[p].tasks[k])
      ensures AssigneeName(Projects[p].members, Projects[p].tasks[k].assignee.value).Some?
    {
      var members, assignee := Projects[p].members, Projects[p].tasks[k].assignee.value;
      AssigneeNameSpec(members, assignee);
      assert exists i :: 0 <= i < |members| && members[i].id == assignee;
    }
  }

  /** The ids of the projects are pairwise different. */
  predicate DistinctIds(projects: seq<Project>) {
    forall i, j :: 0 <= i < j < |projects| ==> projects[i].id != projects[j].id
  }

  /** `expandedProject === project.id`: the project is shown expanded. */
  function IsExpanded(expanded: string): Project -> bool {
    (p: Project) => p.id == expanded
  }

  /** Whatever the state, among projects with distinct ids at most one is expanded. */
  lemma {:induction false} AtMostOneExpanded(projects: seq<Project>, expanded: string)
    requires DistinctIds(projects)
    ensures |Filter(projects, IsExpanded(expanded))| <= 1
  {
    if projects != [] {
      var init, last := projects[..|projects| - 1], projects[|projects| - 1];
      AtMostOneExpanded(init, expanded);
      if IsExpanded(expanded)(last) {
        forall i | 0 <= i < |init| ensures !IsExpanded(expanded)(init[i]) {
          assert init[i] == projects[i];
        }
        FilterDropsAll(init, IsExpanded(expanded));
      }
    }
  }

  /** On the shipped page, whatever the state, at most one project card is expanded. */
  lemma ShippedAtMostOneExpanded(expanded: string)
    ensures |Filter(Projects, IsExpanded(expanded))| <= 1
  {
    assert DistinctIds(Projects);
    AtMostOneExpanded(Projects, expanded);
  }

  /** `toggleProject(id)`: the expanded project is collapsed to `''`, any other becomes the
      expanded one. */
  function Toggled(expanded: string, id: string): (r: string)
    ensures r == "" || r == id
    ensures id != "" ==> (r == id <==> expanded != id)
  {
    if expanded == id then "" else id
  }

  /** The tracker's state cell. */
  class Tracker {
    var expandedProject: string

    /** The first project starts expanded. */
    constructor ()
      ensures expandedProject == "p1"
    {
      expandedProject := "p1";
    }

    /** A click on a project's header. */
    method ToggleProject(id: string)
      modifies this
      ensures expandedProject == Toggled(old(expandedProject), id)
      ensures expandedProject == "" || expandedProject == id
    {
      expandedProject := if expandedProject == id then "" else id;
    }
  }

  /** A task list that is a run of completed tasks followed by a run of open ones. */
  lemma SplitCounts(done: seq<Task>, open: seq<Task>)
    requires forall x :: x in done ==> IsDone(x)
    requires forall x :: x in open ==> IsOpen(x)
    ensures TasksCompleted(done + open) == |done| && TasksRemaining(done + open) == |open|
  {
    FilterAppend(done, open, IsDone);
    FilterAppend(done, open, IsOpen);
    FilterKeepsAll(done, IsDone);
    FilterDropsAll(done, IsOpen);
    FilterKeepsAll(open, IsOpen);
    FilterDropsAll(open, IsDone);
  }

  /** The shipped statistics: 2 done and 4 remaining in p1, 2 and 3 in p2, 5 and 0 in p3. */
  lemma ShippedCounts()
    ensures TasksCompleted(Projects[0].tasks) == 2 && TasksRemaining(Projects[0].tasks) == 4
    ensures TasksCompleted(Projects[1].tasks) == 2 && TasksRemaining(Projects[1].tasks) == 3
    ensures TasksCompleted(Projects[2].tasks) == 5 && TasksRemaining(Projects[2].tasks) == 0
  {
    var t0, t1, t2 := Projects[0].tasks, Projects[1].tasks, Projects[2].tasks;
    SplitCounts(t0[..2], t0[2..]);
    assert t0 == t0[..2] + t0[2..];
    SplitCounts(t1[..2], t1[2..]);
    assert t1 == t1[..2] + t1[2..];
    SplitCounts(t2, []);
    assert t2 == t2 + [];
  }
}
