/** Mentor matchmaking: the mentor filter by match score and learning area, and the
    weekly time slots generated for a selected mentor. */
module MentorMatchmaking {
  import opened Wrappers
  import opened Seqs
  import opened Text

  /** The fields of `Mentor` the logic reads. */
  datatype Mentor = Mentor(
    id: string,
    name: string,
    role: string,
    expertise: seq<string>,
    available: bool,
    matchScore: int)

  /** `mentors`. */
  const Mentors: seq<Mentor> := [
    Mentor("m1", "Dr. Sarah Wilson", "Faculty", ["Web Development", "UI/UX", "JavaScript", "React"], true, 95),
    Mentor("m2", "Prof. Michael Chen", "Faculty", ["Algorithms", "Data Structures", "System Design", "Java"], true, 88),
    Mentor("m3", "Amanda Rodriguez", "Industry Expert", ["Machine Learning", "Python", "Data Science", "TensorFlow"], true, 82),
    Mentor("m4", "James Thompson", "Industry Expert", ["Cloud Computing", "DevOps", "AWS", "Microservices"], false, 75),
    Mentor("m5", "Rajiv Patel", "Senior Student", ["React", "Node.js", "MongoDB", "JavaScript"], true, 90)
  ]

  /** A learning area of the area picker. */
  datatype LearningArea = LearningArea(id: string, name: string)

  /** `learningAreas`. */
  const LearningAreas: seq<LearningArea> := [
    LearningArea("algorithms", "Algorithms"),
    LearningArea("web", "Web Development"),
    LearningArea("database", "Database Systems"),
    LearningArea("cloud", "Cloud Computing"),
    LearningArea("ml", "Machine Learning"),
    LearningArea("system", "System Design")
  ]

  /** The areas with a given id. */
  function AreaWithId(id: string): LearningArea -> bool {
    (area: LearningArea) => area.id == id
  }

  /** One expertise matches the selected area: the expertise contains the area id, or the
      area's display name contains the expertise (letter case ignored on both sides). */
  predicate ExpertiseMatches(selectedArea: string, exp: string) {
    Includes(Lower(exp), Lower(selectedArea))
    || (match Find(LearningAreas, AreaWithId(selectedArea))
        case Some(area) => Includes(Lower(area.name), Lower(exp))
        case None => false)
  }

  /** The condition of `filteredMentors`. */
  predicate MentorMatches(selectedArea: string, matchThreshold: int, m: Mentor) {
    m.matchScore >= matchThreshold
    && (selectedArea == "all" || exists i :: 0 <= i < |m.expertise| && ExpertiseMatches(selectedArea, m.expertise[i]))
  }

  /** The condition of `filteredMentors` as a filter predicate. */
  function Matching(selectedArea: string, matchThreshold: int): Mentor -> bool {
    (m: Mentor) => MentorMatches(selectedArea, matchThreshold, m)
  }

  /** `filteredMentors`. */
  function FilteredMentors(mentors: seq<Mentor>, selectedArea: string, matchThreshold: int): seq<Mentor> {
    Filter(mentors, Matching(selectedArea, matchThreshold))
  }

  /** The shown mentors are exactly the mentors at or above the threshold with an expertise
      matching the area (any expertise when the area is `'all'`). */
  lemma FilteredMentorsSpec(mentors: seq<Mentor>, selectedArea: string, matchThreshold: int)
    ensures forall m :: m in FilteredMentors(mentors, selectedArea, matchThreshold) <==>
      m in mentors && m.matchScore >= matchThreshold
      && (selectedArea == "all" || exists k :: 0 <= k < |m.expertise| && ExpertiseMatches(selectedArea, m.expertise[k]))
  {
    FilterMembers(mentors, Matching(selectedArea, matchThreshold));
  }

  /** With area `'all'` the filter is the score threshold alone. */
  lemma AllAreasIsThreshold(mentors: seq<Mentor>, matchThreshold: int)
    ensures FilteredMentors(mentors, "all", matchThreshold) == Filter(mentors, (m: Mentor) => m.matchScore >= matchThreshold)
  {
    FilterCongruent(mentors, Matching("all", matchThreshold), (m: Mentor) => m.matchScore >= matchThreshold);
  }

  /** Raising the threshold only removes mentors: the stricter result is the looser result
      filtered again, so it keeps the same order. */
  lemma RaisingThresholdNarrows(mentors: seq<Mentor>, selectedArea: string, low: int, high: int)
    requires low <= high
    ensures FilteredMentors(mentors, selectedArea, high)
      == Filter(FilteredMentors(mentors, selectedArea, low), Matching(selectedArea, high))
  {
    FilterNarrows(mentors, Matching(selectedArea, low), Matching(selectedArea, high));
  }

  /** No mentor id occurs twice among the shipped mentors, so none is shown twice. */
  lemma ShownMentorsDistinct(selectedArea: string, matchThreshold: int)
    ensures Distinct(FilteredMentors(Mentors, selectedArea, matchThreshold))
  {
    assert Distinct(Mentors);
    FilterDistinct(Mentors, Matching(selectedArea, matchThreshold));
  }

  /** A time slot of a mentor's week. */
  datatype TimeSlot = TimeSlot(id: string, day: string, time: string, available: bool)

  /** The days and times of a week's slots. */
  const Days: seq<string> := ["Monday", "Tuesday", "Wednesday", "Thursday", "Friday"]
  const Times: seq<string> := ["9:00 AM", "10:00 AM", "11:00 AM", "1:00 PM", "2:00 PM", "3:00 PM", "4:00 PM"]

  /** The id `${mentorId}-${day}-${index}`. */
  function SlotId(mentorId: string, day: string, index: nat): string
    requires index < 10
  {
    mentorId + "-" + day + "-" + Digit(index)
  }

  /** `times.map((time, index) => ...)` for one day; the `k`-th draw of `Math.random() > 0.5`
      is `coin(k)`, and this day's draws start at `first`. */
  function DaySlots(mentorId: string, day: string, first: nat, coin: nat -> bool): (r: seq<TimeSlot>)
    ensures |r| == |Times|
    ensures forall t :: 0 <= t < |r| ==> r[t].day == day
  {
    seq(|Times|, t requires 0 <= t < |Times| => TimeSlot(SlotId(mentorId, day, t), day, Times[t], coin(first + t)))
  }

  /** `days.flatMap(...)` over `days`, whose draws start at `first`; each day takes seven draws. */
  function WeekSlots(mentorId: string, days: seq<string>, first: nat, coin: nat -> bool): seq<TimeSlot> {
    if days == [] then [] else DaySlots(mentorId, days[0], first, coin) + WeekSlots(mentorId, days[1..], first + 7, coin)
  }

  /** `generateTimeSlots(mentorId)`. */
  function GenerateTimeSlots(mentorId: string, coin: nat -> bool): seq<TimeSlot> {
    WeekSlots(mentorId, Days, 0, coin)
  }

  /** The slot at position `k` is the `k % 7`-th slot of the `k / 7`-th day. */
  lemma {:induction false} WeekSlotsAt(mentorId: string, days: seq<string>, first: nat, coin: nat -> bool, k: int)
    requires 0 <= k < 7 * |days|
    ensures |WeekSlots(mentorId, days, first, coin)| == 7 * |days|
    ensures WeekSlots(mentorId, days, first, coin)[k] == DaySlots(mentorId, days[k / 7], first + 7 * (k / 7), coin)[k % 7]
    decreases |days|
  {
    var head, tail := DaySlots(mentorId, days[0], first, coin), WeekSlots(mentorId, days[1..], first + 7, coin);
    assert |head| == 7;
    if k >= 7 {
      WeekSlotsAt(mentorId, days[1..], first + 7, coin, k - 7);
      assert (k - 7) / 7 == k / 7 - 1 && (k - 7) % 7 == k % 7;
      assert days[1..][k / 7 - 1] == days[k / 7];
    } else {
      if |days| > 1 {
        WeekSlotsAt(mentorId, days[1..], first + 7, coin, 0);
      } else {
        assert tail == [];
      }
    }
  }

  /** The generated week has 35 slots; each sits on its day and time, has the id of its
      day and index, and its availability is the draw for it. */
  lemma GeneratedSlotsAt(mentorId: string, coin: nat -> bool, k: int)
    requires 0 <= k < 35
    ensures |GenerateTimeSlots(mentorId, coin)| == 35
    ensures var s := GenerateTimeSlots(mentorId, coin)[k];
      && s.day == Days[k / 7] && s.time == Times[k % 7]
      && s.id == SlotId(mentorId, Days[k / 7], k % 7) && s.available == coin(k)
  {
    WeekSlotsAt(mentorId, Days, 0, coin, k);
    var slots := DaySlots(mentorId, Days[k / 7], 7 * (k / 7), coin);
    assert GenerateTimeSlots(mentorId, coin)[k] == slots[k % 7];
  }

  /** Ids built from different (day, index) pairs of the week differ. */
  lemma SlotIdsDiffer(mentorId: string, d1: int, t1: int, d2: int, t2: int)
    requires 0 <= d1 < |Days| && 0 <= d2 < |Days| && 0 <= t1 < |Times| && 0 <= t2 < |Times|
    requires (d1, t1) != (d2, t2)
    ensures SlotId(mentorId, Days[d1], t1) != SlotId(mentorId, Days[d2], t2)
  {
    var a, b := SlotId(mentorId, Days[d1], t1), SlotId(mentorId, Days[d2], t2);
    if t1 != t2 {
      assert a[|a| - 1] == Digit(t1)[0] != Digit(t2)[0] == b[|b| - 1];
    } else {
      DaysDistinct();
      var n := |mentorId| + 1;
      assert a[n..|a| - 2] == Days[d1] != Days[d2] == b[n..|b| - 2];
    }
  }

  /** No two generated slots share an id (ids are React keys). */
  lemma GeneratedSlotIdsUnique(mentorId: string, coin: nat -> bool)
    ensures var r := GenerateTimeSlots(mentorId, coin);
      forall i, j :: 0 <= i < j < |r| ==> r[i].id != r[j].id
  {
    var r := GenerateTimeSlots(mentorId, coin);
    GeneratedSlotsAt(mentorId, coin, 0);
    forall i, j | 0 <= i < j < |r| ensures r[i].id != r[j].id {
      GeneratedSlotsAt(mentorId, coin, i);
      GeneratedSlotsAt(mentorId, coin, j);
      SlotIdsDiffer(mentorId, i / 7, i % 7, j / 7, j % 7);
    }
  }

  /** The slots on a day. */
  function OnDay(day: string): TimeSlot -> bool {
    (s: TimeSlot) => s.day == day
  }

  /** One day's slots are all on that day, so filtering them by a day keeps all or none. */
  lemma DayOnDay(mentorId: string, day: string, first: nat, coin: nat -> bool, target: string)
    ensures Filter(DaySlots(mentorId, day, first, coin), OnDay(target)) == if day == target then DaySlots(mentorId, day, first, coin) else []
  {
    var slots := DaySlots(mentorId, day, first, coin);
    if day == target {
      forall x | x in slots ensures OnDay(target)(x) {
        var k :| 0 <= k < |slots| && slots[k] == x;
      }
      FilterKeepsAll(slots, OnDay(target));
    } else {
      forall x | x in slots ensures !OnDay(target)(x) {
        var k :| 0 <= k < |slots| && slots[k] == x;
      }
      FilterDropsAll(slots, OnDay(target));
    }
  }

  /** A day that is not in the list has no slots in the list's week. */
  lemma {:induction false} WeekSlotsOffDay(mentorId: string, days: seq<string>, first: nat, coin: nat -> bool, target: string)
    requires target !in days
    ensures Filter(WeekSlots(mentorId, days, first, coin), OnDay(target)) == []
    decreases |days|
  {
    if days != [] {
      FilterAppend(DaySlots(mentorId, days[0], first, coin), WeekSlots(mentorId, days[1..], first + 7, coin), OnDay(target));
      DayOnDay(mentorId, days[0], first, coin, target);
      WeekSlotsOffDay(mentorId, days[1..], first + 7, coin, target);
    }
  }

  /** The week's slots on any one of the given days are that day's slots. */
  lemma {:induction false} WeekSlotsOnDay(mentorId: string, days: seq<string>, first: nat, coin: nat -> bool, d: int)
    requires Distinct(days) && 0 <= d < |days|
    ensures Filter(WeekSlots(mentorId, days, first, coin), OnDay(days[d])) == DaySlots(mentorId, days[d], first + 7 * d, coin)
    decreases |days|
  {
    var target, rest := days[d], days[1..];
    var head, tail := DaySlots(mentorId, days[0], first, coin), WeekSlots(mentorId, rest, first + 7, coin);
    FilterAppend(head, tail, OnDay(target));
    DayOnDay(mentorId, days[0], first, coin, target);
    assert forall k :: 0 <= k < |rest| ==> rest[k] == days[k + 1];
    if d == 0 {
      assert target !in rest;
      WeekSlotsOffDay(mentorId, rest, first + 7, coin, target);
      assert head + [] == head;
    } else {
      assert days[0] != target && rest[d - 1] == target;
      WeekSlotsOnDay(mentorId, rest, first + 7, coin, d - 1);
      assert first + 7 + 7 * (d - 1) == first + 7 * d;
    }
  }

  /** The five days are different. */
  lemma DaysDistinct()
    ensures Distinct(Days)
  {
  }

  /** Each day's column, `timeSlots.filter(slot => slot.day === day)`, is exactly the seven
      slots `times.map` made for that day, in time order, with the draws `7 * d` to `7 * d + 6`. */
  lemma DayColumn(mentorId: string, coin: nat -> bool, d: int)
    requires 0 <= d < |Days|
    ensures Filter(GenerateTimeSlots(mentorId, coin), OnDay(Days[d])) == DaySlots(mentorId, Days[d], 7 * d, coin)
  {
    DaysDistinct();
    WeekSlotsOnDay(mentorId, Days, 0, coin, d);
  }

  /** The matchmaking component's state. */
  class MentorPanel {
    var selectedMentor: Option<Mentor>
    var selectedArea: string
    var matchThreshold: int
    var timeSlots: seq<TimeSlot>

    /** No mentor selected, area `'algorithms'`, threshold 70, no slots. */
    constructor ()
      ensures selectedMentor == None && selectedArea == "algorithms" && matchThreshold == 70 && timeSlots == []
    {
      selectedMentor := None;
      selectedArea := "algorithms";
      matchThreshold := 70;
      timeSlots := [];
    }

    /** `handleMentorSelect(mentor)`: select the mentor and generate their week. */
    method HandleMentorSelect(mentor: Mentor, coin: nat -> bool)
      modifies this
      ensures selectedMentor == Some(mentor) && timeSlots == GenerateTimeSlots(mentor.id, coin)
      ensures selectedArea == old(selectedArea) && matchThreshold == old(matchThreshold)
    {
      selectedMentor := Some(mentor);
      timeSlots := GenerateTimeSlots(mentor.id, coin);
    }
  }
}
