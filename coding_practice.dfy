/** The coding practice card: the question list, the daily challenges and system-design
    slices shown on the problems tab, and the colour of a difficulty badge. */
module CodingPractice {
  import opened Seqs

  /** `difficulty: 'Easy' | 'Medium' | 'Hard'`. */
  datatype Difficulty = Easy | Medium | Hard

  /** `difficultyColor[question.difficulty]`: every difficulty has its own colour. */
  function DifficultyColor(d: Difficulty): (r: string)
    ensures r in ["bg-green-100 text-green-800", "bg-yellow-100 text-yellow-800", "bg-red-100 text-red-800"]
  {
    match d
    case Easy => "bg-green-100 text-green-800"
    case Medium => "bg-yellow-100 text-yellow-800"
    case Hard => "bg-red-100 text-red-800"
  }

  /** The colour map tells the three difficulties apart. */
  lemma DifficultyColorsDistinct(d: Difficulty, e: Difficulty)
    ensures DifficultyColor(d) == DifficultyColor(e) <==> d == e
  {
  }

  /** A question as the card reads it; the title and tags are display text. */
  datatype Question = Question(id: string, difficulty: Difficulty, completedBy: nat, category: string)

  /** The questions of a category. */
  function InCategory(category: string): Question -> bool {
    (q: Question) => q.category == category
  }

  /** The daily challenges: the first four `'DSA'` questions, or all of them when there are fewer. */
  function DailyChallenges(questions: seq<Question>): seq<Question> {
    Take(Filter(questions, InCategory("DSA")), 4)
  }

  /** The system-design list: every `'SD'` question. */
  function SystemDesign(questions: seq<Question>): seq<Question> {
    Filter(questions, InCategory("SD"))
  }

  /** The daily challenges are a prefix of the DSA questions in their original order: at most
      four of them, and all of them when there are at most four. */
  lemma DailyChallengesSpec(questions: seq<Question>)
    ensures |DailyChallenges(questions)| <= 4
    ensures DailyChallenges(questions) <= Filter(questions, InCategory("DSA"))
    ensures |Filter(questions, InCategory("DSA"))| <= 4 ==> DailyChallenges(questions) == Filter(questions, InCategory("DSA"))
    ensures |Filter(questions, InCategory("DSA"))| >= 4 ==> |DailyChallenges(questions)| == 4
    ensures forall q :: q in DailyChallenges(questions) ==> q in questions && q.category == "DSA"
  {
    var dsa := Filter(questions, InCategory("DSA"));
    FilterMembers(questions, InCategory("DSA"));
    forall q | q in DailyChallenges(questions) ensures q in questions && q.category == "DSA" {
      var i :| 0 <= i < |DailyChallenges(questions)| && DailyChallenges(questions)[i] == q;
      assert q == dsa[i];
    }
  }

  /** The system-design list holds exactly the questions of category `'SD'`. */
  lemma SystemDesignSpec(questions: seq<Question>)
    ensures forall q :: q in SystemDesign(questions) <==> q in questions && q.category == "SD"
  {
    FilterMembers(questions, InCategory("SD"));
  }

  /** No question is listed both as a daily challenge and as a system-design question. */
  lemma SlicesDisjoint(questions: seq<Question>)
    ensures forall q :: !(q in DailyChallenges(questions) && q in SystemDesign(questions))
  {
    DailyChallengesSpec(questions);
    SystemDesignSpec(questions);
  }

  /** `codingQuestions`, one constant per question. */
  const TwoSum: Question := Question("q1", Easy, 478, "DSA")
  const ReverseLinkedList: Question := Question("q2", Easy, 389, "DSA")
  const ValidParentheses: Question := Question("q3", Easy, 412, "DSA")
  const MaximumSubarray: Question := Question("q4", Medium, 321, "DSA")
  const LevelOrderTraversal: Question := Question("q5", Medium, 298, "DSA")
  const ChatAppBackend: Question := Question("q6", Hard, 112, "SD")

  const CodingQuestions: seq<Question> :=
    [TwoSum, ReverseLinkedList, ValidParentheses, MaximumSubarray, LevelOrderTraversal, ChatAppBackend]

  /** The shipped card shows q1 to q4 as daily challenges, leaves out the fifth DSA question
      q5, and lists q6 as the only system-design question. */
  lemma ShippedSlices()
    ensures DailyChallenges(CodingQuestions) == [TwoSum, ReverseLinkedList, ValidParentheses, MaximumSubarray]
    ensures LevelOrderTraversal in CodingQuestions && LevelOrderTraversal !in DailyChallenges(CodingQuestions)
    ensures SystemDesign(CodingQuestions) == [ChatAppBackend]
  {
    var dsa := InCategory("DSA");
    assert CodingQuestions[..5] == [TwoSum, ReverseLinkedList, ValidParentheses, MaximumSubarray, LevelOrderTraversal];
    assert Filter(CodingQuestions[..5], dsa) == CodingQuestions[..5] by {
      FilterKeepsAll(CodingQuestions[..5], dsa);
    }
    assert Filter(CodingQuestions, dsa) == CodingQuestions[..5];
    var sd := InCategory("SD");
    assert Filter(CodingQuestions[..5], sd) == [] by {
      FilterDropsAll(CodingQuestions[..5], sd);
    }
  }
}
