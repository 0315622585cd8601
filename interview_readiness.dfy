/** The interview readiness card: a role's readiness score and its skill scores, each banded
    at 80 and 60 for its label and colours. */
module InterviewReadiness {
  /** The three bands every threshold chain of the card uses. */
  datatype Band = Ready | Almost | NeedsWork

  /** The band of a score: at least 80, at least 60, or below. */
  function BandOf(score: int): (r: Band)
    ensures r == Ready <==> score >= 80
    ensures r == Almost <==> 60 <= score < 80
    ensures r == NeedsWork <==> score < 60
  {
    if score >= 80 then Ready else if score >= 60 then Almost else NeedsWork
  }

  /** The badge text under the circle. */
  function ReadinessLabel(score: int): (r: string)
    ensures r == "Ready for Interviews" <==> BandOf(score) == Ready
    ensures r == "Almost Ready" <==> BandOf(score) == Almost
    ensures r == "Needs Improvement" <==> BandOf(score) == NeedsWork
  {
    if score >= 80 then "Ready for Interviews"
    else if score >= 60 then "Almost Ready"
    else "Needs Improvement"
  }

  /** The badge colour. */
  function BadgeColour(score: int): (r: string)
    ensures r == "bg-green-100 text-green-800" <==> BandOf(score) == Ready
    ensures r == "bg-yellow-100 text-yellow-800" <==> BandOf(score) == Almost
    ensures r == "bg-red-100 text-red-800" <==> BandOf(score) == NeedsWork
  {
    if score >= 80 then "bg-green-100 text-green-800"
    else if score >= 60 then "bg-yellow-100 text-yellow-800"
    else "bg-red-100 text-red-800"
  }

  /** The colour of the circular progress. */
  function CircleColour(score: int): (r: string)
    ensures r == "stroke-green-500" <==> BandOf(score) == Ready
    ensures r == "stroke-yellow-500" <==> BandOf(score) == Almost
    ensures r == "stroke-red-500" <==> BandOf(score) == NeedsWork
  {
    if score >= 80 then "stroke-green-500" else if score >= 60 then "stroke-yellow-500" else "stroke-red-500"
  }

  /** The colour of a skill's progress bar. */
  function SkillBarColour(score: int): (r: string)
    ensures r == "bg-green-200" <==> BandOf(score) == Ready
    ensures r == "bg-yellow-200" <==> BandOf(score) == Almost
    ensures r == "bg-red-200" <==> BandOf(score) == NeedsWork
  {
    if score >= 80 then "bg-green-200" else if score >= 60 then "bg-yellow-200" else "bg-red-200"
  }

  /** The label and every colour tell the same band: two scores get the same label exactly
      when they get the same badge colour, the same circle colour and the same bar colour. */
  lemma LabelAndColoursAgree(s: int, t: int)
    ensures ReadinessLabel(s) == ReadinessLabel(t) <==> BandOf(s) == BandOf(t)
    ensures BadgeColour(s) == BadgeColour(t) <==> BandOf(s) == BandOf(t)
    ensures CircleColour(s) == CircleColour(t) <==> BandOf(s) == BandOf(t)
    ensures SkillBarColour(s) == SkillBarColour(t) <==> BandOf(s) == BandOf(t)
  {
  }

  /** The band rank: needs work, almost ready, ready. */
  function BandRank(b: Band): nat {
    match b
    case NeedsWork => 0
    case Almost => 1
    case Ready => 2
  }

  /** A higher score never gets a lower band. */
  lemma BandMonotone(s: int, t: int)
    requires s <= t
    ensures BandRank(BandOf(s)) <= BandRank(BandOf(t))
  {
  }

  /** The readiness scores of the three shipped roles: SDE 78, Data Scientist 65 and Frontend 82. */
  const RoleScores: seq<int> := [78, 65, 82]

  /** The shipped badges: the SDE and Data Scientist roles are almost ready, Frontend is ready. */
  lemma ShippedLabels()
    ensures ReadinessLabel(RoleScores[0]) == "Almost Ready"
    ensures ReadinessLabel(RoleScores[1]) == "Almost Ready"
    ensures ReadinessLabel(RoleScores[2]) == "Ready for Interviews"
  {
  }
}
