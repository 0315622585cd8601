/** The graduation readiness dashboard: the set of expanded sections, the overall readiness
    (the rounded mean of the section percentages) and the colour band of a percentage. */
module GraduationReadiness {
  import opened Wrappers
  import opened Seqs
  import opened JsMath

  /** The entries other than `id`. */
  function Other(id: string): string -> bool {
    (item: string) => item != id
  }

  /** `prev.includes(id) ? prev.filter(item => item !== id) : [...prev, id]`. */
  function Toggle(prev: seq<string>, id: string): (r: seq<string>)
    ensures id in r <==> id !in prev
    ensures forall x :: x != id ==> (x in r <==> x in prev)
  {
    FilterMembers(prev, Other(id));
    if id in prev then Filter(prev, Other(id)) else prev + [id]
  }

  /** Toggling an expanded id removes every occurrence of it and nothing else: every other
      entry keeps its number of occurrences. */
  lemma ToggleCollapses(prev: seq<string>, id: string)
    requires id in prev
    ensures forall x :: multiset(Toggle(prev, id))[x] == if x == id then 0 else multiset(prev)[x]
  {
    FilterMultiset(prev, Other(id));
  }

  /** Toggling a collapsed id appends it after the entries already expanded. */
  lemma ToggleExpands(prev: seq<string>, id: string)
    requires id !in prev
    ensures |Toggle(prev, id)| == |prev| + 1
    ensures Toggle(prev, id)[..|prev|] == prev && Toggle(prev, id)[|prev|] == id
  {
  }

  /** A list without duplicates stays without duplicates. */
  lemma ToggleKeepsDistinct(prev: seq<string>, id: string)
    requires Distinct(prev)
    ensures Distinct(Toggle(prev, id))
  {
    if id in prev {
      FilterDistinct(prev, Other(id));
    }
  }

  /** Toggling twice restores whether the id is expanded, and restores the list exactly
      when the id was collapsed to begin with. */
  lemma {:induction false} ToggleTwice(prev: seq<string>, id: string)
    ensures var r := Toggle(Toggle(prev, id), id);
      (id in r <==> id in prev) && (forall x :: x in r <==> x in prev)
    ensures id !in prev ==> Toggle(Toggle(prev, id), id) == prev
  {
    if id !in prev {
      var next := prev + [id];
      FilterAppend(prev, [id], Other(id));
      FilterKeepsAll(prev, Other(id));
      FilterSingleton(id, Other(id));
      assert Filter(next, Other(id)) == prev + [];
    }
  }

  /** The dashboard's expand/collapse state. */
  class ReadinessPanel {
    var expandedSections: seq<string>

    /** Only the courses section starts expanded. */
    constructor ()
      ensures expandedSections == ["courses"]
    {
      expandedSections := ["courses"];
    }

    /** `toggleSection(id)`. */
    method ToggleSection(id: string)
      modifies this
      ensures expandedSections == Toggle(old(expandedSections), id)
      ensures Distinct(old(expandedSections)) ==> Distinct(expandedSections)
    {
      if Distinct(expandedSections) {
        ToggleKeepsDistinct(expandedSections, id);
      }
      expandedSections := Toggle(expandedSections, id);
    }
  }

  /** A readiness section as far as the totals are concerned. */
  datatype ReadinessSection = ReadinessSection(id: string, title: string, percentage: int)

  /** `readinessSections`, without their items. */
  const ReadinessSections: seq<ReadinessSection> := [
    ReadinessSection("courses", "Core Courses", 85),
    ReadinessSection("projects", "Capstone Project", 60),
    ReadinessSection("resume", "Resume & Portfolio", 70),
    ReadinessSection("internship", "Internship Requirements", 50),
    ReadinessSection("certification", "Certifications", 40)
  ]

  /** `sections.reduce((sum, section) => sum + section.percentage, 0)`. */
  function SumPercentages(sections: seq<ReadinessSection>): int {
    if sections == [] then 0 else SumPercentages(sections[..|sections| - 1]) + sections[|sections| - 1].percentage
  }

  /** The sum lies between `lo` and `hi` times the number of sections when every percentage does. */
  lemma {:induction false} SumBounds(sections: seq<ReadinessSection>, lo: int, hi: int)
    requires forall i :: 0 <= i < |sections| ==> lo <= sections[i].percentage <= hi
    ensures lo * |sections| <= SumPercentages(sections) <= hi * |sections|
  {
    if sections != [] {
      SumBounds(sections[..|sections| - 1], lo, hi);
    }
  }

  /** `totalReadiness`; with no sections the division is `0 / 0`, which is `NaN` (`None`). */
  function TotalReadiness(sections: seq<ReadinessSection>): (r: Option<int>)
    ensures r.Some? <==> |sections| > 0
    ensures r.Some? ==> |sections| * (2 * r.value - 1) <= 2 * SumPercentages(sections) < |sections| * (2 * r.value + 1)
  {
    if |sections| == 0 then None else Some(RoundDiv(SumPercentages(sections), |sections|))
  }

  /** With percentages in 0..100 the overall readiness is in 0..100. */
  lemma TotalReadinessBounds(sections: seq<ReadinessSection>)
    requires |sections| > 0
    requires forall i :: 0 <= i < |sections| ==> 0 <= sections[i].percentage <= 100
    ensures 0 <= TotalReadiness(sections).value <= 100
  {
    SumBounds(sections, 0, 100);
    RoundDivBounds(SumPercentages(sections), |sections|, 0, 100);
  }

  /** The shipped sections give an overall readiness of 61. */
  lemma ShippedReadiness()
    ensures TotalReadiness(ReadinessSections) == Some(61)
  {
    var s := ReadinessSections;
    assert SumPercentages(s[..1]) == 85 by { assert s[..1][..0] == []; }
    assert SumPercentages(s[..2]) == 145 by { assert s[..2][..1] == s[..1]; }
    assert SumPercentages(s[..3]) == 215 by { assert s[..3][..2] == s[..2]; }
    assert SumPercentages(s[..4]) == 265 by { assert s[..4][..3] == s[..3]; }
    assert SumPercentages(s) == 305 by { assert s[..4] == s[..|s| - 1]; }
  }

  /** `getProgressColor(percentage)`. */
  function ProgressColor(percentage: int): (r: string)
    ensures r == "stroke-green-500" <==> percentage >= 80
    ensures r == "stroke-blue-500" <==> 60 <= percentage < 80
    ensures r == "stroke-yellow-500" <==> 40 <= percentage < 60
    ensures r == "stroke-red-500" <==> percentage < 40
  {
    if percentage >= 80 then "stroke-green-500"
    else if percentage >= 60 then "stroke-blue-500"
    else if percentage >= 40 then "stroke-yellow-500"
    else "stroke-red-500"
  }

  /** A higher percentage never gets a lower band (red, yellow, blue, green in that order). */
  lemma ProgressColorMonotone(p: int, q: int)
    requires p <= q
    ensures ProgressColor(p) == "stroke-green-500" ==> ProgressColor(q) == "stroke-green-500"
    ensures ProgressColor(p) == "stroke-blue-500" ==> ProgressColor(q) in ["stroke-blue-500", "stroke-green-500"]
    ensures ProgressColor(q) == "stroke-red-500" ==> ProgressColor(p) == "stroke-red-500"
  {
  }
}
