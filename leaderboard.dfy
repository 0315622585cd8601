/** The leaderboard table: the rank-change column, the badge cell and the initials avatar. */
module Leaderboard {
  import opened Wrappers
  import opened Seqs
  import opened Text

  /** What the change column shows: an up arrow with a size, a down arrow with a size, or `-`. */
  datatype RankChange = Up(size: nat) | Down(size: nat) | Unchanged

  /** The change from `previousRank` to `rank`. */
  function RankChangeOf(previousRank: int, rank: int): (r: RankChange)
    ensures r.Up? <==> previousRank > rank
    ensures r.Down? <==> previousRank < rank
    ensures r.Unchanged? <==> previousRank == rank
    ensures r.Up? ==> r.size > 0 && rank + r.size == previousRank
    ensures r.Down? ==> r.size > 0 && previousRank + r.size == rank
  {
    if previousRank > rank then Up(previousRank - rank)
    else if previousRank < rank then Down(rank - previousRank)
    else Unchanged
  }

  /** A move up from one rank to another is the same size as the move back down. */
  lemma RankChangeReverses(a: int, b: int)
    ensures RankChangeOf(a, b).Up? <==> RankChangeOf(b, a).Down?
    ensures RankChangeOf(a, b).Up? ==> RankChangeOf(a, b).size == RankChangeOf(b, a).size
  {
  }

  /** The badge cell: at most the first badge, and a `+(n-1) more` tag when there are more. */
  datatype BadgeCell = BadgeCell(shown: seq<string>, more: Option<nat>)

  /** `badges.slice(0, 1)` and `badges.length > 1 && badges.length - 1`. */
  function BadgeSummary(badges: seq<string>): (r: BadgeCell)
    ensures |r.shown| <= 1 && r.shown <= badges
    ensures r.shown == [] <==> badges == []
    ensures r.more.Some? <==> |badges| > 1
    ensures r.more.Some? ==> r.more.value > 0
    ensures |r.shown| + r.more.GetOr(0) == |badges|
  {
    BadgeCell(Take(badges, 1), if |badges| > 1 then Some(|badges| - 1) else None)
  }

  /** `n[0]` of a part, where the first character of an empty part is `undefined`, which
      `join` writes as nothing. */
  function FirstChar(part: string): string {
    if part == "" then "" else [part[0]]
  }

  /** `name.split(' ').map(n => n[0]).join('')`. */
  function Initials(name: string): string {
    Join(Map(Split(name, ' '), FirstChar), "")
  }

  /** A name made of non-empty words separated by single spaces. */
  predicate WordsOf(words: seq<string>) {
    |words| > 0 && forall i :: 0 <= i < |words| ==> words[i] != "" && ' ' !in words[i]
  }

  /** The first letters of some words. */
  function FirstLetters(words: seq<string>): (r: string)
    requires WordsOf(words) || words == []
    ensures |r| == |words|
    ensures forall i :: 0 <= i < |words| ==> r[i] == words[i][0]
  {
    if words == [] then "" else [words[0][0]] + FirstLetters(words[1..])
  }

  /** The initials of a name of single-spaced words are the first letters of the words, one per word. */
  lemma {:induction false} InitialsOfWords(words: seq<string>)
    requires WordsOf(words)
    ensures Initials(Join(words, " ")) == FirstLetters(words)
  {
    if |words| == 1 {
      SplitWithoutSeparator(words[0], ' ');
      assert Map([words[0]], FirstChar) == [FirstChar(words[0])];
    } else {
      var rest := words[1..];
      var tail := Join(rest, " ");
      InitialsOfWords(rest);
      assert Join(words, " ") == words[0] + [' '] + tail;
      var parts := Split(tail, ' ');
      SplitAtSeparator(words[0], ' ', tail);
      assert Split(Join(words, " "), ' ') == [words[0]] + parts;
      MapCons(words[0], parts, FirstChar);
      var letters := Map(parts, FirstChar);
      var all := [FirstChar(words[0])] + letters;
      assert |letters| >= 1 && all[1..] == letters;
      assert Join(all, "") == [words[0][0]] + Join(letters, "");
    }
  }

  /** The initials shown for two shipped names. */
  lemma InitialsOfSampleNames()
    ensures Initials("Alex Johnson") == "AJ"
    ensures Initials("Rajiv Patel") == "RP"
  {
    InitialsOfWords(["Alex", "Johnson"]);
    assert Join(["Alex", "Johnson"], " ") == "Alex Johnson";
    InitialsOfWords(["Rajiv", "Patel"]);
    assert Join(["Rajiv", "Patel"], " ") == "Rajiv Patel";
  }

  /** A row of `leaderboardData`, as far as the rank and points columns are concerned. */
  datatype Entry = Entry(points: int, rank: int, previousRank: int)

  /** The ten shipped rows. */
  const LeaderboardData: seq<Entry> := [
    Entry(2840, 1, 1), Entry(2715, 2, 3), Entry(2690, 3, 2), Entry(2560, 4, 5), Entry(2430, 5, 4),
    Entry(2375, 6, 7), Entry(2290, 7, 6), Entry(2150, 8, 8), Entry(2080, 9, 9), Entry(1970, 10, 11)
  ]

  /** The shipped rows are ranked 1 to 10 in order, with strictly decreasing points, and no one
      moved by more than one place. */
  lemma ShippedTableOrdered()
    ensures |LeaderboardData| == 10
    ensures forall i :: 0 <= i < |LeaderboardData| ==> LeaderboardData[i].rank == i + 1
    ensures forall i, j :: 0 <= i < j < |LeaderboardData| ==> LeaderboardData[i].points > LeaderboardData[j].points
    ensures forall i :: 0 <= i < |LeaderboardData| ==>
      RankChangeOf(LeaderboardData[i].previousRank, LeaderboardData[i].rank) in [Up(1), Down(1), Unchanged]
  {
    forall i, j | 0 <= i < j < |LeaderboardData| ensures LeaderboardData[i].points > LeaderboardData[j].points {
      forall k | 0 <= k < |LeaderboardData| - 1 ensures LeaderboardData[k].points > LeaderboardData[k + 1].points {
      }
      DecreasingChain(i, j);
    }
  }

  /** Points that fall from each row to the next fall between any two rows. */
  lemma {:induction false} DecreasingChain(i: int, j: int)
    requires 0 <= i < j < |LeaderboardData|
    requires forall k :: 0 <= k < |LeaderboardData| - 1 ==> LeaderboardData[k].points > LeaderboardData[k + 1].points
    ensures LeaderboardData[i].points > LeaderboardData[j].points
    decreases j - i
  {
    if j > i + 1 {
      DecreasingChain(i + 1, j);
    }
  }
}
