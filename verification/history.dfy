/**
 * The history page: a fixed list of past simulations, the statistics shown
 * under it (count, rounded mean score, best score) and the page's own score
 * badge.
 */
module History {

  datatype SimulationHistory = SimulationHistory(id: int, fileName: string, date: string, time: string, score: int)

  datatype Stats = Stats(total: nat, average: int, highest: int)

  /** The colours a score badge can take. */
  datatype BadgeColor = Gray | Green | Blue | Yellow | Orange

  /** The page's sample history. */
  const MockHistory: seq<SimulationHistory> := [
    SimulationHistory(1, "Proposal_Skripsi_AI_Learning.pdf", "15 Desember 2025", "10.30", 85),
    SimulationHistory(2, "Proposal_Skripsi_AI_Learning.pdf", "15 Desember 2025", "10.30", 78),
    SimulationHistory(3, "Proposal_Skripsi_AI_Learning.pdf", "15 Desember 2025", "10.30", 92),
    SimulationHistory(4, "Proposal_Skripsi_AI_Learning.pdf", "15 Desember 2025", "10.30", 80)
  ]

  /** `history.map(item => item.score)`. */
  function Scores(h: seq<SimulationHistory>): (r: seq<int>)
    ensures |r| == |h|
    ensures forall i :: 0 <= i < |h| ==> r[i] == h[i].score
  {
    seq(|h|, i requires 0 <= i < |h| => h[i].score)
  }

  /** `reduce((a, b) => a + b, 0)`. */
  function Sum(xs: seq<int>): int {
    if xs == [] then 0 else xs[0] + Sum(xs[1..])
  }

  /** `Math.max(...xs)` on a non-empty list: an element of the list that no element exceeds. */
  function MaxOf(xs: seq<int>): (m: int)
    requires xs != []
    ensures m in xs
    ensures forall i :: 0 <= i < |xs| ==> xs[i] <= m
  {
    if |xs| == 1 then xs[0]
    else
      var rest := MaxOf(xs[1..]);
      if xs[0] >= rest then xs[0] else rest
  }

  /** The smallest element, used only to bound the average from below. */
  ghost function MinOf(xs: seq<int>): (m: int)
    requires xs != []
    ensures m in xs
    ensures forall i :: 0 <= i < |xs| ==> m <= xs[i]
  {
    if |xs| == 1 then xs[0]
    else
      var rest := MinOf(xs[1..]);
      if xs[0] <= rest then xs[0] else rest
  }

  /** `Math.round(num / den)` for a positive `den`: the integer nearest to the quotient, halves
      rounded up, i.e. the `r` with `r - 1/2 <= num/den < r + 1/2`. */
  function RoundHalfUp(num: int, den: int): (r: int)
    requires den > 0
    ensures 2 * den * r <= 2 * num + den < 2 * den * (r + 1)
  {
    var q := (2 * num + den) / (2 * den);
    assert 2 * num + den == 2 * den * q + (2 * num + den) % (2 * den);
    q
  }

  /** `calculateStats`: no entries give all zeros; otherwise the count, the mean score rounded half
      up, and the best score. */
  function CalculateStats(h: seq<SimulationHistory>): (s: Stats)
    ensures s.total == |h|
    ensures h == [] ==> s == Stats(0, 0, 0)
    ensures h != [] ==>
      && 2 * |h| * s.average <= 2 * Sum(Scores(h)) + |h| < 2 * |h| * (s.average + 1)
      && (exists i :: 0 <= i < |h| && h[i].score == s.highest)
      && (forall i :: 0 <= i < |h| ==> h[i].score <= s.highest)
  {
    if |h| == 0 then Stats(0, 0, 0)
    else
      var scores := Scores(h);
      var highest := MaxOf(scores);
      assert exists i :: 0 <= i < |h| && scores[i] == highest;
      Stats(|h|, RoundHalfUp(Sum(scores), |h|), highest)
  }

  /** The sum of a non-empty list lies between its length times its least and its greatest element. */
  lemma {:induction false} SumBounds(xs: seq<int>, lo: int, hi: int)
    requires forall i :: 0 <= i < |xs| ==> lo <= xs[i] <= hi
    ensures |xs| * lo <= Sum(xs) <= |xs| * hi
  {
    if xs != [] {
      SumBounds(xs[1..], lo, hi);
      assert |xs| * lo == lo + |xs[1..]| * lo;
      assert |xs| * hi == hi + |xs[1..]| * hi;
    }
  }

  /** A mean of values in `[lo, hi]` rounded half up stays in `[lo, hi]`. */
  lemma RoundedMeanWithin(sum: int, n: int, lo: int, hi: int, a: int)
    requires n > 0 && n * lo <= sum <= n * hi
    requires 2 * n * a <= 2 * sum + n < 2 * n * (a + 1)
    ensures lo <= a <= hi
  {
    assert 2 * n * a < 2 * n * (hi + 1);
    assert 2 * n * lo < 2 * n * (a + 1);
  }

  /** The rounded average never leaves the range of the scores: it is at least the lowest score
      and at most the highest. */
  lemma AverageWithinScores(h: seq<SimulationHistory>)
    requires h != []
    ensures MinOf(Scores(h)) <= CalculateStats(h).average <= CalculateStats(h).highest
  {
    var xs := Scores(h);
    var s := CalculateStats(h);
    SumBounds(xs, MinOf(xs), s.highest);
    RoundedMeanWithin(Sum(xs), |h|, MinOf(xs), s.highest, s.average);
  }

  /** For the sample history the page shows 4 simulations, an average of 84 (335 / 4 = 83.75
      rounded) and a best score of 92. */
  lemma MockStats()
    ensures CalculateStats(MockHistory) == Stats(4, 84, 92)
  {
    var xs := Scores(MockHistory);
    assert xs == [85, 78, 92, 80];
    assert xs[1..] == [78, 92, 80] && xs[2..] == [92, 80] && xs[3..] == [80];
    assert Sum(xs[3..]) == 80;
    assert Sum(xs[2..]) == 172;
    assert Sum(xs) == 335;
    assert MaxOf(xs) == 92;
  }

  /** The history page's own `ScoreBadge`: green from 90, blue from 80, yellow from 75, orange
      below; its gray default is always overwritten. */
  function RiwayatBadge(score: int): (c: BadgeColor)
    ensures c != Gray
    ensures c == Green <==> score >= 90
    ensures c == Blue <==> 80 <= score < 90
    ensures c == Yellow <==> 75 <= score < 80
    ensures c == Orange <==> score < 75
  {
    if score >= 90 then Green
    else if score >= 80 then Blue
    else if score >= 75 then Yellow
    else Orange
  }

  /** Badge colours ordered from the lowest band to the highest. */
  function Rank(c: BadgeColor): nat {
    match c
    case Gray => 0
    case Orange => 0
    case Yellow => 1
    case Blue => 2
    case Green => 3
  }

  /** A higher score never gets a lower badge. */
  lemma RiwayatBadgeMonotone(s1: int, s2: int)
    requires s1 <= s2
    ensures Rank(RiwayatBadge(s1)) <= Rank(RiwayatBadge(s2))
  {
  }
}
