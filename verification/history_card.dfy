/**
 * The history card component: one past simulation with its own score badge,
 * whose bands differ from the history page's badge.
 */
module HistoryCard {
  import opened History

  /** The card's `ScoreBadge`: green from 90, blue from 80, yellow from 70, and the gray default
      below 70. */
  function CardBadge(score: int): (c: BadgeColor)
    ensures c != Orange
    ensures c == Green <==> score >= 90
    ensures c == Blue <==> 80 <= score < 90
    ensures c == Yellow <==> 70 <= score < 80
    ensures c == Gray <==> score < 70
  {
    if score >= 90 then Green
    else if score >= 80 then Blue
    else if score >= 70 then Yellow
    else Gray
  }

  /** A higher score never gets a lower badge. */
  lemma CardBadgeMonotone(s1: int, s2: int)
    requires s1 <= s2
    ensures Rank(CardBadge(s1)) <= Rank(CardBadge(s2))
  {
  }

  /** The two badges agree from 75 up and disagree below it: from 70 to 74 the card shows yellow
      where the page's badge shows orange, and below 70 the card shows gray. */
  lemma BadgesCompared(score: int)
    ensures CardBadge(score) == RiwayatBadge(score) <==> score >= 75
    ensures 70 <= score < 75 ==> CardBadge(score) == Yellow && RiwayatBadge(score) == Orange
  {
  }

  /** The badges the history page actually draws (through its cards) for the sample history. */
  function CardBadges(h: seq<SimulationHistory>): (r: seq<BadgeColor>)
    ensures |r| == |h|
    ensures forall i :: 0 <= i < |h| ==> r[i] == CardBadge(h[i].score)
  {
    seq(|h|, i requires 0 <= i < |h| => CardBadge(h[i].score))
  }

  /** On the sample history the cards show blue, yellow, green and blue, the same colours the
      page's own badge would give. */
  lemma MockBadges()
    ensures CardBadges(MockHistory) == [Blue, Yellow, Green, Blue]
    ensures forall i :: 0 <= i < |MockHistory| ==> CardBadge(MockHistory[i].score) == RiwayatBadge(MockHistory[i].score)
  {
  }
}
