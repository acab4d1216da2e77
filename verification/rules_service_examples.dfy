/**
 * Worked hands for the evaluator: one per situation the table and the
 * downgrade policy are meant to handle.
 */
module RulesServiceExamples {
  import opened Types
  import opened RulesService

  function C(rank: Rank): Card
  {
    Card(Hearts, rank, "")
  }

  /** The sums of a three-card hand, written out. */
  lemma ThreeCardSums(cards: seq<Card>)
    requires |cards| == 3
    ensures NominalSum(cards) == CardValue(cards[0].rank) + CardValue(cards[1].rank) + CardValue(cards[2].rank)
    ensures AceCount(cards) == (if cards[0].rank == Ace then 1 else 0) + (if cards[1].rank == Ace then 1 else 0)
                               + (if cards[2].rank == Ace then 1 else 0)
  {
    var firstTwo := cards[..2];
    TwoCardSums(firstTwo);
    assert cards[..|cards| - 1] == firstTwo;
  }

  /** 5,5 against a 6 is played from the pair rows: DOUBLE. */
  lemma FivesDoubleAgainstSix()
    ensures Advise(C(Six), [C(Five), C(Five)]).action == Double
  {
    TwoCardSums([C(Five), C(Five)]);
  }

  /** A,A against a 10: SPLIT. */
  lemma AcesSplitAgainstTen()
    ensures Advise(C(Ten), [C(Ace), C(Ace)]).action == Split
  {
    AcesAlwaysSplit(C(Ten), [C(Ace), C(Ace)]);
  }

  /** 9,9 against a 7: STAND. */
  lemma NinesStandAgainstSeven()
    ensures Advise(C(Seven), [C(Nine), C(Nine)]).action == Stand
  {
    NinesStandOnlyAgainstSevenTenAce(C(Seven), [C(Nine), C(Nine)]);
  }

  /** 10,6,6 counts 22. */
  lemma TenSixSixCountsTwentyTwo()
    ensures HandOf([C(Ten), C(Six), C(Six)]).total == 22
  {
    ThreeCardSums([C(Ten), C(Six), C(Six)]);
  }

  /** 10,6,6 is 22: BUST with confidence 100 and win probability 0. */
  lemma TwentyTwoBusts()
    ensures Advise(C(Five), [C(Ten), C(Six), C(Six)])
         == AIAdvice(Bust, 100, Some(0), "You currently have 22. You have busted.")
  {
    TenSixSixCountsTwentyTwo();
    assert IntText(22) == "22" by {
      assert NatText(2) == "2";
    }
  }

  /** A,6 is soft 17; against a 4 the advice is DOUBLE. */
  lemma SoftSeventeenDoublesAgainstFour()
    ensures HandOf([C(Ace), C(Six)]) == HandValue(17, true, false, false)
    ensures Advise(C(Four), [C(Ace), C(Six)]).action == Double
  {
    TwoCardSums([C(Ace), C(Six)]);
  }

  /** A,6,4 is soft 21, not soft 17: against a 9 the advice is STAND. */
  lemma AceSixFourIsSoftTwentyOne()
    ensures HandOf([C(Ace), C(Six), C(Four)]) == HandValue(21, true, false, false)
    ensures Advise(C(Nine), [C(Ace), C(Six), C(Four)]).action == Stand
  {
    ThreeCardSums([C(Ace), C(Six), C(Four)]);
  }

  /** A,2,4 is a three-card soft 17; the table's DOUBLE against a 4 becomes HIT. */
  lemma ThreeCardSoftSeventeenHits()
    ensures HandOf([C(Ace), C(Two), C(Four)]) == HandValue(17, true, false, false)
    ensures TableRule(HandValue(17, true, false, false), [C(Ace), C(Two), C(Four)], 4).code == "DD"
    ensures Advise(C(Four), [C(Ace), C(Two), C(Four)]).action == Hit
  {
    ThreeCardSums([C(Ace), C(Two), C(Four)]);
  }

  /** A,2,5 is a three-card soft 18; the table's DOUBLE against a 4 becomes STAND. */
  lemma ThreeCardSoftEighteenStands()
    ensures HandOf([C(Ace), C(Two), C(Five)]) == HandValue(18, true, false, false)
    ensures Advise(C(Four), [C(Ace), C(Two), C(Five)]).action == Stand
  {
    ThreeCardSums([C(Ace), C(Two), C(Five)]);
  }

  /** 4,4,3 is a three-card hard 11; the table's DOUBLE becomes HIT. */
  lemma ThreeCardElevenHits()
    ensures Advise(C(Six), [C(Four), C(Four), C(Three)]).action == Hit
  {
    ThreeCardSums([C(Four), C(Four), C(Three)]);
  }

  /**
   * A lone Ace is soft 11, below every soft row: the default code decides,
   * STAND with an empty rule description. Callers never ask with fewer than
   * two cards.
   */
  lemma LoneAceKeepsTheDefault()
    ensures Advise(C(Ten), [C(Ace)])
         == AIAdvice(Stand, 100, Some(70), " (Table Rule: Player Soft 11 vs Dealer 10)")
  {
  }
}
