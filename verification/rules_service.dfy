/**
 * The basic-strategy evaluator: card values, the value of a hand (total,
 * softness, strict pair), the pair / soft / hard decision tables, the
 * downgrade of SPLIT and DOUBLE once the hand has more than two cards, the
 * win-probability heuristic, and the evaluator that combines them.
 */
module RulesService {
  import opened Types

  /** The derived value of a player's hand. */
  datatype HandValue = HandValue(total: int, isSoft: bool, isPair: bool, canSplit: bool)

  /**
   * One row of the decision table: an action code ("C" hit, "S" stand,
   * "DD" double, "Sp" split) and the rule's description.
   */
  datatype Rule = Rule(code: string, description: string)

  /** The four codes the table is written in. */
  predicate IsTableCode(code: string)
  {
    code == "C" || code == "S" || code == "DD" || code == "Sp"
  }

  // ---------------------------------------------------------------------
  // Rendering numbers inside the explanation texts
  // ---------------------------------------------------------------------

  function DigitChar(n: nat): char
    requires n < 10
  {
    "0123456789"[n]
  }

  /** The decimal text of a natural number. */
  function NatText(n: nat): string
  {
    if n < 10 then [DigitChar(n)] else NatText(n / 10) + [DigitChar(n % 10)]
  }

  /** The decimal text of an integer, as a template literal renders it. */
  function IntText(i: int): string
  {
    if i < 0 then "-" + NatText(-i) else NatText(i)
  }

  // ---------------------------------------------------------------------
  // Card values
  // ---------------------------------------------------------------------

  /** The number a digit rank is parsed to. */
  function FaceValue(rank: Rank): int
  {
    match rank
    case Two => 2
    case Three => 3
    case Four => 4
    case Five => 5
    case Six => 6
    case Seven => 7
    case Eight => 8
    case Nine => 9
    case _ => 10
  }

  /** The nominal value of a rank: an Ace counts 11, the court cards 10, a digit its face value. */
  function CardValue(rank: Rank): (v: int)
    ensures 2 <= v <= 11
    ensures v == 11 <==> rank == Ace
    ensures v == 10 <==> rank in {Ten, Jack, Queen, King}
  {
    if rank == Ace then 11
    else if rank in {Jack, Queen, King} then 10
    else FaceValue(rank)
  }

  /** The dealer's column in the table: the nominal value of the upcard, 2 to 11 (11 is an Ace). */
  function DealerValue(card: Card): (d: int)
    ensures 2 <= d <= 11
    ensures d == 11 <==> card.rank == Ace
    ensures d == CardValue(card.rank)
  {
    CardValue(card.rank)
  }

  // ---------------------------------------------------------------------
  // Hand value
  // ---------------------------------------------------------------------

  /** The sum of the nominal card values, every Ace counted as 11. */
  function NominalSum(cards: seq<Card>): int
  {
    if cards == [] then 0
    else NominalSum(cards[..|cards| - 1]) + CardValue(cards[|cards| - 1].rank)
  }

  /** The number of Aces in the hand. */
  function AceCount(cards: seq<Card>): nat
  {
    if cards == [] then 0
    else AceCount(cards[..|cards| - 1]) + (if cards[|cards| - 1].rank == Ace then 1 else 0)
  }

  /** The sum when `k` of the Aces are counted as 1 and the others as 11. */
  function DemotedTotal(cards: seq<Card>, k: nat): int
  {
    NominalSum(cards) - 10 * k
  }

  /** The sum with every Ace counted as 1. */
  function HardTotal(cards: seq<Card>): int
  {
    NominalSum(cards) - 10 * AceCount(cards)
  }

  /**
   * How many Aces must be demoted from 11 to 1: none when the sum does not
   * exceed 21, otherwise the fewest that bring it to 21 or below, capped by
   * the number of Aces.
   */
  function Demotions(sum: int, aces: nat): (k: nat)
  {
    if sum <= 21 then 0
    else
      var needed := (sum - 12) / 10;
      if needed < aces then needed else aces
  }

  /**
   * The value of a hand: the total after demoting Aces, soft when an Ace is
   * still counted as 11, a pair when there are exactly two cards of the same
   * rank (a Ten and a King are not a pair).
   */
  function HandOf(cards: seq<Card>): (h: HandValue)
    ensures exists k: nat :: k <= AceCount(cards) && DemotedTotal(cards, k) == h.total
    ensures HardTotal(cards) <= h.total <= NominalSum(cards)
    ensures h.total <= 21 || h.total == HardTotal(cards)
    ensures h.isSoft <==> AceCount(cards) > 0 && NominalSum(cards) - 10 * (AceCount(cards) - 1) <= 21
    ensures h.isSoft ==> h.total <= 21
    ensures AceCount(cards) == 0 ==> !h.isSoft && h.total == NominalSum(cards)
    ensures h.isPair <==> |cards| == 2 && cards[0].rank == cards[1].rank
    ensures h.canSplit == h.isPair
  {
    var sum := NominalSum(cards);
    var aces := AceCount(cards);
    var k := Demotions(sum, aces);
    var isStrictPair := |cards| == 2 && cards[0].rank == cards[1].rank;
    assert DemotedTotal(cards, k) == sum - 10 * k;
    HandValue(sum - 10 * k, k < aces, isStrictPair, isStrictPair)
  }

  /**
   * The evaluation loop: sum the cards with Aces at 11 while counting the
   * Aces, then demote one Ace at a time while the total exceeds 21.
   */
  method CalculateHand(cards: seq<Card>) returns (hand: HandValue)
    ensures hand == HandOf(cards)
  {
    var total := 0;
    var aces := 0;
    for i := 0 to |cards|
      invariant total == NominalSum(cards[..i])
      invariant aces == AceCount(cards[..i])
    {
      assert cards[..i + 1][..i] == cards[..i];
      total := total + CardValue(cards[i].rank);
      if cards[i].rank == Ace {
        aces := aces + 1;
      }
    }
    assert cards[..|cards|] == cards;
    ghost var sum, count := total, aces;
    while total > 21 && aces > 0
      invariant 0 <= aces <= count
      invariant total == sum - 10 * (count - aces)
      invariant count - aces <= Demotions(sum, count)
    {
      total := total - 10;
      aces := aces - 1;
    }
    var isStrictPair := |cards| == 2 && cards[0].rank == cards[1].rank;
    hand := HandValue(total, aces > 0, isStrictPair, isStrictPair);
  }

  /** Every card counts at least 2 and every Ace 11. */
  lemma {:induction false} SumBounds(cards: seq<Card>)
    ensures AceCount(cards) <= |cards|
    ensures NominalSum(cards) >= 11 * AceCount(cards) + 2 * (|cards| - AceCount(cards))
  {
    if cards != [] {
      SumBounds(cards[..|cards| - 1]);
    }
  }

  /** A hand made only of Aces. */
  lemma {:induction false} AllAces(cards: seq<Card>, i: nat)
    requires AceCount(cards) == |cards|
    requires i < |cards|
    ensures cards[i].rank == Ace
  {
    var n := |cards| - 1;
    SumBounds(cards[..n]);
    if i < n {
      AllAces(cards[..n], i);
    }
  }

  /**
   * The total is the best one available: of all the sums obtainable by
   * counting some j of the Aces as 1, it is the largest that does not exceed 21.
   */
  lemma BestTotal(cards: seq<Card>, j: nat)
    requires j <= AceCount(cards)
    requires DemotedTotal(cards, j) <= 21
    ensures exists k: nat :: k <= AceCount(cards) && DemotedTotal(cards, k) == HandOf(cards).total
    ensures HandOf(cards).total <= 21
    ensures DemotedTotal(cards, j) <= HandOf(cards).total
  {
  }

  /**
   * In a soft hand of at least two cards that is not taken by the pair
   * branch, the total lies between 13 and 21: the only soft 12 is A,A.
   */
  lemma SoftTotalRange(cards: seq<Card>)
    requires |cards| >= 2
    requires HandOf(cards).isSoft
    requires !(HandOf(cards).isPair && |cards| == 2)
    ensures 13 <= HandOf(cards).total <= 21
  {
    SumBounds(cards);
    var sum, aces := NominalSum(cards), AceCount(cards);
    var total := HandOf(cards).total;
    assert total >= 12;
    if total == 12 {
      assert aces == |cards| == 2;
      AllAces(cards, 0);
      AllAces(cards, 1);
      assert false;
    }
  }

  // ---------------------------------------------------------------------
  // The decision table
  // ---------------------------------------------------------------------

  /** The pair rows, keyed on the shared rank. */
  function PairRule(rank: Rank, d: int): (r: Rule)
    ensures IsTableCode(r.code) && r.description != ""
    ensures rank == Ace ==> r.code == "Sp"
    ensures CardValue(rank) == 10 ==> r.code == "S"
    ensures rank == Nine ==> (r.code == "S" <==> d in {7, 10, 11}) && (r.code != "S" ==> r.code == "Sp")
    ensures rank == Four ==> r.code == "C"
    ensures r.code == "DD" <==> rank == Five && 2 <= d <= 9
    ensures r.code == "S" ==> rank == Nine || CardValue(rank) == 10
  {
    if rank == Two || rank == Three then
      Rule(if d in {4, 5, 6, 7} then "Sp" else "C", "Split 2s and 3s against Dealer 4-7.")
    else if rank == Four then
      Rule("C", "Never split 4s (per this chart).")
    else if rank == Five then
      Rule(if 2 <= d <= 9 then "DD" else "C", "Double 5s against Dealer 2-9.")
    else if rank == Six then
      Rule(if d in {3, 4, 5, 6} then "Sp" else "C", "Split 6s against Dealer 3-6.")
    else if rank == Seven then
      Rule(if 2 <= d <= 7 then "Sp" else "C", "Split 7s against Dealer 2-7.")
    else if rank == Eight then
      Rule(if 2 <= d <= 9 then "Sp" else "C", "Always split 8s (unless Dealer has 10 or Ace).")
    else if rank == Nine then
      Rule(if d == 7 || d == 10 || d == 11 then "S" else "Sp", "Split 9s against 2-6 and 8-9. Stand on 7.")
    else if CardValue(rank) == 10 then
      Rule("S", "Never split 10s.")
    else
      Rule("Sp", "Always split Aces.")
  }

  /**
   * The soft rows, keyed on the total. A total below 13 matches no row and
   * keeps the default code "S" with an empty description.
   */
  function SoftRule(total: int, d: int): (r: Rule)
    ensures IsTableCode(r.code) && r.code != "Sp"
    ensures r.description != "" <==> total >= 13
    ensures total < 13 ==> r == Rule("S", "")
    ensures total >= 19 ==> r.code == "S"
    ensures r.code == "DD" ==> 13 <= total <= 18 && 3 <= d <= 6
    ensures total == 18 && d in {2, 7, 8} ==> r.code == "S"
  {
    if total >= 19 then
      Rule("S", "Stand on Soft 19 and 20.")
    else if total == 18 then
      Rule(if 3 <= d <= 6 then "DD" else if d == 2 || d == 7 || d == 8 then "S" else "C",
           "Soft 18: Double vs 3-6, Stand vs 2,7,8, Hit vs 9+.")
    else if total == 17 then
      Rule(if 3 <= d <= 6 then "DD" else "C", "Soft 17: Double vs 3-6.")
    else if total == 16 || total == 15 then
      Rule(if 4 <= d <= 6 then "DD" else "C", "Soft " + IntText(total) + ": Double vs 4-6.")
    else if total == 13 then
      Rule(if d == 6 then "DD" else "C", "Soft 13: Double vs 6 only.")
    else if total == 14 then
      Rule(if d == 5 || d == 6 then "DD" else "C", "Soft 14: Double vs 5-6.")
    else
      Rule("S", "")
  }

  /** The hard rows, keyed on the total. */
  function HardRule(t: int, d: int): (r: Rule)
    ensures IsTableCode(r.code) && r.code != "Sp" && r.description != ""
    ensures t >= 17 ==> r.code == "S"
    ensures t <= 8 ==> r.code == "C"
    ensures r.code == "DD" ==> 9 <= t <= 11
    ensures r.code == "S" ==> t >= 12
  {
    if t >= 17 then
      Rule("S", "Stand on Hard 17+.")
    else if 13 <= t <= 16 then
      Rule(if 2 <= d <= 6 then "S" else "C", "Hard " + IntText(t) + ": Stand vs 2-6, Hit vs 7+.")
    else if t == 12 then
      Rule(if 4 <= d <= 6 then "S" else "C", "Hard 12: Stand vs 4-6, else Hit.")
    else if t == 11 then
      Rule(if d <= 10 then "DD" else "C", "Always Double 11 (except vs Ace).")
    else if t == 10 then
      Rule(if 2 <= d <= 9 then "DD" else "C", "Double 10 vs 2-9.")
    else if t == 9 then
      Rule(if 3 <= d <= 6 then "DD" else "C", "Double 9 vs 3-6.")
    else
      Rule("C", "Always Hit hard 8 or less.")
  }

  /**
   * The table lookup: the pair rows for a two-card pair, else the soft rows
   * for a soft hand, else the hard rows.
   */
  function TableRule(hand: HandValue, cards: seq<Card>, d: int): (r: Rule)
    ensures IsTableCode(r.code)
    ensures r.code == "Sp" ==> hand.isPair && |cards| == 2
    ensures hand.isPair && |cards| == 2 ==> r == PairRule(cards[0].rank, d)
    ensures !(hand.isPair && |cards| == 2) && hand.isSoft ==> r == SoftRule(hand.total, d)
    ensures !(hand.isPair && |cards| == 2) && !hand.isSoft ==> r == HardRule(hand.total, d)
  {
    if hand.isPair && |cards| == 2 then PairRule(cards[0].rank, d)
    else if hand.isSoft then SoftRule(hand.total, d)
    else HardRule(hand.total, d)
  }

  /**
   * Once the hand has more than two cards, splitting and doubling are no
   * longer available: SPLIT becomes HIT, DOUBLE becomes STAND on a soft 18
   * and HIT otherwise.
   */
  function Degrade(code: string, cardCount: int, hand: HandValue): (c: string)
    ensures cardCount <= 2 ==> c == code
    ensures code != "Sp" && code != "DD" ==> c == code
    ensures cardCount > 2 ==> c != "Sp" && c != "DD"
    ensures cardCount > 2 && code == "Sp" ==> c == "C"
    ensures cardCount > 2 && code == "DD" ==> (c == "S" <==> hand.isSoft && hand.total == 18)
    ensures cardCount > 2 && code == "DD" ==> c == "S" || c == "C"
  {
    if cardCount <= 2 then code
    else if code == "Sp" then "C"
    else if code == "DD" then (if hand.isSoft && hand.total == 18 then "S" else "C")
    else code
  }

  /** The action a code stands for; an unknown code falls back to STAND. */
  function MapCodeToAction(code: string): (a: ActionType)
    ensures a != Surrender && a != Bust
    ensures a == Hit <==> code == "C"
    ensures a == Double <==> code == "DD"
    ensures a == Split <==> code == "Sp"
    ensures a == Stand <==> code != "C" && code != "DD" && code != "Sp"
  {
    if code == "C" then Hit
    else if code == "S" then Stand
    else if code == "DD" then Double
    else if code == "Sp" then Split
    else Stand
  }

  // ---------------------------------------------------------------------
  // Win probability
  // ---------------------------------------------------------------------

  /** A coarse percentage read off the total and the dealer's value. */
  function WinProbability(hand: HandValue, dealerVal: int): (p: int)
    ensures 25 <= p <= 100
    ensures p == 100 <==> hand.total == 21
    ensures p >= 85 <==> 19 <= hand.total <= 21
    ensures p == 25 ==> hand.total == 17 && !(2 <= dealerVal <= 6)
  {
    var t := hand.total;
    if t == 21 then 100
    else if t == 20 then 92
    else if t == 19 then 85
    else if t == 18 then
      (if 2 <= dealerVal <= 6 then 70
       else if dealerVal == 7 then 60
       else if dealerVal == 8 then 45
       else 40)
    else if t == 17 then
      (if 2 <= dealerVal <= 6 then 65 else 25)
    else if 12 <= t <= 16 then
      (if 4 <= dealerVal <= 6 then 45 else 30)
    else if t == 11 then 70
    else if t == 10 then 65
    else if t == 9 then 55
    else 40
  }

  /** The heuristic reads only the total: the flags of the hand play no part. */
  lemma WinProbabilityDependsOnTotal(h1: HandValue, h2: HandValue, dealerVal: int)
    requires h1.total == h2.total
    ensures WinProbability(h1, dealerVal) == WinProbability(h2, dealerVal)
  {
  }

  // ---------------------------------------------------------------------
  // The evaluator
  // ---------------------------------------------------------------------

  function BustExplanation(total: int): string
  {
    "You currently have " + IntText(total) + ". You have busted."
  }

  function RuleExplanation(description: string, hand: HandValue, d: int): string
  {
    description + " (Table Rule: Player " + (if hand.isSoft then "Soft" else "") + " "
      + IntText(hand.total) + " vs Dealer " + IntText(d) + ")"
  }

  /**
   * The advice for a dealer upcard and the player's cards: BUST when the
   * total exceeds 21, otherwise the table's action, downgraded for a hand
   * of more than two cards, with confidence 100 and the heuristic win
   * probability.
   */
  function Advise(dealerCard: Card, playerCards: seq<Card>): (r: AIAdvice)
    ensures var hand := HandOf(playerCards);
      && r.confidence == 100
      && r.action != Surrender
      && (r.action == Bust <==> hand.total > 21)
      && (hand.total > 21 ==> r.winProbability == Some(0))
      && (hand.total <= 21 ==>
            && r.action in {Hit, Stand, Double, Split}
            && r.winProbability.Some?
            && 25 <= r.winProbability.value <= 100
            && (r.winProbability.value == 100 <==> hand.total == 21))
    ensures |playerCards| > 2 ==> r.action != Split && r.action != Double
    ensures var hand := HandOf(playerCards);
      hand.total <= 21 && |playerCards| > 2
        && TableRule(hand, playerCards, DealerValue(dealerCard)).code == "DD"
      ==> (r.action == Stand <==> hand.isSoft && hand.total == 18)
          && r.action in {Stand, Hit}
    ensures r.action == Split ==> |playerCards| == 2 && playerCards[0].rank == playerCards[1].rank
  {
    var hand := HandOf(playerCards);
    var d := DealerValue(dealerCard);
    if hand.total > 21 then
      AIAdvice(Bust, 100, Some(0), BustExplanation(hand.total))
    else
      var rule := TableRule(hand, playerCards, d);
      var code := Degrade(rule.code, |playerCards|, hand);
      AIAdvice(MapCodeToAction(code), 100, Some(WinProbability(hand, d)),
               RuleExplanation(rule.description, hand, d))
  }

  /**
   * The evaluator as the program runs it: evaluate the hand with the loop,
   * return early on a bust, look the hand up in the table, then overwrite the
   * action code when the hand has more than two cards.
   */
  method GetBasicStrategyAdvice(dealerCard: Card, playerCards: seq<Card>) returns (advice: AIAdvice)
    ensures advice == Advise(dealerCard, playerCards)
  {
    var hand := CalculateHand(playerCards);
    var dealerVal := DealerValue(dealerCard);
    if hand.total > 21 {
      return AIAdvice(Bust, 100, Some(0), BustExplanation(hand.total));
    }
    var d := dealerVal;
    var rule := TableRule(hand, playerCards, d);
    var actionCode := rule.code;
    if |playerCards| > 2 {
      if actionCode == "Sp" {
        actionCode := "C";
      }
      if actionCode == "DD" {
        if hand.isSoft && hand.total == 18 {
          actionCode := "S";
        } else {
          actionCode := "C";
        }
      }
    }
    var action := MapCodeToAction(actionCode);
    var winProbability := WinProbability(hand, d);
    advice := AIAdvice(action, 100, Some(winProbability), RuleExplanation(rule.description, hand, d));
  }

  // ---------------------------------------------------------------------
  // Properties of the evaluator
  // ---------------------------------------------------------------------

  /**
   * The soft default never decides the advice for a hand of two or more
   * cards: whenever the soft rows are consulted, one of them fires.
   */
  lemma SoftFallThroughUnreachable(dealerCard: Card, playerCards: seq<Card>)
    requires |playerCards| >= 2
    ensures var hand := HandOf(playerCards);
      hand.total <= 21 && hand.isSoft && !(hand.isPair && |playerCards| == 2)
      ==> TableRule(hand, playerCards, DealerValue(dealerCard)).description != ""
  {
    var hand := HandOf(playerCards);
    if hand.total <= 21 && hand.isSoft && !(hand.isPair && |playerCards| == 2) {
      SoftTotalRange(playerCards);
    }
  }

  /** The sums of a two-card hand, written out. */
  lemma TwoCardSums(cards: seq<Card>)
    requires |cards| == 2
    ensures NominalSum(cards) == CardValue(cards[0].rank) + CardValue(cards[1].rank)
    ensures AceCount(cards) == (if cards[0].rank == Ace then 1 else 0) + (if cards[1].rank == Ace then 1 else 0)
  {
    var first := cards[..1];
    assert first[..0] == [] && first[0] == cards[0];
    assert NominalSum(first) == CardValue(cards[0].rank);
    assert AceCount(first) == (if cards[0].rank == Ace then 1 else 0);
    assert cards[..|cards| - 1] == first;
  }

  /**
   * Two different ten-valued ranks (a Ten with a King, a Jack with a Queen,
   * in either order) are not a pair: they are a hard 20, and the advice is STAND.
   */
  lemma MixedTensAreHardTwenty(dealerCard: Card, playerCards: seq<Card>)
    requires |playerCards| == 2
    requires playerCards[0].rank != playerCards[1].rank
    requires CardValue(playerCards[0].rank) == 10 && CardValue(playerCards[1].rank) == 10
    ensures var hand := HandOf(playerCards);
      !hand.isPair && !hand.isSoft && hand.total == 20 && Advise(dealerCard, playerCards).action == Stand
  {
    TwoCardSums(playerCards);
  }

  /** Two Aces are a soft 12 pair, and the advice is always SPLIT. */
  lemma AcesAlwaysSplit(dealerCard: Card, playerCards: seq<Card>)
    requires |playerCards| == 2
    requires playerCards[0].rank == Ace && playerCards[1].rank == Ace
    ensures HandOf(playerCards) == HandValue(12, true, true, true)
    ensures Advise(dealerCard, playerCards).action == Split
  {
    TwoCardSums(playerCards);
  }

  /** A pair of ten-valued cards is a hard 20, and the advice is always STAND. */
  lemma TenValuePairStands(dealerCard: Card, playerCards: seq<Card>)
    requires |playerCards| == 2
    requires playerCards[0].rank == playerCards[1].rank
    requires CardValue(playerCards[0].rank) == 10
    ensures HandOf(playerCards) == HandValue(20, false, true, true)
    ensures Advise(dealerCard, playerCards).action == Stand
  {
    TwoCardSums(playerCards);
  }

  /** A pair of Nines is stood against a dealer 7, 10 or Ace and split otherwise. */
  lemma NinesStandOnlyAgainstSevenTenAce(dealerCard: Card, playerCards: seq<Card>)
    requires |playerCards| == 2
    requires playerCards[0].rank == Nine && playerCards[1].rank == Nine
    ensures var a := Advise(dealerCard, playerCards).action;
      var d := DealerValue(dealerCard);
      (a == Stand <==> d in {7, 10, 11}) && (a != Stand ==> a == Split)
  {
    TwoCardSums(playerCards);
  }
}
