/** What every seat scores in a round, in terms of its cards and of what happened, and what all
    seats score together. */
module RoundTotals {
  import opened Bags
  import opened Cards
  import opened Melds
  import opened Rules
  import opened Invariants
  import opened History
  import opened Grammar
  import opened Attribution
  import opened HandSizes
  import opened Scoring
  import opened PointsTheorems
  import opened Endings

  /** The values of the cards with the Ace low. */
  lemma LowIs(c: Card)
    ensures Low(c) == if c == Card(CLUBS, TWO) || c == Card(SPADES, QUEEN) then 50
                      else if c.rank == ACE then 1
                      else if c.rank >= TEN then 10
                      else c.rank
  {
  }

  function AceHighOwned(melds: seq<Meld>, q: int): nat {
    if melds == [] then 0
    else
      var m := melds[|melds| - 1];
      AceHighOwned(melds[..|melds| - 1], q) + if m.owner == q && m.aceHigh then 1 else 0
  }

  /** What a seat's melds are worth: their cards, and nine for each Ace-high run. */
  function MeldsWorth(melds: seq<Meld>, q: int): int {
    Total(Low, OwnedCards(melds, q)) + 9 * AceHighOwned(melds, q)
  }

  lemma {:induction false} OwnedWorth(melds: seq<Meld>, q: int, rs: RuleSet)
    requires RoomRules(rs) && forall i :: 0 <= i < |melds| ==> ValidMeld(melds[i], rs.minMeldLen)
    ensures OwnedPoints(melds, q, rs) == MeldsWorth(melds, q)
  {
    hide RoomRules, ValidMeld, MeldValue, Low;
    if melds != [] {
      var init, m := melds[..|melds| - 1], melds[|melds| - 1];
      OwnedWorth(init, q, rs);
      if m.owner == q {
        MeldWorth(m, rs);
        TotalAppend(Low, OwnedCards(init, q), m.cards);
      } else {
        assert OwnedCards(melds, q) == OwnedCards(init, q);
      }
    }
  }

  /** What going out is worth, by whether it was dark and whether the board is of one suit. */
  function KnockWorth(dark: bool, oneSuit: bool): int {
    match (dark, oneSuit)
    case (false, false) => 50
    case (true, true) => 200
    case _ => 100
  }

  predicate KnockedOnOneSuit(s: State) {
    s.knocked.Some? && OneSuitOnly(s.melds, s.knocker, s.knocked.value.suit)
  }

  /** The seat's row of the score sheet. */
  ghost function Row(h: seq<Entry>, s: State, q: nat): ScoreBreakdown
    requires q < |s.players|
  {
    var melds := MeldsWorth(s.melds, q);
    var head := if s.headOwner == q then 50 else 0;
    var knock := if s.knocker == q then KnockWorth(s.knockDark, KnockedOnOneSuit(s)) else 0;
    var card := if s.knocker == q then 50 else 0;
    var hand := -Total(Low, s.players[q].hand);
    var dump := -50 * Charges(h, q);
    ScoreBreakdown(s.players[q].id, melds, head, knock, card, hand, dump,
                   melds + head + knock + card + hand + dump)
  }

  lemma KnockRules(s: State)
    requires RoomRules(s.rules)
    ensures KnockBonusOf(s) == KnockWorth(s.knockDark, s.knockSuit)
    ensures s.rules.headCardBonus == 50 && s.rules.knockCardBonus == 50 && s.rules.dumpPenalty == 50
  {
  }

  lemma SuitFlag(s: State)
    requires EndingOK(s) && s.knocker != -1
    ensures s.knockSuit == KnockedOnOneSuit(s) && s.knocker == s.turn < |s.players|
  {
    hide OneSuitOnly;
  }

  lemma TableIsValid(s: State)
    requires Sound(s)
    ensures RoomRules(s.rules)
    ensures forall i :: 0 <= i < |s.melds| ==> ValidMeld(s.melds[i], s.rules.minMeldLen)
  {
    hide ValidMeld, Conserved, HeadOK, ProducedOK;
  }

  /** In every state of every run each seat's row is exactly that. */
  lemma SeatScore(s: State, attempts: seq<Attempt>, q: nat)
    requires Initial(s) && Shaped(s) && q < |Play(s, attempts).players|
    ensures ScoreOf(Play(s, attempts), q) == Row(Log(s, attempts), Play(s, attempts), q)
  {
    hide Initial, Apply, Sound, RoomRules, ValidMeld, EndingOK, Charges, MeldsWorth, OwnedPoints;
    hide HandValue, KnockBonusOf, KnockWorth, KnockedOnOneSuit, Low, DarkMatches, Play, Log;
    var t := Play(s, attempts);
    RunIsSound(s, attempts);
    RunAttribution(s, attempts);
    RunEnding(s, attempts);
    TableIsValid(t);
    OwnedWorth(t.melds, q, t.rules);
    HandWorth(t.players[q].hand, t.rules);
    KnockRules(t);
    if t.knocker != -1 {
      SuitFlag(t);
    }
  }

  // ----- all seats together ------------------------------------------------------------

  function TotalsSum(s: State, k: nat): int
    requires k <= |s.players|
  {
    if k == 0 then 0 else TotalsSum(s, k - 1) + ScoreOf(s, k - 1).total
  }

  ghost function ChargesSum(h: seq<Entry>, k: nat): nat {
    if k == 0 then 0 else ChargesSum(h, k - 1) + Charges(h, k - 1)
  }

  function Given(owner: int, k: nat, points: int): int {
    if 0 <= owner < k then points else 0
  }

  lemma {:induction false} TotalsByKind(s: State, attempts: seq<Attempt>, k: nat)
    requires Initial(s) && Shaped(s) && k <= |Play(s, attempts).players|
    ensures var t, h := Play(s, attempts), Log(s, attempts);
            TotalsSum(t, k) == MeldTotal(t, k) + PenaltyTotal(t, k) + Given(t.headOwner, k, 50)
                               + Given(t.knocker, k, 50 + KnockWorth(t.knockDark, KnockedOnOneSuit(t)))
                               - 50 * ChargesSum(h, k)
  {
    hide Initial, Apply, Sound, Charges, MeldsWorth, ScoreOf, KnockWorth, KnockedOnOneSuit, Low, Play, Log;
    if k > 0 {
      TotalsByKind(s, attempts, k - 1);
      SeatScore(s, attempts, k - 1);
    }
  }

  lemma HeadOwnerSits(s: State)
    requires Sound(s)
    ensures -1 <= s.headOwner < |s.players| && Shaped(s)
  {
    hide ValidMeld, Conserved, ProducedOK;
  }

  lemma KnockerSits(s: State)
    requires EndingOK(s)
    ensures s.knocker == -1 || 0 <= s.knocker < |s.players|
  {
    hide OneSuitOnly;
  }

  /** All totals add up to the deck's 428 points and nine for each Ace-high run, less what lies in
      the piles and the knocked card, less twice what is left in hands, with the bonuses for the
      head card and the knock, less fifty for each charge. */
  lemma TotalsAddUp(s: State, attempts: seq<Attempt>)
    requires Initial(s) && Shaped(s)
    ensures var t, h := Play(s, attempts), Log(s, attempts); var n := |t.players|;
            TotalsSum(t, n) == 428 + 9 * AceHighRuns(t.melds)
                               - Total(Low, t.drawPile) - Total(Low, t.discardPile)
                               - Total(Low, KnockedCards(t)) - 2 * Total(Low, HandCards(t.players))
                               + (if t.headOwner == -1 then 0 else 50)
                               + (if t.knocker == -1 then 0
                                  else 50 + KnockWorth(t.knockDark, KnockedOnOneSuit(t)))
                               - 50 * ChargesSum(h, n)
  {
    hide Initial, Apply, Sound, Charges, ScoreOf, KnockWorth, KnockedOnOneSuit, Low, Play, Log, Total;
    hide MeldTotal, PenaltyTotal, EndingOK, HandCards, TotalsSum, ChargesSum;
    var t := Play(s, attempts);
    RunIsSound(s, attempts);
    RunEnding(s, attempts);
    HeadOwnerSits(t);
    KnockerSits(t);
    SoundIsOrderly(t);
    TotalsByKind(s, attempts, |t.players|);
    SeatTotals(t, |t.players|);
    assert t.players[..|t.players|] == t.players;
    PointsAreConserved(t);
  }
}
