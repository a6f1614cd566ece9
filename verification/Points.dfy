/** The points of a round: what the seats score on melds, lose on hands and what lies in the
    piles adds up to the deck, whatever happened. */
module PointsTheorems {
  import opened Bags
  import opened Cards
  import opened Melds
  import opened LayOff
  import opened Deck
  import opened Rules
  import opened Runs
  import opened Conservation
  import opened Invariants
  import opened Steps
  import opened History
  import opened Attribution
  import opened HandSizes
  import opened Scoring

  /** A card's value with the Ace low. */
  function Low(c: Card): int {
    HandCardPenalty(c, DefaultRuleSet())
  }

  function AceCount(c: Card): int {
    if c.rank == ACE then 1 else 0
  }

  lemma LowIsPositive(c: Card)
    ensures 1 <= Low(c) <= 50
  {
  }

  lemma RoomPoints(c: Card, rs: RuleSet, aceHigh: bool)
    requires RoomRules(rs)
    ensures Points(c, rs, aceHigh && c.rank == ACE) == Low(c) + if aceHigh then 9 * AceCount(c) else 0
  {
  }

  // ----- the deck ----------------------------------------------------------------------

  function DeckSum(f: Card -> int, k: nat): int
    requires k <= 52
    decreases 52 - k
  {
    if k == 52 then 0 else f(Card(k / 13, k % 13 + 1)) + DeckSum(f, k + 1)
  }

  lemma {:induction false} DeckSumIsTotal(f: Card -> int, k: nat)
    requires k <= 52
    ensures DeckSum(f, k) == Total(f, OrderedDeck()[k..])
    decreases 52 - k
  {
    if k < 52 {
      DeckSumIsTotal(f, k + 1);
      assert OrderedDeck()[k..] == [OrderedDeck()[k]] + OrderedDeck()[k + 1..];
      assert ([OrderedDeck()[k]] + OrderedDeck()[k + 1..])[1..] == OrderedDeck()[k + 1..];
    }
  }

  /** A suit's thirteen cards, one index after the other. */
  lemma SuitSum(f: Card -> int, s: Suit)
    ensures DeckSum(f, 13 * s) == DeckSum(f, 13 * s + 13)
            + f(Card(s, 1)) + f(Card(s, 2)) + f(Card(s, 3)) + f(Card(s, 4)) + f(Card(s, 5))
            + f(Card(s, 6)) + f(Card(s, 7)) + f(Card(s, 8)) + f(Card(s, 9)) + f(Card(s, 10))
            + f(Card(s, 11)) + f(Card(s, 12)) + f(Card(s, 13))
  {
    hide DeckSum;
    Unroll(f, s, 0); Unroll(f, s, 1); Unroll(f, s, 2); Unroll(f, s, 3); Unroll(f, s, 4);
    Unroll(f, s, 5); Unroll(f, s, 6); Unroll(f, s, 7); Unroll(f, s, 8); Unroll(f, s, 9);
    Unroll(f, s, 10); Unroll(f, s, 11); Unroll(f, s, 12);
  }

  lemma Unroll(f: Card -> int, s: Suit, r: nat)
    requires r < 13
    ensures DeckSum(f, 13 * s + r) == f(Card(s, r + 1)) + DeckSum(f, 13 * s + r + 1)
  {
  }

  lemma DeckIsWorth428()
    ensures Total(Low, OrderedDeck()) == 428
  {
    DeckSumIsTotal(Low, 0);
    assert OrderedDeck()[0..] == OrderedDeck();
    SuitSum(Low, 0); SuitSum(Low, 1); SuitSum(Low, 2); SuitSum(Low, 3);
    hide DeckSum;
    SuitWorth(0); SuitWorth(1); SuitWorth(2); SuitWorth(3);
  }

  lemma SuitWorth(s: Suit)
    ensures Low(Card(s, 1)) + Low(Card(s, 2)) + Low(Card(s, 3)) + Low(Card(s, 4)) + Low(Card(s, 5))
            + Low(Card(s, 6)) + Low(Card(s, 7)) + Low(Card(s, 8)) + Low(Card(s, 9)) + Low(Card(s, 10))
            + Low(Card(s, 11)) + Low(Card(s, 12)) + Low(Card(s, 13))
         == 85 + (if s == CLUBS then 48 else 0) + (if s == SPADES then 40 else 0)
  {
  }

  lemma DeckHasFourAces()
    ensures Total(AceCount, OrderedDeck()) == 4
  {
    DeckSumIsTotal(AceCount, 0);
    assert OrderedDeck()[0..] == OrderedDeck();
    SuitSum(AceCount, 0); SuitSum(AceCount, 1); SuitSum(AceCount, 2); SuitSum(AceCount, 3);
  }

  // ----- melds -------------------------------------------------------------------------

  lemma {:induction false} MeldSumSplits(m: Meld, cards: seq<Card>, rs: RuleSet)
    requires RoomRules(rs)
    ensures MeldSum(m, cards, rs) == Total(Low, cards)
            + if m.kind == Run && m.aceHigh then 9 * Total(AceCount, cards) else 0
  {
    hide RoomRules, Low, AceCount;
    if cards != [] {
      var init, c := cards[..|cards| - 1], cards[|cards| - 1];
      MeldSumSplits(m, init, rs);
      RoomPoints(c, rs, m.kind == Run && m.aceHigh);
      assert cards == init + [c];
      TotalAppend(Low, init, [c]);
      TotalAppend(AceCount, init, [c]);
      assert [c][1..] == [];
    }
  }

  lemma {:induction false} NoAcesBelow(s: Suit, lo: nat, n: nat)
    requires 2 <= lo && lo + n <= 14
    ensures Total(AceCount, Straight(s, lo, n)) == 0
    decreases n
  {
    if n > 0 {
      var t := Straight(s, lo, n);
      assert t[0] == At(s, lo);
      assert t[1..] == Straight(s, lo + 1, n - 1);
      NoAcesBelow(s, lo + 1, n - 1);
    }
  }

  /** A valid meld scores its cards with the Ace low, plus nine if it is an Ace-high run. */
  lemma MeldWorth(m: Meld, rs: RuleSet)
    requires RoomRules(rs) && ValidMeld(m, rs.minMeldLen)
    ensures MeldValue(m, rs) == Total(Low, m.cards) + if m.aceHigh then 9 else 0
    ensures m.aceHigh ==> Total(AceCount, m.cards) == 1
  {
    hide RoomRules, Low;
    MeldSumSplits(m, m.cards, rs);
    if m.aceHigh {
      SeqBagSize(m.cards);
      var shape, n := Classify(multiset(m.cards), rs.minMeldLen).value, |m.cards|;
      var init := Straight(shape.suit, shape.lo, n - 1);
      assert m.cards == init + [At(shape.suit, 14)];
      NoAcesBelow(shape.suit, shape.lo, n - 1);
      TotalAppend(AceCount, init, [At(shape.suit, 14)]);
      assert [At(shape.suit, 14)][1..] == [];
    }
  }

  /** What a lay-off does to a meld's points: the cards' values, nine more when it makes the
      run Ace-high, nine less when it makes it Ace-low again. */
  lemma LayOffPoints(m: Meld, xs: seq<Card>, rs: RuleSet)
    requires RoomRules(rs) && ValidMeld(m, rs.minMeldLen) && LaidOff(m, xs, rs.minMeldLen).Some?
    ensures var u := LaidOff(m, xs, rs.minMeldLen).value;
            MeldValue(u, rs) == MeldValue(m, rs) + Total(Low, xs)
                                + (if u.aceHigh then 9 else 0) - (if m.aceHigh then 9 else 0)
  {
    hide RoomRules, Low, ValidMeld, LaidOff, MeldValue, AceCount;
    var u := LaidOff(m, xs, rs.minMeldLen).value;
    LaidOffIsValid(m, xs, rs.minMeldLen);
    MeldWorth(m, rs);
    MeldWorth(u, rs);
    TotalOfBag(Low, u.cards, m.cards + xs);
    TotalAppend(Low, m.cards, xs);
  }

  lemma {:induction false} TotalLowAtLeastSize(xs: seq<Card>)
    ensures Total(Low, xs) >= |xs|
  {
    if xs != [] {
      LowIsPositive(xs[0]);
      TotalLowAtLeastSize(xs[1..]);
    }
  }

  /** Laying off lowers a meld's points exactly when it completes the suit of an Ace-high run
      with cards worth less than nine. */
  lemma LayOffLowersPoints(m: Meld, xs: seq<Card>, rs: RuleSet)
    requires RoomRules(rs) && ValidMeld(m, rs.minMeldLen) && LaidOff(m, xs, rs.minMeldLen).Some?
    ensures var u := LaidOff(m, xs, rs.minMeldLen).value;
            MeldValue(u, rs) < MeldValue(m, rs)
            <==> m.aceHigh && |m.cards| + |xs| == 13 && Total(Low, xs) < 9
  {
    RulesNeedThree(rs);
    hide RoomRules, Low, ValidMeld, LaidOff, MeldValue;
    LayOffPoints(m, xs, rs);
    AceFlagChanges(m, xs, rs.minMeldLen);
    LaidOffIsValid(m, xs, rs.minMeldLen);
    TotalLowAtLeastSize(xs);
    OnlyRunsAreAceHigh(m, rs.minMeldLen);
  }

  lemma RulesNeedThree(rs: RuleSet)
    requires RoomRules(rs)
    ensures rs.minMeldLen >= 3 && rs.dumpPenalty == 50
  {
  }

  lemma OnlyRunsAreAceHigh(m: Meld, minLen: nat)
    requires ValidMeld(m, minLen)
    ensures m.aceHigh ==> m.kind == Run
  {
  }

  /** The case that happens: the Two of diamonds onto Three to Ace of diamonds costs seven. */
  lemma TwoOfDiamondsLowersRun()
    ensures var m := Meld(1, Run, Straight(DIAMONDS, 3, 12), 0, true);
            var two, rs := Card(DIAMONDS, TWO), DefaultRuleSet();
            && ValidMeld(m, rs.minMeldLen) && LaidOff(m, [two], rs.minMeldLen).Some?
            && MeldValue(LaidOff(m, [two], rs.minMeldLen).value, rs) == MeldValue(m, rs) - 7
  {
    var m := Meld(1, Run, Straight(DIAMONDS, 3, 12), 0, true);
    var two, rs := Card(DIAMONDS, TWO), DefaultRuleSet();
    hide Low, MeldValue;
    TwoCompletesSuit(m, two);
    LayOffPoints(m, [two], rs);
    assert Total(Low, [two]) == Low(two) by { assert [two][1..] == []; }
    TwoIsWorthTwo();
  }

  lemma TwoIsWorthTwo()
    ensures Low(Card(DIAMONDS, TWO)) == 2
  {
  }

  lemma TwoCompletesSuit(m: Meld, two: Card)
    requires m == Meld(1, Run, Straight(DIAMONDS, 3, 12), 0, true) && two == Card(DIAMONDS, TWO)
    ensures ValidMeld(m, 3) && LaidOff(m, [two], 3).Some? && !LaidOff(m, [two], 3).value.aceHigh
  {
    var b := multiset(m.cards);
    SeqBagSize(m.cards);
    ClassifyRunIs(b, 3, DIAMONDS, 3);
    var all := m.cards + [two];
    SeqBagSize(all);
    assert Straight(DIAMONDS, 2, 13) == [two] + m.cards;
    WholeSuit(DIAMONDS);
    assert multiset(all) == multiset(Straight(DIAMONDS, 1, 13));
    ClassifyRunIs(multiset(all), 3, DIAMONDS, 1);
  }

  // ----- the whole round ---------------------------------------------------------------

  function HandCards(players: seq<Player>): seq<Card> {
    if players == [] then []
    else HandCards(players[..|players| - 1]) + players[|players| - 1].hand
  }

  function MeldCards(melds: seq<Meld>): seq<Card> {
    if melds == [] then [] else MeldCards(melds[..|melds| - 1]) + melds[|melds| - 1].cards
  }

  function KnockedCards(s: State): seq<Card> {
    if s.knocked.None? then [] else [s.knocked.value]
  }

  lemma {:induction false} HandCardsBag(players: seq<Player>)
    ensures multiset(HandCards(players)) == HandsBag(players)
  {
    if players != [] {
      var init, q := players[..|players| - 1], players[|players| - 1];
      assert players == init + [q];
      HandCardsBag(init);
      HandsAppend(init, q);
    }
  }

  lemma {:induction false} MeldCardsBag(melds: seq<Meld>)
    ensures multiset(MeldCards(melds)) == TableBag(melds)
  {
    if melds != [] {
      var init, m := melds[..|melds| - 1], melds[|melds| - 1];
      assert melds == init + [m];
      MeldCardsBag(init);
      MeldsAppend(init, m);
    }
  }

  /** The total of a card value over everything in the round. */
  function TotalAll(f: Card -> int, s: State): int {
    Total(f, HandCards(s.players)) + Total(f, MeldCards(s.melds)) + Total(f, s.drawPile)
    + Total(f, s.discardPile) + Total(f, KnockedCards(s))
  }

  lemma TotalAllIsDeck(f: Card -> int, s: State)
    requires Conserved(s)
    ensures TotalAll(f, s) == Total(f, OrderedDeck())
  {
    hide HandCards, MeldCards, HandsBag, TableBag, Total;
    HandCardsBag(s.players);
    MeldCardsBag(s.melds);
    var a, b, c, d, e := HandCards(s.players), MeldCards(s.melds), s.drawPile, s.discardPile, KnockedCards(s);
    assert multiset(a + b + c + d + e) == Zones(s);
    TotalOfBag(f, a + b + c + d + e, OrderedDeck());
    TotalAppend(f, a + b + c + d, e);
    TotalAppend(f, a + b + c, d);
    TotalAppend(f, a + b, c);
    TotalAppend(f, a, b);
  }

  function AceHighRuns(melds: seq<Meld>): nat {
    if melds == [] then 0
    else AceHighRuns(melds[..|melds| - 1]) + if melds[|melds| - 1].aceHigh then 1 else 0
  }

  lemma {:induction false} TableWorth(melds: seq<Meld>, rs: RuleSet, n: nat)
    requires RoomRules(rs)
    requires forall i :: 0 <= i < |melds| ==> ValidMeld(melds[i], rs.minMeldLen) && 0 <= melds[i].owner < n
    ensures OwnedBelow(melds, n, rs) == Total(Low, MeldCards(melds)) + 9 * AceHighRuns(melds)
    ensures AceHighRuns(melds) <= Total(AceCount, MeldCards(melds))
  {
    hide RoomRules, Low, ValidMeld, MeldValue, AceCount;
    if melds != [] {
      var init, m := melds[..|melds| - 1], melds[|melds| - 1];
      TableWorth(init, rs, n);
      MeldWorth(m, rs);
      TotalAppend(Low, MeldCards(init), m.cards);
      TotalAppend(AceCount, MeldCards(init), m.cards);
      AcesNotNegative(m.cards);
    }
  }

  lemma {:induction false} AcesNotNegative(cards: seq<Card>)
    ensures Total(AceCount, cards) >= 0
  {
    if cards != [] {
      AcesNotNegative(cards[1..]);
    }
  }

  /** The meld points of the seats below n. */
  function OwnedBelow(melds: seq<Meld>, n: nat, rs: RuleSet): int {
    if melds == [] then 0
    else
      var m := melds[|melds| - 1];
      OwnedBelow(melds[..|melds| - 1], n, rs) + if 0 <= m.owner < n then MeldValue(m, rs) else 0
  }

  lemma {:induction false} OneMoreSeat(melds: seq<Meld>, n: nat, rs: RuleSet)
    ensures OwnedBelow(melds, n + 1, rs) == OwnedBelow(melds, n, rs) + OwnedPoints(melds, n, rs)
  {
    hide MeldValue;
    if melds != [] {
      OneMoreSeat(melds[..|melds| - 1], n, rs);
    }
  }

  lemma {:induction false} NoSeat(melds: seq<Meld>, rs: RuleSet)
    ensures OwnedBelow(melds, 0, rs) == 0
  {
    if melds != [] {
      NoSeat(melds[..|melds| - 1], rs);
    }
  }

  lemma {:induction false} HandWorth(hand: seq<Card>, rs: RuleSet)
    requires RoomRules(rs)
    ensures HandValue(hand, rs) == Total(Low, hand) >= 0
  {
    if hand != [] {
      var init, c := hand[..|hand| - 1], hand[|hand| - 1];
      HandWorth(init, rs);
      assert hand == init + [c];
      TotalAppend(Low, init, [c]);
      assert [c][1..] == [];
      RoomPoints(c, rs, false);
      LowIsPositive(c);
    }
  }

  /** What the first k seats score on melds, and what they lose on cards left in hand. */
  function MeldTotal(s: State, k: nat): int
    requires k <= |s.players|
  {
    if k == 0 then 0 else MeldTotal(s, k - 1) + ScoreOf(s, k - 1).meldPoints
  }

  function PenaltyTotal(s: State, k: nat): int
    requires k <= |s.players|
  {
    if k == 0 then 0 else PenaltyTotal(s, k - 1) + ScoreOf(s, k - 1).handPenalty
  }

  lemma {:induction false} SeatTotals(s: State, k: nat)
    requires Orderly(s) && k <= |s.players|
    ensures MeldTotal(s, k) == OwnedBelow(s.melds, k, s.rules)
    ensures PenaltyTotal(s, k) == -Total(Low, HandCards(s.players[..k]))
  {
    hide RoomRules, Low, OwnedBelow, OwnedPoints, HandValue, KnockBonusOf;
    if k == 0 {
      NoSeat(s.melds, s.rules);
    } else {
      SeatTotals(s, k - 1);
      OneMoreSeat(s.melds, k - 1, s.rules);
      var hand := s.players[k - 1].hand;
      HandWorth(hand, s.rules);
      assert s.players[..k][..k - 1] == s.players[..k - 1];
      TotalAppend(Low, HandCards(s.players[..k - 1]), hand);
    }
  }

  /** Meld points less hand penalties plus the piles and the knocked card come to the deck's
      428 points and nine for each of at most four Ace-high runs. */
  lemma PointsAreConserved(s: State)
    requires Sound(s)
    ensures MeldTotal(s, |s.players|) - PenaltyTotal(s, |s.players|) + Total(Low, s.drawPile)
            + Total(Low, s.discardPile) + Total(Low, KnockedCards(s))
         == 428 + 9 * AceHighRuns(s.melds)
    ensures AceHighRuns(s.melds) <= 4
  {
    hide Zones, Numbered, ValidMeld, HeadOK, ProducedOK, Low, AceCount, RoomRules, Total;
    SeatTotals(s, |s.players|);
    assert s.players[..|s.players|] == s.players;
    TableWorth(s.melds, s.rules, |s.players|);
    TotalAllIsDeck(Low, s);
    TotalAllIsDeck(AceCount, s);
    DeckIsWorth428();
    DeckHasFourAces();
    AcesNotNegative(HandCards(s.players));
    AcesNotNegative(s.drawPile);
    AcesNotNegative(s.discardPile);
    AcesNotNegative(KnockedCards(s));
  }

  lemma {:induction false} LowNotNegative(cards: seq<Card>)
    ensures Total(Low, cards) >= 0
  {
    if cards != [] {
      LowNotNegative(cards[1..]);
    }
  }

  lemma {:induction false} PartOfMeldTotal(s: State, q: nat, k: nat)
    requires Orderly(s) && TableOK(s) && q <= k <= |s.players|
    ensures 0 <= MeldTotal(s, q) <= MeldTotal(s, k)
    decreases k
  {
    hide RoomRules, OwnedPoints, HandValue, KnockBonusOf, ValidMeld;
    if k > 0 {
      OwnedNotNegative(s.melds, k - 1, s.rules);
      PartOfMeldTotal(s, if q < k then q else k - 1, k - 1);
    }
  }

  lemma {:induction false} OwnedNotNegative(melds: seq<Meld>, q: int, rs: RuleSet)
    requires RoomRules(rs) && forall i :: 0 <= i < |melds| ==> ValidMeld(melds[i], rs.minMeldLen)
    ensures OwnedPoints(melds, q, rs) >= 0
  {
    hide RoomRules, ValidMeld, MeldValue;
    if melds != [] {
      var m := melds[|melds| - 1];
      OwnedNotNegative(melds[..|melds| - 1], q, rs);
      MeldWorth(m, rs);
      LowNotNegative(m.cards);
    }
  }

  // ----- the largest total -------------------------------------------------------------

  /** Once someone has knocked, the knocked card is remembered and the suit flag tells whether
      all of the knocker's melds are of its suit. */
  ghost predicate KnockRecorded(s: State) {
    || s.knocker == -1
    || (s.roundOver && s.knocked.Some?
        && s.knockSuit == KnockSuitBoard(s.melds, s.knocker, s.knocked.value.suit))
  }

  lemma KnockStep(s: State, p: int, a: Action)
    requires Shaped(s) && KnockRecorded(s) && Apply(s, p, a).Accepted?
    ensures KnockRecorded(Apply(s, p, a).state)
  {
    hide MakeMeld, LaidOff, Removed, HandContains, LayGroups, LaySteps, LayableOnAny;
    hide KnockSuitBoard, Charged, FromHand, Extras, TargetIndex;
  }

  lemma {:induction false} KnockIsRecorded(s: State, attempts: seq<Attempt>)
    requires Initial(s) && Shaped(s)
    ensures KnockRecorded(Play(s, attempts))
  {
    hide Apply, Sound, KnockRecorded, Initial;
    if attempts == [] {
      NoKnockYet(s);
    } else {
      var n := |attempts| - 1;
      var before := Play(s, attempts[..n]);
      KnockIsRecorded(s, attempts[..n]);
      RunIsSound(s, attempts[..n]);
      if Apply(before, attempts[n].player, attempts[n].action).Accepted? {
        KnockStep(before, attempts[n].player, attempts[n].action);
      } else {
        RejectionUndoesNothing(before, attempts[n].player, attempts[n].action);
        SameKnock(before, Apply(before, attempts[n].player, attempts[n].action).state);
      }
    }
  }

  lemma NoKnockYet(s: State)
    requires Initial(s)
    ensures KnockRecorded(s)
  {
    hide FisherYates, Hands, RoomRules;
  }

  lemma SameKnock(s: State, t: State)
    requires KnockRecorded(s) && t == s.(nextMeldSeq := t.nextMeldSeq)
    ensures KnockRecorded(t)
  {
  }

  /** The most a card of one suit is worth in a meld; cards of other suits count nothing. */
  function SuitPoints(suit: Suit): Card -> int {
    (c: Card) => if c.suit == suit then Low(c) + 9 * AceCount(c) else 0
  }

  lemma SuitPart(suit: Suit, k: Suit)
    ensures var f := SuitPoints(suit);
            DeckSum(f, 13 * k) - DeckSum(f, 13 * k + 13) == if k == suit then SuitMaximum(suit) else 0
  {
    hide DeckSum, Low;
    SuitSum(SuitPoints(suit), k);
    SuitWorth(k);
  }

  function SuitMaximum(suit: Suit): int {
    94 + (if suit == CLUBS then 48 else 0) + (if suit == SPADES then 40 else 0)
  }

  /** What a suit's cards are worth with the Ace high. */
  lemma SuitTotal(suit: Suit)
    ensures Total(SuitPoints(suit), OrderedDeck()) == SuitMaximum(suit) <= 142
  {
    hide SuitPoints;
    DeckSumIsTotal(SuitPoints(suit), 0);
    assert OrderedDeck()[0..] == OrderedDeck();
    hide Total;
    SuitPart(suit, 0); SuitPart(suit, 1); SuitPart(suit, 2); SuitPart(suit, 3);
    assert DeckSum(SuitPoints(suit), 52) == 0;
    hide DeckSum;
  }

  lemma {:induction false} SuitPointsNotNegative(suit: Suit, cards: seq<Card>)
    ensures Total(SuitPoints(suit), cards) >= 0
  {
    if cards != [] {
      LowIsPositive(cards[0]);
      SuitPointsNotNegative(suit, cards[1..]);
    }
  }

  lemma {:induction false} OneSuitPoints(suit: Suit, cards: seq<Card>)
    requires forall c :: c in cards ==> c.suit == suit
    ensures Total(SuitPoints(suit), cards) == Total(Low, cards) + 9 * Total(AceCount, cards)
  {
    hide Low, AceCount;
    if cards != [] {
      OneSuitPoints(suit, cards[1..]);
    }
  }

  /** If all melds of a seat are of one suit, that suit's cards on the table bound their worth. */
  lemma {:induction false} OneSuitBoard(melds: seq<Meld>, q: int, suit: Suit, rs: RuleSet)
    requires RoomRules(rs) && forall i :: 0 <= i < |melds| ==> ValidMeld(melds[i], rs.minMeldLen)
    requires forall m :: m in melds && m.owner == q ==> forall c :: c in m.cards ==> c.suit == suit
    ensures OwnedPoints(melds, q, rs) <= Total(SuitPoints(suit), MeldCards(melds))
  {
    hide RoomRules, ValidMeld, MeldValue, Low, AceCount, SuitPoints;
    if melds != [] {
      var init, m := melds[..|melds| - 1], melds[|melds| - 1];
      OneSuitBoard(init, q, suit, rs);
      TotalAppend(SuitPoints(suit), MeldCards(init), m.cards);
      SuitPointsNotNegative(suit, m.cards);
      if m.owner == q {
        assert m in melds;
        MeldWorth(m, rs);
        OneSuitPoints(suit, m.cards);
        AcesNotNegative(m.cards);
      }
    }
  }

  lemma SuitKnockBound(t: State)
    requires Sound(t) && KnockRecorded(t) && 0 <= t.knocker < |t.players| && t.knockSuit
    ensures OwnedPoints(t.melds, t.knocker, t.rules) <= 142
  {
    hide Zones, Numbered, ValidMeld, HeadOK, ProducedOK, RoomRules, OwnedPoints, SuitPoints;
    var suit := t.knocked.value.suit;
    OneSuitBoard(t.melds, t.knocker, suit, t.rules);
    TotalAllIsDeck(SuitPoints(suit), t);
    SuitTotal(suit);
    SuitPointsNotNegative(suit, HandCards(t.players));
    SuitPointsNotNegative(suit, t.drawPile);
    SuitPointsNotNegative(suit, t.discardPile);
    SuitPointsNotNegative(suit, KnockedCards(t));
  }

  lemma KnockBonusBound(s: State)
    requires RoomRules(s.rules)
    ensures 50 <= KnockBonusOf(s)
    ensures KnockBonusOf(s) <= (if s.knockSuit then 100 else 50) * if s.knockDark then 2 else 1
  {
  }

  /** All points on the table together, the knocked card not being one of them. */
  lemma TableBound(t: State, q: nat)
    requires Sound(t) && q < |t.players|
    ensures OwnedPoints(t.melds, q, t.rules) <= 464
    ensures t.knocked.Some? ==> OwnedPoints(t.melds, q, t.rules) <= 463
  {
    hide Orderly, Conserved, TableOK, HeadOK, ProducedOK, Low, Total, HandCards;
    hide OwnedPoints, HandValue, KnockBonusOf;
    SoundIsShaped(t);
    PointsAreConserved(t);
    PartOfMeldTotal(t, q, |t.players|);
    PartOfMeldTotal(t, q + 1, |t.players|);
    SeatTotals(t, |t.players|);
    LowNotNegative(HandCards(t.players[..|t.players|]));
    LowNotNegative(t.drawPile);
    LowNotNegative(t.discardPile);
    TotalLowAtLeastSize(KnockedCards(t));
  }

  /** What a card is worth in a meld at most, in full and above five. */
  function High(c: Card): int {
    Low(c) + 9 * AceCount(c)
  }

  function AboveFive(c: Card): int {
    if High(c) > 5 then High(c) - 5 else 0
  }

  lemma AboveFiveIs(k: Suit, r: Rank)
    ensures AboveFive(Card(k, r))
         == if (k == CLUBS && r == TWO) || (k == SPADES && r == QUEEN) then 45
            else if r == ACE || r >= TEN then 5
            else if r > 5 then r - 5
            else 0
  {
  }

  lemma AboveFivePart(k: Suit)
    ensures DeckSum(AboveFive, 13 * k) - DeckSum(AboveFive, 13 * k + 13)
         == 35 + (if k == CLUBS then 45 else 0) + (if k == SPADES then 40 else 0)
  {
    hide DeckSum, AboveFive;
    SuitSum(AboveFive, k);
    AboveFiveIs(k, 1); AboveFiveIs(k, 2); AboveFiveIs(k, 3); AboveFiveIs(k, 4); AboveFiveIs(k, 5);
    AboveFiveIs(k, 6); AboveFiveIs(k, 7); AboveFiveIs(k, 8); AboveFiveIs(k, 9); AboveFiveIs(k, 10);
    AboveFiveIs(k, 11); AboveFiveIs(k, 12); AboveFiveIs(k, 13);
  }

  lemma AboveFiveTotal()
    ensures Total(AboveFive, OrderedDeck()) == 225
  {
    hide AboveFive;
    DeckSumIsTotal(AboveFive, 0);
    assert OrderedDeck()[0..] == OrderedDeck();
    hide Total;
    AboveFivePart(0); AboveFivePart(1); AboveFivePart(2); AboveFivePart(3);
    assert DeckSum(AboveFive, 52) == 0;
    hide DeckSum;
  }

  lemma {:induction false} AboveFiveBounds(cards: seq<Card>)
    ensures Total(AboveFive, cards) >= 0
    ensures Total(Low, cards) + 9 * Total(AceCount, cards) <= 5 * |cards| + Total(AboveFive, cards)
  {
    hide Low, AceCount;
    if cards != [] {
      AboveFiveBounds(cards[1..]);
    }
  }

  /** So many cards are worth so much. */
  lemma {:induction false} FewCardsWorth(melds: seq<Meld>, q: int, rs: RuleSet)
    requires RoomRules(rs) && forall i :: 0 <= i < |melds| ==> ValidMeld(melds[i], rs.minMeldLen)
    ensures OwnedPoints(melds, q, rs) <= 5 * |OwnedCards(melds, q)| + Total(AboveFive, MeldCards(melds))
  {
    hide RoomRules, ValidMeld, MeldValue, Low, AceCount, AboveFive;
    if melds != [] {
      var init, m := melds[..|melds| - 1], melds[|melds| - 1];
      FewCardsWorth(init, q, rs);
      TotalAppend(AboveFive, MeldCards(init), m.cards);
      AboveFiveBounds(m.cards);
      MeldWorth(m, rs);
      AcesNotNegative(m.cards);
    }
  }

  /** A dark knocker's melds were all laid in one turn, and the others still have at least the
      eleven cards they were dealt. */
  lemma DarkMeldsBound(t: State, q: nat)
    requires Sound(t) && q < |t.players| && t.knocked.Some? && Fresh(t, q) && OthersKeep(t, q)
    ensures OwnedPoints(t.melds, q, t.rules) <= 425
  {
    FewOwned(t, q);
    hide Zones, Numbered, ValidMeld, HeadOK, ProducedOK, RoomRules, OwnedPoints, AboveFive, OwnedCards;
    hide Fresh, OthersKeep;
    FewCardsWorth(t.melds, q, t.rules);
    TotalAllIsDeck(AboveFive, t);
    AboveFiveTotal();
    AboveFiveBounds(HandCards(t.players));
    AboveFiveBounds(t.drawPile);
    AboveFiveBounds(t.discardPile);
    AboveFiveBounds(KnockedCards(t));
  }

  lemma FewOwned(t: State, q: nat)
    requires Sound(t) && q < |t.players| && t.knocked.Some? && Fresh(t, q) && OthersKeep(t, q)
    ensures |OwnedCards(t.melds, q)| <= 40
  {
    hide Conserved, TableOK, HeadOK, ProducedOK, RoomRules, Fresh, OwnedCards;
    var n := |t.players|;
    assert n == 2 || n == 3 || n == 4;
  }

  /** The most a seat can score in a round, by how it ended. */
  function MostPoints(t: State, q: int): int {
    if t.knocker != q then 514
    else if t.knockSuit then (if t.knockDark then 442 else 342)
    else if t.knockDark then 625
    else 613
  }

  /** No seat's round total exceeds these bounds, in any state of any run; so none exceeds
      625. */
  lemma RoundTotalBound(s: State, attempts: seq<Attempt>, q: nat)
    requires Initial(s) && Shaped(s)
    requires q < |Play(s, attempts).players|
    ensures ScoreOf(Play(s, attempts), q).total <= MostPoints(Play(s, attempts), q) <= 625
  {
    hide Initial, Zones, Numbered, ValidMeld, HeadOK, ProducedOK, Low, RoomRules, Apply, Charges;
    hide OwnedPoints, HandValue, KnockBonusOf, KnockSuitBoard, OwnedCards, OthersKeep;
    var t := Play(s, attempts);
    RunIsSound(s, attempts);
    RunAttribution(s, attempts);
    KnockIsRecorded(s, attempts);
    ChargedAtLeastZero(t.rules, Charges(Log(s, attempts), q));
    TableBound(t, q);
    HandWorth(t.players[q].hand, t.rules);
    KnockBonusBound(t);
    BonusRules(t.rules);
    if t.knocker == q {
      if t.knockSuit {
        SuitKnockBound(t);
      } else if t.knockDark {
        DarkKnockerIsFresh(s, attempts);
        OthersKeepTheirs(s, attempts, q);
        DarkMeldsBound(t, q);
      }
    }
  }

  lemma BonusRules(rs: RuleSet)
    requires RoomRules(rs)
    ensures rs.headCardBonus == 50 && rs.knockCardBonus == 50
  {
  }

  lemma ChargedAtLeastZero(rs: RuleSet, n: nat)
    requires RoomRules(rs)
    ensures rs.dumpPenalty * n >= 0
  {
  }
}
