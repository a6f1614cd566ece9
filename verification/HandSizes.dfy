/** How long hands get in a run, and how many cards can come a seat's way. */
module HandSizes {
  import opened Bags
  import opened Cards
  import opened Melds
  import opened LayOff
  import opened Solver
  import opened Deck
  import opened Rules
  import opened Runs
  import opened Conservation
  import opened Invariants
  import opened Steps
  import opened History
  import opened Termination
  import opened Grammar

  // ----- what an accepted action does to the lengths -----------------------------------

  /** By how much an accepted action lengthens the hand of its player. */
  function HandGain(s: State, a: Action): int
    requires s.turn < |s.players|
  {
    match a
    case DrawDeck => if s.drawPile == [] then 0 else 1
    case DrawDiscard(target, support, onto) =>
      |s.discardPile| - 1 - TargetIndex(s.discardPile, target) - if onto.Some? then 0 else |support|
    case LayMeld(cards) => -|cards|
    case LayOffCards(_, cards) => -|cards|
    case Knock(_, _) => -1
    case AutoKnock => -|s.players[s.turn].hand|
    case Discard(_) => -1
  }

  /** How many cards an action puts on the table. */
  function Laid(a: Action): nat {
    match a
    case DrawDiscard(_, support, onto) => if onto.Some? then 1 else |support| + 1
    case LayMeld(cards) => |cards|
    case LayOffCards(_, cards) => |cards|
    case _ => 0
  }

  /** Player p's hand changes by the given length, and nobody else's changes. */
  ghost predicate HandsMove(s: State, t: State, p: int, gain: int) {
    && 0 <= p < |s.players| == |t.players|
    && |t.players[p].hand| == |s.players[p].hand| + gain
    && forall q :: 0 <= q < |s.players| && q != p ==> t.players[q].hand == s.players[q].hand
  }

  /** The two piles and the knocked card. */
  ghost predicate PilesMove(s: State, t: State, a: Action) {
    && |t.drawPile| == |s.drawPile| - (if a.DrawDeck? && s.drawPile != [] then 1 else 0)
    && |t.discardPile| == (match a
                           case DrawDiscard(target, _, _) => TargetIndex(s.discardPile, target)
                           case Discard(_) => |s.discardPile| + 1
                           case _ => |s.discardPile|)
    && (t.knocked.Some? <==> s.knocked.Some? || a.Knock?)
  }

  lemma RemovedLength(hand: seq<Card>, cards: seq<Card>)
    requires HandContains(hand, cards)
    ensures |Removed(hand, cards)| == |hand| - |cards|
  {
    RemovedBag(hand, cards);
    SeqBagSize(hand);
    SeqBagSize(cards);
    SeqBagSize(Removed(hand, cards));
  }

  /** What a pick-up leaves over exceeds what it takes from the hand by the cards above the
      target less the supporting cards. */
  lemma ClaimsLength(support: seq<Card>, above: seq<Card>)
    ensures |Extras(support, above)| - |FromHand(support, above)| == |above| - |support|
  {
    ClaimsSplit(support, above);
    SeqBagSize(support);
    SeqBagSize(above);
    SeqBagSize(Extras(support, above));
    SeqBagSize(FromHand(support, above));
    assert |multiset(support) + multiset(Extras(support, above))|
        == |multiset(FromHand(support, above)) + multiset(above)|;
  }

  lemma PickUpMeldLengths(s: State, p: int, a: Action)
    requires Shaped(s) && a.DrawDiscard? && a.onto.None? && Apply(s, p, a).Accepted?
    ensures var t := Apply(s, p, a).state;
            HandsMove(s, t, p, HandGain(s, a)) && PilesMove(s, t, a)
  {
    hide MakeMeld, Removed, HandContains, FromHand, Extras, Charged, TargetIndex;
    var ti := TargetIndex(s.discardPile, a.target);
    var above, hand := s.discardPile[ti + 1..], s.players[p].hand;
    var extras, fromHand := Extras(a.support, above), FromHand(a.support, above);
    ClaimsLength(a.support, above);
    HeldAlsoWithMore(hand, extras, fromHand);
    RemovedLength(hand + extras, fromHand);
  }

  lemma PickUpOntoLengths(s: State, p: int, a: Action)
    requires Shaped(s) && a.DrawDiscard? && a.onto.Some? && Apply(s, p, a).Accepted?
    ensures var t := Apply(s, p, a).state;
            HandsMove(s, t, p, HandGain(s, a)) && PilesMove(s, t, a)
  {
    hide LaidOff, Charged, TargetIndex, FindMeld;
  }

  lemma MeldLengths(s: State, p: int, a: Action)
    requires Shaped(s) && a.LayMeld? && Apply(s, p, a).Accepted?
    ensures var t := Apply(s, p, a).state;
            HandsMove(s, t, p, HandGain(s, a)) && PilesMove(s, t, a)
  {
    hide MakeMeld, Removed, HandContains;
    RemovedLength(s.players[p].hand, a.cards);
  }

  lemma LayOffLengths(s: State, p: int, a: Action)
    requires Shaped(s) && a.LayOffCards? && Apply(s, p, a).Accepted?
    ensures var t := Apply(s, p, a).state;
            HandsMove(s, t, p, HandGain(s, a)) && PilesMove(s, t, a)
  {
    hide LaidOff, Removed, HandContains, FindMeld;
    RemovedLength(s.players[p].hand, a.cards);
  }

  lemma KnockLengths(s: State, p: int, a: Action)
    requires Shaped(s) && a.Knock? && Apply(s, p, a).Accepted?
    ensures var t := Apply(s, p, a).state;
            HandsMove(s, t, p, HandGain(s, a)) && PilesMove(s, t, a)
  {
    hide Removed, KnockSuitBoard;
    RemovedLength(s.players[p].hand, [a.card]);
  }

  lemma DiscardLengths(s: State, p: int, a: Action)
    requires Shaped(s) && a.Discard? && Apply(s, p, a).Accepted?
    ensures var t := Apply(s, p, a).state;
            HandsMove(s, t, p, HandGain(s, a)) && PilesMove(s, t, a)
  {
    hide Removed, DumpCharged, HandContains;
    DumpCharges(s, p, a.card);
    RemovedLength(s.players[p].hand, [a.card]);
  }

  lemma DrawLengths(s: State, p: int)
    requires Shaped(s) && Apply(s, p, DrawDeck).Accepted?
    ensures var t := Apply(s, p, DrawDeck).state;
            HandsMove(s, t, p, HandGain(s, DrawDeck)) && PilesMove(s, t, DrawDeck)
  {
  }

  lemma SimpleLengths(s: State, p: int, a: Action)
    requires Shaped(s) && !a.AutoKnock? && Apply(s, p, a).Accepted?
    ensures var t := Apply(s, p, a).state;
            HandsMove(s, t, p, HandGain(s, a)) && PilesMove(s, t, a)
  {
    hide Apply, HandsMove, PilesMove, HandGain;
    match a
    case DrawDeck => DrawLengths(s, p);
    case DrawDiscard(_, _, Some(_)) => PickUpOntoLengths(s, p, a);
    case DrawDiscard(_, _, None) => PickUpMeldLengths(s, p, a);
    case LayMeld(_) => MeldLengths(s, p, a);
    case LayOffCards(_, _) => LayOffLengths(s, p, a);
    case Knock(_, _) => KnockLengths(s, p, a);
    case Discard(_) => DiscardLengths(s, p, a);
  }

  lemma {:induction false} OthersKeepHands(s: State, p: int, acts: seq<Action>)
    requires Sound(s) && 0 <= p < |s.players| && RunAll(s, p, acts).Some?
    requires forall i :: 0 <= i < |acts| ==> !acts[i].AutoKnock?
    ensures var t := RunAll(s, p, acts).value;
            && |t.players| == |s.players|
            && forall q :: 0 <= q < |s.players| && q != p ==> t.players[q].hand == s.players[q].hand
    decreases |acts|
  {
    hide Apply, Sound, HandGain, PilesMove;
    if acts != [] {
      SoundIsShaped(s);
      SimpleLengths(s, p, acts[0]);
      SimpleActionKeepsSound(s, p, acts[0]);
      OthersKeepHands(Apply(s, p, acts[0]).state, p, acts[1..]);
    }
  }

  /** By how much every accepted action changes the hand of its player; no other hand changes. */
  lemma HandLengths(s: State, p: int, a: Action)
    requires Sound(s) && Apply(s, p, a).Accepted?
    ensures p == s.turn && HandsMove(s, Apply(s, p, a).state, p, HandGain(s, a))
  {
    hide Apply, Sound, Numbered, Solve, PilesMove;
    SoundIsShaped(s);
    AcceptedTurn(s, p, a);
    if a.AutoKnock? {
      var acts := AutoKnockIsRun(s, p);
      OthersKeepHands(s, p, acts);
      AutoKnockEmpties(s, p);
    } else {
      SimpleLengths(s, p, a);
    }
  }

  lemma NotKnockedYet(s: State)
    requires Sound(s) && !s.roundOver
    ensures s.knocked.None? && !s.knockDark
  {
  }

  lemma SeatAtTurn(s: State, p: int)
    requires Melding(s, p)
    ensures 0 <= p < |s.players| && !s.roundOver
  {
  }

  lemma AutoKnockEmpties(s: State, p: int)
    requires Sound(s) && Apply(s, p, AutoKnock).Accepted?
    ensures 0 <= p < |Apply(s, p, AutoKnock).state.players|
    ensures Apply(s, p, AutoKnock).state.players[p].hand == []
  {
    hide Apply, Sound, Solve, Numbered, Melding;
    SoundIsNumbered(s);
    AutoKnockHasPlan(s, p);
    SeatAtTurn(s, p);
    SeatsStay(s, p, AutoKnock);
    NotKnockedYet(s);
    ReplayNeverFails(s, p);
  }

  lemma AutoKnockHasPlan(s: State, p: int)
    requires Shaped(s) && Apply(s, p, AutoKnock).Accepted?
    ensures Melding(s, p) && Solve(s.players[p].hand, s.melds, s.rules.minMeldLen).Some?
  {
    hide Solve, Replay;
  }

  /** An action that can make a hand longer than it was dealt: a pick-up with more cards above
      its target than supporting cards. */
  predicate DeepPickUp(s: State, a: Action)
    requires s.turn < |s.players|
  {
    a.DrawDiscard? && HandGain(s, a) > 0
  }

  /** A hand grows exactly by a draw from the deck that is not empty, or a deep pick-up. */
  lemma HandGrowsIff(s: State, p: int, a: Action)
    requires Sound(s) && Apply(s, p, a).Accepted?
    ensures var t := Apply(s, p, a).state;
            && p == s.turn < |t.players| == |s.players|
            && (|t.players[p].hand| > |s.players[p].hand|
                <==> (a.DrawDeck? && s.drawPile != []) || DeepPickUp(s, a))
  {
    hide Apply, Sound;
    HandLengths(s, p, a);
  }

  // ----- hands without deep pick-ups ---------------------------------------------------

  /** No hand is longer than it was dealt, but for one card during its player's turn. */
  predicate HandsAsDealt(s: State) {
    forall q :: 0 <= q < |s.players| ==>
      |s.players[q].hand|
      <= HandSize(|s.players|) + if s.phase == PhaseMeld && q == s.turn then 1 else 0
  }

  lemma HandsStep(s: State, p: int, a: Action)
    requires Sound(s) && Apply(s, p, a).Accepted? && HandsAsDealt(s)
    requires s.turn < |s.players| && !DeepPickUp(s, a)
    ensures HandsAsDealt(Apply(s, p, a).state)
  {
    var t := Apply(s, p, a).state;
    PhaseAfter(s, p, a);
    hide Apply, Sound, HandSize;
    HandLengths(s, p, a);
  }

  lemma PhaseAfter(s: State, p: int, a: Action)
    requires Sound(s) && Apply(s, p, a).Accepted?
    ensures var t := Apply(s, p, a).state;
            && p == s.turn && IsDraw(a) == (s.phase == PhaseDraw) && !s.roundOver
            && (s.phase == PhaseDraw || s.phase == PhaseMeld)
            && t.turn == (if a.Discard? then (s.turn + 1) % |s.players| else s.turn)
            && (t.phase == PhaseMeld <==> !a.Discard? && !Ends(Entry(s, p, a)))
            && (t.roundOver <==> Ends(Entry(s, p, a)))
            && |t.players| == |s.players| && t.rules == s.rules
  {
    hide Apply, Conserved, TableOK, HeadOK, ProducedOK, RoomRules;
    AcceptedTurn(s, p, a);
    ActionKeepsSound(s, p, a);
    SeatsStay(s, p, a);
  }

  predicate NoDeepPickUps(h: seq<Entry>) {
    forall i :: 0 <= i < |h| ==>
      h[i].before.turn < |h[i].before.players| && !DeepPickUp(h[i].before, h[i].action)
  }

  /** What a deal leaves where. */
  ghost predicate FreshlyDealt(s: State) {
    var n := |s.players|;
    var h := HandSize(n);
    && 2 <= n <= 4 && |s.drawPile| == 51 - n * h && |s.discardPile| == 1
    && s.melds == [] && s.knocked.None? && s.phase == PhaseDraw
    && forall q :: 0 <= q < n ==> |s.players[q].hand| == h
  }

  lemma DealtSizes(ids: seq<string>, rs: RuleSet, seed: int, deck: seq<Card>)
    requires 2 <= |ids| <= 4 && |deck| == 52
    ensures FreshlyDealt(Dealt(ids, rs, seed, deck))
  {
    hide Hands;
    HandsFlatten(deck, |ids|, HandSize(|ids|));
  }

  lemma InitialSizes(s: State)
    requires Initial(s)
    ensures FreshlyDealt(s)
  {
    hide FisherYates, RoomRules, OrderedDeck, Dealt, FreshlyDealt;
    var ids: seq<string>, rs: RuleSet, seed: int, draws: seq<nat> :|
      2 <= |ids| <= 4 && RoomRules(rs) && Draws(draws, 52) && s == Shuffled(ids, rs, seed, draws);
    DeckIsDistinct();
    DealtSizes(ids, rs, seed, FisherYates(OrderedDeck(), draws, 52));
  }

  lemma DealtHands(s: State)
    requires Initial(s)
    ensures HandsAsDealt(s)
  {
    hide Initial, HandSize;
    InitialSizes(s);
  }

  lemma SameHands(s: State, t: State)
    requires HandsAsDealt(s) && t == s.(nextMeldSeq := t.nextMeldSeq)
    ensures HandsAsDealt(t)
  {
  }

  /** In a run without deep pick-ups no hand is longer than it was dealt, but for one card during
      its player's turn; so none has more than twelve. */
  lemma {:induction false} HandsStaySmall(s: State, attempts: seq<Attempt>)
    requires Initial(s) && Shaped(s) && NoDeepPickUps(Log(s, attempts))
    ensures var t := Play(s, attempts);
            HandsAsDealt(t) && forall q :: 0 <= q < |t.players| ==> |t.players[q].hand| <= 12
  {
    hide Apply, Sound, DeepPickUp, Initial;
    if attempts == [] {
      DealtHands(s);
    } else {
      var n := |attempts| - 1;
      var before := Play(s, attempts[..n]);
      var p, a := attempts[n].player, attempts[n].action;
      RunIsSound(s, attempts[..n]);
      var h := Log(s, attempts[..n]);
      if Apply(before, p, a).Accepted? {
        assert Log(s, attempts)[|h|] == Entry(before, p, a);
        assert forall i :: 0 <= i < |h| ==> h[i] == Log(s, attempts)[i];
        HandsStaySmall(s, attempts[..n]);
        HandsStep(before, p, a);
      } else {
        HandsStaySmall(s, attempts[..n]);
        RejectionUndoesNothing(before, p, a);
        SameHands(before, Apply(before, p, a).state);
      }
    }
  }

  // ----- cards that can come a seat's way ----------------------------------------------

  function OwnedCards(melds: seq<Meld>, p: int): seq<Card> {
    if melds == [] then []
    else
      var m := melds[|melds| - 1];
      OwnedCards(melds[..|melds| - 1], p) + if m.owner == p then m.cards else []
  }

  lemma OwnedWithMeld(melds: seq<Meld>, m: Meld, p: int)
    ensures OwnedCards(melds + [m], p) == OwnedCards(melds, p) + if m.owner == p then m.cards else []
  {
    assert (melds + [m])[..|melds|] == melds;
  }

  lemma {:induction false} OwnedWithLayOff(melds: seq<Meld>, i: nat, u: Meld, p: int)
    requires i < |melds| && u.owner == melds[i].owner && |u.cards| >= |melds[i].cards|
    ensures |OwnedCards(melds[i := u], p)| <= |OwnedCards(melds, p)| + |u.cards| - |melds[i].cards|
    decreases |melds|
  {
    var n, after := |melds| - 1, melds[i := u];
    if i < n {
      assert after[..n] == melds[..n][i := u];
      OwnedWithLayOff(melds[..n], i, u, p);
    } else {
      assert after[..n] == melds[..n];
    }
  }

  lemma {:induction false} OwnsNoCards(melds: seq<Meld>, p: int)
    requires !Owns(melds, p)
    ensures OwnedCards(melds, p) == []
  {
    if melds != [] {
      var n := |melds| - 1;
      if Owns(melds[..n], p) {
        OwnsStill(melds, n, p);
      }
      OwnsNoCards(melds[..n], p);
    }
  }

  lemma OwnsStill(melds: seq<Meld>, n: nat, p: int)
    requires n <= |melds| && Owns(melds[..n], p)
    ensures Owns(melds, p)
  {
    var i :| 0 <= i < n && melds[..n][i].owner == p;
    assert melds[i].owner == p;
  }

  /** What an action of player p does to the cards in each seat's melds. */
  ghost predicate TableMoves(s: State, t: State, p: int, a: Action) {
    && |OwnedCards(t.melds, p)| <= |OwnedCards(s.melds, p)| + Laid(a)
    && (forall q :: Owns(s.melds, q) ==> Owns(t.melds, q))
    && forall q :: q != p && Owns(t.melds, q) ==> Owns(s.melds, q)
  }

  lemma MeldMovesTable(s: State, t: State, p: int, a: Action, m: Meld)
    requires t.melds == s.melds + [m] && m.owner == p && |m.cards| == Laid(a)
    ensures TableMoves(s, t, p, a)
  {
    OwnedWithMeld(s.melds, m, p);
    forall q | Owns(s.melds, q) ensures Owns(t.melds, q) {
      var i :| 0 <= i < |s.melds| && s.melds[i].owner == q;
      assert t.melds[i].owner == q;
    }
    forall q | q != p && Owns(t.melds, q) ensures Owns(s.melds, q) {
      var i :| 0 <= i < |t.melds| && t.melds[i].owner == q;
      assert s.melds[i].owner == q;
    }
  }

  lemma LayOffMovesTable(s: State, t: State, p: int, a: Action, mi: nat, u: Meld)
    requires mi < |s.melds| && t.melds == s.melds[mi := u] && u.owner == s.melds[mi].owner
    requires |u.cards| == |s.melds[mi].cards| + Laid(a)
    ensures TableMoves(s, t, p, a)
  {
    OwnedWithLayOff(s.melds, mi, u, p);
    forall q ensures Owns(t.melds, q) == Owns(s.melds, q) {
      assert forall i :: 0 <= i < |s.melds| ==> t.melds[i].owner == s.melds[i].owner;
    }
  }

  lemma LayingMovesTable(s: State, p: int, a: Action)
    requires Shaped(s) && (a.LayMeld? || a.LayOffCards?) && Apply(s, p, a).Accepted?
    ensures TableMoves(s, Apply(s, p, a).state, p, a)
  {
    hide MakeMeld, LaidOff, Removed, HandContains, Classify, TableMoves, FindMeld;
    var t, minLen := Apply(s, p, a).state, s.rules.minMeldLen;
    if a.LayMeld? {
      MadeMeldIsValid(s.nextMeldSeq + 1, a.cards, p, minLen);
      MeldMovesTable(s, t, p, a, MakeMeld(s.nextMeldSeq + 1, a.cards, p, minLen).value);
    } else {
      var mi := FindMeld(s.melds, a.meldID);
      LaidOffIsValid(s.melds[mi], a.cards, minLen);
      LayOffMovesTable(s, t, p, a, mi, LaidOff(s.melds[mi], a.cards, minLen).value);
    }
  }

  lemma PickUpMovesTable(s: State, p: int, a: Action)
    requires Shaped(s) && a.DrawDiscard? && Apply(s, p, a).Accepted?
    ensures TableMoves(s, Apply(s, p, a).state, p, a)
  {
    hide MakeMeld, LaidOff, Removed, HandContains, FromHand, Extras, Charged, TargetIndex, Classify;
    hide TableMoves, FindMeld;
    var t, minLen := Apply(s, p, a).state, s.rules.minMeldLen;
    var target := s.discardPile[TargetIndex(s.discardPile, a.target)];
    if a.onto.None? {
      MadeMeldIsValid(s.nextMeldSeq + 1, a.support + [target], p, minLen);
      MeldMovesTable(s, t, p, a, MakeMeld(s.nextMeldSeq + 1, a.support + [target], p, minLen).value);
    } else {
      var mi := FindMeld(s.melds, a.onto.value);
      LaidOffIsValid(s.melds[mi], [target], minLen);
      LayOffMovesTable(s, t, p, a, mi, LaidOff(s.melds[mi], [target], minLen).value);
    }
  }

  lemma SameTableMoves(s: State, t: State, p: int, a: Action)
    requires t.melds == s.melds
    ensures TableMoves(s, t, p, a)
  {
  }

  lemma OtherKeepsTable(s: State, p: int, a: Action)
    requires Shaped(s) && (a.DrawDeck? || a.Knock? || a.Discard?) && Apply(s, p, a).Accepted?
    ensures TableMoves(s, Apply(s, p, a).state, p, a)
  {
    hide Removed, HandContains, LayableOnAny, KnockSuitBoard, TableMoves;
    SameTableMoves(s, Apply(s, p, a).state, p, a);
  }

  lemma SimpleTableMoves(s: State, p: int, a: Action)
    requires Shaped(s) && !a.AutoKnock? && Apply(s, p, a).Accepted?
    ensures TableMoves(s, Apply(s, p, a).state, p, a)
  {
    hide Apply, TableMoves;
    if a.LayMeld? || a.LayOffCards? {
      LayingMovesTable(s, p, a);
    } else if a.DrawDiscard? {
      PickUpMovesTable(s, p, a);
    } else {
      OtherKeepsTable(s, p, a);
    }
  }

  /** A seat without melds when its turn began, or without melds at all while others play. */
  predicate Fresh(s: State, p: nat)
    requires p < |s.players|
  {
    !Owns(s.melds, p) || (s.turn == p && !s.players[p].producedAtTurnStart)
  }

  /** The cards a seat holds, has melded or may still draw or pick up, and the knocked card. */
  function Within(s: State, p: nat): nat
    requires p < |s.players|
  {
    |s.players[p].hand| + |s.drawPile| + |s.discardPile| + |OwnedCards(s.melds, p)|
    + if s.knocked.Some? then 1 else 0
  }

  /** What all seats but one of n are dealt. */
  function Share(n: nat): int {
    (n - 1) * HandSize(n)
  }

  /** The other seats keep what they were dealt from a fresh seat, and one card more between
      their draw and their discard. */
  ghost predicate OthersKeep(s: State, p: nat) {
    p < |s.players| && Fresh(s, p) ==>
      Within(s, p) + Share(|s.players|)
      + (if s.phase == PhaseMeld && s.turn != p then 1 else 0) <= 52
  }

  /** The counting behind it, for seat q and an action of seat p. */
  lemma OthersCount(s: State, t: State, p: int, a: Action, q: nat, rest: int)
    requires p == s.turn < |s.players| && q < |s.players| == |t.players| && s.knocked.None?
    requires HandsMove(s, t, p, HandGain(s, a)) && PilesMove(s, t, a) && TableMoves(s, t, p, a)
    requires !a.AutoKnock? && IsDraw(a) == (s.phase == PhaseDraw)
    requires s.phase == PhaseDraw || s.phase == PhaseMeld
    requires t.phase == PhaseMeld ==> !a.Discard? && !a.Knock? && t.turn == p
    requires t.phase == PhaseMeld && a.DrawDeck? ==> s.drawPile != []
    requires q != p ==> OwnedCards(s.melds, q) == [] && OwnedCards(t.melds, q) == []
    requires Within(s, q) + rest + (if s.phase == PhaseMeld && s.turn != q then 1 else 0) <= 52
    ensures Within(t, q) + rest + (if t.phase == PhaseMeld && t.turn != q then 1 else 0) <= 52
  {
    hide OwnedCards, Owns, TargetIndex;
    match a
    case DrawDeck =>
    case DrawDiscard(_, _, _) =>
    case LayMeld(_) =>
    case LayOffCards(_, _) =>
    case Knock(_, _) =>
    case Discard(_) =>
  }

  lemma TurnFlagKept(s: State, p: int, a: Action)
    requires Sound(s) && !a.AutoKnock? && !a.Discard? && Apply(s, p, a).Accepted?
    ensures var t := Apply(s, p, a).state;
            && 0 <= p < |s.players| == |t.players|
            && t.players[p].producedAtTurnStart == s.players[p].producedAtTurnStart
  {
    SoundIsOrderly(s);
    PhaseAfter(s, p, a);
    hide Apply, Sound, Charged;
    match a
    case DrawDeck => DrawDeckEffect(s, p);
    case DrawDiscard(_, _, _) => PickUpEffect(s, p, a);
    case LayMeld(_) => LayingIsQuiet(s, p, a);
    case LayOffCards(_, _) => LayingIsQuiet(s, p, a);
    case Knock(_, _) => KnockIsQuiet(s, p, a);
  }

  /** Whoever is fresh after an action was fresh before. */
  lemma FreshBefore(s: State, p: int, a: Action, q: nat)
    requires Sound(s) && !a.AutoKnock? && Apply(s, p, a).Accepted?
    requires q < |Apply(s, p, a).state.players| && Fresh(Apply(s, p, a).state, q)
    ensures var t := Apply(s, p, a).state;
            && q < |s.players| && Fresh(s, q)
            && (q != p ==> !Owns(s.melds, q) && !Owns(t.melds, q))
  {
    SoundIsShaped(s);
    PhaseAfter(s, p, a);
    SimpleTableMoves(s, p, a);
    ActionKeepsSound(s, p, a);
    SoundProduced(Apply(s, p, a).state);
    SoundIsOrderly(s);
    hide Apply, Sound, Owns, OwnedCards;
    if a.Discard? {
      DiscardEffect(s, p, a.card);
      TurnMoves(s);
    } else {
      TurnFlagKept(s, p, a);
    }
  }

  lemma SoundProduced(s: State)
    requires Sound(s)
    ensures forall p :: 0 <= p < |s.players| ==> s.players[p].produced == Owns(s.melds, p)
  {
    hide Orderly, Conserved, TableOK, HeadOK;
  }

  lemma TurnMoves(s: State)
    requires Orderly(s)
    ensures (s.turn + 1) % |s.players| != s.turn
  {
  }

  lemma OthersStep(s: State, p: int, a: Action, q: nat)
    requires Sound(s) && !a.AutoKnock? && Apply(s, p, a).Accepted? && OthersKeep(s, q)
    ensures OthersKeep(Apply(s, p, a).state, q)
  {
    hide Apply, Sound, Share, Fresh, Owns, OwnedCards, TargetIndex, Within, HandsMove, PilesMove;
    hide TableMoves, HandGain, IsDraw, Ends;
    SoundIsShaped(s);
    PhaseAfter(s, p, a);
    var t := Apply(s, p, a).state;
    if q < |t.players| && Fresh(t, q) {
      FreshBefore(s, p, a, q);
      NoOwnedCards(s, t, p, q);
      CountAfter(s, p, a, q);
    }
  }

  lemma NoOwnedCards(s: State, t: State, p: int, q: nat)
    requires q != p ==> !Owns(s.melds, q) && !Owns(t.melds, q)
    ensures q != p ==> OwnedCards(s.melds, q) == [] && OwnedCards(t.melds, q) == []
  {
    hide Owns;
    if q != p {
      OwnsNoCards(s.melds, q);
      OwnsNoCards(t.melds, q);
    }
  }

  lemma CountAfter(s: State, p: int, a: Action, q: nat)
    requires Sound(s) && !a.AutoKnock? && Apply(s, p, a).Accepted?
    requires q < |s.players| && q < |Apply(s, p, a).state.players|
    requires q != p ==> OwnedCards(s.melds, q) == []
    requires q != p ==> OwnedCards(Apply(s, p, a).state.melds, q) == []
    requires Within(s, q) + Share(|s.players|)
             + (if s.phase == PhaseMeld && s.turn != q then 1 else 0) <= 52
    ensures var t := Apply(s, p, a).state;
            Within(t, q) + Share(|t.players|)
            + (if t.phase == PhaseMeld && t.turn != q then 1 else 0) <= 52
  {
    hide Apply, Sound, Share, Within, HandsMove, PilesMove, TableMoves, HandGain, OwnedCards, Owns;
    SoundIsShaped(s);
    PhaseAfter(s, p, a);
    NotKnockedYet(s);
    SimpleLengths(s, p, a);
    SimpleTableMoves(s, p, a);
    OthersCount(s, Apply(s, p, a).state, p, a, q, Share(|s.players|));
  }

  lemma {:induction false} OthersRun(s: State, p: int, acts: seq<Action>, q: nat)
    requires Sound(s) && RunAll(s, p, acts).Some? && OthersKeep(s, q)
    requires forall i :: 0 <= i < |acts| ==> !acts[i].AutoKnock?
    ensures OthersKeep(RunAll(s, p, acts).value, q)
    decreases |acts|
  {
    hide Apply, Sound, OthersKeep;
    if acts != [] {
      SoundIsShaped(s);
      OthersStep(s, p, acts[0], q);
      SimpleActionKeepsSound(s, p, acts[0]);
      OthersRun(Apply(s, p, acts[0]).state, p, acts[1..], q);
    }
  }

  lemma DealtWithin(s: State, q: nat)
    requires Initial(s)
    ensures OthersKeep(s, q)
  {
    hide Initial;
    InitialSizes(s);
    if q < |s.players| {
      assert |s.players| == 2 || |s.players| == 3 || |s.players| == 4;
    }
  }

  lemma SameWithin(s: State, t: State, q: nat)
    requires OthersKeep(s, q) && t == s.(nextMeldSeq := t.nextMeldSeq)
    ensures OthersKeep(t, q)
  {
    hide Owns, OwnedCards;
  }

  /** Whatever is played, a seat that has melded nothing, or had melded nothing when its turn
      began, leaves the other seats at least as many cards as they were dealt. */
  lemma {:induction false} OthersKeepTheirs(s: State, attempts: seq<Attempt>, q: nat)
    requires Initial(s) && Shaped(s)
    ensures OthersKeep(Play(s, attempts), q)
  {
    hide Apply, Sound, OthersKeep, Initial;
    if attempts == [] {
      DealtWithin(s, q);
    } else {
      var n := |attempts| - 1;
      var before := Play(s, attempts[..n]);
      var p, a := attempts[n].player, attempts[n].action;
      OthersKeepTheirs(s, attempts[..n], q);
      RunIsSound(s, attempts[..n]);
      if Apply(before, p, a).Rejected? {
        RejectionUndoesNothing(before, p, a);
        SameWithin(before, Apply(before, p, a).state, q);
      } else if a.AutoKnock? {
        var acts := AutoKnockIsRun(before, p);
        OthersRun(before, p, acts, q);
      } else {
        OthersStep(before, p, a, q);
      }
    }
  }

  /** A dark knock is recorded only for the seat at turn, and that seat was fresh. */
  predicate DarkIsFresh(s: State) {
    s.knockDark ==>
      s.knocker == s.turn < |s.players| && !s.players[s.turn].producedAtTurnStart
  }

  lemma DarkStep(s: State, p: int, a: Action)
    requires Sound(s) && Apply(s, p, a).Accepted?
    ensures DarkIsFresh(Apply(s, p, a).state)
  {
    PhaseAfter(s, p, a);
    ActionKeepsSound(s, p, a);
    NotKnockedYet(s);
    SoundIsOrderly(s);
    hide Apply, Sound;
    match a
    case DrawDeck => DrawDeckEffect(s, p);
    case Knock(_, _) => KnockIsQuiet(s, p, a);
    case AutoKnock => AutoKnockEffect(s, p);
    case _ => NotKnockedYet(Apply(s, p, a).state);
  }

  lemma {:induction false} DarkKnockerIsFresh(s: State, attempts: seq<Attempt>)
    requires Initial(s) && Shaped(s)
    ensures DarkIsFresh(Play(s, attempts))
  {
    hide Apply, Sound, Initial;
    RunIsSound(s, attempts);
    if attempts == [] {
      NotOverYet(s);
    } else {
      var n := |attempts| - 1;
      var before := Play(s, attempts[..n]);
      var p, a := attempts[n].player, attempts[n].action;
      DarkKnockerIsFresh(s, attempts[..n]);
      RunIsSound(s, attempts[..n]);
      if Apply(before, p, a).Rejected? {
        RejectionUndoesNothing(before, p, a);
      } else {
        DarkStep(before, p, a);
      }
    }
  }

  lemma NotOverYet(s: State)
    requires Initial(s)
    ensures !s.knockDark
  {
    hide FisherYates, Hands, RoomRules, OrderedDeck;
  }
}
