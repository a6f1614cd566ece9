/** Every round ends: a measure drops with every accepted action. */
module Termination {
  import opened Bags
  import opened Cards
  import opened Melds
  import opened LayOff
  import opened Deck
  import opened Rules
  import opened Runs
  import opened Conservation
  import opened Invariants
  import opened Steps
  import opened History

  function PhaseWeight(ph: Phase): nat {
    match ph
    case PhaseDraw => 1
    case PhaseMeld => 2
    case _ => 0
  }

  /** Twice the cards still to be drawn or melded, and what is left of the turn. */
  function Measure(s: State): int {
    2 * (|s.drawPile| + 52 - |TableBag(s.melds)|) + PhaseWeight(s.phase)
  }

  lemma TableFits(s: State)
    requires Conserved(s)
    ensures |TableBag(s.melds)| <= 52 && Measure(s) >= 0
  {
    hide HandsBag, TableBag;
    DeckHasEachCardOnce();
    assert |Zones(s)| == 52;
  }

  lemma MeldGrowsTable(b: State, p: nat, m: Meld, hand: seq<Card>)
    requires p < |b.players|
    ensures var t := WithMeld(b, p, m, hand);
            && |TableBag(t.melds)| == |TableBag(b.melds)| + |m.cards|
            && t.drawPile == b.drawPile && t.phase == b.phase
  {
    hide TableBag;
    MeldsAppend(b.melds, m);
    SeqBagSize(m.cards);
  }

  lemma LayOffGrowsTable(b: State, p: nat, mi: nat, u: Meld, cards: seq<Card>, hand: seq<Card>)
    requires p < |b.players| && mi < |b.melds|
    requires multiset(u.cards) == multiset(b.melds[mi].cards) + multiset(cards)
    ensures var t := WithLayOff(b, p, mi, u, cards, hand);
            && |TableBag(t.melds)| == |TableBag(b.melds)| + |cards|
            && t.drawPile == b.drawPile && t.phase == b.phase
  {
    hide TableBag;
    MeldsUpdate(b.melds, mi, u);
    var t := WithLayOff(b, p, mi, u, cards, hand);
    assert |TableBag(t.melds) + multiset(b.melds[mi].cards)| == |TableBag(b.melds) + multiset(u.cards)|;
    SeqBagSize(cards);
  }

  lemma PickUpDrops(s: State, p: nat, ti: nat, support: seq<Card>, onto: Option<MeldId>)
    requires Shaped(s) && s.phase == PhaseDraw && p < |s.players| && ti < |s.discardPile|
    ensures var o := if onto.Some? then PickUpOnto(s, p, ti, onto.value)
                     else PickUpMeld(s, p, ti, support);
            o.Accepted? ==> Measure(o.state) < Measure(s)
  {
    hide TableBag, WithMeld, WithLayOff, LaidOff, MakeMeld, Removed, HandContains;
    var target := s.discardPile[ti];
    if onto.Some? {
      var mi := FindMeld(s.melds, onto.value);
      if PickUpOnto(s, p, ti, onto.value).Accepted? {
        LaidOffIsValid(s.melds[mi], [target], s.rules.minMeldLen);
        var u := LaidOff(s.melds[mi], [target], s.rules.minMeldLen).value;
        LayOffGrowsTable(PileTaken(s, p, ti), p, mi, u, [target],
                         s.players[p].hand + s.discardPile[ti + 1..]);
      }
    } else {
      var s' := s.(nextMeldSeq := s.nextMeldSeq + 1);
      if PickUpMeld(s, p, ti, support).Accepted? {
        MadeMeldIsValid(s'.nextMeldSeq, support + [target], p, s.rules.minMeldLen);
        var m := MakeMeld(s'.nextMeldSeq, support + [target], p, s.rules.minMeldLen).value;
        var above := s.discardPile[ti + 1..];
        MeldGrowsTable(PileTaken(s', p, ti), p, m,
                       Removed(s.players[p].hand + Extras(support, above), FromHand(support, above)));
      }
    }
  }

  lemma MeldDrops(s: State, p: nat, cards: seq<Card>)
    requires p < |s.players| && ApplyMeld(s, p, cards).Accepted? && s.rules.minMeldLen >= 1
    ensures Measure(ApplyMeld(s, p, cards).state) < Measure(s)
  {
    hide TableBag, WithMeld, MakeMeld, Removed, HandContains;
    var s' := s.(nextMeldSeq := s.nextMeldSeq + 1);
    MadeMeldIsValid(s'.nextMeldSeq, cards, p, s.rules.minMeldLen);
    var m := MakeMeld(s'.nextMeldSeq, cards, p, s.rules.minMeldLen).value;
    MeldGrowsTable(s', p, m, Removed(s.players[p].hand, cards));
  }

  lemma LayOffDrops(s: State, p: nat, id: MeldId, cards: seq<Card>)
    requires p < |s.players| && ApplyLayOff(s, p, id, cards).Accepted?
    ensures Measure(ApplyLayOff(s, p, id, cards).state) < Measure(s)
  {
    hide TableBag, WithLayOff, Removed, HandContains, Classify;
    var mi := FindMeld(s.melds, id);
    LaidOffIsValid(s.melds[mi], cards, s.rules.minMeldLen);
    var u := LaidOff(s.melds[mi], cards, s.rules.minMeldLen).value;
    LayOffGrowsTable(s, p, mi, u, cards, Removed(s.players[p].hand, cards));
  }

  lemma SimpleActionDrops(s: State, p: int, a: Action)
    requires Orderly(s) && !a.AutoKnock? && Apply(s, p, a).Accepted?
    ensures Measure(Apply(s, p, a).state) < Measure(s)
  {
    hide TableBag, PickUpOnto, PickUpMeld, ApplyMeld, ApplyLayOff, LayableOnAny, Removed, HandContains;
    match a
    case DrawDeck =>
    case DrawDiscard(target, support, onto) =>
      PickUpDrops(s, p, TargetIndex(s.discardPile, target), support, onto);
    case LayMeld(cards) => MeldDrops(s, p, cards);
    case LayOffCards(id, cards) => LayOffDrops(s, p, id, cards);
    case Knock(c, dark) =>
    case Discard(c) =>
  }

  lemma {:induction false} SimpleRunDrops(s: State, p: int, acts: seq<Action>)
    requires Sound(s) && RunAll(s, p, acts).Some?
    requires forall i :: 0 <= i < |acts| ==> !acts[i].AutoKnock?
    ensures Measure(RunAll(s, p, acts).value) + |acts| <= Measure(s)
    decreases |acts|
  {
    hide Apply, Conserved, TableOK, HeadOK, ProducedOK, Measure;
    if acts != [] {
      SimpleActionDrops(s, p, acts[0]);
      SimpleActionKeepsSound(s, p, acts[0]);
      SimpleRunDrops(Apply(s, p, acts[0]).state, p, acts[1..]);
    }
  }

  /** The measure drops with every accepted action. */
  lemma ActionDrops(s: State, p: int, a: Action)
    requires Sound(s) && Apply(s, p, a).Accepted?
    ensures Measure(Apply(s, p, a).state) < Measure(s)
  {
    hide Apply, Conserved, TableOK, HeadOK, ProducedOK, Measure;
    if a.AutoKnock? {
      var acts := AutoKnockIsRun(s, p);
      SimpleRunDrops(s, p, acts);
    } else {
      SimpleActionDrops(s, p, a);
    }
  }

  lemma {:induction false} LogIsBounded(s: State, attempts: seq<Attempt>)
    requires Initial(s) && Shaped(s)
    ensures Measure(Play(s, attempts)) + |Log(s, attempts)| <= Measure(s)
  {
    hide Apply, Conserved, TableOK, HeadOK, ProducedOK, Measure, Initial;
    if attempts != [] {
      var n := |attempts| - 1;
      var before := Play(s, attempts[..n]);
      LogIsBounded(s, attempts[..n]);
      RunIsSound(s, attempts[..n]);
      if Apply(before, attempts[n].player, attempts[n].action).Accepted? {
        ActionDrops(before, attempts[n].player, attempts[n].action);
      } else {
        RejectionUndoesNothing(before, attempts[n].player, attempts[n].action);
        SameMeasure(before, Apply(before, attempts[n].player, attempts[n].action).state);
      }
    }
  }

  lemma SameMeasure(s: State, t: State)
    requires t == s.(nextMeldSeq := t.nextMeldSeq)
    ensures Measure(t) == Measure(s)
  {
  }

  /** However it is played, a round accepts at most 163 actions with two players, 153 with
      three and 151 with four. */
  lemma RoundsTerminate(s: State, attempts: seq<Attempt>)
    requires Initial(s) && Shaped(s)
    ensures |Log(s, attempts)| <= match |s.players| case 2 => 163 case 3 => 153 case _ => 151
  {
    hide Apply, TableOK, HeadOK, ProducedOK, FisherYates, Hands, Measure;
    LogIsBounded(s, attempts);
    RunIsSound(s, attempts);
    TableFits(Play(s, attempts));
    StartMeasure(s);
  }

  lemma StartMeasure(s: State)
    requires Initial(s)
    ensures Measure(s) == match |s.players| case 2 => 163 case 3 => 153 case _ => 151
  {
    hide FisherYates, Hands, RoomRules;
  }

  // ----- progress ----------------------------------------------------------------------

  /** A running round in which nothing is accepted from anyone. */
  ghost predicate Stuck(s: State)
    requires Shaped(s)
  {
    !s.roundOver && forall p: int, a: Action :: Apply(s, p, a).Rejected?
  }

  predicate HandMelded(s: State)
    requires Shaped(s)
  {
    s.phase == PhaseMeld && s.players[s.turn].hand == []
  }

  /** A running round is stuck exactly when the player to move has melded the whole hand: in the
      meld phase with an empty hand nothing is accepted from anyone, and in every other state
      the player to move has an accepted action. */
  lemma StuckIffHandMelded(s: State)
    requires Sound(s) && !s.roundOver
    ensures Stuck(s) <==> HandMelded(s)
  {
    var p, hand := s.turn, s.players[s.turn].hand;
    if s.phase == PhaseDraw {
      assert Apply(s, p, DrawDeck).Accepted?;
    } else if hand != [] {
      DiscardAccepted(s, hand[0]);
    } else {
      forall q: int, a: Action ensures Apply(s, q, a).Rejected? {
        NothingFromEmptyHand(s, q, a);
      }
    }
  }

  /** A meld or lay-off leaves the round stuck exactly when it takes the whole hand. */
  lemma LayingSticksIffWholeHand(s: State, a: Action)
    requires Sound(s) && !s.roundOver && (a.LayMeld? || a.LayOffCards?)
    requires Apply(s, s.turn, a).Accepted?
    ensures Stuck(Apply(s, s.turn, a).state) <==> |a.cards| == |s.players[s.turn].hand|
  {
    hide Apply, Sound, Numbered, Stuck;
    SoundIsNumbered(s);
    LayingNeedsMeldPhase(s, a);
    AcceptedMove(s, s.turn, a);
    ActionKeepsSound(s, s.turn, a);
    var t := Apply(s, s.turn, a).state;
    StuckIffHandMelded(t);
    SeqBagSize(a.cards);
    SeqBagSize(s.players[s.turn].hand);
    SeqBagSize(t.players[s.turn].hand);
    assert |HandBag(t, s.turn) + multiset(a.cards)| == |HandBag(s, s.turn)|;
  }

  /** In the meld phase, laying the whole hand as one meld is accepted whenever it is one, and
      the round is then stuck. */
  lemma MeldingHandSticks(s: State)
    requires Sound(s) && Melding(s, s.turn)
    ensures var hand := s.players[s.turn].hand; var o := Apply(s, s.turn, LayMeld(hand));
            && (o.Accepted? <==> Classify(multiset(hand), s.rules.minMeldLen).Some?)
            && (o.Accepted? ==> Stuck(o.state))
  {
    hide Sound, Stuck, Classify, WithMeld;
    var a := LayMeld(s.players[s.turn].hand);
    if Apply(s, s.turn, a).Accepted? {
      LayingSticksIffWholeHand(s, a);
    }
  }

  lemma SoundIsNumbered(s: State)
    requires Sound(s)
    ensures Shaped(s) && Numbered(s)
  {
  }

  lemma LayingNeedsMeldPhase(s: State, a: Action)
    requires Shaped(s) && (a.LayMeld? || a.LayOffCards?) && Apply(s, s.turn, a).Accepted?
    ensures Melding(s, s.turn)
  {
  }

  lemma DiscardAccepted(s: State, c: Card)
    requires Melding(s, s.turn) && c in s.players[s.turn].hand
    ensures Apply(s, s.turn, Discard(c)).Accepted?
  {
    hide Discarded;
    assert c in multiset(s.players[s.turn].hand);
  }

  lemma NothingFromEmptyHand(s: State, p: int, a: Action)
    requires Orderly(s) && s.phase == PhaseMeld && s.players[s.turn].hand == []
    ensures Apply(s, p, a).Rejected?
  {
    hide WithMeld, WithLayOff, Discarded, WentOut, Replay;
    if p == s.turn {
      match a
      case LayMeld(cards) => HeldByEmpty(cards);
      case LayOffCards(_, cards) => HeldByEmpty(cards);
      case Discard(c) => HeldByEmpty([c]);
      case _ =>
    }
  }

  lemma HeldByEmpty(cards: seq<Card>)
    ensures HandContains([], cards) ==> cards == []
  {
    if cards != [] {
      assert cards[0] in multiset(cards);
    }
  }
}
