/** Every action keeps the invariant, so it holds in every state of every run. */
module Steps {
  import opened Bags
  import opened Cards
  import opened Melds
  import opened LayOff
  import opened Solver
  import opened Rules
  import opened Runs
  import opened Conservation
  import opened Invariants

  // ----- laying melds and lay-offs -----------------------------------------------------

  /** Either the head card is not among the cards, or they are what takes it off the pile. */
  ghost predicate HeadMoves(b: State, cards: seq<Card>) {
    || (HeadOK(b) && (b.headOwner == -1 ==> b.headCard !in cards))
    || (b.headOwner == -1 && b.headCard in cards
        && forall i :: 0 <= i < |b.discardedBy| ==> b.discardedBy[i] != -1)
  }

  lemma HeadWithMeld(b: State, p: nat, m: Meld, hand: seq<Card>)
    requires p < |b.players| && HeadMoves(b, m.cards) && m.owner == p
    ensures HeadOK(WithMeld(b, p, m, hand))
  {
    var t := WithMeld(b, p, m, hand);
    assert t.melds[|b.melds|] == m;
    if b.headOwner != -1 {
      var i :| 0 <= i < |b.melds| && b.headCard in b.melds[i].cards && b.melds[i].owner == b.headOwner;
      assert t.melds[i] == b.melds[i];
    }
  }

  lemma HeadWithLayOff(b: State, p: nat, mi: nat, u: Meld, cards: seq<Card>, hand: seq<Card>)
    requires p < |b.players| && mi < |b.melds| && HeadMoves(b, cards)
    requires u.owner == b.melds[mi].owner >= 0
    requires multiset(u.cards) == multiset(b.melds[mi].cards) + multiset(cards)
    ensures HeadOK(WithLayOff(b, p, mi, u, cards, hand))
  {
    var t, c := WithLayOff(b, p, mi, u, cards, hand), b.headCard;
    assert c in cards <==> c in multiset(cards);
    assert c in u.cards <==> c in multiset(u.cards);
    if b.headOwner != -1 {
      var i :| 0 <= i < |b.melds| && c in b.melds[i].cards && b.melds[i].owner == b.headOwner;
      assert c in multiset(b.melds[i].cards);
      assert c in t.melds[i].cards;
    } else if c in cards {
      assert c in t.melds[mi].cards;
    }
  }

  lemma TableWithMeld(s: State, b: State, p: nat, m: Meld, hand: seq<Card>)
    requires TableOK(s) && p < |s.players| == |b.players| && b.melds == s.melds && b.rules == s.rules
    requires m.id == s.nextMeldSeq + 1 == b.nextMeldSeq && m.owner == p
    requires ValidMeld(m, s.rules.minMeldLen)
    ensures TableOK(WithMeld(b, p, m, hand))
  {
    hide ValidMeld;
  }

  lemma TableWithLayOff(b: State, p: nat, mi: nat, u: Meld, cards: seq<Card>, hand: seq<Card>)
    requires TableOK(b) && p < |b.players| && mi < |b.melds|
    requires u.id == b.melds[mi].id && u.owner == b.melds[mi].owner
    requires ValidMeld(u, b.rules.minMeldLen)
    ensures TableOK(WithLayOff(b, p, mi, u, cards, hand))
  {
    hide ValidMeld;
  }

  lemma ProducedWithMeld(b: State, p: nat, m: Meld, hand: seq<Card>)
    requires ProducedOK(b) && p < |b.players| && m.owner == p
    ensures ProducedOK(WithMeld(b, p, m, hand))
  {
    var t := WithMeld(b, p, m, hand);
    assert t.melds[|b.melds|] == m;
    forall q | 0 <= q < |t.players| ensures t.players[q].produced == Owns(t.melds, q) {
      assert b.players[q].produced == Owns(b.melds, q);
      assert forall i :: 0 <= i < |b.melds| ==> t.melds[i] == b.melds[i];
    }
  }

  lemma ProducedWithLayOff(b: State, p: nat, mi: nat, u: Meld, cards: seq<Card>, hand: seq<Card>)
    requires ProducedOK(b) && p < |b.players| && mi < |b.melds| && u.owner == b.melds[mi].owner
    ensures ProducedOK(WithLayOff(b, p, mi, u, cards, hand))
  {
    var t := WithLayOff(b, p, mi, u, cards, hand);
    forall q | 0 <= q < |t.players| ensures t.players[q].produced == Owns(t.melds, q) {
      assert b.players[q].produced == Owns(b.melds, q);
      assert forall i :: 0 <= i < |b.melds| ==> t.melds[i].owner == b.melds[i].owner;
    }
  }

  /** The parts of the invariant that do not count cards. */
  ghost predicate Kept(s: State) {
    Orderly(s) && TableOK(s) && HeadOK(s) && ProducedOK(s)
  }

  lemma KeptWithMeld(s: State, b: State, p: nat, m: Meld, hand: seq<Card>)
    requires TableOK(s) && p < |s.players| == |b.players| && b.melds == s.melds && b.rules == s.rules
    requires m.id == s.nextMeldSeq + 1 == b.nextMeldSeq && m.owner == p
    requires ValidMeld(m, s.rules.minMeldLen)
    requires Orderly(b) && ProducedOK(b) && HeadMoves(b, m.cards)
    ensures Kept(WithMeld(b, p, m, hand))
  {
    TableWithMeld(s, b, p, m, hand);
    ProducedWithMeld(b, p, m, hand);
    HeadWithMeld(b, p, m, hand);
    hide TableOK, ProducedOK, HeadOK;
  }

  lemma KeptWithLayOff(b: State, p: nat, mi: nat, cards: seq<Card>, hand: seq<Card>)
    requires p < |b.players| && mi < |b.melds|
    requires LaidOff(b.melds[mi], cards, b.rules.minMeldLen).Some?
    requires Orderly(b) && TableOK(b) && ProducedOK(b) && HeadMoves(b, cards)
    ensures var u := LaidOff(b.melds[mi], cards, b.rules.minMeldLen).value;
            Kept(WithLayOff(b, p, mi, u, cards, hand))
  {
    hide LaidOff, ValidMeld;
    var u := LaidOff(b.melds[mi], cards, b.rules.minMeldLen).value;
    LaidOffIsValid(b.melds[mi], cards, b.rules.minMeldLen);
    TableWithLayOff(b, p, mi, u, cards, hand);
    ProducedWithLayOff(b, p, mi, u, cards, hand);
    assert b.melds[mi].owner >= 0;
    HeadWithLayOff(b, p, mi, u, cards, hand);
    hide TableOK, ProducedOK, HeadOK;
  }

  // ----- pick-ups ----------------------------------------------------------------------

  /** Taking the pile down to the target moves the head card only if it is the target. */
  lemma HeadPileTaken(s: State, p: nat, ti: nat, cards: seq<Card>)
    requires Sound(s) && p < |s.players| && ti < |s.discardPile|
    requires s.discardPile[ti] in cards
    requires forall c :: c in cards ==>
               c == s.discardPile[ti] || c in s.discardPile[ti + 1..] || c in s.players[p].hand
    ensures HeadMoves(PileTaken(s, p, ti), cards)
  {
    var t := PileTaken(s, p, ti);
    if s.headOwner == -1 {
      HeadStaysBelow(s, p);
      if ti > 0 {
        assert forall i :: ti < i < |s.discardPile| ==> s.discardPile[i] != s.headCard;
        assert s.headCard !in s.discardPile[ti + 1..];
      }
    }
  }

  lemma SoundFurther(s: State)
    requires Sound(s)
    ensures Sound(s.(nextMeldSeq := s.nextMeldSeq + 1))
  {
    var t := s.(nextMeldSeq := s.nextMeldSeq + 1);
    hide Orderly, Zones, TableOK, HeadOK, ProducedOK;
    ZonesSame(s, t);
    TableFurther(s);
    FurtherKeeps(s);
  }

  lemma TableFurther(s: State)
    requires TableOK(s)
    ensures TableOK(s.(nextMeldSeq := s.nextMeldSeq + 1))
  {
    hide ValidMeld;
  }

  lemma FurtherKeeps(s: State)
    requires Orderly(s) && HeadOK(s) && ProducedOK(s)
    ensures var t := s.(nextMeldSeq := s.nextMeldSeq + 1); Orderly(t) && HeadOK(t) && ProducedOK(t)
  {
    hide RoomRules, Owns;
  }

  lemma PileTakenKeeps(s: State, p: nat, ti: nat)
    requires Sound(s) && s.phase == PhaseDraw && ti < |s.discardPile|
    ensures var t := PileTaken(s, p, ti);
            Orderly(t) && TableOK(t) && ProducedOK(t) && t.melds == s.melds && t.players == s.players
            && t.rules == s.rules && t.nextMeldSeq == s.nextMeldSeq
  {
    hide Zones, ValidMeld, HeadOK, RoomRules;
  }

  lemma PickUpOntoKeeps(s: State, p: nat, ti: nat, id: MeldId)
    requires Sound(s) && s.phase == PhaseDraw && p < |s.players| && ti < |s.discardPile|
    ensures Kept(PickUpOnto(s, p, ti, id).state)
  {
    hide LaidOff, Zones, WithLayOff, PileTaken, TableOK, HeadOK, ProducedOK, Orderly, HeadMoves;
    SoundIsShaped(s);
    var mi, target := FindMeld(s.melds, id), s.discardPile[ti];
    if PickUpOnto(s, p, ti, id).Accepted? {
      HeadPileTaken(s, p, ti, [target]);
      PileTakenKeeps(s, p, ti);
      KeptWithLayOff(PileTaken(s, p, ti), p, mi, [target],
                     s.players[p].hand + s.discardPile[ti + 1..]);
    }
  }

  /** Cards needed from the hand are in the hand; the other supporting cards are in the pile. */
  lemma {:induction false} SupportComesFrom(support: seq<Card>, above: seq<Card>, c: Card)
    requires c in support
    ensures c in above || c in FromHand(support, above)
    decreases |support|
  {
    var less := RemoveFirst(above, support[0]);
    if c != support[0] {
      assert c in support[1..];
      if support[0] in above {
        SupportComesFrom(support[1..], less, c);
        RemoveFirstBag(above, support[0]);
        assert c in less ==> c in multiset(less);
        assert c in multiset(above) ==> c in above;
      } else {
        SupportComesFrom(support[1..], above, c);
      }
    }
  }

  lemma PickUpMeldKeeps(s: State, p: nat, ti: nat, support: seq<Card>)
    requires Sound(s) && s.phase == PhaseDraw && p < |s.players| && ti < |s.discardPile|
    ensures Kept(PickUpMeld(s, p, ti, support).state)
  {
    hide MakeMeld, Zones, WithMeld, PileTaken, TableOK, HeadOK, ProducedOK, Orderly, HeadMoves, ValidMeld;
    hide Removed, Extras, Conserved;
    var s' := s.(nextMeldSeq := s.nextMeldSeq + 1);
    SoundFurther(s);
    SoundIsShaped(s);
    var o := PickUpMeld(s, p, ti, support);
    if o.Accepted? {
      var target, above, hand := s.discardPile[ti], s.discardPile[ti + 1..], s.players[p].hand;
      var cards := support + [target];
      MadeMeldIsValid(s'.nextMeldSeq, cards, p, s.rules.minMeldLen);
      var m := MakeMeld(s'.nextMeldSeq, cards, p, s.rules.minMeldLen).value;
      forall c | c in m.cards ensures c == target || c in above || c in hand {
        assert c in multiset(cards);
        PickedFrom(support, above, hand, target, c);
      }
      assert target in multiset(cards);
      assert target in multiset(m.cards);
      HeadPileTaken(s', p, ti, m.cards);
      PileTakenKeeps(s', p, ti);
      KeptWithMeld(s, PileTaken(s', p, ti), p, m,
                   Removed(hand + Extras(support, above), FromHand(support, above)));
    }
  }

  lemma PickedFrom(support: seq<Card>, above: seq<Card>, hand: seq<Card>, target: Card, c: Card)
    requires c in support + [target] && HandContains(hand, FromHand(support, above))
    ensures c == target || c in above || c in hand
  {
    if c in support {
      SupportComesFrom(support, above, c);
      assert c in FromHand(support, above) ==> c in multiset(hand);
    }
  }

  // ----- the other actions -------------------------------------------------------------

  lemma DrawKeeps(s: State, p: nat)
    requires Sound(s) && s.phase == PhaseDraw && p < |s.players|
    ensures Kept(DrawFromDeck(s, p))
  {
    hide Zones, ValidMeld, RoomRules;
  }

  lemma NotFromHand(s: State, p: nat, cards: seq<Card>)
    requires Sound(s) && p < |s.players| && HandContains(s.players[p].hand, cards)
    ensures HeadMoves(s, cards)
  {
    hide Zones, TableOK;
    if s.headOwner == -1 {
      HeadStaysBelow(s, p);
      assert forall c :: c in cards <==> c in multiset(cards);
    }
  }

  lemma MeldKeeps(s: State, p: nat, cards: seq<Card>)
    requires Sound(s) && p < |s.players|
    ensures Kept(ApplyMeld(s, p, cards).state)
  {
    hide MakeMeld, Zones, WithMeld, TableOK, HeadOK, ProducedOK, Orderly, HeadMoves, ValidMeld;
    hide Removed, Conserved, HandContains;
    var s' := s.(nextMeldSeq := s.nextMeldSeq + 1);
    SoundFurther(s);
    if ApplyMeld(s, p, cards).Accepted? {
      MadeMeldIsValid(s'.nextMeldSeq, cards, p, s.rules.minMeldLen);
      var m := MakeMeld(s'.nextMeldSeq, cards, p, s.rules.minMeldLen).value;
      SameBagHeld(s.players[p].hand, cards, m.cards);
      NotFromHand(s', p, m.cards);
      KeptWithMeld(s, s', p, m, Removed(s.players[p].hand, cards));
    }
  }

  lemma SameBagHeld(hand: seq<Card>, cards: seq<Card>, same: seq<Card>)
    requires HandContains(hand, cards) && multiset(same) == multiset(cards)
    ensures HandContains(hand, same)
  {
  }

  lemma LayOffKeeps(s: State, p: nat, id: MeldId, cards: seq<Card>)
    requires Sound(s) && p < |s.players|
    ensures Kept(ApplyLayOff(s, p, id, cards).state)
  {
    hide LaidOff, Zones, WithLayOff, TableOK, HeadOK, ProducedOK, Orderly, HeadMoves;
    hide Removed, Conserved, HandContains;
    if ApplyLayOff(s, p, id, cards).Accepted? {
      NotFromHand(s, p, cards);
      KeptWithLayOff(s, p, FindMeld(s.melds, id), cards, Removed(s.players[p].hand, cards));
    }
  }

  lemma KnockKeeps(s: State, p: nat, c: Card, dark: bool)
    requires Sound(s) && p < |s.players|
    ensures Kept(ApplyKnock(s, p, c, dark).state)
  {
    hide Zones, ValidMeld, RoomRules, Removed, KnockSuitBoard, Conserved;
  }

  lemma DiscardKeeps(s: State, p: nat, c: Card)
    requires Sound(s) && s.phase == PhaseMeld && p < |s.players|
    ensures Kept(ApplyDiscard(s, p, c).state)
  {
    hide Zones, LaidOff, RoomRules, Removed, HandContains, LayableOnAny, TableOK, DumpCharged, TurnPassed;
    if HandContains(s.players[p].hand, [c]) {
      DumpKeeps(s, p, c);
      var t := WithHand(DumpCharged(s, p, c), p, Removed(s.players[p].hand, [c]));
      HandKeeps(DumpCharged(s, p, c), p, Removed(s.players[p].hand, [c]));
      PassKeeps(t, p, c);
    }
  }

  lemma DumpKeeps(s: State, p: nat, c: Card)
    requires Kept(s) && p < |s.players|
    ensures Kept(DumpCharged(s, p, c)) && DumpCharged(s, p, c).phase == s.phase
    ensures |DumpCharged(s, p, c).players| == |s.players|
  {
    hide ValidMeld, LayableOnAny, RoomRules;
  }

  lemma HandKeeps(s: State, p: nat, hand: seq<Card>)
    requires Kept(s) && p < |s.players|
    ensures Kept(WithHand(s, p, hand))
  {
    hide ValidMeld, RoomRules;
  }

  lemma PassKeeps(s: State, p: nat, c: Card)
    requires Kept(s) && p < |s.players| && s.phase == PhaseMeld
    ensures Kept(TurnPassed(s, p, c))
  {
    hide ValidMeld, RoomRules;
  }

  // ----- any action --------------------------------------------------------------------

  lemma SimpleActionKeepsSound(s: State, p: int, a: Action)
    requires Sound(s) && !a.AutoKnock?
    ensures Sound(Apply(s, p, a).state)
  {
    SimpleActionKeepsCards(s, p, a);
    SoundIsShaped(s);
    if !s.roundOver && p == s.turn {
      if s.phase == PhaseDraw {
        DrawActionKeeps(s, p, a);
      } else if s.phase == PhaseMeld {
        MeldActionKeeps(s, p, a);
      }
    }
    hide Zones, ApplyDraw, ApplyMeldPhase, Orderly, TableOK, HeadOK, ProducedOK;
  }

  lemma DrawActionKeeps(s: State, p: nat, a: Action)
    requires Sound(s) && s.phase == PhaseDraw && Shaped(s) && p < |s.players|
    ensures Kept(ApplyDraw(s, p, a).state)
  {
    hide Zones, DrawFromDeck, PickUpOnto, PickUpMeld, Kept;
    SoundIsKept(s);
    match a
    case DrawDeck => DrawKeeps(s, p);
    case DrawDiscard(target, support, onto) =>
      var ti := TargetIndex(s.discardPile, target);
      if ti >= 0 {
        if onto.Some? {
          PickUpOntoKeeps(s, p, ti, onto.value);
        } else {
          PickUpMeldKeeps(s, p, ti, support);
        }
      }
    case _ =>
  }

  lemma MeldActionKeeps(s: State, p: nat, a: Action)
    requires Sound(s) && s.phase == PhaseMeld && Shaped(s) && p < |s.players| && !a.AutoKnock?
    ensures Kept(ApplyMeldPhase(s, p, a).state)
  {
    hide Zones, ApplyMeld, ApplyLayOff, ApplyKnock, ApplyDiscard, Kept;
    SoundIsKept(s);
    match a
    case LayMeld(cards) => MeldKeeps(s, p, cards);
    case LayOffCards(id, cards) => LayOffKeeps(s, p, id, cards);
    case Knock(c, dark) => KnockKeeps(s, p, c, dark);
    case Discard(c) => DiscardKeeps(s, p, c);
    case _ =>
  }

  lemma SoundIsKept(s: State)
    requires Sound(s)
    ensures Kept(s)
  {
  }

  lemma {:induction false} SimpleRunKeepsSound(s: State, p: int, acts: seq<Action>)
    requires Sound(s) && RunAll(s, p, acts).Some?
    requires forall i :: 0 <= i < |acts| ==> !acts[i].AutoKnock?
    ensures Sound(RunAll(s, p, acts).value)
    decreases |acts|
  {
    hide Apply, Sound;
    if acts != [] {
      SoundIsShaped(s);
      SimpleActionKeepsSound(s, p, acts[0]);
      SimpleRunKeepsSound(Apply(s, p, acts[0]).state, p, acts[1..]);
    }
  }

  lemma SoundIsShaped(s: State)
    requires Sound(s)
    ensures Shaped(s)
  {
  }

  // ----- the auto-knock is a run of simple actions -------------------------------------

  lemma PlanIsSimple(plan: Plan)
    ensures forall i :: 0 <= i < |PlanActions(plan)| ==> !PlanActions(plan)[i].AutoKnock?
  {
    var m, l := MeldActions(plan.newMelds), StepActions(plan.layoffs);
    assert forall i :: 0 <= i < |m| ==> m[i] in m;
    assert forall i :: 0 <= i < |l| ==> l[i] in l;
  }

  /** An auto-knock is rejected without a trace, or plays out a sequence of melds and lay-offs
      and a knock that were all open to the player. */
  lemma AutoKnockIsRun(s: State, p: int) returns (acts: seq<Action>)
    requires Sound(s)
    ensures var o := Apply(s, p, AutoKnock);
            if o.Rejected? then o.state == s
            else Melding(s, p) && GoesOut(s, p, acts) && RunAll(s, p, acts) == Some(o.state)
                 && !acts[|acts| - 1].dark
                 && forall i :: 0 <= i < |acts| ==> !acts[i].AutoKnock?
  {
    hide Conserved, HeadOK, ProducedOK, Solve, Replay;
    acts := [];
    if Melding(s, p) && Solve(s.players[p].hand, s.melds, s.rules.minMeldLen).Some? {
      var plan := Solve(s.players[p].hand, s.melds, s.rules.minMeldLen).value;
      ReplayNeverFails(s, p);
      PlanIsSimple(plan);
      acts := PlanActions(plan);
    }
  }

  /** Every action, accepted or not, keeps the invariant. */
  lemma ActionKeepsSound(s: State, p: int, a: Action)
    requires Sound(s)
    ensures Sound(Apply(s, p, a).state)
  {
    hide Apply, Sound;
    if a.AutoKnock? {
      var acts := AutoKnockIsRun(s, p);
      if Apply(s, p, a).Accepted? {
        SimpleRunKeepsSound(s, p, acts);
      }
    } else {
      SimpleActionKeepsSound(s, p, a);
    }
  }

  /** A rejected action leaves the state as it was, except that a pick-up or a meld that was
      not a meld has used up a meld number. In particular an auto-knock that is rejected has
      moved no card. */
  lemma RejectionUndoesNothing(s: State, p: int, a: Action)
    requires Sound(s) && Apply(s, p, a).Rejected?
    ensures var t := Apply(s, p, a).state;
            && t == s.(nextMeldSeq := t.nextMeldSeq)
            && (t == s || (t.nextMeldSeq == s.nextMeldSeq + 1 && (a.DrawDiscard? || a.LayMeld?)))
  {
    hide MakeMeld, LaidOff, WithMeld, WithLayOff, PileTaken, Conserved, TableOK, HeadOK, ProducedOK;
    hide Replay, Solve, DrawFromDeck, Discarded, WentOut, Removed, HandContains, FindMeld, TargetIndex;
    hide FromHand, Extras, Orderly;
    SoundIsShaped(s);
    if a.AutoKnock? {
      var acts := AutoKnockIsRun(s, p);
    }
  }
}
