/** Why an action is rejected, what an accepted one does to the cards, and in which order the deck
    is drawn. */
module Outcomes {
  import opened Bags
  import opened Cards
  import opened Melds
  import opened LayOff
  import opened Solver
  import opened SolverProof
  import opened Rules
  import opened Runs
  import opened Invariants
  import opened Grammar
  import opened HandSizes
  import opened PickUps

  // ----- why an action is rejected -----------------------------------------------------

  predicate OnTable(s: State, id: MeldId) {
    exists i :: 0 <= i < |s.melds| && s.melds[i].id == id
  }

  ghost predicate FitsMeld(s: State, id: MeldId, cards: seq<Card>) {
    cards != [] && exists i :: 0 <= i < |s.melds| && s.melds[i].id == id
                               && FitsOn(s.melds[i], multiset(cards), s.rules.minMeldLen)
  }

  predicate Holds(s: State, p: nat, cards: seq<Card>)
    requires p < |s.players|
  {
    multiset(cards) <= multiset(s.players[p].hand)
  }

  /** The card reached for can be used. */
  ghost predicate Usable(s: State, p: nat, a: Action)
    requires p < |s.players| && a.DrawDiscard?
  {
    exists k: nat :: Reaches(s.discardPile, a.target, k) && CanUse(s, p, k, a.support, a.onto)
  }

  /** Some of the supporting cards are neither in the hand nor above the card reached for. */
  predicate SupportMissing(s: State, p: nat, a: Action)
    requires p < |s.players| && a.DrawDiscard?
  {
    exists k: nat :: k < |s.discardPile| && Reaches(s.discardPile, a.target, k)
      && !(multiset(a.support) <= multiset(s.players[p].hand) + multiset(s.discardPile[k + 1..]))
  }

  /** Why the player to draw may not pick up, if so. */
  ghost function WhyNoPickUp(s: State, p: nat, a: Action): Option<GameError>
    requires p < |s.players| && a.DrawDiscard?
  {
    if s.firstMove then Some(MustDrawDeck)
    else if s.discardPile == [] then Some(EmptyDiscard)
    else if a.target.Some? && a.target.value !in s.discardPile then Some(CardNotHeld)
    else if Usable(s, p, a) then None
    else
      match a.onto
      case Some(id) => Some(if OnTable(s, id) then PickupNeedsMeld else NoSuchMeld)
      case None =>
        Some(if |a.support| >= s.rules.minMeldLen - 1 && SupportMissing(s, p, a) then CardNotHeld
             else PickupNeedsMeld)
  }

  ghost function WhyNoMeld(s: State, p: nat, cards: seq<Card>): Option<GameError>
    requires p < |s.players|
  {
    if !Holds(s, p, cards) then Some(CardNotHeld)
    else if |cards| < s.rules.minMeldLen then Some(MeldTooShort)
    else if Classify(multiset(cards), s.rules.minMeldLen).None? then Some(MeldInvalid)
    else None
  }

  ghost function WhyNoLayOff(s: State, p: nat, id: MeldId, cards: seq<Card>): Option<GameError>
    requires p < |s.players|
  {
    if !OnTable(s, id) then Some(NoSuchMeld)
    else if !Holds(s, p, cards) then Some(CardNotHeld)
    else if !FitsMeld(s, id, cards) then Some(LayOffInvalid)
    else None
  }

  /** Why an action is rejected, or None when it is accepted, in terms of cards held, melds that
      cards fit, and going out by hand. */
  ghost function Reason(s: State, p: int, a: Action): Option<GameError>
    requires Shaped(s)
  {
    if s.roundOver then Some(RoundIsOver)
    else if p != s.turn then Some(NotYourTurn)
    else if IsDraw(a) != (s.phase == PhaseDraw) then Some(WrongPhase)
    else
      match a
      case DrawDeck => None
      case DrawDiscard(_, _, _) => WhyNoPickUp(s, p, a)
      case LayMeld(cards) => WhyNoMeld(s, p, cards)
      case LayOffCards(id, cards) => WhyNoLayOff(s, p, id, cards)
      case Knock(c, _) => if s.players[p].hand == [c] then None else Some(BadKnock)
      case AutoKnock => if |s.players[p].hand| != 1 && CanGoOut(s, p) then None else Some(BadKnock)
      case Discard(c) => if c in s.players[p].hand then None else Some(CardNotHeld)
  }

  ghost predicate Explains(o: Outcome, why: Option<GameError>) {
    match o
    case Accepted(_) => why.None?
    case Rejected(_, e) => why == Some(e)
  }

  lemma MeldReason(s: State, p: nat, cards: seq<Card>)
    requires Melding(s, p)
    ensures Explains(Apply(s, p, LayMeld(cards)), WhyNoMeld(s, p, cards))
  {
    hide Classify, WithMeld;
    SeqBagSize(cards);
  }

  lemma LayOffReason(s: State, p: nat, id: MeldId, cards: seq<Card>)
    requires Melding(s, p) && Numbered(s)
    ensures Explains(Apply(s, p, LayOffCards(id, cards)), WhyNoLayOff(s, p, id, cards))
  {
    hide LaidOff, FitsOn, WithLayOff, Removed;
    var mi := FindMeld(s.melds, id);
    if mi != -1 {
      assert OnTable(s, id);
      if cards != [] {
        LaidOffIffFits(s.melds[mi], cards, s.rules.minMeldLen);
      } else {
        NoCardsNoLayOff(s.melds[mi], s.rules.minMeldLen);
      }
    }
  }

  lemma NoCardsNoLayOff(m: Meld, minLen: nat)
    ensures LaidOff(m, [], minLen).None?
  {
  }

  lemma KnockReason(s: State, p: nat, a: Action)
    requires Melding(s, p) && (a.Knock? || a.Discard?)
    ensures Explains(Apply(s, p, a), Reason(s, p, a))
  {
    hide WentOut, Discarded;
    if a.Discard? {
      assert a.card in s.players[p].hand <==> a.card in multiset(s.players[p].hand);
    }
  }

  lemma AutoKnockReason(s: State, p: nat)
    requires Sound(s) && Melding(s, p)
    ensures Explains(Apply(s, p, AutoKnock), Reason(s, p, AutoKnock))
  {
    NotKnockedYet(s);
    SoundTable(s);
    hide Sound, Numbered, CanGoOut, Replay, FirstSome, KnockHits;
    SolverExact(s, p);
    if Solve(s.players[p].hand, s.melds, s.rules.minMeldLen).Some? {
      ReplayNeverFails(s, p);
    }
  }

  lemma SoundTable(s: State)
    requires Sound(s)
    ensures Shaped(s) && Numbered(s)
  {
  }

  /** How the engine gets at its error. */
  lemma PickUpError(s: State, p: nat, a: Action)
    requires Shaped(s) && a.DrawDiscard? && p < |s.players|
    requires PickUp(s, p, a.target, a.support, a.onto).Rejected?
    ensures PickUp(s, p, a.target, a.support, a.onto).error
         == if s.firstMove then MustDrawDeck
            else if s.discardPile == [] then EmptyDiscard
            else if TargetIndex(s.discardPile, a.target) < 0 then CardNotHeld
            else if a.onto.Some? then (if OnTable(s, a.onto.value) then PickupNeedsMeld else NoSuchMeld)
            else if |a.support| >= s.rules.minMeldLen - 1 && SupportMissing(s, p, a) then CardNotHeld
            else PickupNeedsMeld
  {
    hide PickUpOnto, PickUpMeld, SupportMissing, TargetIndex, OnTable;
    var ti := TargetIndex(s.discardPile, a.target);
    if !s.firstMove && s.discardPile != [] && ti >= 0 {
      match a.onto
      case Some(id) => OntoError(s, p, ti, id);
      case None =>
        NewMeldError(s, p, ti, a.support);
        OneReach(s, p, a);
    }
  }

  lemma PickUpReason(s: State, p: nat, a: Action)
    requires Sound(s) && a.DrawDiscard? && p == s.turn && !s.roundOver && s.phase == PhaseDraw
    ensures p < |s.players| && Shaped(s) && Explains(Apply(s, p, a), WhyNoPickUp(s, p, a))
  {
    hide Sound, Apply, PickUp, Usable, SupportMissing, TargetIndex, OnTable;
    SoundTable(s);
    UsableIff(s, p, a);
    ApplyIsPickUp(s, p, a);
    InPileIffReached(s.discardPile, a.target);
    if Apply(s, p, a).Rejected? {
      PickUpError(s, p, a);
    } else {
      UsableIsInPile(s, p, a);
    }
  }

  lemma UsableIsInPile(s: State, p: nat, a: Action)
    requires p < |s.players| && a.DrawDiscard? && Usable(s, p, a)
    ensures s.discardPile != [] && (a.target.Some? ==> a.target.value in s.discardPile)
  {
    hide CanUse;
  }

  lemma UsableIff(s: State, p: nat, a: Action)
    requires Sound(s) && a.DrawDiscard? && p == s.turn && !s.roundOver && s.phase == PhaseDraw
    ensures p < |s.players| && Shaped(s)
    ensures Apply(s, p, a).Accepted? <==> !s.firstMove && Usable(s, p, a)
  {
    SoundTable(s);
    PickUpAcceptedIff(s, p, a);
    hide Sound, Numbered, Apply, CanUse, Reaches;
  }

  /** The place reached for is the only one. */
  lemma OneReach(s: State, p: nat, a: Action)
    requires p < |s.players| && a.DrawDiscard? && TargetIndex(s.discardPile, a.target) >= 0
    ensures var k := TargetIndex(s.discardPile, a.target);
            SupportMissing(s, p, a)
            <==> !(multiset(a.support) <= multiset(s.players[p].hand) + multiset(s.discardPile[k + 1..]))
  {
    TargetReaches(s.discardPile, a.target);
    hide Reaches;
  }

  lemma InPileIffReached(pile: seq<Card>, target: Option<Card>)
    ensures TargetIndex(pile, target) >= 0 <==>
            pile != [] && (target.Some? ==> target.value in pile)
  {
    if target.Some? {
      LastIndexReaches(pile, target.value);
    }
  }

  lemma OntoError(s: State, p: nat, k: nat, id: MeldId)
    requires Shaped(s) && p < |s.players| && k < |s.discardPile| && PickUpOnto(s, p, k, id).Rejected?
    ensures PickUpOnto(s, p, k, id).error == if OnTable(s, id) then PickupNeedsMeld else NoSuchMeld
  {
    hide LaidOff, WithLayOff, Charged;
    var mi := FindMeld(s.melds, id);
    assert mi != -1 ==> s.melds[mi].id == id;
  }

  lemma NewMeldError(s: State, p: nat, k: nat, support: seq<Card>)
    requires Shaped(s) && p < |s.players| && k < |s.discardPile| && PickUpMeld(s, p, k, support).Rejected?
    ensures PickUpMeld(s, p, k, support).error
         == if && |support| >= s.rules.minMeldLen - 1
               && !(multiset(support) <= multiset(s.players[p].hand) + multiset(s.discardPile[k + 1..]))
            then CardNotHeld else PickupNeedsMeld
  {
    hide MakeMeld, WithMeld, FromHand, Extras, Removed, Charged;
    SupportHeldIff(s.players[p].hand, support, s.discardPile[k + 1..]);
  }

  /** Every rejection gives exactly that reason, and what has none is accepted. */
  lemma ReasonExact(s: State, p: int, a: Action)
    requires Sound(s)
    ensures Shaped(s) && Explains(Apply(s, p, a), Reason(s, p, a))
  {
    SoundTable(s);
    if !s.roundOver {
      Phases(s);
    }
    if s.roundOver || p != s.turn || IsDraw(a) != (s.phase == PhaseDraw) {
      OutOfTurn(s, p, a);
    } else {
      hide Sound, Numbered, Apply, WhyNoPickUp, WhyNoMeld, WhyNoLayOff, CanGoOut;
      InTurn(s, p, a);
    }
  }

  lemma Phases(s: State)
    requires Sound(s) && !s.roundOver
    ensures s.phase == PhaseDraw || s.phase == PhaseMeld
  {
  }

  lemma OutOfTurn(s: State, p: int, a: Action)
    requires Shaped(s) && (!s.roundOver ==> s.phase == PhaseDraw || s.phase == PhaseMeld)
    requires s.roundOver || p != s.turn || IsDraw(a) != (s.phase == PhaseDraw)
    ensures Explains(Apply(s, p, a), Reason(s, p, a))
  {
  }

  lemma InTurn(s: State, p: int, a: Action)
    requires Sound(s) && Shaped(s) && !s.roundOver && p == s.turn
    requires IsDraw(a) == (s.phase == PhaseDraw) && (s.phase == PhaseDraw || s.phase == PhaseMeld)
    ensures Explains(Apply(s, p, a), Reason(s, p, a))
  {
    SoundTable(s);
    hide Sound, Numbered, WhyNoPickUp, WhyNoMeld, WhyNoLayOff, CanGoOut;
    match a
    case DrawDeck =>
    case DrawDiscard(_, _, _) =>
      hide Apply;
      PickUpReason(s, p, a);
    case LayMeld(cards) =>
      hide Apply;
      MeldReason(s, p, cards);
    case LayOffCards(id, cards) =>
      hide Apply;
      LayOffReason(s, p, id, cards);
    case Knock(_, _) =>
      hide Apply;
      KnockReason(s, p, a);
    case AutoKnock =>
      hide Apply;
      AutoKnockReason(s, p);
    case Discard(_) =>
      hide Apply;
      KnockReason(s, p, a);
  }
}
