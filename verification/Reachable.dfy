/** The main results as they read for a round in play: `t` is the state after any attempts by
    anyone, from any deal under any rules a room can have. */
module Reachable {
  import opened Bags
  import opened Cards
  import opened Melds
  import opened LayOff
  import opened Solver
  import opened Deck
  import opened Rules
  import opened Runs
  import opened Conservation
  import opened Invariants
  import opened Steps
  import opened History
  import opened Hints
  import opened HintProof

  /** Hands, table, draw pile, discard pile and the knocked card are always exactly the 52
      distinct cards. */
  lemma CardsAreConserved(s: State, attempts: seq<Attempt>)
    requires Initial(s) && Shaped(s)
    ensures forall c: Card :: Zones(Play(s, attempts))[c] == 1
    ensures |Zones(Play(s, attempts))| == 52
  {
    hide Apply, Zones, TableOK, HeadOK, ProducedOK;
    RunIsSound(s, attempts);
    DeckHasEachCardOnce();
  }

  /** Every table meld reclassifies to its stored kind and Ace flag, has the minimum length,
      and if it is a run ascends one value at a time in one suit. */
  lemma TableStaysValid(s: State, attempts: seq<Attempt>, i: nat)
    requires Initial(s) && Shaped(s) && i < |Play(s, attempts).melds|
    ensures var t := Play(s, attempts); var m := t.melds[i];
            && MakeMeld(m.id, m.cards, m.owner, t.rules.minMeldLen) == Ok(m)
            && |m.cards| >= t.rules.minMeldLen >= 3
            && 0 <= m.owner < |t.players|
            && (m.kind == Run ==> forall j :: 0 < j < |m.cards| ==>
                  m.cards[j].suit == m.cards[0].suit
                  && Val(m.cards[j], m.aceHigh) == Val(m.cards[j - 1], m.aceHigh) + 1)
            && (m.kind == Set ==> forall j :: 0 < j < |m.cards| ==> m.cards[j].rank == m.cards[0].rank)
  {
    hide Apply, HeadOK, ProducedOK, Conserved, Initial;
    RunIsSound(s, attempts);
    var t := Play(s, attempts);
    var m := t.melds[i];
    SeqBagSize(m.cards);
    assert forall j :: 0 <= j < |m.cards| ==> m.cards[j] in multiset(m.cards);
    if m.kind == Run {
      ValidRunAscends(m, t.rules.minMeldLen);
    }
  }

  /** For the player to move: the solver answers yes, and the auto-knock is accepted, exactly
      when some sequence of melds and lay-offs by hand followed by a knock is accepted; the
      auto-knock then empties the hand. */
  ghost predicate AutoKnockIsExact(t: State)
    requires Shaped(t)
  {
    var p, o := t.turn, Apply(t, t.turn, AutoKnock);
    && (Solve(t.players[p].hand, t.melds, t.rules.minMeldLen).Some? <==> CanGoOut(t, p))
    && (o.Accepted? <==> CanGoOut(t, p))
    && (o.Accepted? ==> o.state.players[p].hand == [])
  }

  /** In every meld phase of every run the auto-knock is exact, unless a single card is left. */
  lemma AutoKnockExact(s: State, attempts: seq<Attempt>)
    requires Initial(s) && Shaped(s)
    ensures var t := Play(s, attempts);
            Melding(t, t.turn) ==> (AutoKnockIsExact(t) <==> |t.players[t.turn].hand| != 1)
  {
    hide Apply, Solve, AutoKnockIsExact, Conserved, HeadOK, ProducedOK, Initial;
    RunIsSound(s, attempts);
    var t := Play(s, attempts);
    if Melding(t, t.turn) {
      AutoKnockInPlay(t, t.turn);
    }
  }

  lemma AutoKnockInPlay(t: State, p: nat)
    requires Melding(t, p) && Numbered(t) && !t.knockDark
    ensures AutoKnockIsExact(t) <==> |t.players[p].hand| != 1
  {
    hide Apply, Solve, CanGoOut, GoesOut, Numbered;
    SolverExact(t, p);
    if Solve(t.players[p].hand, t.melds, t.rules.minMeldLen).Some? {
      ReplayNeverFails(t, p);
    } else {
      NoPlanNoKnock(t, p);
    }
  }

  lemma NoPlanNoKnock(t: State, p: nat)
    requires Melding(t, p) && Solve(t.players[p].hand, t.melds, t.rules.minMeldLen).None?
    ensures Apply(t, p, AutoKnock) == Rejected(t, BadKnock)
  {
    hide Solve;
  }

  /** In play, every hint given in the meld phase with cards in hand is accepted, and a discard
      is hinted exactly when nothing at all can be laid. */
  lemma HintsExact(s: State, attempts: seq<Attempt>)
    requires Initial(s) && Shaped(s)
    ensures var t := Play(s, attempts); var r := Suggest(t, t.turn);
            Melding(t, t.turn) && t.players[t.turn].hand != [] ==>
              && ActionOf(r).Some? && Apply(t, t.turn, ActionOf(r).value).Accepted?
              && (r.SuggestDiscard? <==>
                  forall a: Action :: Lays(a) ==> Apply(t, t.turn, a).Rejected?)
  {
    hide Apply, Suggest, Sound, Initial, ActionOf, Lays;
    RunIsSound(s, attempts);
    var t := Play(s, attempts);
    SoundIsShaped(t);
    if Melding(t, t.turn) && t.players[t.turn].hand != [] {
      HintIsAccepted(t);
      DiscardHintIffNothingToLay(t);
    }
  }
}
