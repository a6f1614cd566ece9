/** How a round ends, and what is remembered of it. */
module Endings {
  import opened Bags
  import opened Cards
  import opened Melds
  import opened LayOff
  import opened Deck
  import opened Rules
  import opened Runs
  import opened Invariants
  import opened Steps
  import opened History
  import opened Grammar

  /** Player p owns table melds, and all their cards are of one suit. */
  predicate OneSuitOnly(melds: seq<Meld>, p: int, suit: Suit) {
    && Owns(melds, p)
    && forall i, c :: 0 <= i < |melds| && melds[i].owner == p && c in melds[i].cards ==> c.suit == suit
  }

  lemma BoardIsOneSuit(melds: seq<Meld>, p: int, suit: Suit)
    ensures KnockSuitBoard(melds, p, suit) <==> OneSuitOnly(melds, p, suit)
  {
    if KnockSuitBoard(melds, p, suit) {
      var m :| m in melds && m.owner == p;
      assert Owns(melds, p);
    }
    if OneSuitOnly(melds, p, suit) {
      var i :| 0 <= i < |melds| && melds[i].owner == p;
      assert melds[i] in melds;
      forall m | m in melds && m.owner == p ensures forall c :: c in m.cards ==> c.suit == suit {
        var j :| 0 <= j < |melds| && melds[j] == m;
      }
    }
  }

  /** Nothing has ended; or the player to move went out with the knocked card; or the deck ran
      out. */
  ghost predicate EndingOK(s: State) {
    match s.endReason
    case NotEnded =>
      !s.roundOver && s.knocker == -1 && s.knocked.None? && !s.knockDark && !s.knockSuit
    case ByKnock =>
      && s.roundOver && s.knocker == s.turn < |s.players| && s.knocked.Some?
      && s.players[s.turn].hand == []
      && (s.knockSuit <==> OneSuitOnly(s.melds, s.knocker, s.knocked.value.suit))
    case DeckExhaust =>
      s.roundOver && s.knocker == -1 && s.knocked.None? && !s.knockDark && !s.knockSuit && s.drawPile == []
  }

  lemma EndsByKnock(s: State, p: nat, c: Card, dark: bool)
    requires p == s.turn < |s.players| && s.players[p].hand == [c]
    ensures EndingOK(WentOut(s, p, c, dark))
    ensures WentOut(s, p, c, dark).endReason == ByKnock && WentOut(s, p, c, dark).knocked == Some(c)
  {
    BoardIsOneSuit(s.melds, p, c.suit);
    hide KnockSuitBoard, OneSuitOnly;
    assert RemoveAll([c], [c]) == [] by { assert [c][1..] == []; }
  }

  lemma LayingEndsNothing(s: State, p: int, a: Action)
    requires Shaped(s) && (a.LayMeld? || a.LayOffCards?) && Apply(s, p, a).Accepted? && EndingOK(s)
    ensures EndingOK(Apply(s, p, a).state)
    ensures Apply(s, p, a).state.endReason == NotEnded
  {
    hide MakeMeld, LaidOff, Removed, HandContains, OneSuitOnly, FindMeld;
  }

  lemma PickUpEndsNothing(s: State, p: int, a: Action)
    requires Shaped(s) && a.DrawDiscard? && Apply(s, p, a).Accepted? && EndingOK(s)
    ensures EndingOK(Apply(s, p, a).state)
    ensures Apply(s, p, a).state.endReason == NotEnded
  {
    hide MakeMeld, LaidOff, Removed, HandContains, OneSuitOnly, FindMeld, FromHand, Extras, Charged;
    hide TargetIndex;
  }

  lemma DrawEnds(s: State, p: int)
    requires Shaped(s) && Apply(s, p, DrawDeck).Accepted? && EndingOK(s)
    ensures EndingOK(Apply(s, p, DrawDeck).state)
    ensures Apply(s, p, DrawDeck).state.endReason == if s.drawPile == [] then DeckExhaust else NotEnded
  {
    hide OneSuitOnly;
  }

  lemma DiscardEndsNothing(s: State, p: int, a: Action)
    requires Shaped(s) && a.Discard? && Apply(s, p, a).Accepted? && EndingOK(s)
    ensures EndingOK(Apply(s, p, a).state)
    ensures Apply(s, p, a).state.endReason == NotEnded
  {
    hide Removed, HandContains, DumpCharged, OneSuitOnly;
    DumpCharges(s, p, a.card);
  }

  lemma KnockEnds(s: State, p: int, a: Action)
    requires Shaped(s) && a.Knock? && Apply(s, p, a).Accepted?
    ensures EndingOK(Apply(s, p, a).state)
    ensures Apply(s, p, a).state.endReason == ByKnock
  {
    hide WentOut, EndingOK;
    EndsByKnock(s, p, a.card, a.dark && !s.players[p].producedAtTurnStart);
  }

  /** How an accepted action may end the round. */
  function EndBy(s: State, a: Action): EndReason {
    if a.Knock? || a.AutoKnock? then ByKnock
    else if a.DrawDeck? && s.drawPile == [] then DeckExhaust
    else NotEnded
  }

  lemma SimpleEnding(s: State, p: int, a: Action)
    requires Shaped(s) && !a.AutoKnock? && Apply(s, p, a).Accepted? && EndingOK(s)
    ensures EndingOK(Apply(s, p, a).state) && Apply(s, p, a).state.endReason == EndBy(s, a)
  {
    hide Apply, EndingOK;
    match a
    case DrawDeck => DrawEnds(s, p);
    case DrawDiscard(_, _, _) => PickUpEndsNothing(s, p, a);
    case LayMeld(_) => LayingEndsNothing(s, p, a);
    case LayOffCards(_, _) => LayingEndsNothing(s, p, a);
    case Knock(_, _) => KnockEnds(s, p, a);
    case Discard(_) => DiscardEndsNothing(s, p, a);
  }

  lemma {:induction false} GoingOutEnds(s: State, p: int, acts: seq<Action>)
    requires Shaped(s) && GoesOut(s, p, acts) && EndingOK(s)
    ensures EndingOK(RunAll(s, p, acts).value) && RunAll(s, p, acts).value.endReason == ByKnock
    decreases |acts|
  {
    hide Apply, EndingOK;
    var t, rest := Apply(s, p, acts[0]).state, acts[1..];
    SimpleEnding(s, p, acts[0]);
    if |acts| > 1 {
      assert forall i :: 0 <= i < |rest| - 1 ==> rest[i] == acts[i + 1];
      assert rest[|rest| - 1] == acts[|acts| - 1];
      GoingOutEnds(t, p, rest);
    } else {
      assert acts[0] == acts[|acts| - 1];
    }
  }

  lemma EndingStep(s: State, p: int, a: Action)
    requires Sound(s) && Apply(s, p, a).Accepted? && EndingOK(s)
    ensures EndingOK(Apply(s, p, a).state) && Apply(s, p, a).state.endReason == EndBy(s, a)
  {
    hide Apply, Sound, EndingOK;
    SoundIsShaped(s);
    if a.AutoKnock? {
      var acts := AutoKnockIsRun(s, p);
      GoingOutEnds(s, p, acts);
    } else {
      SimpleEnding(s, p, a);
    }
  }

  lemma NothingEnded(s: State)
    requires Initial(s)
    ensures EndingOK(s) && s.endReason == NotEnded
  {
    hide FisherYates, Hands, RoomRules;
  }

  lemma SameEnding(s: State, t: State)
    requires EndingOK(s) && t == s.(nextMeldSeq := t.nextMeldSeq)
    ensures EndingOK(t)
  {
    hide OneSuitOnly;
  }

  /** Over any run the last accepted action says how the round ended, if it did. A knock leaves
      the hand of the player to move empty; its suit flag is set exactly when that player owns
      melds and all their cards are of the knocked card's suit. */
  lemma {:induction false} RunEnding(s: State, attempts: seq<Attempt>)
    requires Initial(s) && Shaped(s)
    ensures var t, h := Play(s, attempts), Log(s, attempts);
            && EndingOK(t)
            && t.endReason == if h == [] then NotEnded
                              else EndBy(h[|h| - 1].before, h[|h| - 1].action)
  {
    hide Apply, Sound, EndingOK, Initial, EndBy;
    if attempts == [] {
      NothingEnded(s);
    } else {
      var n := |attempts| - 1;
      var before := Play(s, attempts[..n]);
      var p, a := attempts[n].player, attempts[n].action;
      RunEnding(s, attempts[..n]);
      RunIsSound(s, attempts[..n]);
      if Apply(before, p, a).Rejected? {
        RejectionUndoesNothing(before, p, a);
        SameEnding(before, Apply(before, p, a).state);
      } else {
        EndingStep(before, p, a);
      }
    }
  }
}
