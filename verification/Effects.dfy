/** What accepted actions do to the cards, in order, and what that comes to over a run. */
module Effects {
  import opened Bags
  import opened Cards
  import opened Melds
  import opened LayOff
  import opened Deck
  import opened Rules
  import opened Runs
  import opened Invariants
  import opened Steps
  import opened History
  import opened Grammar
  import opened PickUps

  // ----- hands and piles ---------------------------------------------------------------

  /** Only player p's hand has changed among the hands. */
  predicate OnlyHand(s: State, t: State, p: nat, hand: seq<Card>) {
    && p < |s.players| == |t.players| && t.players[p].hand == hand
    && forall q :: 0 <= q < |s.players| && q != p ==> t.players[q].hand == s.players[q].hand
  }

  lemma HandDistinct(s: State, p: nat)
    requires Sound(s) && p < |s.players|
    ensures Distinct(s.players[p].hand)
  {
    HandAndPileDistinct(s, p);
    BothDistinct(s.players[p].hand, s.discardPile);
  }

  lemma RemovedIsExcept(s: State, p: nat, cards: seq<Card>)
    requires Sound(s) && p < |s.players| && HandContains(s.players[p].hand, cards)
    ensures Removed(s.players[p].hand, cards) == Except(s.players[p].hand, cards)
  {
    HandDistinct(s, p);
    RemoveAllIsExcept(s.players[p].hand, cards);
  }

  /** Drawing takes the top card of the deck, the first, to the end of the hand. */
  lemma DrawMovesTop(s: State, p: int)
    requires Shaped(s) && Apply(s, p, DrawDeck).Accepted?
    ensures var t := Apply(s, p, DrawDeck).state;
            && 0 <= p < |s.players| && t.melds == s.melds && t.discardPile == s.discardPile
            && if s.drawPile == [] then t.drawPile == [] && t.players == s.players
               else && t.drawPile == s.drawPile[1..]
                    && OnlyHand(s, t, p, s.players[p].hand + [s.drawPile[0]])
  {
  }

  /** Passing the turn moves no card but the one put on the pile. */
  lemma PassingMovesOne(w: State, p: nat, c: Card)
    requires p < |w.players|
    ensures var u := TurnPassed(w, p, c);
            && u.discardPile == w.discardPile + [c] && u.drawPile == w.drawPile && u.melds == w.melds
            && |u.players| == |w.players|
            && forall q :: 0 <= q < |w.players| ==>
                 u.players[q].hand == w.players[q].hand && u.players[q].melds == w.players[q].melds
  {
  }

  /** The accepted discard, step by step. */
  lemma DiscardSteps(s: State, p: int, c: Card) returns (w: State)
    requires Shaped(s) && Apply(s, p, Discard(c)).Accepted?
    ensures 0 <= p < |s.players| == |w.players|
    ensures c in s.players[p].hand && HandContains(s.players[p].hand, [c])
    ensures w.discardPile == s.discardPile && w.drawPile == s.drawPile && w.melds == s.melds
    ensures w.players == s.players[p := s.players[p].(hand := Removed(s.players[p].hand, [c]))]
    ensures Apply(s, p, Discard(c)).state == TurnPassed(w, p, c)
  {
    hide Removed, DumpCharged, TurnPassed;
    DumpCharges(s, p, c);
    w := WithHand(DumpCharged(s, p, c), p, Removed(s.players[p].hand, [c]));
    assert c in multiset([c]);
    assert c in multiset(s.players[p].hand);
  }

  /** Discarding takes the card out of the hand, where the others keep their order, onto the pile. */
  lemma DiscardMovesCard(s: State, p: int, c: Card)
    requires Sound(s) && Apply(s, p, Discard(c)).Accepted?
    ensures var t := Apply(s, p, Discard(c)).state;
            && 0 <= p < |s.players| && c in s.players[p].hand
            && OnlyHand(s, t, p, Except(s.players[p].hand, [c]))
            && t.discardPile == s.discardPile + [c] && t.drawPile == s.drawPile && t.melds == s.melds
  {
    hide Apply, Sound, Except, Removed, HandContains, TurnPassed;
    SoundIsShaped(s);
    var w := DiscardSteps(s, p, c);
    RemovedIsExcept(s, p, [c]);
    PassingMovesOne(w, p, c);
  }

  lemma MeldMovesCards(s: State, p: int, a: Action)
    requires Shaped(s) && a.LayMeld? && Apply(s, p, a).Accepted?
    ensures var t := Apply(s, p, a).state;
            && 0 <= p < |s.players| && OnlyHand(s, t, p, Removed(s.players[p].hand, a.cards))
            && t.discardPile == s.discardPile && t.drawPile == s.drawPile
            && |t.melds| == |s.melds| + 1 && t.melds[..|s.melds|] == s.melds
            && var m := t.melds[|s.melds|];
               m.id == s.nextMeldSeq + 1 && m.owner == p && multiset(m.cards) == multiset(a.cards)
  {
    hide MakeMeld, ValidMeld, Removed, HandContains;
    MadeMeldIsValid(s.nextMeldSeq + 1, a.cards, p, s.rules.minMeldLen);
  }

  lemma LayOffMovesCards(s: State, p: int, a: Action)
    requires Shaped(s) && a.LayOffCards? && Apply(s, p, a).Accepted?
    ensures var t := Apply(s, p, a).state;
            && 0 <= p < |s.players| && OnlyHand(s, t, p, Removed(s.players[p].hand, a.cards))
            && t.discardPile == s.discardPile && t.drawPile == s.drawPile
            && |t.melds| == |s.melds|
            && exists i :: 0 <= i < |s.melds| && s.melds[i].id == a.meldID
                 && t.melds[i].id == a.meldID && t.melds[i].owner == s.melds[i].owner
                 && multiset(t.melds[i].cards) == multiset(s.melds[i].cards) + multiset(a.cards)
                 && forall j :: 0 <= j < |s.melds| && j != i ==> t.melds[j] == s.melds[j]
  {
    hide LaidOff, ValidMeld, Removed, HandContains;
    var mi := FindMeld(s.melds, a.meldID);
    LaidOffIsValid(s.melds[mi], a.cards, s.rules.minMeldLen);
    assert s.melds[mi].id == a.meldID;
    hide FindFrom;
  }

  /** Laying takes the cards out of the hand; a new meld, numbered next, is added at the end of the
      table, a lay-off lengthens the named meld and leaves the other melds alone. */
  lemma LayingMovesCards(s: State, p: int, a: Action)
    requires Sound(s) && (a.LayMeld? || a.LayOffCards?) && Apply(s, p, a).Accepted?
    ensures var t := Apply(s, p, a).state;
            && 0 <= p < |s.players| && HandContains(s.players[p].hand, a.cards)
            && OnlyHand(s, t, p, Except(s.players[p].hand, a.cards))
            && t.discardPile == s.discardPile && t.drawPile == s.drawPile
            && if a.LayMeld? then
                 && |t.melds| == |s.melds| + 1 && t.melds[..|s.melds|] == s.melds
                 && var m := t.melds[|s.melds|];
                    && m.id == s.nextMeldSeq + 1 && m.owner == p
                    && multiset(m.cards) == multiset(a.cards)
               else
                 && |t.melds| == |s.melds|
                 && exists i :: 0 <= i < |s.melds| && s.melds[i].id == a.meldID
                      && t.melds[i].id == a.meldID && t.melds[i].owner == s.melds[i].owner
                      && multiset(t.melds[i].cards) == multiset(s.melds[i].cards) + multiset(a.cards)
                      && forall j :: 0 <= j < |s.melds| && j != i ==> t.melds[j] == s.melds[j]
  {
    hide Sound, Apply, Except, Removed, HandContains;
    SoundIsShaped(s);
    LayingHeld(s, p, a);
    RemovedIsExcept(s, p, a.cards);
    if a.LayMeld? {
      MeldMovesCards(s, p, a);
    } else {
      LayOffMovesCards(s, p, a);
    }
  }

  lemma LayingHeld(s: State, p: int, a: Action)
    requires Shaped(s) && (a.LayMeld? || a.LayOffCards?) && Apply(s, p, a).Accepted?
    ensures 0 <= p < |s.players| && HandContains(s.players[p].hand, a.cards) && Melding(s, p)
  {
    hide MakeMeld, LaidOff, Removed, WithMeld, WithLayOff;
  }

  // ----- the deck is drawn in order ----------------------------------------------------

  lemma PickUpKeepsDeck(s: State, p: int, a: Action)
    requires Shaped(s) && a.DrawDiscard? && Apply(s, p, a).Accepted?
    ensures Apply(s, p, a).state.drawPile == s.drawPile
  {
    hide MakeMeld, LaidOff, Removed, HandContains, FromHand, Extras, Charged, TargetIndex, FindMeld;
  }

  lemma OtherKeepsDeck(s: State, p: int, a: Action)
    requires Shaped(s) && !a.DrawDiscard? && !a.DrawDeck? && !a.AutoKnock? && Apply(s, p, a).Accepted?
    ensures Apply(s, p, a).state.drawPile == s.drawPile
  {
    hide MakeMeld, LaidOff, Removed, HandContains, FindMeld, LayableOnAny, KnockSuitBoard;
  }

  lemma {:induction false} GoingOutKeepsDeck(s: State, p: int, acts: seq<Action>)
    requires Shaped(s) && GoesOut(s, p, acts)
    ensures RunAll(s, p, acts).value.drawPile == s.drawPile
    decreases |acts|
  {
    hide Apply;
    var rest := acts[1..];
    assert acts[0] == acts[|acts| - 1] || acts[0].LayMeld? || acts[0].LayOffCards?;
    OtherKeepsDeck(s, p, acts[0]);
    if |acts| > 1 {
      assert forall i :: 0 <= i < |rest| - 1 ==> rest[i] == acts[i + 1];
      assert rest[|rest| - 1] == acts[|acts| - 1];
      GoingOutKeepsDeck(Apply(s, p, acts[0]).state, p, rest);
    }
  }

  lemma DeckKept(s: State, p: int, a: Action)
    requires Sound(s) && !a.DrawDeck? && Apply(s, p, a).Accepted?
    ensures Apply(s, p, a).state.drawPile == s.drawPile
  {
    hide Apply, Sound;
    SoundIsShaped(s);
    if a.AutoKnock? {
      var acts := AutoKnockIsRun(s, p);
      GoingOutKeepsDeck(s, p, acts);
    } else if a.DrawDiscard? {
      PickUpKeepsDeck(s, p, a);
    } else {
      OtherKeepsDeck(s, p, a);
    }
  }

  /** The cards an accepted draw from the deck put at the end of the hand. */
  ghost function DrawnBy(e: Entry): seq<Card> {
    if e.action.DrawDeck? && Shaped(e.before) && 0 <= e.player < |e.before.players| then
      var t, had := Apply(e.before, e.player, DrawDeck).state, |e.before.players[e.player].hand|;
      if |t.players| == |e.before.players| && had <= |t.players[e.player].hand|
      then t.players[e.player].hand[had..] else []
    else []
  }

  ghost function AllDrawn(h: seq<Entry>): seq<Card> {
    if h == [] then [] else AllDrawn(h[..|h| - 1]) + DrawnBy(h[|h| - 1])
  }

  lemma DrawnIsTop(s: State, p: int)
    requires Shaped(s) && Apply(s, p, DrawDeck).Accepted?
    ensures DrawnBy(Entry(s, p, DrawDeck)) + Apply(s, p, DrawDeck).state.drawPile == s.drawPile
  {
    DrawMovesTop(s, p);
    hide Apply;
    if s.drawPile != [] {
      var hand := s.players[p].hand;
      assert (hand + [s.drawPile[0]])[|hand|..] == [s.drawPile[0]];
    }
  }

  /** Over any run, the cards drawn from the deck, in the order of the draws, and what is left of
      the deck are the deck as it was dealt. */
  lemma {:induction false} DeckDrawnInOrder(s: State, attempts: seq<Attempt>)
    requires Initial(s) && Shaped(s)
    ensures AllDrawn(Log(s, attempts)) + Play(s, attempts).drawPile == s.drawPile
  {
    hide Apply, Sound, Initial, DrawnBy;
    if attempts != [] {
      var n := |attempts| - 1;
      var before, h := Play(s, attempts[..n]), Log(s, attempts[..n]);
      var p, a := attempts[n].player, attempts[n].action;
      var t := Apply(before, p, a).state;
      DeckDrawnInOrder(s, attempts[..n]);
      RunIsSound(s, attempts[..n]);
      if Apply(before, p, a).Rejected? {
        RejectionUndoesNothing(before, p, a);
      } else {
        var e := Entry(before, p, a);
        assert (h + [e])[..|h|] == h;
        if a.DrawDeck? {
          DrawnIsTop(before, p);
        } else {
          DeckKept(before, p, a);
          NothingDrawn(e);
        }
        assert AllDrawn(h) + (DrawnBy(e) + t.drawPile) == (AllDrawn(h) + DrawnBy(e)) + t.drawPile;
      }
    }
  }

  lemma NothingDrawn(e: Entry)
    requires !e.action.DrawDeck?
    ensures DrawnBy(e) == []
  {
  }

  // ----- each player's list of melds ---------------------------------------------------

  function OwnedIds(melds: seq<Meld>, p: int): seq<MeldId> {
    if melds == [] then []
    else
      var m := melds[|melds| - 1];
      OwnedIds(melds[..|melds| - 1], p) + if m.owner == p then [m.id] else []
  }

  /** Every player's own list names the table melds of that player, in order. */
  predicate ListsMelds(s: State) {
    forall p :: 0 <= p < |s.players| ==> s.players[p].melds == OwnedIds(s.melds, p)
  }

  lemma ListsWithMeld(b: State, p: nat, m: Meld, hand: seq<Card>)
    requires p < |b.players| && m.owner == p && ListsMelds(b)
    ensures ListsMelds(WithMeld(b, p, m, hand))
  {
    hide OwnedIds;
    forall q ensures OwnedIds(b.melds + [m], q) == OwnedIds(b.melds, q) + if q == p then [m.id] else [] {
      OwnedIdsGrow(b.melds, m, q);
    }
  }

  lemma OwnedIdsGrow(melds: seq<Meld>, m: Meld, q: int)
    ensures OwnedIds(melds + [m], q) == OwnedIds(melds, q) + if m.owner == q then [m.id] else []
  {
    assert (melds + [m])[..|melds|] == melds;
  }

  lemma {:induction false} OwnedIdsSame(melds: seq<Meld>, i: nat, u: Meld, q: int)
    requires i < |melds| && u.id == melds[i].id && u.owner == melds[i].owner
    ensures OwnedIds(melds[i := u], q) == OwnedIds(melds, q)
    decreases |melds|
  {
    var n, after := |melds| - 1, melds[i := u];
    if i < n {
      assert after[..n] == melds[..n][i := u];
      OwnedIdsSame(melds[..n], i, u, q);
    } else {
      assert after[..n] == melds[..n];
    }
  }

  lemma ListsWithLayOff(b: State, p: nat, mi: nat, u: Meld, cards: seq<Card>, hand: seq<Card>)
    requires p < |b.players| && mi < |b.melds| && ListsMelds(b)
    requires u.id == b.melds[mi].id && u.owner == b.melds[mi].owner
    ensures ListsMelds(WithLayOff(b, p, mi, u, cards, hand))
  {
    hide OwnedIds;
    forall q ensures OwnedIds(b.melds[mi := u], q) == OwnedIds(b.melds, q) {
      OwnedIdsSame(b.melds, mi, u, q);
    }
  }

  lemma LayingKeepsLists(s: State, p: int, a: Action)
    requires Shaped(s) && (a.LayMeld? || a.LayOffCards?) && Apply(s, p, a).Accepted? && ListsMelds(s)
    ensures ListsMelds(Apply(s, p, a).state)
  {
    hide MakeMeld, LaidOff, Removed, HandContains, FindMeld, WithMeld, WithLayOff, ListsMelds;
    var hand := Removed(s.players[p].hand, a.cards);
    if a.LayMeld? {
      var b := s.(nextMeldSeq := s.nextMeldSeq + 1);
      MadeMeldIsValid(s.nextMeldSeq + 1, a.cards, p, s.rules.minMeldLen);
      SameLists(s, b);
      ListsWithMeld(b, p, MakeMeld(s.nextMeldSeq + 1, a.cards, p, s.rules.minMeldLen).value, hand);
    } else {
      var mi := FindMeld(s.melds, a.meldID);
      LaidOffIsValid(s.melds[mi], a.cards, s.rules.minMeldLen);
      ListsWithLayOff(s, p, mi, LaidOff(s.melds[mi], a.cards, s.rules.minMeldLen).value, a.cards, hand);
    }
  }

  lemma SameLists(s: State, t: State)
    requires ListsMelds(s) && t.melds == s.melds && |t.players| == |s.players|
    requires forall q :: 0 <= q < |s.players| ==> t.players[q].melds == s.players[q].melds
    ensures ListsMelds(t)
  {
    hide OwnedIds;
  }

  lemma PickUpKeepsLists(s: State, p: int, a: Action)
    requires Shaped(s) && a.DrawDiscard? && Apply(s, p, a).Accepted? && ListsMelds(s)
    ensures ListsMelds(Apply(s, p, a).state)
  {
    hide MakeMeld, LaidOff, Removed, HandContains, FindMeld, WithMeld, WithLayOff, ListsMelds;
    hide FromHand, Extras, Charged, TargetIndex;
    var ti, minLen := TargetIndex(s.discardPile, a.target), s.rules.minMeldLen;
    var target, above := s.discardPile[ti], s.discardPile[ti + 1..];
    if a.onto.Some? {
      var b, mi := PileTaken(s, p, ti), FindMeld(s.melds, a.onto.value);
      SameLists(s, b);
      LaidOffIsValid(s.melds[mi], [target], minLen);
      ListsWithLayOff(b, p, mi, LaidOff(s.melds[mi], [target], minLen).value, [target],
                      s.players[p].hand + above);
    } else {
      var b := PileTaken(s.(nextMeldSeq := s.nextMeldSeq + 1), p, ti);
      SameLists(s, b);
      MadeMeldIsValid(s.nextMeldSeq + 1, a.support + [target], p, minLen);
      ListsWithMeld(b, p, MakeMeld(s.nextMeldSeq + 1, a.support + [target], p, minLen).value,
                    Removed(s.players[p].hand + Extras(a.support, above), FromHand(a.support, above)));
    }
  }

  lemma DrawKeepsLists(s: State, p: int, a: Action)
    requires Shaped(s) && (a.DrawDeck? || a.Knock?) && Apply(s, p, a).Accepted? && ListsMelds(s)
    ensures ListsMelds(Apply(s, p, a).state)
  {
    hide Removed, KnockSuitBoard, ListsMelds;
    SameLists(s, Apply(s, p, a).state);
  }

  lemma DiscardKeepsLists(s: State, p: int, c: Card)
    requires Shaped(s) && Apply(s, p, Discard(c)).Accepted? && ListsMelds(s)
    ensures ListsMelds(Apply(s, p, Discard(c)).state)
  {
    hide Apply, Removed, HandContains, TurnPassed, ListsMelds;
    var w := DiscardSteps(s, p, c);
    PassingMovesOne(w, p, c);
    SameLists(s, Apply(s, p, Discard(c)).state);
  }

  lemma SimpleKeepsLists(s: State, p: int, a: Action)
    requires Shaped(s) && !a.AutoKnock? && Apply(s, p, a).Accepted? && ListsMelds(s)
    ensures ListsMelds(Apply(s, p, a).state)
  {
    hide Apply, ListsMelds;
    if a.LayMeld? || a.LayOffCards? {
      LayingKeepsLists(s, p, a);
    } else if a.DrawDiscard? {
      PickUpKeepsLists(s, p, a);
    } else if a.Discard? {
      DiscardKeepsLists(s, p, a.card);
    } else {
      DrawKeepsLists(s, p, a);
    }
  }

  lemma {:induction false} GoingOutKeepsLists(s: State, p: int, acts: seq<Action>)
    requires Shaped(s) && RunAll(s, p, acts).Some? && ListsMelds(s)
    requires forall i :: 0 <= i < |acts| ==> !acts[i].AutoKnock?
    ensures ListsMelds(RunAll(s, p, acts).value)
    decreases |acts|
  {
    hide Apply, ListsMelds;
    if acts != [] {
      SimpleKeepsLists(s, p, acts[0]);
      GoingOutKeepsLists(Apply(s, p, acts[0]).state, p, acts[1..]);
    }
  }

  lemma NoLists(s: State)
    requires Initial(s)
    ensures ListsMelds(s)
  {
    hide FisherYates, Hands, RoomRules, OrderedDeck;
  }

  /** In every state of every run each player's list names that player's table melds. */
  lemma {:induction false} RunListsMelds(s: State, attempts: seq<Attempt>)
    requires Initial(s) && Shaped(s)
    ensures ListsMelds(Play(s, attempts))
  {
    hide Apply, Sound, Initial, ListsMelds;
    if attempts == [] {
      NoLists(s);
    } else {
      var n := |attempts| - 1;
      var before := Play(s, attempts[..n]);
      var p, a := attempts[n].player, attempts[n].action;
      RunListsMelds(s, attempts[..n]);
      RunIsSound(s, attempts[..n]);
      if Apply(before, p, a).Rejected? {
        RejectionUndoesNothing(before, p, a);
        SameLists(before, Apply(before, p, a).state);
      } else if a.AutoKnock? {
        var acts := AutoKnockIsRun(before, p);
        GoingOutKeepsLists(before, p, acts);
      } else {
        SimpleKeepsLists(before, p, a);
      }
    }
  }
}
