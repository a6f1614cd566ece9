/** The shape of a run's accepted actions, and who is charged for which discard. */
module Grammar {
  import opened Cards
  import opened Melds
  import opened LayOff
  import opened Deck
  import opened Rules
  import opened Runs
  import opened Invariants
  import opened Steps
  import opened History

  // ----- what an accepted action does to turn, phase and pile --------------------------

  predicate IsDraw(a: Action) {
    a.DrawDeck? || a.DrawDiscard?
  }

  /** A turn's action that leaves turn, pile and penalties alone. */
  ghost predicate Quiet(s: State, t: State) {
    && t.turn == s.turn && t.firstMove == s.firstMove && t.rules == s.rules
    && t.discardPile == s.discardPile && t.discardedBy == s.discardedBy
    && t.dumpPenalties == s.dumpPenalties && t.headCard == s.headCard
    && (s.headOwner != -1 ==> t.headOwner == s.headOwner)
    && |t.players| == |s.players|
    && forall q :: 0 <= q < |s.players| ==>
         t.players[q].producedAtTurnStart == s.players[q].producedAtTurnStart
         && t.players[q].id == s.players[q].id
  }

  lemma WithMeldIsQuiet(s: State, p: nat, m: Meld, hand: seq<Card>)
    requires p < |s.players|
    ensures Quiet(s, WithMeld(s, p, m, hand)) && WithMeld(s, p, m, hand).phase == s.phase
    ensures WithMeld(s, p, m, hand).roundOver == s.roundOver
    ensures WithMeld(s, p, m, hand).knockDark == s.knockDark
  {
  }

  lemma WithLayOffIsQuiet(s: State, p: nat, mi: nat, u: Meld, cards: seq<Card>, hand: seq<Card>)
    requires p < |s.players| && mi < |s.melds|
    ensures var t := WithLayOff(s, p, mi, u, cards, hand);
            Quiet(s, t) && t.phase == s.phase && t.roundOver == s.roundOver
            && t.knockDark == s.knockDark
  {
  }

  lemma LayingIsQuiet(s: State, p: int, a: Action)
    requires Shaped(s) && (a.LayMeld? || a.LayOffCards?) && Apply(s, p, a).Accepted?
    ensures var t := Apply(s, p, a).state;
            && Melding(s, p) && Quiet(s, t) && Melding(t, p) && t.knockDark == s.knockDark
  {
    hide MakeMeld, LaidOff, WithMeld, WithLayOff, Removed, HandContains;
    var hand := Removed(s.players[p].hand, a.cards);
    if a.LayMeld? {
      var s' := s.(nextMeldSeq := s.nextMeldSeq + 1);
      var m := MakeMeld(s'.nextMeldSeq, a.cards, p, s.rules.minMeldLen).value;
      WithMeldIsQuiet(s', p, m, hand);
    } else {
      var mi := FindMeld(s.melds, a.meldID);
      var u := LaidOff(s.melds[mi], a.cards, s.rules.minMeldLen).value;
      WithLayOffIsQuiet(s, p, mi, u, a.cards, hand);
    }
  }

  lemma KnockIsQuiet(s: State, p: int, a: Action)
    requires Shaped(s) && a.Knock? && Apply(s, p, a).Accepted?
    ensures var t := Apply(s, p, a).state;
            && Melding(s, p) && Quiet(s, t) && t.roundOver && t.phase == PhaseRoundOver
            && t.endReason == ByKnock && t.knocker == p
            && t.knockDark == (a.dark && !s.players[p].producedAtTurnStart)
  {
    hide Removed, KnockSuitBoard;
  }

  lemma QuietTwice(s: State, t: State, u: State)
    requires Quiet(s, t) && Quiet(t, u)
    ensures Quiet(s, u)
  {
  }

  /** Going out leaves pile and penalties alone and ends the round; with knocks that do not
      claim to be dark it is not a dark knock. */
  lemma {:induction false} GoingOutIsQuiet(s: State, p: int, acts: seq<Action>)
    requires Shaped(s) && GoesOut(s, p, acts)
    ensures var t := RunAll(s, p, acts).value;
            && Quiet(s, t) && t.roundOver && t.phase == PhaseRoundOver && t.knocker == p
            && t.endReason == ByKnock
            && t.knockDark == (acts[|acts| - 1].dark && !s.players[s.turn].producedAtTurnStart)
    decreases |acts|
  {
    hide Apply, Quiet;
    var t, rest := Apply(s, p, acts[0]).state, acts[1..];
    if |acts| == 1 {
      KnockIsQuiet(s, p, acts[0]);
      assert acts[0] == acts[|acts| - 1];
      KnockerIsTurn(s, p);
    } else {
      LayingIsQuiet(s, p, acts[0]);
      assert forall i :: 0 <= i < |rest| - 1 ==> rest[i] == acts[i + 1];
      assert rest[|rest| - 1] == acts[|acts| - 1];
      GoingOutIsQuiet(t, p, rest);
      QuietTwice(s, t, RunAll(t, p, rest).value);
      QuietTurn(s, t);
    }
  }

  lemma KnockerIsTurn(s: State, p: int)
    requires Melding(s, p)
    ensures p == s.turn
  {
  }

  lemma QuietTurn(s: State, t: State)
    requires Quiet(s, t) && s.turn < |s.players|
    ensures t.turn == s.turn && |t.players| == |s.players|
    ensures t.players[t.turn].producedAtTurnStart == s.players[s.turn].producedAtTurnStart
  {
  }

  lemma DrawDeckEffect(s: State, p: int)
    requires Orderly(s) && Apply(s, p, DrawDeck).Accepted?
    ensures var t := Apply(s, p, DrawDeck).state;
            && s.phase == PhaseDraw && s.turn == p && !t.firstMove
            && Quiet(s.(firstMove := false), t)
            && (if s.drawPile == [] then t.phase == PhaseRoundOver && t.roundOver && t.endReason == DeckExhaust
                else t.phase == PhaseMeld && !t.roundOver)
            && t.knockDark == s.knockDark
  {
  }

  lemma PickUpEffect(s: State, p: int, a: Action)
    requires Orderly(s) && a.DrawDiscard? && Apply(s, p, a).Accepted?
    ensures var t, ti := Apply(s, p, a).state, TargetIndex(s.discardPile, a.target);
            && s.phase == PhaseDraw && s.turn == p && !s.firstMove && ti >= 0
            && t.phase == PhaseMeld && !t.roundOver && t.knockDark == s.knockDark
            && Quiet(PileTaken(s, p, ti), t)
  {
    hide MakeMeld, LaidOff, WithMeld, WithLayOff, Removed, HandContains, Quiet;
    var ti := TargetIndex(s.discardPile, a.target);
    var target, above := s.discardPile[ti], s.discardPile[ti + 1..];
    if a.onto.Some? {
      var mi := FindMeld(s.melds, a.onto.value);
      var u := LaidOff(s.melds[mi], [target], s.rules.minMeldLen).value;
      WithLayOffIsQuiet(PileTaken(s, p, ti), p, mi, u, [target], s.players[p].hand + above);
    } else {
      var s' := s.(nextMeldSeq := s.nextMeldSeq + 1);
      var m := MakeMeld(s'.nextMeldSeq, a.support + [target], p, s.rules.minMeldLen).value;
      var hand := Removed(s.players[p].hand + Extras(a.support, above), FromHand(a.support, above));
      WithMeldIsQuiet(PileTaken(s', p, ti), p, m, hand);
      QuietNumber(s, p, ti, WithMeld(PileTaken(s', p, ti), p, m, hand));
    }
  }

  lemma QuietNumber(s: State, p: nat, ti: nat, t: State)
    requires Shaped(s) && ti < |s.discardPile|
    requires Quiet(PileTaken(s.(nextMeldSeq := s.nextMeldSeq + 1), p, ti), t)
    ensures Quiet(PileTaken(s, p, ti), t)
  {
  }

  lemma DiscardEffect(s: State, p: int, c: Card)
    requires Orderly(s) && Apply(s, p, Discard(c)).Accepted?
    ensures var t := Apply(s, p, Discard(c)).state;
            && Melding(s, p) && t.phase == PhaseDraw && !t.roundOver && c in s.players[p].hand
            && t.turn == (s.turn + 1) % |s.players| && |t.players| == |s.players|
            && t.players[t.turn].producedAtTurnStart == t.players[t.turn].produced
            && t.discardPile == s.discardPile + [c] && t.discardedBy == s.discardedBy + [p]
            && t.dumpPenalties == DumpCharged(s, p, c).dumpPenalties
            && t.rules == s.rules && t.headCard == s.headCard && t.firstMove == s.firstMove
            && t.headOwner == s.headOwner
            && t.melds == s.melds && t.knockDark == s.knockDark
            && forall q :: 0 <= q < |s.players| ==> t.players[q].id == s.players[q].id
  {
    hide DumpCharged, Removed;
    DumpCharges(s, p, c);
    assert HandContains(s.players[p].hand, [c]);
    assert c in multiset([c]);
    assert c in multiset(s.players[p].hand);
  }

  lemma DumpCharges(s: State, p: nat, c: Card)
    requires p < |s.dumpPenalties|
    ensures var t := DumpCharged(s, p, c); t == s.(dumpPenalties := t.dumpPenalties)
  {
    hide LayableOnAny;
  }

  lemma AutoKnockEffect(s: State, p: int)
    requires Sound(s) && Apply(s, p, AutoKnock).Accepted?
    ensures var t := Apply(s, p, AutoKnock).state;
            && Melding(s, p) && Quiet(s, t) && t.roundOver && t.phase == PhaseRoundOver
            && t.endReason == ByKnock && t.knocker == p && !t.knockDark
  {
    hide Apply, Sound, Quiet;
    var acts := AutoKnockIsRun(s, p);
    GoingOutIsQuiet(s, p, acts);
  }

  // ----- turns -------------------------------------------------------------------------

  /** The last action of a round: a knock, or drawing from an empty deck. */
  predicate Ends(e: Entry) {
    e.action.Knock? || e.action.AutoKnock? || (e.action.DrawDeck? && e.before.drawPile == [])
  }

  function Discards(h: seq<Entry>): nat {
    if h == [] then 0
    else Discards(h[..|h| - 1]) + if h[|h| - 1].action.Discard? then 1 else 0
  }

  /** Round-robin turns of one draw, then melds and lay-offs, then one discard; the first draw
      is from the deck, and only the last action of all may end the round. */
  predicate WellPlayed(h: seq<Entry>, n: nat)
    requires n > 0
  {
    forall i :: 0 <= i < |h| ==> Follows(h, n, i)
  }

  /** What entry i must be: by the seat whose turn it is, a draw exactly at the start of the
      round or after a discard, from the deck if it is the first, and not ending the round
      unless it is the last. */
  predicate Follows(h: seq<Entry>, n: nat, i: nat)
    requires n > 0 && i < |h|
  {
    && h[i].player == Discards(h[..i]) % n
    && IsDraw(h[i].action) == (i == 0 || h[i - 1].action.Discard?)
    && (i == 0 ==> h[i].action.DrawDeck?)
    && (i < |h| - 1 ==> !Ends(h[i]))
  }

  /** How a state reflects the log that led to it. */
  ghost predicate TurnMatches(h: seq<Entry>, s: State) {
    && |s.players| > 0 && s.turn == Discards(h) % |s.players|
    && s.firstMove == (h == [])
    && s.roundOver == (h != [] && Ends(h[|h| - 1]))
    && (!s.roundOver ==> (s.phase == PhaseDraw) == (h == [] || h[|h| - 1].action.Discard?))
  }

  lemma NextTurn(d: nat, n: nat)
    requires 2 <= n <= 4
    ensures (d % n + 1) % n == (d + 1) % n
  {
    if n == 2 {
      NextOfTwo(d);
    } else if n == 3 {
      NextOfThree(d);
    } else {
      NextOfFour(d);
    }
  }

  lemma NextOfTwo(d: nat)
    ensures (d % 2 + 1) % 2 == (d + 1) % 2
  {
  }

  lemma NextOfThree(d: nat)
    ensures (d % 3 + 1) % 3 == (d + 1) % 3
  {
  }

  lemma NextOfFour(d: nat)
    ensures (d % 4 + 1) % 4 == (d + 1) % 4
  {
  }

  lemma LogGrows(h: seq<Entry>, e: Entry)
    ensures (h + [e])[..|h|] == h
    ensures Discards(h + [e]) == Discards(h) + if e.action.Discard? then 1 else 0
    ensures forall i :: 0 <= i <= |h| ==> (h + [e])[..i] == h[..i]
  {
    assert (h + [e])[..|h|] == h;
  }

  lemma WellPlayedGrows(h: seq<Entry>, e: Entry, n: nat)
    requires n > 0 && WellPlayed(h, n)
    requires e.player == Discards(h) % n
    requires IsDraw(e.action) == (h == [] || h[|h| - 1].action.Discard?)
    requires h == [] ==> e.action.DrawDeck?
    requires h != [] ==> !Ends(h[|h| - 1])
    ensures WellPlayed(h + [e], n)
  {
    hide Follows;
    LogGrows(h, e);
    var h' := h + [e];
    forall i | 0 <= i < |h'| ensures Follows(h', n, i) {
      if i < |h| {
        assert Follows(h, n, i);
        FollowsStill(h, e, n, i);
      } else {
        FollowsLast(h, e, n);
      }
    }
  }

  lemma FollowsStill(h: seq<Entry>, e: Entry, n: nat, i: nat)
    requires n > 0 && i < |h| && Follows(h, n, i) && !Ends(h[|h| - 1])
    ensures Follows(h + [e], n, i)
  {
    hide Discards, Ends;
    assert (h + [e])[..i] == h[..i];
  }

  lemma FollowsLast(h: seq<Entry>, e: Entry, n: nat)
    requires n > 0 && e.player == Discards(h) % n
    requires IsDraw(e.action) == (h == [] || h[|h| - 1].action.Discard?)
    requires h == [] ==> e.action.DrawDeck?
    ensures Follows(h + [e], n, |h|)
  {
    hide Discards, Ends;
    assert (h + [e])[..|h|] == h;
  }

  lemma TurnStep(h: seq<Entry>, s: State, p: int, a: Action)
    requires Sound(s) && Apply(s, p, a).Accepted?
    requires TurnMatches(h, s) && WellPlayed(h, |s.players|)
    ensures var t := Apply(s, p, a).state;
            TurnMatches(h + [Entry(s, p, a)], t) && WellPlayed(h + [Entry(s, p, a)], |t.players|)
  {
    SoundIsOrderly(s);
    hide Sound, Discards, WellPlayed, Apply, Ends;
    var e := Entry(s, p, a);
    AcceptedTurn(s, p, a);
    WellPlayedGrows(h, e, |s.players|);
    TurnMatchesNext(h, s, e, Apply(s, p, a).state);
  }

  lemma TurnMatchesNext(h: seq<Entry>, s: State, e: Entry, t: State)
    requires TurnMatches(h, s) && !s.roundOver && 2 <= |s.players| <= 4 && |t.players| == |s.players|
    requires IsDraw(e.action) == (s.phase == PhaseDraw)
    requires t.turn == if e.action.Discard? then (s.turn + 1) % |s.players| else s.turn
    requires t.roundOver == Ends(e) && (!t.roundOver ==> (t.phase == PhaseDraw) == e.action.Discard?)
    requires if IsDraw(e.action) then !t.firstMove else t.firstMove == s.firstMove
    ensures TurnMatches(h + [e], t)
  {
    hide Discards, Ends;
    LogGrows(h, e);
    assert (h + [e])[|h|] == e;
    if e.action.Discard? {
      NextTurn(Discards(h), |s.players|);
    }
  }

  /** Who may act when, and what follows. */
  lemma AcceptedTurn(s: State, p: int, a: Action)
    requires Sound(s) && Apply(s, p, a).Accepted?
    ensures var t := Apply(s, p, a).state;
            && p == s.turn && !s.roundOver && IsDraw(a) == (s.phase == PhaseDraw)
            && (s.firstMove && s.phase == PhaseDraw ==> a.DrawDeck?)
            && |t.players| == |s.players|
            && t.turn == (if a.Discard? then (s.turn + 1) % |s.players| else s.turn)
            && t.roundOver == Ends(Entry(s, p, a))
            && (!t.roundOver ==> (t.phase == PhaseDraw) == a.Discard?)
            && (if IsDraw(a) then !t.firstMove else t.firstMove == s.firstMove)
  {
    hide Apply, Sound, Quiet;
    SoundIsOrderly(s);
    match a
    case DrawDeck =>
      DrawDeckEffect(s, p);
      QuietFacts(s.(firstMove := false), Apply(s, p, a).state);
    case DrawDiscard(target, _, _) =>
      PickUpEffect(s, p, a);
      QuietFacts(PileTaken(s, p, TargetIndex(s.discardPile, target)), Apply(s, p, a).state);
    case LayMeld(_) =>
      LayingIsQuiet(s, p, a);
      QuietFacts(s, Apply(s, p, a).state);
    case LayOffCards(_, _) =>
      LayingIsQuiet(s, p, a);
      QuietFacts(s, Apply(s, p, a).state);
    case Knock(_, _) =>
      KnockIsQuiet(s, p, a);
      QuietFacts(s, Apply(s, p, a).state);
    case AutoKnock =>
      AutoKnockEffect(s, p);
      QuietFacts(s, Apply(s, p, a).state);
    case Discard(c) => DiscardEffect(s, p, c);
  }

  lemma SoundIsOrderly(s: State)
    requires Sound(s)
    ensures Orderly(s)
  {
  }

  lemma QuietFacts(s: State, t: State)
    requires Quiet(s, t)
    ensures t.turn == s.turn && t.firstMove == s.firstMove && |t.players| == |s.players|
    ensures t.discardPile == s.discardPile && t.discardedBy == s.discardedBy
    ensures t.dumpPenalties == s.dumpPenalties && t.rules == s.rules
  {
  }

  /** Players keep their seats, whatever is attempted. */
  lemma SeatsStay(s: State, p: int, a: Action)
    requires Sound(s)
    ensures var t := Apply(s, p, a).state;
            && |t.players| == |s.players| && t.rules == s.rules
            && forall q :: 0 <= q < |s.players| ==> t.players[q].id == s.players[q].id
  {
    SoundIsOrderly(s);
    hide Apply, Sound;
    if Apply(s, p, a).Rejected? {
      RejectionUndoesNothing(s, p, a);
    } else {
      match a
      case DrawDeck => DrawDeckEffect(s, p);
      case DrawDiscard(_, _, _) => PickUpEffect(s, p, a);
      case LayMeld(_) => LayingIsQuiet(s, p, a);
      case LayOffCards(_, _) => LayingIsQuiet(s, p, a);
      case Knock(_, _) => KnockIsQuiet(s, p, a);
      case AutoKnock => AutoKnockEffect(s, p);
      case Discard(c) => DiscardEffect(s, p, c);
    }
  }

  /** The accepted actions of any run, from any deal, form such turns, and the state shows
      whose turn it is and whether the round has ended. */
  lemma {:induction false} TurnGrammar(s: State, attempts: seq<Attempt>)
    requires Initial(s) && Shaped(s)
    ensures TurnMatches(Log(s, attempts), Play(s, attempts))
    ensures WellPlayed(Log(s, attempts), |Play(s, attempts).players|)
    ensures |Play(s, attempts).players| == |s.players|
  {
    hide Apply, Sound, TurnMatches, WellPlayed, Initial;
    InitialTurn(s);
    if attempts != [] {
      var n := |attempts| - 1;
      var before := Play(s, attempts[..n]);
      var p, a := attempts[n].player, attempts[n].action;
      TurnGrammar(s, attempts[..n]);
      RunIsSound(s, attempts[..n]);
      TurnNonEmpty(Log(s, attempts[..n]), before);
      if Apply(before, p, a).Accepted? {
        TurnStep(Log(s, attempts[..n]), before, p, a);
        AcceptedTurn(before, p, a);
      } else {
        RejectionUndoesNothing(before, p, a);
        TurnSame(Log(s, attempts[..n]), before, Apply(before, p, a).state);
      }
    }
  }

  lemma TurnNonEmpty(h: seq<Entry>, s: State)
    requires TurnMatches(h, s)
    ensures |s.players| > 0
  {
  }

  lemma TurnSame(h: seq<Entry>, s: State, t: State)
    requires TurnMatches(h, s) && t == s.(nextMeldSeq := t.nextMeldSeq)
    ensures TurnMatches(h, t)
  {
  }

  lemma InitialTurn(s: State)
    requires Initial(s)
    ensures |s.players| > 0 && TurnMatches([], s) && WellPlayed([], |s.players|)
  {
    hide FisherYates, Hands, RoomRules;
  }
}
