/** Over a whole run: which knocks count as dark, and what each seat is charged for its
    discards, told from the log of accepted actions alone. */
module Attribution {
  import opened Cards
  import opened Melds
  import opened Deck
  import opened Rules
  import opened LayOff
  import opened Runs
  import opened Invariants
  import opened Steps
  import opened History
  import opened Grammar

  // ----- dark knocks -------------------------------------------------------------------

  /** The table as it was when the turn began whose actions so far lead to s. */
  function TableAtTurnStart(h: seq<Entry>, s: State): seq<Meld>
    decreases |h|
  {
    if h == [] then s.melds
    else
      var e := h[|h| - 1];
      if e.action.Discard? then s.melds
      else if IsDraw(e.action) then e.before.melds
      else TableAtTurnStart(h[..|h| - 1], e.before)
  }

  /** The active player's flag tells whether they owned a meld when the turn began, and a
      knock is dark exactly when it claims to be and they owned none. */
  ghost predicate DarkMatches(h: seq<Entry>, s: State) {
    && s.turn < |s.players|
    && (!s.roundOver ==>
          s.players[s.turn].producedAtTurnStart == Owns(TableAtTurnStart(h, s), s.turn))
    && (s.roundOver && s.endReason == ByKnock ==>
          && h != [] && s.knocker == s.turn
          && var a := h[|h| - 1].action;
             s.knockDark == (a.Knock? && a.dark && !Owns(TableAtTurnStart(h, s), s.turn)))
  }

  lemma TurnTable(h: seq<Entry>, s: State, p: int, a: Action, t: State)
    ensures TableAtTurnStart(h + [Entry(s, p, a)], t) ==
            if a.Discard? then t.melds else if IsDraw(a) then s.melds else TableAtTurnStart(h, s)
  {
    assert (h + [Entry(s, p, a)])[..|h|] == h;
  }

  /** At the start of a turn nothing has happened yet. */
  lemma FreshTurn(h: seq<Entry>, s: State)
    requires TurnMatches(h, s) && !s.roundOver && s.phase == PhaseDraw
    ensures TableAtTurnStart(h, s) == s.melds
  {
  }

  lemma DarkStep(h: seq<Entry>, s: State, p: int, a: Action)
    requires Sound(s) && Apply(s, p, a).Accepted? && TurnMatches(h, s) && DarkMatches(h, s)
    ensures DarkMatches(h + [Entry(s, p, a)], Apply(s, p, a).state)
  {
    SoundIsOrderly(s);
    ProducedFlag(Apply(s, p, a).state) by { ActionKeepsSound(s, p, a); }
    AcceptedTurn(s, p, a);
    var t := Apply(s, p, a).state;
    TurnTable(h, s, p, a, t);
    hide Apply, Sound, TableAtTurnStart, Owns;
    match a
    case DrawDeck =>
      DrawDeckEffect(s, p);
      FreshTurn(h, s);
    case DrawDiscard(target, _, _) =>
      PickUpEffect(s, p, a);
      FreshTurn(h, s);
    case LayMeld(_) => LayingIsQuiet(s, p, a);
    case LayOffCards(_, _) => LayingIsQuiet(s, p, a);
    case Knock(_, _) => KnockIsQuiet(s, p, a);
    case AutoKnock => AutoKnockEffect(s, p);
    case Discard(c) => DiscardEffect(s, p, c);
  }

  lemma ProducedFlag(s: State)
    requires Sound(s)
    ensures s.turn < |s.players| && s.players[s.turn].produced == Owns(s.melds, s.turn)
  {
  }

  // ----- penalties ---------------------------------------------------------------------

  /** Who discarded card c last, or -1 for a card no one has discarded. */
  function LatestDiscarder(h: seq<Entry>, c: Card): int {
    if h == [] then -1
    else if h[|h| - 1].action == Discard(c) then h[|h| - 1].player
    else LatestDiscarder(h[..|h| - 1], c)
  }

  /** Seat q threw away a card whose lay-off would have been accepted instead. */
  ghost predicate FullDump(e: Entry, q: int) {
    && e.action.Discard? && e.player == q && Shaped(e.before)
    && exists id: MeldId :: Apply(e.before, q, LayOffCards(id, [e.action.card])).Accepted?
  }

  /** The engine charges exactly those discards. */
  lemma LayableIffLayOffAccepted(s: State, p: nat, c: Card)
    requires Sound(s) && Melding(s, p) && c in s.players[p].hand
    ensures LayableOnAny(s.melds, c, s.rules.minMeldLen)
       <==> exists id: MeldId :: Apply(s, p, LayOffCards(id, [c])).Accepted?
  {
    hide Apply, LaidOff, Conserved, HeadOK, ProducedOK, ValidMeld;
    var minLen := s.rules.minMeldLen;
    assert c in multiset(s.players[p].hand);
    if LayableOnAny(s.melds, c, minLen) {
      var m :| m in s.melds && LaidOff(m, [c], minLen).Some?;
      var i :| 0 <= i < |s.melds| && s.melds[i] == m;
      assert FindMeld(s.melds, m.id) == i;
      LayOffAccepted(s, p, m.id, [c]);
    }
    if id: MeldId :| Apply(s, p, LayOffCards(id, [c])).Accepted? {
      LayOffAccepted(s, p, id, [c]);
    }
  }

  /** Another seat picked up, as its target, a card that seat q had thrown away last. */
  predicate DummyDump(h: seq<Entry>, e: Entry, q: int) {
    && e.action.DrawDiscard? && e.player != q
    && var ti := TargetIndex(e.before.discardPile, e.action.target);
       ti >= 0 && LatestDiscarder(h, e.before.discardPile[ti]) == q
  }

  /** How often seat q was charged over a run. */
  ghost function Charges(h: seq<Entry>, q: int): nat {
    if h == [] then 0
    else
      var init, e := h[..|h| - 1], h[|h| - 1];
      Charges(init, q) + if FullDump(e, q) || DummyDump(init, e, q) then 1 else 0
  }

  /** The pile's record names each card's latest discarder, and each seat's penalty is the
      number of its charges times the penalty. */
  ghost predicate PenaltiesMatch(h: seq<Entry>, s: State) {
    && |s.discardedBy| == |s.discardPile| && |s.dumpPenalties| == |s.players|
    && (forall i :: 0 <= i < |s.discardPile| ==>
          s.discardedBy[i] == LatestDiscarder(h, s.discardPile[i]))
    && forall q :: 0 <= q < |s.players| ==>
         s.dumpPenalties[q] == s.rules.dumpPenalty * Charges(h, q)
  }

  lemma HistoryGrows(h: seq<Entry>, e: Entry)
    ensures forall c :: LatestDiscarder(h + [e], c)
                     == if e.action == Discard(c) then e.player else LatestDiscarder(h, c)
    ensures forall q :: Charges(h + [e], q)
                     == Charges(h, q) + if FullDump(e, q) || DummyDump(h, e, q) then 1 else 0
  {
    assert (h + [e])[..|h|] == h;
  }

  lemma OneMore(x: int, n: nat)
    ensures x * (n + 1) == x * n + x
  {
  }

  lemma QuietPenalties(h: seq<Entry>, s: State, e: Entry, t: State)
    requires PenaltiesMatch(h, s) && Quiet(s, t) && !e.action.Discard? && !e.action.DrawDiscard?
    ensures PenaltiesMatch(h + [e], t)
  {
    hide LatestDiscarder, Charges;
    HistoryGrows(h, e);
  }

  lemma PickUpPenalties(h: seq<Entry>, s: State, p: int, a: Action)
    requires Orderly(s) && a.DrawDiscard? && Apply(s, p, a).Accepted? && PenaltiesMatch(h, s)
    ensures PenaltiesMatch(h + [Entry(s, p, a)], Apply(s, p, a).state)
  {
    hide LatestDiscarder, Charges;
    var e, ti := Entry(s, p, a), TargetIndex(s.discardPile, a.target);
    HistoryGrows(h, e);
    PickUpEffect(s, p, a);
    hide Apply;
    forall q | 0 <= q < |s.players|
      ensures Charged(s, p, ti)[q] == s.rules.dumpPenalty * Charges(h + [e], q)
    {
      OneMore(s.rules.dumpPenalty, Charges(h, q));
      assert DummyDump(h, e, q) == (p != q && s.discardedBy[ti] == q);
    }
  }

  /** A card in a hand is not in the discard pile. */
  lemma HandNotInPile(s: State, p: nat, c: Card)
    requires Sound(s) && p < |s.players| && c in s.players[p].hand
    ensures c !in s.discardPile
  {
    OnceEach(s, c);
    HandInBag(s.players, p, c);
    assert c in multiset(s.players[p].hand);
    assert c in s.discardPile <==> c in multiset(s.discardPile);
  }

  lemma DiscardPenalties(h: seq<Entry>, s: State, p: int, c: Card)
    requires Sound(s) && Apply(s, p, Discard(c)).Accepted? && PenaltiesMatch(h, s)
    ensures PenaltiesMatch(h + [Entry(s, p, Discard(c))], Apply(s, p, Discard(c)).state)
  {
    hide LatestDiscarder, Charges, LayableOnAny;
    var e, t := Entry(s, p, Discard(c)), Apply(s, p, Discard(c)).state;
    HistoryGrows(h, e);
    DiscardEffect(s, p, c);
    HandNotInPile(s, p, c);
    LayableIffLayOffAccepted(s, p, c);
    hide Apply, Sound;
    forall i | 0 <= i < |t.discardPile|
      ensures t.discardedBy[i] == LatestDiscarder(h + [e], t.discardPile[i])
    {
      if i < |s.discardPile| {
        assert s.discardPile[i] in s.discardPile;
      }
    }
    forall q | 0 <= q < |s.players|
      ensures t.dumpPenalties[q] == s.rules.dumpPenalty * Charges(h + [e], q)
    {
      OneMore(s.rules.dumpPenalty, Charges(h, q));
    }
  }

  lemma PenaltyStep(h: seq<Entry>, s: State, p: int, a: Action)
    requires Sound(s) && Apply(s, p, a).Accepted? && PenaltiesMatch(h, s)
    ensures PenaltiesMatch(h + [Entry(s, p, a)], Apply(s, p, a).state)
  {
    SoundIsOrderly(s);
    hide Apply, Sound, PenaltiesMatch, Quiet;
    var e, t := Entry(s, p, a), Apply(s, p, a).state;
    match a
    case DrawDeck =>
      DrawDeckEffect(s, p);
      PenaltiesSame(h, s, s.(firstMove := false));
      QuietPenalties(h, s.(firstMove := false), e, t);
    case DrawDiscard(_, _, _) => PickUpPenalties(h, s, p, a);
    case LayMeld(_) =>
      LayingIsQuiet(s, p, a);
      QuietPenalties(h, s, e, t);
    case LayOffCards(_, _) =>
      LayingIsQuiet(s, p, a);
      QuietPenalties(h, s, e, t);
    case Knock(_, _) =>
      KnockIsQuiet(s, p, a);
      QuietPenalties(h, s, e, t);
    case AutoKnock =>
      AutoKnockEffect(s, p);
      QuietPenalties(h, s, e, t);
    case Discard(c) => DiscardPenalties(h, s, p, c);
  }

  lemma PenaltiesSame(h: seq<Entry>, s: State, t: State)
    requires PenaltiesMatch(h, s)
    requires t == s.(firstMove := t.firstMove, nextMeldSeq := t.nextMeldSeq)
    ensures PenaltiesMatch(h, t)
  {
  }

  lemma DarkSame(h: seq<Entry>, s: State, t: State)
    requires DarkMatches(h, s) && t == s.(nextMeldSeq := t.nextMeldSeq)
    ensures DarkMatches(h, t)
  {
    SameTurnTable(h, s, t);
    hide TableAtTurnStart;
  }

  lemma SameTurnTable(h: seq<Entry>, s: State, t: State)
    requires t.melds == s.melds
    ensures TableAtTurnStart(h, t) == TableAtTurnStart(h, s)
  {
  }

  // ----- whole runs --------------------------------------------------------------------

  lemma InitialAttribution(s: State)
    requires Initial(s)
    ensures DarkMatches([], s) && PenaltiesMatch([], s)
  {
    hide FisherYates, Hands, RoomRules;
  }

  /** In every state of every run: the discard record names each card's latest discarder,
      penalties are exactly the charges of the run, and a recorded dark knock was claimed by a
      player who owned no meld when the turn began. */
  lemma {:induction false} RunAttribution(s: State, attempts: seq<Attempt>)
    requires Initial(s) && Shaped(s)
    ensures DarkMatches(Log(s, attempts), Play(s, attempts))
    ensures PenaltiesMatch(Log(s, attempts), Play(s, attempts))
  {
    hide Apply, Sound, DarkMatches, PenaltiesMatch, TurnMatches, Initial;
    InitialAttribution(s);
    if attempts != [] {
      var n := |attempts| - 1;
      var before, h := Play(s, attempts[..n]), Log(s, attempts[..n]);
      var p, a := attempts[n].player, attempts[n].action;
      RunAttribution(s, attempts[..n]);
      TurnGrammar(s, attempts[..n]);
      RunIsSound(s, attempts[..n]);
      if Apply(before, p, a).Accepted? {
        DarkStep(h, before, p, a);
        PenaltyStep(h, before, p, a);
      } else {
        RejectionUndoesNothing(before, p, a);
        DarkSame(h, before, Apply(before, p, a).state);
        PenaltiesSame(h, before, Apply(before, p, a).state);
      }
    }
  }

  /** Only the head card, and only while no one has melded it, is in the pile without having
      been discarded by anyone. */
  lemma OnlyHeadUndiscarded(s: State, attempts: seq<Attempt>, i: nat)
    requires Initial(s) && Shaped(s)
    requires i < |Play(s, attempts).discardPile|
    ensures var t := Play(s, attempts);
            LatestDiscarder(Log(s, attempts), t.discardPile[i]) == -1
            <==> i == 0 && t.headOwner == -1
  {
    hide Apply, Initial, TableOK, ProducedOK, Charges, DarkMatches;
    RunAttribution(s, attempts);
    RunIsSound(s, attempts);
    HeadNeverDiscarded(s, attempts);
  }

  /** The head card is never discarded: it is never in a hand. */
  lemma {:induction false} HeadNeverDiscarded(s: State, attempts: seq<Attempt>)
    requires Initial(s) && Shaped(s)
    ensures Play(s, attempts).headCard == s.headCard
    ensures LatestDiscarder(Log(s, attempts), s.headCard) == -1
  {
    hide Apply, Sound, Initial, Quiet;
    if attempts != [] {
      var n := |attempts| - 1;
      var before, h := Play(s, attempts[..n]), Log(s, attempts[..n]);
      var p, a := attempts[n].player, attempts[n].action;
      HeadNeverDiscarded(s, attempts[..n]);
      RunIsSound(s, attempts[..n]);
      HeadKept(before, p, a);
      HistoryGrows(h, Entry(before, p, a));
    }
  }

  lemma HeadKept(s: State, p: int, a: Action)
    requires Sound(s)
    ensures Apply(s, p, a).state.headCard == s.headCard
    ensures Apply(s, p, a).Accepted? ==> a != Discard(s.headCard)
  {
    SoundIsOrderly(s);
    hide Apply, Sound;
    if Apply(s, p, a).Rejected? {
      RejectionUndoesNothing(s, p, a);
    } else {
      match a
      case DrawDeck => DrawDeckEffect(s, p);
      case DrawDiscard(_, _, _) => PickUpEffect(s, p, a);
      case LayMeld(_) => LayingIsQuiet(s, p, a);
      case LayOffCards(_, _) => LayingIsQuiet(s, p, a);
      case Knock(_, _) => KnockIsQuiet(s, p, a);
      case AutoKnock => AutoKnockEffect(s, p);
      case Discard(c) =>
        DiscardEffect(s, p, c);
        HeadInOnePlace(s);
    }
  }

  // ----- the head bonus ----------------------------------------------------------------

  /** Only picking the head card itself up from the bottom of the pile decides who earns the
      head bonus, and that is never revised. */
  lemma HeadBonusByPickUpOnly(s: State, p: int, a: Action)
    requires Sound(s)
    ensures var o := Apply(s, p, a);
            o.state.headOwner != s.headOwner ==>
              s.headOwner == -1 && o.Accepted? && a.DrawDiscard?
              && TargetIndex(s.discardPile, a.target) == 0
  {
    SoundIsOrderly(s);
    var t := Apply(s, p, a).state;
    HeadInOnePlace(s);
    ActionKeepsSound(s, p, a);
    HeadInOnePlace(t);
    hide Apply, Sound;
    if Apply(s, p, a).Rejected? {
      RejectionUndoesNothing(s, p, a);
    } else {
      match a
      case DrawDeck => DrawDeckEffect(s, p);
      case DrawDiscard(target, _, _) =>
        PickUpEffect(s, p, a);
        var ti := TargetIndex(s.discardPile, target);
        assert ti > 0 ==> s.discardPile[..ti][0] == s.discardPile[0];
      case LayMeld(_) => LayingIsQuiet(s, p, a);
      case LayOffCards(_, _) => LayingIsQuiet(s, p, a);
      case Knock(_, _) => KnockIsQuiet(s, p, a);
      case AutoKnock => AutoKnockEffect(s, p);
      case Discard(c) => DiscardEffect(s, p, c);
    }
  }
}
