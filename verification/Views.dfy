/** What a view shows: everything public, the viewer's own hand, and whether the viewer can go
    out. */
module Views {
  import opened Bags
  import opened Cards
  import opened Solver
  import opened Rules
  import opened Runs
  import opened Invariants
  import opened Steps
  import opened HandSizes
  import opened RoomModel
  import opened RoomLayer

  // ----- the auto-knock button ---------------------------------------------------------

  lemma AutoKnockIffPlan(s: State, p: int)
    requires Sound(s)
    ensures Shaped(s)
    ensures Apply(s, p, AutoKnock).Accepted?
       <==> Melding(s, p) && Solve(s.players[p].hand, s.melds, s.rules.minMeldLen).Some?
  {
    hide Sound, Numbered, Solve, Replay;
    SoundIsShaped(s);
    SoundIsNumberedToo(s);
    if Apply(s, p, AutoKnock).Accepted? {
      AutoKnockHasPlan(s, p);
    } else if Melding(s, p) && Solve(s.players[p].hand, s.melds, s.rules.minMeldLen).Some? {
      NotKnockedYet(s);
      ReplayNeverFails(s, p);
    }
  }

  lemma SoundIsNumberedToo(s: State)
    requires Sound(s)
    ensures Numbered(s)
  {
  }

  lemma PlanIffGoingOut(s: State, p: nat)
    requires Sound(s) && Melding(s, p)
    ensures Solve(s.players[p].hand, s.melds, s.rules.minMeldLen).Some?
       <==> |s.players[p].hand| != 1 && CanGoOut(s, p)
  {
    hide Sound, Numbered, CanGoOut, FirstSome, KnockHits;
    SoundIsNumberedToo(s);
    NotKnockedYet(s);
    SolverExact(s, p);
  }

  lemma RoundOfRoom(r: RoomState)
    requires RoomOK(r) && r.game.Some?
    ensures Sound(r.game.value) && |r.seats| == |r.game.value.players|
  {
  }

  lemma ButtonIsLit(s: State, viewer: int)
    requires Sound(s)
    ensures ButtonLit(s, viewer)
       <==> Melding(s, viewer) && Solve(s.players[viewer].hand, s.melds, s.rules.minMeldLen).Some?
  {
    hide Conserved, TableOK, HeadOK, ProducedOK, Solve;
  }

  /** The button is lit exactly for a seat from which an auto-knock would be accepted; that is, in
      its meld phase, when it could go out by hand and has not just one card. */
  lemma ButtonExact(r: RoomState, viewer: int)
    requires RoomOK(r) && r.game.Some?
    ensures Sound(r.game.value) && |r.seats| <= |r.game.value.players|
    ensures var s := r.game.value;
            && (ViewOf(r, viewer).canAutoKnock <==> Apply(s, viewer, AutoKnock).Accepted?)
            && (ViewOf(r, viewer).canAutoKnock
                <==> Melding(s, viewer) && |s.players[viewer].hand| != 1 && CanGoOut(s, viewer))
  {
    RoundOfRoom(r);
    hide RoomOK, Sound, Solve, CanGoOut, Apply, ButtonLit, Numbered;
    var s := r.game.value;
    SoundIsShaped(s);
    ButtonIsLit(s, viewer);
    AutoKnockIffPlan(s, viewer);
    if Melding(s, viewer) {
      PlanIffGoingOut(s, viewer);
    }
  }

  lemma NoRoundNoButton(r: RoomState, viewer: int)
    requires r.game.None?
    ensures !ViewOf(r, viewer).started && !ViewOf(r, viewer).canAutoKnock
  {
  }

  // ----- what else is shown ------------------------------------------------------------

  /** Views that are equal show one and the same: the same hand of the viewer's, phase, turn,
      piles, melds, hand sizes, number of cards to draw, names and seated guests' scores. */
  lemma ViewsTell(r: RoomState, q: RoomState, viewer: int)
    requires RoomOK(r) && RoomOK(q) && ViewOf(r, viewer) == ViewOf(q, viewer)
    ensures r.game.Some? == q.game.Some? && |r.seats| == |q.seats|
    ensures forall i :: 0 <= i < |r.seats| ==>
              && r.seats[i].name == q.seats[i].name && r.seats[i].ready == q.seats[i].ready
              && r.seats[i].connected == q.seats[i].connected
    ensures r.game.Some? ==>
              var s, t := r.game.value, q.game.value;
              && s.phase == t.phase && s.turn == t.turn && s.headCard == t.headCard
              && s.discardPile == t.discardPile && |s.drawPile| == |t.drawPile|
              && MeldsShown(s.melds) == MeldsShown(t.melds) && |s.melds| == |t.melds|
              && |s.players| == |t.players|
              && (forall i :: 0 <= i < |s.players| ==> |s.players[i].hand| == |t.players[i].hand|)
              && (0 <= viewer < |s.players| ==> s.players[viewer].hand == t.players[viewer].hand)
  {
    hide Sound, ScoresMatch, Solve, ButtonLit, RoomRules, SeatScores;
    if r.game.Some? {
      RoundOfRoom(r);
      RoundOfRoom(q);
      var s, t := r.game.value, q.game.value;
      SamePlaying(r.seats, s.players, q.seats, t.players);
      assert |MeldsShown(s.melds)| == |s.melds| && |MeldsShown(t.melds)| == |t.melds|;
    } else {
      SameWaiting(r.seats, q.seats);
    }
  }

  lemma SamePlaying(a: seq<Seat>, ps: seq<Player>, b: seq<Seat>, qs: seq<Player>)
    requires |a| <= |ps| && |b| <= |qs| && PlayingSeats(a, ps) == PlayingSeats(b, qs)
    ensures |a| == |b|
    ensures forall i :: 0 <= i < |a| ==>
              && a[i].name == b[i].name && a[i].ready == b[i].ready
              && a[i].connected == b[i].connected && |ps[i].hand| == |qs[i].hand|
  {
    var v, w := PlayingSeats(a, ps), PlayingSeats(b, qs);
    assert |v| == |a| && |w| == |b|;
    forall i | 0 <= i < |a|
      ensures a[i].name == b[i].name && a[i].ready == b[i].ready
      ensures a[i].connected == b[i].connected && |ps[i].hand| == |qs[i].hand|
    {
      assert v[i] == SeatView(a[i], i, |ps[i].hand|, a[i].botMode);
      assert w[i] == SeatView(b[i], i, |qs[i].hand|, b[i].botMode);
    }
  }

  lemma SameWaiting(a: seq<Seat>, b: seq<Seat>)
    requires WaitingSeats(a) == WaitingSeats(b)
    ensures |a| == |b|
    ensures forall i :: 0 <= i < |a| ==>
              && a[i].name == b[i].name && a[i].ready == b[i].ready && a[i].connected == b[i].connected
  {
    var v, w := WaitingSeats(a), WaitingSeats(b);
    assert |v| == |a| && |w| == |b|;
    forall i | 0 <= i < |a|
      ensures a[i].name == b[i].name && a[i].ready == b[i].ready && a[i].connected == b[i].connected
    {
      assert v[i] == SeatView(a[i], i, 0, false) && w[i] == SeatView(b[i], i, 0, false);
    }
  }

  /** Row by row, what a view says is so. */
  ghost predicate RowsTrue(r: RoomState, v: StateView) {
    && |v.players| == |r.seats|
    && forall i :: 0 <= i < |r.seats| ==>
         var row, seat := v.players[i], r.seats[i];
         && row.seat == i && row.name == seat.name && row.ready == seat.ready
         && row.connected == seat.connected
         && (r.game.Some? ==>
               && |r.seats| <= |r.game.value.players|
               && row.handCount == |r.game.value.players[i].hand| && row.botMode == seat.botMode)
         && (r.game.None? ==> row.handCount == 0 && !row.botMode)
         && seat.guestID in v.matchScores
         && v.matchScores[seat.guestID] == ScoreFor(r.scores, seat.guestID)
  }

  ghost predicate TableTrue(s: State, v: StateView) {
    && v.started && v.phase == s.phase && v.turn == s.turn && v.headCard == Some(s.headCard)
    && v.discardPile == s.discardPile && v.drawCount == |s.drawPile|
    && (s.discardPile == [] ==> v.discardTop.None?)
    && (s.discardPile != [] ==> v.discardTop == Some(s.discardPile[|s.discardPile| - 1]))
    && |v.melds| == |s.melds|
    && forall i :: 0 <= i < |s.melds| ==>
         var m, n := v.melds[i], s.melds[i];
         m.id == n.id && m.kind == n.kind && m.cards == n.cards && m.owner == n.owner
  }

  /** What a view says is so, and it shows no hand but the viewer's own. */
  lemma ViewIsTrue(r: RoomState, viewer: int)
    requires RoomOK(r)
    ensures r.game.Some? ==> |r.seats| <= |r.game.value.players|
    ensures var v := ViewOf(r, viewer);
            && v.yourSeat == viewer && RowsTrue(r, v)
            && (v.started <==> r.game.Some?)
            && (r.game.Some? ==> TableTrue(r.game.value, v))
            && v.yourHand == if r.game.Some? && 0 <= viewer < |r.game.value.players|
                             then r.game.value.players[viewer].hand else []
  {
    hide RoomOK, Solve, ButtonLit, ScoreFor, SeatScores, RowsTrue, TableTrue;
    if r.game.Some? {
      RoundOfRoom(r);
      TableShown(r, viewer);
    }
    RowsShown(r, viewer);
  }

  lemma TableShown(r: RoomState, viewer: int)
    requires r.game.Some? && |r.seats| <= |r.game.value.players|
    ensures TableTrue(r.game.value, ViewOf(r, viewer))
  {
    hide Solve, ButtonLit, SeatScores, PlayingSeats, HandShown;
  }

  lemma RowsShown(r: RoomState, viewer: int)
    requires RoomOK(r) && (r.game.Some? ==> |r.seats| <= |r.game.value.players|)
    ensures RowsTrue(r, ViewOf(r, viewer))
  {
    hide RoomOK, Solve, ButtonLit, SeatScores, MeldsShown, HandShown, ScoreFor;
    ScoresShown(r);
  }

  lemma ScoresShown(r: RoomState)
    requires RoomOK(r)
    ensures var shown := SeatScores(r.seats, r.scores);
            forall i :: 0 <= i < |r.seats| ==>
              r.seats[i].guestID in shown
              && shown[r.seats[i].guestID] == ScoreFor(r.scores, r.seats[i].guestID)
  {
    hide Sound, ScoresMatch, RoomRules, ScoreFor;
    forall i | 0 <= i < |r.seats|
      ensures r.seats[i].guestID in SeatScores(r.seats, r.scores)
    {
      assert r.seats[i] in r.seats;
    }
  }
}
