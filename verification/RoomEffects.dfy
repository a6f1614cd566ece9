/** What each lock section does to a room's seats and rounds, guest by guest. */
module RoomEffects {
  import opened Bags
  import opened Cards
  import opened Deck
  import opened Rules
  import opened Invariants
  import opened RoomModel

  ghost predicate Seated(r: RoomState, guest: string) {
    exists i :: 0 <= i < |r.seats| && r.seats[i].guestID == guest
  }

  lemma SeatOfIff(r: RoomState, guest: string)
    ensures SeatOf(r.seats, guest) == -1 <==> !Seated(r, guest)
  {
    var k := SeatOf(r.seats, guest);
    assert k != -1 ==> r.seats[k].guestID == guest;
  }

  // ----- who gets a seat ---------------------------------------------------------------

  /** A newcomer is seated while no round is on and a seat is free; who joins must know the
      password of a protected room. */
  ghost predicate GetsSeat(r: RoomState, e: Event) {
    && (e.Join? || e.Attach?) && !Seated(r, e.guest) && r.game.None? && |r.seats| < r.maxPlayers
    && (e.Join? && r.password != "" ==> e.password == r.password)
  }

  /** What a joining guest is told. */
  lemma JoinErrorIff(r: RoomState, guest: string, password: string)
    ensures var e := JoinError(r, guest, password);
            && (e.None? <==> Seated(r, guest) || GetsSeat(r, Join(guest, "", password)))
            && (e == Some(BadPassword) <==>
                  !Seated(r, guest) && r.password != "" && password != r.password)
            && (e == Some(RoomStarted) <==>
                  && !Seated(r, guest) && (r.password == "" || password == r.password)
                  && r.game.Some?)
            && (e == Some(RoomFull) <==>
                  && !Seated(r, guest) && (r.password == "" || password == r.password)
                  && r.game.None? && |r.seats| >= r.maxPlayers)
  {
    SeatOfIff(r, guest);
    hide SeatOf, Seated;
  }

  /** What happens to a seat already taken. */
  function SeatAfter(r: RoomState, e: Event, seat: Seat): Seat {
    match e
    case Attach(guest, _) =>
      if seat.guestID == guest then seat.(connected := true, botMode := false) else seat
    case Detach(guest) => if seat.guestID == guest then seat.(connected := false) else seat
    case BotTakeover(guest, on) => if seat.guestID == guest then seat.(botMode := on) else seat
    case Ready(guest) => seat.(ready := seat.guestID == guest || (seat.ready && !r.finished))
    case FinishRound => seat.(ready := false)
    case _ => seat
  }

  ghost predicate SeatsAfter(r: RoomState, t: RoomState, e: Event) {
    && |t.seats| == |r.seats| + (if GetsSeat(r, e) then 1 else 0)
    && (forall i :: 0 <= i < |r.seats| ==> t.seats[i] == SeatAfter(r, e, r.seats[i]))
    && (GetsSeat(r, e) ==> t.seats[|r.seats|] == Seat(e.guest, e.name, false, false, e.Attach?))
  }

  /** Every event seats whom it should and does to every seat what it should, by guest. */
  lemma EventSeats(r: RoomState, e: Event)
    requires RoomOK(r) && Enabled(r, e)
    ensures Happened(r, e).Some? && SeatsAfter(r, Happened(r, e).value, e)
  {
    EventKeepsRoom(r, e);
    match e
    case Join(guest, _, _) => JoinSeats(r, e);
    case Attach(guest, _) => AttachSeats(r, e);
    case Detach(guest) => FlagSeats(r, e);
    case BotTakeover(guest, _) => FlagSeats(r, e);
    case Ready(guest) => ReadySeats(r, e);
    case FinishRound => FinishSeats(r);
    case _ => RoundSeats(r, e);
  }

  lemma JoinSeats(r: RoomState, e: Event)
    requires e.Join?
    ensures SeatsAfter(r, Happened(r, e).value, e)
  {
    SeatOfIff(r, e.guest);
    hide SeatOf, Seated;
  }

  lemma AttachSeats(r: RoomState, e: Event)
    requires e.Attach? && DistinctGuests(r.seats)
    ensures SeatsAfter(r, Happened(r, e).value, e)
  {
    SeatOfIff(r, e.guest);
    var k := SeatOf(r.seats, e.guest);
    OnlySeat(r.seats, k, e.guest);
    hide SeatOf, Seated, DistinctGuests;
  }

  lemma FlagSeats(r: RoomState, e: Event)
    requires (e.Detach? || e.BotTakeover?) && DistinctGuests(r.seats)
    ensures SeatsAfter(r, Happened(r, e).value, e)
  {
    OnlySeat(r.seats, SeatOf(r.seats, e.guest), e.guest);
    hide SeatFrom, Seated, DistinctGuests;
  }

  lemma ReadySeats(r: RoomState, e: Event)
    requires e.Ready? && DistinctGuests(r.seats)
    ensures SeatsAfter(r, Happened(r, e).value, e)
  {
    var seats := if r.finished then AllUnready(r.seats) else r.seats;
    OnlySeat(seats, SeatOf(seats, e.guest), e.guest);
    hide SeatFrom, Seated, DistinctGuests;
  }

  lemma FinishSeats(r: RoomState)
    requires CanFinish(r) && r.pending > 0
    ensures SeatsAfter(r, RoundFinished(r), FinishRound)
  {
    hide AddScores, TargetReached, Seated;
  }

  lemma RoundSeats(r: RoomState, e: Event)
    requires (e.StartRound? || e.GameAction?) && Enabled(r, e) && Happened(r, e).Some?
    ensures SeatsAfter(r, Happened(r, e).value, e)
  {
    hide Apply, Dealt, FisherYates, OrderedDeck, SeatFrom, Seated, Shaped;
  }

  /** The guest at seat k, or at none, sits nowhere else. */
  lemma OnlySeat(seats: seq<Seat>, k: int, guest: string)
    requires DistinctGuests(seats) && k == SeatOf(seats, guest)
    ensures forall i :: 0 <= i < |seats| ==> (seats[i].guestID == guest <==> i == k)
  {
  }

  lemma SeatedAfter(r: RoomState, e: Event, guest: string)
    requires RoomOK(r) && Enabled(r, e)
    ensures Happened(r, e).Some?
    ensures Seated(Happened(r, e).value, guest)
       <==> Seated(r, guest) || (GetsSeat(r, e) && e.guest == guest)
  {
    hide Happened, GetsSeat, RoomOK, Enabled;
    EventSeats(r, e);
    SeatedThen(r, Happened(r, e).value, e, guest);
  }

  lemma SeatedThen(r: RoomState, t: RoomState, e: Event, guest: string)
    requires SeatsAfter(r, t, e)
    ensures Seated(t, guest) <==> Seated(r, guest) || (GetsSeat(r, e) && e.guest == guest)
  {
    SameGuestAfter(r, e);
    hide GetsSeat, SeatAfter;
    if Seated(r, guest) {
      var i :| 0 <= i < |r.seats| && r.seats[i].guestID == guest;
      assert t.seats[i].guestID == guest;
    }
    if Seated(t, guest) {
      var i :| 0 <= i < |t.seats| && t.seats[i].guestID == guest;
      if i < |r.seats| {
        assert r.seats[i].guestID == guest;
      }
    }
    if GetsSeat(r, e) && e.guest == guest {
      assert t.seats[|r.seats|].guestID == guest;
    }
  }

  lemma SameGuestAfter(r: RoomState, e: Event)
    ensures forall seat: Seat :: SeatAfter(r, e, seat).guestID == seat.guestID
    ensures GetsSeat(r, e) ==> e.Join? || e.Attach?
  {
  }

  lemma Constants(r: RoomState, e: Event)
    requires Enabled(r, e) && Happened(r, e).Some?
    ensures var t := Happened(r, e).value;
            && t.maxPlayers == r.maxPlayers && t.targetScore == r.targetScore
            && t.password == r.password && t.rules == r.rules
  {
    hide Apply, Dealt, FisherYates, OrderedDeck, SeatOf, AddScores, TargetReached, Shaped;
  }

  /** The guest never attaches a connection, and joins with wrong passwords only. */
  predicate NeverAdmitted(events: seq<Event>, guest: string, password: string) {
    forall i :: 0 <= i < |events| ==>
      && (events[i].Join? && events[i].guest == guest ==> events[i].password != password)
      && (events[i].Attach? ==> events[i].guest != guest)
  }

  /** Whatever else happens in a protected room, a guest who only joins, and without the password,
      never has a seat. */
  lemma {:induction false} WrongPasswordNeverSeats(maxPlayers: nat, password: string, rules: RuleSet,
                                                  events: seq<Event>, guest: string)
    requires 2 <= maxPlayers <= 4 && RoomRules(rules)
    requires password != "" && NeverAdmitted(events, guest, password)
    ensures var t := Interleaved(NewRoom(maxPlayers, password, rules), events);
            t.Some? && !Seated(t.value, guest) && t.value.password == password
  {
    hide RoomOK, Happened, Enabled, Seated, GetsSeat;
    var r := NewRoom(maxPlayers, password, rules);
    if events == [] {
      NobodySits(maxPlayers, password, rules, guest);
    } else {
      var n := |events| - 1;
      WrongPasswordNeverSeats(maxPlayers, password, rules, events[..n], guest);
      RoundsFinishOnce(maxPlayers, password, rules, events[..n]);
      var t := Interleaved(r, events[..n]).value;
      if Enabled(t, events[n]) {
        SeatedAfter(t, events[n], guest);
        Constants(t, events[n]);
        NotAdmitted(t, events[n], guest);
      }
    }
  }

  lemma NobodySits(maxPlayers: nat, password: string, rules: RuleSet, guest: string)
    ensures !Seated(NewRoom(maxPlayers, password, rules), guest)
  {
  }

  lemma NotAdmitted(r: RoomState, e: Event, guest: string)
    requires r.password != ""
    requires e.Join? && e.guest == guest ==> e.password != r.password
    requires e.Attach? ==> e.guest != guest
    ensures !(GetsSeat(r, e) && e.guest == guest)
  {
  }

  // ----- rounds ------------------------------------------------------------------------

  /** A round is dealt exactly when none is on and the number of guests is allowed, to the seated
      guests in order, under the room's rules, from the shuffled deck. */
  lemma StartsIff(r: RoomState, seed: int, draws: seq<nat>)
    requires RoomOK(r) && Draws(draws, 52)
    ensures var t := Happened(r, StartRound(seed, draws));
            && t.Some?
            && if r.game.None? && 2 <= |r.seats|
               then && t.value.game.Some? && t.value.roundNo == r.roundNo + 1
                    && t.value.dealt == r.dealt + 1 && t.value.scored == r.scored
                    && var s := t.value.game.value;
                    && s.rules == r.rules && s.turn == 0 && s.phase == PhaseDraw && s.melds == []
                    && (forall i :: 0 <= i < |r.seats| ==> s.players[i].id == r.seats[i].guestID)
                    && Flatten(HandsOf(s.players)) + s.discardPile + s.drawPile
                       == FisherYates(OrderedDeck(), draws, 52)
               else t.value == r
  {
    EventKeepsRoom(r, StartRound(seed, draws));
    if r.game.None? && 2 <= |r.seats| {
      assert r.rules.minPlayers == 2 && r.rules.maxPlayers == 4;
      DeckIsDistinct();
      hide Sound, ScoresMatch, FisherYates, OrderedDeck;
      var deck := FisherYates(OrderedDeck(), draws, 52);
      DealtInOrder(GuestIDs(r.seats), r.rules, seed, deck);
    }
  }

  function HandsOf(players: seq<Player>): seq<seq<Card>> {
    seq(|players|, i requires 0 <= i < |players| => players[i].hand)
  }

  lemma DealtInOrder(ids: seq<string>, rs: RuleSet, seed: int, deck: seq<Card>)
    requires 2 <= |ids| <= 4 && |deck| == 52
    ensures var s := Dealt(ids, rs, seed, deck);
            && |s.players| == |ids| && (forall i :: 0 <= i < |ids| ==> s.players[i].id == ids[i])
            && s.rules == rs && s.turn == 0 && s.phase == PhaseDraw && s.melds == []
            && Flatten(HandsOf(s.players)) + s.discardPile + s.drawPile == deck
  {
    var n := |ids|;
    HandsFlatten(deck, n, HandSize(n));
    DealKeepsDeck(deck, n, HandSize(n));
    hide Hands, Flatten;
    assert HandsOf(Dealt(ids, rs, seed, deck).players) == Hands(deck, n, HandSize(n));
  }

  /** Only the guest whose seat is at turn can move; anyone else's action changes nothing. */
  lemma OnlyTheGuestAtTurnMoves(r: RoomState, guest: string, a: Action)
    requires RoomOK(r) && r.game.Some?
    ensures Happened(r, GameAction(guest, a)).Some? && Shaped(r.game.value)
    ensures var s, t := r.game.value, Happened(r, GameAction(guest, a)).value;
            && s.turn < |r.seats|
            && if guest == r.seats[s.turn].guestID
               then t.game == Some(Apply(s, s.turn, a).state)
                    && (t.pending > r.pending <==> Apply(s, s.turn, a).Accepted? && t.game.value.roundOver)
               else t == r
  {
    hide RoomOK, Apply, SeatOf, DistinctGuests, Shaped;
    EventKeepsRoom(r, GameAction(guest, a));
    SeatCount(r);
    var s, k := r.game.value, SeatOf(r.seats, guest);
    OnlySeat(r.seats, k, guest);
    assert guest == r.seats[s.turn].guestID <==> k == s.turn;
    if k != s.turn {
      NotTheirTurn(s, k, a);
    }
  }

  lemma SeatCount(r: RoomState)
    requires RoomOK(r) && r.game.Some?
    ensures Shaped(r.game.value) && r.game.value.turn < |r.seats| && DistinctGuests(r.seats)
  {
  }

  lemma NotTheirTurn(s: State, p: int, a: Action)
    requires Shaped(s) && p != s.turn
    ensures Apply(s, p, a).Rejected? && Apply(s, p, a).state == s
  {
  }

  /** The round number counts the rounds dealt, and starts over with the scores. */
  lemma RoundNumbers(r: RoomState, e: Event)
    requires RoomOK(r) && Enabled(r, e)
    ensures Happened(r, e).Some?
    ensures var t := Happened(r, e).value;
            t.roundNo == if e.Ready? && r.finished then 0 else r.roundNo + t.dealt - r.dealt
  {
    EventKeepsRoom(r, e);
    hide RoomOK;
    if e.StartRound? || e.GameAction? || e.FinishRound? {
      RoundCounts(r, e);
    } else {
      SeatingCounts(r, e);
    }
  }

  lemma SeatingCounts(r: RoomState, e: Event)
    requires e.Join? || e.Attach? || e.Detach? || e.BotTakeover? || e.Ready?
    ensures var t := Happened(r, e).value;
            && t.dealt == r.dealt
            && t.roundNo == if e.Ready? && r.finished then 0 else r.roundNo
  {
    hide SeatOf, AllUnready, JoinError;
  }

  lemma RoundCounts(r: RoomState, e: Event)
    requires Enabled(r, e) && Happened(r, e).Some?
    requires e.StartRound? || e.GameAction? || e.FinishRound?
    ensures var t := Happened(r, e).value; t.roundNo == r.roundNo + t.dealt - r.dealt
  {
    hide Apply, Dealt, FisherYates, OrderedDeck, SeatOf, AddScores, TargetReached, Shaped, AllUnready;
  }

  // ----- when a match is finished ------------------------------------------------------

  /** After the first k rounds of the ledger one of that round's players has the target score. */
  predicate TargetMetBy(ledger: seq<State>, target: int, k: nat) {
    1 <= k <= |ledger| && SomeoneHas(ledger[..k], ledger[k - 1].players, target)
  }

  predicate SomeoneHas(ledger: seq<State>, players: seq<Player>, target: int) {
    exists j :: 0 <= j < |players| && LedgerTotal(ledger, players[j].id) >= target
  }

  /** The match is finished exactly when, after some round since the scores were cleared, one of
      its players had reached the target. */
  ghost predicate FinishedOK(r: RoomState) {
    r.finished <==> exists k: nat :: TargetMetBy(r.ledger, r.targetScore, k)
  }

  lemma TargetMetEarlier(ledger: seq<State>, f: State, target: int, k: nat)
    requires k <= |ledger|
    ensures TargetMetBy(ledger + [f], target, k) <==> TargetMetBy(ledger, target, k)
  {
    assert (ledger + [f])[..k] == ledger[..k];
  }

  /** The scores after a round reach the target exactly when one of its players does. */
  lemma ReachedIffMet(r: RoomState, t: RoomState)
    requires RoomOK(r) && RoomOK(t) && r.game.Some? && t.ledger == r.ledger + [r.game.value]
    ensures TargetReached(t.scores, r.seats, r.targetScore)
       <==> TargetMetBy(t.ledger, r.targetScore, |t.ledger|)
  {
    hide Sound, RoomRules, LedgerTotal, ScoreFor, FinishesOnce;
    var f, n := r.game.value, |t.ledger|;
    assert t.ledger[..n] == t.ledger && t.ledger[n - 1] == f;
    assert forall i :: 0 <= i < |r.seats| ==> r.seats[i].guestID == f.players[i].id;
  }

  lemma FinishStep(r: RoomState)
    requires RoomOK(r) && FinishedOK(r) && r.pending > 0 && CanFinish(r)
    ensures FinishedOK(RoundFinished(r))
  {
    var t := RoundFinished(r);
    FinishKeepsRoom(r);
    ReachedIffMet(r, t);
    hide RoomOK, TargetReached, TargetMetBy, AddScores;
    var f, n := r.game.value, |t.ledger|;
    forall k: nat | k <= |r.ledger|
      ensures TargetMetBy(t.ledger, r.targetScore, k) <==> TargetMetBy(r.ledger, r.targetScore, k)
    {
      TargetMetEarlier(r.ledger, f, r.targetScore, k);
    }
    BeyondLedger(r.ledger, r.targetScore);
    BeyondLedger(t.ledger, r.targetScore);
  }

  lemma BeyondLedger(ledger: seq<State>, target: int)
    ensures forall k: nat :: k > |ledger| ==> !TargetMetBy(ledger, target, k)
  {
  }

  lemma FinishedStep(r: RoomState, e: Event)
    requires RoomOK(r) && FinishedOK(r) && Enabled(r, e)
    ensures Happened(r, e).Some? && FinishedOK(Happened(r, e).value)
  {
    EventKeepsRoom(r, e);
    if e.FinishRound? {
      FinishStep(r);
    } else {
      LedgerAfter(r, e);
      BeyondLedger([], r.targetScore);
      hide RoomOK, Happened, TargetMetBy;
      NothingMet(r.targetScore);
    }
  }

  lemma NothingMet(target: int)
    ensures forall k: nat :: !TargetMetBy([], target, k)
  {
  }

  lemma LedgerAfter(r: RoomState, e: Event)
    requires Enabled(r, e) && !e.FinishRound? && Happened(r, e).Some?
    ensures var t := Happened(r, e).value;
            && t.targetScore == r.targetScore
            && if e.Ready? && r.finished then t.ledger == [] && !t.finished
               else t.ledger == r.ledger && t.finished == r.finished
  {
    hide Apply, Dealt, FisherYates, OrderedDeck, SeatOf, Shaped;
  }

  /** Under every interleaving a match is finished exactly when the target has been reached since
      the scores were last cleared. */
  lemma {:induction false} MatchFinishesAtTarget(maxPlayers: nat, password: string, rules: RuleSet,
                                                events: seq<Event>)
    requires 2 <= maxPlayers <= 4 && RoomRules(rules)
    ensures var t := Interleaved(NewRoom(maxPlayers, password, rules), events);
            t.Some? && FinishedOK(t.value) && t.value.targetScore == rules.targetScore
  {
    hide RoomOK, Happened, Enabled, FinishedOK;
    var r := NewRoom(maxPlayers, password, rules);
    if events == [] {
      NewRoomUnfinished(maxPlayers, password, rules);
    } else {
      var n := |events| - 1;
      MatchFinishesAtTarget(maxPlayers, password, rules, events[..n]);
      RoundsFinishOnce(maxPlayers, password, rules, events[..n]);
      var t := Interleaved(r, events[..n]).value;
      if Enabled(t, events[n]) {
        FinishedStep(t, events[n]);
        Constants(t, events[n]);
      }
    }
  }

  lemma NewRoomUnfinished(maxPlayers: nat, password: string, rules: RuleSet)
    ensures FinishedOK(NewRoom(maxPlayers, password, rules))
  {
    NothingMet(rules.targetScore);
  }
}
