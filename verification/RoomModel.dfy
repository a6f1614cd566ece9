/** The room around a round (server/internal/room/hub.go): its lock-delimited sections as
    functions on values, interleaved in any order. */
module RoomModel {
  import opened Bags
  import opened Cards
  import opened Deck
  import opened Rules
  import opened Invariants
  import opened Steps
  import opened Termination
  import opened Grammar
  import opened Scoring

  datatype Seat = Seat(guestID: string, name: string, ready: bool, botMode: bool, connected: bool)

  datatype RoomError = RoomFull | RoomStarted | BadPassword

  /** One table. `pending` counts the action handlers that have ended a round and are on their
      way to finishing it; `dealt`, `scored` and `ledger` remember how many rounds were dealt
      and scored, and the rounds scored since the scores were last cleared. Those four are not
      fields of the original. */
  datatype RoomState = RoomState(
    maxPlayers: nat,
    targetScore: int,
    password: string,
    rules: RuleSet,
    seats: seq<Seat>,
    game: Option<State>,
    scores: map<string, int>,
    finished: bool,
    roundNo: nat,
    pending: nat,
    dealt: nat,
    scored: nat,
    ledger: seq<State>)

  function NewRoom(maxPlayers: nat, password: string, rules: RuleSet): RoomState {
    RoomState(maxPlayers, rules.targetScore, password, rules, [], None, map[], false, 0, 0, 0, 0, [])
  }

  // ----- seats -------------------------------------------------------------------------

  function SeatFrom(seats: seq<Seat>, guest: string, i: nat): (k: int)
    requires i <= |seats|
    ensures k == -1 || i <= k < |seats|
    ensures k == -1 ==> forall j :: i <= j < |seats| ==> seats[j].guestID != guest
    ensures k != -1 ==> seats[k].guestID == guest
    decreases |seats| - i
  {
    if i == |seats| then -1
    else if seats[i].guestID == guest then i
    else SeatFrom(seats, guest, i + 1)
  }

  function SeatOf(seats: seq<Seat>, guest: string): (k: int)
    ensures k == -1 || 0 <= k < |seats|
    ensures k == -1 ==> forall j :: 0 <= j < |seats| ==> seats[j].guestID != guest
    ensures k != -1 ==> seats[k].guestID == guest
  {
    SeatFrom(seats, guest, 0)
  }

  function AddSeat(r: RoomState, seat: Seat): RoomState {
    r.(seats := r.seats + [seat])
  }

  function JoinError(r: RoomState, guest: string, password: string): Option<RoomError> {
    if SeatOf(r.seats, guest) != -1 then None
    else if r.password != "" && r.password != password then Some(BadPassword)
    else if r.game.Some? then Some(RoomStarted)
    else if |r.seats| >= r.maxPlayers then Some(RoomFull)
    else None
  }

  function Joined(r: RoomState, guest: string, name: string, password: string): RoomState {
    if SeatOf(r.seats, guest) != -1 || JoinError(r, guest, password).Some? then r
    else AddSeat(r, Seat(guest, name, false, false, false))
  }

  /** Binding a connection to the guest's seat, taking a free one before the round starts. */
  function Attached(r: RoomState, guest: string, name: string): RoomState {
    var k := SeatOf(r.seats, guest);
    if k != -1 then
      r.(seats := r.seats[k := r.seats[k].(connected := true, botMode := false)])
    else if r.game.None? && |r.seats| < r.maxPlayers then
      AddSeat(r, Seat(guest, name, false, false, true))
    else r
  }

  function Detached(r: RoomState, guest: string): RoomState {
    var k := SeatOf(r.seats, guest);
    if k == -1 then r else r.(seats := r.seats[k := r.seats[k].(connected := false)])
  }

  function BotModeSet(r: RoomState, guest: string, on: bool): RoomState {
    var k := SeatOf(r.seats, guest);
    if k == -1 then r else r.(seats := r.seats[k := r.seats[k].(botMode := on)])
  }

  function AllUnready(seats: seq<Seat>): seq<Seat> {
    seq(|seats|, i requires 0 <= i < |seats| => seats[i].(ready := false))
  }

  /** The first ready after a settled match starts the scores over. */
  function Readied(r: RoomState, guest: string): RoomState {
    var r' := if r.finished
              then r.(scores := map[], finished := false, roundNo := 0, ledger := [],
                      seats := AllUnready(r.seats))
              else r;
    var k := SeatOf(r'.seats, guest);
    if k == -1 then r' else r'.(seats := r'.seats[k := r'.seats[k].(ready := true)])
  }

  // ----- rounds ------------------------------------------------------------------------

  function GuestIDs(seats: seq<Seat>): seq<string> {
    seq(|seats|, i requires 0 <= i < |seats| => seats[i].guestID)
  }

  function Started(r: RoomState, seed: int, draws: seq<nat>): RoomState
    requires r.rules.maxPlayers <= 4 && Draws(draws, 52)
  {
    if r.game.Some? || |r.seats| < r.rules.minPlayers || |r.seats| > r.rules.maxPlayers then r
    else
      var deck := FisherYates(OrderedDeck(), draws, 52);
      r.(game := Some(Dealt(GuestIDs(r.seats), r.rules, seed, deck)), roundNo := r.roundNo + 1,
         dealt := r.dealt + 1)
  }

  /** An action by a guest; the handler that ends the round goes on to finish it. */
  ghost function Acted(r: RoomState, guest: string, a: Action): RoomState
    requires r.game.Some? ==> Shaped(r.game.value)
  {
    if r.game.None? then r
    else
      match Apply(r.game.value, SeatOf(r.seats, guest), a)
      case Rejected(t, _) => r.(game := Some(t))
      case Accepted(t) =>
        r.(game := Some(t), pending := r.pending + if t.roundOver then 1 else 0)
  }

  function ScoreFor(scores: map<string, int>, guest: string): int {
    if guest in scores then scores[guest] else 0
  }

  /** The scores after adding the first k rows of a finished round. */
  function AddScores(scores: map<string, int>, seats: seq<Seat>, f: State, k: nat): map<string, int>
    requires k <= |seats| && k <= |f.players|
  {
    if k == 0 then scores
    else
      var m := AddScores(scores, seats, f, k - 1);
      var g := seats[k - 1].guestID;
      m[g := ScoreFor(m, g) + ScoreOf(f, k - 1).total]
  }

  predicate TargetReached(scores: map<string, int>, seats: seq<Seat>, target: int) {
    exists i :: 0 <= i < |seats| && ScoreFor(scores, seats[i].guestID) >= target
  }

  predicate CanFinish(r: RoomState) {
    r.game.Some? && |r.game.value.players| <= |r.seats|
  }

  function RoundFinished(r: RoomState): RoomState
    requires CanFinish(r) && r.pending > 0
  {
    var f := r.game.value;
    var scores := AddScores(r.scores, r.seats, f, |f.players|);
    r.(scores := scores, game := None, seats := AllUnready(r.seats),
       finished := r.finished || TargetReached(scores, r.seats, r.targetScore),
       pending := r.pending - 1, scored := r.scored + 1, ledger := r.ledger + [f])
  }

  // ----- any interleaving --------------------------------------------------------------

  /** The lock sections. A timer or socket may trigger any of them at any time; finishing is
      done by the handlers that are on their way to it. */
  datatype Event =
    | Join(guest: string, name: string, password: string)
    | Attach(guest: string, name: string)
    | Detach(guest: string)
    | BotTakeover(guest: string, on: bool)
    | Ready(guest: string)
    | StartRound(seed: int, draws: seq<nat>)
    | GameAction(guest: string, action: Action)
    | FinishRound

  ghost predicate Enabled(r: RoomState, e: Event) {
    match e
    case StartRound(_, draws) => Draws(draws, 52)
    case FinishRound => r.pending > 0
    case _ => true
  }

  /** The room after an event, or None where the original would index out of range or through
      a nil state. */
  ghost function Happened(r: RoomState, e: Event): Option<RoomState>
    requires Enabled(r, e)
  {
    match e
    case Join(guest, name, password) => Some(Joined(r, guest, name, password))
    case Attach(guest, name) => Some(Attached(r, guest, name))
    case Detach(guest) => Some(Detached(r, guest))
    case BotTakeover(guest, on) => Some(BotModeSet(r, guest, on))
    case Ready(guest) => Some(Readied(r, guest))
    case StartRound(seed, draws) =>
      if r.rules.maxPlayers <= 4 then Some(Started(r, seed, draws)) else None
    case GameAction(guest, a) =>
      if r.game.Some? && !Shaped(r.game.value) then None else Some(Acted(r, guest, a))
    case FinishRound => if CanFinish(r) then Some(RoundFinished(r)) else None
  }

  /** Events in the order their lock sections run; one that is not enabled does not happen. */
  ghost function Interleaved(r: RoomState, events: seq<Event>): Option<RoomState> {
    if events == [] then Some(r)
    else
      var n := |events| - 1;
      match Interleaved(r, events[..n])
      case None => None
      case Some(t) => if Enabled(t, events[n]) then Happened(t, events[n]) else Some(t)
  }

  lemma {:induction false} InterleavedAppend(r: RoomState, a: seq<Event>, b: seq<Event>)
    requires Interleaved(r, a).Some?
    ensures Interleaved(r, a + b) == Interleaved(Interleaved(r, a).value, b)
    decreases |b|
  {
    hide Enabled, Happened;
    if b == [] {
      assert a + b == a;
    } else {
      var n := |b| - 1;
      assert (a + b)[..|a + b| - 1] == a + b[..n];
      InterleavedAppend(r, a, b[..n]);
    }
  }

  lemma InterleavedOne(r: RoomState, e: Event)
    requires Enabled(r, e)
    ensures Interleaved(r, [e]) == Happened(r, e)
  {
    assert [e][..0] == [];
  }

  /** What a finished round adds to a guest's score. */
  function GuestTotal(f: State, guest: string, k: nat): int
    requires k <= |f.players|
  {
    if k == 0 then 0
    else GuestTotal(f, guest, k - 1) + if f.players[k - 1].id == guest then ScoreOf(f, k - 1).total else 0
  }

  predicate Closed(ledger: seq<State>) {
    forall i :: 0 <= i < |ledger| ==> ledger[i].roundOver
  }

  function LedgerTotal(ledger: seq<State>, guest: string): int {
    if ledger == [] then 0
    else
      var f := ledger[|ledger| - 1];
      LedgerTotal(ledger[..|ledger| - 1], guest) + GuestTotal(f, guest, |f.players|)
  }

  predicate DistinctGuests(seats: seq<Seat>) {
    forall i, j :: 0 <= i < j < |seats| ==> seats[i].guestID != seats[j].guestID
  }

  /** Seats: the players of a running round are the seated guests, one to one and in order. */
  ghost predicate SeatsMatch(r: RoomState) {
    && |r.seats| <= r.maxPlayers && DistinctGuests(r.seats)
    && (r.game.Some? ==>
          var s := r.game.value;
          && Sound(s) && |s.players| == |r.seats|
          && forall i :: 0 <= i < |r.seats| ==> s.players[i].id == r.seats[i].guestID)
  }

  /** One handler is about to finish the round when there is a round that is over, and none
      otherwise; every round dealt is scored once or still there. */
  ghost predicate FinishesOnce(r: RoomState) {
    && r.pending == (if r.game.Some? && r.game.value.roundOver then 1 else 0)
    && r.dealt == r.scored + (if r.game.Some? then 1 else 0)
  }

  /** Every guest's score is the sum of the rounds scored since the last reset. */
  ghost predicate ScoresMatch(r: RoomState) {
    && Closed(r.ledger)
    && forall guest :: ScoreFor(r.scores, guest) == LedgerTotal(r.ledger, guest)
  }

  ghost predicate RoomOK(r: RoomState) {
    && 2 <= r.maxPlayers <= 4 && RoomRules(r.rules)
    && SeatsMatch(r) && FinishesOnce(r) && ScoresMatch(r)
  }

  lemma RoomCanFinish(r: RoomState)
    requires RoomOK(r)
    ensures r.game.Some? ==> Shaped(r.game.value)
    ensures r.pending > 0 ==> CanFinish(r)
  {
  }

  // ----- every event keeps the room in order -------------------------------------------

  lemma {:induction false} AddedTotals(scores: map<string, int>, seats: seq<Seat>, f: State, k: nat,
                                       guest: string)
    requires k <= |seats| && k <= |f.players|
    requires forall i :: 0 <= i < k ==> f.players[i].id == seats[i].guestID
    ensures ScoreFor(AddScores(scores, seats, f, k), guest)
         == ScoreFor(scores, guest) + GuestTotal(f, guest, k)
  {
    hide ScoreOf;
    if k > 0 {
      AddedTotals(scores, seats, f, k - 1, guest);
    }
  }

  lemma LedgerGrows(ledger: seq<State>, f: State, guest: string)
    ensures LedgerTotal(ledger + [f], guest)
         == LedgerTotal(ledger, guest) + GuestTotal(f, guest, |f.players|)
  {
    assert (ledger + [f])[..|ledger|] == ledger;
  }

  lemma FinishKeepsRoom(r: RoomState)
    requires RoomOK(r) && r.pending > 0 && CanFinish(r)
    ensures RoomOK(RoundFinished(r))
  {
    hide Sound, ScoreOf, RoomRules, LedgerTotal, AddScores, GuestTotal;
    var f, t := r.game.value, RoundFinished(r);
    assert Closed(t.ledger);
    forall guest ensures ScoreFor(t.scores, guest) == LedgerTotal(t.ledger, guest) {
      AddedTotals(r.scores, r.seats, f, |f.players|, guest);
      LedgerGrows(r.ledger, f, guest);
    }
  }

  lemma ActionKeepsRoom(r: RoomState, guest: string, a: Action)
    requires RoomOK(r) && (r.game.Some? ==> Shaped(r.game.value))
    ensures RoomOK(Acted(r, guest, a))
  {
    hide Apply, Sound, Shaped, RoomRules, SeatOf, LedgerTotal, ScoreFor, DistinctGuests;
    if r.game.Some? {
      var s, p := r.game.value, SeatOf(r.seats, guest);
      ActionKeepsSound(s, p, a);
      SeatsStay(s, p, a);
      OverIsFinal(s, p, a);
    }
  }

  /** A round that is over accepts nothing; a rejected action does not end one. */
  lemma OverIsFinal(s: State, p: int, a: Action)
    requires Sound(s)
    ensures s.roundOver ==> Apply(s, p, a).Rejected?
    ensures Apply(s, p, a).Rejected? ==> Apply(s, p, a).state.roundOver == s.roundOver
  {
    SoundIsShaped(s);
    hide Apply, Sound;
    if Apply(s, p, a).Rejected? {
      RejectionUndoesNothing(s, p, a);
    } else {
      AcceptedTurn(s, p, a);
    }
  }

  lemma StartKeepsRoom(r: RoomState, seed: int, draws: seq<nat>)
    requires RoomOK(r) && Draws(draws, 52) && r.rules.maxPlayers <= 4
    ensures RoomOK(Started(r, seed, draws))
  {
    hide FisherYates, Sound, LedgerTotal, ScoreFor, Hands, OrderedDeck;
    if Started(r, seed, draws) != r {
      var ids := GuestIDs(r.seats);
      var s := Shuffled(ids, r.rules, seed, draws);
      assert Initial(s);
      InitialIsSound(s);
      assert !s.roundOver;
    }
  }

  /** Seat by seat the same guests, apart from one more at the end while no round runs. */
  predicate SameGuests(r: RoomState, t: RoomState) {
    && t == r.(seats := t.seats)
    && |r.seats| == |t.seats|
    && forall i :: 0 <= i < |r.seats| ==> r.seats[i].guestID == t.seats[i].guestID
  }

  lemma SameGuestsKeepRoom(r: RoomState, t: RoomState)
    requires RoomOK(r) && SameGuests(r, t)
    ensures RoomOK(t)
  {
    hide Sound, RoomRules, LedgerTotal, ScoreFor;
  }

  lemma NewSeatKeepsRoom(r: RoomState, seat: Seat)
    requires RoomOK(r) && r.game.None? && |r.seats| < r.maxPlayers
    requires SeatOf(r.seats, seat.guestID) == -1
    ensures RoomOK(AddSeat(r, seat))
  {
    hide Sound, RoomRules, LedgerTotal, ScoreFor;
  }

  lemma ResetKeepsRoom(r: RoomState)
    requires RoomOK(r)
    ensures RoomOK(r.(scores := map[], finished := false, roundNo := 0, ledger := []))
  {
    hide Sound, RoomRules;
  }

  lemma SeatingKeepsRoom(r: RoomState, e: Event)
    requires RoomOK(r)
    requires e.Join? || e.Attach? || e.Detach? || e.BotTakeover? || e.Ready?
    ensures RoomOK(Happened(r, e).value)
  {
    hide RoomOK, SeatFrom;
    match e
    case Join(guest, name, password) =>
      if Joined(r, guest, name, password) != r {
        NewSeatKeepsRoom(r, Seat(guest, name, false, false, false));
      }
    case Attach(guest, name) =>
      if SeatOf(r.seats, guest) == -1 && r.game.None? && |r.seats| < r.maxPlayers {
        NewSeatKeepsRoom(r, Seat(guest, name, false, false, true));
      } else {
        SameGuestsKeepRoom(r, Attached(r, guest, name));
      }
    case Detach(guest) => SameGuestsKeepRoom(r, Detached(r, guest));
    case BotTakeover(guest, on) => SameGuestsKeepRoom(r, BotModeSet(r, guest, on));
    case Ready(guest) =>
      if r.finished {
        ResetKeepsRoom(r);
        var cleared := r.(scores := map[], finished := false, roundNo := 0, ledger := []);
        SameGuestsKeepRoom(cleared, Readied(r, guest));
      } else {
        SameGuestsKeepRoom(r, Readied(r, guest));
      }
  }

  /** Every event, in any order, keeps the room in order. */
  lemma EventKeepsRoom(r: RoomState, e: Event)
    requires RoomOK(r) && Enabled(r, e)
    ensures Happened(r, e).Some? && RoomOK(Happened(r, e).value)
  {
    RoomCanFinish(r);
    assert r.rules.maxPlayers <= 4;
    hide RoomOK, Joined, Attached, Detached, BotModeSet, Readied, Started, Acted, RoundFinished;
    match e
    case StartRound(seed, draws) => StartKeepsRoom(r, seed, draws);
    case GameAction(guest, a) => ActionKeepsRoom(r, guest, a);
    case FinishRound => FinishKeepsRoom(r);
    case _ => SeatingKeepsRoom(r, e);
  }

  lemma NewRoomIsOK(maxPlayers: nat, password: string, rules: RuleSet)
    requires 2 <= maxPlayers <= 4 && RoomRules(rules)
    ensures RoomOK(NewRoom(maxPlayers, password, rules))
  {
  }

  /** Under every interleaving of joins, attachments, readies, starts, actions and finishes a
      room stays in order and never indexes out of range: while a round runs its players are
      the seats, a round that ends is finished and scored exactly once, and scores are the sums
      of the rounds scored. */
  lemma {:induction false} RoundsFinishOnce(maxPlayers: nat, password: string, rules: RuleSet,
                                            events: seq<Event>)
    requires 2 <= maxPlayers <= 4 && RoomRules(rules)
    ensures var t := Interleaved(NewRoom(maxPlayers, password, rules), events);
            t.Some? && RoomOK(t.value)
  {
    hide RoomOK, Happened, Enabled, NewRoom;
    NewRoomIsOK(maxPlayers, password, rules);
    if events != [] {
      var n := |events| - 1;
      var r := NewRoom(maxPlayers, password, rules);
      RoundsFinishOnce(maxPlayers, password, rules, events[..n]);
      var t := Interleaved(r, events[..n]).value;
      if Enabled(t, events[n]) {
        EventKeepsRoom(t, events[n]);
      }
    }
  }

  // ----- a round that is never finished ------------------------------------------------

  /** The room's round is running and accepts nothing from anyone. */
  ghost predicate Hangs(r: RoomState) {
    RoomOK(r) && r.game.Some? && Shaped(r.game.value) && Stuck(r.game.value)
  }

  /** The same round, up to meld numbers used up by rejected melds. */
  ghost predicate SameRound(r: RoomState, t: RoomState) {
    r.game.Some? && t.game.Some?
    && t.game.value == r.game.value.(nextMeldSeq := t.game.value.nextMeldSeq)
  }

  lemma StuckActionChangesNothing(s: State, p: int, a: Action)
    requires Sound(s) && Shaped(s) && Stuck(s)
    ensures var o := Apply(s, p, a);
            && o.Rejected? && o.state == s.(nextMeldSeq := o.state.nextMeldSeq) && Stuck(o.state)
  {
    hide Apply, Sound, Stuck;
    StuckRejects(s, p, a);
    RejectionUndoesNothing(s, p, a);
    ActionKeepsSound(s, p, a);
    StuckIffHandMelded(s);
    StuckIffHandMelded(Apply(s, p, a).state);
  }

  lemma StuckRejects(s: State, p: int, a: Action)
    requires Shaped(s) && Stuck(s)
    ensures !s.roundOver && Apply(s, p, a).Rejected?
  {
    hide Apply;
  }

  lemma HangingEvent(r: RoomState, e: Event)
    requires Hangs(r) && Enabled(r, e)
    ensures var t := Happened(r, e);
            t.Some? && Hangs(t.value) && SameRound(r, t.value) && t.value.scored == r.scored
  {
    hide Apply, Sound, ScoresMatch, Stuck, SeatFrom;
    EventKeepsRoom(r, e);
    match e
    case GameAction(guest, a) =>
      StuckActionChangesNothing(r.game.value, SeatOf(r.seats, guest), a);
    case FinishRound => StuckRejects(r.game.value, 0, DrawDeck);
    case _ =>
  }

  /** A stuck round stays in its room for good: no interleaving of further events finishes it,
      scores it or starts another. */
  lemma {:induction false} HangingRoomStays(r: RoomState, events: seq<Event>)
    requires Hangs(r)
    ensures var t := Interleaved(r, events);
            t.Some? && Hangs(t.value) && SameRound(r, t.value) && t.value.scored == r.scored
  {
    hide RoomOK, Stuck, Enabled, Happened;
    if events != [] {
      var n := |events| - 1;
      HangingRoomStays(r, events[..n]);
      var t := Interleaved(r, events[..n]).value;
      if Enabled(t, events[n]) {
        HangingEvent(t, events[n]);
      }
    }
  }
}
