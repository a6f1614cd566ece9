/** The room's methods (server/internal/room/hub.go), each one lock section, and what a viewer
    is sent (server/internal/room/view.go). */
module RoomLayer {
  import opened Bags
  import opened Cards
  import opened Melds
  import opened Solver
  import opened Deck
  import opened Rules
  import opened Engine
  import opened Invariants
  import opened Scoring
  import opened RoomModel

  // ----- views -------------------------------------------------------------------------

  datatype PlayerPublic = PlayerPublic(seat: nat, name: string, ready: bool, handCount: nat,
                                       connected: bool, botMode: bool)

  datatype MeldView = MeldView(id: MeldId, kind: MeldKind, cards: seq<Card>, owner: int)

  /** What one viewer sees; `matchScores` lists the seated guests' scores. */
  datatype StateView = StateView(
    started: bool,
    phase: Phase,
    turn: nat,
    yourSeat: int,
    players: seq<PlayerPublic>,
    yourHand: seq<Card>,
    melds: seq<MeldView>,
    discardTop: Option<Card>,
    discardPile: seq<Card>,
    drawCount: nat,
    headCard: Option<Card>,
    matchScores: map<string, int>,
    canAutoKnock: bool)

  function SeatView(seat: Seat, i: nat, handCount: nat, botMode: bool): PlayerPublic {
    PlayerPublic(i, seat.name, seat.ready, handCount, seat.connected, botMode)
  }

  function MeldShown(m: Meld): MeldView {
    MeldView(m.id, m.kind, m.cards, m.owner)
  }

  function SeatScores(seats: seq<Seat>, scores: map<string, int>): map<string, int> {
    map s | s in seats :: s.guestID := ScoreFor(scores, s.guestID)
  }

  function WaitingSeats(seats: seq<Seat>): seq<PlayerPublic> {
    seq(|seats|, i requires 0 <= i < |seats| => SeatView(seats[i], i, 0, false))
  }

  function PlayingSeats(seats: seq<Seat>, players: seq<Player>): seq<PlayerPublic>
    requires |seats| <= |players|
  {
    seq(|seats|, i requires 0 <= i < |seats| =>
          SeatView(seats[i], i, |players[i].hand|, seats[i].botMode))
  }

  function MeldsShown(melds: seq<Meld>): seq<MeldView> {
    seq(|melds|, i requires 0 <= i < |melds| => MeldShown(melds[i]))
  }

  function HandShown(s: State, viewer: int): seq<Card> {
    if 0 <= viewer < |s.players| then s.players[viewer].hand else []
  }

  /** Whether the viewer's auto-knock button is lit. */
  ghost predicate ButtonLit(s: State, viewer: int) {
    && 0 <= viewer < |s.players| && viewer == s.turn && s.phase == PhaseMeld
    && Solve(s.players[viewer].hand, s.melds, s.rules.minMeldLen).Some?
  }

  ghost function ViewOf(r: RoomState, viewer: int): StateView
    requires r.game.Some? ==> |r.seats| <= |r.game.value.players|
  {
    var scores := SeatScores(r.seats, r.scores);
    match r.game
    case None =>
      StateView(false, PhaseWaiting, 0, viewer, WaitingSeats(r.seats), [], [], None, [], 0, None,
                scores, false)
    case Some(s) =>
      var pile := s.discardPile;
      StateView(true, s.phase, s.turn, viewer, PlayingSeats(r.seats, s.players),
                HandShown(s, viewer), MeldsShown(s.melds),
                if pile == [] then None else Some(pile[|pile| - 1]), pile, |s.drawPile|,
                Some(s.headCard), scores, ButtonLit(s, viewer))
  }

  /** Two rounds that look alike to a viewer: the same phase, turn, piles and melds as shown,
      the same hand sizes, the same hand of the viewer's own and the same number of cards to
      draw. The other hands, the draw order, the seed and all bookkeeping may differ. */
  predicate LooksAlike(s: State, t: State, viewer: int) {
    && s.phase == t.phase && s.turn == t.turn && s.rules.minMeldLen == t.rules.minMeldLen
    && s.discardPile == t.discardPile && s.headCard == t.headCard
    && MeldsShown(s.melds) == MeldsShown(t.melds)
    && |s.drawPile| == |t.drawPile| && |s.players| == |t.players|
    && (forall i :: 0 <= i < |s.players| ==> |s.players[i].hand| == |t.players[i].hand|)
    && HandShown(s, viewer) == HandShown(t, viewer)
  }

  /** Two rooms with the same seats and seated guests' scores, and rounds that look alike. Limits,
      password, target, round numbers, other guests' scores and all that has been may differ. */
  predicate RoomsLookAlike(r: RoomState, q: RoomState, viewer: int) {
    && r.seats == q.seats
    && (forall i :: 0 <= i < |r.seats| ==>
          ScoreFor(r.scores, r.seats[i].guestID) == ScoreFor(q.scores, r.seats[i].guestID))
    && r.game.Some? == q.game.Some?
    && (r.game.Some? ==> LooksAlike(r.game.value, q.game.value, viewer))
  }

  /** A valid meld is determined by what is shown of it: its Ace flag follows from its cards. */
  lemma ShownMeldsAgree(ms: seq<Meld>, ns: seq<Meld>, minLen: nat)
    requires forall i :: 0 <= i < |ms| ==> ValidMeld(ms[i], minLen)
    requires forall i :: 0 <= i < |ns| ==> ValidMeld(ns[i], minLen)
    requires MeldsShown(ms) == MeldsShown(ns)
    ensures ms == ns
  {
    hide MakeMeld;
    assert |MeldsShown(ms)| == |ms| && |MeldsShown(ns)| == |ns|;
    forall i | 0 <= i < |ms| ensures ms[i] == ns[i] {
      assert MeldsShown(ms)[i] == MeldsShown(ns)[i];
      assert MakeMeld(ms[i].id, ms[i].cards, ms[i].owner, minLen) == Ok(ms[i]);
      assert MakeMeld(ns[i].id, ns[i].cards, ns[i].owner, minLen) == Ok(ns[i]);
    }
  }

  /** A view but for the auto-knock button. */
  ghost function Unlit(v: StateView): StateView {
    v.(canAutoKnock := false)
  }

  predicate SameMinimum(r: RoomState, q: RoomState) {
    r.game.Some? && q.game.Some? ==> r.game.value.rules.minMeldLen == q.game.value.rules.minMeldLen
  }

  /** The button tells a viewer nothing that the rest of the view does not: views that agree on
      everything else agree on it. */
  lemma ButtonFollowsView(r: RoomState, q: RoomState, viewer: int)
    requires RoomOK(r) && RoomOK(q) && SameMinimum(r, q)
    requires Unlit(ViewOf(r, viewer)) == Unlit(ViewOf(q, viewer))
    ensures ViewOf(r, viewer) == ViewOf(q, viewer)
  {
    hide Solve, Orderly, Conserved, HeadOK, ProducedOK, ScoresMatch, ValidMeld, MeldsShown;
    if r.game.Some? {
      var s, t := r.game.value, q.game.value;
      assert |PlayingSeats(r.seats, s.players)| == |s.players|;
      assert |PlayingSeats(q.seats, t.players)| == |t.players|;
      ShownMeldsAgree(s.melds, t.melds, s.rules.minMeldLen);
    }
  }

  /** What a viewer is sent depends on nothing hidden from them: rooms that look alike send
      equal views, the button included. */
  lemma ViewHidesTheRest(r: RoomState, q: RoomState, viewer: int)
    requires RoomOK(r) && RoomOK(q) && RoomsLookAlike(r, q, viewer)
    ensures ViewOf(r, viewer) == ViewOf(q, viewer)
  {
    hide Solve, Sound, ScoresMatch, ScoreFor, MeldsShown;
    assert SeatScores(r.seats, r.scores) == SeatScores(q.seats, q.scores);
    if r.game.Some? {
      assert PlayingSeats(r.seats, r.game.value.players) == PlayingSeats(q.seats, q.game.value.players);
    }
    ButtonFollowsView(r, q, viewer);
  }

  // ----- loops over seats --------------------------------------------------------------

  method SeatIndex(seats: seq<Seat>, guest: string) returns (k: int)
    ensures k == SeatOf(seats, guest)
  {
    for i := 0 to |seats|
      invariant SeatFrom(seats, guest, 0) == SeatFrom(seats, guest, i)
    {
      if seats[i].guestID == guest {
        return i;
      }
    }
    return -1;
  }

  method ClearReady(seats: seq<Seat>) returns (out: seq<Seat>)
    ensures out == AllUnready(seats)
  {
    out := seats;
    for i := 0 to |seats|
      invariant |out| == |seats|
      invariant forall j :: 0 <= j < i ==> out[j] == seats[j].(ready := false)
      invariant forall j :: i <= j < |seats| ==> out[j] == seats[j]
    {
      out := out[i := out[i].(ready := false)];
    }
  }

  /** The leader among the seats: the first with the highest score, where scores at or below
      -2^30 count for nothing. */
  predicate Leads(seats: seq<Seat>, scores: map<string, int>, winner: string) {
    if forall i :: 0 <= i < |seats| ==> ScoreFor(scores, seats[i].guestID) <= -0x4000_0000
    then winner == ""
    else
      exists w :: 0 <= w < |seats| && seats[w].guestID == winner
        && (forall i :: 0 <= i < |seats| ==>
              ScoreFor(scores, seats[i].guestID) <= ScoreFor(scores, winner))
        && forall i :: 0 <= i < w ==> ScoreFor(scores, seats[i].guestID) < ScoreFor(scores, winner)
  }

  method Leader(seats: seq<Seat>, scores: map<string, int>, target: int)
    returns (reached: bool, winner: string)
    ensures reached == TargetReached(scores, seats, target)
    ensures Leads(seats, scores, winner)
  {
    var best := -0x4000_0000;
    reached := false;
    winner := "";
    ghost var w := -1;
    for i := 0 to |seats|
      invariant reached == exists j :: 0 <= j < i && ScoreFor(scores, seats[j].guestID) >= target
      invariant -1 <= w < i && best >= -0x4000_0000
      invariant forall j :: 0 <= j < i ==> ScoreFor(scores, seats[j].guestID) <= best
      invariant w == -1 ==> winner == "" && best == -0x4000_0000
      invariant w >= 0 ==> winner == seats[w].guestID && best == ScoreFor(scores, winner)
                           && best > -0x4000_0000
      invariant forall j :: 0 <= j < w ==> ScoreFor(scores, seats[j].guestID) < best
    {
      var score := if seats[i].guestID in scores then scores[seats[i].guestID] else 0;
      if score >= target {
        reached := true;
      }
      if score > best {
        best, winner, w := score, seats[i].guestID, i;
      }
    }
  }

  /** Adds a finished round's totals to the guests' scores. */
  method AddTotals(scores: map<string, int>, seats: seq<Seat>, g: GameState)
    returns (out: map<string, int>)
    requires |g.players| <= |seats|
    ensures out == AddScores(scores, seats, g.Abs(), |g.players|)
  {
    var sb := ScoreRound(g);
    out := scores;
    for i := 0 to |sb|
      invariant out == AddScores(scores, seats, g.Abs(), i)
    {
      var guest := seats[i].guestID;
      var had := if guest in out then out[guest] else 0;
      out := out[guest := had + sb[i].total];
    }
  }

  method ShowScores(seats: seq<Seat>, scores: map<string, int>) returns (shown: map<string, int>)
    ensures shown == SeatScores(seats, scores)
  {
    shown := map[];
    for i := 0 to |seats|
      invariant shown == SeatScores(seats[..i], scores)
    {
      var guest := seats[i].guestID;
      assert seats[..i + 1] == seats[..i] + [seats[i]];
      shown := shown[guest := if guest in scores then scores[guest] else 0];
    }
    assert seats[..|seats|] == seats;
  }

  method ShowWaiting(seats: seq<Seat>) returns (players: seq<PlayerPublic>)
    ensures players == WaitingSeats(seats)
  {
    players := [];
    for i := 0 to |seats|
      invariant players == WaitingSeats(seats)[..i]
    {
      players := players + [SeatView(seats[i], i, 0, false)];
    }
  }

  method ShowPlaying(seats: seq<Seat>, held: seq<Player>) returns (players: seq<PlayerPublic>)
    requires |seats| <= |held|
    ensures players == PlayingSeats(seats, held)
  {
    players := [];
    for i := 0 to |seats|
      invariant players == PlayingSeats(seats, held)[..i]
    {
      players := players + [SeatView(seats[i], i, |held[i].hand|, seats[i].botMode)];
    }
  }

  method ShowMelds(melds: seq<Meld>) returns (shown: seq<MeldView>)
    ensures shown == MeldsShown(melds)
  {
    shown := [];
    for i := 0 to |melds|
      invariant shown == MeldsShown(melds)[..i]
    {
      shown := shown + [MeldShown(melds[i])];
    }
  }

  // ----- the room ----------------------------------------------------------------------

  class Room {
    const maxPlayers: nat
    const targetScore: int
    const password: string
    const rules: RuleSet
    var seats: seq<Seat>
    var state: GameState?
    var scores: map<string, int>
    var finished: bool
    var roundNo: nat
    ghost var pending: nat
    ghost var dealt: nat
    ghost var scored: nat
    ghost var ledger: seq<State>

    ghost function Abs(): RoomState
      reads this, state
    {
      RoomState(maxPlayers, targetScore, password, rules, seats,
                if state == null then None else Some(state.Abs()), scores, finished, roundNo,
                pending, dealt, scored, ledger)
    }

    constructor (maxPlayers: nat, password: string, rules: RuleSet)
      ensures Abs() == NewRoom(maxPlayers, password, rules)
    {
      this.maxPlayers, this.password, this.rules := maxPlayers, password, rules;
      targetScore := rules.targetScore;
      seats, state, scores, finished, roundNo := [], null, map[], false, 0;
      pending, dealt, scored, ledger := 0, 0, 0, [];
    }

    method JoinWith(guest: string, name: string, password: string)
      returns (err: Option<RoomError>)
      modifies this
      ensures Abs() == Joined(old(Abs()), guest, name, password)
      ensures err == JoinError(old(Abs()), guest, password)
    {
      var k := SeatIndex(seats, guest);
      if k != -1 {
        return None;
      }
      if this.password != "" && this.password != password {
        return Some(BadPassword);
      }
      if state != null {
        return Some(RoomStarted);
      }
      if |seats| >= maxPlayers {
        return Some(RoomFull);
      }
      seats := seats + [Seat(guest, name, false, false, false)];
      return None;
    }

    /** Binds a guest's connection; a guest who gets no seat is refused. */
    method Attach(guest: string, name: string) returns (refused: bool)
      modifies this
      ensures Abs() == Attached(old(Abs()), guest, name)
      ensures refused <==> SeatOf(seats, guest) == -1
    {
      var k := SeatIndex(seats, guest);
      if k == -1 {
        if state == null && |seats| < maxPlayers {
          seats := seats + [Seat(guest, name, false, false, false)];
          k := |seats| - 1;
        } else {
          return true;
        }
      }
      seats := seats[k := seats[k].(connected := true, botMode := false)];
      assert seats[k].guestID == guest;
      return false;
    }

    /** The locked part of a ready message; the answer says whether to start a round. */
    method MarkReady(guest: string) returns (start: bool)
      modifies this
      ensures Abs() == Readied(old(Abs()), guest)
      ensures start == (|seats| >= rules.minPlayers && state == null
                        && forall i :: 0 <= i < |seats| ==> seats[i].ready)
    {
      if finished {
        scores, finished, roundNo, ledger := map[], false, 0, [];
        seats := ClearReady(seats);
      }
      var k := SeatIndex(seats, guest);
      if k != -1 {
        seats := seats[k := seats[k].(ready := true)];
      }
      var allReady := |seats| >= rules.minPlayers;
      for i := 0 to |seats|
        invariant allReady == (|seats| >= rules.minPlayers
                               && forall j :: 0 <= j < i ==> seats[j].ready)
      {
        if !seats[i].ready {
          allReady := false;
        }
      }
      return allReady && state == null;
    }

    /** Deals a round unless one is running; `draws` are the random generator's answers. */
    method StartRound(seed: int, draws: seq<nat>)
      requires rules.maxPlayers <= 4 && Draws(draws, 52)
      modifies this
      ensures Abs() == Started(old(Abs()), seed, draws)
    {
      hide FisherYates, OrderedDeck, Dealt;
      if state != null {
        return;
      }
      var ids := GuestIDs(seats);
      var g, err := Engine.Start(ids, rules, seed, draws);
      if err.Some? {
        return;
      }
      state := g;
      roundNo := roundNo + 1;
      dealt := dealt + 1;
    }

    /** Applies a guest's action; the answer says whether this handler must now finish the
        round. */
    method HandleGameAction(guest: string, a: Action) returns (over: bool)
      requires state != null ==> Shaped(state.Abs())
      modifies this, state
      ensures Abs() == Acted(old(Abs()), guest, a)
      ensures over == (pending > old(pending))
    {
      if state == null {
        return false;
      }
      var k := SeatIndex(seats, guest);
      var err := state.ApplyAction(k, a);
      if err.Some? {
        return false;
      }
      over := state.roundOver;
      if over {
        pending := pending + 1;
      }
    }

    /** Scores the round, frees the table, and names the leader. */
    method FinishRound() returns (reached: bool, winner: string)
      requires CanFinish(Abs()) && pending > 0
      modifies this
      ensures Abs() == RoundFinished(old(Abs()))
      ensures reached == TargetReached(scores, old(seats), targetScore)
      ensures Leads(old(seats), scores, winner)
    {
      hide AddScores, TargetReached, Leads, AllUnready;
      ghost var f := state.Abs();
      scores := AddTotals(scores, seats, state);
      reached, winner := Leader(seats, scores, targetScore);
      state := null;
      seats := ClearReady(seats);
      if reached {
        finished := true;
      }
      pending, scored, ledger := pending - 1, scored + 1, ledger + [f];
    }

    method ViewFor(viewer: int) returns (v: StateView)
      requires state != null ==> |seats| <= |state.players| && state.turn < |state.players|
      ensures v == ViewOf(Abs(), viewer)
    {
      hide Solve, SeatScores, WaitingSeats, PlayingSeats, MeldsShown;
      var shown := ShowScores(seats, scores);
      if state == null {
        var waiting := ShowWaiting(seats);
        return StateView(false, PhaseWaiting, 0, viewer, waiting, [], [], None, [], 0, None, shown,
                         false);
      }
      var players := ShowPlaying(seats, state.players);
      var hand := if 0 <= viewer < |state.players| then state.players[viewer].hand else [];
      var melds := ShowMelds(state.melds);
      var pile := state.discardPile;
      var top := if pile == [] then None else Some(pile[|pile| - 1]);
      var lit := false;
      if viewer == state.turn && state.phase == PhaseMeld {
        lit := CanAutoKnock(state.players[viewer].hand, state.melds, viewer, state.rules);
      }
      return StateView(true, state.phase, state.turn, viewer, players, hand, melds, top, pile,
                       |state.drawPile|, Some(state.headCard), shown, lit);
    }
  }
}
