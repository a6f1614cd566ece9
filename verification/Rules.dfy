/** The state of one round and what every action does to it, as functions on values
    (server/internal/game/state.go, action.go and engine.go). `Engine` holds the methods
    that carry these functions out in place. */
module Rules {
  import opened Bags
  import opened Cards
  import opened Melds
  import opened LayOff
  import opened Solver
  import opened Deck

  datatype Phase = PhaseWaiting | PhaseDraw | PhaseMeld | PhaseRoundOver

  datatype EndReason = NotEnded | ByKnock | DeckExhaust

  datatype Player = Player(
    id: string,
    hand: seq<Card>,
    melds: seq<MeldId>,
    produced: bool,
    producedAtTurnStart: bool)

  /** One round. `knocked` is not a field of the original: it remembers the card a player
      went out with, which leaves the hand and enters no other pile. */
  datatype State = State(
    players: seq<Player>,
    turn: nat,
    phase: Phase,
    drawPile: seq<Card>,
    discardPile: seq<Card>,
    discardedBy: seq<int>,
    melds: seq<Meld>,
    headCard: Card,
    headOwner: int,
    seed: int,
    firstMove: bool,
    roundOver: bool,
    endReason: EndReason,
    knocker: int,
    knockDark: bool,
    knockSuit: bool,
    rules: RuleSet,
    nextMeldSeq: nat,
    dumpPenalties: seq<int>,
    knocked: Option<Card>)

  /** Optional fields of an action that the original leaves at their zero value are None. */
  datatype Action =
    | DrawDeck
    | DrawDiscard(target: Option<Card>, support: seq<Card>, onto: Option<MeldId>)
    | LayMeld(cards: seq<Card>)
    | LayOffCards(meldID: MeldId, cards: seq<Card>)
    | Knock(card: Card, dark: bool)
    | AutoKnock
    | Discard(card: Card)

  /** A rejected action names its error; the state it leaves is part of the answer. */
  datatype Outcome = Accepted(state: State) | Rejected(state: State, error: GameError)

  /** The sizes every method relies on. */
  predicate Shaped(s: State) {
    && s.turn < |s.players|
    && |s.dumpPenalties| == |s.players|
    && |s.discardedBy| == |s.discardPile|
    && forall i :: 0 <= i < |s.discardedBy| ==> -1 <= s.discardedBy[i] < |s.players|
  }

  // ----- start -------------------------------------------------------------------------

  function Seated(ids: seq<string>, hands: seq<seq<Card>>): seq<Player>
    requires |hands| == |ids|
  {
    seq(|ids|, i requires 0 <= i < |ids| => Player(ids[i], hands[i], [], false, false))
  }

  function Dealt(ids: seq<string>, rs: RuleSet, seed: int, deck: seq<Card>): State
    requires |ids| * HandSize(|ids|) < |deck|
  {
    var n := |ids|;
    var dealt := n * HandSize(n);
    var hands := Hands(deck, n, HandSize(n));
    HandsFlatten(deck, n, HandSize(n));
    var head := deck[dealt];
    State(Seated(ids, hands), 0, PhaseDraw, deck[dealt + 1..], [head], [-1], [], head, -1, seed,
          true, false, NotEnded, -1, false, false, rs, 0, seq(n, _ => 0), None)
  }

  /** The states a round can start from: any number of seats from two to four, any rules a
      room can have, and any answers of the random generator. */
  ghost predicate Initial(s: State) {
    exists ids: seq<string>, rs: RuleSet, seed: int, draws: seq<nat> ::
      && 2 <= |ids| <= 4 && RoomRules(rs) && Draws(draws, 52)
      && s == Shuffled(ids, rs, seed, draws)
  }

  ghost function Shuffled(ids: seq<string>, rs: RuleSet, seed: int, draws: seq<nat>): State
    requires 2 <= |ids| <= 4 && Draws(draws, 52)
  {
    Dealt(ids, rs, seed, FisherYates(OrderedDeck(), draws, 52))
  }

  // ----- pieces of the steps -----------------------------------------------------------

  predicate HandContains(hand: seq<Card>, cards: seq<Card>) {
    multiset(cards) <= multiset(hand)
  }

  /** Removing cards from a hand; nothing happens if one of them is missing. */
  function Removed(hand: seq<Card>, cards: seq<Card>): seq<Card> {
    if HandContains(hand, cards) then RemoveAll(hand, cards) else hand
  }

  function WithHand(s: State, p: nat, hand: seq<Card>): State
    requires p < |s.players|
  {
    s.(players := s.players[p := s.players[p].(hand := hand)])
  }

  function AbsorbHead(s: State, cards: seq<Card>, owner: int): State {
    if s.headOwner == -1 && s.headCard in cards then s.(headOwner := owner) else s
  }

  /** A new meld of player p on the table, paid for with the given hand. */
  function WithMeld(s: State, p: nat, m: Meld, hand: seq<Card>): (r: State)
    requires p < |s.players|
    ensures Shaped(s) ==> Shaped(r)
  {
    var pl := s.players[p].(hand := hand, melds := s.players[p].melds + [m.id], produced := true);
    AbsorbHead(s.(players := s.players[p := pl], melds := s.melds + [m]), m.cards, p)
  }

  function WithLayOff(s: State, p: nat, mi: nat, u: Meld, cards: seq<Card>, hand: seq<Card>): (r: State)
    requires p < |s.players| && mi < |s.melds|
    ensures Shaped(s) ==> Shaped(r)
  {
    AbsorbHead(WithHand(s, p, hand).(melds := s.melds[mi := u]), cards, u.owner)
  }

  /** Building a meld from cards of the hand; the meld number is used up either way. */
  ghost function PlaceMeld(s: State, p: nat, cards: seq<Card>): (r: Outcome)
    requires p < |s.players|
    ensures Shaped(s) ==> Shaped(r.state)
  {
    var s' := s.(nextMeldSeq := s.nextMeldSeq + 1);
    match MakeMeld(s'.nextMeldSeq, cards, p, s.rules.minMeldLen)
    case Err(e) => Rejected(s', e)
    case Ok(m) => Accepted(WithMeld(s', p, m, Removed(s.players[p].hand, cards)))
  }

  ghost function PlaceLayOff(s: State, p: nat, id: MeldId, cards: seq<Card>): (r: Outcome)
    requires p < |s.players|
    ensures Shaped(s) ==> Shaped(r.state)
  {
    var mi := FindMeld(s.melds, id);
    if mi == -1 then Rejected(s, NoSuchMeld)
    else
      match LaidOff(s.melds[mi], cards, s.rules.minMeldLen)
      case None => Rejected(s, LayOffInvalid)
      case Some(u) => Accepted(WithLayOff(s, p, mi, u, cards, Removed(s.players[p].hand, cards)))
  }

  // ----- the draw phase ----------------------------------------------------------------

  function DrawFromDeck(s: State, p: nat): State
    requires p < |s.players|
  {
    if s.drawPile == [] then
      s.(firstMove := false, roundOver := true, phase := PhaseRoundOver, endReason := DeckExhaust)
    else
      var pl := s.players[p].(hand := s.players[p].hand + [s.drawPile[0]]);
      s.(firstMove := false, drawPile := s.drawPile[1..], phase := PhaseMeld,
         players := s.players[p := pl])
  }

  function LastIndex(pile: seq<Card>, c: Card): (i: int)
    ensures -1 <= i < |pile|
    ensures i >= 0 ==> pile[i] == c
  {
    if pile == [] then -1
    else if pile[|pile| - 1] == c then |pile| - 1
    else LastIndex(pile[..|pile| - 1], c)
  }

  /** The top of the pile, or the named card closest to the top. */
  function TargetIndex(pile: seq<Card>, target: Option<Card>): (i: int)
    ensures -1 <= i < |pile|
  {
    match target
    case None => |pile| - 1
    case Some(c) => LastIndex(pile, c)
  }

  /** Of the supporting cards, those not found among the pile cards above the target. */
  function FromHand(support: seq<Card>, above: seq<Card>): seq<Card>
    decreases |support|
  {
    if support == [] then []
    else if support[0] in above then FromHand(support[1..], RemoveFirst(above, support[0]))
    else [support[0]] + FromHand(support[1..], above)
  }

  /** The pile cards above the target that the support does not claim. */
  function Extras(support: seq<Card>, above: seq<Card>): seq<Card>
    decreases |support|
  {
    if support == [] then above
    else if support[0] in above then Extras(support[1..], RemoveFirst(above, support[0]))
    else Extras(support[1..], above)
  }

  /** The original discarder of a picked-up card pays, unless it is the picker or no one. */
  function Charged(s: State, p: nat, ti: nat): seq<int>
    requires Shaped(s) && ti < |s.discardPile|
  {
    var d := s.discardedBy[ti];
    if d >= 0 && d != p then s.dumpPenalties[d := s.dumpPenalties[d] + s.rules.dumpPenalty]
    else s.dumpPenalties
  }

  /** Taking the target and everything above it off the pile. */
  function PileTaken(s: State, p: nat, ti: nat): (r: State)
    requires Shaped(s) && ti < |s.discardPile|
    ensures Shaped(r)
  {
    s.(dumpPenalties := Charged(s, p, ti), discardPile := s.discardPile[..ti],
       discardedBy := s.discardedBy[..ti], phase := PhaseMeld)
  }

  ghost function PickUpOnto(s: State, p: nat, ti: nat, id: MeldId): (r: Outcome)
    requires Shaped(s) && p < |s.players| && ti < |s.discardPile|
    ensures Shaped(r.state)
  {
    var mi := FindMeld(s.melds, id);
    var target := s.discardPile[ti];
    if mi == -1 then Rejected(s, NoSuchMeld)
    else
      match LaidOff(s.melds[mi], [target], s.rules.minMeldLen)
      case None => Rejected(s, PickupNeedsMeld)
      case Some(u) =>
        var hand := s.players[p].hand + s.discardPile[ti + 1..];
        Accepted(WithLayOff(PileTaken(s, p, ti), p, mi, u, [target], hand))
  }

  ghost function PickUpMeld(s: State, p: nat, ti: nat, support: seq<Card>): (r: Outcome)
    requires Shaped(s) && p < |s.players| && ti < |s.discardPile|
    ensures Shaped(r.state)
  {
    var above := s.discardPile[ti + 1..];
    var fromHand := FromHand(support, above);
    var hand := s.players[p].hand;
    var s' := s.(nextMeldSeq := s.nextMeldSeq + 1);
    if |support| < s.rules.minMeldLen - 1 then Rejected(s, PickupNeedsMeld)
    else if !HandContains(hand, fromHand) then Rejected(s, CardNotHeld)
    else
      match MakeMeld(s'.nextMeldSeq, support + [s.discardPile[ti]], p, s.rules.minMeldLen)
      case Err(_) => Rejected(s', PickupNeedsMeld)
      case Ok(m) =>
        Accepted(WithMeld(PileTaken(s', p, ti), p, m,
                          Removed(hand + Extras(support, above), fromHand)))
  }

  ghost function PickUp(s: State, p: nat, target: Option<Card>, support: seq<Card>,
                        onto: Option<MeldId>): (r: Outcome)
    requires Shaped(s) && p < |s.players|
    ensures Shaped(r.state)
  {
    var ti := TargetIndex(s.discardPile, target);
    if s.firstMove then Rejected(s, MustDrawDeck)
    else if s.discardPile == [] then Rejected(s, EmptyDiscard)
    else if ti == -1 then Rejected(s, CardNotHeld)
    else
      match onto
      case Some(id) => PickUpOnto(s, p, ti, id)
      case None => PickUpMeld(s, p, ti, support)
  }

  ghost function ApplyDraw(s: State, p: nat, a: Action): (r: Outcome)
    requires Shaped(s) && p < |s.players|
    ensures Shaped(r.state)
  {
    match a
    case DrawDeck => Accepted(DrawFromDeck(s, p))
    case DrawDiscard(target, support, onto) => PickUp(s, p, target, support, onto)
    case _ => Rejected(s, WrongPhase)
  }

  // ----- the meld phase ----------------------------------------------------------------

  ghost function ApplyMeld(s: State, p: nat, cards: seq<Card>): (r: Outcome)
    requires p < |s.players|
    ensures Shaped(s) ==> Shaped(r.state)
  {
    if !HandContains(s.players[p].hand, cards) then Rejected(s, CardNotHeld)
    else PlaceMeld(s, p, cards)
  }

  ghost function ApplyLayOff(s: State, p: nat, id: MeldId, cards: seq<Card>): (r: Outcome)
    requires p < |s.players|
    ensures Shaped(s) ==> Shaped(r.state)
  {
    if FindMeld(s.melds, id) == -1 then Rejected(s, NoSuchMeld)
    else if !HandContains(s.players[p].hand, cards) then Rejected(s, CardNotHeld)
    else PlaceLayOff(s, p, id, cards)
  }

  /** Whether every meld of player p, and there is one, is of the knock card's suit only. */
  predicate KnockSuitBoard(melds: seq<Meld>, p: int, suit: Suit) {
    && (exists m :: m in melds && m.owner == p)
    && forall m :: m in melds && m.owner == p ==> forall c :: c in m.cards ==> c.suit == suit
  }

  function WentOut(s: State, p: nat, c: Card, dark: bool): State
    requires p < |s.players|
  {
    WithHand(s, p, Removed(s.players[p].hand, [c]))
    .(roundOver := true, phase := PhaseRoundOver, endReason := ByKnock, knocker := p,
      knockDark := dark, knockSuit := KnockSuitBoard(s.melds, p, c.suit), knocked := Some(c))
  }

  ghost function ApplyKnock(s: State, p: nat, c: Card, dark: bool): (r: Outcome)
    requires p < |s.players|
    ensures Shaped(s) ==> Shaped(r.state)
  {
    if s.players[p].hand != [c] then Rejected(s, BadKnock)
    else Accepted(WentOut(s, p, c, dark && !s.players[p].producedAtTurnStart))
  }

  ghost function LayGroups(s: State, p: nat, groups: seq<seq<Card>>): (r: Outcome)
    requires p < |s.players|
    ensures |r.state.players| == |s.players| && (Shaped(s) ==> Shaped(r.state))
    decreases |groups|
  {
    if groups == [] then Accepted(s)
    else
      match PlaceMeld(s, p, groups[0])
      case Rejected(t, e) => Rejected(t, e)
      case Accepted(t) => LayGroups(t, p, groups[1..])
  }

  ghost function LaySteps(s: State, p: nat, steps: seq<LayoffStep>): (r: Outcome)
    requires p < |s.players|
    ensures |r.state.players| == |s.players| && (Shaped(s) ==> Shaped(r.state))
    decreases |steps|
  {
    if steps == [] then Accepted(s)
    else
      match PlaceLayOff(s, p, steps[0].meldID, steps[0].cards)
      case Rejected(t, e) => Rejected(t, e)
      case Accepted(t) => LaySteps(t, p, steps[1..])
  }

  /** Carrying out a plan: its new melds, then its lay-offs, then the knock. */
  ghost function Replay(s: State, p: nat, plan: Plan): (r: Outcome)
    requires p < |s.players|
    ensures Shaped(s) ==> Shaped(r.state)
  {
    match LayGroups(s, p, plan.newMelds)
    case Rejected(t, e) => Rejected(t, e)
    case Accepted(t) =>
      match LaySteps(t, p, plan.layoffs)
      case Rejected(u, e) => Rejected(u, e)
      case Accepted(u) => Accepted(WentOut(u, p, plan.knockCard, u.knockDark))
  }

  ghost function ApplyAutoKnock(s: State, p: nat): (r: Outcome)
    requires p < |s.players|
    ensures Shaped(s) ==> Shaped(r.state)
  {
    match Solve(s.players[p].hand, s.melds, s.rules.minMeldLen)
    case None => Rejected(s, BadKnock)
    case Some(plan) => Replay(s, p, plan)
  }

  ghost predicate LayableOnAny(melds: seq<Meld>, c: Card, minLen: nat) {
    exists m :: m in melds && LaidOff(m, [c], minLen).Some?
  }

  /** A discard that could have been laid off is charged to its discarder. */
  ghost function DumpCharged(s: State, p: nat, c: Card): State
    requires p < |s.dumpPenalties|
  {
    if LayableOnAny(s.melds, c, s.rules.minMeldLen)
    then s.(dumpPenalties := s.dumpPenalties[p := s.dumpPenalties[p] + s.rules.dumpPenalty])
    else s
  }

  function Piled(s: State, p: nat, c: Card): State {
    s.(discardPile := s.discardPile + [c], discardedBy := s.discardedBy + [p])
  }

  function NextSeat(s: State): State
    requires s.players != []
  {
    var next := (s.turn + 1) % |s.players|;
    var pl := s.players[next];
    s.(turn := next, phase := PhaseDraw,
       players := s.players[next := pl.(producedAtTurnStart := pl.produced)])
  }

  /** The card goes on the pile and the turn to the next seat. */
  function TurnPassed(s: State, p: nat, c: Card): State
    requires p < |s.players|
  {
    NextSeat(Piled(s, p, c))
  }

  ghost function Discarded(s: State, p: nat, c: Card): State
    requires Shaped(s) && p < |s.players|
  {
    TurnPassed(WithHand(DumpCharged(s, p, c), p, Removed(s.players[p].hand, [c])), p, c)
  }

  ghost function ApplyDiscard(s: State, p: nat, c: Card): (r: Outcome)
    requires Shaped(s) && p < |s.players|
    ensures Shaped(r.state)
  {
    if !HandContains(s.players[p].hand, [c]) then Rejected(s, CardNotHeld)
    else Accepted(Discarded(s, p, c))
  }

  ghost function ApplyMeldPhase(s: State, p: nat, a: Action): (r: Outcome)
    requires Shaped(s) && p < |s.players|
    ensures Shaped(r.state)
  {
    match a
    case LayMeld(cards) => ApplyMeld(s, p, cards)
    case LayOffCards(id, cards) => ApplyLayOff(s, p, id, cards)
    case Knock(c, dark) => ApplyKnock(s, p, c, dark)
    case AutoKnock => ApplyAutoKnock(s, p)
    case Discard(c) => ApplyDiscard(s, p, c)
    case _ => Rejected(s, WrongPhase)
  }

  // ----- one action --------------------------------------------------------------------

  ghost function Apply(s: State, p: int, a: Action): (r: Outcome)
    requires Shaped(s)
    ensures Shaped(r.state)
  {
    if s.roundOver then Rejected(s, RoundIsOver)
    else if p != s.turn then Rejected(s, NotYourTurn)
    else
      match s.phase
      case PhaseDraw => ApplyDraw(s, p, a)
      case PhaseMeld => ApplyMeldPhase(s, p, a)
      case _ => Rejected(s, WrongPhase)
  }
}
