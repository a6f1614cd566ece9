/** The engine's methods over one mutable round (server/internal/game/engine.go, state.go).
    Every method is proved to do what its function in `Rules` says. */
module Engine {
  import opened Bags
  import opened Cards
  import opened Melds
  import opened LayOff
  import opened Solver
  import opened Deck
  import opened Rules

  // ----- loops over card slices --------------------------------------------------------

  /** The first unused slot of `s` that holds c, or -1. */
  method FirstFree(s: seq<Card>, used: array<bool>, c: Card) returns (k: int)
    requires used.Length == |s|
    ensures -1 <= k < |s|
    ensures k >= 0 ==> !used[k] && s[k] == c && forall i :: 0 <= i < k ==> used[i] || s[i] != c
    ensures k < 0 ==> forall i :: 0 <= i < |s| ==> used[i] || s[i] != c
  {
    for i := 0 to |s|
      invariant forall j :: 0 <= j < i ==> used[j] || s[j] != c
    {
      if !used[i] && s[i] == c {
        return i;
      }
    }
    return -1;
  }

  /** Marks a slot of the hand for every card, or fails if one has none. */
  method Mark(hand: seq<Card>, cards: seq<Card>) returns (ok: bool, used: array<bool>)
    ensures ok == Rules.HandContains(hand, cards)
    ensures fresh(used) && used.Length == |hand|
    ensures ok ==> Unmarked(hand, used[..], 0) == RemoveAll(hand, cards)
  {
    hide Unmarked, RemoveAll, RemoveFirst;
    used := new bool[|hand|](_ => false);
    UnmarkedNone(hand, used[..], 0);
    RemoveNone(hand, cards[..0]);
    for n := 0 to |cards|
      invariant multiset(cards[..n]) <= multiset(hand)
      invariant Unmarked(hand, used[..], 0) == RemoveAll(hand, cards[..n])
    {
      var c := cards[n];
      var k := FirstFree(hand, used, c);
      TakeOneMore(hand, cards, n);
      if k < 0 {
        NotUnmarked(hand, used[..], c, 0);
        return false, used;
      }
      MarkFirst(hand, used[..], c, k, 0);
      ghost var before := used[..];
      used[k] := true;
      assert used[..] == before[k := true];
    }
    assert cards[..|cards|] == cards;
    return true, used;
  }

  lemma RemoveNone(hand: seq<Card>, cards: seq<Card>)
    requires cards == []
    ensures RemoveAll(hand, cards) == hand
  {
  }

  /** Whether one more card can be taken shows in what is left. */
  lemma TakeOneMore(hand: seq<Card>, cards: seq<Card>, n: nat)
    requires n < |cards| && multiset(cards[..n]) <= multiset(hand)
    ensures RemoveAll(hand, cards[..n + 1]) == RemoveFirst(RemoveAll(hand, cards[..n]), cards[n])
    ensures (cards[n] in RemoveAll(hand, cards[..n])) == (multiset(cards[..n + 1]) <= multiset(hand))
    ensures cards[n] !in RemoveAll(hand, cards[..n]) ==> !Rules.HandContains(hand, cards)
  {
    var taken, c := cards[..n], cards[n];
    assert cards[..n + 1] == taken + [c];
    RemoveAllAppend(hand, taken, [c]);
    assert [c][1..] == [];
    RemoveAllBag(hand, taken);
    assert (c in RemoveAll(hand, taken)) == (c in multiset(RemoveAll(hand, taken)));
    assert cards == cards[..n + 1] + cards[n + 1..];
  }

  /** The unmarked elements, in order. */
  method Filter(s: seq<Card>, used: array<bool>) returns (r: seq<Card>)
    requires used.Length == |s|
    ensures r == Unmarked(s, used[..], 0)
  {
    r := [];
    for i := 0 to |s|
      invariant r + Unmarked(s, used[..], i) == Unmarked(s, used[..], 0)
    {
      if !used[i] {
        r := r + [s[i]];
      }
    }
  }

  /** Splits the supporting cards of a pick-up: cards of the pile above the target are
      claimed first; what is not among them must come from the hand. */
  method ClaimAbove(support: seq<Card>, above: seq<Card>)
    returns (fromHand: seq<Card>, extras: seq<Card>)
    ensures fromHand == FromHand(support, above) && extras == Extras(support, above)
  {
    hide FromHand, Extras, Unmarked, RemoveFirst;
    fromHand := [];
    var used := new bool[|above|](_ => false);
    UnmarkedNone(above, used[..], 0);
    for n := 0 to |support|
      invariant fromHand + FromHand(support[n..], Unmarked(above, used[..], 0))
             == FromHand(support, above)
      invariant Extras(support[n..], Unmarked(above, used[..], 0)) == Extras(support, above)
    {
      var c := support[n];
      ClaimOne(support, n, Unmarked(above, used[..], 0));
      var matched := FirstFree(above, used, c);
      if matched >= 0 {
        MarkFirst(above, used[..], c, matched, 0);
        ghost var before := used[..];
        used[matched] := true;
        assert used[..] == before[matched := true];
      } else {
        NotUnmarked(above, used[..], c, 0);
        fromHand := fromHand + [c];
      }
    }
    NoMoreClaims(support[|support|..], Unmarked(above, used[..], 0));
    extras := Filter(above, used);
  }

  /** Claiming one more supporting card. */
  lemma ClaimOne(support: seq<Card>, n: nat, above: seq<Card>)
    requires n < |support|
    ensures var c, rest := support[n], support[n + 1..];
            && FromHand(support[n..], above)
            == (if c in above then FromHand(rest, RemoveFirst(above, c)) else [c] + FromHand(rest, above))
            && Extras(support[n..], above)
            == (if c in above then Extras(rest, RemoveFirst(above, c)) else Extras(rest, above))
  {
    assert support[n..][0] == support[n] && support[n..][1..] == support[n + 1..];
  }

  lemma NoMoreClaims(support: seq<Card>, above: seq<Card>)
    requires support == []
    ensures FromHand(support, above) == [] && Extras(support, above) == above
  {
  }

  /** Searches the pile from the top for the wanted card. */
  method LocateTarget(pile: seq<Card>, target: Option<Card>) returns (ti: int)
    ensures ti == TargetIndex(pile, target)
  {
    if target.None? {
      return |pile| - 1;
    }
    ti := |pile| - 1;
    assert pile[..|pile|] == pile;
    while ti >= 0
      invariant -1 <= ti < |pile|
      invariant LastIndex(pile[..ti + 1], target.value) == LastIndex(pile, target.value)
    {
      if pile[ti] == target.value {
        return;
      }
      assert pile[..ti + 1][..ti] == pile[..ti];
      ti := ti - 1;
    }
  }

  method KnockSuitOf(melds: seq<Meld>, p: int, knock: Card) returns (r: bool)
    ensures r == KnockSuitBoard(melds, p, knock.suit)
  {
    var any := false;
    for i := 0 to |melds|
      invariant any == exists m :: m in melds[..i] && m.owner == p
      invariant forall m :: m in melds[..i] && m.owner == p ==>
                  forall c :: c in m.cards ==> c.suit == knock.suit
    {
      var m := melds[i];
      assert melds[..i + 1] == melds[..i] + [m];
      if m.owner != p {
        continue;
      }
      any := true;
      for j := 0 to |m.cards|
        invariant forall k :: 0 <= k < j ==> m.cards[k].suit == knock.suit
      {
        if m.cards[j].suit != knock.suit {
          assert m in melds && m.cards[j] in m.cards;
          return false;
        }
      }
    }
    assert melds[..|melds|] == melds;
    return any;
  }

  method IsLayableOnAny(melds: seq<Meld>, c: Card, rs: RuleSet) returns (r: bool)
    ensures r == LayableOnAny(melds, c, rs.minMeldLen)
  {
    for i := 0 to |melds|
      invariant forall j :: 0 <= j < i ==> LaidOff(melds[j], [c], rs.minMeldLen).None?
    {
      var u := CanLayOff(melds[i], [c], rs);
      if u.Ok? {
        return true;
      }
    }
    return false;
  }

  /** Setting the hand first makes no difference to laying a meld. */
  lemma HandThenMeld(s: State, p: nat, m: Meld, hand: seq<Card>)
    requires p < |s.players|
    ensures WithMeld(WithHand(s, p, hand), p, m, hand) == WithMeld(s, p, m, hand)
  {
    var pl := s.players[p].(hand := hand, melds := s.players[p].melds + [m.id], produced := true);
    assert s.players[p := s.players[p].(hand := hand)][p := pl] == s.players[p := pl];
  }

  lemma HandsInARow(s: State, p: nat, first: seq<Card>, second: seq<Card>)
    requires p < |s.players|
    ensures WithHand(WithHand(s, p, first), p, second) == WithHand(s, p, second)
  {
    var pl := s.players[p];
    assert s.players[p := pl.(hand := first)][p := pl.(hand := second)]
        == s.players[p := pl.(hand := second)];
  }

  // ----- the round ---------------------------------------------------------------------

  class GameState {
    var players: seq<Player>
    var turn: nat
    var phase: Phase
    var drawPile: seq<Card>
    var discardPile: seq<Card>
    var discardedBy: seq<int>
    var melds: seq<Meld>
    var headCard: Card
    var headOwner: int
    var seed: int
    var firstMove: bool
    var roundOver: bool
    var endReason: EndReason
    var knocker: int
    var knockDark: bool
    var knockSuit: bool
    var rules: RuleSet
    var nextMeldSeq: nat
    var dumpPenalties: seq<int>
    ghost var knocked: Option<Card>

    ghost function Abs(): State
      reads this
    {
      State(players, turn, phase, drawPile, discardPile, discardedBy, melds, headCard, headOwner,
            seed, firstMove, roundOver, endReason, knocker, knockDark, knockSuit, rules,
            nextMeldSeq, dumpPenalties, knocked)
    }

    /** The state after a call, and its error, are those of the outcome. */
    ghost predicate Ended(o: Outcome, err: Option<GameError>)
      reads this
    {
      Abs() == o.state && err == match o case Accepted(_) => None case Rejected(_, e) => Some(e)
    }

    constructor (ids: seq<string>, rs: RuleSet, seed: int, hands: seq<seq<Card>>, head: Card,
                 draw: seq<Card>)
      requires |hands| == |ids|
      ensures Abs() == State(Seated(ids, hands), 0, PhaseDraw, draw, [head], [-1], [], head, -1,
                             seed, true, false, NotEnded, -1, false, false, rs, 0,
                             seq(|ids|, _ => 0), None)
    {
      players := Seated(ids, hands);
      turn, phase, drawPile, discardPile, discardedBy := 0, PhaseDraw, draw, [head], [-1];
      melds, headCard, headOwner, this.seed, firstMove := [], head, -1, seed, true;
      roundOver, endReason, knocker, knockDark, knockSuit := false, NotEnded, -1, false, false;
      rules, nextMeldSeq, dumpPenalties, knocked := rs, 0, seq(|ids|, _ => 0), None;
    }

    method HandContains(p: nat, cards: seq<Card>) returns (ok: bool)
      requires p < |players|
      ensures ok == Rules.HandContains(players[p].hand, cards)
    {
      var used;
      ok, used := Mark(players[p].hand, cards);
    }

    method RemoveFromHand(p: nat, cards: seq<Card>) returns (ok: bool)
      requires p < |players|
      modifies this
      ensures ok == Rules.HandContains(old(players[p].hand), cards)
      ensures Abs() == WithHand(old(Abs()), p, Removed(old(players[p].hand), cards))
    {
      ok := HandContains(p, cards);
      if !ok {
        assert players[p := players[p].(hand := players[p].hand)] == players;
        return;
      }
      var hand := players[p].hand;
      var again, used := Mark(hand, cards);
      var nh := Filter(hand, used);
      SetHand(p, nh);
    }

    method SetHand(p: nat, hand: seq<Card>)
      requires p < |players|
      modifies this
      ensures Abs() == WithHand(old(Abs()), p, hand)
    {
      players := players[p := players[p].(hand := hand)];
    }

    method NextMeldID() returns (id: MeldId)
      modifies this
      ensures id == old(nextMeldSeq) + 1
      ensures Abs() == old(Abs()).(nextMeldSeq := id)
    {
      nextMeldSeq := nextMeldSeq + 1;
      id := nextMeldSeq;
    }

    /** Records the head card's owner the first time it becomes part of a meld. */
    method AbsorbHead(cards: seq<Card>, owner: int)
      modifies this
      ensures Abs() == Rules.AbsorbHead(old(Abs()), cards, owner)
    {
      if headOwner != -1 {
        return;
      }
      for i := 0 to |cards|
        invariant headCard !in cards[..i] && Abs() == old(Abs())
      {
        if cards[i] == headCard {
          headOwner := owner;
          return;
        }
      }
    }

    /** Puts a built meld on the table in player p's name. */
    method AddMeld(p: nat, m: Meld)
      requires p < |players|
      modifies this
      ensures Abs() == WithMeld(old(Abs()), p, m, old(players[p].hand))
    {
      melds := melds + [m];
      players := players[p := players[p].(melds := players[p].melds + [m.id])];
      players := players[p := players[p].(produced := true)];
      AbsorbHead(m.cards, p);
    }

    method LayNewMeld(p: nat, cards: seq<Card>) returns (err: Option<GameError>)
      requires p < |players|
      modifies this
      ensures Ended(PlaceMeld(old(Abs()), p, cards), err)
    {
      var id := NextMeldID();
      var m := NewMeld(id, cards, p, rules);
      if m.Err? {
        return Some(m.error);
      }
      ghost var s' := Abs();
      var _ := RemoveFromHand(p, cards);
      HandThenMeld(s', p, m.value, players[p].hand);
      AddMeld(p, m.value);
      return None;
    }

    method LayOffOnto(p: nat, id: MeldId, cards: seq<Card>) returns (err: Option<GameError>)
      requires p < |players|
      modifies this
      ensures Ended(PlaceLayOff(old(Abs()), p, id, cards), err)
    {
      var mi := FindMeld(melds, id);
      if mi == -1 {
        return Some(NoSuchMeld);
      }
      var updated := CanLayOff(melds[mi], cards, rules);
      if updated.Err? {
        return Some(updated.error);
      }
      var _ := RemoveFromHand(p, cards);
      melds := melds[mi := updated.value];
      AbsorbHead(cards, melds[mi].owner);
      return None;
    }

    method ApplyMeld(p: nat, cards: seq<Card>) returns (err: Option<GameError>)
      requires p < |players|
      modifies this
      ensures Ended(Rules.ApplyMeld(old(Abs()), p, cards), err)
    {
      var held := HandContains(p, cards);
      if !held {
        return Some(CardNotHeld);
      }
      err := LayNewMeld(p, cards);
    }

    method ApplyLayOff(p: nat, id: MeldId, cards: seq<Card>) returns (err: Option<GameError>)
      requires p < |players|
      modifies this
      ensures Ended(Rules.ApplyLayOff(old(Abs()), p, id, cards), err)
    {
      var mi := FindMeld(melds, id);
      if mi == -1 {
        return Some(NoSuchMeld);
      }
      var held := HandContains(p, cards);
      if !held {
        return Some(CardNotHeld);
      }
      err := LayOffOnto(p, id, cards);
    }

    /** Takes the last card and ends the round for player p. */
    method GoOut(p: nat, c: Card, dark: bool)
      requires p < |players|
      modifies this
      ensures Abs() == WentOut(old(Abs()), p, c, dark)
    {
      hide Removed, KnockSuitBoard, Rules.HandContains;
      var _ := RemoveFromHand(p, [c]);
      roundOver, phase, endReason, knocker := true, PhaseRoundOver, ByKnock, p;
      knockDark, knocked := dark, Some(c);
      knockSuit := KnockSuitOf(melds, p, c);
    }

    method ApplyKnock(p: nat, c: Card, dark: bool) returns (err: Option<GameError>)
      requires p < |players|
      modifies this
      ensures Ended(Rules.ApplyKnock(old(Abs()), p, c, dark), err)
    {
      var hand := players[p].hand;
      if |hand| != 1 || hand[0] != c {
        return Some(BadKnock);
      }
      GoOut(p, c, dark && !players[p].producedAtTurnStart);
      return None;
    }

    method ReplayGroups(p: nat, groups: seq<seq<Card>>) returns (err: Option<GameError>)
      requires p < |players|
      modifies this
      ensures Ended(LayGroups(old(Abs()), p, groups), err)
    {
      for i := 0 to |groups|
        invariant p < |players|
        invariant LayGroups(Abs(), p, groups[i..]) == LayGroups(old(Abs()), p, groups)
      {
        assert groups[i..][0] == groups[i] && groups[i..][1..] == groups[i + 1..];
        err := LayNewMeld(p, groups[i]);
        if err.Some? {
          return;
        }
      }
      return None;
    }

    method ReplaySteps(p: nat, steps: seq<LayoffStep>) returns (err: Option<GameError>)
      requires p < |players|
      modifies this
      ensures Ended(LaySteps(old(Abs()), p, steps), err)
    {
      for i := 0 to |steps|
        invariant p < |players|
        invariant LaySteps(Abs(), p, steps[i..]) == LaySteps(old(Abs()), p, steps)
      {
        assert steps[i..][0] == steps[i] && steps[i..][1..] == steps[i + 1..];
        err := LayOffOnto(p, steps[i].meldID, steps[i].cards);
        if err.Some? {
          return;
        }
      }
      return None;
    }

    /** Asks the solver for a plan and carries it out; nothing is undone on an error. */
    method ApplyAutoKnock(p: nat) returns (err: Option<GameError>)
      requires p < |players|
      modifies this
      ensures Ended(Rules.ApplyAutoKnock(old(Abs()), p), err)
    {
      var plan := SolveAutoKnock(players[p].hand, melds, p, rules);
      if plan.None? {
        return Some(BadKnock);
      }
      err := ReplayGroups(p, plan.value.newMelds);
      if err.Some? {
        return;
      }
      err := ReplaySteps(p, plan.value.layoffs);
      if err.Some? {
        return;
      }
      GoOut(p, plan.value.knockCard, knockDark);
      return None;
    }

    method ApplyDiscard(p: nat, c: Card) returns (err: Option<GameError>)
      requires Shaped(Abs()) && p < |players|
      modifies this
      ensures Ended(Rules.ApplyDiscard(old(Abs()), p, c), err)
    {
      var held := HandContains(p, [c]);
      if !held {
        return Some(CardNotHeld);
      }
      ChargeDump(p, c);
      var _ := RemoveFromHand(p, [c]);
      PassTurn(p, c);
      return None;
    }

    method ChargeDump(p: nat, c: Card)
      requires p < |dumpPenalties|
      modifies this
      ensures Abs() == DumpCharged(old(Abs()), p, c)
    {
      var layable := IsLayableOnAny(melds, c, rules);
      if layable {
        dumpPenalties := dumpPenalties[p := dumpPenalties[p] + rules.dumpPenalty];
      }
    }

    method PassTurn(p: nat, c: Card)
      requires p < |players|
      modifies this
      ensures Abs() == TurnPassed(old(Abs()), p, c)
    {
      discardPile, discardedBy := discardPile + [c], discardedBy + [p];
      SeatNext();
    }

    method SeatNext()
      requires players != []
      modifies this
      ensures Abs() == NextSeat(old(Abs()))
    {
      turn := (turn + 1) % |players|;
      phase := PhaseDraw;
      players := players[turn := players[turn].(producedAtTurnStart := players[turn].produced)];
    }

    method ApplyMeldPhase(p: nat, a: Action) returns (err: Option<GameError>)
      requires Shaped(Abs()) && p < |players|
      modifies this
      ensures Ended(Rules.ApplyMeldPhase(old(Abs()), p, a), err)
    {
      match a
      case LayMeld(cards) => err := ApplyMeld(p, cards);
      case LayOffCards(id, cards) => err := ApplyLayOff(p, id, cards);
      case Knock(c, dark) => err := ApplyKnock(p, c, dark);
      case AutoKnock => err := ApplyAutoKnock(p);
      case Discard(c) => err := ApplyDiscard(p, c);
      case _ => err := Some(WrongPhase);
    }

    method DrawDeckCard(p: nat)
      requires p < |players|
      modifies this
      ensures Abs() == DrawFromDeck(old(Abs()), p)
    {
      firstMove := false;
      if drawPile == [] {
        roundOver, phase, endReason := true, PhaseRoundOver, DeckExhaust;
      } else {
        TakeTopCard(p);
      }
    }

    method TakeTopCard(p: nat)
      requires p < |players| && drawPile != []
      modifies this
      ensures var pl := old(players[p]).(hand := old(players[p].hand) + [old(drawPile)[0]]);
              Abs() == old(Abs()).(players := old(players)[p := pl], drawPile := old(drawPile)[1..],
                                   phase := PhaseMeld)
    {
      var hand := players[p].hand + [drawPile[0]];
      players := players[p := players[p].(hand := hand)];
      drawPile, phase := drawPile[1..], PhaseMeld;
    }

    /** Charges the discarder of the target and takes the pile down to it. */
    method TakePile(p: nat, ti: nat)
      requires Shaped(Abs()) && ti < |discardPile|
      modifies this
      ensures Abs() == PileTaken(old(Abs()), p, ti)
    {
      var dumper := discardedBy[ti];
      if dumper >= 0 && dumper != p {
        dumpPenalties := dumpPenalties[dumper := dumpPenalties[dumper] + rules.dumpPenalty];
      }
      discardPile := discardPile[..ti];
      discardedBy := discardedBy[..ti];
      phase := PhaseMeld;
    }

    method PickUpOnto(p: nat, ti: nat, id: MeldId) returns (err: Option<GameError>)
      requires Shaped(Abs()) && p < |players| && ti < |discardPile|
      modifies this
      ensures Ended(Rules.PickUpOnto(old(Abs()), p, ti, id), err)
    {
      var target := discardPile[ti];
      var mi := FindMeld(melds, id);
      if mi == -1 {
        return Some(NoSuchMeld);
      }
      var updated := CanLayOff(melds[mi], [target], rules);
      if updated.Err? {
        return Some(PickupNeedsMeld);
      }
      var extras := discardPile[ti + 1..];
      TakePile(p, ti);
      SetHand(p, players[p].hand + extras);
      melds := melds[mi := updated.value];
      AbsorbHead([target], melds[mi].owner);
      return None;
    }

    method PickUpMeld(p: nat, ti: nat, support: seq<Card>) returns (err: Option<GameError>)
      requires Shaped(Abs()) && p < |players| && ti < |discardPile|
      modifies this
      ensures Ended(Rules.PickUpMeld(old(Abs()), p, ti, support), err)
    {
      hide MakeMeld, WithMeld, PileTaken, Removed, FromHand, Extras, Rules.HandContains;
      if |support| < rules.minMeldLen - 1 {
        return Some(PickupNeedsMeld);
      }
      var fromHand, extras := ClaimAbove(support, discardPile[ti + 1..]);
      var held := HandContains(p, fromHand);
      if !held {
        return Some(CardNotHeld);
      }
      var combined := support + [discardPile[ti]];
      var id := NextMeldID();
      var m := NewMeld(id, combined, p, rules);
      if m.Err? {
        return Some(PickupNeedsMeld);
      }
      MeldFromPile(p, ti, m.value, fromHand, extras);
      return None;
    }

    /** Takes the pile, pulls the unclaimed cards into the hand, and lays the meld. */
    method MeldFromPile(p: nat, ti: nat, m: Meld, fromHand: seq<Card>, extras: seq<Card>)
      requires Shaped(Abs()) && p < |players| && ti < |discardPile|
      modifies this
      ensures Abs() == WithMeld(PileTaken(old(Abs()), p, ti), p, m,
                                Removed(old(players[p].hand) + extras, fromHand))
    {
      TakePile(p, ti);
      ghost var taken := Abs();
      SetHand(p, players[p].hand + extras);
      var _ := RemoveFromHand(p, fromHand);
      HandsInARow(taken, p, old(players[p].hand) + extras, players[p].hand);
      HandThenMeld(taken, p, m, players[p].hand);
      AddMeld(p, m);
    }

    method PickUp(p: nat, target: Option<Card>, support: seq<Card>, onto: Option<MeldId>)
      returns (err: Option<GameError>)
      requires Shaped(Abs()) && p < |players|
      modifies this
      ensures Ended(Rules.PickUp(old(Abs()), p, target, support, onto), err)
    {
      if firstMove {
        return Some(MustDrawDeck);
      }
      if discardPile == [] {
        return Some(EmptyDiscard);
      }
      var ti := LocateTarget(discardPile, target);
      if ti == -1 {
        return Some(CardNotHeld);
      }
      if onto.Some? {
        err := PickUpOnto(p, ti, onto.value);
      } else {
        err := PickUpMeld(p, ti, support);
      }
    }

    method ApplyDraw(p: nat, a: Action) returns (err: Option<GameError>)
      requires Shaped(Abs()) && p < |players|
      modifies this
      ensures Ended(Rules.ApplyDraw(old(Abs()), p, a), err)
    {
      match a
      case DrawDeck =>
        DrawDeckCard(p);
        err := None;
      case DrawDiscard(target, support, onto) => err := PickUp(p, target, support, onto);
      case _ => err := Some(WrongPhase);
    }

    method ApplyAction(p: int, a: Action) returns (err: Option<GameError>)
      requires Shaped(Abs())
      modifies this
      ensures Ended(Apply(old(Abs()), p, a), err)
    {
      if roundOver {
        return Some(RoundIsOver);
      }
      if p != turn {
        return Some(NotYourTurn);
      }
      match phase
      case PhaseDraw => err := ApplyDraw(p, a);
      case PhaseMeld => err := ApplyMeldPhase(p, a);
      case _ => err := Some(WrongPhase);
    }
  }

  /** Deals a fresh round; `draws` are the answers of the random generator. */
  method Start(ids: seq<string>, rs: RuleSet, seed: int, draws: seq<nat>)
    returns (g: GameState?, err: Option<GameError>)
    requires Draws(draws, 52)
    requires rs.minPlayers <= |ids| <= rs.maxPlayers ==> |ids| * HandSize(|ids|) < 52
    ensures rs.minPlayers <= |ids| <= rs.maxPlayers <==> g != null
    ensures g == null ==> err == Some(BadPlayerCount)
    ensures g != null ==> err == None && fresh(g)
                          && g.Abs() == Dealt(ids, rs, seed, FisherYates(OrderedDeck(), draws, 52))
  {
    var n := |ids|;
    if n < rs.minPlayers || n > rs.maxPlayers {
      return null, Some(BadPlayerCount);
    }
    var ordered := NewDeck();
    ShufflePermutes(OrderedDeck(), draws, 52);
    var deck := Shuffle(ordered, draws);
    var hands, head, draw := Deal(deck, n);
    HandsFlatten(deck, n, HandSize(n));
    g := new GameState(ids, rs, seed, hands, head, draw);
    return g, None;
  }
}
