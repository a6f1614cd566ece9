/** Rounds in which the code falls short of its documentation, each reached from a deal. */
module Cases {
  import opened Bags
  import opened Cards
  import opened Melds
  import opened Deck
  import opened Rules
  import opened Runs
  import opened Invariants
  import opened Termination
  import opened History
  import opened Grammar
  import opened HandSizes
  import opened Bot
  import opened RoomModel

  // ----- deals -------------------------------------------------------------------------

  /** Draws that put the deck in a given order. */
  lemma DrawsFor(deck: seq<Card>) returns (draws: seq<nat>)
    requires multiset(deck) == multiset(OrderedDeck()) && |deck| == 52
    ensures Draws(draws, 52) && FisherYates(OrderedDeck(), draws, 52) == deck
  {
    hide FisherYates, OrderedDeck;
    DeckIsDistinct();
    ShuffleIsBijection(OrderedDeck(), deck);
    draws :| Draws(draws, 52) && FisherYates(OrderedDeck(), draws, 52) == deck;
  }

  /** The shuffle can put the deck in any order, so a round can start from any deal of it. */
  lemma AnyDealIsInitial(ids: seq<string>, rs: RuleSet, seed: int, deck: seq<Card>)
    requires 2 <= |ids| <= 4 && RoomRules(rs)
    requires multiset(deck) == multiset(OrderedDeck()) && |deck| == 52
    ensures Initial(Dealt(ids, rs, seed, deck))
  {
    hide FisherYates, OrderedDeck, Dealt, RoomRules;
    var draws := DrawsFor(deck);
    assert Dealt(ids, rs, seed, deck) == Shuffled(ids, rs, seed, draws);
  }

  lemma {:induction false} FirstHand(deck: seq<Card>, k: nat, h: nat)
    requires k >= 1 && k * h <= |deck|
    ensures h <= k * h && |Hands(deck, k, h)| == k && Hands(deck, k, h)[0] == deck[..h]
    decreases k
  {
    if k > 1 {
      FirstHand(deck, k - 1, h);
    }
  }

  /** After a deal and the first draw the leader holds the first hand and the first card of the
      draw pile. */
  lemma AfterFirstDraw(ids: seq<string>, rs: RuleSet, seed: int, deck: seq<Card>)
    requires 2 <= |ids| <= 4 && |deck| == 52
    ensures var n := |ids|; var h := HandSize(n); var s := Dealt(ids, rs, seed, deck);
            && n * h + 1 < 52 && Shaped(s)
            && var o := Apply(s, 0, DrawDeck);
            && o.Accepted? && Melding(o.state, 0) && o.state.rules == rs
            && o.state.players[0].hand == deck[..h] + [deck[n * h + 1]]
  {
    hide Dealt, HandSize, RoomRules;
    DealtTop(ids, rs, seed, deck);
    var s := Dealt(ids, rs, seed, deck);
    assert Apply(s, 0, DrawDeck) == Accepted(DrawFromDeck(s, 0));
  }

  lemma DealtTop(ids: seq<string>, rs: RuleSet, seed: int, deck: seq<Card>)
    requires 2 <= |ids| <= 4 && |deck| == 52
    ensures var n := |ids|; var h := HandSize(n);
            && n * h + 1 < 52
            && var s := Dealt(ids, rs, seed, deck);
            && Shaped(s) && !s.roundOver && s.turn == 0 && s.phase == PhaseDraw && s.rules == rs
            && s.players[0].hand == deck[..h] && s.drawPile == deck[n * h + 1..]
  {
    SeatsTimesHand(|ids|);
    hide Hands, HandSize;
    FirstHand(deck, |ids|, HandSize(|ids|));
  }

  lemma SeatsTimesHand(n: nat)
    requires 2 <= n <= 4
    ensures 0 < n * HandSize(n) < 51 && 7 <= HandSize(n) <= 11
  {
    assert n * HandSize(n) == 22 || n * HandSize(n) == 27 || n * HandSize(n) == 28;
  }

  lemma PlayOne(s: State, e: Attempt)
    requires Shaped(s)
    ensures Play(s, [e]) == Apply(s, e.player, e.action).state
  {
    assert [e][..0] == [];
  }

  lemma PlayTwo(s: State, e: Attempt, f: Attempt)
    requires Shaped(s)
    ensures Play(s, [e, f]) == Apply(Apply(s, e.player, e.action).state, f.player, f.action).state
  {
    hide Apply;
    PlayOne(s, e);
    assert [e, f][..1] == [e];
  }

  // ----- a round that gets stuck -------------------------------------------------------

  /** A deck whose first hand and first card to draw are a run from the Ace of clubs. */
  function RunDeck(n: nat): seq<Card>
    requires 2 <= n <= 4
  {
    Swap(OrderedDeck(), HandSize(n), n * HandSize(n) + 1)
  }

  /** With any number of seats, under any rules of a room, a round can get stuck in two moves:
      the leader draws and melds the whole hand. */
  lemma StuckRoundIsReachable(ids: seq<string>, rs: RuleSet, seed: int)
    requires 2 <= |ids| <= 4 && RoomRules(rs)
    ensures var s := Dealt(ids, rs, seed, RunDeck(|ids|));
            var run := Straight(CLUBS, 1, HandSize(|ids|) + 1);
            && Initial(s) && Shaped(s)
            && Stuck(Play(s, [Attempt(0, DrawDeck), Attempt(0, LayMeld(run))]))
  {
    hide Initial, Apply, Stuck, Dealt, Play, Sound;
    var n, deck := |ids|, RunDeck(|ids|);
    var s, run := Dealt(ids, rs, seed, deck), Straight(CLUBS, 1, HandSize(n) + 1);
    RunDeckIsPermuted(n);
    AnyDealIsInitial(ids, rs, seed, deck);
    AfterFirstDraw(ids, rs, seed, deck);
    RunIsDealt(n);
    var e, f := Attempt(0, DrawDeck), Attempt(0, LayMeld(run));
    var t := Apply(s, 0, DrawDeck).state;
    PlayOne(s, e);
    PlayTwo(s, e, f);
    RunIsSound(s, [e]);
    RunIsMeld(run, n, rs.minMeldLen);
    MeldingHandSticks(t);
  }

  lemma RunIsDealt(n: nat)
    requires 2 <= n <= 4
    ensures var h := HandSize(n);
            n * h + 1 < 52 && RunDeck(n)[..h] + [RunDeck(n)[n * h + 1]] == Straight(CLUBS, 1, h + 1)
  {
  }

  lemma RunIsMeld(run: seq<Card>, n: nat, minLen: nat)
    requires 2 <= n <= 4 && run == Straight(CLUBS, 1, HandSize(n) + 1) && minLen <= 4
    ensures Classify(multiset(run), minLen).Some?
  {
    ClassifyRunIs(multiset(run), minLen, CLUBS, 1);
  }

  /** A room of two guests with a fresh round on the table. */
  lemma RoomOfTwo(maxPlayers: nat, password: string, rules: RuleSet, a: string, b: string, seed: int,
                  deck: seq<Card>)
    returns (events: seq<Event>, r: RoomState)
    requires 2 <= maxPlayers <= 4 && RoomRules(rules) && a != b
    requires multiset(deck) == multiset(OrderedDeck()) && |deck| == 52
    ensures Interleaved(NewRoom(maxPlayers, password, rules), events) == Some(r)
    ensures r.game == Some(Dealt([a, b], rules, seed, deck)) && |r.seats| == 2 && SeatOf(r.seats, a) == 0
  {
    hide FisherYates, OrderedDeck, Dealt;
    var draws := DrawsFor(deck);
    var r0 := NewRoom(maxPlayers, password, rules);
    var join, next, start := Join(a, a, password), Join(b, b, password), StartRound(seed, draws);
    var r1 := Joined(r0, a, a, password);
    assert r1.seats == [Seat(a, a, false, false, false)];
    var r2 := Joined(r1, b, b, password);
    assert r2.seats == [Seat(a, a, false, false, false), Seat(b, b, false, false, false)];
    assert GuestIDs(r2.seats) == [a, b];
    r := Started(r2, seed, draws);
    InterleavedOne(r0, join);
    InterleavedOne(r1, next);
    InterleavedOne(r2, start);
    InterleavedAppend(r0, [join], [next]);
    InterleavedAppend(r0, [join] + [next], [start]);
    events := [join] + [next] + [start];
  }

  /** After some events of any two guests in any room, its round is stuck and stays so, whatever
      events follow. */
  lemma RoomCanHang(maxPlayers: nat, password: string, rules: RuleSet, a: string, b: string, seed: int)
    returns (events: seq<Event>)
    requires 2 <= maxPlayers <= 4 && RoomRules(rules) && a != b
    ensures forall more: seq<Event> ::
              var t := Interleaved(NewRoom(maxPlayers, password, rules), events + more);
              t.Some? && Hangs(t.value)
  {
    hide Hangs, RoomOK, Apply, Dealt, Stuck, Initial, RunDeck, Joined, Started, SeatOf;
    var r0, deck := NewRoom(maxPlayers, password, rules), RunDeck(2);
    RunDeckIsPermuted(2);
    var before, r := RoomOfTwo(maxPlayers, password, rules, a, b, seed, deck);
    StuckRoundIsReachable([a, b], rules, seed);
    var s, run := r.game.value, Straight(CLUBS, 1, HandSize(2) + 1);
    PlayTwo(s, Attempt(0, DrawDeck), Attempt(0, LayMeld(run)));
    var draw, meld := GameAction(a, DrawDeck), GameAction(a, LayMeld(run));
    var u := Acted(r, a, DrawDeck);
    InterleavedOne(r, draw);
    InterleavedOne(u, meld);
    InterleavedAppend(r0, before, [draw]);
    InterleavedAppend(r0, before + [draw], [meld]);
    events := before + [draw] + [meld];
    RoundsFinishOnce(maxPlayers, password, rules, events);
    var t := Interleaved(r0, events).value;
    assert Hangs(t) by {
      HangsIf(t);
    }
    forall more: seq<Event>
      ensures var t' := Interleaved(r0, events + more); t'.Some? && Hangs(t'.value)
    {
      InterleavedAppend(r0, events, more);
      HangingRoomStays(t, more);
    }
  }

  lemma RunDeckIsPermuted(n: nat)
    requires 2 <= n <= 4
    ensures multiset(RunDeck(n)) == multiset(OrderedDeck()) && |RunDeck(n)| == 52
  {
    hide OrderedDeck;
    DeckIsDistinct();
    SwapBag(OrderedDeck(), HandSize(n), n * HandSize(n) + 1);
  }

  lemma HangsIf(r: RoomState)
    requires RoomOK(r) && r.game.Some? && Shaped(r.game.value) && Stuck(r.game.value)
    ensures Hangs(r)
  {
  }

  // ----- a hand that outgrows twelve cards ---------------------------------------------

  /** For k turns every seat draws and throws the card drawn away. */
  function Passes(s: State, k: nat): seq<Attempt>
    requires s.players != [] && k <= |s.drawPile|
  {
    if k == 0 then []
    else
      var p := (k - 1) % |s.players|;
      Passes(s, k - 1) + [Attempt(p, DrawDeck), Attempt(p, Discard(s.drawPile[k - 1]))]
  }

  /** A round in the draw phase with nothing on the table. */
  ghost predicate NothingMelded(s: State) {
    && s.phase == PhaseDraw && !s.roundOver && s.melds == [] && s.headOwner == -1
    && s.turn < |s.players|
    && forall q :: 0 <= q < |s.players| ==>
         s.players[q].producedAtTurnStart == s.players[q].produced
  }

  ghost predicate Passed(s: State, t: State, k: nat)
    requires s.players != [] && k <= |s.drawPile|
  {
    && NothingMelded(t) && t.players == s.players && t.rules == s.rules && t.headCard == s.headCard
    && t.turn == k % |s.players| && t.firstMove == (s.firstMove && k == 0)
    && t.drawPile == s.drawPile[k..] && t.discardPile == s.discardPile + s.drawPile[..k]
  }

  /** What a draw followed by a discard of the drawn card leaves. */
  lemma PassStep(t: State)
    requires Sound(t) && Shaped(t) && NothingMelded(t) && t.drawPile != []
    ensures var c := t.drawPile[0];
            var u := Apply(Apply(t, t.turn, DrawDeck).state, t.turn, Discard(c)).state;
            && NothingMelded(u) && u.players == t.players && u.rules == t.rules
            && u.headCard == t.headCard && !u.firstMove
            && u.turn == (t.turn + 1) % |t.players|
            && u.drawPile == t.drawPile[1..] && u.discardPile == t.discardPile + [c]
  {
    DrawnIsNew(t, t.turn);
    hide Sound;
    var c := t.drawPile[0];
    var d := Apply(t, t.turn, DrawDeck).state;
    assert d == WithHand(t.(firstMove := false, drawPile := t.drawPile[1..], phase := PhaseMeld),
                         t.turn, t.players[t.turn].hand + [c]);
    ThrowAway(d, t.players[t.turn].hand, c);
    assert d.players[t.turn := t.players[t.turn]] == t.players;
  }

  lemma ThrowAway(d: State, hand: seq<Card>, c: Card)
    requires Melding(d, d.turn) && d.players[d.turn].hand == hand + [c] && c !in hand
    ensures var u := Apply(d, d.turn, Discard(c)).state; var next := (d.turn + 1) % |d.players|;
            var back := d.players[d.turn := d.players[d.turn].(hand := hand)];
            && u.phase == PhaseDraw && !u.roundOver && u.melds == d.melds && u.rules == d.rules
            && u.headCard == d.headCard && u.headOwner == d.headOwner && u.firstMove == d.firstMove
            && u.turn == next && u.drawPile == d.drawPile && u.discardPile == d.discardPile + [c]
            && u.players == back[next := back[next].(producedAtTurnStart := back[next].produced)]
  {
    hide Removed, HandContains, DumpCharged, TurnPassed;
    RemovedAgain(hand, c);
    DumpCharges(d, d.turn, c);
    var w := WithHand(DumpCharged(d, d.turn, c), d.turn, hand);
    assert Apply(d, d.turn, Discard(c)).state == TurnPassed(w, d.turn, c);
    assert w.players == d.players[d.turn := d.players[d.turn].(hand := hand)];
    PassedOn(w, d.turn, c);
  }

  lemma PassedOn(w: State, p: nat, c: Card)
    requires p < |w.players|
    ensures var u := TurnPassed(w, p, c); var next := (w.turn + 1) % |w.players|;
            u == w.(discardPile := w.discardPile + [c], discardedBy := w.discardedBy + [p],
                    turn := next, phase := PhaseDraw,
                    players := w.players[next := w.players[next].(producedAtTurnStart := w.players[next].produced)])
  {
  }

  lemma DrawnIsNew(t: State, p: nat)
    requires Sound(t) && p < |t.players| && t.drawPile != []
    ensures t.drawPile[0] !in t.players[p].hand
  {
    var c := t.drawPile[0];
    OnceEach(t, c);
    HandInBag(t.players, p, c);
    assert c in multiset(t.drawPile);
  }

  lemma RemovedAgain(hand: seq<Card>, c: Card)
    requires c !in hand
    ensures HandContains(hand + [c], [c]) && Removed(hand + [c], [c]) == hand
  {
    RemoveFirstAgain(hand, c);
    assert RemoveAll(hand + [c], [c]) == RemoveAll(hand, [c][1..]);
    assert [c][1..] == [];
  }

  lemma {:induction false} RemoveFirstAgain(hand: seq<Card>, c: Card)
    requires c !in hand
    ensures RemoveFirst(hand + [c], c) == hand
  {
    if hand != [] {
      assert (hand + [c])[1..] == hand[1..] + [c];
      RemoveFirstAgain(hand[1..], c);
    } else {
      assert ([] + [c])[1..] == [];
    }
  }

  lemma PlayTwoMore(s: State, before: seq<Attempt>, e: Attempt, f: Attempt)
    requires Shaped(s)
    ensures Play(s, before + [e, f])
         == Apply(Apply(Play(s, before), e.player, e.action).state, f.player, f.action).state
  {
    hide Apply;
    var all := before + [e, f];
    assert all[..|all| - 1] == before + [e];
    assert (before + [e])[..|before|] == before;
  }

  lemma PlayOneMore(s: State, before: seq<Attempt>, e: Attempt)
    requires Shaped(s)
    ensures Play(s, before + [e]) == Apply(Play(s, before), e.player, e.action).state
  {
    assert (before + [e])[..|before|] == before;
  }

  lemma {:induction false} PassesPlayed(s: State, k: nat)
    requires Initial(s) && Shaped(s) && NothingMelded(s) && s.turn == 0 && k <= |s.drawPile|
    ensures Passed(s, Play(s, Passes(s, k)), k)
  {
    hide Apply, Initial, Sound, NothingMelded, Play;
    SeatsOf(s);
    if k == 0 {
      PlayNothing(s);
    } else {
      PassesPlayed(s, k - 1);
      var t, c, p := Play(s, Passes(s, k - 1)), s.drawPile[k - 1], (k - 1) % |s.players|;
      RunIsSound(s, Passes(s, k - 1));
      PassStep(t);
      PlayTwoMore(s, Passes(s, k - 1), Attempt(p, DrawDeck), Attempt(p, Discard(c)));
      NextTurn(k - 1, |s.players|);
      assert s.drawPile[..k] == s.drawPile[..k - 1] + [c];
      assert s.discardPile + s.drawPile[..k] == (s.discardPile + s.drawPile[..k - 1]) + [c];
    }
  }

  lemma PlayNothing(s: State)
    requires Shaped(s)
    ensures Play(s, []) == s
  {
  }

  lemma SeatsOf(s: State)
    requires Initial(s)
    ensures 2 <= |s.players| <= 4
  {
    hide Initial, Conserved, TableOK, HeadOK, ProducedOK, RoomRules;
    InitialIsSound(s);
  }

  lemma {:induction false} FromHandIsSupport(support: seq<Card>, above: seq<Card>)
    ensures multiset(FromHand(support, above)) <= multiset(support)
    decreases |support|
  {
    if support != [] {
      assert support == [support[0]] + support[1..];
      if support[0] in above {
        FromHandIsSupport(support[1..], RemoveFirst(above, support[0]));
      } else {
        FromHandIsSupport(support[1..], above);
      }
    }
  }

  lemma {:induction false} LastIndexFinds(pile: seq<Card>, c: Card)
    requires c in pile
    ensures LastIndex(pile, c) >= 0
  {
    if pile[|pile| - 1] != c {
      LastIndexFinds(pile[..|pile| - 1], c);
    }
  }

  /** Picking up the head card from under the pile into a meld with cards of the hand. */
  lemma PickUpHead(t: State, support: seq<Card>)
    requires Sound(t) && Shaped(t) && NothingMelded(t) && !t.firstMove
    requires HandContains(t.players[t.turn].hand, support) && |support| >= t.rules.minMeldLen - 1
    requires Classify(multiset(support + [t.headCard]), t.rules.minMeldLen).Some?
    ensures var u := Apply(t, t.turn, DrawDiscard(Some(t.headCard), support, None)).state;
            && |u.players| == |t.players|
            && |u.players[t.turn].hand|
            == |t.players[t.turn].hand| + |t.discardPile| - 1 - |support|
  {
    var p, a := t.turn, DrawDiscard(Some(t.headCard), support, None);
    HeadIsDeepest(t);
    HeadAccepted(t, support);
    hide Apply, Sound, NothingMelded, Classify, HandContains;
    HandLengths(t, p, a);
  }

  lemma HeadIsDeepest(t: State)
    requires Sound(t) && NothingMelded(t)
    ensures t.discardPile != [] && TargetIndex(t.discardPile, Some(t.headCard)) == 0
  {
    HeadSomewhere(t);
    HeadStaysBelow(t, t.turn);
    hide Sound;
    LastIndexFinds(t.discardPile, t.headCard);
  }

  lemma HeadAccepted(t: State, support: seq<Card>)
    requires Shaped(t) && NothingMelded(t) && !t.firstMove
    requires t.discardPile != [] && TargetIndex(t.discardPile, Some(t.headCard)) == 0
    requires t.discardPile[0] == t.headCard
    requires HandContains(t.players[t.turn].hand, support) && |support| >= t.rules.minMeldLen - 1
    requires Classify(multiset(support + [t.headCard]), t.rules.minMeldLen).Some?
    ensures Apply(t, t.turn, DrawDiscard(Some(t.headCard), support, None)).Accepted?
  {
    hide Classify, TargetIndex, HandContains, PickUpMeld;
    SupportAccepted(t, support);
    assert Apply(t, t.turn, DrawDiscard(Some(t.headCard), support, None))
        == PickUpMeld(t, t.turn, 0, support);
  }

  lemma SupportAccepted(t: State, support: seq<Card>)
    requires Shaped(t) && t.discardPile != []
    requires HandContains(t.players[t.turn].hand, support) && |support| >= t.rules.minMeldLen - 1
    requires Classify(multiset(support + [t.discardPile[0]]), t.rules.minMeldLen).Some?
    ensures PickUpMeld(t, t.turn, 0, support).Accepted?
  {
    hide Classify, FromHand, Extras, WithMeld, Removed, PileTaken, Build, HandContains;
    var above := t.discardPile[1..];
    FromHandIsSupport(support, above);
    HeldPart(t.players[t.turn].hand, support, FromHand(support, above));
  }

  lemma HeldPart(hand: seq<Card>, cards: seq<Card>, part: seq<Card>)
    requires HandContains(hand, cards) && multiset(part) <= multiset(cards)
    ensures HandContains(hand, part)
  {
  }

  /** A deck whose first hand and head card are a run from the Ace of clubs. */
  function HeadDeck(n: nat): seq<Card>
    requires 2 <= n <= 4
  {
    Swap(OrderedDeck(), HandSize(n), n * HandSize(n))
  }

  /** The highest cards of a hand of h clubs from the Ace, as many as a pick-up needs. */
  function Support(h: nat, minLen: nat): seq<Card>
    requires 7 <= h <= 11 && 3 <= minLen <= 4
  {
    Straight(CLUBS, h - minLen + 2, minLen - 1)
  }

  lemma HeadDeckIsPermuted(n: nat)
    requires 2 <= n <= 4
    ensures n * HandSize(n) < 52 && |HeadDeck(n)| == 52
    ensures multiset(HeadDeck(n)) == multiset(OrderedDeck())
  {
    hide OrderedDeck;
    DeckIsDistinct();
    SwapBag(OrderedDeck(), HandSize(n), n * HandSize(n));
  }

  lemma HeadDeckIsDealt(n: nat)
    requires 2 <= n <= 4
    ensures var h := HandSize(n); var deck := Swap(OrderedDeck(), h, n * h);
            && h < n * h < 52 && deck[..h] == Straight(CLUBS, 1, h) && deck[n * h] == Card(CLUBS, h + 1)
  {
    if n == 2 {
    } else if n == 3 {
    } else {
    }
  }

  lemma StraightSplit(s: Suit, lo: nat, a: nat, b: nat)
    requires 1 <= lo && lo + a + b <= 15
    ensures Straight(s, lo, a + b) == Straight(s, lo, a) + Straight(s, lo + a, b)
  {
  }

  lemma StraightLast(s: Suit, lo: nat, n: nat)
    requires 1 <= lo && lo + n <= 13
    ensures Straight(s, lo, n) + [Card(s, lo + n)] == Straight(s, lo, n + 1)
  {
    assert Straight(s, lo, n + 1)[n] == At(s, lo + n);
  }

  lemma StraightIsMeld(s: Suit, lo: nat, n: nat)
    requires 1 <= lo && lo + n <= 14 && n >= 2
    ensures Classify(multiset(Straight(s, lo, n)), n).Some?
  {
    ClassifyRunIs(multiset(Straight(s, lo, n)), n, s, lo);
  }

  lemma SuffixHeld(a: seq<Card>, b: seq<Card>)
    ensures HandContains(a + b, b)
  {
  }

  lemma StraightLength(s: Suit, lo: nat, n: nat)
    requires 1 <= lo && lo + n <= 15
    ensures |Straight(s, lo, n)| == n
  {
  }

  lemma SupportFits(h: nat, minLen: nat)
    requires 7 <= h <= 11 && 3 <= minLen <= 4
    ensures HandContains(Straight(CLUBS, 1, h), Support(h, minLen))
    ensures Classify(multiset(Support(h, minLen) + [Card(CLUBS, h + 1)]), minLen).Some?
    ensures |Support(h, minLen)| == minLen - 1
  {
    hide Classify, HandContains, Straight;
    var lo := h - minLen + 2;
    StraightLength(CLUBS, lo, minLen - 1);
    StraightSplit(CLUBS, 1, lo - 1, minLen - 1);
    SuffixHeld(Straight(CLUBS, 1, lo - 1), Support(h, minLen));
    StraightLast(CLUBS, lo, minLen - 1);
    StraightIsMeld(CLUBS, lo, minLen);
  }

  lemma HeadDealt(ids: seq<string>, rs: RuleSet, seed: int)
    requires 2 <= |ids| <= 4
    ensures var n := |ids|; var h := HandSize(n); var deck := HeadDeck(n);
            && n * h < 52 && |deck| == 52
            && var s := Dealt(ids, rs, seed, deck);
            && Shaped(s) && NothingMelded(s) && s.turn == 0 && |s.players| == n && s.rules == rs
            && s.players[0].hand == Straight(CLUBS, 1, h) && s.headCard == Card(CLUBS, h + 1)
            && |s.drawPile| == 51 - n * h && |s.discardPile| == 1 && s.firstMove
  {
    var n := |ids|;
    HeadDeckIsPermuted(n);
    HeadDeckIsDealt(n);
    assert HeadDeck(n) == Swap(OrderedDeck(), HandSize(n), n * HandSize(n));
    hide HeadDeck, OrderedDeck, Straight, Swap;
    FirstHand(HeadDeck(n), n, HandSize(n));
    hide Hands;
  }

  /** When every seat has thrown away what it drew for k turns and the leader then picks up the
      head card, with just enough cards of the hand, the k cards above it fall into the leader's
      hand. Two players can do this for 28 turns, which leaves 37 cards in one hand. */
  lemma HandOutgrowsBound(ids: seq<string>, rs: RuleSet, seed: int, k: nat) returns (attempts: seq<Attempt>)
    requires 2 <= |ids| <= 4 && RoomRules(rs)
    requires 0 < k <= 51 - |ids| * HandSize(|ids|) && k % |ids| == 0
    ensures |ids| * HandSize(|ids|) < |HeadDeck(|ids|)|
    ensures var s := Dealt(ids, rs, seed, HeadDeck(|ids|));
            && Initial(s) && Shaped(s)
            && var t := Play(s, attempts);
               t.players != [] && |t.players[0].hand| == HandSize(|ids|) + k + 1 - rs.minMeldLen
  {
    hide Initial, Dealt, Play, Sound, Apply, NothingMelded, HeadDeck, Support, Classify, HandContains;
    var n := |ids|;
    HeadDeckIsPermuted(n);
    HeadDealt(ids, rs, seed);
    SeatsTimesHand(n);
    var h := HandSize(n);
    SupportFits(h, rs.minMeldLen);
    AnyDealIsInitial(ids, rs, seed, HeadDeck(n));
    var s := Dealt(ids, rs, seed, HeadDeck(n));
    PassesPlayed(s, k);
    RunIsSound(s, Passes(s, k));
    var t := Play(s, Passes(s, k));
    var pick := Attempt(0, DrawDiscard(Some(s.headCard), Support(h, rs.minMeldLen), None));
    PickUpHead(t, Support(h, rs.minMeldLen));
    PlayOneMore(s, Passes(s, k), pick);
    attempts := Passes(s, k) + [pick];
  }

  lemma HandOf37(ids: seq<string>, rs: RuleSet, seed: int) returns (attempts: seq<Attempt>)
    requires |ids| == 2 && RoomRules(rs) && rs.minMeldLen == 3
    ensures 2 * HandSize(2) < |HeadDeck(2)|
    ensures var s := Dealt(ids, rs, seed, HeadDeck(2));
            && Initial(s) && Shaped(s)
            && Play(s, attempts).players != [] && |Play(s, attempts).players[0].hand| == 37
  {
    hide Initial, Dealt, Play, HeadDeck, RoomRules;
    attempts := HandOutgrowsBound(ids, rs, seed, 28);
  }

  // ----- an illegal play by the bot ----------------------------------------------------

  /** A deck that gives the leader of four the Ace, Two and Three of clubs, no other two cards
      that go together, and the Four of hearts to draw. */
  function ScatteredDeck(): (d: seq<Card>)
    ensures |d| == 52
  {
    Swap(Swap(Swap(Swap(OrderedDeck(), 3, 20), 4, 22), 5, 24), 6, 31)
  }

  function ScatteredHand(): seq<Card> {
    Straight(CLUBS, 1, 3) + [Card(DIAMONDS, 8), Card(DIAMONDS, 10), Card(DIAMONDS, 12)]
    + [Card(HEARTS, 6), Card(HEARTS, 4)]
  }

  /** In a room whose melds need four cards, the bot may come to play an illegal meld on its very
      first turn. */
  lemma BotPlaysIllegally(ids: seq<string>, rs: RuleSet, seed: int) returns (a: Action)
    requires |ids| == 4 && RoomRules(rs) && rs.minMeldLen == 4
    ensures var s := Dealt(ids, rs, seed, ScatteredDeck());
            && Initial(s) && Shaped(s)
            && var t := Play(s, [Attempt(0, DrawDeck)]);
               t.turn == 0 && BotPlays(t, a) && Apply(t, 0, a).Rejected?
  {
    hide Initial, Apply, Dealt, Play, Sound, BotPlays, NoMeldToLay, HasMeldOf, ScatteredDeck;
    var s := Dealt(ids, rs, seed, ScatteredDeck());
    ScatteredIsPermuted();
    ScatteredIsDealt();
    AnyDealIsInitial(ids, rs, seed, ScatteredDeck());
    AfterFirstDraw(ids, rs, seed, ScatteredDeck());
    var e := Attempt(0, DrawDeck);
    var t := Apply(s, 0, DrawDeck).state;
    PlayOne(s, e);
    RunIsSound(s, [e]);
    ScatteredMelds();
    a := BotHasPlay(t);
    BotPlayIsLegalIffSafe(t, a);
  }

  lemma ScatteredIsPermuted()
    ensures multiset(ScatteredDeck()) == multiset(OrderedDeck())
  {
    hide OrderedDeck, Swap;
    DeckIsDistinct();
    var a := OrderedDeck();
    var b := Swapped(a, 3, 20);
    var c := Swapped(b, 4, 22);
    var d := Swapped(c, 5, 24);
    var e := Swapped(d, 6, 31);
  }

  lemma Swapped(s: seq<Card>, i: nat, j: nat) returns (t: seq<Card>)
    requires i < |s| && j < |s|
    ensures t == Swap(s, i, j) && |t| == |s| && multiset(t) == multiset(s)
  {
    t := Swap(s, i, j);
  }

  lemma ScatteredIsDealt()
    ensures ScatteredDeck()[..7] + [ScatteredDeck()[29]] == ScatteredHand()
  {
    var hand := ScatteredHand();
    assert hand[0] == Card(0, 1) && hand[1] == Card(0, 2) && hand[2] == Card(0, 3);
  }

  /** The hand has a meld of three and none of four. */
  lemma ScatteredMelds()
    ensures !NoMeldToLay(ScatteredHand()) && !HasMeldOf(ScatteredHand(), 4)
  {
    hide Classify, HasMeldOf;
    var three, hand := Straight(CLUBS, 1, 3), ScatteredHand();
    RunOfThree();
    assert multiset(three) <= multiset(hand);
    MeldOfSize(hand, multiset(three));
    if HasMeldOf(hand, 4) {
      var b := TheMeld(hand, 4);
      NoFour(b);
    }
  }

  lemma RunOfThree()
    ensures Classify(multiset(Straight(CLUBS, 1, 3)), 3).Some?
    ensures |multiset(Straight(CLUBS, 1, 3))| == 3
  {
    ClassifyRunIs(multiset(Straight(CLUBS, 1, 3)), 3, CLUBS, 1);
  }

  lemma TheMeld(hand: seq<Card>, k: nat) returns (b: multiset<Card>)
    requires HasMeldOf(hand, k)
    ensures b <= multiset(hand) && |b| == k && Classify(b, 3).Some?
  {
    hide Classify;
    b :| b <= multiset(hand) && |b| == k && Classify(b, DefaultRuleSet().minMeldLen).Some?;
  }

  /** Of the hand's cards no two have one rank, only three are clubs, and the others all have
      even ranks, so no four go together. */
  lemma NoFour(b: multiset<Card>)
    requires b <= multiset(ScatteredHand()) && |b| == 4
    ensures Classify(b, 3).None?
  {
    hide ScatteredHand, RunOf, SameRank;
    NoFourOfRank(b);
    forall s: Suit, lo: nat ensures !RunOf(b, s, lo) {
      NoFourInRow(b, s, lo);
    }
  }

  lemma NoFourOfRank(b: multiset<Card>)
    requires b <= multiset(ScatteredHand()) && |b| == 4
    ensures !SameRank(b)
  {
    hide ScatteredHand;
    ScatteredRanks();
    TwoOfBag(b);
    var c, d :| c in b && d in b - multiset{c};
    HeldOnce(b, c);
    HeldOnce(b, d);
  }

  lemma HeldOnce(b: multiset<Card>, c: Card)
    requires b <= multiset(ScatteredHand()) && c in b
    ensures c in ScatteredHand() && b[c] == 1
  {
    hide ScatteredHand;
    ScatteredIsDistinct();
    DistinctBag(ScatteredHand(), c);
    assert b[c] <= multiset(ScatteredHand())[c];
  }

  lemma NoFourInRow(b: multiset<Card>, s: Suit, lo: nat)
    requires b <= multiset(ScatteredHand()) && |b| == 4
    ensures !RunOf(b, s, lo)
  {
    hide ScatteredHand;
    ScatteredRanks();
    if RunOf(b, s, lo) {
      SpanOf(b, s, lo);
      HeldOnce(b, At(s, lo));
      HeldOnce(b, At(s, lo + 1));
      HeldOnce(b, At(s, lo + 2));
      HeldOnce(b, At(s, lo + 3));
    }
  }

  lemma TwoOfBag(b: multiset<Card>)
    requires |b| >= 2
    ensures exists c, d :: c in b && d in b - multiset{c}
  {
    var c :| c in b;
    assert |b - multiset{c}| >= 1;
    var d :| d in b - multiset{c};
  }

  lemma ScatteredRanks()
    ensures forall c, d :: c in ScatteredHand() && d in ScatteredHand() && c.rank == d.rank ==> c == d
    ensures forall c :: c in ScatteredHand() && c.suit == CLUBS ==> c.rank <= 3
    ensures forall c :: c in ScatteredHand() && c.suit != CLUBS ==> c.rank % 2 == 0
  {
    var hand := ScatteredHand();
    assert |hand| == 8 && hand[0].rank == 1 && hand[1].rank == 2 && hand[2].rank == 3;
  }

  lemma ScatteredIsDistinct()
    ensures Distinct(ScatteredHand())
  {
    var hand := ScatteredHand();
    assert hand[0].rank == 1 && hand[1].rank == 2 && hand[2].rank == 3;
  }
}
