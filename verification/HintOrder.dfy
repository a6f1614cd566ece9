/** Which hint is given: knock before meld before lay-off before discard, and among equals the
    first found. */
module HintOrder {
  import opened Bags
  import opened Cards
  import opened Melds
  import opened LayOff
  import opened Solver
  import opened SolverProof
  import opened SolverOrder
  import opened Rules
  import opened Runs
  import opened Conservation
  import opened Invariants
  import opened Combos
  import opened Hints
  import opened HintProof

  // ----- the first combination ---------------------------------------------------------

  /** Enumerating stops at the first entry of the list that stops it, if there is one. */
  lemma {:induction false} FirstInIsFirst(list: seq<seq<nat>>, stop: seq<nat> -> bool) returns (t: nat)
    ensures match FirstIn(list, stop)
            case None => forall u :: 0 <= u < |list| ==> !stop(list[u])
            case Some(x) =>
              t < |list| && list[t] == x && stop(x) && forall u :: 0 <= u < t ==> !stop(list[u])
  {
    hide UpTo, Stopped;
    t := 0;
    if list == [] {
      UpToNone(stop);
    } else {
      var x, rest := list[0], list[1..];
      assert list == [x] + rest;
      UpToCons(x, rest, stop);
      StoppedOne(x, stop);
      if !stop(x) {
        StoppedLater(x, UpTo(rest, stop), stop);
        t := FirstInIsFirst(rest, stop);
        RestDecides(x, UpTo(rest, stop), stop);
        assert forall u :: 1 <= u < |list| ==> list[u] == rest[u - 1];
        t := t + 1;
      }
    }
  }

  lemma RestDecides(x: seq<nat>, visited: seq<seq<nat>>, stop: seq<nat> -> bool)
    requires !stop(x)
    ensures Stopped(visited, stop) ==>
              visited != [] && ([x] + visited)[|visited|] == visited[|visited| - 1]
  {
  }

  /** The cards at some indices. */
  function CardsAt(hand: seq<Card>, x: seq<nat>): seq<Card>
    requires forall i :: 0 <= i < |x| ==> x[i] < |hand|
  {
    seq(|x|, i requires 0 <= i < |x| => hand[x[i]])
  }

  lemma {:induction false} PickIsCardsAt(hand: seq<Card>, x: seq<nat>)
    requires forall i :: 0 <= i < |x| ==> x[i] < |hand|
    ensures Pick(hand, x) == CardsAt(hand, x)
  {
    if x != [] {
      PickIsCardsAt(hand, x[1..]);
      assert CardsAt(hand, x) == [hand[x[0]]] + CardsAt(hand, x[1..]);
    }
  }

  /** The cards at ascending indices that are the lexicographically first to be a meld of the
      minimum length. */
  ghost predicate FirstMeldAt(hand: seq<Card>, k: nat, x: seq<nat>) {
    && IsCombo(x, 0, |hand|, k) && Classify(multiset(CardsAt(hand, x)), k).Some?
    && forall y :: IsCombo(y, 0, |hand|, k) && LexLess(y, x) ==>
         Classify(multiset(CardsAt(hand, y)), k).None?
  }

  lemma FirstMeldIsFirst(hand: seq<Card>, k: nat) returns (x: seq<nat>)
    requires k >= 1 && FirstMeld(hand, k).Some?
    ensures FirstMeldAt(hand, k, x) && FirstMeld(hand, k).value == CardsAt(hand, x)
  {
    hide CombosFrom, FirstIn, Classify, Accepts, Pick, LexLess;
    var list, probe := CombosFrom(0, |hand|, k), Probe(hand, k);
    var t := FirstInIsFirst(list, probe);
    x := list[t];
    ListedAreCombos(0, |hand|, k);
    PickIsCardsAt(hand, x);
    AcceptsIsClassify(Pick(hand, x), k);
    forall y | IsCombo(y, 0, |hand|, k) && LexLess(y, x)
      ensures Classify(multiset(CardsAt(hand, y)), k).None?
    {
      var u := CombosAreListed(y, 0, |hand|, k);
      EarlierIsLess(0, |hand|, k, u, t);
      PickIsCardsAt(hand, y);
      AcceptsIsClassify(Pick(hand, y), k);
    }
  }

  /** An entry that is less than another is listed before it. */
  lemma EarlierIsLess(i: nat, n: nat, k: nat, u: nat, t: nat)
    requires u < |CombosFrom(i, n, k)| && t < |CombosFrom(i, n, k)|
    requires |CombosFrom(i, n, k)[u]| == |CombosFrom(i, n, k)[t]|
    requires LexLess(CombosFrom(i, n, k)[u], CombosFrom(i, n, k)[t])
    ensures u < t
  {
    hide CombosFrom, LexLess;
    if t < u {
      ListIsOrdered(i, n, k, t, u);
      LessIsOneWay(CombosFrom(i, n, k)[u], CombosFrom(i, n, k)[t]);
    } else if u == t {
      LessIsOneWay(CombosFrom(i, n, k)[u], CombosFrom(i, n, k)[t]);
    }
  }

  lemma {:induction false} LessIsOneWay(x: seq<nat>, y: seq<nat>)
    requires |x| == |y| && LexLess(x, y)
    ensures !LexLess(y, x)
  {
    if x[0] == y[0] {
      LessIsOneWay(x[1..], y[1..]);
    }
  }

  // ----- the first lay-off and the dearest card ----------------------------------------

  /** The first table meld that takes a card of the hand alone, and its first such card. */
  ghost predicate FirstLayOffAt(melds: seq<Meld>, hand: seq<Card>, minLen: nat, mi: nat, j: nat) {
    && mi < |melds| && j < |hand| && LaidOff(melds[mi], [hand[j]], minLen).Some?
    && (forall i, l :: 0 <= i < mi && 0 <= l < |hand| ==> LaidOff(melds[i], [hand[l]], minLen).None?)
    && forall l :: 0 <= l < j ==> LaidOff(melds[mi], [hand[l]], minLen).None?
  }

  lemma {:induction false} FirstFitIsFirst(m: Meld, hand: seq<Card>, minLen: nat, i: nat) returns (j: nat)
    requires i <= |hand| && FirstFit(m, hand, minLen, i).Some?
    ensures i <= j < |hand| && FirstFit(m, hand, minLen, i) == Some(SuggestLayOff(hand[j], m.id))
    ensures LaidOff(m, [hand[j]], minLen).Some?
    ensures forall l :: i <= l < j ==> LaidOff(m, [hand[l]], minLen).None?
    decreases |hand| - i
  {
    hide LaidOff;
    j := i;
    if LaidOff(m, [hand[i]], minLen).None? {
      j := FirstFitIsFirst(m, hand, minLen, i + 1);
    }
  }

  lemma {:induction false} FirstLayOffIsFirst(melds: seq<Meld>, hand: seq<Card>, minLen: nat, from: nat)
    returns (mi: nat, j: nat)
    requires from <= |melds| && FirstLayOff(melds, hand, minLen, from).Some?
    requires forall i, l :: 0 <= i < from && 0 <= l < |hand| ==> LaidOff(melds[i], [hand[l]], minLen).None?
    ensures FirstLayOffAt(melds, hand, minLen, mi, j)
    ensures FirstLayOff(melds, hand, minLen, from) == Some(SuggestLayOff(hand[j], melds[mi].id))
    decreases |melds| - from
  {
    hide LaidOff, FirstFit;
    if FirstFit(melds[from], hand, minLen, 0).Some? {
      mi := from;
      j := FirstFitIsFirst(melds[from], hand, minLen, 0);
    } else {
      FirstFitFinds(melds[from], hand, minLen, 0);
      mi, j := FirstLayOffIsFirst(melds, hand, minLen, from + 1);
    }
  }

  /** The first of the cards that cost most in hand. */
  ghost predicate DearestAt(hand: seq<Card>, rs: RuleSet, j: nat) {
    && j < |hand|
    && (forall i :: 0 <= i < |hand| ==> HandCardPenalty(hand[i], rs) <= HandCardPenalty(hand[j], rs))
    && forall i :: 0 <= i < j ==> HandCardPenalty(hand[i], rs) < HandCardPenalty(hand[j], rs)
  }

  lemma {:induction false} HighestIsDearest(hand: seq<Card>, rs: RuleSet) returns (j: nat)
    requires hand != []
    ensures DearestAt(hand, rs, j) && Highest(hand, rs) == Some(hand[j])
  {
    hide Points;
    var n := |hand| - 1;
    var init := hand[..n];
    assert hand == init + [hand[n]];
    if init == [] {
      j := 0;
    } else {
      j := HighestIsDearest(init, rs);
      assert forall i :: 0 <= i < n ==> init[i] == hand[i];
      if Points(hand[n], rs, false) > Points(init[j], rs, false) {
        j := n;
      }
    }
  }

  // ----- the priorities ----------------------------------------------------------------

  /** The round as it is when it is player p's turn. */
  function AtTurn(s: State, p: nat): State {
    s.(turn := p)
  }

  lemma AtTurnIsSound(s: State, p: nat)
    requires Sound(s) && p < |s.players| && s.phase == PhaseMeld
    ensures Sound(AtTurn(s, p)) && Melding(AtTurn(s, p), p)
  {
    hide Zones, ValidMeld, Owns, RoomRules;
    assert Zones(AtTurn(s, p)) == Zones(s) by { SameZones(s, p); }
  }

  lemma SameZones(s: State, p: nat)
    ensures Zones(AtTurn(s, p)) == Zones(s)
  {
  }

  /** The hand is not one card, and could be gone out with. */
  ghost predicate CanKnock(t: State, p: nat)
    requires Melding(t, p)
  {
    |t.players[p].hand| != 1 && CanGoOut(t, p)
  }

  ghost predicate CanMeld(t: State, p: nat)
    requires Shaped(t)
  {
    exists cards: seq<Card> :: Apply(t, p, LayMeld(cards)).Accepted?
  }

  ghost predicate CanLay(t: State, p: nat)
    requires Shaped(t)
  {
    exists id: MeldId, cards: seq<Card> :: Apply(t, p, LayOffCards(id, cards)).Accepted?
  }

  lemma SolvedIffCanKnock(t: State, p: nat)
    requires Sound(t) && Melding(t, p)
    ensures Solve(t.players[p].hand, t.melds, t.rules.minMeldLen).Some? <==> CanKnock(t, p)
  {
    hide Conserved, HeadOK, ProducedOK, CanGoOut, FirstSome;
    SolverExact(t, p);
  }

  lemma FoundIffCanMeld(t: State, p: nat)
    requires Sound(t) && Melding(t, p)
    ensures FirstMeld(t.players[p].hand, t.rules.minMeldLen).Some? <==> CanMeld(t, p)
  {
    hide Conserved, HeadOK, ProducedOK, TableOK, Apply, Classify, FirstMeld;
    var hand, k := t.players[p].hand, t.rules.minMeldLen;
    FirstMeldExact(hand, k);
    if FirstMeld(hand, k).Some? {
      MeldAccepted(t, p, FirstMeld(hand, k).value);
    }
    if cards: seq<Card> :| Apply(t, p, LayMeld(cards)).Accepted? {
      MeldAccepted(t, p, cards);
    }
  }

  lemma FoundIffCanLay(t: State, p: nat)
    requires Sound(t) && Melding(t, p)
    ensures FirstLayOff(t.melds, t.players[p].hand, t.rules.minMeldLen, 0).Some? <==> CanLay(t, p)
  {
    hide Conserved, HeadOK, ProducedOK, Apply, LaidOff, FirstLayOff;
    var hand, k := t.players[p].hand, t.rules.minMeldLen;
    FirstLayOffFinds(t.melds, hand, k, 0);
    if FirstLayOff(t.melds, hand, k, 0).Some? {
      HintedLayOffAccepted(t, p, FirstLayOff(t.melds, hand, k, 0).value);
    }
    if id: MeldId, cards: seq<Card> :| Apply(t, p, LayOffCards(id, cards)).Accepted? {
      LayOffAccepted(t, p, id, cards);
      BatchHasSingle(t.melds[FindMeld(t.melds, id)], hand, cards, k);
    }
  }

  /** Which kind of hint a seat is given in the meld phase: to knock when it could go out (but not
      with its last card), else to meld when any meld would be accepted from it, else to lay off
      when any lay-off would, else to discard. */
  lemma HintPriorities(s: State, p: nat)
    requires Sound(s) && p < |s.players| && s.phase == PhaseMeld
    ensures Sound(AtTurn(s, p)) && Melding(AtTurn(s, p), p)
    ensures var t, r := AtTurn(s, p), Suggest(s, p);
            && (r.SuggestKnock? <==> CanKnock(t, p))
            && (r.SuggestMeld? <==> !CanKnock(t, p) && CanMeld(t, p))
            && (r.SuggestLayOff? <==> !CanKnock(t, p) && !CanMeld(t, p) && CanLay(t, p))
            && (r.SuggestDiscard? <==> !CanKnock(t, p) && !CanMeld(t, p) && !CanLay(t, p))
  {
    hide Sound, Melding, CanKnock, CanMeld, CanLay, Solve, FirstMeld, FirstLayOff, Highest;
    AtTurnIsSound(s, p);
    SolvedIffCanKnock(AtTurn(s, p), p);
    FoundIffCanMeld(AtTurn(s, p), p);
    FoundIffCanLay(AtTurn(s, p), p);
    LayOffHintIsLayOff(s, p);
  }

  lemma LayOffHintIsLayOff(s: State, p: nat)
    requires p < |s.players|
    ensures var r := FirstLayOff(s.melds, s.players[p].hand, s.rules.minMeldLen, 0);
            r.Some? ==> r.value.SuggestLayOff?
  {
    hide LaidOff, FirstLayOff;
    FirstLayOffFinds(s.melds, s.players[p].hand, s.rules.minMeldLen, 0);
  }

  /** What the hint names: the first card that can be kept back, the first meld in the order of
      the enumeration, the first card for the first meld that takes one, or the first of the
      cards that cost most. */
  ghost predicate NamesFirst(s: State, p: nat, r: Suggestion)
    requires p < |s.players|
  {
    var hand, k := s.players[p].hand, s.rules.minMeldLen;
    match r
    case SuggestDraw => false
    case SuggestKnock(c) =>
      exists j :: 0 <= j < |hand| && hand[j] == c
        && Coverable(multiset(hand) - multiset{c}, s.melds, k)
        && forall i :: 0 <= i < j ==> !Coverable(multiset(hand) - multiset{hand[i]}, s.melds, k)
    case SuggestMeld(cards) => exists x :: FirstMeldAt(hand, k, x) && cards == CardsAt(hand, x)
    case SuggestLayOff(c, id) =>
      exists mi: nat, j: nat ::
        FirstLayOffAt(s.melds, hand, k, mi, j) && c == hand[j] && id == s.melds[mi].id
    case SuggestDiscard(Some(c)) => exists j: nat :: DearestAt(hand, s.rules, j) && c == hand[j]
    case SuggestDiscard(None) => hand == []
  }

  lemma HintNamesFirst(s: State, p: nat)
    requires p < |s.players| && s.phase != PhaseDraw && s.rules.minMeldLen >= 1
    ensures NamesFirst(s, p, Suggest(s, p))
  {
    hide Solve, FirstMeld, FirstLayOff, Highest, Coverable, FirstMeldAt, FirstLayOffAt, DearestAt;
    var hand, k := s.players[p].hand, s.rules.minMeldLen;
    if Solve(hand, s.melds, k).Some? {
      var j := SolveIsFirst(hand, s.melds, k);
    } else if FirstMeld(hand, k).Some? {
      var x := FirstMeldIsFirst(hand, k);
    } else if FirstLayOff(s.melds, hand, k, 0).Some? {
      var mi, j := FirstLayOffIsFirst(s.melds, hand, k, 0);
    } else if hand != [] {
      var j := HighestIsDearest(hand, s.rules);
    } else {
      NothingHighest(s.rules);
    }
  }

  lemma NothingHighest(rs: RuleSet)
    ensures Highest([], rs).None?
  {
  }

  /** To draw is hinted in the draw phase, and to whoever has no seat. */
  lemma DrawHintIff(s: State, p: int)
    requires s.rules.minMeldLen >= 1
    ensures Suggest(s, p).SuggestDraw? <==> p < 0 || p >= |s.players| || s.phase == PhaseDraw
  {
    hide Solve, FirstMeld, FirstLayOff, Highest;
    if 0 <= p < |s.players| && s.phase != PhaseDraw {
      HintNamesFirst(s, p);
    }
  }
}
