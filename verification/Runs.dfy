/** Sequences of actions by one player, and what the auto-knock button is worth: it lights up
    exactly when the player can go out by hand, and pressing it does the same as playing the
    plan move by move. */
module Runs {
  import opened Bags
  import opened Cards
  import opened Melds
  import opened LayOff
  import opened Solver
  import opened SolverProof
  import opened Rules

  /** The state after a sequence of actions by player p, if all of them are accepted. */
  ghost function RunAll(s: State, p: int, acts: seq<Action>): Option<State>
    requires Shaped(s)
    decreases |acts|
  {
    if acts == [] then Some(s)
    else
      match Apply(s, p, acts[0])
      case Rejected(_, _) => None
      case Accepted(t) => RunAll(t, p, acts[1..])
  }

  /** Laying melds and lay-offs by hand, then knocking with the last card. */
  ghost predicate GoesOut(s: State, p: int, acts: seq<Action>)
    requires Shaped(s)
  {
    && acts != []
    && (forall i :: 0 <= i < |acts| - 1 ==> acts[i].LayMeld? || acts[i].LayOffCards?)
    && acts[|acts| - 1].Knock?
    && RunAll(s, p, acts).Some?
  }

  /** It is player p's meld phase. */
  ghost predicate Melding(s: State, p: int) {
    Shaped(s) && !s.roundOver && s.turn == p && s.phase == PhaseMeld
  }

  /** Meld numbers on the table are used once and were all handed out. */
  predicate Numbered(s: State) {
    UniqueIds(s.melds) && forall i :: 0 <= i < |s.melds| ==> 1 <= s.melds[i].id <= s.nextMeldSeq
  }

  lemma {:induction false} RunAppend(s: State, p: int, a: seq<Action>, b: seq<Action>)
    requires Shaped(s) && RunAll(s, p, a).Some? && Shaped(RunAll(s, p, a).value)
    ensures RunAll(s, p, a + b) == RunAll(RunAll(s, p, a).value, p, b)
    decreases |a|
  {
    hide Apply;
    if a == [] {
      assert a + b == b;
    } else {
      assert (a + b)[0] == a[0] && (a + b)[1..] == a[1..] + b;
      RunAppend(Apply(s, p, a[0]).state, p, a[1..], b);
    }
  }

  // ----- the plan as actions -----------------------------------------------------------

  function MeldActions(groups: seq<seq<Card>>): (r: seq<Action>)
    ensures forall a :: a in r ==> a.LayMeld?
  {
    if groups == [] then [] else [LayMeld(groups[0])] + MeldActions(groups[1..])
  }

  function StepActions(steps: seq<LayoffStep>): (r: seq<Action>)
    ensures forall a :: a in r ==> a.LayOffCards?
  {
    if steps == [] then []
    else [LayOffCards(steps[0].meldID, steps[0].cards)] + StepActions(steps[1..])
  }

  function PlanActions(plan: Plan): seq<Action> {
    MeldActions(plan.newMelds) + StepActions(plan.layoffs) + [Knock(plan.knockCard, false)]
  }

  ghost function HandBag(s: State, p: nat): multiset<Card>
    requires p < |s.players|
  {
    multiset(s.players[p].hand)
  }

  /** What laying down keeps, for the steps of a plan. */
  ghost predicate LaidDown(s: State, t: State, p: nat, cards: multiset<Card>) {
    && Melding(s, p) && Melding(t, p) && Numbered(t)
    && HandBag(t, p) + cards == HandBag(s, p)
    && t.rules == s.rules && t.knockDark == s.knockDark
  }

  lemma RemovedBag(hand: seq<Card>, cards: seq<Card>)
    requires HandContains(hand, cards)
    ensures multiset(Removed(hand, cards)) + multiset(cards) == multiset(hand)
  {
    RemoveAllBag(hand, cards);
  }

  lemma WithMeldLaysDown(s: State, p: nat, m: Meld, cards: seq<Card>)
    requires Melding(s, p) && Numbered(s) && HandContains(s.players[p].hand, cards)
    requires m.id == s.nextMeldSeq + 1
    ensures var t := WithMeld(s.(nextMeldSeq := m.id), p, m, Removed(s.players[p].hand, cards));
            LaidDown(s, t, p, multiset(cards)) && t.melds == s.melds + [m]
  {
    hide HandContains, Removed;
    RemovedBag(s.players[p].hand, cards);
  }

  lemma WithLayOffLaysDown(s: State, p: nat, mi: nat, u: Meld, cards: seq<Card>)
    requires Melding(s, p) && Numbered(s) && HandContains(s.players[p].hand, cards)
    requires mi < |s.melds| && u.id == s.melds[mi].id
    ensures var t := WithLayOff(s, p, mi, u, cards, Removed(s.players[p].hand, cards));
            LaidDown(s, t, p, multiset(cards)) && t.melds == s.melds[mi := u]
  {
    hide HandContains, Removed;
    RemovedBag(s.players[p].hand, cards);
  }

  /** An accepted meld takes its cards from the hand and adds one meld to the table. */
  lemma MeldStep(s: State, p: nat, cards: seq<Card>)
    requires Melding(s, p) && Numbered(s) && HandContains(s.players[p].hand, cards)
    requires Classify(multiset(cards), s.rules.minMeldLen).Some?
    ensures PlaceMeld(s, p, cards).Accepted? && Apply(s, p, LayMeld(cards)) == PlaceMeld(s, p, cards)
    ensures var t := PlaceMeld(s, p, cards).state;
            var m := MakeMeld(s.nextMeldSeq + 1, cards, p, s.rules.minMeldLen);
            LaidDown(s, t, p, multiset(cards)) && m.Ok? && t.melds == s.melds + [m.value]
  {
    hide WithMeld, Classify, LaidDown, HandContains, Removed, Numbered;
    var m := MakeMeld(s.nextMeldSeq + 1, cards, p, s.rules.minMeldLen).value;
    WithMeldLaysDown(s, p, m, cards);
  }

  lemma LayOffStep(s: State, p: nat, id: MeldId, cards: seq<Card>)
    requires Melding(s, p) && Numbered(s) && HandContains(s.players[p].hand, cards)
    requires FindMeld(s.melds, id) != -1
    requires LaidOff(s.melds[FindMeld(s.melds, id)], cards, s.rules.minMeldLen).Some?
    ensures PlaceLayOff(s, p, id, cards).Accepted?
    ensures Apply(s, p, LayOffCards(id, cards)) == PlaceLayOff(s, p, id, cards)
    ensures var t := PlaceLayOff(s, p, id, cards).state;
            var mi := FindMeld(s.melds, id);
            && LaidDown(s, t, p, multiset(cards))
            && t.melds == s.melds[mi := LaidOff(s.melds[mi], cards, s.rules.minMeldLen).value]
  {
    hide WithLayOff, LaidOff, LaidDown, HandContains, Removed, Numbered, FindMeld;
    var mi := FindMeld(s.melds, id);
    LaidOffIsValid(s.melds[mi], cards, s.rules.minMeldLen);
    WithLayOffLaysDown(s, p, mi, LaidOff(s.melds[mi], cards, s.rules.minMeldLen).value, cards);
  }

  lemma BagLeft(a: multiset<Card>, b: multiset<Card>, c: multiset<Card>)
    requires b + c <= a + b
    ensures c <= a
  {
    forall x ensures c[x] <= a[x] {
      assert (b + c)[x] <= (a + b)[x];
    }
  }

  // ----- a found plan can be carried out -----------------------------------------------

  lemma {:induction false} GroupsRun(s: State, p: nat, groups: seq<seq<Card>>)
    requires Melding(s, p) && Numbered(s) && GroupsFit(groups, s.rules.minMeldLen)
    requires GroupCards(groups) <= HandBag(s, p)
    ensures LayGroups(s, p, groups).Accepted?
    ensures var t := LayGroups(s, p, groups).state;
            && RunAll(s, p, MeldActions(groups)) == Some(t)
            && LaidDown(s, t, p, GroupCards(groups)) && s.melds <= t.melds
    decreases |groups|
  {
    hide Apply, PlaceMeld, Classify, Numbered;
    if groups != [] {
      MeldStep(s, p, groups[0]);
      var t := PlaceMeld(s, p, groups[0]).state;
      assert forall i :: 0 <= i < |groups[1..]| ==> groups[1..][i] == groups[i + 1];
      BagLeft(HandBag(t, p), multiset(groups[0]), GroupCards(groups[1..]));
      GroupsRun(t, p, groups[1..]);
      assert MeldActions(groups)[1..] == MeldActions(groups[1..]);
    }
  }

  lemma {:induction false} StepsRun(s: State, p: nat, steps: seq<LayoffStep>)
    requires Melding(s, p) && Numbered(s) && StepsFit(steps, s.melds, s.rules.minMeldLen)
    requires StepCards(steps) <= HandBag(s, p)
    ensures LaySteps(s, p, steps).Accepted?
    ensures var t := LaySteps(s, p, steps).state;
            && RunAll(s, p, StepActions(steps)) == Some(t)
            && LaidDown(s, t, p, StepCards(steps))
    decreases |steps|
  {
    hide Apply, PlaceLayOff, LaidOff, Numbered;
    if steps != [] {
      LayOffStep(s, p, steps[0].meldID, steps[0].cards);
      var t := PlaceLayOff(s, p, steps[0].meldID, steps[0].cards).state;
      BagLeft(HandBag(t, p), multiset(steps[0].cards), StepCards(steps[1..]));
      StepsRun(t, p, steps[1..]);
      assert StepActions(steps)[1..] == StepActions(steps[1..]);
    }
  }

  /** New melds on the table do not disturb the planned lay-offs. */
  lemma {:induction false} StepsFitMore(steps: seq<LayoffStep>, a: seq<Meld>, b: seq<Meld>, minLen: nat)
    requires StepsFit(steps, a, minLen) && a <= b
    ensures StepsFit(steps, b, minLen)
    decreases |steps|
  {
    if steps != [] {
      var mi := FindMeld(a, steps[0].meldID);
      assert FindMeld(b, steps[0].meldID) == mi;
      var u := LaidOff(a[mi], steps[0].cards, minLen).value;
      StepsFitMore(steps[1..], a[mi := u], b[mi := u], minLen);
    }
  }

  lemma BagOfOne(hand: seq<Card>, c: Card)
    requires multiset(hand) == multiset{c}
    ensures hand == [c]
  {
    SeqBagSize(hand);
    assert hand[0] in multiset(hand);
  }

  lemma OneCardLeft<T>(s: multiset<T>, t: multiset<T>, u: multiset<T>, g: multiset<T>, l: multiset<T>,
                       k: multiset<T>)
    requires t + g == s && u + l == t && g + l + k == s
    ensures u == k
  {
    assert u == (u + l + g) - l - g;
    assert k == (g + l + k) - l - g;
  }

  /** A plan that places all cards but one is carried out without an error, and playing its
      moves one by one comes to the same. */
  lemma PlanReplays(s: State, p: nat, plan: Plan)
    requires Melding(s, p) && Numbered(s) && !s.knockDark
    requires GroupsFit(plan.newMelds, s.rules.minMeldLen)
    requires StepsFit(plan.layoffs, s.melds, s.rules.minMeldLen)
    requires GroupCards(plan.newMelds) + StepCards(plan.layoffs) + multiset{plan.knockCard}
          == HandBag(s, p)
    ensures var o := Replay(s, p, plan);
            && o.Accepted? && o.state.players[p].hand == []
            && o.state.knocked == Some(plan.knockCard)
            && RunAll(s, p, PlanActions(plan)) == Some(o.state)
  {
    hide PlaceMeld, PlaceLayOff, LaySteps, LayGroups, StepsFit, GroupsFit, RunAll, WentOut, Numbered;
    GroupsRun(s, p, plan.newMelds);
    var t := LayGroups(s, p, plan.newMelds).state;
    StepsFitMore(plan.layoffs, s.melds, t.melds, s.rules.minMeldLen);
    BagLeft(HandBag(t, p), GroupCards(plan.newMelds), StepCards(plan.layoffs));
    StepsRun(t, p, plan.layoffs);
    var u := LaySteps(t, p, plan.layoffs).state;
    OneCardLeft(HandBag(s, p), HandBag(t, p), HandBag(u, p), GroupCards(plan.newMelds),
                StepCards(plan.layoffs), multiset{plan.knockCard});
    BagOfOne(u.players[p].hand, plan.knockCard);
    KnockEmptiesHand(u, p, plan.knockCard);
    RunAppend(s, p, MeldActions(plan.newMelds), StepActions(plan.layoffs));
    var laid := MeldActions(plan.newMelds) + StepActions(plan.layoffs);
    RunAppend(s, p, laid, [Knock(plan.knockCard, false)]);
  }

  /** Replaying a found plan reaches no error branch, empties the hand, and is the same as
      playing its moves one by one. */
  lemma ReplayNeverFails(s: State, p: nat)
    requires Melding(s, p) && Numbered(s) && !s.knockDark
    requires Solve(s.players[p].hand, s.melds, s.rules.minMeldLen).Some?
    ensures var plan := Solve(s.players[p].hand, s.melds, s.rules.minMeldLen).value;
            var o := Apply(s, p, AutoKnock);
            && o.Accepted? && o.state.players[p].hand == []
            && o.state.knocked == Some(plan.knockCard)
            && RunAll(s, p, PlanActions(plan)) == Some(o.state)
            && GoesOut(s, p, PlanActions(plan))
  {
    hide Apply, Replay, Solve, StepsFit, GroupsFit, RunAll;
    var plan := Solve(s.players[p].hand, s.melds, s.rules.minMeldLen).value;
    SolveSound(s.players[p].hand, s.melds, s.rules.minMeldLen);
    PlanReplays(s, p, plan);
    AutoKnockReplays(s, p);
    var laid := MeldActions(plan.newMelds) + StepActions(plan.layoffs);
    assert forall i :: 0 <= i < |laid| ==> laid[i] in laid;
  }

  lemma AutoKnockReplays(s: State, p: nat)
    requires Melding(s, p) && Solve(s.players[p].hand, s.melds, s.rules.minMeldLen).Some?
    ensures Apply(s, p, AutoKnock)
         == Replay(s, p, Solve(s.players[p].hand, s.melds, s.rules.minMeldLen).value)
  {
    hide Replay, Solve;
  }

  lemma KnockEmptiesHand(u: State, p: nat, c: Card)
    requires Melding(u, p) && u.players[p].hand == [c] && !u.knockDark
    ensures RunAll(u, p, [Knock(c, false)]) == Some(WentOut(u, p, c, u.knockDark))
    ensures WentOut(u, p, c, u.knockDark).players[p].hand == []
    ensures WentOut(u, p, c, u.knockDark).knocked == Some(c)
  {
    var acts := [Knock(c, false)];
    assert acts[1..] == [];
    assert Apply(u, p, acts[0]) == Accepted(WentOut(u, p, c, false));
    assert RemoveAll([c], [c]) == [] by {
      assert [c][1..] == [];
    }
  }

  // ----- every way to go out is a cover ------------------------------------------------

  /** Putting cards into place j of a cover, where the cover was of the table after them. */
  lemma PushPile(piles: seq<multiset<Card>>, left: multiset<Card>, melds: seq<Meld>,
                 after: seq<Meld>, j: nat, cards: seq<Card>, minLen: nat)
    requires Covers(piles, left, after, minLen) && j < |after|
    requires |melds| <= |after| && forall i :: 0 <= i < |after| && i != j ==> i < |melds| && after[i] == melds[i]
    requires if j < |melds|
             then LaidOff(melds[j], cards, minLen) == Some(after[j])
             else MakeMeld(after[j].id, cards, after[j].owner, minLen) == Ok(after[j])
    ensures Coverable(left + multiset(cards), melds, minLen)
  {
    hide Classify, LaidOff, MakeMeld, Sum;
    var more := piles[j := multiset(cards) + piles[j]];
    SumPush(piles, j, multiset(cards));
    assert Grows(after, j, piles[j], minLen);
    GrowsWith(melds, after[j], j, cards, piles[j], minLen);
    forall i | 0 <= i < |more| ensures Grows(melds, i, more[i], minLen) {
      assert Grows(after, i, piles[i], minLen);
    }
    assert Covers(more, left + multiset(cards), melds, minLen);
  }

  lemma SumPush(piles: seq<multiset<Card>>, j: nat, b: multiset<Card>)
    requires j < |piles|
    ensures Sum(piles[j := b + piles[j]]) == Sum(piles) + b
  {
    var more := piles[j := b + piles[j]];
    SumUpdate(piles, j, b + piles[j]);
    assert Sum(more) + piles[j] == (Sum(piles) + b) + piles[j];
    assert Sum(more) == (Sum(more) + piles[j]) - piles[j];
  }

  lemma GrowsWith(melds: seq<Meld>, u: Meld, j: nat, cards: seq<Card>, pile: multiset<Card>, minLen: nat)
    requires pile == multiset{} || FitsOn(u, pile, minLen)
    requires if j < |melds| then LaidOff(melds[j], cards, minLen) == Some(u)
             else MakeMeld(u.id, cards, u.owner, minLen) == Ok(u)
    ensures Grows(melds, j, multiset(cards) + pile, minLen)
  {
    var all := multiset(cards) + pile;
    if j < |melds| {
      LaidOffIffFits(melds[j], cards, minLen);
      FitsAfter(melds[j], cards, pile, minLen);
      assert pile == multiset{} ==> all == multiset(cards);
    } else {
      MadeMeldIsValid(u.id, cards, u.owner, minLen);
      assert pile == multiset{} ==> all == multiset(cards);
      assert multiset(u.cards) + pile == all;
    }
  }

  /** Going out by hand covers the hand but for the knock card. */
  lemma {:induction false} GoingOutCovers(s: State, p: nat, acts: seq<Action>)
    requires Melding(s, p) && Numbered(s) && GoesOut(s, p, acts)
    ensures var c := acts[|acts| - 1].card;
            c in s.players[p].hand
            && Coverable(HandBag(s, p) - multiset{c}, s.melds, s.rules.minMeldLen)
    decreases |acts|
  {
    hide Apply, LaidOff, MakeMeld, Classify, Covers;
    var a, rest, c, minLen := acts[0], acts[1..], acts[|acts| - 1].card, s.rules.minMeldLen;
    if |acts| == 1 {
      KnockIsCovered(s, p, a);
    } else {
      var t := Apply(s, p, a).state;
      AcceptedMove(s, p, a);
      assert rest[|rest| - 1] == acts[|acts| - 1];
      assert forall i :: 0 <= i < |rest| - 1 ==> rest[i] == acts[i + 1];
      GoingOutCovers(t, p, rest);
      var j := if a.LayMeld? then |s.melds| else FindMeld(s.melds, a.meldID);
      var piles :| Covers(piles, HandBag(t, p) - multiset{c}, t.melds, minLen);
      assert c in HandBag(t, p);
      PushPile(piles, HandBag(t, p) - multiset{c}, s.melds, t.melds, j, a.cards, minLen);
      assert HandBag(s, p) - multiset{c} == HandBag(t, p) - multiset{c} + multiset(a.cards);
      assert c in HandBag(s, p);
    }
  }

  lemma KnockIsCovered(s: State, p: nat, a: Action)
    requires Melding(s, p) && a.Knock? && Apply(s, p, a).Accepted?
    ensures a.card in s.players[p].hand
    ensures Coverable(HandBag(s, p) - multiset{a.card}, s.melds, s.rules.minMeldLen)
  {
    var piles := seq(|s.melds|, i => multiset{});
    SumOfEmpties(piles);
    assert Covers(piles, multiset{}, s.melds, s.rules.minMeldLen);
    assert s.players[p].hand == [a.card];
    assert HandBag(s, p) - multiset{a.card} == multiset{};
  }

  /** What an accepted meld or lay-off did. */
  lemma AcceptedMove(s: State, p: nat, a: Action)
    requires Melding(s, p) && Numbered(s) && (a.LayMeld? || a.LayOffCards?)
    requires Apply(s, p, a).Accepted?
    ensures var t := Apply(s, p, a).state;
            && LaidDown(s, t, p, multiset(a.cards))
            && (if a.LayMeld? then
                  && |t.melds| == |s.melds| + 1 && s.melds <= t.melds
                  && var m := t.melds[|s.melds|];
                     MakeMeld(m.id, a.cards, m.owner, s.rules.minMeldLen) == Ok(m)
                else
                  var mi := FindMeld(s.melds, a.meldID);
                  && mi != -1 && LaidOff(s.melds[mi], a.cards, s.rules.minMeldLen).Some?
                  && t.melds == s.melds[mi := LaidOff(s.melds[mi], a.cards, s.rules.minMeldLen).value])
  {
    if a.LayMeld? {
      MadeMeldIsValid(s.nextMeldSeq + 1, a.cards, p, s.rules.minMeldLen);
      MeldStep(s, p, a.cards);
    } else {
      LayOffStep(s, p, a.meldID, a.cards);
    }
  }

  /** With one card left the solver says no, although knocking with that card is accepted. */
  lemma OneCardIsNotSolved(s: State, p: nat)
    requires Melding(s, p) && |s.players[p].hand| == 1
    ensures Solve(s.players[p].hand, s.melds, s.rules.minMeldLen).None?
    ensures GoesOut(s, p, [Knock(s.players[p].hand[0], false)])
  {
    var c := s.players[p].hand[0];
    assert s.players[p].hand == [c];
    assert [Knock(c, false)][1..] == [];
  }

  ghost predicate CanGoOut(s: State, p: int)
    requires Shaped(s)
  {
    exists acts: seq<Action> :: GoesOut(s, p, acts)
  }

  /** The solver's answer, yes or no, is whether the player can go out by hand, exactly for the
      hands that are not a single card. */
  lemma SolverExact(s: State, p: nat)
    requires Melding(s, p) && Numbered(s) && !s.knockDark
    ensures var hand := s.players[p].hand;
            (Solve(hand, s.melds, s.rules.minMeldLen).Some? <==> CanGoOut(s, p)) <==> |hand| != 1
  {
    hide GoesOut, Numbered;
    var hand := s.players[p].hand;
    if |hand| == 1 {
      OneCardIsNotSolved(s, p);
    } else {
      if Solve(hand, s.melds, s.rules.minMeldLen).Some? {
        ReplayNeverFails(s, p);
      }
      if acts: seq<Action> :| GoesOut(s, p, acts) {
        LastCardIsHeld(s, p, acts);
        GoingOutCovers(s, p, acts);
        SolveComplete(hand, s.melds, s.rules.minMeldLen, acts[|acts| - 1].card);
      }
    }
  }

  lemma LastCardIsHeld(s: State, p: nat, acts: seq<Action>)
    requires Melding(s, p) && Numbered(s) && GoesOut(s, p, acts)
    ensures acts != [] && acts[|acts| - 1].Knock? && s.players[p].hand != []
  {
    GoingOutCovers(s, p, acts);
  }

  // ----- when laying is accepted -------------------------------------------------------

  lemma MeldAccepted(s: State, p: nat, cards: seq<Card>)
    requires Melding(s, p)
    ensures Apply(s, p, LayMeld(cards)).Accepted?
         == (HandContains(s.players[p].hand, cards)
             && Classify(multiset(cards), s.rules.minMeldLen).Some?)
  {
    hide WithMeld, Classify;
  }

  lemma LayOffAccepted(s: State, p: nat, id: MeldId, cards: seq<Card>)
    requires Melding(s, p)
    ensures Apply(s, p, LayOffCards(id, cards)).Accepted?
       <==> FindMeld(s.melds, id) != -1 && HandContains(s.players[p].hand, cards)
            && LaidOff(s.melds[FindMeld(s.melds, id)], cards, s.rules.minMeldLen).Some?
  {
    hide WithLayOff, LaidOff;
  }
}
