/** Hints are sound and complete: what is suggested is accepted, and a discard is suggested
    exactly when there is nothing to lay. */
module HintProof {
  import opened Bags
  import opened Cards
  import opened Melds
  import opened LayOff
  import opened Solver
  import opened Rules
  import opened Runs
  import opened Invariants
  import opened Hints

  lemma {:induction false} FirstFitFinds(m: Meld, hand: seq<Card>, minLen: nat, i: nat)
    requires i <= |hand|
    ensures match FirstFit(m, hand, minLen, i)
            case None => forall j :: i <= j < |hand| ==> LaidOff(m, [hand[j]], minLen).None?
            case Some(r) => r.SuggestLayOff? && r.laid in hand && r.meldID == m.id
                            && LaidOff(m, [r.laid], minLen).Some?
    decreases |hand| - i
  {
    hide LaidOff;
    if i < |hand| && LaidOff(m, [hand[i]], minLen).None? {
      FirstFitFinds(m, hand, minLen, i + 1);
    }
  }

  lemma {:induction false} FirstLayOffFinds(melds: seq<Meld>, hand: seq<Card>, minLen: nat, mi: nat)
    requires mi <= |melds|
    ensures match FirstLayOff(melds, hand, minLen, mi)
            case None => forall k, j :: mi <= k < |melds| && 0 <= j < |hand| ==>
                           LaidOff(melds[k], [hand[j]], minLen).None?
            case Some(r) => r.SuggestLayOff? && r.laid in hand
                            && exists k :: mi <= k < |melds| && melds[k].id == r.meldID
                                           && LaidOff(melds[k], [r.laid], minLen).Some?
    decreases |melds| - mi
  {
    hide LaidOff, FirstFit;
    if mi < |melds| {
      FirstFitFinds(melds[mi], hand, minLen, 0);
      if FirstFit(melds[mi], hand, minLen, 0).None? {
        FirstLayOffFinds(melds, hand, minLen, mi + 1);
      }
    }
  }

  /** The action a hint stands for; going out is done by the auto-knock. */
  function ActionOf(r: Suggestion): Option<Action> {
    match r
    case SuggestDraw => Some(DrawDeck)
    case SuggestKnock(_) => Some(AutoKnock)
    case SuggestMeld(cards) => Some(LayMeld(cards))
    case SuggestLayOff(c, id) => Some(LayOffCards(id, [c]))
    case SuggestDiscard(Some(c)) => Some(Discard(c))
    case SuggestDiscard(None) => None
  }

  predicate Lays(a: Action) {
    a.LayMeld? || a.LayOffCards?
  }

  lemma OneHeld(hand: seq<Card>, c: Card)
    requires c in hand
    ensures HandContains(hand, [c])
  {
    assert c in multiset(hand);
  }

  /** A plan always begins with something to lay. */
  lemma PlanLaysSomething(s: State, p: nat)
    requires Sound(s) && Melding(s, p)
    requires Solve(s.players[p].hand, s.melds, s.rules.minMeldLen).Some?
    ensures exists a: Action :: Lays(a) && Apply(s, p, a).Accepted?
    ensures Apply(s, p, AutoKnock).Accepted?
  {
    hide Conserved, HeadOK, ProducedOK, Apply;
    ReplayNeverFails(s, p);
    var acts := PlanActions(Solve(s.players[p].hand, s.melds, s.rules.minMeldLen).value);
    assert Apply(s, p, acts[0]).Accepted?;
    if |acts| == 1 {
      KnockNeedsOneCard(s, p, acts[0]);
    }
  }

  lemma KnockNeedsOneCard(s: State, p: nat, a: Action)
    requires Melding(s, p) && a.Knock? && Apply(s, p, a).Accepted?
    ensures |s.players[p].hand| == 1
  {
  }

  lemma HintedLayOffAccepted(s: State, p: nat, r: Suggestion)
    requires Sound(s) && Melding(s, p)
    requires FirstLayOff(s.melds, s.players[p].hand, s.rules.minMeldLen, 0) == Some(r)
    ensures r.SuggestLayOff? && Apply(s, p, LayOffCards(r.meldID, [r.laid])).Accepted?
  {
    hide Conserved, HeadOK, ProducedOK, Apply, LaidOff, FirstLayOff;
    FirstLayOffFinds(s.melds, s.players[p].hand, s.rules.minMeldLen, 0);
    OneHeld(s.players[p].hand, r.laid);
    LayOffAccepted(s, p, r.meldID, [r.laid]);
    var k :| 0 <= k < |s.melds| && s.melds[k].id == r.meldID
             && LaidOff(s.melds[k], [r.laid], s.rules.minMeldLen).Some?;
    assert FindMeld(s.melds, r.meldID) == k;
  }

  /** If the probes find nothing then no meld of any size and no lay-off of any batch would be
      accepted. */
  lemma NothingToLay(s: State, p: nat, a: Action)
    requires Sound(s) && Melding(s, p) && Lays(a)
    requires FirstMeld(s.players[p].hand, s.rules.minMeldLen).None?
    requires FirstLayOff(s.melds, s.players[p].hand, s.rules.minMeldLen, 0).None?
    ensures Apply(s, p, a).Rejected?
  {
    hide Conserved, HeadOK, ProducedOK, Apply, LaidOff, FirstLayOff, FirstMeld;
    var hand, k := s.players[p].hand, s.rules.minMeldLen;
    if a.LayMeld? {
      MeldAccepted(s, p, a.cards);
      FirstMeldExact(hand, k);
    } else {
      LayOffAccepted(s, p, a.meldID, a.cards);
      FirstLayOffFinds(s.melds, hand, k, 0);
      var mi := FindMeld(s.melds, a.meldID);
      if mi != -1 {
        BatchHasSingle(s.melds[mi], hand, a.cards, k);
      }
    }
  }

  lemma BatchHasSingle(m: Meld, hand: seq<Card>, cards: seq<Card>, minLen: nat)
    requires ValidMeld(m, minLen) && minLen >= 2
    ensures LaidOff(m, cards, minLen).Some? && HandContains(hand, cards) ==>
              exists j :: 0 <= j < |hand| && LaidOff(m, [hand[j]], minLen).Some?
  {
    hide LaidOff, ValidMeld;
    if LaidOff(m, cards, minLen).Some? && HandContains(hand, cards) {
      var c := SingleLayOff(m, cards, minLen);
      assert c in multiset(cards);
      var j :| 0 <= j < |hand| && hand[j] == c;
    }
  }

  /** In the meld phase with cards in hand, the suggested action is accepted. */
  lemma HintIsAccepted(s: State)
    requires Sound(s) && Melding(s, s.turn) && s.players[s.turn].hand != []
    ensures var a := ActionOf(Suggest(s, s.turn)); a.Some? && Apply(s, s.turn, a.value).Accepted?
  {
    hide Conserved, HeadOK, ProducedOK, Apply, FirstLayOff, FirstMeld, Solve;
    var p, hand, k := s.turn, s.players[s.turn].hand, s.rules.minMeldLen;
    if Solve(hand, s.melds, k).Some? {
      PlanLaysSomething(s, p);
    } else if FirstMeld(hand, k).Some? {
      FirstMeldExact(hand, k);
      MeldAccepted(s, p, FirstMeld(hand, k).value);
    } else if FirstLayOff(s.melds, hand, k, 0).Some? {
      HintedLayOffAccepted(s, p, FirstLayOff(s.melds, hand, k, 0).value);
    } else {
      var c := Highest(hand, s.rules).value;
      OneHeld(hand, c);
      HeldDiscardAccepted(s, p, c);
    }
  }

  lemma HeldDiscardAccepted(s: State, p: nat, c: Card)
    requires Melding(s, p) && HandContains(s.players[p].hand, [c])
    ensures Apply(s, p, Discard(c)).Accepted?
  {
    hide Discarded;
  }

  /** A discard is suggested exactly when no meld, however large, and no lay-off, however many
      cards, would be accepted. */
  lemma DiscardHintIffNothingToLay(s: State)
    requires Sound(s) && Melding(s, s.turn)
    ensures Suggest(s, s.turn).SuggestDiscard?
       <==> forall a: Action :: Lays(a) ==> Apply(s, s.turn, a).Rejected?
  {
    hide Conserved, HeadOK, ProducedOK, Apply, FirstLayOff, FirstMeld, Solve;
    var p, hand, k := s.turn, s.players[s.turn].hand, s.rules.minMeldLen;
    if Solve(hand, s.melds, k).Some? {
      PlanLaysSomething(s, p);
    } else if FirstMeld(hand, k).Some? {
      FirstMeldExact(hand, k);
      MeldAccepted(s, p, FirstMeld(hand, k).value);
      assert Lays(LayMeld(FirstMeld(hand, k).value));
    } else if FirstLayOff(s.melds, hand, k, 0).Some? {
      var r := FirstLayOff(s.melds, hand, k, 0).value;
      HintedLayOffAccepted(s, p, r);
      assert Lays(LayOffCards(r.meldID, [r.laid]));
    } else {
      forall a: Action | Lays(a) ensures Apply(s, p, a).Rejected? {
        NothingToLay(s, p, a);
      }
    }
  }
}
