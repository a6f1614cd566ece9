/** What picking up from the discard pile takes, and when it is allowed. */
module PickUps {
  import opened Bags
  import opened Cards
  import opened Melds
  import opened LayOff
  import opened Deck
  import opened Rules
  import opened Runs
  import opened SolverProof
  import opened Conservation
  import opened Invariants

  /** The place a pick-up reaches for: the top of the pile, or the place of the named card that is
      nearest to the top. */
  predicate Reaches(pile: seq<Card>, target: Option<Card>, k: nat) {
    && k < |pile|
    && match target
       case None => k == |pile| - 1
       case Some(c) => pile[k] == c && forall j :: k < j < |pile| ==> pile[j] != c
  }

  lemma {:induction false} LastIndexReaches(pile: seq<Card>, c: Card)
    ensures LastIndex(pile, c) >= 0 ==> Reaches(pile, Some(c), LastIndex(pile, c))
    ensures LastIndex(pile, c) < 0 ==> c !in pile
  {
    if pile != [] && pile[|pile| - 1] != c {
      LastIndexReaches(pile[..|pile| - 1], c);
    }
  }

  /** The target is the one place that is reached, if there is one. */
  lemma TargetReaches(pile: seq<Card>, target: Option<Card>)
    ensures TargetIndex(pile, target) >= 0 ==> Reaches(pile, target, TargetIndex(pile, target))
    ensures forall k: nat :: Reaches(pile, target, k) ==> TargetIndex(pile, target) == k
  {
    if target.Some? {
      LastIndexReaches(pile, target.value);
    }
  }

  // ----- supporting cards --------------------------------------------------------------

  /** The supporting cards that must come from the hand are those not among the cards above. */
  lemma {:induction false} FromHandBag(support: seq<Card>, above: seq<Card>)
    ensures multiset(FromHand(support, above)) == multiset(support) - multiset(above)
    decreases |support|
  {
    if support != [] {
      hide RemoveFirst;
      var c, rest := support[0], support[1..];
      assert support == [c] + rest;
      if c in above {
        RemoveFirstBag(above, c);
        FromHandBag(rest, RemoveFirst(above, c));
        ClaimedBag(multiset(rest), multiset(above), c);
      } else {
        FromHandBag(rest, above);
        assert c !in multiset(above);
      }
    }
  }

  lemma ClaimedBag(rest: multiset<Card>, above: multiset<Card>, c: Card)
    requires c in above
    ensures rest - (above - multiset{c}) == multiset{c} + rest - above
  {
  }

  /** They are held exactly when hand and cards above together have all the support. */
  lemma SupportHeldIff(hand: seq<Card>, support: seq<Card>, above: seq<Card>)
    ensures HandContains(hand, FromHand(support, above))
       <==> multiset(support) <= multiset(hand) + multiset(above)
  {
    FromHandBag(support, above);
    BagHeldIff(multiset(hand), multiset(support), multiset(above));
  }

  lemma BagHeldIff(h: multiset<Card>, s: multiset<Card>, a: multiset<Card>)
    ensures s - a <= h <==> s <= h + a
  {
    if s - a <= h {
      forall c ensures s[c] <= (h + a)[c] {
        assert (s - a)[c] <= h[c];
      }
    }
    if s <= h + a {
      forall c ensures (s - a)[c] <= h[c] {
        assert s[c] <= (h + a)[c];
      }
    }
  }

  // ----- order of what is left ---------------------------------------------------------

  /** Taking one card out of distinct cards. */
  lemma {:induction false} ExceptOne(cards: seq<Card>, c: Card, rest: seq<Card>)
    requires Distinct(cards)
    ensures Except(RemoveFirst(cards, c), rest) == Except(cards, [c] + rest)
    ensures Distinct(RemoveFirst(cards, c))
  {
    if cards != [] {
      var x, tail := cards[0], cards[1..];
      assert cards == [x] + tail;
      if x == c {
        ExceptSame(tail, rest, [c] + rest);
      } else {
        ExceptOne(tail, c, rest);
        var left := RemoveFirst(tail, c);
        RemoveFirstBag(tail, c);
        NotAgain(tail, left, x);
        assert ([x] + left)[1..] == left;
      }
    }
  }

  lemma NotAgain(tail: seq<Card>, left: seq<Card>, x: Card)
    requires multiset(left) <= multiset(tail) && x !in tail && Distinct(left)
    ensures Distinct([x] + left)
  {
    assert forall i :: 0 <= i < |left| ==> left[i] in multiset(tail);
  }

  /** Cards taken out of a hand of distinct cards leave the others in their order. */
  lemma {:induction false} RemoveAllIsExcept(cards: seq<Card>, xs: seq<Card>)
    requires Distinct(cards)
    ensures RemoveAll(cards, xs) == Except(cards, xs)
    decreases |xs|
  {
    if xs == [] {
      ExceptNone(cards, []);
    } else {
      var c, rest := xs[0], xs[1..];
      assert xs == [c] + rest;
      ExceptOne(cards, c, rest);
      RemoveAllIsExcept(RemoveFirst(cards, c), rest);
    }
  }

  /** What the support does not claim of the cards above falls into the hand in pile order. */
  lemma {:induction false} ExtrasAreExcept(support: seq<Card>, above: seq<Card>)
    requires Distinct(above)
    ensures Extras(support, above) == Except(above, support)
    decreases |support|
  {
    if support == [] {
      ExceptNone(above, []);
    } else {
      var c, rest := support[0], support[1..];
      assert support == [c] + rest;
      ExceptOne(above, c, rest);
      if c in above {
        ExtrasAreExcept(rest, RemoveFirst(above, c));
      } else {
        ExtrasAreExcept(rest, above);
        ExceptSame(above, rest, support);
      }
    }
  }

  lemma {:induction false} OnceIsDistinct(cards: seq<Card>)
    requires forall c: Card :: multiset(cards)[c] <= 1
    ensures Distinct(cards)
  {
    if cards != [] {
      var x, tail := cards[0], cards[1..];
      assert cards == [x] + tail;
      forall c: Card ensures multiset(tail)[c] <= 1 {
        assert multiset(tail)[c] <= multiset(cards)[c];
      }
      OnceIsDistinct(tail);
      assert multiset(cards)[x] == 1 + multiset(tail)[x];
      assert x in tail ==> x in multiset(tail);
      NotAgain(tail, tail, x);
    }
  }

  /** A hand and the discard pile hold different cards. */
  lemma HandAndPileDistinct(s: State, p: nat)
    requires Sound(s) && p < |s.players|
    ensures Distinct(s.players[p].hand + s.discardPile)
  {
    var hand, pile := s.players[p].hand, s.discardPile;
    forall c: Card ensures multiset(hand + pile)[c] <= 1 {
      OnceEach(s, c);
      HandInBag(s.players, p, c);
    }
    OnceIsDistinct(hand + pile);
  }

  // ----- when a pick-up is accepted ----------------------------------------------------

  /** The card at place k goes onto the named table meld, or into a new meld with enough
      supporting cards from the hand and from above it. */
  ghost predicate CanUse(s: State, p: nat, k: nat, support: seq<Card>, onto: Option<MeldId>)
    requires p < |s.players| && k < |s.discardPile|
  {
    var c, above, minLen := s.discardPile[k], s.discardPile[k + 1..], s.rules.minMeldLen;
    match onto
    case Some(id) =>
      exists i :: 0 <= i < |s.melds| && s.melds[i].id == id && FitsOn(s.melds[i], multiset{c}, minLen)
    case None =>
      && |support| >= minLen - 1
      && multiset(support) <= multiset(s.players[p].hand) + multiset(above)
      && Classify(multiset(support) + multiset{c}, minLen).Some?
  }

  lemma OntoAcceptedIff(s: State, p: nat, k: nat, id: MeldId)
    requires Shaped(s) && Numbered(s) && p < |s.players| && k < |s.discardPile|
    ensures PickUpOnto(s, p, k, id).Accepted? <==> CanUse(s, p, k, [], Some(id))
  {
    hide LaidOff, FitsOn, WithLayOff;
    var c := s.discardPile[k];
    forall i | 0 <= i < |s.melds|
      ensures LaidOff(s.melds[i], [c], s.rules.minMeldLen).Some?
         <==> FitsOn(s.melds[i], multiset{c}, s.rules.minMeldLen)
    {
      LaidOffIffFits(s.melds[i], [c], s.rules.minMeldLen);
      assert multiset([c]) == multiset{c};
    }
  }

  lemma NewMeldAcceptedIff(s: State, p: nat, k: nat, support: seq<Card>)
    requires Shaped(s) && p < |s.players| && k < |s.discardPile|
    ensures PickUpMeld(s, p, k, support).Accepted? <==> CanUse(s, p, k, support, None)
  {
    hide Classify, WithMeld, FromHand, Extras, Removed;
    SupportHeldIff(s.players[p].hand, support, s.discardPile[k + 1..]);
    hide HandContains;
    assert multiset(support + [s.discardPile[k]]) == multiset(support) + multiset{s.discardPile[k]};
  }

  /** A pick-up is accepted exactly from the player to draw, after the first move, when the place
      it reaches for exists and its card can be used. */
  lemma PickUpAcceptedIff(s: State, p: int, a: Action)
    requires Sound(s) && a.DrawDiscard?
    ensures Apply(s, p, a).Accepted?
       <==> && !s.roundOver && p == s.turn && s.phase == PhaseDraw && !s.firstMove
            && exists k: nat :: Reaches(s.discardPile, a.target, k) && CanUse(s, p, k, a.support, a.onto)
  {
    hide Sound, Numbered, CanUse, Reaches, PickUpOnto, PickUpMeld, TargetIndex;
    SoundShape(s);
    TargetReaches(s.discardPile, a.target);
    ReachesNothing(a.target);
    if !s.roundOver && p == s.turn {
      var ti := TargetIndex(s.discardPile, a.target);
      if ti >= 0 {
        match a.onto
        case Some(id) =>
          OntoAcceptedIff(s, p, ti, id);
          SupportUnused(s, p, ti, a.support, id);
        case None => NewMeldAcceptedIff(s, p, ti, a.support);
      }
    }
  }

  lemma SoundShape(s: State)
    requires Sound(s)
    ensures Shaped(s) && Numbered(s)
  {
  }

  lemma ReachesNothing(target: Option<Card>)
    ensures TargetIndex([], target) == -1
  {
  }

  lemma SupportUnused(s: State, p: nat, k: nat, support: seq<Card>, id: MeldId)
    requires p < |s.players| && k < |s.discardPile|
    ensures CanUse(s, p, k, support, Some(id)) == CanUse(s, p, k, [], Some(id))
  {
  }

  // ----- what an accepted pick-up takes ------------------------------------------------

  /** The pile is cut below the card reached for; that card is on the table; the cards above it
      are in the hand or, as support, on the table. */
  ghost predicate TakenFrom(s: State, t: State, p: nat, k: nat, support: seq<Card>, onto: Option<MeldId>)
    requires p < |s.players| && k < |s.discardPile|
  {
    var c, above := s.discardPile[k], s.discardPile[k + 1..];
    && t.discardPile == s.discardPile[..k] && |t.players| == |s.players| && t.phase == PhaseMeld
    && match onto
       case Some(id) =>
         && t.players[p].hand == s.players[p].hand + above && |t.melds| == |s.melds|
         && exists i :: 0 <= i < |s.melds| && s.melds[i].id == id
              && multiset(t.melds[i].cards) == multiset(s.melds[i].cards) + multiset{c}
              && t.melds[i].owner == s.melds[i].owner && t.melds[i].id == id
              && forall j :: 0 <= j < |s.melds| && j != i ==> t.melds[j] == s.melds[j]
       case None =>
         && t.players[p].hand == Except(s.players[p].hand, support) + Except(above, support)
         && |t.melds| == |s.melds| + 1 && t.melds[..|s.melds|] == s.melds
         && multiset(t.melds[|s.melds|].cards) == multiset(support) + multiset{c}
         && t.melds[|s.melds|].owner == p
  }

  lemma OntoTakes(s: State, p: nat, k: nat, id: MeldId)
    requires Shaped(s) && p < |s.players| && k < |s.discardPile| && PickUpOnto(s, p, k, id).Accepted?
    ensures TakenFrom(s, PickUpOnto(s, p, k, id).state, p, k, [], Some(id))
  {
    hide LaidOff, Charged;
    var mi, c := FindMeld(s.melds, id), s.discardPile[k];
    LaidOffIsValid(s.melds[mi], [c], s.rules.minMeldLen);
    assert multiset([c]) == multiset{c};
  }

  lemma NewMeldTakes(s: State, p: nat, k: nat, support: seq<Card>)
    requires Sound(s) && p < |s.players| && k < |s.discardPile| && PickUpMeld(s, p, k, support).Accepted?
    ensures TakenFrom(s, PickUpMeld(s, p, k, support).state, p, k, support, None)
  {
    SoundShape(s);
    hide Sound, Except, ValidMeld;
    var m := NewMeldState(s, p, k, support);
    HandLeft(s, p, k, support);
  }

  lemma NewMeldState(s: State, p: nat, k: nat, support: seq<Card>) returns (m: Meld)
    requires Shaped(s) && p < |s.players| && k < |s.discardPile| && PickUpMeld(s, p, k, support).Accepted?
    ensures var above, hand := s.discardPile[k + 1..], s.players[p].hand;
            var t := PickUpMeld(s, p, k, support).state;
            && HandContains(hand, FromHand(support, above))
            && t.players[p].hand == Removed(hand + Extras(support, above), FromHand(support, above))
            && t.discardPile == s.discardPile[..k] && |t.players| == |s.players| && t.phase == PhaseMeld
            && t.melds == s.melds + [m] && m.owner == p
            && multiset(m.cards) == multiset(support) + multiset{s.discardPile[k]}
  {
    hide MakeMeld, Charged, FromHand, Extras, Removed, HandContains;
    var c, n := s.discardPile[k], s.nextMeldSeq + 1;
    MadeMeldIsValid(n, support + [c], p, s.rules.minMeldLen);
    m := MakeMeld(n, support + [c], p, s.rules.minMeldLen).value;
    assert multiset(support + [c]) == multiset(support) + multiset{c};
  }

  /** The hand after such a pick-up. */
  lemma HandLeft(s: State, p: nat, k: nat, support: seq<Card>)
    requires Sound(s) && p < |s.players| && k < |s.discardPile|
    requires HandContains(s.players[p].hand, FromHand(support, s.discardPile[k + 1..]))
    ensures var hand, above := s.players[p].hand, s.discardPile[k + 1..];
            var left := Removed(hand + Extras(support, above), FromHand(support, above));
            left == Except(hand, support) + Except(above, support)
  {
    var hand, above := s.players[p].hand, s.discardPile[k + 1..];
    HandAndPileDistinct(s, p);
    hide Sound;
    PartDistinct(hand, s.discardPile, k + 1);
    LeftInOrder(hand, above, support);
  }

  lemma PartDistinct(hand: seq<Card>, pile: seq<Card>, k: nat)
    requires Distinct(hand + pile) && k <= |pile|
    ensures Distinct(hand + pile[k..])
  {
    var all, part := hand + pile, hand + pile[k..];
    forall i, j | 0 <= i < j < |part| ensures part[i] != part[j] {
      var i', j' := if i < |hand| then i else i + k, if j < |hand| then j else j + k;
      assert all[i'] == part[i] && all[j'] == part[j];
    }
  }

  lemma LeftInOrder(hand: seq<Card>, above: seq<Card>, support: seq<Card>)
    requires Distinct(hand + above) && HandContains(hand, FromHand(support, above))
    ensures Removed(hand + Extras(support, above), FromHand(support, above))
         == Except(hand, support) + Except(above, support)
  {
    var extras, fromHand := Except(above, support), FromHand(support, above);
    BothDistinct(hand, above);
    ExtrasAreExcept(support, above);
    FromHandBag(support, above);
    FromHandOnly(hand, above, support);
    HeldAlsoWithMore(hand, extras, fromHand);
    ExceptKeeps(hand, above, support);
    RemoveAllIsExcept(hand + extras, fromHand);
    ExceptAppend(hand, extras, fromHand);
    ExceptSame(hand, fromHand, support);
    ExceptNone(extras, fromHand);
  }

  lemma BothDistinct(a: seq<Card>, b: seq<Card>)
    requires Distinct(a + b)
    ensures Distinct(a) && Distinct(b) && forall c :: c in a ==> c !in b
  {
    forall i, j | 0 <= i < j < |a| ensures a[i] != a[j] {
      assert (a + b)[i] == a[i] && (a + b)[j] == a[j];
    }
    forall i, j | 0 <= i < j < |b| ensures b[i] != b[j] {
      assert (a + b)[|a| + i] == b[i] && (a + b)[|a| + j] == b[j];
    }
    forall c | c in a ensures c !in b {
      var i :| 0 <= i < |a| && a[i] == c;
      assert (a + b)[i] == c;
      assert forall j :: 0 <= j < |b| ==> (a + b)[|a| + j] == b[j];
    }
  }

  /** What comes from the hand is the support held there, and is not above. */
  lemma FromHandOnly(hand: seq<Card>, above: seq<Card>, support: seq<Card>)
    requires HandContains(hand, FromHand(support, above)) && forall c :: c in hand ==> c !in above
    ensures forall c :: c in hand ==> (c in FromHand(support, above) <==> c in support)
    ensures forall c :: c in above ==> c !in FromHand(support, above)
  {
    var f := FromHand(support, above);
    FromHandBag(support, above);
    hide FromHand;
    forall c | c in hand ensures c in f <==> c in support {
      assert c !in multiset(above);
      assert c in f <==> c in multiset(f);
      assert c in support <==> c in multiset(support);
    }
    forall c | c in above ensures c !in f {
      assert c in f ==> c in multiset(f) && c in multiset(hand);
    }
  }

  lemma {:induction false} ExceptIsPart(cards: seq<Card>, others: seq<Card>)
    ensures multiset(Except(cards, others)) <= multiset(cards)
  {
    if cards != [] {
      assert cards == [cards[0]] + cards[1..];
      ExceptIsPart(cards[1..], others);
    }
  }

  lemma ExceptKeeps(hand: seq<Card>, above: seq<Card>, others: seq<Card>)
    requires Distinct(hand + above)
    ensures Distinct(hand + Except(above, others))
    ensures forall c :: c in Except(above, others) ==> c in above
  {
    var part := Except(above, others);
    ExceptIsPart(above, others);
    forall c: Card ensures multiset(hand + part)[c] <= 1 {
      DistinctBag(hand + above, c);
      assert multiset(hand + part)[c] <= multiset(hand + above)[c];
    }
    OnceIsDistinct(hand + part);
    forall c | c in part ensures c in above {
      assert c in multiset(part);
    }
  }

  lemma ApplyIsPickUp(s: State, p: nat, a: Action)
    requires Shaped(s) && a.DrawDiscard? && p == s.turn && !s.roundOver && s.phase == PhaseDraw
    ensures Apply(s, p, a) == PickUp(s, p, a.target, a.support, a.onto)
  {
    hide PickUp;
  }

  /** An accepted pick-up is one of the two kinds, at the place reached for. */
  lemma PickUpKind(s: State, p: nat, a: Action)
    requires Shaped(s) && a.DrawDiscard? && p < |s.players|
    requires PickUp(s, p, a.target, a.support, a.onto).Accepted?
    ensures var ti := TargetIndex(s.discardPile, a.target);
            && 0 <= ti < |s.discardPile|
            && PickUp(s, p, a.target, a.support, a.onto)
            == match a.onto
               case Some(id) => PickUpOnto(s, p, ti, id)
               case None => PickUpMeld(s, p, ti, a.support)
  {
    hide PickUpOnto, PickUpMeld, TargetIndex;
  }

  lemma InDrawPhase(s: State, p: int, a: Action)
    requires Shaped(s) && a.DrawDiscard? && Apply(s, p, a).Accepted?
    ensures p == s.turn && !s.roundOver && s.phase == PhaseDraw
  {
    hide PickUp;
  }

  /** What an accepted pick-up takes: the pile is cut at the place reached for, whose card goes to
      the table, and the cards above it go to the hand in their order, but for the support. */
  lemma PickUpTakes(s: State, p: int, a: Action)
    requires Sound(s) && a.DrawDiscard? && Apply(s, p, a).Accepted?
    ensures var t := Apply(s, p, a).state; var k := |t.discardPile|;
            && 0 <= p < |s.players| && Reaches(s.discardPile, a.target, k)
            && TakenFrom(s, t, p, k, a.support, a.onto)
  {
    hide Sound, Numbered, Reaches, Apply, PickUp, PickUpOnto, PickUpMeld, TargetIndex, TakenFrom, CanUse;
    SoundShape(s);
    InDrawPhase(s, p, a);
    ApplyIsPickUp(s, p, a);
    PickUpKind(s, p, a);
    TargetReaches(s.discardPile, a.target);
    var ti := TargetIndex(s.discardPile, a.target);
    match a.onto
    case Some(id) =>
      OntoTakes(s, p, ti, id);
      CutAt(s, Apply(s, p, a).state, p, ti, [], a.onto);
      TakenOnto(s, Apply(s, p, a).state, p, ti, a.support, id);
    case None =>
      NewMeldTakes(s, p, ti, a.support);
      CutAt(s, Apply(s, p, a).state, p, ti, a.support, a.onto);
  }

  lemma CutAt(s: State, t: State, p: nat, k: nat, support: seq<Card>, onto: Option<MeldId>)
    requires p < |s.players| && k < |s.discardPile| && TakenFrom(s, t, p, k, support, onto)
    ensures |t.discardPile| == k
  {
  }

  lemma TakenOnto(s: State, t: State, p: nat, k: nat, support: seq<Card>, id: MeldId)
    requires p < |s.players| && k < |s.discardPile| && TakenFrom(s, t, p, k, [], Some(id))
    ensures TakenFrom(s, t, p, k, support, Some(id))
  {
  }
}
