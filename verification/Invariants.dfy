/** What holds in every state a round can reach. */
module Invariants {
  import opened Bags
  import opened Cards
  import opened Melds
  import opened Deck
  import opened Rules
  import opened Runs
  import opened Conservation

  // ----- the invariant -----------------------------------------------------------------

  /** Seats, rules and phases. */
  ghost predicate Orderly(s: State) {
    && Shaped(s) && 2 <= |s.players| <= 4 && RoomRules(s.rules)
    && s.phase != PhaseWaiting
    && s.roundOver == (s.phase == PhaseRoundOver)
    && (!s.roundOver ==> s.knocked.None? && !s.knockDark)
  }

  /** The 52 cards are all there, each once. */
  ghost predicate Conserved(s: State) {
    Zones(s) == multiset(OrderedDeck())
  }

  /** Every table meld still classifies to what it is stored as, has its own number and an
      owner at the table. */
  ghost predicate TableOK(s: State) {
    && Numbered(s)
    && forall i :: 0 <= i < |s.melds| ==>
         ValidMeld(s.melds[i], s.rules.minMeldLen) && 0 <= s.melds[i].owner < |s.players|
  }

  /** The head card lies under the discard pile, put there by no one, or in a table meld of
      the recorded owner. */
  ghost predicate HeadOK(s: State) {
    && (if s.headOwner == -1 then
          s.discardPile != [] && s.discardPile[0] == s.headCard
        else
          exists i :: 0 <= i < |s.melds| && s.headCard in s.melds[i].cards
                      && s.melds[i].owner == s.headOwner)
    && forall i :: 0 <= i < |s.discardedBy| && s.discardedBy[i] == -1 ==> i == 0 && s.headOwner == -1
  }

  predicate Owns(melds: seq<Meld>, p: int) {
    exists i :: 0 <= i < |melds| && melds[i].owner == p
  }

  /** A seat counts as having produced exactly when it owns a table meld. */
  ghost predicate ProducedOK(s: State) {
    forall p :: 0 <= p < |s.players| ==> s.players[p].produced == Owns(s.melds, p)
  }

  ghost predicate Sound(s: State) {
    Orderly(s) && Conserved(s) && TableOK(s) && HeadOK(s) && ProducedOK(s)
  }

  // ----- consequences of each card being there once ------------------------------------

  lemma {:induction false} HandInBag(players: seq<Player>, p: nat, c: Card)
    requires p < |players|
    ensures multiset(players[p].hand)[c] <= HandsBag(players)[c]
  {
    if p > 0 {
      HandInBag(players[1..], p - 1, c);
    }
  }

  lemma {:induction false} MeldInBag(melds: seq<Meld>, i: nat, c: Card)
    requires i < |melds|
    ensures multiset(melds[i].cards)[c] <= TableBag(melds)[c]
  {
    if i > 0 {
      MeldInBag(melds[1..], i - 1, c);
    }
  }

  lemma {:induction false} TwoMeldsInBag(melds: seq<Meld>, i: nat, j: nat, c: Card)
    requires i < j < |melds|
    ensures multiset(melds[i].cards)[c] + multiset(melds[j].cards)[c] <= TableBag(melds)[c]
  {
    if i > 0 {
      TwoMeldsInBag(melds[1..], i - 1, j - 1, c);
    } else {
      MeldInBag(melds[1..], j - 1, c);
    }
  }

  lemma OnceEach(s: State, c: Card)
    requires Conserved(s)
    ensures HandsBag(s.players)[c] + TableBag(s.melds)[c] + multiset(s.drawPile)[c]
            + multiset(s.discardPile)[c] + KnockedBag(s)[c] == 1
  {
    hide HandsBag, TableBag;
    DeckHasEachCardOnce();
    assert Zones(s)[c] == 1;
  }

  /** While the head card lies under the discard pile it is in no hand and nowhere else in
      the pile. */
  lemma HeadStaysBelow(s: State, p: nat)
    requires Sound(s) && s.headOwner == -1 && p < |s.players|
    ensures s.headCard !in s.players[p].hand
    ensures forall i :: 0 < i < |s.discardPile| ==> s.discardPile[i] != s.headCard
  {
    OnceEach(s, s.headCard);
    HandInBag(s.players, p, s.headCard);
    var pile := s.discardPile;
    assert pile == [pile[0]] + pile[1..];
    assert multiset(pile)[s.headCard] == 1 + multiset(pile[1..])[s.headCard];
    forall i | 0 < i < |pile| ensures pile[i] != s.headCard {
      assert pile[i] in pile[1..];
    }
  }

  /** The head card is in exactly one place: at the bottom of the discard pile while it has no
      owner, else in exactly one meld, of that owner. It is never in a hand, in the draw pile
      or the knocked card. */
  lemma HeadInOnePlace(s: State)
    requires Sound(s)
    ensures forall p :: 0 <= p < |s.players| ==> s.headCard !in s.players[p].hand
    ensures s.headCard !in s.drawPile && s.knocked != Some(s.headCard)
    ensures s.headOwner == -1 <==> s.headCard in s.discardPile
    ensures s.headOwner == -1 ==> s.discardPile[0] == s.headCard
    ensures forall i, j :: 0 <= i < j < |s.melds| ==>
              !(s.headCard in s.melds[i].cards && s.headCard in s.melds[j].cards)
    ensures forall i :: 0 <= i < |s.melds| && s.headCard in s.melds[i].cards ==>
              s.melds[i].owner == s.headOwner
    ensures s.headOwner != -1 ==>
              exists i :: 0 <= i < |s.melds| && s.headCard in s.melds[i].cards
  {
    var c := s.headCard;
    OnceEach(s, c);
    HeadSomewhere(s);
    hide Sound, HandsBag, TableBag;
    assert c in s.drawPile <==> c in multiset(s.drawPile);
    assert c in s.discardPile <==> c in multiset(s.discardPile);
    forall p | 0 <= p < |s.players| ensures c !in s.players[p].hand {
      HandInBag(s.players, p, c);
    }
    forall i | 0 <= i < |s.melds| && c in s.melds[i].cards
      ensures s.headOwner != -1 && s.melds[i].owner == s.headOwner
      ensures forall j :: 0 <= j < |s.melds| && c in s.melds[j].cards ==> j == i
    {
      MeldInBag(s.melds, i, c);
      assert c in multiset(s.melds[i].cards);
      OnlyMeld(s.melds, i, c);
    }
  }

  lemma HeadSomewhere(s: State)
    requires Sound(s)
    ensures s.headOwner == -1 ==> s.headCard in s.discardPile && s.discardPile[0] == s.headCard
    ensures s.headOwner != -1 ==>
              TableBag(s.melds)[s.headCard] >= 1
              && exists i :: 0 <= i < |s.melds| && s.headCard in s.melds[i].cards
                             && s.melds[i].owner == s.headOwner
  {
    hide Zones, TableOK, TableBag;
    if s.headOwner != -1 {
      var i :| 0 <= i < |s.melds| && s.headCard in s.melds[i].cards
               && s.melds[i].owner == s.headOwner;
      MeldInBag(s.melds, i, s.headCard);
      assert s.headCard in multiset(s.melds[i].cards);
    }
  }

  lemma OnlyMeld(melds: seq<Meld>, i: nat, c: Card)
    requires i < |melds| && TableBag(melds)[c] <= 1 && c in melds[i].cards
    ensures forall j :: 0 <= j < |melds| && c in melds[j].cards ==> j == i
  {
    forall j | 0 <= j < |melds| && c in melds[j].cards ensures j == i {
      assert c in multiset(melds[i].cards) && c in multiset(melds[j].cards);
      if i < j {
        TwoMeldsInBag(melds, i, j, c);
      } else if j < i {
        TwoMeldsInBag(melds, j, i, c);
      }
    }
  }

  // ----- the start ---------------------------------------------------------------------

  lemma {:induction false} SeatedBag(ids: seq<string>, hands: seq<seq<Card>>)
    requires |ids| == |hands|
    ensures HandsBag(Seated(ids, hands)) == multiset(Flatten(hands))
  {
    if ids != [] {
      var k := |ids| - 1;
      var ps := Seated(ids, hands);
      assert ps == Seated(ids[..k], hands[..k]) + [ps[k]];
      SeatedBag(ids[..k], hands[..k]);
      HandsAppend(Seated(ids[..k], hands[..k]), ps[k]);
    }
  }

  lemma {:induction false} HandsAppend(players: seq<Player>, q: Player)
    ensures HandsBag(players + [q]) == HandsBag(players) + multiset(q.hand)
  {
    if players == [] {
      assert ([] + [q])[1..] == [];
    } else {
      assert (players + [q])[1..] == players[1..] + [q];
      HandsAppend(players[1..], q);
    }
  }

  lemma DealtConserves(ids: seq<string>, rs: RuleSet, seed: int, deck: seq<Card>)
    requires |ids| * HandSize(|ids|) < |deck|
    ensures Zones(Dealt(ids, rs, seed, deck)) == multiset(deck)
  {
    hide HandsBag, Flatten, Hands, HandSize, Dealt;
    var n, h := |ids|, HandSize(|ids|);
    var hands := Hands(deck, n, h);
    HandsFlatten(deck, n, h);
    DealKeepsDeck(deck, n, h);
    SeatedBag(ids, hands);
    DealtZones(ids, rs, seed, deck);
    BagOfParts(Flatten(hands), deck[n * h], deck[n * h + 1..]);
  }

  lemma BagOfParts(a: seq<Card>, c: Card, b: seq<Card>)
    ensures multiset(a + [c] + b) == multiset(a) + multiset(b) + multiset{c}
  {
  }

  lemma DealtZones(ids: seq<string>, rs: RuleSet, seed: int, deck: seq<Card>)
    requires |ids| * HandSize(|ids|) < |deck| && |Hands(deck, |ids|, HandSize(|ids|))| == |ids|
    ensures var k := |ids| * HandSize(|ids|);
            var hands := HandsBag(Seated(ids, Hands(deck, |ids|, HandSize(|ids|))));
            Zones(Dealt(ids, rs, seed, deck)) == hands + multiset(deck[k + 1..]) + multiset{deck[k]}
  {
    hide HandsBag, Hands, HandSize, Seated;
  }

  lemma DealtIsOrderly(ids: seq<string>, rs: RuleSet, seed: int, deck: seq<Card>)
    requires 2 <= |ids| <= 4 && RoomRules(rs) && |deck| == 52
    ensures var s := Dealt(ids, rs, seed, deck);
            Orderly(s) && TableOK(s) && HeadOK(s) && ProducedOK(s)
  {
    hide Hands, RoomRules;
  }

  lemma InitialIsSound(s: State)
    requires Initial(s)
    ensures Sound(s)
  {
    hide Orderly, TableOK, HeadOK, ProducedOK, Dealt, Zones, FisherYates, RoomRules;
    var ids: seq<string>, rs: RuleSet, seed: int, draws: seq<nat> :|
      2 <= |ids| <= 4 && RoomRules(rs) && Draws(draws, 52) && s == Shuffled(ids, rs, seed, draws);
    ShufflePermutes(OrderedDeck(), draws, 52);
    DealtConserves(ids, rs, seed, FisherYates(OrderedDeck(), draws, 52));
    DealtIsOrderly(ids, rs, seed, FisherYates(OrderedDeck(), draws, 52));
  }
}
