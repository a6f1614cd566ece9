/** Every action moves cards; none appears, disappears or is copied. */
module Conservation {
  import opened Bags
  import opened Cards
  import opened Melds
  import opened LayOff
  import opened Rules
  import opened Runs

  function HandsBag(players: seq<Player>): multiset<Card> {
    if players == [] then multiset{} else multiset(players[0].hand) + HandsBag(players[1..])
  }

  function TableBag(melds: seq<Meld>): multiset<Card> {
    if melds == [] then multiset{} else multiset(melds[0].cards) + TableBag(melds[1..])
  }

  function KnockedBag(s: State): multiset<Card> {
    if s.knocked.None? then multiset{} else multiset{s.knocked.value}
  }

  /** All cards of a round: hands, table, draw pile, discard pile, knocked card. */
  function Zones(s: State): multiset<Card> {
    HandsBag(s.players) + TableBag(s.melds) + multiset(s.drawPile) + multiset(s.discardPile)
    + KnockedBag(s)
  }

  // ----- bags of hands and melds -------------------------------------------------------

  /** Exchanging one summand for another. */
  lemma Exchange<T>(x: multiset<T>, y: multiset<T>, rest: multiset<T>, a: multiset<T>, b: multiset<T>)
    requires x + a == y + b
    ensures rest + x + a == rest + y + b
  {
    assert rest + x + a == rest + (x + a);
    assert rest + y + b == rest + (y + b);
  }

  lemma {:induction false} HandsUpdate(players: seq<Player>, p: nat, q: Player)
    requires p < |players|
    ensures HandsBag(players[p := q]) + multiset(players[p].hand)
         == HandsBag(players) + multiset(q.hand)
  {
    var after := players[p := q];
    if p == 0 {
      assert after[1..] == players[1..];
    } else {
      assert after[1..] == players[1..][p - 1 := q];
      HandsUpdate(players[1..], p - 1, q);
      Exchange(HandsBag(after[1..]), HandsBag(players[1..]), multiset(players[0].hand),
               multiset(players[p].hand), multiset(q.hand));
    }
  }

  lemma {:induction false} MeldsAppend(melds: seq<Meld>, m: Meld)
    ensures TableBag(melds + [m]) == TableBag(melds) + multiset(m.cards)
  {
    if melds == [] {
      assert ([] + [m])[1..] == [];
    } else {
      assert (melds + [m])[1..] == melds[1..] + [m];
      MeldsAppend(melds[1..], m);
    }
  }

  lemma {:induction false} MeldsUpdate(melds: seq<Meld>, i: nat, u: Meld)
    requires i < |melds|
    ensures TableBag(melds[i := u]) + multiset(melds[i].cards)
         == TableBag(melds) + multiset(u.cards)
  {
    var after := melds[i := u];
    if i == 0 {
      assert after[1..] == melds[1..];
    } else {
      assert after[1..] == melds[1..][i - 1 := u];
      MeldsUpdate(melds[1..], i - 1, u);
      Exchange(TableBag(after[1..]), TableBag(melds[1..]), multiset(melds[0].cards),
               multiset(melds[i].cards), multiset(u.cards));
    }
  }

  // ----- pieces of the steps -----------------------------------------------------------

  /** The zones of two states that share the piles, when cards moved between hand and table. */
  lemma ZonesShift(s: State, t: State, a: multiset<Card>, b: multiset<Card>)
    requires t.drawPile == s.drawPile && t.discardPile == s.discardPile && t.knocked == s.knocked
    requires HandsBag(t.players) + TableBag(t.melds) + a == HandsBag(s.players) + TableBag(s.melds) + b
    ensures Zones(t) + a == Zones(s) + b
  {
    hide HandsBag, TableBag;
    var rest := multiset(s.drawPile) + multiset(s.discardPile) + KnockedBag(s);
    var x, y := HandsBag(t.players) + TableBag(t.melds), HandsBag(s.players) + TableBag(s.melds);
    Exchange(x, y, rest, a, b);
    assert Zones(t) == rest + x && Zones(s) == rest + y;
  }

  lemma ZonesWithHand(s: State, p: nat, hand: seq<Card>)
    requires p < |s.players|
    ensures Zones(WithHand(s, p, hand)) + multiset(s.players[p].hand) == Zones(s) + multiset(hand)
  {
    hide HandsBag, TableBag, Zones;
    var t := WithHand(s, p, hand);
    HandsUpdate(s.players, p, s.players[p].(hand := hand));
    Exchange(HandsBag(t.players), HandsBag(s.players), TableBag(s.melds),
             multiset(s.players[p].hand), multiset(hand));
    assert forall h: multiset<Card>, x: multiset<Card> :: h + x == x + h;
    ZonesShift(s, t, multiset(s.players[p].hand), multiset(hand));
  }

  lemma ZonesWithMeld(s: State, p: nat, m: Meld, hand: seq<Card>)
    requires p < |s.players|
    ensures Zones(WithMeld(s, p, m, hand)) + multiset(s.players[p].hand)
         == Zones(s) + (multiset(hand) + multiset(m.cards))
  {
    hide HandsBag, TableBag, Zones;
    var pl := s.players[p].(hand := hand, melds := s.players[p].melds + [m.id], produced := true);
    var t := WithMeld(s, p, m, hand);
    HandsUpdate(s.players, p, pl);
    MeldsAppend(s.melds, m);
    var had, has := multiset(s.players[p].hand), multiset(hand);
    var h', h, tb, mc := HandsBag(t.players), HandsBag(s.players), TableBag(s.melds), multiset(m.cards);
    assert h' + (tb + mc) + had == (h' + had) + (tb + mc);
    assert h + tb + (has + mc) == (h + has) + (tb + mc);
    ZonesShift(s, t, had, has + mc);
  }

  lemma ZonesWithLayOff(s: State, p: nat, mi: nat, u: Meld, cards: seq<Card>, hand: seq<Card>)
    requires p < |s.players| && mi < |s.melds|
    requires multiset(u.cards) == multiset(s.melds[mi].cards) + multiset(cards)
    ensures Zones(WithLayOff(s, p, mi, u, cards, hand)) + multiset(s.players[p].hand)
         == Zones(s) + (multiset(hand) + multiset(cards))
  {
    hide HandsBag, TableBag, Zones;
    var t := WithLayOff(s, p, mi, u, cards, hand);
    HandsUpdate(s.players, p, s.players[p].(hand := hand));
    MeldsUpdate(s.melds, mi, u);
    var had, has, mc := multiset(s.players[p].hand), multiset(hand), multiset(cards);
    var h', h, tb', tb := HandsBag(t.players), HandsBag(s.players), TableBag(t.melds), TableBag(s.melds);
    assert TableBag(s.melds) + multiset(u.cards) == (tb + mc) + multiset(s.melds[mi].cards);
    Cancel(tb', multiset(s.melds[mi].cards), tb + mc);
    assert h' + (tb + mc) + had == (h' + had) + (tb + mc);
    assert h + tb + (has + mc) == (h + has) + (tb + mc);
    ZonesShift(s, t, had, has + mc);
  }

  lemma Cancel<T>(a: multiset<T>, b: multiset<T>, c: multiset<T>)
    requires a + b == c + b
    ensures a == c
  {
    assert a == (a + b) - b;
  }

  lemma ZonesPileTaken(s: State, p: nat, ti: nat)
    requires Shaped(s) && ti < |s.discardPile|
    ensures Zones(PileTaken(s, p, ti)) + (multiset{s.discardPile[ti]} + multiset(s.discardPile[ti + 1..]))
         == Zones(s)
  {
    hide HandsBag, TableBag;
    var pile := s.discardPile;
    var rest := HandsBag(s.players) + TableBag(s.melds) + multiset(s.drawPile);
    var taken := multiset{pile[ti]} + multiset(pile[ti + 1..]);
    assert pile == pile[..ti] + ([pile[ti]] + pile[ti + 1..]);
    assert multiset(pile) == multiset(pile[..ti]) + taken;
    Regroup(rest, multiset(pile[..ti]), KnockedBag(s), taken);
  }

  lemma Regroup<T>(rest: multiset<T>, p: multiset<T>, k: multiset<T>, x: multiset<T>)
    ensures rest + p + k + x == rest + (p + x) + k
  {
  }

  lemma TakenOut(s: seq<Card>, c: Card)
    requires c in s
    ensures multiset(s) == multiset(RemoveFirst(s, c)) + multiset{c}
  {
    RemoveFirstBag(s, c);
    assert c in multiset(s);
  }

  lemma SameWithOneMore<T>(a: multiset<T>, b: multiset<T>, x: multiset<T>, y: multiset<T>, c: T)
    requires a + b == x + y
    ensures multiset{c} + a + b == x + (y + multiset{c})
  {
    assert multiset{c} + a + b == multiset{c} + (a + b);
    assert x + (y + multiset{c}) == multiset{c} + (x + y);
  }

  /** Supporting cards come from the pile above the target or from the hand; the rest of the
      pile is left over. */
  lemma {:induction false} ClaimsSplit(support: seq<Card>, above: seq<Card>)
    ensures multiset(support) + multiset(Extras(support, above))
         == multiset(FromHand(support, above)) + multiset(above)
    decreases |support|
  {
    if support != [] {
      hide RemoveFirst;
      var c, rest := support[0], support[1..];
      assert support == [c] + rest;
      var less := RemoveFirst(above, c);
      if c in above {
        TakenOut(above, c);
        ClaimsSplit(rest, less);
        SameWithOneMore(multiset(rest), multiset(Extras(rest, less)), multiset(FromHand(rest, less)),
                        multiset(less), c);
      } else {
        ClaimsSplit(rest, above);
        assert multiset(FromHand(support, above)) == multiset{c} + multiset(FromHand(rest, above));
        SameWithOneMore(multiset(rest), multiset(Extras(rest, above)), multiset(above),
                        multiset(FromHand(rest, above)), c);
      }
    }
  }

  // ----- every action but the auto-knock -----------------------------------------------

  lemma DrawKeepsCards(s: State, p: nat)
    requires Shaped(s) && p < |s.players|
    ensures Zones(DrawFromDeck(s, p)) == Zones(s)
  {
    hide HandsBag, TableBag, Zones;
    if s.drawPile == [] {
      NothingDrawn(s, p);
    } else {
      var c, rest := s.drawPile[0], s.drawPile[1..];
      var hand := s.players[p].hand + [c];
      var t := WithHand(s.(drawPile := rest), p, hand);
      TopCardAside(s, c, rest);
      ZonesWithHand(s.(drawPile := rest), p, hand);
      DrawnIsHanded(s, p);
      Cancel(Zones(t), multiset(s.players[p].hand), Zones(s));
    }
  }

  lemma NothingDrawn(s: State, p: nat)
    requires p < |s.players| && s.drawPile == []
    ensures Zones(DrawFromDeck(s, p)) == Zones(s)
  {
  }

  lemma DrawnIsHanded(s: State, p: nat)
    requires p < |s.players| && s.drawPile != []
    ensures Zones(DrawFromDeck(s, p))
         == Zones(WithHand(s.(drawPile := s.drawPile[1..]), p, s.players[p].hand + [s.drawPile[0]]))
  {
    hide HandsBag, TableBag;
  }

  lemma TopCardAside(s: State, c: Card, rest: seq<Card>)
    requires s.drawPile == [c] + rest
    ensures Zones(s) == Zones(s.(drawPile := rest)) + multiset{c}
  {
    hide HandsBag, TableBag;
    assert multiset(s.drawPile) == multiset{c} + multiset(rest);
  }

  lemma PickUpOntoKeepsCards(s: State, p: nat, ti: nat, id: MeldId)
    requires Shaped(s) && p < |s.players| && ti < |s.discardPile|
    ensures Zones(PickUpOnto(s, p, ti, id).state) == Zones(s)
  {
    hide Classify, WithLayOff, PileTaken, LaidOff, Zones;
    var mi, target, above := FindMeld(s.melds, id), s.discardPile[ti], s.discardPile[ti + 1..];
    if PickUpOnto(s, p, ti, id).Accepted? {
      var u := LaidOff(s.melds[mi], [target], s.rules.minMeldLen).value;
      LaidOffIsValid(s.melds[mi], [target], s.rules.minMeldLen);
      ZonesPileTaken(s, p, ti);
      TakenSame(s, p, ti);
      var hand := s.players[p].hand;
      ZonesWithLayOff(PileTaken(s, p, ti), p, mi, u, [target], hand + above);
      Cancel(Zones(PickUpOnto(s, p, ti, id).state), multiset(hand), Zones(s));
    }
  }

  lemma TakenSame(s: State, p: nat, ti: nat)
    requires Shaped(s) && ti < |s.discardPile|
    ensures var t := PileTaken(s, p, ti); t.players == s.players && t.melds == s.melds
  {
  }

  lemma PickUpMeldKeepsCards(s: State, p: nat, ti: nat, support: seq<Card>)
    requires Shaped(s) && p < |s.players| && ti < |s.discardPile|
    ensures Zones(PickUpMeld(s, p, ti, support).state) == Zones(s)
  {
    hide Classify, WithMeld, PileTaken, MakeMeld, Zones, HandContains, Removed;
    var s' := s.(nextMeldSeq := s.nextMeldSeq + 1);
    ZonesSame(s, s');
    var o := PickUpMeld(s, p, ti, support);
    if o.Accepted? {
      var target, above, hand := s.discardPile[ti], s.discardPile[ti + 1..], s.players[p].hand;
      var fromHand, extras := FromHand(support, above), Extras(support, above);
      MadeMeldIsValid(s'.nextMeldSeq, support + [target], p, s.rules.minMeldLen);
      var m := MakeMeld(s'.nextMeldSeq, support + [target], p, s.rules.minMeldLen).value;
      ClaimsSplit(support, above);
      ZonesPileTaken(s', p, ti);
      TakenSame(s', p, ti);
      HeldAlsoWithMore(hand, extras, fromHand);
      RemovedBag(hand + extras, fromHand);
      var after := Removed(hand + extras, fromHand);
      ZonesWithMeld(PileTaken(s', p, ti), p, m, after);
      PickUpBalance(Zones(o.state), Zones(s), Zones(PileTaken(s', p, ti)), hand, after, fromHand,
                    support, extras, above, target);
    }
  }

  lemma PickUpBalance(z': multiset<Card>, z: multiset<Card>, taken: multiset<Card>, hand: seq<Card>,
                      after: seq<Card>, fromHand: seq<Card>, support: seq<Card>, extras: seq<Card>,
                      above: seq<Card>, target: Card)
    requires taken + (multiset{target} + multiset(above)) == z
    requires z' + multiset(hand) == taken + (multiset(after) + multiset(support + [target]))
    requires multiset(after) + multiset(fromHand) == multiset(hand + extras)
    requires multiset(support) + multiset(extras) == multiset(fromHand) + multiset(above)
    ensures z' == z
  {
    forall c: Card ensures z'[c] == z[c] {
      assert (z' + multiset(hand))[c]
          == (taken + (multiset(after) + multiset(support + [target])))[c];
      assert (multiset(after) + multiset(fromHand))[c] == multiset(hand + extras)[c];
      assert (multiset(support) + multiset(extras))[c] == (multiset(fromHand) + multiset(above))[c];
    }
  }

  lemma HeldAlsoWithMore(hand: seq<Card>, extras: seq<Card>, cards: seq<Card>)
    requires HandContains(hand, cards)
    ensures HandContains(hand + extras, cards)
  {
  }

  lemma ZonesSame(s: State, t: State)
    requires t == s.(nextMeldSeq := t.nextMeldSeq)
    ensures Zones(s) == Zones(t)
  {
  }

  lemma MeldKeepsCards(s: State, p: nat, cards: seq<Card>)
    requires p < |s.players|
    ensures Zones(ApplyMeld(s, p, cards).state) == Zones(s)
  {
    hide Classify, WithMeld, MakeMeld, Zones, HandContains, Removed;
    var s' := s.(nextMeldSeq := s.nextMeldSeq + 1);
    ZonesSame(s, s');
    if ApplyMeld(s, p, cards).Accepted? {
      var hand := s.players[p].hand;
      MadeMeldIsValid(s'.nextMeldSeq, cards, p, s.rules.minMeldLen);
      var m := MakeMeld(s'.nextMeldSeq, cards, p, s.rules.minMeldLen).value;
      RemovedBag(hand, cards);
      ZonesWithMeld(s', p, m, Removed(hand, cards));
      Cancel(Zones(ApplyMeld(s, p, cards).state), multiset(hand), Zones(s));
    }
  }

  lemma LayOffKeepsCards(s: State, p: nat, id: MeldId, cards: seq<Card>)
    requires p < |s.players|
    ensures Zones(ApplyLayOff(s, p, id, cards).state) == Zones(s)
  {
    hide Classify, WithLayOff, LaidOff, Zones, HandContains, Removed;
    if ApplyLayOff(s, p, id, cards).Accepted? {
      var hand, mi := s.players[p].hand, FindMeld(s.melds, id);
      LaidOffIsValid(s.melds[mi], cards, s.rules.minMeldLen);
      var u := LaidOff(s.melds[mi], cards, s.rules.minMeldLen).value;
      RemovedBag(hand, cards);
      ZonesWithLayOff(s, p, mi, u, cards, Removed(hand, cards));
      Cancel(Zones(ApplyLayOff(s, p, id, cards).state), multiset(hand), Zones(s));
    }
  }

  /** The knock card is accounted for once it has left the hand. */
  lemma KnockKeepsCards(s: State, p: nat, c: Card, dark: bool)
    requires p < |s.players| && s.knocked.None?
    ensures Zones(ApplyKnock(s, p, c, dark).state) == Zones(s)
  {
    hide HandsBag, TableBag, Removed;
    if s.players[p].hand == [c] {
      var hand := s.players[p].hand;
      var t := WithHand(s, p, Removed(hand, [c]));
      RemovedBag(hand, [c]);
      ZonesWithHand(s, p, Removed(hand, [c]));
      assert Zones(ApplyKnock(s, p, c, dark).state) == Zones(t) + multiset{c};
      Cancel(Zones(t) + multiset{c}, multiset(Removed(hand, [c])), Zones(s));
    }
  }

  lemma DiscardKeepsCards(s: State, p: nat, c: Card)
    requires Shaped(s) && p < |s.players|
    ensures Zones(ApplyDiscard(s, p, c).state) == Zones(s)
  {
    hide Zones, HandsBag, TableBag, Removed, HandContains, LayableOnAny, TurnPassed, DumpCharged;
    var hand := s.players[p].hand;
    if HandContains(hand, [c]) {
      var left := Removed(hand, [c]);
      DumpingKeepsCards(s, p, c);
      var t := DumpCharged(s, p, c);
      var u := WithHand(t, p, left);
      RemovedBag(hand, [c]);
      ZonesWithHand(t, p, left);
      PassingKeepsCards(u, p, c);
      assert Zones(TurnPassed(u, p, c)) + multiset(left) == Zones(u) + multiset(hand);
      Cancel(Zones(TurnPassed(u, p, c)), multiset(left), Zones(s));
    }
  }

  lemma DumpingKeepsCards(s: State, p: nat, c: Card)
    requires Shaped(s) && p < |s.players|
    ensures Zones(DumpCharged(s, p, c)) == Zones(s) && DumpCharged(s, p, c).players == s.players
    ensures Shaped(DumpCharged(s, p, c))
  {
    hide HandsBag, TableBag, LayableOnAny;
  }

  lemma PassingKeepsCards(u: State, p: nat, c: Card)
    requires Shaped(u) && p < |u.players|
    ensures Zones(TurnPassed(u, p, c)) == Zones(u) + multiset{c}
  {
    hide HandsBag, TableBag;
    var next := (u.turn + 1) % |u.players|;
    var pl := u.players[next];
    HandsUpdate(u.players, next, pl.(producedAtTurnStart := pl.produced));
    Cancel(HandsBag(TurnPassed(u, p, c).players), multiset(pl.hand), HandsBag(u.players));
  }

  lemma SimpleActionKeepsCards(s: State, p: int, a: Action)
    requires Shaped(s) && !a.AutoKnock? && (!s.roundOver ==> s.knocked.None?)
    ensures Zones(Apply(s, p, a).state) == Zones(s)
  {
    hide Zones, DrawFromDeck, PickUpOnto, PickUpMeld, ApplyMeld, ApplyLayOff, ApplyKnock, ApplyDiscard;
    if !s.roundOver && p == s.turn {
      match a
      case DrawDeck => DrawKeepsCards(s, p);
      case DrawDiscard(target, support, onto) =>
        var ti := TargetIndex(s.discardPile, target);
        if ti >= 0 {
          if onto.Some? {
            PickUpOntoKeepsCards(s, p, ti, onto.value);
          } else {
            PickUpMeldKeepsCards(s, p, ti, support);
          }
        }
      case LayMeld(cards) => MeldKeepsCards(s, p, cards);
      case LayOffCards(id, cards) => LayOffKeepsCards(s, p, id, cards);
      case Knock(c, dark) => KnockKeepsCards(s, p, c, dark);
      case Discard(c) => DiscardKeepsCards(s, p, c);
    }
  }
}
