/** The bot's search for a meld (server/internal/bot/bot.go). */
module Bot {
  import opened Bags
  import opened Cards
  import opened Melds
  import opened Rules
  import opened Runs
  import opened Invariants
  import opened Termination
  import opened Combos
  import opened Hints
  import opened HintProof

  /** All k-combinations of 0 .. n-1 until the callback stops. */
  method AllCombos(n: nat, k: nat, stop: seq<nat> -> bool)
    returns (r: Option<seq<nat>>, ghost visited: seq<seq<nat>>)
    ensures visited == UpTo(CombosFrom(0, n, k), stop)
    ensures r == FirstIn(CombosFrom(0, n, k), stop)
  {
    if k > n {
      visited := [];
      return None, visited;
    }
    var idx := new nat[k](_ => 0);
    var stopped;
    stopped, visited := Combinations(idx, n, 0, 0, stop);
    assert idx[..0] == [];
    PrependNothing(CombosFrom(0, n, k));
    return if stopped then Some(idx[..]) else None, visited;
  }

  lemma PrependNothing(xs: seq<seq<nat>>)
    ensures Prepend([], xs) == xs
  {
    assert forall t :: 0 <= t < |xs| ==> [] + xs[t] == xs[t];
  }

  /** The hint engine's loop and the bot's recursion visit the same combinations in the same
      order and stop at the same one. */
  method EnumeratorsAgree(n: nat, k: nat, stop: seq<nat> -> bool)
    returns (a: Option<seq<nat>>, b: Option<seq<nat>>, ghost loop: seq<seq<nat>>,
             ghost recursion: seq<seq<nat>>)
    requires 1 <= k <= n
    ensures a == b && loop == recursion
    ensures forall x :: stop(x) && IsCombo(x, 0, n, k) ==> a.Some?
    ensures a.Some? ==> stop(a.value) && IsCombo(a.value, 0, n, k)
    ensures a.None? ==> loop == CombosFrom(0, n, k)
  {
    hide CombosFrom, UpTo;
    a, loop := FirstCombo(n, k, stop);
    b, recursion := AllCombos(n, k, stop);
    ghost var list := CombosFrom(0, n, k);
    ListedAreCombos(0, n, k);
    UpToWhole(list, stop);
    if a.Some? {
      ghost var t := StoppedAt(list, stop);
    }
    forall x | stop(x) && IsCombo(x, 0, n, k) ensures a.Some? {
      var t := CombosAreListed(x, 0, n, k);
      NeverStopped(list, stop, t);
    }
  }

  /** Some k cards of the hand are a meld under the bot's rules. */
  ghost predicate HasMeldOf(hand: seq<Card>, k: nat) {
    exists b: multiset<Card> ::
      b <= multiset(hand) && |b| == k && Classify(b, DefaultRuleSet().minMeldLen).Some?
  }

  /** A probe at one size finds a meld of that size exactly when there is one. */
  lemma ProbeOfSize(hand: seq<Card>, k: nat)
    ensures var first := FirstIn(CombosFrom(0, |hand|, k), Probe(hand, 3));
            && first.Some? == HasMeldOf(hand, k)
            && (first.Some? ==>
                  var c := Pick(hand, first.value);
                  |c| == k && HandContains(hand, c) && Classify(multiset(c), 3).Some?)
  {
    hide Accepts, Classify, CombosFrom, UpTo, Pick;
    var stop, list := Probe(hand, 3), CombosFrom(0, |hand|, k);
    assert hand[0..] == hand;
    ListedAreCombos(0, |hand|, k);
    if Stopped(UpTo(list, stop), stop) {
      var t := StoppedAt(list, stop);
      assert IsCombo(list[t], 0, |hand|, k);
      ComboIsHeld(hand, list[t], 0);
      AcceptsIsClassify(Pick(hand, list[t]), 3);
      SeqBagSize(Pick(hand, list[t]));
      assert |multiset(Pick(hand, list[t]))| == k;
    }
    if HasMeldOf(hand, k) {
      var b :| b <= multiset(hand) && |b| == k && Classify(b, 3).Some?;
      var x := HeldIsCombo(hand, b, 0);
      AcceptsIsClassify(Pick(hand, x), 3);
      var t := CombosAreListed(x, 0, |hand|, k);
      assert stop(x);
      NeverStopped(list, stop, t);
    }
  }

  /** A largest meld of three to five cards that leaves a card in the hand, the first of its size
      in the order of the enumeration. */
  ghost predicate IsBestMeld(hand: seq<Card>, c: seq<Card>) {
    && 3 <= |c| <= 5 && |c| < |hand| && HandContains(hand, c)
    && Classify(multiset(c), DefaultRuleSet().minMeldLen).Some?
    && (forall k :: |c| < k <= 5 && k < |hand| ==> !HasMeldOf(hand, k))
    && var first := FirstIn(CombosFrom(0, |hand|, |c|), Probe(hand, 3));
       first.Some? && c == Pick(hand, first.value)
  }

  ghost predicate NoMeldToLay(hand: seq<Card>) {
    forall k :: 3 <= k <= 5 && k < |hand| ==> !HasMeldOf(hand, k)
  }

  /** The best meld, or None when there is none. */
  method BestMeld(hand: seq<Card>) returns (r: Option<seq<Card>>)
    ensures r.Some? ==> IsBestMeld(hand, r.value)
    ensures r.None? ==> NoMeldToLay(hand)
  {
    hide HasMeldOf, CombosFrom, Pick, Classify;
    var maxSize := |hand| - 1;
    if maxSize > 5 {
      maxSize := 5;
    }
    var size := maxSize;
    while size >= 3
      invariant size <= maxSize
      invariant forall k :: size < k <= maxSize && k >= 3 ==> !HasMeldOf(hand, k)
    {
      var combo, visited := AllCombos(|hand|, size, Probe(hand, 3));
      ProbeOfSize(hand, size);
      if combo.Some? {
        return Some(Pick(hand, combo.value));
      }
      size := size - 1;
    }
    return None;
  }

  // ----- what the bot plays ------------------------------------------------------------

  /** What the bot may send on its turn: a draw from the deck, its last card as a knock, its
      best meld, or failing that some card of the hand as a discard. */
  ghost predicate BotPlays(s: State, a: Action)
    requires Shaped(s)
  {
    var hand := s.players[s.turn].hand;
    match s.phase
    case PhaseDraw => a == DrawDeck
    case PhaseMeld =>
      if |hand| <= 1 then hand != [] && a == Knock(hand[0], false)
      else if NoMeldToLay(hand) then a.Discard? && a.card in hand
      else a.LayMeld? && IsBestMeld(hand, a.cards)
    case _ => false
  }

  /** Rounds and hands in which the bot's play is legal: the room takes melds of three, or the
      hand has no meld to lay, or it has one of four cards that leaves a card. */
  ghost predicate BotIsSafe(s: State)
    requires Shaped(s)
  {
    var hand := s.players[s.turn].hand;
    || s.rules.minMeldLen == 3 || s.phase == PhaseDraw || NoMeldToLay(hand)
    || (|hand| > 4 && HasMeldOf(hand, 4))
  }

  /** The bot, which searches under the default rules whatever the room's are, makes a legal
      play exactly in the rounds that are safe for it. */
  lemma BotPlayIsLegalIffSafe(s: State, a: Action)
    requires Sound(s) && !s.roundOver && BotPlays(s, a)
    ensures Apply(s, s.turn, a).Accepted? <==> BotIsSafe(s)
  {
    hide Sound, Apply, Classify, HasMeldOf, NoMeldToLay, IsBestMeld;
    SoundPhases(s);
    var hand := s.players[s.turn].hand;
    if s.phase == PhaseDraw {
      DrawAccepted(s);
    } else if |hand| <= 1 {
      KnockAccepted(s, hand[0]);
      FewCardsNoMeld(hand);
    } else if NoMeldToLay(hand) {
      DiscardAccepted(s, a.card);
    } else {
      BestMeldAccepted(s, a.cards);
    }
  }

  /** In a running round the bot has something to send unless its hand is empty. */
  lemma BotHasPlay(s: State) returns (a: Action)
    requires Sound(s) && !s.roundOver && !HandMelded(s)
    ensures BotPlays(s, a)
  {
    hide Sound, IsBestMeld, HasMeldOf;
    SoundPhases(s);
    var hand := s.players[s.turn].hand;
    if s.phase == PhaseDraw {
      a := DrawDeck;
    } else if |hand| <= 1 {
      a := Knock(hand[0], false);
    } else if NoMeldToLay(hand) {
      a := Discard(hand[0]);
    } else {
      var c := BestMeldExists(hand);
      a := LayMeld(c);
    }
  }

  lemma BestMeldExists(hand: seq<Card>) returns (c: seq<Card>)
    requires !NoMeldToLay(hand)
    ensures IsBestMeld(hand, c)
  {
    hide HasMeldOf, CombosFrom, Pick, Classify, FirstIn;
    var k: nat :| 3 <= k <= 5 && k < |hand| && HasMeldOf(hand, k)
               && forall l :: k < l <= 5 && l < |hand| ==> !HasMeldOf(hand, l);
    ProbeOfSize(hand, k);
    c := Pick(hand, FirstIn(CombosFrom(0, |hand|, k), Probe(hand, 3)).value);
  }

  lemma SoundPhases(s: State)
    requires Sound(s)
    ensures Shaped(s) && RoomRules(s.rules)
    ensures !s.roundOver ==> s.phase == PhaseDraw || s.phase == PhaseMeld
  {
  }

  lemma DrawAccepted(s: State)
    requires Shaped(s) && !s.roundOver && s.phase == PhaseDraw
    ensures Apply(s, s.turn, DrawDeck).Accepted?
  {
  }

  lemma KnockAccepted(s: State, c: Card)
    requires Melding(s, s.turn) && s.players[s.turn].hand == [c]
    ensures Apply(s, s.turn, Knock(c, false)).Accepted?
  {
  }

  lemma FewCardsNoMeld(hand: seq<Card>)
    requires |hand| <= 1
    ensures NoMeldToLay(hand)
  {
  }

  lemma BestMeldFacts(hand: seq<Card>, c: seq<Card>)
    requires IsBestMeld(hand, c)
    ensures 3 <= |c| <= 5 && |c| < |hand| && HandContains(hand, c)
    ensures Classify(multiset(c), 3).Some?
    ensures |hand| > 4 ==> (HasMeldOf(hand, 4) <==> |c| >= 4)
  {
    hide Classify, FirstIn, CombosFrom, HasMeldOf;
    SeqBagSize(c);
    if |c| == 5 {
      SmallerMeld(hand, multiset(c));
    } else if |c| == 4 {
      MeldOfSize(hand, multiset(c));
    }
  }

  lemma MeldOfSize(hand: seq<Card>, b: multiset<Card>)
    requires b <= multiset(hand) && Classify(b, 3).Some?
    ensures HasMeldOf(hand, |b|)
  {
    hide Classify;
  }

  /** A meld legal under the bot's rules is accepted exactly when it is long enough for the
      room. */
  lemma BotMeldAccepted(s: State, p: nat, cards: seq<Card>)
    requires Sound(s) && Melding(s, p) && HandContains(s.players[p].hand, cards)
    requires Classify(multiset(cards), DefaultRuleSet().minMeldLen).Some?
    ensures Apply(s, p, LayMeld(cards)).Accepted? <==> |cards| >= s.rules.minMeldLen
  {
    hide Sound, Apply, Classify;
    MeldAccepted(s, p, cards);
    SeqBagSize(cards);
    SameAtAnyLength(multiset(cards), 3, s.rules.minMeldLen);
  }

  /** The best meld is accepted exactly when the room takes melds of three or the hand has one
      of four cards that leaves a card. */
  lemma BestMeldAccepted(s: State, c: seq<Card>)
    requires Sound(s) && Melding(s, s.turn) && IsBestMeld(s.players[s.turn].hand, c)
    ensures var hand := s.players[s.turn].hand;
            Apply(s, s.turn, LayMeld(c)).Accepted?
            <==> s.rules.minMeldLen == 3 || (|hand| > 4 && HasMeldOf(hand, 4))
  {
    hide Sound, Apply, Classify, IsBestMeld, HasMeldOf;
    SoundPhases(s);
    BestMeldFacts(s.players[s.turn].hand, c);
    BotMeldAccepted(s, s.turn, c);
  }

  /** A hand with a meld of five cards has one of four. */
  lemma SmallerMeld(hand: seq<Card>, b: multiset<Card>)
    requires b <= multiset(hand) && |b| == 5 && Classify(b, 3).Some?
    ensures HasMeldOf(hand, 4)
  {
    hide Classify;
    SameAtAnyLength(b, 3, 4);
    var g := MeldWindow(b, 4);
    SameAtAnyLength(g, 4, 3);
    MeldOfSize(hand, g);
  }

  lemma SameAtAnyLength(b: multiset<Card>, k: nat, l: nat)
    requires Classify(b, k).Some?
    ensures Classify(b, l).Some? <==> |b| >= l
  {
  }
}
