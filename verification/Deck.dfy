/** Building, shuffling and dealing the deck (server/internal/game/deck.go). */
module Deck {
  import opened Bags
  import opened Cards

  predicate Distinct<T(==)>(s: seq<T>) {
    forall i, j :: 0 <= i < j < |s| ==> s[i] != s[j]
  }

  lemma {:induction false} DistinctBag<T>(s: seq<T>, x: T)
    requires Distinct(s)
    ensures multiset(s)[x] == if x in s then 1 else 0
  {
    if s != [] {
      assert s == [s[0]] + s[1..];
      DistinctBag(s[1..], x);
    }
  }

  // ----- the ordered deck --------------------------------------------------------------

  function OrderedDeck(): seq<Card> {
    seq(52, i requires 0 <= i < 52 => Card(i / 13, i % 13 + 1))
  }

  method NewDeck() returns (d: seq<Card>)
    ensures d == OrderedDeck()
  {
    d := [];
    for s := 0 to 4
      invariant d == OrderedDeck()[..13 * s]
    {
      for r := 1 to 14
        invariant d == OrderedDeck()[..13 * s + r - 1]
      {
        assert OrderedDeck()[13 * s + r - 1] == Card(s, r);
        d := d + [Card(s, r)];
      }
    }
  }

  lemma DeckIsDistinct()
    ensures |OrderedDeck()| == 52 && Distinct(OrderedDeck())
  {
  }

  /** The deck holds every card exactly once. */
  lemma DeckHasEachCardOnce()
    ensures |multiset(OrderedDeck())| == 52
    ensures forall c: Card :: multiset(OrderedDeck())[c] == 1
  {
    var d := OrderedDeck();
    SeqBagSize(d);
    forall c: Card ensures multiset(d)[c] == 1 {
      assert d[13 * c.suit + c.rank - 1] == c;
      DistinctBag(d, c);
    }
  }

  // ----- Fisher-Yates ------------------------------------------------------------------

  /** What the generator may answer: position i of the loop draws some j with 0 <= j <= i.
      Position 0 is never drawn for. */
  predicate Draws(v: seq<nat>, n: nat) {
    |v| == n && forall i :: 0 <= i < n ==> v[i] <= i
  }

  function Swap<T>(s: seq<T>, i: nat, j: nat): seq<T>
    requires i < |s| && j < |s|
  {
    s[i := s[j]][j := s[i]]
  }

  /** The shuffle's steps for the positions k-1 down to 1. */
  function FisherYates<T>(s: seq<T>, v: seq<nat>, k: nat): (r: seq<T>)
    requires Draws(v, |s|) && k <= |s|
    ensures |r| == |s|
    decreases k
  {
    if k <= 1 then s else FisherYates(Swap(s, k - 1, v[k - 1]), v, k - 1)
  }

  method Shuffle(cards: seq<Card>, draws: seq<nat>) returns (r: seq<Card>)
    requires Draws(draws, |cards|)
    ensures r == FisherYates(cards, draws, |cards|)
  {
    var out := new Card[|cards|](i requires 0 <= i < |cards| => cards[i]);
    assert out[..] == cards;
    var i := |cards| - 1;
    while i > 0
      invariant -1 <= i < out.Length == |cards|
      invariant FisherYates(out[..], draws, i + 1) == FisherYates(cards, draws, |cards|)
    {
      var j := draws[i];
      ghost var before := out[..];
      out[i], out[j] := out[j], out[i];
      assert out[..] == Swap(before, i, j);
      i := i - 1;
    }
    return out[..];
  }

  lemma SwapBag<T>(s: seq<T>, i: nat, j: nat)
    requires i < |s| && j < |s|
    ensures multiset(Swap(s, i, j)) == multiset(s)
  {
  }

  lemma SwapDistinct<T>(s: seq<T>, i: nat, j: nat)
    requires i < |s| && j < |s| && Distinct(s)
    ensures Distinct(Swap(s, i, j))
  {
  }

  lemma {:induction false} ShufflePermutes<T>(s: seq<T>, v: seq<nat>, k: nat)
    requires Draws(v, |s|) && k <= |s|
    ensures multiset(FisherYates(s, v, k)) == multiset(s)
    ensures forall i :: k <= i < |s| ==> FisherYates(s, v, k)[i] == s[i]
    decreases k
  {
    if k > 1 {
      SwapBag(s, k - 1, v[k - 1]);
      ShufflePermutes(Swap(s, k - 1, v[k - 1]), v, k - 1);
    }
  }

  /** The first step decides what ends up last. */
  lemma LastIsDrawn<T>(s: seq<T>, v: seq<nat>, k: nat)
    requires Draws(v, |s|) && 1 < k <= |s|
    ensures FisherYates(s, v, k)[k - 1] == s[v[k - 1]]
  {
    ShufflePermutes(Swap(s, k - 1, v[k - 1]), v, k - 1);
  }

  /** Different draws leave different orders. */
  lemma {:induction false} ShuffleInjective<T>(s: seq<T>, v: seq<nat>, w: seq<nat>, k: nat)
    requires Draws(v, |s|) && Draws(w, |s|) && k <= |s| && Distinct(s)
    requires FisherYates(s, v, k) == FisherYates(s, w, k)
    ensures forall i :: 0 <= i < k ==> v[i] == w[i]
    decreases k
  {
    if k > 1 {
      LastIsDrawn(s, v, k);
      LastIsDrawn(s, w, k);
      assert v[k - 1] == w[k - 1];
      SwapDistinct(s, k - 1, v[k - 1]);
      ShuffleInjective(Swap(s, k - 1, v[k - 1]), v, w, k - 1);
    }
  }

  lemma {:induction false} LaterDrawsUnused<T>(s: seq<T>, v: seq<nat>, w: seq<nat>, k: nat)
    requires Draws(v, |s|) && Draws(w, |s|) && k <= |s|
    requires forall i :: 0 <= i < k ==> v[i] == w[i]
    ensures FisherYates(s, v, k) == FisherYates(s, w, k)
    decreases k
  {
    if k > 1 {
      LaterDrawsUnused(Swap(s, k - 1, v[k - 1]), v, w, k - 1);
    }
  }

  /** Two orders of the same cards that agree from position k on. */
  predicate Agree<T(==)>(s: seq<T>, t: seq<T>, k: nat) {
    && Distinct(s) && Distinct(t) && multiset(s) == multiset(t) && |s| == |t|
    && k <= |s| && forall i :: k <= i < |s| ==> s[i] == t[i]
  }

  /** One step can bring the right card to position k-1. */
  lemma BringLast<T>(s: seq<T>, t: seq<T>, k: nat) returns (j: nat)
    requires Agree(s, t, k) && k >= 1
    ensures j < k && Agree(Swap(s, k - 1, j), t, k - 1)
  {
    hide Swap, Distinct;
    assert t[k - 1] in multiset(t);
    j := FindIn(s, t[k - 1]);
    if j >= k {
      SameElement(t, j, k - 1);
    }
    SwapBag(s, k - 1, j);
    SwapDistinct(s, k - 1, j);
    SwapElements(s, k - 1, j);
  }

  lemma FindIn<T>(s: seq<T>, x: T) returns (j: nat)
    requires x in multiset(s)
    ensures j < |s| && s[j] == x
  {
    assert x in s;
    j :| 0 <= j < |s| && s[j] == x;
  }

  lemma SameElement<T>(t: seq<T>, i: nat, j: nat)
    requires Distinct(t) && i < |t| && j < |t| && t[i] == t[j]
    ensures i == j
  {
  }

  lemma SwapElements<T>(s: seq<T>, i: nat, j: nat)
    requires i < |s| && j < |s|
    ensures var r := Swap(s, i, j);
            && |r| == |s| && r[i] == s[j]
            && forall l :: 0 <= l < |s| && l != i && l != j ==> r[l] == s[l]
  {
  }

  lemma AgreeFromStart<T>(s: seq<T>, t: seq<T>, k: nat)
    requires Agree(s, t, k) && k <= 1
    ensures s == t
  {
    if k == 1 {
      var j := BringLast(s, t, 1);
    }
  }

  /** Every order of the first k cards can be drawn. */
  lemma {:induction false} ShuffleReaches<T>(s: seq<T>, t: seq<T>, k: nat) returns (v: seq<nat>)
    requires Agree(s, t, k) && k <= |s|
    ensures Draws(v, |s|) && FisherYates(s, v, k) == t
    decreases k
  {
    hide Agree;
    if k <= 1 {
      v := seq(|s|, _ => 0);
      AgreeFromStart(s, t, k);
    } else {
      var j := BringLast(s, t, k);
      var s' := Swap(s, k - 1, j);
      var w := ShuffleReaches(s', t, k - 1);
      v := w[k - 1 := j];
      LaterDrawsUnused(s', v, w, k - 1);
      DrawnStep(s, v, k);
    }
  }

  lemma DrawnStep<T>(s: seq<T>, v: seq<nat>, k: nat)
    requires Draws(v, |s|) && 1 < k <= |s|
    ensures FisherYates(s, v, k) == FisherYates(Swap(s, k - 1, v[k - 1]), v, k - 1)
  {
  }

  /** For distinct cards the draws and the orders correspond one to one. */
  lemma ShuffleIsBijection<T>(s: seq<T>, t: seq<T>)
    requires Distinct(s)
    ensures multiset(t) == multiset(s)
       <==> exists v :: Draws(v, |s|) && FisherYates(s, v, |s|) == t
    ensures forall v, w | Draws(v, |s|) && Draws(w, |s|)
              :: FisherYates(s, v, |s|) == t == FisherYates(s, w, |s|) ==> v == w
  {
    var n := |s|;
    if multiset(t) == multiset(s) {
      SeqBagSize(s);
      SeqBagSize(t);
      DistinctFromBag(s, t);
      var v := ShuffleReaches(s, t, n);
    }
    if v :| Draws(v, n) && FisherYates(s, v, n) == t {
      ShufflePermutes(s, v, n);
    }
    forall v, w | Draws(v, n) && Draws(w, n)
      ensures FisherYates(s, v, n) == t == FisherYates(s, w, n) ==> v == w
    {
      if FisherYates(s, v, n) == t == FisherYates(s, w, n) {
        ShuffleInjective(s, v, w, n);
      }
    }
  }

  lemma DistinctFromBag<T>(s: seq<T>, t: seq<T>)
    requires Distinct(s) && multiset(s) == multiset(t)
    ensures Distinct(t)
  {
    forall i, j | 0 <= i < j < |t| ensures t[i] != t[j] {
      DistinctBag(s, t[i]);
      hide Distinct;
      assert t == t[..i] + ([t[i]] + (t[i + 1..j] + ([t[j]] + t[j + 1..])));
    }
  }

  // ----- dealing -----------------------------------------------------------------------

  function Flatten<T>(ss: seq<seq<T>>): seq<T> {
    if ss == [] then [] else Flatten(ss[..|ss| - 1]) + ss[|ss| - 1]
  }

  /** The first k hands: consecutive stretches of h cards from the top of the deck. */
  function Hands(deck: seq<Card>, k: nat, h: nat): seq<seq<Card>>
    requires k * h <= |deck|
  {
    if k == 0 then [] else Hands(deck, k - 1, h) + [deck[(k - 1) * h..k * h]]
  }

  lemma {:induction false} HandsFlatten(deck: seq<Card>, k: nat, h: nat)
    requires k * h <= |deck|
    ensures Flatten(Hands(deck, k, h)) == deck[..k * h]
    ensures |Hands(deck, k, h)| == k
    ensures forall i :: 0 <= i < k ==> |Hands(deck, k, h)[i]| == h
  {
    if k > 0 {
      HandsFlatten(deck, k - 1, h);
      var hands := Hands(deck, k, h);
      assert hands[..k - 1] == Hands(deck, k - 1, h);
      assert deck[..k * h] == deck[..(k - 1) * h] + deck[(k - 1) * h..k * h];
    }
  }

  method Deal(deck: seq<Card>, numPlayers: nat)
    returns (hands: seq<seq<Card>>, head: Card, draw: seq<Card>)
    requires numPlayers * HandSize(numPlayers) < |deck|
    ensures var dealt := numPlayers * HandSize(numPlayers);
            && hands == Hands(deck, numPlayers, HandSize(numPlayers))
            && head == deck[dealt] && draw == deck[dealt + 1..]
  {
    var h := HandSize(numPlayers);
    hands := [];
    var idx := 0;
    for p := 0 to numPlayers
      invariant idx == p * h && idx + (numPlayers - p) * h == numPlayers * h
      invariant hands == Hands(deck, p, h)
    {
      assert (numPlayers - p) * h == h + (numPlayers - p - 1) * h;
      assert (numPlayers - p - 1) * h >= 0;
      hands := hands + [deck[idx..idx + h]];
      idx := idx + h;
    }
    head := deck[idx];
    idx := idx + 1;
    draw := deck[idx..];
  }

  /** Dealing hands out every card of the deck once and only once. */
  lemma DealKeepsDeck(deck: seq<Card>, n: nat, h: nat)
    requires n * h < |deck|
    ensures Flatten(Hands(deck, n, h)) + [deck[n * h]] + deck[n * h + 1..] == deck
  {
    hide Hands, Flatten;
    HandsFlatten(deck, n, h);
    SplitDeck(deck, n * h);
  }

  lemma SplitDeck(deck: seq<Card>, k: nat)
    requires k < |deck|
    ensures deck[..k] + [deck[k]] + deck[k + 1..] == deck
  {
  }
}
