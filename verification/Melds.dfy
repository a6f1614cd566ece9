/** Meld classification and construction (server/internal/game/meld.go).

    A run is described by its suit, its lowest value and its length: `Straight(s, lo, n)`
    lists its cards upwards, value 14 standing for the Ace above the King. The functions
    say what a group of cards is as a bag; the methods are the loops of the original. */
module Melds {
  import opened Bags
  import opened Cards

  type MeldId = nat

  datatype MeldKind = Set | Run

  datatype Meld = Meld(id: MeldId, kind: MeldKind, cards: seq<Card>, owner: int, aceHigh: bool)

  datatype GameError =
    | BadPlayerCount | RoundIsOver | NotYourTurn | WrongPhase | MustDrawDeck | EmptyDiscard
    | CardNotHeld | BadKnock | NoSuchMeld | PickupNeedsMeld
    | MeldTooShort | MeldInvalid | LayOffInvalid

  datatype Result<+T> = Ok(value: T) | Err(error: GameError)

  // ----- what a group of cards is ------------------------------------------------------

  /** The card of value `v` in a suit, where 14 is the Ace above the King. */
  function At(s: Suit, v: int): Card
    requires 1 <= v <= 14
  {
    Card(s, if v == 14 then ACE else v)
  }

  function Val(c: Card, aceHigh: bool): int {
    if aceHigh && c.rank == ACE then 14 else c.rank
  }

  function Straight(s: Suit, lo: nat, n: nat): seq<Card>
    requires 1 <= lo && lo + n <= 15
  {
    seq(n, i requires 0 <= i < n => At(s, lo + i))
  }

  /** The intervals a run may occupy. An interval that reaches 14 has the Ace on top; the
      whole suit and the lone Ace count as Ace-low, and nothing wraps from King to Two. */
  predicate Interval(lo: nat, n: nat) {
    1 <= lo && 1 <= n && lo + n <= 15 && (lo + n == 15 ==> 3 <= lo <= 13)
  }

  ghost predicate RunOf(b: multiset<Card>, s: Suit, lo: nat) {
    Interval(lo, |b|) && b == multiset(Straight(s, lo, |b|))
  }

  ghost predicate SameRank(b: multiset<Card>) {
    forall c, d :: c in b && d in b ==> c.rank == d.rank
  }

  ghost predicate SameSuit(b: multiset<Card>) {
    forall c, d :: c in b && d in b ==> c.suit == d.suit
  }

  datatype Shape = SetShape | RunShape(suit: Suit, lo: nat)

  ghost function Classify(b: multiset<Card>, minLen: nat): (r: Option<Shape>)
    ensures r.Some? ==> |b| >= minLen
    ensures r.Some? && r.value.SetShape? ==> SameRank(b)
    ensures r.Some? && r.value.RunShape? ==> RunOf(b, r.value.suit, r.value.lo) && !SameRank(b)
  {
    if |b| < minLen then None
    else if SameRank(b) then Some(SetShape)
    else if exists s: Suit, lo: nat :: RunOf(b, s, lo) then
      var s: Suit, lo: nat :| RunOf(b, s, lo);
      Some(RunShape(s, lo))
    else None
  }

  /** The meld that cards of a known shape become: a run is stored in ascending order. */
  ghost function Build(id: MeldId, shape: Shape, cards: seq<Card>, owner: int): Meld
    requires shape.RunShape? ==> Interval(shape.lo, |cards|)
  {
    match shape
    case SetShape => Meld(id, Set, cards, owner, false)
    case RunShape(s, lo) =>
      Meld(id, Run, Straight(s, lo, |cards|), owner, lo + |cards| == 15)
  }

  ghost function MakeMeld(id: MeldId, cards: seq<Card>, owner: int, minLen: nat): Result<Meld> {
    match Classify(multiset(cards), minLen)
    case None => Err(if |cards| < minLen then MeldTooShort else MeldInvalid)
    case Some(shape) => Ok(Build(id, shape, cards, owner))
  }

  /** A stored meld that still classifies to the kind, order and Ace flag it is stored with. */
  ghost predicate ValidMeld(m: Meld, minLen: nat) {
    MakeMeld(m.id, m.cards, m.owner, minLen) == Ok(m)
  }

  /** The index of the first table meld with the given id, or -1. */
  function FindFrom(melds: seq<Meld>, id: MeldId, i: nat): (k: int)
    requires i <= |melds|
    ensures k == -1 || i <= k < |melds|
    ensures k == -1 ==> forall j :: i <= j < |melds| ==> melds[j].id != id
    ensures k != -1 ==> melds[k].id == id && forall j :: i <= j < k ==> melds[j].id != id
    decreases |melds| - i
  {
    if i == |melds| then -1
    else if melds[i].id == id then i
    else FindFrom(melds, id, i + 1)
  }

  function FindMeld(melds: seq<Meld>, id: MeldId): (k: int)
    ensures k == -1 || 0 <= k < |melds|
  {
    FindFrom(melds, id, 0)
  }

  predicate UniqueIds(melds: seq<Meld>) {
    forall i, j :: 0 <= i < j < |melds| ==> melds[i].id != melds[j].id
  }

  // ----- facts about straights ---------------------------------------------------------

  predicate InSpan(c: Card, s: Suit, lo: nat, n: nat) {
    c.suit == s && (lo <= c.rank < lo + n || (c.rank == ACE && lo + n == 15))
  }

  /** A straight holds each card of its span once, and no other card. */
  lemma {:induction false} StraightBag(s: Suit, lo: nat, n: nat, c: Card)
    requires 1 <= lo && lo + n <= 15 && !(lo == 1 && n == 14)
    ensures multiset(Straight(s, lo, n))[c] == if n > 0 && InSpan(c, s, lo, n) then 1 else 0
  {
    if n > 0 {
      var init := Straight(s, lo, n - 1);
      assert Straight(s, lo, n) == init + [At(s, lo + n - 1)];
      StraightBag(s, lo, n - 1, c);
    }
  }

  lemma SpanOf(b: multiset<Card>, s: Suit, lo: nat)
    requires RunOf(b, s, lo)
    ensures forall c: Card :: b[c] == if InSpan(c, s, lo, |b|) then 1 else 0
  {
    forall c: Card ensures b[c] == if InSpan(c, s, lo, |b|) then 1 else 0 {
      StraightBag(s, lo, |b|, c);
    }
  }

  /** Any bag with the multiplicities of a span is that run. */
  lemma RunFromSpan(b: multiset<Card>, s: Suit, lo: nat)
    requires Interval(lo, |b|)
    requires forall c: Card :: b[c] == if InSpan(c, s, lo, |b|) then 1 else 0
    ensures RunOf(b, s, lo)
  {
    var t := multiset(Straight(s, lo, |b|));
    forall c: Card ensures b[c] == t[c] {
      StraightBag(s, lo, |b|, c);
    }
    assert b == t;
  }

  /** A bag of cards is a run in at most one way. */
  lemma RunUnique(b: multiset<Card>, s: Suit, lo: nat, s': Suit, lo': nat)
    requires RunOf(b, s, lo) && RunOf(b, s', lo')
    ensures s == s' && lo == lo'
  {
    SpanOf(b, s, lo);
    SpanOf(b, s', lo');
    var n := |b|;
    assert b[At(s, lo)] == 1 && b[At(s', lo')] == 1;
    assert b[At(s, lo + n - 1)] == 1 && b[At(s', lo' + n - 1)] == 1;
    assert s == s';
    if lo + n == 15 {
      assert b[At(s, 13)] == 1 && b[At(s, 14)] == 1 && b[At(s, 2)] == 0;
    }
    if lo' + n == 15 {
      assert b[At(s, 13)] == 1 && b[At(s, 14)] == 1 && b[At(s, 2)] == 0;
    }
  }

  lemma RunNotSameRank(b: multiset<Card>, s: Suit, lo: nat)
    requires RunOf(b, s, lo) && |b| >= 2
    ensures !SameRank(b)
  {
    SpanOf(b, s, lo);
    assert b[At(s, lo)] == 1 && b[At(s, lo + 1)] == 1;
  }

  lemma ClassifyRunIs(b: multiset<Card>, minLen: nat, s: Suit, lo: nat)
    requires RunOf(b, s, lo) && |b| >= minLen && |b| >= 2
    ensures Classify(b, minLen) == Some(RunShape(s, lo))
  {
    RunNotSameRank(b, s, lo);
    var r := Classify(b, minLen);
    RunUnique(b, s, lo, r.value.suit, r.value.lo);
  }

  // ----- sorting -----------------------------------------------------------------------

  predicate Ascending<T>(s: seq<T>, key: T -> int) {
    forall i, j :: 0 <= i < j < |s| ==> key(s[i]) <= key(s[j])
  }

  function Insert<T>(x: T, s: seq<T>, key: T -> int): (r: seq<T>)
    ensures multiset(r) == multiset(s) + multiset{x}
  {
    if s == [] || key(x) <= key(s[0]) then [x] + s
    else
      assert s == [s[0]] + s[1..];
      [s[0]] + Insert(x, s[1..], key)
  }

  lemma {:induction false} InsertAscends<T>(x: T, s: seq<T>, key: T -> int)
    requires Ascending(s, key)
    ensures Ascending(Insert(x, s, key), key)
  {
    if s != [] && key(x) > key(s[0]) {
      var t := Insert(x, s[1..], key);
      InsertAscends(x, s[1..], key);
      forall j | 0 <= j < |t| ensures key(s[0]) <= key(t[j]) {
        assert t[j] in multiset(t);
        assert t[j] == x || t[j] in s[1..];
      }
    }
  }

  /** An ascending arrangement: what the library's sorting calls leave behind. */
  function Sorted<T>(s: seq<T>, key: T -> int): (r: seq<T>)
    ensures Ascending(r, key) && multiset(r) == multiset(s)
  {
    if s == [] then [] else
      assert s == [s[0]] + s[1..];
      InsertAscends(s[0], Sorted(s[1..], key), key);
      Insert(s[0], Sorted(s[1..], key), key)
  }

  predicate StepsByOne(v: seq<int>) {
    forall i :: 1 <= i < |v| ==> v[i] == v[i - 1] + 1
  }

  function Vals(cards: seq<Card>, aceHigh: bool): seq<int> {
    seq(|cards|, i requires 0 <= i < |cards| => Val(cards[i], aceHigh))
  }


  function SortedInts(v: seq<int>): (r: seq<int>)
    ensures multiset(r) == multiset(v) && forall i, j :: 0 <= i < j < |r| ==> r[i] <= r[j]
  {
    var r := Sorted(v, x => x);
    SeqBagSize(r); SeqBagSize(v);
    r
  }

  lemma SameHead<T>(a: seq<T>, b: seq<T>, key: T -> int)
    requires a != [] && b != [] && multiset(a) == multiset(b) && Ascending(a, key)
    requires forall i, j :: 0 <= i < j < |b| ==> key(b[i]) < key(b[j])
    ensures a[0] == b[0]
  {
    assert a[0] in multiset(b) && b[0] in multiset(a);
    assert key(a[0]) == key(b[0]);
  }

  /** Two ascending arrangements of one bag agree when one of them is strict. */
  lemma {:induction false} SortedUnique<T>(a: seq<T>, b: seq<T>, key: T -> int)
    requires multiset(a) == multiset(b) && Ascending(a, key)
    requires forall i, j :: 0 <= i < j < |b| ==> key(b[i]) < key(b[j])
    ensures a == b
  {
    SeqBagSize(a);
    SeqBagSize(b);
    if a != [] {
      SameHead(a, b, key);
      TailBag(a);
      TailBag(b);
      SortedUnique(a[1..], b[1..], key);
    }
  }

  lemma TailBag<T>(s: seq<T>)
    requires s != []
    ensures multiset(s[1..]) == multiset(s) - multiset{s[0]}
  {
    assert s == [s[0]] + s[1..];
  }

  lemma ValsCons(x: Card, rest: seq<Card>, aceHigh: bool)
    ensures Vals([x] + rest, aceHigh) == [Val(x, aceHigh)] + Vals(rest, aceHigh)
  {
  }

  lemma {:induction false} ValsRemove(s: seq<Card>, x: Card, aceHigh: bool)
    requires x in s
    ensures multiset(Vals(s, aceHigh))
         == multiset(Vals(RemoveFirst(s, x), aceHigh)) + multiset{Val(x, aceHigh)}
  {
    hide Vals, Val;
    var rest := s[1..];
    assert s == [s[0]] + rest;
    ValsCons(s[0], rest, aceHigh);
    if s[0] != x {
      ValsRemove(rest, x, aceHigh);
      ValsCons(s[0], RemoveFirst(rest, x), aceHigh);
    }
  }

  lemma {:induction false} ValsOfBag(a: seq<Card>, b: seq<Card>, aceHigh: bool)
    requires multiset(a) == multiset(b)
    ensures multiset(Vals(a, aceHigh)) == multiset(Vals(b, aceHigh))
  {
    if a == [] {
      SeqBagSize(b);
    } else {
      hide Vals, Val, RemoveFirst;
      var x, rest := a[0], a[1..];
      assert a == [x] + rest;
      assert x in multiset(b);
      RemoveFirstBag(b, x);
      TailBag(a);
      ValsOfBag(rest, RemoveFirst(b, x), aceHigh);
      ValsRemove(b, x, aceHigh);
      ValsCons(x, rest, aceHigh);
    }
  }

  /** Sorting same-suit cards or sorting their values comes to the same. */
  lemma SortedValsOf(cards: seq<Card>, aceHigh: bool) returns (a: seq<Card>)
    requires StepsByOne(SortedInts(Vals(cards, aceHigh))) && cards != []
    ensures multiset(a) == multiset(cards) && |a| == |cards|
    ensures Vals(a, aceHigh) == SortedInts(Vals(cards, aceHigh))
  {
    var v := SortedInts(Vals(cards, aceHigh));
    a := Sorted(cards, c => Val(c, aceHigh));
    SeqBagSize(a); SeqBagSize(cards); SeqBagSize(v); SeqBagSize(Vals(cards, aceHigh));
    ValsOfBag(a, cards, aceHigh);
    StepsAreOffsets(v);
    AscendingVals(a, aceHigh);
    SortedUnique(Vals(a, aceHigh), v, x => x);
  }

  lemma AscendingVals(a: seq<Card>, aceHigh: bool)
    requires Ascending(a, c => Val(c, aceHigh))
    ensures Ascending(Vals(a, aceHigh), x => x)
  {
    var key := (c: Card) => Val(c, aceHigh);
    forall i, j | 0 <= i < j < |a| ensures Vals(a, aceHigh)[i] <= Vals(a, aceHigh)[j] {
      assert key(a[i]) <= key(a[j]);
    }
  }

  /** Cards of one suit whose values count upwards are a straight. */
  lemma CountedUp(a: seq<Card>, s: Suit, lo: int, aceHigh: bool)
    requires a != [] && forall i :: 0 <= i < |a| ==> a[i].suit == s && Val(a[i], aceHigh) == lo + i
    ensures 1 <= lo && lo + |a| <= 15 && a == Straight(s, lo, |a|)
    ensures if aceHigh then 2 <= lo else lo + |a| <= 14
  {
    assert Val(a[0], aceHigh) == lo && Val(a[|a| - 1], aceHigh) == lo + |a| - 1;
    forall i | 0 <= i < |a| ensures a[i] == At(s, lo + i) {
    }
  }

  /** Sorted values that step by one spell out a straight. */
  lemma StepsMakeStraight(cards: seq<Card>, s: Suit, aceHigh: bool)
    requires cards != [] && forall c :: c in cards ==> c.suit == s
    requires StepsByOne(SortedInts(Vals(cards, aceHigh)))
    ensures var v := SortedInts(Vals(cards, aceHigh));
            && v != [] && 1 <= v[0] && v[0] + |cards| <= 15
            && multiset(cards) == multiset(Straight(s, v[0], |cards|))
            && (if aceHigh then 2 <= v[0] else v[0] + |cards| <= 14)
  {
    hide SortedInts, StepsByOne, Val;
    var a := SortedValsOf(cards, aceHigh);
    var v := Vals(a, aceHigh);
    StepsAreOffsets(v);
    forall i | 0 <= i < |a| ensures a[i].suit == s && Val(a[i], aceHigh) == v[0] + i {
      assert v[i] == Val(a[i], aceHigh);
      assert a[i] in multiset(cards);
    }
    CountedUp(a, s, v[0], aceHigh);
  }

  lemma {:induction false} StepsAreOffsets(v: seq<int>)
    requires v != [] && StepsByOne(v)
    ensures forall i :: 0 <= i < |v| ==> v[i] == v[0] + i
  {
    if |v| > 1 {
      var w := v[..|v| - 1];
      assert w[0] == v[0];
      StepsAreOffsets(w);
      assert forall i :: 0 <= i < |w| ==> v[i] == w[i];
      assert v[|v| - 1] == v[|v| - 2] + 1;
    }
  }

  lemma StraightSteps(cards: seq<Card>, s: Suit, lo: nat, aceHigh: bool)
    requires Interval(lo, |cards|) && multiset(cards) == multiset(Straight(s, lo, |cards|))
    requires aceHigh == (lo + |cards| == 15)
    ensures StepsByOne(SortedInts(Vals(cards, aceHigh)))
  {
    var t := Vals(Straight(s, lo, |cards|), aceHigh);
    forall i | 0 <= i < |t| ensures t[i] == lo + i {
      assert Straight(s, lo, |cards|)[i] == At(s, lo + i);
    }
    ValsOfBag(cards, Straight(s, lo, |cards|), aceHigh);
    SortedUnique(SortedInts(Vals(cards, aceHigh)), t, x => x);
  }

  // ----- the loops of meld.go ----------------------------------------------------------

  method Consecutive(v: seq<int>) returns (ok: bool)
    ensures ok == StepsByOne(SortedInts(v))
  {
    var s := SortedInts(v);
    var i := 1;
    while i < |s|
      invariant 1 <= i && (s != [] ==> i <= |s|)
      invariant forall j :: 1 <= j < i && j < |s| ==> s[j] == s[j - 1] + 1
    {
      if s[i] == s[i - 1] || s[i] != s[i - 1] + 1 {
        return false;
      }
      i := i + 1;
    }
    return true;
  }

  method AceHighVals(vals: seq<int>, ghost cards: seq<Card>) returns (hi: seq<int>)
    requires vals == Vals(cards, false)
    ensures hi == Vals(cards, true)
  {
    var out := new int[|vals|];
    for i := 0 to |vals|
      invariant forall j :: 0 <= j < i ==> out[j] == Val(cards[j], true)
    {
      assert vals[i] == Val(cards[i], false);
      var v := vals[i];
      if v == ACE {
        v := KING + 1;
      }
      out[i] := v;
    }
    return out[..];
  }

  /** The cards' ranks in the suit of the first. */
  function InFirstSuit(cards: seq<Card>): seq<Card> {
    seq(|cards|, i requires 0 <= i < |cards| => Card(cards[0].suit, cards[i].rank))
  }

  lemma InFirstSuitFits(cards: seq<Card>)
    requires cards != []
    ensures var c := InFirstSuit(cards);
            && c != [] && SameSuit(multiset(c)) && c[0].suit == cards[0].suit
            && (forall aceHigh :: Vals(c, aceHigh) == Vals(cards, aceHigh))
            && ((exists x: Card :: x in c && x.rank == ACE) == (exists x: Card :: x in cards && x.rank == ACE))
  {
    var c := InFirstSuit(cards);
    forall x: Card | x in multiset(c) ensures x.suit == cards[0].suit {
      assert x in c;
    }
    hide InFirstSuit;
    SameRanksSameVals(c, cards);
    SameRanksSameAces(c, cards);
    SameRanksSameAces(cards, c);
  }

  lemma SameRanksSameVals(a: seq<Card>, b: seq<Card>)
    requires |a| == |b| && forall i :: 0 <= i < |a| ==> a[i].rank == b[i].rank
    ensures forall aceHigh :: Vals(a, aceHigh) == Vals(b, aceHigh)
  {
    forall aceHigh ensures Vals(a, aceHigh) == Vals(b, aceHigh) {
    }
  }

  lemma SameRanksSameAces(a: seq<Card>, b: seq<Card>)
    requires |a| == |b| && forall i :: 0 <= i < |a| ==> a[i].rank == b[i].rank
    ensures (exists x: Card :: x in a && x.rank == ACE) ==> exists x: Card :: x in b && x.rank == ACE
  {
    if x: Card :| x in a && x.rank == ACE {
      var i :| 0 <= i < |a| && a[i] == x;
      assert b[i] in b && b[i].rank == ACE;
    }
  }

  /** Cards are consecutive exactly when their values form a gap-free interval with the Ace as
      1 or as 14, and the flag says which. Only the ranks are looked at, so cards of mixed
      suits are judged as if all were of the first one's suit; no cards are consecutive. */
  method ClassifyRun(cards: seq<Card>) returns (ok: bool, aceHigh: bool)
    ensures cards == [] ==> ok && !aceHigh
    ensures cards != [] ==>
              ok == exists lo: nat :: RunOf(multiset(InFirstSuit(cards)), cards[0].suit, lo)
    ensures !ok ==> !aceHigh
    ensures cards != [] ==>
              forall lo: nat :: RunOf(multiset(InFirstSuit(cards)), cards[0].suit, lo) ==>
                aceHigh == (lo + |cards| == 15)
  {
    var vals := new int[|cards|];
    var hasAce := false;
    for i := 0 to |cards|
      invariant forall j :: 0 <= j < i ==> vals[j] == Val(cards[j], false)
      invariant hasAce == exists c :: c in cards[..i] && c.rank == ACE
    {
      vals[i] := cards[i].rank;
      if cards[i].rank == ACE {
        hasAce := true;
      }
      assert cards[..i + 1] == cards[..i] + [cards[i]];
    }
    assert cards[..|cards|] == cards;
    assert vals[..] == Vals(cards, false);
    ok := Consecutive(vals[..]);
    aceHigh := false;
    if cards != [] {
      InFirstSuitFits(cards);
    }
    if ok {
      if cards != [] {
        LowRun(InFirstSuit(cards));
      }
      return;
    }
    if hasAce {
      var hi := AceHighVals(vals[..], cards);
      ok := Consecutive(hi);
      if ok {
        HighRun(InFirstSuit(cards));
        return true, true;
      }
    }
    NoRun(InFirstSuit(cards));
  }

  lemma LowRun(cards: seq<Card>)
    requires cards != [] && SameSuit(multiset(cards))
    requires StepsByOne(SortedInts(Vals(cards, false)))
    ensures exists lo: nat :: RunOf(multiset(cards), cards[0].suit, lo)
    ensures forall lo: nat :: RunOf(multiset(cards), cards[0].suit, lo) ==> lo + |cards| != 15
  {
    var s, b := cards[0].suit, multiset(cards);
    assert cards[0] in b;
    SeqBagSize(cards);
    StepsMakeStraight(cards, s, false);
    var lo: nat := SortedInts(Vals(cards, false))[0];
    assert RunOf(b, s, lo);
    forall lo': nat | RunOf(b, s, lo') ensures lo' == lo {
      RunUnique(b, s, lo, s, lo');
    }
  }

  lemma HighRun(cards: seq<Card>)
    requires cards != [] && SameSuit(multiset(cards))
    requires exists c :: c in cards && c.rank == ACE
    requires !StepsByOne(SortedInts(Vals(cards, false)))
    requires StepsByOne(SortedInts(Vals(cards, true)))
    ensures exists lo: nat :: RunOf(multiset(cards), cards[0].suit, lo)
    ensures forall lo: nat :: RunOf(multiset(cards), cards[0].suit, lo) ==> lo + |cards| == 15
  {
    var s, b, n := cards[0].suit, multiset(cards), |cards|;
    assert cards[0] in b;
    SeqBagSize(cards);
    StepsMakeStraight(cards, s, true);
    var lo: nat := SortedInts(Vals(cards, true))[0];
    var c :| c in cards && c.rank == ACE;
    assert b[c] > 0;
    StraightBag(s, lo, n, c);
    assert lo + n == 15;
    assert lo != 2 by {
      if lo == 2 {
        WholeSuit(s);
        StraightSteps(cards, s, 1, false);
      }
    }
    assert lo != 14 by {
      LoneAce(s);
      if lo == 14 {
        StraightSteps(cards, s, 1, false);
      }
    }
    assert RunOf(b, s, lo);
    forall lo': nat | RunOf(b, s, lo') ensures lo' == lo {
      RunUnique(b, s, lo, s, lo');
    }
  }

  /** The full suit read upwards from the Two is the full suit read from the Ace. */
  lemma WholeSuit(s: Suit)
    ensures multiset(Straight(s, 2, 13)) == multiset(Straight(s, 1, 13))
  {
    var low, high := Straight(s, 1, 13), Straight(s, 2, 13);
    assert high == low[1..] + [low[0]];
    assert low == [low[0]] + low[1..];
  }

  lemma LoneAce(s: Suit)
    ensures Straight(s, 14, 1) == Straight(s, 1, 1)
  {
    assert Straight(s, 14, 1)[0] == At(s, 14) == At(s, 1) == Straight(s, 1, 1)[0];
  }

  lemma NoRun(cards: seq<Card>)
    requires cards != [] && SameSuit(multiset(cards))
    requires !StepsByOne(SortedInts(Vals(cards, false)))
    requires (exists c :: c in cards && c.rank == ACE) ==>
               !StepsByOne(SortedInts(Vals(cards, true)))
    ensures !exists lo: nat :: RunOf(multiset(cards), cards[0].suit, lo)
  {
    var s, b, n := cards[0].suit, multiset(cards), |cards|;
    SeqBagSize(cards);
    if lo: nat :| RunOf(b, s, lo) {
      SpanOf(b, s, lo);
      assert lo + n == 15 ==> b[At(s, 14)] == 1;
      StraightSteps(cards, s, lo, lo + n == 15);
    }
  }

  /** Sets are cards of one rank, runs are consecutive cards of one suit. */
  method ClassifyMeld(cards: seq<Card>, rs: RuleSet) returns (r: Result<(MeldKind, bool)>)
    ensures match Classify(multiset(cards), rs.minMeldLen)
            case None =>
              r == Err(if |cards| < rs.minMeldLen then MeldTooShort else MeldInvalid)
            case Some(SetShape) => r == Ok((Set, false))
            case Some(RunShape(_, lo)) => r == Ok((Run, lo + |cards| == 15))
  {
    ghost var b := multiset(cards);
    SeqBagSize(cards);
    if |cards| < rs.minMeldLen {
      return Err(MeldTooShort);
    }
    var isSet := true;
    for i := 0 to |cards|
      invariant isSet ==> forall j :: 0 <= j < i ==> cards[j].rank == cards[0].rank
    {
      if cards[i].rank != cards[0].rank {
        isSet := false;
        assert cards[i] in b && cards[0] in b;
        break;
      }
    }
    assert isSet == SameRank(b);
    if isSet {
      return Ok((Set, false));
    }
    for i := 0 to |cards|
      invariant forall j :: 0 <= j < i ==> cards[j].suit == cards[0].suit
    {
      if cards[i].suit != cards[0].suit {
        NoRunAcrossSuits(b, cards[i], cards[0]);
        return Err(MeldInvalid);
      }
    }
    RunIsSameSuit(cards);
    assert InFirstSuit(cards) == cards;
    var ok, aceHigh := ClassifyRun(cards);
    if ok {
      return Ok((Run, aceHigh));
    }
    return Err(MeldInvalid);
  }

  lemma NoRunAcrossSuits(b: multiset<Card>, c: Card, d: Card)
    requires c in b && d in b && c.suit != d.suit
    ensures !exists s: Suit, lo: nat :: RunOf(b, s, lo)
  {
    if s: Suit, lo: nat :| RunOf(b, s, lo) {
      SpanOf(b, s, lo);
    }
  }

  lemma RunIsSameSuit(cards: seq<Card>)
    requires cards != []
    ensures forall s: Suit, lo: nat :: RunOf(multiset(cards), s, lo) ==> s == cards[0].suit
  {
    forall s: Suit, lo: nat | RunOf(multiset(cards), s, lo) ensures s == cards[0].suit {
      SpanOf(multiset(cards), s, lo);
      assert cards[0] in multiset(cards);
    }
  }

  /** Orders run cards upwards in place; with `aceHigh` the Ace goes above the King. */
  method SortRun(a: array<Card>, aceHigh: bool)
    modifies a
    ensures a[..] == Sorted(old(a[..]), c => Val(c, aceHigh))
  {
    var s := Sorted(a[..], c => Val(c, aceHigh));
    SeqBagSize(s);
    SeqBagSize(a[..]);
    forall i | 0 <= i < a.Length {
      a[i] := s[i];
    }
    assert a[..] == s;
  }

  /** Sorting the cards of a run lists its straight. */
  lemma SortedRun(cards: seq<Card>, s: Suit, lo: nat)
    requires RunOf(multiset(cards), s, lo)
    ensures |multiset(cards)| == |cards|
    ensures Sorted(cards, c => Val(c, lo + |cards| == 15)) == Straight(s, lo, |cards|)
  {
    SeqBagSize(cards);
    StraightVals(s, lo, |cards|);
    hide Sorted, Straight, Val;
    var aceHigh := lo + |cards| == 15;
    SortedUnique(Sorted(cards, c => Val(c, aceHigh)), Straight(s, lo, |cards|), c => Val(c, aceHigh));
  }

  lemma StraightVals(s: Suit, lo: nat, n: nat)
    requires Interval(lo, n)
    ensures var t := Straight(s, lo, n);
            |t| == n && forall i :: 0 <= i < n ==> Val(t[i], lo + n == 15) == lo + i
  {
    forall i | 0 <= i < n ensures Val(Straight(s, lo, n)[i], lo + n == 15) == lo + i {
      assert Straight(s, lo, n)[i] == At(s, lo + i);
    }
  }

  /** A sorted copy of a run's cards. */
  method RunInOrder(cards: seq<Card>, aceHigh: bool, ghost s: Suit, ghost lo: nat)
    returns (r: seq<Card>)
    requires RunOf(multiset(cards), s, lo) && |multiset(cards)| == |cards|
    requires aceHigh == (lo + |cards| == 15)
    ensures r == Straight(s, lo, |cards|)
  {
    var out := new Card[|cards|](i requires 0 <= i < |cards| => cards[i]);
    assert out[..] == cards;
    SortRun(out, aceHigh);
    SortedRun(cards, s, lo);
    return out[..];
  }

  method NewMeld(id: MeldId, cards: seq<Card>, owner: int, rs: RuleSet)
    returns (r: Result<Meld>)
    ensures r == MakeMeld(id, cards, owner, rs.minMeldLen)
  {
    SeqBagSize(cards);
    var v := ClassifyMeld(cards, rs);
    if v.Err? {
      return Err(v.error);
    }
    var (kind, aceHigh) := v.value;
    var out := cards;
    if kind == Run {
      ghost var shape := Classify(multiset(cards), rs.minMeldLen).value;
      out := RunInOrder(cards, aceHigh, shape.suit, shape.lo);
    }
    return Ok(Meld(id, kind, out, owner, aceHigh));
  }
}
