/** Which plan the auto-knock solver returns: the first in the order of knock cards, of new melds
    before lay-offs, of table melds and of masks. What can still be placed is said by covers. */
module SolverOrder {
  import opened Bags
  import opened Cards
  import opened Melds
  import opened LayOff
  import opened Solver
  import opened SolverProof
  import opened Deck

  // ----- the first hit is the first ----------------------------------------------------

  lemma {:induction false} FirstSomeIsFirst<T>(hit: nat -> Option<T>, i: nat, n: nat) returns (k: nat)
    requires i <= n && FirstSome(hit, i, n).Some?
    ensures i <= k < n && hit(k) == FirstSome(hit, i, n)
    ensures forall j :: i <= j < k ==> hit(j).None?
    decreases n - i
  {
    if hit(i).Some? {
      k := i;
    } else {
      k := FirstSomeIsFirst(hit, i + 1, n);
    }
  }

  lemma {:induction false} FirstSomeNone<T>(hit: nat -> Option<T>, i: nat, n: nat)
    requires i <= n && FirstSome(hit, i, n).None?
    ensures forall j :: i <= j < n ==> hit(j).None?
    decreases n - i
  {
    if i < n {
      FirstSomeNone(hit, i + 1, n);
    }
  }

  /** How a successful search got its answer: by the first mask that makes a new meld, or, when
      none does, by the first mask of the first table meld that takes the cards. */
  lemma SearchStep(cards: seq<Card>, melds: seq<Meld>, minLen: nat)
    returns (byMeld: bool, mi: nat, mask: nat)
    requires cards != [] && Search(cards, melds, minLen).Some?
    ensures mask < Pow2(|cards| - 1)
    ensures byMeld ==>
              && MeldHit(cards, melds, minLen, mask) == Search(cards, melds, minLen)
              && forall m: nat :: m < mask ==> MeldHit(cards, melds, minLen, m).None?
    ensures !byMeld ==>
              && mi < |melds|
              && LayOffHit(cards, melds, minLen, mi, mask) == Search(cards, melds, minLen)
              && (forall m: nat :: m < Pow2(|cards| - 1) ==> MeldHit(cards, melds, minLen, m).None?)
              && (forall m: nat :: m < mask ==> LayOffHit(cards, melds, minLen, mi, m).None?)
              && (forall i: nat, m: nat :: i < mi && m < Pow2(|cards| - 1) ==>
                    LayOffHit(cards, melds, minLen, i, m).None?)
  {
    hide MeldHit, LayOffHit, FirstSome;
    var n := Pow2(|cards| - 1);
    var hits, scans := MeldHits(cards, melds, minLen), LayOffScans(cards, melds, minLen);
    mi := 0;
    assert forall m: nat :: hits(m) == MeldHit(cards, melds, minLen, m);
    byMeld := FirstSome(hits, 0, n).Some?;
    if byMeld {
      mask := FirstSomeIsFirst(hits, 0, n);
    } else {
      FirstSomeNone(hits, 0, n);
      mi := FirstSomeIsFirst(scans, 0, |melds|);
      mask := ScanStep(cards, melds, minLen, mi);
      forall i: nat, m: nat | i < mi && m < n ensures LayOffHit(cards, melds, minLen, i, m).None? {
        assert scans(i).None?;
        NoScan(cards, melds, minLen, i, m);
      }
    }
  }

  lemma ScanStep(cards: seq<Card>, melds: seq<Meld>, minLen: nat, mi: nat) returns (mask: nat)
    requires cards != [] && mi < |melds| && LayOffScans(cards, melds, minLen)(mi).Some?
    ensures mask < Pow2(|cards| - 1)
    ensures LayOffHit(cards, melds, minLen, mi, mask) == LayOffScans(cards, melds, minLen)(mi)
    ensures forall m: nat :: m < mask ==> LayOffHit(cards, melds, minLen, mi, m).None?
  {
    hide LayOffHit, FirstSome;
    var hits := LayOffHits(cards, melds, minLen, mi);
    assert forall m: nat :: hits(m) == LayOffHit(cards, melds, minLen, mi, m);
    mask := FirstSomeIsFirst(hits, 0, Pow2(|cards| - 1));
  }

  lemma NoScan(cards: seq<Card>, melds: seq<Meld>, minLen: nat, mi: nat, m: nat)
    requires cards != [] && mi < |melds| && LayOffScans(cards, melds, minLen)(mi).None?
    requires m < Pow2(|cards| - 1)
    ensures LayOffHit(cards, melds, minLen, mi, m).None?
  {
    hide LayOffHit, FirstSome;
    var hits := LayOffHits(cards, melds, minLen, mi);
    assert hits(m) == LayOffHit(cards, melds, minLen, mi, m);
    FirstSomeNone(hits, 0, Pow2(|cards| - 1));
  }

  // ----- a search succeeds exactly for cards that can be covered -----------------------

  lemma {:induction false} SumAppend(piles: seq<multiset<Card>>, b: multiset<Card>)
    ensures Sum(piles + [b]) == Sum(piles) + b
  {
    if piles == [] {
      assert ([] + [b])[1..] == [];
    } else {
      assert (piles + [b])[1..] == piles[1..] + [b];
      SumAppend(piles[1..], b);
    }
  }

  lemma CoverWithMeld(left: multiset<Card>, group: multiset<Card>, melds: seq<Meld>, minLen: nat)
    requires Coverable(left, melds, minLen) && Classify(group, minLen).Some?
    ensures Coverable(left + group, melds, minLen)
  {
    hide Classify, Sum;
    var piles :| Covers(piles, left, melds, minLen);
    SumAppend(piles, group);
    var more := piles + [group];
    forall i | 0 <= i < |more| ensures Grows(melds, i, more[i], minLen) {
      if i < |piles| {
        assert Grows(melds, i, piles[i], minLen);
      }
    }
    assert Covers(more, left + group, melds, minLen);
  }

  lemma CoverWithLayOff(left: multiset<Card>, group: seq<Card>, melds: seq<Meld>, mi: nat, minLen: nat)
    requires mi < |melds| && LaidOff(melds[mi], group, minLen).Some?
    requires Coverable(left, melds[mi := LaidOff(melds[mi], group, minLen).value], minLen)
    ensures Coverable(left + multiset(group), melds, minLen)
  {
    hide Classify, Sum, FitsOn;
    var u := LaidOff(melds[mi], group, minLen).value;
    var next := melds[mi := u];
    var piles :| Covers(piles, left, next, minLen);
    var pile := multiset(group) + piles[mi];
    var more := piles[mi := pile];
    SumUpdate(piles, mi, pile);
    Swapped(Sum(more), Sum(piles), piles[mi], multiset(group));
    assert Grows(next, mi, piles[mi], minLen);
    FitsAfter(melds[mi], group, piles[mi], minLen);
    LaidOffIffFits(melds[mi], group, minLen);
    assert piles[mi] == multiset{} ==> pile == multiset(group);
    forall i | 0 <= i < |more| ensures Grows(melds, i, more[i], minLen) {
      assert Grows(next, i, piles[i], minLen);
    }
    assert Covers(more, left + multiset(group), melds, minLen);
  }

  lemma Swapped<T>(more: multiset<T>, sum: multiset<T>, had: multiset<T>, b: multiset<T>)
    requires more + had == sum + (b + had)
    ensures more == sum + b
  {
    assert more == (more + had) - had;
    assert sum + b == (sum + (b + had)) - had;
  }

  lemma {:induction false} SearchCovers(cards: seq<Card>, melds: seq<Meld>, minLen: nat)
    requires Search(cards, melds, minLen).Some?
    ensures Coverable(multiset(cards), melds, minLen)
    decreases |cards|
  {
    if cards == [] {
      NothingToCover(melds, minLen);
    } else {
      hide Search, LaidOff, Classify, Coverable, Group, Remaining;
      var byMeld, mi, mask := SearchStep(cards, melds, minLen);
      GroupAndRest(cards, mask);
      if byMeld {
        SearchCovers(Remaining(cards[1..], mask), melds, minLen);
        CoverWithMeld(multiset(Remaining(cards[1..], mask)), multiset(Group(cards, mask)), melds, minLen);
      } else {
        var u := LaidOff(melds[mi], Group(cards, mask), minLen).value;
        SearchCovers(Remaining(cards[1..], mask), melds[mi := u], minLen);
        CoverWithLayOff(multiset(Remaining(cards[1..], mask)), Group(cards, mask), melds, mi, minLen);
      }
      AddedBack(cards, mask);
    }
  }

  lemma AddedBack(cards: seq<Card>, mask: nat)
    requires cards != []
    ensures multiset(Remaining(cards[1..], mask)) + multiset(Group(cards, mask)) == multiset(cards)
  {
    hide Group, Remaining;
    GroupAndRest(cards, mask);
  }

  lemma NothingToCover(melds: seq<Meld>, minLen: nat)
    ensures Coverable(multiset{}, melds, minLen)
  {
    var piles := seq(|melds|, i => multiset{});
    SumOfEmpties(piles);
    assert Covers(piles, multiset{}, melds, minLen);
  }

  /** The search finds a partition exactly when there is one. */
  lemma SearchIffCoverable(cards: seq<Card>, melds: seq<Meld>, minLen: nat)
    ensures Search(cards, melds, minLen).Some? <==> Coverable(multiset(cards), melds, minLen)
  {
    hide Search, Coverable;
    if Search(cards, melds, minLen).Some? {
      SearchCovers(cards, melds, minLen);
    }
    if Coverable(multiset(cards), melds, minLen) {
      SearchComplete(cards, melds, minLen);
    }
  }

  // ----- masks -------------------------------------------------------------------------

  predicate BitSet(mask: nat, i: nat) {
    if i == 0 then mask % 2 == 1 else BitSet(mask / 2, i - 1)
  }

  /** A mask picks the cards whose bit is set and leaves the others. */
  lemma {:induction false} MaskPicksBits(s: seq<Card>, mask: nat, i: nat)
    requires Distinct(s) && i < |s|
    ensures s[i] in Chosen(s, mask) <==> BitSet(mask, i)
    ensures s[i] in Remaining(s, mask) <==> !BitSet(mask, i)
    decreases s
  {
    var rest := s[1..];
    assert s == [s[0]] + rest;
    if i == 0 {
      NotAmongChosen(rest, mask / 2, s[0]);
    } else {
      MaskPicksBits(rest, mask / 2, i - 1);
      assert rest[i - 1] == s[i] && s[i] != s[0];
    }
  }

  lemma NotAmongChosen(s: seq<Card>, mask: nat, c: Card)
    requires c !in s
    ensures c !in Chosen(s, mask) && c !in Remaining(s, mask)
  {
    MaskSplits(s, mask);
    assert c !in multiset(s);
    assert c in Chosen(s, mask) ==> c in multiset(Chosen(s, mask));
    assert c in Remaining(s, mask) ==> c in multiset(Remaining(s, mask));
  }

  lemma ExceptFirst(x: Card, rest: seq<Card>, others: seq<Card>)
    ensures Except([x] + rest, others)
         == (if x in others then [] else [x]) + Except(rest, others)
  {
    assert ([x] + rest)[1..] == rest;
  }

  /** The cards picked and the cards left keep their order. */
  lemma {:induction false} MaskKeepsOrder(s: seq<Card>, mask: nat)
    requires Distinct(s)
    ensures Chosen(s, mask) == Except(s, Remaining(s, mask))
    ensures Remaining(s, mask) == Except(s, Chosen(s, mask))
    decreases s
  {
    if s != [] {
      var x, rest := s[0], s[1..];
      assert s == [x] + rest;
      MaskKeepsOrder(rest, mask / 2);
      var picked, left := Chosen(rest, mask / 2), Remaining(rest, mask / 2);
      NotAmongChosen(rest, mask / 2, x);
      ExceptFirst(x, rest, picked);
      ExceptFirst(x, rest, left);
      ExceptFirst(x, rest, [x] + picked);
      ExceptFirst(x, rest, [x] + left);
      ExceptSame(rest, picked, [x] + picked);
      ExceptSame(rest, left, [x] + left);
      assert [] + picked == picked && [] + left == left;
    }
  }

  // ----- which partition ---------------------------------------------------------------

  /** The first card and the masked ones are a new meld, and the others can still be placed. */
  ghost predicate MeldWorks(cards: seq<Card>, melds: seq<Meld>, minLen: nat, mask: nat)
    requires cards != []
  {
    && Classify(multiset(Group(cards, mask)), minLen).Some?
    && Coverable(multiset(Remaining(cards[1..], mask)), melds, minLen)
  }

  /** They can be laid off onto meld mi, and the others can still be placed. */
  ghost predicate LayOffWorks(cards: seq<Card>, melds: seq<Meld>, minLen: nat, mi: nat, mask: nat)
    requires cards != [] && mi < |melds|
  {
    var u := LaidOff(melds[mi], Group(cards, mask), minLen);
    u.Some? && Coverable(multiset(Remaining(cards[1..], mask)), melds[mi := u.value], minLen)
  }

  lemma MeldHitWorks(cards: seq<Card>, melds: seq<Meld>, minLen: nat, mask: nat)
    requires cards != []
    ensures MeldHit(cards, melds, minLen, mask).Some? <==> MeldWorks(cards, melds, minLen, mask)
  {
    hide Search, Coverable, Classify, Group, Remaining;
    SearchIffCoverable(Remaining(cards[1..], mask), melds, minLen);
  }

  lemma LayOffHitWorks(cards: seq<Card>, melds: seq<Meld>, minLen: nat, mi: nat, mask: nat)
    requires cards != [] && mi < |melds|
    ensures LayOffHit(cards, melds, minLen, mi, mask).Some?
       <==> LayOffWorks(cards, melds, minLen, mi, mask)
  {
    hide Search, Coverable, LaidOff, Group, Remaining;
    var u := LaidOff(melds[mi], Group(cards, mask), minLen);
    if u.Some? {
      SearchIffCoverable(Remaining(cards[1..], mask), melds[mi := u.value], minLen);
    }
  }

  /** The partition opens with a new meld by the smallest mask that works, and goes on with the
      partition of the other cards. */
  ghost predicate OpensWithMeld(q: Partition, cards: seq<Card>, melds: seq<Meld>, minLen: nat, mask: nat)
    requires cards != []
  {
    && mask < Pow2(|cards| - 1) && MeldWorks(cards, melds, minLen, mask)
    && (forall m: nat :: m < mask ==> !MeldWorks(cards, melds, minLen, m))
    && q.newMelds != [] && q.newMelds[0] == Group(cards, mask)
    && Search(Remaining(cards[1..], mask), melds, minLen)
       == Some(Partition(q.newMelds[1..], q.layoffs))
  }

  /** It opens with a lay-off onto the first table meld for which some mask works, by the
      smallest such mask, and goes on with the other cards and the longer meld. */
  ghost predicate OpensWithLayOff(q: Partition, cards: seq<Card>, melds: seq<Meld>, minLen: nat,
                                  mi: nat, mask: nat)
    requires cards != []
  {
    && mi < |melds| && mask < Pow2(|cards| - 1) && LayOffWorks(cards, melds, minLen, mi, mask)
    && (forall m: nat :: m < mask ==> !LayOffWorks(cards, melds, minLen, mi, m))
    && (forall i: nat, m: nat :: i < mi && m < Pow2(|cards| - 1) ==>
          !LayOffWorks(cards, melds, minLen, i, m))
    && q.layoffs != [] && q.layoffs[0] == LayoffStep(melds[mi].id, Group(cards, mask))
    && Search(Remaining(cards[1..], mask),
              melds[mi := LaidOff(melds[mi], Group(cards, mask), minLen).value], minLen)
       == Some(Partition(q.newMelds, q.layoffs[1..]))
  }

  ghost predicate SomeMeldWorks(cards: seq<Card>, melds: seq<Meld>, minLen: nat)
    requires cards != []
  {
    exists mask: nat :: mask < Pow2(|cards| - 1) && MeldWorks(cards, melds, minLen, mask)
  }

  /** Which partition is found: the first card goes into a new meld if any works, by the smallest
      mask, else onto the first table meld that works, by the smallest mask; and so on. */
  lemma SearchIsFirst(cards: seq<Card>, melds: seq<Meld>, minLen: nat)
    requires cards != [] && Search(cards, melds, minLen).Some?
    ensures var q := Search(cards, melds, minLen).value;
            if SomeMeldWorks(cards, melds, minLen)
            then exists mask: nat :: OpensWithMeld(q, cards, melds, minLen, mask)
            else exists mi: nat, mask: nat :: OpensWithLayOff(q, cards, melds, minLen, mi, mask)
  {
    hide Search, Coverable, Classify, LaidOff, Group, Remaining, MeldWorks, LayOffWorks;
    var q := Search(cards, melds, minLen).value;
    var byMeld, mi, mask := SearchStep(cards, melds, minLen);
    forall m: nat ensures MeldHit(cards, melds, minLen, m).Some? <==> MeldWorks(cards, melds, minLen, m) {
      MeldHitWorks(cards, melds, minLen, m);
    }
    forall i: nat, m: nat | i < |melds|
      ensures LayOffHit(cards, melds, minLen, i, m).Some? <==> LayOffWorks(cards, melds, minLen, i, m)
    {
      LayOffHitWorks(cards, melds, minLen, i, m);
    }
    if byMeld {
      var rest := Search(Remaining(cards[1..], mask), melds, minLen).value;
      assert ([Group(cards, mask)] + rest.newMelds)[1..] == rest.newMelds;
      assert OpensWithMeld(q, cards, melds, minLen, mask);
    } else {
      var next := melds[mi := LaidOff(melds[mi], Group(cards, mask), minLen).value];
      var rest := Search(Remaining(cards[1..], mask), next, minLen).value;
      assert ([LayoffStep(melds[mi].id, Group(cards, mask))] + rest.layoffs)[1..] == rest.layoffs;
      assert OpensWithLayOff(q, cards, melds, minLen, mi, mask);
    }
  }

  /** A pile holding the first card makes a new meld and leaves cards that can be placed. */
  ghost predicate MeldablePile(cards: seq<Card>, melds: seq<Meld>, minLen: nat, pile: multiset<Card>)
    requires cards != []
  {
    && cards[0] in pile && pile <= multiset(cards) && Classify(pile, minLen).Some?
    && Coverable(multiset(cards) - pile, melds, minLen)
  }

  lemma PileIsMask(cards: seq<Card>, melds: seq<Meld>, minLen: nat, pile: multiset<Card>)
    requires cards != [] && MeldablePile(cards, melds, minLen, pile)
    ensures SomeMeldWorks(cards, melds, minLen)
  {
    hide Coverable, Classify, Group, Remaining, Pow2;
    var mask := GroupFor(cards, pile);
    assert MeldWorks(cards, melds, minLen, mask);
  }

  /** The first card is laid off only if no new meld holding it leaves the other cards placeable;
      otherwise it opens the first new meld of the plan. */
  lemma LaidOffOnlyIfUnmeldable(cards: seq<Card>, melds: seq<Meld>, minLen: nat)
    requires cards != [] && Search(cards, melds, minLen).Some?
    ensures var q := Search(cards, melds, minLen).value;
            if exists pile :: MeldablePile(cards, melds, minLen, pile)
            then q.newMelds != [] && q.newMelds[0] != [] && q.newMelds[0][0] == cards[0]
            else q.layoffs != [] && q.layoffs[0].cards != [] && q.layoffs[0].cards[0] == cards[0]
  {
    hide Search, Coverable, Classify, MeldablePile, MeldWorks;
    SearchIsFirst(cards, melds, minLen);
    if pile :| MeldablePile(cards, melds, minLen, pile) {
      PileIsMask(cards, melds, minLen, pile);
    } else if SomeMeldWorks(cards, melds, minLen) {
      var mask: nat :| mask < Pow2(|cards| - 1) && MeldWorks(cards, melds, minLen, mask);
      MaskIsPile(cards, melds, minLen, mask);
    }
  }

  lemma MaskIsPile(cards: seq<Card>, melds: seq<Meld>, minLen: nat, mask: nat)
    requires cards != [] && MeldWorks(cards, melds, minLen, mask)
    ensures MeldablePile(cards, melds, minLen, multiset(Group(cards, mask)))
  {
    hide Coverable, Classify, Remaining;
    var pile := multiset(Group(cards, mask));
    GroupAndRest(cards, mask);
    assert cards[0] in Group(cards, mask);
    assert multiset(cards) - pile == multiset(Remaining(cards[1..], mask));
  }

  // ----- which knock card --------------------------------------------------------------

  /** The card kept back is the first of the hand that can be, and the others are partitioned. */
  lemma SolveIsFirst(hand: seq<Card>, melds: seq<Meld>, minLen: nat) returns (k: nat)
    requires Solve(hand, melds, minLen).Some?
    ensures var plan := Solve(hand, melds, minLen).value;
            && k < |hand| && hand[k] == plan.knockCard
            && Coverable(multiset(hand) - multiset{hand[k]}, melds, minLen)
            && (forall i :: 0 <= i < k ==> !Coverable(multiset(hand) - multiset{hand[i]}, melds, minLen))
            && Search(hand[..k] + hand[k + 1..], melds, minLen)
               == Some(Partition(plan.newMelds, plan.layoffs))
  {
    hide Search, Coverable, FirstSome;
    var hits := KnockHits(hand, melds, minLen);
    k := FirstSomeIsFirst(hits, 0, |hand|);
    forall i | 0 <= i < |hand|
      ensures hits(i).Some? <==> Coverable(multiset(hand) - multiset{hand[i]}, melds, minLen)
    {
      WithoutBag(hand, i);
      SearchIffCoverable(Without(hand, i), melds, minLen);
    }
  }
}
