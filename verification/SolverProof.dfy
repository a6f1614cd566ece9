/** The solver finds a plan exactly when the cards can be covered: split into piles, one for
    every table meld (possibly empty) and one for every new meld. */
module SolverProof {
  import opened Bags
  import opened Cards
  import opened Melds
  import opened LayOff
  import opened Solver

  // ----- covers ------------------------------------------------------------------------

  ghost function Sum(bs: seq<multiset<Card>>): multiset<Card> {
    if bs == [] then multiset{} else bs[0] + Sum(bs[1..])
  }

  /** Whether a pile fits its place: onto table meld i, or as a meld of its own. */
  ghost predicate Grows(melds: seq<Meld>, i: nat, pile: multiset<Card>, minLen: nat) {
    pile == multiset{} ||
    if i < |melds| then FitsOn(melds[i], pile, minLen) else Classify(pile, minLen).Some?
  }

  ghost predicate FitsOn(m: Meld, pile: multiset<Card>, minLen: nat) {
    var shape := Classify(multiset(m.cards) + pile, minLen);
    shape.Some? && (shape.value.SetShape? == (m.kind == Set))
  }

  ghost predicate Covers(piles: seq<multiset<Card>>, cards: multiset<Card>, melds: seq<Meld>,
                         minLen: nat) {
    && |piles| >= |melds|
    && Sum(piles) == cards
    && forall i :: 0 <= i < |piles| ==> Grows(melds, i, piles[i], minLen)
  }

  ghost predicate Coverable(cards: multiset<Card>, melds: seq<Meld>, minLen: nat) {
    exists piles :: Covers(piles, cards, melds, minLen)
  }

  lemma {:induction false} SumUpdate(bs: seq<multiset<Card>>, j: nat, b: multiset<Card>)
    requires j < |bs|
    ensures Sum(bs[j := b]) + bs[j] == Sum(bs) + b
  {
    var us := bs[j := b];
    if j == 0 {
      assert us[1..] == bs[1..];
    } else {
      assert us[1..] == bs[1..][j - 1 := b];
      SumUpdate(bs[1..], j - 1, b);
      assert Sum(us) + bs[j] == bs[0] + (Sum(us[1..]) + bs[j]);
    }
  }

  lemma {:induction false} InSomePile(bs: seq<multiset<Card>>, c: Card) returns (j: nat)
    requires c in Sum(bs)
    ensures j < |bs| && c in bs[j]
  {
    if c in bs[0] {
      j := 0;
    } else {
      j := InSomePile(bs[1..], c);
      j := j + 1;
    }
  }

  lemma {:induction false} SumOfEmpties(bs: seq<multiset<Card>>)
    requires forall i :: 0 <= i < |bs| ==> bs[i] == multiset{}
    ensures Sum(bs) == multiset{}
  {
    if bs != [] {
      SumOfEmpties(bs[1..]);
    }
  }

  lemma LaidOffIffFits(m: Meld, xs: seq<Card>, minLen: nat)
    requires xs != []
    ensures LaidOff(m, xs, minLen).Some? == FitsOn(m, multiset(xs), minLen)
  {
    assert multiset(m.cards + xs) == multiset(m.cards) + multiset(xs);
  }

  /** A meld that took cards accepts exactly the piles that fit on top of them. */
  lemma FitsAfter(m: Meld, xs: seq<Card>, pile: multiset<Card>, minLen: nat)
    requires LaidOff(m, xs, minLen).Some?
    ensures FitsOn(LaidOff(m, xs, minLen).value, pile, minLen)
         == FitsOn(m, multiset(xs) + pile, minLen)
  {
    LaidOffIsValid(m, xs, minLen);
    var u := LaidOff(m, xs, minLen).value;
    assert multiset(u.cards) + pile == multiset(m.cards) + (multiset(xs) + pile);
  }

  // ----- masks -------------------------------------------------------------------------

  lemma {:induction false} MaskSplits(s: seq<Card>, mask: nat)
    ensures multiset(Chosen(s, mask)) + multiset(Remaining(s, mask)) == multiset(s)
    decreases s
  {
    if s != [] {
      assert s == [s[0]] + s[1..];
      MaskSplits(s[1..], mask / 2);
    }
  }

  lemma GroupAndRest(cards: seq<Card>, mask: nat)
    requires cards != []
    ensures multiset(Group(cards, mask)) + multiset(Remaining(cards[1..], mask)) == multiset(cards)
  {
    assert cards == [cards[0]] + cards[1..];
    MaskSplits(cards[1..], mask);
  }

  /** Every bag of cards among `s` is chosen by some mask. */
  lemma {:induction false} MaskFor(s: seq<Card>, b: multiset<Card>) returns (mask: nat)
    requires b <= multiset(s)
    ensures mask < Pow2(|s|) && multiset(Chosen(s, mask)) == b
  {
    if s == [] {
      mask := 0;
    } else {
      hide Chosen;
      var x, rest := s[0], s[1..];
      assert s == [x] + rest;
      if x in b {
        var less := PileWithout(x, multiset(rest), b);
        var k := MaskFor(rest, less);
        mask := 2 * k + 1;
        ChosenOdd(s, k);
      } else {
        PileBeside(x, multiset(rest), b);
        var k := MaskFor(rest, b);
        mask := 2 * k;
        ChosenEven(s, k);
      }
    }
  }

  lemma PileBeside(c: Card, others: multiset<Card>, pile: multiset<Card>)
    requires c !in pile && pile <= multiset{c} + others
    ensures pile <= others
  {
  }

  lemma ChosenEven(s: seq<Card>, k: nat)
    requires s != []
    ensures Chosen(s, 2 * k) == Chosen(s[1..], k)
  {
    assert (2 * k) / 2 == k && (2 * k) % 2 == 0;
  }

  lemma ChosenOdd(s: seq<Card>, k: nat)
    requires s != []
    ensures Chosen(s, 2 * k + 1) == [s[0]] + Chosen(s[1..], k)
  {
    assert (2 * k + 1) / 2 == k && (2 * k + 1) % 2 == 1;
  }

  // ----- the first hit -----------------------------------------------------------------

  lemma {:induction false} FirstSomeFinds<T>(hit: nat -> Option<T>, i: nat, n: nat, k: nat)
    requires i <= k < n && hit(k).Some?
    ensures FirstSome(hit, i, n).Some?
    decreases n - i
  {
    if hit(i).None? {
      FirstSomeFinds(hit, i + 1, n, k);
    }
  }

  lemma {:induction false} FirstSomeHits<T>(hit: nat -> Option<T>, i: nat, n: nat)
    returns (k: nat)
    requires i <= n && FirstSome(hit, i, n).Some?
    ensures i <= k < n && hit(k) == FirstSome(hit, i, n)
    decreases n - i
  {
    if hit(i).Some? {
      k := i;
    } else {
      k := FirstSomeHits(hit, i + 1, n);
    }
  }

  lemma MeldFound(cards: seq<Card>, melds: seq<Meld>, minLen: nat, mask: nat)
    requires cards != [] && mask < Pow2(|cards| - 1)
    requires Classify(multiset(Group(cards, mask)), minLen).Some?
    requires Search(Remaining(cards[1..], mask), melds, minLen).Some?
    ensures Search(cards, melds, minLen).Some?
  {
    var hits := MeldHits(cards, melds, minLen);
    assert hits(mask) == MeldHit(cards, melds, minLen, mask);
    FirstSomeFinds(hits, 0, Pow2(|cards| - 1), mask);
  }

  lemma LayOffFound(cards: seq<Card>, melds: seq<Meld>, minLen: nat, mi: nat, mask: nat)
    requires cards != [] && mi < |melds| && mask < Pow2(|cards| - 1)
    requires LaidOff(melds[mi], Group(cards, mask), minLen).Some?
    requires var u := LaidOff(melds[mi], Group(cards, mask), minLen).value;
             Search(Remaining(cards[1..], mask), melds[mi := u], minLen).Some?
    ensures Search(cards, melds, minLen).Some?
  {
    var hits, scans := LayOffHits(cards, melds, minLen, mi), LayOffScans(cards, melds, minLen);
    assert hits(mask) == LayOffHit(cards, melds, minLen, mi, mask);
    FirstSomeFinds(hits, 0, Pow2(|cards| - 1), mask);
    assert scans(mi) == FirstSome(hits, 0, Pow2(|cards| - 1));
    FirstSomeFinds(scans, 0, |melds|, mi);
  }

  // ----- completeness ------------------------------------------------------------------

  /** A mask that groups the first card with the rest of its pile. */
  lemma GroupFor(cards: seq<Card>, pile: multiset<Card>) returns (mask: nat)
    requires cards != [] && cards[0] in pile && pile <= multiset(cards)
    ensures mask < Pow2(|cards| - 1)
    ensures multiset(Group(cards, mask)) == pile
    ensures multiset(Remaining(cards[1..], mask)) == multiset(cards) - pile
  {
    hide Chosen, Remaining;
    var c := cards[0];
    assert cards == [c] + cards[1..];
    var b := PileWithout(c, multiset(cards[1..]), pile);
    mask := MaskFor(cards[1..], b);
    GroupAndRest(cards, mask);
    assert multiset(Group(cards, mask)) == pile;
    assert multiset(Remaining(cards[1..], mask)) == multiset(cards) - pile;
  }

  lemma PileWithout(c: Card, others: multiset<Card>, pile: multiset<Card>) returns (b: multiset<Card>)
    requires c in pile && pile <= multiset{c} + others
    ensures pile == multiset{c} + b && b <= others
  {
    b := pile - multiset{c};
  }

  /** The pile of the first card, as a group; the other piles cover the remaining cards. */
  lemma PileOfFirst(cards: seq<Card>, piles: seq<multiset<Card>>) returns (j: nat, mask: nat)
    requires cards != [] && Sum(piles) == multiset(cards)
    ensures j < |piles| && mask < Pow2(|cards| - 1) && cards[0] in piles[j]
    ensures multiset(Group(cards, mask)) == piles[j]
    ensures multiset(Remaining(cards[1..], mask)) == Sum(piles[j := multiset{}])
  {
    assert cards[0] in multiset(cards);
    j := InSomePile(piles, cards[0]);
    SumUpdate(piles, j, multiset{});
    assert multiset(cards) == Sum(piles[j := multiset{}]) + piles[j];
    mask := GroupFor(cards, piles[j]);
  }

  lemma {:induction false} SearchComplete(cards: seq<Card>, melds: seq<Meld>, minLen: nat)
    requires Coverable(multiset(cards), melds, minLen)
    ensures Search(cards, melds, minLen).Some?
    decreases |cards|
  {
    if cards != [] {
      var piles :| Covers(piles, multiset(cards), melds, minLen);
      var j, mask := PileOfFirst(cards, piles);
      var group, rest := Group(cards, mask), Remaining(cards[1..], mask);
      assert Grows(melds, j, piles[j], minLen);
      if j < |melds| {
        LaidOffIffFits(melds[j], group, minLen);
        var next := melds[j := LaidOff(melds[j], group, minLen).value];
        CoverRest(piles, melds, next, j, minLen);
        SearchComplete(rest, next, minLen);
        LayOffFound(cards, melds, minLen, j, mask);
      } else {
        CoverRest(piles, melds, melds, j, minLen);
        SearchComplete(rest, melds, minLen);
        MeldFound(cards, melds, minLen, mask);
      }
    }
  }

  /** Dropping pile j leaves a cover of the other cards, whatever became of meld j. */
  lemma CoverRest(piles: seq<multiset<Card>>, melds: seq<Meld>, next: seq<Meld>, j: nat, minLen: nat)
    requires Covers(piles, Sum(piles), melds, minLen) && j < |piles| && |next| == |melds|
    requires forall i :: 0 <= i < |melds| && i != j ==> next[i] == melds[i]
    ensures Coverable(Sum(piles[j := multiset{}]), next, minLen)
  {
    var left := piles[j := multiset{}];
    forall i | 0 <= i < |left| ensures Grows(next, i, left[i], minLen) {
      assert Grows(melds, i, piles[i], minLen);
    }
    assert Covers(left, Sum(left), next, minLen);
  }

  // ----- soundness ---------------------------------------------------------------------

  ghost predicate GroupsFit(groups: seq<seq<Card>>, minLen: nat) {
    forall i :: 0 <= i < |groups| ==> Classify(multiset(groups[i]), minLen).Some?
  }

  /** The lay-off steps can be carried out in order on an evolving list of melds. */
  ghost predicate StepsFit(steps: seq<LayoffStep>, melds: seq<Meld>, minLen: nat)
    decreases |steps|
  {
    steps == [] ||
    (var mi := FindMeld(melds, steps[0].meldID);
     && mi != -1
     && LaidOff(melds[mi], steps[0].cards, minLen).Some?
     && StepsFit(steps[1..], melds[mi := LaidOff(melds[mi], steps[0].cards, minLen).value], minLen))
  }

  ghost function GroupCards(groups: seq<seq<Card>>): multiset<Card> {
    if groups == [] then multiset{} else multiset(groups[0]) + GroupCards(groups[1..])
  }

  ghost function StepCards(steps: seq<LayoffStep>): multiset<Card> {
    if steps == [] then multiset{} else multiset(steps[0].cards) + StepCards(steps[1..])
  }

  /** A partition places every card, each group forming a meld or a lawful lay-off. */
  ghost predicate Places(q: Partition, cards: seq<Card>, melds: seq<Meld>, minLen: nat) {
    && GroupsFit(q.newMelds, minLen)
    && StepsFit(q.layoffs, melds, minLen)
    && GroupCards(q.newMelds) + StepCards(q.layoffs) == multiset(cards)
  }

  lemma {:induction false} SearchSound(cards: seq<Card>, melds: seq<Meld>, minLen: nat)
    requires UniqueIds(melds) && Search(cards, melds, minLen).Some?
    ensures Places(Search(cards, melds, minLen).value, cards, melds, minLen)
    decreases |cards|
  {
    if cards != [] {
      var n := Pow2(|cards| - 1);
      if FirstSome(MeldHits(cards, melds, minLen), 0, n).Some? {
        var mask := FirstSomeHits(MeldHits(cards, melds, minLen), 0, n);
        assert MeldHits(cards, melds, minLen)(mask) == MeldHit(cards, melds, minLen, mask);
        var rest := Remaining(cards[1..], mask);
        SearchSound(rest, melds, minLen);
        AddGroup(cards, melds, minLen, mask, Search(rest, melds, minLen).value);
      } else {
        var mi := FirstSomeHits(LayOffScans(cards, melds, minLen), 0, |melds|);
        assert LayOffScans(cards, melds, minLen)(mi)
            == FirstSome(LayOffHits(cards, melds, minLen, mi), 0, n);
        var mask := FirstSomeHits(LayOffHits(cards, melds, minLen, mi), 0, n);
        assert LayOffHits(cards, melds, minLen, mi)(mask)
            == LayOffHit(cards, melds, minLen, mi, mask);
        var rest := Remaining(cards[1..], mask);
        var u := LaidOff(melds[mi], Group(cards, mask), minLen).value;
        LaidOffIsValid(melds[mi], Group(cards, mask), minLen);
        SearchSound(rest, melds[mi := u], minLen);
        AddStep(cards, melds, minLen, mi, mask, Search(rest, melds[mi := u], minLen).value);
      }
    }
  }

  lemma AddGroup(cards: seq<Card>, melds: seq<Meld>, minLen: nat, mask: nat, sub: Partition)
    requires cards != [] && Classify(multiset(Group(cards, mask)), minLen).Some?
    requires Places(sub, Remaining(cards[1..], mask), melds, minLen)
    ensures Places(Partition([Group(cards, mask)] + sub.newMelds, sub.layoffs), cards, melds, minLen)
  {
    var groups := [Group(cards, mask)] + sub.newMelds;
    GroupAndRest(cards, mask);
    assert groups[1..] == sub.newMelds;
  }

  lemma AddStep(cards: seq<Card>, melds: seq<Meld>, minLen: nat, mi: nat, mask: nat, sub: Partition)
    requires cards != [] && mi < |melds| && UniqueIds(melds)
    requires LaidOff(melds[mi], Group(cards, mask), minLen).Some?
    requires var u := LaidOff(melds[mi], Group(cards, mask), minLen).value;
             Places(sub, Remaining(cards[1..], mask), melds[mi := u], minLen)
    ensures var step := LayoffStep(melds[mi].id, Group(cards, mask));
            Places(Partition(sub.newMelds, [step] + sub.layoffs), cards, melds, minLen)
  {
    hide LaidOff, GroupsFit, GroupCards, Group, Remaining;
    var steps := [LayoffStep(melds[mi].id, Group(cards, mask))] + sub.layoffs;
    GroupAndRest(cards, mask);
    assert steps[1..] == sub.layoffs;
    assert FindMeld(melds, melds[mi].id) == mi;
  }

  /** What a found plan is: one card kept back, all others placed. */
  lemma SolveSound(hand: seq<Card>, melds: seq<Meld>, minLen: nat)
    requires UniqueIds(melds) && Solve(hand, melds, minLen).Some?
    ensures var plan := Solve(hand, melds, minLen).value;
            && GroupsFit(plan.newMelds, minLen) && StepsFit(plan.layoffs, melds, minLen)
            && GroupCards(plan.newMelds) + StepCards(plan.layoffs) + multiset{plan.knockCard}
               == multiset(hand)
  {
    hide Search, GroupsFit, StepsFit, GroupCards, StepCards, UniqueIds, FirstSome, Without;
    var ki := FirstSomeHits(KnockHits(hand, melds, minLen), 0, |hand|);
    SearchSound(Without(hand, ki), melds, minLen);
    WithoutBag(hand, ki);
  }

  lemma OneBetween(a: seq<Card>, c: Card, b: seq<Card>)
    ensures multiset(a + [c] + b) == multiset(a + b) + multiset{c}
    ensures multiset(a + b) == multiset(a + [c] + b) - multiset{c}
  {
    assert multiset(a + b) == multiset(a) + multiset(b);
  }

  lemma WithoutBag(hand: seq<Card>, k: nat)
    requires k < |hand|
    ensures multiset(Without(hand, k)) == multiset(hand) - multiset{hand[k]}
    ensures multiset(Without(hand, k)) + multiset{hand[k]} == multiset(hand)
  {
    assert hand == hand[..k] + [hand[k]] + hand[k + 1..];
    OneBetween(hand[..k], hand[k], hand[k + 1..]);
  }

  /** If some card can be kept back so that the others are covered, a plan is found. */
  lemma SolveComplete(hand: seq<Card>, melds: seq<Meld>, minLen: nat, c: Card)
    requires |hand| >= 2 && c in hand
    requires Coverable(multiset(hand) - multiset{c}, melds, minLen)
    ensures Solve(hand, melds, minLen).Some?
  {
    hide Search, Covers, FirstSome;
    var k :| 0 <= k < |hand| && hand[k] == c;
    WithoutBag(hand, k);
    SearchComplete(Without(hand, k), melds, minLen);
    FirstSomeFinds(KnockHits(hand, melds, minLen), 0, |hand|, k);
  }
}
