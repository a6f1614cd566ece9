/** Laying cards off onto a table meld (server/internal/game/layoff.go) and the algebra of
    lay-offs: batches split into single cards, successive lay-offs join into one. */
module LayOff {
  import opened Bags
  import opened Cards
  import opened Melds

  /** The meld that results from laying `cards` off onto `m`, if that is allowed. */
  ghost function LaidOff(m: Meld, cards: seq<Card>, minLen: nat): Option<Meld> {
    if cards == [] then None
    else
      match Classify(multiset(m.cards + cards), minLen)
      case None => None
      case Some(shape) =>
        if shape.SetShape? == (m.kind == Set)
        then Some(Build(m.id, shape, m.cards + cards, m.owner))
        else None
  }

  method CanLayOff(m: Meld, cards: seq<Card>, rs: RuleSet) returns (r: Result<Meld>)
    ensures r == match LaidOff(m, cards, rs.minMeldLen)
                 case None => Err(LayOffInvalid)
                 case Some(u) => Ok(u)
  {
    if cards == [] {
      return Err(LayOffInvalid);
    }
    var combined := m.cards + cards;
    SeqBagSize(combined);
    var v := ClassifyMeld(combined, rs);
    if v.Err? || v.value.0 != m.kind {
      return Err(LayOffInvalid);
    }
    var (kind, aceHigh) := v.value;
    var out := combined;
    if kind == Run {
      ghost var shape := Classify(multiset(combined), rs.minMeldLen).value;
      out := RunInOrder(combined, aceHigh, shape.suit, shape.lo);
    }
    return Ok(Meld(m.id, kind, out, m.owner, aceHigh));
  }

  // ----- what building a meld keeps ----------------------------------------------------

  lemma BuildKeepsCards(id: MeldId, shape: Shape, cards: seq<Card>, owner: int)
    requires shape.RunShape? ==> RunOf(multiset(cards), shape.suit, shape.lo)
    ensures |multiset(cards)| == |cards|
    ensures multiset(Build(id, shape, cards, owner).cards) == multiset(cards)
    ensures |Build(id, shape, cards, owner).cards| == |cards|
  {
    SeqBagSize(cards);
  }

  lemma MadeMeldIsValid(id: MeldId, cards: seq<Card>, owner: int, minLen: nat)
    requires MakeMeld(id, cards, owner, minLen).Ok?
    ensures var m := MakeMeld(id, cards, owner, minLen).value;
            && ValidMeld(m, minLen) && multiset(m.cards) == multiset(cards)
            && m.id == id && m.owner == owner && |m.cards| == |cards| >= minLen
  {
    SeqBagSize(cards);
    BuildKeepsCards(id, Classify(multiset(cards), minLen).value, cards, owner);
  }

  /** A lay-off keeps the meld's identity, kind and owner, stays valid, and adds exactly the
      cards laid off. */
  lemma LaidOffIsValid(m: Meld, cards: seq<Card>, minLen: nat)
    requires LaidOff(m, cards, minLen).Some?
    ensures var u := LaidOff(m, cards, minLen).value;
            && ValidMeld(u, minLen) && multiset(u.cards) == multiset(m.cards) + multiset(cards)
            && u.id == m.id && u.owner == m.owner && u.kind == m.kind
            && |u.cards| == |m.cards| + |cards|
  {
    var all := m.cards + cards;
    SeqBagSize(all);
    BuildKeepsCards(m.id, Classify(multiset(all), minLen).value, all, m.owner);
  }

  /** The cards of a valid run on the table ascend strictly, one value at a time. */
  lemma ValidRunAscends(m: Meld, minLen: nat)
    requires ValidMeld(m, minLen) && m.kind == Run
    ensures forall i :: 0 < i < |m.cards| ==>
              && m.cards[i].suit == m.cards[0].suit
              && Val(m.cards[i], m.aceHigh) == Val(m.cards[i - 1], m.aceHigh) + 1
  {
    var shape := Classify(multiset(m.cards), minLen).value;
    var t := Straight(shape.suit, shape.lo, |m.cards|);
    SeqBagSize(m.cards);
    forall i | 0 <= i < |t| ensures Val(t[i], m.aceHigh) == shape.lo + i && t[i].suit == shape.suit {
      assert t[i] == At(shape.suit, shape.lo + i);
    }
  }

  // ----- joining -----------------------------------------------------------------------

  lemma LaidOffOnSet(m: Meld, xs: seq<Card>, minLen: nat)
    requires LaidOff(m, xs, minLen).Some? && m.kind == Set
    ensures LaidOff(m, xs, minLen).value.cards == m.cards + xs
  {
    hide Classify;
  }

  /** A lay-off depends only on the meld's identity and on all the cards together, for a set in
      their order. */
  lemma SameTogether(m: Meld, xs: seq<Card>, u: Meld, ys: seq<Card>, minLen: nat)
    requires xs != [] && ys != [] && m.id == u.id && m.owner == u.owner && m.kind == u.kind
    requires multiset(m.cards + xs) == multiset(u.cards + ys)
    requires m.kind == Set ==> m.cards + xs == u.cards + ys
    ensures LaidOff(m, xs, minLen) == LaidOff(u, ys, minLen)
  {
    hide Classify;
    SeqBagSize(m.cards + xs);
    SeqBagSize(u.cards + ys);
  }

  /** Two successive lay-offs leave the very meld that one combined lay-off leaves. */
  lemma LayOffsJoin(m: Meld, xs: seq<Card>, ys: seq<Card>, minLen: nat)
    requires LaidOff(m, xs, minLen).Some? && ys != []
    ensures LaidOff(LaidOff(m, xs, minLen).value, ys, minLen) == LaidOff(m, xs + ys, minLen)
  {
    hide LaidOff, ValidMeld;
    var u := LaidOff(m, xs, minLen).value;
    LaidOffIsValid(m, xs, minLen);
    if m.kind == Set {
      LaidOffOnSet(m, xs, minLen);
    }
    assert m.cards + (xs + ys) == (m.cards + xs) + ys;
    SameTogether(u, ys, m, xs + ys, minLen);
  }

  // ----- splitting ---------------------------------------------------------------------

  ghost predicate IsRun(b: multiset<Card>) {
    exists s: Suit, lo: nat :: RunOf(b, s, lo)
  }

  /** One card at an end of a run's span extends it. */
  lemma ExtendBelow(b: multiset<Card>, s: Suit, lo: nat)
    requires RunOf(b, s, lo) && 2 <= lo && b[At(s, lo - 1)] == 0
    ensures IsRun(b + multiset{At(s, lo - 1)})
  {
    var c := At(s, lo - 1);
    var b' := b + multiset{c};
    var lo': nat := if lo == 3 && |b| == 12 then 1 else lo - 1;
    SpanOf(b, s, lo);
    RunFromSpan(b', s, lo');
  }

  lemma ExtendAbove(b: multiset<Card>, s: Suit, lo: nat)
    requires RunOf(b, s, lo) && lo + |b| <= 14 && b[At(s, lo + |b|)] == 0
    requires lo + |b| == 14 ==> 3 <= lo
    ensures IsRun(b + multiset{At(s, lo + |b|)})
  {
    var c := At(s, lo + |b|);
    SpanOf(b, s, lo);
    RunFromSpan(b + multiset{c}, s, lo);
  }

  /** A larger run around a run is of the same suit and holds the card below the smaller one
      or the card above it. */
  lemma WiderRun(b: multiset<Card>, x: multiset<Card>, s: Suit, lo: nat, s': Suit, lo': nat)
    requires RunOf(b, s, lo) && RunOf(b + x, s', lo') && |b| >= 2 && |x| >= 1
    ensures s' == s
    ensures lo + |b| == 15 || lo' < lo ==> lo >= 2 && InSpan(At(s, lo - 1), s', lo', |b + x|)
    ensures !(lo + |b| == 15 || lo' < lo) ==>
              InSpan(At(s, lo + |b|), s', lo', |b + x|) && (lo + |b| == 14 ==> 3 <= lo)
  {
    var n := |b|;
    SpanHas(b, s, lo, lo);
    SpanHas(b, s, lo, lo + 1);
    SpanHas(b, s, lo, lo + n - 1);
    HasInSpan(b + x, At(s, lo), s', lo');
    HasInSpan(b + x, At(s, lo + 1), s', lo');
    HasInSpan(b + x, At(s, lo + n - 1), s', lo');
    assert |b + x| == n + |x|;
  }

  lemma SpanHas(b: multiset<Card>, s: Suit, lo: nat, v: nat)
    requires RunOf(b, s, lo) && lo <= v < lo + |b|
    ensures b[At(s, v)] == 1
  {
    SpanOf(b, s, lo);
  }

  lemma HasInSpan(b: multiset<Card>, c: Card, s: Suit, lo: nat)
    requires RunOf(b, s, lo)
    ensures b[c] == if InSpan(c, s, lo, |b|) then 1 else 0
  {
    SpanOf(b, s, lo);
  }

  lemma TheRun(b: multiset<Card>) returns (s: Suit, lo: nat)
    requires IsRun(b)
    ensures RunOf(b, s, lo)
  {
    s, lo :| RunOf(b, s, lo);
  }

  /** If a bag of cards extends a run, one of them alone extends it. */
  lemma RunGrowsByOne(b: multiset<Card>, x: multiset<Card>) returns (c: Card)
    requires IsRun(b) && IsRun(b + x) && |b| >= 2 && |x| >= 1
    ensures c in x && IsRun(b + multiset{c})
  {
    hide IsRun;
    var s, lo := TheRun(b);
    var s', lo' := TheRun(b + x);
    WiderRun(b, x, s, lo, s', lo');
    if lo + |b| == 15 || lo' < lo {
      c := At(s, lo - 1);
      HasInSpan(b, c, s, lo);
      ExtendBelow(b, s, lo);
    } else {
      c := At(s, lo + |b|);
      HasInSpan(b, c, s, lo);
      ExtendAbove(b, s, lo);
    }
    HasInSpan(b + x, c, s', lo');
    assert (b + x)[c] == b[c] + x[c];
  }

  /** Whenever a batch can be laid off, some single card of it can. */
  lemma SingleLayOff(m: Meld, xs: seq<Card>, minLen: nat) returns (c: Card)
    requires ValidMeld(m, minLen) && minLen >= 2 && LaidOff(m, xs, minLen).Some?
    ensures c in xs && LaidOff(m, [c], minLen).Some?
  {
    var b, x := multiset(m.cards), multiset(xs);
    SeqBagSize(m.cards);
    SeqBagSize(xs);
    assert multiset(m.cards + xs) == b + x;
    if m.kind == Set {
      c := xs[0];
      assert c in x;
      assert multiset(m.cards + [c]) == b + multiset{c};
      assert SameRank(b + multiset{c});
    } else {
      c := RunGrowsByOne(b, x);
      GrownRunFits(m, c, minLen);
    }
  }

  lemma GrownRunFits(m: Meld, c: Card, minLen: nat)
    requires m.kind == Run && |m.cards| >= minLen >= 2 && IsRun(multiset(m.cards) + multiset{c})
    ensures LaidOff(m, [c], minLen).Some?
  {
    var b := multiset(m.cards) + multiset{c};
    SeqBagSize(m.cards);
    assert multiset(m.cards + [c]) == b;
    var s: Suit, lo: nat :| RunOf(b, s, lo);
    ClassifyRunIs(b, minLen, s, lo);
  }

  ghost function OneByOne(m: Meld, xs: seq<Card>, minLen: nat): Option<Meld>
    decreases |xs|
  {
    if xs == [] then Some(m)
    else
      match LaidOff(m, [xs[0]], minLen)
      case None => None
      case Some(u) => OneByOne(u, xs[1..], minLen)
  }

  lemma {:induction false} OneByOneJoins(m: Meld, xs: seq<Card>, minLen: nat)
    requires xs != [] && OneByOne(m, xs, minLen).Some?
    ensures LaidOff(m, xs, minLen) == OneByOne(m, xs, minLen)
    decreases |xs|
  {
    var u := LaidOff(m, [xs[0]], minLen).value;
    var rest := xs[1..];
    assert xs == [xs[0]] + rest;
    if rest != [] {
      OneByOneJoins(u, rest, minLen);
      LayOffsJoin(m, [xs[0]], rest, minLen);
    } else {
      assert xs == [xs[0]];
    }
  }

  lemma {:induction false} OneByOneOrder(m: Meld, xs: seq<Card>, minLen: nat)
    returns (ys: seq<Card>)
    requires ValidMeld(m, minLen) && minLen >= 2 && LaidOff(m, xs, minLen).Some?
    ensures multiset(ys) == multiset(xs) && OneByOne(m, ys, minLen).Some?
    decreases |xs|
  {
    var c := SingleLayOff(m, xs, minLen);
    var u := LaidOff(m, [c], minLen).value;
    LaidOffIsValid(m, [c], minLen);
    RemoveFirstBag(xs, c);
    var rest := RemoveFirst(xs, c);
    SeqBagSize(rest);
    SeqBagSize(xs);
    if rest == [] {
      ys := [c];
      assert multiset(xs) == multiset(rest) + multiset{c};
    } else {
      SameBagLaysOff(m, [c] + rest, xs, minLen);
      LayOffsJoin(m, [c], rest, minLen);
      var zs := OneByOneOrder(u, rest, minLen);
      ys := [c] + zs;
      assert ys[1..] == zs;
    }
  }

  /** Whether a batch can be laid off does not depend on its order. */
  lemma SameBagLaysOff(m: Meld, xs: seq<Card>, ys: seq<Card>, minLen: nat)
    requires multiset(xs) == multiset(ys)
    ensures LaidOff(m, xs, minLen).Some? == LaidOff(m, ys, minLen).Some?
  {
    SeqBagSize(xs);
    SeqBagSize(ys);
    assert multiset(m.cards + xs) == multiset(m.cards + ys);
  }

  /** A batch is accepted exactly when some ordering of its cards is accepted one by one. */
  lemma BatchIffOneByOne(m: Meld, xs: seq<Card>, minLen: nat)
    requires ValidMeld(m, minLen) && minLen >= 2 && xs != []
    ensures LaidOff(m, xs, minLen).Some?
       <==> exists ys :: multiset(ys) == multiset(xs) && OneByOne(m, ys, minLen).Some?
  {
    if LaidOff(m, xs, minLen).Some? {
      var ys := OneByOneOrder(m, xs, minLen);
    }
    if ys :| multiset(ys) == multiset(xs) && OneByOne(m, ys, minLen).Some? {
      SeqBagSize(xs);
      SeqBagSize(ys);
      OneByOneJoins(m, ys, minLen);
      SameBagLaysOff(m, ys, xs, minLen);
    }
  }

  predicate HasRank(cards: seq<Card>, r: Rank) {
    exists c :: c in cards && c.rank == r
  }

  /** A lay-off changes a meld's Ace flag exactly when it puts the Ace above the King of a
      run that had no Ace, short of the whole suit, or when it completes the whole suit of an
      Ace-high run, which then counts as Ace-low. */
  lemma AceFlagChanges(m: Meld, xs: seq<Card>, minLen: nat)
    requires ValidMeld(m, minLen) && minLen >= 2 && LaidOff(m, xs, minLen).Some?
    ensures var u := LaidOff(m, xs, minLen).value;
            (m.aceHigh != u.aceHigh) ==
            (m.kind == Run &&
             if m.aceHigh then |u.cards| == 13
             else !HasRank(m.cards, ACE) && HasRank(xs, ACE) && HasRank(u.cards, KING)
                  && |u.cards| != 13)
  {
    var u := LaidOff(m, xs, minLen).value;
    LaidOffIsValid(m, xs, minLen);
    SeqBagSize(m.cards);
    SeqBagSize(u.cards);
    if m.kind == Run {
      var p := Classify(multiset(m.cards), minLen).value;
      var q := Classify(multiset(u.cards), minLen).value;
      AceFlagOfRuns(m.cards, xs, u.cards, p.suit, p.lo, q.suit, q.lo);
    }
  }

  lemma AceFlagOfRuns(ms: seq<Card>, xs: seq<Card>, us: seq<Card>, s: Suit, lo: nat, s': Suit, lo': nat)
    requires multiset(us) == multiset(ms) + multiset(xs) && |us| == |ms| + |xs| && |ms| >= 2
    requires RunOf(multiset(ms), s, lo) && RunOf(multiset(us), s', lo')
    requires |multiset(ms)| == |ms| && |multiset(us)| == |us|
    ensures ((lo + |ms| == 15) != (lo' + |us| == 15)) ==
            (if lo + |ms| == 15 then |us| == 13
             else !HasRank(ms, ACE) && HasRank(xs, ACE) && HasRank(us, KING) && |us| != 13)
  {
    var b, x, u := multiset(ms), multiset(xs), multiset(us);
    SpanOf(b, s, lo);
    SpanOf(u, s', lo');
    assert b[At(s, lo)] == 1 && b[At(s, lo + 1)] == 1;
    assert u[At(s, lo)] == 1 && u[At(s, lo + 1)] == 1;
    assert s == s';
    RankInSuit(us, ms, s, ACE);
    RankInSuit(us, xs, s, ACE);
    RankInSuit(us, us, s, KING);
    var ace, king := Card(s, ACE), Card(s, KING);
    assert u[ace] == b[ace] + x[ace] && u[king] == b[king] + x[king];
  }

  lemma RankInSuit(us: seq<Card>, xs: seq<Card>, s: Suit, r: Rank)
    requires multiset(xs) <= multiset(us) && forall c :: c in multiset(us) ==> c.suit == s
    ensures HasRank(xs, r) == (multiset(xs)[Card(s, r)] > 0)
  {
    if c :| c in xs && c.rank == r {
      assert c in multiset(xs);
      assert c in multiset(us);
    }
  }
}
