/** The hint engine (server/internal/game/suggest.go). */
module Hints {
  import opened Bags
  import opened Cards
  import opened Melds
  import opened LayOff
  import opened Solver
  import opened Rules
  import opened Engine
  import opened Combos

  // ----- picking cards by index --------------------------------------------------------

  function Pick(hand: seq<Card>, x: seq<nat>): seq<Card> {
    if x == [] then []
    else (if x[0] < |hand| then [hand[x[0]]] else []) + Pick(hand, x[1..])
  }

  predicate OneRank(cards: seq<Card>) {
    forall i :: 0 <= i < |cards| ==> cards[i].rank == cards[0].rank
  }

  predicate OneSuit(cards: seq<Card>) {
    forall i :: 0 <= i < |cards| ==> cards[i].suit == cards[0].suit
  }

  /** Whether NewMeld accepts the cards, as a callback for the enumerators. */
  predicate Accepts(cards: seq<Card>, minLen: nat) {
    && |cards| >= minLen
    && (|| OneRank(cards)
        || (OneSuit(cards)
            && (|| StepsByOne(SortedInts(Vals(cards, false)))
                || (HasRank(cards, ACE) && StepsByOne(SortedInts(Vals(cards, true)))))))
  }

  function Probe(hand: seq<Card>, minLen: nat): seq<nat> -> bool {
    (x: seq<nat>) => Accepts(Pick(hand, x), minLen)
  }

  lemma AcceptsIsClassify(cards: seq<Card>, minLen: nat)
    ensures Accepts(cards, minLen) == Classify(multiset(cards), minLen).Some?
  {
    hide StepsByOne;
    var b := multiset(cards);
    SeqBagSize(cards);
    RankAndSuit(cards);
    if cards != [] && !SameRank(b) {
      if !SameSuit(b) {
        var c, d :| c in b && d in b && c.suit != d.suit;
        NoRunAcrossSuits(b, c, d);
      } else {
        RunIsSameSuit(cards);
        if StepsByOne(SortedInts(Vals(cards, false))) {
          LowRun(cards);
        } else if HasRank(cards, ACE) && StepsByOne(SortedInts(Vals(cards, true))) {
          HighRun(cards);
        } else {
          NoRun(cards);
        }
      }
    }
  }

  lemma RankAndSuit(cards: seq<Card>)
    ensures OneRank(cards) == SameRank(multiset(cards))
    ensures OneSuit(cards) == SameSuit(multiset(cards))
  {
    assert forall i :: 0 <= i < |cards| ==> cards[i] in multiset(cards);
  }

  // ----- the first new meld ------------------------------------------------------------

  /** The first combination of the minimum length that is a meld, in visiting order. */
  function FirstMeld(hand: seq<Card>, k: nat): Option<seq<Card>> {
    if k == 0 || |hand| < k then None
    else
      match FirstIn(CombosFrom(0, |hand|, k), Probe(hand, k))
      case Some(x) => Some(Pick(hand, x))
      case None => None
  }

  method FirstNewMeld(hand: seq<Card>, rs: RuleSet) returns (r: Option<seq<Card>>)
    ensures r == FirstMeld(hand, rs.minMeldLen)
  {
    var n, k := |hand|, rs.minMeldLen;
    if k == 0 || n < k {
      return None;
    }
    var combo, visited := FirstCombo(n, k, Probe(hand, k));
    if combo.None? {
      return None;
    }
    return Some(Pick(hand, combo.value));
  }

  lemma PickCons(hand: seq<Card>, i: nat, y: seq<nat>)
    requires i < |hand|
    ensures multiset(Pick(hand, [i] + y)) == multiset{hand[i]} + multiset(Pick(hand, y))
  {
    assert ([i] + y)[1..] == y;
  }

  lemma TailHeld(hand: seq<Card>, i: nat, j: nat, b: multiset<Card>)
    requires i <= j < |hand| && b <= multiset(hand[j + 1..])
    ensures multiset{hand[j]} + b <= multiset(hand[i..])
  {
    assert hand[i..] == hand[i..j] + ([hand[j]] + hand[j + 1..]);
  }

  lemma {:induction false} ComboIsHeld(hand: seq<Card>, x: seq<nat>, i: nat)
    requires i <= |hand| && IsCombo(x, i, |hand|, |x|)
    ensures |Pick(hand, x)| == |x| && multiset(Pick(hand, x)) <= multiset(hand[i..])
    decreases |x|
  {
    hide IsCombo;
    if x != [] {
      ComboTail(x, i, |hand|);
      ComboIsHeld(hand, x[1..], x[0] + 1);
      TailHeld(hand, i, x[0], multiset(Pick(hand, x[1..])));
    }
  }

  /** Every bag of cards held is picked by some combination. */
  lemma {:induction false} HeldIsCombo(hand: seq<Card>, b: multiset<Card>, i: nat) returns (x: seq<nat>)
    requires i <= |hand| && b <= multiset(hand[i..])
    ensures IsCombo(x, i, |hand|, |b|) && multiset(Pick(hand, x)) == b
    decreases |hand| - i
  {
    hide IsCombo, Pick;
    if i == |hand| {
      x := [];
      NoCombo(hand, i);
      assert b == multiset{};
    } else {
      var c := hand[i];
      TakeFirst(hand, i, b);
      if c in b {
        var y := HeldIsCombo(hand, b - multiset{c}, i + 1);
        ComboSize(y, i + 1, |hand|, |b - multiset{c}|);
        x := [i] + y;
        ComboCons(i, y, |hand|);
        PickCons(hand, i, y);
      } else {
        x := HeldIsCombo(hand, b, i + 1);
        ComboWider(x, i, |hand|, |b|);
      }
    }
  }

  lemma TakeFirst(hand: seq<Card>, i: nat, b: multiset<Card>)
    requires i < |hand| && b <= multiset(hand[i..])
    ensures var c, less := hand[i], b - multiset{hand[i]};
            && less <= multiset(hand[i + 1..])
            && (c in b ==> b == multiset{c} + less && |b| == |less| + 1)
            && (c !in b ==> less == b)
  {
    assert hand[i..] == [hand[i]] + hand[i + 1..];
  }

  lemma NoCombo(hand: seq<Card>, i: nat)
    ensures IsCombo([], i, |hand|, 0) && Pick(hand, []) == []
  {
  }

  lemma {:induction false} StoppedAt(xs: seq<seq<nat>>, stop: seq<nat> -> bool) returns (t: nat)
    requires Stopped(UpTo(xs, stop), stop)
    ensures t < |xs| && stop(xs[t]) && xs[t] == UpTo(xs, stop)[|UpTo(xs, stop)| - 1]
  {
    if stop(xs[0]) {
      t := 0;
    } else {
      var v := UpTo(xs[1..], stop);
      assert UpTo(xs, stop) == [xs[0]] + v;
      assert v != [];
      t := StoppedAt(xs[1..], stop);
      t := t + 1;
    }
  }

  lemma {:induction false} NeverStopped(xs: seq<seq<nat>>, stop: seq<nat> -> bool, t: nat)
    requires t < |xs| && stop(xs[t])
    ensures Stopped(UpTo(xs, stop), stop)
  {
    if !stop(xs[0]) {
      NeverStopped(xs[1..], stop, t - 1);
      var v := UpTo(xs[1..], stop);
      assert ([xs[0]] + v)[|v|] == v[|v| - 1];
    }
  }

  /** Any meld holds a meld of exactly the minimum length. */
  lemma MeldWindow(b: multiset<Card>, k: nat) returns (g: multiset<Card>)
    requires k >= 2 && Classify(b, k).Some?
    ensures g <= b && |g| == k && Classify(g, k).Some?
  {
    match Classify(b, k).value
    case RunShape(s, lo) =>
      var all, part := Straight(s, lo, |b|), Straight(s, lo, k);
      assert all == part + all[k..];
      g := multiset(part);
      SeqBagSize(part);
      ClassifyRunIs(g, k, s, lo);
    case SetShape =>
      g := SomeOf(b, k);
  }

  lemma {:induction false} SomeOf<T>(b: multiset<T>, k: nat) returns (g: multiset<T>)
    requires k <= |b|
    ensures g <= b && |g| == k
    decreases |b|
  {
    if |b| == k {
      g := b;
    } else {
      var x :| x in b;
      g := SomeOf(b - multiset{x}, k);
    }
  }

  /** The probe finds a meld of the hand's cards, and finds none only if no cards of the hand,
      however many, form a meld. */
  lemma FirstMeldExact(hand: seq<Card>, k: nat)
    requires k >= 2
    ensures FirstMeld(hand, k).Some? ==>
              var c := FirstMeld(hand, k).value;
              |c| == k && HandContains(hand, c) && Classify(multiset(c), k).Some?
    ensures FirstMeld(hand, k).None? ==>
              forall b: multiset<Card> :: b <= multiset(hand) ==> Classify(b, k).None?
  {
    hide Accepts, Classify, CombosFrom, UpTo, Pick;
    var list, probe := CombosFrom(0, |hand|, k), Probe(hand, k);
    ListedAreCombos(0, |hand|, k);
    assert hand[0..] == hand;
    if FirstMeld(hand, k).Some? {
      var t := StoppedAt(list, probe);
      assert IsCombo(list[t], 0, |hand|, k);
      ComboIsHeld(hand, list[t], 0);
      AcceptsIsClassify(Pick(hand, list[t]), k);
    } else {
      forall b: multiset<Card> | b <= multiset(hand) ensures Classify(b, k).None? {
        if Classify(b, k).Some? {
          var g := MeldWindow(b, k);
          MeldIsProbed(hand, k, g);
        }
      }
    }
  }

  lemma MeldIsProbed(hand: seq<Card>, k: nat, g: multiset<Card>)
    requires k >= 2 && g <= multiset(hand) && |g| == k && Classify(g, k).Some?
    ensures FirstMeld(hand, k).Some?
  {
    hide Accepts, Classify, CombosFrom, UpTo, Pick;
    assert hand[0..] == hand;
    var x := HeldIsCombo(hand, g, 0);
    AcceptsIsClassify(Pick(hand, x), k);
    ComboFits(x, 0, |hand|, k);
    var t := CombosAreListed(x, 0, |hand|, k);
    assert Probe(hand, k)(x);
    NeverStopped(CombosFrom(0, |hand|, k), Probe(hand, k), t);
  }

  // ----- the suggestion ----------------------------------------------------------------

  datatype Suggestion =
    | SuggestDraw
    | SuggestKnock(knockCard: Card)
    | SuggestMeld(cards: seq<Card>)
    | SuggestLayOff(laid: Card, meldID: MeldId)
    | SuggestDiscard(card: Option<Card>)

  /** The first card from index i on that can be laid off onto a meld. */
  ghost function FirstFit(m: Meld, hand: seq<Card>, minLen: nat, i: nat): Option<Suggestion>
    requires i <= |hand|
    decreases |hand| - i
  {
    if i == |hand| then None
    else if LaidOff(m, [hand[i]], minLen).Some? then Some(SuggestLayOff(hand[i], m.id))
    else FirstFit(m, hand, minLen, i + 1)
  }

  /** The first single-card lay-off, meld by meld. */
  ghost function FirstLayOff(melds: seq<Meld>, hand: seq<Card>, minLen: nat, mi: nat)
    : Option<Suggestion>
    requires mi <= |melds|
    decreases |melds| - mi
  {
    if mi == |melds| then None
    else
      match FirstFit(melds[mi], hand, minLen, 0)
      case Some(r) => Some(r)
      case None => FirstLayOff(melds, hand, minLen, mi + 1)
  }

  /** The first of the cards worth most in the hand. */
  function Highest(hand: seq<Card>, rs: RuleSet): (r: Option<Card>)
    ensures r.None? <==> hand == []
    ensures r.Some? ==> r.value in hand
    ensures r.Some? ==> forall c :: c in hand ==> Points(c, rs, false) <= Points(r.value, rs, false)
  {
    if hand == [] then None
    else
      var n := |hand| - 1;
      assert hand == hand[..n] + [hand[n]];
      match Highest(hand[..n], rs)
      case None => Some(hand[n])
      case Some(best) =>
        if Points(hand[n], rs, false) > Points(best, rs, false) then Some(hand[n]) else Some(best)
  }

  ghost function Suggest(s: State, p: int): Suggestion {
    if p < 0 || p >= |s.players| || s.phase == PhaseDraw then SuggestDraw
    else
      var hand, k := s.players[p].hand, s.rules.minMeldLen;
      match Solve(hand, s.melds, k)
      case Some(plan) => SuggestKnock(plan.knockCard)
      case None =>
        match FirstMeld(hand, k)
        case Some(cards) => SuggestMeld(cards)
        case None =>
          match FirstLayOff(s.melds, hand, k, 0)
          case Some(r) => r
          case None => SuggestDiscard(Highest(hand, s.rules))
  }

  method HighestValueCard(hand: seq<Card>, rs: RuleSet) returns (r: Option<Card>)
    ensures r == Highest(hand, rs)
  {
    if hand == [] {
      return None;
    }
    var best := hand[0];
    var bestPts := Points(best, rs, false);
    for i := 1 to |hand|
      invariant Highest(hand[..i], rs) == Some(best) && bestPts == Points(best, rs, false)
    {
      var pts := Points(hand[i], rs, false);
      assert hand[..i + 1][..i] == hand[..i];
      if pts > bestPts {
        best, bestPts := hand[i], pts;
      }
    }
    assert hand[..|hand|] == hand;
    return Some(best);
  }

  method SingleFit(m: Meld, hand: seq<Card>, rs: RuleSet) returns (r: Option<Suggestion>)
    ensures r == FirstFit(m, hand, rs.minMeldLen, 0)
  {
    for i := 0 to |hand|
      invariant FirstFit(m, hand, rs.minMeldLen, 0) == FirstFit(m, hand, rs.minMeldLen, i)
    {
      var u := CanLayOff(m, [hand[i]], rs);
      if u.Ok? {
        return Some(SuggestLayOff(hand[i], m.id));
      }
    }
    return None;
  }

  method SuggestMove(g: GameState?, p: int) returns (r: Suggestion)
    ensures r == if g == null then SuggestDraw else Suggest(g.Abs(), p)
  {
    hide Solve, FirstMeld, FirstFit, Highest;
    if g == null || p < 0 || p >= |g.players| {
      return SuggestDraw;
    }
    if g.phase == PhaseDraw {
      return SuggestDraw;
    }
    var hand := g.players[p].hand;
    var plan := SolveAutoKnock(hand, g.melds, p, g.rules);
    if plan.Some? {
      return SuggestKnock(plan.value.knockCard);
    }
    var meld := FirstNewMeld(hand, g.rules);
    if meld.Some? {
      return SuggestMeld(meld.value);
    }
    for mi := 0 to |g.melds|
      invariant FirstLayOff(g.melds, hand, g.rules.minMeldLen, 0)
             == FirstLayOff(g.melds, hand, g.rules.minMeldLen, mi)
    {
      var fit := SingleFit(g.melds[mi], hand, g.rules);
      if fit.Some? {
        return fit.value;
      }
    }
    var worst := HighestValueCard(hand, g.rules);
    return SuggestDiscard(worst);
  }
}
