/** The two enumerators of k-combinations: the in-place successor loop of the hint engine
    (server/internal/game/suggest.go) and the recursion of the bot (server/internal/bot/bot.go).
    Both visit one list, given here once. */
module Combos {
  import opened Bags

  /** All ascending k-tuples of indices from i to n-1, in lexicographic order. */
  function CombosFrom(i: nat, n: nat, k: nat): seq<seq<nat>>
    decreases k + n - i
  {
    if k == 0 then [[]]
    else if i + k > n then []
    else Prepend([i], CombosFrom(i + 1, n, k - 1)) + CombosFrom(i + 1, n, k)
  }

  function Prepend(p: seq<nat>, xs: seq<seq<nat>>): (r: seq<seq<nat>>)
    ensures |r| == |xs| && forall t :: 0 <= t < |xs| ==> r[t] == p + xs[t]
  {
    seq(|xs|, t requires 0 <= t < |xs| => p + xs[t])
  }

  predicate Increasing(x: seq<nat>) {
    forall a, b :: 0 <= a < b < |x| ==> x[a] < x[b]
  }

  /** An ascending k-tuple of indices from i to n-1. */
  predicate IsCombo(x: seq<nat>, i: nat, n: nat, k: nat) {
    |x| == k && Increasing(x) && forall a :: 0 <= a < |x| ==> i <= x[a] < n
  }

  predicate LexLess(x: seq<nat>, y: seq<nat>)
    requires |x| == |y|
  {
    x != [] && (x[0] < y[0] || (x[0] == y[0] && LexLess(x[1..], y[1..])))
  }

  lemma ComboTail(x: seq<nat>, i: nat, n: nat)
    requires x != [] && IsCombo(x, i, n, |x|)
    ensures i <= x[0] < n && IsCombo(x[1..], x[0] + 1, n, |x[1..]|)
  {
  }

  lemma ComboCons(i: nat, y: seq<nat>, n: nat)
    requires i < n && IsCombo(y, i + 1, n, |y|)
    ensures IsCombo([i] + y, i, n, |y| + 1)
  {
  }

  lemma ComboSize(x: seq<nat>, i: nat, n: nat, k: nat)
    requires IsCombo(x, i, n, k)
    ensures |x| == k
  {
  }

  lemma ComboWider(x: seq<nat>, i: nat, n: nat, k: nat)
    requires IsCombo(x, i + 1, n, k)
    ensures IsCombo(x, i, n, k)
  {
  }

  // ----- the list is complete, ordered, and without repetition -------------------------

  lemma {:induction false} ListedAreCombos(i: nat, n: nat, k: nat)
    ensures forall t :: 0 <= t < |CombosFrom(i, n, k)| ==> IsCombo(CombosFrom(i, n, k)[t], i, n, k)
    decreases k + n - i
  {
    if k > 0 && i + k <= n {
      var heads, tails := CombosFrom(i + 1, n, k - 1), CombosFrom(i + 1, n, k);
      ListedAreCombos(i + 1, n, k - 1);
      ListedAreCombos(i + 1, n, k);
      forall t | 0 <= t < |CombosFrom(i, n, k)| ensures IsCombo(CombosFrom(i, n, k)[t], i, n, k) {
        if t < |heads| {
          assert CombosFrom(i, n, k)[t] == [i] + heads[t];
          assert IsCombo(heads[t], i + 1, n, k - 1);
        } else {
          assert CombosFrom(i, n, k)[t] == tails[t - |heads|];
        }
      }
    }
  }

  lemma {:induction false} CombosAreListed(x: seq<nat>, i: nat, n: nat, k: nat) returns (t: nat)
    requires IsCombo(x, i, n, k)
    ensures t < |CombosFrom(i, n, k)| && CombosFrom(i, n, k)[t] == x
    decreases k + n - i
  {
    ComboSize(x, i, n, k);
    if k == 0 {
      t := 0;
    } else {
      ComboFits(x, i, n, k);
      ComboTail(x, i, n);
      var heads := CombosFrom(i + 1, n, k - 1);
      if x[0] == i {
        t := CombosAreListed(x[1..], i + 1, n, k - 1);
        assert x == [i] + x[1..];
      } else {
        ComboLater(x, i, n, k);
        t := CombosAreListed(x, i + 1, n, k);
        t := t + |heads|;
      }
      hide IsCombo;
    }
  }

  lemma ComboLater(x: seq<nat>, i: nat, n: nat, k: nat)
    requires IsCombo(x, i, n, k) && k > 0 && x[0] != i
    ensures IsCombo(x, i + 1, n, k)
  {
  }

  lemma {:induction false} ComboFits(x: seq<nat>, i: nat, n: nat, k: nat)
    requires IsCombo(x, i, n, k)
    ensures i + k <= n || k == 0
    decreases k
  {
    if k > 0 {
      var init := x[..k - 1];
      assert IsCombo(init, i, x[k - 1], k - 1);
      ComboFits(init, i, x[k - 1], k - 1);
    }
  }

  lemma LexCons(i: nat, x: seq<nat>, y: seq<nat>)
    requires |x| == |y| && LexLess(x, y)
    ensures LexLess([i] + x, [i] + y)
  {
    assert ([i] + x)[1..] == x && ([i] + y)[1..] == y;
  }

  /** Later entries are lexicographically greater, so nothing is listed twice. */
  lemma {:induction false} ListIsOrdered(i: nat, n: nat, k: nat, t: nat, u: nat)
    requires t < u < |CombosFrom(i, n, k)|
    ensures |CombosFrom(i, n, k)[t]| == |CombosFrom(i, n, k)[u]| == k
    ensures LexLess(CombosFrom(i, n, k)[t], CombosFrom(i, n, k)[u])
    decreases k + n - i
  {
    var list := CombosFrom(i, n, k);
    var heads, tails := CombosFrom(i + 1, n, k - 1), CombosFrom(i + 1, n, k);
    ListedAreCombos(i, n, k);
    ComboSize(list[t], i, n, k);
    ComboSize(list[u], i, n, k);
    assert list == Prepend([i], heads) + tails;
    hide IsCombo, LexLess, CombosFrom;
    if u < |heads| {
      ListIsOrdered(i + 1, n, k - 1, t, u);
      LexCons(i, heads[t], heads[u]);
    } else if t >= |heads| {
      ListIsOrdered(i + 1, n, k, t - |heads|, u - |heads|);
    } else {
      ListedAreCombos(i + 1, n, k);
      ComboStart(list[u], i + 1, n, k);
      FirstDecides(list[t], list[u]);
    }
  }

  lemma FirstDecides(x: seq<nat>, y: seq<nat>)
    requires |x| == |y| && x != [] && x[0] < y[0]
    ensures LexLess(x, y)
  {
  }

  lemma ComboStart(x: seq<nat>, i: nat, n: nat, k: nat)
    requires IsCombo(x, i, n, k) && k > 0
    ensures x[0] >= i
  {
  }

  // ----- the successor -----------------------------------------------------------------

  function Ramp(lo: nat, k: nat): seq<nat> {
    seq(k, j requires 0 <= j < k => lo + j)
  }

  /** The combination after x, by structure. */
  function Next(x: seq<nat>, n: nat): Option<seq<nat>> {
    if x == [] then None
    else
      match Next(x[1..], n)
      case Some(y) => Some([x[0]] + y)
      case None => if x[0] + |x| >= n then None else Some(Ramp(x[0] + 1, |x|))
  }

  lemma {:induction false} FirstListed(i: nat, n: nat, k: nat)
    requires i + k <= n
    ensures |CombosFrom(i, n, k)| > 0 && CombosFrom(i, n, k)[0] == Ramp(i, k)
    decreases k
  {
    if k > 0 {
      FirstListed(i + 1, n, k - 1);
      RampCons(i, k);
      hide Ramp;
    } else {
      assert Ramp(i, 0) == [];
    }
  }

  lemma RampCons(i: nat, k: nat)
    requires k > 0
    ensures [i] + Ramp(i + 1, k - 1) == Ramp(i, k)
  {
  }

  lemma {:induction false} NextIsListed(i: nat, n: nat, k: nat, t: nat)
    requires t < |CombosFrom(i, n, k)|
    ensures Next(CombosFrom(i, n, k)[t], n)
         == if t + 1 < |CombosFrom(i, n, k)| then Some(CombosFrom(i, n, k)[t + 1]) else None
    decreases k + n - i
  {
    if k > 0 {
      var heads := CombosFrom(i + 1, n, k - 1);
      if t < |heads| {
        NextIsListed(i + 1, n, k - 1, t);
        NextInHeads(i, n, k, t);
      } else {
        NextIsListed(i + 1, n, k, t - |heads|);
      }
    }
  }

  /** Among the combinations that start with i, the tail moves on; after the last of them
      comes the first that starts with i + 1. */
  lemma NextInHeads(i: nat, n: nat, k: nat, t: nat)
    requires k > 0 && i + k <= n && t < |CombosFrom(i + 1, n, k - 1)|
    requires var heads := CombosFrom(i + 1, n, k - 1);
             Next(heads[t], n) == if t + 1 < |heads| then Some(heads[t + 1]) else None
    ensures Next(CombosFrom(i, n, k)[t], n)
         == if t + 1 < |CombosFrom(i, n, k)| then Some(CombosFrom(i, n, k)[t + 1]) else None
  {
    var list := CombosFrom(i, n, k);
    var heads, tails := CombosFrom(i + 1, n, k - 1), CombosFrom(i + 1, n, k);
    ListedAreCombos(i + 1, n, k - 1);
    ComboSize(heads[t], i + 1, n, k - 1);
    assert list == Prepend([i], heads) + tails;
    assert list[t] == [i] + heads[t] && list[t][1..] == heads[t];
    if t + 1 < |heads| {
      assert list[t + 1] == [i] + heads[t + 1];
    } else if i + 1 + k <= n {
      FirstListed(i + 1, n, k);
      assert list[t + 1] == tails[0];
    } else {
      assert tails == [];
    }
  }

  /** The in-place step: raise the rightmost index that can rise, reset those after it. */
  lemma {:induction false} PivotIsNext(x: seq<nat>, n: nat, p: int)
    requires |x| <= n && -1 <= p < |x|
    requires forall j :: p < j < |x| ==> x[j] == n - |x| + j
    requires p >= 0 ==> x[p] < n - |x| + p
    ensures p < 0 ==> Next(x, n) == None
    ensures p >= 0 ==> Next(x, n) == Some(x[..p] + Ramp(x[p] + 1, |x| - p))
  {
    if x != [] {
      var rest := x[1..];
      if p <= 0 {
        assert forall j :: -1 < j < |rest| ==> rest[j] == x[j + 1];
        PivotIsNext(rest, n, -1);
        if p == 0 {
          assert x[..0] + Ramp(x[0] + 1, |x|) == Ramp(x[0] + 1, |x|);
        }
      } else {
        assert forall j :: 0 <= j < |rest| ==> rest[j] == x[j + 1];
        PivotIsNext(rest, n, p - 1);
        assert [x[0]] + rest[..p - 1] == x[..p];
        assert [x[0]] + (rest[..p - 1] + Ramp(x[p] + 1, |x| - p)) == x[..p] + Ramp(x[p] + 1, |x| - p);
      }
    }
  }

  // ----- visiting until a callback says stop -------------------------------------------

  /** The part of a list that is visited: up to and including the first that stops. */
  function UpTo(xs: seq<seq<nat>>, stop: seq<nat> -> bool): seq<seq<nat>> {
    if xs == [] then []
    else if stop(xs[0]) then [xs[0]]
    else [xs[0]] + UpTo(xs[1..], stop)
  }

  predicate Stopped(visited: seq<seq<nat>>, stop: seq<nat> -> bool) {
    visited != [] && stop(visited[|visited| - 1])
  }

  /** The combination an enumeration of `list` stops at. */
  function FirstIn(list: seq<seq<nat>>, stop: seq<nat> -> bool): Option<seq<nat>> {
    var visited := UpTo(list, stop);
    if Stopped(visited, stop) then Some(visited[|visited| - 1]) else None
  }

  lemma UpToNone(stop: seq<nat> -> bool)
    ensures UpTo([], stop) == [] && !Stopped([], stop)
  {
  }

  /** Visiting one combination and then others. */
  lemma UpToCons(x: seq<nat>, rest: seq<seq<nat>>, stop: seq<nat> -> bool)
    ensures UpTo([x] + rest, stop) == if stop(x) then [x] else [x] + UpTo(rest, stop)
  {
    assert ([x] + rest)[1..] == rest;
  }

  lemma StoppedOne(x: seq<nat>, stop: seq<nat> -> bool)
    ensures Stopped([x], stop) == stop(x)
  {
  }

  lemma StoppedLater(x: seq<nat>, visited: seq<seq<nat>>, stop: seq<nat> -> bool)
    requires !stop(x)
    ensures Stopped([x] + visited, stop) == Stopped(visited, stop)
  {
    assert visited != [] ==> ([x] + visited)[|visited|] == visited[|visited| - 1];
  }

  lemma {:induction false} UpToAppend(a: seq<seq<nat>>, b: seq<seq<nat>>, stop: seq<nat> -> bool)
    ensures UpTo(a + b, stop)
         == if Stopped(UpTo(a, stop), stop) then UpTo(a, stop) else a + UpTo(b, stop)
  {
    hide UpTo, Stopped;
    if a == [] {
      UpToNone(stop);
      assert a + b == b && a + UpTo(b, stop) == UpTo(b, stop);
    } else {
      var x, rest := a[0], a[1..];
      assert a == [x] + rest && a + b == [x] + (rest + b);
      UpToCons(x, rest, stop);
      UpToCons(x, rest + b, stop);
      StoppedOne(x, stop);
      if !stop(x) {
        UpToAppend(rest, b, stop);
        StoppedLater(x, UpTo(rest, stop), stop);
        assert [x] + (rest + UpTo(b, stop)) == a + UpTo(b, stop);
      }
    }
  }

  lemma {:induction false} UpToAll(a: seq<seq<nat>>, stop: seq<nat> -> bool)
    requires forall t :: 0 <= t < |a| ==> !stop(a[t])
    ensures UpTo(a, stop) == a && !Stopped(UpTo(a, stop), stop)
  {
    if a != [] {
      UpToAll(a[1..], stop);
    }
  }

  lemma {:induction false} UpToWhole(a: seq<seq<nat>>, stop: seq<nat> -> bool)
    ensures !Stopped(UpTo(a, stop), stop) ==> UpTo(a, stop) == a
  {
    if a != [] {
      UpToWhole(a[1..], stop);
      var v := UpTo(a[1..], stop);
      assert v != [] ==> ([a[0]] + v)[|v|] == v[|v| - 1];
    }
  }

  /** Going on to further combinations unless already stopped. */
  function AndThen(visited: seq<seq<nat>>, more: seq<seq<nat>>, stop: seq<nat> -> bool): seq<seq<nat>> {
    if Stopped(visited, stop) then visited else visited + UpTo(more, stop)
  }

  /** Visiting the combinations that start with i, then the others. */
  lemma SplitAt(prefix: seq<nat>, i: nat, n: nat, m: nat, stop: seq<nat> -> bool)
    requires m >= 1 && i + m <= n
    ensures UpTo(Prepend(prefix, CombosFrom(i, n, m)), stop)
         == AndThen(UpTo(Prepend(prefix + [i], CombosFrom(i + 1, n, m - 1)), stop),
                    Prepend(prefix, CombosFrom(i + 1, n, m)), stop)
  {
    var heads, tails := CombosFrom(i + 1, n, m - 1), CombosFrom(i + 1, n, m);
    var a, b := Prepend(prefix + [i], heads), Prepend(prefix, tails);
    PrependSplits(prefix, i, heads, tails);
    UpToAppend(a, b, stop);
    UpToWhole(a, stop);
  }

  lemma PrependSplits(prefix: seq<nat>, i: nat, heads: seq<seq<nat>>, tails: seq<seq<nat>>)
    ensures Prepend(prefix, Prepend([i], heads) + tails)
         == Prepend(prefix + [i], heads) + Prepend(prefix, tails)
  {
    forall t | 0 <= t < |heads|
      ensures Prepend(prefix, Prepend([i], heads) + tails)[t] == Prepend(prefix + [i], heads)[t]
    {
      assert prefix + ([i] + heads[t]) == (prefix + [i]) + heads[t];
    }
  }

  /** Moves the indices on to the next combination in place; false when there is none. */
  method Advance(idx: array<nat>, n: nat) returns (more: bool)
    requires idx.Length <= n && IsCombo(idx[..], 0, n, idx.Length)
    modifies idx
    ensures more == Next(old(idx[..]), n).Some?
    ensures more ==> idx[..] == Next(old(idx[..]), n).value
  {
    hide Next, IsCombo, Ramp;
    var k := idx.Length;
    ghost var x := idx[..];
    var i := k - 1;
    while i >= 0 && idx[i] == n - k + i
      invariant -1 <= i < k
      invariant forall j :: i < j < k ==> idx[j] == n - k + j
    {
      i := i - 1;
    }
    if i >= 0 {
      BelowCeiling(x, n, k, i);
    }
    PivotIsNext(x, n, i);
    if i < 0 {
      return false;
    }
    idx[i] := idx[i] + 1;
    for j := i + 1 to k
      invariant idx[..i] == x[..i]
      invariant forall l :: i <= l < j ==> idx[l] == x[i] + 1 + (l - i)
    {
      idx[j] := idx[j - 1] + 1;
    }
    BumpedTail(x, i, idx[..]);
    return true;
  }

  lemma BumpedTail(x: seq<nat>, i: nat, y: seq<nat>)
    requires i < |x| == |y| && y[..i] == x[..i]
    requires forall l :: i <= l < |x| ==> y[l] == x[i] + 1 + (l - i)
    ensures y == x[..i] + Ramp(x[i] + 1, |x| - i)
  {
    assert forall l :: 0 <= l < i ==> y[l] == y[..i][l];
  }

  /** No index of a combination exceeds its ceiling. */
  lemma {:induction false} BelowCeiling(x: seq<nat>, n: nat, k: nat, i: nat)
    requires IsCombo(x, 0, n, k) && i < k <= n
    ensures x[i] <= n - k + i
    decreases k - i
  {
    if i < k - 1 {
      BelowCeiling(x, n, k, i + 1);
    }
  }

  /** One visit, when none before it stopped. */
  lemma Visit(list: seq<seq<nat>>, t: nat, stop: seq<nat> -> bool)
    requires t < |list| && forall u :: 0 <= u < t ==> !stop(list[u])
    ensures stop(list[t]) ==> UpTo(list, stop) == list[..t + 1]
    ensures !stop(list[t]) && t + 1 == |list| ==>
              UpTo(list, stop) == list[..t + 1] && !Stopped(list[..t + 1], stop)
  {
    hide UpTo, Stopped;
    var before, x, rest := list[..t], list[t], list[t + 1..];
    Around(list, t);
    UpToAll(before, stop);
    UpToAppend(before, [x] + rest, stop);
    UpToCons(x, rest, stop);
    UpToNone(stop);
    StoppedLast(before, x, stop);
    assert [x] + [] == [x];
  }

  lemma Around(list: seq<seq<nat>>, t: nat)
    requires t < |list|
    ensures list == list[..t] + ([list[t]] + list[t + 1..]) && list[..t + 1] == list[..t] + [list[t]]
    ensures t + 1 == |list| ==> list[t + 1..] == []
  {
  }

  lemma StoppedLast(before: seq<seq<nat>>, x: seq<nat>, stop: seq<nat> -> bool)
    ensures Stopped(before + [x], stop) == stop(x)
  {
  }

  /** The hint engine's loop: visits combinations until one stops it. */
  method FirstCombo(n: nat, k: nat, stop: seq<nat> -> bool)
    returns (r: Option<seq<nat>>, ghost visited: seq<seq<nat>>)
    requires 1 <= k <= n
    ensures visited == UpTo(CombosFrom(0, n, k), stop)
    ensures r == FirstIn(CombosFrom(0, n, k), stop)
  {
    hide CombosFrom, UpTo, IsCombo, Next;
    ghost var list := CombosFrom(0, n, k);
    var idx := new nat[k](i => i);
    FirstListed(0, n, k);
    ListedAreCombos(0, n, k);
    assert idx[..] == Ramp(0, k);
    ghost var t := 0;
    visited := [];
    while true
      invariant t < |list| && idx[..] == list[t] && visited == list[..t]
      invariant forall u :: 0 <= u < t ==> !stop(list[u])
      decreases |list| - t
    {
      visited := visited + [idx[..]];
      Visit(list, t, stop);
      if stop(idx[..]) {
        return Some(idx[..]), visited;
      }
      NextIsListed(0, n, k, t);
      var more := Advance(idx, n);
      if !more {
        return None, visited;
      }
      t := t + 1;
    }
  }

  /** The bot's recursion: fixes the index at one depth, then the deeper ones. */
  method Combinations(idx: array<nat>, n: nat, start: nat, depth: nat, stop: seq<nat> -> bool)
    returns (stopped: bool, ghost visited: seq<seq<nat>>)
    requires depth <= idx.Length
    modifies idx
    ensures idx[..depth] == old(idx[..depth])
    ensures visited
         == UpTo(Prepend(idx[..depth], CombosFrom(start, n, idx.Length - depth)), stop)
    ensures stopped == Stopped(visited, stop)
    ensures stopped ==> idx[..] == visited[|visited| - 1]
    decreases idx.Length - depth
  {
    ghost var prefix := idx[..depth];
    if depth == idx.Length {
      assert idx[..] == prefix;
      stopped := stop(idx[..]);
      visited := [prefix];
      LastDepth(prefix, start, n, stop);
      return;
    }
    stopped, visited := CombinationsFrom(idx, n, start, depth, stop);
  }

  lemma LastDepth(prefix: seq<nat>, start: nat, n: nat, stop: seq<nat> -> bool)
    ensures UpTo(Prepend(prefix, CombosFrom(start, n, 0)), stop) == [prefix]
    ensures Stopped([prefix], stop) == stop(prefix)
  {
    assert prefix + [] == prefix;
    assert Prepend(prefix, [[]]) == [prefix];
    assert [prefix][1..] == [];
  }

  /** The loop over the index at one depth. */
  method CombinationsFrom(idx: array<nat>, n: nat, start: nat, depth: nat, stop: seq<nat> -> bool)
    returns (stopped: bool, ghost visited: seq<seq<nat>>)
    requires depth < idx.Length
    modifies idx
    ensures idx[..depth] == old(idx[..depth])
    ensures visited
         == UpTo(Prepend(idx[..depth], CombosFrom(start, n, idx.Length - depth)), stop)
    ensures stopped == Stopped(visited, stop)
    ensures stopped ==> idx[..] == visited[|visited| - 1]
    decreases idx.Length - depth, 0
  {
    hide UpTo, CombosFrom, Prepend;
    var m := idx.Length - depth;
    ghost var prefix := idx[..depth];
    ghost var all := UpTo(Prepend(prefix, CombosFrom(start, n, m)), stop);
    visited := [];
    stopped := false;
    var i := start;
    while i + m <= n
      invariant start <= i && idx[..depth] == prefix && !Stopped(visited, stop)
      invariant all == visited + UpTo(Prepend(prefix, CombosFrom(i, n, m)), stop)
      decreases n - i
    {
      idx[depth] := i;
      ghost var more;
      stopped, more := Combinations(idx, n, i + 1, depth + 1, stop);
      KeepPrefix(idx[..depth + 1], prefix, i);
      SplitAt(prefix, i, n, m, stop);
      ghost var before := visited;
      visited := visited + more;
      LastOf(before, more, stop);
      if stopped {
        return;
      }
      i := i + 1;
    }
    NoMoreCombos(prefix, i, n, m, stop);
  }

  lemma KeepPrefix(x: seq<nat>, prefix: seq<nat>, i: nat)
    requires x == prefix + [i]
    ensures x[..|prefix|] == prefix
  {
  }

  lemma LastOf(a: seq<seq<nat>>, b: seq<seq<nat>>, stop: seq<nat> -> bool)
    requires !Stopped(a, stop)
    ensures Stopped(a + b, stop) == Stopped(b, stop)
    ensures b != [] ==> (a + b)[|a + b| - 1] == b[|b| - 1]
    ensures forall c: seq<seq<nat>> :: a + (b + c) == (a + b) + c
  {
    assert b == [] ==> a + b == a;
  }

  lemma NoMoreCombos(prefix: seq<nat>, i: nat, n: nat, m: nat, stop: seq<nat> -> bool)
    requires i + m > n && m > 0
    ensures UpTo(Prepend(prefix, CombosFrom(i, n, m)), stop) == []
  {
  }
}
