/** Sequences seen as bags: removal of first occurrences, the boolean mark array that the
    engine uses to take cards out of a slice, and totals over a sequence. */
module Bags {
  datatype Option<+T> = None | Some(value: T)

  function RemoveFirst<T(==)>(s: seq<T>, x: T): seq<T> {
    if s == [] then []
    else if s[0] == x then s[1..]
    else [s[0]] + RemoveFirst(s[1..], x)
  }

  /** Takes the cards `xs` out of `s`, each time the first occurrence. */
  function RemoveAll<T(==)>(s: seq<T>, xs: seq<T>): seq<T>
    decreases |xs|
  {
    if xs == [] then s else RemoveAll(RemoveFirst(s, xs[0]), xs[1..])
  }

  /** The elements of `s` from index `i` on whose mark is not set, in order. */
  function Unmarked<T>(s: seq<T>, used: seq<bool>, i: nat): seq<T>
    requires |s| == |used| && i <= |s|
    decreases |s| - i
  {
    if i == |s| then []
    else if used[i] then Unmarked(s, used, i + 1)
    else [s[i]] + Unmarked(s, used, i + 1)
  }

  function Total<T>(f: T -> int, s: seq<T>): int {
    if s == [] then 0 else f(s[0]) + Total(f, s[1..])
  }

  lemma {:induction false} RemoveFirstBag<T>(s: seq<T>, x: T)
    ensures multiset(RemoveFirst(s, x)) == multiset(s) - multiset{x}
  {
    if s != [] {
      assert s == [s[0]] + s[1..];
      if s[0] != x {
        RemoveFirstBag(s[1..], x);
      }
    }
  }

  lemma {:induction false} RemoveAllBag<T>(s: seq<T>, xs: seq<T>)
    ensures multiset(RemoveAll(s, xs)) == multiset(s) - multiset(xs)
    decreases |xs|
  {
    if xs != [] {
      assert xs == [xs[0]] + xs[1..];
      RemoveFirstBag(s, xs[0]);
      RemoveAllBag(RemoveFirst(s, xs[0]), xs[1..]);
    }
  }

  lemma {:induction false} RemoveAllAppend<T>(s: seq<T>, xs: seq<T>, ys: seq<T>)
    ensures RemoveAll(s, xs + ys) == RemoveAll(RemoveAll(s, xs), ys)
    decreases |xs|
  {
    if xs == [] {
      assert xs + ys == ys;
    } else {
      assert (xs + ys)[1..] == xs[1..] + ys;
      RemoveAllAppend(RemoveFirst(s, xs[0]), xs[1..], ys);
    }
  }

  lemma {:induction false} UnmarkedNone<T>(s: seq<T>, used: seq<bool>, i: nat)
    requires |s| == |used| && i <= |s| && forall j :: i <= j < |used| ==> !used[j]
    ensures Unmarked(s, used, i) == s[i..]
    decreases |s| - i
  {
    if i < |s| {
      UnmarkedNone(s, used, i + 1);
    }
  }

  lemma {:induction false} UnmarkedSame<T>(s: seq<T>, used: seq<bool>, k: nat, i: nat)
    requires |s| == |used| && k < i <= |s|
    ensures Unmarked(s, used[k := true], i) == Unmarked(s, used, i)
    decreases |s| - i
  {
    if i < |s| {
      UnmarkedSame(s, used, k, i + 1);
    }
  }

  /** Marking the first free occurrence of `x` removes it from the unmarked elements. */
  lemma {:induction false} MarkFirst<T>(s: seq<T>, used: seq<bool>, x: T, k: nat, i: nat)
    requires |s| == |used| && i <= k < |s| && !used[k] && s[k] == x
    requires forall j :: i <= j < k ==> used[j] || s[j] != x
    ensures x in Unmarked(s, used, i)
    ensures Unmarked(s, used[k := true], i) == RemoveFirst(Unmarked(s, used, i), x)
    decreases k - i
  {
    var rest := Unmarked(s, used, i + 1);
    if i == k {
      UnmarkedSame(s, used, k, k + 1);
      assert ([x] + rest)[1..] == rest;
    } else {
      MarkFirst(s, used, x, k, i + 1);
      if !used[i] {
        assert ([s[i]] + rest)[1..] == rest;
      }
    }
  }

  lemma {:induction false} NotUnmarked<T>(s: seq<T>, used: seq<bool>, x: T, i: nat)
    requires |s| == |used| && i <= |s|
    requires forall j :: i <= j < |s| ==> used[j] || s[j] != x
    ensures x !in Unmarked(s, used, i)
    decreases |s| - i
  {
    if i < |s| {
      NotUnmarked(s, used, x, i + 1);
    }
  }

  lemma {:induction false} TotalAppend<T>(f: T -> int, a: seq<T>, b: seq<T>)
    ensures Total(f, a + b) == Total(f, a) + Total(f, b)
  {
    if a == [] {
      assert a + b == b;
    } else {
      assert (a + b)[1..] == a[1..] + b;
      TotalAppend(f, a[1..], b);
    }
  }

  lemma {:induction false} TotalRemoveFirst<T>(f: T -> int, s: seq<T>, x: T)
    requires x in s
    ensures Total(f, s) == f(x) + Total(f, RemoveFirst(s, x))
  {
    if s[0] != x {
      TotalRemoveFirst(f, s[1..], x);
      assert RemoveFirst(s, x)[1..] == RemoveFirst(s[1..], x);
    }
  }

  /** A total depends only on the bag of elements. */
  lemma {:induction false} TotalOfBag<T>(f: T -> int, a: seq<T>, b: seq<T>)
    requires multiset(a) == multiset(b)
    ensures Total(f, a) == Total(f, b)
  {
    if a == [] {
      SeqBagSize(b);
    } else {
      assert a == [a[0]] + a[1..];
      assert a[0] in multiset(b);
      RemoveFirstBag(b, a[0]);
      TotalOfBag(f, a[1..], RemoveFirst(b, a[0]));
      TotalRemoveFirst(f, b, a[0]);
    }
  }

  /** Replacing one element of a nonempty list of equal length: the difference of totals. */
  lemma {:induction false} TotalUpdate<T>(f: T -> int, s: seq<T>, k: nat, x: T)
    requires k < |s|
    ensures Total(f, s[k := x]) == Total(f, s) - f(s[k]) + f(x)
  {
    if k == 0 {
      assert s[0 := x][1..] == s[1..];
    } else {
      assert s[k := x][1..] == s[1..][k - 1 := x];
      TotalUpdate(f, s[1..], k - 1, x);
    }
  }

  lemma {:induction false} SeqBagSize<T>(s: seq<T>)
    ensures |multiset(s)| == |s|
  {
    if s != [] {
      assert s == [s[0]] + s[1..];
      SeqBagSize(s[1..]);
    }
  }

  /** The elements of a sequence that are not among the others, in order. */
  function Except<T(==)>(s: seq<T>, others: seq<T>): seq<T> {
    if s == [] then []
    else (if s[0] in others then [] else [s[0]]) + Except(s[1..], others)
  }

  lemma {:induction false} ExceptNone<T>(s: seq<T>, others: seq<T>)
    requires forall c :: c in s ==> c !in others
    ensures Except(s, others) == s
  {
    if s != [] {
      ExceptNone(s[1..], others);
      assert s == [s[0]] + s[1..];
    }
  }

  lemma {:induction false} ExceptAppend<T>(a: seq<T>, b: seq<T>, others: seq<T>)
    ensures Except(a + b, others) == Except(a, others) + Except(b, others)
  {
    if a == [] {
      assert a + b == b;
    } else {
      assert (a + b)[1..] == a[1..] + b;
      ExceptAppend(a[1..], b, others);
    }
  }

  lemma {:induction false} ExceptSame<T>(s: seq<T>, a: seq<T>, b: seq<T>)
    requires forall c :: c in s ==> (c in a <==> c in b)
    ensures Except(s, a) == Except(s, b)
  {
    if s != [] {
      assert s[0] in s;
      ExceptSame(s[1..], a, b);
    }
  }
}
