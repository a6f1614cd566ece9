/** The auto-knock solver (server/internal/game/autoknock.go): depth-first search for a way
    to lay down every card but one. The functions give the plan that the search returns,
    first hit first; the methods are the loops that compute it. */
module Solver {
  import opened Bags
  import opened Cards
  import opened Melds
  import opened LayOff

  datatype LayoffStep = LayoffStep(meldID: MeldId, cards: seq<Card>)

  datatype Plan = Plan(newMelds: seq<seq<Card>>, layoffs: seq<LayoffStep>, knockCard: Card)

  datatype Partition = Partition(newMelds: seq<seq<Card>>, layoffs: seq<LayoffStep>)

  function Pow2(n: nat): (r: nat)
    ensures r >= 1
  {
    if n == 0 then 1 else 2 * Pow2(n - 1)
  }

  /** The elements whose bit is set in the mask, lowest bit first. */
  function Chosen(s: seq<Card>, mask: nat): seq<Card>
    decreases s
  {
    if s == [] then []
    else (if mask % 2 == 1 then [s[0]] else []) + Chosen(s[1..], mask / 2)
  }

  function Remaining(s: seq<Card>, mask: nat): (r: seq<Card>)
    ensures |r| <= |s|
    decreases s
  {
    if s == [] then []
    else (if mask % 2 == 1 then [] else [s[0]]) + Remaining(s[1..], mask / 2)
  }

  function Group(cards: seq<Card>, mask: nat): seq<Card>
    requires cards != []
  {
    [cards[0]] + Chosen(cards[1..], mask)
  }

  function Without(cards: seq<Card>, k: nat): seq<Card>
    requires k < |cards|
  {
    cards[..k] + cards[k + 1..]
  }

  // ----- the search --------------------------------------------------------------------

  /** The first answer among the candidates i .. n-1. */
  ghost function FirstSome<T>(hit: nat -> Option<T>, i: nat, n: nat): Option<T>
    requires i <= n
    decreases n - i
  {
    if i == n then None
    else if hit(i).Some? then hit(i)
    else FirstSome(hit, i + 1, n)
  }

  ghost function Search(cards: seq<Card>, melds: seq<Meld>, minLen: nat): Option<Partition>
    decreases |cards|, 3
  {
    if cards == [] then Some(Partition([], []))
    else
      match FirstSome(MeldHits(cards, melds, minLen), 0, Pow2(|cards| - 1))
      case Some(q) => Some(q)
      case None => FirstSome(LayOffScans(cards, melds, minLen), 0, |melds|)
  }

  ghost function MeldHits(cards: seq<Card>, melds: seq<Meld>, minLen: nat)
    : nat -> Option<Partition>
    requires cards != []
    decreases |cards|, 1
  {
    (mask: nat) => MeldHit(cards, melds, minLen, mask)
  }

  /** The first card and the masked ones as a new meld, the others searched on. */
  ghost function MeldHit(cards: seq<Card>, melds: seq<Meld>, minLen: nat, mask: nat)
    : Option<Partition>
    requires cards != []
    decreases |cards|, 0
  {
    if Classify(multiset(Group(cards, mask)), minLen).None? then None
    else
      match Search(Remaining(cards[1..], mask), melds, minLen)
      case None => None
      case Some(q) => Some(Partition([Group(cards, mask)] + q.newMelds, q.layoffs))
  }

  ghost function LayOffScans(cards: seq<Card>, melds: seq<Meld>, minLen: nat)
    : nat -> Option<Partition>
    requires cards != []
    decreases |cards|, 2
  {
    (mi: nat) =>
      if mi < |melds| then FirstSome(LayOffHits(cards, melds, minLen, mi), 0, Pow2(|cards| - 1))
      else None
  }

  ghost function LayOffHits(cards: seq<Card>, melds: seq<Meld>, minLen: nat, mi: nat)
    : nat -> Option<Partition>
    requires cards != [] && mi < |melds|
    decreases |cards|, 1
  {
    (mask: nat) => LayOffHit(cards, melds, minLen, mi, mask)
  }

  /** The first card and the masked ones laid off onto meld mi, the others searched on. */
  ghost function LayOffHit(cards: seq<Card>, melds: seq<Meld>, minLen: nat, mi: nat, mask: nat)
    : Option<Partition>
    requires cards != [] && mi < |melds|
    decreases |cards|, 0
  {
    match LaidOff(melds[mi], Group(cards, mask), minLen)
    case None => None
    case Some(u) =>
      match Search(Remaining(cards[1..], mask), melds[mi := u], minLen)
      case None => None
      case Some(q) =>
        Some(Partition(q.newMelds, [LayoffStep(melds[mi].id, Group(cards, mask))] + q.layoffs))
  }

  ghost function KnockHits(hand: seq<Card>, melds: seq<Meld>, minLen: nat): nat -> Option<Plan> {
    (ki: nat) =>
      if ki >= |hand| then None
      else
        match Search(Without(hand, ki), melds, minLen)
        case None => None
        case Some(q) => Some(Plan(q.newMelds, q.layoffs, hand[ki]))
  }

  ghost function Solve(hand: seq<Card>, melds: seq<Meld>, minLen: nat): Option<Plan> {
    if |hand| < 2 then None else FirstSome(KnockHits(hand, melds, minLen), 0, |hand|)
  }

  // ----- the loops of autoknock.go -----------------------------------------------------

  method ChosenGroup(pin: Card, others: seq<Card>, mask: nat) returns (group: seq<Card>)
    ensures group == [pin] + Chosen(others, mask)
  {
    group := [pin];
    var bits := mask;
    for i := 0 to |others|
      invariant group + Chosen(others[i..], bits) == [pin] + Chosen(others, mask)
    {
      assert others[i..][0] == others[i] && others[i..][1..] == others[i + 1..];
      if bits % 2 == 1 {
        group := group + [others[i]];
      }
      bits := bits / 2;
    }
  }

  method RemainingByMask(others: seq<Card>, mask: nat) returns (out: seq<Card>)
    ensures out == Remaining(others, mask)
  {
    out := [];
    var bits := mask;
    for i := 0 to |others|
      invariant out + Remaining(others[i..], bits) == Remaining(others, mask)
    {
      assert others[i..][0] == others[i] && others[i..][1..] == others[i + 1..];
      if bits % 2 == 0 {
        out := out + [others[i]];
      }
      bits := bits / 2;
    }
  }

  /** One round of the loop over masks that tries new melds. */
  method TryMeldGroup(cards: seq<Card>, melds: seq<Meld>, owner: int, rs: RuleSet, mask: nat)
    returns (r: Option<Partition>)
    requires cards != []
    ensures r == MeldHit(cards, melds, rs.minMeldLen, mask)
    decreases |cards|, 0
  {
    var group := ChosenGroup(cards[0], cards[1..], mask);
    SeqBagSize(group);
    if |group| < rs.minMeldLen {
      return None;
    }
    var v := NewMeld(0, group, owner, rs);
    if v.Err? {
      return None;
    }
    var rest := RemainingByMask(cards[1..], mask);
    r := PartitionForKnock(rest, melds, owner, rs);
    if r.Some? {
      r := Some(Partition([group] + r.value.newMelds, r.value.layoffs));
    }
  }

  /** One round of the loop over masks that tries lay-offs onto one meld. */
  method TryLayOffGroup(cards: seq<Card>, melds: seq<Meld>, owner: int, rs: RuleSet, mi: nat,
                        mask: nat)
    returns (r: Option<Partition>)
    requires cards != [] && mi < |melds|
    ensures r == LayOffHit(cards, melds, rs.minMeldLen, mi, mask)
    decreases |cards|, 0
  {
    var group := ChosenGroup(cards[0], cards[1..], mask);
    var updated := CanLayOff(melds[mi], group, rs);
    if updated.Err? {
      return None;
    }
    var rest := RemainingByMask(cards[1..], mask);
    var next := melds[mi := updated.value];
    r := PartitionForKnock(rest, next, owner, rs);
    if r.Some? {
      var step := LayoffStep(melds[mi].id, group);
      r := Some(Partition(r.value.newMelds, [step] + r.value.layoffs));
    }
  }

  method PartitionForKnock(cards: seq<Card>, melds: seq<Meld>, owner: int, rs: RuleSet)
    returns (r: Option<Partition>)
    ensures r == Search(cards, melds, rs.minMeldLen)
    decreases |cards|, 1
  {
    if cards == [] {
      return Some(Partition([], []));
    }
    var n := |cards| - 1;
    ghost var groups := MeldHits(cards, melds, rs.minMeldLen);
    for mask := 0 to Pow2(n)
      invariant FirstSome(groups, 0, Pow2(n)) == FirstSome(groups, mask, Pow2(n))
    {
      assert groups(mask) == MeldHit(cards, melds, rs.minMeldLen, mask);
      r := TryMeldGroup(cards, melds, owner, rs, mask);
      if r.Some? {
        return;
      }
    }
    ghost var scans := LayOffScans(cards, melds, rs.minMeldLen);
    for mi := 0 to |melds|
      invariant FirstSome(scans, 0, |melds|) == FirstSome(scans, mi, |melds|)
    {
      ghost var hits := LayOffHits(cards, melds, rs.minMeldLen, mi);
      assert scans(mi) == FirstSome(hits, 0, Pow2(n));
      for mask := 0 to Pow2(n)
        invariant FirstSome(hits, 0, Pow2(n)) == FirstSome(hits, mask, Pow2(n))
      {
        assert hits(mask) == LayOffHit(cards, melds, rs.minMeldLen, mi, mask);
        r := TryLayOffGroup(cards, melds, owner, rs, mi, mask);
        if r.Some? {
          return;
        }
      }
    }
    return None;
  }

  method SolveAutoKnock(hand: seq<Card>, melds: seq<Meld>, p: int, rs: RuleSet)
    returns (r: Option<Plan>)
    ensures r == Solve(hand, melds, rs.minMeldLen)
  {
    if |hand| < 2 {
      return None;
    }
    ghost var hits := KnockHits(hand, melds, rs.minMeldLen);
    for ki := 0 to |hand|
      invariant FirstSome(hits, 0, |hand|) == FirstSome(hits, ki, |hand|)
    {
      var rest := hand[..ki] + hand[ki + 1..];
      var q := PartitionForKnock(rest, melds, p, rs);
      if q.Some? {
        return Some(Plan(q.value.newMelds, q.value.layoffs, hand[ki]));
      }
    }
    return None;
  }

  method CanAutoKnock(hand: seq<Card>, melds: seq<Meld>, p: int, rs: RuleSet)
    returns (ok: bool)
    ensures ok == Solve(hand, melds, rs.minMeldLen).Some?
  {
    var plan := SolveAutoKnock(hand, melds, p, rs);
    return plan.Some?;
  }
}
