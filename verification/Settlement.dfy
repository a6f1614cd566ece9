/** The coin settlement at the end of a match (server/internal/db/db.go), over a map of
    balances. */
module Settlement {
  import opened RoomModel

  datatype Tally = Tally(
    coins: map<string, int>,
    pot: int,
    deltas: map<string, int>,
    balances: map<string, int>)

  /** What a loser with `cur` coins pays. */
  function Paid(cur: int, perLoser: int): (paid: int)
    ensures cur >= 0 ==> 0 <= paid <= cur
    ensures cur >= 0 ==> paid == if perLoser <= 0 then 0 else if perLoser < cur then perLoser else cur
    ensures cur < 0 ==> paid == 0
  {
    var paid := if perLoser > cur then cur else perLoser;
    if paid < 0 then 0 else paid
  }

  function Charge(t: Tally, loser: string, perLoser: int): Tally
    requires loser in t.coins
  {
    var paid := Paid(t.coins[loser], perLoser);
    var left := t.coins[loser] - paid;
    Tally(t.coins[loser := left], t.pot + paid, t.deltas[loser := -paid], t.balances[loser := left])
  }

  predicate Known(coins: map<string, int>, guests: seq<string>) {
    forall i :: 0 <= i < |guests| ==> guests[i] in coins
  }

  /** The tally once every loser has been charged in turn. */
  function ChargeAll(coins: map<string, int>, losers: seq<string>, perLoser: int): (t: Tally)
    requires Known(coins, losers)
    ensures t.coins.Keys == coins.Keys
  {
    if losers == [] then Tally(coins, 0, map[], map[])
    else
      var n := |losers| - 1;
      Charge(ChargeAll(coins, losers[..n], perLoser), losers[n], perLoser)
  }

  function PayOut(t: Tally, winner: string): Tally
    requires winner in t.coins
  {
    var won := t.coins[winner] + t.pot;
    t.(coins := t.coins[winner := won], deltas := t.deltas[winner := t.pot],
       balances := t.balances[winner := won])
  }

  function Settled(coins: map<string, int>, winner: string, perLoser: int, losers: seq<string>): Tally
    requires Known(coins, losers) && winner in coins
  {
    PayOut(ChargeAll(coins, losers, perLoser), winner)
  }

  lemma NoOneCharged(coins: map<string, int>, perLoser: int)
    ensures ChargeAll(coins, [], perLoser) == Tally(coins, 0, map[], map[])
  {
  }

  lemma OneMoreCharged(coins: map<string, int>, losers: seq<string>, l: string, perLoser: int)
    requires Known(coins, losers) && l in coins
    ensures Known(coins, losers + [l])
    ensures ChargeAll(coins, losers + [l], perLoser)
         == Charge(ChargeAll(coins, losers, perLoser), l, perLoser)
  {
    assert (losers + [l])[..|losers|] == losers;
  }

  class Wallets {
    var coins: map<string, int>

    /** One loser's row of the transaction. */
    method ChargeLoser(l: string, perLoser: int) returns (paid: int, left: int)
      requires l in coins
      modifies this
      ensures paid == Paid(old(coins[l]), perLoser) && left == old(coins[l]) - paid
      ensures coins == old(coins)[l := left]
    {
      var cur := coins[l];
      paid := perLoser;
      if paid > cur {
        paid := cur;
      }
      if paid < 0 {
        paid := 0;
      }
      left := cur - paid;
      coins := coins[l := left];
    }

    /** One transaction: an unknown guest rolls everything back. */
    method SettleMatch(winner: string, perLoser: int, losers: seq<string>)
      returns (done: bool, deltas: map<string, int>, balances: map<string, int>)
      modifies this
      ensures done == (Known(old(coins), losers) && winner in old(coins))
      ensures done ==> var t := Settled(old(coins), winner, perLoser, losers);
                       coins == t.coins && deltas == t.deltas && balances == t.balances
      ensures !done ==> coins == old(coins)
    {
      hide Paid, ChargeAll;
      var before := coins;
      var pot := 0;
      deltas, balances := map[], map[];
      NoOneCharged(before, perLoser);
      assert losers[..0] == [];
      for i := 0 to |losers|
        invariant before == old(coins) && Known(before, losers[..i])
        invariant ChargeAll(before, losers[..i], perLoser) == Tally(coins, pot, deltas, balances)
      {
        var l := losers[i];
        if l !in coins {
          coins := before;
          return false, map[], map[];
        }
        OneMoreCharged(before, losers[..i], l, perLoser);
        assert losers[..i + 1] == losers[..i] + [l];
        var paid, left := ChargeLoser(l, perLoser);
        pot := pot + paid;
        deltas, balances := deltas[l := -paid], balances[l := left];
      }
      assert losers[..|losers|] == losers;
      if winner !in coins {
        coins := before;
        return false, map[], map[];
      }
      coins := coins[winner := coins[winner] + pot];
      deltas, balances := deltas[winner := pot], balances[winner := coins[winner]];
      return true, deltas, balances;
    }
  }

  // ----- conservation ------------------------------------------------------------------

  function SumOf(m: map<string, int>, guests: seq<string>): int
    requires forall g :: g in guests ==> g in m
  {
    if guests == [] then 0
    else SumOf(m, guests[..|guests| - 1]) + m[guests[|guests| - 1]]
  }

  predicate Different(guests: seq<string>) {
    forall i, j :: 0 <= i < j < |guests| ==> guests[i] != guests[j]
  }

  /** What one charged loser's entries are. */
  predicate ChargedOnce(t: Tally, l: string, cur: int, perLoser: int) {
    && l in t.deltas && l in t.balances && l in t.coins
    && t.deltas[l] == -Paid(cur, perLoser)
    && t.coins[l] == t.balances[l] == cur - Paid(cur, perLoser)
  }

  /** Charging a loser makes its entries and leaves everyone else's alone. */
  lemma ChargeEffect(u: Tally, l: string, perLoser: int)
    requires l in u.coins
    ensures var t := Charge(u, l, perLoser);
            && t.coins.Keys == u.coins.Keys && ChargedOnce(t, l, u.coins[l], perLoser)
            && (forall g :: g in u.coins && g != l ==> t.coins[g] == u.coins[g])
            && t.pot >= u.pot
  {
    PaysAtLeastNothing(u.coins[l], perLoser);
    hide Paid;
  }

  lemma StaysCharged(u: Tally, l: string, perLoser: int, k: string, cur: int)
    requires l in u.coins && k != l && ChargedOnce(u, k, cur, perLoser)
    ensures ChargedOnce(Charge(u, l, perLoser), k, cur, perLoser)
  {
    hide Paid;
  }

  /** Charging some losers changes only their balances, each by what it pays. */
  lemma {:induction false} ChargedSoFar(coins: map<string, int>, losers: seq<string>, perLoser: int)
    requires Different(losers) && Known(coins, losers)
    ensures var t := ChargeAll(coins, losers, perLoser);
            && (forall i :: 0 <= i < |losers| ==> ChargedOnce(t, losers[i], coins[losers[i]], perLoser))
            && (forall g :: g in coins && g !in losers ==> t.coins[g] == coins[g])
            && t.pot >= 0
  {
    hide Charge, ChargedOnce;
    if losers != [] {
      var n := |losers| - 1;
      var init, l := losers[..n], losers[n];
      var u := ChargeAll(coins, init, perLoser);
      ChargedSoFar(coins, init, perLoser);
      assert losers == init + [l];
      assert l !in init;
      ChargeEffect(u, l, perLoser);
      forall i | 0 <= i < n
        ensures ChargedOnce(Charge(u, l, perLoser), losers[i], coins[losers[i]], perLoser)
      {
        assert losers[i] == init[i];
        StaysCharged(u, l, perLoser, init[i], coins[init[i]]);
      }
    }
  }

  lemma PaysAtLeastNothing(cur: int, perLoser: int)
    ensures Paid(cur, perLoser) >= 0
  {
  }

  lemma {:induction false} PotIsSum(coins: map<string, int>, losers: seq<string>, perLoser: int,
                                    deltas: map<string, int>)
    requires Different(losers) && Known(coins, losers)
    requires forall l :: l in losers ==> l in deltas && deltas[l] == -Paid(coins[l], perLoser)
    ensures ChargeAll(coins, losers, perLoser).pot == -SumOf(deltas, losers)
  {
    hide Paid;
    if losers != [] {
      var n := |losers| - 1;
      var init := losers[..n];
      assert losers == init + [losers[n]];
      PotIsSum(coins, init, perLoser, deltas);
      ChargedSoFar(coins, init, perLoser);
      assert losers[n] !in init;
    }
  }

  /** For distinct losers and another guest as winner: each loser pays what it must and can,
      the winner receives exactly that, nobody else is touched, the deltas add up to nothing,
      no balance turns negative, and the balances reported are the new ones. */
  lemma SettlementConserves(coins: map<string, int>, winner: string, perLoser: int, losers: seq<string>)
    requires Known(coins, losers) && winner in coins && Different(losers) && winner !in losers
    ensures var t := Settled(coins, winner, perLoser, losers);
            && winner in t.deltas && t.coins.Keys == coins.Keys
            && (forall l :: l in losers ==> ChargedOnce(t, l, coins[l], perLoser))
            && SumOf(t.deltas, losers) + t.deltas[winner] == 0
            && t.coins[winner] == t.balances[winner] == coins[winner] + t.deltas[winner]
            && (forall g :: g in coins && g != winner && g !in losers ==> t.coins[g] == coins[g])
            && ((forall g :: g in coins ==> coins[g] >= 0) ==> forall g :: g in t.coins ==> t.coins[g] >= 0)
  {
    var u, t := ChargeAll(coins, losers, perLoser), Settled(coins, winner, perLoser, losers);
    ChargedSoFar(coins, losers, perLoser);
    forall l | l in losers ensures l in coins && ChargedOnce(u, l, coins[l], perLoser) {
      var i :| 0 <= i < |losers| && losers[i] == l;
    }
    PotIsSum(coins, losers, perLoser, t.deltas);
  }

  /** The losers a finished match collects: every seated guest but the winner. */
  function LosersOf(seats: seq<Seat>, winner: string): seq<string> {
    if seats == [] then []
    else
      var g := seats[|seats| - 1].guestID;
      LosersOf(seats[..|seats| - 1], winner) + if g == winner then [] else [g]
  }

  predicate Sits(seats: seq<Seat>, g: string) {
    exists i :: 0 <= i < |seats| && seats[i].guestID == g
  }

  lemma SitsOrIsLast(seats: seq<Seat>, g: string)
    requires seats != []
    ensures Sits(seats, g) <==> Sits(seats[..|seats| - 1], g) || g == seats[|seats| - 1].guestID
  {
    var n := |seats| - 1;
    if i :| 0 <= i < |seats| && seats[i].guestID == g && i < n {
      assert seats[..n][i].guestID == g;
    }
    if i :| 0 <= i < n && seats[..n][i].guestID == g {
      assert seats[i].guestID == g;
    }
  }

  lemma LastGuestIsNew(seats: seq<Seat>)
    requires DistinctGuests(seats) && seats != []
    ensures DistinctGuests(seats[..|seats| - 1])
    ensures !Sits(seats[..|seats| - 1], seats[|seats| - 1].guestID)
  {
  }

  lemma DifferentWithOneMore(gs: seq<string>, g: string)
    requires Different(gs) && g !in gs
    ensures Different(gs + [g])
  {
  }

  /** A room's losers are distinct and are the seated guests but the winner, as settlement
      needs. */
  lemma {:induction false} RoomLosersAreDistinct(seats: seq<Seat>, winner: string)
    requires DistinctGuests(seats)
    ensures Different(LosersOf(seats, winner)) && winner !in LosersOf(seats, winner)
    ensures forall g :: g in LosersOf(seats, winner) <==> g != winner && Sits(seats, g)
  {
    if seats != [] {
      hide DistinctGuests, Different, Sits;
      var n := |seats| - 1;
      var before, last := LosersOf(seats[..n], winner), seats[n].guestID;
      LastGuestIsNew(seats);
      RoomLosersAreDistinct(seats[..n], winner);
      DifferentWithOneMore(before, last);
      forall g ensures g in LosersOf(seats, winner) <==> g != winner && Sits(seats, g) {
        SitsOrIsLast(seats, g);
      }
    }
  }
}
