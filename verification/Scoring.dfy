/** Round scores (server/internal/game/scoring.go) and where all the points of the deck go. */
module Scoring {
  import opened Cards
  import opened Melds
  import opened Rules
  import opened Engine

  datatype ScoreBreakdown = ScoreBreakdown(
    playerID: string,
    meldPoints: int,
    headBonus: int,
    knockBonus: int,
    knockCardBonus: int,
    handPenalty: int,
    dumpPenalty: int,
    total: int)

  // ----- what a round is worth ---------------------------------------------------------

  function InMeld(c: Card, m: Meld, rs: RuleSet): int {
    Points(c, rs, m.kind == Run && m.aceHigh && c.rank == ACE)
  }

  function MeldSum(m: Meld, cards: seq<Card>, rs: RuleSet): int {
    if cards == [] then 0
    else MeldSum(m, cards[..|cards| - 1], rs) + InMeld(cards[|cards| - 1], m, rs)
  }

  function MeldValue(m: Meld, rs: RuleSet): int {
    MeldSum(m, m.cards, rs)
  }

  function OwnedPoints(melds: seq<Meld>, q: int, rs: RuleSet): int {
    if melds == [] then 0
    else
      var m := melds[|melds| - 1];
      OwnedPoints(melds[..|melds| - 1], q, rs) + if m.owner == q then MeldValue(m, rs) else 0
  }

  function HandValue(hand: seq<Card>, rs: RuleSet): int {
    if hand == [] then 0
    else HandValue(hand[..|hand| - 1], rs) + HandCardPenalty(hand[|hand| - 1], rs)
  }

  function KnockBonusOf(s: State): int {
    s.rules.knockBonus * (if s.knockDark then s.rules.darkKnockMult else 1)
    * (if s.knockSuit then s.rules.sameSuitKnockMult else 1)
  }

  function ScoreOf(s: State, i: nat): ScoreBreakdown
    requires i < |s.players|
  {
    var meldPoints := OwnedPoints(s.melds, i, s.rules);
    var head := if s.headOwner == i then s.rules.headCardBonus else 0;
    var knock := if s.knocker == i then KnockBonusOf(s) else 0;
    var card := if s.knocker == i then s.rules.knockCardBonus else 0;
    var hand := -HandValue(s.players[i].hand, s.rules);
    var dump := if i < |s.dumpPenalties| then -s.dumpPenalties[i] else 0;
    ScoreBreakdown(s.players[i].id, meldPoints, head, knock, card, hand, dump,
                   meldPoints + head + knock + card + hand + dump)
  }

  // ----- the loops of scoring.go -------------------------------------------------------

  method MeldPoints(m: Meld, rs: RuleSet) returns (sum: int)
    ensures sum == MeldValue(m, rs)
  {
    sum := 0;
    for i := 0 to |m.cards|
      invariant sum == MeldSum(m, m.cards[..i], rs)
    {
      var c := m.cards[i];
      var aceHigh := m.kind == Run && m.aceHigh && c.rank == ACE;
      sum := sum + Points(c, rs, aceHigh);
      assert m.cards[..i + 1][..i] == m.cards[..i];
    }
    assert m.cards[..|m.cards|] == m.cards;
  }

  method HandPoints(hand: seq<Card>, rs: RuleSet) returns (pen: int)
    ensures pen == HandValue(hand, rs)
  {
    pen := 0;
    for i := 0 to |hand|
      invariant pen == HandValue(hand[..i], rs)
    {
      pen := pen + HandCardPenalty(hand[i], rs);
      assert hand[..i + 1][..i] == hand[..i];
    }
    assert hand[..|hand|] == hand;
  }

  /** Adds every meld's points to its owner's row. */
  method AddMeldPoints(rows: seq<ScoreBreakdown>, melds: seq<Meld>, rs: RuleSet)
    returns (out: seq<ScoreBreakdown>)
    requires forall i :: 0 <= i < |rows| ==> rows[i].meldPoints == 0
    ensures |out| == |rows|
    ensures forall i :: 0 <= i < |out| ==> out[i] == rows[i].(meldPoints := OwnedPoints(melds, i, rs))
  {
    out := rows;
    for k := 0 to |melds|
      invariant |out| == |rows|
      invariant forall i :: 0 <= i < |out| ==>
                  out[i] == rows[i].(meldPoints := OwnedPoints(melds[..k], i, rs))
    {
      var m := melds[k];
      assert melds[..k + 1][..k] == melds[..k];
      if 0 <= m.owner < |out| {
        var pts := MeldPoints(m, rs);
        out := out[m.owner := out[m.owner].(meldPoints := out[m.owner].meldPoints + pts)];
      }
    }
    assert melds[..|melds|] == melds;
  }

  method KnockBase(g: GameState) returns (base: int)
    ensures base == KnockBonusOf(g.Abs())
  {
    base := g.rules.knockBonus;
    if g.knockDark {
      base := base * g.rules.darkKnockMult;
    }
    if g.knockSuit {
      base := base * g.rules.sameSuitKnockMult;
    }
  }

  /** Every seat's melds and bonuses, before penalties. */
  method BonusRows(g: GameState) returns (rows: seq<ScoreBreakdown>)
    ensures |rows| == |g.players|
    ensures forall i :: 0 <= i < |rows| ==>
              rows[i] == ScoreOf(g.Abs(), i).(handPenalty := 0, dumpPenalty := 0, total := 0)
  {
    hide OwnedPoints, HandValue, KnockBonusOf;
    var n := |g.players|;
    var blank := seq(n, i requires 0 <= i < n reads g requires n == |g.players| =>
                       ScoreBreakdown(g.players[i].id, 0, 0, 0, 0, 0, 0, 0));
    rows := AddMeldPoints(blank, g.melds, g.rules);
    if 0 <= g.headOwner < n {
      rows := rows[g.headOwner := rows[g.headOwner].(headBonus := g.rules.headCardBonus)];
    }
    if 0 <= g.knocker < n {
      var base := KnockBase(g);
      rows := rows[g.knocker := rows[g.knocker].(knockBonus := base,
                                                knockCardBonus := g.rules.knockCardBonus)];
    }
  }

  method ScoreRound(g: GameState) returns (out: seq<ScoreBreakdown>)
    ensures |out| == |g.players|
    ensures forall i :: 0 <= i < |out| ==> out[i] == ScoreOf(g.Abs(), i)
  {
    hide OwnedPoints, HandValue, KnockBonusOf;
    var rows := BonusRows(g);
    out := [];
    for i := 0 to |g.players|
      invariant |out| == i
      invariant forall j :: 0 <= j < i ==> out[j] == ScoreOf(g.Abs(), j)
    {
      var pen := HandPoints(g.players[i].hand, g.rules);
      var dump := if i < |g.dumpPenalties| then -g.dumpPenalties[i] else 0;
      var r := rows[i].(handPenalty := -pen, dumpPenalty := dump);
      out := out + [r.(total := r.meldPoints + r.headBonus + r.knockBonus + r.knockCardBonus
                                + r.handPenalty + r.dumpPenalty)];
    }
  }
}
