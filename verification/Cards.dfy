/** Playing cards, the tunable rule set and card values
    (server/internal/game/card.go and ruleset.go). */
module Cards {
  type Suit = s: nat | s < 4
  type Rank = r: nat | 1 <= r <= 13 witness 1

  const CLUBS: Suit := 0
  const DIAMONDS: Suit := 1
  const HEARTS: Suit := 2
  const SPADES: Suit := 3

  const ACE: Rank := 1
  const TWO: Rank := 2
  const TEN: Rank := 10
  const QUEEN: Rank := 12
  const KING: Rank := 13

  datatype Card = Card(suit: Suit, rank: Rank)

  /** The constants the engine reads. The two function-valued fields of the original,
      HandSize and HandCardPenalty, are only ever set by `DefaultRuleSet` and are the
      functions of those names below. */
  datatype RuleSet = RuleSet(
    minPlayers: nat,
    maxPlayers: nat,
    minMeldLen: nat,
    spetoPoints: int,
    faceCardPoints: int,
    aceLowPoints: int,
    aceHighPoints: int,
    spetoCards: seq<Card>,
    knockBonus: int,
    knockCardBonus: int,
    headCardBonus: int,
    darkKnockMult: int,
    sameSuitKnockMult: int,
    dumpPenalty: int,
    targetScore: int)

  function DefaultRuleSet(): RuleSet {
    RuleSet(2, 4, 3, 50, 10, 1, 10, [Card(CLUBS, TWO), Card(SPADES, QUEEN)],
            50, 50, 50, 2, 2, 50, 500)
  }

  /** The rule sets a room can be created with: the defaults, a chosen target score, and
      melds of at least three or at least four cards (server/internal/room/hub.go). */
  predicate RoomRules(rs: RuleSet) {
    && rs == DefaultRuleSet().(minMeldLen := rs.minMeldLen, targetScore := rs.targetScore)
    && (rs.minMeldLen == 3 || rs.minMeldLen == 4)
  }

  function HandSize(numPlayers: nat): nat {
    if numPlayers == 2 then 11 else if numPlayers == 3 then 9 else 7
  }

  predicate IsSpeto(c: Card, rs: RuleSet) {
    c in rs.spetoCards
  }

  function Points(c: Card, rs: RuleSet, aceHigh: bool): int {
    if IsSpeto(c, rs) then rs.spetoPoints
    else if c.rank == ACE then (if aceHigh then rs.aceHighPoints else rs.aceLowPoints)
    else if c.rank >= TEN then rs.faceCardPoints
    else c.rank
  }

  function HandCardPenalty(c: Card, rs: RuleSet): int {
    Points(c, rs, false)
  }
}
