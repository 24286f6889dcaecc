/**
 * The world a Player sees in one turn, and the vocabulary both Player
 * variants share: directions, what a probed cell holds, health bands,
 * controller states and the actions a turn can issue.
 *
 * The game host is not modelled: a turn's world is an immutable record of
 * the answers `health`, `feel`, `look` and `directionOfStairs` give.
 */
module Dungeon {

  datatype Option<T> = None | Some(value: T)

  /** The relative directions of the game. */
  datatype Direction = Forward | Backward | Left | Right

  /** The `oppositeDirectionMap` of both Players (the linear one uses only its first two entries). */
  function Opposite(d: Direction): Direction
  {
    match d
    case Forward => Backward
    case Backward => Forward
    case Left => Right
    case Right => Left
  }

  /** The two directions the linear Player's opposite map knows about. */
  const Linear: set<Direction> := {Forward, Backward}

  lemma OppositeInvolutive(d: Direction)
    ensures Opposite(Opposite(d)) == d
    ensures Opposite(d) != d
    ensures d in Linear <==> Opposite(d) in Linear
  {
  }

  /**
   * What a space holds. Stairs are an empty space (the host's `isEmpty`
   * is true for them); a unit is hostile or not, and bound or not.
   * A space is exactly one of the three, which rules out the case in
   * which no classification rule fires.
   */
  datatype Cell = Empty(stairs: bool) | Wall | Unit(enemy: bool, bound: bool)
  {
    predicate IsEmpty() { Empty? }
    predicate IsStairs() { Empty? && stairs }
    predicate IsWall() { Wall? }
    predicate IsUnit() { Unit? }
  }

  /** One direction's answers: `feel(d)` and the line of sight `look(d)`, nearest first. */
  datatype Probe = Probe(feel: Cell, look: seq<Cell>)

  /** The host's line of sight starts with the adjacent space. */
  predicate Coherent(p: Probe)
  {
    |p.look| > 0 && p.look[0] == p.feel
  }

  /** Everything a Player can query in one turn. */
  datatype Senses = Senses(health: int,
                           forward: Probe, backward: Probe, left: Probe, right: Probe,
                           stairs: Direction)
  {
    function At(d: Direction): Probe
    {
      match d
      case Forward => forward
      case Backward => backward
      case Left => left
      case Right => right
    }

    function Feel(d: Direction): Cell { At(d).feel }
  }

  /** Health bands; injured implies battered, and healthy is the complement of battered. */
  predicate Injured(health: int) { health < 5 }
  predicate Battered(health: int) { health < 9 }
  predicate Healthy(health: int) { health >= 9 }

  /** The health a freshly constructed Player records as its last health. */
  const InitialHealth := 20

  /** The five controller states. */
  datatype State = Idle | Healing | Brave | Furious | Retreating

  /** The requests a turn can send to the host. */
  datatype Action = Rest | Walk(Direction) | Attack(Direction) | Shoot(Direction) | Rescue(Direction) | Pivot

  function AsSeq(a: Option<Action>): (s: seq<Action>)
    ensures |s| <= 1
    ensures a.None? ==> s == []
    ensures a.Some? ==> s == [a.value]
  {
    match a
    case None => []
    case Some(x) => [x]
  }

  /**
   * `look(d).findIndex(space => space.isUnit())`: the index of the nearest
   * unit in the line of sight, or -1 when there is none.
   */
  function FirstUnitIndex(sight: seq<Cell>): (r: int)
    ensures -1 <= r < |sight|
    ensures r == -1 <==> forall k :: 0 <= k < |sight| ==> !sight[k].Unit?
    ensures r >= 0 ==> sight[r].Unit? && forall k :: 0 <= k < r ==> !sight[k].Unit?
  {
    if sight == [] then -1
    else if sight[0].Unit? then 0
    else
      var r := FirstUnitIndex(sight[1..]);
      if r == -1 then -1 else r + 1
  }

  /**
   * The `underAttack` flags of a run of turns whose healths are `healths`,
   * starting from a recorded last health `last`: each turn compares with
   * the last health and then records its own health (refresh).
   */
  function AttackTrace(last: int, healths: seq<int>): (r: seq<bool>)
    ensures |r| == |healths|
    decreases |healths|
  {
    if healths == [] then []
    else [healths[0] < last] + AttackTrace(healths[0], healths[1..])
  }

  /** A turn is under attack exactly when its health is below the previous turn's health. */
  lemma {:induction false} AttackTraceExact(last: int, healths: seq<int>, i: nat)
    requires i < |healths|
    ensures AttackTrace(last, healths)[i] == (healths[i] < if i == 0 then last else healths[i - 1])
    decreases i
  {
    if i > 0 {
      AttackTraceExact(healths[0], healths[1..], i - 1);
    }
  }
}
