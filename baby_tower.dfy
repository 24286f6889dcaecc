/**
 * The linear Player (baby_tower.js): it senses forward and backward, with
 * line of sight, and ends every turn and every scan facing forward.
 *
 * The module first gives the meaning of each step as functions on the
 * turn's world (classification, the transition table, the explore
 * decision), then the Player class whose methods follow the source and are
 * proved against those functions.
 */
module BabyTower {
  import opened Dungeon
  import opened Tags

  /** The `surroundings` object; a direction missing from the map is a slot still holding `false`. */
  type Surroundings = map<Direction, Observation>

  // ---- the host queries behind the classification rules ----

  /** `enemyInFront`: the adjacent space holds an enemy. */
  predicate EnemyAdjacent(p: Probe)
  {
    !p.feel.IsEmpty() && p.feel.IsUnit() && p.feel.enemy
  }

  /** `allyInFront`: the adjacent space holds a non-enemy unit. */
  predicate AllyAdjacent(p: Probe)
  {
    !p.feel.IsEmpty() && p.feel.IsUnit() && !p.feel.enemy
  }

  /** `enemyAhead`: the nearest unit in the line of sight is an enemy. */
  predicate EnemySighted(p: Probe)
  {
    var i := FirstUnitIndex(p.look);
    i >= 0 && p.look[i].enemy
  }

  /** `allyAhead`: the nearest unit in the line of sight is not an enemy. */
  predicate AllySighted(p: Probe)
  {
    var i := FirstUnitIndex(p.look);
    i >= 0 && !p.look[i].enemy
  }

  /** `enemyIsArcherOrWizard`: the nearest unit is at distance 3 (no unit gives distance 0). */
  predicate AtRange(p: Probe)
  {
    FirstUnitIndex(p.look) + 1 == 3
  }

  /**
   * The tag `lookInOneDirection` leaves for a direction. The source applies
   * seven rules in order, each overwriting the last; this reads them from
   * the last rule back to the first, so the first rule that fires here wins.
   */
  function Classify(p: Probe): (r: Observation)
    ensures r == WallInFront <==> p.feel.Wall?
    ensures r == AllyInFront <==> p.feel.Unit? && !p.feel.enemy
  {
    if p.feel.IsWall() then WallInFront
    else if AllyAdjacent(p) then AllyInFront
    else if AllySighted(p) then AllyAhead
    else if EnemyAdjacent(p) then EnemyInFront
    else if EnemySighted(p) then (if AtRange(p) then RangedEnemyAhead else MeleeEnemyAhead)
    else if p.feel.IsStairs() then StairsInFront
    else NothingInFront
  }

  /** What the overwrites resolve to: wall beats everything, an adjacent ally beats one further along. */
  lemma ClassifyPrecedence(p: Probe)
    ensures p.feel.Wall? ==> Classify(p) == WallInFront
    ensures Classify(p) == AllyInFront <==> p.feel.Unit? && !p.feel.enemy
    ensures Classify(p) == EnemyInFront <==> p.feel.Unit? && p.feel.enemy && !AllySighted(p)
    ensures Classify(p) == RangedEnemyAhead <==> p.feel.Empty? && EnemySighted(p) && AtRange(p)
    ensures Classify(p) == MeleeEnemyAhead <==> p.feel.Empty? && EnemySighted(p) && !AtRange(p)
  {
  }

  /**
   * With a line of sight that starts at the adjacent space, an adjacent
   * unit always wins over the line of sight, and the nearest enemy further
   * along is ranged exactly when it is the third space.
   */
  lemma ClassifyCoherent(p: Probe)
    requires Coherent(p)
    ensures p.feel.Unit? ==> Classify(p) == if p.feel.enemy then EnemyInFront else AllyInFront
    ensures p.feel.Empty? ==>
      var i := FirstUnitIndex(p.look);
      Classify(p) ==
        if i < 0 then (if p.feel.stairs then StairsInFront else NothingInFront)
        else if !p.look[i].enemy then AllyAhead
        else if i == 2 then RangedEnemyAhead
        else MeleeEnemyAhead
    ensures p.feel.Empty? && FirstUnitIndex(p.look) >= 0 ==> FirstUnitIndex(p.look) >= 1
  {
  }

  /** `lookAround` while facing forward: the two directions, each classified. */
  function Scan(w: Senses): Surroundings
  {
    map[Forward := Classify(w.forward), Backward := Classify(w.backward)]
  }

  /** `enemiesAround`: forward or backward matches "Enemy" (case-sensitive). */
  predicate EnemiesAround(s: Surroundings)
    requires Forward in s && Backward in s
  {
    Match(s[Forward], "Enemy") || Match(s[Backward], "Enemy")
  }

  /** `rangedEnemiesAround`: forward or backward matches "rangedEnemy". */
  predicate RangedEnemiesAround(s: Surroundings)
    requires Forward in s && Backward in s
  {
    Match(s[Forward], "rangedEnemy") || Match(s[Backward], "rangedEnemy")
  }

  /** `checkStuffOnTheLeft`: the backward tag matches /enemy|ally/i. */
  predicate StuffOnTheLeft(w: Senses)
  {
    MatchEnemyOrAlly(Scan(w)[Backward])
  }

  /** There is stuff on the left exactly when the backward tag is one of the five unit tags. */
  lemma StuffOnTheLeftTags(w: Senses)
    ensures StuffOnTheLeft(w) <==>
      Classify(w.backward) in {RangedEnemyAhead, MeleeEnemyAhead, EnemyInFront, AllyAhead, AllyInFront}
    ensures Coherent(w.backward) ==>
      (StuffOnTheLeft(w) <==> !w.backward.feel.Wall? && FirstUnitIndex(w.backward.look) >= 0)
  {
    EnemyOrAllyMatch(Classify(w.backward));
  }

  /**
   * The transition table `analyzeSituation` implements: the state after one
   * analysis, given the state before, the world and `underAttack`.
   */
  function NextState(s: State, w: Senses, underAttack: bool): (r: State)
    ensures r == Idle ==> s != Idle && s != Healing
    ensures r == Furious ==> s != Idle && s != Retreating
  {
    var sur := Scan(w);
    match s
    case Idle =>
      if !Healthy(w.health) && !RangedEnemiesAround(sur) && (EnemiesAround(sur) || Injured(w.health))
      then Healing else Brave
    case Healing => if underAttack then Furious else if Healthy(w.health) then Brave else Healing
    case Brave => if !Battered(w.health) then Brave else if underAttack then Furious else Idle
    case Furious => if EnemyAdjacent(w.forward) then Furious else Idle
    case Retreating => if EnemyAdjacent(w.forward) then Retreating else Idle
  }

  /**
   * From idle the controller never stays idle; it heals exactly when it is
   * not healthy, neither side shows a ranged enemy, and either side shows a
   * line-of-sight enemy (an adjacent one does not count) or it is injured.
   */
  lemma IdleTransition(w: Senses, underAttack: bool)
    ensures NextState(Idle, w, underAttack) != Idle
    ensures
      var f, b := Classify(w.forward), Classify(w.backward);
      NextState(Idle, w, underAttack) == Healing <==>
        && !Healthy(w.health)
        && f != RangedEnemyAhead && b != RangedEnemyAhead
        && (f == MeleeEnemyAhead || b == MeleeEnemyAhead || Injured(w.health))
  {
    EnemyMatch(Classify(w.forward));
    EnemyMatch(Classify(w.backward));
    RangedEnemyMatch(Classify(w.forward));
    RangedEnemyMatch(Classify(w.backward));
  }

  /**
   * The brave rules test injured first and battered after, and injured
   * implies battered, so the retreating choice is always overwritten: no
   * analysis, and so no turn, enters the retreating state.
   */
  lemma RetreatingUnreachable(s: State, w: Senses, underAttack: bool)
    requires s != Retreating
    ensures NextState(s, w, underAttack) != Retreating
    ensures Settle(s, w, underAttack) != Retreating
    ensures NextState(Brave, w, underAttack) == Furious <==> Battered(w.health) && underAttack
  {
  }

  /** The state a turn settles in: a second analysis follows one that ends idle. */
  function Settle(s: State, w: Senses, underAttack: bool): State
  {
    var n := NextState(s, w, underAttack);
    if n == Idle then NextState(Idle, w, underAttack) else n
  }

  /** What one `runStateMachine` call does: the action issued, whether the turn is used, the flags. */
  datatype Step = Step(action: Option<Action>, acted: bool, foundStairs: bool, foundWall: bool)

  /** Classify answers `allyInFront` only for an adjacent ally, so `isAllyCaptive` can ask the unit. */
  lemma AllyInFrontIsUnit(p: Probe)
    requires Classify(p) == AllyInFront
    ensures p.feel.Unit? && !p.feel.enemy
  {
  }

  /** The decision `explore` takes, facing forward. */
  function ExploreStep(w: Senses, foundStairs: bool, foundWall: bool, stuffOnTheLeft: bool): Step
  {
    var sur := Scan(w);
    if sur[Backward] == RangedEnemyAhead then Step(Some(Pivot), true, foundStairs, foundWall)
    else match sur[Forward]
      case EnemyInFront => Step(Some(Attack(Forward)), true, foundStairs, foundWall)
      case AllyInFront =>
        AllyInFrontIsUnit(w.forward);
        Step(if w.forward.feel.bound then Some(Rescue(Forward)) else None, true, foundStairs, foundWall)
      case AllyAhead => Step(Some(Walk(Forward)), true, foundStairs, foundWall)
      case RangedEnemyAhead => Step(Some(Shoot(Forward)), true, foundStairs, foundWall)
      case MeleeEnemyAhead => Step(Some(Shoot(Forward)), true, foundStairs, foundWall)
      case WallInFront => Step(Some(Pivot), true, foundStairs, true)
      case StairsInFront =>
        if !foundStairs && !foundWall && stuffOnTheLeft then Step(Some(Pivot), true, true, foundWall)
        else Step(Some(Walk(Forward)), true, foundStairs, foundWall)
      case NothingInFront => Step(Some(Walk(Forward)), true, foundStairs, foundWall)
  }

  /** `runStateMachine` facing forward: idle does nothing; every other state uses the turn. */
  function RunStep(s: State, w: Senses, foundStairs: bool, foundWall: bool, stuffOnTheLeft: bool): Step
  {
    match s
    case Idle => Step(None, false, foundStairs, foundWall)
    case Healing => Step(Some(Rest), true, foundStairs, foundWall)
    case Brave => ExploreStep(w, foundStairs, foundWall, stuffOnTheLeft)
    case Furious => ExploreStep(w, foundStairs, foundWall, stuffOnTheLeft)
    case Retreating => Step(Some(Walk(Backward)), true, foundStairs, foundWall)
  }

  /**
   * A turn ends after its first analysis or its second: the settled state is
   * never idle, so its run always uses the turn; the flags only ever go from
   * false to true.
   */
  lemma TurnSettles(s: State, w: Senses, underAttack: bool, foundStairs: bool, foundWall: bool, stuff: bool)
    ensures Settle(s, w, underAttack) != Idle
    ensures var r := RunStep(Settle(s, w, underAttack), w, foundStairs, foundWall, stuff);
      && r.acted
      && (foundStairs ==> r.foundStairs) && (foundWall ==> r.foundWall)
  {
    IdleTransition(w, underAttack);
  }

  /** A run uses the turn exactly when the state is not idle. */
  lemma RunActs(s: State, w: Senses, foundStairs: bool, foundWall: bool, stuff: bool)
    ensures RunStep(s, w, foundStairs, foundWall, stuff).acted <==> s != Idle
  {
  }

  /** A ranged enemy behind makes explore pivot, whatever is ahead, and changes no flag. */
  lemma RangedBehindPivots(w: Senses, foundStairs: bool, foundWall: bool, stuff: bool)
    requires Classify(w.backward) == RangedEnemyAhead
    ensures ExploreStep(w, foundStairs, foundWall, stuff) == Step(Some(Pivot), true, foundStairs, foundWall)
  {
  }

  /**
   * The stairs pivot needs stairs not yet found, no wall found and stuff on
   * the left, and it records the stairs; so once it happened, a pivot can
   * only come from a ranged enemy behind or a wall ahead.
   */
  lemma StairsPivotOnce(w: Senses, foundStairs: bool, foundWall: bool, stuff: bool)
    ensures Classify(w.backward) != RangedEnemyAhead && Classify(w.forward) == StairsInFront ==>
      ExploreStep(w, foundStairs, foundWall, stuff).action ==
        if !foundStairs && !foundWall && stuff then Some(Pivot) else Some(Walk(Forward))
    ensures var r := ExploreStep(w, true, foundWall, stuff);
      r.action == Some(Pivot) ==>
        Classify(w.backward) == RangedEnemyAhead || Classify(w.forward) == WallInFront
    ensures var r := ExploreStep(w, false, foundWall, stuff);
      r.foundStairs <==>
        Classify(w.backward) != RangedEnemyAhead && Classify(w.forward) == StairsInFront && !foundWall && stuff
  {
  }

  /** An unbound ally ahead uses the turn without any action. */
  lemma UnboundAllyWastesTurn(w: Senses, foundStairs: bool, foundWall: bool, stuff: bool)
    requires Classify(w.backward) != RangedEnemyAhead && Classify(w.forward) == AllyInFront
    requires !w.forward.feel.bound
    ensures ExploreStep(w, foundStairs, foundWall, stuff) == Step(None, true, foundStairs, foundWall)
  {
  }

  class Player {
    var state: State
    var acted: bool
    var lastHealth: int
    var underAttack: bool
    var direction: Direction
    var reverseDirection: Direction
    var foundStairs: bool
    var foundWall: bool
    /** `thereIsStuffOnTheLeft`; false stands for the `null` the source stores when nothing matched. */
    var stuffOnTheLeft: bool

    ghost predicate FacingForward()
      reads this
    {
      direction == Forward && reverseDirection == Backward
    }

    /** Between turns: facing forward and the turn flag cleared. */
    ghost predicate Valid()
      reads this
    {
      FacingForward() && !acted
    }

    constructor ()
      ensures Valid()
      ensures state == Idle && lastHealth == InitialHealth && !underAttack
      ensures !foundStairs && !foundWall && !stuffOnTheLeft
    {
      state := Idle;
      acted := false;
      lastHealth := InitialHealth;
      underAttack := false;
      direction := Forward;
      reverseDirection := Backward;
      foundStairs := false;
      foundWall := false;
      stuffOnTheLeft := false;
    }

    /**
     * One turn: status, the left-side check while it has found nothing,
     * analysis and run until the turn is used, then refresh. Returns the
     * actions issued and the number of analysis cycles.
     */
    method PlayTurn(w: Senses) returns (actions: seq<Action>, cycles: nat)
      requires Valid()
      modifies this
      ensures Valid()
      ensures underAttack == (w.health < old(lastHealth)) && lastHealth == w.health
      ensures stuffOnTheLeft == (old(stuffOnTheLeft) || StuffOnTheLeft(w))
      ensures state == Settle(old(state), w, underAttack) && state != Idle
      ensures cycles == if NextState(old(state), w, underAttack) == Idle then 2 else 1
      ensures var r := RunStep(state, w, old(foundStairs), old(foundWall), stuffOnTheLeft);
        actions == AsSeq(r.action) && foundStairs == r.foundStairs && foundWall == r.foundWall
    {
      CheckUnderAttack(w);
      if !stuffOnTheLeft {
        stuffOnTheLeft := CheckStuffOnTheLeft(w);
      }
      actions, cycles := ActUntilDone(w);
      Refresh(w);
    }

    /** The `while (this.acted == false)` loop of `playTurn`: analyse and run until the turn is used. */
    method ActUntilDone(w: Senses) returns (actions: seq<Action>, cycles: nat)
      requires Valid()
      modifies this`state, this`acted, this`foundStairs, this`foundWall, this`direction, this`reverseDirection
      ensures FacingForward() && acted
      ensures state == Settle(old(state), w, underAttack) && state != Idle
      ensures cycles == if NextState(old(state), w, underAttack) == Idle then 2 else 1
      ensures var r := RunStep(state, w, old(foundStairs), old(foundWall), stuffOnTheLeft);
        actions == AsSeq(r.action) && foundStairs == r.foundStairs && foundWall == r.foundWall
    {
      actions, cycles := [], 0;
      ghost var first := NextState(state, w, underAttack);
      ghost var settled := Settle(state, w, underAttack);
      ghost var step := RunStep(settled, w, foundStairs, foundWall, stuffOnTheLeft);
      TurnSettles(state, w, underAttack, foundStairs, foundWall, stuffOnTheLeft);
      while !acted
        invariant FacingForward()
        invariant cycles <= 2 && (!acted ==> cycles < 2)
        invariant !acted ==> actions == [] && foundStairs == old(foundStairs) && foundWall == old(foundWall)
        invariant !acted && cycles == 0 ==> state == old(state)
        invariant !acted && cycles == 1 ==> state == Idle && first == Idle
        invariant acted ==> state == settled && cycles == (if first == Idle then 2 else 1)
        invariant acted ==> actions == AsSeq(step.action) && foundStairs == step.foundStairs && foundWall == step.foundWall
        decreases 2 - cycles
      {
        AnalyzeSituation(w);
        assert state == settled || state == Idle;
        RunActs(state, w, foundStairs, foundWall, stuffOnTheLeft);
        var issued := RunStateMachine(w);
        actions := actions + AsSeq(issued);
        cycles := cycles + 1;
      }
    }

    method Refresh(w: Senses)
      modifies this`acted, this`lastHealth
      ensures !acted && lastHealth == w.health
    {
      acted := false;
      lastHealth := w.health;
    }

    /** `checkStatus` / `checkUnderAttack`. */
    method CheckUnderAttack(w: Senses)
      modifies this`underAttack
      ensures underAttack == (w.health < lastHealth)
    {
      if w.health < lastHealth {
        underAttack := true;
      } else {
        underAttack := false;
      }
    }

    method CheckStuffOnTheLeft(w: Senses) returns (stuff: bool)
      requires FacingForward()
      modifies this`direction, this`reverseDirection
      ensures FacingForward()
      ensures stuff == StuffOnTheLeft(w)
    {
      var surroundings := LookAround(w);
      stuff := MatchEnemyOrAlly(surroundings[Backward]);
    }

    /** The sequence of `setState` overwrites, which settles on the transition table's state. */
    method AnalyzeSituation(w: Senses)
      requires FacingForward()
      modifies this`state, this`direction, this`reverseDirection
      ensures FacingForward()
      ensures state == NextState(old(state), w, underAttack)
    {
      var surroundings := LookAround(w);
      var enemiesAround := EnemiesAround(surroundings);
      var rangedEnemiesAround := RangedEnemiesAround(surroundings);
      var current := state;
      match current {
        case Idle =>
          if !Healthy(w.health) && enemiesAround {
            state := Healing;
          } else {
            state := Brave;
          }
          if Injured(w.health) && !enemiesAround {
            state := Healing;
          }
          if Healthy(w.health) || rangedEnemiesAround {
            state := Brave;
          }
        case Healing =>
          if Healthy(w.health) {
            state := Brave;
          }
          if underAttack {
            state := Furious;
          }
        case Brave =>
          if Injured(w.health) {
            state := Retreating;
          }
          if Battered(w.health) && !underAttack {
            state := Idle;
          }
          if Battered(w.health) && underAttack {
            state := Furious;
          }
        case Furious =>
          if !EnemyInFront(w) {
            state := Idle;
          }
        case Retreating =>
          if !EnemyInFront(w) {
            state := Idle;
          }
      }
    }

    method RunStateMachine(w: Senses) returns (issued: Option<Action>)
      requires FacingForward()
      modifies this`acted, this`foundStairs, this`foundWall, this`direction, this`reverseDirection
      ensures FacingForward()
      ensures var r := RunStep(state, w, old(foundStairs), old(foundWall), stuffOnTheLeft);
        && issued == r.action && acted == (old(acted) || r.acted)
        && foundStairs == r.foundStairs && foundWall == r.foundWall
    {
      match state {
        case Idle =>
          issued := None;
        case Healing =>
          issued := Heal();
        case Brave =>
          issued := Explore(w);
        case Furious =>
          issued := Explore(w);
        case Retreating =>
          issued := Retreat();
      }
    }

    method Heal() returns (issued: Option<Action>)
      modifies this`acted
      ensures acted && issued == Some(Rest)
    {
      issued := Some(Rest);
      acted := true;
    }

    method Explore(w: Senses) returns (issued: Option<Action>)
      requires FacingForward()
      modifies this`acted, this`foundStairs, this`foundWall, this`direction, this`reverseDirection
      ensures FacingForward() && acted
      ensures var r := ExploreStep(w, old(foundStairs), old(foundWall), stuffOnTheLeft);
        issued == r.action && foundStairs == r.foundStairs && foundWall == r.foundWall
    {
      var surroundings := LookAround(w);
      if surroundings[Backward] == RangedEnemyAhead {
        issued := Some(Pivot);
      } else {
        match surroundings[Forward] {
          case EnemyInFront =>
            issued := Some(Attack(direction));
          case AllyInFront =>
            AllyInFrontIsUnit(w.At(direction));
            if IsAllyCaptive(w) {
              issued := Some(Rescue(direction));
            } else {
              issued := None;
            }
          case AllyAhead =>
            issued := Some(Walk(direction));
          case RangedEnemyAhead =>
            issued := Some(Shoot(direction));
          case MeleeEnemyAhead =>
            issued := Some(Shoot(direction));
          case WallInFront =>
            foundWall := true;
            issued := Some(Pivot);
          case StairsInFront =>
            if !foundStairs && !foundWall && stuffOnTheLeft {
              foundStairs := true;
              issued := Some(Pivot);
            } else {
              issued := Some(Walk(direction));
            }
          case NothingInFront =>
            issued := Some(Walk(direction));
        }
      }
      acted := true;
    }

    /** Classify the facing direction, spin, classify the other one, spin back. */
    method LookAround(w: Senses) returns (surroundings: Surroundings)
      requires direction in Linear && reverseDirection == Opposite(direction)
      modifies this`direction, this`reverseDirection
      ensures direction == old(direction) && reverseDirection == old(reverseDirection)
      ensures surroundings == map[direction := Classify(w.At(direction)),
                                  Opposite(direction) := Classify(w.At(Opposite(direction)))]
    {
      surroundings := map[];
      surroundings := LookInOneDirection(w, surroundings);
      Spin();
      surroundings := LookInOneDirection(w, surroundings);
      Spin();
    }

    /** The seven rules, in source order, each overwriting the facing direction's slot. */
    method LookInOneDirection(w: Senses, surroundings: Surroundings) returns (result: Surroundings)
      ensures result == surroundings[direction := Classify(w.At(direction))]
    {
      result := surroundings;
      if w.Feel(direction).IsEmpty() {
        result := result[direction := NothingInFront];
      }
      if w.Feel(direction).IsStairs() {
        result := result[direction := StairsInFront];
      }
      if EnemyAhead(w) {
        if EnemyIsArcherOrWizard(w) {
          result := result[direction := RangedEnemyAhead];
        } else {
          result := result[direction := MeleeEnemyAhead];
        }
      }
      if EnemyInFront(w) {
        result := result[direction := Observation.EnemyInFront];
      }
      if AllyAhead(w) {
        result := result[direction := Observation.AllyAhead];
      }
      if AllyInFront(w) {
        result := result[direction := Observation.AllyInFront];
      }
      if WallInFront(w) {
        result := result[direction := Observation.WallInFront];
      }
    }

    method Retreat() returns (issued: Option<Action>)
      modifies this`acted
      ensures acted && issued == Some(Walk(reverseDirection))
    {
      issued := Some(Walk(reverseDirection));
      acted := true;
    }

    /** `enemyInFront`: the `isEmpty` test is redundant, a unit space is never empty. */
    function EnemyInFront(w: Senses): (r: bool)
      reads this
      ensures r <==> w.Feel(direction).Unit? && w.Feel(direction).enemy
    {
      EnemyAdjacent(w.At(direction))
    }

    /** `enemyAhead`: the nearest unit in the line of sight exists and is an enemy. */
    function EnemyAhead(w: Senses): (r: bool)
      reads this
      ensures var sight := w.At(direction).look;
        r <==> exists i :: 0 <= i < |sight| && sight[i].Unit? && sight[i].enemy &&
                           forall k :: 0 <= k < i ==> !sight[k].Unit?
    {
      EnemySighted(w.At(direction))
    }

    /** `enemyIsArcherOrWizard`: the third space holds the nearest unit. */
    function EnemyIsArcherOrWizard(w: Senses): (r: bool)
      reads this
      ensures var sight := w.At(direction).look;
        r <==> |sight| >= 3 && !sight[0].Unit? && !sight[1].Unit? && sight[2].Unit?
    {
      AtRange(w.At(direction))
    }

    /** `allyAhead`: the nearest unit in the line of sight exists and is not an enemy. */
    function AllyAhead(w: Senses): (r: bool)
      reads this
      ensures var sight := w.At(direction).look;
        r <==> exists i :: 0 <= i < |sight| && sight[i].Unit? && !sight[i].enemy &&
                           forall k :: 0 <= k < i ==> !sight[k].Unit?
    {
      AllySighted(w.At(direction))
    }

    /** `allyInFront`: any unit that is not an enemy, bound or not. */
    function AllyInFront(w: Senses): (r: bool)
      reads this
      ensures r <==> w.Feel(direction).Unit? && !w.Feel(direction).enemy
    {
      AllyAdjacent(w.At(direction))
    }

    /** `feel(direction).getUnit().isBound()`; the source only asks with a unit there. */
    function IsAllyCaptive(w: Senses): (r: bool)
      reads this
      requires w.Feel(direction).Unit?
      ensures r == w.Feel(direction).bound
    {
      w.Feel(direction).bound
    }

    function WallInFront(w: Senses): (r: bool)
      reads this
      ensures r <==> w.Feel(direction) == Wall
    {
      w.Feel(direction).IsWall()
    }

    /** Both facing fields go through the opposite map, which knows forward and backward. */
    method Spin()
      requires direction in Linear && reverseDirection in Linear
      modifies this`direction, this`reverseDirection
      ensures direction == Opposite(old(direction)) && reverseDirection == Opposite(old(reverseDirection))
      ensures direction in Linear && reverseDirection in Linear
    {
      direction := Opposite(direction);
      reverseDirection := Opposite(reverseDirection);
    }
  }
}
