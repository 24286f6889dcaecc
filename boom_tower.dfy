/**
 * The omnidirectional Player (boom_tower.js): it senses all four
 * directions by feeling the adjacent space only, picks a target
 * direction when exploring, and leaves stairs-finding to the host.
 *
 * As for the linear Player, the module gives the meaning of each step as
 * functions on the turn's world, then the Player class whose methods
 * follow the source and are proved against them.
 */
module BoomTower {
  import opened Dungeon
  import opened Tags

  /** The `surroundings` object; a direction missing from the map is a slot still holding `false`. */
  type Surroundings = map<Direction, Observation>

  /** `directionMap`: the order in which `lookAround` turns to each direction. */
  const Rotation: seq<Direction> := [Forward, Right, Backward, Left]

  /** The key order of the `surroundings` object literal, which `for ... in` follows. */
  const KeyOrder: seq<Direction> := [Forward, Backward, Left, Right]

  /** Every direction has been looked at. */
  predicate Complete(s: Surroundings)
  {
    forall d: Direction :: d in s
  }

  /** `enemyInFront` for one space. */
  predicate EnemyAdjacent(c: Cell)
  {
    !c.IsEmpty() && c.IsUnit() && c.enemy
  }

  /** `allyInFront` for one space. */
  predicate AllyAdjacent(c: Cell)
  {
    !c.IsEmpty() && c.IsUnit() && !c.enemy
  }

  /**
   * The tag `lookInOneDirection` leaves for a space: its five rules read
   * from the last back to the first (the line-of-sight rules are not part
   * of this Player).
   */
  function Classify(c: Cell): (r: Observation)
    ensures r == WallInFront <==> c.Wall?
    ensures r == EnemyInFront <==> c.Unit? && c.enemy
    ensures r == AllyInFront <==> c.Unit? && !c.enemy
  {
    if c.IsWall() then WallInFront
    else if AllyAdjacent(c) then AllyInFront
    else if EnemyAdjacent(c) then EnemyInFront
    else if c.IsStairs() then StairsInFront
    else NothingInFront
  }

  /** Only five tags can appear; a unit overrides empty and stairs, and a wall overrides everything. */
  lemma ClassifyTags(c: Cell)
    ensures Classify(c) in {NothingInFront, StairsInFront, EnemyInFront, AllyInFront, WallInFront}
    ensures c.Wall? <==> Classify(c) == WallInFront
    ensures c.Unit? ==> Classify(c) == if c.enemy then EnemyInFront else AllyInFront
    ensures c.Empty? ==> Classify(c) == if c.stairs then StairsInFront else NothingInFront
  {
  }

  /** `lookAround`: every direction classified. */
  function Scan(w: Senses): (s: Surroundings)
    ensures Complete(s)
  {
    map d: Direction | true :: Classify(w.Feel(d))
  }

  /** `enemiesAround`: some direction of `directionMap` matches "Enemy" (case-sensitive). */
  predicate EnemiesAround(s: Surroundings)
    requires Complete(s)
  {
    exists d | d in Rotation :: Match(s[d], "Enemy")
  }

  /** `rangedEnemiesAround`: forward or backward matches "rangedEnemy". */
  predicate RangedEnemiesAround(s: Surroundings)
    requires Complete(s)
  {
    Match(s[Forward], "rangedEnemy") || Match(s[Backward], "rangedEnemy")
  }

  /** `checkStuffOnTheLeft`: the backward tag matches /enemy|ally/i. */
  predicate StuffOnTheLeft(w: Senses)
  {
    MatchEnemyOrAlly(Scan(w)[Backward])
  }

  /** No tag this Player writes contains "Enemy", so both case-sensitive tests always fail. */
  lemma NoCaseSensitiveEnemy(w: Senses)
    ensures !EnemiesAround(Scan(w)) && !RangedEnemiesAround(Scan(w))
  {
    forall d: Direction ensures !Match(Classify(w.Feel(d)), "Enemy") && !Match(Classify(w.Feel(d)), "rangedEnemy") {
      ClassifyTags(w.Feel(d));
      EnemyMatch(Classify(w.Feel(d)));
      RangedEnemyMatch(Classify(w.Feel(d)));
    }
  }

  /** There is stuff on the left exactly when a unit stands right behind. */
  lemma StuffOnTheLeftIsUnit(w: Senses)
    ensures StuffOnTheLeft(w) <==> w.Feel(Backward).Unit?
  {
    ClassifyTags(w.Feel(Backward));
    EnemyOrAllyMatch(Classify(w.Feel(Backward)));
  }

  /**
   * The transition table `analyzeSituation` implements. Here the brave
   * rules put retreating last, so it wins, and there is no rule from brave
   * to furious.
   */
  function NextState(s: State, w: Senses, underAttack: bool): (r: State)
    ensures r == Idle ==> s != Idle && s != Healing
    ensures r == Furious ==> s == Healing || s == Furious
  {
    var sur := Scan(w);
    match s
    case Idle =>
      if !Healthy(w.health) && !RangedEnemiesAround(sur) && (EnemiesAround(sur) || Injured(w.health))
      then Healing else Brave
    case Healing => if underAttack then Furious else if Healthy(w.health) then Brave else Healing
    case Brave =>
      if Injured(w.health) then Retreating
      else if Battered(w.health) && !underAttack then Idle
      else Brave
    case Furious => if EnemyAdjacent(w.Feel(Forward)) then Furious else Idle
    case Retreating => if EnemyAdjacent(w.Feel(Forward)) then Retreating else Idle
  }

  /** From idle this Player heals exactly when injured, and is brave otherwise. */
  lemma IdleTransition(w: Senses, underAttack: bool)
    ensures NextState(Idle, w, underAttack) == if Injured(w.health) then Healing else Brave
  {
    NoCaseSensitiveEnemy(w);
  }

  /** Brave retreats exactly when injured, goes idle when battered and not attacked, and never turns furious. */
  lemma BraveTransition(w: Senses, underAttack: bool)
    ensures NextState(Brave, w, underAttack) == Retreating <==> Injured(w.health)
    ensures NextState(Brave, w, underAttack) == Idle <==> !Injured(w.health) && Battered(w.health) && !underAttack
    ensures NextState(Brave, w, underAttack) != Furious
  {
  }

  /** The state a turn settles in: a second analysis follows one that ends idle. */
  function Settle(s: State, w: Senses, underAttack: bool): State
  {
    var n := NextState(s, w, underAttack);
    if n == Idle then NextState(Idle, w, underAttack) else n
  }

  /**
   * `findDirectionOfEnemy` / `findDirectionOfAlly`: the first of `keys`
   * whose tag matches `/pattern/i`.
   */
  function FirstMatching(s: Surroundings, keys: seq<Direction>, pattern: string): (r: Option<Direction>)
    requires Complete(s)
    ensures r.None? <==> forall j :: 0 <= j < |keys| ==> !MatchIgnoreCase(s[keys[j]], pattern)
    ensures r.Some? ==>
      exists j :: 0 <= j < |keys| && keys[j] == r.value && MatchIgnoreCase(s[keys[j]], pattern) &&
                  forall k :: 0 <= k < j ==> !MatchIgnoreCase(s[keys[k]], pattern)
    decreases |keys|
  {
    if keys == [] then None
    else if MatchIgnoreCase(s[keys[0]], pattern) then Some(keys[0])
    else FirstMatching(s, keys[1..], pattern)
  }

  /** `directionOfEnemy || directionOfAlly || "forward"`. */
  function Target(s: Surroundings): Direction
    requires Complete(s)
  {
    match FirstMatching(s, KeyOrder, "enemy")
    case Some(d) => d
    case None =>
      match FirstMatching(s, KeyOrder, "ally")
      case Some(d) => d
      case None => Forward
  }

  /** The position of each direction in `KeyOrder`. */
  function KeyIndex(d: Direction): (i: nat)
    ensures i < |KeyOrder| && KeyOrder[i] == d
  {
    match d
    case Forward => 0
    case Backward => 1
    case Left => 2
    case Right => 3
  }

  /** `/enemy/i` and `/ally/i` on a classified space hit exactly an adjacent enemy and an adjacent ally. */
  lemma ScanMatches(w: Senses, d: Direction)
    ensures MatchIgnoreCase(Scan(w)[d], "enemy") <==> EnemyAdjacent(w.Feel(d))
    ensures MatchIgnoreCase(Scan(w)[d], "ally") <==> AllyAdjacent(w.Feel(d))
  {
    ClassifyTags(w.Feel(d));
    EnemyMatchIgnoreCase(Scan(w)[d]);
    AllyMatchIgnoreCase(Scan(w)[d]);
  }

  /** The first match of `/pattern/i` over `KeyOrder`, as a position in it. */
  lemma FirstInKeyOrder(s: Surroundings, pattern: string)
    requires Complete(s)
    ensures var r := FirstMatching(s, KeyOrder, pattern);
      r.Some? ==> MatchIgnoreCase(s[r.value], pattern) &&
                  forall k :: 0 <= k < KeyIndex(r.value) ==> !MatchIgnoreCase(s[KeyOrder[k]], pattern)
  {
    var r := FirstMatching(s, KeyOrder, pattern);
    if r.Some? {
      var j :| 0 <= j < |KeyOrder| && KeyOrder[j] == r.value && MatchIgnoreCase(s[KeyOrder[j]], pattern) &&
               forall k :: 0 <= k < j ==> !MatchIgnoreCase(s[KeyOrder[k]], pattern);
      assert KeyIndex(r.value) == j;
    }
  }

  /**
   * The explore target in terms of the spaces themselves: the first
   * direction in key order (forward, backward, left, right; not the
   * rotation order) with an adjacent enemy; failing that the first with an
   * adjacent ally; failing that forward.
   */
  lemma TargetChoice(w: Senses)
    ensures var t := Target(Scan(w));
      if exists d :: EnemyAdjacent(w.Feel(d)) then
        EnemyAdjacent(w.Feel(t)) && forall j :: 0 <= j < KeyIndex(t) ==> !EnemyAdjacent(w.Feel(KeyOrder[j]))
      else if exists d :: AllyAdjacent(w.Feel(d)) then
        AllyAdjacent(w.Feel(t)) && forall j :: 0 <= j < KeyIndex(t) ==> !AllyAdjacent(w.Feel(KeyOrder[j]))
      else t == Forward
  {
    if exists d :: EnemyAdjacent(w.Feel(d)) {
      var d :| EnemyAdjacent(w.Feel(d));
      EnemyTarget(w, d);
    } else if exists d :: AllyAdjacent(w.Feel(d)) {
      var d :| AllyAdjacent(w.Feel(d));
      AllyTarget(w, d);
    } else {
      NoUnitTarget(w);
    }
  }

  lemma EnemyTarget(w: Senses, d: Direction)
    requires EnemyAdjacent(w.Feel(d))
    ensures var t := Target(Scan(w));
      EnemyAdjacent(w.Feel(t)) && forall j :: 0 <= j < KeyIndex(t) ==> !EnemyAdjacent(w.Feel(KeyOrder[j]))
  {
    var s := Scan(w);
    ScanMatches(w, d);
    assert KeyOrder[KeyIndex(d)] == d;
    var r := FirstMatching(s, KeyOrder, "enemy");
    assert r.Some?;
    FirstInKeyOrder(s, "enemy");
    ScanMatches(w, r.value);
    forall j | 0 <= j < KeyIndex(r.value) ensures !EnemyAdjacent(w.Feel(KeyOrder[j])) {
      ScanMatches(w, KeyOrder[j]);
    }
  }

  lemma AllyTarget(w: Senses, d: Direction)
    requires forall e :: !EnemyAdjacent(w.Feel(e))
    requires AllyAdjacent(w.Feel(d))
    ensures var t := Target(Scan(w));
      AllyAdjacent(w.Feel(t)) && forall j :: 0 <= j < KeyIndex(t) ==> !AllyAdjacent(w.Feel(KeyOrder[j]))
  {
    var s := Scan(w);
    forall j | 0 <= j < |KeyOrder| ensures !MatchIgnoreCase(s[KeyOrder[j]], "enemy") {
      ScanMatches(w, KeyOrder[j]);
    }
    ScanMatches(w, d);
    assert KeyOrder[KeyIndex(d)] == d;
    var r := FirstMatching(s, KeyOrder, "ally");
    assert r.Some?;
    FirstInKeyOrder(s, "ally");
    ScanMatches(w, r.value);
    forall j | 0 <= j < KeyIndex(r.value) ensures !AllyAdjacent(w.Feel(KeyOrder[j])) {
      ScanMatches(w, KeyOrder[j]);
    }
  }

  lemma NoUnitTarget(w: Senses)
    requires forall e :: !EnemyAdjacent(w.Feel(e)) && !AllyAdjacent(w.Feel(e))
    ensures Target(Scan(w)) == Forward
  {
    var s := Scan(w);
    forall j | 0 <= j < |KeyOrder|
      ensures !MatchIgnoreCase(s[KeyOrder[j]], "enemy") && !MatchIgnoreCase(s[KeyOrder[j]], "ally")
    {
      ScanMatches(w, KeyOrder[j]);
    }
  }

  /** What one `explore` or `runStateMachine` call does: the action, whether the turn is used, the facing after. */
  datatype Step = Step(action: Option<Action>, acted: bool, facing: Direction)

  /** Classify answers `allyInFront` only for an adjacent ally, so `isAllyCaptive` can ask the unit. */
  lemma AllyInFrontIsUnit(c: Cell)
    requires Classify(c) == AllyInFront
    ensures c.Unit? && !c.enemy
  {
  }

  /** The `switch` of `explore`: what to do about the tag of the direction faced. */
  function ActionOn(w: Senses, d: Direction, tag: Observation): Option<Action>
    requires tag == Classify(w.Feel(d))
  {
    match tag
    case EnemyInFront => Some(Attack(d))
    case AllyInFront =>
      AllyInFrontIsUnit(w.Feel(d));
      if w.Feel(d).bound then Some(Rescue(d)) else None
    case AllyAhead => Some(Walk(d))
    case RangedEnemyAhead => Some(Shoot(d))
    case MeleeEnemyAhead => Some(Shoot(d))
    case StairsInFront => Some(Walk(w.stairs))
    case NothingInFront => Some(Walk(w.stairs))
    case WallInFront => None
  }

  /** The decision `explore` takes: turn to the target and act on its tag. */
  function ExploreStep(w: Senses): Step
  {
    var d := Target(Scan(w));
    Step(ActionOn(w, d, Scan(w)[d]), true, d)
  }

  /** `runStateMachine` right after an analysis (facing forward). */
  function RunStep(s: State, w: Senses): Step
  {
    match s
    case Idle => Step(None, false, Forward)
    case Healing => Step(Some(Rest), true, Forward)
    case Brave => ExploreStep(w)
    case Furious => ExploreStep(w)
    case Retreating => Step(Some(Walk(Backward)), true, Forward)
  }

  /** A run uses the turn exactly when the state is not idle. */
  lemma RunActs(s: State, w: Senses)
    ensures RunStep(s, w).acted <==> s != Idle
  {
  }

  /** A turn ends after its first analysis or its second, and the settled state always uses the turn. */
  lemma TurnSettles(s: State, w: Senses, underAttack: bool)
    ensures Settle(s, w, underAttack) != Idle
    ensures RunStep(Settle(s, w, underAttack), w).acted
  {
    IdleTransition(w, underAttack);
  }

  /**
   * The switch on a classified space, by what the space holds: a wall gets
   * no action, an empty space a walk towards the stairs, an enemy an
   * attack, and an ally a rescue exactly when it is bound. So it does
   * nothing only for a wall or an unbound ally.
   */
  lemma ActionOnCell(w: Senses, d: Direction)
    ensures w.Feel(d).Wall? ==> ActionOn(w, d, Classify(w.Feel(d))) == None
    ensures w.Feel(d).Empty? ==> ActionOn(w, d, Classify(w.Feel(d))) == Some(Walk(w.stairs))
    ensures w.Feel(d).Unit? && w.Feel(d).enemy ==> ActionOn(w, d, Classify(w.Feel(d))) == Some(Attack(d))
    ensures w.Feel(d).Unit? && !w.Feel(d).enemy ==>
      ActionOn(w, d, Classify(w.Feel(d))) == if w.Feel(d).bound then Some(Rescue(d)) else None
    ensures ActionOn(w, d, Classify(w.Feel(d))).None? <==>
      w.Feel(d).Wall? || (AllyAdjacent(w.Feel(d)) && !w.Feel(d).bound)
  {
    ClassifyTags(w.Feel(d));
  }

  /**
   * Explore issues no action in two cases only: the target is an unbound
   * ally, or no unit stands next to the Player and a wall is ahead (the
   * wall case has no handler). With no unit around and no wall ahead it
   * walks towards the stairs.
   */
  lemma ExploreWithoutAction(w: Senses)
    ensures var t := Target(Scan(w));
      ExploreStep(w).action.None? <==>
        (AllyAdjacent(w.Feel(t)) && !w.Feel(t).bound) ||
        ((forall d :: !w.Feel(d).Unit?) && w.Feel(Forward).Wall?)
    ensures (forall d :: !w.Feel(d).Unit?) && !w.Feel(Forward).Wall? ==>
      ExploreStep(w).action == Some(Walk(w.stairs))
  {
    TargetChoice(w);
    var t := Target(Scan(w));
    ActionOnCell(w, t);
    assert ExploreStep(w).action == ActionOn(w, t, Classify(w.Feel(t)));
    if forall d :: !w.Feel(d).Unit? {
      assert !(exists d :: EnemyAdjacent(w.Feel(d)));
      assert !(exists d :: AllyAdjacent(w.Feel(d)));
      assert t == Forward;
    } else {
      var u :| w.Feel(u).Unit?;
      assert EnemyAdjacent(w.Feel(u)) || AllyAdjacent(w.Feel(u));
      assert w.Feel(t).Unit?;
    }
  }

  class Player {
    var state: State
    var acted: bool
    var lastHealth: int
    var underAttack: bool
    var direction: Direction
    var reverseDirection: Direction
    /** Never set by this Player (its wall and stairs handling is commented out). */
    var foundStairs: bool
    var foundWall: bool
    /** `thereIsStuffOnTheLeft`; false stands for the `null` the source stores when nothing matched. */
    var stuffOnTheLeft: bool

    /** The two facing fields are opposite. */
    ghost predicate Facing()
      reads this
    {
      reverseDirection == Opposite(direction)
    }

    ghost predicate FacingForward()
      reads this
    {
      direction == Forward && reverseDirection == Backward
    }

    /** Between turns: the facing fields agree and the turn flag is cleared. */
    ghost predicate Valid()
      reads this
    {
      Facing() && !acted
    }

    constructor ()
      ensures Valid() && FacingForward()
      ensures state == Idle && lastHealth == InitialHealth && !underAttack
      ensures !foundStairs && !foundWall && !stuffOnTheLeft
    {
      state := Idle;
      acted := false;
      lastHealth := InitialHealth;
      underAttack := false;
      direction := Forward;
      reverseDirection := Backward;
      foundStairs := false;
      foundWall := false;
      stuffOnTheLeft := false;
    }

    /**
     * One turn: status, the left-side check while it has found nothing,
     * analysis and run until the turn is used, then refresh. Returns the
     * actions issued and the number of analysis cycles; the Player is left
     * facing the direction it explored towards, or forward.
     */
    method PlayTurn(w: Senses) returns (actions: seq<Action>, cycles: nat)
      requires Valid()
      modifies this
      ensures Valid()
      ensures underAttack == (w.health < old(lastHealth)) && lastHealth == w.health
      ensures stuffOnTheLeft == (old(stuffOnTheLeft) || StuffOnTheLeft(w))
      ensures state == Settle(old(state), w, underAttack) && state != Idle
      ensures cycles == if NextState(old(state), w, underAttack) == Idle then 2 else 1
      ensures var r := RunStep(state, w); actions == AsSeq(r.action) && direction == r.facing
      ensures foundStairs == old(foundStairs) && foundWall == old(foundWall)
    {
      CheckUnderAttack(w);
      if !stuffOnTheLeft {
        stuffOnTheLeft := CheckStuffOnTheLeft(w);
      }
      actions, cycles := ActUntilDone(w);
      Refresh(w);
    }

    /** The `while (this.acted == false)` loop of `playTurn`: analyse and run until the turn is used. */
    method ActUntilDone(w: Senses) returns (actions: seq<Action>, cycles: nat)
      requires !acted
      modifies this`state, this`acted, this`direction, this`reverseDirection
      ensures Facing() && acted
      ensures state == Settle(old(state), w, underAttack) && state != Idle
      ensures cycles == if NextState(old(state), w, underAttack) == Idle then 2 else 1
      ensures var r := RunStep(state, w); actions == AsSeq(r.action) && direction == r.facing
    {
      actions, cycles := [], 0;
      ghost var first := NextState(state, w, underAttack);
      ghost var settled := Settle(state, w, underAttack);
      ghost var step := RunStep(settled, w);
      TurnSettles(state, w, underAttack);
      while !acted
        invariant cycles <= 2 && (!acted ==> cycles < 2)
        invariant !acted ==> actions == []
        invariant !acted && cycles == 0 ==> state == old(state)
        invariant !acted && cycles == 1 ==> state == Idle && first == Idle
        invariant acted ==> state == settled && cycles == (if first == Idle then 2 else 1)
        invariant acted ==> actions == AsSeq(step.action) && direction == step.facing && Facing()
        decreases 2 - cycles
      {
        AnalyzeSituation(w);
        assert state == settled || state == Idle;
        RunActs(state, w);
        var issued := RunStateMachine(w);
        actions := actions + AsSeq(issued);
        cycles := cycles + 1;
      }
    }

    method Refresh(w: Senses)
      modifies this`acted, this`lastHealth
      ensures !acted && lastHealth == w.health
    {
      acted := false;
      lastHealth := w.health;
    }

    /** `checkStatus` / `checkUnderAttack`. */
    method CheckUnderAttack(w: Senses)
      modifies this`underAttack
      ensures underAttack == (w.health < lastHealth)
    {
      if w.health < lastHealth {
        underAttack := true;
      } else {
        underAttack := false;
      }
    }

    method CheckStuffOnTheLeft(w: Senses) returns (stuff: bool)
      modifies this`direction, this`reverseDirection
      ensures FacingForward()
      ensures stuff == StuffOnTheLeft(w)
    {
      var surroundings := LookAround(w);
      stuff := MatchEnemyOrAlly(surroundings[Backward]);
    }

    /** The sequence of `setState` overwrites, which settles on the transition table's state. */
    method AnalyzeSituation(w: Senses)
      modifies this`state, this`direction, this`reverseDirection
      ensures FacingForward()
      ensures state == NextState(old(state), w, underAttack)
    {
      var surroundings := LookAround(w);
      var enemiesAround := EnemiesAround(surroundings);
      var rangedEnemiesAround := RangedEnemiesAround(surroundings);
      var current := state;
      match current {
        case Idle =>
          if !Healthy(w.health) && enemiesAround {
            state := Healing;
          } else {
            state := Brave;
          }
          if Injured(w.health) && !enemiesAround {
            state := Healing;
          }
          if Healthy(w.health) || rangedEnemiesAround {
            state := Brave;
          }
        case Healing =>
          if Healthy(w.health) {
            state := Brave;
          }
          if underAttack {
            state := Furious;
          }
        case Brave =>
          if Battered(w.health) && !underAttack {
            state := Idle;
          }
          if Injured(w.health) {
            state := Retreating;
          }
        case Furious =>
          if !EnemyInFront(w) {
            state := Idle;
          }
        case Retreating =>
          if !EnemyInFront(w) {
            state := Idle;
          }
      }
    }

    method RunStateMachine(w: Senses) returns (issued: Option<Action>)
      requires FacingForward()
      modifies this`acted, this`direction, this`reverseDirection
      ensures Facing()
      ensures var r := RunStep(state, w);
        issued == r.action && acted == (old(acted) || r.acted) && direction == r.facing
    {
      match state {
        case Idle =>
          issued := None;
        case Healing =>
          issued := Heal();
        case Brave =>
          issued := Explore(w);
        case Furious =>
          issued := Explore(w);
        case Retreating =>
          issued := Retreat();
      }
    }

    method Heal() returns (issued: Option<Action>)
      modifies this`acted
      ensures acted && issued == Some(Rest)
    {
      issued := Some(Rest);
      acted := true;
    }

    method Explore(w: Senses) returns (issued: Option<Action>)
      modifies this`acted, this`direction, this`reverseDirection
      ensures Facing() && acted
      ensures var r := ExploreStep(w); issued == r.action && direction == r.facing
    {
      var surroundings := LookAround(w);
      var directionOfEnemy := FindDirectionOfEnemy(surroundings);
      var directionOfAlly := FindDirectionOfAlly(surroundings);
      var mainDirection :=
        if directionOfEnemy.Some? then directionOfEnemy.value
        else if directionOfAlly.Some? then directionOfAlly.value
        else Forward;
      assert mainDirection == Target(surroundings);
      Spin(Some(mainDirection));
      issued := ActOn(w, surroundings[mainDirection]);
      ActionOnCell(w, mainDirection);
      acted := true;
    }

    /**
     * The `switch` on the tag of the direction faced, by what that space
     * holds: nothing for a wall, a walk towards the stairs for an empty
     * space, an attack on an enemy, a rescue of a bound ally and nothing
     * for an unbound one.
     */
    method ActOn(w: Senses, tag: Observation) returns (issued: Option<Action>)
      requires tag == Classify(w.Feel(direction))
      ensures w.Feel(direction).Wall? ==> issued == None
      ensures w.Feel(direction).Empty? ==> issued == Some(Walk(w.stairs))
      ensures w.Feel(direction).Unit? && w.Feel(direction).enemy ==> issued == Some(Attack(direction))
      ensures w.Feel(direction).Unit? && !w.Feel(direction).enemy ==>
        issued == if w.Feel(direction).bound then Some(Rescue(direction)) else None
    {
      ClassifyTags(w.Feel(direction));
      match tag {
        case EnemyInFront =>
          issued := Some(Attack(direction));
        case AllyInFront =>
          AllyInFrontIsUnit(w.Feel(direction));
          if IsAllyCaptive(w) {
            issued := Some(Rescue(direction));
          } else {
            issued := None;
          }
        case AllyAhead =>
          issued := Some(Walk(direction));
        case RangedEnemyAhead =>
          issued := Some(Shoot(direction));
        case MeleeEnemyAhead =>
          issued := Some(Shoot(direction));
        case StairsInFront =>
          issued := Some(Walk(w.stairs));
        case NothingInFront =>
          issued := Some(Walk(w.stairs));
        case WallInFront =>
          issued := None;
      }
    }

    /** The first direction, in key order, whose tag matches /enemy/i. */
    method FindDirectionOfEnemy(surroundings: Surroundings) returns (found: Option<Direction>)
      requires Complete(surroundings)
      ensures found == FirstMatching(surroundings, KeyOrder, "enemy")
    {
      var i := 0;
      while i < |KeyOrder|
        invariant 0 <= i <= |KeyOrder|
        invariant FirstMatching(surroundings, KeyOrder, "enemy") == FirstMatching(surroundings, KeyOrder[i..], "enemy")
      {
        var d := KeyOrder[i];
        if MatchIgnoreCase(surroundings[d], "enemy") {
          return Some(d);
        }
        assert KeyOrder[i..][1..] == KeyOrder[i + 1..];
        i := i + 1;
      }
      return None;
    }

    /** The first direction, in key order, whose tag matches /ally/i. */
    method FindDirectionOfAlly(surroundings: Surroundings) returns (found: Option<Direction>)
      requires Complete(surroundings)
      ensures found == FirstMatching(surroundings, KeyOrder, "ally")
    {
      var i := 0;
      while i < |KeyOrder|
        invariant 0 <= i <= |KeyOrder|
        invariant FirstMatching(surroundings, KeyOrder, "ally") == FirstMatching(surroundings, KeyOrder[i..], "ally")
      {
        var d := KeyOrder[i];
        if MatchIgnoreCase(surroundings[d], "ally") {
          return Some(d);
        }
        assert KeyOrder[i..][1..] == KeyOrder[i + 1..];
        i := i + 1;
      }
      return None;
    }

    /**
     * Turn to each direction of the rotation and classify it, then turn
     * forward: whatever the facing before, it ends forward.
     */
    method LookAround(w: Senses) returns (surroundings: Surroundings)
      modifies this`direction, this`reverseDirection
      ensures FacingForward()
      ensures surroundings == Scan(w)
    {
      surroundings := map[];
      for i := 0 to |Rotation|
        invariant forall j :: 0 <= j < i ==>
          Rotation[j] in surroundings && surroundings[Rotation[j]] == Classify(w.Feel(Rotation[j]))
        invariant forall d :: d in surroundings ==> d in Rotation[..i]
      {
        var d := Rotation[i];
        Spin(Some(d));
        surroundings := LookInOneDirection(w, surroundings, d);
      }
      Spin(Some(Forward));
      assert Rotation[0] == Forward && Rotation[1] == Right && Rotation[2] == Backward && Rotation[3] == Left;
      assert surroundings.Keys == Scan(w).Keys;
    }

    /** The five rules, in source order, each overwriting the slot of `d`, the direction faced. */
    method LookInOneDirection(w: Senses, surroundings: Surroundings, d: Direction) returns (result: Surroundings)
      requires d == direction
      ensures result == surroundings[d := Classify(w.Feel(d))]
    {
      result := surroundings;
      if w.Feel(d).IsEmpty() {
        result := result[d := NothingInFront];
      }
      if w.Feel(d).IsStairs() {
        result := result[d := StairsInFront];
      }
      if EnemyInFront(w) {
        result := result[d := Observation.EnemyInFront];
      }
      if AllyInFront(w) {
        result := result[d := Observation.AllyInFront];
      }
      if WallInFront(w) {
        result := result[d := Observation.WallInFront];
      }
    }

    method Retreat() returns (issued: Option<Action>)
      modifies this`acted
      ensures acted && issued == Some(Walk(reverseDirection))
    {
      issued := Some(Walk(reverseDirection));
      acted := true;
    }

    /** `enemyInFront`: the `isEmpty` test is redundant, a unit space is never empty. */
    function EnemyInFront(w: Senses): (r: bool)
      reads this
      ensures r <==> w.Feel(direction).Unit? && w.Feel(direction).enemy
    {
      EnemyAdjacent(w.Feel(direction))
    }

    /** `allyInFront`: any unit that is not an enemy, bound or not. */
    function AllyInFront(w: Senses): (r: bool)
      reads this
      ensures r <==> w.Feel(direction).Unit? && !w.Feel(direction).enemy
    {
      AllyAdjacent(w.Feel(direction))
    }

    /** `feel(direction).getUnit().isBound()`; the source only asks with a unit there. */
    function IsAllyCaptive(w: Senses): (r: bool)
      reads this
      requires w.Feel(direction).Unit?
      ensures r == w.Feel(direction).bound
    {
      w.Feel(direction).bound
    }

    function WallInFront(w: Senses): (r: bool)
      reads this
      ensures r <==> w.Feel(direction) == Wall
    {
      w.Feel(direction).IsWall()
    }

    /**
     * `spin(w, forcedDirection)`: face the forced direction, or with none
     * turn both facing fields through the opposite map. Either way the
     * fields stay opposite.
     */
    method Spin(forced: Option<Direction>)
      modifies this`direction, this`reverseDirection
      ensures forced.Some? ==> direction == forced.value && reverseDirection == Opposite(forced.value)
      ensures forced.None? ==>
        direction == Opposite(old(direction)) && reverseDirection == Opposite(old(reverseDirection))
      ensures forced.Some? || old(reverseDirection) == Opposite(old(direction)) ==> Facing()
    {
      direction := if forced.Some? then forced.value else Opposite(direction);
      reverseDirection := if forced.Some? then Opposite(forced.value) else Opposite(reverseDirection);
    }
  }
}
