# warriorjs Player controllers, modelled in Dafny

The repository holds hand-written `Player` controllers for the warriorjs
game. Each turn the game host calls `playTurn(w)`. `w` answers queries
(health, what the adjacent space holds, the line of sight, the direction
of the stairs) and accepts one request (rest, walk, attack, shoot,
rescue, pivot). Two controllers are modelled:

- **linear Player** (`baby_tower.js`): senses forward and backward, with
  line of sight, and ends every turn and every scan facing forward;
- **omnidirectional Player** (`boom_tower.js`): feels all four
  directions, turns towards a target when exploring, and asks the host
  for the direction of the stairs.

Both share one structure:
- they look around and tag each direction with an observation string, such as `"enemyInFront"`;
- they run a five-state machine (idle, healing, brave, furious, retreating) over those tags and the health bands;
- they repeat analysis and action until the turn is used.

Modules:

- `Dungeon` (`dungeon.dfy`): the vocabulary both Players share.
  - The turn's world is a `Senses` record holding the host's answers.
  - A space is a `Cell`: empty (maybe stairs), wall, or unit (enemy or not, bound or not).
  - It also defines directions and their opposite map, health bands, states and actions.
  - `FirstUnitIndex` is the line-of-sight search.
  - `AttackTrace` gives the `underAttack` flags of a run of turns.
- `Tags` (`tags.dfy`): the eight observation tags and their exact strings.
  - The source tests tags with `String.match` in two ways: a case-sensitive substring, and the regular expressions `/enemy/i`, `/ally/i` and `/enemy|ally/i`.
  - Each test is defined on the tag's characters.
  - Each is then reduced, by a lemma, to the exact set of tags it hits.
- `BabyTower` (`baby_tower.dfy`) and `BoomTower` (`boom_tower.dfy`) are one module per Player.
  - First come specification functions: `Classify`, `Scan`, the transition table `NextState`, `Settle`, `ExploreStep` and `RunStep`, with lemmas on them.
  - Then a `class Player` with the source's fields and one method per modelled source method (see below). Each method is proved against those functions.
  - `PlayTurn` says, for any world, the state the turn settles in, how many analysis cycles it takes, the actions issued and the new fields.

Modelling decisions:

- **Host and actions:** the host is not modelled. A turn's world is an immutable `Senses` value, and the requests a turn makes are returned as a sequence of `Action`s.
- **Surroundings:** the `surroundings` object is a `map<Direction, Observation>`. A direction still holding the initial `false` is a key absent from the map.
- **`thereIsStuffOnTheLeft`:** the source stores a match array or `null`, and runs the check again while the field is `null`. The model uses a `bool` whose `false` stands for `null`, and it recomputes while the flag is false.
- **`for ... in`:** `findDirectionOfEnemy` and `findDirectionOfAlly` visit the keys of the `surroundings` literal in insertion order: forward, backward, left, right (`KeyOrder`). This is not the rotation order of `directionMap`.
- **Helpers folded in:**
  - `checkStatus` only calls `checkUnderAttack`, and `setState` only assigns, so both are written inline.
  - The `while (this.acted == false)` loop of `playTurn` is its own method, `ActUntilDone`.

Behaviour of the code that the lemmas make explicit:

- **Linear tags:** the linear Player's `rangedEnemyAhead` and `allyAhead` tags survive whenever the adjacent space is empty. A later rule overwrites them only when a unit or a wall is adjacent (`BabyTower.ClassifyCoherent`, `BabyTower.ClassifyPrecedence`).
- **Left-side flag:** it is recomputed on every turn until it is non-null, so with nothing behind at first it can become true on a later turn.
- **No idle→healing through adjacent enemies:** `match("Enemy")` is case-sensitive, so it misses `enemyInFront`. The omnidirectional Player never writes a tag containing `Enemy`, so its `enemiesAround` and `rangedEnemiesAround` are always false (`BoomTower.NoCaseSensitiveEnemy`).
- **Brave rules, linear Player:** injured is tested first and battered after. Because injured implies battered, the retreat choice is always overwritten and the linear Player never retreats (`BabyTower.RetreatingUnreachable`).
- **Line of sight, omnidirectional Player:** its line-of-sight rules are commented out, so it writes only five tags (`BoomTower.ClassifyTags`).
- **Facing after a scan:**
  - the linear scan restores the facing it started with;
  - the omnidirectional scan always ends facing forward;
  - the omnidirectional `explore` leaves the Player facing its target.
- **Turns without an action:** a turn can issue no action:
  - an unbound ally is ahead (both Players);
  - for the omnidirectional Player, the target is a wall. There is no handler for a wall (`BoomTower.ExploreWithoutAction`).

## Model

| member | source | states |
|---|---|---|
| Dungeon.OppositeInvolutive | baby_tower.js:14-17 | the opposite map is an involution without fixed points and keeps the linear pair closed |
| Dungeon.FirstUnitIndex | baby_tower.js:263-266 | `findIndex` over the line of sight: -1 exactly when no space holds a unit, otherwise a unit's index with no unit before it |
| Dungeon.AttackTraceExact | baby_tower.js:36-51 | over a run of turns, a turn is under attack exactly when its health is below the previous turn's recorded health |
| Tags.EnemyMatch | baby_tower.js:59 | case-sensitive `match("Enemy")` hits exactly the ranged and melee line-of-sight tags, never `enemyInFront` |
| Tags.RangedEnemyMatch | baby_tower.js:60 | `match("rangedEnemy")` hits exactly `rangedEnemyAhead` |
| Tags.EnemyMatchIgnoreCase | boom_tower.js:195-203 | `/enemy/i` hits exactly the three enemy tags |
| Tags.AllyMatchIgnoreCase | boom_tower.js:205-213 | `/ally/i` hits exactly the two ally tags |
| Tags.EnemyOrAllyMatch | boom_tower.js:62-64 | the case-insensitive enemy-or-ally regular expression hits exactly the five unit tags |
| BabyTower.ClassifyPrecedence | baby_tower.js:199-231 | after the seven overwrites a wall wins; `allyInFront` exactly for an adjacent ally; `enemyInFront` for an adjacent enemy with no ally first in sight; ranged and melee only for an empty adjacent space, told apart by distance 3 |
| BabyTower.ClassifyCoherent | baby_tower.js:199-231 | when the line of sight starts at the adjacent space, an adjacent unit always gives its adjacent tag, and an empty space gives ally-ahead, ranged (third space) or melee by the nearest unit, or stairs/nothing |
| BabyTower.StuffOnTheLeftTags | baby_tower.js:53-55 | the left-side check holds exactly when the backward tag is a unit tag, that is, no wall behind and some unit in sight |
| BabyTower.IdleTransition | baby_tower.js:62-75 | from idle the state is never idle; it is healing exactly when not healthy, no ranged enemy on either side, and a melee enemy in sight or injured |
| BabyTower.RetreatingUnreachable | baby_tower.js:84-94 | no analysis from another state yields retreating; brave turns furious exactly when battered and under attack |
| BabyTower.TurnSettles | baby_tower.js:20-34 | the state a turn settles in is never idle, its run uses the turn, and the found flags never go back to false |
| BabyTower.RunActs | baby_tower.js:108-125 | a run uses the turn exactly when the state is not idle |
| BabyTower.RangedBehindPivots | baby_tower.js:140-143 | a ranged enemy behind makes explore pivot whatever is ahead |
| BabyTower.StairsPivotOnce | baby_tower.js:163-174 | with stairs ahead and no ranged enemy behind, explore pivots exactly when stairs are not found, no wall is found and there is stuff on the left, and walks forward otherwise; only that pivot records the stairs; afterwards only a ranged enemy behind or a wall ahead pivots |
| BabyTower.UnboundAllyWastesTurn | baby_tower.js:149-153 | an unbound ally ahead uses the turn with no action |
| BabyTower.Player.constructor | baby_tower.js:2-18 | idle, last health 20, facing forward, all flags clear |
| BabyTower.Player.PlayTurn | baby_tower.js:20-34 | per turn: the under-attack flag and the recorded health, the left-side flag, the settled state, one or two cycles, exactly the run's actions and flags, facing forward and not acted afterwards |
| BabyTower.Player.ActUntilDone | baby_tower.js:27-31 | the loop settles in `Settle`'s state after one or two cycles and collects the settled run's action |
| BabyTower.Player.Refresh | baby_tower.js:36-39 | clears the turn flag and records the health |
| BabyTower.Player.CheckUnderAttack | baby_tower.js:41-51 | under attack exactly when health dropped below the recorded health |
| BabyTower.Player.CheckStuffOnTheLeft | baby_tower.js:53-55 | returns the left-side predicate and keeps facing forward |
| BabyTower.Player.AnalyzeSituation | baby_tower.js:57-106 | the sequence of overwrites lands on the transition table's state |
| BabyTower.Player.RunStateMachine | baby_tower.js:108-125 | issues the run's action, updates the turn flag and the found flags as the run says |
| BabyTower.Player.Heal | baby_tower.js:131-134 | rests and uses the turn |
| BabyTower.Player.Explore | baby_tower.js:136-182 | issues explore's decision and records the found flags it sets |
| BabyTower.Player.LookAround | baby_tower.js:184-197 | classifies the facing direction and its opposite; the facing is unchanged afterwards |
| BabyTower.Player.LookInOneDirection | baby_tower.js:199-231 | the slot of the facing direction is overwritten with its classification; no other slot changes |
| BabyTower.Player.Retreat | baby_tower.js:233-236 | walks towards the reverse direction and uses the turn |
| BabyTower.Classify | baby_tower.js:199-231 | the wall tag exactly for a wall, the adjacent-ally tag exactly for an adjacent non-enemy unit |
| BabyTower.NextState | baby_tower.js:57-106 | only brave, furious or retreating can go idle; furious is reached only from healing, brave or furious |
| BabyTower.Player.EnemyInFront | baby_tower.js:250-252 | the faced space holds an enemy unit (the emptiness test is redundant) |
| BabyTower.Player.EnemyAhead | baby_tower.js:254-261 | some unit lies in the faced line of sight, the nearest one is an enemy |
| BabyTower.Player.EnemyIsArcherOrWizard | baby_tower.js:263-266 | the nearest unit in sight is exactly the third space |
| BabyTower.Player.AllyAhead | baby_tower.js:268-275 | some unit lies in the faced line of sight, the nearest one is not an enemy |
| BabyTower.Player.AllyInFront | baby_tower.js:277-279 | the faced space holds a non-enemy unit |
| BabyTower.Player.IsAllyCaptive | baby_tower.js:281-283 | the faced unit is a bound one, enemy or not |
| BabyTower.Player.WallInFront | baby_tower.js:285-287 | the faced space is a wall |
| BabyTower.Player.Spin | baby_tower.js:289-292 | both facing fields go through the opposite map and stay among forward and backward |
| BoomTower.ClassifyTags | boom_tower.js:233-265 | only five tags can be written; a unit gives its adjacent tag, an empty space stairs or nothing, a wall the wall tag |
| BoomTower.NoCaseSensitiveEnemy | boom_tower.js:66-69 | `enemiesAround` and `rangedEnemiesAround` are false in every world |
| BoomTower.StuffOnTheLeftIsUnit | boom_tower.js:62-64 | the left-side check holds exactly when a unit stands right behind |
| BoomTower.IdleTransition | boom_tower.js:72-84 | from idle the state is healing exactly when injured, brave otherwise |
| BoomTower.BraveTransition | boom_tower.js:93-103 | brave retreats exactly when injured, goes idle exactly when battered, not injured and not attacked, and never turns furious |
| BoomTower.FirstMatching | boom_tower.js:195-213 | none exactly when no key matches; otherwise a matching key with none matching before it |
| BoomTower.TargetChoice | boom_tower.js:145-151 | the target is the first direction in key order with an adjacent enemy, else the first with an adjacent ally, else forward |
| BoomTower.ActionOnCell | boom_tower.js:155-190 | by what the faced space holds: a wall gets no action, an empty space a walk towards the stairs, an enemy an attack, an ally a rescue exactly when bound; so nothing is issued exactly for a wall or an unbound ally |
| BoomTower.ExploreWithoutAction | boom_tower.js:145-193 | explore issues no action exactly when the target is an unbound ally or no unit is adjacent and a wall is ahead; with no unit adjacent and no wall ahead it walks the stairs direction |
| BoomTower.RunActs | boom_tower.js:117-134 | a run uses the turn exactly when the state is not idle |
| BoomTower.TurnSettles | boom_tower.js:29-43 | the state a turn settles in is never idle and its run uses the turn |
| BoomTower.Player.constructor | boom_tower.js:2-27 | idle, last health 20, facing forward, all flags clear |
| BoomTower.Player.PlayTurn | boom_tower.js:29-43 | per turn: the under-attack flag and the recorded health, the left-side flag, the settled state, one or two cycles, exactly the run's actions, the facing the run leaves, found flags untouched |
| BoomTower.Player.ActUntilDone | boom_tower.js:36-40 | the loop settles in `Settle`'s state after one or two cycles and collects the settled run's action |
| BoomTower.Player.Refresh | boom_tower.js:45-48 | clears the turn flag and records the health |
| BoomTower.Player.CheckUnderAttack | boom_tower.js:50-60 | under attack exactly when health dropped below the recorded health |
| BoomTower.Player.CheckStuffOnTheLeft | boom_tower.js:62-64 | returns the left-side predicate and leaves the Player facing forward |
| BoomTower.Player.AnalyzeSituation | boom_tower.js:66-115 | the sequence of overwrites lands on the transition table's state, facing forward |
| BoomTower.Player.RunStateMachine | boom_tower.js:117-134 | issues the run's action, updates the turn flag and leaves the run's facing |
| BoomTower.Player.Heal | boom_tower.js:140-143 | rests and uses the turn |
| BoomTower.Player.Explore | boom_tower.js:145-193 | turns to the target and issues explore's decision; uses the turn |
| BoomTower.Player.ActOn | boom_tower.js:155-190 | by what the faced space holds: nothing for a wall, a walk towards the stairs for an empty space, an attack on an enemy, a rescue of a bound ally and nothing for an unbound one |
| BoomTower.Player.FindDirectionOfEnemy | boom_tower.js:195-203 | the first key, in key order, whose tag matches `/enemy/i`, or none |
| BoomTower.Player.FindDirectionOfAlly | boom_tower.js:205-213 | the first key, in key order, whose tag matches `/ally/i`, or none |
| BoomTower.Player.LookAround | boom_tower.js:215-231 | every direction classified, whatever the facing before; ends facing forward |
| BoomTower.Player.LookInOneDirection | boom_tower.js:233-265 | the slot of the faced direction is overwritten with its classification; no other slot changes |
| BoomTower.Player.Retreat | boom_tower.js:267-270 | walks towards the reverse direction and uses the turn |
| BoomTower.Classify | boom_tower.js:233-265 | the wall tag exactly for a wall, the enemy tag exactly for an enemy unit, the ally tag exactly for a non-enemy unit |
| BoomTower.NextState | boom_tower.js:66-115 | only brave, furious or retreating can go idle; furious is reached only from healing or furious |
| BoomTower.Player.EnemyInFront | boom_tower.js:284-286 | the faced space holds an enemy unit (the emptiness test is redundant) |
| BoomTower.Player.AllyInFront | boom_tower.js:311-313 | the faced space holds a non-enemy unit |
| BoomTower.Player.IsAllyCaptive | boom_tower.js:315-317 | the faced unit is a bound one, enemy or not |
| BoomTower.Player.WallInFront | boom_tower.js:319-321 | the faced space is a wall |
| BoomTower.Player.Spin | boom_tower.js:323-326 | a forced direction is faced with its opposite behind; with none both fields go through the opposite map; the fields stay opposite |

## Left out

- `w.think` messages are not modelled. They are diagnostics with no effect on state or actions.
- The game itself is not modelled: what a walk, attack, shoot, rescue or pivot does to the level, and how health changes. Each turn's world is a parameter of `PlayTurn`. No run of several turns is modelled as an operation, since the host's loop is not part of the source. Behaviour across turns follows from composing `PlayTurn`'s contract: it relates the under-attack flag, the recorded health, the left-side flag and the found flags before and after a turn. `AttackTrace` is that composition for the under-attack flag alone: turn i's flag, by `PlayTurn`, compares the health with the health recorded at the end of turn i-1.
- The host's guarantee that the line of sight begins with the adjacent space is not built into `Senses`. It is stated as `Coherent`, and it is a precondition only of the lemmas that need it.
- Commented-out code in both files is not modelled. This includes the omnidirectional Player's line-of-sight rules, its wall and stairs pivots, and the brave→furious rule.
- The omnidirectional Player's `enemyAhead`, `enemyIsArcherOrWizard` and `allyAhead` (boom_tower.js:288-309) are not modelled, because only commented-out code calls them.
- The general JavaScript `String.match` and `RegExp` machinery is not modelled. Only the five fixed patterns the code uses are modelled, and a match's array result is reduced to whether it matched.
- `checkStatus` and `setState` are folded into their callers (see above).
- The injured, battered and healthy tests are the shared predicates `Injured`, `Battered` and `Healthy` rather than methods. They have the same thresholds: 5, 9 and 9.
- JavaScript numbers are modelled as unbounded integers. No health value the game produces is near any limit.
- BabyTower.Player.LookAround: requires the facing fields to be opposite members of the linear pair, which the constructor and every method keep.
- BoomTower.Player.LookInOneDirection: requires that the direction passed is the one faced, as it is at its only call site. In the source the first two rules read the passed direction and the last three read the faced one.
