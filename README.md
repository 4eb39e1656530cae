# Combatants and teams of a turn-based creature-battle simulator

This project models the combatant and team core of the simulator (`models/pokemon.py`)
and proves properties of it in Dafny.

- **Stat derivation.** A `Pokemon` turns six base stats into battle stats with the fixed
  constants IV = 30 and EV = 85. Max hp is `base + 85.625`; each of the other five stats
  is `base + 30.625`. Every constant is a multiple of 1/8, so the model uses exact `real`
  arithmetic and no floating point. Current hp starts at max hp and the six stage
  modifiers start at 0.
- **Combatant state.** `Pokemon` is a class. Its fields that the core never reassigns are
  `const`. Its hp and its six modifiers are `var`. `ReceiveDamage` lowers hp and floors
  it at 0. `IsAlive` means hp > 0.
- **Move selection.** A strategy is a function value of type `MoveSelector`. It receives
  the attacker and the defender as values (a `Combatant`, the value `Pokemon.View()`
  returns) and a random draw. It returns the move played, or `None` when it fails. The
  default `SelectMove` plays the attacker's move at position `draw % |moves|`. It fails
  on an empty move list, as `random.choice([])` raises.
- **Team.** `Team` is a class over a shared roster of `Pokemon` objects. Its queries are
  `IsDefeated`, `GetPokemon` (first alive member), `CountAlivePokemons` and
  `IsValidTeam`. Its mutators are `ResetTeam` (in place, over the shared objects) and
  `SetSelectMove`.
- **Team validity.** `CheckSelector` builds the same two fixture combatants as the
  source. The attacker has moves "dummy1" to "dummy4" and the defender has "dummy5" to
  "dummy8". The check runs the strategy once and asks whether the move played is one of
  the attacker's.

Modules: `Wrappers` (Option), `Movements` (move and type data), `Pokemons` (combatant,
stat formula, strategies), `Teams` (team, fixtures, validity).

## Model

| member | source | states |
|---|---|---|
| Pokemons.HpStat | models/pokemon.py:31 | max hp is the base hp plus IV*0.5 + EV*0.125 + 60, that is base + 85.625 exactly |
| Pokemons.BattleStat | models/pokemon.py:33-37 | each derived stat is its base plus IV*0.5 + EV*0.125 + 5, that is base + 30.625 exactly |
| Pokemons.NewCombatant | models/pokemon.py:28-44 | the freshly built combatant keeps name, types and the move list as given; max hp is base + 85.625 and hp equals it; the five stats are base + 30.625; all six stages are 0 |
| Pokemons.Pokemon.constructor | models/pokemon.py:15-44 | the new object's value is NewCombatant of its arguments; hp == max hp; all modifiers 0; moves exactly the list passed; hp in [0, max hp] whenever max hp is non-negative |
| Pokemons.Pokemon.View | models/pokemon.py:28-44 | the value handed to strategies carries the object's current hp, max hp and moves |
| Pokemons.DamagedHp | models/pokemon.py:46-49 | the result is max(0, hp - damage): at least 0, at least hp - damage, and equal to one of them; for non-negative hp and damage it never exceeds hp |
| Pokemons.Pokemon.IsAlive | models/pokemon.py:51-52 | alive iff hp > 0, so hp exactly 0 is not alive |
| Pokemons.AliveAfterDamage | models/pokemon.py:46-52 | after a hit, hp > 0 exactly when hp exceeded the damage; otherwise hp is exactly 0, which is not alive |
| Pokemons.Pokemon.ReceiveDamage | models/pokemon.py:46-52 | new hp == max(0, old hp - damage) and >= 0; alive afterwards iff old hp > damage; keeps hp within [0, max hp] for non-negative damage; all six modifiers unchanged (other fields are const) |
| Pokemons.SelectMove | models/pokemon.py:55-56 | the default strategy plays a move iff the attacker has one, and the move it plays is one of the attacker's |
| Pokemons.SelectMoveConforms | models/pokemon.py:55-56 | the default strategy keeps the strategy contract: for every attacker with moves, defender and draw it plays one of the attacker's moves |
| Pokemons.SelectMoveReachesEveryMove | models/pokemon.py:55-56 | every move of the attacker is the default strategy's pick for some draw |
| Teams.NoneAlive | models/pokemon.py:67 | no roster member is alive (stated over membership, as the source iterates over the objects); an empty roster has no one alive |
| Teams.CountAlive | models/pokemon.py:74-75 | the count of alive roster positions never exceeds the roster size |
| Teams.NoneAliveIffCountZero | models/pokemon.py:66-75 | no member alive iff the alive count is 0 |
| Teams.AllAliveIffCountFull | models/pokemon.py:74-75 | every member alive iff the alive count equals the roster size |
| Teams.Team.constructor | models/pokemon.py:61-64 | the team keeps the roster and name given and binds the default strategy |
| Teams.Team.IsDefeated | models/pokemon.py:66-67 | defeated iff the alive count is 0; an empty roster is defeated |
| Teams.Team.GetPokemon | models/pokemon.py:69-72 | returns null iff the team is defeated; otherwise a member at some position i that is alive, with no alive member before i |
| Teams.Team.CountAlivePokemons | models/pokemon.py:74-75 | at most the roster size; 0 iff defeated; equal to the roster size iff every member is alive |
| Teams.Team.SetSelectMove | models/pokemon.py:77-78 | the bound strategy becomes the one given |
| Teams.Team.ResetTeam | models/pokemon.py:80-88 | every roster member, shared objects included, ends with hp == its own max hp and all six modifiers 0, whatever its prior state; roster, max hp, stats and moves are unchanged; with positive max hps every member is alive |
| Teams.DummyMove | models/pokemon.py:98-107 | a fixture move is a Normal, Physical move with the given name |
| Teams.AttackerDummyMoves | models/pokemon.py:97-102 | the fixture attacker has four moves |
| Teams.DefenderDummyMoves | models/pokemon.py:103-108 | the fixture defender has four moves |
| Teams.DummyMovesDisjoint | models/pokemon.py:97-108 | no move is in both fixture move lists |
| Teams.DummyAttacker | models/pokemon.py:109 | the fixture attacker's moves are "dummy1" to "dummy4" |
| Teams.DummyDefender | models/pokemon.py:110 | the fixture defender's moves are "dummy5" to "dummy8" |
| Teams.CheckSelector | models/pokemon.py:96-112 | fails (None) iff the strategy fails on the fixtures; true iff the strategy plays one of the attacker's moves, and then not one of the defender's; false iff the strategy plays a move that is not the attacker's |
| Teams.ConformingSelectorPasses | models/pokemon.py:96-112 | every strategy that keeps the contract passes the check on every draw |
| Teams.SelectMovePasses | models/pokemon.py:55-64 | the default strategy passes the check on every draw |
| Teams.DefenderMoveFails | models/pokemon.py:103-112 | a strategy that plays one of the defender's moves fails the check |
| Teams.DefenderFirstMoveFails | models/pokemon.py:103-112 | "always play the defender's first move" fails the check on every draw |
| Teams.CheckIsWeakerThanContract | models/pokemon.py:96-112 | "always play dummy1" passes the check, yet it breaks the contract: the check tests one fixture, not the contract |
| Teams.Team.CheckMoveSelector | models/pokemon.py:96-112 | the bound strategy is run through the fixture check, and a bound strategy that keeps the contract passes it |
| Teams.Team.IsValidTeam | models/pokemon.py:90-94 | valid iff exactly 6 members, each with exactly 4 moves, and the strategy check passes; the strategy check runs even when the roster is wrong, so a failing strategy makes the query fail (None) whatever the roster |
| Teams.ValidityWithConformingSelector | models/pokemon.py:90-112 | with a strategy that keeps the contract, the query never fails and is true iff the roster has 6 members with 4 moves each; so 5 members, or a member with 3 moves, give false |

## Left out

- Randomness: the random draw of `random.choice` is a `nat` parameter of every strategy call. The model does not capture its distribution or its uniformity. It shows only that every move is reachable by some draw.
- Exceptions: a strategy that raises returns `None`, and `IsValidTeam` then returns `None`, just as the exception propagates in the source. Other exceptions (a strategy that loops, or one that mutates the fixtures) are not modelled.
- The move and type data are plain datatypes. `models/movement.py` and `models/pokemon_type.py` are not part of this model. The members of `PokemonType` other than `Normal` are an assumed list that the core never inspects.
- The constants `SAME_TYPE_ATTACK_BONUS` and `LEVEL` are left out because no computation in the core uses them.
- Dynamic typing: base stats are `int`, following the source's type hints. Damage is `real`, which covers the hinted `int` too. The model does not capture Python's int/float distinction, such as hp becoming the integer 0 after the floor.
- Field reassignment from outside the core: name, types, max hp, the five stats, the move list, the roster and the team name are `const`, because the core never reassigns them.
- Shared lists: the source keeps the caller's own move list and roster list (`self.moves = moves`, `self.pokemons = pokemons`), so a caller that later appends to or removes from them changes the Pokemon or Team too. The model's `seq` values are copies and cannot show this; the core itself never mutates these lists.
- Move equality: `Movement` is assumed to compare by value (all fields), since `models/movement.py` is not part of this model. `CheckIsWeakerThanContract` relies on it: with identity equality, a freshly built "dummy1" move would not be found among the fixture moves.
- Floating point: the source computes the stats in float64, which equals the model's exact `real` result only while the base stats stay below about 2^49 in magnitude.
- Strategies see value snapshots (`Combatant`) of the attacker and defender, not the live objects. A strategy that mutates the Pokemon it is given is not modelled.
