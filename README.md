# Battle roster and enemy generation (Buggy-Friends)

This project models, in Dafny, the two pieces of sequential logic of the game's battle
scene:

- **Enemy generation** (`Enemies`, `enemy_manager.dfy`). The enemy manager keeps a table of
  enemy templates and a current enemy list. `GenerateEnemyByName(name, level)` scans the
  table. For every template with that name it appends a new enemy. The enemy has the
  requested level, full health, and each base stat scaled by `1 + 0.5 * level`, rounded
  the way `Mathf.RoundToInt` rounds: to the nearest integer, ties to the even one.
  On wake-up the manager generates the level-99 "Slime" enemies.
- **Roster construction** (`Battle`, `battle_system.dfy`). At battle start the battle
  system turns the party records, then the enemy records, into fresh `BattleEntities`
  objects. Each object is stamped with its side, appended to the aggregate roster
  `allBattlers` and to its side roster (`playerBattlers` or `enemyBattlers`). The same
  object goes into both lists. The i-th record's visual is spawned at the i-th spawn point
  of its side.
- **Rounding** (`Rounding`, `rounding.dfy`). Round-half-to-even of an exact fraction, with
  its defining property and its uniqueness.

The state the source changes in place is modelled as classes: `EnemyManager` with its
`currentEnemies` list, `BattleSystem` with its three battler lists, and `BattleEntities`
with its fields. Each list is a `seq` field that the methods reassign. The three
loops are `for` loops proved against specifications:
- The generation loop is proved against the function `Generated`.
- The roster loops are proved against the predicates `BuiltFromParty` and `BuiltFromEnemies`,
  with freshness and distinctness of the new entities. Each roster method has a ghost
  result naming the entities it appended.
The stat scaling is a pure function. Lemmas characterise it and `Generated`.

The code has no turn engine: `BattleSystem` only builds the rosters. `Mathf.RoundToInt`
breaks ties to the even integer, and the model does the same.

## Model

| member | source | states |
|---|---|---|
| `Rounding.RoundHalfToEven` | Assets/Scripts/EnemyManager.cs:29 | the result is within one half of n / d, and on an exact half it is the even neighbour |
| `Rounding.RoundedHalfToEvenUnique` | Assets/Scripts/EnemyManager.cs:29 | any two integers that both round n / d correctly are equal, so the rounding is fully determined |
| `Rounding.RoundedHalfToEvenUniqueOrdered` | Assets/Scripts/EnemyManager.cs:29 | the same uniqueness for two candidate roundings given in order |
| `Rounding.RoundExactQuotient` | Assets/Scripts/EnemyManager.cs:29 | a fraction that is already an integer is returned unchanged |
| `Enemies.ScaledStat` | Assets/Scripts/EnemyManager.cs:27-32 | a scaled stat is within one half of base * (1 + 0.5 * level), and is even when that value is an exact half |
| `Enemies.ScaledStatExact` | Assets/Scripts/EnemyManager.cs:27-32 | when base * (2 + level) is even the stat is exactly half of it; at level 0 it is the base |
| `Enemies.ScaledStatMonotone` | Assets/Scripts/EnemyManager.cs:27-32 | one more level never lowers a scaled stat |
| `Enemies.ScaledStatExamples` | Assets/Scripts/EnemyManager.cs:27-32 | base 5 at level 99 (252.5) gives 252; base 1 at level 1 (1.5) gives 2 |
| `Enemies.Spawn` | Assets/Scripts/EnemyManager.cs:23-33 | the enemy built from a template keeps its name and prefab, takes the requested level, starts at full health, and has each stat equal to the template's base stat times 1 + 0.5 * level, rounded half to even |
| `Enemies.Generated` | Assets/Scripts/EnemyManager.cs:19-36 | no more enemies than templates; every generated enemy has the requested name, the requested level and full health |
| `Enemies.GeneratedCount` | Assets/Scripts/EnemyManager.cs:19-36 | the number of generated enemies equals the number of templates whose name equals the requested one |
| `Enemies.GeneratedNoMatch` | Assets/Scripts/EnemyManager.cs:19-21 | when no template has the requested name, nothing is generated |
| `Enemies.GeneratedAppend` | Assets/Scripts/EnemyManager.cs:19-36 | generation over a table split in two is the first part's enemies followed by the second part's: template order is kept |
| `Enemies.GeneratedFromTemplates` | Assets/Scripts/EnemyManager.cs:21-33 | every generated enemy is the spawn of some template with the requested name: its stats are that template's scaled stats and its prefab is that template's prefab |
| `Enemies.EnemyManager.constructor` | Assets/Scripts/EnemyManager.cs:7-8 | the manager starts with the configured template table and enemy list |
| `Enemies.EnemyManager.GenerateEnemyByName` | Assets/Scripts/EnemyManager.cs:17-38 | the new enemy list is the old list, unchanged, followed by the enemies generated from the table in template order |
| `Enemies.EnemyManager.Awake` | Assets/Scripts/EnemyManager.cs:12-15 | exactly one generation happens, for "Slime" at level 99 |
| `Enemies.EnemyManager.GetCurrentEnemies` | Assets/Scripts/EnemyManager.cs:40-43 | returns the stored enemy list and changes nothing |
| `Battle.BattleEntities.constructor` | Assets/Scripts/BattleSystem.cs:77-86 | a new entity holds default values (empty name, zero stats, enemy side) and no visual |
| `Battle.BattleEntities.SetEntityValues` | Assets/Scripts/BattleSystem.cs:88-97 | every argument is stored in the field of the same name and the visual is left untouched |
| `Battle.SideOf` | Assets/Scripts/BattleSystem.cs:13-15 | the side view of a roster holds only entities of that roster on that side, and is no longer than it |
| `Battle.SideOfAppend` | Assets/Scripts/BattleSystem.cs:13-15 | the side view of two joined rosters is the two side views joined |
| `Battle.SideOfAll` | Assets/Scripts/BattleSystem.cs:13-15 | a roster whose entities are all on one side is its own view of that side |
| `Battle.SideOfNone` | Assets/Scripts/BattleSystem.cs:13-15 | a roster with no entity on one side has an empty view of that side |
| `Battle.SideViews` | Assets/Scripts/BattleSystem.cs:46-68 | a roster of player entities followed by enemy entities has exactly those two lists as its side views |
| `Battle.BattleSystem.RosterSides` | Assets/Scripts/BattleSystem.cs:30-72 | entities built from party records followed by entities built from enemy records have exactly those two lists as their side views, since the party builder stamps the player side and the enemy builder the enemy side |
| `Battle.BattleSystem.constructor` | Assets/Scripts/BattleSystem.cs:9-15 | the battle system starts with its configured spawn points and three empty battler lists |
| `Battle.BattleSystem.CreatePartyEntities` | Assets/Scripts/BattleSystem.cs:30-50 | appends the same new entities, one per party member and in party order, to both `allBattlers` and `playerBattlers`; they are fresh, pairwise distinct and on the player side; the i-th carries the i-th member's stats and its visual at the i-th party spawn point; `enemyBattlers` is unchanged; needs as many party spawn points as members |
| `Battle.BattleSystem.CreateEnemyEntities` | Assets/Scripts/BattleSystem.cs:52-72 | appends the same new entities, one per enemy and in enemy order, to both `allBattlers` and `enemyBattlers`; they are fresh, pairwise distinct and on the enemy side; the i-th carries the i-th enemy's stats and its visual at the i-th enemy spawn point; `playerBattlers` is unchanged; needs as many enemy spawn points as enemies |
| `Battle.BattleSystem.Start` | Assets/Scripts/BattleSystem.cs:21-28 | `allBattlers` grows by the party entities followed by the entities for the enemy manager's current enemies; the party entities still hold their members' values after the enemy pass; no entity occurs twice; from empty lists, `allBattlers == playerBattlers + enemyBattlers` and each side list is exactly the side view of `allBattlers` |

## Left out

- Presentation: `Instantiate`, `GetComponent`, the transform position and `Quaternion.identity` are not modelled. A spawned visual is the value "this prefab at this spawn point".
- `BattleVisuals.SetStartingValues` and its arguments are not modelled (presentation). The roster builders pass `MaxHealth` as the visual's starting current health, not `CurrHealth`. The visual's own `Start` then calls `SetStartingValues(10, 10, 5)`, which Unity runs after the builders' call, so every visual ends up showing 10 of 10 health and level 5 whatever values were passed.
- Battle.BattleSystem.Start: the party and enemy managers are found by a scene lookup (`FindFirstObjectByType`). Here the party list and the enemy manager are parameters. `PartyManager` is not part of this model: only the party records it returns are.
- Battle.BattleSystem.CreatePartyEntities, Battle.BattleSystem.CreateEnemyEntities: the source indexes the spawn-point arrays unchecked. With more records than spawn points it throws after appending some entities. The model instead requires enough spawn points and does not model the partial state left by that exception.
- Enemies.ScaledStat: the source computes in single-precision floats and rounds to a 32-bit int. The model computes exactly, so precision loss and overflow for very large base stats or levels are not captured. Template base stats are taken to be non-negative integers; `EnemyInfo` itself is not part of this model.
- Enemies.EnemyManager.GetCurrentEnemies: the source returns the list object itself (an alias). The model returns a `seq` value, so later mutation through the alias is not captured. Nothing in the modelled code mutates the returned list.
- `Enemy` objects are modelled as values. Their reference identity is not captured: each generated enemy is a fresh object that nothing in the modelled code mutates later.
- `BattleEntities` defaults: a C# string field starts as `null`. The model uses the empty string.
- `PlayerController` (input, physics, random encounters, scene loading) and `BattleVisuals` (UI widgets) are not part of this model.
- A turn engine (selection, targeting, attack resolution, defeat removal, Won/Lost/Run) is not modelled: the code has none.
