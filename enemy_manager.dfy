/** The enemy manager: a table of enemy templates, and the list of enemies generated
    from it for the next encounter.  An enemy of a given level gets each base stat of
    its template scaled by 1 + LEVEL_MODIFIER * level and rounded half to even. */
module Enemies {
  import opened Rounding

  /** A visual prefab (a Unity GameObject asset); only its identity is carried along. */
  datatype Prefab = Prefab(id: nat)

  /** An enemy template: the fields of EnemyInfo that generation reads.  Base stats
      are taken to be non-negative integers. */
  datatype EnemyInfo = EnemyInfo(
    enemyName: string,
    baseHealth: nat,
    baseStr: nat,
    baseInitiative: nat,
    enemyVisualPrefab: Prefab)

  /** A generated enemy, as handed to the battle system. */
  datatype Enemy = Enemy(
    enemyName: string,
    level: int,
    currHealth: int,
    maxHealth: int,
    strength: int,
    initiative: int,
    enemyVisualPrefab: Prefab)

  /** LEVEL_MODIFIER = 0.5, kept as the exact fraction LEVEL_MODIFIER_NUM / LEVEL_MODIFIER_DEN. */
  const LEVEL_MODIFIER_NUM: int := 1
  const LEVEL_MODIFIER_DEN: int := 2

  /** RoundToInt(base + base * (LEVEL_MODIFIER * level)), computed exactly: the value
      base * (2 + level) / 2 rounded to the nearest integer, ties to the even one. */
  function ScaledStat(base: nat, level: int): (r: int)
    // r is within one half of base * (1 + level / 2) ...
    ensures -1 <= base * (2 + level) - 2 * r <= 1
    // ... and when that value is exactly halfway between two integers, r is the even one
    ensures (base * (2 + level)) % 2 == 1 ==> r % 2 == 0
  {
    RoundHalfToEven(base * LEVEL_MODIFIER_DEN + base * (LEVEL_MODIFIER_NUM * level), LEVEL_MODIFIER_DEN)
  }

  /** Level 0 leaves a stat at its base value, and an exact value is not rounded. */
  lemma ScaledStatExact(base: nat, level: int)
    requires (base * (2 + level)) % 2 == 0
    ensures ScaledStat(base, level) * 2 == base * (2 + level)
    ensures level == 0 ==> ScaledStat(base, level) == base
  {
  }

  /** A stat never decreases when the level goes up. */
  lemma ScaledStatMonotone(base: nat, level: int)
    ensures ScaledStat(base, level) <= ScaledStat(base, level + 1)
  {
    var r1, r2 := ScaledStat(base, level), ScaledStat(base, level + 1);
    var n1 := base * (2 + level);
    assert base * (2 + (level + 1)) == n1 + base;
    if r1 > r2 {
      // n1 >= 2 * r1 - 1 >= 2 * r2 + 1 >= n1 + base: all equal, two ties one apart.
      assert false;
    }
  }

  /** The worked example: a base of 5 at level 99 is 252.5, which rounds to 252;
      a base of 1 at level 1 is 1.5, which rounds to 2. */
  lemma ScaledStatExamples()
    ensures ScaledStat(5, 99) == 252
    ensures ScaledStat(1, 1) == 2
  {
  }

  /** The enemy generated from one template at the given level: full health, and
      every stat scaled from the template's base. */
  function Spawn(t: EnemyInfo, level: int): (r: Enemy)
    ensures r.enemyName == t.enemyName && r.level == level && r.enemyVisualPrefab == t.enemyVisualPrefab
    ensures r.currHealth == r.maxHealth
    // each stat is t's base stat times 1 + level / 2, rounded half to even
    ensures IsRoundedHalfToEven(t.baseHealth * (2 + level), 2, r.maxHealth)
    ensures IsRoundedHalfToEven(t.baseStr * (2 + level), 2, r.strength)
    ensures IsRoundedHalfToEven(t.baseInitiative * (2 + level), 2, r.initiative)
  {
    var maxHealth := ScaledStat(t.baseHealth, level);
    Enemy(t.enemyName, level, maxHealth, maxHealth,
          ScaledStat(t.baseStr, level), ScaledStat(t.baseInitiative, level),
          t.enemyVisualPrefab)
  }

  /** The enemies that generation by name appends, one per matching template, in
      template order. */
  function Generated(templates: seq<EnemyInfo>, enemyName: string, level: int): (r: seq<Enemy>)
    ensures |r| <= |templates|
    ensures forall e :: e in r ==>
              e.enemyName == enemyName && e.level == level && e.currHealth == e.maxHealth
    decreases |templates|
  {
    if templates == [] then []
    else
      var t := templates[|templates| - 1];
      Generated(templates[..|templates| - 1], enemyName, level)
        + (if t.enemyName == enemyName then [Spawn(t, level)] else [])
  }

  /** The names of the templates, in table order. */
  function TemplateNames(templates: seq<EnemyInfo>): seq<string>
  {
    seq(|templates|, i requires 0 <= i < |templates| => templates[i].enemyName)
  }

  /** Exactly one enemy is generated per template whose name matches. */
  lemma {:induction false} GeneratedCount(templates: seq<EnemyInfo>, enemyName: string, level: int)
    ensures |Generated(templates, enemyName, level)| == multiset(TemplateNames(templates))[enemyName]
    decreases |templates|
  {
    if templates != [] {
      var init := templates[..|templates| - 1];
      GeneratedCount(init, enemyName, level);
      assert TemplateNames(templates) == TemplateNames(init) + [templates[|templates| - 1].enemyName];
    }
  }

  /** When no template has the requested name, nothing is generated. */
  lemma {:induction false} GeneratedNoMatch(templates: seq<EnemyInfo>, enemyName: string, level: int)
    requires forall t :: t in templates ==> t.enemyName != enemyName
    ensures Generated(templates, enemyName, level) == []
    decreases |templates|
  {
    if templates != [] {
      var init := templates[..|templates| - 1];
      assert forall t :: t in init ==> t in templates;
      GeneratedNoMatch(init, enemyName, level);
    }
  }

  /** Generation over two consecutive stretches of the table is the generation over
      the first followed by the generation over the second: template order is kept. */
  lemma {:induction false} GeneratedAppend(a: seq<EnemyInfo>, b: seq<EnemyInfo>, enemyName: string, level: int)
    ensures Generated(a + b, enemyName, level) == Generated(a, enemyName, level) + Generated(b, enemyName, level)
    decreases |b|
  {
    if b == [] {
      assert a + b == a;
    } else {
      var init := b[..|b| - 1];
      assert (a + b)[..|a + b| - 1] == a + init;
      GeneratedAppend(a, init, enemyName, level);
    }
  }

  /** Every generated enemy is the spawn of a template with the requested name. */
  lemma {:induction false} GeneratedFromTemplates(templates: seq<EnemyInfo>, enemyName: string, level: int)
    ensures forall e :: e in Generated(templates, enemyName, level) ==>
              exists t :: t in templates && t.enemyName == enemyName && e == Spawn(t, level)
    decreases |templates|
  {
    if templates != [] {
      var init := templates[..|templates| - 1];
      GeneratedFromTemplates(init, enemyName, level);
      assert forall t :: t in init ==> t in templates;
    }
  }

  /** The enemy manager: the template table (configured in the scene, never written)
      and the current enemy list that generation appends to. */
  class EnemyManager {
    const allEnemies: seq<EnemyInfo>
    var currentEnemies: seq<Enemy>

    /** The serialized state a scene gives the manager before Awake runs. */
    constructor(allEnemies: seq<EnemyInfo>, currentEnemies: seq<Enemy>)
      ensures this.allEnemies == allEnemies && this.currentEnemies == currentEnemies
    {
      this.allEnemies := allEnemies;
      this.currentEnemies := currentEnemies;
    }

    /** On wake-up the manager generates the level-99 "Slime" enemies, once. */
    method Awake()
      modifies this
      ensures currentEnemies == old(currentEnemies) + Generated(allEnemies, "Slime", 99)
    {
      GenerateEnemyByName("Slime", 99);
    }

    /** Scans the template table and appends, for each template whose name equals
        enemyName, a new enemy of the given level with scaled stats at full health. */
    method GenerateEnemyByName(enemyName: string, level: int)
      modifies this
      ensures currentEnemies == old(currentEnemies) + Generated(allEnemies, enemyName, level)
    {
      for i := 0 to |allEnemies|
        invariant currentEnemies == old(currentEnemies) + Generated(allEnemies[..i], enemyName, level)
      {
        assert allEnemies[..i + 1][..i] == allEnemies[..i];
        if enemyName == allEnemies[i].enemyName {
          var template := allEnemies[i];
          var maxHealth := ScaledStat(template.baseHealth, level);
          var newEnemy := Enemy(
            enemyName := template.enemyName,
            level := level,
            currHealth := maxHealth,
            maxHealth := maxHealth,
            strength := ScaledStat(template.baseStr, level),
            initiative := ScaledStat(template.baseInitiative, level),
            enemyVisualPrefab := template.enemyVisualPrefab);
          currentEnemies := currentEnemies + [newEnemy];
        }
      }
      assert allEnemies[..|allEnemies|] == allEnemies;
    }

    /** The stored enemy list, unchanged. */
    method GetCurrentEnemies() returns (enemies: seq<Enemy>)
      ensures enemies == currentEnemies
    {
      enemies := currentEnemies;
    }
  }
}
