/** Battle roster construction: at the start of a battle the party records and the
    enemy records are turned, in order, into fresh battle entities.  Every entity is
    appended to the aggregate roster and to exactly one side roster, the same object
    in both, and its visual is spawned at the spawn point of its index. */
module Battle {
  import opened Enemies

  datatype Option<T> = None | Some(value: T)

  /** A spawn anchor in the scene (a Transform); only its identity is carried along. */
  datatype SpawnPoint = SpawnPoint(id: nat)

  /** A party member record: the fields of PartyMember that roster construction reads. */
  datatype PartyMember = PartyMember(
    memberName: string,
    currHealth: int,
    maxHealth: int,
    initiative: int,
    strength: int,
    level: int,
    memberBattleVisualPrefab: Prefab)

  /** The visual spawned for an entity: which prefab was instantiated, and where. */
  datatype SpawnedVisual = SpawnedVisual(prefab: Prefab, position: SpawnPoint)

  /** The values an entity's fields hold, as one value. */
  datatype EntityValues = EntityValues(
    name: string,
    currHealth: int,
    maxHealth: int,
    initiative: int,
    strength: int,
    level: int,
    isPlayer: bool)

  /** The values a party member's entity is given: its own stats, on the player side. */
  function MemberValues(m: PartyMember): EntityValues
  {
    EntityValues(m.memberName, m.currHealth, m.maxHealth, m.initiative, m.strength, m.level, true)
  }

  /** The values an enemy's entity is given: its own stats, on the enemy side. */
  function EnemyValues(e: Enemy): EntityValues
  {
    EntityValues(e.enemyName, e.currHealth, e.maxHealth, e.initiative, e.strength, e.level, false)
  }

  /** One combatant for the duration of a battle. */
  class BattleEntities {
    var name: string
    var currHealth: int
    var maxHealth: int
    var initiative: int
    var strength: int
    var level: int
    var isPlayer: bool
    var battleVisuals: Option<SpawnedVisual>

    /** A new entity holds the default values (the empty name, zeros, enemy side,
        no visual). */
    constructor()
      ensures Values() == EntityValues("", 0, 0, 0, 0, 0, false)
      ensures battleVisuals == None
    {
      name, currHealth, maxHealth, initiative, strength, level, isPlayer := "", 0, 0, 0, 0, 0, false;
      battleVisuals := None;
    }

    function Values(): EntityValues
      reads this
    {
      EntityValues(name, currHealth, maxHealth, initiative, strength, level, isPlayer)
    }

    /** Assigns every argument to the field of the same name; the visual is left alone. */
    method SetEntityValues(name: string, currHealth: int, maxHealth: int, initiative: int,
                           strength: int, level: int, isPlayer: bool)
      modifies this
      ensures this.name == name && this.currHealth == currHealth && this.maxHealth == maxHealth
      ensures this.initiative == initiative && this.strength == strength && this.level == level
      ensures this.isPlayer == isPlayer
      ensures battleVisuals == old(battleVisuals)
    {
      this.name := name;
      this.currHealth := currHealth;
      this.maxHealth := maxHealth;
      this.initiative := initiative;
      this.strength := strength;
      this.level := level;
      this.isPlayer := isPlayer;
    }
  }

  /** The entities of battlers on one side, in roster order. */
  ghost function SideOf(battlers: seq<BattleEntities>, isPlayer: bool): (r: seq<BattleEntities>)
    reads battlers
    ensures |r| <= |battlers|
    ensures forall e :: e in r ==> e in battlers && e.isPlayer == isPlayer
  {
    if battlers == [] then []
    else (if battlers[0].isPlayer == isPlayer then [battlers[0]] else []) + SideOf(battlers[1..], isPlayer)
  }

  /** Taking one side of two rosters joined is taking it of each and joining. */
  lemma {:induction false} SideOfAppend(a: seq<BattleEntities>, b: seq<BattleEntities>, isPlayer: bool)
    ensures SideOf(a + b, isPlayer) == SideOf(a, isPlayer) + SideOf(b, isPlayer)
    decreases |a|
  {
    if a == [] {
      assert a + b == b;
    } else {
      assert (a + b)[1..] == a[1..] + b;
      SideOfAppend(a[1..], b, isPlayer);
    }
  }

  /** A roster whose entities are all on one side is its own view of that side. */
  lemma {:induction false} SideOfAll(battlers: seq<BattleEntities>, isPlayer: bool)
    requires forall e :: e in battlers ==> e.isPlayer == isPlayer
    ensures SideOf(battlers, isPlayer) == battlers
    decreases |battlers|
  {
    if battlers != [] {
      var rest := battlers[1..];
      assert forall e :: e in rest ==> e in battlers;
      SideOfAll(rest, isPlayer);
      assert [battlers[0]] + rest == battlers;
    }
  }

  /** A roster with no entity on one side has an empty view of that side. */
  lemma {:induction false} SideOfNone(battlers: seq<BattleEntities>, isPlayer: bool)
    requires forall e :: e in battlers ==> e.isPlayer != isPlayer
    ensures SideOf(battlers, isPlayer) == []
    decreases |battlers|
  {
    if battlers != [] {
      var rest := battlers[1..];
      assert forall e :: e in rest ==> e in battlers;
      SideOfNone(rest, isPlayer);
    }
  }

  /** A roster made of player entities followed by enemy entities has exactly those
      two lists as its side views. */
  lemma SideViews(players: seq<BattleEntities>, enemies: seq<BattleEntities>)
    requires forall e :: e in players ==> e.isPlayer
    requires forall e :: e in enemies ==> !e.isPlayer
    ensures SideOf(players + enemies, true) == players
    ensures SideOf(players + enemies, false) == enemies
  {
    SideOfAppend(players, enemies, true);
    SideOfAppend(players, enemies, false);
    SideOfAll(players, true);
    SideOfNone(players, false);
    SideOfAll(enemies, false);
    SideOfNone(enemies, true);
  }

  /** The entity holds the given values and the visual of the given prefab spawned
      at the given point. */
  ghost predicate BuiltFrom(b: BattleEntities, values: EntityValues, prefab: Prefab, at: SpawnPoint)
    reads b
  {
    b.Values() == values && b.battleVisuals == Some(SpawnedVisual(prefab, at))
  }

  /** No entity appears twice. */
  ghost predicate Distinct(battlers: seq<BattleEntities>)
  {
    forall i, j :: 0 <= i < j < |battlers| ==> battlers[i] != battlers[j]
  }

  /** Two rosters with no entity in common, each without repeats, join without repeats. */
  lemma DistinctAppend(a: seq<BattleEntities>, b: seq<BattleEntities>)
    requires Distinct(a) && Distinct(b)
    requires forall e :: e in a ==> e !in b
    ensures Distinct(a + b)
  {
    forall i, j | 0 <= i < j < |a + b| ensures (a + b)[i] != (a + b)[j] {
      if i < |a| && j >= |a| {
        assert (a + b)[i] in a && (a + b)[j] in b;
      }
    }
  }

  /** The battle system: the spawn points configured in the scene (never written) and
      the three battler lists, all empty until Start. */
  class BattleSystem {
    const partySpawnPoints: seq<SpawnPoint>
    const enemySpawnPoints: seq<SpawnPoint>
    var allBattlers: seq<BattleEntities>
    var enemyBattlers: seq<BattleEntities>
    var playerBattlers: seq<BattleEntities>

    constructor(partySpawnPoints: seq<SpawnPoint>, enemySpawnPoints: seq<SpawnPoint>)
      ensures this.partySpawnPoints == partySpawnPoints && this.enemySpawnPoints == enemySpawnPoints
      ensures allBattlers == [] && enemyBattlers == [] && playerBattlers == []
    {
      this.partySpawnPoints := partySpawnPoints;
      this.enemySpawnPoints := enemySpawnPoints;
      allBattlers, enemyBattlers, playerBattlers := [], [], [];
    }

    /** battlers[i] was built from party[i]: its values, and its visual from the
        member's prefab at the i-th party spawn point. */
    ghost predicate BuiltFromParty(battlers: seq<BattleEntities>, party: seq<PartyMember>)
      reads battlers
    {
      |battlers| <= |party| && |battlers| <= |partySpawnPoints| &&
      forall i :: 0 <= i < |battlers| ==> BuiltFrom(battlers[i], MemberValues(party[i]),
                                                    party[i].memberBattleVisualPrefab, partySpawnPoints[i])
    }

    /** battlers[i] was built from enemies[i]: its values, and its visual from the
        enemy's prefab at the i-th enemy spawn point. */
    ghost predicate BuiltFromEnemies(battlers: seq<BattleEntities>, enemies: seq<Enemy>)
      reads battlers
    {
      |battlers| <= |enemies| && |battlers| <= |enemySpawnPoints| &&
      forall i :: 0 <= i < |battlers| ==> BuiltFrom(battlers[i], EnemyValues(enemies[i]),
                                                    enemies[i].enemyVisualPrefab, enemySpawnPoints[i])
    }

    /** Builds one fresh player-side entity per party member, in party order, and
        appends each to the aggregate roster and to the player roster.  The i-th
        member needs the i-th party spawn point. */
    method CreatePartyEntities(currentParty: seq<PartyMember>) returns (ghost added: seq<BattleEntities>)
      requires |currentParty| <= |partySpawnPoints|
      modifies this
      ensures allBattlers == old(allBattlers) + added
      ensures playerBattlers == old(playerBattlers) + added
      ensures enemyBattlers == old(enemyBattlers)
      ensures |added| == |currentParty| && BuiltFromParty(added, currentParty)
      ensures forall e :: e in added ==> fresh(e) && e.isPlayer
      ensures Distinct(added)
    {
      added := [];
      for i := 0 to |currentParty|
        invariant allBattlers == old(allBattlers) + added
        invariant playerBattlers == old(playerBattlers) + added
        invariant enemyBattlers == old(enemyBattlers)
        invariant |added| == i
        invariant forall k :: 0 <= k < i ==>
                    BuiltFrom(added[k], MemberValues(currentParty[k]), currentParty[k].memberBattleVisualPrefab, partySpawnPoints[k])
        invariant forall k :: 0 <= k < i ==> fresh(added[k])
        invariant Distinct(added)
      {
        var member := currentParty[i];
        var tempEntity := new BattleEntities();
        tempEntity.SetEntityValues(member.memberName, member.currHealth, member.maxHealth,
                                   member.initiative, member.strength, member.level, true);
        tempEntity.battleVisuals := Some(SpawnedVisual(member.memberBattleVisualPrefab, partySpawnPoints[i]));
        allBattlers, playerBattlers := allBattlers + [tempEntity], playerBattlers + [tempEntity];
        added := added + [tempEntity];
      }
    }

    /** Builds one fresh enemy-side entity per enemy, in enemy order, and appends
        each to the aggregate roster and to the enemy roster.  The i-th enemy needs
        the i-th enemy spawn point. */
    method CreateEnemyEntities(currentEnemies: seq<Enemy>) returns (ghost added: seq<BattleEntities>)
      requires |currentEnemies| <= |enemySpawnPoints|
      modifies this
      ensures allBattlers == old(allBattlers) + added
      ensures enemyBattlers == old(enemyBattlers) + added
      ensures playerBattlers == old(playerBattlers)
      ensures |added| == |currentEnemies| && BuiltFromEnemies(added, currentEnemies)
      ensures forall e :: e in added ==> fresh(e) && !e.isPlayer
      ensures Distinct(added)
    {
      added := [];
      for i := 0 to |currentEnemies|
        invariant allBattlers == old(allBattlers) + added
        invariant enemyBattlers == old(enemyBattlers) + added
        invariant playerBattlers == old(playerBattlers)
        invariant |added| == i
        invariant forall k :: 0 <= k < i ==>
                    BuiltFrom(added[k], EnemyValues(currentEnemies[k]), currentEnemies[k].enemyVisualPrefab, enemySpawnPoints[k])
        invariant forall k :: 0 <= k < i ==> fresh(added[k])
        invariant Distinct(added)
      {
        var enemy := currentEnemies[i];
        var tempEntity := new BattleEntities();
        tempEntity.SetEntityValues(enemy.enemyName, enemy.currHealth, enemy.maxHealth,
                                   enemy.initiative, enemy.strength, enemy.level, false);
        tempEntity.battleVisuals := Some(SpawnedVisual(enemy.enemyVisualPrefab, enemySpawnPoints[i]));
        allBattlers := allBattlers + [tempEntity];
        enemyBattlers := enemyBattlers + [tempEntity];
        added := added + [tempEntity];
      }
    }

    /** Party entities followed by enemy entities, as the two builders leave them, have
        exactly those two lists as their side views. */
    lemma RosterSides(party: seq<BattleEntities>, enemies: seq<BattleEntities>,
                      currentParty: seq<PartyMember>, currentEnemies: seq<Enemy>)
      requires BuiltFromParty(party, currentParty)
      requires BuiltFromEnemies(enemies, currentEnemies)
      ensures SideOf(party + enemies, true) == party
      ensures SideOf(party + enemies, false) == enemies
    {
      forall e | e in party ensures e.isPlayer {
        var k :| 0 <= k < |party| && party[k] == e;
      }
      forall e | e in enemies ensures !e.isPlayer {
        var k :| 0 <= k < |enemies| && enemies[k] == e;
      }
      SideViews(party, enemies);
    }

    /** Builds the party entities, then the enemy entities from the enemy manager's
        current list.  The party list, which a party manager supplies, is a parameter;
        the ghost results name the entities each pass built.
        From empty rosters, the aggregate roster is the party followed by the enemies,
        and each side roster is exactly that side's part of the aggregate. */
    method Start(currentParty: seq<PartyMember>, enemyManager: EnemyManager)
      returns (ghost party: seq<BattleEntities>, ghost enemies: seq<BattleEntities>)
      requires |currentParty| <= |partySpawnPoints|
      requires |enemyManager.currentEnemies| <= |enemySpawnPoints|
      modifies this
      ensures allBattlers == old(allBattlers) + party + enemies
      ensures playerBattlers == old(playerBattlers) + party
      ensures enemyBattlers == old(enemyBattlers) + enemies
      ensures |party| == |currentParty| && BuiltFromParty(party, currentParty)
      ensures |enemies| == |enemyManager.currentEnemies| && BuiltFromEnemies(enemies, enemyManager.currentEnemies)
      ensures forall e :: e in party + enemies ==> fresh(e)
      ensures Distinct(party + enemies)
      ensures old(allBattlers) == [] && old(playerBattlers) == [] && old(enemyBattlers) == [] ==>
        allBattlers == playerBattlers + enemyBattlers &&
        playerBattlers == SideOf(allBattlers, true) &&
        enemyBattlers == SideOf(allBattlers, false)
    {
      party := CreatePartyEntities(currentParty);
      label PartyBuilt:
      assert forall e :: e in party ==> allocated(e);
      var currentEnemies := enemyManager.GetCurrentEnemies();
      enemies := CreateEnemyEntities(currentEnemies);
      assert currentEnemies == enemyManager.currentEnemies;
      // The enemy pass changes only this system and the entities it creates, so the
      // party entities keep the values they were built with.
      assert forall e :: e in party ==> unchanged@PartyBuilt(e);
      forall k | 0 <= k < |party|
        ensures BuiltFrom(party[k], MemberValues(currentParty[k]), currentParty[k].memberBattleVisualPrefab, partySpawnPoints[k])
      {
        assert party[k] in party;
        assert old@PartyBuilt(BuiltFrom(party[k], MemberValues(currentParty[k]), currentParty[k].memberBattleVisualPrefab, partySpawnPoints[k]));
      }
      // The enemy entities are fresh after the party pass, so no entity is in both lists.
      assert forall e :: e in party ==> e !in enemies;
      DistinctAppend(party, enemies);
      if old(allBattlers) == [] && old(playerBattlers) == [] && old(enemyBattlers) == [] {
        assert old(allBattlers) + party == party;
        assert allBattlers == party + enemies;
        assert playerBattlers == party && enemyBattlers == enemies;
        RosterSides(party, enemies, currentParty, currentEnemies);
      }
    }
  }
}
