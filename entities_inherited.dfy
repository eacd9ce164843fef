/** The interface-segregation example, first version: one Entity base class
    offers move, attack and takeDamage, and Wall and Turret override the
    ones they cannot do with methods that do nothing. */
module EntitiesInherited {
  import opened DecimalText

  /** Which class an entity was constructed as. Character adds nothing to
      Entity; Wall and Turret override. */
  datatype Kind = CharacterKind | WallKind | TurretKind

  function MovedLine(name: string): string {
    name + " moved."
  }

  /** The attack message, with the source's spelling "attcked". */
  function AttackLine(attacker: string, target: string, damage: int): string {
    attacker + " attcked " + target + " for " + IntToString(damage) + " damage."
  }

  function HealthLine(name: string, health: int): string {
    name + " has " + IntToString(health) + " health remaining."
  }

  class Entity {
    const kind: Kind
    var name: string
    var attackDamage: int
    var health: int

    constructor Character(name: string, attackDamage: int, health: int)
      ensures kind == CharacterKind
      ensures this.name == name && this.attackDamage == attackDamage && this.health == health
    {
      kind := CharacterKind;
      this.name := name;
      this.attackDamage := attackDamage;
      this.health := health;
    }

    /** A wall is built with no attack damage. */
    constructor Wall(name: string, health: int)
      ensures kind == WallKind
      ensures this.name == name && attackDamage == 0 && this.health == health
    {
      kind := WallKind;
      this.name := name;
      attackDamage := 0;
      this.health := health;
    }

    /** A turret is built with health -1. */
    constructor Turret(name: string, attackDamage: int)
      ensures kind == TurretKind
      ensures this.name == name && this.attackDamage == attackDamage && health == -1
    {
      kind := TurretKind;
      this.name := name;
      this.attackDamage := attackDamage;
      health := -1;
    }

    /** Only a character reports a move; walls and turrets do nothing. */
    method Move() returns (log: seq<string>)
      ensures kind == CharacterKind ==> log == [MovedLine(name)]
      ensures kind != CharacterKind ==> log == []
    {
      if kind == CharacterKind {
        log := [MovedLine(name)];
      } else {
        log := [];
      }
    }

    /** Lowers health by exactly the amount and reports what is left; a
        turret ignores the damage and keeps its health. */
    method TakeDamage(amount: int) returns (log: seq<string>)
      modifies this
      ensures name == old(name) && attackDamage == old(attackDamage)
      ensures kind == TurretKind ==> health == old(health) && log == []
      ensures kind != TurretKind ==> health == old(health) - amount && log == [HealthLine(name, health)]
    {
      if kind == TurretKind {
        log := [];
      } else {
        health := health - amount;
        log := [HealthLine(name, health)];
      }
    }

    /** Passes this entity's attack damage to the target's takeDamage, after
        reporting the attack. A wall does nothing. Only the target changes,
        and only its health; the attacker changes only when it attacks itself. */
    method Attack(target: Entity) returns (log: seq<string>)
      modifies target
      ensures target.name == old(target.name) && target.attackDamage == old(target.attackDamage)
      ensures target != this ==> name == old(name) && attackDamage == old(attackDamage) && health == old(health)
      ensures kind == WallKind ==> log == [] && target.health == old(target.health)
      ensures kind != WallKind && target.kind == TurretKind ==>
        log == [AttackLine(name, target.name, attackDamage)] && target.health == old(target.health)
      ensures kind != WallKind && target.kind != TurretKind ==>
        target.health == old(target.health) - attackDamage &&
        log == [AttackLine(name, target.name, attackDamage), HealthLine(target.name, target.health)]
    {
      if kind == WallKind {
        log := [];
      } else {
        var damageLog := target.TakeDamage(attackDamage);
        log := [AttackLine(name, target.name, attackDamage)] + damageLog;
      }
    }
  }

  /** The scenario after the classes: a turret hits a character with 10
      health for 5, the character moves, then hits a wall of 200 for 3. */
  method Skirmish() returns (log: seq<string>, turretHealth: int, characterHealth: int, wallHealth: int)
    ensures log == [
      AttackLine("turret", "character", 5),
      HealthLine("character", 5),
      MovedLine("character"),
      AttackLine("character", "wall", 3),
      HealthLine("wall", 197)]
    ensures turretHealth == -1 && characterHealth == 5 && wallHealth == 197
  {
    var turret := new Entity.Turret("turret", 5);
    var character := new Entity.Character("character", 3, 10);
    var wall := new Entity.Wall("wall", 200);
    var first := turret.Attack(character);
    var second := character.Move();
    var third := character.Attack(wall);
    log := first + second + third;
    turretHealth, characterHealth, wallHealth := turret.health, character.health, wall.health;
  }
}
