/** The interface-segregation example, second version: Entity holds only a
    name, and each class receives just the capabilities it has (mover,
    attacker, hasHealth) copied onto its prototype. Calling a capability an
    object was not given is a TypeError in JavaScript; here it is an
    outcome the methods return, together with whatever was printed before
    the failing call. */
module EntitiesComposed {
  import opened DecimalText
  import EntitiesInherited

  datatype Kind = CharacterKind | WallKind | TurretKind

  datatype Capability = Mover | Attacker | HasHealth

  /** The capabilities copied onto each class's prototype. */
  function Capabilities(kind: Kind): (capabilities: set<Capability>)
    ensures Mover in capabilities <==> kind == CharacterKind
    ensures Attacker in capabilities <==> kind != WallKind
    ensures HasHealth in capabilities <==> kind != TurretKind
  {
    match kind
    case CharacterKind => {Mover, Attacker, HasHealth}
    case WallKind => {HasHealth}
    case TurretKind => {Attacker}
  }

  /** How a call ends: normally, or with a TypeError because the receiver
      has no method of the given name. */
  datatype Outcome = Completed | NotAFunction(methodName: string)

  function MovedLine(name: string): string {
    name + " moved."
  }

  /** The attack message of this version, spelled "attacked". */
  function AttackLine(attacker: string, target: string, damage: int): string {
    attacker + " attacked " + target + " for " + IntToString(damage) + " damage."
  }

  /** The health message of this version, which has no closing period. */
  function HealthLine(name: string, health: int): string {
    name + " has " + IntToString(health) + " health remaining"
  }

  class Entity {
    const kind: Kind
    var name: string
    /** Set only for the kinds that attack; a wall has no such property. */
    var attackDamage: int
    /** Set only for the kinds that have health; a turret has no such property. */
    var health: int

    constructor Character(name: string, attackDamage: int, health: int)
      ensures kind == CharacterKind
      ensures this.name == name && this.attackDamage == attackDamage && this.health == health
    {
      kind := CharacterKind;
      this.name := name;
      this.attackDamage := attackDamage;
      this.health := health;
    }

    constructor Wall(name: string, health: int)
      ensures kind == WallKind
      ensures this.name == name && this.health == health
    {
      kind := WallKind;
      this.name := name;
      this.health := health;
    }

    constructor Turret(name: string, attackDamage: int)
      ensures kind == TurretKind
      ensures this.name == name && this.attackDamage == attackDamage
    {
      kind := TurretKind;
      this.name := name;
      this.attackDamage := attackDamage;
    }

    /** Only a character can move; anything else fails without output. */
    method Move() returns (log: seq<string>, outcome: Outcome)
      ensures outcome == Completed <==> kind == CharacterKind
      ensures outcome == Completed <==> Mover in Capabilities(kind)
      ensures outcome == Completed ==> log == [MovedLine(name)]
      ensures outcome != Completed ==> log == [] && outcome == NotAFunction("move")
    {
      if Mover in Capabilities(kind) {
        log, outcome := [MovedLine(name)], Completed;
      } else {
        log, outcome := [], NotAFunction("move");
      }
    }

    /** Characters and walls lower their health by exactly the amount, with
        the same arithmetic as the first version; a turret has no takeDamage
        and is left unchanged. */
    method TakeDamage(amount: int) returns (log: seq<string>, outcome: Outcome)
      modifies this
      ensures name == old(name) && attackDamage == old(attackDamage)
      ensures outcome == Completed <==> kind != TurretKind
      ensures outcome == Completed <==> HasHealth in Capabilities(kind)
      ensures outcome == Completed ==> health == old(health) - amount && log == [HealthLine(name, health)]
      ensures outcome != Completed ==>
        health == old(health) && log == [] && outcome == NotAFunction("takeDamage")
    {
      if HasHealth in Capabilities(kind) {
        health := health - amount;
        log, outcome := [HealthLine(name, health)], Completed;
      } else {
        log, outcome := [], NotAFunction("takeDamage");
      }
    }

    /** Characters and turrets report the attack and hand their damage to the
        target's takeDamage; a wall cannot attack. Attacking a turret prints
        the attack line and then fails, since a turret cannot take damage. */
    method Attack(target: Entity) returns (log: seq<string>, outcome: Outcome)
      modifies target
      ensures target.name == old(target.name) && target.attackDamage == old(target.attackDamage)
      ensures target != this ==> name == old(name) && attackDamage == old(attackDamage) && health == old(health)
      ensures outcome == Completed <==> kind != WallKind && target.kind != TurretKind
      ensures kind == WallKind ==>
        log == [] && outcome == NotAFunction("attack") && target.health == old(target.health)
      ensures kind != WallKind && target.kind == TurretKind ==>
        log == [AttackLine(name, target.name, attackDamage)] && outcome == NotAFunction("takeDamage") &&
        target.health == old(target.health)
      ensures outcome == Completed ==>
        target.health == old(target.health) - attackDamage &&
        log == [AttackLine(name, target.name, attackDamage), HealthLine(target.name, target.health)]
    {
      if Attacker !in Capabilities(kind) {
        log, outcome := [], NotAFunction("attack");
      } else {
        var damageLog;
        damageLog, outcome := target.TakeDamage(attackDamage);
        log := [AttackLine(name, target.name, attackDamage)] + damageLog;
      }
    }
  }

  /** The same scenario as in the first version, with the composed classes:
      same health arithmetic and the same sequence of messages, reworded, and
      none of the three calls throws. */
  method Skirmish() returns (log: seq<string>, outcomes: seq<Outcome>, characterHealth: int, wallHealth: int)
    ensures log == [
      AttackLine("turret", "character", 5),
      HealthLine("character", 5),
      MovedLine("character"),
      AttackLine("character", "wall", 3),
      HealthLine("wall", 197)]
    ensures outcomes == [Completed, Completed, Completed]
    ensures characterHealth == 5 && wallHealth == 197
  {
    var turret := new Entity.Turret("turret", 5);
    var character := new Entity.Character("character", 3, 10);
    var wall := new Entity.Wall("wall", 200);
    var first, firstOutcome := turret.Attack(character);
    var second, secondOutcome := character.Move();
    var third, thirdOutcome := character.Attack(wall);
    log := first + second + third;
    outcomes := [firstOutcome, secondOutcome, thirdOutcome];
    characterHealth, wallHealth := character.health, wall.health;
  }

  /** A character of either version, hit for the same amount, is left with
      the same health. */
  method SameDamageArithmetic(name: string, attackDamage: int, health: int, amount: int)
    returns (inheritedHealth: int, composedHealth: int)
    ensures inheritedHealth == composedHealth == health - amount
  {
    var inherited := new EntitiesInherited.Entity.Character(name, attackDamage, health);
    var composed := new Entity.Character(name, attackDamage, health);
    var _ := inherited.TakeDamage(amount);
    var _, _ := composed.TakeDamage(amount);
    inheritedHealth, composedHealth := inherited.health, composed.health;
  }
}
