/**
 * A combatant: battle stats derived once from base stats, a current hp that
 * damage lowers, six stage modifiers, and a fixed list of moves; plus the
 * move-selection strategy and its default, a random pick among the
 * attacker's moves.
 *
 * All stat arithmetic is exact: every constant is a multiple of 1/8, so the
 * derived values are `real`s rather than floating-point numbers.
 */
module Pokemons {
  import opened Wrappers
  import opened Movements

  /** The fixed genetic constants of the stat formula. */
  const IV: int := 30
  const EV: int := 85

  /** Max hp from the base hp stat. */
  function HpStat(base: int): (r: real)
    ensures r == base as real + 85.625
  {
    base as real + IV as real * 0.5 + EV as real * 0.125 + 60.0
  }

  /** Attack, defense, special attack, special defense or speed from its base stat. */
  function BattleStat(base: int): (r: real)
    ensures r == base as real + 30.625
  {
    base as real + IV as real * 0.5 + EV as real * 0.125 + 5.0
  }

  /** The six stage modifiers of a combatant. */
  datatype Stages = Stages(
    attack: int, defense: int, spAttack: int, spDefense: int, speed: int, accuracy: int)

  /** No stage has been raised or lowered. */
  const Neutral: Stages := Stages(0, 0, 0, 0, 0, 0)

  /**
   * The value of a combatant at one moment: what a move selector is shown of
   * the attacker and of the defender.
   */
  datatype Combatant = Combatant(
    name: string,
    type1: PokemonType,
    type2: Option<PokemonType>,
    maxHp: real,
    hp: real,
    attack: real,
    defense: real,
    spAttack: real,
    spDefense: real,
    speed: real,
    stages: Stages,
    moves: seq<Movement>)

  /** The combatant a construction from these base stats produces. */
  function NewCombatant(
    name: string, type1: PokemonType, type2: Option<PokemonType>,
    hp: int, attack: int, defense: int, spAttack: int, spDefense: int, speed: int,
    moves: seq<Movement>): (c: Combatant)
    ensures c.name == name && c.type1 == type1 && c.type2 == type2
    ensures c.maxHp == hp as real + 85.625 && c.hp == c.maxHp
    ensures c.attack == attack as real + 30.625
    ensures c.defense == defense as real + 30.625
    ensures c.spAttack == spAttack as real + 30.625
    ensures c.spDefense == spDefense as real + 30.625
    ensures c.speed == speed as real + 30.625
    ensures c.stages == Neutral && c.moves == moves
  {
    Combatant(name, type1, type2, HpStat(hp), HpStat(hp),
              BattleStat(attack), BattleStat(defense), BattleStat(spAttack),
              BattleStat(spDefense), BattleStat(speed), Neutral, moves)
  }

  /** The hp left after taking `damage` from `hp`: the difference, but never below 0. */
  function DamagedHp(hp: real, damage: real): (r: real)
    ensures r >= 0.0 && r >= hp - damage
    ensures r == 0.0 || r == hp - damage
    ensures 0.0 <= damage && 0.0 <= hp ==> r <= hp
  {
    var left := hp - damage;
    if left < 0.0 then 0.0 else left
  }

  /** A combatant survives a hit exactly when its hp exceeded the damage. */
  lemma AliveAfterDamage(hp: real, damage: real)
    ensures DamagedHp(hp, damage) > 0.0 <==> hp > damage
    ensures hp <= damage ==> DamagedHp(hp, damage) == 0.0
  {
  }

  class Pokemon {
    const name: string
    const type1: PokemonType
    const type2: Option<PokemonType>
    const maxHp: real
    var hp: real
    const attack: real
    const defense: real
    const spAttack: real
    const spDefense: real
    const speed: real
    var attackModifier: int
    var defenseModifier: int
    var spAttackModifier: int
    var spDefenseModifier: int
    var speedModifier: int
    var accuracyModifier: int
    const moves: seq<Movement>

    /** The current value of this combatant. */
    function View(): (c: Combatant)
      reads this
      ensures c.hp == hp && c.maxHp == maxHp && c.moves == moves
    {
      Combatant(name, type1, type2, maxHp, hp, attack, defense, spAttack, spDefense, speed,
                Stages(attackModifier, defenseModifier, spAttackModifier,
                       spDefenseModifier, speedModifier, accuracyModifier),
                moves)
    }

    /** hp lies between 0 and the maximum. */
    ghost predicate HpInRange()
      reads this
    {
      0.0 <= hp <= maxHp
    }

    /** The stage modifiers are all 0. */
    predicate StagesNeutral()
      reads this
    {
      attackModifier == 0 && defenseModifier == 0 && spAttackModifier == 0 &&
      spDefenseModifier == 0 && speedModifier == 0 && accuracyModifier == 0
    }

    constructor (
      name: string, type1: PokemonType, type2: Option<PokemonType>,
      hp: int, attack: int, defense: int, spAttack: int, spDefense: int, speed: int,
      moves: seq<Movement>)
      ensures View() == NewCombatant(name, type1, type2, hp, attack, defense,
                                     spAttack, spDefense, speed, moves)
      ensures this.maxHp == hp as real + 85.625 && this.hp == this.maxHp
      ensures StagesNeutral() && this.moves == moves
      ensures hp as real >= -85.625 ==> HpInRange()
    {
      this.name := name;
      this.type1 := type1;
      this.type2 := type2;
      this.maxHp := HpStat(hp);
      this.hp := HpStat(hp);
      this.attack := BattleStat(attack);
      this.defense := BattleStat(defense);
      this.spAttack := BattleStat(spAttack);
      this.spDefense := BattleStat(spDefense);
      this.speed := BattleStat(speed);
      this.attackModifier := 0;
      this.defenseModifier := 0;
      this.spAttackModifier := 0;
      this.spDefenseModifier := 0;
      this.speedModifier := 0;
      this.accuracyModifier := 0;
      this.moves := moves;
    }

    /** Alive means strictly positive hp. */
    predicate IsAlive()
      reads this
      ensures IsAlive() <==> hp > 0.0
      ensures hp == 0.0 ==> !IsAlive()
    {
      hp > 0.0
    }

    /** Takes `damage`, flooring hp at 0; a negative amount heals without bound. */
    method ReceiveDamage(damage: real)
      modifies this
      ensures hp == DamagedHp(old(hp), damage) && hp >= 0.0
      ensures IsAlive() <==> old(hp) > damage
      ensures damage >= 0.0 && old(HpInRange()) ==> HpInRange()
      ensures attackModifier == old(attackModifier) && defenseModifier == old(defenseModifier)
      ensures spAttackModifier == old(spAttackModifier) && spDefenseModifier == old(spDefenseModifier)
      ensures speedModifier == old(speedModifier) && accuracyModifier == old(accuracyModifier)
    {
      hp := hp - damage;
      if hp < 0.0 {
        hp := 0.0;
      }
      AliveAfterDamage(old(hp), damage);
    }
  }

  /**
   * A move-selection strategy: given the attacker, the defender and a random
   * draw, the move the attacker plays, or None when the strategy fails (raises).
   */
  type MoveSelector = (Combatant, Combatant, nat) -> Option<Movement>

  /** The strategy's contract: whenever the attacker has moves, it plays one of them. */
  ghost predicate Conforms(selector: MoveSelector)
  {
    forall attacker: Combatant, defender: Combatant, draw: nat
      :: |attacker.moves| > 0 ==>
           selector(attacker, defender, draw).Some? &&
           selector(attacker, defender, draw).value in attacker.moves
  }

  /** The default strategy: the move at a random position of the attacker's list. */
  function SelectMove(attacker: Combatant, defender: Combatant, draw: nat): (m: Option<Movement>)
    ensures m.Some? <==> |attacker.moves| > 0
    ensures m.Some? ==> m.value in attacker.moves
  {
    if |attacker.moves| == 0 then None
    else Some(attacker.moves[draw % |attacker.moves|])
  }

  lemma SelectMoveConforms()
    ensures Conforms(SelectMove)
  {
  }

  /** Every move of the attacker is the default strategy's pick for some draw. */
  lemma SelectMoveReachesEveryMove(attacker: Combatant, defender: Combatant, i: nat)
    requires i < |attacker.moves|
    ensures exists draw: nat :: SelectMove(attacker, defender, draw) == Some(attacker.moves[i])
  {
    assert SelectMove(attacker, defender, i) == Some(attacker.moves[i]);
  }
}
