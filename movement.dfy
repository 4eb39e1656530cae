/**
 * Minimal stand-ins for the move and type data the combatant core consumes.
 * They are plain values: the core only builds them, stores them and compares
 * them for equality.
 */
module Movements {

  /** The closed enumeration of combatant and move types. */
  datatype PokemonType =
    | Normal | Fire | Water | Grass | Electric | Ice | Fighting | Poison | Ground
    | Flying | Psychic | Bug | Rock | Ghost | Dragon | Dark | Steel | Fairy

  /** The closed enumeration of move kinds. */
  datatype MovementKind = Physical | Special | Status

  /** An attack move; two moves are the same move iff all their fields agree. */
  datatype Movement = Movement(
    name: string,
    description: string,
    moveType: PokemonType,
    kind: MovementKind,
    power: int,
    accuracy: string,
    pp: int)
}
