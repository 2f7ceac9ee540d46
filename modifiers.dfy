// Modifiers shared by both generations: the proficiency level whose
// discriminant is used as a multiplier, damage resistances, and the two
// variant-encumbrance tiers.
module Modifiers {
  import opened Common

  /** `Proficiency::Proficiency = 1` and `Proficiency::Expertise = 2`. */
  datatype Proficiency = Proficient | Expertise

  /** The discriminant of a proficiency level (`p as isize`). */
  function Multiplier(p: Proficiency): (r: nat)
    ensures 1 <= r <= 2
    ensures r == 2 <==> p == Expertise
  {
    match p
    case Proficient => 1
    case Expertise => 2
  }

  /** `map_or(0, |p| p as isize)`: no proficiency multiplies by 0. */
  function OptionalMultiplier(p: Option<Proficiency>): (r: nat)
    ensures r <= 2
    ensures r == 0 <==> p.None?
  {
    match p
    case None => 0
    case Some(q) => Multiplier(q)
  }

  datatype Resistance = Vulnerable | Resistant | Immune

  /** The variant-encumbrance tiers of the current crate. */
  datatype Encumbrance = Encumbered | HeavilyEncumbered
}
