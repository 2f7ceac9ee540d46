// Ability scores of the older crate: the same six identifiers and the same
// score-to-modifier formula as the current crate, kept in an ordered table
// in which an ability that was never set reads as a score of 0.
module LegacyAbility {
  import opened ModelsAbility

  /**
   * `calculate_modifier`: `score as isize / 2 - 5`. The score is never
   * negative, so the truncating division of the source is Dafny's, and the
   * formula is the one of the current crate.
   */
  function CalculateModifier(score: nat): (m: int)
    ensures 2 * (m + 5) <= score < 2 * (m + 5) + 2
    ensures m == Ability(score).Modifier()
  {
    score / 2 - 5
  }

  /** The modifiers asserted by the unit tests. */
  lemma CalculateModifierExamples()
    ensures CalculateModifier(10) == 0
    ensures CalculateModifier(8) == -1 && CalculateModifier(6) == -2 && CalculateModifier(4) == -3
    ensures CalculateModifier(2) == -4 && CalculateModifier(0) == -5
    ensures CalculateModifier(12) == 1 && CalculateModifier(14) == 2 && CalculateModifier(16) == 3
    ensures CalculateModifier(18) == 4 && CalculateModifier(20) == 5
  {
  }

  /** The modifier grows by one every two points of score. */
  lemma CalculateModifierMonotone(a: nat, b: nat)
    requires a <= b
    ensures CalculateModifier(a) <= CalculateModifier(b)
    ensures CalculateModifier(b + 2) == CalculateModifier(b) + 1
  {
  }

  /** A score table keyed by ability (a `BTreeMap` in the source). */
  class Abilities {
    var scores: map<Identifier, nat>

    /** `Abilities::empty()`: nothing set, so every score reads as 0. */
    constructor Empty()
      ensures scores == map[]
      ensures forall id :: GetBaseScore(id) == 0 && GetModifier(id) == -5
    {
      scores := map[];
    }

    /** `get_base_score`: the stored score, or 0 when the ability was never set. */
    function GetBaseScore(id: Identifier): (s: nat)
      reads this
      ensures id in scores ==> s == scores[id]
      ensures id !in scores ==> s == 0
    {
      if id in scores then scores[id] else 0
    }

    /** `set_score`: an insert that overwrites one entry and no other. */
    method SetScore(id: Identifier, score: nat)
      modifies this
      ensures scores == old(scores)[id := score]
      ensures GetBaseScore(id) == score
      ensures forall other :: other != id ==> GetBaseScore(other) == old(GetBaseScore(other))
    {
      scores := scores[id := score];
    }

    /** `get_modifier`: the modifier of the base score, so -5 for an ability never set. */
    function GetModifier(id: Identifier): (m: int)
      reads this
      ensures 2 * (m + 5) <= GetBaseScore(id) < 2 * (m + 5) + 2
      ensures id !in scores ==> m == -5
    {
      CalculateModifier(GetBaseScore(id))
    }

    /** `Abilities::default()`: every ability at 8, so every modifier is -1. */
    constructor Default()
      ensures forall id :: id in scores && GetBaseScore(id) == 8 && GetModifier(id) == -1
    {
      scores := map id | id in AllIdentifiers() :: 8;
      new;
      forall id
        ensures id in scores
      {
        AllIdentifiersComplete(id);
      }
    }

    /** `From<AbilitiesTemplate>`: six `set_score` calls, one per ability, on an empty table. */
    constructor FromTemplate(t: AbilitiesTemplate)
      ensures forall id :: id in scores && GetBaseScore(id) == TemplateScore(t, id)
    {
      scores := map[];
      new;
      SetScore(Strength, t.strength);
      SetScore(Dexterity, t.dexterity);
      SetScore(Constitution, t.constitution);
      SetScore(Intelligence, t.intelligence);
      SetScore(Wisdom, t.wisdom);
      SetScore(Charisma, t.charisma);
      forall id
        ensures id in scores && GetBaseScore(id) == TemplateScore(t, id)
      {
        match id
        case Strength =>
        case Dexterity =>
        case Constitution =>
        case Intelligence =>
        case Wisdom =>
        case Charisma =>
      }
    }
  }
}
