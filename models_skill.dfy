// Skills of the current crate: the eighteen skills, the ability each one
// draws on, a character's per-skill proficiency table, and the skill
// modifier (ability modifier plus the proficiency bonus times the
// proficiency multiplier).
module ModelsSkill {
  import opened Common
  import opened Modifiers
  import opened ModelsAbility

  datatype Skill =
    | Acrobatics | AnimalHandling | Arcana | Athletics | Deception | History
    | Insight | Intimidation | Investigation | Medicine | Nature | Perception
    | Performance | Persuasion | Religion | SlightOfHand | Stealth | Survival

  /** Every skill once, in declaration order. */
  function AllSkills(): (r: seq<Skill>)
    ensures |r| == 18
    ensures forall i, j :: 0 <= i < j < |r| ==> r[i] != r[j]
  {
    [Acrobatics, AnimalHandling, Arcana, Athletics, Deception, History,
     Insight, Intimidation, Investigation, Medicine, Nature, Perception,
     Performance, Persuasion, Religion, SlightOfHand, Stealth, Survival]
  }

  lemma AllSkillsComplete(s: Skill)
    ensures s in AllSkills()
  {
    match s
    case Acrobatics =>
    case AnimalHandling =>
    case Arcana =>
    case Athletics =>
    case Deception =>
    case History =>
    case Insight =>
    case Intimidation =>
    case Investigation =>
    case Medicine =>
    case Nature =>
    case Perception =>
    case Performance =>
    case Persuasion =>
    case Religion =>
    case SlightOfHand =>
    case Stealth =>
    case Survival =>
  }

  /** `get_ability`: the ability a skill check adds. */
  function GetAbility(s: Skill): Identifier
  {
    match s
    case Acrobatics | SlightOfHand | Stealth => Dexterity
    case AnimalHandling | Insight | Medicine | Perception | Survival => Wisdom
    case Arcana | History | Investigation | Nature | Religion => Intelligence
    case Athletics => Strength
    case Deception | Intimidation | Performance | Persuasion => Charisma
  }

  /**
   * The table read the other way round: the skills of each ability, and no
   * skill draws on Constitution.
   */
  lemma SkillsOfEachAbility(s: Skill)
    ensures GetAbility(s) == Dexterity <==> s in [Acrobatics, SlightOfHand, Stealth]
    ensures GetAbility(s) == Wisdom <==> s in [AnimalHandling, Insight, Medicine, Perception, Survival]
    ensures GetAbility(s) == Intelligence <==> s in [Arcana, History, Investigation, Nature, Religion]
    ensures GetAbility(s) == Strength <==> s == Athletics
    ensures GetAbility(s) == Charisma <==> s in [Deception, Intimidation, Performance, Persuasion]
    ensures GetAbility(s) != Constitution
  {
    match s
    case Acrobatics =>
    case AnimalHandling =>
    case Arcana =>
    case Athletics =>
    case Deception =>
    case History =>
    case Insight =>
    case Intimidation =>
    case Investigation =>
    case Medicine =>
    case Nature =>
    case Perception =>
    case Performance =>
    case Persuasion =>
    case Religion =>
    case SlightOfHand =>
    case Stealth =>
    case Survival =>
  }

  /**
   * A skill modifier: the ability modifier, plus the proficiency bonus once
   * when proficient and twice with expertise.
   */
  function SkillModifier(abilityModifier: int, proficiencyBonus: nat, p: Option<Proficiency>): (m: int)
    ensures p.None? ==> m == abilityModifier
    ensures p == Some(Proficient) ==> m == abilityModifier + proficiencyBonus
    ensures p == Some(Expertise) ==> m == abilityModifier + 2 * proficiencyBonus
    ensures abilityModifier <= m <= abilityModifier + 2 * proficiencyBonus
  {
    abilityModifier + proficiencyBonus * OptionalMultiplier(p)
  }

  /** A character's proficiency in each skill; a missing entry reads as none. */
  class Skills {
    var proficiencies: map<Skill, Option<Proficiency>>

    /** `Skills::default()`: every skill listed, none proficient. */
    constructor ()
      ensures forall s :: s in proficiencies && GetProficiency(s) == None
    {
      proficiencies := map[
        Acrobatics := None, AnimalHandling := None, Arcana := None, Athletics := None,
        Deception := None, History := None, Insight := None, Intimidation := None,
        Investigation := None, Medicine := None, Nature := None, Perception := None,
        Performance := None, Persuasion := None, Religion := None, SlightOfHand := None,
        Stealth := None, Survival := None];
      new;
      forall s ensures s in proficiencies {
        AllSkillsComplete(s);
      }
    }

    function GetProficiency(s: Skill): Option<Proficiency>
      reads this
    {
      if s in proficiencies then proficiencies[s] else None
    }

    /** An insert: it records `p` (clearing the skill when `p` is None) and touches no other skill. */
    method SetProficiency(s: Skill, p: Option<Proficiency>)
      modifies this
      ensures proficiencies == old(proficiencies)[s := p]
      ensures GetProficiency(s) == p
      ensures forall other :: other != s ==> GetProficiency(other) == old(GetProficiency(other))
    {
      proficiencies := proficiencies[s := p];
    }
  }
}
