// The character of the older crate: a record of identity fields, a race,
// an ability table and a list of classes, with derived queries for level,
// proficiency bonus and saving throws. The race is any value implementing a
// size-and-speed interface there; the one the crate ships, Human, is the
// only variant of a closed datatype here.
module LegacyCharacter {
  import opened Common
  import opened Modifiers
  import opened ModelsAbility
  import opened LegacyClass
  import LegacyAbility
  import MR = ModelsRace
  import MChar = ModelsCharacter
  import MP = ModelsPersonality

  datatype Race = Human {
    function GetSize(): MR.Size
    {
      MR.Size.Medium
    }

    function GetWalkingSpeed(): nat
    {
      30
    }
  }

  datatype Character = Character(
    name: string,
    alignment: MChar.Alignment,
    gender: Option<MChar.Gender>,
    personality: MP.Personality,
    race: Race,
    abilities: LegacyAbility.Abilities,
    classes: seq<Class>)
  {
    /** The size is the race's; every race the older crate ships is medium. */
    function GetSize(): (r: MR.Size)
      ensures r == MR.Size.Medium
    {
      race.GetSize()
    }

    /** The ability table's base score: 0 for an ability never set. */
    function GetAbilityScore(id: Identifier): (s: nat)
      reads abilities
      ensures id in abilities.scores ==> s == abilities.scores[id]
      ensures id !in abilities.scores ==> s == 0
    {
      abilities.GetBaseScore(id)
    }

    function GetAbilityModifier(id: Identifier): (m: int)
      reads abilities
      ensures 2 * (m + 5) <= GetAbilityScore(id) < 2 * (m + 5) + 2
    {
      abilities.GetModifier(id)
    }

    /** The class levels summed: 0 without classes, and never below any one class's level. */
    function GetLevel(): (l: nat)
      ensures classes == [] ==> l == 0
      ensures |classes| == 1 ==> l == classes[0].level
      ensures forall i :: 0 <= i < |classes| ==> classes[i].level <= l
    {
      SumLevelsBounds(classes);
      SumLevels(classes)
    }

    /**
     * `(level - 1) / 4 + 2` on unsigned integers, as written: the
     * subtraction overflows at level 0, which aborts a debug build; None
     * stands for that abort. A release build instead wraps to `usize::MAX`
     * and returns `usize::MAX / 4 + 2`, which is not modelled.
     */
    function GetProficiencyBonusAsWritten(): (r: Option<nat>)
      ensures r.None? <==> GetLevel() == 0
      ensures r.Some? ==> r.value >= 2 && 4 * (r.value - 2) <= GetLevel() - 1 < 4 * (r.value - 2) + 4
    {
      if GetLevel() == 0 then None else Some((GetLevel() - 1) / 4 + 2)
    }

    /**
     * The bonus as the class list computes it, with the subtraction
     * checked: 0 at level 0, and the as-written value at every other level.
     */
    function GetProficiencyBonus(): (b: nat)
      ensures GetLevel() == 0 <==> b == 0
      ensures GetProficiencyBonusAsWritten().Some? ==> b == GetProficiencyBonusAsWritten().value
    {
      LevelProficiencyBonus(GetLevel())
    }

    /** Only the primary class grants saving-throw proficiencies. */
    function GetSavingThrowProficiency(id: Identifier): (r: Option<Proficiency>)
      ensures classes == [] ==> r.None?
      ensures classes != [] ==> r == classes[0].GetSavingThrowProficiency(id)
    {
      PrimaryProficiency(classes, id)
    }

    /** The ability modifier, plus the bonus once when proficient and twice with expertise. */
    function GetSavingThrowMod(id: Identifier): (m: int)
      reads abilities
      ensures GetSavingThrowProficiency(id).None? ==> m == GetAbilityModifier(id)
      ensures GetSavingThrowProficiency(id) == Some(Proficient) ==> m == GetAbilityModifier(id) + GetProficiencyBonus()
      ensures GetSavingThrowProficiency(id) == Some(Expertise) ==> m == GetAbilityModifier(id) + 2 * GetProficiencyBonus()
    {
      GetProficiencyBonus() * OptionalMultiplier(GetSavingThrowProficiency(id)) + abilities.GetModifier(id)
    }

    /**
     * `get_saving_throw_mod` as written: it takes the unchecked bonus for
     * every ability, proficient or not, so it aborts exactly where that
     * bonus does; None stands for the abort.
     */
    function GetSavingThrowModAsWritten(id: Identifier): (r: Option<int>)
      reads abilities
      ensures r.None? <==> GetLevel() == 0
      ensures r.Some? ==> r.value == GetSavingThrowMod(id)
    {
      match GetProficiencyBonusAsWritten()
      case None => None
      case Some(b) => Some(b * OptionalMultiplier(GetSavingThrowProficiency(id)) + abilities.GetModifier(id))
    }
  }

  /** A character without classes cannot take the as-written bonus, while the checked bonus is 0. */
  lemma ClasslessBonusUnderflows(c: Character)
    requires c.classes == []
    ensures c.GetProficiencyBonusAsWritten() == None
    ensures c.GetProficiencyBonus() == 0
  {
  }

  /**
   * A classless character's saving throw aborts as written, even for an
   * ability it is not proficient in; with the checked bonus it is the plain
   * ability modifier.
   */
  lemma ClasslessSaveUnderflows(c: Character, id: Identifier)
    requires c.classes == []
    ensures c.GetSavingThrowModAsWritten(id) == None
    ensures c.GetSavingThrowMod(id) == c.GetAbilityModifier(id)
  {
  }

  /** The unit tests' dummy: no classes, a human, every ability at 8. */
  method Dummy() returns (c: Character)
    ensures fresh(c.abilities)
    ensures c.classes == [] && c.race == Human
    ensures forall id :: c.GetAbilityScore(id) == 8 && c.GetAbilityModifier(id) == -1
  {
    var abilities := new LegacyAbility.Abilities.Default();
    c := Character("Dummy", MChar.Alignment(MChar.Neutral, MChar.NeutralMorality), None,
                   MP.Personality([], [], [], []), Human, abilities, []);
  }

  /** The level tests: 0 without classes, the class level for one class, the sum for two. */
  method LevelExamples() returns (none: nat, one: nat, twenty: nat, multi: nat)
    ensures none == 0 && one == 1 && twenty == 20 && multi == 2
  {
    var c := Dummy();
    none := c.GetLevel();
    one := c.(classes := [Artificer(1)]).GetLevel();
    twenty := c.(classes := [Artificer(20)]).GetLevel();
    var both := [Artificer(1), Wizard(1)];
    assert both[..1] == [Artificer(1)];
    multi := c.(classes := both).GetLevel();
  }

  /** The bonus tests: 2 at levels 1 and 4, then one more every four levels. */
  method BonusExamples() returns (b1: nat, b4: nat, b5: nat, b9: nat, b13: nat, b17: nat)
    ensures b1 == 2 && b4 == 2 && b5 == 3 && b9 == 4 && b13 == 5 && b17 == 6
  {
    var c := Dummy();
    b1 := c.(classes := [Artificer(1)]).GetProficiencyBonus();
    b4 := c.(classes := [Artificer(4)]).GetProficiencyBonus();
    b5 := c.(classes := [Artificer(5)]).GetProficiencyBonus();
    b9 := c.(classes := [Artificer(9)]).GetProficiencyBonus();
    b13 := c.(classes := [Artificer(13)]).GetProficiencyBonus();
    b17 := c.(classes := [Artificer(17)]).GetProficiencyBonus();
  }

  /** The saving-throw tests: none without classes, the first class's for a multiclass character. */
  method SavingThrowExamples() returns (noneStr: Option<Proficiency>, artCon: Option<Proficiency>,
                                        artInt: Option<Proficiency>, multiWis: Option<Proficiency>,
                                        multiCon: Option<Proficiency>)
    ensures noneStr == None && artCon == Some(Proficient) && artInt == Some(Proficient)
    ensures multiWis == Some(Proficient) && multiCon == None
  {
    var c := Dummy();
    noneStr := c.GetSavingThrowProficiency(Strength);
    var art := c.(classes := [Artificer(1)]);
    artCon := art.GetSavingThrowProficiency(Constitution);
    artInt := art.GetSavingThrowProficiency(Intelligence);
    var multi := c.(classes := [Wizard(1), Artificer(1)]);
    multiWis := multi.GetSavingThrowProficiency(Wisdom);
    multiCon := multi.GetSavingThrowProficiency(Constitution);
  }

  /** A level-1 artificer with scores of 8: -1 on a Strength save, 1 on a Constitution save; size medium. */
  method SavingThrowModExamples() returns (strength: int, constitution: int, size: MR.Size)
    ensures strength == -1 && constitution == 1 && size == MR.Size.Medium
  {
    var c := Dummy();
    var art := c.(classes := [Artificer(1)]);
    assert art.GetAbilityModifier(Strength) == c.GetAbilityModifier(Strength) == -1;
    assert art.GetAbilityModifier(Constitution) == c.GetAbilityModifier(Constitution) == -1;
    assert art.GetProficiencyBonus() == 2;
    strength := art.GetSavingThrowMod(Strength);
    constitution := art.GetSavingThrowMod(Constitution);
    size := c.GetSize();
  }
}
