// Classes of the older crate. A class there is any value implementing a
// two-method interface (its level and its saving-throw proficiencies); the
// two implementations the crate ships, Artificer and Wizard, are the
// variants of a closed datatype here. A character's classes are a list, the
// primary class first.
module LegacyClass {
  import opened Common
  import opened Modifiers
  import opened ModelsAbility
  import MC = ModelsClass

  datatype Class = Artificer(level: nat) | Wizard(level: nat) {

    /**
     * The saving throws a class is proficient in: Constitution and
     * Intelligence for an artificer, Intelligence and Wisdom for a wizard,
     * always at plain proficiency.
     */
    function GetSavingThrowProficiency(id: Identifier): (r: Option<Proficiency>)
      ensures r.Some? ==> r.value == Proficient
      ensures Artificer? ==> (r.Some? <==> id in {Constitution, Intelligence})
      ensures Wizard? ==> (r.Some? <==> id in {Intelligence, Wisdom})
    {
      match this
      case Artificer(_) =>
        if id == Constitution || id == Intelligence then Some(Proficient) else None
      case Wizard(_) =>
        if id == Intelligence || id == Wisdom then Some(Proficient) else None
    }
  }

  /** The fold of `get_level`: the class levels summed from the first class to the last. */
  function SumLevels(classes: seq<Class>): nat
  {
    if classes == [] then 0 else SumLevels(classes[..|classes| - 1]) + classes[|classes| - 1].level
  }

  lemma SumLevelsAppend(classes: seq<Class>, c: Class)
    ensures SumLevels(classes + [c]) == SumLevels(classes) + c.level
  {
    assert (classes + [c])[..|classes|] == classes;
  }

  /** No class level exceeds the total, and a single class is its own level. */
  lemma {:induction false} SumLevelsBounds(classes: seq<Class>)
    ensures forall i :: 0 <= i < |classes| ==> classes[i].level <= SumLevels(classes)
    ensures |classes| == 1 ==> SumLevels(classes) == classes[0].level
  {
    if classes != [] {
      var init := classes[..|classes| - 1];
      SumLevelsBounds(init);
      forall i | 0 <= i < |init|
        ensures init[i].level <= SumLevels(classes)
      {
      }
    }
  }

  /** `first().and_then(..)`: only the primary class grants saving-throw proficiencies. */
  function PrimaryProficiency(classes: seq<Class>, id: Identifier): (r: Option<Proficiency>)
    ensures classes == [] ==> r.None?
    ensures classes != [] ==> r == classes[0].GetSavingThrowProficiency(id)
  {
    if classes == [] then None else classes[0].GetSavingThrowProficiency(id)
  }

  /** `checked_sub(1).map(|r| r / 4 + 2).unwrap_or(0)`: the bonus of the current crate. */
  function LevelProficiencyBonus(level: nat): (b: nat)
    ensures b == MC.ProficiencyBonus(level)
    ensures level == 0 <==> b == 0
  {
    if level >= 1 then (level - 1) / 4 + 2 else 0
  }

  /** The classes of a character, the primary class first. */
  class Classes {
    var classes: seq<Class>

    /** `Classes::empty()`: level 0 and no proficiencies. */
    constructor Empty()
      ensures classes == []
      ensures GetLevel() == 0 && GetProficiencyBonus() == 0
      ensures forall id :: GetSavingThrowProficiency(id) == None
    {
      classes := [];
    }

    /** A push: the class goes last, adds its level, and leaves the primary class alone. */
    method AddClass(c: Class)
      modifies this
      ensures classes == old(classes) + [c]
      ensures GetLevel() == old(GetLevel()) + c.level
      ensures old(classes) != [] ==>
        forall id :: GetSavingThrowProficiency(id) == old(GetSavingThrowProficiency(id))
      ensures old(classes) == [] ==>
        forall id :: GetSavingThrowProficiency(id) == c.GetSavingThrowProficiency(id)
    {
      SumLevelsAppend(classes, c);
      classes := classes + [c];
    }

    function GetLevel(): (l: nat)
      reads this
      ensures forall i :: 0 <= i < |classes| ==> classes[i].level <= l
      ensures |classes| == 1 ==> l == classes[0].level
      ensures classes == [] ==> l == 0
    {
      SumLevelsBounds(classes);
      SumLevels(classes)
    }

    function GetSavingThrowProficiency(id: Identifier): (r: Option<Proficiency>)
      reads this
      ensures classes == [] ==> r.None?
      ensures classes != [] ==> r == classes[0].GetSavingThrowProficiency(id)
    {
      PrimaryProficiency(classes, id)
    }

    /** 0 without a level, otherwise 2 rising by one every four levels. */
    function GetProficiencyBonus(): (b: nat)
      reads this
      ensures GetLevel() == 0 <==> b == 0
      ensures GetLevel() >= 1 ==> 4 * (b - 2) <= GetLevel() - 1 < 4 * (b - 2) + 4
    {
      LevelProficiencyBonus(GetLevel())
    }

    /** The bonus times the proficiency multiplier: 0, once, or twice the bonus. */
    function GetSavingThrowBonus(id: Identifier): (b: nat)
      reads this
      ensures GetSavingThrowProficiency(id).None? ==> b == 0
      ensures GetSavingThrowProficiency(id) == Some(Proficient) ==> b == GetProficiencyBonus()
      ensures GetSavingThrowProficiency(id) == Some(Expertise) ==> b == 2 * GetProficiencyBonus()
    {
      GetProficiencyBonus() * OptionalMultiplier(GetSavingThrowProficiency(id))
    }
  }

  /** `Classes(vec![..])` in the unit tests. */
  method ClassesOf(cs: seq<Class>) returns (classes: Classes)
    ensures fresh(classes) && classes.classes == cs
  {
    classes := new Classes.Empty();
    classes.classes := cs;
  }

  /** The level and bonus tests. */
  method LevelExamples() returns (none: nat, one: nat, twenty: nat, multi: nat)
    ensures none == 0 && one == 1 && twenty == 20 && multi == 2
  {
    var empty := new Classes.Empty();
    none := empty.GetLevel();
    var a1 := ClassesOf([Artificer(1)]);
    one := a1.GetLevel();
    var a20 := ClassesOf([Artificer(20)]);
    twenty := a20.GetLevel();
    var both := ClassesOf([Artificer(1), Wizard(1)]);
    assert both.classes[..1] == [Artificer(1)];
    multi := both.GetLevel();
  }

  lemma BonusExamples()
    ensures LevelProficiencyBonus(0) == 0 && LevelProficiencyBonus(1) == 2
    ensures LevelProficiencyBonus(4) == 2 && LevelProficiencyBonus(5) == 3
    ensures LevelProficiencyBonus(9) == 4 && LevelProficiencyBonus(13) == 5
    ensures LevelProficiencyBonus(17) == 6
  {
  }

  /** The saving-throw tests: a wizard who multiclasses into artificer keeps only the wizard's saves. */
  method SavingThrowExamples() returns (noneCon: Option<Proficiency>, artCon: Option<Proficiency>,
                                        artWis: Option<Proficiency>, multiCon: Option<Proficiency>,
                                        multiWis: Option<Proficiency>, multiBonus: nat)
    ensures noneCon == None && artCon == Some(Proficient) && artWis == None
    ensures multiCon == None && multiWis == Some(Proficient) && multiBonus == 2
  {
    var empty := new Classes.Empty();
    noneCon := empty.GetSavingThrowProficiency(Constitution);
    var art := ClassesOf([Artificer(1)]);
    artCon := art.GetSavingThrowProficiency(Constitution);
    artWis := art.GetSavingThrowProficiency(Wisdom);
    var multi := ClassesOf([Wizard(1), Artificer(1)]);
    multiCon := multi.GetSavingThrowProficiency(Constitution);
    multiWis := multi.GetSavingThrowProficiency(Wisdom);
    assert multi.classes[..1] == [Wizard(1)];
    multiBonus := multi.GetSavingThrowBonus(Wisdom);
  }
}
