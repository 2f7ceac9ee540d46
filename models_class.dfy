// Classes of the current crate: the per-level hit-point progression, one
// class with its level bound and saving-throw proficiencies, the by-value
// class builder, and the list of classes of a multiclassed character with
// its total level, proficiency bonus, hit points and feats.
module ModelsClass {
  import opened Common
  import opened Modifiers
  import opened ModelsAbility
  import opened ModelsFeat

  /** The highest level a class, and so a hit-point progression, can reach. */
  const MaxLevel: nat := 20

  datatype HPIncreaseError = IncorrectNumberOfIncreases

  /** The hit points of one level: its increase plus the Constitution modifier. */
  function LevelHP(increase: nat, conModifier: int): int
  {
    increase + conModifier
  }

  /** The hit points of a progression, level by level from the first. */
  function ProgressionHP(increases: seq<nat>, conModifier: int): int
  {
    if increases == [] then 0
    else ProgressionHP(increases[..|increases| - 1], conModifier) + LevelHP(increases[|increases| - 1], conModifier)
  }

  /** The plain sum of the increases. */
  function IncreaseSum(increases: seq<nat>): nat
  {
    if increases == [] then 0 else IncreaseSum(increases[..|increases| - 1]) + increases[|increases| - 1]
  }

  lemma {:induction false} ProgressionHPSplits(increases: seq<nat>, conModifier: int)
    ensures ProgressionHP(increases, conModifier) == IncreaseSum(increases) + conModifier * |increases|
  {
    if increases != [] {
      ProgressionHPSplits(increases[..|increases| - 1], conModifier);
    }
  }

  /** The hit dice rolled (or taken) at each level, first level first; at most 20 entries. */
  datatype HPIncreases = HPIncreases(increases: seq<nat>) {

    /**
     * `get_hit_points`: the sum of the increases plus the Constitution
     * modifier times the number of levels. It is computed here level by
     * level (ProgressionHP), which ProgressionHPSplits proves equal.
     */
    function HitPoints(conModifier: int): (hp: int)
      ensures hp == IncreaseSum(increases) + conModifier * |increases|
      ensures increases == [] ==> hp == 0
    {
      ProgressionHPSplits(increases, conModifier);
      ProgressionHP(increases, conModifier)
    }

    /** `add_increase`: refused once 20 levels are recorded, otherwise appended. */
    function AddIncrease(increase: nat): (r: Result<HPIncreases, HPIncreaseError>)
      ensures r.Err? <==> |increases| >= MaxLevel
      ensures r.Err? ==> r.error == IncorrectNumberOfIncreases
      ensures r.Ok? ==> r.value.increases == increases + [increase]
    {
      if |increases| >= MaxLevel then Err(IncorrectNumberOfIncreases)
      else Ok(HPIncreases(increases + [increase]))
    }
  }

  /** `HPIncreases::default()`. */
  function NoIncreases(): (r: HPIncreases)
    ensures r.increases == []
  {
    HPIncreases([])
  }

  /** `HPIncreases::new`: the first level's hit die alone. */
  function NewHPIncreases(hitDieSides: nat): (r: HPIncreases)
    ensures r.increases == [hitDieSides]
    ensures forall con :: r.HitPoints(con) == hitDieSides + con
  {
    var r := HPIncreases([hitDieSides]);
    assert IncreaseSum([hitDieSides]) == hitDieSides by {
      assert [hitDieSides][..0] == [];
    }
    r
  }

  /** `TryFrom<Vec<usize>>`: accepted exactly when it has at most 20 entries. */
  function HPIncreasesFrom(value: seq<nat>): (r: Result<HPIncreases, HPIncreaseError>)
    ensures r.Ok? <==> |value| <= MaxLevel
    ensures r.Ok? ==> r.value.increases == value
    ensures r.Err? ==> r.error == IncorrectNumberOfIncreases
  {
    if |value| > MaxLevel then Err(IncorrectNumberOfIncreases) else Ok(HPIncreases(value))
  }

  /** Adding an increase keeps a progression within the 20-entry bound. */
  lemma AddIncreaseKeepsBound(h: HPIncreases, increase: nat)
    requires |h.increases| <= MaxLevel
    ensures h.AddIncrease(increase).Ok? ==> |h.AddIncrease(increase).value.increases| <= MaxLevel
    ensures h.AddIncrease(increase).Ok? ==>
      forall con :: h.AddIncrease(increase).value.HitPoints(con) == h.HitPoints(con) + increase + con
  {
  }

  /** The hit-point examples of the unit tests. */
  lemma HitPointExamples()
    ensures NoIncreases().HitPoints(0) == 0 && NoIncreases().HitPoints(3) == 0
    ensures HPIncreases([8, 5, 5, 5, 5]).HitPoints(0) == 28
    ensures HPIncreases([8, 5, 5, 5, 5]).HitPoints(3) == 43
  {
    var s1: seq<nat> := [8];
    assert IncreaseSum(s1) == 8 by { assert s1[..0] == []; }
    var s2: seq<nat> := [8, 5];
    assert IncreaseSum(s2) == 13 by { assert s2[..1] == s1; }
    var s3: seq<nat> := [8, 5, 5];
    assert IncreaseSum(s3) == 18 by { assert s3[..2] == s2; }
    var s4: seq<nat> := [8, 5, 5, 5];
    assert IncreaseSum(s4) == 23 by { assert s4[..3] == s3; }
    var s5: seq<nat> := [8, 5, 5, 5, 5];
    assert IncreaseSum(s5) == 28 by { assert s5[..4] == s4; }
  }

  datatype ClassError = MissingName | LevelOutOfBounds

  /** The error of `set_level`, named as the source names it. */
  datatype TryFromError = LevelOutOfBounds

  /** A class: its level and saving-throw proficiencies depend on the character. */
  datatype Class = Class(
    name: string,
    level: nat,
    savingThrows: map<Identifier, Proficiency>,
    hpIncreases: HPIncreases,
    feats: seq<Feat>)
  {
    /** `set_level`: refused above level 20 (the class is then unchanged), otherwise stored. */
    function SetLevel(n: nat): (r: Result<Class, TryFromError>)
      ensures r.Err? <==> n > MaxLevel
      ensures r.Err? ==> r.error == TryFromError.LevelOutOfBounds
      ensures r.Ok? ==> r.value == this.(level := n)
    {
      if n > MaxLevel then Err(TryFromError.LevelOutOfBounds) else Ok(this.(level := n))
    }

    function GetSavingThrowProficiency(id: Identifier): (r: Option<Proficiency>)
      ensures r.Some? <==> id in savingThrows
      ensures r.Some? ==> r.value == savingThrows[id]
    {
      if id in savingThrows then Some(savingThrows[id]) else None
    }

    /** `get_hit_points`: the progression's increases plus the Constitution modifier once per progression entry. */
    function HitPoints(conModifier: int): (hp: int)
      ensures hp == IncreaseSum(hpIncreases.increases) + conModifier * |hpIncreases.increases|
      ensures hpIncreases.increases == [] ==> hp == 0
    {
      hpIncreases.HitPoints(conModifier)
    }

    /** `add_feat`: feats are kept in the order they were added. */
    function AddFeat(feat: Feat): (r: Class)
      ensures r.feats == feats + [feat]
      ensures r.name == name && r.level == level && r.savingThrows == savingThrows
      ensures r.hpIncreases == hpIncreases
    {
      this.(feats := feats + [feat])
    }
  }

  /** The fields a class is made from, before its level is checked. */
  datatype ClassTemplate = ClassTemplate(
    name: string,
    level: nat,
    savingThrows: map<Identifier, Proficiency>,
    hpIncreases: HPIncreases,
    feats: seq<Feat>)

  /**
   * `TryFrom<Template>`: the class starts at level 0 and then takes the
   * template's level through `set_level`, so a level above 20 is refused.
   */
  function ClassFromTemplate(t: ClassTemplate): (r: Result<Class, TryFromError>)
    ensures r.Err? <==> t.level > MaxLevel
    ensures r.Ok? ==> r.value == Class(t.name, t.level, t.savingThrows, t.hpIncreases, t.feats)
  {
    Class(t.name, 0, t.savingThrows, t.hpIncreases, t.feats).SetLevel(t.level)
  }

  /** The class builder; every setter takes the builder by value and returns it. */
  datatype Builder = Builder(
    name: Option<string>,
    level: Option<nat>,
    savingThrows: map<Identifier, Proficiency>,
    hpIncreases: Option<HPIncreases>,
    feats: seq<Feat>)
  {
    function Name(n: string): (r: Result<Builder, ClassError>)
      ensures n == "" <==> r.Err?
      ensures r.Err? ==> r.error == MissingName
      ensures r.Ok? ==> r.value == this.(name := Some(n))
    {
      if n == "" then Err(MissingName) else Ok(this.(name := Some(n)))
    }

    /** The same bound as `set_level`. */
    function Level(l: nat): (r: Result<Builder, ClassError>)
      ensures l > MaxLevel <==> r.Err?
      ensures r.Err? ==> r.error == ClassError.LevelOutOfBounds
      ensures r.Ok? ==> r.value == this.(level := Some(l))
    {
      if l > MaxLevel then Err(ClassError.LevelOutOfBounds) else Ok(this.(level := Some(l)))
    }

    /** Marks the ability as a proficient saving throw. */
    function AddSavingThrowProficiency(id: Identifier): (r: Result<Builder, ClassError>)
      ensures r.Ok? && r.value == this.(savingThrows := savingThrows[id := Proficient])
    {
      Ok(this.(savingThrows := savingThrows[id := Proficient]))
    }

    function WithHPIncreases(h: HPIncreases): (r: Result<Builder, ClassError>)
      ensures r.Ok? && r.value == this.(hpIncreases := Some(h))
    {
      Ok(this.(hpIncreases := Some(h)))
    }

    function AddFeat(feat: Feat): (r: Result<Builder, ClassError>)
      ensures r.Ok? && r.value == this.(feats := feats + [feat])
    {
      Ok(this.(feats := feats + [feat]))
    }

    /**
     * Fails with MissingName without a name, then with LevelOutOfBounds
     * without a level; a missing progression defaults to the empty one.
     */
    function Build(): (r: Result<Class, ClassError>)
      ensures name.None? ==> r == Err(MissingName)
      ensures name.Some? && level.None? ==> r == Err(ClassError.LevelOutOfBounds)
      ensures r.Ok? <==> name.Some? && level.Some?
      ensures r.Ok? ==> r.value.name == name.value && r.value.level == level.value
      ensures r.Ok? ==> r.value.savingThrows == savingThrows && r.value.feats == feats
      ensures r.Ok? ==> r.value.hpIncreases == (if hpIncreases.Some? then hpIncreases.value else NoIncreases())
    {
      if name.None? then Err(MissingName)
      else if level.None? then Err(ClassError.LevelOutOfBounds)
      else Ok(Class(name.value, level.value, savingThrows, hpIncreases.GetOr(NoIncreases()), feats))
    }
  }

  function NewBuilder(): (b: Builder)
    ensures b.name.None? && b.level.None? && b.savingThrows == map[] && b.hpIncreases.None? && b.feats == []
  {
    Builder(None, None, map[], None, [])
  }

  /** A class built through `level` never exceeds level 20. */
  lemma BuiltLevelBounded(n: string, l: nat)
    requires n != ""
    ensures NewBuilder().Name(n).value.Level(l).Ok? <==> l <= MaxLevel
    ensures l <= MaxLevel ==>
      var built := NewBuilder().Name(n).value.Level(l).value.Build();
      built.Ok? && built.value.level == l && built.value.hpIncreases == NoIncreases()
  {
  }

  /** `get_level`: the sum of the class levels, first class first. */
  function TotalLevel(classes: seq<Class>): (l: nat)
    ensures classes == [] ==> l == 0
    ensures |classes| == 1 ==> l == classes[0].level
  {
    if classes == [] then 0 else TotalLevel(classes[..|classes| - 1]) + classes[|classes| - 1].level
  }

  /** No class's level exceeds the total. */
  lemma {:induction false} TotalLevelBounds(classes: seq<Class>)
    ensures forall i :: 0 <= i < |classes| ==> classes[i].level <= TotalLevel(classes)
  {
    if classes != [] {
      var init := classes[..|classes| - 1];
      TotalLevelBounds(init);
      assert forall i :: 0 <= i < |init| ==> classes[i] == init[i];
    }
  }

  lemma TotalLevelAppend(classes: seq<Class>, c: Class)
    ensures TotalLevel(classes + [c]) == TotalLevel(classes) + c.level
  {
    assert (classes + [c])[..|classes|] == classes;
  }

  /**
   * `checked_sub(1).map_or(0, |r| r / 4 + 2)`: no bonus at level 0, then a
   * bonus of 2 that grows by one every four levels; b is the unique value
   * with 4(b - 2) <= level - 1 < 4(b - 2) + 4.
   */
  function ProficiencyBonus(level: nat): (b: nat)
    ensures level == 0 <==> b == 0
    ensures level >= 1 ==> 4 * (b - 2) <= level - 1 < 4 * (b - 2) + 4
  {
    if level == 0 then 0 else (level - 1) / 4 + 2
  }

  /** The bonus never decreases as the level rises, and stays at 6 or below up to level 20. */
  lemma ProficiencyBonusMonotone(a: nat, b: nat)
    requires a <= b
    ensures ProficiencyBonus(a) <= ProficiencyBonus(b)
    ensures b <= MaxLevel ==> ProficiencyBonus(b) <= 6
  {
  }

  /** The bonus table of the unit tests. */
  lemma ProficiencyBonusExamples()
    ensures ProficiencyBonus(0) == 0 && ProficiencyBonus(1) == 2 && ProficiencyBonus(4) == 2
    ensures ProficiencyBonus(5) == 3 && ProficiencyBonus(9) == 4
    ensures ProficiencyBonus(13) == 5 && ProficiencyBonus(17) == 6
  {
  }

  /** The hit points of every class, taken at the same Constitution modifier. */
  function ClassesHP(classes: seq<Class>, conModifier: int): (hp: int)
    ensures classes == [] ==> hp == 0
    ensures |classes| == 1 ==> hp == classes[0].HitPoints(conModifier)
  {
    if classes == [] then 0
    else ClassesHP(classes[..|classes| - 1], conModifier) + classes[|classes| - 1].HitPoints(conModifier)
  }

  /** When no class has negative hit points, the total is at least each class's. */
  lemma {:induction false} ClassesHPBounds(classes: seq<Class>, conModifier: int)
    requires forall i :: 0 <= i < |classes| ==> classes[i].HitPoints(conModifier) >= 0
    ensures ClassesHP(classes, conModifier) >= 0
    ensures forall i :: 0 <= i < |classes| ==> classes[i].HitPoints(conModifier) <= ClassesHP(classes, conModifier)
  {
    if classes != [] {
      var init := classes[..|classes| - 1];
      assert forall i :: 0 <= i < |init| ==> classes[i] == init[i];
      ClassesHPBounds(init, conModifier);
    }
  }

  lemma ClassesHPAppend(classes: seq<Class>, c: Class, conModifier: int)
    ensures ClassesHP(classes + [c], conModifier) == ClassesHP(classes, conModifier) + c.HitPoints(conModifier)
  {
    assert (classes + [c])[..|classes|] == classes;
  }

  /** Every class's feats, in class order. */
  function AllFeats(classes: seq<Class>): (feats: seq<Feat>)
    ensures classes == [] ==> feats == []
    ensures |classes| == 1 ==> feats == classes[0].feats
  {
    if classes == [] then [] else AllFeats(classes[..|classes| - 1]) + classes[|classes| - 1].feats
  }

  /** Every feat of every class is among the flattened feats. */
  lemma {:induction false} AllFeatsContains(classes: seq<Class>)
    ensures forall i, j :: 0 <= i < |classes| && 0 <= j < |classes[i].feats| ==> classes[i].feats[j] in AllFeats(classes)
  {
    if classes != [] {
      var init := classes[..|classes| - 1];
      AllFeatsContains(init);
      assert forall i :: 0 <= i < |init| ==> classes[i] == init[i];
    }
  }

  lemma AllFeatsAppend(classes: seq<Class>, c: Class)
    ensures AllFeats(classes + [c]) == AllFeats(classes) + c.feats
  {
    assert (classes + [c])[..|classes|] == classes;
  }

  /** The classes of a character, the primary class first. */
  class Classes {
    var classes: seq<Class>

    /** `Classes::default()`: no class, so level 0. */
    constructor ()
      ensures classes == []
      ensures GetLevel() == 0 && GetProficiencyBonus() == 0
    {
      classes := [];
    }

    /** The later classes of a multiclass character; the first one decides saving throws. */
    method AddClass(c: Class)
      modifies this
      ensures classes == old(classes) + [c]
      ensures GetLevel() == old(GetLevel()) + c.level
      ensures forall con :: GetHitPoints(con) == old(GetHitPoints(con)) + c.HitPoints(con)
      ensures GetFeats() == old(GetFeats()) + c.feats
      ensures old(classes) != [] ==>
        forall id :: GetSavingThrowProficiency(id) == old(GetSavingThrowProficiency(id))
    {
      TotalLevelAppend(classes, c);
      AllFeatsAppend(classes, c);
      forall con ensures ClassesHP(classes + [c], con) == ClassesHP(classes, con) + c.HitPoints(con) {
        ClassesHPAppend(classes, c, con);
      }
      classes := classes + [c];
    }

    /** `get_level`: the class levels summed (TotalLevelBounds: never below any one class's level). */
    function GetLevel(): (l: nat)
      reads this
    {
      TotalLevel(classes)
    }

    function GetProficiencyBonus(): (b: nat)
      reads this
      ensures GetLevel() == 0 <==> b == 0
      ensures GetLevel() >= 1 ==> 4 * (b - 2) <= GetLevel() - 1 < 4 * (b - 2) + 4
    {
      ProficiencyBonus(GetLevel())
    }

    /** Only the primary class grants saving-throw proficiencies. */
    function GetSavingThrowProficiency(id: Identifier): (r: Option<Proficiency>)
      reads this
      ensures classes == [] ==> r.None?
      ensures r.Some? <==> classes != [] && id in classes[0].savingThrows
      ensures r.Some? ==> r.value == classes[0].savingThrows[id]
    {
      if classes == [] then None else classes[0].GetSavingThrowProficiency(id)
    }

    /** `get_hit_points`: the hit points of each class at the same Constitution modifier, summed. */
    function GetHitPoints(conModifier: int): (hp: int)
      reads this
    {
      ClassesHP(classes, conModifier)
    }

    /** `get_feats`: every class's feats, flattened. */
    function GetFeats(): (feats: seq<Feat>)
      reads this
    {
      AllFeats(classes)
    }
  }

  /** The wizard of the unit tests: level 1, proficient in Intelligence and Wisdom saves. */
  function Wizard(): Class
  {
    Class("Wizard", 1, map[Intelligence := Proficient, Wisdom := Proficient], NewHPIncreases(6), [])
  }

  /** The artificer of the unit tests: level 1, proficient in Intelligence and Constitution saves. */
  function Artificer(): Class
  {
    Class("Artificer", 1, map[Intelligence := Proficient, Constitution := Proficient], NewHPIncreases(8), [])
  }

  /**
   * A wizard who multiclasses into artificer is not proficient in
   * Constitution saves, although an artificer alone is; the levels add up.
   */
  method MulticlassExample() returns (multi: Classes, mono: Classes)
    ensures fresh(multi) && fresh(mono)
    ensures multi.GetSavingThrowProficiency(Constitution) == None
    ensures multi.GetSavingThrowProficiency(Intelligence) == Some(Proficient)
    ensures multi.GetSavingThrowProficiency(Wisdom) == Some(Proficient)
    ensures mono.GetSavingThrowProficiency(Constitution) == Some(Proficient)
    ensures mono.GetSavingThrowProficiency(Wisdom) == None
    ensures multi.GetLevel() == 2 && multi.GetProficiencyBonus() == 2
  {
    multi := new Classes();
    multi.AddClass(Wizard());
    multi.AddClass(Artificer());
    mono := new Classes();
    mono.AddClass(Artificer());
  }
}
