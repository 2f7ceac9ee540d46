// The unit tests of the character, stated as methods whose postconditions
// are the asserted values: a level-0 human "Dummy" with 8 in every base
// score (9 with the racial bonus), no classes, items or slots.
module ModelsCharacterExamples {
  import opened Common
  import opened Modifiers
  import opened ModelsAbility
  import opened ModelsFeat
  import opened ModelsItem
  import opened ModelsSlot
  import opened ModelsSlotExamples
  import opened ModelsClass
  import opened ModelsSkill
  import opened ModelsRace
  import opened ModelsSenses
  import opened ModelsPersonality
  import opened ModelsProficiencies
  import opened ModelsCharacter

  /** The dummy character of the tests, of the given race. */
  method DummyOf(race: Race) returns (c: Character)
    ensures fresh(c) && fresh(c.classes) && fresh(c.skills) && fresh(c.inventory) && fresh(c.equipment)
    ensures c.Valid()
    ensures c.race == race && c.baseAbilityScores == FromTemplate(AbilitiesTemplate(8, 8, 8, 8, 8, 8))
    ensures c.classes.classes == [] && c.inventory.items == [] && c.equipment.slots == map[]
    ensures forall s :: c.skills.GetProficiency(s) == None
    ensures c.exhaustionLevel == 0 && c.damage == 0
  {
    var classes := new Classes();
    var skills := new Skills();
    var inventory := new Items();
    var equipment := new ItemSlots();
    var proficiencies := new Proficiencies();
    c := new Character("Dummy", Alignment(Neutral, NeutralMorality), None, EmptyPersonality(), race,
                       FromTemplate(AbilitiesTemplate(8, 8, 8, 8, 8, 8)), classes, skills, inventory,
                       equipment, 0, 0, NoSenses(), proficiencies);
  }

  /** The dummy human: every combined score is 9, so every modifier is -1. */
  method Dummy() returns (c: Character)
    ensures fresh(c) && fresh(c.race) && fresh(c.classes) && fresh(c.skills) && fresh(c.inventory) && fresh(c.equipment)
    ensures c.Valid()
    ensures c.race.creatureType == Humanoid && c.race.size == Size.Medium && c.race.walkingSpeed == 30
    ensures forall id :: c.GetAbilityScore(id) == 9 && c.GetAbilityModifier(id) == -1
    ensures c.classes.classes == [] && c.inventory.items == [] && c.equipment.slots == map[]
    ensures forall s :: c.skills.GetProficiency(s) == None
    ensures c.exhaustionLevel == 0 && c.damage == 0
  {
    var human := Human();
    c := DummyOf(human);
    forall id ensures c.GetAbilityScore(id) == 9 && c.GetAbilityModifier(id) == -1 {
      assert c.GetAbilities().GetScore(id) == Some(9);
    }
  }

  /** A character with no slots carries only its inventory. */
  lemma NoSlotsNoEquippedWeight(c: Character)
    requires c.Valid() && c.equipment.slots == map[]
    ensures c.CarriedWeight() == c.inventory.GetTotalWeight()
  {
    assert c.equipment.Contents() == map[];
  }

  /** Creature type, size and speed come from the race; without load the dummy is unencumbered. */
  method DummyDefaultsExample() returns (speed: nat, encumbrance: Option<Encumbrance>, strengthSave: int, arcana: int)
    ensures speed == 30 && encumbrance == None
    ensures strengthSave == -1 && arcana == -1
  {
    var c := Dummy();
    NoSlotsNoEquippedWeight(c);
    speed := c.GetWalkingSpeed();
    encumbrance := c.GetVariantEncumbrance();
    strengthSave := c.GetSavingThrowMod(Strength);
    arcana := c.GetSkillModifier(Arcana);
  }

  /** An artificer is proficient in Constitution saves: -1 plus the level-1 bonus of 2. */
  method ArtificerSaveExample() returns (constitutionSave: int)
    ensures constitutionSave == 1
  {
    var c := Dummy();
    c.AddClass(Artificer());
    assert c.classes.classes == [Artificer()];
    constitutionSave := c.GetSavingThrowMod(Constitution);
  }

  /** 46 lb exceed five times Strength 9 and slow the dummy to 20 feet. */
  method EncumberedExample() returns (encumbrance: Option<Encumbrance>, speed: nat)
    ensures encumbrance == Some(Encumbered) && speed == 20
  {
    var c := Dummy();
    c.AddItem(Item("test", 46, [], None));
    NoSlotsNoEquippedWeight(c);
    assert c.inventory.GetTotalWeight() == 46 by {
      TotalWeightAppend([], Item("test", 46, [], None));
    }
    encumbrance := c.GetVariantEncumbrance();
    speed := c.GetWalkingSpeed();
  }

  /** 91 lb exceed ten times Strength 9 and slow the dummy to 10 feet. */
  method HeavilyEncumberedExample() returns (encumbrance: Option<Encumbrance>, speed: nat)
    ensures encumbrance == Some(HeavilyEncumbered) && speed == 10
  {
    var c := Dummy();
    c.AddItem(Item("test", 91, [], None));
    NoSlotsNoEquippedWeight(c);
    assert c.inventory.GetTotalWeight() == 91 by {
      TotalWeightAppend([], Item("test", 91, [], None));
    }
    encumbrance := c.GetVariantEncumbrance();
    speed := c.GetWalkingSpeed();
  }

  /** Exhaustion 2 to 4 halves the 30-foot speed. */
  method ExhaustionHalvesSpeedExample() returns (s2: nat, s3: nat, s4: nat)
    ensures s2 == 15 && s3 == 15 && s4 == 15
  {
    var c := Dummy();
    NoSlotsNoEquippedWeight(c);
    c.SetExhaustionLevel(2);
    s2 := c.GetWalkingSpeed();
    c.SetExhaustionLevel(3);
    s3 := c.GetWalkingSpeed();
    c.SetExhaustionLevel(4);
    s4 := c.GetWalkingSpeed();
  }

  /** Exhaustion 5 stops the character. */
  method ExhaustionStopsExample() returns (s5: nat)
    ensures s5 == 0
  {
    var c := Dummy();
    c.SetExhaustionLevel(5);
    s5 := c.GetWalkingSpeed();
  }

  /** With a level-1 wizard, Arcana is -1 + 2 with proficiency and -1 + 4 with expertise. */
  method SkillProficiencyExample() returns (proficient: int, expert: int)
    ensures proficient == 1 && expert == 3
  {
    var c := Dummy();
    c.AddClass(Wizard());
    c.skills.SetProficiency(Arcana, Some(Proficient));
    proficient := c.GetSkillModifier(Arcana);
    c.skills.SetProficiency(Arcana, Some(Expertise));
    expert := c.GetSkillModifier(Arcana);
  }

  /** Passive scores are 10 plus the skill modifier: 9 untrained. */
  method PassiveScoresExample() returns (perception: nat, investigation: nat, insight: nat)
    ensures perception == 9 && investigation == 9 && insight == 9
  {
    var c := Dummy();
    c.AddClass(Wizard());
    assert c.classes.classes == [Wizard()];
    perception := c.GetPassivePerception();
    investigation := c.GetPassiveInvestigation();
    insight := c.GetPassiveInsight();
  }

  /** Once proficient at level 1, the passive scores are 11. */
  method TrainedPassiveScoresExample() returns (perception: nat, investigation: nat, insight: nat)
    ensures perception == 11 && investigation == 11 && insight == 11
  {
    var c := Dummy();
    c.AddClass(Wizard());
    assert c.classes.classes == [Wizard()];
    c.skills.SetProficiency(Perception, Some(Proficient));
    c.skills.SetProficiency(Investigation, Some(Proficient));
    c.skills.SetProficiency(Insight, Some(Proficient));
    assert c.GetProficiencyBonus() == 2;
    perception := c.GetPassivePerception();
    investigation := c.GetPassiveInvestigation();
    insight := c.GetPassiveInsight();
  }

  /** The class feats come before the race's feats. */
  method FeatsExample() returns (feats: seq<Feat>)
    ensures feats == [Feat("Spell Sniper", "Doubles casting distance and ignores half cover."),
                      Feat("Elven Accuracy", "When rolling advantage on ranged checks, roll a third die.")]
  {
    var spellSniper := Feat("Spell Sniper", "Doubles casting distance and ignores half cover.");
    var elvenAccuracy := Feat("Elven Accuracy", "When rolling advantage on ranged checks, roll a third die.");
    var shadarKai := ShadarKai();
    shadarKai.AddFeat(elvenAccuracy);
    var c := DummyOf(shadarKai);
    var wizard := Wizard().AddFeat(spellSniper);
    c.AddClass(wizard);
    assert c.classes.classes == [wizard];
    assert AllFeats([wizard]) == [spellSniper] by {
      assert [wizard][..0] == [];
    }
    feats := c.GetFeats();
  }

  /** The dummy human carrying `items` with `equipment` on. */
  method DummyCarrying(items: seq<Item>, equipment: ItemSlots) returns (c: Character)
    requires equipment.Valid()
    ensures c.Valid() && c.inventory.items == items && c.equipment == equipment
    ensures forall id :: c.GetAbilityModifier(id) == -1
  {
    var human := Human();
    var base := FromTemplate(AbilitiesTemplate(8, 8, 8, 8, 8, 8));
    ghost var bonus := human.abilities;
    var classes := new Classes();
    var skills := new Skills();
    var inventory := new Items.FromItems(items);
    var proficiencies := new Proficiencies();
    c := new Character("Dummy", Alignment(Neutral, NeutralMorality), None, EmptyPersonality(), human,
                       base, classes, skills, inventory, equipment, 0, 0, NoSenses(), proficiencies);
    assert c.race.abilities == bonus && c.baseAbilityScores == base;
    forall id ensures c.GetAbilityModifier(id) == -1 {
      assert base.GetScore(id) == Some(8) && bonus.GetScore(id) == Some(1);
      assert c.GetAbilities().GetScore(id) == Some(9);
    }
  }

  /** A 2 lb rapier in the inventory and 55 lb of chain mail in a slot: 57 lb carried. */
  method CarriedWeightExample() returns (w: nat)
    ensures w == 57
  {
    var rapier := Item("Rapier", 2, ["weapon"], None);
    var chainMail := Item("Chain Mail", 55, ["armor"], Some(Heavy(16)));
    var equipment := OneFilledSlot("armor", chainMail);
    SingleSlotWeight(equipment, "armor", chainMail);
    var c := DummyCarrying([rapier], equipment);
    TotalWeightAppend([], rapier);
    w := c.GetTotalWeightCarried();
  }

  /** A character wearing exactly `x` and `y` has their two contributions as armor. */
  lemma ArmorOfPair(c: Character, x: Item, y: Item)
    requires c.Valid() && c.equipment.EquippedItems() == multiset{x, y}
    ensures c.ArmorTotal() ==
      ArmorContribution(x, c.GetAbilityModifier(Dexterity)) + ArmorContribution(y, c.GetAbilityModifier(Dexterity))
  {
    MSumPair(x, y, ArmorOf(c.GetAbilityModifier(Dexterity)));
  }

  const Breastplate := Item("Breastplate", 25, ["armor"], Some(ArmorClass.Medium(14)))
  const Pickelbonnet := Item("Pickelbonnet", 2, ["armor"], Some(Heavy(3)))

  /** The dummy with a breastplate in the chest slot and a helmet in the head slot. */
  method ArmoredDummy() returns (c: Character)
    ensures c.Valid() && c.equipment.EquippedItems() == multiset{Breastplate, Pickelbonnet}
    ensures c.GetAbilityModifier(Dexterity) == -1
  {
    var equipment := TwoFilledSlots("chestplate", Breastplate, "helmet", Pickelbonnet);
    OccupiedPair("chestplate", Breastplate, "helmet", Pickelbonnet);
    c := DummyCarrying([], equipment);
  }

  /**
   * A medium breastplate (14) and a heavy helmet (3) at Dexterity
   * modifier -1: 14 - 1 + 3 = 16.
   */
  method ArmorClassExample() returns (ac: int)
    ensures ac == 16
  {
    var c := ArmoredDummy();
    ArmorOfPair(c, Breastplate, Pickelbonnet);
    assert ArmorContribution(Breastplate, -1) == 13;
    assert ArmorContribution(Pickelbonnet, -1) == 3;
    ac := c.GetArmorClass();
  }
}
