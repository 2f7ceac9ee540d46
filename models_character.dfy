// The character of the current crate: a record of components (race, classes,
// skills, inventory, equipment, proficiencies) from which every derived
// statistic is computed on demand, the operations that change those
// components in place, and the builder that assembles a character.
module ModelsCharacter {
  import opened Common
  import opened Modifiers
  import opened ModelsAbility
  import opened ModelsFeat
  import opened ModelsItem
  import opened ModelsSlot
  import opened ModelsClass
  import opened ModelsSkill
  import opened ModelsRace
  import opened ModelsSenses
  import opened ModelsPersonality
  import opened ModelsProficiencies

  datatype Conformity = Lawful | Neutral | Chaotic

  datatype Morality = Good | NeutralMorality | Evil

  datatype Alignment = Alignment(conformity: Conformity, morality: Morality)

  datatype Gender = Male | Female

  datatype ConstructionError = MissingField(field: string)

  /** The character-level error: an equipment failure or an item that could not be built. */
  datatype Error = Equipment(slots: SlotsError) | Inventory(item: ModelsItem.ConstructionError)

  /** How much a variant-encumbrance tier slows a character, in feet. */
  function EncumbrancePenalty(e: Option<Encumbrance>): (p: nat)
    ensures e.None? <==> p == 0
    ensures p <= 20
  {
    match e
    case Some(Encumbered) => 10
    case Some(HeavilyEncumbered) => 20
    case None => 0
  }

  /**
   * Variant encumbrance: heavily encumbered above ten times the Strength
   * score, encumbered above five times it, otherwise not encumbered.
   */
  function EncumbranceFor(weight: int, strength: nat): (e: Option<Encumbrance>)
    ensures e == Some(HeavilyEncumbered) <==> weight > 10 * strength
    ensures e == Some(Encumbered) <==> 5 * strength < weight <= 10 * strength
    ensures e.None? <==> weight <= 5 * strength
  {
    if weight > 10 * strength then Some(HeavilyEncumbered)
    else if weight > 5 * strength then Some(Encumbered)
    else None
  }

  /** Carrying more never lightens the encumbrance. */
  lemma EncumbranceMonotone(w1: int, w2: int, strength: nat)
    requires w1 <= w2
    ensures EncumbrancePenalty(EncumbranceFor(w1, strength)) <= EncumbrancePenalty(EncumbranceFor(w2, strength))
  {
  }

  /**
   * The walking speed as a closed form: nothing at exhaustion 5 or more;
   * otherwise the base speed less the encumbrance penalty (never below
   * zero), halved (rounding down) from exhaustion 2 on.
   */
  function Speed(base: nat, e: Option<Encumbrance>, exhaustion: nat): (s: nat)
  {
    var unencumbered := if base >= EncumbrancePenalty(e) then base - EncumbrancePenalty(e) else 0;
    if exhaustion >= 5 then 0 else if exhaustion >= 2 then unencumbered / 2 else unencumbered
  }

  /**
   * Derived properties of the walking speed: it never exceeds the base
   * speed, an unencumbered and rested character walks at the base speed,
   * and more exhaustion or heavier encumbrance never makes one faster.
   */
  lemma SpeedProperties(base: nat, e: Option<Encumbrance>, f: Option<Encumbrance>, x: nat, y: nat)
    ensures Speed(base, e, x) <= base
    ensures x < 2 ==> Speed(base, None, x) == base
    ensures x >= 5 ==> Speed(base, e, x) == 0
    ensures x <= y ==> Speed(base, e, y) <= Speed(base, e, x)
    ensures EncumbrancePenalty(e) <= EncumbrancePenalty(f) ==> Speed(base, f, x) <= Speed(base, e, x)
  {
  }

  /**
   * What one equipped item adds to the armor class: light armor adds the
   * Dexterity modifier in full, medium armor at most 2 of it, heavy armor
   * none; an item without an armor rating adds nothing.
   */
  function ArmorContribution(item: Item, dexModifier: int): int
  {
    match item.armorClass
    case None => 0
    case Some(Light(ac)) => ac + dexModifier
    case Some(Medium(ac)) => ac + (if dexModifier > 2 then 2 else dexModifier)
    case Some(Heavy(ac)) => ac
  }

  /** The contribution of an item to the armor class, as a summand. */
  function ArmorOf(dexModifier: int): Item -> int
  {
    item => ArmorContribution(item, dexModifier)
  }

  /** How the Dexterity modifier enters each armor category. */
  lemma ArmorContributionDexterity(item: Item, d1: int, d2: int)
    requires d1 <= d2
    ensures ArmorContribution(item, d1) <= ArmorContribution(item, d2)
    ensures item.armorClass.Some? && item.armorClass.value.Heavy? ==>
              ArmorContribution(item, d1) == ArmorContribution(item, d2) == item.armorClass.value.ac
    ensures item.armorClass.Some? && item.armorClass.value.Medium? ==>
              ArmorContribution(item, d2) <= item.armorClass.value.ac + 2
    ensures item.armorClass.Some? && item.armorClass.value.Light? ==>
              ArmorContribution(item, d2) - ArmorContribution(item, d1) == d2 - d1
    ensures item.armorClass.None? ==> ArmorContribution(item, d2) == 0
  {
  }

  class Character {
    const name: string
    const alignment: Alignment
    const gender: Option<Gender>
    const personality: Personality
    const race: Race
    const baseAbilityScores: Abilities
    const classes: Classes
    const skills: Skills
    const inventory: Items
    const equipment: ItemSlots
    var exhaustionLevel: nat
    const damage: nat
    const senses: Senses
    const proficiencies: Proficiencies

    /** The equipment table is well formed. */
    ghost predicate Valid()
      reads this, equipment, equipment.Repr
    {
      equipment.Valid()
    }

    constructor (name: string, alignment: Alignment, gender: Option<Gender>, personality: Personality,
                 race: Race, baseAbilityScores: Abilities, classes: Classes, skills: Skills,
                 inventory: Items, equipment: ItemSlots, exhaustionLevel: nat, damage: nat,
                 senses: Senses, proficiencies: Proficiencies)
      requires equipment.Valid()
      ensures Valid()
      ensures this.name == name && this.alignment == alignment && this.gender == gender
      ensures this.personality == personality && this.race == race
      ensures this.baseAbilityScores == baseAbilityScores && this.classes == classes
      ensures this.skills == skills && this.inventory == inventory && this.equipment == equipment
      ensures this.exhaustionLevel == exhaustionLevel && this.damage == damage
      ensures this.senses == senses && this.proficiencies == proficiencies
    {
      this.name := name;
      this.alignment := alignment;
      this.gender := gender;
      this.personality := personality;
      this.race := race;
      this.baseAbilityScores := baseAbilityScores;
      this.classes := classes;
      this.skills := skills;
      this.inventory := inventory;
      this.equipment := equipment;
      this.exhaustionLevel := exhaustionLevel;
      this.damage := damage;
      this.senses := senses;
      this.proficiencies := proficiencies;
    }

    /** The base scores with the racial bonuses added, identifier by identifier. */
    function GetAbilities(): (r: Abilities)
      ensures forall id :: r.GetScore(id) == MergeScore(baseAbilityScores.GetScore(id), race.abilities.GetScore(id))
    {
      Merge(baseAbilityScores, race.abilities)
    }

    /** A missing score reads as 0: the score is the base plus the racial bonus, each defaulting to 0. */
    function GetAbilityScore(id: Identifier): (r: nat)
      ensures r == baseAbilityScores.GetScore(id).GetOr(0) + race.abilities.GetScore(id).GetOr(0)
    {
      GetAbilities().GetScore(id).GetOr(0)
    }

    /**
     * The modifier of the combined score, or 0 when neither side scores the
     * ability (not the -5 that a score of 0 would give).
     */
    function GetAbilityModifier(id: Identifier): (r: int)
      ensures GetAbilities().GetScore(id).Some? ==> r == Ability(GetAbilityScore(id)).Modifier()
      ensures GetAbilities().GetScore(id).None? ==> r == 0
      ensures r >= -5
    {
      GetAbilities().GetModifier(id).GetOr(0)
    }

    function GetInitiative(): (r: int)
      ensures r == GetAbilityModifier(Dexterity)
      ensures r >= -5
    {
      GetAbilityModifier(Dexterity)
    }

    /** The total level of the character's classes. */
    function GetLevel(): (r: nat)
      reads classes
      ensures r == TotalLevel(classes.classes)
    {
      classes.GetLevel()
    }

    function GetProficiencyBonus(): (b: nat)
      reads classes
      ensures GetLevel() == 0 <==> b == 0
      ensures GetLevel() >= 1 ==> 4 * (b - 2) <= GetLevel() - 1 < 4 * (b - 2) + 4
    {
      classes.GetProficiencyBonus()
    }

    /** The maximum hit points: every class's hit points at the Constitution modifier. */
    function GetHitPointsMax(): (hp: int)
      reads classes
      ensures hp == ClassesHP(classes.classes, GetAbilityModifier(Constitution))
    {
      classes.GetHitPoints(GetAbilityModifier(Constitution))
    }

    /** The maximum hit points less the damage taken. */
    function GetCurrentHitPoints(): (hp: int)
      reads classes
      ensures hp == ClassesHP(classes.classes, GetAbilityModifier(Constitution)) - damage
      ensures hp <= GetHitPointsMax()
      ensures hp == GetHitPointsMax() <==> damage == 0
    {
      GetHitPointsMax() - damage
    }

    /**
     * The saving-throw modifier: the ability modifier plus the proficiency
     * bonus times the primary class's proficiency level in that save.
     */
    function GetSavingThrowMod(id: Identifier): (r: int)
      reads classes
      ensures classes.GetSavingThrowProficiency(id).None? ==> r == GetAbilityModifier(id)
      ensures classes.GetSavingThrowProficiency(id) == Some(Proficient) ==>
                r == GetAbilityModifier(id) + GetProficiencyBonus()
      ensures classes.GetSavingThrowProficiency(id) == Some(Expertise) ==>
                r == GetAbilityModifier(id) + 2 * GetProficiencyBonus()
    {
      GetProficiencyBonus() * OptionalMultiplier(classes.GetSavingThrowProficiency(id)) + GetAbilityModifier(id)
    }

    /** The recorded proficiency of a skill, and none for a skill never recorded. */
    function GetSkillProficiency(s: Skill): (r: Option<Proficiency>)
      reads skills
      ensures s in skills.proficiencies ==> r == skills.proficiencies[s]
      ensures s !in skills.proficiencies ==> r == None
    {
      skills.GetProficiency(s)
    }

    /** A skill's modifier builds on the modifier of the skill's own ability. */
    function GetSkillModifier(s: Skill): (r: int)
      reads classes, skills
      ensures skills.GetProficiency(s).None? ==> r == GetAbilityModifier(GetAbility(s))
      ensures skills.GetProficiency(s) == Some(Proficient) ==>
                r == GetAbilityModifier(GetAbility(s)) + GetProficiencyBonus()
      ensures skills.GetProficiency(s) == Some(Expertise) ==>
                r == GetAbilityModifier(GetAbility(s)) + 2 * GetProficiencyBonus()
      ensures r >= -5
    {
      SkillModifier(GetAbilityModifier(GetAbility(s)), GetProficiencyBonus(), skills.GetProficiency(s))
    }

    function GetPassivePerception(): (r: nat)
      reads classes, skills
      ensures r == 10 + GetSkillModifier(Perception)
    {
      PassiveScore(GetSkillModifier(Perception))
    }

    function GetPassiveInvestigation(): (r: nat)
      reads classes, skills
      ensures r == 10 + GetSkillModifier(Investigation)
    {
      PassiveScore(GetSkillModifier(Investigation))
    }

    function GetPassiveInsight(): (r: nat)
      reads classes, skills
      ensures r == 10 + GetSkillModifier(Insight)
    {
      PassiveScore(GetSkillModifier(Insight))
    }

    /** The class feats, primary class first, followed by the race's feats. */
    function GetFeats(): (r: seq<Feat>)
      reads classes, race
      ensures r == AllFeats(classes.classes) + race.feats
      ensures forall f :: f in r <==> f in AllFeats(classes.classes) || f in race.feats
    {
      classes.GetFeats() + race.feats
    }

    /** The weight in the inventory and in the equipment slots together. */
    ghost function CarriedWeight(): int
      requires Valid()
      reads this, inventory, equipment, equipment.Repr
    {
      inventory.GetTotalWeight() + equipment.EquippedWeight()
    }

    method GetTotalWeightCarried() returns (w: nat)
      requires Valid()
      ensures w == CarriedWeight()
    {
      var equipped := equipment.GetTotalWeight();
      w := inventory.GetTotalWeight() + equipped;
    }

    method GetVariantEncumbrance() returns (e: Option<Encumbrance>)
      requires Valid()
      ensures e == EncumbranceFor(CarriedWeight(), GetAbilityScore(Strength))
    {
      var carried := GetTotalWeightCarried();
      var strength := GetAbilityScore(Strength);
      if carried > 10 * strength {
        e := Some(HeavilyEncumbered);
      } else if carried > 5 * strength {
        e := Some(Encumbered);
      } else {
        e := None;
      }
    }

    /**
     * `get_walking_speed`: the base speed less the encumbrance penalty
     * (saturating at zero), halved from exhaustion 2, zeroed from exhaustion 5.
     */
    method GetWalkingSpeed() returns (speed: nat)
      requires Valid()
      ensures speed == Speed(race.walkingSpeed, EncumbranceFor(CarriedWeight(), GetAbilityScore(Strength)), exhaustionLevel)
      ensures speed <= race.walkingSpeed
    {
      var encumbrance := GetVariantEncumbrance();
      var penalty := EncumbrancePenalty(encumbrance);
      speed := if race.walkingSpeed >= penalty then race.walkingSpeed - penalty else 0;
      if exhaustionLevel >= 2 {
        speed := speed / 2;
      }
      if exhaustionLevel >= 5 {
        speed := 0;
      }
      SpeedProperties(race.walkingSpeed, encumbrance, encumbrance, exhaustionLevel, exhaustionLevel);
    }

    /** The armor of every equipped item, each at the Dexterity modifier. */
    ghost function ArmorTotal(): int
      requires Valid()
      reads this, equipment, equipment.Repr
    {
      MSum(equipment.EquippedItems(), ArmorOf(GetAbilityModifier(Dexterity)))
    }

    /** `get_armor_class`: the equipped items' armor contributions, summed. */
    method GetArmorClass() returns (ac: int)
      requires Valid()
      ensures ac == ArmorTotal()
    {
      var dexModifier := GetAbilityModifier(Dexterity);
      var items := equipment.GetEquippedItems();
      MSumOfSeq(items, ArmorOf(dexModifier));
      ac := SeqSum(items, ArmorOf(dexModifier));
    }

    predicate HasItemEquippedMatchingCriteria(criteria: Item -> bool)
      requires Valid()
      reads this, equipment, equipment.Repr
      ensures HasItemEquippedMatchingCriteria(criteria) <==> exists x :: x in equipment.EquippedItems() && criteria(x)
    {
      equipment.HasItemEquippedMatchingCriteria(criteria)
    }

    /** `add_item`: the inventory grows by the item, and so does the carried weight. */
    method AddItem(item: Item)
      requires Valid()
      modifies inventory
      ensures Valid()
      ensures inventory.items == old(inventory.items) + [item]
      ensures CarriedWeight() == old(CarriedWeight()) + item.weight
    {
      inventory.AddItem(item);
    }

    method SetExhaustionLevel(level: nat)
      requires Valid()
      modifies this`exhaustionLevel
      ensures Valid()
      ensures exhaustionLevel == level
    {
      exhaustionLevel := level;
    }

    /** `add_class`: the class joins the list; its level and its feats (ahead of the race's) count from now on. */
    method AddClass(c: Class)
      requires Valid()
      modifies classes
      ensures Valid()
      ensures classes.classes == old(classes.classes) + [c]
      ensures GetLevel() == old(GetLevel()) + c.level
      ensures GetFeats() == old(AllFeats(classes.classes)) + c.feats + race.feats
    {
      AllFeatsAppend(classes.classes, c);
      classes.AddClass(c);
    }

    method AddEquipmentSlot(slotName: string, slot: Slot<Item>)
      requires Valid()
      requires slot !in equipment.Repr
      modifies equipment
      ensures Valid()
      ensures equipment.slots == old(equipment.slots)[slotName := slot]
      ensures equipment.Contents() == old(equipment.Contents())[slotName := slot.value]
    {
      equipment.AddSlot(slotName, slot);
    }

    /** `equip_item`: a slot failure is reported as an equipment error. */
    method EquipItem(item: Item, slotName: string) returns (r: Outcome<Error>)
      requires Valid()
      modifies if slotName in equipment.slots then {equipment.slots[slotName]} else {}
      ensures Valid()
      ensures slotName !in equipment.slots ==> r == Fail(Equipment(NotExists(slotName)))
      ensures slotName in equipment.slots && old(equipment.Contents())[slotName].Some? ==>
                r == Fail(Equipment(SlotProblem(Full)))
      ensures slotName in equipment.slots && old(equipment.Contents())[slotName].None? ==>
                (r == Pass <==> equipment.slots[slotName].validator(item))
      ensures slotName in equipment.slots && old(equipment.Contents())[slotName].None? && r.Fail? ==>
                r == Fail(Equipment(SlotProblem(Invalid)))
      ensures r.Pass? ==> equipment.Contents() == old(equipment.Contents())[slotName := Some(item)]
      ensures r.Pass? ==> equipment.EquippedItems() == old(equipment.EquippedItems()) + multiset{item}
      ensures r.Fail? ==> r.error.Equipment? && equipment.Contents() == old(equipment.Contents())
    {
      var outcome := equipment.Equip(item, slotName);
      if outcome.Fail? {
        r := Fail(Equipment(outcome.error));
      } else {
        r := Pass;
      }
    }
  }

  /**
   * The character builder. Each setter returns the builder in the source;
   * here it changes this builder in place, and the component setters that
   * add to a part create that part first when it is missing.
   */
  class Builder {
    var name: Option<string>
    var alignment: Option<Alignment>
    var gender: Option<Gender>
    var personality: Option<Personality>
    var race: Option<Race>
    var baseAbilityScores: Option<Abilities>
    var classes: Option<Classes>
    var skills: Option<Skills>
    var inventory: Option<Items>
    var equipment: Option<ItemSlots>
    var senses: Option<Senses>
    var proficiencies: Option<Proficiencies>

    /** Held equipment is well formed. */
    ghost predicate Valid()
      reads this, if equipment.Some? then {equipment.value} + equipment.value.Repr else {}
    {
      equipment.Some? ==> equipment.value.Valid()
    }

    /** `Builder::new()`: nothing set. */
    constructor ()
      ensures Valid()
      ensures name.None? && alignment.None? && gender.None? && personality.None? && race.None?
      ensures baseAbilityScores.None? && classes.None? && skills.None? && inventory.None?
      ensures equipment.None? && senses.None? && proficiencies.None?
    {
      name, alignment, gender, personality, race := None, None, None, None, None;
      baseAbilityScores, classes, skills, inventory := None, None, None, None;
      equipment, senses, proficiencies := None, None, None;
    }

    /** An empty name is refused with the missing-field error and changes nothing. */
    method Name(n: string) returns (r: Outcome<ConstructionError>)
      modifies this`name
      ensures n == "" <==> r == Fail(MissingField("name"))
      ensures r.Pass? ==> name == Some(n)
      ensures r.Fail? ==> name == old(name)
    {
      if n == "" {
        return Fail(MissingField("name"));
      }
      name := Some(n);
      r := Pass;
    }

    method WithAlignment(c: Conformity, m: Morality)
      modifies this`alignment
      ensures alignment == Some(Alignment(c, m))
    {
      alignment := Some(Alignment(c, m));
    }

    method WithGender(g: Gender)
      modifies this`gender
      ensures gender == Some(g)
    {
      gender := Some(g);
    }

    method WithPersonality(p: Personality)
      modifies this`personality
      ensures personality == Some(p)
    {
      personality := Some(p);
    }

    method WithRace(r: Race)
      modifies this`race
      ensures race == Some(r)
    {
      race := Some(r);
    }

    method BaseAbilityScores(scores: Abilities)
      modifies this`baseAbilityScores
      ensures baseAbilityScores == Some(scores)
    {
      baseAbilityScores := Some(scores);
    }

    /** Adds a class, starting from no classes when none was added before. */
    method AddClass(c: Class)
      requires Valid()
      modifies this`classes, if classes.Some? then {classes.value} else {}
      ensures Valid()
      ensures classes.Some?
      ensures old(classes).Some? ==> classes == old(classes) && classes.value.classes == old(classes.value.classes) + [c]
      ensures old(classes).None? ==> fresh(classes.value) && classes.value.classes == [c]
    {
      if classes.None? {
        var created := new Classes();
        classes := Some(created);
      }
      var cs := classes.value;
      assert Valid();
      cs.AddClass(c);
    }

    /** Records proficiency in a skill, starting from default skills when there are none yet. */
    method AddSkillProficiency(s: Skill)
      requires Valid()
      modifies this`skills, if skills.Some? then {skills.value} else {}
      ensures Valid()
      ensures skills.Some? && skills.value.GetProficiency(s) == Some(Proficient)
      ensures old(skills).Some? ==> (skills == old(skills) &&
                forall other :: other != s ==> skills.value.GetProficiency(other) == old(skills.value.GetProficiency(other)))
      ensures old(skills).None? ==> fresh(skills.value) && forall other :: other != s ==> skills.value.GetProficiency(other) == None
    {
      if skills.None? {
        var created := new Skills();
        skills := Some(created);
      }
      skills.value.SetProficiency(s, Some(Proficient));
    }

    method AddSkillExpertise(s: Skill)
      requires Valid()
      modifies this`skills, if skills.Some? then {skills.value} else {}
      ensures Valid()
      ensures skills.Some? && skills.value.GetProficiency(s) == Some(Expertise)
      ensures old(skills).Some? ==> (skills == old(skills) &&
                forall other :: other != s ==> skills.value.GetProficiency(other) == old(skills.value.GetProficiency(other)))
      ensures old(skills).None? ==> fresh(skills.value) && forall other :: other != s ==> skills.value.GetProficiency(other) == None
    {
      if skills.None? {
        var created := new Skills();
        skills := Some(created);
      }
      skills.value.SetProficiency(s, Some(Expertise));
    }

    method WithInventory(items: Items)
      modifies this`inventory
      ensures inventory == Some(items)
    {
      inventory := Some(items);
    }

    /** Adds an item, starting from an empty inventory when there is none yet. */
    method AddItemToInventory(item: Item)
      requires Valid()
      modifies this`inventory, if inventory.Some? then {inventory.value} else {}
      ensures Valid()
      ensures inventory.Some?
      ensures old(inventory).Some? ==> inventory == old(inventory) && inventory.value.items == old(inventory.value.items) + [item]
      ensures old(inventory).None? ==> fresh(inventory.value) && inventory.value.items == [item]
    {
      if inventory.None? {
        var created := new Items();
        inventory := Some(created);
      }
      inventory.value.AddItem(item);
    }

    method WithEquipment(slots: ItemSlots)
      requires slots.Valid()
      modifies this`equipment
      ensures Valid()
      ensures equipment == Some(slots)
    {
      equipment := Some(slots);
    }

    /** Adds a slot, starting from no slots when there is no equipment yet. */
    method AddEquipmentSlot(slotName: string, slot: Slot<Item>)
      requires Valid()
      requires equipment.Some? ==> slot !in equipment.value.Repr
      modifies this`equipment, if equipment.Some? then {equipment.value} else {}
      ensures Valid()
      ensures equipment.Some?
      ensures old(equipment).Some? ==> (equipment == old(equipment) &&
                equipment.value.slots == old(equipment.value.slots)[slotName := slot])
      ensures old(equipment).None? ==> fresh(equipment.value) && equipment.value.slots == map[slotName := slot]
    {
      var slots: ItemSlots;
      if equipment.None? {
        slots := new ItemSlots();
        slots.AddSlot(slotName, slot);
        equipment := Some(slots);
      } else {
        slots := equipment.value;
        slots.AddSlot(slotName, slot);
      }

    }

    method WithSenses(s: Senses)
      modifies this`senses
      ensures senses == Some(s)
    {
      senses := Some(s);
    }

    /** Adds an armor proficiency, starting from no proficiencies when there are none yet. */
    method AddArmorProficiency(a: string)
      requires Valid()
      modifies this`proficiencies, if proficiencies.Some? then {proficiencies.value} else {}
      ensures Valid()
      ensures proficiencies.Some?
      ensures old(proficiencies).Some? ==> (proficiencies == old(proficiencies) &&
                proficiencies.value.armor == old(proficiencies.value.armor) + [a])
      ensures old(proficiencies).None? ==> fresh(proficiencies.value) && proficiencies.value.armor == [a]
    {
      if proficiencies.None? {
        var created := new Proficiencies();
        proficiencies := Some(created);
      }
      proficiencies.value.AddArmorProficiency(a);
    }

    method AddWeaponProficiency(w: string)
      requires Valid()
      modifies this`proficiencies, if proficiencies.Some? then {proficiencies.value} else {}
      ensures Valid()
      ensures proficiencies.Some?
      ensures old(proficiencies).Some? ==> (proficiencies == old(proficiencies) &&
                proficiencies.value.weapons == old(proficiencies.value.weapons) + [w])
      ensures old(proficiencies).None? ==> fresh(proficiencies.value) && proficiencies.value.weapons == [w]
    {
      if proficiencies.None? {
        var created := new Proficiencies();
        proficiencies := Some(created);
      }
      proficiencies.value.AddWeaponProficiency(w);
    }

    method AddToolProficiency(t: string)
      requires Valid()
      modifies this`proficiencies, if proficiencies.Some? then {proficiencies.value} else {}
      ensures Valid()
      ensures proficiencies.Some?
      ensures old(proficiencies).Some? ==> (proficiencies == old(proficiencies) &&
                proficiencies.value.tools == old(proficiencies.value.tools) + [t])
      ensures old(proficiencies).None? ==> fresh(proficiencies.value) && proficiencies.value.tools == [t]
    {
      if proficiencies.None? {
        var created := new Proficiencies();
        proficiencies := Some(created);
      }
      proficiencies.value.AddToolProficiency(t);
    }

    /**
     * `build`: the first of name, alignment, race, ability scores and
     * classes that is missing is the error; the personality, skills,
     * inventory, equipment, senses and proficiencies default to empty ones,
     * and the character starts rested and undamaged.
     */
    method Build() returns (r: Result<Character, ConstructionError>)
      requires Valid()
      ensures name.None? ==> r == Err(MissingField("name"))
      ensures name.Some? && alignment.None? ==> r == Err(MissingField("alignment"))
      ensures name.Some? && alignment.Some? && race.None? ==> r == Err(MissingField("race"))
      ensures name.Some? && alignment.Some? && race.Some? && baseAbilityScores.None? ==>
                r == Err(MissingField("ability scores"))
      ensures name.Some? && alignment.Some? && race.Some? && baseAbilityScores.Some? && classes.None? ==>
                r == Err(MissingField("class(es)"))
      ensures r.Ok? <==> name.Some? && alignment.Some? && race.Some? && baseAbilityScores.Some? && classes.Some?
      ensures r.Ok? ==> fresh(r.value) && r.value.Valid()
      ensures r.Ok? ==> r.value.name == name.value && r.value.alignment == alignment.value && r.value.gender == gender
      ensures r.Ok? ==> r.value.race == race.value && r.value.baseAbilityScores == baseAbilityScores.value
      ensures r.Ok? ==> r.value.classes == classes.value
      ensures r.Ok? ==> r.value.personality == personality.GetOr(EmptyPersonality())
      ensures r.Ok? ==> r.value.senses == senses.GetOr(NoSenses())
      ensures r.Ok? ==> r.value.exhaustionLevel == 0 && r.value.damage == 0
      ensures r.Ok? ==> if skills.Some? then r.value.skills == skills.value
                        else fresh(r.value.skills) && forall s :: r.value.skills.GetProficiency(s) == None
      ensures r.Ok? ==> if inventory.Some? then r.value.inventory == inventory.value
                        else fresh(r.value.inventory) && r.value.inventory.items == []
      ensures r.Ok? ==> if equipment.Some? then r.value.equipment == equipment.value
                        else fresh(r.value.equipment) && r.value.equipment.slots == map[]
      ensures r.Ok? ==> if proficiencies.Some? then r.value.proficiencies == proficiencies.value
                        else fresh(r.value.proficiencies) && r.value.proficiencies.armor == [] &&
                             r.value.proficiencies.weapons == [] && r.value.proficiencies.tools == [] &&
                             r.value.proficiencies.languages == []
    {
      if name.None? {
        return Err(MissingField("name"));
      }
      if alignment.None? {
        return Err(MissingField("alignment"));
      }
      var p := personality.GetOr(EmptyPersonality());
      if race.None? {
        return Err(MissingField("race"));
      }
      if baseAbilityScores.None? {
        return Err(MissingField("ability scores"));
      }
      if classes.None? {
        return Err(MissingField("class(es)"));
      }
      var sk: Skills;
      if skills.Some? {
        sk := skills.value;
      } else {
        sk := new Skills();
      }
      var inv: Items;
      if inventory.Some? {
        inv := inventory.value;
      } else {
        inv := new Items();
      }
      var eq: ItemSlots;
      if equipment.Some? {
        eq := equipment.value;
      } else {
        eq := new ItemSlots();
      }
      var prof: Proficiencies;
      if proficiencies.Some? {
        prof := proficiencies.value;
      } else {
        prof := new Proficiencies();
      }
      var c := new Character(name.value, alignment.value, gender, p, race.value, baseAbilityScores.value,
                             classes.value, sk, inv, eq, 0, 0, senses.GetOr(NoSenses()), prof);
      r := Ok(c);
    }
  }
}
