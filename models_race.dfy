// Races of the current crate: the race record with its ability bonuses,
// resistances, languages and feats, the in-place race builder with its
// defaults, and the conversion from a race template.
module ModelsRace {
  import opened Common
  import opened Modifiers
  import opened ModelsAbility
  import opened ModelsFeat

  datatype CreatureType =
    | Aberration | Beast | Celestial | Construct | Dragon | Elemental | Fey
    | Fiend | Giant | Humanoid | Monstrosity | Ooze | Plant | Undead

  datatype DamageType = Necrotic | Radiant | Poison | Force

  datatype Condition = MagicalSleep | Constrained | Unconscience

  datatype Size = Tiny | Small | Medium | Large | Huge | Gargantuan

  datatype Language = CommonTongue | Undercommon

  /** The walking speed, in feet, of a race built without one. */
  const DefaultWalkingSpeed: nat := 30

  datatype RaceError = MissingName

  /** A race; only its feat list changes once it exists. */
  class Race {
    const name: string
    const creatureType: CreatureType
    const size: Size
    const walkingSpeed: nat
    const abilities: Abilities
    const damageResistances: map<DamageType, Resistance>
    const conditionResistances: map<Condition, Resistance>
    const languages: seq<Language>
    var feats: seq<Feat>

    constructor (name: string, creatureType: CreatureType, size: Size, walkingSpeed: nat, abilities: Abilities,
                 damageResistances: map<DamageType, Resistance>, conditionResistances: map<Condition, Resistance>,
                 languages: seq<Language>, feats: seq<Feat>)
      ensures this.name == name && this.creatureType == creatureType && this.size == size
      ensures this.walkingSpeed == walkingSpeed && this.abilities == abilities
      ensures this.damageResistances == damageResistances && this.conditionResistances == conditionResistances
      ensures this.languages == languages && this.feats == feats
    {
      this.name := name;
      this.creatureType := creatureType;
      this.size := size;
      this.walkingSpeed := walkingSpeed;
      this.abilities := abilities;
      this.damageResistances := damageResistances;
      this.conditionResistances := conditionResistances;
      this.languages := languages;
      this.feats := feats;
    }

    /** `From<Template>`: every template field is copied and the race starts without feats. */
    constructor FromTemplate(t: RaceTemplate)
      ensures name == t.name && creatureType == t.creatureType && size == t.size
      ensures walkingSpeed == t.walkingSpeed && abilities == t.abilities
      ensures damageResistances == t.damageResistances && conditionResistances == t.conditionResistances
      ensures languages == t.languages && feats == []
    {
      name := t.name;
      creatureType := t.creatureType;
      size := t.size;
      walkingSpeed := t.walkingSpeed;
      abilities := t.abilities;
      damageResistances := t.damageResistances;
      conditionResistances := t.conditionResistances;
      languages := t.languages;
      feats := [];
    }

    function GetDamageResistance(d: DamageType): (r: Option<Resistance>)
      ensures r.Some? <==> d in damageResistances
      ensures r.Some? ==> r.value == damageResistances[d]
    {
      if d in damageResistances then Some(damageResistances[d]) else None
    }

    function GetConditionResistance(c: Condition): (r: Option<Resistance>)
      ensures r.Some? <==> c in conditionResistances
      ensures r.Some? ==> r.value == conditionResistances[c]
    {
      if c in conditionResistances then Some(conditionResistances[c]) else None
    }

    /** `contains` on the language list. */
    predicate CanSpeak(l: Language)
    {
      l in languages
    }

    /** Feats are kept in the order they were added. */
    method AddFeat(feat: Feat)
      modifies this`feats
      ensures feats == old(feats) + [feat]
    {
      feats := feats + [feat];
    }
  }

  datatype RaceTemplate = RaceTemplate(
    name: string,
    creatureType: CreatureType,
    size: Size,
    walkingSpeed: nat,
    abilities: Abilities,
    damageResistances: map<DamageType, Resistance>,
    conditionResistances: map<Condition, Resistance>,
    languages: seq<Language>)

  /** The race builder: each setter changes one field of the builder in place. */
  class Builder {
    var name: Option<string>
    var creatureType: Option<CreatureType>
    var size: Option<Size>
    var walkingSpeed: Option<nat>
    var abilities: Abilities
    var damageResistances: map<DamageType, Resistance>
    var conditionResistances: map<Condition, Resistance>
    var languages: seq<Language>
    var feats: seq<Feat>

    constructor ()
      ensures name.None? && creatureType.None? && size.None? && walkingSpeed.None?
      ensures abilities == EmptyAbilities()
      ensures damageResistances == map[] && conditionResistances == map[]
      ensures languages == [] && feats == []
    {
      name := None;
      creatureType := None;
      size := None;
      walkingSpeed := None;
      abilities := EmptyAbilities();
      damageResistances := map[];
      conditionResistances := map[];
      languages := [];
      feats := [];
    }

    /** Any name is taken here, even an empty one; only a missing name fails at build time. */
    method Name(n: string)
      modifies this`name
      ensures name == Some(n)
    {
      name := Some(n);
    }

    method WithCreatureType(t: CreatureType)
      modifies this`creatureType
      ensures creatureType == Some(t)
    {
      creatureType := Some(t);
    }

    method WithSize(s: Size)
      modifies this`size
      ensures size == Some(s)
    {
      size := Some(s);
    }

    method WalkingSpeed(speed: nat)
      modifies this`walkingSpeed
      ensures walkingSpeed == Some(speed)
    {
      walkingSpeed := Some(speed);
    }

    /** The racial bonus to one ability; a later bonus to the same ability replaces it. */
    method AddAbility(id: Identifier, score: nat)
      modifies this`abilities
      ensures abilities == old(abilities).SetScore(id, score)
      ensures abilities.GetScore(id) == Some(score)
    {
      abilities := abilities.SetScore(id, score);
    }

    method AddDamageResistance(d: DamageType)
      modifies this`damageResistances
      ensures damageResistances == old(damageResistances)[d := Resistant]
    {
      damageResistances := damageResistances[d := Resistant];
    }

    /** An immunity overwrites a resistance to the same damage type, and the other way round. */
    method AddDamageImmunity(d: DamageType)
      modifies this`damageResistances
      ensures damageResistances == old(damageResistances)[d := Immune]
    {
      damageResistances := damageResistances[d := Immune];
    }

    method AddConditionResistance(c: Condition)
      modifies this`conditionResistances
      ensures conditionResistances == old(conditionResistances)[c := Resistant]
    {
      conditionResistances := conditionResistances[c := Resistant];
    }

    method AddConditionImmunity(c: Condition)
      modifies this`conditionResistances
      ensures conditionResistances == old(conditionResistances)[c := Immune]
    {
      conditionResistances := conditionResistances[c := Immune];
    }

    method AddLanguage(l: Language)
      modifies this`languages
      ensures languages == old(languages) + [l]
    {
      languages := languages + [l];
    }

    method AddFeat(feat: Feat)
      modifies this`feats
      ensures feats == old(feats) + [feat]
    {
      feats := feats + [feat];
    }

    /**
     * Fails only without a name; the creature type defaults to Humanoid,
     * the size to Medium and the walking speed to 30 feet, and everything
     * else is copied.
     */
    method Build() returns (r: Result<Race, RaceError>)
      ensures r.Err? <==> name.None?
      ensures r.Err? ==> r.error == MissingName
      ensures r.Ok? ==> fresh(r.value)
      ensures r.Ok? ==> r.value.name == name.value
      ensures r.Ok? ==> r.value.creatureType == creatureType.GetOr(Humanoid)
      ensures r.Ok? ==> r.value.size == size.GetOr(Medium)
      ensures r.Ok? ==> r.value.walkingSpeed == walkingSpeed.GetOr(DefaultWalkingSpeed)
      ensures r.Ok? ==> r.value.abilities == abilities && r.value.languages == languages && r.value.feats == feats
      ensures r.Ok? ==> r.value.damageResistances == damageResistances
      ensures r.Ok? ==> r.value.conditionResistances == conditionResistances
    {
      if name.None? {
        return Err(MissingName);
      }
      var race := new Race(name.value, creatureType.GetOr(Humanoid), size.GetOr(Medium),
                           walkingSpeed.GetOr(DefaultWalkingSpeed), abilities,
                           damageResistances, conditionResistances, languages, feats);
      r := Ok(race);
    }
  }

  /**
   * Building with only a name gives a 30-foot Medium Humanoid; a later
   * immunity to the same damage type replaces a resistance; the languages
   * added are exactly the ones the race can speak.
   */
  method BuilderDefaultsExample(n: string) returns (race: Race)
    ensures race.name == n && race.creatureType == Humanoid && race.size == Medium
    ensures race.walkingSpeed == 30
    ensures race.GetDamageResistance(Necrotic) == Some(Immune)
    ensures race.GetDamageResistance(Radiant) == None
    ensures race.CanSpeak(CommonTongue) && !race.CanSpeak(Undercommon)
  {
    var b := new Builder();
    b.Name(n);
    b.AddDamageResistance(Necrotic);
    b.AddDamageImmunity(Necrotic);
    b.AddLanguage(CommonTongue);
    var r := b.Build();
    race := r.value;
  }

  /** The human of the unit tests: +1 to every ability, speaks Common. */
  method Human() returns (r: Race)
    ensures fresh(r)
    ensures r.name == "Human" && r.creatureType == Humanoid && r.size == Medium && r.walkingSpeed == 30
    ensures r.abilities == FromTemplate(AbilitiesTemplate(1, 1, 1, 1, 1, 1))
    ensures r.damageResistances == map[] && r.conditionResistances == map[]
    ensures r.languages == [CommonTongue] && r.feats == []
  {
    r := new Race("Human", Humanoid, Medium, 30, FromTemplate(AbilitiesTemplate(1, 1, 1, 1, 1, 1)),
                  map[], map[], [CommonTongue], []);
  }

  /**
   * The shadar-kai of the unit tests: +2 Intelligence and +1 Dexterity (the
   * other template fields default to 0), resistant to necrotic damage and
   * immune to magical sleep.
   */
  method ShadarKai() returns (r: Race)
    ensures fresh(r)
    ensures r.name == "Shadar-kai" && r.creatureType == Humanoid && r.size == Medium && r.walkingSpeed == 30
    ensures r.abilities == FromTemplate(AbilitiesTemplate(0, 1, 0, 2, 0, 0))
    ensures r.damageResistances == map[Necrotic := Resistant]
    ensures r.conditionResistances == map[MagicalSleep := Immune]
    ensures r.languages == [CommonTongue, Undercommon] && r.feats == []
  {
    r := new Race("Shadar-kai", Humanoid, Medium, 30, FromTemplate(AbilitiesTemplate(0, 1, 0, 2, 0, 0)),
                  map[Necrotic := Resistant], map[MagicalSleep := Immune], [CommonTongue, Undercommon], []);
  }
}
