# cygnus rules engine in Dafny

A model of the character rules engine of cygnus, a tabletop role-playing
character manager, with proofs about it. The engine exists in two generations,
and each is modelled on its own terms.

- `Models*` modules model the current `cygnus_models` crate:
  - ability scores and modifiers, and the merge of base scores with race bonuses;
  - classes with their level bound, hit-point progressions and feats;
  - the class list with total level, proficiency bonus and saving throws from the primary class;
  - items, inventories, and equipment slots guarded by a validator;
  - skills, races, senses, personality and proficiencies;
  - the builders of backgrounds, characteristics and psionic disciplines;
  - the `Character` aggregate with its builder and derived queries: encumbrance tiers,
    walking speed, armor class, saving throws, skill and passive scores, hit points,
    carried weight and feats.
- `Legacy*` modules model the older root crate:
  - the ordered ability table, in which a missing score reads as 0 and the default is 8 everywhere;
  - the trait-object classes Artificer and Wizard and the class list;
  - the older `Character` record;
  - the lower-bound map, whose lookup falls back to the greatest key below the one asked for.
- The older crate's `skill.rs` matches the newer one apart from names. Its `slot.rs` has
  the same slots and slot table but no `get_equipped_items`, and its `item.rs` has only the
  plain `Item::new` constructor, the getters and the inventory, with no builder and no
  missing-name check. The older files share the `ModelsSlot`, `ModelsSkill` and `ModelsItem`
  modules, and the table below cites both files for the members they have in common.
- `Common` holds Option/Result/Outcome and sums over sequences, multisets and maps of slots.
  `Modifiers` holds the proficiency multipliers (1 for proficient, 2 for expertise) and the
  resistance and encumbrance enumerations.

Form. Each source form is modelled in the matching Dafny form:
- Structs that the source mutates through `&mut self` and that an owner holds by
  reference become Dafny classes with `modifies` clauses: `Slot`, `ItemSlots`, `Skills`,
  `Items`, `Proficiencies`, `Race` and its builder, `Classes`, `Character` and its builder,
  and the older crate's `Abilities`, `Classes` and `LowerBoundMap`.
- Values that are nested inside maps and lists, or that are combined by value, become
  datatypes: `Ability`, `Abilities`, `Class`, `HPIncreases`, `Item`, `Personality`, and the
  by-value builders of item, class, senses, background, characteristics and discipline.
- Hash-map iteration is modelled as a loop over the keys in an unspecified order.
  What it collects is stated as a multiset.

## Model

| member | source | states |
|---|---|---|
| Modifiers.Multiplier | src/modifiers.rs:1-5 | the proficiency multiplier is 1 or 2, and 2 exactly for expertise |
| Modifiers.OptionalMultiplier | src/modifiers.rs:1-5 | the multiplier of an optional proficiency is 0 exactly when there is none, and at most 2 |
| ModelsAbility.AllIdentifiers | cygnus_models/src/ability.rs:14-23 | `all()` lists six distinct identifiers |
| ModelsAbility.AllIdentifiersComplete | cygnus_models/src/ability.rs:4-23 | every identifier is in `all()` |
| ModelsAbility.Ability.Modifier | cygnus_models/src/ability.rs:64-66 | the modifier m is the integer with 2(m+5) <= score < 2(m+5)+2 (score/2-5), never below -5 |
| ModelsAbility.ModifierExamples | cygnus_models/src/ability.rs:165-199 | scores 10; 9,7,5,3,1; 12..20 give modifiers 0; -1..-5; 1..5 |
| ModelsAbility.Ability.Add | cygnus_models/src/ability.rs:75-89 | `+` and `+=` add the scores, so the sum is at least each operand |
| ModelsAbility.Abilities.SetScore | cygnus_models/src/ability.rs:105-107 | the score is read back, every other identifier is unchanged, and the count grows by one exactly for a new identifier |
| ModelsAbility.Abilities.GetScore | cygnus_models/src/ability.rs:110-112 | Some exactly for identifiers that were set, with their score |
| ModelsAbility.Abilities.GetModifier | cygnus_models/src/ability.rs:115-117 | Some exactly when a score is set, and then the score's modifier |
| ModelsAbility.EmptyAbilities | cygnus_models/src/ability.rs:101-102 | the default table has no scores and counts 0 |
| ModelsAbility.FromTemplate | cygnus_models/src/ability.rs:120-141 | every identifier gets its template score, and `count_abilities` is 6 |
| ModelsAbility.SameScoresSameTable | cygnus_models/src/ability.rs:110-112 | two tables that read the same everywhere are equal |
| ModelsAbility.Merge | cygnus_models/src/ability.rs:143-158 | pointwise: the sum where both have a score, the one score where one has it, absent where neither has |
| ModelsAbility.MergeCommutative | cygnus_models/src/ability.rs:143-158 | merging is commutative |
| ModelsAbility.MergeAssociative | cygnus_models/src/ability.rs:143-158 | merging is associative |
| ModelsAbility.MergeEmpty | cygnus_models/src/ability.rs:143-158 | the empty table is a unit of merging on both sides |
| ModelsAbility.Accumulate | cygnus_models/src/ability.rs:150-154 | one `and_modify(+=).or_insert` step: only the entry at that identifier changes, to the sum or the new score |
| ModelsAbility.AccumulateStep | cygnus_models/src/ability.rs:146-157 | one fold step extends the merge with one more entry of the right operand |
| ModelsAbility.FoldEntries | cygnus_models/src/ability.rs:146-157 | folding the right operand's entries into an accumulator gives the merge of the two |
| ModelsAbility.Add | cygnus_models/src/ability.rs:143-158 | `Abilities + Abilities` equals `Merge` |
| ModelsBackground.NewFeature | cygnus_models/src/background.rs:155-170 | `Feature::new` stores the name and description that the getters return |
| ModelsBackground.TwoSkillsTwoToolsOf | cygnus_models/src/background.rs:192-202 | skills and tools are kept in argument order |
| ModelsBackground.TwoSkillsTwoLanguagesOf | cygnus_models/src/background.rs:204-214 | skills and languages are kept in argument order |
| ModelsBackground.TwoSkillsOneToolOneLanguageOf | cygnus_models/src/background.rs:216-227 | the tool and the language each go to their own field |
| ModelsBackground.PackagesGrantTwoSkills | cygnus_models/src/background.rs:192-227 | every package grants exactly two skills |
| ModelsBackground.Builder.Name | cygnus_models/src/background.rs:52-56 | sets the name and changes nothing else, so a second call overwrites the first |
| ModelsBackground.Builder.Description | cygnus_models/src/background.rs:59-63 | sets the description and nothing else |
| ModelsBackground.Builder.WithFeature | cygnus_models/src/background.rs:66-70 | sets the feature and nothing else |
| ModelsBackground.Builder.WithProficiencies | cygnus_models/src/background.rs:73-77 | sets the proficiencies and nothing else |
| ModelsBackground.NewBuilder | cygnus_models/src/background.rs:36-49 | a new builder has no field set |
| ModelsBackground.MissingFieldsExact | cygnus_models/src/background.rs:109-138 | about `MissingFields`, the checks of `try_into`: a field is reported exactly when it is unset, with no repeats, and the report is empty exactly when all four are set |
| ModelsBackground.TryInto | cygnus_models/src/background.rs:106-146 | fails exactly when a field is missing, listing every missing one in order; on success the fields are the builder's |
| ModelsBackground.BuildAllFieldsExample | cygnus_models/src/background.rs:234-270 | a fully set builder builds the expected background |
| ModelsBackground.MissingFieldsExample | cygnus_models/src/background.rs:109-138 | an empty builder reports all four fields; with a name set it reports the other three |
| ModelsCharacteristics.NewBuilder | cygnus_models/src/characteristics.rs:76-94 | a new builder has no field set |
| ModelsCharacteristics.SettersOverwrite | cygnus_models/src/characteristics.rs:96-163 | each of the ten setters (`WithAlignment`, `WithGender`, `WithSize`, `EyeColor`, `Height`, `Faith`, `HairColor`, `SkinTone`, `Age`, `WithWeight`) sets its own field and overwrites an earlier value of it |
| ModelsCharacteristics.Absent | cygnus_models/src/characteristics.rs:193-245 | one absence flag per required field |
| ModelsCharacteristics.SelectedMember | cygnus_models/src/characteristics.rs:193-245 | a name is reported exactly when some flagged position holds it |
| ModelsCharacteristics.SelectedDistinct | cygnus_models/src/characteristics.rs:193-245 | reporting from distinct names gives no repeats |
| ModelsCharacteristics.RequiredFieldsDistinct | cygnus_models/src/characteristics.rs:193-245 | the eight required field names are distinct |
| ModelsCharacteristics.MissingFieldsMember | cygnus_models/src/characteristics.rs:193-245 | a required field is reported exactly when it is unset |
| ModelsCharacteristics.MissingFieldsRequired | cygnus_models/src/characteristics.rs:195-245 | only required fields are reported, so gender and faith never are |
| ModelsCharacteristics.MissingFieldsEmpty | cygnus_models/src/characteristics.rs:193-245 | nothing is reported exactly when all eight required fields are set |
| ModelsCharacteristics.MissingFieldsExact | cygnus_models/src/characteristics.rs:193-245 | the four facts above together, plus no repeats |
| ModelsCharacteristics.CompleteReportsNothing | cygnus_models/src/characteristics.rs:243-245 | a complete builder reports nothing |
| ModelsCharacteristics.FirstFourInOrder | cygnus_models/src/characteristics.rs:195-217 | the first four checks report alignment, size, eye color and height in that order |
| ModelsCharacteristics.MissingFieldsInOrder | cygnus_models/src/characteristics.rs:195-241 | the report lists the missing fields in the order alignment, size, eye_color, height, hair_color, skin_tone, age, weight |
| ModelsCharacteristics.PushIfAbsent | cygnus_models/src/characteristics.rs:195-241 | one conditional `get_or_insert(vec![]).push` step extends the report by that field exactly when it is absent |
| ModelsCharacteristics.CollectMissing | cygnus_models/src/characteristics.rs:193-241 | the eight sequential pushes leave None when nothing is missing, and otherwise the list of missing fields |
| ModelsCharacteristics.TryFrom | cygnus_models/src/characteristics.rs:192-259 | fails exactly when a required field is unset, with a non-empty list of every missing field; on success every value is copied unchanged |
| ModelsCharacteristics.SetterFillsItsField | cygnus_models/src/characteristics.rs:111-115 | setting size removes "size" from the report and changes nothing else in it; gender and faith change nothing |
| ModelsCharacteristics.EmptyBuilderExample | cygnus_models/src/characteristics.rs:193-245 | an empty builder reports all eight required fields |
| ModelsCharacteristics.AllRequiredExample | cygnus_models/src/characteristics.rs:243-258 | a builder with the eight required fields builds, with gender and faith absent |
| ModelsClass.ProgressionHPSplits | cygnus_models/src/class.rs:15-19 | the hit points of a progression are the sum of increases plus the Con modifier times their count |
| ModelsClass.HPIncreases.HitPoints | cygnus_models/src/class.rs:15-19 | sum of increases plus Con modifier times count, and 0 for an empty progression |
| ModelsClass.HPIncreases.AddIncrease | cygnus_models/src/class.rs:26-34 | fails with IncorrectNumberOfIncreases exactly at 20 or more entries; otherwise appends at the end |
| ModelsClass.NoIncreases | cygnus_models/src/class.rs:5-6 | the default progression is empty |
| ModelsClass.NewHPIncreases | cygnus_models/src/class.rs:10-12 | `new(h)` holds [h], so its hit points are h plus the Con modifier |
| ModelsClass.HPIncreasesFrom | cygnus_models/src/class.rs:37-47 | accepts exactly the lists of at most 20 entries, unchanged |
| ModelsClass.AddIncreaseKeepsBound | cygnus_models/src/class.rs:26-34 | a successful add keeps the bound of 20 and raises hit points by the increase plus the Con modifier |
| ModelsClass.HitPointExamples | cygnus_models/src/class.rs:398-423 | 0 and 0 for an empty progression; 28 at Con 0 and 43 at Con 3 for [8,5,5,5,5] |
| ModelsClass.Class.HitPoints | cygnus_models/src/class.rs:250-252 | the increases of the class's progression summed, plus the Constitution modifier once per progression entry (class.rs:15-19) |
| ModelsClass.Class.SetLevel | cygnus_models/src/class.rs:230-238 | fails with `TryFromError.LevelOutOfBounds` exactly above 20; otherwise stores the level and nothing else |
| ModelsClass.Class.GetSavingThrowProficiency | cygnus_models/src/class.rs:241-243 | the class's own proficiency for an ability, None when it has none |
| ModelsClass.Class.AddFeat | cygnus_models/src/class.rs:258-260 | appends the feat and leaves every other field alone |
| ModelsClass.ClassFromTemplate | cygnus_models/src/class.rs:201-212 | fails exactly when the template's level is above 20; otherwise copies the template |
| ModelsClass.Builder.Name | cygnus_models/src/class.rs:83-93 | an empty name fails with MissingName; otherwise the name is stored |
| ModelsClass.Builder.Level | cygnus_models/src/class.rs:95-103 | fails with LevelOutOfBounds exactly above 20; otherwise the level is stored |
| ModelsClass.Builder.AddSavingThrowProficiency | cygnus_models/src/class.rs:105-113 | records Proficient for that ability |
| ModelsClass.Builder.WithHPIncreases | cygnus_models/src/class.rs:121-128 | stores the progression |
| ModelsClass.Builder.AddFeat | cygnus_models/src/class.rs:130-134 | appends the feat |
| ModelsClass.Builder.Build | cygnus_models/src/class.rs:136-157 | MissingName without a name, then LevelOutOfBounds without a level; otherwise the fields are copied, and a missing progression is empty |
| ModelsClass.NewBuilder | cygnus_models/src/class.rs:79-81 | a new builder has nothing set |
| ModelsClass.BuiltLevelBounded | cygnus_models/src/class.rs:83-157 | a named builder accepts exactly the levels up to 20 and builds a class of that level |
| ModelsClass.TotalLevel | cygnus_models/src/class.rs:276-278 | the levels summed, which `Classes.GetLevel` returns for its list: 0 for no classes, and one class's own level |
| ModelsClass.TotalLevelBounds | cygnus_models/src/class.rs:276-278 | the total level is never below any class's level |
| ModelsClass.ProficiencyBonus | cygnus_models/src/class.rs:281-283 | 0 exactly at level 0; otherwise 2 plus one every four levels ((L-1)/4+2) |
| ModelsClass.ProficiencyBonusMonotone | cygnus_models/src/class.rs:281-283 | the bonus never drops as the level grows, and is at most 6 up to level 20 |
| ModelsClass.ProficiencyBonusExamples | cygnus_models/src/class.rs:464-528 | 0, 2, 2, 3, 4, 5, 6 at levels 0, 1, 4, 5, 9, 13, 17 |
| ModelsClass.ClassesHP | cygnus_models/src/class.rs:293-297 | the hit points summed, which `Classes.GetHitPoints` returns for its list: 0 for no classes, and one class's own hit points |
| ModelsClass.ClassesHPBounds | cygnus_models/src/class.rs:293-297 | when no class's hit points are negative, the total is not negative and at least each class's |
| ModelsClass.AllFeats | cygnus_models/src/class.rs:299-301 | the feats flattened, which `Classes.GetFeats` returns for its list: no feats for no classes, and one class's own feats |
| ModelsClass.AllFeatsContains | cygnus_models/src/class.rs:299-301 | every feat of every class is among the flattened feats |
| ModelsClass.Classes.constructor | cygnus_models/src/class.rs:268-269 | the default class list is empty, at level 0 with bonus 0 |
| ModelsClass.Classes.AddClass | cygnus_models/src/class.rs:272-274 | appends the class: level, hit points and feats grow by its own, and the primary class's saves stay |
| ModelsClass.Classes.GetProficiencyBonus | cygnus_models/src/class.rs:281-283 | 0 exactly at total level 0, otherwise the step function of the total level |
| ModelsClass.Classes.GetSavingThrowProficiency | cygnus_models/src/class.rs:286-290 | only the first class counts; None for an empty list |
| ModelsClass.MulticlassExample | cygnus_models/src/class.rs:591-618 | a wizard who multiclasses into artificer is proficient in Int and Wis saves but not Con |
| ModelsItem.Builder.Name | cygnus_models/src/item.rs:23-33 | an empty name fails with MissingName; otherwise it is stored and nothing else changes |
| ModelsItem.Builder.Weight | cygnus_models/src/item.rs:35-39 | stores the weight and nothing else |
| ModelsItem.Builder.AddType | cygnus_models/src/item.rs:41-45 | appends the type and nothing else |
| ModelsItem.Builder.WithArmorClass | cygnus_models/src/item.rs:47-51 | stores the armor rating and nothing else |
| ModelsItem.Builder.Build | cygnus_models/src/item.rs:53-65 | fails exactly without a name; weight defaults to 0, and types and armor rating are carried over |
| ModelsItem.NewBuilder | cygnus_models/src/item.rs:19-21 | a new builder has no field set |
| ModelsItem.AddTypesAppends | cygnus_models/src/item.rs:41-45 | repeated `add_type` keeps the order of the calls |
| ModelsItem.BuilderRoundTrip | cygnus_models/src/item.rs:23-105 | building after name, weight, types and armor rating gives exactly that item, and `has_type(t)` (`Item.HasType`, item.rs:103-105) holds exactly when t is one of its types; the older `Item::new` and `has_type` (src/item.rs:17-47) describe the same item |
| ModelsItem.TotalWeightBounds | cygnus_models/src/item.rs:117-119 | no item weighs more than `TotalWeight`, the sum that `get_total_weight` takes |
| ModelsItem.TotalWeightOrderFree | cygnus_models/src/item.rs:117-119 | the total weight depends only on the multiset of items |
| ModelsItem.TotalWeightExamples | cygnus_models/src/item.rs:130-161 | 0 when empty, 6 for weights 1, 2, 3, as in both crates' tests (also src/item.rs:68-98) |
| ModelsItem.Items.constructor | cygnus_models/src/item.rs:112-113 | the default inventory is empty |
| ModelsItem.Items.FromItems | cygnus_models/src/item.rs:112-113 | an inventory holds exactly the given items |
| ModelsItem.Items.GetTotalWeight | cygnus_models/src/item.rs:117-119 | the sum of the item weights, in any order (also src/item.rs:55-57) |
| ModelsItem.Items.AddItem | cygnus_models/src/item.rs:121-123 | appends the item, and the total weight grows by exactly its weight (also src/item.rs:59-61) |
| ModelsPersonality.Personality.AddTrait | cygnus_models/src/personality.rs:10-14 | appends to traits and leaves ideals, bonds and flaws alone |
| ModelsPersonality.Personality.AddIdeal | cygnus_models/src/personality.rs:16-20 | appends to ideals only |
| ModelsPersonality.Personality.AddBond | cygnus_models/src/personality.rs:22-26 | appends to bonds only |
| ModelsPersonality.Personality.AddFlaw | cygnus_models/src/personality.rs:28-32 | appends to flaws only |
| ModelsPersonality.EmptyPersonality | cygnus_models/src/personality.rs:1-7 | the default has four empty lists |
| ModelsPersonality.AddTraitsInOrder | cygnus_models/src/personality.rs:10-14 | repeated adds keep insertion order |
| ModelsPersonality.AddersCommute | cygnus_models/src/personality.rs:10-32 | adders of different lists commute, because each touches only its own list |
| ModelsProficiencies.Proficiencies.constructor | cygnus_models/src/proficiencies.rs:3-14 | four empty lists |
| ModelsProficiencies.Proficiencies.AddArmorProficiency | cygnus_models/src/proficiencies.rs:16-28 | appends to armor only; the joined string of `GetArmorProficienciesString` gains ", " and the new entry |
| ModelsProficiencies.Proficiencies.AddWeaponProficiency | cygnus_models/src/proficiencies.rs:30-42 | appends to weapons only; the joined string of `GetWeaponProficienciesString` gains ", " and the new entry |
| ModelsProficiencies.Proficiencies.AddToolProficiency | cygnus_models/src/proficiencies.rs:44-56 | appends to tools only; the joined string of `GetToolProficienciesString` gains ", " and the new entry |
| ModelsProficiencies.Proficiencies.AddLanguage | cygnus_models/src/proficiencies.rs:58-66 | appends to languages only |
| ModelsProficiencies.ArmorStringExample | cygnus_models/src/proficiencies.rs:16-28 | two armor entries join to "Light, Medium" |
| ModelsPsionics.NewTalent | cygnus_models/src/psionics.rs:9-26 | `Talent::new` stores the name and description that the getters return |
| ModelsPsionics.Builder.Name | cygnus_models/src/psionics.rs:84-88 | sets the name and nothing else, so a later call overwrites |
| ModelsPsionics.Builder.Order | cygnus_models/src/psionics.rs:91-95 | sets the order and nothing else |
| ModelsPsionics.Builder.Description | cygnus_models/src/psionics.rs:98-102 | sets the description and nothing else |
| ModelsPsionics.Builder.Focus | cygnus_models/src/psionics.rs:105-109 | sets the focus and nothing else |
| ModelsPsionics.Builder.AddAct | cygnus_models/src/psionics.rs:112-116 | appends the act and nothing else |
| ModelsPsionics.NewBuilder | cygnus_models/src/psionics.rs:79-81 | a new builder has nothing set and no acts |
| ModelsPsionics.DisciplineFrom | cygnus_models/src/psionics.rs:122-143 | succeeds exactly when name, order, description and focus are set; otherwise MissingField names the first missing one in that order; acts carry over |
| ModelsPsionics.DisciplineRoundTrip | cygnus_models/src/psionics.rs:112-143 | builders with all four fields build with their acts in `add_act` order, an empty act list included; a builder without a name reports "name" |
| ModelsRace.Race.constructor | cygnus_models/src/race.rs:205-256 | the race holds the given fields, which the getters return |
| ModelsRace.Race.FromTemplate | cygnus_models/src/race.rs:272-286 | copies every template field and starts with no feats |
| ModelsRace.Race.GetDamageResistance | cygnus_models/src/race.rs:244-247 | Some exactly for a recorded damage type, with its resistance |
| ModelsRace.Race.GetConditionResistance | cygnus_models/src/race.rs:249-252 | Some exactly for a recorded condition, with its resistance |
| ModelsRace.Race.AddFeat | cygnus_models/src/race.rs:263-269 | appends the feat, so feats come back in insertion order |
| ModelsRace.Builder.constructor | cygnus_models/src/race.rs:60-76 | nothing set, empty abilities, resistances, languages and feats |
| ModelsRace.Builder.Name | cygnus_models/src/race.rs:78-82 | stores the name |
| ModelsRace.Builder.WithCreatureType | cygnus_models/src/race.rs:84-88 | stores the creature type |
| ModelsRace.Builder.WithSize | cygnus_models/src/race.rs:90-94 | stores the size |
| ModelsRace.Builder.WalkingSpeed | cygnus_models/src/race.rs:96-100 | stores the walking speed |
| ModelsRace.Builder.AddAbility | cygnus_models/src/race.rs:102-106 | sets that ability's score |
| ModelsRace.Builder.AddDamageResistance | cygnus_models/src/race.rs:108-113 | records Resistant for that damage type, overwriting |
| ModelsRace.Builder.AddDamageImmunity | cygnus_models/src/race.rs:115-120 | records Immune for that damage type, overwriting |
| ModelsRace.Builder.AddConditionResistance | cygnus_models/src/race.rs:122-127 | records Resistant for that condition, overwriting |
| ModelsRace.Builder.AddConditionImmunity | cygnus_models/src/race.rs:129-134 | records Immune for that condition, overwriting |
| ModelsRace.Builder.AddLanguage | cygnus_models/src/race.rs:136-140 | appends the language |
| ModelsRace.Builder.AddFeat | cygnus_models/src/race.rs:142-146 | appends the feat |
| ModelsRace.Builder.Build | cygnus_models/src/race.rs:148-173 | fails with MissingName exactly without a name; defaults Humanoid, Medium and 30 ft; copies the rest |
| ModelsRace.BuilderDefaultsExample | cygnus_models/src/race.rs:148-173 | a named builder with one immunity and one language builds with the defaults, that immunity, and speaks only that language, as `Race.CanSpeak` (race.rs:259-261) reads it |
| ModelsRace.Human | cygnus_models/src/race.rs:296-315 | the test human: humanoid, medium, 30 ft, +1 to every ability, speaks Common |
| ModelsRace.ShadarKai | cygnus_models/src/race.rs:318-337 | the test shadar-kai, with its resistance, immunity and two languages |
| ModelsSenses.NoSenses | cygnus_models/src/senses.rs:48-54 | the default has all four senses absent |
| ModelsSenses.Builder.Blindsight | cygnus_models/src/senses.rs:14-18 | records the distance and nothing else |
| ModelsSenses.Builder.Darkvision | cygnus_models/src/senses.rs:20-24 | records the distance and nothing else |
| ModelsSenses.Builder.Tremorsense | cygnus_models/src/senses.rs:26-30 | records the distance and nothing else |
| ModelsSenses.Builder.Truesight | cygnus_models/src/senses.rs:32-36 | records the distance and nothing else |
| ModelsSenses.Builder.Build | cygnus_models/src/senses.rs:38-45 | copies all four values unchanged, which the getters at 57-71 return |
| ModelsSenses.NewBuilder | cygnus_models/src/senses.rs:10-12 | a new builder builds the default senses |
| ModelsSenses.BuilderRoundTrip | cygnus_models/src/senses.rs:14-45 | setting all four senses in either order builds exactly those distances |
| ModelsSenses.SetterOverwrites | cygnus_models/src/senses.rs:14-36 | a second call of a setter overwrites the first |
| ModelsSenses.PassiveScore | cygnus_models/src/senses.rs:73-83 | 10 plus the modifier, for a modifier of at least -10 |
| ModelsSenses.PassiveScoreMonotone | cygnus_models/src/senses.rs:73-83 | the passive score moves one for one with the modifier, and is 10 at modifier 0 |
| ModelsSkill.AllSkills | cygnus_models/src/skill.rs:5-25 | eighteen distinct skills |
| ModelsSkill.AllSkillsComplete | cygnus_models/src/skill.rs:5-25 | every skill is listed |
| ModelsSkill.SkillsOfEachAbility | cygnus_models/src/skill.rs:29-49 | the table of `GetAbility`: exactly which skills use Dex, Wis, Int, Str and Cha, and none uses Con; the older table at src/skill.rs:29-47 is the same |
| ModelsSkill.SkillModifier | cygnus_models/src/character.rs:519-525 | the ability modifier plus 0, 1 or 2 times the bonus, by proficiency |
| ModelsSkill.Skills.constructor | cygnus_models/src/skill.rs:66-88 | every one of the 18 skills is present, with no proficiency (also src/skill.rs:63-85) |
| ModelsSkill.Skills.SetProficiency | cygnus_models/src/skill.rs:57-63 | the proficiency is read back through `GetProficiency` (None clears it), and every other skill is unchanged (also src/skill.rs:54-60) |
| ModelsSlot.Slot.constructor | cygnus_models/src/slot.rs:18-23 | a new slot is empty with the given validator |
| ModelsSlot.Slot.Equip | cygnus_models/src/slot.rs:25-37 | Full on an occupied slot, checked first, keeping the item; Invalid when the validator refuses, leaving it empty; otherwise holds the item (also src/slot.rs:25-37) |
| ModelsSlot.Slot.Unequip | cygnus_models/src/slot.rs:39-41 | returns the held item or fails with Empty, and the slot is empty afterwards (also src/slot.rs:39-41) |
| ModelsSlot.EquipThenUnequip | cygnus_models/src/slot.rs:25-41 | equipping an accepted item into an empty slot and unequipping returns that item and empties the slot |
| ModelsSlot.ItemSlots.Contents | cygnus_models/src/slot.rs:70 | the slot table's view as a name-to-content map, over the same names |
| ModelsSlot.ItemSlots.constructor | cygnus_models/src/slot.rs:69-70 | the default table has no slots |
| ModelsSlot.ItemSlots.AddSlot | cygnus_models/src/slot.rs:73-75 | inserts or replaces the slot under that name; other slots are unchanged, and the equipped items change by the old and new contents (also src/slot.rs:73-75) |
| ModelsSlot.ItemSlots.Equip | cygnus_models/src/slot.rs:77-84 | NotExists with the name for an unknown slot; slot errors wrapped as SlotProblem; on success one more item is equipped, and nothing changes on failure (also src/slot.rs:77-84) |
| ModelsSlot.ItemSlots.Unequip | cygnus_models/src/slot.rs:86-93 | NotExists for an unknown slot, SlotProblem(Empty) for an empty one; otherwise returns the item and equipped items lose exactly it (also src/slot.rs:86-93) |
| ModelsSlot.ItemSlots.HasItemEquippedMatchingCriteria | cygnus_models/src/slot.rs:95-100 | holds exactly when some equipped item satisfies the criteria (also src/slot.rs:95-100) |
| ModelsSlot.ItemSlots.GetEquippedItems | cygnus_models/src/slot.rs:110-115 | returns exactly the occupied slots' items, as a multiset |
| ModelsSlot.ItemSlots.GetTotalWeight | cygnus_models/src/slot.rs:102-108 | the sum of the weights of the occupied slots' items (also src/slot.rs:102-108) |
| ModelsSlotExamples.EquipValidExample | cygnus_models/src/slot.rs:154-166 | an armor slot accepts an armor item and holds it (also src/slot.rs:143-151) |
| ModelsSlotExamples.EquipInvalidExample | cygnus_models/src/slot.rs:169-181 | an armor slot refuses a non-armor item with Invalid and stays empty (also src/slot.rs:154-162) |
| ModelsSlotExamples.EquipFullExample | cygnus_models/src/slot.rs:184-196 | a full slot refuses a second item with Full and keeps the first (also src/slot.rs:165-173) |
| ModelsSlotExamples.UnequipEmptyExample | cygnus_models/src/slot.rs:199-203 | unequipping an empty slot fails with Empty (also src/slot.rs:176-180) |
| ModelsSlotExamples.UnequipExample | cygnus_models/src/slot.rs:206-215 | unequipping returns the held item and leaves the slot empty (also src/slot.rs:183-190) |
| ModelsSlotExamples.UnknownSlotExample | cygnus_models/src/slot.rs:218-228 | equip and unequip of an unregistered name give NotExists with that name (also src/slot.rs:193-201) |
| ModelsSlotExamples.SingleSlotWeight | cygnus_models/src/slot.rs:102-108 | one occupied slot weighs its item |
| ModelsSlotExamples.MatchingExample | cygnus_models/src/slot.rs:262-287 | with only the rapier in the right hand no armor is equipped; once chain mail goes into the armor slot, armor is (also src/slot.rs:219-233) |
| ModelsSlotExamples.TotalWeightExample | cygnus_models/src/slot.rs:290-313 | chain mail and a rapier in two slots weigh 57 (also src/slot.rs:236-245) |
| ModelsCharacter.EncumbrancePenalty | cygnus_models/src/character.rs:426-430 | 0 exactly without encumbrance, and at most 20 ft |
| ModelsCharacter.EncumbranceFor | cygnus_models/src/character.rs:488-499 | None up to 5×Str, Encumbered above 5×Str up to 10×Str, HeavilyEncumbered above 10×Str, both comparisons strict |
| ModelsCharacter.EncumbranceMonotone | cygnus_models/src/character.rs:488-499 | more weight never means a smaller speed penalty |
| ModelsCharacter.SpeedProperties | cygnus_models/src/character.rs:424-440 | speed never exceeds the race's; it is the race's when unencumbered below exhaustion 2 and 0 from exhaustion 5; it never rises with exhaustion or encumbrance |
| ModelsCharacter.ArmorContributionDexterity | cygnus_models/src/character.rs:396-411 | heavy armor ignores dexterity, medium adds at most 2, light adds all of it, an item without a rating adds nothing; more dexterity never lowers the term |
| ModelsCharacter.Character.constructor | cygnus_models/src/character.rs:330-345 | the character holds the given fields |
| ModelsCharacter.Character.GetAbilities | cygnus_models/src/character.rs:442-444 | the base scores merged with the race's bonuses |
| ModelsCharacter.Character.GetAbilityScore | cygnus_models/src/character.rs:447-449 | base score plus race bonus, each read as 0 when missing |
| ModelsCharacter.Character.GetAbilityModifier | cygnus_models/src/character.rs:452-454 | the modifier of the merged score, 0 when there is none, never below -5 |
| ModelsCharacter.Character.GetInitiative | cygnus_models/src/character.rs:391-393 | the Dexterity modifier, so never below -5 |
| ModelsCharacter.Character.GetLevel | cygnus_models/src/character.rs:457-459 | the total level of the character's class list, as `TotalLevel` sums it |
| ModelsCharacter.Character.GetProficiencyBonus | cygnus_models/src/character.rs:457-464 | 0 exactly at level 0, otherwise the step function of the total level |
| ModelsCharacter.Character.GetHitPointsMax | cygnus_models/src/character.rs:384-388 | the classes' hit points at the Con modifier |
| ModelsCharacter.Character.GetCurrentHitPoints | cygnus_models/src/character.rs:379-381 | the class hit points at the Constitution modifier (`ClassesHP`) minus the damage, so at most the maximum and equal to it exactly without damage |
| ModelsCharacter.Character.GetSavingThrowMod | cygnus_models/src/character.rs:475-481 | the ability modifier plus 0, 1 or 2 times the bonus, by the primary class's proficiency |
| ModelsCharacter.Character.GetSkillProficiency | cygnus_models/src/character.rs:514-516 | the proficiency recorded for the skill in the skill table, and none for a skill never recorded |
| ModelsCharacter.Character.GetSkillModifier | cygnus_models/src/character.rs:519-525 | the skill's ability modifier plus 0, 1 or 2 times the bonus, never below -5 |
| ModelsCharacter.Character.GetPassivePerception | cygnus_models/src/character.rs:528-531 | 10 plus the Perception modifier |
| ModelsCharacter.Character.GetPassiveInvestigation | cygnus_models/src/character.rs:534-537 | 10 plus the Investigation modifier |
| ModelsCharacter.Character.GetPassiveInsight | cygnus_models/src/character.rs:540-543 | 10 plus the Insight modifier |
| ModelsCharacter.Character.GetFeats | cygnus_models/src/character.rs:572-574 | all class feats in class order, then the race's |
| ModelsCharacter.Character.GetTotalWeightCarried | cygnus_models/src/character.rs:483-485 | inventory weight plus equipped weight |
| ModelsCharacter.Character.GetVariantEncumbrance | cygnus_models/src/character.rs:488-499 | the encumbrance tier of the carried weight at the ability score of Strength |
| ModelsCharacter.Character.GetWalkingSpeed | cygnus_models/src/character.rs:424-440 | the race's speed minus the tier's penalty saturating at 0, halved from exhaustion 2, 0 from exhaustion 5 |
| ModelsCharacter.Character.GetArmorClass | cygnus_models/src/character.rs:396-411 | the sum of one term per equipped item with an armor rating |
| ModelsCharacter.Character.HasItemEquippedMatchingCriteria | cygnus_models/src/character.rs:567-570 | holds exactly when some equipped item satisfies the criteria |
| ModelsCharacter.Character.AddItem | cygnus_models/src/character.rs:501-503 | appends to the inventory; carried weight grows by the item's weight |
| ModelsCharacter.Character.SetExhaustionLevel | cygnus_models/src/character.rs:510-512 | stores the exhaustion level |
| ModelsCharacter.Character.AddClass | cygnus_models/src/character.rs:549-551 | appends the class: level grows by its level, its feats come after earlier class feats and before the race's |
| ModelsCharacter.Character.AddEquipmentSlot | cygnus_models/src/character.rs:553-559 | inserts or replaces the slot under that name |
| ModelsCharacter.Character.EquipItem | cygnus_models/src/character.rs:561-565 | NotExists, Full and Invalid failures wrapped as Equipment errors; on success the item is equipped, and nothing changes on failure |
| ModelsCharacter.Builder.constructor | cygnus_models/src/character.rs:84-102 | nothing is set |
| ModelsCharacter.Builder.Name | cygnus_models/src/character.rs:104-114 | `name("")` fails with MissingField("name"); otherwise the name is stored |
| ModelsCharacter.Builder.WithAlignment | cygnus_models/src/character.rs:116-124 | stores the alignment |
| ModelsCharacter.Builder.WithGender | cygnus_models/src/character.rs:126-130 | stores the gender |
| ModelsCharacter.Builder.WithPersonality | cygnus_models/src/character.rs:132-136 | stores the personality |
| ModelsCharacter.Builder.WithRace | cygnus_models/src/character.rs:138-142 | stores the race |
| ModelsCharacter.Builder.BaseAbilityScores | cygnus_models/src/character.rs:144-151 | stores the ability scores |
| ModelsCharacter.Builder.AddClass | cygnus_models/src/character.rs:153-159 | appends to the class list, creating it when absent |
| ModelsCharacter.Builder.AddSkillProficiency | cygnus_models/src/character.rs:161-172 | that skill becomes Proficient, others unchanged; a new table starts with no proficiency |
| ModelsCharacter.Builder.AddSkillExpertise | cygnus_models/src/character.rs:174-185 | that skill gets Expertise, others unchanged; a new table starts with no proficiency |
| ModelsCharacter.Builder.WithInventory | cygnus_models/src/character.rs:187-191 | stores the inventory |
| ModelsCharacter.Builder.AddItemToInventory | cygnus_models/src/character.rs:193-199 | appends to the inventory, creating it when absent |
| ModelsCharacter.Builder.WithEquipment | cygnus_models/src/character.rs:201-205 | stores the slot table |
| ModelsCharacter.Builder.AddEquipmentSlot | cygnus_models/src/character.rs:207-217 | inserts or replaces the slot, creating the table when absent |
| ModelsCharacter.Builder.WithSenses | cygnus_models/src/character.rs:219-223 | stores the senses |
| ModelsCharacter.Builder.AddArmorProficiency | cygnus_models/src/character.rs:225-234 | appends to armor proficiencies, creating them when absent |
| ModelsCharacter.Builder.AddWeaponProficiency | cygnus_models/src/character.rs:236-245 | appends to weapon proficiencies, creating them when absent |
| ModelsCharacter.Builder.AddToolProficiency | cygnus_models/src/character.rs:247-256 | appends to tool proficiencies, creating them when absent |
| ModelsCharacter.Builder.Build | cygnus_models/src/character.rs:258-307 | fails on the first missing field in the order name, alignment, race, ability scores, class(es); succeeds exactly when all five are set; other fields default; exhaustion and damage start at 0 |
| ModelsCharacterExamples.DummyOf | cygnus_models/src/character.rs:649-673 | the test dummy: scores of 8, no classes, items or slots |
| ModelsCharacterExamples.Dummy | cygnus_models/src/character.rs:649-673 | the dummy with the test human: every score 9 and every modifier -1 |
| ModelsCharacterExamples.NoSlotsNoEquippedWeight | cygnus_models/src/character.rs:483-485 | without slots the carried weight is the inventory's |
| ModelsCharacterExamples.DummyDefaultsExample | cygnus_models/src/character.rs:684-833 | the dummy walks 30 ft, is not encumbered and saves Str at -1 (tests at 684-723), and its Arcana is -1 (829-833) |
| ModelsCharacterExamples.ArtificerSaveExample | cygnus_models/src/character.rs:694-702 | an artificer dummy saves Con at 1 |
| ModelsCharacterExamples.EncumberedExample | cygnus_models/src/character.rs:726-792 | 46 lb at Str 9 is Encumbered (726-739) and walks 20 ft (783-792) |
| ModelsCharacterExamples.HeavilyEncumberedExample | cygnus_models/src/character.rs:742-804 | 91 lb at Str 9 is heavily encumbered (742-755) and walks 10 ft (795-804) |
| ModelsCharacterExamples.ExhaustionHalvesSpeedExample | cygnus_models/src/character.rs:807-818 | 15 ft at exhaustion 2, 3 and 4 |
| ModelsCharacterExamples.ExhaustionStopsExample | cygnus_models/src/character.rs:821-826 | 0 ft at exhaustion 5 |
| ModelsCharacterExamples.SkillProficiencyExample | cygnus_models/src/character.rs:836-863 | Arcana 1 with proficiency and 3 with expertise |
| ModelsCharacterExamples.PassiveScoresExample | cygnus_models/src/character.rs:866-904 | passive Perception, Investigation and Insight are 9 untrained |
| ModelsCharacterExamples.TrainedPassiveScoresExample | cygnus_models/src/character.rs:866-904 | the same passives are 11 once proficient at level 1 |
| ModelsCharacterExamples.FeatsExample | cygnus_models/src/character.rs:907-928 | class feat before race feat |
| ModelsCharacterExamples.DummyCarrying | cygnus_models/src/character.rs:649-673 | the dummy with a given inventory and slot table |
| ModelsCharacterExamples.CarriedWeightExample | cygnus_models/src/character.rs:758-780 | inventory plus equipment carry 57 |
| ModelsCharacterExamples.ArmorOfPair | cygnus_models/src/character.rs:396-411 | two equipped items give the sum of their two armor terms |
| ModelsCharacterExamples.ArmoredDummy | cygnus_models/src/character.rs:931-955 | the dummy wearing a breastplate and a helmet |
| ModelsCharacterExamples.ArmorClassExample | cygnus_models/src/character.rs:931-955 | that dummy has armor class 16 |
| LegacyAbility.CalculateModifier | src/ability.rs:32-34 | the modifier m with 2(m+5) <= score < 2(m+5)+2, the same as the current crate's |
| LegacyAbility.CalculateModifierExamples | src/ability.rs:141-162 | the tested values from 0 to 20 |
| LegacyAbility.CalculateModifierMonotone | src/ability.rs:32-34 | monotone, and one more every two points |
| LegacyAbility.Abilities.Empty | src/ability.rs:72-74 | nothing set: every score reads 0 and every modifier -5 |
| LegacyAbility.Abilities.GetBaseScore | src/ability.rs:76-78 | the stored score, or 0 for an ability never set |
| LegacyAbility.Abilities.SetScore | src/ability.rs:80-82 | overwrites one entry, which is read back, and no other |
| LegacyAbility.Abilities.GetModifier | src/ability.rs:84-86 | the modifier of the base score, -5 for an ability never set |
| LegacyAbility.Abilities.Default | src/ability.rs:114-120 | all six abilities at 8, so every modifier is -1 |
| LegacyAbility.Abilities.FromTemplate | src/ability.rs:122-135 | each of the six abilities gets its template value |
| LegacyClass.Class.GetSavingThrowProficiency | src/class.rs:50-78 | an artificer is proficient exactly in Con and Int, a wizard exactly in Int and Wis |
| LegacyClass.SumLevelsBounds | src/class.rs:20-22 | no class level exceeds the total, and one class is its own level |
| LegacyClass.PrimaryProficiency | src/class.rs:24-28 | only the first class counts; None for no classes |
| LegacyClass.LevelProficiencyBonus | src/class.rs:30-35 | the checked bonus: 0 exactly at level 0, equal to the current crate's step function |
| LegacyClass.Classes.Empty | src/class.rs:12-14 | no classes: level 0, bonus 0, no saving throws |
| LegacyClass.Classes.AddClass | src/class.rs:16-18 | appends: level grows by the class's, and the primary class stays unless there was none |
| LegacyClass.Classes.GetLevel | src/class.rs:20-22 | 0 for no classes, one class's own level, and never below any class's level |
| LegacyClass.Classes.GetSavingThrowProficiency | src/class.rs:24-28 | the first class's proficiency, None when empty |
| LegacyClass.Classes.GetProficiencyBonus | src/class.rs:30-35 | 0 exactly at level 0, otherwise 2 plus one every four levels |
| LegacyClass.Classes.GetSavingThrowBonus | src/class.rs:37-43 | 0, once or twice the bonus, by proficiency |
| LegacyClass.ClassesOf | src/class.rs:9 | a class list holding exactly the given classes |
| LegacyClass.LevelExamples | src/class.rs:85-108 | levels 0, 1, 20, and 2 for a multiclass |
| LegacyClass.BonusExamples | src/class.rs:111-140 | bonuses 0, 2, 2, 3, 4, 5, 6 at levels 0, 1, 4, 5, 9, 13, 17 |
| LegacyClass.SavingThrowExamples | src/class.rs:143-227 | no saves without classes; a wizard-then-artificer keeps only the wizard's |
| LegacyCharacter.Character.GetAbilityScore | src/character.rs:52-54 | the table's base score, 0 when unset |
| LegacyCharacter.Character.GetAbilityModifier | src/character.rs:56-58 | the modifier of that score |
| LegacyCharacter.Character.GetLevel | src/character.rs:60-64 | 0 without classes, one class's level, never below any class's level |
| LegacyCharacter.Character.GetSize | src/character.rs:48-50 | medium for every character, since the race's size is, and Human, the only race, is medium (LegacyCharacter.Race.GetSize, src/race.rs:20-22) |
| LegacyCharacter.Character.GetProficiencyBonusAsWritten | src/character.rs:66-68 | `(level - 1) / 4 + 2` on unsigned integers: no value at level 0, where the subtraction overflows |
| LegacyCharacter.Character.GetProficiencyBonus | src/character.rs:66-68 | corrected: 0 exactly at level 0, and the as-written value at every other level |
| LegacyCharacter.ClasslessBonusUnderflows | src/character.rs:66-68 | a classless character has no as-written bonus, and a checked bonus of 0 |
| LegacyCharacter.Character.GetSavingThrowProficiency | src/character.rs:70-74 | the first class's, None without classes |
| LegacyCharacter.Character.GetSavingThrowMod | src/character.rs:76-83 | corrected: the ability modifier plus 0, 1 or 2 times the checked bonus; this is the as-written value at every level from 1, while as written a classless character underflows here too |
| LegacyCharacter.Character.GetSavingThrowModAsWritten | src/character.rs:76-83 | as written, with the unchecked bonus for every ability: no value exactly at level 0, and the corrected value otherwise |
| LegacyCharacter.ClasslessSaveUnderflows | src/character.rs:76-83 | a classless character's saving throw has no as-written value, even without proficiency, and is the plain ability modifier when corrected |
| LegacyCharacter.Dummy | src/character.rs:96-111 | the test dummy: a human without classes, every score 8 and modifier -1 |
| LegacyCharacter.LevelExamples | src/character.rs:114-142 | levels 0, 1, 20, and 2 for a multiclass |
| LegacyCharacter.BonusExamples | src/character.rs:144-170 | the corrected bonus is 2, 2, 3, 4, 5, 6 at levels 1, 4, 5, 9, 13, 17 |
| LegacyCharacter.SavingThrowExamples | src/character.rs:172-233 | no saves without classes; only the primary class's for a multiclass |
| LegacyCharacter.SavingThrowModExamples | src/character.rs:235-256 | an artificer with scores of 8 saves Str at -1 and Con at 1, and is medium |
| LegacyLowerBoundMap.AsMapEntries | src/utils/lower_bound_map.rs:4-5 | a sorted entry list and its map agree entry by entry |
| LegacyLowerBoundMap.SortedUnique | src/utils/lower_bound_map.rs:4-5 | a map has exactly one sorted list of entries |
| LegacyLowerBoundMap.InsertSorted | src/utils/lower_bound_map.rs:8-10 | inserting keeps the list sorted and stores the value at exactly that key |
| LegacyLowerBoundMap.FromPairs | src/utils/lower_bound_map.rs:20-24 | the sorted list of the pairs, a later pair winning over an earlier one |
| LegacyLowerBoundMap.Find | src/utils/lower_bound_map.rs:13 | the value at exactly that key, None when absent |
| LegacyLowerBoundMap.LastBelow | src/utils/lower_bound_map.rs:13-16 | the entry with the greatest key below the key asked for, None exactly when there is none |
| LegacyLowerBoundMap.LastBelowInMap | src/utils/lower_bound_map.rs:13-16 | the same stated on the map |
| LegacyLowerBoundMap.LowerBoundMap.constructor | src/utils/lower_bound_map.rs:4-5 | the default map is empty |
| LegacyLowerBoundMap.LowerBoundMap.From | src/utils/lower_bound_map.rs:20-24 | the map holds exactly the given pairs |
| LegacyLowerBoundMap.LowerBoundMap.Insert | src/utils/lower_bound_map.rs:8-10 | overwrites the value at that key and leaves the other keys alone |
| LegacyLowerBoundMap.LowerBoundMap.Get | src/utils/lower_bound_map.rs:12-17 | the exact value; failing that, the value at the greatest key below; None exactly when every key is above |
| LegacyLowerBoundMap.InOrderPairs | src/utils/lower_bound_map.rs:50-57 | the pairs of the fallback test are already the sorted list of their map |
| LegacyLowerBoundMap.EmptyExample | src/utils/lower_bound_map.rs:30-35 | an empty map finds nothing |
| LegacyLowerBoundMap.ExactExample | src/utils/lower_bound_map.rs:37-48 | 12, 42 and 9001 each find their own value |
| LegacyLowerBoundMap.FallbackExample | src/utils/lower_bound_map.rs:50-57 | 5, 10 and 490 give Three, Seven and Twelve |
| LegacyLowerBoundMap.BelowAllExample | src/utils/lower_bound_map.rs:59-65 | 3 and 6, both below every key, give None |

## Left out

- User interface, event loops and storage: the terminal UI widgets and `render_tui`, the
  terminal test program and the database test. They are layout code and I/O, with no rules.
- `Resistance::get_damage_multiplier` (src/modifiers.rs:15-21) returns floating point.
  Only the resistance values are modelled.
- src/spell.rs, src/dice.rs, src/feature.rs, src/race.rs's trait, cygnus_models/src/feat.rs,
  units.rs and lib.rs: record holders without rules. The spell list of a class is not
  modelled. Feats are plain name/description records. Distances, weights and durations
  are naturals.
- Every `Display`/`fmt` implementation and all error message text, including `Classes`
  Display and `get_languages_string`, which needs a `Language` Display that is not part of
  this model.
- Hash-map iteration order. Equipped items are a multiset, and the armor class and
  equipped weight are sums over it, which do not depend on order.
- ModelsClass.HPIncreases.HitPoints: no `as usize` wrap-around; hit points are an `int`,
  possibly negative with a large negative Con modifier.
- ModelsCharacter.Character.GetArmorClass: no `as usize` wrap-around; the armor class is an `int`.
- ModelsSenses.PassiveScore: requires a modifier of at least -10 instead of wrapping. The
  character's skill modifiers are proved to be at least -5, so its passive scores always
  meet this.
- ModelsAbility.Abilities.SetScore, ModelsClass.Class.SetLevel, ModelsClass.Class.AddFeat and
  ModelsClass.HPIncreases.AddIncrease take `&mut self` in the source. Here they are functions
  that return the new value. A failed `set_level` or `add_increase` returns an error and no
  new value, which matches the source leaving the value unchanged. Aliasing of these values
  is not modelled.
- ModelsAbility.Ability.Add covers `AddAssign` as well: `a += b` is `a := a.Add(b)`.
- ModelsPersonality: the adders take the personality by value and return it, so they are
  functions on a datatype.
- ModelsCharacter.Builder: the source builder takes and returns itself by value. Here it
  is a class whose methods update it in place. On an empty name the source drops the
  builder; here it is left unchanged. Build hands the builder's own Classes, Items and
  ItemSlots objects to the character, so a later call on the same builder would change the
  built character; the source moves the builder into the character, so no later call exists.
- ModelsCharacter.Builder.Build stops at the first missing field, as the code does.
  The code does not collect every missing field.
- ModelsCharacteristics getters, ModelsBackground getters, ModelsPsionics getters,
  ModelsSenses getters and ModelsProficiencies list getters are field reads of the
  datatypes and classes.
- The ability identifier goes by several names across the two crates. One six-valued
  `Identifier` datatype stands for all of them. The older crate's `Ability` key is the
  same datatype.
- The race builder's `add_ability` passes an optional score to `set_score`, which takes
  a plain score; ModelsRace.Builder.AddAbility takes a plain score.
- The `skills` module that `character.rs` calls is not part of this model. Its modifier is
  ModelsSkill.SkillModifier (ability modifier plus bonus times multiplier), and its default
  abilities are the table of cygnus_models/src/skill.rs.
- The test human of cygnus_models/src/race.rs:296-315 fills the ability template with `Some(1)`,
  while the template's fields are plain scores; ModelsRace.Human uses a template with 1 everywhere.
- The Common language and the neutral morality are `CommonTongue` and `NeutralMorality`.
  This avoids clashes with other names in the model.
- The older crate's trait objects for classes and races are closed datatypes of the
  implementations it ships: Artificer and Wizard, and Human. LegacyCharacter.Race.GetSize
  models src/race.rs:20-22 and is stated through LegacyCharacter.Character.GetSize.
  LegacyCharacter.Race.GetWalkingSpeed models src/race.rs:24-26 and is not used by the older character.
- The older `get_ability_score` calls `get_score`, which the older ability table does not
  have. LegacyCharacter.Character.GetAbilityScore uses `get_base_score`.
- The older `Item::new` is the `Item` datatype's constructor, and its getters are fields.
- LegacyLowerBoundMap: keys are integers. The source is generic over any ordered key.
- Unit tests are methods and lemmas with concrete inputs and ensured results. They are
  not runnable tests.

## Findings

| source | as written | input that shows it | evidently intended | confidence | as-written member | corrected member |
|---|---|---|---|---|---|---|
| src/character.rs:66-68 | `(self.get_level() - 1) / 4 + 2` on `usize` | a character with no classes (level 0): the subtraction overflows, a panic in a debug build; a release build wraps and returns `usize::MAX / 4 + 2` | 0 at level 0, as the class list computes it at src/class.rs:30-35 with `checked_sub` | not executed | LegacyCharacter.Character.GetProficiencyBonusAsWritten, LegacyCharacter.ClasslessBonusUnderflows | LegacyCharacter.Character.GetProficiencyBonus |
| src/character.rs:76-83 | `get_saving_throw_mod` multiplies by the unchecked `get_proficiency_bonus()` for every ability, proficient or not | a character with no classes saving on any ability: the same subtraction overflows | the ability modifier plus 0, 1 or 2 times the checked bonus | not executed | LegacyCharacter.Character.GetSavingThrowModAsWritten, LegacyCharacter.ClasslessSaveUnderflows | LegacyCharacter.Character.GetSavingThrowMod |
