// Armor, weapon, tool and language proficiencies of the current crate: four
// lists that the character's owner extends in place.
module ModelsProficiencies {
  import opened Common
  import opened ModelsRace

  /** The separator the string getters put between entries. */
  const Separator: string := ", "

  class Proficiencies {
    var armor: seq<string>
    var weapons: seq<string>
    var tools: seq<string>
    var languages: seq<Language>

    /** `Proficiencies::new()`: all four lists empty. */
    constructor ()
      ensures armor == [] && weapons == [] && tools == [] && languages == []
    {
      armor, weapons, tools, languages := [], [], [], [];
    }

    function GetArmorProficienciesString(): string
      reads this
    {
      Join(armor, Separator)
    }

    function GetWeaponProficienciesString(): string
      reads this
    {
      Join(weapons, Separator)
    }

    function GetToolProficienciesString(): string
      reads this
    {
      Join(tools, Separator)
    }

    /** Appends one armor class; the joined string grows by the separator and the new entry. */
    method AddArmorProficiency(a: string)
      modifies this`armor
      ensures armor == old(armor) + [a]
      ensures old(armor) == [] ==> GetArmorProficienciesString() == a
      ensures old(armor) != [] ==> GetArmorProficienciesString() == old(GetArmorProficienciesString()) + Separator + a
    {
      if armor != [] {
        JoinAppend(armor, a, Separator);
      }
      armor := armor + [a];
    }

    method AddWeaponProficiency(w: string)
      modifies this`weapons
      ensures weapons == old(weapons) + [w]
      ensures old(weapons) == [] ==> GetWeaponProficienciesString() == w
      ensures old(weapons) != [] ==> GetWeaponProficienciesString() == old(GetWeaponProficienciesString()) + Separator + w
    {
      if weapons != [] {
        JoinAppend(weapons, w, Separator);
      }
      weapons := weapons + [w];
    }

    method AddToolProficiency(t: string)
      modifies this`tools
      ensures tools == old(tools) + [t]
      ensures old(tools) == [] ==> GetToolProficienciesString() == t
      ensures old(tools) != [] ==> GetToolProficienciesString() == old(GetToolProficienciesString()) + Separator + t
    {
      if tools != [] {
        JoinAppend(tools, t, Separator);
      }
      tools := tools + [t];
    }

    method AddLanguage(l: Language)
      modifies this`languages
      ensures languages == old(languages) + [l]
    {
      languages := languages + [l];
    }
  }

  /** Two armor classes added to fresh proficiencies read back as "Light, Medium". */
  method ArmorStringExample() returns (p: Proficiencies)
    ensures p.armor == ["Light", "Medium"]
    ensures p.GetArmorProficienciesString() == "Light, Medium"
    ensures p.weapons == [] && p.tools == [] && p.languages == []
  {
    p := new Proficiencies();
    p.AddArmorProficiency("Light");
    p.AddArmorProficiency("Medium");
  }
}
