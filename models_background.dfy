// Backgrounds of the current crate: a feature, one of three proficiency
// packages, and a builder whose conversion reports every missing field at
// once.
module ModelsBackground {
  import opened Common
  import opened ModelsSkill

  datatype Feature = Feature(name: string, description: string)

  /** `Feature::new`. */
  function NewFeature(name: string, description: string): (f: Feature)
    ensures f.name == name && f.description == description
  {
    Feature(name, description)
  }

  /** The three proficiency packages a background can grant. */
  datatype Proficiencies =
    | TwoSkillsTwoTools(skills: seq<Skill>, tools: seq<string>)
    | TwoSkillsTwoLanguages(skills: seq<Skill>, languages: seq<string>)
    | TwoSkillsOneLanguageOneTool(skills: seq<Skill>, language: string, tool: string)

  function TwoSkillsTwoToolsOf(s1: Skill, s2: Skill, t1: string, t2: string): (p: Proficiencies)
    ensures p.TwoSkillsTwoTools? && p.skills == [s1, s2] && p.tools == [t1, t2]
  {
    TwoSkillsTwoTools([s1, s2], [t1, t2])
  }

  function TwoSkillsTwoLanguagesOf(s1: Skill, s2: Skill, l1: string, l2: string): (p: Proficiencies)
    ensures p.TwoSkillsTwoLanguages? && p.skills == [s1, s2] && p.languages == [l1, l2]
  {
    TwoSkillsTwoLanguages([s1, s2], [l1, l2])
  }

  /** The tool comes before the language in the argument list, but each lands in its own field. */
  function TwoSkillsOneToolOneLanguageOf(s1: Skill, s2: Skill, tool: string, language: string): (p: Proficiencies)
    ensures p.TwoSkillsOneLanguageOneTool? && p.skills == [s1, s2]
    ensures p.tool == tool && p.language == language
  {
    TwoSkillsOneLanguageOneTool([s1, s2], language, tool)
  }

  /** Every package grants exactly two skills. */
  lemma PackagesGrantTwoSkills(s1: Skill, s2: Skill, a: string, b: string)
    ensures |TwoSkillsTwoToolsOf(s1, s2, a, b).skills| == 2
    ensures |TwoSkillsTwoLanguagesOf(s1, s2, a, b).skills| == 2
    ensures |TwoSkillsOneToolOneLanguageOf(s1, s2, a, b).skills| == 2
  {
  }

  datatype Background = Background(name: string, description: string, feature: Feature, proficiencies: Proficiencies)

  datatype BuildError = MissingField(fields: seq<string>)

  /** The background builder; each setter takes the builder by value and returns it. */
  datatype Builder = Builder(name: Option<string>, description: Option<string>,
                             feature: Option<Feature>, proficiencies: Option<Proficiencies>)
  {
    function Name(n: string): (r: Builder)
      ensures r == this.(name := Some(n))
    {
      this.(name := Some(n))
    }

    function Description(d: string): (r: Builder)
      ensures r == this.(description := Some(d))
    {
      this.(description := Some(d))
    }

    function WithFeature(f: Feature): (r: Builder)
      ensures r == this.(feature := Some(f))
    {
      this.(feature := Some(f))
    }

    function WithProficiencies(p: Proficiencies): (r: Builder)
      ensures r == this.(proficiencies := Some(p))
    {
      this.(proficiencies := Some(p))
    }
  }

  function NewBuilder(): (b: Builder)
    ensures b.name.None? && b.description.None? && b.feature.None? && b.proficiencies.None?
  {
    Builder(None, None, None, None)
  }

  /** The fields the builder lacks, in the order they are checked. */
  function MissingFields(b: Builder): seq<string>
  {
    (if b.name.None? then ["name"] else []) +
    (if b.description.None? then ["description"] else []) +
    (if b.feature.None? then ["feature"] else []) +
    (if b.proficiencies.None? then ["proficiencies"] else [])
  }

  /**
   * A field is reported exactly when it is absent, each at most once, and
   * nothing is reported exactly when the builder is complete.
   */
  lemma MissingFieldsExact(b: Builder)
    ensures "name" in MissingFields(b) <==> b.name.None?
    ensures "description" in MissingFields(b) <==> b.description.None?
    ensures "feature" in MissingFields(b) <==> b.feature.None?
    ensures "proficiencies" in MissingFields(b) <==> b.proficiencies.None?
    ensures forall i, j :: 0 <= i < j < |MissingFields(b)| ==> MissingFields(b)[i] != MissingFields(b)[j]
    ensures MissingFields(b) == [] <==>
              b.name.Some? && b.description.Some? && b.feature.Some? && b.proficiencies.Some?
  {
    var n: seq<string> := if b.name.None? then ["name"] else [];
    var d: seq<string> := if b.description.None? then ["description"] else [];
    var f: seq<string> := if b.feature.None? then ["feature"] else [];
    var p: seq<string> := if b.proficiencies.None? then ["proficiencies"] else [];
    assert MissingFields(b) == n + d + f + p;
    assert "description" != "name" && "feature" != "name" && "proficiencies" != "name";
    assert "feature" != "description" && "proficiencies" != "description" && "proficiencies" != "feature";
  }

  /**
   * `TryInto<Background>`: each absent field is pushed onto a list that is
   * created on first use; a list that exists is the error, otherwise the
   * four fields are unwrapped.
   */
  method TryInto(b: Builder) returns (r: Result<Background, BuildError>)
    ensures r.Err? <==> MissingFields(b) != []
    ensures r.Err? ==> r.error == MissingField(MissingFields(b))
    ensures r.Ok? ==> b.name.Some? && b.description.Some? && b.feature.Some? && b.proficiencies.Some? &&
                      r.value == Background(b.name.value, b.description.value, b.feature.value, b.proficiencies.value)
  {
    var missing: Option<seq<string>> := None;
    if b.name.None? {
      missing := Some(missing.GetOr([]) + ["name"]);
    }
    if b.description.None? {
      missing := Some(missing.GetOr([]) + ["description"]);
    }
    if b.feature.None? {
      missing := Some(missing.GetOr([]) + ["feature"]);
    }
    if b.proficiencies.None? {
      missing := Some(missing.GetOr([]) + ["proficiencies"]);
    }
    assert missing.GetOr([]) == MissingFields(b);
    if missing.Some? {
      return Err(MissingField(missing.value));
    }
    MissingFieldsExact(b);
    r := Ok(Background(b.name.value, b.description.value, b.feature.value, b.proficiencies.value));
  }

  /** The builder test: all four fields given, the background holds exactly them. */
  method BuildAllFieldsExample() returns (r: Result<Background, BuildError>)
    ensures r == Ok(Background("Test Background", "This is a Background used for testing",
                               Feature("Test Feature", "This is a Feature used for testing."),
                               TwoSkillsTwoTools([Acrobatics, AnimalHandling], ["Land Vehicles", "Smith Tools"])))
  {
    var b := NewBuilder()
      .Name("Test Background")
      .Description("This is a Background used for testing")
      .WithFeature(NewFeature("Test Feature", "This is a Feature used for testing."))
      .WithProficiencies(TwoSkillsTwoToolsOf(Acrobatics, AnimalHandling, "Land Vehicles", "Smith Tools"));
    r := TryInto(b);
  }

  /** An empty builder lists all four fields; one with only a name lists the other three. */
  method MissingFieldsExample() returns (none: Result<Background, BuildError>, named: Result<Background, BuildError>)
    ensures none == Err(MissingField(["name", "description", "feature", "proficiencies"]))
    ensures named == Err(MissingField(["description", "feature", "proficiencies"]))
  {
    assert MissingFields(NewBuilder()) == ["name"] + ["description"] + ["feature"] + ["proficiencies"];
    assert ["name"] + ["description"] + ["feature"] + ["proficiencies"] == ["name", "description", "feature", "proficiencies"];
    none := TryInto(NewBuilder());
    assert MissingFields(NewBuilder().Name("Sage")) == [] + ["description"] + ["feature"] + ["proficiencies"];
    assert [] + ["description"] + ["feature"] + ["proficiencies"] == ["description", "feature", "proficiencies"];
    named := TryInto(NewBuilder().Name("Sage"));
  }
}
