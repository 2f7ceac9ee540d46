// Physical and social characteristics of a character in the current crate:
// a by-value builder with one optional cell per characteristic, and the
// conversion into a finished record that reports every missing required
// characteristic at once. Gender and faith are optional throughout.
module ModelsCharacteristics {
  import opened Common
  import opened ModelsCharacter
  import opened ModelsRace

  /** `units::Duration`; the counts are `usize` in the source. */
  datatype Duration = Instantaneous | Rounds(rounds: nat) | Minutes(minutes: nat) | Hours(hours: nat)

  /** A length; the source's `units::Distance` is not part of this model, so it is a plain count. */
  type Distance = nat

  /** A mass; the source's `units::Weight` is not part of this model, so it is a plain count. */
  type Weight = nat

  datatype Characteristics = Characteristics(
    alignment: Alignment,
    gender: Option<Gender>,
    size: Size,
    eyeColor: string,
    height: seq<Distance>,
    faith: Option<string>,
    hairColor: string,
    skinTone: string,
    age: Duration,
    weight: Weight)

  /** The characteristics builder; every setter takes the builder by value and returns it. */
  datatype Builder = Builder(
    alignment: Option<Alignment>,
    gender: Option<Gender>,
    size: Option<Size>,
    eyeColor: Option<string>,
    height: Option<seq<Distance>>,
    faith: Option<string>,
    hairColor: Option<string>,
    skinTone: Option<string>,
    age: Option<Duration>,
    weight: Option<Weight>)
  {
    function WithAlignment(a: Alignment): Builder
    {
      this.(alignment := Some(a))
    }

    function WithGender(g: Gender): Builder
    {
      this.(gender := Some(g))
    }

    function WithSize(s: Size): Builder
    {
      this.(size := Some(s))
    }

    function EyeColor(c: string): Builder
    {
      this.(eyeColor := Some(c))
    }

    function Height(h: seq<Distance>): Builder
    {
      this.(height := Some(h))
    }

    function Faith(f: string): Builder
    {
      this.(faith := Some(f))
    }

    function HairColor(c: string): Builder
    {
      this.(hairColor := Some(c))
    }

    function SkinTone(t: string): Builder
    {
      this.(skinTone := Some(t))
    }

    function Age(a: Duration): Builder
    {
      this.(age := Some(a))
    }

    function WithWeight(w: Weight): Builder
    {
      this.(weight := Some(w))
    }
  }

  /** `Builder::new()`: nothing set. */
  function NewBuilder(): (b: Builder)
    ensures b.alignment.None? && b.gender.None? && b.size.None? && b.eyeColor.None? && b.height.None?
    ensures b.faith.None? && b.hairColor.None? && b.skinTone.None? && b.age.None? && b.weight.None?
  {
    Builder(None, None, None, None, None, None, None, None, None, None)
  }

  /** A second call of a setter replaces what the first call stored. */
  lemma SettersOverwrite(b: Builder)
    ensures forall x, y :: b.WithAlignment(x).WithAlignment(y) == b.WithAlignment(y)
    ensures forall x, y :: b.WithGender(x).WithGender(y) == b.WithGender(y)
    ensures forall x, y :: b.WithSize(x).WithSize(y) == b.WithSize(y)
    ensures forall x, y :: b.EyeColor(x).EyeColor(y) == b.EyeColor(y)
    ensures forall x, y :: b.Height(x).Height(y) == b.Height(y)
    ensures forall x, y :: b.Faith(x).Faith(y) == b.Faith(y)
    ensures forall x, y :: b.HairColor(x).HairColor(y) == b.HairColor(y)
    ensures forall x, y :: b.SkinTone(x).SkinTone(y) == b.SkinTone(y)
    ensures forall x, y :: b.Age(x).Age(y) == b.Age(y)
    ensures forall x, y :: b.WithWeight(x).WithWeight(y) == b.WithWeight(y)
  {
  }

  datatype BuildError = MissingFields(fields: seq<string>)

  /** The required characteristics, in the order they are checked; gender and faith are not among them. */
  const RequiredFields: seq<string> :=
    ["alignment", "size", "eye_color", "height", "hair_color", "skin_tone", "age", "weight"]

  /** For each required characteristic, in the order of `RequiredFields`, whether the builder lacks it. */
  function Absent(b: Builder): (r: seq<bool>)
    ensures |r| == |RequiredFields|
  {
    [b.alignment.None?, b.size.None?, b.eyeColor.None?, b.height.None?,
     b.hairColor.None?, b.skinTone.None?, b.age.None?, b.weight.None?]
  }

  /** The builder holds every required characteristic. */
  predicate Complete(b: Builder)
  {
    b.alignment.Some? && b.size.Some? && b.eyeColor.Some? && b.height.Some? &&
    b.hairColor.Some? && b.skinTone.Some? && b.age.Some? && b.weight.Some?
  }

  /** The names among the first `n` whose flag is set, in order. */
  function Selected(names: seq<string>, flags: seq<bool>, n: nat): seq<string>
    requires n <= |names| == |flags|
  {
    if n == 0 then [] else Selected(names, flags, n - 1) + (if flags[n - 1] then [names[n - 1]] else [])
  }

  /** The required characteristics the builder lacks, in the order they are checked. */
  function MissingFieldsOf(b: Builder): seq<string>
  {
    Selected(RequiredFields, Absent(b), |RequiredFields|)
  }

  /** A name is selected exactly when one of the first `n` positions holding it is flagged. */
  lemma {:induction false} SelectedMember(names: seq<string>, flags: seq<bool>, n: nat, x: string)
    requires n <= |names| == |flags|
    ensures x in Selected(names, flags, n) <==> exists i :: 0 <= i < n && flags[i] && names[i] == x
  {
    if n > 0 {
      SelectedMember(names, flags, n - 1, x);
      if flags[n - 1] && names[n - 1] == x {
        assert x in Selected(names, flags, n);
      }
    }
  }

  /** With distinct names, selected entries are distinct too. */
  lemma {:induction false} SelectedDistinct(names: seq<string>, flags: seq<bool>, n: nat)
    requires n <= |names| == |flags|
    requires forall i, j :: 0 <= i < j < |names| ==> names[i] != names[j]
    ensures forall i, j :: 0 <= i < j < |Selected(names, flags, n)| ==>
              Selected(names, flags, n)[i] != Selected(names, flags, n)[j]
  {
    if n > 0 {
      SelectedDistinct(names, flags, n - 1);
      if flags[n - 1] {
        SelectedMember(names, flags, n - 1, names[n - 1]);
      }
    }
  }

  lemma RequiredFieldsDistinct()
    ensures forall i, j :: 0 <= i < j < |RequiredFields| ==> RequiredFields[i] != RequiredFields[j]
  {
  }

  /** Each required characteristic is reported exactly when it is absent. */
  lemma MissingFieldsMember(b: Builder)
    ensures forall i :: 0 <= i < |RequiredFields| ==> (RequiredFields[i] in MissingFieldsOf(b) <==> Absent(b)[i])
  {
    RequiredFieldsDistinct();
    forall i | 0 <= i < |RequiredFields|
      ensures RequiredFields[i] in MissingFieldsOf(b) <==> Absent(b)[i]
    {
      SelectedMember(RequiredFields, Absent(b), |RequiredFields|, RequiredFields[i]);
    }
  }

  /** Only required characteristics are reported, so never gender or faith. */
  lemma MissingFieldsRequired(b: Builder)
    ensures forall x :: x in MissingFieldsOf(b) ==> x in RequiredFields
  {
    forall x | x in MissingFieldsOf(b)
      ensures x in RequiredFields
    {
      SelectedMember(RequiredFields, Absent(b), |RequiredFields|, x);
    }
  }

  /** Nothing is reported exactly when the builder is complete. */
  lemma MissingFieldsEmpty(b: Builder)
    ensures MissingFieldsOf(b) == [] <==> Complete(b)
  {
    if !Complete(b) {
      var i := if b.alignment.None? then 0 else if b.size.None? then 1 else if b.eyeColor.None? then 2
        else if b.height.None? then 3 else if b.hairColor.None? then 4 else if b.skinTone.None? then 5
        else if b.age.None? then 6 else 7;
      assert Absent(b)[i];
      SelectedMember(RequiredFields, Absent(b), |RequiredFields|, RequiredFields[i]);
    } else if MissingFieldsOf(b) != [] {
      SelectedMember(RequiredFields, Absent(b), |RequiredFields|, MissingFieldsOf(b)[0]);
    }
  }

  /**
   * The report is exact: each required characteristic appears exactly when
   * it is absent, nothing else appears, nothing appears twice, and the
   * report is empty exactly when the builder is complete.
   */
  lemma MissingFieldsExact(b: Builder)
    ensures forall i :: 0 <= i < |RequiredFields| ==> (RequiredFields[i] in MissingFieldsOf(b) <==> Absent(b)[i])
    ensures forall x :: x in MissingFieldsOf(b) ==> x in RequiredFields
    ensures forall i, j :: 0 <= i < j < |MissingFieldsOf(b)| ==> MissingFieldsOf(b)[i] != MissingFieldsOf(b)[j]
    ensures MissingFieldsOf(b) == [] <==> Complete(b)
  {
    MissingFieldsMember(b);
    MissingFieldsRequired(b);
    RequiredFieldsDistinct();
    SelectedDistinct(RequiredFields, Absent(b), |RequiredFields|);
    MissingFieldsEmpty(b);
  }

  /** The report on a builder that lacks nothing required. */
  lemma CompleteReportsNothing(b: Builder)
    requires Complete(b)
    ensures MissingFieldsOf(b) == []
  {
    MissingFieldsExact(b);
  }

  /** The missing-field list as the source holds it: absent until the first push. */
  function Reported(fields: seq<string>): Option<seq<string>>
  {
    if fields == [] then None else Some(fields)
  }

  /** The entry a check contributes: the name when the characteristic is absent, nothing otherwise. */
  function Entry(absent: bool, name: string): seq<string>
  {
    if absent then [name] else []
  }

  /** The first four checks spelled out. */
  lemma FirstFourInOrder(b: Builder)
    ensures Selected(RequiredFields, Absent(b), 4) ==
      [] + Entry(b.alignment.None?, "alignment") + Entry(b.size.None?, "size") +
      Entry(b.eyeColor.None?, "eye_color") + Entry(b.height.None?, "height")
  {
    var absent := Absent(b);
    assert Selected(RequiredFields, absent, 1) == Selected(RequiredFields, absent, 0) + Entry(b.alignment.None?, "alignment");
    assert Selected(RequiredFields, absent, 2) == Selected(RequiredFields, absent, 1) + Entry(b.size.None?, "size");
    assert Selected(RequiredFields, absent, 3) == Selected(RequiredFields, absent, 2) + Entry(b.eyeColor.None?, "eye_color");
    assert Selected(RequiredFields, absent, 4) == Selected(RequiredFields, absent, 3) + Entry(b.height.None?, "height");
  }

  /** The report spelled out: one optional entry per required characteristic, in checking order. */
  lemma MissingFieldsInOrder(b: Builder)
    ensures MissingFieldsOf(b) ==
      [] + Entry(b.alignment.None?, "alignment") + Entry(b.size.None?, "size") +
      Entry(b.eyeColor.None?, "eye_color") + Entry(b.height.None?, "height") +
      Entry(b.hairColor.None?, "hair_color") + Entry(b.skinTone.None?, "skin_tone") +
      Entry(b.age.None?, "age") + Entry(b.weight.None?, "weight")
  {
    var absent := Absent(b);
    FirstFourInOrder(b);
    assert Selected(RequiredFields, absent, 5) == Selected(RequiredFields, absent, 4) + Entry(b.hairColor.None?, "hair_color");
    assert Selected(RequiredFields, absent, 6) == Selected(RequiredFields, absent, 5) + Entry(b.skinTone.None?, "skin_tone");
    assert Selected(RequiredFields, absent, 7) == Selected(RequiredFields, absent, 6) + Entry(b.age.None?, "age");
    assert Selected(RequiredFields, absent, 8) == Selected(RequiredFields, absent, 7) + Entry(b.weight.None?, "weight");
  }

  /**
   * `if absent { missing.get_or_insert(vec![]).push(name) }`: the list is
   * created by the first push, and a push extends the report by that name.
   */
  function PushIfAbsent(missing: Option<seq<string>>, ghost fields: seq<string>, absent: bool, name: string): (r: Option<seq<string>>)
    requires missing == Reported(fields)
    ensures r == Reported(fields + Entry(absent, name))
  {
    assert fields + [] == fields;
    if absent then Some(missing.GetOr([]) + [name]) else missing
  }

  /**
   * The first half of `TryFrom<Builder>`: each absent required
   * characteristic is pushed onto a list that is created on first use.
   */
  method CollectMissing(b: Builder) returns (missing: Option<seq<string>>)
    ensures missing == Reported(MissingFieldsOf(b))
  {
    missing := None;
    ghost var reported: seq<string> := [];
    missing := PushIfAbsent(missing, reported, b.alignment.None?, "alignment");
    reported := reported + Entry(b.alignment.None?, "alignment");
    missing := PushIfAbsent(missing, reported, b.size.None?, "size");
    reported := reported + Entry(b.size.None?, "size");
    missing := PushIfAbsent(missing, reported, b.eyeColor.None?, "eye_color");
    reported := reported + Entry(b.eyeColor.None?, "eye_color");
    missing := PushIfAbsent(missing, reported, b.height.None?, "height");
    reported := reported + Entry(b.height.None?, "height");
    missing := PushIfAbsent(missing, reported, b.hairColor.None?, "hair_color");
    reported := reported + Entry(b.hairColor.None?, "hair_color");
    missing := PushIfAbsent(missing, reported, b.skinTone.None?, "skin_tone");
    reported := reported + Entry(b.skinTone.None?, "skin_tone");
    missing := PushIfAbsent(missing, reported, b.age.None?, "age");
    reported := reported + Entry(b.age.None?, "age");
    missing := PushIfAbsent(missing, reported, b.weight.None?, "weight");
    reported := reported + Entry(b.weight.None?, "weight");
    MissingFieldsInOrder(b);
  }

  /**
   * `TryFrom<Builder>`: a missing-field list that exists is the error;
   * otherwise the required values are unwrapped and gender and faith are
   * passed through as they are.
   */
  method TryFrom(b: Builder) returns (r: Result<Characteristics, BuildError>)
    ensures r.Err? <==> !Complete(b)
    ensures r.Err? ==> r.error == MissingFields(MissingFieldsOf(b)) && r.error.fields != []
    ensures r.Ok? ==> (Complete(b) &&
      r.value == Characteristics(b.alignment.value, b.gender, b.size.value, b.eyeColor.value,
                                 b.height.value, b.faith, b.hairColor.value, b.skinTone.value,
                                 b.age.value, b.weight.value))
  {
    var missing := CollectMissing(b);
    MissingFieldsEmpty(b);
    if missing.Some? {
      return Err(MissingFields(missing.value));
    }
    r := Ok(Characteristics(b.alignment.value, b.gender, b.size.value, b.eyeColor.value,
                            b.height.value, b.faith, b.hairColor.value, b.skinTone.value,
                            b.age.value, b.weight.value));
  }

  /**
   * Setting a required characteristic removes it from the report and leaves
   * the report on every other characteristic as it was; the optional ones
   * never change the report.
   */
  lemma SetterFillsItsField(b: Builder, s: Size, g: Gender, f: string)
    ensures "size" !in MissingFieldsOf(b.WithSize(s))
    ensures forall i :: 0 <= i < |RequiredFields| && i != 1 ==>
              (RequiredFields[i] in MissingFieldsOf(b.WithSize(s)) <==> RequiredFields[i] in MissingFieldsOf(b))
    ensures MissingFieldsOf(b.WithGender(g)) == MissingFieldsOf(b)
    ensures MissingFieldsOf(b.Faith(f)) == MissingFieldsOf(b)
  {
    MissingFieldsExact(b);
    MissingFieldsExact(b.WithSize(s));
    assert Absent(b.WithGender(g)) == Absent(b) && Absent(b.Faith(f)) == Absent(b);
    assert RequiredFields[1] == "size";
  }

  /** An empty builder reports every required characteristic, in checking order. */
  method EmptyBuilderExample() returns (r: Result<Characteristics, BuildError>)
    ensures r == Err(MissingFields(RequiredFields))
  {
    MissingFieldsInOrder(NewBuilder());
    assert [] + ["alignment"] + ["size"] + ["eye_color"] + ["height"] + ["hair_color"] + ["skin_tone"] + ["age"] + ["weight"]
        == RequiredFields;
    r := TryFrom(NewBuilder());
  }

  /** A builder given everything but gender and faith succeeds and leaves those two unset. */
  method AllRequiredExample() returns (r: Result<Characteristics, BuildError>)
    ensures r == Ok(Characteristics(Alignment(Lawful, Good), None, Size.Medium, "green", [5, 11],
                                    None, "brown", "fair", Duration.Hours(24), 150))
  {
    var b := NewBuilder()
      .WithAlignment(Alignment(Lawful, Good))
      .WithSize(Size.Medium)
      .EyeColor("green")
      .Height([5, 11])
      .HairColor("brown")
      .SkinTone("fair")
      .Age(Duration.Hours(24))
      .WithWeight(150);
    r := TryFrom(b);
  }
}
