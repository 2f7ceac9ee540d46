// Psionics of the current crate: talents, and disciplines assembled by a
// by-value builder that reports the first missing field.
module ModelsPsionics {
  import opened Common

  datatype Talent = Talent(name: string, description: string)

  /** `Talent::new`: name and description as given. */
  function NewTalent(name: string, description: string): (t: Talent)
    ensures t.name == name && t.description == description
  {
    Talent(name, description)
  }

  /** An act of a discipline; `cost` is the half-open range `costStart..costEnd`. */
  datatype Act = Act(name: string, description: string, costStart: nat, costEnd: nat)

  datatype Discipline = Discipline(name: string, order: string, description: string, focus: string, acts: seq<Act>)

  datatype BuildError = MissingField(field: string)

  /** The discipline builder; each setter takes the builder by value and returns it. */
  datatype Builder = Builder(name: Option<string>, order: Option<string>, description: Option<string>,
                             focus: Option<string>, acts: seq<Act>)
  {
    function Name(n: string): (r: Builder)
      ensures r == this.(name := Some(n))
    {
      this.(name := Some(n))
    }

    function Order(o: string): (r: Builder)
      ensures r == this.(order := Some(o))
    {
      this.(order := Some(o))
    }

    function Description(d: string): (r: Builder)
      ensures r == this.(description := Some(d))
    {
      this.(description := Some(d))
    }

    function Focus(f: string): (r: Builder)
      ensures r == this.(focus := Some(f))
    {
      this.(focus := Some(f))
    }

    /** Acts are kept in the order they are added. */
    function AddAct(a: Act): (r: Builder)
      ensures r.acts == acts + [a]
      ensures r.name == name && r.order == order && r.description == description && r.focus == focus
    {
      this.(acts := acts + [a])
    }
  }

  function NewBuilder(): (b: Builder)
    ensures b.name.None? && b.order.None? && b.description.None? && b.focus.None? && b.acts == []
  {
    Builder(None, None, None, None, [])
  }

  /** The required fields in the order they are checked. */
  const DisciplineFields: seq<string> := ["name", "order", "description", "focus"]

  /** Whether the builder holds the named required field. */
  predicate HasField(b: Builder, field: string)
  {
    match field
    case "name" => b.name.Some?
    case "order" => b.order.Some?
    case "description" => b.description.Some?
    case "focus" => b.focus.Some?
    case _ => true
  }

  /**
   * `TryFrom<Builder>`: a chain of `ok_or_else`, so the error names only
   * the first missing field; the acts (possibly none) are carried over.
   */
  function DisciplineFrom(b: Builder): (r: Result<Discipline, BuildError>)
    ensures r.Ok? <==> forall i :: 0 <= i < |DisciplineFields| ==> HasField(b, DisciplineFields[i])
    ensures r.Err? ==>
              exists k :: 0 <= k < |DisciplineFields| &&
                          r.error == MissingField(DisciplineFields[k]) && !HasField(b, DisciplineFields[k]) &&
                          forall i :: 0 <= i < k ==> HasField(b, DisciplineFields[i])
    ensures r.Ok? ==>
              b.name.Some? && b.order.Some? && b.description.Some? && b.focus.Some? &&
              r.value == Discipline(b.name.value, b.order.value, b.description.value, b.focus.value, b.acts)
  {
    if b.name.None? then
      assert !HasField(b, DisciplineFields[0]);
      Err(MissingField("name"))
    else if b.order.None? then
      assert HasField(b, DisciplineFields[0]) && !HasField(b, DisciplineFields[1]);
      Err(MissingField("order"))
    else if b.description.None? then
      assert HasField(b, DisciplineFields[0]) && HasField(b, DisciplineFields[1]);
      assert !HasField(b, DisciplineFields[2]);
      Err(MissingField("description"))
    else if b.focus.None? then
      assert HasField(b, DisciplineFields[0]) && HasField(b, DisciplineFields[1]) && HasField(b, DisciplineFields[2]);
      assert !HasField(b, DisciplineFields[3]);
      Err(MissingField("focus"))
    else
      assert forall i :: 0 <= i < |DisciplineFields| ==> HasField(b, DisciplineFields[i]);
      Ok(Discipline(b.name.value, b.order.value, b.description.value, b.focus.value, b.acts))
  }

  /** A builder given all four fields, with or without acts, builds; the acts keep their order. */
  lemma DisciplineRoundTrip(n: string, o: string, d: string, f: string, a1: Act, a2: Act)
    ensures DisciplineFrom(NewBuilder().Name(n).Order(o).Description(d).Focus(f))
         == Ok(Discipline(n, o, d, f, []))
    ensures DisciplineFrom(NewBuilder().Name(n).AddAct(a1).Order(o).Description(d).AddAct(a2).Focus(f))
         == Ok(Discipline(n, o, d, f, [a1, a2]))
    ensures DisciplineFrom(NewBuilder().Order(o).Focus(f)) == Err(MissingField("name"))
  {
    assert [] + [a1] + [a2] == [a1, a2];
  }
}
