// Ability scores of the current crate: the six identifiers, a single score
// with its modifier, and a table of scores keyed by identifier that is built
// from a template and merged pointwise with another table (base scores plus
// racial bonuses).
module ModelsAbility {
  import opened Common

  datatype Identifier = Strength | Dexterity | Constitution | Intelligence | Wisdom | Charisma

  /** `Identifier::all`: every identifier once, in declaration order. */
  function AllIdentifiers(): (r: seq<Identifier>)
    ensures |r| == 6
    ensures forall i, j :: 0 <= i < j < |r| ==> r[i] != r[j]
  {
    [Strength, Dexterity, Constitution, Intelligence, Wisdom, Charisma]
  }

  lemma AllIdentifiersComplete(id: Identifier)
    ensures id in AllIdentifiers()
  {
    match id
    case Strength =>
    case Dexterity =>
    case Constitution =>
    case Intelligence =>
    case Wisdom =>
    case Charisma =>
  }

  /** A score; `usize` in the source, so never negative. */
  datatype Ability = Ability(score: nat) {

    /**
     * `score / 2 - 5`. Scores are non-negative, so Rust's truncating
     * division and Dafny's Euclidean division agree: the modifier is the
     * unique m with 2(m + 5) <= score < 2(m + 5) + 2.
     */
    function Modifier(): (m: int)
      ensures 2 * (m + 5) <= score < 2 * (m + 5) + 2
      ensures m >= -5
    {
      score / 2 - 5
    }

    /** `Ability + Ability`; `+=` is the assignment `a := a.Add(b)`. */
    function Add(rhs: Ability): (r: Ability)
      ensures r.score == score + rhs.score
      ensures r.score >= score && r.score >= rhs.score
    {
      Ability(score + rhs.score)
    }
  }

  /** The modifier table asserted by the unit tests. */
  lemma ModifierExamples()
    ensures Ability(10).Modifier() == 0
    ensures Ability(9).Modifier() == -1 && Ability(7).Modifier() == -2
    ensures Ability(5).Modifier() == -3 && Ability(3).Modifier() == -4
    ensures Ability(1).Modifier() == -5
    ensures Ability(12).Modifier() == 1 && Ability(14).Modifier() == 2
    ensures Ability(16).Modifier() == 3 && Ability(18).Modifier() == 4
    ensures Ability(20).Modifier() == 5
  {
  }

  datatype AbilitiesTemplate = AbilitiesTemplate(
    strength: nat, dexterity: nat, constitution: nat,
    intelligence: nat, wisdom: nat, charisma: nat)

  /** The template's value for one identifier. */
  function TemplateScore(t: AbilitiesTemplate, id: Identifier): nat
  {
    match id
    case Strength => t.strength
    case Dexterity => t.dexterity
    case Constitution => t.constitution
    case Intelligence => t.intelligence
    case Wisdom => t.wisdom
    case Charisma => t.charisma
  }

  /** A score table; identifiers missing from the map have no score. */
  datatype Abilities = Abilities(scores: map<Identifier, Ability>) {

    /** `set_score`: the table is a value, so the update returns the new table. */
    function SetScore(id: Identifier, score: nat): (r: Abilities)
      ensures r.GetScore(id) == Some(score)
      ensures forall other :: other != id ==> r.GetScore(other) == GetScore(other)
      ensures r.CountAbilities() == (if id in scores then CountAbilities() else CountAbilities() + 1)
    {
      Abilities(scores[id := Ability(score)])
    }

    function GetScore(id: Identifier): (r: Option<nat>)
      ensures r.Some? <==> id in scores
      ensures r.Some? ==> r.value == scores[id].score
    {
      if id in scores then Some(scores[id].score) else None
    }

    function GetModifier(id: Identifier): (r: Option<int>)
      ensures r.Some? <==> GetScore(id).Some?
      ensures r.Some? ==> r.value == Ability(GetScore(id).value).Modifier() && r.value >= -5
    {
      if id in scores then Some(scores[id].Modifier()) else None
    }

    function CountAbilities(): nat
    {
      |scores|
    }
  }

  /** `Abilities::default()`: no scores at all. */
  function EmptyAbilities(): (r: Abilities)
    ensures forall id :: r.GetScore(id) == None
    ensures r.CountAbilities() == 0
  {
    Abilities(map[])
  }

  /** `From<AbilitiesTemplate>`: every identifier gets its template value. */
  function FromTemplate(t: AbilitiesTemplate): (r: Abilities)
    ensures forall id :: r.GetScore(id) == Some(TemplateScore(t, id))
    ensures r.CountAbilities() == 6
  {
    var r := Abilities(map[
      Strength := Ability(t.strength), Dexterity := Ability(t.dexterity),
      Constitution := Ability(t.constitution), Intelligence := Ability(t.intelligence),
      Wisdom := Ability(t.wisdom), Charisma := Ability(t.charisma)]);
    assert r.scores.Keys == {Strength, Dexterity, Constitution, Intelligence, Wisdom, Charisma};
    r
  }

  /**
   * The pointwise merge rule: the sum where both sides have a score, the
   * one score where only one side has it, and nothing otherwise.
   */
  function MergeScore(x: Option<nat>, y: Option<nat>): Option<nat>
  {
    match (x, y)
    case (Some(a), Some(b)) => Some(a + b)
    case (Some(a), None) => Some(a)
    case (None, Some(b)) => Some(b)
    case (None, None) => None
  }

  /** Two tables with the same score for every identifier are equal. */
  lemma SameScoresSameTable(a: Abilities, b: Abilities)
    requires forall id :: a.GetScore(id) == b.GetScore(id)
    ensures a == b
  {
    forall id | id in a.scores
      ensures id in b.scores && a.scores[id] == b.scores[id]
    {
      assert a.GetScore(id) == b.GetScore(id);
    }
    assert a.scores.Keys == b.scores.Keys by {
      forall id | id in b.scores ensures id in a.scores {
        assert a.GetScore(id) == b.GetScore(id);
      }
    }
  }

  /** `Abilities + Abilities` as a value: the pointwise merge of two tables. */
  function Merge(lhs: Abilities, rhs: Abilities): (r: Abilities)
    ensures forall id :: r.GetScore(id) == MergeScore(lhs.GetScore(id), rhs.GetScore(id))
  {
    Abilities(map id | id in lhs.scores.Keys + rhs.scores.Keys ::
      if id in lhs.scores && id in rhs.scores then lhs.scores[id].Add(rhs.scores[id])
      else if id in lhs.scores then lhs.scores[id]
      else rhs.scores[id])
  }

  lemma MergeCommutative(a: Abilities, b: Abilities)
    ensures Merge(a, b) == Merge(b, a)
  {
    SameScoresSameTable(Merge(a, b), Merge(b, a));
  }

  lemma MergeAssociative(a: Abilities, b: Abilities, c: Abilities)
    ensures Merge(Merge(a, b), c) == Merge(a, Merge(b, c))
  {
    SameScoresSameTable(Merge(Merge(a, b), c), Merge(a, Merge(b, c)));
  }

  /** The empty table is the identity of the merge. */
  lemma MergeEmpty(a: Abilities)
    ensures Merge(a, EmptyAbilities()) == a
    ensures Merge(EmptyAbilities(), a) == a
  {
    SameScoresSameTable(Merge(a, EmptyAbilities()), a);
    SameScoresSameTable(Merge(EmptyAbilities(), a), a);
  }

  /** One fold step: `acc.entry(id).and_modify(|f| *f += x).or_insert(x)`. */
  function Accumulate(acc: map<Identifier, Ability>, id: Identifier, x: Ability): (r: map<Identifier, Ability>)
    ensures r.Keys == acc.Keys + {id}
    ensures r[id] == (if id in acc then acc[id].Add(x) else x)
    ensures forall other :: other in acc && other != id ==> r[other] == acc[other]
  {
    if id in acc then acc[id := acc[id].Add(x)] else acc[id := x]
  }

  /** Folding one more entry of `rhs` extends the partial merge by that entry. */
  lemma AccumulateStep(lhs: Abilities, rhs: Abilities, done: set<Identifier>, id: Identifier)
    requires id in rhs.scores && id !in done
    ensures Abilities(Accumulate(Merge(lhs, Abilities(Restrict(rhs.scores, done))).scores, id, rhs.scores[id]))
         == Merge(lhs, Abilities(Restrict(rhs.scores, done + {id})))
  {
    var before := Abilities(Restrict(rhs.scores, done));
    var after := Abilities(Restrict(rhs.scores, done + {id}));
    var stepped := Abilities(Accumulate(Merge(lhs, before).scores, id, rhs.scores[id]));
    forall other
      ensures stepped.GetScore(other) == Merge(lhs, after).GetScore(other)
    {
      if other != id {
        assert after.GetScore(other) == before.GetScore(other);
      }
    }
    SameScoresSameTable(stepped, Merge(lhs, after));
  }

  /** Folds every entry of `entries` into the accumulator, in an unspecified order. */
  method FoldEntries(start: map<Identifier, Ability>, entries: Abilities) returns (acc: map<Identifier, Ability>)
    ensures Abilities(acc) == Merge(Abilities(start), entries)
  {
    acc := start;
    var pending := entries.scores.Keys;
    while pending != {}
      invariant pending <= entries.scores.Keys
      invariant Abilities(acc) == Merge(Abilities(start), Abilities(Restrict(entries.scores, entries.scores.Keys - pending)))
      decreases pending
    {
      var id :| id in pending;
      AccumulateStep(Abilities(start), entries, entries.scores.Keys - pending, id);
      assert entries.scores.Keys - pending + {id} == entries.scores.Keys - (pending - {id});
      acc := Accumulate(acc, id, entries.scores[id]);
      pending := pending - {id};
    }
    assert Restrict(entries.scores, entries.scores.Keys) == entries.scores;
  }

  /**
   * `Abilities + Abilities` as the source computes it: one fold over the
   * entries of the left table chained with those of the right one, into an
   * accumulator map that starts empty.
   */
  method Add(lhs: Abilities, rhs: Abilities) returns (sum: Abilities)
    ensures sum == Merge(lhs, rhs)
  {
    var acc := FoldEntries(map[], lhs);
    MergeEmpty(lhs);
    acc := FoldEntries(acc, rhs);
    sum := Abilities(acc);
  }
}
