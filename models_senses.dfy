// Senses of the current crate: the four special senses with their ranges,
// a by-value builder for them, and the passive scores derived from a skill
// modifier.
module ModelsSenses {
  import opened Common

  /** The ranges, in feet, of the senses a creature has. */
  datatype Senses = Senses(blindsight: Option<nat>, darkvision: Option<nat>, tremorsense: Option<nat>, truesight: Option<nat>)

  /** `Senses::default()`: no special sense. */
  function NoSenses(): (r: Senses)
    ensures r.blindsight.None? && r.darkvision.None? && r.tremorsense.None? && r.truesight.None?
  {
    Senses(None, None, None, None)
  }

  /** The senses builder; each setter takes the builder by value and records one range. */
  datatype Builder = Builder(blindsight: Option<nat>, darkvision: Option<nat>, tremorsense: Option<nat>, truesight: Option<nat>) {

    function Blindsight(distance: nat): (r: Builder)
      ensures r.blindsight == Some(distance)
      ensures r.darkvision == darkvision && r.tremorsense == tremorsense && r.truesight == truesight
    {
      this.(blindsight := Some(distance))
    }

    function Darkvision(distance: nat): (r: Builder)
      ensures r.darkvision == Some(distance)
      ensures r.blindsight == blindsight && r.tremorsense == tremorsense && r.truesight == truesight
    {
      this.(darkvision := Some(distance))
    }

    function Tremorsense(distance: nat): (r: Builder)
      ensures r.tremorsense == Some(distance)
      ensures r.blindsight == blindsight && r.darkvision == darkvision && r.truesight == truesight
    {
      this.(tremorsense := Some(distance))
    }

    function Truesight(distance: nat): (r: Builder)
      ensures r.truesight == Some(distance)
      ensures r.blindsight == blindsight && r.darkvision == darkvision && r.tremorsense == tremorsense
    {
      this.(truesight := Some(distance))
    }

    /** Copies the four ranges unchanged; building never fails. */
    function Build(): (r: Senses)
      ensures r.blindsight == blindsight && r.darkvision == darkvision
      ensures r.tremorsense == tremorsense && r.truesight == truesight
    {
      Senses(blindsight, darkvision, tremorsense, truesight)
    }
  }

  function NewBuilder(): (b: Builder)
    ensures b.Build() == NoSenses()
  {
    Builder(None, None, None, None)
  }

  /** Setting the four ranges in any order and building gives exactly those ranges. */
  lemma BuilderRoundTrip(b: nat, d: nat, tr: nat, ts: nat)
    ensures NewBuilder().Blindsight(b).Darkvision(d).Tremorsense(tr).Truesight(ts).Build()
         == Senses(Some(b), Some(d), Some(tr), Some(ts))
    ensures NewBuilder().Truesight(ts).Tremorsense(tr).Darkvision(d).Blindsight(b).Build()
         == Senses(Some(b), Some(d), Some(tr), Some(ts))
  {
  }

  /** A later setting of the same sense replaces the earlier one. */
  lemma SetterOverwrites(bl: Builder, first: nat, second: nat)
    ensures bl.Darkvision(first).Darkvision(second) == bl.Darkvision(second)
    ensures bl.Blindsight(first).Blindsight(second) == bl.Blindsight(second)
    ensures bl.Tremorsense(first).Tremorsense(second) == bl.Tremorsense(second)
    ensures bl.Truesight(first).Truesight(second) == bl.Truesight(second)
  {
  }

  /**
   * Passive perception, investigation and insight alike: 10 plus the skill
   * modifier. The source casts the sum to an unsigned size, so the modifier
   * must not fall below -10.
   */
  function PassiveScore(modifier: int): (r: nat)
    requires modifier >= -10
    ensures r == 10 + modifier
  {
    10 + modifier
  }

  /** Passive scores follow the modifier one for one. */
  lemma PassiveScoreMonotone(a: int, b: int)
    requires -10 <= a <= b
    ensures PassiveScore(a) <= PassiveScore(b)
    ensures PassiveScore(b) - PassiveScore(a) == b - a
    ensures PassiveScore(0) == 10
  {
  }
}
