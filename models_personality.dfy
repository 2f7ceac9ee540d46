// A character's personality: four lists of free-text entries, each grown by
// its own by-value adder.
module ModelsPersonality {

  datatype Personality = Personality(traits: seq<string>, ideals: seq<string>, bonds: seq<string>, flaws: seq<string>) {

    function AddTrait(t: string): (r: Personality)
      ensures r.traits == traits + [t]
      ensures r.ideals == ideals && r.bonds == bonds && r.flaws == flaws
    {
      this.(traits := traits + [t])
    }

    function AddIdeal(i: string): (r: Personality)
      ensures r.ideals == ideals + [i]
      ensures r.traits == traits && r.bonds == bonds && r.flaws == flaws
    {
      this.(ideals := ideals + [i])
    }

    function AddBond(b: string): (r: Personality)
      ensures r.bonds == bonds + [b]
      ensures r.traits == traits && r.ideals == ideals && r.flaws == flaws
    {
      this.(bonds := bonds + [b])
    }

    function AddFlaw(f: string): (r: Personality)
      ensures r.flaws == flaws + [f]
      ensures r.traits == traits && r.ideals == ideals && r.bonds == bonds
    {
      this.(flaws := flaws + [f])
    }
  }

  /** `Personality::default()`. */
  function EmptyPersonality(): (r: Personality)
    ensures r.traits == [] && r.ideals == [] && r.bonds == [] && r.flaws == []
  {
    Personality([], [], [], [])
  }

  /** Adds each trait in turn. */
  function AddTraits(p: Personality, ts: seq<string>): Personality
    decreases |ts|
  {
    if ts == [] then p else AddTraits(p.AddTrait(ts[0]), ts[1..])
  }

  /** Repeated adds keep insertion order and leave the other three lists alone. */
  lemma {:induction false} AddTraitsInOrder(p: Personality, ts: seq<string>)
    ensures AddTraits(p, ts) == p.(traits := p.traits + ts)
    decreases |ts|
  {
    if ts != [] {
      AddTraitsInOrder(p.AddTrait(ts[0]), ts[1..]);
      assert p.traits + [ts[0]] + ts[1..] == p.traits + ts;
    }
  }

  /** Adders of different lists commute: the order between lists does not matter. */
  lemma AddersCommute(p: Personality, t: string, i: string, b: string, f: string)
    ensures p.AddTrait(t).AddIdeal(i).AddBond(b).AddFlaw(f) == p.AddFlaw(f).AddBond(b).AddIdeal(i).AddTrait(t)
  {
  }
}
