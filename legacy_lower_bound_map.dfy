// The older crate's lower-bound map: an ordered map (a `BTreeMap` in the
// source) whose lookup falls back to the entry with the greatest key below
// the one asked for. The ordered map is kept as a list of entries sorted by
// strictly increasing key; `AsMap` is the map it stands for. Keys are
// integers here (the source is generic over any ordered, cloneable key).
module LegacyLowerBoundMap {
  import opened Common

  /** Keys strictly increase along the list, so each key occurs once. */
  ghost predicate Sorted<V>(s: seq<(int, V)>)
  {
    forall i, j :: 0 <= i < j < |s| ==> s[i].0 < s[j].0
  }

  /** The map a list of entries stands for. */
  function AsMap<V>(s: seq<(int, V)>): map<int, V>
  {
    if s == [] then map[] else AsMap(s[1..])[s[0].0 := s[0].1]
  }

  /** In a sorted list, every entry is in the map with its own value, and every key of the map is an entry's. */
  lemma {:induction false} AsMapEntries<V>(s: seq<(int, V)>)
    requires Sorted(s)
    ensures forall i :: 0 <= i < |s| ==> s[i].0 in AsMap(s) && AsMap(s)[s[i].0] == s[i].1
    ensures forall key :: key in AsMap(s) ==> exists i :: 0 <= i < |s| && s[i].0 == key
  {
    if s != [] {
      var rest := s[1..];
      AsMapEntries(rest);
      assert AsMap(s) == AsMap(rest)[s[0].0 := s[0].1];
      forall i | 0 < i < |s|
        ensures s[i].0 in AsMap(s) && AsMap(s)[s[i].0] == s[i].1
      {
        assert rest[i - 1] == s[i];
      }
      forall key | key in AsMap(s)
        ensures exists i :: 0 <= i < |s| && s[i].0 == key
      {
        if key != s[0].0 {
          assert key in AsMap(rest);
          var i :| 0 <= i < |rest| && rest[i].0 == key;
          assert s[i + 1].0 == key;
        }
      }
    }
  }

  /** The first key of a sorted list lies below every key of the rest. */
  lemma FirstBelowRest<V>(s: seq<(int, V)>)
    requires Sorted(s) && s != []
    ensures forall key :: key in AsMap(s[1..]) ==> key > s[0].0
    ensures AsMap(s[1..]) == AsMap(s) - {s[0].0}
  {
    var rest := s[1..];
    AsMapEntries(rest);
    forall key | key in AsMap(rest)
      ensures key > s[0].0
    {
      var i :| 0 <= i < |rest| && rest[i].0 == key;
      assert s[i + 1] == rest[i];
    }
    UpdateRemove(AsMap(rest), s[0].0, s[0].1);
  }

  lemma UpdateRemove<K, V>(m: map<K, V>, k: K, v: V)
    requires k !in m
    ensures m[k := v] - {k} == m
  {
  }

  /** Only the empty list stands for the empty map. */
  lemma AsMapEmpty<V>(s: seq<(int, V)>)
    ensures AsMap(s) == map[] <==> s == []
  {
    if s != [] {
      assert s[0].0 in AsMap(s);
    }
  }

  /** Two sorted lists for the same map start with the same entry: the least key and its value. */
  lemma SortedHeads<V>(s: seq<(int, V)>, t: seq<(int, V)>)
    requires Sorted(s) && Sorted(t) && AsMap(s) == AsMap(t)
    requires s != [] && t != []
    ensures s[0] == t[0]
  {
    AsMapEntries(s);
    AsMapEntries(t);
    var i :| 0 <= i < |t| && t[i].0 == s[0].0;
    var j :| 0 <= j < |s| && s[j].0 == t[0].0;
    assert t[0].0 <= t[i].0 == s[0].0 <= s[j].0 == t[0].0;
    assert s[0].1 == AsMap(s)[s[0].0] == AsMap(t)[t[0].0] == t[0].1;
  }

  /** A map has exactly one sorted list of entries. */
  lemma {:induction false} SortedUnique<V>(s: seq<(int, V)>, t: seq<(int, V)>)
    requires Sorted(s) && Sorted(t) && AsMap(s) == AsMap(t)
    ensures s == t
  {
    AsMapEmpty(s);
    AsMapEmpty(t);
    if s != [] && t != [] {
      SortedHeads(s, t);
      FirstBelowRest(s);
      FirstBelowRest(t);
      SortedUnique(s[1..], t[1..]);
      assert s == [s[0]] + s[1..] && t == [t[0]] + t[1..];
    }
  }

  /** `BTreeMap::insert` on the sorted list: the entry goes in key order, replacing an equal key. */
  function InsertSorted<V>(s: seq<(int, V)>, k: int, v: V): (r: seq<(int, V)>)
    requires Sorted(s)
    ensures Sorted(r)
    ensures AsMap(r) == AsMap(s)[k := v]
    ensures r != [] && (r[0].0 == k || (s != [] && r[0].0 == s[0].0))
  {
    if s == [] then [(k, v)]
    else if s[0].0 == k then
      assert ([(k, v)] + s[1..])[1..] == s[1..];
      MapOverwrite(AsMap(s[1..]), k, s[0].1, v);
      [(k, v)] + s[1..]
    else if k < s[0].0 then
      assert ([(k, v)] + s)[1..] == s;
      [(k, v)] + s
    else
      var tail := InsertSorted(s[1..], k, v);
      assert ([s[0]] + tail)[1..] == tail;
      assert AsMap(s[1..])[k := v][s[0].0 := s[0].1] == AsMap(s[1..])[s[0].0 := s[0].1][k := v];
      [s[0]] + tail
  }

  /** The map the pairs describe when stored from first to last, so a later pair wins over an earlier one. */
  function PairsMap<V>(pairs: seq<(int, V)>): map<int, V>
  {
    if pairs == [] then map[]
    else PairsMap(pairs[..|pairs| - 1])[pairs[|pairs| - 1].0 := pairs[|pairs| - 1].1]
  }

  /** `BTreeMap::from(array)`: the pairs inserted in order, as a sorted list. */
  function FromPairs<V>(pairs: seq<(int, V)>): (r: seq<(int, V)>)
    ensures Sorted(r)
    ensures AsMap(r) == PairsMap(pairs)
  {
    if pairs == [] then []
    else
      var last := pairs[|pairs| - 1];
      InsertSorted(FromPairs(pairs[..|pairs| - 1]), last.0, last.1)
  }

  /** `BTreeMap::get`: the value stored under exactly `k`. */
  function Find<V>(s: seq<(int, V)>, k: int): (r: Option<V>)
    ensures r == if k in AsMap(s) then Some(AsMap(s)[k]) else None
  {
    if s == [] then None else if s[0].0 == k then Some(s[0].1) else Find(s[1..], k)
  }

  /**
   * `range(..k).next_back()`: the entry with the greatest key below `k`,
   * which in a sorted list is the last entry whose key is below `k`.
   */
  function LastBelow<V>(s: seq<(int, V)>, k: int): (r: Option<(int, V)>)
    requires Sorted(s)
    ensures r.None? <==> forall i :: 0 <= i < |s| ==> s[i].0 >= k
    ensures r.Some? ==> r.value in s && r.value.0 < k
    ensures r.Some? ==> forall i :: 0 <= i < |s| && s[i].0 < k ==> s[i].0 <= r.value.0
  {
    if s == [] then None
    else if s[|s| - 1].0 < k then Some(s[|s| - 1])
    else
      var init := s[..|s| - 1];
      assert forall i :: 0 <= i < |init| ==> init[i] == s[i];
      LastBelow(init, k)
  }

  /** The same lookup read on the map: the greatest key below `k`, if there is one. */
  lemma LastBelowInMap<V>(s: seq<(int, V)>, k: int)
    requires Sorted(s)
    ensures LastBelow(s, k).None? <==> forall j :: j in AsMap(s) ==> j >= k
    ensures LastBelow(s, k).Some? ==>
      var e := LastBelow(s, k).value;
      e.0 in AsMap(s) && e.0 < k && AsMap(s)[e.0] == e.1 &&
      forall j :: j in AsMap(s) && j < k ==> j <= e.0
  {
    AsMapEntries(s);
    var r := LastBelow(s, k);
    if r.Some? {
      var i :| 0 <= i < |s| && s[i] == r.value;
      assert s[i].0 in AsMap(s) && AsMap(s)[s[i].0] == s[i].1;
      forall j | j in AsMap(s) && j < k
        ensures j <= r.value.0
      {
        var i :| 0 <= i < |s| && s[i].0 == j;
      }
      assert r.value.0 in AsMap(s) && AsMap(s)[r.value.0] == r.value.1;
    } else {
      forall j | j in AsMap(s)
        ensures j >= k
      {
        var i :| 0 <= i < |s| && s[i].0 == j;
      }
    }
  }

  class LowerBoundMap<V> {
    /** The entries in increasing key order. */
    var entries: seq<(int, V)>

    ghost predicate Valid()
      reads this
    {
      Sorted(entries)
    }

    /** The map this stands for. */
    ghost function Contents(): map<int, V>
      reads this
    {
      AsMap(entries)
    }

    /** `LowerBoundMap::default()`: empty. */
    constructor ()
      ensures Valid() && Contents() == map[]
    {
      entries := [];
    }

    /** `From<[(K, V); N]>`: exactly the given pairs, a later pair winning over an earlier one with the same key. */
    constructor From(pairs: seq<(int, V)>)
      ensures Valid() && Contents() == PairsMap(pairs)
    {
      entries := FromPairs(pairs);
    }

    /** Stores `value` under exactly `key`, replacing what was there; nothing else changes. */
    method Insert(key: int, value: V)
      requires Valid()
      modifies this
      ensures Valid() && Contents() == old(Contents())[key := value]
    {
      entries := InsertSorted(entries, key, value);
    }

    /**
     * The value stored under `key`; failing that, the value under the
     * greatest key below it; failing that, nothing.
     */
    function Get(key: int): (r: Option<V>)
      requires Valid()
      reads this
      ensures key in Contents() ==> r == Some(Contents()[key])
      ensures key !in Contents() ==> (r.None? <==> forall j :: j in Contents() ==> j > key)
      ensures key !in Contents() && r.Some? ==>
        exists j :: j in Contents() && j < key && Contents()[j] == r.value &&
          forall j' :: j' in Contents() && j' < key ==> j' <= j
    {
      LastBelowInMap(entries, key);
      assert Contents() == AsMap(entries);
      var exact := Find(entries, key);
      if exact.Some? then exact else
        var lower := LastBelow(entries, key);
        if lower.Some? then Some(lower.value.1) else None
    }
  }

  /** Pairs given in increasing key order mean the same map as the sorted list they already are. */
  lemma InOrderPairs(numbers: seq<(int, string)>)
    requires numbers == [(3, "Three"), (7, "Seven"), (12, "Twelve")]
    ensures Sorted(numbers) && PairsMap(numbers) == AsMap(numbers)
  {
    var two, one := numbers[..2], numbers[..1];
    assert two[..1] == one && numbers[..2] == two;
    assert PairsMap(one) == map[3 := "Three"];
    assert PairsMap(two) == map[3 := "Three"][7 := "Seven"];
    assert PairsMap(numbers) == map[3 := "Three"][7 := "Seven"][12 := "Twelve"];
    var tail, last := numbers[1..], numbers[2..];
    assert tail[1..] == last && numbers[1..] == tail;
    assert AsMap(last) == map[12 := "Twelve"];
    assert AsMap(tail) == map[12 := "Twelve"][7 := "Seven"];
    assert AsMap(numbers) == map[12 := "Twelve"][7 := "Seven"][3 := "Three"];
  }

  /** A lookup in an empty map finds nothing. */
  method EmptyExample() returns (r: Option<nat>)
    ensures r == None
  {
    var m := new LowerBoundMap<nat>();
    r := m.Get(42);
  }

  /** A key that is stored is found exactly. */
  method ExactExample() returns (low: Option<string>, r: Option<string>, high: Option<string>)
    ensures low == Some("A cool number")
    ensures r == Some("The answer to everything")
    ensures high == Some("IT'S OVER 9000!!!")
  {
    var m := new LowerBoundMap.From([(12, "A cool number"), (42, "The answer to everything"), (9001, "IT'S OVER 9000!!!")]);
    assert 12 in m.Contents() && 42 in m.Contents() && 9001 in m.Contents();
    low := m.Get(12);
    r := m.Get(42);
    high := m.Get(9001);
  }

  /** A key that is not stored falls back to the greatest stored key below it. */
  method FallbackExample() returns (five: Option<string>, ten: Option<string>, far: Option<string>)
    ensures five == Some("Three") && ten == Some("Seven") && far == Some("Twelve")
  {
    var numbers := [(3, "Three"), (7, "Seven"), (12, "Twelve")];
    var m := new LowerBoundMap.From(numbers);
    InOrderPairs(numbers);
    SortedUnique(m.entries, numbers);
    five := m.Get(5);
    ten := m.Get(10);
    far := m.Get(490);
  }

  /** Below the smallest stored key there is nothing to fall back to. */
  method BelowAllExample() returns (three: Option<string>, r: Option<string>)
    ensures three == None && r == None
  {
    var m := new LowerBoundMap.From([(7, "prime"), (11, "also prime")]);
    assert m.Contents() == map[7 := "prime", 11 := "also prime"];
    three := m.Get(3);
    r := m.Get(6);
  }
}
