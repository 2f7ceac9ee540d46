// Shared building blocks used by both generations of the rules engine:
// the Option/Result wrappers that stand in for Rust's, an outcome type for
// operations that return `Result<(), E>`, and sums and collections over
// sequences, multisets and maps whose iteration order the source leaves
// unspecified.
module Common {

  datatype Option<T> = None | Some(value: T) {
    /** `unwrap_or`. */
    function GetOr(default: T): T {
      if Some? then value else default
    }
  }

  datatype Result<T, E> = Ok(value: T) | Err(error: E)

  /** The result of an operation that returns `Result<(), E>`. */
  datatype Outcome<E> = Pass | Fail(error: E)

  /** `parts.join(sep)`. */
  function Join(parts: seq<string>, sep: string): string
  {
    if parts == [] then ""
    else if |parts| == 1 then parts[0]
    else parts[0] + sep + Join(parts[1..], sep)
  }

  /** Joining one more part adds the separator and that part at the end. */
  lemma {:induction false} JoinAppend(parts: seq<string>, x: string, sep: string)
    requires parts != []
    ensures Join(parts + [x], sep) == Join(parts, sep) + sep + x
  {
    if |parts| == 1 {
      assert (parts + [x])[1..] == [x];
    } else {
      assert (parts + [x])[1..] == parts[1..] + [x];
      JoinAppend(parts[1..], x, sep);
    }
  }

  /** The sum of `f` over a sequence, taken left to right. */
  function SeqSum<T>(s: seq<T>, f: T -> int): int
  {
    if s == [] then 0 else SeqSum(s[..|s| - 1], f) + f(s[|s| - 1])
  }

  lemma SeqSumAppend<T>(s: seq<T>, x: T, f: T -> int)
    ensures SeqSum(s + [x], f) == SeqSum(s, f) + f(x)
  {
    assert (s + [x])[..|s|] == s;
  }

  /** The sum of `f` over a multiset: the order-free view of a HashMap fold. */
  ghost function MSum<T>(m: multiset<T>, f: T -> int): int
    decreases |m|
  {
    if m == multiset{} then 0
    else
      var x :| x in m;
      f(x) + MSum(m - multiset{x}, f)
  }

  /** The multiset sum does not depend on which element is taken first. */
  lemma {:induction false} MSumRemove<T>(m: multiset<T>, f: T -> int, y: T)
    requires y in m
    ensures MSum(m, f) == f(y) + MSum(m - multiset{y}, f)
    decreases |m|
  {
    var x :| x in m && MSum(m, f) == f(x) + MSum(m - multiset{x}, f);
    if x != y {
      MSumRemove(m - multiset{x}, f, y);
      MSumRemove(m - multiset{y}, f, x);
      assert m - multiset{x} - multiset{y} == m - multiset{y} - multiset{x};
    }
  }

  lemma MSumAdd<T>(m: multiset<T>, f: T -> int, x: T)
    ensures MSum(m + multiset{x}, f) == MSum(m, f) + f(x)
  {
    MSumRemove(m + multiset{x}, f, x);
    assert m + multiset{x} - multiset{x} == m;
  }

  /** Summing a sequence in any order gives the multiset sum. */
  lemma {:induction false} MSumOfSeq<T>(s: seq<T>, f: T -> int)
    ensures MSum(multiset(s), f) == SeqSum(s, f)
  {
    if s != [] {
      var init := s[..|s| - 1];
      assert s == init + [s[|s| - 1]];
      MSumOfSeq(init, f);
      MSumAdd(multiset(init), f, s[|s| - 1]);
    }
  }

  /** The item an optional cell holds, as a multiset of zero or one element. */
  function Held<V>(v: Option<V>): multiset<V>
  {
    if v.Some? then multiset{v.value} else multiset{}
  }

  /** The items held by the occupied cells of a map, forgetting the keys. */
  ghost function Occupied<K, V>(m: map<K, Option<V>>): multiset<V>
    decreases m.Keys
  {
    if m.Keys == {} then multiset{}
    else
      var k :| k in m.Keys;
      Occupied(m - {k}) + Held(m[k])
  }

  /** The occupancy multiset does not depend on which key is taken first. */
  lemma {:induction false} OccupiedRemove<K, V>(m: map<K, Option<V>>, k: K)
    requires k in m
    ensures Occupied(m) == Occupied(m - {k}) + Held(m[k])
    decreases m.Keys, 1
  {
    var j :| j in m.Keys && Occupied(m) == Occupied(m - {j}) + Held(m[j]);
    if j != k {
      OccupiedSwap(m, j, k);
    }
  }

  lemma {:induction false} OccupiedSwap<K, V>(m: map<K, Option<V>>, j: K, k: K)
    requires j in m && k in m && j != k
    ensures Occupied(m - {j}) + Held(m[j]) == Occupied(m - {k}) + Held(m[k])
    decreases m.Keys, 0
  {
    var mj, mk := m - {j}, m - {k};
    assert mj.Keys < m.Keys && mk.Keys < m.Keys;
    var r := mj - {k};
    assert mk - {j} == r;
    assert mj[k] == m[k] && mk[j] == m[j];
    OccupiedRemove(mj, k);
    OccupiedRemove(mk, j);
    var a, hj, hk := Occupied(r), Held(m[j]), Held(m[k]);
    assert Occupied(mj) == a + hk;
    assert Occupied(mk) == a + hj;
  }

  /** Storing `v` under `k` replaces whatever `k` held before. */
  lemma OccupiedUpdate<K, V>(m: map<K, Option<V>>, k: K, v: Option<V>)
    ensures Occupied(m[k := v]) == Occupied(m - {k}) + Held(v)
  {
    OccupiedRemove(m[k := v], k);
    assert m[k := v] - {k} == m - {k};
  }

  /** Replacing one cell adds the new item and, if the key existed, drops the old one. */
  lemma OccupiedReplace<K, V>(m: map<K, Option<V>>, k: K, v: Option<V>)
    ensures k !in m ==> Occupied(m[k := v]) == Occupied(m) + Held(v)
    ensures k in m ==> Occupied(m[k := v]) == Occupied(m) - Held(m[k]) + Held(v)
  {
    OccupiedUpdate(m, k, v);
    if k in m {
      OccupiedRemove(m, k);
    } else {
      assert m - {k} == m;
    }
  }

  /** A second store under the same key overwrites the first. */
  lemma MapOverwrite<K, V>(m: map<K, V>, k: K, a: V, b: V)
    ensures m[k := a][k := b] == m[k := b]
  {
  }

  /** A map with a single cell holds what that cell holds. */
  lemma OccupiedSingleton<K, V>(k: K, v: Option<V>)
    ensures Occupied(map[k := v]) == Held(v)
  {
    OccupiedRemove(map[k := v], k);
    assert map[k := v] - {k} == map[];
  }

  lemma MSumSingleton<T>(x: T, f: T -> int)
    ensures MSum(multiset{x}, f) == f(x)
  {
    MSumAdd(multiset{}, f, x);
    assert multiset{} + multiset{x} == multiset{x};
  }

  /** An item is occupied exactly when some key holds it. */
  lemma {:induction false} OccupiedMember<K, V>(m: map<K, Option<V>>, x: V)
    ensures x in Occupied(m) <==> exists k :: k in m && m[k] == Some(x)
    decreases m.Keys
  {
    if m.Keys != {} {
      var k :| k in m;
      var rest := m - {k};
      assert rest.Keys < m.Keys;
      OccupiedRemove(m, k);
      OccupiedMember(rest, x);
      if x in Occupied(m) {
        if x in Occupied(rest) {
          var j :| j in rest && rest[j] == Some(x);
          assert j in m && m[j] == Some(x);
        } else {
          assert m[k] == Some(x);
        }
      } else {
        forall j | j in m
          ensures m[j] != Some(x)
        {
          if j != k {
            assert j in rest && rest[j] == m[j];
          }
        }
      }
    }
  }

  /** The entries of `m` whose keys lie in `keys`. */
  function Restrict<K, V>(m: map<K, V>, keys: set<K>): (r: map<K, V>)
    ensures r.Keys == m.Keys * keys
    ensures forall k :: k in r ==> r[k] == m[k]
  {
    map k | k in m && k in keys :: m[k]
  }

  /** Adding one key to a restriction adds what that key holds. */
  lemma OccupiedRestrictStep<K, V>(m: map<K, Option<V>>, done: set<K>, k: K)
    requires k in m && k !in done
    ensures Occupied(Restrict(m, done + {k})) == Occupied(Restrict(m, done)) + Held(m[k])
  {
    var bigger := Restrict(m, done + {k});
    OccupiedRemove(bigger, k);
    assert bigger - {k} == Restrict(m, done);
  }

  /** One step of collecting the occupied cells into a sequence. */
  lemma CollectStep<K, V>(m: map<K, Option<V>>, done: set<K>, k: K, items: seq<V>)
    requires k in m && k !in done
    requires multiset(items) == Occupied(Restrict(m, done))
    ensures multiset(items + HeldSeq(m[k])) == Occupied(Restrict(m, done + {k}))
  {
    OccupiedRestrictStep(m, done, k);
  }

  /** The item an optional cell holds, as a sequence of zero or one element. */
  function HeldSeq<V>(v: Option<V>): (r: seq<V>)
    ensures multiset(r) == Held(v)
  {
    if v.Some? then [v.value] else []
  }

  lemma RestrictBounds<K, V>(m: map<K, V>)
    ensures Restrict(m, {}) == map[]
    ensures Restrict(m, m.Keys) == m
  {
  }

  /** The held values of a map's cells, visited in an unspecified key order. */
  method CollectOccupied<K, V>(m: map<K, Option<V>>) returns (items: seq<V>)
    ensures multiset(items) == Occupied(m)
  {
    items := [];
    var pending := m.Keys;
    ghost var done: set<K> := {};
    RestrictBounds(m);
    while pending != {}
      invariant done + pending == m.Keys && done !! pending
      invariant multiset(items) == Occupied(Restrict(m, done))
      decreases pending
    {
      var k :| k in pending;
      CollectStep(m, done, k, items);
      items := items + HeldSeq(m[k]);
      pending := pending - {k};
      done := done + {k};
    }
    assert done == m.Keys;
  }
}
