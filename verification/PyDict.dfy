/** Insertion-ordered dictionaries with string keys, and the optional value. */
module PyDict {

  datatype Option<+T> = None | Some(value: T)

  ghost predicate Distinct(s: seq<string>) {
    forall i, j :: 0 <= i < j < |s| ==> s[i] != s[j]
  }

  /** The mapping and the order in which its keys are iterated over. */
  datatype Dict<+V> = Dict(keys: seq<string>, vals: map<string, V>) {
    /** Every mapped key is listed exactly once. */
    ghost predicate Wf() {
      Distinct(keys) && (forall k :: k in keys <==> k in vals)
    }
  }

  /** `d[k] = v`: an old key keeps its position, a new one goes last. */
  function Put<V>(d: Dict<V>, k: string, v: V): (r: Dict<V>)
    ensures r.vals == d.vals[k := v]
    ensures d.Wf() ==> r.Wf()
  {
    Dict(if k in d.vals then d.keys else d.keys + [k], d.vals[k := v])
  }

  function Without(s: seq<string>, drop: set<string>): (r: seq<string>)
    ensures forall y :: y in r <==> y in s && y !in drop
    ensures Distinct(s) ==> Distinct(r)
  {
    if s == [] then []
    else
      assert s == [s[0]] + s[1..];
      var rest := Without(s[1..], drop);
      if s[0] in drop then rest
      else
        assert Distinct(s) ==> s[0] !in s[1..];
        [s[0]] + rest
  }

  /** `{k: v for k, v in d.items() if k not in drop}`; the other keys keep their order. */
  function Exclude<V>(d: Dict<V>, drop: set<string>): (r: Dict<V>)
    ensures r.vals == d.vals - drop
    ensures d.Wf() ==> r.Wf()
  {
    Dict(Without(d.keys, drop), d.vals - drop)
  }

  lemma {:induction false} WithoutAbsent(s: seq<string>, k: string)
    requires k !in s
    ensures Without(s, {k}) == s
  {
    if s != [] {
      WithoutAbsent(s[1..], k);
    }
  }

  lemma {:induction false} WithoutNothing(s: seq<string>)
    ensures Without(s, {}) == s
  {
    if s != [] {
      WithoutNothing(s[1..]);
    }
  }

  /** `del d[k]` */
  function Remove<V>(d: Dict<V>, k: string): (r: Dict<V>)
    ensures r.vals == d.vals - {k}
    ensures d.Wf() ==> r.Wf()
  {
    Exclude(d, {k})
  }

  /** Deleting a key that is not there would change nothing. */
  lemma RemoveAbsent<V>(d: Dict<V>, k: string)
    requires d.Wf() && k !in d.vals
    ensures Remove(d, k) == d
  {
    WithoutAbsent(d.keys, k);
  }

  /** Overwriting a key before deleting it makes no difference. */
  lemma RemoveAfterPut<V>(d: Dict<V>, k: string, v: V)
    requires k in d.vals
    ensures Remove(Put(d, k, v), k) == Remove(d, k)
  {
    assert d.vals[k := v] - {k} == d.vals - {k};
  }
}
