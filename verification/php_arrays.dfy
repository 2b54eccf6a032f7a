/**
 * A PHP array with string keys, as the resource builds its `$data`: an
 * ordered map, kept as the sequence of its entries in insertion order.
 */
module PhpArrays {
  import opened PhpValues

  type Entries = seq<(string, Value)>

  /** The keys of an array, in order. */
  function Keys(a: Entries): seq<string> {
    seq(|a|, k requires 0 <= k < |a| => a[k].0)
  }

  /** No name occurs twice. */
  predicate Distinct(names: seq<string>) {
    forall p, q :: 0 <= p < q < |names| ==> names[p] != names[q]
  }

  /** No key occurs twice, as in every PHP array. */
  predicate DistinctKeys(a: Entries) {
    Distinct(Keys(a))
  }

  /** `$a[k]` when the key is set, `None` when it is not. */
  function Lookup(a: Entries, k: string): (r: Option<Value>)
    ensures r.None? <==> k !in Keys(a)
    ensures r.Some? ==> (k, r.value) in a
  {
    if a == [] then None
    else
      assert Keys(a) == [a[0].0] + Keys(a[1..]);
      if a[0].0 == k then Some(a[0].1) else Lookup(a[1..], k)
  }

  /** Where a key stands in the array's order. */
  function Position(a: Entries, k: string): (p: nat)
    requires k in Keys(a)
    ensures p < |a| && a[p].0 == k
    ensures forall q :: 0 <= q < p ==> a[q].0 != k
  {
    assert Keys(a) == [a[0].0] + Keys(a[1..]);
    if a[0].0 == k then 0 else 1 + Position(a[1..], k)
  }

  /**
   * `$a[k] = v`: an existing key keeps its place and takes the new value,
   * a new key goes at the end.
   */
  function Assign(a: Entries, k: string, v: Value): Entries {
    if a == [] then [(k, v)]
    else if a[0].0 == k then [(k, v)] + a[1..]
    else [a[0]] + Assign(a[1..], k, v)
  }

  lemma KeysCons(e: (string, Value), a: Entries)
    ensures Keys([e] + a) == [e.0] + Keys(a)
  {
  }

  /** After `$a[k] = v`, `$a[k]` is `v` and every other key reads as before. */
  lemma {:induction false} AssignLookup(a: Entries, k: string, v: Value, k': string)
    ensures Lookup(Assign(a, k, v), k') == if k' == k then Some(v) else Lookup(a, k')
  {
    if a != [] {
      KeysCons(a[0], a[1..]);
      assert a == [a[0]] + a[1..];
      if a[0].0 == k {
        KeysCons((k, v), a[1..]);
        assert ([(k, v)] + a[1..])[1..] == a[1..];
      } else {
        var rest := Assign(a[1..], k, v);
        KeysCons(a[0], rest);
        assert ([a[0]] + rest)[1..] == rest;
        AssignLookup(a[1..], k, v, k');
      }
    }
  }

  /** A new key is appended: the entries already there keep their order. */
  lemma {:induction false} AssignNewKey(a: Entries, k: string, v: Value)
    requires k !in Keys(a)
    ensures Assign(a, k, v) == a + [(k, v)]
  {
    if a != [] {
      KeysCons(a[0], a[1..]);
      assert a == [a[0]] + a[1..];
      AssignNewKey(a[1..], k, v);
    }
  }

  /** An existing key is overwritten in place: the order of keys is unchanged. */
  lemma {:induction false} AssignExistingKey(a: Entries, k: string, v: Value)
    requires k in Keys(a)
    ensures Keys(Assign(a, k, v)) == Keys(a)
  {
    KeysCons(a[0], a[1..]);
    assert a == [a[0]] + a[1..];
    if a[0].0 == k {
      KeysCons((k, v), a[1..]);
    } else {
      AssignExistingKey(a[1..], k, v);
      KeysCons(a[0], Assign(a[1..], k, v));
    }
  }

  /** Assignment never duplicates a key. */
  lemma AssignDistinct(a: Entries, k: string, v: Value)
    requires DistinctKeys(a)
    ensures DistinctKeys(Assign(a, k, v))
  {
    if k in Keys(a) {
      AssignExistingKey(a, k, v);
    } else {
      AssignNewKey(a, k, v);
      assert Keys(a + [(k, v)]) == Keys(a) + [k];
    }
  }
}
