/** Change lists and what applying them in order does to a key-value store. */
module Changes {

  datatype Change<K, V> = Put(key: K, val: V) | Del(key: K)

  function When<K, V>(c: bool, k: K, v: V): seq<Change<K, V>> { if c then [Put(k, v)] else [] }

  ghost predicate IsAt<K, V>(s: map<K, V>, k: K, v: V) { k in s && s[k] == v }

  ghost predicate SameAt<K, V>(s: map<K, V>, s': map<K, V>, k: K) { (k in s <==> k in s') && (k in s ==> s'[k] == s[k]) }

  ghost function ApplyOne<K, V>(s: map<K, V>, c: Change<K, V>): map<K, V> {
    match c
    case Put(k, v) => s[k := v]
    case Del(k) => s - {k}
  }

  /** The store after the changes of the list, in order. */
  ghost function ApplyAll<K, V>(s: map<K, V>, cs: seq<Change<K, V>>): map<K, V> {
    if cs == [] then s else
      var n := |cs| - 1;
      ApplyOne(ApplyAll(s, cs[..n]), cs[n])
  }

  lemma {:induction false} ApplyAllAppend<K, V>(s: map<K, V>, a: seq<Change<K, V>>, b: seq<Change<K, V>>)
    ensures ApplyAll(s, a + b) == ApplyAll(ApplyAll(s, a), b)
  {
    if b == [] {
      assert a + b == a;
    } else {
      var n := |b| - 1;
      ApplyAllAppend(s, a, b[..n]);
      assert (a + b)[..|a| + n] == a + b[..n];
    }
  }

  lemma {:induction false} ApplyNext<K, V>(s: map<K, V>, cs: seq<Change<K, V>>, i: nat)
    requires i < |cs|
    ensures ApplyAll(s, cs[..i+1]) == ApplyOne(ApplyAll(s, cs[..i]), cs[i])
  {
    assert cs[..i+1][..i] == cs[..i];
  }

  lemma {:induction false} ApplySingle<K, V>(s: map<K, V>, c: Change<K, V>)
    ensures ApplyAll(s, [c]) == ApplyOne(s, c)
  {
    assert [c][..0] == [];
  }

  // ----- keys a list leaves alone, and keys it sets -----

  ghost predicate Mentions<K, V>(cs: seq<Change<K, V>>, k: K) { exists i :: 0 <= i < |cs| && cs[i].key == k }

  /** Every change of k in the list, and there is one, writes v. */
  ghost predicate Puts<K, V>(cs: seq<Change<K, V>>, k: K, v: V) {
    Mentions(cs, k) && forall i | 0 <= i < |cs| :: cs[i].key == k ==> cs[i] == Put(k, v)
  }

  lemma {:induction false} Untouched<K, V>(s: map<K, V>, cs: seq<Change<K, V>>, k: K)
    requires !Mentions(cs, k)
    ensures SameAt(s, ApplyAll(s, cs), k)
  {
    if cs != [] {
      var n := |cs| - 1;
      assert cs[n].key != k;
      assert forall i | 0 <= i < n :: cs[..n][i] == cs[i];
      Untouched(s, cs[..n], k);
    }
  }

  lemma {:induction false} Written<K, V>(s: map<K, V>, cs: seq<Change<K, V>>, k: K, v: V)
    requires Puts(cs, k, v)
    ensures IsAt(ApplyAll(s, cs), k, v)
  {
    var n := |cs| - 1;
    if cs[n].key != k {
      var i :| 0 <= i < |cs| && cs[i].key == k;
      assert cs[..n][i].key == k;
      Written(s, cs[..n], k, v);
    }
  }

  lemma MentionsAppend<K, V>(a: seq<Change<K, V>>, b: seq<Change<K, V>>, k: K)
    ensures Mentions(a + b, k) <==> Mentions(a, k) || Mentions(b, k)
  {
    if i :| 0 <= i < |a| && a[i].key == k { assert (a + b)[i].key == k; }
    if i :| 0 <= i < |b| && b[i].key == k { assert (a + b)[|a| + i].key == k; }
    if i :| 0 <= i < |a + b| && (a + b)[i].key == k {
      if i < |a| { assert a[i].key == k; } else { assert b[i - |a|].key == k; }
    }
  }
}
