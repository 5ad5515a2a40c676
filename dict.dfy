/** A Python dict: key/value pairs in insertion order. Assigning to a key
    that is present replaces its value where it stands; assigning to a new
    key appends it at the end. */
module Dict {
  import opened Wrappers

  type Dict<K, V> = seq<(K, V)>

  /** `k in d`. */
  predicate HasKey<K(==), V>(d: Dict<K, V>, k: K) {
    d != [] && (d[0].0 == k || HasKey(d[1..], k))
  }

  /** No key occurs twice, as in every dict Python builds. */
  predicate Unique<K(==), V>(d: Dict<K, V>) {
    d == [] || (!HasKey(d[1..], d[0].0) && Unique(d[1..]))
  }

  /** `d.get(k)`. */
  function Get<K(==), V>(d: Dict<K, V>, k: K): (r: Option<V>)
    ensures r.Some? <==> HasKey(d, k)
    ensures r.Some? ==> (k, r.value) in d
  {
    if d == [] then None
    else if d[0].0 == k then Some(d[0].1)
    else Get(d[1..], k)
  }

  /** `d[k] = v`. */
  function Put<K(==), V>(d: Dict<K, V>, k: K, v: V): (r: Dict<K, V>)
    ensures |r| == if HasKey(d, k) then |d| else |d| + 1
    ensures forall i :: 0 <= i < |d| ==> r[i].0 == d[i].0
    ensures forall i :: 0 <= i < |d| ==> r[i] == d[i] || r[i] == (k, v)
    ensures !HasKey(d, k) ==> r == d + [(k, v)]
  {
    if d == [] then [(k, v)]
    else if d[0].0 == k then [(k, v)] + d[1..]
    else [d[0]] + Put(d[1..], k, v)
  }

  /** The keys after `d[k] = v` are the old keys and k. */
  lemma {:induction false} PutKeys<K, V>(d: Dict<K, V>, k: K, v: V, k': K)
    ensures HasKey(Put(d, k, v), k') <==> HasKey(d, k') || k' == k
  {
    if d != [] && d[0].0 != k {
      PutKeys(d[1..], k, v, k');
      assert Put(d, k, v)[1..] == Put(d[1..], k, v);
    } else if d != [] {
      assert Put(d, k, v)[1..] == d[1..];
    }
  }

  /** After `d[k] = v`, looking up k gives v and every other key gives what
      it gave before. */
  lemma {:induction false} PutGet<K, V>(d: Dict<K, V>, k: K, v: V, k': K)
    ensures Get(Put(d, k, v), k') == if k' == k then Some(v) else Get(d, k')
  {
    if d != [] && d[0].0 != k {
      PutGet(d[1..], k, v, k');
      assert Put(d, k, v)[1..] == Put(d[1..], k, v);
    } else if d != [] {
      assert Put(d, k, v)[1..] == d[1..];
    }
  }

  /** `d[k] = v` never introduces a repeated key. */
  lemma {:induction false} PutUnique<K, V>(d: Dict<K, V>, k: K, v: V)
    requires Unique(d)
    ensures Unique(Put(d, k, v))
  {
    if d != [] && d[0].0 != k {
      PutUnique(d[1..], k, v);
      PutKeys(d[1..], k, v, d[0].0);
      assert Put(d, k, v)[1..] == Put(d[1..], k, v);
    } else if d != [] {
      assert Put(d, k, v)[1..] == d[1..];
    }
  }

  /** `k in d` holds exactly when some pair has key k. */
  lemma {:induction false} HasKeyIndex<K, V>(d: Dict<K, V>, k: K)
    ensures HasKey(d, k) <==> exists i :: 0 <= i < |d| && d[i].0 == k
  {
    if d != [] {
      HasKeyIndex(d[1..], k);
      assert forall i :: 1 <= i < |d| ==> d[1..][i - 1] == d[i];
      if HasKey(d[1..], k) && d[0].0 != k {
        var j :| 0 <= j < |d[1..]| && d[1..][j].0 == k;
        assert d[j + 1].0 == k;
      }
    }
  }

  /** Assigning a key no pair has appends it. */
  lemma PutNew<K, V>(d: Dict<K, V>, k: K, v: V)
    requires forall i :: 0 <= i < |d| ==> d[i].0 != k
    ensures Put(d, k, v) == d + [(k, v)]
  {
    HasKeyIndex(d, k);
  }

  /** A pair stored in the dict has its key present. */
  lemma {:induction false} InHasKey<K, V>(d: Dict<K, V>, k: K, v: V)
    requires (k, v) in d
    ensures HasKey(d, k)
  {
    if d[0] != (k, v) {
      assert (k, v) in d[1..];
      InHasKey(d[1..], k, v);
    }
  }

  /** In a dict without repeated keys, `d.get(k)` finds every stored pair. */
  lemma {:induction false} GetIn<K, V>(d: Dict<K, V>, k: K, v: V)
    requires Unique(d) && (k, v) in d
    ensures Get(d, k) == Some(v)
  {
    if d[0] != (k, v) {
      assert (k, v) in d[1..];
      InHasKey(d[1..], k, v);
      GetIn(d[1..], k, v);
    }
  }

  /** Assigning the same key twice keeps only the second value. */
  lemma {:induction false} PutPut<K, V>(d: Dict<K, V>, k: K, v: V, w: V)
    ensures Put(Put(d, k, v), k, w) == Put(d, k, w)
  {
    if d != [] && d[0].0 != k {
      PutPut(d[1..], k, v, w);
      assert Put(d, k, v)[1..] == Put(d[1..], k, v);
    }
  }
}
