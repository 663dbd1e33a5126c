/**
  A string-keyed record used as a dictionary, as the dashboards use plain
  objects: keys keep the order of their first insertion, and assigning an
  existing key replaces its value in place. (Keys that look like array
  indices, which objects order first, are not modelled.)
 */
module Dict {
  import opened Wrappers
  import opened Seqs

  datatype Entry<V> = Entry(key: string, val: V)

  type Dict<V> = seq<Entry<V>>

  /** `Object.keys(m)` */
  function Keys<V>(m: Dict<V>): seq<string> {
    seq(|m|, i requires 0 <= i < |m| => m[i].key)
  }

  predicate Valid<V>(m: Dict<V>) {
    NoDup(Keys(m))
  }

  /** `m[k]`, `None` for `undefined`. */
  function Get<V>(m: Dict<V>, k: string): Option<V> {
    if m == [] then None
    else if m[0].key == k then Some(m[0].val)
    else Get(m[1..], k)
  }

  /** `m[k] = v` */
  function Put<V>(m: Dict<V>, k: string, v: V): Dict<V> {
    if m == [] then [Entry(k, v)]
    else if m[0].key == k then [Entry(k, v)] + m[1..]
    else [m[0]] + Put(m[1..], k, v)
  }

  lemma KeysTail<V>(m: Dict<V>)
    requires m != []
    ensures Keys(m) == [m[0].key] + Keys(m[1..])
  {
  }

  /** The rest of a valid dictionary is valid, and does not hold its first key. */
  lemma ValidTail<V>(m: Dict<V>)
    requires Valid(m) && m != []
    ensures Valid(m[1..])
    ensures m[0].key !in Keys(m[1..])
  {
    KeysTail(m);
    var ks, ts := Keys(m), Keys(m[1..]);
    forall i, j | 0 <= i < j < |ts| ensures ts[i] != ts[j] {
      assert ts[i] == ks[i + 1] && ts[j] == ks[j + 1];
    }
    forall j | 0 <= j < |ts| ensures ts[j] != m[0].key {
      assert ts[j] == ks[j + 1] && ks[0] == m[0].key;
    }
  }

  lemma {:induction false} GetPresent<V>(m: Dict<V>, k: string)
    ensures Get(m, k).Some? <==> k in Keys(m)
  {
    if m != [] {
      KeysTail(m);
      GetPresent(m[1..], k);
    }
  }

  /** In a valid dictionary every entry is what its key reads. */
  lemma {:induction false} GetEntry<V>(m: Dict<V>, i: nat)
    requires Valid(m) && i < |m|
    ensures Get(m, m[i].key) == Some(m[i].val)
  {
    if i > 0 {
      KeysTail(m);
      ValidTail(m);
      assert Keys(m)[0] != Keys(m)[i];
      GetEntry(m[1..], i - 1);
    }
  }

  /** Assignment keeps an existing key in its position and appends a new one. */
  lemma {:induction false} PutKeys<V>(m: Dict<V>, k: string, v: V)
    ensures Keys(Put(m, k, v)) == if k in Keys(m) then Keys(m) else Keys(m) + [k]
  {
    if m != [] {
      KeysTail(m);
      var p := Put(m, k, v);
      KeysTail(p);
      if m[0].key == k {
        assert p[1..] == m[1..];
      } else {
        PutKeys(m[1..], k, v);
        assert p[1..] == Put(m[1..], k, v);
      }
    }
  }

  /** After assignment the key reads the new value and every other key reads as before. */
  lemma {:induction false} PutGet<V>(m: Dict<V>, k: string, v: V, k': string)
    ensures Get(Put(m, k, v), k') == if k' == k then Some(v) else Get(m, k')
  {
    if m != [] {
      var p := Put(m, k, v);
      if m[0].key == k {
        assert p[1..] == m[1..];
      } else {
        PutGet(m[1..], k, v, k');
        assert p[1..] == Put(m[1..], k, v);
      }
    }
  }

  /**
    Assignment: the key then reads the new value, every other key reads as
    before, an existing key keeps its position and a new key is appended.
   */
  lemma PutSpec<V>(m: Dict<V>, k: string, v: V)
    requires Valid(m)
    ensures Valid(Put(m, k, v))
    ensures Keys(Put(m, k, v)) == if k in Keys(m) then Keys(m) else Keys(m) + [k]
    ensures forall k' :: Get(Put(m, k, v), k') == if k' == k then Some(v) else Get(m, k')
  {
    PutKeys(m, k, v);
    forall k' ensures Get(Put(m, k, v), k') == if k' == k then Some(v) else Get(m, k') {
      PutGet(m, k, v, k');
    }
    if k !in Keys(m) {
      var ks, ps := Keys(m), Keys(m) + [k];
      forall i, j | 0 <= i < j < |ps| ensures ps[i] != ps[j] {
        if j == |ks| {
          assert ps[i] == ks[i];
        } else {
          assert ps[i] == ks[i] && ps[j] == ks[j];
        }
      }
    }
  }
}
