/**
 * Plain JavaScript objects with string keys, as the settings page uses them: a
 * sequence of properties in insertion order (the order `Object.entries` reports),
 * read by key, and updated by the spread `{...obj, [key]: value}`, which rewrites
 * an existing property where it stands and appends a new one at the end.
 */
module Records {
  import opened Collections

  /** One own property of an object. */
  datatype Entry<V> = Entry(key: string, value: V)

  type Record<V> = seq<Entry<V>>

  /** The keys in insertion order: `Object.keys(obj)`. */
  function Keys<V>(r: Record<V>): seq<string> {
    if r == [] then [] else [r[0].key] + Keys(r[1..])
  }

  predicate HasKey<V>(r: Record<V>, k: string) {
    exists i :: 0 <= i < |r| && r[i].key == k
  }

  /** An object never has two properties with the same key. */
  predicate UniqueKeys<V>(r: Record<V>) {
    forall i, j :: 0 <= i < j < |r| ==> r[i].key != r[j].key
  }

  /** `obj[k]`: the value of the property `k`, or `None` where JavaScript gives `undefined`. */
  function Lookup<V>(r: Record<V>, k: string): (o: Option<V>)
    ensures o.Some? <==> HasKey(r, k)
    ensures o.Some? ==> exists i :: 0 <= i < |r| && r[i] == Entry(k, o.value)
  {
    if r == [] then None
    else if r[0].key == k then Some(r[0].value)
    else
      var o := Lookup(r[1..], k);
      assert forall i :: 0 <= i < |r[1..]| ==> r[1..][i] == r[i + 1];
      assert HasKey(r, k) ==> HasKey(r[1..], k) by {
        if HasKey(r, k) {
          var i :| 0 <= i < |r| && r[i].key == k;
          assert r[1..][i - 1].key == k;
        }
      }
      o
  }

  /** `{...r, [k]: v}`. */
  function Put<V>(r: Record<V>, k: string, v: V): (r': Record<V>)
    ensures HasKey(r, k) ==> |r'| == |r|
    ensures !HasKey(r, k) ==> r' == r + [Entry(k, v)]
    ensures forall e :: e in r' ==> e in r || e == Entry(k, v)
  {
    if r == [] then [Entry(k, v)]
    else if r[0].key == k then [Entry(k, v)] + r[1..]
    else
      assert HasKey(r, k) <==> HasKey(r[1..], k) by {
        if HasKey(r, k) {
          var i :| 0 <= i < |r| && r[i].key == k;
          assert r[1..][i - 1].key == k;
        }
        if HasKey(r[1..], k) {
          var i :| 0 <= i < |r[1..]| && r[1..][i].key == k;
          assert r[i + 1].key == k;
        }
      }
      [r[0]] + Put(r[1..], k, v)
  }

  /** The object as a finite map, the view the spread update is meant to have. */
  function AsMap<V>(r: Record<V>): map<string, V> {
    if r == [] then map[] else AsMap(r[1..])[r[0].key := r[0].value]
  }

  /** Reading a key of the ordered record agrees with its map view. */
  lemma {:induction false} LookupAsMap<V>(r: Record<V>, k: string)
    requires UniqueKeys(r)
    ensures Lookup(r, k) == if k in AsMap(r) then Some(AsMap(r)[k]) else None
  {
    if r != [] {
      assert UniqueKeys(r[1..]) by {
        assert forall i :: 0 <= i < |r[1..]| ==> r[1..][i] == r[i + 1];
      }
      LookupAsMap(r[1..], k);
    }
  }

  /** After the update the key reads as the new value. */
  lemma {:induction false} PutLookupSame<V>(r: Record<V>, k: string, v: V)
    ensures Lookup(Put(r, k, v), k) == Some(v)
  {
    if r != [] && r[0].key != k {
      PutLookupSame(r[1..], k, v);
    }
  }

  /** Every other key reads as before. */
  lemma {:induction false} PutLookupOther<V>(r: Record<V>, k: string, v: V, k': string)
    requires k' != k
    ensures Lookup(Put(r, k, v), k') == Lookup(r, k')
  {
    if r != [] && r[0].key != k {
      PutLookupOther(r[1..], k, v, k');
    }
  }

  /** Writing the same value twice is the same as writing it once. */
  lemma {:induction false} PutIdempotent<V>(r: Record<V>, k: string, v: V)
    ensures Put(Put(r, k, v), k, v) == Put(r, k, v)
  {
    if r != [] && r[0].key != k {
      PutIdempotent(r[1..], k, v);
    }
  }

  /** An existing key keeps its place; a new key is appended; no other key moves. */
  lemma {:induction false} PutKeys<V>(r: Record<V>, k: string, v: V)
    ensures Keys(Put(r, k, v)) == if HasKey(r, k) then Keys(r) else Keys(r) + [k]
  {
    if r == [] {
    } else if r[0].key == k {
      assert Put(r, k, v)[1..] == r[1..];
      assert HasKey(r, k);
    } else {
      PutKeys(r[1..], k, v);
      var r' := Put(r, k, v);
      assert r'[1..] == Put(r[1..], k, v);
      assert HasKey(r, k) <==> HasKey(r[1..], k) by {
        if HasKey(r, k) {
          var i :| 0 <= i < |r| && r[i].key == k;
          assert r[1..][i - 1].key == k;
        }
        if HasKey(r[1..], k) {
          var i :| 0 <= i < |r[1..]| && r[1..][i].key == k;
          assert r[i + 1].key == k;
        }
      }
      if !HasKey(r, k) {
        assert Keys(r) + [k] == [r[0].key] + (Keys(r[1..]) + [k]);
      }
    }
  }

  /** The update keeps keys unique. */
  lemma PutUnique<V>(r: Record<V>, k: string, v: V)
    requires UniqueKeys(r)
    ensures UniqueKeys(Put(r, k, v))
  {
    var r' := Put(r, k, v);
    PutKeys(r, k, v);
    KeysAt(r);
    KeysAt(r');
  }

  lemma {:induction false} KeysAt<V>(r: Record<V>)
    ensures |Keys(r)| == |r|
    ensures forall i :: 0 <= i < |r| ==> Keys(r)[i] == r[i].key
  {
    if r != [] {
      KeysAt(r[1..]);
    }
  }

  /** Seen as a map, the spread update is exactly a map update. */
  lemma PutAsMap<V>(r: Record<V>, k: string, v: V)
    requires UniqueKeys(r)
    ensures AsMap(Put(r, k, v)) == AsMap(r)[k := v]
  {
    var r' := Put(r, k, v);
    PutUnique(r, k, v);
    forall x ensures (x in AsMap(r') <==> x in AsMap(r)[k := v])
      && (x in AsMap(r') ==> AsMap(r')[x] == AsMap(r)[k := v][x])
    {
      LookupAsMap(r', x);
      LookupAsMap(r, x);
      if x == k {
        PutLookupSame(r, k, v);
      } else {
        PutLookupOther(r, k, v, x);
      }
    }
  }
}
