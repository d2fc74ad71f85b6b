/** JavaScript's insertion-ordered `Map` with integer keys. */
module OrderedMap {

  datatype Slot<+V> = Slot(key: int, value: V)

  function Keys<V>(m: seq<Slot<V>>): (keys: seq<int>)
    ensures |keys| == |m| && forall i :: 0 <= i < |m| ==> keys[i] == m[i].key
  {
    if m == [] then [] else [m[0].key] + Keys(m[1..])
  }

  function Has<V>(m: seq<Slot<V>>, k: int): bool {
    m != [] && (m[0].key == k || Has(m[1..], k))
  }

  function Get<V>(m: seq<Slot<V>>, k: int, default: V): V {
    if m == [] then default
    else if m[0].key == k then m[0].value
    else Get(m[1..], k, default)
  }

  /** Replaces the value of a known key in place; a new key goes to the end. */
  function Put<V>(m: seq<Slot<V>>, k: int, v: V): (r: seq<Slot<V>>)
    ensures r != []
  {
    if m == [] then [Slot(k, v)]
    else if m[0].key == k then [Slot(k, v)] + m[1..]
    else [m[0]] + Put(m[1..], k, v)
  }

  lemma {:induction false} HasKeys<V>(m: seq<Slot<V>>, k: int)
    ensures Has(m, k) <==> k in Keys(m)
  {
    if m != [] {
      HasKeys(m[1..], k);
    }
  }

  lemma {:induction false} GetPut<V>(m: seq<Slot<V>>, k: int, v: V, j: int, default: V)
    ensures Get(Put(m, k, v), j, default) == if j == k then v else Get(m, j, default)
    ensures Has(Put(m, k, v), j) <==> j == k || Has(m, j)
  {
    if m != [] && m[0].key != k {
      GetPut(m[1..], k, v, j, default);
      assert Put(m, k, v)[1..] == Put(m[1..], k, v);
    } else if m != [] {
      assert Put(m, k, v)[1..] == m[1..];
    }
  }

  lemma {:induction false} KeysPut<V>(m: seq<Slot<V>>, k: int, v: V)
    ensures Keys(Put(m, k, v)) == if k in Keys(m) then Keys(m) else Keys(m) + [k]
  {
    if m != [] && m[0].key != k {
      KeysPut(m[1..], k, v);
      assert Put(m, k, v)[1..] == Put(m[1..], k, v);
    } else if m != [] {
      assert Put(m, k, v)[1..] == m[1..];
    }
  }

  /** A second write to a key overwrites the first. */
  lemma {:induction false} PutTwice<V>(m: seq<Slot<V>>, k: int, v: V, w: V)
    ensures Put(Put(m, k, v), k, w) == Put(m, k, w)
  {
    if m != [] && m[0].key != k {
      PutTwice(m[1..], k, v, w);
      assert Put(m, k, v)[1..] == Put(m[1..], k, v);
    } else if m != [] {
      assert Put(m, k, v)[1..] == m[1..];
    }
  }

  /** Writing back what is there changes nothing. */
  lemma {:induction false} PutSame<V>(m: seq<Slot<V>>, k: int, default: V)
    requires Has(m, k)
    ensures Put(m, k, Get(m, k, default)) == m
  {
    if m[0].key != k {
      PutSame(m[1..], k, default);
    }
  }

  function Remove<V(!new)>(m: seq<Slot<V>>, k: int): (r: seq<Slot<V>>)
    ensures forall slot :: slot in r <==> slot in m && slot.key != k
  {
    if m == [] then []
    else
      assert m == [m[0]] + m[1..];
      (if m[0].key == k then [] else [m[0]]) + Remove(m[1..], k)
  }

  /** A key is present exactly when some slot carries it, and what it maps to is in such a slot. */
  lemma {:induction false} HasSlot<V>(m: seq<Slot<V>>, k: int, default: V)
    ensures Has(m, k) <==> exists slot :: slot in m && slot.key == k
    ensures Has(m, k) ==> Slot(k, Get(m, k, default)) in m
  {
    if m != [] {
      HasSlot(m[1..], k, default);
      assert m == [m[0]] + m[1..];
      if m[0].key == k {
        assert m[0] in m && m[0] == Slot(k, Get(m, k, default));
      }
    }
  }

  lemma {:induction false} PutSlots<V>(m: seq<Slot<V>>, k: int, v: V)
    ensures forall slot :: slot in Put(m, k, v) ==> slot in m || slot == Slot(k, v)
  {
    if m != [] {
      assert m == [m[0]] + m[1..];
      PutSlots(m[1..], k, v);
    }
  }

  lemma {:induction false} HasRemove<V(!new)>(m: seq<Slot<V>>, k: int, j: int, default: V)
    ensures Has(Remove(m, k), j) <==> Has(m, j) && j != k
    ensures j != k ==> Get(Remove(m, k), j, default) == Get(m, j, default)
  {
    if m != [] {
      HasRemove(m[1..], k, j, default);
      if m[0].key != k {
        assert Remove(m, k) == [m[0]] + Remove(m[1..], k);
        assert Remove(m, k)[1..] == Remove(m[1..], k);
      } else {
        assert Remove(m, k) == Remove(m[1..], k);
      }
    }
  }
}
