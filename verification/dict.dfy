/** An insertion-ordered dictionary keyed by strings, as a Python `dict` is:
    assigning to a fresh key appends it, assigning to a present key replaces
    its value where it stands, and a dict literal `{a: x, **d}` is the
    successive assignment of every entry of `d` after `a`. */
module Dict {
  import opened Options

  type Dict<V> = seq<(string, V)>

  /** The keys of `d`. */
  function Keys<V>(d: Dict<V>): set<string> {
    if |d| == 0 then {} else {d[0].0} + Keys(d[1..])
  }

  /** The value stored under `k`, the first one should `d` repeat a key. */
  function Lookup<V>(d: Dict<V>, k: string): Option<V> {
    if |d| == 0 then None
    else if d[0].0 == k then Some(d[0].1)
    else Lookup(d[1..], k)
  }

  /** `d[k] = v`. */
  function Put<V>(d: Dict<V>, k: string, v: V): (r: Dict<V>)
    ensures Keys(r) == Keys(d) + {k}
    ensures Lookup(r, k) == Some(v)
    ensures forall k' :: k' != k ==> Lookup(r, k') == Lookup(d, k')
    ensures |r| == if k in Keys(d) then |d| else |d| + 1
  {
    if |d| == 0 then [(k, v)]
    else if d[0].0 == k then [(k, v)] + d[1..]
    else [d[0]] + Put(d[1..], k, v)
  }

  /** `{**d, **e}`: every entry of `e`, in order, assigned into `d`. */
  function Merge<V>(d: Dict<V>, e: Dict<V>): (r: Dict<V>)
    ensures Keys(r) == Keys(d) + Keys(e)
    ensures forall k :: k !in Keys(e) ==> Lookup(r, k) == Lookup(d, k)
    ensures UniqueKeys(e) ==> forall k :: k in Keys(e) ==> Lookup(r, k) == Lookup(e, k)
    decreases |e|
  {
    if |e| == 0 then d
    else
      var r := Merge(Put(d, e[0].0, e[0].1), e[1..]);
      assert UniqueKeys(e) ==> e[0].0 !in Keys(e[1..]) by {
        if UniqueKeys(e) && e[0].0 in Keys(e[1..]) {
          var i := KeyIndex(e[1..], e[0].0);
        }
      }
      r
  }

  /** No key occurs twice, as in any Python dict. */
  ghost predicate UniqueKeys<V>(d: Dict<V>) {
    forall i, j :: 0 <= i < j < |d| ==> d[i].0 != d[j].0
  }

  /** A position at which a present key stands. */
  lemma {:induction false} KeyIndex<V>(d: Dict<V>, k: string) returns (i: nat)
    requires k in Keys(d)
    ensures i < |d| && d[i].0 == k
  {
    if d[0].0 == k {
      i := 0;
    } else {
      var j := KeyIndex(d[1..], k);
      i := j + 1;
    }
  }

  /** Every key stored at some position is among the keys. */
  lemma {:induction false} IndexKey<V>(d: Dict<V>, i: nat)
    requires i < |d|
    ensures d[i].0 in Keys(d)
  {
    if i > 0 {
      IndexKey(d[1..], i - 1);
    }
  }

  /** A key has a value exactly when it is present. */
  lemma {:induction false} LookupPresent<V>(d: Dict<V>, k: string)
    ensures Lookup(d, k).Some? <==> k in Keys(d)
  {
    if |d| > 0 && d[0].0 != k {
      LookupPresent(d[1..], k);
    }
  }

  /** The keys of two dicts laid end to end. */
  lemma {:induction false} KeysConcat<V>(a: Dict<V>, b: Dict<V>)
    ensures Keys(a + b) == Keys(a) + Keys(b)
  {
    if |a| > 0 {
      assert (a + b)[1..] == a[1..] + b;
      KeysConcat(a[1..], b);
    } else {
      assert a + b == b;
    }
  }

  /** Looking up in two dicts laid end to end finds the first one's entry first. */
  lemma {:induction false} LookupConcat<V>(a: Dict<V>, b: Dict<V>, k: string)
    ensures Lookup(a + b, k) == if k in Keys(a) then Lookup(a, k) else Lookup(b, k)
  {
    if |a| > 0 {
      assert (a + b)[1..] == a[1..] + b;
      LookupConcat(a[1..], b, k);
    } else {
      assert a + b == b;
    }
  }

  /** Assignment appends a fresh key and overwrites a present one in place:
      every other position keeps its entry. */
  lemma {:induction false} PutPlaces<V>(d: Dict<V>, k: string, v: V)
    ensures k !in Keys(d) ==> Put(d, k, v) == d + [(k, v)]
    ensures forall i :: 0 <= i < |Put(d, k, v)| ==> Put(d, k, v)[i] == (k, v) || (i < |d| && Put(d, k, v)[i] == d[i])
  {
    if |d| > 0 && d[0].0 != k {
      PutPlaces(d[1..], k, v);
    }
  }

  /** Assignment keeps every key unique. */
  lemma {:induction false} PutUnique<V>(d: Dict<V>, k: string, v: V)
    requires UniqueKeys(d)
    ensures UniqueKeys(Put(d, k, v))
  {
    var r := Put(d, k, v);
    if |d| > 0 {
      if d[0].0 == k {
        assert forall i :: 0 <= i < |r| ==> r[i].0 == d[i].0;
      } else {
        var rest := Put(d[1..], k, v);
        PutUnique(d[1..], k, v);
        assert d[0].0 !in Keys(d[1..]) by {
          if d[0].0 in Keys(d[1..]) {
            var j := KeyIndex(d[1..], d[0].0);
          }
        }
        assert r == [d[0]] + rest;
        forall j | 0 < j < |r|
          ensures r[j].0 != r[0].0
        {
          IndexKey(rest, j - 1);
        }
      }
    }
  }
}
