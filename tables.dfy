/** Ordered key/value tables.

    The JavaScript sources keep their dictionaries (jurisdiction tables, the sources of the
    scraper, the scrape results) as object literals and walk them with `Object.entries`,
    `Object.keys` and `Object.values`, which follow insertion order. A table is therefore
    modelled as a sequence of (key, value) entries rather than as a `map`. */
module Tables {

  datatype Option<T> = None | Some(value: T)

  /** The keys of a table, in insertion order (`Object.keys`). */
  function Keys<V>(t: seq<(string, V)>): (ks: seq<string>)
    ensures |ks| == |t|
    ensures forall i :: 0 <= i < |t| ==> ks[i] == t[i].0
  {
    if t == [] then [] else [t[0].0] + Keys(t[1..])
  }

  /** The values of a table, in insertion order (`Object.values`). */
  function Values<V>(t: seq<(string, V)>): (vs: seq<V>)
    ensures |vs| == |t|
    ensures forall i :: 0 <= i < |t| ==> vs[i] == t[i].1
  {
    if t == [] then [] else [t[0].1] + Values(t[1..])
  }

  /** No key occurs twice: what an object literal with distinct property names builds. */
  predicate DistinctKeys<V>(t: seq<(string, V)>)
  {
    forall i, j :: 0 <= i < j < |t| ==> t[i].0 != t[j].0
  }

  /** Distinct keys is a property of the key list alone. */
  lemma DistinctKeysFromKeys<V>(t: seq<(string, V)>)
    requires forall i, j :: 0 <= i < j < |Keys(t)| ==> Keys(t)[i] != Keys(t)[j]
    ensures DistinctKeys(t)
  {
    forall i, j | 0 <= i < j < |t| ensures t[i].0 != t[j].0 {
      assert Keys(t)[i] == t[i].0 && Keys(t)[j] == t[j].0;
    }
  }

  /** Property lookup `t[k]`: the value stored under `k`, or None (JavaScript `undefined`). */
  function Lookup<V>(t: seq<(string, V)>, k: string): (r: Option<V>)
    ensures r.None? <==> k !in Keys(t)
    ensures r.Some? ==> exists i :: 0 <= i < |t| && t[i] == (k, r.value)
  {
    if t == [] then None
    else if t[0].0 == k then Some(t[0].1)
    else
      var r := Lookup(t[1..], k);
      assert r.Some? ==> exists i :: 0 <= i < |t[1..]| && t[1..][i] == (k, r.value);
      assert k in Keys(t) <==> k == t[0].0 || k in Keys(t[1..]) by {
        assert Keys(t) == [t[0].0] + Keys(t[1..]);
      }
      r
  }

  /** In a table with distinct keys, the lookup of the key at position i finds that entry. */
  lemma {:induction false} LookupAt<V>(t: seq<(string, V)>, i: nat)
    requires DistinctKeys(t)
    requires i < |t|
    ensures Lookup(t, t[i].0) == Some(t[i].1)
  {
    if i > 0 {
      assert DistinctKeys(t[1..]) by {
        forall p, q | 0 <= p < q < |t[1..]| ensures t[1..][p].0 != t[1..][q].0 {
          assert t[1..][p] == t[p + 1] && t[1..][q] == t[q + 1];
        }
      }
      LookupAt(t[1..], i - 1);
      assert t[0].0 != t[i].0;
    }
  }

  /** Looking up in `a + b` sees `a` first: the spread `{...a, ...b}` of two tables whose keys
      do not clash keeps every entry of `a` unchanged. */
  lemma {:induction false} LookupAppend<V>(a: seq<(string, V)>, b: seq<(string, V)>, k: string)
    ensures Lookup(a + b, k) == if k in Keys(a) then Lookup(a, k) else Lookup(b, k)
  {
    if a == [] {
      assert a + b == b;
    } else {
      assert (a + b)[0] == a[0];
      assert (a + b)[1..] == a[1..] + b;
      assert Keys(a) == [a[0].0] + Keys(a[1..]);
      LookupAppend(a[1..], b, k);
    }
  }

  /** One step of lookup and of the key list on a table that starts with entry e. */
  lemma LookupCons<V>(e: (string, V), rest: seq<(string, V)>, k: string)
    ensures Lookup([e] + rest, k) == if e.0 == k then Some(e.1) else Lookup(rest, k)
    ensures Keys([e] + rest) == [e.0] + Keys(rest)
  {
    assert ([e] + rest)[0] == e;
    assert ([e] + rest)[1..] == rest;
  }

  /** Property assignment `t[k] = v`: replaces the value of an existing key in place, or
      appends a new entry at the end. Its meaning is stated by PutKeys and PutLookup. */
  function Put<V>(t: seq<(string, V)>, k: string, v: V): seq<(string, V)>
  {
    if t == [] then [(k, v)]
    else if t[0].0 == k then [(k, v)] + t[1..]
    else [t[0]] + Put(t[1..], k, v)
  }

  /** Assigning an existing key keeps the key list; a new key goes to the end. */
  lemma {:induction false} PutKeys<V>(t: seq<(string, V)>, k: string, v: V)
    ensures k in Keys(t) ==> Keys(Put(t, k, v)) == Keys(t)
    ensures k !in Keys(t) ==> Keys(Put(t, k, v)) == Keys(t) + [k]
  {
    if t != [] {
      assert t == [t[0]] + t[1..];
      LookupCons(t[0], t[1..], k);
      if t[0].0 == k {
        LookupCons((k, v), t[1..], k);
      } else {
        PutKeys(t[1..], k, v);
        LookupCons(t[0], Put(t[1..], k, v), k);
      }
    }
  }

  /** After `t[k] = v`, reading k gives v and every other key reads as before. */
  lemma {:induction false} PutLookup<V>(t: seq<(string, V)>, k: string, v: V, k': string)
    ensures Lookup(Put(t, k, v), k') == if k' == k then Some(v) else Lookup(t, k')
  {
    if t == [] {
      LookupCons((k, v), [], k');
    } else {
      assert t == [t[0]] + t[1..];
      LookupCons(t[0], t[1..], k');
      if t[0].0 == k {
        LookupCons((k, v), t[1..], k');
      } else {
        PutLookup(t[1..], k, v, k');
        LookupCons(t[0], Put(t[1..], k, v), k');
      }
    }
  }

  /** Assigning a key the table does not have yet appends one entry at the end. */
  lemma {:induction false} PutNew<V>(t: seq<(string, V)>, k: string, v: V)
    requires k !in Keys(t)
    ensures Put(t, k, v) == t + [(k, v)]
  {
    if t != [] {
      assert t == [t[0]] + t[1..];
      LookupCons(t[0], t[1..], k);
      PutNew(t[1..], k, v);
      assert [t[0]] + (t[1..] + [(k, v)]) == t + [(k, v)];
    }
  }

  /** The entries whose value satisfies `p`, in their original order (`Array.filter`; see
      FilterPositions). */
  function Filter<V>(t: seq<V>, p: V -> bool): (r: seq<V>)
    ensures |r| <= |t|
    ensures forall i :: 0 <= i < |r| ==> p(r[i])
    ensures forall i :: 0 <= i < |t| && p(t[i]) ==> t[i] in r
  {
    if t == [] then []
    else
      var rest := Filter(t[1..], p);
      assert forall i :: 1 <= i < |t| ==> t[i] == t[1..][i - 1];
      if p(t[0]) then [t[0]] + rest else rest
  }

  /** The positions of `t` whose entries Filter keeps, in increasing order: the filter's
      result is exactly the entries of `t` that satisfy `p`, each once, in their original
      order. */
  lemma {:induction false} FilterPositions<V>(t: seq<V>, p: V -> bool) returns (ix: seq<int>)
    ensures PositionsOf(t, Filter(t, p), ix)
    ensures Increasing(ix)
    ensures forall i :: 0 <= i < |t| && p(t[i]) ==> i in ix
  {
    if t == [] {
      return [];
    }
    var rest := FilterPositions(t[1..], p);
    if p(t[0]) {
      ix := [0] + Shifted(rest);
    } else {
      ix := Shifted(rest);
    }
    FilterCons(t, p);
    StepPositions(t, p(t[0]), Filter(t, p), Filter(t[1..], p), rest, ix);
    FilterStepComplete(t, p, rest, ix);
  }

  /** `r` is the entries of `t` at the positions `ix`, one for one. */
  ghost predicate PositionsOf<V>(t: seq<V>, r: seq<V>, ix: seq<int>)
  {
    && |ix| == |r|
    && forall k :: 0 <= k < |ix| ==> 0 <= ix[k] < |t| && r[k] == t[ix[k]]
  }

  /** Positions listed in strictly increasing order. */
  predicate Increasing(ix: seq<int>)
  {
    forall k, l :: 0 <= k < l < |ix| ==> ix[k] < ix[l]
  }

  /** Every position moved one further along; the order is kept. */
  function Shifted(ix: seq<int>): (s: seq<int>)
    ensures |s| == |ix|
    ensures forall k :: 0 <= k < |ix| ==> s[k] == ix[k] + 1
    ensures Increasing(ix) ==> Increasing(s)
    ensures Increasing(ix) && (forall k :: 0 <= k < |ix| ==> 0 <= ix[k]) ==> Increasing([0] + s)
  {
    seq(|ix|, k requires 0 <= k < |ix| => ix[k] + 1)
  }

  /** The first entry is kept exactly when it satisfies `p`; the rest are filtered in turn. */
  lemma FilterCons<V>(t: seq<V>, p: V -> bool)
    requires t != []
    ensures Filter(t, p) == (if p(t[0]) then [t[0]] else []) + Filter(t[1..], p)
  {
  }

  /** Positions of the tail's kept entries, shifted past the head, are positions in `t`. */
  lemma StepPositions<V>(t: seq<V>, keep: bool, r: seq<V>, r': seq<V>, rest: seq<int>,
                         ix: seq<int>)
    requires t != [] && PositionsOf(t[1..], r', rest)
    requires r == (if keep then [t[0]] else []) + r'
    requires ix == (if keep then [0] else []) + Shifted(rest)
    ensures PositionsOf(t, r, ix)
  {
    var h := if keep then 1 else 0;
    forall k | 0 <= k < |ix| ensures 0 <= ix[k] < |t| && r[k] == t[ix[k]] {
      if k >= h {
        assert ix[k] == rest[k - h] + 1 && r[k] == r'[k - h];
        assert t[1..][rest[k - h]] == t[rest[k - h] + 1];
      }
    }
  }

  /** Every satisfying position of `t` is listed once the tail's are. */
  lemma FilterStepComplete<V>(t: seq<V>, p: V -> bool, rest: seq<int>, ix: seq<int>)
    requires t != [] && forall i :: 0 <= i < |t[1..]| && p(t[1..][i]) ==> i in rest
    requires ix == (if p(t[0]) then [0] else []) + Shifted(rest)
    ensures forall i :: 0 <= i < |t| && p(t[i]) ==> i in ix
  {
    var h := if p(t[0]) then 1 else 0;
    forall i | 0 <= i < |t| && p(t[i]) ensures i in ix {
      if i > 0 {
        assert t[1..][i - 1] == t[i];
        var k :| 0 <= k < |rest| && rest[k] == i - 1;
        assert ix[k + h] == i;
      }
    }
  }

  /** Filtering a concatenation concatenates the filtered parts. */
  lemma {:induction false} FilterAppend<V>(a: seq<V>, b: seq<V>, p: V -> bool)
    ensures Filter(a + b, p) == Filter(a, p) + Filter(b, p)
  {
    if a == [] {
      assert a + b == b;
    } else {
      assert (a + b)[0] == a[0];
      assert (a + b)[1..] == a[1..] + b;
      FilterAppend(a[1..], b, p);
    }
  }
}
