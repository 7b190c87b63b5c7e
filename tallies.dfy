/** The count-by-key groupings of the dashboard effect: an object `m` updated
    with `m[k] = (m[k] || 0) + 1` once per visited document that has a key. */
module Tallies {
  import opened Wrappers
  import opened Seqs
  import opened Bookings

  /** A counting object: its keys in the order they were created, and the
      count stored under each. */
  datatype Tally<K> = Tally(keys: seq<K>, counts: map<K, nat>)

  /** The keys the callback derives from `docs`, skipping the documents for
      which `key` gives none. */
  function KeysOf<K>(docs: seq<Doc>, key: Doc -> Option<K>): seq<K>
  {
    if docs == [] then []
    else
      KeysOf(docs[..|docs| - 1], key)
      + (match key(docs[|docs| - 1]) case Some(k) => [k] case None => [])
  }

  lemma {:induction false} KeysOfAppend<K>(a: seq<Doc>, b: seq<Doc>, key: Doc -> Option<K>)
    ensures KeysOf(a + b, key) == KeysOf(a, key) + KeysOf(b, key)
    decreases |b|
  {
    if b == [] {
      assert a + b == a;
    } else {
      assert (a + b)[..|a + b| - 1] == a + b[..|b| - 1];
      KeysOfAppend(a, b[..|b| - 1], key);
    }
  }

  function CountsOf<K(==)>(ks: seq<K>): map<K, nat>
  {
    map k | k in ks :: Occurrences(ks, k)
  }

  /** The object that counting `ks` one at a time leaves. */
  function TallyOf<K(==)>(ks: seq<K>): Tally<K>
  {
    Tally(Dedup(ks), CountsOf(ks))
  }

  /** The sum of the counts stored under `keys`. */
  function SumCounts<K>(keys: seq<K>, counts: map<K, nat>): nat
  {
    if keys == [] then 0
    else
      SumCounts(keys[..|keys| - 1], counts)
      + (if keys[|keys| - 1] in counts then counts[keys[|keys| - 1]] else 0)
  }

  function Total<K>(t: Tally<K>): nat
  {
    SumCounts(t.keys, t.counts)
  }

  /** Counting the keys of the visited documents into a fresh object. */
  method CountBy<K(==)>(docs: seq<Doc>, key: Doc -> Option<K>) returns (t: Tally<K>)
    ensures t == TallyOf(KeysOf(docs, key))
  {
    var keys: seq<K> := [];
    var counts: map<K, nat> := map[];
    for i := 0 to |docs|
      invariant keys == Dedup(KeysOf(docs[..i], key))
      invariant counts == CountsOf(KeysOf(docs[..i], key))
    {
      assert docs[..i + 1][..i] == docs[..i];
      var ks := KeysOf(docs[..i], key);
      match key(docs[i]) {
        case None =>
          assert KeysOf(docs[..i + 1], key) == ks;
        case Some(k) =>
          assert KeysOf(docs[..i + 1], key) == ks + [k];
          CountsSnoc(ks, k);
          DedupSnoc(ks, k);
          OccurrencesPositive(ks, k);
          if k in counts {
            counts := counts[k := counts[k] + 1];
          } else {
            keys := keys + [k];
            counts := counts[k := 1];
          }
      }
    }
    assert docs[..|docs|] == docs;
    t := Tally(keys, counts);
  }

  lemma {:induction false} DedupSnoc<K>(ks: seq<K>, k: K)
    ensures k in Dedup(ks) <==> k in ks
    ensures Dedup(ks + [k]) == if k in ks then Dedup(ks) else Dedup(ks) + [k]
  {
    DedupSpec(ks);
    assert (ks + [k])[..|ks|] == ks;
  }

  lemma {:induction false} OccurrencesSnoc<K>(ks: seq<K>, k: K, j: K)
    ensures Occurrences(ks + [k], j) == Occurrences(ks, j) + (if j == k then 1 else 0)
  {
    assert (ks + [k])[..|ks|] == ks;
  }

  /** One more key raises its count by one, creating it at one. */
  lemma {:induction false} CountsSnoc<K>(ks: seq<K>, k: K)
    ensures k in CountsOf(ks) <==> k in ks
    ensures CountsOf(ks + [k]) == CountsOf(ks)[k := Occurrences(ks, k) + 1]
  {
    var ks' := ks + [k];
    var m, m' := CountsOf(ks), CountsOf(ks');
    var u := m[k := Occurrences(ks, k) + 1];
    forall j | j in m'
      ensures j in u && m'[j] == u[j]
    {
      OccurrencesSnoc(ks, k, j);
      if j != k {
        var i :| 0 <= i < |ks'| && ks'[i] == j;
        assert ks[i] == j;
      }
    }
    forall j | j in u
      ensures j in m'
    {
      if j != k {
        var i :| 0 <= i < |ks| && ks[i] == j;
        assert ks'[i] == j;
      } else {
        assert ks'[|ks|] == j;
      }
    }
    assert m'.Keys == u.Keys;
  }

  lemma {:induction false} SumCountsUntouched<K>(keys: seq<K>, counts: map<K, nat>, k: K, v: nat)
    requires k !in keys
    ensures SumCounts(keys, counts[k := v]) == SumCounts(keys, counts)
  {
    if keys != [] {
      SumCountsUntouched(keys[..|keys| - 1], counts, k, v);
    }
  }

  lemma {:induction false} SumCountsBump<K>(keys: seq<K>, counts: map<K, nat>, k: K)
    requires Distinct(keys) && k in keys && k in counts
    ensures SumCounts(keys, counts[k := counts[k] + 1]) == SumCounts(keys, counts) + 1
  {
    var p, x := keys[..|keys| - 1], keys[|keys| - 1];
    assert keys == p + [x];
    assert Distinct(p);
    if x == k {
      assert k !in p;
      SumCountsUntouched(p, counts, k, counts[k] + 1);
    } else {
      SumCountsBump(p, counts, k);
    }
  }

  /** What counting `ks` leaves: each key once, in first-seen order, under the
      number of times it occurs, and counts that add up to `|ks|`. */
  lemma {:induction false} TallyOfSpec<K>(ks: seq<K>)
    ensures Distinct(TallyOf(ks).keys)
    ensures forall i :: 0 <= i < |TallyOf(ks).keys| ==> TallyOf(ks).keys[i] in ks
    ensures forall k :: k in ks ==> k in TallyOf(ks).keys
    ensures forall i, j :: 0 <= i < j < |TallyOf(ks).keys| ==>
      FirstIndex(ks, TallyOf(ks).keys[i]) < FirstIndex(ks, TallyOf(ks).keys[j])
    ensures TallyOf(ks).counts.Keys == set k | k in ks
    ensures forall k :: k in TallyOf(ks).counts ==>
      TallyOf(ks).counts[k] == Occurrences(ks, k) && TallyOf(ks).counts[k] >= 1
    ensures Total(TallyOf(ks)) == |ks|
  {
    DedupSpec(ks);
    forall k | k in ks
      ensures Occurrences(ks, k) >= 1
    {
      OccurrencesPositive(ks, k);
    }
    TallyTotal(ks);
  }

  lemma {:induction false} TallyTotal<K>(ks: seq<K>)
    ensures Total(TallyOf(ks)) == |ks|
  {
    if ks != [] {
      var p, k := ks[..|ks| - 1], ks[|ks| - 1];
      assert ks == p + [k];
      TallyTotal(p);
      TallyTotalSnoc(p, k);
    }
  }

  /** Counting one more key adds one to the total. */
  lemma {:induction false} TallyTotalSnoc<K>(p: seq<K>, k: K)
    ensures Total(TallyOf(p + [k])) == Total(TallyOf(p)) + 1
  {
    if k in p {
      TotalSeenKey(p, k);
    } else {
      TotalNewKey(p, k);
    }
  }

  lemma {:induction false} TotalSeenKey<K>(p: seq<K>, k: K)
    requires k in p
    ensures SumCounts(Dedup(p + [k]), CountsOf(p + [k])) == SumCounts(Dedup(p), CountsOf(p)) + 1
  {
    DedupSnoc(p, k);
    CountsSnoc(p, k);
    DedupSpec(p);
    var counts, keys := CountsOf(p), Dedup(p);
    var keys', counts' := Dedup(p + [k]), CountsOf(p + [k]);
    assert counts[k] == Occurrences(p, k);
    assert keys' == keys;
    assert counts' == counts[k := counts[k] + 1];
    SumCountsBump(keys, counts, k);
    assert SumCounts(keys', counts') == SumCounts(keys, counts[k := counts[k] + 1]);
  }

  lemma {:induction false} TotalNewKey<K>(p: seq<K>, k: K)
    requires k !in p
    ensures SumCounts(Dedup(p + [k]), CountsOf(p + [k])) == SumCounts(Dedup(p), CountsOf(p)) + 1
  {
    DedupSnoc(p, k);
    CountsSnoc(p, k);
    OccurrencesPositive(p, k);
    var counts, keys := CountsOf(p), Dedup(p);
    assert CountsOf(p + [k]) == counts[k := 1];
    assert (keys + [k])[..|keys|] == keys;
    SumCountsUntouched(keys, counts, k, 1);
  }

  /** The keys derived from `docs` are those some document yields, and there
      are never more of them than documents. */
  lemma {:induction false} KeysOfSpec<K>(docs: seq<Doc>, key: Doc -> Option<K>)
    ensures |KeysOf(docs, key)| <= |docs|
    ensures forall i :: 0 <= i < |KeysOf(docs, key)| ==>
      exists j :: 0 <= j < |docs| && key(docs[j]) == Some(KeysOf(docs, key)[i])
    ensures forall j :: 0 <= j < |docs| && key(docs[j]).Some? ==> key(docs[j]).value in KeysOf(docs, key)
  {
    if docs != [] {
      var p := docs[..|docs| - 1];
      KeysOfSpec(p, key);
      assert forall j :: 0 <= j < |p| ==> docs[j] == p[j];
      var kp := KeysOf(p, key);
      forall i | 0 <= i < |KeysOf(docs, key)|
        ensures exists j :: 0 <= j < |docs| && key(docs[j]) == Some(KeysOf(docs, key)[i])
      {
        if i < |kp| {
          assert KeysOf(docs, key)[i] == kp[i];
          var j :| 0 <= j < |p| && key(p[j]) == Some(kp[i]);
          assert key(docs[j]) == Some(KeysOf(docs, key)[i]);
        } else {
          assert key(docs[|docs| - 1]) == Some(KeysOf(docs, key)[i]);
        }
      }
    }
  }

  /** The number of documents that `key` files under `k`. */
  function CountKey<K(==)>(docs: seq<Doc>, key: Doc -> Option<K>, k: K): nat
  {
    if docs == [] then 0
    else CountKey(docs[..|docs| - 1], key, k) + (if key(docs[|docs| - 1]) == Some(k) then 1 else 0)
  }

  /** Each key occurs among the derived keys once per document filed under it. */
  lemma {:induction false} KeysOfOccurrences<K>(docs: seq<Doc>, key: Doc -> Option<K>, k: K)
    ensures Occurrences(KeysOf(docs, key), k) == CountKey(docs, key, k)
  {
    if docs != [] {
      var p := docs[..|docs| - 1];
      KeysOfOccurrences(p, key, k);
      match key(docs[|docs| - 1]) {
        case None =>
          assert KeysOf(docs, key) == KeysOf(p, key);
        case Some(j) =>
          assert KeysOf(docs, key) == KeysOf(p, key) + [j];
          OccurrencesSnoc(KeysOf(p, key), j, k);
      }
    }
  }

  /** A document filed under `k` makes the count of `k` positive. */
  lemma {:induction false} CountKeyPositive<K>(docs: seq<Doc>, key: Doc -> Option<K>, j: nat)
    requires j < |docs| && key(docs[j]).Some?
    ensures CountKey(docs, key, key(docs[j]).value) > 0
  {
    var n := |docs| - 1;
    if j < n {
      CountKeyPositive(docs[..n], key, j);
      assert docs[..n][j] == docs[j];
    }
  }
}
