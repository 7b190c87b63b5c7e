/** The order in which `Object.keys` and `Object.values` enumerate a counting
    object (OrdinaryOwnPropertyKeys in ECMA-262): keys that are array indices
    first, in ascending numeric order, then the other string keys in the order
    they were created. The charts read their labels and data in that order. */
module JsObjects {
  import opened Wrappers
  import opened Seqs
  import opened Bookings
  import opened Tallies

  /** The largest array index, 2^32 - 2. */
  const MaxIndex: nat := 0xFFFF_FFFE

  /** The array index a year key denotes once the object has turned it into a
      property name: a non-negative year is written as a canonical numeral. */
  function YearIndex(y: int): Option<nat>
  {
    if 0 <= y <= MaxIndex then Some(y) else None
  }

  predicate IsDigit(c: char)
  {
    '0' <= c <= '9'
  }

  function DigitsValue(s: string): nat
  {
    if s == [] then 0
    else DigitsValue(s[..|s| - 1]) * 10 + (if IsDigit(s[|s| - 1]) then s[|s| - 1] as int - '0' as int else 0)
  }

  /** The array index a string key denotes: a canonical decimal numeral (no
      leading zero except "0" itself) not above `MaxIndex`. */
  function StringIndex(s: string): Option<nat>
  {
    if |s| > 0 && (forall i :: 0 <= i < |s| ==> IsDigit(s[i])) && (s[0] != '0' || |s| == 1)
       && DigitsValue(s) <= MaxIndex
    then Some(DigitsValue(s))
    else None
  }

  function Rank<K>(index: K -> Option<nat>, k: K): nat
  {
    match index(k)
    case Some(n) => n
    case None => 0
  }

  /** `k` placed before the first key of `s` with a larger index. */
  function Insert<K>(s: seq<K>, k: K, index: K -> Option<nat>): seq<K>
  {
    if s == [] then [k]
    else if Rank(index, k) < Rank(index, s[0]) then [k] + s
    else [s[0]] + Insert(s[1..], k, index)
  }

  /** The array-index keys of `ks`, sorted by index. */
  function IndexKeys<K>(ks: seq<K>, index: K -> Option<nat>): seq<K>
  {
    if ks == [] then []
    else
      var sorted := IndexKeys(ks[..|ks| - 1], index);
      if index(ks[|ks| - 1]).Some? then Insert(sorted, ks[|ks| - 1], index) else sorted
  }

  /** The other keys of `ks`, in their order. */
  function OtherKeys<K>(ks: seq<K>, index: K -> Option<nat>): seq<K>
  {
    if ks == [] then []
    else OtherKeys(ks[..|ks| - 1], index) + (if index(ks[|ks| - 1]).None? then [ks[|ks| - 1]] else [])
  }

  /** `Object.keys` of an object whose keys were created in the order `ks`. */
  function ObjectKeys<K>(ks: seq<K>, index: K -> Option<nat>): seq<K>
  {
    IndexKeys(ks, index) + OtherKeys(ks, index)
  }

  ghost predicate Ascending<K>(s: seq<K>, index: K -> Option<nat>)
  {
    && (forall i :: 0 <= i < |s| ==> index(s[i]).Some?)
    && (forall i, j :: 0 <= i < j < |s| ==> Rank(index, s[i]) <= Rank(index, s[j]))
  }

  lemma {:induction false} InsertMultiset<K>(s: seq<K>, k: K, index: K -> Option<nat>)
    ensures multiset(Insert(s, k, index)) == multiset(s) + multiset{k}
  {
    if s != [] && Rank(index, k) >= Rank(index, s[0]) {
      InsertMultiset(s[1..], k, index);
      assert s == [s[0]] + s[1..];
    }
  }

  lemma {:induction false} InsertSpec<K>(s: seq<K>, k: K, index: K -> Option<nat>)
    requires Ascending(s, index) && index(k).Some?
    ensures Ascending(Insert(s, k, index), index)
  {
    if s != [] && Rank(index, k) >= Rank(index, s[0]) {
      var tail := s[1..];
      AscendingTail(s, index);
      InsertSpec(tail, k, index);
      InsertMultiset(tail, k, index);
      assert s == [s[0]] + tail;
      var rest := Insert(tail, k, index);
      assert Insert(s, k, index) == [s[0]] + rest;
      InsertAfterHead(s[0], tail, rest, k, index);
    } else if s != [] {
      InsertBeforeHead(s, k, index);
    }
  }

  lemma AscendingTail<K>(s: seq<K>, index: K -> Option<nat>)
    requires Ascending(s, index) && s != []
    ensures Ascending(s[1..], index)
  {
    assert forall i :: 0 <= i < |s[1..]| ==> s[1..][i] == s[i + 1];
  }

  lemma {:induction false} InsertBeforeHead<K>(s: seq<K>, k: K, index: K -> Option<nat>)
    requires Ascending(s, index) && index(k).Some? && s != []
    requires Rank(index, k) < Rank(index, s[0])
    ensures Ascending([k] + s, index)
  {
    var r := [k] + s;
    forall i, j | 0 <= i < j < |r|
      ensures Rank(index, r[i]) <= Rank(index, r[j])
    {
      assert r[j] == s[j - 1];
      if i > 0 {
        assert r[i] == s[i - 1];
      } else {
        assert Rank(index, s[0]) <= Rank(index, s[j - 1]);
      }
    }
    forall i | 0 <= i < |r|
      ensures index(r[i]).Some?
    {
      if i > 0 {
        assert r[i] == s[i - 1];
      }
    }
  }

  /** The step of InsertSpec: a head no larger than anything after it. */
  lemma {:induction false} InsertAfterHead<K>(h: K, tail: seq<K>, rest: seq<K>, k: K, index: K -> Option<nat>)
    requires Ascending([h] + tail, index) && Ascending(rest, index)
    requires multiset(rest) == multiset(tail) + multiset{k}
    requires Rank(index, h) <= Rank(index, k)
    ensures Ascending([h] + rest, index)
  {
    var s, r := [h] + tail, [h] + rest;
    forall j | 0 <= j < |rest|
      ensures Rank(index, h) <= Rank(index, rest[j])
    {
      var x := rest[j];
      assert x in multiset(rest);
      if x != k {
        assert x in multiset(tail);
        var m :| 0 <= m < |tail| && tail[m] == x;
        assert s[m + 1] == x && s[0] == h;
      }
    }
    forall i, j | 0 <= i < j < |r|
      ensures Rank(index, r[i]) <= Rank(index, r[j])
    {
      assert r[j] == rest[j - 1];
      if i > 0 {
        assert r[i] == rest[i - 1];
      }
    }
    forall i | 0 <= i < |r|
      ensures index(r[i]).Some?
    {
      if i > 0 {
        assert r[i] == rest[i - 1];
      } else {
        assert s[0] == h;
      }
    }
  }

  /** `Object.keys` lists every key once: a permutation of the creation
      order whose index keys come first, ascending, and whose other keys are
      never array indices and keep their creation order: they sit at the
      increasing positions `OtherPositions` of `ks`, which are exactly the
      positions of its non-index keys. */
  lemma ObjectKeysSpec<K>(ks: seq<K>, index: K -> Option<nat>)
    ensures multiset(ObjectKeys(ks, index)) == multiset(ks)
    ensures Ascending(IndexKeys(ks, index), index)
    ensures forall i :: 0 <= i < |OtherKeys(ks, index)| ==> index(OtherKeys(ks, index)[i]).None?
    ensures |OtherPositions(ks, index)| == |OtherKeys(ks, index)|
    ensures forall i :: 0 <= i < |OtherPositions(ks, index)| ==>
      OtherPositions(ks, index)[i] < |ks| && ks[OtherPositions(ks, index)[i]] == OtherKeys(ks, index)[i]
    ensures forall i, j :: 0 <= i < j < |OtherPositions(ks, index)| ==> OtherPositions(ks, index)[i] < OtherPositions(ks, index)[j]
    ensures forall j :: 0 <= j < |ks| && index(ks[j]).None? ==> j in OtherPositions(ks, index)
  {
    IndexKeysSpec(ks, index);
    OtherKeysSpec(ks, index);
    SplitMultiset(ks, index);
    OtherKeysOrder(ks, index);
  }

  /** The positions in `ks` of the keys that are not array indices. */
  ghost function OtherPositions<K>(ks: seq<K>, index: K -> Option<nat>): seq<nat>
  {
    if ks == [] then []
    else OtherPositions(ks[..|ks| - 1], index) + (if index(ks[|ks| - 1]).None? then [|ks| - 1] else [])
  }

  /** The non-index keys are taken from `ks` in their order, and none is
      skipped. */
  lemma {:induction false} OtherKeysOrder<K>(ks: seq<K>, index: K -> Option<nat>)
    ensures |OtherPositions(ks, index)| == |OtherKeys(ks, index)|
    ensures forall i :: 0 <= i < |OtherPositions(ks, index)| ==>
      OtherPositions(ks, index)[i] < |ks| && ks[OtherPositions(ks, index)[i]] == OtherKeys(ks, index)[i]
    ensures forall i, j :: 0 <= i < j < |OtherPositions(ks, index)| ==> OtherPositions(ks, index)[i] < OtherPositions(ks, index)[j]
    ensures forall j :: 0 <= j < |ks| && index(ks[j]).None? ==> j in OtherPositions(ks, index)
  {
    if ks != [] {
      var n := |ks| - 1;
      var p := ks[..n];
      OtherKeysOrder(p, index);
      var pp, po := OtherPositions(p, index), OtherKeys(p, index);
      assert forall i :: 0 <= i < |pp| ==> OtherPositions(ks, index)[i] == pp[i];
      assert forall i :: 0 <= i < |po| ==> OtherKeys(ks, index)[i] == po[i];
      assert forall i :: 0 <= i < |pp| ==> ks[pp[i]] == p[pp[i]];
    }
  }

  lemma {:induction false} IndexKeysSpec<K>(ks: seq<K>, index: K -> Option<nat>)
    ensures Ascending(IndexKeys(ks, index), index)
    ensures multiset(IndexKeys(ks, index)) == multiset(Keep(ks, index))
  {
    if ks != [] {
      var p, k := ks[..|ks| - 1], ks[|ks| - 1];
      IndexKeysSpec(p, index);
      if index(k).Some? {
        InsertSpec(IndexKeys(p, index), k, index);
        InsertMultiset(IndexKeys(p, index), k, index);
      }
    }
  }

  /** The array-index keys of `ks` in their creation order. */
  function Keep<K>(ks: seq<K>, index: K -> Option<nat>): seq<K>
  {
    if ks == [] then []
    else Keep(ks[..|ks| - 1], index) + (if index(ks[|ks| - 1]).Some? then [ks[|ks| - 1]] else [])
  }

  lemma {:induction false} OtherKeysSpec<K>(ks: seq<K>, index: K -> Option<nat>)
    ensures forall i :: 0 <= i < |OtherKeys(ks, index)| ==> index(OtherKeys(ks, index)[i]).None?
  {
    if ks != [] {
      var p := ks[..|ks| - 1];
      OtherKeysSpec(p, index);
      var o := OtherKeys(p, index);
      assert forall i :: 0 <= i < |o| ==> OtherKeys(ks, index)[i] == o[i];
    }
  }

  lemma {:induction false} SplitMultiset<K>(ks: seq<K>, index: K -> Option<nat>)
    ensures multiset(Keep(ks, index)) + multiset(OtherKeys(ks, index)) == multiset(ks)
  {
    if ks != [] {
      var p, k := ks[..|ks| - 1], ks[|ks| - 1];
      assert ks == p + [k];
      SplitMultiset(p, index);
      SplitStep(p, k, index);
    }
  }

  lemma {:induction false} SplitStep<K>(p: seq<K>, k: K, index: K -> Option<nat>)
    ensures multiset(Keep(p + [k], index)) + multiset(OtherKeys(p + [k], index))
      == multiset(Keep(p, index)) + multiset(OtherKeys(p, index)) + multiset{k}
  {
    assert (p + [k])[..|p|] == p;
  }

  /** When no key is an array index, `Object.keys` is the creation order. */
  lemma {:induction false} NoIndexKeepsOrder<K>(ks: seq<K>, index: K -> Option<nat>)
    requires forall i :: 0 <= i < |ks| ==> index(ks[i]).None?
    ensures ObjectKeys(ks, index) == ks
  {
    if ks != [] {
      NoIndexKeepsOrder(ks[..|ks| - 1], index);
      assert ks == ks[..|ks| - 1] + [ks[|ks| - 1]];
    }
  }

  /** The data behind one chart: `Object.keys(m)` and `Object.values(m)`. */
  datatype Chart<K> = Chart(labels: seq<K>, values: seq<nat>)

  function Values<K>(labels: seq<K>, counts: map<K, nat>): seq<nat>
  {
    if labels == [] then []
    else Values(labels[..|labels| - 1], counts) + [if labels[|labels| - 1] in counts then counts[labels[|labels| - 1]] else 0]
  }

  /** `Object.keys(m)` and `Object.values(m)` of the counting object `t`:
      one datum per label. */
  function ChartOf<K>(t: Tally<K>, index: K -> Option<nat>): (c: Chart<K>)
    ensures |c.labels| == |c.values|
  {
    var labels := ObjectKeys(t.keys, index);
    ValuesSpec(labels, t.counts);
    Chart(labels, Values(labels, t.counts))
  }

  /** In `Object.keys` order no array-index key follows a key that is not
      one, and the index keys ascend. */
  lemma IndexKeysFirst<K>(ks: seq<K>, index: K -> Option<nat>)
    ensures var labels := ObjectKeys(ks, index);
      forall i, j :: 0 <= i < j < |labels| && index(labels[j]).Some? ==>
        index(labels[i]).Some? && Rank(index, labels[i]) <= Rank(index, labels[j])
  {
    var a, b := IndexKeys(ks, index), OtherKeys(ks, index);
    var labels := a + b;
    ObjectKeysSpec(ks, index);
    forall i, j | 0 <= i < j < |labels| && index(labels[j]).Some?
      ensures index(labels[i]).Some? && Rank(index, labels[i]) <= Rank(index, labels[j])
    {
      if j < |a| {
        assert labels[i] == a[i] && labels[j] == a[j];
      } else {
        assert false;
      }
    }
  }

  function Sum(xs: seq<nat>): nat
  {
    if xs == [] then 0 else Sum(xs[..|xs| - 1]) + xs[|xs| - 1]
  }

  lemma {:induction false} ValuesSpec<K>(labels: seq<K>, counts: map<K, nat>)
    ensures |Values(labels, counts)| == |labels|
    ensures forall i :: 0 <= i < |labels| && labels[i] in counts ==> Values(labels, counts)[i] == counts[labels[i]]
    ensures Sum(Values(labels, counts)) == SumCounts(labels, counts)
  {
    if labels != [] {
      ValuesSpec(labels[..|labels| - 1], counts);
      assert Values(labels, counts)[..|labels| - 1] == Values(labels[..|labels| - 1], counts);
    }
  }

  lemma {:induction false} SumCountsAppend<K>(a: seq<K>, b: seq<K>, counts: map<K, nat>)
    ensures SumCounts(a + b, counts) == SumCounts(a, counts) + SumCounts(b, counts)
    decreases |b|
  {
    if b == [] {
      assert a + b == a;
    } else {
      assert (a + b)[..|a + b| - 1] == a + b[..|b| - 1];
      SumCountsAppend(a, b[..|b| - 1], counts);
    }
  }

  lemma {:induction false} SumCountsPermutation<K>(a: seq<K>, b: seq<K>, counts: map<K, nat>)
    requires multiset(a) == multiset(b)
    ensures SumCounts(a, counts) == SumCounts(b, counts)
    decreases |a|
  {
    if a == [] {
      assert |multiset(b)| == 0;
    } else {
      var i := PermutationStep(a, b);
      var x, a', b' := a[|a| - 1], a[..|a| - 1], b[..i] + b[i + 1..];
      SumCountsPermutation(a', b', counts);
      SumCountsAppend(a', [x], counts);
      SumCountsRemove(b, i, counts);
    }
  }

  lemma SumCountsRemove<K>(b: seq<K>, i: nat, counts: map<K, nat>)
    requires i < |b|
    ensures SumCounts(b, counts) == SumCounts(b[..i] + b[i + 1..], counts) + SumCounts([b[i]], counts)
  {
    assert b == b[..i] + [b[i]] + b[i + 1..];
    SumCountsAppend(b[..i] + [b[i]], b[i + 1..], counts);
    SumCountsAppend(b[..i], [b[i]], counts);
    SumCountsAppend(b[..i], b[i + 1..], counts);
  }

  /** The chart drawn from counting `ks`: one label per distinct key, each
      paired with how often it occurs, the data adding up to `|ks|`; index keys
      come first in ascending order, the others follow in first-seen order. */
  lemma ChartSpec<K>(ks: seq<K>, index: K -> Option<nat>)
    ensures var c := ChartOf(TallyOf(ks), index);
      && |c.labels| == |c.values|
      && Distinct(c.labels)
      && (forall i :: 0 <= i < |c.labels| ==>
            c.labels[i] in ks && c.values[i] == Occurrences(ks, c.labels[i]) && c.values[i] >= 1)
      && (forall k :: k in ks ==> k in c.labels)
      && Sum(c.values) == |ks|
      && c.labels == IndexKeys(Dedup(ks), index) + OtherKeys(Dedup(ks), index)
      && Ascending(IndexKeys(Dedup(ks), index), index)
  {
    var t := TallyOf(ks);
    ChartLabels(ks, index);
    var labels := ObjectKeys(t.keys, index);
    var values := Values(labels, t.counts);
    ValuesSpec(labels, t.counts);
    TallyOfSpec(ks);
    ObjectKeysSpec(t.keys, index);
    SumCountsPermutation(t.keys, labels, t.counts);
    assert Sum(values) == |ks|;
    forall i | 0 <= i < |labels|
      ensures values[i] == Occurrences(ks, labels[i]) && values[i] >= 1
    {
      assert labels[i] in ks;
      assert labels[i] in t.counts;
    }
  }

  /** The chart `c` drawn from the keys `key` gives the documents: each
      label is a key some document is filed under, listed once with the number
      of documents filed under it; every such key is a label; the data add up
      to the number of documents that have a key. */
  lemma ChartCounts<K>(docs: seq<Doc>, key: Doc -> Option<K>, index: K -> Option<nat>)
    ensures var c := ChartOf(TallyOf(KeysOf(docs, key)), index);
      && |c.labels| == |c.values| && Distinct(c.labels)
      && (forall i :: 0 <= i < |c.labels| ==> c.values[i] == CountKey(docs, key, c.labels[i]) && c.values[i] >= 1)
      && (forall i :: 0 <= i < |c.labels| ==> exists j :: 0 <= j < |docs| && key(docs[j]) == Some(c.labels[i]))
      && (forall j :: 0 <= j < |docs| && key(docs[j]).Some? ==> key(docs[j]).value in c.labels)
      && (forall k :: CountKey(docs, key, k) > 0 ==> k in c.labels)
      && Sum(c.values) == |KeysOf(docs, key)|
  {
    ChartShape(KeysOf(docs, key), index);
    ChartValues(docs, key, index);
    ChartSources(docs, key, index);
  }

  /** The datum under label `k` is the number of documents filed under `k`,
      and `k` is a label exactly when that number is positive. */
  lemma ChartEntry<K>(docs: seq<Doc>, key: Doc -> Option<K>, index: K -> Option<nat>, k: K)
    ensures var c := ChartOf(TallyOf(KeysOf(docs, key)), index);
      && (forall i :: 0 <= i < |c.labels| && c.labels[i] == k ==> c.values[i] == CountKey(docs, key, k))
      && (k in c.labels <==> CountKey(docs, key, k) > 0)
  {
    var ks := KeysOf(docs, key);
    var c := ChartOf(TallyOf(ks), index);
    KeysOfOccurrences(docs, key, k);
    OccurrencesPositive(ks, k);
    ChartSpec(ks, index);
    if k in c.labels {
      var i :| 0 <= i < |c.labels| && c.labels[i] == k;
      assert c.values[i] >= 1;
    }
  }

  lemma ChartShape<K>(ks: seq<K>, index: K -> Option<nat>)
    ensures var c := ChartOf(TallyOf(ks), index);
      Distinct(c.labels) && Sum(c.values) == |ks| && (forall i :: 0 <= i < |c.labels| ==> c.values[i] >= 1)
  {
    ChartSpec(ks, index);
  }

  lemma ChartValues<K>(docs: seq<Doc>, key: Doc -> Option<K>, index: K -> Option<nat>)
    ensures var c := ChartOf(TallyOf(KeysOf(docs, key)), index);
      && (forall i :: 0 <= i < |c.labels| ==> c.values[i] == CountKey(docs, key, c.labels[i]))
      && (forall k :: CountKey(docs, key, k) > 0 ==> k in c.labels)
  {
    var ks := KeysOf(docs, key);
    var c := ChartOf(TallyOf(ks), index);
    ChartSpec(ks, index);
    forall i | 0 <= i < |c.labels|
      ensures c.values[i] == CountKey(docs, key, c.labels[i])
    {
      KeysOfOccurrences(docs, key, c.labels[i]);
    }
    forall k | CountKey(docs, key, k) > 0
      ensures k in c.labels
    {
      KeysOfOccurrences(docs, key, k);
      OccurrencesPositive(ks, k);
    }
  }

  lemma ChartSources<K>(docs: seq<Doc>, key: Doc -> Option<K>, index: K -> Option<nat>)
    ensures var c := ChartOf(TallyOf(KeysOf(docs, key)), index);
      && (forall i :: 0 <= i < |c.labels| ==>
            exists j :: 0 <= j < |docs| && key(docs[j]) == Some(c.labels[i]))
      && (forall j :: 0 <= j < |docs| && key(docs[j]).Some? ==> key(docs[j]).value in c.labels)
  {
    LabelsComplete(docs, key, index);
    var labels := ChartOf(TallyOf(KeysOf(docs, key)), index).labels;
    forall i | 0 <= i < |labels|
      ensures exists j :: 0 <= j < |docs| && key(docs[j]) == Some(labels[i])
    {
      var j := LabelSource(docs, key, index, i);
    }
  }

  lemma LabelsComplete<K>(docs: seq<Doc>, key: Doc -> Option<K>, index: K -> Option<nat>)
    ensures var c := ChartOf(TallyOf(KeysOf(docs, key)), index);
      forall j :: 0 <= j < |docs| && key(docs[j]).Some? ==> key(docs[j]).value in c.labels
  {
    var ks := KeysOf(docs, key);
    ChartLabels(ks, index);
    assert ChartOf(TallyOf(ks), index).labels == ObjectKeys(Dedup(ks), index);
    KeysOfSpec(docs, key);
  }

  /** The document a label comes from. */
  lemma LabelSource<K>(docs: seq<Doc>, key: Doc -> Option<K>, index: K -> Option<nat>, i: nat) returns (j: nat)
    requires i < |ChartOf(TallyOf(KeysOf(docs, key)), index).labels|
    ensures j < |docs| && key(docs[j]) == Some(ChartOf(TallyOf(KeysOf(docs, key)), index).labels[i])
  {
    var ks := KeysOf(docs, key);
    var labels := ChartOf(TallyOf(ks), index).labels;
    ChartLabels(ks, index);
    assert labels == ObjectKeys(Dedup(ks), index);
    KeysOfSpec(docs, key);
    var k :| 0 <= k < |ks| && ks[k] == labels[i];
    j :| 0 <= j < |docs| && key(docs[j]) == Some(ks[k]);
  }

  lemma ChartLabels<K>(ks: seq<K>, index: K -> Option<nat>)
    ensures var labels := ObjectKeys(Dedup(ks), index);
      && Distinct(labels)
      && (forall i :: 0 <= i < |labels| ==> labels[i] in ks)
      && (forall k :: k in ks ==> k in labels)
      && Ascending(IndexKeys(Dedup(ks), index), index)
  {
    var keys := Dedup(ks);
    var labels := ObjectKeys(keys, index);
    DedupSpec(ks);
    ObjectKeysSpec(keys, index);
    DistinctPermutation(keys, labels);
    forall i | 0 <= i < |labels|
      ensures labels[i] in ks
    {
      assert labels[i] in multiset(keys);
      var j :| 0 <= j < |keys| && keys[j] == labels[i];
    }
    forall k | k in ks
      ensures k in labels
    {
      assert k in keys;
      assert k in multiset(labels);
    }
  }
}
