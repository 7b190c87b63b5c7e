/** The KPI fold of the dashboard effect: orders, profit, cancellations and
    reschedulings over the visited documents. */
module Kpis {
  import opened Wrappers
  import opened Seqs
  import opened Bookings

  datatype Kpi = Kpi(totalOrders: nat, profit: int, cancelled: nat, rescheduled: nat)

  const Cancelled: string := "CANCELLED"
  const Rescheduled: string := "RESCHEDULED"

  /** What one document adds to the profit: its amount when one is present. */
  function Amount(d: Doc): int
  {
    match d.orderAmount
    case Some(a) => a
    case None => 0
  }

  /** The left-to-right sum of the amounts of `docs`. */
  function Profit(docs: seq<Doc>): int
  {
    if docs == [] then 0
    else Profit(docs[..|docs| - 1]) + Amount(docs[|docs| - 1])
  }

  /** The number of documents whose status is exactly `status`. */
  function StatusCount(docs: seq<Doc>, status: string): nat
  {
    if docs == [] then 0
    else StatusCount(docs[..|docs| - 1], status) + (if docs[|docs| - 1].bookingStatus == Some(status) then 1 else 0)
  }

  /** The KPIs of a document sequence, field by field. */
  function KpiOf(docs: seq<Doc>): Kpi
  {
    Kpi(|docs|, Profit(docs), StatusCount(docs, Cancelled), StatusCount(docs, Rescheduled))
  }

  /** The four counters, updated once per visited document. */
  method Accumulate(docs: seq<Doc>) returns (k: Kpi)
    ensures k.totalOrders == |docs|
    ensures k.profit == Profit(docs)
    ensures k.cancelled == StatusCount(docs, Cancelled)
    ensures k.rescheduled == StatusCount(docs, Rescheduled)
    ensures k.cancelled + k.rescheduled <= k.totalOrders
  {
    var totalOrders: nat, profit: int, cancelled: nat, rescheduled: nat := 0, 0, 0, 0;
    for i := 0 to |docs|
      invariant totalOrders == i
      invariant profit == Profit(docs[..i])
      invariant cancelled == StatusCount(docs[..i], Cancelled)
      invariant rescheduled == StatusCount(docs[..i], Rescheduled)
    {
      assert docs[..i + 1][..i] == docs[..i];
      var doc := docs[i];
      totalOrders := totalOrders + 1;
      if doc.orderAmount.Some? {
        profit := profit + doc.orderAmount.value;
      }
      if doc.bookingStatus == Some(Cancelled) {
        cancelled := cancelled + 1;
      }
      if doc.bookingStatus == Some(Rescheduled) {
        rescheduled := rescheduled + 1;
      }
    }
    assert docs[..|docs|] == docs;
    StatusCountsDisjoint(docs, Cancelled, Rescheduled);
    k := Kpi(totalOrders, profit, cancelled, rescheduled);
  }

  /** No status equals two different strings, so two status counts never
      exceed the number of documents. */
  lemma {:induction false} StatusCountsDisjoint(docs: seq<Doc>, a: string, b: string)
    requires a != b
    ensures StatusCount(docs, a) + StatusCount(docs, b) <= |docs|
  {
    if docs != [] {
      StatusCountsDisjoint(docs[..|docs| - 1], a, b);
    }
  }

  lemma {:induction false} KpiAppend(a: seq<Doc>, b: seq<Doc>)
    ensures Profit(a + b) == Profit(a) + Profit(b)
    ensures forall s :: StatusCount(a + b, s) == StatusCount(a, s) + StatusCount(b, s)
    decreases |b|
  {
    if b == [] {
      assert a + b == a;
    } else {
      assert (a + b)[..|a + b| - 1] == a + b[..|b| - 1];
      KpiAppend(a, b[..|b| - 1]);
    }
  }

  /** The KPIs depend only on which documents are visited, not on their order. */
  lemma {:induction false} KpiPermutation(a: seq<Doc>, b: seq<Doc>)
    requires multiset(a) == multiset(b)
    ensures KpiOf(a) == KpiOf(b)
    decreases |a|
  {
    if a == [] {
      assert |multiset(b)| == 0;
    } else {
      var i := PermutationStep(a, b);
      var x, a', b' := a[|a| - 1], a[..|a| - 1], b[..i] + b[i + 1..];
      KpiPermutation(a', b');
      KpiAppend(a', [x]);
      KpiRemove(b, i);
    }
  }

  /** Taking one document out of a sequence takes out just its share. */
  lemma KpiRemove(b: seq<Doc>, i: nat)
    requires i < |b|
    ensures Profit(b) == Profit(b[..i] + b[i + 1..]) + Profit([b[i]])
    ensures forall s :: StatusCount(b, s) == StatusCount(b[..i] + b[i + 1..], s) + StatusCount([b[i]], s)
  {
    assert b == b[..i] + [b[i]] + b[i + 1..];
    KpiAppend(b[..i] + [b[i]], b[i + 1..]);
    KpiAppend(b[..i], [b[i]]);
    KpiAppend(b[..i], b[i + 1..]);
  }

  /** Reordering the containers of the dataset leaves every KPI as it was. */
  lemma ContainerOrderIrrelevant(a: seq<Container>, b: seq<Container>, selectedCity: string)
    requires multiset(a) == multiset(b)
    ensures KpiOf(Visited(a, selectedCity)) == KpiOf(Visited(b, selectedCity))
  {
    VisitPermutation(a, b, selectedCity);
    KpiPermutation(Visited(a, selectedCity), Visited(b, selectedCity));
  }
}
