/** A worked dataset: one container holding a cancelled Mumbai booking and a
    confirmed Delhi booking, both dated March 2024. */
module Scenario {
  import opened Wrappers
  import opened Seqs
  import opened Bookings
  import opened Kpis
  import opened Tallies
  import opened JsObjects
  import opened Dashboard

  const MumbaiOrder: Doc := Doc(Some("Mumbai"), Some(500), Some("CANCELLED"), Some("UPI"), Some(Stamp(Some("2024-03-05T00:00:00Z"))))
  const DelhiOrder: Doc := Doc(Some("Delhi"), Some(300), Some("CONFIRMED"), Some("CARD"), Some(Stamp(Some("2024-03-20T00:00:00Z"))))
  const Sample: seq<Container> := [Some([MumbaiOrder, DelhiOrder])]

  /** A calendar that reads both dates as March 2024. */
  const March2024: Calendar := Calendar(
    s => if s == "2024-03-05T00:00:00Z" || s == "2024-03-20T00:00:00Z" then Some(2024) else None,
    s => "Mar 2024")

  /** With every city shown: two orders, a profit of 800, one cancellation,
      one year bar and one month point holding both orders, one status slice
      per status, and one city bar per city. */
  lemma SampleAll()
    ensures var f := FrameOf(Sample, AllCities, March2024, true);
      && f.summary == Kpi(2, 800, 1, 0)
      && f.charts.years == Chart([2024], [2])
      && f.charts.months == Chart(["Mar 2024"], [2])
      && f.charts.statuses == Chart(["CANCELLED", "CONFIRMED"], [1, 1])
      && CityChart(Visited(Sample, AllCities)) == Chart(["Mumbai", "Delhi"], [1, 1])
  {
    var docs := [MumbaiOrder, DelhiOrder];
    SampleDocs();
    SampleKpis(docs);
    SampleYears(docs);
    SampleMonths(docs);
    SampleStatuses(docs);
    SampleCities(docs);
  }

  lemma SampleYears(docs: seq<Doc>)
    requires docs == [MumbaiOrder, DelhiOrder]
    ensures YearChart(docs, March2024) == Chart([2024], [2])
  {
    var key := YearKeyOf(March2024);
    assert key(MumbaiOrder) == Some(2024) && key(DelhiOrder) == Some(2024);
    KeysOfPair(MumbaiOrder, DelhiOrder, key);
    ChartOfSame(2024, YearIndex);
  }

  lemma SampleMonths(docs: seq<Doc>)
    requires docs == [MumbaiOrder, DelhiOrder]
    ensures MonthChart(docs, March2024) == Chart(["Mar 2024"], [2])
  {
    var key := MonthKeyOf(March2024);
    assert key(MumbaiOrder) == Some("Mar 2024") && key(DelhiOrder) == Some("Mar 2024");
    KeysOfPair(MumbaiOrder, DelhiOrder, key);
    ChartOfSame("Mar 2024", StringIndex);
  }

  lemma SampleStatuses(docs: seq<Doc>)
    requires docs == [MumbaiOrder, DelhiOrder]
    ensures StatusChart(docs) == Chart(["CANCELLED", "CONFIRMED"], [1, 1])
  {
    NoIndex("CANCELLED");
    NoIndex("CONFIRMED");
    KeysOfPair(MumbaiOrder, DelhiOrder, StatusKey);
    ChartOfPair("CANCELLED", "CONFIRMED", StringIndex);
  }

  lemma SampleCities(docs: seq<Doc>)
    requires docs == [MumbaiOrder, DelhiOrder]
    ensures CityChart(docs) == Chart(["Mumbai", "Delhi"], [1, 1])
  {
    NoIndex("Mumbai");
    NoIndex("Delhi");
    KeysOfPair(MumbaiOrder, DelhiOrder, CityKey);
    ChartOfPair("Mumbai", "Delhi", StringIndex);
  }

  /** With Mumbai selected only its order is shown. */
  lemma SampleMumbai()
    ensures var f := FrameOf(Sample, "Mumbai", March2024, true);
      && f.summary == Kpi(1, 500, 1, 0)
      && CityChart(Visited(Sample, "Mumbai")) == Chart(["Mumbai"], [1])
  {
    SampleMumbaiDocs();
    MumbaiKpis();
    MumbaiCities();
  }

  lemma MumbaiKpis()
    ensures KpiOf([MumbaiOrder]) == Kpi(1, 500, 1, 0)
  {
    var one := [MumbaiOrder];
    assert one[..0] == [];
    assert Profit(one) == Profit([]) + 500;
    assert StatusCount(one, Cancelled) == 1 && StatusCount(one, Rescheduled) == 0;
  }

  lemma MumbaiCities()
    ensures CityChart([MumbaiOrder]) == Chart(["Mumbai"], [1])
  {
    var one := [MumbaiOrder];
    assert one[..0] == [];
    assert KeysOf(one, CityKey) == ["Mumbai"];
    NoIndex("Mumbai");
    ChartOfOne("Mumbai", StringIndex);
  }

  lemma SampleMumbaiDocs()
    ensures Visited(Sample, "Mumbai") == [MumbaiOrder]
  {
    var docs, one := [MumbaiOrder, DelhiOrder], [MumbaiOrder];
    assert Flatten(Sample) == docs by {
      assert Sample[..0] == [];
    }
    assert docs[..1] == one && one[..0] == [];
    assert Select(one, "Mumbai") == one;
  }

  lemma SampleDocs()
    ensures Visited(Sample, AllCities) == [MumbaiOrder, DelhiOrder]
  {
    VisitAll(Sample);
    assert Sample[..0] == [];
    assert Flatten(Sample) == [MumbaiOrder, DelhiOrder];
  }

  lemma SampleKpis(docs: seq<Doc>)
    requires docs == [MumbaiOrder, DelhiOrder]
    ensures KpiOf(docs) == Kpi(2, 800, 1, 0)
  {
    var one := [MumbaiOrder];
    assert docs[..1] == one && one[..0] == [];
    assert Profit(one) == 500;
    assert StatusCount(one, Cancelled) == 1 && StatusCount(one, Rescheduled) == 0;
  }

  /** The keys two documents are filed under. */
  lemma KeysOfPair<K>(a: Doc, b: Doc, key: Doc -> Option<K>)
    requires key(a).Some? && key(b).Some?
    ensures KeysOf([a, b], key) == [key(a).value, key(b).value]
  {
    var one := [a];
    assert [a, b][..1] == one && one[..0] == [];
    assert KeysOf(one, key) == [key(a).value];
  }

  lemma NoIndex(s: string)
    requires |s| > 0 && !IsDigit(s[0])
    ensures StringIndex(s) == None
  {
  }

  /** The chart of a key counted once that is not an array index. */
  lemma ChartOfOne<K>(k: K, index: K -> Option<nat>)
    requires index(k).None?
    ensures ChartOf(TallyOf([k]), index) == Chart([k], [1])
  {
    var one := [k];
    assert one[..0] == [];
    assert Dedup(one) == one;
    assert Occurrences(one, k) == 1;
    assert CountsOf(one) == map[k := 1];
    assert IndexKeys(one, index) == [];
    assert OtherKeys(one, index) == OtherKeys([], index) + [k];
    assert Values(one, map[k := 1]) == [1];
    assert TallyOf(one) == Tally(one, map[k := 1]);
    assert ObjectKeys(one, index) == one;
  }

  /** The chart of a key counted twice. */
  lemma ChartOfSame<K>(k: K, index: K -> Option<nat>)
    ensures ChartOf(TallyOf([k, k]), index) == Chart([k], [2])
  {
    var one, ks := [k], [k, k];
    assert ks[..1] == one && one[..0] == [];
    assert Dedup(one) == one;
    assert Dedup(ks) == one;
    assert Occurrences(one, k) == 1;
    assert Occurrences(ks, k) == 2;
    assert CountsOf(ks) == map[k := 2];
    assert IndexKeys(one, index) + OtherKeys(one, index) == one;
    assert Values(one, map[k := 2]) == [2];
    assert TallyOf(ks) == Tally(one, map[k := 2]);
    assert ObjectKeys(one, index) == one;
  }

  /** The chart of two distinct keys that are not array indices. */
  lemma ChartOfPair<K>(a: K, b: K, index: K -> Option<nat>)
    requires a != b && index(a).None? && index(b).None?
    ensures ChartOf(TallyOf([a, b]), index) == Chart([a, b], [1, 1])
  {
    TallyOfPair(a, b);
    KeysOfPairOrder(a, b, index);
    ValuesOfPair(a, b);
  }

  lemma TallyOfPair<K>(a: K, b: K)
    requires a != b
    ensures TallyOf([a, b]) == Tally([a, b], map[a := 1, b := 1])
  {
    var one, ks := [a], [a, b];
    assert ks[..1] == one && one[..0] == [];
    assert Dedup(one) == one;
    assert Occurrences(one, a) == 1 && Occurrences(one, b) == 0;
    assert Occurrences(ks, a) == 1 && Occurrences(ks, b) == 1;
    assert CountsOf(ks) == map[a := 1, b := 1];
  }

  lemma KeysOfPairOrder<K>(a: K, b: K, index: K -> Option<nat>)
    requires index(a).None? && index(b).None?
    ensures ObjectKeys([a, b], index) == [a, b]
  {
    var one, ks := [a], [a, b];
    assert ks[..1] == one && one[..0] == [];
    assert IndexKeys(one, index) == [];
    assert IndexKeys(ks, index) == [];
    assert OtherKeys(one, index) == one;
    assert OtherKeys(ks, index) == ks;
  }

  lemma ValuesOfPair<K>(a: K, b: K)
    requires a != b
    ensures Values([a, b], map[a := 1, b := 1]) == [1, 1]
  {
    var one, ks := [a], [a, b];
    assert ks[..1] == one && one[..0] == [];
    var counts := map[a := 1, b := 1];
    assert Values(one, counts) == [1];
  }
}
