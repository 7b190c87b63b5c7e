/** The dashboard effect, run whenever the dataset or the selected city
    changes, and the component state it writes: the KPI summary, the four
    charts and the markers of the map. */
module Dashboard {
  import opened Wrappers
  import opened Seqs
  import opened Bookings
  import opened Kpis
  import opened Tallies
  import opened JsObjects
  import opened CityMap
  import opened CityOptions

  /** What the effect learns from `new Date(s)`: `yearOf(s)` is the full year
      of a valid date and `None` for an invalid one (whose year is NaN);
      `monthLabel(s)` is the `toLocaleString("en", {month: "short", year:
      "numeric"})` label of a valid date. */
  datatype Calendar = Calendar(yearOf: string -> Option<int>, monthLabel: string -> string)

  /** What `toLocaleString` gives for an invalid date. */
  const InvalidDate: string := "Invalid Date"

  /** The calendar labels no valid date as an invalid one. */
  ghost predicate LabelsValid(cal: Calendar)
  {
    forall s :: cal.monthLabel(s) != InvalidDate
  }

  /** The year a document is counted under: the year of its `$date`, unless
      that is missing or empty (an invalid date), invalid (NaN) or 0, the
      values `if (y)` rejects. */
  function YearKey(cal: Calendar, d: Doc): Option<int>
  {
    match Truthy(DateOf(d))
    case None => None
    case Some(s) =>
      match cal.yearOf(s)
      case None => None
      case Some(y) => if y != 0 then Some(y) else None
  }

  function YearKeyOf(cal: Calendar): Doc -> Option<int>
  {
    d => YearKey(cal, d)
  }

  /** `if (d.bookingStatus)`: a present, non-empty status. */
  function StatusKey(d: Doc): Option<string>
  {
    Truthy(d.bookingStatus)
  }

  /** `if (d.paymentMethod)`: a present, non-empty payment method. */
  function PaymentKey(d: Doc): Option<string>
  {
    Truthy(d.paymentMethod)
  }

  /** `toLocaleString` of the date `s`: its month label when it is valid,
      "Invalid Date" otherwise. */
  function MonthOf(cal: Calendar, s: string): string
  {
    if cal.yearOf(s).Some? then cal.monthLabel(s) else InvalidDate
  }

  /** The month a document is counted under: skipped when `$date` is missing
      or empty; an unparseable date is counted under "Invalid Date". */
  function MonthKey(cal: Calendar, d: Doc): Option<string>
  {
    match Truthy(DateOf(d))
    case None => None
    case Some(s) => Some(MonthOf(cal, s))
  }

  function MonthKeyOf(cal: Calendar): Doc -> Option<string>
  {
    d => MonthKey(cal, d)
  }

  /** The number of documents with a present, non-empty `$date`. */
  function Dated(docs: seq<Doc>): nat
  {
    if docs == [] then 0
    else Dated(docs[..|docs| - 1]) + (if Truthy(DateOf(docs[|docs| - 1])).Some? then 1 else 0)
  }

  /** The labels and data of the year, status, payment and month charts. */
  datatype Charts = Charts(years: Chart<int>, statuses: Chart<string>, payments: Chart<string>, months: Chart<string>)

  function YearChart(docs: seq<Doc>, cal: Calendar): Chart<int>
  {
    ChartOf(TallyOf(KeysOf(docs, YearKeyOf(cal))), YearIndex)
  }

  function StatusChart(docs: seq<Doc>): Chart<string>
  {
    ChartOf(TallyOf(KeysOf(docs, StatusKey)), StringIndex)
  }

  function PaymentChart(docs: seq<Doc>): Chart<string>
  {
    ChartOf(TallyOf(KeysOf(docs, PaymentKey)), StringIndex)
  }

  function MonthChart(docs: seq<Doc>, cal: Calendar): Chart<string>
  {
    ChartOf(TallyOf(KeysOf(docs, MonthKeyOf(cal))), StringIndex)
  }

  /** The charts drawn from the visited documents `docs`. */
  function ChartsOf(docs: seq<Doc>, cal: Calendar): Charts
  {
    Charts(YearChart(docs, cal), StatusChart(docs), PaymentChart(docs), MonthChart(docs, cal))
  }

  /** The map section as written: its entries are those of the year object. */
  function YearMapMarkers(docs: seq<Doc>, cal: Calendar): seq<Marker>
  {
    YearMarkers(ChartsOf(docs, cal).years)
  }

  /** The map section as intended: its entries are those of an object
      counting the cities of the visited documents. */
  function MarkersOf(docs: seq<Doc>): seq<Marker>
  {
    CityMarkers(CityChart(docs))
  }

  /** The chart of a city counting object. */
  function CityChart(docs: seq<Doc>): Chart<string>
  {
    ChartOf(TallyOf(KeysOf(docs, CityKey)), StringIndex)
  }

  /** What one run of the effect produces. `markers` is `None` when the map
      element is not mounted and the effect returns before the map section. */
  datatype Frame = Frame(summary: Kpi, charts: Charts, markers: Option<seq<Marker>>)

  function FrameOf(data: seq<Container>, selectedCity: string, cal: Calendar, mapMounted: bool): Frame
  {
    var docs := Visited(data, selectedCity);
    Frame(KpiOf(docs), ChartsOf(docs, cal), if mapMounted then Some(MarkersOf(docs)) else None)
  }

  /** One run of the effect: nothing on an empty dataset, otherwise the KPIs,
      the four groupings and the map markers of the visited documents. */
  method Recompute(data: seq<Container>, selectedCity: string, cal: Calendar, mapMounted: bool)
    returns (frame: Option<Frame>)
    ensures |data| == 0 ==> frame == None
    ensures |data| > 0 ==> frame == Some(FrameOf(data, selectedCity, cal, mapMounted))
  {
    if |data| == 0 {
      return None;
    }
    var docs := SafeDocs(data, selectedCity);
    var summary := Accumulate(docs);
    var yearMap := CountBy(docs, YearKeyOf(cal));
    var statusMap := CountBy(docs, StatusKey);
    var payMap := CountBy(docs, PaymentKey);
    var monthMap := CountBy(docs, MonthKeyOf(cal));
    var charts := Charts(
      ChartOf(yearMap, YearIndex), ChartOf(statusMap, StringIndex),
      ChartOf(payMap, StringIndex), ChartOf(monthMap, StringIndex));
    var markers: Option<seq<Marker>> := None;
    if mapMounted {
      var cityMap := CountBy(docs, CityKey);
      markers := Some(CityMarkers(ChartOf(cityMap, StringIndex)));
    }
    frame := Some(Frame(summary, charts, markers));
  }

  /** A non-empty status is counted in the status chart exactly as often as
      the KPI fold counts it. */
  lemma {:induction false} StatusCountsAgree(docs: seq<Doc>, s: string)
    requires s != ""
    ensures CountKey(docs, StatusKey, s) == StatusCount(docs, s)
  {
    if docs != [] {
      StatusCountsAgree(docs[..|docs| - 1], s);
    }
  }

  /** The slice of a non-empty status holds the number of documents with that
      status, and the status has a slice exactly when some document has it;
      no slice is labelled with the empty string. */
  lemma StatusChartSpec(docs: seq<Doc>, cal: Calendar, s: string)
    requires s != ""
    ensures var c := ChartsOf(docs, cal).statuses;
      && (forall i :: 0 <= i < |c.labels| && c.labels[i] == s ==> c.values[i] == StatusCount(docs, s))
      && (s in c.labels <==> StatusCount(docs, s) > 0)
      && (forall i :: 0 <= i < |c.labels| ==> c.labels[i] != "")
  {
    ChartEntry(docs, StatusKey, StringIndex, s);
    StatusCountsAgree(docs, s);
    StatusLabelsNonEmpty(docs);
  }

  lemma StatusLabelsNonEmpty(docs: seq<Doc>)
    ensures var c := StatusChart(docs);
      forall i :: 0 <= i < |c.labels| ==> c.labels[i] != ""
  {
    var c := StatusChart(docs);
    ChartSources(docs, StatusKey, StringIndex);
    forall i | 0 <= i < |c.labels|
      ensures c.labels[i] != ""
    {
      var j :| 0 <= j < |docs| && StatusKey(docs[j]) == Some(c.labels[i]);
    }
  }

  /** The CANCELLED and RESCHEDULED slices of a run of the effect agree with
      its KPI cards. */
  lemma KpiMatchesStatusChart(data: seq<Container>, selectedCity: string, cal: Calendar, mapMounted: bool)
    ensures var f := FrameOf(data, selectedCity, cal, mapMounted);
      var c := f.charts.statuses;
      && (forall i :: 0 <= i < |c.labels| && c.labels[i] == Cancelled ==> c.values[i] == f.summary.cancelled)
      && (forall i :: 0 <= i < |c.labels| && c.labels[i] == Rescheduled ==> c.values[i] == f.summary.rescheduled)
      && (Cancelled in c.labels <==> f.summary.cancelled > 0)
      && (Rescheduled in c.labels <==> f.summary.rescheduled > 0)
  {
    var docs := Visited(data, selectedCity);
    StatusChartSpec(docs, cal, Cancelled);
    StatusChartSpec(docs, cal, Rescheduled);
  }

  lemma {:induction false} MonthKeysDated(docs: seq<Doc>, cal: Calendar)
    ensures |KeysOf(docs, MonthKeyOf(cal))| == Dated(docs) <= |docs|
    ensures |KeysOf(docs, YearKeyOf(cal))| <= Dated(docs)
  {
    if docs != [] {
      MonthKeysDated(docs[..|docs| - 1], cal);
    }
  }

  lemma {:induction false} StatusesCovered(docs: seq<Doc>)
    ensures StatusCount(docs, Cancelled) + StatusCount(docs, Rescheduled) <= |KeysOf(docs, StatusKey)|
  {
    if docs != [] {
      StatusesCovered(docs[..|docs| - 1]);
    }
  }

  /** The bars and slices never add up to more than the orders shown: the
      month chart counts every document with a date, the year chart at most
      those, and the status chart at least the cancelled and rescheduled
      ones. */
  lemma ChartTotals(docs: seq<Doc>, cal: Calendar)
    ensures var c := ChartsOf(docs, cal);
      && Sum(c.years.values) <= Sum(c.months.values)
      && Sum(c.months.values) == Dated(docs) <= |docs|
      && StatusCount(docs, Cancelled) + StatusCount(docs, Rescheduled) <= Sum(c.statuses.values) <= |docs|
      && Sum(c.payments.values) <= |docs|
  {
    var c := ChartsOf(docs, cal);
    ChartCounts(docs, YearKeyOf(cal), YearIndex);
    ChartCounts(docs, StatusKey, StringIndex);
    ChartCounts(docs, PaymentKey, StringIndex);
    ChartCounts(docs, MonthKeyOf(cal), StringIndex);
    MonthKeysDated(docs, cal);
    StatusesCovered(docs);
    KeysOfSpec(docs, StatusKey);
    KeysOfSpec(docs, PaymentKey);
  }

  /** The year bars: never a bar for year 0, each bar a year that a visited
      date has, every such year a bar; the years from 0 to 2^32 - 2 come
      first and ascend, the negative years follow. */
  lemma YearChartSpec(docs: seq<Doc>, cal: Calendar)
    ensures var c := ChartsOf(docs, cal).years;
      && (forall i :: 0 <= i < |c.labels| ==> c.labels[i] != 0)
      && (forall i :: 0 <= i < |c.labels| ==>
            (exists j :: 0 <= j < |docs| && Truthy(DateOf(docs[j])).Some?
               && cal.yearOf(DateOf(docs[j]).value) == Some(c.labels[i])))
      && (forall j :: 0 <= j < |docs| && YearKey(cal, docs[j]).Some? ==> YearKey(cal, docs[j]).value in c.labels)
      && (forall i, j :: 0 <= i < j < |c.labels| && 0 <= c.labels[j] <= MaxIndex ==>
            0 <= c.labels[i] < c.labels[j])
  {
    var c := ChartsOf(docs, cal).years;
    YearLabelsSourced(docs, cal);
    YearLabelsComplete(docs, cal);
    var ks := KeysOf(docs, YearKeyOf(cal));
    ChartLabels(ks, YearIndex);
    YearKeysOrdered(Dedup(ks));
    assert c.labels == ObjectKeys(Dedup(ks), YearIndex);
  }

  lemma YearLabelsSourced(docs: seq<Doc>, cal: Calendar)
    ensures var c := YearChart(docs, cal);
      && (forall i :: 0 <= i < |c.labels| ==> c.labels[i] != 0)
      && (forall i :: 0 <= i < |c.labels| ==>
           (exists j :: 0 <= j < |docs| && Truthy(DateOf(docs[j])).Some?
              && cal.yearOf(DateOf(docs[j]).value) == Some(c.labels[i])))
  {
    var key := YearKeyOf(cal);
    var c := YearChart(docs, cal);
    ChartSources(docs, key, YearIndex);
    forall i | 0 <= i < |c.labels|
      ensures c.labels[i] != 0
      ensures exists j :: 0 <= j < |docs| && Truthy(DateOf(docs[j])).Some?
                            && cal.yearOf(DateOf(docs[j]).value) == Some(c.labels[i])
    {
      var j :| 0 <= j < |docs| && key(docs[j]) == Some(c.labels[i]);
    }
  }

  lemma YearLabelsComplete(docs: seq<Doc>, cal: Calendar)
    ensures var c := YearChart(docs, cal);
      forall j :: 0 <= j < |docs| && YearKey(cal, docs[j]).Some? ==> YearKey(cal, docs[j]).value in c.labels
  {
    var key := YearKeyOf(cal);
    var c := YearChart(docs, cal);
    ChartSources(docs, key, YearIndex);
    forall j | 0 <= j < |docs| && YearKey(cal, docs[j]).Some?
      ensures YearKey(cal, docs[j]).value in c.labels
    {
      assert key(docs[j]) == YearKey(cal, docs[j]);
    }
  }

  /** In the year object's key order the years from 0 to 2^32 - 2 come first
      and ascend. */
  lemma YearKeysOrdered(keys: seq<int>)
    requires Distinct(ObjectKeys(keys, YearIndex))
    ensures var labels := ObjectKeys(keys, YearIndex);
      forall i, j :: 0 <= i < j < |labels| && 0 <= labels[j] <= MaxIndex ==> 0 <= labels[i] < labels[j]
  {
    var labels := ObjectKeys(keys, YearIndex);
    IndexKeysFirst(keys, YearIndex);
    forall i, j | 0 <= i < j < |labels| && 0 <= labels[j] <= MaxIndex
      ensures 0 <= labels[i] < labels[j]
    {
      assert YearIndex(labels[j]).Some?;
    }
  }

  /** The month points: each label is that of a visited date, "Invalid Date"
      for an unparseable one, and every visited date has its label there. */
  lemma MonthChartSpec(docs: seq<Doc>, cal: Calendar)
    ensures var c := ChartsOf(docs, cal).months;
      && (forall i :: 0 <= i < |c.labels| ==>
            exists j :: 0 <= j < |docs| && Truthy(DateOf(docs[j])).Some? && c.labels[i] == MonthOf(cal, DateOf(docs[j]).value))
      && (forall j :: 0 <= j < |docs| && Truthy(DateOf(docs[j])).Some? ==> MonthOf(cal, DateOf(docs[j]).value) in c.labels)
  {
    MonthLabelsSourced(docs, cal);
    MonthLabelsComplete(docs, cal);
  }

  lemma MonthLabelsSourced(docs: seq<Doc>, cal: Calendar)
    ensures var c := MonthChart(docs, cal);
      forall i :: 0 <= i < |c.labels| ==>
        exists j :: 0 <= j < |docs| && Truthy(DateOf(docs[j])).Some? && c.labels[i] == MonthOf(cal, DateOf(docs[j]).value)
  {
    var key := MonthKeyOf(cal);
    var c := MonthChart(docs, cal);
    ChartSources(docs, key, StringIndex);
    forall i | 0 <= i < |c.labels|
      ensures exists j :: 0 <= j < |docs| && Truthy(DateOf(docs[j])).Some? && c.labels[i] == MonthOf(cal, DateOf(docs[j]).value)
    {
      var j :| 0 <= j < |docs| && key(docs[j]) == Some(c.labels[i]);
    }
  }

  lemma MonthLabelsComplete(docs: seq<Doc>, cal: Calendar)
    ensures var c := MonthChart(docs, cal);
      forall j :: 0 <= j < |docs| && Truthy(DateOf(docs[j])).Some? ==> MonthOf(cal, DateOf(docs[j]).value) in c.labels
  {
    var key := MonthKeyOf(cal);
    var c := MonthChart(docs, cal);
    ChartSources(docs, key, StringIndex);
    forall j | 0 <= j < |docs| && Truthy(DateOf(docs[j])).Some?
      ensures MonthOf(cal, DateOf(docs[j]).value) in c.labels
    {
      assert key(docs[j]) == MonthKey(cal, docs[j]);
    }
  }

  /** An unparseable visited date always shows as an "Invalid Date" point. */
  lemma InvalidDateShown(docs: seq<Doc>, cal: Calendar, j: nat)
    requires j < |docs| && Truthy(DateOf(docs[j])).Some? && cal.yearOf(DateOf(docs[j]).value).None?
    ensures InvalidDate in ChartsOf(docs, cal).months.labels
  {
    MonthLabelsComplete(docs, cal);
  }

  /** With a calendar that never labels a valid date "Invalid Date", that
      point appears exactly when some visited date cannot be parsed. */
  lemma InvalidDatePoint(docs: seq<Doc>, cal: Calendar)
    requires LabelsValid(cal)
    ensures InvalidDate in ChartsOf(docs, cal).months.labels <==>
      exists j :: 0 <= j < |docs| && Truthy(DateOf(docs[j])).Some? && cal.yearOf(DateOf(docs[j]).value).None?
  {
    var c := ChartsOf(docs, cal).months;
    MonthLabelsSourced(docs, cal);
    MonthLabelsComplete(docs, cal);
    if InvalidDate in c.labels {
      var i :| 0 <= i < |c.labels| && c.labels[i] == InvalidDate;
      var j :| 0 <= j < |docs| && Truthy(DateOf(docs[j])).Some? && c.labels[i] == MonthOf(cal, DateOf(docs[j]).value);
      assert cal.monthLabel(DateOf(docs[j]).value) != InvalidDate;
    }
  }

  /** The intended map: one marker per city of the coordinate table that a
      visited document has, at that city's coordinates, sized by the number of
      visited documents in that city; no city twice. */
  lemma MarkersSpec(docs: seq<Doc>)
    ensures var ms := MarkersOf(docs);
      && (forall i :: 0 <= i < |ms| ==>
            ms[i].name in CityLatLng && ms[i].position == CityLatLng[ms[i].name]
            && ms[i].count == CountKey(docs, CityKey, ms[i].name) && ms[i].count >= 1)
      && (forall i :: 0 <= i < |ms| ==> exists j :: 0 <= j < |docs| && docs[j].city == Some(ms[i].name))
      && (forall j :: 0 <= j < |docs| && docs[j].city.Some? && docs[j].city.value in CityLatLng ==>
            Marker(docs[j].city.value, CityLatLng[docs[j].city.value], CountKey(docs, CityKey, docs[j].city.value)) in ms)
      && (forall i, j :: 0 <= i < j < |ms| ==> ms[i].name != ms[j].name)
  {
    MarkersSourced(docs);
    MarkersComplete(docs);
    var c := CityChart(docs);
    ChartShape(KeysOf(docs, CityKey), StringIndex);
    PlotDistinct(c.labels, c.values);
  }

  lemma MarkersSourced(docs: seq<Doc>)
    ensures var ms := MarkersOf(docs);
      && (forall i :: 0 <= i < |ms| ==>
            ms[i].name in CityLatLng && ms[i].position == CityLatLng[ms[i].name]
            && ms[i].count == CountKey(docs, CityKey, ms[i].name) && ms[i].count >= 1)
      && (forall i :: 0 <= i < |ms| ==> exists j :: 0 <= j < |docs| && docs[j].city == Some(ms[i].name))
  {
    var ms := MarkersOf(docs);
    forall i | 0 <= i < |ms|
      ensures ms[i].name in CityLatLng && ms[i].position == CityLatLng[ms[i].name]
      ensures ms[i].count == CountKey(docs, CityKey, ms[i].name) && ms[i].count >= 1
      ensures exists j :: 0 <= j < |docs| && docs[j].city == Some(ms[i].name)
    {
      MarkerSourced(docs, i);
    }
  }

  lemma MarkerSourced(docs: seq<Doc>, i: nat)
    requires i < |MarkersOf(docs)|
    ensures var m := MarkersOf(docs)[i];
      && m.name in CityLatLng && m.position == CityLatLng[m.name]
      && m.count == CountKey(docs, CityKey, m.name) && m.count >= 1
      && exists j :: 0 <= j < |docs| && docs[j].city == Some(m.name)
  {
    var c := CityChart(docs);
    var m := MarkersOf(docs)[i];
    PlotSpec(c.labels, c.values);
    assert FromEntry(c.labels, c.values, m);
    var l :| MarkerOf(c.labels, c.values, l, m);
    ChartEntry(docs, CityKey, StringIndex, c.labels[l]);
    ChartSources(docs, CityKey, StringIndex);
    var j :| 0 <= j < |docs| && CityKey(docs[j]) == Some(c.labels[l]);
  }

  lemma MarkersComplete(docs: seq<Doc>)
    ensures forall j :: 0 <= j < |docs| && docs[j].city.Some? && docs[j].city.value in CityLatLng ==>
      Marker(docs[j].city.value, CityLatLng[docs[j].city.value], CountKey(docs, CityKey, docs[j].city.value)) in MarkersOf(docs)
  {
    forall j | 0 <= j < |docs| && docs[j].city.Some? && docs[j].city.value in CityLatLng
      ensures Marker(docs[j].city.value, CityLatLng[docs[j].city.value], CountKey(docs, CityKey, docs[j].city.value)) in MarkersOf(docs)
    {
      assert CityKey(docs[j]) == Some(docs[j].city.value);
      CountKeyPositive(docs, CityKey, j);
      MarkerOfCity(docs, docs[j].city.value);
    }
  }

  lemma MarkerOfCity(docs: seq<Doc>, city: string)
    requires city in CityLatLng && CountKey(docs, CityKey, city) > 0
    ensures Marker(city, CityLatLng[city], CountKey(docs, CityKey, city)) in MarkersOf(docs)
  {
    var c := CityChart(docs);
    ChartEntry(docs, CityKey, StringIndex, city);
    var l :| 0 <= l < |c.labels| && c.labels[l] == city;
    PlotKeeps(c.labels, c.values, l);
  }

  /** With a city selected, the intended map shows at most that city. */
  lemma FilteredMarkers(data: seq<Container>, c: string)
    requires c != AllCities
    ensures forall i :: 0 <= i < |MarkersOf(Visited(data, c))| ==> MarkersOf(Visited(data, c))[i].name == c
    ensures |MarkersOf(Visited(data, c))| <= 1
  {
    var docs := Visited(data, c);
    var ms := MarkersOf(docs);
    MarkersSpec(docs);
    VisitCity(data, c);
    forall i | 0 <= i < |ms|
      ensures ms[i].name == c
    {
      var j :| 0 <= j < |docs| && docs[j].city == Some(ms[i].name);
      assert docs[j] in docs;
    }
    AtMostOneNamed(ms, c);
  }

  /** The map as written never shows a marker, whatever the documents. */
  lemma YearMapNeverPlots(docs: seq<Doc>, cal: Calendar)
    ensures YearMapMarkers(docs, cal) == []
  {
    YearMarkersEmpty(ChartsOf(docs, cal).years);
  }

  /** As soon as one visited document is in a city of the coordinate table,
      the map as written and the intended map differ. */
  lemma YearMapMissesCities(docs: seq<Doc>, cal: Calendar, j: nat)
    requires j < |docs| && docs[j].city.Some? && docs[j].city.value in CityLatLng
    ensures YearMapMarkers(docs, cal) != MarkersOf(docs)
  {
    YearMapNeverPlots(docs, cal);
    MarkersSpec(docs);
  }

  /** The state of the dashboard component. */
  class DashboardState {
    var data: seq<Container>
    var selectedCity: string
    var summary: Kpi
    /** The charts on screen; `None` before the first run of the effect. */
    var charts: Option<Charts>
    /** The markers of the map instance; `None` while there is no map. */
    var markers: Option<seq<Marker>>
    const cal: Calendar

    /** The state of the first render: no data, "ALL" selected, zero KPIs. */
    constructor(cal: Calendar)
      ensures data == [] && selectedCity == AllCities
      ensures summary == Kpi(0, 0, 0, 0) && charts == None && markers == None
      ensures this.cal == cal && Current()
    {
      data := [];
      selectedCity := AllCities;
      summary := Kpi(0, 0, 0, 0);
      charts := None;
      markers := None;
      this.cal := cal;
    }

    /** The KPIs and charts on screen are those of the current dataset and
        selection. */
    ghost predicate Current()
      reads this
    {
      |data| > 0 ==>
        var docs := Visited(data, selectedCity);
        summary == KpiOf(docs) && charts == Some(ChartsOf(docs, cal))
    }

    /** The options of the city selector. */
    function Cities(): (r: seq<string>)
      reads this
      ensures |r| >= 1 && r[0] == AllCities && Distinct(r[1..])
    {
      OptionsSpec(data);
      Options(data)
    }

    /** The effect applied to the state: an empty dataset leaves everything as
        it was; otherwise KPIs and charts are replaced, and the markers too when
        the map element is mounted. */
    method Refresh(mapMounted: bool)
      modifies this
      ensures data == old(data) && selectedCity == old(selectedCity)
      ensures |data| == 0 ==> summary == old(summary) && charts == old(charts) && markers == old(markers)
      ensures |data| > 0 ==>
        var f := FrameOf(data, selectedCity, cal, mapMounted);
        summary == f.summary && charts == Some(f.charts)
        && markers == (if mapMounted then f.markers else old(markers))
      ensures Current()
    {
      var frame := Recompute(data, selectedCity, cal, mapMounted);
      if frame.Some? {
        var f := frame.value;
        summary := f.summary;
        charts := Some(f.charts);
        if f.markers.Some? {
          markers := f.markers;
        }
      }
    }

    /** `setData(json)`, then the effect. A container whose `documents` is
        not an array is read as one without `documents` (the corrected
        reading; as written the render throws first, see `OptionsAsWrittenThrows`,
        and the effect would throw too, see `VisitAsWrittenThrows`). */
    method Load(json: seq<RawContainer>, mapMounted: bool)
      modifies this
      ensures data == Normalize(json) && selectedCity == old(selectedCity)
      ensures |json| == 0 ==> summary == old(summary) && charts == old(charts) && markers == old(markers)
      ensures |json| > 0 ==>
        var f := FrameOf(data, selectedCity, cal, mapMounted);
        summary == f.summary && charts == Some(f.charts)
        && markers == (if mapMounted then f.markers else old(markers))
      ensures Current()
    {
      data := Normalize(json);
      Refresh(mapMounted);
    }

    /** `setSelectedCity(c)` from the selector, then the effect. */
    method SelectCity(c: string, mapMounted: bool)
      modifies this
      ensures selectedCity == c && data == old(data)
      ensures |data| == 0 ==> summary == old(summary) && charts == old(charts) && markers == old(markers)
      ensures |data| > 0 ==>
        var f := FrameOf(data, c, cal, mapMounted);
        summary == f.summary && charts == Some(f.charts)
        && markers == (if mapMounted then f.markers else old(markers))
      ensures Current()
    {
      selectedCity := c;
      Refresh(mapMounted);
    }
  }
}
