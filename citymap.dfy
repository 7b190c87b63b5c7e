/** The map section of the dashboard effect: one circle marker per entry of a
    counting object whose property name is a city of the fixed coordinate
    table. */
module CityMap {
  import opened Seqs
  import opened JsObjects

  /** `cityLatLng`: latitude and longitude of the cities the map knows. */
  const CityLatLng: map<string, (real, real)> := map[
    "Mumbai" := (19.076, 72.8777),
    "Delhi" := (28.7041, 77.1025),
    "Bengaluru" := (12.9716, 77.5946),
    "Chennai" := (13.0827, 80.2707),
    "Kolkata" := (22.5726, 88.3639),
    "Hyderabad" := (17.385, 78.4867)]

  /** A circle marker: where it is drawn and the count that sizes it. */
  datatype Marker = Marker(name: string, position: (real, real), count: nat)

  function Digits(n: nat): string
  {
    if n < 10 then ["0123456789"[n]] else Digits(n / 10) + ["0123456789"[n % 10]]
  }

  /** The property name an integer key becomes. */
  function DecimalString(y: int): string
  {
    if y < 0 then "-" + Digits(-y) else Digits(y)
  }

  /** One marker per entry, in entry order, for the entries whose name has
      coordinates; the others are skipped. */
  function Plot(names: seq<string>, counts: seq<nat>): seq<Marker>
    requires |names| == |counts|
  {
    if names == [] then []
    else
      var n := |names| - 1;
      Plot(names[..n], counts[..n])
      + (if names[n] in CityLatLng then [Marker(names[n], CityLatLng[names[n]], counts[n])] else [])
  }

  /** The property names of integer keys. */
  function Names(keys: seq<int>): seq<string>
  {
    seq(|keys|, i requires 0 <= i < |keys| => DecimalString(keys[i]))
  }

  /** The map as the effect draws it: from the entries of the year object. */
  function YearMarkers(years: Chart<int>): seq<Marker>
    requires |years.labels| == |years.values|
  {
    Plot(Names(years.labels), years.values)
  }

  /** The map as its variable names say it should be drawn: from the entries
      of a city counting object. */
  function CityMarkers(cities: Chart<string>): seq<Marker>
    requires |cities.labels| == |cities.values|
  {
    Plot(cities.labels, cities.values)
  }

  lemma {:induction false} DigitsStartWithDigit(n: nat)
    ensures |Digits(n)| > 0 && '0' <= Digits(n)[0] <= '9'
  {
    if n >= 10 {
      DigitsStartWithDigit(n / 10);
    }
  }

  /** A number written out never names a city of the table. */
  lemma NumberIsNoCity(y: int)
    ensures DecimalString(y) !in CityLatLng
  {
    if y < 0 {
      DigitsStartWithDigit(-y);
      assert DecimalString(y)[0] == '-';
    } else {
      DigitsStartWithDigit(y);
    }
  }

  /** Nothing is plotted when no entry names a known city. */
  lemma {:induction false} PlotNothing(names: seq<string>, counts: seq<nat>)
    requires |names| == |counts|
    requires forall i :: 0 <= i < |names| ==> names[i] !in CityLatLng
    ensures Plot(names, counts) == []
  {
    if names != [] {
      PlotNothing(names[..|names| - 1], counts[..|counts| - 1]);
    }
  }

  /** The map drawn from the year object never has a marker. */
  lemma YearMarkersEmpty(years: Chart<int>)
    requires |years.labels| == |years.values|
    ensures YearMarkers(years) == []
  {
    forall i | 0 <= i < |years.labels|
      ensures Names(years.labels)[i] !in CityLatLng
    {
      NumberIsNoCity(years.labels[i]);
    }
    PlotNothing(Names(years.labels), years.values);
  }

  /** The marker entry `j` of a name/count list gives, if its name has coordinates. */
  predicate MarkerOf(names: seq<string>, counts: seq<nat>, j: int, m: Marker)
  {
    0 <= j < |names| && j < |counts| && names[j] in CityLatLng
    && m == Marker(names[j], CityLatLng[names[j]], counts[j])
  }

  /** Some entry gives marker `m`. */
  ghost predicate FromEntry(names: seq<string>, counts: seq<nat>, m: Marker)
  {
    exists j :: MarkerOf(names, counts, j, m)
  }

  /** The markers are exactly the entries whose name has coordinates, each
      placed at them and carrying its entry's count. */
  lemma PlotSpec(names: seq<string>, counts: seq<nat>)
    requires |names| == |counts|
    ensures forall i :: 0 <= i < |Plot(names, counts)| ==> FromEntry(names, counts, Plot(names, counts)[i])
    ensures forall j :: 0 <= j < |names| && names[j] in CityLatLng ==>
      Marker(names[j], CityLatLng[names[j]], counts[j]) in Plot(names, counts)
  {
    forall i | 0 <= i < |Plot(names, counts)|
      ensures FromEntry(names, counts, Plot(names, counts)[i])
    {
      var j := PlotSource(names, counts, i);
    }
    forall j | 0 <= j < |names| && names[j] in CityLatLng
      ensures Marker(names[j], CityLatLng[names[j]], counts[j]) in Plot(names, counts)
    {
      PlotKeeps(names, counts, j);
    }
  }

  /** Entries with distinct names give markers with distinct names. */
  lemma {:induction false} PlotDistinct(names: seq<string>, counts: seq<nat>)
    requires |names| == |counts| && Distinct(names)
    ensures forall i, j :: 0 <= i < j < |Plot(names, counts)| ==>
      Plot(names, counts)[i].name != Plot(names, counts)[j].name
  {
    if names != [] {
      var n := |names| - 1;
      var pn, pc := names[..n], counts[..n];
      assert Distinct(pn);
      PlotDistinct(pn, pc);
      var p := Plot(pn, pc);
      forall i | 0 <= i < |p|
        ensures p[i].name != names[n]
      {
        var k := PlotSource(pn, pc, i);
        assert p[i].name == names[k];
      }
    }
  }

  /** Markers with distinct names that all name one city are at most one. */
  lemma AtMostOneNamed(ms: seq<Marker>, c: string)
    requires forall i :: 0 <= i < |ms| ==> ms[i].name == c
    requires forall i, j :: 0 <= i < j < |ms| ==> ms[i].name != ms[j].name
    ensures |ms| <= 1
  {
    if |ms| > 1 {
      var first, second := NameAt(ms, 0), NameAt(ms, 1);
      assert false;
    }
  }

  function NameAt(ms: seq<Marker>, i: int): string
  {
    if 0 <= i < |ms| then ms[i].name else ""
  }

  /** Every marker comes from an entry. */
  lemma {:induction false} PlotSource(names: seq<string>, counts: seq<nat>, i: nat) returns (j: nat)
    requires |names| == |counts| && i < |Plot(names, counts)|
    ensures MarkerOf(names, counts, j, Plot(names, counts)[i])
  {
    var n := |names| - 1;
    var p := Plot(names[..n], counts[..n]);
    if i < |p| {
      j := PlotSource(names[..n], counts[..n], i);
    } else {
      j := n;
    }
  }

  /** Every entry with coordinates gives a marker. */
  lemma {:induction false} PlotKeeps(names: seq<string>, counts: seq<nat>, j: nat)
    requires |names| == |counts| && j < |names| && names[j] in CityLatLng
    ensures Marker(names[j], CityLatLng[names[j]], counts[j]) in Plot(names, counts)
  {
    var n := |names| - 1;
    if j < n {
      PlotKeeps(names[..n], counts[..n], j);
    }
  }
}
