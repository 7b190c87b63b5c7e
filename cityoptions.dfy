/** The options of the city selector: "ALL", then every city of the dataset
    once, in first-seen order. The list is built from the whole dataset and
    has no selected-city input, so applying a filter never shrinks it. */
module CityOptions {
  import opened Wrappers
  import opened Seqs
  import opened Bookings
  import opened Tallies

  /** `["ALL", ...new Set(data.flatMap(i => i.documents?.map(d => d.city)).filter(Boolean))]` */
  function Options(data: seq<Container>): seq<string>
  {
    [AllCities] + Dedup(KeysOf(Flatten(data), CityKey))
  }

  /** The list starts with "ALL" and then holds each truthy city of the
      dataset exactly once, in the order the cities first appear. */
  lemma OptionsSpec(data: seq<Container>)
    ensures |Options(data)| >= 1 && Options(data)[0] == AllCities
    ensures Distinct(Options(data)[1..])
    ensures forall i :: 1 <= i < |Options(data)| ==> Options(data)[i] != "" && CityOfSomeDoc(data, Options(data)[i])
    ensures forall j :: 0 <= j < |Flatten(data)| && Flatten(data)[j].city.Some? && Flatten(data)[j].city.value != "" ==>
      Flatten(data)[j].city.value in Options(data)[1..]
    ensures forall i, j :: 1 <= i < j < |Options(data)| ==>
      FirstIndex(KeysOf(Flatten(data), CityKey), Options(data)[i]) < FirstIndex(KeysOf(Flatten(data), CityKey), Options(data)[j])
  {
    OptionsOrder(data);
    OptionsComplete(data);
    forall i | 1 <= i < |Options(data)|
      ensures Options(data)[i] != "" && CityOfSomeDoc(data, Options(data)[i])
    {
      var j := OptionSource(data, i);
    }
  }

  /** Some document of the dataset has city `c`. */
  ghost predicate CityOfSomeDoc(data: seq<Container>, c: string)
  {
    exists j :: 0 <= j < |Flatten(data)| && Flatten(data)[j].city == Some(c)
  }

  lemma OptionsOrder(data: seq<Container>)
    ensures Distinct(Options(data)[1..])
    ensures forall i, j :: 1 <= i < j < |Options(data)| ==>
      FirstIndex(KeysOf(Flatten(data), CityKey), Options(data)[i]) < FirstIndex(KeysOf(Flatten(data), CityKey), Options(data)[j])
  {
    var cities := KeysOf(Flatten(data), CityKey);
    var tail := Dedup(cities);
    assert Options(data)[1..] == tail;
    DedupSpec(cities);
    forall i, j | 1 <= i < j < |Options(data)|
      ensures FirstIndex(cities, Options(data)[i]) < FirstIndex(cities, Options(data)[j])
    {
      assert Options(data)[i] == tail[i - 1] && Options(data)[j] == tail[j - 1];
    }
  }

  lemma OptionsComplete(data: seq<Container>)
    ensures forall j :: 0 <= j < |Flatten(data)| && Flatten(data)[j].city.Some? && Flatten(data)[j].city.value != "" ==>
      Flatten(data)[j].city.value in Options(data)[1..]
  {
    var cities := KeysOf(Flatten(data), CityKey);
    assert Options(data)[1..] == Dedup(cities);
    DedupSpec(cities);
    KeysOfSpec(Flatten(data), CityKey);
  }

  /** The document an option comes from. */
  lemma OptionSource(data: seq<Container>, i: nat) returns (j: nat)
    requires 1 <= i < |Options(data)|
    ensures j < |Flatten(data)| && Flatten(data)[j].city == Some(Options(data)[i]) && Options(data)[i] != ""
  {
    var docs := Flatten(data);
    var cities := KeysOf(docs, CityKey);
    var tail := Dedup(cities);
    assert Options(data)[i] == tail[i - 1];
    DedupSpec(cities);
    KeysOfSpec(docs, CityKey);
    var k :| 0 <= k < |cities| && cities[k] == tail[i - 1];
    j :| 0 <= j < |docs| && CityKey(docs[j]) == Some(cities[k]);
  }

  /** Choosing any city of the list shows at least one order. */
  lemma OptionSelectsSome(data: seq<Container>, c: string)
    requires c in Options(data)[1..]
    ensures |Visited(data, c)| > 0
  {
    OptionsSpec(data);
    var i :| 1 <= i < |Options(data)| && Options(data)[i] == c;
    var j :| 0 <= j < |Flatten(data)| && Flatten(data)[j].city == Some(c) && c != "";
    SelectMembers(Flatten(data), c);
    assert Flatten(data)[j] in Visited(data, c);
  }

  /** Whatever city is selected, every truthy city among the documents shown
      is one of the options. */
  lemma OptionsCoverVisited(data: seq<Container>, selectedCity: string)
    ensures forall i :: 0 <= i < |Visited(data, selectedCity)| && CityKey(Visited(data, selectedCity)[i]).Some? ==>
      CityKey(Visited(data, selectedCity)[i]).value in Options(data)
  {
    var docs := Flatten(data);
    OptionsSpec(data);
    SelectMembers(docs, selectedCity);
    forall i | 0 <= i < |Visited(data, selectedCity)| && CityKey(Visited(data, selectedCity)[i]).Some?
      ensures CityKey(Visited(data, selectedCity)[i]).value in Options(data)
    {
      var d := Visited(data, selectedCity)[i];
      var j :| 0 <= j < |docs| && docs[j] == d;
      assert d.city.value in Options(data)[1..];
    }
  }

  /** The truthy cities `data.flatMap(i => i.documents?.map(d => d.city))
      .filter(Boolean)` collects from raw containers, or `None` when `map` is
      called on a `documents` that is not an array and the render throws. */
  function CitiesAsWritten(raw: seq<RawContainer>): Option<seq<string>>
  {
    if raw == [] then Some([])
    else
      match CitiesAsWritten(raw[..|raw| - 1])
      case None => None
      case Some(cs) =>
        match raw[|raw| - 1]
        case NoDocuments => Some(cs)
        case DocArray(ds) => Some(cs + KeysOf(ds, CityKey))
        case NotAnArray => None
  }

  /** The option list as written, on raw containers. */
  function OptionsAsWritten(raw: seq<RawContainer>): Option<seq<string>>
  {
    match CitiesAsWritten(raw)
    case None => None
    case Some(cs) => Some([AllCities] + Dedup(cs))
  }

  /** The option list as written fails exactly when some container's
      `documents` is not an array, and otherwise is the intended list. */
  lemma OptionsAsWrittenThrows(raw: seq<RawContainer>)
    ensures OptionsAsWritten(raw).None? <==> exists i :: 0 <= i < |raw| && raw[i].NotAnArray?
    ensures OptionsAsWritten(raw).Some? ==> OptionsAsWritten(raw).value == Options(Normalize(raw))
  {
    CitiesAsWrittenSpec(raw);
  }

  lemma {:induction false} CitiesAsWrittenSpec(raw: seq<RawContainer>)
    ensures CitiesAsWritten(raw).None? <==> exists i :: 0 <= i < |raw| && raw[i].NotAnArray?
    ensures CitiesAsWritten(raw).Some? ==> CitiesAsWritten(raw).value == KeysOf(Flatten(Normalize(raw)), CityKey)
  {
    if raw != [] {
      var n := |raw| - 1;
      var p := raw[..n];
      CitiesAsWrittenSpec(p);
      assert Normalize(raw)[..n] == Normalize(p);
      KeysOfAppend(Flatten(Normalize(p)), DocsOf(Normalize(raw)[n]), CityKey);
      if exists i :: 0 <= i < |p| && p[i].NotAnArray? {
        var i :| 0 <= i < |p| && p[i].NotAnArray?;
        assert raw[i] == p[i];
      }
    }
  }

  /** The intended option list: a container whose `documents` is not an array
      adds no city, wherever it stands. */
  lemma MalformedCitiesIgnored(before: seq<RawContainer>, after: seq<RawContainer>)
    ensures Options(Normalize(before + [NotAnArray] + after)) == Options(Normalize(before + after))
  {
    MalformedDocumentsIgnored(before, after, AllCities);
    VisitAll(Normalize(before + [NotAnArray] + after));
    VisitAll(Normalize(before + after));
  }
}
