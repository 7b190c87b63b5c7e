/** The dataset and the document visitor `safeDocs` of the dashboard effect. */
module Bookings {
  import opened Wrappers
  import opened Seqs

  /** The `dateTime` wrapper of a booking; `date` is its `$date` member. */
  datatype Stamp = Stamp(date: Option<string>)

  /** One booking document. `orderAmount` holds the value `Number(...)` gives
      a present, truthy amount; `None` stands for an absent or falsy one. */
  datatype Doc = Doc(
    city: Option<string>,
    orderAmount: Option<int>,
    bookingStatus: Option<string>,
    paymentMethod: Option<string>,
    dateTime: Option<Stamp>)

  /** A top-level element of the dataset: its `documents` array, or `None`
      when the element has none. */
  type Container = Option<seq<Doc>>

  /** The value of the city selector that disables filtering. */
  const AllCities: string := "ALL"

  /** `d?.dateTime?.$date` */
  function DateOf(d: Doc): Option<string>
  {
    match d.dateTime
    case None => None
    case Some(st) => st.date
  }

  /** A string member as a JavaScript condition sees it: absent and `""` are
      both falsy. */
  function Truthy(o: Option<string>): (r: Option<string>)
    ensures r.Some? <==> o.Some? && o.value != ""
    ensures r.Some? ==> r == o
  {
    match o
    case Some(s) => if s != "" then o else None
    case None => None
  }

  /** The city of a document as `filter(Boolean)` keeps it. */
  function CityKey(d: Doc): Option<string>
  {
    Truthy(d.city)
  }

  /** Every container's documents, in order; a container without `documents`
      contributes nothing. */
  function Flatten(data: seq<Container>): seq<Doc>
  {
    if data == [] then []
    else Flatten(data[..|data| - 1]) + DocsOf(data[|data| - 1])
  }

  function DocsOf(c: Container): seq<Doc>
  {
    match c
    case None => []
    case Some(ds) => ds
  }

  /** The document test of the visitor: a document reaches the callback when
      no city is selected or its city is the selected one (absent never is). */
  predicate Visible(selectedCity: string, d: Doc)
  {
    selectedCity == AllCities || d.city == Some(selectedCity)
  }

  /** The documents of `ds` that pass the test, in their order. */
  function Select(ds: seq<Doc>, selectedCity: string): seq<Doc>
  {
    if ds == [] then []
    else
      Select(ds[..|ds| - 1], selectedCity)
      + (if Visible(selectedCity, ds[|ds| - 1]) then [ds[|ds| - 1]] else [])
  }

  /** The sequence of documents the visitor hands to its callback. */
  function Visited(data: seq<Container>, selectedCity: string): seq<Doc>
  {
    Select(Flatten(data), selectedCity)
  }

  /** The visitor, collecting the documents its callback would receive: the
      loop walks the containers, `SelectVisible` a container's documents. */
  method SafeDocs(data: seq<Container>, selectedCity: string) returns (docs: seq<Doc>)
    ensures docs == Visited(data, selectedCity)
  {
    docs := [];
    var i := 0;
    while i < |data|
      invariant 0 <= i <= |data|
      invariant docs == Visited(data[..i], selectedCity)
    {
      VisitedSnoc(data, i, selectedCity);
      match data[i] {
        case None =>
        case Some(ds) =>
          var shown := SelectVisible(ds, selectedCity);
          docs := docs + shown;
      }
      i := i + 1;
    }
    assert data[..i] == data;
  }

  /** The inner loop of the visitor: the documents of one container that
      pass the test, in their order. */
  method SelectVisible(ds: seq<Doc>, selectedCity: string) returns (shown: seq<Doc>)
    ensures shown == Select(ds, selectedCity)
  {
    shown := [];
    for j := 0 to |ds|
      invariant shown == Select(ds[..j], selectedCity)
    {
      SelectSnoc(ds, j, selectedCity);
      if Visible(selectedCity, ds[j]) {
        shown := shown + [ds[j]];
      }
    }
    assert ds[..|ds|] == ds;
  }

  /** One more document adds itself when it passes the test. */
  lemma SelectSnoc(ds: seq<Doc>, j: nat, selectedCity: string)
    requires j < |ds|
    ensures Select(ds[..j + 1], selectedCity)
      == Select(ds[..j], selectedCity) + (if Visible(selectedCity, ds[j]) then [ds[j]] else [])
  {
    assert ds[..j + 1][..j] == ds[..j];
  }

  /** One more container adds the visible documents it holds. */
  lemma VisitedSnoc(data: seq<Container>, i: nat, selectedCity: string)
    requires i < |data|
    ensures Visited(data[..i + 1], selectedCity) == Visited(data[..i], selectedCity) + Select(DocsOf(data[i]), selectedCity)
  {
    assert data[..i + 1][..i] == data[..i];
    SelectAppend(Flatten(data[..i]), DocsOf(data[i]), selectedCity);
  }

  lemma {:induction false} SelectAppend(a: seq<Doc>, b: seq<Doc>, selectedCity: string)
    ensures Select(a + b, selectedCity) == Select(a, selectedCity) + Select(b, selectedCity)
    decreases |b|
  {
    if b == [] {
      assert a + b == a;
    } else {
      assert (a + b)[..|a + b| - 1] == a + b[..|b| - 1];
      SelectAppend(a, b[..|b| - 1], selectedCity);
    }
  }

  lemma {:induction false} FlattenAppend(a: seq<Container>, b: seq<Container>)
    ensures Flatten(a + b) == Flatten(a) + Flatten(b)
    decreases |b|
  {
    if b == [] {
      assert a + b == a;
    } else {
      assert (a + b)[..|a + b| - 1] == a + b[..|b| - 1];
      FlattenAppend(a, b[..|b| - 1]);
    }
  }

  /** With no city selected the visitor sees every document of every
      container, in order. */
  lemma {:induction false} VisitAll(data: seq<Container>)
    ensures Visited(data, AllCities) == Flatten(data)
  {
    SelectAllKeeps(Flatten(data));
  }

  lemma {:induction false} SelectAllKeeps(ds: seq<Doc>)
    ensures Select(ds, AllCities) == ds
  {
    if ds != [] {
      SelectAllKeeps(ds[..|ds| - 1]);
    }
  }

  /** A document is visited exactly when it is in the dataset and passes the
      test; with a concrete city that means its city is that one, so a
      document without a city is never visited. */
  lemma {:induction false} SelectMembers(ds: seq<Doc>, selectedCity: string)
    ensures forall i :: 0 <= i < |Select(ds, selectedCity)| ==>
      Select(ds, selectedCity)[i] in ds && Visible(selectedCity, Select(ds, selectedCity)[i])
    ensures forall d :: d in ds && Visible(selectedCity, d) ==> d in Select(ds, selectedCity)
  {
    if ds != [] {
      var p := ds[..|ds| - 1];
      SelectMembers(p, selectedCity);
      assert ds == p + [ds[|ds| - 1]];
    }
  }

  lemma VisitCity(data: seq<Container>, c: string)
    requires c != AllCities
    ensures forall i :: 0 <= i < |Visited(data, c)| ==>
      Visited(data, c)[i] in Flatten(data) && Visited(data, c)[i].city == Some(c)
    ensures forall d :: d in Flatten(data) && d.city == Some(c) ==> d in Visited(data, c)
    ensures forall d: Doc :: d.city.None? ==> d !in Visited(data, c)
  {
    SelectMembers(Flatten(data), c);
  }

  /** A container without `documents` changes nothing, wherever it stands. */
  lemma AbsentDocumentsIgnored(before: seq<Container>, after: seq<Container>, selectedCity: string)
    ensures Visited(before + [None] + after, selectedCity) == Visited(before + after, selectedCity)
  {
    var none: seq<Container> := [None];
    FlattenAppend(before + none, after);
    FlattenAppend(before, none);
    FlattenAppend(before, after);
    assert none[..0] == [];
    assert Flatten(none) == [];
    assert Flatten(before + none) == Flatten(before);
    assert Flatten(before + none + after) == Flatten(before + after);
  }

  /** Reordering the containers reorders the visited documents and nothing
      more: the visited multiset depends only on the multiset of containers. */
  lemma {:induction false} VisitPermutation(a: seq<Container>, b: seq<Container>, selectedCity: string)
    requires multiset(a) == multiset(b)
    ensures multiset(Visited(a, selectedCity)) == multiset(Visited(b, selectedCity))
    decreases |a|
  {
    if a == [] {
      assert |multiset(b)| == 0;
    } else {
      var i := PermutationStep(a, b);
      var x, a', b' := a[|a| - 1], a[..|a| - 1], b[..i] + b[i + 1..];
      VisitPermutation(a', b', selectedCity);
      FlattenAppend(a', [x]);
      FlattenAppend(b[..i] + [x], b[i + 1..]);
      FlattenAppend(b[..i], [x]);
      FlattenAppend(b[..i], b[i + 1..]);
      var xs: seq<Container> := [x];
      assert xs[..0] == [];
      SelectAppend(Flatten(a'), DocsOf(x), selectedCity);
      SelectAppend(Flatten(b[..i]) + DocsOf(x), Flatten(b[i + 1..]), selectedCity);
      SelectAppend(Flatten(b[..i]), DocsOf(x), selectedCity);
      SelectAppend(Flatten(b[..i]), Flatten(b[i + 1..]), selectedCity);
    }
  }

  /** A top-level element as the parsed JSON holds it: its `documents` member
      is absent or `null`, an array, or a value of another type. */
  datatype RawContainer = NoDocuments | DocArray(docs: seq<Doc>) | NotAnArray

  /** How one pass of the visitor as written ends: it completes with the
      documents handed to the callback, or `forEach` of a non-array throws. */
  datatype Outcome = Completed(docs: seq<Doc>) | TypeError

  /** The visitor as written, on raw containers: `item.documents?.forEach`
      skips an absent member and throws on one that is not an array. */
  function VisitAsWritten(raw: seq<RawContainer>, selectedCity: string): Outcome
  {
    if raw == [] then Completed([])
    else
      match VisitAsWritten(raw[..|raw| - 1], selectedCity)
      case TypeError => TypeError
      case Completed(docs) =>
        match raw[|raw| - 1]
        case NoDocuments => Completed(docs)
        case DocArray(ds) => Completed(docs + Select(ds, selectedCity))
        case NotAnArray => TypeError
  }

  /** The intended reading of a container: a `documents` member that is not an
      array contributes nothing, like an absent one. */
  function AsContainer(r: RawContainer): Container
  {
    match r
    case DocArray(ds) => Some(ds)
    case _ => None
  }

  /** The dataset the rest of the model works on. */
  function Normalize(raw: seq<RawContainer>): (data: seq<Container>)
    ensures |data| == |raw|
    ensures forall i :: 0 <= i < |raw| ==> (data[i].Some? <==> raw[i].DocArray?)
  {
    seq(|raw|, i requires 0 <= i < |raw| => AsContainer(raw[i]))
  }

  /** The visitor as written throws exactly when some container's `documents`
      is not an array, and otherwise hands over the intended documents. */
  lemma {:induction false} VisitAsWrittenThrows(raw: seq<RawContainer>, selectedCity: string)
    ensures VisitAsWritten(raw, selectedCity).TypeError? <==> exists i :: 0 <= i < |raw| && raw[i].NotAnArray?
    ensures VisitAsWritten(raw, selectedCity).Completed? ==>
      VisitAsWritten(raw, selectedCity).docs == Visited(Normalize(raw), selectedCity)
  {
    if raw != [] {
      var n := |raw| - 1;
      var p := raw[..n];
      VisitAsWrittenThrows(p, selectedCity);
      assert Normalize(p) == Normalize(raw)[..n];
      VisitedSnoc(Normalize(raw), n, selectedCity);
      assert Normalize(raw)[..n + 1] == Normalize(raw);
      if exists i :: 0 <= i < |p| && p[i].NotAnArray? {
        var i :| 0 <= i < |p| && p[i].NotAnArray?;
        assert raw[i] == p[i];
      }
    }
  }

  /** The corrected visitor: a container whose `documents` is not an array
      changes nothing, wherever it stands. */
  lemma MalformedDocumentsIgnored(before: seq<RawContainer>, after: seq<RawContainer>, selectedCity: string)
    ensures Visited(Normalize(before + [NotAnArray] + after), selectedCity)
      == Visited(Normalize(before + after), selectedCity)
  {
    assert Normalize(before + [NotAnArray] + after) == Normalize(before) + [None] + Normalize(after);
    assert Normalize(before + after) == Normalize(before) + Normalize(after);
    AbsentDocumentsIgnored(Normalize(before), Normalize(after), selectedCity);
  }
}
