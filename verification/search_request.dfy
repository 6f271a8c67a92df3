/** One element of a multi-search call: a builder that accumulates a search
    type, target indices and types, routing, preference and a query source,
    and projects them into the header line and body line of the batch. */
module SearchRequests {
  import opened Wrappers
  import opened Json
  import opened Text

  /** Builder state. `routing` and `preference` distinguish absent from "";
      `source` is Null until a source is given. */
  datatype SearchRequest = SearchRequest(
    searchType: string,
    indices: seq<string>,
    types: seq<string>,
    routing: Option<string>,
    preference: Option<string>,
    source: Value)

  /** A header entry is either one string or a list of strings. */
  datatype HeaderValue = Scalar(text: string) | List(items: seq<string>)

  /** The keys a header can hold; `Name` gives the text written on the wire. */
  datatype HeaderKey =
    | SearchTypeKey | IndexKey | IndicesKey | TypesKey | TypeKey | RoutingKey | PreferenceKey
  {
    function Name(): string
    {
      match this
      case SearchTypeKey => "search_type"
      case IndexKey => "index"
      case IndicesKey => "indices"
      case TypesKey => "types"
      case TypeKey => "type"
      case RoutingKey => "routing"
      case PreferenceKey => "preference"
    }
  }

  /** What `Source` accepts: a `*SearchSource` (of type B, the `Builder` case), or any
      other value, including other builder types and nil (Null), as `Plain`. */
  datatype SourceArg<B> = Builder(builder: B) | Plain(value: Value)

  const QueryThenFetch := "query_then_fetch"
  const QueryAndFetch := "query_and_fetch"
  const Scan := "scan"
  const Count := "count"
  const DfsQueryThenFetch := "dfs_query_then_fetch"
  const DfsQueryAndFetch := "dfs_query_and_fetch"

  /** The search types the service accepts; "" leaves the choice to the service. */
  const SearchTypes: set<string> :=
    {QueryThenFetch, QueryAndFetch, Scan, Count, DfsQueryThenFetch, DfsQueryAndFetch}

  function NewSearchRequest(): SearchRequest
  {
    SearchRequest("", [], [], None, None, Null)
  }

  // ---------------------------------------------------------------- setters

  function SearchType(r: SearchRequest, searchType: string): (r': SearchRequest)
    ensures r'.searchType == searchType
    ensures r'.(searchType := r.searchType) == r
  {
    r.(searchType := searchType)
  }

  function SearchTypeDfsQueryThenFetch(r: SearchRequest): (r': SearchRequest)
    ensures r'.searchType == "dfs_query_then_fetch"
    ensures r'.(searchType := r.searchType) == r
  {
    SearchType(r, DfsQueryThenFetch)
  }

  function SearchTypeDfsQueryAndFetch(r: SearchRequest): (r': SearchRequest)
    ensures r'.searchType == "dfs_query_and_fetch"
    ensures r'.(searchType := r.searchType) == r
  {
    SearchType(r, DfsQueryAndFetch)
  }

  function SearchTypeQueryThenFetch(r: SearchRequest): (r': SearchRequest)
    ensures r'.searchType == "query_then_fetch"
    ensures r'.(searchType := r.searchType) == r
  {
    SearchType(r, QueryThenFetch)
  }

  function SearchTypeQueryAndFetch(r: SearchRequest): (r': SearchRequest)
    ensures r'.searchType == "query_and_fetch"
    ensures r'.(searchType := r.searchType) == r
  {
    SearchType(r, QueryAndFetch)
  }

  function SearchTypeScan(r: SearchRequest): (r': SearchRequest)
    ensures r'.searchType == "scan"
    ensures r'.(searchType := r.searchType) == r
  {
    SearchType(r, Scan)
  }

  function SearchTypeCount(r: SearchRequest): (r': SearchRequest)
    ensures r'.searchType == "count"
    ensures r'.(searchType := r.searchType) == r
  {
    SearchType(r, Count)
  }

  /** Appends one index; earlier indices, duplicates included, keep their places. */
  function Index(r: SearchRequest, index: string): (r': SearchRequest)
    ensures |r'.indices| == |r.indices| + 1
    ensures r'.indices[..|r.indices|] == r.indices && r'.indices[|r.indices|] == index
    ensures r'.(indices := r.indices) == r
  {
    r.(indices := r.indices + [index])
  }

  /** Appends all given indices in order. */
  function Indices(r: SearchRequest, indices: seq<string>): (r': SearchRequest)
    ensures |r'.indices| == |r.indices| + |indices|
    ensures r'.indices[..|r.indices|] == r.indices && r'.indices[|r.indices|..] == indices
    ensures r'.(indices := r.indices) == r
  {
    r.(indices := r.indices + indices)
  }

  predicate HasIndices(r: SearchRequest)
  {
    |r.indices| > 0
  }

  /** Appends one type. */
  function Type(r: SearchRequest, typ: string): (r': SearchRequest)
    ensures |r'.types| == |r.types| + 1
    ensures r'.types[..|r.types|] == r.types && r'.types[|r.types|] == typ
    ensures r'.(types := r.types) == r
  {
    r.(types := r.types + [typ])
  }

  /** Appends all given types in order. */
  function Types(r: SearchRequest, types: seq<string>): (r': SearchRequest)
    ensures |r'.types| == |r.types| + |types|
    ensures r'.types[..|r.types|] == r.types && r'.types[|r.types|..] == types
    ensures r'.(types := r.types) == r
  {
    r.(types := r.types + types)
  }

  function Routing(r: SearchRequest, routing: string): (r': SearchRequest)
    ensures r'.routing == Some(routing)
    ensures r'.(routing := r.routing) == r
  {
    r.(routing := Some(routing))
  }

  /** `routings` is None when no argument slice is passed at all (Go's nil
      slice): routing becomes absent. Otherwise the values are comma-joined,
      so an empty list gives the present but empty routing "". */
  function Routings(r: SearchRequest, routings: Option<seq<string>>): (r': SearchRequest)
    ensures routings.None? ==> r'.routing.None?
    ensures routings.Some? ==> r'.routing.Some?
    ensures routings.Some? && |routings.value| == 0 ==> r'.routing == Some("")
    ensures routings.Some? && |routings.value| == 1 ==> r'.routing == Some(routings.value[0])
    ensures r'.(routing := r.routing) == r
  {
    match routings
    case None => r.(routing := None)
    case Some(values) => r.(routing := Some(Join(values, ",")))
  }

  function Preference(r: SearchRequest, preference: string): (r': SearchRequest)
    ensures r'.preference == Some(preference)
    ensures r'.(preference := r.preference) == r
  {
    r.(preference := Some(preference))
  }

  /** Stores a `*SearchSource` as its `Source()` rendering and any other value verbatim.
      `render` stands for that rendering, which is not modelled. */
  function Source<B>(r: SearchRequest, source: SourceArg<B>, render: B -> Value): (r': SearchRequest)
    ensures source.Plain? ==> r'.source == source.value
    ensures source.Builder? ==> r'.source == render(source.builder)
    ensures r'.(source := r.source) == r
  {
    match source
    case Builder(b) => r.(source := render(b))
    case Plain(v) => r.(source := v)
  }

  // ------------------------------------------------------------ projections

  /** An optional string that is present and not empty; anything else counts as unset. */
  function Effective(o: Option<string>): Option<string>
  {
    if o.Some? && o.value != "" then o else None
  }

  /** Every key a header can hold. */
  const AllHeaderKeys: set<HeaderKey> :=
    {SearchTypeKey, IndexKey, IndicesKey, TypesKey, TypeKey, RoutingKey, PreferenceKey}

  /** What the header holds under one key, if anything. Indices use `index`
      for one and `indices` for several; types use the reverse, `types` for
      one and `type` for several. */
  function HeaderEntry(r: SearchRequest, key: HeaderKey): Option<HeaderValue>
  {
    match key
    case SearchTypeKey => if r.searchType == "" then None else Some(Scalar(r.searchType))
    case IndexKey => if |r.indices| == 1 then Some(Scalar(r.indices[0])) else None
    case IndicesKey => if |r.indices| >= 2 then Some(List(r.indices)) else None
    case TypesKey => if |r.types| == 1 then Some(Scalar(r.types[0])) else None
    case TypeKey => if |r.types| >= 2 then Some(List(r.types)) else None
    case RoutingKey => if Effective(r.routing).Some? then Some(Scalar(r.routing.value)) else None
    case PreferenceKey => if Effective(r.preference).Some? then Some(Scalar(r.preference.value)) else None
  }

  /** The header line of this request in a multi-search batch. */
  function Header(r: SearchRequest): (h: map<HeaderKey, HeaderValue>)
    ensures SearchTypeKey in h <==> r.searchType != ""
    ensures SearchTypeKey in h ==> h[SearchTypeKey] == Scalar(r.searchType)
    ensures IndexKey in h <==> |r.indices| == 1
    ensures IndexKey in h ==> h[IndexKey] == Scalar(r.indices[0])
    ensures IndicesKey in h <==> |r.indices| >= 2
    ensures IndicesKey in h ==> h[IndicesKey] == List(r.indices)
    ensures TypesKey in h <==> |r.types| == 1
    ensures TypesKey in h ==> h[TypesKey] == Scalar(r.types[0])
    ensures TypeKey in h <==> |r.types| >= 2
    ensures TypeKey in h ==> h[TypeKey] == List(r.types)
    ensures RoutingKey in h <==> r.routing.Some? && r.routing.value != ""
    ensures RoutingKey in h ==> h[RoutingKey] == Scalar(r.routing.value)
    ensures PreferenceKey in h <==> r.preference.Some? && r.preference.value != ""
    ensures PreferenceKey in h ==> h[PreferenceKey] == Scalar(r.preference.value)
  {
    map key | key in AllHeaderKeys && HeaderEntry(r, key).Some? :: HeaderEntry(r, key).value
  }

  /** The body line of this request in a multi-search batch. */
  function Body(r: SearchRequest): Value
  {
    r.source
  }

  // ------------------------------------------------------------- properties

  /** A fresh request has an empty header, no indices and a Null body. */
  lemma NewRequestIsBlank()
    ensures Header(NewSearchRequest()) == map[]
    ensures !HasIndices(NewSearchRequest())
    ensures Body(NewSearchRequest()) == Null
  {
    assert Header(NewSearchRequest()).Keys == {};
  }

  /** Distinct keys are written as distinct names. */
  lemma HeaderKeyNamesDistinct(a: HeaderKey, b: HeaderKey)
    ensures a.Name() == b.Name() ==> a == b
  {
  }

  /** The header never holds both forms of the index key, nor both forms of the type key. */
  lemma HeaderFormsExclusive(r: SearchRequest)
    ensures !(IndexKey in Header(r) && IndicesKey in Header(r))
    ensures !(TypesKey in Header(r) && TypeKey in Header(r))
  {
  }

  /** `HasIndices` is exactly "the header names some index". */
  lemma HasIndicesIffHeaderNamesIndex(r: SearchRequest)
    ensures HasIndices(r) <==> (IndexKey in Header(r) || IndicesKey in Header(r))
  {
  }

  /** `HasIndices` turns true once some index is added, by `Index` or by a non-empty
      `Indices`, stays true from then on, and is false for a fresh request. */
  lemma HasIndicesAfterAdding(r: SearchRequest, index: string, indices: seq<string>)
    ensures HasIndices(Index(r, index))
    ensures HasIndices(Indices(r, indices)) <==> HasIndices(r) || |indices| > 0
    ensures !HasIndices(NewSearchRequest())
  {
  }

  /** Adding several indices at once is the same as adding them one by one. */
  function IndexEach(r: SearchRequest, indices: seq<string>): SearchRequest
    decreases |indices|
  {
    if |indices| == 0 then r else IndexEach(Index(r, indices[0]), indices[1..])
  }

  lemma {:induction false} IndicesIsRepeatedIndex(r: SearchRequest, indices: seq<string>)
    ensures Indices(r, indices) == IndexEach(r, indices)
    decreases |indices|
  {
    if |indices| > 0 {
      IndicesIsRepeatedIndex(Index(r, indices[0]), indices[1..]);
      assert r.indices + indices == (r.indices + [indices[0]]) + indices[1..];
    }
  }

  /** Adding several types at once is the same as adding them one by one. */
  function TypeEach(r: SearchRequest, types: seq<string>): SearchRequest
    decreases |types|
  {
    if |types| == 0 then r else TypeEach(Type(r, types[0]), types[1..])
  }

  lemma {:induction false} TypesIsRepeatedType(r: SearchRequest, types: seq<string>)
    ensures Types(r, types) == TypeEach(r, types)
    decreases |types|
  {
    if |types| > 0 {
      TypesIsRepeatedType(Type(r, types[0]), types[1..]);
      assert r.types + types == (r.types + [types[0]]) + types[1..];
    }
  }

  /** The comma-joined routing splits back into the values given, when none of them holds a comma. */
  lemma RoutingsSplitsBack(r: SearchRequest, values: seq<string>)
    requires |values| >= 1
    requires forall i :: 0 <= i < |values| ==> ',' !in values[i]
    ensures Split(Routings(r, Some(values)).routing.value, ',') == values
  {
    SplitJoin(values, ',');
  }

  /** Two values give "a,b"; an empty list gives a routing the header leaves out;
      no list at all clears routing. */
  lemma RoutingsExamples(r: SearchRequest)
    ensures Routings(r, Some(["a", "b"])).routing == Some("a,b")
    ensures Routings(r, Some([])).routing == Some("")
    ensures RoutingKey !in Header(Routings(r, Some([])))
    ensures Routings(Routing(r, "x"), None).routing == None
  {
    assert ["a", "b"][1..] == ["b"];
    assert "a" + "," + "b" == "a,b";
  }

  /** Two requests have the same header exactly when they agree on search type,
      indices, types, and on routing and preference once "" is read as unset. */
  predicate SameWireHeader(a: SearchRequest, b: SearchRequest)
  {
    && a.searchType == b.searchType
    && a.indices == b.indices
    && a.types == b.types
    && Effective(a.routing) == Effective(b.routing)
    && Effective(a.preference) == Effective(b.preference)
  }

  lemma ListDeterminedByHeader(single: HeaderKey, multiple: HeaderKey, xs: seq<string>, ys: seq<string>,
                               h: map<HeaderKey, HeaderValue>, g: map<HeaderKey, HeaderValue>)
    requires single in h <==> |xs| == 1
    requires single in h ==> h[single] == Scalar(xs[0])
    requires multiple in h <==> |xs| >= 2
    requires multiple in h ==> h[multiple] == List(xs)
    requires single in g <==> |ys| == 1
    requires single in g ==> g[single] == Scalar(ys[0])
    requires multiple in g <==> |ys| >= 2
    requires multiple in g ==> g[multiple] == List(ys)
    requires h == g
    ensures xs == ys
  {
    if |xs| == 1 {
      assert xs == [xs[0]] && ys == [ys[0]];
    }
  }

  /** Requests that agree on every header entry have the same header. */
  lemma HeaderFollowsEntries(a: SearchRequest, b: SearchRequest)
    requires forall key :: HeaderEntry(a, key) == HeaderEntry(b, key)
    ensures Header(a) == Header(b)
  {
  }

  lemma HeaderDeterminesWireFields(a: SearchRequest, b: SearchRequest)
    ensures Header(a) == Header(b) <==> SameWireHeader(a, b)
  {
    var ha, hb := Header(a), Header(b);
    if ha == hb {
      ListDeterminedByHeader(IndexKey, IndicesKey, a.indices, b.indices, ha, hb);
      ListDeterminedByHeader(TypesKey, TypeKey, a.types, b.types, ha, hb);
    }
    if SameWireHeader(a, b) {
      HeaderFollowsEntries(a, b);
    }
  }

  /** Setting the source changes the body only, never the header. */
  lemma SourceFeedsBodyOnly<B>(r: SearchRequest, source: SourceArg<B>, render: B -> Value)
    ensures Header(Source(r, source, render)) == Header(r)
    ensures source.Plain? ==> Body(Source(r, source, render)) == source.value
    ensures source.Builder? ==> Body(Source(r, source, render)) == render(source.builder)
  {
    HeaderFollowsEntries(Source(r, source, render), r);
  }

  /** Each named search type is one of the six the service accepts, and reaches the header. */
  lemma SearchTypeShortcutsReachHeader(r: SearchRequest)
    ensures SearchTypeQueryThenFetch(r).searchType in SearchTypes
    ensures SearchTypeQueryAndFetch(r).searchType in SearchTypes
    ensures SearchTypeScan(r).searchType in SearchTypes
    ensures SearchTypeCount(r).searchType in SearchTypes
    ensures SearchTypeDfsQueryThenFetch(r).searchType in SearchTypes
    ensures SearchTypeDfsQueryAndFetch(r).searchType in SearchTypes
    ensures Header(SearchTypeQueryThenFetch(r))[SearchTypeKey] == Scalar("query_then_fetch")
    ensures Header(SearchTypeQueryAndFetch(r))[SearchTypeKey] == Scalar("query_and_fetch")
    ensures Header(SearchTypeScan(r))[SearchTypeKey] == Scalar("scan")
    ensures Header(SearchTypeCount(r))[SearchTypeKey] == Scalar("count")
    ensures Header(SearchTypeDfsQueryThenFetch(r))[SearchTypeKey] == Scalar("dfs_query_then_fetch")
    ensures Header(SearchTypeDfsQueryAndFetch(r))[SearchTypeKey] == Scalar("dfs_query_and_fetch")
  {
  }
}
