/**
 * The event-list search type on OpenSearch (`OSEventList`): how the query
 * part is built (sort, attribute filters, paging) and how a search response
 * becomes an event-list result. Builder and response classes are kept as
 * plain records; hits arrive already parsed into event summaries.
 */
module OSEventList {
  import opened Wrappers

  /** Java's `int`. */
  newtype int32 = x: int | -0x8000_0000 <= x < 0x8000_0000

  const TwoTo32: int := 0x1_0000_0000

  /** Java `int` arithmetic: the low 32 bits of `x`, read as a signed value. */
  function Wrap32(x: int): (r: int32)
    ensures (r as int - x) % TwoTo32 == 0
    ensures -0x8000_0000 <= x < 0x8000_0000 ==> r as int == x
  {
    var m := x % TwoTo32;
    if m < 0x8000_0000 then m as int32 else (m - TwoTo32) as int32
  }

  /** `EventList.DEFAULT_PAGE_SIZE`. */
  const DefaultPageSize: int32 := 10

  /** The size asked for when no page is given. */
  const UnpagedSize: int32 := 10000

  datatype Direction = Asc | Desc

  /** OpenSearch's `SortOrder`. */
  datatype SortOrder = SortAsc | SortDesc

  /** `toSortOrder`. */
  function ToSortOrder(direction: Direction): SortOrder {
    match direction
    case Asc => SortAsc
    case Desc => SortDesc
  }

  function FromSortOrder(order: SortOrder): Direction {
    match order
    case SortAsc => Asc
    case SortDesc => Desc
  }

  /** `toSortOrder` is a bijection between the two directions and the two sort orders. */
  lemma ToSortOrderBijective()
    ensures forall d :: FromSortOrder(ToSortOrder(d)) == d
    ensures forall o :: ToSortOrder(FromSortOrder(o)) == o
    ensures ToSortOrder(Asc) != ToSortOrder(Desc)
  {
  }

  /** `eventList.sortWithDefault()`. */
  datatype SortConfig = SortConfig(field: string, direction: Direction)

  /** An attribute filter; `queryStrings` is what its `toQueryStrings()` gives. */
  datatype Attribute = Attribute(field: string, queryStrings: seq<string>)

  /** The parts of an `EventList` search type read here. */
  datatype EventList = EventList(id: string, name: Option<string>, streams: set<string>,
                                 attributes: seq<Attribute>, sortWithDefault: SortConfig,
                                 page: Option<int32>, perPage: Option<int32>)

  /** The query of the search source: a bool query collects filters, any other query does not. */
  datatype QueryBuilder = BoolQuery(filters: seq<string>) | OtherQuery(text: string)

  datatype Sort = Sort(field: string, order: SortOrder)

  /** The attributes' query strings, flattened in attribute order. */
  function FilterQueries(attributes: seq<Attribute>): seq<string>
    decreases |attributes|
  {
    if attributes == [] then [] else attributes[0].queryStrings + FilterQueries(attributes[1..])
  }

  /** Flattening keeps the attributes' order: it distributes over concatenation. */
  lemma {:induction false} FilterQueriesAppend(a: seq<Attribute>, b: seq<Attribute>)
    ensures FilterQueries(a + b) == FilterQueries(a) + FilterQueries(b)
    decreases |a|
  {
    if a == [] {
      assert a + b == b;
    } else {
      assert (a + b)[1..] == a[1..] + b;
      FilterQueriesAppend(a[1..], b);
    }
  }

  /** There is one filter per query string of every attribute. */
  lemma {:induction false} FilterQueriesCount(attributes: seq<Attribute>)
    ensures |FilterQueries(attributes)| == SumOfQueryStrings(attributes)
    decreases |attributes|
  {
    if attributes != [] {
      FilterQueriesCount(attributes[1..]);
    }
  }

  function SumOfQueryStrings(attributes: seq<Attribute>): nat
    decreases |attributes|
  {
    if attributes == [] then 0 else |attributes[0].queryStrings| + SumOfQueryStrings(attributes[1..])
  }

  /** The query after the attribute filters are added. */
  function WithFilters(query: QueryBuilder, attributes: seq<Attribute>): QueryBuilder {
    if |attributes| > 0 && query.BoolQuery? then BoolQuery(query.filters + FilterQueries(attributes))
    else query
  }

  /**
   * Filters are added only to a bool query and only when there are
   * attributes; what is added is the flattened query strings, after the
   * filters already there.
   */
  lemma FiltersAddedOnlyWhen(query: QueryBuilder, attributes: seq<Attribute>)
    ensures WithFilters(query, attributes) != query ==> |attributes| > 0 && query.BoolQuery?
    ensures |attributes| > 0 && query.BoolQuery? ==>
              WithFilters(query, attributes).BoolQuery?
              && WithFilters(query, attributes).filters[..|query.filters|] == query.filters
              && WithFilters(query, attributes).filters[|query.filters|..] == FilterQueries(attributes)
  {
  }

  /** The page size set on the search source. */
  function PageSize(eventList: EventList): int32 {
    if eventList.page.Some? then eventList.perPage.GetOr(DefaultPageSize) else UnpagedSize
  }

  /** The offset set on the search source, if one is set: `(page - 1) * pageSize` in `int` arithmetic. */
  function PageFrom(eventList: EventList): Option<int32> {
    if eventList.page.Some? then
      Some(Wrap32(Wrap32(eventList.page.value as int - 1) as int * PageSize(eventList) as int))
    else None
  }

  /** Without a page, 10000 events are asked for and no offset is set. */
  lemma UnpagedWindow(eventList: EventList)
    requires eventList.page.None?
    ensures PageSize(eventList) == UnpagedSize && PageFrom(eventList) == None
  {
  }

  /** With a page, the size is `perPage` or the default, and the offset is exact while it fits an `int`. */
  lemma PagedWindow(eventList: EventList)
    requires eventList.page.Some? && eventList.page.value >= 1
    requires (eventList.page.value as int - 1) * PageSize(eventList) as int < 0x8000_0000
    requires PageSize(eventList) >= 0
    ensures PageSize(eventList) == (if eventList.perPage.Some? then eventList.perPage.value else DefaultPageSize)
    ensures PageFrom(eventList).Some?
    ensures PageFrom(eventList).value as int == (eventList.page.value as int - 1) * PageSize(eventList) as int
  {
    var p := eventList.page.value as int;
    var size := PageSize(eventList) as int;
    assert Wrap32(p - 1) as int == p - 1;
    var q := (p - 1) * size;
    ExactProduct(p - 1, size);
    assert PageFrom(eventList) == Some(Wrap32(q));
  }

  /** A product of non-negative numbers that fits an `int` is computed exactly. */
  lemma ExactProduct(a: int, b: int)
    requires 0 <= a && 0 <= b && a * b < 0x8000_0000
    ensures Wrap32(a * b) as int == a * b
  {
    NonnegativeProduct(a, b);
  }

  lemma NonnegativeProduct(a: int, b: int)
    requires 0 <= a && 0 <= b
    ensures 0 <= a * b
  {
  }

  /** Page 1 starts at offset 0. */
  lemma FirstPageStartsAtZero(eventList: EventList)
    requires eventList.page == Some(1)
    ensures PageFrom(eventList) == Some(0)
  {
  }

  /** Consecutive pages are one page size apart, while the offsets fit an `int`. */
  lemma ConsecutivePages(eventList: EventList, p: int32)
    requires 1 <= p < 0x7fff_ffff
    requires PageSize(eventList.(page := Some(p))) >= 0
    requires p as int * PageSize(eventList.(page := Some(p))) as int < 0x8000_0000
    ensures var size := PageSize(eventList.(page := Some(p)));
            && PageSize(eventList.(page := Some(p + 1))) == size
            && PageFrom(eventList.(page := Some(p + 1))).value as int
               == PageFrom(eventList.(page := Some(p))).value as int + size as int
  {
    var size := PageSize(eventList.(page := Some(p))) as int;
    assert (p as int - 1) * size <= p as int * size;
    PagedWindow(eventList.(page := Some(p)));
    PagedWindow(eventList.(page := Some(p + 1)));
    assert (p as int + 1 - 1) * size == (p as int - 1) * size + size;
  }

  /** Page 0 asks for a negative offset: nothing checks the page number here. */
  lemma PageZeroOffsetIsNegative(eventList: EventList)
    requires eventList.page == Some(0) && eventList.perPage.Some? && 0 <= eventList.perPage.value
    ensures PageFrom(eventList) == Some(-eventList.perPage.value)
  {
  }

  /** The offset is computed in `int` and wraps: page 2^30 + 1 of size 2 starts at -2^31. */
  lemma LargePageOffsetWraps(eventList: EventList)
    requires eventList.page == Some(0x4000_0001) && eventList.perPage == Some(2)
    ensures PageFrom(eventList) == Some(-0x8000_0000)
  {
  }

  /** The `searchSourceBuilder` of the query context, as far as this search type sets it. */
  class SearchSourceBuilder {
    var sorts: seq<Sort>
    var query: QueryBuilder
    var size: Option<int32>
    var from: Option<int32>

    constructor (query: QueryBuilder)
      ensures sorts == [] && this.query == query && size == None && from == None
    {
      sorts := [];
      this.query := query;
      size := None;
      from := None;
    }
  }

  /**
   * `doGenerateQueryPart`: adds the sort, the attribute filters when the query
   * is a bool query, and the page window; `from` is left alone when there is no page.
   */
  method DoGenerateQueryPart(eventList: EventList, searchSourceBuilder: SearchSourceBuilder)
    modifies searchSourceBuilder
    ensures searchSourceBuilder.sorts
         == old(searchSourceBuilder.sorts)
            + [Sort(eventList.sortWithDefault.field, ToSortOrder(eventList.sortWithDefault.direction))]
    ensures searchSourceBuilder.query == WithFilters(old(searchSourceBuilder.query), eventList.attributes)
    ensures searchSourceBuilder.size == Some(PageSize(eventList))
    ensures searchSourceBuilder.from
         == if eventList.page.Some? then PageFrom(eventList) else old(searchSourceBuilder.from)
  {
    var sortConfig := eventList.sortWithDefault;
    searchSourceBuilder.sorts := searchSourceBuilder.sorts + [Sort(sortConfig.field, ToSortOrder(sortConfig.direction))];
    var queryBuilder := searchSourceBuilder.query;
    if |eventList.attributes| > 0 && queryBuilder.BoolQuery? {
      var filterQueries := FilterQueries(eventList.attributes);
      for i := 0 to |filterQueries|
        modifies searchSourceBuilder`query
        invariant searchSourceBuilder.query == BoolQuery(queryBuilder.filters + filterQueries[..i])
      {
        assert filterQueries[..i + 1] == filterQueries[..i] + [filterQueries[i]];
        searchSourceBuilder.query := BoolQuery(searchSourceBuilder.query.filters + [filterQueries[i]]);
      }
      assert filterQueries[..|filterQueries|] == filterQueries;
    }
    match eventList.page
    case Some(page) =>
      var pageSize := eventList.perPage.GetOr(DefaultPageSize);
      searchSourceBuilder.size := Some(pageSize);
      searchSourceBuilder.from := Some(Wrap32(Wrap32(page as int - 1) as int * pageSize as int));
    case None =>
      searchSourceBuilder.size := Some(UnpagedSize);
  }

  /** `EventSummary.parse` of one hit: its id, the streams it belongs to, and its message. */
  datatype EventSummary = EventSummary(id: string, streams: set<string>, message: string)

  /** `EventList.Result`. */
  datatype EventListResult = EventListResult(id: string, name: Option<string>, events: seq<EventSummary>,
                                             totalResults: int)

  /** The search type's streams when it names any, else the streams the query used. */
  function EffectiveStreams(eventList: EventList, usedStreamIds: set<string>): set<string> {
    if eventList.streams == {} then usedStreamIds else eventList.streams
  }

  lemma EffectiveStreamsChoice(eventList: EventList, usedStreamIds: set<string>)
    ensures eventList.streams != {} ==> EffectiveStreams(eventList, usedStreamIds) == eventList.streams
    ensures eventList.streams == {} ==> EffectiveStreams(eventList, usedStreamIds) == usedStreamIds
  {
  }

  /** The summaries all of whose streams are among `streams`, in hit order. */
  function FilterByStreams(hits: seq<EventSummary>, streams: set<string>): (r: seq<EventSummary>)
    ensures |r| <= |hits|
    ensures forall e :: e in r <==> e in hits && e.streams <= streams
    decreases |hits|
  {
    if hits == [] then []
    else if hits[0].streams <= streams then [hits[0]] + FilterByStreams(hits[1..], streams)
    else FilterByStreams(hits[1..], streams)
  }

  /** The filter keeps hit order: it distributes over concatenation. */
  lemma {:induction false} FilterByStreamsAppend(a: seq<EventSummary>, b: seq<EventSummary>, streams: set<string>)
    ensures FilterByStreams(a + b, streams) == FilterByStreams(a, streams) + FilterByStreams(b, streams)
    decreases |a|
  {
    if a == [] {
      assert a + b == b;
    } else {
      assert (a + b)[0] == a[0];
      assert (a + b)[1..] == a[1..] + b;
      FilterByStreamsAppend(a[1..], b, streams);
    }
  }

  /** When every hit lies within the streams, nothing is dropped. */
  lemma {:induction false} FilterByStreamsKeepsAll(hits: seq<EventSummary>, streams: set<string>)
    requires forall i :: 0 <= i < |hits| ==> hits[i].streams <= streams
    ensures FilterByStreams(hits, streams) == hits
    decreases |hits|
  {
    if hits != [] {
      FilterByStreamsKeepsAll(hits[1..], streams);
    }
  }

  /**
   * `doExtractResult`: the parsed hits within the effective streams, the
   * search type's id and name, and the raw total-hits count.
   */
  function DoExtractResult(eventList: EventList, usedStreamIds: set<string>, hits: seq<EventSummary>,
                           totalHits: int): (r: EventListResult)
    ensures r.id == eventList.id && r.name == eventList.name
    ensures r.totalResults == totalHits
    ensures r.events == FilterByStreams(hits, EffectiveStreams(eventList, usedStreamIds))
    ensures |r.events| <= |hits|
    ensures forall e :: e in r.events <==> e in hits && e.streams <= EffectiveStreams(eventList, usedStreamIds)
  {
    var eventSummaries := FilterByStreams(hits, EffectiveStreams(eventList, usedStreamIds));
    EventListResult(eventList.id, eventList.name, eventSummaries, totalHits)
  }
}
