/**
 * pkg/clients/scim/helpers.go: what a listing sends, either as GET query parameters or as
 * the JSON body of a POST to ".search" (section 3.4.3 of RFC 7644).
 */
module Helpers {
  import opened Wrappers
  import opened Text
  import opened Errors
  import opened Filter
  import opened Http

  const SearchRequestSchema := "urn:ietf:params:scim:api:messages:2.0:SearchRequest"

  /** The SearchRequest record; a None field is left out of the JSON. */
  datatype SearchRequest = SearchRequest(
    schemas: seq<string>,
    filter: Option<string>,
    count: Option<int>,
    cursor: Option<string>)

  /** json.Marshal on a search request, outside the model. */
  type Marshal = SearchRequest -> Result<Bytes, Error>

  /**
   * A filter argument that is neither a nil interface (None) nor the Null expression.
   */
  predicate HasFilter(filter: Option<FilterExpr>)
  {
    filter.Some? && filter.value != Null
  }

  /**
   * The document a POST search sends: the one SearchRequest schema, the filter text, and
   * count and cursor as given. The filter text is never empty.
   */
  function SearchDocument(filter: FilterExpr, count: Option<int>, cursor: Option<string>): (d: SearchRequest)
    requires filter != Null
    ensures d.schemas == [SearchRequestSchema]
    ensures d.filter == Some(ToString(filter)) && d.filter.value != ""
    ensures d.count == count && d.cursor == cursor
  {
    var searchRequest := SearchRequest([SearchRequestSchema], None, count, cursor);
    searchRequest.(filter := Some(ToString(filter)))
  }

  /**
   * buildBodyFromParams: a missing or Null filter is refused with ErrNoFilter; otherwise
   * the search document is marshalled, and a marshalling error is wrapped under
   * ErrMarshallFail.
   */
  function BuildBody(filter: Option<FilterExpr>, count: Option<int>, cursor: Option<string>, marshal: Marshal)
    : (r: Result<Bytes, Error>)
    ensures r == Failure(Sentinel(ErrNoFilter)) <==> !HasFilter(filter)
    ensures r.Success? ==> HasFilter(filter) && marshal(SearchDocument(filter.value, count, cursor)) == Success(r.value)
    ensures HasFilter(filter) && r.Failure? ==>
      marshal(SearchDocument(filter.value, count, cursor)).Failure?
      && r.error == Wrap(Sentinel(ErrMarshallFail), marshal(SearchDocument(filter.value, count, cursor)).error)
      && Is(r.error, ErrMarshallFail)
  {
    if !HasFilter(filter) then
      Failure(Sentinel(ErrNoFilter))
    else
      match marshal(SearchDocument(filter.value, count, cursor))
      case Failure(e) => Failure(Wrap(Sentinel(ErrMarshallFail), e))
      case Success(jsonBody) => Success(jsonBody)
  }

  /** url.Values.Add: the value goes after the values the key already has. */
  function Add(query: Query, key: string, value: string): Query
  {
    query[key := (if key in query then query[key] else []) + [value]]
  }

  /**
   * The parameters of a GET listing: cursor, count in decimal and the filter text, each
   * present exactly when given, with one value, and no other key.
   */
  function QueryFor(filter: Option<FilterExpr>, cursor: Option<string>, count: Option<int>): (q: Query)
    ensures "cursor" in q <==> cursor.Some?
    ensures cursor.Some? ==> q["cursor"] == [cursor.value]
    ensures "count" in q <==> count.Some?
    ensures count.Some? ==> q["count"] == [Itoa(count.value)]
    ensures "filter" in q <==> HasFilter(filter)
    ensures HasFilter(filter) ==> q["filter"] == [ToString(filter.value)]
    ensures forall k :: k in q ==> k == "cursor" || k == "count" || k == "filter"
  {
    (if cursor.Some? then map["cursor" := [cursor.value]] else map[])
    + (if count.Some? then map["count" := [Itoa(count.value)]] else map[])
    + (if HasFilter(filter) then map["filter" := [ToString(filter.value)]] else map[])
  }

  /** The count parameter reads back as the number given. */
  lemma CountReadsBack(filter: Option<FilterExpr>, cursor: Option<string>, count: int)
    ensures ParseDecimal(QueryFor(filter, cursor, Some(count))["count"][0]) == Some(count)
  {
    ItoaRoundTrip(count);
  }

  /**
   * buildQueryStringFromParams: fills a fresh url.Values with one Add per given
   * parameter. Encoding the values into text is not modelled.
   */
  method BuildQueryString(filter: Option<FilterExpr>, cursor: Option<string>, count: Option<int>)
    returns (query: Query)
    ensures query == QueryFor(filter, cursor, count)
  {
    query := map[];
    if cursor.Some? {
      AddNewKey(query, "cursor", cursor.value);
      query := Add(query, "cursor", cursor.value);
    }
    if count.Some? {
      AddNewKey(query, "count", Itoa(count.value));
      query := Add(query, "count", Itoa(count.value));
    }
    if HasFilter(filter) {
      AddNewKey(query, "filter", ToString(filter.value));
      query := Add(query, "filter", ToString(filter.value));
    }
    var expected := QueryFor(filter, cursor, count);
    assert query.Keys == expected.Keys;
    assert forall k :: k in query ==> query[k] == expected[k];
  }

  /** Adding to a key not yet present gives it exactly the one value. */
  lemma AddNewKey(query: Query, key: string, value: string)
    requires key !in query
    ensures Add(query, key, value) == query[key := [value]]
  {
    assert [] + [value] == [value];
  }

  /**
   * The two outputs of buildQueryStringAndBody. The query string of a POST stays empty,
   * which is the empty url.Values here; a GET has no body.
   */
  datatype Parts = Parts(body: Option<Bytes>, queryString: Query)

  /**
   * buildQueryStringAndBody: a POST builds only the body and a GET only the query; a
   * body error is passed on unchanged, and a GET cannot fail.
   */
  function BuildQueryStringAndBody(
    useHTTPPost: bool, filter: Option<FilterExpr>, cursor: Option<string>, count: Option<int>,
    marshal: Marshal
  ): (r: Result<Parts, Error>)
    ensures r.Failure? ==> useHTTPPost && BuildBody(filter, count, cursor, marshal) == Failure(r.error)
    ensures r.Success? && useHTTPPost ==>
      r.value.queryString == map[] && r.value.body.Some?
      && BuildBody(filter, count, cursor, marshal) == Success(r.value.body.value)
    ensures !useHTTPPost ==> r.Success? && r.value.body == None && r.value.queryString == QueryFor(filter, cursor, count)
    ensures useHTTPPost && !HasFilter(filter) ==> r == Failure(Sentinel(ErrNoFilter))
  {
    if useHTTPPost then
      match BuildBody(filter, count, cursor, marshal)
      case Failure(e) => Failure(e)
      case Success(body) => Success(Parts(Some(body), map[]))
    else
      Success(Parts(None, QueryFor(filter, cursor, count)))
  }
}
