/** The connection to the Notion database (code/notion_connection.py).

    The HTTP request itself is not modelled: the database's answer to a query
    is a function `respond` from the query that would be posted to the list of
    result pages it would return. */
module NotionConnection {
  import opened Wrappers
  import opened Records
  import opened Dates

  const NotionVersion := "2021-08-16"
  const BearerPrefix := "Bearer "
  const ApiDatabases := "https://api.notion.com/v1/databases/"
  const QuerySuffix := "/query"
  /** The date property the reports are filtered on. */
  const DayProperty := "Día"

  type Headers = map<string, string>

  /** The saved connection data: token, database id and default headers. */
  datatype Connection = Connection(apiToken: string, databaseId: string, defHeader: Headers)

  /** The `created_time equals <date>` filter on one property. */
  datatype DateFilter = CreatedTimeEquals(property: string, equals: string)

  /** A database query: the endpoint, its headers and its filter body. */
  datatype Query = Query(url: string, headers: Headers, filter: DateFilter)

  /** The token carried by an `Authorization` value, if it is a bearer one. */
  function BearerToken(auth: string): Option<string> {
    if |BearerPrefix| <= |auth| && auth[..|BearerPrefix|] == BearerPrefix
    then Some(auth[|BearerPrefix|..])
    else None
  }

  /** `Connection.__init__`: keeps token and database id and builds the
      default headers, the Notion API version and the bearer token. */
  function NewConnection(apiToken: string, databaseId: string): (c: Connection)
    ensures c.apiToken == apiToken && c.databaseId == databaseId
    ensures c.defHeader.Keys == {"Notion-Version", "Authorization"}
    ensures c.defHeader["Notion-Version"] == NotionVersion
    ensures BearerToken(c.defHeader["Authorization"]) == Some(apiToken)
  {
    var auth := BearerPrefix + apiToken;
    assert auth[..|BearerPrefix|] == BearerPrefix;
    assert auth[|BearerPrefix|..] == apiToken;
    Connection(apiToken, databaseId, map["Notion-Version" := NotionVersion, "Authorization" := auth])
  }

  /** The headers of a query: a copy of the defaults with the JSON content
      type added. */
  function QueryHeaders(c: Connection): (h: Headers)
    ensures h.Keys == c.defHeader.Keys + {"Content-Type"}
    ensures h["Content-Type"] == "application/json"
    ensures forall k :: k in c.defHeader && k != "Content-Type" ==> h[k] == c.defHeader[k]
  {
    c.defHeader["Content-Type" := "application/json"]
  }

  /** The query `report_info_from_date` posts for a date: the database's
      query endpoint, the query headers, and a filter asking for pages whose
      `Día` property was created on that date, written `yyyy-mm-dd`. */
  function BuildQuery(c: Connection, date: Date): (q: Query)
    requires Valid(date)
    ensures q.url == ApiDatabases + c.databaseId + QuerySuffix
    ensures q.headers == QueryHeaders(c)
    ensures q.filter.property == DayProperty
    ensures ParseYearFirst(q.filter.equals, '-') == Some(date)
  {
    YearFirstRoundTrip(date, '-');
    Query(ApiDatabases + c.databaseId + QuerySuffix, QueryHeaders(c), CreatedTimeEquals(DayProperty, YearFirst(date, '-')))
  }

  /** The one element of a result list: fails when the list is empty or
      holds more than one element. */
  function SelectUnique<T>(results: seq<T>): (r: Result<T, Error>)
    ensures |results| == 0 <==> r == Failure(NoReport)
    ensures |results| > 1 <==> r == Failure(MoreThanOneReport)
    ensures r.Success? <==> |results| == 1
    ensures r.Success? ==> r.value == results[0] && r.value in results
  {
    if |results| == 0 then Failure(NoReport)
    else if |results| > 1 then Failure(MoreThanOneReport)
    else Success(results[0])
  }

  /** A list yields `x` exactly when it is the one-element list `[x]`. */
  lemma SelectUniqueSingleton<T>(results: seq<T>, x: T)
    ensures SelectUnique(results) == Success(x) <==> results == [x]
  {
  }

  /** Two lists that both hold something never yield an element together. */
  lemma SelectUniqueConcat<T>(a: seq<T>, b: seq<T>)
    requires |a| > 0 && |b| > 0
    ensures SelectUnique(a + b) == Failure(MoreThanOneReport)
  {
  }

  /** `report_info_from_date`: posts the query for `date` and returns the one
      report page of the answer. */
  function ReportInfoFromDate(c: Connection, date: Date, respond: Query -> seq<RawReport>): (r: Result<RawReport, Error>)
    requires Valid(date)
    ensures var results := respond(BuildQuery(c, date));
      && (|results| == 0 ==> r == Failure(NoReport))
      && (|results| > 1 ==> r == Failure(MoreThanOneReport))
      && (|results| == 1 ==> r == Success(results[0]))
  {
    SelectUnique(respond(BuildQuery(c, date)))
  }
}
