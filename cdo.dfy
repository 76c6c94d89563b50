/** The API client of cdo/cdo.py: region endpoints, the client record, its headers,
    URI and request construction, the GET rule, and the object query of CDOObjects. */
module Cdo {
  import opened Wrappers
  import opened Json
  import opened Errors
  import opened Decimal
  import opened QueryString

  // ---------------------------------------------------------------- regions

  /** The three regional UI endpoints. */
  datatype Region = CdoUs | CdoEu | CdoApj

  /** The member name a region is looked up by. */
  function RegionName(r: Region): string {
    match r
    case CdoUs => "CDO_US"
    case CdoEu => "CDO_EU"
    case CdoApj => "CDO_APJ"
  }

  /** The hostname a region stands for (the enum member's value). */
  function Host(r: Region): string {
    match r
    case CdoUs => "defenseorchestrator.com"
    case CdoEu => "defenseorchestrator.eu"
    case CdoApj => "www.apj.cdo.cisco.com"
  }

  /** Lookup by member name: exactly the three names are known, case matters. */
  function RegionByName(name: string): (r: Option<Region>)
    ensures r.Some? <==> name == "CDO_US" || name == "CDO_EU" || name == "CDO_APJ"
    ensures r.Some? ==> RegionName(r.value) == name
  {
    if name == "CDO_US" then Some(CdoUs)
    else if name == "CDO_EU" then Some(CdoEu)
    else if name == "CDO_APJ" then Some(CdoApj)
    else None
  }

  /** Looking up a region's own name finds that region, and distinct regions have distinct hosts. */
  lemma RegionLookupRoundTrip(r: Region, r': Region)
    ensures RegionByName(RegionName(r)) == Some(r)
    ensures Host(r) == Host(r') <==> r == r'
  {
  }

  // ---------------------------------------------------------------- the client

  /** The client's two attributes, set once at construction: the token and the
      hostname of the selected region. */
  datatype Client = Client(token: string, host: string)

  /** Construction from a token and a region name; an unknown name raises KeyError. */
  function NewClient(token: string, regionName: string): (r: Result<Client, Error>)
    ensures r.Success? <==> regionName in {"CDO_US", "CDO_EU", "CDO_APJ"}
    ensures regionName == "CDO_US" ==> r == Success(Client(token, "defenseorchestrator.com"))
    ensures regionName == "CDO_EU" ==> r == Success(Client(token, "defenseorchestrator.eu"))
    ensures regionName == "CDO_APJ" ==> r == Success(Client(token, "www.apj.cdo.cisco.com"))
    ensures r.Failure? ==> r.error == UnknownRegion(regionName)
  {
    match RegionByName(regionName)
    case Some(region) => Success(Client(token, Host(region)))
    case None => Failure(UnknownRegion(regionName))
  }

  const BearerPrefix: string := "Bearer "

  /** The headers sent with every request. */
  function Headers(c: Client): (h: map<string, string>)
    ensures h.Keys == {"Accept", "Content-Type", "User-Agent", "Authorization"}
    ensures h["Accept"] == "application/json" && h["Content-Type"] == "application/json"
    ensures h["User-Agent"] == "Python-cdo-objects"
  {
    map[
      "Accept" := "application/json",
      "Content-Type" := "application/json",
      "User-Agent" := "Python-cdo-objects",
      "Authorization" := BearerPrefix + c.token
    ]
  }

  /** The token a server reads from a bearer Authorization header. */
  function BearerToken(h: map<string, string>): (t: Option<string>)
    ensures t.Some? ==> "Authorization" in h && h["Authorization"] == BearerPrefix + t.value
  {
    if "Authorization" in h && |h["Authorization"]| >= |BearerPrefix|
       && h["Authorization"][..|BearerPrefix|] == BearerPrefix
    then
      assert h["Authorization"] == BearerPrefix + h["Authorization"][|BearerPrefix|..];
      Some(h["Authorization"][|BearerPrefix|..])
    else None
  }

  /** The Authorization header carries exactly the client's token. */
  lemma HeadersCarryToken(c: Client)
    ensures BearerToken(Headers(c)) == Some(c.token)
  {
    var a := Headers(c)["Authorization"];
    assert a[..|BearerPrefix|] == BearerPrefix;
    assert a[|BearerPrefix|..] == c.token;
  }

  /** The host, followed by the path when one is given. */
  function Uri(c: Client, path: string): (u: string)
    ensures u == c.host + path
    ensures path == "" ==> u == c.host
  {
    if path == "" then c.host else c.host + path
  }

  const Scheme: string := "https://"

  /** The URL requested: always HTTPS, always the client's host, then the path. */
  function Url(c: Client, path: string): (u: string)
    ensures |u| == |Scheme| + |c.host| + |path|
    ensures u[..|Scheme|] == Scheme
    ensures u[|Scheme|..|Scheme| + |c.host|] == c.host
    ensures u[|Scheme| + |c.host|..] == path
  {
    Scheme + Uri(c, path)
  }

  // ---------------------------------------------------------------- GET

  /** What `requests.get` is called with. */
  datatype Request = Request(url: string, query: string, headers: map<string, string>)

  /** The HTTP exchange, status check and JSON decoding, none of which is modelled:
      a request either fails or yields a decoded body. */
  type Transport = Request -> Result<Value, TransportFailure>

  function BuildRequest(c: Client, path: string, query: string): Request {
    Request(Url(c, path), query, Headers(c))
  }

  /** One GET: a failure of the exchange is raised; otherwise the decoded body is
      returned when it is truthy, and nothing (None) when it is not. */
  function Get(c: Client, transport: Transport, path: string, query: string): (r: Result<Option<Value>, Error>)
    ensures r.Failure? <==> transport(BuildRequest(c, path, query)).Failure?
    ensures r.Failure? ==> r.error == Transport(transport(BuildRequest(c, path, query)).error)
    ensures r.Success? ==> (r.value.Some? <==> Truthy(transport(BuildRequest(c, path, query)).value))
    ensures r.Success? && r.value.Some? ==> r.value.value == transport(BuildRequest(c, path, query)).value
  {
    match transport(BuildRequest(c, path, query))
    case Failure(f) => Failure(Transport(f))
    case Success(body) => if Truthy(body) then Success(Some(body)) else Success(None)
  }

  /** An empty list or an empty object as the body yields no value. */
  lemma EmptyBodyYieldsNothing(c: Client, transport: Transport, path: string, query: string)
    requires transport(BuildRequest(c, path, query)) in {Success(Arr([])), Success(Obj(map[]))}
    ensures Get(c, transport, path, query) == Success(None)
  {
  }

  // ---------------------------------------------------------------- the object query

  /** The path every object request goes to. */
  const ObjectsPath: string := "/aegis/rest/v1/services/targets/objects"

  // The percent-encoded filter, kept in pieces short enough to be checked one by one.
  const Filter1: string := "((cdoInternal%3Afalse)%20AND%20"
  const Filter2: string := "(isReadOnly%3Afalse%20OR%20"
  const Filter3: string := "metadata.CDO_FMC_READONLY%3Atrue"
  const Filter4: string := "%20OR%20objectType%3ASGT_GROUP))"
  const Filter5: string := "%20AND%20(NOT%20issueType%3A"
  const Filter6: string := "INCONSISTENT%20AND%20NOT%20"
  const Filter7: string := "issues%3ASHARED)"
  const Filter8: string := "%20AND%20(NOT%20deviceType%3A"
  const Filter9: string := "FMC_MANAGED_DEVICE)%20AND%20"
  const Filter10: string := "((objectType%3A*NETWORK*))"

  /** The filter expression after `q=`, treated as an opaque constant. */
  const FilterBody: string :=
    Filter1
    + Filter2
    + Filter3
    + Filter4
    + Filter5
    + Filter6
    + Filter7
    + Filter8
    + Filter9
    + Filter10

  /** The sort order of listing mode: by name, ascending. */
  const SortParameter: string := "sort=name%3Aasc"

  /** The filter parameter that every object query carries. */
  const Filter: string := "q" + "=" + FilterBody

  lemma Filter1NoAmpersand() ensures '&' !in Filter1 {}
  lemma Filter2NoAmpersand() ensures '&' !in Filter2 {}
  lemma Filter3NoAmpersand() ensures '&' !in Filter3 {}
  lemma Filter4NoAmpersand() ensures '&' !in Filter4 {}
  lemma Filter5NoAmpersand() ensures '&' !in Filter5 {}
  lemma Filter6NoAmpersand() ensures '&' !in Filter6 {}
  lemma Filter7NoAmpersand() ensures '&' !in Filter7 {}
  lemma Filter8NoAmpersand() ensures '&' !in Filter8 {}
  lemma Filter9NoAmpersand() ensures '&' !in Filter9 {}
  lemma Filter10NoAmpersand() ensures '&' !in Filter10 {}

  /** The filter holds no `&`, so it stays one parameter of the query. */
  lemma FilterHasNoAmpersand()
    ensures '&' !in Filter
  {
    Filter1NoAmpersand();
    Filter2NoAmpersand();
    Filter3NoAmpersand();
    Filter4NoAmpersand();
    Filter5NoAmpersand();
    Filter6NoAmpersand();
    Filter7NoAmpersand();
    Filter8NoAmpersand();
    Filter9NoAmpersand();
    Filter10NoAmpersand();
  }

  /** The query of `get_objects`: count mode asks only for the aggregate, listing mode
      asks for one page sorted by name. */
  function ObjectsQuery(count: bool, limit: int, offset: int): (q: string)
    ensures count ==> |q| > |Filter| && q[|q| - |Filter|..] == Filter
    ensures !count ==> |q| > |Filter| && q[..|Filter|] == Filter
  {
    if count then "agg=count&" + Filter
    else Filter + "&sort=name%3Aasc&limit=" + IntToString(limit) + "&offset=" + IntToString(offset)
  }

  /** Count mode, for any `&`-free filter `f`. */
  lemma CountParamsOf(f: string)
    requires '&' !in f
    ensures Params("agg=count&" + f) == [("agg", "count"), Param(f)]
  {
    assert "agg=count&" + f == "agg=count" + ['&'] + f;
    SplitJoin("agg=count", '&', f);
    SplitSingle(f, '&');
    assert "agg=count" == "agg" + "=" + "count";
    ParamJoin("agg", "count");
  }

  /** `name=` followed by a `&`-free value holds no `&`. */
  lemma NoAmpersandAfter(name: string, value: string)
    requires '&' !in name && '&' !in value
    ensures '&' !in name + "=" + value
  {
    var s := name + "=" + value;
    assert forall k :: 0 <= k < |s| ==>
      s[k] == if k < |name| then name[k] else if k == |name| then '=' else value[k - |name| - 1];
  }

  /** Four `&`-free parts joined by `&` read back as their four parameters. */
  lemma FourParams(a: string, b: string, c: string, d: string)
    requires '&' !in a && '&' !in b && '&' !in c && '&' !in d
    ensures Params(a + ['&'] + (b + ['&'] + (c + ['&'] + d))) == [Param(a), Param(b), Param(c), Param(d)]
  {
    SplitJoin(a, '&', b + ['&'] + (c + ['&'] + d));
    SplitJoin(b, '&', c + ['&'] + d);
    SplitJoin(c, '&', d);
    SplitSingle(d, '&');
    FourParamsOf(a, b, c, d);
  }

  lemma FourParamsOf(a: string, b: string, c: string, d: string)
    ensures ParamsOf([a, b, c, d]) == [Param(a), Param(b), Param(c), Param(d)]
  {
  }

  /** Listing mode with the sort parameter `s` left abstract. */
  lemma ListingParts(f: string, s: string, limit: string, offset: string)
    requires '&' !in f && '&' !in s && '&' !in limit && '&' !in offset
    ensures Params(f + ['&'] + (s + ['&'] + (("limit" + "=" + limit) + ['&'] + ("offset" + "=" + offset))))
      == [Param(f), Param(s), ("limit", limit), ("offset", offset)]
  {
    NoAmpersandAfter("limit", limit);
    NoAmpersandAfter("offset", offset);
    FourParams(f, s, "limit" + "=" + limit, "offset" + "=" + offset);
    ParamJoin("limit", limit);
    ParamJoin("offset", offset);
  }

  lemma SortParamHasNoAmpersand()
    ensures '&' !in SortParameter
  {
  }

  lemma SortParam()
    ensures Param(SortParameter) == ("sort", "name%3Aasc")
  {
    assert "sort=name%3Aasc" == "sort" + "=" + "name%3Aasc";
    ParamJoin("sort", "name%3Aasc");
  }

  /** Listing mode, for any `&`-free filter `f` and any two `&`-free values. */
  lemma ListingParamsOf(f: string, limit: string, offset: string)
    requires '&' !in f && '&' !in limit && '&' !in offset
    ensures Params(f + "&sort=name%3Aasc&limit=" + limit + "&offset=" + offset)
      == [Param(f), ("sort", "name%3Aasc"), ("limit", limit), ("offset", offset)]
  {
    assert f + "&sort=name%3Aasc&limit=" + limit + "&offset=" + offset
      == f + ['&'] + (SortParameter + ['&'] + (("limit" + "=" + limit) + ['&'] + ("offset" + "=" + offset)));
    SortParamHasNoAmpersand();
    SortParam();
    ListingParts(f, SortParameter, limit, offset);
  }

  /** Count mode reads back as exactly `agg=count` and the filter: no sort, limit or offset. */
  lemma CountQueryParams(limit: int, offset: int)
    ensures Params(ObjectsQuery(true, limit, offset)) == [("agg", "count"), ("q", FilterBody)]
    ensures Lookup(Params(ObjectsQuery(true, limit, offset)), "sort") == None
    ensures Lookup(Params(ObjectsQuery(true, limit, offset)), "limit") == None
    ensures Lookup(Params(ObjectsQuery(true, limit, offset)), "offset") == None
  {
    FilterHasNoAmpersand();
    CountParamsOf(Filter);
    ParamJoin("q", FilterBody);
  }

  /** Listing mode reads back as the filter, the sort order, the limit and the offset,
      in that order. */
  lemma ListingQueryParams(limit: int, offset: int)
    ensures Params(ObjectsQuery(false, limit, offset))
      == [("q", FilterBody), ("sort", "name%3Aasc"), ("limit", IntToString(limit)), ("offset", IntToString(offset))]
  {
    FilterHasNoAmpersand();
    ListingParamsOf(Filter, IntToString(limit), IntToString(offset));
    ParamJoin("q", FilterBody);
  }

  /** Looking up the page size and offset among the four listing parameters. */
  lemma ListingLookup(body: string, limit: string, offset: string)
    ensures Lookup([("q", body), ("sort", "name%3Aasc"), ("limit", limit), ("offset", offset)], "limit") == Some(limit)
    ensures Lookup([("q", body), ("sort", "name%3Aasc"), ("limit", limit), ("offset", offset)], "offset") == Some(offset)
  {
    var p3 := [("offset", offset)];
    var p2 := [("limit", limit)] + p3;
    var p1 := [("sort", "name%3Aasc")] + p2;
    var p0 := [("q", body)] + p1;
    assert "q" != "limit" && "sort" != "limit" by { assert |"q"| != |"limit"| && |"sort"| != |"limit"|; }
    assert "q" != "offset" && "sort" != "offset" && "limit" != "offset" by {
      assert |"q"| != |"offset"| && |"sort"| != |"offset"| && |"limit"| != |"offset"|;
    }
    assert p0[1..] == p1 && p1[1..] == p2 && p2[1..] == p3;
    assert Lookup(p2, "limit") == Some(limit);
    assert Lookup(p3, "offset") == Some(offset);
    assert Lookup(p2, "offset") == Some(offset);
    assert p0 == [("q", body), ("sort", "name%3Aasc"), ("limit", limit), ("offset", offset)];
  }

  /** Read back, a listing query gives exactly the page size and offset it was built from. */
  lemma ListingQueryReadsBack(limit: int, offset: int)
    ensures Lookup(Params(ObjectsQuery(false, limit, offset)), "limit").Some?
    ensures ParseInt(Lookup(Params(ObjectsQuery(false, limit, offset)), "limit").value) == Some(limit)
    ensures Lookup(Params(ObjectsQuery(false, limit, offset)), "offset").Some?
    ensures ParseInt(Lookup(Params(ObjectsQuery(false, limit, offset)), "offset").value) == Some(offset)
  {
    ListingQueryParams(limit, offset);
    ListingLookup(FilterBody, IntToString(limit), IntToString(offset));
    IntToStringRoundTrip(limit);
    IntToStringRoundTrip(offset);
  }

  /** The request of `CDOObjects.get_objects`: the fixed objects path on the client's
      host, the object query, the client's headers. */
  function ObjectsRequest(c: Client, count: bool, limit: int, offset: int): (req: Request)
    ensures req.url == Scheme + c.host + ObjectsPath
    ensures req.query == ObjectsQuery(count, limit, offset)
    ensures req.headers == Headers(c)
  {
    BuildRequest(c, ObjectsPath, ObjectsQuery(count, limit, offset))
  }

  /** `CDOObjects.get_objects`: one GET of the objects path with the object query. */
  function GetObjects(c: Client, transport: Transport, count: bool, limit: int, offset: int): (r: Result<Option<Value>, Error>)
    ensures r.Failure? <==> transport(ObjectsRequest(c, count, limit, offset)).Failure?
    ensures r.Failure? ==> r.error == Transport(transport(ObjectsRequest(c, count, limit, offset)).error)
    ensures r.Success? ==> (r.value.Some? <==> Truthy(transport(ObjectsRequest(c, count, limit, offset)).value))
    ensures r.Success? && r.value.Some? ==> transport(ObjectsRequest(c, count, limit, offset)) == Success(r.value.value)
  {
    Get(c, transport, ObjectsPath, ObjectsQuery(count, limit, offset))
  }
}
