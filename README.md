# cdo_network_objects in Dafny

A model of a small tool that exports every network object and object group from
Cisco Defense Orchestrator (CDO) through the CDO UI API:

- `cdo/cdo.py`: the client.
  - A region name picks one of three hosts.
  - Every request carries four fixed headers with the bearer token.
  - A GET returns the decoded JSON body, or nothing when that body is falsy.
  - `CDOObjects.get_objects` builds the object query in count mode or listing mode.
- `cdo_objects.py`: the retrieval script.
  - `main` asks for the total count.
  - `get_objects` then requests pages of 199 at offsets 0, 199, 398, … while the offset is below the total.
  - It turns every raw record into a dict with seven fixed fields.

Modules:

- `Wrappers`: `Option` and `Result`.
- `Errors`: one constructor per exception that can end a run: the region `KeyError`, transport failures, and the `TypeError`s, `AttributeError`s and `KeyError`s of Python on unexpected JSON.
- `Json`: the decoded JSON value and Python truthiness.
- `Decimal`:
  - `str(int)`, as the f-strings format `limit` and `offset`;
  - a parser for it.
- `QueryString`: splitting a query on `&` and `=` and looking up a parameter. It gives the query builder a reader to be checked against.
- `Cdo`: `cdo/cdo.py`. The client is a value (token, host).
- `CdoObjects`: `cdo_objects.py`.
  - The page loop of `get_objects` is a method with a `while` loop, proved against the specification function `Collect`.
  - The per-page loop is the method `AppendPage`.
  - `main` is the method `Retrieve`.

The HTTP exchange is a function parameter of type `Transport`. It maps a request (URL, query, headers) to a decoded body or to a transport failure. The loop's page requests are a function parameter of type `PageSource`. `ClientSource` is the one that `main` uses: a listing request of the client over a transport.

## Behaviour worth noting

- The loop runs while `offset < obj_count` (`cdo_objects.py` line 25). It does not count a remaining total down.
  - The number of requests is the total divided by 199, rounded up (`CdoObjects.RunOffsets`).
  - A total of zero or less makes no request.
- The filter is fixed: the string of `cdo/cdo.py` lines 51-53. No caller-supplied search term enters it.
- A page whose body is an empty list is returned as `None`. Iterating it ends the whole run with a `TypeError` (`CdoObjects.EmptyPageEndsRun`).

## Model

| member | source | states |
|---|---|---|
| Cdo.RegionByName | cdo/cdo.py:9-14 | a name is found exactly when it is CDO_US, CDO_EU or CDO_APJ, and the region found has that name |
| Cdo.RegionLookupRoundTrip | cdo/cdo.py:9-14 | looking up a region's name gives back that region; distinct regions have distinct hosts |
| Cdo.NewClient | cdo/cdo.py:20-22 | the client is built exactly for the three region names, with the token kept and the host for each name; any other name fails with the region KeyError |
| Cdo.Headers | cdo/cdo.py:24-31 | exactly the four headers Accept, Content-Type, User-Agent, Authorization, with the fixed values of the first three |
| Cdo.HeadersCarryToken | cdo/cdo.py:30 | the bearer token read back from the Authorization header is the client's token |
| Cdo.Uri | cdo/cdo.py:35 | the host followed by the path; the host alone for an empty path |
| Cdo.Url | cdo/cdo.py:36 | `https://`, then the host, then the path, with its length accounted for |
| Cdo.Get | cdo/cdo.py:33-39 | fails exactly when the exchange fails, with that failure; otherwise returns a value exactly when the body is truthy, and then that body |
| Cdo.EmptyBodyYieldsNothing | cdo/cdo.py:38-39 | an empty list or empty object as the body yields None |
| Cdo.FilterHasNoAmpersand | cdo/cdo.py:50-54 | the filter has no `&`, so it stays one query parameter |
| Json.Truthy | cdo/cdo.py:38 | a decoded body is false exactly when it is None, False, 0, "", [] or {} |
| Decimal.IntToString | cdo/cdo.py:55 | the text of `limit` and `offset` is nonempty decimal digits, with a leading `-` only for a negative number, and holds no `&` or `=` |
| Cdo.ObjectsQuery | cdo/cdo.py:50-55 | the filter is the suffix of the count query and the prefix of the listing query (the `agg=count` parameter is pinned by Cdo.CountQueryParams) |
| Cdo.CountQueryParams | cdo/cdo.py:55 | the count query is the parameters agg=count and q=filter, and has no sort, limit or offset |
| Cdo.ListingQueryParams | cdo/cdo.py:55 | the listing query is the parameters q=filter, sort=name%3Aasc, limit, offset, in that order |
| Cdo.ListingQueryReadsBack | cdo/cdo.py:55 | the limit and offset read back from a listing query parse to the limit and offset it was built from |
| Cdo.ObjectsRequest | cdo/cdo.py:56 | the request goes to the objects path on the client's host, with the object query and the client's headers |
| Cdo.GetObjects | cdo/cdo.py:48-56 | fails exactly when the exchange for the object request fails, with that failure; a value exactly for a truthy body, and then that body |
| Decimal.IntToStringRoundTrip | cdo/cdo.py:55 | the decimal text of an integer parses back to that integer |
| Decimal.IntToStringInjective | cdo/cdo.py:55 | distinct limits or offsets give distinct query text |
| CdoObjects.Project | cdo_objects.py:29-38 | the record has exactly the seven fields; five are copied or None, overrides and overrideContents are copied or the empty list |
| CdoObjects.ProjectReadsOnlyRecordKeys | cdo_objects.py:30-38 | raw records that agree on the seven fields project to the same record |
| CdoObjects.ProjectIdempotent | cdo_objects.py:30-38 | projecting a projected record gives it back unchanged |
| CdoObjects.ProjectItems | cdo_objects.py:28-39 | succeeds exactly when every item is a dict, with one projected record per item in order; otherwise fails with the AttributeError |
| CdoObjects.ProjectPage | cdo_objects.py:27-28 | None fails with the TypeError; a list projects its items; a truthy non-list fails |
| CdoObjects.AppendPage | cdo_objects.py:28-39 | the inner loop appends the projection of one page to the records so far, or fails as the projection does |
| CdoObjects.GetObjects | cdo_objects.py:21-43 | the loop's outcome is the pages at the run's offsets joined in order; the offsets requested are a prefix of the run's, all of them on success; the last one requested is the only failed page, and a failed run fails with that page's failure |
| CdoObjects.ClientSourceAsksFor | cdo_objects.py:27 | a page request of the loop is the listing request for that offset and limit, passed by name in the other order: it fails as that exchange does, yields a value exactly for a truthy body, and its query reads back as that offset and that limit |
| CdoObjects.RunOffsets | cdo_objects.py:24-40 | the run requests offsets 0, limit, 2*limit, … all below the total, as many as the total divided by the page size rounded up, and they cover the total; none for a total of 0 or less |
| CdoObjects.ConcatSucceeds | cdo_objects.py:25-40 | a run succeeds exactly when every one of its pages succeeds |
| CdoObjects.ConcatFirstFailure | cdo_objects.py:27-28 | a run fails with the failure of its first failed page |
| CdoObjects.ConcatSplitsAt | cdo_objects.py:28-39 | the records of a successful run are those of the earlier pages, then page k, then the later pages |
| CdoObjects.ConcatLength | cdo_objects.py:29 | a successful run holds as many records as its pages together |
| CdoObjects.CollectShaped | cdo_objects.py:29-38 | every record of a successful run has exactly the seven fields |
| CdoObjects.HonouredRun | cdo_objects.py:21-43 | when each page holds the page size, or what is left of the total, the run succeeds with exactly the total number of records |
| CdoObjects.EmptyPageEndsRun | cdo_objects.py:27-28 | a first listing page answered with an empty list ends a run with a positive total in the TypeError |
| CdoObjects.CountOf | cdo_objects.py:48-50 | the total is the aggregationQueryResult number (a bool as 0 or 1); nothing or a non-dict fails as not subscriptable, a missing field as KeyError, a field that is not a number as not comparable; a failed request passes through |
| CdoObjects.CountOfAggregate | cdo_objects.py:50 | a count response holding aggregationQueryResult n gives the total n |
| CdoObjects.Retrieve | cdo_objects.py:46-50 | an unknown region or a failed count ends the run before any page is requested; otherwise the outcome is the run over the client's listing pages with the counted total and page size 199, requesting all of its offsets on success and stopping at the failed page otherwise |

## Left out

- HTTP: `requests.get`, `raise_for_status` and `.json()` are the `Transport` parameter. Status codes, redirects, timeouts and decoding only show up as its failures. How `requests` encodes the `params` string is not modelled. The query is carried as the string it is built as.
- `sleep(1)` between pages: time is not modelled.
- Logging: every `logger.warning` call and the logging setup are output only.
- `write_output_file` and the `json.dumps` of `main`: file output. `Retrieve` returns the records that would be written.
- The `__main__` block: reading `.env` with `dotenv_values` and `.upper()` on the region. `Retrieve` takes the token and the region name as they reach `main`.
- Floating-point JSON numbers: the JSON model has no floats, so a float total is not modelled.
- The meaning of the filter for the server: the filter is modelled as the text it is.
- CdoObjects.GetObjects: requires a page size above zero. With a page size of zero or less and a positive total the source loop never ends. `main` always passes 199.
- CdoObjects.GetObjects: the records appended before a failure are lost with the exception, so the model reports only the failure and the offsets requested.
- CdoObjects.Retrieve: the count request passes the source's defaults, limit 100 and offset 0. Count mode leaves them out of the query (`Cdo.CountQueryParams`).
