/** The retrieval script of cdo_objects.py: projection of raw records, the pagination
    loop of `get_objects`, and how `main` feeds it the counted total. */
module CdoObjects {
  import opened Wrappers
  import opened Json
  import opened Errors
  import opened QueryString
  import opened Decimal
  import Cdo

  /** A raw record as the service returns it, and a projected record: a dict. */
  type Record = map<string, Value>

  /** The page size `main` uses. */
  const DefaultLimit: int := 199

  /** The field of the count-mode response that holds the total. */
  const CountField: string := "aggregationQueryResult"

  /** The five fields copied as they are (absent becomes None). */
  const CopiedKeys: set<string> := {"name", "uid", "tags", "objectType", "elements"}

  /** The two fields that default to an empty list when absent. */
  const DefaultedKeys: set<string> := {"overrides", "overrideContents"}

  /** Every field of a projected record. */
  const RecordKeys: set<string> := CopiedKeys + DefaultedKeys

  // ---------------------------------------------------------------- projection

  /** Python's `raw.get(key, default)`. */
  function GetOr(raw: Record, key: string, default: Value): Value {
    if key in raw then raw[key] else default
  }

  /** The fixed-shape record built for every raw record. */
  function Project(raw: Record): (r: Record)
    ensures r.Keys == RecordKeys
    ensures forall k :: k in CopiedKeys ==> r[k] == (if k in raw then raw[k] else Null)
    ensures forall k :: k in DefaultedKeys ==> r[k] == (if k in raw then raw[k] else Arr([]))
  {
    map[
      "name" := GetOr(raw, "name", Null),
      "uid" := GetOr(raw, "uid", Null),
      "tags" := GetOr(raw, "tags", Null),
      "objectType" := GetOr(raw, "objectType", Null),
      "elements" := GetOr(raw, "elements", Null),
      "overrides" := GetOr(raw, "overrides", Arr([])),
      "overrideContents" := GetOr(raw, "overrideContents", Arr([]))
    ]
  }

  /** Projection reads only the seven fields: raw records that agree on them project alike. */
  lemma ProjectReadsOnlyRecordKeys(a: Record, b: Record)
    requires forall k :: k in RecordKeys ==> (k in a <==> k in b)
    requires forall k :: k in RecordKeys && k in a ==> a[k] == b[k]
    ensures Project(a) == Project(b)
  {
    var pa, pb := Project(a), Project(b);
    assert forall k :: k in pa ==> pa[k] == pb[k];
  }

  /** Projecting a projected record changes nothing. */
  lemma ProjectIdempotent(raw: Record)
    ensures Project(Project(raw)) == Project(raw)
  {
    var p := Project(raw);
    var pp := Project(p);
    assert forall k :: k in pp ==> pp[k] == p[k];
  }

  // ---------------------------------------------------------------- one page

  /** `prefix` before the records of `r`; a failure stays that failure. */
  function Prepend(prefix: seq<Record>, r: Result<seq<Record>, Error>): (r': Result<seq<Record>, Error>)
    ensures r'.Success? <==> r.Success?
    ensures r'.Failure? ==> r' == r
  {
    match r
    case Success(s) => Success(prefix + s)
    case Failure(e) => Failure(e)
  }

  /** `for obj in items: ... obj.get(...)`: every item must be a dict; the first one
      that is not ends the run. */
  function ProjectItems(items: seq<Value>): (r: Result<seq<Record>, Error>)
    ensures r.Success? <==> forall k :: 0 <= k < |items| ==> items[k].Obj?
    ensures r.Failure? ==> r.error == NotARecord
    ensures r.Success? ==> |r.value| == |items|
    ensures r.Success? ==> forall k :: 0 <= k < |items| ==> r.value[k] == Project(items[k].fields)
    decreases |items|
  {
    if items == [] then Success([])
    else if !items[0].Obj? then Failure(NotARecord)
    else Prepend([Project(items[0].fields)], ProjectItems(items[1..]))
  }

  /** The records of one page, as the loop body iterates what `CDOObjects.get_objects` returned.
      Nothing (an empty body) and scalars cannot be iterated; iterating a non-empty dict or
      string yields strings, on which `.get` fails. */
  function ProjectPage(objs: Option<Value>): (r: Result<seq<Record>, Error>)
    ensures objs.None? ==> r == Failure(NotIterable)
    ensures objs.Some? && objs.value.Arr? ==> r == ProjectItems(objs.value.items)
    ensures objs.Some? && !objs.value.Arr? && Truthy(objs.value) ==> r.Failure?
  {
    match objs
    case None => Failure(NotIterable)
    case Some(v) =>
      match v
      case Arr(items) => ProjectItems(items)
      case Obj(fields) => if fields == map[] then Success([]) else Failure(NotARecord)
      case Str(s) => if s == "" then Success([]) else Failure(NotARecord)
      case _ => Failure(NotIterable)
  }

  /** The inner loop of `get_objects`: append the projection of every item of one page. */
  method AppendPage(objects: seq<Record>, objs: Option<Value>) returns (r: Result<seq<Record>, Error>)
    ensures r == Prepend(objects, ProjectPage(objs))
  {
    if objs.None? {
      return Failure(NotIterable);
    }
    match objs.value {
      case Arr(items) =>
        var acc := objects;
        var i := 0;
        while i < |items|
          invariant 0 <= i <= |items|
          invariant Prepend(objects, ProjectItems(items)) == Prepend(acc, ProjectItems(items[i..]))
        {
          assert items[i..][0] == items[i] && items[i..][1..] == items[i + 1..];
          if !items[i].Obj? {
            assert ProjectItems(items[i..]) == Failure(NotARecord);
            return Failure(NotARecord);
          }
          assert ProjectItems(items[i..]) == Prepend([Project(items[i].fields)], ProjectItems(items[i + 1..]));
          PrependPrepend(acc, [Project(items[i].fields)], ProjectItems(items[i + 1..]));
          acc := acc + [Project(items[i].fields)];
          i := i + 1;
        }
        assert items[i..] == [] && acc + [] == acc;
        r := Success(acc);
      case Obj(fields) =>
        assert objects + [] == objects;
        r := if fields == map[] then Success(objects) else Failure(NotARecord);
      case Str(s) =>
        assert objects + [] == objects;
        r := if s == "" then Success(objects) else Failure(NotARecord);
      case _ =>
        r := Failure(NotIterable);
    }
  }

  // ---------------------------------------------------------------- the pages of a run

  /** The offsets the loop requests, starting from `offset`: one per iteration while
      `offset < objCount`, each `limit` past the previous. */
  function OffsetsFrom(offset: int, objCount: int, limit: int): (offs: seq<int>)
    requires limit > 0
    decreases objCount - offset
  {
    if offset < objCount then [offset] + OffsetsFrom(offset + limit, objCount, limit) else []
  }

  /** The offsets of a whole run. */
  function Offsets(objCount: int, limit: int): seq<int>
    requires limit > 0
  {
    OffsetsFrom(0, objCount, limit)
  }

  /** The number of page requests of a run: zero for a non-positive total, otherwise
      the total divided by the page size, rounded up. */
  function FetchCount(objCount: int, limit: int): nat
    requires limit > 0
  {
    if objCount <= 0 then 0 else (objCount + limit - 1) / limit
  }

  /** What the loop calls as `cdo.get_objects(offset=offset, limit=limit)`. */
  type PageSource = (int, int) -> Result<Option<Value>, Error>

  /** The page source of a client: a listing-mode object request. */
  function ClientSource(c: Cdo.Client, transport: Cdo.Transport): PageSource {
    (offset: int, limit: int) => Cdo.GetObjects(c, transport, false, limit, offset)
  }

  /** The loop passes its offset and page size by name, so the listing request asks for
      exactly that page: read back, its query holds that offset and that limit. */
  lemma ClientSourceAsksFor(c: Cdo.Client, transport: Cdo.Transport, offset: int, limit: int)
    ensures ClientSource(c, transport)(offset, limit).Failure? <==>
      transport(Cdo.ObjectsRequest(c, false, limit, offset)).Failure?
    ensures ClientSource(c, transport)(offset, limit).Success? ==>
      (ClientSource(c, transport)(offset, limit).value.Some? <==>
       Truthy(transport(Cdo.ObjectsRequest(c, false, limit, offset)).value))
    ensures Lookup(Params(Cdo.ObjectsRequest(c, false, limit, offset).query), "offset").Some?
    ensures ParseInt(Lookup(Params(Cdo.ObjectsRequest(c, false, limit, offset).query), "offset").value) == Some(offset)
    ensures Lookup(Params(Cdo.ObjectsRequest(c, false, limit, offset).query), "limit").Some?
    ensures ParseInt(Lookup(Params(Cdo.ObjectsRequest(c, false, limit, offset).query), "limit").value) == Some(limit)
  {
    Cdo.ListingQueryReadsBack(limit, offset);
  }

  /** One page request of the loop, then the records of that page. */
  function PageAt(source: PageSource, offset: int, limit: int): Result<seq<Record>, Error> {
    match source(offset, limit)
    case Failure(e) => Failure(e)
    case Success(objs) => ProjectPage(objs)
  }

  /** The page results for a sequence of offsets, in order. */
  function Pages(source: PageSource, offsets: seq<int>, limit: int): (ps: seq<Result<seq<Record>, Error>>)
    ensures |ps| == |offsets|
    ensures forall k :: 0 <= k < |offsets| ==> ps[k] == PageAt(source, offsets[k], limit)
    decreases |offsets|
  {
    if offsets == [] then [] else [PageAt(source, offsets[0], limit)] + Pages(source, offsets[1..], limit)
  }

  /** Page results taken in order: the first failure aborts the run, otherwise the
      records of all pages one after the other. */
  function Concat(pages: seq<Result<seq<Record>, Error>>): Result<seq<Record>, Error>
    decreases |pages|
  {
    if pages == [] then Success([])
    else
      match pages[0]
      case Failure(e) => Failure(e)
      case Success(p) => Prepend(p, Concat(pages[1..]))
  }

  /** The number of records of the successful pages. */
  function TotalLength(pages: seq<Result<seq<Record>, Error>>): nat
    decreases |pages|
  {
    if pages == [] then 0
    else (if pages[0].Success? then |pages[0].value| else 0) + TotalLength(pages[1..])
  }

  /** The outcome of `get_objects`: every page at the run's offsets, projected and joined. */
  function Collect(source: PageSource, objCount: int, limit: int): Result<seq<Record>, Error>
    requires limit > 0
  {
    Concat(Pages(source, Offsets(objCount, limit), limit))
  }

  // ---------------------------------------------------------------- the loop

  lemma PrependNothing(r: Result<seq<Record>, Error>)
    ensures Prepend([], r) == r
  {
    if r.Success? {
      assert [] + r.value == r.value;
    }
  }

  /** Prepending twice is prepending the two prefixes joined. */
  lemma PrependPrepend(a: seq<Record>, b: seq<Record>, r: Result<seq<Record>, Error>)
    ensures Prepend(a, Prepend(b, r)) == Prepend(a + b, r)
  {
    if r.Success? {
      assert a + (b + r.value) == (a + b) + r.value;
    }
  }

  /** The pages of two runs of offsets are the pages of each, one after the other. */
  lemma {:induction false} PagesAppend(source: PageSource, a: seq<int>, b: seq<int>, limit: int)
    ensures Pages(source, a + b, limit) == Pages(source, a, limit) + Pages(source, b, limit)
    decreases |a|
  {
    if a != [] {
      assert (a + b)[1..] == a[1..] + b;
      PagesAppend(source, a[1..], b, limit);
    }
  }

  /** Joining two runs of pages: the first run's failure, or its records before the second's. */
  lemma {:induction false} ConcatAppend(p: seq<Result<seq<Record>, Error>>, q: seq<Result<seq<Record>, Error>>)
    ensures Concat(p + q) == match Concat(p)
                             case Failure(e) => Failure(e)
                             case Success(s) => Prepend(s, Concat(q))
    decreases |p|
  {
    if p == [] {
      assert p + q == q;
      PrependNothing(Concat(q));
    } else {
      assert (p + q)[0] == p[0] && (p + q)[1..] == p[1..] + q;
      ConcatAppend(p[1..], q);
      if p[0].Success? {
        var r := Concat(p[1..]);
        if r.Success? {
          PrependPrepend(p[0].value, r.value, Concat(q));
        }
      }
    }
  }

  /** One more page after the pages collected so far: its failure, or its records appended. */
  lemma CollectedStep(source: PageSource, issued: seq<int>, offset: int, limit: int, objects: seq<Record>)
    requires Concat(Pages(source, issued, limit)) == Success(objects)
    ensures Concat(Pages(source, issued + [offset], limit)) == Prepend(objects, PageAt(source, offset, limit))
  {
    PagesAppend(source, issued, [offset], limit);
    ConcatAppend(Pages(source, issued, limit), Pages(source, [offset], limit));
    var one := Pages(source, [offset], limit);
    assert one == [PageAt(source, offset, limit)];
    assert one[1..] == [];
    if PageAt(source, offset, limit).Success? {
      assert PageAt(source, offset, limit).value + [] == PageAt(source, offset, limit).value;
    }
  }

  /** A run whose first pages already fail fails with that failure. */
  lemma CollectPrefixFails(source: PageSource, objCount: int, limit: int, pre: seq<int>, rest: seq<int>)
    requires limit > 0
    requires Offsets(objCount, limit) == pre + rest
    requires Concat(Pages(source, pre, limit)).Failure?
    ensures Collect(source, objCount, limit) == Concat(Pages(source, pre, limit))
  {
    PagesAppend(source, pre, rest, limit);
    ConcatAppend(Pages(source, pre, limit), Pages(source, rest, limit));
  }

  /** `get_objects`: request pages at offsets 0, limit, 2*limit, ... while the offset is
      below the total, projecting and appending every record. `issued` lists the offsets
      requested, the last of which is the page that failed when the run fails. */
  method GetObjects(source: PageSource, objCount: int, limit: int)
    returns (res: Result<seq<Record>, Error>, issued: seq<int>)
    requires limit > 0
    ensures res == Collect(source, objCount, limit)
    ensures issued <= Offsets(objCount, limit)
    ensures res.Success? ==> issued == Offsets(objCount, limit)
    ensures forall k :: 0 <= k < |issued| ==>
      (PageAt(source, issued[k], limit).Failure? <==> res.Failure? && k == |issued| - 1)
    ensures res.Failure? ==> issued != [] && res == PageAt(source, issued[|issued| - 1], limit)
  {
    var objects: seq<Record> := [];
    var offset := 0;
    issued := [];
    assert [] + Offsets(objCount, limit) == Offsets(objCount, limit);
    while offset < objCount
      invariant Offsets(objCount, limit) == issued + OffsetsFrom(offset, objCount, limit)
      invariant Concat(Pages(source, issued, limit)) == Success(objects)
      invariant forall k :: 0 <= k < |issued| ==> PageAt(source, issued[k], limit).Success?
      decreases objCount - offset
    {
      var rest := OffsetsFrom(offset + limit, objCount, limit);
      assert OffsetsFrom(offset, objCount, limit) == [offset] + rest;
      assert Offsets(objCount, limit) == (issued + [offset]) + rest;
      CollectedStep(source, issued, offset, limit, objects);
      issued := issued + [offset];
      var objs := source(offset, limit);
      if objs.Failure? {
        CollectPrefixFails(source, objCount, limit, issued, rest);
        return Failure(objs.error), issued;
      }
      var next := AppendPage(objects, objs.value);
      if next.Failure? {
        CollectPrefixFails(source, objCount, limit, issued, rest);
        return next, issued;
      }
      objects := next.value;
      offset := offset + limit;
      // the one-second pause between pages is not modelled
    }
    assert issued + [] == issued;
    res := Success(objects);
  }

  // ---------------------------------------------------------------- the offsets of a run

  /** Euclidean division of `x + limit` is one more than that of `x`. */
  lemma DivStep(x: int, limit: int)
    requires limit > 0
    ensures (x + limit) / limit == x / limit + 1
  {
    var q, r := x / limit, x % limit;
    assert x + limit == (q + 1) * limit + r;
    DivUnique(x + limit, limit, q + 1, r);
  }

  /** The quotient is the only `q` with `x == q * limit + r` and `0 <= r < limit`. */
  lemma DivUnique(x: int, limit: int, q: int, r: int)
    requires limit > 0 && 0 <= r < limit && x == q * limit + r
    ensures x / limit == q
  {
    var d := x / limit - q;
    assert d * limit == r - x % limit;
  }

  /** The `k`-th request from `offset` asks for `offset + k * limit`, and every requested
      offset is below the total. */
  lemma {:induction false} OffsetsFromShape(offset: int, objCount: int, limit: int)
    requires limit > 0
    ensures forall k :: 0 <= k < |OffsetsFrom(offset, objCount, limit)| ==>
      OffsetsFrom(offset, objCount, limit)[k] == offset + k * limit
    ensures forall k :: 0 <= k < |OffsetsFrom(offset, objCount, limit)| ==>
      OffsetsFrom(offset, objCount, limit)[k] < objCount
    decreases objCount - offset
  {
    var offs := OffsetsFrom(offset, objCount, limit);
    if offset < objCount {
      var rest := OffsetsFrom(offset + limit, objCount, limit);
      OffsetsFromShape(offset + limit, objCount, limit);
      forall k | 0 <= k < |offs|
        ensures offs[k] == offset + k * limit && offs[k] < objCount
      {
        if k > 0 {
          assert offs[k] == rest[k - 1];
          assert offset + limit + (k - 1) * limit == offset + k * limit;
        }
      }
    }
  }

  /** The number of requests from `offset` is what is left of the total, divided by the
      page size and rounded up. */
  lemma {:induction false} OffsetsFromLength(offset: int, objCount: int, limit: int)
    requires limit > 0
    ensures |OffsetsFrom(offset, objCount, limit)| == FetchCount(objCount - offset, limit)
    decreases objCount - offset
  {
    if offset < objCount {
      OffsetsFromLength(offset + limit, objCount, limit);
      var m := objCount - offset;
      if m <= limit {
        DivUnique(m + limit - 1, limit, 1, m - 1);
      } else {
        DivStep(m - 1, limit);
      }
    }
  }

  /** The requests of a run reach past the total: `offset` plus that many pages covers it. */
  lemma {:induction false} OffsetsFromReach(offset: int, objCount: int, limit: int)
    requires limit > 0
    ensures offset + |OffsetsFrom(offset, objCount, limit)| * limit >= objCount
    decreases objCount - offset
  {
    if offset < objCount {
      var n := |OffsetsFrom(offset + limit, objCount, limit)|;
      OffsetsFromReach(offset + limit, objCount, limit);
      assert (n + 1) * limit == n * limit + limit;
    }
  }

  /** A whole run requests offsets 0, limit, 2*limit, ..., all below the total, as many as
      the total divided by the page size and rounded up, and the pages together cover the
      total: the last request starts below it and ends at or past it. */
  lemma RunOffsets(objCount: int, limit: int)
    requires limit > 0
    ensures |Offsets(objCount, limit)| == FetchCount(objCount, limit)
    ensures forall k :: 0 <= k < |Offsets(objCount, limit)| ==> Offsets(objCount, limit)[k] == k * limit
    ensures forall k :: 0 <= k < |Offsets(objCount, limit)| ==> Offsets(objCount, limit)[k] < objCount
    ensures objCount > 0 ==>
      (|Offsets(objCount, limit)| - 1) * limit < objCount <= |Offsets(objCount, limit)| * limit
    ensures objCount <= 0 ==> Offsets(objCount, limit) == []
  {
    OffsetsFromShape(0, objCount, limit);
    OffsetsFromLength(0, objCount, limit);
    OffsetsFromReach(0, objCount, limit);
    var offs := Offsets(objCount, limit);
    if objCount > 0 {
      assert offs[|offs| - 1] == (|offs| - 1) * limit;
    }
  }

  // ---------------------------------------------------------------- joining the pages

  /** A run succeeds exactly when every one of its pages does. */
  lemma {:induction false} ConcatSucceeds(pages: seq<Result<seq<Record>, Error>>)
    ensures Concat(pages).Success? <==> forall k :: 0 <= k < |pages| ==> pages[k].Success?
    decreases |pages|
  {
    if pages != [] {
      ConcatSucceeds(pages[1..]);
      assert forall k :: 1 <= k < |pages| ==> pages[k] == pages[1..][k - 1];
    }
  }

  /** A run fails with the failure of its first failing page. */
  lemma {:induction false} ConcatFirstFailure(pages: seq<Result<seq<Record>, Error>>, k: int)
    requires 0 <= k < |pages| && pages[k].Failure?
    requires forall j :: 0 <= j < k ==> pages[j].Success?
    ensures Concat(pages) == pages[k]
    decreases k
  {
    if k > 0 {
      assert forall j :: 0 <= j < k - 1 ==> pages[1..][j] == pages[j + 1];
      ConcatFirstFailure(pages[1..], k - 1);
    }
  }

  /** The records of a successful run are those of the pages before page `k`, then those
      of page `k`, then those of the pages after it. */
  lemma ConcatSplitsAt(pages: seq<Result<seq<Record>, Error>>, k: int)
    requires 0 <= k < |pages| && Concat(pages).Success?
    ensures pages[k].Success? && Concat(pages[..k]).Success? && Concat(pages[k + 1..]).Success?
    ensures Concat(pages).value == Concat(pages[..k]).value + pages[k].value + Concat(pages[k + 1..]).value
  {
    assert pages == pages[..k] + pages[k..];
    ConcatAppend(pages[..k], pages[k..]);
    assert pages[k..][0] == pages[k] && pages[k..][1..] == pages[k + 1..];
    var before, after := Concat(pages[..k]), Concat(pages[k + 1..]);
    assert Concat(pages).value == before.value + (pages[k].value + after.value);
  }

  /** A successful run holds as many records as its pages together. */
  lemma {:induction false} ConcatLength(pages: seq<Result<seq<Record>, Error>>)
    requires Concat(pages).Success?
    ensures |Concat(pages).value| == TotalLength(pages)
    decreases |pages|
  {
    if pages != [] {
      ConcatLength(pages[1..]);
    }
  }

  /** Every record holds exactly the seven fields. */
  predicate Shaped(rs: seq<Record>) {
    forall i :: 0 <= i < |rs| ==> rs[i].Keys == RecordKeys
  }

  /** The records of any page that succeeds hold exactly the seven fields. */
  lemma PageShaped(source: PageSource, offset: int, limit: int)
    ensures PageAt(source, offset, limit).Success? ==> Shaped(PageAt(source, offset, limit).value)
  {
  }

  /** A run joins pages of shaped records into shaped records. */
  lemma {:induction false} ConcatShaped(pages: seq<Result<seq<Record>, Error>>)
    requires forall k :: 0 <= k < |pages| && pages[k].Success? ==> Shaped(pages[k].value)
    ensures Concat(pages).Success? ==> Shaped(Concat(pages).value)
    decreases |pages|
  {
    if pages != [] && pages[0].Success? {
      assert forall k :: 0 <= k < |pages| - 1 ==> pages[1..][k] == pages[k + 1];
      ConcatShaped(pages[1..]);
    }
  }

  /** Every record `get_objects` returns has exactly the fields name, uid, tags, objectType,
      elements, overrides and overrideContents. */
  lemma CollectShaped(source: PageSource, objCount: int, limit: int)
    requires limit > 0
    ensures Collect(source, objCount, limit).Success? ==> Shaped(Collect(source, objCount, limit).value)
  {
    var pages := Pages(source, Offsets(objCount, limit), limit);
    forall k | 0 <= k < |pages| && pages[k].Success?
      ensures Shaped(pages[k].value)
    {
      PageShaped(source, Offsets(objCount, limit)[k], limit);
    }
    ConcatShaped(pages);
  }

  function Min(a: int, b: int): int {
    if a < b then a else b
  }

  /** A source that honours the page size: the page at `offset` holds `limit` records, or
      what is left of the total when fewer remain. */
  predicate HonoursLimit(source: PageSource, objCount: int, limit: int) {
    forall offset :: 0 <= offset < objCount ==>
      PageAt(source, offset, limit).Success? &&
      |PageAt(source, offset, limit).value| == Min(limit, objCount - offset)
  }

  lemma {:induction false} HonouredFrom(source: PageSource, offset: int, objCount: int, limit: int)
    requires limit > 0 && offset >= 0
    requires HonoursLimit(source, objCount, limit)
    ensures Concat(Pages(source, OffsetsFrom(offset, objCount, limit), limit)).Success?
    ensures |Concat(Pages(source, OffsetsFrom(offset, objCount, limit), limit)).value|
         == if offset < objCount then objCount - offset else 0
    decreases objCount - offset
  {
    if offset < objCount {
      var rest := OffsetsFrom(offset + limit, objCount, limit);
      var offs := OffsetsFrom(offset, objCount, limit);
      assert offs[0] == offset && offs[1..] == rest;
      HonouredFrom(source, offset + limit, objCount, limit);
      var ps := Pages(source, offs, limit);
      assert ps[0] == PageAt(source, offset, limit) && ps[1..] == Pages(source, rest, limit);
    }
  }

  /** When the source honours the page size, a run collects exactly the total: nothing is
      lost and nothing is fetched twice by the offset arithmetic. */
  lemma HonouredRun(source: PageSource, objCount: int, limit: int)
    requires limit > 0
    requires HonoursLimit(source, objCount, limit)
    ensures Collect(source, objCount, limit).Success?
    ensures |Collect(source, objCount, limit).value| == if objCount > 0 then objCount else 0
  {
    HonouredFrom(source, 0, objCount, limit);
  }

  /** A listing page that comes back as an empty list is no value at all, and iterating it
      ends the whole run, even when the total was positive. */
  lemma EmptyPageEndsRun(c: Cdo.Client, transport: Cdo.Transport, objCount: int, limit: int)
    requires limit > 0 && objCount > 0
    requires transport(Cdo.ObjectsRequest(c, false, limit, 0)) == Success(Arr([]))
    ensures Collect(ClientSource(c, transport), objCount, limit) == Failure(NotIterable)
  {
    var source := ClientSource(c, transport);
    assert source(0, limit) == Success(None);
    var offs := Offsets(objCount, limit);
    assert offs[0] == 0;
    ConcatFirstFailure(Pages(source, offs, limit), 0);
  }

  // ---------------------------------------------------------------- main

  /** The total `main` hands to the loop: `obj_count["aggregationQueryResult"]` on the
      count-mode response, as the guard `offset < obj_count` then compares it with an int
      (a bool compares as 0 or 1; anything else but a number cannot be compared). */
  function CountOf(resp: Result<Option<Value>, Error>): (r: Result<int, Error>)
    ensures resp.Failure? ==> r == Failure(resp.error)
    ensures resp.Success? && (resp.value.None? || !resp.value.value.Obj?) ==> r == Failure(NotSubscriptable)
    ensures resp.Success? && resp.value.Some? && resp.value.value.Obj? && CountField !in resp.value.value.fields
      ==> r == Failure(MissingKey(CountField))
    ensures resp.Success? && resp.value.Some? && resp.value.value.Obj? && CountField in resp.value.value.fields &&
      !(resp.value.value.fields[CountField].Int? || resp.value.value.fields[CountField].Bool?)
      ==> r == Failure(NotComparable)
    ensures r.Success? <==>
      resp.Success? && resp.value.Some? && resp.value.value.Obj? && CountField in resp.value.value.fields &&
      (resp.value.value.fields[CountField].Int? || resp.value.value.fields[CountField].Bool?)
    ensures r.Success? && resp.value.value.fields[CountField].Int? ==> r.value == resp.value.value.fields[CountField].i
    ensures r.Success? && resp.value.value.fields[CountField].Bool? ==> (r.value == 1 <==> resp.value.value.fields[CountField].b)
    ensures r.Success? ==> 0 <= r.value <= 1 || resp.value.value.fields[CountField].Int?
  {
    match resp
    case Failure(e) => Failure(e)
    case Success(None) => Failure(NotSubscriptable)
    case Success(Some(v)) =>
      if !v.Obj? then Failure(NotSubscriptable)
      else if CountField !in v.fields then Failure(MissingKey(CountField))
      else
        match v.fields[CountField]
        case Int(i) => Success(i)
        case Bool(b) => Success(if b then 1 else 0)
        case _ => Failure(NotComparable)
  }

  /** The count response `{"aggregationQueryResult": n}` gives the total `n`. */
  lemma CountOfAggregate(n: int, others: map<string, Value>)
    ensures CountOf(Success(Some(Obj(others[CountField := Int(n)])))) == Success(n)
  {
  }

  /** `main` without the output file: build the client for the region, ask for the count,
      then run `get_objects` with the default page size over the client's listing requests.
      An unknown region or a failed count ends the run before any page is requested. */
  method Retrieve(token: string, regionName: string, transport: Cdo.Transport)
    returns (res: Result<seq<Record>, Error>, issued: seq<int>)
    ensures Cdo.NewClient(token, regionName).Failure? ==>
      res == Failure(UnknownRegion(regionName)) && issued == []
    ensures (Cdo.NewClient(token, regionName).Success? &&
             CountOf(Cdo.GetObjects(Cdo.NewClient(token, regionName).value, transport, true, 100, 0)).Failure?) ==>
      res == Failure(CountOf(Cdo.GetObjects(Cdo.NewClient(token, regionName).value, transport, true, 100, 0)).error) &&
      issued == []
    ensures (Cdo.NewClient(token, regionName).Success? &&
             CountOf(Cdo.GetObjects(Cdo.NewClient(token, regionName).value, transport, true, 100, 0)).Success?) ==>
      var c := Cdo.NewClient(token, regionName).value;
      var count := CountOf(Cdo.GetObjects(c, transport, true, 100, 0)).value;
      res == Collect(ClientSource(c, transport), count, DefaultLimit) &&
      issued <= Offsets(count, DefaultLimit) &&
      (res.Success? ==> issued == Offsets(count, DefaultLimit)) &&
      (res.Failure? ==> issued != [] && res == PageAt(ClientSource(c, transport), issued[|issued| - 1], DefaultLimit))
  {
    var client := Cdo.NewClient(token, regionName);
    if client.Failure? {
      return Failure(client.error), [];
    }
    var c := client.value;
    var count := CountOf(Cdo.GetObjects(c, transport, true, 100, 0));
    if count.Failure? {
      return Failure(count.error), [];
    }
    res, issued := GetObjects(ClientSource(c, transport), count.value, DefaultLimit);
  }
}
