/**
 * The generic per-kind object service (`GenericHubSpotServiceImpl`): endpoint
 * derivation from a type name, the query strings of the list and by-id reads,
 * the projection each read resolves (from the caller, from the schema cache,
 * or none), and the bodies of create, update and search.
 */
module GenericService {
  import opened Wrappers
  import opened Text
  import opened Payloads
  import opened Errors
  import opened BaseService
  import opened PropertiesCache

  /** A Java `int`. */
  type Int32 = x: int | -0x8000_0000 <= x < 0x8000_0000

  const ObjectsPath := "/crm/v3/objects/"
  const SearchSuffix := "/search"

  // ---------------------------------------------------------------------------
  // Query strings

  /** The cursor parameter `after=…`. */
  function CursorParam(after: string): string
  {
    "after=" + after
  }

  /** The projection parameter `properties=a,b,c`. */
  function ProjectionParam(props: seq<string>): string
  {
    "properties=" + Join(props, ',')
  }

  /** `&after=…` when a cursor is given, nothing otherwise. */
  function AfterSegment(after: Option<string>): string
  {
    if after.Some? then ['&'] + CursorParam(after.value) else ""
  }

  /** `sep` and the projection parameter for a non-empty projection, nothing for an empty one. */
  function PropertiesSegment(sep: char, props: seq<string>): string
  {
    if |props| == 0 then "" else [sep] + ProjectionParam(props)
  }

  /** The URL of a list read: limit first, then the optional cursor, then the optional projection. */
  function ListUrl(base: string, limit: int, after: Option<string>, props: seq<string>): string
  {
    base + "?limit=" + IntToString(limit) + AfterSegment(after) + PropertiesSegment('&', props)
  }

  /** The URL of a read by id: `base/id`, then the optional projection. */
  function ByIdUrl(base: string, id: string, props: seq<string>): string
  {
    base + "/" + id + PropertiesSegment('?', props)
  }

  /** The property names a schema lookup yields: none for a null response or null results. */
  function NamesOf(response: Option<PropertiesResponse>): (names: seq<string>)
    ensures response.Some? && response.value.results.Some? ==> names == PropertyNames(response.value.results.value)
    ensures response.None? || response.value.results.None? ==> names == []
  {
    if response.Some? && response.value.results.Some? then PropertyNames(response.value.results.value) else []
  }

  /** Property names that survive the comma-separated encoding of a query string. */
  predicate Encodable(props: seq<string>)
  {
    forall k :: 0 <= k < |props| ==> ',' !in props[k] && '&' !in props[k]
  }

  // ---------------------------------------------------------------------------
  // Reading a URL back

  /** The projection encoded by a `properties=` segment, if `seg` is one. */
  function DecodeProjection(seg: string): Option<seq<string>>
  {
    if StartsWith(seg, "properties=") then Some(Split(seg[11..], ',')) else None
  }

  /** The cursor and projection carried by the `&`-separated segments after the limit. */
  function DecodeSegments(limit: int, rest: seq<string>): Option<(int, Option<string>, seq<string>)>
  {
    if |rest| == 0 then Some((limit, None, []))
    else if StartsWith(rest[0], "after=") then
      var after := rest[0][6..];
      if |rest| == 1 then Some((limit, Some(after), []))
      else if |rest| == 2 && DecodeProjection(rest[1]).Some? then
        Some((limit, Some(after), DecodeProjection(rest[1]).value))
      else None
    else if |rest| == 1 && DecodeProjection(rest[0]).Some? then
      Some((limit, None, DecodeProjection(rest[0]).value))
    else None
  }

  /** The (limit, cursor, projection) of the part of a list URL after `?limit=`. */
  function DecodeListParams(q: string): Option<(int, Option<string>, seq<string>)>
  {
    var segs := Split(q, '&');
    match ParseInt(segs[0])
    case None => None
    case Some(limit) => DecodeSegments(limit, segs[1..])
  }

  /** The (limit, cursor, projection) a list URL for `base` requests; None when it is not one. */
  function DecodeListUrl(base: string, url: string): Option<(int, Option<string>, seq<string>)>
  {
    var head := base + "?limit=";
    if StartsWith(url, head) then DecodeListParams(url[|head|..]) else None
  }

  /** The (id, projection) a by-id URL for `base` requests; None when it is not one. */
  function DecodeByIdUrl(base: string, url: string): Option<(string, seq<string>)>
  {
    var head := base + "/";
    if !StartsWith(url, head) then None
    else
      var (id, query) := SplitFirst(url[|head|..], '?');
      if query.None? then Some((id, []))
      else if DecodeProjection(query.value).Some? then Some((id, DecodeProjection(query.value).value))
      else None
  }

  lemma DecodeProjectionOf(props: seq<string>)
    requires |props| > 0 && Encodable(props)
    ensures DecodeProjection(ProjectionParam(props)) == Some(props)
  {
    StartsWithConcat("properties=", Join(props, ','));
    SplitJoin(props, ',');
  }

  /** Splitting on `sep` after a leading piece free of `sep`. */
  lemma SplitAfter(a: string, sep: char, b: string)
    requires sep !in a
    ensures Split(a + ([sep] + b), sep) == [a] + Split(b, sep)
  {
    ConcatAssoc(a, [sep], b);
    SplitCons(a, sep, b);
  }

  /** Two `&`-free pieces joined by `&` split back into the two. */
  lemma SplitTwo(l: string, v: string)
    requires '&' !in l && '&' !in v
    ensures Split(l + (['&'] + v), '&') == [l, v]
  {
    SplitAfter(l, '&', v);
  }

  /** Three `&`-free pieces joined by `&` split back into the three. */
  lemma SplitThree(l: string, av: string, pv: string)
    requires '&' !in l && '&' !in av && '&' !in pv
    ensures Split(l + (['&'] + av) + (['&'] + pv), '&') == [l, av, pv]
  {
    SplitTwo(av, pv);
    ConcatAssoc(l, ['&'] + av, ['&'] + pv);
    ConcatAssoc(['&'], av, ['&'] + pv);
    SplitAfter(l, '&', av + (['&'] + pv));
  }

  /** A projection parameter is never taken for a cursor one. */
  lemma ProjectionNotCursor(props: seq<string>)
    ensures !StartsWith(ProjectionParam(props), "after=")
  {
    assert ProjectionParam(props)[0] == 'p';
  }

  /** The segments after the limit: `after=…` if there is a cursor, then `properties=…` if any. */
  function CursorAndProjection(after: Option<string>, props: seq<string>): seq<string>
  {
    (if after.Some? then [CursorParam(after.value)] else [])
    + (if |props| > 0 then [ProjectionParam(props)] else [])
  }

  /** The projection parameter of `&`-free names has no `&`. */
  lemma ProjectionParamFree(props: seq<string>)
    requires Encodable(props)
    ensures '&' !in ProjectionParam(props)
  {
    JoinExcludes(props, ',', '&');
  }

  lemma QueryWithCursorAndProjection(l: string, after: string, props: seq<string>)
    requires '&' !in l && '&' !in after && |props| > 0 && Encodable(props)
    ensures Split(l + AfterSegment(Some(after)) + PropertiesSegment('&', props), '&')
         == [l, CursorParam(after), ProjectionParam(props)]
  {
    ProjectionParamFree(props);
    SplitThree(l, CursorParam(after), ProjectionParam(props));
  }

  lemma QueryWithCursor(l: string, after: string)
    requires '&' !in l && '&' !in after
    ensures Split(l + AfterSegment(Some(after)) + PropertiesSegment('&', []), '&') == [l, CursorParam(after)]
  {
    assert l + AfterSegment(Some(after)) + PropertiesSegment('&', []) == l + (['&'] + CursorParam(after));
    SplitTwo(l, CursorParam(after));
  }

  lemma QueryWithProjection(l: string, props: seq<string>)
    requires '&' !in l && |props| > 0 && Encodable(props)
    ensures Split(l + AfterSegment(None) + PropertiesSegment('&', props), '&') == [l, ProjectionParam(props)]
  {
    var pv := ProjectionParam(props);
    ProjectionParamFree(props);
    assert AfterSegment(None) == [] && l + [] == l;
    assert PropertiesSegment('&', props) == ['&'] + pv;
    SplitTwo(l, pv);
  }

  /** How a query splits on `&`: the limit, then the segments. */
  lemma QuerySegments(l: string, after: Option<string>, props: seq<string>)
    requires '&' !in l
    requires after.Some? ==> '&' !in after.value
    requires Encodable(props)
    ensures Split(l + AfterSegment(after) + PropertiesSegment('&', props), '&') == [l] + CursorAndProjection(after, props)
  {
    if after.Some? && |props| > 0 {
      QueryWithCursorAndProjection(l, after.value, props);
    } else if after.Some? {
      QueryWithCursor(l, after.value);
    } else if |props| > 0 {
      QueryWithProjection(l, props);
    } else {
      assert l + AfterSegment(after) + PropertiesSegment('&', props) == l;
    }
  }

  /** The segments after the limit decode to the cursor and projection they encode. */
  lemma SegmentsRoundTrip(limit: int, after: Option<string>, props: seq<string>)
    requires Encodable(props)
    ensures DecodeSegments(limit, CursorAndProjection(after, props)) == Some((limit, after, props))
  {
    if after.Some? {
      StartsWithConcat("after=", after.value);
    }
    if |props| > 0 {
      DecodeProjectionOf(props);
      ProjectionNotCursor(props);
    }
  }

  /** The query after `?limit=` reads back as its three parts. */
  lemma ListParamsRoundTrip(limit: int, after: Option<string>, props: seq<string>)
    requires after.Some? ==> '&' !in after.value
    requires Encodable(props)
    ensures DecodeListParams(IntToString(limit) + AfterSegment(after) + PropertiesSegment('&', props))
         == Some((limit, after, props))
  {
    IntToStringChars(limit, '&');
    IntToStringRoundTrip(limit);
    QuerySegments(IntToString(limit), after, props);
    SegmentsRoundTrip(limit, after, props);
  }

  /**
   * Every list URL reads back as the limit, cursor and projection it was
   * built from, provided the cursor has no `&` and the names have no `,` or
   * `&`. In particular the cursor segment always precedes the projection,
   * and the projection has no trailing comma.
   */
  lemma ListUrlRoundTrip(base: string, limit: int, after: Option<string>, props: seq<string>)
    requires after.Some? ==> '&' !in after.value
    requires Encodable(props)
    ensures DecodeListUrl(base, ListUrl(base, limit, after, props)) == Some((limit, after, props))
  {
    var head := base + "?limit=";
    var l, a, p := IntToString(limit), AfterSegment(after), PropertiesSegment('&', props);
    var q := l + a + p;
    ConcatAssoc(head, l, a);
    ConcatAssoc(head, l + a, p);
    assert ListUrl(base, limit, after, props) == head + q;
    StartsWithConcat(head, q);
    ListParamsRoundTrip(limit, after, props);
  }

  /**
   * Every by-id URL reads back as its id and projection, provided the id has
   * no `?` and the names have no `,` or `&`: the projection is present
   * exactly when it is non-empty, and in the order given.
   */
  lemma ByIdUrlRoundTrip(base: string, id: string, props: seq<string>)
    requires '?' !in id
    requires Encodable(props)
    ensures DecodeByIdUrl(base, ByIdUrl(base, id, props)) == Some((id, props))
  {
    var head := base + "/";
    var p := PropertiesSegment('?', props);
    assert ByIdUrl(base, id, props) == head + (id + p);
    StartsWithConcat(head, id + p);
    if |props| > 0 {
      var pv := ProjectionParam(props);
      ConcatAssoc(id, ['?'], pv);
      SplitFirstCons(id, '?', pv);
      DecodeProjectionOf(props);
    } else {
      assert id + p == id;
    }
  }

  /** The keys as the builders write them: separator and key in one literal. */
  lemma SegmentHeads()
    ensures "&after=" == ['&'] + "after="
    ensures "&properties=" == ['&'] + "properties="
    ensures "?properties=" == ['?'] + "properties="
  {
  }

  /** Appending a key with its separator, then a value, is appending the separated parameter. */
  lemma AppendParam(u: string, sep: char, key: string, v: string)
    ensures u + ([sep] + key) + v == u + ([sep] + (key + v))
  {
    ConcatAssoc(u, [sep] + key, v);
    ConcatAssoc([sep], key, v);
  }

  // ---------------------------------------------------------------------------
  // The StringBuilder loop

  /** What the join loop has appended after `i` rounds: the first `i` names, a comma after each but the last name. */
  ghost function JoinedSoFar(items: seq<string>, i: nat): string
    requires i <= |items|
  {
    if i == 0 then "" else Join(items[..i], ',') + (if i < |items| then "," else "")
  }

  /**
   * The loop every read uses to append the projection: each name in turn,
   * followed by a comma unless it is the last one.
   */
  method AppendJoined(builder: string, items: seq<string>) returns (s: string)
    ensures s == builder + Join(items, ',')
  {
    s := builder;
    var i := 0;
    while i < |items|
      invariant 0 <= i <= |items|
      invariant s == builder + JoinedSoFar(items, i)
    {
      JoinedSoFarStep(items, i);
      ghost var comma := if i < |items| - 1 then "," else "";
      ghost var before := s;
      s := s + items[i];
      if i < |items| - 1 {
        s := s + ",";
      }
      assert s == before + items[i] + comma;
      AppendAssoc(builder, JoinedSoFar(items, i), items[i], comma);
      i := i + 1;
    }
    JoinedSoFarDone(items);
  }

  lemma AppendAssoc(a: string, b: string, c: string, d: string)
    ensures a + b + c + d == a + (b + c + d)
  {
  }

  /** One more round of the join loop appends the next name and, unless it is the last, a comma. */
  lemma JoinedSoFarStep(items: seq<string>, i: nat)
    requires i < |items|
    ensures JoinedSoFar(items, i + 1) == JoinedSoFar(items, i) + items[i] + (if i < |items| - 1 then "," else "")
  {
    if i > 0 {
      assert items[..i + 1] == items[..i] + [items[i]];
      JoinSnoc(items[..i], items[i], ',');
    } else {
      assert items[..1] == [items[0]];
    }
  }

  /** After the last round the loop has appended the whole join. */
  lemma JoinedSoFarDone(items: seq<string>)
    ensures JoinedSoFar(items, |items|) == Join(items, ',')
  {
    if |items| > 0 {
      assert items[..|items|] == items;
    }
  }


  /**
   * The block every read uses for the projection: when the list is
   * non-empty, append the separator, `properties=` and the joined names.
   */
  method AppendProjection(url: string, sep: char, props: seq<string>) returns (s: string)
    ensures s == url + PropertiesSegment(sep, props)
  {
    s := url;
    if |props| > 0 {
      s := AppendJoined(url + ([sep] + "properties="), props);
      AppendParam(url, sep, "properties=", Join(props, ','));
    }
  }

  // ---------------------------------------------------------------------------
  // Request bodies

  /** `{"properties": m}` as create and update send it (a null map is sent as null). */
  function PropertiesBody(m: Option<PropertyMap>): (body: Json)
    ensures body.JObject? && body.fields.Keys == {"properties"}
  {
    JObject(map["properties" := if m.Some? then JObject(m.value) else JNull])
  }

  /** The caller's map as the remote side reads it back from a create or update body. */
  function BodyProperties(body: Json): Option<PropertyMap>
  {
    if body.JObject? && "properties" in body.fields && body.fields["properties"].JObject? then
      Some(body.fields["properties"].fields)
    else None
  }

  /** The create/update body carries the caller's map exactly, unfiltered. */
  lemma PropertiesBodyRoundTrip(m: Option<PropertyMap>)
    ensures BodyProperties(PropertiesBody(m)) == m
  {
  }

  /** A list of strings as a JSON array. */
  function StringArray(xs: seq<string>): (j: Json)
    ensures j.JArray? && |j.items| == |xs|
    ensures forall k :: 0 <= k < |xs| ==> j.items[k] == JString(xs[k])
  {
    JArray(seq(|xs|, k requires 0 <= k < |xs| => JString(xs[k])))
  }

  /** `Map.of("filterGroups", …, "properties", …, "limit", …)`. */
  function SearchBody(filterGroups: Json, props: seq<string>, limit: int): (body: Json)
    ensures body.JObject? && body.fields.Keys == {"filterGroups", "properties", "limit"}
    ensures body.fields["filterGroups"] == filterGroups
    ensures body.fields["properties"] == StringArray(props)
    ensures body.fields["limit"] == JNumber(limit)
  {
    JObject(map["filterGroups" := filterGroups, "properties" := StringArray(props), "limit" := JNumber(limit)])
  }

  // ---------------------------------------------------------------------------
  // The service

  /**
   * One kind's service: its endpoints, derived once from the type name, the
   * gateway it calls through and the schema cache it shares with the others.
   */
  class GenericService {
    const gateway: Gateway
    const baseEndpoint: string
    const searchEndpoint: string
    const cache: PropertiesCache

    constructor (gateway: Gateway, objectTypeName: string, cache: PropertiesCache)
      ensures this.gateway == gateway && this.cache == cache
      ensures baseEndpoint == ObjectsPath + objectTypeName
      ensures searchEndpoint == ObjectsPath + objectTypeName + SearchSuffix
    {
      this.gateway := gateway;
      this.baseEndpoint := ObjectsPath + objectTypeName;
      this.searchEndpoint := ObjectsPath + objectTypeName + SearchSuffix;
      this.cache := cache;
    }

    /** The type name read back from the base endpoint: what follows its last `/`. */
    function TypeName(): (name: string)
      ensures '/' !in name
    {
      AfterLast(baseEndpoint, '/')
    }

    /** Whether the caller's list is used as the projection (non-null and non-empty). */
    static predicate CallerProjection(properties: Option<seq<string>>)
    {
      properties.Some? && |properties.value| > 0
    }

    /**
     * The URL `getAllObjects` requests with the cache holding `entries`, or
     * the failure of the schema lookup it makes first. The cache is consulted
     * only when the caller's list is null or empty.
     */
    function ListAllTarget(entries: map<ObjectType, PropertiesResponse>, properties: Option<seq<string>>, limit: int)
      : (r: Result<string>)
      ensures CallerProjection(properties) ==> r == Ok(ListUrl(baseEndpoint, limit, None, properties.value))
      ensures !CallerProjection(properties) ==>
        var l := LookupByName(entries, TypeName(), cache.gateway);
        (r.Err? <==> l.result.Err?) && (r.Err? ==> r.error == l.result.error)
        && (r.Ok? ==> r.value == ListUrl(baseEndpoint, limit, None, NamesOf(l.result.value)))
    {
      if CallerProjection(properties) then Ok(ListUrl(baseEndpoint, limit, None, properties.value))
      else
        match LookupByName(entries, TypeName(), cache.gateway).result
        case Err(e) => Err(e)
        case Ok(response) => Ok(ListUrl(baseEndpoint, limit, None, NamesOf(response)))
    }

    /**
     * The URL `getObjectById` requests with the cache holding `entries`, or
     * the failure of the schema lookup it always makes first.
     */
    function ByIdTarget(entries: map<ObjectType, PropertiesResponse>, objectId: string): (r: Result<string>)
      ensures var l := LookupByName(entries, TypeName(), cache.gateway);
        (r.Err? <==> l.result.Err?) && (r.Err? ==> r.error == l.result.error)
        && (r.Ok? ==> r.value == ByIdUrl(baseEndpoint, objectId, NamesOf(l.result.value)))
    {
      match LookupByName(entries, TypeName(), cache.gateway).result
      case Err(e) => Err(e)
      case Ok(response) => Ok(ByIdUrl(baseEndpoint, objectId, NamesOf(response)))
    }

    /**
     * `getAllObjects(properties, limit)`: resolve the projection (the caller's
     * list, or the cached schema's names when that list is null or empty),
     * build the list URL and GET one page.
     */
    method GetAllObjects(properties: Option<seq<string>>, limit: Int32) returns (r: Result<Option<Page>>)
      modifies cache
      ensures CallerProjection(properties) ==> cache.entries == old(cache.entries) && cache.fetched == old(cache.fetched)
      ensures !CallerProjection(properties) ==>
        var l := LookupByName(old(cache.entries), TypeName(), cache.gateway);
        cache.entries == l.entries && cache.fetched == old(cache.fetched) + l.fetched
      ensures var target := ListAllTarget(old(cache.entries), properties, limit);
        r == (if target.Err? then Err(target.error) else GetPaginatedData(gateway, target.value))
    {
      var effective := properties;
      if !CallerProjection(properties) {
        var response := cache.GetPropertiesByName(TypeName());
        if response.Err? {
          return Err(response.error);
        }
        if response.value.Some? && response.value.value.results.Some? {
          effective := Some(PropertyNames(response.value.value.results.value));
        }
      }
      var url := baseEndpoint + "?limit=" + IntToString(limit);
      assert url + AfterSegment(None) == url;
      url := AppendProjection(url, '&', effective.GetOr([]));
      r := GetPaginatedData(gateway, url);
    }

    /**
     * `getObjectsWithPagination(properties, limit, after)`: the caller's list
     * as given (a null list is no projection), the cursor when there is one,
     * and no schema lookup at all.
     */
    method GetObjectsWithPagination(properties: Option<seq<string>>, limit: Int32, after: Option<string>)
      returns (r: Result<Option<Page>>)
      ensures r == GetPaginatedData(gateway, ListUrl(baseEndpoint, limit, after, properties.GetOr([])))
    {
      var url := baseEndpoint + "?limit=" + IntToString(limit);
      ghost var head := url;
      SegmentHeads();
      if after.Some? {
        url := url + "&after=" + after.value;
        AppendParam(head, '&', "after=", after.value);
      }
      assert url == head + AfterSegment(after);
      url := AppendProjection(url, '&', properties.GetOr([]));
      r := GetPaginatedData(gateway, url);
    }

    /**
     * `getObjectById(objectId)`: always resolve the projection from the
     * cached schema, then GET `base/id` with it.
     */
    method GetObjectById(objectId: string) returns (r: Result<Option<HubSpotObject>>)
      modifies cache
      ensures var l := LookupByName(old(cache.entries), TypeName(), cache.gateway);
        cache.entries == l.entries && cache.fetched == old(cache.fetched) + l.fetched
      ensures var target := ByIdTarget(old(cache.entries), objectId);
        r == (if target.Err? then Err(target.error) else Get(gateway, gateway.records, target.value))
    {
      var effective: Option<seq<string>> := None;
      var response := cache.GetPropertiesByName(TypeName());
      if response.Err? {
        return Err(response.error);
      }
      if response.value.Some? && response.value.value.results.Some? {
        effective := Some(PropertyNames(response.value.value.results.value));
      }
      var url := baseEndpoint + "/" + objectId;
      url := AppendProjection(url, '?', effective.GetOr([]));
      r := Get(gateway, gateway.records, url);
    }

    /** `createObject(properties)`: POST `{"properties": properties}` to the base endpoint. */
    method CreateObject(properties: Option<PropertyMap>) returns (r: Result<Option<HubSpotObject>>)
      ensures r == Post(gateway, gateway.records, baseEndpoint, PropertiesBody(properties))
    {
      var requestBody: map<string, Json> := map[];
      requestBody := requestBody["properties" := if properties.Some? then JObject(properties.value) else JNull];
      r := Post(gateway, gateway.records, baseEndpoint, JObject(requestBody));
    }

    /** `updateObject(objectId, properties)`: PUT the same body shape to `base/id`. */
    method UpdateObject(objectId: string, properties: Option<PropertyMap>) returns (r: Result<Option<HubSpotObject>>)
      ensures r == Put(gateway, gateway.records, baseEndpoint + "/" + objectId, PropertiesBody(properties))
    {
      var requestBody: map<string, Json> := map[];
      requestBody := requestBody["properties" := if properties.Some? then JObject(properties.value) else JNull];
      r := Put(gateway, gateway.records, baseEndpoint + "/" + objectId, JObject(requestBody));
    }

    /**
     * `deleteObject(objectId)`: true whenever the DELETE returns, whatever
     * 2xx status it had; a failure is an exception, never false.
     */
    function DeleteObject(objectId: string): (r: Result<bool>)
      ensures r != Ok(false)
      ensures var d := Delete(gateway, baseEndpoint + "/" + objectId);
        (r.Ok? <==> d.Ok?) && (d.Err? ==> r == Err(d.error))
    {
      match Delete(gateway, baseEndpoint + "/" + objectId)
      case Ok(_) => Ok(true)
      case Err(e) => Err(e)
    }

    /**
     * `searchObjects(filterGroups, properties, limit)`: POST to the search
     * endpoint with the filter passed through and a null list replaced by an
     * empty one; no schema lookup. A null filter makes `Map.of` throw.
     */
    function SearchObjects(filterGroups: Option<Json>, properties: Option<seq<string>>, limit: Int32)
      : (r: Result<Option<Page>>)
      ensures filterGroups.None? ==> r == Err(NullPointer)
      ensures filterGroups.Some? ==>
        r == Post(gateway, gateway.pages, searchEndpoint, SearchBody(filterGroups.value, properties.GetOr([]), limit))
    {
      if filterGroups.None? then Err(NullPointer)
      else
        var props := if properties.Some? then properties.value else [];
        Post(gateway, gateway.pages, searchEndpoint, SearchBody(filterGroups.value, props, limit))
    }

    /** `getObjectProperties()`: the schema of the type name read back from the base endpoint. */
    function GetObjectProperties(): (r: Result<Option<PropertiesResponse>>)
      ensures var reply := gateway.schemas(Request(GET, gateway.baseUrl + "/crm/v3/properties/" + TypeName(), None));
        r == Complete(reply, gateway.parseError)
    {
      BaseService.GetObjectProperties(gateway, AfterLast(baseEndpoint, '/'))
    }
  }

  /**
   * The base endpoint gives back the type name it was built from, for any
   * name without a `/`.
   */
  lemma TypeNameRecovered(name: string)
    requires '/' !in name
    ensures AfterLast(ObjectsPath + name, '/') == name
  {
    AfterLastOfSuffix(ObjectsPath, name, '/');
  }
}
