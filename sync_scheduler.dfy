/**
 * `CompanySyncScheduler`: the nightly full sync, which walks the company list
 * page by page along the `paging.next.after` cursors, and the periodic
 * incremental sync, which searches for companies modified in the last 48
 * hours. Both catch every exception and only log it; here the caught
 * exception is the `Failed` outcome. The clock is the `now` parameter.
 */
module SyncScheduler {
  import opened Wrappers
  import opened Payloads
  import opened Errors
  import opened BaseService
  import opened PropertiesCache
  import opened GenericService
  import opened ObjectServices
  import opened UtcTimestamp

  /** The page size both syncs ask for. */
  const PageLimit := 100

  /** How far back the incremental sync looks: 48 hours (48 * 60 * 60 * 1000 milliseconds). */
  const LookbackMillis := 172800000

  /** What the full sync does after reading one page: follow a cursor, stop, or leave by an exception. */
  datatype Step = Next(cursor: string) | Done | Abort(failure: Failure)

  /** How a run ends: normally, or with the exception its catch block logs. */
  datatype Outcome = Completed | Failed(failure: Failure)

  function OutcomeOf(s: Step): (o: Outcome)
    requires !s.Next?
    ensures o.Failed? <==> s.Abort?
    ensures s.Abort? ==> o.failure == s.failure
  {
    if s.Abort? then Failed(s.failure) else Completed
  }

  /**
   * `pagingInfo != null ? pagingInfo.getNext().getAfter() : null` on a page:
   * no paging or a null cursor ends the walk, a paging without `next` throws.
   */
  function CursorOf(p: Page): (s: Step)
    ensures s.Next? <==> p.paging.Some? && p.paging.value.next.Some? && p.paging.value.next.value.after.Some?
    ensures s.Next? ==> s.cursor == p.paging.value.next.value.after.value
    ensures s.Abort? <==> p.paging.Some? && p.paging.value.next.None?
    ensures s.Abort? ==> s.failure == NullPointer
  {
    match p.paging
    case None => Done
    case Some(paging) =>
      match paging.next
      case None => Abort(NullPointer)
      case Some(next) => if next.after.Some? then Next(next.after.value) else Done
  }

  /**
   * The step after the first page (`getAllObjects`): its failure is thrown;
   * a null response or null results skip the walk altogether.
   */
  function FirstStep(r: Result<Option<Page>>): (s: Step)
    ensures r.Err? ==> s == Abort(r.error)
    ensures r.Ok? && (r.value.None? || r.value.value.results.None?) ==> s == Done
    ensures r.Ok? && r.value.Some? && r.value.value.results.Some? ==> s == CursorOf(r.value.value)
  {
    if r.Err? then Abort(r.error)
    else if r.value.None? || r.value.value.results.None? then Done
    else CursorOf(r.value.value)
  }

  /**
   * The step after a later page (`getObjectsWithPagination`): its failure is
   * thrown, and a null response throws on `nextPage.getPagingInfo()`; null
   * results are only not logged.
   */
  function PageStep(r: Result<Option<Page>>): (s: Step)
    ensures r.Err? ==> s == Abort(r.error)
    ensures r.Ok? && r.value.None? ==> s == Abort(NullPointer)
    ensures r.Ok? && r.value.Some? ==> s == CursorOf(r.value.value)
  {
    if r.Err? then Abort(r.error)
    else if r.value.None? then Abort(NullPointer)
    else CursorOf(r.value.value)
  }

  /** The first index whose record has null properties, or the length if there is none. */
  function FirstNullProperties(rs: seq<HubSpotObject>): (k: nat)
    ensures k <= |rs|
    ensures forall j :: 0 <= j < k ==> rs[j].properties.Some?
    ensures k < |rs| ==> rs[k].properties.None?
  {
    if |rs| == 0 then 0
    else if rs[0].properties.None? then 0
    else 1 + FirstNullProperties(rs[1..])
  }

  /** `properties.get("name")`: the value, or null when the key is absent. */
  function NameOf(m: PropertyMap): (v: Option<Json>)
    ensures v.Some? <==> "name" in m
    ensures v.Some? ==> v.value == m["name"]
  {
    if "name" in m then Some(m["name"]) else None
  }

  /** One debug line of the incremental sync: the company's id and name. */
  datatype LogLine = LogLine(id: Option<string>, name: Option<Json>)

  /** The debug lines for records whose properties are all non-null. */
  function LogLines(rs: seq<HubSpotObject>): (lines: seq<LogLine>)
    requires forall j :: 0 <= j < |rs| ==> rs[j].properties.Some?
    ensures |lines| == |rs|
    ensures forall j :: 0 <= j < |rs| ==> lines[j] == LogLine(rs[j].id, NameOf(rs[j].properties.value))
  {
    seq(|rs|, j requires 0 <= j < |rs| => LogLine(rs[j].id, NameOf(rs[j].properties.value)))
  }

  /** The whole `filterGroups` of the incremental search for the watermark text `value`. */
  function IncrementalFilter(value: string): Json
  {
    JArray([JObject(map["filters" := JArray([JObject(map[
      "propertyName" := JString("hs_lastmodifieddate"),
      "operator" := JString("GT"),
      "value" := JString(value)])])])])
  }

  /** The filter's watermark text, if the filter has the incremental shape. */
  function FilterValue(f: Json): Option<string>
  {
    if f.JArray? && |f.items| == 1 && f.items[0].JObject? && "filters" in f.items[0].fields then
      var filters := f.items[0].fields["filters"];
      if filters.JArray? && |filters.items| == 1 && filters.items[0].JObject?
         && "value" in filters.items[0].fields && filters.items[0].fields["value"].JString?
      then Some(filters.items[0].fields["value"].str)
      else None
    else None
  }

  lemma FilterValueOf(value: string)
    ensures FilterValue(IncrementalFilter(value)) == Some(value)
  {
  }

  /**
   * What reading the list page at cursor `c` of `base` through `gw` leads to,
   * as a function of `c`: the GET of the list URL with the cursor and no
   * projection, completed as every call of the base service is.
   */
  function CursorSteps(gw: Gateway, base: string): string -> Step
  {
    c => PageStep(Complete(gw.pages(Request(GET, gw.baseUrl + ListUrl(base, PageLimit, Some(c), []), None)), gw.parseError))
  }

  /** Each step is what `getPaginatedData` answers for the cursor's list URL. */
  lemma CursorStepsArePaginated(gw: Gateway, base: string, c: string)
    ensures CursorSteps(gw, base)(c) == PageStep(GetPaginatedData(gw, ListUrl(base, PageLimit, Some(c), [])))
  {
  }

  /** The cursor walk from `c` stops (normally or by an exception) within `n` pages. */
  predicate EndsWithin(next: string -> Step, c: string, n: nat)
    decreases n
  {
    if n == 0 then false
    else
      match next(c)
      case Next(d) => EndsWithin(next, d, n - 1)
      case _ => true
  }

  /** The server's cursor chain from `c` is finite. */
  ghost predicate Ends(next: string -> Step, c: string)
  {
    exists n: nat :: EndsWithin(next, c, n)
  }

  /** Each cursor in `cs` leads to the next one. */
  predicate Linked(next: string -> Step, cs: seq<string>)
  {
    forall i :: 0 <= i < |cs| - 1 ==> next(cs[i]) == Next(cs[i + 1])
  }

  /** `cs` is the whole walk from `start`: linked, ending on a page that ends it with `outcome`. */
  predicate IsCursorWalk(next: string -> Step, start: string, cs: seq<string>, outcome: Outcome)
  {
    && |cs| > 0 && cs[0] == start && Linked(next, cs)
    && !next(cs[|cs| - 1]).Next?
    && OutcomeOf(next(cs[|cs| - 1])) == outcome
  }

  /** Along a walk, every page but the last leads on to a further cursor. */
  lemma WalkContinues(next: string -> Step, start: string, cs: seq<string>, o: Outcome, j: int)
    requires IsCursorWalk(next, start, cs, o) && 0 <= j < |cs|
    ensures next(cs[j]).Next? <==> j < |cs| - 1
  {
    if j < |cs| - 1 {
      assert next(cs[j]) == Next(cs[j + 1]);
    }
  }

  /** A cursor walk is determined by its start: there is one sequence of requests and one outcome. */
  lemma WalkUnique(next: string -> Step, start: string, cs1: seq<string>, o1: Outcome, cs2: seq<string>, o2: Outcome)
    requires IsCursorWalk(next, start, cs1, o1) && IsCursorWalk(next, start, cs2, o2)
    ensures cs1 == cs2 && o1 == o2
  {
    var m := if |cs1| < |cs2| then |cs1| else |cs2|;
    var i := 0;
    while i < m - 1
      invariant 0 <= i < m
      invariant forall j :: 0 <= j <= i ==> cs1[j] == cs2[j]
    {
      assert next(cs1[i]) == Next(cs1[i + 1]) && next(cs2[i]) == Next(cs2[i + 1]);
      i := i + 1;
    }
    WalkContinues(next, start, cs1, o1, m - 1);
    WalkContinues(next, start, cs2, o2, m - 1);
  }

  /**
   * A chain of pages with cursors a, then b, then no cursor: the walk from a
   * requests exactly a and then b, and completes.
   */
  lemma TwoPageWalk(next: string -> Step, a: string, b: string, cs: seq<string>, o: Outcome)
    requires next(a) == Next(b) && next(b) == Done
    requires IsCursorWalk(next, a, cs, o)
    ensures cs == [a, b] && o == Completed
  {
    assert IsCursorWalk(next, a, [a, b], Completed);
    WalkUnique(next, a, cs, o, [a, b], Completed);
  }

  /** A linked list of cursors stays linked when the cursor its last page leads to is appended. */
  lemma LinkedSnoc(next: string -> Step, cs: seq<string>, c: string)
    requires Linked(next, cs) && (|cs| > 0 ==> next(cs[|cs| - 1]) == Next(c))
    ensures Linked(next, cs + [c])
  {
    var ds := cs + [c];
    forall i | 0 <= i < |ds| - 1
      ensures next(ds[i]) == Next(ds[i + 1])
    {
      if i < |cs| - 1 {
        assert ds[i] == cs[i] && ds[i + 1] == cs[i + 1];
      }
    }
  }

  /** A walk that ends within `n` pages follows at most `n` cursors. */
  lemma {:induction false} WalkWithin(next: string -> Step, c: string, n: nat, cs: seq<string>, o: Outcome)
    requires EndsWithin(next, c, n) && IsCursorWalk(next, c, cs, o)
    ensures |cs| <= n
    decreases n
  {
    if |cs| > 1 {
      assert next(c) == Next(cs[1]);
      var rest := cs[1..];
      assert Linked(next, rest) by {
        forall i | 0 <= i < |rest| - 1
          ensures next(rest[i]) == Next(rest[i + 1])
        {
          assert next(cs[i + 1]) == Next(cs[i + 2]);
        }
      }
      assert rest[|rest| - 1] == cs[|cs| - 1];
      WalkWithin(next, cs[1], n - 1, rest, o);
    }
  }

  /** The maps `buildIncrementalFilter()` fills in, for the watermark text `value`. */
  method FilterGroupsFor(value: string) returns (filterGroups: Json)
    ensures filterGroups == IncrementalFilter(value)
    ensures FilterValue(filterGroups) == Some(value)
  {
    var filter: map<string, Json> := map[];
    filter := filter["propertyName" := JString("hs_lastmodifieddate")];
    filter := filter["operator" := JString("GT")];
    filter := filter["value" := JString(value)];
    var filterGroup: map<string, Json> := map[];
    filterGroup := filterGroup["filters" := JArray([JObject(filter)])];
    filterGroups := JArray([JObject(filterGroup)]);
  }

  /** The scheduled component, holding the company service it syncs through. */
  class CompanySyncScheduler {
    const companyService: GenericService

    constructor (companyService: GenericService)
      ensures this.companyService == companyService
    {
      this.companyService := companyService;
    }

    /** What the first `getAllObjects(emptyList, 100)` of the full sync answers with the cache holding `entries`. */
    function FirstPage(entries: map<ObjectType, PropertiesResponse>): Result<Option<Page>>
    {
      var target := companyService.ListAllTarget(entries, Some([]), PageLimit);
      if target.Err? then Err(target.error) else GetPaginatedData(companyService.gateway, target.value)
    }

    /** The step each cursor page of this scheduler's company service leads to. */
    function Pager(): string -> Step
    {
      CursorSteps(companyService.gateway, companyService.baseEndpoint)
    }

    /**
     * One round of the loop: `getObjectsWithPagination(emptyList, 100, after)`
     * and the step the page it answers leads to.
     */
    method RequestPage(after: string) returns (step: Step)
      ensures step == Pager()(after)
    {
      var nextPage := companyService.GetObjectsWithPagination(Some([]), PageLimit, Some(after));
      CursorStepsArePaginated(companyService.gateway, companyService.baseEndpoint, after);
      step := PageStep(nextPage);
    }

    /**
     * The `while (after != null)` loop of `performFullSync()` from the step
     * the first page gave: request the page at each cursor with no projection
     * until a page ends the walk. `requested` are the cursors asked for, in
     * order.
     */
    method FollowCursors(first: Step) returns (requested: seq<string>, outcome: Outcome)
      requires first.Next? ==> Ends(Pager(), first.cursor)
      ensures !first.Next? ==> requested == [] && outcome == OutcomeOf(first)
      ensures first.Next? ==> IsCursorWalk(Pager(), first.cursor, requested, outcome)
    {
      var step := first;
      requested := [];
      ghost var next := Pager();
      ghost var fuel: nat := 0;
      if step.Next? {
        fuel :| EndsWithin(next, step.cursor, fuel);
      }
      while step.Next?
        invariant step.Next? ==> EndsWithin(next, step.cursor, fuel)
        invariant |requested| == 0 ==> step == first
        invariant |requested| > 0 ==> first.Next? && requested[0] == first.cursor && Linked(next, requested)
        invariant |requested| > 0 ==> next(requested[|requested| - 1]) == step
        decreases fuel
      {
        var after := step.cursor;
        step := RequestPage(after);
        LinkedSnoc(next, requested, after);
        requested := requested + [after];
        fuel := fuel - 1;
      }
      outcome := OutcomeOf(step);
    }

    /**
     * `performFullSync()`: read the first page with the schema projection,
     * then follow the cursors. The walk the server hands out is required to
     * be finite.
     */
    method PerformFullSync() returns (requested: seq<string>, outcome: Outcome)
      requires var s := FirstStep(FirstPage(companyService.cache.entries)); s.Next? ==> Ends(Pager(), s.cursor)
      modifies companyService.cache
      ensures var l := LookupByName(old(companyService.cache.entries), companyService.TypeName(), companyService.cache.gateway);
        companyService.cache.entries == l.entries && companyService.cache.fetched == old(companyService.cache.fetched) + l.fetched
      ensures var s := FirstStep(FirstPage(old(companyService.cache.entries)));
        && (!s.Next? ==> requested == [] && outcome == OutcomeOf(s))
        && (s.Next? ==> IsCursorWalk(Pager(), s.cursor, requested, outcome))
    {
      var properties: seq<string> := [];
      var response := companyService.GetAllObjects(Some(properties), PageLimit);
      requested, outcome := FollowCursors(FirstStep(response));
    }

    /**
     * `buildIncrementalFilter()` at instant `now`: one filter group holding
     * one filter, `hs_lastmodifieddate GT <now - 48h as UTC text>`.
     */
    method BuildIncrementalFilter(now: int) returns (filterGroups: Json)
      requires LookbackMillis <= now < MaxMillis + LookbackMillis
      ensures filterGroups == IncrementalFilter(FormatIso(now - LookbackMillis))
    {
      filterGroups := FilterGroupsFor(FormatIso(now - LookbackMillis));
    }

    /**
     * The loop of `performIncrementalSync()` over the search results: log
     * each record's id and name until one with null properties throws.
     */
    method LogResults(rs: seq<HubSpotObject>) returns (logged: seq<LogLine>, outcome: Outcome)
      ensures var k := FirstNullProperties(rs);
        logged == LogLines(rs[..k]) && outcome == (if k < |rs| then Failed(NullPointer) else Completed)
    {
      logged := [];
      var i := 0;
      while i < |rs|
        invariant 0 <= i <= |rs| && i <= FirstNullProperties(rs)
        invariant logged == LogLines(rs[..i])
      {
        var company := rs[i];
        if company.properties.None? {
          return logged, Failed(NullPointer);
        }
        LogLinesSnoc(rs, i);
        logged := logged + [LogLine(company.id, NameOf(company.properties.value))];
        i := i + 1;
      }
      assert rs[..i] == rs;
      outcome := Completed;
    }

    /**
     * `performIncrementalSync()` at instant `now`: search with the filter and
     * no projection, then log each result's id and name.
     */
    method PerformIncrementalSync(now: int) returns (logged: seq<LogLine>, outcome: Outcome)
      requires LookbackMillis <= now < MaxMillis + LookbackMillis
      ensures var r := companyService.SearchObjects(Some(IncrementalFilter(FormatIso(now - LookbackMillis))), Some([]), PageLimit);
        && (r.Err? ==> logged == [] && outcome == Failed(r.error))
        && (r.Ok? && (r.value.None? || r.value.value.results.None?) ==> logged == [] && outcome == Completed)
        && (r.Ok? && r.value.Some? && r.value.value.results.Some? ==>
              var rs := r.value.value.results.value;
              var k := FirstNullProperties(rs);
              logged == LogLines(rs[..k]) && outcome == (if k < |rs| then Failed(NullPointer) else Completed))
    {
      var filter := BuildIncrementalFilter(now);
      var properties: seq<string> := [];
      var response := companyService.SearchObjects(Some(filter), Some(properties), PageLimit);
      if response.Err? {
        return [], Failed(response.error);
      }
      if response.value.None? || response.value.value.results.None? {
        return [], Completed;
      }
      logged, outcome := LogResults(response.value.value.results.value);
    }
  }

  lemma LogLinesSnoc(rs: seq<HubSpotObject>, i: nat)
    requires i < |rs| && forall j :: 0 <= j <= i ==> rs[j].properties.Some?
    ensures LogLines(rs[..i + 1]) == LogLines(rs[..i]) + [LogLine(rs[i].id, NameOf(rs[i].properties.value))]
  {
    assert rs[..i + 1][i] == rs[i];
  }

  /** The watermark text of the incremental filter reads back as the instant 48 hours before `now`. */
  lemma IncrementalWatermark(now: int)
    requires LookbackMillis <= now < MaxMillis + LookbackMillis
    ensures ParseIso(FormatIso(now - LookbackMillis)) == Some(now - LookbackMillis)
  {
    ParseFormatIso(now - LookbackMillis);
  }

  /** Every cursor page of the full sync is requested with the page size of 100, the cursor and no projection. */
  lemma CursorPagesUnprojected(scheduler: CompanySyncScheduler, c: string)
    requires '&' !in c
    ensures DecodeListUrl(scheduler.companyService.baseEndpoint,
                          ListUrl(scheduler.companyService.baseEndpoint, PageLimit, Some(c), []))
         == Some((100, Some(c), []))
  {
    ListUrlRoundTrip(scheduler.companyService.baseEndpoint, PageLimit, Some(c), []);
  }

  /**
   * With the company schema cached, the full sync's first request lists the
   * first 100 companies with every property of that schema.
   */
  lemma FullSyncProjectsSchema(scheduler: CompanySyncScheduler, entries: map<ObjectType, PropertiesResponse>)
    requires ServiceFor(scheduler.companyService, COMPANIES) && COMPANIES in entries
    ensures scheduler.FirstPage(entries)
         == GetPaginatedData(scheduler.companyService.gateway,
                             ListUrl(scheduler.companyService.baseEndpoint, PageLimit, None, NamesOf(Some(entries[COMPANIES]))))
  {
    SchemaReadsResolve(scheduler.companyService, COMPANIES, entries, PageLimit, "");
  }

  /** The example run at 2024-03-10T12:00:00.000Z filters on "2024-03-08T12:00:00.000Z". */
  lemma WatermarkExample()
    ensures 1710072000000 - LookbackMillis == 1709899200000
    ensures FormatIso(1710072000000 - LookbackMillis) == "2024-03-08T12:00:00.000Z"
  {
    FormatIsoExample();
  }
}
