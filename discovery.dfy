/**
 * The station-discovery hook (`useRadios`): searches by country and by
 * name against the RadioBrowser directory, with TuneIn as a second
 * directory for country searches, an in-memory cache per query, and a
 * pagination cursor that shows a growing prefix of the cached results,
 * PAGE_SIZE stations at a time.
 *
 * The network is not performed here: each search takes the directories'
 * replies as arguments, consulted only when the cache misses, and reports
 * as a ghost result the requests it would have sent.
 */
module Discovery {
  import opened Wrappers
  import opened Seqs
  import opened Stations

  /** Stations revealed by each page. */
  const PAGE_SIZE: nat := 50

  function Min(a: int, b: int): int
  {
    if a <= b then a else b
  }

  /** `s.slice(start, end)` for non-negative bounds: both are clamped to the length. */
  function JsSlice<T>(s: seq<T>, start: nat, end: nat): (r: seq<T>)
    requires start <= end
    ensures start >= |s| ==> r == []
    ensures start < |s| ==> |r| == Min(end, |s|) - start
    ensures forall i :: 0 <= i < |r| ==> start + i < |s| && r[i] == s[start + i]
  {
    if start >= |s| then [] else s[start..Min(end, |s|)]
  }

  /** What the pagination cursor shows of `all` once `page` pages are out. */
  function Shown<T>(all: seq<T>, page: nat): (r: seq<T>)
    ensures |r| == Min(page * PAGE_SIZE, |all|)
    ensures r <= all
  {
    all[..Min(page * PAGE_SIZE, |all|)]
  }

  /** The first page is what a search hands to the list: `slice(0, PAGE_SIZE)`. */
  lemma FirstPage<T>(all: seq<T>)
    ensures JsSlice(all, 0, PAGE_SIZE) == Shown(all, 1)
  {
  }

  /** Appending the next page's slice to the shown prefix shows one page more. */
  lemma ShownGrows<T>(all: seq<T>, page: nat)
    ensures Shown(all, page) + JsSlice(all, page * PAGE_SIZE, (page + 1) * PAGE_SIZE) == Shown(all, page + 1)
  {
  }

  /** `hasMore` after `page` pages says exactly that the list still hides stations. */
  lemma HasMoreIffHidden<T>(all: seq<T>, page: nat)
    ensures |all| > page * PAGE_SIZE <==> Shown(all, page) != all
  {
  }

  /** What a request to a directory came back with: a thrown error, or a response body. */
  datatype Reply<T> = Failed(message: string) | Received(data: T)

  /** A RadioBrowser response body: a list of records, or anything else. */
  datatype RbData = NotAList | Records(records: seq<RbRecord>)

  /** A TuneIn search response: its `body` list, or `None` when the body is absent or falsy. */
  type TiData = Option<seq<TiEntry>>

  /** The requests a search sends. */
  datatype Endpoint = RbByCountry(country: string) | TiSearch(query: string) | RbByName(name: string)

  /** The stations found by one search, and the error message it leaves, if any. */
  datatype Outcome = Outcome(stations: seq<Station>, error: Option<string>)

  /**
   * The RadioBrowser stage of both searches: the records mapped one to one
   * when the reply is a list; a failure or any other body yields nothing.
   */
  function PrimaryResults(rb: Reply<RbData>): (stations: seq<Station>)
    ensures !(rb.Received? && rb.data.Records?) ==> stations == []
    ensures rb.Received? && rb.data.Records? ==>
              |stations| == |rb.data.records|
              && forall i :: 0 <= i < |stations| ==> stations[i] == FromRadioBrowser(rb.data.records[i])
    ensures forall s :: s in stations ==> s.source == RadioBrowser
  {
    match rb
    case Received(Records(records)) => FromRadioBrowserAll(records)
    case _ => []
  }

  /**
   * The TuneIn stage of a country search: the audio entries, stamped with
   * the searched country; a failure leaves no stations and its message, or
   * "Error en TuneIn" when the message is empty.
   */
  function SecondaryResults(ti: Reply<TiData>, country: string): (r: Outcome)
    ensures r.error.Some? <==> ti.Failed?
    ensures r.error.Some? ==> r.stations == [] && r.error.value != ""
    ensures ti.Failed? && ti.message != "" ==> r.error == Some(ti.message)
    ensures forall s :: s in r.stations ==> s.source == TuneIn && s.country == country
    ensures ti.Received? && ti.data.Some? ==> r.stations == FromTuneInAll(ti.data.value, country)
    ensures ti.Received? && ti.data.None? ==> r.stations == []
  {
    match ti
    case Failed(message) => Outcome([], Some(if message == "" then "Error en TuneIn" else message))
    case Received(None) => Outcome([], None)
    case Received(Some(body)) => Outcome(FromTuneInAll(body, country), None)
  }

  /**
   * The outcome of a country search that misses the cache: RadioBrowser's
   * stations when it found any, TuneIn's outcome otherwise.
   */
  function CountryResults(rb: Reply<RbData>, ti: Reply<TiData>, country: string): (r: Outcome)
    ensures PrimaryResults(rb) != [] ==> r == Outcome(PrimaryResults(rb), None)
    ensures PrimaryResults(rb) == [] ==> r == SecondaryResults(ti, country)
    ensures r.error.Some? ==> r.stations == [] && ti.Failed?
    ensures (forall s :: s in r.stations ==> s.source == RadioBrowser)
            || (forall s :: s in r.stations ==> s.source == TuneIn && s.country == country)
  {
    var primary := PrimaryResults(rb);
    if primary != [] then Outcome(primary, None) else SecondaryResults(ti, country)
  }

  /** The requests a country search that misses the cache sends: TuneIn only after an empty RadioBrowser stage. */
  function CountryRequests(rb: Reply<RbData>, country: string): (calls: seq<Endpoint>)
    ensures calls != [] && calls[0] == RbByCountry(country)
    ensures TiSearch(country) in calls <==> PrimaryResults(rb) == []
  {
    if PrimaryResults(rb) != [] then [RbByCountry(country)] else [RbByCountry(country), TiSearch(country)]
  }

  const NO_MATCH: string := "No se encontraron emisoras con el nombre \""

  /** The error a name search with no results reports: it quotes the name searched for. */
  function NoMatchMessage(name: string): (m: string)
    ensures |m| == |NO_MATCH| + |name| + 2
    ensures m[..|NO_MATCH|] == NO_MATCH && m[|NO_MATCH|..|m| - 2] == name && m[|m| - 2..] == "\"."
  {
    NO_MATCH + name + "\"."
  }

  /** `paginationRef.current`: the query shown, its full results and the pages out. */
  datatype Pagination = Pagination(country: Option<string>, allResults: seq<Station>, currentPage: nat)

  class Radios {
    var radios: seq<Station>
    var error: Option<string>
    var hasMore: bool
    var byCountry: map<string, seq<Station>>
    var byName: map<string, seq<Station>>
    var pagination: Pagination

    /** A name search caches only non-empty results. */
    ghost predicate Valid()
      reads this
    {
      forall n :: n in byName ==> byName[n] != []
    }

    /** The list shows exactly the first `currentPage` pages of `allResults`,
        and `hasMore` says whether any station is still hidden. */
    ghost predicate ShowsPrefix()
      reads this
    {
      && radios == Shown(pagination.allResults, pagination.currentPage)
      && hasMore == (|pagination.allResults| > pagination.currentPage * PAGE_SIZE)
    }

    constructor ()
      ensures Valid() && ShowsPrefix()
      ensures radios == [] && error == None && !hasMore
      ensures byCountry == map[] && byName == map[]
      ensures pagination == Pagination(None, [], 0)
    {
      radios, error, hasMore := [], None, false;
      byCountry, byName := map[], map[];
      pagination := Pagination(None, [], 0);
    }

    /** The first page of `all` goes to the list, with the pagination cursor on page one. */
    method ShowFirstPage(country: Option<string>, all: seq<Station>)
      modifies this`pagination, this`radios, this`hasMore
      ensures pagination == Pagination(country, all, 1)
      ensures radios == Shown(all, 1) && hasMore == (|all| > PAGE_SIZE)
      ensures ShowsPrefix()
    {
      pagination := Pagination(country, all, 1);
      radios := JsSlice(all, 0, PAGE_SIZE);
      FirstPage(all);
      hasMore := |all| > PAGE_SIZE;
    }

    /**
     * `fetchByCountry(country)`. A cached country, even one cached with no
     * stations, is served without a request; otherwise the outcome is cached,
     * whatever it is.
     */
    method FetchByCountry(country: string, rb: Reply<RbData>, ti: Reply<TiData>)
        returns (ghost calls: seq<Endpoint>)
      requires Valid()
      modifies this
      ensures Valid() && ShowsPrefix()
      ensures byName == old(byName)
      ensures country in old(byCountry) ==>
                && calls == []
                && byCountry == old(byCountry)
                && error == None
                && pagination == Pagination(Some(country), old(byCountry)[country], 1)
      ensures country !in old(byCountry) ==>
                var outcome := CountryResults(rb, ti, country);
                && calls == CountryRequests(rb, country)
                && byCountry == old(byCountry)[country := outcome.stations]
                && error == outcome.error
                && pagination == Pagination(Some(country), outcome.stations, 1)
    {
      error := None;
      if country in byCountry {
        calls := [];
        ShowFirstPage(Some(country), byCountry[country]);
        return;
      }
      var results := PrimaryResults(rb);
      calls := [RbByCountry(country)];
      if results == [] {
        calls := calls + [TiSearch(country)];
        var outcome := SecondaryResults(ti, country);
        results := outcome.stations;
        error := outcome.error;
      }
      byCountry := byCountry[country := results];
      ShowFirstPage(Some(country), results);
    }

    /**
     * `fetchByName(name)`. A cached name is served without a request; a
     * search that finds nothing empties the list and reports the name, and
     * neither caches nor touches the pagination cursor.
     */
    method FetchByName(name: string, rb: Reply<RbData>) returns (ghost calls: seq<Endpoint>)
      requires Valid()
      modifies this
      ensures Valid()
      ensures byCountry == old(byCountry)
      ensures name in old(byName) ==>
                && calls == []
                && byName == old(byName)
                && error == None
                && pagination == Pagination(None, old(byName)[name], 1)
                && ShowsPrefix()
      ensures name !in old(byName) ==> calls == [RbByName(name)]
      ensures name !in old(byName) && PrimaryResults(rb) == [] ==>
                && byName == old(byName)
                && radios == [] && !hasMore
                && error == Some(NoMatchMessage(name))
                && pagination == old(pagination)
      ensures name !in old(byName) && PrimaryResults(rb) != [] ==>
                && byName == old(byName)[name := PrimaryResults(rb)]
                && error == None
                && pagination == Pagination(None, PrimaryResults(rb), 1)
                && ShowsPrefix()
    {
      error := None;
      if name in byName {
        calls := [];
        ShowFirstPage(None, byName[name]);
        return;
      }
      calls := [RbByName(name)];
      var results := PrimaryResults(rb);
      if results == [] {
        radios := [];
        hasMore := false;
        error := Some(NoMatchMessage(name));
        return;
      }
      byName := byName[name := results];
      ShowFirstPage(None, results);
    }

    /**
     * `fetchMoreByCountry()` and `fetchMoreByName()`, which are the same
     * code: the next page's slice is appended and the page count moves on,
     * even past the end; nothing happens while there are no results.
     */
    method FetchMore()
      modifies this`radios, this`pagination, this`hasMore
      ensures old(pagination.allResults) == [] ==> unchanged(this)
      ensures old(pagination.allResults) != [] ==>
                var p := old(pagination.currentPage);
                var all := old(pagination.allResults);
                && radios == old(radios) + JsSlice(all, p * PAGE_SIZE, (p + 1) * PAGE_SIZE)
                && pagination == old(pagination).(currentPage := p + 1)
                && hasMore == (|all| > (p + 1) * PAGE_SIZE)
      ensures old(ShowsPrefix()) ==> ShowsPrefix()
    {
      var all := pagination.allResults;
      if all == [] {
        return;
      }
      var nextPage := pagination.currentPage + 1;
      var start := (nextPage - 1) * PAGE_SIZE;
      var end := start + PAGE_SIZE;
      var newItems := JsSlice(all, start, end);
      ShownGrows(all, pagination.currentPage);
      radios := radios + newItems;
      pagination := pagination.(currentPage := nextPage);
      hasMore := |all| > end;
    }

    /** `clearRadios()`: the list and the error only; caches and cursor stay. */
    method ClearRadios()
      modifies this`radios, this`error
      ensures radios == [] && error == None
    {
      radios := [];
      error := None;
    }
  }

  /** Builds `n` RadioBrowser records, each with a stream URL. */
  function SampleRecords(n: nat): (records: seq<RbRecord>)
    ensures |records| == n
  {
    seq(n, i => RbRecord(Some("uuid"), "Radio", "Colombia", Some("http://stream.example/live"), None, None))
  }

  /**
   * A country with 120 stations is revealed 50, 100, then 120 at a time,
   * `hasMore` turning false only on the last page; one more call adds
   * nothing.
   */
  method PagingScenario() returns (sizes: seq<nat>, more: seq<bool>)
    ensures sizes == [50, 100, 120, 120]
    ensures more == [true, true, false, false]
  {
    var r := new Radios();
    var rb := Received(Records(SampleRecords(120)));
    ghost var calls := r.FetchByCountry("Colombia", rb, Failed(""));
    assert PrimaryResults(rb) != [];
    sizes, more := [|r.radios|], [r.hasMore];
    r.FetchMore();
    sizes, more := sizes + [|r.radios|], more + [r.hasMore];
    r.FetchMore();
    sizes, more := sizes + [|r.radios|], more + [r.hasMore];
    r.FetchMore();
    sizes, more := sizes + [|r.radios|], more + [r.hasMore];
  }

  /**
   * A country searched twice is served from the cache the second time,
   * whatever the directories would now answer: no request, same list.
   */
  method CacheScenario(rb1: Reply<RbData>, ti1: Reply<TiData>, rb2: Reply<RbData>, ti2: Reply<TiData>)
      returns (first: seq<Station>, second: seq<Station>, ghost secondCalls: seq<Endpoint>)
    ensures first == second && secondCalls == []
  {
    var r := new Radios();
    ghost var calls := r.FetchByCountry("Colombia", rb1, ti1);
    first := r.radios;
    secondCalls := r.FetchByCountry("Colombia", rb2, ti2);
    second := r.radios;
  }
}
