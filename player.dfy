/**
 * The playback engine of the player context: a queue of stations, a cursor
 * into it (-1 when nothing is selected), the `isPlaying` flag and the audio
 * device's current source.
 *
 * The device is an oracle: `accepts(url)` says whether `audio.play()`
 * succeeds once `url` is the source. The stream-URL resolver is the
 * `resolve` argument; `Resolver(fetch)` is the one the context uses, with
 * `fetch(url)` what the network answers for `url`.
 */
module Player {
  import opened Wrappers
  import opened Seqs
  import opened Stations
  import opened StreamResolver

  /** JavaScript's `a % n`: the remainder takes the sign of the dividend. */
  function JsRem(a: int, n: int): int
    requires n > 0
  {
    if a >= 0 then a % n else -((-a) % n)
  }

  /** `(currentIndex + 1) % stations.length`. */
  function NextIndex(n: nat, i: int): (k: int)
    requires n > 0 && -1 <= i < n
    ensures 0 <= k < n
  {
    JsRem(i + 1, n)
  }

  /** `(currentIndex - 1 + stations.length) % stations.length`. */
  function PrevIndex(n: nat, i: int): (k: int)
    requires n > 0 && -1 <= i < n
    ensures 0 <= k < n
  {
    JsRem(i - 1 + n, n)
  }

  lemma PrevUndoesNext(n: nat, i: nat)
    requires i < n
    ensures PrevIndex(n, NextIndex(n, i)) == i
  {
    if i + 1 < n {
      assert NextIndex(n, i) == i + 1;
    } else {
      assert NextIndex(n, i) == 0;
    }
  }

  lemma NextUndoesPrev(n: nat, i: nat)
    requires i < n
    ensures NextIndex(n, PrevIndex(n, i)) == i
  {
    var a := i - 1 + n;
    if i == 0 {
      assert a % n == n - 1;
      assert PrevIndex(n, i) == n - 1;
    } else {
      assert n <= a < 2 * n;
      assert a % n == i - 1;
      assert PrevIndex(n, i) == i - 1;
    }
  }

  /** `(s) => s.id === id`. */
  function SameId(id: Option<string>): Station -> bool
  {
    (s: Station) => s.id == id
  }

  predicate HasId(queue: seq<Station>, id: Option<string>)
  {
    exists j :: 0 <= j < |queue| && queue[j].id == id
  }

  /** `k` is the first position in `queue` holding a station with this id. */
  predicate FirstWithId(queue: seq<Station>, id: Option<string>, k: int)
  {
    0 <= k < |queue| && queue[k].id == id && forall j :: 0 <= j < k ==> queue[j].id != id
  }

  predicate DistinctIds(queue: seq<Station>)
  {
    forall i, j :: 0 <= i < j < |queue| ==> queue[i].id != queue[j].id
  }

  datatype Queue = Queue(stations: seq<Station>, index: int)

  /**
   * The queue and cursor after `playStation(station, list)`: a non-empty
   * list replaces the queue; otherwise the cursor moves to the station if
   * it is queued already, and the queue becomes that station alone if not.
   */
  function Requeue(current: seq<Station>, station: Station, list: seq<Station>): (q: Queue)
    ensures 0 <= q.index < |q.stations|
    ensures list != [] ==>
              q.stations == list
              && if HasId(list, station.id) then FirstWithId(list, station.id, q.index) else q.index == 0
    ensures list == [] ==>
              if HasId(current, station.id) then q.stations == current && FirstWithId(current, station.id, q.index)
              else q == Queue([station], 0)
  {
    if list != [] then
      var idx := FindIndex(SameId(station.id), list);
      Queue(list, if idx >= 0 then idx else 0)
    else
      var idx := FindIndex(SameId(station.id), current);
      if idx != -1 then Queue(current, idx) else Queue([station], 0)
  }

  /**
   * Where the cursor ends when playNext / playPrev aim it at `target`: the
   * call to playStation that follows looks the station up again by id, so
   * the cursor lands on the first station with that id, unless the station
   * has no URLs and playStation returns at once.
   */
  function Landing(queue: seq<Station>, target: nat): (i: nat)
    requires target < |queue|
    ensures i <= target && queue[i].id == queue[target].id
    ensures queue[target].streamUrls != [] ==> FirstWithId(queue, queue[target].id, i)
    ensures DistinctIds(queue) ==> i == target
  {
    if queue[target].streamUrls == [] then target
    else Requeue(queue, queue[target], []).index
  }

  /** With distinct ids, playNext followed by playPrev comes back to where it started. */
  lemma NextThenPrevRestores(queue: seq<Station>, i: nat)
    requires i < |queue| && DistinctIds(queue)
    ensures Landing(queue, PrevIndex(|queue|, Landing(queue, NextIndex(|queue|, i)))) == i
  {
    PrevUndoesNext(|queue|, i);
  }

  /** With distinct ids, playPrev followed by playNext comes back to where it started. */
  lemma PrevThenNextRestores(queue: seq<Station>, i: nat)
    requires i < |queue| && DistinctIds(queue)
    ensures Landing(queue, NextIndex(|queue|, Landing(queue, PrevIndex(|queue|, i)))) == i
  {
    NextUndoesPrev(|queue|, i);
  }

  /**
   * `resolveStreamUrl` over a given network: the URL handed to the device
   * for a declared URL. The playback methods take the resolver as their
   * `resolve` argument, so what they promise holds for this one whatever
   * the network answers.
   */
  function Resolver(fetch: string -> Response): (resolve: string -> string)
  {
    (u: string) => Resolve(Some(u), fetch(u)).value
  }

  /**
   * The primary attempt plays `resolved || originalUrl`; over the real
   * resolver that is the resolved URL itself, since the resolver turns a
   * non-empty URL into a non-empty one and gives "" back unchanged.
   */
  lemma ResolvedOrOriginal(fetch: string -> Response, url: string)
    ensures var resolved := Resolver(fetch)(url);
            (if resolved != "" then resolved else url) == resolved
  {
    var resolved := Resolve(Some(url), fetch(url));
    assert url != "" ==> resolved.value != "";
  }

  /** Whether the device plays a declared URL once it is resolved. */
  function Playable(resolve: string -> string, accepts: string -> bool): string -> bool
  {
    (u: string) => accepts(resolve(u))
  }

  predicate AnyPlays(urls: seq<string>, resolve: string -> string, accepts: string -> bool)
  {
    exists j :: 0 <= j < |urls| && Playable(resolve, accepts)(urls[j])
  }

  function Differs(url: string): string -> bool
  {
    (u: string) => u != url
  }

  /** `station.streamUrls.filter((s) => s !== originalUrl)`. */
  function Fallbacks(urls: seq<string>): seq<string>
    requires urls != []
  {
    Filter(Differs(urls[0]), urls)
  }

  /** The fallbacks are the declared URLs other than the primary one, in declared order. */
  lemma FallbacksAreOthers(urls: seq<string>, more: seq<string>)
    requires urls != []
    ensures forall u :: u in Fallbacks(urls) <==> u in urls && u != urls[0]
    ensures Fallbacks(urls + more) == Fallbacks(urls) + Filter(Differs(urls[0]), more)
  {
    FilterAppend(Differs(urls[0]), urls, more);
    assert (urls + more)[0] == urls[0];
  }

  /**
   * The declared URLs playStation tries, in order: the primary one, then,
   * if it fails, the fallbacks up to the first one that plays.
   */
  function Attempts(urls: seq<string>, resolve: string -> string, accepts: string -> bool): (r: seq<string>)
    requires urls != []
    ensures r != [] && r[0] == urls[0]
    ensures forall u :: u in r ==> u in urls
    ensures forall j :: 0 <= j < |r| - 1 ==> !Playable(resolve, accepts)(r[j])
    ensures |r| > 1 ==> |r| - 1 <= |Fallbacks(urls)| && r[1..] == Fallbacks(urls)[..|r| - 1]
  {
    var ok := Playable(resolve, accepts);
    if ok(urls[0]) then [urls[0]]
    else
      var others := Fallbacks(urls);
      var k := FindIndex(ok, others);
      var r := [urls[0]] + (if k == -1 then others else others[..k + 1]);
      assert r[1..] == (if k == -1 then others else others[..k + 1]);
      r
  }

  /** The last URL tried plays exactly when some declared URL would. */
  lemma LastAttemptPlays(urls: seq<string>, resolve: string -> string, accepts: string -> bool)
    requires urls != []
    ensures var r := Attempts(urls, resolve, accepts);
            Playable(resolve, accepts)(r[|r| - 1]) <==> AnyPlays(urls, resolve, accepts)
  {
    var ok := Playable(resolve, accepts);
    var r := Attempts(urls, resolve, accepts);
    if !ok(urls[0]) {
      var others := Fallbacks(urls);
      var k := FindIndex(ok, others);
      if k == -1 {
        forall j | 0 <= j < |urls| ensures !ok(urls[j]) {
          if urls[j] != urls[0] {
            assert urls[j] in others;
          }
        }
      } else {
        assert r == [urls[0]] + others[..k + 1];
        assert r[|r| - 1] == others[k] && others[k] in urls;
      }
    }
  }

  /** Attempts when the primary URL and the first `k` fallbacks fail and fallback `k` plays. */
  lemma AttemptsStopAt(urls: seq<string>, resolve: string -> string, accepts: string -> bool, k: nat)
    requires urls != [] && !accepts(resolve(urls[0]))
    requires k < |Fallbacks(urls)| && accepts(resolve(Fallbacks(urls)[k]))
    requires forall j :: 0 <= j < k ==> !accepts(resolve(Fallbacks(urls)[j]))
    ensures Attempts(urls, resolve, accepts) == [urls[0]] + Fallbacks(urls)[..k + 1]
  {
  }

  /** Attempts when every declared URL fails: the primary, then every fallback. */
  lemma AttemptsExhausted(urls: seq<string>, resolve: string -> string, accepts: string -> bool)
    requires urls != [] && !accepts(resolve(urls[0]))
    requires forall j :: 0 <= j < |Fallbacks(urls)| ==> !accepts(resolve(Fallbacks(urls)[j]))
    ensures Attempts(urls, resolve, accepts) == [urls[0]] + Fallbacks(urls)
  {
  }

  /** A signal from the audio device; both make the player move on. */
  datatype DeviceEvent = Ended | Error

  class Player {
    var stations: seq<Station>
    var currentIndex: int
    var isPlaying: bool
    /** `audio.src`. */
    var src: string

    ghost predicate Valid()
      reads this
    {
      if stations == [] then currentIndex == -1 else 0 <= currentIndex < |stations|
    }

    constructor ()
      ensures Valid()
      ensures stations == [] && currentIndex == -1 && !isPlaying && src == ""
    {
      stations, currentIndex, isPlaying, src := [], -1, false, "";
    }

    /** `currentStation`: the station under the cursor, or null. */
    function CurrentStation(): (s: Option<Station>)
      reads this
      requires Valid()
      ensures s.None? <==> stations == []
      ensures s.Some? ==> s.value == stations[currentIndex]
    {
      if currentIndex >= 0 then Some(stations[currentIndex]) else None
    }

    /** Resolves a declared URL, makes it the device's source and asks the device to play. */
    method Play(url: string, resolve: string -> string, accepts: string -> bool) returns (ok: bool)
      modifies this`src
      ensures src == resolve(url) && ok == accepts(src)
    {
      src := resolve(url);
      ok := accepts(src);
    }

    /** The queue and cursor update at the start of playStation. */
    method Select(station: Station, stationList: seq<Station>)
      modifies this`stations, this`currentIndex
      ensures Valid()
      ensures Queue(stations, currentIndex) == Requeue(old(stations), station, stationList)
    {
      if stationList != [] {
        stations := stationList;
        var idx := FindIndex(SameId(station.id), stationList);
        currentIndex := if idx >= 0 then idx else 0;
      } else {
        var idx := FindIndex(SameId(station.id), stations);
        if idx != -1 {
          currentIndex := idx;
        } else {
          stations := [station];
          currentIndex := 0;
        }
      }
    }

    /**
     * `playStation(station, stationList)`. The ghost result lists the
     * declared URLs tried, in order.
     */
    method PlayStation(station: Option<Station>, stationList: seq<Station>,
                       resolve: string -> string, accepts: string -> bool)
        returns (ghost tried: seq<string>)
      requires Valid()
      modifies this
      ensures Valid()
      ensures station.None? || station.value.streamUrls == [] ==> unchanged(this) && tried == []
      ensures station.Some? && station.value.streamUrls != [] ==>
                && Queue(stations, currentIndex) == Requeue(old(stations), station.value, stationList)
                && tried == Attempts(station.value.streamUrls, resolve, accepts)
                && src == resolve(tried[|tried| - 1])
                && isPlaying == accepts(src)
                && (isPlaying <==> AnyPlays(station.value.streamUrls, resolve, accepts))
    {
      if station.None? || station.value.streamUrls == [] {
        tried := [];
        return;
      }
      var s := station.value;
      Select(s, stationList);
      tried := PlayUrls(s.streamUrls, resolve, accepts);
    }

    /**
     * The playing part of playStation: the primary URL, then, when the
     * device refuses it, the fallbacks. The ghost result lists the declared
     * URLs tried, in order.
     */
    method PlayUrls(urls: seq<string>, resolve: string -> string, accepts: string -> bool)
        returns (ghost tried: seq<string>)
      requires urls != []
      modifies this`src, this`isPlaying
      ensures tried == Attempts(urls, resolve, accepts)
      ensures src == resolve(tried[|tried| - 1]) && isPlaying == accepts(src)
      ensures isPlaying <==> AnyPlays(urls, resolve, accepts)
    {
      var played := Play(urls[0], resolve, accepts);
      tried := [urls[0]];
      if played {
        isPlaying := true;
        return;
      }
      isPlaying := false;
      var others := Fallbacks(urls);
      ghost var rest := TryFallbacks(others, resolve, accepts);
      if isPlaying {
        var k := |rest| - 1;
        assert rest[k] == others[k];
        AttemptsStopAt(urls, resolve, accepts, k);
      } else {
        assert rest == others;
        AttemptsExhausted(urls, resolve, accepts);
      }
      tried := tried + rest;
      LastAttemptPlays(urls, resolve, accepts);
    }

    /**
     * The `for (const candidate of others)` loop of playStation: each
     * fallback in turn until one plays. The ghost result lists the
     * fallbacks tried.
     */
    method TryFallbacks(others: seq<string>, resolve: string -> string, accepts: string -> bool)
        returns (ghost tried: seq<string>)
      requires !isPlaying
      modifies this`src, this`isPlaying
      ensures |tried| <= |others| && tried == others[..|tried|]
      ensures forall j :: 0 <= j < |tried| - 1 ==> !accepts(resolve(others[j]))
      ensures isPlaying || tried == others
      ensures tried == [] ==> src == old(src) && !isPlaying
      ensures tried != [] ==> src == resolve(tried[|tried| - 1]) && isPlaying == accepts(src)
    {
      tried := [];
      var k := 0;
      while k < |others|
        invariant 0 <= k <= |others|
        invariant !isPlaying
        invariant tried == others[..k]
        invariant forall j :: 0 <= j < k ==> !accepts(resolve(others[j]))
        invariant tried == [] ==> src == old(src)
        invariant tried != [] ==> src == resolve(tried[|tried| - 1])
      {
        var candidate := others[k];
        var played := Play(candidate, resolve, accepts);
        tried := tried + [candidate];
        if played {
          isPlaying := true;
          assert tried == others[..k + 1];
          return;
        }
        isPlaying := false;
        k := k + 1;
      }
      assert others[..k] == others;
    }

    /**
     * The common tail of playNext and playPrev: the cursor was aimed at
     * `target` and playStation was called on that station with no list.
     */
    twostate predicate SteppedTo(target: nat, tried: seq<string>,
                                 resolve: string -> string, accepts: string -> bool)
      reads this
    {
      && target < |old(stations)|
      && stations == old(stations)
      && currentIndex == Landing(stations, target)
      && var urls := stations[target].streamUrls;
         if urls == [] then tried == [] && isPlaying == old(isPlaying) && src == old(src)
         else
           && tried == Attempts(urls, resolve, accepts)
           && src == resolve(tried[|tried| - 1])
           && (isPlaying <==> AnyPlays(urls, resolve, accepts))
    }

    method StepTo(target: nat, resolve: string -> string, accepts: string -> bool)
        returns (ghost tried: seq<string>)
      requires Valid() && target < |stations|
      modifies this
      ensures Valid() && SteppedTo(target, tried, resolve, accepts)
    {
      var station := stations[target];
      currentIndex := target;
      tried := PlayStation(Some(station), [], resolve, accepts);
    }

    /** `playNext()`: nothing on an empty queue. */
    method PlayNext(resolve: string -> string, accepts: string -> bool) returns (ghost tried: seq<string>)
      requires Valid()
      modifies this
      ensures Valid()
      ensures old(stations) == [] ==> unchanged(this) && tried == []
      ensures old(stations) != [] ==>
                SteppedTo(NextIndex(|old(stations)|, old(currentIndex)), tried, resolve, accepts)
    {
      if stations == [] {
        tried := [];
        return;
      }
      tried := StepTo(NextIndex(|stations|, currentIndex), resolve, accepts);
    }

    /** `playPrev()`: nothing on an empty queue. */
    method PlayPrev(resolve: string -> string, accepts: string -> bool) returns (ghost tried: seq<string>)
      requires Valid()
      modifies this
      ensures Valid()
      ensures old(stations) == [] ==> unchanged(this) && tried == []
      ensures old(stations) != [] ==>
                SteppedTo(PrevIndex(|old(stations)|, old(currentIndex)), tried, resolve, accepts)
    {
      if stations == [] {
        tried := [];
        return;
      }
      tried := StepTo(PrevIndex(|stations|, currentIndex), resolve, accepts);
    }

    /**
     * `playPause()`: nothing without a current station; pauses when
     * playing; otherwise plays the current source again, unresolved.
     */
    method PlayPause(accepts: string -> bool)
      requires Valid()
      modifies this`isPlaying
      ensures CurrentStation().None? ==> isPlaying == old(isPlaying)
      ensures CurrentStation().Some? ==> isPlaying == (!old(isPlaying) && accepts(src))
    {
      if CurrentStation().None? {
        return;
      }
      if isPlaying {
        isPlaying := false;
      } else if accepts(src) {
        isPlaying := true;
      }
    }

    /** The device's `ended` and `error` listeners: both call playNext. */
    method OnDeviceEvent(event: DeviceEvent, resolve: string -> string, accepts: string -> bool)
        returns (ghost tried: seq<string>)
      requires Valid()
      modifies this
      ensures Valid()
      ensures old(stations) == [] ==> unchanged(this) && tried == []
      ensures old(stations) != [] ==>
                SteppedTo(NextIndex(|old(stations)|, old(currentIndex)), tried, resolve, accepts)
    {
      tried := PlayNext(resolve, accepts);
    }
  }

  /**
   * A station whose first URL the device rejects and whose second it
   * accepts ends up playing, and stays the current station.
   */
  method FallbackScenario() returns (playing: bool, current: Option<Station>)
    ensures playing
    ensures current.Some? && current.value.id == Some("bad-then-good")
  {
    var p := new Player();
    var station := Station(Some("bad-then-good"), "Radio", "Colombia",
                           ["http://bad.example/live", "http://good.example/live"], None, "", RadioBrowser);
    var good := "http://good.example/live";
    var resolve := Resolver((u: string) => FetchFailed);
    var accepts := (u: string) => u == good;
    assert Resolve(Some(good), FetchFailed) == Some(good);
    assert resolve(good) == good;
    ghost var tried := p.PlayStation(Some(station), [], resolve, accepts);
    assert Playable(resolve, accepts)(station.streamUrls[1]);
    playing := p.isPlaying;
    current := p.CurrentStation();
  }

  /**
   * When the device rejects every URL, nothing plays, but the cursor stays on
   * the station that was attempted.
   */
  method TotalFailureScenario() returns (playing: bool, current: Option<Station>)
    ensures !playing
    ensures current.Some? && current.value.id == Some("all-bad")
  {
    var p := new Player();
    var station := Station(Some("all-bad"), "Radio", "Colombia",
                           ["http://bad1.example/live", "http://bad2.example/live"], None, "", RadioBrowser);
    var resolve := Resolver((u: string) => FetchFailed);
    var accepts := (u: string) => false;
    ghost var tried := p.PlayStation(Some(station), [], resolve, accepts);
    playing := p.isPlaying;
    current := p.CurrentStation();
  }
}
