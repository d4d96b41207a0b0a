/**
 * The station record shared by the discovery hook and the player, and the
 * two mappers that turn upstream directory records into it: one for
 * RadioBrowser (the primary directory) and one for TuneIn (the secondary
 * directory, consulted only for a country search).
 *
 * An upstream field that may be missing is an `Option<string>`. For the
 * fields the mappers test for truthiness or for being a string (the URL,
 * the logo, the tags), `None` stands for every value that is not a string;
 * for the identifiers, `None` is the `undefined` of a missing field, which
 * is equal to itself when the player compares ids.
 */
module Stations {
  import opened Wrappers
  import opened Seqs

  datatype Source = RadioBrowser | TuneIn

  datatype Station = Station(
    id: Option<string>,
    name: string,
    country: string,
    streamUrls: seq<string>,
    logo: Option<string>,
    tags: string,
    source: Source)

  /** A RadioBrowser station object (`stationuuid`, `name`, `country`,
      `url_resolved`, `favicon`, `tags`). */
  datatype RbRecord = RbRecord(
    stationuuid: Option<string>,
    name: string,
    country: string,
    urlResolved: Option<string>,
    favicon: Option<string>,
    tags: Option<string>)

  /** A TuneIn search entry (`type`, `guide_id`, `text`, `URL`, `image`, `subtext`). */
  datatype TiEntry = TiEntry(
    kind: string,
    guideId: Option<string>,
    text: string,
    url: Option<string>,
    image: Option<string>,
    subtext: Option<string>)

  /** JavaScript truthiness of a string-or-absent value. */
  predicate Truthy(v: Option<string>)
  {
    v.Some? && v.value != ""
  }

  /** `[v].filter(Boolean)`: the value as a one-element list, or nothing when it is falsy. */
  function UrlList(v: Option<string>): (urls: seq<string>)
    ensures |urls| <= 1
    ensures urls == [] <==> !Truthy(v)
    ensures forall u :: u in urls ==> u != "" && v == Some(u)
  {
    if Truthy(v) then [v.value] else []
  }

  /** `v || null`. */
  function OrNull(v: Option<string>): (r: Option<string>)
    ensures r.Some? <==> Truthy(v)
    ensures r.Some? ==> r == v
  {
    if Truthy(v) then v else None
  }

  /** The RadioBrowser mapper: a record without a URL is kept, with no
      stream URLs; every other field is carried over, a falsy favicon
      becoming no logo and non-string tags becoming "". */
  function FromRadioBrowser(r: RbRecord): (s: Station)
    ensures s.id == r.stationuuid && s.source == RadioBrowser
    ensures s.name == r.name && s.country == r.country
    ensures |s.streamUrls| <= 1 && (s.streamUrls == [] <==> !Truthy(r.urlResolved))
    ensures forall u :: u in s.streamUrls ==> u != "" && r.urlResolved == Some(u)
    ensures s.logo.Some? <==> Truthy(r.favicon)
    ensures s.logo.Some? ==> s.logo == r.favicon
    ensures r.tags.Some? ==> s.tags == r.tags.value
    ensures r.tags.None? ==> s.tags == ""
  {
    Station(
      id := r.stationuuid,
      name := r.name,
      country := r.country,
      streamUrls := UrlList(r.urlResolved),
      logo := OrNull(r.favicon),
      tags := match r.tags case Some(t) => t case None => "",
      source := RadioBrowser)
  }

  /** `rb.data.map(...)`: one station per record, in order, none dropped. */
  function FromRadioBrowserAll(records: seq<RbRecord>): (stations: seq<Station>)
    ensures |stations| == |records|
    ensures forall i :: 0 <= i < |records| ==> stations[i] == FromRadioBrowser(records[i])
  {
    seq(|records|, i requires 0 <= i < |records| => FromRadioBrowser(records[i]))
  }

  /** The TuneIn mapper: the station's country is the country that was
      searched for; a falsy image becomes no logo and a falsy subtext "". */
  function FromTuneIn(e: TiEntry, country: string): (s: Station)
    ensures s.id == e.guideId && s.name == e.text && s.country == country && s.source == TuneIn
    ensures |s.streamUrls| <= 1 && (s.streamUrls == [] <==> !Truthy(e.url))
    ensures forall u :: u in s.streamUrls ==> u != "" && e.url == Some(u)
    ensures s.logo.Some? <==> Truthy(e.image)
    ensures s.logo.Some? ==> s.logo == e.image
    ensures Truthy(e.subtext) ==> s.tags == e.subtext.value
    ensures !Truthy(e.subtext) ==> s.tags == ""
  {
    Station(
      id := e.guideId,
      name := e.text,
      country := country,
      streamUrls := UrlList(e.url),
      logo := OrNull(e.image),
      tags := match e.subtext case Some(t) => t case None => "",
      source := TuneIn)
  }

  predicate IsAudio(e: TiEntry)
  {
    e.kind == "audio"
  }

  /** `body.filter((x) => x.type === "audio").map(...)`. */
  function FromTuneInAll(body: seq<TiEntry>, country: string): (stations: seq<Station>)
    ensures |stations| == |Filter(IsAudio, body)|
    ensures forall s :: s in stations ==> s.source == TuneIn && s.country == country
    ensures forall i :: 0 <= i < |stations| ==>
              var e := Filter(IsAudio, body)[i];
              e in body && IsAudio(e) && stations[i] == FromTuneIn(e, country)
  {
    var audios := Filter(IsAudio, body);
    seq(|audios|, i requires 0 <= i < |audios| => FromTuneIn(audios[i], country))
  }
}
