# RadioApp core in Dafny

A verified model of the sequential core of RadioApp, a web radio player:

- **The stream-URL resolver** (`resolveStreamUrl`). A station URL that points at a TuneIn
  redirect (`radiotime.com/tune.ashx`) or at an `.m3u` / `.pls` playlist is fetched. The first
  trimmed payload line that is not blank, not a `#` / `;` comment, and starts with `http://` or
  `https://` is played instead. Every other URL, and every failure, keeps the original URL.
  Module `StreamResolver` (`stream_resolver.dfy`), over the string operations in `Text` (`text.dfy`).
- **The playback engine** of the player context. It holds a queue of stations, a cursor into it
  (-1 for none), `isPlaying` and the audio device's source.
  - `playStation` requeues or moves the cursor. It then plays the first declared URL and, when
    the device refuses it, tries the other declared URLs in order until one plays.
  - `playNext` and `playPrev` step the cursor with wrap-around.
  - `playPause` toggles the device.
  - The device's `ended` / `error` events move to the next station.
  - Module `Player` (`player.dfy`), class `Player.Player`.
- **Station discovery** (`useRadios`). It searches RadioBrowser by country or by name; a country
  search falls back to TuneIn. Results are kept in two append-only caches, `byCountry` and
  `byName`. A pagination cursor reveals a growing prefix of the results, 50 stations per page.
  Module `Discovery` (`discovery.dfy`), class `Discovery.Radios`.
- **The station record** and the two mappers from RadioBrowser records and TuneIn entries.
  Module `Stations` (`stations.dfy`).
- **Support modules.** `Seqs` (`seqs.dfy`) holds JavaScript's `filter`, `find` and `findIndex`
  over sequences. `Wrappers` holds `Option`.

The outside world is passed in as parameters:

- The device is an oracle `accepts(url)`: does `audio.play()` succeed once `url` is the source?
- The network is an oracle `fetch(url)` for the resolver: a payload text or a failure.
- The directories' replies are method arguments.
- The playback methods take the resolver as a function `resolve`. `Player.Resolver(fetch)` is
  `StreamResolver.Resolve` over the network `fetch`, and it is what the scenarios pass. Since
  every playback property is proved for all resolvers, it holds in particular for that one.
- Ghost results record what cannot be observed as a value: the URLs a `playStation` call tried,
  and the requests a search sent.

## Model

| member | source | states |
|---|---|---|
| StreamResolver.Resolve | src/context/PlayerContext.jsx:25-51 | a missing URL comes back unchanged; a URL always yields a URL, and a non-empty one a non-empty one; a URL that needs no resolving, or whose fetch fails, comes back unchanged |
| StreamResolver.NeedsResolve | src/context/PlayerContext.jsx:29-33 | the case-insensitive test: the TuneIn redirect path anywhere, or a `.m3u` / `.pls` ending |
| StreamResolver.PlaylistsNeedResolve | src/context/PlayerContext.jsx:29-33 | any URL ending in `.m3u` or `.pls`, in lower or upper case, needs resolving |
| StreamResolver.IsStreamUrl | src/context/PlayerContext.jsx:45 | `/^https?:\/\//i`: the line starts with `http://` or `https://`, in any case |
| StreamResolver.StreamUrlSchemes | src/context/PlayerContext.jsx:45 | `http://` and `HTTPS://` lines are stream URLs whatever follows; a line whose first letter is not `h` is not one |
| StreamResolver.PlaylistTarget | src/context/PlayerContext.jsx:40-45 | the split / trim / filter / find pipeline over a payload answers the trimmed first qualifying payload line, as the reference definition says |
| StreamResolver.ResolveMatchesReference | src/context/PlayerContext.jsx:29-46 | for a URL that needs resolving and a payload that arrived, the answer is the trimmed first qualifying payload line, or the URL itself when no line qualifies |
| StreamResolver.ResolveIsUrlOrLine | src/context/PlayerContext.jsx:40-46 | the answer is always the input URL or a trimmed payload line that is non-blank, not a comment and an http(s) URL |
| StreamResolver.PipelineIsFirstQualifying | src/context/PlayerContext.jsx:40-45 | the split / trim / filter / find pipeline picks the trimmed form of the first raw line that qualifies after trimming |
| StreamResolver.FirstQualifyingAfter | src/context/PlayerContext.jsx:43-45 | non-qualifying lines put before a qualifying line are skipped, and that line is the one picked |
| StreamResolver.ResolveJoined | src/context/PlayerContext.jsx:37-46 | a payload of lines joined with any mix of `\n` and `\r\n` breaks resolves to the reference definition's line for those lines, or to the URL itself when none qualifies |
| StreamResolver.ResolvesPlaylist | src/context/PlayerContext.jsx:37-46 | a payload whose lines are skipped lines, a stream line, then anything, resolves to the trimmed stream line |
| StreamResolver.ResolvesToOriginal | src/context/PlayerContext.jsx:45-46 | a payload none of whose lines qualifies resolves to the original URL |
| StreamResolver.Trimmed | src/context/PlayerContext.jsx:42 | one trimmed line per line, in order |
| Text.Lower | src/context/PlayerContext.jsx:29 | same length; each character case-folded |
| Text.TrimStart | src/context/PlayerContext.jsx:42 | a suffix of the string that starts with no white space, everything cut off being white space |
| Text.TrimEnd | src/context/PlayerContext.jsx:42 | a prefix of the string that ends with no white space, everything cut off being white space |
| Text.Trim | src/context/PlayerContext.jsx:42 | an infix of the string with only white space removed around it and none left at either end; a string without white space at its ends is unchanged |
| Text.SplitLines | src/context/PlayerContext.jsx:41 | at least one piece; no piece holds a line feed; joining the pieces with the breaks found (`\n` or `\r\n`) gives the text back |
| Text.SplitJoin | src/context/PlayerContext.jsx:41 | splitting lines joined with any mix of `\n` and `\r\n` gives back the lines, when none holds `\n` or ends in `\r` |
| Text.IndexOf | src/context/PlayerContext.jsx:41 | the first position of a character, or none exactly when it does not occur |
| Seqs.Filter | src/context/PlayerContext.jsx:43 | keeps exactly the elements that pass, never more than there were |
| Seqs.FilterAppend | src/context/PlayerContext.jsx:136 | filtering commutes with concatenation, so the kept elements stay in their declared order |
| Seqs.FindIndex | src/context/PlayerContext.jsx:90 | the first index whose element passes, or -1 exactly when none passes |
| Seqs.Find | src/context/PlayerContext.jsx:45 | an element that passes, or none exactly when no element passes |
| Seqs.FindAfterFilter | src/context/PlayerContext.jsx:43-45 | finding after filtering picks the first element that passes both tests |
| Seqs.FindIndexSkips | src/context/PlayerContext.jsx:45 | elements that fail, put in front, only shift the index found |
| Seqs.FindIndexPointwise | src/context/PlayerContext.jsx:43-45 | two searches whose tests agree element by element stop at the same index |
| Player.NextIndex | src/context/PlayerContext.jsx:173 | the next cursor is a valid index, including from -1 |
| Player.PrevIndex | src/context/PlayerContext.jsx:182 | the previous cursor is a valid index, including from -1 |
| Player.PrevUndoesNext | src/context/PlayerContext.jsx:171-186 | stepping back undoes stepping forward, wrap-around included |
| Player.NextUndoesPrev | src/context/PlayerContext.jsx:171-186 | stepping forward undoes stepping back, wrap-around included |
| Player.Requeue | src/context/PlayerContext.jsx:88-100 | a non-empty list replaces the queue and the cursor goes to the first station with the id, else 0; with no list the cursor goes to the first queued station with the id, else the queue becomes that station alone; the cursor is always in range |
| Player.Landing | src/context/PlayerContext.jsx:171-186 | after a step the cursor holds a station with the target's id, at or before the target: the first such station when it has URLs, the target itself when ids are distinct |
| Player.NextThenPrevRestores | src/context/PlayerContext.jsx:171-186 | with distinct ids, playNext then playPrev returns the cursor to where it was |
| Player.PrevThenNextRestores | src/context/PlayerContext.jsx:171-186 | with distinct ids, playPrev then playNext returns the cursor to where it was |
| Player.Fallbacks | src/context/PlayerContext.jsx:136 | the declared URLs other than the primary one |
| Player.FallbacksAreOthers | src/context/PlayerContext.jsx:136 | a URL is a fallback exactly when it is declared and differs from the primary one; the fallbacks keep their declared order |
| Player.Resolver | src/context/PlayerContext.jsx:139-141 | the resolver over a given network, the one the context hands each URL to |
| Player.ResolvedOrOriginal | src/context/PlayerContext.jsx:104-106 | the resolved URL, or else the original one, is the resolved URL itself for every URL, so the primary and the fallbacks are resolved alike |
| Player.Attempts | src/context/PlayerContext.jsx:124-151 | the URLs tried start with the primary, are declared URLs, all but the last fail, and after the primary they are the fallbacks in declared order |
| Player.LastAttemptPlays | src/context/PlayerContext.jsx:129-151 | the last URL tried plays exactly when some declared URL would |
| Player.AttemptsStopAt | src/context/PlayerContext.jsx:137-145 | when fallback k is the first that plays, the primary and the fallbacks up to k are tried |
| Player.AttemptsExhausted | src/context/PlayerContext.jsx:136-151 | when everything fails, the primary and every fallback are tried |
| Player.Player.constructor | src/context/PlayerContext.jsx:15-18 | an empty queue, cursor -1, not playing |
| Player.Player.CurrentStation | src/context/PlayerContext.jsx:22 | no station exactly when the queue is empty; otherwise the station under the cursor |
| Player.Player.Play | src/context/PlayerContext.jsx:121-130 | the device's source becomes the resolved URL, and the result is whether the device plays it |
| Player.Player.Select | src/context/PlayerContext.jsx:88-100 | the queue and cursor become Requeue's, and stay consistent |
| Player.Player.PlayStation | src/context/PlayerContext.jsx:81-155 | no station, or one without URLs, changes nothing; otherwise the queue is requeued, the URLs tried are Attempts, the source is the last one resolved, and the player ends up playing exactly when some declared URL plays; a total failure does not revert the queue |
| Player.Player.PlayUrls | src/context/PlayerContext.jsx:102-152 | plays the primary URL, then the fallbacks; tries exactly Attempts and plays exactly when some URL plays |
| Player.Player.TryFallbacks | src/context/PlayerContext.jsx:136-151 | tries a prefix of the fallbacks in order; all but the last failed; it stops at the first that plays, or tries them all |
| Player.Player.StepTo | src/context/PlayerContext.jsx:171-186 | the queue is unchanged and the cursor lands per Landing; the station there is played as playStation plays it |
| Player.Player.PlayNext | src/context/PlayerContext.jsx:171-177 | nothing on an empty queue; otherwise a step to (i + 1) mod n |
| Player.Player.PlayPrev | src/context/PlayerContext.jsx:180-186 | nothing on an empty queue; otherwise a step to (i - 1 + n) mod n |
| Player.Player.PlayPause | src/context/PlayerContext.jsx:158-168 | nothing without a current station; otherwise pauses when playing, and plays the same source, unresolved, when the device accepts it |
| Player.Player.OnDeviceEvent | src/context/PlayerContext.jsx:62-69 | `ended` and `error` both behave as playNext |
| Player.FallbackScenario | src/context/PlayerContext.jsx:124-151 | a station whose first URL fails and whose second plays ends up playing, and stays current |
| Player.TotalFailureScenario | src/context/PlayerContext.jsx:131-151 | when every URL fails nothing plays, and the station stays current |
| Stations.UrlList | src/hooks/useStations.js:62 | at most one URL; none exactly when the value is falsy |
| Stations.OrNull | src/hooks/useStations.js:63 | present exactly when the value is truthy, and then the same value |
| Stations.FromRadioBrowser | src/hooks/useStations.js:58-66 | id, name and country carried over, source RadioBrowser; at most one URL, none exactly when url_resolved is falsy and otherwise url_resolved; the logo is the favicon when it is truthy and null otherwise; string tags kept as they are, other tags "" |
| Stations.FromRadioBrowserAll | src/hooks/useStations.js:57-66 | one station per record, in order; records without a URL are kept |
| Stations.FromTuneIn | src/hooks/useStations.js:82-90 | id is guide_id and name is text, the country is the one searched for, source TuneIn; at most one URL, none exactly when URL is falsy and otherwise URL; the logo is the image when it is truthy and null otherwise; tags the subtext when it is truthy, else "" |
| Stations.FromTuneInAll | src/hooks/useStations.js:79-91 | one station per audio entry, in order, each stamped with the searched country |
| Discovery.JsSlice | src/hooks/useStations.js:117 | a slice clamped to the length: empty from past the end, otherwise the elements from `start` on, up to `end` |
| Discovery.Shown | src/hooks/useStations.js:41 | the first min(page x 50, L) results, a prefix of the list |
| Discovery.FirstPage | src/hooks/useStations.js:105 | `slice(0, PAGE_SIZE)` shows exactly one page |
| Discovery.ShownGrows | src/hooks/useStations.js:110-122 | appending the next page's slice to the shown prefix shows one page more |
| Discovery.HasMoreIffHidden | src/hooks/useStations.js:121 | `hasMore` after p pages is exactly "some result is still hidden" |
| Discovery.PrimaryResults | src/hooks/useStations.js:51-70 | a list reply maps one station per record; a failure or any other body yields nothing |
| Discovery.SecondaryResults | src/hooks/useStations.js:72-95 | an error exactly when TuneIn failed, never an empty message ("Error en TuneIn" stands in); a body list gives exactly its audio entries mapped in order, stamped with the searched country; no body gives nothing |
| Discovery.CountryResults | src/hooks/useStations.js:47-95 | RadioBrowser's stations when it found any, TuneIn's outcome otherwise; an error only with no stations |
| Discovery.CountryRequests | src/hooks/useStations.js:51-79 | RadioBrowser is asked first, and TuneIn exactly when RadioBrowser found nothing |
| Discovery.NoMatchMessage | src/hooks/useStations.js:170 | the message quotes the name searched for |
| Discovery.Radios.constructor | src/hooks/useStations.js:11-27 | empty list, no error, empty caches, pagination on no query at page 0 |
| Discovery.Radios.ShowFirstPage | src/hooks/useStations.js:99-106 | the cursor is on page one of the results, the list shows that page, `hasMore` is L > 50 |
| Discovery.Radios.FetchByCountry | src/hooks/useStations.js:29-108 | a cached country, even one cached empty, is served with no request; otherwise the outcome, even empty, is cached; either way the first page is shown |
| Discovery.Radios.FetchByName | src/hooks/useStations.js:124-187 | a cached name is served with no request; no results empties the list, reports the name, and caches nothing and leaves the pagination alone; results are cached and their first page shown |
| Discovery.Radios.FetchMore | src/hooks/useStations.js:110-122 | nothing without results; otherwise appends the next page's slice and advances the page even past the end; preserves "the list is the first pages of the results" |
| Discovery.Radios.ClearRadios | src/hooks/useStations.js:207-210 | empties the list and the error; caches and pagination stay |
| Discovery.PagingScenario | src/hooks/useStations.js:110-122 | 120 results show 50, 100, 120, then 120, with `hasMore` true, true, false, false |
| Discovery.CacheScenario | src/hooks/useStations.js:33-45 | a second search for the same country sends nothing and shows the same list, whatever the directories would answer |

## Left out

- Network I/O (`fetch`, `axios.get`, its 12 s timeout, `encodeURIComponent`): replies are parameters and oracles.
- Oracles are deterministic per URL: the same URL always resolves and plays the same way within one call.
- The `Audio` element itself: `load`, the promise plumbing and volume. The device is the `accepts` oracle.
- React machinery (`useState`, `useCallback`, `useEffect`, refs, re-renders) and overlapping asynchronous calls: every operation is one atomic step.
- The `loading` flag: it is false between operations.
- The default argument `country = "Colombia"`: every caller passes a country.
- `expanded`, toasts, console logging, the components and pages, and `src/hooks/useAudioPlayer.js`: rendering and a thin device wrapper.
- `setStations`, which the context exports: no component calls it.
- Case folding is ASCII only, both `toLowerCase` and the `i` flag of `/^https?:\/\//i`.
- The resolver's argument is an `Option` whose `None` is a missing or non-string URL, handed back as it is. Record fields are optional as follows. `url_resolved`, `favicon`, `tags`, `URL`, `image` and `subtext` are `Option`s whose `None` is any non-string value; a non-string truthy URL, which `[v].filter(Boolean)` would keep, is left out. `stationuuid` and `guide_id` are `Option`s whose `None` is a missing field, so two stations without an id match each other as `undefined === undefined` does; a `null` id, which would not match a missing one, is left out. `name`, `country`, `text` and `type` are strings: they are only copied or compared with `"audio"`, and a missing one is left out.
- Bodies that make the source throw are passed as the failure they turn into, which the model then handles as the source's `catch` does. A `null` record in a RadioBrowser list throws inside the `map`; the `catch` of `useStations.js:68` drops the whole stage, so it is a `Failed` RadioBrowser reply, and TuneIn is asked. A truthy TuneIn body that is not a list, or a `null` entry in one, throws at `useStations.js:80` and sets `error` to the exception's message (`useStations.js:93`), so it is `Failed(message)`. A `fetch` or `res.text()` that throws in the resolver is `FetchFailed`, which gives back the original URL.
- Station lists handed to the player hold stations only: a `null` entry, on which `findIndex` would throw, is left out.
- The cache lookup by plain-object key is modelled as map membership. Inherited keys such as `"constructor"` are not modelled.
- `fetchMoreByName` is the same code as `fetchMoreByCountry`: both are `Discovery.Radios.FetchMore`.
- Player.Player.PlayStation, Player.Player.PlayNext, Player.Player.PlayPrev: the resolver is a parameter (`resolve`). That `Player.Resolver(fetch)` is the resolver used is a convention of the callers, not part of these contracts.
- Discovery.Radios.FetchByName: "the list is the first pages of the results" is not kept by a name search that finds nothing. That search empties the list but keeps the pagination, so a later FetchMore appends a middle slice. This is the source's behaviour. ClearRadios breaks it the same way.
