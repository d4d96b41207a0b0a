/**
 * The player's stream-URL resolver (`resolveStreamUrl`). A URL that points
 * at a TuneIn redirect or at an `.m3u` / `.pls` playlist is fetched and the
 * first absolute HTTP(S) line of the payload is played instead; every other
 * URL, and every failure, leaves the original URL in place.
 *
 * The fetch is not performed here: its outcome is the `response` argument,
 * consulted only when the URL needs resolving.
 */
module StreamResolver {
  import opened Wrappers
  import opened Text
  import opened Seqs

  /** What `fetch(url)` followed by `res.text()` produced. */
  datatype Response = FetchFailed | Payload(text: string)

  /** The case-insensitive test that decides whether a URL is an indirection. */
  predicate NeedsResolve(url: string)
  {
    var lower := Lower(url);
    Contains(lower, "radiotime.com/tune.ashx") || EndsWith(lower, ".m3u") || EndsWith(lower, ".pls")
  }

  /** Playlist URLs need resolving whatever the case of their extension. */
  lemma PlaylistsNeedResolve(stem: string)
    ensures NeedsResolve(stem + ".m3u") && NeedsResolve(stem + ".M3U")
    ensures NeedsResolve(stem + ".pls") && NeedsResolve(stem + ".PLS")
  {
    var lm, lp := Lower(".M3U"), Lower(".pls");
    assert lm == Lower(".m3u") == ".m3u";
    assert lp == Lower(".PLS") == ".pls";
    forall e | e in [".m3u", ".M3U", ".pls", ".PLS"] ensures EndsWith(Lower(stem + e), Lower(e)) {
      LowerAppend(stem, e);
      EndsWithAppend(Lower(stem), Lower(e));
    }
  }

  predicate IsComment(line: string)
  {
    StartsWith(line, "#") || StartsWith(line, ";")
  }

  /** The filter's test on a trimmed line: not blank and not a comment. */
  predicate IsEntry(line: string)
  {
    line != "" && !IsComment(line)
  }

  /** `/^https?:\/\//i`. */
  predicate IsStreamUrl(line: string)
  {
    StartsWith(Lower(line), "http://") || StartsWith(Lower(line), "https://")
  }

  /** Both schemes are accepted in any case; a line whose first letter is
      not `h` or `H` (a relative path, a file name) is not a stream URL. */
  lemma StreamUrlSchemes(rest: string, line: string)
    ensures IsStreamUrl("http://" + rest) && IsStreamUrl("HTTPS://" + rest)
    ensures line != [] && LowerChar(line[0]) != 'h' ==> !IsStreamUrl(line)
  {
    assert ("http://" + rest)[..7] == "http://";
    assert ("HTTPS://" + rest)[..8] == "HTTPS://";
    assert Lower("HTTPS://") == "https://";
  }

  /** `.map((l) => l.trim())`. */
  function Trimmed(lines: seq<string>): (r: seq<string>)
    ensures |r| == |lines|
    ensures forall i :: 0 <= i < |lines| ==> r[i] == Trim(lines[i])
  {
    seq(|lines|, i requires 0 <= i < |lines| => Trim(lines[i]))
  }

  /** The split / trim / filter / find pipeline over a playlist payload:
      the trimmed form of the payload's first qualifying line. */
  function PlaylistTarget(text: string): (r: Option<string>)
    ensures r == FirstQualifying(SplitLines(text))
  {
    PipelineIsFirstQualifying(SplitLines(text));
    Find(IsStreamUrl, Filter(IsEntry, Trimmed(SplitLines(text))))
  }

  /** A raw payload line that the pipeline would pick: once trimmed, it is
      not blank, not a comment, and an absolute HTTP(S) URL. */
  predicate Qualifies(raw: string)
  {
    IsEntry(Trim(raw)) && IsStreamUrl(Trim(raw))
  }

  /** Reference definition of the pipeline: the trimmed form of the first
      qualifying raw line. */
  function FirstQualifying(raw: seq<string>): Option<string>
  {
    var k := FindIndex(Qualifies, raw);
    if k == -1 then None else Some(Trim(raw[k]))
  }

  /** The pipeline agrees with the reference definition on every list of lines. */
  lemma PipelineIsFirstQualifying(raw: seq<string>)
    ensures Find(IsStreamUrl, Filter(IsEntry, Trimmed(raw))) == FirstQualifying(raw)
  {
    var t := Trimmed(raw);
    FindAfterFilter(IsEntry, IsStreamUrl, t);
    FindIndexPointwise(Both(IsEntry, IsStreamUrl), t, Qualifies, raw);
  }

  /**
   * `resolveStreamUrl(url)`. `None` stands for a missing or non-string
   * argument, which is handed back as it is.
   */
  function Resolve(url: Option<string>, response: Response): (r: Option<string>)
    ensures url.None? ==> r == url
    ensures url.Some? ==> r.Some?
    ensures url.Some? && url.value != "" ==> r.value != ""
    ensures url.Some? && !NeedsResolve(url.value) ==> r == url
    ensures response.FetchFailed? ==> r == url
  {
    match url
    case None => url
    case Some(u) =>
      if u == "" || !NeedsResolve(u) then url
      else match response
        case FetchFailed => url
        case Payload(text) =>
          match PlaylistTarget(text)
          case Some(line) => Some(line)
          case None => url
  }

  /**
   * For a URL that needs resolving and a payload that arrived, the resolver
   * answers with the reference definition's line, or with the URL itself
   * when no line qualifies.
   */
  lemma ResolveMatchesReference(url: string, text: string)
    requires url != "" && NeedsResolve(url)
    ensures Resolve(Some(url), Payload(text)) ==
              match FirstQualifying(SplitLines(text))
              case Some(line) => Some(line)
              case None => Some(url)
  {
  }

  /** The answer is always the URL itself or one trimmed, non-comment
      stream line of the payload. */
  lemma ResolveIsUrlOrLine(url: Option<string>, response: Response)
    ensures var r := Resolve(url, response);
            r == url || (response.Payload? && r.Some?
                         && r.value in Trimmed(SplitLines(response.text))
                         && IsEntry(r.value) && IsStreamUrl(r.value))
  {
  }

  /** A payload of lines joined with `\n` or `\r\n` resolves as the reference
      definition says of those lines. */
  lemma ResolveJoined(url: string, lines: seq<string>, breaks: seq<bool>)
    requires NeedsResolve(url) && url != ""
    requires lines != [] && forall l :: l in lines ==> IsLine(l)
    requires |breaks| == |lines| - 1
    ensures FirstQualifying(lines).Some? ==> Resolve(Some(url), Payload(JoinLines(lines, breaks))) == FirstQualifying(lines)
    ensures FirstQualifying(lines).None? ==> Resolve(Some(url), Payload(JoinLines(lines, breaks))) == Some(url)
  {
    SplitJoin(lines, breaks);
    ResolveMatchesReference(url, JoinLines(lines, breaks));
  }

  /**
   * A playlist payload whose lines are lines that do not qualify (blank
   * lines, comments, relative entries), then a stream line, then anything,
   * resolves to the trimmed stream line.
   */
  lemma ResolvesPlaylist(url: string, text: string, before: seq<string>, line: string, after: seq<string>)
    requires NeedsResolve(url) && url != ""
    requires SplitLines(text) == before + [line] + after
    requires forall j :: 0 <= j < |before| ==> !Qualifies(before[j])
    requires Qualifies(line)
    ensures Resolve(Some(url), Payload(text)) == Some(Trim(line))
  {
    ResolveMatchesReference(url, text);
    FirstQualifyingAfter(before, line, after);
  }

  /** Lines that do not qualify, put in front of a qualifying one, are skipped. */
  lemma FirstQualifyingAfter(before: seq<string>, line: string, after: seq<string>)
    requires forall j :: 0 <= j < |before| ==> !Qualifies(before[j])
    requires Qualifies(line)
    ensures FirstQualifying(before + [line] + after) == Some(Trim(line))
  {
    var lines := before + [line] + after;
    assert lines == before + ([line] + after);
    FindIndexSkips(Qualifies, before, [line] + after);
    assert FindIndex(Qualifies, [line] + after) == 0;
    assert lines[|before|] == line;
  }

  /** A payload none of whose lines qualifies leaves the URL unchanged. */
  lemma ResolvesToOriginal(url: string, text: string)
    requires NeedsResolve(url) && url != ""
    requires forall l :: l in SplitLines(text) ==> !Qualifies(l)
    ensures Resolve(Some(url), Payload(text)) == Some(url)
  {
    ResolveMatchesReference(url, text);
    var lines := SplitLines(text);
    assert forall j :: 0 <= j < |lines| ==> lines[j] in lines;
  }
}
