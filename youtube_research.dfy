/** The YouTube research service: scanning a channel's video list,
  * turning subtitles into plain text, and the research run that summarises
  * each selected video and then analyses them together. yt-dlp, the
  * language model and the clock are parameters. */
module YoutubeResearch {
  import opened Common
  import opened Research

  // ---------------------------------------------------------------------
  // Channel scanning
  // ---------------------------------------------------------------------

  /** `s.rstrip("/")` */
  function TrimSlashes(s: string): (r: string)
    ensures |r| <= |s| && r == s[..|r|]
    ensures forall k :: |r| <= k < |s| ==> s[k] == '/'
    ensures r == [] || r[|r| - 1] != '/'
  {
    if s != [] && s[|s| - 1] == '/' then TrimSlashes(s[..|s| - 1]) else s
  }

  /** The URL handed to yt-dlp: trailing slashes removed and "/videos"
    * appended unless the URL already ends with it. */
  function NormalizeChannelUrl(url: string): (r: string)
    ensures EndsWith(r, "/videos")
    ensures r == TrimSlashes(url) || r == TrimSlashes(url) + "/videos"
    ensures EndsWith(TrimSlashes(url), "/videos") ==> r == TrimSlashes(url)
  {
    var clean := TrimSlashes(url);
    if EndsWith(clean, "/videos") then clean else clean + "/videos"
  }

  /** Normalising a normalised URL changes nothing. */
  lemma NormalizeIdempotent(url: string)
    ensures NormalizeChannelUrl(NormalizeChannelUrl(url)) == NormalizeChannelUrl(url)
  {
    var n := NormalizeChannelUrl(url);
    assert n[|n| - 1] == "/videos"[6];
    assert TrimSlashes(n) == n;
  }

  /** What a finished yt-dlp process reports. */
  datatype Process = Process(exitCode: int, stdout: string, stderr: string)

  /** One line of `--dump-json` output: the fields the scan reads, `None`
    * where the key is absent; `thumbnails` holds each thumbnail's "url". */
  datatype Entry = Entry(channel: Option<string>, playlistChannel: Option<string>,
                         playlistUploader: Option<string>, uploader: Option<string>,
                         id: Option<string>, title: Option<string>, duration: Option<int>,
                         thumbnails: seq<Option<string>>, viewCount: Option<int>,
                         uploadDate: Option<string>)

  datatype Video = Video(videoId: string, title: string, duration: Option<int>,
                         thumbnail: Option<string>, viewCount: Option<int>, uploadDate: Option<string>)

  datatype Channel = Channel(channelName: string, channelUrl: string, videos: seq<Video>)

  /** `a or b or … or default` over optional texts: the first one present
    * and not empty. */
  function FirstGiven(xs: seq<Option<string>>, default: string): (r: string)
    ensures (forall k :: 0 <= k < |xs| ==> !Given(xs[k])) ==> r == default
    ensures forall k :: 0 <= k < |xs| && Given(xs[k]) && (forall j :: 0 <= j < k ==> !Given(xs[j])) ==> r == xs[k].value
  {
    if xs == [] then default
    else if Given(xs[0]) then xs[0].value
    else
      FirstGiven(xs[1..], default)
  }

  /** The channel name an entry offers. */
  function ChannelOf(e: Entry): (r: string)
    ensures r != ""
  {
    FirstGiven([e.channel, e.playlistChannel, e.playlistUploader, e.uploader], "Unknown")
  }

  function GetOr(x: Option<string>, default: string): string
  {
    if x.Some? then x.value else default
  }

  /** The video record of an entry. */
  function VideoOf(e: Entry): (r: Video)
    ensures r.thumbnail.Some? ==> e.thumbnails != [] && r.thumbnail == e.thumbnails[|e.thumbnails| - 1]
    ensures e.thumbnails != [] ==> r.thumbnail == e.thumbnails[|e.thumbnails| - 1]
    ensures r.videoId == GetOr(e.id, "") && r.title == GetOr(e.title, "Untitled")
    ensures r.duration == e.duration && r.viewCount == e.viewCount && r.uploadDate == e.uploadDate
  {
    Video(GetOr(e.id, ""), GetOr(e.title, "Untitled"), e.duration,
          if e.thumbnails == [] then None else e.thumbnails[|e.thumbnails| - 1],
          e.viewCount, e.uploadDate)
  }

  /** One video per entry, in order. */
  function VideosOf(entries: seq<Entry>): (r: seq<Video>)
    ensures |r| == |entries|
    ensures forall k :: 0 <= k < |r| ==> r[k] == VideoOf(entries[k])
  {
    if entries == [] then [] else VideosOf(entries[..|entries| - 1]) + [VideoOf(entries[|entries| - 1])]
  }

  /** The name the scan keeps: that of the first entry, or "" before any. */
  function FirstChannel(entries: seq<Entry>): (r: string)
    ensures r == "" <==> entries == []
  {
    if entries == [] then "" else ChannelOf(entries[0])
  }

  /** One more entry adds its video, and names the channel if it is the
    * first. */
  lemma ScanStep(before: seq<Entry>, e: Entry)
    ensures VideosOf(before + [e]) == VideosOf(before) + [VideoOf(e)]
    ensures FirstChannel(before + [e]) == if before == [] then ChannelOf(e) else FirstChannel(before)
  {
    assert (before + [e])[..|before|] == before;
    if before != [] {
      assert (before + [e])[0] == before[0];
    }
  }

  /** The entries of yt-dlp's output: blank lines and lines that are not
    * JSON are skipped. */
  function EntriesOf(p: Process, parse: string -> Option<Entry>): seq<Entry>
  {
    ParseJsonl(Split(Strip(p.stdout), '\n'), parse)
  }

  /** `scan_channel`: a failed yt-dlp run is an error; otherwise the
    * channel's name from the first entry ("Unknown Channel" when no line
    * parsed), the URL as given, and one video per parsed line. */
  method ScanChannel(url: string, run: string -> Process, parse: string -> Option<Entry>)
    returns (r: Result<Channel>)
    ensures var p := run(NormalizeChannelUrl(url));
      && (p.exitCode != 0 ==> r == Err("yt-dlp failed: " + Strip(p.stderr)))
      && (p.exitCode == 0 ==>
            var entries := EntriesOf(p, parse);
            && r.Ok?
            && r.value.channelUrl == url
            && r.value.videos == VideosOf(entries)
            && r.value.channelName == (if entries == [] then "Unknown Channel" else ChannelOf(entries[0])))
  {
    var p := run(NormalizeChannelUrl(url));
    if p.exitCode != 0 {
      return Err("yt-dlp failed: " + Strip(p.stderr));
    }
    var name, videos := ScanLines(Split(Strip(p.stdout), '\n'), parse);
    if name == "" {
      name := "Unknown Channel";
    }
    return Ok(Channel(name, url, videos));
  }

  /** The line loop of `scan_channel`: the name is set by the first entry
    * and every entry adds its video. */
  method ScanLines(lines: seq<string>, parse: string -> Option<Entry>) returns (name: string, videos: seq<Video>)
    ensures videos == VideosOf(ParseJsonl(lines, parse))
    ensures name == FirstChannel(ParseJsonl(lines, parse))
  {
    videos := [];
    name := "";
    for i := 0 to |lines|
      invariant videos == VideosOf(ParseJsonl(lines[..i], parse))
      invariant name == FirstChannel(ParseJsonl(lines[..i], parse))
    {
      ParseJsonlStep(lines, i, parse);
      name, videos := ScanLine(lines[i], parse, ParseJsonl(lines[..i], parse), name, videos);
    }
    assert lines[..|lines|] == lines;
  }

  /** One line of the loop: a blank line or one that is not JSON changes
    * nothing; an entry adds its video, and names the channel if it is the
    * first. */
  method ScanLine(line: string, parse: string -> Option<Entry>, ghost before: seq<Entry>,
                  name: string, videos: seq<Video>)
    returns (name': string, videos': seq<Video>)
    requires videos == VideosOf(before) && name == FirstChannel(before)
    ensures var after := before + (if Strip(line) != "" && parse(line).Some? then [parse(line).value] else []);
            videos' == VideosOf(after) && name' == FirstChannel(after)
  {
    name', videos' := name, videos;
    if Strip(line) != "" {
      var e := parse(line);
      if e.Some? {
        ScanStep(before, e.value);
        if name == "" {
          name' := ChannelOf(e.value);
        }
        videos' := videos + [VideoOf(e.value)];
      }
    }
    assert before + [] == before;
  }

  // ---------------------------------------------------------------------
  // Subtitles to plain text
  // ---------------------------------------------------------------------

  /** `re.sub(r"<[^>]+>", "", s)`: a `<`, at least one character other than
    * `>`, and the next `>` are removed, scanning left to right. A `<` with
    * no `>` after it, or directly followed by one, stays. */
  function RemoveTags(s: string): (r: string)
    ensures |r| <= |s|
  {
    if s == [] then []
    else if s[0] == '<' && Find(s[1..], '>') > 0 then
      RemoveTags(s[Find(s[1..], '>') + 2..])
    else [s[0]] + RemoveTags(s[1..])
  }

  /** A tag is removed with its brackets, and the text after it is treated
    * the same way. */
  lemma TagRemoved(tag: string, rest: string)
    requires tag != [] && '>' !in tag
    ensures RemoveTags("<" + tag + ">" + rest) == RemoveTags(rest)
  {
    var s := "<" + tag + ">" + rest;
    assert s[1..] == tag + ">" + rest;
    assert s[1..][|tag|] == '>';
    assert forall k :: 0 <= k < |tag| ==> s[1..][k] == tag[k];
    assert Find(s[1..], '>') == |tag|;
    assert s[|tag| + 2..] == rest;
  }

  /** Text without a `<` is kept as it is, and the text after it is
    * treated the same way. */
  lemma {:induction false} PlainKept(t: string, rest: string)
    requires '<' !in t
    ensures RemoveTags(t + rest) == t + RemoveTags(rest)
  {
    if t != [] {
      assert t + rest == [t[0]] + (t[1..] + rest);
      PlainCharKept(t[0], t[1..] + rest);
      PlainKept(t[1..], rest);
      assert [t[0]] + (t[1..] + RemoveTags(rest)) == t + RemoveTags(rest);
    } else {
      assert t + rest == rest;
    }
  }

  /** A character other than `<` is kept. */
  lemma PlainCharKept(c: char, rest: string)
    requires c != '<'
    ensures RemoveTags([c] + rest) == [c] + RemoveTags(rest)
  {
    assert ([c] + rest)[1..] == rest;
  }

  /** A line without a `<`, or without a `>`, holds no tag and is kept
    * as it is. */
  lemma {:induction false} NoTagKept(s: string)
    ensures '<' !in s || '>' !in s ==> RemoveTags(s) == s
  {
    if s != [] && ('<' !in s || '>' !in s) {
      assert '<' !in s[1..] || '>' !in s[1..];
      NoTagKept(s[1..]);
      if s[0] == '<' {
        assert '>' !in s[1..];
      }
      assert RemoveTags(s) == [s[0]] + RemoveTags(s[1..]);
    }
  }

  /** A `<` that opens no tag (no `>` follows it, or one follows at once)
    * is kept, and the text after it is treated the same way. */
  lemma UnmatchedKept(rest: string)
    requires '>' !in rest || rest[0] == '>'
    ensures RemoveTags("<" + rest) == "<" + RemoveTags(rest)
  {
    assert ("<" + rest)[1..] == rest;
  }

  /** `re.match(r"\d{2}:\d{2}:\d{2}\.\d{3}\s*-->", line)`: a cue timing at
    * the start of the line. */
  predicate IsCueTiming(line: string)
  {
    && |line| >= 12
    && IsDigit(line[0]) && IsDigit(line[1]) && line[2] == ':'
    && IsDigit(line[3]) && IsDigit(line[4]) && line[5] == ':'
    && IsDigit(line[6]) && IsDigit(line[7]) && line[8] == '.'
    && IsDigit(line[9]) && IsDigit(line[10]) && IsDigit(line[11])
    && StartsWith(line[SkipSpace(line, 12)..], "-->")
  }

  /** The header lines of a WebVTT file. */
  predicate IsHeader(line: string)
  {
    StartsWith(line, "WEBVTT") || StartsWith(line, "Kind:") || StartsWith(line, "Language:")
  }

  /** What one subtitle line contributes: nothing for a header, a cue
    * timing or a blank line; otherwise the line without its tags,
    * stripped, unless that is empty. */
  function CleanLine(line: string): (r: Option<string>)
    ensures r.Some? ==> r.value != "" && IsStripped(r.value)
    ensures r.Some? ==> !IsHeader(line) && !IsCueTiming(line) && Strip(line) != ""
    ensures '<' !in line ==> r == (if IsHeader(line) || IsCueTiming(line) || Strip(line) == "" then None else Some(Strip(line)))
    ensures r.Some? ==> r.value == Strip(RemoveTags(line))
    ensures r.None? <==> IsHeader(line) || IsCueTiming(line) || Strip(line) == "" || Strip(RemoveTags(line)) == ""
  {
    if IsHeader(line) || IsCueTiming(line) || Strip(line) == "" then None
    else
      NoTagKept(line);
      var clean := Strip(RemoveTags(line));
      if clean == "" then None else Some(clean)
  }

  /** The cleaned texts of the lines, in order. */
  function Candidates(lines: seq<string>): seq<string>
  {
    if lines == [] then []
    else
      var n := |lines| - 1;
      var c := CleanLine(lines[n]);
      Candidates(lines[..n]) + (if c.Some? then [c.value] else [])
  }

  /** Every candidate is the cleaned text of some line. */
  lemma {:induction false} CandidateSource(lines: seq<string>, x: string) returns (k: nat)
    requires x in Candidates(lines)
    ensures k < |lines| && CleanLine(lines[k]) == Some(x)
  {
    var n := |lines| - 1;
    var c := CleanLine(lines[n]);
    if c.Some? && x == c.value {
      k := n;
    } else {
      k := CandidateSource(lines[..n], x);
      assert lines[..n][k] == lines[k];
    }
  }

  /** Every line that cleans to a text contributes it. */
  lemma {:induction false} CandidateComplete(lines: seq<string>, k: nat)
    requires k < |lines| && CleanLine(lines[k]).Some?
    ensures CleanLine(lines[k]).value in Candidates(lines)
  {
    var n := |lines| - 1;
    if k < n {
      assert lines[..n][k] == lines[k];
      CandidateComplete(lines[..n], k);
    }
  }

  /** The position of the first occurrence of `x`. */
  function FirstIndex(xs: seq<string>, x: string): (i: nat)
    requires x in xs
    ensures i < |xs| && xs[i] == x
    ensures forall j :: 0 <= j < i ==> xs[j] != x
  {
    if xs[0] == x then 0 else 1 + FirstIndex(xs[1..], x)
  }

  lemma {:induction false} FirstIndexSnoc(xs: seq<string>, y: string, x: string)
    requires x in xs
    ensures FirstIndex(xs + [y], x) == FirstIndex(xs, x)
  {
    var i := FirstIndex(xs, x);
    var k := FirstIndex(xs + [y], x);
    assert (xs + [y])[i] == x;
    assert k <= i;
    assert xs[k] == x;
  }

  /** Each text kept once, at its first occurrence: no repeats, the same
    * texts, in the order they first appear. */
  function Distinct(xs: seq<string>): (r: seq<string>)
    ensures forall i, j :: 0 <= i < j < |r| ==> r[i] != r[j]
    ensures forall x :: x in r <==> x in xs
    ensures forall i, j :: 0 <= i < j < |r| ==> FirstIndex(xs, r[i]) < FirstIndex(xs, r[j])
  {
    if xs == [] then []
    else
      var n := |xs| - 1;
      var init := xs[..n];
      var d := Distinct(init);
      assert xs == init + [xs[n]];
      forall x | x in init
        ensures FirstIndex(xs, x) == FirstIndex(init, x)
      {
        FirstIndexSnoc(init, xs[n], x);
      }
      if xs[n] in d then d
      else
        assert FirstIndex(xs, xs[n]) == n;
        d + [xs[n]]
  }

  /** `_vtt_to_plain_text`: the distinct cleaned lines joined by spaces,
    * kept with a `seen` set. */
  method VttToPlainText(vtt: string) returns (text: string)
    ensures text == Join(Distinct(Candidates(Split(vtt, '\n'))), " ")
  {
    var all := Split(vtt, '\n');
    var lines: seq<string> := [];
    var seen: set<string> := {};
    for i := 0 to |all|
      invariant lines == Distinct(Candidates(all[..i]))
      invariant forall x :: x in seen <==> x in lines
    {
      var cs := Candidates(all[..i]);
      assert all[..i + 1][..i] == all[..i];
      var c := CleanLine(all[i]);
      if c.Some? {
        assert Candidates(all[..i + 1]) == cs + [c.value];
        assert (cs + [c.value])[..|cs|] == cs;
        if c.value !in seen {
          seen := seen + {c.value};
          lines := lines + [c.value];
        }
      } else {
        assert Candidates(all[..i + 1]) == cs;
      }
    }
    assert all[..|all|] == all;
    text := Join(lines, " ");
  }

  /** The plain text's lines are non-empty, stripped and distinct, and are
    * exactly the cleaned texts of the subtitle lines. */
  lemma PlainTextLines(vtt: string)
    ensures var lines := Split(vtt, '\n');
      var out := Distinct(Candidates(lines));
      && (forall i, j :: 0 <= i < j < |out| ==> out[i] != out[j])
      && (forall x :: x in out ==> x != "" && IsStripped(x) && '\n' !in x)
      && (forall k :: 0 <= k < |lines| && CleanLine(lines[k]).Some? ==> CleanLine(lines[k]).value in out)
  {
    var lines := Split(vtt, '\n');
    var out := Distinct(Candidates(lines));
    forall x | x in out
      ensures x != "" && IsStripped(x) && '\n' !in x
    {
      var k := CandidateSource(lines, x);
      CleanNoBreak(lines[k]);
    }
    forall k | 0 <= k < |lines| && CleanLine(lines[k]).Some?
      ensures CleanLine(lines[k]).value in out
    {
      CandidateComplete(lines, k);
    }
  }

  /** A cleaned line has no line break when the line has none. */
  lemma CleanNoBreak(line: string)
    requires '\n' !in line
    ensures CleanLine(line).Some? ==> '\n' !in CleanLine(line).value
  {
    RemoveTagsSub(line);
    var t := RemoveTags(line);
    if CleanLine(line).Some? {
      var i := StripSlice(t);
    }
  }

  /** Removing tags keeps only characters of the text. */
  lemma {:induction false} RemoveTagsSub(s: string)
    ensures forall c :: c in RemoveTags(s) ==> c in s
  {
    if s != [] {
      if s[0] == '<' && Find(s[1..], '>') > 0 {
        var j := Find(s[1..], '>');
        RemoveTagsSub(s[j + 2..]);
        assert forall c :: c in s[j + 2..] ==> c in s;
      } else {
        RemoveTagsSub(s[1..]);
        assert forall c :: c in s[1..] ==> c in s;
      }
    }
  }

  // ---------------------------------------------------------------------
  // The research run
  // ---------------------------------------------------------------------

  const MaxChars := 30000

  /** A transcript longer than 30000 characters is cut there and marked
    * with "...". */
  function Truncate(transcript: string): (r: string)
    ensures |transcript| <= MaxChars ==> r == transcript
    ensures |transcript| > MaxChars ==> |r| == MaxChars + 3 && r[..MaxChars] == transcript[..MaxChars] && EndsWith(r, "...")
  {
    if |transcript| > MaxChars then transcript[..MaxChars] + "..." else transcript
  }

  datatype VideoSummary = VideoSummary(videoId: string, title: string, hasTranscript: bool,
                                       summary: Option<string>, keyPoints: seq<string>,
                                       error: Option<string>)

  /** `s.get("summary")` is truthy: the summary can enter the cross-analysis. */
  predicate Usable(s: VideoSummary)
  {
    Given(s.summary)
  }

  /** The summary of one video. Without a transcript it records that; a
    * failed request records the failure; otherwise the reply's fields,
    * the reply itself standing in for a missing summary. */
  function SummarizeVideo(vid: string, title: string, transcript: Option<string>,
                          ask: (string, string) -> Answer, parse: string -> Option<Reply>): (r: VideoSummary)
    ensures r.videoId == vid && r.title == title
    ensures r.hasTranscript <==> Given(transcript)
    ensures !Given(transcript) ==> r.error == Some("No transcript available") && !Usable(r)
    ensures Usable(r) ==> r.hasTranscript && r.error.None?
    ensures Given(transcript) && ask(title, Truncate(transcript.value)).Answered? ==>
      var raw := ask(title, Truncate(transcript.value)).raw;
      ExtractJson(raw, parse).None? ==> r.summary == Some(raw) && r.error.None?
    ensures Given(transcript) && ask(title, Truncate(transcript.value)).Raised? ==>
      r.error == Some("Summarization failed: " + ask(title, Truncate(transcript.value)).message) && !Usable(r)
    ensures Given(transcript) && ask(title, Truncate(transcript.value)).Answered? ==>
      var raw := ask(title, Truncate(transcript.value)).raw;
      var d := DigestOf(raw, ExtractJson(raw, parse));
      && (d.Err? ==> r.error == Some("Summarization failed: " + d.error) && !Usable(r))
      && (d.Ok? ==> r.error.None? && r.summary == d.value.summary && r.keyPoints == d.value.keyPoints)
    ensures Given(transcript) && ask(title, Truncate(transcript.value)).Answered? ==>
      var parsed := ExtractJson(ask(title, Truncate(transcript.value)).raw, parse);
      parsed.Some? && parsed.value.NotObject? ==>
        r.error == Some("Summarization failed: " + ("'" + parsed.value.typeName + "' object has no attribute 'get'"))
  {
    if !Given(transcript) then VideoSummary(vid, title, false, None, [], Some("No transcript available"))
    else
      match ask(title, Truncate(transcript.value))
      case Raised(m) => VideoSummary(vid, title, true, None, [], Some("Summarization failed: " + m))
      case Answered(raw) =>
        match DigestOf(raw, ExtractJson(raw, parse))
        case Err(m) => VideoSummary(vid, title, true, None, [], Some("Summarization failed: " + m))
        case Ok(d) => VideoSummary(vid, title, true, d.summary, d.keyPoints, None)
  }

  /** `video_titles.get(vid, vid)` */
  function TitleOf(titles: map<string, string>, vid: string): string
  {
    if vid in titles then titles[vid] else vid
  }

  /** The summaries of the videos, in order. */
  function SummariesOf(ids: seq<string>, titles: map<string, string>, transcripts: string -> Option<string>,
                       ask: (string, string) -> Answer, parse: string -> Option<Reply>): (r: seq<VideoSummary>)
    ensures |r| == |ids|
    ensures forall k :: 0 <= k < |ids| ==> r[k].videoId == ids[k]
    ensures forall k :: 0 <= k < |ids| ==>
              r[k] == SummarizeVideo(ids[k], TitleOf(titles, ids[k]), transcripts(ids[k]), ask, parse)
  {
    if ids == [] then []
    else
      var n := |ids| - 1;
      SummariesOf(ids[..n], titles, transcripts, ask, parse)
        + [SummarizeVideo(ids[n], TitleOf(titles, ids[n]), transcripts(ids[n]), ask, parse)]
  }

  /** The events of the video at position `i`: a status, then either a
    * transcript error or a second status and the summary. */
  function VideoEvents(i: nat, total: nat, s: VideoSummary): (r: seq<Event<VideoSummary>>)
    ensures |r| >= 2
    ensures r[0] == Status("Fetching transcript for: " + s.title, i, total)
    ensures r[|r| - 1] == (if s.hasTranscript then ItemSummary(s) else ItemError(s.videoId, s.title))
  {
    [Status("Fetching transcript for: " + s.title, i, total)]
      + (if !s.hasTranscript then [ItemError(s.videoId, s.title)]
         else [Status("Summarizing: " + s.title, i, total), ItemSummary(s)])
  }

  /** The events of all videos, in order. */
  function AllVideoEvents(sums: seq<VideoSummary>, total: nat): seq<Event<VideoSummary>>
  {
    if sums == [] then []
    else AllVideoEvents(sums[..|sums| - 1], total) + VideoEvents(|sums| - 1, total, sums[|sums| - 1])
  }

  /** The per-video loop of `run_analysis`. */
  method SummarizeAll(videoIds: seq<string>, titles: map<string, string>, transcripts: string -> Option<string>,
                      ask: (string, string) -> Answer, parse: string -> Option<Reply>)
    returns (summaries: seq<VideoSummary>, events: seq<Event<VideoSummary>>)
    ensures summaries == SummariesOf(videoIds, titles, transcripts, ask, parse)
    ensures events == AllVideoEvents(summaries, |videoIds|)
  {
    summaries := [];
    events := [];
    var total := |videoIds|;
    for i := 0 to total
      invariant summaries == SummariesOf(videoIds[..i], titles, transcripts, ask, parse)
      invariant events == AllVideoEvents(summaries, total)
    {
      var vid := videoIds[i];
      var s := SummarizeVideo(vid, TitleOf(titles, vid), transcripts(vid), ask, parse);
      SummariesStep(videoIds, i, titles, transcripts, ask, parse);
      VideoEventsStep(summaries, s, total);
      events := events + VideoEvents(i, total, s);
      summaries := summaries + [s];
    }
    assert videoIds[..total] == videoIds;
  }

  lemma SummariesStep(ids: seq<string>, i: nat, titles: map<string, string>, transcripts: string -> Option<string>,
                      ask: (string, string) -> Answer, parse: string -> Option<Reply>)
    requires i < |ids|
    ensures SummariesOf(ids[..i + 1], titles, transcripts, ask, parse)
      == SummariesOf(ids[..i], titles, transcripts, ask, parse)
         + [SummarizeVideo(ids[i], TitleOf(titles, ids[i]), transcripts(ids[i]), ask, parse)]
  {
    assert ids[..i + 1][..i] == ids[..i];
  }

  lemma VideoEventsStep(sums: seq<VideoSummary>, s: VideoSummary, total: nat)
    ensures AllVideoEvents(sums + [s], total) == AllVideoEvents(sums, total) + VideoEvents(|sums|, total, s)
  {
    assert (sums + [s])[..|sums|] == sums;
  }

  datatype SavedResearch = SavedResearch(id: string, channelName: string, channelUrl: string,
                                         createdAt: string, videoSummaries: seq<VideoSummary>,
                                         crossAnalysis: string)

  /** `run_analysis`: without an API key a single error. Otherwise the
    * events of each video, then the cross-analysis; the research is saved,
    * and announced as complete, only when some summary is usable and the
    * stream finished. */
  method RunAnalysis(apiKey: string, channelName: string, channelUrl: string, videoIds: seq<string>,
                     titles: map<string, string>, transcripts: string -> Option<string>,
                     ask: (string, string) -> Answer, parse: string -> Option<Reply>,
                     stream: seq<VideoSummary> -> Stream, researchId: string, createdAt: string)
    returns (events: seq<Event<VideoSummary>>, saved: Option<SavedResearch>)
    ensures |events| > 0
    ensures apiKey == "" ==> events == [Error("ANTHROPIC_API_KEY not configured")] && saved.None?
    ensures apiKey != "" ==>
      var sums := SummariesOf(videoIds, titles, transcripts, ask, parse);
      var st := stream(Keep(sums, Usable));
      && AllVideoEvents(sums, |videoIds|) <= events
      && (Keep(sums, Usable) == [] ==>
            saved.None? && events[|events| - 1] == Error("No transcripts available for any selected video"))
      && (saved.Some? <==> Keep(sums, Usable) != [] && st.failure.None?)
      && (saved.Some? ==>
            saved.value == SavedResearch(researchId, channelName, channelUrl, createdAt, sums, Concat(st.chunks))
            && events[|events| - 1] == Complete(researchId))
    ensures apiKey != "" ==>
      var sums := SummariesOf(videoIds, titles, transcripts, ask, parse);
      var usable := Keep(sums, Usable);
      events == AllVideoEvents(sums, |videoIds|)
                + CrossEvents(usable, |videoIds|, "No transcripts available for any selected video",
                              "Running cross-video analysis...", stream(usable))
                + (if saved.Some? then [Complete(researchId)] else [])
  {
    if apiKey == "" {
      return [Error("ANTHROPIC_API_KEY not configured")], None;
    }
    var summaries, videoEvents := SummarizeAll(videoIds, titles, transcripts, ask, parse);
    var total := |videoIds|;
    var tail, analysis := CrossAnalysis(summaries, Usable, total,
                                        "No transcripts available for any selected video",
                                        "Running cross-video analysis...", stream);
    saved := if analysis.Some?
             then Some(SavedResearch(researchId, channelName, channelUrl, createdAt, summaries, analysis.value))
             else None;
    events := videoEvents + tail + (if analysis.Some? then [Complete(researchId)] else []);
    CloseFacts(videoEvents, Keep(summaries, Usable), total, "No transcripts available for any selected video",
               "Running cross-video analysis...", stream(Keep(summaries, Usable)), analysis.Some?, researchId);
  }
}
