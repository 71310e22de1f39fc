/** The dashboard's browser client: the request helper that turns a failed
  * response into an error, the query string of the reels listing, and the
  * reader of the chat stream, which splits the streamed text into lines and
  * turns each `data: ` line into a call of one of the three callbacks.
  * The network, `JSON.parse` and the form encoder of `URLSearchParams` are
  * parameters; a callback call is an event in the returned sequence. */
module Api {
  import opened Common

  /** `API_BASE`: the configured address, else "" in the browser and the
    * local server during server-side rendering. */
  function ApiBase(configured: Option<string>, inBrowser: bool): (r: string)
    ensures Given(configured) ==> r == configured.value
    ensures !Given(configured) ==> (r == "" <==> inBrowser)
  {
    if Given(configured) then configured.value else if inBrowser then "" else "http://localhost:8000"
  }

  /** A response as `fetchAPI` sees it: whether it is ok, its status line,
    * and the parsed JSON body. */
  datatype Response<T> = Response(ok: bool, status: int, statusText: string, json: T)

  /** `fetchAPI`: the parsed body of an ok response; any other response
    * throws. */
  function FetchApi<T>(res: Response<T>): (r: Result<T>)
    ensures r.Ok? <==> res.ok
    ensures r.Ok? ==> r.value == res.json
    ensures r.Err? ==> r.error == "API error: " + IntToString(res.status) + " " + res.statusText
  {
    if !res.ok then Err("API error: " + IntToString(res.status) + " " + res.statusText) else Ok(res.json)
  }

  // ---------------------------------------------------------------------
  // `getReels`
  // ---------------------------------------------------------------------

  const ReelsPath := "/api/content/reels"

  /** The parameters `getReels` sets: each one that is given and not empty,
    * the persona first. */
  function ReelsParams(persona: Option<string>, videoType: Option<string>): (r: seq<(string, string)>)
    ensures |r| <= 2
    ensures forall v :: ("persona", v) in r <==> Given(persona) && v == persona.value
    ensures forall v :: ("video_type", v) in r <==> Given(videoType) && v == videoType.value
    ensures forall k :: 0 <= k < |r| ==> r[k].0 in {"persona", "video_type"}
    ensures Given(persona) ==> r[0] == ("persona", persona.value)
  {
    (if Given(persona) then [("persona", persona.value)] else [])
    + (if Given(videoType) then [("video_type", videoType.value)] else [])
  }

  /** `URLSearchParams.toString`: each pair as its encoded name, "=" and
    * its encoded value, joined by "&". */
  function QueryString(params: seq<(string, string)>, encode: string -> string): (r: string)
    ensures r == "" <==> params == []
  {
    if params == [] then ""
    else if |params| == 1 then encode(params[0].0) + "=" + encode(params[0].1)
    else encode(params[0].0) + "=" + encode(params[0].1) + "&" + QueryString(params[1..], encode)
  }

  /** The path `getReels` requests. */
  function ReelsUrlPath(persona: Option<string>, videoType: Option<string>, encode: string -> string): string
  {
    var qs := QueryString(ReelsParams(persona, videoType), encode);
    ReelsPath + (if qs != "" then "?" + qs else "")
  }

  /** With neither parameter given the path has no query at all; with
    * either, it is the listing's path, "?" and the query of exactly the
    * given parameters. */
  lemma ReelsQuery(persona: Option<string>, videoType: Option<string>, encode: string -> string)
    ensures !Given(persona) && !Given(videoType) ==> ReelsUrlPath(persona, videoType, encode) == ReelsPath
    ensures Given(persona) || Given(videoType) ==>
              ReelsUrlPath(persona, videoType, encode)
              == ReelsPath + "?" + QueryString(ReelsParams(persona, videoType), encode)
  {
    var params := ReelsParams(persona, videoType);
    if Given(persona) {
      assert ("persona", persona.value) in params;
    } else if Given(videoType) {
      assert ("video_type", videoType.value) in params;
    }
  }

  // ---------------------------------------------------------------------
  // `streamChat`
  // ---------------------------------------------------------------------

  /** A call of one of the callbacks. */
  datatype Event = Chunk(text: string) | Done | Failed(message: string)

  /** The fields of a parsed event that the reader looks at. */
  datatype Payload = Payload(kind: string, content: string)

  /** The stream's response: whether it is ok, its status, and the decoded
    * text chunks the reader yields (`None` when there is no body). */
  datatype StreamResponse = StreamResponse(ok: bool, status: int, body: Option<seq<string>>)

  const DataPrefix := "data: "

  /** The text the chunks make, read so far. */
  function Concat(chunks: seq<string>): string
  {
    if chunks == [] then "" else Concat(chunks[..|chunks| - 1]) + chunks[|chunks| - 1]
  }

  /** The lines of a text that a newline ends; the text after the last
    * newline is not among them. */
  function CompleteLines(s: string): (r: seq<string>)
    ensures forall k :: 0 <= k < |r| ==> '\n' !in r[k]
  {
    var parts := Split(s, '\n');
    parts[..|parts| - 1]
  }

  predicate IsDoneLine(line: string)
  {
    StartsWith(line, DataPrefix) && line[|DataPrefix|..] == "[DONE]"
  }

  /** The callback a line other than the end marker calls, if any: none
    * unless it is a `data: ` line whose payload parses, and then `onChunk`
    * or `onError` by the payload's type. */
  function LineEvents(line: string, parse: string -> Option<Payload>): (r: seq<Event>)
    ensures |r| <= 1 && Done !in r
    ensures r != [] <==> StartsWith(line, DataPrefix) && parse(line[|DataPrefix|..]).Some?
                         && parse(line[|DataPrefix|..]).value.kind in {"chunk", "error"}
    ensures r != [] ==> var p := parse(line[|DataPrefix|..]).value;
                        r == [if p.kind == "chunk" then Chunk(p.content) else Failed(p.content)]
  {
    if !StartsWith(line, DataPrefix) then []
    else
      match parse(line[|DataPrefix|..])
      case None => []
      case Some(p) =>
        if p.kind == "chunk" then [Chunk(p.content)]
        else if p.kind == "error" then [Failed(p.content)]
        else []
  }

  /** Some line is the end marker. */
  predicate DoneIn(lines: seq<string>)
  {
    lines != [] && (IsDoneLine(lines[0]) || DoneIn(lines[1..]))
  }

  /** The calls the complete lines make, in order, up to and including the
    * end marker. */
  function Dispatch(lines: seq<string>, parse: string -> Option<Payload>): seq<Event>
  {
    if lines == [] then []
    else if IsDoneLine(lines[0]) then [Done]
    else LineEvents(lines[0], parse) + Dispatch(lines[1..], parse)
  }

  /** The calls `streamChat` makes. */
  function StreamEvents(res: StreamResponse, parse: string -> Option<Payload>): seq<Event>
  {
    if !res.ok then [Failed("API error: " + IntToString(res.status))]
    else if res.body.None? then [Failed("No response body")]
    else
      var lines := CompleteLines(Concat(res.body.value));
      if DoneIn(lines) then Dispatch(lines, parse) else Dispatch(lines, parse) + [Done]
  }

  /** Before the end marker the lines' calls follow one another; after it
    * nothing more is read. */
  lemma {:induction false} DispatchAppend(a: seq<string>, b: seq<string>, parse: string -> Option<Payload>)
    ensures DoneIn(a) ==> Dispatch(a + b, parse) == Dispatch(a, parse)
    ensures !DoneIn(a) ==> Dispatch(a + b, parse) == Dispatch(a, parse) + Dispatch(b, parse)
    ensures DoneIn(a + b) <==> DoneIn(a) || DoneIn(b)
  {
    if a == [] {
      assert a + b == b;
    } else {
      assert (a + b)[0] == a[0];
      assert (a + b)[1..] == a[1..] + b;
      DispatchAppend(a[1..], b, parse);
    }
  }

  /** One more line: its calls follow, or the end marker ends the calls. */
  lemma DispatchSnoc(lines: seq<string>, line: string, parse: string -> Option<Payload>)
    requires !DoneIn(lines)
    ensures IsDoneLine(line) ==> Dispatch(lines + [line], parse) == Dispatch(lines, parse) + [Done]
    ensures !IsDoneLine(line) ==> Dispatch(lines + [line], parse) == Dispatch(lines, parse) + LineEvents(line, parse)
    ensures DoneIn(lines + [line]) <==> IsDoneLine(line)
  {
    DispatchAppend(lines, [line], parse);
    assert [line][1..] == [];
    assert LineEvents(line, parse) + [] == LineEvents(line, parse);
  }

  /** `onDone` is called at most once, and only as the last call; it is
    * called exactly when an end marker is among the lines. */
  lemma {:induction false} DispatchDoneLast(lines: seq<string>, parse: string -> Option<Payload>)
    ensures forall k :: 0 <= k < |Dispatch(lines, parse)| - 1 ==> Dispatch(lines, parse)[k] != Done
    ensures DoneIn(lines) <==> Done in Dispatch(lines, parse)
    ensures DoneIn(lines) ==> Dispatch(lines, parse)[|Dispatch(lines, parse)| - 1] == Done
  {
    if lines != [] && !IsDoneLine(lines[0]) {
      DispatchDoneLast(lines[1..], parse);
      var head := LineEvents(lines[0], parse);
      var tail := Dispatch(lines[1..], parse);
      assert Dispatch(lines, parse) == head + tail;
      forall k | 0 <= k < |head + tail|
        ensures (head + tail)[k] == Done <==> k >= |head| && tail[k - |head|] == Done
      {
        if k < |head| {
          assert (head + tail)[k] == head[k];
          assert head[k] in head;
        }
      }
      if Done in tail {
        var k :| 0 <= k < |tail| && tail[k] == Done;
        assert (head + tail)[|head| + k] == Done;
      }
    }
  }

  /** For a readable stream, `onDone` is the last call and is made once;
    * for a failed response, `onError` is the only call. */
  lemma StreamDoneOnce(res: StreamResponse, parse: string -> Option<Payload>)
    ensures var r := StreamEvents(res, parse);
            && (res.ok && res.body.Some? ==>
                  |r| >= 1 && r[|r| - 1] == Done && forall k :: 0 <= k < |r| - 1 ==> r[k] != Done)
            && (!res.ok || res.body.None? ==> |r| == 1 && r[0].Failed?)
  {
    if res.ok && res.body.Some? {
      var lines := CompleteLines(Concat(res.body.value));
      DispatchDoneLast(lines, parse);
      var d := Dispatch(lines, parse);
      if !DoneIn(lines) {
        assert Done !in d;
        forall k | 0 <= k < |d + [Done]| - 1
          ensures (d + [Done])[k] != Done
        {
          assert (d + [Done])[k] == d[k];
        }
      }
    }
  }

  lemma {:induction false} ConcatAppend(a: seq<string>, b: seq<string>)
    ensures Concat(a + b) == Concat(a) + Concat(b)
    decreases |b|
  {
    if b == [] {
      assert a + b == a;
    } else {
      var init := b[..|b| - 1];
      assert (a + b)[..|a + b| - 1] == a + init;
      assert (a + b)[|a + b| - 1] == b[|b| - 1];
      ConcatAppend(a, init);
      AppendAssoc(Concat(a), Concat(init), b[|b| - 1]);
    }
  }

  /** Text whose split ends in `last` after at least one line is those
    * lines joined, a newline and `last`. */
  lemma SplitFront(s: string, done: seq<string>, last: string)
    requires done != [] && Split(s, '\n') == done + [last]
    ensures s == Join(done, "\n") + "\n" + last
    ensures forall k :: 0 <= k < |done| ==> '\n' !in done[k]
  {
    JoinSplit(s, '\n');
    JoinSnoc(done, last, "\n");
    forall k | 0 <= k < |done|
      ensures '\n' !in done[k]
    {
      assert done[k] == (done + [last])[k];
    }
  }

  /** Reading more text after text whose split ends in `last` keeps the
    * earlier lines and splits `last` and the new text together. */
  lemma SplitExtend(s: string, done: seq<string>, last: string, more: string)
    requires Split(s, '\n') == done + [last]
    ensures Split(s + more, '\n') == done + Split(last + more, '\n')
  {
    if done == [] {
      SplitExtendFirst(s, last, more);
    } else {
      SplitExtendLater(s, done, last, more);
    }
  }

  lemma SplitExtendFirst(s: string, last: string, more: string)
    requires Split(s, '\n') == [last]
    ensures Split(s + more, '\n') == Split(last + more, '\n')
  {
    JoinSplit(s, '\n');
  }

  lemma SplitExtendLater(s: string, done: seq<string>, last: string, more: string)
    requires done != [] && Split(s, '\n') == done + [last]
    ensures Split(s + more, '\n') == done + Split(last + more, '\n')
  {
    SplitFront(s, done, last);
    AppendAssoc(Join(done, "\n") + "\n", last, more);
    SplitAfterLines(s + more, done, last + more);
  }

  /** Text made of complete lines followed by a rest splits into those lines
    * and the parts of the rest. */
  lemma SplitAfterLines(t: string, done: seq<string>, rest: string)
    requires done != [] && forall k :: 0 <= k < |done| ==> '\n' !in done[k]
    requires t == Join(done, "\n") + "\n" + rest
    ensures Split(t, '\n') == done + Split(rest, '\n')
  {
    SplitAppend(Join(done, "\n"), '\n', rest);
    SplitJoin(done, '\n');
  }

  /** Text without a newline at the end of the stream changes no complete
    * line: a trailing partial line is never read. */
  lemma TrailingPartialIgnored(chunks: seq<string>, partial: string, parse: string -> Option<Payload>)
    requires '\n' !in partial
    ensures CompleteLines(Concat(chunks + [partial])) == CompleteLines(Concat(chunks))
    ensures forall ok, status ::
              StreamEvents(StreamResponse(ok, status, Some(chunks + [partial])), parse)
              == StreamEvents(StreamResponse(ok, status, Some(chunks)), parse)
  {
    var s := Concat(chunks);
    var parts := Split(s, '\n');
    var done := parts[..|parts| - 1];
    assert parts == done + [parts[|parts| - 1]];
    assert (chunks + [partial])[..|chunks|] == chunks;
    SplitExtend(s, done, parts[|parts| - 1], partial);
    SplitNoSep(parts[|parts| - 1] + partial, '\n');
  }

  /** The lines of one batch of the reader: the events they make, and
    * whether the end marker was among them. */
  method DispatchLines(lines: seq<string>, parse: string -> Option<Payload>)
    returns (events: seq<Event>, stopped: bool)
    ensures events == Dispatch(lines, parse)
    ensures stopped <==> DoneIn(lines)
  {
    events := [];
    for j := 0 to |lines|
      invariant events == Dispatch(lines[..j], parse)
      invariant !DoneIn(lines[..j])
    {
      DispatchSnoc(lines[..j], lines[j], parse);
      assert lines[..j + 1] == lines[..j] + [lines[j]];
      var line := lines[j];
      if StartsWith(line, DataPrefix) {
        var data := line[|DataPrefix|..];
        if data == "[DONE]" {
          events := events + [Done];
          DispatchAppend(lines[..j + 1], lines[j + 1..], parse);
          assert lines[..j + 1] + lines[j + 1..] == lines;
          return events, true;
        }
        var parsed := parse(data);
        if parsed.Some? {
          if parsed.value.kind == "chunk" {
            events := events + [Chunk(parsed.value.content)];
          } else if parsed.value.kind == "error" {
            events := events + [Failed(parsed.value.content)];
          }
        }
      }
    }
    assert lines[..|lines|] == lines;
    return events, false;
  }

  /** `streamChat`: the callback calls for the response, read chunk by
    * chunk with the unfinished line kept in a buffer. */
  method StreamChat(res: StreamResponse, parse: string -> Option<Payload>) returns (events: seq<Event>)
    ensures events == StreamEvents(res, parse)
  {
    if !res.ok {
      return [Failed("API error: " + IntToString(res.status))];
    }
    if res.body.None? {
      return [Failed("No response body")];
    }
    var chunks := res.body.value;
    var buffer := "";
    ghost var done: seq<string> := [];
    events := [];
    for i := 0 to |chunks|
      invariant Split(Concat(chunks[..i]), '\n') == done + [buffer]
      invariant events == Dispatch(done, parse) && !DoneIn(done)
    {
      assert chunks[..i + 1][..i] == chunks[..i];
      var stopped;
      done, buffer, events, stopped := ReadChunk(Concat(chunks[..i]), done, buffer, events, chunks[i], parse);
      if stopped {
        StreamStops(chunks, i, done, buffer, parse);
        return events;
      }
    }
    assert chunks[..|chunks|] == chunks;
    events := events + [Done];
  }

  /** One chunk of `streamChat`'s read loop: the buffer plus the chunk split
    * at line breaks, the complete lines dispatched and the last part kept. */
  method ReadChunk(ghost text: string, ghost done: seq<string>, buffer: string, events: seq<Event>,
                   chunk: string, parse: string -> Option<Payload>)
    returns (ghost done': seq<string>, buffer': string, events': seq<Event>, stopped: bool)
    requires Split(text, '\n') == done + [buffer]
    requires events == Dispatch(done, parse) && !DoneIn(done)
    ensures Split(text + chunk, '\n') == done' + [buffer']
    ensures events' == Dispatch(done', parse)
    ensures stopped == DoneIn(done')
  {
    SplitExtend(text, done, buffer, chunk);
    var lines := Split(buffer + chunk, '\n');
    var complete := lines[..|lines| - 1];
    buffer' := lines[|lines| - 1];
    assert lines == complete + [buffer'];
    AppendAssoc(done, complete, [buffer']);
    var batch;
    batch, stopped := DispatchLines(complete, parse);
    DispatchAppend(done, complete, parse);
    events' := events + batch;
    done' := done + complete;
  }

  /** When the end marker is read in the batch of chunk `i`, the calls so
    * far are those of the whole stream. */
  lemma StreamStops(chunks: seq<string>, i: nat, done: seq<string>, buffer: string,
                    parse: string -> Option<Payload>)
    requires i < |chunks|
    requires Split(Concat(chunks[..i + 1]), '\n') == done + [buffer]
    requires DoneIn(done)
    ensures DoneIn(CompleteLines(Concat(chunks)))
    ensures Dispatch(done, parse) == Dispatch(CompleteLines(Concat(chunks)), parse)
  {
    var rest := chunks[i + 1..];
    assert chunks[..i + 1] + rest == chunks;
    ConcatAppend(chunks[..i + 1], rest);
    SplitExtend(Concat(chunks[..i + 1]), done, buffer, Concat(rest));
    var tail := Split(buffer + Concat(rest), '\n');
    var all := done + tail;
    assert all[..|all| - 1] == done + tail[..|tail| - 1];
    DispatchAppend(done, tail[..|tail| - 1], parse);
  }
}
