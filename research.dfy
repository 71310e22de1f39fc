/** What the two research services share: pulling a JSON object out of a
  * model reply (`_extract_json`, written the same way in both), the events
  * their generators yield, and the streamed cross-analysis that closes a
  * research run. */
module Research {
  import opened Common

  // ---------------------------------------------------------------------
  // Regular-expression pieces, written out on positions of the text.
  // ---------------------------------------------------------------------

  /** `\s*` starting at `k`: the first position at or after `k` that is not
    * a blank. */
  function SkipSpace(text: string, k: nat): (r: nat)
    requires k <= |text|
    ensures k <= r <= |text|
    ensures forall m :: k <= m < r ==> IsSpace(text[m])
    ensures r < |text| ==> !IsSpace(text[r])
    decreases |text| - k
  {
    if k < |text| && IsSpace(text[k]) then SkipSpace(text, k + 1) else k
  }

  /** `\}\s*```` matches at `q`. */
  predicate ClosesAt(text: string, q: nat)
  {
    q < |text| && text[q] == '}' && StartsWith(text[SkipSpace(text, q + 1)..], "```")
  }

  /** The lazy `.*?\}\s*```` after an opening brace: the first position at
    * or after `from` that closes the block. */
  function FirstClose(text: string, from: nat): (r: Option<nat>)
    requires from <= |text|
    ensures r.Some? ==> from <= r.value < |text| && ClosesAt(text, r.value)
    ensures forall q :: from <= q < |text| && (r.None? || q < r.value) ==> !ClosesAt(text, q)
    decreases |text| - from
  {
    if from == |text| then None
    else if ClosesAt(text, from) then Some(from)
    else FirstClose(text, from + 1)
  }

  /** "```", an optional "json", blanks and then `{` at `i`: the position of
    * that brace. When "json" follows the fence but no brace follows it, the
    * alternative without "json" fails too, since "j" is neither a blank
    * nor a brace. */
  function OpenAt(text: string, i: nat): (r: Option<nat>)
    requires i <= |text|
    ensures r.Some? ==> i + 3 <= r.value < |text| && text[r.value] == '{'
    ensures r.Some? ==> StartsWith(text[i..], "```")
  {
    if !StartsWith(text[i..], "```") then None
    else
      var k := if StartsWith(text[i + 3..], "json") then i + 7 else i + 3;
      var p := SkipSpace(text, k);
      if p < |text| && text[p] == '{' then Some(p) else None
  }

  /** The group `(\{.*?\})` of a fence that opens at `i`, if the pattern
    * matches there. */
  function FenceAt(text: string, i: nat): (r: Option<string>)
    requires i <= |text|
    ensures r.Some? ==> |r.value| >= 2 && r.value[0] == '{' && r.value[|r.value| - 1] == '}'
  {
    var p := OpenAt(text, i);
    if p.None? then None
    else
      var q := FirstClose(text, p.value + 1);
      if q.None? then None else Some(text[p.value..q.value + 1])
  }

  /** `re.search(r"```(?:json)?\s*(\{.*?\})\s*```", text, re.DOTALL)`: the
    * leftmost start at or after `i` where the pattern matches. */
  function FencedBlock(text: string, i: nat): (r: Option<string>)
    requires i <= |text|
    ensures r.Some? ==> |r.value| >= 2 && r.value[0] == '{' && r.value[|r.value| - 1] == '}'
    decreases |text| - i
  {
    if FenceAt(text, i).Some? then FenceAt(text, i)
    else if i == |text| then None
    else FencedBlock(text, i + 1)
  }

  /** `re.search(r"\{.*\}", text, re.DOTALL)`: from the first `{` to the
    * last `}`, when that `}` comes after it. */
  function BraceSpan(text: string): (r: Option<string>)
    ensures r.Some? ==> |r.value| >= 2 && r.value[0] == '{' && r.value[|r.value| - 1] == '}'
    ensures r.None? ==> forall a, b :: 0 <= a < b < |text| && text[a] == '{' ==> text[b] != '}'
    ensures r.Some? ==> exists i :: 0 <= i <= |text| - |r.value| && text[i..i + |r.value|] == r.value
                                  && '{' !in text[..i] && '}' !in text[i + |r.value|..]
  {
    var i := Find(text, '{');
    var j := RFind(text, '}');
    if 0 <= i < j then
      assert '{' !in text[..i] && '}' !in text[j + 1..];
      assert text[i..i + |text[i..j + 1]|] == text[i..j + 1];
      Some(text[i..j + 1])
    else None
  }

  /** `_extract_json`: the text itself when it parses, else the fenced
    * block, else the outermost braces; `None` stands for the `{}` returned
    * when nothing parses. */
  function ExtractJson<T>(text: string, parse: string -> Option<T>): (r: Option<T>)
    ensures parse(text).Some? ==> r == parse(text)
    ensures r.None? ==> parse(text).None?
  {
    if parse(text).Some? then parse(text)
    else
      var fenced := FencedBlock(text, 0);
      if fenced.Some? && parse(fenced.value).Some? then parse(fenced.value)
      else
        var span := BraceSpan(text);
        if span.Some? && parse(span.value).Some? then parse(span.value)
        else None
  }

  // ---------------------------------------------------------------------
  // Properties of the extraction.
  // ---------------------------------------------------------------------

  /** A reply without any `{` yields the direct parse or nothing. */
  lemma NoBraceDirectOnly<T>(text: string, parse: string -> Option<T>)
    requires '{' !in text
    ensures ExtractJson(text, parse) == parse(text)
  {
    NoBraceNoFence(text, 0);
  }

  lemma {:induction false} NoBraceNoFence(text: string, i: nat)
    requires '{' !in text && i <= |text|
    ensures FencedBlock(text, i).None?
    decreases |text| - i
  {
    if i < |text| {
      NoBraceNoFence(text, i + 1);
    }
  }

  /** An object between prose that has no `{` before it and no `}` after
    * it, and no backquote anywhere, is found by the last attempt. */
  lemma ProseAroundObject<T>(pre: string, obj: string, post: string, parse: string -> Option<T>)
    requires |obj| >= 2 && obj[0] == '{' && obj[|obj| - 1] == '}'
    requires '{' !in pre && '}' !in post
    requires '`' !in pre + obj + post
    requires parse(pre + obj + post).None?
    ensures ExtractJson(pre + obj + post, parse) == parse(obj)
  {
    var text := pre + obj + post;
    NoBackquoteNoFence(text, 0);
    BraceSpanOf(pre, obj, post);
  }

  /** The outermost braces of prose around an object are the object's. */
  lemma BraceSpanOf(pre: string, obj: string, post: string)
    requires |obj| >= 2 && obj[0] == '{' && obj[|obj| - 1] == '}'
    requires '{' !in pre && '}' !in post
    ensures BraceSpan(pre + obj + post) == Some(obj)
  {
    var text := pre + obj + post;
    var m := |pre| + |obj| - 1;
    forall k | 0 <= k < |pre|
      ensures text[k] != '{'
    {
      assert text[k] == pre[k];
    }
    forall k | m < k < |text|
      ensures text[k] != '}'
    {
      assert text[k] == post[k - |pre| - |obj|];
    }
    FindAt(text, '{', |pre|);
    RFindAt(text, '}', m);
    assert text[|pre|..m + 1] == obj;
  }

  lemma {:induction false} NoBackquoteNoFence(text: string, i: nat)
    requires '`' !in text && i <= |text|
    ensures FencedBlock(text, i).None?
    decreases |text| - i
  {
    if i < |text| {
      assert text[i..][0] == text[i] != '`';
      assert OpenAt(text, i).None?;
      NoBackquoteNoFence(text, i + 1);
    }
  }

  /** A reply that fences an object as "```json", a line break, the object,
    * a line break and "```" yields that object, whatever prose without
    * backquotes comes before it. */
  lemma FencedObject<T>(pre: string, obj: string, post: string, parse: string -> Option<T>)
    requires |obj| >= 2 && obj[0] == '{' && obj[|obj| - 1] == '}'
    requires '`' !in pre && '`' !in obj
    requires parse(pre + "```json\n" + obj + "\n```" + post).None?
    requires parse(obj).Some?
    ensures ExtractJson(pre + "```json\n" + obj + "\n```" + post, parse) == parse(obj)
  {
    var text := pre + "```json\n" + obj + "\n```" + post;
    FenceLayout(pre, obj, post);
    FencedAt(text, |pre|, obj);
    NoFenceBefore(text, pre, 0);
  }

  /** Where the pieces of a fenced reply lie. */
  lemma FenceLayout(pre: string, obj: string, post: string)
    ensures var text := pre + "```json\n" + obj + "\n```" + post;
            var n := |pre|;
            && |text| == n + 12 + |obj| + |post|
            && text[..n] == pre
            && text[n..n + 8] == "```json\n"
            && text[n + 8..n + 8 + |obj|] == obj
            && text[n + 8 + |obj|..n + 12 + |obj|] == "\n```"
  {
    var a := pre + "```json\n";
    var b := a + obj;
    var c := b + "\n```";
    var text := c + post;
    var n := |pre|;
    assert text[..|c|] == c;
    assert c[..|b|] == b;
    assert b[..|a|] == a;
    assert text[..n] == pre by {
      assert text[..n] == a[..n];
    }
    assert text[n..n + 8] == "```json\n" by {
      assert text[n..n + 8] == a[n..];
    }
    assert text[n + 8..n + 8 + |obj|] == obj by {
      assert text[n + 8..n + 8 + |obj|] == b[|a|..];
    }
    assert text[n + 8 + |obj|..n + 12 + |obj|] == "\n```" by {
      assert text[n + 8 + |obj|..n + 12 + |obj|] == c[|b|..];
    }
  }

  /** The fence is matched where it opens, with the object as its group. */
  lemma FencedAt(text: string, n: nat, obj: string)
    requires |obj| >= 2 && obj[0] == '{' && obj[|obj| - 1] == '}'
    requires '`' !in obj
    requires n + 12 + |obj| <= |text|
    requires text[n..n + 8] == "```json\n"
    requires text[n + 8..n + 8 + |obj|] == obj
    requires text[n + 8 + |obj|..n + 12 + |obj|] == "\n```"
    ensures FenceAt(text, n) == Some(obj)
  {
    var p := n + 8;
    var end := p + |obj| - 1;
    OpensAt(text, n);
    forall q | p + 1 <= q < end
      ensures !ClosesAt(text, q)
    {
      InsideNoClose(text, obj, p, q);
    }
    ClosesAfter(text, end);
    FirstCloseAt(text, p + 1, end);
  }

  /** "```json" and a line break before a brace open a fence there. */
  lemma OpensAt(text: string, n: nat)
    requires n + 9 <= |text| && text[n..n + 8] == "```json\n" && text[n + 8] == '{'
    ensures OpenAt(text, n) == Some(n + 8)
  {
    var f := text[n..n + 8];
    assert text[n..][..3] == f[..3] == "```";
    assert f[3] == 'j' && f[4] == 's' && f[5] == 'o' && f[6] == 'n';
    var t := text[n + 3..][..4];
    assert t[0] == 'j' && t[1] == 's' && t[2] == 'o' && t[3] == 'n';
    assert t == "json";
    assert text[n + 7] == f[7];
    assert SkipSpace(text, n + 8) == n + 8;
  }

  /** A `}` followed by a line break and "```" closes a fence. */
  lemma ClosesAfter(text: string, end: nat)
    requires end + 5 <= |text| && text[end] == '}' && text[end + 1..end + 5] == "\n```"
    ensures ClosesAt(text, end)
  {
    assert text[end + 1] == text[end + 1..end + 5][0];
    assert SkipSpace(text, end + 2) == end + 2;
    assert text[end + 2..][..3] == text[end + 1..end + 5][1..];
  }

  /** A `}` inside the object is followed, after blanks, by a character of
    * the object that is not a backquote. */
  lemma InsideNoClose(text: string, obj: string, p: nat, q: nat)
    requires p + |obj| <= |text| && text[p..p + |obj|] == obj
    requires |obj| >= 1 && !IsSpace(obj[|obj| - 1])
    requires '`' !in obj
    requires p <= q < p + |obj| - 1
    ensures !ClosesAt(text, q)
  {
    var s := SkipSpace(text, q + 1);
    var last := p + |obj| - 1;
    assert text[last] == obj[|obj| - 1];
    assert s <= last;
    assert text[s] == obj[s - p];
  }

  /** `FirstClose` finds a position that closes when no earlier one does. */
  lemma {:induction false} FirstCloseAt(text: string, from: nat, q: nat)
    requires from <= q < |text| && ClosesAt(text, q)
    requires forall m :: from <= m < q ==> !ClosesAt(text, m)
    ensures FirstClose(text, from) == Some(q)
    decreases q - from
  {
    if from < q {
      FirstCloseAt(text, from + 1, q);
    }
  }

  /** No fence opens before the first backquote, so the search reaches it. */
  lemma {:induction false} NoFenceBefore(text: string, pre: string, i: nat)
    requires i <= |pre| < |text| && text[..|pre|] == pre && '`' !in pre
    ensures FencedBlock(text, i) == (if FenceAt(text, |pre|).Some? then FenceAt(text, |pre|) else FencedBlock(text, |pre|))
    decreases |pre| - i
  {
    if i < |pre| {
      assert text[i] == pre[i];
      assert OpenAt(text, i).None?;
      NoFenceBefore(text, pre, i + 1);
    }
  }

  // ---------------------------------------------------------------------
  // The model's answer and the events of a research run.
  // ---------------------------------------------------------------------

  /** The summarising request: the reply text, or the message of the
    * exception it raised. */
  datatype Answer = Answered(raw: string) | Raised(message: string)

  /** A parsed reply: an object, of which the fields the services read
    * (`None` when the key is absent, `Some(None)` when it is not a string
    * or is null), or any other JSON value, of which only its Python type
    * name (`list`, `str`, `int`, `NoneType`, ...) matters. */
  datatype Reply = Object(summary: Option<Option<string>>, keyPoints: Option<seq<string>>, sentiment: Option<Option<string>>)
                 | NotObject(typeName: string)

  /** What a summary holds when the request succeeded. */
  datatype Digest = Digest(summary: Option<string>, keyPoints: seq<string>, sentiment: Option<string>)

  /** `parsed.get("summary", raw)`, `parsed.get("key_points", [])` and
    * `parsed.get("sentiment")` on the extracted reply. A parsed value that
    * is not an object has no `get`: that raises, and the caller records the
    * failure. */
  function DigestOf(raw: string, parsed: Option<Reply>): (r: Result<Digest>)
    ensures parsed.None? ==> r == Ok(Digest(Some(raw), [], None))
    ensures r.Err? <==> parsed.Some? && parsed.value.NotObject?
    ensures parsed.Some? && parsed.value.NotObject? ==>
              r == Err("'" + parsed.value.typeName + "' object has no attribute 'get'")
    ensures r.Ok? && parsed.Some? && parsed.value.summary.None? ==> r.value.summary == Some(raw)
    ensures parsed.Some? && parsed.value.Object? ==>
              && r.Ok?
              && (parsed.value.summary.Some? ==> r.value.summary == parsed.value.summary.value)
              && r.value.keyPoints == (if parsed.value.keyPoints.Some? then parsed.value.keyPoints.value else [])
              && (parsed.value.sentiment.Some? ==> r.value.sentiment == parsed.value.sentiment.value)
              && (parsed.value.sentiment.None? ==> r.value.sentiment.None?)
  {
    match parsed
    case None => Ok(Digest(Some(raw), [], None))
    case Some(NotObject(t)) => Err("'" + t + "' object has no attribute 'get'")
    case Some(Object(s, k, m)) =>
      Ok(Digest(if s.None? then Some(raw) else s.value,
                if k.None? then [] else k.value,
                if m.None? then None else m.value))
  }

  /** The events the generators yield. */
  datatype Event<S> = Status(content: string, progress: nat, total: nat)
                    | ItemError(id: string, title: string)
                    | ItemSummary(data: S)
                    | Chunk(content: string)
                    | Error(content: string)
                    | Complete(id: string)

  /** The streamed cross-analysis: the text chunks it delivered, and the
    * message of the exception that ended it, if any. */
  datatype Stream = Stream(chunks: seq<string>, failure: Option<string>)

  /** `[s for s in summaries if s.get("summary")]` */
  function Keep<S(!new)>(summaries: seq<S>, valid: S -> bool): (r: seq<S>)
    ensures forall x :: x in r <==> x in summaries && valid(x)
    ensures |r| <= |summaries|
  {
    FilterIsFilterOf(summaries, valid);
    Filter(summaries, valid)
  }

  /** The kept summaries are the usable ones in their order, each as often
    * as in the input. */
  lemma KeepIsFilter<S(!new)>(summaries: seq<S>, valid: S -> bool)
    ensures IsFilterOf(Keep(summaries, valid), summaries, valid)
  {
    FilterIsFilterOf(summaries, valid);
  }

  /** `cross_analysis += text` over the chunks. */
  function Concat(chunks: seq<string>): (r: string)
    ensures |chunks| > 0 ==> EndsWith(r, chunks[|chunks| - 1])
  {
    if chunks == [] then "" else Concat(chunks[..|chunks| - 1]) + chunks[|chunks| - 1]
  }

  /** One chunk event per chunk, in order. */
  function ChunkEvents<S>(chunks: seq<string>): (r: seq<Event<S>>)
    ensures |r| == |chunks|
    ensures forall k :: 0 <= k < |r| ==> r[k] == Chunk(chunks[k])
  {
    if chunks == [] then [] else ChunkEvents(chunks[..|chunks| - 1]) + [Chunk(chunks[|chunks| - 1])]
  }

  /** The events of the close of a run, given the usable summaries and the
    * stream that answered them. */
  function CrossEvents<S>(usable: seq<S>, total: nat, noneMessage: string, running: string, st: Stream): seq<Event<S>>
  {
    if usable == [] then [Error(noneMessage)]
    else [Status(running, total, total)] + ChunkEvents(st.chunks)
         + (if st.failure.Some? then [Error("Cross-analysis failed: " + st.failure.value)] else [])
  }

  /** The events of a run are the events of its items, then those of its
    * close, and the run ends with the close's error or with "complete". */
  lemma CloseFacts<S>(head: seq<Event<S>>, usable: seq<S>, total: nat, noneMessage: string, running: string,
                      st: Stream, done: bool, id: string)
    requires usable == [] ==> !done
    ensures var events := head + CrossEvents(usable, total, noneMessage, running, st)
                          + (if done then [Complete(id)] else []);
      && head <= events
      && (usable == [] ==> events[|events| - 1] == Error(noneMessage))
      && (done ==> events[|events| - 1] == Complete(id))
  {
    var close := CrossEvents(usable, total, noneMessage, running, st);
    var events := head + close + (if done then [Complete(id)] else []);
    assert events[..|head|] == head;
  }

  /** The close of a run, up to saving: an error when no summary is usable,
    * otherwise a status, the chunks of the stream, and an error if the
    * stream broke off. The analysis is the concatenated chunks, and there
    * is none to save after an error. (`Keep` is empty exactly when no
    * summary is usable.) */
  method CrossAnalysis<S(!new)>(summaries: seq<S>, valid: S -> bool, total: nat, noneMessage: string,
                          running: string, stream: seq<S> -> Stream)
    returns (events: seq<Event<S>>, analysis: Option<string>)
    ensures Keep(summaries, valid) == [] ==> events == [Error(noneMessage)] && analysis.None?
    ensures Keep(summaries, valid) != [] ==>
      var st := stream(Keep(summaries, valid));
      && events == [Status(running, total, total)] + ChunkEvents(st.chunks)
                   + (if st.failure.Some? then [Error("Cross-analysis failed: " + st.failure.value)] else [])
      && (analysis.Some? <==> st.failure.None?)
      && (analysis.Some? ==> analysis.value == Concat(st.chunks))
    ensures events == CrossEvents(Keep(summaries, valid), total, noneMessage, running, stream(Keep(summaries, valid)))
  {
    var usable := Keep(summaries, valid);
    if usable == [] {
      return [Error(noneMessage)], None;
    }
    events := [Status(running, total, total)];
    var st := stream(usable);
    var text := "";
    for k := 0 to |st.chunks|
      invariant text == Concat(st.chunks[..k])
      invariant events == [Status(running, total, total)] + ChunkEvents(st.chunks[..k])
    {
      assert st.chunks[..k + 1][..k] == st.chunks[..k];
      text := text + st.chunks[k];
      events := events + [Chunk(st.chunks[k])];
    }
    assert st.chunks[..|st.chunks|] == st.chunks;
    if st.failure.Some? {
      events := events + [Error("Cross-analysis failed: " + st.failure.value)];
      analysis := None;
    } else {
      analysis := Some(text);
    }
  }
}
