/** The X research service around the bird command-line client: the
  * client's output read as posts or trends, and insights filed as table
  * rows under the sections of the trends notes. The client itself is a
  * parameter that answers with how its run ended. */
module BirdRunner {
  import opened Common

  /** A post. The text parser fills only the handle and the text; the other
    * fields keep their defaults. */
  datatype XPost = XPost(handle: string, text: string, likes: int, retweets: int, replies: int,
                         url: string, createdAt: string)

  datatype XTrend = XTrend(name: string, tweetCount: string)

  /** How a run of the client ended: with an exit code and its output, or
    * with an exception before that (timeout, missing binary). */
  datatype Outcome = Ran(returnCode: int, stdout: string, stderr: string) | Raised(message: string)

  /** What a research call answers. */
  datatype ResearchResult = ResearchResult(posts: seq<XPost>, trends: seq<XTrend>, rawOutput: string, error: string)

  // ---------------------------------------------------------------------
  // Running the client

  /** `check_bird_available` */
  function CheckAvailable(outcome: Outcome): (r: (bool, string))
    ensures r.0 <==> outcome.Ran? && outcome.returnCode == 0
    ensures outcome.Raised? ==> r.1 == ""
    ensures outcome.Ran? ==> r.1 == Strip(outcome.stdout)
  {
    if outcome.Raised? then (false, "") else (outcome.returnCode == 0, Strip(outcome.stdout))
  }

  /** `_run_bird`: the output of a successful run; a failed one raises with
    * its stripped error output, or with its exit code when that is blank. */
  function RunBird(outcome: Outcome): (r: Result<string>)
    ensures r.Ok? <==> outcome.Ran? && outcome.returnCode == 0
    ensures r.Ok? ==> r.value == outcome.stdout
    ensures outcome.Ran? && outcome.returnCode != 0 && Strip(outcome.stderr) == "" ==>
              r == Err("bird exited with code " + IntToString(outcome.returnCode))
    ensures outcome.Ran? && outcome.returnCode != 0 && Strip(outcome.stderr) != "" ==> r == Err(Strip(outcome.stderr))
    ensures outcome.Raised? ==> r == Err(outcome.message)
  {
    match outcome
    case Raised(m) => Err(m)
    case Ran(code, out, err) =>
      if code == 0 then Ok(out)
      else if Strip(err) != "" then Err(Strip(err))
      else Err("bird exited with code " + IntToString(code))
  }

  // ---------------------------------------------------------------------
  // Posts from plain text

  /** The post being read: the handle of its last "@" line, if any, and the
    * text so far (empty until a text line was read). */
  datatype Pending = Pending(handle: Option<string>, text: string)

  const Fresh := Pending(None, "")

  function PostOf(p: Pending): XPost
  {
    XPost(if p.handle.None? then "" else p.handle.value, p.text, 0, 0, 0, "", "")
  }

  /** The posts closed so far and the one being read. */
  datatype Parsed = Parsed(posts: seq<XPost>, pending: Pending)

  /** The effect of one more line: a blank line closes a post that has
    * text (and only then starts a fresh one); an "@" line sets the handle
    * to its first word; any other line starts the text or extends it after
    * a space. */
  function Step(st: Parsed, line: string): (r: Parsed)
  {
    var s := Strip(line);
    var p := st.pending;
    if s == "" then
      (if p.text != "" then Parsed(st.posts + [PostOf(p)], Fresh) else st)
    else if s[0] == '@' then Parsed(st.posts, p.(handle := Some(FirstRun(s))))
    else if p.text == "" then Parsed(st.posts, p.(text := s))
    else Parsed(st.posts, p.(text := p.text + " " + s))
  }

  /** The state after reading `lines` from the start. */
  function TextFold(lines: seq<string>): (r: Parsed)
    ensures forall k :: 0 <= k < |r.posts| ==> r.posts[k].text != ""
  {
    if lines == [] then Parsed([], Fresh) else Step(TextFold(lines[..|lines| - 1]), lines[|lines| - 1])
  }

  /** `_parse_posts_from_text`: the closed posts and the last one, if it
    * has text. */
  function TextPosts(raw: string): (r: seq<XPost>)
    ensures forall k :: 0 <= k < |r| ==> r[k].text != ""
    ensures var st := TextFold(SplitLines(raw));
            && st.posts <= r
            && (|r| == |st.posts| + 1 <==> st.pending.text != "")
            && (st.pending.text != "" ==> r[|r| - 1] == PostOf(st.pending))
  {
    var st := TextFold(SplitLines(raw));
    st.posts + (if st.pending.text != "" then [PostOf(st.pending)] else [])
  }

  /** `_parse_posts_from_text`, line by line with a current post. */
  method ParsePostsFromText(raw: string) returns (posts: seq<XPost>)
    ensures posts == TextPosts(raw)
  {
    var lines := SplitLines(raw);
    posts := [];
    var handle: Option<string> := None;
    var text := "";
    for i := 0 to |lines|
      invariant TextFold(lines[..i]) == Parsed(posts, Pending(handle, text))
    {
      assert lines[..i + 1][..i] == lines[..i];
      assert TextFold(lines[..i + 1]) == Step(TextFold(lines[..i]), lines[i]);
      var line := Strip(lines[i]);
      if line == "" {
        if text != "" {
          posts := posts + [PostOf(Pending(handle, text))];
          handle, text := None, "";
        }
      } else if line[0] == '@' {
        handle := Some(FirstRun(line));
      } else if text == "" {
        text := line;
      } else {
        text := text + " " + line;
      }
    }
    assert lines[..|lines|] == lines;
    if text != "" {
      posts := posts + [PostOf(Pending(handle, text))];
    }
  }

  /** A text line: stripped, not blank and not a handle line. */
  predicate TextLine(s: string)
  {
    s != "" && IsStripped(s) && s[0] != '@'
  }

  /** A text line starts the text or extends it after a space. */
  lemma StepText(st: Parsed, line: string)
    requires TextLine(line)
    ensures Step(st, line) == Parsed(st.posts, st.pending.(text := if st.pending.text == "" then line
                                                                   else st.pending.text + " " + line))
  {
    StripStripped(line);
  }

  lemma TextFoldSnoc(lines: seq<string>, line: string)
    ensures TextFold(lines + [line]) == Step(TextFold(lines), line)
  {
    assert (lines + [line])[..|lines|] == lines;
  }

  /** Text lines after a post without text join into its text, with single
    * spaces between them. */
  lemma {:induction false} TextLinesJoin(pre: seq<string>, body: seq<string>)
    requires TextFold(pre).pending.text == ""
    requires body != [] && forall k :: 0 <= k < |body| ==> TextLine(body[k])
    ensures TextFold(pre + body) == Parsed(TextFold(pre).posts, TextFold(pre).pending.(text := Join(body, " ")))
  {
    var n := |body| - 1;
    var init := pre + body[..n];
    var base := TextFold(pre);
    var st := TextFold(init);
    var goal := Parsed(base.posts, base.pending.(text := Join(body, " ")));
    assert TextFold(pre + body) == Step(st, body[n]) by {
      assert pre + body == init + [body[n]];
      TextFoldSnoc(init, body[n]);
    }
    if n == 0 {
      assert Step(st, body[n]) == goal by {
        assert init == pre;
        StepText(st, body[n]);
        assert Join(body, " ") == body[0];
      }
    } else {
      var joined := Join(body[..n], " ");
      assert st == Parsed(base.posts, base.pending.(text := joined)) by {
        TextLinesJoin(pre, body[..n]);
      }
      assert joined != "" by {
        JoinNotEmpty(body[..n]);
      }
      assert joined + " " + body[n] == Join(body, " ") by {
        JoinSnoc(body[..n], body[n], " ");
        assert body[..n] + [body[n]] == body;
      }
      assert Step(st, body[n]) == Parsed(st.posts, st.pending.(text := joined + " " + body[n])) by {
        StepText(st, body[n]);
      }
      assert st.pending.(text := joined + " " + body[n]) == base.pending.(text := Join(body, " "));
    }
  }

  /** A handle line, text lines and a blank line read as exactly one more
    * post, with the first word of the handle line as its handle and the
    * text lines joined by spaces as its text. */
  lemma PostBlock(pre: seq<string>, at: string, body: seq<string>)
    requires TextFold(pre).pending == Fresh
    requires IsStripped(at) && at != "" && at[0] == '@'
    requires body != [] && forall k :: 0 <= k < |body| ==> TextLine(body[k])
    ensures TextFold(pre + [at] + body + [""]) == Parsed(TextFold(pre).posts + [XPost(FirstRun(at), Join(body, " "), 0, 0, 0, "", "")], Fresh)
  {
    StripStripped(at);
    assert (pre + [at])[..|pre|] == pre;
    var head := TextFold(pre + [at]);
    assert head == Parsed(TextFold(pre).posts, Pending(Some(FirstRun(at)), ""));
    TextLinesJoin(pre + [at], body);
    var all := pre + [at] + body + [""];
    assert all[..|all| - 1] == pre + [at] + body;
    assert Join(body, " ") != "" by {
      JoinNotEmpty(body);
    }
  }

  lemma {:induction false} JoinNotEmpty(body: seq<string>)
    requires body != [] && body[0] != ""
    ensures Join(body, " ") != ""
  {
    if |body| > 1 {
      assert Join(body, " ") == body[0] + " " + Join(body[1..], " ");
    }
  }

  /** A blank line does not close a post without text: the handle read
    * before it stays for the text after it. */
  lemma HandleSurvivesBlank(pre: seq<string>, at: string)
    requires TextFold(pre).pending.text == ""
    requires IsStripped(at) && at != "" && at[0] == '@'
    ensures TextFold(pre + [at] + [""]).pending == Pending(Some(FirstRun(at)), "")
    ensures TextFold(pre + [at] + [""]).posts == TextFold(pre).posts
  {
    StripStripped(at);
    assert (pre + [at])[..|pre|] == pre;
    assert (pre + [at] + [""])[..|pre| + 1] == pre + [at];
  }

  // ---------------------------------------------------------------------
  // Posts from JSON

  /** An item of the JSON output: an object, with the fields the service
    * reads after its fallbacks (the counts as `int()` reads them, `None`
    * when that raises), or any other value. */
  datatype PostItem = PostObject(handle: string, text: string, likes: Option<int>, retweets: Option<int>,
                                 replies: Option<int>, url: string, createdAt: string)
                    | NotObject

  /** The decoded output: a list of items, an object (with its "posts" and
    * "results" lists when present, and itself as an item), or a scalar. */
  datatype BirdJson = JsonList(items: seq<PostItem>)
                    | JsonObject(posts: Option<seq<PostItem>>, results: Option<seq<PostItem>>, asItem: PostItem)
                    | JsonScalar

  /** The items the parser walks; a scalar has no `get`, which raises. */
  function ItemsOf(data: BirdJson): Option<seq<PostItem>>
  {
    match data
    case JsonList(items) => Some(items)
    case JsonObject(posts, results, self) =>
      if posts.Some? then posts else if results.Some? then results else Some([self])
    case JsonScalar => None
  }

  predicate Counted(item: PostItem)
  {
    item.PostObject? ==> item.likes.Some? && item.retweets.Some? && item.replies.Some?
  }

  /** The post of one item: one for an object, none otherwise. */
  function ItemPosts(it: PostItem): seq<XPost>
    requires Counted(it)
  {
    if it.NotObject? then []
    else [XPost(it.handle, it.text, it.likes.value, it.retweets.value, it.replies.value, it.url, it.createdAt)]
  }

  /** The posts of the object items, in order; non-objects are skipped. */
  function ObjectPosts(items: seq<PostItem>): (r: seq<XPost>)
    requires forall k :: 0 <= k < |items| ==> Counted(items[k])
    ensures |r| <= |items|
  {
    if items == [] then []
    else
      var n := |items| - 1;
      assert Counted(items[n]);
      ObjectPosts(items[..n]) + ItemPosts(items[n])
  }

  lemma ObjectPostsSnoc(items: seq<PostItem>, it: PostItem)
    requires forall k :: 0 <= k < |items| ==> Counted(items[k])
    requires Counted(it)
    ensures ObjectPosts(items + [it]) == ObjectPosts(items) + ItemPosts(it)
  {
    var all := items + [it];
    assert all[..|items|] == items;
    assert all[|items|] == it;
  }

  /** `_parse_posts_json` on decoded output: the posts of its object items,
    * or nothing (it raised) when the output is a scalar or some count
    * does not read as an integer. */
  function JsonPosts(data: BirdJson): (r: Option<seq<XPost>>)
    ensures r.Some? <==> ItemsOf(data).Some? && forall k :: 0 <= k < |ItemsOf(data).value| ==> Counted(ItemsOf(data).value[k])
  {
    var items := ItemsOf(data);
    if items.None? || exists k :: 0 <= k < |items.value| && !Counted(items.value[k]) then None
    else Some(ObjectPosts(items.value))
  }

  /** `_parse_posts_json`, item by item. */
  method ParsePostsJson(data: BirdJson) returns (posts: Option<seq<XPost>>)
    ensures posts == JsonPosts(data)
  {
    var items := ItemsOf(data);
    if items.None? {
      return None;
    }
    var found: seq<XPost> := [];
    for k := 0 to |items.value|
      invariant forall j :: 0 <= j < k ==> Counted(items.value[j])
      invariant found == ObjectPosts(items.value[..k])
    {
      var it := items.value[k];
      assert items.value[..k + 1][..k] == items.value[..k];
      if it.PostObject? {
        if it.likes.None? || it.retweets.None? || it.replies.None? {
          return None;
        }
        found := found + [XPost(it.handle, it.text, it.likes.value, it.retweets.value, it.replies.value, it.url, it.createdAt)];
      }
      assert found == ObjectPosts(items.value[..k]) + ItemPosts(it);
    }
    assert items.value[..|items.value|] == items.value;
    posts := Some(found);
  }

  /** Items that are not objects are ignored: dropping them changes nothing,
    * and there is one post per object. */
  lemma {:induction false} NonObjectsIgnored(items: seq<PostItem>)
    requires forall k :: 0 <= k < |items| ==> Counted(items[k])
    ensures ObjectPosts(items) == ObjectPosts(Objects(items))
    ensures |ObjectPosts(items)| == |Objects(items)|
  {
    if items != [] {
      var n := |items| - 1;
      var it := items[n];
      assert Counted(it);
      assert items == items[..n] + [it];
      NonObjectsIgnored(items[..n]);
      var objs := Objects(items[..n]);
      ObjectPostsSnoc(items[..n], it);
      if it.PostObject? {
        ObjectPostsSnoc(objs, it);
      } else {
        assert Objects(items) == objs;
      }
    }
  }

  /** The object items, in order. */
  function Objects(items: seq<PostItem>): (r: seq<PostItem>)
    ensures forall k :: 0 <= k < |r| ==> r[k].PostObject?
    ensures (forall k :: 0 <= k < |items| ==> Counted(items[k])) ==> forall k :: 0 <= k < |r| ==> Counted(r[k])
  {
    if items == [] then []
    else
      var n := |items| - 1;
      Objects(items[..n]) + (if items[n].PostObject? then [items[n]] else [])
  }

  // ---------------------------------------------------------------------
  // Research calls

  /** Posts of the output: the JSON reading when the output decodes and
    * that reading does not raise, the text reading otherwise. */
  function PostsOf(raw: string, decode: string -> Option<BirdJson>): seq<XPost>
  {
    var data := decode(raw);
    if data.Some? && JsonPosts(data.value).Some? then JsonPosts(data.value).value else TextPosts(raw)
  }

  /** The posts of a client run, or its error. */
  function PostsResult(outcome: Outcome, decode: string -> Option<BirdJson>): (r: ResearchResult)
    ensures RunBird(outcome).Err? ==> r == ResearchResult([], [], "", RunBird(outcome).error)
    ensures RunBird(outcome).Ok? ==> r.error == "" && r.rawOutput == outcome.stdout && r.trends == []
    ensures RunBird(outcome).Ok? ==>
              var data := decode(outcome.stdout);
              && (data.Some? && JsonPosts(data.value).Some? ==> r.posts == JsonPosts(data.value).value)
              && (!(data.Some? && JsonPosts(data.value).Some?) ==> r.posts == TextPosts(outcome.stdout))
  {
    var run := RunBird(outcome);
    if run.Err? then ResearchResult([], [], "", run.error)
    else ResearchResult(PostsOf(run.value, decode), [], run.value, "")
  }

  /** `search_posts` */
  function SearchPosts(query: string, count: nat, run: seq<string> -> Outcome, decode: string -> Option<BirdJson>): (r: ResearchResult)
    ensures r == PostsResult(run(["search", query, "--count", NatToString(count)]), decode)
  {
    PostsResult(run(["search", query, "--count", NatToString(count)]), decode)
  }

  /** `handle.lstrip("@")` */
  function TrimAts(handle: string): (r: string)
    ensures |r| <= |handle| && r == handle[|handle| - |r|..]
    ensures r == [] || r[0] != '@'
    ensures forall k :: 0 <= k < |handle| - |r| ==> handle[k] == '@'
  {
    if handle != [] && handle[0] == '@' then TrimAts(handle[1..]) else handle
  }

  /** `get_user_tweets`: the client asked for the handle without its "@"s. */
  function UserTweets(handle: string, count: nat, run: seq<string> -> Outcome, decode: string -> Option<BirdJson>): (r: ResearchResult)
    ensures exists ats :: (forall k :: 0 <= k < |ats| ==> ats[k] == '@') && handle == ats + TrimAts(handle)
    ensures r == PostsResult(run(["user", TrimAts(handle), "--count", NatToString(count)]), decode)
  {
    assert handle == handle[..|handle| - |TrimAts(handle)|] + TrimAts(handle);
    PostsResult(run(["user", TrimAts(handle), "--count", NatToString(count)]), decode)
  }

  /** An item of the decoded trends: an object (its name and count after
    * their fallbacks, the count as `str()` shows it), a plain string, or
    * anything else. */
  datatype TrendItem = TrendObject(name: string, tweetCount: string) | TrendName(text: string) | OtherTrend

  /** The decoded trends output: a list, an object with its "trends" list
    * (empty when absent), or a scalar, whose missing `get` raises. */
  datatype TrendsJson = TrendList(items: seq<TrendItem>) | TrendObjectOf(trends: seq<TrendItem>) | TrendScalar

  /** The trends of the JSON items: objects and strings, in order. */
  function JsonTrends(items: seq<TrendItem>): (r: seq<XTrend>)
    ensures |r| <= |items|
  {
    if items == [] then []
    else
      var n := |items| - 1;
      JsonTrends(items[..n])
      + match items[n]
        case TrendObject(name, count) => [XTrend(name, count)]
        case TrendName(text) => [XTrend(text, "")]
        case OtherTrend => []
  }

  predicate IsTrend(it: TrendItem)
  {
    !it.OtherTrend?
  }

  /** The trend an object or a string item gives. */
  function TrendOf(it: TrendItem): XTrend
    requires IsTrend(it)
  {
    if it.TrendObject? then XTrend(it.name, it.tweetCount) else XTrend(it.text, "")
  }

  /** Every object and string item gives its trend, in order; nothing else
    * does. */
  lemma {:induction false} JsonTrendsOfItems(items: seq<TrendItem>)
    ensures var ts := Filter(items, IsTrend);
            && (forall k :: 0 <= k < |ts| ==> IsTrend(ts[k]))
            && |JsonTrends(items)| == |ts|
            && forall k :: 0 <= k < |ts| ==> JsonTrends(items)[k] == TrendOf(ts[k])
  {
    FilterSubsequence(items, IsTrend);
    var ts := Filter(items, IsTrend);
    assert forall k :: 0 <= k < |ts| ==> ts[k] in ts;
    if items != [] {
      var n := |items| - 1;
      JsonTrendsOfItems(items[..n]);
      assert items == items[..n] + [items[n]];
      FilterAppend(items[..n], [items[n]], IsTrend);
      FilterOne(items[n], IsTrend);
    }
  }

  /** A line the text reading keeps as a trend: not blank once stripped and
    * not starting with "#", "-" or "=". */
  predicate TrendLine(s: string)
  {
    s != "" && s[0] != '#' && s[0] != '-' && s[0] != '='
  }

  /** The text reading: each kept line, stripped, is a trend name. */
  function TextTrends(lines: seq<string>): (r: seq<XTrend>)
    ensures forall k :: 0 <= k < |r| ==> TrendLine(r[k].name) && r[k].tweetCount == ""
  {
    if lines == [] then []
    else
      var n := |lines| - 1;
      var s := Strip(lines[n]);
      TextTrends(lines[..n]) + (if TrendLine(s) then [XTrend(s, "")] else [])
  }

  function StrippedLines(lines: seq<string>): (r: seq<string>)
    ensures |r| == |lines| && forall k :: 0 <= k < |lines| ==> r[k] == Strip(lines[k])
  {
    seq(|lines|, k requires 0 <= k < |lines| => Strip(lines[k]))
  }

  /** Every trend line, stripped, is kept as a trend name, in order. */
  lemma {:induction false} TextTrendsOfLines(lines: seq<string>)
    ensures var kept := Filter(StrippedLines(lines), TrendLine);
            && |TextTrends(lines)| == |kept|
            && forall k :: 0 <= k < |kept| ==> TextTrends(lines)[k] == XTrend(kept[k], "")
  {
    if lines != [] {
      var n := |lines| - 1;
      TextTrendsOfLines(lines[..n]);
      assert StrippedLines(lines) == StrippedLines(lines[..n]) + [Strip(lines[n])];
      FilterAppend(StrippedLines(lines[..n]), [Strip(lines[n])], TrendLine);
      FilterOne(Strip(lines[n]), TrendLine);
    }
  }

  /** `get_trending`: the trends of the JSON reading when the output
    * decodes to a list or an object, of the text reading otherwise. */
  function Trending(outcome: Outcome, decode: string -> Option<TrendsJson>): (r: ResearchResult)
    ensures RunBird(outcome).Err? ==> r == ResearchResult([], [], "", RunBird(outcome).error)
    ensures RunBird(outcome).Ok? ==> r.error == "" && r.posts == [] && r.rawOutput == outcome.stdout
    ensures RunBird(outcome).Ok? && (decode(outcome.stdout).None? || decode(outcome.stdout) == Some(TrendScalar)) ==>
              r.trends == TextTrends(SplitLines(outcome.stdout))
    ensures RunBird(outcome).Ok? && decode(outcome.stdout).Some? && decode(outcome.stdout).value.TrendList? ==>
              r.trends == JsonTrends(decode(outcome.stdout).value.items)
    ensures RunBird(outcome).Ok? && decode(outcome.stdout).Some? && decode(outcome.stdout).value.TrendObjectOf? ==>
              r.trends == JsonTrends(decode(outcome.stdout).value.trends)
  {
    var run := RunBird(outcome);
    if run.Err? then ResearchResult([], [], "", run.error)
    else
      var raw := run.value;
      var data := decode(raw);
      var trends :=
        match data
        case Some(TrendList(items)) => JsonTrends(items)
        case Some(TrendObjectOf(items)) => JsonTrends(items)
        case _ => TextTrends(SplitLines(raw));
      ResearchResult([], trends, raw, "")
  }

  // ---------------------------------------------------------------------
  // Filing an insight

  /** A request to file an insight. */
  datatype InsightRequest = InsightRequest(section: string, handle: string, text: string,
                                           likes: int, retweets: int, note: string)

  /** The answer: filed, or the error the service reports. */
  datatype SaveReply = Filed | NotFiled(error: string)

  /** A character made fit for a table cell. */
  function CellChar(c: char): char
  {
    if c == '|' then '/' else if c == '\n' then ' ' else c
  }

  /** A text made fit for a table cell: "|" becomes "/" and a line break
    * becomes a space. */
  function Cell(s: string): (r: string)
    ensures |r| == |s|
    ensures forall i :: 0 <= i < |r| ==> r[i] != '|' && r[i] != '\n'
    ensures forall i :: 0 <= i < |s| ==> r[i] == CellChar(s[i])
  {
    ReplaceChar(ReplaceChar(s, '|', '/'), '\n', ' ')
  }

  const ShortTextLength := 80

  /** The post text shown in a row: its first 80 characters, made fit for a
    * cell. */
  function ShortText(text: string): (r: string)
    ensures |r| <= ShortTextLength
    ensures |r| == if |text| < ShortTextLength then |text| else ShortTextLength
    ensures forall i :: 0 <= i < |r| ==> r[i] == CellChar(text[i])
    ensures forall i :: 0 <= i < |r| ==> r[i] != '|' && r[i] != '\n'
    ensures |text| <= ShortTextLength && (forall i :: 0 <= i < |text| ==> text[i] != '|' && text[i] != '\n') ==> r == text
  {
    var r := Cell(Take(text, ShortTextLength));
    assert |text| <= ShortTextLength && (forall i :: 0 <= i < |text| ==> text[i] != '|' && text[i] != '\n') ==> r == text by {
      if |text| <= ShortTextLength && (forall i :: 0 <= i < |text| ==> text[i] != '|' && text[i] != '\n') {
        assert Take(text, ShortTextLength) == text;
        assert ReplaceChar(text, '|', '/') == text;
      }
    }
    r
  }

  /** The heading that opens each known section. */
  function Marker(section: string): Option<string>
  {
    if section == "saved_posts" then Some("## Saved Posts")
    else if section == "trending_formats" then Some("## Trending Formats")
    else if section == "copy_patterns" then Some("## Copy Patterns")
    else if section == "engagement_targets" then Some("## Engagement Targets")
    else None
  }

  /** The engagement cell: likes and retweets, as in "12L/3RT". */
  function Engagement(req: InsightRequest): (r: string)
    ensures EndsWith(r, "RT")
  {
    IntToString(req.likes) + "L/" + IntToString(req.retweets) + "RT"
  }

  /** The row filed for a request in a known section, dated `today`: the
    * section's columns in order, the text shortened and the note made fit
    * for a cell. */
  function Row(req: InsightRequest, today: string): (r: string)
    requires Marker(req.section).Some?
    ensures req.section == "saved_posts" ==>
              r == "| " + (today + " | " + req.handle + " | " + ShortText(req.text) + " | " + IntToString(req.likes)
                           + " | " + IntToString(req.retweets) + " | " + Cell(req.note)) + " |"
    ensures req.section == "trending_formats" ==>
              r == "| " + (today + " | " + Cell(req.note) + " | " + ShortText(req.text) + " | | " + req.handle) + " |"
    ensures req.section == "copy_patterns" ==>
              r == "| " + (today + " | " + ShortText(req.text) + " | " + Engagement(req) + " | " + Cell(req.note)) + " |"
    ensures req.section == "engagement_targets" ==>
              r == "| " + (req.handle + " | | " + Engagement(req) + " | " + Cell(req.note)) + " |"
  {
    var short := ShortText(req.text);
    var note := Cell(req.note);
    if req.section == "saved_posts" then
      "| " + (today + " | " + req.handle + " | " + short + " | " + IntToString(req.likes) + " | "
              + IntToString(req.retweets) + " | " + note) + " |"
    else if req.section == "trending_formats" then
      "| " + (today + " | " + note + " | " + short + " | | " + req.handle) + " |"
    else if req.section == "copy_patterns" then
      "| " + (today + " | " + short + " | " + Engagement(req) + " | " + note) + " |"
    else
      "| " + (req.handle + " | | " + Engagement(req) + " | " + note) + " |"
  }

  /** How the scan of `save_insight` reads a line, stripped: it opens the
    * section, opens another section ("## "), belongs to the section's table
    * (a row or a blank line), or is anything else. The tests are made in the
    * scan's order, so a line opening the section counts as nothing else. */
  datatype LineKind = Opens | Heading | TableRow | Other

  function Kind(line: string, marker: string): (r: LineKind)
  {
    var s := Strip(line);
    if StartsWith(s, marker) then Opens
    else if StartsWith(s, "## ") then Heading
    else if StartsWith(s, "|") || s == "" then TableRow
    else Other
  }

  /** Every line of a file, read as the scan reads it. */
  function Kinds(lines: seq<string>, marker: string): (r: seq<LineKind>)
    ensures |r| == |lines|
    ensures forall k :: 0 <= k < |lines| ==> r[k] == Kind(lines[k], marker)
  {
    seq(|lines|, k requires 0 <= k < |lines| => Kind(lines[k], marker))
  }

  /** The scan of `save_insight` from line `i`, inside the section or not,
    * with the insertion index found so far. */
  function ScanFrom(kinds: seq<LineKind>, i: nat, inSection: bool, idx: Option<nat>): (r: Option<nat>)
    requires i <= |kinds|
    requires idx.Some? ==> idx.value <= |kinds|
    ensures r.Some? ==> r.value <= |kinds|
    decreases |kinds| - i
  {
    if i == |kinds| then idx
    else if kinds[i] == Opens then ScanFrom(kinds, i + 1, true, idx)
    else if inSection && kinds[i] == Heading then Some(i)
    else if inSection && kinds[i] == TableRow then ScanFrom(kinds, i + 1, true, Some(i + 1))
    else ScanFrom(kinds, i + 1, inSection, idx)
  }

  /** Where the row goes: as the scan found, at the end without a find. */
  function InsertIndex(lines: seq<string>, marker: string): (r: nat)
    ensures r <= |lines|
  {
    var idx := ScanFrom(Kinds(lines, marker), 0, false, None);
    if idx.None? then |lines| else idx.value
  }

  /** The first line from `i` that opens the section, or the end. */
  function FirstMarker(kinds: seq<LineKind>, i: nat): (r: nat)
    requires i <= |kinds|
    ensures i <= r <= |kinds|
    ensures r < |kinds| ==> kinds[r] == Opens
    ensures forall k :: i <= k < r ==> kinds[k] != Opens
    decreases |kinds| - i
  {
    if i == |kinds| then |kinds|
    else if kinds[i] == Opens then i
    else FirstMarker(kinds, i + 1)
  }

  /** The first line from `i` that opens another section, or the end. */
  function HeaderAfter(kinds: seq<LineKind>, i: nat): (r: nat)
    requires i <= |kinds|
    ensures i <= r <= |kinds|
    ensures r < |kinds| ==> kinds[r] == Heading
    ensures forall k :: i <= k < r ==> kinds[k] != Heading
    decreases |kinds| - i
  {
    if i == |kinds| then |kinds|
    else if kinds[i] == Heading then i
    else HeaderAfter(kinds, i + 1)
  }

  /** The last table row or blank line from `i` on, if any. */
  function LastTableLine(kinds: seq<LineKind>, i: nat): (r: Option<nat>)
    requires i <= |kinds|
    ensures r.Some? ==> i <= r.value < |kinds| && kinds[r.value] == TableRow
    ensures r.Some? ==> forall k :: r.value < k < |kinds| ==> kinds[k] != TableRow
    ensures r.None? ==> forall k :: i <= k < |kinds| ==> kinds[k] != TableRow
    decreases |kinds| - i
  {
    if i == |kinds| then None
    else
      var later := LastTableLine(kinds, i + 1);
      if later.Some? then later else if kinds[i] == TableRow then Some(i) else None
  }

  /** Where the row belongs: right before the next section's heading after
    * the section's own; without one, right after the last table row or
    * blank line after it; without either, or without the section, at the
    * end. */
  function Placement(lines: seq<string>, marker: string): (r: nat)
    ensures r <= |lines|
  {
    var kinds := Kinds(lines, marker);
    var m := FirstMarker(kinds, 0);
    if m == |kinds| then |kinds|
    else
      var h := HeaderAfter(kinds, m + 1);
      if h < |kinds| then h
      else
        var t := LastTableLine(kinds, m + 1);
        if t.Some? then t.value + 1 else |kinds|
  }

  /** Before the section: lines are passed over until its heading. */
  lemma {:induction false} ScanOutside(kinds: seq<LineKind>, i: nat)
    requires i <= |kinds|
    ensures var m := FirstMarker(kinds, i);
            ScanFrom(kinds, i, false, None)
            == if m == |kinds| then None else ScanFrom(kinds, m + 1, true, None)
    decreases |kinds| - i
  {
    if i < |kinds| && kinds[i] != Opens {
      ScanOutside(kinds, i + 1);
    }
  }

  /** Inside the section: the scan stops at the next heading, and otherwise
    * ends just after the last row or blank line. */
  lemma {:induction false} ScanInside(kinds: seq<LineKind>, i: nat, idx: Option<nat>)
    requires i <= |kinds| && (idx.Some? ==> idx.value <= |kinds|)
    ensures var h := HeaderAfter(kinds, i);
            var t := LastTableLine(kinds, i);
            ScanFrom(kinds, i, true, idx)
            == if h < |kinds| then Some(h) else if t.Some? then Some(t.value + 1) else idx
    decreases |kinds| - i
  {
    if i < |kinds| {
      if kinds[i] == TableRow {
        ScanInside(kinds, i + 1, Some(i + 1));
      } else if kinds[i] != Heading {
        ScanInside(kinds, i + 1, idx);
      }
    }
  }

  /** The scan puts the row where `Placement` says. */
  lemma InsertIndexPlacement(lines: seq<string>, marker: string)
    ensures InsertIndex(lines, marker) == Placement(lines, marker)
  {
    var kinds := Kinds(lines, marker);
    ScanOutside(kinds, 0);
    var m := FirstMarker(kinds, 0);
    if m < |kinds| {
      ScanInside(kinds, m + 1, None);
    }
  }

  lemma IntToStringOneLine(n: int)
    ensures '\n' !in IntToString(n)
  {
    var digits := NatToString(if n < 0 then -n else n);
    assert '\n' !in digits by {
      forall k | 0 <= k < |digits| ensures digits[k] != '\n' {
        assert '0' <= digits[k] <= '9';
      }
    }
  }

  /** Every row opens with "| " and closes with " |", as the table's rows do. */
  lemma RowFrame(req: InsightRequest, today: string)
    requires Marker(req.section).Some?
    ensures StartsWith(Row(req, today), "| ") && EndsWith(Row(req, today), " |")
  {
    var short := ShortText(req.text);
    var note := Cell(req.note);
    if req.section == "saved_posts" {
      FramedBy("| ", today + " | " + req.handle + " | " + short + " | " + IntToString(req.likes) + " | "
                     + IntToString(req.retweets) + " | " + note, " |");
    } else if req.section == "trending_formats" {
      FramedBy("| ", today + " | " + note + " | " + short + " | | " + req.handle, " |");
    } else if req.section == "copy_patterns" {
      FramedBy("| ", today + " | " + short + " | " + Engagement(req) + " | " + note, " |");
    } else {
      FramedBy("| ", req.handle + " | | " + Engagement(req) + " | " + note, " |");
    }
  }

  /** A row is one line of the file as long as the handle and the date are:
    * the text and the note are cleaned of line breaks, the handle is not. */
  lemma RowOneLine(req: InsightRequest, today: string)
    requires Marker(req.section).Some?
    requires '\n' !in req.handle && '\n' !in today
    ensures '\n' !in Row(req, today)
  {
    IntToStringOneLine(req.likes);
    IntToStringOneLine(req.retweets);
    var short := ShortText(req.text);
    var note := Cell(req.note);
    assert '\n' !in short && '\n' !in note;
  }

  /** Read back as lines, a file written as `save_insight` writes it is the
    * old file with exactly one line inserted at the index; with `RowOneLine`
    * this holds for the row it files. */
  lemma LineInserted(lines: seq<string>, idx: nat, line: string)
    requires idx <= |lines|
    requires forall k :: 0 <= k < |lines| ==> '\n' !in lines[k]
    requires '\n' !in line
    ensures var back := Split(Join(lines[..idx] + [line] + lines[idx..], "\n"), '\n');
            && |back| == |lines| + 1
            && back[..idx] == lines[..idx]
            && back[idx] == line
            && back[idx + 1..] == lines[idx..]
  {
    var parts := lines[..idx] + [line] + lines[idx..];
    assert forall k :: 0 <= k < |parts| ==> '\n' !in parts[k] by {
      forall k | 0 <= k < |parts| ensures '\n' !in parts[k] {
        if k < idx { assert parts[k] == lines[k]; }
        else if k > idx { assert parts[k] == lines[k - 1]; }
      }
    }
    SplitJoin(parts, '\n');
    assert parts[..idx] == lines[..idx];
    assert parts[idx + 1..] == lines[idx..];
  }

  /** The scan of `save_insight`, with its `in_section` flag and its early
    * exit at the next section. */
  method FindInsertIndex(lines: seq<string>, marker: string) returns (insertIdx: nat)
    ensures insertIdx == InsertIndex(lines, marker)
  {
    ghost var kinds := Kinds(lines, marker);
    ghost var whole := ScanFrom(kinds, 0, false, None);
    var idx: Option<nat> := None;
    var inSection := false;
    var i := 0;
    while i < |lines|
      invariant i <= |lines|
      invariant idx.Some? ==> idx.value <= |lines|
      invariant ScanFrom(kinds, i, inSection, idx) == whole
    {
      var kind := Kind(lines[i], marker);
      assert kind == kinds[i];
      if kind == Opens {
        inSection := true;
      } else if inSection {
        if kind == Heading {
          assert ScanFrom(kinds, i, inSection, idx) == Some(i);
          return i;
        }
        if kind == TableRow {
          idx := Some(i + 1);
        }
      }
      i := i + 1;
    }
    insertIdx := if idx.None? then |lines| else idx.value;
  }

  /** `save_insight`: the reply, and the new text of the trends notes when
    * they are written. `file` is their text, `None` when missing. */
  method SaveInsight(file: Option<string>, req: InsightRequest, today: string) returns (reply: SaveReply, written: Option<string>)
    ensures file.None? ==> reply == NotFiled("memory/x-trends.md not found") && written.None?
    ensures file.Some? && Marker(req.section).None? ==>
              reply == NotFiled("Unknown section: " + req.section) && written.None?
    ensures file.Some? && Marker(req.section).Some? ==>
              var lines := Split(file.value, '\n');
              var idx := InsertIndex(lines, Marker(req.section).value);
              && reply == Filed
              && written == Some(Join(lines[..idx] + [Row(req, today)] + lines[idx..], "\n"))
  {
    if file.None? {
      return NotFiled("memory/x-trends.md not found"), None;
    }
    var marker := Marker(req.section);
    if marker.None? {
      return NotFiled("Unknown section: " + req.section), None;
    }
    var row := Row(req, today);
    var lines := Split(file.value, '\n');
    var idx := FindInsertIndex(lines, marker.value);
    lines := lines[..idx] + [row] + lines[idx..];
    return Filed, Some(Join(lines, "\n"));
  }
}
