/** The Reddit research service: searching threads, reading a thread's
  * top comments, and the research run that summarises each selected thread
  * and then analyses them together. The HTTP requests, the language model
  * and the clock are parameters. */
module RedditResearch {
  import opened Common
  import opened Sorting
  import opened Research

  // ---------------------------------------------------------------------
  // Search
  // ---------------------------------------------------------------------

  /** One of the characters of `lstrip("r/")`'s argument. */
  predicate RorSlash(c: char)
  {
    c == 'r' || c == '/'
  }

  /** `s.lstrip("r/")`: every leading 'r' and '/' is removed, whatever
    * order they come in. */
  function TrimRorSlash(s: string): (r: string)
    ensures |r| <= |s| && r == s[|s| - |r|..]
    ensures forall k :: 0 <= k < |s| - |r| ==> RorSlash(s[k])
    ensures r == [] || !RorSlash(r[0])
  {
    if s != [] && RorSlash(s[0]) then
      var r := TrimRorSlash(s[1..]);
      TrimRorSlashStep(s, r);
      r
    else s
  }

  /** A leading 'r' or '/' joins the characters `TrimRorSlash` drops. */
  lemma TrimRorSlashStep(s: string, r: string)
    requires s != [] && RorSlash(s[0])
    requires |r| <= |s| - 1 && r == s[1..][|s| - 1 - |r|..]
    requires forall k :: 0 <= k < |s| - 1 - |r| ==> RorSlash(s[1..][k])
    ensures r == s[|s| - |r|..]
    ensures forall k :: 0 <= k < |s| - |r| ==> RorSlash(s[k])
  {
    forall k | 0 < k < |s| - |r|
      ensures RorSlash(s[k])
    {
      assert s[k] == s[1..][k - 1];
    }
  }

  /** The subreddit name as `search_reddit` writes it: stripped, then
    * `lstrip("r/")`, which removes a leading run of 'r' and '/' characters
    * rather than the prefix "r/". */
  function SubredditAsWritten(sub: string): (r: string)
    ensures |r| <= |Strip(sub)|
    ensures r == [] || !RorSlash(r[0])
  {
    TrimRorSlash(Strip(sub))
  }

  /** A subreddit whose name starts with "r" loses that letter, with or
    * without the "r/" prefix. */
  lemma AsWrittenDropsLetter()
    ensures SubredditAsWritten("rust") == "ust"
    ensures SubredditAsWritten("r/rust") == "ust"
  {
    StripRust();
    TrimRust();
    TrimPrefixedRust();
  }

  lemma StripRust()
    ensures Strip("rust") == "rust" && Strip("r/rust") == "r/rust"
  {
    assert IsStripped("rust");
    StripStripped("rust");
    assert IsStripped("r/rust");
    StripStripped("r/rust");
  }

  lemma TrimRust()
    ensures TrimRorSlash("rust") == "ust"
  {
    assert "rust"[1..] == "ust";
    assert TrimRorSlash("ust") == "ust";
  }

  lemma TrimPrefixedRust()
    ensures TrimRorSlash("r/rust") == "ust"
  {
    assert "r/rust"[1..] == "/rust";
    assert "/rust"[1..] == "rust";
    TrimRust();
  }

  /** `s.removeprefix("r/")` */
  function DropPrefix(s: string): (r: string)
    ensures |r| <= |s| && r == s[|s| - |r|..]
  {
    if StartsWith(s, "r/") then s[2..] else s
  }

  /** The evidently intended normalisation: stripped, then the prefix "r/"
    * removed when present. */
  function SubredditName(sub: string): (r: string)
    ensures |r| <= |Strip(sub)|
  {
    DropPrefix(Strip(sub))
  }

  /** Both spellings of a subreddit name the same subreddit, and a plain
    * name is kept whole. */
  lemma SubredditNameKeepsName(name: string)
    requires name != [] && IsStripped(name) && !StartsWith(name, "r/")
    ensures SubredditName(name) == name
    ensures SubredditName("r/" + name) == name
  {
    PlainName(name);
    PrefixedName(name);
  }

  lemma PlainName(name: string)
    requires IsStripped(name) && !StartsWith(name, "r/")
    ensures SubredditName(name) == name
  {
    StripStripped(name);
  }

  lemma PrefixedName(name: string)
    requires name != [] && IsStripped(name)
    ensures SubredditName("r/" + name) == name
  {
    PrefixedStripped(name);
    DropPrefixOf(name);
  }

  lemma DropPrefixOf(name: string)
    ensures DropPrefix("r/" + name) == name
  {
    var s := "r/" + name;
    assert s[..2] == "r/";
    assert s[2..] == name;
  }

  lemma PrefixedStripped(name: string)
    requires name != [] && IsStripped(name)
    ensures Strip("r/" + name) == "r/" + name
  {
    var s := "r/" + name;
    assert s[0] == 'r';
    assert s[|s| - 1] == name[|name| - 1];
    assert IsStripped(s);
    StripStripped(s);
  }

  /** A search listing child: the post fields, `None` where the key is
    * absent or null. */
  datatype Post = Post(id: Option<string>, title: Option<string>, subreddit: Option<string>,
                       score: Option<int>, numComments: Option<int>, permalink: Option<string>,
                       createdUtc: Option<int>, isSelf: Option<bool>, selftext: Option<string>,
                       url: Option<string>)

  datatype Thread = Thread(threadId: string, title: string, subreddit: string, score: int,
                           numComments: int, permalink: string, createdUtc: int,
                           selftextPreview: string, url: string)

  function GetOr<T>(x: Option<T>, default: T): T
  {
    if x.Some? then x.value else default
  }

  /** A link post without text is previewed as its link; any other post by
    * the first 300 characters of its text. */
  function Preview(p: Post): (r: string)
    ensures p.isSelf == Some(false) && !Given(p.selftext) ==> r == "[Link: " + GetOr(p.url, "") + "]"
    ensures !(p.isSelf == Some(false) && !Given(p.selftext)) ==>
              && |r| == (if |GetOr(p.selftext, "")| < 300 then |GetOr(p.selftext, "")| else 300)
              && StartsWith(GetOr(p.selftext, ""), r)
  {
    if p.isSelf == Some(false) && !Given(p.selftext) then "[Link: " + GetOr(p.url, "") + "]"
    else Take(GetOr(p.selftext, ""), 300)
  }

  function ThreadOf(p: Post): Thread
  {
    Thread(GetOr(p.id, ""), GetOr(p.title, ""), GetOr(p.subreddit, ""), GetOr(p.score, 0),
           GetOr(p.numComments, 0), GetOr(p.permalink, ""), GetOr(p.createdUtc, 0), Preview(p),
           GetOr(p.url, ""))
  }

  /** One thread per post, in order. */
  function ThreadsOf(posts: seq<Post>): (r: seq<Thread>)
    ensures |r| == |posts|
    ensures forall k :: 0 <= k < |r| ==> r[k] == ThreadOf(posts[k])
  {
    if posts == [] then [] else ThreadsOf(posts[..|posts| - 1]) + [ThreadOf(posts[|posts| - 1])]
  }

  /** A search request: the endpoint and its query parameters;
    * `restrictSr` is the "restrict_sr" parameter of a subreddit search. */
  datatype Request = Request(url: string, query: string, timeFilter: string, limit: int, restrictSr: bool)

  /** A search response: the status, and the posts of `data.children`
    * (`None` when the body is not JSON). */
  datatype SearchResponse = SearchResponse(status: int, posts: Option<seq<Post>>)

  /** What `_fetch_search_results` returns or raises. */
  function SearchResults(resp: SearchResponse): (r: Result<seq<Thread>>)
    ensures resp.status == 429 ==> r == Err("Reddit rate limited, try again in a minute")
    ensures r.Ok? <==> resp.status != 429 && resp.status < 400 && resp.posts.Some?
    ensures r.Ok? ==> r.value == ThreadsOf(resp.posts.value)
  {
    if resp.status == 429 then Err("Reddit rate limited, try again in a minute")
    else if resp.status >= 400 then Err("HTTP error")
    else if resp.posts.None? then Err("invalid JSON")
    else Ok(ThreadsOf(resp.posts.value))
  }

  /** `_fetch_search_results`: the loop over the listing's children. */
  method FetchSearchResults(resp: SearchResponse) returns (r: Result<seq<Thread>>)
    ensures r == SearchResults(resp)
  {
    if resp.status == 429 {
      return Err("Reddit rate limited, try again in a minute");
    }
    if resp.status >= 400 {
      return Err("HTTP error");
    }
    if resp.posts.None? {
      return Err("invalid JSON");
    }
    var posts := resp.posts.value;
    var threads: seq<Thread> := [];
    for i := 0 to |posts|
      invariant threads == ThreadsOf(posts[..i])
    {
      assert posts[..i + 1][..i] == posts[..i];
      threads := threads + [ThreadOf(posts[i])];
    }
    assert posts[..|posts|] == posts;
    return Ok(threads);
  }

  /** The request for one subreddit. */
  function SubredditRequest(sub: string, query: string, timeFilter: string, limit: int): Request
  {
    Request("https://www.reddit.com/r/" + SubredditName(sub) + "/search.json", query, timeFilter, limit, true)
  }

  /** The threads of the subreddit searches, in order, after those already
    * found; the first failing search ends the whole search with its error. */
  function Gathered(subs: seq<string>, found: seq<Thread>, query: string, timeFilter: string, limit: int,
                    fetch: Request -> SearchResponse): (r: Result<seq<Thread>>)
    ensures r.Ok? ==> found <= r.value
  {
    if subs == [] then Ok(found)
    else
      var more := SearchResults(fetch(SubredditRequest(subs[0], query, timeFilter, limit)));
      if more.Err? then more else Gathered(subs[1..], found + more.value, query, timeFilter, limit, fetch)
  }

  function Score(t: Thread): int
  {
    t.score
  }

  /** Python's `s[:n]` for any integer `n`. */
  function SliceTo<T>(s: seq<T>, n: int): (r: seq<T>)
    ensures r <= s
    ensures n >= 0 ==> |r| == if n < |s| then n else |s|
  {
    if n >= |s| then s
    else if n >= 0 then s[..n]
    else if -n >= |s| then []
    else s[..|s| + n]
  }

  datatype Listing = Listing(query: string, threads: seq<Thread>)

  /** `search_reddit`: the threads of every given subreddit, or of all of
    * Reddit when none is given, highest score first, cut to `limit`. */
  method SearchReddit(query: string, subreddits: seq<string>, timeFilter: string, limit: int,
                      fetch: Request -> SearchResponse) returns (r: Result<Listing>)
    ensures subreddits == [] ==>
      var all := SearchResults(fetch(Request("https://www.reddit.com/search.json", query, timeFilter, limit, false)));
      && (all.Err? ==> r == Err(all.error))
      && (all.Ok? ==> r == Ok(Listing(query, SliceTo(SortDesc(all.value, Score), limit))))
    ensures subreddits != [] ==>
      var all := Gathered(subreddits, [], query, timeFilter, limit, fetch);
      && (all.Err? ==> r == Err(all.error))
      && (all.Ok? ==> r == Ok(Listing(query, SliceTo(SortDesc(all.value, Score), limit))))
  {
    var threads: seq<Thread> := [];
    if subreddits != [] {
      for i := 0 to |subreddits|
        invariant Gathered(subreddits[i..], threads, query, timeFilter, limit, fetch)
                  == Gathered(subreddits, [], query, timeFilter, limit, fetch)
      {
        var found := FetchSearchResults(fetch(SubredditRequest(subreddits[i], query, timeFilter, limit)));
        assert subreddits[i..][1..] == subreddits[i + 1..];
        if found.Err? {
          return Err(found.error);
        }
        threads := threads + found.value;
      }
    } else {
      var found := FetchSearchResults(fetch(Request("https://www.reddit.com/search.json", query, timeFilter, limit, false)));
      if found.Err? {
        return Err(found.error);
      }
      threads := found.value;
    }
    return Ok(Listing(query, SliceTo(SortDesc(threads, Score), limit)));
  }

  /** The listing is highest score first, holds at most `limit` threads
    * for a non-negative limit, and holds only threads the searches
    * returned. */
  lemma SearchListingShape(threads: seq<Thread>, limit: int)
    ensures var r := SliceTo(SortDesc(threads, Score), limit);
      && SortedDesc(r, Score)
      && (limit >= 0 ==> |r| <= limit)
      && multiset(r) <= multiset(threads)
  {
    var sorted := SortDesc(threads, Score);
    var r := SliceTo(sorted, limit);
    assert sorted == r + sorted[|r|..];
    assert multiset(sorted) == multiset(r) + multiset(sorted[|r|..]);
  }

  // ---------------------------------------------------------------------
  // Thread comments
  // ---------------------------------------------------------------------

  /** A child of the comment listing: its "kind" and its "body". */
  datatype Child = Child(kind: Option<string>, body: Option<string>)

  /** The comment request's outcome: a failure before any status (network,
    * timeout), or a status and the body, which is either not JSON, a JSON
    * value that is not a list, or a list of listings given by their
    * children. */
  datatype CommentsBody = NotJson | NotAList | Listings(items: seq<seq<Child>>)
  datatype CommentsResponse = NoResponse | CommentsReply(status: int, body: CommentsBody)

  const RateLimitedComment := "[Rate limited \U{2014} could not fetch comments]"

  /** A comment worth keeping: present, not empty, not deleted or removed. */
  predicate Keepable(c: Child)
  {
    c.kind == Some("t1") && Given(c.body) && c.body.value != "[deleted]" && c.body.value != "[removed]"
  }

  /** The keepable comments of the children, each cut to 1000 characters. */
  function KeptComments(children: seq<Child>): (r: seq<string>)
    ensures forall k :: 0 <= k < |r| ==> 0 < |r[k]| <= 1000 && r[k] != "[deleted]" && r[k] != "[removed]"
  {
    if children == [] then []
    else
      var n := |children| - 1;
      var c := children[n];
      KeptComments(children[..n]) + (if Keepable(c) then [Take(c.body.value, 1000)] else [])
  }

  /** Reading more children only extends the kept comments. */
  lemma {:induction false} KeptPrefix(children: seq<Child>, i: nat)
    requires i <= |children|
    ensures KeptComments(children[..i]) <= KeptComments(children)
    decreases |children| - i
  {
    if i < |children| {
      var n := |children| - 1;
      assert children[..n][..i] == children[..i];
      KeptPrefix(children[..n], i);
      assert children[..|children|] == children;
    } else {
      assert children[..i] == children;
    }
  }

  /** The kept comments are the keepable children, in order and each one
    * as often as it occurs, with their bodies cut to 1000 characters. */
  lemma {:induction false} KeptAreKeepableBodies(children: seq<Child>)
    ensures var keep := Filter(children, Keepable);
            && (forall k :: 0 <= k < |keep| ==> Keepable(keep[k]))
            && |KeptComments(children)| == |keep|
            && forall k :: 0 <= k < |keep| ==> KeptComments(children)[k] == Take(keep[k].body.value, 1000)
  {
    FilterSubsequence(children, Keepable);
    var keep := Filter(children, Keepable);
    assert forall k :: 0 <= k < |keep| ==> keep[k] in keep;
    if children != [] {
      var n := |children| - 1;
      var init := children[..n];
      var c := children[n];
      KeptAreKeepableBodies(init);
      assert children == init + [c];
      FilterAppend(init, [c], Keepable);
      FilterOne(c, Keepable);
    }
  }

  /** The comments the research run reads for a thread: those of
    * `fetch_thread_comments` with its default limit of 20. */
  function CommentsOf(resp: CommentsResponse): (r: seq<string>)
    ensures |r| <= 20
  {
    if resp.NoResponse? then []
    else if resp.status == 429 then [RateLimitedComment]
    else if resp.status >= 400 || !resp.body.Listings? || |resp.body.items| < 2 then []
    else
      var all := KeptComments(resp.body.items[1]);
      all[..if 20 < |all| then 20 else |all|]
  }

  /** `fetch_thread_comments`: a placeholder when rate limited, nothing on
    * any failure or unexpected payload; otherwise the keepable comments of
    * the second listing, in order, stopping as soon as `limit` are kept
    * (the count is checked after each comment child, so a limit below one
    * still admits the first). */
  method FetchThreadComments(resp: CommentsResponse, limit: int) returns (comments: seq<string>)
    ensures resp.NoResponse? ==> comments == []
    ensures resp.CommentsReply? && resp.status == 429 ==> comments == [RateLimitedComment]
    ensures resp.CommentsReply? && resp.status != 429 && (resp.status >= 400 || !resp.body.Listings? || |resp.body.items| < 2)
            ==> comments == []
    ensures resp.CommentsReply? && resp.status != 429 && resp.status < 400 && resp.body.Listings? && |resp.body.items| >= 2 ==>
      var all := KeptComments(resp.body.items[1]);
      && comments <= all
      && (limit >= 1 ==> comments == all[..if limit < |all| then limit else |all|])
      && (limit < 1 ==> |comments| <= 1)
  {
    if resp.NoResponse? {
      return [];
    }
    if resp.status == 429 {
      return [RateLimitedComment];
    }
    if resp.status >= 400 || !resp.body.Listings? || |resp.body.items| < 2 {
      return [];
    }
    var children := resp.body.items[1];
    comments := [];
    var i := 0;
    while i < |children|
      invariant 0 <= i <= |children|
      invariant comments == KeptComments(children[..i])
      invariant limit >= 1 ==> |comments| < limit
      invariant limit < 1 ==> comments == [] && forall k :: 0 <= k < i ==> children[k].kind != Some("t1")
    {
      assert children[..i + 1][..i] == children[..i];
      var c := children[i];
      if c.kind != Some("t1") {
        i := i + 1;
        continue;
      }
      if Keepable(c) {
        comments := comments + [Take(c.body.value, 1000)];
      }
      if |comments| >= limit {
        KeptPrefix(children, i + 1);
        return;
      }
      i := i + 1;
    }
    assert children[..i] == children;
  }

  // ---------------------------------------------------------------------
  // The research run
  // ---------------------------------------------------------------------

  /** A selected thread as the request gives it: `None` where a key is
    * absent. */
  datatype ThreadRef = ThreadRef(threadId: Option<string>, title: Option<string>, subreddit: Option<string>,
                                 permalink: Option<string>, selftextPreview: Option<string>)

  datatype ThreadSummary = ThreadSummary(threadId: string, title: string, subreddit: string,
                                         summary: Option<string>, keyPoints: seq<string>,
                                         sentiment: Option<string>, error: Option<string>)

  /** `s.get("summary")` is truthy. */
  predicate Usable(s: ThreadSummary)
  {
    Given(s.summary)
  }

  /** The comments shown to the model: at most the first 15, separated by
    * "\n---\n". */
  function CommentsText(comments: seq<string>): (r: string)
    ensures |comments| <= 15 ==> r == Join(comments, "\n---\n")
    ensures |comments| > 15 ==> r == Join(comments[..15], "\n---\n")
  {
    Join(if |comments| <= 15 then comments else comments[..15], "\n---\n")
  }

  /** The summary of one thread, given its comments. */
  function SummarizeThread(i: nat, t: ThreadRef, comments: seq<string>,
                           ask: (ThreadRef, string) -> Answer, parse: string -> Option<Reply>): (r: ThreadSummary)
    ensures r.threadId == GetOr(t.threadId, NatToString(i)) && r.title == GetOr(t.title, "Untitled")
    ensures comments == [] ==> r.error == Some("No comments available") && !Usable(r)
    ensures Usable(r) ==> r.error.None? && comments != []
    ensures comments != [] && ask(t, CommentsText(comments)).Answered? ==>
      var raw := ask(t, CommentsText(comments)).raw;
      ExtractJson(raw, parse).None? ==> r.summary == Some(raw) && r.error.None?
    ensures comments != [] && ask(t, CommentsText(comments)).Raised? ==>
      r.error == Some("Summarization failed: " + ask(t, CommentsText(comments)).message) && !Usable(r)
    ensures comments != [] && ask(t, CommentsText(comments)).Answered? ==>
      var raw := ask(t, CommentsText(comments)).raw;
      var d := DigestOf(raw, ExtractJson(raw, parse));
      && (d.Err? ==> r.error == Some("Summarization failed: " + d.error) && !Usable(r))
      && (d.Ok? ==> r.error.None? && r.summary == d.value.summary && r.keyPoints == d.value.keyPoints
                    && r.sentiment == d.value.sentiment)
    ensures comments != [] && ask(t, CommentsText(comments)).Answered? ==>
      var parsed := ExtractJson(ask(t, CommentsText(comments)).raw, parse);
      parsed.Some? && parsed.value.NotObject? ==>
        r.error == Some("Summarization failed: " + ("'" + parsed.value.typeName + "' object has no attribute 'get'"))
  {
    var id := GetOr(t.threadId, NatToString(i));
    var title := GetOr(t.title, "Untitled");
    var sub := GetOr(t.subreddit, "");
    if comments == [] then ThreadSummary(id, title, sub, None, [], None, Some("No comments available"))
    else
      match ask(t, CommentsText(comments))
      case Raised(m) => ThreadSummary(id, title, sub, None, [], None, Some("Summarization failed: " + m))
      case Answered(raw) =>
        match DigestOf(raw, ExtractJson(raw, parse))
        case Err(m) => ThreadSummary(id, title, sub, None, [], None, Some("Summarization failed: " + m))
        case Ok(d) => ThreadSummary(id, title, sub, d.summary, d.keyPoints, d.sentiment, None)
  }

  /** The events of the thread at position `i`. */
  function ThreadEvents(i: nat, total: nat, s: ThreadSummary, hasComments: bool): (r: seq<Event<ThreadSummary>>)
    ensures |r| >= 2
    ensures r[0] == Status("Fetching comments for: " + s.title, i, total)
    ensures r[|r| - 1] == (if hasComments then ItemSummary(s) else ItemError(s.threadId, s.title))
  {
    [Status("Fetching comments for: " + s.title, i, total)]
      + (if !hasComments then [ItemError(s.threadId, s.title)]
         else [Status("Summarizing: " + s.title, i, total), ItemSummary(s)])
  }

  /** The summaries of the threads, in order; `respond` answers the
    * comment request of a permalink. */
  function SummariesOf(threads: seq<ThreadRef>, respond: string -> CommentsResponse,
                       ask: (ThreadRef, string) -> Answer, parse: string -> Option<Reply>): (r: seq<ThreadSummary>)
    ensures |r| == |threads|
    ensures forall k :: 0 <= k < |threads| ==>
              r[k] == SummarizeThread(k, threads[k], CommentsOf(respond(GetOr(threads[k].permalink, ""))), ask, parse)
  {
    if threads == [] then []
    else
      var n := |threads| - 1;
      SummariesOf(threads[..n], respond, ask, parse)
        + [SummarizeThread(n, threads[n], CommentsOf(respond(GetOr(threads[n].permalink, ""))), ask, parse)]
  }

  /** The events of all threads, in order. */
  function AllThreadEvents(threads: seq<ThreadRef>, total: nat, respond: string -> CommentsResponse,
                           ask: (ThreadRef, string) -> Answer, parse: string -> Option<Reply>): seq<Event<ThreadSummary>>
  {
    if threads == [] then []
    else
      var n := |threads| - 1;
      var comments := CommentsOf(respond(GetOr(threads[n].permalink, "")));
      AllThreadEvents(threads[..n], total, respond, ask, parse)
        + ThreadEvents(n, total, SummarizeThread(n, threads[n], comments, ask, parse), comments != [])
  }

  /** The per-thread loop of `run_reddit_analysis`. */
  method SummarizeThreads(threads: seq<ThreadRef>, respond: string -> CommentsResponse,
                          ask: (ThreadRef, string) -> Answer, parse: string -> Option<Reply>)
    returns (summaries: seq<ThreadSummary>, events: seq<Event<ThreadSummary>>)
    ensures summaries == SummariesOf(threads, respond, ask, parse)
    ensures events == AllThreadEvents(threads, |threads|, respond, ask, parse)
  {
    summaries := [];
    events := [];
    var total := |threads|;
    for i := 0 to total
      invariant summaries == SummariesOf(threads[..i], respond, ask, parse)
      invariant events == AllThreadEvents(threads[..i], total, respond, ask, parse)
    {
      assert threads[..i + 1][..i] == threads[..i];
      var t := threads[i];
      var comments := FetchThreadComments(respond(GetOr(t.permalink, "")), 20);
      assert comments == CommentsOf(respond(GetOr(t.permalink, "")));
      var s := SummarizeThread(i, t, comments, ask, parse);
      events := events + ThreadEvents(i, total, s, comments != []);
      summaries := summaries + [s];
    }
    assert threads[..total] == threads;
  }

  datatype SavedThreads = SavedThreads(id: string, query: string, channelName: string, createdAt: string,
                                       threadSummaries: seq<ThreadSummary>, crossAnalysis: string)

  /** `run_reddit_analysis`: without an API key a single error. Otherwise
    * the events of each thread, then the cross-analysis; the research is
    * saved under the name "Reddit: <query>", and announced as complete,
    * only when some summary is usable and the stream finished. */
  method RunRedditAnalysis(apiKey: string, query: string, threads: seq<ThreadRef>,
                           respond: string -> CommentsResponse, ask: (ThreadRef, string) -> Answer,
                           parse: string -> Option<Reply>, stream: seq<ThreadSummary> -> Stream,
                           researchId: string, createdAt: string)
    returns (events: seq<Event<ThreadSummary>>, saved: Option<SavedThreads>)
    ensures |events| > 0
    ensures apiKey == "" ==> events == [Error("ANTHROPIC_API_KEY not configured")] && saved.None?
    ensures apiKey != "" ==>
      var sums := SummariesOf(threads, respond, ask, parse);
      var st := stream(Keep(sums, Usable));
      && AllThreadEvents(threads, |threads|, respond, ask, parse) <= events
      && (Keep(sums, Usable) == [] ==>
            saved.None? && events[|events| - 1] == Error("No comments available for any selected thread"))
      && (saved.Some? <==> Keep(sums, Usable) != [] && st.failure.None?)
      && (saved.Some? ==>
            saved.value == SavedThreads(researchId, query, "Reddit: " + query, createdAt, sums, Concat(st.chunks))
            && events[|events| - 1] == Complete(researchId))
    ensures apiKey != "" ==>
      var sums := SummariesOf(threads, respond, ask, parse);
      var usable := Keep(sums, Usable);
      events == AllThreadEvents(threads, |threads|, respond, ask, parse)
                + CrossEvents(usable, |threads|, "No comments available for any selected thread",
                              "Running cross-thread analysis...", stream(usable))
                + (if saved.Some? then [Complete(researchId)] else [])
  {
    if apiKey == "" {
      return [Error("ANTHROPIC_API_KEY not configured")], None;
    }
    var summaries, threadEvents := SummarizeThreads(threads, respond, ask, parse);
    var tail, analysis := CrossAnalysis(summaries, Usable, |threads|,
                                        "No comments available for any selected thread",
                                        "Running cross-thread analysis...", stream);
    saved := if analysis.Some?
             then Some(SavedThreads(researchId, query, "Reddit: " + query, createdAt, summaries, analysis.value))
             else None;
    events := threadEvents + tail + (if analysis.Some? then [Complete(researchId)] else []);
    CloseFacts(threadEvents, Keep(summaries, Usable), |threads|, "No comments available for any selected thread",
               "Running cross-thread analysis...", stream(Keep(summaries, Usable)), analysis.Some?, researchId);
  }
}
