/** The opportunity scout: seed keywords expanded through the store's
  * autocomplete, apps found by keyword search and deduplicated by track id,
  * their reviews and Reddit pain-point threads gathered, and everything
  * folded into one bounded context for a streamed analysis. Every request
  * is a parameter that answers with what the service read from it. */
module OpportunityScout {
  import opened Common
  import opened Sorting
  import Research

  // ---------------------------------------------------------------------
  // Seed expansion

  /** The hint terms of one autocomplete answer, stripped, blanks dropped. */
  function HintTerms(hints: seq<string>): (r: seq<string>)
    ensures forall t :: t in r ==> t != "" && IsStripped(t)
    ensures forall k :: 0 <= k < |hints| && Strip(hints[k]) != "" ==> Strip(hints[k]) in r
  {
    if hints == [] then []
    else
      var n := |hints| - 1;
      var t := Strip(hints[n]);
      assert forall k :: 0 <= k < n ==> hints[..n][k] == hints[k];
      HintTerms(hints[..n]) + (if t == "" then [] else [t])
  }

  /** What one seed adds: the stripped seed itself, when not blank, and the
    * terms its autocomplete lookup answered with (nothing when the lookup
    * failed). A blank seed is not looked up. */
  function SeedTerms(seed: string, autocomplete: string -> Option<seq<string>>): (r: seq<string>)
    ensures forall t :: t in r ==> t != "" && IsStripped(t)
    ensures Strip(seed) != "" ==> Strip(seed) in r
    ensures Strip(seed) == "" ==> r == []
    ensures Strip(seed) != "" ==>
              r == [Strip(seed)] + (if autocomplete(Strip(seed)).None? then [] else HintTerms(autocomplete(Strip(seed)).value))
  {
    var s := Strip(seed);
    if s == "" then []
    else
      var hints := autocomplete(s);
      [s] + (if hints.None? then [] else HintTerms(hints.value))
  }

  /** Every term added while expanding `seeds`, in the order of addition. */
  function Expanded(seeds: seq<string>, autocomplete: string -> Option<seq<string>>): (r: seq<string>)
    ensures forall t :: t in r ==> t != "" && IsStripped(t)
  {
    if seeds == [] then []
    else Expanded(seeds[..|seeds| - 1], autocomplete) + SeedTerms(seeds[|seeds| - 1], autocomplete)
  }

  /** A term is added exactly when some seed contributes it. */
  lemma ExpandedTerms(seeds: seq<string>, autocomplete: string -> Option<seq<string>>, t: string)
    ensures t in Expanded(seeds, autocomplete) <==> exists k :: 0 <= k < |seeds| && t in SeedTerms(seeds[k], autocomplete)
  {
    var f := s => SeedTerms(s, autocomplete);
    ExpandedGathers(seeds, autocomplete);
    GatherMembers(seeds, f, t);
  }

  lemma {:induction false} ExpandedGathers(seeds: seq<string>, autocomplete: string -> Option<seq<string>>)
    ensures Expanded(seeds, autocomplete) == Gather(seeds, s => SeedTerms(s, autocomplete))
  {
    if seeds != [] {
      ExpandedGathers(seeds[..|seeds| - 1], autocomplete);
    }
  }

  /** `expand_seeds`: the expanded terms as a set, returned sorted. */
  method ExpandSeeds(seeds: seq<string>, autocomplete: string -> Option<seq<string>>) returns (keywords: seq<string>)
    ensures keywords == Keywords(seeds, autocomplete)
  {
    var expanded: seq<string> := [];
    for i := 0 to |seeds|
      invariant expanded == Expanded(seeds[..i], autocomplete)
    {
      assert seeds[..i + 1][..i] == seeds[..i];
      var seed := Strip(seeds[i]);
      if seed != "" {
        var hints := autocomplete(seed);
        var terms: seq<string> := [];
        if hints.Some? {
          terms := StripHints(hints.value);
        }
        expanded := expanded + ([seed] + terms);
      }
    }
    assert seeds[..|seeds|] == seeds;
    keywords := SortedSet(expanded);
  }

  /** The loop over one autocomplete answer's hints. */
  method StripHints(hints: seq<string>) returns (terms: seq<string>)
    ensures terms == HintTerms(hints)
  {
    terms := [];
    for k := 0 to |hints|
      invariant terms == HintTerms(hints[..k])
    {
      assert hints[..k + 1][..k] == hints[..k];
      var term := Strip(hints[k]);
      if term != "" {
        terms := terms + [term];
      }
    }
    assert hints[..|hints|] == hints;
  }

  /** The expansion keeps every seed that is not blank, stripped, whatever
    * the autocomplete answered; every keyword is a stripped, non-blank
    * term; the keywords are sorted with no repeats. */
  lemma {:induction false} ExpansionKeepsSeeds(seeds: seq<string>, autocomplete: string -> Option<seq<string>>)
    ensures StrictlySorted(SortedSet(Expanded(seeds, autocomplete)))
    ensures forall k :: 0 <= k < |seeds| && Strip(seeds[k]) != "" ==> Strip(seeds[k]) in SortedSet(Expanded(seeds, autocomplete))
    ensures forall t :: t in SortedSet(Expanded(seeds, autocomplete)) ==> t != "" && IsStripped(t)
  {
    forall k | 0 <= k < |seeds| && Strip(seeds[k]) != ""
      ensures Strip(seeds[k]) in Expanded(seeds, autocomplete)
    {
      SeedExpanded(seeds, autocomplete, k);
    }
  }

  lemma {:induction false} SeedExpanded(seeds: seq<string>, autocomplete: string -> Option<seq<string>>, k: nat)
    requires k < |seeds| && Strip(seeds[k]) != ""
    ensures Strip(seeds[k]) in Expanded(seeds, autocomplete)
  {
    var n := |seeds| - 1;
    if k < n {
      assert seeds[..n][k] == seeds[k];
      SeedExpanded(seeds[..n], autocomplete, k);
    }
  }

  // ---------------------------------------------------------------------
  // App search

  /** One search result as read: the fields the service copies. A missing
    * track id, or a zero one, is falsy. */
  datatype Hit = Hit(trackId: Option<int>, trackName: Option<string>, artistName: Option<string>,
                     averageUserRating: Option<string>, userRatingCount: Option<int>,
                     primaryGenreName: Option<string>, artworkUrl100: Option<string>)

  /** An app of the scout. `rating` is the rating as Python prints it. */
  datatype App = App(trackId: int, name: string, developer: string, rating: Option<string>,
                     reviewCount: Option<int>, genre: string, iconUrl: string)

  /** The search requests `limit` results per keyword. */
  const SearchLimit := 10

  /** A hit the search keeps when its track id is new. */
  predicate Listed(h: Hit)
  {
    h.trackId.Some? && h.trackId.value != 0
  }

  function OrEmpty(x: Option<string>): string
  {
    if x.None? then "" else x.value
  }

  function AppOf(h: Hit): (r: App)
    requires Listed(h)
    ensures r.trackId == h.trackId.value
  {
    App(h.trackId.value, OrEmpty(h.trackName), OrEmpty(h.artistName), h.averageUserRating,
        h.userRatingCount, OrEmpty(h.primaryGenreName), OrEmpty(h.artworkUrl100))
  }

  function Ids(apps: seq<App>): set<int>
  {
    set a | a in apps :: a.trackId
  }

  /** The track ids of the listed hits. */
  function ListedIds(hits: seq<Hit>): set<int>
  {
    set k | 0 <= k < |hits| && Listed(hits[k]) :: hits[k].trackId.value
  }

  /** The apps of a run of hits: a listed hit whose track id was not seen
    * yet becomes an app; the others are skipped. */
  function Catalogue(hits: seq<Hit>): (r: seq<App>)
    ensures forall a :: a in r ==> a.trackId != 0
    ensures forall i, j :: 0 <= i < j < |r| ==> r[i].trackId != r[j].trackId
    ensures Ids(r) == ListedIds(hits)
  {
    if hits == [] then []
    else
      var n := |hits| - 1;
      var prev := Catalogue(hits[..n]);
      var h := hits[n];
      assert ListedIds(hits) == ListedIds(hits[..n]) + (if Listed(h) then {h.trackId.value} else {}) by {
        assert forall k :: 0 <= k < n ==> hits[..n][k] == hits[k];
      }
      if !Listed(h) || h.trackId.value in Ids(prev) then prev
      else
        var r := prev + [AppOf(h)];
        assert Ids(r) == Ids(prev) + {h.trackId.value} by {
          assert forall a :: a in r <==> a in prev || a == AppOf(h);
        }
        r
  }

  /** The first listed hit with a track id is the one kept for it. */
  lemma {:induction false} FirstHitWins(hits: seq<Hit>, k: nat)
    requires k < |hits| && Listed(hits[k])
    requires forall j :: 0 <= j < k ==> hits[j].trackId != hits[k].trackId
    ensures AppOf(hits[k]) in Catalogue(hits)
  {
    var n := |hits| - 1;
    if k < n {
      assert hits[..n][k] == hits[k];
      assert forall j :: 0 <= j < k ==> hits[..n][j] == hits[j];
      FirstHitWins(hits[..n], k);
    } else {
      assert hits[..n] == hits[..k];
      assert forall j :: 0 <= j < k ==> hits[..k][j] == hits[j];
    }
  }

  lemma IdsSnoc(apps: seq<App>, a: App)
    ensures Ids(apps + [a]) == Ids(apps) + {a.trackId}
  {
    assert forall b :: b in apps + [a] <==> b in apps || b == a;
  }

  /** The hits of the keywords, in order; a keyword whose request failed
    * adds none. */
  function HitsOf(keywords: seq<string>, limit: int, search: (string, int) -> Option<seq<Hit>>): seq<Hit>
  {
    if keywords == [] then []
    else
      var found := search(keywords[|keywords| - 1], limit);
      HitsOf(keywords[..|keywords| - 1], limit, search) + (if found.None? then [] else found.value)
  }

  /** `search_apps` */
  method SearchApps(keywords: seq<string>, limit: int, search: (string, int) -> Option<seq<Hit>>)
    returns (apps: seq<App>)
    ensures apps == AppsOf(keywords, limit, search)
  {
    var seen: set<int> := {};
    apps := [];
    for i := 0 to |keywords|
      invariant apps == Catalogue(HitsOf(keywords[..i], limit, search))
      invariant seen == Ids(apps)
    {
      assert keywords[..i + 1][..i] == keywords[..i];
      var found := search(keywords[i], limit);
      assert HitsOf(keywords[..i + 1], limit, search)
             == HitsOf(keywords[..i], limit, search) + (if found.None? then [] else found.value);
      if found.Some? {
        apps, seen := AddHits(apps, seen, HitsOf(keywords[..i], limit, search), found.value);
      } else {
        assert HitsOf(keywords[..i], limit, search) + [] == HitsOf(keywords[..i], limit, search);
      }
    }
    assert keywords[..|keywords|] == keywords;
  }

  /** The inner loop of `search_apps` over one keyword's results. */
  method AddHits(apps0: seq<App>, seen0: set<int>, ghost before: seq<Hit>, hits: seq<Hit>)
    returns (apps: seq<App>, seen: set<int>)
    requires apps0 == Catalogue(before) && seen0 == Ids(apps0)
    ensures apps == Catalogue(before + hits) && seen == Ids(apps)
  {
    apps, seen := apps0, seen0;
    assert before + hits[..0] == before;
    for j := 0 to |hits|
      invariant apps == Catalogue(before + hits[..j])
      invariant seen == Ids(apps)
    {
      var h := hits[j];
      assert (before + hits[..j + 1])[..|before + hits[..j]|] == before + hits[..j];
      assert (before + hits[..j + 1])[|before + hits[..j]|] == h;
      if h.trackId.Some? && h.trackId.value != 0 && h.trackId.value !in seen {
        IdsSnoc(apps, AppOf(h));
        seen := seen + {h.trackId.value};
        apps := apps + [AppOf(h)];
      }
    }
    assert hits[..|hits|] == hits;
  }

  // ---------------------------------------------------------------------
  // Reviews

  /** One feed entry as read: its "im:rating" object (absent, present
    * without a label, or with one), and the author name, title and content
    * labels (empty when missing). */
  datatype FeedEntry = FeedEntry(rating: Option<Option<string>>, author: string, title: string, content: string)

  datatype Review = Review(author: string, rating: int, title: string, content: string)

  /** The rating label of a rated entry; a rating object without a label
    * reads as "0". */
  function RatingOf(rating: Option<string>): Option<int>
  {
    if rating.None? then Some(0) else PyInt(rating.value)
  }

  /** The reviews `fetch_reviews` collects from a feed's entries: unrated
    * entries (the app's own metadata) are skipped, and a rating that is not
    * an integer raises, which ends the loop with the reviews so far. */
  function ReviewsOf(entries: seq<FeedEntry>): (r: seq<Review>)
    ensures |r| <= |entries|
  {
    if entries == [] then []
    else
      var e := entries[0];
      if e.rating.None? then ReviewsOf(entries[1..])
      else
        var v := RatingOf(e.rating.value);
        if v.None? then [] else [Review(e.author, v.value, e.title, e.content)] + ReviewsOf(entries[1..])
  }

  /** The reviews of a feed, none when the request or its decoding failed. */
  function FeedReviews(feed: Option<seq<FeedEntry>>): seq<Review>
  {
    if feed.None? then [] else ReviewsOf(feed.value)
  }

  /** `fetch_reviews` */
  method FetchReviews(feed: Option<seq<FeedEntry>>) returns (reviews: seq<Review>)
    ensures reviews == FeedReviews(feed)
  {
    reviews := [];
    if feed.None? {
      return;
    }
    var entries := feed.value;
    var i := 0;
    while i < |entries|
      invariant i <= |entries|
      invariant reviews + ReviewsOf(entries[i..]) == ReviewsOf(entries)
    {
      var e := entries[i];
      assert entries[i..][1..] == entries[i + 1..];
      if e.rating.Some? {
        var v := RatingOf(e.rating.value);
        if v.None? {
          assert reviews + [] == reviews;
          return;
        }
        reviews := reviews + [Review(e.author, v.value, e.title, e.content)];
      }
      i := i + 1;
    }
    assert reviews + [] == reviews;
  }

  predicate RatingParses(e: FeedEntry)
  {
    e.rating.None? || RatingOf(e.rating.value).Some?
  }

  /** An entry without a rating contributes nothing, wherever it stands. */
  lemma {:induction false} UnratedSkipped(pre: seq<FeedEntry>, e: FeedEntry, post: seq<FeedEntry>)
    requires e.rating.None?
    ensures ReviewsOf(pre + [e] + post) == ReviewsOf(pre + post)
  {
    if pre == [] {
      assert pre + [e] + post == [e] + post && pre + post == post;
      assert ([e] + post)[1..] == post;
    } else {
      assert (pre + [e] + post)[1..] == pre[1..] + [e] + post;
      assert (pre + post)[1..] == pre[1..] + post;
      UnratedSkipped(pre[1..], e, post);
    }
  }

  /** A rating that is not an integer cuts the reviews off before its
    * entry: what follows it is lost. */
  lemma {:induction false} BadRatingStops(pre: seq<FeedEntry>, e: FeedEntry, post: seq<FeedEntry>)
    requires forall k :: 0 <= k < |pre| ==> RatingParses(pre[k])
    requires e.rating.Some? && RatingOf(e.rating.value).None?
    ensures ReviewsOf(pre + [e] + post) == ReviewsOf(pre)
  {
    if pre == [] {
      assert (pre + [e] + post)[0] == e;
    } else {
      assert (pre + [e] + post)[0] == pre[0];
      assert (pre + [e] + post)[1..] == pre[1..] + [e] + post;
      BadRatingStops(pre[1..], e, post);
    }
  }

  /** When every rating parses, there is one review per rated entry, with
    * that entry's fields, in order. */
  lemma {:induction false} RatedEntriesReviewed(entries: seq<FeedEntry>)
    requires forall k :: 0 <= k < |entries| ==> RatingParses(entries[k])
    ensures ReviewsOf(entries) == Rated(entries)
  {
    if entries != [] {
      RatedEntriesReviewed(entries[1..]);
    }
  }

  /** The reference: each rated entry as a review. */
  function Rated(entries: seq<FeedEntry>): (r: seq<Review>)
    requires forall k :: 0 <= k < |entries| ==> RatingParses(entries[k])
  {
    if entries == [] then []
    else
      var e := entries[0];
      assert RatingParses(e);
      (if e.rating.None? then [] else [Review(e.author, RatingOf(e.rating.value).value, e.title, e.content)])
      + Rated(entries[1..])
  }

  // ---------------------------------------------------------------------
  // Reddit pain points

  /** One post of the search listing, as read. */
  datatype PainPost = PainPost(id: string, title: string, subreddit: string, score: int,
                               numComments: int, permalink: string, selftext: Option<string>)

  /** The search answer: its status, and the posts of `data.children`, or
    * none when the body is not JSON. */
  datatype PainResponse = PainResponse(status: int, posts: Option<seq<PainPost>>)

  datatype PainThread = PainThread(threadId: string, title: string, subreddit: string, score: int,
                                   numComments: int, permalink: string, preview: string)

  const PreviewLimit := 300

  /** The search query for an app's pain points. */
  function PainQuery(appName: string): (r: string)
    ensures StartsWith(r, "\"" + appName + "\"")
    ensures EndsWith(r, " pain OR frustrating OR hate OR issue OR bug")
    ensures |r| == |appName| + 2 + |" pain OR frustrating OR hate OR issue OR bug"|
  {
    var q := "\"" + appName + "\"";
    assert (q + " pain OR frustrating OR hate OR issue OR bug")[..|q|] == q;
    q + " pain OR frustrating OR hate OR issue OR bug"
  }

  /** A post as a thread: its self text (empty when missing or null) cut to
    * its first 300 characters as the preview. */
  function PainThreadOf(p: PainPost): (r: PainThread)
    ensures |r.preview| <= PreviewLimit
    ensures StartsWith(OrEmpty(p.selftext), r.preview)
    ensures |OrEmpty(p.selftext)| <= PreviewLimit ==> r.preview == OrEmpty(p.selftext)
  {
    PainThread(p.id, p.title, p.subreddit, p.score, p.numComments, p.permalink,
               Take(OrEmpty(p.selftext), PreviewLimit))
  }

  /** The threads of a pain-point search: none when rate limited (429),
    * on any other status outside 2xx or an undecodable body; otherwise one
    * thread per post, in order. */
  function PainThreads(resp: PainResponse): (r: seq<PainThread>)
    ensures resp.status == 429 || !IsSuccess(resp.status) || resp.posts.None? ==> r == []
    ensures IsSuccess(resp.status) && resp.posts.Some? ==>
      |r| == |resp.posts.value| && forall k :: 0 <= k < |r| ==> r[k] == PainThreadOf(resp.posts.value[k])
    ensures forall k :: 0 <= k < |r| ==> |r[k].preview| <= PreviewLimit
  {
    if resp.status == 429 || !IsSuccess(resp.status) || resp.posts.None? then []
    else
      var posts := resp.posts.value;
      seq(|posts|, k requires 0 <= k < |posts| => PainThreadOf(posts[k]))
  }

  /** `search_reddit_pain_points` on the answer to `PainQuery`. */
  method SearchPainPoints(resp: PainResponse) returns (threads: seq<PainThread>)
    ensures threads == PainThreads(resp)
  {
    threads := [];
    if resp.status == 429 || !IsSuccess(resp.status) || resp.posts.None? {
      return;
    }
    var posts := resp.posts.value;
    for k := 0 to |posts|
      invariant |threads| == k
      invariant forall j :: 0 <= j < k ==> threads[j] == PainThreadOf(posts[j])
    {
      threads := threads + [PainThreadOf(posts[k])];
    }
  }

  // ---------------------------------------------------------------------
  // The analysis context

  const MaxReviews := 10
  const MaxThreads := 5
  const ReviewChars := 200
  const ThreadChars := 150
  const MaxContext := 50000
  const TruncationMarker := "\n\n[... truncated for length]"

  /** `s[:n]` on a list. */
  function Head<T>(s: seq<T>, n: nat): (r: seq<T>)
    ensures |r| == if |s| < n then |s| else n
    ensures r == s[..|r|]
  {
    if |s| <= n then s else s[..n]
  }

  /** A value as an f-string shows it; a missing one shows as "None". */
  function Shown(x: Option<string>): string
  {
    if x.None? then "None" else x.value
  }

  function ShownInt(x: Option<int>): string
  {
    if x.None? then "None" else IntToString(x.value)
  }

  function Header(app: App): string
  {
    "## " + app.name + " (by " + app.developer + ")\n"
    + "Rating: " + Shown(app.rating) + " | Reviews: " + ShownInt(app.reviewCount) + " | Genre: " + app.genre + "\n"
  }

  function ReviewLine(r: Review): string
  {
    "- [" + IntToString(r.rating) + "/5] " + r.title + ": " + Take(r.content, ReviewChars) + "\n"
  }

  function ThreadLine(t: PainThread): string
  {
    "- [" + t.subreddit + "] " + t.title + " (score: " + IntToString(t.score) + ")\n"
    + (if t.preview != "" then "  " + Take(t.preview, ThreadChars) + "\n" else "")
  }

  function ReviewLines(rs: seq<Review>): string
  {
    if rs == [] then "" else ReviewLines(rs[..|rs| - 1]) + ReviewLine(rs[|rs| - 1])
  }

  function ThreadLines(ts: seq<PainThread>): string
  {
    if ts == [] then "" else ThreadLines(ts[..|ts| - 1]) + ThreadLine(ts[|ts| - 1])
  }

  function ReviewBlock(reviews: seq<Review>): string
  {
    if reviews == [] then "" else "\n### App Store Reviews:\n" + ReviewLines(Head(reviews, MaxReviews))
  }

  function ThreadBlock(threads: seq<PainThread>): string
  {
    if threads == [] then "" else "\n### Reddit Pain Points:\n" + ThreadLines(Head(threads, MaxThreads))
  }

  /** One app's section of the context. */
  function Section(app: App, reviews: seq<Review>, threads: seq<PainThread>): string
  {
    Header(app) + ReviewBlock(reviews) + ThreadBlock(threads)
  }

  /** The section shows the first ten reviews and the first five threads:
    * the rest do not change it. */
  lemma SectionShowsFirst(app: App, reviews: seq<Review>, threads: seq<PainThread>)
    ensures Section(app, reviews, threads) == Section(app, Head(reviews, MaxReviews), Head(threads, MaxThreads))
  {
    assert Head(Head(reviews, MaxReviews), MaxReviews) == Head(reviews, MaxReviews);
    assert Head(Head(threads, MaxThreads), MaxThreads) == Head(threads, MaxThreads);
  }

  /** A review shows the first 200 characters of its content: the rest do
    * not change its line. */
  lemma ReviewShowsFirst(r: Review)
    ensures ReviewLine(r) == ReviewLine(r.(content := Take(r.content, ReviewChars)))
  {
    assert Take(Take(r.content, ReviewChars), ReviewChars) == Take(r.content, ReviewChars);
  }

  /** The section of one app, built line by line. */
  method BuildSection(app: App, reviews: seq<Review>, threads: seq<PainThread>) returns (section: string)
    ensures section == Section(app, reviews, threads)
  {
    section := Header(app);
    if reviews != [] {
      var lines := WriteReviewLines(Head(reviews, MaxReviews));
      section := section + ("\n### App Store Reviews:\n" + lines);
    }
    if threads != [] {
      var lines := WriteThreadLines(Head(threads, MaxThreads));
      section := section + ("\n### Reddit Pain Points:\n" + lines);
    }
  }

  method WriteReviewLines(shown: seq<Review>) returns (lines: string)
    ensures lines == ReviewLines(shown)
  {
    lines := "";
    for k := 0 to |shown|
      invariant lines == ReviewLines(shown[..k])
    {
      assert shown[..k + 1][..k] == shown[..k];
      lines := lines + ReviewLine(shown[k]);
    }
    assert shown[..|shown|] == shown;
  }

  method WriteThreadLines(shown: seq<PainThread>) returns (lines: string)
    ensures lines == ThreadLines(shown)
  {
    lines := "";
    for k := 0 to |shown|
      invariant lines == ThreadLines(shown[..k])
    {
      assert shown[..k + 1][..k] == shown[..k];
      lines := lines + ThreadLine(shown[k]);
    }
    assert shown[..|shown|] == shown;
  }

  /** What was gathered for an app, nothing when its id has no entry. */
  function Lookup<T>(m: map<int, seq<T>>, id: int): seq<T>
  {
    if id in m then m[id] else []
  }

  function Sections(apps: seq<App>, reviews: map<int, seq<Review>>, reddit: map<int, seq<PainThread>>): (r: seq<string>)
    ensures |r| == |apps|
    ensures forall k :: 0 <= k < |apps| ==>
              r[k] == Section(apps[k], Lookup(reviews, apps[k].trackId), Lookup(reddit, apps[k].trackId))
  {
    if apps == [] then []
    else
      var a := apps[|apps| - 1];
      Sections(apps[..|apps| - 1], reviews, reddit) + [Section(a, Lookup(reviews, a.trackId), Lookup(reddit, a.trackId))]
  }

  /** The context is cut to its first 50000 characters, marked as cut. */
  function Truncated(context: string): (r: string)
    ensures |r| <= MaxContext + |TruncationMarker|
    ensures |context| <= MaxContext ==> r == context
    ensures |context| > MaxContext ==> r == context[..MaxContext] + TruncationMarker
  {
    if |context| > MaxContext then context[..MaxContext] + TruncationMarker else context
  }

  /** The context of the analysis: the app sections joined by blank lines. */
  function Context(apps: seq<App>, reviews: map<int, seq<Review>>, reddit: map<int, seq<PainThread>>): string
  {
    Truncated(Join(Sections(apps, reviews, reddit), "\n\n"))
  }

  /** The sections of one more app are those before it and its own. */
  lemma SectionsSnoc(apps: seq<App>, i: nat, reviews: map<int, seq<Review>>, reddit: map<int, seq<PainThread>>)
    requires i < |apps|
    ensures Sections(apps[..i + 1], reviews, reddit)
            == Sections(apps[..i], reviews, reddit) + [Section(apps[i], Lookup(reviews, apps[i].trackId), Lookup(reddit, apps[i].trackId))]
  {
    assert apps[..i + 1][..i] == apps[..i];
  }

  /** The app sections, built one app at a time. */
  method BuildSections(apps: seq<App>, reviews: map<int, seq<Review>>, reddit: map<int, seq<PainThread>>)
    returns (parts: seq<string>)
    ensures parts == Sections(apps, reviews, reddit)
  {
    parts := [];
    for i := 0 to |apps|
      invariant parts == Sections(apps[..i], reviews, reddit)
    {
      var tid := apps[i].trackId;
      var section := BuildSection(apps[i], Lookup(reviews, tid), Lookup(reddit, tid));
      SectionsSnoc(apps, i, reviews, reddit);
      parts := parts + [section];
    }
    assert apps[..|apps|] == apps;
  }

  method BuildContext(apps: seq<App>, reviews: map<int, seq<Review>>, reddit: map<int, seq<PainThread>>)
    returns (context: string)
    ensures context == Context(apps, reviews, reddit)
  {
    var parts := BuildSections(apps, reviews, reddit);
    context := Join(parts, "\n\n");
    if |context| > MaxContext {
      context := context[..MaxContext] + TruncationMarker;
    }
  }

  // ---------------------------------------------------------------------
  // The scout run

  /** The events `run_scout` yields. */
  datatype ScoutEvent =
    | Status(step: string, message: string)
    | AppStatus(step: string, app: string, done: nat, total: nat, message: string)
    | SeedsExpanded(keywords: seq<string>)
    | AppsFound(apps: seq<App>)
    | AppReviews(appId: int, appName: string, reviews: seq<Review>, count: nat)
    | AppReddit(appId: int, appName: string, threads: seq<PainThread>, count: nat)
    | AnalysisChunk(content: string)
    | Error(content: string)
    | Complete(id: string)

  /** What a finished run saves. */
  datatype ScoutResult = ScoutResult(seeds: seq<string>, keywords: seq<string>, apps: seq<App>,
                                     reviews: map<int, seq<Review>>, reddit: map<int, seq<PainThread>>,
                                     analysis: string)

  /** The review stage's events for the first apps of `total`. */
  function ReviewEvents(apps: seq<App>, total: nat, feed: int -> Option<seq<FeedEntry>>): (r: seq<ScoutEvent>)
    ensures |r| == 2 * |apps|
    ensures forall k :: 0 <= k < |apps| ==>
              && r[2 * k] == AppStatus("reviews", apps[k].name, k + 1, total, "Fetching reviews for " + apps[k].name + "...")
              && r[2 * k + 1] == AppReviews(apps[k].trackId, apps[k].name, FeedReviews(feed(apps[k].trackId)),
                                            |FeedReviews(feed(apps[k].trackId))|)
  {
    if apps == [] then []
    else
      var n := |apps| - 1;
      var a := apps[n];
      var rs := FeedReviews(feed(a.trackId));
      ReviewEvents(apps[..n], total, feed)
      + [AppStatus("reviews", a.name, n + 1, total, "Fetching reviews for " + a.name + "..."),
         AppReviews(a.trackId, a.name, rs, |rs|)]
  }

  /** The reviews gathered per track id. */
  function ReviewMap(apps: seq<App>, feed: int -> Option<seq<FeedEntry>>): (r: map<int, seq<Review>>)
    ensures r.Keys == Ids(apps)
  {
    if apps == [] then map[]
    else
      var n := |apps| - 1;
      var a := apps[n];
      assert forall b :: b in apps <==> b in apps[..n] || b == a;
      ReviewMap(apps[..n], feed)[a.trackId := FeedReviews(feed(a.trackId))]
  }

  /** The Reddit stage's events for the first apps of `total`. */
  function RedditEvents(apps: seq<App>, total: nat, pains: string -> PainResponse): (r: seq<ScoutEvent>)
    ensures |r| == 2 * |apps|
    ensures forall k :: 0 <= k < |apps| ==>
              && r[2 * k] == AppStatus("reddit", apps[k].name, k + 1, total, "Searching Reddit pain points for " + apps[k].name + "...")
              && r[2 * k + 1] == AppReddit(apps[k].trackId, apps[k].name, PainThreads(pains(PainQuery(apps[k].name))),
                                           |PainThreads(pains(PainQuery(apps[k].name)))|)
  {
    if apps == [] then []
    else
      var n := |apps| - 1;
      var a := apps[n];
      var ts := PainThreads(pains(PainQuery(a.name)));
      RedditEvents(apps[..n], total, pains)
      + [AppStatus("reddit", a.name, n + 1, total, "Searching Reddit pain points for " + a.name + "..."),
         AppReddit(a.trackId, a.name, ts, |ts|)]
  }

  /** The pain-point threads gathered per track id. */
  function RedditMap(apps: seq<App>, pains: string -> PainResponse): (r: map<int, seq<PainThread>>)
    ensures r.Keys == Ids(apps)
  {
    if apps == [] then map[]
    else
      var n := |apps| - 1;
      var a := apps[n];
      assert forall b :: b in apps <==> b in apps[..n] || b == a;
      RedditMap(apps[..n], pains)[a.trackId := PainThreads(pains(PainQuery(a.name)))]
  }

  /** Each app's entry holds the reviews of its own feed. */
  lemma {:induction false} ReviewMapValues(apps: seq<App>, feed: int -> Option<seq<FeedEntry>>, k: nat)
    requires k < |apps|
    requires forall i, j :: 0 <= i < j < |apps| ==> apps[i].trackId != apps[j].trackId
    ensures ReviewMap(apps, feed)[apps[k].trackId] == FeedReviews(feed(apps[k].trackId))
  {
    var n := |apps| - 1;
    if k < n {
      assert apps[..n][k] == apps[k];
      ReviewMapValues(apps[..n], feed, k);
    }
  }

  /** Each app's entry holds the threads of its own pain-point search. */
  lemma {:induction false} RedditMapValues(apps: seq<App>, pains: string -> PainResponse, k: nat)
    requires k < |apps|
    requires forall i, j :: 0 <= i < j < |apps| ==> apps[i].trackId != apps[j].trackId
    ensures RedditMap(apps, pains)[apps[k].trackId] == PainThreads(pains(PainQuery(apps[k].name)))
  {
    var n := |apps| - 1;
    if k < n {
      assert apps[..n][k] == apps[k];
      RedditMapValues(apps[..n], pains, k);
    }
  }

  /** The review stage. */
  method GatherReviews(apps: seq<App>, feed: int -> Option<seq<FeedEntry>>)
    returns (events: seq<ScoutEvent>, gathered: map<int, seq<Review>>)
    ensures events == ReviewEvents(apps, |apps|, feed)
    ensures gathered == ReviewMap(apps, feed)
  {
    events, gathered := [], map[];
    for i := 0 to |apps|
      invariant events == ReviewEvents(apps[..i], |apps|, feed)
      invariant gathered == ReviewMap(apps[..i], feed)
    {
      assert apps[..i + 1][..i] == apps[..i];
      var app := apps[i];
      var reviews := FetchReviews(feed(app.trackId));
      gathered := gathered[app.trackId := reviews];
      events := events + [AppStatus("reviews", app.name, i + 1, |apps|, "Fetching reviews for " + app.name + "..."),
                          AppReviews(app.trackId, app.name, reviews, |reviews|)];
    }
    assert apps[..|apps|] == apps;
  }

  /** The Reddit stage. */
  method GatherReddit(apps: seq<App>, pains: string -> PainResponse)
    returns (events: seq<ScoutEvent>, gathered: map<int, seq<PainThread>>)
    ensures events == RedditEvents(apps, |apps|, pains)
    ensures gathered == RedditMap(apps, pains)
  {
    events, gathered := [], map[];
    for i := 0 to |apps|
      invariant events == RedditEvents(apps[..i], |apps|, pains)
      invariant gathered == RedditMap(apps[..i], pains)
    {
      assert apps[..i + 1][..i] == apps[..i];
      var app := apps[i];
      var threads := SearchPainPoints(pains(PainQuery(app.name)));
      gathered := gathered[app.trackId := threads];
      events := events + [AppStatus("reddit", app.name, i + 1, |apps|, "Searching Reddit pain points for " + app.name + "..."),
                          AppReddit(app.trackId, app.name, threads, |threads|)];
    }
    assert apps[..|apps|] == apps;
  }

  /** One chunk event per streamed text, in order. */
  function AnalysisChunks(chunks: seq<string>): (r: seq<ScoutEvent>)
    ensures |r| == |chunks|
    ensures forall k :: 0 <= k < |r| ==> r[k] == AnalysisChunk(chunks[k])
  {
    if chunks == [] then [] else AnalysisChunks(chunks[..|chunks| - 1]) + [AnalysisChunk(chunks[|chunks| - 1])]
  }

  /** The streamed analysis: one event per chunk, the text accumulated. */
  method StreamAnalysis(st: Research.Stream) returns (events: seq<ScoutEvent>, analysis: string)
    ensures events == AnalysisChunks(st.chunks)
    ensures analysis == Research.Concat(st.chunks)
  {
    events, analysis := [], "";
    for k := 0 to |st.chunks|
      invariant events == AnalysisChunks(st.chunks[..k])
      invariant analysis == Research.Concat(st.chunks[..k])
    {
      assert st.chunks[..k + 1][..k] == st.chunks[..k];
      events := events + [AnalysisChunk(st.chunks[k])];
      analysis := analysis + st.chunks[k];
    }
    assert st.chunks[..|st.chunks|] == st.chunks;
  }

  const NoAppsMessage := "No apps found \U{2014} skipping to analysis."
  const NoKeyMessage := "ANTHROPIC_API_KEY not configured"

  /** The keywords and apps of a run. */
  function Keywords(seeds: seq<string>, autocomplete: string -> Option<seq<string>>): seq<string>
  {
    SortedSet(Expanded(seeds, autocomplete))
  }

  function AppsOf(keywords: seq<string>, limit: int, search: (string, int) -> Option<seq<Hit>>): seq<App>
  {
    Catalogue(HitsOf(keywords, limit, search))
  }

  /** The events up to the app list. */
  function Opening(keywords: seq<string>, apps: seq<App>): seq<ScoutEvent>
  {
    [Status("expanding", "Expanding seed keywords via iTunes autocomplete..."),
     SeedsExpanded(keywords),
     Status("searching", "Searching iTunes for " + NatToString(|keywords|) + " keywords..."),
     AppsFound(apps)]
  }

  /** The events of the two gathering stages, each unless skipped. */
  function Gathering(apps: seq<App>, skipReviews: bool, skipReddit: bool,
                     feed: int -> Option<seq<FeedEntry>>, pains: string -> PainResponse): seq<ScoutEvent>
  {
    (if skipReviews then [] else ReviewEvents(apps, |apps|, feed))
    + (if skipReddit then [] else RedditEvents(apps, |apps|, pains))
  }

  /** What the analysis context is built from: the reviews and threads
    * gathered per track id, nothing for a skipped stage. */
  function ScoutReviews(apps: seq<App>, skipReviews: bool, feed: int -> Option<seq<FeedEntry>>): map<int, seq<Review>>
  {
    if skipReviews then map[] else ReviewMap(apps, feed)
  }

  function ScoutReddit(apps: seq<App>, skipReddit: bool, pains: string -> PainResponse): map<int, seq<PainThread>>
  {
    if skipReddit then map[] else RedditMap(apps, pains)
  }

  /** The analysis stream: the answer to the prompt made of the seed line
    * and the context built from what was gathered. */
  function Analysed(seeds: seq<string>, apps: seq<App>, skipReviews: bool, skipReddit: bool,
                    feed: int -> Option<seq<FeedEntry>>, pains: string -> PainResponse,
                    analyse: (string, string) -> Research.Stream): Research.Stream
  {
    analyse(Join(seeds, ", "), Context(apps, ScoutReviews(apps, skipReviews, feed), ScoutReddit(apps, skipReddit, pains)))
  }

  /** The close of a run: the analysis chunks, then the error that broke
    * the stream off or the id of the saved result. */
  function Closing(st: Research.Stream, resultId: string): seq<ScoutEvent>
  {
    AnalysisChunks(st.chunks)
    + (if st.failure.Some? then [Error("Claude analysis failed: " + st.failure.value)] else [Complete(resultId)])
  }

  /** `run_scout`: the events the generator yields and the result it saves,
    * if any. `analyse` is the model's streamed answer to the prompt made of
    * the seed line and the context; `resultId` is the id the save returns. */
  method RunScout(seeds: seq<string>, skipReviews: bool, skipReddit: bool, apiKey: string,
                  autocomplete: string -> Option<seq<string>>, search: (string, int) -> Option<seq<Hit>>,
                  feed: int -> Option<seq<FeedEntry>>, pains: string -> PainResponse,
                  analyse: (string, string) -> Research.Stream, resultId: string)
    returns (events: seq<ScoutEvent>, saved: Option<ScoutResult>)
    ensures var keywords := Keywords(seeds, autocomplete);
            var apps := AppsOf(keywords, SearchLimit, search);
            apps == [] ==>
              && events == Opening(keywords, apps) + [Status("analyzing", NoAppsMessage), Complete("")]
              && saved.None?
    ensures var keywords := Keywords(seeds, autocomplete);
            var apps := AppsOf(keywords, SearchLimit, search);
            apps != [] && apiKey == "" ==>
              && events == Opening(keywords, apps) + (Gathering(apps, skipReviews, skipReddit, feed, pains)
                                                      + [Error(NoKeyMessage)])
              && saved.None?
    ensures var keywords := Keywords(seeds, autocomplete);
            var apps := AppsOf(keywords, SearchLimit, search);
            var reviews := ScoutReviews(apps, skipReviews, feed);
            var reddit := ScoutReddit(apps, skipReddit, pains);
            var st := Analysed(seeds, apps, skipReviews, skipReddit, feed, pains, analyse);
            apps != [] && apiKey != "" ==>
              && events == Opening(keywords, apps) + (Gathering(apps, skipReviews, skipReddit, feed, pains)
                              + ([Status("analyzing", "Running opportunity analysis with Claude...")]
                                 + Closing(st, resultId)))
              && (saved.Some? <==> st.failure.None?)
              && (saved.Some? ==>
                    saved.value == ScoutResult(seeds, keywords, apps, reviews, reddit, Research.Concat(st.chunks)))
  {
    var keywords := ExpandSeeds(seeds, autocomplete);
    var apps := SearchApps(keywords, SearchLimit, search);
    if apps == [] {
      events := Opening(keywords, apps) + [Status("analyzing", NoAppsMessage), Complete("")];
      saved := None;
      return;
    }
    var rest;
    rest, saved := ScoutApps(seeds, keywords, apps, skipReviews, skipReddit, apiKey, feed, pains, analyse, resultId);
    events := Opening(keywords, apps) + rest;
  }

  /** `run_scout` once apps were found: the gathering stages, the key
    * check, the streamed analysis and the save. */
  method ScoutApps(seeds: seq<string>, keywords: seq<string>, apps: seq<App>, skipReviews: bool, skipReddit: bool,
                   apiKey: string, feed: int -> Option<seq<FeedEntry>>, pains: string -> PainResponse,
                   analyse: (string, string) -> Research.Stream, resultId: string)
    returns (events: seq<ScoutEvent>, saved: Option<ScoutResult>)
    ensures apiKey == "" ==>
              events == Gathering(apps, skipReviews, skipReddit, feed, pains) + [Error(NoKeyMessage)] && saved.None?
    ensures var reviews := ScoutReviews(apps, skipReviews, feed);
            var reddit := ScoutReddit(apps, skipReddit, pains);
            var st := Analysed(seeds, apps, skipReviews, skipReddit, feed, pains, analyse);
            apiKey != "" ==>
              && events == Gathering(apps, skipReviews, skipReddit, feed, pains)
                           + ([Status("analyzing", "Running opportunity analysis with Claude...")]
                              + Closing(st, resultId))
              && (saved.Some? <==> st.failure.None?)
              && (saved.Some? ==>
                    saved.value == ScoutResult(seeds, keywords, apps, reviews, reddit, Research.Concat(st.chunks)))
  {
    var gathering, reviews, reddit := GatherAll(apps, skipReviews, skipReddit, feed, pains);
    if apiKey == "" {
      return gathering + [Error(NoKeyMessage)], None;
    }
    var context := BuildContext(apps, reviews, reddit);
    var st := analyse(Join(seeds, ", "), context);
    var chunks, analysis := StreamAnalysis(st);
    if st.failure.Some? {
      saved := None;
      chunks := chunks + [Error("Claude analysis failed: " + st.failure.value)];
    } else {
      saved := Some(ScoutResult(seeds, keywords, apps, reviews, reddit, analysis));
      chunks := chunks + [Complete(resultId)];
    }
    events := gathering + ([Status("analyzing", "Running opportunity analysis with Claude...")] + chunks);
  }

  /** The two gathering stages, each unless skipped. */
  method GatherAll(apps: seq<App>, skipReviews: bool, skipReddit: bool,
                   feed: int -> Option<seq<FeedEntry>>, pains: string -> PainResponse)
    returns (events: seq<ScoutEvent>, reviews: map<int, seq<Review>>, reddit: map<int, seq<PainThread>>)
    ensures events == Gathering(apps, skipReviews, skipReddit, feed, pains)
    ensures reviews == ScoutReviews(apps, skipReviews, feed)
    ensures reddit == ScoutReddit(apps, skipReddit, pains)
  {
    var first: seq<ScoutEvent> := [];
    var second: seq<ScoutEvent> := [];
    reviews, reddit := map[], map[];
    if !skipReviews {
      first, reviews := GatherReviews(apps, feed);
    }
    if !skipReddit {
      second, reddit := GatherReddit(apps, pains);
    }
    events := first + second;
  }
}
