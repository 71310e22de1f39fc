/** The dashboard's content endpoints: the reel list read from the run log,
  * and the two video servers. The file system is the set of resolved
  * paths that are regular files. */
module Content {
  import opened Common
  import opened Sorting
  import opened Paths
  import opened LogReader
  import AssetsRouter

  function Timestamp(r: Run): string
  {
    r.timestamp
  }

  /** What the filters ask of a run: a reel, the persona when one is given,
    * the video type when one is given. */
  predicate Selected(r: Run, persona: Option<string>, videoType: Option<string>)
  {
    && Given(r.reelPath)
    && (Given(persona) ==> r.persona == persona.value)
    && (Given(videoType) ==> r.videoType == Some(videoType.value))
  }

  function SelectedBy(persona: Option<string>, videoType: Option<string>): Run -> bool
  {
    (r: Run) => Selected(r, persona, videoType)
  }

  function PersonaIs(persona: string): Run -> bool
  {
    (r: Run) => r.persona == persona
  }

  function TypeIs(videoType: string): Run -> bool
  {
    (r: Run) => r.videoType == Some(videoType)
  }

  /** The three comprehensions of `get_reels`: the runs with a reel, then
    * those of the persona, then those of the video type, each filter only
    * when it is given. */
  function Filtered(runs: seq<Run>, persona: Option<string>, videoType: Option<string>): seq<Run>
  {
    var reels := Filter(runs, HasReel);
    var byPersona := if Given(persona) then Filter(reels, PersonaIs(persona.value)) else reels;
    if Given(videoType) then Filter(byPersona, TypeIs(videoType.value)) else byPersona
  }

  /** The three filters in a row keep exactly the selected runs: every one of
    * them, as often as the log holds it, in log order. */
  lemma FilteredSelects(runs: seq<Run>, persona: Option<string>, videoType: Option<string>)
    ensures Filtered(runs, persona, videoType) == Filter(runs, SelectedBy(persona, videoType))
    ensures IsFilterOf(Filtered(runs, persona, videoType), runs, SelectedBy(persona, videoType))
  {
    var sel := SelectedBy(persona, videoType);
    var reels := Filter(runs, HasReel);
    var mine := (r: Run) => HasReel(r) && (Given(persona) ==> r.persona == persona.value);
    if Given(persona) {
      FilterTwice(runs, HasReel, PersonaIs(persona.value), mine);
    } else {
      FilterSame(runs, HasReel, mine);
    }
    var byPersona := if Given(persona) then Filter(reels, PersonaIs(persona.value)) else reels;
    assert byPersona == Filter(runs, mine);
    if Given(videoType) {
      FilterTwice(runs, mine, TypeIs(videoType.value), sel);
    } else {
      FilterSame(runs, mine, sel);
    }
    FilterIsFilterOf(runs, sel);
  }

  /** `get_reels`: the filtered runs, newest first. A log that does not
    * parse fails the request. */
  function GetReels(read: Result<seq<Run>>, persona: Option<string>, videoType: Option<string>): (r: Result<seq<Run>>)
    ensures read.Err? ==> r == Err(read.error)
    ensures read.Ok? ==> r.Ok? && SortedDescBy(r.value, Timestamp)
    ensures read.Ok? ==> multiset(r.value) == multiset(Filtered(read.value, persona, videoType))
  {
    match read
    case Err(e) => Err(e)
    case Ok(runs) => Ok(SortDescBy(Filtered(runs, persona, videoType), Timestamp))
  }

  /** The reels are the selected runs of the log, each as often as the log
    * holds it, newest first; runs with the same timestamp keep their log
    * order (the sort is stable). */
  lemma GetReelsSelects(runs: seq<Run>, persona: Option<string>, videoType: Option<string>, t: string)
    ensures var r := GetReels(Ok(runs), persona, videoType).value;
      && (forall x :: multiset(r)[x] == if Selected(x, persona, videoType) then multiset(runs)[x] else 0)
      && SortedDescBy(r, Timestamp)
      && Filter(r, WithKey(Timestamp, t)) == Filter(Filter(runs, SelectedBy(persona, videoType)), WithKey(Timestamp, t))
  {
    FilteredSelects(runs, persona, videoType);
    SortDescByStable(Filtered(runs, persona, videoType), Timestamp, t);
  }

  /** Without filters every run with a reel is listed. */
  lemma NoFilterAllReels(runs: seq<Run>)
    ensures forall x :: x in GetReels(Ok(runs), None, None).value <==> x in runs && Given(x.reelPath)
  {
    var r := GetReels(Ok(runs), None, None).value;
    FilteredSelects(runs, None, None);
    forall x ensures x in r <==> x in runs && Given(x.reelPath) {
      assert x in r <==> x in multiset(r);
      assert x in runs <==> x in multiset(runs);
    }
  }

  /** `serve_video_by_path`: 404 unless the path names a file, 403 unless it
    * resolves inside the project root; otherwise the file as video/mp4. */
  function ServeVideoByPath(cwd: seq<string>, projectRoot: string, path: string, files: set<seq<string>>): (r: AssetsRouter.Response)
    requires NormalForm(cwd)
    ensures r.NotFound? <==> Resolve(cwd, path) !in files
    ensures r.Forbidden? <==> Resolve(cwd, path) in files && !Under(Resolve(cwd, path), Resolve(cwd, projectRoot))
    ensures r.Serve? ==> r == AssetsRouter.Serve(Resolve(cwd, path), "video/mp4")
  {
    var resolved := Resolve(cwd, path);
    if resolved !in files then AssetsRouter.NotFound
    else if !Under(resolved, Resolve(cwd, projectRoot)) then AssetsRouter.Forbidden
    else AssetsRouter.Serve(resolved, "video/mp4")
  }

  /** A reel path that the log reader moved under the project root is never
    * refused as outside it, when the rest of the path has no "..". */
  lemma NormalizedReelServed(cwd: seq<string>, logged: string, projectRoot: string, files: set<seq<string>>)
    requires NormalForm(cwd)
    requires StartsWith(logged, VpsRoot) && |logged| > |VpsRoot| && logged[|VpsRoot|] != '/'
    requires NoDotDot(Split(logged[|VpsRoot|..], '/'))
    requires projectRoot != [] && projectRoot[0] == '/' && projectRoot[|projectRoot| - 1] != '/'
    ensures var local := NormalizeReelPath(Some(logged), projectRoot);
      local.Some? && !ServeVideoByPath(cwd, projectRoot, local.value, files).Forbidden?
  {
    var rest := logged[|VpsRoot|..];
    NormalizedUnderRoot(logged, projectRoot);
    assert PathJoin(projectRoot, rest) == projectRoot + "/" + rest;
    JoinStaysUnder(cwd, projectRoot, rest);
  }

  /** `serve_video`: the named file of the video output directory, or 404. */
  function ServeVideo(cwd: seq<string>, videoDir: string, filename: string, files: set<seq<string>>): (r: AssetsRouter.Response)
    requires NormalForm(cwd)
    ensures r.NotFound? <==> Resolve(cwd, PathJoin(videoDir, filename)) !in files
    ensures r.Serve? ==> r == AssetsRouter.Serve(Resolve(cwd, PathJoin(videoDir, filename)), "video/mp4")
    ensures !r.Forbidden?
  {
    var path := Resolve(cwd, PathJoin(videoDir, filename));
    if path !in files then AssetsRouter.NotFound else AssetsRouter.Serve(path, "video/mp4")
  }

  /** A file name (one path segment, not "..") is served from inside the
    * video directory: the route has no containment test and needs none. */
  lemma PlainNameInside(cwd: seq<string>, videoDir: string, filename: string, files: set<seq<string>>)
    requires NormalForm(cwd)
    requires videoDir != [] && videoDir[0] == '/' && videoDir[|videoDir| - 1] != '/'
    requires filename != [] && '/' !in filename && filename != ".."
    ensures var r := ServeVideo(cwd, videoDir, filename, files);
      r.Serve? ==> Under(r.path, Resolve(cwd, videoDir))
  {
    SplitNoSep(filename, '/');
    JoinStaysUnder(cwd, videoDir, filename);
  }
}
