# ugc-dashboard core, modelled in Dafny

This project models the core of the ugc-dashboard content operation: a
scheduled orchestrator that generates and publishes short-form videos and
text posts for several social accounts. It covers:

- **the dispatcher** (`scripts/dispatcher.py`): the once-a-minute tick that
  fires each enabled, due account at most once per day, guarded by a lock
  file per account and date, and sweeps week-old locks;
- **the run queue** (`dashboard/backend/services/pipeline_runner.py`): the
  run registry and the single worker that drains a first-in-first-out queue
  of pipeline commands, streaming each run's output and settling its status;
- **the daily spend ledger and the video autopilot**
  (`scripts/autopilot_video.py`): the cap check before a costly run, the
  spend record after it, the video-type rotation and the reference-image
  and clip choices;
- **the anti-repeat asset pickers** (`scripts/autopilot.py`,
  `scripts/lifestyle_reel.py`, `scripts/autojournal_reel.py`): a pick
  prefers assets the account has not used recently and falls back to the
  whole pool;
- **the reel builders** (`scripts/assemble_video.py`,
  `scripts/generate_slideshow.py`, `scripts/generate_variants.py`): text
  wrapping, drawtext escaping, overlay placement and prompt building;
- **the dashboard back end**: the schedule reader and writer, the log
  reader, the knowledge browser, the asset listing, the content and
  revenue views, the email-outreach parser and batch sender, the research
  services (YouTube, Reddit, the opportunity scout), the PostHog funnel
  client, the funnel snapshots and the Bird (X/Twitter) runner;
- **the front end's API client** (`dashboard/frontend/src/lib/api.ts`):
  the request wrapper and the server-sent-event chat stream.

Each core file is one module. Shared pieces are in their own modules:
`Common` (Option and Result, Python's string and slice operations), `Layout`
(the greedy word wrap, the drawtext escaper, character filters), `Sorting`
(Python's `sorted` as insertion sorts proved ordered and a permutation),
`Research` (the JSON extraction by regular expressions and the streamed
cross-analysis shared by the research services) and `Paths` (path joining
and containment).

Pure code is modelled as functions and lemmas. Code that changes state step
by step is modelled as methods with loops and invariants. These include the
lock directory, the run registry, the spend ledger, the usage files and the
schedule file. Each method is proved against a specification function.

The outside world is passed in as parameters: clocks and dates, random
choices, file contents, HTTP answers, JSON decoding and generative-model
answers. Two conventions follow from this. A random choice is a nondeterministic pick whose
postcondition names the pool it comes from. A raised exception is the
`Err` case of a `Result`.

Where the code itself is wrong (see "## Findings"), the model keeps the code
as written in a separate member and uses the corrected behaviour elsewhere:
`Knowledge.ReadFile`, `Knowledge.WriteFile`, `RedditResearch.SearchReddit`,
`PipelineRunner.PipelineArgv`, `PipelineRunner.PipelineOptsShape`,
`PipelineRunner.PipelineOptsValue`, `PipelineRunner.PipelineArgvDecodes` and
`PipelineRunner.Runner.StartPipelineRun` model the corrected behaviour, not the
code as written. The pipeline members take the corrected request
`PipelineTextRequest`, which carries the two optional texts the command
builder reads.

Where the repository's description and its code differ, the model follows
the code:

- **Dispatcher recurrence:** the dispatcher knows only "daily", "weekdays",
  "every_2_days" and "custom", and it runs on any other frequency. It has
  no general every-N-days rule.
- **Dispatcher launch:** the dispatcher launches the autopilot directly
  with `Popen`. It does not enqueue the autopilot on the run queue.
- **Lock sweep:** the lock sweep runs both after an excluded day and after
  the account loop. It does not run when the schedule is missing or empty.
- **Spend cap:** the cap check compares today's spend plus the estimate
  with the cap. Only a sum strictly above the cap is refused.

Some divergences inside the repository are modelled as written and not
reconciled:

- **Runner options:** the run queue passes `--no-upload` and
  `--no-reaction` to `scripts/autopilot.py`. That script's argument parser
  declares neither option (scripts/autopilot.py:480-489). The commands are
  modelled as the runner builds them. The autopilot's argument parsing is
  not part of this model.
- **Schedule file shapes:** the schedule reader and the dispatcher read the
  same schedule file with different shapes. `ScheduleReader` uses
  `video_pipeline`/`text_pipeline` sections. `Dispatcher` uses `accounts`,
  `frequency` and `days_of_week`. Each module models its own reader.
- **Ledger and dispatcher dates:** the ledger's "today" is the local date.
  The dispatcher's date is the UTC date. Both are parameters.

## Model

| member | source | states |
|---|---|---|
| Revenue.LoadLog | dashboard/backend/routers/revenue.py:16-23 | a missing log file or one that is not JSON gives the empty log; otherwise the parsed entries |
| Revenue.GetCurrentMetrics | dashboard/backend/routers/revenue.py:27-35 | a 404 exactly when the log is empty; otherwise the last entry is current and the one before it previous, present exactly when there are two or more entries |
| Revenue.GetMetricsHistory | dashboard/backend/routers/revenue.py:39-41 | the history is the loaded log, unchanged |
| Revenue.CurrentAfterFetch | dashboard/backend/routers/revenue.py:27-35 | after the daily fetch appends a snapshot, the endpoint shows that snapshot as current and the snapshot the fetch compared with as previous |
| Revenue.HistoryAfterFetch | dashboard/backend/routers/revenue.py:39-41 | after a fetch the history is the old log plus exactly the new snapshot |
| RevenueMetrics.ValueOf | scripts/fetch_revenue_metrics.py:156 | `dict.get`: a value exactly for a key the dictionary has, and that value is one it holds under that key |
| RevenueMetrics.Put | scripts/fetch_revenue_metrics.py:218 | `d[k] = v`: the keys become the old keys plus `k`, `k` now holds `v`, every other key keeps its value |
| RevenueMetrics.PutUnique | scripts/fetch_revenue_metrics.py:218 | setting a key never creates a duplicate key |
| RevenueMetrics.DictOf | scripts/fetch_revenue_metrics.py:76 | the dict comprehension over the metric list: keys are unique and each id holds the last value the list gives it |
| RevenueMetrics.Tracked | scripts/fetch_revenue_metrics.py:78 | the filter keeps exactly the tracked ids with their values and keeps keys unique |
| RevenueMetrics.FetchOverview | scripts/fetch_revenue_metrics.py:66-78 | the overview holds exactly the tracked ids of the response, each with the last value the response gives it |
| RevenueMetrics.BreakdownDropped | scripts/fetch_revenue_metrics.py:77-78 | a currency breakdown such as `mrr_eur` is not kept |
| RevenueMetrics.LoadPreviousSnapshot | scripts/fetch_revenue_metrics.py:85-95 | a missing, unparsable or empty log gives none; otherwise the last entry |
| RevenueMetrics.FormatDelta | scripts/fetch_revenue_metrics.py:98-107 | no change prints "-> 0"; a rise starts "^ +" and a fall "v "; money metrics print "$" and the two-decimal delta, others the `:g` form |
| RevenueMetrics.TrendCell | scripts/fetch_revenue_metrics.py:152-165 | "--" unless the previous snapshot has this project with this metric, in which case the delta from the previous value |
| RevenueMetrics.WriteJsonLogAppends | scripts/fetch_revenue_metrics.py:114-124 | read back, the written log is the old log with the snapshot appended; a missing or corrupt log is replaced by the snapshot alone |
| RevenueMetrics.NextPreviousIsThis | scripts/fetch_revenue_metrics.py:85-124 | after a write, the next run's previous snapshot is the one just written |
| RevenueMetrics.LeaderNote | scripts/fetch_revenue_metrics.py:170-179 | a leader line exactly when there are two projects whose MRR sums above zero; the first project wins a tie, and the line gives the larger MRR as a percentage of the total |
| RevenueMetrics.TrialNotes | scripts/fetch_revenue_metrics.py:181-186 | at most one line per project, each a trials-versus-subscribers line |
| RevenueMetrics.TrialNotesComplete | scripts/fetch_revenue_metrics.py:181-186 | every project with more trials than subscribers and some subscribers gets its line |
| RevenueMetrics.TrialNotesSound | scripts/fetch_revenue_metrics.py:181-186 | every trials line belongs to such a project |
| RevenueMetrics.Interpretation | scripts/fetch_revenue_metrics.py:169-186 | without exactly two projects the interpretation section has no lines; with two it is the leader line, if any, then the trial lines |
| RevenueMetrics.SelectTargets | scripts/fetch_revenue_metrics.py:199-207 | no `--project` selects all apps; an unknown name is a usage error; a known one selects exactly that app |
| RevenueMetrics.Collect | scripts/fetch_revenue_metrics.py:209-224 | every target ends up either in the snapshot or among the errors |
| RevenueMetrics.CollectSorts | scripts/fetch_revenue_metrics.py:209-224 | an app without key or project id is named among the errors; an app that answers has its tracked metrics in the snapshot; every snapshot project is a target with credentials |
| RevenueMetrics.FetchAll | scripts/fetch_revenue_metrics.py:209-224 | the fetch loop gives exactly the collected result: the overview of each app that has both credentials and answers, in order, and the names of the others |
| RevenueMetrics.FetchAndLog | scripts/fetch_revenue_metrics.py:195-242 | a bad `--project` is a usage error; no fetched app fails the run; a dry run writes nothing; otherwise the previous snapshot is read before the log gets the new snapshot |
| Content.FilteredSelects | dashboard/backend/routers/content.py:19-24 | the three comprehensions in a row keep exactly the selected runs (a reel, the persona and the video type when given): each as often as the log holds it, in log order |
| Content.GetReels | dashboard/backend/routers/content.py:15-28 | a log that cannot be read fails the request; otherwise the filtered runs sorted newest first, as a permutation of them |
| Content.GetReelsSelects | dashboard/backend/routers/content.py:15-28 | the reels are the selected runs of the log, each as often as the log holds it, newest first, and runs with the same timestamp keep their log order |
| Content.NoFilterAllReels | dashboard/backend/routers/content.py:19-24 | without filters every run with a reel is listed |
| Content.ServeVideoByPath | dashboard/backend/routers/content.py:41-51 | 404 exactly when the path is not a file; 403 exactly when the file resolves outside the project root; otherwise the file as video/mp4 |
| Content.NormalizedReelServed | dashboard/backend/routers/content.py:41-51 | a reel path that the log reader moved under the project root, with no ".." after the prefix, is never refused as outside it |
| Content.ServeVideo | dashboard/backend/routers/content.py:32-37 | 404 exactly when the named file is missing from the video directory; never a 403 |
| Content.PlainNameInside | dashboard/backend/routers/content.py:32-37 | a plain file name (one segment, not "..") is always served from inside the video directory |
| SkillLoader.MarkdownPaths | dashboard/backend/services/skill_loader.py:24 | `rglob("*.md")` matches exactly the paths ending in ".md" |
| SkillLoader.ListMarkdown | dashboard/backend/services/skill_loader.py:20-31 | a missing directory lists nothing; otherwise exactly the Markdown paths, sorted |
| SkillLoader.LoadContext | dashboard/backend/services/skill_loader.py:34-54 | the skill parts then the memory parts joined by a blank line; an omitted list selects the default files |
| SkillLoader.CollectSkills | dashboard/backend/services/skill_loader.py:42-45 | the skill loop produces the parts of the existing skill files, in order |
| SkillLoader.CollectMemory | dashboard/backend/services/skill_loader.py:47-52 | the memory loop appends the parts of the existing, non-blank memory files, in order |
| SkillLoader.PartsAppend | dashboard/backend/services/skill_loader.py:41-52 | parts keep the order of the names: two lists read in turn give the parts of the first, then the second |
| SkillLoader.PartsMembers | dashboard/backend/services/skill_loader.py:41-52 | a part is present exactly when some listed name gives it |
| SkillLoader.SkillPartsMembers | dashboard/backend/services/skill_loader.py:42-45 | a skill part is present exactly for a listed name whose file exists, with the file's text unchanged |
| SkillLoader.MemoryPartsMembers | dashboard/backend/services/skill_loader.py:47-52 | a memory part is present exactly for a listed name whose file exists and is not blank, with the text stripped |
| SkillLoader.NothingFound | dashboard/backend/services/skill_loader.py:41-54 | with no selected file present the context is the empty string |
| Paths.Resolve | dashboard/backend/routers/knowledge.py:50 | `Path.resolve()`: the result is an absolute path in normal form (no ".", "..", or empty components) |
| Paths.WalkAppend | dashboard/backend/routers/knowledge.py:50 | resolving a path in two steps is resolving the whole path |
| Paths.WalkExtends | dashboard/backend/routers/knowledge.py:50 | without "..", resolution only ever adds components |
| Paths.JoinStaysUnder | dashboard/backend/routers/knowledge.py:49-50 | a relative path without ".." joined to a base resolves to a path under the base |
| Paths.UnderStartsWith | dashboard/backend/routers/knowledge.py:52 | component-wise containment implies the text prefix test of the source |
| Knowledge.BuildTree | dashboard/backend/routers/knowledge.py:13-35 | the loop over the sorted entries, recursing into each directory, yields the tree of the directory |
| Knowledge.BuildTreeAt | dashboard/backend/routers/knowledge.py:15-16 | a missing directory yields no items, an existing one its tree |
| Knowledge.GetTree | dashboard/backend/routers/knowledge.py:39-44 | the skills tree and the memory tree, each empty when its directory is missing |
| Knowledge.Visible | dashboard/backend/routers/knowledge.py:19-34 | an entry shows exactly when it is not hidden and is a directory or a ".md" file |
| Knowledge.LevelShows | dashboard/backend/routers/knowledge.py:18-35 | one item per shown entry, in order, with its name, its "prefix/name" path, and for a directory its own subtree |
| Knowledge.VisibleSorted | dashboard/backend/routers/knowledge.py:18 | dropping hidden and non-Markdown entries keeps the others sorted by name |
| Knowledge.TreeShows | dashboard/backend/routers/knowledge.py:13-35 | the tree shows exactly the non-hidden directories and ".md" files, each once, sorted by name, each with its "prefix/name" path and each directory with its own tree |
| Knowledge.BaseOf | dashboard/backend/routers/knowledge.py:49 | "skills" selects the skills directory and any other section the memory directory |
| Knowledge.AsWrittenEscapes | dashboard/backend/routers/knowledge.py:52-53 | the text prefix test lets "../memory2.md" below "/memory" through, although it resolves outside the memory directory |
| Knowledge.SiblingResolves | dashboard/backend/routers/knowledge.py:50 | "/memory" joined with "../memory2.md" resolves to "/memory2.md" |
| Knowledge.ResolvePath | dashboard/backend/routers/knowledge.py:47-54 | the request is allowed exactly when its resolved path lies inside the section's base, and then that resolved path is the result |
| Knowledge.CorrectedRefusesMore | dashboard/backend/routers/knowledge.py:52-53 | whatever the component test allows, the text test allows with the same path; the component test refuses the sibling counterexample |
| Knowledge.PlainPathAllowed | dashboard/backend/routers/knowledge.py:47-54 | a relative request path without ".." is always allowed |
| Knowledge.Parent | dashboard/backend/routers/knowledge.py:70 | `Path.parent` of a non-root path drops its last component, and the path lies under it |
| Knowledge.ReadFile | dashboard/backend/routers/knowledge.py:58-63 | with the corrected containment test of the Findings: 403 exactly when the path is refused, 404 exactly when it is allowed but missing, otherwise that file's text under the requested path |
| Knowledge.WriteFile | dashboard/backend/routers/knowledge.py:67-73 | with the corrected containment test of the Findings: 403 exactly when the path is refused, 404 exactly when its parent directory is missing; otherwise that file's text is replaced or created and nothing else changes |
| Knowledge.WriteKeepsValid | dashboard/backend/routers/knowledge.py:67-73 | a write keeps the file system well formed: every file's parent is a directory, no path is both |
| Knowledge.ReadAfterWrite | dashboard/backend/routers/knowledge.py:58-73 | what was written is read back under the same request |
| Knowledge.WriteIsolated | dashboard/backend/routers/knowledge.py:58-73 | a write changes no other file: every request for another path reads as before |
| AssetsRouter.Sorted | dashboard/backend/routers/assets.py:19-44 | `sorted(iterdir())`: the same entries, ordered by name |
| AssetsRouter.InferPersona | dashboard/backend/routers/assets.py:22-26 | the first configured persona the file name starts with; none exactly when no persona is a prefix |
| AssetsRouter.RefImages | dashboard/backend/routers/assets.py:19-31 | at most one image per directory entry |
| AssetsRouter.RefImagesAreImages | dashboard/backend/routers/assets.py:20-31 | every listed image is a file of the directory with a ".png", ".jpg" or ".jpeg" suffix, served under "reference-images/" |
| AssetsRouter.RefImagesAreImageFiles | dashboard/backend/routers/assets.py:20-31 | every image file of the listing is listed, in order and as often as it occurs, and nothing else |
| AssetsRouter.ListReferenceImages | dashboard/backend/routers/assets.py:14-32 | a missing directory lists nothing; otherwise the images of the sorted entries, in order |
| AssetsRouter.ClipsIn | dashboard/backend/routers/assets.py:44-51 | every clip is a ".mp4" or ".mov" file of that directory, with its persona, type and "persona/type/name" path |
| AssetsRouter.ClipsInAreClipFiles | dashboard/backend/routers/assets.py:44-51 | every ".mp4" or ".mov" file of the directory is listed, in order, under the directory's persona and type |
| AssetsRouter.Dirs | dashboard/backend/routers/assets.py:39-41 | two directories per persona, in persona order, "hook" before "reaction" |
| AssetsRouter.ClipsOfFrom | dashboard/backend/routers/assets.py:39-51 | every listed clip comes from one of the visited directories and is a clip file there |
| AssetsRouter.ListClips | dashboard/backend/routers/assets.py:36-52 | the clips of every persona's hook then reaction directory, missing directories skipped |
| AssetsRouter.ListClipsIn | dashboard/backend/routers/assets.py:38-52 | the loop over the directories yields their clips, directory by directory |
| AssetsRouter.GetAssetUsage | dashboard/backend/routers/assets.py:56-83 | a missing file yields no rows; otherwise the rows of the stripped lines scanned with the open-table flag |
| AssetsRouter.ScanLines | dashboard/backend/routers/assets.py:62-83 | the scan loop yields the rows of the table specification for the stripped lines |
| AssetsRouter.ScanLine | dashboard/backend/routers/assets.py:65-82 | one stripped line: the row it yields and whether the table is open after it |
| AssetsRouter.NoHeaderNoRows | dashboard/backend/routers/assets.py:66-82 | without a header line naming both Date and Account no row is ever read |
| AssetsRouter.HeaderIsHeader | scripts/autopilot.py:169-170 | the column line the text autopilot writes opens the dashboard's table |
| AssetsRouter.SeparatorSkipped | scripts/autopilot.py:171 | the separator line written after it is passed over without closing the table |
| AssetsRouter.RowFacts | scripts/autopilot.py:172-173 | a written row is stripped, starts with "|", is not a separator, and is read back as its entry |
| AssetsRouter.RowReadBack | dashboard/backend/routers/assets.py:71-80 | a row line in an open table is read back as its entry and the table stays open |
| AssetsRouter.RowsReadBack | dashboard/backend/routers/assets.py:64-83 | written rows followed by the final empty line read back as the same entries in order |
| AssetsRouter.SavedUsageReadBack | scripts/autopilot.py:166-174 | the usage file the text autopilot saves is read by the dashboard as exactly its last 30 entries, when no row mentions "Account" |
| AssetsRouter.SplitJoinLines | scripts/autopilot.py:174 | lines without breaks, joined with newlines and ended by one, split back into the lines and a final empty part |
| AssetsRouter.HeaderPassed | dashboard/backend/routers/assets.py:64-70 | the four header lines of the saved file open the table and yield no row |
| AssetsRouter.MediaType | dashboard/backend/routers/assets.py:98-105 | the suffix, lower-cased, picks the type: ".mp4" video/mp4, ".mov" video/quicktime, ".png" image/png, ".jpg" and ".jpeg" image/jpeg, each exactly for those suffixes, and "application/octet-stream" for any other |
| AssetsRouter.ServeAsset | dashboard/backend/routers/assets.py:87-106 | 404 exactly when the resolved file is missing; 403 exactly when it exists but resolves outside the assets directory; otherwise the resolved file is served with the media type of its lower-cased suffix (`MediaType`) |
| AssetsRouter.PlainRequestNotForbidden | dashboard/backend/routers/assets.py:93-96 | a relative request without ".." is never refused as outside the assets directory |
| AssetsRouter.EscapeForbidden | dashboard/backend/routers/assets.py:93-96 | "../secret.png" below "/srv/assets" is refused with 403 even though the file exists |
| LogReader.NormalizeReelPath | dashboard/backend/services/log_reader.py:14-21 | a missing or empty path becomes none; a path under "/root/openclaw/" is moved under the local project root; any other path is kept |
| LogReader.NormalizedUnderRoot | dashboard/backend/services/log_reader.py:19-20 | a relative rest under the server's checkout lands at the project root, a slash and the rest |
| LogReader.NonBlank | dashboard/backend/services/log_reader.py:30-31 | the kept lines are not blank and no more than the input |
| LogReader.NonBlankAppend | dashboard/backend/services/log_reader.py:29-34 | skipping blank lines keeps the order of the others |
| LogReader.NonBlankKeeps | dashboard/backend/services/log_reader.py:30-31 | every non-blank line is kept |
| LogReader.RunsOfFails | dashboard/backend/services/log_reader.py:29-34 | reading succeeds exactly when every non-blank line parses; one bad line fails the whole read |
| LogReader.RunsOfReads | dashboard/backend/services/log_reader.py:29-35 | a successful read has one run per non-blank line, in file order, each the parsed line with its reel path normalised |
| LogReader.ReadAllRuns | dashboard/backend/services/log_reader.py:24-35 | no log file means no runs; otherwise the runs of the lines of the stripped text |
| LogReader.ReadLines | dashboard/backend/services/log_reader.py:29-35 | the line loop computes the runs of all lines, stopping at the first line that does not parse |
| LogReader.ErrSticks | dashboard/backend/services/log_reader.py:32 | once a line has failed to parse, later lines do not change the failure |
| LogReader.AsDailySpend | dashboard/backend/services/log_reader.py:49 | one spend record per ledger item, with its date and amount |
| LogReader.DailySpendListIsLedger | dashboard/backend/services/log_reader.py:45-51 | one record per ledger day with that day's amount, in ascending date order |
| LogReader.SpendOn | dashboard/backend/services/log_reader.py:61 | `spend.get(today, 0.0)`: zero for a day missing from the ledger |
| LogReader.SpendOnFinds | dashboard/backend/services/log_reader.py:61 | the amount of a day present in the ledger |
| LogReader.TodayWithinTotal | dashboard/backend/services/log_reader.py:61-63 | with no negative amounts, today's cost lies between zero and the total spend |
| LogReader.CountOn | dashboard/backend/services/log_reader.py:60 | exactly the number of runs whose timestamp starts with today's date: the length of the log filtered by that test |
| LogReader.CountReels | dashboard/backend/services/log_reader.py:62 | exactly the number of runs with a non-empty reel path: the length of the log filtered by that test |
| LogReader.TotalSpendAppend | dashboard/backend/services/log_reader.py:63 | the sum of the ledger amounts distributes over concatenated ledgers |
| LogReader.CountsAppend | dashboard/backend/services/log_reader.py:60-62 | both counts add up over concatenated run lists |
| LogReader.OverviewStats | dashboard/backend/services/log_reader.py:54-71 | today's runs and the reels are the sizes of the filtered logs, the total spend the sum of the ledger, the configured cap, and today's cost: zero on a day missing from the ledger, that day's amount otherwise |
| LogReader.OverviewAfterRun | dashboard/backend/services/log_reader.py:60-63 | one more run logged today adds one to today's runs and one to the reels when it has a reel; one more ledger day adds its amount to the total spend |
| LogReader.PersonaRunsComplete | dashboard/backend/services/log_reader.py:79 | the runs of a persona are every run of the log that belongs to it, as often as the log holds it, in file order, and no other |
| LogReader.LastRunIsLatest | dashboard/backend/services/log_reader.py:80 | the persona's last run is a run of the log after which the log holds none of its runs |
| LogReader.GlobIsMp4Names | dashboard/backend/services/log_reader.py:85-86 | the glob lists every `.mp4` name of the directory, in listing order, and no other |
| LogReader.PersonaStatOf | dashboard/backend/services/log_reader.py:79-95 | the persona and its colour, its run count (the size of its filtered runs), and the number of `.mp4` files in its hook and reaction directories, zero for a missing directory |
| LogReader.PersonaLastRun | dashboard/backend/services/log_reader.py:80 | no last run exactly when the persona has no runs; otherwise the timestamp of its last run in file order |
| LogReader.GetPersonaStats | dashboard/backend/services/log_reader.py:74-96 | one entry per configured persona, in order, each that persona's statistics |
| LogReader.StatsFor | dashboard/backend/services/log_reader.py:78-96 | the loop over the personas: one entry per persona, in order, each that persona's statistics |
| LogReader.RunsCountedCons | dashboard/backend/services/log_reader.py:79 | one more run is counted once for every listed persona equal to its own |
| LogReader.EveryRunCounted | dashboard/backend/services/log_reader.py:76-93 | when every run belongs to a configured persona, the per-persona run counts add up to the number of runs |
| LogReader.ListedOnce | dashboard/backend/config.py:57 | each configured persona is listed once |
| FunnelSnapshots.Matching | dashboard/backend/services/funnel_snapshots.py:21-22 | without an app every entry is kept; otherwise no more entries than were read |
| FunnelSnapshots.MatchingForApp | dashboard/backend/services/funnel_snapshots.py:19-24 | with an app the listing raises exactly when some entry is not a JSON object (its `.get` fails); otherwise it is exactly the objects whose "app" is that app, in file order and with their repeats |
| FunnelSnapshots.ReadEntry | dashboard/backend/services/funnel_snapshots.py:17-20 | a blank line or one that is not JSON contributes nothing; any other line its parsed entry |
| FunnelSnapshots.ListSnapshots | dashboard/backend/services/funnel_snapshots.py:11-25 | no file lists nothing; otherwise the matching entries of the parsed lines of the stripped text, in order |
| FunnelSnapshots.ListLines | dashboard/backend/services/funnel_snapshots.py:16-25 | the loop over the lines computes the matching entries of the parsed lines |
| FunnelSnapshots.SnapshotOf | dashboard/backend/services/funnel_snapshots.py:30-43 | the app, today's date and "30d"; the given steps or none; started and completed from the first and last step, zero without steps; notes only when non-empty; the overall conversion or zero |
| FunnelSnapshots.SaveSnapshot | dashboard/backend/services/funnel_snapshots.py:28-49 | the returned snapshot is the one recorded, and the file becomes its old text plus the snapshot's JSON line |
| FunnelSnapshots.SavedLineLast | dashboard/backend/services/funnel_snapshots.py:45-47 | appending keeps the old lines and ends the file with the new record's line |
| FunnelSnapshots.LineAppended | dashboard/backend/services/funnel_snapshots.py:46-47 | a line without a break appended with a newline to newline-terminated text becomes exactly one more line |
| PosthogClient.ProjectConfig | dashboard/backend/services/posthog_client.py:37-40 | an unknown app raises `ValueError` naming the valid apps; a known app gives its configured entry |
| PosthogClient.Lookup | dashboard/backend/services/posthog_client.py:40 | `POSTHOG_PROJECTS[app]`: nothing exactly for an unknown app, else the entry of that key |
| PosthogClient.HasKey | dashboard/backend/services/posthog_client.py:47-48 | the config error propagates; a bare project id raises `AttributeError` on `.get`; a proper entry answers whether its key is non-empty |
| PosthogClient.Percent | dashboard/backend/services/posthog_client.py:90-103 | zero when the base is not positive; otherwise the value whose product with the base is 100 times the part |
| PosthogClient.Steps | dashboard/backend/services/posthog_client.py:84-100 | one parsed step per result, each that result's step |
| PosthogClient.ParseSteps | dashboard/backend/services/posthog_client.py:81-103 | the loop with its first and last counts yields the parsed steps and the overall conversion |
| PosthogClient.ZeroSteps | dashboard/backend/services/posthog_client.py:78-79 | one zero step per requested event |
| PosthogClient.FunnelSteps | dashboard/backend/services/posthog_client.py:57 | `steps or DEFAULT_FUNNELS.get(app, [])`: a non-empty request, else the app's default funnel, else none |
| PosthogClient.GetFunnel | dashboard/backend/services/posthog_client.py:51-108 | the reply is the funnel specification for the configuration, app, steps and PostHog response |
| PosthogClient.FirstStepIsBase | dashboard/backend/services/posthog_client.py:86-93 | the first step converts at 100 with no drop-off |
| PosthogClient.OverallIsLastConversion | dashboard/backend/services/posthog_client.py:90-103 | the overall conversion is the last step's conversion when the first step counted anyone, and 0 otherwise |
| PosthogClient.RatesArePercentages | dashboard/backend/services/posthog_client.py:84-100 | in a funnel whose counts never grow every conversion and drop-off lies between 0 and 100 |
| PosthogClient.ConversionChain | dashboard/backend/services/posthog_client.py:90-93 | with every count positive a step's conversion is the previous step's conversion less its drop-off |
| PosthogClient.ShippedConfigRaises | dashboard/backend/services/posthog_client.py:47-48 | under the shipped `POSTHOG_PROJECTS` (bare project ids), every funnel call raises; for a known app it is an `AttributeError` |
| PosthogClient.IntendedConfigAnswers | dashboard/backend/services/posthog_client.py:51-108 | with per-app entries holding id and key, an app without a key gets the "not configured" message and one with a key gets its funnel whenever PostHog answers with a 2xx status |
| PosthogClient.EmptyResultZeroes | dashboard/backend/services/posthog_client.py:73-79 | a 2xx answer with an empty result gives one zero step per requested event and overall conversion 0 |
| PosthogClient.ErrorStatusRaises | dashboard/backend/services/posthog_client.py:63-73 | a configured app whose request is answered with a status outside 2xx raises HTTPStatusError naming the status |
| FunnelSnapshotScript.ParsedLines | scripts/funnel_snapshot.py:90-96 | the JSON lines of the log in order, the undecodable ones skipped; never more entries than lines |
| FunnelSnapshotScript.PreviousIsLastListed | scripts/funnel_snapshot.py:85-97 | the previous snapshot is the last entry the dashboard lists for the app (none when it lists none), and the search fails exactly when that listing does |
| FunnelSnapshotScript.GetPreviousSnapshot | scripts/funnel_snapshot.py:85-97 | the loop over the log's lines returns the last parsed entry whose app matches, nothing when the file is missing |
| FunnelSnapshotScript.ReplaceAll | scripts/funnel_snapshot.py:109 | `str.replace`: replacing with nothing never lengthens the text |
| FunnelSnapshotScript.ReplaceAbsent | scripts/funnel_snapshot.py:109 | a name without "onboarding_" is left as it is |
| FunnelSnapshotScript.ReplaceLeading | scripts/funnel_snapshot.py:109 | a leading occurrence is replaced and the rest of the text is treated the same way |
| FunnelSnapshotScript.PyPrefix | scripts/funnel_snapshot.py:111 | `name[:k]` is the prefix of the name of length k, the whole name when k is past its end, and for negative k the name without its last -k characters (empty when there are fewer) |
| FunnelSnapshotScript.Shorten | scripts/funnel_snapshot.py:107-112 | the name without "onboarding_"; kept whole when it fits, otherwise its first max_len - 1 characters followed by an ellipsis, max_len characters in all (Python slicing for a max_len below one) |
| FunnelSnapshotScript.Times | scripts/funnel_snapshot.py:120 | `c * n`: exactly `max(n, 0)` copies of the character |
| FunnelSnapshotScript.Bar | scripts/funnel_snapshot.py:115-120 | an empty bar when the largest count is zero |
| FunnelSnapshotScript.BarIsFull | scripts/funnel_snapshot.py:115-120 | for a count within a positive largest count the bar is exactly twenty characters: round(count / max_count * 20) full blocks, rounding ties to even, then light shade |
| FunnelSnapshotScript.DeltaStr | scripts/funnel_snapshot.py:123-131 | empty exactly without a previous value; "  =" exactly when the change is under 0.1 either way; otherwise it starts with the arrow of the change's sign |
| FunnelSnapshotScript.FlagOf | scripts/funnel_snapshot.py:191-196 | a cliff exactly when the drop-off is 25% or more; a bug exactly when it is not and the completion step counted nobody |
| FunnelSnapshotScript.SnapshotOf | scripts/funnel_snapshot.py:219-230 | the snapshot carries the app, range and date, the funnel's overall conversion (0 when absent), its steps (none when absent), and the first and last step counts as started and completed (0 without steps) |
| FunnelSnapshotScript.Run | scripts/funnel_snapshot.py:209-233 | an empty or failed fetch does nothing; otherwise an unreadable log fails, and a readable one gets the new snapshot appended as one JSON line |
| Api.ApiBase | dashboard/frontend/src/lib/api.ts:1-3 | the configured address when one is set; otherwise empty exactly in the browser |
| Api.FetchApi | dashboard/frontend/src/lib/api.ts:5-9 | an ok response yields exactly its parsed body; any other response fails with "API error: <status> <statusText>" |
| Api.ReelsParams | dashboard/frontend/src/lib/api.ts:26-29 | a pair for the persona and one for the video type exactly when each is given and non-empty, the persona first, nothing else |
| Api.QueryString | dashboard/frontend/src/lib/api.ts:30 | the query is empty exactly when no parameter is set |
| Api.ReelsQuery | dashboard/frontend/src/lib/api.ts:26-31 | with neither filter the path carries no "?"; with either, the path, "?" and the query of exactly the given filters |
| Api.CompleteLines | dashboard/frontend/src/lib/api.ts:142-143 | the lines a newline ends, none of them holding a newline; the unfinished rest is not among them |
| Api.LineEvents | dashboard/frontend/src/lib/api.ts:146-158 | a line other than the end marker makes at most one call and never `onDone`; it makes one exactly when it is a `data: ` line whose payload parses with type "chunk" (then `onChunk` of its content) or "error" (then `onError` of its content) |
| Api.DispatchAppend | dashboard/frontend/src/lib/api.ts:145-151 | the calls of two batches of lines follow one another until the end marker, after which nothing more is read |
| Api.DispatchSnoc | dashboard/frontend/src/lib/api.ts:145-159 | one more line adds `onDone` if it is the end marker and its own call otherwise |
| Api.DispatchDoneLast | dashboard/frontend/src/lib/api.ts:148-151 | `onDone` is called at most once and only last, exactly when an end marker is among the lines |
| Api.StreamDoneOnce | dashboard/frontend/src/lib/api.ts:123-162 | a readable stream ends with exactly one `onDone`; a failed response or a missing body makes one `onError` call only |
| Api.TrailingPartialIgnored | dashboard/frontend/src/lib/api.ts:142-162 | text after the last newline when the stream ends is never read: it changes no line and no call |
| Api.DispatchLines | dashboard/frontend/src/lib/api.ts:145-160 | the loop over one batch makes the calls of its lines and stops exactly at an end marker |
| Api.ReadChunk | dashboard/frontend/src/lib/api.ts:141-160 | after a chunk the complete lines and buffer are the split of all text read so far, and the calls are those of its complete lines |
| Api.StreamChat | dashboard/frontend/src/lib/api.ts:103-163 | the chunk-by-chunk reader makes exactly the calls the whole stream's text determines |
| Api.StreamStops | dashboard/frontend/src/lib/api.ts:148-151 | returning at the end marker in one chunk's batch loses no call the whole stream would make |
| AssembleVideo.WrapText | scripts/assemble_video.py:59-72 | the greedy word wrap at 32 characters: the lines rejoined give the words rejoined, and every line is non-empty and fits unless it is a single long word |
| AssembleVideo.EscapeDrawtext | scripts/assemble_video.py:75-84 | no ASCII apostrophe remains, every backslash, ":" and ";" is escaped, and unescaping gives the text with apostrophes turned into U+2019 |
| AssembleVideo.QuotesNotEscaped | scripts/assemble_video.py:75-84 | a double quote passes through unescaped in this script's escaper |
| AssembleVideo.PlacementConstants | scripts/assemble_video.py:115-117 | the line height and text centre are the integer parts of 56·1.4 and 1920·0.75 |
| AssembleVideo.TextBlockCentred | scripts/assemble_video.py:115-122 | the block of lines is centred on the text line and its lines are one line height apart |
| AssembleVideo.LineFilters | scripts/assemble_video.py:120-133 | one drawtext per line of the first `m` |
| AssembleVideo.LineFiltersAt | scripts/assemble_video.py:120-133 | drawtext `i` is line `i`'s, escaped and placed by its index |
| AssembleVideo.BuildDrawtextFilter | scripts/assemble_video.py:112-134 | the loop builds exactly one drawtext per wrapped line, in order, each with that line's escaped text and height |
| AssembleVideo.RunFfmpeg | scripts/assemble_video.py:89-99 | a dry run succeeds; otherwise success exactly when ffmpeg exits with 0 |
| AssembleVideo.Assemble | scripts/assemble_video.py:231-288 | the steps run in order up to the first failure; the reel is produced exactly when every planned step succeeds, and uploaded exactly when produced without `--no-upload` |
| AssembleVideo.DryRunAssembles | scripts/assemble_video.py:231-288 | in a dry run every step succeeds |
| AssembleVideo.FirstMissing | scripts/assemble_video.py:315-318 | the label of the first input that does not exist, none exactly when all exist |
| AssembleVideo.MainExit | scripts/assemble_video.py:308-318 | exit status 1 exactly when the hook clip, the screen recording or a given reaction clip is missing |
| AutojournalReel.StripEmojis | scripts/autojournal_reel.py:127-129 | the text's ASCII characters, in order, with the blanks at both ends (and only those) cut off |
| AutojournalReel.StripEmojisKeepsAscii | scripts/autojournal_reel.py:127-129 | ASCII text without blanks at its ends is left unchanged |
| AutojournalReel.EscapeDrawtext | scripts/autojournal_reel.py:132-140 | no ASCII apostrophe remains, every backslash, ":", ";" and double quote is escaped, and unescaping gives the stripped text with apostrophes turned into U+2019 |
| AutojournalReel.WrapText | scripts/autojournal_reel.py:143-156 | the greedy word wrap at 25 characters, the same lines as the recursive greedy `WrapFrom`: the lines rejoined give the words rejoined, and every line is non-empty and fits unless it is a single long word |
| AutojournalReel.PickStyle | scripts/autojournal_reel.py:161-165 | a known override wins; otherwise the style at the run count modulo five, always one of the five styles |
| AutojournalReel.StyleRotation | scripts/autojournal_reel.py:161-165 | without an override consecutive runs get different styles and the rotation repeats every five runs |
| AutojournalReel.PickScreenRecording | scripts/autojournal_reel.py:168-180 | an error exactly when the folder holds no `.mp4`/`.mov`; otherwise one of those, and one not used in the last four runs whenever such a recording exists |
| AutojournalReel.PickCategory | scripts/autojournal_reel.py:183-190 | a known override wins; otherwise a draw from the population with each category repeated by its weight |
| AutojournalReel.RecentHooks | scripts/autojournal_reel.py:516 | the non-empty hook texts of the logged runs, at most one per run |
| AutojournalReel.RecentHooksSnoc | scripts/autojournal_reel.py:516 | a run adds its hook text at the end exactly when it has one |
| AutojournalReel.AvoidLines | scripts/autojournal_reel.py:270 | one quoted bullet per hook for the last eight hooks, in order |
| AutojournalReel.AvoidBlock | scripts/autojournal_reel.py:268-276 | empty exactly without recent hooks, otherwise the fixed instruction first |
| AutojournalReel.AvoidBlockLines | scripts/autojournal_reel.py:268-276 | after the instruction the block's lines are exactly the bullets of the last eight hooks |
| AutojournalReel.OverrideContent | scripts/autojournal_reel.py:505-511 | the command-line texts are used exactly when both are given and non-empty, with empty caption and hashtags |
| Autopilot.Repeat | scripts/autopilot.py:140 | `[cat] * weight`: exactly `n` copies of the key |
| Autopilot.PoolCounts | scripts/autopilot.py:138-140 | each key occurs in the pool exactly as often as its weight, the pool's size is the total weight, and nothing else is in it |
| Autopilot.CategoryWeightOf | scripts/autopilot.py:55-60 | the weights are 40 for A, 30 for B, 15 for C and D, and 0 for anything else |
| Autopilot.PoolWeights | scripts/autopilot.py:55-60 | the category pool holds 100 draws: 40 A, 30 B, 15 C and 15 D |
| Autopilot.CategoryPool | scripts/autopilot.py:138-141 | the pool is never empty and every draw is a category |
| Autopilot.BuildPool | scripts/autopilot.py:138-140 | the loop over the categories builds exactly the weighted pool |
| Autopilot.PickCategory | scripts/autopilot.py:133-141 | a forced category that upper-cases to a key wins, upper-cased; otherwise a draw from the weighted pool; always a category |
| Autopilot.DrawCategory | scripts/autopilot.py:138-141 | the random pick from the weighted pool is an entry of the pool and therefore one of the four categories |
| Autopilot.ParseUsageLine | scripts/autopilot.py:156-162 | only a line starting with "\|" that is neither the header nor the separator becomes an entry |
| Autopilot.ParseUsageCons | scripts/autopilot.py:155-162 | a line that is not an entry is skipped |
| Autopilot.ParseUsage | scripts/autopilot.py:154-163 | at most one entry per line, in file order |
| Autopilot.LoadAssetUsage | scripts/autopilot.py:148-163 | the loop over the file's lines yields the file's entries, none when the file is missing |
| Autopilot.Rows | scripts/autopilot.py:172-173 | one formatted row per entry, in order |
| Autopilot.SplitFramed | scripts/autopilot.py:157 | a row framed by "\|" splits back into its cells with an empty part at either end |
| Autopilot.ParseFormatRow | scripts/autopilot.py:148-174 | a written row reads back as its entry |
| Autopilot.ParseRows | scripts/autopilot.py:148-174 | written rows read back as their entries, in order |
| Autopilot.ParseUsageAll | scripts/autopilot.py:154-163 | lines that each read as an entry read as those entries, in order |
| Autopilot.SaveLoadRoundTrip | scripts/autopilot.py:148-174 | saving the usage memory and loading it back gives the last 30 entries, in order |
| Autopilot.HeaderSkipped | scripts/autopilot.py:156-171 | the title, column and separator lines written above the rows add no entry |
| Autopilot.HeaderLinesSkipped | scripts/autopilot.py:156-171 | none of the four header lines reads as an entry |
| Autopilot.NotTableLine | scripts/autopilot.py:156 | a line not starting with "\|" is not an entry |
| Autopilot.OlderRowsNotRecent | scripts/autopilot.py:200-214 | an account's rows older than the log's last seven rows never count as recent, however few rows the account has |
| Autopilot.VideoNames | scripts/autopilot.py:177-190 | the names whose suffix is exactly ".mp4" or ".mov", and only those |
| Autopilot.PickAsset | scripts/autopilot.py:193-205 | an empty folder gives the bracketed placeholder; otherwise one of its clips, and one this account did not use in the last seven rows whenever such a clip exists |
| Autopilot.PickScreenRecording | scripts/autopilot.py:208-216 | an empty folder gives the bracketed placeholder; otherwise one of its recordings, and one this account did not use recently whenever such a recording exists |
| Autopilot.DedupPairsSymmetric | scripts/autopilot.py:40-52 | the sibling map pairs known accounts of the same persona, each with a different account that maps back |
| Autopilot.DedupHooks | scripts/autopilot.py:403-418 | no hook without a sibling; with one, the sibling's hook exactly when today's sibling output exists, at most one hook |
| Autopilot.Title | scripts/autopilot.py:345 | `str.title()` keeps the length and upper-cases each letter that does not follow a letter, lower-cases each letter that does, and keeps every other character |
| Autopilot.SubjectShape | scripts/autopilot.py:343-345 | the subject starts with the title-cased persona and handle and ends with the category and the quoted first 50 characters of the hook |
| Autopilot.UsageMemory.RunAccount | scripts/autopilot.py:438-461 | an idea-only run leaves the memory alone; otherwise the memory becomes its loaded rows plus exactly this run's row, saved, with each asset chosen from its folder when that is non-empty |
| Autopilot.RecordedRowIsLast | scripts/autopilot.py:454-461 | after a recording run the memory's last row is this run's row, preceded by up to 29 earlier rows |
| AutopilotVideo.AddSpend | scripts/autopilot_video.py:112 | today's entry becomes its old value (0 when absent) plus the amount; every other date keeps its entry and no other date appears |
| AutopilotVideo.AddSpendTwice | scripts/autopilot_video.py:105-113 | two spends on the same day add up to one spend of their sum |
| AutopilotVideo.Ledger.Spent | scripts/autopilot_video.py:99 | `ledger.get(today, 0.0)`: today's entry, else 0 |
| AutopilotVideo.Ledger.CheckDailySpend | scripts/autopilot_video.py:93-102 | ok exactly when today's spend plus the estimate stays within the cap; today's spend is returned either way |
| AutopilotVideo.Ledger.RecordSpend | scripts/autopilot_video.py:105-113 | the ledger becomes the old ledger with the amount added to today's entry |
| AutopilotVideo.Ledger.RunForApp | scripts/autopilot_video.py:765-875 | the cap stops a real run exactly when today's spend plus 0.61 exceeds it; a failing stage raises; a dry run costs the text only; spend is recorded only after a generated clip, which keeps today within the cap |
| AutopilotVideo.Ledger.RunPersona | scripts/autopilot_video.py:748-762 | a filter matching no app runs nothing; otherwise the outcomes and the final ledger are those of the selected apps run in order, each on the ledger the previous one left, until one raises; today's spend stays within the cap when it was, and no other date changes |
| AutopilotVideo.Ledger.RunAll | scripts/autopilot_video.py:761-762 | the loop over the apps yields exactly the outcomes and the ledger of running them in order until one raises |
| AutopilotVideo.RunApps | scripts/autopilot_video.py:761-762 | at most one outcome per app; only the last outcome can be a raise, and a run that stops early ends with one |
| AutopilotVideo.RunAppsAt | scripts/autopilot_video.py:761-762 | outcome k is app k's own run on the ledger the first k apps left, none of which raised |
| AutopilotVideo.RunAppsFrom | scripts/autopilot_video.py:761-762 | the run from app i on is app i's run followed, unless it raised, by the rest on the ledger it left |
| AutopilotVideo.AppStepLedger | scripts/autopilot_video.py:775-842 | one app's run only adds to today's entry, and never past the cap when today was within it |
| AutopilotVideo.RunAppsLedger | scripts/autopilot_video.py:748-762 | a whole run only adds to today's entry, and never past the cap when today was within it |
| AutopilotVideo.PickVideoType | scripts/autopilot_video.py:246-249 | the rotation type at the day of the year modulo three |
| AutopilotVideo.RotationPeriod | scripts/autopilot_video.py:246-249 | the rotation repeats every three days and visits all three types |
| AutopilotVideo.ClipSplitPoints | scripts/autopilot_video.py:222-243 | an answer exactly for the five known types; only "olivia_default" has no reaction part |
| AutopilotVideo.SplitPointsFitClip | scripts/autopilot_video.py:222-243 | every cut lies inside the four-second clip, and every rotation type has a reaction part |
| AutopilotVideo.ResolveVideoType | scripts/autopilot_video.py:750-752 | an explicit type wins, else the persona's own non-empty type, else the day's rotation |
| AutopilotVideo.SelectApps | scripts/autopilot_video.py:754-760 | without a filter all of the persona's apps; with one exactly the apps whose folder matches it, each as often as in the persona and in the persona's order; an error exactly when none does |
| AutopilotVideo.ResolvePersonas | scripts/autopilot_video.py:896-909 | "both" and "all" name their fixed lists; a comma list is accepted exactly when all its trimmed non-blank names are known; a single name exactly when it is known |
| AutopilotVideo.NonBlank | scripts/autopilot_video.py:902 | the trimmed non-empty parts only |
| AutopilotVideo.BlankListRunsNothing | scripts/autopilot_video.py:901-905 | a comma list of blanks is accepted and names no persona |
| AutopilotVideo.ReferenceCandidates | scripts/autopilot_video.py:259-273 | the variant types use exactly the persona's "-v" images, the lighting types exactly the image stem for their tag, and any other type is a missing key |
| AutopilotVideo.Least | scripts/autopilot_video.py:270-276 | the first name in sort order: one of the names, no later than any |
| AutopilotVideo.PickReferenceImage | scripts/autopilot_video.py:252-278 | fails exactly when there is no candidate; otherwise a candidate, the first in sort order for the lighting types |
| AutopilotVideo.NormalizeText | scripts/autopilot_video.py:626-630 | a missing reaction text becomes "" and a missing angle "discovery"; everything else is kept |
| AutopilotVideo.NormalizeIdempotent | scripts/autopilot_video.py:626-630 | normalising twice is normalising once |
| AutopilotVideo.StripFence | scripts/autopilot_video.py:602-606 | a reply without fences is only trimmed; an opening fence with no line after it fails; otherwise an opening fence drops the first line and a closing fence is cut off, leaving exactly the text between them |
| AutopilotVideo.AfterFirstLine | scripts/autopilot_video.py:604 | everything after the first newline; a text without one has no second part |
| AutopilotVideo.BeforeLastFence | scripts/autopilot_video.py:606 | for a text ending with the fence, the text before that last fence, so that appending the fence gives the text back |
| BirdRunner.CheckAvailable | dashboard/backend/services/bird_runner.py:13-22 | available exactly when the client ran and exited with 0; the version is its stripped standard output, or empty when it could not run |
| BirdRunner.RunBird | dashboard/backend/services/bird_runner.py:25-33 | the output exactly when the client exits with 0; a failed exit gives the stripped error output, or "bird exited with code N" when that is blank; a client that cannot run gives its exception text |
| BirdRunner.TextFold | dashboard/backend/services/bird_runner.py:40-52 | every post closed while reading has text |
| BirdRunner.TextPosts | dashboard/backend/services/bird_runner.py:36-55 | every post read from text has non-empty text; the posts closed by blank lines come first, followed by the post still open at the end exactly when it has text |
| BirdRunner.ParsePostsFromText | dashboard/backend/services/bird_runner.py:36-55 | the line loop with its current post yields exactly the text reading's posts |
| BirdRunner.StepText | dashboard/backend/services/bird_runner.py:49-52 | a text line starts the post's text or extends it after one space |
| BirdRunner.TextFoldSnoc | dashboard/backend/services/bird_runner.py:40-52 | reading one more line is one more step of the loop |
| BirdRunner.TextLinesJoin | dashboard/backend/services/bird_runner.py:49-52 | text lines after a post without text join into its text with single spaces |
| BirdRunner.PostBlock | dashboard/backend/services/bird_runner.py:40-54 | a handle line, text lines and a blank line read as exactly one more post: the handle line's first word and the joined text |
| BirdRunner.HandleSurvivesBlank | dashboard/backend/services/bird_runner.py:42-46 | a blank line does not close a post without text: the handle read before it stays |
| BirdRunner.ObjectPosts | dashboard/backend/services/bird_runner.py:62-75 | at most one post per item |
| BirdRunner.ObjectPostsSnoc | dashboard/backend/services/bird_runner.py:63-74 | one more item adds its post, if any, at the end |
| BirdRunner.JsonPosts | dashboard/backend/services/bird_runner.py:58-75 | the JSON reading succeeds exactly when the output holds items and every count reads as an integer |
| BirdRunner.ParsePostsJson | dashboard/backend/services/bird_runner.py:58-75 | the item loop yields exactly the JSON reading's posts |
| BirdRunner.NonObjectsIgnored | dashboard/backend/services/bird_runner.py:63-65 | items that are not objects change nothing, and there is exactly one post per object |
| BirdRunner.Objects | dashboard/backend/services/bird_runner.py:63-65 | only the object items, in order |
| BirdRunner.PostsResult | dashboard/backend/services/bird_runner.py:78-104 | a failed run gives only its error; a successful one gives no error, its raw output and no trends, with the JSON reading's posts when the output decodes and reads as posts and the text reading's posts otherwise |
| BirdRunner.TrimAts | dashboard/backend/services/bird_runner.py:94 | `lstrip("@")`: the handle with exactly its leading "@" characters removed |
| BirdRunner.JsonTrends | dashboard/backend/services/bird_runner.py:117-125 | at most one trend per item |
| BirdRunner.JsonTrendsOfItems | dashboard/backend/services/bird_runner.py:117-125 | exactly one trend per object or string item, in order: an object's name and count, a string with no count; other items give none |
| BirdRunner.TextTrends | dashboard/backend/services/bird_runner.py:127-130 | each trend is a kept line with no count |
| BirdRunner.TextTrendsOfLines | dashboard/backend/services/bird_runner.py:127-130 | the trends are exactly the stripped lines that are non-blank and start with none of "#", "-" and "=", in order, each with no count |
| BirdRunner.Trending | dashboard/backend/services/bird_runner.py:107-132 | a failed run gives only its error; a JSON list gives the trends of its items, an object the trends of its "trends" list; output that is neither is read line by line |
| BirdRunner.Cell | dashboard/backend/services/bird_runner.py:143-144 | same length, each "\|" turned into "/" and each line break into a space, every other character kept |
| BirdRunner.ShortText | dashboard/backend/services/bird_runner.py:143 | the first 80 characters (all of a shorter text), each made fit for a cell, so none is "\|" or a line break |
| BirdRunner.SearchPosts | dashboard/backend/services/bird_runner.py:78-89 | the posts result of running `search <query> --count <count>` |
| BirdRunner.UserTweets | dashboard/backend/services/bird_runner.py:92-104 | the handle loses exactly its leading "@" characters, and the result is the posts result of running `user <handle> --count <count>` |
| BirdRunner.Row | dashboard/backend/services/bird_runner.py:157-166 | the row for each of the four sections, with its columns in the order of the section's table: the text cut to 80 characters and the text and note cleaned for a cell; the engagement cell reads "<likes>L/<retweets>RT" |
| BirdRunner.RowFrame | dashboard/backend/services/bird_runner.py:157-166 | every row opens with "\| " and closes with " \|" |
| BirdRunner.Kinds | dashboard/backend/services/bird_runner.py:174-185 | every line of the file, classified as the scan reads it |
| BirdRunner.ScanFrom | dashboard/backend/services/bird_runner.py:174-185 | the scan never points past the end of the file |
| BirdRunner.InsertIndex | dashboard/backend/services/bird_runner.py:172-189 | the insertion index lies within the file |
| BirdRunner.FirstMarker | dashboard/backend/services/bird_runner.py:175-177 | the first line from `i` that opens the section, or the end |
| BirdRunner.HeaderAfter | dashboard/backend/services/bird_runner.py:180-182 | the first line from `i` that opens another section, or the end |
| BirdRunner.LastTableLine | dashboard/backend/services/bird_runner.py:184-185 | the last table row or blank line from `i` on, if any |
| BirdRunner.ScanOutside | dashboard/backend/services/bird_runner.py:175-178 | before the section the scan passes over lines until its heading |
| BirdRunner.ScanInside | dashboard/backend/services/bird_runner.py:178-185 | inside the section the scan stops at the next heading, and otherwise ends just after the last row or blank line |
| BirdRunner.InsertIndexPlacement | dashboard/backend/services/bird_runner.py:170-189 | the row goes right before the next section after its own, else right after its last row or blank line, else at the end |
| BirdRunner.RowOneLine | dashboard/backend/services/bird_runner.py:143-166 | a row is one line when the handle and date are: the text and note are cleaned of line breaks |
| BirdRunner.LineInserted | dashboard/backend/services/bird_runner.py:191-192 | reading the written file back as lines gives the old lines with exactly the row inserted at the index |
| BirdRunner.FindInsertIndex | dashboard/backend/services/bird_runner.py:170-189 | the scan with its section flag and early exit gives the insertion index |
| BirdRunner.SaveInsight | dashboard/backend/services/bird_runner.py:135-193 | a missing file and an unknown section are refused and nothing is written; otherwise the row is inserted at the index and the file is written |
| Dispatcher.LoadConfig | scripts/dispatcher.py:45-49 | a missing schedule reads as the empty object, an existing one as its content |
| Dispatcher.RecurrenceRule | scripts/dispatcher.py:52-61 | "daily" and any unknown frequency always run; "weekdays" runs Monday to Friday; "every_2_days" on even days of the year; "custom" on the listed weekdays |
| Dispatcher.EveryTwoDaysAlternates | scripts/dispatcher.py:57-58 | "every_2_days" runs on exactly one of two consecutive days of the year |
| Dispatcher.DefaultCustomIsDaily | scripts/dispatcher.py:106 | with the default day list "custom" agrees with "daily" on every weekday |
| Dispatcher.LockName | scripts/dispatcher.py:64-65 | every lock name matches the cleanup's ".dispatch_*.lock" pattern |
| Dispatcher.LockNameInjective | scripts/dispatcher.py:64-65 | two different account and date pairs, with dates of one length, never share a lock file |
| Dispatcher.FireCommands | scripts/dispatcher.py:133 | one command per fired account, in order |
| Dispatcher.LockDir.IsLocked | scripts/dispatcher.py:68-69 | locked exactly when the account's lock for today exists |
| Dispatcher.LockDir.AcquireLock | scripts/dispatcher.py:72-73 | the account's lock for today now holds the current time; nothing else changes |
| Dispatcher.LockDir.CleanupOldLocks | scripts/dispatcher.py:87-95 | the loop over the lock files leaves exactly the sweep of the old locks |
| Dispatcher.LockDir.Tick | scripts/dispatcher.py:98-135 | one run fires and locks what the run's specification says and launches one command per fired account |
| Dispatcher.EmptyConfigIsNoOp | scripts/dispatcher.py:45-103 | a missing schedule file, or one holding the empty object, changes nothing; a schedule without accounts fires nothing |
| Dispatcher.OffDayOnlySweeps | scripts/dispatcher.py:108-111 | on a day the rule excludes nothing fires and no lock is taken, but the sweep runs |
| Dispatcher.VisitGrows | scripts/dispatcher.py:116-133 | visiting the accounts only adds locks, each stamped now |
| Dispatcher.FiredWereDueAndUnlocked | scripts/dispatcher.py:116-133 | every fired account was enabled and due, had no lock when the run began, and holds a lock stamped now afterwards |
| Dispatcher.FiredDistinct | scripts/dispatcher.py:116-133 | within one run each account fires at most once |
| Dispatcher.FreshLockSurvivesSweep | scripts/dispatcher.py:87-95 | a lock survives any sweep less than seven days after it was taken |
| Dispatcher.SameDateFiresOnce | scripts/dispatcher.py:128-133 | repeated runs on the same date fire each account at most once |
| Dispatcher.DueUnlockedFires | scripts/dispatcher.py:116-133 | an account that is due and has no lock of its own is fired: other accounts' or dates' locks never suppress it |
| EmailSender.ListAccounts | dashboard/backend/services/email_sender.py:24-29 | one entry per account, in order, with its label and address and nothing else |
| EmailSender.GetAccount | dashboard/backend/services/email_sender.py:32-37 | none exactly when no account has the label; otherwise an account with that label |
| EmailSender.GetAccountFirst | dashboard/backend/services/email_sender.py:34-36 | the account found is the first with the label |
| EmailSender.DashRun | dashboard/backend/services/email_sender.py:51 | the run of leading dashes: all dashes, and no dash right after it |
| EmailSender.SepAt | dashboard/backend/services/email_sender.py:51 | a separator match at the start covers at least newline, three dashes and newline |
| EmailSender.SepAtExtend | dashboard/backend/services/email_sender.py:51 | a separator match depends only on the text it covers |
| EmailSender.SplitEntries | dashboard/backend/services/email_sender.py:51 | the split always has at least one entry |
| EmailSender.SplitEntriesClean | dashboard/backend/services/email_sender.py:51 | no entry of the split contains a separator |
| EmailSender.EntriesHaveNoSeparator | dashboard/backend/services/email_sender.py:51 | the entries of a whole text contain no separator |
| EmailSender.SplitTwoEntries | dashboard/backend/services/email_sender.py:51 | two entries around a three-dash rule are cut apart |
| EmailSender.SplitJoin | dashboard/backend/services/email_sender.py:51 | entries joined by "\n---\n" rules, none holding a separator, split back into exactly those entries |
| EmailSender.SkipBlanks | dashboard/backend/services/email_sender.py:61 | `\s*`: the longest run of blanks from the position |
| EmailSender.SkipDigits | dashboard/backend/services/email_sender.py:61 | `\d*`: the longest run of ASCII digits from the position |
| EmailSender.SkipRun | dashboard/backend/services/email_sender.py:61 | `\S*`: the longest run of non-blanks from the position |
| EmailSender.LineEnd | dashboard/backend/services/email_sender.py:82 | the next line break from the position, or the end |
| EmailSender.HeaderAt | dashboard/backend/services/email_sender.py:60-62 | a header match at the start yields a blank-free address |
| EmailSender.SearchHeader | dashboard/backend/services/email_sender.py:60-62 | the leftmost header match yields a blank-free address |
| EmailSender.SearchHeaderLeftmost | dashboard/backend/services/email_sender.py:60-62 | the header is found exactly when the pattern matches at some position, and then it is the match at the leftmost such position |
| EmailSender.HeaderExample | dashboard/backend/services/email_sender.py:60-66 | the number is read from the digits after "###" and an optional "#", and the address is the run after the dash |
| EmailSender.RStripParen | dashboard/backend/services/email_sender.py:67 | `rstrip(")")`: the text with exactly its trailing ")" characters removed |
| EmailSender.SkipReason | dashboard/backend/services/email_sender.py:69-78 | "contact form" exactly when the upper-cased first line has that flag; "adapted for DM" exactly when it has only the other flag; none otherwise |
| EmailSender.UpperIdempotent | dashboard/backend/services/email_sender.py:73-76 | upper-casing twice is upper-casing once |
| EmailSender.SkipReasonIgnoresCase | dashboard/backend/services/email_sender.py:69-78 | the flags are case-insensitive |
| EmailSender.SubjectAt | dashboard/backend/services/email_sender.py:81-83 | a subject match ends within the text and its group is one line |
| EmailSender.SearchSubject | dashboard/backend/services/email_sender.py:81-83 | the leftmost subject match ends within the text and its group is one line |
| EmailSender.SearchSubjectLeftmost | dashboard/backend/services/email_sender.py:81-83 | the subject is found exactly when the pattern matches at some position, and then it is the match at the leftmost such position |
| EmailSender.SubjectRoundTrip | dashboard/backend/services/email_sender.py:81-84 | a "**Subject:** text" line reads back as exactly that text, the match taking its line break |
| EmailSender.FirstLine | dashboard/backend/services/email_sender.py:72 | `entry.split("\n")[0]`: the prefix up to the first line break |
| EmailSender.Body | dashboard/backend/services/email_sender.py:86-95 | the body is stripped: the text after the subject match, or after the first line when there is no subject, kept whole when it has no surrounding blanks; "" for a one-line entry without a subject |
| EmailSender.Recipient | dashboard/backend/services/email_sender.py:67 | the address with exactly its trailing ")" characters removed |
| EmailSender.Subject | dashboard/backend/services/email_sender.py:84 | "" without a subject match; otherwise the match's group, stripped, and kept whole when it has no surrounding blanks |
| EmailSender.ParsedEntry | dashboard/backend/services/email_sender.py:54-104 | an entry is accepted exactly when its header is found; the email carries the header's number and address without trailing ")", a skip flag exactly when a skip reason is found on the first line, the stripped subject group (or "" with no subject match), and the stripped text after the subject match (or after the first line, or "") |
| EmailSender.SubjectOneLine | dashboard/backend/services/email_sender.py:81-84 | the subject is one line |
| EmailSender.Accepted | dashboard/backend/services/email_sender.py:54-104 | an entry contributes one email exactly when it is accepted |
| EmailSender.ParseAllAppend | dashboard/backend/services/email_sender.py:54-104 | the emails of two runs of entries are those of the first followed by those of the second |
| EmailSender.ParseAllAt | dashboard/backend/services/email_sender.py:54-104 | each entry contributes its own email at its own place |
| EmailSender.ParseOutreachMarkdown | dashboard/backend/services/email_sender.py:43-106 | the loop over the split entries collects exactly the emails of the accepted entries, in order |
| EmailSender.Sendable | dashboard/backend/services/email_sender.py:157 | exactly the emails without the skip flag, in order |
| EmailSender.SendableIsFilter | dashboard/backend/services/email_sender.py:157 | the sendable emails are the list filtered on "not skip": same order, same repeats |
| EmailSender.StepEvents | dashboard/backend/services/email_sender.py:171-216 | each send announces the email with its position, then reports sent exactly when it went out, then a pause exactly when it is not the last |
| EmailSender.Outcomes | dashboard/backend/services/email_sender.py:171-207 | one outcome per attempted email, in order |
| EmailSender.CountsAddUp | dashboard/backend/services/email_sender.py:219-220 | sent plus failed is the number of outcomes |
| EmailSender.PausesBetweenSends | dashboard/backend/services/email_sender.py:209-217 | there is a pause after every send but the last |
| EmailSender.BatchEndsWithResult | dashboard/backend/services/email_sender.py:209-217 | the last send event of a batch is a result, not a pause |
| EmailSender.StepEndsWithResult | dashboard/backend/services/email_sender.py:209-217 | the last send ends with its result |
| EmailSender.StepPauses | dashboard/backend/services/email_sender.py:209-217 | one pause per send except the last |
| EmailSender.AnnouncedAreSendable | dashboard/backend/services/email_sender.py:157-179 | every announcement names an email without the skip flag, with its position |
| EmailSender.SendBatch | dashboard/backend/services/email_sender.py:145-248 | an unknown account gives one error event and saves nothing; otherwise start, the per-email events, the completion with the counts, and the batch record saved |
| EmailSender.SendEach | dashboard/backend/services/email_sender.py:171-217 | the loop makes one step of events and one outcome per sendable email, in order |
| EmailSender.BatchCountsAddUp | dashboard/backend/services/email_sender.py:219-230 | the completion's sent and failed counts add up to the batch total |
| GenerateSlideshow.StartY | scripts/generate_slideshow.py:102-106 | the top of the text block lies between 20% and 65% of the slide height |
| GenerateSlideshow.StartYCases | scripts/generate_slideshow.py:102-106 | up to ten lines the block is centred; from eleven lines on it starts at the 20% mark; the 65% bound is never reached |
| GenerateSlideshow.Placements | scripts/generate_slideshow.py:109-113 | one placement per line, in order, centred horizontally by the line's width and one line height below the previous |
| GenerateSlideshow.AddTextOverlay | scripts/generate_slideshow.py:76-121 | the text wrapped greedily to the maximum width, every line fitting unless it is a single word, each placed as the block layout says |
| GenerateSlideshow.OverlayOf | scripts/generate_slideshow.py:151-152 | the hook on the first slide and the configured text on the others, exactly when that text is not empty |
| GenerateSlideshow.SlideAt | scripts/generate_slideshow.py:138-157 | with generation and resizing that never fail (see Left out), an asset slide succeeds exactly when its path is given and exists, and is that asset resized; another slide succeeds exactly when it has a prompt, and is generated from it; the slide's output is its overlay file when it has an overlay |
| GenerateSlideshow.CollectShape | scripts/generate_slideshow.py:137-159 | the loop fails exactly when some element raises, with the first such error; otherwise it adds one value per element, in order |
| GenerateSlideshow.CollectAll | scripts/generate_slideshow.py:137-159 | the whole loop succeeds exactly when no element raises, and then holds one value per element |
| GenerateSlideshow.GenerateSlides | scripts/generate_slideshow.py:126-159 | the loop over the configurations yields the show the configurations determine |
| GenerateSlideshow.SlidesShape | scripts/generate_slideshow.py:126-159 | the show fails exactly when some configuration does, with the first failure; otherwise one slide per configuration, each from its own configuration and position |
| GenerateSlideshow.Normalized | scripts/generate_slideshow.py:166-169 | an untyped configuration becomes a generated slide from its prompt (a missing prompt raises); a typed one passes through |
| GenerateSlideshow.Normalize | scripts/generate_slideshow.py:164-169 | the normalisation loop gives the normalised list |
| GenerateSlideshow.NormalizedTyped | scripts/generate_slideshow.py:164-169 | normalising succeeds exactly when every configuration has a type or a prompt, and keeps the number and order, giving every slide a type |
| GenerateSlideshow.NormalizeIdempotent | scripts/generate_slideshow.py:164-169 | normalising a normalised list changes nothing |
| GenerateSlideshow.GenerateReactionSlides | scripts/generate_slideshow.py:162-170 | a normalisation failure raises; otherwise the show of the normalised list |
| GenerateSlideshow.StatsOf | scripts/generate_slideshow.py:175-180 | yearly hours are daily hours times 365, the remaining years the life expectancy less the age, the lifetime hours their product, and the yearly days rounded to within half a day |
| GenerateSlideshow.StatTexts | scripts/generate_slideshow.py:188-195 | six texts: the hook, the daily hours of the persona, the yearly hours grouped and the full days, the lifetime in years to one decimal, then the two fixed closing texts |
| GenerateSlideshow.StatSlidesShape | scripts/generate_slideshow.py:173-204 | with image generation that never fails (see Left out), the screen-time show succeeds with six generated slides quoting their texts; only the first is overlaid, with the hook, when it is not empty |
| GenerateVariants.SceneOf | scripts/generate_variants.py:49-62 | a preset found under a key is the preset of that key |
| GenerateVariants.SceneKeysRead | scripts/generate_variants.py:49-62 | every preset is found under its own key, so the keys are distinct |
| GenerateVariants.AssembleHolds | scripts/generate_variants.py:94-108 | the prompt holds its subject, its scene and its action paragraph |
| GenerateVariants.BuildPrompt | scripts/generate_variants.py:86-110 | a prompt exactly for a known scene key; an unknown key raises `KeyError` naming it |
| GenerateVariants.PromptForContents | scripts/generate_variants.py:86-110 | the prompt names the given outfit, or the template's outfit when none is given; describes the scene; and holds the hook action for a hook clip and the reaction action otherwise |
| GenerateVariants.ScenePool | scripts/generate_variants.py:239-244 | a persona's pool of scenes is never empty |
| GenerateVariants.SelectScene | scripts/generate_variants.py:232-245 | a named scene must be a preset and is used; without one, a scene from the persona's pool |
| GenerateVariants.ScenePools | scripts/generate_variants.py:239-244 | Sanya draws the indoor scenes and the park, Sophie the outdoor scenes and the cafe; the other indoor scenes go only to Sanya, the other outdoor ones only to Sophie |
| GenerateVariants.ClipTypes | scripts/generate_variants.py:250 | "both" gives hook then reaction; otherwise just the named type; never a repeat |
| GenerateVariants.OutfitTag | scripts/generate_variants.py:273 | "default" without an outfit; otherwise the outfit with blanks turned into "-" and cut to 20 characters |
| GenerateVariants.Pad3 | scripts/generate_variants.py:295 | `{n:03d}`: at least three digits |
| GenerateVariants.Pad3Reads | scripts/generate_variants.py:295 | the padded number reads back as the number |
| GenerateVariants.NumberedPool | scripts/generate_variants.py:293-295 | a pool numbered without gaps holds one clip per number |
| GenerateVariants.PoolNameDistinct | scripts/generate_variants.py:295 | distinct numbers give distinct pool names |
| GenerateVariants.NextPoolNameFresh | scripts/generate_variants.py:293-295 | in a pool numbered without gaps the next number names a new clip, and adding it keeps the pool without gaps |
| GenerateVariants.PromptOfBuilds | scripts/generate_variants.py:254 | with the source's tables the prompt of a run is what `build_prompt` gives for the scene |
| GenerateVariants.Run | scripts/generate_variants.py:210-310 | listing the scenes does nothing else; an unknown scene exits; otherwise prompts are shown (all on a dry run, the first only with `--prompt-only`) or clips are made: the run ends with no video address exactly when some type's prompt gets an empty address and with clips exactly when the image is present and every address is non-empty, one per type, each taking the next number of its pool on auto-approve |
| GenerateVariants.RunScene | scripts/generate_variants.py:247-310 | once the scene is chosen: the prompts shown, or, when clips are made, the run ends with clips exactly when the reference image is present and every prompt's video address is non-empty, and with the no-address exit exactly when the image is present and some address is empty; on auto-approve each clip takes the number of its pool |
| GenerateVariants.MakeClips | scripts/generate_variants.py:265-298 | when clips are made: a missing reference image ends the run; given the image, an empty video address for some type's prompt ends it with the no-address message and otherwise the run succeeds, with one kept file per clip type in order and, on auto-approve only, each clip numbered one past its pool's count |
| GenerateVariants.ShowPrompts | scripts/generate_variants.py:253-263 | every clip type's prompt on a dry run, only the first otherwise |
| GenerateVariants.GenerateClips | scripts/generate_variants.py:253-284 | one kept file per clip type, in order and numbered by position, each after its type's prompt gave a video address; a missing reference image ends the run with its message, and it ends with clips if and only if the image is present and every prompt's video address is non-empty, with the no-address message otherwise |
| GenerateVariants.AddToPool | scripts/generate_variants.py:287-298 | each clip is copied into its pool under the pool's count plus one |
| LifestyleReel.StripEmojis | scripts/lifestyle_reel.py:87-89 | the text's characters other than emoji, in order, with the blanks at both ends (and only those) cut off |
| LifestyleReel.StripEmojisExact | scripts/lifestyle_reel.py:70-89 | exactly the emoji characters go, character by character, and stripping twice is stripping once |
| LifestyleReel.EscapeDrawtext | scripts/lifestyle_reel.py:92-100 | no ASCII apostrophe remains, every backslash, ":", ";" and double quote is escaped, and unescaping gives the emoji-free text with apostrophes turned into U+2019 |
| LifestyleReel.WrapText | scripts/lifestyle_reel.py:103-116 | the greedy word wrap at 28 characters: the lines rejoined give the words rejoined, and every line is non-empty and fits unless it is a single long word |
| LifestyleReel.SceneImages | scripts/lifestyle_reel.py:121-127 | exactly the files named "<scene>-v…" with a ".png", ".jpg" or ".jpeg" suffix |
| LifestyleReel.ImageKey | scripts/lifestyle_reel.py:160 | the scene name with "-" turned into "_" and "_image" appended |
| LifestyleReel.ImageKeys | scripts/lifestyle_reel.py:160 | "scene-1" is logged as "scene_1_image" and "scene-2" as "scene_2_image" |
| LifestyleReel.PickImage | scripts/lifestyle_reel.py:153-163 | an error exactly when the scene has no image; otherwise one of its images, and one not named in the last seven runs whenever there is one |
| LifestyleReel.PickScreenRecording | scripts/lifestyle_reel.py:166-175 | an error exactly when there is no recording; otherwise one, and one not used in the last seven runs whenever there is one |
| LifestyleReel.BoxOpts | scripts/lifestyle_reel.py:264-286 | the box text carries the escaped text, and `line_spacing` exactly for several lines |
| LifestyleReel.BuildDrawtext | scripts/lifestyle_reel.py:257-287 | `line_spacing` appears exactly when the text wraps onto more than one line |
| LifestyleReel.Frames | scripts/lifestyle_reel.py:293 | `int(duration * FPS)`: the whole number of frames at 30 per second |
| LifestyleReel.SceneFrames | scripts/lifestyle_reel.py:42-45 | the two image scenes last 120 and 75 frames |
| LifestyleReel.AppendRowLines | scripts/lifestyle_reel.py:389-391 | appending to an existing file adds exactly the row as one line after the lines of the trimmed file |
| LifestyleReel.AppendRowNew | scripts/lifestyle_reel.py:392-394 | a missing file becomes the header followed by the row |
| LifestyleReel.UsageFile.UpdateAssetUsage | scripts/lifestyle_reel.py:385-394 | the usage file gets the reel's row appended |
| LifestyleReel.OverrideContent | scripts/lifestyle_reel.py:441-448 | the command-line texts are used exactly when all three are given and non-empty, with an empty caption and the "manual" angle |
| OpportunityScout.HintTerms | dashboard/backend/services/opportunity_scout.py:37-40 | every hint term kept is stripped and not blank, and every hint that is not blank once stripped is kept |
| OpportunityScout.StripHints | dashboard/backend/services/opportunity_scout.py:37-40 | the loop over the hints collects exactly the stripped, non-blank hint terms |
| OpportunityScout.SeedTerms | dashboard/backend/services/opportunity_scout.py:23-42 | a blank seed adds nothing and is not looked up; any other seed adds itself, stripped, followed by the terms its lookup answered with, and nothing more when the lookup failed |
| OpportunityScout.Expanded | dashboard/backend/services/opportunity_scout.py:20-42 | every term added while expanding is stripped and not blank |
| OpportunityScout.ExpandedTerms | dashboard/backend/services/opportunity_scout.py:20-42 | a term is added while expanding exactly when some seed contributes it |
| OpportunityScout.SeedExpanded | dashboard/backend/services/opportunity_scout.py:23-27 | a seed that is not blank is among the expanded terms, stripped |
| OpportunityScout.ExpansionKeepsSeeds | dashboard/backend/services/opportunity_scout.py:20-43 | the keywords are sorted without repeats, keep every non-blank seed, and are all stripped non-blank terms |
| OpportunityScout.ExpandSeeds | dashboard/backend/services/opportunity_scout.py:20-43 | `expand_seeds` returns the sorted set of the expanded terms, a failed lookup adding nothing |
| OpportunityScout.AppOf | dashboard/backend/services/opportunity_scout.py:73-81 | an app keeps the track id of the search hit it was made from |
| OpportunityScout.Catalogue | dashboard/backend/services/opportunity_scout.py:68-81 | apps have non-zero track ids, no two share one, and their ids are exactly those of the listed hits |
| OpportunityScout.FirstHitWins | dashboard/backend/services/opportunity_scout.py:69-72 | the first listed hit with a given track id is the one kept as its app |
| OpportunityScout.AddHits | dashboard/backend/services/opportunity_scout.py:68-81 | the loop over one keyword's results extends the catalogue by those results and keeps the seen set equal to the apps' ids |
| OpportunityScout.SearchApps | dashboard/backend/services/opportunity_scout.py:49-85 | `search_apps` returns the catalogue of every keyword's results in keyword order, a failed search contributing nothing |
| OpportunityScout.ReviewsOf | dashboard/backend/services/opportunity_scout.py:100-111 | there are never more reviews than feed entries |
| OpportunityScout.UnratedSkipped | dashboard/backend/services/opportunity_scout.py:101-103 | an entry without a rating contributes nothing wherever it stands |
| OpportunityScout.BadRatingStops | dashboard/backend/services/opportunity_scout.py:106-111 | a rating that is not an integer raises, so the reviews end before its entry and everything after it is lost |
| OpportunityScout.RatedEntriesReviewed | dashboard/backend/services/opportunity_scout.py:100-109 | when every rating parses there is one review per rated entry, with its fields, in order |
| OpportunityScout.FetchReviews | dashboard/backend/services/opportunity_scout.py:91-112 | `fetch_reviews` returns the reviews of the feed, none when the request or the decoding failed |
| OpportunityScout.PainQuery | dashboard/backend/services/opportunity_scout.py:120 | the query is the app name in double quotes followed by " pain OR frustrating OR hate OR issue OR bug" |
| OpportunityScout.PainThreadOf | dashboard/backend/services/opportunity_scout.py:134-144 | the preview is a prefix of the self text of at most 300 characters, and the whole self text when it is that short; a null self text counts as empty |
| OpportunityScout.PainThreads | dashboard/backend/services/opportunity_scout.py:129-147 | no threads on 429, on any other status outside 2xx or on an undecodable body; otherwise one thread per post, in order, each preview within 300 characters |
| OpportunityScout.SearchPainPoints | dashboard/backend/services/opportunity_scout.py:118-147 | `search_reddit_pain_points` returns the threads of the answer to the app's pain query |
| OpportunityScout.Head | dashboard/backend/services/opportunity_scout.py:236-242 | a list cut to `n` is its prefix of length `min(n, len)` |
| OpportunityScout.SectionShowsFirst | dashboard/backend/services/opportunity_scout.py:233-245 | an app's section shows only its first ten reviews and first five threads: the rest do not change it |
| OpportunityScout.ReviewShowsFirst | dashboard/backend/services/opportunity_scout.py:237 | a review line shows only the first 200 characters of its content |
| OpportunityScout.WriteReviewLines | dashboard/backend/services/opportunity_scout.py:236-237 | the loop writes one line per shown review |
| OpportunityScout.WriteThreadLines | dashboard/backend/services/opportunity_scout.py:242-245 | the loop writes each shown thread's line, plus its preview line when it has one |
| OpportunityScout.BuildSection | dashboard/backend/services/opportunity_scout.py:229-247 | the section built line by line is the app's heading, its stats line and its review and Reddit blocks, each block only when not empty |
| OpportunityScout.Sections | dashboard/backend/services/opportunity_scout.py:228-247 | one context section per app, the k-th being the section of app k with the reviews and threads found under its track id |
| OpportunityScout.Truncated | dashboard/backend/services/opportunity_scout.py:250-252 | a context over 50000 characters is cut to its first 50000 and marked; a shorter one is unchanged |
| OpportunityScout.BuildContext | dashboard/backend/services/opportunity_scout.py:227-252 | the context is the sections joined by blank lines, then truncated |
| OpportunityScout.ReviewEvents | dashboard/backend/services/opportunity_scout.py:179-195 | two events per app in the review stage: its progress status "Fetching reviews for <name>..." numbered from 1, then its reviews and their count |
| OpportunityScout.ReviewMap | dashboard/backend/services/opportunity_scout.py:176-188 | the reviews are keyed by exactly the apps' track ids |
| OpportunityScout.ReviewMapValues | dashboard/backend/services/opportunity_scout.py:187-188 | each app's entry holds the reviews of its own feed |
| OpportunityScout.RedditEvents | dashboard/backend/services/opportunity_scout.py:201-217 | two events per app in the Reddit stage: its progress status "Searching Reddit pain points for <name>..." numbered from 1, then the threads its pain query found and their count |
| OpportunityScout.RedditMap | dashboard/backend/services/opportunity_scout.py:198-210 | the threads are keyed by exactly the apps' track ids |
| OpportunityScout.RedditMapValues | dashboard/backend/services/opportunity_scout.py:209-210 | each app's entry holds the threads of its own pain-point search |
| OpportunityScout.GatherReviews | dashboard/backend/services/opportunity_scout.py:176-195 | the review loop yields the review-stage events and gathers the review map |
| OpportunityScout.GatherReddit | dashboard/backend/services/opportunity_scout.py:198-217 | the Reddit loop yields the Reddit-stage events and gathers the thread map |
| OpportunityScout.GatherAll | dashboard/backend/services/opportunity_scout.py:176-217 | each stage runs unless skipped; a skipped stage yields nothing and gathers an empty map |
| OpportunityScout.AnalysisChunks | dashboard/backend/services/opportunity_scout.py:287-289 | one chunk event per streamed text, in order |
| OpportunityScout.StreamAnalysis | dashboard/backend/services/opportunity_scout.py:279-289 | the stream yields one event per chunk and accumulates the analysis as their concatenation |
| OpportunityScout.ScoutApps | dashboard/backend/services/opportunity_scout.py:176-304 | with apps found: no API key yields an error after gathering and saves nothing; otherwise a result is saved exactly when the analysis stream did not fail, holding the seeds, keywords, apps, gathered maps and the whole analysis |
| OpportunityScout.RunScout | dashboard/backend/services/opportunity_scout.py:153-304 | `run_scout` yields the opening events; with no apps it completes with an empty id and saves nothing; otherwise it goes on as `ScoutApps` states |
| PipelineRunner.RenderParse | dashboard/backend/services/pipeline_runner.py:64-78 | an option list rendered into argv words parses back to the same list |
| PipelineRunner.ParseRendered | dashboard/backend/services/pipeline_runner.py:64-78 | a parser that knows which flags take values reads back, after the interpreter and the script, exactly the options rendered |
| PipelineRunner.PipelineArgv | dashboard/backend/services/pipeline_runner.py:64-78 | with the corrected request of the Findings: the autopilot command starts with the interpreter and the script |
| PipelineRunner.LifestyleArgv | dashboard/backend/services/pipeline_runner.py:109-124 | the lifestyle command starts with the interpreter and the script |
| PipelineRunner.AutoJournalArgv | dashboard/backend/services/pipeline_runner.py:152-165 | the auto-journal command starts with the interpreter and the script |
| PipelineRunner.Truthy | dashboard/backend/services/pipeline_runner.py:75-78 | an optional text counts as given exactly when present and non-empty, and then as itself |
| PipelineRunner.PipelineOptsShape | dashboard/backend/services/pipeline_runner.py:64-78 | with the corrected request of the Findings: the autopilot options are well keyed and hold exactly the switches whose fields are set |
| PipelineRunner.PipelineOptsValue | dashboard/backend/services/pipeline_runner.py:64-78 | with the corrected request of the Findings: the autopilot options give `--account` the account and each text flag its text only when non-empty, and no other valued flag |
| PipelineRunner.PipelineArgvDecodes | dashboard/backend/services/pipeline_runner.py:64-78 | with the corrected request of the Findings: read back, the autopilot command carries the account first, each switch iff its field is set, each text iff it is non-empty, and nothing else |
| PipelineRunner.LifestyleOptsShape | dashboard/backend/services/pipeline_runner.py:109-124 | the lifestyle options are well keyed and hold exactly the switches whose fields are set |
| PipelineRunner.LifestyleOptsValue | dashboard/backend/services/pipeline_runner.py:109-124 | each scene text and image flag carries its field when non-empty, and no other valued flag appears |
| PipelineRunner.LifestyleArgvDecodes | dashboard/backend/services/pipeline_runner.py:109-124 | read back, the lifestyle command carries each switch iff set and each scene text and image iff non-empty, and nothing else |
| PipelineRunner.AutoJournalOptsShape | dashboard/backend/services/pipeline_runner.py:152-165 | the auto-journal options are well keyed and hold exactly the switches whose fields are set |
| PipelineRunner.AutoJournalOptsValue | dashboard/backend/services/pipeline_runner.py:152-165 | style, category, hook and payoff flags each carry their field when non-empty, and no other valued flag appears |
| PipelineRunner.AutoJournalArgvDecodes | dashboard/backend/services/pipeline_runner.py:152-165 | read back, the auto-journal command carries each switch iff set and each text iff non-empty, and nothing else |
| PipelineRunner.PipelineRunAlwaysRaises | dashboard/backend/services/pipeline_runner.py:75-78 | every request the declared type admits makes the command builder as written raise |
| PipelineRunner.PersonaOf | dashboard/backend/services/pipeline_runner.py:81 | the persona is the longest dot-free prefix of the account: the text before the first `.`, or the whole account when there is none |
| PipelineRunner.Settled | dashboard/backend/services/pipeline_runner.py:37-55 | a run ends completed exactly when its process exited with code 0, failed otherwise, keeping its id, persona, app and start time |
| PipelineRunner.SettleHeadKeepsInv | dashboard/backend/services/pipeline_runner.py:34-57 | settling the head of the queue and dropping it keeps the registry invariant: every recorded run under its own id, listed once, every queued run waiting in the queue, nothing running |
| PipelineRunner.JoinAppend | dashboard/backend/services/pipeline_runner.py:48-50 | each streamed line extends the recorded output by exactly that line |
| PipelineRunner.Runner.constructor | dashboard/backend/services/pipeline_runner.py:13-18 | the registry starts empty with no worker |
| PipelineRunner.Runner.EnsureWorker | dashboard/backend/services/pipeline_runner.py:21-29 | the worker is started, and nothing else changes |
| PipelineRunner.Runner.Enqueue | dashboard/backend/services/pipeline_runner.py:83-94 | the record under the id becomes a fresh queued one (replacing an earlier run with the same id, whose place in the listing is kept), its command goes to the end of the queue, the worker is started and the invariant holds |
| PipelineRunner.Runner.StartPipelineRun | dashboard/backend/services/pipeline_runner.py:60-102 | with the corrected request of the Findings: a queued run with the account's persona and no app, its autopilot command at the end of the queue |
| PipelineRunner.Runner.StartLifestyleRun | dashboard/backend/services/pipeline_runner.py:105-145 | a queued run for persona `lifestyle` and app `journal-lock`, its lifestyle command at the end of the queue |
| PipelineRunner.Runner.StartAutoJournalRun | dashboard/backend/services/pipeline_runner.py:148-186 | a queued run for persona `autojournal` and app `autojournal`, its command at the end of the queue |
| PipelineRunner.Runner.GetRunStatus | dashboard/backend/services/pipeline_runner.py:189-201 | nothing for an unknown id; otherwise the run's own status view |
| PipelineRunner.Runner.ListRuns | dashboard/backend/services/pipeline_runner.py:204-216 | every run exactly once, in insertion order, each the run's whole view (id, status, persona, app and start time) with only the last 500 characters of its output |
| PipelineRunner.Runner.WorkOne | dashboard/backend/services/pipeline_runner.py:32-57 | the worker takes the head of the queue (first in, first out) and settles exactly that run; an empty queue changes nothing |
| RedditResearch.TrimRorSlash | dashboard/backend/services/reddit_research.py:33 | `lstrip("r/")` removes the longest leading run of 'r' and '/' characters, whatever their order, and keeps the rest as a suffix |
| RedditResearch.SubredditAsWritten | dashboard/backend/services/reddit_research.py:33 | the name as written is no longer than the stripped input and never starts with 'r' or '/' |
| RedditResearch.AsWrittenDropsLetter | dashboard/backend/services/reddit_research.py:33 | "rust" and "r/rust" both become "ust": the subreddit's own first letter is lost |
| RedditResearch.DropPrefix | dashboard/backend/services/reddit_research.py:33 | removing a prefix leaves a suffix of the text |
| RedditResearch.SubredditName | dashboard/backend/services/reddit_research.py:33 | the intended name is no longer than the stripped input |
| RedditResearch.SubredditNameKeepsName | dashboard/backend/services/reddit_research.py:33 | a plain name is kept whole and its "r/" spelling names the same subreddit |
| RedditResearch.Preview | dashboard/backend/services/reddit_research.py:68-72 | a link post without text is previewed as its link; any other post by the first 300 characters of its text (all of it when shorter) |
| RedditResearch.ThreadsOf | dashboard/backend/services/reddit_research.py:66-87 | one thread per post, in order |
| RedditResearch.SearchResults | dashboard/backend/services/reddit_research.py:58-88 | 429 raises the rate-limit error; any other error status or undecodable body raises; otherwise the threads of the posts |
| RedditResearch.FetchSearchResults | dashboard/backend/services/reddit_research.py:58-88 | the loop over the listing's children returns what `SearchResults` states |
| RedditResearch.Gathered | dashboard/backend/services/reddit_research.py:31-42 | the threads of the subreddit searches extend those already found; the first failing search ends the search with its error |
| RedditResearch.SliceTo | dashboard/backend/services/reddit_research.py:55 | `s[:n]` is a prefix of `s`, of length `min(n, len)` for a non-negative `n` |
| RedditResearch.SearchReddit | dashboard/backend/services/reddit_research.py:21-55 | with the corrected "r/" removal of the Findings: `search_reddit` searches each given subreddit, or all of Reddit when none is given, and returns the threads highest score first cut to `limit`, or the first search error |
| RedditResearch.SearchListingShape | dashboard/backend/services/reddit_research.py:53-55 | the listing is highest score first, holds at most `limit` threads, and only threads the searches returned |
| RedditResearch.KeptComments | dashboard/backend/services/reddit_research.py:109-115 | every kept comment is non-empty, at most 1000 characters, and neither "[deleted]" nor "[removed]" |
| RedditResearch.KeptPrefix | dashboard/backend/services/reddit_research.py:109-117 | reading more children only extends the kept comments |
| RedditResearch.KeptAreKeepableBodies | dashboard/backend/services/reddit_research.py:109-115 | the kept comments are exactly the keepable "t1" children, in order and as often as they occur, each body cut to 1000 characters |
| RedditResearch.FetchThreadComments | dashboard/backend/services/reddit_research.py:91-122 | a placeholder when rate limited; nothing on failure or an unexpected payload; otherwise the first `limit` keepable comments of the second listing, in order |
| RedditResearch.CommentsOf | dashboard/backend/services/reddit_research.py:153 | the research run reads at most 20 comments per thread |
| RedditResearch.CommentsText | dashboard/backend/services/reddit_research.py:177 | the comments shown to the model are all of them when there are at most 15 and the first 15 otherwise, separated by "\n---\n" |
| RedditResearch.SummarizeThread | dashboard/backend/services/reddit_research.py:138-223 | a thread keeps its id (or its position) and title (or "Untitled"); no comments gives the "No comments available" error; a raised request gives "Summarization failed: " and its message, a reply that parses to a non-object "Summarization failed: '<type>' object has no attribute 'get'"; otherwise the summary, key points and sentiment are those of the parsed reply, and a reply that is not JSON becomes the summary itself |
| RedditResearch.ThreadEvents | dashboard/backend/services/reddit_research.py:144-224 | each thread starts with its fetch status and ends with its summary, or with a thread error when it had no comments |
| RedditResearch.SummariesOf | dashboard/backend/services/reddit_research.py:136-224 | one summary per thread, the k-th being the summary of thread k with the comments fetched from its permalink |
| RedditResearch.SummarizeThreads | dashboard/backend/services/reddit_research.py:136-224 | the per-thread loop yields each thread's events and collects their summaries, in order |
| RedditResearch.RunRedditAnalysis | dashboard/backend/services/reddit_research.py:125-289 | no API key is a single error; otherwise the events are the thread events, then the "No comments available" error when no summary is usable, else the "Running cross-thread analysis..." status, one chunk event per streamed text and a "Cross-analysis failed: " error if the stream broke off, then "complete" when saved; the research is saved as "Reddit: <query>" and completed exactly when some summary is usable and the stream finished |
| YoutubeResearch.TrimSlashes | dashboard/backend/services/youtube_research.py:45 | `rstrip("/")` removes exactly the trailing run of '/' characters |
| YoutubeResearch.NormalizeChannelUrl | dashboard/backend/services/youtube_research.py:44-47 | the URL handed to yt-dlp ends with "/videos", appended only when the slash-trimmed URL lacks it |
| YoutubeResearch.NormalizeIdempotent | dashboard/backend/services/youtube_research.py:44-47 | normalising a normalised URL changes nothing |
| YoutubeResearch.FirstGiven | dashboard/backend/services/youtube_research.py:73 | `a or b or … or default` is the first present, non-empty text, or the default when there is none |
| YoutubeResearch.ChannelOf | dashboard/backend/services/youtube_research.py:73 | the channel name an entry offers is never empty |
| YoutubeResearch.VideoOf | dashboard/backend/services/youtube_research.py:75-82 | a video keeps its entry's id (or ""), title (or "Untitled"), duration, view count and upload date, and its thumbnail is the last thumbnail's, none when there are none |
| YoutubeResearch.VideosOf | dashboard/backend/services/youtube_research.py:62-82 | one video per entry, in order |
| YoutubeResearch.FirstChannel | dashboard/backend/services/youtube_research.py:72-73 | the name kept is empty exactly when no entry was read |
| YoutubeResearch.ScanStep | dashboard/backend/services/youtube_research.py:72-82 | one more entry adds its video, and names the channel only when it is the first |
| YoutubeResearch.ScanLine | dashboard/backend/services/youtube_research.py:65-82 | a blank line or one that is not JSON changes nothing; an entry adds its video and names the channel if it is the first |
| YoutubeResearch.ScanLines | dashboard/backend/services/youtube_research.py:62-82 | the line loop collects the videos of the parsed entries and the first entry's channel name |
| YoutubeResearch.ScanChannel | dashboard/backend/services/youtube_research.py:42-91 | a failed yt-dlp run raises with its stripped stderr; otherwise the first entry's channel ("Unknown Channel" when none parsed), the URL as given, and one video per parsed line |
| YoutubeResearch.RemoveTags | dashboard/backend/services/youtube_research.py:135 | removing tags never lengthens a line and leaves a line without a '<' or without a '>' unchanged |
| YoutubeResearch.TagRemoved | dashboard/backend/services/youtube_research.py:135 | a tag is removed with its brackets, and the text after it is cleaned the same way |
| YoutubeResearch.PlainKept | dashboard/backend/services/youtube_research.py:135 | text without a '<' is kept as it is, and the text after it is cleaned the same way |
| YoutubeResearch.UnmatchedKept | dashboard/backend/services/youtube_research.py:135 | a '<' that opens no tag is kept, and the text after it is cleaned the same way |
| YoutubeResearch.RemoveTagsSub | dashboard/backend/services/youtube_research.py:135 | removing tags keeps only characters of the line |
| YoutubeResearch.CleanLine | dashboard/backend/services/youtube_research.py:127-136 | headers, cue timings and blank lines contribute nothing; any other line contributes exactly its tag-free stripped text, and nothing exactly when that is empty |
| YoutubeResearch.CleanNoBreak | dashboard/backend/services/youtube_research.py:126-135 | a cleaned line has no line break |
| YoutubeResearch.CandidateSource | dashboard/backend/services/youtube_research.py:126-136 | every candidate text is the cleaned text of some subtitle line |
| YoutubeResearch.CandidateComplete | dashboard/backend/services/youtube_research.py:126-136 | every line that cleans to a text contributes it |
| YoutubeResearch.FirstIndex | dashboard/backend/services/youtube_research.py:136-138 | the first position holding a text |
| YoutubeResearch.Distinct | dashboard/backend/services/youtube_research.py:125-138 | each text once, the same texts, in the order they first appear |
| YoutubeResearch.VttToPlainText | dashboard/backend/services/youtube_research.py:122-142 | the loop with its `seen` set gives the distinct cleaned lines joined by spaces |
| YoutubeResearch.PlainTextLines | dashboard/backend/services/youtube_research.py:122-142 | the joined lines are non-empty, stripped, distinct, free of line breaks, and every subtitle line that cleans to a text is among them |
| YoutubeResearch.Truncate | dashboard/backend/services/youtube_research.py:185-186 | a transcript over 30000 characters keeps its first 30000 and is marked with "..."; a shorter one is unchanged |
| YoutubeResearch.SummarizeVideo | dashboard/backend/services/youtube_research.py:160-230 | a video keeps its id and title; without a transcript the "No transcript available" error; a raised request gives "Summarization failed: " and its message, a reply that parses to a non-object "Summarization failed: '<type>' object has no attribute 'get'"; otherwise the summary and key points of the parsed reply, the reply itself standing in when it is not JSON |
| YoutubeResearch.SummariesOf | dashboard/backend/services/youtube_research.py:158-232 | one summary per video id, in order, the k-th being the summary of id k under its title (the id when it has none) with its transcript |
| YoutubeResearch.VideoEvents | dashboard/backend/services/youtube_research.py:161-232 | each video starts with its fetch status and ends with its summary, or with a transcript error when it had none |
| YoutubeResearch.SummarizeAll | dashboard/backend/services/youtube_research.py:158-232 | the per-video loop yields each video's events and collects their summaries, in order |
| YoutubeResearch.RunAnalysis | dashboard/backend/services/youtube_research.py:145-287 | no API key is a single error; otherwise the events are the video events, then the "No transcripts available" error when no summary is usable, else the "Running cross-video analysis..." status, one chunk event per streamed text and a "Cross-analysis failed: " error if the stream broke off, then "complete" when saved; the research is saved and completed exactly when some summary is usable and the stream finished |
| ScheduleReader.ParseClock | dashboard/backend/services/schedule_reader.py:19-20 | a time that converts is a minute of the day below 1440 |
| ScheduleReader.ClockOfFields | dashboard/backend/services/schedule_reader.py:19-20 | the hour and minute read by `int` give `60 * hour + minute` exactly when both read and lie in 0-23 and 0-59; otherwise the call raises |
| ScheduleReader.ParseClockIsSplit | dashboard/backend/services/schedule_reader.py:19-20 | a time converts exactly when `split(":")` gives two parts that `int` reads as an hour 0-23 and a minute 0-59, and then it is `60 * hour + minute` |
| ScheduleReader.ParseClockOfText | dashboard/backend/services/schedule_reader.py:19-20 | two decimal numerals around a colon, an hour and a minute, convert to `60 * hour + minute` |
| ScheduleReader.ClockSplitIsSplit | dashboard/backend/services/schedule_reader.py:19 | the colon test passes exactly when `split(":")` has two parts, and yields those parts |
| ScheduleReader.IstMinute | dashboard/backend/services/schedule_reader.py:14-21 | the IST minute is the UTC minute plus five and a half hours, modulo a day |
| ScheduleReader.Pad2 | dashboard/backend/services/schedule_reader.py:22 | `%M` writes two digits reading back as the minute |
| ScheduleReader.UtcToIst | dashboard/backend/services/schedule_reader.py:17-22 | the display succeeds exactly when the time converts, and otherwise raises the conversion's error; a display ends with " IST" and reads back as the UTC minute plus 330, modulo a day |
| ScheduleReader.ReadClock12 | dashboard/backend/services/schedule_reader.py:22 | the `%-I:%M %p` display of a minute of the day followed by " IST" reads back as that minute |
| ScheduleReader.NoLeadingZero | dashboard/backend/services/schedule_reader.py:22 | `%-I` writes an hour 1-12 without a leading zero |
| ScheduleReader.UtcToIstOf | dashboard/backend/services/schedule_reader.py:14-22 | a valid UTC time `utc` is shown as the 12-hour display that reads back as the IST minute `(utc + 330) mod 1440`, with "AM" exactly when that minute is before noon |
| ScheduleReader.IstNoon | dashboard/backend/services/schedule_reader.py:17-22 | the default time 06:30 UTC is shown as "12:00 PM IST" |
| ScheduleReader.IstMidnight | dashboard/backend/services/schedule_reader.py:17-22 | 18:30 UTC is shown as "12:00 AM IST" |
| ScheduleReader.IstRejectsSuffix | dashboard/backend/services/schedule_reader.py:19 | "6:30pm" is not a time and the conversion raises |
| ScheduleReader.Clock12Noon | dashboard/backend/services/schedule_reader.py:22 | noon on the 12-hour clock is "12:00 PM" |
| ScheduleReader.Clock12Midnight | dashboard/backend/services/schedule_reader.py:22 | midnight on the 12-hour clock is "12:00 AM" |
| ScheduleReader.Clock12Shape | dashboard/backend/services/schedule_reader.py:22 | `%-I` writes an hour from 1 to 12 without padding |
| ScheduleReader.PredictVideoType | dashboard/backend/services/schedule_reader.py:25-28 | the predicted type is the video script's rotation for the day of the year plus the offset |
| ScheduleReader.DefaultConfigShape | dashboard/backend/services/schedule_reader.py:31-54 | the default lists its personas and accounts once each, both pipelines on, every persona on the rotation |
| ScheduleReader.LastRunWins | dashboard/backend/services/schedule_reader.py:63-80 | a persona's last run comes from the last line that parses with that persona |
| ScheduleReader.NoRunNoEntry | dashboard/backend/services/schedule_reader.py:63-80 | a persona without a parsing line has no last run |
| ScheduleReader.GetLastRuns | dashboard/backend/services/schedule_reader.py:63-80 | a missing log gives no runs; otherwise one pass over the lines, later lines overwriting earlier ones |
| ScheduleReader.CronOfStatus | dashboard/backend/services/schedule_reader.py:97-107 | "failed" exactly when the action mentions FAILED, "ok" for a finish, "running" otherwise; the timestamp is stripped |
| ScheduleReader.Hit | dashboard/backend/services/schedule_reader.py:95-112 | a line gives one entry exactly when `SearchCron`, the modelled `pattern.search`, finds a match in it |
| ScheduleReader.LazyClose | dashboard/backend/services/schedule_reader.py:92 | the lazy `.+?` before " ===" ends at the first place " ===" follows, reading no line break |
| ScheduleReader.StampAt | dashboard/backend/services/schedule_reader.py:92 | `(.+?) ===` gives a non-empty stamp without line breaks that " ===" follows |
| ScheduleReader.AtStamp | dashboard/backend/services/schedule_reader.py:92 | ` at (.+?) ===` gives such a stamp, with " at " before it and " ===" after it |
| ScheduleReader.FailedRest | dashboard/backend/services/schedule_reader.py:92 | `FAILED.*?` takes the shortest text without line breaks after which " at <stamp> ===" matches; no shorter text lets it match |
| ScheduleReader.CronAtSound | dashboard/backend/services/schedule_reader.py:91-93 | a match at the start of a line is the banner "=== Video autopilot <action> at <stamp> ===", the action being "started", "finished OK" or a text starting with "FAILED", action and stamp without line breaks and the stamp non-empty |
| ScheduleReader.SearchCron | dashboard/backend/services/schedule_reader.py:95 | `pattern.search(line)`: the groups found are those of a match at some position of the line (the leftmost, by `Common.FirstMatchLeftmost`) |
| ScheduleReader.NoOpenNoEntry | dashboard/backend/services/schedule_reader.py:91-96 | a line without "=== Video autopilot " anywhere matches nothing and gives no entry |
| ScheduleReader.CronLineRead | dashboard/backend/services/schedule_reader.py:91-98 | a start or finish banner whose stamp is non-empty and holds no line break or "=" reads back as that action and stamp, whatever follows the banner |
| ScheduleReader.CronFailedRead | dashboard/backend/services/schedule_reader.py:91-98 | a failure banner whose text after "FAILED" holds no " at " reads back as that whole action and its stamp |
| ScheduleReader.CronFailedExample | dashboard/backend/services/schedule_reader.py:91-98 | "=== Video autopilot FAILED: x at 2026-01-01 ===" gives the action "FAILED: x" and the stamp "2026-01-01" |
| ScheduleReader.Prefix | dashboard/backend/services/schedule_reader.py:113-114 | at most the first `n` entries, all of them when there are fewer |
| ScheduleReader.ScanCron | dashboard/backend/services/schedule_reader.py:94-115 | the scan from the newest line keeps the newest matching entries and stops once `limit` are kept |
| ScheduleReader.GetCronHistory | dashboard/backend/services/schedule_reader.py:83-115 | a missing log has no history; otherwise the newest matching entries, at most `limit` (at least one when any) |
| ScheduleReader.BuildVideoSlots | dashboard/backend/services/schedule_reader.py:129-145 | one video slot per persona in file order, at the pipeline's `time_utc` ("06:30" by default) and showing its display time, its configured video type ("auto" by default), enabled exactly when its own and the pipeline's flags are on, with the persona's last run and status when the log has one |
| ScheduleReader.BuildTextSlots | dashboard/backend/services/schedule_reader.py:147-159 | one text slot per account in file order, at its own `time_utc` ("00:00" by default) and showing that time's display time, enabled as its flags say, without video type or last run; an account time that does not convert makes the call raise |
| ScheduleReader.GetSchedule | dashboard/backend/services/schedule_reader.py:118-169 | raises exactly when the video time or an account time does not convert; otherwise both pipeline toggles, the video time in UTC ("06:30" by default) and its display time, today's predicted type, the video slots then the text slots as above, and the cron history |
| ScheduleReader.MergeEntries | dashboard/backend/services/schedule_reader.py:182-190 | merging updates keeps the set of names |
| ScheduleReader.MergeUntouched | dashboard/backend/services/schedule_reader.py:182-190 | an entry no update names keeps all its fields |
| ScheduleReader.MergeOnce | dashboard/backend/services/schedule_reader.py:183-185 | an entry named by one update gets that update's keys and keeps the others |
| ScheduleReader.PatchedKeepsShape | dashboard/backend/services/schedule_reader.py:172-190 | an update keeps the names and their order, and every toggle not given keeps its value |
| ScheduleReader.ScheduleFile.UpdateSchedule | dashboard/backend/services/schedule_reader.py:172-192 | the stored configuration becomes the read (or default) configuration with the request applied |
| Research.SkipSpace | dashboard/backend/services/youtube_research.py:301 | `\s*` stops at the first non-blank at or after its start |
| Research.FirstClose | dashboard/backend/services/youtube_research.py:301 | the lazy `.*?\}\s*```` finds the first position that closes the block, and none before it closes |
| Research.FencedBlock | dashboard/backend/services/youtube_research.py:301 | a fenced block, when found, is a text from `{` to `}` |
| Research.BraceSpan | dashboard/backend/services/youtube_research.py:307 | the greedy `\{.*\}` is the span of the text that starts at its first `{` and ends at its last `}`; it fails only when no `}` follows any `{` |
| Research.ExtractJson | dashboard/backend/services/youtube_research.py:290-314 | a reply that parses is its own value; nothing is returned only when the reply itself does not parse |
| Research.NoBraceDirectOnly | dashboard/backend/services/youtube_research.py:290-314 | a reply without `{` yields its direct parse or nothing |
| Research.ProseAroundObject | dashboard/backend/services/youtube_research.py:305-310 | an object surrounded by brace-free, backquote-free prose is found by the last attempt |
| Research.FencedObject | dashboard/backend/services/youtube_research.py:299-304 | an object fenced as ```json on its own lines is found, whatever backquote-free prose comes before it |
| Research.DigestOf | dashboard/backend/services/reddit_research.py:205-212 | a reply that does not parse becomes the summary with no key points; a parsed non-object raises with "'<type>' object has no attribute 'get'"; a parsed object gives its summary (the reply when absent), its key points (none when absent) and its sentiment |
| Research.Keep | dashboard/backend/services/youtube_research.py:235 | exactly the summaries that pass, never more than there were |
| Research.Concat | dashboard/backend/services/youtube_research.py:267 | the accumulated analysis ends with the last chunk |
| Research.ChunkEvents | dashboard/backend/services/youtube_research.py:266-268 | one chunk event per streamed text, in order |
| Research.CrossAnalysis | dashboard/backend/services/youtube_research.py:234-271 | no usable summary gives a single error and no analysis; otherwise a status, the chunk events and an error if the stream broke off, with an analysis (the concatenated chunks) exactly when it did not |
| Layout.GlueIsStrip | scripts/assemble_video.py:66 | `f"{current} {word}".strip()` on a stripped line and one word joins them with one blank and stays stripped |
| Layout.WrapText | scripts/assemble_video.py:59-72 | the greedy wrap loop's lines rejoined are the words rejoined, and each line fits or is a single word |
| Layout.WrapKeepsWords | scripts/assemble_video.py:59-72 | the wrap keeps the words and their order |
| Layout.WrapLinesFit | scripts/assemble_video.py:59-72 | no line is empty, and a line wider than the limit is a single word |
| Layout.StepsEach | scripts/lifestyle_reel.py:92-100 | the chain of replacements escapes each character on its own, so no inserted backslash is escaped twice |
| Layout.EscapeStepsProperties | scripts/lifestyle_reel.py:92-100 | the escaped text has no apostrophe and no unescaped special character, and reads back as the input with the apostrophe turned into U+2019 |
| Layout.KeepAppend | scripts/lifestyle_reel.py:87-89 | dropping characters works character by character |
| Layout.StripDropped | scripts/lifestyle_reel.py:87-89 | the kept characters, in order, with the blanks at both ends and only those cut off; no blanks remain at the ends |
| Layout.StripDroppedIdempotent | scripts/lifestyle_reel.py:87-89 | dropping and trimming twice is doing it once |
| Sorting.SortBy | dashboard/backend/routers/assets.py:19 | `sorted` by a text key is ascending and a permutation of its input |
| Sorting.SortByStable | dashboard/backend/routers/assets.py:19 | `sorted` is stable: the elements sharing any one key come out in their input order |
| Sorting.SortDesc | dashboard/backend/services/reddit_research.py:54 | sorting by score with `reverse=True` is highest first and a permutation of its input |
| Sorting.SortDescStable | dashboard/backend/services/reddit_research.py:54 | `reverse=True` keeps the sort stable: posts of equal score come out in their input order |
| Sorting.SortDescBy | dashboard/backend/routers/content.py:27 | sorting by timestamp with `reverse=True` is newest first and a permutation of its input |
| Sorting.SortDescByStable | dashboard/backend/routers/content.py:27 | runs with equal timestamps come out in their input order |
| Sorting.SortedSet | dashboard/backend/services/skill_loader.py:24 | `sorted` of a set holds each element once, strictly ascending, and exactly the input's elements |
| Common.SplitJoin | dashboard/frontend/src/lib/api.ts:141 | splitting a join on the same separator gives back parts that do not contain it |
| Common.JoinSplit | dashboard/frontend/src/lib/api.ts:141 | joining the parts of a split restores the text |
| Common.RoundHalfEven | scripts/funnel_snapshot.py:119 | Python's `round` lands within one half of its argument, and an exact half goes to the even neighbour |
| Common.PreferUnused | scripts/autopilot.py:203-205 | the pick is one of the available assets, and outside the recent ones whenever some available asset is not recent |
| Common.LoadJsonl | scripts/autojournal_reel.py:221-232 | a missing log gives no entries; otherwise one entry per non-blank line that decodes, in order |
| Common.Strip | scripts/autopilot.py:157 | `strip()` never lengthens a text and leaves no blank at either end |
| Common.StripSlice | scripts/autopilot.py:157 | what `strip()` keeps is a slice of the text with only blanks around it |
| Common.Split | dashboard/frontend/src/lib/api.ts:141 | `split` with one separator gives at least one part, none containing the separator |
| Common.Words | scripts/assemble_video.py:61 | `split()` gives non-empty, blank-free runs |
| Common.WordsOfRun | scripts/assemble_video.py:61 | each word is a maximal run: after leading blanks, a non-blank run closed by a blank or the end is the first word, followed by the words of the rest |
| Common.WordsAreNonBlanks | scripts/assemble_video.py:61 | the words of `split()` written one after the other are exactly the non-blank characters of the text, in order |
| Common.WordsOfJoin | scripts/assemble_video.py:61 | `" ".join(ws).split()` gives back `ws` for non-empty blank-free words |
| Common.LastN | dashboard/backend/services/pipeline_runner.py:213 | `s[-n:]` is the last `n` characters, or all of them when there are fewer |
| Common.ParseNatToString | dashboard/backend/services/schedule_reader.py:19 | reading back a rendered number gives the number |
| Common.PyIntNumeral | dashboard/backend/services/opportunity_scout.py:106 | `int` on a plain numeral gives its decimal value |
| Common.FirstMatchLeftmost | dashboard/backend/services/email_sender.py:60-62 | `re.search` succeeds exactly when the pattern matches at some position, and then reports the match at the leftmost such position |
| Research.KeepIsFilter | dashboard/backend/services/youtube_research.py:235 | the kept summaries are the passing ones in input order, each as often as in the input |

## Left out

- I/O: files are maps or optional contents; HTTP answers, subprocess results, yt-dlp, ffmpeg, rclone, SMTP, the bird CLI, PIL, MoviePy and the generative-model APIs (Anthropic, Replicate, OpenAI) are parameters; logging and printing are not modelled.
- Concurrency: the run queue's worker thread, its lock and `queue.Queue` are modelled as a sequence of `WorkOne` turns; the single-worker guarantee is the registry invariant `Valid()`, not a concurrency proof; the asyncio scheduling of the research generators is left out and only their event sequences are kept.
- Floating point: money is `real` (or integer cents where stated), and `round(…, n)`, `:.2f`, `toFixed` and the float text of numbers are not modelled; `Common.RoundHalfEven` states only Python's rounding to an integer.
- Common.Upper: `str.upper()` is modelled on ASCII letters only; other letters, whose upper case Python takes from the Unicode tables, are left as they are.
- Common.Lower: `str.lower()` is modelled on ASCII letters only, as for `Common.Upper`; its uses, the file suffix tests, compare against ASCII suffixes only.
- JSON: decoding is a parameter (`parse`), dict key order and `json.dumps` layout are not modelled, and values of unexpected JSON types (a non-string where a string is read) are left out except where a module names the error.
- `int()` on text (`Common.PyInt`) accepts surrounding blanks, an optional sign and ASCII decimal digits; underscores and non-ASCII digits are not modelled.
- `str.splitlines` is modelled on "\n" only; "\r", "\r\n" and the other Unicode line ends are not.
- `str.strip`, `split()` and `isspace` use a fixed list of blanks (`Common.IsSpace`): the ASCII separators and the Unicode space characters; Python's table is not consulted beyond that list.
- Paths: joining and containment are lexical; symlinks and `Path.resolve()` beyond normalising "." and ".." are not modelled.
- Randomness: `random.choice` is a nondeterministic pick from the stated pool; uniformity is not modelled. `uuid` result ids and timestamps are parameters.
- Prompt texts sent to the generative models are not modelled beyond the parts the code computes (context sections, comments text, truncation).
- The front end's React pages and components are not part of this model.
- The thin routers, `dashboard/backend/main.py` and `dashboard/backend/config.py` are not part of this model; `dashboard/backend/models.py` gives datatype shapes only. It declares none of `XPost`, `XTrend`, `SaveInsightRequest` and `ResearchResult`, which `dashboard/backend/services/bird_runner.py:8` imports; their fields are taken from their uses, and the defaults are assumed (an `XPost` built without a handle, counts, url or date has the empty handle, zero counts and empty texts; an `XTrend` without a count has the empty count).
- `scripts/generate_ugc_video.py`, `scripts/deliver_email.py`, `scripts/send_outreach.py` and `dashboard/backend/services/claude_chat.py` are not part of this model.
- Dispatcher: `_load_dotenv`, the environment passed to the child and the child's log file are left out; `Popen` is recorded as the command launched.
- Pipeline runner: process handles are a flag; `Popen` launch details are left out.
- Autopilot video: `generate_clips`, `generate_video`, the download, trim and ffmpeg steps, `save_log`, `update_asset_usage`, `send_notification`, `load_context`, the API call and regex fallback of `generate_text` and `get_skill_files_for_persona` are outcomes given as parameters or left out.
- Autopilot: `generate_content`, `load_context_for_account`, `send_email`, the body of `format_email`, `save_output`/`load_today_output` (parameters) and the retry on HTTP 529 are left out.
- Assemble video: `find_font`, the `process_*` steps, `concatenate` and `upload_to_drive` are outcomes given as parameters.
- Autojournal reel: `find_font`, `load_context`, `generate_text`, the `build_scene` ffmpeg calls, the email and `log_run` are left out.
- Lifestyle reel: `load_lifestyle_usage` (a parameter), `load_skill_context`, `generate_text`, the ffmpeg scenes, the upload and `log_run` are left out.
- SlideAt: image generation and asset resizing are modelled as always succeeding, so a slide fails only for a missing key or a missing asset. In the source an HTTP error or an unexpected OpenAI response raises as well.
- StatSlidesShape: the screen-time show "always succeeds" only because image generation never fails in the model; in the source a failed OpenAI call raises.
- Generate slideshow: drawing, stroke, font fallback, `generate_image`, `resize_asset` and `post_to_tiktok_draft` are left out; the rendered text width is a parameter. The comment next to `FONT_SIZE` says 67, but the code computes 66, and the model follows the code.
- Generate variants: the random scene choice is a pick index; the model and duration arguments, `MODELS` and `list_scenes` printing are left out (`no_trim` and the timestamps are modelled by `Args.noTrim`, `KeptPath` and `World.stamp`); pool entries are numbers rather than paths.
- GenerateVariants.NextPoolNameFresh: a pool is numbered by its count plus one, which collides with an existing clip when the numbering has gaps; freshness is stated only for pools numbered without gaps.
- Email sender: `list_batch_results`, `load_batch_result` and the SMTP `send_one_email` are left out; the send outcome is a parameter.
- Bird runner: the subprocess timeout is part of the outcome parameter.
- BirdRunner.RowOneLine: the row is one line only when the handle and the date contain no line break; the contract requires that of them.
- PostHog client: `get_trend`, the summaries and `format_metrics_for_ai` are left out.
- Funnel snapshot script: the printing of `print_funnel` (scripts/funnel_snapshot.py:134-206) beyond the pieces it prints (`shorten`, `bar`, the delta and the flag), and the argument parsing of `main` (scripts/funnel_snapshot.py:236-251), are left out.
- Revenue: `write_memory_file` formatting, printing and argument parsing are left out.
- Log reader: rounding of the totals is left out.
- Skill loader: file reading is a map from path to text and `rglob` is a list of paths.
- API client: `TextDecoder`, `fetch`, `JSON.parse` and `URLSearchParams` encoding are parameters; the WebSocket fallback and the other fetch wrappers are left out; the content of a non-string chunk payload is not modelled.
- RedditResearch.FetchThreadComments: for a limit below one the contract states only that at most one comment is returned.
- ScheduleReader.ScheduleFile.UpdateSchedule: the schedule the call returns is `GetSchedule` on the written configuration and is not restated in its contract.

## Findings

| source | as written | input that shows it | evidently intended | confidence | as-written member | corrected member |
|---|---|---|---|---|---|---|
| dashboard/backend/routers/knowledge.py:52-53 | the resolved path is accepted when its text starts with the root's text | root "/memory", path "../memory2.md" resolves to "/memory2.md", a sibling outside the root, and is accepted | accept only the root itself or paths below it, component by component | not executed; high | Knowledge.AsWrittenEscapes | Knowledge.CorrectedRefusesMore |
| dashboard/backend/services/reddit_research.py:33 | `sub.strip().lstrip("r/")` removes every leading 'r' and '/' character | "rust" and "r/rust" both search the subreddit "ust" | remove the prefix "r/" once, keep the name whole | not executed; high | RedditResearch.AsWrittenDropsLetter | RedditResearch.SubredditNameKeepsName |
| dashboard/backend/services/posthog_client.py:47-48 | `_has_key` calls `.get("api_key")` on each configured project, but the shipped configuration maps app names to bare integer ids (dashboard/backend/config.py:45-48) | app "manifest-lock" with the shipped configuration: its project is the integer 306371, which has no `get`, so the call raises `AttributeError` | projects configured as objects holding an id and a key, so the key check answers | not executed; high | PosthogClient.ShippedConfigRaises | PosthogClient.IntendedConfigAnswers |
| dashboard/backend/services/pipeline_runner.py:75-78 | the command builder reads `req.hook_text` and `req.reaction_text`, which `PipelineRunRequest` does not declare (dashboard/backend/models.py:72-77) | any pipeline run request, for example account "sophie.unplugs" with every flag off: the attribute lookup raises `AttributeError` | a request type that carries the two optional texts, each passed on only when non-empty | not executed; high | PipelineRunner.PipelineRunAlwaysRaises | PipelineRunner.PipelineArgvDecodes |
