/** The dashboard's reader of the pipeline log (one JSON object per line)
  * and of the daily spend ledger: the run list, the spend list, the overview
  * figures and the per-persona statistics. Money is counted in integer
  * cents. */
module LogReader {
  import opened Common
  import opened Sorting

  /** One logged pipeline run (`PipelineRun`). */
  datatype Run = Run(timestamp: string, persona: string, videoType: Option<string>,
                     hookText: string, reactionText: string, caption: string,
                     contentAngle: string, reelPath: Option<string>, cost: Option<int>)

  const VpsRoot: string := "/root/openclaw/"

  /** `_normalize_reel_path`: a missing or empty path becomes none; a path
    * under the server's checkout is moved under the local project root;
    * any other path is kept. */
  function NormalizeReelPath(path: Option<string>, projectRoot: string): (r: Option<string>)
    ensures r.None? <==> path.None? || path.value == ""
    ensures path.Some? && path.value != "" && !StartsWith(path.value, VpsRoot) ==> r == path
    ensures path.Some? && StartsWith(path.value, VpsRoot) ==>
      r == Some(PathJoin(projectRoot, path.value[|VpsRoot|..]))
  {
    if path.None? || path.value == "" then None
    else if StartsWith(path.value, VpsRoot) then Some(PathJoin(projectRoot, path.value[|VpsRoot|..]))
    else path
  }

  /** A relative path under the server's checkout lands under the project
    * root: the result starts with the root followed by the rest. */
  lemma NormalizedUnderRoot(path: string, projectRoot: string)
    requires StartsWith(path, VpsRoot) && |path| > |VpsRoot| && path[|VpsRoot|] != '/'
    requires projectRoot != [] && projectRoot[|projectRoot| - 1] != '/'
    ensures NormalizeReelPath(Some(path), projectRoot)
      == Some(projectRoot + "/" + path[|VpsRoot|..])
  {
  }

  /** The non-blank lines, in order. */
  function NonBlank(lines: seq<string>): (r: seq<string>)
    ensures |r| <= |lines|
    ensures forall k :: 0 <= k < |r| ==> Strip(r[k]) != ""
  {
    if lines == [] then []
    else
      var last := lines[|lines| - 1];
      NonBlank(lines[..|lines| - 1]) + (if Strip(last) == "" then [] else [last])
  }

  /** Skipping blank lines keeps the order of the others: the non-blank
    * lines of two runs of lines are those of the first, then those of the
    * second. */
  lemma {:induction false} NonBlankAppend(a: seq<string>, b: seq<string>)
    ensures NonBlank(a + b) == NonBlank(a) + NonBlank(b)
    decreases |b|
  {
    if b == [] {
      assert a + b == a;
    } else {
      assert (a + b)[..|a + b| - 1] == a + b[..|b| - 1];
      NonBlankAppend(a, b[..|b| - 1]);
    }
  }

  /** Every non-blank line is kept. */
  lemma {:induction false} NonBlankKeeps(lines: seq<string>, k: nat)
    requires k < |lines| && Strip(lines[k]) != ""
    ensures lines[k] in NonBlank(lines)
  {
    assert lines == lines[..k] + [lines[k]] + lines[k + 1..];
    NonBlankAppend(lines[..k] + [lines[k]], lines[k + 1..]);
    NonBlankAppend(lines[..k], [lines[k]]);
    assert [lines[k]][..0] == [];
  }

  /** The run of a parsed line, with its reel path normalised. */
  function WithLocalPath(run: Run, projectRoot: string): Run
  {
    run.(reelPath := NormalizeReelPath(run.reelPath, projectRoot))
  }

  /** The runs of the log lines read so far: blank lines are skipped, and a
    * line that does not parse fails the whole read. */
  function RunsOf(lines: seq<string>, parse: string -> Option<Run>, projectRoot: string): Result<seq<Run>>
  {
    if lines == [] then Ok([])
    else
      var line := lines[|lines| - 1];
      match RunsOf(lines[..|lines| - 1], parse, projectRoot)
      case Err(e) => Err(e)
      case Ok(runs) =>
        if Strip(line) == "" then Ok(runs)
        else if parse(line).None? then Err("JSONDecodeError")
        else Ok(runs + [WithLocalPath(parse(line).value, projectRoot)])
  }

  /** Every line of `nb` parses. */
  predicate AllParse(nb: seq<string>, parse: string -> Option<Run>)
  {
    forall k :: 0 <= k < |nb| ==> parse(nb[k]).Some?
  }

  lemma AllParseSnoc(nb: seq<string>, line: string, parse: string -> Option<Run>)
    ensures AllParse(nb + [line], parse) <==> AllParse(nb, parse) && parse(line).Some?
  {
    var t := nb + [line];
    assert forall k :: 0 <= k < |nb| ==> t[k] == nb[k];
    assert t[|nb|] == line;
  }

  /** Reading succeeds exactly when every non-blank line parses. */
  lemma {:induction false} RunsOfFails(lines: seq<string>, parse: string -> Option<Run>, projectRoot: string)
    ensures RunsOf(lines, parse, projectRoot).Ok? <==> AllParse(NonBlank(lines), parse)
  {
    if lines != [] {
      var init := lines[..|lines| - 1];
      var line := lines[|lines| - 1];
      RunsOfFails(init, parse, projectRoot);
      if Strip(line) != "" {
        assert NonBlank(lines) == NonBlank(init) + [line];
        AllParseSnoc(NonBlank(init), line, parse);
      } else {
        assert NonBlank(lines) == NonBlank(init);
      }
    }
  }

  /** A successful read has one run per non-blank line, in file order, each
    * the parsed line with its reel path normalised. */
  lemma {:induction false} RunsOfReads(lines: seq<string>, parse: string -> Option<Run>, projectRoot: string)
    requires RunsOf(lines, parse, projectRoot).Ok?
    ensures var nb := NonBlank(lines);
      var runs := RunsOf(lines, parse, projectRoot).value;
      |runs| == |nb|
      && forall k :: 0 <= k < |nb| ==>
           parse(nb[k]).Some? && runs[k] == WithLocalPath(parse(nb[k]).value, projectRoot)
  {
    if lines != [] {
      var init := lines[..|lines| - 1];
      var line := lines[|lines| - 1];
      RunsOfReads(init, parse, projectRoot);
      var nb0 := NonBlank(init);
      var nb := NonBlank(lines);
      if Strip(line) != "" {
        assert nb == nb0 + [line];
      } else {
        assert nb == nb0;
      }
    }
  }

  /** `read_all_runs`: no log means no runs; otherwise the runs of the lines
    * of the stripped text. */
  method ReadAllRuns(file: Option<string>, parse: string -> Option<Run>, projectRoot: string)
    returns (r: Result<seq<Run>>)
    ensures file.None? ==> r == Ok([])
    ensures file.Some? ==> r == RunsOf(Split(Strip(file.value), '\n'), parse, projectRoot)
  {
    if file.None? {
      return Ok([]);
    }
    var all := Split(Strip(file.value), '\n');
    r := ReadLines(all, parse, projectRoot);
  }

  /** The line loop of `read_all_runs`. */
  method ReadLines(all: seq<string>, parse: string -> Option<Run>, projectRoot: string)
    returns (r: Result<seq<Run>>)
    ensures r == RunsOf(all, parse, projectRoot)
  {
    var runs: seq<Run> := [];
    var i := 0;
    while i < |all|
      invariant 0 <= i <= |all|
      invariant RunsOf(all[..i], parse, projectRoot) == Ok(runs)
    {
      assert all[..i + 1][..i] == all[..i];
      var line := all[i];
      if Strip(line) != "" {
        var data := parse(line);
        if data.None? {
          ErrSticks(all, i + 1, parse, projectRoot);
          return Err("JSONDecodeError");
        }
        runs := runs + [WithLocalPath(data.value, projectRoot)];
      }
      i := i + 1;
    }
    assert all[..i] == all;
    r := Ok(runs);
  }

  /** Once the read has failed, later lines do not change that. */
  lemma {:induction false} ErrSticks(all: seq<string>, i: nat, parse: string -> Option<Run>, projectRoot: string)
    requires i <= |all| && RunsOf(all[..i], parse, projectRoot) == Err("JSONDecodeError")
    ensures RunsOf(all, parse, projectRoot) == Err("JSONDecodeError")
    decreases |all| - i
  {
    if i == |all| {
      assert all[..i] == all;
    } else {
      assert all[..i + 1][..i] == all[..i];
      ErrSticks(all, i + 1, parse, projectRoot);
    }
  }

  /** One day of the ledger (`DailySpend`). */
  datatype DailySpend = DailySpend(date: string, amount: int)

  /** The ledger as `json.loads` returns it: its (date, cents) items in
    * file order, each date once. */
  predicate DistinctDates(items: seq<(string, int)>)
  {
    forall i, j :: 0 <= i < j < |items| ==> items[i].0 != items[j].0
  }

  function AsDailySpend(items: seq<(string, int)>): (r: seq<DailySpend>)
    ensures |r| == |items|
    ensures forall k :: 0 <= k < |items| ==> r[k] == DailySpend(items[k].0, items[k].1)
  {
    if items == [] then [] else [DailySpend(items[0].0, items[0].1)] + AsDailySpend(items[1..])
  }

  function DateOf(d: DailySpend): string
  {
    d.date
  }

  /** `get_daily_spend_list`: the ledger's days sorted by date. */
  function DailySpendList(items: seq<(string, int)>): (r: seq<DailySpend>)
  {
    SortBy(AsDailySpend(items), DateOf)
  }

  /** The spend list has one element per ledger day, carrying that day's
    * amount, in ascending date order. */
  lemma DailySpendListIsLedger(items: seq<(string, int)>)
    ensures var r := DailySpendList(items);
      |r| == |items|
      && (forall i, j :: 0 <= i < j < |r| ==> StrLeq(r[i].date, r[j].date))
      && (forall d, a :: DailySpend(d, a) in r <==> (d, a) in items)
  {
    var m := AsDailySpend(items);
    var r := DailySpendList(items);
    assert forall i, j :: 0 <= i < j < |r| ==> StrLeq(DateOf(r[i]), DateOf(r[j]));
    forall d, a ensures DailySpend(d, a) in r <==> (d, a) in items {
      calc <==> {
        DailySpend(d, a) in r;
        DailySpend(d, a) in multiset(r);
        DailySpend(d, a) in multiset(m);
        DailySpend(d, a) in m;
      }
      if DailySpend(d, a) in m {
        var k :| 0 <= k < |m| && m[k] == DailySpend(d, a);
        assert items[k] == (d, a);
      }
      if (d, a) in items {
        var k :| 0 <= k < |items| && items[k] == (d, a);
        assert m[k] == DailySpend(d, a);
      }
    }
  }

  /** `spend.get(day, 0.0)` */
  function SpendOn(items: seq<(string, int)>, day: string): (r: int)
    ensures (forall k :: 0 <= k < |items| ==> items[k].0 != day) ==> r == 0
  {
    if items == [] then 0
    else if items[0].0 == day then items[0].1
    else SpendOn(items[1..], day)
  }

  /** `sum(spend.values())` */
  function TotalSpend(items: seq<(string, int)>): int
  {
    if items == [] then 0 else items[0].1 + TotalSpend(items[1..])
  }

  /** The amount of the day that is in the ledger. */
  lemma {:induction false} SpendOnFinds(items: seq<(string, int)>, k: nat)
    requires DistinctDates(items) && k < |items|
    ensures SpendOn(items, items[k].0) == items[k].1
  {
    if k > 0 {
      assert items[0].0 != items[k].0;
      assert DistinctDates(items[1..]) by {
        forall i, j | 0 <= i < j < |items| - 1 ensures items[1..][i].0 != items[1..][j].0 {
          assert items[i + 1].0 != items[j + 1].0;
        }
      }
      SpendOnFinds(items[1..], k - 1);
    }
  }

  /** With no negative entries, today's cost is part of the total spend. */
  lemma {:induction false} TodayWithinTotal(items: seq<(string, int)>, day: string)
    requires forall k :: 0 <= k < |items| ==> items[k].1 >= 0
    ensures 0 <= SpendOn(items, day) <= TotalSpend(items)
  {
    if items != [] {
      TodayWithinTotal(items[1..], day);
    }
  }

  /** The run was logged on `today`: its timestamp starts with the ISO
    * date. */
  function OnDay(today: string): Run -> bool
  {
    (run: Run) => StartsWith(run.timestamp, today)
  }

  /** `if r.reel_path`: the run has a non-empty reel path. */
  predicate HasReel(run: Run)
  {
    run.reelPath.Some? && run.reelPath.value != ""
  }

  /** The number of runs logged on `today`. */
  function CountOn(runs: seq<Run>, today: string): (r: nat)
    ensures r == |Filter(runs, OnDay(today))|
  {
    if runs == [] then 0
    else (if StartsWith(runs[0].timestamp, today) then 1 else 0) + CountOn(runs[1..], today)
  }

  /** The number of runs that produced a reel. */
  function CountReels(runs: seq<Run>): (r: nat)
    ensures r == |Filter(runs, HasReel)|
  {
    if runs == [] then 0
    else (if runs[0].reelPath.Some? && runs[0].reelPath.value != "" then 1 else 0) + CountReels(runs[1..])
  }

  /** Counts of runs split by a property sum over the concatenation. */
  lemma CountsAppend(a: seq<Run>, b: seq<Run>, today: string)
    ensures CountOn(a + b, today) == CountOn(a, today) + CountOn(b, today)
    ensures CountReels(a + b) == CountReels(a) + CountReels(b)
  {
    FilterAppend(a, b, OnDay(today));
    FilterAppend(a, b, HasReel);
  }

  /** The total spend of two ledgers read one after the other is the sum of
    * their totals. */
  lemma {:induction false} TotalSpendAppend(a: seq<(string, int)>, b: seq<(string, int)>)
    ensures TotalSpend(a + b) == TotalSpend(a) + TotalSpend(b)
  {
    if a != [] {
      assert (a + b)[1..] == a[1..] + b;
      TotalSpendAppend(a[1..], b);
    } else {
      assert a + b == b;
    }
  }

  /** `OverviewStats` without the rounding of the money figures. */
  datatype Overview = Overview(todayRuns: nat, todayCost: int, dailyCap: int, totalReels: nat, totalSpend: int)

  /** `get_overview_stats`: the runs of today and the runs with a reel,
    * counted over the filtered log, today's ledger amount (zero when the
    * day is missing), the configured cap and the sum of the ledger. */
  function OverviewStats(runs: seq<Run>, items: seq<(string, int)>, today: string, cap: int): (r: Overview)
    ensures r.todayRuns == |Filter(runs, OnDay(today))|
    ensures r.totalReels == |Filter(runs, HasReel)|
    ensures r.dailyCap == cap
    ensures r.totalSpend == TotalSpend(items)
    ensures (forall k :: 0 <= k < |items| ==> items[k].0 != today) ==> r.todayCost == 0
    ensures DistinctDates(items) ==>
      forall k :: 0 <= k < |items| && items[k].0 == today ==> r.todayCost == items[k].1
  {
    forall k | 0 <= k < |items| && DistinctDates(items) {
      SpendOnFinds(items, k);
    }
    Overview(CountOn(runs, today), SpendOn(items, today), cap, CountReels(runs), TotalSpend(items))
  }

  /** One more run logged today counts once more today, and once more as a
    * reel when it has one; one more ledger day adds its amount to the
    * total spend. */
  lemma OverviewAfterRun(runs: seq<Run>, run: Run, items: seq<(string, int)>, day: (string, int),
                         today: string, cap: int)
    requires StartsWith(run.timestamp, today)
    ensures var before := OverviewStats(runs, items, today, cap);
      var after := OverviewStats(runs + [run], items + [day], today, cap);
      after.todayRuns == before.todayRuns + 1
      && after.totalReels == before.totalReels + (if HasReel(run) then 1 else 0)
      && after.totalSpend == before.totalSpend + day.1
  {
    CountsAppend(runs, [run], today);
    TotalSpendAppend(items, [day]);
  }

  const Personas: seq<string> := ["sanya", "sophie", "aliyah", "olivia", "riley"]

  /** `PERSONA_COLORS.get(persona, "#6b7280")` */
  function PersonaColor(persona: string): string
  {
    if persona == "sanya" then "#ef4444"
    else if persona == "sophie" then "#3b82f6"
    else if persona == "aliyah" then "#8b5cf6"
    else if persona == "olivia" then "#f59e0b"
    else if persona == "riley" then "#10b981"
    else "#6b7280"
  }

  datatype PersonaStat = PersonaStat(persona: string, color: string, lastRun: Option<string>,
                                     totalRuns: nat, hookClips: nat, reactionClips: nat)

  /** The run belongs to `persona`. */
  function OfPersona(persona: string): Run -> bool
  {
    (run: Run) => run.persona == persona
  }

  /** `[r for r in runs if r.persona == persona]`: every run of the
    * persona, as often as the log holds it, in file order. */
  function RunsOfPersona(runs: seq<Run>, persona: string): seq<Run>
  {
    Filter(runs, OfPersona(persona))
  }

  /** The runs of a persona are every run of the log that belongs to it, as
    * often as the log holds it, in file order, and no other run. */
  lemma PersonaRunsComplete(runs: seq<Run>, persona: string)
    ensures IsFilterOf(RunsOfPersona(runs, persona), runs, OfPersona(persona))
  {
    FilterIsFilterOf(runs, OfPersona(persona));
  }

  /** A persona's latest run is its last run in file order: the run at
    * index `k`, after which no line of the log belongs to it. */
  lemma LastRunIsLatest(runs: seq<Run>, persona: string) returns (k: nat)
    requires RunsOfPersona(runs, persona) != []
    ensures k < |runs| && runs[k] == RunsOfPersona(runs, persona)[|RunsOfPersona(runs, persona)| - 1]
    ensures runs[k].persona == persona
    ensures forall j :: k < j < |runs| ==> runs[j].persona != persona
  {
    k := FilterLast(runs, OfPersona(persona));
    assert OfPersona(persona)(runs[k]);
  }

  /** A `*.mp4` file name. */
  predicate IsMp4(name: string)
  {
    Suffix(name) == ".mp4"
  }

  /** `len(list(dir.glob("*.mp4")))` when the clip directory exists, else
    * 0. */
  function ClipCount(dir: Option<seq<string>>): nat
  {
    if dir.None? then 0 else |Filter(dir.value, IsMp4)|
  }

  /** The glob lists every `.mp4` name of the directory, in listing order,
    * and no other name. */
  lemma GlobIsMp4Names(names: seq<string>)
    ensures IsFilterOf(Filter(names, IsMp4), names, IsMp4)
  {
    FilterIsFilterOf(names, IsMp4);
  }

  /** The statistics of one persona; `clips(persona, kind)` lists the
    * persona's clip directory of that kind. */
  function PersonaStatOf(runs: seq<Run>, persona: string, clips: (string, string) -> Option<seq<string>>): (r: PersonaStat)
    ensures r.persona == persona && r.color == PersonaColor(persona)
    ensures r.totalRuns == |Filter(runs, OfPersona(persona))|
    ensures r.hookClips == if clips(persona, "hook").None? then 0 else |Filter(clips(persona, "hook").value, IsMp4)|
    ensures r.reactionClips ==
      if clips(persona, "reaction").None? then 0 else |Filter(clips(persona, "reaction").value, IsMp4)|
  {
    var mine := RunsOfPersona(runs, persona);
    PersonaStat(persona, PersonaColor(persona),
                if mine == [] then None else Some(mine[|mine| - 1].timestamp),
                |mine|, ClipCount(clips(persona, "hook")), ClipCount(clips(persona, "reaction")))
  }

  /** A persona without runs has no last run; otherwise its last run is the
    * timestamp of the run at index `k`, one of its runs after which the log
    * holds none of its runs. */
  lemma PersonaLastRun(runs: seq<Run>, persona: string, clips: (string, string) -> Option<seq<string>>)
    returns (k: nat)
    ensures var r := PersonaStatOf(runs, persona, clips);
      && (r.lastRun.None? <==> forall j :: 0 <= j < |runs| ==> runs[j].persona != persona)
      && (r.lastRun.Some? ==>
            && k < |runs| && runs[k].persona == persona
            && runs[k].timestamp == r.lastRun.value
            && forall j :: k < j < |runs| ==> runs[j].persona != persona)
  {
    var mine := RunsOfPersona(runs, persona);
    FilterEmpty(runs, OfPersona(persona));
    assert PersonaStatOf(runs, persona, clips).lastRun == if mine == [] then None else Some(mine[|mine| - 1].timestamp);
    if mine != [] {
      k := LastRunIsLatest(runs, persona);
    } else {
      k := 0;
    }
  }

  /** The runs counted over the personas `ps`: the sum of their run
    * counts. */
  function RunsCounted(ps: seq<string>, runs: seq<Run>): nat
  {
    if ps == [] then 0 else |Filter(runs, OfPersona(ps[0]))| + RunsCounted(ps[1..], runs)
  }

  /** One more run at the front is counted once for every listed persona
    * equal to its own. */
  lemma {:induction false} RunsCountedCons(ps: seq<string>, run: Run, runs: seq<Run>)
    ensures RunsCounted(ps, [run] + runs) == RunsCounted(ps, runs) + Count(ps, run.persona)
  {
    if ps != [] {
      assert ([run] + runs)[1..] == runs;
      RunsCountedCons(ps[1..], run, runs);
    }
  }

  /** When every run belongs to one of the configured personas, the
    * per-persona run counts of `get_persona_stats` add up to the number of
    * runs: each run is counted exactly once. */
  lemma {:induction false} EveryRunCounted(runs: seq<Run>)
    requires forall k :: 0 <= k < |runs| ==> runs[k].persona in Personas
    ensures RunsCounted(Personas, runs) == |runs|
  {
    if runs != [] {
      var x := runs[0];
      assert runs == [x] + runs[1..];
      assert forall k :: 0 <= k < |runs| - 1 ==> runs[1..][k] == runs[k + 1];
      EveryRunCounted(runs[1..]);
      RunsCountedCons(Personas, x, runs[1..]);
      ListedOnce(x.persona);
    } else {
      NothingCounted(Personas);
    }
  }

  lemma {:induction false} NothingCounted(ps: seq<string>)
    ensures RunsCounted(ps, []) == 0
  {
    if ps != [] {
      NothingCounted(ps[1..]);
    }
  }

  /** The configured personas are distinct. */
  lemma ListedOnce(persona: string)
    requires persona in Personas
    ensures Count(Personas, persona) == 1
  {
    var ps := Personas;
    assert ps[0][0] == 's' && ps[1][0] == 's' && ps[2][0] == 'a' && ps[3][0] == 'o' && ps[4][0] == 'r';
    assert ps[0][1] != ps[1][1];
    if persona == ps[0] {
    } else if persona == ps[1] {
    } else if persona == ps[2] {
    } else if persona == ps[3] {
    } else {
    }
  }

  /** `get_persona_stats`: one entry per persona of the fixed list, in that
    * order. */
  method GetPersonaStats(runs: seq<Run>, clips: (string, string) -> Option<seq<string>>)
    returns (stats: seq<PersonaStat>)
    ensures |stats| == |Personas|
    ensures forall k :: 0 <= k < |Personas| ==> stats[k] == PersonaStatOf(runs, Personas[k], clips)
  {
    stats := StatsFor(Personas, runs, clips);
  }

  /** The loop of `get_persona_stats` over the personas `ps`. */
  method StatsFor(ps: seq<string>, runs: seq<Run>, clips: (string, string) -> Option<seq<string>>)
    returns (stats: seq<PersonaStat>)
    ensures |stats| == |ps|
    ensures forall k :: 0 <= k < |ps| ==> stats[k] == PersonaStatOf(runs, ps[k], clips)
  {
    stats := [];
    for i := 0 to |ps|
      invariant |stats| == i
      invariant forall k :: 0 <= k < i ==> stats[k] == PersonaStatOf(runs, ps[k], clips)
    {
      var st := PersonaStatOf(runs, ps[i], clips);
      stats := stats + [st];
    }
  }
}
