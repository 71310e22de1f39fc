/** The funnel snapshot script: finding an app's previous snapshot in the
  * JSON-lines log, building and appending today's snapshot, and the pieces
  * of its printed comparison (shortened step names, bars, deltas, flags).
  * The backend call, the clock, the JSON encoding and number formatting
  * are parameters; printing is left out. */
module FunnelSnapshotScript {
  import opened Common
  import PosthogClient
  import FunnelSnapshots

  type Entry = FunnelSnapshots.Entry

  /** The parsed lines of the log, in order; the script parses every line,
    * blank or not, and skips those that are not JSON. */
  function ParsedLines(lines: seq<string>, parse: string -> Option<Entry>): (r: seq<Entry>)
    ensures |r| <= |lines|
  {
    if lines == [] then []
    else (if parse(lines[0]).Some? then [parse(lines[0]).value] else []) + ParsedLines(lines[1..], parse)
  }

  /** The loop of `get_previous_snapshot` from a line on, with the last
    * match so far; `entry.get("app")` raises on a value that is not an
    * object. */
  function PreviousFrom(lines: seq<string>, app: string, parse: string -> Option<Entry>,
                        prev: Option<Entry>): Result<Option<Entry>>
  {
    if lines == [] then Ok(prev)
    else
      var e := parse(lines[0]);
      if e.None? then PreviousFrom(lines[1..], app, parse, prev)
      else if e.value.NotObject? then Err(FunnelSnapshots.NoGet(e.value))
      else if e.value.app == Some(app) then PreviousFrom(lines[1..], app, parse, e)
      else PreviousFrom(lines[1..], app, parse, prev)
  }

  /** The previous snapshot is the last of the entries the dashboard lists
    * for the app, and the search fails exactly where that listing does. */
  lemma {:induction false} PreviousIsLastListed(lines: seq<string>, app: string, parse: string -> Option<Entry>,
                                                prev: Option<Entry>)
    ensures var listed := FunnelSnapshots.Matching(ParsedLines(lines, parse), Some(app));
            PreviousFrom(lines, app, parse, prev)
            == if listed.Err? then Err(listed.error)
               else if listed.value == [] then Ok(prev)
               else Ok(Some(listed.value[|listed.value| - 1]))
  {
    if lines != [] {
      var e := parse(lines[0]);
      var rest := ParsedLines(lines[1..], parse);
      if e.None? {
        assert ParsedLines(lines, parse) == rest;
        PreviousIsLastListed(lines[1..], app, parse, prev);
      } else {
        var entries := [e.value] + rest;
        assert ParsedLines(lines, parse) == entries;
        assert entries[0] == e.value && entries[1..] == rest;
        if e.value.Object? {
          var next := if e.value.app == Some(app) then e else prev;
          PreviousIsLastListed(lines[1..], app, parse, next);
          var later := FunnelSnapshots.Matching(rest, Some(app));
          if later.Ok? && e.value.app == Some(app) {
            assert FunnelSnapshots.Matching(entries, Some(app)).value == [e.value] + later.value;
          } else if later.Ok? {
            assert FunnelSnapshots.Matching(entries, Some(app)).value == [] + later.value;
            assert [] + later.value == later.value;
          }
        }
      }
    }
  }

  function PreviousOf(file: Option<string>, app: string, parse: string -> Option<Entry>): Result<Option<Entry>>
  {
    if file.None? then Ok(None) else PreviousFrom(SplitLines(Strip(file.value)), app, parse, None)
  }

  /** `get_previous_snapshot` */
  method GetPreviousSnapshot(file: Option<string>, app: string, parse: string -> Option<Entry>)
    returns (prev: Result<Option<Entry>>)
    ensures prev == PreviousOf(file, app, parse)
  {
    if file.None? {
      return Ok(None);
    }
    var lines := SplitLines(Strip(file.value));
    ghost var whole := PreviousFrom(lines, app, parse, None);
    var last: Option<Entry> := None;
    var i := 0;
    while i < |lines|
      invariant i <= |lines|
      invariant PreviousFrom(lines[i..], app, parse, last) == whole
    {
      assert lines[i..][0] == lines[i] && lines[i..][1..] == lines[i + 1..];
      var e := parse(lines[i]);
      if e.Some? {
        if e.value.NotObject? {
          return Err(FunnelSnapshots.NoGet(e.value));
        }
        if e.value.app == Some(app) {
          last := e;
        }
      }
      i := i + 1;
    }
    assert lines[i..] == [];
    return Ok(last);
  }

  /** Python's `s.replace(pattern, replacement)`: occurrences replaced left to right,
    * without overlaps. */
  function ReplaceAll(s: string, pattern: string, replacement: string): (r: string)
    requires pattern != []
    ensures replacement == [] ==> |r| <= |s|
    decreases |s|
  {
    if |s| < |pattern| then s
    else if s[..|pattern|] == pattern then replacement + ReplaceAll(s[|pattern|..], pattern, replacement)
    else [s[0]] + ReplaceAll(s[1..], pattern, replacement)
  }

  predicate OccursAt(s: string, pattern: string, i: nat)
  {
    i + |pattern| <= |s| && s[i..i + |pattern|] == pattern
  }

  /** Without an occurrence, nothing is replaced. */
  lemma {:induction false} ReplaceAbsent(s: string, pattern: string, replacement: string)
    requires pattern != []
    requires forall i: nat :: !OccursAt(s, pattern, i)
    ensures ReplaceAll(s, pattern, replacement) == s
    decreases |s|
  {
    if |s| >= |pattern| {
      assert !OccursAt(s, pattern, 0);
      assert s[0..|pattern|] == s[..|pattern|];
      forall i: nat ensures !OccursAt(s[1..], pattern, i) {
        assert !OccursAt(s, pattern, i + 1);
      }
      ReplaceAbsent(s[1..], pattern, replacement);
      assert [s[0]] + s[1..] == s;
    }
  }

  /** A leading occurrence is replaced and the rest read on. */
  lemma ReplaceLeading(pattern: string, rest: string, replacement: string)
    requires pattern != []
    ensures ReplaceAll(pattern + rest, pattern, replacement) == replacement + ReplaceAll(rest, pattern, replacement)
  {
    var s := pattern + rest;
    assert s[..|pattern|] == pattern && s[|pattern|..] == rest;
  }

  const StepPrefix := "onboarding_"
  const Ellipsis := '\U{2026}'

  /** Python's `s[:k]`, negative `k` counting from the end. */
  function PyPrefix(s: string, k: int): (r: string)
    ensures |r| <= |s|
    ensures r == s[..|r|]
    ensures |r| == if k >= |s| then |s| else if k >= 0 then k else if |s| + k >= 0 then |s| + k else 0
  {
    if k >= |s| then s
    else if k >= 0 then s[..k]
    else if |s| + k >= 0 then s[..|s| + k]
    else []
  }

  /** `shorten`: the step name without "onboarding_", cut to `maxLen`
    * characters with an ellipsis when longer. */
  function Shorten(name: string, maxLen: int): (r: string)
    ensures var bare := ReplaceAll(name, StepPrefix, "");
            && (|bare| <= maxLen ==> r == bare)
            && (|bare| > maxLen ==> |r| >= 1 && r[|r| - 1] == Ellipsis
                                    && |r| - 1 <= |bare| && r[..|r| - 1] == bare[..|r| - 1])
            && (maxLen >= 1 ==> |r| <= maxLen)
            && (|bare| > maxLen && maxLen >= 1 ==> |r| == maxLen)
            && (|bare| > maxLen && maxLen < 1 ==> |r| - 1 == if |bare| + maxLen - 1 >= 0 then |bare| + maxLen - 1 else 0)
  {
    var bare := ReplaceAll(name, StepPrefix, "");
    if |bare| > maxLen then
      var cut := PyPrefix(bare, maxLen - 1);
      assert (cut + [Ellipsis])[..|cut|] == cut;
      cut + [Ellipsis]
    else bare
  }

  const BarWidth := 20
  const FullBlock := '\U{2588}'
  const LightShade := '\U{2591}'

  /** `c * n` for a one-character string; empty for `n <= 0`. */
  function Times(c: char, n: int): (r: string)
    ensures |r| == if n > 0 then n else 0
    ensures forall i :: 0 <= i < |r| ==> r[i] == c
  {
    if n <= 0 then [] else [c] + Times(c, n - 1)
  }

  /** `bar`: full blocks for the count's share of the largest count, out of
    * twenty, light shade for the rest. */
  function Bar(count: int, maxCount: int): (r: string)
    ensures maxCount == 0 ==> r == ""
  {
    if maxCount == 0 then ""
    else
      var width := RoundHalfEven((count as real) / (maxCount as real) * (BarWidth as real));
      Times(FullBlock, width) + Times(LightShade, BarWidth - width)
  }

  /** For a count between 0 and a positive largest count, the bar has
    * exactly twenty characters: some full blocks, then light shade. */
  lemma BarIsFull(count: int, maxCount: int)
    requires 0 <= count <= maxCount && maxCount > 0
    ensures |Bar(count, maxCount)| == BarWidth
    ensures var w := RoundHalfEven((count as real) / (maxCount as real) * (BarWidth as real));
            0 <= w <= BarWidth && Bar(count, maxCount) == Times(FullBlock, w) + Times(LightShade, BarWidth - w)
  {
    var share := (count as real) / (maxCount as real);
    assert 0.0 <= share <= 1.0 by {
      assert share * (maxCount as real) == count as real;
    }
    RoundWithin(share * (BarWidth as real), 0, BarWidth);
  }

  const Up := '\U{2191}'
  const Down := '\U{2193}'

  /** `delta_str`: nothing without a previous value, "  =" for a change
    * under 0.1, else an arrow for the change's sign, the change signed to
    * one decimal (`signed`), and "%". */
  function DeltaStr(current: real, previous: Option<real>, signed: real -> string): (r: string)
    ensures previous.None? <==> r == ""
    ensures previous.Some? ==> var diff := current - previous.value;
            && ((-0.1 < diff < 0.1) <==> r == "  =")
            && (!(-0.1 < diff < 0.1) ==> r[0] == (if diff > 0.0 then Up else Down))
  {
    if previous.None? then ""
    else
      var diff := current - previous.value;
      var magnitude := if diff < 0.0 then -diff else diff;
      if magnitude < 0.1 then "  ="
      else
        var r := [if diff > 0.0 then Up else Down] + signed(diff) + "%";
        assert r[0] != ' ';
        r
  }

  /** The flag printed after a step. */
  datatype Flag = NoFlag | Cliff | Bug

  function FlagText(f: Flag): string
  {
    match f
    case NoFlag => ""
    case Cliff => " << CLIFF"
    case Bug => " << BUG"
  }

  /** A drop-off of 25% or more is a cliff; otherwise a completion step that
    * nobody reached is a bug. */
  function FlagOf(dropOff: real, name: string, count: int): (r: Flag)
    ensures r == Cliff <==> dropOff >= 25.0
    ensures r == Bug <==> dropOff < 25.0 && name == "onboarding_completed" && count == 0
  {
    if dropOff >= 25.0 then Cliff
    else if name == "onboarding_completed" && count == 0 then Bug
    else NoFlag
  }

  /** A snapshot as the script records it. */
  datatype Snapshot = Snapshot(date: string, app: string, range: string, overallConversion: real,
                               started: int, completed: int, steps: seq<PosthogClient.FunnelStep>)

  function SnapshotOf(app: string, range: string, funnel: FunnelSnapshots.FunnelData, today: string): (r: Snapshot)
    ensures r.app == app && r.range == range && r.date == today
    ensures r.overallConversion == (if funnel.overallConversion.Some? then funnel.overallConversion.value else 0.0)
    ensures r.steps == (if funnel.steps.Some? then funnel.steps.value else [])
    ensures r.steps == [] ==> r.started == 0 && r.completed == 0
    ensures r.steps != [] ==> r.started == r.steps[0].count && r.completed == r.steps[|r.steps| - 1].count
  {
    var steps := if funnel.steps.Some? then funnel.steps.value else [];
    Snapshot(today, app, range,
             if funnel.overallConversion.Some? then funnel.overallConversion.value else 0.0,
             if steps != [] then steps[0].count else 0,
             if steps != [] then steps[|steps| - 1].count else 0,
             steps)
  }

  /** What `run` does to the log for one app: nothing when the backend gave
    * no funnel, or when reading the previous snapshot raised; otherwise the
    * snapshot is appended as one line. */
  datatype RunOutcome = Skipped | Failed(error: string) | Saved(snapshot: Snapshot, written: string)

  method Run(app: string, range: string, fetched: Option<FunnelSnapshots.FunnelData>, file: Option<string>,
             today: string, parse: string -> Option<Entry>, dumps: Snapshot -> string)
    returns (outcome: RunOutcome)
    ensures fetched.None? || fetched == Some(FunnelSnapshots.FunnelData(None, None)) ==> outcome == Skipped
    ensures fetched.Some? && fetched != Some(FunnelSnapshots.FunnelData(None, None)) ==>
              var prev := PreviousOf(file, app, parse);
              && (prev.Err? ==> outcome == Failed(prev.error))
              && (prev.Ok? ==> var s := SnapshotOf(app, range, fetched.value, today);
                               outcome == Saved(s, (if file.Some? then file.value else "") + dumps(s) + "\n"))
  {
    if fetched.None? || fetched == Some(FunnelSnapshots.FunnelData(None, None)) {
      return Skipped;
    }
    var prev := GetPreviousSnapshot(file, app, parse);
    if prev.Err? {
      return Failed(prev.error);
    }
    var snapshot := SnapshotOf(app, range, fetched.value, today);
    var before := if file.Some? then file.value else "";
    return Saved(snapshot, before + dumps(snapshot) + "\n");
  }
}
