/** The UGC reel assembler: lower-third text placement, its drawtext
  * escaping, the dry-run behaviour of the ffmpeg runner, the order of the
  * processing steps with their early exits, and the input check of the
  * command line. */
module AssembleVideo {
  import opened Common
  import opened Layout

  // ---------------------------------------------------------------------
  // Text overlay
  // ---------------------------------------------------------------------

  /** `CHARS_PER_LINE` */
  const WrapWidth: nat := 32

  /** `wrap_text(text)` with its 32-character lines. */
  method WrapText(text: string) returns (lines: seq<string>)
    ensures lines == Wrap(Words(text), WrapWidth)
    ensures Join(lines, " ") == Join(Words(text), " ")
    ensures forall k :: 0 <= k < |lines| ==> lines[k] != [] && (|lines[k]| <= 32 || NoSpace(lines[k]))
  {
    lines := Layout.WrapText(text, Length, WrapWidth);
  }

  /** `escape_drawtext` of this script: the apostrophe becomes U+2019, then
    * backslashes, ":" and ";" are escaped; double quotes are left alone, and
    * no emoji is removed. */
  function EscapeDrawtext(text: string): (r: string)
    ensures '\'' !in r
    ensures WellEscaped(r, false)
    ensures Unescape(r) == ReplaceChar(text, '\'', '\U{2019}')
  {
    var r := EscapeSteps(text, false);
    EscapeStepsProperties(text, false);
    WellEscapedNoApostrophe(r, false);
    r
  }

  /** Double quotes pass through unescaped. */
  lemma QuotesNotEscaped(s: string)
    ensures EscapeDrawtext(s + "\"") == EscapeDrawtext(s) + "\""
  {
    StepsAppend(s, "\"", false);
    StepsOne('"', false);
  }

  /** `int(FONT_SIZE * 1.4)` for the 56-pixel font. */
  const LineHeight: int := 78

  /** `int(HEIGHT * TEXT_Y_RATIO)`: three quarters down the 1920-pixel frame. */
  const TextCentre: int := 1440

  /** The constants are the integer parts of the source's products. */
  lemma PlacementConstants()
    ensures (56.0 * 1.4).Floor == LineHeight
    ensures (1920.0 * 0.75).Floor == TextCentre
  {
  }

  /** The vertical position of line `i` of `n`. */
  function LineY(i: int, n: nat): int
  {
    TextCentre - (LineHeight * n) / 2 + i * LineHeight
  }

  /** The block of lines is centred on the text line: its top is as far
    * above 1440 as its bottom is below, and lines are 78 pixels apart. */
  lemma TextBlockCentred(n: nat)
    requires n >= 1
    ensures TextCentre - LineY(0, n) == LineY(n - 1, n) + LineHeight - TextCentre
    ensures forall i :: 0 <= i < n - 1 ==> LineY(i + 1, n) - LineY(i, n) == LineHeight
  {
    assert (LineHeight * n) / 2 == 39 * n;
  }

  /** The options of one line's drawtext. */
  function LineOpts(fontPath: string, escaped: string, y: int): seq<Opt>
  {
    [Opt("fontfile", "'" + fontPath + "'"), Opt("text", "'" + escaped + "'"), Opt("fontsize", "56"),
     Opt("fontcolor", "white"), Opt("borderw", "3"), Opt("bordercolor", "black"),
     Opt("x", "max(60\\,(w-text_w)/2)"), Opt("y", IntToString(y))]
  }

  function RenderAll(filters: seq<seq<Opt>>): seq<string>
  {
    if filters == [] then [] else [RenderDrawtext(filters[0])] + RenderAll(filters[1..])
  }

  /** The filter text: the line filters joined by ",". */
  function FilterText(filters: seq<seq<Opt>>): string
  {
    Join(RenderAll(filters), ",")
  }

  /** The drawtext of line `i` of `n`. */
  function LineFilter(fontPath: string, line: string, i: int, n: nat): seq<Opt>
  {
    LineOpts(fontPath, EscapeDrawtext(line), LineY(i, n))
  }

  /** The drawtexts of the first `m` of `n` lines. */
  function LineFilters(fontPath: string, lines: seq<string>, m: nat, n: nat): (r: seq<seq<Opt>>)
    requires m <= |lines|
    ensures |r| == m
  {
    if m == 0 then [] else LineFilters(fontPath, lines, m - 1, n) + [LineFilter(fontPath, lines[m - 1], m - 1, n)]
  }

  lemma {:induction false} LineFiltersAt(fontPath: string, lines: seq<string>, m: nat, n: nat, i: nat)
    requires i < m <= |lines|
    ensures LineFilters(fontPath, lines, m, n)[i] == LineFilter(fontPath, lines[i], i, n)
  {
    if i < m - 1 {
      LineFiltersAt(fontPath, lines, m - 1, n, i);
    }
  }

  /** `build_drawtext_filter`: one drawtext per wrapped line, in order, line
    * `i` of `n` at height 1440 - 78·n/2 + 78·i with its text escaped. */
  method BuildDrawtextFilter(text: string, fontPath: string) returns (filters: seq<seq<Opt>>)
    ensures |filters| == |Wrap(Words(text), WrapWidth)|
    ensures forall i :: 0 <= i < |filters| ==>
      filters[i] == LineFilter(fontPath, Wrap(Words(text), WrapWidth)[i], i, |filters|)
  {
    var lines := Wrap(Words(text), WrapWidth);  // the lines `WrapText` returns
    var n := |lines|;
    var baseY := TextCentre - (LineHeight * n) / 2;
    filters := [];
    var i := 0;
    while i < n
      invariant 0 <= i <= n
      invariant filters == LineFilters(fontPath, lines, i, n)
    {
      var escaped := EscapeDrawtext(lines[i]);
      var y := baseY + i * LineHeight;
      var filter := LineOpts(fontPath, escaped, y);
      assert y == LineY(i, n);
      filters := filters + [filter];
      i := i + 1;
    }
    forall j | 0 <= j < n
      ensures filters[j] == LineFilter(fontPath, lines[j], j, n)
    {
      LineFiltersAt(fontPath, lines, n, n, j);
    }
  }

  // ---------------------------------------------------------------------
  // ffmpeg runs and the assembly steps
  // ---------------------------------------------------------------------

  /** The full ffmpeg command line of a run. */
  function FfmpegCommand(args: seq<string>): seq<string>
  {
    ["ffmpeg", "-y", "-hide_banner", "-loglevel", "warning"] + args
  }

  /** `run_ffmpeg`: a dry run succeeds without running anything; otherwise
    * the run succeeds exactly when ffmpeg (`exec`, the exit status of a
    * command) exits with 0. */
  function RunFfmpeg(args: seq<string>, dryRun: bool, exec: seq<string> -> int): (ok: bool)
    ensures dryRun ==> ok
    ensures !dryRun ==> (ok <==> exec(FfmpegCommand(args)) == 0)
  {
    if dryRun then true else exec(FfmpegCommand(args)) == 0
  }

  /** The processing steps of `assemble`, each one ffmpeg run. */
  datatype Step = Hook | Screen | Reaction | Concat

  /** The steps a reel needs, in order: the reaction clip only when given. */
  function Planned(withReaction: bool): seq<Step>
  {
    [Hook, Screen] + (if withReaction then [Reaction] else []) + [Concat]
  }

  /** The clips concatenated: hook and screen recording, then the reaction
    * clip when there is one. */
  function ClipList(withReaction: bool): seq<string>
  {
    ["01_hook.mp4", "02_screen.mp4"] + (if withReaction then ["03_reaction.mp4"] else [])
  }

  datatype Assembled = Assembled(steps: seq<Step>, clips: seq<string>, output: Option<string>, uploaded: bool)

  /** `assemble`: runs the steps in order and stops at the first failure,
    * which yields no output and no upload. `ok(s)` is whether step `s`
    * succeeds (always so in a dry run, see `RunFfmpeg`). */
  method Assemble(withReaction: bool, outPath: string, noUpload: bool, ok: Step -> bool) returns (r: Assembled)
    ensures exists k :: 0 < k <= |Planned(withReaction)| && r.steps == Planned(withReaction)[..k]
    ensures forall j :: 0 <= j < |r.steps| - 1 ==> ok(r.steps[j])
    ensures r.output.Some? <==> forall s :: s in Planned(withReaction) ==> ok(s)
    ensures r.output.Some? ==> r.output.value == outPath && r.steps == Planned(withReaction)
    ensures r.output.None? ==> !ok(r.steps[|r.steps| - 1])
    ensures Concat in r.steps ==> r.clips == ClipList(withReaction)
    ensures r.uploaded <==> r.output.Some? && !noUpload
  {
    var plan := Planned(withReaction);
    assert plan == if withReaction then [Hook, Screen, Reaction, Concat] else [Hook, Screen, Concat];
    if !ok(Hook) {
      assert plan[..1] == [Hook] && Hook in plan;
      return Assembled([Hook], [], None, false);
    }
    if !ok(Screen) {
      assert plan[..2] == [Hook, Screen] && Screen in plan;
      return Assembled([Hook, Screen], [], None, false);
    }
    var steps := [Hook, Screen];
    var clips := ["01_hook.mp4", "02_screen.mp4"];
    if withReaction {
      steps := steps + [Reaction];
      assert plan[..3] == steps;
      if !ok(Reaction) {
        assert Reaction in plan;
        return Assembled(steps, [], None, false);
      }
      clips := clips + ["03_reaction.mp4"];
    }
    steps := steps + [Concat];
    assert plan[..|plan|] == plan == steps;
    if !ok(Concat) {
      assert Concat in plan;
      return Assembled(steps, clips, None, false);
    }
    r := Assembled(steps, clips, Some(outPath), !noUpload);
  }

  /** In a dry run every step succeeds, so the reel is assembled. */
  lemma DryRunAssembles(withReaction: bool, args: Step -> seq<string>, exec: seq<string> -> int)
    ensures forall s :: s in Planned(withReaction) ==> RunFfmpeg(args(s), true, exec)
  {
  }

  // ---------------------------------------------------------------------
  // Command line
  // ---------------------------------------------------------------------

  /** The inputs `main` checks, with their labels, in order. */
  function Inputs(hook: string, screen: string, reaction: Option<string>): seq<(string, string)>
  {
    [(hook, "Hook clip"), (screen, "Screen recording")]
    + (if reaction.Some? then [(reaction.value, "Reaction clip")] else [])
  }

  /** The label of the first input that does not exist. */
  function FirstMissing(inputs: seq<(string, string)>, exists_: string -> bool): (r: Option<string>)
    ensures r.None? <==> forall k :: 0 <= k < |inputs| ==> exists_(inputs[k].0)
    ensures r.Some? ==> exists k :: 0 <= k < |inputs| && !exists_(inputs[k].0) && r.value == inputs[k].1
                                    && forall j :: 0 <= j < k ==> exists_(inputs[j].0)
  {
    if inputs == [] then None
    else if !exists_(inputs[0].0) then Some(inputs[0].1)
    else
      var rest := FirstMissing(inputs[1..], exists_);
      if rest.Some? then
        var k :| 0 <= k < |inputs[1..]| && !exists_(inputs[1..][k].0) && rest.value == inputs[1..][k].1
                 && forall j :: 0 <= j < k ==> exists_(inputs[1..][j].0);
        assert inputs[k + 1] == inputs[1..][k];
        rest
      else rest
  }

  /** `main`'s input check: exit status 1 when any required input is
    * missing, otherwise the assembly runs. */
  function MainExit(hook: string, screen: string, reaction: Option<string>, exists_: string -> bool): (code: Option<int>)
    ensures code.None? <==> exists_(hook) && exists_(screen) && (reaction.Some? ==> exists_(reaction.value))
    ensures code.Some? ==> code.value == 1
  {
    var inputs := Inputs(hook, screen, reaction);
    assert inputs[0].0 == hook && inputs[1].0 == screen;
    assert reaction.Some? ==> inputs[2].0 == reaction.value;
    if FirstMissing(inputs, exists_).Some? then Some(1) else None
  }
}
