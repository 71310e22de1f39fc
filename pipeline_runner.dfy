/** The dashboard's run registry: start requests become command lines that
  * wait in one FIFO queue; a single worker takes them one at a time, streams
  * the process output into the run record and sets the final status. One
  * turn of the worker thread is one method on the registry object. */
module PipelineRunner {
  import opened Common

  datatype Status = Queued | Running | Completed | Failed

  datatype RunRecord = RunRecord(
    id: string, status: Status, persona: string, app: Option<string>,
    startedAt: string, output: string, hasProcess: bool)

  /** The `PipelineRunStatus` answer. */
  datatype RunView = RunView(
    id: string, status: Status, persona: string, app: Option<string>,
    startedAt: string, output: string)

  datatype QueueItem = QueueItem(id: string, cmd: seq<string>)

  /** How the launched process behaved, as the worker observes it. */
  datatype ProcessOutcome =
    | Exited(lines: seq<string>, code: int)
    | LaunchFailed(error: string)
    | ReadFailed(linesBefore: seq<string>, error: string)

  /** `PipelineRunRequest` as declared: it has no hook or reaction text. */
  datatype PipelineRunRequest = PipelineRunRequest(
    account: string, dryRun: bool, noUpload: bool, noReaction: bool, ideaOnly: bool)

  /** The same request with the two optional texts that the command builder reads. */
  datatype PipelineTextRequest = PipelineTextRequest(
    account: string, dryRun: bool, noUpload: bool, noReaction: bool, ideaOnly: bool,
    hookText: Option<string>, reactionText: Option<string>)

  datatype LifestyleReelRequest = LifestyleReelRequest(
    dryRun: bool, noUpload: bool,
    scene1Text: Option<string>, scene2Text: Option<string>, scene3Text: Option<string>,
    scene1Image: Option<string>, scene2Image: Option<string>)

  datatype AutoJournalReelRequest = AutoJournalReelRequest(
    dryRun: bool, noUpload: bool,
    style: Option<string>, category: Option<string>,
    hookText: Option<string>, payoffText: Option<string>)

  /** One command-line option: a switch or a flag followed by its value. */
  datatype Opt = Switch(flag: string) | Pair(flag: string, value: string)

  function Render(opts: seq<Opt>): seq<string>
  {
    if opts == [] then []
    else (match opts[0]
          case Switch(f) => [f]
          case Pair(f, v) => [f, v]) + Render(opts[1..])
  }

  /** How an argument parser that knows which flags take a value reads the
    * options back. */
  function ParseOpts(args: seq<string>, valued: set<string>): seq<Opt>
  {
    if args == [] then []
    else if args[0] in valued && |args| >= 2 then [Pair(args[0], args[1])] + ParseOpts(args[2..], valued)
    else [Switch(args[0])] + ParseOpts(args[1..], valued)
  }

  predicate WellKeyed(opts: seq<Opt>, valued: set<string>)
  {
    forall k :: 0 <= k < |opts| ==> (opts[k].Pair? <==> opts[k].flag in valued)
  }

  lemma {:induction false} RenderAppend(a: seq<Opt>, b: seq<Opt>)
    ensures Render(a + b) == Render(a) + Render(b)
  {
    if a != [] {
      assert (a + b)[1..] == a[1..] + b;
      RenderAppend(a[1..], b);
    } else {
      assert a + b == b;
    }
  }

  /** Rendering options and parsing them back gives the same options. */
  lemma {:induction false} RenderParse(opts: seq<Opt>, valued: set<string>)
    requires WellKeyed(opts, valued)
    ensures ParseOpts(Render(opts), valued) == opts
  {
    if opts != [] {
      RenderParse(opts[1..], valued);
      var head := match opts[0] case Switch(f) => [f] case Pair(f, v) => [f, v];
      assert Render(opts) == head + Render(opts[1..]);
      if opts[0].Pair? {
        assert Render(opts)[2..] == Render(opts[1..]);
      } else {
        assert Render(opts)[1..] == Render(opts[1..]);
      }
    }
  }

  /** A value flag is passed only for a truthy (present, non-empty) value. */
  function ValueOpt(flag: string, v: Option<string>): seq<Opt>
  {
    if v.Some? && v.value != "" then [Pair(flag, v.value)] else []
  }

  function SwitchOpt(flag: string, on: bool): seq<Opt>
  {
    if on then [Switch(flag)] else []
  }

  const PipelineValued: set<string> := {"--account", "--hook-text", "--reaction-text"}
  const LifestyleValued: set<string> := {"--scene-1-text", "--scene-2-text", "--scene-3-text", "--scene-1-image", "--scene-2-image"}
  const AutoJournalValued: set<string> := {"--style", "--category", "--hook-text", "--payoff-text"}

  function PipelineOpts(req: PipelineTextRequest): seq<Opt>
  {
    [Pair("--account", req.account)]
    + SwitchOpt("--dry-run", req.dryRun) + SwitchOpt("--no-upload", req.noUpload)
    + SwitchOpt("--no-reaction", req.noReaction) + SwitchOpt("--idea-only", req.ideaOnly)
    + ValueOpt("--hook-text", req.hookText) + ValueOpt("--reaction-text", req.reactionText)
  }

  function LifestyleOpts(req: LifestyleReelRequest): seq<Opt>
  {
    SwitchOpt("--dry-run", req.dryRun) + SwitchOpt("--no-upload", req.noUpload)
    + ValueOpt("--scene-1-text", req.scene1Text) + ValueOpt("--scene-2-text", req.scene2Text)
    + ValueOpt("--scene-3-text", req.scene3Text)
    + ValueOpt("--scene-1-image", req.scene1Image) + ValueOpt("--scene-2-image", req.scene2Image)
  }

  function AutoJournalOpts(req: AutoJournalReelRequest): seq<Opt>
  {
    SwitchOpt("--dry-run", req.dryRun) + SwitchOpt("--no-upload", req.noUpload)
    + ValueOpt("--style", req.style) + ValueOpt("--category", req.category)
    + ValueOpt("--hook-text", req.hookText) + ValueOpt("--payoff-text", req.payoffText)
  }

  /** The autopilot command line: interpreter, script, then the options. */
  function PipelineArgv(python: string, script: string, req: PipelineTextRequest): (argv: seq<string>)
    ensures |argv| >= 2 && argv[..2] == [python, script]
  {
    [python, script] + Render(PipelineOpts(req))
  }

  function LifestyleArgv(python: string, script: string, req: LifestyleReelRequest): (argv: seq<string>)
    ensures |argv| >= 2 && argv[..2] == [python, script]
  {
    [python, script] + Render(LifestyleOpts(req))
  }

  function AutoJournalArgv(python: string, script: string, req: AutoJournalReelRequest): (argv: seq<string>)
    ensures |argv| >= 2 && argv[..2] == [python, script]
  {
    [python, script] + Render(AutoJournalOpts(req))
  }

  /** The switches present among parsed options. */
  function Switches(opts: seq<Opt>): set<string>
  {
    if opts == [] then {} else (if opts[0].Switch? then {opts[0].flag} else {}) + Switches(opts[1..])
  }

  /** The value a parser keeps for a valued flag: the last one given. */
  function ValueOf(opts: seq<Opt>, flag: string): Option<string>
  {
    if opts == [] then None
    else
      var rest := ValueOf(opts[1..], flag);
      if rest.Some? then rest
      else if opts[0].Pair? && opts[0].flag == flag then Some(opts[0].value)
      else None
  }

  /** Python truthiness of an optional text: present and non-empty. */
  function Truthy(v: Option<string>): (r: Option<string>)
    ensures r.Some? <==> v.Some? && v.value != ""
    ensures r.Some? ==> r == v
  {
    if v.Some? && v.value != "" then v else None
  }

  lemma {:induction false} SwitchesAppend(a: seq<Opt>, b: seq<Opt>)
    ensures Switches(a + b) == Switches(a) + Switches(b)
  {
    if a == [] {
      assert a + b == b;
    } else {
      assert (a + b)[1..] == a[1..] + b;
      SwitchesAppend(a[1..], b);
    }
  }

  lemma {:induction false} ValueOfAppend(a: seq<Opt>, b: seq<Opt>, flag: string)
    ensures ValueOf(a + b, flag) == if ValueOf(b, flag).Some? then ValueOf(b, flag) else ValueOf(a, flag)
  {
    if a == [] {
      assert a + b == b;
    } else {
      assert (a + b)[1..] == a[1..] + b;
      ValueOfAppend(a[1..], b, flag);
    }
  }

  lemma {:induction false} WellKeyedAppend(a: seq<Opt>, b: seq<Opt>, valued: set<string>)
    requires WellKeyed(a, valued) && WellKeyed(b, valued)
    ensures WellKeyed(a + b, valued)
  {
    forall k | 0 <= k < |a + b| ensures ((a + b)[k].Pair? <==> (a + b)[k].flag in valued) {
      if k >= |a| { assert (a + b)[k] == b[k - |a|]; }
    }
  }

  lemma ValueOptFacts(f: string, v: Option<string>, g: string, valued: set<string>)
    requires f in valued
    ensures ValueOf(ValueOpt(f, v), g) == if g == f then Truthy(v) else None
    ensures Switches(ValueOpt(f, v)) == {}
    ensures WellKeyed(ValueOpt(f, v), valued)
  {
    if v.Some? && v.value != "" { assert ValueOpt(f, v)[1..] == []; }
  }

  lemma PairFacts(f: string, v: string, g: string, valued: set<string>)
    requires f in valued
    ensures ValueOf([Pair(f, v)], g) == if g == f then Some(v) else None
    ensures Switches([Pair(f, v)]) == {}
    ensures WellKeyed([Pair(f, v)], valued)
  {
    assert [Pair(f, v)][1..] == [];
  }

  lemma SwitchOptFacts(f: string, on: bool, g: string, valued: set<string>)
    requires f !in valued
    ensures ValueOf(SwitchOpt(f, on), g) == None
    ensures Switches(SwitchOpt(f, on)) == if on then {f} else {}
    ensures WellKeyed(SwitchOpt(f, on), valued)
  {
    if on { assert SwitchOpt(f, on)[1..] == []; }
  }

  /** What a parser that knows the valued flags reads from a rendered option
    * list: it is the list itself. */
  lemma ParseRendered(opts: seq<Opt>, valued: set<string>, argv: seq<string>, python: string, script: string)
    requires WellKeyed(opts, valued) && argv == [python, script] + Render(opts)
    ensures |argv| >= 2 && ParseOpts(argv[2..], valued) == opts
  {
    assert argv[2..] == Render(opts);
    RenderParse(opts, valued);
  }

  /** The autopilot options: well keyed, with the switches that are set and
    * the last value given for each flag. */
  lemma PipelineOptsShape(req: PipelineTextRequest)
    ensures WellKeyed(PipelineOpts(req), PipelineValued)
    ensures Switches(PipelineOpts(req)) == (if req.dryRun then {"--dry-run"} else {}) + (if req.noUpload then {"--no-upload"} else {})
      + (if req.noReaction then {"--no-reaction"} else {}) + (if req.ideaOnly then {"--idea-only"} else {})
  {
    PipelineOptsKeyed(req);
    PipelineOptsSwitches(req);
  }

  lemma PipelineOptsKeyed(req: PipelineTextRequest)
    ensures WellKeyed(PipelineOpts(req), PipelineValued)
  {
    var V := PipelineValued;
    var a0 := [Pair("--account", req.account)];
    var a := SwitchOpt("--dry-run", req.dryRun);
    var b := SwitchOpt("--no-upload", req.noUpload);
    var c := SwitchOpt("--no-reaction", req.noReaction);
    var d := SwitchOpt("--idea-only", req.ideaOnly);
    var e := ValueOpt("--hook-text", req.hookText);
    var f := ValueOpt("--reaction-text", req.reactionText);
    PairFacts("--account", req.account, "", V);
    SwitchOptFacts("--dry-run", req.dryRun, "", V); SwitchOptFacts("--no-upload", req.noUpload, "", V);
    SwitchOptFacts("--no-reaction", req.noReaction, "", V); SwitchOptFacts("--idea-only", req.ideaOnly, "", V);
    ValueOptFacts("--hook-text", req.hookText, "", V); ValueOptFacts("--reaction-text", req.reactionText, "", V);
    var x1 := a0 + a; var x2 := x1 + b; var x3 := x2 + c; var x4 := x3 + d; var x5 := x4 + e;
    WellKeyedAppend(a0, a, V); WellKeyedAppend(x1, b, V); WellKeyedAppend(x2, c, V);
    WellKeyedAppend(x3, d, V); WellKeyedAppend(x4, e, V); WellKeyedAppend(x5, f, V);
  }

  lemma PipelineOptsSwitches(req: PipelineTextRequest)
    ensures Switches(PipelineOpts(req)) == (if req.dryRun then {"--dry-run"} else {}) + (if req.noUpload then {"--no-upload"} else {})
      + (if req.noReaction then {"--no-reaction"} else {}) + (if req.ideaOnly then {"--idea-only"} else {})
  {
    var V := PipelineValued;
    var a0 := [Pair("--account", req.account)];
    var a := SwitchOpt("--dry-run", req.dryRun);
    var b := SwitchOpt("--no-upload", req.noUpload);
    var c := SwitchOpt("--no-reaction", req.noReaction);
    var d := SwitchOpt("--idea-only", req.ideaOnly);
    var e := ValueOpt("--hook-text", req.hookText);
    var f := ValueOpt("--reaction-text", req.reactionText);
    PairFacts("--account", req.account, "", V);
    SwitchOptFacts("--dry-run", req.dryRun, "", V); SwitchOptFacts("--no-upload", req.noUpload, "", V);
    SwitchOptFacts("--no-reaction", req.noReaction, "", V); SwitchOptFacts("--idea-only", req.ideaOnly, "", V);
    ValueOptFacts("--hook-text", req.hookText, "", V); ValueOptFacts("--reaction-text", req.reactionText, "", V);
    var x1 := a0 + a; var x2 := x1 + b; var x3 := x2 + c; var x4 := x3 + d; var x5 := x4 + e;
    SwitchesAppend(a0, a); SwitchesAppend(x1, b); SwitchesAppend(x2, c);
    SwitchesAppend(x3, d); SwitchesAppend(x4, e); SwitchesAppend(x5, f);
  }

  lemma PipelineOptsValue(req: PipelineTextRequest, fl: string)
    ensures ValueOf(PipelineOpts(req), fl) ==
      if fl == "--reaction-text" && Truthy(req.reactionText).Some? then Truthy(req.reactionText)
      else if fl == "--hook-text" && Truthy(req.hookText).Some? then Truthy(req.hookText)
      else if fl == "--account" then Some(req.account)
      else None
  {
    var V := PipelineValued;
    var a0 := [Pair("--account", req.account)];
    var a := SwitchOpt("--dry-run", req.dryRun);
    var b := SwitchOpt("--no-upload", req.noUpload);
    var c := SwitchOpt("--no-reaction", req.noReaction);
    var d := SwitchOpt("--idea-only", req.ideaOnly);
    var e := ValueOpt("--hook-text", req.hookText);
    var f := ValueOpt("--reaction-text", req.reactionText);
    PairFacts("--account", req.account, fl, V);
    SwitchOptFacts("--dry-run", req.dryRun, fl, V); SwitchOptFacts("--no-upload", req.noUpload, fl, V);
    SwitchOptFacts("--no-reaction", req.noReaction, fl, V); SwitchOptFacts("--idea-only", req.ideaOnly, fl, V);
    ValueOptFacts("--hook-text", req.hookText, fl, V); ValueOptFacts("--reaction-text", req.reactionText, fl, V);
    ValueOfAppend(a0, a, fl); ValueOfAppend(a0 + a, b, fl); ValueOfAppend(a0 + a + b, c, fl);
    ValueOfAppend(a0 + a + b + c, d, fl); ValueOfAppend(a0 + a + b + c + d, e, fl);
    ValueOfAppend(a0 + a + b + c + d + e, f, fl);
  }

  /** Read back by a parser of the autopilot options, the command carries
    * the account first, each switch iff its field is set and each text iff
    * it is non-empty, and no other valued flag. */
  lemma PipelineArgvDecodes(python: string, script: string, req: PipelineTextRequest, g: string)
    ensures var opts := ParseOpts(PipelineArgv(python, script, req)[2..], PipelineValued);
      |opts| >= 1 && opts[0] == Pair("--account", req.account)
      && Switches(opts) == (if req.dryRun then {"--dry-run"} else {}) + (if req.noUpload then {"--no-upload"} else {})
                           + (if req.noReaction then {"--no-reaction"} else {}) + (if req.ideaOnly then {"--idea-only"} else {})
      && ValueOf(opts, "--hook-text") == Truthy(req.hookText)
      && ValueOf(opts, "--reaction-text") == Truthy(req.reactionText)
      && (g !in PipelineValued ==> ValueOf(opts, g) == None)
  {
    PipelineOptsShape(req);
    PipelineOptsValue(req, "--hook-text");
    PipelineOptsValue(req, "--reaction-text");
    PipelineOptsValue(req, g);
    ParseRendered(PipelineOpts(req), PipelineValued, PipelineArgv(python, script, req), python, script);
  }

  lemma LifestyleOptsShape(req: LifestyleReelRequest)
    ensures WellKeyed(LifestyleOpts(req), LifestyleValued)
    ensures Switches(LifestyleOpts(req)) == (if req.dryRun then {"--dry-run"} else {}) + (if req.noUpload then {"--no-upload"} else {})
  {
    var V := LifestyleValued;
    var a := SwitchOpt("--dry-run", req.dryRun);
    var b := SwitchOpt("--no-upload", req.noUpload);
    var c := ValueOpt("--scene-1-text", req.scene1Text);
    var d := ValueOpt("--scene-2-text", req.scene2Text);
    var e := ValueOpt("--scene-3-text", req.scene3Text);
    var f := ValueOpt("--scene-1-image", req.scene1Image);
    var h := ValueOpt("--scene-2-image", req.scene2Image);
    SwitchOptFacts("--dry-run", req.dryRun, "", V); SwitchOptFacts("--no-upload", req.noUpload, "", V);
    ValueOptFacts("--scene-1-text", req.scene1Text, "", V); ValueOptFacts("--scene-2-text", req.scene2Text, "", V);
    ValueOptFacts("--scene-3-text", req.scene3Text, "", V); ValueOptFacts("--scene-1-image", req.scene1Image, "", V);
    ValueOptFacts("--scene-2-image", req.scene2Image, "", V);
    SwitchesAppend(a, b); SwitchesAppend(a + b, c); SwitchesAppend(a + b + c, d);
    SwitchesAppend(a + b + c + d, e); SwitchesAppend(a + b + c + d + e, f);
    SwitchesAppend(a + b + c + d + e + f, h);
    WellKeyedAppend(a, b, V); WellKeyedAppend(a + b, c, V); WellKeyedAppend(a + b + c, d, V);
    WellKeyedAppend(a + b + c + d, e, V); WellKeyedAppend(a + b + c + d + e, f, V);
    WellKeyedAppend(a + b + c + d + e + f, h, V);
  }

  lemma LifestyleOptsValue(req: LifestyleReelRequest, fl: string)
    ensures ValueOf(LifestyleOpts(req), fl) ==
      if fl == "--scene-2-image" then Truthy(req.scene2Image)
      else if fl == "--scene-1-image" then Truthy(req.scene1Image)
      else if fl == "--scene-3-text" then Truthy(req.scene3Text)
      else if fl == "--scene-2-text" then Truthy(req.scene2Text)
      else if fl == "--scene-1-text" then Truthy(req.scene1Text)
      else None
  {
    var V := LifestyleValued;
    var a := SwitchOpt("--dry-run", req.dryRun);
    var b := SwitchOpt("--no-upload", req.noUpload);
    var c := ValueOpt("--scene-1-text", req.scene1Text);
    var d := ValueOpt("--scene-2-text", req.scene2Text);
    var e := ValueOpt("--scene-3-text", req.scene3Text);
    var f := ValueOpt("--scene-1-image", req.scene1Image);
    var h := ValueOpt("--scene-2-image", req.scene2Image);
    SwitchOptFacts("--dry-run", req.dryRun, fl, V); SwitchOptFacts("--no-upload", req.noUpload, fl, V);
    ValueOptFacts("--scene-1-text", req.scene1Text, fl, V); ValueOptFacts("--scene-2-text", req.scene2Text, fl, V);
    ValueOptFacts("--scene-3-text", req.scene3Text, fl, V); ValueOptFacts("--scene-1-image", req.scene1Image, fl, V);
    ValueOptFacts("--scene-2-image", req.scene2Image, fl, V);
    ValueOfAppend(a, b, fl); ValueOfAppend(a + b, c, fl); ValueOfAppend(a + b + c, d, fl);
    ValueOfAppend(a + b + c + d, e, fl); ValueOfAppend(a + b + c + d + e, f, fl);
    ValueOfAppend(a + b + c + d + e + f, h, fl);
  }

  lemma LifestyleArgvDecodes(python: string, script: string, req: LifestyleReelRequest, g: string)
    ensures var opts := ParseOpts(LifestyleArgv(python, script, req)[2..], LifestyleValued);
      Switches(opts) == (if req.dryRun then {"--dry-run"} else {}) + (if req.noUpload then {"--no-upload"} else {})
      && ValueOf(opts, "--scene-1-text") == Truthy(req.scene1Text)
      && ValueOf(opts, "--scene-2-text") == Truthy(req.scene2Text)
      && ValueOf(opts, "--scene-3-text") == Truthy(req.scene3Text)
      && ValueOf(opts, "--scene-1-image") == Truthy(req.scene1Image)
      && ValueOf(opts, "--scene-2-image") == Truthy(req.scene2Image)
      && (g !in LifestyleValued ==> ValueOf(opts, g) == None)
  {
    LifestyleOptsShape(req);
    LifestyleOptsValue(req, "--scene-1-text");
    LifestyleOptsValue(req, "--scene-2-text");
    LifestyleOptsValue(req, "--scene-3-text");
    LifestyleOptsValue(req, "--scene-1-image");
    LifestyleOptsValue(req, "--scene-2-image");
    LifestyleOptsValue(req, g);
    ParseRendered(LifestyleOpts(req), LifestyleValued, LifestyleArgv(python, script, req), python, script);
  }

  lemma AutoJournalOptsShape(req: AutoJournalReelRequest)
    ensures WellKeyed(AutoJournalOpts(req), AutoJournalValued)
    ensures Switches(AutoJournalOpts(req)) == (if req.dryRun then {"--dry-run"} else {}) + (if req.noUpload then {"--no-upload"} else {})
  {
    var V := AutoJournalValued;
    var a := SwitchOpt("--dry-run", req.dryRun);
    var b := SwitchOpt("--no-upload", req.noUpload);
    var c := ValueOpt("--style", req.style);
    var d := ValueOpt("--category", req.category);
    var e := ValueOpt("--hook-text", req.hookText);
    var f := ValueOpt("--payoff-text", req.payoffText);
    SwitchOptFacts("--dry-run", req.dryRun, "", V); SwitchOptFacts("--no-upload", req.noUpload, "", V);
    ValueOptFacts("--style", req.style, "", V); ValueOptFacts("--category", req.category, "", V);
    ValueOptFacts("--hook-text", req.hookText, "", V); ValueOptFacts("--payoff-text", req.payoffText, "", V);
    SwitchesAppend(a, b); SwitchesAppend(a + b, c); SwitchesAppend(a + b + c, d);
    SwitchesAppend(a + b + c + d, e); SwitchesAppend(a + b + c + d + e, f);
    WellKeyedAppend(a, b, V); WellKeyedAppend(a + b, c, V); WellKeyedAppend(a + b + c, d, V);
    WellKeyedAppend(a + b + c + d, e, V); WellKeyedAppend(a + b + c + d + e, f, V);
  }

  lemma AutoJournalOptsValue(req: AutoJournalReelRequest, fl: string)
    ensures ValueOf(AutoJournalOpts(req), fl) ==
      if fl == "--payoff-text" then Truthy(req.payoffText)
      else if fl == "--hook-text" then Truthy(req.hookText)
      else if fl == "--category" then Truthy(req.category)
      else if fl == "--style" then Truthy(req.style)
      else None
  {
    var V := AutoJournalValued;
    var a := SwitchOpt("--dry-run", req.dryRun);
    var b := SwitchOpt("--no-upload", req.noUpload);
    var c := ValueOpt("--style", req.style);
    var d := ValueOpt("--category", req.category);
    var e := ValueOpt("--hook-text", req.hookText);
    var f := ValueOpt("--payoff-text", req.payoffText);
    SwitchOptFacts("--dry-run", req.dryRun, fl, V); SwitchOptFacts("--no-upload", req.noUpload, fl, V);
    ValueOptFacts("--style", req.style, fl, V); ValueOptFacts("--category", req.category, fl, V);
    ValueOptFacts("--hook-text", req.hookText, fl, V); ValueOptFacts("--payoff-text", req.payoffText, fl, V);
    ValueOfAppend(a, b, fl); ValueOfAppend(a + b, c, fl); ValueOfAppend(a + b + c, d, fl);
    ValueOfAppend(a + b + c + d, e, fl); ValueOfAppend(a + b + c + d + e, f, fl);
  }

  lemma AutoJournalArgvDecodes(python: string, script: string, req: AutoJournalReelRequest, g: string)
    ensures var opts := ParseOpts(AutoJournalArgv(python, script, req)[2..], AutoJournalValued);
      Switches(opts) == (if req.dryRun then {"--dry-run"} else {}) + (if req.noUpload then {"--no-upload"} else {})
      && ValueOf(opts, "--style") == Truthy(req.style)
      && ValueOf(opts, "--category") == Truthy(req.category)
      && ValueOf(opts, "--hook-text") == Truthy(req.hookText)
      && ValueOf(opts, "--payoff-text") == Truthy(req.payoffText)
      && (g !in AutoJournalValued ==> ValueOf(opts, g) == None)
  {
    AutoJournalOptsShape(req);
    AutoJournalOptsValue(req, "--style");
    AutoJournalOptsValue(req, "--category");
    AutoJournalOptsValue(req, "--hook-text");
    AutoJournalOptsValue(req, "--payoff-text");
    AutoJournalOptsValue(req, g);
    ParseRendered(AutoJournalOpts(req), AutoJournalValued, AutoJournalArgv(python, script, req), python, script);
  }

  /** The command builder as written reads `hook_text` from a request type
    * that does not declare it; the attribute lookup raises before anything
    * is queued. */
  function RequestAttribute(req: PipelineRunRequest, name: string): Option<string>
  {
    if name == "account" then Some(req.account) else None
  }

  function PipelineArgvAsWritten(python: string, script: string, req: PipelineRunRequest): (r: Result<seq<string>>)
  {
    if RequestAttribute(req, "hook_text").None? then
      Err("'PipelineRunRequest' object has no attribute 'hook_text'")
    else
      Ok([python, script, "--account", req.account])
  }

  /** Every request that the declared type admits makes the command builder
    * as written raise. */
  lemma PipelineRunAlwaysRaises(python: string, script: string, req: PipelineRunRequest)
    ensures PipelineArgvAsWritten(python, script, req).Err?
  {
  }

  /** The persona shown for an account: the text before the first ".", or
    * the whole account when it has none. */
  function PersonaOf(account: string): (p: string)
    ensures StartsWith(account, p) && '.' !in p
    ensures |p| < |account| <==> '.' in account
    ensures |p| < |account| ==> account[|p|] == '.'
  {
    SplitHead(account, '.');
    if '.' in account then Split(account, '.')[0] else account
  }

  /** The ids of the queued items. */
  function QueuedIds(q: seq<QueueItem>): set<string>
  {
    if q == [] then {} else {q[0].id} + QueuedIds(q[1..])
  }

  /** The ids listed in the registry's insertion order. */
  function Members(s: seq<string>): set<string>
  {
    if s == [] then {} else {s[0]} + Members(s[1..])
  }

  predicate NoDuplicates(s: seq<string>)
  {
    s == [] || (s[0] !in Members(s[1..]) && NoDuplicates(s[1..]))
  }

  lemma {:induction false} MembersAppend(s: seq<string>, x: string)
    ensures Members(s + [x]) == Members(s) + {x}
    ensures NoDuplicates(s) && x !in Members(s) ==> NoDuplicates(s + [x])
  {
    if s == [] {
      assert (s + [x])[1..] == [];
    } else {
      assert (s + [x])[1..] == s[1..] + [x];
      MembersAppend(s[1..], x);
    }
  }

  lemma {:induction false} MembersIndex(s: seq<string>)
    ensures forall k :: 0 <= k < |s| ==> s[k] in Members(s)
  {
    if s != [] {
      MembersIndex(s[1..]);
      assert forall k :: 1 <= k < |s| ==> s[k] == s[1..][k - 1];
    }
  }

  lemma {:induction false} MembersExists(s: seq<string>)
    ensures forall x :: x in Members(s) ==> exists k :: 0 <= k < |s| && s[k] == x
  {
    if s != [] {
      MembersExists(s[1..]);
      forall x | x in Members(s) ensures exists k :: 0 <= k < |s| && s[k] == x {
        if x != s[0] {
          assert x in Members(s[1..]);
          var k :| 0 <= k < |s| - 1 && s[1..][k] == x;
          assert s[k + 1] == x;
        }
      }
    }
  }

  /** An id at two positions of a duplicate-free sequence is one position. */
  lemma {:induction false} NoDuplicatesIndex(s: seq<string>, i: int, j: int)
    requires NoDuplicates(s) && 0 <= i < |s| && 0 <= j < |s| && s[i] == s[j]
    ensures i == j
  {
    MembersIndex(s[1..]);
    if i > 0 && j > 0 {
      NoDuplicatesIndex(s[1..], i - 1, j - 1);
    }
  }

  lemma {:induction false} QueuedIdsAppend(q: seq<QueueItem>, x: QueueItem)
    ensures QueuedIds(q + [x]) == QueuedIds(q) + {x.id}
  {
    if q == [] {
      assert (q + [x])[1..] == [];
    } else {
      assert (q + [x])[1..] == q[1..] + [x];
      QueuedIdsAppend(q[1..], x);
    }
  }

  function View(r: RunRecord): RunView
  {
    RunView(r.id, r.status, r.persona, r.app, r.startedAt, r.output)
  }

  /** The status and output a run ends with after the worker's turn. The
    * output is replaced only once a line arrives, so a process that prints
    * nothing leaves the record's earlier output in place. */
  function Settled(r: RunRecord, outcome: ProcessOutcome): (s: RunRecord)
    ensures s.id == r.id && s.persona == r.persona && s.app == r.app && s.startedAt == r.startedAt
    ensures s.status == Completed <==> outcome.Exited? && outcome.code == 0
    ensures s.status != Completed ==> s.status == Failed
    ensures s.hasProcess <==> r.hasProcess || !outcome.LaunchFailed?
  {
    match outcome
    case Exited(ls, code) =>
      r.(status := if code == 0 then Completed else Failed, hasProcess := true,
         output := if ls == [] then r.output else Join(ls, ""))
    case LaunchFailed(e) =>
      r.(status := Failed, output := r.output + "\nError: " + e)
    case ReadFailed(ls, e) =>
      r.(status := Failed, hasProcess := true, output := (if ls == [] then r.output else Join(ls, "")) + "\nError: " + e)
  }

  /** The registry keeps every run under its own id, lists each id once in
    * insertion order, and a queued run has its id waiting in the queue
    * (a repeated id may wait more than once); between two turns of the
    * worker nothing is running, and a queued run has no output and no
    * process yet. */
  ghost predicate RegistryInv(runs: map<string, RunRecord>, order: seq<string>, queue: seq<QueueItem>)
  {
    (forall id :: id in runs ==> runs[id].id == id)
    && runs.Keys == Members(order) && NoDuplicates(order)
    && QueuedIds(queue) <= runs.Keys
    && (forall id :: id in runs && runs[id].status == Queued ==> id in QueuedIds(queue))
    && (forall id :: id in runs ==> runs[id].status != Running)
    && (forall id :: id in runs && runs[id].status == Queued ==> runs[id].output == "" && !runs[id].hasProcess)
  }

  /** Settling the head of the queue and dropping it from the queue keeps
    * the invariant. */
  lemma SettleHeadKeepsInv(runs: map<string, RunRecord>, order: seq<string>, queue: seq<QueueItem>, r: RunRecord)
    requires RegistryInv(runs, order, queue) && queue != []
    requires r.id == queue[0].id && (r.status == Completed || r.status == Failed)
    ensures queue[0].id in runs
    ensures RegistryInv(runs[queue[0].id := r], order, queue[1..])
  {
  }

  /** The registry and the queue, seen between two turns of the worker. */
  class Runner {
    var runs: map<string, RunRecord>
    var order: seq<string>
    var queue: seq<QueueItem>
    var workerStarted: bool

    ghost predicate Valid()
      reads this
    {
      RegistryInv(runs, order, queue)
    }

    constructor ()
      ensures Valid() && runs == map[] && queue == [] && order == [] && !workerStarted
    {
      runs := map[];
      order := [];
      queue := [];
      workerStarted := false;
    }

    /** `_ensure_worker`: the worker is started once. */
    method EnsureWorker()
      modifies this
      ensures workerStarted
      ensures runs == old(runs) && order == old(order) && queue == old(queue)
    {
      if !workerStarted {
        workerStarted := true;
      }
    }

    /** Record a fresh queued run and put its command at the end of the
      * queue. An id already in the registry (`str(uuid4())[:8]` can repeat)
      * has its record replaced in place, keeping its position in the
      * listing, and the queue then holds a job for each request. */
    method Enqueue(id: string, cmd: seq<string>, persona: string, app: Option<string>, startedAt: string) returns (st: RunView)
      requires Valid()
      modifies this
      ensures Valid()
      ensures runs == old(runs)[id := RunRecord(id, Queued, persona, app, startedAt, "", false)]
      ensures queue == old(queue) + [QueueItem(id, cmd)]
      ensures order == if id in old(runs) then old(order) else old(order) + [id]
      ensures workerStarted
      ensures st == RunView(id, Queued, persona, app, startedAt, "")
    {
      if id !in runs {
        MembersAppend(order, id);
        order := order + [id];
      }
      runs := runs[id := RunRecord(id, Queued, persona, app, startedAt, "", false)];
      EnsureWorker();
      QueuedIdsAppend(queue, QueueItem(id, cmd));
      queue := queue + [QueueItem(id, cmd)];
      st := RunView(id, Queued, persona, app, startedAt, "");
    }

    /** `start_pipeline_run` with the two texts present on the request. */
    method StartPipelineRun(python: string, script: string, req: PipelineTextRequest, id: string, startedAt: string) returns (st: RunView)
      requires Valid()
      modifies this
      ensures Valid()
      ensures runs == old(runs)[id := RunRecord(id, Queued, PersonaOf(req.account), None, startedAt, "", false)]
      ensures queue == old(queue) + [QueueItem(id, PipelineArgv(python, script, req))]
      ensures order == if id in old(runs) then old(order) else old(order) + [id]
      ensures st == RunView(id, Queued, PersonaOf(req.account), None, startedAt, "")
    {
      st := Enqueue(id, PipelineArgv(python, script, req), PersonaOf(req.account), None, startedAt);
    }

    method StartLifestyleRun(python: string, script: string, req: LifestyleReelRequest, id: string, startedAt: string) returns (st: RunView)
      requires Valid()
      modifies this
      ensures Valid()
      ensures runs == old(runs)[id := RunRecord(id, Queued, "lifestyle", Some("journal-lock"), startedAt, "", false)]
      ensures queue == old(queue) + [QueueItem(id, LifestyleArgv(python, script, req))]
      ensures order == if id in old(runs) then old(order) else old(order) + [id]
      ensures st == RunView(id, Queued, "lifestyle", Some("journal-lock"), startedAt, "")
    {
      st := Enqueue(id, LifestyleArgv(python, script, req), "lifestyle", Some("journal-lock"), startedAt);
    }

    method StartAutoJournalRun(python: string, script: string, req: AutoJournalReelRequest, id: string, startedAt: string) returns (st: RunView)
      requires Valid()
      modifies this
      ensures Valid()
      ensures runs == old(runs)[id := RunRecord(id, Queued, "autojournal", Some("autojournal"), startedAt, "", false)]
      ensures queue == old(queue) + [QueueItem(id, AutoJournalArgv(python, script, req))]
      ensures order == if id in old(runs) then old(order) else old(order) + [id]
      ensures st == RunView(id, Queued, "autojournal", Some("autojournal"), startedAt, "")
    {
      st := Enqueue(id, AutoJournalArgv(python, script, req), "autojournal", Some("autojournal"), startedAt);
    }

    /** `get_run_status` */
    function GetRunStatus(id: string): (r: Option<RunView>)
      reads this
      ensures r.None? <==> id !in runs
      ensures r.Some? ==> r.value == View(runs[id])
    {
      if id in runs then Some(View(runs[id])) else None
    }

    /** `list_runs`: every run exactly once, in insertion order, output cut
      * to its last 500 characters. */
    function ListRuns(): (r: seq<RunView>)
      reads this
      requires Valid()
      ensures |r| == |order|
      ensures forall k :: 0 <= k < |r| ==> r[k].id == order[k] && order[k] in runs && r[k].status == runs[order[k]].status
      ensures forall k :: 0 <= k < |r| ==> r[k].output == LastN(runs[order[k]].output, 500)
      ensures forall k :: 0 <= k < |r| ==> r[k] == View(runs[order[k]]).(output := LastN(runs[order[k]].output, 500))
      ensures forall id :: id in runs ==> exists k :: 0 <= k < |r| && r[k].id == id
      ensures forall i, j :: 0 <= i < |r| && 0 <= j < |r| && r[i].id == r[j].id ==> i == j
    {
      MembersIndex(order);
      MembersExists(order);
      forall i, j | 0 <= i < |order| && 0 <= j < |order| && order[i] == order[j] ensures i == j {
        NoDuplicatesIndex(order, i, j);
      }
      seq(|order|, k requires 0 <= k < |order| && order[k] in runs reads this =>
        View(runs[order[k]]).(output := LastN(runs[order[k]].output, 500)))
    }

    /** One turn of the worker loop, from `_queue.get()` to `task_done`: the
      * head of the queue (first in, first out) is marked running, its
      * process output is streamed into the record line by line, and the run
      * ends completed (exit code 0) or failed, with the error text appended
      * when an exception interrupted it. No other run changes. With an empty
      * queue the worker keeps waiting and nothing changes. */
    method WorkOne(outcome: ProcessOutcome) returns (taken: Option<QueueItem>)
      requires Valid()
      modifies this
      ensures Valid() && order == old(order) && workerStarted == old(workerStarted)
      ensures old(queue) == [] ==> taken.None? && runs == old(runs) && queue == old(queue)
      ensures old(queue) != [] ==>
        var id := old(queue)[0].id;
        taken == Some(old(queue)[0]) && queue == old(queue)[1..] && id in old(runs)
        && runs == old(runs)[id := Settled(old(runs)[id], outcome)]
    {
      if queue == [] {
        return None;
      }
      var item := queue[0];
      var id := item.id;
      taken := Some(item);
      queue := queue[1..];
      ghost var before := runs;
      var cur := runs[id].(status := Running);
      runs := runs[id := cur];
      if outcome.LaunchFailed? {
        cur := cur.(status := Failed, output := cur.output + "\nError: " + outcome.error);
        Overwrite(before, id, runs[id], cur);
        runs := runs[id := cur];
      } else {
        cur := cur.(hasProcess := true);
        Overwrite(before, id, runs[id], cur);
        runs := runs[id := cur];
        var ls := if outcome.Exited? then outcome.lines else outcome.linesBefore;
        var outputLines: seq<string> := [];
        var i := 0;
        while i < |ls|
          invariant 0 <= i <= |ls| && outputLines == ls[..i]
          invariant runs == before[id := cur]
          invariant cur == before[id].(status := Running, hasProcess := true, output := if i == 0 then before[id].output else Join(outputLines, ""))
          invariant queue == old(queue)[1..] && order == old(order) && workerStarted == old(workerStarted)
        {
          outputLines := outputLines + [ls[i]];
          Overwrite(before, id, cur, cur.(output := Join(outputLines, "")));
          cur := cur.(output := Join(outputLines, ""));
          runs := runs[id := cur];
          assert ls[..i + 1] == ls[..i] + [ls[i]];
          i := i + 1;
        }
        assert outputLines == ls;
        if outcome.Exited? {
          Overwrite(before, id, cur, cur.(status := if outcome.code == 0 then Completed else Failed));
          cur := cur.(status := if outcome.code == 0 then Completed else Failed);
        } else {
          Overwrite(before, id, cur, cur.(status := Failed, output := cur.output + "\nError: " + outcome.error));
          cur := cur.(status := Failed, output := cur.output + "\nError: " + outcome.error);
        }
        runs := runs[id := cur];
      }
      assert cur == Settled(before[id], outcome);
      SettleHeadKeepsInv(before, order, old(queue), cur);
    }
  }

  /** Writing a key twice keeps only the second value. */
  lemma Overwrite(m: map<string, RunRecord>, k: string, a: RunRecord, b: RunRecord)
    ensures m[k := a][k := b] == m[k := b]
  {
  }

  /** Each streamed line extends the joined output by exactly that line. */
  lemma {:induction false} JoinAppend(ls: seq<string>, line: string)
    ensures Join(ls + [line], "") == Join(ls, "") + line
  {
    if |ls| == 1 {
      assert (ls + [line])[1..] == [line];
    } else if |ls| > 1 {
      assert (ls + [line])[1..] == ls[1..] + [line];
      JoinAppend(ls[1..], line);
    }
  }
}
