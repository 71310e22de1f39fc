/** The video autopilot: a daily spending ledger that gates each run, the
  * video-type rotation, persona and app resolution, the reference-image
  * selection rule and the normalisation of the generated text. Money is
  * counted in integer cents. */
module AutopilotVideo {
  import opened Common

  /** The built-in cap when the environment sets none: $5.00. */
  const DefaultCap: int := 500
  /** One Veo clip and one text call: $0.61. */
  const EstimatedCost: int := 61
  const TextCost: int := 1
  const ClipCost: int := 60

  const VideoTypes: seq<string> := ["original", "ugc_lighting", "outdoor"]

  datatype App = App(name: string, slug: string)
  datatype Persona = Persona(apps: seq<App>, videoType: Option<string>)

  const ManifestLock := App("Manifest Lock", "manifest-lock")
  const JournalLock := App("Journal Lock", "journal-lock")

  const PersonaNames: seq<string> := ["sanya", "sophie", "aliyah", "olivia", "riley"]

  function Personas(): map<string, Persona>
  {
    map[
      "sanya" := Persona([ManifestLock], None),
      "sophie" := Persona([JournalLock], None),
      "aliyah" := Persona([ManifestLock, JournalLock], None),
      "olivia" := Persona([ManifestLock], Some("olivia_default")),
      "riley" := Persona([ManifestLock, JournalLock], Some("riley_default"))]
  }

  /** `ledger.get(today, 0.0) + amount` written back under `today`. */
  function AddSpend(ledger: map<string, int>, today: string, amount: int): (r: map<string, int>)
    ensures r.Keys == ledger.Keys + {today}
    ensures r[today] == (if today in ledger then ledger[today] else 0) + amount
    ensures forall d :: d in ledger && d != today ==> r[d] == ledger[d]
  {
    ledger[today := (if today in ledger then ledger[today] else 0) + amount]
  }

  /** Two spends on the same day add up; spends on different days commute. */
  lemma AddSpendTwice(ledger: map<string, int>, today: string, a: int, b: int)
    ensures AddSpend(AddSpend(ledger, today, a), today, b) == AddSpend(ledger, today, a + b)
  {
  }

  /** The daily spend ledger (`daily_spend.json`), keyed by local date. */
  /** One app's run on a ledger: the outcome and the ledger after it, as
    * `_run_persona_for_app` leaves them. */
  function AppStep(spend: map<string, int>, cap: int, today: string, dryRun: bool, skipGen: bool,
                   failAt: Option<Stage>): (AppOutcome, map<string, int>)
  {
    var spent := if today in spend then spend[today] else 0;
    if !dryRun && spent + EstimatedCost > cap then (CapHit(spent), spend)
    else if failAt.Some? && (failAt.value == Selection || failAt.value == Text) then (Raised(failAt.value), spend)
    else if dryRun then (DryRunDone(TextCost), spend)
    else if failAt == Some(Clips) then (Raised(Clips), spend)
    else
      var after := if skipGen then spend else AddSpend(spend, today, TextCost + ClipCost);
      (if failAt.Some? then Raised(failAt.value) else Produced(if skipGen then TextCost else TextCost + ClipCost), after)
  }

  /** The apps run in order, each on the ledger the previous one left; the
    * first raising app ends the run. */
  function RunApps(spend: map<string, int>, cap: int, today: string, dryRun: bool, skipGen: bool,
                   apps: seq<App>, failAt: App -> Option<Stage>): (r: (seq<AppOutcome>, map<string, int>))
    ensures |r.0| <= |apps|
    ensures |r.0| < |apps| ==> r.0 != [] && r.0[|r.0| - 1].Raised?
    ensures forall k :: 0 <= k < |r.0| - 1 ==> !r.0[k].Raised?
    decreases |apps|
  {
    if apps == [] then ([], spend)
    else
      var step := AppStep(spend, cap, today, dryRun, skipGen, failAt(apps[0]));
      if step.0.Raised? then ([step.0], step.1)
      else
        var rest := RunApps(step.1, cap, today, dryRun, skipGen, apps[1..], failAt);
        ([step.0] + rest.0, rest.1)
  }

  /** The run from app `i` on is app `i`'s step followed, unless it raised,
    * by the run from app `i + 1` on the ledger it left. */
  lemma RunAppsFrom(spend: map<string, int>, cap: int, today: string, dryRun: bool, skipGen: bool,
                    apps: seq<App>, failAt: App -> Option<Stage>, i: nat)
    requires i < |apps|
    ensures var step := AppStep(spend, cap, today, dryRun, skipGen, failAt(apps[i]));
            var rest := RunApps(step.1, cap, today, dryRun, skipGen, apps[i + 1..], failAt);
            RunApps(spend, cap, today, dryRun, skipGen, apps[i..], failAt)
            == if step.0.Raised? then ([step.0], step.1) else ([step.0] + rest.0, rest.1)
  {
    assert apps[i..][0] == apps[i] && apps[i..][1..] == apps[i + 1..];
  }

  /** One app's run only ever adds to today's entry, and never past the cap
    * when it was within it. */
  lemma AppStepLedger(spend: map<string, int>, cap: int, today: string, dryRun: bool, skipGen: bool,
                      failAt: Option<Stage>)
    ensures var after := AppStep(spend, cap, today, dryRun, skipGen, failAt).1;
            && after.Keys <= spend.Keys + {today}
            && (forall d :: d in spend && d != today ==> d in after && after[d] == spend[d])
            && ((if today in spend then spend[today] else 0) <= cap ==> (if today in after then after[today] else 0) <= cap)
  {
  }

  /** A whole run only ever adds to today's entry, and never past the cap
    * when it was within it. */
  lemma {:induction false} RunAppsLedger(spend: map<string, int>, cap: int, today: string, dryRun: bool, skipGen: bool,
                                         apps: seq<App>, failAt: App -> Option<Stage>)
    ensures var after := RunApps(spend, cap, today, dryRun, skipGen, apps, failAt).1;
            && after.Keys <= spend.Keys + {today}
            && (forall d :: d in spend && d != today ==> d in after && after[d] == spend[d])
            && ((if today in spend then spend[today] else 0) <= cap ==> (if today in after then after[today] else 0) <= cap)
    decreases |apps|
  {
    if apps != [] {
      var step := AppStep(spend, cap, today, dryRun, skipGen, failAt(apps[0]));
      AppStepLedger(spend, cap, today, dryRun, skipGen, failAt(apps[0]));
      if !step.0.Raised? {
        RunAppsLedger(step.1, cap, today, dryRun, skipGen, apps[1..], failAt);
      }
    }
  }

  /** Outcome `k` of a run is app `k`'s own run on the ledger as the apps
    * before it left it, and the apps before it did not raise. */
  lemma {:induction false} RunAppsAt(spend: map<string, int>, cap: int, today: string, dryRun: bool, skipGen: bool,
                                     apps: seq<App>, failAt: App -> Option<Stage>, k: nat)
    requires k < |RunApps(spend, cap, today, dryRun, skipGen, apps, failAt).0|
    ensures var before := RunApps(spend, cap, today, dryRun, skipGen, apps[..k], failAt);
            && |before.0| == k && (forall j :: 0 <= j < k ==> !before.0[j].Raised?)
            && RunApps(spend, cap, today, dryRun, skipGen, apps, failAt).0[k]
               == AppStep(before.1, cap, today, dryRun, skipGen, failAt(apps[k])).0
    decreases k
  {
    var step := AppStep(spend, cap, today, dryRun, skipGen, failAt(apps[0]));
    var tail := RunApps(step.1, cap, today, dryRun, skipGen, apps[1..], failAt);
    if k == 0 {
      assert apps[..0] == [];
    } else {
      assert !step.0.Raised?;
      assert RunApps(spend, cap, today, dryRun, skipGen, apps, failAt).0 == [step.0] + tail.0;
      var front := apps[..k];
      assert front[0] == apps[0] && front[1..] == apps[1..][..k - 1];
      var frontTail := RunApps(step.1, cap, today, dryRun, skipGen, front[1..], failAt);
      assert RunApps(spend, cap, today, dryRun, skipGen, front, failAt) == ([step.0] + frontTail.0, frontTail.1);
      RunAppsAt(step.1, cap, today, dryRun, skipGen, apps[1..], failAt, k - 1);
    }
  }

  class Ledger {
    var spend: map<string, int>
    const cap: int

    constructor (cap: int, spend: map<string, int>)
      ensures this.cap == cap && this.spend == spend
    {
      this.cap := cap;
      this.spend := spend;
    }

    function Spent(today: string): (r: int)
      reads this
      ensures today in spend ==> r == spend[today]
      ensures today !in spend ==> r == 0
    {
      if today in spend then spend[today] else 0
    }

    /** `check_daily_spend`: ok exactly when today's spend plus the estimate
      * stays within the cap; the spend read is returned either way. */
    function CheckDailySpend(today: string, estimated: int): (r: (bool, int))
      reads this
      ensures r.1 == Spent(today)
      ensures r.0 <==> Spent(today) + estimated <= cap
    {
      var spent := Spent(today);
      (!(spent + estimated > cap), spent)
    }

    /** `record_spend`: today's entry grows by the amount, every other date
      * keeps its entry. */
    method RecordSpend(today: string, amount: int)
      modifies this
      ensures spend == AddSpend(old(spend), today, amount)
    {
      var current := if today in spend then spend[today] else 0;
      spend := spend[today := current + amount];
    }

    /** `_run_persona_for_app`: the cost is accumulated step by step; the
      * first failing stage (if any) raises. Spend is recorded only on the
      * generation path, after the clip was made. */
    method RunForApp(today: string, dryRun: bool, skipGen: bool, failAt: Option<Stage>) returns (out: AppOutcome)
      modifies this
      ensures out.CapHit? <==> !dryRun && old(Spent(today)) + EstimatedCost > cap
      ensures out.CapHit? ==> out.spent == old(Spent(today))
      ensures !out.CapHit? && failAt.Some? && (!dryRun || failAt.value == Selection || failAt.value == Text) ==>
              out == Raised(failAt.value)
      ensures !out.CapHit? && dryRun && failAt.None? ==> out == DryRunDone(TextCost)
      ensures !out.CapHit? && !dryRun && failAt.None? ==> out == Produced(if skipGen then TextCost else TextCost + ClipCost)
      ensures var recorded := !out.CapHit? && !dryRun && !skipGen
                              && (failAt.None? || failAt.value == Assembly);
        spend == if recorded then AddSpend(old(spend), today, TextCost + ClipCost) else old(spend)
      ensures Spent(today) == old(Spent(today)) || Spent(today) <= cap
      ensures (out, spend) == AppStep(old(spend), cap, today, dryRun, skipGen, failAt)
    {
      var cost := 0;
      var check := CheckDailySpend(today, EstimatedCost);
      if !check.0 && !dryRun {
        return CapHit(check.1);
      }
      var stage := if failAt.Some? then failAt.value else Assembly;
      if failAt.Some? && (stage == Selection || stage == Text) {
        return Raised(stage);
      }
      cost := cost + TextCost;
      if dryRun {
        return DryRunDone(cost);
      }
      if failAt.Some? && stage == Clips {
        return Raised(Clips);
      }
      if !skipGen {
        cost := cost + ClipCost;
        RecordSpend(today, cost);
      }
      if failAt.Some? {
        return Raised(stage);
      }
      out := Produced(cost);
    }

    /** `run_persona`: the persona's selected apps run one after another;
      * a raising app ends the run (the exception propagates). `failAt`
      * stands for whatever the external steps of each app's run do. */
    method RunPersona(persona: string, filter: Option<string>, today: string, dryRun: bool, skipGen: bool,
                      failAt: App -> Option<Stage>) returns (outs: seq<AppOutcome>)
      requires persona in Personas()
      modifies this
      ensures SelectApps(Personas()[persona], filter).Err? ==> outs == [] && spend == old(spend)
      ensures SelectApps(Personas()[persona], filter).Ok? ==>
        var apps := SelectApps(Personas()[persona], filter).value;
        |outs| <= |apps| && (|outs| < |apps| ==> outs != [] && outs[|outs| - 1].Raised?)
      ensures forall k :: 0 <= k < |outs| - 1 ==> !outs[k].Raised?
      ensures old(Spent(today)) <= cap ==> Spent(today) <= cap
      ensures spend.Keys <= old(spend).Keys + {today}
      ensures forall d :: d in old(spend) && d != today ==> d in spend && spend[d] == old(spend)[d]
      ensures SelectApps(Personas()[persona], filter).Ok? ==>
        (outs, spend) == RunApps(old(spend), cap, today, dryRun, skipGen, SelectApps(Personas()[persona], filter).value, failAt)
    {
      outs := [];
      var selected := SelectApps(Personas()[persona], filter);
      if selected.Err? {
        return;
      }
      outs := RunAll(today, dryRun, skipGen, selected.value, failAt);
      RunAppsLedger(old(spend), cap, today, dryRun, skipGen, selected.value, failAt);
    }

    /** The apps run one after another until one raises. */
    method RunAll(today: string, dryRun: bool, skipGen: bool, apps: seq<App>,
                  failAt: App -> Option<Stage>) returns (outs: seq<AppOutcome>)
      modifies this
      ensures (outs, spend) == RunApps(old(spend), cap, today, dryRun, skipGen, apps, failAt)
    {
      outs := [];
      var i := 0;
      ghost var total := RunApps(spend, cap, today, dryRun, skipGen, apps, failAt);
      assert apps[0..] == apps;
      assert [] + total.0 == total.0;
      while i < |apps|
        invariant 0 <= i <= |apps|
        invariant total == RunApps(old(spend), cap, today, dryRun, skipGen, apps, failAt)
        invariant total.0 == outs + RunApps(spend, cap, today, dryRun, skipGen, apps[i..], failAt).0
        invariant total.1 == RunApps(spend, cap, today, dryRun, skipGen, apps[i..], failAt).1
      {
        ghost var before := spend;
        ghost var prev := outs;
        var out := RunForApp(today, dryRun, skipGen, failAt(apps[i]));
        RunAllStep(total, prev, before, out, spend, cap, today, dryRun, skipGen, apps, failAt, i);
        outs := outs + [out];
        if out.Raised? {
          return;
        }
        i := i + 1;
      }
      assert apps[i..] == [] && outs + [] == outs;
    }
  }

  /** One pass of `RunAll`'s loop: after app `i`'s step, the outcomes so far
    * and the run from app `i + 1` on still make up the whole run, and a
    * raising app completes it. */
  lemma RunAllStep(total: (seq<AppOutcome>, map<string, int>), prev: seq<AppOutcome>,
                   before: map<string, int>, out: AppOutcome, after: map<string, int>,
                   cap: int, today: string, dryRun: bool, skipGen: bool,
                   apps: seq<App>, failAt: App -> Option<Stage>, i: nat)
    requires i < |apps|
    requires (out, after) == AppStep(before, cap, today, dryRun, skipGen, failAt(apps[i]))
    requires total.0 == prev + RunApps(before, cap, today, dryRun, skipGen, apps[i..], failAt).0
    requires total.1 == RunApps(before, cap, today, dryRun, skipGen, apps[i..], failAt).1
    ensures out.Raised? ==> total == (prev + [out], after)
    ensures !out.Raised? ==>
      && total.0 == (prev + [out]) + RunApps(after, cap, today, dryRun, skipGen, apps[i + 1..], failAt).0
      && total.1 == RunApps(after, cap, today, dryRun, skipGen, apps[i + 1..], failAt).1
  {
    RunAppsFrom(before, cap, today, dryRun, skipGen, apps, failAt, i);
    if !out.Raised? {
      var rest := RunApps(after, cap, today, dryRun, skipGen, apps[i + 1..], failAt);
      assert prev + ([out] + rest.0) == (prev + [out]) + rest.0;
    }
  }

  /** Where a run can raise: picking the screen recording and reference
    * image, generating text, getting clips, assembling and uploading. */
  datatype Stage = Selection | Text | Clips | Assembly

  datatype AppOutcome =
    | CapHit(spent: int)
    | DryRunDone(cost: int)
    | Produced(cost: int)
    | Raised(stage: Stage)

  /** `pick_video_type`: the rotation by day of the year. */
  function PickVideoType(yday: int): (r: string)
    ensures r in VideoTypes
    ensures r == VideoTypes[yday % 3]
  {
    VideoTypes[yday % 3]
  }

  /** The rotation repeats every three days and visits all three types. */
  lemma RotationPeriod(yday: int)
    ensures PickVideoType(yday + 3) == PickVideoType(yday)
    ensures {PickVideoType(yday), PickVideoType(yday + 1), PickVideoType(yday + 2)} == {"original", "ugc_lighting", "outdoor"}
  {
    var k := yday % 3;
    assert (yday + 1) % 3 == (k + 1) % 3 && (yday + 2) % 3 == (k + 2) % 3 && (yday + 3) % 3 == k;
  }

  /** A segment of the generated four-second clip, in tenths of a second. */
  datatype Segment = Segment(start: nat, duration: nat)
  datatype SplitPoints = SplitPoints(hook: Segment, reaction: Option<Segment>)

  /** `get_clip_split_points`: where the clip is cut into hook and
    * reaction; a type outside the table is a missing key. */
  function ClipSplitPoints(videoType: string): (r: Result<SplitPoints>)
    ensures r.Ok? <==> videoType in {"original", "ugc_lighting", "outdoor", "olivia_default", "riley_default"}
    ensures r.Ok? ==> (r.value.reaction.None? <==> videoType == "olivia_default")
  {
    match videoType
    case "original" => Ok(SplitPoints(Segment(0, 30), Some(Segment(0, 20))))
    case "ugc_lighting" => Ok(SplitPoints(Segment(0, 25), Some(Segment(20, 20))))
    case "outdoor" => Ok(SplitPoints(Segment(0, 22), Some(Segment(22, 18))))
    case "olivia_default" => Ok(SplitPoints(Segment(0, 40), None))
    case "riley_default" => Ok(SplitPoints(Segment(0, 25), Some(Segment(20, 20))))
    case _ => Err("KeyError: " + videoType)
  }

  predicate WithinClip(g: Segment)
  {
    0 < g.duration && g.start + g.duration <= 40
  }

  /** Every cut lies inside the four-second clip, so both parts are
    * non-empty; every rotation type has a reaction part. */
  lemma SplitPointsFitClip(videoType: string)
    requires ClipSplitPoints(videoType).Ok?
    ensures WithinClip(ClipSplitPoints(videoType).value.hook)
    ensures ClipSplitPoints(videoType).value.reaction.Some? ==> WithinClip(ClipSplitPoints(videoType).value.reaction.value)
    ensures videoType in VideoTypes ==> ClipSplitPoints(videoType).value.reaction.Some?
  {
  }

  /** The video type a persona runs with: an explicit argument, else the
    * persona's fixed type when it is non-empty, else the rotation. */
  function ResolveVideoType(arg: Option<string>, persona: Persona, yday: int): (r: string)
    ensures arg.Some? ==> r == arg.value
    ensures arg.None? && persona.videoType.Some? && persona.videoType.value != "" ==> r == persona.videoType.value
    ensures arg.None? && (persona.videoType.None? || persona.videoType.value == "") ==> r == PickVideoType(yday)
  {
    if arg.Some? then arg.value
    else if persona.videoType.Some? && persona.videoType.value != "" then persona.videoType.value
    else PickVideoType(yday)
  }

  /** Which apps `run_persona` runs: all of the persona's apps, or with a
    * (non-empty) filter only those whose slug matches; an empty selection
    * is an error and nothing runs. */
  function SelectApps(persona: Persona, filter: Option<string>): (r: Result<seq<App>>)
    ensures (filter.None? || filter.value == "") ==> r == Ok(persona.apps)
    ensures filter.Some? && filter.value != "" && r.Ok? ==>
      r.value != [] && (forall a :: a in r.value <==> a in persona.apps && a.slug == filter.value)
    ensures filter.Some? && filter.value != "" && r.Ok? ==> IsFilterOf(r.value, persona.apps, SlugIs(filter.value))
    ensures r.Err? <==> filter.Some? && filter.value != "" && (forall a :: a in persona.apps ==> a.slug != filter.value)
  {
    if filter.None? || filter.value == "" then Ok(persona.apps)
    else
      var kept := Filter(persona.apps, SlugIs(filter.value));
      FilterIsFilterOf(persona.apps, SlugIs(filter.value));
      assert forall a :: a in kept <==> a in persona.apps && a.slug == filter.value by {
        forall a ensures a in kept <==> a in persona.apps && a.slug == filter.value {
          assert a in kept <==> multiset(kept)[a] > 0;
          assert a in persona.apps <==> multiset(persona.apps)[a] > 0;
        }
      }
      if kept == [] then Err("App not available")
      else assert kept[0] in kept; Ok(kept)
  }

  /** The app filter's test: the app's folder is `slug`. */
  function SlugIs(slug: string): App -> bool
  {
    (a: App) => a.slug == slug
  }

  /** The persona argument of the command line: "both", "all", a comma
    * separated list of trimmed non-empty names that must all be known, or
    * a single known name. */
  function ResolvePersonas(arg: string): (r: Result<seq<string>>)
    ensures arg == "both" ==> r == Ok(["sanya", "sophie"])
    ensures arg == "all" ==> r == Ok(PersonaNames)
    ensures r.Ok? ==> forall p :: p in r.value ==> p in PersonaNames
    ensures arg != "both" && arg != "all" && ',' !in arg ==>
      (r.Ok? <==> arg in PersonaNames) && (r.Ok? ==> r.value == [arg])
    ensures arg != "both" && arg != "all" && ',' in arg ==>
      var names := NonBlank(Split(arg, ','));
      (r.Ok? <==> forall p :: p in names ==> p in PersonaNames) && (r.Ok? ==> r.value == names)
  {
    if arg == "both" then Ok(["sanya", "sophie"])
    else if arg == "all" then Ok(PersonaNames)
    else if ',' in arg then
      var names := NonBlank(Split(arg, ','));
      if forall p :: p in names ==> p in PersonaNames then Ok(names) else Err("Unknown persona(s)")
    else if arg in PersonaNames then Ok([arg])
    else Err("Unknown persona")
  }

  /** `[p.strip() for p in parts if p.strip()]` */
  function NonBlank(parts: seq<string>): (r: seq<string>)
    ensures forall p :: p in r ==> p != "" && IsStripped(p)
    ensures |r| <= |parts|
  {
    if parts == [] then []
    else
      var p := Strip(parts[0]);
      (if p != "" then [p] else []) + NonBlank(parts[1..])
  }

  /** A stripped blank part is empty. */
  lemma StripBlank(p: string)
    requires AllSpace(p)
    ensures Strip(p) == ""
  {
  }

  /** A comma separated list of only blanks names no persona and is
    * accepted: nothing runs. */
  lemma {:induction false} BlankListRunsNothing(arg: string)
    requires ',' in arg && arg != "both" && arg != "all"
    requires forall p :: p in Split(arg, ',') ==> AllSpace(p)
    ensures ResolvePersonas(arg) == Ok([])
  {
    NoBlankNames(Split(arg, ','));
  }

  lemma {:induction false} NoBlankNames(parts: seq<string>)
    requires forall p :: p in parts ==> AllSpace(p)
    ensures NonBlank(parts) == []
  {
    if parts != [] {
      StripBlank(parts[0]);
      assert forall p :: p in parts[1..] ==> p in parts;
      NoBlankNames(parts[1..]);
    }
  }

  predicate IsImage(name: string)
  {
    Lower(Suffix(name)) in {".png", ".jpg", ".jpeg"}
  }

  /** The files `pick_reference_image` chooses from. For the variant types
    * these are "<persona>-v*" images; for the lighting types the image
    * whose stem is "<persona>-<tag>". Another type is a missing key. */
  function ReferenceCandidates(files: seq<string>, persona: string, videoType: string): (r: Result<seq<string>>)
    ensures r.Ok? ==> forall f :: f in r.value ==> f in files && IsImage(f)
    ensures videoType in {"original", "olivia_default", "riley_default"} ==>
      r.Ok? && forall f :: f in r.value <==> f in files && IsImage(f) && StartsWith(f, persona + "-v")
    ensures videoType == "ugc_lighting" ==>
      r.Ok? && forall f :: f in r.value <==> f in files && IsImage(f) && Stem(f) == persona + "-ugc"
    ensures videoType == "outdoor" ==>
      r.Ok? && forall f :: f in r.value <==> f in files && IsImage(f) && Stem(f) == persona + "-outdoor"
    ensures r.Err? <==> videoType !in {"original", "olivia_default", "riley_default", "ugc_lighting", "outdoor"}
  {
    if videoType in {"original", "olivia_default", "riley_default"} then
      Ok(Keep(files, f => IsImage(f) && StartsWith(f, persona + "-v")))
    else if videoType == "ugc_lighting" then
      Ok(Keep(files, f => IsImage(f) && Stem(f) == persona + "-ugc"))
    else if videoType == "outdoor" then
      Ok(Keep(files, f => IsImage(f) && Stem(f) == persona + "-outdoor"))
    else Err("KeyError: " + videoType)
  }

  function Keep(files: seq<string>, p: string -> bool): (r: seq<string>)
    ensures forall f :: f in r <==> f in files && p(f)
  {
    if files == [] then []
    else (if p(files[0]) then [files[0]] else []) + Keep(files[1..], p)
  }

  /** The least name in sort order. */
  function Least(names: seq<string>): (r: string)
    requires names != []
    ensures r in names
    ensures forall n :: n in names ==> StrLeq(r, n)
  {
    if |names| == 1 then names[0]
    else
      var rest := Least(names[1..]);
      StrLessTotal(names[0], rest);
      if StrLess(rest, names[0]) then
        forall n | n in names ensures StrLeq(rest, n) {
          if n == names[0] {
          } else {
            assert n in names[1..];
          }
        }
        rest
      else
        forall n | n in names ensures StrLeq(names[0], n) {
          if n != names[0] {
            assert n in names[1..];
            if rest != names[0] && n != rest {
              StrLessTransitive(names[0], rest, n);
            }
          }
        }
        names[0]
  }

  /** `pick_reference_image`: a random variant for the variant types, the
    * first match in sort order for the lighting types; no candidate raises. */
  method PickReferenceImage(files: seq<string>, persona: string, videoType: string) returns (r: Result<string>)
    ensures var c := ReferenceCandidates(files, persona, videoType);
      && (r.Err? <==> c.Err? || c.value == [])
      && (r.Ok? ==> r.value in c.value)
      && (r.Ok? && (videoType == "ugc_lighting" || videoType == "outdoor") ==>
            forall f :: f in c.value ==> StrLeq(r.value, f))
  {
    var candidates := ReferenceCandidates(files, persona, videoType);
    if candidates.Err? {
      return Err(candidates.error);
    }
    if candidates.value == [] {
      return Err("FileNotFoundError: no reference image");
    }
    if videoType == "ugc_lighting" || videoType == "outdoor" {
      r := Ok(Least(candidates.value));
    } else {
      assert candidates.value[0] in candidates.value;
      var choice :| choice in candidates.value;
      r := Ok(choice);
    }
  }

  /** After text generation a missing reaction text becomes "" and a missing
    * content angle becomes "discovery"; everything else is kept. */
  function NormalizeText(result: map<string, string>): (r: map<string, string>)
    ensures "reaction_text" in r && "content_angle" in r
    ensures r.Keys == result.Keys + {"reaction_text", "content_angle"}
    ensures forall k :: k in result ==> r[k] == result[k]
    ensures "reaction_text" !in result ==> r["reaction_text"] == ""
    ensures "content_angle" !in result ==> r["content_angle"] == "discovery"
  {
    var a := if "reaction_text" in result then result else result["reaction_text" := ""];
    if "content_angle" in a then a else a["content_angle" := "discovery"]
  }

  /** Normalising twice is normalising once. */
  lemma NormalizeIdempotent(result: map<string, string>)
    ensures NormalizeText(NormalizeText(result)) == NormalizeText(result)
  {
  }

  /** The reply's code fence is removed before parsing: an opening fence
    * drops the first line (a fence with no line after it fails to split),
    * a closing fence drops the text from the last "```" on. */
  function StripFence(raw: string): (r: Result<string>)
    ensures !StartsWith(Strip(raw), "```") && !EndsWith(Strip(raw), "```") ==> r == Ok(Strip(raw))
    ensures StartsWith(Strip(raw), "```") && '\n' !in Strip(raw) ==> r.Err?
    ensures !StartsWith(Strip(raw), "```") && EndsWith(Strip(raw), "```") ==> r.Ok? && Strip(raw) == r.value + "```"
    ensures StartsWith(Strip(raw), "```") && '\n' in Strip(raw) ==>
              var body := Strip(raw)[Find(Strip(raw), '\n') + 1..];
              && r.Ok?
              && (EndsWith(body, "```") ==> body == r.value + "```")
              && (!EndsWith(body, "```") ==> r.value == body)
  {
    var s := Strip(raw);
    var unfenced := if StartsWith(s, "```") then AfterFirstLine(s) else Ok(s);
    if unfenced.Err? then unfenced
    else if EndsWith(unfenced.value, "```") then Ok(BeforeLastFence(unfenced.value))
    else unfenced
  }

  /** `s.split("\n", 1)[1]`: everything after the first newline; a text
    * without one has no second part. */
  function AfterFirstLine(s: string): (r: Result<string>)
    ensures r.Err? <==> '\n' !in s
    ensures r.Ok? ==>
      EndsWith(s, r.value) && |r.value| < |s| && s[|s| - |r.value| - 1] == '\n' && '\n' !in s[..|s| - |r.value| - 1]
  {
    var i := Find(s, '\n');
    if i < 0 then Err("IndexError: list index out of range") else Ok(s[i + 1..])
  }

  /** `s.rsplit("```", 1)[0]` for a text that ends with the fence. */
  function BeforeLastFence(s: string): (r: string)
    requires EndsWith(s, "```")
    ensures s == r + "```"
  {
    s[..|s| - 3]
  }
}
