/** The PostHog funnel query: the project configuration lookup, the key
  * check, the choice of funnel steps, and the step arithmetic over the
  * counts PostHog returns (conversion from the first step, drop-off from the
  * previous one, overall conversion). The HTTP call is a parameter; rates
  * are reals, and their rounding to one decimal is left out. */
module PosthogClient {
  import opened Common

  /** A value of the project configuration. The shipped configuration maps
    * each app to its bare numeric project id; the client reads it as a
    * record with an "id" and an "api_key". */
  datatype ProjectEntry = ProjectId(number: int) | Project(id: int, apiKey: string)

  /** The configuration in its insertion order, app name first. */
  type Projects = seq<(string, ProjectEntry)>

  const ShippedProjects: Projects :=
    [("manifest-lock", ProjectId(306371)), ("journal-lock", ProjectId(313945))]

  /** The default funnel of each app. */
  const DefaultFunnels: map<string, seq<string>> := map[
    "manifest-lock" := ["onboarding_started", "onboarding_name_entered", "onboarding_goal_selected",
                        "onboarding_manifestation_created", "onboarding_read_aloud_completed",
                        "onboarding_completed"],
    "journal-lock" := ["onboarding_started", "onboarding_journaling_reasons_selected",
                       "onboarding_manifestation_created", "onboarding_apps_selected",
                       "onboarding_trial_started", "onboarding_completed"]]

  /** What a Python call does: returns a value or raises an exception of a
    * kind, with a message. */
  datatype Reply<T> = Returned(value: T) | Raised(kind: string, message: string)

  function AppNames(projects: Projects): (r: seq<string>)
    ensures |r| == |projects|
    ensures forall i :: 0 <= i < |projects| ==> r[i] == projects[i].0
  {
    if projects == [] then [] else [projects[0].0] + AppNames(projects[1..])
  }

  /** `repr` of a list of names without quotes in them. */
  function NameList(names: seq<string>): string
  {
    var quoted := seq(|names|, i requires 0 <= i < |names| => "'" + names[i] + "'");
    "[" + Join(quoted, ", ") + "]"
  }

  /** `_project_config`: the entry of a configured app; a `ValueError`
    * naming the valid apps otherwise. */
  function ProjectConfig(projects: Projects, app: string): (r: Reply<ProjectEntry>)
    ensures r.Raised? <==> app !in AppNames(projects)
    ensures r.Raised? ==>
              r == Raised("ValueError", "Unknown app: " + app + ". Valid: " + NameList(AppNames(projects)))
    ensures r.Returned? ==> exists i :: 0 <= i < |projects| && projects[i] == (app, r.value)
                              && forall j :: 0 <= j < i ==> projects[j].0 != app
  {
    var found := Lookup(projects, app);
    if found.None? then Raised("ValueError", "Unknown app: " + app + ". Valid: " + NameList(AppNames(projects)))
    else Returned(found.value)
  }

  /** The first entry of an app, as a Python dict holds one per key. */
  function Lookup(projects: Projects, app: string): (r: Option<ProjectEntry>)
    ensures r.None? <==> app !in AppNames(projects)
    ensures r.Some? ==> exists i :: 0 <= i < |projects| && projects[i] == (app, r.value)
                          && forall j :: 0 <= j < i ==> projects[j].0 != app
  {
    if projects == [] then None
    else if projects[0].0 == app then
      Some(projects[0].1)
    else
      var rest := Lookup(projects[1..], app);
      assert AppNames(projects) == [projects[0].0] + AppNames(projects[1..]);
      if rest.Some? then
        var k :| 0 <= k < |projects[1..]| && projects[1..][k] == (app, rest.value)
                 && forall j :: 0 <= j < k ==> projects[1..][j].0 != app;
        assert projects[k + 1] == (app, rest.value);
        assert forall j :: 0 <= j < k + 1 ==> projects[j].0 != app by {
          forall j | 0 <= j < k + 1 ensures projects[j].0 != app {
            if j > 0 { assert projects[j] == projects[1..][j - 1]; }
          }
        }
        Some(rest.value)
      else None
  }

  /** `_has_key`: `.get("api_key")` on the entry. On a bare project id that
    * is an `AttributeError`. */
  function HasKey(projects: Projects, app: string): (r: Reply<bool>)
    ensures ProjectConfig(projects, app).Raised? ==>
              r == Raised(ProjectConfig(projects, app).kind, ProjectConfig(projects, app).message)
    ensures ProjectConfig(projects, app).Returned? && ProjectConfig(projects, app).value.ProjectId? ==>
              r == Raised("AttributeError", "'int' object has no attribute 'get'")
    ensures ProjectConfig(projects, app).Returned? && ProjectConfig(projects, app).value.Project? ==>
              r == Returned(ProjectConfig(projects, app).value.apiKey != "")
  {
    var config := ProjectConfig(projects, app);
    if config.Raised? then Raised(config.kind, config.message)
    else match config.value
      case ProjectId(_) => Raised("AttributeError", "'int' object has no attribute 'get'")
      case Project(_, key) => Returned(key != "")
  }

  /** One step of PostHog's funnel result: its "count" and "name" when
    * present. */
  datatype StepData = StepData(count: Option<int>, name: Option<string>)

  /** The request `get_funnel` posts, and PostHog's answer: its HTTP status
    * and its "result" list when present. */
  datatype FunnelRequest = FunnelRequest(projectId: int, events: seq<string>, dateFrom: string)
  datatype FunnelResponse = FunnelResponse(status: int, result: Option<seq<StepData>>)

  /** A step of the returned funnel; the rates are percentages. */
  datatype FunnelStep = FunnelStep(name: string, count: int, conversionRate: real, dropOffRate: real)

  /** The returned funnel: an error message when the key is missing, the
    * steps, and the overall conversion. */
  datatype Funnel = Funnel(error: Option<string>, steps: seq<FunnelStep>, overallConversion: real)

  /** `step_data.get("count", 0)` */
  function CountOf(d: StepData): int
  {
    if d.count.Some? then d.count.value else 0
  }

  /** `part / whole * 100` when `whole > 0`, else 0. */
  function Percent(part: int, whole: int): (r: real)
    ensures whole <= 0 ==> r == 0.0
    ensures whole > 0 ==> r * (whole as real) == (part as real) * 100.0
  {
    if whole > 0 then (part as real) / (whole as real) * 100.0 else 0.0
  }

  /** The name of step `i`: the requested event while there is one, else
    * PostHog's name for it, else "Step i+1". */
  function StepName(requested: seq<string>, d: StepData, i: nat): string
  {
    if i < |requested| then requested[i]
    else if d.name.Some? then d.name.value
    else "Step " + NatToString(i + 1)
  }

  /** Step `i` of the funnel, by itself: its conversion is counted from the
    * first step (100 for the first), its drop-off from the previous one. */
  function StepAt(requested: seq<string>, results: seq<StepData>, i: nat): FunnelStep
    requires i < |results|
  {
    var count := CountOf(results[i]);
    var prev := if i > 0 then CountOf(results[i - 1]) else count;
    FunnelStep(StepName(requested, results[i], i), count,
               if i == 0 then 100.0 else Percent(count, CountOf(results[0])),
               Percent(prev - count, prev))
  }

  function Steps(requested: seq<string>, results: seq<StepData>): (r: seq<FunnelStep>)
    ensures |r| == |results|
    ensures forall i :: 0 <= i < |results| ==> r[i] == StepAt(requested, results, i)
  {
    seq(|results|, i requires 0 <= i < |results| => StepAt(requested, results, i))
  }

  /** The last count as a percentage of the first. */
  function Overall(results: seq<StepData>): real
  {
    if results == [] then 0.0 else Percent(CountOf(results[|results| - 1]), CountOf(results[0]))
  }

  /** The loop of `get_funnel` over PostHog's steps, with its `first_count`
    * and `last_count`. */
  method ParseSteps(requested: seq<string>, results: seq<StepData>) returns (steps: seq<FunnelStep>, overall: real)
    ensures steps == Steps(requested, results)
    ensures overall == Overall(results)
  {
    steps := [];
    var firstCount := 0;
    var lastCount := 0;
    for i := 0 to |results|
      invariant steps == Steps(requested, results[..i])
      invariant i == 0 ==> firstCount == 0
      invariant i > 0 ==> firstCount == CountOf(results[0]) && lastCount == CountOf(results[i - 1])
    {
      var count := CountOf(results[i]);
      var conversion: real;
      if i == 0 {
        firstCount := count;
        conversion := 100.0;
      } else {
        conversion := Percent(count, firstCount);
      }
      var prevCount := if i > 0 then CountOf(results[i - 1]) else count;
      var dropOff := Percent(prevCount - count, prevCount);
      var step := FunnelStep(StepName(requested, results[i], i), count, conversion, dropOff);
      assert step == StepAt(requested, results[..i + 1], i);
      StepsSnoc(requested, results[..i + 1], steps);
      steps := steps + [step];
      lastCount := count;
    }
    assert results[..|results|] == results;
    overall := Percent(lastCount, firstCount);

  }

  lemma StepsSnoc(requested: seq<string>, results: seq<StepData>, steps: seq<FunnelStep>)
    requires |results| >= 1 && steps == Steps(requested, results[..|results| - 1])
    ensures Steps(requested, results) == steps + [StepAt(requested, results, |results| - 1)]
  {
    var n := |results| - 1;
    forall i | 0 <= i < n ensures StepAt(requested, results[..n], i) == StepAt(requested, results, i) {
      assert results[..n][i] == results[i];
      assert i > 0 ==> results[..n][i - 1] == results[i - 1];
      assert results[..n][0] == results[0];
    }
  }

  /** A zero step for each requested event, when PostHog returns none. */
  function ZeroSteps(requested: seq<string>): (r: seq<FunnelStep>)
    ensures |r| == |requested|
    ensures forall i :: 0 <= i < |r| ==> r[i] == FunnelStep(requested[i], 0, 0.0, 0.0)
  {
    seq(|requested|, i requires 0 <= i < |requested| => FunnelStep(requested[i], 0, 0.0, 0.0))
  }

  /** The steps asked for: the given list when non-empty, else the app's
    * default funnel, else none. */
  function FunnelSteps(app: string, steps: Option<seq<string>>): (r: seq<string>)
    ensures steps.Some? && steps.value != [] ==> r == steps.value
    ensures !(steps.Some? && steps.value != []) && app in DefaultFunnels ==> r == DefaultFunnels[app]
    ensures !(steps.Some? && steps.value != []) && app !in DefaultFunnels ==> r == []
  {
    if steps.Some? && steps.value != [] then steps.value
    else if app in DefaultFunnels then DefaultFunnels[app]
    else []
  }

  /** The message for an app without a key: the part of its name before the
    * first "-", upper-cased. */
  function NoKeyMessage(app: string): string
  {
    "POSTHOG_API_KEY_" + Upper(Split(app, '-')[0]) + " not configured"
  }

  /** What `get_funnel` returns or raises, given the configuration, its
    * arguments and PostHog's answer to the request it would post. */
  function FunnelOf(projects: Projects, app: string, steps: Option<seq<string>>, dateFrom: string,
                    post: FunnelRequest -> FunnelResponse): Reply<Funnel>
  {
    var hasKey := HasKey(projects, app);
    if hasKey.Raised? then Raised(hasKey.kind, hasKey.message)
    else if !hasKey.value then Returned(Funnel(Some(NoKeyMessage(app)), [], 0.0))
    else
      var names := FunnelSteps(app, steps);
      if names == [] then Returned(Funnel(None, [], 0.0))
      else
        var response := post(FunnelRequest(ProjectConfig(projects, app).value.id, names, dateFrom));
        if !IsSuccess(response.status) then Raised("HTTPStatusError", "PostHog answered " + IntToString(response.status))
        else
          var results := if response.result.Some? then response.result.value else [];
          if results == [] then Returned(Funnel(None, ZeroSteps(names), 0.0))
          else Returned(Funnel(None, Steps(names, results), Overall(results)))
  }

  /** `get_funnel` */
  method GetFunnel(projects: Projects, app: string, steps: Option<seq<string>>, dateFrom: string,
                   post: FunnelRequest -> FunnelResponse) returns (reply: Reply<Funnel>)
    ensures reply == FunnelOf(projects, app, steps, dateFrom, post)
  {
    var hasKey := HasKey(projects, app);
    if hasKey.Raised? {
      return Raised(hasKey.kind, hasKey.message);
    }
    if !hasKey.value {
      return Returned(Funnel(Some(NoKeyMessage(app)), [], 0.0));
    }
    var pid := ProjectConfig(projects, app).value.id;
    var names := FunnelSteps(app, steps);
    if names == [] {
      return Returned(Funnel(None, [], 0.0));
    }
    var response := post(FunnelRequest(pid, names, dateFrom));
    if !IsSuccess(response.status) {
      return Raised("HTTPStatusError", "PostHog answered " + IntToString(response.status));
    }
    var results := if response.result.Some? then response.result.value else [];
    if results == [] {
      return Returned(Funnel(None, ZeroSteps(names), 0.0));
    }
    var parsed, overall := ParseSteps(names, results);
    return Returned(Funnel(None, parsed, overall));
  }

  /** A configured app whose request PostHog answers with a status outside
    * 2xx (a redirect included) raises, naming the status. */
  lemma ErrorStatusRaises(projects: Projects, app: string, steps: Option<seq<string>>, dateFrom: string,
                          post: FunnelRequest -> FunnelResponse)
    requires HasKey(projects, app) == Returned(true)
    requires FunnelSteps(app, steps) != []
    requires !IsSuccess(post(FunnelRequest(ProjectConfig(projects, app).value.id, FunnelSteps(app, steps), dateFrom)).status)
    ensures var status := post(FunnelRequest(ProjectConfig(projects, app).value.id, FunnelSteps(app, steps), dateFrom)).status;
            FunnelOf(projects, app, steps, dateFrom, post) == Raised("HTTPStatusError", "PostHog answered " + IntToString(status))
  {
  }

  /** The first step is the base: conversion 100, no drop-off. */
  lemma FirstStepIsBase(requested: seq<string>, results: seq<StepData>)
    requires results != []
    ensures Steps(requested, results)[0].conversionRate == 100.0
    ensures Steps(requested, results)[0].dropOffRate == 0.0
  {
  }

  /** The overall conversion is the last step's conversion whenever the
    * first step counted anyone, and 0 otherwise. */
  lemma OverallIsLastConversion(requested: seq<string>, results: seq<StepData>)
    requires results != []
    ensures CountOf(results[0]) > 0 ==>
              Overall(results) == Steps(requested, results)[|results| - 1].conversionRate
    ensures CountOf(results[0]) <= 0 ==> Overall(results) == 0.0
  {
    var n := |results| - 1;
    if n == 0 && CountOf(results[0]) > 0 {
      var c := CountOf(results[0]) as real;
      assert c / c == 1.0;
    }
  }

  /** In a funnel whose counts never grow, every conversion and every
    * drop-off after the first step lies between 0 and 100. */
  lemma RatesArePercentages(requested: seq<string>, results: seq<StepData>, i: nat)
    requires i < |results|
    requires forall k :: 0 <= k < |results| ==> CountOf(results[k]) >= 0
    requires forall k :: 0 < k < |results| ==> CountOf(results[k]) <= CountOf(results[k - 1])
    ensures 0.0 <= Steps(requested, results)[i].conversionRate <= 100.0
    ensures 0.0 <= Steps(requested, results)[i].dropOffRate <= 100.0
  {
    if i > 0 {
      NotAboveFirst(results, i);
      PercentBounds(CountOf(results[i]), CountOf(results[0]));
      PercentBounds(CountOf(results[i - 1]) - CountOf(results[i]), CountOf(results[i - 1]));
    }
  }

  lemma {:induction false} NotAboveFirst(results: seq<StepData>, i: nat)
    requires i < |results|
    requires forall k :: 0 < k < |results| ==> CountOf(results[k]) <= CountOf(results[k - 1])
    ensures CountOf(results[i]) <= CountOf(results[0])
  {
    if i > 0 {
      NotAboveFirst(results, i - 1);
    }
  }

  lemma PercentBounds(part: int, whole: int)
    requires 0 <= part <= whole
    ensures 0.0 <= Percent(part, whole) <= 100.0
  {
    if whole > 0 {
      var p := part as real;
      var w := whole as real;
      assert p / w <= 1.0 by {
        assert p / w * w == p;
      }
    }
  }

  /** With every count positive, the conversion of a step is that of the
    * step before, less its drop-off:
    * conversion_i = conversion_(i-1) * (100 - drop_off_i) / 100. */
  lemma ConversionChain(requested: seq<string>, results: seq<StepData>, i: nat)
    requires 0 < i < |results|
    requires forall k :: 0 <= k < |results| ==> CountOf(results[k]) > 0
    ensures var steps := Steps(requested, results);
            steps[i].conversionRate == steps[i - 1].conversionRate * (100.0 - steps[i].dropOffRate) / 100.0
  {
    var c0 := CountOf(results[0]);
    var p := CountOf(results[i - 1]);
    var c := CountOf(results[i]);
    var steps := Steps(requested, results);
    assert steps[i - 1].conversionRate == Percent(p, c0);
    assert steps[i].conversionRate == Percent(c, c0);
    assert steps[i].dropOffRate == Percent(p - c, p);
    PercentChain(c0, p, c);
  }

  lemma PercentChain(c0: int, p: int, c: int)
    requires c0 > 0 && p > 0
    ensures Percent(c, c0) == Percent(p, c0) * (100.0 - Percent(p - c, p)) / 100.0
  {
    var a := c0 as real;
    var b := p as real;
    var x := c as real;
    var first := Percent(p, c0);
    var drop := Percent(p - c, p);
    var chained := first * (100.0 - drop) / 100.0;
    assert (100.0 - drop) * b == 100.0 * x;
    assert chained * a * b == (first * a) * ((100.0 - drop) * b) / 100.0;
    assert chained * a * b == 100.0 * x * b;
    assert chained * a == 100.0 * x;
    PercentUnique(c, c0, chained);
  }

  /** `Percent` is the only value with its defining product. */
  lemma PercentUnique(part: int, whole: int, r: real)
    requires whole > 0 && r * (whole as real) == (part as real) * 100.0
    ensures Percent(part, whole) == r
  {
    var w := whole as real;
    assert (Percent(part, whole) - r) * w == 0.0;
  }

  /** Under the shipped configuration, every call raises: an unknown app is
    * a `ValueError`, and a known one's bare project id has no `.get`. */
  lemma ShippedConfigRaises(app: string, steps: Option<seq<string>>, dateFrom: string,
                            post: FunnelRequest -> FunnelResponse)
    ensures FunnelOf(ShippedProjects, app, steps, dateFrom, post).Raised?
    ensures app in ["manifest-lock", "journal-lock"] ==>
              FunnelOf(ShippedProjects, app, steps, dateFrom, post).kind == "AttributeError"
  {
    assert AppNames(ShippedProjects) == ["manifest-lock", "journal-lock"];
  }

  /** Each app as a record with its project id and key. */
  function IntendedProjects(manifestKey: string, journalKey: string): Projects
  {
    [("manifest-lock", Project(306371, manifestKey)), ("journal-lock", Project(313945, journalKey))]
  }

  /** With the configuration as the client reads it, a known app with a key
    * gets its funnel (the requested steps, or its default funnel) whenever
    * PostHog answers, and one without a key gets the "not configured"
    * message. */
  lemma IntendedConfigAnswers(manifestKey: string, journalKey: string, app: string,
                              steps: Option<seq<string>>, dateFrom: string,
                              post: FunnelRequest -> FunnelResponse)
    requires app == "manifest-lock" || app == "journal-lock"
    ensures var projects := IntendedProjects(manifestKey, journalKey);
            var key := if app == "manifest-lock" then manifestKey else journalKey;
            var reply := FunnelOf(projects, app, steps, dateFrom, post);
            && (key == "" ==> reply == Returned(Funnel(Some(NoKeyMessage(app)), [], 0.0)))
            && (key != "" && IsSuccess(post(FunnelRequest(if app == "manifest-lock" then 306371 else 313945,
                                                          FunnelSteps(app, steps), dateFrom)).status) ==>
                  reply.Returned? && reply.value.error.None?)
  {
    var projects := IntendedProjects(manifestKey, journalKey);
    assert AppNames(projects) == ["manifest-lock", "journal-lock"];
    assert ProjectConfig(projects, app).value
        == if app == "manifest-lock" then Project(306371, manifestKey) else Project(313945, journalKey);
  }

  /** An empty result gives one zero step per requested event, with every
    * rate and the overall conversion 0. */
  lemma EmptyResultZeroes(projects: Projects, app: string, steps: Option<seq<string>>, dateFrom: string,
                          post: FunnelRequest -> FunnelResponse)
    requires HasKey(projects, app) == Returned(true)
    requires FunnelSteps(app, steps) != []
    requires var response := post(FunnelRequest(ProjectConfig(projects, app).value.id, FunnelSteps(app, steps), dateFrom));
             IsSuccess(response.status) && (response.result.None? || response.result == Some([]))
    ensures var reply := FunnelOf(projects, app, steps, dateFrom, post);
            && reply.Returned? && reply.value.overallConversion == 0.0
            && |reply.value.steps| == |FunnelSteps(app, steps)|
            && forall i :: 0 <= i < |reply.value.steps| ==>
                 reply.value.steps[i] == FunnelStep(FunnelSteps(app, steps)[i], 0, 0.0, 0.0)
  {
  }
}
