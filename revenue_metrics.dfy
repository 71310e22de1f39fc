/** The daily revenue fetch: the overview metrics of each configured app
  * are kept for the tracked ids, the snapshot is appended to the JSON log,
  * and the memory summary compares it with the previous snapshot. HTTP,
  * the clock and the JSON text are parameters; amounts are reals and their
  * printed form is given as formatting functions. */
module RevenueMetrics {
  import opened Common

  /** A JSON object of metric values, in insertion order, as Python keeps
    * it: each key at most once. */
  type Metrics = seq<(string, real)>

  function KeysOf(m: Metrics): (r: seq<string>)
    ensures |r| == |m|
    ensures forall i :: 0 <= i < |m| ==> r[i] == m[i].0
  {
    if m == [] then [] else [m[0].0] + KeysOf(m[1..])
  }

  predicate UniqueKeys(m: Metrics)
  {
    forall i, j :: 0 <= i < j < |m| ==> m[i].0 != m[j].0
  }

  /** `m.get(k)` */
  function ValueOf(m: Metrics, k: string): (r: Option<real>)
    ensures r.Some? <==> k in KeysOf(m)
    ensures r.Some? ==> (k, r.value) in m
  {
    if m == [] then None
    else if m[0].0 == k then Some(m[0].1)
    else ValueOf(m[1..], k)
  }

  /** `m.get(k, d)` */
  function GetOr(m: Metrics, k: string, d: real): real
  {
    var v := ValueOf(m, k);
    if v.Some? then v.value else d
  }

  /** `m[k] = v`: an existing key keeps its place, a new one goes last. */
  function Put(m: Metrics, k: string, v: real): (r: Metrics)
    ensures forall x :: x in KeysOf(r) <==> x in KeysOf(m) || x == k
    ensures ValueOf(r, k) == Some(v)
    ensures forall x :: x != k ==> ValueOf(r, x) == ValueOf(m, x)
  {
    if m == [] then [(k, v)]
    else if m[0].0 == k then [(k, v)] + m[1..]
    else
      var rest := Put(m[1..], k, v);
      assert KeysOf([m[0]] + rest) == [m[0].0] + KeysOf(rest);
      assert KeysOf(m) == [m[0].0] + KeysOf(m[1..]);
      [m[0]] + rest
  }

  /** Setting a key never repeats one. */
  lemma {:induction false} PutUnique(m: Metrics, k: string, v: real)
    requires UniqueKeys(m)
    ensures UniqueKeys(Put(m, k, v))
  {
    if m != [] && m[0].0 != k {
      PutUnique(m[1..], k, v);
      var rest := Put(m[1..], k, v);
      assert m[0].0 !in KeysOf(m[1..]);
      assert forall i :: 0 <= i < |rest| ==> rest[i].0 in KeysOf(rest);
    }
  }

  /** The last value given for `k` in a list of pairs. */
  function LastValue(pairs: seq<(string, real)>, k: string): Option<real>
  {
    if pairs == [] then None
    else if pairs[|pairs| - 1].0 == k then Some(pairs[|pairs| - 1].1)
    else LastValue(pairs[..|pairs| - 1], k)
  }

  /** `{m["id"]: m["value"] for m in data}`: one key per id, holding the
    * last value given for it. */
  function DictOf(pairs: seq<(string, real)>): (r: Metrics)
    ensures UniqueKeys(r)
    ensures forall k :: ValueOf(r, k) == LastValue(pairs, k)
  {
    if pairs == [] then []
    else
      var last := pairs[|pairs| - 1];
      PutUnique(DictOf(pairs[..|pairs| - 1]), last.0, last.1);
      Put(DictOf(pairs[..|pairs| - 1]), last.0, last.1)
  }

  /** The tracked metrics with their labels, in the order of the summary. */
  const MetricLabels: seq<(string, string)> := [
    ("mrr", "MRR"),
    ("revenue", "Revenue (28d)"),
    ("new_customers", "New Customers (28d)"),
    ("active_users", "Active Users"),
    ("active_subscriptions", "Active Subscriptions"),
    ("active_trials", "Active Trials")
  ]

  const MetricIds: seq<string> := ["mrr", "revenue", "new_customers", "active_users", "active_subscriptions", "active_trials"]

  const MoneyMetrics: set<string> := {"mrr", "revenue"}

  /** `{k: v for k, v in m.items() if k in METRIC_LABELS}` */
  function Tracked(m: Metrics): (r: Metrics)
    ensures forall x :: x in KeysOf(r) ==> x in KeysOf(m)
    ensures forall k :: ValueOf(r, k) == (if k in MetricIds then ValueOf(m, k) else None)
    ensures UniqueKeys(m) ==> UniqueKeys(r)
  {
    if m == [] then []
    else
      var rest := Tracked(m[1..]);
      if m[0].0 in MetricIds then
        KeepHead(m, rest);
        [m[0]] + rest
      else
        DropHead(m, rest);
        rest
  }

  /** Keeping the first pair in front of a filtered tail keeps the keys
    * among those of the object, each once. */
  lemma KeepHead(m: Metrics, rest: Metrics)
    requires m != []
    requires forall x :: x in KeysOf(rest) ==> x in KeysOf(m[1..])
    requires UniqueKeys(m[1..]) ==> UniqueKeys(rest)
    ensures forall x :: x in KeysOf([m[0]] + rest) ==> x in KeysOf(m)
    ensures UniqueKeys(m) ==> UniqueKeys([m[0]] + rest)
  {
    assert KeysOf(m) == [m[0].0] + KeysOf(m[1..]);
    assert KeysOf([m[0]] + rest) == [m[0].0] + KeysOf(rest);
    if UniqueKeys(m) {
      assert UniqueKeys(m[1..]);
      assert m[0].0 !in KeysOf(m[1..]);
      forall i | 0 <= i < |rest| ensures rest[i].0 != m[0].0 {
        assert rest[i].0 in KeysOf(rest);
      }
    }
  }

  /** Dropping the first pair keeps the keys of a filtered tail among those
    * of the object, each once. */
  lemma DropHead(m: Metrics, rest: Metrics)
    requires m != []
    requires forall x :: x in KeysOf(rest) ==> x in KeysOf(m[1..])
    requires UniqueKeys(m[1..]) ==> UniqueKeys(rest)
    ensures forall x :: x in KeysOf(rest) ==> x in KeysOf(m)
    ensures UniqueKeys(m) ==> UniqueKeys(rest)
  {
    assert KeysOf(m) == [m[0].0] + KeysOf(m[1..]);
    if UniqueKeys(m) {
      assert UniqueKeys(m[1..]);
    }
  }

  /** `fetch_overview` after the request: exactly the tracked ids of the
    * response, each with the last value the response gives it. */
  function FetchOverview(data: seq<(string, real)>): (r: Metrics)
    ensures UniqueKeys(r)
    ensures forall k :: ValueOf(r, k) == (if k in MetricIds then LastValue(data, k) else None)
  {
    Tracked(DictOf(data))
  }

  /** A currency breakdown such as "mrr_eur" is dropped. */
  lemma BreakdownDropped(data: seq<(string, real)>)
    ensures ValueOf(FetchOverview(data), "mrr_eur").None?
  {
  }

  /** One entry of the JSON log. */
  datatype Snapshot = Snapshot(timestamp: string, projects: seq<(string, Metrics)>)

  /** `load_previous_snapshot`: the last entry of the log, or none when the
    * log is missing, empty or not JSON. */
  function LoadPreviousSnapshot(file: Option<string>, parse: string -> Option<seq<Snapshot>>): (r: Option<Snapshot>)
    ensures file.None? || parse(file.value).None? || parse(file.value).value == [] ==> r.None?
    ensures r.Some? ==> var es := parse(file.value).value; es != [] && r.value == es[|es| - 1]
  {
    if file.None? then None
    else
      var entries := parse(file.value);
      if entries.None? || entries.value == [] then None
      else Some(entries.value[|entries.value| - 1])
  }

  /** What a trend cell shows for a change from `previous` to `current`.
    * `money` prints with two decimals, `general` as Python's `:g`. */
  function FormatDelta(metricId: string, current: real, previous: real,
                       money: real -> string, general: real -> string): (r: string)
    ensures current == previous ==> r == "-> 0"
    ensures current > previous ==> StartsWith(r, "^ +")
    ensures current < previous ==> StartsWith(r, "v ")
    ensures current != previous && metricId in MoneyMetrics ==>
      r == (if current > previous then "^ +" else "v ") + "$" + money(current - previous)
    ensures current != previous && metricId !in MoneyMetrics ==>
      r == (if current > previous then "^ +" else "v ") + general(current - previous)
  {
    var delta := current - previous;
    if delta == 0.0 then "-> 0"
    else
      var direction := if delta > 0.0 then "^ +" else "v ";
      if metricId in MoneyMetrics then direction + "$" + money(delta) else direction + general(delta)
  }

  /** The trend cell of one metric: a delta when the previous snapshot has
    * this project with this metric, "--" otherwise. */
  function TrendCell(metricId: string, metrics: Metrics, previous: Option<Metrics>,
                     money: real -> string, general: real -> string): (r: string)
    ensures previous.None? || previous.value == [] || metricId !in KeysOf(previous.value) ==> r == "--"
    ensures previous.Some? && metricId in KeysOf(previous.value) ==>
      r == FormatDelta(metricId, GetOr(metrics, metricId, 0.0), ValueOf(previous.value, metricId).value, money, general)
  {
    if previous.Some? && previous.value != [] && ValueOf(previous.value, metricId).Some? then
      FormatDelta(metricId, GetOr(metrics, metricId, 0.0), ValueOf(previous.value, metricId).value, money, general)
    else "--"
  }

  /** `json.dumps(entries) + "\n"` read back by `json.loads`. */
  ghost predicate RoundTrips(parse: string -> Option<seq<Snapshot>>, dump: seq<Snapshot> -> string)
  {
    forall es :: parse(dump(es) + "\n") == Some(es)
  }

  /** `write_json_log`: the text written, the existing entries (none when
    * the log is missing or not JSON) followed by the snapshot. */
  function WriteJsonLog(file: Option<string>, snapshot: Snapshot,
                        parse: string -> Option<seq<Snapshot>>, dump: seq<Snapshot> -> string): string
  {
    var entries := if file.Some? && parse(file.value).Some? then parse(file.value).value else [];
    dump(entries + [snapshot]) + "\n"
  }

  /** Read back, the written log is the old log with the snapshot last; a
    * missing or corrupt log is replaced by the snapshot alone. */
  lemma WriteJsonLogAppends(file: Option<string>, snapshot: Snapshot,
                            parse: string -> Option<seq<Snapshot>>, dump: seq<Snapshot> -> string)
    requires RoundTrips(parse, dump)
    ensures file.Some? && parse(file.value).Some? ==>
      parse(WriteJsonLog(file, snapshot, parse, dump)) == Some(parse(file.value).value + [snapshot])
    ensures file.None? || parse(file.value).None? ==>
      parse(WriteJsonLog(file, snapshot, parse, dump)) == Some([snapshot])
  {
    var entries := if file.Some? && parse(file.value).Some? then parse(file.value).value else [];
    assert parse(dump(entries + [snapshot]) + "\n") == Some(entries + [snapshot]);
    assert [] + [snapshot] == [snapshot];
  }

  /** After a write, the previous snapshot of the next run is this one. */
  lemma NextPreviousIsThis(file: Option<string>, snapshot: Snapshot,
                           parse: string -> Option<seq<Snapshot>>, dump: seq<Snapshot> -> string)
    requires RoundTrips(parse, dump)
    ensures LoadPreviousSnapshot(Some(WriteJsonLog(file, snapshot, parse, dump)), parse) == Some(snapshot)
  {
    WriteJsonLogAppends(file, snapshot, parse, dump);
  }

  /** One line of the "Interpretation for Content" section. */
  datatype Note =
    | Leader(name: string, percent: real)
    | TrialsLever(name: string, trials: real, subscriptions: real)

  /** The leader line, when there are exactly two projects with some MRR:
    * the first project wins ties. */
  function LeaderNote(projects: seq<(string, Metrics)>): (r: seq<Note>)
    ensures |r| <= 1
    ensures |r| == 1 <==>
      (|projects| == 2 && GetOr(projects[0].1, "mrr", 0.0) + GetOr(projects[1].1, "mrr", 0.0) > 0.0)
    ensures |r| == 1 ==>
      && r[0].Leader?
      && (GetOr(projects[0].1, "mrr", 0.0) >= GetOr(projects[1].1, "mrr", 0.0) ==> r[0].name == projects[0].0)
      && (GetOr(projects[0].1, "mrr", 0.0) < GetOr(projects[1].1, "mrr", 0.0) ==> r[0].name == projects[1].0)
    ensures |r| == 1 ==>
      var mrr0 := GetOr(projects[0].1, "mrr", 0.0);
      var mrr1 := GetOr(projects[1].1, "mrr", 0.0);
      r[0].percent * (mrr0 + mrr1) == (if mrr0 >= mrr1 then mrr0 else mrr1) * 100.0
  {
    if |projects| != 2 then []
    else
      var mrr0 := GetOr(projects[0].1, "mrr", 0.0);
      var mrr1 := GetOr(projects[1].1, "mrr", 0.0);
      var total := mrr0 + mrr1;
      if total > 0.0 then
        var leader := if mrr0 >= mrr1 then projects[0].0 else projects[1].0;
        var top := if mrr0 >= mrr1 then mrr0 else mrr1;
        [Leader(leader, top / total * 100.0)]
      else []
  }

  /** A project has more trials than subscribers, and some subscribers. */
  predicate TrialsHeavy(m: Metrics)
  {
    GetOr(m, "active_trials", 0.0) > GetOr(m, "active_subscriptions", 0.0) > 0.0
  }

  /** The trials line of a project. */
  function LeverOf(p: (string, Metrics)): Note
  {
    TrialsLever(p.0, GetOr(p.1, "active_trials", 0.0), GetOr(p.1, "active_subscriptions", 0.0))
  }

  /** The trials-versus-subscribers lines, one per such project, in order. */
  function TrialNotes(projects: seq<(string, Metrics)>): (r: seq<Note>)
    ensures |r| <= |projects|
    ensures forall k :: 0 <= k < |r| ==> r[k].TrialsLever?
  {
    if projects == [] then []
    else
      var p := projects[|projects| - 1];
      TrialNotes(projects[..|projects| - 1]) + (if TrialsHeavy(p.1) then [LeverOf(p)] else [])
  }

  /** Every trials-heavy project gets its line. */
  lemma {:induction false} TrialNotesComplete(projects: seq<(string, Metrics)>)
    ensures forall p :: p in projects && TrialsHeavy(p.1) ==> LeverOf(p) in TrialNotes(projects)
  {
    if projects != [] {
      var init := projects[..|projects| - 1];
      TrialNotesComplete(init);
      assert forall p :: p in projects ==> p in init || p == projects[|projects| - 1];
    }
  }

  /** Every trials line belongs to a trials-heavy project. */
  lemma {:induction false} TrialNotesSound(projects: seq<(string, Metrics)>)
    ensures forall n :: n in TrialNotes(projects) ==> exists p :: p in projects && TrialsHeavy(p.1) && n == LeverOf(p)
  {
    if projects != [] {
      var init := projects[..|projects| - 1];
      var last := projects[|projects| - 1];
      TrialNotesSound(init);
      forall n | n in TrialNotes(projects) ensures exists p :: p in projects && TrialsHeavy(p.1) && n == LeverOf(p) {
        if n in TrialNotes(init) {
          var p :| p in init && TrialsHeavy(p.1) && n == LeverOf(p);
          assert p in projects;
        } else {
          assert last in projects;
        }
      }
    }
  }

  /** The interpretation section: the leader line, then the trial lines,
    * both only with exactly two projects. */
  function Interpretation(projects: seq<(string, Metrics)>): (r: seq<Note>)
    ensures |projects| != 2 ==> r == []
    ensures |projects| == 2 ==> r == LeaderNote(projects) + TrialNotes(projects)
  {
    if |projects| == 2 then LeaderNote(projects) + TrialNotes(projects) else []
  }

  /** One configured app: its display name and the credentials from the
    * environment (empty when unset). */
  datatype Project = Project(name: string, title: string, key: string, projectId: string)

  /** `--project`: one app by name, or every app. */
  datatype Targets = BadChoice | Chosen(targets: seq<Project>)

  function SelectTargets(all: seq<Project>, only: Option<string>): (r: Targets)
    ensures only.None? ==> r == Chosen(all)
    ensures r.BadChoice? <==> only.Some? && forall i :: 0 <= i < |all| ==> all[i].name != only.value
    ensures only.Some? && r.Chosen? ==> |r.targets| == 1 && r.targets[0] in all && r.targets[0].name == only.value
  {
    if only.None? then Chosen(all)
    else if all == [] then BadChoice
    else if all[0].name == only.value then Chosen([all[0]])
    else
      var rest := SelectTargets(all[1..], only);
      assert forall i :: 1 <= i < |all| ==> all[i] == all[1..][i - 1];
      rest
  }

  /** The fetch loop's result: the metrics of each app that answered, and
    * the names of the apps skipped or failed. */
  function Collect(targets: seq<Project>, fetch: (string, string) -> Option<seq<(string, real)>>):
    (r: (seq<(string, Metrics)>, seq<string>))
    ensures |r.0| + |r.1| == |targets|
  {
    if targets == [] then ([], [])
    else
      var prior := Collect(targets[..|targets| - 1], fetch);
      var t := targets[|targets| - 1];
      if t.key == "" || t.projectId == "" then (prior.0, prior.1 + [t.name])
      else
        var answer := fetch(t.projectId, t.key);
        if answer.None? then (prior.0, prior.1 + [t.name])
        else (prior.0 + [(t.name, FetchOverview(answer.value))], prior.1)
  }

  /** An app without credentials is never fetched and is named among the
    * errors; one that answers has its tracked metrics in the snapshot. */
  lemma CollectSorts(targets: seq<Project>, fetch: (string, string) -> Option<seq<(string, real)>>)
    ensures forall i :: 0 <= i < |targets| && (targets[i].key == "" || targets[i].projectId == "") ==>
      targets[i].name in Collect(targets, fetch).1
    ensures forall i :: (0 <= i < |targets| && targets[i].key != "" && targets[i].projectId != ""
                         && fetch(targets[i].projectId, targets[i].key).Some?) ==>
      (targets[i].name, FetchOverview(fetch(targets[i].projectId, targets[i].key).value)) in Collect(targets, fetch).0
    ensures forall p :: p in Collect(targets, fetch).0 ==>
      exists i :: 0 <= i < |targets| && targets[i].name == p.0 && targets[i].key != "" && targets[i].projectId != ""
  {
    CollectSkips(targets, fetch);
    CollectKeeps(targets, fetch);
    CollectOnlyFetched(targets, fetch);
  }

  lemma {:induction false} CollectSkips(targets: seq<Project>, fetch: (string, string) -> Option<seq<(string, real)>>)
    ensures forall i :: 0 <= i < |targets| && (targets[i].key == "" || targets[i].projectId == "") ==>
      targets[i].name in Collect(targets, fetch).1
  {
    if targets != [] {
      var init := targets[..|targets| - 1];
      CollectSkips(init, fetch);
      forall i | 0 <= i < |init| ensures init[i] == targets[i] { }
    }
  }

  lemma {:induction false} CollectKeeps(targets: seq<Project>, fetch: (string, string) -> Option<seq<(string, real)>>)
    ensures forall i :: (0 <= i < |targets| && targets[i].key != "" && targets[i].projectId != ""
                         && fetch(targets[i].projectId, targets[i].key).Some?) ==>
      (targets[i].name, FetchOverview(fetch(targets[i].projectId, targets[i].key).value)) in Collect(targets, fetch).0
  {
    if targets != [] {
      var init := targets[..|targets| - 1];
      CollectKeeps(init, fetch);
      forall i | 0 <= i < |init| ensures init[i] == targets[i] { }
    }
  }

  lemma {:induction false} CollectOnlyFetched(targets: seq<Project>, fetch: (string, string) -> Option<seq<(string, real)>>)
    ensures forall p :: p in Collect(targets, fetch).0 ==>
      exists i :: 0 <= i < |targets| && targets[i].name == p.0 && targets[i].key != "" && targets[i].projectId != ""
  {
    if targets != [] {
      var init := targets[..|targets| - 1];
      CollectOnlyFetched(init, fetch);
      forall p | p in Collect(targets, fetch).0
        ensures exists i :: 0 <= i < |targets| && targets[i].name == p.0 && targets[i].key != "" && targets[i].projectId != ""
      {
        if p !in Collect(init, fetch).0 {
          assert targets[|targets| - 1].name == p.0;
        } else {
          var i :| 0 <= i < |init| && init[i].name == p.0 && init[i].key != "" && init[i].projectId != "";
          assert targets[i] == init[i];
        }
      }
    }
  }

  /** How a run of the script ends. */
  datatype Outcome =
    | UsageError
    | AllFailed(errors: seq<string>)
    | DryRun(snapshot: Snapshot, errors: seq<string>)
    | Logged(snapshot: Snapshot, previous: Option<Snapshot>, log: string, errors: seq<string>)

  /** The fetch loop of `main`: each app with both credentials is asked
    * for its overview, and the apps skipped or failed are named. */
  method FetchAll(targets: seq<Project>, fetch: (string, string) -> Option<seq<(string, real)>>)
    returns (projects: seq<(string, Metrics)>, errors: seq<string>)
    ensures (projects, errors) == Collect(targets, fetch)
  {
    projects, errors := [], [];
    for i := 0 to |targets|
      invariant (projects, errors) == Collect(targets[..i], fetch)
    {
      assert targets[..i + 1][..i] == targets[..i];
      var t := targets[i];
      if t.key == "" || t.projectId == "" {
        errors := errors + [t.name];
        continue;
      }
      var answer := fetch(t.projectId, t.key);
      if answer.None? {
        errors := errors + [t.name];
      } else {
        projects := projects + [(t.name, FetchOverview(answer.value))];
      }
    }
    assert targets[..|targets|] == targets;
  }

  /** `main`: the apps are fetched in order, skipping those without
    * credentials; with no app fetched the run fails; a dry run writes
    * nothing; otherwise the log gets the snapshot. */
  method FetchAndLog(all: seq<Project>, only: Option<string>, dryRun: bool, timestamp: string,
              fetch: (string, string) -> Option<seq<(string, real)>>,
              logFile: Option<string>, parse: string -> Option<seq<Snapshot>>, dump: seq<Snapshot> -> string)
    returns (outcome: Outcome)
    ensures SelectTargets(all, only).BadChoice? <==> outcome.UsageError?
    ensures SelectTargets(all, only).Chosen? ==>
      var c := Collect(SelectTargets(all, only).targets, fetch);
      && (c.0 == [] <==> outcome.AllFailed?)
      && (outcome.AllFailed? ==> outcome.errors == c.1)
      && (outcome.DryRun? ==> dryRun && outcome == DryRun(Snapshot(timestamp, c.0), c.1))
      && (outcome.Logged? ==>
            && !dryRun && outcome.snapshot == Snapshot(timestamp, c.0) && outcome.errors == c.1
            && outcome.previous == LoadPreviousSnapshot(logFile, parse)
            && outcome.log == WriteJsonLog(logFile, outcome.snapshot, parse, dump))
  {
    var selected := SelectTargets(all, only);
    if selected.BadChoice? {
      return UsageError;
    }
    var projects, errors := FetchAll(selected.targets, fetch);
    if projects == [] {
      return AllFailed(errors);
    }
    var snapshot := Snapshot(timestamp, projects);
    if dryRun {
      return DryRun(snapshot, errors);
    }
    var previous := LoadPreviousSnapshot(logFile, parse);
    var log := WriteJsonLog(logFile, snapshot, parse, dump);
    outcome := Logged(snapshot, previous, log, errors);
  }
}
