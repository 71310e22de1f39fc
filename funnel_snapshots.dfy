/** The dashboard's funnel snapshot log: listing the snapshots of the
  * JSON-lines file, all of them or one app's, and appending a snapshot
  * built from a funnel. The file is a value (absent or its text), the
  * clock's date and the JSON encoding are parameters. */
module FunnelSnapshots {
  import opened Common
  import PosthogClient

  /** A parsed line of the log: a JSON object, known by its "app" field when
    * that is a string, or another JSON value, known by its Python type name. */
  datatype Entry = Object(app: Option<string>, body: string) | NotObject(typeName: string)

  /** What `entry.get("app")` raises on a value that is not an object. */
  function NoGet(e: Entry): string
    requires e.NotObject?
  {
    "AttributeError: '" + e.typeName + "' object has no attribute 'get'"
  }

  /** Whether the filter keeps an entry; only ever asked of objects when an
    * app is given. */
  predicate Keeps(e: Entry, app: Option<string>)
  {
    app.None? || (e.Object? && e.app == app)
  }

  /** The entries listed for `app`, in file order: all of them without an
    * app; with one, the objects whose "app" is that app, unless an entry is
    * not an object, which raises at the first such entry. */
  function Matching(entries: seq<Entry>, app: Option<string>): (r: Result<seq<Entry>>)
    ensures app.None? ==> r == Ok(entries)
    ensures r.Ok? ==> |r.value| <= |entries|
  {
    if entries == [] then Ok([])
    else
      var e := entries[0];
      var rest := Matching(entries[1..], app);
      if app.Some? && e.NotObject? then Err(NoGet(e))
      else if rest.Err? then rest
      else
        assert app.None? ==> entries == [e] + rest.value;
        Ok((if Keeps(e, app) then [e] else []) + rest.value)
  }

  /** For an app: the listing fails exactly when some entry is not an
    * object, and otherwise holds exactly that app's objects. */
  lemma {:induction false} MatchingForApp(entries: seq<Entry>, app: string)
    ensures Matching(entries, Some(app)).Err? <==> exists i :: 0 <= i < |entries| && entries[i].NotObject?
    ensures Matching(entries, Some(app)).Ok? ==>
              forall e :: e in Matching(entries, Some(app)).value <==> e in entries && e.Object? && e.app == Some(app)
    ensures Matching(entries, Some(app)).Ok? ==>
              Matching(entries, Some(app)).value == Filter(entries, e => Keeps(e, Some(app)))
  {
    if entries != [] {
      MatchingForApp(entries[1..], app);
      assert forall i :: 1 <= i < |entries| ==> entries[i] == entries[1..][i - 1];
      assert entries == [entries[0]] + entries[1..];
    }
  }

  /** The listing loop from an entry on, with what it has kept so far. */
  function MatchFrom(entries: seq<Entry>, app: Option<string>, found: seq<Entry>): Result<seq<Entry>>
  {
    if entries == [] then Ok(found)
    else if app.Some? && entries[0].NotObject? then Err(NoGet(entries[0]))
    else MatchFrom(entries[1..], app, found + (if Keeps(entries[0], app) then [entries[0]] else []))
  }

  lemma {:induction false} MatchFromMatching(entries: seq<Entry>, app: Option<string>, found: seq<Entry>)
    ensures var m := Matching(entries, app);
            MatchFrom(entries, app, found) == if m.Err? then m else Ok(found + m.value)
  {
    if entries == [] {
      assert found + [] == found;
    } else {
      var e := entries[0];
      var kept := if Keeps(e, app) then [e] else [];
      MatchFromMatching(entries[1..], app, found + kept);
      var m := Matching(entries[1..], app);
      if m.Ok? {
        assert found + kept + m.value == found + (kept + m.value);
      }
    }
  }

  /** The entries of some lines, read from the first line on. */
  function EntriesFrom(lines: seq<string>, parse: string -> Option<Entry>): seq<Entry>
  {
    if lines == [] then [] else JsonlLine(lines[0], parse) + EntriesFrom(lines[1..], parse)
  }

  lemma {:induction false} EntriesFromParsed(lines: seq<string>, parse: string -> Option<Entry>)
    ensures EntriesFrom(lines, parse) == ParseJsonl(lines, parse)
  {
    if lines != [] {
      EntriesFromParsed(lines[1..], parse);
      assert lines == [lines[0]] + lines[1..];
      ParseJsonlAppend([lines[0]], lines[1..], parse);
      ParseJsonlOne(lines[0], parse);
    }
  }

  /** The log's entries, as `list_snapshots` reads them: the text stripped,
    * split into lines, blank and malformed lines skipped. */
  function LogEntries(file: string, parse: string -> Option<Entry>): seq<Entry>
  {
    ParseJsonl(SplitLines(Strip(file)), parse)
  }

  function Listed(file: Option<string>, app: Option<string>, parse: string -> Option<Entry>): Result<seq<Entry>>
  {
    if file.None? then Ok([]) else Matching(LogEntries(file.value, parse), app)
  }

  /** One line of the log: nothing when it is blank or not JSON. */
  method ReadEntry(line: string, parse: string -> Option<Entry>) returns (e: Option<Entry>)
    ensures e.None? ==> JsonlLine(line, parse) == []
    ensures e.Some? ==> JsonlLine(line, parse) == [e.value]
  {
    if Strip(line) == "" {
      return None;
    }
    e := parse(line);
  }

  /** `list_snapshots` */
  method ListSnapshots(file: Option<string>, app: Option<string>, parse: string -> Option<Entry>)
    returns (entries: Result<seq<Entry>>)
    ensures entries == Listed(file, app, parse)
  {
    if file.None? {
      return Ok([]);
    }
    entries := ListLines(SplitLines(Strip(file.value)), app, parse);
  }

  /** One step of the listing loop, on the entry read from line `i`. */
  lemma ListStep(lines: seq<string>, parse: string -> Option<Entry>, app: Option<string>, i: nat,
                 e: Option<Entry>, found: seq<Entry>)
    requires i < |lines|
    requires e.None? ==> JsonlLine(lines[i], parse) == []
    requires e.Some? ==> JsonlLine(lines[i], parse) == [e.value]
    ensures e.None? ==> MatchFrom(EntriesFrom(lines[i..], parse), app, found)
                        == MatchFrom(EntriesFrom(lines[i + 1..], parse), app, found)
    ensures e.Some? && app.Some? && e.value.NotObject? ==>
              MatchFrom(EntriesFrom(lines[i..], parse), app, found) == Err(NoGet(e.value))
    ensures e.Some? && !(app.Some? && e.value.NotObject?) && Keeps(e.value, app) ==>
              MatchFrom(EntriesFrom(lines[i..], parse), app, found)
              == MatchFrom(EntriesFrom(lines[i + 1..], parse), app, found + [e.value])
    ensures e.Some? && !(app.Some? && e.value.NotObject?) && !Keeps(e.value, app) ==>
              MatchFrom(EntriesFrom(lines[i..], parse), app, found)
              == MatchFrom(EntriesFrom(lines[i + 1..], parse), app, found)
  {
    assert lines[i..][0] == lines[i] && lines[i..][1..] == lines[i + 1..];
    var rest := EntriesFrom(lines[i + 1..], parse);
    if e.None? {
      assert EntriesFrom(lines[i..], parse) == [] + rest;
      assert [] + rest == rest;
    } else {
      var here := [e.value] + rest;
      assert EntriesFrom(lines[i..], parse) == here;
      assert here[0] == e.value && here[1..] == rest;
      assert found + [] == found;
    }
  }

  /** The loop of `list_snapshots` over the log's lines. */
  method ListLines(lines: seq<string>, app: Option<string>, parse: string -> Option<Entry>)
    returns (entries: Result<seq<Entry>>)
    ensures entries == Matching(ParseJsonl(lines, parse), app)
  {
    EntriesFromParsed(lines, parse);
    ghost var whole := MatchFrom(EntriesFrom(lines, parse), app, []);
    MatchFromMatching(EntriesFrom(lines, parse), app, []);
    ghost var m := Matching(EntriesFrom(lines, parse), app);
    assert m.Ok? ==> [] + m.value == m.value;
    var found: seq<Entry> := [];
    var i := 0;
    while i < |lines|
      invariant i <= |lines|
      invariant MatchFrom(EntriesFrom(lines[i..], parse), app, found) == whole
    {
      var e := ReadEntry(lines[i], parse);
      ListStep(lines, parse, app, i, e, found);
      if e.Some? {
        if app.Some? && e.value.NotObject? {
          return Err(NoGet(e.value));
        }
        if Keeps(e.value, app) {
          found := found + [e.value];
        }
      }
      i := i + 1;
    }
    assert lines[|lines|..] == [];
    return Ok(found);
  }

  /** A saved snapshot: its UTC date, app, range, overall conversion, first
    * and last step counts, the steps, and the pending changes noted. */
  datatype Snapshot = Snapshot(date: string, app: string, range: string, overallConversion: real,
                               started: int, completed: int, steps: seq<PosthogClient.FunnelStep>,
                               changesPending: seq<string>)

  /** The funnel posted to be saved: its "steps" and "overall_conversion"
    * when present. */
  datatype FunnelData = FunnelData(steps: Option<seq<PosthogClient.FunnelStep>>, overallConversion: Option<real>)

  /** The snapshot `save_snapshot` records. */
  function SnapshotOf(app: string, funnel: FunnelData, notes: Option<string>, today: string): (r: Snapshot)
    ensures r.app == app && r.date == today && r.range == "30d"
    ensures r.steps == (if funnel.steps.Some? then funnel.steps.value else [])
    ensures r.steps == [] ==> r.started == 0 && r.completed == 0
    ensures r.steps != [] ==> r.started == r.steps[0].count && r.completed == r.steps[|r.steps| - 1].count
    ensures r.changesPending == (if notes.Some? && notes.value != "" then [notes.value] else [])
    ensures r.overallConversion == (if funnel.overallConversion.Some? then funnel.overallConversion.value else 0.0)
  {
    var steps := if funnel.steps.Some? then funnel.steps.value else [];
    Snapshot(today, app, "30d",
             if funnel.overallConversion.Some? then funnel.overallConversion.value else 0.0,
             if steps != [] then steps[0].count else 0,
             if steps != [] then steps[|steps| - 1].count else 0,
             steps,
             if notes.Some? && notes.value != "" then [notes.value] else [])
  }

  /** `save_snapshot`: the snapshot is appended to the log as one JSON line,
    * and the snapshot returned is the one written. */
  method SaveSnapshot(file: Option<string>, app: string, funnel: FunnelData, notes: Option<string>,
                      today: string, dumps: Snapshot -> string)
    returns (snapshot: Snapshot, written: string)
    ensures snapshot == SnapshotOf(app, funnel, notes, today)
    ensures written == (if file.Some? then file.value else "") + dumps(snapshot) + "\n"
  {
    snapshot := SnapshotOf(app, funnel, notes, today);
    var before := if file.Some? then file.value else "";
    written := before + dumps(snapshot) + "\n";
  }

  /** Appending keeps the old text as it was and ends the file with the new
    * record's line. */
  lemma SavedLineLast(file: Option<string>, snapshot: Snapshot, dumps: Snapshot -> string)
    requires file.Some? ==> file.value == "" || file.value[|file.value| - 1] == '\n'
    requires '\n' !in dumps(snapshot)
    ensures var before := if file.Some? then file.value else "";
            var lines := SplitLines(before + dumps(snapshot) + "\n");
            lines == SplitLines(before) + [dumps(snapshot)]
  {
    var before := if file.Some? then file.value else "";
    LineAppended(before, dumps(snapshot));
  }

  lemma LineAppended(before: string, line: string)
    requires before == "" || before[|before| - 1] == '\n'
    requires '\n' !in line
    ensures SplitLines(before + line + "\n") == SplitLines(before) + [line]
  {
    var rest := line + "\n";
    SplitNoSep(line, '\n');
    SplitAppend(line, '\n', "");
    assert line + ['\n'] + "" == rest;
    assert Split(rest, '\n') == [line, ""];
    AppendAssoc(before, line, "\n");
    var t := before + rest;
    if before == "" {
      assert t == rest;
    } else {
      var body := before[..|before| - 1];
      assert before == body + ['\n'] + "";
      SplitAppend(body, '\n', "");
      assert SplitLines(before) == Split(body, '\n');
      assert t == body + ['\n'] + rest;
      SplitAppend(body, '\n', rest);
      var parts := Split(body, '\n');
      assert Split(t, '\n') == parts + [line, ""];
      assert (parts + [line, ""])[..|parts| + 1] == parts + [line];
    }
  }
}
