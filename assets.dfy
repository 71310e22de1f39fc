/** The dashboard's asset endpoints: the reference-image and clip listings,
  * the asset-usage table read from memory, and the guarded file server.
  * A directory is given as its entries (none when it does not exist); the
  * file system as the set of resolved paths that are regular files. */
module AssetsRouter {
  import opened Common
  import opened Sorting
  import opened Paths
  import opened Autopilot
  import LogReader

  /** One entry of a directory listing. */
  datatype Entry = Entry(name: string, isFile: bool)

  function NameOf(e: Entry): string
  {
    e.name
  }

  /** `sorted(dir.iterdir())`: entries of one directory sort by name. */
  function Sorted(entries: seq<Entry>): (r: seq<Entry>)
    ensures multiset(r) == multiset(entries)
    ensures SortedBy(r, NameOf)
  {
    SortBy(entries, NameOf)
  }

  predicate IsImage(name: string)
  {
    var s := Lower(Suffix(name));
    s == ".png" || s == ".jpg" || s == ".jpeg"
  }

  predicate IsClip(name: string)
  {
    var s := Lower(Suffix(name));
    s == ".mp4" || s == ".mov"
  }

  /** The first persona, in the configured order, the name starts with. */
  function InferPersona(name: string, personas: seq<string>): (r: Option<string>)
    ensures r.Some? ==> r.value in personas && StartsWith(name, r.value)
    ensures r.None? <==> forall k :: 0 <= k < |personas| ==> !StartsWith(name, personas[k])
    ensures r.Some? ==> exists i :: 0 <= i < |personas| && personas[i] == r.value
                          && forall j :: 0 <= j < i ==> !StartsWith(name, personas[j])
  {
    if personas == [] then None
    else if StartsWith(name, personas[0]) then Some(personas[0])
    else
      var r := InferPersona(name, personas[1..]);
      if r.Some? then
        var i :| 0 <= i < |personas[1..]| && personas[1..][i] == r.value
                 && forall j :: 0 <= j < i ==> !StartsWith(name, personas[1..][j]);
        assert personas[i + 1] == r.value;
        r
      else r
  }

  datatype RefImage = RefImage(name: string, path: string, persona: Option<string>)

  function RefImageOf(e: Entry): RefImage
  {
    RefImage(e.name, "reference-images/" + e.name, InferPersona(e.name, LogReader.Personas))
  }

  /** A file with an image suffix. */
  predicate ImageFile(e: Entry)
  {
    e.isFile && IsImage(e.name)
  }

  /** The image files among `entries`, in their order. */
  function RefImages(entries: seq<Entry>): (r: seq<RefImage>)
    ensures |r| <= |entries|
  {
    if entries == [] then []
    else
      var e := entries[|entries| - 1];
      RefImages(entries[..|entries| - 1]) + (if ImageFile(e) then [RefImageOf(e)] else [])
  }

  /** Every listed image is a file of the directory with an image suffix,
    * served under "reference-images/". */
  lemma {:induction false} RefImagesAreImages(entries: seq<Entry>)
    ensures forall im :: im in RefImages(entries) ==>
      Entry(im.name, true) in entries && IsImage(im.name) && im.path == "reference-images/" + im.name
  {
    if entries != [] {
      RefImagesAreImages(entries[..|entries| - 1]);
    }
  }

  /** Every image file of the listing is listed, in order and as often as
    * it occurs, and nothing else is. */
  lemma {:induction false} RefImagesAreImageFiles(entries: seq<Entry>)
    ensures var files := Filter(entries, ImageFile);
            |RefImages(entries)| == |files| && forall k :: 0 <= k < |files| ==> RefImages(entries)[k] == RefImageOf(files[k])
  {
    if entries != [] {
      var n := |entries| - 1;
      RefImagesAreImageFiles(entries[..n]);
      assert entries == entries[..n] + [entries[n]];
      FilterAppend(entries[..n], [entries[n]], ImageFile);
      FilterOne(entries[n], ImageFile);
    }
  }

  /** `list_reference_images` */
  method ListReferenceImages(dir: Option<seq<Entry>>) returns (images: seq<RefImage>)
    ensures dir.None? ==> images == []
    ensures dir.Some? ==> images == RefImages(Sorted(dir.value))
  {
    images := [];
    if dir.None? {
      return;
    }
    var entries := Sorted(dir.value);
    for i := 0 to |entries|
      invariant images == RefImages(entries[..i])
    {
      assert entries[..i + 1][..i] == entries[..i];
      var f := entries[i];
      if ImageFile(f) {
        images := images + [RefImageOf(f)];
      }
    }
    assert entries[..|entries|] == entries;
  }

  datatype Clip = Clip(name: string, path: string, persona: string, clipType: string)

  /** A file with a clip suffix. */
  predicate ClipFile(e: Entry)
  {
    e.isFile && IsClip(e.name)
  }

  /** The clip files of one persona's directory of one type. */
  function ClipsIn(entries: seq<Entry>, persona: string, clipType: string): (r: seq<Clip>)
    ensures |r| <= |entries|
  {
    if entries == [] then []
    else
      var e := entries[|entries| - 1];
      ClipsIn(entries[..|entries| - 1], persona, clipType)
      + (if ClipFile(e) then [ClipOf(e, persona, clipType)] else [])
  }

  /** The clip of entry `e` in the directory of `persona` and `clipType`. */
  function ClipOf(e: Entry, persona: string, clipType: string): Clip
  {
    Clip(e.name, persona + "/" + clipType + "/" + e.name, persona, clipType)
  }

  /** Every listed clip is a file of the directory with a clip suffix,
    * under the directory's persona and type and its "persona/type/name" path. */
  lemma {:induction false} ClipsInAreClips(entries: seq<Entry>, persona: string, clipType: string)
    ensures forall c :: c in ClipsIn(entries, persona, clipType) ==>
      && c.persona == persona && c.clipType == clipType && IsClip(c.name)
      && c.path == persona + "/" + clipType + "/" + c.name
      && Entry(c.name, true) in entries
  {
    if entries != [] {
      var n := |entries| - 1;
      ClipsInAreClips(entries[..n], persona, clipType);
      assert forall x :: x in entries[..n] ==> x in entries;
    }
  }

  /** Every clip file of the directory is listed, in order and as often as
    * it occurs, under the persona and type of the directory. */
  lemma {:induction false} ClipsInAreClipFiles(entries: seq<Entry>, persona: string, clipType: string)
    ensures var files := Filter(entries, ClipFile);
            && |ClipsIn(entries, persona, clipType)| == |files|
            && forall k :: 0 <= k < |files| ==>
                 ClipsIn(entries, persona, clipType)[k] == ClipOf(files[k], persona, clipType)
  {
    if entries != [] {
      var n := |entries| - 1;
      ClipsInAreClipFiles(entries[..n], persona, clipType);
      assert entries == entries[..n] + [entries[n]];
      FilterAppend(entries[..n], [entries[n]], ClipFile);
      FilterOne(entries[n], ClipFile);
    }
  }

  const ClipTypes: seq<string> := ["hook", "reaction"]

  /** The (persona, type) directories in the order they are visited. */
  function Dirs(personas: seq<string>): (r: seq<(string, string)>)
    ensures |r| == 2 * |personas|
    ensures forall k :: 0 <= k < |personas| ==> r[2 * k] == (personas[k], "hook") && r[2 * k + 1] == (personas[k], "reaction")
  {
    if personas == [] then []
    else Dirs(personas[..|personas| - 1]) + [(personas[|personas| - 1], "hook"), (personas[|personas| - 1], "reaction")]
  }

  /** The clips of the directories `dirs`, missing ones skipped. */
  function ClipsOf(dirs: seq<(string, string)>, clipDir: (string, string) -> Option<seq<Entry>>): seq<Clip>
  {
    if dirs == [] then []
    else
      var d := dirs[|dirs| - 1];
      var listing := clipDir(d.0, d.1);
      ClipsOf(dirs[..|dirs| - 1], clipDir) + (if listing.None? then [] else ClipsIn(Sorted(listing.value), d.0, d.1))
  }

  /** Each listed clip comes from one of the visited directories and is a
    * clip file there. */
  lemma {:induction false} ClipsOfFrom(dirs: seq<(string, string)>, clipDir: (string, string) -> Option<seq<Entry>>)
    ensures forall c :: c in ClipsOf(dirs, clipDir) ==>
      (c.persona, c.clipType) in dirs && IsClip(c.name) && c.path == c.persona + "/" + c.clipType + "/" + c.name
  {
    if dirs != [] {
      var d := dirs[|dirs| - 1];
      ClipsOfFrom(dirs[..|dirs| - 1], clipDir);
      if clipDir(d.0, d.1).Some? {
        ClipsInAreClips(Sorted(clipDir(d.0, d.1).value), d.0, d.1);
      }
    }
  }

  /** `list_clips`: persona by persona, hook clips before reaction clips. */
  method ListClips(clipDir: (string, string) -> Option<seq<Entry>>) returns (clips: seq<Clip>)
    ensures clips == ClipsOf(Dirs(LogReader.Personas), clipDir)
  {
    clips := ListClipsIn(Dirs(LogReader.Personas), clipDir);
  }

  /** The loop of `list_clips` over the directories `dirs`, in order. */
  method ListClipsIn(dirs: seq<(string, string)>, clipDir: (string, string) -> Option<seq<Entry>>)
    returns (clips: seq<Clip>)
    ensures clips == ClipsOf(dirs, clipDir)
  {
    clips := [];
    for i := 0 to |dirs|
      invariant clips == ClipsOf(dirs[..i], clipDir)
    {
      assert dirs[..i + 1][..i] == dirs[..i];
      var listing := clipDir(dirs[i].0, dirs[i].1);
      if listing.Some? {
        clips := clips + ClipsIn(Sorted(listing.value), dirs[i].0, dirs[i].1);
      }
    }
    assert dirs[..|dirs|] == dirs;
  }

  /** The header of the usage table: a "|" line naming Date and Account. */
  predicate IsHeader(line: string)
  {
    StartsWith(line, "|") && Contains(line, "Date") && Contains(line, "Account")
  }

  /** A table line with at least five cells. */
  function TableRow(line: string): (r: Option<UsageEntry>)
  {
    var parts := StripAll(InnerCells(line));
    if |parts| >= 5 then Some(UsageEntry(parts[0], parts[1], parts[2], parts[3], parts[4])) else None
  }

  /** Whether the table is open after the (stripped) line. */
  function NextInTable(line: string, inTable: bool): bool
  {
    if IsHeader(line) then true
    else if StartsWith(line, "|---") then inTable
    else inTable && StartsWith(line, "|")
  }

  /** The row the (stripped) line contributes. */
  function RowOf(line: string, inTable: bool): seq<UsageEntry>
  {
    if IsHeader(line) || StartsWith(line, "|---") || !inTable || !StartsWith(line, "|") then []
    else
      var row := TableRow(line);
      if row.Some? then [row.value] else []
  }

  /** The rows `get_asset_usage` collects from the stripped lines, given
    * whether a table is open before them. */
  function TableRows(lines: seq<string>, inTable: bool): seq<UsageEntry>
  {
    if lines == [] then []
    else RowOf(lines[0], inTable) + TableRows(lines[1..], NextInTable(lines[0], inTable))
  }

  /** `get_asset_usage`: the file's lines, each stripped, scanned once with
    * an open-table flag. */
  method GetAssetUsage(file: Option<string>) returns (rows: seq<UsageEntry>)
    ensures file.None? ==> rows == []
    ensures file.Some? ==> rows == TableRows(StripAll(Split(file.value, '\n')), false)
  {
    rows := [];
    if file.None? {
      return;
    }
    rows := ScanLines(Split(file.value, '\n'));
  }

  /** The scan over the lines of the file, each stripped before it is
    * looked at. */
  method ScanLines(lines: seq<string>) returns (rows: seq<UsageEntry>)
    ensures rows == TableRows(StripAll(lines), false)
  {
    rows := [];
    ghost var stripped := StripAll(lines);
    var inTable := false;
    for i := 0 to |lines|
      invariant rows + TableRows(stripped[i..], inTable) == TableRows(stripped, false)
    {
      var line := Strip(lines[i]);
      StripAllAt(lines, i);
      TableRowsStep(stripped, i, inTable);
      var row;
      row, inTable := ScanLine(line, inTable);
      AppendAssoc(rows, row, TableRows(stripped[i + 1..], inTable));
      rows := rows + row;
    }
  }

  lemma TableRowsStep(lines: seq<string>, i: nat, inTable: bool)
    requires i < |lines|
    ensures TableRows(lines[i..], inTable)
      == RowOf(lines[i], inTable) + TableRows(lines[i + 1..], NextInTable(lines[i], inTable))
  {
    assert lines[i..][1..] == lines[i + 1..];
  }

  /** The body of the scan for one stripped line: the row it yields and
    * whether the table is open after it. */
  method ScanLine(line: string, inTable: bool) returns (row: seq<UsageEntry>, next: bool)
    ensures row == RowOf(line, inTable) && next == NextInTable(line, inTable)
  {
    row, next := [], inTable;
    if IsHeader(line) {
      next := true;
      return;
    }
    if StartsWith(line, "|---") {
      return;
    }
    if inTable && StartsWith(line, "|") {
      var parsed := TableRow(line);
      if parsed.Some? {
        row := [parsed.value];
      }
    } else if inTable && !StartsWith(line, "|") {
      next := false;
    }
  }

  lemma {:induction false} StripAllAt(lines: seq<string>, i: nat)
    requires i < |lines|
    ensures StripAll(lines)[i] == Strip(lines[i])
  {
    if i > 0 {
      StripAllAt(lines[1..], i - 1);
    }
  }

  /** Without a header naming both Date and Account no row is ever read:
    * the "| Date | Persona |" table of the video autopilot never shows. */
  lemma {:induction false} NoHeaderNoRows(lines: seq<string>)
    requires forall k :: 0 <= k < |lines| ==> !IsHeader(lines[k])
    ensures TableRows(lines, false) == []
  {
    if lines != [] {
      assert !IsHeader(lines[0]);
      NoHeaderNoRows(lines[1..]);
    }
  }

  /** The column line `save_asset_usage` writes opens the table. */
  lemma HeaderIsHeader()
    ensures IsHeader(HeaderLines[1])
  {
    var a := "| Date | Account";
    var b := " | Hook Clip" + " | Reaction Clip" + " | Screen Recording |";
    assert HeaderLines[1] == a + b;
    assert a[2..6] == "Date";
    ContainsAt(a, "Date", 2);
    assert a[9..16] == "Account";
    ContainsAt(a, "Account", 9);
    ContainsAppend(a, b, "Date");
    ContainsAppend(a, b, "Account");
    assert (a + b)[..1] == a[..1];
  }

  /** A text of bars and dashes holds no "Date". */
  lemma {:induction false} NoDate(s: string)
    requires forall k :: 0 <= k < |s| ==> s[k] == '|' || s[k] == '-'
    ensures !Contains(s, "Date")
  {
    if s != [] {
      if |s| >= 4 {
        assert s[..4][0] == s[0];
      }
      NoDate(s[1..]);
    }
  }

  /** The separator line is passed over without opening the table. */
  lemma SeparatorSkipped()
    ensures StartsWith(HeaderLines[2], "|---") && !IsHeader(HeaderLines[2])
  {
    var a := "|------|---------|-----------";
    var b := "|---------------";
    var c := "|-----------------|";
    assert HeaderLines[2] == a + b + c;
    assert a[..4] == "|---";
    assert forall k :: 0 <= k < |a| ==> a[k] == '|' || a[k] == '-';
    assert forall k :: 0 <= k < |b| ==> b[k] == '|' || b[k] == '-';
    assert forall k :: 0 <= k < |c| ==> c[k] == '|' || c[k] == '-';
    NoDate(HeaderLines[2]);
  }

  /** What the scan needs to know of a written row. */
  lemma RowFacts(e: UsageEntry)
    requires WellFormed(e)
    ensures IsStripped(FormatRow(e))
    ensures StartsWith(FormatRow(e), "|") && !StartsWith(FormatRow(e), "|---")
    ensures TableRow(FormatRow(e)) == Some(e)
  {
    RowShape(e);
    RowCells(e);
  }

  lemma RowShape(e: UsageEntry)
    ensures IsStripped(FormatRow(e))
    ensures StartsWith(FormatRow(e), "|") && !StartsWith(FormatRow(e), "|---")
  {
    var row := FormatRow(e);
    RowStart(e);
    assert row[0] == '|' && row[1] == ' ';
    RowEnds(e);
    assert row[..1] == "|";
    assert |row| >= 4 ==> row[..4][1] != "|---"[1];
  }

  lemma RowEnds(e: UsageEntry)
    ensures FormatRow(e)[|FormatRow(e)| - 1] == '|'
  {
  }

  /** A written row in an open table is read back as its entry. */
  lemma RowReadBack(row: string, e: UsageEntry, rest: seq<string>)
    requires StartsWith(row, "|") && !StartsWith(row, "|---") && !IsHeader(row)
    requires TableRow(row) == Some(e)
    ensures TableRows([row] + rest, true) == [e] + TableRows(rest, true)
  {
    assert ([row] + rest)[1..] == rest;
  }

  /** An entry whose written row the scan reads back: well formed, and not
    * mistaken for a header because its row never says "Account". */
  predicate Writable(e: UsageEntry)
  {
    WellFormed(e) && !Contains(FormatRow(e), "Account")
  }

  /** A written entry at the head of an open table is read back first. */
  lemma WrittenRowReadBack(e: UsageEntry, rest: seq<string>)
    requires Writable(e)
    ensures TableRows([FormatRow(e)] + rest, true) == [e] + TableRows(rest, true)
  {
    RowFacts(e);
    RowReadBack(FormatRow(e), e, rest);
  }

  /** The written rows of a non-empty list: the first entry's row, then the rest. */
  lemma RowsCons(entries: seq<UsageEntry>)
    requires entries != []
    ensures Rows(entries) + [""] == [FormatRow(entries[0])] + (Rows(entries[1..]) + [""])
  {
  }

  /** Written rows followed by the final empty line read back in order. */
  lemma {:induction false} RowsReadBack(entries: seq<UsageEntry>)
    requires forall e :: e in entries ==> Writable(e)
    ensures TableRows(Rows(entries) + [""], true) == entries
  {
    if entries == [] {
      assert Rows(entries) + [""] == [""];
    } else {
      var e, tail := entries[0], entries[1..];
      var lines, rest := Rows(entries) + [""], Rows(tail) + [""];
      assert e in entries;
      assert forall x :: x in tail ==> x in entries;
      RowsReadBack(tail);
      RowsCons(entries);
      WrittenRowReadBack(e, rest);
      assert TableRows(lines, true) == [e] + TableRows(rest, true);
      assert entries == [e] + tail;
    }
  }

  /** Stripping lines that are stripped already changes none of them. */
  lemma {:induction false} StripAllStripped(lines: seq<string>)
    requires forall k :: 0 <= k < |lines| ==> IsStripped(lines[k])
    ensures StripAll(lines) == lines
  {
    if lines != [] {
      StripStripped(lines[0]);
      StripAllStripped(lines[1..]);
    }
  }

  /** The usage memory the text autopilot saves is read by the dashboard
    * as the same last 30 entries, provided no row mentions "Account". */
  lemma SavedUsageReadBack(entries: seq<UsageEntry>)
    requires forall e :: e in entries ==> Writable(e)
    ensures TableRows(StripAll(Split(SaveAssetUsage(entries), '\n')), false) == LastN(entries, 30)
  {
    var kept := LastN(entries, 30);
    forall e | e in kept ensures Writable(e) {
      assert e in entries;
    }
    var rows := Rows(kept);
    assert SaveAssetUsage(entries) == Join(HeaderLines + rows, "\n") + "\n";
    SavedLines(rows, kept);
    SavedLinesStripped(rows, kept);
    HeaderPassed(rows + [""]);
    RowsReadBack(kept);
  }

  /** The lines of the saved text: the header, the rows, an empty line. */
  lemma SavedLines(rows: seq<string>, kept: seq<UsageEntry>)
    requires forall e :: e in kept ==> WellFormed(e)
    requires rows == Rows(kept)
    ensures Split(Join(HeaderLines + rows, "\n") + "\n", '\n') == HeaderText + (rows + [""])
  {
    HeaderJoin(rows);
    RowsNoBreak(kept);
    HeaderNoBreak();
    var lines := HeaderText + rows;
    forall k | 0 <= k < |lines| ensures '\n' !in lines[k] {
      if k >= 4 { assert lines[k] == rows[k - 4]; }
    }
    SplitJoinLines(lines);
    AppendAssoc(HeaderText, rows, [""]);
  }

  /** Lines without breaks, each followed by a newline, split back into the
    * lines and a final empty part. */
  lemma SplitJoinLines(lines: seq<string>)
    requires lines != []
    requires forall k :: 0 <= k < |lines| ==> '\n' !in lines[k]
    ensures Split(Join(lines, "\n") + "\n", '\n') == lines + [""]
  {
    var ext := lines + [""];
    JoinSnoc(lines, "", "\n");
    assert Join(lines, "\n") + "\n" + "" == Join(lines, "\n") + "\n";
    forall k | 0 <= k < |ext| ensures '\n' !in ext[k] {
      if k < |lines| { assert ext[k] == lines[k]; }
    }
    SplitJoin(ext, '\n');
  }

  lemma SavedLinesStripped(rows: seq<string>, kept: seq<UsageEntry>)
    requires forall e :: e in kept ==> WellFormed(e)
    requires rows == Rows(kept)
    ensures StripAll(HeaderText + (rows + [""])) == HeaderText + (rows + [""])
  {
    forall k | 0 <= k < |rows| ensures IsStripped(rows[k]) {
      assert kept[k] in kept;
      RowFacts(kept[k]);
    }
    HeaderStripped();
    StripAllStripped(HeaderText + (rows + [""]));
  }

  lemma HeaderStripped()
    ensures forall k :: 0 <= k < 4 ==> IsStripped(HeaderText[k])
  {
    var t := HeaderText[0];
    assert t[0] == '#' && t[|t| - 1] == 'e';
    var a := "| Date | Account | Hook Clip";
    assert HeaderLines[1] == a + (" | Reaction Clip" + " | Screen Recording |");
    var b := "|------|---------|-----------";
    assert HeaderLines[2] == b + ("|---------------" + "|-----------------|");
  }

  /** The four header lines open the table and emit nothing. */
  lemma HeaderPassed(tail: seq<string>)
    ensures TableRows(HeaderText + tail, false) == TableRows(tail, true)
  {
    var h := HeaderText;
    var t3 := [h[3]] + tail;
    var t2 := [h[2]] + t3;
    var t1 := [h[1]] + t2;
    assert h + tail == [h[0]] + t1;
    assert h[0][0] == '#';
    assert TableRows([h[0]] + t1, false) == TableRows(t1, false) by {
      assert ([h[0]] + t1)[1..] == t1;
    }
    assert TableRows(t1, false) == TableRows(t2, false) by {
      assert t1[1..] == t2;
    }
    HeaderIsHeader();
    assert TableRows(t2, false) == TableRows(t3, true) by {
      assert t2[1..] == t3;
    }
    SeparatorSkipped();
    assert TableRows(t3, true) == TableRows(tail, true) by {
      assert t3[1..] == tail;
    }
  }

  /** The asset server's answer. */
  datatype Response = NotFound | Forbidden | Serve(path: seq<string>, mediaType: string)

  /** `media_types.get(suffix.lower(), "application/octet-stream")` */
  function MediaType(name: string): (r: string)
    ensures IsClip(name) ==> r == "video/mp4" || r == "video/quicktime"
    ensures !IsClip(name) && !IsImage(name) ==> r == "application/octet-stream"
    ensures r == "video/mp4" <==> Lower(Suffix(name)) == ".mp4"
    ensures r == "video/quicktime" <==> Lower(Suffix(name)) == ".mov"
    ensures r == "image/png" <==> Lower(Suffix(name)) == ".png"
    ensures r == "image/jpeg" <==> Lower(Suffix(name)) in {".jpg", ".jpeg"}
  {
    var s := Lower(Suffix(name));
    if s == ".mp4" then "video/mp4"
    else if s == ".mov" then "video/quicktime"
    else if s == ".png" then "image/png"
    else if s == ".jpg" || s == ".jpeg" then "image/jpeg"
    else "application/octet-stream"
  }

  /** The last component `Path` keeps of a path text. */
  function LastName(path: string): string
  {
    var parts := Split(path, '/');
    LastKept(parts)
  }

  function LastKept(parts: seq<string>): string
  {
    if parts == [] then ""
    else
      var p := parts[|parts| - 1];
      if p == "" || p == "." then LastKept(parts[..|parts| - 1]) else p
  }

  /** `serve_asset`: a missing file is 404, a file outside the assets
    * directory is 403, anything else is served with the media type of its
    * suffix. */
  function ServeAsset(cwd: seq<string>, assetsDir: string, filePath: string, files: set<seq<string>>): (r: Response)
    requires NormalForm(cwd)
    ensures r.NotFound? <==> Resolve(cwd, PathJoin(assetsDir, filePath)) !in files
    ensures r.Serve? ==> r.path in files && Under(r.path, Resolve(cwd, assetsDir))
    ensures r.Forbidden? <==> Resolve(cwd, PathJoin(assetsDir, filePath)) in files
                              && !Under(Resolve(cwd, PathJoin(assetsDir, filePath)), Resolve(cwd, assetsDir))
    ensures r.Serve? ==> r == Serve(Resolve(cwd, PathJoin(assetsDir, filePath)),
                                    MediaType(LastName(PathJoin(assetsDir, filePath))))
  {
    var full := PathJoin(assetsDir, filePath);
    var resolved := Resolve(cwd, full);
    if resolved !in files then NotFound
    else if !Under(resolved, Resolve(cwd, assetsDir)) then Forbidden
    else Serve(resolved, MediaType(LastName(full)))
  }

  /** A relative request without ".." is never refused as outside the
    * assets directory. */
  lemma PlainRequestNotForbidden(cwd: seq<string>, assetsDir: string, filePath: string, files: set<seq<string>>)
    requires NormalForm(cwd)
    requires assetsDir != [] && assetsDir[0] == '/' && assetsDir[|assetsDir| - 1] != '/'
    requires filePath != [] && filePath[0] != '/' && NoDotDot(Split(filePath, '/'))
    ensures !ServeAsset(cwd, assetsDir, filePath, files).Forbidden?
  {
    JoinStaysUnder(cwd, assetsDir, filePath);
  }

  /** Climbing out of the assets directory is refused even when the target
    * exists. */
  lemma EscapeForbidden()
    ensures ServeAsset([], "/srv/assets", "../secret.png", {["srv", "secret.png"]}) == Forbidden
  {
    EscapeResolves();
    BaseResolves();
    var p := ["srv", "secret.png"];
    assert p[..2][1] == "secret.png";
  }

  lemma EscapeResolves()
    ensures Resolve([], PathJoin("/srv/assets", "../secret.png")) == ["srv", "secret.png"]
  {
    var full := PathJoin("/srv/assets", "../secret.png");
    assert full == "/srv/assets" + "/" + "../secret.png";
    SplitBase();
    SplitEscape();
    SplitAppend("/srv/assets", '/', "../secret.png");
    assert Split(full, '/') == ["", "srv", "assets", "..", "secret.png"];
    WalkEscape();
  }

  lemma BaseResolves()
    ensures Resolve([], "/srv/assets") == ["srv", "assets"]
  {
    SplitBase();
    WalkEscape();
  }

  lemma SplitEscape()
    ensures Split("../secret.png", '/') == ["..", "secret.png"]
  {
    var parts := ["..", "secret.png"];
    assert Join(parts, "/") == "../secret.png";
    SplitJoin(parts, '/');
  }

  lemma SplitBase()
    ensures Split("/srv/assets", '/') == ["", "srv", "assets"]
  {
    var parts := ["", "srv", "assets"];
    assert Join(parts, "/") == "/srv/assets";
    SplitJoin(parts, '/');
  }

  lemma WalkEscape()
    ensures Walk([], ["", "srv", "assets"]) == ["srv", "assets"]
    ensures Walk([], ["", "srv", "assets", "..", "secret.png"]) == ["srv", "secret.png"]
  {
    assert ["", "srv", "assets", "..", "secret.png"][1..] == ["srv", "assets", "..", "secret.png"];
    assert ["srv", "assets", "..", "secret.png"][1..] == ["assets", "..", "secret.png"];
    assert ["assets", "..", "secret.png"][1..] == ["..", "secret.png"];
    assert ["..", "secret.png"][1..] == ["secret.png"];
    assert ["", "srv", "assets"][1..] == ["srv", "assets"];
    assert ["srv", "assets"][1..] == ["assets"];
  }
}
