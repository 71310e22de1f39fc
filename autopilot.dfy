/** The text-and-asset autopilot: weighted category choice, the asset usage
  * memory kept as a pipe table, recency-aware asset selection, the sibling
  * accounts that must not repeat each other's hook, and the record step of
  * one account's run. */
module Autopilot {
  import opened Common

  datatype Account = Account(persona: string, app: string, handle: string)

  function Accounts(): map<string, Account>
  {
    map[
      "aliyah.manifests" := Account("aliyah", "manifest-lock", "@aliyah.manifests"),
      "aliyah.journals" := Account("aliyah", "journal-lock", "@aliyah.journals"),
      "riley.manifests" := Account("riley", "manifest-lock", "@riley.manifests"),
      "riley.journals" := Account("riley", "journal-lock", "@riley.journals"),
      "sanyahealing" := Account("sanya", "journal-lock", "@sanyahealing"),
      "sophie.unplugs" := Account("sophie", "manifest-lock", "@sophie.unplugs"),
      "emillywilks" := Account("sophie", "manifest-lock", "@emillywilks")]
  }

  /** The category keys in their declared order, with their weights. */
  const CategoryKeys: seq<string> := ["A", "B", "C", "D"]
  const CategoryWeights: seq<nat> := [40, 30, 15, 15]

  function Repeat(x: string, n: nat): (r: seq<string>)
    ensures |r| == n
    ensures forall k :: 0 <= k < n ==> r[k] == x
  {
    if n == 0 then [] else [x] + Repeat(x, n - 1)
  }

  /** Each key repeated by its weight, keys in order. */
  function Pool(keys: seq<string>, weights: seq<nat>): seq<string>
    requires |keys| == |weights|
  {
    if keys == [] then []
    else Pool(keys[..|keys| - 1], weights[..|keys| - 1]) + Repeat(keys[|keys| - 1], weights[|keys| - 1])
  }

  /** The total weight of `y` among the keys. */
  function WeightOf(keys: seq<string>, weights: seq<nat>, y: string): nat
    requires |keys| == |weights|
  {
    if keys == [] then 0
    else WeightOf(keys[..|keys| - 1], weights[..|keys| - 1], y) + (if keys[|keys| - 1] == y then weights[|keys| - 1] else 0)
  }

  function Sum(weights: seq<nat>): nat
  {
    if weights == [] then 0 else Sum(weights[..|weights| - 1]) + weights[|weights| - 1]
  }

  lemma {:induction false} CountAppend(a: seq<string>, b: seq<string>, x: string)
    ensures Count(a + b, x) == Count(a, x) + Count(b, x)
  {
    if a == [] {
      assert a + b == b;
    } else {
      assert (a + b)[1..] == a[1..] + b;
      CountAppend(a[1..], b, x);
    }
  }

  lemma {:induction false} CountRepeat(x: string, n: nat, y: string)
    ensures Count(Repeat(x, n), y) == if x == y then n else 0
  {
    if n > 0 {
      assert Repeat(x, n)[1..] == Repeat(x, n - 1);
      CountRepeat(x, n - 1, y);
    }
  }

  /** Every key occurs in the pool as often as its weight says, the pool's
    * size is the total weight, and nothing else is in it. */
  lemma {:induction false} PoolCounts(keys: seq<string>, weights: seq<nat>, y: string)
    requires |keys| == |weights|
    ensures Count(Pool(keys, weights), y) == WeightOf(keys, weights, y)
    ensures |Pool(keys, weights)| == Sum(weights)
    ensures forall c :: c in Pool(keys, weights) ==> c in keys
  {
    if keys != [] {
      var n := |keys| - 1;
      PoolCounts(keys[..n], weights[..n], y);
      CountAppend(Pool(keys[..n], weights[..n]), Repeat(keys[n], weights[n]), y);
      CountRepeat(keys[n], weights[n], y);
      forall c | c in Pool(keys, weights) ensures c in keys {
        if c in Pool(keys[..n], weights[..n]) {
          assert c in keys[..n];
        }
      }
    }
  }

  /** The weight of each category: 40 A, 30 B, 15 C and 15 D. */
  lemma CategoryWeightOf(y: string)
    ensures WeightOf(CategoryKeys, CategoryWeights, y) ==
      if y == "A" then 40 else if y == "B" then 30 else if y == "C" || y == "D" then 15 else 0
  {
    var K, W := CategoryKeys, CategoryWeights;
    var K3, K2, K1 := ["A", "B", "C"], ["A", "B"], ["A"];
    var W3, W2, W1 := [40, 30, 15], [40, 30], [40];
    assert K[..3] == K3 && K3[..2] == K2 && K2[..1] == K1 && K1[..0] == [];
    assert W[..3] == W3 && W3[..2] == W2 && W2[..1] == W1 && W1[..0] == [];
    assert WeightOf(K1, W1, y) == if y == "A" then 40 else 0;
    assert WeightOf(K2, W2, y) == if y == "A" then 40 else if y == "B" then 30 else 0;
  }

  /** The weighted pool holds 100 entries: 40 A, 30 B, 15 C and 15 D. */
  lemma PoolWeights()
    ensures |Pool(CategoryKeys, CategoryWeights)| == 100
    ensures Count(Pool(CategoryKeys, CategoryWeights), "A") == 40
    ensures Count(Pool(CategoryKeys, CategoryWeights), "B") == 30
    ensures Count(Pool(CategoryKeys, CategoryWeights), "C") == 15
    ensures Count(Pool(CategoryKeys, CategoryWeights), "D") == 15
  {
    var K, W := CategoryKeys, CategoryWeights;
    var W3, W2, W1 := [40, 30, 15], [40, 30], [40];
    assert W[..3] == W3 && W3[..2] == W2 && W2[..1] == W1 && W1[..0] == [];
    assert Sum(W1) == 40 && Sum(W2) == 70 && Sum(W3) == 85;
    CategoryWeightOf("A");
    CategoryWeightOf("B");
    CategoryWeightOf("C");
    CategoryWeightOf("D");
    PoolCounts(K, W, "A");
    PoolCounts(K, W, "B");
    PoolCounts(K, W, "C");
    PoolCounts(K, W, "D");
  }

  /** Every draw from the category pool is a category, and there is
    * always something to draw. */
  lemma CategoryPool()
    ensures |Pool(CategoryKeys, CategoryWeights)| == 100
    ensures forall c :: c in Pool(CategoryKeys, CategoryWeights) ==> c in CategoryKeys
  {
    PoolWeights();
    PoolCounts(CategoryKeys, CategoryWeights, "A");
  }

  /** The population list built key by key: each key repeated by its weight. */
  method BuildPool(keys: seq<string>, weights: seq<nat>) returns (pool: seq<string>)
    requires |keys| == |weights|
    ensures pool == Pool(keys, weights)
  {
    pool := [];
    var i := 0;
    while i < |keys|
      invariant 0 <= i <= |keys| && pool == Pool(keys[..i], weights[..i])
    {
      assert keys[..i + 1][..i] == keys[..i];
      assert weights[..i + 1][..i] == weights[..i];
      pool := pool + Repeat(keys[i], weights[i]);
      i := i + 1;
    }
    assert keys[..i] == keys && weights[..i] == weights;
  }

  /** `pick_category`: a forced category that upper-cases to a known key
    * wins; otherwise a draw from the weighted pool. */
  method PickCategory(forced: Option<string>) returns (c: string)
    ensures forced.Some? && forced.value != "" && Upper(forced.value) in CategoryKeys ==> c == Upper(forced.value)
    ensures !(forced.Some? && forced.value != "" && Upper(forced.value) in CategoryKeys) ==>
      c in Pool(CategoryKeys, CategoryWeights)
    ensures c in CategoryKeys
  {
    if forced.Some? && forced.value != "" && Upper(forced.value) in CategoryKeys {
      return Upper(forced.value);
    }
    c := DrawCategory();
  }

  /** The random pick from the weighted pool (`random.choice(pool)`): some
    * entry of the pool, which is always a category. */
  method DrawCategory() returns (c: string)
    ensures c in Pool(CategoryKeys, CategoryWeights) && c in CategoryKeys
  {
    var pool := BuildPool(CategoryKeys, CategoryWeights);
    CategoryPool();
    assert pool[0] in pool;
    c :| c in pool;
  }

  /** One row of the asset usage table. */
  datatype UsageEntry = UsageEntry(date: string, account: string, hook: string, reaction: string, screenRec: string)

  /** `line.split("|")[1:-1]` */
  function InnerCells(line: string): (r: seq<string>)
  {
    var cells := Split(line, '|');
    if |cells| >= 2 then cells[1..|cells| - 1] else []
  }

  function StripAll(parts: seq<string>): (r: seq<string>)
    ensures |r| == |parts|
  {
    if parts == [] then [] else [Strip(parts[0])] + StripAll(parts[1..])
  }

  /** A table line becomes an entry when it starts with "|", is neither the
    * header nor the separator, and has at least five cells. */
  function ParseUsageLine(line: string): (r: Option<UsageEntry>)
    ensures r.Some? ==> StartsWith(line, "|") && !StartsWith(line, "| Date") && !StartsWith(line, "|---")
  {
    if StartsWith(line, "|") && !StartsWith(line, "| Date") && !StartsWith(line, "|---") then
      var parts := StripAll(InnerCells(line));
      if |parts| >= 5 then Some(UsageEntry(parts[0], parts[1], parts[2], parts[3], parts[4]))
      else None
    else None
  }

  lemma ParseUsageCons(line: string, rest: seq<string>)
    requires ParseUsageLine(line) == None
    ensures ParseUsage([line] + rest) == ParseUsage(rest)
  {
    assert ([line] + rest)[1..] == rest;
  }

  /** The entries of the memory file, in file order. */
  function ParseUsage(lines: seq<string>): (r: seq<UsageEntry>)
    ensures |r| <= |lines|
  {
    if lines == [] then []
    else
      var e := ParseUsageLine(lines[0]);
      (if e.Some? then [e.value] else []) + ParseUsage(lines[1..])
  }

  /** `load_asset_usage` over the file's text; a missing file has no entries. */
  function UsageOf(file: Option<string>): seq<UsageEntry>
  {
    if file.None? then [] else ParseUsage(SplitLines(file.value))
  }

  /** `load_asset_usage`, line by line. */
  method LoadAssetUsage(file: Option<string>) returns (entries: seq<UsageEntry>)
    ensures entries == UsageOf(file)
  {
    entries := [];
    if file.None? {
      return;
    }
    var lines := SplitLines(file.value);
    var i := |lines|;
    while i > 0
      invariant 0 <= i <= |lines|
      invariant entries == ParseUsage(lines[i..])
    {
      i := i - 1;
      var e := ParseUsageLine(lines[i]);
      assert lines[i..][1..] == lines[i + 1..];
      if e.Some? {
        entries := [e.value] + entries;
      }
    }
    assert lines[0..] == lines;
  }

  /** The three header lines `save_asset_usage` writes (the long ones are
    * spelled in pieces). */
  const HeaderLines: seq<string> := [
    "## Recent Asset Usage\n",
    "| Date | Account | Hook Clip" + " | Reaction Clip" + " | Screen Recording |",
    "|------|---------|-----------" + "|---------------" + "|-----------------|"]

  function Cell(x: string): string
  {
    " " + x + " "
  }

  function CellsOf(xs: seq<string>): (r: seq<string>)
    ensures |r| == |xs|
  {
    if xs == [] then [] else [Cell(xs[0])] + CellsOf(xs[1..])
  }

  function Fields(e: UsageEntry): seq<string>
  {
    [e.date, e.account, e.hook, e.reaction, e.screenRec]
  }

  function Cells(e: UsageEntry): seq<string>
  {
    CellsOf(Fields(e))
  }

  /** `f"| {date} | {account} | {hook} | {reaction} | {screen_rec} |"` */
  function FormatRow(e: UsageEntry): string
  {
    "|" + Join(Cells(e), "|") + "|"
  }

  function Rows(entries: seq<UsageEntry>): (r: seq<string>)
    ensures |r| == |entries|
    ensures forall k :: 0 <= k < |r| ==> r[k] == FormatRow(entries[k])
  {
    if entries == [] then [] else [FormatRow(entries[0])] + Rows(entries[1..])
  }

  /** `save_asset_usage`: the header, then the last 30 entries, one per line. */
  function SaveAssetUsage(entries: seq<UsageEntry>): string
  {
    Join(HeaderLines + Rows(LastN(entries, 30)), "\n") + "\n"
  }

  /** A field that survives a write and a read: no cell separator, no line
    * break and no surrounding blanks. */
  predicate FieldOk(x: string)
  {
    '|' !in x && '\n' !in x && IsStripped(x)
  }

  /** An entry that survives a write and a read: its fields do, and its
    * date does not make the row look like the header. */
  predicate WellFormed(e: UsageEntry)
  {
    FieldOk(e.date) && FieldOk(e.account) && FieldOk(e.hook) && FieldOk(e.reaction) && FieldOk(e.screenRec)
    && !StartsWith(e.date, "Date")
  }

  /** Cells without the separator, framed by it, split back into the
    * cells with an empty part on either side. */
  lemma SplitFramed(cells: seq<string>)
    requires cells != []
    requires forall k :: 0 <= k < |cells| ==> '|' !in cells[k]
    ensures Split("|" + Join(cells, "|") + "|", '|') == [""] + cells + [""]
  {
    var all := [""] + cells + [""];
    JoinFramed(cells);
    NoBarFramed(cells);
    SplitJoin(all, '|');
  }

  lemma JoinFramed(cells: seq<string>)
    requires cells != []
    ensures Join([""] + cells + [""], "|") == "|" + Join(cells, "|") + "|"
  {
    var front := [""] + cells;
    assert front[1..] == cells;
    JoinSnoc(front, "", "|");
  }

  lemma NoBarFramed(cells: seq<string>)
    requires forall k :: 0 <= k < |cells| ==> '|' !in cells[k]
    ensures forall k :: 0 <= k < |[""] + cells + [""]| ==> '|' !in ([""] + cells + [""])[k]
  {
  }

  /** A written row reads back as its entry. */
  lemma ParseFormatRow(e: UsageEntry)
    requires WellFormed(e)
    ensures ParseUsageLine(FormatRow(e)) == Some(e)
  {
    var row := FormatRow(e);
    RowStart(e);
    NotHeaderRow(e.date, row);
    assert row[0] == '|' && row[1] == ' ';
    assert row[..1] == "|";
    assert |row| >= 4 ==> row[..4][1] != "|---"[1];
    RowCells(e);
    var parts := StripAll(InnerCells(row));
    assert parts == Fields(e);
    assert UsageEntry(parts[0], parts[1], parts[2], parts[3], parts[4]) == e;
  }

  /** The cells of a written row strip back to the entry's fields. */
  lemma RowCells(e: UsageEntry)
    requires WellFormed(e)
    ensures StripAll(InnerCells(FormatRow(e))) == Fields(e)
  {
    var xs := Fields(e);
    assert forall k :: 0 <= k < |xs| ==> FieldOk(xs[k]);
    CellsOfNoBar(xs);
    SplitFramed(Cells(e));
    var cells := [""] + Cells(e) + [""];
    assert cells[1..|cells| - 1] == Cells(e);
    StripCellsOf(xs);
  }

  lemma {:induction false} CellsOfNoBar(xs: seq<string>)
    requires forall k :: 0 <= k < |xs| ==> FieldOk(xs[k])
    ensures forall k :: 0 <= k < |xs| ==> '|' !in CellsOf(xs)[k] && '\n' !in CellsOf(xs)[k]
  {
    if xs != [] {
      CellsOfNoBar(xs[1..]);
      forall k | 0 <= k < |xs| ensures '|' !in CellsOf(xs)[k] && '\n' !in CellsOf(xs)[k] {
        if k > 0 {
          assert CellsOf(xs)[k] == CellsOf(xs[1..])[k - 1];
        }
      }
    }
  }

  lemma {:induction false} StripCellsOf(xs: seq<string>)
    requires forall k :: 0 <= k < |xs| ==> FieldOk(xs[k])
    ensures StripAll(CellsOf(xs)) == xs
  {
    if xs != [] {
      StripPadded(xs[0]);
      assert CellsOf(xs)[1..] == CellsOf(xs[1..]);
      StripCellsOf(xs[1..]);
    }
  }

  lemma RowStart(e: UsageEntry)
    ensures StartsWith(FormatRow(e), "| " + e.date + " ")
  {
    var c := Cells(e);
    assert c[1..] != [];
    assert Join(c, "|") == Cell(e.date) + "|" + Join(c[1..], "|");
    assert FormatRow(e) == ("| " + e.date + " ") + ("|" + Join(c[1..], "|") + "|");
  }

  lemma NotHeaderRow(date: string, row: string)
    requires !StartsWith(date, "Date")
    requires StartsWith(row, "| " + date + " ")
    ensures !StartsWith(row, "| Date")
  {
    var p := "| " + date + " ";
    if |date| >= 4 {
      assert row[2..6] == p[2..6] == date[..4];
    } else {
      assert row[2 + |date|] == p[2 + |date|] == ' ';
    }
  }

  /** Written rows read back as their entries, in order. */
  lemma ParseRows(entries: seq<UsageEntry>)
    requires forall e :: e in entries ==> WellFormed(e)
    ensures ParseUsage(Rows(entries)) == entries
  {
    var rows := Rows(entries);
    forall k | 0 <= k < |rows|
      ensures ParseUsageLine(rows[k]) == Some(entries[k])
    {
      assert entries[k] in entries;
      ParseFormatRow(entries[k]);
    }
    ParseUsageAll(rows, entries);
  }

  /** Lines that each read as an entry read as those entries, in order. */
  lemma {:induction false} ParseUsageAll(lines: seq<string>, es: seq<UsageEntry>)
    requires |lines| == |es|
    requires forall k :: 0 <= k < |lines| ==> ParseUsageLine(lines[k]) == Some(es[k])
    ensures ParseUsage(lines) == es
  {
    if lines != [] {
      ParseUsageAll(lines[1..], es[1..]);
      assert es == [es[0]] + es[1..];
    }
  }

  /** Saving the usage memory and loading it back yields the last 30
    * entries, in order. */
  lemma SaveLoadRoundTrip(entries: seq<UsageEntry>)
    requires forall e :: e in entries ==> WellFormed(e)
    ensures UsageOf(Some(SaveAssetUsage(entries))) == LastN(entries, 30)
  {
    var kept := LastN(entries, 30);
    forall e | e in kept ensures WellFormed(e) {
      assert e in entries;
    }
    var rows := Rows(kept);
    HeaderJoin(rows);
    RowsNoBreak(kept);
    HeaderNoBreak();
    SplitLinesJoin(HeaderText + rows);
    HeaderSkipped(rows);
    ParseRows(kept);
  }

  /** The header as it reads back: the title, an empty line, the column
    * names and the separator. */
  const HeaderText: seq<string> := ["## Recent Asset Usage", "", HeaderLines[1], HeaderLines[2]]

  lemma HeaderJoin(rows: seq<string>)
    ensures Join(HeaderLines + rows, "\n") == Join(HeaderText + rows, "\n")
  {
    var lines := HeaderText + rows;
    assert (HeaderLines + rows)[1..] == lines[2..];
    assert lines[1..][1..] == lines[2..];
  }

  lemma HeaderNoBreak()
    ensures forall k :: 0 <= k < 4 ==> '\n' !in HeaderText[k]
  {
    var h := HeaderText;
    assert '\n' !in h[0] && '\n' !in h[1];
    ColumnsNoBreak();
    SeparatorNoBreak();
  }

  lemma ColumnsNoBreak()
    ensures '\n' !in HeaderLines[1]
  {
    assert '\n' !in "| Date | Account | Hook Clip" && '\n' !in " | Reaction Clip" && '\n' !in " | Screen Recording |";
  }

  lemma SeparatorNoBreak()
    ensures '\n' !in HeaderLines[2]
  {
    assert '\n' !in "|------|---------|-----------" && '\n' !in "|---------------" && '\n' !in "|-----------------|";
  }

  lemma {:induction false} RowsNoBreak(entries: seq<UsageEntry>)
    requires forall e :: e in entries ==> WellFormed(e)
    ensures forall k :: 0 <= k < |Rows(entries)| ==> '\n' !in Rows(entries)[k]
  {
    forall k | 0 <= k < |Rows(entries)| ensures '\n' !in Rows(entries)[k] {
      assert entries[k] in entries;
      RowNoBreak(entries[k]);
    }
  }

  lemma RowNoBreak(e: UsageEntry)
    requires WellFormed(e)
    ensures '\n' !in FormatRow(e)
  {
    var xs := Fields(e);
    assert forall k :: 0 <= k < |xs| ==> FieldOk(xs[k]);
    CellsOfNoBar(xs);
    JoinNoBreak(Cells(e));
  }

  lemma {:induction false} JoinNoBreak(parts: seq<string>)
    requires forall k :: 0 <= k < |parts| ==> '\n' !in parts[k]
    ensures '\n' !in Join(parts, "|")
  {
    if |parts| > 1 {
      JoinNoBreak(parts[1..]);
    }
  }

  lemma HeaderSkipped(rows: seq<string>)
    ensures ParseUsage(HeaderText + rows) == ParseUsage(rows)
  {
    var h := HeaderText;
    var l3 := [h[3]] + rows;
    var l2 := [h[2]] + l3;
    var l1 := [h[1]] + l2;
    assert h + rows == [h[0]] + l1;
    HeaderLinesSkipped();
    ParseUsageCons(h[0], l1);
    ParseUsageCons(h[1], l2);
    ParseUsageCons(h[2], l3);
    ParseUsageCons(h[3], rows);
  }

  /** None of the four header lines is read as an entry. */
  lemma HeaderLinesSkipped()
    ensures ParseUsageLine(HeaderText[0]) == None && ParseUsageLine(HeaderText[1]) == None
    ensures ParseUsageLine(HeaderText[2]) == None && ParseUsageLine(HeaderText[3]) == None
  {
    assert HeaderText[0][0] == '#';
    NotTableLine(HeaderText[0]);
    NotTableLine(HeaderText[1]);
    ColumnsLineSkipped();
    SeparatorLineSkipped();
  }

  /** A line that does not start with "|" is not an entry. */
  lemma NotTableLine(line: string)
    requires line == [] || line[0] != '|'
    ensures ParseUsageLine(line) == None
  {
  }

  lemma ColumnsLineSkipped()
    ensures ParseUsageLine(HeaderLines[1]) == None
  {
    var a := "| Date | Account | Hook Clip";
    assert HeaderLines[1] == a + (" | Reaction Clip" + " | Screen Recording |");
    assert a[..6] == "| Date";
  }

  lemma SeparatorLineSkipped()
    ensures ParseUsageLine(HeaderLines[2]) == None
  {
    var a := "|------|---------|-----------";
    assert HeaderLines[2] == a + ("|---------------" + "|-----------------|");
    assert a[..4] == "|---";
  }

  datatype ClipType = Hook | Reaction

  function ClipTypeName(t: ClipType): string
  {
    match t
    case Hook => "hook"
    case Reaction => "reaction"
  }

  function FieldOf(e: UsageEntry, t: ClipType): string
  {
    match t
    case Hook => e.hook
    case Reaction => e.reaction
  }

  /** The assets this account used among the last seven rows of the whole
    * log (not among this account's own last seven rows). */
  function RecentClips(entries: seq<UsageEntry>, account: string, t: ClipType): set<string>
  {
    set e | e in LastN(entries, 7) && e.account == account :: FieldOf(e, t)
  }

  function RecentScreens(entries: seq<UsageEntry>, account: string): set<string>
  {
    set e | e in LastN(entries, 7) && e.account == account :: e.screenRec
  }

  /** Rows of this account older than the last seven rows of the log do
    * not count as recent, however few rows the account has. */
  lemma OlderRowsNotRecent(older: seq<UsageEntry>, last7: seq<UsageEntry>, account: string, t: ClipType)
    requires |last7| == 7
    requires forall e :: e in last7 ==> e.account != account
    ensures RecentClips(older + last7, account, t) == {}
  {
    assert LastN(older + last7, 7) == last7;
  }

  /** `list_assets` / `list_screen_recordings`: the names whose suffix is
    * exactly ".mp4" or ".mov". */
  function VideoNames(names: seq<string>): (r: seq<string>)
    ensures forall n :: n in r <==> n in names && (Suffix(n) == ".mp4" || Suffix(n) == ".mov")
  {
    if names == [] then []
    else (if Suffix(names[0]) == ".mp4" || Suffix(names[0]) == ".mov" then [names[0]] else []) + VideoNames(names[1..])
  }

  /** `pick_asset`: an empty folder yields a bracketed placeholder. */
  method PickAsset(persona: string, t: ClipType, folder: seq<string>, entries: seq<UsageEntry>, account: string)
    returns (r: string)
    ensures VideoNames(folder) == [] ==>
      r == "[NO " + Upper(ClipTypeName(t)) + " CLIPS in assets/" + persona + "/" + ClipTypeName(t) + "/]"
    ensures VideoNames(folder) != [] ==> r in VideoNames(folder)
    ensures (exists a :: a in VideoNames(folder) && a !in RecentClips(entries, account, t)) ==>
      r !in RecentClips(entries, account, t)
  {
    var available := VideoNames(folder);
    if available == [] {
      return "[NO " + Upper(ClipTypeName(t)) + " CLIPS in assets/" + persona + "/" + ClipTypeName(t) + "/]";
    }
    r := PreferUnused(available, RecentClips(entries, account, t));
  }

  /** `pick_screen_recording` of this script. */
  method PickScreenRecording(app: string, folder: seq<string>, entries: seq<UsageEntry>, account: string)
    returns (r: string)
    ensures VideoNames(folder) == [] ==> r == "[NO SCREEN RECORDINGS in assets/screen-recordings/" + app + "/]"
    ensures VideoNames(folder) != [] ==> r in VideoNames(folder)
    ensures (exists a :: a in VideoNames(folder) && a !in RecentScreens(entries, account)) ==>
      r !in RecentScreens(entries, account)
  {
    var available := VideoNames(folder);
    if available == [] {
      return "[NO SCREEN RECORDINGS in assets/screen-recordings/" + app + "/]";
    }
    r := PreferUnused(available, RecentScreens(entries, account));
  }

  /** The accounts of one persona that must not repeat each other's hook. */
  function DedupPairs(): map<string, string>
  {
    map[
      "emillywilks" := "sophie.unplugs",
      "sophie.unplugs" := "emillywilks",
      "aliyah.journals" := "aliyah.manifests",
      "aliyah.manifests" := "aliyah.journals",
      "riley.journals" := "riley.manifests",
      "riley.manifests" := "riley.journals"]
  }

  /** The sibling map is an involution without fixed points over known
    * accounts, and siblings share a persona. */
  lemma DedupPairsSymmetric(a: string)
    requires a in DedupPairs()
    ensures DedupPairs()[a] in DedupPairs() && DedupPairs()[DedupPairs()[a]] == a
    ensures DedupPairs()[a] != a
    ensures a in Accounts() && DedupPairs()[a] in Accounts()
    ensures Accounts()[a].persona == Accounts()[DedupPairs()[a]].persona
  {
  }

  /** The hooks to avoid: the sibling's hook from today's saved output, if
    * the account has a sibling and that output exists. */
  function DedupHooks(account: string, todayPov: string -> Option<string>): (r: seq<string>)
    ensures account !in DedupPairs() ==> r == []
    ensures account in DedupPairs() ==>
      (r == [] <==> todayPov(DedupPairs()[account]).None?)
    ensures |r| <= 1
  {
    if account in DedupPairs() then
      var pov := todayPov(DedupPairs()[account]);
      if pov.Some? then [pov.value] else []
    else []
  }

  predicate AsciiLetter(c: char)
  {
    'a' <= c <= 'z' || 'A' <= c <= 'Z'
  }

  /** A character as `str.title()` writes it: a letter after a letter is
    * lower-cased, any other letter upper-cased, anything else kept. */
  function TitleCased(c: char, afterLetter: bool): char
  {
    if !AsciiLetter(c) then c else if afterLetter then Lower([c])[0] else Upper([c])[0]
  }

  /** Python's `str.title()` for ASCII text: each character is cased by
    * whether the character before it is a letter. */
  function Title(s: string): (r: string)
    ensures |r| == |s|
    ensures forall i :: 0 <= i < |s| ==> r[i] == TitleCased(s[i], i > 0 && AsciiLetter(s[i - 1]))
  {
    TitleFrom(s, false)
  }

  function TitleFrom(s: string, afterLetter: bool): (r: string)
    ensures |r| == |s|
    ensures forall i :: 0 <= i < |s| ==> r[i] == TitleCased(s[i], if i == 0 then afterLetter else AsciiLetter(s[i - 1]))
  {
    if s == [] then []
    else
      var rest := TitleFrom(s[1..], AsciiLetter(s[0]));
      [TitleCased(s[0], afterLetter)] + rest
  }

  /** The delivery email's subject line. */
  function Subject(account: string, category: string, pov: string): (r: string)
    requires account in Accounts()
  {
    var cfg := Accounts()[account];
    "[" + Title(cfg.persona) + "] " + cfg.handle + " Cat-" + category + ": \"" + Take(pov, 50) + "\""
  }

  /** The subject names the account's handle and category and quotes at
    * most the first 50 characters of the hook. */
  lemma SubjectShape(account: string, category: string, pov: string)
    requires account in Accounts()
    ensures var r := Subject(account, category, pov);
      var tail := " Cat-" + category + ": \"" + Take(pov, 50) + "\"";
      EndsWith(r, tail) && StartsWith(r, "[" + Title(Accounts()[account].persona) + "] " + Accounts()[account].handle)
    ensures |Take(pov, 50)| <= 50 && StartsWith(pov, Take(pov, 50))
  {
    var cfg := Accounts()[account];
    var head := "[" + Title(cfg.persona) + "] " + cfg.handle;
    var tail := " Cat-" + category + ": \"" + Take(pov, 50) + "\"";
    assert Subject(account, category, pov) == head + tail;
  }

  /** The chosen assets of one run. */
  datatype Assets = Assets(hook: string, reaction: string, screenRec: string)

  /** The asset usage memory file (`memory/asset-usage.md`); `None` while
    * it does not exist. */
  class UsageMemory {
    var file: Option<string>

    constructor (file: Option<string>)
      ensures this.file == file
    {
      this.file := file;
    }

    /** Steps 5 and 6 of `run_account`: an idea-only run stops before any
      * asset is chosen; otherwise three assets are chosen against the
      * memory as loaded, exactly one row for this account is appended and
      * the memory is written back. */
    method RunAccount(account: string, ideaOnly: bool, today: string,
                      hooks: seq<string>, reactions: seq<string>, screens: seq<string>)
      returns (chosen: Option<Assets>)
      requires account in Accounts()
      modifies this
      ensures ideaOnly ==> chosen.None? && file == old(file)
      ensures !ideaOnly ==>
        chosen.Some? && file == Some(SaveAssetUsage(UsageOf(old(file))
          + [UsageEntry(today, account, chosen.value.hook, chosen.value.reaction, chosen.value.screenRec)]))
      ensures !ideaOnly && VideoNames(hooks) != [] ==> chosen.value.hook in VideoNames(hooks)
      ensures !ideaOnly && VideoNames(reactions) != [] ==> chosen.value.reaction in VideoNames(reactions)
      ensures !ideaOnly && VideoNames(screens) != [] ==> chosen.value.screenRec in VideoNames(screens)
    {
      if ideaOnly {
        return None;
      }
      var cfg := Accounts()[account];
      var entries := LoadAssetUsage(file);
      var hook := PickAsset(cfg.persona, Hook, hooks, entries, account);
      var reaction := PickAsset(cfg.persona, Reaction, reactions, entries, account);
      var screen := PickScreenRecording(cfg.app, screens, entries, account);
      entries := entries + [UsageEntry(today, account, hook, reaction, screen)];
      file := Some(SaveAssetUsage(entries));
      chosen := Some(Assets(hook, reaction, screen));
    }
  }

  /** After a recording run the memory's last row is this run's row, and
    * the rows before it are the previous rows (up to the 30-row window). */
  lemma RecordedRowIsLast(previous: seq<UsageEntry>, row: UsageEntry)
    requires forall e :: e in previous ==> WellFormed(e)
    requires WellFormed(row)
    ensures UsageOf(Some(SaveAssetUsage(previous + [row]))) == LastN(previous, 29) + [row]
  {
    var all := previous + [row];
    forall e | e in all ensures WellFormed(e) {
      if e != row {
        assert e in previous;
      }
    }
    SaveLoadRoundTrip(all);
    LastNSnoc(previous, row, 29);
  }

  lemma LastNSnoc<T>(s: seq<T>, x: T, n: nat)
    ensures LastN(s + [x], n + 1) == LastN(s, n) + [x]
  {
  }
}
