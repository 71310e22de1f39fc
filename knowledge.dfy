/** The knowledge-base endpoints: the file tree of the skills and memory
  * directories, and reading and writing one Markdown file in either.
  * A directory is given as its entries (none when it does not exist); the
  * file system the read and write endpoints touch as a value mapping each
  * resolved file path to its text, beside the set of directories. */
module Knowledge {
  import opened Common
  import opened Sorting
  import opened Paths

  /** A directory entry: a file, or a directory with its own entries. */
  datatype Node = File(name: string) | Folder(name: string, entries: seq<Node>)

  function NodeName(n: Node): string
  {
    n.name
  }

  /** One item of the tree the dashboard shows. */
  datatype Item =
    | FileItem(path: string, name: string)
    | DirItem(path: string, name: string, children: seq<Item>)

  function ItemName(it: Item): string
  {
    it.name
  }

  /** The path of an entry below `prefix`: "<prefix>/<name>", or the bare
    * name at the top. */
  function ChildPath(prefix: string, name: string): string
  {
    if prefix != [] then prefix + "/" + name else name
  }

  /** An entry shows in the tree: it is not hidden, and it is a directory
    * or a Markdown file. */
  predicate Listed(n: Node)
  {
    !StartsWith(n.name, ".") && (n.Folder? || Suffix(n.name) == ".md")
  }

  /** The items of the directory `dir` below `prefix`: its entries by name. */
  function Tree(dir: Node, prefix: string): seq<Item>
    requires dir.Folder?
    decreases dir, 1
  {
    var sorted := SortBy(dir.entries, NodeName);
    EntriesBelow(dir, sorted);
    Level(dir, sorted, prefix)
  }

  /** The items of the entries `s` of `dir`, in their order. */
  function Level(ghost dir: Node, s: seq<Node>, prefix: string): seq<Item>
    requires forall k :: 0 <= k < |s| ==> s[k] < dir
    decreases dir, 0, |s|
  {
    if s == [] then []
    else Level(dir, s[..|s| - 1], prefix) + Entry(dir, s[|s| - 1], prefix)
  }

  /** The items one entry `n` of `dir` contributes: none when hidden or
    * neither a directory nor a Markdown file. */
  function Entry(ghost dir: Node, n: Node, prefix: string): seq<Item>
    requires n < dir
    decreases dir, 0, 0
  {
    var rel := ChildPath(prefix, n.name);
    if StartsWith(n.name, ".") then []
    else if n.Folder? then [DirItem(rel, n.name, Tree(n, rel))]
    else if Suffix(n.name) == ".md" then [FileItem(rel, n.name)]
    else []
  }

  lemma LevelStep(dir: Node, s: seq<Node>, i: nat, prefix: string)
    requires i < |s| && forall k :: 0 <= k < |s| ==> s[k] < dir
    ensures Level(dir, s[..i + 1], prefix) == Level(dir, s[..i], prefix) + Entry(dir, s[i], prefix)
  {
    assert s[..i + 1][..i] == s[..i];
  }

  /** A reordering of a directory's entries holds entries of it only. */
  lemma EntriesBelow(dir: Node, s: seq<Node>)
    requires dir.Folder? && multiset(s) == multiset(dir.entries)
    ensures forall k :: 0 <= k < |s| ==> s[k] < dir
  {
    forall k | 0 <= k < |s| ensures s[k] < dir {
      assert s[k] in multiset(dir.entries);
      var j :| 0 <= j < |dir.entries| && dir.entries[j] == s[k];
    }
  }

  /** `_build_tree(directory, prefix)` on an existing directory: the sorted
    * entries, one at a time, descending into each directory. */
  method BuildTree(dir: Node, prefix: string) returns (items: seq<Item>)
    requires dir.Folder?
    ensures items == Tree(dir, prefix)
    decreases dir
  {
    var sorted := SortBy(dir.entries, NodeName);
    EntriesBelow(dir, sorted);
    items := [];
    for i := 0 to |sorted|
      invariant items == Level(dir, sorted[..i], prefix)
    {
      LevelStep(dir, sorted, i, prefix);
      var entry := sorted[i];
      if StartsWith(entry.name, ".") {
        continue;
      }
      var rel := if prefix != [] then prefix + "/" + entry.name else entry.name;
      if entry.Folder? {
        var children := BuildTree(entry, rel);
        items := items + [DirItem(rel, entry.name, children)];
      } else if Suffix(entry.name) == ".md" {
        items := items + [FileItem(rel, entry.name)];
      }
    }
    assert sorted[..|sorted|] == sorted;
  }

  /** `_build_tree(directory)`: nothing for a missing directory. */
  method BuildTreeAt(dir: Option<seq<Node>>) returns (items: seq<Item>)
    ensures dir.None? ==> items == []
    ensures dir.Some? ==> items == Tree(Folder("", dir.value), "")
  {
    items := [];
    if dir.Some? {
      items := BuildTree(Folder("", dir.value), "");
    }
  }

  /** `get_tree`: the trees of the skills and the memory directory. */
  method GetTree(skills: Option<seq<Node>>, memory: Option<seq<Node>>)
    returns (skillsTree: seq<Item>, memoryTree: seq<Item>)
    ensures skills.None? ==> skillsTree == []
    ensures skills.Some? ==> skillsTree == Tree(Folder("", skills.value), "")
    ensures memory.None? ==> memoryTree == []
    ensures memory.Some? ==> memoryTree == Tree(Folder("", memory.value), "")
  {
    skillsTree := BuildTreeAt(skills);
    memoryTree := BuildTreeAt(memory);
  }

  /** The listed entries of `s`, in their order. */
  function Visible(s: seq<Node>): (r: seq<Node>)
    ensures forall n :: n in r <==> n in s && Listed(n)
  {
    if s == [] then []
    else
      var n := s[|s| - 1];
      Visible(s[..|s| - 1]) + (if Listed(n) then [n] else [])
  }

  /** `it` is the item shown for the entry `n` below `prefix`: same name,
    * path "<prefix>/<name>", a directory item exactly for a directory, whose
    * children are that directory's own tree. */
  predicate Shows(it: Item, n: Node, prefix: string)
  {
    && it.name == n.name
    && it.path == ChildPath(prefix, n.name)
    && (it.DirItem? <==> n.Folder?)
    && (n.Folder? ==> it.DirItem? && it.children == Tree(n, it.path))
  }

  /** The items of a level are the listed entries, one item each, in order. */
  lemma {:induction false} LevelShows(dir: Node, s: seq<Node>, prefix: string)
    requires forall k :: 0 <= k < |s| ==> s[k] < dir
    ensures |Level(dir, s, prefix)| == |Visible(s)|
    ensures forall k :: 0 <= k < |Visible(s)| ==> Shows(Level(dir, s, prefix)[k], Visible(s)[k], prefix)
  {
    if s != [] {
      var init := s[..|s| - 1];
      LevelShows(dir, init, prefix);
    }
  }

  /** Dropping entries keeps the order of the rest. */
  lemma {:induction false} VisibleSorted(s: seq<Node>)
    requires SortedBy(s, NodeName)
    ensures SortedBy(Visible(s), NodeName)
  {
    if s != [] {
      var init := s[..|s| - 1];
      var n := s[|s| - 1];
      assert SortedBy(init, NodeName);
      VisibleSorted(init);
      forall m | m in Visible(init) ensures StrLeq(m.name, n.name) {
        var j :| 0 <= j < |init| && init[j] == m;
      }
    }
  }

  /** `_build_tree` shows exactly the entries that are not hidden and are
    * directories or ".md" files, each once, sorted by name, each with its
    * "<prefix>/<name>" path, and each directory with its own tree. */
  lemma TreeShows(dir: Node, prefix: string)
    requires dir.Folder?
    ensures |Tree(dir, prefix)| == |Visible(SortBy(dir.entries, NodeName))|
    ensures forall k :: 0 <= k < |Tree(dir, prefix)| ==>
      Shows(Tree(dir, prefix)[k], Visible(SortBy(dir.entries, NodeName))[k], prefix)
    ensures forall n :: n in Visible(SortBy(dir.entries, NodeName)) <==> n in dir.entries && Listed(n)
    ensures SortedBy(Tree(dir, prefix), ItemName)
  {
    var sorted := SortBy(dir.entries, NodeName);
    EntriesBelow(dir, sorted);
    LevelShows(dir, sorted, prefix);
    VisibleSorted(sorted);
    forall n ensures n in sorted <==> n in dir.entries {
      assert n in sorted <==> n in multiset(sorted);
    }
  }

  /** The section's base directory: skills for "skills", memory for any
    * other section name. */
  function BaseOf(section: string, skillsDir: string, memoryDir: string): (r: string)
    ensures section == "skills" ==> r == skillsDir
    ensures section != "skills" ==> r == memoryDir
  {
    if section == "skills" then skillsDir else memoryDir
  }

  /** Where a request resolves to, or Denied for a 403. */
  datatype Resolved = Allowed(path: seq<string>) | Denied

  /** `_resolve_path` as the router writes it: the resolved text must start
    * with the resolved base's text. */
  function ResolvePathAsWritten(cwd: seq<string>, skillsDir: string, memoryDir: string,
                                section: string, filePath: string): (r: Resolved)
    requires NormalForm(cwd)
  {
    var base := BaseOf(section, skillsDir, memoryDir);
    var resolved := Resolve(cwd, PathJoin(base, filePath));
    if !StartsWith(Render(resolved), Render(Resolve(cwd, base))) then Denied else Allowed(resolved)
  }

  /** The text test lets a sibling whose name extends the base's through:
    * "../memory2.md" below "/memory" is outside it. */
  lemma AsWrittenEscapes()
    ensures ResolvePathAsWritten([], "/skills", "/memory", "memory", "../memory2.md") == Allowed(["memory2.md"])
    ensures !Under(["memory2.md"], Resolve([], "/memory"))
  {
    SiblingResolves();
    MemoryResolves();
    SiblingText();
  }

  lemma SiblingText()
    ensures StartsWith(Render(["memory2.md"]), Render(["memory"]))
  {
    assert Render(["memory2.md"]) == "/memory" + "2.md";
    assert Render(["memory"]) == "/memory";
    ContainsAt("/memory" + "2.md", "/memory", 0);
  }

  lemma MemoryResolves()
    ensures Resolve([], "/memory") == ["memory"]
  {
    SplitMemory();
    assert ["", "memory"][1..] == ["memory"];
  }

  lemma SplitMemory()
    ensures Split("/memory", '/') == ["", "memory"]
  {
    var parts := ["", "memory"];
    assert Join(parts, "/") == "/memory";
    SplitJoin(parts, '/');
  }

  lemma SplitSibling()
    ensures Split("../memory2.md", '/') == ["..", "memory2.md"]
  {
    var parts := ["..", "memory2.md"];
    assert Join(parts, "/") == "../memory2.md";
    SplitJoin(parts, '/');
  }

  lemma SiblingResolves()
    ensures Resolve([], PathJoin("/memory", "../memory2.md")) == ["memory2.md"]
  {
    var full := PathJoin("/memory", "../memory2.md");
    assert full == "/memory" + "/" + "../memory2.md";
    SplitMemory();
    SplitSibling();
    SplitAppend("/memory", '/', "../memory2.md");
    assert Split(full, '/') == ["", "memory", "..", "memory2.md"];
    WalkSibling();
  }

  lemma WalkSibling()
    ensures Walk([], ["", "memory", "..", "memory2.md"]) == ["memory2.md"]
  {
    var parts := ["", "memory", "..", "memory2.md"];
    assert parts[1..] == ["memory", "..", "memory2.md"];
    assert parts[1..][1..] == ["..", "memory2.md"];
    assert parts[1..][1..][1..] == ["memory2.md"];
  }

  /** `_resolve_path` with whole-component containment: the request is
    * allowed exactly when it resolves inside the section's base. */
  function ResolvePath(cwd: seq<string>, skillsDir: string, memoryDir: string,
                       section: string, filePath: string): (r: Resolved)
    requires NormalForm(cwd)
    ensures r.Allowed? ==> r.path == Resolve(cwd, PathJoin(BaseOf(section, skillsDir, memoryDir), filePath))
    ensures r.Allowed? <==> Under(Resolve(cwd, PathJoin(BaseOf(section, skillsDir, memoryDir), filePath)),
                                  Resolve(cwd, BaseOf(section, skillsDir, memoryDir)))
  {
    var base := BaseOf(section, skillsDir, memoryDir);
    var resolved := Resolve(cwd, PathJoin(base, filePath));
    if !Under(resolved, Resolve(cwd, base)) then Denied else Allowed(resolved)
  }

  /** The corrected test refuses everything the text test refuses, and
    * the counterexample besides. */
  lemma CorrectedRefusesMore(cwd: seq<string>, skillsDir: string, memoryDir: string, section: string, filePath: string)
    requires NormalForm(cwd)
    ensures ResolvePath(cwd, skillsDir, memoryDir, section, filePath).Allowed? ==>
      ResolvePathAsWritten(cwd, skillsDir, memoryDir, section, filePath)
        == ResolvePath(cwd, skillsDir, memoryDir, section, filePath)
    ensures ResolvePath([], "/skills", "/memory", "memory", "../memory2.md") == Denied
  {
    var base := BaseOf(section, skillsDir, memoryDir);
    var resolved := Resolve(cwd, PathJoin(base, filePath));
    if Under(resolved, Resolve(cwd, base)) {
      UnderStartsWith(resolved, Resolve(cwd, base));
    }
    AsWrittenEscapes();
  }

  /** A relative request without ".." is always allowed. */
  lemma PlainPathAllowed(cwd: seq<string>, skillsDir: string, memoryDir: string, section: string, filePath: string)
    requires NormalForm(cwd)
    requires var base := BaseOf(section, skillsDir, memoryDir);
      base != [] && base[0] == '/' && base[|base| - 1] != '/'
    requires filePath != [] && filePath[0] != '/' && NoDotDot(Split(filePath, '/'))
    ensures ResolvePath(cwd, skillsDir, memoryDir, section, filePath).Allowed?
  {
    JoinStaysUnder(cwd, BaseOf(section, skillsDir, memoryDir), filePath);
  }

  /** The files (with their text) and the directories below the root. */
  datatype Fs = Fs(files: map<seq<string>, string>, dirs: set<seq<string>>)

  /** The root is a directory; no path is both a file and a directory; the
    * parent of every file and every directory is a directory. */
  predicate Valid(fs: Fs)
  {
    && (forall p :: p in fs.files ==> p !in fs.dirs && p != [])
    && (forall p :: p in fs.files ==> IsDir(fs, Parent(p)))
    && (forall p :: p in fs.dirs ==> IsDir(fs, Parent(p)))
  }

  predicate IsDir(fs: Fs, p: seq<string>)
  {
    p == [] || p in fs.dirs
  }

  /** `Path.exists()` */
  predicate Exists(fs: Fs, p: seq<string>)
  {
    IsDir(fs, p) || p in fs.files
  }

  /** `Path.parent`: the root is its own parent. */
  function Parent(p: seq<string>): (r: seq<string>)
    ensures p != [] ==> |r| == |p| - 1 && Under(p, r)
  {
    if p == [] then [] else p[..|p| - 1]
  }

  /** What the file endpoints answer: a file's text, or a status code. A
    * read of a directory or a write into one fails inside the handler
    * (500). */
  datatype Reply = Content(path: string, content: string) | Status(code: nat)

  /** `read_file` with the corrected containment test. */
  function ReadFile(fs: Fs, cwd: seq<string>, skillsDir: string, memoryDir: string,
                    section: string, path: string): (r: Reply)
    requires NormalForm(cwd)
    ensures r == Status(403) <==> ResolvePath(cwd, skillsDir, memoryDir, section, path).Denied?
    ensures r == Status(404) <==>
      && ResolvePath(cwd, skillsDir, memoryDir, section, path).Allowed?
      && !Exists(fs, ResolvePath(cwd, skillsDir, memoryDir, section, path).path)
    ensures r.Content? ==>
      && ResolvePath(cwd, skillsDir, memoryDir, section, path).Allowed?
      && var p := ResolvePath(cwd, skillsDir, memoryDir, section, path).path;
         p in fs.files && r == Content(path, fs.files[p])
  {
    var resolved := ResolvePath(cwd, skillsDir, memoryDir, section, path);
    if resolved.Denied? then Status(403)
    else if !Exists(fs, resolved.path) then Status(404)
    else if resolved.path in fs.files then Content(path, fs.files[resolved.path])
    else Status(500)
  }

  /** The outcome of a write: the new file system, or a status code. */
  datatype Written = Saved(fs: Fs) | Refused(code: nat)

  /** `write_file` with the corrected containment test: 404 when the parent
    * directory is missing, otherwise the file's text is replaced (or the
    * file made) and nothing else changes. */
  function WriteFile(fs: Fs, cwd: seq<string>, skillsDir: string, memoryDir: string,
                     section: string, path: string, content: string): (r: Written)
    requires NormalForm(cwd)
    ensures r == Refused(403) <==> ResolvePath(cwd, skillsDir, memoryDir, section, path).Denied?
    ensures r == Refused(404) <==>
      && ResolvePath(cwd, skillsDir, memoryDir, section, path).Allowed?
      && !Exists(fs, Parent(ResolvePath(cwd, skillsDir, memoryDir, section, path).path))
    ensures r.Saved? ==>
      && ResolvePath(cwd, skillsDir, memoryDir, section, path).Allowed?
      && var p := ResolvePath(cwd, skillsDir, memoryDir, section, path).path;
         && IsDir(fs, Parent(p)) && !IsDir(fs, p)
         && r.fs == Fs(fs.files[p := content], fs.dirs)
  {
    var resolved := ResolvePath(cwd, skillsDir, memoryDir, section, path);
    if resolved.Denied? then Refused(403)
    else
      var p := resolved.path;
      if !Exists(fs, Parent(p)) then Refused(404)
      else if !IsDir(fs, Parent(p)) || IsDir(fs, p) then Refused(500)
      else Saved(Fs(fs.files[p := content], fs.dirs))
  }

  /** A write keeps the file system well formed. */
  lemma WriteKeepsValid(fs: Fs, cwd: seq<string>, skillsDir: string, memoryDir: string,
                        section: string, path: string, content: string)
    requires NormalForm(cwd) && Valid(fs)
    requires WriteFile(fs, cwd, skillsDir, memoryDir, section, path, content).Saved?
    ensures Valid(WriteFile(fs, cwd, skillsDir, memoryDir, section, path, content).fs)
  {
  }

  /** What was written is read back, under the same request. */
  lemma ReadAfterWrite(fs: Fs, cwd: seq<string>, skillsDir: string, memoryDir: string,
                       section: string, path: string, content: string)
    requires NormalForm(cwd)
    requires WriteFile(fs, cwd, skillsDir, memoryDir, section, path, content).Saved?
    ensures ReadFile(WriteFile(fs, cwd, skillsDir, memoryDir, section, path, content).fs,
                     cwd, skillsDir, memoryDir, section, path) == Content(path, content)
  {
  }

  /** A write changes no other file: every other request reads as before. */
  lemma WriteIsolated(fs: Fs, cwd: seq<string>, skillsDir: string, memoryDir: string,
                      section: string, path: string, content: string,
                      section2: string, path2: string)
    requires NormalForm(cwd)
    requires WriteFile(fs, cwd, skillsDir, memoryDir, section, path, content).Saved?
    requires ResolvePath(cwd, skillsDir, memoryDir, section2, path2)
             != ResolvePath(cwd, skillsDir, memoryDir, section, path)
    ensures ReadFile(WriteFile(fs, cwd, skillsDir, memoryDir, section, path, content).fs,
                     cwd, skillsDir, memoryDir, section2, path2)
            == ReadFile(fs, cwd, skillsDir, memoryDir, section2, path2)
  {
  }
}
