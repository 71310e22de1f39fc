/** The chat context loader: listing the Markdown files of the skills and
  * memory trees, and concatenating selected files into one context text.
  * A tree is given as the relative paths it holds and a map from the
  * relative path of each existing file to its text; reading from disk is
  * left out. */
module SkillLoader {
  import opened Common
  import opened Sorting

  const DefaultSkillFiles: seq<string> :=
    ["INDEX.md", "manifest-lock.md", "content/content-mix.md",
     "content/hook-architecture.md", "content/what-never-works.md"]

  const DefaultMemoryFiles: seq<string> := ["post-performance.md", "failure-log.md", "x-trends.md"]

  /** The paths of a tree that `rglob("*.md")` matches. */
  function MarkdownPaths(paths: seq<string>): (r: seq<string>)
    ensures forall p :: p in r <==> p in paths && EndsWith(p, ".md")
  {
    if paths == [] then []
    else (if EndsWith(paths[0], ".md") then [paths[0]] else []) + MarkdownPaths(paths[1..])
  }

  /** `list_skill_files` and `list_memory_files`: the Markdown files of a
    * tree, sorted; none when the directory is missing (`None`). */
  function ListMarkdown(tree: Option<seq<string>>): (r: seq<string>)
    ensures tree.None? ==> r == []
    ensures StrictlySorted(r)
    ensures forall p :: p in r <==> tree.Some? && p in tree.value && EndsWith(p, ".md")
  {
    if tree.None? then [] else SortedSet(MarkdownPaths(tree.value))
  }

  function SkillPart(name: string, content: string): string
  {
    "=== SKILL: " + name + " ===\n" + content
  }

  function MemoryPart(name: string, content: string): string
  {
    "=== MEMORY: " + name + " ===\n" + content
  }

  /** The parts for the names read so far, in their order: one for each
    * name that `entry` gives a part for. */
  function Parts(names: seq<string>, entry: string -> Option<string>): (r: seq<string>)
    ensures |r| <= |names|
  {
    if names == [] then []
    else
      var e := entry(names[|names| - 1]);
      Parts(names[..|names| - 1], entry) + (if e.Some? then [e.value] else [])
  }

  /** A skill file gives its part when it exists, with its text unchanged. */
  function SkillEntry(skills: map<string, string>, name: string): Option<string>
  {
    if name in skills then Some(SkillPart(name, skills[name])) else None
  }

  /** A memory file gives its part when it exists and its stripped text is
    * not empty; the part carries the stripped text. */
  function MemoryEntry(memory: map<string, string>, name: string): Option<string>
  {
    if name in memory && Strip(memory[name]) != "" then Some(MemoryPart(name, Strip(memory[name]))) else None
  }

  function SkillParts(names: seq<string>, skills: map<string, string>): seq<string>
  {
    Parts(names, n => SkillEntry(skills, n))
  }

  function MemoryParts(names: seq<string>, memory: map<string, string>): seq<string>
  {
    Parts(names, n => MemoryEntry(memory, n))
  }

  /** One more name adds its part, if any, at the end. */
  lemma PartsStep(names: seq<string>, i: nat, entry: string -> Option<string>)
    requires i < |names|
    ensures entry(names[i]).None? ==> Parts(names[..i + 1], entry) == Parts(names[..i], entry)
    ensures entry(names[i]).Some? ==>
              Parts(names[..i + 1], entry) == Parts(names[..i], entry) + [entry(names[i]).value]
  {
    assert names[..i + 1][..i] == names[..i];
    assert names[..i + 1][i] == names[i];
    if entry(names[i]).None? {
      assert Parts(names[..i], entry) + [] == Parts(names[..i], entry);
    }
  }

  function Selected(files: Option<seq<string>>, defaults: seq<string>): seq<string>
  {
    if files.Some? then files.value else defaults
  }

  /** `load_context`: the skill parts, then the memory parts, joined by a
    * blank line; an omitted list selects the default files. */
  method LoadContext(skillFiles: Option<seq<string>>, memoryFiles: Option<seq<string>>,
                     skills: map<string, string>, memory: map<string, string>)
    returns (context: string)
    ensures context == Join(SkillParts(Selected(skillFiles, DefaultSkillFiles), skills)
                            + MemoryParts(Selected(memoryFiles, DefaultMemoryFiles), memory), "\n\n")
  {
    var skillNames := if skillFiles.None? then DefaultSkillFiles else skillFiles.value;
    var memoryNames := if memoryFiles.None? then DefaultMemoryFiles else memoryFiles.value;
    var parts := CollectSkills(skillNames, skills);
    parts := CollectMemory(parts, memoryNames, memory);
    context := Join(parts, "\n\n");
  }

  /** The skill loop of `load_context`. */
  method CollectSkills(names: seq<string>, skills: map<string, string>) returns (parts: seq<string>)
    ensures parts == SkillParts(names, skills)
  {
    parts := [];
    for i := 0 to |names|
      invariant parts == SkillParts(names[..i], skills)
    {
      PartsStep(names, i, n => SkillEntry(skills, n));
      var name := names[i];
      if name in skills {
        parts := parts + [SkillPart(name, skills[name])];
      }
    }
    assert names[..|names|] == names;
  }

  /** The memory loop of `load_context`, appending to the skill parts. */
  method CollectMemory(before: seq<string>, names: seq<string>, memory: map<string, string>)
    returns (parts: seq<string>)
    ensures parts == before + MemoryParts(names, memory)
  {
    parts := before;
    ghost var added: seq<string> := [];
    for i := 0 to |names|
      invariant added == MemoryParts(names[..i], memory)
      invariant parts == before + added
    {
      PartsStep(names, i, n => MemoryEntry(memory, n));
      var name := names[i];
      if name in memory {
        var content := Strip(memory[name]);
        if content != "" {
          parts := parts + [MemoryPart(name, content)];
          added := added + [MemoryPart(name, content)];
        }
      }
    }
    assert names[..|names|] == names;
  }

  /** The parts keep the order of the names: reading two lists one after
    * the other gives the parts of the first, then those of the second. */
  lemma {:induction false} PartsAppend(a: seq<string>, b: seq<string>, entry: string -> Option<string>)
    ensures Parts(a + b, entry) == Parts(a, entry) + Parts(b, entry)
    decreases |b|
  {
    if b == [] {
      assert a + b == a;
    } else {
      var b' := b[..|b| - 1];
      assert (a + b)[..|a + b| - 1] == a + b';
      PartsAppend(a, b', entry);
    }
  }

  /** A part is there exactly when some listed name gives it. */
  lemma {:induction false} PartsMembers(names: seq<string>, entry: string -> Option<string>, p: string)
    ensures p in Parts(names, entry) <==> exists k :: 0 <= k < |names| && entry(names[k]) == Some(p)
  {
    if names != [] {
      var init := names[..|names| - 1];
      PartsMembers(init, entry, p);
      if p in Parts(names, entry) {
        if p in Parts(init, entry) {
          var k :| 0 <= k < |init| && entry(init[k]) == Some(p);
          assert names[k] == init[k];
        } else {
          assert entry(names[|names| - 1]) == Some(p);
        }
      } else {
        forall k | 0 <= k < |names| ensures entry(names[k]) != Some(p) {
          if k < |init| {
            assert init[k] == names[k];
          }
        }
      }
    }
  }

  /** A skill part is there exactly for a listed name whose file exists,
    * with the file's text as it is. */
  lemma SkillPartsMembers(names: seq<string>, skills: map<string, string>, p: string)
    ensures p in SkillParts(names, skills) <==>
            exists k :: 0 <= k < |names| && names[k] in skills && p == SkillPart(names[k], skills[names[k]])
  {
    PartsMembers(names, n => SkillEntry(skills, n), p);
  }

  /** A memory part is there exactly for a listed name whose file exists and
    * is not blank, with the file's text stripped. */
  lemma MemoryPartsMembers(names: seq<string>, memory: map<string, string>, p: string)
    ensures p in MemoryParts(names, memory) <==>
            exists k :: 0 <= k < |names| && names[k] in memory && Strip(memory[names[k]]) != ""
                        && p == MemoryPart(names[k], Strip(memory[names[k]]))
  {
    PartsMembers(names, n => MemoryEntry(memory, n), p);
  }

  /** With no selected file present, the context is empty. */
  lemma {:induction false} NothingFound(skillNames: seq<string>, memoryNames: seq<string>,
                                        skills: map<string, string>, memory: map<string, string>)
    requires forall k :: 0 <= k < |skillNames| ==> skillNames[k] !in skills
    requires forall k :: 0 <= k < |memoryNames| ==> memoryNames[k] !in memory
    ensures Join(SkillParts(skillNames, skills) + MemoryParts(memoryNames, memory), "\n\n") == ""
  {
    if SkillParts(skillNames, skills) != [] {
      SkillPartsMembers(skillNames, skills, SkillParts(skillNames, skills)[0]);
    }
    if MemoryParts(memoryNames, memory) != [] {
      MemoryPartsMembers(memoryNames, memory, MemoryParts(memoryNames, memory)[0]);
    }
  }
}
