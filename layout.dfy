/** Text layout shared by the video scripts: the greedy word wrap, the
  * escaping that ffmpeg's drawtext filter needs, and the removal of
  * characters drawtext cannot render. Each script fixes its own line width,
  * its own character filter and whether double quotes are escaped. */
module Layout {
  import opened Common

  // ---------------------------------------------------------------------
  // Greedy word wrap (`wrap_text`)
  // ---------------------------------------------------------------------

  /** Every element is one word: non-empty and without blanks. */
  predicate AllWords(words: seq<string>)
  {
    forall k :: 0 <= k < |words| ==> words[k] != [] && NoSpace(words[k])
  }

  /** Two texts with one blank between them when both are non-empty. */
  function Glue(a: string, b: string): string
  {
    if a == [] then b else if b == [] then a else a + " " + b
  }

  /** The source's `f"{current} {word}".strip()` is `Glue(current, word)`
    * while `current` is stripped and `word` is one word. */
  lemma GlueIsStrip(current: string, word: string)
    requires IsStripped(current)
    requires word != [] && NoSpace(word)
    ensures Strip(current + " " + word) == Glue(current, word)
    ensures IsStripped(Glue(current, word))
  {
    var s := current + " " + word;
    if current == [] {
      assert s[1..] == word;
      assert !IsSpace(word[0]) && !IsSpace(word[|word| - 1]);
    } else {
      assert s[0] == current[0] && s[|s| - 1] == word[|word| - 1];
    }
  }

  /** The greedy wrap: `current` is the line being filled and `done` the
    * lines already closed. A word that would make the line wider than `max`,
    * as `width` measures it, closes it, unless the line is still empty. */
  function WrapFrom(words: seq<string>, width: string -> int, max: int, current: string, done: seq<string>): seq<string>
    decreases |words|
  {
    if words == [] then (if current == [] then done else done + [current])
    else
      var test := Glue(current, words[0]);
      if width(test) > max && current != [] then WrapFrom(words[1..], width, max, words[0], done + [current])
      else WrapFrom(words[1..], width, max, test, done)
  }

  /** A single word has nothing to strip. */
  lemma WordStripped(word: string)
    requires word != [] && NoSpace(word)
    ensures IsStripped(word)
  {
    assert !IsSpace(word[0]) && !IsSpace(word[|word| - 1]);
  }

  /** One step of the wrap: the first word either closes the line or joins it. */
  lemma WrapFromStep(words: seq<string>, width: string -> int, max: int, current: string, done: seq<string>)
    requires words != []
    ensures WrapFrom(words, width, max, current, done)
      == if width(Glue(current, words[0])) > max && current != []
         then WrapFrom(words[1..], width, max, words[0], done + [current])
         else WrapFrom(words[1..], width, max, Glue(current, words[0]), done)
  {
  }

  /** A line's width counted in characters. */
  function Length(line: string): int
  {
    |line|
  }

  /** The wrap the video scripts use: at most `max` characters a line. */
  function Wrap(words: seq<string>, max: nat): seq<string>
  {
    WrapFrom(words, Length, max, "", [])
  }

  /** A line fits when it is non-empty and at most `max` wide, or a single
    * word that is wider on its own. */
  predicate Fits(line: string, width: string -> int, max: int)
  {
    line != [] && (width(line) <= max || NoSpace(line))
  }

  lemma GlueAssoc(a: string, b: string, c: string)
    ensures Glue(Glue(a, b), c) == Glue(a, Glue(b, c))
  {
    if a != [] && b != [] && c != [] {
      assert (a + " " + b) + " " + c == a + " " + (b + " " + c);
    }
  }

  /** Joining non-empty lines gives the empty text only for no lines. */
  lemma {:induction false} JoinNonEmpty(lines: seq<string>)
    requires forall k :: 0 <= k < |lines| ==> lines[k] != []
    ensures Join(lines, " ") == [] <==> lines == []
  {
    if |lines| > 1 {
      assert Join(lines, " ") == lines[0] + " " + Join(lines[1..], " ");
    }
  }

  /** Joining words with blanks, one word at a time from the front. */
  lemma JoinWordsCons(words: seq<string>)
    requires words != [] && AllWords(words)
    ensures Join(words, " ") == Glue(words[0], Join(words[1..], " "))
  {
    JoinNonEmpty(words[1..]);
  }

  /** Closing a line appends it to the joined text. */
  lemma JoinLinesSnoc(done: seq<string>, current: string)
    requires forall k :: 0 <= k < |done| ==> done[k] != []
    requires current != []
    ensures Join(done + [current], " ") == Glue(Join(done, " "), current)
  {
    JoinNonEmpty(done);
    if done != [] {
      JoinSnoc(done, current, " ");
    } else {
      assert done + [current] == [current];
    }
  }

  lemma {:induction false} WrapFromJoin(words: seq<string>, width: string -> int, max: int, current: string, done: seq<string>)
    requires AllWords(words)
    requires forall k :: 0 <= k < |done| ==> done[k] != []
    ensures Join(WrapFrom(words, width, max, current, done), " ") == Glue(Glue(Join(done, " "), current), Join(words, " "))
    decreases |words|
  {
    var J := Join(done, " ");
    if words == [] {
      if current != [] {
        JoinLinesSnoc(done, current);
      }
    } else {
      var w, rest := words[0], words[1..];
      var test := Glue(current, w);
      JoinWordsCons(words);
      assert AllWords(rest);
      if width(test) > max && current != [] {
        WrapFromJoin(rest, width, max, w, done + [current]);
        JoinLinesSnoc(done, current);
        GlueAssoc(Glue(J, current), w, Join(rest, " "));
      } else {
        WrapFromJoin(rest, width, max, test, done);
        GlueAssoc(J, current, w);
        GlueAssoc(Glue(J, current), w, Join(rest, " "));
      }
    }
  }

  /** The wrap keeps the words and their order: its lines joined by single
    * blanks are the words joined by single blanks. */
  lemma WrapKeepsWords(words: seq<string>, width: string -> int, max: int)
    requires AllWords(words)
    ensures Join(WrapFrom(words, width, max, "", []), " ") == Join(words, " ")
  {
    WrapFromJoin(words, width, max, "", []);
  }

  lemma {:induction false} WrapFromFits(words: seq<string>, width: string -> int, max: int, current: string, done: seq<string>)
    requires AllWords(words)
    requires forall k :: 0 <= k < |done| ==> Fits(done[k], width, max)
    requires current == [] || Fits(current, width, max)
    ensures forall k :: 0 <= k < |WrapFrom(words, width, max, current, done)| ==>
              Fits(WrapFrom(words, width, max, current, done)[k], width, max)
    decreases |words|
  {
    if words != [] {
      var w := words[0];
      var test := Glue(current, w);
      assert AllWords(words[1..]);
      if width(test) > max && current != [] {
        WrapFromFits(words[1..], width, max, w, done + [current]);
      } else {
        assert test != [] && (current == [] ==> test == w);
        WrapFromFits(words[1..], width, max, test, done);
      }
    }
  }

  /** No line is empty, and a line wider than `max` is one word. */
  lemma WrapLinesFit(words: seq<string>, width: string -> int, max: int)
    requires AllWords(words)
    ensures forall k :: 0 <= k < |WrapFrom(words, width, max, "", [])| ==>
              Fits(WrapFrom(words, width, max, "", [])[k], width, max)
  {
    WrapFromFits(words, width, max, "", []);
  }

  /** The source's `f"{current} {word}".strip()`. */
  function Joined(current: string, word: string): (r: string)
    requires IsStripped(current)
    requires word != [] && NoSpace(word)
    ensures r == Glue(current, word) && IsStripped(r)
  {
    GlueIsStrip(current, word);
    Strip(current + " " + word)
  }

  /** The greedy word wrap of `wrap_text(text, max_chars)` and of
    * `add_text_overlay`: splits on blanks and fills each line greedily. */
  method WrapText(text: string, width: string -> int, max: int) returns (lines: seq<string>)
    ensures lines == WrapFrom(Words(text), width, max, "", [])
    ensures Join(lines, " ") == Join(Words(text), " ")
    ensures forall k :: 0 <= k < |lines| ==> Fits(lines[k], width, max)
  {
    var words := Words(text);
    assert AllWords(words);
    lines := [];
    var current := "";
    var i := 0;
    assert words[0..] == words;
    while i < |words|
      invariant 0 <= i <= |words|
      invariant IsStripped(current)
      invariant WrapFrom(words[i..], width, max, current, lines) == WrapFrom(words, width, max, "", [])
    {
      var word := words[i];
      var test := Joined(current, word);
      WrapFromStep(words[i..], width, max, current, lines);
      assert words[i..][0] == word && words[i..][1..] == words[i + 1..];
      if width(test) > max && current != [] {
        lines := lines + [current];
        current := word;
        WordStripped(word);
      } else {
        current := test;
      }
      i := i + 1;
    }
    assert words[i..] == [];
    if current != [] {
      lines := lines + [current];
    }
    WrapKeepsWords(words, width, max);
    WrapLinesFit(words, width, max);
  }

  // ---------------------------------------------------------------------
  // drawtext escaping (`escape_drawtext`)
  // ---------------------------------------------------------------------

  /** `s.replace(c, "\\" + c)` */
  function Escape(s: string, c: char): string
  {
    if s == [] then [] else (if s[0] == c then ['\\', c] else [s[0]]) + Escape(s[1..], c)
  }

  /** The source's chain of replacements: the ASCII apostrophe becomes
    * U+2019, then backslashes are doubled, then ":" and ";" are escaped, and
    * the reel scripts (`quotes`) also escape '"'. */
  function EscapeSteps(t: string, quotes: bool): string
  {
    var a := ReplaceChar(t, '\'', '\U{2019}');
    var b := Escape(a, '\\');
    var c := Escape(b, ':');
    var d := Escape(c, ';');
    if quotes then Escape(d, '"') else d
  }

  /** The characters drawtext reads specially and that the escaping protects. */
  predicate Special(c: char, quotes: bool)
  {
    c == '\\' || c == ':' || c == ';' || (quotes && c == '"')
  }

  /** What the escaping does to one character. */
  function EscapeChar(c: char, quotes: bool): string
  {
    if c == '\'' then ['\U{2019}'] else if Special(c, quotes) then ['\\', c] else [c]
  }

  /** Reference definition: each character escaped on its own. */
  function EscapeEach(s: string, quotes: bool): string
  {
    if s == [] then [] else EscapeChar(s[0], quotes) + EscapeEach(s[1..], quotes)
  }

  /** Reading drawtext's escapes: a backslash takes the next character literally. */
  function Unescape(r: string): string
  {
    if r == [] then []
    else if r[0] == '\\' && |r| >= 2 then [r[1]] + Unescape(r[2..])
    else [r[0]] + Unescape(r[1..])
  }

  /** Well escaped: every special character stands right after a backslash
    * that escapes it, no backslash is left dangling, and no ASCII apostrophe
    * is left. */
  predicate WellEscaped(r: string, quotes: bool)
    decreases |r|
  {
    r == []
    || (r[0] == '\\' && |r| >= 2 && Special(r[1], quotes) && WellEscaped(r[2..], quotes))
    || (!Special(r[0], quotes) && r[0] != '\'' && WellEscaped(r[1..], quotes))
  }

  lemma {:induction false} EscapeAppend(p: string, q: string, c: char)
    ensures Escape(p + q, c) == Escape(p, c) + Escape(q, c)
  {
    if p != [] {
      var h := if p[0] == c then ['\\', c] else [p[0]];
      assert (p + q)[0] == p[0] && (p + q)[1..] == p[1..] + q;
      EscapeAppend(p[1..], q, c);
      assert Escape(p + q, c) == h + Escape(p[1..] + q, c);
      assert Escape(p, c) == h + Escape(p[1..], c);
    } else {
      assert p + q == q;
    }
  }

  lemma EscapeOne(x: char, c: char)
    ensures Escape([x], c) == if x == c then ['\\', c] else [x]
  {
    assert [x][1..] == [];
  }

  lemma EscapeTwo(x: char, y: char, c: char)
    ensures Escape([x, y], c) == Escape([x], c) + Escape([y], c)
  {
    EscapeAppend([x], [y], c);
    assert [x] + [y] == [x, y];
  }

  /** The chain of replacements on one character. */
  lemma StepsOne(x: char, quotes: bool)
    ensures EscapeSteps([x], quotes) == EscapeChar(x, quotes)
  {
    assert [x][1..] == [];
    var a := ReplaceChar([x], '\'', '\U{2019}');
    assert a == [if x == '\'' then '\U{2019}' else x];
    var y := a[0];
    EscapeOne(y, '\\');
    if y == '\\' {
      EscapeTwo('\\', '\\', ':');
      EscapeOne('\\', ':');
      EscapeTwo('\\', '\\', ';');
      EscapeOne('\\', ';');
      EscapeTwo('\\', '\\', '"');
      EscapeOne('\\', '"');
    } else {
      EscapeOne(y, ':');
      if y == ':' {
        EscapeTwo('\\', ':', ';');
        EscapeOne('\\', ';');
        EscapeOne(':', ';');
        EscapeTwo('\\', ':', '"');
        EscapeOne('\\', '"');
        EscapeOne(':', '"');
      } else {
        EscapeOne(y, ';');
        if y == ';' {
          EscapeTwo('\\', ';', '"');
          EscapeOne('\\', '"');
          EscapeOne(';', '"');
        } else {
          EscapeOne(y, '"');
        }
      }
    }
  }

  lemma {:induction false} ReplaceAppend(p: string, q: string)
    ensures ReplaceChar(p + q, '\'', '\U{2019}') == ReplaceChar(p, '\'', '\U{2019}') + ReplaceChar(q, '\'', '\U{2019}')
  {
    if p != [] {
      assert (p + q)[0] == p[0] && (p + q)[1..] == p[1..] + q;
      ReplaceAppend(p[1..], q);
    }
  }

  /** The three backslash escapes of the chain. */
  function EscapeThree(a: string): string
  {
    Escape(Escape(Escape(a, '\\'), ':'), ';')
  }

  lemma EscapeThreeAppend(p: string, q: string)
    ensures EscapeThree(p + q) == EscapeThree(p) + EscapeThree(q)
  {
    EscapeAppend(p, q, '\\');
    var bp, bq := Escape(p, '\\'), Escape(q, '\\');
    EscapeAppend(bp, bq, ':');
    EscapeAppend(Escape(bp, ':'), Escape(bq, ':'), ';');
  }

  lemma StepsAppend(p: string, q: string, quotes: bool)
    ensures EscapeSteps(p + q, quotes) == EscapeSteps(p, quotes) + EscapeSteps(q, quotes)
  {
    var ap, aq := ReplaceChar(p, '\'', '\U{2019}'), ReplaceChar(q, '\'', '\U{2019}');
    ReplaceAppend(p, q);
    EscapeThreeAppend(ap, aq);
    assert EscapeThree(ap + aq) == EscapeThree(ap) + EscapeThree(aq);
    EscapeAppend(EscapeThree(ap), EscapeThree(aq), '"');
  }

  /** The chain of replacements escapes each character on its own, so the
    * order of the replacements cannot escape an inserted backslash twice. */
  lemma {:induction false} StepsEach(s: string, quotes: bool)
    ensures EscapeSteps(s, quotes) == EscapeEach(s, quotes)
  {
    if s != [] {
      assert s == [s[0]] + s[1..];
      StepsAppend([s[0]], s[1..], quotes);
      StepsOne(s[0], quotes);
      StepsEach(s[1..], quotes);
    }
  }

  lemma {:induction false} EachProperties(s: string, quotes: bool)
    ensures WellEscaped(EscapeEach(s, quotes), quotes)
    ensures Unescape(EscapeEach(s, quotes)) == ReplaceChar(s, '\'', '\U{2019}')
  {
    if s != [] {
      EachProperties(s[1..], quotes);
      var e, rest := EscapeChar(s[0], quotes), EscapeEach(s[1..], quotes);
      var r := e + rest;
      if |e| == 2 {
        assert r[2..] == rest;
      } else {
        assert r[1..] == rest;
      }
    }
  }

  /** The escaped text leaves no apostrophe and no unescaped special
    * character, and drawtext reads back the input with the apostrophe
    * replaced by U+2019. */
  lemma EscapeStepsProperties(s: string, quotes: bool)
    ensures WellEscaped(EscapeSteps(s, quotes), quotes)
    ensures Unescape(EscapeSteps(s, quotes)) == ReplaceChar(s, '\'', '\U{2019}')
  {
    StepsEach(s, quotes);
    EachProperties(s, quotes);
  }

  /** A well escaped text has no ASCII apostrophe. */
  lemma {:induction false} WellEscapedNoApostrophe(r: string, quotes: bool)
    requires WellEscaped(r, quotes)
    ensures '\'' !in r
    decreases |r|
  {
    if r != [] {
      if r[0] == '\\' && |r| >= 2 && Special(r[1], quotes) && WellEscaped(r[2..], quotes) {
        WellEscapedNoApostrophe(r[2..], quotes);
        assert r == [r[0], r[1]] + r[2..];
      } else {
        WellEscapedNoApostrophe(r[1..], quotes);
        assert r == [r[0]] + r[1..];
      }
    }
  }

  // ---------------------------------------------------------------------
  // Removing characters drawtext cannot render (`strip_emojis`)
  // ---------------------------------------------------------------------

  /** The characters of `s` that satisfy `keep`, in order. */
  function Keep(s: string, keep: char -> bool): (r: string)
    ensures |r| <= |s|
    ensures forall k :: 0 <= k < |r| ==> keep(r[k])
    ensures |s| == 1 ==> r == if keep(s[0]) then s else []
  {
    if s == [] then [] else (if keep(s[0]) then [s[0]] else []) + Keep(s[1..], keep)
  }

  /** `Keep` works character by character: it distributes over concatenation. */
  lemma {:induction false} KeepAppend(p: string, q: string, keep: char -> bool)
    ensures Keep(p + q, keep) == Keep(p, keep) + Keep(q, keep)
  {
    if p != [] {
      var h := if keep(p[0]) then [p[0]] else [];
      assert (p + q)[0] == p[0] && (p + q)[1..] == p[1..] + q;
      KeepAppend(p[1..], q, keep);
      assert Keep(p + q, keep) == h + Keep(p[1..] + q, keep);
      assert Keep(p, keep) == h + Keep(p[1..], keep);
    } else {
      assert p + q == q;
    }
  }

  /** `Keep` leaves a text whose characters all pass unchanged. */
  lemma {:induction false} KeepAll(s: string, keep: char -> bool)
    requires forall k :: 0 <= k < |s| ==> keep(s[k])
    ensures Keep(s, keep) == s
  {
    if s != [] {
      KeepAll(s[1..], keep);
    }
  }

  /** `r` is `s` with blanks, and only blanks, cut from both ends. */
  predicate TrimmedOf(r: string, s: string)
  {
    exists i :: 0 <= i <= |s| - |r| && s[i..i + |r|] == r && AllSpace(s[..i]) && AllSpace(s[i + |r|..])
  }

  /** The characters dropped, then the blanks at both ends trimmed. */
  function StripDropped(text: string, keep: char -> bool): (r: string)
    ensures IsStripped(r)
    ensures TrimmedOf(r, Keep(text, keep))
    ensures forall k :: 0 <= k < |r| ==> keep(r[k])
  {
    var kept := Keep(text, keep);
    var r := Strip(kept);
    assert TrimmedOf(r, kept) && forall k :: 0 <= k < |r| ==> r[k] in kept by {
      var i := StripSlice(kept);
      assert forall k :: 0 <= k < |r| ==> r[k] == kept[i + k];
    }
    r
  }

  /** Dropping and trimming twice is dropping and trimming once. */
  lemma StripDroppedIdempotent(text: string, keep: char -> bool)
    ensures StripDropped(StripDropped(text, keep), keep) == StripDropped(text, keep)
  {
    var r := StripDropped(text, keep);
    KeepAll(r, keep);
    StripStripped(r);
  }

  // ---------------------------------------------------------------------
  // drawtext filters
  // ---------------------------------------------------------------------

  /** One `key=value` option of a drawtext filter. */
  datatype Opt = Opt(key: string, value: string)

  function OptTexts(opts: seq<Opt>): seq<string>
  {
    if opts == [] then [] else [opts[0].key + "=" + opts[0].value] + OptTexts(opts[1..])
  }

  /** `drawtext=` followed by the options separated by ":". */
  function RenderDrawtext(opts: seq<Opt>): string
  {
    "drawtext=" + Join(OptTexts(opts), ":")
  }

  /** The key of some option. */
  predicate HasKey(opts: seq<Opt>, key: string)
  {
    exists k :: 0 <= k < |opts| && opts[k].key == key
  }
}
