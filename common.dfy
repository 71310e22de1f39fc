/** Shared value types and the Python/JavaScript string operations the
  * scripts and services rely on, written out on `seq<char>`. */
module Common {

  datatype Option<T> = None | Some(value: T)

  /** A value or the message of the exception the source raises instead. */
  datatype Result<T> = Ok(value: T) | Err(error: string)

  /** Python's `str.isspace` set: the ASCII separators plus the Unicode
    * space characters that `str.strip()` and `str.split()` treat as blanks. */
  predicate IsSpace(c: char)
  {
    c == ' ' || c == '\t' || c == '\n' || c == '\r' || c == '\U{0B}' || c == '\U{0C}'
    || ('\U{1C}' <= c <= '\U{1F}') || c == '\U{85}' || c == '\U{A0}' || c == '\U{1680}'
    || ('\U{2000}' <= c <= '\U{200A}') || c == '\U{2028}' || c == '\U{2029}'
    || c == '\U{202F}' || c == '\U{205F}' || c == '\U{3000}'
  }

  /** `httpx.Response.is_success`: a 2xx status. An httpx response with
    * any other status makes `raise_for_status` raise (redirects are not
    * followed). */
  predicate IsSuccess(status: int)
  {
    200 <= status < 300
  }

  predicate NoSpace(s: string)
  {
    forall i :: 0 <= i < |s| ==> !IsSpace(s[i])
  }

  predicate AllSpace(s: string)
  {
    forall i :: 0 <= i < |s| ==> IsSpace(s[i])
  }

  predicate StartsWith(s: string, p: string)
  {
    |p| <= |s| && s[..|p|] == p
  }

  predicate EndsWith(s: string, p: string)
  {
    |p| <= |s| && s[|s| - |p|..] == p
  }

  /** `sub in s` for strings. */
  predicate Contains(s: string, sub: string)
  {
    StartsWith(s, sub) || (s != [] && Contains(s[1..], sub))
  }

  /** A stripped string neither starts nor ends with a blank. */
  predicate IsStripped(s: string)
  {
    s == [] || (!IsSpace(s[0]) && !IsSpace(s[|s| - 1]))
  }

  /** `s.lstrip()` */
  function TrimLeft(s: string): (r: string)
    ensures |r| <= |s| && r == s[|s| - |r|..]
    ensures AllSpace(s[..|s| - |r|])
    ensures r == [] || !IsSpace(r[0])
  {
    if |s| > 0 && IsSpace(s[0]) then
      var r := TrimLeft(s[1..]);
      TrimLeftStep(s, r);
      r
    else
      assert s[..0] == [];
      s
  }

  /** A blank first character joins the blanks `TrimLeft` drops. */
  lemma TrimLeftStep(s: string, r: string)
    requires |s| > 0 && IsSpace(s[0])
    requires |r| <= |s| - 1 && r == s[1..][|s| - 1 - |r|..] && AllSpace(s[1..][..|s| - 1 - |r|])
    ensures r == s[|s| - |r|..] && AllSpace(s[..|s| - |r|])
  {
    forall k | 0 <= k < |s| - |r|
      ensures IsSpace(s[k])
    {
      if k > 0 {
        assert s[k] == s[1..][..|s| - 1 - |r|][k - 1];
      }
    }
  }

  /** `s.rstrip()` */
  function TrimRight(s: string): (r: string)
    ensures |r| <= |s| && r == s[..|r|]
    ensures AllSpace(s[|r|..])
    ensures r == [] || !IsSpace(r[|r| - 1])
  {
    if |s| > 0 && IsSpace(s[|s| - 1]) then
      var r := TrimRight(s[..|s| - 1]);
      TrimRightStep(s, r);
      r
    else
      assert s[|s|..] == [];
      s
  }

  /** A blank last character joins the blanks `TrimRight` drops. */
  lemma TrimRightStep(s: string, r: string)
    requires |s| > 0 && IsSpace(s[|s| - 1])
    requires |r| <= |s| - 1 && r == s[..|s| - 1][..|r|] && AllSpace(s[..|s| - 1][|r|..])
    ensures r == s[..|r|] && AllSpace(s[|r|..])
  {
    forall k | |r| <= k < |s|
      ensures IsSpace(s[k])
    {
      if k < |s| - 1 {
        assert s[k] == s[..|s| - 1][|r|..][k - |r|];
      }
    }
  }

  /** `s.strip()`: blanks removed one at a time from either end until
    * neither end is blank. */
  function Strip(s: string): (r: string)
    ensures |r| <= |s|
    ensures IsStripped(r)
    decreases |s|
  {
    if |s| > 0 && IsSpace(s[0]) then Strip(s[1..])
    else if |s| > 0 && IsSpace(s[|s| - 1]) then Strip(s[..|s| - 1])
    else s
  }

  /** What `Strip` removes is blanks: the result is a slice of `s` with only
    * blanks before and after it. */
  lemma {:induction false} StripSlice(s: string) returns (i: nat)
    ensures i <= |s| - |Strip(s)| && Strip(s) == s[i..i + |Strip(s)|]
    ensures AllSpace(s[..i]) && AllSpace(s[i + |Strip(s)|..])
    decreases |s|
  {
    var r := Strip(s);
    if |s| > 0 && IsSpace(s[0]) {
      var j := StripSlice(s[1..]);
      SliceAfterBlank(s, r, j);
      i := j + 1;
    } else if |s| > 0 && IsSpace(s[|s| - 1]) {
      i := StripSlice(s[..|s| - 1]);
      SliceBeforeBlank(s, r, i);
    } else {
      i := 0;
      assert r == s[0..|s|];
      assert s[..0] == [] && s[|s|..] == [];
    }
  }

  /** A blank-surrounded slice of `s[1..]`, where `s[0]` is blank, is one of `s`. */
  lemma SliceAfterBlank(s: string, r: string, i: nat)
    requires |s| > 0 && IsSpace(s[0])
    requires i <= |s| - 1 - |r| && r == s[1..][i..i + |r|]
    requires AllSpace(s[1..][..i]) && AllSpace(s[1..][i + |r|..])
    ensures i + 1 <= |s| - |r| && r == s[i + 1..i + 1 + |r|]
    ensures AllSpace(s[..i + 1]) && AllSpace(s[i + 1 + |r|..])
  {
    forall k | i + 1 + |r| <= k < |s|
      ensures IsSpace(s[k])
    {
      assert s[k] == s[1..][i + |r|..][k - i - 1 - |r|];
    }
    forall k | 0 <= k < i + 1
      ensures IsSpace(s[k])
    {
      if k > 0 {
        assert s[k] == s[1..][..i][k - 1];
      }
    }
  }

  /** A blank-surrounded slice of `s[..|s| - 1]`, where the last character
    * of `s` is blank, is one of `s`. */
  lemma SliceBeforeBlank(s: string, r: string, i: nat)
    requires |s| > 0 && IsSpace(s[|s| - 1])
    requires i <= |s| - 1 - |r| && r == s[..|s| - 1][i..i + |r|]
    requires AllSpace(s[..|s| - 1][..i]) && AllSpace(s[..|s| - 1][i + |r|..])
    ensures i <= |s| - |r| && r == s[i..i + |r|]
    ensures AllSpace(s[..i]) && AllSpace(s[i + |r|..])
  {
    assert s[..i] == s[..|s| - 1][..i];
    forall k | i + |r| <= k < |s|
      ensures IsSpace(s[k])
    {
      if k < |s| - 1 {
        assert s[k] == s[..|s| - 1][i + |r|..][k - i - |r|];
      }
    }
  }

  /** The slice `s[:n]`. */
  function Take(s: string, n: nat): (r: string)
    ensures |r| == if |s| < n then |s| else n
    ensures StartsWith(s, r)
  {
    if |s| <= n then s else s[..n]
  }

  /** The slice `s[-n:]` for a positive `n`: the last `n` elements. */
  function LastN<T>(s: seq<T>, n: nat): (r: seq<T>)
    ensures |r| == if |s| < n then |s| else n
    ensures r == s[|s| - |r|..]
  {
    if |s| <= n then s else s[|s| - n..]
  }

  /** `s.replace(a, b)` for single characters. */
  function ReplaceChar(s: string, a: char, b: char): (r: string)
    ensures |r| == |s|
    ensures forall i :: 0 <= i < |s| ==> r[i] == (if s[i] == a then b else s[i])
  {
    if s == [] then [] else [if s[0] == a then b else s[0]] + ReplaceChar(s[1..], a, b)
  }

  /** `sep.join(parts)` */
  function Join(parts: seq<string>, sep: string): string
  {
    if |parts| == 0 then ""
    else if |parts| == 1 then parts[0]
    else parts[0] + sep + Join(parts[1..], sep)
  }

  /** `s.split(c)` for a one-character separator (Python `str.split(sep)` and
    * JavaScript `String.prototype.split`): always at least one part. */
  function Split(s: string, c: char): (r: seq<string>)
    ensures |r| >= 1
    ensures forall k :: 0 <= k < |r| ==> c !in r[k]
  {
    if |s| == 0 then [""]
    else if s[0] == c then [""] + Split(s[1..], c)
    else
      var rest := Split(s[1..], c);
      [[s[0]] + rest[0]] + rest[1..]
  }

  lemma {:induction false} SplitNoSep(s: string, c: char)
    requires c !in s
    ensures Split(s, c) == [s]
  {
    if |s| > 0 {
      SplitNoSep(s[1..], c);
      assert [s[0]] + s[1..] == s;
    }
  }

  lemma {:induction false} SplitCons(p: string, c: char, rest: string)
    requires c !in p
    ensures Split(p + [c] + rest, c) == [p] + Split(rest, c)
  {
    if |p| == 0 {
      assert p + [c] + rest == [c] + rest;
      assert ([c] + rest)[1..] == rest;
    } else {
      var s := p + [c] + rest;
      assert s[1..] == p[1..] + [c] + rest;
      SplitCons(p[1..], c, rest);
      assert [p[0]] + p[1..] == p;
    }
  }

  /** The first part of a split is the text before the first separator. */
  lemma {:induction false} SplitHead(s: string, c: char)
    ensures StartsWith(s, Split(s, c)[0])
    ensures |Split(s, c)[0]| < |s| ==> s[|Split(s, c)[0]|] == c
    ensures c in s <==> |Split(s, c)[0]| < |s|
  {
    if |s| > 0 && s[0] != c {
      SplitHead(s[1..], c);
    }
  }

  /** Splitting a join on the same separator gives the parts back when no
    * part contains the separator. */
  lemma {:induction false} SplitJoin(parts: seq<string>, c: char)
    requires |parts| >= 1
    requires forall k :: 0 <= k < |parts| ==> c !in parts[k]
    ensures Split(Join(parts, [c]), c) == parts
  {
    if |parts| == 1 {
      SplitNoSep(parts[0], c);
    } else {
      SplitJoin(parts[1..], c);
      SplitCons(parts[0], c, Join(parts[1..], [c]));
    }
  }

  /** Joining the parts of a split restores the input. */
  lemma {:induction false} JoinSplit(s: string, c: char)
    ensures Join(Split(s, c), [c]) == s
  {
    if |s| > 0 {
      JoinSplit(s[1..], c);
      var rest := Split(s[1..], c);
      if s[0] == c {
        assert Split(s, c)[1..] == rest;
      } else {
        var r := Split(s, c);
        assert r[1..] == rest[1..];
        if |rest| > 1 {
          assert Join(r, [c]) == [s[0]] + rest[0] + [c] + Join(rest[1..], [c]);
        }
      }
    }
  }

  /** `s.splitlines()` restricted to "\n" line ends: no trailing empty line. */
  function SplitLines(s: string): (r: seq<string>)
    ensures forall k :: 0 <= k < |r| ==> '\n' !in r[k]
  {
    if s == [] then []
    else
      var parts := Split(s, '\n');
      if s[|s| - 1] == '\n' then parts[..|parts| - 1] else parts
  }

  /** Python's `s.split()`: the maximal runs of non-blank characters. */
  function Words(s: string): (r: seq<string>)
    ensures forall k :: 0 <= k < |r| ==> r[k] != [] && NoSpace(r[k])
    decreases |s|
  {
    if s == [] then []
    else if IsSpace(s[0]) then Words(s[1..])
    else
      var w := FirstRun(s);
      var rest := Words(s[|w|..]);
      assert forall k :: 0 < k < |rest| + 1 ==> ([w] + rest)[k] == rest[k - 1];
      [w] + rest
  }

  predicate NotBlank(c: char)
  {
    !IsSpace(c)
  }

  /** The parts written one after the other. */
  function Flatten(parts: seq<string>): string
  {
    if parts == [] then "" else parts[0] + Flatten(parts[1..])
  }

  lemma {:induction false} FilterNoBlank(s: string)
    requires NoSpace(s)
    ensures Filter(s, NotBlank) == s
  {
    if s != [] {
      FilterNoBlank(s[1..]);
      assert s == [s[0]] + s[1..];
    }
  }

  lemma FilterBlanksThen(blanks: string, t: string)
    requires AllSpace(blanks)
    ensures Filter(blanks + t, NotBlank) == Filter(t, NotBlank)
  {
    FilterAppend(blanks, t, NotBlank);
    assert forall k :: 0 <= k < |blanks| ==> !NotBlank(blanks[k]);
    FilterEmpty(blanks, NotBlank);
  }

  lemma FilterWordThen(w: string, after: string)
    requires NoSpace(w)
    ensures Filter(w + after, NotBlank) == w + Filter(after, NotBlank)
  {
    FilterAppend(w, after, NotBlank);
    FilterNoBlank(w);
  }

  /** The words hold exactly the non-blank characters of the text, in
    * order: `split()` loses only blanks. */
  lemma {:induction false} WordsAreNonBlanks(s: string)
    ensures Flatten(Words(s)) == Filter(s, NotBlank)
    decreases |s|
  {
    if s == [] {
    } else if IsSpace(s[0]) {
      WordsAreNonBlanks(s[1..]);
      assert Filter(s, NotBlank) == [] + Filter(s[1..], NotBlank);
    } else {
      var w := FirstRun(s);
      var after := s[|w|..];
      assert s == w + after;
      FilterWordThen(w, after);
      WordsAreNonBlanks(after);
      FlattenCons(w, Words(after));
    }
  }

  lemma FlattenCons(w: string, ws: seq<string>)
    ensures Flatten([w] + ws) == w + Flatten(ws)
  {
    assert ([w] + ws)[1..] == ws;
  }

  /** A word followed by a blank: its first run is the word itself. */
  lemma FirstRunOfWord(w: string, rest: string)
    requires NoSpace(w) && (rest == [] || IsSpace(rest[0]))
    ensures FirstRun(w + rest) == w
  {
    var s := w + rest;
    var r := FirstRun(s);
    assert r == s[..|r|] && w == s[..|w|];
  }

  /** A word is a whole run: after leading blanks, a run of non-blank
    * characters that a blank or the end closes is the first word, and the
    * words after it are those of the rest. */
  lemma {:induction false} WordsOfRun(blanks: string, w: string, rest: string)
    requires AllSpace(blanks) && w != [] && NoSpace(w) && (rest == [] || IsSpace(rest[0]))
    ensures Words(blanks + w + rest) == [w] + Words(rest)
  {
    if blanks == [] {
      assert blanks + w + rest == w + rest;
      FirstRunOfWord(w, rest);
      assert (w + rest)[|w|..] == rest;
    } else {
      assert (blanks + w + rest)[1..] == blanks[1..] + w + rest;
      WordsOfRun(blanks[1..], w, rest);
    }
  }

  /** Words written with one blank between them split back into the same
    * words: `" ".join(ws).split() == ws`. */
  lemma {:induction false} WordsOfJoin(ws: seq<string>)
    requires forall k :: 0 <= k < |ws| ==> ws[k] != [] && NoSpace(ws[k])
    ensures Words(Join(ws, " ")) == ws
  {
    if ws != [] {
      var w := ws[0];
      var rest := if |ws| == 1 then "" else " " + Join(ws[1..], " ");
      assert Join(ws, " ") == w + rest;
      var s := w + rest;
      assert TrimLeft(s) == s;
      FirstRunOfWord(w, rest);
      assert s[|w|..] == rest;
      if |ws| == 1 {
        assert Words(s) == [w] + Words("");
      } else {
        var j := Join(ws[1..], " ");
        WordsOfJoin(ws[1..]);
        JoinStartsWith(ws[1..]);
        assert TrimLeft(rest) == TrimLeft(j) == j;
        assert Words(rest) == Words(j);
        assert Words(s) == [w] + ws[1..];
      }
    }
  }

  /** Text between `p` and `q` starts with `p` and ends with `q`. */
  lemma FramedBy(p: string, mid: string, q: string)
    ensures StartsWith(p + mid + q, p) && EndsWith(p + mid + q, q)
  {
    var s := p + mid + q;
    assert s[..|p|] == p;
    assert s[|s| - |q|..] == q;
  }

  /** Non-empty words joined by blanks start with the first word's first
    * character. */
  lemma {:induction false} JoinStartsWith(ws: seq<string>)
    requires |ws| >= 1 && forall k :: 0 <= k < |ws| ==> ws[k] != []
    ensures Join(ws, " ") != [] && Join(ws, " ")[0] == ws[0][0]
  {
  }

  /** The longest prefix without blanks. */
  function FirstRun(s: string): (r: string)
    ensures StartsWith(s, r) && NoSpace(r)
    ensures |r| < |s| ==> IsSpace(s[|r|])
    ensures s != [] && !IsSpace(s[0]) ==> r != []
  {
    if s == [] || IsSpace(s[0]) then [] else [s[0]] + FirstRun(s[1..])
  }

  /** ASCII `str.upper()`; other letters are left as they are. */
  function Upper(s: string): (r: string)
    ensures |r| == |s|
  {
    if s == [] then []
    else [if 'a' <= s[0] <= 'z' then (s[0] as int - 32) as char else s[0]] + Upper(s[1..])
  }

  /** ASCII `str.lower()`. */
  function Lower(s: string): (r: string)
    ensures |r| == |s|
  {
    if s == [] then []
    else [if 'A' <= s[0] <= 'Z' then (s[0] as int + 32) as char else s[0]] + Lower(s[1..])
  }

  /** Decimal rendering of a natural number. */
  function NatToString(n: nat): (r: string)
    ensures |r| >= 1
    ensures forall i :: 0 <= i < |r| ==> '0' <= r[i] <= '9'
  {
    if n < 10 then [(48 + n) as char] else NatToString(n / 10) + [(48 + n % 10) as char]
  }

  function IntToString(n: int): string
  {
    if n < 0 then "-" + NatToString(-n) else NatToString(n)
  }

  /** Python's `round` on a real: to the nearest integer, halves to even. */
  function RoundHalfEven(x: real): (r: int)
    ensures x - 0.5 <= r as real <= x + 0.5
    ensures (r as real == x - 0.5 || r as real == x + 0.5) ==> r % 2 == 0
  {
    var f := x.Floor;
    var frac := x - f as real;
    if frac < 0.5 then f
    else if frac > 0.5 then f + 1
    else if f % 2 == 0 then f
    else f + 1
  }

  /** Rounding keeps a value within integer bounds it lies between. */
  lemma RoundWithin(x: real, lo: int, hi: int)
    requires lo as real <= x <= hi as real
    ensures lo <= RoundHalfEven(x) <= hi
  {
    var f := x.Floor;
    assert lo <= f <= hi;
    if f == hi {
      assert x == hi as real;
    }
  }

  /** Lexicographic order on strings, as Python compares `str` values. */
  predicate StrLess(a: string, b: string)
  {
    if a == [] then b != []
    else if b == [] then false
    else if a[0] != b[0] then a[0] < b[0]
    else StrLess(a[1..], b[1..])
  }

  predicate StrLeq(a: string, b: string)
  {
    a == b || StrLess(a, b)
  }

  lemma {:induction false} StrLessIrreflexive(a: string)
    ensures !StrLess(a, a)
  {
    if a != [] { StrLessIrreflexive(a[1..]); }
  }

  lemma {:induction false} StrLessTotal(a: string, b: string)
    ensures a == b || StrLess(a, b) || StrLess(b, a)
  {
    if a != [] && b != [] && a[0] == b[0] {
      StrLessTotal(a[1..], b[1..]);
      if a[1..] == b[1..] {
        assert a == [a[0]] + a[1..] && b == [b[0]] + b[1..];
      }
    }
  }

  lemma {:induction false} StrLessTransitive(a: string, b: string, c: string)
    requires StrLess(a, b) && StrLess(b, c)
    ensures StrLess(a, c)
  {
    if a != [] && b != [] && c != [] && a[0] == b[0] && b[0] == c[0] {
      StrLessTransitive(a[1..], b[1..], c[1..]);
    }
  }

  lemma StrLessAsymmetric(a: string, b: string)
    requires StrLess(a, b)
    ensures !StrLess(b, a)
  {
    if StrLess(b, a) {
      StrLessTransitive(a, b, a);
      StrLessIrreflexive(a);
    }
  }

  /** Count of elements satisfying equality with `x`. */
  function Count<T(==)>(s: seq<T>, x: T): nat
  {
    if s == [] then 0 else (if s[0] == x then 1 else 0) + Count(s[1..], x)
  }

  /** `[x for x in s if p(x)]`: the elements of `s` that satisfy `p`, in
    * order. */
  function Filter<T>(s: seq<T>, p: T -> bool): (r: seq<T>)
    ensures |r| <= |s|
  {
    if s == [] then [] else (if p(s[0]) then [s[0]] else []) + Filter(s[1..], p)
  }

  /** The elements of `r` occur in `s` in the same order: `s` with some
    * elements left out. */
  ghost predicate Subsequence<T>(r: seq<T>, s: seq<T>)
    decreases |s|
  {
    if r == [] then true
    else if s == [] then false
    else if r[0] == s[0] then Subsequence(r[1..], s[1..])
    else Subsequence(r, s[1..])
  }

  /** What a filter keeps, independently of how it is computed: a
    * subsequence of the input holding every element that passes, as often
    * as the input holds it, and no other. These two facts determine the
    * result. */
  ghost predicate IsFilterOf<T(!new)>(r: seq<T>, s: seq<T>, p: T -> bool)
  {
    Subsequence(r, s) && forall x :: multiset(r)[x] == if p(x) then multiset(s)[x] else 0
  }

  lemma FilterIsFilterOf<T(!new)>(s: seq<T>, p: T -> bool)
    ensures IsFilterOf(Filter(s, p), s, p)
  {
    FilterSubsequence(s, p);
    FilterCounts(s, p);
  }

  lemma {:induction false} FilterSubsequence<T(!new)>(s: seq<T>, p: T -> bool)
    ensures Subsequence(Filter(s, p), s)
    ensures forall x :: x in Filter(s, p) ==> p(x)
  {
    if s != [] {
      var rest := Filter(s[1..], p);
      FilterSubsequence(s[1..], p);
      if p(s[0]) {
        assert Filter(s, p) == [s[0]] + rest;
        assert ([s[0]] + rest)[1..] == rest;
      } else {
        assert Filter(s, p) == rest;
        if rest != [] {
          assert rest[0] in rest;
          assert rest[0] != s[0];
        }
      }
    }
  }

  lemma {:induction false} FilterCounts<T(!new)>(s: seq<T>, p: T -> bool)
    ensures forall x :: multiset(Filter(s, p))[x] == if p(x) then multiset(s)[x] else 0
  {
    if s != [] {
      var rest := Filter(s[1..], p);
      FilterCounts(s[1..], p);
      assert s == [s[0]] + s[1..];
      assert Filter(s, p) == (if p(s[0]) then [s[0]] else []) + rest;
    }
  }

  /** The filter keeps nothing exactly when nothing passes. */
  lemma {:induction false} FilterEmpty<T>(s: seq<T>, p: T -> bool)
    ensures Filter(s, p) == [] <==> forall k :: 0 <= k < |s| ==> !p(s[k])
  {
    if s != [] {
      FilterEmpty(s[1..], p);
      assert forall k :: 1 <= k < |s| ==> s[k] == s[1..][k - 1];
    }
  }

  /** The last element kept is the element of `s` at some index `k` that
    * passes, after which nothing passes. */
  lemma {:induction false} FilterLast<T>(s: seq<T>, p: T -> bool) returns (k: nat)
    requires Filter(s, p) != []
    ensures k < |s| && p(s[k]) && s[k] == Filter(s, p)[|Filter(s, p)| - 1]
    ensures forall j :: k < j < |s| ==> !p(s[j])
  {
    var rest := Filter(s[1..], p);
    if rest != [] {
      var j := FilterLast(s[1..], p);
      k := j + 1;
      assert forall i :: k < i < |s| ==> s[i] == s[1..][i - 1];
    } else {
      FilterEmpty(s[1..], p);
      k := 0;
      assert forall i :: 0 < i < |s| ==> s[i] == s[1..][i - 1];
    }
  }

  lemma FilterOne<T>(x: T, p: T -> bool)
    ensures Filter([x], p) == if p(x) then [x] else []
  {
    assert [x][1..] == [];
  }

  /** Two filters in a row keep what passes both. */
  lemma {:induction false} FilterTwice<T>(s: seq<T>, p: T -> bool, q: T -> bool, pq: T -> bool)
    requires forall x :: pq(x) == (p(x) && q(x))
    ensures Filter(Filter(s, p), q) == Filter(s, pq)
  {
    if s != [] {
      var x := s[0];
      FilterTwice(s[1..], p, q, pq);
      var rest := Filter(s[1..], p);
      var both := Filter(s[1..], pq);
      assert rest == Filter(s[1..], p) && Filter(rest, q) == both;
      assert Filter(s, pq) == (if pq(x) then [x] else []) + both;
      if p(x) {
        assert Filter(s, p) == [x] + rest;
        FilterAppend([x], rest, q);
        FilterOne(x, q);
        assert pq(x) == q(x);
      } else {
        assert Filter(s, p) == rest;
        assert !pq(x);
      }
    }
  }

  /** Filters by tests that agree everywhere keep the same elements. */
  lemma {:induction false} FilterSame<T>(s: seq<T>, p: T -> bool, q: T -> bool)
    requires forall x :: p(x) == q(x)
    ensures Filter(s, p) == Filter(s, q)
  {
    if s != [] {
      FilterSame(s[1..], p, q);
    }
  }

  /** Filtering a concatenation filters each part. */
  lemma {:induction false} FilterAppend<T>(a: seq<T>, b: seq<T>, p: T -> bool)
    ensures Filter(a + b, p) == Filter(a, p) + Filter(b, p)
  {
    if a != [] {
      assert (a + b)[1..] == a[1..] + b;
      FilterAppend(a[1..], b, p);
    } else {
      assert a + b == b;
    }
  }

  /** `s.rfind(c)`: the last index of `c`, or -1. */
  function RFind(s: string, c: char): (i: int)
    ensures -1 <= i < |s|
    ensures i >= 0 ==> s[i] == c
    ensures forall k :: i < k < |s| ==> s[k] != c
  {
    if s == [] then -1
    else if s[|s| - 1] == c then |s| - 1
    else RFind(s[..|s| - 1], c)
  }

  /** The first `c` is at `m` when `s[m]` is one and none comes before it. */
  lemma FindAt(s: string, c: char, m: nat)
    requires m < |s| && s[m] == c
    requires forall k :: 0 <= k < m ==> s[k] != c
    ensures Find(s, c) == m
  {
  }

  /** The last `c` is at `m` when `s[m]` is one and none comes after it. */
  lemma RFindAt(s: string, c: char, m: nat)
    requires m < |s| && s[m] == c
    requires forall k :: m < k < |s| ==> s[k] != c
    ensures RFind(s, c) == m
  {
  }

  /** `PurePath(name).suffix` for a bare file name: from the last "." on,
    * unless that dot is the first or the last character. */
  function Suffix(name: string): (r: string)
    ensures r == [] || (r[0] == '.' && EndsWith(name, r) && |r| < |name|)
  {
    var i := RFind(name, '.');
    if 0 < i < |name| - 1 then name[i..] else ""
  }

  /** `PurePath(name).stem`: the name without its suffix. */
  function Stem(name: string): (r: string)
    ensures r + Suffix(name) == name
  {
    var i := RFind(name, '.');
    if 0 < i < |name| - 1 then name[..i] else name
  }

  /** `s.find(c)`: the first index of `c`, or -1. */
  function Find(s: string, c: char): (i: int)
    ensures -1 <= i < |s|
    ensures i >= 0 ==> s[i] == c
    ensures forall k :: 0 <= k < |s| && (i < 0 || k < i) ==> s[k] != c
    ensures i < 0 <==> c !in s
  {
    if s == [] then -1
    else if s[0] == c then 0
    else
      var j := Find(s[1..], c);
      if j < 0 then -1 else j + 1
  }

  /** Joining one more part adds the separator and that part. */
  lemma {:induction false} JoinSnoc(ls: seq<string>, x: string, sep: string)
    requires ls != []
    ensures Join(ls + [x], sep) == Join(ls, sep) + sep + x
  {
    if |ls| == 1 {
      assert (ls + [x])[1..] == [x];
    } else {
      assert (ls + [x])[1..] == ls[1..] + [x];
      JoinSnoc(ls[1..], x, sep);
    }
  }

  /** Lines without line breaks, each written with a trailing newline, read
    * back as the same lines. */
  lemma SplitLinesJoin(lines: seq<string>)
    requires lines != []
    requires forall k :: 0 <= k < |lines| ==> '\n' !in lines[k]
    ensures SplitLines(Join(lines, "\n") + "\n") == lines
  {
    JoinSnoc(lines, "", "\n");
    assert Join(lines, "\n") + "\n" == Join(lines + [""], "\n");
    SplitJoin(lines + [""], '\n');
    assert (lines + [""])[..|lines|] == lines;
  }

  /** A stripped text padded by one blank on each side strips back to itself. */
  lemma StripPadded(x: string)
    requires IsStripped(x)
    ensures Strip(" " + x + " ") == x
  {
    var s := " " + x + " ";
    assert s[1..] == x + " ";
    assert Strip(s) == Strip(x + " ");
    if x == [] {
      assert Strip(" ") == Strip(" "[1..]);
    } else {
      assert (x + " ")[..|x|] == x;
      assert Strip(x + " ") == Strip(x);
    }
  }

  lemma AppendAssoc<T>(a: seq<T>, b: seq<T>, c: seq<T>)
    ensures (a + b) + c == a + (b + c)
  {
  }

  /** The results of `f` on each element of `xs`, concatenated in order. */
  function Gather<A, B>(xs: seq<A>, f: A -> seq<B>): seq<B>
  {
    if xs == [] then [] else Gather(xs[..|xs| - 1], f) + f(xs[|xs| - 1])
  }

  /** An element is gathered exactly when some input yields it. */
  lemma {:induction false} GatherMembers<A, B>(xs: seq<A>, f: A -> seq<B>, y: B)
    ensures y in Gather(xs, f) <==> exists k :: 0 <= k < |xs| && y in f(xs[k])
  {
    if xs != [] {
      var n := |xs| - 1;
      var init := xs[..n];
      GatherMembers(init, f, y);
      assert forall k :: 0 <= k < n ==> init[k] == xs[k];
    }
  }

  /** Gathering two runs one after the other gives the results of the
    * first, then those of the second. */
  lemma {:induction false} GatherAppend<A, B>(a: seq<A>, b: seq<A>, f: A -> seq<B>)
    ensures Gather(a + b, f) == Gather(a, f) + Gather(b, f)
    decreases |b|
  {
    if b == [] {
      assert a + b == a;
    } else {
      assert (a + b)[..|a + b| - 1] == a + b[..|b| - 1];
      GatherAppend(a, b[..|b| - 1], f);
    }
  }

  /** `re.search` with a pattern matched by `at`: the leftmost position
    * where it matches, with what the match there gives. */
  function FirstMatch<T>(s: string, at: string -> Option<T>): (r: Option<(nat, T)>)
    ensures r.Some? ==> r.value.0 < |s| && at(s[r.value.0..]) == Some(r.value.1)
    decreases |s|
  {
    if s == [] then None
    else match at(s)
      case Some(m) => assert s[0..] == s; Some((0, m))
      case None =>
        match FirstMatch(s[1..], at)
        case None => None
        case Some(r) => assert s[1..][r.0..] == s[r.0 + 1..]; Some((r.0 + 1, r.1))
  }

  /** The search succeeds exactly when the pattern matches somewhere, and
    * then reports the leftmost position and the match there. */
  lemma {:induction false} FirstMatchLeftmost<T>(s: string, at: string -> Option<T>)
    ensures FirstMatch(s, at).Some? <==> exists j :: 0 <= j < |s| && at(s[j..]).Some?
    ensures FirstMatch(s, at).Some? ==>
      var (k, m) := FirstMatch(s, at).value;
      k < |s| && at(s[k..]) == Some(m) && forall j :: 0 <= j < k ==> at(s[j..]).None?
    decreases |s|
  {
    if s != [] {
      assert s[0..] == s;
      FirstMatchLeftmost(s[1..], at);
      assert forall j :: 1 <= j <= |s| ==> s[1..][j - 1..] == s[j..];
      if at(s).None? {
        if exists j :: 0 <= j < |s| && at(s[j..]).Some? {
          var j :| 0 <= j < |s| && at(s[j..]).Some?;
          assert j >= 1 && at(s[1..][j - 1..]).Some?;
        }
      }
    }
  }

  /** Each element contributes its own results at its own place. */
  lemma GatherAt<A, B>(xs: seq<A>, k: nat, f: A -> seq<B>)
    requires k < |xs|
    ensures Gather(xs, f) == Gather(xs[..k], f) + f(xs[k]) + Gather(xs[k + 1..], f)
  {
    Around(xs, k);
    GatherThree(xs[..k], xs[k], xs[k + 1..], f);
  }

  /** A sequence is its prefix before `k`, its element at `k` and the rest. */
  lemma Around<A>(xs: seq<A>, k: nat)
    requires k < |xs|
    ensures xs[..k] + [xs[k]] + xs[k + 1..] == xs
  {
  }

  lemma GatherThree<A, B>(a: seq<A>, x: A, b: seq<A>, f: A -> seq<B>)
    ensures Gather(a + [x] + b, f) == Gather(a, f) + f(x) + Gather(b, f)
  {
    assert (a + [x])[..|a|] == a;
    GatherAppend(a + [x], b, f);
  }

  /** `random.choice(unused) if unused else random.choice(available)`: an
    * element of `available`, outside `recent` whenever that is possible. */
  method PreferUnused(available: seq<string>, recent: set<string>) returns (r: string)
    requires available != []
    ensures r in available
    ensures (exists a :: a in available && a !in recent) ==> r !in recent
  {
    if exists a :: a in available && a !in recent {
      r :| r in available && r !in recent;
    } else {
      assert available[0] in available;
      r :| r in available;
    }
  }

  /** A separator between two texts splits them apart. */
  lemma {:induction false} SplitAppend(a: string, c: char, b: string)
    ensures Split(a + [c] + b, c) == Split(a, c) + Split(b, c)
  {
    var s := a + [c] + b;
    if |a| == 0 {
      assert s == [c] + b;
      assert s[1..] == b;
    } else {
      assert s[1..] == a[1..] + [c] + b;
      SplitAppend(a[1..], c, b);
    }
  }

  /** Stripping a stripped text changes nothing. */
  lemma StripStripped(s: string)
    requires IsStripped(s)
    ensures Strip(s) == s
  {
  }

  /** `if value:` on an optional text: present and not empty. */
  predicate Given(x: Option<string>)
  {
    x.Some? && x.value != ""
  }

  /** A JSON object of text fields, as the scripts read their logs. */
  type Record = map<string, string>

  /** `e.get(key, "")` */
  function Get(e: Record, key: string): string
  {
    if key in e then e[key] else ""
  }

  /** What one log line contributes: nothing when it is blank or `parse`
    * (`json.loads`) rejects it. */
  function JsonlLine<T>(line: string, parse: string -> Option<T>): seq<T>
  {
    if Strip(line) == "" then []
    else match parse(line)
      case None => []
      case Some(e) => [e]
  }

  /** The entries of a JSON-lines log, in file order. */
  function ParseJsonl<T>(lines: seq<string>, parse: string -> Option<T>): seq<T>
  {
    if lines == [] then [] else ParseJsonl(lines[..|lines| - 1], parse) + JsonlLine(lines[|lines| - 1], parse)
  }

  /** Reading a log in two parts reads the first part, then the second. */
  lemma {:induction false} ParseJsonlAppend<T>(a: seq<string>, b: seq<string>, parse: string -> Option<T>)
    ensures ParseJsonl(a + b, parse) == ParseJsonl(a, parse) + ParseJsonl(b, parse)
    decreases |b|
  {
    if b == [] {
      assert a + b == a;
    } else {
      var n := |b| - 1;
      assert (a + b)[..|a + b| - 1] == a + b[..n];
      ParseJsonlAppend(a, b[..n], parse);
    }
  }

  /** A blank line adds no entry; a line that parses adds exactly its entry. */
  lemma ParseJsonlOne<T>(line: string, parse: string -> Option<T>)
    ensures Strip(line) == "" ==> ParseJsonl([line], parse) == []
    ensures Strip(line) != "" && parse(line).Some? ==> ParseJsonl([line], parse) == [parse(line).value]
    ensures Strip(line) != "" && parse(line).None? ==> ParseJsonl([line], parse) == []
  {
    assert [line][..0] == [];
  }

  /** One more line adds its entry when it is not blank and parses. */
  lemma ParseJsonlStep<T>(lines: seq<string>, i: nat, parse: string -> Option<T>)
    requires i < |lines|
    ensures ParseJsonl(lines[..i + 1], parse) == ParseJsonl(lines[..i], parse)
      + (if Strip(lines[i]) != "" && parse(lines[i]).Some? then [parse(lines[i]).value] else [])
  {
    assert lines[..i + 1] == lines[..i] + [lines[i]];
    ParseJsonlAppend(lines[..i], [lines[i]], parse);
    ParseJsonlOne(lines[i], parse);
  }

  /** The load loop of the scripts' JSON-lines readers: a missing file reads
    * as no entries. */
  method LoadJsonl<T>(file: Option<string>, parse: string -> Option<T>) returns (entries: seq<T>)
    ensures file.None? ==> entries == []
    ensures file.Some? ==> entries == ParseJsonl(SplitLines(file.value), parse)
  {
    entries := [];
    if file.None? {
      return;
    }
    var lines := SplitLines(file.value);
    var i := 0;
    while i < |lines|
      invariant 0 <= i <= |lines|
      invariant entries == ParseJsonl(lines[..i], parse)
    {
      assert lines[..i + 1][..i] == lines[..i];
      if Strip(lines[i]) != "" {
        var e := parse(lines[i]);
        if e.Some? {
          entries := entries + [e.value];
        }
      }
      i := i + 1;
    }
    assert lines[..i] == lines;
  }

  predicate IsDigit(c: char)
  {
    '0' <= c <= '9'
  }

  predicate AllDigits(s: string)
  {
    forall i :: 0 <= i < |s| ==> IsDigit(s[i])
  }

  /** The value of a decimal numeral. */
  function DigitsValue(s: string): nat
    requires AllDigits(s)
  {
    if s == [] then 0 else DigitsValue(s[..|s| - 1]) * 10 + (s[|s| - 1] as int - 48)
  }

  /** `int(s)` for a plain decimal numeral; anything else is rejected. */
  function ParseNat(s: string): (r: Option<nat>)
    ensures r.Some? <==> s != [] && AllDigits(s)
  {
    if s != [] && AllDigits(s) then Some(DigitsValue(s)) else None
  }

  /** Python's `int()` on a text: surrounding blanks, an optional sign and
    * ASCII decimal digits; anything else raises. */
  function PyInt(text: string): Option<int>
  {
    var s := Strip(text);
    if s != "" && (s[0] == '-' || s[0] == '+') then
      var v := ParseNat(s[1..]);
      if v.None? then None
      else
        var n: int := v.value;
        if s[0] == '-' then Some(-n) else Some(n)
    else
      var v := ParseNat(s);
      if v.None? then None else Some(v.value)
  }

  /** A plain numeral reads as its value. */
  lemma PyIntNumeral(text: string)
    requires text != "" && AllDigits(text)
    ensures PyInt(text) == Some(DigitsValue(text))
  {
    assert IsDigit(text[0]) && IsDigit(text[|text| - 1]);
    StripStripped(text);
  }

  /** Reading back a rendered number gives the number. */
  lemma {:induction false} ParseNatToString(n: nat)
    ensures ParseNat(NatToString(n)) == Some(n)
  {
    var s := NatToString(n);
    if n >= 10 {
      ParseNatToString(n / 10);
      assert s[..|s| - 1] == NatToString(n / 10);
      assert s[|s| - 1] as int - 48 == n % 10;
      assert DigitsValue(s) == (n / 10) * 10 + n % 10;
    } else {
      assert s[..0] == [];
      assert DigitsValue(s) == s[0] as int - 48;
    }
  }

  /** `str(Path(base) / rest)` without further normalisation: an absolute
    * `rest` replaces the base, an empty one leaves it, otherwise the two are
    * joined by one "/". */
  function PathJoin(base: string, rest: string): (r: string)
    ensures rest != [] && rest[0] == '/' ==> r == rest
    ensures rest == [] ==> r == base
  {
    if rest == [] then base
    else if rest[0] == '/' then rest
    else if base != [] && base[|base| - 1] == '/' then base + rest
    else base + "/" + rest
  }

  /** A text holds every slice of itself. */
  lemma {:induction false} ContainsAt(s: string, sub: string, i: nat)
    requires i + |sub| <= |s| && s[i..i + |sub|] == sub
    ensures Contains(s, sub)
  {
    if i > 0 {
      assert s[1..][i - 1..i - 1 + |sub|] == sub;
      ContainsAt(s[1..], sub, i - 1);
    }
  }

  /** What a text holds, any extension of it holds. */
  lemma {:induction false} ContainsAppend(a: string, b: string, sub: string)
    requires Contains(a, sub)
    ensures Contains(a + b, sub)
  {
    if StartsWith(a, sub) {
      assert (a + b)[..|sub|] == a[..|sub|];
    } else {
      assert (a + b)[1..] == a[1..] + b;
      ContainsAppend(a[1..], b, sub);
    }
  }
}
