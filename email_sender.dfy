/** The outreach mailer: the account list, the parser of the outreach
  * markdown into emails, and the event stream of a batch send. */
module EmailSender {
  import opened Common

  // ─── Accounts ───────────────────────────────────────────────────────────

  /** An entry of the configured account list (`OUTREACH_ACCOUNTS`); `name`
    * is its label. */
  datatype Account = Account(name: string, email: string, password: string)

  /** What `list_accounts` exposes: no password. */
  datatype AccountView = AccountView(name: string, email: string)

  /** `list_accounts`: every account, in order, without its password. */
  function ListAccounts(accounts: seq<Account>): (r: seq<AccountView>)
    ensures |r| == |accounts|
    ensures forall k :: 0 <= k < |r| ==>
      r[k].name == accounts[k].name && r[k].email == accounts[k].email
  {
    if accounts == [] then []
    else [AccountView(accounts[0].name, accounts[0].email)] + ListAccounts(accounts[1..])
  }

  /** `get_account`: the first account with the label, or none when no
    * account carries it. */
  function GetAccount(accounts: seq<Account>, wanted: string): (r: Option<Account>)
    ensures r.None? <==> forall k :: 0 <= k < |accounts| ==> accounts[k].name != wanted
    ensures r.Some? ==> r.value.name == wanted && r.value in accounts
  {
    if accounts == [] then None
    else if accounts[0].name == wanted then Some(accounts[0])
    else GetAccount(accounts[1..], wanted)
  }

  /** The account found is the first one with the label. */
  lemma {:induction false} GetAccountFirst(accounts: seq<Account>, wanted: string, k: nat)
    requires k < |accounts| && accounts[k].name == wanted
    requires forall j :: 0 <= j < k ==> accounts[j].name != wanted
    ensures GetAccount(accounts, wanted) == Some(accounts[k])
  {
    if k > 0 {
      GetAccountFirst(accounts[1..], wanted, k - 1);
    }
  }

  // ─── Splitting the markdown into entries ─────────────────────────────────

  /** The number of leading '-' characters. */
  function DashRun(s: string): (n: nat)
    ensures n <= |s|
    ensures forall k :: 0 <= k < n ==> s[k] == '-'
    ensures n < |s| ==> s[n] != '-'
  {
    if s != [] && s[0] == '-' then 1 + DashRun(s[1..]) else 0
  }

  /** The length of a match of the separator pattern newline, three or more
    * dashes, newline at the start of `s`. */
  function SepAt(s: string): (r: Option<nat>)
    ensures r.Some? ==> 5 <= r.value <= |s|
  {
    if s != [] && s[0] == '\n' then
      var d := DashRun(s[1..]);
      if d >= 3 && 1 + d < |s| && s[1 + d] == '\n' then Some(d + 2) else None
    else None
  }

  /** A separator match depends only on the text it covers. */
  lemma SepAtExtend(x: string, y: string)
    requires SepAt(x).Some?
    ensures SepAt(x + y) == SepAt(x)
  {
    var d := DashRun(x[1..]);
    assert (x + y)[1..] == x[1..] + y;
    DashRunExtend(x[1..], y);
  }

  lemma {:induction false} DashRunExtend(x: string, y: string)
    requires DashRun(x) < |x|
    ensures DashRun(x + y) == DashRun(x)
  {
    if x[0] == '-' {
      assert (x + y)[1..] == x[1..] + y;
      DashRunExtend(x[1..], y);
    }
  }

  /** `re.split(r"\n---+\n", s)`: the text is cut at every leftmost,
    * non-overlapping separator; `cur` is the part of the current entry
    * already read. */
  function SplitEntries(s: string, cur: string): (r: seq<string>)
    ensures r != []
    decreases |s|
  {
    if s == [] then [cur]
    else match SepAt(s)
      case Some(n) => [cur] + SplitEntries(s[n..], "")
      case None => SplitEntries(s[1..], cur + [s[0]])
  }

  /** `p` contains a separator somewhere. */
  predicate HasSep(p: string)
  {
    exists j :: 0 <= j < |p| && SepAt(p[j..]).Some?
  }

  /** No separator starts inside `cur`, read on into the rest `s`. */
  predicate OpenClean(cur: string, s: string)
  {
    forall j :: 0 <= j < |cur| ==> SepAt(cur[j..] + s).None?
  }

  /** No entry of the split contains a separator. */
  lemma {:induction false} SplitEntriesClean(s: string, cur: string)
    requires OpenClean(cur, s)
    ensures forall k :: 0 <= k < |SplitEntries(s, cur)| ==> !HasSep(SplitEntries(s, cur)[k])
    decreases |s|
  {
    if s == [] {
      CleanCut(cur, s);
    } else {
      match SepAt(s)
      case Some(n) =>
        CleanCut(cur, s);
        SplitEntriesClean(s[n..], "");
      case None =>
        var c := cur + [s[0]];
        assert OpenClean(c, s[1..]) by {
          forall j | 0 <= j < |c|
            ensures SepAt(c[j..] + s[1..]).None?
          {
            if j < |cur| {
              assert c[j..] + s[1..] == cur[j..] + s;
            } else {
              assert c[j..] + s[1..] == s;
            }
          }
        }
        SplitEntriesClean(s[1..], c);
    }
  }

  /** An entry cut off where the scan stands contains no separator. */
  lemma CleanCut(cur: string, s: string)
    requires OpenClean(cur, s)
    ensures !HasSep(cur)
  {
    forall j | 0 <= j < |cur|
      ensures SepAt(cur[j..]).None?
    {
      assert SepAt(cur[j..] + s).None?;
      if SepAt(cur[j..]).Some? {
        SepAtExtend(cur[j..], s);
      }
    }
  }

  /** The entries of a whole text contain no separator. */
  lemma EntriesHaveNoSeparator(md: string)
    ensures forall k :: 0 <= k < |SplitEntries(md, "")| ==> !HasSep(SplitEntries(md, "")[k])
  {
    SplitEntriesClean(md, "");
  }

  /** The rule the outreach file puts between entries. */
  const Rule: string := "\n---\n"

  /** No separator starts inside `e` when a line break follows it: `e` holds
    * no separator and does not end with a line of three or more dashes. */
  predicate CleanEntry(e: string)
  {
    forall j :: 0 <= j < |e| ==> SepAt(e[j..] + "\n").None?
  }

  /** A separator match starting in `z` ends at the latest at the line break
    * after `z`: what follows that line break does not matter. */
  lemma SepAtBeforeBreak(z: string, w: string)
    requires z != []
    ensures SepAt(z + "\n" + w) == SepAt(z + "\n")
  {
    var t := z + "\n";
    assert z + "\n" + w == t + w;
    if z[0] == '\n' {
      var x := t[1..];
      assert x[|x| - 1] == '\n';
      assert DashRun(x) < |x|;
      assert (t + w)[1..] == x + w;
      DashRunExtend(x, w);
    }
  }

  /** Reading over text in which no separator starts adds it to the current
    * entry. */
  lemma {:induction false} SplitOver(e: string, t: string, cur: string)
    requires forall j :: 0 <= j < |e| ==> SepAt(e[j..] + t).None?
    ensures SplitEntries(e + t, cur) == SplitEntries(t, cur + e)
    decreases |e|
  {
    if e == [] {
      assert e + t == t && cur + e == cur;
    } else {
      assert e[0..] == e;
      assert SepAt(e + t).None?;
      assert (e + t)[1..] == e[1..] + t;
      forall j | 0 <= j < |e[1..]|
        ensures SepAt(e[1..][j..] + t).None?
      {
        assert e[1..][j..] == e[j + 1..];
      }
      SplitOver(e[1..], t, cur + [e[0]]);
      assert cur + [e[0]] + e[1..] == cur + e;
    }
  }

  /** A rule at the start is a separator of five characters. */
  lemma RuleIsSeparator(rest: string)
    ensures SepAt(Rule + rest) == Some(5)
    ensures (Rule + rest)[5..] == rest
  {
    var s := Rule + rest;
    assert s[1..] == "---\n" + rest;
    assert DashRun("---\n" + rest) == 3 by {
      var a := "---\n" + rest;
      assert a[0] == '-' && a[1] == '-' && a[2] == '-' && a[3] == '\n';
      assert DashRun(a[3..]) == 0;
      assert a[2..][1..] == a[3..];
      assert DashRun(a[2..]) == 1;
      assert a[1..][1..] == a[2..];
      assert DashRun(a[1..]) == 2;
    }
  }

  /** Entries written one after the other with a three-dash rule between
    * them split back into the same entries. */
  lemma {:induction false} SplitJoin(es: seq<string>)
    requires es != []
    requires forall k :: 0 <= k < |es| ==> CleanEntry(es[k])
    ensures SplitEntries(Join(es, Rule), "") == es
  {
    var e := es[0];
    assert CleanEntry(e);
    if |es| == 1 {
      forall j | 0 <= j < |e|
        ensures SepAt(e[j..] + "").None?
      {
        assert e[j..] + "" == e[j..];
        if SepAt(e[j..]).Some? {
          SepAtExtend(e[j..], "\n");
        }
      }
      SplitOver(e, "", "");
      assert e + "" == e && "" + e == e;
    } else {
      var rest := Join(es[1..], Rule);
      assert Join(es, Rule) == e + (Rule + rest);
      forall j | 0 <= j < |e|
        ensures SepAt(e[j..] + (Rule + rest)).None?
      {
        assert e[j..] + (Rule + rest) == e[j..] + "\n" + ("---\n" + rest);
        SepAtBeforeBreak(e[j..], "---\n" + rest);
      }
      SplitOver(e, Rule + rest, "");
      RuleIsSeparator(rest);
      assert "" + e == e;
      assert SplitEntries(Rule + rest, e) == [e] + SplitEntries(rest, "");
      SplitJoin(es[1..]);
      assert es == [e] + es[1..];
    }
  }

  /** Two entries around a three-dash rule are cut apart. */
  lemma SplitTwoEntries()
    ensures SplitEntries("A\n---\nB", "") == ["A", "B"]
  {
    var s := "A\n---\nB";
    assert SepAt(s).None?;
    assert s[1..] == "\n---\nB";
    assert DashRun("---\nB") == 3 by {
      assert "---\nB"[1..] == "--\nB";
      assert "--\nB"[1..] == "-\nB";
      assert "-\nB"[1..] == "\nB";
    }
    assert SepAt(s[1..]) == Some(5);
    assert s[1..][5..] == "B";
    assert SplitEntries("B", "") == ["B"] by {
      assert SepAt("B").None?;
      assert "B"[1..] == [] && [] + ['B'] == "B";
      assert SplitEntries("B", "") == SplitEntries("", "B");
    }
    assert SplitEntries(s[1..], "A") == ["A"] + SplitEntries("B", "");
    assert [] + [s[0]] == "A";
    assert SplitEntries(s, "") == SplitEntries(s[1..], "A");
  }

  // ─── Parsing one entry ────────────────────────────────────────────────────

  /** One parsed outreach email. */
  datatype Email = Email(index: nat, to: string, subject: string, body: string,
                         skip: bool, skipReason: Option<string>)

  /** The first position at or after `i` that is not a blank (`\s*`). */
  function SkipBlanks(s: string, i: nat): (j: nat)
    requires i <= |s|
    ensures i <= j <= |s|
    ensures forall k :: i <= k < j ==> IsSpace(s[k])
    ensures j < |s| ==> !IsSpace(s[j])
    decreases |s| - i
  {
    if i < |s| && IsSpace(s[i]) then SkipBlanks(s, i + 1) else i
  }

  /** The end of the run of ASCII digits starting at `i` (`\d*`). */
  function SkipDigits(s: string, i: nat): (j: nat)
    requires i <= |s|
    ensures i <= j <= |s|
    ensures forall k :: i <= k < j ==> IsDigit(s[k])
    ensures j < |s| ==> !IsDigit(s[j])
    decreases |s| - i
  {
    if i < |s| && IsDigit(s[i]) then SkipDigits(s, i + 1) else i
  }

  /** The end of the run of non-blank characters starting at `i` (`\S*`). */
  function SkipRun(s: string, i: nat): (j: nat)
    requires i <= |s|
    ensures i <= j <= |s|
    ensures forall k :: i <= k < j ==> !IsSpace(s[k])
    ensures j < |s| ==> IsSpace(s[j])
    decreases |s| - i
  {
    if i < |s| && !IsSpace(s[i]) then SkipRun(s, i + 1) else i
  }

  /** The end of the line starting at `i`: the next line break or the end. */
  function LineEnd(s: string, i: nat): (j: nat)
    requires i <= |s|
    ensures i <= j <= |s|
    ensures forall k :: i <= k < j ==> s[k] != '\n'
    ensures j < |s| ==> s[j] == '\n'
    decreases |s| - i
  {
    if i < |s| && s[i] != '\n' then LineEnd(s, i + 1) else i
  }

  /** The dash class of the header pattern: em dash, en dash or hyphen. */
  predicate IsDash(c: char)
  {
    c == '\U{2014}' || c == '\U{2013}' || c == '-'
  }

  /** The header pattern `###\s*#?(\d+)\s*[—–-]\s*(\S+@\S+)` matched at the
    * start of `s`: the number and the address group. Each repetition is
    * greedy and giving characters back never helps, so each is the longest
    * run; the address group is the whole blank-free run after the dash,
    * provided it has an "@" with at least one character on each side. */
  function HeaderAt(s: string): (r: Option<(nat, string)>)
    ensures r.Some? ==> NoSpace(r.value.1)
  {
    if !StartsWith(s, "###") then None
    else
      var a := SkipBlanks(s, 3);
      var b := if a < |s| && s[a] == '#' then a + 1 else a;
      var c := SkipDigits(s, b);
      if c == b then None
      else
        var e := SkipBlanks(s, c);
        if e == |s| || !IsDash(s[e]) then None
        else
          var f := SkipBlanks(s, e + 1);
          var g := SkipRun(s, f);
          if g >= f + 3 && '@' in s[f + 1..g - 1] then Some((DigitsValue(s[b..c]), s[f..g])) else None
  }

  /** `re.search` for the header: the match at the leftmost position. */
  function SearchHeader(s: string): (r: Option<(nat, string)>)
    ensures r.Some? ==> NoSpace(r.value.1)
  {
    match FirstMatch(s, HeaderAt)
    case None => None
    case Some((_, h)) => Some(h)
  }

  /** The header number is read from the digits after "###" and an optional
    * "#", and the address is the run after the dash. */
  lemma HeaderExample()
    ensures HeaderAt("### #7 - a@b") == Some((7, "a@b"))
  {
    var s := "### #7 - a@b";
    assert s[..3] == "###";
    assert SkipBlanks(s, 3) == 4 by { assert SkipBlanks(s, 4) == 4; }
    assert SkipDigits(s, 5) == 6 by { assert SkipDigits(s, 6) == 6; }
    assert SkipBlanks(s, 6) == 7 by { assert SkipBlanks(s, 7) == 7; }
    assert SkipBlanks(s, 8) == 9 by { assert SkipBlanks(s, 9) == 9; }
    assert SkipRun(s, 9) == 12 by {
      assert SkipRun(s, 12) == 12;
      assert SkipRun(s, 11) == 12;
      assert SkipRun(s, 10) == 12;
    }
    assert s[10..11] == "@";
    assert s[5..6] == "7";
    assert DigitsValue("7") == 7 by { assert "7"[..0] == []; }
    assert s[9..12] == "a@b";
  }

  /** `re.search` finds the header exactly when it matches somewhere, and
    * then the match at the leftmost position. */
  lemma SearchHeaderLeftmost(s: string)
    ensures SearchHeader(s).Some? <==> exists j :: 0 <= j < |s| && HeaderAt(s[j..]).Some?
    ensures SearchHeader(s).Some? ==>
      var k := FirstMatch(s, HeaderAt).value.0;
      k < |s| && SearchHeader(s) == HeaderAt(s[k..]) && forall j :: 0 <= j < k ==> HeaderAt(s[j..]).None?
  {
    FirstMatchLeftmost(s, HeaderAt);
  }

  /** The blank run from `i` ends at `j` when `j` closes it. */
  lemma SkipBlanksTo(s: string, i: nat, j: nat)
    requires i <= j <= |s|
    requires forall k :: i <= k < j ==> IsSpace(s[k])
    requires j == |s| || !IsSpace(s[j])
    ensures SkipBlanks(s, i) == j
  {
  }

  /** `s.rstrip(")")` */
  function RStripParen(s: string): (r: string)
    ensures StartsWith(s, r)
    ensures r == [] || r[|r| - 1] != ')'
    ensures forall k :: |r| <= k < |s| ==> s[k] == ')'
  {
    if s != [] && s[|s| - 1] == ')' then RStripParen(s[..|s| - 1]) else s
  }

  /** The skip flag of an entry, from its upper-cased first line: a contact
    * form wins over a note adapted for a direct message. */
  function SkipReason(header: string): (r: Option<string>)
    ensures r == Some("contact form") <==> Contains(Upper(header), "(CONTACT FORM)")
    ensures r == Some("adapted for DM") <==>
      !Contains(Upper(header), "(CONTACT FORM)") && Contains(Upper(header), "(ADAPTED FOR DM)")
    ensures r.None? <==>
      !Contains(Upper(header), "(CONTACT FORM)") && !Contains(Upper(header), "(ADAPTED FOR DM)")
  {
    var up := Upper(header);
    if Contains(up, "(CONTACT FORM)") then Some("contact form")
    else if Contains(up, "(ADAPTED FOR DM)") then Some("adapted for DM")
    else None
  }

  /** Upper-casing twice is upper-casing once. */
  lemma {:induction false} UpperIdempotent(s: string)
    ensures Upper(Upper(s)) == Upper(s)
  {
    if s != [] {
      UpperIdempotent(s[1..]);
      assert Upper(s)[1..] == Upper(s[1..]);
    }
  }

  /** The flags are case-insensitive: a header and its upper-cased form get
    * the same skip reason. */
  lemma SkipReasonIgnoresCase(header: string)
    ensures SkipReason(Upper(header)) == SkipReason(header)
  {
    UpperIdempotent(header);
  }

  const SubjectTag: string := "**Subject:**"

  /** The subject pattern `\*\*Subject:\*\*\s*(.+?)(?:\n|$)` matched at the
    * start of `s`: the group and the end of the match. The group is the rest
    * of the line from the first non-blank character after the tag (the
    * blanks may include line breaks); the match takes the line break after
    * it. In a stripped entry the text after the tag is never all blanks,
    * and when it is empty the pattern fails, as here. */
  function SubjectAt(s: string): (r: Option<(string, nat)>)
    ensures r.Some? ==> r.value.1 <= |s| && '\n' !in r.value.0
  {
    if !StartsWith(s, SubjectTag) then None
    else
      var v := SkipBlanks(s, |SubjectTag|);
      if v == |s| then None
      else
        var l := LineEnd(s, v);
        Some((s[v..l], if l < |s| then l + 1 else l))
  }

  /** `re.search` for the subject: the leftmost position where the pattern
    * matches, with the group and the length of the match there. */
  function SearchSubject(s: string): (r: Option<(nat, (string, nat))>)
    ensures r.Some? ==> r.value.0 + r.value.1.1 <= |s| && '\n' !in r.value.1.0
  {
    FirstMatch(s, SubjectAt)
  }

  /** `re.search` finds the subject exactly when it matches somewhere, and
    * then the match at the leftmost position. */
  lemma SearchSubjectLeftmost(s: string)
    ensures SearchSubject(s).Some? <==> exists j :: 0 <= j < |s| && SubjectAt(s[j..]).Some?
    ensures SearchSubject(s).Some? ==>
      var k := SearchSubject(s).value.0;
      && k < |s| && SubjectAt(s[k..]) == Some(SearchSubject(s).value.1)
      && forall j :: 0 <= j < k ==> SubjectAt(s[j..]).None?
  {
    FirstMatchLeftmost(s, SubjectAt);
  }

  /** A subject line of the outreach format reads back as its text, and the
    * match takes its line break. */
  lemma SubjectRoundTrip(subject: string, rest: string)
    requires subject != [] && '\n' !in subject && !IsSpace(subject[0])
    ensures SubjectAt(SubjectTag + " " + subject + "\n" + rest) == Some((subject, |SubjectTag| + |subject| + 2))
  {
    var s := SubjectTag + " " + subject + "\n" + rest;
    var v := |SubjectTag| + 1;
    var l := v + |subject|;
    assert s[..|SubjectTag|] == SubjectTag;
    assert s[|SubjectTag|] == ' ' && s[v] == subject[0];
    SkipBlanksTo(s, |SubjectTag|, v);
    assert forall k :: v <= k < l ==> s[k] == subject[k - v];
    assert s[l] == '\n';
    LineEndTo(s, v, l);
    assert s[v..l] == subject;
  }

  lemma LineEndTo(s: string, i: nat, j: nat)
    requires i <= j <= |s|
    requires forall k :: i <= k < j ==> s[k] != '\n'
    requires j == |s| || s[j] == '\n'
    ensures LineEnd(s, i) == j
  {
  }

  /** The first line of an entry (`entry.split("\n")[0]`). */
  function FirstLine(entry: string): (r: string)
    ensures StartsWith(entry, r) && '\n' !in r
    ensures |r| < |entry| ==> entry[|r|] == '\n'
  {
    entry[..LineEnd(entry, 0)]
  }

  /** The body: what follows the subject match, or else what follows the
    * first line, stripped. */
  function Body(entry: string, subject: Option<(nat, (string, nat))>): (r: string)
    requires subject.Some? ==> subject.value.0 + subject.value.1.1 <= |entry|
    ensures IsStripped(r)
    ensures subject.None? && '\n' !in entry ==> r == ""
    ensures subject.Some? && IsStripped(entry[subject.value.0 + subject.value.1.1..]) ==>
              r == entry[subject.value.0 + subject.value.1.1..]
    ensures subject.None? && |FirstLine(entry)| < |entry| && IsStripped(entry[|FirstLine(entry)| + 1..]) ==>
              r == entry[|FirstLine(entry)| + 1..]
  {
    if subject.Some? then
      var tail := entry[subject.value.0 + subject.value.1.1..];
      if IsStripped(tail) then StripStripped(tail); Strip(tail) else Strip(tail)
    else if |FirstLine(entry)| < |entry| then
      var tail := entry[|FirstLine(entry)| + 1..];
      if IsStripped(tail) then StripStripped(tail); Strip(tail) else Strip(tail)
    else
      assert '\n' in entry ==> |FirstLine(entry)| < |entry|;
      ""
  }

  /** The recipient: the header's address without trailing ")" (the
    * address has no blanks, so stripping it first changes nothing). */
  function Recipient(address: string): (r: string)
    requires NoSpace(address)
    ensures StartsWith(address, r) && NoSpace(r)
    ensures r == [] || r[|r| - 1] != ')'
    ensures forall k :: |r| <= k < |address| ==> address[k] == ')'
  {
    var r := RStripParen(address);
    assert forall k :: 0 <= k < |r| ==> r[k] == address[k];
    r
  }

  /** The subject: the group of the subject match, stripped, or "". */
  function Subject(subject: Option<(nat, (string, nat))>): (r: string)
    ensures IsStripped(r)
    ensures subject.None? ==> r == ""
    ensures subject.Some? && IsStripped(subject.value.1.0) ==> r == subject.value.1.0
  {
    if subject.Some? then
      if IsStripped(subject.value.1.0) then StripStripped(subject.value.1.0); Strip(subject.value.1.0)
      else Strip(subject.value.1.0)
    else ""
  }

  /** One entry of the markdown: dropped when it is blank or has no header;
    * otherwise the number and address from the header, the skip flag from
    * the first line, the subject, and the body after the subject line (or
    * after the first line when there is no subject). */
  function ParseEntry(raw: string): Option<Email>
  {
    var entry := Strip(raw);
    if entry == [] then None
    else match SearchHeader(entry)
      case None => None
      case Some(h) =>
        var reason := SkipReason(FirstLine(entry));
        var sm := SearchSubject(entry);
        Some(Email(h.0, Recipient(h.1), Subject(sm), Body(entry, sm), reason.Some?, reason))
  }

  /** An entry is accepted exactly when its header is found; the email then
    * carries the header's number and its address without trailing ")", and
    * is skipped exactly when its first line carries a flag. */
  lemma ParsedEntry(raw: string)
    ensures ParseEntry(raw).Some? <==> SearchHeader(Strip(raw)).Some?
    ensures ParseEntry(raw).Some? ==>
      var m := ParseEntry(raw).value;
      var h := SearchHeader(Strip(raw)).value;
      && m.index == h.0
      && m.to == Recipient(h.1)
      && (m.skip <==> m.skipReason.Some?)
      && m.skipReason == SkipReason(FirstLine(Strip(raw)))
      && var e := Strip(raw);
      && var sm := SearchSubject(e);
      && m.subject == (if sm.None? then "" else Strip(sm.value.1.0))
      && '\n' !in m.subject
      && m.body == (if sm.Some? then Strip(e[sm.value.0 + sm.value.1.1..])
                    else if |FirstLine(e)| < |e| then Strip(e[|FirstLine(e)| + 1..])
                    else "")
      && IsStripped(m.subject) && IsStripped(m.body)
  {
    var e := Strip(raw);
    var sm := SearchSubject(e);
    SubjectOneLine(sm);
    if e != [] && SearchHeader(e).Some? {
      var h := SearchHeader(e).value;
      var reason := SkipReason(FirstLine(e));
      assert Subject(sm) == (if sm.None? then "" else Strip(sm.value.1.0));
      assert Body(e, sm) == (if sm.Some? then Strip(e[sm.value.0 + sm.value.1.1..])
                             else if |FirstLine(e)| < |e| then Strip(e[|FirstLine(e)| + 1..])
                             else "");
      assert ParseEntry(raw) == Some(Email(h.0, Recipient(h.1), Subject(sm), Body(e, sm), reason.Some?, reason));
    }
  }

  /** The subject is one line. */
  lemma SubjectOneLine(subject: Option<(nat, (string, nat))>)
    requires subject.Some? ==> '\n' !in subject.value.1.0
    ensures '\n' !in Subject(subject)
  {
    if subject.Some? {
      var g := subject.value.1.0;
      var i := StripSlice(g);
      assert forall k :: 0 <= k < |Strip(g)| ==> Strip(g)[k] == g[i + k];
    }
  }

  // ─── Parsing the whole markdown ───────────────────────────────────────────

  /** The email of one entry, if it is accepted. */
  function Accepted(raw: string): (r: seq<Email>)
    ensures |r| <= 1
    ensures r != [] <==> ParseEntry(raw).Some?
  {
    match ParseEntry(raw) case Some(m) => [m] case None => []
  }

  /** The emails of a list of entries, in entry order. */
  function ParseAll(entries: seq<string>): seq<Email>
  {
    Gather(entries, Accepted)
  }

  /** Parsing is entry by entry: the emails of two runs of entries are those
    * of the first followed by those of the second. */
  lemma ParseAllAppend(a: seq<string>, b: seq<string>)
    ensures ParseAll(a + b) == ParseAll(a) + ParseAll(b)
  {
    GatherAppend(a, b, Accepted);
  }

  /** Each entry contributes its own email, at its own place: the emails
    * before, then the email of entry `k` if it is accepted, then the emails
    * after. */
  lemma ParseAllAt(entries: seq<string>, k: nat)
    requires k < |entries|
    ensures ParseAll(entries) == ParseAll(entries[..k]) + Accepted(entries[k]) + ParseAll(entries[k + 1..])
  {
    GatherAt(entries, k, Accepted);
  }

  /** `parse_outreach_markdown`: split the stripped text into entries and
    * collect the email of every accepted entry, in order. */
  method ParseOutreachMarkdown(md: string) returns (emails: seq<Email>)
    ensures emails == ParseAll(SplitEntries(Strip(md), ""))
  {
    var entries := SplitEntries(Strip(md), "");
    emails := [];
    var i := 0;
    while i < |entries|
      invariant 0 <= i <= |entries|
      invariant emails == ParseAll(entries[..i])
    {
      assert entries[..i + 1][..i] == entries[..i];
      var m := ParseEntry(entries[i]);
      if m.Some? {
        emails := emails + [m.value];
      }
      i := i + 1;
    }
    assert entries[..i] == entries;
  }

  // ─── Batch send ────────────────────────────────────────────────────────────

  /** How one delivery attempt ended: sent, or failed with the exception's
    * text. */
  datatype Status = Sent | Failed(error: string)

  /** One email of the batch with its status. */
  datatype Outcome = Outcome(email: Email, status: Status)

  /** The server-sent events of a batch. */
  datatype Event =
    | ErrorEvent(content: string)
    | BatchStart(batchId: string, total: nat, account: string)
    | Sending(index: nat, to: string, subject: string, current: nat, total: nat)
    | EmailSent(index: nat, to: string, current: nat, total: nat)
    | EmailFailed(index: nat, to: string, error: string, current: nat, total: nat)
    | Waiting(seconds: nat, current: nat, total: nat)
    | BatchComplete(batchId: string, sent: nat, failed: nat, total: nat)

  /** The file `save_batch_result` writes; the creation time is the clock's
    * reading, passed in. */
  datatype BatchRecord = BatchRecord(id: string, account: string, createdAt: string,
                                     results: seq<Outcome>, sent: nat, failed: nat)

  /** The emails a batch sends: those without the skip flag, in order. */
  function Sendable(emails: seq<Email>): (r: seq<Email>)
    ensures |r| <= |emails|
    ensures forall k :: 0 <= k < |r| ==> !r[k].skip && r[k] in emails
    ensures forall k :: 0 <= k < |emails| && !emails[k].skip ==> emails[k] in r
  {
    if emails == [] then []
    else
      var rest := Sendable(emails[1..]);
      assert forall k :: 1 <= k < |emails| ==> emails[k] == emails[1..][k - 1];
      if emails[0].skip then rest else [emails[0]] + rest
  }

  /** An email that is not flagged to be skipped. */
  predicate NotSkipped(e: Email)
  {
    !e.skip
  }

  /** `[e for e in emails if not e.skip]`: the unflagged emails, in their
    * order and with their repeats. */
  lemma {:induction false} SendableIsFilter(emails: seq<Email>)
    ensures Sendable(emails) == Filter(emails, NotSkipped)
    ensures IsFilterOf(Sendable(emails), emails, NotSkipped)
  {
    if emails != [] {
      SendableIsFilter(emails[1..]);
    }
    FilterIsFilterOf(emails, NotSkipped);
  }

  /** The events of the `i`-th send (counting from 0) out of `total`: the
    * announcement, the result, and a pause unless it is the last one. */
  function StepEvents(e: Email, i: nat, total: nat, status: Status, delay: nat): (r: seq<Event>)
    ensures 2 <= |r| <= 3
    ensures r[0] == Sending(e.index, e.to, e.subject, i + 1, total)
    ensures r[1].EmailSent? <==> status.Sent?
    ensures |r| == 3 <==> i + 1 < total
  {
    [Sending(e.index, e.to, e.subject, i + 1, total)]
    + (match status
       case Sent => [EmailSent(e.index, e.to, i + 1, total)]
       case Failed(msg) => [EmailFailed(e.index, e.to, msg, i + 1, total)])
    + (if i + 1 < total then [Waiting(delay, i + 1, total)] else [])
  }

  /** The outcomes of the first `n` sends; `attempt(i, e)` is how the `i`-th
    * delivery went (the mail server is not modelled). */
  function Outcomes(s: seq<Email>, n: nat, attempt: (nat, Email) -> Status): (r: seq<Outcome>)
    requires n <= |s|
    ensures |r| == n
    ensures forall k :: 0 <= k < n ==> r[k] == Outcome(s[k], attempt(k, s[k]))
  {
    if n == 0 then [] else Outcomes(s, n - 1, attempt) + [Outcome(s[n - 1], attempt(n - 1, s[n - 1]))]
  }

  /** The events of the first `n` sends. */
  function Steps(s: seq<Email>, n: nat, attempt: (nat, Email) -> Status, delay: nat): seq<Event>
    requires n <= |s|
  {
    if n == 0 then []
    else Steps(s, n - 1, attempt, delay) + StepEvents(s[n - 1], n - 1, |s|, attempt(n - 1, s[n - 1]), delay)
  }

  /** The number of sent and of failed outcomes. */
  function SentCount(r: seq<Outcome>): nat
  {
    if r == [] then 0 else SentCount(r[..|r| - 1]) + (if r[|r| - 1].status.Sent? then 1 else 0)
  }

  function FailedCount(r: seq<Outcome>): nat
  {
    if r == [] then 0 else FailedCount(r[..|r| - 1]) + (if r[|r| - 1].status.Failed? then 1 else 0)
  }

  /** Every outcome is either sent or failed: the counts add up to the
    * number of emails attempted. */
  lemma {:induction false} CountsAddUp(r: seq<Outcome>)
    ensures SentCount(r) + FailedCount(r) == |r|
  {
    if r != [] {
      CountsAddUp(r[..|r| - 1]);
    }
  }

  /** The number of pauses among some events. */
  function WaitCount(evs: seq<Event>): nat
  {
    if evs == [] then 0 else WaitCount(evs[..|evs| - 1]) + (if evs[|evs| - 1].Waiting? then 1 else 0)
  }

  lemma {:induction false} WaitCountAppend(a: seq<Event>, b: seq<Event>)
    ensures WaitCount(a + b) == WaitCount(a) + WaitCount(b)
    decreases |b|
  {
    if b == [] {
      assert a + b == a;
    } else {
      assert (a + b)[..|a + b| - 1] == a + b[..|b| - 1];
      WaitCountAppend(a, b[..|b| - 1]);
    }
  }

  /** There is a pause after every send but the last: `n` sends of more
    * than `n` bring `n` pauses, and all of them bring one fewer. */
  lemma {:induction false} PausesBetweenSends(s: seq<Email>, n: nat, attempt: (nat, Email) -> Status, delay: nat)
    requires n <= |s|
    ensures WaitCount(Steps(s, n, attempt, delay)) == (if n == |s| && n > 0 then n - 1 else n)
  {
    if n > 0 {
      PausesBetweenSends(s, n - 1, attempt, delay);
      var prev := Steps(s, n - 1, attempt, delay);
      var step := StepEvents(s[n - 1], n - 1, |s|, attempt(n - 1, s[n - 1]), delay);
      WaitCountAppend(prev, step);
      StepPauses(s[n - 1], n - 1, |s|, attempt(n - 1, s[n - 1]), delay);
    }
  }

  /** The last event of a whole batch is a result, not a pause. */
  lemma BatchEndsWithResult(s: seq<Email>, attempt: (nat, Email) -> Status, delay: nat)
    requires s != []
    ensures var evs := Steps(s, |s|, attempt, delay);
            evs != [] && (evs[|evs| - 1].EmailSent? || evs[|evs| - 1].EmailFailed?)
  {
    var n := |s|;
    var prev := Steps(s, n - 1, attempt, delay);
    var step := StepEvents(s[n - 1], n - 1, n, attempt(n - 1, s[n - 1]), delay);
    StepEndsWithResult(s[n - 1], n - 1, n, attempt(n - 1, s[n - 1]), delay);
    assert (prev + step)[|prev + step| - 1] == step[|step| - 1];
  }

  /** The last send ends with its result. */
  lemma StepEndsWithResult(e: Email, i: nat, total: nat, status: Status, delay: nat)
    requires i + 1 == total
    ensures var step := StepEvents(e, i, total, status, delay);
            step != [] && (step[|step| - 1].EmailSent? || step[|step| - 1].EmailFailed?)
  {
  }

  /** One send brings one pause, except the last, which brings none. */
  lemma StepPauses(e: Email, i: nat, total: nat, status: Status, delay: nat)
    ensures WaitCount(StepEvents(e, i, total, status, delay)) == (if i + 1 < total then 1 else 0)
  {
    var step := StepEvents(e, i, total, status, delay);
    assert [step[0]][..0] == [];
    assert WaitCount([step[0]]) == 0;
    assert step[..2][..1] == [step[0]];
    assert WaitCount(step[..2]) == 0;
    if i + 1 < total {
      assert step[..|step| - 1] == step[..2];
    } else {
      assert step == step[..2];
    }
  }

  /** Only emails without the skip flag are announced for sending: every
    * announcement names a sendable email. */
  lemma {:induction false} AnnouncedAreSendable(s: seq<Email>, n: nat, attempt: (nat, Email) -> Status, delay: nat, j: nat)
    requires n <= |s|
    requires j < |Steps(s, n, attempt, delay)| && Steps(s, n, attempt, delay)[j].Sending?
    ensures exists k :: (0 <= k < n && Steps(s, n, attempt, delay)[j]
                         == Sending(s[k].index, s[k].to, s[k].subject, k + 1, |s|))
  {
    var prev := Steps(s, n - 1, attempt, delay);
    var step := StepEvents(s[n - 1], n - 1, |s|, attempt(n - 1, s[n - 1]), delay);
    if j < |prev| {
      AnnouncedAreSendable(s, n - 1, attempt, delay, j);
    } else {
      assert Steps(s, n, attempt, delay)[j] == step[j - |prev|];
      assert j - |prev| == 0;
    }
  }

  /** `send_batch`: an unknown account gives a single error event and nothing
    * else; otherwise the start event, then for each email without the skip
    * flag an announcement, its result and a pause unless it was the last,
    * then the completion event with the counts, and the batch record saved
    * before it. */
  method SendBatch(emails: seq<Email>, accountLabel: string, accounts: seq<Account>, delay: nat,
                   batchId: string, createdAt: string, attempt: (nat, Email) -> Status)
    returns (events: seq<Event>, saved: Option<BatchRecord>)
    ensures GetAccount(accounts, accountLabel).None? ==>
      events == [ErrorEvent("Unknown account: " + accountLabel)] && saved.None?
    ensures GetAccount(accounts, accountLabel).Some? ==>
      var s := Sendable(emails);
      var results := Outcomes(s, |s|, attempt);
      && saved == Some(BatchRecord(batchId, accountLabel, createdAt, results, SentCount(results), FailedCount(results)))
      && events == [BatchStart(batchId, |s|, GetAccount(accounts, accountLabel).value.email)]
                   + Steps(s, |s|, attempt, delay)
                   + [BatchComplete(batchId, SentCount(results), FailedCount(results), |s|)]
  {
    var account := GetAccount(accounts, accountLabel);
    if account.None? {
      return [ErrorEvent("Unknown account: " + accountLabel)], None;
    }
    var sendable := Sendable(emails);
    var total := |sendable|;
    var steps, results := SendEach(sendable, delay, attempt);
    var sent := SentCount(results);
    var failed := FailedCount(results);
    saved := Some(BatchRecord(batchId, accountLabel, createdAt, results, sent, failed));
    events := [BatchStart(batchId, total, account.value.email)] + steps + [BatchComplete(batchId, sent, failed, total)];
  }

  /** The sending loop of `send_batch`: one step per email, in order, each
    * step's events appended as they are produced. */
  method SendEach(s: seq<Email>, delay: nat, attempt: (nat, Email) -> Status)
    returns (events: seq<Event>, results: seq<Outcome>)
    ensures events == Steps(s, |s|, attempt, delay)
    ensures results == Outcomes(s, |s|, attempt)
  {
    var total := |s|;
    events := [];
    results := [];
    var i := 0;
    while i < total
      invariant 0 <= i <= total
      invariant results == Outcomes(s, i, attempt)
      invariant events == Steps(s, i, attempt, delay)
    {
      var e := s[i];
      var step := [Sending(e.index, e.to, e.subject, i + 1, total)];
      var status := attempt(i, e);
      results := results + [Outcome(e, status)];
      match status {
        case Sent =>
          step := step + [EmailSent(e.index, e.to, i + 1, total)];
        case Failed(msg) =>
          step := step + [EmailFailed(e.index, e.to, msg, i + 1, total)];
      }
      if i < total - 1 {
        step := step + [Waiting(delay, i + 1, total)];
      }
      assert step == StepEvents(e, i, total, status, delay);
      events := events + step;
      i := i + 1;
    }
  }

  /** The completion event reports as many sent and failed emails as there
    * were emails to send. */
  lemma BatchCountsAddUp(emails: seq<Email>, attempt: (nat, Email) -> Status)
    ensures var s := Sendable(emails);
      SentCount(Outcomes(s, |s|, attempt)) + FailedCount(Outcomes(s, |s|, attempt)) == |s|
  {
    var s := Sendable(emails);
    CountsAddUp(Outcomes(s, |s|, attempt));
  }
}
