/** The selection and text rules of the AutoJournal reel script: its
  * drawtext helpers, the style rotation, the screen-recording and category
  * picks, and the list of recent hooks the text generator must avoid. */
module AutojournalReel {
  import opened Common
  import opened Layout
  import Autopilot

  // ---------------------------------------------------------------------
  // Text helpers
  // ---------------------------------------------------------------------

  predicate IsAscii(c: char)
  {
    c <= '\U{7F}'
  }

  /** `strip_emojis`: every non-ASCII character removed, then the ends trimmed. */
  function StripEmojis(text: string): (r: string)
    ensures forall k :: 0 <= k < |r| ==> IsAscii(r[k])
    ensures IsStripped(r) && TrimmedOf(r, Keep(text, IsAscii))
    ensures |r| <= |text|
  {
    StripDropped(text, IsAscii)
  }

  /** An ASCII text without blanks at its ends is left as it is, so the
    * helper removes nothing it does not have to. */
  lemma StripEmojisKeepsAscii(text: string)
    requires forall k :: 0 <= k < |text| ==> IsAscii(text[k])
    requires IsStripped(text)
    ensures StripEmojis(text) == text
  {
    KeepAll(text, IsAscii);
    StripStripped(text);
  }

  /** `escape_drawtext`: no ASCII apostrophe and no unescaped ":" ";" '"'
    * or backslash remain, and drawtext reads back the ASCII text with
    * apostrophes turned into U+2019. */
  function EscapeDrawtext(text: string): (r: string)
    ensures '\'' !in r
    ensures WellEscaped(r, true)
    ensures Unescape(r) == ReplaceChar(StripEmojis(text), '\'', '\U{2019}')
  {
    var r := EscapeSteps(StripEmojis(text), true);
    EscapeStepsProperties(StripEmojis(text), true);
    WellEscapedNoApostrophe(r, true);
    r
  }

  const WrapWidth: nat := 25

  /** `wrap_text(text)` with its 25-character lines. */
  method WrapText(text: string) returns (lines: seq<string>)
    ensures lines == WrapFrom(Words(text), Length, WrapWidth, "", [])
    ensures Join(lines, " ") == Join(Words(text), " ")
    ensures forall k :: 0 <= k < |lines| ==> lines[k] != [] && (|lines[k]| <= 25 || NoSpace(lines[k]))
  {
    lines := Layout.WrapText(text, Length, WrapWidth);
  }

  // ---------------------------------------------------------------------
  // Style rotation
  // ---------------------------------------------------------------------

  /** `STYLE_ORDER`; the same five names are the keys of `SCENE1_STYLES`. */
  const StyleOrder: seq<string> := ["dark", "cream", "terracotta", "journal", "dark_accent"]

  /** `pick_style`: a known override wins; otherwise the styles rotate with
    * the number of logged runs. */
  function PickStyle(runCount: nat, override: Option<string>): (r: string)
    ensures override.Some? && override.value in StyleOrder ==> r == override.value
    ensures !(override.Some? && override.value in StyleOrder) ==> r == StyleOrder[runCount % 5]
    ensures r in StyleOrder
  {
    if override.Some? && override.value != "" && override.value in StyleOrder then override.value
    else StyleOrder[runCount % |StyleOrder|]
  }

  /** Without an override, consecutive runs get different styles and the
    * rotation repeats every five runs. */
  lemma StyleRotation(n: nat)
    ensures PickStyle(n, None) != PickStyle(n + 1, None)
    ensures PickStyle(n, None) == PickStyle(n + 5, None)
  {
    assert (n + 5) % 5 == n % 5;
    assert (n + 1) % 5 == if n % 5 == 4 then 0 else n % 5 + 1;
  }

  // ---------------------------------------------------------------------
  // Asset and category picks
  // ---------------------------------------------------------------------

  /** The screen recordings named in the last four log entries. */
  function RecentScreens(recent: seq<Record>): set<string>
  {
    set e | e in LastN(recent, 4) :: Get(e, "screen_recording")
  }

  /** `pick_screen_recording`: an `.mp4`/`.mov` file of the folder, one not
    * used in the last four runs whenever there is one; an empty folder ends
    * the script with an error. */
  method PickScreenRecording(folder: seq<string>, recent: seq<Record>) returns (r: Result<string>)
    ensures Autopilot.VideoNames(folder) == [] <==> r.Err?
    ensures r.Ok? ==> r.value in folder && (Suffix(r.value) == ".mp4" || Suffix(r.value) == ".mov")
    ensures r.Ok? && (exists a :: a in Autopilot.VideoNames(folder) && a !in RecentScreens(recent)) ==>
      r.value !in RecentScreens(recent)
  {
    var available := Autopilot.VideoNames(folder);
    if available == [] {
      return Err("No screen recordings");
    }
    var name := PreferUnused(available, RecentScreens(recent));
    r := Ok(name);
  }

  /** `pick_category`: a known override wins, otherwise a draw from the
    * weighted population (40 A, 30 B, 15 C, 15 D). */
  method PickCategory(override: Option<string>) returns (c: string)
    ensures override.Some? && override.value in Autopilot.CategoryKeys ==> c == override.value
    ensures !(override.Some? && override.value in Autopilot.CategoryKeys) ==>
      c in Autopilot.Pool(Autopilot.CategoryKeys, Autopilot.CategoryWeights)
    ensures c in Autopilot.CategoryKeys
  {
    if override.Some? && override.value != "" && override.value in Autopilot.CategoryKeys {
      return override.value;
    }
    c := Autopilot.DrawCategory();
  }

  // ---------------------------------------------------------------------
  // Recent hooks
  // ---------------------------------------------------------------------

  /** The truthy `hook_text` values of the logged runs, in log order. */
  function RecentHooks(recent: seq<Record>): (r: seq<string>)
    ensures forall k :: 0 <= k < |r| ==> r[k] != ""
    ensures |r| <= |recent|
  {
    if recent == [] then []
    else RecentHooks(recent[..|recent| - 1])
         + (if Get(recent[|recent| - 1], "hook_text") != "" then [Get(recent[|recent| - 1], "hook_text")] else [])
  }

  /** A run without a hook text contributes nothing; one with a hook text
    * contributes it as the newest hook. */
  lemma RecentHooksSnoc(recent: seq<Record>, e: Record)
    ensures RecentHooks(recent + [e]) ==
      RecentHooks(recent) + (if Get(e, "hook_text") != "" then [Get(e, "hook_text")] else [])
  {
    assert (recent + [e])[..|recent|] == recent;
  }

  /** One bullet line per hook, for the last eight hooks. */
  function AvoidLines(hooks: seq<string>): (r: seq<string>)
    ensures |r| == if |hooks| < 8 then |hooks| else 8
    ensures forall k :: 0 <= k < |r| ==> r[k] == "- \"" + hooks[|hooks| - |r| + k] + "\""
  {
    var last := LastN(hooks, 8);
    seq(|last|, k requires 0 <= k < |last| => "- \"" + last[k] + "\"")
  }

  const AvoidIntro: string :=
    "\n\nIMPORTANT \U{2014} These hooks were used in recent reels. "
    + "Do NOT repeat or closely paraphrase any of them. "
    + "Pick a DIFFERENT angle and scenario:\n"

  /** The avoid block added to the prompt: absent without recent hooks,
    * otherwise the fixed instruction followed by the bullet lines. */
  function AvoidBlock(hooks: seq<string>): (r: string)
    ensures hooks == [] <==> r == ""
    ensures hooks != [] ==> StartsWith(r, AvoidIntro)
  {
    if hooks == [] then "" else AvoidIntro + Join(AvoidLines(hooks), "\n")
  }

  /** The bullet lines read back from the block are those of the last eight
    * hooks, when no hook holds a line break. */
  lemma AvoidBlockLines(hooks: seq<string>)
    requires hooks != []
    requires forall k :: 0 <= k < |hooks| ==> '\n' !in hooks[k]
    ensures Split(AvoidBlock(hooks)[|AvoidIntro|..], '\n') == AvoidLines(hooks)
    ensures |AvoidLines(hooks)| <= 8
  {
    var lines := AvoidLines(hooks);
    forall k | 0 <= k < |lines| ensures '\n' !in lines[k] {
      var h := hooks[|hooks| - |lines| + k];
      assert lines[k] == "- \"" + h + "\"";
    }
    assert AvoidBlock(hooks)[|AvoidIntro|..] == Join(lines, "\n");
    SplitJoin(lines, '\n');
  }

  // ---------------------------------------------------------------------
  // Override text
  // ---------------------------------------------------------------------

  datatype Content = Content(hook: string, payoff: string, caption: string, hashtags: string)

  /** The content taken from the command line: only when both the hook and
    * the payoff text are given and non-empty; otherwise the text is
    * generated. */
  function OverrideContent(hook: Option<string>, payoff: Option<string>): (r: Option<Content>)
    ensures r.Some? <==> hook.Some? && hook.value != "" && payoff.Some? && payoff.value != ""
    ensures r.Some? ==> r.value.hook == hook.value && r.value.payoff == payoff.value
    ensures r.Some? ==> r.value.caption == "" && r.value.hashtags == ""
  {
    if hook.Some? && hook.value != "" && payoff.Some? && payoff.value != "" then
      Some(Content(hook.value, payoff.value, "", ""))
    else None
  }
}
