/** The selection and text rules of the lifestyle image reel script: its
  * emoji removal and drawtext helpers, the image and screen-recording picks,
  * the drawtext filter of a scene, the frame count of an image scene and the
  * row it appends to the asset usage file. */
module LifestyleReel {
  import opened Common
  import opened Layout
  import Autopilot

  // ---------------------------------------------------------------------
  // Text helpers
  // ---------------------------------------------------------------------

  /** The code points of the emoji pattern: emoticons, pictographs,
    * transport, flags, dingbats, variation selectors, the zero-width joiner,
    * miscellaneous symbols and the supplemental and extended symbol blocks. */
  predicate IsEmoji(c: char)
  {
    ('\U{1F600}' <= c <= '\U{1F64F}') || ('\U{1F300}' <= c <= '\U{1F5FF}')
    || ('\U{1F680}' <= c <= '\U{1F6FF}') || ('\U{1F1E0}' <= c <= '\U{1F1FF}')
    || ('\U{2702}' <= c <= '\U{27B0}') || ('\U{FE00}' <= c <= '\U{FE0F}')
    || c == '\U{200D}' || ('\U{2600}' <= c <= '\U{26FF}')
    || ('\U{1F900}' <= c <= '\U{1F9FF}') || ('\U{1FA00}' <= c <= '\U{1FA6F}')
    || ('\U{1FA70}' <= c <= '\U{1FAFF}')
  }

  predicate NotEmoji(c: char)
  {
    !IsEmoji(c)
  }

  /** `strip_emojis`: the emoji characters removed, then the ends trimmed. */
  function StripEmojis(text: string): (r: string)
    ensures forall k :: 0 <= k < |r| ==> !IsEmoji(r[k])
    ensures IsStripped(r) && TrimmedOf(r, Keep(text, NotEmoji))
    ensures |r| <= |text|
  {
    StripDropped(text, NotEmoji)
  }

  /** Exactly the emoji characters go: the removal works character by
    * character, dropping an emoji and keeping anything else. */
  lemma StripEmojisExact(p: string, q: string, c: char)
    ensures Keep(p + q, NotEmoji) == Keep(p, NotEmoji) + Keep(q, NotEmoji)
    ensures Keep([c], NotEmoji) == if IsEmoji(c) then [] else [c]
    ensures StripEmojis(StripEmojis(p)) == StripEmojis(p)
  {
    KeepAppend(p, q, NotEmoji);
    assert [c][1..] == [];
    StripDroppedIdempotent(p, NotEmoji);
  }

  /** `escape_drawtext`: no ASCII apostrophe and no unescaped ":" ";" '"'
    * or backslash remain, and drawtext reads back the emoji-free text with
    * apostrophes turned into U+2019. */
  function EscapeDrawtext(text: string): (r: string)
    ensures '\'' !in r
    ensures WellEscaped(r, true)
    ensures Unescape(r) == ReplaceChar(StripEmojis(text), '\'', '\U{2019}')
  {
    var r := EscapeSteps(StripEmojis(text), true);
    EscapeStepsProperties(StripEmojis(text), true);
    WellEscapedNoApostrophe(r, true);
    r
  }

  const WrapWidth: nat := 28

  /** `wrap_text(text)` with its 28-character lines. */
  method WrapText(text: string) returns (lines: seq<string>)
    ensures lines == Wrap(Words(text), WrapWidth)
    ensures Join(lines, " ") == Join(Words(text), " ")
    ensures forall k :: 0 <= k < |lines| ==> lines[k] != [] && (|lines[k]| <= 28 || NoSpace(lines[k]))
  {
    lines := Layout.WrapText(text, Length, WrapWidth);
  }

  // ---------------------------------------------------------------------
  // Asset picks
  // ---------------------------------------------------------------------

  /** `list_images(scene)`: the files named `<scene>-v…` with a
    * `.png`, `.jpg` or `.jpeg` suffix. */
  function SceneImages(scene: string, names: seq<string>): (r: seq<string>)
    ensures forall n :: n in r <==> (n in names && StartsWith(n, scene + "-v")
                                     && Suffix(n) in [".png", ".jpg", ".jpeg"])
  {
    if names == [] then []
    else (if StartsWith(names[0], scene + "-v") && Suffix(names[0]) in [".png", ".jpg", ".jpeg"]
          then [names[0]] else [])
         + SceneImages(scene, names[1..])
  }

  /** The log field that records a scene's image: `scene-1` is logged
    * as `scene_1_image`. */
  function ImageKey(scene: string): (r: string)
    ensures |r| == |scene| + 6 && EndsWith(r, "_image")
    ensures '-' !in r
  {
    var r := ReplaceChar(scene, '-', '_') + "_image";
    assert r[|r| - 6..] == "_image";
    r
  }

  lemma ImageKeys()
    ensures ImageKey("scene-1") == "scene_1_image"
    ensures ImageKey("scene-2") == "scene_2_image"
  {
    assert ReplaceChar("scene-1", '-', '_') == "scene_1";
    assert ReplaceChar("scene-2", '-', '_') == "scene_2";
  }

  /** The values of `key` in the last seven log entries. */
  function RecentValues(recent: seq<Record>, key: string): set<string>
  {
    set e | e in LastN(recent, 7) :: Get(e, key)
  }

  /** `pick_image`: an image of the scene not named in the last seven runs
    * whenever there is one; no image ends the script with an error. */
  method PickImage(scene: string, folder: seq<string>, recent: seq<Record>) returns (r: Result<string>)
    ensures SceneImages(scene, folder) == [] <==> r.Err?
    ensures r.Ok? ==> r.value in SceneImages(scene, folder)
    ensures r.Ok? && (exists a :: a in SceneImages(scene, folder) && a !in RecentValues(recent, ImageKey(scene))) ==>
      r.value !in RecentValues(recent, ImageKey(scene))
  {
    var available := SceneImages(scene, folder);
    if available == [] {
      return Err("No " + scene + " images");
    }
    var name := PreferUnused(available, RecentValues(recent, ImageKey(scene)));
    r := Ok(name);
  }

  /** `pick_screen_recording`: avoids the recordings of the last seven runs
    * whenever possible; no recording ends the script with an error. */
  method PickScreenRecording(folder: seq<string>, recent: seq<Record>) returns (r: Result<string>)
    ensures Autopilot.VideoNames(folder) == [] <==> r.Err?
    ensures r.Ok? ==> r.value in Autopilot.VideoNames(folder)
    ensures r.Ok? && (exists a :: a in Autopilot.VideoNames(folder) && a !in RecentValues(recent, "screen_recording")) ==>
      r.value !in RecentValues(recent, "screen_recording")
  {
    var available := Autopilot.VideoNames(folder);
    if available == [] {
      return Err("No screen recordings");
    }
    var name := PreferUnused(available, RecentValues(recent, "screen_recording"));
    r := Ok(name);
  }

  // ---------------------------------------------------------------------
  // Scene rendering
  // ---------------------------------------------------------------------

  /** The options of the black-box text; `multi` adds `line_spacing=8`.
    * `yRatio` is the ratio as the filter writes it. */
  function BoxOpts(fontPath: string, escaped: string, fontSize: nat, yRatio: string, multi: bool): (r: seq<Opt>)
    ensures HasKey(r, "line_spacing") <==> multi
    ensures Opt("text", "'" + escaped + "'") in r
  {
    var r := [Opt("fontfile", "'" + fontPath + "'"), Opt("text", "'" + escaped + "'"),
              Opt("fontsize", NatToString(fontSize)), Opt("fontcolor", "white"),
              Opt("box", "1"), Opt("boxcolor", "black@0.85"), Opt("boxborderw", "20")]
             + (if multi then [Opt("line_spacing", "8")] else [])
             + [Opt("x", "(w-text_w)/2"), Opt("y", "h*" + yRatio + "-text_h/2")];
    assert r[1] == Opt("text", "'" + escaped + "'");
    assert multi ==> r[7].key == "line_spacing";
    assert forall k :: 0 <= k < |r| && (k != 7 || !multi) ==> r[k].key != "line_spacing";
    r
  }

  /** The text a scene shows: several wrapped lines are escaped as one text
    * with line breaks, a single line is escaped as given. */
  function SceneText(text: string): string
  {
    var lines := Wrap(Words(text), WrapWidth);
    if |lines| > 1 then EscapeDrawtext(Join(lines, "\n")) else EscapeDrawtext(text)
  }

  /** `build_drawtext`: `line_spacing` appears exactly when the text wraps
    * onto more than one line. */
  function BuildDrawtext(text: string, fontPath: string, fontSize: nat, yRatio: string): (r: seq<Opt>)
    ensures HasKey(r, "line_spacing") <==> |Wrap(Words(text), WrapWidth)| > 1
    ensures Opt("text", "'" + SceneText(text) + "'") in r
  {
    BoxOpts(fontPath, SceneText(text), fontSize, yRatio, |Wrap(Words(text), WrapWidth)| > 1)
  }

  const Fps: nat := 30

  /** `int(duration * FPS)`: the whole number of frames an image scene of
    * `duration` seconds lasts. */
  function Frames(duration: real): (r: int)
    requires duration >= 0.0
    ensures 0 <= r && r as real <= duration * 30.0 < r as real + 1.0
  {
    (duration * Fps as real).Floor
  }

  lemma SceneFrames()
    ensures Frames(4.0) == 120 && Frames(2.5) == 75
  {
  }

  // ---------------------------------------------------------------------
  // Asset usage file
  // ---------------------------------------------------------------------

  const UsageHeader: string :=
    "## Recent Asset Usage\n\n"
    + "| Date | Type | Scene 1 | Scene 2 | Screen Recording |\n"
    + "|------|------|---------|---------|------------------|\n"

  /** The row one reel appends. */
  function UsageRow(today: string, scene1: string, scene2: string, screen: string): string
  {
    "| " + today + " | lifestyle | " + scene1 + " | " + scene2 + " | " + screen + " |"
  }

  /** The file after appending `row`: an existing file loses its trailing
    * blanks and gets the row on a line of its own; a missing file starts
    * with the table header. */
  function AppendRow(content: Option<string>, row: string): string
  {
    match content
    case None => UsageHeader + row + "\n"
    case Some(c) => TrimRight(c) + "\n" + row + "\n"
  }

  /** Appending to an existing file adds exactly one line, the row, after
    * the lines of the trimmed file. */
  lemma AppendRowLines(c: string, row: string)
    requires '\n' !in row
    ensures SplitLines(AppendRow(Some(c), row)) == Split(TrimRight(c), '\n') + [row]
  {
    var t := TrimRight(c);
    var s := t + "\n" + row + "\n";
    assert s == t + ['\n'] + (row + ['\n'] + "");
    SplitAppend(t, '\n', row + ['\n'] + "");
    SplitAppend(row, '\n', "");
    SplitNoSep(row, '\n');
    var parts := Split(t, '\n') + [row] + [""];
    assert Split(s, '\n') == parts;
    assert parts[..|parts| - 1] == Split(t, '\n') + [row];
  }

  /** A missing file becomes the header followed by the row. */
  lemma AppendRowNew(row: string)
    ensures AppendRow(None, row) == UsageHeader + row + "\n"
    ensures StartsWith(AppendRow(None, row), UsageHeader)
  {
  }

  class UsageFile {
    var content: Option<string>

    constructor(content: Option<string>)
      ensures this.content == content
    {
      this.content := content;
    }

    /** `update_asset_usage`: appends the reel's row. */
    method UpdateAssetUsage(today: string, scene1: string, scene2: string, screen: string)
      modifies this
      ensures content == Some(AppendRow(old(content), UsageRow(today, scene1, scene2, screen)))
    {
      var row := UsageRow(today, scene1, scene2, screen);
      match content {
        case None =>
          content := Some(UsageHeader + row + "\n");
        case Some(c) =>
          content := Some(TrimRight(c) + "\n" + row + "\n");
      }
    }
  }

  // ---------------------------------------------------------------------
  // Override text
  // ---------------------------------------------------------------------

  datatype Content = Content(scene1: string, scene2: string, scene3: string, caption: string, angle: string)

  /** The content taken from the command line: only when all three scene
    * texts are given and non-empty; otherwise the text is generated. */
  function OverrideContent(t1: Option<string>, t2: Option<string>, t3: Option<string>): (r: Option<Content>)
    ensures r.Some? <==> t1.Some? && t1.value != "" && t2.Some? && t2.value != "" && t3.Some? && t3.value != ""
    ensures r.Some? ==> r.value == Content(t1.value, t2.value, t3.value, "", "manual")
  {
    if t1.Some? && t1.value != "" && t2.Some? && t2.value != "" && t3.Some? && t3.value != "" then
      Some(Content(t1.value, t2.value, t3.value, "", "manual"))
    else None
  }
}
