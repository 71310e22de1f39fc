/** The slideshow generator: which image each slide comes from, which
  * slides get a text overlay and where their files go; the wrap and
  * vertical placement of overlay text; the normalisation of the older
  * reaction-slideshow format; and the six slides of the screen-time
  * slideshow. Image generation, resizing and drawing are effects that are
  * left out: a slide records what was asked of them. The font's measure of a
  * line's width is a parameter. */
module GenerateSlideshow {
  import opened Common
  import Layout

  const SlideWidth: int := 1024
  const SlideHeight: int := 1536
  /** `int(SLIDE_WIDTH * 0.065)` */
  const FontSize: int := (SlideWidth as real * 0.065).Floor
  /** `int(SLIDE_WIDTH * 0.80)` */
  const MaxTextWidth: int := (SlideWidth as real * 0.80).Floor
  const LineHeight: real := FontSize as real * 1.3
  /** `int(SLIDE_HEIGHT * 0.20)` and `int(SLIDE_HEIGHT * 0.65)` */
  const MinY: int := (SlideHeight as real * 0.20).Floor
  const MaxY: int := (SlideHeight as real * 0.65).Floor

  // ---------------------------------------------------------------------
  // Text overlay (`add_text_overlay`)
  // ---------------------------------------------------------------------

  /** The top of the text block: centred on the slide, but not above 20% of
    * its height nor below 65%. */
  function StartY(lineCount: nat): (r: real)
    ensures MinY as real <= r <= MaxY as real
  {
    var centred := (SlideHeight as real - LineHeight * lineCount as real) / 2.0;
    var lower := if MaxY as real < centred then MaxY as real else centred;
    if MinY as real > lower then MinY as real else lower
  }

  /** Up to ten lines the block is centred; from eleven lines on it starts
    * at the 20% mark. The 65% bound is never reached. */
  lemma StartYCases(lineCount: nat)
    ensures lineCount <= 10 ==> StartY(lineCount) == (SlideHeight as real - LineHeight * lineCount as real) / 2.0
    ensures lineCount > 10 ==> StartY(lineCount) == MinY as real
    ensures StartY(lineCount) < MaxY as real
  {
    assert FontSize == 66 && MinY == 307 && MaxY == 998;
  }

  /** Where a line is drawn: centred horizontally, one line height below the
    * previous line. */
  datatype Placed = Placed(line: string, x: real, y: real)

  function Placements(lines: seq<string>, width: string -> int): (r: seq<Placed>)
    ensures |r| == |lines|
    ensures forall i :: 0 <= i < |r| ==> r[i].line == lines[i]
    ensures forall i :: 0 <= i < |r| ==> r[i].x == (SlideWidth - width(lines[i])) as real / 2.0
    ensures forall i :: 0 <= i < |r| ==> r[i].y == StartY(|lines|) + i as real * LineHeight
  {
    seq(|lines|, i requires 0 <= i < |lines| =>
      Placed(lines[i], (SlideWidth - width(lines[i])) as real / 2.0, StartY(|lines|) + i as real * LineHeight))
  }

  /** `add_text_overlay` without the drawing: the text wrapped greedily to
    * the maximum width, and where each line goes. */
  method AddTextOverlay(text: string, width: string -> int) returns (placed: seq<Placed>)
    ensures var lines := Layout.WrapFrom(Words(text), width, MaxTextWidth, "", []);
            placed == Placements(lines, width)
    ensures forall k :: 0 <= k < |placed| ==> Layout.Fits(placed[k].line, width, MaxTextWidth)
    ensures forall k :: 0 <= k < |placed| ==> MinY as real <= placed[k].y - k as real * LineHeight <= MaxY as real
  {
    var lines := Layout.WrapText(text, width, MaxTextWidth);
    placed := Placements(lines, width);
  }

  // ---------------------------------------------------------------------
  // The slideshow (`generate_slideshow`)
  // ---------------------------------------------------------------------

  /** One entry of `slides_config`; an absent key is `None`. */
  datatype SlideConfig = SlideConfig(kind: Option<string>, path: Option<string>,
                                     prompt: Option<string>, overlayText: Option<string>)

  /** Where a slide's image comes from. */
  datatype Source = Generated(prompt: string) | Resized(asset: string)

  /** A produced slide: its image, the overlay drawn on it if any, and the
    * file returned for it. */
  datatype Slide = Slide(source: Source, image: string, overlay: Option<string>, output: string)

  function SlidePath(workDir: string, i: nat): string
  {
    PathJoin(workDir, "slide_" + NatToString(i + 1) + ".png")
  }

  function OverlayPath(workDir: string, i: nat): string
  {
    PathJoin(workDir, "slide_" + NatToString(i + 1) + "_overlay.png")
  }

  /** The overlay text of slide `i`: the hook on the first slide, the
    * configured text on the others; an empty text is no overlay. */
  function OverlayOf(i: nat, config: SlideConfig, hook: string): (r: Option<string>)
    ensures r.Some? ==> r.value != ""
    ensures i == 0 ==> (r.Some? <==> hook != "") && (r.Some? ==> r.value == hook)
    ensures i > 0 ==> (r.Some? <==> config.overlayText.Some? && config.overlayText.value != "")
    ensures i > 0 && r.Some? ==> r == config.overlayText
  {
    var text := if i == 0 then Some(hook) else config.overlayText;
    if text.Some? && text.value != "" then text else None
  }

  /** Slide `i` of the show, or the error its configuration raises. */
  function SlideAt(i: nat, config: SlideConfig, hook: string, workDir: string, assetsDir: string,
                   assets: set<string>): (r: Result<Slide>)
    ensures config.kind == Some("asset") ==>
              (r.Ok? <==> config.path.Some? && PathJoin(assetsDir, config.path.value) in assets)
              && (r.Ok? ==> r.value.source == Resized(PathJoin(assetsDir, config.path.value)))
    ensures config.kind != Some("asset") ==>
              (r.Ok? <==> config.prompt.Some?) && (r.Ok? ==> r.value.source == Generated(config.prompt.value))
    ensures r.Ok? ==> r.value.image == SlidePath(workDir, i) && r.value.overlay == OverlayOf(i, config, hook)
    ensures r.Ok? ==> r.value.output == if r.value.overlay.Some? then OverlayPath(workDir, i) else SlidePath(workDir, i)
  {
    var image := SlidePath(workDir, i);
    var kind := if config.kind.Some? then config.kind.value else "generate";
    var source: Result<Source> :=
      if kind == "asset" then
        if config.path.None? then Err("KeyError: path")
        else
          var assetPath := PathJoin(assetsDir, config.path.value);
          if assetPath !in assets then Err("FileNotFoundError: Asset not found: " + assetPath)
          else Ok(Resized(assetPath))
      else if config.prompt.None? then Err("KeyError: prompt")
      else Ok(Generated(config.prompt.value));
    if source.Err? then Err(source.error)
    else
      var overlay := OverlayOf(i, config, hook);
      Ok(Slide(source.value, image, overlay, if overlay.Some? then OverlayPath(workDir, i) else image))
  }

  /** A loop that builds one value per element, in order, and stops at the
    * first element that raises: `acc` holds the values for the elements
    * before `i`. */
  function Collect<A, B>(xs: seq<A>, f: (nat, A) -> Result<B>, i: nat, acc: seq<B>): Result<seq<B>>
    decreases |xs| - i
  {
    if i >= |xs| then Ok(acc)
    else
      var y := f(i, xs[i]);
      if y.Err? then Err(y.error) else Collect(xs, f, i + 1, acc + [y.value])
  }

  /** The loop fails exactly when some element from `i` on raises, with the
    * first such error; otherwise it adds one value per element, in order. */
  lemma {:induction false} CollectShape<A, B>(xs: seq<A>, f: (nat, A) -> Result<B>, i: nat, acc: seq<B>)
    requires i <= |xs|
    ensures var r := Collect(xs, f, i, acc);
            && (r.Ok? <==> forall j :: i <= j < |xs| ==> f(j, xs[j]).Ok?)
            && (r.Ok? ==> |r.value| == |acc| + |xs| - i && r.value[..|acc|] == acc
                          && forall j :: i <= j < |xs| ==> r.value[|acc| + j - i] == f(j, xs[j]).value)
            && (r.Err? ==> exists j :: i <= j < |xs| && f(j, xs[j]) == Err(r.error)
                                       && forall m :: i <= m < j ==> f(m, xs[m]).Ok?)
    decreases |xs| - i
  {
    if i < |xs| && f(i, xs[i]).Ok? {
      var acc' := acc + [f(i, xs[i]).value];
      CollectShape(xs, f, i + 1, acc');
      var r := Collect(xs, f, i, acc);
      if r.Ok? {
        assert r.value[..|acc'|][..|acc|] == r.value[..|acc|];
      }
    }
  }

  /** The whole loop: it succeeds exactly when no element raises, and then
    * holds one value per element; otherwise it fails with the first error. */
  lemma CollectAll<A, B>(xs: seq<A>, f: (nat, A) -> Result<B>)
    ensures var r := Collect(xs, f, 0, []);
            && (r.Ok? <==> forall j :: 0 <= j < |xs| ==> f(j, xs[j]).Ok?)
            && (r.Ok? ==> |r.value| == |xs| && forall j :: 0 <= j < |xs| ==> r.value[j] == f(j, xs[j]).value)
            && (r.Err? ==> exists j :: 0 <= j < |xs| && f(j, xs[j]) == Err(r.error)
                                       && forall m :: 0 <= m < j ==> f(m, xs[m]).Ok?)
  {
    CollectShape(xs, f, 0, []);
    var r := Collect(xs, f, 0, []);
    if r.Ok? {
      forall j | 0 <= j < |xs| ensures r.value[j] == f(j, xs[j]).value {
        assert r.value[0 + j - 0] == f(j, xs[j]).value;
      }
    }
  }

  function SlideStep(hook: string, workDir: string, assetsDir: string, assets: set<string>)
    : (nat, SlideConfig) -> Result<Slide>
  {
    (i: nat, config: SlideConfig) => SlideAt(i, config, hook, workDir, assetsDir, assets)
  }

  /** The slides of a configuration list, in order, or the first error. */
  function Slides(configs: seq<SlideConfig>, hook: string, workDir: string, assetsDir: string,
                  assets: set<string>): Result<seq<Slide>>
  {
    Collect(configs, SlideStep(hook, workDir, assetsDir, assets), 0, [])
  }

  /** `generate_slideshow` */
  method GenerateSlides(hook: string, configs: seq<SlideConfig>, workDir: string, assetsDir: string,
                        assets: set<string>) returns (r: Result<seq<Slide>>)
    ensures r == Slides(configs, hook, workDir, assetsDir, assets)
  {
    var slides: seq<Slide> := [];
    for i := 0 to |configs|
      invariant Collect(configs, SlideStep(hook, workDir, assetsDir, assets), i, slides)
                == Slides(configs, hook, workDir, assetsDir, assets)
    {
      var slide := SlideAt(i, configs[i], hook, workDir, assetsDir, assets);
      if slide.Err? {
        return Err(slide.error);
      }
      slides := slides + [slide.value];
    }
    return Ok(slides);
  }

  /** The show fails exactly when some configuration does, with the first
    * failure; otherwise it has one slide per configuration, each built from
    * its own configuration and position. */
  lemma SlidesShape(configs: seq<SlideConfig>, hook: string, workDir: string,
                    assetsDir: string, assets: set<string>)
    ensures var r := Slides(configs, hook, workDir, assetsDir, assets);
            && (r.Ok? <==> forall i :: 0 <= i < |configs| ==> SlideAt(i, configs[i], hook, workDir, assetsDir, assets).Ok?)
            && (r.Ok? ==> |r.value| == |configs|
                          && forall i :: 0 <= i < |configs| ==>
                               r.value[i] == SlideAt(i, configs[i], hook, workDir, assetsDir, assets).value)
            && (r.Err? ==> exists i :: 0 <= i < |configs|
                             && SlideAt(i, configs[i], hook, workDir, assetsDir, assets) == Err(r.error)
                             && forall j :: 0 <= j < i ==> SlideAt(j, configs[j], hook, workDir, assetsDir, assets).Ok?)
  {
    CollectAll(configs, SlideStep(hook, workDir, assetsDir, assets));
  }

  // ---------------------------------------------------------------------
  // The older format (`generate_reaction_slideshow`)
  // ---------------------------------------------------------------------

  /** A configuration without a type becomes a generated slide from its
    * prompt, keeping nothing else; a typed one passes through. */
  function Normalized(config: SlideConfig): (r: Result<SlideConfig>)
    ensures config.kind.Some? ==> r == Ok(config)
    ensures config.kind.None? ==> (r.Ok? <==> config.prompt.Some?)
    ensures config.kind.None? && r.Ok? ==> r.value == SlideConfig(Some("generate"), None, config.prompt, None)
  {
    if config.kind.Some? then Ok(config)
    else if config.prompt.None? then Err("KeyError: prompt")
    else Ok(SlideConfig(Some("generate"), None, config.prompt, None))
  }

  function NormalizeStep(): (nat, SlideConfig) -> Result<SlideConfig>
  {
    (i: nat, config: SlideConfig) => Normalized(config)
  }

  function NormalizedAll(configs: seq<SlideConfig>): Result<seq<SlideConfig>>
  {
    Collect(configs, NormalizeStep(), 0, [])
  }

  /** The normalisation loop of `generate_reaction_slideshow`. */
  method Normalize(configs: seq<SlideConfig>) returns (r: Result<seq<SlideConfig>>)
    ensures r == NormalizedAll(configs)
  {
    var normalized: seq<SlideConfig> := [];
    for i := 0 to |configs|
      invariant Collect(configs, NormalizeStep(), i, normalized) == NormalizedAll(configs)
    {
      if configs[i].kind.None? {
        if configs[i].prompt.None? {
          return Err("KeyError: prompt");
        }
        normalized := normalized + [SlideConfig(Some("generate"), None, configs[i].prompt, None)];
      } else {
        normalized := normalized + [configs[i]];
      }
    }
    return Ok(normalized);
  }

  /** Normalising keeps the number and order of slides, and gives every one
    * a type. */
  lemma NormalizedTyped(configs: seq<SlideConfig>)
    ensures var r := NormalizedAll(configs);
            && (r.Ok? <==> forall i :: 0 <= i < |configs| ==> configs[i].kind.Some? || configs[i].prompt.Some?)
            && (r.Ok? ==> |r.value| == |configs|
                          && (forall i :: 0 <= i < |configs| ==> r.value[i].kind.Some?)
                          && (forall i :: 0 <= i < |configs| ==> Normalized(configs[i]) == Ok(r.value[i])))
  {
    CollectAll(configs, NormalizeStep());
    assert forall i :: 0 <= i < |configs| ==> NormalizeStep()(i, configs[i]) == Normalized(configs[i]);
  }

  /** Normalising a normalised list changes nothing. */
  lemma NormalizeIdempotent(configs: seq<SlideConfig>)
    ensures var r := NormalizedAll(configs);
            r.Ok? ==> NormalizedAll(r.value) == r
  {
    NormalizedTyped(configs);
    var r := NormalizedAll(configs);
    if r.Ok? {
      var typed := r.value;
      CollectAll(typed, NormalizeStep());
      assert forall i :: 0 <= i < |typed| ==> NormalizeStep()(i, typed[i]) == Normalized(typed[i]);
      var again := NormalizedAll(typed);
      assert forall j :: 0 <= j < |typed| ==> Normalized(typed[j]) == Ok(typed[j]);
      assert again.Ok?;
      assert forall j :: 0 <= j < |typed| ==> again.value[j] == typed[j];
      assert again.value == typed;
    }
  }

  /** `generate_reaction_slideshow` */
  method GenerateReactionSlides(hook: string, configs: seq<SlideConfig>, workDir: string, assetsDir: string,
                                assets: set<string>) returns (r: Result<seq<Slide>>)
    ensures var n := NormalizedAll(configs);
            && (n.Err? ==> r == Err(n.error))
            && (n.Ok? ==> r == Slides(n.value, hook, workDir, assetsDir, assets))
  {
    var normalized := Normalize(configs);
    if normalized.Err? {
      return Err(normalized.error);
    }
    r := GenerateSlides(hook, normalized.value, workDir, assetsDir, assets);
  }

  // ---------------------------------------------------------------------
  // The screen-time slideshow (`generate_stat_slideshow`)
  // ---------------------------------------------------------------------

  datatype Scenario = Scenario(dailyHours: real, lifeExpectancy: real, age: real, persona: string, hook: string)

  /** The figures the slides state. */
  datatype Stats = Stats(yearlyHours: real, yearlyDays: int, remainingYears: real, lifetimeHours: real)

  function StatsOf(s: Scenario): (r: Stats)
    ensures r.yearlyHours == s.dailyHours * 365.0
    ensures r.remainingYears == s.lifeExpectancy - s.age
    ensures r.lifetimeHours == r.yearlyHours * r.remainingYears
    ensures r.yearlyHours / 24.0 - 0.5 <= r.yearlyDays as real <= r.yearlyHours / 24.0 + 0.5
  {
    var yearly := s.dailyHours * 365.0;
    var remaining := s.lifeExpectancy - s.age;
    Stats(yearly, RoundHalfEven(yearly / 24.0), remaining, yearly * remaining)
  }

  const BasePrompt :=
    "Clean modern infographic card, dark purple gradient background, "
    + "large centered white bold sans-serif text, minimalist, no clutter, "
    + "subtle sparkle particles, elegant. Portrait 1024x1536. "

  /** The six slide texts; `number` renders a figure, `grouped` one with
    * thousands separators, and `tenth` rounds to one decimal and renders. */
  function StatTexts(s: Scenario, number: real -> string, grouped: real -> string,
                     tenth: real -> string): (r: seq<string>)
    ensures |r| == 6 && r[0] == s.hook
    ensures r[1] == "The average " + s.persona + " spends\n" + number(s.dailyHours) + " hours a day on their phone"
    ensures r[2] == "That's " + grouped(StatsOf(s).yearlyHours) + " hours per year\nor " + IntToString(StatsOf(s).yearlyDays) + " full days"
    ensures r[3] == "Over your lifetime?\nThat's " + tenth(StatsOf(s).lifetimeHours / 8760.0) + " years\njust on your phone"
    ensures r[4] == "What if you spent just\n3 minutes of that\nmanifesting your goals?"
    ensures r[5] == "Manifest Lock\nEarn your screen time.\nLink in bio"
  {
    var st := StatsOf(s);
    [ s.hook,
      "The average " + s.persona + " spends\n" + number(s.dailyHours) + " hours a day on their phone",
      "That's " + grouped(st.yearlyHours) + " hours per year\nor " + IntToString(st.yearlyDays) + " full days",
      "Over your lifetime?\nThat's " + tenth(st.lifetimeHours / 8760.0) + " years\njust on your phone",
      "What if you spent just\n3 minutes of that\nmanifesting your goals?",
      "Manifest Lock\nEarn your screen time.\nLink in bio" ]
  }

  function StatConfig(text: string): SlideConfig
  {
    SlideConfig(Some("generate"), None, Some(BasePrompt + "Text reads: '" + text + "'"), None)
  }

  /** `generate_stat_slideshow` */
  function StatSlides(s: Scenario, number: real -> string, grouped: real -> string, tenth: real -> string,
                      workDir: string): Result<seq<Slide>>
  {
    var texts := StatTexts(s, number, grouped, tenth);
    Slides(seq(6, i requires 0 <= i < 6 => StatConfig(texts[i])), s.hook, workDir, "", {})
  }

  /** The screen-time slideshow always succeeds with six generated slides;
    * each prompt quotes its text; only the first slide is overlaid, with
    * the hook, and only when the hook is not empty. */
  lemma StatSlidesShape(s: Scenario, number: real -> string, grouped: real -> string, tenth: real -> string,
                        workDir: string)
    ensures var r := StatSlides(s, number, grouped, tenth, workDir);
            var texts := StatTexts(s, number, grouped, tenth);
            && r.Ok? && |r.value| == 6
            && (forall i :: 0 <= i < 6 ==>
                  r.value[i].source == Generated(BasePrompt + "Text reads: '" + texts[i] + "'"))
            && (r.value[0].overlay.Some? <==> s.hook != "")
            && (forall i :: 1 <= i < 6 ==> r.value[i].overlay.None?)
  {
    var texts := StatTexts(s, number, grouped, tenth);
    var configs := seq(6, i requires 0 <= i < 6 => StatConfig(texts[i]));
    SlidesShape(configs, s.hook, workDir, "", {});
  }
}
