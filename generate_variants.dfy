/** The persona variant generator: the video prompt built from a persona's
  * template, a scene and an outfit; the choice of scene; the expansion of
  * the clip-type option; the names of downloaded clips; and the numbering
  * of clips added to the asset pool. Uploading, the video service, the
  * download and ffmpeg are parameters or left out; the random scene choice
  * is an index parameter. */
module GenerateVariants {
  import opened Common

  datatype Persona = Sanya | Sophie

  function PersonaName(p: Persona): string
  {
    match p
    case Sanya => "sanya"
    case Sophie => "sophie"
  }

  /** A persona's prompt template; the subject sentence is split around its
    * `{outfit}` placeholder. */
  datatype Template = Template(subjectBefore: string, subjectAfter: string, defaultOutfit: string,
                               actionHook: string, actionReaction: string,
                               cinematography: string, audio: string)

  const SubjectAfter := ", natural makeup highlighting her freckles; nude colored nails with two rings on "
                        + "her right hand (one thick, one thin and delicate)."

  /** `PROMPT_TEMPLATES[persona]` */
  function TemplateOf(p: Persona): Template
  {
    match p
    case Sanya => Template(
      "Woman with long wavy brown hair, wearing ", SubjectAfter,
      "a red crewneck sweatshirt",
      "The woman immediately has her hand covering her mouth with wide surprised eyes and a gentle smile, "
      + "eyes crinkling with amusement; she holds this pose, barely moving; camera holds perfectly steady "
      + "with very subtle zoom in. The key expression happens in the first 2 seconds.",
      "The woman is already smiling warmly looking directly into the camera, slight head tilt, relaxed and "
      + "happy; she holds this natural smile pose; camera holds steady. The key expression is visible from "
      + "the very first frame.",
      "Soft natural lighting balanced to avoid harsh contrasts; warm and inviting emotional tone conveying "
      + "shyness and genuine amusement; natural color palette.",
      "No dialogue. No music. Ambient room tone only.")
    case Sophie => Template(
      "Young woman with wavy brown hair, wearing ", SubjectAfter,
      "a sleeveless floral dress with a pattern of small red, blue, and orange flowers and green leaves",
      "The woman already has her hand covering her mouth with wide eyes showing amused surprise; she holds "
      + "this pose barely moving; camera holds perfectly steady with very subtle zoom in. The key expression "
      + "happens in the first 2 seconds.",
      "The woman is already looking directly into the camera with a playful tongue-out expression, tongue "
      + "pointing downward toward her chin, eyes bright and mischievous; she holds this pose; camera holds "
      + "steady. The key expression is visible from the very first frame.",
      "Soft natural lighting balanced to avoid harsh contrasts; warm and inviting emotional tone conveying "
      + "playfulness; natural color palette emphasizing greens and earth tones.",
      "No dialogue. No music. Ambient natural outdoor sounds only.")
  }

  /** The scene presets. */
  datatype Scene = CozyRoom | Bedroom | Cafe | Library | Park | Beach | Rooftop | Garden | Campus

  /** A preset's key in `SCENE_PRESETS`. */
  function SceneKey(s: Scene): string
  {
    match s
    case CozyRoom => "cozy-room"
    case Bedroom => "bedroom"
    case Cafe => "cafe"
    case Library => "library"
    case Park => "park"
    case Beach => "beach"
    case Rooftop => "rooftop"
    case Garden => "garden"
    case Campus => "campus"
  }

  /** The preset a key names, if any. */
  function SceneOf(key: string): (r: Option<Scene>)
    ensures r.Some? ==> SceneKey(r.value) == key
  {
    if key == "cozy-room" then Some(CozyRoom)
    else if key == "bedroom" then Some(Bedroom)
    else if key == "cafe" then Some(Cafe)
    else if key == "library" then Some(Library)
    else if key == "park" then Some(Park)
    else if key == "beach" then Some(Beach)
    else if key == "rooftop" then Some(Rooftop)
    else if key == "garden" then Some(Garden)
    else if key == "campus" then Some(Campus)
    else None
  }

  /** Every preset is found under its own key, so the keys are distinct. */
  lemma SceneKeysRead(s: Scene)
    ensures SceneOf(SceneKey(s)) == Some(s)
  {
  }

  /** `SCENE_PRESETS[key]`: the preset's description. */
  function SceneText(s: Scene): string
  {
    match s
    case CozyRoom =>
      "Cozy living room with warm ambient lighting from a bedside lamp, soft beige couch visible in "
      + "background, wooden bookshelf with books, warm yellow-orange tones throughout the space; "
      + "evening atmosphere."
    case Bedroom =>
      "Minimalist bedroom with soft morning light streaming through sheer curtains, white bedding "
      + "visible in background, small potted plant on nightstand; calm and peaceful morning atmosphere."
    case Cafe =>
      "Cozy corner of a quiet coffee shop, warm overhead pendant light, exposed brick wall in background, "
      + "steaming cup on a small wooden table just out of frame; soft indoor afternoon light."
    case Library =>
      "Quiet library nook with tall wooden bookshelves filled with books, soft warm reading light, "
      + "leather armchair arm visible at edge of frame; peaceful studious atmosphere."
    case Park =>
      "Outdoor park setting with lush green grass and leafy trees in bright daylight; late morning or "
      + "early afternoon with soft, natural sunlight casting gentle shadows."
    case Beach =>
      "Sandy beach at golden hour, gentle waves in the far background, warm sunset light casting a "
      + "golden glow; relaxed coastal atmosphere with soft ocean breeze."
    case Rooftop =>
      "Urban rooftop terrace at golden hour, city skyline softly blurred in background, string lights "
      + "overhead, concrete railing; warm evening urban atmosphere."
    case Garden =>
      "Lush home garden with flowering bushes and a stone pathway, dappled sunlight through tree "
      + "canopy, birds audible; peaceful suburban afternoon."
    case Campus =>
      "University campus quad with green lawns and old brick buildings in background, students "
      + "blurred in far distance, bright midday sun; youthful energetic atmosphere."
  }

  datatype ClipType = Hook | Reaction

  function ClipName(c: ClipType): string
  {
    match c
    case Hook => "hook"
    case Reaction => "reaction"
  }

  // ---------------------------------------------------------------------
  // The prompt (`build_prompt`)
  // ---------------------------------------------------------------------

  /** The fixed paragraphs around the varying ones. */
  datatype Frame = Frame(opening: string, sceneHead: string, actionHead: string, cinematographyHead: string,
                         audioHead: string, closing: string)

  const PromptFrame := Frame(
    "No subtitles. No music.\n\nSHOT \U{2014} Medium close-up, centered on the woman's face and upper body."
    + "\n\nSUBJECT \U{2014} ",
    "\n\nSCENE \U{2014} ",
    "\n\nACTION AND CAMERA MOTION \U{2014} ",
    "\n\nCINEMATOGRAPHY \U{2014} ",
    "\n\nAUDIO \U{2014} ",
    "\n\nSTYLE \U{2014} Naturalistic aesthetic with sharp 4K clarity, vibrant colors; no text overlays, "
    + "subtitles, or captioning.")

  /** The prompt's paragraphs in order. */
  function Assemble(f: Frame, subject: string, scene: string, action: string, cinematography: string,
                    audio: string): string
  {
    f.opening + subject + f.sceneHead + scene + f.actionHead + action + f.cinematographyHead + cinematography
    + f.audioHead + audio + f.closing
  }

  /** The prompt holds its subject, its scene and its action paragraph. */
  lemma AssembleHolds(f: Frame, subject: string, scene: string, action: string, cinematography: string,
                      audio: string)
    ensures var p := Assemble(f, subject, scene, action, cinematography, audio);
            Contains(p, subject) && Contains(p, scene) && Contains(p, action)
  {
    var p := Assemble(f, subject, scene, action, cinematography, audio);
    var i := |f.opening|;
    assert p[i..i + |subject|] == subject;
    ContainsAt(p, subject, i);
    var j := i + |subject| + |f.sceneHead|;
    assert p[j..j + |scene|] == scene;
    ContainsAt(p, scene, j);
    var k := j + |scene| + |f.actionHead|;
    assert p[k..k + |action|] == action;
    ContainsAt(p, action, k);
  }

  /** `outfit or template["default_outfit"]` */
  function OutfitOf(t: Template, outfit: Option<string>): string
  {
    if outfit.Some? && outfit.value != "" then outfit.value else t.defaultOutfit
  }

  function ActionOf(t: Template, clip: ClipType): string
  {
    if clip == Hook then t.actionHook else t.actionReaction
  }

  /** The prompt from a template: the subject with the outfit in place, the
    * scene, and the action for the clip type. */
  function PromptFor(t: Template, sceneText: string, outfit: Option<string>, clip: ClipType): string
  {
    Assemble(PromptFrame, t.subjectBefore + OutfitOf(t, outfit) + t.subjectAfter, sceneText,
             ActionOf(t, clip), t.cinematography, t.audio)
  }

  /** `build_prompt`; an unknown scene key raises. */
  function BuildPrompt(persona: Persona, scene: string, outfit: Option<string>, clip: ClipType): (r: Result<string>)
    ensures r.Ok? <==> SceneOf(scene).Some?
    ensures r.Err? ==> r.error == "KeyError: " + scene
  {
    match SceneOf(scene)
    case None => Err("KeyError: " + scene)
    case Some(s) => Ok(PromptFor(TemplateOf(persona), SceneText(s), outfit, clip))
  }

  /** A prompt names the outfit given, or the template's own outfit when
    * none is given; it describes the scene; and its action is the hook
    * action for a hook clip and the reaction action otherwise. */
  lemma PromptForContents(t: Template, sceneText: string, outfit: Option<string>, clip: ClipType)
    ensures var p := PromptFor(t, sceneText, outfit, clip);
            && (outfit.Some? && outfit.value != "" ==> Contains(p, outfit.value))
            && (outfit.None? || outfit.value == "" ==> Contains(p, t.defaultOutfit))
            && Contains(p, sceneText)
            && Contains(p, if clip == Hook then t.actionHook else t.actionReaction)
  {
    var o := OutfitOf(t, outfit);
    var subject := t.subjectBefore + o + t.subjectAfter;
    AssembleHolds(PromptFrame, subject, sceneText, ActionOf(t, clip), t.cinematography, t.audio);
    assert subject[|t.subjectBefore|..|t.subjectBefore| + |o|] == o;
    ContainsAt(subject, o, |t.subjectBefore|);
    ContainsWithin(PromptFor(t, sceneText, outfit, clip), subject, o);
  }

  /** What a text holds, a text holding that text holds too. */
  lemma {:induction false} ContainsWithin(s: string, mid: string, sub: string)
    requires Contains(s, mid) && Contains(mid, sub)
    ensures Contains(s, sub)
  {
    if StartsWith(s, mid) {
      ContainsPrefix(s, mid, sub);
    } else {
      ContainsWithin(s[1..], mid, sub);
    }
  }

  lemma {:induction false} ContainsPrefix(s: string, mid: string, sub: string)
    requires StartsWith(s, mid) && Contains(mid, sub)
    ensures Contains(s, sub)
  {
    if StartsWith(mid, sub) {
      assert s[..|sub|] == mid[..|sub|];
    } else {
      ContainsPrefix(s[1..], mid[1..], sub);
    }
  }

  // ---------------------------------------------------------------------
  // Choosing the scene and the clips (`main`)
  // ---------------------------------------------------------------------

  const Indoor: seq<Scene> := [CozyRoom, Bedroom, Cafe, Library]
  const Outdoor: seq<Scene> := [Park, Beach, Rooftop, Garden, Campus]

  /** The scenes a persona draws from when none is named. */
  function ScenePool(persona: Persona): (r: seq<Scene>)
    ensures r != []
  {
    if persona == Sanya then Indoor + [Park] else Outdoor + [Cafe]
  }

  /** The scene: the one named, which must be a preset, or else one drawn
    * from the persona's pool (`pick` stands for the random draw). */
  function SelectScene(persona: Persona, scene: Option<string>, pick: nat): (r: Result<Scene>)
    ensures scene.Some? && scene.value != "" ==>
              (r.Ok? <==> SceneOf(scene.value).Some?) && (r.Ok? ==> SceneKey(r.value) == scene.value)
    ensures scene.None? || scene.value == "" ==> r.Ok? && r.value in ScenePool(persona)
  {
    if scene.Some? && scene.value != "" then
      match SceneOf(scene.value)
      case None => Err("ERROR: Unknown scene '" + scene.value + "'. Use --list-scenes to see options.")
      case Some(s) => Ok(s)
    else
      var pool := ScenePool(persona);
      Ok(pool[pick % |pool|])
  }

  /** Sanya's draws are the indoor scenes and the park, Sophie's the
    * outdoor scenes and the cafe: an indoor scene other than the cafe is
    * only drawn for Sanya, an outdoor one other than the park only for
    * Sophie. */
  lemma ScenePools(persona: Persona, pick: nat)
    ensures var r := SelectScene(persona, None, pick).value;
            && (persona == Sanya ==> r in {CozyRoom, Bedroom, Cafe, Library, Park})
            && (persona == Sophie ==> r in {Park, Beach, Rooftop, Garden, Campus, Cafe})
            && (r in {CozyRoom, Bedroom, Library} ==> persona == Sanya)
            && (r in {Beach, Rooftop, Garden, Campus} ==> persona == Sophie)
  {
    var pool := ScenePool(persona);
    assert pool[pick % |pool|] in pool;
  }

  datatype ClipOption = One(clip: ClipType) | Both

  /** `["hook", "reaction"] if args.clip_type == "both" else [args.clip_type]` */
  function ClipTypes(option: ClipOption): (r: seq<ClipType>)
    ensures option.Both? <==> r == [Hook, Reaction]
    ensures option.One? ==> r == [option.clip]
    ensures |r| >= 1 && forall i, j :: 0 <= i < j < |r| ==> r[i] != r[j]
  {
    if option.Both? then [Hook, Reaction] else [option.clip]
  }

  /** The outfit in a file name: blanks become "-", cut to 20 characters;
    * "default" when no outfit is given. */
  function OutfitTag(outfit: Option<string>): (r: string)
    ensures ' ' !in r
    ensures 1 <= |r| <= 20
    ensures outfit.None? || outfit.value == "" ==> r == "default"
    ensures outfit.Some? && outfit.value != "" ==>
              |r| == (if |outfit.value| < 20 then |outfit.value| else 20)
              && forall i :: 0 <= i < |r| ==> r[i] == (if outfit.value[i] == ' ' then '-' else outfit.value[i])
  {
    if outfit.Some? && outfit.value != "" then Take(ReplaceChar(outfit.value, ' ', '-'), 20) else "default"
  }

  /** The name of a downloaded clip. */
  function ClipFileName(persona: Persona, clip: ClipType, scene: string, outfit: Option<string>,
                        timestamp: string): string
  {
    PersonaName(persona) + "_" + ClipName(clip) + "_" + scene + "_" + OutfitTag(outfit) + "_" + timestamp
  }

  // ---------------------------------------------------------------------
  // Pool numbering
  // ---------------------------------------------------------------------

  /** `f"{n:03d}"`: the decimal digits, padded with zeros to three. */
  function Pad3(n: nat): (r: string)
    ensures |r| >= 3 && AllDigits(r)
  {
    var d := NatToString(n);
    if |d| >= 3 then d else if |d| == 2 then "0" + d else "00" + d
  }

  lemma {:induction false} LeadingZero(s: string)
    requires AllDigits(s)
    ensures AllDigits("0" + s) && DigitsValue("0" + s) == DigitsValue(s)
    decreases |s|
  {
    var z := "0" + s;
    if s != [] {
      var init := s[..|s| - 1];
      assert z[..|z| - 1] == "0" + init;
      LeadingZero(init);
    } else {
      assert z[..0] == [];
    }
  }

  /** The padded number reads back as the number, so distinct numbers give
    * distinct names. */
  lemma Pad3Reads(n: nat)
    ensures ParseNat(Pad3(n)) == Some(n)
  {
    var d := NatToString(n);
    ParseNatToString(n);
    if |d| < 3 {
      LeadingZero(d);
      if |d| == 1 {
        LeadingZero("0" + d);
        assert "0" + ("0" + d) == "00" + d;
      }
    }
  }

  function PoolName(n: nat): string
  {
    Pad3(n) + ".mp4"
  }

  /** A pool whose clips are numbered 1 to `count` without gaps. */
  function NumberedPool(count: nat): (r: seq<string>)
    ensures |r| == count
  {
    seq(count, i requires 0 <= i < count => PoolName(i + 1))
  }

  /** Distinct numbers give distinct pool names. */
  lemma PoolNameDistinct(a: nat, b: nat)
    ensures PoolName(a) == PoolName(b) ==> a == b
  {
    Pad3Reads(a);
    Pad3Reads(b);
    assert Pad3(a) == PoolName(a)[..|PoolName(a)| - 4];
    assert Pad3(b) == PoolName(b)[..|PoolName(b)| - 4];
  }

  /** In a pool numbered without gaps, the next clip (the count plus one) is
    * a new name, and adding it keeps the pool numbered without gaps. */
  lemma NextPoolNameFresh(count: nat)
    ensures PoolName(count + 1) !in NumberedPool(count)
    ensures NumberedPool(count) + [PoolName(count + 1)] == NumberedPool(count + 1)
  {
    var pool := NumberedPool(count);
    forall i | 0 <= i < count
      ensures pool[i] != PoolName(count + 1)
    {
      PoolNameDistinct(i + 1, count + 1);
    }
    var next := NumberedPool(count + 1);
    forall k | 0 <= k < count + 1
      ensures (pool + [PoolName(count + 1)])[k] == next[k]
    {
      if k < count {
        assert pool[k] == PoolName(k + 1) == next[k];
      }
    }
    assert pool + [PoolName(count + 1)] == next;
  }

  // ---------------------------------------------------------------------
  // The run (`main`)
  // ---------------------------------------------------------------------

  datatype Args = Args(persona: Persona, scene: Option<string>, outfit: Option<string>, clipOption: ClipOption,
                       listScenes: bool, dryRun: bool, promptOnly: bool, noTrim: bool, autoApprove: bool)

  /** The services and files the run touches: the uploaded reference image
    * (`None` when the persona has none), the video address the service
    * returns for a prompt, the clock's timestamp at the download of the
    * n-th clip, whether ffmpeg wrote the trimmed file, and the number of
    * clips already in each pool folder. */
  datatype World = World(referenceImage: Option<string>, videoUrl: string -> string, stamp: nat -> string,
                         trimWorks: bool, poolCount: ClipType -> nat)

  datatype Clip = Clip(clip: ClipType, path: string)

  datatype Outcome =
    | ScenesListed
    | Exited(message: string)
    | PromptsShown(prompts: seq<string>)
    | Generated(files: seq<Clip>, added: seq<nat>)

  const NoReferenceImage := "ERROR: No reference image found"
  const NoVideoUrl := "ERROR: No video URL returned from Replicate"

  /** The file kept for a clip: the trimmed copy when ffmpeg wrote it and
    * trimming is on, the download otherwise. */
  function KeptPath(outputDir: string, persona: Persona, name: string, noTrim: bool, trimWorks: bool): string
  {
    var dir := PathJoin(outputDir, PersonaName(persona));
    if !noTrim && trimWorks then PathJoin(dir, name + "_trimmed.mp4") else PathJoin(dir, name + ".mp4")
  }

  /** The two tables of texts a prompt is made from: a template per
    * persona and a description per scene preset. */
  datatype Presets = Presets(templates: Persona -> Template, scenes: Scene -> string)

  /** `PROMPT_TEMPLATES` and `SCENE_PRESETS`. */
  function SourcePresets(): Presets
  {
    Presets(TemplateOf, SceneText)
  }

  /** The prompt of a clip type for the run's persona, scene and outfit. */
  function PromptOf(presets: Presets, args: Args, scene: Scene, clip: ClipType): string
  {
    PromptFor(presets.templates(args.persona), presets.scenes(scene), args.outfit, clip)
  }

  /** With the source's tables it is what `build_prompt` gives for the
    * scene's key. */
  lemma PromptOfBuilds(args: Args, scene: Scene, clip: ClipType)
    ensures BuildPrompt(args.persona, SceneKey(scene), args.outfit, clip) == Ok(PromptOf(SourcePresets(), args, scene, clip))
  {
    SceneKeysRead(scene);
  }

  /** The file kept for the n-th clip of the run. */
  function ClipOf(args: Args, scene: Scene, clip: ClipType, n: nat, outputDir: string, world: World): Clip
  {
    Clip(clip, KeptPath(outputDir, args.persona,
                        ClipFileName(args.persona, clip, SceneKey(scene), args.outfit, world.stamp(n)),
                        args.noTrim, world.trimWorks))
  }

  /** `main`. */
  method Run(args: Args, pick: nat, outputDir: string, world: World) returns (outcome: Outcome)
    ensures args.listScenes ==> outcome == ScenesListed
    ensures !args.listScenes && SelectScene(args.persona, args.scene, pick).Err? ==>
              outcome == Exited(SelectScene(args.persona, args.scene, pick).error)
    ensures !args.listScenes && SelectScene(args.persona, args.scene, pick).Ok? ==>
              var scene := SelectScene(args.persona, args.scene, pick).value;
              var clips := ClipTypes(args.clipOption);
              && (args.dryRun || args.promptOnly <==> outcome.PromptsShown?)
              && (outcome.PromptsShown? ==>
                    && |outcome.prompts| == (if args.dryRun then |clips| else 1)
                    && forall k :: 0 <= k < |outcome.prompts| ==>
                         outcome.prompts[k] == PromptOf(SourcePresets(), args, scene, clips[k]))
              && (!args.dryRun && !args.promptOnly ==> outcome.Exited? || outcome.Generated?)
              && (!args.dryRun && !args.promptOnly && world.referenceImage.None? ==> outcome == Exited(NoReferenceImage))
              && (!args.dryRun && !args.promptOnly ==>
                    (outcome == Exited(NoVideoUrl) <==>
                       world.referenceImage.Some? && exists k :: 0 <= k < |clips| && world.videoUrl(PromptOf(SourcePresets(), args, scene, clips[k])) == "")
                    && (outcome.Generated? <==>
                       world.referenceImage.Some? && forall k :: 0 <= k < |clips| ==> world.videoUrl(PromptOf(SourcePresets(), args, scene, clips[k])) != ""))
              && (outcome.Generated? ==>
                    && |outcome.files| == |clips|
                    && (forall k :: 0 <= k < |clips| ==> outcome.files[k] == ClipOf(args, scene, clips[k], k, outputDir, world))
                    && (args.autoApprove ==>
                          |outcome.added| == |clips|
                          && forall k :: 0 <= k < |clips| ==> outcome.added[k] == world.poolCount(clips[k]) + 1)
                    && (!args.autoApprove ==> outcome.added == []))
  {
    if args.listScenes {
      return ScenesListed;
    }
    var selected := SelectScene(args.persona, args.scene, pick);
    if selected.Err? {
      return Exited(selected.error);
    }
    outcome := RunScene(args, SourcePresets(), selected.value, outputDir, world);
  }

  /** `main` once the scene is chosen: the prompts shown, or the clips made
    * and, on auto-approve, the numbers they take in their pools. */
  method RunScene(args: Args, presets: Presets, scene: Scene, outputDir: string, world: World)
    returns (outcome: Outcome)
    ensures var clips := ClipTypes(args.clipOption);
            && (args.dryRun || args.promptOnly <==> outcome.PromptsShown?)
            && (outcome.PromptsShown? ==>
                  && |outcome.prompts| == (if args.dryRun then |clips| else 1)
                  && forall k :: 0 <= k < |outcome.prompts| ==>
                       outcome.prompts[k] == PromptOf(presets, args, scene, clips[k]))
            && (!args.dryRun && !args.promptOnly ==> outcome.Exited? || outcome.Generated?)
            && (!args.dryRun && !args.promptOnly && world.referenceImage.None? ==> outcome == Exited(NoReferenceImage))
            && (!args.dryRun && !args.promptOnly ==>
                  (outcome == Exited(NoVideoUrl) <==>
                     world.referenceImage.Some? && exists k :: 0 <= k < |clips| && world.videoUrl(PromptOf(presets, args, scene, clips[k])) == "")
                  && (outcome.Generated? <==>
                     world.referenceImage.Some? && forall k :: 0 <= k < |clips| ==> world.videoUrl(PromptOf(presets, args, scene, clips[k])) != ""))
            && (outcome.Generated? ==>
                  && |outcome.files| == |clips|
                  && (forall k :: 0 <= k < |clips| ==> outcome.files[k] == ClipOf(args, scene, clips[k], k, outputDir, world))
                  && (args.autoApprove ==>
                        |outcome.added| == |clips|
                        && forall k :: 0 <= k < |clips| ==> outcome.added[k] == world.poolCount(clips[k]) + 1)
                  && (!args.autoApprove ==> outcome.added == []))
  {
    var clips := ClipTypes(args.clipOption);
    if args.promptOnly || args.dryRun {
      var shown := ShowPrompts(args, presets, scene, clips);
      return PromptsShown(shown);
    }
    outcome := MakeClips(args, presets, scene, clips, outputDir, world);
  }

  /** `main` when clips are made: the clips generated and, on auto-approve,
    * the numbers they take in their pools. */
  method MakeClips(args: Args, presets: Presets, scene: Scene, clips: seq<ClipType>, outputDir: string, world: World)
    returns (outcome: Outcome)
    requires clips == ClipTypes(args.clipOption)
    ensures outcome.Exited? || outcome.Generated?
    ensures world.referenceImage.None? ==> outcome == Exited(NoReferenceImage)
    ensures outcome == Exited(NoVideoUrl) <==>
              world.referenceImage.Some? && exists k :: 0 <= k < |clips| && world.videoUrl(PromptOf(presets, args, scene, clips[k])) == ""
    ensures outcome.Generated? <==>
              world.referenceImage.Some? && forall k :: 0 <= k < |clips| ==> world.videoUrl(PromptOf(presets, args, scene, clips[k])) != ""
    ensures outcome.Generated? ==>
              && |outcome.files| == |clips|
              && (forall k :: 0 <= k < |clips| ==> outcome.files[k] == ClipOf(args, scene, clips[k], k, outputDir, world))
              && (args.autoApprove ==>
                    |outcome.added| == |clips|
                    && forall k :: 0 <= k < |clips| ==> outcome.added[k] == world.poolCount(clips[k]) + 1)
              && (!args.autoApprove ==> outcome.added == [])
  {
    var keep := (c: ClipType, n: nat) => ClipOf(args, scene, c, n, outputDir, world);
    outcome := GenerateClips(c => PromptOf(presets, args, scene, c), keep, clips, world);
    if outcome.Generated? {
      var files := outcome.files;
      assert forall k :: 0 <= k < |files| ==> files[k] == ClipOf(args, scene, clips[k], k, outputDir, world);
      assert forall k :: 0 <= k < |files| ==> files[k].clip == clips[k];
      if args.autoApprove && files != [] {
        var added := AddToPool(files, world.poolCount);
        outcome := Generated(files, added);
      }
    }
  }

  /** The loop of `main` when prompts are only shown: every clip type's
    * prompt on a dry run, the first one only otherwise. */
  method ShowPrompts(args: Args, presets: Presets, scene: Scene, clips: seq<ClipType>) returns (shown: seq<string>)
    requires |clips| >= 1
    ensures |shown| == if args.dryRun then |clips| else 1
    ensures forall k :: 0 <= k < |shown| ==> shown[k] == PromptOf(presets, args, scene, clips[k])
  {
    shown := [];
    for i := 0 to |clips|
      invariant |shown| == i
      invariant forall k :: 0 <= k < i ==> shown[k] == PromptOf(presets, args, scene, clips[k])
      invariant i > 0 ==> args.dryRun
    {
      var prompt := PromptOf(presets, args, scene, clips[i]);
      shown := shown + [prompt];
      if !args.dryRun {
        return;
      }
    }
  }

  /** The loop of `main` when clips are made: for each clip type, upload
    * the reference image, generate the video from the type's prompt,
    * download it and trim it; a missing image or an empty video address
    * ends the run. `prompt` is `build_prompt` for the run's persona, scene
    * and outfit, taking the clip type; `keep` names the file kept for the
    * n-th clip of a type. */
  method GenerateClips(prompt: ClipType -> string, keep: (ClipType, nat) -> Clip, clips: seq<ClipType>, world: World)
    returns (outcome: Outcome)
    requires |clips| >= 1
    ensures world.referenceImage.None? ==> outcome == Exited(NoReferenceImage)
    ensures outcome.Exited? ==> outcome.message in {NoReferenceImage, NoVideoUrl}
    ensures outcome.Exited? || outcome.Generated?
    ensures outcome == Exited(NoVideoUrl) <==>
              world.referenceImage.Some? && exists k :: 0 <= k < |clips| && world.videoUrl(prompt(clips[k])) == ""
    ensures outcome.Generated? <==>
              world.referenceImage.Some? && forall k :: 0 <= k < |clips| ==> world.videoUrl(prompt(clips[k])) != ""
    ensures outcome.Generated? ==>
              && outcome.added == [] && |outcome.files| == |clips|
              && (forall k :: 0 <= k < |clips| ==> outcome.files[k] == keep(clips[k], k))
  {
    var files: seq<Clip> := [];
    for i := 0 to |clips|
      invariant |files| == i
      invariant forall k :: 0 <= k < i ==> files[k] == keep(clips[k], k)
      invariant forall k :: 0 <= k < i ==> world.videoUrl(prompt(clips[k])) != ""
      invariant i > 0 ==> world.referenceImage.Some?
    {
      var text := prompt(clips[i]);
      if world.referenceImage.None? {
        return Exited(NoReferenceImage);
      }
      var url := world.videoUrl(text);
      if url == "" {
        assert world.videoUrl(prompt(clips[i])) == "";
        return Exited(NoVideoUrl);
      }
      files := files + [keep(clips[i], i)];
    }
    return Generated(files, []);
  }

  /** The auto-approve loop: each clip is copied into its type's pool
    * folder under the next number (`PoolName`), the folder's count of clips
    * plus one, counting the clips copied so far. */
  method AddToPool(files: seq<Clip>, poolCount: ClipType -> nat) returns (added: seq<nat>)
    requires forall i, j :: 0 <= i < j < |files| ==> files[i].clip != files[j].clip
    ensures |added| == |files|
    ensures forall i :: 0 <= i < |files| ==> added[i] == poolCount(files[i].clip) + 1
  {
    var counts: ClipType -> nat := poolCount;
    added := [];
    for i := 0 to |files|
      invariant |added| == i
      invariant forall k :: i <= k < |files| ==> counts(files[k].clip) == poolCount(files[k].clip)
      invariant forall k :: 0 <= k < i ==> added[k] == poolCount(files[k].clip) + 1
    {
      var clip := files[i].clip;
      var next := counts(clip) + 1;
      added := added + [next];
      var before := counts;
      counts := c => if c == clip then next else before(c);
    }
  }
}
