/** The visual stage (src/agents/visual_agent.py): one image prompt per
    sentence of the script, one generated image per prompt saved under a
    path numbered by its position, accepted only when every image is on disk
    and decodes. */
module Visual {
  import opened Wrappers
  import opened PyStr
  import opened BaseAgent
  import opened Stages
  import opened SentenceSplit

  const Name: string := "visual_agent"

  /** `config["agents"]["visual"]` */
  datatype VisualConfig = VisualConfig(provider: string, style: string, imageQuality: string)

  /** The arguments of `openai.Image.acreate`. */
  datatype ImageRequest = ImageRequest(model: string, prompt: string, size: string, quality: string, n: nat)

  /** Generate one image, download it, decode it and save it at the given
      path; or the error any of those steps raises. */
  type ImageService = (ImageRequest, string) -> Result<(), Exc>

  function NewAgent(config: VisualConfig): AgentBase<VisualConfig> {
    AgentBase(Name, config)
  }

  // ---------------------------------------------------------------------
  // Prompts

  /** The prompt for one sentence. */
  function ImagePrompt(style: string, sentence: string, config: VisualConfig): (p: string)
    ensures IsInfix(sentence, p)
  {
    var parts := ["\n            Create a ", style, " image that illustrates: ", sentence,
                  "\n            Style: ", config.style, "\n            Quality: ", config.imageQuality,
                  "\n            Make it visually appealing and historically accurate.\n            "];
    ConcatHasParts(parts, 3);
    Concat(parts)
  }

  /** `_generate_image_prompts`: one prompt per sentence, in order, each
      illustrating its sentence. */
  function ImagePrompts(script: string, style: string, config: VisualConfig): (ps: seq<string>)
    ensures |ps| == |Sentences(script)|
    ensures forall i :: 0 <= i < |ps| ==> ps[i] == ImagePrompt(style, Sentences(script)[i], config)
    ensures forall i :: 0 <= i < |ps| ==> IsInfix(Sentences(script)[i], ps[i])
  {
    var ss := Sentences(script);
    seq(|ss|, i requires 0 <= i < |ss| => ImagePrompt(style, ss[i], config))
  }

  // ---------------------------------------------------------------------
  // Sizes

  /** `size_map` of `_get_image_size`. */
  const SizeTable: map<string, string> :=
    map["1:1" := "1024x1024", "16:9" := "1024x576", "9:16" := "576x1024",
        "4:3" := "1024x768", "3:4" := "768x1024"]

  const DefaultSize: string := "1024x1024"

  /** `_get_image_size`: the table's size for a known ratio, square otherwise. */
  function ImageSize(aspectRatio: string): (size: string)
    ensures aspectRatio in SizeTable ==> size == SizeTable[aspectRatio]
    ensures aspectRatio !in SizeTable ==> size == DefaultSize
  {
    if aspectRatio in SizeTable then SizeTable[aspectRatio] else DefaultSize
  }

  /** The two numbers of `"AxB"`-shaped text around separator `sep`. */
  function Dimensions(text: string, sep: char): (nat, nat) {
    var fields := SplitOn(text, sep);
    if |fields| == 2 then (ParseNat(fields[0]), ParseNat(fields[1])) else (0, 0)
  }

  lemma DimensionsOf(a: string, sep: char, b: string)
    requires sep !in a && sep !in b
    ensures Dimensions(a + [sep] + b, sep) == (ParseNat(a), ParseNat(b))
  {
    SplitOnFirst(a, sep, b);
    SplitOnNoSep(b, sep);
  }

  /** Width and height of `size` are in the proportion `a:b` of `ratio`. */
  predicate SameProportion(ratio: string, size: string) {
    var (w, h) := Dimensions(size, 'x');
    var (a, b) := Dimensions(ratio, ':');
    w * b == h * a
  }

  /** The numbers written in the table. */
  lemma TableNumbers()
    ensures ParseNat("1") == 1 && ParseNat("3") == 3 && ParseNat("4") == 4 && ParseNat("9") == 9
    ensures ParseNat("16") == 16
    ensures ParseNat("576") == 576 && ParseNat("768") == 768 && ParseNat("1024") == 1024
  {
    assert "16"[..1] == "1";
    assert "576"[..2] == "57" && "57"[..1] == "5";
    assert "768"[..2] == "76" && "76"[..1] == "7";
    assert "1024"[..3] == "102" && "102"[..2] == "10" && "10"[..1] == "1";
  }

  lemma SquareKeepsRatio()
    ensures SameProportion("1:1", "1024x1024")
  {
    assert "1:1" == "1" + [':'] + "1";
    assert "1024x1024" == "1024" + ['x'] + "1024";
    DimensionsOf("1", ':', "1");
    DimensionsOf("1024", 'x', "1024");
    TableNumbers();
    assert Dimensions("1:1", ':') == (1, 1);
    assert Dimensions("1024x1024", 'x') == (1024, 1024);
  }

  lemma WideKeepsRatio()
    ensures SameProportion("16:9", "1024x576")
  {
    assert "16:9" == "16" + [':'] + "9";
    assert "1024x576" == "1024" + ['x'] + "576";
    DimensionsOf("16", ':', "9");
    DimensionsOf("1024", 'x', "576");
    TableNumbers();
    assert Dimensions("16:9", ':') == (16, 9);
    assert Dimensions("1024x576", 'x') == (1024, 576);
  }

  lemma TallKeepsRatio()
    ensures SameProportion("9:16", "576x1024")
  {
    assert "9:16" == "9" + [':'] + "16";
    assert "576x1024" == "576" + ['x'] + "1024";
    DimensionsOf("9", ':', "16");
    DimensionsOf("576", 'x', "1024");
    TableNumbers();
    assert Dimensions("9:16", ':') == (9, 16);
    assert Dimensions("576x1024", 'x') == (576, 1024);
  }

  lemma LandscapeKeepsRatio()
    ensures SameProportion("4:3", "1024x768")
  {
    assert "4:3" == "4" + [':'] + "3";
    assert "1024x768" == "1024" + ['x'] + "768";
    DimensionsOf("4", ':', "3");
    DimensionsOf("1024", 'x', "768");
    TableNumbers();
    assert Dimensions("4:3", ':') == (4, 3);
    assert Dimensions("1024x768", 'x') == (1024, 768);
  }

  lemma PortraitKeepsRatio()
    ensures SameProportion("3:4", "768x1024")
  {
    assert "3:4" == "3" + [':'] + "4";
    assert "768x1024" == "768" + ['x'] + "1024";
    DimensionsOf("3", ':', "4");
    DimensionsOf("768", 'x', "1024");
    TableNumbers();
    assert Dimensions("3:4", ':') == (3, 4);
    assert Dimensions("768x1024", 'x') == (768, 1024);
  }

  /** Every size in the table has exactly the proportions of its ratio:
      width * ratio height == height * ratio width. */
  lemma ImageSizeKeepsRatio(aspectRatio: string)
    requires aspectRatio in SizeTable
    ensures SameProportion(aspectRatio, ImageSize(aspectRatio))
  {
    if aspectRatio == "1:1" {
      assert ImageSize(aspectRatio) == "1024x1024";
      SquareKeepsRatio();
    } else if aspectRatio == "16:9" {
      assert ImageSize(aspectRatio) == "1024x576";
      WideKeepsRatio();
    } else if aspectRatio == "9:16" {
      assert ImageSize(aspectRatio) == "576x1024";
      TallKeepsRatio();
    } else if aspectRatio == "4:3" {
      assert ImageSize(aspectRatio) == "1024x768";
      LandscapeKeepsRatio();
    } else {
      assert aspectRatio == "3:4";
      assert ImageSize(aspectRatio) == "768x1024";
      PortraitKeepsRatio();
    }
  }

  // ---------------------------------------------------------------------
  // Images

  /** The file `_generate_image` saves image number `index` under. */
  function ImagePath(platform: string, index: nat): string {
    "output/images/" + platform + "_image_" + NatToString(index) + ".png"
  }

  /** Different positions never share a file. */
  lemma ImagePathsDistinct(platform: string, i: nat, j: nat)
    requires i != j
    ensures ImagePath(platform, i) != ImagePath(platform, j)
  {
    if ImagePath(platform, i) == ImagePath(platform, j) {
      var head := "output/images/" + platform + "_image_";
      var di, dj := NatToString(i), NatToString(j);
      assert head + di + ".png" == head + dj + ".png";
      assert |di| == |dj|;
      assert di == (head + di + ".png")[|head|..|head| + |di|];
      assert dj == (head + dj + ".png")[|head|..|head| + |dj|];
      NatToStringInjective(i, j);
    }
  }

  function Request(prompt: string, size: string): ImageRequest {
    ImageRequest("dall-e-3", prompt, size, "standard", 1)
  }

  /** The generation loop of `process` from prompt number `first` on: the
      images are made in prompt order and the first failure is raised. */
  function GenerateImages(service: ImageService, platform: string, size: string,
                          prompts: seq<string>, first: nat): (r: Result<seq<string>, Exc>)
    ensures r.Success? <==>
      forall i :: 0 <= i < |prompts| ==> service(Request(prompts[i], size), ImagePath(platform, first + i)).Success?
    ensures r.Success? ==> |r.value| == |prompts|
    ensures r.Success? ==> forall i :: 0 <= i < |prompts| ==> r.value[i] == ImagePath(platform, first + i)
    decreases |prompts|
  {
    if |prompts| == 0 then Success([])
    else
      match service(Request(prompts[0], size), ImagePath(platform, first))
      case Failure(e) => Failure(e)
      case Success(_) =>
        match GenerateImages(service, platform, size, prompts[1..], first + 1)
        case Failure(e) =>
          assert exists i :: (0 <= i < |prompts[1..]| &&
            !service(Request(prompts[1..][i], size), ImagePath(platform, first + 1 + i)).Success?);
          Failure(e)
        case Success(rest) => Success([ImagePath(platform, first)] + rest)
  }

  // ---------------------------------------------------------------------
  // process, validate_output, run

  function VisualMetadata(config: VisualConfig, input: VisualInput): Metadata {
    map["platform" := Text(input.platform), "style" := Text(input.style),
        "aspect_ratio" := Text(input.aspectRatio), "provider" := Text(config.provider)]
  }

  /** Every image call of `process` succeeds: image i is asked for with
      prompt i at the size of the aspect ratio and saved as image i. */
  predicate AllImagesMade(config: VisualConfig, service: ImageService, input: VisualInput) {
    var prompts := ImagePrompts(input.script, input.style, config);
    forall i :: 0 <= i < |prompts| ==>
      service(Request(prompts[i], ImageSize(input.aspectRatio)), ImagePath(input.platform, i)).Success?
  }

  /** `VisualAgent.process`: one image per sentence of the script, image
      number i made from prompt i and saved as
      `output/images/{platform}_image_{i}.png`; the first failing image call
      raises. */
  function Process(config: VisualConfig, service: ImageService, input: VisualInput): (r: Result<VisualOutput, Exc>)
    ensures r.Success? <==> AllImagesMade(config, service, input)
    ensures r.Success? ==> r.value.imagePaths.Some? && r.value.metadata == Some(VisualMetadata(config, input))
    ensures r.Success? ==>
      var paths := r.value.imagePaths.value;
      && |paths| == |Sentences(input.script)|
      && forall i :: 0 <= i < |paths| ==> paths[i] == ImagePath(input.platform, i)
  {
    var prompts := ImagePrompts(input.script, input.style, config);
    match GenerateImages(service, input.platform, ImageSize(input.aspectRatio), prompts, 0)
    case Failure(e) => Failure(e)
    case Success(paths) => Success(VisualOutput(Some(paths), Some(VisualMetadata(config, input))))
  }

  /** `VisualAgent.validate_output`. */
  function Validate(fs: FileSystem, o: VisualOutput): (ok: bool)
    ensures o.imagePaths.None? || o.metadata.None? ==> !ok
    ensures o.imagePaths == Some([]) ==> !ok
    ensures (&& o.imagePaths.Some?
             && exists i :: 0 <= i < |o.imagePaths.value| && !Usable(fs, o.imagePaths.value[i])) ==> !ok
    ensures (&& o.imagePaths.Some? && o.metadata.Some? && |o.imagePaths.value| > 0
             && forall i :: 0 <= i < |o.imagePaths.value| ==> Usable(fs, o.imagePaths.value[i])) ==> ok
  {
    if !(o.imagePaths.Some? && o.metadata.Some?) then false
    else if |o.imagePaths.value| == 0 then false
    else AllImagesUsable(fs, o.imagePaths.value)
  }

  /** The file exists and `Image.open` accepts it. */
  predicate Usable(fs: FileSystem, path: string) {
    fs.fileExists(path) && fs.opensAsImage(path)
  }

  /** The loop of `validate_output`: every path exists and decodes. */
  function AllImagesUsable(fs: FileSystem, paths: seq<string>): (ok: bool)
    ensures ok <==> forall i :: 0 <= i < |paths| ==> Usable(fs, paths[i])
    decreases |paths|
  {
    if |paths| == 0 then true
    else if !fs.fileExists(paths[0]) then false
    else if !fs.opensAsImage(paths[0]) then false
    else
      var rest := AllImagesUsable(fs, paths[1..]);
      assert rest <==> forall i :: 1 <= i < |paths| ==> Usable(fs, paths[i]) by {
        assert forall i :: 1 <= i < |paths| ==> paths[i] == paths[1..][i - 1];
      }
      rest
  }

  /** `VisualAgent.run`: a value comes back exactly when the script has at
      least one sentence, every image was generated, and every saved image
      exists and decodes. */
  function Run(config: VisualConfig, service: ImageService, fs: FileSystem, input: VisualInput): (r: Option<VisualOutput>)
    ensures r.Some? <==>
      && Sentences(input.script) != []
      && AllImagesMade(config, service, input)
      && forall i :: 0 <= i < |Sentences(input.script)| ==> Usable(fs, ImagePath(input.platform, i))
    ensures Sentences(input.script) == [] ==> r.None?
    ensures r.Some? ==> r.value.imagePaths.Some?
    ensures r.Some? ==>
      var paths := r.value.imagePaths.value;
      && 0 < |paths| == |Sentences(input.script)|
      && (forall i :: 0 <= i < |paths| ==> paths[i] == ImagePath(input.platform, i))
      && (forall i :: 0 <= i < |paths| ==> Usable(fs, paths[i]))
    ensures r.Some? ==> r.value.metadata == Some(VisualMetadata(config, input))
  {
    var processed := Process(config, service, input);
    var r := RunChecked(processed, (o: VisualOutput) => Validate(fs, o));
    assert r.Some? ==> r.value == processed.value && Validate(fs, processed.value);
    r
  }
}
