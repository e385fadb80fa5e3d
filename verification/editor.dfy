/** The editing stage (src/agents/editor_agent.py): the images become
    equal-length clips that share the target duration, transitions are added
    according to the configured style, and the clips are rendered with the
    voice-over into one MP4. */
module Editor {
  import opened Wrappers
  import opened PyStr
  import opened BaseAgent
  import opened Stages

  const Name: string := "editor_agent"

  /** `config["agents"]["editor"]` */
  datatype EditorConfig = EditorConfig(videoQuality: string, audioQuality: string, transitionStyle: string)

  function NewAgent(config: EditorConfig): AgentBase<EditorConfig> {
    AgentBase(Name, config)
  }

  // ---------------------------------------------------------------------
  // Clips

  /** A clip effect and its length in seconds. */
  datatype Effect = CrossfadeIn(seconds: real) | FadeIn(seconds: real) | FadeOut(seconds: real)

  /** An `ImageClip`: the image it shows, how long, and the effects applied
      to it so far, in order. */
  datatype Clip = Clip(image: string, duration: real, effects: seq<Effect>)

  /** Sum of the clips' durations. */
  function TotalDuration(clips: seq<Clip>): real
    decreases |clips|
  {
    if |clips| == 0 then 0.0 else clips[0].duration + TotalDuration(clips[1..])
  }

  /** `_create_video_clips`: one clip per image, in order, each lasting an
      equal share of the total. With no images the share is a division by
      zero, which raises. */
  function CreateVideoClips(imagePaths: seq<string>, total: nat): (r: Result<seq<Clip>, Exc>)
    ensures r.Failure? <==> |imagePaths| == 0
    ensures r.Failure? ==> r.error == ZeroDivisionError
    ensures r.Success? ==> |r.value| == |imagePaths|
    ensures r.Success? ==> forall i :: 0 <= i < |r.value| ==>
              && r.value[i].image == imagePaths[i]
              && r.value[i].duration * (|imagePaths| as real) == total as real
              && r.value[i].effects == []
  {
    if |imagePaths| == 0 then Failure(ZeroDivisionError)
    else
      var share := total as real / |imagePaths| as real;
      Success(seq(|imagePaths|, i requires 0 <= i < |imagePaths| => Clip(imagePaths[i], share, [])))
  }

  /** Clips of one common length `d` last `|clips| * d` together. */
  lemma {:induction false} UniformTotal(clips: seq<Clip>, d: real)
    requires forall i :: 0 <= i < |clips| ==> clips[i].duration == d
    ensures TotalDuration(clips) == |clips| as real * d
    decreases |clips|
  {
    if |clips| > 0 {
      UniformTotal(clips[1..], d);
    }
  }

  /** The clips together last exactly the requested duration. */
  lemma ClipsShareTotal(imagePaths: seq<string>, total: nat)
    requires |imagePaths| > 0
    ensures TotalDuration(CreateVideoClips(imagePaths, total).value) == total as real
  {
    var clips := CreateVideoClips(imagePaths, total).value;
    var d := clips[0].duration;
    UniformTotal(clips, d);
  }

  // ---------------------------------------------------------------------
  // Transitions

  /** Seconds of every transition effect. */
  const TransitionLength: real := 0.5

  function AddEffects(c: Clip, es: seq<Effect>): Clip {
    c.(effects := c.effects + es)
  }

  /** `k` copies of `e`. */
  function Repeat(e: Effect, k: nat): (es: seq<Effect>)
    ensures |es| == k && forall i :: 0 <= i < k ==> es[i] == e
  {
    if k == 0 then [] else [e] + Repeat(e, k - 1)
  }

  /** Number of neighbours of position `j` among `n` clips: one crossfade is
      added for each. */
  function Neighbours(j: nat, n: nat): nat {
    (if j > 0 then 1 else 0) + (if j + 1 < n then 1 else 0)
  }

  /** What `_add_transitions` makes of each clip, position by position:
      with "smooth" a clip gains one half-second crossfade for each
      neighbour; with "fade" it gains a half-second fade in followed by a
      half-second fade out; any other style leaves it as it was. */
  function Transitions(clips: seq<Clip>, style: string): (r: seq<Clip>)
    ensures |r| == |clips|
    ensures forall j :: 0 <= j < |r| ==> r[j].image == clips[j].image && r[j].duration == clips[j].duration
  {
    seq(|clips|, j requires 0 <= j < |clips| =>
      if style == "smooth" then AddEffects(clips[j], Repeat(CrossfadeIn(TransitionLength), Neighbours(j, |clips|)))
      else if style == "fade" then AddEffects(clips[j], [FadeIn(TransitionLength), FadeOut(TransitionLength)])
      else clips[j])
  }

  /** Number of crossfades clip `j` has received once the "smooth" loop has
      run its iterations `0 .. i-1`. */
  function CrossfadesSoFar(j: nat, i: nat): nat {
    (if 0 < j <= i then 1 else 0) + (if j < i then 1 else 0)
  }

  /** `_add_transitions` as the source writes it: the "smooth" loop visits
      each adjacent pair and crossfades both of its clips; the "fade" loop
      fades each clip in and out. The result is position for position the
      one `Transitions` describes. */
  method AddTransitions(clips: seq<Clip>, style: string) returns (r: seq<Clip>)
    ensures r == Transitions(clips, style)
  {
    var cf := CrossfadeIn(TransitionLength);
    r := clips;
    if style == "smooth" {
      var n := |clips|;
      var last := if n > 0 then n - 1 else 0;
      var i := 0;
      while i < last
        invariant 0 <= i <= last
        invariant |r| == n
        invariant forall j :: 0 <= j < n ==> r[j] == AddEffects(clips[j], Repeat(cf, CrossfadesSoFar(j, i)))
      {
        r := r[i := AddEffects(r[i], [cf])];
        r := r[i + 1 := AddEffects(r[i + 1], [cf])];
        forall j | 0 <= j < n
          ensures r[j] == AddEffects(clips[j], Repeat(cf, CrossfadesSoFar(j, i + 1)))
        {
          if j == i || j == i + 1 {
            RepeatSnoc(cf, CrossfadesSoFar(j, i));
          }
        }
        i := i + 1;
      }
      forall j | 0 <= j < n
        ensures CrossfadesSoFar(j, i) == Neighbours(j, n)
      {
      }
    } else if style == "fade" {
      var i := 0;
      while i < |clips|
        invariant 0 <= i <= |clips|
        invariant |r| == |clips|
        invariant forall j :: 0 <= j < i ==> r[j] == AddEffects(clips[j], [FadeIn(TransitionLength), FadeOut(TransitionLength)])
        invariant forall j :: i <= j < |clips| ==> r[j] == clips[j]
      {
        r := r[i := AddEffects(AddEffects(r[i], [FadeIn(TransitionLength)]), [FadeOut(TransitionLength)])];
        assert [FadeIn(TransitionLength)] + [FadeOut(TransitionLength)] == [FadeIn(TransitionLength), FadeOut(TransitionLength)];
        i := i + 1;
      }
    }
  }

  /** One more effect appended is one more repetition. */
  lemma RepeatSnoc(e: Effect, k: nat)
    ensures Repeat(e, k) + [e] == Repeat(e, k + 1)
  {
  }

  /** The transitions change effects only: the video still lasts as long. */
  lemma TransitionsKeepDuration(clips: seq<Clip>, style: string)
    ensures TotalDuration(Transitions(clips, style)) == TotalDuration(clips)
  {
    SameDurations(Transitions(clips, style), clips);
  }

  lemma {:induction false} SameDurations(a: seq<Clip>, b: seq<Clip>)
    requires |a| == |b|
    requires forall j :: 0 <= j < |a| ==> a[j].duration == b[j].duration
    ensures TotalDuration(a) == TotalDuration(b)
    decreases |a|
  {
    if |a| > 0 {
      SameDurations(a[1..], b[1..]);
    }
  }

  // ---------------------------------------------------------------------
  // Rendering

  /** What `write_videofile` is asked to do: the clips, concatenated, with
      the voice-over as their audio, written to `outputPath`. */
  datatype RenderRequest = RenderRequest(
    clips: seq<Clip>,
    audioPath: string,
    outputPath: string,
    fps: nat,
    codec: string,
    audioCodec: string,
    preset: string)

  /** moviepy: loading the audio, concatenating and writing the file; or the
      error any of those raises. */
  type Renderer = RenderRequest -> Result<(), Exc>

  function VideoPath(platform: string): string {
    "output/videos/" + platform + "_final.mp4"
  }

  function Render(clips: seq<Clip>, audioPath: string, platform: string): RenderRequest {
    RenderRequest(clips, audioPath, VideoPath(platform), 30, "libx264", "aac", "medium")
  }

  function EditorMetadata(config: EditorConfig, input: EditorInput): Metadata {
    map["platform" := Text(input.platform), "duration" := Int(input.duration),
        "aspect_ratio" := Text(input.aspectRatio), "video_quality" := Text(config.videoQuality),
        "audio_quality" := Text(config.audioQuality), "transition_style" := Text(config.transitionStyle)]
  }

  /** The clips `process` hands to the renderer. */
  function FinalClips(config: EditorConfig, input: EditorInput): Result<seq<Clip>, Exc> {
    match CreateVideoClips(input.imagePaths, input.duration)
    case Failure(e) => Failure(e)
    case Success(clips) => Success(Transitions(clips, config.transitionStyle))
  }

  /** `EditorAgent.process`: no images raises; otherwise one render of the
      transitioned clips with the voice-over into `output/videos/{platform}_final.mp4`. */
  function Process(config: EditorConfig, render: Renderer, input: EditorInput): (r: Result<VideoOutput, Exc>)
    ensures input.imagePaths == [] ==> r == Failure(ZeroDivisionError)
    ensures r.Success? <==>
      && input.imagePaths != []
      && render(Render(FinalClips(config, input).value, input.audioPath, input.platform)).Success?
    ensures r.Success? ==> r.value.videoPath == Some(VideoPath(input.platform))
    ensures r.Success? ==> r.value.metadata == Some(EditorMetadata(config, input))
  {
    match FinalClips(config, input)
    case Failure(e) => Failure(e)
    case Success(clips) =>
      match render(Render(clips, input.audioPath, input.platform))
      case Failure(e) => Failure(e)
      case Success(_) => Success(VideoOutput(Some(VideoPath(input.platform)), Some(EditorMetadata(config, input))))
  }

  /** The rendered video spans the requested duration, one image after the
      other, and keeps its audio. */
  lemma RenderedClipsCoverDuration(config: EditorConfig, input: EditorInput)
    requires input.imagePaths != []
    ensures var clips := FinalClips(config, input).value;
            && |clips| == |input.imagePaths|
            && (forall i :: 0 <= i < |clips| ==> clips[i].image == input.imagePaths[i])
            && TotalDuration(clips) == input.duration as real
  {
    var clips := CreateVideoClips(input.imagePaths, input.duration).value;
    ClipsShareTotal(input.imagePaths, input.duration);
    TransitionsKeepDuration(clips, config.transitionStyle);
  }

  /** `EditorAgent.validate_output`: both keys, the file on disk, and a clip
      that opens with a positive duration. */
  function Validate(fs: FileSystem, o: VideoOutput): (ok: bool)
    ensures o.videoPath.None? || o.metadata.None? ==> !ok
    ensures o.videoPath.Some? && !fs.fileExists(o.videoPath.value) ==> !ok
    ensures o.videoPath.Some? && fs.videoDuration(o.videoPath.value).None? ==> !ok
    ensures (&& o.videoPath.Some? && fs.videoDuration(o.videoPath.value).Some?
             && fs.videoDuration(o.videoPath.value).value <= 0.0) ==> !ok
    ensures (&& o.videoPath.Some? && o.metadata.Some? && fs.fileExists(o.videoPath.value)
             && fs.videoDuration(o.videoPath.value).Some?
             && fs.videoDuration(o.videoPath.value).value > 0.0) ==> ok
  {
    if !(o.videoPath.Some? && o.metadata.Some?) then false
    else if !fs.fileExists(o.videoPath.value) then false
    else
      match fs.videoDuration(o.videoPath.value)
      case None => false
      case Some(d) => d > 0.0
  }

  /** A readable video of positive length at `path`. */
  predicate PlayableVideo(fs: FileSystem, path: string) {
    fs.fileExists(path) && fs.videoDuration(path).Some? && fs.videoDuration(path).value > 0.0
  }

  /** `EditorAgent.run`: a value comes back exactly when there were images,
      the render succeeded, and the video it left is readable with a
      positive length. */
  function Run(config: EditorConfig, render: Renderer, fs: FileSystem, input: EditorInput): (r: Option<VideoOutput>)
    ensures r.Some? <==>
      && input.imagePaths != []
      && render(Render(FinalClips(config, input).value, input.audioPath, input.platform)).Success?
      && PlayableVideo(fs, VideoPath(input.platform))
    ensures r.Some? ==> r.value.videoPath == Some(VideoPath(input.platform))
    ensures r.Some? ==> r.value.metadata == Some(EditorMetadata(config, input))
  {
    RunChecked(Process(config, render, input), (o: VideoOutput) => Validate(fs, o))
  }
}
