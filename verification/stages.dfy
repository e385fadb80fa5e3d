/** The data passed between the orchestrator and the five stage agents.
    Each stage output is a Python dict in the source; here it is a record
    with one `Option` field per key the stage writes (`Some` = key present),
    so that the validators' key-presence checks and the orchestrator's
    `output["key"]` lookups keep their meaning. */
module Stages {
  import opened Wrappers

  /** A value stored in a metadata dict. */
  datatype Value = Text(text: string) | Int(whole: int) | Real(number: real)

  type Metadata = map<string, Value>

  /** `config["platforms"][name]`: the per-platform settings. */
  datatype PlatformProfile = PlatformProfile(style: string, maxDuration: nat, aspectRatio: string)

  datatype ResearchInput = ResearchInput(topic: string, platform: string, style: string)

  datatype ResearchOutput = ResearchOutput(
    facts: Option<seq<string>>,
    sources: Option<seq<string>>,
    metadata: Option<Metadata>)
  {
    /** The empty dict, which Python treats as false. */
    predicate Empty() { facts.None? && sources.None? && metadata.None? }
  }

  datatype ScriptInput = ScriptInput(facts: seq<string>, platform: string, style: string, duration: nat)

  datatype ScriptOutput = ScriptOutput(
    script: Option<string>,
    hook: Option<string>,
    callToAction: Option<string>,
    metadata: Option<Metadata>)
  {
    predicate Empty() { script.None? && hook.None? && callToAction.None? && metadata.None? }
  }

  datatype VoiceInput = VoiceInput(script: string, platform: string, style: string)

  datatype VoiceOutput = VoiceOutput(
    audioPath: Option<string>,
    duration: Option<real>,
    metadata: Option<Metadata>)
  {
    predicate Empty() { audioPath.None? && duration.None? && metadata.None? }
  }

  datatype VisualInput = VisualInput(script: string, platform: string, style: string, aspectRatio: string)

  datatype VisualOutput = VisualOutput(
    imagePaths: Option<seq<string>>,
    metadata: Option<Metadata>)
  {
    predicate Empty() { imagePaths.None? && metadata.None? }
  }

  datatype EditorInput = EditorInput(
    imagePaths: seq<string>,
    audioPath: string,
    platform: string,
    duration: nat,
    aspectRatio: string)

  datatype VideoOutput = VideoOutput(
    videoPath: Option<string>,
    metadata: Option<Metadata>)
  {
    predicate Empty() { videoPath.None? && metadata.None? }
  }

  /** The read-only view of the file system the validators consult:
      `os.path.exists`, whether `PIL.Image.open` succeeds, and the duration
      `VideoFileClip` reports (`None` when opening the clip raises). */
  datatype FileSystem = FileSystem(
    fileExists: string -> bool,
    opensAsImage: string -> bool,
    videoDuration: string -> Option<real>)
}
