/** The orchestrator (src/main.py, `ContentGenerator.generate_content`):
    five agents run in a fixed order — research, script, voice, visual,
    editor — each fed from the platform's profile and from the outputs before
    it. The first falsy answer, a missing key, or an unknown platform ends the
    run with nothing.

    The run is modelled twice: as a state machine that takes one stage per
    step, and as a straight-line reading of the source (`Direct`); the two
    are proved to agree, and the orchestrator's promises are proved about
    them. */
module Pipeline {
  import opened Wrappers
  import opened Stages

  /** The five agents, in the order the orchestrator calls them. */
  datatype Stage = ResearchStage | ScriptStage | VoiceStage | VisualStage | EditorStage

  const StageOrder: seq<Stage> := [ResearchStage, ScriptStage, VoiceStage, VisualStage, EditorStage]

  /** The `run` of each of the five agents. */
  datatype Agents = Agents(
    research: ResearchInput -> Option<ResearchOutput>,
    script: ScriptInput -> Option<ScriptOutput>,
    voice: VoiceInput -> Option<VoiceOutput>,
    visual: VisualInput -> Option<VisualOutput>,
    editor: EditorInput -> Option<VideoOutput>)

  /** `config["platforms"]` */
  type Platforms = map<string, PlatformProfile>

  /** One agent invocation and the input it was given. */
  datatype Call =
    | ResearchCall(researchInput: ResearchInput)
    | ScriptCall(scriptInput: ScriptInput)
    | VoiceCall(voiceInput: VoiceInput)
    | VisualCall(visualInput: VisualInput)
    | EditorCall(editorInput: EditorInput)
  {
    function Stage(): Stage {
      match this
      case ResearchCall(_) => ResearchStage
      case ScriptCall(_) => ScriptStage
      case VoiceCall(_) => VoiceStage
      case VisualCall(_) => VisualStage
      case EditorCall(_) => EditorStage
    }
  }

  function StagesOf(trace: seq<Call>): (stages: seq<Stage>)
    ensures |stages| == |trace|
    ensures forall i :: 0 <= i < |trace| ==> stages[i] == trace[i].Stage()
  {
    seq(|trace|, i requires 0 <= i < |trace| => trace[i].Stage())
  }

  /** The answer to `call` is truthy: `run` returned a non-empty dict. */
  predicate Succeeds(agents: Agents, call: Call) {
    match call
    case ResearchCall(i) => agents.research(i).Some? && !agents.research(i).value.Empty()
    case ScriptCall(i) => agents.script(i).Some? && !agents.script(i).value.Empty()
    case VoiceCall(i) => agents.voice(i).Some? && !agents.voice(i).value.Empty()
    case VisualCall(i) => agents.visual(i).Some? && !agents.visual(i).value.Empty()
    case EditorCall(i) => agents.editor(i).Some? && !agents.editor(i).value.Empty()
  }

  // ---------------------------------------------------------------------
  // Result

  /** The `metadata` of a successful run: the request and each stage's own
      metadata under the stage's name. */
  datatype PipelineMetadata = PipelineMetadata(
    topic: string,
    platform: string,
    research: Metadata,
    script: Metadata,
    voice: Metadata,
    visual: Metadata,
    editor: Metadata)

  /** What `generate_content` returns on success. */
  datatype PipelineResult = PipelineResult(videoPath: string, metadata: PipelineMetadata)

  /** The return statement of `generate_content`: every lookup must find its
      key, otherwise the `KeyError` makes the run return nothing. */
  function Assemble(topic: string, platform: string, research: ResearchOutput, script: ScriptOutput,
                    voice: VoiceOutput, visual: VisualOutput, editor: VideoOutput): (r: Option<PipelineResult>)
    ensures r.Some? <==>
      && editor.videoPath.Some? && research.metadata.Some? && script.metadata.Some?
      && voice.metadata.Some? && visual.metadata.Some? && editor.metadata.Some?
    ensures r.Some? ==>
      && r.value.videoPath == editor.videoPath.value
      && r.value.metadata.topic == topic && r.value.metadata.platform == platform
      && r.value.metadata.research == research.metadata.value
      && r.value.metadata.script == script.metadata.value
      && r.value.metadata.voice == voice.metadata.value
      && r.value.metadata.visual == visual.metadata.value
      && r.value.metadata.editor == editor.metadata.value
  {
    if editor.videoPath.None? || research.metadata.None? || script.metadata.None?
       || voice.metadata.None? || visual.metadata.None? || editor.metadata.None?
    then None
    else
      Some(PipelineResult(editor.videoPath.value,
        PipelineMetadata(topic, platform, research.metadata.value, script.metadata.value,
                         voice.metadata.value, visual.metadata.value, editor.metadata.value)))
  }

  // ---------------------------------------------------------------------
  // State machine

  /** The request and the platform's profile. */
  datatype Context = Context(topic: string, platform: string, profile: PlatformProfile)

  /** Why a run ended with nothing. */
  datatype Abort =
    | UnknownPlatform           // `config["platforms"][platform]` raised KeyError
    | StageFailed(stage: Stage) // the stage's `run` answered None or an empty dict
    | MissingKey(key: string)   // an output lacked a key the orchestrator reads

  /** Where a run stands: the agent it will call next, with the truthy
      outputs gathered so far; or how it ended. */
  datatype State =
    | Init(topic: string, platform: string)
    | Researching(ctx: Context)
    | Scripting(ctx: Context, research: ResearchOutput)
    | Narrating(ctx: Context, research: ResearchOutput, script: ScriptOutput)
    | Illustrating(ctx: Context, research: ResearchOutput, script: ScriptOutput, voice: VoiceOutput)
    | Composing(ctx: Context, research: ResearchOutput, script: ScriptOutput, voice: VoiceOutput,
                visual: VisualOutput)
    | Done(result: PipelineResult)
    | Failed(reason: Abort)
  {
    predicate Final() { Done? || Failed? }

    /** Steps left at most. */
    function Rank(): nat {
      match this
      case Init(_, _) => 6
      case Researching(_) => 5
      case Scripting(_, _) => 4
      case Narrating(_, _, _) => 3
      case Illustrating(_, _, _, _) => 2
      case Composing(_, _, _, _, _) => 1
      case Done(_) => 0
      case Failed(_) => 0
    }

    /** Position in `StageOrder` of the next agent to be called. */
    function NextStage(): nat {
      match this
      case Init(_, _) => 0
      case Researching(_) => 0
      case Scripting(_, _) => 1
      case Narrating(_, _, _) => 2
      case Illustrating(_, _, _, _) => 3
      case Composing(_, _, _, _, _) => 4
      case Done(_) => 5
      case Failed(_) => 5
    }
  }

  /** One step of `generate_content`: look up what the next stage needs,
      call it, and keep its output if it is truthy. */
  function Step(agents: Agents, platforms: Platforms, s: State): (r: (State, seq<Call>))
    requires !s.Final()
    ensures var (next, calls) := r;
      && next.Rank() < s.Rank()
      && |calls| <= 1
      && (|calls| == 1 ==> calls[0].Stage() == StageOrder[s.NextStage()])
      && (!next.Final() ==> next.NextStage() == s.NextStage() + |calls|)
      && (!next.Final() && |calls| == 1 ==> Succeeds(agents, calls[0]))
      && (|calls| == 1 && !Succeeds(agents, calls[0]) ==> next.Failed?)
      && (next.Done? ==> |calls| == 1 && s.NextStage() == 4 && Succeeds(agents, calls[0]))
      && (calls == [] ==> s.Init? || next.Failed?)
      && (s.Researching? ==> |calls| == 1)
  {
    match s
    case Init(topic, platform) =>
      if platform !in platforms then (Failed(UnknownPlatform), [])
      else (Researching(Context(topic, platform, platforms[platform])), [])
    case Researching(ctx) =>
      var input := ResearchInput(ctx.topic, ctx.platform, ctx.profile.style);
      var out := agents.research(input);
      if out.None? || out.value.Empty() then (Failed(StageFailed(ResearchStage)), [ResearchCall(input)])
      else (Scripting(ctx, out.value), [ResearchCall(input)])
    case Scripting(ctx, research) =>
      if research.facts.None? then (Failed(MissingKey("facts")), [])
      else
        var input := ScriptInput(research.facts.value, ctx.platform, ctx.profile.style, ctx.profile.maxDuration);
        var out := agents.script(input);
        if out.None? || out.value.Empty() then (Failed(StageFailed(ScriptStage)), [ScriptCall(input)])
        else (Narrating(ctx, research, out.value), [ScriptCall(input)])
    case Narrating(ctx, research, script) =>
      if script.script.None? then (Failed(MissingKey("script")), [])
      else
        var input := VoiceInput(script.script.value, ctx.platform, ctx.profile.style);
        var out := agents.voice(input);
        if out.None? || out.value.Empty() then (Failed(StageFailed(VoiceStage)), [VoiceCall(input)])
        else (Illustrating(ctx, research, script, out.value), [VoiceCall(input)])
    case Illustrating(ctx, research, script, voice) =>
      if script.script.None? then (Failed(MissingKey("script")), [])
      else
        var input := VisualInput(script.script.value, ctx.platform, ctx.profile.style, ctx.profile.aspectRatio);
        var out := agents.visual(input);
        if out.None? || out.value.Empty() then (Failed(StageFailed(VisualStage)), [VisualCall(input)])
        else (Composing(ctx, research, script, voice, out.value), [VisualCall(input)])
    case Composing(ctx, research, script, voice, visual) =>
      if visual.imagePaths.None? then (Failed(MissingKey("image_paths")), [])
      else if voice.audioPath.None? then (Failed(MissingKey("audio_path")), [])
      else
        var input := EditorInput(visual.imagePaths.value, voice.audioPath.value, ctx.platform,
                                 ctx.profile.maxDuration, ctx.profile.aspectRatio);
        var out := agents.editor(input);
        if out.None? || out.value.Empty() then (Failed(StageFailed(EditorStage)), [EditorCall(input)])
        else
          match Assemble(ctx.topic, ctx.platform, research, script, voice, visual, out.value)
          case None =>
            // the return statement reads the editor's `video_path` before any metadata
            var key := if out.value.videoPath.None? then "video_path" else "metadata";
            (Failed(MissingKey(key)), [EditorCall(input)])
          case Some(result) => (Done(result), [EditorCall(input)])
  }

  /** Run the machine from `s` to a final state, recording every agent call. */
  function Drive(agents: Agents, platforms: Platforms, s: State): (r: (State, seq<Call>))
    ensures s.Final() ==> r == (s, [])
    ensures r.0.Final()
    decreases s.Rank()
  {
    if s.Final() then (s, [])
    else
      var (next, calls) := Step(agents, platforms, s);
      var (final, rest) := Drive(agents, platforms, next);
      (final, calls + rest)
  }

  /** The calls of a run from `s` follow the stage order from the next stage
      on; every call but the last was answered truthily; a falsy last answer
      ends in failure; and a finished run called every remaining stage
      successfully. */
  lemma {:induction false} DriveTrace(agents: Agents, platforms: Platforms, s: State)
    ensures var trace := Drive(agents, platforms, s).1;
            && s.NextStage() + |trace| <= |StageOrder|
            && forall i :: 0 <= i < |trace| ==> trace[i].Stage() == StageOrder[s.NextStage() + i]
    ensures var (final, trace) := Drive(agents, platforms, s);
            && (forall i :: 0 <= i < |trace| - 1 ==> Succeeds(agents, trace[i]))
            && (|trace| > 0 && !Succeeds(agents, trace[|trace| - 1]) ==> final.Failed?)
    ensures var (final, trace) := Drive(agents, platforms, s);
            final.Done? ==> && s.NextStage() + |trace| == |StageOrder|
                            && forall i :: 0 <= i < |trace| ==> Succeeds(agents, trace[i])
    ensures s.Researching? ==> |Drive(agents, platforms, s).1| > 0
    decreases s.Rank()
  {
    if !s.Final() {
      var (next, calls) := Step(agents, platforms, s);
      DriveTrace(agents, platforms, next);
      var (final, rest) := Drive(agents, platforms, next);
      assert Drive(agents, platforms, s) == (final, calls + rest);
      assert next.Final() ==> rest == [];
      assert forall i :: |calls| <= i < |calls + rest| ==> (calls + rest)[i] == rest[i - |calls|];
    }
  }

  /** What one call of `generate_content` yields: its result and the agents
      it invoked, in order. */
  datatype Generated = Generated(result: Option<PipelineResult>, trace: seq<Call>)

  /** `ContentGenerator.generate_content`. */
  function GenerateContent(agents: Agents, platforms: Platforms, topic: string, platform: string): (g: Generated)
    // the agents are called in stage order, each at most once
    ensures |g.trace| <= |StageOrder|
    ensures StagesOf(g.trace) == StageOrder[..|g.trace|]
    // no stage is invoked after one that answered falsily
    ensures forall i :: 0 <= i < |g.trace| - 1 ==> Succeeds(agents, g.trace[i])
    ensures |g.trace| > 0 && !Succeeds(agents, g.trace[|g.trace| - 1]) ==> g.result.None?
    // a result means all five stages ran and answered truthily
    ensures g.result.Some? ==> |g.trace| == 5 && forall i :: 0 <= i < 5 ==> Succeeds(agents, g.trace[i])
    // an unknown platform ends the run before any agent is called
    ensures platform !in platforms ==> g == Generated(None, [])
    ensures platform in platforms ==> |g.trace| > 0
  {
    var (final, trace) := Drive(agents, platforms, Init(topic, platform));
    DriveTrace(agents, platforms, Init(topic, platform));
    assert StagesOf(trace) == StageOrder[..|trace|];
    Generated(if final.Done? then Some(final.result) else None, trace)
  }

  // ---------------------------------------------------------------------
  // The source read top to bottom

  /** `generate_content` written as the source reads: each stage's input
      built from the profile and the earlier outputs, each falsy answer or
      missing key ending the run. */
  function Direct(agents: Agents, platforms: Platforms, topic: string, platform: string): Generated {
    if platform !in platforms then Generated(None, [])
    else
      var profile := platforms[platform];
      var researchIn := ResearchInput(topic, platform, profile.style);
      var t1 := [ResearchCall(researchIn)];
      var research := agents.research(researchIn);
      if research.None? || research.value.Empty() || research.value.facts.None? then Generated(None, t1)
      else
        var scriptIn := ScriptInput(research.value.facts.value, platform, profile.style, profile.maxDuration);
        var t2 := t1 + [ScriptCall(scriptIn)];
        var script := agents.script(scriptIn);
        if script.None? || script.value.Empty() || script.value.script.None? then Generated(None, t2)
        else
          var voiceIn := VoiceInput(script.value.script.value, platform, profile.style);
          var t3 := t2 + [VoiceCall(voiceIn)];
          var voice := agents.voice(voiceIn);
          if voice.None? || voice.value.Empty() then Generated(None, t3)
          else
            var visualIn := VisualInput(script.value.script.value, platform, profile.style, profile.aspectRatio);
            var t4 := t3 + [VisualCall(visualIn)];
            var visual := agents.visual(visualIn);
            if visual.None? || visual.value.Empty()
               || visual.value.imagePaths.None? || voice.value.audioPath.None?
            then Generated(None, t4)
            else
              var editorIn := EditorInput(visual.value.imagePaths.value, voice.value.audioPath.value, platform,
                                          profile.maxDuration, profile.aspectRatio);
              var t5 := t4 + [EditorCall(editorIn)];
              var editor := agents.editor(editorIn);
              if editor.None? || editor.value.Empty() then Generated(None, t5)
              else Generated(Assemble(topic, platform, research.value, script.value, voice.value,
                                      visual.value, editor.value), t5)
  }

  /** The state machine and the straight-line reading agree on every input. */
  lemma StateMachineAgreesWithDirect(agents: Agents, platforms: Platforms, topic: string, platform: string)
    ensures GenerateContent(agents, platforms, topic, platform) == Direct(agents, platforms, topic, platform)
  {
    var (final, trace) := Drive(agents, platforms, Init(topic, platform));
    assert GenerateContent(agents, platforms, topic, platform)
        == Generated(if final.Done? then Some(final.result) else None, trace);
    if platform in platforms {
      var s1 := Researching(Context(topic, platform, platforms[platform]));
      DriveUnfold(agents, platforms, Init(topic, platform));
      assert [] + Drive(agents, platforms, s1).1 == Drive(agents, platforms, s1).1;
      AgreeFromResearching(agents, platforms, Context(topic, platform, platforms[platform]));
    }
  }

  /** The machine from the research stage on against the source's reading. */
  lemma AgreeFromResearching(agents: Agents, platforms: Platforms, ctx: Context)
    requires ctx.platform in platforms && ctx.profile == platforms[ctx.platform]
    ensures var (final, trace) := Drive(agents, platforms, Researching(ctx));
            var direct := Direct(agents, platforms, ctx.topic, ctx.platform);
            && direct.trace == trace
            && direct.result == (if final.Done? then Some(final.result) else None)
  {
    var s1 := Researching(ctx);
    var profile := ctx.profile;
    DriveUnfold(agents, platforms, s1);
    var researchIn := ResearchInput(ctx.topic, ctx.platform, profile.style);
    var research := agents.research(researchIn);
    if !(research.None? || research.value.Empty()) {
      var s2 := Scripting(ctx, research.value);
      assert Step(agents, platforms, s1) == (s2, [ResearchCall(researchIn)]);
      DriveUnfold(agents, platforms, s2);
      if research.value.facts.Some? {
        var scriptIn := ScriptInput(research.value.facts.value, ctx.platform, profile.style, profile.maxDuration);
        var script := agents.script(scriptIn);
        if !(script.None? || script.value.Empty()) {
          var s3 := Narrating(ctx, research.value, script.value);
          assert Step(agents, platforms, s2) == (s3, [ScriptCall(scriptIn)]);
          AgreeFromNarrating(agents, platforms, ctx, research.value, script.value);
        }
      }
    }
  }

  /** The last three stages of the machine against the source's reading. */
  lemma AgreeFromNarrating(agents: Agents, platforms: Platforms, ctx: Context,
                           research: ResearchOutput, script: ScriptOutput)
    requires ctx.platform in platforms && ctx.profile == platforms[ctx.platform]
    requires research.facts.Some?
    ensures var (final, trace) := Drive(agents, platforms, Narrating(ctx, research, script));
            var tail := Direct(agents, platforms, ctx.topic, ctx.platform);
            var scriptIn := ScriptInput(research.facts.value, ctx.platform, ctx.profile.style, ctx.profile.maxDuration);
            agents.research(ResearchInput(ctx.topic, ctx.platform, ctx.profile.style)) == Some(research)
            && !research.Empty() && agents.script(scriptIn) == Some(script) && !script.Empty() ==>
              && tail.trace == [ResearchCall(ResearchInput(ctx.topic, ctx.platform, ctx.profile.style)),
                                ScriptCall(scriptIn)] + trace
              && tail.result == (if final.Done? then Some(final.result) else None)
  {
    var s3 := Narrating(ctx, research, script);
    DriveUnfold(agents, platforms, s3);
    if script.script.Some? {
      var voiceIn := VoiceInput(script.script.value, ctx.platform, ctx.profile.style);
      var voice := agents.voice(voiceIn);
      if !(voice.None? || voice.value.Empty()) {
        var s4 := Illustrating(ctx, research, script, voice.value);
        assert Step(agents, platforms, s3) == (s4, [VoiceCall(voiceIn)]);
        DriveUnfold(agents, platforms, s4);
        var visualIn := VisualInput(script.script.value, ctx.platform, ctx.profile.style, ctx.profile.aspectRatio);
        var visual := agents.visual(visualIn);
        if !(visual.None? || visual.value.Empty()) {
          var s5 := Composing(ctx, research, script, voice.value, visual.value);
          assert Step(agents, platforms, s4) == (s5, [VisualCall(visualIn)]);
          DriveUnfold(agents, platforms, s5);
        }
      }
    }
  }

  /** One step of the machine, then the rest of the run. */
  lemma DriveUnfold(agents: Agents, platforms: Platforms, s: State)
    requires !s.Final()
    ensures var (next, calls) := Step(agents, platforms, s);
            var (final, rest) := Drive(agents, platforms, next);
            Drive(agents, platforms, s) == (final, calls + rest)
  {
  }

  // ---------------------------------------------------------------------
  // What is threaded from stage to stage

  /** Research is asked about the topic, on the platform, in its style. */
  lemma ResearchGetsRequest(agents: Agents, platforms: Platforms, topic: string, platform: string)
    requires platform in platforms
    ensures var g := GenerateContent(agents, platforms, topic, platform);
            g.trace[0] == ResearchCall(ResearchInput(topic, platform, platforms[platform].style))
  {
    StateMachineAgreesWithDirect(agents, platforms, topic, platform);
  }

  /** The script agent gets the facts research returned, and the platform's
      maximum duration. */
  lemma ScriptGetsResearchFacts(agents: Agents, platforms: Platforms, topic: string, platform: string)
    ensures var g := GenerateContent(agents, platforms, topic, platform);
            |g.trace| >= 2 ==>
              && g.trace[0].ResearchCall? && g.trace[1].ScriptCall?
              && var research := agents.research(g.trace[0].researchInput);
              && research.Some? && research.value.facts.Some?
              && g.trace[1].scriptInput == ScriptInput(research.value.facts.value, platform,
                                                       platforms[platform].style, platforms[platform].maxDuration)
  {
    StateMachineAgreesWithDirect(agents, platforms, topic, platform);
  }

  /** Voice and visual receive the very same script text, the one the script
      agent returned; visual also gets the platform's aspect ratio. */
  lemma VoiceAndVisualShareScript(agents: Agents, platforms: Platforms, topic: string, platform: string)
    ensures var g := GenerateContent(agents, platforms, topic, platform);
            |g.trace| >= 4 ==>
              && g.trace[1].ScriptCall? && g.trace[2].VoiceCall? && g.trace[3].VisualCall?
              && var script := agents.script(g.trace[1].scriptInput);
              && script.Some? && script.value.script.Some?
              && g.trace[2].voiceInput == VoiceInput(script.value.script.value, platform, platforms[platform].style)
              && g.trace[3].visualInput == VisualInput(script.value.script.value, platform,
                                                       platforms[platform].style, platforms[platform].aspectRatio)
  {
    StateMachineAgreesWithDirect(agents, platforms, topic, platform);
  }

  /** The editor combines the images of the visual stage with the audio of
      the voice stage, and the platform's duration and aspect ratio. */
  lemma EditorCombinesAssets(agents: Agents, platforms: Platforms, topic: string, platform: string)
    ensures var g := GenerateContent(agents, platforms, topic, platform);
            |g.trace| == 5 ==>
              && g.trace[2].VoiceCall? && g.trace[3].VisualCall? && g.trace[4].EditorCall?
              && var voice := agents.voice(g.trace[2].voiceInput);
              && var visual := agents.visual(g.trace[3].visualInput);
              && voice.Some? && voice.value.audioPath.Some?
              && visual.Some? && visual.value.imagePaths.Some?
              && g.trace[4].editorInput == EditorInput(visual.value.imagePaths.value, voice.value.audioPath.value,
                                                       platform, platforms[platform].maxDuration,
                                                       platforms[platform].aspectRatio)
  {
    StateMachineAgreesWithDirect(agents, platforms, topic, platform);
  }

  /** The forward direction: on a known platform, when every agent answers
      truthily on the input built for it and the keys the orchestrator reads
      are there, all five agents are called, in order, on those inputs, and
      the result is the one assembled from their outputs. */
  lemma AllStagesAnswerAssembles(agents: Agents, platforms: Platforms, topic: string, platform: string)
    requires platform in platforms
    ensures var g := GenerateContent(agents, platforms, topic, platform);
            var profile := platforms[platform];
            var researchIn := ResearchInput(topic, platform, profile.style);
            var research := agents.research(researchIn);
            research.Some? && !research.value.Empty() && research.value.facts.Some? ==>
            var scriptIn := ScriptInput(research.value.facts.value, platform, profile.style, profile.maxDuration);
            var script := agents.script(scriptIn);
            script.Some? && !script.value.Empty() && script.value.script.Some? ==>
            var voiceIn := VoiceInput(script.value.script.value, platform, profile.style);
            var voice := agents.voice(voiceIn);
            var visualIn := VisualInput(script.value.script.value, platform, profile.style, profile.aspectRatio);
            var visual := agents.visual(visualIn);
            && voice.Some? && !voice.value.Empty() && voice.value.audioPath.Some?
            && visual.Some? && !visual.value.Empty() && visual.value.imagePaths.Some? ==>
            var editorIn := EditorInput(visual.value.imagePaths.value, voice.value.audioPath.value, platform,
                                        profile.maxDuration, profile.aspectRatio);
            var editor := agents.editor(editorIn);
            editor.Some? && !editor.value.Empty() ==>
              && g.trace == [ResearchCall(researchIn), ScriptCall(scriptIn), VoiceCall(voiceIn),
                             VisualCall(visualIn), EditorCall(editorIn)]
              && g.result == Assemble(topic, platform, research.value, script.value, voice.value,
                                      visual.value, editor.value)
  {
    StateMachineAgreesWithDirect(agents, platforms, topic, platform);
  }

  /** A visual stage that answers nothing ends the run there: the editor is
      never called and nothing comes back. */
  lemma VisualFailureStops(agents: Agents, platforms: Platforms, topic: string, platform: string)
    ensures var g := GenerateContent(agents, platforms, topic, platform);
            |g.trace| >= 4 && g.trace[3].VisualCall? && agents.visual(g.trace[3].visualInput).None? ==>
              |g.trace| == 4 && g.result.None?
  {
    var g := GenerateContent(agents, platforms, topic, platform);
    if |g.trace| >= 4 && g.trace[3].VisualCall? && agents.visual(g.trace[3].visualInput).None? {
      assert !Succeeds(agents, g.trace[3]);
    }
  }

  /** A result carries the editor's video path, the request, and each
      stage's metadata under its stage's name. */
  lemma ResultAssembled(agents: Agents, platforms: Platforms, topic: string, platform: string)
    ensures var g := GenerateContent(agents, platforms, topic, platform);
            g.result.Some? ==>
              && g.trace[0].ResearchCall? && g.trace[1].ScriptCall? && g.trace[2].VoiceCall?
              && g.trace[3].VisualCall? && g.trace[4].EditorCall?
              && var research := agents.research(g.trace[0].researchInput);
              && var script := agents.script(g.trace[1].scriptInput);
              && var voice := agents.voice(g.trace[2].voiceInput);
              && var visual := agents.visual(g.trace[3].visualInput);
              && var editor := agents.editor(g.trace[4].editorInput);
              && research.Some? && script.Some? && voice.Some? && visual.Some? && editor.Some?
              && editor.value.videoPath.Some?
              && research.value.metadata.Some? && script.value.metadata.Some? && voice.value.metadata.Some?
              && visual.value.metadata.Some? && editor.value.metadata.Some?
              && g.result.value == PipelineResult(editor.value.videoPath.value,
                   PipelineMetadata(topic, platform, research.value.metadata.value, script.value.metadata.value,
                                    voice.value.metadata.value, visual.value.metadata.value,
                                    editor.value.metadata.value))
  {
    StateMachineAgreesWithDirect(agents, platforms, topic, platform);
  }
}
