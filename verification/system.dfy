/** The content generator as configured (src/main.py:13-31): the five
    concrete agents, each built from its section of the configuration and
    talking to its provider, plugged into the orchestrator. The lemmas here
    say what a successful run guarantees end to end. */
module ContentSystem {
  import opened Wrappers
  import opened PyStr
  import opened Stages
  import opened SentenceSplit
  import opened BaseAgent
  import Research
  import Script
  import Voice
  import Visual
  import Editor
  import Pipeline

  /** The loaded configuration file: one section per agent and the
      platform profiles. */
  datatype Config = Config(
    research: Research.ResearchConfig,
    script: Script.ScriptConfig,
    voice: Voice.VoiceConfig,
    visual: Visual.VisualConfig,
    editor: Editor.EditorConfig,
    platforms: Pipeline.Platforms)

  /** Everything outside the program the agents depend on. */
  datatype Providers = Providers(
    generate: Research.TextService,
    chat: Script.ChatService,
    images: Visual.ImageService,
    synthesize: Voice.Synthesizer,
    hash: Voice.Hasher,
    render: Editor.Renderer,
    fs: FileSystem)

  /** `_initialize_agents`: each agent's `run`. */
  function AgentsOf(config: Config, providers: Providers): Pipeline.Agents {
    Pipeline.Agents(
      (i: ResearchInput) => Research.Run(config.research, providers.generate, i),
      (i: ScriptInput) => Script.Run(config.script, providers.chat, i),
      (i: VoiceInput) => Voice.Run(config.voice, providers.synthesize, providers.hash, providers.fs, i),
      (i: VisualInput) => Visual.Run(config.visual, providers.images, providers.fs, i),
      (i: EditorInput) => Editor.Run(config.editor, providers.render, providers.fs, i))
  }

  /** Each agent reports its own fixed name, the status "active" and the
      section of the configuration it was built from. */
  lemma AgentsReportStatus(config: Config)
    ensures GetStatus(Research.NewAgent(config.research)) == Status("research_agent", "active", config.research)
    ensures GetStatus(Script.NewAgent(config.script)) == Status("script_agent", "active", config.script)
    ensures GetStatus(Voice.NewAgent(config.voice)) == Status("voice_agent", "active", config.voice)
    ensures GetStatus(Visual.NewAgent(config.visual)) == Status("visual_agent", "active", config.visual)
    ensures GetStatus(Editor.NewAgent(config.editor)) == Status("editor_agent", "active", config.editor)
  {
  }

  function GenerateContent(config: Config, providers: Providers, topic: string, platform: string): Pipeline.Generated {
    Pipeline.GenerateContent(AgentsOf(config, providers), config.platforms, topic, platform)
  }

  /** A successful run leaves a playable video at
      `output/videos/{platform}_final.mp4` whose metadata echoes the request. */
  lemma SuccessLeavesVideo(config: Config, providers: Providers, topic: string, platform: string)
    ensures var g := GenerateContent(config, providers, topic, platform);
            g.result.Some? ==>
              && g.result.value.videoPath == Editor.VideoPath(platform)
              && Editor.PlayableVideo(providers.fs, g.result.value.videoPath)
              && g.result.value.metadata.topic == topic
              && g.result.value.metadata.platform == platform
  {
    var agents := AgentsOf(config, providers);
    Pipeline.ResultAssembled(agents, config.platforms, topic, platform);
    Pipeline.EditorCombinesAssets(agents, config.platforms, topic, platform);
  }

  /** What a successful run has established along the way: the research
      answer had at least one fact and no fewer sources than facts; the
      script's main content is 50 to 300 words; the voice-over is on disk
      with a positive duration; and the video is made of one saved, readable
      image per sentence of that same script, in order. */
  lemma SuccessMeetsEveryValidator(config: Config, providers: Providers, topic: string, platform: string)
    ensures var g := GenerateContent(config, providers, topic, platform);
            var agents := AgentsOf(config, providers);
            g.result.Some? ==>
              && |g.trace| == 5
              && g.trace[0].ResearchCall? && g.trace[1].ScriptCall? && g.trace[2].VoiceCall?
              && g.trace[3].VisualCall? && g.trace[4].EditorCall?
              && var research := agents.research(g.trace[0].researchInput);
              && var scriptText := g.trace[2].voiceInput.script;
              && var voice := agents.voice(g.trace[2].voiceInput);
              && var images := g.trace[4].editorInput.imagePaths;
              && research.Some? && research.value.facts.Some? && research.value.sources.Some?
              && 0 < |research.value.facts.value| <= |research.value.sources.value|
              && Script.MinWords <= |Words(scriptText)| <= Script.MaxWords
              && g.trace[3].visualInput.script == scriptText
              && voice.Some? && voice.value.audioPath.Some? && voice.value.duration.Some?
              && providers.fs.fileExists(voice.value.audioPath.value) && voice.value.duration.value > 0.0
              && g.trace[4].editorInput.audioPath == voice.value.audioPath.value
              && 0 < |images| == |Sentences(scriptText)|
              && forall i :: 0 <= i < |images| ==>
                   images[i] == Visual.ImagePath(platform, i) && Visual.Usable(providers.fs, images[i])
  {
    var agents := AgentsOf(config, providers);
    var g := GenerateContent(config, providers, topic, platform);
    if g.result.Some? {
      Pipeline.ResultAssembled(agents, config.platforms, topic, platform);
      Pipeline.ScriptGetsResearchFacts(agents, config.platforms, topic, platform);
      Pipeline.VoiceAndVisualShareScript(agents, config.platforms, topic, platform);
      Pipeline.EditorCombinesAssets(agents, config.platforms, topic, platform);
      var research := agents.research(g.trace[0].researchInput);
      var script := agents.script(g.trace[1].scriptInput);
      var voice := agents.voice(g.trace[2].voiceInput);
      ValidatedAnswers(providers.fs, research.value, script.value, voice.value);
    }
  }

  /** What the research, script and voice validators establish about an
      answer they accept. */
  lemma ValidatedAnswers(fs: FileSystem, research: ResearchOutput, script: ScriptOutput, voice: VoiceOutput)
    requires Research.Validate(research) && Script.Validate(script) && Voice.Validate(fs, voice)
    ensures research.facts.Some? && research.sources.Some?
    ensures 0 < |research.facts.value| <= |research.sources.value|
    ensures script.script.Some? && Script.MinWords <= |Words(script.script.value)| <= Script.MaxWords
    ensures voice.audioPath.Some? && voice.duration.Some?
    ensures fs.fileExists(voice.audioPath.value) && voice.duration.value > 0.0
  {
  }

  /** The script prompt lists each researched fact on a line of its own, as
      `- fact`, in the order research returned them. */
  lemma ScriptPromptListsResearchFacts(config: Config, providers: Providers, topic: string, platform: string)
    ensures var g := GenerateContent(config, providers, topic, platform);
            |g.trace| >= 2 ==>
              && g.trace[1].ScriptCall?
              && var facts := g.trace[1].scriptInput.facts;
              && SplitOn(Script.FactsText(facts), '\n') == Script.FactLines(facts)
  {
    var agents := AgentsOf(config, providers);
    var g := GenerateContent(config, providers, topic, platform);
    Pipeline.ScriptGetsResearchFacts(agents, config.platforms, topic, platform);
    if |g.trace| >= 2 {
      var input := g.trace[0].researchInput;
      var answer := providers.generate(config.research.model, Research.ResearchPrompt(input.topic, input.platform, input.style));
      Research.ParsedSingleLine(answer.value);
      Script.FactsTextLines(g.trace[1].scriptInput.facts);
    }
  }

  /** An unknown platform: no agent is called and nothing comes back. */
  lemma UnknownPlatformCallsNoAgent(config: Config, providers: Providers, topic: string, platform: string)
    requires platform !in config.platforms
    ensures GenerateContent(config, providers, topic, platform) == Pipeline.Generated(None, [])
  {
  }

  /** A script with no sentence cannot be illustrated: the visual stage
      answers nothing and the editor is never called. */
  lemma NoSentenceNoVideo(config: Config, providers: Providers, topic: string, platform: string)
    ensures var g := GenerateContent(config, providers, topic, platform);
            |g.trace| >= 4 && g.trace[3].VisualCall? && Sentences(g.trace[3].visualInput.script) == [] ==>
              |g.trace| == 4 && g.result.None?
  {
    Pipeline.VisualFailureStops(AgentsOf(config, providers), config.platforms, topic, platform);
  }
}
