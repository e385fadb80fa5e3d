# genai-stack content pipeline in Dafny

This project models the core of genai-stack, a system that turns a historical
topic into a short narrated video for a social-media platform. Five agents do
the work in turn:

- **research** asks a language model for facts and sources;
- **script** asks a chat model for a hook, a main content and a call to action;
- **voice** turns the script into SSML and synthesises an MP3;
- **visual** draws one image per sentence of the script;
- **editor** cuts the images into clips, adds transitions and renders the
  video with the voice-over.

`ContentGenerator.generate_content` runs them in that order. Each agent goes
through the common `BaseAgent.run` template.

Modules, one per source file or shared concept:

| file | module | models |
|---|---|---|
| `wrappers.dfy` | `Wrappers` | `Option` for a `None`-or-value return, `Result` for a call that may raise |
| `pystr.dfy` | `PyStr` | the Python string built-ins the agents rely on: `strip`, `split("\n")`, `split()`, `join`, `startswith`, `str(int)` |
| `agent.dfy` | `BaseAgent` | `run` and `get_status` (src/agents/base_agent.py) |
| `stages.dfy` | `Stages` | the dicts the stages exchange, as records whose `Option` fields say whether a key is present |
| `research.dfy` | `Research` | src/agents/research_agent.py |
| `script.dfy` | `Script` | src/agents/script_agent.py |
| `lines.dfy` | `LineScan` | the split-classify-loop reading both text parsers share |
| `sentences.dfy` | `SentenceSplit` | the sentence split shared by the visual and voice agents |
| `visual.dfy` | `Visual` | src/agents/visual_agent.py |
| `voice.dfy` | `Voice` | src/agents/voice_agent.py |
| `editor.dfy` | `Editor` | src/agents/editor_agent.py |
| `pipeline.dfy` | `Pipeline` | `generate_content` (src/main.py), over any five agent `run` functions |
| `system.dfy` | `ContentSystem` | the five concrete agents plugged into the orchestrator, with end-to-end properties |

Everything the agents cannot compute themselves is a parameter:

- the language model, chat model, image service and speech synthesiser;
- the video renderer;
- Python's `hash`;
- a `FileSystem` record.

The `FileSystem` record is a fixed snapshot of three facts per path: whether
the file exists, whether it opens as an image, and the duration a video file
reports. A provider call that raises is a `Failure` value. `run` turns that
value into `None`, exactly as the source's `except` clause does.

The orchestrator is modelled twice. One is a state machine
(`Init → Researching → Scripting → Narrating → Illustrating → Composing → Done | Failed`)
that records every agent call in a trace. The other, `Pipeline.Direct`, reads
`generate_content` top to bottom. The two are proved equal on every input.

The parsers are modelled as the loops the source writes, over a shared
line-scanning module (`lines.dfy`, `LineScan`). Each is proved equal
to an independent "block" reading of the same answer format.

## Model

| member | source | states |
|---|---|---|
| `BaseAgent.Run` | src/agents/base_agent.py:61-84 | The output is returned exactly when `process` returned and the validator said true, and then it is returned unchanged. A raise in `process` or in the validator gives `None`. The validator sees only `process`'s own output, at most once. The log is the start record followed by exactly one of completed, validation failed or error. The error record carries the exception `process` raised or, when `process` returned, the one the validator raised. |
| `BaseAgent.RunChecked` | src/agents/base_agent.py:73-80 | For a validator that cannot raise: a value comes back exactly when `process` succeeded and the validator accepts its output. That value is the output, unchanged. |
| `BaseAgent.GetStatus` | src/agents/base_agent.py:86-97 | `get_status` reports the agent's own name, the status "active" and the configuration the agent holds. |
| `ContentSystem.AgentsReportStatus` | src/agents/base_agent.py:86-97 | Each of the five agents reports its own fixed name, the status "active", and the section of the configuration it was built from. |
| `Research.ResearchPrompt` | src/agents/research_agent.py:80-103 | The prompt contains the topic, the platform, the style and both markers `FACTS:` and `SOURCES:`. |
| `Research.ScanMatchesBlocks` | src/agents/research_agent.py:119-133 | On every list of lines, the parsing loop equals the block reading: each header opens a block whose bullets go, in order, to the list that header names. |
| `Research.ProcessResearch` | src/agents/research_agent.py:114-134 | `_process_research` equals the block reading of its answer's lines: it keeps, in order, the text after `- ` of every stripped bullet line under `FACTS:` as a fact and under `SOURCES:` as a source. It keeps nothing else. |
| `Research.ProcessResearchNeedsHeaders` | src/agents/research_agent.py:121-133 | An answer with no header line yields no facts and no sources, whatever bullets it holds. |
| `Research.ParsedSingleLine` | src/agents/research_agent.py:120-134 | No parsed fact or source contains a newline: each comes from one line of the answer. |
| `Research.Process` | src/agents/research_agent.py:14-52 | `process` fails exactly when the model call fails. Otherwise all three keys are present, the facts and sources are exactly those `_process_research` parses from the model's answer, and the metadata is exactly topic, platform and style from the input plus the configured model. |
| `Research.Validate` | src/agents/research_agent.py:54-78 | False when facts, sources or metadata is missing, when facts or sources is empty, or when there are more facts than sources. True when all keys are present and 0 < number of facts <= number of sources. |
| `Research.ValidateExamples` | tests/test_research_agent.py:52-80 | The validator accepts the test's valid output. It rejects the test's output with a missing key and the one with empty facts. |
| `Research.Run` | src/agents/research_agent.py:14-78 | A value comes back exactly when the model answered and its parsed answer has at least one fact and no fewer sources than facts. The facts and sources are then the parsed ones, and the metadata echoes the request. |
| `Script.FactsTextLines` | src/agents/script_agent.py:87 | For a non-empty list of facts, none spanning several lines, `facts_text` split back on newlines gives exactly one `- fact` line per fact, in order. |
| `Script.ScriptPrompt` | src/agents/script_agent.py:85-111 | The prompt contains `facts_text`, the platform, the style and the duration in seconds. |
| `Script.ScanMatchesBlocks` | src/agents/script_agent.py:141-166 | On every list of lines, the parsing loop with its final store equals the block reading of the answer. |
| `Script.ProcessScript` | src/agents/script_agent.py:130-168 | `_process_script` equals the block reading of its answer's lines: it stores under each part the content of the last block that part's header opened. |
| `Script.MissingHeaderLeavesPartEmpty` | src/agents/script_agent.py:132-136 | A part whose header never appears stays "". |
| `Script.LastBlockWins` | src/agents/script_agent.py:141-166 | A part holds the non-blank stripped lines after its last header, up to the next header, joined with "\n". A repeated header overwrites the earlier block, and header lines never reach a part. |
| `Script.Process` | src/agents/script_agent.py:14-56 | `process` fails exactly when the chat call fails. Otherwise `script` is the parsed main content, `hook` and `call_to_action` are the parsed parts of the same name, and the metadata echoes the request and the model. |
| `Script.Validate` | src/agents/script_agent.py:58-83 | False when a key is missing, when a text field is empty, or when the main content has fewer than 50 or more than 300 whitespace-separated words. True otherwise. |
| `Script.Run` | src/agents/script_agent.py:14-83 | A value comes back exactly when the chat call answered with a non-empty hook, a non-empty call to action and a main content of 50 to 300 words. The three texts are the parsed parts. |
| `SentenceSplit.Sentences` | src/agents/visual_agent.py:98 | Every sentence of a script is non-empty, stripped and free of periods. |
| `SentenceSplit.KeepNonBlankCount` | src/agents/voice_agent.py:108 | The number of sentences equals the number of positions whose "."-separated segment is not blank once stripped. |
| `SentenceSplit.SentencesOfJoin` | src/agents/visual_agent.py:98 | Round trip: sentences joined with periods split back into exactly those sentences, in order. |
| `Visual.ImagePrompts` | src/agents/visual_agent.py:95-111 | Exactly one prompt per sentence, in order, and each prompt contains its sentence. |
| `Visual.ImageSize` | src/agents/visual_agent.py:144-153 | The five known ratios get their table size. Any other ratio gets "1024x1024". |
| `Visual.ImageSizeKeepsRatio` | src/agents/visual_agent.py:146-152 | For every ratio in the table, width times the ratio's height equals height times the ratio's width. |
| `Visual.ImagePathsDistinct` | src/agents/visual_agent.py:135 | Images at different positions are saved under different file names. |
| `Visual.GenerateImages` | src/agents/visual_agent.py:42-51 | The loop succeeds exactly when every image call succeeds. It then returns one path per prompt, in prompt order, and path i is `output/images/{platform}_image_{i}.png`. |
| `Visual.Process` | src/agents/visual_agent.py:18-61 | `process` fails exactly when some image call fails, call i asking for prompt i at the aspect ratio's size and saving to image path i. On success there is one image path per sentence, path i numbered i, and the metadata echoes the request and the provider. |
| `Visual.AllImagesUsable` | src/agents/visual_agent.py:83-93 | The validation loop accepts exactly when every path exists and opens as an image. |
| `Visual.Validate` | src/agents/visual_agent.py:63-93 | False when `image_paths` or metadata is missing, when `image_paths` is empty, or when some path is missing or does not decode. True otherwise. |
| `Visual.Run` | src/agents/visual_agent.py:18-93 | A value comes back exactly when the script has a sentence, every image call succeeds and every saved image exists and opens as an image. A script without sentences gives `None`. Any value that comes back has one path per sentence, path i numbered i, every image usable, and the request's metadata. |
| `Voice.EmphasizeEnds` | src/agents/voice_agent.py:114-118 | The word count is unchanged. More than five words: the first and last are wrapped in emphasis tags and the middle words are left alone. Five or fewer: the words are left alone. |
| `Voice.SsmlParts` | src/agents/voice_agent.py:108-121 | Exactly one SSML part per sentence, in order. |
| `Voice.Ssml` | src/agents/voice_agent.py:123-129 | The document opens with `<speak>` and closes with `</speak>`, each with the source's indentation. |
| `Voice.SsmlHasEverySentence` | src/agents/voice_agent.py:105-129 | Every sentence's part appears in the document. |
| `Voice.SsmlPartsInOrder` | src/agents/voice_agent.py:123-127 | The parts are in sentence order: each sentence's part is followed directly by `<break time='500ms'/>` and then the next sentence's part. |
| `Voice.ShortSentenceUnmarked` | src/agents/voice_agent.py:114-120 | A sentence of at most five words keeps exactly its words. |
| `Voice.LongSentenceEmphasized` | src/agents/voice_agent.py:115-120 | The part of a longer sentence starts with its emphasised first word and ends with its emphasised last word. |
| `Voice.EmphasisOnlyOnLongSentences` | src/agents/voice_agent.py:114-120 | For text without markup of its own, a part carries a tag exactly when its sentence has more than five words. |
| `Voice.AudioDuration` | src/agents/voice_agent.py:71 | The duration times 16000 is the byte count. It is positive exactly when there is audio. |
| `Voice.Process` | src/agents/voice_agent.py:16-78 | `process` fails exactly when synthesis fails. Otherwise the output names `output/audio/voiceover_{platform}_{hash}.mp3`, gives the estimated duration, and has metadata with platform, style, voice id and speaking rate. |
| `Voice.Validate` | src/agents/voice_agent.py:80-103 | False when a key is missing, when the audio file is absent, or when the duration is <= 0. True otherwise. |
| `Voice.Run` | src/agents/voice_agent.py:16-103 | A value comes back exactly when synthesis succeeded with at least one byte and the audio file is on disk. |
| `Editor.CreateVideoClips` | src/agents/editor_agent.py:113-122 | No images raises a division by zero. Otherwise there is one clip per image, in order, each lasting total / number of images. |
| `Editor.ClipsShareTotal` | src/agents/editor_agent.py:113-122 | The clips together last exactly the requested duration. |
| `Editor.Transitions` | src/agents/editor_agent.py:124-136 | Whatever the style, the clips keep their number, their order, their images and their durations. |
| `Editor.AddTransitions` | src/agents/editor_agent.py:124-136 | The loops of `_add_transitions` give, position by position, the reference result. With "smooth", a clip gains one half-second crossfade per neighbour. With "fade", it gains a fade in then a fade out. Any other style leaves it untouched. |
| `Editor.TransitionsKeepDuration` | src/agents/editor_agent.py:124-136 | Transitions do not change the total length of the video. |
| `Editor.RenderedClipsCoverDuration` | src/agents/editor_agent.py:44-51 | The clips handed to the renderer show the images in order and last exactly the target duration. |
| `Editor.Process` | src/agents/editor_agent.py:21-80 | No images raises. Otherwise `process` succeeds exactly when the render succeeds. The output names `output/videos/{platform}_final.mp4`, with metadata echoing the request and the configured qualities and transition style. |
| `Editor.Validate` | src/agents/editor_agent.py:82-111 | False when a key is missing, the file is absent, the video does not open, or its duration is <= 0. True otherwise. |
| `Editor.Run` | src/agents/editor_agent.py:21-111 | A value comes back exactly when there were images, the render succeeded and the video left at the path is readable with a positive length. |
| `Pipeline.Assemble` | src/main.py:102-113 | The result exists exactly when every key read is present. It then carries the editor's video path, the topic, the platform and each stage's metadata under that stage's name. |
| `Pipeline.Step` | src/main.py:44-117 | Each step calls at most the next agent in stage order. A falsy answer moves to `Failed`, and only the editor's truthy answer reaches `Done`. |
| `Pipeline.DriveTrace` | src/main.py:44-117 | From any state, the calls follow stage order from the next stage on. Every call but the last was answered truthily, a falsy last answer ends in failure, and `Done` means every remaining stage succeeded. |
| `Pipeline.GenerateContent` | src/main.py:33-117 | Agents are called in the order research, script, voice, visual, editor, each at most once. No agent is called after a falsy answer, and a falsy answer gives `None`. A result means all five answered truthily. An unknown platform gives `None` with no agent called. |
| `Pipeline.Direct` | src/main.py:33-117 | `generate_content` read top to bottom. It carries no contract of its own; `Pipeline.StateMachineAgreesWithDirect` proves it equal to the state machine on every input. |
| `Pipeline.StateMachineAgreesWithDirect` | src/main.py:44-117 | The state machine and the top-to-bottom reading of `generate_content` agree on the result and on the trace, for every input. |
| `Pipeline.ResearchGetsRequest` | src/main.py:46-54 | Research is asked about the topic, on the platform, in the platform's style. |
| `Pipeline.ScriptGetsResearchFacts` | src/main.py:59-65 | The script agent gets research's `facts` and the platform's `max_duration`. |
| `Pipeline.VoiceAndVisualShareScript` | src/main.py:70-86 | Voice and visual receive the identical script text the script agent returned. Visual also gets the platform's aspect ratio. |
| `Pipeline.EditorCombinesAssets` | src/main.py:91-98 | The editor gets visual's `image_paths`, voice's `audio_path`, and the platform's duration and aspect ratio. |
| `Pipeline.VisualFailureStops` | src/main.py:86-88 | A visual stage that answers `None` ends the run: the editor is never called and nothing is returned. |
| `Pipeline.AllStagesAnswerAssembles` | src/main.py:44-113 | For a known platform, when every agent answers truthily with the keys the next stage reads, all five agents are called once each, in stage order, on the inputs `generate_content` builds, and the result is the assembled dict. |
| `Pipeline.ResultAssembled` | src/main.py:102-113 | A result carries the editor's video path, the topic, the platform and each stage's metadata under its stage key. |
| `ContentSystem.AgentsOf` | src/main.py:23-31 | `_initialize_agents`: each stage is the matching agent's `run` over its configuration section and the providers. It carries no contract of its own; `ContentSystem.AgentsReportStatus`, `ContentSystem.SuccessMeetsEveryValidator` and `ContentSystem.SuccessLeavesVideo` state what the plugged-in agents guarantee. |
| `ContentSystem.SuccessLeavesVideo` | src/main.py:91-113 | A successful run leaves a playable video at `output/videos/{platform}_final.mp4`, and its metadata echoes the topic and platform. |
| `ContentSystem.SuccessMeetsEveryValidator` | src/main.py:49-100 | A successful run has passed every validator: at least one fact and no fewer sources, a main content of 50 to 300 words, a voice-over on disk with positive duration, and one usable image per sentence of the same script. |
| `ContentSystem.ScriptPromptListsResearchFacts` | src/main.py:59-65 | The script prompt's fact list reads back as exactly one `- fact` line per researched fact, in order. |
| `ContentSystem.UnknownPlatformCallsNoAgent` | src/main.py:44-46 | An unknown platform returns nothing before any agent runs. |
| `ContentSystem.NoSentenceNoVideo` | src/agents/visual_agent.py:78-80 | A script with no non-blank sentence makes the visual stage answer `None`, and the editor is never called. |

## Left out

- Provider calls are parameters whose behaviour is unknown: `ollama.generate`, `openai.ChatCompletion.acreate`, `openai.Image.acreate` with the download and save, `synthesize_speech`, and moviepy's loading, concatenation and writing. Each either returns a value or fails.
- The file system is a fixed snapshot of three facts per path: exists, opens as an image, video duration. Writes made during a run are not tracked, so whether a file is on disk is read from the snapshot.
- Failures of `os.makedirs` and of writing the voice-over file are not modelled as separate errors. A missing file shows up when the validator checks the snapshot.
- `AudioFileClip` failing on the voice-over path is folded into the renderer's failure.
- `ImageClip` failing on an image path (src/agents/editor_agent.py:118) is folded into the renderer's failure.
- Async/await: the stages run as sequential calls, since one run has no concurrency.
- Logging is left out except for the log records `run` writes. `setup_logging` and the file handlers are side effects only.
- YAML loading (src/main.py:18-21) and agent construction are left out. The configuration and platform profiles are given records.
- Floating point is modelled with exact `real` arithmetic: `len(audio) / 16000`, the per-clip share, and the half-second effects. Rounding is not modelled.
- `hash(script)` in the voice-over file name is a parameter, since Python salts it per interpreter run.
- moviepy's effect semantics are left out. Effects are recorded symbolically on each clip: crossfade in, fade in, fade out.
- The `style` argument of `_generate_ssml` is not used by the source, so the model does not take it.
- front-end/app.py, the Flask layer, is not part of this model.
- Dict values of the wrong type (a Python `TypeError`) are not modelled: a present key always holds the type its producer writes.
- Platform profiles always carry `style`, `max_duration` and `aspect_ratio`, so the `KeyError` of a profile missing one of these is not modelled. An unknown platform is modelled.
- `max_duration` is a whole number of seconds, as in the configuration, so the script prompt prints it with `str(int)`.
- Smooth transitions: the source crossfades both clips of every adjacent pair, so a middle clip receives two crossfade-in effects. The model records both, as the code does, rather than one transition per boundary.
