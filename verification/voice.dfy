/** The voice stage (src/agents/voice_agent.py): the script becomes SSML —
    one part per sentence, long sentences with their first and last words
    emphasised, parts separated by half-second breaks — which is synthesised
    into an MP3 whose length gives an approximate duration. */
module Voice {
  import opened Wrappers
  import opened PyStr
  import opened BaseAgent
  import opened Stages
  import opened SentenceSplit

  const Name: string := "voice_agent"

  /** `config["agents"]["voice"]` */
  datatype VoiceConfig = VoiceConfig(provider: string, voiceId: string, speakingRate: real)

  datatype Gender = Female
  datatype Encoding = Mp3

  /** The synthesis input, voice selection and audio configuration handed to
      `synthesize_speech`. */
  datatype SpeechRequest = SpeechRequest(
    ssml: string,
    languageCode: string,
    voiceName: string,
    gender: Gender,
    encoding: Encoding,
    speakingRate: real,
    pitch: real)

  /** The Text-to-Speech client: the audio bytes, or the error it raises. */
  type Synthesizer = SpeechRequest -> Result<seq<bv8>, Exc>

  /** Python's built-in `hash` of a string (salted per interpreter run). */
  type Hasher = string -> int

  function NewAgent(config: VoiceConfig): AgentBase<VoiceConfig> {
    AgentBase(Name, config)
  }

  // ---------------------------------------------------------------------
  // SSML

  /** Sentences with more than this many words get emphasis. */
  const EmphasisThreshold: nat := 5

  const EmphasisOpen: string := "<emphasis level='moderate'>"
  const EmphasisClose: string := "</emphasis>"
  const Break: string := "<break time='500ms'/>"

  function Emphasize(w: string): string {
    EmphasisOpen + w + EmphasisClose
  }

  /** The word rewrite of `_generate_ssml`: in a list of more than five
      words the first and the last are wrapped in emphasis tags; the others,
      and every word of a shorter list, are left alone. */
  function EmphasizeEnds(words: seq<string>): (r: seq<string>)
    ensures |r| == |words|
    ensures |words| <= EmphasisThreshold ==> r == words
    ensures |words| > EmphasisThreshold ==>
              && r[0] == Emphasize(words[0])
              && r[|r| - 1] == Emphasize(words[|words| - 1])
              && forall i :: 0 < i < |words| - 1 ==> r[i] == words[i]
  {
    if |words| > EmphasisThreshold then
      [Emphasize(words[0])] + words[1..|words| - 1] + [Emphasize(words[|words| - 1])]
    else words
  }

  /** The SSML text of one sentence. */
  function SsmlPart(sentence: string): string {
    Join(EmphasizeEnds(Words(sentence)), " ")
  }

  const SsmlHead: string := "\n        <speak>\n            "
  const SsmlTail: string := "\n        </speak>\n        "

  /** `_generate_ssml`: one part per sentence of the script, in order. The
      style argument of the source is not used by it. */
  function SsmlParts(script: string): (parts: seq<string>)
    ensures |parts| == |Sentences(script)|
    ensures forall i :: 0 <= i < |parts| ==> parts[i] == SsmlPart(Sentences(script)[i])
  {
    var ss := Sentences(script);
    seq(|ss|, i requires 0 <= i < |ss| => SsmlPart(ss[i]))
  }

  function Ssml(script: string): (ssml: string)
    ensures StartsWith(ssml, SsmlHead) && EndsWith(ssml, SsmlTail)
  {
    SsmlHead + Join(SsmlParts(script), Break) + SsmlTail
  }

  /** Every sentence's SSML part is in the document. */
  lemma SsmlHasEverySentence(script: string)
    ensures forall k :: 0 <= k < |Sentences(script)| ==> IsInfix(SsmlPart(Sentences(script)[k]), Ssml(script))
  {
    var parts := SsmlParts(script);
    forall k | 0 <= k < |Sentences(script)|
      ensures IsInfix(SsmlPart(Sentences(script)[k]), Ssml(script))
    {
      JoinHasParts(parts, Break, k);
      InfixExtend(parts[k], SsmlHead, Join(parts, Break), SsmlTail);
    }
  }

  /** The parts follow the sentences' order: each sentence's part is
      followed directly by the pause and then the next sentence's part. */
  lemma SsmlPartsInOrder(script: string, k: nat)
    requires k + 1 < |Sentences(script)|
    ensures var ss := Sentences(script);
            IsInfix(SsmlPart(ss[k]) + Break + SsmlPart(ss[k + 1]), Ssml(script))
  {
    var parts := SsmlParts(script);
    JoinAdjacent(parts, Break, k);
    InfixExtend(parts[k] + Break + parts[k + 1], SsmlHead, Join(parts, Break), SsmlTail);
  }

  /** A sentence of up to five words keeps exactly its words: its part is
      those words single-spaced, with no markup added. */
  lemma ShortSentenceUnmarked(sentence: string)
    requires |Words(sentence)| <= EmphasisThreshold
    ensures Words(SsmlPart(sentence)) == Words(sentence)
  {
    WordsJoin(Words(sentence));
  }

  /** A longer sentence's part opens with its emphasised first word and
      closes with its emphasised last word. */
  lemma LongSentenceEmphasized(sentence: string)
    requires |Words(sentence)| > EmphasisThreshold
    ensures var ws := Words(sentence);
            && StartsWith(SsmlPart(sentence), Emphasize(ws[0]))
            && EndsWith(SsmlPart(sentence), Emphasize(ws[|ws| - 1]))
  {
    var marked := EmphasizeEnds(Words(sentence));
    JoinFirst(marked, " ");
    JoinLast(marked, " ");
  }

  /** For text without markup of its own, the part carries a tag exactly
      when the sentence has more than five words. */
  lemma EmphasisOnlyOnLongSentences(sentence: string)
    requires '<' !in sentence
    ensures '<' in SsmlPart(sentence) <==> |Words(sentence)| > EmphasisThreshold
  {
    var ws := Words(sentence);
    var marked := EmphasizeEnds(ws);
    JoinChar(marked, " ", '<');
    if |ws| > EmphasisThreshold {
      assert marked[0][0] == '<';
    } else {
      forall i | 0 <= i < |marked|
        ensures '<' !in marked[i]
      {
        if '<' in marked[i] {
          WordsChars(sentence, i, '<');
        }
      }
    }
  }

  // ---------------------------------------------------------------------
  // process, validate_output, run

  function Request(config: VoiceConfig, script: string): SpeechRequest {
    SpeechRequest(Ssml(script), "en-US", config.voiceId, Female, Mp3, config.speakingRate, 0.0)
  }

  /** Bytes per second the source assumes when estimating the duration. */
  const BytesPerSecond: real := 16000.0

  /** The approximate duration of `audio`: its length over 16000. */
  function AudioDuration(audio: seq<bv8>): (d: real)
    ensures d >= 0.0
    ensures d > 0.0 <==> |audio| > 0
    ensures d * BytesPerSecond == |audio| as real
  {
    |audio| as real / BytesPerSecond
  }

  /** The file the audio is written to. */
  function AudioPath(hash: Hasher, platform: string, script: string): string {
    "output/audio/voiceover_" + platform + "_" + IntToString(hash(script)) + ".mp3"
  }

  function VoiceMetadata(config: VoiceConfig, input: VoiceInput): Metadata {
    map["platform" := Text(input.platform), "style" := Text(input.style),
        "voice_id" := Text(config.voiceId), "speaking_rate" := Real(config.speakingRate)]
  }

  /** `VoiceAgent.process`: one synthesis call on the script's SSML with the
      configured voice; the output names the audio file and its estimated
      duration. */
  function Process(config: VoiceConfig, synthesize: Synthesizer, hash: Hasher, input: VoiceInput): (r: Result<VoiceOutput, Exc>)
    ensures r.Failure? <==> synthesize(Request(config, input.script)).Failure?
    ensures r.Success? ==>
      var audio := synthesize(Request(config, input.script)).value;
      && r.value.audioPath == Some(AudioPath(hash, input.platform, input.script))
      && r.value.duration == Some(AudioDuration(audio))
      && r.value.metadata == Some(VoiceMetadata(config, input))
  {
    match synthesize(Request(config, input.script))
    case Failure(e) => Failure(e)
    case Success(audio) =>
      Success(VoiceOutput(Some(AudioPath(hash, input.platform, input.script)),
                          Some(AudioDuration(audio)),
                          Some(VoiceMetadata(config, input))))
  }

  /** `VoiceAgent.validate_output`: all three keys, the file on disk, and a
      positive duration. */
  function Validate(fs: FileSystem, o: VoiceOutput): (ok: bool)
    ensures o.audioPath.None? || o.duration.None? || o.metadata.None? ==> !ok
    ensures o.audioPath.Some? && !fs.fileExists(o.audioPath.value) ==> !ok
    ensures o.duration.Some? && o.duration.value <= 0.0 ==> !ok
    ensures (&& o.audioPath.Some? && o.duration.Some? && o.metadata.Some?
             && fs.fileExists(o.audioPath.value) && o.duration.value > 0.0) ==> ok
  {
    if !(o.audioPath.Some? && o.duration.Some? && o.metadata.Some?) then false
    else if !fs.fileExists(o.audioPath.value) then false
    else if o.duration.value <= 0.0 then false
    else true
  }

  /** `VoiceAgent.run`: a value comes back exactly when synthesis succeeded,
      produced at least one byte, and the audio file is on disk. */
  function Run(config: VoiceConfig, synthesize: Synthesizer, hash: Hasher, fs: FileSystem,
               input: VoiceInput): (r: Option<VoiceOutput>)
    ensures var answer := synthesize(Request(config, input.script));
            r.Some? <==> (&& answer.Success? && |answer.value| > 0
                          && fs.fileExists(AudioPath(hash, input.platform, input.script)))
    ensures r.Some? ==> r.value.audioPath == Some(AudioPath(hash, input.platform, input.script))
    ensures r.Some? ==> r.value.duration.Some? && r.value.duration.value > 0.0
    ensures r.Some? ==> r.value.metadata == Some(VoiceMetadata(config, input))
  {
    RunChecked(Process(config, synthesize, hash, input), (o: VoiceOutput) => Validate(fs, o))
  }
}
