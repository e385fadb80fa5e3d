/** The research stage (src/agents/research_agent.py): prompt a language
    model for facts and sources about the topic, parse its `FACTS:` /
    `SOURCES:` answer, and accept the result only when every fact can have a
    source. */
module Research {
  import opened Wrappers
  import opened PyStr
  import opened BaseAgent
  import opened Stages
  import opened LineScan

  const Name: string := "research_agent"

  /** `config["agents"]["research"]` */
  datatype ResearchConfig = ResearchConfig(model: string, maxTokens: int, temperature: real)

  /** `ollama.generate(model, prompt)["response"]`: the text a model returns
      for a prompt, or the error it raises. */
  type TextService = (string, string) -> Result<string, Exc>

  function NewAgent(config: ResearchConfig): AgentBase<ResearchConfig> {
    AgentBase(Name, config)
  }

  // ---------------------------------------------------------------------
  // The prompt

  const PromptHead: string := "\n        Research the following historical topic: "
  const PromptPlatform: string := "\n        \n        Requirements:\n        - Target platform: "
  const PromptStyle: string := "\n        - Content style: "
  const PromptRules: string :=
    "\n        - Find 3-5 interesting and verified historical facts"
    + "\n        - Include specific dates and details"
    + "\n        - Ensure facts are engaging for social media"
    + "\n        - Provide reliable sources for each fact"
    + "\n        \n        Format the response as:"
    + "\n        "
  const PromptFactsExample: string := "\n        - [Fact 1]\n        - [Fact 2]\n        ...\n        \n        "
  const PromptSourcesExample: string := "\n        - [Source 1]\n        - [Source 2]\n        ...\n        "

  /** `_construct_research_prompt`: it names the topic, the platform and the
      style, and shows the model both section markers it must answer with. */
  function ResearchPrompt(topic: string, platform: string, style: string): (p: string)
    ensures IsInfix(topic, p)
    ensures IsInfix(platform, p)
    ensures IsInfix(style, p)
    ensures IsInfix("FACTS:", p)
    ensures IsInfix("SOURCES:", p)
  {
    var parts := [PromptHead, topic, PromptPlatform, platform, PromptStyle, style, PromptRules,
                  "FACTS:", PromptFactsExample, "SOURCES:", PromptSourcesExample];
    var p := Concat(parts);
    ConcatHasParts(parts, 1);
    ConcatHasParts(parts, 3);
    ConcatHasParts(parts, 5);
    ConcatHasParts(parts, 7);
    ConcatHasParts(parts, 9);
    p
  }

  // ---------------------------------------------------------------------
  // Parsing the model's answer

  datatype Section = Facts | Sources

  /** How `_process_research` reads one line once it is stripped. */
  datatype Line = Blank | Header(section: Section) | Bullet(text: string) | Other

  function Classify(raw: string): Line {
    var line := Strip(raw);
    if line == "" then Blank
    else if line == "FACTS:" then Header(Facts)
    else if line == "SOURCES:" then Header(Sources)
    else if StartsWith(line, "- ") then Bullet(line[2..])
    else Other
  }

  /** The answer's lines, each classified the way the loop reads it. */
  function Lines(response: string): seq<Line> {
    ClassifiedLines(response, Classify)
  }

  datatype Parsed = Parsed(facts: seq<string>, sources: seq<string>)

  /** The loop state of `_process_research`: the section in force and the
      two lists built so far. */
  datatype ScanState = ScanState(current: Option<Section>, parsed: Parsed)

  const Start: ScanState := ScanState(None, Parsed([], []))

  /** Appends `items` to the list `section` names (nothing when no section is
      in force). */
  function AddTo(p: Parsed, section: Option<Section>, items: seq<string>): Parsed {
    match section
    case None => p
    case Some(Facts) => p.(facts := p.facts + items)
    case Some(Sources) => p.(sources := p.sources + items)
  }

  /** One iteration of the loop in `_process_research`. */
  function Step(line: Line, st: ScanState): ScanState {
    match line
    case Header(s) => ScanState(Some(s), st.parsed)
    case Bullet(t) => ScanState(st.current, AddTo(st.parsed, st.current, [t]))
    case _ => st
  }

  /** The loop of `_process_research` over `lines`. */
  function Scan(lines: seq<Line>, st: ScanState): ScanState {
    Fold(lines, Step, st)
  }

  /** `_process_research`: split on newlines and scan. It collects, in
      order, the text after `- ` of every bullet line under a `FACTS:` header
      as a fact and under a `SOURCES:` header as a source, and nothing else. */
  function ProcessResearch(response: string): (r: Parsed)
    ensures r == ResearchBlocks(Lines(response))
  {
    ScanMatchesBlocks(Lines(response));
    Scan(Lines(response), Start).parsed
  }

  // ---------------------------------------------------------------------
  // An independent reading of the same format, block by block

  /** Texts of the bullet lines among `lines`, in order. */
  function Bullets(lines: seq<Line>): seq<string>
    decreases |lines|
  {
    if |lines| == 0 then []
    else (if lines[0].Bullet? then [lines[0].text] else []) + Bullets(lines[1..])
  }

  predicate IsHeader(line: Line) {
    line.Header?
  }

  /** Position of the last header line, if there is one. */
  function LastHeader(lines: seq<Line>): Option<nat> {
    LastWhere(lines, IsHeader)
  }

  /** The answer read as blocks: each header opens a block whose bullets go
      to the list the header names, in order; blocks with the same header
      accumulate; blank lines, non-bullet lines and everything before the
      first header are ignored. */
  function ResearchBlocks(lines: seq<Line>): Parsed
    decreases |lines|
  {
    match LastHeader(lines)
    case None => Parsed([], [])
    case Some(j) =>
      AddTo(ResearchBlocks(lines[..j]), Some(lines[j].section), Bullets(lines[j + 1..]))
  }

  lemma AddToAppend(p: Parsed, s: Option<Section>, x: seq<string>, y: seq<string>)
    ensures AddTo(AddTo(p, s, x), s, y) == AddTo(p, s, x + y)
  {
    match s
    case None =>
    case Some(Facts) => assert p.facts + x + y == p.facts + (x + y);
    case Some(Sources) => assert p.sources + x + y == p.sources + (x + y);
  }

  /** Without headers the section never changes and only bullets are added. */
  lemma {:induction false} ScanHeaderFree(lines: seq<Line>, st: ScanState)
    requires forall j :: 0 <= j < |lines| ==> !lines[j].Header?
    ensures Scan(lines, st) == ScanState(st.current, AddTo(st.parsed, st.current, Bullets(lines)))
    decreases |lines|
  {
    if |lines| == 0 {
      AddToAppend(st.parsed, st.current, [], []);
      match st.current
      case None =>
      case Some(Facts) => assert st.parsed.facts + [] == st.parsed.facts;
      case Some(Sources) => assert st.parsed.sources + [] == st.parsed.sources;
    } else {
      var head := if lines[0].Bullet? then [lines[0].text] else [];
      var next := ScanState(st.current, AddTo(st.parsed, st.current, head));
      if !lines[0].Bullet? {
        AddToAppend(st.parsed, st.current, [], []);
        match st.current
        case None =>
        case Some(Facts) => assert st.parsed.facts + [] == st.parsed.facts;
        case Some(Sources) => assert st.parsed.sources + [] == st.parsed.sources;
      }
      assert Step(lines[0], st) == next;
      ScanHeaderFree(lines[1..], next);
      AddToAppend(st.parsed, st.current, head, Bullets(lines[1..]));
    }
  }

  /** The loop and the block reading agree on every list of lines. */
  lemma {:induction false} ScanMatchesBlocks(lines: seq<Line>)
    ensures Scan(lines, Start).parsed == ResearchBlocks(lines)
    decreases |lines|
  {
    match LastHeader(lines)
    case None =>
      ScanHeaderFree(lines, Start);
    case Some(j) =>
      var before, header, block := lines[..j], [lines[j]], lines[j + 1..];
      assert lines == before + header + block;
      FoldAppend(before + header, block, Step, Start);
      FoldAppend(before, header, Step, Start);
      ScanMatchesBlocks(before);
      var mid := Scan(before + header, Start);
      assert mid == ScanState(Some(lines[j].section), ResearchBlocks(before));
      ScanHeaderFree(block, mid);
  }

  /** An answer without a `FACTS:` or `SOURCES:` line yields no facts and no
      sources, whatever bullets it holds. */
  lemma ProcessResearchNeedsHeaders(response: string)
    requires forall j :: 0 <= j < |Lines(response)| ==> !Lines(response)[j].Header?
    ensures ProcessResearch(response) == Parsed([], [])
  {
    ScanHeaderFree(Lines(response), Start);
  }

  /** Every bullet text lies on one line. */
  predicate BulletsSingleLine(lines: seq<Line>) {
    forall j :: 0 <= j < |lines| && lines[j].Bullet? ==> '\n' !in lines[j].text
  }

  predicate SingleLines(texts: seq<string>) {
    forall i :: 0 <= i < |texts| ==> '\n' !in texts[i]
  }

  lemma LinesAreSingleLine(response: string)
    ensures BulletsSingleLine(Lines(response))
  {
  }

  lemma {:induction false} ScanKeepsSingleLine(lines: seq<Line>, st: ScanState)
    requires BulletsSingleLine(lines)
    requires SingleLines(st.parsed.facts) && SingleLines(st.parsed.sources)
    ensures SingleLines(Scan(lines, st).parsed.facts) && SingleLines(Scan(lines, st).parsed.sources)
    decreases |lines|
  {
    if |lines| > 0 {
      assert BulletsSingleLine(lines[1..]) by {
        forall j | 0 <= j < |lines[1..]| && lines[1..][j].Bullet?
          ensures '\n' !in lines[1..][j].text
        {
          assert lines[1..][j] == lines[j + 1];
        }
      }
      ScanKeepsSingleLine(lines[1..], Step(lines[0], st));
    }
  }

  /** No fact and no source spans several lines: each comes from one line
      of the answer. */
  lemma ParsedSingleLine(response: string)
    ensures SingleLines(ProcessResearch(response).facts)
    ensures SingleLines(ProcessResearch(response).sources)
  {
    LinesAreSingleLine(response);
    ScanKeepsSingleLine(Lines(response), Start);
  }

  // ---------------------------------------------------------------------
  // process, validate_output, run

  function ResearchMetadata(config: ResearchConfig, input: ResearchInput): Metadata {
    map["topic" := Text(input.topic), "platform" := Text(input.platform),
        "style" := Text(input.style), "model" := Text(config.model)]
  }

  /** `ResearchAgent.process`: one call of the language model on the research
      prompt; its answer parsed into facts and sources. */
  function Process(config: ResearchConfig, generate: TextService, input: ResearchInput): (r: Result<ResearchOutput, Exc>)
    ensures r.Failure? <==> generate(config.model, ResearchPrompt(input.topic, input.platform, input.style)).Failure?
    ensures r.Success? ==> r.value.facts.Some? && r.value.sources.Some? && r.value.metadata.Some?
    ensures r.Success? ==>
              var p := ProcessResearch(generate(config.model, ResearchPrompt(input.topic, input.platform, input.style)).value);
              r.value.facts == Some(p.facts) && r.value.sources == Some(p.sources)
    ensures r.Success? ==> var m := r.value.metadata.value;
      && m.Keys == {"topic", "platform", "style", "model"}
      && m["topic"] == Text(input.topic) && m["platform"] == Text(input.platform)
      && m["style"] == Text(input.style) && m["model"] == Text(config.model)
  {
    match generate(config.model, ResearchPrompt(input.topic, input.platform, input.style))
    case Failure(e) => Failure(e)
    case Success(response) =>
      var parsed := ProcessResearch(response);
      Success(ResearchOutput(Some(parsed.facts), Some(parsed.sources), Some(ResearchMetadata(config, input))))
  }

  /** `ResearchAgent.validate_output`. */
  function Validate(o: ResearchOutput): (ok: bool)
    ensures o.facts.None? || o.sources.None? || o.metadata.None? ==> !ok
    ensures o.facts.Some? && |o.facts.value| == 0 ==> !ok
    ensures o.sources.Some? && |o.sources.value| == 0 ==> !ok
    ensures o.facts.Some? && o.sources.Some? && |o.facts.value| > |o.sources.value| ==> !ok
    ensures (o.facts.Some? && o.sources.Some? && o.metadata.Some?
             && 0 < |o.facts.value| <= |o.sources.value|) ==> ok
  {
    if !(o.facts.Some? && o.sources.Some? && o.metadata.Some?) then false
    else if |o.facts.value| == 0 || |o.sources.value| == 0 then false
    else if |o.facts.value| > |o.sources.value| then false
    else true
  }

  /** The three cases of the validator's unit test. */
  lemma ValidateExamples()
    ensures Validate(ResearchOutput(Some(["Fact 1", "Fact 2"]), Some(["Source 1", "Source 2"]),
                                    Some(map["topic" := Text("Test Topic"), "platform" := Text("Test Platform"),
                                             "style" := Text("Test Style")])))
    ensures !Validate(ResearchOutput(Some(["Fact 1"]), Some(["Source 1"]), None))
    ensures !Validate(ResearchOutput(Some([]), Some(["Source 1"]), Some(map[])))
  {
  }

  /** `ResearchAgent.run`: a value comes back only when the model answered
      and the parsed answer has at least one fact and no fewer sources than
      facts. */
  function Run(config: ResearchConfig, generate: TextService, input: ResearchInput): (r: Option<ResearchOutput>)
    ensures r.Some? <==>
      var answer := generate(config.model, ResearchPrompt(input.topic, input.platform, input.style));
      answer.Success? &&
      var parsed := ProcessResearch(answer.value);
      0 < |parsed.facts| <= |parsed.sources|
    ensures r.Some? ==>
      var parsed := ProcessResearch(generate(config.model, ResearchPrompt(input.topic, input.platform, input.style)).value);
      r.value.facts == Some(parsed.facts) && r.value.sources == Some(parsed.sources)
    ensures r.Some? ==> Validate(r.value) && r.value.metadata == Some(ResearchMetadata(config, input))
  {
    RunChecked(Process(config, generate, input), Validate)
  }
}
