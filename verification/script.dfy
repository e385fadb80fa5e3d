/** The script stage (src/agents/script_agent.py): prompt a chat model with
    the researched facts, cut its answer into hook, main content and call to
    action, and accept the result only when all three are present and the
    main content has a speakable length. */
module Script {
  import opened Wrappers
  import opened PyStr
  import opened BaseAgent
  import opened Stages
  import opened LineScan

  const Name: string := "script_agent"

  /** `config["agents"]["script"]` */
  datatype ScriptConfig = ScriptConfig(model: string, maxTokens: int, temperature: real)

  datatype Message = Message(role: string, content: string)

  /** The arguments of `openai.ChatCompletion.acreate`. */
  datatype ChatRequest = ChatRequest(model: string, messages: seq<Message>, maxTokens: int, temperature: real)

  /** The chat provider: the first choice's message text, or the error raised. */
  type ChatService = ChatRequest -> Result<string, Exc>

  const SystemPrompt: string := "You are a creative scriptwriter specializing in educational content."

  /** Fewest and most words of main content `validate_output` accepts. */
  const MinWords: nat := 50
  const MaxWords: nat := 300

  function NewAgent(config: ScriptConfig): AgentBase<ScriptConfig> {
    AgentBase(Name, config)
  }

  // ---------------------------------------------------------------------
  // The prompt

  /** The `- fact` lines of the prompt, one per fact, in order. */
  function FactLines(facts: seq<string>): (ls: seq<string>)
    ensures |ls| == |facts|
    ensures forall i :: 0 <= i < |facts| ==> ls[i] == "- " + facts[i]
  {
    seq(|facts|, i requires 0 <= i < |facts| => "- " + facts[i])
  }

  /** `facts_text` */
  function FactsText(facts: seq<string>): string {
    Join(FactLines(facts), "\n")
  }

  /** Reading `facts_text` back line by line gives one `- fact` line per fact,
      in order, as long as no fact spans several lines. */
  lemma FactsTextLines(facts: seq<string>)
    requires |facts| > 0
    requires forall i :: 0 <= i < |facts| ==> '\n' !in facts[i]
    ensures SplitOn(FactsText(facts), '\n') == FactLines(facts)
  {
    var ls := FactLines(facts);
    forall i | 0 <= i < |ls|
      ensures '\n' !in ls[i]
    {
      assert ls[i] == "- " + facts[i];
    }
    SplitJoin(ls, '\n');
  }

  const PromptHead: string := "\n        Create an engaging script for a "
  const PromptFacts: string := " video about these historical facts:\n        \n        "
  const PromptPlatform: string := "\n        \n        Requirements:\n        - Target platform: "
  const PromptStyle: string := "\n        - Content style: "
  const PromptDuration: string := "\n        - Duration: "
  const PromptTail: string :=
    " seconds"
    + "\n        - Include a hook that grabs attention"
    + "\n        - Make the content engaging and educational"
    + "\n        - End with a call to action"
    + "\n        \n        Format the response as:"
    + "\n        HOOK:\n        [Attention-grabbing opening]"
    + "\n        \n        MAIN CONTENT:\n        [Engaging script that presents the facts]"
    + "\n        \n        CALL TO ACTION:\n        [Engaging closing statement]"
    + "\n        "

  /** `_construct_script_prompt`: it carries the fact lines, the platform,
      the style and the target duration in seconds. */
  function ScriptPrompt(facts: seq<string>, platform: string, style: string, duration: nat): (p: string)
    ensures IsInfix(FactsText(facts), p)
    ensures IsInfix(platform, p)
    ensures IsInfix(style, p)
    ensures IsInfix(NatToString(duration), p)
  {
    var parts := [PromptHead, platform, PromptFacts, FactsText(facts), PromptPlatform, platform,
                  PromptStyle, style, PromptDuration, NatToString(duration), PromptTail];
    ConcatHasParts(parts, 1);
    ConcatHasParts(parts, 3);
    ConcatHasParts(parts, 7);
    ConcatHasParts(parts, 9);
    Concat(parts)
  }

  function Request(config: ScriptConfig, prompt: string): ChatRequest {
    ChatRequest(config.model, [Message("system", SystemPrompt), Message("user", prompt)],
                config.maxTokens, config.temperature)
  }

  // ---------------------------------------------------------------------
  // Parsing the model's answer

  datatype Part = Hook | MainContent | CallToAction

  /** How `_process_script` reads one line once it is stripped. */
  datatype Line = Blank | Header(part: Part) | Content(text: string)

  function Classify(raw: string): Line {
    var line := Strip(raw);
    if line == "" then Blank
    else if line == "HOOK:" then Header(Hook)
    else if line == "MAIN CONTENT:" then Header(MainContent)
    else if line == "CALL TO ACTION:" then Header(CallToAction)
    else Content(line)
  }

  /** The answer's lines, each classified the way the loop reads it. */
  function Lines(response: string): seq<Line> {
    ClassifiedLines(response, Classify)
  }

  /** The `script_parts` dict. */
  datatype ScriptParts = ScriptParts(hook: string, mainContent: string, callToAction: string) {
    function Get(p: Part): string {
      match p
      case Hook => hook
      case MainContent => mainContent
      case CallToAction => callToAction
    }

    /** `script_parts[p] = text`: that part changes, the others do not. */
    function Set(p: Part, text: string): (r: ScriptParts)
      ensures r.Get(p) == text
      ensures forall q :: q != p ==> r.Get(q) == Get(q)
    {
      match p
      case Hook => this.(hook := text)
      case MainContent => this.(mainContent := text)
      case CallToAction => this.(callToAction := text)
    }
  }

  const NoParts: ScriptParts := ScriptParts("", "", "")

  /** The loop state of `_process_script`. */
  datatype ScanState = ScanState(current: Option<Part>, content: seq<string>, parts: ScriptParts)

  const Start: ScanState := ScanState(None, [], NoParts)

  /** Store the lines gathered so far under the current section, if any. */
  function Flush(st: ScanState): ScriptParts {
    match st.current
    case None => st.parts
    case Some(p) => st.parts.Set(p, Join(st.content, "\n"))
  }

  /** One iteration of the loop in `_process_script`. */
  function Step(line: Line, st: ScanState): ScanState {
    match line
    case Blank => st
    case Header(p) => ScanState(Some(p), [], Flush(st))
    case Content(t) => st.(content := st.content + [t])
  }

  function Scan(lines: seq<Line>, st: ScanState): ScanState {
    Fold(lines, Step, st)
  }

  /** `_process_script`: the loop, then the last section stored. Each part
      holds the content lines of the last block that part's header opened. */
  function ProcessScript(response: string): (r: ScriptParts)
    ensures r == ScriptBlocks(Lines(response))
  {
    ScanMatchesBlocks(Lines(response));
    Flush(Scan(Lines(response), Start))
  }

  // ---------------------------------------------------------------------
  // An independent reading of the same format, block by block

  /** Texts of the content lines among `lines`, in order. */
  function ContentOf(lines: seq<Line>): seq<string>
    decreases |lines|
  {
    if |lines| == 0 then []
    else (if lines[0].Content? then [lines[0].text] else []) + ContentOf(lines[1..])
  }

  predicate IsHeader(line: Line) {
    line.Header?
  }

  /** Position of the last header line, if there is one. */
  function LastHeader(lines: seq<Line>): Option<nat> {
    LastWhere(lines, IsHeader)
  }

  /** The answer read as blocks: the last block opened by a header sets that
      part to its content lines joined by newlines; earlier blocks are read
      the same way; lines before the first header belong to no part. */
  function ScriptBlocks(lines: seq<Line>): ScriptParts
    decreases |lines|
  {
    match LastHeader(lines)
    case None => NoParts
    case Some(j) => ScriptBlocks(lines[..j]).Set(lines[j].part, Join(ContentOf(lines[j + 1..]), "\n"))
  }

  /** Without headers the loop only gathers content lines. */
  lemma {:induction false} ScanHeaderFree(lines: seq<Line>, st: ScanState)
    requires forall j :: 0 <= j < |lines| ==> !lines[j].Header?
    ensures Scan(lines, st) == st.(content := st.content + ContentOf(lines))
    decreases |lines|
  {
    if |lines| == 0 {
      assert st.content + [] == st.content;
    } else {
      var head := if lines[0].Content? then [lines[0].text] else [];
      assert Step(lines[0], st) == st.(content := st.content + head);
      ScanHeaderFree(lines[1..], st.(content := st.content + head));
      assert st.content + head + ContentOf(lines[1..]) == st.content + ContentOf(lines);
    }
  }

  /** The loop and the block reading agree on every list of lines. */
  lemma {:induction false} ScanMatchesBlocks(lines: seq<Line>)
    ensures Flush(Scan(lines, Start)) == ScriptBlocks(lines)
    decreases |lines|
  {
    match LastHeader(lines)
    case None =>
      ScanHeaderFree(lines, Start);
    case Some(j) =>
      var before, header, block := lines[..j], [lines[j]], lines[j + 1..];
      assert lines == before + header + block;
      FoldAppend(before + header, block, Step, Start);
      FoldAppend(before, header, Step, Start);
      ScanMatchesBlocks(before);
      var mid := Scan(before + header, Start);
      assert mid == ScanState(Some(lines[j].part), [], ScriptBlocks(before));
      ScanHeaderFree(block, mid);
      assert [] + ContentOf(block) == ContentOf(block);
  }

  /** A part whose header never appears stays empty. */
  lemma {:induction false} MissingHeaderLeavesPartEmpty(lines: seq<Line>, p: Part)
    requires forall j :: 0 <= j < |lines| ==> lines[j] != Header(p)
    ensures ScriptBlocks(lines).Get(p) == ""
    decreases |lines|
  {
    match LastHeader(lines)
    case None =>
    case Some(j) =>
      MissingHeaderLeavesPartEmpty(lines[..j], p);
  }

  /** A part holds the content of the block after its last header, up to the
      next header or the end: a repeated header overwrites the earlier block,
      header lines never reach a part, and blank lines are dropped. */
  lemma {:induction false} LastBlockWins(lines: seq<Line>, p: Part, j: nat, k: nat)
    requires j < k <= |lines|
    requires lines[j] == Header(p)
    requires forall i :: j < i < |lines| ==> lines[i] != Header(p)
    requires forall i :: j < i < k ==> !lines[i].Header?
    requires k == |lines| || lines[k].Header?
    ensures ScriptBlocks(lines).Get(p) == Join(ContentOf(lines[j + 1..k]), "\n")
    decreases |lines|
  {
    var last := LastHeader(lines).value;
    assert j <= last;
    if last == j {
      assert k == |lines|;
      assert lines[j + 1..k] == lines[j + 1..];
      assert ScriptBlocks(lines) == ScriptBlocks(lines[..j]).Set(p, Join(ContentOf(lines[j + 1..]), "\n"));
    } else {
      assert lines[last].part != p;
      assert last >= k;
      var before := lines[..last];
      assert before[j + 1..k] == lines[j + 1..k];
      LastBlockWins(before, p, j, k);
    }
  }

  // ---------------------------------------------------------------------
  // process, validate_output, run

  function ScriptMetadata(config: ScriptConfig, input: ScriptInput): Metadata {
    map["platform" := Text(input.platform), "style" := Text(input.style),
        "duration" := Int(input.duration), "model" := Text(config.model)]
  }

  /** `ScriptAgent.process`: one chat call on the script prompt; the main
      content becomes `script`, hook and call to action keep their names. */
  function Process(config: ScriptConfig, chat: ChatService, input: ScriptInput): (r: Result<ScriptOutput, Exc>)
    ensures var answer := chat(Request(config, ScriptPrompt(input.facts, input.platform, input.style, input.duration)));
      && (r.Failure? <==> answer.Failure?)
      && (r.Success? ==>
            var parts := ProcessScript(answer.value);
            && r.value.script == Some(parts.mainContent)
            && r.value.hook == Some(parts.hook)
            && r.value.callToAction == Some(parts.callToAction))
    ensures r.Success? ==> r.value.metadata == Some(ScriptMetadata(config, input))
  {
    var prompt := ScriptPrompt(input.facts, input.platform, input.style, input.duration);
    match chat(Request(config, prompt))
    case Failure(e) => Failure(e)
    case Success(answer) =>
      var parts := ProcessScript(answer);
      Success(ScriptOutput(Some(parts.mainContent), Some(parts.hook), Some(parts.callToAction),
                           Some(ScriptMetadata(config, input))))
  }

  /** `ScriptAgent.validate_output`. */
  function Validate(o: ScriptOutput): (ok: bool)
    ensures o.script.None? || o.hook.None? || o.callToAction.None? || o.metadata.None? ==> !ok
    ensures o.script == Some("") || o.hook == Some("") || o.callToAction == Some("") ==> !ok
    ensures o.script.Some? && (|Words(o.script.value)| < MinWords || |Words(o.script.value)| > MaxWords) ==> !ok
    ensures (&& o.script.Some? && o.hook.Some? && o.callToAction.Some? && o.metadata.Some?
             && o.hook.value != "" && o.callToAction.value != ""
             && MinWords <= |Words(o.script.value)| <= MaxWords) ==> ok
  {
    if !(o.script.Some? && o.hook.Some? && o.callToAction.Some? && o.metadata.Some?) then false
    else if o.script.value == "" || o.hook.value == "" || o.callToAction.value == "" then false
    else
      var words := |Words(o.script.value)|;
      if words < MinWords || words > MaxWords then false
      else true
  }

  /** `ScriptAgent.run`: a value comes back only when the chat call answered
      with a non-empty hook and call to action and a main content of 50 to
      300 words. */
  function Run(config: ScriptConfig, chat: ChatService, input: ScriptInput): (r: Option<ScriptOutput>)
    ensures var answer := chat(Request(config, ScriptPrompt(input.facts, input.platform, input.style, input.duration)));
      r.Some? <==>
        && answer.Success?
        && var parts := ProcessScript(answer.value);
        && parts.hook != "" && parts.callToAction != ""
        && MinWords <= |Words(parts.mainContent)| <= MaxWords
    ensures r.Some? ==>
      var parts := ProcessScript(chat(Request(config, ScriptPrompt(input.facts, input.platform, input.style, input.duration))).value);
      && r.value.script == Some(parts.mainContent)
      && r.value.hook == Some(parts.hook)
      && r.value.callToAction == Some(parts.callToAction)
    ensures r.Some? ==> Validate(r.value) && r.value.metadata == Some(ScriptMetadata(config, input))
  {
    RunChecked(Process(config, chat, input), Validate)
  }
}
