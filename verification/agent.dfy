/** The agent contract every stage follows (src/agents/base_agent.py): a
    stage-specific `process` that may raise and a stage-specific
    `validate_output`, glued together by the common `run` template that never
    lets an exception out. */
module BaseAgent {
  import opened Wrappers

  /** What a stage's `process` (or a validator) can raise. */
  datatype Exc =
    | ProviderFailure(detail: string)   // the external provider call failed
    | ZeroDivisionError                 // the editor was handed no images
    | MediaFailure(detail: string)      // a media file could not be written or read

  /** The log records `run` writes through the agent's logger. */
  datatype Event =
    | Started
    | Completed
    | ValidationFailed
    | Errored(error: Exc)

  /** What one call of `run` yields: the returned value (`None` on any
      failure), the log it wrote, and the outputs it handed to the validator. */
  datatype RunOutcome<O> = RunOutcome(output: Option<O>, log: seq<Event>, validated: seq<O>)

  /** `BaseAgent.run`. `processed` is what `process(input)` did (returned a
      value or raised); `validate` is the agent's `validate_output`, which may
      itself raise. */
  function Run<O>(processed: Result<O, Exc>, validate: O -> Result<bool, Exc>): (r: RunOutcome<O>)
    // the value is returned exactly when process returned and validation said yes
    ensures r.output.Some? <==> processed.Success? && validate(processed.value) == Success(true)
    // and then it is returned unchanged
    ensures r.output.Some? ==> r.output.value == processed.value
    // validation sees only process's own output, at most once, and never after a raise
    ensures |r.validated| <= 1
    ensures r.validated == [] <==> processed.Failure?
    ensures forall i :: 0 <= i < |r.validated| ==> r.validated[i] == processed.value
    // one start record, then exactly one of success / validation failure / error,
    // the error carrying whichever exception was raised
    ensures |r.log| == 2 && r.log[0] == Started
    ensures r.log[1] == Completed <==> r.output.Some?
    ensures r.log[1] == ValidationFailed <==> processed.Success? && validate(processed.value) == Success(false)
    ensures processed.Failure? ==> r.log[1] == Errored(processed.error)
    ensures processed.Success? && validate(processed.value).Failure? ==>
              r.log[1] == Errored(validate(processed.value).error)
  {
    match processed
    case Failure(e) => RunOutcome(None, [Started, Errored(e)], [])
    case Success(out) =>
      match validate(out)
      case Success(true) => RunOutcome(Some(out), [Started, Completed], [out])
      case Success(false) => RunOutcome(None, [Started, ValidationFailed], [out])
      case Failure(e) => RunOutcome(None, [Started, Errored(e)], [out])
  }

  /** `run` for a stage whose validator cannot raise: the returned value, if
      any, is one the validator accepts. */
  function RunChecked<O>(processed: Result<O, Exc>, valid: O -> bool): (r: Option<O>)
    ensures r.Some? <==> processed.Success? && valid(processed.value)
    ensures r.Some? ==> r.value == processed.value && valid(r.value)
  {
    Run(processed, (o: O) => Success(valid(o))).output
  }

  /** An agent as constructed: its name and the configuration it was given. */
  datatype AgentBase<C> = AgentBase(name: string, config: C)

  /** What `get_status` reports. */
  datatype Status<C> = Status(name: string, status: string, config: C)

  /** `BaseAgent.get_status`: the agent's name, always "active", and the
      configuration it was constructed with. */
  function GetStatus<C>(agent: AgentBase<C>): (s: Status<C>)
    ensures s.name == agent.name
    ensures s.status == "active"
    ensures s.config == agent.config
  {
    Status(agent.name, "active", agent.config)
  }
}
