/** The meaning of a sequential workflow with human gates: one run of one process, the frames it
    hands to a checkpoint when a gate has no answer yet, and what resuming from a frame does. */
module Workflow {
  import opened Values
  import opened Decimals

  /******* Step results *******/

  datatype Usage = Usage(input: int, output: int, cacheCreation: Option<int>, cacheRead: Option<int>)

  datatype StepResult = StepResult(output: Value, metadata: Fields, usage: Option<Usage>)

  /** Completed results by step name, in insertion order. */
  datatype Results = NoResults | Entry(name: string, result: StepResult, rest: Results)

  /** A dictionary store: an existing key keeps its place and takes the new result. */
  function Put(rs: Results, name: string, r: StepResult): Results {
    match rs
    case NoResults => Entry(name, r, NoResults)
    case Entry(n, prev, rest) => if n == name then Entry(n, r, rest) else Entry(n, prev, Put(rest, name, r))
  }

  function AddOptional(a: Option<int>, b: Option<int>): Option<int> {
    if a.None? then b else if b.None? then a else Some(a.value + b.value)
  }

  function AddUsage(a: Option<Usage>, b: Option<Usage>): Option<Usage> {
    if a.None? then b else if b.None? then a else
    Some(Usage(a.value.input + b.value.input, a.value.output + b.value.output,
               AddOptional(a.value.cacheCreation, b.value.cacheCreation),
               AddOptional(a.value.cacheRead, b.value.cacheRead)))
  }

  function SumUsage(rs: Results): Option<Usage> {
    if rs.NoResults? then None else AddUsage(rs.result.usage, SumUsage(rs.rest))
  }

  function OptionalValue(o: Option<int>): Value {
    if o.None? then Null else Num(o.value)
  }

  function UsageValue(u: Option<Usage>): Value {
    if u.None? then Null else
    Model("Usage", Field("input_tokens", Num(u.value.input), Field("output_tokens", Num(u.value.output),
          Field("cache_creation_input_tokens", OptionalValue(u.value.cacheCreation),
          Field("cache_read_input_tokens", OptionalValue(u.value.cacheRead), NoFields)))))
  }

  function ResultValue(r: StepResult): Value {
    Model("StepResult", Field("output", r.output, Field("metadata", Dict(r.metadata),
          Field("usage", UsageValue(r.usage), NoFields))))
  }

  function ResultFields(rs: Results): Fields {
    if rs.NoResults? then NoFields else Field(rs.name, ResultValue(rs.result), ResultFields(rs.rest))
  }

  /** What a workflow returns once its last step has completed. */
  function Finish(output: Value, rs: Results, total: nat): StepResult {
    StepResult(output,
               Field("intermediate_results", Dict(ResultFields(rs)),
               Field("total_steps_executed", Num(total), NoFields)),
               SumUsage(rs))
  }

  /** A result after one trip through a checkpoint: token usage survives as is, values are normalised. */
  function NormResult(r: StepResult): StepResult {
    StepResult(Normalize(r.output), NormalizeFields(r.metadata), r.usage)
  }

  function NormResults(rs: Results): Results {
    if rs.NoResults? then NoResults else Entry(rs.name, NormResult(rs.result), NormResults(rs.rest))
  }

  /******* Human input *******/

  datatype Decision = Approve | Reject | Override | Answer | Escalate | Revise

  datatype Response = Response(decision: Decision, content: Option<string>)

  datatype Request = Request(id: string, prompt: string)

  /** Content that is missing or empty counts as absent. */
  function ContentOr(r: Response, default: string): string {
    if r.content.Some? && r.content.value != "" then r.content.value else default
  }

  function GateResult(r: Response, input: Value): StepResult {
    match r.decision
    case Approve => StepResult(input, NoFields, None)
    case Override =>
      StepResult(if r.content.Some? then Text(r.content.value) else input,
                 Field("modified", Text("True"), NoFields), None)
    case Revise =>
      StepResult(Null, Field("revision_requested", Text("True"),
                       Field("feedback", Text(ContentOr(r, "")), NoFields)), None)
    case _ => Rejected(ContentOr(r, "Rejected by human"))
  }

  function Rejected(reason: string): StepResult {
    StepResult(Null, Field("rejected", Text("True"), Field("reason", Text(reason), NoFields)), None)
  }

  /** The identity of an approval: stable across suspension and resume, one slot per revision. */
  function RequestId(runId: string, gate: string, slot: nat): string {
    runId + ":" + gate + ":" + Decimal(slot)
  }

  /******* Steps and runs *******/

  datatype Returned = Returned(result: StepResult) | Threw(error: string)

  datatype Step =
    | Func(name: string, f: Value -> Returned)
    | Gate(name: string, prompt: Value -> string)
    | Revision(name: string, gate: string, prompt: Value -> string, worker: Value -> Returned,
               brief: (Value, Value, nat, string) -> string, maxRevisions: nat)
    | Sub(name: string, steps: seq<Step>)

  /** Where a workflow stopped; `nested` is the frame of the nested workflow it stopped in. */
  datatype Frame = Frame(index: nat, completed: Results, lastOutput: Value, originalInput: Value,
                         nested: Option<Frame>)

  datatype Outcome =
    | Done(result: StepResult)
    | Suspended(request: Request, frame: Option<Frame>)
    | Raised(error: string)

  /** One step-completion event. */
  datatype Completion = Completion(path: seq<nat>, output: Value)

  /** One execution in one process: how it ended, the completion events it emitted, the cursor frame
      after each of its own completed steps, and the human-input requests it made, each in order. */
  datatype Run = Run(outcome: Outcome, log: seq<Completion>, cursors: seq<Frame>, asked: seq<Request>)

  /** The run identifier, and who answers requests: None means "no answer recorded yet". */
  datatype Env = Env(runId: string, ask: Request -> Option<Response>)

  function RunRevision(env: Env, step: Step, input: Value, current: Value, attempt: nat): Run
    requires step.Revision? && attempt <= step.maxRevisions
    decreases step.maxRevisions - attempt
  {
    match step.worker(current)
    case Threw(e) => Run(Raised(e), [], [], [])
    case Returned(w) =>
      var req := Request(RequestId(env.runId, step.gate, attempt), step.prompt(w.output));
      var reply := env.ask(req);
      if reply.None? then Run(Suspended(req, None), [], [], [req])
      else if reply.value.decision != Revise then Run(Done(GateResult(reply.value, w.output)), [], [], [req])
      else if attempt == step.maxRevisions then Run(Done(Rejected("Maximum revisions exceeded")), [], [], [req])
      else
        var next := Text(step.brief(input, w.output, attempt + 1, ContentOr(reply.value, "")));
        var rest := RunRevision(env, step, input, next, attempt + 1);
        Run(rest.outcome, [], [], [req] + rest.asked)
  }

  function RunStep(env: Env, at: seq<nat>, step: Step, input: Value, nested: Option<Frame>): Run
    decreases step, 0, 0
  {
    match step
    case Func(_, f) =>
      (match f(input)
       case Returned(r) => Run(Done(r), [], [], [])
       case Threw(e) => Run(Raised(e), [], [], []))
    case Gate(name, prompt) =>
      var req := Request(RequestId(env.runId, name, 0), prompt(input));
      var reply := env.ask(req);
      if reply.None? then Run(Suspended(req, None), [], [], [req])
      else Run(Done(GateResult(reply.value, input)), [], [], [req])
    case Revision(_, _, _, _, _, _) => RunRevision(env, step, input, input, 0)
    case Sub(_, steps) =>
      if nested.None? then RunFrom(env, at, steps, 0, input, input, NoResults, None)
      else RunFrom(env, at, steps, nested.value.index, nested.value.lastOutput, input,
                   nested.value.completed, nested.value.nested)
  }

  /** Steps `i` onward, with `cur` the previous output and `rs` the results so far. `nested` is the
      child frame to resume step `i` from, when this is a resume and step `i` is a nested workflow. */
  function RunFrom(env: Env, at: seq<nat>, steps: seq<Step>, i: nat, cur: Value, orig: Value,
                   rs: Results, nested: Option<Frame>): Run
    decreases steps, 1, if i < |steps| then |steps| - i else 0
  {
    if i >= |steps| then Run(Done(Finish(cur, rs, |steps|)), [], [], []) else
    var s := RunStep(env, at + [i], steps[i], cur, nested);
    match s.outcome
    case Suspended(req, child) =>
      Run(Suspended(req, Some(Frame(i, rs, cur, orig, child))), s.log, [], s.asked)
    case Raised(e) => Run(Raised(e), s.log, [], s.asked)
    case Done(r) =>
      var rs' := Put(rs, steps[i].name, r);
      After(s, Completion(at + [i], r.output), Frame(i + 1, rs', r.output, orig, None),
            RunFrom(env, at, steps, i + 1, r.output, orig, rs', None))
  }

  /** A completed step `s` with its completion event and cursor, followed by the rest of the run. */
  function After(s: Run, done: Completion, cursor: Frame, rest: Run): Run {
    Run(rest.outcome, s.log + [done] + rest.log, [cursor] + rest.cursors, s.asked + rest.asked)
  }

  /** Executing a workflow from the top. */
  function Start(env: Env, steps: seq<Step>, input: Value): Run {
    RunFrom(env, [], steps, 0, input, input, NoResults, None)
  }

  /** Executing a workflow from a saved frame. */
  function Resume(env: Env, steps: seq<Step>, f: Frame): Run {
    RunFrom(env, [], steps, f.index, f.lastOutput, f.originalInput, f.completed, f.nested)
  }

  /** The frame as the checkpoint store holds it. */
  function NormFrame(f: Frame): Frame {
    Frame(f.index, NormResults(f.completed), Normalize(f.lastOutput), Normalize(f.originalInput),
          if f.nested.None? then None else Some(NormFrame(f.nested.value)))
  }

  function NormOutcome(o: Outcome): Outcome {
    match o
    case Done(r) => Done(NormResult(r))
    case Suspended(req, f) => Suspended(req, if f.None? then None else Some(NormFrame(f.value)))
    case Raised(_) => o
  }
}
