/** Where durable runs and uninterrupted runs part, stated exactly. */
module DurabilityLimits {
  import opened Values
  import opened Workflow
  import opened Resumption
  import opened Requests
  import opened Durability

  /******* Model instances do not survive a checkpoint *******/

  function Approving(): Request -> Response {
    r => Response(Approve, None)
  }

  /** A gate in front of one user function. */
  function GateThen(name: string, prompt: Value -> string, g: Value -> Returned): seq<Step> {
    [Gate(name, prompt), Func("next", g)]
  }

  ghost predicate SameEnding(runId: string, human: Request -> Response, steps: seq<Step>, input: Value, resumes: nat) {
    NormOutcome(Start(Live(runId, human), steps, input).outcome)
      == NormOutcome(Chain(runId, human, steps, input, resumes).run.outcome)
  }

  lemma {:induction false} LastStep(env: Env, steps: seq<Step>, input: Value, orig: Value, rs: Results)
    requires |steps| == 2 && steps[1].Func?
    ensures var o := RunFrom(env, [], steps, 1, input, orig, rs, None).outcome;
            match steps[1].f(input)
            case Returned(r) => o == Done(Finish(r.output, Put(rs, steps[1].name, r), 2))
            case Threw(e) => o == Raised(e)
  {
    RunUnfold(env, [], steps, 1, input, orig, rs, None);
  }

  lemma {:induction false} GateThenRuns(runId: string, name: string, prompt: Value -> string, g: Value -> Returned,
                                        v: Value)
    ensures var steps := GateThen(name, prompt, g);
            var rs := Entry(name, StepResult(v, NoFields, None), NoResults);
            var rs' := Entry(name, StepResult(Normalize(v), NoFields, None), NoResults);
            && Start(Live(runId, Approving()), steps, v).outcome
                 == RunFrom(Live(runId, Approving()), [], steps, 1, v, v, rs, None).outcome
            && Chain(runId, Approving(), steps, v, 1).run.outcome
                 == RunFrom(Recorded(runId, Chain(runId, Approving(), steps, v, 1).answers), [], steps, 1,
                            Normalize(v), Normalize(v), rs', None).outcome
  {
    var steps := GateThen(name, prompt, g);
    RunUnfold(Live(runId, Approving()), [], steps, 0, v, v, NoResults, None);
    RunUnfold(Recorded(runId, map[]), [], steps, 0, v, v, NoResults, None);
    var p := Chain(runId, Approving(), steps, v, 0);
    assert p.run.outcome.frame == Some(Frame(0, NoResults, v, v, None));
    assert NormFrame(p.run.outcome.frame.value) == Frame(0, NoResults, Normalize(v), Normalize(v), None);
    var q := Chain(runId, Approving(), steps, v, 1);
    RunUnfold(Recorded(runId, q.answers), [], steps, 0, Normalize(v), Normalize(v), NoResults, None);
  }

  /** An approved gate hands its input on unchanged across a suspension exactly when no model instance is
      inside: otherwise some later function can tell the two runs apart. */
  lemma {:induction false} GateKeepsInputIffPlain(runId: string, name: string, prompt: Value -> string, v: Value)
    ensures (forall g: Value -> Returned :: SameEnding(runId, Approving(), GateThen(name, prompt, g), v, 1)) <==> Plain(v)
  {
    NormalizeFixesExactlyPlain(v);
    if Plain(v) {
      forall g: Value -> Returned ensures SameEnding(runId, Approving(), GateThen(name, prompt, g), v, 1) {
        var steps := GateThen(name, prompt, g);
        GateThenRuns(runId, name, prompt, g, v);
        var rs := Entry(name, StepResult(v, NoFields, None), NoResults);
        LastStep(Live(runId, Approving()), steps, v, v, rs);
        LastStep(Recorded(runId, Chain(runId, Approving(), steps, v, 1).answers), steps, v, v, rs);
      }
    } else {
      var g := (x: Value) => if x == v then Threw("same") else Threw("other");
      var steps := GateThen(name, prompt, g);
      GateThenRuns(runId, name, prompt, g, v);
      var rs := Entry(name, StepResult(v, NoFields, None), NoResults);
      var rs' := Entry(name, StepResult(Normalize(v), NoFields, None), NoResults);
      LastStep(Live(runId, Approving()), steps, v, v, rs);
      LastStep(Recorded(runId, Chain(runId, Approving(), steps, v, 1).answers), steps, Normalize(v), Normalize(v), rs');
      assert !SameEnding(runId, Approving(), steps, v, 1);
    }
  }

  /******* Gates that share a name share an answer *******/

  function TwoGates(a: string, p: string, b: string, q: string): seq<Step> {
    [Gate(a, (v: Value) => p), Gate(b, (v: Value) => q)]
  }

  lemma {:induction false} TwoGatesAsk(env: Env, a: string, p: string, b: string, q: string, v: Value)
    requires forall r :: env.ask(r).Some?
    ensures var ra, rb := Request(RequestId(env.runId, a, 0), p), Request(RequestId(env.runId, b, 0), q);
            var run := Start(env, TwoGates(a, p, b, q), v);
            && run.asked == [ra, rb] && run.outcome.Done?
            && run.outcome.result.output
                 == GateResult(env.ask(rb).value, GateResult(env.ask(ra).value, v).output).output
  {
    var steps := TwoGates(a, p, b, q);
    RunUnfold(env, [], steps, 0, v, v, NoResults, None);
    var r := GateResult(env.ask(Request(RequestId(env.runId, a, 0), p)).value, v);
    RunUnfold(env, [], steps, 1, r.output, v, Put(NoResults, a, r), None);
  }

  /** Sharing a name: the second gate is never put to the human, it reuses the first gate's answer. */
  lemma {:induction false} SharedNameReusesAnswer(runId: string, human: Request -> Response, a: string, p: string,
                                                  q: string, v: Value)
    requires Plain(v) && human(Request(RequestId(runId, a, 0), p)).decision == Approve
    ensures var o := Chain(runId, human, TwoGates(a, p, a, q), v, 2).run.outcome;
            o.Done? && o.result.output == v
  {
    var steps := TwoGates(a, p, a, q);
    var id := RequestId(runId, a, 0);
    var answer := human(Request(id, p));
    RunUnfold(Recorded(runId, map[]), [], steps, 0, v, v, NoResults, None);
    var p0 := Chain(runId, human, steps, v, 0);
    assert p0.run.outcome == Suspended(Request(id, p), Some(Frame(0, NoResults, v, v, None)));
    NormalizeFixesExactlyPlain(v);
    assert NormFrame(p0.run.outcome.frame.value) == Frame(0, NoResults, v, v, None);
    var p1 := Chain(runId, human, steps, v, 1);
    assert p1.answers == map[id := answer];
    var e := Recorded(runId, p1.answers);
    RunUnfold(e, [], steps, 0, v, v, NoResults, None);
    var r := GateResult(answer, v);
    RunUnfold(e, [], steps, 1, r.output, v, Put(NoResults, a, r), None);
    ChainStays(runId, human, steps, v, 1, 2);
  }

  lemma {:induction false} TwoGatesAgree(runId: string, human: Request -> Response, a: string, p: string, b: string,
                                         q: string, v: Value)
    requires Plain(v) && (a != b || p == q)
    ensures SameEnding(runId, human, TwoGates(a, p, b, q), v, 2)
  {
    var steps := TwoGates(a, p, b, q);
    TwoGatesAsk(Live(runId, human), a, p, b, q, v);
    if RequestId(runId, a, 0) == RequestId(runId, b, 0) {
      RequestIdInjective(runId, a, 0, b, 0);
    }
    var d := Start(Live(runId, human), steps, v);
    assert PlainStep(steps[0]) && PlainStep(steps[1]);
    ResumeEquivalence(runId, human, steps, v);
    assert Ids(d.asked) == {d.asked[0].id, d.asked[1].id};
    ChainStays(runId, human, steps, v, |Ids(d.asked)|, 2);
  }

  /** Two gates with fixed prompts: a durable run treats every human like an uninterrupted run does exactly
      when the gates have different names or the same prompt. */
  lemma {:induction false} TwoGatesAgreeIff(runId: string, a: string, p: string, b: string, q: string, v: Value)
    requires Plain(v)
    ensures (forall human: Request -> Response :: SameEnding(runId, human, TwoGates(a, p, b, q), v, 2))
            <==> (a != b || p == q)
  {
    var steps := TwoGates(a, p, b, q);
    if a != b || p == q {
      forall human: Request -> Response ensures SameEnding(runId, human, steps, v, 2) {
        TwoGatesAgree(runId, human, a, p, b, q, v);
      }
    } else {
      var other := if v == Text("x") then "y" else "x";
      var human := (r: Request) => if r.prompt == q then Response(Override, Some(other)) else Response(Approve, None);
      TwoGatesAsk(Live(runId, human), a, p, b, q, v);
      SharedNameReusesAnswer(runId, human, a, p, q, v);
      NormalizeFixesExactlyPlain(v);
      assert !SameEnding(runId, human, steps, v, 2);
    }
  }

  /******* A revision loop repeats its workers *******/

  /** The inputs the worker of a revision gate is called with in one process, in order. */
  function WorkerCalls(env: Env, step: Step, input: Value, current: Value, attempt: nat): seq<Value>
    requires step.Revision? && attempt <= step.maxRevisions
    decreases step.maxRevisions - attempt
  {
    [current] +
    match step.worker(current)
    case Threw(_) => []
    case Returned(w) =>
      var reply := env.ask(Request(RequestId(env.runId, step.gate, attempt), step.prompt(w.output)));
      if reply.None? || reply.value.decision != Revise || attempt == step.maxRevisions then []
      else WorkerCalls(env, step, input, Text(step.brief(input, w.output, attempt + 1, ContentOr(reply.value, ""))), attempt + 1)
  }

  /** Each request is put to the human after one call; a call that throws is followed by none. */
  lemma {:induction false} OneCallPerRequest(env: Env, step: Step, input: Value, current: Value, attempt: nat)
    requires step.Revision? && attempt <= step.maxRevisions
    ensures var run := RunRevision(env, step, input, current, attempt);
            |WorkerCalls(env, step, input, current, attempt)| == |run.asked| + if run.outcome.Raised? then 1 else 0
    decreases step.maxRevisions - attempt
  {
    var w := step.worker(current);
    if w.Returned? && attempt < step.maxRevisions {
      var reply := env.ask(Request(RequestId(env.runId, step.gate, attempt), step.prompt(w.result.output)));
      if reply.Some? {
        OneCallPerRequest(env, step, input,
                          Text(step.brief(input, w.result.output, attempt + 1, ContentOr(reply.value, ""))), attempt + 1);
      }
    }
  }

  /** Every call an earlier process made is made again, with the same input, by a process with more answers. */
  lemma {:induction false} CallsAreRepeated(e: Env, e': Env, step: Step, input: Value, current: Value, attempt: nat)
    requires Extends(e, e') && step.Revision? && attempt <= step.maxRevisions
    ensures WorkerCalls(e, step, input, current, attempt) <= WorkerCalls(e', step, input, current, attempt)
    decreases step.maxRevisions - attempt
  {
    var w := step.worker(current);
    if w.Returned? && attempt < step.maxRevisions {
      var req := Request(RequestId(e.runId, step.gate, attempt), step.prompt(w.result.output));
      var reply := e.ask(req);
      if reply.Some? {
        assert e'.ask(req) == reply;
        CallsAreRepeated(e, e', step, input,
                         Text(step.brief(input, w.result.output, attempt + 1, ContentOr(reply.value, ""))), attempt + 1);
      }
    }
  }

  /** Completed workflow steps run once, but workers inside a revision gate do not: a process that stops at revision
      slot `s` has called the worker s + 1 times in that one process, every call of an earlier process included. */
  lemma {:induction false} RevisionReplaysWorkers(earlier: Env, env: Env, step: Step, input: Value, s: nat)
    requires step.Revision? && Extends(earlier, env)
    requires var o := RunRevision(env, step, input, input, 0).outcome;
             o.Suspended? && o.request.id == RequestId(env.runId, step.gate, s)
    ensures |WorkerCalls(env, step, input, input, 0)| == s + 1
    ensures WorkerCalls(earlier, step, input, input, 0) <= WorkerCalls(env, step, input, input, 0)
  {
    var run := RunRevision(env, step, input, input, 0);
    RevisionStopsAtLast(env, step, input, input, 0);
    RevisionSlots(env, step, input, input, 0, |run.asked| - 1);
    RequestIdInjective(env.runId, step.gate, s, step.gate, 0 + (|run.asked| - 1));
    OneCallPerRequest(env, step, input, input, 0);
    CallsAreRepeated(earlier, env, step, input, input, 0);
  }

  lemma {:induction false} RevisionStopsAtLast(env: Env, step: Step, input: Value, current: Value, attempt: nat)
    requires step.Revision? && attempt <= step.maxRevisions
    ensures var run := RunRevision(env, step, input, current, attempt);
            run.outcome.Suspended? ==> run.asked != [] && run.asked[|run.asked| - 1] == run.outcome.request
    decreases step.maxRevisions - attempt
  {
    var w := step.worker(current);
    if w.Returned? && attempt < step.maxRevisions {
      var reply := env.ask(Request(RequestId(env.runId, step.gate, attempt), step.prompt(w.result.output)));
      if reply.Some? {
        RevisionStopsAtLast(env, step, input,
                            Text(step.brief(input, w.result.output, attempt + 1, ContentOr(reply.value, ""))), attempt + 1);
      }
    }
  }
}
