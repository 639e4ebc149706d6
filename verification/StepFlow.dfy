/** What a workflow hands from step to step, told without running it: which result each step may have on the value it
    gets, what a human's decision makes of a value, and what a workflow reports at the end. */
module StepFlow {
  import opened Values
  import opened Decimals
  import opened Workflow

  /** How a step ended, without the frames it left. */
  datatype End = Ends(result: StepResult) | Awaits(request: Request) | Fails(error: string)

  function EndOf(o: Outcome): End {
    match o
    case Done(r) => Ends(r)
    case Suspended(req, _) => Awaits(req)
    case Raised(e) => Fails(e)
  }

  /******* Human decisions *******/

  /** A value is passed on when it is approved, replaced when it is overridden with some content, and lost otherwise: a
      decision that neither accepts nor revises rejects, and says why. */
  ghost predicate Decided(r: Response, v: Value, o: StepResult) {
    && o.usage.None?
    && (r.decision == Approve ==> o.output == v && o.metadata == NoFields)
    && (r.decision == Override ==>
          && o.metadata == Field("modified", Text("True"), NoFields)
          && (r.content.None? ==> o.output == v) && (r.content.Some? ==> o.output == Text(r.content.value)))
    && (r.decision !in {Approve, Override} ==> o.output == Null)
    && (r.decision == Revise ==>
          o.metadata == Field("revision_requested", Text("True"), Field("feedback", Text(Said(r, "")), NoFields)))
    && (r.decision in {Reject, Answer, Escalate} ==> Refuses(o, Said(r, "Rejected by human")))
  }

  /** What the human wrote, or something else if that is nothing. */
  function Said(r: Response, otherwise: string): string {
    if r.content in {None, Some("")} then otherwise else r.content.value
  }

  predicate Refuses(o: StepResult, reason: string) {
    o == StepResult(Null, Field("rejected", Text("True"), Field("reason", Text(reason), NoFields)), None)
  }

  lemma {:induction false} DecisionIsResult(r: Response, v: Value)
    ensures Decided(r, v, GateResult(r, v))
  {
    match r.decision
    case Approve =>
    case Override =>
    case Revise =>
      assert Said(r, "") == ContentOr(r, "");
    case _ =>
      assert Said(r, "Rejected by human") == ContentOr(r, "Rejected by human");
  }

  /** The request of a gate, by its run, its name and the number of revisions so far. */
  function SlotRequest(env: Env, gate: string, slot: nat, prompt: string): Request {
    Request(env.runId + ":" + gate + ":" + Decimal(slot), prompt)
  }

  /******* Revision loops *******/

  /** From slot `a` on the worker turns each of `ins` into the draft in `outs`, and every draft but the last is sent back:
      the next input is the brief with the human's feedback. */
  ghost predicate Drafted(env: Env, step: Step, input: Value, a: nat, ins: seq<Value>, outs: seq<Value>)
    requires step.Revision?
  {
    && |outs| <= |ins| <= |outs| + 1 && ins != []
    && (forall i {:trigger WorkedAt(step, ins, outs, i)} | 0 <= i < |outs| :: WorkedAt(step, ins, outs, i))
    && forall i {:trigger SentBackAt(env, step, input, a, ins, outs, i)} | 0 <= i < |ins| - 1 ::
         SentBackAt(env, step, input, a, ins, outs, i)
  }

  ghost predicate WorkedAt(step: Step, ins: seq<Value>, outs: seq<Value>, i: int)
    requires step.Revision? && 0 <= i < |outs| <= |ins|
  {
    step.worker(ins[i]).Returned? && step.worker(ins[i]).result.output == outs[i]
  }

  ghost predicate SentBackAt(env: Env, step: Step, input: Value, a: nat, ins: seq<Value>, outs: seq<Value>, i: int)
    requires step.Revision? && 0 <= i < |outs| && i + 1 < |ins|
  {
    SentBack(env, step, input, a + i, outs[i], ins[i + 1])
  }

  ghost predicate SentBack(env: Env, step: Step, input: Value, slot: nat, draft: Value, next: Value)
    requires step.Revision?
  {
    && var reply := env.ask(SlotRequest(env, step.gate, slot, step.prompt(draft)));
    && slot < step.maxRevisions && reply.Some? && reply.value.decision == Revise
    && next == Text(step.brief(input, draft, slot + 1, Said(reply.value, "")))
  }

  /** How a loop ends with its last draft: it awaits the human, has a decision, or has no revision left. */
  ghost predicate LastDraft(env: Env, step: Step, slot: nat, draft: Value, e: End)
    requires step.Revision?
  {
    var req := SlotRequest(env, step.gate, slot, step.prompt(draft));
    var reply := env.ask(req);
    && (reply.None? ==> e == Awaits(req))
    && (reply.Some? && reply.value.decision != Revise ==> e.Ends? && Decided(reply.value, draft, e.result))
    && (reply.Some? && reply.value.decision == Revise ==>
          slot == step.maxRevisions && e.Ends? && Refuses(e.result, "Maximum revisions exceeded"))
  }

  ghost predicate LoopEnding(env: Env, step: Step, slot: nat, ins: seq<Value>, outs: seq<Value>, e: End)
    requires step.Revision? && |outs| <= |ins| <= |outs| + 1 && ins != []
  {
    if |outs| < |ins| then e.Fails? && step.worker(ins[|outs|]) == Threw(e.error)
    else LastDraft(env, step, slot, outs[|outs| - 1], e)
  }

  ghost predicate LoopEnds(env: Env, step: Step, input: Value, a: nat, ins: seq<Value>, outs: seq<Value>, e: End)
    requires step.Revision?
  {
    Drafted(env, step, input, a, ins, outs) && LoopEnding(env, step, a + |ins| - 1, ins, outs, e)
  }

  lemma {:induction false} LoopMeans(env: Env, step: Step, input: Value, current: Value, a: nat)
      returns (ins: seq<Value>, outs: seq<Value>)
    requires step.Revision? && a <= step.maxRevisions
    ensures LoopEnds(env, step, input, a, ins, outs, EndOf(RunRevision(env, step, input, current, a).outcome))
    ensures ins[0] == current
    decreases step.maxRevisions - a
  {
    match step.worker(current)
    case Threw(e) => ins, outs := [current], [];
    case Returned(w) =>
      var draft := w.output;
      var req := SlotRequest(env, step.gate, a, step.prompt(draft));
      assert req.id == RequestId(env.runId, step.gate, a);
      var reply := env.ask(req);
      if reply.Some? && reply.value.decision == Revise && a < step.maxRevisions {
        var feedback := ContentOr(reply.value, "");
        var next := Text(step.brief(input, draft, a + 1, feedback));
        var ins', outs' := LoopMeans(env, step, input, next, a + 1);
        ins, outs := [current] + ins', [draft] + outs';
        assert SentBack(env, step, input, a, draft, next);
        LoopCons(env, step, input, a, current, draft, ins', outs',
                 EndOf(RunRevision(env, step, input, next, a + 1).outcome));
      } else {
        ins, outs := [current], [draft];
        if reply.Some? && reply.value.decision != Revise {
          DecisionIsResult(reply.value, draft);
        }
      }
  }

  lemma {:induction false} DraftedCons(env: Env, step: Step, input: Value, a: nat, v: Value, draft: Value,
                                       ins: seq<Value>,
                    outs: seq<Value>)
    requires step.Revision? && Drafted(env, step, input, a + 1, ins, outs)
    requires step.worker(v).Returned? && step.worker(v).result.output == draft
    requires SentBack(env, step, input, a, draft, ins[0])
    ensures Drafted(env, step, input, a, [v] + ins, [draft] + outs)
  {
    var ins', outs' := [v] + ins, [draft] + outs;
    forall i | 0 <= i < |ins'| - 1 ensures SentBackAt(env, step, input, a, ins', outs', i) {
      if i > 0 {
        assert SentBackAt(env, step, input, a + 1, ins, outs, i - 1);
      }
    }
    forall i | 0 <= i < |outs'| ensures WorkedAt(step, ins', outs', i) {
      if i > 0 {
        assert WorkedAt(step, ins, outs, i - 1);
      }
    }
  }

  lemma {:induction false} EndingCons(env: Env, step: Step, slot: nat, v: Value, draft: Value, ins: seq<Value>,
                                      outs: seq<Value>, e: End)
    requires step.Revision? && |outs| <= |ins| <= |outs| + 1 && ins != [] && LoopEnding(env, step, slot, ins, outs, e)
    ensures LoopEnding(env, step, slot, [v] + ins, [draft] + outs, e)
  {
    if |outs| < |ins| {
      assert ([v] + ins)[|outs| + 1] == ins[|outs|];
    } else {
      assert ([draft] + outs)[|outs|] == outs[|outs| - 1];
    }
  }

  lemma {:induction false} LoopCons(env: Env, step: Step, input: Value, a: nat, v: Value, draft: Value,
                                    ins: seq<Value>, outs: seq<Value>,
                 e: End)
    requires step.Revision? && LoopEnds(env, step, input, a + 1, ins, outs, e)
    requires step.worker(v).Returned? && step.worker(v).result.output == draft
    requires SentBack(env, step, input, a, draft, ins[0])
    ensures LoopEnds(env, step, input, a, [v] + ins, [draft] + outs, e)
  {
    DraftedCons(env, step, input, a, v, draft, ins, outs);
    EndingCons(env, step, a + |ins|, v, draft, ins, outs, e);
  }

  /******* Steps and workflows *******/

  /** A step may end like this on a value, when nothing of it is resumed. A nested workflow ends as its own run does. */
  ghost predicate StepEnds(env: Env, at: seq<nat>, step: Step, v: Value, e: End) {
    match step
    case Func(_, f) =>
      !e.Awaits? && f(v) == if e.Ends? then Returned(e.result) else if e.Fails? then Threw(e.error) else f(v)
    case Gate(name, prompt) => GateEnds(env, name, prompt(v), v, e)
    case Revision(_, _, _, _, _, _) => exists ins, outs :: LoopEnds(env, step, v, 0, ins, outs, e) && ins[0] == v
    case Sub(_, steps) => e == EndOf(RunFrom(env, at, steps, 0, v, v, NoResults, None).outcome)
  }

  ghost predicate GateEnds(env: Env, name: string, prompt: string, v: Value, e: End) {
    var req := SlotRequest(env, name, 0, prompt);
    if env.ask(req).None? then e == Awaits(req) else e.Ends? && Decided(env.ask(req).value, v, e.result)
  }

  /** The value that step `j` gets: what the step before it put out. */
  function InputAt(v: Value, results: seq<StepResult>, j: nat): Value
    requires j <= |results|
  {
    if j == 0 then v else results[j - 1].output
  }

  /** How step `j` may end on a value. */
  type EndRule = (nat, Value, End) -> bool

  ghost function StepsEnd(env: Env, at: seq<nat>, steps: seq<Step>): EndRule {
    (j: nat, v: Value, e: End) => j < |steps| && StepEnds(env, at + [j], steps[j], v, e)
  }

  /** From step `first` on, each result is one that its step may have on the output of the step before. */
  ghost predicate Handed(ends: EndRule, first: nat, v: Value, results: seq<StepResult>) {
    forall j | 0 <= j < |results| :: ends(first + j, InputAt(v, results, j), Ends(results[j]))
  }

  /** `results` are the results of the completed steps, each on the output of the one before; with all steps completed the
      workflow has ended with the last output and a report, otherwise it ends as the next step does. */
  ghost predicate FlowEnds(ends: EndRule, steps: seq<Step>, first: nat, v: Value, restored: Results,
                           results: seq<StepResult>, e: End)
    requires first <= |steps|
  {
    && first + |results| <= |steps|
    && Handed(ends, first, v, results)
    && var last := InputAt(v, results, |results|);
       if first + |results| == |steps| then
         e.Ends? && e.result.output == last && Reports(e.result, restored, |steps|, steps[first..], results)
       else !e.Ends? && ends(first + |results|, last, e)
  }

  /******* The report at the end *******/

  /** The result under a name: that of the last step so called, or else the restored one. */
  function LastNamed(restored: Results, steps: seq<Step>, results: seq<StepResult>, name: string): Option<StepResult>
    requires |results| == |steps|
    decreases |steps|
  {
    if steps == [] then ResultOf(restored, name) else
    var n := |steps| - 1;
    if steps[n].name == name then Some(results[n]) else LastNamed(restored, steps[..n], results[..n], name)
  }

  function ResultOf(rs: Results, name: string): Option<StepResult> {
    match rs
    case NoResults => None
    case Entry(n, r, rest) => if n == name then Some(r) else ResultOf(rest, name)
  }

  ghost predicate DistinctNames(steps: seq<Step>) {
    forall i, j | 0 <= i < j < |steps| :: steps[i].name != steps[j].name
  }

  function Inputs(results: seq<StepResult>): int {
    if results == [] then 0 else
    Inputs(results[..|results| - 1])
    + var u := results[|results| - 1].usage; if u.Some? then u.value.input else 0
  }

  function Outputs(results: seq<StepResult>): int {
    if results == [] then 0 else
    Outputs(results[..|results| - 1])
    + var u := results[|results| - 1].usage; if u.Some? then u.value.output else 0
  }

  /** The tokens written to a cache, or read from one, by the steps that say so; missing when none does. */
  function Cached(results: seq<StepResult>, read: bool): Option<int> {
    if results == [] then None else
    var front, u := Cached(results[..|results| - 1], read), results[|results| - 1].usage;
    var n := if u.None? then None else if read then u.value.cacheRead else u.value.cacheCreation;
    if n.None? then front else if front.None? then n else Some(front.value + n.value)
  }

  /** The report names every step with its result and how many steps there are; with distinct names the usage is the sum
      of what the steps used, and missing when no step used any. */
  ghost predicate Reports(r: StepResult, restored: Results, total: nat, steps: seq<Step>, results: seq<StepResult>)
    requires |results| == |steps|
  {
    && (exists fs ::
          && r.metadata == Field("intermediate_results", Dict(fs), Field("total_steps_executed", Num(total), NoFields))
          && forall name :: FieldOf(fs, name) ==
               var result := LastNamed(restored, steps, results, name);
               if result.None? then None else Some(ResultValue(result.value)))
    && (restored == NoResults && DistinctNames(steps) ==>
          && (r.usage.None? <==> forall j | 0 <= j < |results| :: results[j].usage.None?)
          && (r.usage.Some? ==>
                && r.usage.value.input == Inputs(results) && r.usage.value.output == Outputs(results)
                && r.usage.value.cacheCreation == Cached(results, false)
                && r.usage.value.cacheRead == Cached(results, true)))
  }

  /** A report tells results apart. */
  lemma {:induction false} ResultValueInjective(a: StepResult, b: StepResult)
    requires ResultValue(a) == ResultValue(b)
    ensures a == b
  {
    assert UsageValue(a.usage) == UsageValue(b.usage);
  }

  /** The results of a workflow, entered one after the other. */
  function PutAll(rs: Results, steps: seq<Step>, results: seq<StepResult>): Results
    requires |results| == |steps|
    decreases |steps|
  {
    if steps == [] then rs else
    var n := |steps| - 1;
    Put(PutAll(rs, steps[..n], results[..n]), steps[n].name, results[n])
  }

  lemma {:induction false} PutAllCons(rs: Results, steps: seq<Step>, results: seq<StepResult>)
    requires |results| == |steps| > 0
    ensures PutAll(rs, steps, results) == PutAll(Put(rs, steps[0].name, results[0]), steps[1..], results[1..])
    decreases |steps|
  {
    var n := |steps| - 1;
    if n > 0 {
      PutAllCons(rs, steps[..n], results[..n]);
      assert steps[..n][1..] == steps[1..][..n - 1] && results[..n][1..] == results[1..][..n - 1];
    } else {
      assert steps[..0] == [] && steps[1..] == [];
    }
  }

  lemma {:induction false} ResultOfPut(rs: Results, name: string, r: StepResult, other: string)
    ensures ResultOf(Put(rs, name, r), other) == if other == name then Some(r) else ResultOf(rs, other)
  {
    if rs.Entry? {
      ResultOfPut(rs.rest, name, r, other);
    }
  }

  lemma {:induction false} PutAllNamed(rs: Results, steps: seq<Step>, results: seq<StepResult>, name: string)
    requires |results| == |steps|
    ensures ResultOf(PutAll(rs, steps, results), name) == LastNamed(rs, steps, results, name)
    decreases |steps|
  {
    if steps != [] {
      var n := |steps| - 1;
      PutAllNamed(rs, steps[..n], results[..n], name);
      ResultOfPut(PutAll(rs, steps[..n], results[..n]), steps[n].name, results[n], name);
    }
  }

  lemma {:induction false} FieldOfResults(rs: Results, name: string)
    ensures FieldOf(ResultFields(rs), name) ==
              if ResultOf(rs, name).None? then None else Some(ResultValue(ResultOf(rs, name).value))
  {
    if rs.Entry? {
      FieldOfResults(rs.rest, name);
    }
  }

  /** A new name makes the usage grow by what its result used. */
  lemma {:induction false} UsageOfPut(rs: Results, name: string, r: StepResult)
    requires ResultOf(rs, name).None?
    ensures SumUsage(Put(rs, name, r)) == AddUsage(SumUsage(rs), r.usage)
  {
    if rs.Entry? {
      UsageOfPut(rs.rest, name, r);
    }
  }

  lemma {:induction false} NotNamed(steps: seq<Step>, results: seq<StepResult>, name: string)
    requires |results| == |steps| && forall j | 0 <= j < |steps| :: steps[j].name != name
    ensures LastNamed(NoResults, steps, results, name).None?
    decreases |steps|
  {
    if steps != [] {
      NotNamed(steps[..|steps| - 1], results[..|steps| - 1], name);
    }
  }

  lemma {:induction false} UsageIsSum(steps: seq<Step>, results: seq<StepResult>)
    requires |results| == |steps| && DistinctNames(steps)
    ensures var u := SumUsage(PutAll(NoResults, steps, results));
            && (u.None? <==> forall j | 0 <= j < |results| :: results[j].usage.None?)
            && (u.None? ==> Inputs(results) == 0 && Outputs(results) == 0)
            && (u.None? ==> Cached(results, false) == Cached(results, true) == None)
            && (u.Some? ==>
                  && u.value.input == Inputs(results) && u.value.output == Outputs(results)
                  && u.value.cacheCreation == Cached(results, false) && u.value.cacheRead == Cached(results, true))
    decreases |steps|
  {
    if steps != [] {
      var n := |steps| - 1;
      UsageIsSum(steps[..n], results[..n]);
      PutAllNamed(NoResults, steps[..n], results[..n], steps[n].name);
      NotNamed(steps[..n], results[..n], steps[n].name);
      UsageOfPut(PutAll(NoResults, steps[..n], results[..n]), steps[n].name, results[n]);
      assert forall j | 0 <= j < n :: results[..n][j] == results[j];
    }
  }

  lemma {:induction false} FinishReports(cur: Value, restored: Results, total: nat, steps: seq<Step>,
                                         results: seq<StepResult>)
    requires |results| == |steps|
    ensures Reports(Finish(cur, PutAll(restored, steps, results), total), restored, total, steps, results)
  {
    var rs := PutAll(restored, steps, results);
    var fs := ResultFields(rs);
    forall name ensures FieldOf(fs, name) ==
        var result := LastNamed(restored, steps, results, name);
        if result.None? then None else Some(ResultValue(result.value))
    {
      PutAllNamed(restored, steps, results, name);
      FieldOfResults(rs, name);
    }
    if restored == NoResults && DistinctNames(steps) {
      UsageIsSum(steps, results);
    }
  }

  /******* Running is handing over *******/

  lemma {:induction false} StepMeans(env: Env, at: seq<nat>, step: Step, v: Value)
    ensures StepEnds(env, at, step, v, EndOf(RunStep(env, at, step, v, None).outcome))
  {
    match step
    case Func(_, f) =>
    case Gate(name, prompt) =>
      var req := SlotRequest(env, name, 0, prompt(v));
      assert req.id == RequestId(env.runId, name, 0);
      if env.ask(req).Some? {
        DecisionIsResult(env.ask(req).value, v);
      }
    case Revision(_, _, _, _, _, _) =>
      var ins, outs := LoopMeans(env, step, v, v, 0);
    case Sub(_, steps) =>
  }

  lemma {:induction false} HandedCons(ends: EndRule, first: nat, v: Value, r: StepResult, rest: seq<StepResult>)
    requires ends(first, v, Ends(r)) && Handed(ends, first + 1, r.output, rest)
    ensures Handed(ends, first, v, [r] + rest)
    ensures InputAt(v, [r] + rest, |rest| + 1) == InputAt(r.output, rest, |rest|)
  {
    var results := [r] + rest;
    forall j | 0 <= j < |results| ensures ends(first + j, InputAt(v, results, j), Ends(results[j])) {
      if j > 0 {
        var i := j - 1;
        assert ends(first + 1 + i, InputAt(r.output, rest, i), Ends(rest[i]));
      }
    }
  }

  lemma {:induction false} ReportsCons(rs: Results, steps: seq<Step>, r: StepResult, rest: seq<StepResult>,
                                       total: nat, o: StepResult)
    requires |rest| + 1 == |steps|
    requires o == Finish(o.output, PutAll(Put(rs, steps[0].name, r), steps[1..], rest), total)
    ensures o == Finish(o.output, PutAll(rs, steps, [r] + rest), total)
    ensures Reports(o, rs, total, steps, [r] + rest)
  {
    assert ([r] + rest)[1..] == rest;
    PutAllCons(rs, steps, [r] + rest);
    FinishReports(o.output, rs, total, steps, [r] + rest);
  }

  /** The outcome is the report of all results once the last step has completed. */
  ghost predicate Finished(o: Outcome, rs: Results, steps: seq<Step>, total: nat, results: seq<StepResult>) {
    |results| == |steps| && o.Done? && o.result == Finish(o.result.output, PutAll(rs, steps, results), total)
  }

  lemma {:induction false} FlowCons(ends: EndRule, steps: seq<Step>, i: nat, v: Value, rs: Results, r: StepResult,
                                    rest: seq<StepResult>,
                 o: Outcome)
    requires i < |steps| && ends(i, v, Ends(r))
    requires FlowEnds(ends, steps, i + 1, r.output, Put(rs, steps[i].name, r), rest, EndOf(o))
    requires o.Done? ==> Finished(o, Put(rs, steps[i].name, r), steps[i + 1..], |steps|, rest)
    ensures FlowEnds(ends, steps, i, v, rs, [r] + rest, EndOf(o))
    ensures o.Done? ==> Finished(o, rs, steps[i..], |steps|, [r] + rest)
  {
    HandedCons(ends, i, v, r, rest);
    if o.Done? {
      assert steps[i..][1..] == steps[i + 1..] && steps[i..][0] == steps[i];
      ReportsCons(rs, steps[i..], r, rest, |steps|, o.result);
    }
  }

  lemma {:induction false} StepMeansAt(env: Env, at: seq<nat>, steps: seq<Step>, i: nat, v: Value)
    requires i < |steps|
    ensures StepsEnd(env, at, steps)(i, v, EndOf(RunStep(env, at + [i], steps[i], v, None).outcome))
  {
    StepMeans(env, at + [i], steps[i], v);
  }

  lemma {:induction false} FlowOver(ends: EndRule, steps: seq<Step>, cur: Value, rs: Results, o: Outcome)
    requires o == Done(Finish(cur, rs, |steps|))
    ensures FlowEnds(ends, steps, |steps|, cur, rs, [], EndOf(o))
    ensures Finished(o, rs, steps[|steps|..], |steps|, [])
  {
    assert steps[|steps|..] == [];
    FinishReports(cur, rs, |steps|, [], []);
  }

  lemma {:induction false} OutcomeUnfold(env: Env, at: seq<nat>, steps: seq<Step>, i: nat, cur: Value, orig: Value,
                                         rs: Results)
    requires i < |steps|
    ensures var s := RunStep(env, at + [i], steps[i], cur, None).outcome;
            var o := RunFrom(env, at, steps, i, cur, orig, rs, None).outcome;
            if s.Done? then
              o == RunFrom(env, at, steps, i + 1, s.result.output, orig, Put(rs, steps[i].name, s.result), None).outcome
            else EndOf(o) == EndOf(s) && !o.Done?
  {
  }

  /** The results of the steps that complete in a run from step `i` on. */
  ghost function Completing(env: Env, at: seq<nat>, steps: seq<Step>, i: nat, cur: Value): (r: seq<StepResult>)
    ensures i + |r| <= |steps| || (r == [] && i > |steps|)
    decreases if i < |steps| then |steps| - i else 0
  {
    if i >= |steps| then [] else
    match RunStep(env, at + [i], steps[i], cur, None).outcome
    case Done(r) => [r] + Completing(env, at, steps, i + 1, r.output)
    case _ => []
  }

  /** A run of the steps from `i` on hands each output to the next step and ends as that chain does. */
  lemma {:induction false} RunMeans(env: Env, at: seq<nat>, steps: seq<Step>, i: nat, cur: Value, orig: Value,
                                    rs: Results, ends: EndRule)
    requires i <= |steps| && ends == StepsEnd(env, at, steps)
    ensures var o := RunFrom(env, at, steps, i, cur, orig, rs, None).outcome;
            var results := Completing(env, at, steps, i, cur);
            && FlowEnds(ends, steps, i, cur, rs, results, EndOf(o))
            && (o.Done? ==> Finished(o, rs, steps[i..], |steps|, results))
    decreases |steps| - i
  {
    var o := RunFrom(env, at, steps, i, cur, orig, rs, None).outcome;
    if i == |steps| {
      FlowOver(ends, steps, cur, rs, o);
    } else {
      StepMeansAt(env, at, steps, i, cur);
      OutcomeUnfold(env, at, steps, i, cur, orig, rs);
      var s := RunStep(env, at + [i], steps[i], cur, None).outcome;
      if s.Done? {
        var r := s.result;
        RunMeans(env, at, steps, i + 1, r.output, orig, Put(rs, steps[i].name, r), ends);
        FlowCons(ends, steps, i, cur, rs, r, Completing(env, at, steps, i + 1, r.output), o);
      }
    }
  }

  /******* What a run leaves on record *******/

  /** The completions of the steps of this workflow itself, without those inside nested workflows. */
  function Own(log: seq<Completion>, depth: nat): seq<Completion> {
    if log == [] then [] else
    var last := log[|log| - 1];
    Own(log[..|log| - 1], depth) + if |last.path| == depth then [last] else []
  }

  lemma {:induction false} OwnConcat(a: seq<Completion>, b: seq<Completion>, depth: nat)
    ensures Own(a + b, depth) == Own(a, depth) + Own(b, depth)
  {
    if b == [] {
      assert a + b == a;
    } else {
      assert (a + b)[..|a + b| - 1] == a + b[..|b| - 1];
      OwnConcat(a, b[..|b| - 1], depth);
    }
  }

  lemma {:induction false} OwnNone(log: seq<Completion>, depth: nat)
    requires forall c | c in log :: |c.path| > depth
    ensures Own(log, depth) == []
  {
    if log != [] {
      OwnNone(log[..|log| - 1], depth);
    }
  }

  lemma {:induction false} PathsInStep(env: Env, at: seq<nat>, step: Step, v: Value, nested: Option<Frame>)
    ensures forall c | c in RunStep(env, at, step, v, nested).log :: |c.path| > |at|
    decreases step, 0, 0
  {
    if step.Sub? {
      if nested.None? {
        PathsInRun(env, at, step.steps, 0, v, v, NoResults, None);
      } else {
        var f := nested.value;
        PathsInRun(env, at, step.steps, f.index, f.lastOutput, v, f.completed, f.nested);
      }
    } else if step.Revision? {
      NoLog(env, step, v, v, 0);
    }
  }

  lemma {:induction false} NoLog(env: Env, step: Step, input: Value, current: Value, attempt: nat)
    requires step.Revision? && attempt <= step.maxRevisions
    ensures RunRevision(env, step, input, current, attempt).log == []
  {
  }

  lemma {:induction false} PathsInRun(env: Env, at: seq<nat>, steps: seq<Step>, i: nat, cur: Value, orig: Value,
                                      rs: Results, nested: Option<Frame>)
    ensures forall c | c in RunFrom(env, at, steps, i, cur, orig, rs, nested).log :: |c.path| > |at|
    decreases steps, 1, if i < |steps| then |steps| - i else 0
  {
    if i < |steps| {
      var s := RunStep(env, at + [i], steps[i], cur, nested);
      PathsInStep(env, at + [i], steps[i], cur, nested);
      if s.outcome.Done? {
        var r := s.outcome.result;
        PathsInRun(env, at, steps, i + 1, r.output, orig, Put(rs, steps[i].name, r), None);
      }
    }
  }

  /** The frame with `n` of the results entered, the last of them handed on. */
  function FrameAt(steps: seq<Step>, i: nat, cur: Value, orig: Value, rs: Results, results: seq<StepResult>,
                   n: nat): Frame
    requires n <= |results| && i + n <= |steps|
  {
    Frame(i + n, PutAll(rs, steps[i..i + n], results[..n]), InputAt(cur, results[..n], n), orig, None)
  }

  /** One completion for each result, in order. */
  function Completions(at: seq<nat>, i: nat, results: seq<StepResult>): seq<Completion>
    decreases results
  {
    if results == [] then [] else [Completion(at + [i], results[0].output)] + Completions(at, i + 1, results[1..])
  }

  /** Each completed step is logged once, in order, with its output, and leaves a cursor behind it; a suspension stands
      before the step that is next. */
  ghost predicate OnRecord(run: Run, at: seq<nat>, steps: seq<Step>, i: nat, cur: Value, orig: Value, rs: Results,
                           results: seq<StepResult>)
  {
    && i + |results| <= |steps|
    && Own(run.log, |at| + 1) == Completions(at, i, results)
    && |run.cursors| == |results|
    && (forall j | 0 <= j < |results| :: run.cursors[j] == FrameAt(steps, i, cur, orig, rs, results, j + 1))
    && (run.outcome.Suspended? ==>
          run.outcome.frame.Some?
          && run.outcome.frame.value.(nested := None) == FrameAt(steps, i, cur, orig, rs, results, |results|))
  }

  lemma {:induction false} FrameCons(steps: seq<Step>, i: nat, cur: Value, orig: Value, rs: Results, r: StepResult,
                                     rest: seq<StepResult>,
                  n: nat)
    requires n <= |rest| && i + 1 + n <= |steps|
    ensures FrameAt(steps, i, cur, orig, rs, [r] + rest, n + 1) ==
              FrameAt(steps, i + 1, r.output, orig, Put(rs, steps[i].name, r), rest, n)
  {
    var results := ([r] + rest)[..n + 1];
    assert results == [r] + rest[..n] && results[1..] == rest[..n];
    assert steps[i..i + (n + 1)][1..] == steps[i + 1..i + 1 + n];
    PutAllCons(rs, steps[i..i + (n + 1)], results);
  }

  lemma {:induction false} OwnCons(s: seq<Completion>, done: Completion, log: seq<Completion>)
    requires forall c | c in s :: |c.path| > |done.path|
    ensures Own(s + [done] + log, |done.path|) == [done] + Own(log, |done.path|)
  {
    var depth := |done.path|;
    OwnConcat(s + [done], log, depth);
    OwnConcat(s, [done], depth);
    OwnNone(s, depth);
    assert [done][..0] == [] && Own([done], depth) == [done];
  }

  lemma {:induction false} RecordCons(run: Run, rest: Run, s: seq<Completion>, at: seq<nat>, steps: seq<Step>, i: nat,
                                      cur: Value, orig: Value,
                   rs: Results, r: StepResult, results: seq<StepResult>)
    requires i < |steps| && (forall c | c in s :: |c.path| > |at| + 1)
    requires OnRecord(rest, at, steps, i + 1, r.output, orig, Put(rs, steps[i].name, r), results)
    requires run.outcome == rest.outcome && run.log == s + [Completion(at + [i], r.output)] + rest.log
    requires run.cursors == [Frame(i + 1, Put(rs, steps[i].name, r), r.output, orig, None)] + rest.cursors
    ensures OnRecord(run, at, steps, i, cur, orig, rs, [r] + results)
  {
    var all, rs' := [r] + results, Put(rs, steps[i].name, r);
    OwnCons(s, Completion(at + [i], r.output), rest.log);
    assert all[1..] == results;
    forall j | 0 <= j < |all| ensures run.cursors[j] == FrameAt(steps, i, cur, orig, rs, all, j + 1) {
      FrameCons(steps, i, cur, orig, rs, r, results, j);
      if j == 0 {
        assert steps[i + 1..i + 1 + 0] == [];
      } else {
        assert rest.cursors[j - 1] == FrameAt(steps, i + 1, r.output, orig, rs', results, j - 1 + 1);
      }
    }
    FrameCons(steps, i, cur, orig, rs, r, results, |results|);
  }

  lemma {:induction false} NothingOnRecord(run: Run, at: seq<nat>, steps: seq<Step>, i: nat, cur: Value, orig: Value,
                                           rs: Results)
    requires i <= |steps| && (forall c | c in run.log :: |c.path| > |at| + 1) && run.cursors == []
    requires run.outcome.Suspended? ==>
               run.outcome.frame.Some? && run.outcome.frame.value.(nested := None) == Frame(i, rs, cur, orig, None)
    ensures OnRecord(run, at, steps, i, cur, orig, rs, [])
  {
    OwnNone(run.log, |at| + 1);
    assert steps[i..i + 0] == [];
  }

  /** What a run leaves on record is what its steps handed on. */
  lemma {:induction false} RunIsOnRecord(env: Env, at: seq<nat>, steps: seq<Step>, i: nat, cur: Value, orig: Value,
                                         rs: Results)
    requires i <= |steps|
    ensures OnRecord(RunFrom(env, at, steps, i, cur, orig, rs, None), at, steps, i, cur, orig, rs,
                     Completing(env, at, steps, i, cur))
    decreases |steps| - i
  {
    var run := RunFrom(env, at, steps, i, cur, orig, rs, None);
    if i < |steps| {
      var s := RunStep(env, at + [i], steps[i], cur, None);
      PathsInStep(env, at + [i], steps[i], cur, None);
      if s.outcome.Done? {
        var r := s.outcome.result;
        var rs' := Put(rs, steps[i].name, r);
        RunIsOnRecord(env, at, steps, i + 1, r.output, orig, rs');
        RecordCons(run, RunFrom(env, at, steps, i + 1, r.output, orig, rs', None), s.log, at, steps, i, cur, orig, rs,
                   r,
                   Completing(env, at, steps, i + 1, r.output));
      } else {
        NothingOnRecord(run, at, steps, i, cur, orig, rs);
      }
    } else {
      NothingOnRecord(run, at, steps, i, cur, orig, rs);
    }
  }

  predicate Rejection(reply: Option<Response>) {
    reply.Some? && reply.value.decision in {Reject, Answer, Escalate}
  }

  /** What is handed on after a gate that was answered with a rejection is nothing: not the value that was rejected. */
  ghost predicate RejectionHolds(env: Env, gate: Step, shown: Value, after: Value) {
    gate.Gate? && Rejection(env.ask(SlotRequest(env, gate.name, 0, gate.prompt(shown)))) ==> after == Null
  }

  ghost predicate RejectionsHold(env: Env, steps: seq<Step>, first: nat, v: Value, results: seq<StepResult>) {
    forall j | 0 <= j < |results| && first + j < |steps| ::
      RejectionHolds(env, steps[first + j], InputAt(v, results, j), InputAt(v, results, j + 1))
  }

  lemma {:induction false} RejectedGate(env: Env, at: seq<nat>, step: Step, v: Value, o: StepResult)
    requires StepEnds(env, at, step, v, Ends(o))
    ensures RejectionHolds(env, step, v, o.output)
  {
  }

  lemma {:induction false} RejectedStep(env: Env, at: seq<nat>, steps: seq<Step>, i: nat, v: Value, o: StepResult)
    requires StepsEnd(env, at, steps)(i, v, Ends(o))
    ensures i < |steps| && RejectionHolds(env, steps[i], v, o.output)
  {
    RejectedGate(env, at + [i], steps[i], v, o);
  }

  lemma {:induction false} NothingPassesRejection(env: Env, at: seq<nat>, steps: seq<Step>, first: nat, v: Value,
                               results: seq<StepResult>, ends: EndRule)
    requires ends == StepsEnd(env, at, steps) && Handed(ends, first, v, results)
    ensures RejectionsHold(env, steps, first, v, results)
  {
    forall j | 0 <= j < |results| && first + j < |steps|
      ensures RejectionHolds(env, steps[first + j], InputAt(v, results, j), InputAt(v, results, j + 1))
    {
      assert ends(first + j, InputAt(v, results, j), Ends(results[j]));
      RejectedStep(env, at, steps, first + j, InputAt(v, results, j), results[j]);
    }
  }
  /** The whole story of a run from step `i` on: its steps handed their results on, nothing rejected was handed on, and the
      run is on record as it went. */
  ghost predicate Told(env: Env, at: seq<nat>, steps: seq<Step>, i: nat, cur: Value, orig: Value, rs: Results, run: Run)
    requires i <= |steps|
  {
    var results := Completing(env, at, steps, i, cur);
    && FlowEnds(StepsEnd(env, at, steps), steps, i, cur, rs, results, EndOf(run.outcome))
    && RejectionsHold(env, steps, i, cur, results)
    && OnRecord(run, at, steps, i, cur, orig, rs, results)
  }

  lemma {:induction false} RunIsTold(env: Env, at: seq<nat>, steps: seq<Step>, i: nat, cur: Value, orig: Value,
                                     rs: Results)
    requires i <= |steps|
    ensures Told(env, at, steps, i, cur, orig, rs, RunFrom(env, at, steps, i, cur, orig, rs, None))
  {
    RunMeans(env, at, steps, i, cur, orig, rs, StepsEnd(env, at, steps));
    NothingPassesRejection(env, at, steps, i, cur, Completing(env, at, steps, i, cur), StepsEnd(env, at, steps));
    RunIsOnRecord(env, at, steps, i, cur, orig, rs);
  }
}
