/** Request identity: one gate slot, one request id. */
module Requests {
  import opened Values
  import opened Decimals
  import opened Workflow

  lemma {:induction false} LastColon(gate: string, slot: nat)
    ensures var x := gate + ":" + Decimal(slot);
            x[|gate|] == ':' && forall k | |gate| < k < |x| :: x[k] != ':'
  {
    DecimalDigits(slot);
    var x := gate + ":" + Decimal(slot);
    forall k | |gate| < k < |x| ensures x[k] != ':' {
      assert x[k] == Decimal(slot)[k - |gate| - 1];
    }
  }

  /** Within one run, a request id determines the gate and the revision slot that asked. */
  lemma {:induction false} RequestIdInjective(runId: string, gate: string, slot: nat, gate': string, slot': nat)
    requires RequestId(runId, gate, slot) == RequestId(runId, gate', slot')
    ensures gate == gate' && slot == slot'
  {
    var x, x' := gate + ":" + Decimal(slot), gate' + ":" + Decimal(slot');
    var p := runId + ":";
    assert RequestId(runId, gate, slot) == p + x && RequestId(runId, gate', slot') == p + x';
    assert x == (p + x)[|p|..] && x' == (p + x')[|p|..];
    LastColon(gate, slot);
    LastColon(gate', slot');
    assert |gate| == |gate'|;
    assert gate == x[..|gate|] && gate' == x'[..|gate'|];
    assert Decimal(slot) == x[|gate| + 1..] && Decimal(slot') == x'[|gate'| + 1..];
    DecimalInjective(slot, slot');
  }

  /** The gate names a step can ask under. */
  ghost function Gates(s: Step): set<string> {
    match s
    case Func(_, _) => {}
    case Gate(name, _) => {name}
    case Revision(_, gate, _, _, _, _) => {gate}
    case Sub(_, steps) => set t, g | t in steps && g in Gates(t) :: g
  }

  /** No two gates anywhere in the workflow share a name. */
  ghost predicate DistinctGates(steps: seq<Step>) {
    && (forall i, j | 0 <= i < j < |steps| :: Gates(steps[i]) !! Gates(steps[j]))
    && (forall s | s in steps :: s.Sub? ==> DistinctGates(s.steps))
  }

  ghost predicate AskedBy(runId: string, r: Request, s: Step) {
    exists g, slot: nat :: g in Gates(s) && r.id == RequestId(runId, g, slot)
  }

  ghost predicate AskedFrom(runId: string, r: Request, steps: seq<Step>, i: nat) {
    exists j :: i <= j < |steps| && AskedBy(runId, r, steps[j])
  }

  ghost predicate DistinctIds(rs: seq<Request>) {
    forall a, b | 0 <= a < b < |rs| :: rs[a].id != rs[b].id
  }

  /** The k-th request of a revision loop uses the k-th slot after the one it starts at. */
  lemma {:induction false} RevisionSlots(env: Env, step: Step, input: Value, current: Value, attempt: nat, k: nat)
    requires step.Revision? && attempt <= step.maxRevisions
    requires k < |RunRevision(env, step, input, current, attempt).asked|
    ensures RunRevision(env, step, input, current, attempt).asked[k].id == RequestId(env.runId, step.gate, attempt + k)
    decreases k
  {
    var w := step.worker(current);
    var req := Request(RequestId(env.runId, step.gate, attempt), step.prompt(w.result.output));
    if k > 0 {
      var next := Text(step.brief(input, w.result.output, attempt + 1, ContentOr(env.ask(req).value, "")));
      assert RunRevision(env, step, input, current, attempt).asked ==
             [req] + RunRevision(env, step, input, next, attempt + 1).asked;
      RevisionSlots(env, step, input, next, attempt + 1, k - 1);
    }
  }

  lemma {:induction false} RevisionAsks(env: Env, step: Step, input: Value)
    requires step.Revision?
    ensures var asked := RunRevision(env, step, input, input, 0).asked;
            (forall r | r in asked :: AskedBy(env.runId, r, step)) && DistinctIds(asked)
  {
    var asked := RunRevision(env, step, input, input, 0).asked;
    assert step.gate in Gates(step);
    forall k | 0 <= k < |asked| ensures AskedBy(env.runId, asked[k], step) {
      RevisionSlots(env, step, input, input, 0, k);
    }
    forall a, b | 0 <= a < b < |asked| ensures asked[a].id != asked[b].id {
      RevisionSlots(env, step, input, input, 0, a);
      RevisionSlots(env, step, input, input, 0, b);
      if asked[a].id == asked[b].id {
        RequestIdInjective(env.runId, step.gate, a, step.gate, b);
      }
    }
  }

  lemma {:induction false} SubAsks(runId: string, r: Request, step: Step)
    requires step.Sub? && AskedFrom(runId, r, step.steps, 0)
    ensures AskedBy(runId, r, step)
  {
    var j :| 0 <= j < |step.steps| && AskedBy(runId, r, step.steps[j]);
    var g, slot: nat :| g in Gates(step.steps[j]) && r.id == RequestId(runId, g, slot);
    assert step.steps[j] in step.steps;
    assert g in Gates(step);
  }

  lemma {:induction false} GateAsks(env: Env, at: seq<nat>, step: Step, input: Value)
    requires step.Gate?
    ensures forall r | r in RunStep(env, at, step, input, None).asked :: AskedBy(env.runId, r, step)
  {
    var req := Request(RequestId(env.runId, step.name, 0), step.prompt(input));
    assert step.name in Gates(step);
    assert AskedBy(env.runId, req, step);
    assert RunStep(env, at, step, input, None).asked == [req];
  }

  lemma {:induction false} StepAsks(env: Env, at: seq<nat>, step: Step, input: Value)
    ensures forall r | r in RunStep(env, at, step, input, None).asked :: AskedBy(env.runId, r, step)
    decreases step, 0, 0
  {
    match step
    case Func(_, _) =>
    case Gate(_, _) => GateAsks(env, at, step, input);
    case Revision(_, _, _, _, _, _) => RevisionAsks(env, step, input);
    case Sub(_, steps) =>
      RunAsks(env, at, steps, 0, input, input, NoResults);
      forall r | r in RunStep(env, at, step, input, None).asked ensures AskedBy(env.runId, r, step) {
        SubAsks(env.runId, r, step);
      }
  }

  lemma {:induction false} RunAsks(env: Env, at: seq<nat>, steps: seq<Step>, i: nat, cur: Value, orig: Value,
                                   rs: Results)
    ensures forall r | r in RunFrom(env, at, steps, i, cur, orig, rs, None).asked ::
              AskedFrom(env.runId, r, steps, i)
    decreases steps, 1, if i < |steps| then |steps| - i else 0
  {
    if i < |steps| {
      StepAsks(env, at + [i], steps[i], cur);
      var s := RunStep(env, at + [i], steps[i], cur, None);
      if s.outcome.Done? {
        RunAsks(env, at, steps, i + 1, s.outcome.result.output, orig, Put(rs, steps[i].name, s.outcome.result));
      }
    }
  }

  lemma {:induction false} StepAsksOnce(env: Env, at: seq<nat>, step: Step, input: Value)
    requires step.Sub? ==> DistinctGates(step.steps)
    ensures DistinctIds(RunStep(env, at, step, input, None).asked)
    decreases step, 0, 0
  {
    match step
    case Func(_, _) =>
    case Gate(_, _) =>
    case Revision(_, _, _, _, _, _) => RevisionAsks(env, step, input);
    case Sub(_, steps) => RunAsksOnce(env, at, steps, 0, input, input, NoResults);
  }

  /** With distinct gate names, no execution asks twice under the same request id. */
  lemma {:induction false} RunAsksOnce(env: Env, at: seq<nat>, steps: seq<Step>, i: nat, cur: Value, orig: Value,
                                       rs: Results)
    requires DistinctGates(steps)
    ensures DistinctIds(RunFrom(env, at, steps, i, cur, orig, rs, None).asked)
    decreases steps, 1, if i < |steps| then |steps| - i else 0
  {
    if i < |steps| {
      StepAsksOnce(env, at + [i], steps[i], cur);
      StepAsks(env, at + [i], steps[i], cur);
      var s := RunStep(env, at + [i], steps[i], cur, None);
      if s.outcome.Done? {
        var rs' := Put(rs, steps[i].name, s.outcome.result);
        RunAsksOnce(env, at, steps, i + 1, s.outcome.result.output, orig, rs');
        RunAsks(env, at, steps, i + 1, s.outcome.result.output, orig, rs');
        var rest := RunFrom(env, at, steps, i + 1, s.outcome.result.output, orig, rs', None).asked;
        forall a, b | 0 <= a < |s.asked| && 0 <= b < |rest| ensures s.asked[a].id != rest[b].id {
          Apart(env.runId, s.asked[a], rest[b], steps, i);
        }
      }
    }
  }

  lemma {:induction false} Apart(runId: string, r: Request, r': Request, steps: seq<Step>, i: nat)
    requires DistinctGates(steps) && i < |steps| && AskedBy(runId, r, steps[i])
    requires AskedFrom(runId, r', steps, i + 1)
    ensures r.id != r'.id
  {
    var j :| i < j < |steps| && AskedBy(runId, r', steps[j]);
    var g, slot: nat :| g in Gates(steps[i]) && r.id == RequestId(runId, g, slot);
    var g', slot': nat :| g' in Gates(steps[j]) && r'.id == RequestId(runId, g', slot');
    if r.id == r'.id {
      RequestIdInjective(runId, g, slot, g', slot');
    }
  }
}
