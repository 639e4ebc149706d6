/** Resuming refines replaying: a frame restored from a checkpoint, run with more answers on record,
    ends like the whole workflow executed afresh with those answers. */
module Resumption {
  import opened Values
  import opened Workflow

  /******* Plain workflows *******/

  ghost predicate KeepsPlain(f: Value -> Returned) {
    forall v :: Plain(v) && f(v).Returned? ==> Plain(f(v).result.output)
  }

  /** Every user function in the step returns plain values on plain values. */
  ghost predicate PlainStep(s: Step) {
    match s
    case Func(_, f) => KeepsPlain(f)
    case Gate(_, _) => true
    case Revision(_, _, _, worker, _, _) => KeepsPlain(worker)
    case Sub(_, steps) => PlainSteps(steps)
  }

  ghost predicate PlainSteps(steps: seq<Step>) {
    forall s | s in steps :: PlainStep(s)
  }

  /** The later environment answers everything the earlier one answers, in the same way. */
  ghost predicate Extends(e: Env, e': Env) {
    && e.runId == e'.runId
    && forall r :: e.ask(r).Some? ==> e'.ask(r) == e.ask(r)
  }

  /** Equal outcomes up to what a checkpoint normalises, with the output itself equal. */
  ghost predicate Match(a: Outcome, b: Outcome) {
    && NormOutcome(a) == NormOutcome(b)
    && (a.Done? ==> a.result.output == b.result.output)
  }

  /** `b` redoes all of `a` and then what `c` does: same ending as `c`, logs and cursors concatenated. */
  ghost predicate Continues(a: Run, c: Run, b: Run) {
    && Match(b.outcome, c.outcome)
    && b.log == a.log + c.log
    && NormFrames(b.cursors) == NormFrames(a.cursors) + NormFrames(c.cursors)
  }

  ghost predicate Suffix<T>(s: seq<T>, t: seq<T>) {
    |s| <= |t| && t[|t| - |s|..] == s
  }

  /** `c` ends like `b` and does only a tail of what `b` does. */
  ghost predicate Tail(c: Run, b: Run) {
    && Match(b.outcome, c.outcome)
    && Suffix(c.log, b.log)
    && Suffix(NormFrames(c.cursors), NormFrames(b.cursors))
  }

  function NormFrames(fs: seq<Frame>): seq<Frame> {
    seq(|fs|, i requires 0 <= i < |fs| => NormFrame(fs[i]))
  }

  ghost predicate MatchRun(a: Run, b: Run) {
    Match(a.outcome, b.outcome) && a.log == b.log && a.asked == b.asked && NormFrames(a.cursors) == NormFrames(b.cursors)
  }

  /******* Normalisation and bookkeeping *******/

  lemma {:induction false} NormalizeFieldsIdempotent(f: Fields)
    ensures NormalizeFields(NormalizeFields(f)) == NormalizeFields(f)
  {
    NormalizeFieldsRange(f);
    NormalizeFieldsFixesPlain(NormalizeFields(f));
  }

  lemma {:induction false} NormResultsIdempotent(rs: Results)
    ensures NormResults(NormResults(rs)) == NormResults(rs)
  {
    if rs.Entry? {
      NormalizeFixesExactlyPlain(rs.result.output);
      NormalizeFieldsIdempotent(rs.result.metadata);
      NormResultsIdempotent(rs.rest);
    }
  }

  lemma {:induction false} NormPut(rs: Results, name: string, r: StepResult)
    ensures NormResults(Put(rs, name, r)) == Put(NormResults(rs), name, NormResult(r))
  {
    if rs.Entry? {
      NormPut(rs.rest, name, r);
    }
  }

  /** Token usage and the normalised metadata of a finished workflow survive a checkpoint of its results. */
  lemma {:induction false} NormResultFields(rs: Results)
    ensures SumUsage(NormResults(rs)) == SumUsage(rs)
    ensures NormalizeFields(ResultFields(NormResults(rs))) == NormalizeFields(ResultFields(rs))
  {
    if rs.Entry? {
      NormResultFields(rs.rest);
      NormalizeFixesExactlyPlain(rs.result.output);
      NormalizeFieldsIdempotent(rs.result.metadata);
      NormResultValue(rs.result);
      NormResultValue(NormResult(rs.result));
    }
  }

  lemma {:induction false} NormField(k: string, v: Value, rest: Fields)
    ensures NormalizeFields(Field(k, v, rest)) == Field(k, Normalize(v), NormalizeFields(rest))
  {
  }

  lemma {:induction false} NormResultValue(r: StepResult)
    ensures Normalize(ResultValue(r)) ==
            Dict(Field("output", Normalize(r.output), Field("metadata", Dict(NormalizeFields(r.metadata)),
                 Field("usage", Normalize(UsageValue(r.usage)), NoFields))))
  {
    var usage := Field("usage", UsageValue(r.usage), NoFields);
    var metadata := Field("metadata", Dict(r.metadata), usage);
    NormField("usage", UsageValue(r.usage), NoFields);
    NormField("metadata", Dict(r.metadata), usage);
    NormField("output", r.output, metadata);
  }

  lemma {:induction false} FinishMatch(cur: Value, rs: Results, rs': Results, total: nat)
    requires NormResults(rs) == NormResults(rs')
    ensures NormResult(Finish(cur, rs, total)) == NormResult(Finish(cur, rs', total))
  {
    NormResultFields(rs);
    NormResultFields(rs');
    var total_ := Field("total_steps_executed", Num(total), NoFields);
    NormField("intermediate_results", Dict(ResultFields(rs)), total_);
    NormField("intermediate_results", Dict(ResultFields(rs')), total_);
  }

  lemma {:induction false} FramesCons(f: Frame, fs: seq<Frame>)
    ensures NormFrames([f] + fs) == [NormFrame(f)] + NormFrames(fs)
  {
  }

  lemma {:induction false} AfterContinues(s: Run, done: Completion, f: Frame, a: Run, c: Run, b: Run)
    requires Continues(a, c, b)
    ensures Continues(After(s, done, f, a), c, After(s, done, f, b))
  {
    FramesCons(f, a.cursors);
    FramesCons(f, b.cursors);
    assert (s.log + [done] + a.log) + c.log == s.log + [done] + b.log;
  }

  lemma {:induction false} AfterTail(s: Run, done: Completion, f: Frame, c: Run, b: Run)
    requires Tail(c, b)
    ensures Tail(c, After(s, done, f, b))
  {
    FramesCons(f, b.cursors);
  }

  lemma {:induction false} AfterMatch(s: Run, done: Completion, f: Frame, f': Frame, rest: Run, rest': Run)
    requires NormFrame(f) == NormFrame(f') && MatchRun(rest, rest')
    ensures MatchRun(After(s, done, f, rest), After(s, done, f', rest'))
  {
    FramesCons(f, rest.cursors);
    FramesCons(f', rest'.cursors);
  }

  /** A run depends on the results carried so far only up to normalisation. */
  lemma {:induction false} ResultsCongruence(env: Env, at: seq<nat>, steps: seq<Step>, i: nat, cur: Value,
                                             orig: Value, rs: Results, rs': Results, nested: Option<Frame>)
    requires NormResults(rs) == NormResults(rs')
    ensures MatchRun(RunFrom(env, at, steps, i, cur, orig, rs, nested), RunFrom(env, at, steps, i, cur, orig, rs', nested))
    decreases if i < |steps| then |steps| - i else 0
  {
    if i >= |steps| {
      FinishMatch(cur, rs, rs', |steps|);
    } else {
      var s := RunStep(env, at + [i], steps[i], cur, nested);
      if s.outcome.Done? {
        var r := s.outcome.result;
        var p, p' := Put(rs, steps[i].name, r), Put(rs', steps[i].name, r);
        NormPut(rs, steps[i].name, r);
        NormPut(rs', steps[i].name, r);
        ResultsCongruence(env, at, steps, i + 1, r.output, orig, p, p', None);
        AfterMatch(s, Completion(at + [i], r.output), Frame(i + 1, p, r.output, orig, None),
                   Frame(i + 1, p', r.output, orig, None),
                   RunFrom(env, at, steps, i + 1, r.output, orig, p, None),
                   RunFrom(env, at, steps, i + 1, r.output, orig, p', None));
      }
    }
  }

  lemma {:induction false} RevisionPlain(env: Env, step: Step, input: Value, current: Value, attempt: nat)
    requires step.Revision? && attempt <= step.maxRevisions && PlainStep(step) && Plain(current)
    ensures var o := RunRevision(env, step, input, current, attempt).outcome; o.Done? ==> Plain(o.result.output)
    decreases step.maxRevisions - attempt
  {
    var w := step.worker(current);
    if w.Returned? {
      var req := Request(RequestId(env.runId, step.gate, attempt), step.prompt(w.result.output));
      var reply := env.ask(req);
      if reply.Some? && reply.value.decision == Revise && attempt < step.maxRevisions {
        var next := Text(step.brief(input, w.result.output, attempt + 1, ContentOr(reply.value, "")));
        RevisionPlain(env, step, input, next, attempt + 1);
      }
    }
  }

  /** Plain workflows keep plain values plain. */
  lemma {:induction false} StepPlain(env: Env, at: seq<nat>, step: Step, input: Value)
    requires PlainStep(step) && Plain(input)
    ensures var o := RunStep(env, at, step, input, None).outcome; o.Done? ==> Plain(o.result.output)
    decreases step, 0, 0
  {
    match step
    case Func(_, _) =>
    case Gate(_, _) =>
    case Revision(_, _, _, _, _, _) => RevisionPlain(env, step, input, input, 0);
    case Sub(_, steps) => RunPlain(env, at, steps, 0, input, input, NoResults);
  }

  lemma {:induction false} RunPlain(env: Env, at: seq<nat>, steps: seq<Step>, i: nat, cur: Value, orig: Value,
                                    rs: Results)
    requires PlainSteps(steps) && Plain(cur)
    ensures var o := RunFrom(env, at, steps, i, cur, orig, rs, None).outcome; o.Done? ==> Plain(o.result.output)
    decreases steps, 1, if i < |steps| then |steps| - i else 0
  {
    if i < |steps| {
      StepPlain(env, at + [i], steps[i], cur);
      var s := RunStep(env, at + [i], steps[i], cur, None);
      if s.outcome.Done? {
        RunPlain(env, at, steps, i + 1, s.outcome.result.output, orig, Put(rs, steps[i].name, s.outcome.result));
      }
    }
  }

  /******* More answers never change what already happened *******/

  lemma {:induction false} RevisionMonotone(e: Env, e': Env, step: Step, input: Value, current: Value, attempt: nat)
    requires Extends(e, e') && step.Revision? && attempt <= step.maxRevisions
    requires !RunRevision(e, step, input, current, attempt).outcome.Suspended?
    ensures RunRevision(e', step, input, current, attempt) == RunRevision(e, step, input, current, attempt)
    decreases step.maxRevisions - attempt
  {
    var w := step.worker(current);
    if w.Returned? {
      var req := Request(RequestId(e.runId, step.gate, attempt), step.prompt(w.result.output));
      var reply := e.ask(req);
      assert e'.ask(req) == reply;
      if reply.value.decision == Revise && attempt < step.maxRevisions {
        var next := Text(step.brief(input, w.result.output, attempt + 1, ContentOr(reply.value, "")));
        RevisionMonotone(e, e', step, input, next, attempt + 1);
      }
    }
  }

  lemma {:induction false} StepMonotone(e: Env, e': Env, at: seq<nat>, step: Step, input: Value, nested: Option<Frame>)
    requires Extends(e, e') && !RunStep(e, at, step, input, nested).outcome.Suspended?
    ensures RunStep(e', at, step, input, nested) == RunStep(e, at, step, input, nested)
    decreases step, 0, 0
  {
    match step
    case Func(_, _) =>
    case Gate(name, prompt) =>
      assert e.ask(Request(RequestId(e.runId, name, 0), prompt(input))).Some?;
    case Revision(_, _, _, _, _, _) => RevisionMonotone(e, e', step, input, input, 0);
    case Sub(_, steps) =>
      if nested.None? {
        RunMonotone(e, e', at, steps, 0, input, input, NoResults, None);
      } else {
        var f := nested.value;
        RunMonotone(e, e', at, steps, f.index, f.lastOutput, input, f.completed, f.nested);
      }
  }

  /** A run that needed no further answer is the same run under any environment that extends its own. */
  lemma {:induction false} RunMonotone(e: Env, e': Env, at: seq<nat>, steps: seq<Step>, i: nat, cur: Value,
                                       orig: Value, rs: Results, nested: Option<Frame>)
    requires Extends(e, e') && !RunFrom(e, at, steps, i, cur, orig, rs, nested).outcome.Suspended?
    ensures RunFrom(e', at, steps, i, cur, orig, rs, nested) == RunFrom(e, at, steps, i, cur, orig, rs, nested)
    decreases steps, 1, if i < |steps| then |steps| - i else 0
  {
    if i < |steps| {
      StepMonotone(e, e', at + [i], steps[i], cur, nested);
      var s := RunStep(e, at + [i], steps[i], cur, nested);
      if s.outcome.Done? {
        RunMonotone(e, e', at, steps, i + 1, s.outcome.result.output, orig, Put(rs, steps[i].name, s.outcome.result),
                    None);
      }
    }
  }

  /******* Resume refines replay *******/

  lemma {:induction false} RevisionLogEmpty(env: Env, step: Step, input: Value, current: Value, attempt: nat)
    requires step.Revision? && attempt <= step.maxRevisions
    ensures var r := RunRevision(env, step, input, current, attempt);
            r.log == [] && r.cursors == [] && (r.outcome.Suspended? ==> r.outcome.frame == None)
    decreases step.maxRevisions - attempt
  {
    var w := step.worker(current);
    if w.Returned? && attempt < step.maxRevisions {
      var reply := env.ask(Request(RequestId(env.runId, step.gate, attempt), step.prompt(w.result.output)));
      if reply.Some? {
        RevisionLogEmpty(env, step, input, Text(step.brief(input, w.result.output, attempt + 1, ContentOr(reply.value, ""))),
                         attempt + 1);
      }
    }
  }

  lemma {:induction false} StepReplay(e: Env, e': Env, at: seq<nat>, step: Step, input: Value)
    requires Extends(e, e') && PlainStep(step) && Plain(input)
    requires RunStep(e, at, step, input, None).outcome.Suspended?
    ensures var a := RunStep(e, at, step, input, None);
            var child := a.outcome.frame;
            var b := RunStep(e', at, step, input, None);
            var c := RunStep(e', at, step, input, if child.None? then None else Some(NormFrame(child.value)));
            Match(b.outcome, c.outcome) && b.log == a.log + c.log
    decreases step, 0, 0
  {
    match step
    case Func(_, _) =>
    case Gate(_, _) =>
    case Revision(_, _, _, _, _, _) =>
      RevisionLogEmpty(e, step, input, input, 0);
      RevisionLogEmpty(e', step, input, input, 0);
    case Sub(_, steps) =>
      RunReplay(e, e', at, steps, 0, input, input, NoResults);
  }

  /** A run is one step and the rest. */
  lemma {:induction false} RunUnfold(env: Env, at: seq<nat>, steps: seq<Step>, i: nat, cur: Value, orig: Value,
                                     rs: Results, nested: Option<Frame>)
    requires i < |steps|
    ensures var s := RunStep(env, at + [i], steps[i], cur, nested);
            RunFrom(env, at, steps, i, cur, orig, rs, nested) ==
            match s.outcome
            case Suspended(req, child) => Run(Suspended(req, Some(Frame(i, rs, cur, orig, child))), s.log, [], s.asked)
            case Raised(e) => Run(Raised(e), s.log, [], s.asked)
            case Done(r) =>
              After(s, Completion(at + [i], r.output), Frame(i + 1, Put(rs, steps[i].name, r), r.output, orig, None),
                    RunFrom(env, at, steps, i + 1, r.output, orig, Put(rs, steps[i].name, r), None))
  {
  }

  /** Two executions of step `i` that match, followed by the same remaining steps, match. */
  lemma {:induction false} ContinueMatch(env: Env, at: seq<nat>, steps: seq<Step>, i: nat, cur: Value, orig: Value,
                                         rs: Results, nested: Option<Frame>, done: seq<Completion>)
    requires i < |steps|
    requires var sb := RunStep(env, at + [i], steps[i], cur, None);
             var sc := RunStep(env, at + [i], steps[i], cur, nested);
             Match(sb.outcome, sc.outcome) && sb.log == done + sc.log
    ensures var b := RunFrom(env, at, steps, i, cur, orig, rs, None);
            var c := RunFrom(env, at, steps, i, cur, orig, NormResults(rs), nested);
            && Match(b.outcome, c.outcome) && b.log == done + c.log
            && NormFrames(b.cursors) == NormFrames(c.cursors)
  {
    RunUnfold(env, at, steps, i, cur, orig, rs, None);
    RunUnfold(env, at, steps, i, cur, orig, NormResults(rs), nested);
    NormResultsIdempotent(rs);
    var sb, sc := RunStep(env, at + [i], steps[i], cur, None), RunStep(env, at + [i], steps[i], cur, nested);
    if sb.outcome.Done? {
      var r, r' := sb.outcome.result, sc.outcome.result;
      NormPut(rs, steps[i].name, r);
      NormPut(NormResults(rs), steps[i].name, r');
      var p, p' := Put(rs, steps[i].name, r), Put(NormResults(rs), steps[i].name, r');
      ResultsCongruence(env, at, steps, i + 1, r.output, orig, p, p', None);
      var rest := RunFrom(env, at, steps, i + 1, r.output, orig, p, None);
      var rest' := RunFrom(env, at, steps, i + 1, r.output, orig, p', None);
      FramesCons(Frame(i + 1, p, r.output, orig, None), rest.cursors);
      FramesCons(Frame(i + 1, p', r.output, orig, None), rest'.cursors);
    }
  }

  /** A run that suspends at step `i` itself resumes there, with what that step saved. */
  lemma {:induction false} SuspendedHere(e: Env, e': Env, at: seq<nat>, steps: seq<Step>, i: nat, cur: Value,
                                         orig: Value,
                                         rs: Results)
    requires i < |steps| && Plain(cur) && RunStep(e, at + [i], steps[i], cur, None).outcome.Suspended?
    requires var s := RunStep(e, at + [i], steps[i], cur, None);
             var child := s.outcome.frame;
             var sb := RunStep(e', at + [i], steps[i], cur, None);
             var sc := RunStep(e', at + [i], steps[i], cur, if child.None? then None else Some(NormFrame(child.value)));
             Match(sb.outcome, sc.outcome) && sb.log == s.log + sc.log
    ensures var a := RunFrom(e, at, steps, i, cur, orig, rs, None);
            && a.outcome.Suspended? && a.outcome.frame.Some?
            && var f := NormFrame(a.outcome.frame.value);
               var b := RunFrom(e', at, steps, i, cur, orig, rs, None);
               var c := RunFrom(e', at, steps, f.index, f.lastOutput, orig, f.completed, f.nested);
               Continues(a, c, b) && f.originalInput == Normalize(orig)
  {
    var s := RunStep(e, at + [i], steps[i], cur, None);
    var child := s.outcome.frame;
    NormalizeFixesExactlyPlain(cur);
    RunUnfold(e, at, steps, i, cur, orig, rs, None);
    ContinueMatch(e', at, steps, i, cur, orig, rs, if child.None? then None else Some(NormFrame(child.value)), s.log);
  }

  /** The frame of a suspended run, normalised and resumed with more answers, ends like the run itself
      redone with those answers, and completes exactly the steps the suspended run had not completed. */
  lemma {:induction false} RunReplay(e: Env, e': Env, at: seq<nat>, steps: seq<Step>, i: nat, cur: Value,
                                     orig: Value, rs: Results)
    requires Extends(e, e') && PlainSteps(steps) && Plain(cur)
    requires RunFrom(e, at, steps, i, cur, orig, rs, None).outcome.Suspended?
    ensures var a := RunFrom(e, at, steps, i, cur, orig, rs, None);
            && a.outcome.frame.Some?
            && var f := NormFrame(a.outcome.frame.value);
               var b := RunFrom(e', at, steps, i, cur, orig, rs, None);
               var c := RunFrom(e', at, steps, f.index, f.lastOutput, orig, f.completed, f.nested);
               Continues(a, c, b) && f.originalInput == Normalize(orig)
    decreases steps, 1, if i < |steps| then |steps| - i else 0
  {
    var s := RunStep(e, at + [i], steps[i], cur, None);
    if s.outcome.Suspended? {
      StepReplay(e, e', at + [i], steps[i], cur);
      SuspendedHere(e, e', at, steps, i, cur, orig, rs);
    } else {
      BothUnfold(e, e', at, steps, i, cur, orig, rs);
      var r := s.outcome.result;
      var rs' := Put(rs, steps[i].name, r);
      RunReplay(e, e', at, steps, i + 1, r.output, orig, rs');
      var a := RunFrom(e, at, steps, i + 1, r.output, orig, rs', None);
      var b := RunFrom(e', at, steps, i + 1, r.output, orig, rs', None);
      var f := NormFrame(a.outcome.frame.value);
      AfterContinues(s, Completion(at + [i], r.output), Frame(i + 1, rs', r.output, orig, None), a,
                     RunFrom(e', at, steps, f.index, f.lastOutput, orig, f.completed, f.nested), b);
    }
  }

  lemma {:induction false} MatchTail(b: Run, c: Run)
    requires MatchRun(b, c)
    ensures Tail(c, b)
  {
  }

  /** Restoring the results carried so far changes nothing that a later checkpoint or a caller could see. */
  lemma {:induction false} RestoredTail(env: Env, at: seq<nat>, steps: seq<Step>, i: nat, cur: Value, orig: Value,
                                        rs: Results)
    ensures Tail(RunFrom(env, at, steps, i, cur, orig, NormResults(rs), None), RunFrom(env, at, steps, i, cur, orig, rs, None))
  {
    NormResultsIdempotent(rs);
    ResultsCongruence(env, at, steps, i, cur, orig, rs, NormResults(rs), None);
    MatchTail(RunFrom(env, at, steps, i, cur, orig, rs, None),
              RunFrom(env, at, steps, i, cur, orig, NormResults(rs), None));
  }

  /** When step `i` completes without a new answer, it completes in the same way under more answers. */
  lemma {:induction false} BothUnfold(e: Env, e': Env, at: seq<nat>, steps: seq<Step>, i: nat, cur: Value,
                                      orig: Value, rs: Results)
    requires Extends(e, e') && PlainSteps(steps) && Plain(cur) && i < |steps|
    requires RunStep(e, at + [i], steps[i], cur, None).outcome.Done?
    ensures var s := RunStep(e, at + [i], steps[i], cur, None);
            var r := s.outcome.result;
            var rs' := Put(rs, steps[i].name, r);
            var done, cursor := Completion(at + [i], r.output), Frame(i + 1, rs', r.output, orig, None);
            && Plain(r.output)
            && RunFrom(e, at, steps, i, cur, orig, rs, None)
                 == After(s, done, cursor, RunFrom(e, at, steps, i + 1, r.output, orig, rs', None))
            && RunFrom(e', at, steps, i, cur, orig, rs, None)
                 == After(s, done, cursor, RunFrom(e', at, steps, i + 1, r.output, orig, rs', None))
  {
    RunUnfold(e, at, steps, i, cur, orig, rs, None);
    RunUnfold(e', at, steps, i, cur, orig, rs, None);
    StepMonotone(e, e', at + [i], steps[i], cur, None);
    StepPlain(e, at + [i], steps[i], cur);
  }

  /** Executing the rest of `steps` from a restored frame. */
  function FromFrame(env: Env, at: seq<nat>, steps: seq<Step>, orig: Value, f: Frame): Run {
    RunFrom(env, at, steps, f.index, f.lastOutput, orig, f.completed, f.nested)
  }

  lemma {:induction false} FirstCursorReplay(e: Env, at: seq<nat>, steps: seq<Step>, i: nat, cur: Value, orig: Value,
                                             rs: Results)
    requires Plain(cur)
    ensures Tail(FromFrame(e, at, steps, orig, NormFrame(Frame(i, rs, cur, orig, None))),
                 RunFrom(e, at, steps, i, cur, orig, rs, None))
  {
    NormalizeFixesExactlyPlain(cur);
    RestoredTail(e, at, steps, i, cur, orig, rs);
  }

  /** The same for a cursor: resuming from the cursor left by the k-th completed step ends like the whole
      run redone, completes only a tail of its steps, and leaves the cursors that follow. */
  lemma {:induction false} CursorReplay(e: Env, e': Env, at: seq<nat>, steps: seq<Step>, i: nat, cur: Value,
                                        orig: Value, rs: Results, k: nat)
    requires Extends(e, e') && PlainSteps(steps) && Plain(cur)
    requires k < |RunFrom(e, at, steps, i, cur, orig, rs, None).cursors|
    ensures var f := NormFrame(RunFrom(e, at, steps, i, cur, orig, rs, None).cursors[k]);
            && Tail(FromFrame(e', at, steps, orig, f), RunFrom(e', at, steps, i, cur, orig, rs, None))
            && f.originalInput == Normalize(orig)
    decreases k
  {
    var s := RunStep(e, at + [i], steps[i], cur, None);
    BothUnfold(e, e', at, steps, i, cur, orig, rs);
    var r := s.outcome.result;
    var rs' := Put(rs, steps[i].name, r);
    var done, cursor := Completion(at + [i], r.output), Frame(i + 1, rs', r.output, orig, None);
    var rest := RunFrom(e, at, steps, i + 1, r.output, orig, rs', None);
    var rest' := RunFrom(e', at, steps, i + 1, r.output, orig, rs', None);
    var f := NormFrame(([cursor] + rest.cursors)[k]);
    if k == 0 {
      FirstCursorReplay(e', at, steps, i + 1, r.output, orig, rs');
    } else {
      CursorReplay(e, e', at, steps, i + 1, r.output, orig, rs', k - 1);
    }
    AfterTail(s, done, cursor, FromFrame(e', at, steps, orig, f), rest');
  }
}
