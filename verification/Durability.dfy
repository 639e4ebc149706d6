/** Whole durable runs: any number of suspensions, answers, rebuilds, resumes and crashes. */
module Durability {
  import opened Values
  import opened Workflow
  import opened Resumption
  import opened Requests

  /** Every request is answered on the spot. */
  function Live(runId: string, human: Request -> Response): Env {
    Env(runId, r => Some(human(r)))
  }

  /** Requests are answered from the store, by request id. */
  function Recorded(runId: string, answers: map<string, Response>): Env {
    Env(runId, (r: Request) => if r.id in answers then Some(answers[r.id]) else None)
  }

  function Ids(asked: seq<Request>): set<string> {
    set r | r in asked :: r.id
  }

  /** Requests that share an id get the same answer from the human. */
  ghost predicate Coherent(human: Request -> Response, asked: seq<Request>) {
    forall a, b | a in asked && b in asked && a.id == b.id :: human(a) == human(b)
  }

  ghost predicate Consistent(answers: map<string, Response>, human: Request -> Response, asked: seq<Request>) {
    forall r | r in asked :: r.id in answers ==> answers[r.id] == human(r)
  }

  /******* One process against the uninterrupted run *******/

  /** `s` is the uninterrupted run `d`, or stops at a request of `d` that has no recorded answer. */
  ghost predicate Agrees(s: Run, d: Run, answers: map<string, Response>) {
    || (s == d && !d.outcome.Suspended? && forall r | r in d.asked :: r.id in answers)
    || (s.outcome.Suspended? && s.outcome.request in d.asked && s.outcome.request.id !in answers)
  }

  lemma {:induction false} RevisionAgrees(runId: string, answers: map<string, Response>, human: Request -> Response,
                                          step: Step, input: Value, current: Value, attempt: nat)
    requires step.Revision? && attempt <= step.maxRevisions
    requires Consistent(answers, human, RunRevision(Live(runId, human), step, input, current, attempt).asked)
    ensures Agrees(RunRevision(Recorded(runId, answers), step, input, current, attempt),
                   RunRevision(Live(runId, human), step, input, current, attempt), answers)
    decreases step.maxRevisions - attempt
  {
    var w := step.worker(current);
    if w.Returned? {
      var req := Request(RequestId(runId, step.gate, attempt), step.prompt(w.result.output));
      var d := RunRevision(Live(runId, human), step, input, current, attempt);
      assert d.asked[0] == req;
      var reply := human(req);
      if req.id in answers && reply.decision == Revise && attempt < step.maxRevisions {
        var next := Text(step.brief(input, w.result.output, attempt + 1, ContentOr(reply, "")));
        assert d.asked == [req] + RunRevision(Live(runId, human), step, input, next, attempt + 1).asked;
        RevisionAgrees(runId, answers, human, step, input, next, attempt + 1);
      }
    }
  }

  lemma {:induction false} StepAgrees(runId: string, answers: map<string, Response>, human: Request -> Response,
                                      at: seq<nat>, step: Step, input: Value)
    requires Consistent(answers, human, RunStep(Live(runId, human), at, step, input, None).asked)
    ensures Agrees(RunStep(Recorded(runId, answers), at, step, input, None),
                   RunStep(Live(runId, human), at, step, input, None), answers)
    decreases step, 0, 0
  {
    match step
    case Func(_, _) =>
    case Gate(name, prompt) =>
      var req := Request(RequestId(runId, name, 0), prompt(input));
      assert RunStep(Live(runId, human), at, step, input, None).asked[0] == req;
    case Revision(_, _, _, _, _, _) => RevisionAgrees(runId, answers, human, step, input, input, 0);
    case Sub(_, steps) => RunAgrees(runId, answers, human, at, steps, 0, input, input, NoResults);
  }

  lemma {:induction false} RunAgrees(runId: string, answers: map<string, Response>, human: Request -> Response,
                                     at: seq<nat>, steps: seq<Step>, i: nat, cur: Value, orig: Value, rs: Results)
    requires Consistent(answers, human, RunFrom(Live(runId, human), at, steps, i, cur, orig, rs, None).asked)
    ensures Agrees(RunFrom(Recorded(runId, answers), at, steps, i, cur, orig, rs, None),
                   RunFrom(Live(runId, human), at, steps, i, cur, orig, rs, None), answers)
    decreases steps, 1, if i < |steps| then |steps| - i else 0
  {
    if i < |steps| {
      var live := Live(runId, human);
      RunUnfold(live, at, steps, i, cur, orig, rs, None);
      RunUnfold(Recorded(runId, answers), at, steps, i, cur, orig, rs, None);
      StepAgrees(runId, answers, human, at + [i], steps[i], cur);
      var s := RunStep(live, at + [i], steps[i], cur, None);
      if s.outcome.Done? {
        RunAgrees(runId, answers, human, at, steps, i + 1, s.outcome.result.output, orig,
                  Put(rs, steps[i].name, s.outcome.result));
      }
    }
  }

  /******* Suspend, answer, resume *******/

  /** The latest process of a durable run, the answers on record, and every completion so far. */
  datatype Process = Process(answers: map<string, Response>, run: Run, log: seq<Completion>)

  /** The durable run after up to `n` resumes: each one records the human's answer to the pending
      request, restores the saved frame and executes from it. */
  function Chain(runId: string, human: Request -> Response, steps: seq<Step>, input: Value, n: nat): Process {
    if n == 0 then
      var run := Start(Recorded(runId, map[]), steps, input);
      Process(map[], run, run.log)
    else Advance(runId, human, steps, Chain(runId, human, steps, input, n - 1))
  }

  /** One answer and one resume; a process that is not suspended stays as it is. */
  function Advance(runId: string, human: Request -> Response, steps: seq<Step>, p: Process): Process {
    match p.run.outcome
    case Suspended(req, Some(f)) =>
      var answers := p.answers[req.id := human(req)];
      var run := Resume(Recorded(runId, answers), steps, NormFrame(f));
      Process(answers, run, p.log + run.log)
    case _ => p
  }

  lemma {:induction false} ExtendAnswers(runId: string, answers: map<string, Response>, id: string, r: Response)
    requires id !in answers
    ensures Extends(Recorded(runId, answers), Recorded(runId, answers[id := r]))
  {
  }

  /** What holds of every process in a chain: it matches the whole workflow redone with its answers. */
  ghost predicate ChainInvariant(runId: string, human: Request -> Response, steps: seq<Step>, input: Value,
                                 p: Process) {
    var d := Start(Live(runId, human), steps, input);
    var s := Start(Recorded(runId, p.answers), steps, input);
    && Consistent(p.answers, human, d.asked)
    && p.answers.Keys <= Ids(d.asked)
    && Match(s.outcome, p.run.outcome)
    && p.log == s.log
  }

  lemma {:induction false} ChainStep(runId: string, human: Request -> Response, steps: seq<Step>, input: Value,
                                     p: Process)
    requires PlainSteps(steps) && Plain(input)
    requires Coherent(human, Start(Live(runId, human), steps, input).asked)
    requires ChainInvariant(runId, human, steps, input, p) && p.run.outcome.Suspended?
    ensures p.run.outcome.frame.Some? && p.run.outcome.request.id !in p.answers
    ensures ChainInvariant(runId, human, steps, input, Advance(runId, human, steps, p))
    ensures |Advance(runId, human, steps, p).answers| == |p.answers| + 1
  {
    var d := Start(Live(runId, human), steps, input);
    var e := Recorded(runId, p.answers);
    var s := Start(e, steps, input);
    RunAgrees(runId, p.answers, human, [], steps, 0, input, input, NoResults);
    var req := p.run.outcome.request;
    var answers := p.answers[req.id := human(req)];
    var e' := Recorded(runId, answers);
    ExtendAnswers(runId, p.answers, req.id, human(req));
    RunReplay(e, e', [], steps, 0, input, input, NoResults);
    NormalizeFixesExactlyPlain(input);
    assert NormFrame(s.outcome.frame.value) == NormFrame(p.run.outcome.frame.value);
    assert req.id in Ids(d.asked);
    AnswerAdded(p.answers, req.id, human(req));
  }

  lemma {:induction false} ChainInvariantHolds(runId: string, human: Request -> Response, steps: seq<Step>,
                                               input: Value, n: nat)
    requires PlainSteps(steps) && Plain(input)
    requires Coherent(human, Start(Live(runId, human), steps, input).asked)
    ensures var p := Chain(runId, human, steps, input, n);
            && ChainInvariant(runId, human, steps, input, p)
            && (|p.answers| == n || (|p.answers| <= n && !p.run.outcome.Suspended?))
  {
    if n > 0 {
      ChainInvariantHolds(runId, human, steps, input, n - 1);
      var p := Chain(runId, human, steps, input, n - 1);
      if p.run.outcome.Suspended? {
        ChainStep(runId, human, steps, input, p);
      }
    }
  }

  lemma {:induction false} AnswerAdded(answers: map<string, Response>, id: string, r: Response)
    requires id !in answers
    ensures |answers[id := r]| == |answers| + 1
  {
    assert answers[id := r].Keys == answers.Keys + {id};
  }

  lemma {:induction false} SubsetSize<T>(a: set<T>, b: set<T>)
    requires a <= b
    ensures |a| <= |b| && (|a| == |b| ==> a == b)
  {
    assert b == a + (b - a);
    assert |b| == |a| + |b - a|;
  }

  /** Resume equivalence. For every workflow, nested to any depth, every input and every human: the chain
      of suspensions and resumes asks each request id once, stops after exactly as many resumes as there
      are ids, ends like the run in which every gate is answered at once, and over all its processes
      completes the same steps in the same order, each as often as that run does. */
  lemma {:induction false} ResumeEquivalence(runId: string, human: Request -> Response, steps: seq<Step>, input: Value)
    requires PlainSteps(steps) && Plain(input)
    requires Coherent(human, Start(Live(runId, human), steps, input).asked)
    ensures var d := Start(Live(runId, human), steps, input);
            var n := |Ids(d.asked)|;
            && (forall k | 0 <= k < n :: Chain(runId, human, steps, input, k).run.outcome.Suspended?)
            && !Chain(runId, human, steps, input, n).run.outcome.Suspended?
            && Match(d.outcome, Chain(runId, human, steps, input, n).run.outcome)
            && Chain(runId, human, steps, input, n).log == d.log
            && Chain(runId, human, steps, input, n).answers.Keys == Ids(d.asked)
  {
    var d := Start(Live(runId, human), steps, input);
    var n := |Ids(d.asked)|;
    forall k | 0 <= k <= n
      ensures var p := Chain(runId, human, steps, input, k);
              && ChainInvariant(runId, human, steps, input, p)
              && (p.run.outcome.Suspended? <==> k < n)
              && (k == n ==> p.answers.Keys == Ids(d.asked))
    {
      ChainReaches(runId, human, steps, input, k);
    }
    RunAgrees(runId, Chain(runId, human, steps, input, n).answers, human, [], steps, 0, input, input, NoResults);
  }

  /** A process stops for a human exactly while some request id of the uninterrupted run is unanswered. */
  lemma {:induction false} SuspendedIffUnanswered(runId: string, human: Request -> Response, steps: seq<Step>,
                                                  input: Value, p: Process)
    requires ChainInvariant(runId, human, steps, input, p)
    ensures p.run.outcome.Suspended? <==> p.answers.Keys != Ids(Start(Live(runId, human), steps, input).asked)
  {
    var d := Start(Live(runId, human), steps, input);
    RunAgrees(runId, p.answers, human, [], steps, 0, input, input, NoResults);
    if p.run.outcome.Suspended? {
      assert p.run.outcome.request.id in Ids(d.asked);
    }
  }

  lemma {:induction false} ChainReaches(runId: string, human: Request -> Response, steps: seq<Step>, input: Value,
                                        k: nat)
    requires PlainSteps(steps) && Plain(input)
    requires Coherent(human, Start(Live(runId, human), steps, input).asked)
    requires k <= |Ids(Start(Live(runId, human), steps, input).asked)|
    ensures var d := Start(Live(runId, human), steps, input);
            var p := Chain(runId, human, steps, input, k);
            && ChainInvariant(runId, human, steps, input, p)
            && |p.answers| == k
            && (p.run.outcome.Suspended? <==> k < |Ids(d.asked)|)
            && (k == |Ids(d.asked)| ==> p.answers.Keys == Ids(d.asked))
  {
    ChainInvariantHolds(runId, human, steps, input, k);
    var p := Chain(runId, human, steps, input, k);
    SuspendedIffUnanswered(runId, human, steps, input, p);
    SubsetSize(p.answers.Keys, Ids(Start(Live(runId, human), steps, input).asked));
  }

  lemma {:induction false} ChainStays(runId: string, human: Request -> Response, steps: seq<Step>, input: Value,
                                      n: nat, m: nat)
    requires n <= m && !Chain(runId, human, steps, input, n).run.outcome.Suspended?
    ensures Chain(runId, human, steps, input, m) == Chain(runId, human, steps, input, n)
  {
    if n < m {
      ChainStays(runId, human, steps, input, n, m - 1);
    }
  }

  /** With distinct gate names this holds for any human, and every gate of the run is asked exactly once. */
  lemma {:induction false} DistinctGatesResume(runId: string, human: Request -> Response, steps: seq<Step>,
                                               input: Value)
    requires PlainSteps(steps) && Plain(input) && DistinctGates(steps)
    ensures var d := Start(Live(runId, human), steps, input);
            var p := Chain(runId, human, steps, input, |d.asked|);
            && (forall k | 0 <= k < |d.asked| :: Chain(runId, human, steps, input, k).run.outcome.Suspended?)
            && Match(d.outcome, p.run.outcome) && p.log == d.log
            && (forall r | r in d.asked :: r.id in p.answers && p.answers[r.id] == human(r))
  {
    var d := Start(Live(runId, human), steps, input);
    RunAsksOnce(Live(runId, human), [], steps, 0, input, input, NoResults);
    DistinctIdsCount(d.asked);
    ResumeEquivalence(runId, human, steps, input);
    ChainInvariantHolds(runId, human, steps, input, |d.asked|);
    forall r | r in d.asked ensures r.id in Ids(d.asked) {
    }
  }

  lemma {:induction false} DistinctIdsCount(asked: seq<Request>)
    requires DistinctIds(asked)
    ensures |Ids(asked)| == |asked|
  {
    if asked != [] {
      var front, last := asked[..|asked| - 1], asked[|asked| - 1];
      DistinctIdsCount(front);
      assert asked == front + [last];
      assert Ids(asked) == Ids(front) + {last.id};
      assert last.id !in Ids(front);
    }
  }

  /******* Exactly once, and only forward *******/

  predicate Under(path: seq<nat>, at: seq<nat>, i: nat) {
    |at| < |path| && path[..|at|] == at && i <= path[|at|]
  }

  ghost predicate DistinctPaths(log: seq<Completion>) {
    forall a, b | 0 <= a < b < |log| :: log[a].path != log[b].path
  }

  lemma {:induction false} StepLog(env: Env, at: seq<nat>, step: Step, input: Value, nested: Option<Frame>)
    ensures var log := RunStep(env, at, step, input, nested).log;
            DistinctPaths(log) && forall c | c in log :: Under(c.path, at, 0)
    decreases step, 0, 0
  {
    match step
    case Func(_, _) =>
    case Gate(_, _) =>
    case Revision(_, _, _, _, _, _) => RevisionLogEmpty(env, step, input, input, 0);
    case Sub(_, steps) =>
      if nested.None? {
        RunLog(env, at, steps, 0, input, input, NoResults, None);
      } else {
        var f := nested.value;
        RunLog(env, at, steps, f.index, f.lastOutput, input, f.completed, f.nested);
      }
  }

  /** One execution from step `i` completes no step twice and no step before `i`. */
  lemma {:induction false} RunLog(env: Env, at: seq<nat>, steps: seq<Step>, i: nat, cur: Value, orig: Value,
                                  rs: Results, nested: Option<Frame>)
    ensures var log := RunFrom(env, at, steps, i, cur, orig, rs, nested).log;
            DistinctPaths(log) && forall c | c in log :: Under(c.path, at, i)
    decreases steps, 1, if i < |steps| then |steps| - i else 0
  {
    if i < |steps| {
      StepLog(env, at + [i], steps[i], cur, nested);
      var s := RunStep(env, at + [i], steps[i], cur, nested);
      forall c | c in s.log ensures Under(c.path, at, i) && |c.path| > |at| + 1 && c.path[|at|] == i {
        assert c.path[..|at|] == c.path[..|at + [i]|][..|at|] == at;
        assert c.path[|at|] == c.path[..|at + [i]|][|at|];
      }
      if s.outcome.Done? {
        var r := s.outcome.result;
        RunLog(env, at, steps, i + 1, r.output, orig, Put(rs, steps[i].name, r), None);
      }
    }
  }

  /** Over a whole durable run, across all its processes, no step completes twice. */
  lemma {:induction false} ExactlyOnce(runId: string, human: Request -> Response, steps: seq<Step>, input: Value,
                                       n: nat)
    requires PlainSteps(steps) && Plain(input)
    requires Coherent(human, Start(Live(runId, human), steps, input).asked)
    ensures DistinctPaths(Chain(runId, human, steps, input, n).log)
  {
    ChainInvariantHolds(runId, human, steps, input, n);
    var p := Chain(runId, human, steps, input, n);
    RunLog(Recorded(runId, p.answers), [], steps, 0, input, input, NoResults, None);
  }

  lemma {:induction false} SuspendedAt(env: Env, at: seq<nat>, steps: seq<Step>, i: nat, cur: Value, orig: Value,
                                       rs: Results, nested: Option<Frame>)
    ensures var o := RunFrom(env, at, steps, i, cur, orig, rs, nested).outcome;
            o.Suspended? ==> o.frame.Some? && i <= o.frame.value.index < |steps|
    decreases if i < |steps| then |steps| - i else 0
  {
    if i < |steps| {
      var s := RunStep(env, at + [i], steps[i], cur, nested);
      if s.outcome.Done? {
        SuspendedAt(env, at, steps, i + 1, s.outcome.result.output, orig, Put(rs, steps[i].name, s.outcome.result),
                    None);
      }
    }
  }

  /** Each resume starts at the step it suspended at, completes nothing before it, and never moves back.
      No assumption on the steps, the values or the human is needed. */
  lemma {:induction false} ResumesMoveForward(runId: string, human: Request -> Response, steps: seq<Step>,
                                              input: Value, n: nat)
    requires Chain(runId, human, steps, input, n).run.outcome.Suspended?
    ensures Chain(runId, human, steps, input, n).run.outcome.frame.Some?
    ensures var f := Chain(runId, human, steps, input, n).run.outcome.frame.value;
            var next := Chain(runId, human, steps, input, n + 1).run;
            && (forall c | c in next.log :: Under(c.path, [], f.index))
            && (next.outcome.Suspended? ==> next.outcome.frame.Some? && f.index <= next.outcome.frame.value.index)
  {
    var p := Chain(runId, human, steps, input, n);
    if n == 0 {
      SuspendedAt(Recorded(runId, map[]), [], steps, 0, input, input, NoResults, None);
    } else {
      ResumesMoveForward(runId, human, steps, input, n - 1);
    }
    var f := NormFrame(p.run.outcome.frame.value);
    var next := Chain(runId, human, steps, input, n + 1);
    RunLog(Recorded(runId, next.answers), [], steps, f.index, f.lastOutput, f.originalInput, f.completed, f.nested);
    SuspendedAt(Recorded(runId, next.answers), [], steps, f.index, f.lastOutput, f.originalInput, f.completed,
                f.nested);
  }
}
