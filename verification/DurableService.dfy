/** The stores, the sequential executor, the durable run and the resume service, as objects whose methods
    change state, each tied to the run it computes. */
module DurableService {
  import opened Values
  import opened Workflow
  import opened StepFlow
  import opened Resumption
  import opened Requests
  import opened Durability

  /******* Human-input requests and responses *******/

  datatype StoredRequest = StoredRequest(request: Request, runId: string)

  function Pending(requests: seq<StoredRequest>, responded: set<string>, runId: string): seq<Request> {
    if requests == [] then [] else
    var front := Pending(requests[..|requests| - 1], responded, runId);
    var last := requests[|requests| - 1];
    if last.request.id !in responded && last.runId == runId then front + [last.request] else front
  }

  lemma {:induction false} PendingExactly(requests: seq<StoredRequest>, responded: set<string>, runId: string,
                                          r: Request)
    ensures r in Pending(requests, responded, runId)
            <==> StoredRequest(r, runId) in requests && r.id !in responded
  {
    if requests != [] {
      PendingExactly(requests[..|requests| - 1], responded, runId, r);
      assert requests == requests[..|requests| - 1] + [requests[|requests| - 1]];
    }
  }

  predicate OnFile(requests: seq<StoredRequest>, id: string) {
    exists i | 0 <= i < |requests| :: requests[i].request.id == id
  }

  class HitlRequestStore {
    var requests: seq<StoredRequest>
    var responses: map<string, Response>

    constructor ()
      ensures requests == [] && responses == map[]
    {
      requests, responses := [], map[];
    }

    predicate Has(id: string)
      reads this
    {
      OnFile(requests, id)
    }

    /** A second request under the same id is refused and changes nothing. */
    method SaveRequest(req: Request, runId: string) returns (duplicate: bool)
      modifies this`requests
      ensures duplicate == old(Has(req.id))
      ensures requests == if duplicate then old(requests) else old(requests) + [StoredRequest(req, runId)]
    {
      duplicate := Has(req.id);
      if !duplicate {
        requests := requests + [StoredRequest(req, runId)];
      }
    }

    /** A second response under the same id is refused and changes nothing: the first answer stands. */
    method SaveResponse(id: string, response: Response) returns (duplicate: bool)
      modifies this`responses
      ensures duplicate == (id in old(responses))
      ensures responses == if duplicate then old(responses) else old(responses)[id := response]
    {
      duplicate := id in responses;
      if !duplicate {
        responses := responses[id := response];
      }
    }

    method GetPendingRequests(runId: string) returns (pending: seq<Request>)
      ensures pending == Pending(requests, responses.Keys, runId)
    {
      pending := [];
      for i := 0 to |requests|
        invariant pending == Pending(requests[..i], responses.Keys, runId)
      {
        assert requests[..i + 1][..i] == requests[..i];
        if requests[i].request.id !in responses && requests[i].runId == runId {
          pending := pending + [requests[i].request];
        }
      }
      assert requests[..|requests|] == requests;
    }
  }

  /** The durable provider: a recorded response is returned, otherwise the request is put on file and the
      caller must suspend. */
  method RequestInput(store: HitlRequestStore, req: Request, runId: string) returns (reply: Option<Response>)
    modifies store`requests
    ensures reply == Recorded(runId, store.responses).ask(req)
    ensures store.requests == old(store.requests) +
              if reply.None? && !old(store.Has(req.id)) then [StoredRequest(req, runId)] else []
  {
    if req.id in store.responses {
      return Some(store.responses[req.id]);
    }
    var _ := store.SaveRequest(req, runId);
    reply := None;
  }

  /******* Checkpoints *******/

  datatype Checkpoint = Checkpoint(id: nat, runId: string, frame: Frame, pending: Option<Request>, createdAt: nat)

  /** A checkpoint is preferred when it is newer, or as new and a suspension where the other is a cursor. */
  predicate Preferred(c: Checkpoint, d: Checkpoint) {
    d.createdAt < c.createdAt || (d.createdAt == c.createdAt && c.pending.Some? && d.pending.None?)
  }

  /** The checkpoint a run resumes from: scanning in save order, a checkpoint replaces the best so far only
      when it is strictly preferred to it. */
  function Latest(cs: seq<Checkpoint>, runId: string): Option<Checkpoint> {
    if cs == [] then None else
    var best, c := Latest(cs[..|cs| - 1], runId), cs[|cs| - 1];
    if c.runId == runId && (best.None? || Preferred(c, best.value)) then Some(c) else best
  }

  /** Checkpoint `i` is one of the run's and none of the run's is newer; of those that are as new it is a suspension if
      any is, and the first such. */
  ghost predicate MostRecent(cs: seq<Checkpoint>, runId: string, i: int) {
    && 0 <= i < |cs| && cs[i].runId == runId
    && (forall j | 0 <= j < |cs| && cs[j].runId == runId ::
          cs[j].createdAt <= cs[i].createdAt
          && (cs[j].createdAt == cs[i].createdAt && cs[j].pending.Some? ==> cs[i].pending.Some?))
    && (forall j | 0 <= j < i && cs[j].runId == runId && cs[j].createdAt == cs[i].createdAt ::
          cs[j].pending.None? && cs[i].pending.Some?)
  }

  /** The most recent checkpoint of the run; on a tie a suspension wins over a cursor, and of two equally
      good ones the one saved first. */
  lemma {:induction false} LatestIsMostRecent(cs: seq<Checkpoint>, runId: string)
    ensures Latest(cs, runId).None? <==> forall i | 0 <= i < |cs| :: cs[i].runId != runId
    ensures Latest(cs, runId).Some? ==> exists i :: MostRecent(cs, runId, i) && cs[i] == Latest(cs, runId).value
  {
    if cs != [] {
      var front, last := cs[..|cs| - 1], |cs| - 1;
      LatestIsMostRecent(front, runId);
      var best := Latest(front, runId);
      if best.None? {
        FirstIsMostRecent(cs, front, runId);
      } else {
        var i :| MostRecent(front, runId, i) && front[i] == best.value;
        NewerOrOlder(cs, runId, i);
      }
    }
  }

  /** The first checkpoint of a run. */
  lemma {:induction false} FirstIsMostRecent(cs: seq<Checkpoint>, front: seq<Checkpoint>, runId: string)
    requires cs != [] && front == cs[..|cs| - 1] && forall i | 0 <= i < |front| :: front[i].runId != runId
    ensures cs[|cs| - 1].runId == runId ==> MostRecent(cs, runId, |cs| - 1)
    ensures cs[|cs| - 1].runId != runId ==> forall i | 0 <= i < |cs| :: cs[i].runId != runId
  {
    assert forall i | 0 <= i < |front| :: cs[i] == front[i];
  }

  /** One more checkpoint takes over exactly when it is preferred. */
  lemma {:induction false} NewerOrOlder(cs: seq<Checkpoint>, runId: string, i: int)
    requires cs != [] && MostRecent(cs[..|cs| - 1], runId, i)
    ensures cs[i] == cs[..|cs| - 1][i]
    ensures var last := cs[|cs| - 1];
            if last.runId == runId && Preferred(last, cs[i]) then MostRecent(cs, runId, |cs| - 1) else MostRecent(cs, runId, i)
  {
    assert forall j | 0 <= j < |cs| - 1 :: cs[j] == cs[..|cs| - 1][j];
  }

  /** `clock` stands for the current time and for the supply of fresh checkpoint ids. */
  class CheckpointStore {
    var checkpoints: seq<Checkpoint>
    var clock: nat

    constructor ()
      ensures checkpoints == [] && clock == 0
    {
      checkpoints, clock := [], 0;
    }

    method Save(runId: string, frame: Frame, pending: Option<Request>)
      modifies this
      ensures checkpoints == old(checkpoints) + [Checkpoint(old(clock), runId, frame, pending, old(clock))]
      ensures clock == old(clock) + 1
    {
      checkpoints := checkpoints + [Checkpoint(clock, runId, frame, pending, clock)];
      clock := clock + 1;
    }

    method Load(runId: string) returns (best: Option<Checkpoint>)
      ensures best == Latest(checkpoints, runId)
    {
      best := None;
      for i := 0 to |checkpoints|
        invariant best == Latest(checkpoints[..i], runId)
      {
        var c := checkpoints[i];
        assert checkpoints[..i + 1][..i] == checkpoints[..i];
        if c.runId == runId && (best.None? || Preferred(c, best.value)) {
          best := Some(c);
        }
      }
      assert checkpoints[..|checkpoints|] == checkpoints;
    }
  }

  /** Timestamps that strictly increase from one save to the next. */
  ghost predicate Chronological(cs: seq<Checkpoint>, now: nat) {
    && (forall i, j | 0 <= i < j < |cs| :: cs[i].createdAt < cs[j].createdAt)
    && (forall i | 0 <= i < |cs| :: cs[i].createdAt < now)
  }

  lemma {:induction false} LatestIsLast(cs: seq<Checkpoint>, now: nat, runId: string)
    requires Chronological(cs, now) && cs != [] && cs[|cs| - 1].runId == runId
    ensures Latest(cs, runId) == Some(cs[|cs| - 1])
  {
    var front, last := cs[..|cs| - 1], cs[|cs| - 1];
    var best := Latest(front, runId);
    if best.Some? {
      LatestIsMostRecent(front, runId);
      var i :| MostRecent(front, runId, i) && front[i] == best.value;
      assert cs[i] == front[i];
      assert Preferred(last, best.value);
    }
  }

  /******* The durable run *******/

  datatype DurableResult =
    | Completed(result: StepResult)
    | SuspendedRun(pending: Request, checkpointId: nat)
    | Failed(error: string)
    | Broken  // a suspension without a checkpoint or without its pending request

  datatype Refusal = NoCheckpoint | NotASuspension | RequestMismatch

  datatype ResumeOutcome = Refused(why: Refusal) | Driven(result: DurableResult)

  /** The checkpoints one execution writes: a cursor per completed step when those are on, then the
      suspension, if it suspended. */
  function Written(run: Run, runId: string, cursors: bool, id: nat): seq<Checkpoint> {
    (if cursors then CursorCheckpoints(run.cursors, runId, id) else [])
    + match run.outcome
      case Suspended(req, Some(f)) =>
        var n := if cursors then |run.cursors| else 0;
        [Checkpoint(id + n, runId, NormFrame(f), Some(req), id + n)]
      case _ => []
  }

  function CursorCheckpoints(fs: seq<Frame>, runId: string, id: nat): seq<Checkpoint> {
    seq(|fs|, i requires 0 <= i < |fs| => Checkpoint(id + i, runId, NormFrame(fs[i]), None, id + i))
  }

  /** What is in a checkpoint store after an execution: what was there, a cursor without a request for each completed step
      when cursors are on, and last, if the run waits, the frame it waits in with its request. Later ones are newer. */
  ghost predicate Saved(before: seq<Checkpoint>, after: seq<Checkpoint>, run: Run, runId: string, cursors: bool,
                        now: nat)
  {
    var n := if cursors then |run.cursors| else 0;
    var waits := run.outcome.Suspended? && run.outcome.frame.Some?;
    && before <= after && |after| == |before| + n + (if waits then 1 else 0)
    && (forall j | |before| <= j < |after| :: after[j].runId == runId && after[j].createdAt == now + (j - |before|))
    && (forall j | |before| <= j < |before| + n ::
          after[j].frame == NormFrame(run.cursors[j - |before|]) && after[j].pending.None?)
    && (waits ==>
          var last := after[|after| - 1];
          last.frame == NormFrame(run.outcome.frame.value) && last.pending == Some(run.outcome.request))
  }

  lemma {:induction false} WrittenIsSaved(cs: seq<Checkpoint>, run: Run, runId: string, cursors: bool, now: nat)
    ensures Saved(cs, cs + Written(run, runId, cursors, now), run, runId, cursors, now)
  {
  }

  /** An execution puts at most one request on file: the one it suspended on, when it is new. */
  function NewRequest(requests: seq<StoredRequest>, run: Run, runId: string): seq<StoredRequest> {
    if run.outcome.Suspended? && !OnFile(requests, run.outcome.request.id)
    then [StoredRequest(run.outcome.request, runId)] else []
  }

  /** The value a caller gets for a run, in the current state of the stores. */
  ghost predicate Reported(runId: string, hitl: HitlRequestStore, store: CheckpointStore, run: Run, r: DurableResult)
    reads hitl, store
  {
    && (run.outcome.Done? ==> r == Completed(run.outcome.result))
    && (run.outcome.Raised? ==> r == Failed(run.outcome.error))
    && (run.outcome.Suspended? ==> r.SuspendedRun? || r.Broken?)
    && (r.SuspendedRun? ==>
          run.outcome.Suspended? && r.pending.id == run.outcome.request.id && r.pending.id !in hitl.responses
          && StoredRequest(r.pending, runId) in hitl.requests)
    && (run.outcome.Suspended? && run.outcome.request.id !in hitl.responses
        && (forall s | s in hitl.requests :: s.runId == runId)
        && Latest(store.checkpoints, runId).Some?
        ==> r.SuspendedRun?)
  }

  /** A run with what was already logged, saved and asked put in front. */
  function Prefixed(log: seq<Completion>, cursors: seq<Frame>, asked: seq<Request>, rest: Run): Run {
    Run(rest.outcome, log + rest.log, cursors + rest.cursors, asked + rest.asked)
  }

  lemma {:induction false} PrefixedAfter(log: seq<Completion>, cursors: seq<Frame>, asked: seq<Request>, s: Run,
                                         done: Completion,
                      cursor: Frame, rest: Run)
    ensures Prefixed(log, cursors, asked, After(s, done, cursor, rest))
            == Prefixed(log + s.log + [done], cursors + [cursor], asked + s.asked, rest)
  {
    assert log + (s.log + [done] + rest.log) == (log + s.log + [done]) + rest.log;
    assert cursors + ([cursor] + rest.cursors) == (cursors + [cursor]) + rest.cursors;
    assert asked + (s.asked + rest.asked) == (asked + s.asked) + rest.asked;
  }

  lemma {:induction false} PrefixedEnd(log: seq<Completion>, cursors: seq<Frame>, asked: seq<Request>, o: Outcome,
                                       ended: seq<Completion>,
                    answered: seq<Request>)
    ensures Prefixed(log, cursors, asked, Run(o, ended, [], answered)) == Run(o, log + ended, cursors, asked + answered)
  {
    assert cursors + [] == cursors;
  }

  /** What the loop over the steps has gathered when a step does not complete. */
  lemma {:induction false} StepStops(env: Env, at: seq<nat>, steps: seq<Step>, i: nat, cur: Value, orig: Value,
                                     rs: Results, child: Option<Frame>, log: seq<Completion>, cursors: seq<Frame>,
                                     asked: seq<Request>)
    requires i < |steps| && !RunStep(env, at + [i], steps[i], cur, child).outcome.Done?
    ensures var s := RunStep(env, at + [i], steps[i], cur, child);
            Prefixed(log, cursors, asked, RunFrom(env, at, steps, i, cur, orig, rs, child)) ==
              Run(StoppedAt(s.outcome, i, cur, orig, rs), log + s.log, cursors, asked + s.asked)
  {
    var s := RunStep(env, at + [i], steps[i], cur, child);
    RunUnfold(env, at, steps, i, cur, orig, rs, child);
    PrefixedEnd(log, cursors, asked, StoppedAt(s.outcome, i, cur, orig, rs), s.log, s.asked);
  }

  /** How a workflow ends when step `i` ends like this without completing. */
  function StoppedAt(o: Outcome, i: nat, cur: Value, orig: Value, rs: Results): Outcome
    requires !o.Done?
  {
    if o.Raised? then o else Suspended(o.request, Some(Frame(i, rs, cur, orig, o.frame)))
  }

  /** What it has gathered after one more step. */
  lemma {:induction false} StepGathered(env: Env, at: seq<nat>, steps: seq<Step>, i: nat, cur: Value, orig: Value,
                                        rs: Results, child: Option<Frame>, log: seq<Completion>, cursors: seq<Frame>,
                                        asked: seq<Request>)
    requires i < |steps| && RunStep(env, at + [i], steps[i], cur, child).outcome.Done?
    ensures var s := RunStep(env, at + [i], steps[i], cur, child);
            var r := s.outcome.result;
            var rs' := Put(rs, steps[i].name, r);
            Prefixed(log, cursors, asked, RunFrom(env, at, steps, i, cur, orig, rs, child)) ==
              Prefixed(log + s.log + [Completion(at + [i], r.output)], cursors + [Frame(i + 1, rs', r.output, orig, None)],
                       asked + s.asked, RunFrom(env, at, steps, i + 1, r.output, orig, rs', None))
  {
    var s := RunStep(env, at + [i], steps[i], cur, child);
    var r := s.outcome.result;
    var rs' := Put(rs, steps[i].name, r);
    RunUnfold(env, at, steps, i, cur, orig, rs, child);
    PrefixedAfter(log, cursors, asked, s, Completion(at + [i], r.output), Frame(i + 1, rs', r.output, orig, None),
                  RunFrom(env, at, steps, i + 1, r.output, orig, rs', None));
  }

  lemma {:induction false} RevisionUnfold(env: Env, step: Step, input: Value, current: Value, attempt: nat,
                                          asked: seq<Request>)
    requires step.Revision? && attempt <= step.maxRevisions && step.worker(current).Returned?
    ensures var w := step.worker(current).result.output;
            var req := Request(RequestId(env.runId, step.gate, attempt), step.prompt(w));
            var reply := env.ask(req);
            Prefixed([], [], asked, RunRevision(env, step, input, current, attempt)) ==
            if reply.None? then Run(Suspended(req, None), [], [], asked + [req])
            else if reply.value.decision != Decision.Revise then Run(Done(GateResult(reply.value, w)), [], [], asked + [req])
            else if attempt == step.maxRevisions then Run(Done(Rejected("Maximum revisions exceeded")), [], [], asked + [req])
            else Prefixed([], [], asked + [req],
                          RunRevision(env, step, input,
                                      Text(step.brief(input, w, attempt + 1, ContentOr(reply.value, ""))), attempt + 1))
  {
    RevisionLogEmpty(env, step, input, current, attempt);
    var w := step.worker(current).result.output;
    var reply := env.ask(Request(RequestId(env.runId, step.gate, attempt), step.prompt(w)));
    if reply.Some? && reply.value.decision == Decision.Revise && attempt < step.maxRevisions {
      var next := Text(step.brief(input, w, attempt + 1, ContentOr(reply.value, "")));
      RevisionLogEmpty(env, step, input, next, attempt + 1);
      var req := Request(RequestId(env.runId, step.gate, attempt), step.prompt(w));
      var rest := RunRevision(env, step, input, next, attempt + 1);
      assert asked + ([req] + rest.asked) == (asked + [req]) + rest.asked;
    }
  }

  /** A sequential workflow wired to its stores. */
  class DurableRun {
    const steps: seq<Step>
    const runId: string
    const cursors: bool
    const hitl: HitlRequestStore
    const store: CheckpointStore

    constructor (steps: seq<Step>, runId: string, cursors: bool, hitl: HitlRequestStore, store: CheckpointStore)
      ensures this.steps == steps && this.runId == runId && this.cursors == cursors
      ensures this.hitl == hitl && this.store == store
    {
      this.steps, this.runId, this.cursors := steps, runId, cursors;
      this.hitl, this.store := hitl, store;
    }

    twostate predicate Filed(run: Run)
      reads hitl
    {
      hitl.requests == old(hitl.requests) + NewRequest(old(hitl.requests), run, runId)
    }

    method Revise(step: Step, input: Value) returns (run: Run)
      requires step.Revision?
      modifies hitl`requests
      ensures run == RunRevision(Recorded(runId, hitl.responses), step, input, input, 0)
      ensures Filed(run)
    {
      var current, attempt: nat, asked := input, 0, [];
      ghost var env := Recorded(runId, hitl.responses);
      RevisionLogEmpty(env, step, input, input, 0);
      while true
        invariant attempt <= step.maxRevisions && hitl.requests == old(hitl.requests)
        invariant RunRevision(env, step, input, input, 0)
                  == Prefixed([], [], asked, RunRevision(env, step, input, current, attempt))
        decreases step.maxRevisions - attempt
      {
        var w := step.worker(current);
        if w.Threw? {
          return Run(Raised(w.error), [], [], asked);
        }
        RevisionUnfold(env, step, input, current, attempt, asked);
        var req := Request(RequestId(runId, step.gate, attempt), step.prompt(w.result.output));
        var reply := RequestInput(hitl, req, runId);
        asked := asked + [req];
        if reply.None? {
          return Run(Suspended(req, None), [], [], asked);
        }
        if reply.value.decision != Decision.Revise {
          return Run(Done(GateResult(reply.value, w.result.output)), [], [], asked);
        }
        if attempt == step.maxRevisions {
          return Run(Done(Rejected("Maximum revisions exceeded")), [], [], asked);
        }
        attempt := attempt + 1;
        current := Text(step.brief(input, w.result.output, attempt, ContentOr(reply.value, "")));
      }
    }

    method ExecuteStep(at: seq<nat>, step: Step, input: Value, nested: Option<Frame>) returns (run: Run)
      modifies hitl`requests
      ensures run == RunStep(Recorded(runId, hitl.responses), at, step, input, nested)
      ensures Filed(run)
      decreases step, 0
    {
      match step
      case Func(_, f) =>
        var r := f(input);
        run := Run(if r.Returned? then Done(r.result) else Raised(r.error), [], [], []);
      case Gate(name, prompt) =>
        var req := Request(RequestId(runId, name, 0), prompt(input));
        var reply := RequestInput(hitl, req, runId);
        run := Run(if reply.None? then Suspended(req, None) else Done(GateResult(reply.value, input)), [], [], [req]);
      case Revision(_, _, _, _, _, _) =>
        run := Revise(step, input);
      case Sub(_, inner) =>
        if nested.None? {
          run := ExecuteSteps(at, inner, 0, input, input, NoResults, None);
        } else {
          var f := nested.value;
          run := ExecuteSteps(at, inner, f.index, f.lastOutput, input, f.completed, f.nested);
        }
    }

    /** Runs the steps of one workflow frame from step `start` on. Unless the first of them is resumed, each step gets what
        the one before it put out, nothing that was rejected is handed on, and the run is on record as it went. */
    method ExecuteSteps(at: seq<nat>, steps: seq<Step>, start: nat, first: Value, orig: Value, restored: Results,
                        nested: Option<Frame>) returns (run: Run)
      modifies hitl`requests
      ensures run == RunFrom(Recorded(runId, hitl.responses), at, steps, start, first, orig, restored, nested)
      ensures nested.None? && start <= |steps| ==>
                Told(Recorded(runId, hitl.responses), at, steps, start, first, orig, restored, run)
      ensures Filed(run)
      decreases steps, 2
    {
      run := StepLoop(at, steps, start, first, orig, restored, nested);
      if nested.None? && start <= |steps| {
        RunIsTold(Recorded(runId, hitl.responses), at, steps, start, first, orig, restored);
      }
    }

    method StepLoop(at: seq<nat>, steps: seq<Step>, start: nat, first: Value, orig: Value, restored: Results,
                    nested: Option<Frame>) returns (run: Run)
      modifies hitl`requests
      ensures run == RunFrom(Recorded(runId, hitl.responses), at, steps, start, first, orig, restored, nested)
      ensures Filed(run)
      decreases steps, 1
    {
      var index, cur, rs, child := start, first, restored, nested;
      var log, cursorFrames, asked := [], [], [];
      ghost var env := Recorded(runId, hitl.responses);
      ghost var whole := RunFrom(env, at, steps, start, first, orig, restored, nested);
      while index < |steps|
        invariant hitl.requests == old(hitl.requests)
        invariant whole == Prefixed(log, cursorFrames, asked, RunFrom(env, at, steps, index, cur, orig, rs, child))
      {
        var s := ExecuteStep(at + [index], steps[index], cur, child);
        if !s.outcome.Done? {
          StepStops(env, at, steps, index, cur, orig, rs, child, log, cursorFrames, asked);
          return Run(StoppedAt(s.outcome, index, cur, orig, rs), log + s.log, cursorFrames, asked + s.asked);
        }
        StepGathered(env, at, steps, index, cur, orig, rs, child, log, cursorFrames, asked);
        rs := Put(rs, steps[index].name, s.outcome.result);
        cur, child := s.outcome.result.output, None;
        var done, cursor := Completion(at + [index], cur), Frame(index + 1, rs, cur, orig, None);
        log, cursorFrames, asked := log + s.log + [done], cursorFrames + [cursor], asked + s.asked;
        index := index + 1;
      }
      run := Run(Done(Finish(cur, rs, |steps|)), log, cursorFrames, asked);
    }

    /** Writes what one execution leaves behind. */
    method Persist(run: Run)
      modifies store
      ensures store.checkpoints == old(store.checkpoints) + Written(run, runId, cursors, old(store.clock))
      ensures store.clock == old(store.clock) + |Written(run, runId, cursors, old(store.clock))|
    {
      if cursors {
        ghost var id := store.clock;
        for i := 0 to |run.cursors|
          invariant store.clock == id + i
          invariant store.checkpoints == old(store.checkpoints) + CursorCheckpoints(run.cursors, runId, id)[..i]
        {
          store.Save(runId, NormFrame(run.cursors[i]), None);
        }
      }
      if run.outcome.Suspended? && run.outcome.frame.Some? {
        store.Save(runId, NormFrame(run.outcome.frame.value), Some(run.outcome.request));
      }
    }

    /** Executes from the top or from a frame, writes the checkpoints and reports. */
    method Execute(input: Value, from: Option<Frame>) returns (run: Run, r: DurableResult)
      modifies hitl`requests, store
      ensures run == (var env := Recorded(runId, hitl.responses);
                      if from.None? then Start(env, steps, input) else Resume(env, steps, from.value))
      ensures Filed(run)
      ensures store.checkpoints == old(store.checkpoints) + Written(run, runId, cursors, old(store.clock))
      ensures store.clock == old(store.clock) + |Written(run, runId, cursors, old(store.clock))|
      ensures Saved(old(store.checkpoints), store.checkpoints, run, runId, cursors, old(store.clock))
      ensures Reported(runId, hitl, store, run, r)
    {
      if from.None? {
        run := ExecuteSteps([], steps, 0, input, input, NoResults, None);
      } else {
        var f := from.value;
        run := ExecuteSteps([], steps, f.index, f.lastOutput, f.originalInput, f.completed, f.nested);
      }
      label executed:
      Persist(run);
      WrittenIsSaved(old(store.checkpoints), run, runId, cursors, old(store.clock));
      assert hitl.requests == old@executed(hitl.requests);
      FiledIsPresent(run);
      r := Conclude(run);
    }

    twostate lemma {:induction false} FiledIsPresent(run: Run)
      requires Filed(run)
      ensures run.outcome.Suspended? ==> hitl.Has(run.outcome.request.id)
    {
      if run.outcome.Suspended? {
        var id := run.outcome.request.id;
        if old(hitl.Has(id)) {
          var i :| 0 <= i < |old(hitl.requests)| && old(hitl.requests)[i].request.id == id;
          assert hitl.requests[i].request.id == id;
        } else {
          assert hitl.requests[|hitl.requests| - 1].request.id == id;
        }
      }
    }

    lemma {:induction false} PendingFound(id: string)
      requires hitl.Has(id) && id !in hitl.responses && forall s | s in hitl.requests :: s.runId == runId
      ensures exists r | r in Pending(hitl.requests, hitl.responses.Keys, runId) :: r.id == id
    {
      var i :| 0 <= i < |hitl.requests| && hitl.requests[i].request.id == id;
      var r := hitl.requests[i].request;
      assert hitl.requests[i] in hitl.requests;
      assert hitl.requests[i] == StoredRequest(r, runId);
      PendingExactly(hitl.requests, hitl.responses.Keys, runId, r);
    }

    /** Turns the end of an execution into a value: a suspension becomes the pending request. */
    method Conclude(run: Run) returns (r: DurableResult)
      requires run.outcome.Suspended? ==> hitl.Has(run.outcome.request.id)
      ensures Reported(runId, hitl, store, run, r)
    {
      match run.outcome
      case Done(result) => r := Completed(result);
      case Raised(e) => r := Failed(e);
      case Suspended(req, _) =>
        var checkpoint := store.Load(runId);
        if checkpoint.None? {
          return Broken;
        }
        var pending := hitl.GetPendingRequests(runId);
        if req.id !in hitl.responses && forall s | s in hitl.requests :: s.runId == runId {
          PendingFound(req.id);
        }
        for i := 0 to |pending|
          invariant forall j | 0 <= j < i :: pending[j].id != req.id
        {
          if pending[i].id == req.id {
            PendingExactly(hitl.requests, hitl.responses.Keys, runId, pending[i]);
            return SuspendedRun(pending[i], checkpoint.value.id);
          }
        }
        r := Broken;
    }
  }

  /** The clock of the store stamps what is written. */
  lemma {:induction false} WrittenInOrder(run: Run, runId: string, cursors: bool, now: nat)
    ensures var w := Written(run, runId, cursors, now);
            forall i | 0 <= i < |w| :: w[i].createdAt == now + i && w[i].runId == runId
  {
  }

  lemma {:induction false} ChronologicalGrows(cs: seq<Checkpoint>, w: seq<Checkpoint>, now: nat)
    requires Chronological(cs, now) && forall i | 0 <= i < |w| :: w[i].createdAt == now + i
    ensures Chronological(cs + w, now + |w|)
  {
  }

  lemma {:induction false} WrittenChronological(cs: seq<Checkpoint>, run: Run, runId: string, cursors: bool, now: nat)
    requires Chronological(cs, now)
    ensures var w := Written(run, runId, cursors, now);
            && Chronological(cs + w, now + |w|)
            && (forall i | 0 <= i < |w| :: w[i].runId == runId)
            && (run.outcome.Suspended? && run.outcome.frame.Some? ==>
                  w != [] && w[|w| - 1].pending == Some(run.outcome.request)
                  && w[|w| - 1].frame == NormFrame(run.outcome.frame.value))
  {
    WrittenInOrder(run, runId, cursors, now);
    ChronologicalGrows(cs, Written(run, runId, cursors, now), now);
  }

  /******* Resuming *******/

  /** Routes a human's answer to the run that waits for it. */
  class ResumeService {
    const steps: seq<Step>
    const cursors: bool
    const hitl: HitlRequestStore
    const store: CheckpointStore

    constructor (steps: seq<Step>, cursors: bool, hitl: HitlRequestStore, store: CheckpointStore)
      ensures this.steps == steps && this.cursors == cursors && this.hitl == hitl && this.store == store
    {
      this.steps, this.cursors, this.hitl, this.store := steps, cursors, hitl, store;
    }

    /** Why an answer to `requestId` is refused, if it is. */
    function RefusalOf(runId: string, requestId: string): Option<Refusal>
      reads store
    {
      var latest := Latest(store.checkpoints, runId);
      if latest.None? then Some(NoCheckpoint)
      else if latest.value.pending.None? then Some(NotASuspension)
      else if latest.value.pending.value.id != requestId then Some(RequestMismatch)
      else None
    }

    /** A refused answer changes nothing. An accepted one is recorded, unless an earlier answer to the same
        request already is, and the run goes on from its latest checkpoint under the recorded answers. */
    method Resume(runId: string, requestId: string, response: Response) returns (o: ResumeOutcome, run: Option<Run>)
      modifies hitl, store
      ensures var latest := old(Latest(store.checkpoints, runId));
              && (o == Refused(NoCheckpoint) <==> latest.None?)
              && (o == Refused(NotASuspension) <==> latest.Some? && latest.value.pending.None?)
              && (o == Refused(RequestMismatch) <==>
                    latest.Some? && latest.value.pending.Some? && latest.value.pending.value.id != requestId)
              && (o.Driven? <==>
                    latest.Some? && latest.value.pending.Some? && latest.value.pending.value.id == requestId)
      ensures old(RefusalOf(runId, requestId)).Some? ==>
                o == Refused(old(RefusalOf(runId, requestId)).value) && run.None? && unchanged(hitl) && unchanged(store)
      ensures old(RefusalOf(runId, requestId)).None? ==>
                && o.Driven? && run.Some?
                && hitl.responses == (if requestId in old(hitl.responses) then old(hitl.responses)
                                      else old(hitl.responses)[requestId := response])
                && run.value == Workflow.Resume(Recorded(runId, hitl.responses), steps,
                                                old(Latest(store.checkpoints, runId)).value.frame)
                && hitl.requests == old(hitl.requests) + NewRequest(old(hitl.requests), run.value, runId)
                && store.checkpoints == old(store.checkpoints) + Written(run.value, runId, cursors, old(store.clock))
                && store.clock == old(store.clock) + |Written(run.value, runId, cursors, old(store.clock))|
                && Reported(runId, hitl, store, run.value, o.result)
    {
      var latest := store.Load(runId);
      if latest.None? {
        return Refused(NoCheckpoint), None;
      }
      if latest.value.pending.None? {
        return Refused(NotASuspension), None;
      }
      if latest.value.pending.value.id != requestId {
        return Refused(RequestMismatch), None;
      }
      var _ := hitl.SaveResponse(requestId, response);
      var durable := new DurableRun(steps, runId, cursors, hitl, store);
      var r, result := durable.Execute(latest.value.frame.originalInput, Some(latest.value.frame));
      o, run := Driven(result), Some(r);
    }
  }

  /** Every request on file is this run's and answered, except the one the run waits for. */
  ghost predicate OnlyPending(requests: seq<StoredRequest>, responses: map<string, Response>, runId: string, run: Run) {
    forall s | s in requests :: s.runId == runId &&
      (s.request.id in responses || (run.outcome.Suspended? && s.request == run.outcome.request))
  }

  lemma {:induction false} NewRequestPending(requests: seq<StoredRequest>, responses: map<string, Response>,
                                             runId: string, run: Run)
    requires forall s | s in requests :: s.runId == runId && s.request.id in responses
    ensures OnlyPending(requests + NewRequest(requests, run, runId), responses, runId, run)
  {
  }

  /** The stores and the latest run after `k` resumes of a durable run. */
  ghost predicate Tracks(runId: string, human: Request -> Response, steps: seq<Step>, input: Value, k: nat, run: Run,
                         requests: seq<StoredRequest>, responses: map<string, Response>, cs: seq<Checkpoint>, now: nat) {
    var p := Chain(runId, human, steps, input, k);
    && p.run == run && p.answers == responses
    && Chronological(cs, now)
    && OnlyPending(requests, responses, runId, run)
    && (run.outcome.Suspended? ==>
          && run.outcome.frame.Some? && run.outcome.request.id !in responses
          && Latest(cs, runId).Some?
          && Latest(cs, runId).value.pending == Some(run.outcome.request)
          && Latest(cs, runId).value.frame == NormFrame(run.outcome.frame.value))
  }

  lemma {:induction false} TracksWritten(runId: string, human: Request -> Response, steps: seq<Step>, input: Value,
                                         k: nat, run: Run,
                                         requests: seq<StoredRequest>, responses: map<string, Response>,
                                         cs: seq<Checkpoint>, now: nat, cursors: bool)
    requires PlainSteps(steps) && Plain(input) && Coherent(human, Start(Live(runId, human), steps, input).asked)
    requires Chain(runId, human, steps, input, k).run == run
             && Chain(runId, human, steps, input, k).answers == responses
    requires Chronological(cs, now)
    requires forall s | s in requests :: s.runId == runId && s.request.id in responses
    ensures var w := Written(run, runId, cursors, now);
            Tracks(runId, human, steps, input, k, run, requests + NewRequest(requests, run, runId), responses, cs + w,
                   now + |w|)
  {
    var w := Written(run, runId, cursors, now);
    WrittenChronological(cs, run, runId, cursors, now);
    NewRequestPending(requests, responses, runId, run);
    ChainInvariantHolds(runId, human, steps, input, k);
    if run.outcome.Suspended? {
      ChainStep(runId, human, steps, input, Chain(runId, human, steps, input, k));
      assert (cs + w)[|cs + w| - 1] == w[|w| - 1];
      LatestIsLast(cs + w, now + |w|, runId);
    }
  }

  lemma {:induction false} CoherentWhenDistinct(runId: string, human: Request -> Response, steps: seq<Step>,
                                                input: Value)
    requires DistinctGates(steps)
    ensures Coherent(human, Start(Live(runId, human), steps, input).asked)
  {
    RunAsksOnce(Live(runId, human), [], steps, 0, input, input, NoResults);
  }

  /** Starts a durable run on empty stores and answers it until it ends: the caller sees what an
      uninterrupted run with the same human shows, and each of its gates was answered by that human. */
  method Drive(runId: string, steps: seq<Step>, cursors: bool, input: Value, human: Request -> Response,
               hitl: HitlRequestStore, store: CheckpointStore) returns (r: DurableResult)
    requires PlainSteps(steps) && Plain(input) && DistinctGates(steps)
    requires hitl.requests == [] && hitl.responses == map[] && store.checkpoints == []
    modifies hitl, store
    ensures var d := Start(Live(runId, human), steps, input);
            && (d.outcome.Done? ==> r.Completed? && r.result.output == d.outcome.result.output
                                    && NormResult(r.result) == NormResult(d.outcome.result))
            && (d.outcome.Raised? ==> r == Failed(d.outcome.error))
            && !d.outcome.Suspended?
            && hitl.responses.Keys == Ids(d.asked)
            && (forall q | q in d.asked :: hitl.responses[q.id] == human(q))
  {
    CoherentWhenDistinct(runId, human, steps, input);
    ghost var k := 0;
    var run: Run;
    run, r := Begin(runId, steps, cursors, input, human, hitl, store);
    while r.SuspendedRun?
      invariant Tracks(runId, human, steps, input, k, run, hitl.requests, hitl.responses, store.checkpoints, store.clock)
      invariant Reported(runId, hitl, store, run, r)
      invariant k <= |Ids(Start(Live(runId, human), steps, input).asked)|
      decreases |Ids(Start(Live(runId, human), steps, input).asked)| - k
    {
      ResumesAreBounded(runId, human, steps, input, k);
      run, r := AnswerPending(runId, steps, cursors, input, human, hitl, store, k, run, r);
      k := k + 1;
    }
    assert !run.outcome.Suspended? by { NotBroken(runId, human, steps, input, k, run, hitl, store, r); }
    ChainEnd(runId, human, steps, input, k);
  }

  /** A tracked run that waits for a human is always reported as suspended, with its request pending. */
  lemma {:induction false} NotBroken(runId: string, human: Request -> Response, steps: seq<Step>, input: Value,
                                     k: nat, run: Run,
                  hitl: HitlRequestStore, store: CheckpointStore, r: DurableResult)
    requires Tracks(runId, human, steps, input, k, run, hitl.requests, hitl.responses, store.checkpoints, store.clock)
    requires Reported(runId, hitl, store, run, r)
    ensures r.SuspendedRun? <==> run.outcome.Suspended?
    ensures r.SuspendedRun? ==> r.pending == run.outcome.request
  {
    if r.SuspendedRun? {
      assert StoredRequest(r.pending, runId) in hitl.requests;
    }
  }

  method Begin(runId: string, steps: seq<Step>, cursors: bool, input: Value, ghost human: Request -> Response,
               hitl: HitlRequestStore, store: CheckpointStore) returns (run: Run, r: DurableResult)
    requires PlainSteps(steps) && Plain(input) && Coherent(human, Start(Live(runId, human), steps, input).asked)
    requires hitl.requests == [] && hitl.responses == map[] && store.checkpoints == []
    modifies hitl, store
    ensures Tracks(runId, human, steps, input, 0, run, hitl.requests, hitl.responses, store.checkpoints, store.clock)
    ensures Reported(runId, hitl, store, run, r)
  {
    run, r := First(runId, steps, cursors, input, hitl, store);
    TracksWritten(runId, human, steps, input, 0, run, old(hitl.requests), hitl.responses, old(store.checkpoints),
                  old(store.clock), cursors);
  }

  /** The first execution, on empty stores. */
  method First(runId: string, steps: seq<Step>, cursors: bool, input: Value, hitl: HitlRequestStore,
               store: CheckpointStore) returns (run: Run, r: DurableResult)
    requires hitl.requests == [] && hitl.responses == map[] && store.checkpoints == []
    modifies hitl, store
    ensures run == Start(Recorded(runId, map[]), steps, input)
    ensures hitl.requests == old(hitl.requests) + NewRequest(old(hitl.requests), run, runId) && hitl.responses == map[]
    ensures store.checkpoints == old(store.checkpoints) + Written(run, runId, cursors, old(store.clock))
    ensures store.clock == old(store.clock) + |Written(run, runId, cursors, old(store.clock))|
    ensures Reported(runId, hitl, store, run, r)
  {
    var durable := new DurableRun(steps, runId, cursors, hitl, store);
    run, r := durable.Execute(input, None);
  }

  method AnswerPending(runId: string, steps: seq<Step>, cursors: bool, ghost input: Value, human: Request -> Response,
                       hitl: HitlRequestStore, store: CheckpointStore, ghost k: nat, ghost run: Run, r: DurableResult)
      returns (run': Run, r': DurableResult)
    requires PlainSteps(steps) && Plain(input) && Coherent(human, Start(Live(runId, human), steps, input).asked)
    requires r.SuspendedRun?
    requires Tracks(runId, human, steps, input, k, run, hitl.requests, hitl.responses, store.checkpoints, store.clock)
    requires Reported(runId, hitl, store, run, r)
    modifies hitl, store
    ensures Tracks(runId, human, steps, input, k + 1, run', hitl.requests, hitl.responses, store.checkpoints, store.clock)
    ensures Reported(runId, hitl, store, run', r')
  {
    NotBroken(runId, human, steps, input, k, run, hitl, store, r);
    var service := new ResumeService(steps, cursors, hitl, store);
    assert service.RefusalOf(runId, r.pending.id).None?;
    var o, next := service.Resume(runId, r.pending.id, human(r.pending));
    run', r' := next.value, o.result;
    TracksWritten(runId, human, steps, input, k + 1, run', old(hitl.requests), hitl.responses, old(store.checkpoints),
                  old(store.clock), cursors);
  }

  lemma {:induction false} ResumesAreBounded(runId: string, human: Request -> Response, steps: seq<Step>,
                                             input: Value, k: nat)
    requires PlainSteps(steps) && Plain(input) && Coherent(human, Start(Live(runId, human), steps, input).asked)
    requires Chain(runId, human, steps, input, k).run.outcome.Suspended?
    ensures k < |Ids(Start(Live(runId, human), steps, input).asked)|
  {
    ResumeEquivalence(runId, human, steps, input);
    var n := |Ids(Start(Live(runId, human), steps, input).asked)|;
    if k >= n {
      ChainStays(runId, human, steps, input, n, k);
    }
  }

  lemma {:induction false} ChainEnd(runId: string, human: Request -> Response, steps: seq<Step>, input: Value, k: nat)
    requires PlainSteps(steps) && Plain(input) && Coherent(human, Start(Live(runId, human), steps, input).asked)
    requires k <= |Ids(Start(Live(runId, human), steps, input).asked)|
    requires !Chain(runId, human, steps, input, k).run.outcome.Suspended?
    ensures var d := Start(Live(runId, human), steps, input);
            var p := Chain(runId, human, steps, input, k);
            && Match(d.outcome, p.run.outcome) && !d.outcome.Suspended? && p.answers.Keys == Ids(d.asked)
            && forall q | q in d.asked :: q.id in p.answers && p.answers[q.id] == human(q)
  {
    var d := Start(Live(runId, human), steps, input);
    ResumeEquivalence(runId, human, steps, input);
    ChainStays(runId, human, steps, input, k, |Ids(d.asked)|);
    ChainInvariantHolds(runId, human, steps, input, k);
    forall q | q in d.asked ensures q.id in Ids(d.asked) {
    }
  }
}
