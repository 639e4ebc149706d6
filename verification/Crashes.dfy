/** Step-level durability: a run that may crash between any two checkpoint writes. */
module Crashes {
  import opened Values
  import opened Workflow
  import opened Resumption
  import opened Durability

  /** What survives a crash: the recorded answers and the latest checkpoint of the run, if any. */
  datatype Stored = Stored(answers: map<string, Response>, latest: Option<Frame>)

  /** What can end a process: a crash after it has written some of its cursors, or its coming to rest;
      a process at rest on a request is followed by the human's answer. */
  datatype Incident = Crash(cursors: nat) | AtRest

  /** The next process: from the latest checkpoint, or from the top when nothing was saved yet. */
  function Execute(runId: string, steps: seq<Step>, input: Value, st: Stored): Run {
    if st.latest.None? then Start(Recorded(runId, st.answers), steps, input)
    else Resume(Recorded(runId, st.answers), steps, st.latest.value)
  }

  function Next(runId: string, human: Request -> Response, steps: seq<Step>, input: Value, st: Stored,
                e: Incident): Stored {
    var run := Execute(runId, steps, input, st);
    match e
    case Crash(k) =>
      if k == 0 || run.cursors == [] then st
      else st.(latest := Some(NormFrame(run.cursors[if k <= |run.cursors| then k - 1 else |run.cursors| - 1])))
    case AtRest =>
      (match run.outcome
       case Suspended(req, Some(f)) => Stored(st.answers[req.id := human(req)], Some(NormFrame(f)))
       case _ => st)
  }

  /** What is stored after a history of incidents, oldest first. */
  function Surviving(runId: string, human: Request -> Response, steps: seq<Step>, input: Value,
                     history: seq<Incident>): Stored {
    if history == [] then Stored(map[], None) else
    Next(runId, human, steps, input, Surviving(runId, human, steps, input, history[..|history| - 1]),
         history[|history| - 1])
  }

  ghost predicate Grows(a: map<string, Response>, b: map<string, Response>) {
    forall id | id in a :: id in b && b[id] == a[id]
  }

  /** Executing from `latest` under `answers` does a tail of the whole workflow under the same answers. */
  ghost predicate SoundAt(runId: string, steps: seq<Step>, input: Value, latest: Option<Frame>,
                          answers: map<string, Response>) {
    Tail(Execute(runId, steps, input, Stored(answers, latest)), Start(Recorded(runId, answers), steps, input))
  }

  ghost predicate Sound(runId: string, steps: seq<Step>, input: Value, st: Stored) {
    forall answers | Grows(st.answers, answers) :: SoundAt(runId, steps, input, st.latest, answers)
  }

  lemma {:induction false} TailRefl(r: Run)
    ensures Tail(r, r)
  {
  }

  lemma {:induction false} GrowsExtends(runId: string, a: map<string, Response>, b: map<string, Response>)
    requires Grows(a, b)
    ensures Extends(Recorded(runId, a), Recorded(runId, b))
  {
  }

  lemma {:induction false} TailCursor(run: Run, s: Run, j: nat)
    requires Tail(run, s) && j < |run.cursors|
    ensures var i := |s.cursors| - |run.cursors| + j;
            0 <= i < |s.cursors| && NormFrame(s.cursors[i]) == NormFrame(run.cursors[j])
  {
    var i := |s.cursors| - |run.cursors| + j;
    assert NormFrames(run.cursors)[j] == NormFrames(s.cursors)[i];
  }

  lemma {:induction false} CursorSound(runId: string, steps: seq<Step>, input: Value, before: map<string, Response>,
                                       answers: map<string, Response>, i: nat)
    requires PlainSteps(steps) && Plain(input) && Grows(before, answers)
    requires i < |Start(Recorded(runId, before), steps, input).cursors|
    ensures SoundAt(runId, steps, input, Some(NormFrame(Start(Recorded(runId, before), steps, input).cursors[i])), answers)
  {
    GrowsExtends(runId, before, answers);
    NormalizeFixesExactlyPlain(input);
    CursorReplay(Recorded(runId, before), Recorded(runId, answers), [], steps, 0, input, input, NoResults, i);
  }

  /** Any cursor of a process that runs from a sound checkpoint is itself a sound checkpoint. */
  lemma {:induction false} CursorAdopted(runId: string, steps: seq<Step>, input: Value, st: Stored, run: Run, j: nat)
    requires PlainSteps(steps) && Plain(input) && j < |run.cursors|
    requires Tail(run, Start(Recorded(runId, st.answers), steps, input))
    ensures Sound(runId, steps, input, Stored(st.answers, Some(NormFrame(run.cursors[j]))))
  {
    var s := Start(Recorded(runId, st.answers), steps, input);
    TailCursor(run, s, j);
    var i := |s.cursors| - |run.cursors| + j;
    forall answers | Grows(st.answers, answers)
      ensures SoundAt(runId, steps, input, Some(NormFrame(run.cursors[j])), answers)
    {
      CursorSound(runId, steps, input, st.answers, answers, i);
    }
  }

  lemma {:induction false} CrashTaken(runId: string, human: Request -> Response, steps: seq<Step>, input: Value,
                                      st: Stored, k: nat)
    requires PlainSteps(steps) && Plain(input)
    requires Tail(Execute(runId, steps, input, st), Start(Recorded(runId, st.answers), steps, input))
    ensures var st' := Next(runId, human, steps, input, st, Crash(k));
            st' == st || Sound(runId, steps, input, st')
  {
    var run := Execute(runId, steps, input, st);
    if k > 0 && run.cursors != [] {
      CursorAdopted(runId, steps, input, st, run, if k <= |run.cursors| then k - 1 else |run.cursors| - 1);
    }
  }

  lemma {:induction false} CrashKeepsSound(runId: string, human: Request -> Response, steps: seq<Step>, input: Value,
                                           st: Stored, k: nat)
    requires PlainSteps(steps) && Plain(input) && Sound(runId, steps, input, st)
    ensures Sound(runId, steps, input, Next(runId, human, steps, input, st, Crash(k)))
  {
    assert SoundAt(runId, steps, input, st.latest, st.answers);
    CrashTaken(runId, human, steps, input, st, k);
  }

  lemma {:induction false} ContinuesTail(a: Run, c: Run, b: Run)
    requires Continues(a, c, b)
    ensures Tail(c, b)
  {
  }

  lemma {:induction false} AnswerKeepsSound(runId: string, human: Request -> Response, steps: seq<Step>, input: Value,
                                            st: Stored)
    requires PlainSteps(steps) && Plain(input) && Sound(runId, steps, input, st)
    requires Consistent(st.answers, human, Start(Live(runId, human), steps, input).asked)
    ensures Sound(runId, steps, input, Next(runId, human, steps, input, st, AtRest))
  {
    var run := Execute(runId, steps, input, st);
    var st' := Next(runId, human, steps, input, st, AtRest);
    if st' != st {
      var e := Recorded(runId, st.answers);
      var s := Start(e, steps, input);
      assert SoundAt(runId, steps, input, st.latest, st.answers);
      RunAgrees(runId, st.answers, human, [], steps, 0, input, input, NoResults);
      NormalizeFixesExactlyPlain(input);
      forall answers | Grows(st'.answers, answers) ensures SoundAt(runId, steps, input, st'.latest, answers) {
        var e' := Recorded(runId, answers);
        assert Grows(st.answers, answers);
        GrowsExtends(runId, st.answers, answers);
        RunReplay(e, e', [], steps, 0, input, input, NoResults);
        assert NormFrame(s.outcome.frame.value) == st'.latest.value;
        ContinuesTail(s, Resume(e', steps, st'.latest.value), Start(e', steps, input));
      }
    }
  }

  /** What every reachable stored state satisfies. */
  ghost predicate Recoverable(runId: string, human: Request -> Response, steps: seq<Step>, input: Value, st: Stored) {
    && Sound(runId, steps, input, st)
    && Consistent(st.answers, human, Start(Live(runId, human), steps, input).asked)
    && st.answers.Keys <= Ids(Start(Live(runId, human), steps, input).asked)
  }

  lemma {:induction false} IncidentKeepsRecoverable(runId: string, human: Request -> Response, steps: seq<Step>,
                                                    input: Value,
                                                    st: Stored, e: Incident)
    requires PlainSteps(steps) && Plain(input)
    requires Coherent(human, Start(Live(runId, human), steps, input).asked)
    requires Recoverable(runId, human, steps, input, st)
    ensures Recoverable(runId, human, steps, input, Next(runId, human, steps, input, st, e))
  {
    match e
    case Crash(k) => CrashKeepsSound(runId, human, steps, input, st, k);
    case AtRest =>
      AnswerKeepsSound(runId, human, steps, input, st);
      assert SoundAt(runId, steps, input, st.latest, st.answers);
      RunAgrees(runId, st.answers, human, [], steps, 0, input, input, NoResults);
      var run := Execute(runId, steps, input, st);
      if run.outcome.Suspended? {
        assert run.outcome.request.id in Ids(Start(Live(runId, human), steps, input).asked);
      }
  }

  lemma {:induction false} AlwaysRecoverable(runId: string, human: Request -> Response, steps: seq<Step>, input: Value,
                                             history: seq<Incident>)
    requires PlainSteps(steps) && Plain(input)
    requires Coherent(human, Start(Live(runId, human), steps, input).asked)
    ensures Recoverable(runId, human, steps, input, Surviving(runId, human, steps, input, history))
  {
    if history == [] {
      forall answers | Grows(map[], answers) ensures SoundAt(runId, steps, input, None, answers) {
        TailRefl(Start(Recorded(runId, answers), steps, input));
      }
    } else {
      var before := history[..|history| - 1];
      AlwaysRecoverable(runId, human, steps, input, before);
      IncidentKeepsRecoverable(runId, human, steps, input, Surviving(runId, human, steps, input, before),
                               history[|history| - 1]);
    }
  }

  /** Crash safety. After any history of crashes, suspensions and answers, the next process either comes to
      rest on a request of the uninterrupted run that nobody has answered yet, or ends like that run; either
      way it repeats no step before its checkpoint, and completes only a tail of the steps. */
  lemma {:induction false} CrashSafety(runId: string, human: Request -> Response, steps: seq<Step>, input: Value,
                                       history: seq<Incident>)
    requires PlainSteps(steps) && Plain(input)
    requires Coherent(human, Start(Live(runId, human), steps, input).asked)
    ensures var d := Start(Live(runId, human), steps, input);
            var st := Surviving(runId, human, steps, input, history);
            var run := Execute(runId, steps, input, st);
            && (run.outcome.Suspended? ==> run.outcome.request in d.asked && run.outcome.request.id !in st.answers)
            && (!run.outcome.Suspended? ==> Match(d.outcome, run.outcome) && Suffix(run.log, d.log))
            && (run.outcome.Suspended? <==> st.answers.Keys != Ids(d.asked))
            && (st.latest.Some? ==> forall c | c in run.log :: Under(c.path, [], st.latest.value.index))
            && DistinctPaths(run.log)
  {
    var d := Start(Live(runId, human), steps, input);
    var st := Surviving(runId, human, steps, input, history);
    var run := Execute(runId, steps, input, st);
    AlwaysRecoverable(runId, human, steps, input, history);
    assert SoundAt(runId, steps, input, st.latest, st.answers);
    RunAgrees(runId, st.answers, human, [], steps, 0, input, input, NoResults);
    if run.outcome.Suspended? {
      assert run.outcome.request.id in Ids(d.asked);
    }
    var e := Recorded(runId, st.answers);
    if st.latest.Some? {
      var f := st.latest.value;
      RunLog(e, [], steps, f.index, f.lastOutput, f.originalInput, f.completed, f.nested);
    } else {
      RunLog(e, [], steps, 0, input, input, NoResults, None);
    }
  }
}
