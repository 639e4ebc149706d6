/** The worker phase: steps grouped into levels, each level run under any interleaving of its tool calls. */
module PlanRun {
  import opened Values
  import opened Substitution
  import opened PlanExecution
  import opened Levels
  import opened Schedules
  import opened Decimals

  /** The steps of level `l`, in plan order. */
  function Bucket(steps: seq<PlanStep>, level: map<int, nat>, l: nat): seq<PlanStep> {
    if steps == [] then [] else
    var front, last := Bucket(steps[..|steps| - 1], level, l), steps[|steps| - 1];
    if last.number in level && level[last.number] == l then front + [last] else front
  }

  function TotalSize(levels: seq<seq<PlanStep>>): nat {
    if levels == [] then 0 else TotalSize(levels[..|levels| - 1]) + |levels[|levels| - 1]|
  }

  function Buckets(steps: seq<PlanStep>, level: map<int, nat>, count: nat): seq<seq<PlanStep>> {
    seq(count, l requires 0 <= l < count => Bucket(steps, level, l))
  }

  lemma {:induction false} TotalSizeStep(levels: seq<seq<PlanStep>>, levels': seq<seq<PlanStep>>, at: nat)
    requires |levels| == |levels'| && at < |levels|
    requires forall l | 0 <= l < |levels| :: |levels'[l]| == |levels[l]| + (if l == at then 1 else 0)
    ensures TotalSize(levels') == TotalSize(levels) + 1
  {
    var n := |levels| - 1;
    if at == n {
      SameTotal(levels[..n], levels'[..n]);
    } else {
      TotalSizeStep(levels[..n], levels'[..n], at);
    }
  }

  lemma {:induction false} SameTotal(levels: seq<seq<PlanStep>>, levels': seq<seq<PlanStep>>)
    requires |levels| == |levels'| && forall l | 0 <= l < |levels| :: |levels'[l]| == |levels[l]|
    ensures TotalSize(levels') == TotalSize(levels)
  {
    if levels != [] {
      SameTotal(levels[..|levels| - 1], levels'[..|levels| - 1]);
    }
  }

  lemma {:induction false} EmptyTotal(levels: seq<seq<PlanStep>>)
    requires forall l | 0 <= l < |levels| :: levels[l] == []
    ensures TotalSize(levels) == 0
  {
    if levels != [] {
      EmptyTotal(levels[..|levels| - 1]);
    }
  }

  /** Every step is in exactly one level: together the levels hold as many steps as the plan. */
  lemma {:induction false} BucketsPartition(steps: seq<PlanStep>, level: map<int, nat>, count: nat)
    requires forall s | s in steps :: s.number in level && level[s.number] < count
    ensures TotalSize(Buckets(steps, level, count)) == |steps|
  {
    if steps == [] {
      EmptyTotal(Buckets(steps, level, count));
    } else {
      var front := steps[..|steps| - 1];
      assert steps[|steps| - 1] in steps;
      BucketsPartition(front, level, count);
      TotalSizeStep(Buckets(front, level, count), Buckets(steps, level, count), level[steps[|steps| - 1].number]);
    }
  }

  lemma {:induction false} BucketMembers(steps: seq<PlanStep>, level: map<int, nat>, l: nat, s: PlanStep)
    ensures s in Bucket(steps, level, l) <==> s in steps && s.number in level && level[s.number] == l
  {
    if steps != [] {
      BucketMembers(steps[..|steps| - 1], level, l, s);
      assert steps == steps[..|steps| - 1] + [steps[|steps| - 1]];
    }
  }

  /** No level between the first and the highest is empty. */
  lemma {:induction false} LevelsAreInhabited(deps: Deps, level: map<int, nat>, n: int, l: nat)
    requires Levelling(deps, level) && n in level && l <= level[n]
    ensures exists m :: m in level && level[m] == l
    decreases level[n]
  {
    if l < level[n] {
      MaxLevelSpec(level, deps[n]);
      var d :| d in deps[n] && level[d] == MaxLevel(level, deps[n]);
      LevelsAreInhabited(deps, level, d, l);
    }
  }

  /** Puts each step into the list of its level. */
  method GroupLevels(steps: seq<PlanStep>, level: map<int, nat>) returns (levels: seq<seq<PlanStep>>)
    requires forall s | s in steps :: s.number in level
    ensures |levels| >= 1 && levels == Buckets(steps, level, |levels|)
    ensures forall s | s in steps :: level[s.number] < |levels|
    ensures steps != [] ==> exists s | s in steps :: level[s.number] == |levels| - 1
  {
    var highest := 0;
    for i := 0 to |steps|
      invariant forall j | 0 <= j < i :: level[steps[j].number] <= highest
      invariant if i == 0 then highest == 0 else exists j | 0 <= j < i :: level[steps[j].number] == highest
    {
      assert steps[i] in steps;
      if level[steps[i].number] > highest {
        highest := level[steps[i].number];
      } else if i == 0 {
        assert level[steps[0].number] == highest;
      }
    }
    levels := seq(highest + 1, _ => []);
    assert levels == Buckets(steps[..0], level, highest + 1);
    for i := 0 to |steps|
      invariant levels == Buckets(steps[..i], level, highest + 1)
    {
      assert steps[i] in steps;
      assert steps[..i + 1][..i] == steps[..i];
      var l := level[steps[i].number];
      levels := levels[l := levels[l] + [steps[i]]];
      forall k | 0 <= k < highest + 1 ensures levels[k] == Bucket(steps[..i + 1], level, k) {
      }
    }
    assert steps[..|steps|] == steps;
  }

  /** A plan with its levels: numbers are unique, the numbering covers the plan, and places are those of the list. */
  ghost predicate WellNumbered(s: Setting, steps: seq<PlanStep>, level: map<int, nat>, place: map<int, nat>) {
    && level.Keys == s.plan.Keys == place.Keys
    && (forall i | 0 <= i < |steps| ::
          steps[i].number in s.plan && s.plan[steps[i].number] == steps[i] && place[steps[i].number] == i)
    && forall n | n in s.plan :: place[n] < |steps| && steps[place[n]].number == n
  }

  lemma {:induction false} WellNumberedIsArranged(s: Setting, steps: seq<PlanStep>, level: map<int, nat>,
                                                  place: map<int, nat>)
    requires WellNumbered(s, steps, level, place)
    ensures Arranged(s.plan, level, place)
  {
  }

  /** The place at which the `i`-th step of a level waits to start, or the end of the plan. */
  function NextPlace(steps: seq<PlanStep>, bucket: seq<PlanStep>, place: map<int, nat>, i: nat): nat
    requires i <= |bucket| && forall p | p in bucket :: p.number in place
  {
    if i < |bucket| then place[bucket[i].number] else |steps|
  }

  /** A level lists its steps in the order of the plan. */
  lemma {:induction false} BucketInOrder(s: Setting, steps: seq<PlanStep>, level: map<int, nat>, place: map<int, nat>,
                                         l: nat, n: nat)
    requires WellNumbered(s, steps, level, place) && n <= |steps|
    ensures var b := Bucket(steps[..n], level, l);
            && (forall p | p in b :: p.number in place && place[p.number] < n && level[p.number] == l)
            && forall i, j | 0 <= i < j < |b| ::
                 b[i].number in place && b[j].number in place && place[b[i].number] < place[b[j].number]
  {
    if n > 0 {
      BucketInOrder(s, steps, level, place, l, n - 1);
      assert steps[..n][..n - 1] == steps[..n - 1];
    }
  }

  /** Between two successive starts of a level no step of that level is passed over. */
  lemma {:induction false} NothingBetween(s: Setting, steps: seq<PlanStep>, level: map<int, nat>,
                                          place: map<int, nat>, l: nat,
                       bucket: seq<PlanStep>, i: nat, m: int)
    requires WellNumbered(s, steps, level, place) && bucket == Bucket(steps, level, l) && i <= |bucket|
    requires m in s.plan && level[m] == l
    ensures forall p | p in bucket :: p.number in place
    ensures place[m] < NextPlace(steps, bucket, place, i) <==> exists j :: 0 <= j < i && bucket[j].number == m
  {
    assert steps[..|steps|] == steps;
    BucketInOrder(s, steps, level, place, l, |steps|);
    BucketMembers(steps, level, l, s.plan[m]);
    assert steps[place[m]] in steps;
    var k :| 0 <= k < |bucket| && bucket[k] == s.plan[m];
    assert bucket[k].number == m;
  }

  /******* What each tool is called with *******/

  /** The arguments a tool was called with, and the results that were there when its step started. */
  datatype ToolCall = ToolCall(args: Args, seen: map<int, string>)

  predicate InOrder(level: map<int, nat>, place: map<int, nat>, k: int, n: int)
    requires level.Keys == place.Keys && k in level && n in level
  {
    level[k] < level[n] || (level[k] == level[n] && place[k] < place[n])
  }

  /** The call of step `n`: its arguments are resolved with results that are final, those of all lower levels among them
      and none of a step that starts later. */
  ghost predicate Grounded(s: Setting, level: map<int, nat>, place: map<int, nat>, w: Work, n: int, c: ToolCall)
    requires level.Keys == place.Keys == s.plan.Keys && n in s.plan
  {
    && c.args == Resolve(s.plan[n].arguments, c.seen)
    && (n in w.running ==> w.running[n] == c.args)
    && (n in w.done ==> w.done[n] == Observe(s.dispatch(n, s.plan[n].tool, c.args), s.limit))
    && (forall k | k in c.seen :: k in w.done && w.done[k].text == c.seen[k] && k in s.plan && InOrder(level, place,
                                                                                                       k, n))
    && (forall k | k in s.plan && level[k] < level[n] :: k in c.seen)
    && (forall k | k in s.plan && InOrder(level, place, k, n) :: Begun(w, k))
  }

  ghost predicate LoggedAt(s: Setting, level: map<int, nat>, place: map<int, nat>, w: Work, calls: map<int, ToolCall>,
                           n: int)
    requires level.Keys == place.Keys == s.plan.Keys
  {
    && (n in calls <==> Begun(w, n))
    && (n in calls ==> n in s.plan && Grounded(s, level, place, w, n, calls[n]))
  }

  /** The steps that have begun are those with a call on record. */
  ghost predicate Logged(s: Setting, level: map<int, nat>, place: map<int, nat>, w: Work, calls: map<int, ToolCall>)
    requires level.Keys == place.Keys == s.plan.Keys
  {
    forall n {:trigger LoggedAt(s, level, place, w, calls, n)} :: LoggedAt(s, level, place, w, calls, n)
  }

  lemma {:induction false} StartIsGrounded(s: Setting, level: map<int, nat>, place: map<int, nat>, w: Work,
                                           calls: map<int, ToolCall>, n: int)
    requires Arranged(s.plan, level, place) && Logged(s, level, place, w, calls) && Enabled(s, w, Started(n))
    requires s.ready == LevelReady(s.plan, level) && s.before == LevelBefore(s.plan, level, place)
    ensures var c := ToolCall(Resolve(s.plan[n].arguments, Texts(w.done)), Texts(w.done));
            Grounded(s, level, place, Apply(s, w, Started(n)), n, c)
  {
    var seen := Texts(w.done);
    forall k | k in seen ensures k in s.plan && InOrder(level, place, k, n) {
      assert LoggedAt(s, level, place, w, calls, k);
      assert k != n && !Begun(w, n);
      assert !InOrder(level, place, n, k);
      assert place[k] != place[n];
    }
    forall k | k in s.plan && InOrder(level, place, k, n) ensures Begun(w, k) {
      assert k in s.ready[n] || k in s.before[n];
    }
  }

  lemma {:induction false} StartLogged(s: Setting, level: map<int, nat>, place: map<int, nat>, w: Work,
                                       calls: map<int, ToolCall>, n: int)
    requires Arranged(s.plan, level, place) && Logged(s, level, place, w, calls) && Enabled(s, w, Started(n))
    requires s.ready == LevelReady(s.plan, level) && s.before == LevelBefore(s.plan, level, place)
    ensures var c := ToolCall(Resolve(s.plan[n].arguments, Texts(w.done)), Texts(w.done));
            Logged(s, level, place, Apply(s, w, Started(n)), calls[n := c])
  {
    StartIsGrounded(s, level, place, w, calls, n);
    var v := Apply(s, w, Started(n));
    var calls' := calls[n := ToolCall(Resolve(s.plan[n].arguments, Texts(w.done)), Texts(w.done))];
    forall m ensures LoggedAt(s, level, place, v, calls', m) {
      assert LoggedAt(s, level, place, w, calls, m);
    }
  }

  lemma {:induction false} ReturnLogged(s: Setting, level: map<int, nat>, place: map<int, nat>, w: Work,
                                        calls: map<int, ToolCall>, n: int)
    requires level.Keys == place.Keys == s.plan.Keys && Logged(s, level, place, w, calls) && Enabled(s, w, Finished(n))
    ensures Logged(s, level, place, Apply(s, w, Finished(n)), calls)
  {
    var v := Apply(s, w, Finished(n));
    assert LoggedAt(s, level, place, w, calls, n);
    forall m ensures LoggedAt(s, level, place, v, calls, m) {
      assert LoggedAt(s, level, place, w, calls, m);
    }
  }

  function Shortened(t: string, limit: nat): string {
    if |t| > limit then t[..limit] else t
  }

  /** An argument as the tool gets it. Only a text is changed: its references become the final results of the steps they
      name. A text without references stays what it is, and one that is a reference to a step of a lower level becomes
      the text that step left behind. */
  ghost predicate Given(level: map<int, nat>, done: map<int, Observation>, n: int, seen: map<int, string>,
                        planned: (string, ArgValue), given: (string, ArgValue))
    requires n in level
  {
    && given.0 == planned.0
    && (planned.1.Other? ==> given.1 == planned.1)
    && (planned.1.Str? ==>
          && given.1 == Str(Substitute(planned.1.text, seen))
          && (MentionsNone(planned.1.text) ==> given.1 == planned.1)
          && forall k: nat | planned.1.text == ['#'] + Decimal(k) && k in level && level[k] < level[n] && k in done ::
               given.1 == Str(done[k].text))
  }

  /** The tool of step `n` got the arguments of the plan, and what it returned or raised is on record. */
  ghost predicate Worked(s: Setting, level: map<int, nat>, place: map<int, nat>, done: map<int, Observation>,
                         calls: map<int, ToolCall>, n: int)
    requires level.Keys == place.Keys == s.plan.Keys && n in s.plan
  {
    && n in calls && n in done && |calls[n].args| == |s.plan[n].arguments|
    && (forall i | 0 <= i < |calls[n].args| ::
          Given(level, done, n, calls[n].seen, s.plan[n].arguments[i], calls[n].args[i]))
    && (forall k | k in calls[n].seen ::
          k in done && done[k].text == calls[n].seen[k] && k in s.plan && InOrder(level, place, k, n))
    && (forall k | k in s.plan && level[k] < level[n] :: k in calls[n].seen)
    && match s.dispatch(n, s.plan[n].tool, calls[n].args)
       case Content(t) => done[n] == Observation(Shortened(t, s.limit), false)
       case Raises(t) => done[n] == Observation("[ERROR] " + Shortened(t, s.limit), true)
  }

  lemma {:induction false} GivenAsPlanned(s: Setting, level: map<int, nat>, place: map<int, nat>, w: Work, n: int,
                                          c: ToolCall, i: nat)
    requires level.Keys == place.Keys == s.plan.Keys && n in s.plan && Grounded(s, level, place, w, n, c)
    requires i < |s.plan[n].arguments|
    ensures |c.args| == |s.plan[n].arguments| && Given(level, w.done, n, c.seen, s.plan[n].arguments[i], c.args[i])
  {
    var planned := s.plan[n].arguments[i];
    assert c.args[i] == ResolveArg(planned, c.seen);
    if planned.1.Str? {
      if MentionsNone(planned.1.text) {
        SubstituteVerbatim(planned.1.text, c.seen);
      }
      forall k: nat | planned.1.text == ['#'] + Decimal(k) && k in level && level[k] < level[n] && k in w.done
        ensures c.args[i].1 == Str(w.done[k].text)
      {
        SubstituteWhole(k, c.seen);
      }
    }
  }

  lemma {:induction false} AllWorked(s: Setting, level: map<int, nat>, place: map<int, nat>, w: Work,
                                     calls: map<int, ToolCall>, n: int)
    requires level.Keys == place.Keys == s.plan.Keys && Logged(s, level, place, w, calls) && n in s.plan && n in w.done
    ensures Worked(s, level, place, w.done, calls, n)
  {
    assert LoggedAt(s, level, place, w, calls, n);
    forall i | 0 <= i < |s.plan[n].arguments|
      ensures |calls[n].args| == |s.plan[n].arguments|
              && Given(level, w.done, n, calls[n].seen, s.plan[n].arguments[i], calls[n].args[i])
    {
      GivenAsPlanned(s, level, place, w, n, calls[n], i);
    }
  }

  lemma {:induction false} AllWork(s: Setting, level: map<int, nat>, place: map<int, nat>, w: Work,
                                   calls: map<int, ToolCall>)
    requires level.Keys == place.Keys == s.plan.Keys && Logged(s, level, place, w, calls) && Complete(s, w)
    ensures forall n {:trigger Worked(s, level, place, w.done, calls, n)} | n in s.plan ::
              Worked(s, level, place, w.done, calls, n)
  {
    forall n | n in s.plan ensures Worked(s, level, place, w.done, calls, n) {
      AllWorked(s, level, place, w, calls, n);
    }
  }

  class PlanWorker {
    const s: Setting
    const steps: seq<PlanStep>
    const level: map<int, nat>
    const place: map<int, nat>
    var done: map<int, Observation>
    var running: map<int, Args>
    var stepNumber: nat
    ghost var events: seq<Event>
    ghost var calls: map<int, ToolCall>

    function Now(): Work
      reads this
    {
      Work(done, running)
    }

    ghost predicate Valid()
      reads this
    {
      && WellNumbered(s, steps, level, place)
      && s.ready == LevelReady(s.plan, level) && s.before == LevelBefore(s.plan, level, place)
      && Leads(s, events, Now()) && Logged(s, level, place, Now(), calls)
    }

    /** Between levels: everything below `bound` has finished, nothing is running. */
    ghost predicate AtLevel(bound: nat)
      reads this
    {
      Valid() && running == map[] && forall n :: n in done <==> n in s.plan && level[n] < bound
    }

    constructor (s: Setting, steps: seq<PlanStep>, level: map<int, nat>, place: map<int, nat>)
      requires WellNumbered(s, steps, level, place)
      requires s.ready == LevelReady(s.plan, level) && s.before == LevelBefore(s.plan, level, place)
      ensures AtLevel(0) && stepNumber == 1
      ensures this.s == s && this.steps == steps && this.level == level && this.place == place
    {
      this.s, this.steps, this.level, this.place := s, steps, level, place;
      done, running, stepNumber, events, calls := map[], map[], 1, [], map[];
    }

    /** The task of a step starts: the arguments are resolved and the tool is called. */
    method Call(n: int)
      requires Valid() && Enabled(s, Now(), Started(n))
      modifies this`running, this`events, this`calls
      ensures Valid() && Now() == Apply(s, old(Now()), Started(n))
    {
      AfterConcat(s, events, Now(), Started(n));
      WellNumberedIsArranged(s, steps, level, place);
      StartLogged(s, level, place, Now(), calls, n);
      events := events + [Started(n)];
      calls := calls[n := ToolCall(Resolve(s.plan[n].arguments, Texts(done)), Texts(done))];
      running := running[n := Resolve(s.plan[n].arguments, Texts(done))];
    }

    /** The tool returns or raises, and the observation is recorded. */
    method Return(n: int)
      requires Valid() && Enabled(s, Now(), Finished(n))
      modifies this`running, this`done, this`events
      ensures Valid() && Now() == Apply(s, old(Now()), Finished(n))
    {
      AfterConcat(s, events, Now(), Finished(n));
      ReturnLogged(s, level, place, Now(), calls, n);
      events := events + [Finished(n)];
      done := done[n := Observe(s.dispatch(n, s.plan[n].tool, running[n]), s.limit)];
      running := running - {n};
    }

    ghost predicate Past(l: nat, p: nat)
      reads this
    {
      Valid() && Entered(s, level, place, l, p, Now())
    }

    /** Starts the `i`-th task of a level; its tool may return without waiting. */
    method StartNext(l: nat, bucket: seq<PlanStep>, i: nat)
      requires Valid() && bucket == Bucket(steps, level, l) && i < |bucket| && forall p | p in bucket :: p.number in place
      requires Past(l, NextPlace(steps, bucket, place, i))
      modifies this`running, this`done, this`events, this`calls
      ensures Past(l, NextPlace(steps, bucket, place, i + 1))
      ensures forall n | n in old(done) :: n in done && done[n] == old(done)[n]
    {
      var n := bucket[i].number;
      assert steps[..|steps|] == steps;
      BucketInOrder(s, steps, level, place, l, |steps|);
      assert bucket[i] in bucket;
      WellNumberedIsArranged(s, steps, level, place);
      EnabledWhenEntered(s, level, place, Now(), n);
      StartedEnters(s, level, place, Now(), n);
      Call(n);
      ghost var w := Now();
      if * {
        assert MayFinish(s, w, n);
        Return(n);
        assert forall m :: Begun(Now(), m) <==> Begun(w, m);
      }
      SkipTo(l, bucket, i, Now());
    }

    lemma {:induction false} SkipTo(l: nat, bucket: seq<PlanStep>, i: nat, w: Work)
      requires Valid() && bucket == Bucket(steps, level, l) && i < |bucket| && forall p | p in bucket :: p.number in place
      requires Entered(s, level, place, l, place[bucket[i].number] + 1, w)
      ensures Entered(s, level, place, l, NextPlace(steps, bucket, place, i + 1), w)
    {
      assert steps[..|steps|] == steps;
      BucketInOrder(s, steps, level, place, l, |steps|);
      forall m | m in s.plan && level[m] == l
        ensures place[m] < place[bucket[i].number] + 1 <==> place[m] < NextPlace(steps, bucket, place, i + 1)
      {
        NothingBetween(s, steps, level, place, l, bucket, i, m);
        NothingBetween(s, steps, level, place, l, bucket, i + 1, m);
        assert steps[place[m]].number == m;
      }
    }

    /** Runs one level: its tasks start in the order of the plan, and return in any order. */
    method RunLevel(l: nat, bucket: seq<PlanStep>)
      requires AtLevel(l) && bucket == Bucket(steps, level, l)
      modifies this
      ensures AtLevel(l + 1)
      ensures stepNumber == old(stepNumber) + |bucket|
      ensures forall n | n in old(done) :: n in done && done[n] == old(done)[n]
    {
      assert steps[..|steps|] == steps;
      BucketInOrder(s, steps, level, place, l, |steps|);
      NoneEntered(l, bucket);
      for i := 0 to |bucket|
        invariant Past(l, NextPlace(steps, bucket, place, i))
        invariant stepNumber == old(stepNumber)
        invariant forall n | n in old(done) :: n in done && done[n] == old(done)[n]
      {
        StartNext(l, bucket, i);
      }
      Await(l);
      stepNumber := stepNumber + |bucket|;
    }

    /** Waits until every task of the level has returned. */
    method Await(l: nat)
      requires Past(l, |steps|)
      modifies this`running, this`done, this`events
      ensures AtLevel(l + 1)
      ensures forall n | n in old(done) :: n in done && done[n] == old(done)[n]
    {
      while exists n :: n in running
        invariant Past(l, |steps|)
        invariant forall n | n in old(done) :: n in done && done[n] == old(done)[n]
        decreases running.Keys
      {
        var n :| n in running;
        ReturnAnyOf(l, n);
      }
      assert forall n :: n !in running;
      assert running == map[];
    }

    /** When all tasks of a level have started, any of the running ones may return. */
    method ReturnAnyOf(l: nat, n: int)
      requires Past(l, |steps|) && n in running
      modifies this`running, this`done, this`events
      ensures Past(l, |steps|) && running == old(running) - {n}
      ensures forall m | m in old(done) :: m in done && done[m] == old(done)[m]
    {
      ghost var w := Now();
      EachStepOnce(s, events, w, n);
      Return(n);
      assert forall m :: Begun(Now(), m) <==> Begun(w, m);
    }

    lemma {:induction false} NoneEntered(l: nat, bucket: seq<PlanStep>)
      requires AtLevel(l) && bucket == Bucket(steps, level, l) && forall p | p in bucket :: p.number in place
      ensures Past(l, NextPlace(steps, bucket, place, 0))
    {
      forall m | m in s.plan && level[m] == l ensures place[m] >= NextPlace(steps, bucket, place, 0) {
        NothingBetween(s, steps, level, place, l, bucket, 0, m);
      }
    }

    /** Runs the levels one after the other. */
    method RunLevels()
      requires AtLevel(0) && stepNumber == 1
      modifies this
      ensures Valid() && running == map[] && stepNumber == 1 + |steps|
      ensures forall n :: n in done <==> n in s.plan
    {
      assert forall p | p in steps :: p.number in level;
      var levels := GroupLevels(steps, level);
      for l := 0 to |levels|
        invariant AtLevel(l)
        invariant stepNumber == 1 + TotalSize(levels[..l])
      {
        assert levels[l] == Bucket(steps, level, l);
        RunLevel(l, levels[l]);
        assert levels[..l + 1][..l] == levels[..l];
      }
      assert levels[..|levels|] == levels;
      BucketsPartition(steps, level, |levels|);
      forall n | n in s.plan ensures n in done {
        assert s.plan[n] in steps;
      }
    }

    /** Runs the plan and counts the solver as the last step. Every tool gets its planned arguments with the results of
        all lower levels filled in. The results do not depend on when the calls return, provided no step mentions an
        earlier step of its own level. */
    method Run()
      requires AtLevel(0) && stepNumber == 1
      modifies this
      ensures Leads(s, events, Work(done, map[])) && Complete(s, Work(done, map[]))
      ensures Ordered(s.plan, s.ready, level)
      ensures forall n :: n in done <==> n in s.plan
      ensures level.Keys == place.Keys == s.plan.Keys
      ensures forall n {:trigger Worked(s, level, place, done, calls, n)} | n in s.plan ::
                Worked(s, level, place, done, calls, n)
      ensures NoEarlierPeerMention(s.plan, level, place) ==> forall n | n in done :: done[n] == Meaning(s, level, n)
      ensures stepNumber == 1 + |steps| + 1
    {
      RunLevels();
      WellNumberedIsArranged(s, steps, level, place);
      LevelOrdered(s.plan, level, place);
      if NoEarlierPeerMention(s.plan, level, place) {
        SchedulesAgree(s, level, events, Work(done, map[]));
      }
      AllWork(s, level, place, Now(), calls);
      stepNumber := stepNumber + 1;
    }
  }

  /******* A whole plan *******/

  predicate Numbered(steps: seq<PlanStep>) {
    forall i, j | 0 <= i < j < |steps| :: steps[i].number != steps[j].number
  }

  function PlanOf(steps: seq<PlanStep>): Plan
    requires Numbered(steps)
  {
    map i | 0 <= i < |steps| :: steps[i].number := steps[i]
  }

  function PlaceOf(steps: seq<PlanStep>): map<int, nat>
    requires Numbered(steps)
  {
    map i: nat | i < |steps| :: steps[i].number := i
  }

  function Numbers(steps: seq<PlanStep>): seq<int> {
    seq(|steps|, i requires 0 <= i < |steps| => steps[i].number)
  }

  lemma {:induction false} NumbersOfPlan(steps: seq<PlanStep>)
    requires Numbered(steps)
    ensures forall n :: n in Numbers(steps) <==> n in PlanOf(steps)
    ensures PlaceOf(steps).Keys == PlanOf(steps).Keys
  {
    forall n | n in PlanOf(steps) ensures n in Numbers(steps) && n in PlaceOf(steps) {
      var i: nat :| i < |steps| && steps[i].number == n;
      assert Numbers(steps)[i] == n;
    }
    forall n | n in PlaceOf(steps) ensures n in PlanOf(steps) {
      var i: nat :| i < |steps| && steps[i].number == n;
    }
  }

  lemma {:induction false} PlanAt(steps: seq<PlanStep>, i: nat)
    requires Numbered(steps) && i < |steps|
    ensures steps[i].number in PlanOf(steps) && PlanOf(steps)[steps[i].number] == steps[i]
    ensures steps[i].number in PlaceOf(steps) && PlaceOf(steps)[steps[i].number] == i
  {
  }

  lemma {:induction false} PlanIsWellNumbered(s: Setting, steps: seq<PlanStep>, level: map<int, nat>)
    requires Numbered(steps) && s.plan == PlanOf(steps) && level.Keys == s.plan.Keys
    ensures WellNumbered(s, steps, level, PlaceOf(steps))
  {
    NumbersOfPlan(steps);
    var plan, place := PlanOf(steps), PlaceOf(steps);
    forall i | 0 <= i < |steps|
      ensures steps[i].number in plan && plan[steps[i].number] == steps[i] && place[steps[i].number] == i
    {
      PlanAt(steps, i);
    }
    forall n | n in plan ensures place[n] < |steps| && steps[place[n]].number == n {
      var i: nat :| i < |steps| && steps[i].number == n;
      PlanAt(steps, i);
    }
  }

  /** Every argument of step `n` that is a reference to a declared dependency reached the tool as the very text that step
      left. */
  ghost predicate DependenciesGiven(plan: Plan, done: map<int, Observation>, calls: map<int, ToolCall>, n: int)
    requires n in plan
  {
    forall i, k: nat {:trigger plan[n].arguments[i], Decimal(k)} |
      0 <= i < |plan[n].arguments| && plan[n].arguments[i].1 == Str(['#'] + Decimal(k)) && k in plan[n].dependsOn ::
      && n in calls && i < |calls[n].args| && k in done
      && calls[n].args[i] == (plan[n].arguments[i].0, Str(done[k].text))
  }

  lemma {:induction false} DependencyGiven(s: Setting, level: map<int, nat>, place: map<int, nat>,
                                           done: map<int, Observation>,
                        calls: map<int, ToolCall>, n: int, i: nat, k: nat)
    requires level.Keys == place.Keys == s.plan.Keys && n in s.plan && Worked(s, level, place, done, calls, n)
    requires i < |s.plan[n].arguments| && s.plan[n].arguments[i].1 == Str(['#'] + Decimal(k))
    requires k in level && level[k] < level[n]
    ensures i < |calls[n].args| && k in done
            && calls[n].args[i] == (s.plan[n].arguments[i].0, Str(done[k].text))
  {
    assert k in calls[n].seen;
    assert Given(level, done, n, calls[n].seen, s.plan[n].arguments[i], calls[n].args[i]);
  }

  lemma {:induction false} WorkedGivesDependencies(s: Setting, level: map<int, nat>, place: map<int, nat>,
                                                   done: map<int, Observation>,
                                calls: map<int, ToolCall>, n: int)
    requires level.Keys == place.Keys == s.plan.Keys && Levelling(DepsOf(s.plan), level)
    requires n in s.plan && Worked(s, level, place, done, calls, n)
    ensures DependenciesGiven(s.plan, done, calls, n)
  {
    forall i, k: nat |
      0 <= i < |s.plan[n].arguments| && s.plan[n].arguments[i].1 == Str(['#'] + Decimal(k))
      && k in s.plan[n].dependsOn
      ensures n in calls && i < |calls[n].args| && k in done
              && calls[n].args[i] == (s.plan[n].arguments[i].0, Str(done[k].text))
    {
      assert Depends(DepsOf(s.plan), n, k);
      LevelAboveDependencies(DepsOf(s.plan), level, n, k);
      DependencyGiven(s, level, place, done, calls, n, i, k);
    }
  }

  /** Levels a plan and runs it. It runs exactly if its dependencies are steps and have no cycle. */
  method ExecutePlan(steps: seq<PlanStep>, dispatch: Dispatch, limit: nat) returns (r: LevelResult, w: PlanWorker?)
    requires Numbered(steps)
    ensures r.Level? <==> Acyclic(DepsOf(PlanOf(steps))) && Closed(DepsOf(PlanOf(steps)))
    ensures r.Level? <==> w != null
    ensures w != null ==>
      && w.s.plan == PlanOf(steps) && w.s.dispatch == dispatch && w.s.limit == limit
      && w.level.Keys == w.place.Keys == w.s.plan.Keys && (forall n :: n in w.done <==> n in w.s.plan)
      && (forall n {:trigger Worked(w.s, w.level, w.place, w.done, w.calls, n)} | n in w.s.plan ::
            Worked(w.s, w.level, w.place, w.done, w.calls, n) && DependenciesGiven(w.s.plan, w.done, w.calls, n))
  {
    var plan := PlanOf(steps);
    var builder := new LevelBuilder(DepsOf(plan));
    NumbersOfPlan(steps);
    r := builder.BuildLevels(Numbers(steps));
    if !r.Level? {
      return r, null;
    }
    w := RunLevelled(steps, builder.levelOf, dispatch, limit);
    forall n | n in w.s.plan
      ensures Worked(w.s, w.level, w.place, w.done, w.calls, n) && DependenciesGiven(w.s.plan, w.done, w.calls, n)
    {
      WorkedGivesDependencies(w.s, w.level, w.place, w.done, w.calls, n);
    }
  }

  method RunLevelled(steps: seq<PlanStep>, level: map<int, nat>, dispatch: Dispatch, limit: nat)
      returns (w: PlanWorker)
    requires Numbered(steps) && level.Keys == PlanOf(steps).Keys
    ensures w.s.plan == PlanOf(steps) && w.s.dispatch == dispatch && w.s.limit == limit && w.level == level
    ensures w.level.Keys == w.place.Keys == w.s.plan.Keys && forall n :: n in w.done <==> n in w.s.plan
    ensures forall n {:trigger Worked(w.s, w.level, w.place, w.done, w.calls, n)} | n in w.s.plan ::
              Worked(w.s, w.level, w.place, w.done, w.calls, n)
  {
    NumbersOfPlan(steps);
    var s := ByLevel(PlanOf(steps), level, PlaceOf(steps), dispatch, limit);
    PlanIsWellNumbered(s, steps, level);
    w := RunArranged(s, steps, level, PlaceOf(steps));
  }

  method RunArranged(s: Setting, steps: seq<PlanStep>, level: map<int, nat>, place: map<int, nat>)
      returns (w: PlanWorker)
    requires WellNumbered(s, steps, level, place)
    requires s.ready == LevelReady(s.plan, level) && s.before == LevelBefore(s.plan, level, place)
    ensures w.s == s && w.level == level && w.level.Keys == w.place.Keys == w.s.plan.Keys
    ensures forall n :: n in w.done <==> n in w.s.plan
    ensures forall n {:trigger Worked(w.s, w.level, w.place, w.done, w.calls, n)} | n in w.s.plan ::
              Worked(w.s, w.level, w.place, w.done, w.calls, n)
  {
    w := new PlanWorker(s, steps, level, place);
    w.Run();
  }
}
