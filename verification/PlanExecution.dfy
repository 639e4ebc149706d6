/** Executing a plan whose steps run concurrently: which interleavings agree, and exactly when. */
module PlanExecution {
  import opened Substitution
  import opened Values
  import opened Multiplicity

  datatype ArgValue = Str(text: string) | Other(json: Value)

  type Args = seq<(string, ArgValue)>

  datatype PlanStep = PlanStep(number: int, tool: string, arguments: Args, dependsOn: seq<int>)

  datatype ToolOutcome = Content(text: string) | Raises(text: string)

  /** A tool call: the step it is for, the tool's name and the resolved arguments. */
  type Dispatch = (int, string, Args) -> ToolOutcome

  /** What a step leaves behind for later steps and for the solver, and whether it failed. */
  datatype Observation = Observation(text: string, failed: bool)

  type Plan = map<int, PlanStep>

  function Cut(s: string, limit: nat): string {
    if |s| <= limit then s else s[..limit]
  }

  function Observe(o: ToolOutcome, limit: nat): Observation {
    match o
    case Content(t) => Observation(Cut(t, limit), false)
    case Raises(t) => Observation("[ERROR] " + Cut(t, limit), true)
  }

  function Texts(done: map<int, Observation>): map<int, string> {
    map n | n in done :: done[n].text
  }

  function ResolveArg(a: (string, ArgValue), results: map<int, string>): (string, ArgValue) {
    (a.0, if a.1.Str? then Str(Substitute(a.1.text, results)) else a.1)
  }

  /** Only top-level string arguments are scanned for references. */
  function Resolve(args: Args, results: map<int, string>): Args {
    seq(|args|, i requires 0 <= i < |args| => ResolveArg(args[i], results))
  }

  function ArgRefs(args: Args): set<int> {
    set i, r | 0 <= i < |args| && args[i].1.Str? && r in Refs(args[i].1.text) :: r
  }

  lemma {:induction false} ResolveAgree(args: Args, a: map<int, string>, b: map<int, string>)
    requires Agree(ArgRefs(args), a, b)
    ensures Resolve(args, a) == Resolve(args, b)
  {
    forall i | 0 <= i < |args| ensures ResolveArg(args[i], a) == ResolveArg(args[i], b) {
      if args[i].1.Str? {
        assert forall r | r in Refs(args[i].1.text) :: r in ArgRefs(args);
        ExpandAgree(Tokenize(args[i].1.text), a, b);
      }
    }
  }

  /******* The execution machine *******/

  datatype Event = Started(step: int) | Finished(step: int)

  /** Finished steps with their observations, and running steps with the arguments they were called with. */
  datatype Work = Work(done: map<int, Observation>, running: map<int, Args>)

  const Idle := Work(map[], map[])

  type Ready = map<int, set<int>>

  /** `ready[n]`: the steps that must have finished before step `n` may start. `before[n]`: the steps gathered with
      `n` and listed before it; the event loop starts them first. */
  datatype Setting = Setting(plan: Plan, ready: Ready, before: Ready, dispatch: Dispatch, limit: nat)

  predicate Begun(w: Work, n: int) {
    n in w.done || n in w.running
  }

  /** The steps listed after `n` have all begun, or none of them has: a call that returns without waiting returns
      before the next one starts, any other returns when all have started. */
  predicate MayFinish(s: Setting, w: Work, n: int) {
    || (forall m | m in s.before && n in s.before[m] :: Begun(w, m))
    || (forall m | m in s.before && n in s.before[m] :: !Begun(w, m))
  }

  predicate Enabled(s: Setting, w: Work, e: Event) {
    match e
    case Started(n) =>
      && n in s.plan && n in s.ready && n in s.before && !Begun(w, n) && s.ready[n] <= w.done.Keys
      && forall m | m in s.before[n] :: Begun(w, m)
    case Finished(n) => n in w.running && n in s.plan && n !in w.done && MayFinish(s, w, n)
  }

  function Apply(s: Setting, w: Work, e: Event): Work
    requires Enabled(s, w, e)
  {
    match e
    case Started(n) => w.(running := w.running[n := Resolve(s.plan[n].arguments, Texts(w.done))])
    case Finished(n) =>
      Work(w.done[n := Observe(s.dispatch(n, s.plan[n].tool, w.running[n]), s.limit)], w.running - {n})
  }

  /** Where an interleaving leads from idle, if each of its events is possible when it happens. */
  function After(s: Setting, events: seq<Event>): Option<Work> {
    if events == [] then Some(Idle) else
    var last := events[|events| - 1];
    match After(s, events[..|events| - 1])
    case Some(v) => if Enabled(s, v, last) then Some(Apply(s, v, last)) else None
    case None => None
  }

  predicate Leads(s: Setting, events: seq<Event>, w: Work) {
    After(s, events) == Some(w)
  }

  predicate Complete(s: Setting, w: Work) {
    forall n | n in s.plan :: n in w.done
  }

  /** The start order is well-founded: a step waits only for plan steps of lower rank. */
  ghost predicate Ordered(plan: Plan, ready: Ready, rank: map<int, nat>) {
    && ready.Keys == plan.Keys && rank.Keys == plan.Keys
    && forall n, r | n in ready && r in ready[n] :: r in plan && rank[r] < rank[n]
  }

  /** Steps that start in a fixed order wait for the same steps. */
  ghost predicate Queued(plan: Plan, ready: Ready, before: Ready, place: map<int, nat>) {
    && ready.Keys == plan.Keys && before.Keys == plan.Keys && place.Keys == plan.Keys
    && forall n, m | n in before && m in before[n] :: m in plan && place[m] < place[n] && ready[m] == ready[n]
  }

  /** Whenever step `n` mentions another plan step, one of the two waits for the other, or `n` starts first. */
  ghost predicate RaceFree(plan: Plan, ready: Ready, before: Ready) {
    forall n, r | n in plan && n in ready && r in ArgRefs(plan[n].arguments) && r in plan && r in ready && r in before ::
      r in ready[n] || r == n || n in ready[r] || n in before[r]
  }

  /** The arguments and the observation of a step, defined without any schedule. */
  ghost function MeaningArgs(s: Setting, rank: map<int, nat>, n: int): Args
    requires Ordered(s.plan, s.ready, rank) && n in s.plan
    decreases rank[n], 1
  {
    Resolve(s.plan[n].arguments, Known(s, rank, n))
  }

  /** The results step `n` can count on among those it mentions. */
  ghost function Known(s: Setting, rank: map<int, nat>, n: int): map<int, string>
    requires Ordered(s.plan, s.ready, rank) && n in s.plan
    decreases rank[n], 0
  {
    map r | r in s.ready[n] && r in ArgRefs(s.plan[n].arguments) :: Meaning(s, rank, r).text
  }

  ghost function Meaning(s: Setting, rank: map<int, nat>, n: int): Observation
    requires Ordered(s.plan, s.ready, rank) && n in s.plan
    decreases rank[n], 2
  {
    Observe(s.dispatch(n, s.plan[n].tool, MeaningArgs(s, rank, n)), s.limit)
  }

  /** Every finished step has its meaning, every running step was called with its meaning's arguments. */
  ghost predicate Faithful(s: Setting, rank: map<int, nat>, w: Work)
    requires Ordered(s.plan, s.ready, rank)
  {
    && (forall n | Begun(w, n) :: n in s.before && forall m | m in s.before[n] :: Begun(w, m))
    && (forall n | n in w.done :: n in s.plan && s.ready[n] <= w.done.Keys && w.done[n] == Meaning(s, rank, n))
    && (forall n | n in w.running :: n in s.plan && n !in w.done && s.ready[n] <= w.done.Keys
                                     && w.running[n] == MeaningArgs(s, rank, n))
  }

  lemma {:induction false} StartIsFaithful(s: Setting, rank: map<int, nat>, w: Work, n: int)
    requires Ordered(s.plan, s.ready, rank) && s.before.Keys == s.plan.Keys && RaceFree(s.plan, s.ready, s.before)
    requires Faithful(s, rank, w) && Enabled(s, w, Started(n))
    ensures Resolve(s.plan[n].arguments, Texts(w.done)) == MeaningArgs(s, rank, n)
  {
    var args := s.plan[n].arguments;
    var known := Known(s, rank, n);
    forall r | r in ArgRefs(args)
      ensures (r in Texts(w.done) <==> r in known) && (r in known ==> Texts(w.done)[r] == known[r])
    {
      if r in s.plan && r != n && n in s.ready[r] {
        assert r !in w.done && r !in s.ready[n];
      } else if r in s.plan && r != n && n in s.before[r] {
        assert !Begun(w, r) && r !in s.ready[n];
      }
    }
    ResolveAgree(args, Texts(w.done), known);
  }

  lemma {:induction false} EventKeepsFaithful(s: Setting, rank: map<int, nat>, w: Work, e: Event)
    requires Ordered(s.plan, s.ready, rank) && s.before.Keys == s.plan.Keys && RaceFree(s.plan, s.ready, s.before)
    requires Faithful(s, rank, w) && Enabled(s, w, e)
    ensures Faithful(s, rank, Apply(s, w, e))
  {
    if e.Started? {
      StartIsFaithful(s, rank, w, e.step);
    }
  }

  lemma {:induction false} LeadsFaithfully(s: Setting, rank: map<int, nat>, events: seq<Event>, w: Work)
    requires Ordered(s.plan, s.ready, rank) && s.before.Keys == s.plan.Keys && RaceFree(s.plan, s.ready, s.before)
    requires Leads(s, events, w)
    ensures Faithful(s, rank, w)
    decreases |events|
  {
    if events != [] {
      var front, last := events[..|events| - 1], events[|events| - 1];
      var v := After(s, front).value;
      LeadsFaithfully(s, rank, front, v);
      EventKeepsFaithful(s, rank, v, last);
    }
  }

  /** Every complete interleaving of a race-free plan ends with the same observation for every step. */
  lemma {:induction false} SchedulesAgree(s: Setting, rank: map<int, nat>, events: seq<Event>, w: Work)
    requires Ordered(s.plan, s.ready, rank) && s.before.Keys == s.plan.Keys && RaceFree(s.plan, s.ready, s.before)
    requires Leads(s, events, w) && Complete(s, w)
    ensures forall n :: n !in w.running
    ensures forall n | n in s.plan :: w.done[n] == Meaning(s, rank, n)
  {
    LeadsFaithfully(s, rank, events, w);
  }

  /******* Exactly once, and no deadlock; for any plan, raced or not *******/

  /** Each step is called once when it is running or done, and finishes once when it is done. */
  lemma {:induction false} EachStepOnce(s: Setting, events: seq<Event>, w: Work, n: int)
    requires Leads(s, events, w)
    ensures Times(events, Started(n)) == if n in w.done || n in w.running then 1 else 0
    ensures Times(events, Finished(n)) == if n in w.done then 1 else 0
    ensures n in w.running ==> n !in w.done
    ensures w.done.Keys + w.running.Keys <= s.plan.Keys
    decreases |events|
  {
    if events != [] {
      var front, last := events[..|events| - 1], events[|events| - 1];
      var v := After(s, front).value;
      EachStepOnce(s, front, v, n);
    }
  }

  /** In a complete interleaving every tool call is made exactly once. */
  lemma {:induction false} CompleteCallsOnce(s: Setting, events: seq<Event>, w: Work, n: int)
    requires Leads(s, events, w) && Complete(s, w)
    ensures Times(events, Started(n)) == Times(events, Finished(n)) == if n in s.plan then 1 else 0
  {
    EachStepOnce(s, events, w, n);
  }

  lemma {:induction false} LowestUnfinished(s: Setting, rank: map<int, nat>, w: Work, n: int, within: set<int>)
    returns (low: int)
    requires Ordered(s.plan, s.ready, rank) && Separate(s, within) && n in within && n !in w.done
    ensures low in within && low !in w.done && s.ready[low] <= w.done.Keys
    decreases rank[n]
  {
    if r :| r in s.ready[n] && r !in w.done {
      low := LowestUnfinished(s, rank, w, r, within);
    } else {
      assert forall r | r in s.ready[n] :: r in w.done.Keys;
      low := n;
    }
  }

  /** A part of the plan that waits for nothing outside it, and is gathered with nothing outside it. */
  ghost predicate Separate(s: Setting, within: set<int>) {
    && (forall n | n in within :: n in s.plan && n in s.ready && n in s.before && s.ready[n] <= within)
    && (forall n, m | n in s.before && m in s.before[n] :: m in within <==> n in within)
  }

  predicate Waits(s: Setting, w: Work, n: int) {
    n in s.ready && !Begun(w, n) && s.ready[n] <= w.done.Keys
  }

  /** The first, in the order of the plan, of the steps that have nothing left to wait for. */
  lemma {:induction false} FirstWaiting(s: Setting, place: map<int, nat>, w: Work, within: set<int>, n: int)
    returns (first: int)
    requires Queued(s.plan, s.ready, s.before, place) && Separate(s, within) && n in within && Waits(s, w, n)
    ensures first in within && Enabled(s, w, Started(first))
    decreases place[n]
  {
    if m :| m in s.before[n] && !Begun(w, m) {
      first := FirstWaiting(s, place, w, within, m);
    } else {
      first := n;
    }
  }

  /** As long as a step of a separate part is unfinished, some event of that part can happen. */
  lemma {:induction false} NextWithin(s: Setting, rank: map<int, nat>, place: map<int, nat>, w: Work, within: set<int>,
                                      n: int) returns (e: Event)
    requires Ordered(s.plan, s.ready, rank) && Queued(s.plan, s.ready, s.before, place) && Separate(s, within)
    requires n in within && n !in w.done
    ensures e.step in within && Enabled(s, w, e)
  {
    var low := LowestUnfinished(s, rank, w, n, within);
    if m :| m in within && Waits(s, w, m) {
      var first := FirstWaiting(s, place, w, within, m);
      e := Started(first);
    } else {
      assert !Waits(s, w, low);
      forall m | m in s.before && low in s.before[m] ensures Begun(w, m) {
        assert m in within && !Waits(s, w, m);
      }
      e := Finished(low);
    }
  }

  lemma {:induction false} WholePlanIsSeparate(s: Setting, rank: map<int, nat>, place: map<int, nat>)
    requires Ordered(s.plan, s.ready, rank) && Queued(s.plan, s.ready, s.before, place)
    ensures Separate(s, s.plan.Keys)
  {
    forall n | n in s.plan ensures s.ready[n] <= s.plan.Keys {
      assert forall r | r in s.ready[n] :: r in s.plan;
    }
  }

  /** As long as a step is unfinished, some event can happen. */
  lemma {:induction false} NoDeadlock(s: Setting, rank: map<int, nat>, place: map<int, nat>, w: Work) returns (e: Event)
    requires Ordered(s.plan, s.ready, rank) && Queued(s.plan, s.ready, s.before, place) && !Complete(s, w)
    ensures Enabled(s, w, e)
  {
    var n :| n in s.plan && n !in w.done;
    WholePlanIsSeparate(s, rank, place);
    e := NextWithin(s, rank, place, w, s.plan.Keys, n);
  }
}
