/** The two schedules of a plan: level by level, and as soon as the dependencies are done. */
module Schedules {
  import opened Substitution
  import opened PlanExecution
  import opened Levels

  function DepsOf(plan: Plan): Deps {
    map n | n in plan :: plan[n].dependsOn
  }

  /** Level by level: a step starts when every step of a lower level has finished. */
  function LevelReady(plan: Plan, level: map<int, nat>): Ready
    requires level.Keys == plan.Keys
  {
    map n | n in plan :: set m | m in level && level[m] < level[n]
  }

  /** Dependency order: a step starts when everything it depends on has finished. */
  function DependencyReady(plan: Plan): Ready {
    map n | n in plan :: set d | d in plan[n].dependsOn
  }

  /** Every mention of another plan step is declared as a dependency. */
  ghost predicate MentionsDeclared(plan: Plan) {
    forall n, r | n in plan && r in ArgRefs(plan[n].arguments) && r in plan :: r == n || r in plan[n].dependsOn
  }

  /** A level is gathered in the order of the plan: a step starts after the earlier steps of its level. */
  function LevelBefore(plan: Plan, level: map<int, nat>, place: map<int, nat>): Ready
    requires level.Keys == plan.Keys == place.Keys
  {
    map n | n in plan :: set m | m in level && level[m] == level[n] && place[m] < place[n]
  }

  /** Dependency order starts steps in any order. */
  function Unordered(plan: Plan): Ready {
    map n | n in plan :: {}
  }

  function ByLevel(plan: Plan, level: map<int, nat>, place: map<int, nat>, dispatch: Dispatch, limit: nat): Setting
    requires level.Keys == plan.Keys == place.Keys
  {
    Setting(plan, LevelReady(plan, level), LevelBefore(plan, level, place), dispatch, limit)
  }

  function ByDependency(plan: Plan, dispatch: Dispatch, limit: nat): Setting {
    Setting(plan, DependencyReady(plan), Unordered(plan), dispatch, limit)
  }

  /** A numbering of the plan with levels, and with the place of each step in the plan. */
  ghost predicate Arranged(plan: Plan, level: map<int, nat>, place: map<int, nat>) {
    && level.Keys == plan.Keys == place.Keys
    && forall m, n | m in place && n in place && place[m] == place[n] :: m == n
  }

  /** No step mentions a step of its own level that comes earlier in the plan. */
  ghost predicate NoEarlierPeerMention(plan: Plan, level: map<int, nat>, place: map<int, nat>)
    requires level.Keys == plan.Keys == place.Keys
  {
    forall n, r | n in plan && r in ArgRefs(plan[n].arguments) && r in plan ::
      level[r] == level[n] ==> place[r] >= place[n]
  }

  lemma {:induction false} LevelOrdered(plan: Plan, level: map<int, nat>, place: map<int, nat>)
    requires Arranged(plan, level, place)
    ensures Ordered(plan, LevelReady(plan, level), level)
    ensures Queued(plan, LevelReady(plan, level), LevelBefore(plan, level, place), place)
    ensures NoEarlierPeerMention(plan, level, place) ==>
              RaceFree(plan, LevelReady(plan, level), LevelBefore(plan, level, place))
  {
    var ready, before := LevelReady(plan, level), LevelBefore(plan, level, place);
    forall n, m | n in before && m in before[n] ensures ready[m] == ready[n] {
      assert level[m] == level[n];
    }
    if NoEarlierPeerMention(plan, level, place) {
      forall n, r | n in plan && r in ArgRefs(plan[n].arguments) && r in plan
        ensures r in ready[n] || r == n || n in ready[r] || n in before[r] {
      }
    }
  }

  lemma {:induction false} DependencyOrdered(plan: Plan, level: map<int, nat>)
    requires level.Keys == plan.Keys && Levelling(DepsOf(plan), level)
    ensures Ordered(plan, DependencyReady(plan), level)
  {
    var deps, ready := DepsOf(plan), DependencyReady(plan);
    forall n, r | n in ready && r in ready[n] ensures r in plan && level[r] < level[n] {
      assert Depends(deps, n, r);
      LevelAboveDependencies(deps, level, n, r);
    }
  }

  lemma {:induction false} DeclaredIsRaceFree(plan: Plan, level: map<int, nat>, place: map<int, nat>)
    requires Arranged(plan, level, place) && Levelling(DepsOf(plan), level) && MentionsDeclared(plan)
    ensures RaceFree(plan, DependencyReady(plan), Unordered(plan)) && NoEarlierPeerMention(plan, level, place)
  {
    DependencyOrdered(plan, level);
    forall n, r | n in plan && r in ArgRefs(plan[n].arguments) && r in plan ensures r == n || level[r] < level[n] {
      if r != n {
        assert r in DependencyReady(plan)[n];
      }
    }
  }

  /** When every mention is a declared dependency, a step means the same under both schedules. */
  lemma {:induction false} SameMeaning(plan: Plan, level: map<int, nat>, s: Setting, t: Setting, n: int)
    requires level.Keys == plan.Keys && Levelling(DepsOf(plan), level) && MentionsDeclared(plan) && n in plan
    requires s.plan == t.plan == plan && s.ready == LevelReady(plan, level) && t.ready == DependencyReady(plan)
    requires s.dispatch == t.dispatch && s.limit == t.limit
    requires Ordered(plan, s.ready, level) && Ordered(plan, t.ready, level)
    ensures Meaning(s, level, n) == Meaning(t, level, n)
    decreases level[n]
  {
    var a, b := Known(s, level, n), Known(t, level, n);
    forall r | r in ArgRefs(plan[n].arguments) ensures (r in a <==> r in b) && (r in a ==> a[r] == b[r]) {
      if r in s.ready[n] {
        SameMeaning(plan, level, s, t, r);
      }
    }
    ResolveAgree(plan[n].arguments, a, b);
  }

  /** Confluence. For every acyclic plan whose mentions are declared dependencies, every order of starts and
      finishes that respects dependencies gives each step the observation the level-by-level schedule gives. */
  lemma {:induction false} Confluence(plan: Plan, level: map<int, nat>, place: map<int, nat>, dispatch: Dispatch,
                                      limit: nat,
                                      byLevel: seq<Event>, w: Work, byDependency: seq<Event>, v: Work, n: int)
    requires Arranged(plan, level, place) && Levelling(DepsOf(plan), level) && MentionsDeclared(plan)
    requires var s := ByLevel(plan, level, place, dispatch, limit); Leads(s, byLevel, w) && Complete(s, w)
    requires var t := ByDependency(plan, dispatch, limit); Leads(t, byDependency, v) && Complete(t, v)
    requires n in plan
    ensures n in w.done && n in v.done && w.done[n] == v.done[n]
  {
    var s, t := ByLevel(plan, level, place, dispatch, limit), ByDependency(plan, dispatch, limit);
    LevelOrdered(plan, level, place);
    DependencyOrdered(plan, level);
    DeclaredIsRaceFree(plan, level, place);
    SchedulesAgree(s, level, byLevel, w);
    SchedulesAgree(t, level, byDependency, v);
    SameMeaning(plan, level, s, t, n);
  }

  /******* Exactly when the level schedule is deterministic *******/

  ghost predicate Deterministic(plan: Plan, level: map<int, nat>, place: map<int, nat>, limit: nat)
    requires level.Keys == plan.Keys == place.Keys
  {
    forall dispatch: Dispatch, e, e', w, w' ::
      var s := ByLevel(plan, level, place, dispatch, limit);
      Leads(s, e, w) && Complete(s, w) && Leads(s, e', w') && Complete(s, w') ==> SameDone(w, w')
  }

  /** Both have finished the same steps, with the same observations. */
  ghost predicate SameDone(w: Work, v: Work) {
    forall n :: (n in w.done <==> n in v.done) && (n in w.done ==> w.done[n] == v.done[n])
  }

  /** The level schedule gives a plan the same observations whenever its calls return, for all tools, if and only if
      no step mentions an earlier step of its own level: a later one has not even started when the step is called. */
  lemma {:induction false} DeterministicIffNoEarlierPeerMention(plan: Plan, level: map<int, nat>,
                                                                place: map<int, nat>, limit: nat)
    requires Arranged(plan, level, place)
    ensures Deterministic(plan, level, place, limit) <==> NoEarlierPeerMention(plan, level, place)
  {
    LevelOrdered(plan, level, place);
    if NoEarlierPeerMention(plan, level, place) {
      forall dispatch: Dispatch, e, e', w, w' |
        var s := ByLevel(plan, level, place, dispatch, limit);
        Leads(s, e, w) && Complete(s, w) && Leads(s, e', w') && Complete(s, w')
        ensures SameDone(w, w')
      {
        var s := ByLevel(plan, level, place, dispatch, limit);
        AgreeOnDone(s, level, e, w, e', w');
      }
    } else {
      var a, b :| a in plan && b in ArgRefs(plan[a].arguments) && b in plan && level[b] == level[a] && place[b] < place[a];
      PeerMentionRaces(plan, level, place, limit, a, b);
    }
  }

  lemma {:induction false} AgreeOnDone(s: Setting, rank: map<int, nat>, e: seq<Event>, w: Work, e': seq<Event>,
                                       w': Work)
    requires Ordered(s.plan, s.ready, rank) && s.before.Keys == s.plan.Keys && RaceFree(s.plan, s.ready, s.before)
    requires Leads(s, e, w) && Complete(s, w) && Leads(s, e', w') && Complete(s, w')
    ensures SameDone(w, w')
  {
    SchedulesAgree(s, rank, e, w);
    SchedulesAgree(s, rank, e', w');
    LeadsFaithfully(s, rank, e, w);
    LeadsFaithfully(s, rank, e', w');
  }

  lemma {:induction false} AfterConcat(s: Setting, events: seq<Event>, w: Work, e: Event)
    requires Leads(s, events, w) && Enabled(s, w, e)
    ensures Leads(s, events + [e], Apply(s, w, e))
  {
    assert (events + [e])[..|events|] == events;
  }

  /** What the running step `m` will leave behind. */
  function Returned(s: Setting, w: Work, m: int): Observation
    requires m in w.running && m in s.plan
  {
    Observe(s.dispatch(m, s.plan[m].tool, w.running[m]), s.limit)
  }

  lemma {:induction false} EventProgresses(s: Setting, w: Work, e: Event, within: set<int>)
    requires Enabled(s, w, e) && e.step in within
    ensures var v := Apply(s, w, e);
            || within - v.done.Keys - v.running.Keys < within - w.done.Keys - w.running.Keys
            || (within - v.done.Keys - v.running.Keys == within - w.done.Keys - w.running.Keys
                && within - v.done.Keys < within - w.done.Keys)
  {
    var v := Apply(s, w, e);
    if e.Started? {
      assert e.step in within - w.done.Keys - w.running.Keys && e.step !in within - v.done.Keys - v.running.Keys;
    } else {
      assert e.step in within - w.done.Keys && e.step !in within - v.done.Keys;
      assert forall n :: Begun(v, n) <==> Begun(w, n);
      assert forall n :: n in within - v.done.Keys - v.running.Keys <==> n in within - w.done.Keys - w.running.Keys;
    }
  }

  /** From any point a separate part of the plan can be run to the end, without touching the rest. */
  lemma {:induction false} RunPart(s: Setting, rank: map<int, nat>, place: map<int, nat>, within: set<int>,
                                   events: seq<Event>, w: Work) returns (events': seq<Event>, w': Work)
    requires Ordered(s.plan, s.ready, rank) && Queued(s.plan, s.ready, s.before, place) && Separate(s, within)
    requires Leads(s, events, w) && w.running.Keys <= within
    ensures Leads(s, events', w') && w'.running.Keys == {} && w'.done.Keys == w.done.Keys + within
    ensures forall m | m in w.done :: w'.done[m] == w.done[m]
    ensures forall m | m in w.running :: w'.done[m] == Returned(s, w, m)
    decreases within - w.done.Keys - w.running.Keys, within - w.done.Keys
  {
    RunningIsNotDone(s, events, w);
    if n :| n in within && n !in w.done {
      var e := NextWithin(s, rank, place, w, within, n);
      AfterConcat(s, events, w, e);
      EventProgresses(s, w, e, within);
      events', w' := RunPart(s, rank, place, within, events + [e], Apply(s, w, e));
    } else {
      forall m ensures m !in w.running {
        assert m in w.running ==> m in within;
      }
      assert forall m | m in within :: m in w.done.Keys;
      events', w' := events, w;
    }
  }

  lemma {:induction false} RunningIsNotDone(s: Setting, events: seq<Event>, w: Work)
    requires Leads(s, events, w)
    ensures forall n | n in w.running :: n !in w.done
  {
    forall n | n in w.running ensures n !in w.done {
      EachStepOnce(s, events, w, n);
    }
  }

  lemma {:induction false} RunAll(s: Setting, rank: map<int, nat>, place: map<int, nat>, events: seq<Event>, w: Work)
    returns (events': seq<Event>, w': Work)
    requires Ordered(s.plan, s.ready, rank) && Queued(s.plan, s.ready, s.before, place) && Leads(s, events, w)
    ensures Leads(s, events', w') && Complete(s, w')
    ensures forall m | m in w.done :: m in w'.done && w'.done[m] == w.done[m]
    ensures forall m | m in w.running :: m in s.plan && w'.done[m] == Returned(s, w, m)
  {
    WholePlanIsSeparate(s, rank, place);
    forall n | n in w.running ensures n in s.plan {
      EachStepOnce(s, events, w, n);
    }
    events', w' := RunPart(s, rank, place, s.plan.Keys, events, w);
  }

  const Empty := Observation("", false)

  /** Tools that return nothing, except that step `a` fails on the arguments `trap`. */
  function Trap(a: int, trap: Args): Dispatch {
    (n: int, tool: string, args: Args) => if n == a && args == trap then Raises("") else Content("")
  }

  lemma {:induction false} OthersAreEmpty(s: Setting, a: int, trap: Args, events: seq<Event>, w: Work, n: int)
    requires s.dispatch == Trap(a, trap) && Leads(s, events, w) && n in w.done && n != a
    ensures w.done[n] == Empty
    decreases |events|
  {
    var front, last := events[..|events| - 1], events[|events| - 1];
    var v := After(s, front).value;
    if n in v.done {
      OthersAreEmpty(s, a, trap, front, v, n);
    }
  }

  lemma {:induction false} MentionChangesArgs(args: Args, results: map<int, string>, b: int)
    requires b in ArgRefs(args) && b !in results
    ensures Resolve(args, results[b := ""]) != Resolve(args, results)
  {
    var i :| 0 <= i < |args| && args[i].1.Str? && b in Refs(args[i].1.text);
    ExpandShorter(Tokenize(args[i].1.text), results, b);
    assert Resolve(args, results[b := ""])[i] != Resolve(args, results)[i];
  }

  /** The observations of all steps below `a` when every tool returns nothing. */
  function EmptyBelow(plan: Plan, level: map<int, nat>, a: int): map<int, string>
    requires level.Keys == plan.Keys && a in plan
  {
    map n | n in plan && level[n] < level[a] :: ""
  }

  /** Levels below `l` have finished; of level `l` exactly the steps placed before `p` have begun. */
  ghost predicate Entered(s: Setting, level: map<int, nat>, place: map<int, nat>, l: nat, p: nat, w: Work)
    requires level.Keys == s.plan.Keys == place.Keys
  {
    && (forall n | n in s.plan && level[n] < l :: n in w.done)
    && forall n :: Begun(w, n) <==> n in s.plan && (level[n] < l || (level[n] == l && place[n] < p))
  }

  lemma {:induction false} EnabledWhenEntered(s: Setting, level: map<int, nat>, place: map<int, nat>, w: Work, n: int)
    requires Arranged(s.plan, level, place) && n in s.plan
    requires s.ready == LevelReady(s.plan, level) && s.before == LevelBefore(s.plan, level, place)
    requires Entered(s, level, place, level[n], place[n], w)
    ensures Enabled(s, w, Started(n))
  {
    assert forall r | r in s.ready[n] :: r in w.done;
  }

  /** The steps of level `l` placed between `p` and `q` are started; none of them returns yet. */
  lemma {:induction false} StartUpTo(s: Setting, level: map<int, nat>, place: map<int, nat>, l: nat, p: nat, q: nat,
                                     events: seq<Event>, w: Work) returns (events': seq<Event>, w': Work)
    requires Arranged(s.plan, level, place) && p <= q && Leads(s, events, w) && Entered(s, level, place, l, p, w)
    requires s.ready == LevelReady(s.plan, level) && s.before == LevelBefore(s.plan, level, place)
    ensures Leads(s, events', w') && Entered(s, level, place, l, q, w') && w'.done == w.done
    decreases q - p
  {
    if p == q {
      events', w' := events, w;
    } else if n :| n in s.plan && level[n] == l && place[n] == p {
      EnabledWhenEntered(s, level, place, w, n);
      AfterConcat(s, events, w, Started(n));
      StartedEnters(s, level, place, w, n);
      events', w' := StartUpTo(s, level, place, l, p + 1, q, events + [Started(n)], Apply(s, w, Started(n)));
    } else {
      events', w' := StartUpTo(s, level, place, l, p + 1, q, events, w);
    }
  }

  lemma {:induction false} StartedEnters(s: Setting, level: map<int, nat>, place: map<int, nat>, w: Work, n: int)
    requires Arranged(s.plan, level, place) && n in s.plan && Enabled(s, w, Started(n))
    requires Entered(s, level, place, level[n], place[n], w)
    ensures Entered(s, level, place, level[n], place[n] + 1, Apply(s, w, Started(n)))
  {
  }

  /** The levels below `a` run to the end; under a trap for `a` everything is empty so far. */
  lemma {:induction false} BeforeLevel(s: Setting, level: map<int, nat>, place: map<int, nat>, a: int, trap: Args)
    returns (e: seq<Event>, w: Work)
    requires Arranged(s.plan, level, place) && s.dispatch == Trap(a, trap) && a in s.plan
    requires s.ready == LevelReady(s.plan, level) && s.before == LevelBefore(s.plan, level, place)
    ensures Leads(s, e, w) && Entered(s, level, place, level[a], 0, w)
    ensures Texts(w.done) == EmptyBelow(s.plan, level, a)
  {
    LevelOrdered(s.plan, level, place);
    var within := set n | n in s.plan && level[n] < level[a];
    LowerLevelsAreSeparate(s, level, place, level[a], within);
    e, w := RunPart(s, level, place, within, [], Idle);
    forall n | n in w.done ensures w.done[n] == Empty {
      OthersAreEmpty(s, a, trap, e, w, n);
    }
    AllLowerDone(s, level, place, a, within, w);
  }

  lemma {:induction false} LowerLevelsAreSeparate(s: Setting, level: map<int, nat>, place: map<int, nat>, l: nat,
                                                  within: set<int>)
    requires Arranged(s.plan, level, place) && within == set n | n in s.plan && level[n] < l
    requires s.ready == LevelReady(s.plan, level) && s.before == LevelBefore(s.plan, level, place)
    ensures Separate(s, within)
  {
    forall n | n in within ensures s.ready[n] <= within {
    }
  }

  lemma {:induction false} AllLowerDone(s: Setting, level: map<int, nat>, place: map<int, nat>, a: int, within: set<int>,
                                        w: Work)
    requires Arranged(s.plan, level, place) && a in s.plan && within == set n | n in s.plan && level[n] < level[a]
    requires w.done.Keys == within && w.running.Keys == {} && forall n | n in w.done :: w.done[n] == Empty
    ensures Entered(s, level, place, level[a], 0, w) && Texts(w.done) == EmptyBelow(s.plan, level, a)
  {
    assert forall n :: n !in w.running;
    var texts, empty := Texts(w.done), EmptyBelow(s.plan, level, a);
    assert texts.Keys == w.done.Keys == within;
    assert empty.Keys == within;
    assert forall n | n in texts :: texts[n] == w.done[n].text == "" == empty[n];
    assert texts == empty;
  }

  /** Step `a` is called while no step of its level has returned, on the arguments that set off the trap. */
  lemma {:induction false} NobodyReturns(s: Setting, level: map<int, nat>, place: map<int, nat>, a: int)
    returns (e: seq<Event>, w: Work)
    requires Arranged(s.plan, level, place) && a in s.plan
    requires s.ready == LevelReady(s.plan, level) && s.before == LevelBefore(s.plan, level, place)
    requires s.dispatch == Trap(a, Resolve(s.plan[a].arguments, EmptyBelow(s.plan, level, a)))
    ensures Leads(s, e, w) && Complete(s, w) && a in w.done && w.done[a].failed
  {
    LevelOrdered(s.plan, level, place);
    var e0, w0 := BeforeLevel(s, level, place, a, Resolve(s.plan[a].arguments, EmptyBelow(s.plan, level, a)));
    var e1, w1 := StartUpTo(s, level, place, level[a], 0, place[a], e0, w0);
    EnabledWhenEntered(s, level, place, w1, a);
    AfterConcat(s, e1, w1, Started(a));
    e, w := RunAll(s, level, place, e1 + [Started(a)], Apply(s, w1, Started(a)));
  }

  /** The earlier peer `b` returns without waiting, so that step `a` is called on other arguments. */
  lemma {:induction false} EarlierReturns(s: Setting, level: map<int, nat>, place: map<int, nat>, a: int, b: int)
    returns (e: seq<Event>, w: Work)
    requires Arranged(s.plan, level, place) && a in s.plan
    requires s.ready == LevelReady(s.plan, level) && s.before == LevelBefore(s.plan, level, place)
    requires s.dispatch == Trap(a, Resolve(s.plan[a].arguments, EmptyBelow(s.plan, level, a)))
    requires b in s.plan && level[b] == level[a] && place[b] < place[a] && b in ArgRefs(s.plan[a].arguments)
    ensures Leads(s, e, w) && Complete(s, w) && a in w.done && !w.done[a].failed
  {
    LevelOrdered(s.plan, level, place);
    var args, below := s.plan[a].arguments, EmptyBelow(s.plan, level, a);
    var e1, w1 := AfterEarlier(s, level, place, a, b);
    var e2, w2 := StartUpTo(s, level, place, level[a], place[b] + 1, place[a], e1, w1);
    EnabledWhenEntered(s, level, place, w2, a);
    AfterConcat(s, e2, w2, Started(a));
    MentionChangesArgs(args, below, b);
    e, w := RunAll(s, level, place, e2 + [Started(a)], Apply(s, w2, Started(a)));
  }

  /** The point at which `b` alone, of its level, has returned. */
  lemma {:induction false} AfterEarlier(s: Setting, level: map<int, nat>, place: map<int, nat>, a: int, b: int)
    returns (e: seq<Event>, w: Work)
    requires Arranged(s.plan, level, place) && a in s.plan
    requires s.ready == LevelReady(s.plan, level) && s.before == LevelBefore(s.plan, level, place)
    requires s.dispatch == Trap(a, Resolve(s.plan[a].arguments, EmptyBelow(s.plan, level, a)))
    requires b in s.plan && level[b] == level[a] && place[b] < place[a]
    ensures Leads(s, e, w) && Entered(s, level, place, level[a], place[b] + 1, w)
    ensures Texts(w.done) == EmptyBelow(s.plan, level, a)[b := ""]
  {
    var trap := Resolve(s.plan[a].arguments, EmptyBelow(s.plan, level, a));
    var e0, w0 := BeforeLevel(s, level, place, a, trap);
    var e1, w1 := StartUpTo(s, level, place, level[a], 0, place[b], e0, w0);
    e, w := ReturnsAtOnce(s, level, place, e1, w1, b);
    OthersAreEmpty(s, a, trap, e, w, b);
    OneMoreText(w1.done, w.done, b);
  }

  lemma {:induction false} OneMoreText(done: map<int, Observation>, more: map<int, Observation>, b: int)
    requires more.Keys == done.Keys + {b} && b !in done && (forall n | n in done :: more[n] == done[n]) && more[b] == Empty
    ensures Texts(more) == Texts(done)[b := ""]
  {
    assert forall n :: n in more.Keys <==> n in done.Keys + {b};
    var t, u := Texts(more), Texts(done)[b := ""];
    forall n ensures (n in t <==> n in u) && (n in t ==> t[n] == u[n]) {
      assert n == b ==> more[n].text == "";
    }
    assert t.Keys == u.Keys;
  }

  lemma {:induction false} ReturnsAtOnce(s: Setting, level: map<int, nat>, place: map<int, nat>, events: seq<Event>,
                                         w: Work, b: int)
    returns (events': seq<Event>, w': Work)
    requires Arranged(s.plan, level, place) && b in s.plan && Leads(s, events, w)
    requires s.ready == LevelReady(s.plan, level) && s.before == LevelBefore(s.plan, level, place)
    requires Entered(s, level, place, level[b], place[b], w)
    ensures Leads(s, events', w') && Entered(s, level, place, level[b], place[b] + 1, w')
    ensures b !in w.done && w'.done.Keys == w.done.Keys + {b} && forall n | n in w.done :: w'.done[n] == w.done[n]
  {
    EnabledWhenEntered(s, level, place, w, b);
    AfterConcat(s, events, w, Started(b));
    StartedEnters(s, level, place, w, b);
    var v := Apply(s, w, Started(b));
    assert MayFinish(s, v, b);
    AfterConcat(s, events + [Started(b)], v, Finished(b));
    events', w' := events + [Started(b)] + [Finished(b)], Apply(s, v, Finished(b));
    assert forall n :: Begun(w', n) <==> Begun(v, n);
  }

  /** A step that mentions an earlier peer tells whether that peer returned without waiting. */
  lemma {:induction false} PeerMentionRaces(plan: Plan, level: map<int, nat>, place: map<int, nat>, limit: nat,
                                            a: int, b: int)
    requires Arranged(plan, level, place)
    requires a in plan && b in plan && level[b] == level[a] && place[b] < place[a] && b in ArgRefs(plan[a].arguments)
    ensures !Deterministic(plan, level, place, limit)
  {
    var trap := Resolve(plan[a].arguments, EmptyBelow(plan, level, a));
    var s := ByLevel(plan, level, place, Trap(a, trap), limit);
    var e, w := NobodyReturns(s, level, place, a);
    var e', w' := EarlierReturns(s, level, place, a, b);
    assert !SameDone(w, w');
  }
}
