/** Tree-of-thought search: which nodes are expanded when, what is accepted, and exactly when the search ends. */
module TreeOfThought {
  import opened Values

  datatype Strategy = BFS | DFS | BestFirst

  datatype Plan = Plan(strategy: Strategy, maxDepth: int, minDepth: int, maxNodes: int)

  datatype Thought = Thought(parent: Option<nat>, children: seq<nat>, depth: nat, terminal: bool, pruned: bool,
                             score: Option<real>)

  const Root := Thought(None, [], 0, false, false, None)

  /** The model's answer to one expansion request: for each candidate, whether it claims to be complete. Answers
      may differ from round to round. */
  type Model = (nat, seq<Thought>, nat) -> seq<bool>

  datatype Verdict = Verdict(score: real, reject: bool)

  type Judge = (nat, seq<Thought>, nat) -> Verdict

  /******* Selection *******/

  predicate Open(p: Plan, n: Thought) {
    !n.pruned && !n.terminal && n.depth < p.maxDepth && n.children == []
  }

  /** The open nodes in creation order. */
  function Expandable(p: Plan, t: seq<Thought>): (r: seq<nat>)
    ensures forall i | 0 <= i < |r| :: r[i] < |t| && Open(p, t[r[i]])
  {
    if t == [] then [] else
    var last := |t| - 1;
    Expandable(p, t[..last]) + if Open(p, t[last]) then [last] else []
  }

  /** A node without a score comes below every scored one. */
  predicate Above(a: Option<real>, b: Option<real>) {
    a.Some? && (b.None? || a.value > b.value)
  }

  predicate Prefers(p: Plan, a: Thought, b: Thought) {
    if p.strategy == DFS then a.depth > b.depth else Above(a.score, b.score)
  }

  /** The first of the preferred candidates. */
  function First(p: Plan, t: seq<Thought>, among: seq<nat>): (r: nat)
    requires among != [] && forall i | 0 <= i < |among| :: among[i] < |t|
    ensures r in among && r < |t|
  {
    if |among| == 1 then among[0] else
    var best, last := First(p, t, among[..|among| - 1]), among[|among| - 1];
    if Prefers(p, t[last], t[best]) then last else best
  }

  function LeastDepth(t: seq<Thought>, among: seq<nat>): nat
    requires among != [] && forall i | 0 <= i < |among| :: among[i] < |t|
  {
    var last := among[|among| - 1];
    if |among| == 1 then t[last].depth else
    var d := LeastDepth(t, among[..|among| - 1]);
    if t[last].depth < d then t[last].depth else d
  }

  function AtDepth(t: seq<Thought>, among: seq<nat>, d: nat): (r: seq<nat>)
    requires forall i | 0 <= i < |among| :: among[i] < |t|
    ensures forall i | 0 <= i < |r| :: r[i] < |t| && r[i] in among && t[r[i]].depth == d
  {
    if among == [] then [] else
    var last := among[|among| - 1];
    AtDepth(t, among[..|among| - 1], d) + if t[last].depth == d then [last] else []
  }

  function Select(p: Plan, t: seq<Thought>): (r: seq<nat>)
    ensures forall i | 0 <= i < |r| :: r[i] < |t|
  {
    var open := Expandable(p, t);
    if open == [] then []
    else if p.strategy == BFS then AtDepth(t, open, LeastDepth(t, open))
    else [First(p, t, open)]
  }

  lemma {:induction false} ExpandableIsOpen(p: Plan, t: seq<Thought>, n: nat)
    ensures n in Expandable(p, t) <==> n < |t| && Open(p, t[n])
  {
    if t != [] {
      ExpandableIsOpen(p, t[..|t| - 1], n);
    }
  }

  lemma {:induction false} LeastDepthIsLeast(t: seq<Thought>, among: seq<nat>)
    requires among != [] && forall i | 0 <= i < |among| :: among[i] < |t|
    ensures forall i | 0 <= i < |among| :: LeastDepth(t, among) <= t[among[i]].depth
    ensures exists i :: 0 <= i < |among| && t[among[i]].depth == LeastDepth(t, among)
  {
    var last := |among| - 1;
    if last > 0 {
      LeastDepthIsLeast(t, among[..last]);
      var i :| 0 <= i < last && t[among[..last][i]].depth == LeastDepth(t, among[..last]);
      assert t[among[i]].depth == LeastDepth(t, among[..last]);
    }
    assert t[among[last]].depth >= LeastDepth(t, among);
  }

  lemma {:induction false} AtDepthIsAll(t: seq<Thought>, among: seq<nat>, d: nat, n: nat)
    requires forall i | 0 <= i < |among| :: among[i] < |t|
    ensures n in AtDepth(t, among, d) <==> n in among && t[n].depth == d
  {
    if among != [] {
      AtDepthIsAll(t, among[..|among| - 1], d, n);
      assert among == among[..|among| - 1] + [among[|among| - 1]];
    }
  }

  lemma {:induction false} FirstIsBest(p: Plan, t: seq<Thought>, among: seq<nat>, n: nat)
    requires among != [] && forall i | 0 <= i < |among| :: among[i] < |t|
    requires n in among
    ensures !Prefers(p, t[n], t[First(p, t, among)])
  {
    if |among| > 1 {
      var front, last := among[..|among| - 1], among[|among| - 1];
      assert among == front + [last];
      if n in front {
        FirstIsBest(p, t, front, n);
      } else {
        assert front[0] in front;
      }
    }
  }

  /** Selection finds an open node exactly when there is one; breadth-first takes all the shallowest open nodes,
      depth-first one of the deepest, best-first one of the highest scored. */
  lemma {:induction false} SelectIsRight(p: Plan, t: seq<Thought>)
    ensures Select(p, t) == [] <==> forall n | 0 <= n < |t| :: !Open(p, t[n])
    ensures forall n | n in Select(p, t) :: n < |t| && Open(p, t[n])
    ensures p.strategy == BFS ==> forall n, m | n in Select(p, t) && 0 <= m < |t| && Open(p, t[m]) ::
              t[n].depth <= t[m].depth && (t[m].depth == t[n].depth ==> m in Select(p, t))
    ensures p.strategy != BFS ==> |Select(p, t)| <= 1
    ensures p.strategy != BFS ==> forall n, m | n in Select(p, t) && 0 <= m < |t| && Open(p, t[m]) ::
              !Prefers(p, t[m], t[n])
  {
    var open := Expandable(p, t);
    forall n: nat ensures n in open <==> n < |t| && Open(p, t[n]) {
      ExpandableIsOpen(p, t, n);
    }
    if open != [] {
      assert open[0] in open;
      if p.strategy == BFS {
        LeastDepthIsLeast(t, open);
        var d := LeastDepth(t, open);
        forall n: nat ensures n in AtDepth(t, open, d) <==> n in open && t[n].depth == d {
          AtDepthIsAll(t, open, d, n);
        }
        var i :| 0 <= i < |open| && t[open[i]].depth == d;
        assert open[i] in Select(p, t);
      } else {
        forall m | m in open ensures !Prefers(p, t[m], t[First(p, t, open)]) {
          FirstIsBest(p, t, open, m);
        }
      }
    } else {
      forall n | 0 <= n < |t| ensures !Open(p, t[n]) {
        assert n !in open;
      }
    }
  }

  /******* Expansion *******/

  function Child(p: Plan, n: nat, depth: nat, complete: bool): Thought {
    Thought(Some(n), [], depth, complete && depth >= p.minDepth, false, None)
  }

  function AddThought(t: seq<Thought>, n: nat, child: Thought): seq<Thought>
    requires n < |t|
  {
    t[n := t[n].(children := t[n].children + [|t|])] + [child]
  }

  /** Adds one child per candidate. */
  function Generate(p: Plan, t: seq<Thought>, n: nat, flags: seq<bool>): (r: seq<Thought>)
    requires n < |t|
    ensures |r| == |t| + |flags| && r[n].depth == t[n].depth
  {
    if flags == [] then t else
    var so := Generate(p, t, n, flags[..|flags| - 1]);
    AddThought(so, n, Child(p, n, t[n].depth + 1, flags[|flags| - 1]))
  }

  function Rate(n: Thought, v: Verdict): Thought {
    n.(score := Some(v.score), pruned := n.pruned || v.reject)
  }

  /** Scores the nodes from `first` up to `upTo`. */
  function Evaluate(judge: Judge, round: nat, t: seq<Thought>, first: nat, upTo: nat): (r: seq<Thought>)
    requires first <= upTo <= |t|
    ensures |r| == |t|
    decreases upTo
  {
    if first == upTo then t else
    var so := Evaluate(judge, round, t, first, upTo - 1);
    so[upTo - 1 := Rate(so[upTo - 1], judge(round, so, upTo - 1))]
  }

  function Expand(p: Plan, model: Model, judge: Judge, round: nat, t: seq<Thought>, n: nat): (r: seq<Thought>)
    requires n < |t|
    ensures |r| == |t| + |model(round, t, n)|
  {
    var grown := Generate(p, t, n, model(round, t, n));
    Evaluate(judge, round, grown, |t|, |grown|)
  }

  /** The tree, and the nodes expanded so far in order. */
  datatype State = State(t: seq<Thought>, expanded: seq<nat>)

  /** Expands the selected nodes in turn, stopping when the node budget is used up. */
  function ExpandAll(p: Plan, model: Model, judge: Judge, round: nat, s: State, selected: seq<nat>): (r: State)
    requires forall i | 0 <= i < |selected| :: selected[i] < |s.t|
    ensures |r.t| >= |s.t|
  {
    if selected == [] then s else
    var so, n := ExpandAll(p, model, judge, round, s, selected[..|selected| - 1]), selected[|selected| - 1];
    if |so.t| >= p.maxNodes then so else State(Expand(p, model, judge, round, so.t, n), so.expanded + [n])
  }

  predicate Stopped(p: Plan, t: seq<Thought>) {
    |t| >= p.maxNodes || Select(p, t) == []
  }

  /** The state after a number of rounds. */
  function After(p: Plan, model: Model, judge: Judge, rounds: nat): (s: State) {
    if rounds == 0 then State([Root], []) else Round(p, model, judge, rounds - 1, After(p, model, judge, rounds - 1))
  }

  function Round(p: Plan, model: Model, judge: Judge, round: nat, s: State): State {
    if Stopped(p, s.t) then s else ExpandAll(p, model, judge, round, s, Select(p, s.t))
  }

  /******* Termination *******/

  lemma {:induction false} NoAnswersNoChange(p: Plan, model: Model, judge: Judge, round: nat, s: State,
                                             selected: seq<nat>)
    requires forall i | 0 <= i < |selected| :: selected[i] < |s.t|
    requires |s.t| < p.maxNodes
    ensures var r := ExpandAll(p, model, judge, round, s, selected);
            && (r.t == s.t <==> forall n | n in selected :: model(round, s.t, n) == [])
            && (r.t != s.t ==> |r.t| > |s.t|)
  {
    if selected != [] {
      var front, n := selected[..|selected| - 1], selected[|selected| - 1];
      assert selected == front + [n];
      NoAnswersNoChange(p, model, judge, round, s, front);
    }
  }

  predicate AllUnanswered(p: Plan, model: Model, round: nat, t: seq<Thought>) {
    forall x | x in Select(p, t) :: model(round, t, x) == []
  }

  /** A round changes the tree exactly when the search has not stopped and some selected node gets a candidate;
      then the tree is larger. */
  lemma {:induction false} RoundGrowsIff(p: Plan, model: Model, judge: Judge, round: nat, s: State)
    ensures var r := Round(p, model, judge, round, s);
            && (r.t == s.t <==> Stopped(p, s.t) || AllUnanswered(p, model, round, s.t))
            && (r.t != s.t ==> |r.t| > |s.t|)
  {
    if !Stopped(p, s.t) {
      NoAnswersNoChange(p, model, judge, round, s, Select(p, s.t));
    }
  }

  /** A sequence of trees that never shrinks, changes only by growing, and does not change once stopped; while it
      is not stopped it stays below a bound. */
  ghost predicate Search(run: nat -> seq<Thought>, stopped: nat -> bool, bound: int) {
    forall n: nat :: Advances(run, stopped, bound, n)
  }

  ghost predicate Advances(run: nat -> seq<Thought>, stopped: nat -> bool, bound: int, n: nat) {
    && (Still(run, n) || |run(n + 1)| > |run(n)|)
    && (stopped(n) ==> Still(run, n) && stopped(n + 1))
    && (!stopped(n) ==> |run(n)| < bound)
  }

  ghost predicate Still(run: nat -> seq<Thought>, n: nat) {
    run(n + 1) == run(n)
  }

  lemma {:induction false} StaysStopped(run: nat -> seq<Thought>, stopped: nat -> bool, bound: int, n: nat, m: nat)
    requires Search(run, stopped, bound) && stopped(n) && n <= m
    ensures stopped(m)
    decreases m
  {
    if n < m {
      StaysStopped(run, stopped, bound, n, m - 1);
      assert Advances(run, stopped, bound, m - 1);
    }
  }

  lemma {:induction false} NeverSmaller(run: nat -> seq<Thought>, stopped: nat -> bool, bound: int, n: nat, m: nat)
    requires Search(run, stopped, bound) && n <= m
    ensures |run(n)| <= |run(m)|
    decreases m
  {
    if n < m {
      NeverSmaller(run, stopped, bound, n, m - 1);
      assert Advances(run, stopped, bound, m - 1);
    }
  }

  lemma {:induction false} SearchStandsStill(run: nat -> seq<Thought>, stopped: nat -> bool, bound: int, n: nat)
    requires Search(run, stopped, bound) && forall k: nat :: !stopped(k)
    ensures exists s: nat :: StillFrom(run, s)
    decreases bound - |run(n)|
  {
    if m: nat :| m >= n && !Still(run, m) {
      NeverSmaller(run, stopped, bound, n, m);
      assert Advances(run, stopped, bound, m) && Advances(run, stopped, bound, n);
      SearchStandsStill(run, stopped, bound, m + 1);
    } else {
      assert StillFrom(run, n);
    }
  }

  ghost predicate StillFrom(run: nat -> seq<Thought>, n: nat) {
    forall m: nat :: m >= n ==> Still(run, m)
  }

  ghost predicate Always(holds: nat -> bool, n: nat) {
    forall m: nat :: m >= n ==> holds(m)
  }

  lemma {:induction false} StopsOrStalls(run: nat -> seq<Thought>, stopped: nat -> bool, bound: int,
                                         fruitless: nat -> bool)
    requires Search(run, stopped, bound)
    requires forall n: nat :: Still(run, n) <==> stopped(n) || fruitless(n)
    requires forall n: nat :: fruitless(n) ==> !stopped(n)
    ensures (exists n: nat :: stopped(n)) <==> !exists n: nat :: Always(fruitless, n)
  {
    if n: nat :| stopped(n) {
      forall k: nat ensures !Always(fruitless, k) {
        var m := if n < k then k else n;
        StaysStopped(run, stopped, bound, n, m);
        assert !fruitless(m);
      }
    } else {
      SearchStandsStill(run, stopped, bound, 0);
      var n: nat :| StillFrom(run, n);
      forall m: nat | m >= n ensures fruitless(m) {
        assert Still(run, m);
      }
      assert Always(fruitless, n);
    }
  }

  /** The search has not stopped, and every node selected in this round is answered with no candidates. */
  ghost predicate Fruitless(p: Plan, model: Model, judge: Judge, m: nat) {
    !Stopped(p, After(p, model, judge, m).t) && AllUnanswered(p, model, m, After(p, model, judge, m).t)
  }

  ghost function Trees(p: Plan, model: Model, judge: Judge): nat -> seq<Thought> {
    (n: nat) => After(p, model, judge, n).t
  }

  ghost function Stops(p: Plan, model: Model, judge: Judge): nat -> bool {
    (n: nat) => Stopped(p, After(p, model, judge, n).t)
  }

  ghost function Unanswered(p: Plan, model: Model, judge: Judge): nat -> bool {
    (n: nat) => Fruitless(p, model, judge, n)
  }

  lemma {:induction false} NextRound(p: Plan, model: Model, judge: Judge, n: nat)
    ensures var run, stopped, fruitless := Trees(p, model, judge), Stops(p, model, judge), Unanswered(p, model, judge);
            && Advances(run, stopped, p.maxNodes, n)
            && (Still(run, n) <==> stopped(n) || fruitless(n)) && (fruitless(n) ==> !stopped(n))
  {
    RoundGrowsIff(p, model, judge, n, After(p, model, judge, n));
  }

  /** An uncancelled search ends, by running out of nodes to expand or by reaching its node budget, exactly when
      there is no round from which on every expansion comes back without a candidate: a node that got none stays
      open and is selected again. */
  lemma {:induction false} TerminatesIff(p: Plan, model: Model, judge: Judge)
    ensures (exists n: nat :: Stops(p, model, judge)(n)) <==> !exists n: nat :: Always(Unanswered(p, model, judge), n)
  {
    var run, stopped, fruitless := Trees(p, model, judge), Stops(p, model, judge), Unanswered(p, model, judge);
    forall n: nat
      ensures Advances(run, stopped, p.maxNodes, n)
      ensures Still(run, n) <==> stopped(n) || fruitless(n)
      ensures fruitless(n) ==> !stopped(n)
    {
      NextRound(p, model, judge, n);
    }
    StopsOrStalls(run, stopped, p.maxNodes, fruitless);
  }

  lemma {:induction false} GrowsUntilStopped(run: nat -> seq<Thought>, stopped: nat -> bool, bound: int, n: nat)
    requires Search(run, stopped, bound) && run(0) != []
    requires forall k: nat :: Still(run, k) ==> stopped(k)
    ensures stopped(n) || |run(n)| > n
    ensures n >= bound ==> stopped(n)
  {
    assert Advances(run, stopped, bound, n);
    if n > 0 {
      GrowsUntilStopped(run, stopped, bound, n - 1);
      assert Advances(run, stopped, bound, n - 1);
    }
  }

  /** When no round is fruitless the search ends within as many rounds as the budget has nodes. */
  lemma {:induction false} FruitfulRoundsEnd(p: Plan, model: Model, judge: Judge, n: nat)
    requires forall k: nat :: !Unanswered(p, model, judge)(k)
    ensures n >= p.maxNodes ==> Stops(p, model, judge)(n)
  {
    var run, stopped := Trees(p, model, judge), Stops(p, model, judge);
    forall k: nat ensures Advances(run, stopped, p.maxNodes, k) && (Still(run, k) ==> stopped(k)) {
      NextRound(p, model, judge, k);
    }
    assert run(0) == [Root];
    GrowsUntilStopped(run, stopped, p.maxNodes, n);
  }

  /** The search comes to an end. */
  ghost predicate Terminates(p: Plan, model: Model, judge: Judge) {
    exists n: nat :: Stops(p, model, judge)(n)
  }

  /** A model that has a candidate for every node, in every tree and round. */
  ghost predicate AlwaysAnswers(model: Model) {
    forall round: nat, t: seq<Thought>, n: nat :: model(round, t, n) != []
  }

  /** With a model that always has a candidate, the search ends within as many rounds as the budget has nodes. */
  lemma {:induction false} AnsweringModelsEnd(p: Plan, model: Model, judge: Judge, n: nat)
    requires AlwaysAnswers(model) && n >= p.maxNodes
    ensures Stops(p, model, judge)(n)
  {
    forall k: nat ensures !Unanswered(p, model, judge)(k) {
      var t := After(p, model, judge, k).t;
      if Select(p, t) != [] {
        assert Select(p, t)[0] in Select(p, t);
        assert model(k, t, Select(p, t)[0]) != [];
      }
    }
    FruitfulRoundsEnd(p, model, judge, n);
  }

  /** The model that never has a candidate. */
  function Silent(): Model {
    (round: nat, t: seq<Thought>, n: nat) => []
  }

  /** With a budget for more than the root and a positive depth limit, the silent model keeps the search going for
      ever: the root is selected again in every round. */
  lemma {:induction false} SilenceNeverEnds(p: Plan, judge: Judge, n: nat)
    requires p.maxNodes > 1 && p.maxDepth > 0
    ensures After(p, Silent(), judge, n).t == [Root] && !Stops(p, Silent(), judge)(n)
  {
    SelectIsRight(p, [Root]);
    assert Open(p, [Root][0]);
    if n > 0 {
      SilenceNeverEnds(p, judge, n - 1);
      RoundGrowsIff(p, Silent(), judge, n - 1, After(p, Silent(), judge, n - 1));
    }
  }

  /** The search ends for every model and every judge if and only if the root alone uses up the budget or the depth
      limit lets nothing be expanded. */
  lemma {:induction false} EverySearchEndsIff(p: Plan)
    ensures (forall model: Model, judge: Judge :: Terminates(p, model, judge)) <==> p.maxNodes <= 1 || p.maxDepth <= 0
  {
    if p.maxNodes <= 1 || p.maxDepth <= 0 {
      forall model: Model, judge: Judge ensures Terminates(p, model, judge) {
        SelectIsRight(p, [Root]);
        assert Stops(p, model, judge)(0);
      }
    } else {
      var judge: Judge := (round: nat, t: seq<Thought>, n: nat) => Verdict(0.0, false);
      forall n: nat ensures !Stops(p, Silent(), judge)(n) {
        SilenceNeverEnds(p, judge, n);
      }
      assert !Terminates(p, Silent(), judge);
    }
  }

  /** A model that answers alike in every round. */
  ghost predicate Steady(model: Model) {
    forall r: nat, r': nat, t: seq<Thought>, n: nat :: model(r, t, n) == model(r', t, n)
  }

  lemma {:induction false} SilentAgain(p: Plan, model: Model, r: nat, r': nat, t: seq<Thought>)
    requires Steady(model) && AllUnanswered(p, model, r, t)
    ensures AllUnanswered(p, model, r', t)
  {
  }

  lemma {:induction false} FruitlessAgain(p: Plan, model: Model, judge: Judge, n: nat)
    requires Steady(model) && Fruitless(p, model, judge, n)
    ensures Fruitless(p, model, judge, n + 1)
  {
    RoundGrowsIff(p, model, judge, n, After(p, model, judge, n));
    SilentAgain(p, model, n, n + 1, After(p, model, judge, n).t);
  }

  ghost predicate Lasts(holds: nat -> bool, n: nat) {
    holds(n) ==> holds(n + 1)
  }

  lemma {:induction false} LastsForever(holds: nat -> bool, n: nat, m: nat)
    requires holds(n) && n <= m && forall k: nat :: Lasts(holds, k)
    ensures holds(m)
    decreases m
  {
    if n < m {
      LastsForever(holds, n, m - 1);
      assert Lasts(holds, m - 1);
    }
  }

  /** For a model that answers alike in every round it is settled after as many rounds as the budget has nodes
      whether the search ends: it does if and only if it has ended by then. */
  lemma {:induction false} SteadyEndsIff(p: Plan, model: Model, judge: Judge, n: nat)
    requires Steady(model) && n >= p.maxNodes
    ensures Terminates(p, model, judge) <==> Stops(p, model, judge)(n)
  {
    if Terminates(p, model, judge) {
      var fruitless := Unanswered(p, model, judge);
      TerminatesIff(p, model, judge);
      forall k: nat ensures Lasts(fruitless, k) {
        if fruitless(k) {
          FruitlessAgain(p, model, judge, k);
        }
      }
      forall k: nat ensures !fruitless(k) {
        if fruitless(k) {
          forall m: nat | m >= k ensures fruitless(m) {
            LastsForever(fruitless, k, m);
          }
          assert Always(fruitless, k);
        }
      }
      FruitfulRoundsEnd(p, model, judge, n);
    }
  }

  /******* What is expanded *******/

  /** Every node's parent is earlier and one level up; only nodes that are live, not finished and above the depth
      limit have children; nodes below the least depth are not finished. */
  ghost predicate Grown(p: Plan, t: seq<Thought>) {
    t != [] && t[0].depth == 0 && forall i | 0 <= i < |t| :: Placed(p, t, i)
  }

  ghost predicate Placed(p: Plan, t: seq<Thought>, i: nat)
    requires i < |t|
  {
    && (i > 0 ==> t[i].parent.Some? && t[i].parent.value < i && t[i].depth == t[t[i].parent.value].depth + 1)
    && (t[i].children != [] ==> !t[i].pruned && !t[i].terminal && t[i].depth < p.maxDepth)
    && (t[i].terminal ==> t[i].depth >= p.minDepth)
  }

  /** `t` is `t0` with children below `n`, not yet scored. */
  ghost predicate Extends(p: Plan, t0: seq<Thought>, t: seq<Thought>, n: nat) {
    && n < |t0| <= |t|
    && (forall i | 0 <= i < |t0| :: t[i] == t0[i].(children := t[i].children) && (i != n ==> t[i] == t0[i]))
    && (forall i | |t0| <= i < |t| :: NewBelow(p, t0, t[i], n))
  }

  ghost predicate NewBelow(p: Plan, t0: seq<Thought>, c: Thought, n: nat)
    requires n < |t0|
  {
    c.parent == Some(n) && c.depth == t0[n].depth + 1 && c.children == [] && (c.terminal ==> c.depth >= p.minDepth)
  }

  lemma {:induction false} GenerateExtends(p: Plan, t: seq<Thought>, n: nat, flags: seq<bool>)
    requires n < |t|
    ensures Extends(p, t, Generate(p, t, n, flags), n)
  {
    if flags != [] {
      GenerateExtends(p, t, n, flags[..|flags| - 1]);
    }
  }

  lemma {:induction false} EvaluateExtends(p: Plan, t0: seq<Thought>, judge: Judge, round: nat, t: seq<Thought>,
                                           n: nat, upTo: nat)
    requires Extends(p, t0, t, n) && |t0| <= upTo <= |t|
    ensures Extends(p, t0, Evaluate(judge, round, t, |t0|, upTo), n)
    decreases upTo
  {
    if upTo > |t0| {
      EvaluateExtends(p, t0, judge, round, t, n, upTo - 1);
    }
  }

  lemma {:induction false} ExpandExtends(p: Plan, model: Model, judge: Judge, round: nat, t: seq<Thought>, n: nat)
    requires n < |t|
    ensures Extends(p, t, Expand(p, model, judge, round, t, n), n)
  {
    var grown := Generate(p, t, n, model(round, t, n));
    GenerateExtends(p, t, n, model(round, t, n));
    EvaluateExtends(p, t, judge, round, grown, n, |grown|);
  }

  lemma {:induction false} ExtensionIsGrown(p: Plan, t0: seq<Thought>, t: seq<Thought>, n: nat)
    requires Grown(p, t0) && Extends(p, t0, t, n) && Open(p, t0[n])
    ensures Grown(p, t)
  {
    forall i | 0 <= i < |t| ensures Placed(p, t, i) {
      if i < |t0| {
        assert Placed(p, t0, i);
      } else {
        assert NewBelow(p, t0, t[i], n);
      }
    }
  }

  /** No open node lies above the given depth. */
  ghost predicate OpenFrom(p: Plan, t: seq<Thought>, d: int) {
    forall i | 0 <= i < |t| && Open(p, t[i]) :: t[i].depth >= d
  }

  /** The expanded nodes were live, unfinished and within the depth limit, and so they still are. */
  ghost predicate ExpandedAlive(p: Plan, s: State) {
    forall i | 0 <= i < |s.expanded| :: s.expanded[i] < |s.t| && Alive(p, s.t[s.expanded[i]])
  }

  predicate Alive(p: Plan, n: Thought) {
    !n.pruned && !n.terminal && n.depth < p.maxDepth
  }

  /** Under breadth-first selection the expanded nodes come in order of depth, and nothing open lies above the last. */
  ghost predicate ByDepth(p: Plan, s: State) {
    && (forall i | 0 <= i < |s.expanded| :: s.expanded[i] < |s.t|)
    && (forall i, j | 0 <= i < j < |s.expanded| :: s.t[s.expanded[i]].depth <= s.t[s.expanded[j]].depth)
    && (s.expanded != [] ==> OpenFrom(p, s.t, s.t[s.expanded[|s.expanded| - 1]].depth))
  }

  lemma {:induction false} ExtensionKeepsAlive(p: Plan, s: State, t: seq<Thought>, n: nat)
    requires ExpandedAlive(p, s) && Extends(p, s.t, t, n) && Alive(p, s.t[n])
    ensures ExpandedAlive(p, State(t, s.expanded + [n]))
  {
  }

  lemma {:induction false} ExtensionKeepsOrder(p: Plan, s: State, t: seq<Thought>, n: nat)
    requires ByDepth(p, s) && Extends(p, s.t, t, n) && OpenFrom(p, s.t, s.t[n].depth)
    requires s.expanded != [] ==> s.t[s.expanded[|s.expanded| - 1]].depth <= s.t[n].depth
    ensures ByDepth(p, State(t, s.expanded + [n])) && OpenFrom(p, t, s.t[n].depth)
  {
    forall i | 0 <= i < |t| && Open(p, t[i]) ensures t[i].depth >= s.t[n].depth {
      if i < |s.t| {
        if i != n {
          assert t[i] == s.t[i];
        }
      } else {
        assert NewBelow(p, s.t, t[i], n);
      }
    }
  }

  predicate Ascending(s: seq<nat>) {
    forall i, j | 0 <= i < j < |s| :: s[i] < s[j]
  }

  lemma {:induction false} ExpandableAscends(p: Plan, t: seq<Thought>)
    ensures Ascending(Expandable(p, t))
  {
    if t != [] {
      ExpandableAscends(p, t[..|t| - 1]);
    }
  }

  lemma {:induction false} AtDepthAscends(t: seq<Thought>, among: seq<nat>, d: nat)
    requires Ascending(among) && forall i | 0 <= i < |among| :: among[i] < |t|
    ensures Ascending(AtDepth(t, among, d))
  {
    if among != [] {
      var front, last := among[..|among| - 1], among[|among| - 1];
      AtDepthAscends(t, front, d);
      forall i | 0 <= i < |AtDepth(t, front, d)| ensures AtDepth(t, front, d)[i] < last {
        assert AtDepth(t, front, d)[i] in front;
      }
    }
  }

  lemma {:induction false} SelectAscends(p: Plan, t: seq<Thought>)
    ensures Ascending(Select(p, t))
  {
    ExpandableAscends(p, t);
    var open := Expandable(p, t);
    if open != [] && p.strategy == BFS {
      AtDepthAscends(t, open, LeastDepth(t, open));
    }
  }

  /** What expanding a selection one node after the other keeps: the nodes not yet reached stay as they were. */
  ghost predicate Untouched(s: State, r: State, selected: seq<nat>) {
    && |s.t| <= |r.t|
    && forall i | 0 <= i < |s.t| :: r.t[i].depth == s.t[i].depth && (i !in selected ==> r.t[i] == s.t[i])
  }

  lemma {:induction false} ExpandAllKeeps(p: Plan, model: Model, judge: Judge, round: nat, s: State, selected: seq<nat>)
    requires Grown(p, s.t) && ExpandedAlive(p, s) && Ascending(selected)
    requires forall i | 0 <= i < |selected| :: selected[i] < |s.t| && Open(p, s.t[selected[i]])
    ensures var r := ExpandAll(p, model, judge, round, s, selected);
            Grown(p, r.t) && ExpandedAlive(p, r) && Untouched(s, r, selected)
  {
    if selected != [] {
      var front, n := selected[..|selected| - 1], selected[|selected| - 1];
      assert selected == front + [n];
      ExpandAllKeeps(p, model, judge, round, s, front);
      var so := ExpandAll(p, model, judge, round, s, front);
      assert n !in front;
      if |so.t| < p.maxNodes {
        ExpandExtends(p, model, judge, round, so.t, n);
        var t := Expand(p, model, judge, round, so.t, n);
        ExtensionIsGrown(p, so.t, t, n);
        ExtensionKeepsAlive(p, so, t, n);
      }
    }
  }

  lemma {:induction false} ExpandAllKeepsOrder(p: Plan, model: Model, judge: Judge, round: nat, s: State,
                                               selected: seq<nat>, d: nat)
    requires UpToDepth(p, s, d)
    requires forall i | 0 <= i < |selected| :: selected[i] < |s.t| && s.t[selected[i]].depth == d
    ensures var r := ExpandAll(p, model, judge, round, s, selected); UpToDepth(p, r, d) && SameDepths(s.t, r.t)
  {
    if selected != [] {
      var front, n := selected[..|selected| - 1], selected[|selected| - 1];
      ExpandAllKeepsOrder(p, model, judge, round, s, front, d);
      var so := ExpandAll(p, model, judge, round, s, front);
      if |so.t| < p.maxNodes {
        assert so.t[n].depth == d;
        ExpandExtends(p, model, judge, round, so.t, n);
        OneMoreAtDepth(p, so, Expand(p, model, judge, round, so.t, n), n, d);
      }
    }
  }

  /** Breadth first so far, with nothing expanded below depth `d` and nothing open above it. */
  ghost predicate UpToDepth(p: Plan, s: State, d: nat) {
    ByDepth(p, s) && OpenFrom(p, s.t, d) && (s.expanded != [] ==> s.t[s.expanded[|s.expanded| - 1]].depth <= d)
  }

  predicate SameDepths(t0: seq<Thought>, t: seq<Thought>) {
    |t0| <= |t| && forall i | 0 <= i < |t0| :: t[i].depth == t0[i].depth
  }

  lemma {:induction false} OneMoreAtDepth(p: Plan, s: State, t: seq<Thought>, n: nat, d: nat)
    requires UpToDepth(p, s, d) && Extends(p, s.t, t, n) && s.t[n].depth == d
    ensures UpToDepth(p, State(t, s.expanded + [n]), d) && SameDepths(s.t, t)
  {
    ExtensionKeepsOrder(p, s, t, n);
  }

  ghost predicate Sane(p: Plan, s: State) {
    Grown(p, s.t) && ExpandedAlive(p, s) && (p.strategy == BFS ==> ByDepth(p, s))
  }

  /** In every search: the tree is well formed, only live and unfinished nodes are ever expanded (a rejected node
      never is), and under breadth-first selection nodes are expanded in order of depth. */
  lemma {:induction false} EverySearch(p: Plan, model: Model, judge: Judge, n: nat)
    ensures Sane(p, After(p, model, judge, n))
  {
    if n == 0 {
      RootIsSane(p);
    } else {
      EverySearch(p, model, judge, n - 1);
      NextIsSane(p, model, judge, n - 1);
    }
  }

  lemma {:induction false} NextIsSane(p: Plan, model: Model, judge: Judge, n: nat)
    requires Sane(p, After(p, model, judge, n))
    ensures Sane(p, After(p, model, judge, n + 1))
  {
    var s := After(p, model, judge, n);
    RoundKeeps(p, model, judge, n, s);
    assert After(p, model, judge, n + 1) == Round(p, model, judge, n, s);
  }

  lemma {:induction false} RootIsSane(p: Plan)
    ensures Sane(p, State([Root], []))
  {
    assert Placed(p, [Root], 0);
  }

  lemma {:induction false} RoundKeeps(p: Plan, model: Model, judge: Judge, round: nat, s: State)
    requires Sane(p, s)
    ensures Sane(p, Round(p, model, judge, round, s))
  {
    if !Stopped(p, s.t) {
      var selected := Select(p, s.t);
      SelectIsRight(p, s.t);
      SelectAscends(p, s.t);
      forall i | 0 <= i < |selected| ensures selected[i] < |s.t| && Open(p, s.t[selected[i]]) {
        assert selected[i] in selected;
      }
      ExpandAllKeeps(p, model, judge, round, s, selected);
      if p.strategy == BFS {
        var d := LeastDepth(s.t, Expandable(p, s.t));
        BreadthFirstOrder(p, model, judge, round, s, selected, d);
      }
    }
  }

  lemma {:induction false} BreadthFirstOrder(p: Plan, model: Model, judge: Judge, round: nat, s: State,
                                             selected: seq<nat>, d: nat)
    requires p.strategy == BFS && ByDepth(p, s) && selected == Select(p, s.t) && selected != []
    requires Expandable(p, s.t) != [] && d == LeastDepth(s.t, Expandable(p, s.t))
    ensures ByDepth(p, ExpandAll(p, model, judge, round, s, selected))
  {
    SelectIsRight(p, s.t);
    var first := selected[0];
    assert first in selected && s.t[first].depth == d && Open(p, s.t[first]);
    forall i | 0 <= i < |s.t| && Open(p, s.t[i]) ensures s.t[i].depth >= d {
      assert first in Select(p, s.t);
    }
    ExpandAllKeepsOrder(p, model, judge, round, s, selected, d);
  }

  /******* Selection and expansion, told by what they do *******/

  /** Of the candidates that nothing is preferred to, the first is taken. */
  lemma {:induction false} FirstIsFirst(p: Plan, t: seq<Thought>, among: seq<nat>, m: nat)
    requires among != [] && Ascending(among) && (forall i | 0 <= i < |among| :: among[i] < |t|) && m in among
    requires !Prefers(p, t[First(p, t, among)], t[m])
    ensures First(p, t, among) <= m
  {
    if |among| > 1 {
      var front, last := among[..|among| - 1], among[|among| - 1];
      assert among == front + [last];
      if m in front {
        FirstIsBest(p, t, front, m);
        if First(p, t, among) == First(p, t, front) {
          FirstIsFirst(p, t, front, m);
        }
      }
    }
  }

  /** A node that may be expanded: not rejected, not finished, above the depth limit and without children. */
  predicate MayGrow(p: Plan, n: Thought) {
    !(n.pruned || n.terminal || n.depth >= p.maxDepth || n.children != [])
  }

  /** Selection by strategy: breadth-first takes all the shallowest nodes that may grow; depth-first the first of the
      deepest; best-first the first of the highest scored, where a node without a score comes after all that have one. */
  lemma {:induction false} SelectFollows(p: Plan, t: seq<Thought>)
    ensures Select(p, t) == [] <==> forall n | 0 <= n < |t| :: !MayGrow(p, t[n])
    ensures forall n | n in Select(p, t) :: n < |t| && MayGrow(p, t[n])
    ensures p.strategy == BFS ==> forall n, m | n in Select(p, t) && 0 <= m < |t| && MayGrow(p, t[m]) ::
              t[n].depth <= t[m].depth && (t[m].depth == t[n].depth <==> m in Select(p, t))
    ensures p.strategy != BFS ==> |Select(p, t)| <= 1
    ensures p.strategy == DFS ==> forall n, m | n in Select(p, t) && 0 <= m < |t| && MayGrow(p, t[m]) ::
              t[m].depth <= t[n].depth && (t[m].depth == t[n].depth ==> n <= m)
    ensures p.strategy == BestFirst ==> forall n, m | n in Select(p, t) && 0 <= m < |t| && MayGrow(p, t[m]) ::
              && (t[m].score.Some? ==> t[n].score.Some? && t[m].score.value <= t[n].score.value)
              && (t[m].score == t[n].score ==> n <= m)
  {
    SelectIsRight(p, t);
    if p.strategy != BFS && Select(p, t) != [] {
      var open := Expandable(p, t);
      ExpandableAscends(p, t);
      forall m: nat | m < |t| && MayGrow(p, t[m]) && !Prefers(p, t[First(p, t, open)], t[m])
        ensures First(p, t, open) <= m
      {
        ExpandableIsOpen(p, t, m);
        FirstIsFirst(p, t, open, m);
      }
    }
  }

  /** A new child: below its parent, finished if its candidate claims to be and is deep enough. */
  ghost predicate BornBelow(p: Plan, c: Thought, n: nat, depth: nat, complete: bool) {
    && c.parent == Some(n) && c.depth == depth && c.children == []
    && (c.terminal <==> complete && depth >= p.minDepth)
  }

  /** A child has the score and the rejection the judge gave it when the ones before it had been judged. */
  ghost predicate JudgedAt(judge: Judge, round: nat, t: seq<Thought>, i: nat)
    requires i < |t|
  {
    exists u: seq<Thought> ::
      && |u| == |t| && u[..i] == t[..i] && (forall m | i <= m < |u| :: u[m] == t[m].(score := None, pruned := false))
      && t[i].score == Some(judge(round, u, i).score) && t[i].pruned == judge(round, u, i).reject
  }

  /** The tree after the expansion of `n`: one child more for each candidate, in order, each judged in turn. */
  ghost predicate Explored(p: Plan, model: Model, judge: Judge, round: nat, t: seq<Thought>, t': seq<Thought>, n: nat)
    requires n < |t|
  {
    var flags := model(round, t, n);
    && |t'| == |t| + |flags|
    && (forall i | 0 <= i < |t| && i != n :: t'[i] == t[i])
    && t'[n] == t[n].(children := t'[n].children) && t'[n].children == t[n].children + Upwards(|t|, |flags|)
    && (forall j | 0 <= j < |flags| :: BornBelow(p, t'[|t| + j], n, t[n].depth + 1, flags[j]))
    && forall i: nat | |t| <= i < |t'| :: JudgedAt(judge, round, t', i)
  }

  function Upwards(from: nat, n: nat): (r: seq<nat>)
    ensures |r| == n && forall i | 0 <= i < n :: r[i] == from + i
  {
    seq(n, i requires 0 <= i < n => from + i)
  }

  /** The nodes that generation adds, not yet judged. */
  ghost predicate Generated(p: Plan, t: seq<Thought>, g: seq<Thought>, n: nat, flags: seq<bool>)
    requires n < |t|
  {
    && |g| == |t| + |flags|
    && (forall i | 0 <= i < |t| && i != n :: g[i] == t[i])
    && g[n] == t[n].(children := t[n].children + Upwards(|t|, |flags|))
    && forall j | 0 <= j < |flags| :: g[|t| + j] == Child(p, n, t[n].depth + 1, flags[j])
  }

  lemma {:induction false} GenerateIs(p: Plan, t: seq<Thought>, n: nat, flags: seq<bool>)
    requires n < |t|
    ensures Generated(p, t, Generate(p, t, n, flags), n, flags)
  {
    var g := Generate(p, t, n, flags);
    if flags != [] {
      var front := flags[..|flags| - 1];
      GenerateIs(p, t, n, front);
      assert Upwards(|t|, |flags|) == Upwards(|t|, |front|) + [|t| + |front|];
      assert g[n].children == t[n].children + Upwards(|t|, |front|) + [|t| + |front|];
    } else {
      assert t[n].children + Upwards(|t|, 0) == t[n].children;
    }
  }

  lemma {:induction false} EvaluateIs(judge: Judge, round: nat, t: seq<Thought>, first: nat, upTo: nat, i: nat)
    requires first <= i <= upTo <= |t|
    ensures var r := Evaluate(judge, round, t, first, upTo);
            && r[..i] == Evaluate(judge, round, t, first, i)[..i]
            && (forall m | 0 <= m < |t| && !(first <= m < upTo) :: r[m] == t[m])
            && (i < upTo ==> r[i] == Rate(t[i], judge(round, Evaluate(judge, round, t, first, i), i)))
    decreases upTo
  {
    if i < upTo {
      EvaluateIs(judge, round, t, first, upTo - 1, i);
    } else if first < upTo {
      EvaluateIs(judge, round, t, first, upTo - 1, upTo - 1);
    }
  }

  lemma {:induction false} EvaluateKeepsPlace(judge: Judge, round: nat, t: seq<Thought>, first: nat, upTo: nat)
    requires first <= upTo <= |t|
    ensures forall m | 0 <= m < |t| ::
              Evaluate(judge, round, t, first, upTo)[m] ==
                t[m].(score := Evaluate(judge, round, t, first, upTo)[m].score,
                      pruned := Evaluate(judge, round, t, first, upTo)[m].pruned)
    decreases upTo
  {
    if first < upTo {
      EvaluateKeepsPlace(judge, round, t, first, upTo - 1);
    }
  }

  lemma {:induction false} ChildIsJudged(judge: Judge, round: nat, g: seq<Thought>, first: nat, i: nat)
    requires first <= i < |g| && forall m | first <= m < |g| :: g[m].score == None && !g[m].pruned
    ensures JudgedAt(judge, round, Evaluate(judge, round, g, first, |g|), i)
  {
    var r, u := Evaluate(judge, round, g, first, |g|), Evaluate(judge, round, g, first, i);
    EvaluateIs(judge, round, g, first, |g|, i);
    EvaluateIs(judge, round, g, first, i, i);
    EvaluateKeepsPlace(judge, round, g, first, |g|);
    forall m | i <= m < |u| ensures u[m] == r[m].(score := None, pruned := false) {
      assert u[m] == g[m];
    }
  }

  /** Expanding a node does exactly that. */
  lemma {:induction false} ExpandIsExplored(p: Plan, model: Model, judge: Judge, round: nat, t: seq<Thought>, n: nat)
    requires n < |t|
    ensures Explored(p, model, judge, round, t, Expand(p, model, judge, round, t, n), n)
  {
    var flags := model(round, t, n);
    var g := Generate(p, t, n, flags);
    var t' := Expand(p, model, judge, round, t, n);
    GenerateIs(p, t, n, flags);
    EvaluateKeepsPlace(judge, round, g, |t|, |g|);
    EvaluateIs(judge, round, g, |t|, |g|, |t|);
    forall m | |t| <= m < |g| ensures g[m].score == None && !g[m].pruned {
      assert g[|t| + (m - |t|)] == Child(p, n, t[n].depth + 1, flags[m - |t|]);
    }
    forall i: nat | |t| <= i < |t'| ensures JudgedAt(judge, round, t', i) {
      ChildIsJudged(judge, round, g, |t|, i);
    }
    forall j | 0 <= j < |flags| ensures BornBelow(p, t'[|t| + j], n, t[n].depth + 1, flags[j]) {
      assert g[|t| + j] == Child(p, n, t[n].depth + 1, flags[j]);
    }
  }

  /** The trees a round goes through: the selected nodes are expanded in order until there are none left or the budget is
      used up. */
  ghost predicate Passed(p: Plan, model: Model, judge: Judge, round: nat, trees: seq<seq<Thought>>,
                         selected: seq<nat>) {
    && 0 < |trees| <= |selected| + 1
    && (forall i | 0 <= i < |trees| - 1 :: PassedAt(p, model, judge, round, trees, selected, i))
    && (|trees| <= |selected| ==> |trees[|trees| - 1]| >= p.maxNodes)
  }

  ghost predicate PassedAt(p: Plan, model: Model, judge: Judge, round: nat, trees: seq<seq<Thought>>,
                           selected: seq<nat>,
                           i: nat)
    requires i + 1 < |trees| && i < |selected|
  {
    && |trees[i]| < p.maxNodes && selected[i] < |trees[i]|
    && Explored(p, model, judge, round, trees[i], trees[i + 1], selected[i])
  }

  lemma {:induction false} PassesAll(p: Plan, model: Model, judge: Judge, round: nat, s: State, selected: seq<nat>)
      returns (trees: seq<seq<Thought>>)
    requires forall i | 0 <= i < |selected| :: selected[i] < |s.t|
    ensures Passed(p, model, judge, round, trees, selected) && trees[0] == s.t
    ensures var r := ExpandAll(p, model, judge, round, s, selected);
            r.t == trees[|trees| - 1] && r.expanded == s.expanded + selected[..|trees| - 1]
  {
    trees := [s.t];
    if selected != [] {
      var front, n := selected[..|selected| - 1], selected[|selected| - 1];
      trees := PassesAll(p, model, judge, round, s, front);
      var so := ExpandAll(p, model, judge, round, s, front);
      var before := trees;
      if |so.t| < p.maxNodes {
        ExpandIsExplored(p, model, judge, round, so.t, n);
        trees := trees + [Expand(p, model, judge, round, so.t, n)];
        assert front[..|before| - 1] == front && selected[..|selected|] == front + [n];
      } else {
        assert front[..|before| - 1] == selected[..|before| - 1];
      }
      forall i | 0 <= i < |trees| - 1 ensures PassedAt(p, model, judge, round, trees, selected, i) {
        if i < |before| - 1 {
          assert PassedAt(p, model, judge, round, before, front, i);
        }
      }
    }
  }

  /** A round of a search that has not stopped passes over what the strategy selects. */
  lemma {:induction false} RoundPasses(p: Plan, model: Model, judge: Judge, round: nat)
    returns (trees: seq<seq<Thought>>)
    requires !Stopped(p, After(p, model, judge, round).t)
    ensures var s, r := After(p, model, judge, round), After(p, model, judge, round + 1);
            && Passed(p, model, judge, round, trees, Select(p, s.t)) && trees[0] == s.t && r.t == trees[|trees| - 1]
            && r.expanded == s.expanded + Select(p, s.t)[..|trees| - 1]
  {
    var s := After(p, model, judge, round);
    NextExpands(p, model, judge, round, s);
    trees := PassesAll(p, model, judge, round, s, Select(p, s.t));
  }

  /******* The agent *******/

  /** The children of this round that are finished and were not rejected. */
  function Accepting(t: seq<Thought>, first: nat, upTo: nat): seq<nat>
    requires first <= upTo <= |t|
    decreases upTo
  {
    if first == upTo then [] else
    Accepting(t, first, upTo - 1) + if t[upTo - 1].terminal && !t[upTo - 1].pruned then [upTo - 1] else []
  }

  lemma {:induction false} AcceptingStays(t: seq<Thought>, u: seq<Thought>, first: nat, upTo: nat)
    requires first <= upTo <= |t| && |u| == |t| && forall i | first <= i < upTo :: u[i] == t[i]
    ensures Accepting(u, first, upTo) == Accepting(t, first, upTo)
    decreases upTo
  {
    if first < upTo {
      AcceptingStays(t, u, first, upTo - 1);
    }
  }

  lemma {:induction false} AcceptingNext(t: seq<Thought>, first: nat, i: nat, x: Thought)
    requires first <= i < |t|
    ensures Accepting(t[i := x], first, i + 1) == Accepting(t, first, i) + if x.terminal && !x.pruned then [i] else []
  {
    AcceptingStays(t, t[i := x], first, i);
  }

  lemma {:induction false} AcceptingIsRight(t: seq<Thought>, first: nat, upTo: nat, n: nat)
    requires first <= upTo <= |t|
    ensures n in Accepting(t, first, upTo) <==> first <= n < upTo && t[n].terminal && !t[n].pruned
    decreases upTo
  {
    if first < upTo {
      AcceptingIsRight(t, first, upTo - 1, n);
    }
  }

  datatype Reason = Cancelled | NoExpandableNodes | MaxNodes

  class TreeOfThoughtAgent {
    const p: Plan
    var nodes: seq<Thought>
    var accepted: seq<nat>
    ghost var expanded: seq<nat>

    constructor (p: Plan)
      requires p.minDepth <= p.maxDepth
      ensures this.p == p
    {
      this.p, nodes, accepted, expanded := p, [], [], [];
    }

    /** Asks for candidates and appends them one by one. */
    method GenerateCandidates(n: nat, flags: seq<bool>)
      requires n < |nodes|
      modifies this`nodes
      ensures nodes == Generate(p, old(nodes), n, flags)
    {
      var t := nodes;
      for i := 0 to |flags|
        invariant t == Generate(p, nodes, n, flags[..i])
        modifies {}
      {
        assert flags[..i + 1][..i] == flags[..i];
        t := AddThought(t, n, Child(p, n, nodes[n].depth + 1, flags[i]));
      }
      assert flags[..|flags|] == flags;
      nodes := t;
    }

    /** Scores the new nodes one by one and notes the finished ones that were not rejected. */
    method EvaluateCandidates(judge: Judge, round: nat, first: nat)
      requires first <= |nodes|
      modifies this`nodes, this`accepted
      ensures nodes == Evaluate(judge, round, old(nodes), first, |old(nodes)|)
      ensures accepted == old(accepted) + Accepting(nodes, first, |nodes|)
    {
      var t, acc := nodes, accepted;
      for i := first to |nodes|
        invariant |t| == |nodes| && t == Evaluate(judge, round, nodes, first, i)
        invariant acc == accepted + Accepting(t, first, i)
        modifies {}
      {
        var rated := Rate(t[i], judge(round, t, i));
        AcceptingNext(t, first, i, rated);
        t := t[i := rated];
        if rated.terminal && !rated.pruned {
          acc := acc + [i];
        }
      }
      nodes, accepted := t, acc;
    }

    /** The accepted nodes are the finished ones that were not rejected. */
    ghost predicate AcceptedExactly()
      reads this
    {
      forall a: nat :: a in accepted <==> a < |nodes| && nodes[a].terminal && !nodes[a].pruned
    }

    /** One pass over the selected nodes. */
    method ExpandSelected(model: Model, judge: Judge, round: nat, selected: seq<nat>)
      requires forall i | 0 <= i < |selected| :: selected[i] < |nodes|
      requires AcceptedExactly()
      modifies this
      ensures State(nodes, expanded) == ExpandAll(p, model, judge, round, State(old(nodes), old(expanded)), selected)
      ensures AcceptedExactly()
    {
      ghost var so := State(nodes, expanded);
      for i := 0 to |selected|
        invariant |nodes| >= |so.t| && State(nodes, expanded) == ExpandAll(p, model, judge, round, so, selected[..i])
        invariant AcceptedExactly()
      {
        assert selected[..i + 1][..i] == selected[..i];
        if |nodes| >= p.maxNodes {
          BudgetSpent(p, model, judge, round, so, selected, i);
          return;
        }
        ExpandNode(model, judge, round, selected[i]);
      }
      assert selected[..|selected|] == selected;
    }

    method ExpandNode(model: Model, judge: Judge, round: nat, n: nat)
      requires n < |nodes| && AcceptedExactly()
      modifies this
      ensures nodes == Expand(p, model, judge, round, old(nodes), n) && expanded == old(expanded) + [n]
      ensures AcceptedExactly()
    {
      var first := |nodes|;
      ghost var t := nodes;
      ExpandExtends(p, model, judge, round, nodes, n);
      GenerateCandidates(n, model(round, nodes, n));
      EvaluateCandidates(judge, round, first);
      forall a: nat ensures a in accepted <==> a < |nodes| && nodes[a].terminal && !nodes[a].pruned {
        AcceptingIsRight(nodes, first, |nodes|, a);
      }
      expanded := expanded + [n];
    }

    /** The search, until it stops or is cancelled, which is seen before round `cancelAt`. */
    method Execute(model: Model, judge: Judge, cancelAt: nat) returns (reason: Reason, rounds: nat)
      modifies this
      ensures State(nodes, expanded) == After(p, model, judge, rounds) && Sane(p, State(nodes, expanded))
      ensures AcceptedExactly() && forall a | a in accepted :: nodes[a].depth >= p.minDepth
      ensures Ends(p, nodes, rounds, cancelAt, reason) && Unstopped(p, model, judge, rounds)
    {
      reason, rounds := Search(model, judge, cancelAt);
      EverySearch(p, model, judge, rounds);
      forall a | a in accepted ensures nodes[a].depth >= p.minDepth {
        assert Placed(p, nodes, a);
      }
    }

    /** The loop. */
    method Search(model: Model, judge: Judge, cancelAt: nat) returns (reason: Reason, rounds: nat)
      modifies this
      ensures State(nodes, expanded) == After(p, model, judge, rounds) && AcceptedExactly()
      ensures Ends(p, nodes, rounds, cancelAt, reason) && Unstopped(p, model, judge, rounds)
    {
      nodes, accepted, expanded := [Root], [], [];
      rounds, reason := 0, Cancelled;
      var more := true;
      while more
        invariant State(nodes, expanded) == After(p, model, judge, rounds) && AcceptedExactly()
        invariant rounds <= cancelAt && Unstopped(p, model, judge, rounds)
        invariant more || Ends(p, nodes, rounds, cancelAt, reason)
        decreases more, cancelAt - rounds
      {
        more, reason := OneRound(model, judge, rounds, cancelAt);
        if more {
          rounds := rounds + 1;
        }
      }
    }

    /** One pass of the loop: the checks in their order, then the expansion of what is selected. */
    method OneRound(model: Model, judge: Judge, rounds: nat, cancelAt: nat) returns (more: bool, reason: Reason)
      requires State(nodes, expanded) == After(p, model, judge, rounds) && AcceptedExactly()
      requires rounds <= cancelAt && Unstopped(p, model, judge, rounds)
      modifies this
      ensures AcceptedExactly()
      ensures more ==> rounds < cancelAt && State(nodes, expanded) == After(p, model, judge, rounds + 1)
      ensures more ==> Unstopped(p, model, judge, rounds + 1)
      ensures !more ==> nodes == old(nodes) && expanded == old(expanded) && Ends(p, nodes, rounds, cancelAt, reason)
    {
      if rounds == cancelAt {
        return false, Cancelled;
      }
      if |nodes| >= p.maxNodes {
        return false, MaxNodes;
      }
      var selected := Select(p, nodes);
      if selected == [] {
        SelectIsRight(p, nodes);
        return false, NoExpandableNodes;
      }
      UnstoppedStep(p, model, judge, rounds);
      NextExpands(p, model, judge, rounds, State(nodes, expanded));
      ExpandSelected(model, judge, rounds, selected);
      return true, Cancelled;
    }
  }

  /** What a termination reason says. */
  predicate Ends(p: Plan, nodes: seq<Thought>, rounds: nat, cancelAt: nat, reason: Reason) {
    match reason
    case MaxNodes => |nodes| >= p.maxNodes
    case NoExpandableNodes => |nodes| < p.maxNodes && forall n | 0 <= n < |nodes| :: !Open(p, nodes[n])
    case Cancelled => rounds == cancelAt
  }

  ghost predicate Unstopped(p: Plan, model: Model, judge: Judge, rounds: nat) {
    forall k: nat | k < rounds :: !Stops(p, model, judge)(k)
  }

  lemma {:induction false} UnstoppedStep(p: Plan, model: Model, judge: Judge, rounds: nat)
    requires Unstopped(p, model, judge, rounds) && !Stopped(p, After(p, model, judge, rounds).t)
    ensures Unstopped(p, model, judge, rounds + 1)
  {
    assert !Stops(p, model, judge)(rounds);
  }

  lemma {:induction false} NextExpands(p: Plan, model: Model, judge: Judge, rounds: nat, s: State)
    requires s == After(p, model, judge, rounds) && !Stopped(p, s.t)
    ensures After(p, model, judge, rounds + 1) == ExpandAll(p, model, judge, rounds, s, Select(p, s.t))
  {
    assert After(p, model, judge, rounds + 1) == Round(p, model, judge, rounds, s);
  }

  /** Once the budget is used up the rest of the selection is skipped. */
  lemma {:induction false} BudgetSpent(p: Plan, model: Model, judge: Judge, round: nat, s: State, selected: seq<nat>,
                                       i: nat)
    requires forall k | 0 <= k < |selected| :: selected[k] < |s.t|
    requires i <= |selected| && |ExpandAll(p, model, judge, round, s, selected[..i]).t| >= p.maxNodes
    ensures ExpandAll(p, model, judge, round, s, selected) == ExpandAll(p, model, judge, round, s, selected[..i])
    decreases |selected|
  {
    if i < |selected| {
      var front := selected[..|selected| - 1];
      assert front[..i] == selected[..i];
      BudgetSpent(p, model, judge, round, s, front, i);
    } else {
      assert selected[..i] == selected;
    }
  }
}
