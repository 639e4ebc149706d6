/** The search loop: select, expand, evaluate, backpropagate, prune. */
module Lats {
  import opened Values
  import opened SearchTree

  datatype Verdict = Accept | Revise | Reject

  /** What one sampled continuation turned into. */
  datatype Continuation = ToolWorked | ToolFailed | TextOnly

  /** Limits of a search. */
  datatype Limits = Limits(maxDepth: nat, minDepth: nat, branching: nat)

  function ChildNode(k: Limits, parent: nat, depth: nat, c: Continuation): Node {
    match c
    case ToolWorked => Node(Some(parent), [], depth, false, false, 0.0, 0)
    case ToolFailed => Node(Some(parent), [], depth, false, true, 0.0, 0)
    case TextOnly => Node(Some(parent), [], depth, depth >= k.minDepth, false, 0.0, 0)
  }

  /** Appends a node and lists it with its parent. */
  function AddChild(t: Tree, p: nat, n: Node): Tree
    requires p < |t|
  {
    t[p := t[p].(children := t[p].children + [|t|])] + [n]
  }

  lemma {:induction false} AddChildShape(t: Tree, p: nat, n: Node)
    requires WellFormed(t) && p < |t| && n.parent == Some(p) && n.depth == t[p].depth + 1 && n.children == []
    ensures var t' := AddChild(t, p, n);
            && WellFormed(t') && |t'| == |t| + 1 && t'[|t|] == n
            && forall i | 0 <= i < |t| :: t'[i] == t[i].(children := t'[i].children) && (i != p ==> t'[i] == t[i])
  {
    var t' := AddChild(t, p, n);
    forall i | 1 <= i < |t'| ensures Linked(t', i) {
      if i < |t| {
        assert Linked(t, i);
      }
    }
    forall i | 0 <= i < |t'| ensures Lists(t', i) {
      if i < |t| {
        assert Lists(t, i);
      }
    }
  }

  lemma {:induction false} AddChildConserves(t: Tree, log: seq<Credited>, p: nat, n: Node)
    requires Conserved(t, log) && p < |t| && n.parent == Some(p) && n.depth == t[p].depth + 1 && n.children == []
    requires n.visits == 0 && n.value == 0.0
    ensures Conserved(AddChild(t, p, n), log)
  {
    var t' := AddChild(t, p, n);
    AddChildShape(t, p, n);
    forall i | 0 <= i < |t'| ensures t'[i].visits == CountBelow(t', log, i) && t'[i].value == SumBelow(t', log, i) {
      if i < |t| {
        BelowSame(t, t', log, i);
      } else {
        FreshIsUncredited(t', log, i, |t|);
      }
    }
  }

  /** Bounds every tree of a search satisfies. */
  ghost predicate WithinLimits(k: Limits, t: Tree) {
    forall i | 0 <= i < |t| ::
      && t[i].depth <= k.maxDepth
      && (t[i].isTerminal ==> t[i].children == [] && k.minDepth <= t[i].depth)
  }

  /** No node but the root has been expanded twice. */
  ghost predicate ExpandedOnce(k: Limits, t: Tree) {
    forall i | 1 <= i < |t| :: |t[i].children| <= k.branching
  }

  lemma {:induction false} UpdateConserves(t: Tree, t': Tree, log: seq<Credited>)
    requires Conserved(t, log) && WellFormed(t') && |t'| == |t|
    requires forall i | 0 <= i < |t| :: t'[i].parent == t[i].parent && t'[i].value == t[i].value && t'[i].visits == t[i].visits
    ensures Conserved(t', log)
  {
    forall i | 0 <= i < |t'| ensures t'[i].visits == CountBelow(t', log, i) && t'[i].value == SumBelow(t', log, i) {
      BelowSame(t, t', log, i);
    }
  }

  predicate NoLiveChild(t: Tree, n: nat)
    requires n < |t|
  {
    forall c | c in t[n].children :: c < |t| && t[c].failed
  }

  /** The value an already finished node is credited with again: its average so far. */
  function Average(n: Node): real {
    n.value / (if n.visits == 0 then 1 else n.visits) as real
  }

  lemma {:induction false} AverageInUnit(t: Tree, log: seq<Credited>, n: nat)
    requires Conserved(t, log) && UnitLog(log) && n < |t|
    ensures 0.0 <= Average(t[n]) <= 1.0
  {
    AveragesStayInUnit(t, log, n);
    Quotient(t[n].value, (if t[n].visits == 0 then 1 else t[n].visits) as real);
  }

  lemma {:induction false} Quotient(a: real, b: real)
    requires 0.0 <= a <= b && b > 0.0
    ensures 0.0 <= a / b <= 1.0
  {
  }

  /** A childless node can be failed without leaving a live node below a failed one. */
  lemma {:induction false} FailLeafKeepsDead(t: Tree, n: nat)
    requires WellFormed(t) && DeadBelowFailed(t) && n < |t| && t[n].children == []
    ensures WellFormed(Fail(t, n)) && DeadBelowFailed(Fail(t, n))
  {
    FailShape(t, n);
    var t' := Fail(t, n);
    forall i | 1 <= i < |t'| && t'[i].parent.Some? && t'[i].parent.value < |t'| && t'[t'[i].parent.value].failed
      ensures t'[i].failed
    {
      assert Linked(t, i);
    }
  }

  lemma {:induction false} DeepestAreChildless(k: Limits, t: Tree, n: nat)
    requires WellFormed(t) && WithinLimits(k, t) && n < |t| && t[n].depth >= k.maxDepth
    ensures t[n].children == []
  {
    if t[n].children != [] {
      ChildIsDeeper(t, n, t[n].children[0]);
    }
  }

  lemma {:induction false} ChildIsDeeper(t: Tree, n: nat, c: nat)
    requires WellFormed(t) && n < |t| && c in t[n].children
    ensures c < |t| && t[c].depth == t[n].depth + 1
  {
    assert Lists(t, n);
    assert Linked(t, c);
  }

  /** `t` is `t0` with `b` sampled children added to `leaf`. */
  ghost predicate Grown(k: Limits, t0: Tree, t: Tree, leaf: nat, b: nat, sample: nat -> Continuation) {
    && |t| == |t0| + b && leaf < |t0|
    && (forall i | 0 <= i < |t0| && i != leaf :: t[i] == t0[i])
    && t[leaf] == t0[leaf].(children := t[leaf].children)
    && |t[leaf].children| == |t0[leaf].children| + b
    && (forall c | |t0| <= c < |t0| + b :: c in t[leaf].children)
    && (forall c | c in t0[leaf].children :: c in t[leaf].children)
    && (forall c | c in t[leaf].children :: c in t0[leaf].children || c >= |t0|)
    && (forall j | 0 <= j < b :: t[|t0| + j] == ChildNode(k, leaf, t0[leaf].depth + 1, sample(j)))
  }

  lemma {:induction false} GrownStep(k: Limits, t0: Tree, t: Tree, leaf: nat, b: nat, sample: nat -> Continuation)
    requires Grown(k, t0, t, leaf, b, sample)
    ensures Grown(k, t0, AddChild(t, leaf, ChildNode(k, leaf, t0[leaf].depth + 1, sample(b))), leaf, b + 1, sample)
  {
  }

  lemma {:induction false} AddChildWithinLimits(k: Limits, t: Tree, leaf: nat, c: Continuation)
    requires WithinLimits(k, t) && leaf < |t| && !t[leaf].isTerminal && t[leaf].depth < k.maxDepth
    ensures WithinLimits(k, AddChild(t, leaf, ChildNode(k, leaf, t[leaf].depth + 1, c)))
  {
  }

  lemma {:induction false} OneMore(n: nat, b: nat)
    ensures (n + 1) * b == n * b + b
  {
  }

  type Sample = nat -> Continuation

  type Judge = nat -> (real, Verdict)

  /** A child as it comes out of an expansion: finished if it is text at the least depth or below it, failed if its tool
      failed or it was rejected. */
  ghost predicate Born(k: Limits, n: Node, leaf: nat, depth: nat, c: Continuation, verdict: Verdict) {
    && n.parent == Some(leaf) && n.depth == depth && n.children == []
    && (n.isTerminal <==> c == TextOnly && depth >= k.minDepth)
    && (n.failed <==> c == ToolFailed || verdict == Reject)
  }

  /** What each child is credited with: nothing if its tool failed, and its score otherwise. */
  ghost predicate Rewarded(log: seq<Credited>, more: seq<Credited>, first: nat, b: nat, sample: Sample, judge: Judge) {
    && log <= more && |more| == |log| + b
    && forall i | |log| <= i < |more| ::
         var j := i - |log|;
         more[i] == Credited(first + j, if sample(j) == ToolFailed then 0.0 else judge(first + j).0)
  }

  /** Finished children that were accepted become answers, and no other node does. */
  ghost predicate Answered(accepted: seq<nat>, more: seq<nat>, t: Tree, first: nat, judge: Judge) {
    && accepted <= more
    && forall a :: a in more <==> a in accepted || (first <= a < |t| && t[a].isTerminal && judge(a).1 == Accept)
  }

  /** The nodes from `first` up to `upTo` have been judged: rejection fails them, and nothing else has changed but counts
      and values. */
  ghost predicate Judged(t0: Tree, t: Tree, first: nat, upTo: nat, judge: Judge) {
    && |t| == |t0|
    && (forall i | 0 <= i < |t| :: t[i] == t0[i].(value := t[i].value, visits := t[i].visits, failed := t[i].failed))
    && forall i | 0 <= i < |t| :: t[i].failed == (t0[i].failed || (first <= i < upTo && judge(i).1 == Reject))
  }

  ghost predicate Scored(t0: Tree, log0: seq<Credited>, log: seq<Credited>, first: nat, upTo: nat, judge: Judge)
    requires first <= upTo <= |t0|
  {
    && log0 <= log && |log| == |log0| + (upTo - first)
    && forall j | |log0| <= j < |log| :: log[j] == ScoreOf(t0, judge, first + (j - |log0|))
  }

  function ScoreOf(t: Tree, judge: Judge, i: nat): Credited
    requires i < |t|
  {
    Credited(i, if t[i].failed then 0.0 else judge(i).0)
  }

  ghost predicate Chosen(t0: Tree, accepted0: seq<nat>, accepted: seq<nat>, first: nat, upTo: nat, judge: Judge)
    requires upTo <= |t0|
  {
    && accepted0 <= accepted
    && forall a :: a in accepted <==> a in accepted0 || (first <= a < upTo && Wins(t0, judge, a))
  }

  predicate Wins(t: Tree, judge: Judge, a: nat)
    requires a < |t|
  {
    t[a].isTerminal && !t[a].failed && judge(a).1 == Accept
  }

  /** The tree after an expansion of `leaf`. The older nodes keep their place, and only `leaf` has new children; nothing
      that had failed is alive again, and `leaf` has failed exactly if all its children have, unless it is the root. */
  ghost predicate Expanded(k: Limits, t0: Tree, t: Tree, leaf: nat, sample: Sample, judge: Judge) {
    && |t| == |t0| + k.branching && leaf < |t0|
    && (forall j | 0 <= j < k.branching ::
          Born(k, t[|t0| + j], leaf, t0[leaf].depth + 1, sample(j), judge(|t0| + j).1))
    && (forall i | 0 <= i < |t0| ::
          && t[i].parent == t0[i].parent && t[i].depth == t0[i].depth && t[i].isTerminal == t0[i].isTerminal
          && (i != leaf ==> t[i].children == t0[i].children) && (t0[i].failed ==> t[i].failed))
    && (forall c | |t0| <= c < |t| :: c in t[leaf].children)
    && (forall c | c in t0[leaf].children :: c in t[leaf].children)
    && |t[leaf].children| == |t0[leaf].children| + k.branching
    && (leaf != 0 ==>
          (t[leaf].failed <==> t[leaf].children != [] && forall c | c in t[leaf].children :: c < |t| && t[c].failed))
    && !t[0].failed == !t0[0].failed
  }

  class Search {
    const k: Limits
    var nodes: Tree
    var accepted: seq<nat>
    var lateRejections: nat      // rejections of a node at maximal depth when it is selected again
    ghost var log: seq<Credited>
    ghost var expansions: nat
    ghost var selected: seq<nat>  // the node each iteration selected

    ghost predicate Valid()
      reads this
    {
      && Conserved(nodes, log) && UnitLog(log)
      && DeadBelowFailed(nodes)
      && WithinLimits(k, nodes)
      && |nodes| == 1 + expansions * k.branching
      && (forall a | a in accepted :: a < |nodes| && nodes[a].isTerminal && !nodes[a].failed)
    }

    /** Between iterations: if no selected node was rejected late, dead branches are closed and no node but
        the root was expanded twice. */
    ghost predicate Closed()
      reads this
    {
      lateRejections == 0 ==> Cascaded(nodes) && ExpandedOnce(k, nodes)
    }

    constructor (k: Limits)
      ensures Valid() && Closed() && this.k == k && accepted == [] && lateRejections == 0 && nodes == [Root]
              && log == []
      ensures expansions == 0 && selected == []
    {
      this.k, nodes, accepted, lateRejections, log, expansions, selected := k, [Root], [], 0, [], 0, [];
    }

    /** Descends through live children, which one is left open, to a node that is terminal, failed or has no
        live child. */
    method SelectLeaf() returns (leaf: nat)
      requires Valid()
      ensures leaf < |nodes|
      ensures nodes[leaf].isTerminal || nodes[leaf].failed || NoLiveChild(nodes, leaf)
      ensures leaf != 0 ==> !nodes[leaf].failed
    {
      leaf := 0;
      while !nodes[leaf].isTerminal && !nodes[leaf].failed
        invariant leaf < |nodes| && (leaf != 0 ==> !nodes[leaf].failed)
        decreases |nodes| - leaf
      {
        assert Lists(nodes, leaf);
        if c :| c in nodes[leaf].children && !nodes[c].failed {
          leaf := c;
        } else {
          return;
        }
      }
    }

    /** The loop that credits a node and everything above it. */
    method Backprop(n: nat, v: real)
      requires Valid() && n < |nodes| && 0.0 <= v <= 1.0
      modifies this`nodes, this`log
      ensures nodes == Backpropagate(old(nodes), n, v) && log == old(log) + [Credited(n, v)]
      ensures Valid()
      ensures |nodes| == |old(nodes)|
      ensures forall i | 0 <= i < |nodes| ::
                nodes[i] == old(nodes)[i].(value := nodes[i].value, visits := nodes[i].visits)
    {
      BackpropagateConserves(nodes, log, n, v);
      BackpropagateShape(nodes, n, v);
      var at: nat, more := n, true;
      while more
        invariant at < |nodes| == |old(nodes)|
        invariant Backpropagate(old(nodes), n, v) == if more then Backpropagate(nodes, at, v) else nodes
        modifies this`nodes
        decreases more, at
      {
        nodes := nodes[at := Credit(nodes[at], v)];
        if nodes[at].parent.Some? && nodes[at].parent.value < at {
          at := nodes[at].parent.value;
        } else {
          more := false;
        }
      }
      log := log + [Credited(n, v)];
      ShapeKeepsRest(k, old(nodes), nodes);
    }

    /** Marks a childless node that is in no answer as failed. */
    method MarkFailed(n: nat)
      requires Valid() && n < |nodes| && nodes[n].children == [] && n !in accepted
      modifies this`nodes
      ensures nodes == Fail(old(nodes), n) && Valid()
    {
      FailLeafKeepsDead(nodes, n);
      UpdateConserves(nodes, Fail(nodes, n), log);
      nodes := nodes[n := nodes[n].(failed := true)];
    }

    /** Samples the children of a live node. */
    method Expand(leaf: nat, sample: nat -> Continuation)
      requires Valid() && leaf < |nodes| && !nodes[leaf].failed && !nodes[leaf].isTerminal
               && nodes[leaf].depth < k.maxDepth
      modifies this`nodes, this`expansions
      ensures Valid() && expansions == old(expansions) + 1 && |nodes| == |old(nodes)| + k.branching
      ensures Grown(k, old(nodes), nodes, leaf, k.branching, sample)
    {
      var before, t := nodes, nodes;
      for b := 0 to k.branching
        invariant Grown(k, before, t, leaf, b, sample) && nodes == before && expansions == old(expansions)
        invariant Conserved(t, log) && DeadBelowFailed(t) && WithinLimits(k, t)
      {
        AddChildKeeps(k, t, log, leaf, sample(b));
        GrownStep(k, before, t, leaf, b, sample);
        t := AddChild(t, leaf, ChildNode(k, leaf, t[leaf].depth + 1, sample(b)));
      }
      OneMore(expansions, k.branching);
      nodes, expansions := t, expansions + 1;
    }

    /** Scores one node; a rejection fails it. */
    method Evaluate(n: nat, score: real, verdict: Verdict)
      requires Valid() && n < |nodes| && nodes[n].children == [] && n !in accepted && 0.0 <= score <= 1.0
      modifies this`nodes, this`log
      ensures Valid() && |nodes| == |old(nodes)| && log == old(log) + [Credited(n, score)]
      ensures forall i | 0 <= i < |nodes| ::
                nodes[i] == old(nodes)[i].(value := nodes[i].value, visits := nodes[i].visits,
                                           failed := old(nodes)[i].failed || (i == n && verdict == Reject))
    {
      if verdict == Reject {
        MarkFailed(n);
      }
      Backprop(n, score);
    }

    /** Scores and credits one freshly sampled child; if it is finished and accepted it becomes an answer. */
    method JudgeChild(i: nat, judge: Judge)
      requires Valid() && i < |nodes| && nodes[i].children == [] && i !in accepted && 0.0 <= judge(i).0 <= 1.0
      modifies this`nodes, this`log, this`accepted
      ensures Valid() && log == old(log) + [ScoreOf(old(nodes), judge, i)]
      ensures Judged(old(nodes), nodes, i, i + 1, judge)
      ensures accepted == old(accepted) + if Wins(old(nodes), judge, i) then [i] else []
    {
      if nodes[i].failed {
        Backprop(i, 0.0);
      } else {
        var finished := nodes[i].isTerminal;
        Evaluate(i, judge(i).0, judge(i).1);
        if finished && judge(i).1 == Accept {
          Accepts(i);
        }
      }
    }

    method Accepts(i: nat)
      requires Valid() && i < |nodes| && nodes[i].isTerminal && !nodes[i].failed
      modifies this`accepted
      ensures Valid() && accepted == old(accepted) + [i]
    {
      accepted := accepted + [i];
    }

    /** Scores and credits the freshly sampled children of `leaf`; the finished ones that are accepted become
        answers. */
    method EvaluateChildren(leaf: nat, first: nat, judge: Judge)
      requires Valid() && leaf < first <= |nodes|
      requires forall n :: 0.0 <= judge(n).0 <= 1.0
      requires forall i | first <= i < |nodes| :: nodes[i].children == [] && nodes[i].parent == Some(leaf)
      requires forall a | a in accepted :: a < first
      modifies this`nodes, this`log, this`accepted
      ensures Valid() && Judged(old(nodes), nodes, first, |nodes|, judge)
      ensures Scored(old(nodes), old(log), log, first, |old(nodes)|, judge)
      ensures Chosen(old(nodes), old(accepted), accepted, first, |old(nodes)|, judge)
    {
      for i := first to |nodes|
        invariant Valid() && Judged(old(nodes), nodes, first, i, judge)
        invariant Scored(old(nodes), old(log), log, first, i, judge)
        invariant Chosen(old(nodes), old(accepted), accepted, first, i, judge)
      {
        ghost var t, entries, answers := nodes, log, accepted;
        JudgeChild(i, judge);
        JudgedOneMore(old(nodes), t, nodes, first, i, judge);
        ScoredOneMore(old(nodes), t, old(log), entries, log, first, i, judge);
        ChosenOneMore(old(nodes), t, old(accepted), answers, accepted, first, i, judge);
      }
    }

    /** The pruning walk from an expanded node. */
    method PropagatePruning(n: nat)
      requires Valid() && n < |nodes|
      modifies this`nodes
      ensures nodes == Prune(old(nodes), n) && Valid()
    {
      PruneKeeps(nodes, n);
      ghost var goal := Prune(nodes, n);
      var at: nat, more := n, true;
      while more
        invariant at < |nodes| == |old(nodes)|
        invariant goal == if more then Prune(nodes, at) else nodes
        decreases more, at
      {
        if nodes[at].failed || !HasParent(nodes, at) || !AllChildrenFailed(nodes, at) {
          more := false;
        } else {
          var p := nodes[at].parent.value;
          nodes := nodes[at := nodes[at].(failed := true)];
          at := p;
        }
      }
      PruneIsSafe(old(nodes), n);
      UpdateConserves(old(nodes), nodes, log);
      forall a | a in accepted ensures nodes[a].isTerminal && !nodes[a].failed {
        PruneSparesLeaves(old(nodes), n, a);
      }
    }

    /** A finished or failed node was selected again: its average is credited once more. */
    method Revisit(leaf: nat)
      requires Valid() && Closed() && leaf < |nodes|
      modifies this`nodes, this`log
      ensures Valid() && Closed()
      ensures Again(old(nodes), nodes, old(log), log, leaf)
    {
      AverageTimes(nodes[leaf]);
      AverageInUnit(nodes, log, leaf);
      Backprop(leaf, Average(nodes[leaf]));
      SameFlagsClosed(k, old(nodes), nodes);
    }

    /** A live node at maximal depth was selected: it is scored, not expanded. A rejection here fails it
        without the pruning walk. */
    method Rescore(leaf: nat, judge: nat -> (real, Verdict))
      requires Valid() && Closed() && leaf < |nodes| && nodes[leaf].depth >= k.maxDepth && !nodes[leaf].isTerminal
      requires forall n :: 0.0 <= judge(n).0 <= 1.0
      modifies this`nodes, this`log, this`lateRejections
      ensures Valid() && Closed() && Tried(old(nodes), nodes, old(log), log, leaf, judge)
      ensures lateRejections == old(lateRejections) + if judge(leaf).1 == Reject then 1 else 0
    {
      DeepestAreChildless(k, nodes, leaf);
      var (score, verdict) := judge(leaf);
      Evaluate(leaf, score, verdict);
      if verdict == Reject {
        lateRejections := lateRejections + 1;
      } else {
        SameFlagsClosed(k, old(nodes), nodes);
      }
    }

    /** A live node was selected: its children are sampled, judged and, if none survives, pruned. */
    method Grow(leaf: nat, sample: Sample, judge: Judge)
      requires Valid() && Closed() && leaf < |nodes| && nodes[leaf].depth < k.maxDepth
      requires !nodes[leaf].isTerminal && !nodes[leaf].failed && NoLiveChild(nodes, leaf)
      requires forall n :: 0.0 <= judge(n).0 <= 1.0
      modifies this`nodes, this`log, this`accepted, this`expansions
      ensures Valid() && Closed() && expansions == old(expansions) + 1
      ensures Expanded(k, old(nodes), nodes, leaf, sample, judge)
      ensures Rewarded(old(log), log, |old(nodes)|, k.branching, sample, judge)
      ensures Answered(old(accepted), accepted, nodes, |old(nodes)|, judge)
    {
      var first := |nodes|;
      LiveLeafIsFresh(k, nodes, leaf, lateRejections);
      ghost var grown, judged := Branch(leaf, first, sample, judge);
      PruneKeeps(judged, leaf);
      GrownIsExpanded(k, old(nodes), grown, judged, leaf, sample, judge);
      ScoredIsRewarded(k, old(nodes), grown, old(log), log, leaf, sample, judge);
      ChosenIsAnswered(k, old(nodes), grown, nodes, old(accepted), accepted, leaf, sample, judge);
      if lateRejections == 0 {
        ExpansionCloses(k, old(nodes), grown, judged, leaf, sample);
      }
    }

    /** The three steps of an expansion, and the tree after the first and the second. */
    method Branch(leaf: nat, first: nat, sample: Sample, judge: Judge) returns (ghost grown: Tree, ghost judged: Tree)
      requires Valid() && leaf < |nodes| == first && nodes[leaf].depth < k.maxDepth
      requires !nodes[leaf].isTerminal && !nodes[leaf].failed
      requires forall n :: 0.0 <= judge(n).0 <= 1.0
      modifies this`nodes, this`log, this`accepted, this`expansions
      ensures Valid() && expansions == old(expansions) + 1
      ensures Grown(k, old(nodes), grown, leaf, k.branching, sample) && WellFormed(grown)
      ensures Judged(grown, judged, first, |grown|, judge) && WellFormed(judged) && DeadBelowFailed(judged)
      ensures Scored(grown, old(log), log, first, |grown|, judge)
      ensures Chosen(grown, old(accepted), accepted, first, |grown|, judge)
      ensures nodes == Prune(judged, leaf)
    {
      Expand(leaf, sample);
      grown := nodes;
      GrownChildrenAreFresh(k, old(nodes), grown, leaf, k.branching, sample);
      EvaluateChildren(leaf, first, judge);
      judged := nodes;
      PropagatePruning(leaf);
    }

    /** One iteration of the search. */
    method Iterate(sample: Sample, judge: Judge)
      requires Valid() && Closed()
      requires forall n :: 0.0 <= judge(n).0 <= 1.0
      modifies this
      ensures Valid() && Closed() && expansions <= old(expansions) + 1
      ensures |selected| == |old(selected)| + 1 && old(selected) <= selected
      ensures Iterated(k, old(nodes), nodes, old(log), log, old(accepted), accepted, selected[|old(selected)|], sample,
                       judge)
    {
      var leaf := SelectLeaf();
      selected := selected + [leaf];
      if nodes[leaf].isTerminal || nodes[leaf].failed {
        Revisit(leaf);
      } else if nodes[leaf].depth >= k.maxDepth {
        Rescore(leaf, judge);
      } else {
        Grow(leaf, sample, judge);
      }
    }

    /** The search: every bound and every balance holds after any number of iterations, whatever the model,
        the tools and the evaluator do. */
    method Run(iterations: nat, sample: (nat, nat) -> Continuation, judge: (nat, nat) -> (real, Verdict))
      requires Valid() && Closed() && expansions == 0 && selected == []
      requires forall i, n :: 0.0 <= judge(i, n).0 <= 1.0
      modifies this
      ensures Conserved(nodes, log) && |selected| == iterations
      ensures |nodes| <= 1 + iterations * k.branching
      ensures forall n | 0 <= n < |nodes| :: 0.0 <= Average(nodes[n]) <= 1.0 && nodes[n].visits <= nodes[0].visits == |log|
      ensures forall a | a in accepted :: a < |nodes| && nodes[a].isTerminal && nodes[a].depth >= k.minDepth
      ensures forall a, n | a in accepted && n in Lineage(nodes, a) :: n < |nodes| && !nodes[n].failed
      ensures lateRejections == 0 ==> Cascaded(nodes) && ExpandedOnce(k, nodes)
    {
      for i := 0 to iterations
        invariant Valid() && Closed() && expansions <= i && |selected| == i
      {
        Iterate((b: nat) => sample(i, b), (n: nat) => judge(i, n));
      }
      MoreIterations(expansions, iterations, k.branching);
      forall n | 0 <= n < |nodes|
        ensures 0.0 <= Average(nodes[n]) <= 1.0 && nodes[n].visits <= nodes[0].visits == |log|
      {
        CountsAndAverages(nodes, log, n);
      }
      forall a, n | a in accepted && n in Lineage(nodes, a) ensures n < |nodes| && !nodes[n].failed {
        LiveLineage(nodes, a);
      }
    }
  }

  /** Each node but the last has the next one as its only child, nothing has failed and nothing is finished. */
  ghost predicate Line(t: Tree) {
    forall i | 0 <= i < |t| :: !t[i].failed && !t[i].isTerminal && t[i].depth == i
      && t[i].children == if i < |t| - 1 then [i + 1] else []
  }

  /** One iteration on a line: its end is selected, gets one child, and nothing is pruned. */
  method Lengthen(s: Search)
    requires s.Valid() && s.accepted == [] && Line(s.nodes) && s.k == Limits(2, 0, 1) && |s.nodes| <= 2
    modifies s`nodes, s`log, s`expansions
    ensures s.Valid() && Line(s.nodes) && |s.nodes| == |old(s.nodes)| + 1
  {
    var leaf := s.SelectLeaf();
    EndIsSelected(s.nodes, leaf);
    ghost var so := s.nodes;
    var sample := (b: nat) => ToolWorked;
    s.Expand(leaf, sample);
    LineGrows(s.k, so, s.nodes, leaf, sample);
    s.Evaluate(leaf + 1, 0.5, Revise);
    assert s.nodes[leaf + 1].failed == false;
    assert leaf + 1 in s.nodes[leaf].children;
    assert !AllChildrenFailed(s.nodes, leaf);
    s.PropagatePruning(leaf);
  }

  lemma {:induction false} EndIsSelected(t: Tree, leaf: nat)
    requires Line(t) && leaf < |t| && (t[leaf].isTerminal || t[leaf].failed || NoLiveChild(t, leaf))
    ensures leaf == |t| - 1
  {
    forall i | 0 <= i < |t| - 1 ensures !NoLiveChild(t, i) {
      assert i + 1 in t[i].children;
    }
  }

  lemma {:induction false} LineGrows(k: Limits, t0: Tree, t: Tree, leaf: nat, sample: nat -> Continuation)
    requires Line(t0) && leaf == |t0| - 1 && WellFormed(t) && sample(0) == ToolWorked
    requires Grown(k, t0, t, leaf, 1, sample)
    ensures Line(t)
  {
    assert t[|t0| + 0] == ChildNode(k, leaf, t0[leaf].depth + 1, sample(0));
    assert Lists(t, leaf);
    assert t[leaf].children[0] in t[leaf].children;
  }

  /** Three iterations of a search of depth two: the first two each add a node, the third selects the node at maximal
      depth, where it is scored again and rejected. Its parent is left live with no live child. */
  method RejectLate() returns (s: Search)
    ensures s.Valid() && |s.nodes| == 3 && s.nodes[2].failed && !s.nodes[1].failed && !Cascaded(s.nodes)
  {
    s := new Search(Limits(2, 0, 1));
    Lengthen(s);
    Lengthen(s);
    var leaf := s.SelectLeaf();
    EndIsSelected(s.nodes, leaf);
    s.Evaluate(leaf, 0.0, Reject);
    assert AllChildrenFailed(s.nodes, 1);
  }

  lemma {:induction false} CountsAndAverages(t: Tree, log: seq<Credited>, n: nat)
    requires Conserved(t, log) && UnitLog(log) && n < |t|
    ensures 0.0 <= Average(t[n]) <= 1.0 && t[n].visits <= t[0].visits == |log|
  {
    AverageInUnit(t, log, n);
    RootCountsAll(t, log, n);
  }

  /** The trees agree in everything but counts and values. */
  ghost predicate SameButCounts(t: Tree, t': Tree) {
    |t'| == |t| && forall i | 0 <= i < |t| :: t'[i] == t[i].(value := t'[i].value, visits := t'[i].visits)
  }

  /** What an iteration makes of the node it selected: one that is finished or has failed is credited again with its
      average, one at maximal depth is scored, any other is expanded. */
  ghost predicate Iterated(k: Limits, t: Tree, t': Tree, log: seq<Credited>, log': seq<Credited>, accepted: seq<nat>,
                           accepted': seq<nat>, leaf: nat, sample: Sample, judge: Judge)
  {
    && leaf < |t| && (leaf != 0 ==> !t[leaf].failed)
    && (t[leaf].isTerminal || t[leaf].failed || NoLiveChild(t, leaf))
    && if t[leaf].isTerminal || t[leaf].failed then Again(t, t', log, log', leaf) && accepted' == accepted
       else if t[leaf].depth >= k.maxDepth then Tried(t, t', log, log', leaf, judge) && accepted' == accepted
       else
         && Expanded(k, t, t', leaf, sample, judge) && Rewarded(log, log', |t|, k.branching, sample, judge)
         && Answered(accepted, accepted', t', |t|, judge)
  }

  /** A node is credited once more with its value over its visits. */
  ghost predicate Again(t: Tree, t': Tree, log: seq<Credited>, log': seq<Credited>, leaf: nat)
    requires leaf < |t|
  {
    && SameButCounts(t, t') && |log'| == |log| + 1 && log <= log' && log'[|log|].node == leaf
    && log'[|log|].value * (if t[leaf].visits == 0 then 1 else t[leaf].visits) as real == t[leaf].value
  }

  /** A node is scored, and fails if it is rejected. */
  ghost predicate Tried(t: Tree, t': Tree, log: seq<Credited>, log': seq<Credited>, leaf: nat, judge: Judge)
    requires leaf < |t|
  {
    && log' == log + [Credited(leaf, judge(leaf).0)]
    && SameButCounts(t[leaf := t[leaf].(failed := t[leaf].failed || judge(leaf).1 == Reject)], t')
  }

  lemma {:induction false} AverageTimes(n: Node)
    ensures Average(n) * (if n.visits == 0 then 1 else n.visits) as real == n.value
  {
  }

  lemma {:induction false} JudgedOneMore(t0: Tree, t: Tree, t': Tree, first: nat, i: nat, judge: Judge)
    requires first <= i < |t0| && Judged(t0, t, first, i, judge) && Judged(t, t', i, i + 1, judge)
    ensures Judged(t0, t', first, i + 1, judge)
  {
  }

  lemma {:induction false} ScoredOneMore(t0: Tree, t: Tree, log0: seq<Credited>, log: seq<Credited>,
                                         log': seq<Credited>, first: nat, i: nat,
                      judge: Judge)
    requires first <= i < |t0| && Judged(t0, t, first, i, judge) && Scored(t0, log0, log, first, i, judge)
    requires log' == log + [ScoreOf(t, judge, i)]
    ensures Scored(t0, log0, log', first, i + 1, judge)
  {
    assert t[i].failed == t0[i].failed;
  }

  lemma {:induction false} ChosenOneMore(t0: Tree, t: Tree, accepted0: seq<nat>, accepted: seq<nat>,
                                         accepted': seq<nat>, first: nat, i: nat,
                      judge: Judge)
    requires first <= i < |t0| && Judged(t0, t, first, i, judge) && Chosen(t0, accepted0, accepted, first, i, judge)
    requires accepted' == accepted + if Wins(t, judge, i) then [i] else []
    ensures Chosen(t0, accepted0, accepted', first, i + 1, judge)
  {
    assert t[i].failed == t0[i].failed;
    assert Wins(t, judge, i) == Wins(t0, judge, i);
  }

  lemma {:induction false} ScoredIsRewarded(k: Limits, t0: Tree, grown: Tree, log0: seq<Credited>, log: seq<Credited>,
                                            leaf: nat,
                         sample: Sample, judge: Judge)
    requires Grown(k, t0, grown, leaf, k.branching, sample) && Scored(grown, log0, log, |t0|, |grown|, judge)
    ensures Rewarded(log0, log, |t0|, k.branching, sample, judge)
  {
    forall i | |log0| <= i < |log|
      ensures var j := i - |log0|;
              log[i] == Credited(|t0| + j, if sample(j) == ToolFailed then 0.0 else judge(|t0| + j).0)
    {
      var j := i - |log0|;
      assert grown[|t0| + j] == ChildNode(k, leaf, t0[leaf].depth + 1, sample(j));
    }
  }

  lemma {:induction false} ChosenIsAnswered(k: Limits, t0: Tree, grown: Tree, t: Tree, accepted0: seq<nat>,
                                            accepted: seq<nat>, leaf: nat,
                         sample: Sample, judge: Judge)
    requires Grown(k, t0, grown, leaf, k.branching, sample) && Chosen(grown, accepted0, accepted, |t0|, |grown|, judge)
    requires |t| == |grown| && forall i | 0 <= i < |t| :: t[i].isTerminal == grown[i].isTerminal
    ensures Answered(accepted0, accepted, t, |t0|, judge)
  {
    forall a | |t0| <= a < |t| && t[a].isTerminal ensures !grown[a].failed {
      assert grown[|t0| + (a - |t0|)] == ChildNode(k, leaf, t0[leaf].depth + 1, sample(a - |t0|));
    }
  }

  lemma {:induction false} ChildrenAreBorn(k: Limits, t0: Tree, grown: Tree, judged: Tree, leaf: nat, sample: Sample,
                                           judge: Judge, j: nat)
    requires WellFormed(judged) && Grown(k, t0, grown, leaf, k.branching, sample) && j < k.branching
    requires Judged(grown, judged, |t0|, |grown|, judge)
    ensures Born(k, Prune(judged, leaf)[|t0| + j], leaf, t0[leaf].depth + 1, sample(j), judge(|t0| + j).1)
  {
    assert grown[|t0| + j] == ChildNode(k, leaf, t0[leaf].depth + 1, sample(j));
    PruneSparesLeaves(judged, leaf, |t0| + j);
  }

  lemma {:induction false} GrownIsExpanded(k: Limits, t0: Tree, grown: Tree, judged: Tree, leaf: nat, sample: Sample,
                                           judge: Judge)
    requires WellFormed(judged) && Grown(k, t0, grown, leaf, k.branching, sample) && !t0[leaf].failed
    requires Judged(grown, judged, |t0|, |grown|, judge)
    ensures Expanded(k, t0, Prune(judged, leaf), leaf, sample, judge)
  {
    var t := Prune(judged, leaf);
    PruneKeeps(judged, leaf);
    forall j | 0 <= j < k.branching
      ensures Born(k, t[|t0| + j], leaf, t0[leaf].depth + 1, sample(j), judge(|t0| + j).1)
    {
      ChildrenAreBorn(k, t0, grown, judged, leaf, sample, judge, j);
    }
    PruneAtStart(judged, leaf);
    assert leaf != 0 ==> (t[leaf].failed <==> AllChildrenFailed(judged, leaf));
    assert t[leaf].children == judged[leaf].children;
    assert !t0[0].failed == !t[0].failed;
  }

  /** The walk decides about its first node by its children, which it leaves alone. */
  lemma {:induction false} PruneAtStart(t: Tree, n: nat)
    requires WellFormed(t) && n < |t| && !t[n].failed
    ensures n != 0 ==> (Prune(t, n)[n].failed <==> AllChildrenFailed(t, n))
    ensures forall c | c in t[n].children :: c < |t| && Prune(t, n)[c].failed == t[c].failed
  {
    assert Lists(t, n);
    if n != 0 {
      assert Linked(t, n);
    }
    if HasParent(t, n) && AllChildrenFailed(t, n) {
      FailShape(t, n);
      PruneKeeps(Fail(t, n), t[n].parent.value);
    }
    PruneKeeps(t, n);
  }

  lemma {:induction false} MoreIterations(a: nat, b: nat, c: nat)
    requires a <= b
    ensures a * c <= b * c
  {
  }

  lemma {:induction false} GrownChildrenAreFresh(k: Limits, t0: Tree, t: Tree, leaf: nat, b: nat,
                                                 sample: nat -> Continuation)
    requires Grown(k, t0, t, leaf, b, sample)
    ensures forall i | |t0| <= i < |t| :: t[i].children == [] && t[i].parent == Some(leaf)
  {
    forall i | |t0| <= i < |t| ensures t[i].children == [] && t[i].parent == Some(leaf) {
      assert t[|t0| + (i - |t0|)] == ChildNode(k, leaf, t0[leaf].depth + 1, sample(i - |t0|));
    }
  }

  /** Pruning keeps the rest of the tree as it is and leaves no live node below a failed one. */
  lemma {:induction false} PruneIsSafe(t: Tree, n: nat)
    requires WellFormed(t) && DeadBelowFailed(t) && n < |t|
    ensures DeadBelowFailed(Prune(t, n))
    decreases n
  {
    if !t[n].failed && HasParent(t, n) && AllChildrenFailed(t, n) {
      FailShape(t, n);
      var t' := Fail(t, n);
      forall i | 1 <= i < |t'| && t'[i].parent.Some? && t'[i].parent.value < |t'| && t'[t'[i].parent.value].failed
        ensures t'[i].failed
      {
        assert Linked(t, i);
      }
      PruneIsSafe(t', t[n].parent.value);
    }
  }

  lemma {:induction false} SameFlagsClosed(k: Limits, t: Tree, t': Tree)
    requires |t'| == |t| && forall i | 0 <= i < |t| :: t'[i].children == t[i].children && t'[i].failed == t[i].failed
    ensures Cascaded(t) ==> Cascaded(t')
    ensures ExpandedOnce(k, t) ==> ExpandedOnce(k, t')
  {
    if Cascaded(t) {
      forall i | 1 <= i < |t'| && AllChildrenFailed(t', i) ensures t'[i].failed {
        assert AllChildrenFailed(t, i);
      }
    }
  }

  /** When dead branches are closed, a live node with no live child other than the root has no child at all. */
  lemma {:induction false} LiveLeafIsFresh(k: Limits, t: Tree, leaf: nat, late: nat)
    requires leaf < |t| && !t[leaf].failed && NoLiveChild(t, leaf) && (late == 0 ==> Cascaded(t))
    ensures late == 0 && leaf != 0 ==> t[leaf].children == []
  {
  }

  /** Expanding, judging and pruning closes the branch again. */
  lemma {:induction false} ExpansionCloses(k: Limits, t: Tree, grown: Tree, judged: Tree, leaf: nat,
                                           sample: nat -> Continuation)
    requires WellFormed(t) && Cascaded(t) && ExpandedOnce(k, t) && WellFormed(grown) && WellFormed(judged)
             && DeadBelowFailed(judged)
    requires Grown(k, t, grown, leaf, k.branching, sample) && (leaf != 0 ==> t[leaf].children == [])
    requires |judged| == |grown|
    requires forall i | 0 <= i < |grown| :: judged[i].children == grown[i].children
    requires forall i | 0 <= i < |t| :: judged[i].failed == grown[i].failed
    ensures Cascaded(Prune(judged, leaf)) && ExpandedOnce(k, Prune(judged, leaf))
  {
    GrownChildrenAreFresh(k, t, grown, leaf, k.branching, sample);
    forall i | 1 <= i < |judged| && i != leaf && AllChildrenFailed(judged, i) ensures judged[i].failed {
      assert i < |t| && judged[i].children == t[i].children;
      assert Lists(t, i);
      forall c | c in t[i].children ensures c < |t| && t[c].failed {
        OldFlag(k, t, grown, leaf, sample, c);
      }
      assert AllChildrenFailed(t, i);
    }
    PruneRestores(judged, leaf);
    PruneKeeps(judged, leaf);
    forall i | 1 <= i < |judged| ensures |Prune(judged, leaf)[i].children| <= k.branching {
      assert Prune(judged, leaf)[i].children == grown[i].children;
    }
  }

  lemma {:induction false} OldFlag(k: Limits, t: Tree, grown: Tree, leaf: nat, sample: nat -> Continuation, c: nat)
    requires Grown(k, t, grown, leaf, k.branching, sample) && c < |t|
    ensures grown[c].failed == t[c].failed
  {
  }

  lemma {:induction false} AddChildKeepsDead(t: Tree, p: nat, n: Node)
    requires WellFormed(t) && DeadBelowFailed(t) && p < |t| && !t[p].failed && n.parent == Some(p)
    ensures DeadBelowFailed(AddChild(t, p, n))
  {
    var t' := AddChild(t, p, n);
    forall i | 1 <= i < |t'| && t'[i].parent.Some? && t'[i].parent.value < |t'| && t'[t'[i].parent.value].failed
      ensures t'[i].failed
    {
      if i < |t| {
        assert Linked(t, i);
      }
    }
  }

  lemma {:induction false} AddChildKeeps(k: Limits, t: Tree, log: seq<Credited>, leaf: nat, c: Continuation)
    requires Conserved(t, log) && DeadBelowFailed(t) && WithinLimits(k, t)
    requires leaf < |t| && !t[leaf].failed && !t[leaf].isTerminal && t[leaf].depth < k.maxDepth
    ensures var t' := AddChild(t, leaf, ChildNode(k, leaf, t[leaf].depth + 1, c));
            Conserved(t', log) && DeadBelowFailed(t') && WithinLimits(k, t')
  {
    var child := ChildNode(k, leaf, t[leaf].depth + 1, c);
    AddChildShape(t, leaf, child);
    AddChildConserves(t, log, leaf, child);
    AddChildKeepsDead(t, leaf, child);
    AddChildWithinLimits(k, t, leaf, c);
  }

  /** What depends on links, depths and flags only is not affected by counts and values. */
  lemma {:induction false} ShapeKeepsRest(k: Limits, t: Tree, t': Tree)
    requires WellFormed(t) && |t'| == |t|
    requires forall i | 0 <= i < |t| :: t'[i] == t[i].(value := t'[i].value, visits := t'[i].visits)
    ensures DeadBelowFailed(t) ==> DeadBelowFailed(t')
    ensures WithinLimits(k, t) ==> WithinLimits(k, t')
    ensures forall n | 0 <= n < |t| :: AllChildrenFailed(t', n) == AllChildrenFailed(t, n)
  {
    if DeadBelowFailed(t) {
      forall i | 1 <= i < |t'| && t'[i].parent.Some? && t'[i].parent.value < |t'| && t'[t'[i].parent.value].failed
        ensures t'[i].failed
      {
        assert Linked(t, i);
      }
    }
  }
}
