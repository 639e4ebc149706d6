/** The Monte Carlo search tree as a value: ancestry, backpropagation, pruning and what they conserve. */
module SearchTree {
  import opened Values

  /** Node ids are positions in creation order. */
  datatype Node = Node(parent: Option<nat>, children: seq<nat>, depth: nat, isTerminal: bool, failed: bool,
                       value: real, visits: nat)

  type Tree = seq<Node>

  const Root := Node(None, [], 0, false, false, 0.0, 0)

  /** Node 0 is the root; every other node has an earlier parent that lists it, one level up. */
  ghost predicate WellFormed(t: Tree) {
    && t != [] && t[0].parent.None? && t[0].depth == 0
    && (forall i | 1 <= i < |t| :: Linked(t, i))
    && (forall i | 0 <= i < |t| :: Lists(t, i))
  }

  predicate Lists(t: Tree, i: nat)
    requires i < |t|
  {
    forall c | c in t[i].children :: i < c < |t| && t[c].parent == Some(i)
  }

  predicate Linked(t: Tree, i: nat)
    requires i < |t|
  {
    t[i].parent.Some? && t[i].parent.value < i && i in t[t[i].parent.value].children
    && t[i].depth == t[t[i].parent.value].depth + 1
  }

  /** Every node id on the way from `n` to the root, `n` first. */
  function Lineage(t: Tree, n: nat): seq<nat>
    requires n < |t|
    decreases n
  {
    if HasParent(t, n) then [n] + Lineage(t, t[n].parent.value) else [n]
  }

  predicate HasParent(t: Tree, n: nat)
    requires n < |t|
  {
    t[n].parent.Some? && t[n].parent.value < n
  }

  predicate Ancestor(t: Tree, a: nat, n: nat)
    requires n < |t|
    decreases n
  {
    a == n || (HasParent(t, n) && Ancestor(t, a, t[n].parent.value))
  }

  lemma {:induction false} LineageIsAncestry(t: Tree, n: nat, a: nat)
    requires WellFormed(t) && n < |t|
    ensures a in Lineage(t, n) <==> Ancestor(t, a, n)
    ensures 0 in Lineage(t, n) && |Lineage(t, n)| == t[n].depth + 1
    decreases n
  {
    if n > 0 {
      assert Linked(t, n);
      LineageIsAncestry(t, t[n].parent.value, a);
    }
  }

  /** Trees whose nodes agree on their parents agree on ancestry. */
  lemma {:induction false} AncestorSame(t: Tree, t': Tree, a: nat, n: nat)
    requires WellFormed(t) && WellFormed(t') && n < |t| <= |t'| && forall i | 0 <= i < |t| :: t'[i].parent == t[i].parent
    ensures Ancestor(t', a, n) == Ancestor(t, a, n)
    decreases n
  {
    if n > 0 {
      assert Linked(t, n);
      AncestorSame(t, t', a, t[n].parent.value);
    }
  }

  /******* Backpropagation *******/

  function Credit(n: Node, v: real): Node {
    n.(value := n.value + v, visits := n.visits + 1)
  }

  /** Adds one visit and the value to the node and to everything above it. */
  function Backpropagate(t: Tree, n: nat, v: real): (t': Tree)
    requires n < |t|
    ensures |t'| == |t|
    decreases n
  {
    var t' := t[n := Credit(t[n], v)];
    if HasParent(t, n) then Backpropagate(t', t[n].parent.value, v) else t'
  }

  /** Trees with the same links are well formed together. */
  lemma {:induction false} SameLinks(t: Tree, t': Tree)
    requires WellFormed(t) && |t'| == |t|
    requires forall i | 0 <= i < |t| ::
               t'[i].parent == t[i].parent && t'[i].children == t[i].children && t'[i].depth == t[i].depth
    ensures WellFormed(t')
  {
    forall i | 1 <= i < |t'| ensures Linked(t', i) {
      assert Linked(t, i);
    }
    forall i | 0 <= i < |t'| ensures Lists(t', i) {
      assert Lists(t, i);
    }
  }

  /** Exactly the ancestors of the start are credited, each once. */
  lemma {:induction false} BackpropagateCredits(t: Tree, n: nat, v: real, j: nat)
    requires WellFormed(t) && n < |t| && j < |t|
    ensures Backpropagate(t, n, v)[j] == if Ancestor(t, j, n) then Credit(t[j], v) else t[j]
    decreases n
  {
    var t' := t[n := Credit(t[n], v)];
    SameLinks(t, t');
    if n > 0 {
      assert Linked(t, n);
      var p := t[n].parent.value;
      BackpropagateCredits(t', p, v, j);
      AncestorSame(t, t', j, p);
      if j == n {
        AncestorIsEarlier(t, n, p);
      }
    }
  }

  lemma {:induction false} AncestorIsEarlier(t: Tree, a: nat, n: nat)
    requires WellFormed(t) && n < |t|
    ensures Ancestor(t, a, n) ==> a <= n
    decreases n
  {
    if n > 0 {
      assert Linked(t, n);
      AncestorIsEarlier(t, a, t[n].parent.value);
    }
  }

  lemma {:induction false} RootIsAncestor(t: Tree, n: nat)
    requires WellFormed(t) && n < |t|
    ensures Ancestor(t, 0, n)
    decreases n
  {
    if n > 0 {
      assert Linked(t, n);
      RootIsAncestor(t, t[n].parent.value);
    }
  }

  /** Links, depths and flags are left alone. */
  lemma {:induction false} BackpropagateShape(t: Tree, n: nat, v: real)
    requires WellFormed(t) && n < |t|
    ensures var u := Backpropagate(t, n, v);
            WellFormed(u) && forall j | 0 <= j < |t| :: u[j] == t[j].(value := u[j].value, visits := u[j].visits)
  {
    var u := Backpropagate(t, n, v);
    forall j | 0 <= j < |t| ensures u[j] == t[j].(value := u[j].value, visits := u[j].visits) {
      BackpropagateCredits(t, n, v, j);
    }
    SameLinks(t, u);
  }

  /******* Conservation *******/

  /** One backpropagation: where it started and the value it carried. */
  datatype Credited = Credited(node: nat, value: real)

  ghost predicate InTree(t: Tree, log: seq<Credited>) {
    forall k | 0 <= k < |log| :: log[k].node < |t|
  }

  /** How many backpropagations started at `i` or below it. */
  ghost function CountBelow(t: Tree, log: seq<Credited>, i: nat): nat
    requires InTree(t, log)
  {
    if log == [] then 0 else
    CountBelow(t, log[..|log| - 1], i) + if Ancestor(t, i, log[|log| - 1].node) then 1 else 0
  }

  /** The sum of the values they carried. */
  ghost function SumBelow(t: Tree, log: seq<Credited>, i: nat): real
    requires InTree(t, log)
  {
    if log == [] then 0.0 else
    SumBelow(t, log[..|log| - 1], i) + if Ancestor(t, i, log[|log| - 1].node) then log[|log| - 1].value else 0.0
  }

  /** Each node's visit count and value account for exactly the backpropagations started in its subtree. */
  ghost predicate Conserved(t: Tree, log: seq<Credited>) {
    && WellFormed(t) && InTree(t, log)
    && forall i | 0 <= i < |t| :: t[i].visits == CountBelow(t, log, i) && t[i].value == SumBelow(t, log, i)
  }

  lemma {:induction false} BelowSame(t: Tree, t': Tree, log: seq<Credited>, i: nat)
    requires WellFormed(t) && WellFormed(t') && InTree(t, log) && |t| <= |t'|
    requires forall j | 0 <= j < |t| :: t'[j].parent == t[j].parent
    ensures InTree(t', log) && CountBelow(t', log, i) == CountBelow(t, log, i)
            && SumBelow(t', log, i) == SumBelow(t, log, i)
  {
    if log != [] {
      BelowSame(t, t', log[..|log| - 1], i);
      AncestorSame(t, t', i, log[|log| - 1].node);
    }
  }

  lemma {:induction false} BackpropagateConserves(t: Tree, log: seq<Credited>, n: nat, v: real)
    requires Conserved(t, log) && n < |t|
    ensures Conserved(Backpropagate(t, n, v), log + [Credited(n, v)])
  {
    var t', log' := Backpropagate(t, n, v), log + [Credited(n, v)];
    BackpropagateShape(t, n, v);
    forall i | 0 <= i < |t'| ensures t'[i].visits == CountBelow(t', log', i) && t'[i].value == SumBelow(t', log', i) {
      BackpropagateCredits(t, n, v, i);
      BelowSame(t, t', log, i);
      AncestorSame(t, t', i, n);
      assert log'[..|log'| - 1] == log;
    }
  }

  lemma {:induction false} FreshIsUncredited(t: Tree, log: seq<Credited>, i: nat, size: nat)
    requires WellFormed(t) && InTree(t, log) && size <= i < |t| && forall k | 0 <= k < |log| :: log[k].node < size
    ensures CountBelow(t, log, i) == 0 && SumBelow(t, log, i) == 0.0
  {
    if log != [] {
      FreshIsUncredited(t, log[..|log| - 1], i, size);
      AncestorIsEarlier(t, i, log[|log| - 1].node);
    }
  }

  /** The root has counted every backpropagation and no node has counted more. */
  lemma {:induction false} RootCountsAll(t: Tree, log: seq<Credited>, i: nat)
    requires Conserved(t, log) && i < |t|
    ensures t[0].visits == |log| && t[i].visits <= t[0].visits
  {
    CountAtRoot(t, log, i);
  }

  lemma {:induction false} CountAtRoot(t: Tree, log: seq<Credited>, i: nat)
    requires WellFormed(t) && InTree(t, log)
    ensures CountBelow(t, log, 0) == |log| && CountBelow(t, log, i) <= |log|
  {
    if log != [] {
      CountAtRoot(t, log[..|log| - 1], i);
      RootIsAncestor(t, log[|log| - 1].node);
    }
  }

  ghost predicate UnitLog(log: seq<Credited>) {
    forall k | 0 <= k < |log| :: 0.0 <= log[k].value <= 1.0
  }

  /** With values between 0 and 1 every node's value stays between 0 and its visit count. */
  lemma {:induction false} AveragesStayInUnit(t: Tree, log: seq<Credited>, i: nat)
    requires Conserved(t, log) && UnitLog(log) && i < |t|
    ensures 0.0 <= t[i].value <= t[i].visits as real
  {
    SumBounded(t, log, i);
  }

  lemma {:induction false} SumBounded(t: Tree, log: seq<Credited>, i: nat)
    requires WellFormed(t) && InTree(t, log) && UnitLog(log)
    ensures 0.0 <= SumBelow(t, log, i) <= CountBelow(t, log, i) as real
  {
    if log != [] {
      SumBounded(t, log[..|log| - 1], i);
    }
  }

  /******* Pruning *******/

  /** Below a failed node everything has failed. */
  ghost predicate DeadBelowFailed(t: Tree) {
    forall i | 1 <= i < |t| && t[i].parent.Some? && t[i].parent.value < |t| :: t[t[i].parent.value].failed ==> t[i].failed
  }

  predicate AllChildrenFailed(t: Tree, n: nat)
    requires n < |t|
  {
    t[n].children != [] && forall c | c in t[n].children :: c < |t| && t[c].failed
  }

  /** No live node below the root has only failed children. */
  ghost predicate Cascaded(t: Tree) {
    forall i | 1 <= i < |t| :: AllChildrenFailed(t, i) ==> t[i].failed
  }

  /** The same, except possibly at `n`. */
  ghost predicate CascadedExcept(t: Tree, n: nat) {
    forall i | 1 <= i < |t| && i != n :: AllChildrenFailed(t, i) ==> t[i].failed
  }

  function Fail(t: Tree, n: nat): Tree
    requires n < |t|
  {
    t[n := t[n].(failed := true)]
  }

  /** Marks `n` failed when all its children are, and goes on upwards; the root is never marked. */
  function Prune(t: Tree, n: nat): (t': Tree)
    requires n < |t|
    ensures |t'| == |t|
    decreases n
  {
    if t[n].failed || !HasParent(t, n) || !AllChildrenFailed(t, n) then t
    else Prune(Fail(t, n), t[n].parent.value)
  }

  lemma {:induction false} FailShape(t: Tree, n: nat)
    requires WellFormed(t) && n < |t|
    ensures WellFormed(Fail(t, n))
  {
    SameLinks(t, Fail(t, n));
  }

  /** Pruning changes failure flags only, never the root's, and never a node that is not an ancestor. */
  lemma {:induction false} PruneKeeps(t: Tree, n: nat)
    requires WellFormed(t) && n < |t|
    ensures var t' := Prune(t, n);
            && WellFormed(t') && t'[0] == t[0]
            && forall i | 0 <= i < |t| :: t'[i] == t[i].(failed := t'[i].failed) && (t[i].failed ==> t'[i].failed)
    decreases n
  {
    if !t[n].failed && HasParent(t, n) && AllChildrenFailed(t, n) {
      assert Linked(t, n);
      FailShape(t, n);
      PruneKeeps(Fail(t, n), t[n].parent.value);
    }
  }

  /** Pruning restores the cascade and kills no node that has a live child. */
  lemma {:induction false} PruneRestores(t: Tree, n: nat)
    requires WellFormed(t) && DeadBelowFailed(t) && CascadedExcept(t, n) && n < |t|
    ensures DeadBelowFailed(Prune(t, n)) && Cascaded(Prune(t, n))
    decreases n
  {
    if n > 0 && !t[n].failed && AllChildrenFailed(t, n) {
      assert Linked(t, n);
      FailShape(t, n);
      var t' := Fail(t, n);
      var p := t[n].parent.value;
      forall i | 1 <= i < |t'| && t'[i].parent.Some? && t'[i].parent.value < |t'| && t'[t'[i].parent.value].failed
        ensures t'[i].failed
      {
        assert Linked(t, i);
      }
      forall i | 1 <= i < |t'| && i != p && AllChildrenFailed(t', i) ensures t'[i].failed {
        if i != n {
          assert Lists(t, i) && n !in t[i].children;
          assert AllChildrenFailed(t, i);
        }
      }
      PruneRestores(t', p);
    }
  }

  /** A live node stays live when it is a leaf of the tree. */
  lemma {:induction false} PruneSparesLeaves(t: Tree, n: nat, i: nat)
    requires WellFormed(t) && n < |t| && i < |t| && t[i].children == []
    ensures Prune(t, n)[i] == t[i]
    decreases n
  {
    if !t[n].failed && HasParent(t, n) && AllChildrenFailed(t, n) {
      assert Linked(t, n);
      FailShape(t, n);
      PruneSparesLeaves(Fail(t, n), t[n].parent.value, i);
    }
  }

  /** A live node has a live line to the root. */
  lemma {:induction false} LiveLineage(t: Tree, n: nat)
    requires WellFormed(t) && DeadBelowFailed(t) && n < |t| && !t[n].failed
    ensures forall a | a in Lineage(t, n) :: a < |t| && !t[a].failed
    decreases n
  {
    if n > 0 {
      assert Linked(t, n);
      LiveLineage(t, t[n].parent.value);
    }
  }

  /** Rejecting a childless node without pruning keeps the cascade exactly when its parent is the root, has
      failed already, or has another live child. */
  lemma {:induction false} LateRejectionKeepsCascadeIff(t: Tree, n: nat)
    requires WellFormed(t) && Cascaded(t) && 0 < n < |t| && t[n].children == []
    requires t[n].parent.Some? && t[n].parent.value < |t|
    ensures var p := t[n].parent.value;
            Cascaded(Fail(t, n)) <==>
              (p == 0 || t[p].failed || exists c | c in t[p].children :: c != n && c < |t| && !t[c].failed)
  {
    assert Linked(t, n);
    var p, t' := t[n].parent.value, Fail(t, n);
    forall i | 1 <= i < |t| && i != p && AllChildrenFailed(t', i) ensures t'[i].failed {
      assert Lists(t, i) && n !in t[i].children;
      if i != n {
        assert AllChildrenFailed(t, i);
      }
    }
    if p == 0 || t[p].failed {
      assert Cascaded(t');
    } else if c :| c in t[p].children && c != n && c < |t| && !t[c].failed {
      assert !AllChildrenFailed(t', p);
    } else {
      assert Lists(t, p);
      forall c | c in t'[p].children ensures c < |t'| && t'[c].failed {
        assert c in t[p].children;
      }
      assert AllChildrenFailed(t', p);
    }
  }
}
