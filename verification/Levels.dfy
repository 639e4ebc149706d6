/** Dependency levels of a plan: the recursive level assignment with its cycle check, and what it means. */
module Levels {

  /** What each step depends on, by step number. */
  type Deps = map<int, seq<int>>

  predicate Depends(deps: Deps, a: int, b: int) {
    a in deps && b in deps[a]
  }

  /** A walk along dependencies: each element depends on the next. */
  predicate Chain(deps: Deps, c: seq<int>) {
    && c != []
    && forall i | 0 <= i < |c| - 1 :: Depends(deps, c[i], c[i + 1])
  }

  /** A walk that comes back to where it started. */
  predicate Cycle(deps: Deps, c: seq<int>) {
    Chain(deps, c) && |c| >= 2 && c[0] == c[|c| - 1]
  }

  ghost predicate OnCycle(deps: Deps, n: int) {
    exists c :: Cycle(deps, c) && c[0] == n
  }

  ghost predicate DependedOn(deps: Deps, n: int) {
    exists m :: Depends(deps, m, n)
  }

  ghost predicate Acyclic(deps: Deps) {
    !exists c :: Cycle(deps, c)
  }

  /** Every dependency names a step of the plan. */
  ghost predicate Closed(deps: Deps) {
    forall a, b | Depends(deps, a, b) :: b in deps
  }

  function MaxLevel(level: map<int, nat>, ds: seq<int>): nat
    requires forall d | d in ds :: d in level
  {
    if ds == [] then 0 else
    var last := ds[|ds| - 1];
    var rest := MaxLevel(level, ds[..|ds| - 1]);
    if level[last] > rest then level[last] else rest
  }

  /** Level 0 without dependencies, otherwise one above the highest dependency. */
  function LevelAbove(level: map<int, nat>, ds: seq<int>): nat
    requires forall d | d in ds :: d in level
  {
    if ds == [] then 0 else MaxLevel(level, ds) + 1
  }

  /** `level` is closed under dependencies and gives each of its steps the level the rule demands. */
  ghost predicate Levelling(deps: Deps, level: map<int, nat>) {
    forall n | n in level ::
      n in deps && (forall d | d in deps[n] :: d in level) && level[n] == LevelAbove(level, deps[n])
  }

  lemma {:induction false} FrontOrLast(ds: seq<int>)
    requires ds != []
    ensures forall d :: d in ds <==> d in ds[..|ds| - 1] || d == ds[|ds| - 1]
  {
    assert ds == ds[..|ds| - 1] + [ds[|ds| - 1]];
  }

  lemma {:induction false} MaxLevelSpec(level: map<int, nat>, ds: seq<int>)
    requires forall d | d in ds :: d in level
    ensures forall d | d in ds :: level[d] <= MaxLevel(level, ds)
    ensures ds != [] ==> exists d | d in ds :: level[d] == MaxLevel(level, ds)
  {
    if ds != [] {
      var front, last := ds[..|ds| - 1], ds[|ds| - 1];
      FrontOrLast(ds);
      MaxLevelSpec(level, front);
      if front != [] && MaxLevel(level, front) >= level[last] {
        var d :| d in front && level[d] == MaxLevel(level, front);
        assert d in ds && level[d] == MaxLevel(level, ds);
      } else {
        assert last in ds && level[last] == MaxLevel(level, ds);
      }
    }
  }

  ghost predicate Kept(level: map<int, nat>, level': map<int, nat>) {
    forall m | m in level :: m in level' && level'[m] == level[m]
  }

  lemma {:induction false} MaxLevelNext(level: map<int, nat>, ds: seq<int>, i: nat, highest: nat)
    requires i < |ds| && (forall d | d in ds[..i] :: d in level) && ds[i] in level
    requires highest == MaxLevel(level, ds[..i])
    ensures forall d | d in ds[..i + 1] :: d in level
    ensures MaxLevel(level, ds[..i + 1]) == if level[ds[i]] > highest then level[ds[i]] else highest
  {
    assert ds[..i + 1] == ds[..i] + [ds[i]];
    assert ds[..i + 1][..i] == ds[..i];
  }

  lemma {:induction false} MaxLevelSame(level: map<int, nat>, level': map<int, nat>, ds: seq<int>)
    requires forall d | d in ds :: d in level && d in level' && level'[d] == level[d]
    ensures MaxLevel(level', ds) == MaxLevel(level, ds)
  {
    if ds != [] {
      MaxLevelSame(level, level', ds[..|ds| - 1]);
      assert ds[|ds| - 1] in ds;
    }
  }

  lemma {:induction false} LevelAboveDependencies(deps: Deps, level: map<int, nat>, a: int, b: int)
    requires Levelling(deps, level) && a in level && Depends(deps, a, b)
    ensures b in level && level[b] < level[a]
  {
    MaxLevelSpec(level, deps[a]);
  }

  /** A step's level is the length of the longest dependency chain below it: no chain from it has more than
      level + 1 steps, and one has exactly that many. */
  lemma {:induction false} LevelIsLongestChain(deps: Deps, level: map<int, nat>, n: int)
    requires Levelling(deps, level) && n in level
    ensures forall c | Chain(deps, c) && c[0] == n :: |c| <= level[n] + 1
    ensures exists c :: Chain(deps, c) && c[0] == n && |c| == level[n] + 1
    decreases level[n]
  {
    forall c | Chain(deps, c) && c[0] == n ensures |c| <= level[n] + 1 {
      ChainBound(deps, level, c);
    }
    if deps[n] == [] {
      assert Chain(deps, [n]) && |[n]| == level[n] + 1;
    } else {
      MaxLevelSpec(level, deps[n]);
      var d :| d in deps[n] && level[d] == MaxLevel(level, deps[n]);
      LevelIsLongestChain(deps, level, d);
      var c :| Chain(deps, c) && c[0] == d && |c| == level[d] + 1;
      ChainExtends(deps, n, c);
      assert |[n] + c| == level[n] + 1;
    }
  }

  lemma {:induction false} ChainExtends(deps: Deps, n: int, c: seq<int>)
    requires Chain(deps, c) && Depends(deps, n, c[0])
    ensures Chain(deps, [n] + c) && ([n] + c)[0] == n
  {
    var longer := [n] + c;
    forall i | 0 <= i < |longer| - 1 ensures Depends(deps, longer[i], longer[i + 1]) {
      if i > 0 {
        assert longer[i] == c[i - 1] && longer[i + 1] == c[i - 1 + 1];
      }
    }
  }

  lemma {:induction false} ChainBound(deps: Deps, level: map<int, nat>, c: seq<int>)
    requires Levelling(deps, level) && Chain(deps, c) && c[0] in level
    ensures c[|c| - 1] in level && |c| - 1 + level[c[|c| - 1]] <= level[c[0]]
  {
    if |c| > 1 {
      LevelAboveDependencies(deps, level, c[0], c[1]);
      var rest := c[1..];
      forall i | 0 <= i < |rest| - 1 ensures Depends(deps, rest[i], rest[i + 1]) {
        assert rest[i] == c[i + 1] && rest[i + 1] == c[i + 1 + 1];
      }
      ChainBound(deps, level, rest);
    }
  }

  lemma {:induction false} LevelledHasNoCycle(deps: Deps, level: map<int, nat>, c: seq<int>)
    requires Levelling(deps, level) && level.Keys == deps.Keys
    ensures !Cycle(deps, c)
  {
    if Cycle(deps, c) {
      assert Depends(deps, c[0], c[0 + 1]);
      ChainBound(deps, level, c);
    }
  }

  /** A plan has at most one levelling. */
  lemma {:induction false} LevellingUnique(deps: Deps, level: map<int, nat>, level': map<int, nat>, n: int)
    requires Levelling(deps, level) && Levelling(deps, level') && n in level && n in level'
    ensures level[n] == level'[n]
  {
    LevelIsLongestChain(deps, level, n);
    LevelIsLongestChain(deps, level', n);
    var c :| Chain(deps, c) && c[0] == n && |c| == level[n] + 1;
    var c' :| Chain(deps, c') && c'[0] == n && |c'| == level'[n] + 1;
  }

  /******* The recursive assignment *******/

  datatype LevelResult = Level(level: nat) | Circular(step: int) | UnknownStep(step: int)

  /** `trail` is the dependency walk from the step first asked for to `n`, through the steps being visited. */
  ghost predicate Trail(deps: Deps, trail: seq<int>, visited: set<int>, n: int) {
    && Chain(deps, trail + [n])
    && (forall v | v in visited :: v in trail)
    && (forall v | v in trail :: v in visited)
  }

  lemma {:induction false} TrailExtends(deps: Deps, trail: seq<int>, visited: set<int>, n: int, d: int)
    requires Trail(deps, trail, visited, n) && Depends(deps, n, d)
    ensures Trail(deps, trail + [n], visited + {n}, d)
  {
    var c := trail + [n];
    forall i | 0 <= i < |c + [d]| - 1 ensures Depends(deps, (c + [d])[i], (c + [d])[i + 1]) {
      if i < |c| - 1 {
        assert Depends(deps, c[i], c[i + 1]);
      }
    }
  }

  lemma {:induction false} TrailCloses(deps: Deps, trail: seq<int>, visited: set<int>, n: int)
    requires Trail(deps, trail, visited, n) && n in visited
    ensures OnCycle(deps, n)
  {
    var j :| 0 <= j < |trail| && trail[j] == n;
    var c := (trail + [n])[j..];
    forall i | 0 <= i < |c| - 1 ensures Depends(deps, c[i], c[i + 1]) {
      assert c[i] == (trail + [n])[i + j] && c[i + 1] == (trail + [n])[i + j + 1];
    }
    assert Cycle(deps, c);
  }

  class LevelBuilder {
    const deps: Deps
    var levelOf: map<int, nat>

    ghost predicate Valid()
      reads this
    {
      Levelling(deps, levelOf)
    }

    constructor (deps: Deps)
      ensures this.deps == deps && Valid() && levelOf == map[]
    {
      this.deps, levelOf := deps, map[];
    }

    /** The level of step `n`, computed and remembered; a step met again while it is still being visited, or
        a dependency that is no step, stops the computation. */
    method GetLevel(n: int, visited: set<int>, ghost trail: seq<int>) returns (r: LevelResult)
      requires Valid() && levelOf.Keys !! visited && visited <= deps.Keys
      requires Trail(deps, trail, visited, n)
      modifies this`levelOf
      ensures Valid() && levelOf.Keys !! visited
      ensures Kept(old(levelOf), levelOf)
      ensures r.Level? ==> n in levelOf && levelOf[n] == r.level
      ensures r.Circular? ==> OnCycle(deps, r.step)
      ensures r.UnknownStep? ==> r.step !in deps && (r.step == n || DependedOn(deps, r.step))
      decreases deps.Keys - visited, 1
    {
      if n in levelOf {
        return Level(levelOf[n]);
      }
      if n in visited {
        TrailCloses(deps, trail, visited, n);
        return Circular(n);
      }
      if n !in deps {
        return UnknownStep(n);
      }
      r := Highest(n, visited, trail);
      if r.Level? {
        ghost var before := levelOf;
        levelOf := levelOf[n := r.level];
        Remembered(before, n);
      }
    }

    /** One above the highest level among the dependencies of `n`, or 0 when it has none. */
    method Highest(n: int, visited: set<int>, ghost trail: seq<int>) returns (r: LevelResult)
      requires Valid() && levelOf.Keys !! visited && visited <= deps.Keys
      requires Trail(deps, trail, visited, n) && n in deps && n !in visited && n !in levelOf
      modifies this`levelOf
      ensures Valid() && levelOf.Keys !! visited + {n}
      ensures Kept(old(levelOf), levelOf)
      ensures r.Level? ==> (forall d | d in deps[n] :: d in levelOf) && r.level == LevelAbove(levelOf, deps[n])
      ensures r.Circular? ==> OnCycle(deps, r.step)
      ensures r.UnknownStep? ==> r.step !in deps && DependedOn(deps, r.step)
      decreases deps.Keys - visited, 0
    {
      var ds := deps[n];
      var highest := 0;
      for i := 0 to |ds|
        invariant Valid() && levelOf.Keys !! visited + {n}
        invariant Kept(old(levelOf), levelOf)
        invariant forall d | d in ds[..i] :: d in levelOf
        invariant highest == MaxLevel(levelOf, ds[..i])
      {
        TrailExtends(deps, trail, visited, n, ds[i]);
        assert Depends(deps, n, ds[i]);
        ghost var before := levelOf;
        r := GetLevel(ds[i], visited + {n}, trail + [n]);
        if !r.Level? {
          return;
        }
        MaxLevelSame(before, levelOf, ds[..i]);
        MaxLevelNext(levelOf, ds, i, highest);
        highest := if r.level > highest then r.level else highest;
      }
      assert ds[..|ds|] == ds;
      r := Level(if ds == [] then 0 else highest + 1);
    }

    /** Storing the level of a step whose dependencies are all assigned keeps the assignment a levelling. */
    lemma {:induction false} Remembered(before: map<int, nat>, n: int)
      requires Levelling(deps, before) && n in deps && n !in before && (forall d | d in deps[n] :: d in before)
      requires levelOf == before[n := LevelAbove(before, deps[n])]
      ensures Valid()
    {
      forall m | m in levelOf
        ensures m in deps && (forall d | d in deps[m] :: d in levelOf) && levelOf[m] == LevelAbove(levelOf, deps[m])
      {
        MaxLevelSame(before, levelOf, deps[m]);
      }
    }

    /** Every step in plan order. Success and failure are both exact: all steps get their level if and only if
        every dependency is a step and nothing depends on itself. */
    method BuildLevels(numbers: seq<int>) returns (r: LevelResult)
      requires Valid() && levelOf == map[]
      requires forall n :: n in deps <==> n in numbers
      modifies this`levelOf
      ensures Valid()
      ensures r.Level? ==> levelOf.Keys == deps.Keys
      ensures r.Level? <==> Acyclic(deps) && Closed(deps)
      ensures r.Circular? ==> OnCycle(deps, r.step)
      ensures r.UnknownStep? ==> r.step !in deps && DependedOn(deps, r.step)
    {
      for i := 0 to |numbers|
        invariant Valid()
        invariant forall n | n in numbers[..i] :: n in levelOf
      {
        assert numbers[i] in numbers;
        r := GetLevel(numbers[i], {}, []);
        if !r.Level? {
          return;
        }
      }
      assert numbers[..|numbers|] == numbers;
      assert forall n :: n in levelOf.Keys <==> n in deps.Keys;
      forall c ensures !Cycle(deps, c) {
        LevelledHasNoCycle(deps, levelOf, c);
      }
      r := Level(0);
    }
  }
}
