/** The iteration limits of consulting peers: what all runs of a peer take together, and exactly when each single run
    keeps to its limit although the peer may be consulted again while it waits. */
module PeerLimits {
  import opened Values
  import opened PeerNetwork

  /******* Turns *******/

  function OpenRuns(stack: seq<Frame>, a: string): nat {
    if stack == [] then 0 else
    OpenRuns(stack[..|stack| - 1], a) + if stack[|stack| - 1].agent == a then 1 else 0
  }

  function OpenTurns(stack: seq<Frame>, a: string): nat {
    if stack == [] then 0 else
    OpenTurns(stack[..|stack| - 1], a) + if stack[|stack| - 1].agent == a then stack[|stack| - 1].turns else 0
  }

  function ClosedRuns(done: seq<Closed>, a: string): nat {
    if done == [] then 0 else
    ClosedRuns(done[..|done| - 1], a) + if done[|done| - 1].agent == a then 1 else 0
  }

  function ClosedTurns(done: seq<Closed>, a: string): nat {
    if done == [] then 0 else
    ClosedTurns(done[..|done| - 1], a) + if done[|done| - 1].agent == a then done[|done| - 1].turns else 0
  }

  function RunsOf(s: State, a: string): nat {
    OpenRuns(s.stack, a) + ClosedRuns(s.done, a)
  }

  function TurnsOf(s: State, a: string): nat {
    OpenTurns(s.stack, a) + ClosedTurns(s.done, a)
  }

  /** What the counter of an agent still admits is covered by the runs it has begun. */
  predicate Covered(net: Net, s: State, a: string)
    requires Sound(net, s) && a in net.peers
  {
    var limit := net.peers[a].limit;
    if RunsOf(s, a) == 0 then TurnsOf(s, a) == 0
    else TurnsOf(s, a) + (if s.counts[a] < limit then limit - s.counts[a] else 0) <= limit * RunsOf(s, a)
  }

  lemma {:induction false} PushedFrame(stack: seq<Frame>, f: Frame, a: string)
    ensures OpenRuns(stack + [f], a) == OpenRuns(stack, a) + if f.agent == a then 1 else 0
    ensures OpenTurns(stack + [f], a) == OpenTurns(stack, a) + if f.agent == a then f.turns else 0
  {
    assert (stack + [f])[..|stack|] == stack;
  }

  lemma {:induction false} ClosedOne(done: seq<Closed>, c: Closed, a: string)
    ensures ClosedRuns(done + [c], a) == ClosedRuns(done, a) + if c.agent == a then 1 else 0
    ensures ClosedTurns(done + [c], a) == ClosedTurns(done, a) + if c.agent == a then c.turns else 0
  {
    assert (done + [c])[..|done|] == done;
  }

  lemma {:induction false} OneMore(limit: nat, n: nat)
    ensures limit * (n + 1) == limit * n + limit
  {
  }

  lemma {:induction false} OpenedCovers(net: Net, s: State, b: string, key: Option<string>, a: string)
    requires Sound(net, s) && a in net.peers && b in net.peers && Covered(net, s, a)
    ensures Covered(net, Opened(s, b, key), a)
  {
    PushedFrame(s.stack, Frame(b, key, 0), a);
    if a == b {
      OneMore(net.peers[a].limit, RunsOf(s, a));
    }
  }

  lemma {:induction false} TurnedCovers(net: Net, s: State, a: string)
    requires Sound(net, s) && s.stack != [] && a in net.peers && Covered(net, s, a)
    requires s.counts[Top(s).agent] < net.peers[Top(s).agent].limit
    ensures Covered(net, Turned(s), a)
  {
    var top := Top(s);
    assert s.stack == Below(s) + [top];
    PushedFrame(Below(s), top, a);
    PushedFrame(Below(s), top.(turns := top.turns + 1), a);
  }

  lemma {:induction false} LeftCovers(net: Net, s: State, cut: bool, a: string)
    requires Sound(net, s) && s.stack != [] && a in net.peers && Covered(net, s, a)
    ensures Covered(net, Left(s, cut), a)
  {
    var top := Top(s);
    assert s.stack == Below(s) + [top];
    PushedFrame(Below(s), top, a);
    ClosedOne(s.done, Closed(top.agent, top.turns, cut), a);
  }

  lemma {:induction false} CutCovers(net: Net, s: State, a: string)
    requires Sound(net, s) && Enabled(net, s, Cut) && a in net.peers && Covered(net, s, a)
    ensures Covered(net, Apply(net, s, Cut), a)
  {
    var b := Top(s).agent;
    var counted := s.(counts := s.counts[b := s.counts[b] + 1]);
    assert RunsOf(counted, a) == RunsOf(s, a) && TurnsOf(counted, a) == TurnsOf(s, a);
    LeftCovers(net, counted, true, a);
  }

  lemma {:induction false} ConsultCovers(net: Net, s: State, to: string, a: string)
    requires Sound(net, s) && Enabled(net, s, Consult(to)) && a in net.peers && Covered(net, s, a)
    ensures Covered(net, Apply(net, s, Consult(to)), a)
  {
    var charged := Charged(net, s, to);
    assert RunsOf(charged, a) == RunsOf(s, a) && TurnsOf(charged, a) == TurnsOf(s, a);
    OpenedCovers(net, charged, to, net.peers[to].thread, a);
  }

  lemma {:induction false} ApplyCovers(net: Net, s: State, m: Move, a: string)
    requires Sound(net, s) && Enabled(net, s, m) && a in net.peers && Covered(net, s, a)
    ensures Covered(net, Apply(net, s, m), a)
  {
    match m
    case Begin(entry, key) => OpenedCovers(net, s, entry, key, a);
    case Think => TurnedCovers(net, s, a);
    case Answer =>
      TurnedCovers(net, s, a);
      LeftCovers(net, Turned(s), false, a);
    case Cut => CutCovers(net, s, a);
    case Fail => LeftCovers(net, s, false, a);
    case Consult(to) => ConsultCovers(net, s, to, a);
  }

  /** A peer never takes more turns than its limit allows for all its runs together, in whatever way runs of it are
      nested in one another. */
  lemma {:induction false} TurnsPerPeer(net: Net, s: State, moves: seq<Move>, a: string)
    requires Sound(net, s) && a in net.peers && Covered(net, s, a) && Exec(net, s, moves).Some?
    ensures var t := Exec(net, s, moves).value;
            Covered(net, t, a) && TurnsOf(t, a) <= net.peers[a].limit * RunsOf(t, a)
    decreases moves
  {
    if moves != [] {
      ApplyCovers(net, s, moves[0], a);
      TurnsPerPeer(net, Apply(net, s, moves[0]), moves[1..], a);
    }
  }

  /** The sum of `f` over a list of peers. */
  function Sum(names: seq<string>, f: string -> nat): nat {
    if names == [] then 0 else f(names[0]) + Sum(names[1..], f)
  }

  ghost predicate Listed(names: seq<string>, all: set<string>) {
    (forall a :: a in all <==> a in names) && forall i, j | 0 <= i < j < |names| :: names[i] != names[j]
  }

  lemma {:induction false} SumPlus(names: seq<string>, f: string -> nat, g: string -> nat, h: string -> nat)
    requires forall a :: h(a) == f(a) + g(a)
    ensures Sum(names, h) == Sum(names, f) + Sum(names, g)
  {
    if names != [] {
      SumPlus(names[1..], f, g, h);
    }
  }

  /** A function that is `n` at one listed peer and zero elsewhere sums to `n`. */
  lemma {:induction false} SumOne(names: seq<string>, b: string, n: nat, f: string -> nat)
    requires forall i, j | 0 <= i < j < |names| :: names[i] != names[j]
    requires forall a :: f(a) == if a == b then n else 0
    ensures Sum(names, f) == if b in names then n else 0
  {
    if names != [] {
      SumOne(names[1..], b, n, f);
    }
  }

  lemma {:induction false} SumAtMost(names: seq<string>, f: string -> nat, g: string -> nat, most: nat)
    requires forall i | 0 <= i < |names| :: f(names[i]) <= most * g(names[i])
    ensures Sum(names, f) <= most * Sum(names, g)
  {
    if names != [] {
      SumAtMost(names[1..], f, g, most);
      assert most * (g(names[0]) + Sum(names[1..], g)) == most * g(names[0]) + most * Sum(names[1..], g);
    }
  }

  lemma {:induction false} SumZero(names: seq<string>, f: string -> nat)
    requires forall a :: f(a) == 0
    ensures Sum(names, f) == 0
  {
    if names != [] {
      SumZero(names[1..], f);
    }
  }

  function OpenRunsAt(stack: seq<Frame>): string -> nat {
    a => OpenRuns(stack, a)
  }

  function ClosedRunsAt(done: seq<Closed>): string -> nat {
    a => ClosedRuns(done, a)
  }

  function RunsAt(s: State): string -> nat {
    a => RunsOf(s, a)
  }

  function TurnsAt(s: State): string -> nat {
    a => TurnsOf(s, a)
  }

  function OneAt(b: string): string -> nat {
    a => if a == b then 1 else 0
  }

  /** Every open run is a run of exactly one listed peer. */
  lemma {:induction false} OpenRunsSum(names: seq<string>, all: set<string>, stack: seq<Frame>)
    requires Listed(names, all) && forall i | 0 <= i < |stack| :: stack[i].agent in all
    ensures Sum(names, OpenRunsAt(stack)) == |stack|
    decreases stack
  {
    if stack == [] {
      SumZero(names, OpenRunsAt(stack));
    } else {
      var rest, last := stack[..|stack| - 1], stack[|stack| - 1];
      OpenRunsSum(names, all, rest);
      SumOne(names, last.agent, 1, OneAt(last.agent));
      SumPlus(names, OpenRunsAt(rest), OneAt(last.agent), OpenRunsAt(stack));
    }
  }

  lemma {:induction false} ClosedRunsSum(names: seq<string>, all: set<string>, done: seq<Closed>)
    requires Listed(names, all) && forall i | 0 <= i < |done| :: done[i].agent in all
    ensures Sum(names, ClosedRunsAt(done)) == |done|
    decreases done
  {
    if done == [] {
      SumZero(names, ClosedRunsAt(done));
    } else {
      var rest, last := done[..|done| - 1], done[|done| - 1];
      ClosedRunsSum(names, all, rest);
      SumOne(names, last.agent, 1, OneAt(last.agent));
      SumPlus(names, ClosedRunsAt(rest), OneAt(last.agent), ClosedRunsAt(done));
    }
  }

  /** The turns in a history. */
  function Taken(moves: seq<Move>): nat {
    if moves == [] then 0 else (if moves[0].Think? || moves[0].Answer? then 1 else 0) + Taken(moves[1..])
  }

  /** A move takes a turn of the running agent or of nobody. */
  lemma {:induction false} MoveTakes(net: Net, s: State, m: Move, a: string)
    requires Sound(net, s) && Enabled(net, s, m)
    ensures TurnsOf(Apply(net, s, m), a) ==
              TurnsOf(s, a) + if (m.Think? || m.Answer?) && Top(s).agent == a then 1 else 0
  {
    if m.Begin? {
      PushedFrame(s.stack, Frame(m.entry, m.key, 0), a);
    } else {
      var top, turned := Top(s), Top(s).(turns := Top(s).turns + 1);
      assert s.stack == Below(s) + [top];
      PushedFrame(Below(s), top, a);
      PushedFrame(Below(s), turned, a);
      ClosedOne(s.done, Closed(top.agent, top.turns, m.Cut?), a);
      ClosedOne(s.done, Closed(top.agent, turned.turns, false), a);
      if m.Consult? && m.to in net.peers {
        PushedFrame(s.stack, Frame(m.to, net.peers[m.to].thread, 0), a);
      }
      if m.Answer? {
        assert Below(Turned(s)) == Below(s);
      }
    }
  }

  lemma {:induction false} SumSame(names: seq<string>, f: string -> nat, g: string -> nat)
    requires forall a :: f(a) == g(a)
    ensures Sum(names, f) == Sum(names, g)
  {
    if names != [] {
      SumSame(names[1..], f, g);
    }
  }

  lemma {:induction false} MoveTakesOne(net: Net, names: seq<string>, s: State, m: Move)
    requires Sound(net, s) && Listed(names, net.peers.Keys) && Enabled(net, s, m)
    ensures Sum(names, TurnsAt(Apply(net, s, m))) == Sum(names, TurnsAt(s)) + if m.Think? || m.Answer? then 1 else 0
  {
    var t := Apply(net, s, m);
    forall a ensures TurnsOf(t, a) == TurnsOf(s, a) + if (m.Think? || m.Answer?) && Top(s).agent == a then 1 else 0 {
      MoveTakes(net, s, m, a);
    }
    if m.Think? || m.Answer? {
      SumOne(names, Top(s).agent, 1, OneAt(Top(s).agent));
      SumPlus(names, TurnsAt(s), OneAt(Top(s).agent), TurnsAt(t));
    } else {
      SumSame(names, TurnsAt(s), TurnsAt(t));
    }
  }

  lemma {:induction false} TurnsTaken(net: Net, names: seq<string>, s: State, moves: seq<Move>)
    requires Sound(net, s) && Listed(names, net.peers.Keys) && Exec(net, s, moves).Some?
    ensures Sum(names, TurnsAt(Exec(net, s, moves).value)) == Sum(names, TurnsAt(s)) + Taken(moves)
    decreases moves
  {
    if moves != [] {
      MoveTakesOne(net, names, s, moves[0]);
      TurnsTaken(net, names, Apply(net, s, moves[0]), moves[1..]);
    }
  }

  lemma {:induction false} RunsSum(net: Net, names: seq<string>, s: State)
    requires Sound(net, s) && Listed(names, net.peers.Keys) && forall i | 0 <= i < |s.done| :: s.done[i].agent in net.peers
    ensures Sum(names, RunsAt(s)) == Runs(s)
  {
    OpenRunsSum(names, net.peers.Keys, s.stack);
    ClosedRunsSum(names, net.peers.Keys, s.done);
    SumPlus(names, OpenRunsAt(s.stack), ClosedRunsAt(s.done), RunsAt(s));
  }

  lemma {:induction false} TurnsPerRun(net: Net, names: seq<string>, moves: seq<Move>, most: nat)
    requires Listed(names, net.peers.Keys) && Exec(net, Start(net), moves).Some?
    requires forall a | a in net.peers :: net.peers[a].limit <= most
    ensures var t := Exec(net, Start(net), moves).value; Sum(names, TurnsAt(t)) <= most * Sum(names, RunsAt(t))
  {
    var t := Exec(net, Start(net), moves).value;
    forall i | 0 <= i < |names| ensures TurnsOf(t, names[i]) <= most * RunsOf(t, names[i]) {
      TurnsPerPeer(net, Start(net), moves, names[i]);
      Scaled(net.peers[names[i]].limit, most, RunsOf(t, names[i]));
    }
    SumAtMost(names, TurnsAt(t), RunsAt(t), most);
  }

  lemma {:induction false} RunsAreBounded(net: Net, moves: seq<Move>)
    requires Exec(net, Start(net), moves).Some?
    ensures Runs(Exec(net, Start(net), moves).value) <= Begins(moves) + net.max
  {
    LedgerHolds(net, Start(net), moves);
  }

  lemma {:induction false} TakenInAll(net: Net, names: seq<string>, moves: seq<Move>)
    requires Listed(names, net.peers.Keys) && Exec(net, Start(net), moves).Some?
    ensures Taken(moves) == Sum(names, TurnsAt(Exec(net, Start(net), moves).value))
  {
    TurnsTaken(net, names, Start(net), moves);
    SumZero(names, TurnsAt(Start(net)));
  }

  lemma {:induction false} BegunInAll(net: Net, names: seq<string>, moves: seq<Move>)
    requires Listed(names, net.peers.Keys) && Exec(net, Start(net), moves).Some?
    ensures Sum(names, RunsAt(Exec(net, Start(net), moves).value)) <= Begins(moves) + net.max
  {
    ClosedKnown(net, Start(net), moves);
    RunsSum(net, names, Exec(net, Start(net), moves).value);
    RunsAreBounded(net, moves);
  }

  /** Whatever the agents do, a network run takes no more turns than the greatest limit admits for the first run and
      every consultation in the budget: it ends. */
  lemma {:induction false} TurnsAreBounded(net: Net, names: seq<string>, moves: seq<Move>, most: nat, runs: nat)
    requires Listed(names, net.peers.Keys) && Exec(net, Start(net), moves).Some?
    requires runs == Begins(moves) + net.max && forall a | a in net.peers :: net.peers[a].limit <= most
    ensures Taken(moves) <= most * runs
  {
    var begun := Sum(names, RunsAt(Exec(net, Start(net), moves).value));
    assert begun <= runs by { BegunInAll(net, names, moves); }
    assert Taken(moves) <= most * begun by {
      TakenInAll(net, names, moves);
      TurnsPerRun(net, names, moves, most);
    }
    Within(Taken(moves), most, begun, runs);
  }

  lemma {:induction false} Within(taken: nat, most: nat, runs: nat, bound: nat)
    requires taken <= most * runs && runs <= bound
    ensures taken <= most * bound
  {
    Scaled(runs, bound, most);
  }

  lemma {:induction false} Scaled(a: nat, b: nat, c: nat)
    requires a <= b
    ensures a * c <= b * c && c * a <= c * b
  {
  }

  lemma {:induction false} ClosedKnown(net: Net, s: State, moves: seq<Move>)
    requires Sound(net, s) && Exec(net, s, moves).Some? && forall i | 0 <= i < |s.done| :: s.done[i].agent in net.peers
    ensures forall i | 0 <= i < |Exec(net, s, moves).value.done| :: Exec(net, s, moves).value.done[i].agent in net.peers
    decreases moves
  {
    if moves != [] {
      ClosedKnown(net, Apply(net, s, moves[0]), moves[1..]);
    }
  }

  /******* The limit of one run *******/

  /** The thread the run at place `i` of a chain holds, when the first run was given `key`. */
  function KeyAt(net: Net, key: Option<string>, p: seq<string>, i: nat): Option<string>
    requires i < |p| && p[i] in net.peers
  {
    if i == 0 then key else net.peers[p[i]].thread
  }

  /** Along the chain `p` of waiting runs its last peer may consult `to`, whose thread is free. */
  ghost predicate MayConsult(net: Net, key: Option<string>, p: seq<string>, to: string)
    requires p != [] && forall i | 0 <= i < |p| :: p[i] in net.peers
  {
    && to in net.peers && to in net.peers[p[|p| - 1]].allowed
    && (net.peers[to].thread.Some? ==>
          forall i | 0 <= i < |p| && p[i] == to :: KeyAt(net, key, p, i) != net.peers[to].thread)
  }

  /** No run is open; earlier runs may have spent some of the budget and left any counters behind. */
  predicate Idle(net: Net, s: State) {
    Sound(net, s) && s.stack == [] && s.used <= net.max
  }

  /** A chain of nested consultations that can come about, starting with the run of `entry` on thread `key`. */
  ghost predicate Chain(net: Net, entry: string, key: Option<string>, p: seq<string>) {
    && p != [] && p[0] == entry && (forall i | 0 <= i < |p| :: p[i] in net.peers)
    && forall i | 0 < i < |p| :: MayConsult(net, key, p[..i], p[i])
  }

  /** Within what is left of the budget, after `base` consultations, no peer with a limit above one can be consulted
      again while a run of it waits. */
  ghost predicate NoReentry(net: Net, entry: string, key: Option<string>, base: nat) {
    forall p, i, j :: Chain(net, entry, key, p) && |p| <= net.max - base + 1 && 0 <= i < j < |p| && p[i] == p[j] ==>
      net.peers[p[i]].limit == 1
  }

  /** No run begun since `s0` took more turns than the limit of its peer, and the limit closed only runs that had used
      it up. */
  ghost predicate Limited(net: Net, s0: State, s: State)
    requires Sound(net, s)
  {
    && (forall i | 0 <= i < |s.stack| :: s.stack[i].turns <= net.peers[s.stack[i].agent].limit)
    && forall i | |s0.done| <= i < |s.done| :: Fair(net, s.done[i])
  }

  predicate Fair(net: Net, c: Closed) {
    c.agent in net.peers && c.turns <= net.peers[c.agent].limit && (c.cut ==> c.turns == net.peers[c.agent].limit)
  }

  function Agents(stack: seq<Frame>): (p: seq<string>)
    ensures |p| == |stack| && forall i | 0 <= i < |p| :: p[i] == stack[i].agent
  {
    seq(|stack|, i requires 0 <= i < |stack| => stack[i].agent)
  }

  ghost predicate Innermost(stack: seq<Frame>, i: nat) {
    i < |stack| && forall j | i < j < |stack| :: stack[j].agent != stack[i].agent
  }

  /** What the counter of the peer at place `i` of the stack says about its innermost run. */
  ghost predicate Told(net: Net, s: State, i: nat)
    requires Sound(net, s) && i < |s.stack|
  {
    var f := s.stack[i];
    && f.turns <= net.peers[f.agent].limit
    && (i < |s.stack| - 1 ==> f.turns >= 1)
    && (Innermost(s.stack, i) ==>
          && s.counts[f.agent] >= f.turns
          && (net.peers[f.agent].limit > 1 || f.turns == 0 ==> s.counts[f.agent] == f.turns))
  }

  /** The open runs are such a chain. */
  ghost predicate Chained(net: Net, entry: string, key: Option<string>, stack: seq<Frame>) {
    stack != [] ==>
      && Chain(net, entry, key, Agents(stack))
      && forall i | 0 <= i < |stack| :: stack[i].key == KeyAt(net, key, Agents(stack), i)
  }

  ghost predicate AllTold(net: Net, s: State)
    requires Sound(net, s)
  {
    forall i | 0 <= i < |s.stack| :: Told(net, s, i)
  }

  lemma {:induction false} StillInnermost(stack: seq<Frame>, more: seq<Frame>, i: nat)
    requires i < |stack| <= |more| && Innermost(more, i)
    requires forall j | 0 <= j < |stack| :: more[j].agent == stack[j].agent
    ensures Innermost(stack, i)
  {
    forall j | i < j < |stack| ensures stack[j].agent != stack[i].agent {
      assert more[j].agent != more[i].agent;
    }
  }

  lemma {:induction false} TurnedIsTold(net: Net, s: State)
    requires Sound(net, s) && s.stack != [] && AllTold(net, s)
    requires s.counts[Top(s).agent] < net.peers[Top(s).agent].limit
    ensures AllTold(net, Turned(s))
  {
    var n, t := |s.stack| - 1, Turned(s);
    forall i | 0 <= i < |t.stack| ensures Told(net, t, i) {
      assert Told(net, s, i) && Told(net, s, n);
      if Innermost(t.stack, i) {
        StillInnermost(s.stack, t.stack, i);
      }
    }
  }

  /** When a run leaves, the run of the same peer that waited below it, if any, finds its counter in use. */
  lemma {:induction false} LeftIsTold(net: Net, s: State, t: State, c: nat)
    requires Sound(net, s) && s.stack != [] && AllTold(net, s) && c >= 1
    requires forall i | 0 <= i < |s.stack| - 1 && s.stack[i].agent == Top(s).agent :: net.peers[Top(s).agent].limit == 1
    requires t.stack == Below(s) && t.counts == s.counts[Top(s).agent := c]
    ensures Sound(net, t) && AllTold(net, t)
  {
    forall i | 0 <= i < |t.stack| ensures Told(net, t, i) {
      assert Told(net, s, i);
      if Innermost(t.stack, i) && s.stack[i].agent != Top(s).agent {
        assert Innermost(s.stack, i);
      }
    }
  }

  lemma {:induction false} OpenedIsTold(net: Net, s: State, to: string, key: Option<string>)
    requires Sound(net, s) && AllTold(net, s) && to in net.peers && (s.stack != [] ==> Top(s).turns >= 1)
    ensures AllTold(net, Opened(s, to, key))
  {
    var n, t := |s.stack|, Opened(s, to, key);
    forall i | 0 <= i < |t.stack| ensures Told(net, t, i) {
      if i < n {
        assert Told(net, s, i);
        if Innermost(t.stack, i) {
          assert t.stack[n].agent == to;
          StillInnermost(s.stack, t.stack, i);
        }
      }
    }
  }

  lemma {:induction false} SameChain(net: Net, entry: string, key: Option<string>, a: seq<Frame>, b: seq<Frame>)
    requires Chained(net, entry, key, a) && |a| == |b|
    requires forall i | 0 <= i < |a| :: a[i].agent == b[i].agent && a[i].key == b[i].key
    ensures Chained(net, entry, key, b)
  {
    assert Agents(a) == Agents(b);
  }

  lemma {:induction false} ShorterChain(net: Net, entry: string, key: Option<string>, stack: seq<Frame>)
    requires stack != [] && Chained(net, entry, key, stack)
    ensures Chained(net, entry, key, stack[..|stack| - 1])
  {
    var p, less := Agents(stack), stack[..|stack| - 1];
    assert Agents(less) == p[..|p| - 1];
    forall i | 0 < i < |less| ensures MayConsult(net, key, Agents(less)[..i], Agents(less)[i]) {
      assert Agents(less)[..i] == p[..i];
    }
  }

  lemma {:induction false} ChainGrows(net: Net, entry: string, key: Option<string>, p: seq<string>, to: string)
    requires Chain(net, entry, key, p) && MayConsult(net, key, p, to)
    ensures Chain(net, entry, key, p + [to])
  {
    forall i | 0 < i <= |p| ensures MayConsult(net, key, (p + [to])[..i], (p + [to])[i]) {
      assert (p + [to])[..i] == p[..i] && p[..|p|] == p;
    }
  }

  lemma {:induction false} FreeMayConsult(net: Net, entry: string, key: Option<string>, stack: seq<Frame>, to: string)
    requires stack != [] && Chained(net, entry, key, stack) && to in net.peers
    requires to in net.peers[stack[|stack| - 1].agent].allowed && !Held(net, stack, to)
    ensures MayConsult(net, key, Agents(stack), to)
  {
  }

  lemma {:induction false} LongerChain(net: Net, entry: string, key: Option<string>, stack: seq<Frame>, to: string)
    requires stack != [] && Chained(net, entry, key, stack) && to in net.peers
    requires to in net.peers[stack[|stack| - 1].agent].allowed && !Held(net, stack, to)
    ensures Chained(net, entry, key, stack + [Frame(to, net.peers[to].thread, 0)])
  {
    var p, more := Agents(stack), stack + [Frame(to, net.peers[to].thread, 0)];
    FreeMayConsult(net, entry, key, stack, to);
    ChainGrows(net, entry, key, p, to);
    assert Agents(more) == p + [to];
    forall i | 0 <= i < |more| ensures more[i].key == KeyAt(net, key, Agents(more), i) {
      assert i < |stack| ==> stack[i].key == KeyAt(net, key, p, i);
    }
  }

  /** The peer of the topmost run waits in no other run, or its limit is one. */
  lemma {:induction false} TopIsAlone(net: Net, entry: string, key: Option<string>, base: nat, s: State)
    requires Sound(net, s) && s.stack != [] && Chained(net, entry, key, s.stack) && NoReentry(net, entry, key, base)
    requires |s.stack| <= net.max - base + 1
    ensures forall i | 0 <= i < |s.stack| - 1 && s.stack[i].agent == Top(s).agent :: net.peers[Top(s).agent].limit == 1
  {
    var p, n := Agents(s.stack), |s.stack| - 1;
    forall i | 0 <= i < n && s.stack[i].agent == Top(s).agent ensures net.peers[Top(s).agent].limit == 1 {
      assert p[i] == p[n];
    }
  }

  ghost predicate Tame(net: Net, entry: string, key: Option<string>, s0: State, s: State)
    requires Sound(net, s)
  {
    && AllTold(net, s) && (forall i | |s0.done| <= i < |s.done| :: Fair(net, s.done[i])) && |s0.done| <= |s.done|
    && Chained(net, entry, key, s.stack) && |s.stack| <= s.used - s0.used + 1 && s0.used <= s.used <= net.max
  }

  lemma {:induction false} ThinkStaysTame(net: Net, entry: string, key: Option<string>, s0: State, s: State)
    requires Sound(net, s) && Tame(net, entry, key, s0, s) && Enabled(net, s, Think)
    ensures Tame(net, entry, key, s0, Turned(s))
  {
    TurnedIsTold(net, s);
    SameChain(net, entry, key, s.stack, Turned(s).stack);
  }

  lemma {:induction false} LeaveStaysTame(net: Net, entry: string, key: Option<string>, s0: State, s: State, t: State,
                                          c: nat,
                       closed: Closed)
    requires NoReentry(net, entry, key, s0.used) && Sound(net, s) && Tame(net, entry, key, s0, s) && s.stack != []
    requires t == s.(stack := Below(s), counts := s.counts[Top(s).agent := c], done := s.done + [closed])
    requires c >= 1 && Fair(net, closed)
    ensures Sound(net, t) && Tame(net, entry, key, s0, t)
  {
    TopIsAlone(net, entry, key, s0.used, s);
    LeftIsTold(net, s, t, c);
    ShorterChain(net, entry, key, s.stack);
  }

  lemma {:induction false} SameTold(net: Net, s: State, t: State)
    requires Sound(net, s) && AllTold(net, s) && t.stack == s.stack && t.counts == s.counts
    ensures Sound(net, t) && AllTold(net, t)
  {
    forall i | 0 <= i < |t.stack| ensures Told(net, t, i) {
      assert Told(net, s, i);
    }
  }

  lemma {:induction false} ConsultStaysTame(net: Net, entry: string, key: Option<string>, s0: State, s: State,
                                            to: string)
    requires Sound(net, s) && Tame(net, entry, key, s0, s) && Enabled(net, s, Consult(to))
    ensures Tame(net, entry, key, s0, Apply(net, s, Consult(to)))
  {
    if s.used < net.max && !Held(net, s.stack, to) {
      EnterStaysTame(net, entry, key, s0, s, to);
    } else {
      SameTold(net, s, Apply(net, s, Consult(to)));
    }
  }

  lemma {:induction false} EnterStaysTame(net: Net, entry: string, key: Option<string>, s0: State, s: State, to: string)
    requires Sound(net, s) && Tame(net, entry, key, s0, s) && Enabled(net, s, Consult(to))
    requires s.used < net.max && !Held(net, s.stack, to)
    ensures Tame(net, entry, key, s0, Opened(Charged(net, s, to), to, net.peers[to].thread))
  {
    var charged := Charged(net, s, to);
    SameTold(net, s, charged);
    OpenedIsTold(net, charged, to, net.peers[to].thread);
    LongerChain(net, entry, key, s.stack, to);
  }

  /** Under the condition the counter of a running peer tells its turns. */
  lemma {:induction false} TopIsTold(net: Net, s: State)
    requires Sound(net, s) && s.stack != [] && AllTold(net, s)
    ensures var limit := net.peers[Top(s).agent].limit;
            && s.counts[Top(s).agent] >= Top(s).turns && Top(s).turns <= limit
            && (limit > 1 || Top(s).turns == 0 ==> s.counts[Top(s).agent] == Top(s).turns)
  {
    assert Told(net, s, |s.stack| - 1) && Innermost(s.stack, |s.stack| - 1);
  }

  lemma {:induction false} AnswerStaysTame(net: Net, entry: string, key: Option<string>, s0: State, s: State)
    requires NoReentry(net, entry, key, s0.used) && Sound(net, s) && Tame(net, entry, key, s0, s)
             && Enabled(net, s, Answer)
    ensures Tame(net, entry, key, s0, Apply(net, s, Answer))
  {
    var top := Top(s);
    TopIsTold(net, s);
    LeaveStaysTame(net, entry, key, s0, s, Apply(net, s, Answer), s.counts[top.agent] + 1,
                   Closed(top.agent, top.turns + 1, false));
  }

  lemma {:induction false} CutIsFair(net: Net, s: State)
    requires Wired(net) && Sound(net, s) && AllTold(net, s) && Enabled(net, s, Cut)
    ensures Fair(net, Closed(Top(s).agent, Top(s).turns, true))
  {
    TopIsTold(net, s);
  }

  lemma {:induction false} CutStaysTame(net: Net, entry: string, key: Option<string>, s0: State, s: State)
    requires Wired(net) && NoReentry(net, entry, key, s0.used) && Sound(net, s) && Tame(net, entry, key, s0, s)
             && Enabled(net, s, Cut)
    ensures Tame(net, entry, key, s0, Apply(net, s, Cut))
  {
    var top := Top(s);
    CutIsFair(net, s);
    LeaveStaysTame(net, entry, key, s0, s, Apply(net, s, Cut), s.counts[top.agent] + 1,
                   Closed(top.agent, top.turns, true));
  }

  lemma {:induction false} FailStaysTame(net: Net, entry: string, key: Option<string>, s0: State, s: State)
    requires NoReentry(net, entry, key, s0.used) && Sound(net, s) && Tame(net, entry, key, s0, s)
             && Enabled(net, s, Fail)
    ensures Tame(net, entry, key, s0, Apply(net, s, Fail))
  {
    var top := Top(s);
    TopIsTold(net, s);
    assert s.counts == s.counts[top.agent := s.counts[top.agent]];
    LeaveStaysTame(net, entry, key, s0, s, Apply(net, s, Fail), s.counts[top.agent],
                   Closed(top.agent, top.turns, false));
  }

  lemma {:induction false} ApplyStaysTame(net: Net, entry: string, key: Option<string>, s0: State, s: State, m: Move)
    requires Wired(net) && NoReentry(net, entry, key, s0.used) && Sound(net, s) && Tame(net, entry, key, s0, s)
    requires Enabled(net, s, m) && !m.Begin?
    ensures Tame(net, entry, key, s0, Apply(net, s, m))
  {
    match m
    case Think => ThinkStaysTame(net, entry, key, s0, s);
    case Answer => AnswerStaysTame(net, entry, key, s0, s);
    case Cut => CutStaysTame(net, entry, key, s0, s);
    case Fail => FailStaysTame(net, entry, key, s0, s);
    case Consult(to) => ConsultStaysTame(net, entry, key, s0, s, to);
  }

  predicate OneRun(moves: seq<Move>) {
    forall i | 0 <= i < |moves| :: !moves[i].Begin?
  }

  lemma {:induction false} StaysTame(net: Net, entry: string, key: Option<string>, s0: State, s: State,
                                     moves: seq<Move>)
    requires Wired(net) && NoReentry(net, entry, key, s0.used) && Sound(net, s) && Tame(net, entry, key, s0, s)
    requires OneRun(moves) && Exec(net, s, moves).Some?
    ensures Tame(net, entry, key, s0, Exec(net, s, moves).value)
    decreases moves
  {
    if moves != [] {
      ApplyStaysTame(net, entry, key, s0, s, moves[0]);
      StaysTame(net, entry, key, s0, Apply(net, s, moves[0]), moves[1..]);
    }
  }

  /******* When a limit is exceeded *******/

  /** Some course of events within one network run leads from `s` to `t`. */
  ghost predicate Reaches(net: Net, s: State, t: State)
    requires Sound(net, s)
  {
    exists moves :: OneRun(moves) && Exec(net, s, moves) == Some(t)
  }

  lemma {:induction false} ReachesSelf(net: Net, s: State)
    requires Sound(net, s)
    ensures Reaches(net, s, s)
  {
    assert OneRun([]) && Exec(net, s, []) == Some(s);
  }

  lemma {:induction false} ReachesNext(net: Net, s: State, t: State, m: Move)
    requires Sound(net, s) && Sound(net, t) && Reaches(net, s, t) && Enabled(net, t, m) && !m.Begin?
    ensures Reaches(net, s, Apply(net, t, m))
  {
    var moves :| OneRun(moves) && Exec(net, s, moves) == Some(t);
    ExecAppend(net, s, moves, [m]);
    assert [m][1..] == [];
    assert OneRun(moves + [m]) && Exec(net, s, moves + [m]) == Some(Apply(net, t, m));
  }

  lemma {:induction false} TurnedKeeps(s: State, net: Net)
    requires Sound(net, s) && s.stack != []
    ensures var t := Turned(s);
            && Sound(net, t) && |t.stack| == |s.stack| && Below(t) == Below(s)
            && Top(t) == Top(s).(turns := Top(s).turns + 1)
            && t.counts[Top(s).agent] == s.counts[Top(s).agent] + 1 && t.used == s.used
  {
  }

  /** The waiting peer takes its one or two turns. */
  lemma {:induction false} TakeTurns(net: Net, from: State, s: State, twice: bool) returns (t: State)
    requires Sound(net, from) && Sound(net, s) && Reaches(net, from, s)
    requires s.stack != [] && Top(s).turns == 0 && s.counts[Top(s).agent] == 0
    requires net.peers[Top(s).agent].limit >= if twice then 2 else 1
    ensures Sound(net, t) && Reaches(net, from, t) && t.used == s.used && |t.stack| == |s.stack|
    ensures Below(t) == Below(s) && Top(t) == Top(s).(turns := if twice then 2 else 1)
  {
    TurnedKeeps(s, net);
    ReachesNext(net, from, s, Think);
    t := Turned(s);
    if twice {
      TurnedKeeps(t, net);
      ReachesNext(net, from, t, Think);
      t := Turned(t);
    }
  }

  /** The first `k` peers of the chain wait after their turns. */
  ghost predicate Waiting(net: Net, key: Option<string>, p: seq<string>, i: nat, k: nat, stack: seq<Frame>) {
    && k == |stack| <= |p|
    && forall x | 0 <= x < k :: p[x] in net.peers
         && stack[x] == Frame(p[x], KeyAt(net, key, p, x), if x == i then 2 else 1)
  }

  /** The stack while a chain of consultations is entered: the run at place `i` takes two turns, every other one. */
  ghost predicate Descended(net: Net, key: Option<string>, p: seq<string>, i: nat, base: nat, k: nat, s: State)
    requires Sound(net, s)
  {
    && k < |p| && s.stack != [] && s.used == base + k && p[k] in net.peers
    && Waiting(net, key, p, i, k, Below(s)) && Top(s) == Frame(p[k], KeyAt(net, key, p, k), 0) && s.counts[p[k]] == 0
  }

  lemma {:induction false} WaitingLonger(net: Net, key: Option<string>, p: seq<string>, i: nat, base: nat, k: nat,
                                         s: State, t: State)
    requires Sound(net, s) && Descended(net, key, p, i, base, k, s) && t.stack != [] && Below(t) == Below(s)
    requires Top(t) == Top(s).(turns := if k == i then 2 else 1)
    ensures Waiting(net, key, p, i, k + 1, t.stack)
  {
    assert t.stack == Below(t) + [Top(t)];
  }

  lemma {:induction false} ThreadIsFree(net: Net, key: Option<string>, p: seq<string>, i: nat, k: nat,
                                        stack: seq<Frame>)
    requires 0 < k < |p| && Waiting(net, key, p, i, k, stack) && MayConsult(net, key, p[..k], p[k])
    ensures !Held(net, stack, p[k])
  {
    forall x | 0 <= x < k && stack[x].agent == p[k] && net.peers[p[k]].thread.Some?
      ensures stack[x].key != net.peers[p[k]].thread {
      assert p[..k][x] == p[k] && KeyAt(net, key, p[..k], x) == KeyAt(net, key, p, x);
    }
  }

  lemma {:induction false} EnterNext(net: Net, key: Option<string>, p: seq<string>, i: nat, base: nat, k: nat, t: State)
    requires Sound(net, t) && 0 < k < |p| && Waiting(net, key, p, i, k, t.stack) && t.used == base + k - 1 < net.max
    requires MayConsult(net, key, p[..k], p[k])
    ensures Enabled(net, t, Consult(p[k])) && Descended(net, key, p, i, base, k, Apply(net, t, Consult(p[k])))
  {
    ThreadIsFree(net, key, p, i, k, t.stack);
    assert p[..k][k - 1] == p[k - 1];
    assert Below(Apply(net, t, Consult(p[k]))) == t.stack;
  }

  lemma {:induction false} Descend(net: Net, s0: State, entry: string, key: Option<string>, p: seq<string>, i: nat,
                                   k: nat)
    returns (s: State)
    requires Wired(net) && Idle(net, s0) && Chain(net, entry, key, p) && |p| <= net.max - s0.used + 1
    requires k < |p| && (i < |p| ==> net.peers[p[i]].limit > 1)
    ensures Sound(net, s) && Reaches(net, Opened(s0, entry, key), s) && Descended(net, key, p, i, s0.used, k, s)
    decreases k
  {
    var from := Opened(s0, entry, key);
    if k == 0 {
      s := from;
      ReachesSelf(net, s);
    } else {
      var before := Descend(net, s0, entry, key, p, i, k - 1);
      var t := TakeTurns(net, from, before, k - 1 == i);
      WaitingLonger(net, key, p, i, s0.used, k - 1, before, t);
      EnterNext(net, key, p, i, s0.used, k, t);
      ReachesNext(net, from, t, Consult(p[k]));
      s := Apply(net, t, Consult(p[k]));
    }
  }

  /** The topmost run ends with a turn, or is cut. */
  function Ending(net: Net, s: State): Move
    requires Sound(net, s) && s.stack != []
  {
    if s.counts[Top(s).agent] < net.peers[Top(s).agent].limit then Answer else Cut
  }

  /** The runs above place `n` end; none of them is a run of `a`. */
  lemma {:induction false} Unwind(net: Net, from: State, s: State, a: string, n: nat) returns (t: State)
    requires Sound(net, from) && Sound(net, s) && Reaches(net, from, s) && n <= |s.stack| && a in net.peers
    requires forall x | n <= x < |s.stack| :: s.stack[x].agent != a
    ensures Sound(net, t) && Reaches(net, from, t) && t.stack == s.stack[..n] && t.counts[a] == s.counts[a]
    decreases |s.stack|
  {
    if n == |s.stack| {
      t := s;
    } else {
      ReachesNext(net, from, s, Ending(net, s));
      var u := Apply(net, s, Ending(net, s));
      assert u.stack == Below(s);
      t := Unwind(net, from, u, a, n);
    }
  }

  /** The running peer takes every turn its counter still admits. */
  lemma {:induction false} UseUp(net: Net, from: State, s: State) returns (t: State)
    requires Sound(net, from) && Sound(net, s) && Reaches(net, from, s) && s.stack != []
    requires s.counts[Top(s).agent] <= net.peers[Top(s).agent].limit
    ensures Sound(net, t) && Reaches(net, from, t) && t.stack != [] && Top(t).agent == Top(s).agent
    ensures Top(t).turns == Top(s).turns + (net.peers[Top(s).agent].limit - s.counts[Top(s).agent])
    decreases net.peers[Top(s).agent].limit - s.counts[Top(s).agent]
  {
    if s.counts[Top(s).agent] == net.peers[Top(s).agent].limit {
      t := s;
    } else {
      TurnedKeeps(s, net);
      ReachesNext(net, from, s, Think);
      t := UseUp(net, from, Turned(s));
    }
  }

  /** The innermost run answers in one turn. */
  lemma {:induction false} AnswerOnce(net: Net, from: State, key: Option<string>, p: seq<string>, i: nat, base: nat,
                                      j: nat, s: State)
    returns (t: State)
    requires Sound(net, from) && Sound(net, s) && Reaches(net, from, s) && Descended(net, key, p, i, base, j, s)
    requires net.peers[p[j]].limit > 0
    ensures Sound(net, t) && Reaches(net, from, t) && Waiting(net, key, p, i, j, t.stack) && t.counts[p[j]] == 1
  {
    ReachesNext(net, from, s, Answer);
    t := Apply(net, s, Answer);
    assert t.stack == Below(s);
  }

  /** A peer that was consulted again while it waited after two turns comes back to a counter at one. */
  lemma {:induction false} ComesBack(net: Net, s0: State, entry: string, key: Option<string>, p: seq<string>, i: nat,
                                     j: nat)
    returns (t: State)
    requires Wired(net) && Idle(net, s0) && Chain(net, entry, key, p) && |p| <= net.max - s0.used + 1
    requires i < j < |p| && p[i] == p[j]
    requires net.peers[p[i]].limit > 1 && forall x | i < x < j :: p[x] != p[i]
    ensures Sound(net, t) && Reaches(net, Opened(s0, entry, key), t) && t.stack != []
    ensures Top(t).agent == p[i] && Top(t).turns == 2 && t.counts[p[i]] == 1
  {
    var from := Opened(s0, entry, key);
    var s := Descend(net, s0, entry, key, p, i, j);
    var back := AnswerOnce(net, from, key, p, i, s0.used, j, s);
    t := UnwindTo(net, from, key, p, i, j, back);
  }

  lemma {:induction false} UnwindTo(net: Net, from: State, key: Option<string>, p: seq<string>, i: nat, j: nat,
                                    s: State)
    returns (t: State)
    requires Sound(net, from) && Sound(net, s) && Reaches(net, from, s) && i < j <= |p|
    requires Waiting(net, key, p, i, j, s.stack) && forall x | i < x < j :: p[x] != p[i]
    ensures Sound(net, t) && Reaches(net, from, t) && t.stack != []
    ensures Top(t).agent == p[i] && Top(t).turns == 2 && t.counts[p[i]] == s.counts[p[i]]
  {
    t := Unwind(net, from, s, p[i], i + 1);
    assert Top(t) == s.stack[i];
  }

  lemma {:induction false} Exceeds(net: Net, s0: State, entry: string, key: Option<string>, p: seq<string>, i: nat,
                                   j: nat)
    returns (moves: seq<Move>)
    requires Wired(net) && Idle(net, s0) && Chain(net, entry, key, p) && |p| <= net.max - s0.used + 1
    requires i < j < |p| && p[i] == p[j] && entry in net.peers
    requires net.peers[p[i]].limit > 1 && forall x | i < x < j :: p[x] != p[i]
    ensures !KeepsLimits(net, s0, entry, key, moves)
  {
    var from := Opened(s0, entry, key);
    var back := ComesBack(net, s0, entry, key, p, i, j);
    var t := UseUp(net, from, back);
    assert t.stack[|t.stack| - 1].turns == net.peers[p[i]].limit + 1;
    assert !Limited(net, s0, t);
    moves :| OneRun(moves) && Exec(net, from, moves) == Some(t);
  }

  /** The last place before `j` where the peer of place `j` waits. */
  lemma {:induction false} NearestBefore(p: seq<string>, i: nat, j: nat) returns (k: nat)
    requires i < j < |p| && p[i] == p[j]
    ensures i <= k < j && p[k] == p[j] && forall x | k < x < j :: p[x] != p[j]
  {
    k := j - 1;
    while p[k] != p[j]
      invariant i <= k < j && forall x | k < x < j :: p[x] != p[j]
      decreases k
    {
      k := k - 1;
    }
  }

  /** If this course of events of a network run is possible, every run in it keeps to its limit. */
  ghost predicate KeepsLimits(net: Net, s0: State, entry: string, key: Option<string>, moves: seq<Move>)
    requires Idle(net, s0) && entry in net.peers
  {
    var from := Opened(s0, entry, key);
    OneRun(moves) && Exec(net, from, moves).Some? ==> Limited(net, s0, Exec(net, from, moves).value)
  }

  /** Every run, of every peer, in every course of events, keeps to the limit of its peer and is stopped by it only
      at that limit, exactly when no peer with a limit above one can be consulted again while it waits. It does not
      matter what counters earlier runs of the network left. */
  lemma {:induction false} LimitsHoldIff(net: Net, s0: State, entry: string, key: Option<string>)
    requires Wired(net) && Idle(net, s0) && entry in net.peers
    ensures (forall moves :: KeepsLimits(net, s0, entry, key, moves)) <==> NoReentry(net, entry, key, s0.used)
  {
    if NoReentry(net, entry, key, s0.used) {
      forall moves ensures KeepsLimits(net, s0, entry, key, moves) {
        NoReentryKeepsLimits(net, s0, entry, key, moves);
      }
    } else {
      var moves := ReentryExceeds(net, s0, entry, key);
      assert !KeepsLimits(net, s0, entry, key, moves);
    }
  }

  lemma {:induction false} OpenedIsTame(net: Net, s0: State, entry: string, key: Option<string>)
    requires Wired(net) && Idle(net, s0) && entry in net.peers
    ensures Sound(net, Opened(s0, entry, key)) && Tame(net, entry, key, s0, Opened(s0, entry, key))
  {
  }

  lemma {:induction false} NoReentryKeepsLimits(net: Net, s0: State, entry: string, key: Option<string>,
                                                moves: seq<Move>)
    requires Wired(net) && Idle(net, s0) && entry in net.peers && NoReentry(net, entry, key, s0.used)
    ensures KeepsLimits(net, s0, entry, key, moves)
  {
    var from := Opened(s0, entry, key);
    if OneRun(moves) && Exec(net, from, moves).Some? {
      OpenedIsTame(net, s0, entry, key);
      StaysTame(net, entry, key, s0, from, moves);
      TameIsLimited(net, entry, key, s0, Exec(net, from, moves).value);
    }
  }

  lemma {:induction false} ReentryExceeds(net: Net, s0: State, entry: string, key: Option<string>)
    returns (moves: seq<Move>)
    requires Wired(net) && Idle(net, s0) && entry in net.peers && !NoReentry(net, entry, key, s0.used)
    ensures !KeepsLimits(net, s0, entry, key, moves)
  {
    var p, i, j :| Chain(net, entry, key, p) && |p| <= net.max - s0.used + 1 && 0 <= i < j < |p| && p[i] == p[j]
                   && net.peers[p[i]].limit != 1;
    var k := NearestBefore(p, i, j);
    moves := Exceeds(net, s0, entry, key, p, k, j);
  }

  lemma {:induction false} TameIsLimited(net: Net, entry: string, key: Option<string>, s0: State, s: State)
    requires Sound(net, s) && Tame(net, entry, key, s0, s)
    ensures Limited(net, s0, s)
  {
    forall i | 0 <= i < |s.stack| ensures s.stack[i].turns <= net.peers[s.stack[i].agent].limit {
      assert Told(net, s, i);
    }
  }

  /** Without a cycle of allowed consultations every limit holds. */
  lemma {:induction false} AcyclicKeepsLimits(net: Net, rank: map<string, nat>, entry: string, key: Option<string>,
                                              base: nat)
    requires Wired(net) && net.peers.Keys <= rank.Keys
    requires forall a, b | a in net.peers && b in net.peers[a].allowed :: rank[b] < rank[a]
    ensures NoReentry(net, entry, key, base)
  {
    forall p, i, j | Chain(net, entry, key, p) && 0 <= i < j < |p| ensures p[i] != p[j] {
      RankFalls(net, rank, entry, key, p, i, j);
    }
  }

  lemma {:induction false} RankFalls(net: Net, rank: map<string, nat>, entry: string, key: Option<string>,
                                     p: seq<string>,
                                     i: nat, j: nat)
    requires Wired(net) && net.peers.Keys <= rank.Keys && Chain(net, entry, key, p) && i < j < |p|
    requires forall a, b | a in net.peers && b in net.peers[a].allowed :: rank[b] < rank[a]
    ensures rank[p[j]] < rank[p[i]]
    decreases j
  {
    assert MayConsult(net, key, p[..j], p[j]) && p[..j][j - 1] == p[j - 1];
    if i < j - 1 {
      RankFalls(net, rank, entry, key, p, i, j - 1);
    }
  }

  /** When every peer keeps a thread and the entry peer runs on its own, every limit holds: whoever waits is busy. */
  lemma {:induction false} ThreadsKeepLimits(net: Net, entry: string, base: nat)
    requires Wired(net) && entry in net.peers && forall a | a in net.peers :: net.peers[a].thread.Some?
    ensures NoReentry(net, entry, net.peers[entry].thread, base)
  {
    var key := net.peers[entry].thread;
    forall p, i, j | Chain(net, entry, key, p) && 0 <= i < j < |p| ensures p[i] != p[j] {
      assert MayConsult(net, key, p[..j], p[j]);
      assert p[..j][i] == p[i] && KeyAt(net, key, p[..j], i) == net.peers[p[i]].thread;
    }
  }

  /******* Exactly when every consultation that is paid for reaches its peer *******/

  /** Within what is left of the budget, after `base` consultations, no peer can be consulted while its thread is
      held. */
  ghost predicate NobodyBusy(net: Net, entry: string, key: Option<string>, base: nat) {
    forall p, to | Chain(net, entry, key, p) && |p| <= net.max - base && to in net.peers :: FreeFor(net, key, p, to)
  }

  ghost predicate FreeFor(net: Net, key: Option<string>, p: seq<string>, to: string)
    requires p != [] && forall i | 0 <= i < |p| :: p[i] in net.peers
  {
    to in net.peers && to in net.peers[p[|p| - 1]].allowed ==> MayConsult(net, key, p, to)
  }

  ghost predicate Ordered(net: Net, entry: string, key: Option<string>, s0: State, s: State) {
    Chained(net, entry, key, s.stack) && |s.stack| <= s.used - s0.used + 1 && s0.used <= s.used <= net.max
  }

  /** What a move within a run does to the stack: nothing new, the topmost run leaves, or a free peer's run opens. */
  predicate StackMoves(net: Net, stack: seq<Frame>, next: seq<Frame>)
    requires stack != [] && stack[|stack| - 1].agent in net.peers
  {
    || (|next| == |stack| && forall i | 0 <= i < |stack| :: stack[i].agent == next[i].agent && stack[i].key == next[i].key)
    || next == stack[..|stack| - 1]
    || (&& |next| == |stack| + 1 && var to := next[|stack|].agent;
        && to in net.peers && to in net.peers[stack[|stack| - 1].agent].allowed && !Held(net, stack, to)
        && next == stack + [Frame(to, net.peers[to].thread, 0)])
  }

  lemma {:induction false} ApplyMovesStack(net: Net, s: State, m: Move)
    requires Sound(net, s) && Enabled(net, s, m) && !m.Begin?
    ensures StackMoves(net, s.stack, Apply(net, s, m).stack)
  {
    if m.Answer? {
      assert Apply(net, s, m).stack == Below(s);
    }
  }

  lemma {:induction false} MovedStaysChained(net: Net, entry: string, key: Option<string>, stack: seq<Frame>,
                                             next: seq<Frame>)
    requires stack != [] && Chained(net, entry, key, stack) && stack[|stack| - 1].agent in net.peers
    requires StackMoves(net, stack, next)
    ensures Chained(net, entry, key, next)
  {
    if |next| == |stack| {
      SameChain(net, entry, key, stack, next);
    } else if next == stack[..|stack| - 1] {
      ShorterChain(net, entry, key, stack);
    } else {
      LongerChain(net, entry, key, stack, next[|stack|].agent);
    }
  }

  lemma {:induction false} ApplyDeepensByPaying(net: Net, s: State, m: Move)
    requires Sound(net, s) && Enabled(net, s, m) && !m.Begin? && s.used <= net.max
    ensures var t := Apply(net, s, m); |t.stack| - |s.stack| <= t.used - s.used && s.used <= t.used <= net.max
  {
  }

  lemma {:induction false} ApplyStaysOrdered(net: Net, entry: string, key: Option<string>, s0: State, s: State, m: Move)
    requires Sound(net, s) && Ordered(net, entry, key, s0, s) && Enabled(net, s, m) && !m.Begin?
    ensures Ordered(net, entry, key, s0, Apply(net, s, m))
  {
    ApplyMovesStack(net, s, m);
    MovedStaysChained(net, entry, key, s.stack, Apply(net, s, m).stack);
    ApplyDeepensByPaying(net, s, m);
  }

  /** A busy peer, waiting in a chain of consultations. */
  lemma {:induction false} BusyIsNotFree(net: Net, entry: string, key: Option<string>, s0: State, s: State, m: Move)
    requires Sound(net, s) && Ordered(net, entry, key, s0, s) && Enabled(net, s, m) && FindsBusy(net, s, m)
    ensures !NobodyBusy(net, entry, key, s0.used)
  {
    var p := Agents(s.stack);
    var i :| 0 <= i < |s.stack| && s.stack[i].agent == m.to && s.stack[i].key == net.peers[m.to].thread;
    assert p[i] == m.to && KeyAt(net, key, p, i) == net.peers[m.to].thread;
    assert !FreeFor(net, key, p, m.to);
  }

  lemma {:induction false} NeverBusy(net: Net, entry: string, key: Option<string>, s0: State, s: State,
                                     moves: seq<Move>)
    requires Sound(net, s) && Ordered(net, entry, key, s0, s) && OneRun(moves) && Exec(net, s, moves).Some?
    requires NobodyBusy(net, entry, key, s0.used)
    ensures BusyConsults(net, s, moves) == 0
    decreases moves
  {
    if moves != [] {
      if FindsBusy(net, s, moves[0]) {
        BusyIsNotFree(net, entry, key, s0, s, moves[0]);
      }
      ApplyStaysOrdered(net, entry, key, s0, s, moves[0]);
      NeverBusy(net, entry, key, s0, Apply(net, s, moves[0]), moves[1..]);
    }
  }

  lemma {:induction false} BusyAppend(net: Net, s: State, a: seq<Move>, m: Move)
    requires Sound(net, s) && Exec(net, s, a).Some? && Enabled(net, Exec(net, s, a).value, m)
    requires FindsBusy(net, Exec(net, s, a).value, m)
    ensures Exec(net, s, a + [m]).Some? && BusyConsults(net, s, a + [m]) > 0
    decreases a
  {
    ExecAppend(net, s, a, [m]);
    assert [m][1..] == [];
    if a == [] {
      assert a + [m] == [m];
    } else {
      assert (a + [m])[0] == a[0] && (a + [m])[1..] == a[1..] + [m];
      BusyAppend(net, Apply(net, s, a[0]), a[1..], m);
    }
  }

  /** Down the chain, one turn each. */
  lemma {:induction false} AllWait(net: Net, s0: State, entry: string, key: Option<string>, p: seq<string>)
    returns (t: State)
    requires Wired(net) && Idle(net, s0) && Chain(net, entry, key, p) && |p| <= net.max - s0.used
    ensures Sound(net, t) && Reaches(net, Opened(s0, entry, key), t)
    ensures Waiting(net, key, p, |p|, |p|, t.stack) && t.used < net.max
  {
    var from, k := Opened(s0, entry, key), |p| - 1;
    var s := Descend(net, s0, entry, key, p, |p|, k);
    t := TakeTurns(net, from, s, false);
    WaitingLonger(net, key, p, |p|, s0.used, k, s, t);
  }

  lemma {:induction false} WaitingIsBusy(net: Net, entry: string, key: Option<string>, p: seq<string>, t: State,
                                         to: string)
    requires Sound(net, t) && Chain(net, entry, key, p) && Waiting(net, key, p, |p|, |p|, t.stack) && t.used < net.max
    requires to in net.peers && !FreeFor(net, key, p, to)
    ensures Enabled(net, t, Consult(to)) && FindsBusy(net, t, Consult(to))
  {
    var i :| 0 <= i < |p| && p[i] == to && KeyAt(net, key, p, i) == net.peers[to].thread;
    assert t.stack[i].agent == to && t.stack[i].key == net.peers[to].thread;
  }

  /** If this course of events of a network run is possible, every consultation that is paid for reaches its peer. */
  ghost predicate PaysForRuns(net: Net, s0: State, entry: string, key: Option<string>, moves: seq<Move>)
    requires Idle(net, s0) && entry in net.peers
  {
    var from := Opened(s0, entry, key);
    OneRun(moves) && Exec(net, from, moves).Some? ==> BusyConsults(net, from, moves) == 0
  }

  /** Down the chain, one turn each, and then the consultation of a peer that waits. */
  lemma {:induction false} PaysInVain(net: Net, s0: State, entry: string, key: Option<string>, p: seq<string>,
                                      to: string)
    returns (moves: seq<Move>)
    requires Wired(net) && Idle(net, s0) && Chain(net, entry, key, p) && |p| <= net.max - s0.used && to in net.peers
    requires entry in net.peers && !FreeFor(net, key, p, to)
    ensures !PaysForRuns(net, s0, entry, key, moves)
  {
    var t := AllWait(net, s0, entry, key, p);
    WaitingIsBusy(net, entry, key, p, t, to);
    moves := BusyAfter(net, Opened(s0, entry, key), t, Consult(to));
  }

  lemma {:induction false} BusyAfter(net: Net, from: State, t: State, m: Move) returns (moves: seq<Move>)
    requires Sound(net, from) && Sound(net, t) && Reaches(net, from, t) && Enabled(net, t, m) && FindsBusy(net, t, m)
    ensures OneRun(moves) && Exec(net, from, moves).Some? && BusyConsults(net, from, moves) > 0
  {
    var way :| OneRun(way) && Exec(net, from, way) == Some(t);
    BusyAppend(net, from, way, m);
    moves := way + [m];
  }

  /** In every course of events every consultation the budget admits reaches its peer, exactly when no chain of
      consultations comes to a peer whose thread a waiting run holds. Otherwise one can be paid for and recorded in
      vain. */
  lemma {:induction false} EveryPaymentReachesIff(net: Net, s0: State, entry: string, key: Option<string>)
    requires Wired(net) && Idle(net, s0) && entry in net.peers
    ensures (forall moves :: PaysForRuns(net, s0, entry, key, moves)) <==> NobodyBusy(net, entry, key, s0.used)
  {
    var from := Opened(s0, entry, key);
    if NobodyBusy(net, entry, key, s0.used) {
      forall moves ensures PaysForRuns(net, s0, entry, key, moves) {
        if OneRun(moves) && Exec(net, from, moves).Some? {
          NeverBusy(net, entry, key, s0, from, moves);
        }
      }
    } else {
      var p, to :| Chain(net, entry, key, p) && |p| <= net.max - s0.used && to in net.peers && !FreeFor(net, key, p,
                                                                                                        to);
      var moves := PaysInVain(net, s0, entry, key, p, to);
    }
  }
}
