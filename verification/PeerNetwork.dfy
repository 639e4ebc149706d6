/** Peers that consult one another under one budget: what the budget bounds, and exactly when a peer keeps to its
    own iteration limit although it may be consulted again while it waits. */
module PeerNetwork {
  import opened Values

  /** A wired peer: whom it may consult, its iteration limit, and the conversation thread its runs continue. */
  datatype Peer = Peer(allowed: set<string>, limit: nat, thread: Option<string>)

  datatype Net = Net(peers: map<string, Peer>, max: nat)

  /** Nobody consults itself or a stranger, and limits are positive. */
  predicate Wired(net: Net) {
    forall a | a in net.peers :: net.peers[a].limit >= 1 && a !in net.peers[a].allowed && net.peers[a].allowed <= net.peers.Keys
  }

  /******* Runs *******/

  /** An open run of an agent: the thread it holds and the turns it has taken. */
  datatype Frame = Frame(agent: string, key: Option<string>, turns: nat)

  /** A closed run, and whether the iteration limit closed it. */
  datatype Closed = Closed(agent: string, turns: nat, cut: bool)

  datatype Consultation = Consultation(from: string, to: string, number: nat, remaining: int)

  /** `counts` holds the iteration counter of each agent object; all runs of the agent share it. */
  datatype State = State(stack: seq<Frame>, done: seq<Closed>, counts: map<string, nat>, used: nat,
                         events: seq<Consultation>, consulted: set<string>, refused: nat)

  /** What happens next: a network run begins, or the running agent takes a turn that calls tools, takes a turn that
      ends its run, is stopped by its limit, fails, or consults a peer. */
  datatype Move = Begin(entry: string, key: Option<string>) | Think | Answer | Cut | Fail | Consult(to: string)

  function Start(net: Net): State {
    State([], [], map a | a in net.peers :: 0, 0, [], {}, 0)
  }

  predicate Sound(net: Net, s: State) {
    s.counts.Keys == net.peers.Keys && forall i | 0 <= i < |s.stack| :: s.stack[i].agent in net.peers
  }

  function Top(s: State): Frame
    requires s.stack != []
  {
    s.stack[|s.stack| - 1]
  }

  function Below(s: State): seq<Frame>
    requires s.stack != []
  {
    s.stack[..|s.stack| - 1]
  }

  /** The thread of a peer is held by an open run of the same peer. */
  predicate Held(net: Net, stack: seq<Frame>, to: string)
    requires to in net.peers
  {
    net.peers[to].thread.Some? && exists i :: 0 <= i < |stack| && stack[i].agent == to && stack[i].key == net.peers[to].thread
  }

  /** A run of `a` opens: the counter of the agent object is reset. */
  function Opened(s: State, a: string, key: Option<string>): State {
    s.(stack := s.stack + [Frame(a, key, 0)], counts := s.counts[a := 0])
  }

  /** The running agent takes a turn. */
  function Turned(s: State): State
    requires s.stack != [] && Top(s).agent in s.counts
  {
    var top := Top(s);
    s.(stack := Below(s) + [top.(turns := top.turns + 1)], counts := s.counts[top.agent := s.counts[top.agent] + 1])
  }

  function Left(s: State, cut: bool): State
    requires s.stack != []
  {
    s.(stack := Below(s), done := s.done + [Closed(Top(s).agent, Top(s).turns, cut)])
  }

  /** A consultation the budget admits is on record before the peer runs. */
  function Charged(net: Net, s: State, to: string): State
    requires s.stack != []
  {
    s.(used := s.used + 1, consulted := s.consulted + {to},
       events := s.events + [Consultation(Top(s).agent, to, s.used + 1, net.max - (s.used + 1))])
  }

  predicate Enabled(net: Net, s: State, m: Move)
    requires Sound(net, s)
  {
    if m.Begin? then s.stack == [] && m.entry in net.peers else
    && s.stack != []
    && var a := Top(s).agent;
       match m
       case Think => s.counts[a] < net.peers[a].limit
       case Answer => s.counts[a] < net.peers[a].limit
       case Cut => s.counts[a] >= net.peers[a].limit
       case Fail => Top(s).turns >= 1
       case Consult(to) => Top(s).turns >= 1 && to in net.peers[a].allowed && to in net.peers
  }

  function Apply(net: Net, s: State, m: Move): (t: State)
    requires Sound(net, s) && Enabled(net, s, m)
    ensures Sound(net, t)
  {
    match m
    case Begin(entry, key) => Opened(s, entry, key)
    case Think => Turned(s)
    case Answer => Left(Turned(s), false)
    case Cut => Left(s.(counts := s.counts[Top(s).agent := s.counts[Top(s).agent] + 1]), true)
    case Fail => Left(s, false)
    case Consult(to) =>
      if s.used >= net.max then s.(refused := s.refused + 1)
      else if Held(net, s.stack, to) then Charged(net, s, to)
      else Opened(Charged(net, s, to), to, net.peers[to].thread)
  }

  function Exec(net: Net, s: State, moves: seq<Move>): (t: Option<State>)
    requires Sound(net, s)
    ensures t.Some? ==> Sound(net, t.value)
    decreases moves
  {
    if moves == [] then Some(s)
    else if Enabled(net, s, moves[0]) then Exec(net, Apply(net, s, moves[0]), moves[1..])
    else None
  }

  lemma {:induction false} ExecAppend(net: Net, s: State, a: seq<Move>, b: seq<Move>)
    requires Sound(net, s)
    ensures Exec(net, s, a + b) == (var t := Exec(net, s, a); if t.None? then None else Exec(net, t.value, b))
    decreases a
  {
    if a == [] {
      assert a + b == b;
    } else {
      assert (a + b)[0] == a[0] && (a + b)[1..] == a[1..] + b;
      if Enabled(net, s, a[0]) {
        ExecAppend(net, Apply(net, s, a[0]), a[1..], b);
      }
    }
  }

  /******* What the shared budget bounds *******/

  function Begins(moves: seq<Move>): nat {
    if moves == [] then 0 else (if moves[0].Begin? then 1 else 0) + Begins(moves[1..])
  }

  function Attempts(moves: seq<Move>): nat {
    if moves == [] then 0 else (if moves[0].Consult? then 1 else 0) + Attempts(moves[1..])
  }

  /** Consultations are numbered without gaps and recorded along allowed edges; who was consulted is who they name. */
  ghost predicate Recorded(net: Net, s: State) {
    && s.used <= net.max && |s.events| == s.used && (s.refused > 0 ==> s.used == net.max)
    && (forall i | 0 <= i < |s.events| :: Numbered(net, s.events[i], i + 1))
    && (forall a :: a in s.consulted <==> exists i :: 0 <= i < |s.events| && s.events[i].to == a)
  }

  predicate Numbered(net: Net, e: Consultation, n: nat) {
    && e.number == n && e.remaining == net.max - n
    && e.from in net.peers && e.to in net.peers[e.from].allowed
  }

  /** Open runs are nested along allowed edges, and no two runs of one peer hold the same thread. */
  ghost predicate Nested(net: Net, s: State)
    requires Sound(net, s)
  {
    && (forall i | 0 < i < |s.stack| :: s.stack[i].agent in net.peers[s.stack[i - 1].agent].allowed)
    && (forall i | 0 < i < |s.stack| :: s.stack[i].key == net.peers[s.stack[i].agent].thread)
    && (forall i, j | 0 <= i < j < |s.stack| && s.stack[i].key.Some? && s.stack[i].agent == s.stack[j].agent ::
          s.stack[i].key != s.stack[j].key)
    && |s.stack| <= s.used + 1
  }

  lemma {:induction false} ApplyRecords(net: Net, s: State, m: Move)
    requires Sound(net, s) && Enabled(net, s, m) && Recorded(net, s)
    ensures Recorded(net, Apply(net, s, m))
  {
    if m.Consult? && s.used < net.max {
      var c := Charged(net, s, m.to);
      assert c.events[..|s.events|] == s.events;
      assert c.events[|s.events|].to == m.to;
      forall a ensures a in c.consulted <==> exists i :: 0 <= i < |c.events| && c.events[i].to == a {
        if i :| 0 <= i < |s.events| && s.events[i].to == a {
          assert c.events[i].to == a;
        }
      }
    }
  }

  lemma {:induction false} OpenedNests(net: Net, s: State, to: string)
    requires Sound(net, s) && s.stack != [] && Nested(net, s) && to in net.peers
    requires to in net.peers[Top(s).agent].allowed && !Held(net, s.stack, to)
    ensures Nested(net, Opened(Charged(net, s, to), to, net.peers[to].thread))
  {
  }

  lemma {:induction false} ApplyNests(net: Net, s: State, m: Move)
    requires Sound(net, s) && Enabled(net, s, m) && Nested(net, s)
    ensures Nested(net, Apply(net, s, m))
  {
    if m.Consult? && s.used < net.max && !Held(net, s.stack, m.to) {
      OpenedNests(net, s, m.to);
    }
  }

  /** The runs begun so far. */
  function Runs(s: State): nat {
    |s.stack| + |s.done|
  }

  /** The budget admits a consultation whose peer is busy: the thread it would continue is held. */
  predicate FindsBusy(net: Net, s: State, m: Move)
    requires Sound(net, s) && Enabled(net, s, m)
  {
    m.Consult? && s.used < net.max && Held(net, s.stack, m.to)
  }

  function BusyConsults(net: Net, s: State, moves: seq<Move>): nat
    requires Sound(net, s) && Exec(net, s, moves).Some?
    decreases moves
  {
    if moves == [] then 0 else
    (if FindsBusy(net, s, moves[0]) then 1 else 0) + BusyConsults(net, Apply(net, s, moves[0]), moves[1..])
  }

  lemma {:induction false} ApplyCounts(net: Net, s: State, m: Move)
    requires Sound(net, s) && Enabled(net, s, m)
    ensures var t := Apply(net, s, m);
            && t.used + t.refused == s.used + s.refused + (if m.Consult? then 1 else 0)
            && Runs(t) + (if FindsBusy(net, s, m) then 1 else 0) + s.used == Runs(s) + t.used + (if m.Begin? then 1 else 0)
  {
  }

  /** However runs of the network nest and end: the ledger is right, every attempt was admitted or refused, one run
      opened for each beginning and each admitted consultation that found its thread free. */
  lemma {:induction false} LedgerHolds(net: Net, s: State, moves: seq<Move>)
    requires Sound(net, s) && Recorded(net, s) && Nested(net, s) && Exec(net, s, moves).Some?
    ensures var t := Exec(net, s, moves).value;
            && Recorded(net, t) && Nested(net, t)
            && t.used + t.refused == s.used + s.refused + Attempts(moves)
            && Runs(t) + BusyConsults(net, s, moves) + s.used == Runs(s) + t.used + Begins(moves)
    decreases moves
  {
    if moves != [] {
      ApplyRecords(net, s, moves[0]);
      ApplyNests(net, s, moves[0]);
      ApplyCounts(net, s, moves[0]);
      LedgerHolds(net, Apply(net, s, moves[0]), moves[1..]);
    }
  }

  /** The budget is used exactly as far as it is asked for. */
  lemma {:induction false} BudgetIsExact(net: Net, moves: seq<Move>)
    requires Exec(net, Start(net), moves).Some?
    ensures Exec(net, Start(net), moves).value.used == if Attempts(moves) <= net.max then Attempts(moves) else net.max
  {
    LedgerHolds(net, Start(net), moves);
  }

  /******* Building a network *******/

  datatype PeerSpec = PeerSpec(name: string, allowed: Option<seq<string>>, maxIterations: int, thread: Option<string>)

  datatype BuildError =
    | DuplicateNames
    | NoBudget
    | SelfReference(name: string)
    | UnknownPeer(name: string, other: string)
    | DuplicateTool(name: string)
    | NoIterations(name: string)

  predicate Distinct(names: seq<string>) {
    forall i, j | 0 <= i < j < |names| :: names[i] != names[j]
  }

  function Members(names: seq<string>): set<string> {
    set a | a in names
  }

  function Names(specs: seq<PeerSpec>): (r: seq<string>)
    ensures |r| == |specs| && forall i | 0 <= i < |r| :: r[i] == specs[i].name
  {
    seq(|specs|, i requires 0 <= i < |specs| => specs[i].name)
  }

  /** The list of a specification, if it gives one, names other peers of the network. */
  predicate Resolvable(spec: PeerSpec, names: set<string>) {
    spec.allowed.Some? ==> forall b | b in spec.allowed.value :: b != spec.name && b in names
  }

  predicate Wireable(spec: PeerSpec) {
    spec.maxIterations >= 1 && (spec.allowed.Some? ==> Distinct(spec.allowed.value))
  }

  predicate Buildable(specs: seq<PeerSpec>, max: int) {
    && Distinct(Names(specs)) && max >= 1
    && (forall i | 0 <= i < |specs| :: Resolvable(specs[i], Members(Names(specs))))
    && forall i | 0 <= i < |specs| :: Wireable(specs[i])
  }

  /** A peer may consult whom its specification lists, or by default everybody else. */
  function PeerOf(spec: PeerSpec, names: set<string>): Peer
    requires spec.maxIterations >= 0
  {
    Peer(if spec.allowed.None? then names - {spec.name} else Members(spec.allowed.value), spec.maxIterations, spec.thread)
  }

  method FirstRepeated(names: seq<string>) returns (r: Option<string>)
    ensures r.None? <==> Distinct(names)
  {
    for i := 0 to |names|
      invariant Distinct(names[..i])
    {
      if names[i] in names[..i] {
        return Some(names[i]);
      }
    }
    assert names[..|names|] == names;
    r := None;
  }

  /** The check of one specification: itself first, then strangers, in the order of its list. */
  method Resolve(spec: PeerSpec, names: set<string>) returns (r: Option<BuildError>)
    ensures r.None? <==> Resolvable(spec, names)
    ensures r.Some? ==> r.value == SelfReference(spec.name) || (r.value.UnknownPeer? && r.value.other !in names)
  {
    if spec.allowed.Some? {
      var others := spec.allowed.value;
      for i := 0 to |others|
        invariant forall j | 0 <= j < i :: others[j] != spec.name && others[j] in names
      {
        assert others[i] in others;
        if others[i] == spec.name {
          return Some(SelfReference(spec.name));
        }
        if others[i] !in names {
          return Some(UnknownPeer(spec.name, others[i]));
        }
      }
    }
    r := None;
  }

  /** All specifications are checked before anything is wired. */
  method Build(specs: seq<PeerSpec>, max: int) returns (r: Result<Net, BuildError>)
    ensures r.Ok? <==> Buildable(specs, max)
    ensures r.Ok? ==>
              && Wired(r.value) && r.value.max == max && r.value.peers.Keys == Members(Names(specs))
              && forall i | 0 <= i < |specs| :: specs[i].name in r.value.peers &&
                   r.value.peers[specs[i].name] == PeerOf(specs[i], Members(Names(specs)))
    ensures r.Ok? ==> forall i | 0 <= i < |specs| ::
              var spec, peer := specs[i], r.value.peers[specs[i].name];
              && peer.limit == spec.maxIterations && peer.thread == spec.thread
              && forall b :: b in peer.allowed <==>
                   if spec.allowed.Some? then b in spec.allowed.value else b in r.value.peers && b != spec.name
    ensures r == Err(DuplicateNames) <==> !Distinct(Names(specs))
    ensures r == Err(NoBudget) <==> Distinct(Names(specs)) && max < 1
  {
    var repeated := FirstRepeated(Names(specs));
    if repeated.Some? {
      return Err(DuplicateNames);
    }
    if max < 1 {
      return Err(NoBudget);
    }
    var names := Members(Names(specs));
    for i := 0 to |specs|
      invariant forall j | 0 <= j < i :: Resolvable(specs[j], names)
    {
      var fault := Resolve(specs[i], names);
      if fault.Some? {
        return Err(fault.value);
      }
    }
    var peers := map[];
    for i := 0 to |specs|
      invariant forall j | 0 <= j < i ::
                  Wireable(specs[j]) && specs[j].name in peers && peers[specs[j].name] == PeerOf(specs[j], names)
      invariant forall a | a in peers :: exists j :: 0 <= j < i && specs[j].name == a
    {
      if specs[i].allowed.Some? {
        var twice := FirstRepeated(specs[i].allowed.value);
        if twice.Some? {
          return Err(DuplicateTool(specs[i].name));
        }
      }
      if specs[i].maxIterations < 1 {
        return Err(NoIterations(specs[i].name));
      }
      assert forall j | 0 <= j < i :: Names(specs)[j] != Names(specs)[i];
      peers := peers[specs[i].name := PeerOf(specs[i], names)];
    }
    r := Ok(Net(peers, max));
  }

  /******* The network as an object *******/

  class InvocationBudget {
    const max: nat
    var used: nat

    constructor (max: nat)
      ensures this.max == max && used == 0
    {
      this.max, used := max, 0;
    }

    /** The number of the consultation, or nothing when the budget is exhausted. */
    method Consume() returns (number: Option<nat>)
      modifies this
      ensures used == if old(used) < max then old(used) + 1 else old(used)
      ensures number == if old(used) < max then Some(used) else None
    {
      if used >= max {
        return None;
      }
      used := used + 1;
      number := Some(used);
    }
  }

  datatype Reply = Exhausted | Busy | Running

  /** A network: every method is one move, and a history of moves is what `Exec` makes of it. */
  class PeerNetwork {
    const net: Net
    const budget: InvocationBudget
    var stack: seq<Frame>
    var done: seq<Closed>
    var counts: map<string, nat>
    var events: seq<Consultation>
    var consulted: set<string>
    var refused: nat

    function Now(): State
      reads this, budget
    {
      State(stack, done, counts, budget.used, events, consulted, refused)
    }

    ghost predicate Valid()
      reads this, budget
    {
      budget.max == net.max && Sound(net, Now())
    }

    constructor (net: Net)
      ensures Valid() && this.net == net && Now() == Start(net) && fresh(budget)
    {
      this.net := net;
      budget := new InvocationBudget(net.max);
      stack, done, events, consulted, refused := [], [], [], {}, 0;
      counts := map a | a in net.peers :: 0;
    }

    /** A network run begins at a known peer, on the given thread or on the thread of that peer. */
    method Run(entry: string, thread: Option<string>) returns (known: bool)
      requires Valid() && stack == []
      modifies this`stack, this`counts
      ensures Valid() && known == (entry in net.peers)
      ensures known ==> var key := if thread.Some? then thread else net.peers[entry].thread;
                        Now() == Apply(net, old(Now()), Begin(entry, key))
      ensures !known ==> Now() == old(Now())
    {
      if entry !in net.peers {
        return false;
      }
      var key := if thread.Some? then thread else net.peers[entry].thread;
      stack, counts := stack + [Frame(entry, key, 0)], counts[entry := 0];
      known := true;
    }

    /** The next turn of the running peer, unless its limit stops it; a turn may end the run. */
    method NextTurn(ends: bool) returns (taken: bool)
      requires Valid() && stack != []
      modifies this`stack, this`counts, this`done
      ensures Valid() && taken == (old(counts[Top(Now()).agent]) < net.peers[old(Top(Now()).agent)].limit)
      ensures var m := if !taken then Cut else if ends then Answer else Think; Now() == Apply(net, old(Now()), m)
    {
      taken := counts[stack[|stack| - 1].agent] < net.peers[stack[|stack| - 1].agent].limit;
      if taken {
        TakeTurn(ends);
      } else {
        Stop();
      }
    }

    method TakeTurn(ends: bool)
      requires Valid() && stack != [] && Enabled(net, Now(), Think)
      modifies this`stack, this`counts, this`done
      ensures Valid()
      ensures var m := if ends then Answer else Think; Now() == Apply(net, old(Now()), m)
    {
      ghost var was, m := Now(), if ends then Answer else Think;
      var top, below := stack[|stack| - 1], stack[..|stack| - 1];
      var turned := top.(turns := top.turns + 1);
      counts := counts[top.agent := counts[top.agent] + 1];
      if ends {
        stack, done := below, done + [Closed(turned.agent, turned.turns, false)];
      } else {
        stack := below + [turned];
      }
      assert Now() == Apply(net, was, m);
    }

    method Stop()
      requires Valid() && stack != [] && Enabled(net, Now(), Cut)
      modifies this`stack, this`counts, this`done
      ensures Valid() && Now() == Apply(net, old(Now()), Cut)
    {
      ghost var was := Now();
      var top := stack[|stack| - 1];
      counts := counts[top.agent := counts[top.agent] + 1];
      stack, done := stack[..|stack| - 1], done + [Closed(top.agent, top.turns, true)];
      assert Now() == Apply(net, was, Cut);
    }

    /** The running peer fails after a turn. */
    method Fail()
      requires Valid() && stack != [] && stack[|stack| - 1].turns >= 1
      modifies this`stack, this`done
      ensures Valid() && Now() == Apply(net, old(Now()), Move.Fail)
    {
      var top := stack[|stack| - 1];
      stack, done := stack[..|stack| - 1], done + [Closed(top.agent, top.turns, false)];
    }

    /** The consultation tool: the budget first, then the record, then the run of the peer, whose thread may be busy. */
    method Consult(to: string) returns (r: Reply)
      requires Valid() && stack != [] && Enabled(net, Now(), Move.Consult(to))
      modifies this`stack, this`counts, this`events, this`consulted, this`refused, budget
      ensures Valid() && Now() == Apply(net, old(Now()), Move.Consult(to))
      ensures r == Exhausted <==> old(budget.used) >= net.max
      ensures r == Running <==> |stack| == |old(stack)| + 1
      ensures r == Busy <==>
                && old(budget.used) < net.max && net.peers[to].thread.Some?
                && exists i :: 0 <= i < |old(stack)| && old(stack)[i].agent == to
                               && old(stack)[i].key == net.peers[to].thread
    {
      ghost var was := Now();
      var number := budget.Consume();
      if number.None? {
        refused := refused + 1;
        assert Now() == Apply(net, was, Move.Consult(to));
        return Exhausted;
      }
      var caller := stack[|stack| - 1].agent;
      consulted := consulted + {to};
      events := events + [Consultation(caller, to, number.value, net.max - budget.used)];
      if Held(net, stack, to) {
        assert Now() == Apply(net, was, Move.Consult(to));
        return Busy;
      }
      stack, counts := stack + [Frame(to, net.peers[to].thread, 0)], counts[to := 0];
      assert Now() == Apply(net, was, Move.Consult(to));
      r := Running;
    }
  }
}
