/** The shared memory board: the lifecycle of entries, their supersession chains and what the counts mean. */
module SharedMemory {
  import opened Values

  datatype Status = Active | Superseded | Retracted

  datatype Entry = Entry(id: nat, content: string, author: string, scope: Option<string>, status: Status,
                         supersededBy: Option<nat>)

  datatype Refusal = NotFound | NotTheAuthor

  /** An accepted operation, in the scope of the entry it concerns; it is stale when that entry was no longer
      active. */
  datatype Op =
    | Wrote(scope: Option<string>)
    | Replaced(scope: Option<string>, stale: bool)
    | Withdrew(scope: Option<string>, stale: bool)

  /** A filter by scope; without one every scope passes. */
  predicate Passes(scope: Option<string>, filter: Option<string>) {
    filter.None? || scope == filter
  }

  function Active1(e: Entry): int {
    if e.status == Active then 1 else 0
  }

  /** The entries that pass a filter, and the active ones. */
  function Total(entries: seq<Entry>, filter: Option<string>): int {
    if entries == [] then 0 else
    Total(entries[..|entries| - 1], filter) + if Passes(entries[|entries| - 1].scope, filter) then 1 else 0
  }

  function ActiveIn(entries: seq<Entry>, filter: Option<string>): int {
    if entries == [] then 0 else
    var last := entries[|entries| - 1];
    ActiveIn(entries[..|entries| - 1], filter) + if Passes(last.scope, filter) then Active1(last) else 0
  }

  function Writes(log: seq<Op>, filter: Option<string>): int {
    if log == [] then 0 else
    var last := log[|log| - 1];
    Writes(log[..|log| - 1], filter) + if last.Wrote? && Passes(last.scope, filter) then 1 else 0
  }

  function Replacements(log: seq<Op>, filter: Option<string>): int {
    if log == [] then 0 else
    var last := log[|log| - 1];
    Replacements(log[..|log| - 1], filter) + if last.Replaced? && Passes(last.scope, filter) then 1 else 0
  }

  function Withdrawals(log: seq<Op>, filter: Option<string>): int {
    if log == [] then 0 else
    var last := log[|log| - 1];
    Withdrawals(log[..|log| - 1], filter) + if last.Withdrew? && Passes(last.scope, filter) then 1 else 0
  }

  predicate IsStale(op: Op) {
    match op
    case Wrote(_) => false
    case Replaced(_, stale) => stale
    case Withdrew(_, stale) => stale
  }

  function Stale(log: seq<Op>, filter: Option<string>): nat {
    if log == [] then 0 else
    var last := log[|log| - 1];
    Stale(log[..|log| - 1], filter) + if IsStale(last) && Passes(last.scope, filter) then 1 else 0
  }

  /** Under every filter there are as many entries as writes and replacements, and as many active entries as writes
      less withdrawals plus stale operations. */
  ghost predicate Balanced(entries: seq<Entry>, log: seq<Op>) {
    forall filter :: BalancedIn(entries, log, filter)
  }

  ghost predicate BalancedIn(entries: seq<Entry>, log: seq<Op>, filter: Option<string>) {
    && Total(entries, filter) == Writes(log, filter) + Replacements(log, filter)
    && ActiveIn(entries, filter) == Writes(log, filter) - Withdrawals(log, filter) + Stale(log, filter)
  }

  /** Active entries number writes less withdrawals exactly as long as no operation was stale. */
  lemma {:induction false} ActiveCountIff(entries: seq<Entry>, log: seq<Op>, filter: Option<string>)
    requires Balanced(entries, log)
    ensures ActiveIn(entries, filter) == Writes(log, filter) - Withdrawals(log, filter) <==>
              forall k | 0 <= k < |log| && Passes(log[k].scope, filter) :: !IsStale(log[k])
  {
    assert BalancedIn(entries, log, filter);
    NoneStaleIff(log, filter);
  }

  lemma {:induction false} NoneStaleIff(log: seq<Op>, filter: Option<string>)
    ensures Stale(log, filter) == 0 <==> forall k | 0 <= k < |log| && Passes(log[k].scope, filter) :: !IsStale(log[k])
  {
    if log != [] {
      var front := log[..|log| - 1];
      NoneStaleIff(front, filter);
      assert forall k | 0 <= k < |front| :: front[k] == log[k];
      if Stale(front, filter) != 0 {
        var k :| 0 <= k < |front| && Passes(front[k].scope, filter) && IsStale(front[k]);
        assert Passes(log[k].scope, filter) && IsStale(log[k]);
      }
    }
  }

  lemma {:induction false} CountsChange(entries: seq<Entry>, i: nat, e: Entry, filter: Option<string>)
    requires i < |entries| && e.scope == entries[i].scope
    ensures Total(entries[i := e], filter) == Total(entries, filter)
    ensures ActiveIn(entries[i := e], filter) ==
              ActiveIn(entries, filter) + if Passes(e.scope, filter) then Active1(e) - Active1(entries[i]) else 0
  {
    var front, last := entries[..|entries| - 1], |entries| - 1;
    if i < last {
      CountsChange(front, i, e, filter);
      assert entries[i := e][..last] == front[i := e];
    } else {
      assert entries[i := e][..last] == front;
    }
  }

  lemma {:induction false} CountsGrow(entries: seq<Entry>, e: Entry, filter: Option<string>)
    ensures Total(entries + [e], filter) == Total(entries, filter) + if Passes(e.scope, filter) then 1 else 0
    ensures ActiveIn(entries + [e], filter) ==
              ActiveIn(entries, filter) + if Passes(e.scope, filter) then Active1(e) else 0
  {
    assert (entries + [e])[..|entries|] == entries;
  }

  lemma {:induction false} LogGrows(log: seq<Op>, op: Op, filter: Option<string>)
    ensures var log' := log + [op];
            && Writes(log', filter) == Writes(log, filter) + (if op.Wrote? && Passes(op.scope, filter) then 1 else 0)
            && Replacements(log', filter) ==
                 Replacements(log, filter) + (if op.Replaced? && Passes(op.scope, filter) then 1 else 0)
            && Withdrawals(log', filter) ==
                 Withdrawals(log, filter) + (if op.Withdrew? && Passes(op.scope, filter) then 1 else 0)
            && Stale(log', filter) == Stale(log, filter) + if IsStale(op) && Passes(op.scope, filter) then 1 else 0
  {
    assert (log + [op])[..|log|] == log;
  }

  /******* Supersession chains *******/

  /** Ids increase along the board, and a replacement is a later entry of the same author and scope that is still
      on the board. */
  ghost predicate Linked(entries: seq<Entry>, nextId: nat) {
    && BelowId(entries, nextId) && Ascend(entries)
    && (forall i | 0 <= i < |entries| :: LinkHolds(entries, i))
  }

  ghost predicate LinkHolds(entries: seq<Entry>, i: nat)
    requires i < |entries|
  {
    var e := entries[i];
    && (e.status == Superseded ==> e.supersededBy.Some?)
    && (e.supersededBy.Some? ==> e.status != Active && exists j :: i < j < |entries| && Replaces(entries[j], e))
  }

  predicate Replaces(r: Entry, e: Entry) {
    e.supersededBy == Some(r.id) && r.author == e.author && r.scope == e.scope
  }

  /** Following the replacements of an entry ends, at an entry of the same author and scope that has none. */
  lemma {:induction false} ChainEnds(entries: seq<Entry>, nextId: nat, i: nat) returns (chain: seq<nat>)
    requires Linked(entries, nextId) && i < |entries|
    ensures chain != [] && chain[0] == i && forall k | 0 <= k < |chain| :: chain[k] < |entries|
    ensures forall k | 0 <= k < |chain| - 1 :: chain[k] < chain[k + 1] && Replaces(entries[chain[k + 1]], entries[chain[k]])
    ensures var end := entries[chain[|chain| - 1]];
            end.supersededBy.None? && end.author == entries[i].author && end.scope == entries[i].scope
    decreases |entries| - i
  {
    assert LinkHolds(entries, i);
    if entries[i].supersededBy.None? {
      chain := [i];
    } else {
      var j :| i < j < |entries| && Replaces(entries[j], entries[i]);
      var rest := ChainEnds(entries, nextId, j);
      chain := [i] + rest;
    }
  }

  /******* Clearing *******/

  /** What a clear with the filter `gone` leaves; without a filter it leaves nothing. */
  function Without(entries: seq<Entry>, gone: Option<string>): seq<Entry> {
    if entries == [] then [] else
    var so, last := Without(entries[..|entries| - 1], gone), entries[|entries| - 1];
    if Passes(last.scope, gone) then so else so + [last]
  }

  function LogWithout(log: seq<Op>, gone: Option<string>): seq<Op> {
    if log == [] then [] else
    var so, last := LogWithout(log[..|log| - 1], gone), log[|log| - 1];
    if Passes(last.scope, gone) then so else so + [last]
  }

  lemma {:induction false} WithoutMembers(entries: seq<Entry>, gone: Option<string>, e: Entry)
    ensures e in Without(entries, gone) <==> e in entries && !Passes(e.scope, gone)
  {
    if entries != [] {
      var front, last := entries[..|entries| - 1], entries[|entries| - 1];
      assert entries == front + [last];
      WithoutMembers(front, gone, e);
    }
  }

  /** A count under `filter` once what passes `gone` is away: `n` passed the filter, and `away` passed `gone`. */
  function Remaining(gone: Option<string>, filter: Option<string>, n: int, away: int): int {
    if gone.None? || gone == filter then 0 else if filter.None? then n - away else n
  }

  lemma {:induction false} CountsWithout(entries: seq<Entry>, gone: Option<string>, filter: Option<string>)
    ensures Total(Without(entries, gone), filter) == Remaining(gone, filter, Total(entries, filter), Total(entries, gone))
    ensures ActiveIn(Without(entries, gone), filter) ==
              Remaining(gone, filter, ActiveIn(entries, filter), ActiveIn(entries, gone))
  {
    if entries != [] {
      var front, last := entries[..|entries| - 1], entries[|entries| - 1];
      CountsWithout(front, gone, filter);
      if !Passes(last.scope, gone) {
        CountsGrow(Without(front, gone), last, filter);
      }
    }
  }

  ghost predicate LogRemains(log: seq<Op>, rest: seq<Op>, gone: Option<string>, filter: Option<string>) {
    && Writes(rest, filter) == Remaining(gone, filter, Writes(log, filter), Writes(log, gone))
    && Replacements(rest, filter) == Remaining(gone, filter, Replacements(log, filter), Replacements(log, gone))
    && Withdrawals(rest, filter) == Remaining(gone, filter, Withdrawals(log, filter), Withdrawals(log, gone))
    && Stale(rest, filter) == Remaining(gone, filter, Stale(log, filter), Stale(log, gone))
  }

  lemma {:induction false} LogRemainsStep(front: seq<Op>, rest: seq<Op>, last: Op, gone: Option<string>,
                                          filter: Option<string>)
    requires LogRemains(front, rest, gone, filter)
    ensures LogRemains(front + [last], if Passes(last.scope, gone) then rest else rest + [last], gone, filter)
  {
    LogGrows(front, last, filter);
    LogGrows(front, last, gone);
    LogGrows(rest, last, filter);
    if Passes(last.scope, gone) {
      assert gone.None? || gone == filter || filter.None? || !Passes(last.scope, filter);
    }
  }

  lemma {:induction false} LogCountsWithout(log: seq<Op>, gone: Option<string>, filter: Option<string>)
    ensures LogRemains(log, LogWithout(log, gone), gone, filter)
  {
    if log != [] {
      var front, last := log[..|log| - 1], log[|log| - 1];
      LogCountsWithout(front, gone, filter);
      assert log == front + [last];
      LogRemainsStep(front, LogWithout(front, gone), last, gone, filter);
    }
  }

  ghost predicate Ascend(entries: seq<Entry>) {
    forall i, j | 0 <= i < j < |entries| :: entries[i].id < entries[j].id
  }

  ghost predicate BelowId(entries: seq<Entry>, id: nat) {
    forall i | 0 <= i < |entries| :: entries[i].id < id
  }

  lemma {:induction false} WithoutBelow(entries: seq<Entry>, gone: Option<string>, id: nat)
    requires BelowId(entries, id)
    ensures BelowId(Without(entries, gone), id)
  {
    if entries != [] {
      WithoutBelow(entries[..|entries| - 1], gone, id);
    }
  }

  lemma {:induction false} WithoutAscends(entries: seq<Entry>, gone: Option<string>)
    requires Ascend(entries)
    ensures Ascend(Without(entries, gone))
  {
    if entries != [] {
      var front, last := entries[..|entries| - 1], entries[|entries| - 1];
      WithoutAscends(front, gone);
      WithoutBelow(front, gone, last.id);
    }
  }

  /** A replacement shares the scope of what it replaces, so clearing a scope, or the whole board, leaves no link
      dangling. */
  lemma {:induction false} ClearingKeepsLinks(entries: seq<Entry>, nextId: nat, gone: Option<string>)
    requires Linked(entries, nextId)
    ensures Linked(Without(entries, gone), nextId)
  {
    var r := Without(entries, gone);
    WithoutAscends(entries, gone);
    WithoutBelow(entries, gone, nextId);
    forall i | 0 <= i < |r| ensures LinkHolds(r, i) {
      LinkStays(entries, nextId, gone, i);
    }
  }

  lemma {:induction false} LinkStays(entries: seq<Entry>, nextId: nat, gone: Option<string>, i: nat)
    requires Linked(entries, nextId) && i < |Without(entries, gone)| && Ascend(Without(entries, gone))
    ensures LinkHolds(Without(entries, gone), i)
  {
    var r := Without(entries, gone);
    WithoutMembers(entries, gone, r[i]);
    assert r[i] in r;
    var k :| 0 <= k < |entries| && entries[k] == r[i];
    assert LinkHolds(entries, k);
    if r[i].supersededBy.Some? {
      var m :| k < m < |entries| && Replaces(entries[m], entries[k]);
      WithoutMembers(entries, gone, entries[m]);
      assert entries[m] in entries;
      var j :| 0 <= j < |r| && r[j] == entries[m];
      LaterStays(r, i, j);
    }
  }

  lemma {:induction false} LaterStays(r: seq<Entry>, i: nat, j: nat)
    requires Ascend(r) && i < |r| && j < |r| && r[i].id < r[j].id
    ensures i < j
  {
  }

  lemma {:induction false} ClearKeeps(entries: seq<Entry>, nextId: nat, log: seq<Op>, gone: Option<string>)
    requires Linked(entries, nextId) && Balanced(entries, log)
    ensures Linked(Without(entries, gone), nextId) && Balanced(Without(entries, gone), LogWithout(log, gone))
  {
    ClearingKeepsLinks(entries, nextId, gone);
    forall f ensures BalancedIn(Without(entries, gone), LogWithout(log, gone), f) {
      assert BalancedIn(entries, log, f) && BalancedIn(entries, log, gone);
      CountsWithout(entries, gone, f);
      LogCountsWithout(log, gone, f);
    }
  }

  lemma {:induction false} AppendKeeps(entries: seq<Entry>, nextId: nat, log: seq<Op>, e: Entry, op: Op)
    requires Linked(entries, nextId) && Balanced(entries, log)
    requires e.id == nextId && e.status == Active && e.supersededBy.None? && op == Wrote(e.scope)
    ensures Linked(entries + [e], nextId + 1) && Balanced(entries + [e], log + [op])
  {
    AppendKeepsLinks(entries, nextId, e);
    forall s ensures BalancedIn(entries + [e], log + [op], s) {
      assert BalancedIn(entries, log, s);
      CountsGrow(entries, e, s);
      LogGrows(log, op, s);
    }
  }

  lemma {:induction false} AppendKeepsLinks(entries: seq<Entry>, nextId: nat, e: Entry)
    requires Linked(entries, nextId) && e.id == nextId && e.status == Active && e.supersededBy.None?
    ensures Linked(entries + [e], nextId + 1)
  {
    var r := entries + [e];
    forall i | 0 <= i < |r| ensures LinkHolds(r, i) {
      if i < |entries| {
        assert LinkHolds(entries, i);
        if entries[i].supersededBy.Some? {
          var j :| i < j < |entries| && Replaces(entries[j], entries[i]);
          assert Replaces(r[j], r[i]);
        }
      }
    }
  }

  /** Changing only status and link of one entry, to a later replacement of the same author and scope. */
  lemma {:induction false} RelinkKeeps(entries: seq<Entry>, nextId: nat, i: nat, e: Entry)
    requires Linked(entries, nextId) && i < |entries|
    requires e == entries[i].(status := e.status, supersededBy := e.supersededBy) && e.status != Active
    requires e.status == Superseded ==> e.supersededBy.Some?
    requires e.supersededBy.Some? ==> exists j :: i < j < |entries| && Replaces(entries[j], e)
    ensures Linked(entries[i := e], nextId)
  {
    var r := entries[i := e];
    forall k | 0 <= k < |r| ensures LinkHolds(r, k) {
      if k == i {
        if e.supersededBy.Some? {
          var j :| i < j < |entries| && Replaces(entries[j], e);
          assert Replaces(r[j], r[i]);
        }
      } else {
        assert LinkHolds(entries, k);
        if r[k].supersededBy.Some? {
          var j :| k < j < |entries| && Replaces(entries[j], entries[k]);
          assert Replaces(r[j], r[k]);
        }
      }
    }
  }

  lemma {:induction false} SupersedeLinks(entries: seq<Entry>, nextId: nat, i: nat, content: string)
    requires Linked(entries, nextId) && i < |entries|
    ensures var e := entries[i];
            var replaced := e.(status := Superseded, supersededBy := Some(nextId));
            var newest := Entry(nextId, content, e.author, e.scope, Active, None);
            Linked(entries[i := replaced] + [newest], nextId + 1)
  {
    var e := entries[i];
    var replaced := e.(status := Superseded, supersededBy := Some(nextId));
    var newest := Entry(nextId, content, e.author, e.scope, Active, None);
    var grown := entries + [newest];
    AppendKeepsLinks(entries, nextId, newest);
    assert Replaces(grown[|entries|], replaced);
    RelinkKeeps(grown, nextId + 1, i, replaced);
    assert grown[i := replaced] == entries[i := replaced] + [newest];
  }

  lemma {:induction false} SupersedeKeeps(entries: seq<Entry>, nextId: nat, log: seq<Op>, i: nat, content: string)
    requires Linked(entries, nextId) && Balanced(entries, log) && i < |entries|
    ensures var e := entries[i];
            var replaced := e.(status := Superseded, supersededBy := Some(nextId));
            var newest := Entry(nextId, content, e.author, e.scope, Active, None);
            && Linked(entries[i := replaced] + [newest], nextId + 1)
            && Balanced(entries[i := replaced] + [newest], log + [Replaced(e.scope, e.status != Active)])
  {
    var e := entries[i];
    var replaced := e.(status := Superseded, supersededBy := Some(nextId));
    var newest := Entry(nextId, content, e.author, e.scope, Active, None);
    SupersedeLinks(entries, nextId, i, content);
    var op := Replaced(e.scope, e.status != Active);
    var board, log' := entries[i := replaced] + [newest], log + [op];
    forall s ensures BalancedIn(board, log', s) {
      assert BalancedIn(entries, log, s);
      CountsChange(entries, i, replaced, s);
      CountsGrow(entries[i := replaced], newest, s);
      LogGrows(log, op, s);
    }
  }

  lemma {:induction false} RetractKeeps(entries: seq<Entry>, nextId: nat, log: seq<Op>, i: nat)
    requires Linked(entries, nextId) && Balanced(entries, log) && i < |entries|
    ensures var e := entries[i];
            && Linked(entries[i := e.(status := Retracted)], nextId)
            && Balanced(entries[i := e.(status := Retracted)], log + [Withdrew(e.scope, e.status != Active)])
  {
    var e := entries[i];
    assert LinkHolds(entries, i);
    RelinkKeeps(entries, nextId, i, e.(status := Retracted));
    var op := Withdrew(e.scope, e.status != Active);
    var board, log' := entries[i := e.(status := Retracted)], log + [op];
    forall s ensures BalancedIn(board, log', s) {
      assert BalancedIn(entries, log, s);
      CountsChange(entries, i, e.(status := Retracted), s);
      LogGrows(log, op, s);
    }
  }

  /******* The life of a board *******/

  /** What is asked of the board. */
  datatype Request =
    | Write(content: string, author: string, scope: Option<string>)
    | Supersede(id: nat, content: string, author: string)
    | Retract(id: nat, author: string)
    | Clear(filter: Option<string>)

  datatype Board = Board(entries: seq<Entry>, nextId: nat, log: seq<Op>)

  const EmptyBoard := Board([], 0, [])

  function Position(entries: seq<Entry>, id: nat): (at: Option<nat>)
    ensures match at
            case Some(i) => i < |entries| && entries[i].id == id && forall j | 0 <= j < i :: entries[j].id != id
            case None => forall j | 0 <= j < |entries| :: entries[j].id != id
  {
    if entries == [] then None else
    var n := |entries| - 1;
    match Position(entries[..n], id)
    case Some(i) => Some(i)
    case None => if entries[n].id == id then Some(n) else None
  }

  /** Where an entry of one's own is. */
  function Own(entries: seq<Entry>, id: nat, author: string): (at: Option<nat>)
    ensures at.Some? ==> at.value < |entries| && entries[at.value].id == id && entries[at.value].author == author
  {
    var at := Position(entries, id);
    if at.Some? && entries[at.value].author != author then None else at
  }

  function Apply(b: Board, r: Request): Board {
    match r
    case Write(content, author, scope) =>
      Board(b.entries + [Entry(b.nextId, content, author, scope, Active, None)], b.nextId + 1, b.log + [Wrote(scope)])
    case Supersede(id, content, author) =>
      (match Own(b.entries, id, author)
       case None => b
       case Some(i) =>
         var e := b.entries[i];
         Board(b.entries[i := e.(status := Superseded, supersededBy := Some(b.nextId))]
                 + [Entry(b.nextId, content, author, e.scope, Active, None)],
               b.nextId + 1, b.log + [Replaced(e.scope, e.status != Active)]))
    case Retract(id, author) =>
      (match Own(b.entries, id, author)
       case None => b
       case Some(i) =>
         var e := b.entries[i];
         Board(b.entries[i := e.(status := Retracted)], b.nextId, b.log + [Withdrew(e.scope, e.status != Active)]))
    case Clear(gone) => Board(Without(b.entries, gone), b.nextId, LogWithout(b.log, gone))
  }

  function After(b: Board, rs: seq<Request>): Board {
    if rs == [] then b else Apply(After(b, rs[..|rs| - 1]), rs[|rs| - 1])
  }

  ghost predicate Good(b: Board) {
    Linked(b.entries, b.nextId) && Balanced(b.entries, b.log)
  }

  lemma {:induction false} ApplyKeepsGood(b: Board, r: Request)
    requires Good(b)
    ensures Good(Apply(b, r))
  {
    match r
    case Write(content, author, scope) =>
      AppendKeeps(b.entries, b.nextId, b.log, Entry(b.nextId, content, author, scope, Active, None), Wrote(scope));
    case Supersede(id, content, author) =>
      var at := Own(b.entries, id, author);
      if at.Some? {
        SupersedeKeeps(b.entries, b.nextId, b.log, at.value, content);
      }
    case Retract(id, author) =>
      var at := Own(b.entries, id, author);
      if at.Some? {
        RetractKeeps(b.entries, b.nextId, b.log, at.value);
      }
    case Clear(gone) => ClearKeeps(b.entries, b.nextId, b.log, gone);
  }

  /** Whatever is asked of a board, the counts balance under every filter and the links hold. */
  lemma {:induction false} EveryHistory(b: Board, rs: seq<Request>)
    requires Good(b)
    ensures Good(After(b, rs))
  {
    if rs != [] {
      EveryHistory(b, rs[..|rs| - 1]);
      ApplyKeepsGood(After(b, rs[..|rs| - 1]), rs[|rs| - 1]);
    }
  }

  /** For the whole board and for each scope of it, after any history: all entries are the writes and the replacements,
      and the active ones are the writes less the withdrawals, exactly when no entry was superseded or withdrawn after
      it had ceased to be active. A clear starts the count of what it clears anew. */
  lemma {:induction false} CountsOverHistory(rs: seq<Request>, filter: Option<string>)
    ensures var b := After(EmptyBoard, rs);
            && Total(b.entries, filter) == Writes(b.log, filter) + Replacements(b.log, filter)
            && (ActiveIn(b.entries, filter) == Writes(b.log, filter) - Withdrawals(b.log, filter) <==>
                  forall k | 0 <= k < |b.log| && Passes(b.log[k].scope, filter) :: !IsStale(b.log[k]))
  {
    var b := After(EmptyBoard, rs);
    EveryHistory(EmptyBoard, rs);
    assert BalancedIn(b.entries, b.log, filter);
    ActiveCountIff(b.entries, b.log, filter);
  }

  /** The identifying part of an entry, and that it is no longer active. */
  predicate Inactive(entries: seq<Entry>, e: Entry) {
    forall i | 0 <= i < |entries| && entries[i].id == e.id :: SameButInactive(entries[i], e)
  }

  predicate SameButInactive(now: Entry, e: Entry) {
    now.status != Active && now.content == e.content && now.author == e.author && now.scope == e.scope
  }

  lemma {:induction false} ApplyKeepsInactive(b: Board, r: Request, e: Entry)
    requires e.id < b.nextId && Inactive(b.entries, e)
    ensures Inactive(Apply(b, r).entries, e) && b.nextId <= Apply(b, r).nextId
  {
    if r.Clear? {
      var kept := Without(b.entries, r.filter);
      forall i | 0 <= i < |kept| && kept[i].id == e.id ensures SameButInactive(kept[i], e) {
        WithoutMembers(b.entries, r.filter, kept[i]);
        assert kept[i] in kept;
        var k :| 0 <= k < |b.entries| && b.entries[k] == kept[i];
        assert SameButInactive(b.entries[k], e);
      }
    }
  }

  /** An entry that is no longer active never becomes active again, nor does its text, author or scope change,
      whatever is asked of the board later. */
  lemma {:induction false} InactiveForever(b: Board, rs: seq<Request>, i: nat)
    requires Good(b) && i < |b.entries| && b.entries[i].status != Active
    ensures Inactive(After(b, rs).entries, b.entries[i]) && b.nextId <= After(b, rs).nextId
  {
    var e := b.entries[i];
    if rs == [] {
      assert forall j | 0 <= j < |b.entries| && b.entries[j].id == e.id :: j == i;
    } else {
      InactiveForever(b, rs[..|rs| - 1], i);
      ApplyKeepsInactive(After(b, rs[..|rs| - 1]), rs[|rs| - 1], e);
    }
  }

  lemma {:induction false} EverythingPasses(entries: seq<Entry>, log: seq<Op>)
    ensures Without(entries, None) == [] && LogWithout(log, None) == []
    decreases |entries| + |log|
  {
    if entries != [] {
      EverythingPasses(entries[..|entries| - 1], log);
    } else if log != [] {
      EverythingPasses(entries, log[..|log| - 1]);
    }
  }

  /** An entry that a count asks for: of the scope, if one is given, and active, unless all are asked for. */
  predicate Counted(e: Entry, scope: Option<string>, includeInactive: bool) {
    (scope.Some? ==> e.scope == scope) && (!includeInactive ==> e.status == Active)
  }

  /** The places of the entries that a count asks for. */
  function Asked(entries: seq<Entry>, scope: Option<string>, includeInactive: bool): set<nat> {
    set i: nat | i < |entries| && Counted(entries[i], scope, includeInactive)
  }

  lemma {:induction false} AskedGrows(front: seq<Entry>, e: Entry, scope: Option<string>, includeInactive: bool)
    ensures Asked(front + [e], scope, includeInactive) ==
              Asked(front, scope, includeInactive) + if Counted(e, scope, includeInactive) then {|front|} else {}
    ensures |front| !in Asked(front, scope, includeInactive)
  {
    assert forall i: nat | i < |front| :: (front + [e])[i] == front[i];
  }

  lemma {:induction false} CountIsTotal(entries: seq<Entry>, scope: Option<string>, includeInactive: bool)
    ensures |Asked(entries, scope, includeInactive)| ==
              if includeInactive then Total(entries, scope) else ActiveIn(entries, scope)
  {
    if entries == [] {
      assert Asked(entries, scope, includeInactive) == {};
    } else {
      var n := |entries| - 1;
      CountIsTotal(entries[..n], scope, includeInactive);
      assert entries == entries[..n] + [entries[n]];
      AskedGrows(entries[..n], entries[n], scope, includeInactive);
    }
  }

  class InMemorySharedMemory {
    var entries: seq<Entry>
    var nextId: nat
    ghost var log: seq<Op>

    ghost function Now(): Board
      reads this
    {
      Board(entries, nextId, log)
    }

    ghost predicate Valid()
      reads this
    {
      Good(Now())
    }

    constructor ()
      ensures Valid() && Now() == EmptyBoard
    {
      entries, nextId, log := [], 0, [];
    }

    method Write(content: string, author: string, scope: Option<string>) returns (id: nat)
      requires Valid()
      modifies this
      ensures Valid() && Now() == Apply(old(Now()), Request.Write(content, author, scope))
      ensures entries == old(entries) + [Entry(id, content, author, scope, Active, None)]
    {
      id := nextId;
      var e := Entry(id, content, author, scope, Active, None);
      ApplyKeepsGood(Now(), Request.Write(content, author, scope));
      entries, nextId, log := entries + [e], nextId + 1, log + [Wrote(scope)];
    }

    /** The position of an entry. */
    method Find(id: nat) returns (at: Option<nat>)
      ensures at == Position(entries, id)
    {
      for i := 0 to |entries|
        invariant forall j | 0 <= j < i :: entries[j].id != id
      {
        if entries[i].id == id {
          return Some(i);
        }
      }
      at := None;
    }

    /** Why an operation on an entry by an author is refused, if it is. */
    ghost predicate Refused(id: nat, author: string, why: Refusal)
      reads this
    {
      match why
      case NotFound => forall e | e in entries :: e.id != id
      case NotTheAuthor => exists e :: e in entries && e.id == id && e.author != author
    }

    /** Replaces an entry of one's own: active or not, it is marked superseded and the replacement is appended. */
    method Supersede(id: nat, content: string, author: string) returns (r: Result<nat, Refusal>)
      requires Valid()
      modifies this
      ensures Valid() && Now() == Apply(old(Now()), Request.Supersede(id, content, author))
      ensures match r
              case Err(why) => Now() == old(Now()) && Refused(id, author, why)
              case Ok(newId) =>
                exists i :: 0 <= i < |old(entries)| &&
                  var e := old(entries)[i];
                  && e.id == id && e.author == author
                  && entries == old(entries)[i := e.(status := Superseded, supersededBy := Some(newId))]
                                + [Entry(newId, content, author, e.scope, Active, None)]
    {
      var at := Find(id);
      if at.None? {
        return Err(NotFound);
      }
      var i := at.value;
      var e := entries[i];
      if e.author != author {
        assert e in entries;
        return Err(NotTheAuthor);
      }
      ApplyKeepsGood(Now(), Request.Supersede(id, content, author));
      entries := entries[i := e.(status := Superseded, supersededBy := Some(nextId))]
        + [Entry(nextId, content, author, e.scope, Active, None)];
      r := Ok(nextId);
      log, nextId := log + [Replaced(e.scope, e.status != Active)], nextId + 1;
    }

    /** Withdraws an entry of one's own, active or not; a link to a replacement stays. */
    method Retract(id: nat, author: string) returns (r: Result<(), Refusal>)
      requires Valid()
      modifies this
      ensures Valid() && Now() == Apply(old(Now()), Request.Retract(id, author))
      ensures match r
              case Err(why) => Now() == old(Now()) && Refused(id, author, why)
              case Ok(_) =>
                exists i :: 0 <= i < |old(entries)| &&
                  var e := old(entries)[i];
                  && e.id == id && e.author == author
                  && entries == old(entries)[i := e.(status := Retracted)]
    {
      var at := Find(id);
      if at.None? {
        return Err(NotFound);
      }
      var i := at.value;
      var e := entries[i];
      if e.author != author {
        assert e in entries;
        return Err(NotTheAuthor);
      }
      ApplyKeepsGood(Now(), Request.Retract(id, author));
      entries, log := entries[i := e.(status := Retracted)], log + [Withdrew(e.scope, e.status != Active)];
      r := Ok(());
    }

    /** Counts one scope, or without a scope the whole board. */
    method Count(scope: Option<string>, includeInactive: bool) returns (n: int)
      requires Valid()
      ensures includeInactive ==> n == Writes(log, scope) + Replacements(log, scope)
      ensures !includeInactive ==> n == Writes(log, scope) - Withdrawals(log, scope) + Stale(log, scope)
      ensures n == |Asked(entries, scope, includeInactive)|
    {
      CountIsTotal(entries, scope, includeInactive);
      n := 0;
      for i := 0 to |entries|
        invariant n == if includeInactive then Total(entries[..i], scope) else ActiveIn(entries[..i], scope)
      {
        assert entries[..i + 1][..i] == entries[..i];
        if Passes(entries[i].scope, scope) && (includeInactive || entries[i].status == Active) {
          n := n + 1;
        }
      }
      assert entries[..|entries|] == entries;
      assert BalancedIn(entries, log, scope);
    }

    /** Removes the entries of one scope, or without a scope all of them. */
    method Clear(scope: Option<string>)
      requires Valid()
      modifies this
      ensures Valid() && Now() == Apply(old(Now()), Request.Clear(scope))
      ensures scope.None? ==> entries == [] && log == []
      ensures forall e :: e in entries <==> e in old(entries) && scope.Some? && e.scope != scope
    {
      ApplyKeepsGood(Now(), Request.Clear(scope));
      EverythingPasses(entries, log);
      forall e ensures e in Without(entries, scope) <==> e in entries && scope.Some? && e.scope != scope {
        WithoutMembers(entries, scope, e);
      }
      ghost var rest := LogWithout(log, scope);
      if scope.None? {
        entries := [];
      } else {
        var kept: seq<Entry> := [];
        for i := 0 to |entries|
          invariant kept == Without(entries[..i], scope)
          modifies {}
        {
          assert entries[..i + 1][..i] == entries[..i];
          if entries[i].scope != scope {
            kept := kept + [entries[i]];
          }
        }
        assert entries[..|entries|] == entries;
        entries := kept;
      }
      log := rest;
    }
  }
}
