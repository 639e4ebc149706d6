/** The trace event store: batches, cursor pages and the cascading deletion that renumbers positions. */
module TraceStore {
  import opened Values

  datatype Level = Info | Debug | Verbose

  function Rank(l: Level): nat {
    match l case Info => 0 case Debug => 1 case Verbose => 2
  }

  datatype Record = Record(eventType: string, level: Level, spanId: nat, parentSpanId: Option<nat>, payload: string)

  datatype Row = Row(id: nat, record: Record)

  /******* Rows *******/

  ghost predicate Increasing(rows: seq<Row>) {
    forall i, j | 0 <= i < j < |rows| :: rows[i].id < rows[j].id
  }

  function Numbered(batch: seq<Record>, counter: nat): (rows: seq<Row>)
    ensures |rows| == |batch| && forall i | 0 <= i < |rows| :: rows[i] == Row(counter + 1 + i, batch[i])
  {
    seq(|batch|, i requires 0 <= i < |batch| => Row(counter + 1 + i, batch[i]))
  }

  predicate Past(id: nat, after: Option<nat>) {
    after.Some? ==> id > after.value
  }

  /** Filters of a query: an empty list of levels or of event types does not filter. */
  datatype Filter = Filter(levels: seq<Level>, eventTypes: seq<string>)

  predicate Admits(f: Filter, r: Record) {
    (f.levels == [] || r.level in f.levels) && (f.eventTypes == [] || r.eventType in f.eventTypes)
  }

  /** The rows past the cursor that the filter admits, in order. */
  function Select(rows: seq<Row>, f: Filter, after: Option<nat>): seq<Row> {
    if rows == [] then [] else
    var last := rows[|rows| - 1];
    Select(rows[..|rows| - 1], f, after) + if Past(last.id, after) && Admits(f, last.record) then [last] else []
  }

  /** The loop of a query stops when it has collected `limit` rows, but looks only after adding one. */
  function PageSize(limit: int): nat {
    if limit < 1 then 1 else limit
  }

  function Page(rows: seq<Row>, f: Filter, after: Option<nat>, limit: int): seq<Row> {
    var all := Select(rows, f, after);
    if |all| <= PageSize(limit) then all else all[..PageSize(limit)]
  }

  lemma {:induction false} SelectAppend(a: seq<Row>, b: seq<Row>, f: Filter, after: Option<nat>)
    ensures Select(a + b, f, after) == Select(a, f, after) + Select(b, f, after)
    decreases |b|
  {
    if b == [] {
      assert a + b == a;
    } else {
      SelectAppend(a, b[..|b| - 1], f, after);
      assert (a + b)[..|a + b| - 1] == a + b[..|b| - 1];
    }
  }

  lemma {:induction false} SelectIncreasing(rows: seq<Row>, f: Filter, after: Option<nat>)
    requires Increasing(rows)
    ensures Increasing(Select(rows, f, after))
    ensures forall r | r in Select(rows, f, after) :: r in rows && Past(r.id, after)
  {
    if rows != [] {
      SelectIncreasing(rows[..|rows| - 1], f, after);
    }
  }

  /** Reading on from the last row of a page skips exactly the page and what came before. */
  lemma {:induction false} CursorSkips(rows: seq<Row>, f: Filter, after: Option<nat>, k: nat)
    requires Increasing(rows) && 0 < k <= |Select(rows, f, after)|
    ensures Select(rows, f, Some(Select(rows, f, after)[k - 1].id)) == Select(rows, f, after)[k..]
  {
    var last, front := rows[|rows| - 1], rows[..|rows| - 1];
    var so := Select(front, f, after);
    if k <= |so| {
      CursorSkips(front, f, after, k);
      SelectBefore(front, f, after, k - 1, last.id);
      CursorSkipsOne(front, last, f, after, so[k - 1].id);
      var tail := if Admits(f, last.record) then [last] else [];
      assert (so + tail)[k..] == so[k..] + tail;
      assert rows == front + [last];
    } else {
      NothingPast(front, f, last.id);
    }
  }

  lemma {:induction false} SelectBefore(rows: seq<Row>, f: Filter, after: Option<nat>, k: nat, bound: nat)
    requires Increasing(rows) && k < |Select(rows, f, after)| && forall r | r in rows :: r.id < bound
    ensures Select(rows, f, after)[k].id < bound && Past(Select(rows, f, after)[k].id, after)
  {
    SelectIncreasing(rows, f, after);
    assert Select(rows, f, after)[k] in rows;
  }

  lemma {:induction false} CursorSkipsOne(front: seq<Row>, last: Row, f: Filter, after: Option<nat>, cursor: nat)
    requires cursor < last.id && Past(cursor, after)
    ensures Select(front + [last], f, Some(cursor)) ==
              Select(front, f, Some(cursor)) + if Admits(f, last.record) then [last] else []
    ensures Past(last.id, after)
  {
    assert (front + [last])[..|front|] == front;
  }

  lemma {:induction false} NothingPast(rows: seq<Row>, f: Filter, cursor: nat)
    requires forall r | r in rows :: r.id < cursor
    ensures Select(rows, f, Some(cursor)) == []
  {
    if rows != [] {
      NothingPast(rows[..|rows| - 1], f, cursor);
    }
  }

  /** A row that a query asks for: of an asked level and type, no list asking for any, and behind the cursor. */
  predicate Asked(f: Filter, after: Option<nat>, r: Row) {
    && (|f.levels| > 0 ==> r.record.level in f.levels)
    && (|f.eventTypes| > 0 ==> r.record.eventType in f.eventTypes)
    && (after.Some? ==> after.value < r.id)
  }

  /** A page: rows that were asked for, in order and no more than the limit or, below a limit of one, one; what was asked
      for and is not on the page lies behind it, and then the page is full. */
  ghost predicate PageOf(rows: seq<Row>, f: Filter, after: Option<nat>, limit: int, page: seq<Row>) {
    && (forall r | r in page :: r in rows && Asked(f, after, r))
    && Increasing(page)
    && (limit >= 1 ==> |page| <= limit) && (limit < 1 ==> |page| <= 1)
    && forall r | r in rows && Asked(f, after, r) ::
         r in page || (page != [] && page[|page| - 1].id < r.id && |page| >= limit)
  }

  lemma {:induction false} SelectAsked(rows: seq<Row>, f: Filter, after: Option<nat>, r: Row)
    ensures r in Select(rows, f, after) <==> r in rows && Asked(f, after, r)
  {
    if rows != [] {
      SelectAsked(rows[..|rows| - 1], f, after, r);
      assert r in rows <==> r in rows[..|rows| - 1] || r == rows[|rows| - 1];
    }
  }

  lemma {:induction false} NotOnPage(rows: seq<Row>, f: Filter, after: Option<nat>, limit: int, r: Row)
    requires Increasing(rows) && r in rows && Asked(f, after, r)
    ensures var page := Page(rows, f, after, limit);
            r in page || (page != [] && page[|page| - 1].id < r.id && |page| >= limit)
  {
    var all, page := Select(rows, f, after), Page(rows, f, after, limit);
    SelectIncreasing(rows, f, after);
    SelectAsked(rows, f, after, r);
    var i :| 0 <= i < |all| && all[i] == r;
    if i < |page| {
      assert page[i] == r;
    }
  }

  lemma {:induction false} PageIsOf(rows: seq<Row>, f: Filter, after: Option<nat>, limit: int)
    requires Increasing(rows)
    ensures PageOf(rows, f, after, limit, Page(rows, f, after, limit))
  {
    var all, page := Select(rows, f, after), Page(rows, f, after, limit);
    SelectIncreasing(rows, f, after);
    forall r | r in page ensures r in rows && Asked(f, after, r) {
      assert r in all;
      SelectAsked(rows, f, after, r);
    }
    forall r | r in rows && Asked(f, after, r)
      ensures r in page || (page != [] && page[|page| - 1].id < r.id && |page| >= limit)
    {
      NotOnPage(rows, f, after, limit, r);
    }
  }

  /******* Reading page by page while rows are appended *******/

  datatype Reading = Reading(rows: seq<Row>, cursor: Option<nat>)

  /** Reads one page from each state of the store in turn, following the cursor. */
  function Walk(states: seq<seq<Row>>, f: Filter, limit: int): Reading {
    if states == [] then Reading([], None) else
    var so := Walk(states[..|states| - 1], f, limit);
    var page := Page(states[|states| - 1], f, so.cursor, limit);
    Reading(so.rows + page, if page == [] then so.cursor else Some(page[|page| - 1].id))
  }

  /** The store only gains rows between pages. */
  ghost predicate Appending(states: seq<seq<Row>>) {
    && (forall i | 0 <= i < |states| :: Increasing(states[i]))
    && (forall i, j | 0 <= i <= j < |states| :: states[i] <= states[j])
  }

  lemma {:induction false} WalkReads(states: seq<seq<Row>>, f: Filter, limit: int, now: seq<Row>)
    requires Appending(states) && Increasing(now) && forall i | 0 <= i < |states| :: states[i] <= now
    ensures var w := Walk(states, f, limit); Select(now, f, None) == w.rows + Select(now, f, w.cursor)
  {
    if states != [] {
      var front := states[..|states| - 1];
      WalkReads(front, f, limit, now);
      PageReads(states[|states| - 1], f, limit, Walk(front, f, limit).cursor, now);
    }
  }

  /** What the rest of the rows will give splits at the page just read. */
  lemma {:induction false} PageReads(here: seq<Row>, f: Filter, limit: int, after: Option<nat>, now: seq<Row>)
    requires Increasing(now) && here <= now
    ensures var page := Page(here, f, after, limit);
            page == [] || Select(now, f, after) == page + Select(now, f, Some(page[|page| - 1].id))
  {
    var page := Page(here, f, after, limit);
    assert now == here + now[|here|..];
    SelectAppend(here, now[|here|..], f, after);
    if page != [] {
      assert page == Select(now, f, after)[..|page|];
      CursorSkips(now, f, after, |page|);
    }
  }

  /** Following the cursor page by page reads every admitted row exactly once and in order, whatever is appended
      in between: what was read so far is a prefix of what the filter admits, and it is all of it as soon as a
      page came back shorter than asked for. A limit below one still reads one row a page. */
  lemma {:induction false} PagingReadsOnce(states: seq<seq<Row>>, f: Filter, limit: int)
    requires Appending(states) && states != []
    ensures var w, here := Walk(states, f, limit), states[|states| - 1];
            && w.rows <= Select(here, f, None)
            && (|Page(here, f, Walk(states[..|states| - 1], f, limit).cursor, limit)| < PageSize(limit)
                ==> w.rows == Select(here, f, None))
  {
    var front, here := states[..|states| - 1], states[|states| - 1];
    WalkReads(states, f, limit, here);
    WalkReads(front, f, limit, here);
  }

  /** Once nothing is appended any more, as many pages as there are admitted rows read all of them, whatever the page
      limit; no page is read in vain before. */
  lemma {:induction false} EnoughPages(states: seq<seq<Row>>, f: Filter, limit: int, rows: seq<Row>)
    requires Increasing(rows) && forall i | 0 <= i < |states| :: states[i] == rows
    ensures var read, all := Walk(states, f, limit).rows, Select(rows, f, None);
            && read <= all && |read| >= (if |states| < |all| then |states| else |all|)
            && (|states| >= |all| ==> read == all)
  {
    WalkReads(states, f, limit, rows);
    if states != [] {
      EnoughPages(states[..|states| - 1], f, limit, rows);
      WalkReads(states[..|states| - 1], f, limit, rows);
    }
  }

  /******* Runs and their parents *******/

  type Runs = map<string, Option<string>>

  /** Following at most `k` parent links leads from `d` to `r`. */
  ghost predicate Leads(runs: Runs, r: string, d: string, k: nat)
    decreases k
  {
    d == r || (k > 0 && d in runs && runs[d].Some? && Leads(runs, r, runs[d].value, k - 1))
  }

  /** `d` is registered and is `r` or below it. */
  ghost predicate Under(runs: Runs, r: string, d: string) {
    d in runs && exists k: nat :: Leads(runs, r, d, k)
  }

  lemma {:induction false} LeadsOn(runs: Runs, r: string, c: string, d: string, k: nat, n: nat)
    requires Leads(runs, c, d, k) && Leads(runs, r, c, n)
    ensures Leads(runs, r, d, k + n)
    decreases k
  {
    if d == c {
      LeadsMore(runs, r, c, n, k);
    } else {
      LeadsOn(runs, r, c, runs[d].value, k - 1, n);
    }
  }

  lemma {:induction false} LeadsMore(runs: Runs, r: string, d: string, n: nat, k: nat)
    requires Leads(runs, r, d, n)
    ensures Leads(runs, r, d, k + n)
    decreases n
  {
    if d != r {
      LeadsMore(runs, r, runs[d].value, n - 1, k);
    }
  }

  lemma {:induction false} UnderTransitive(runs: Runs, r: string, c: string, d: string)
    requires Under(runs, c, d) && Under(runs, r, c)
    ensures Under(runs, r, d)
  {
    var k: nat :| Leads(runs, c, d, k);
    var n: nat :| Leads(runs, r, c, n);
    LeadsOn(runs, r, c, d, k, n);
  }

  /** What is left after the families of `gone` have been removed. */
  ghost predicate Pruned(runs: Runs, gone: set<string>, left: Runs) {
    forall d :: (d in left <==> d in runs && !InFamily(runs, gone, d)) && (d in left ==> left[d] == runs[d])
  }

  ghost predicate InFamily(runs: Runs, gone: set<string>, d: string) {
    exists c :: c in gone && Under(runs, c, d)
  }

  lemma {:induction false} FamilyReachesDown(runs: Runs, gone: set<string>, d: string, p: string)
    requires d in runs && runs[d] == Some(p)
    ensures InFamily(runs, gone, p) ==> InFamily(runs, gone, d)
  {
    if InFamily(runs, gone, p) {
      var g :| g in gone && Under(runs, g, p);
      var n: nat :| Leads(runs, g, p, n);
      assert Leads(runs, g, d, n + 1);
    }
  }

  /** Reachability inside what is left agrees with reachability in the whole. */
  lemma {:induction false} LeadsLeft(runs: Runs, gone: set<string>, left: Runs, c: string, d: string, k: nat)
    requires Pruned(runs, gone, left) && d in left && Leads(runs, c, d, k) && c in left
    ensures Leads(left, c, d, k)
    decreases k
  {
    if d != c {
      var p := runs[d].value;
      if p != c {
        FamilyReachesDown(runs, gone, d, p);
      }
      LeadsLeft(runs, gone, left, c, p, k - 1);
    }
  }

  lemma {:induction false} LeadsWhole(runs: Runs, gone: set<string>, left: Runs, c: string, d: string, k: nat)
    requires Pruned(runs, gone, left) && Leads(left, c, d, k)
    ensures Leads(runs, c, d, k)
    decreases k
  {
    if d != c {
      LeadsWhole(runs, gone, left, c, left[d].value, k - 1);
    }
  }

  /** Removing one more family. */
  lemma {:induction false} PrunedStep(runs: Runs, gone: set<string>, left: Runs, c: string, left': Runs)
    requires Pruned(runs, gone, left) && c in runs
    requires if c in left then forall d :: (d in left' <==> d in left && !Under(left, c, d)) && (d in left' ==> left'[d] == left[d])
             else left' == left
    ensures Pruned(runs, gone + {c}, left')
  {
    forall d ensures (d in left' <==> d in runs && !InFamily(runs, gone + {c}, d)) && (d in left' ==> left'[d] == runs[d]) {
      FamilyGrows(runs, gone, c, d);
      if d in left {
        if c in left {
          UnderLeft(runs, gone, left, c, d);
        } else if Under(runs, c, d) {
          FamilyClosed(runs, gone, c, d);
        }
      }
    }
  }

  lemma {:induction false} FamilyGrows(runs: Runs, gone: set<string>, c: string, d: string)
    ensures InFamily(runs, gone + {c}, d) <==> InFamily(runs, gone, d) || Under(runs, c, d)
  {
    if Under(runs, c, d) {
      assert c in gone + {c};
    }
    if InFamily(runs, gone, d) {
      var g :| g in gone && Under(runs, g, d);
      assert g in gone + {c};
    }
  }

  lemma {:induction false} FamilyClosed(runs: Runs, gone: set<string>, c: string, d: string)
    requires InFamily(runs, gone, c) && Under(runs, c, d)
    ensures InFamily(runs, gone, d)
  {
    var g :| g in gone && Under(runs, g, c);
    UnderTransitive(runs, g, c, d);
  }

  lemma {:induction false} UnderLeft(runs: Runs, gone: set<string>, left: Runs, c: string, d: string)
    requires Pruned(runs, gone, left) && c in left && d in left
    ensures Under(left, c, d) <==> Under(runs, c, d)
  {
    if Under(left, c, d) {
      var k: nat :| Leads(left, c, d, k);
      LeadsWhole(runs, gone, left, c, d, k);
    }
    if Under(runs, c, d) {
      var k: nat :| Leads(runs, c, d, k);
      LeadsLeft(runs, gone, left, c, d, k);
    }
  }

  function Children(runs: Runs, r: string): set<string> {
    set c | c in runs && runs[c] == Some(r)
  }

  /** The family of `r` is `r` itself and the families of its children once `r` is gone. */
  lemma {:induction false} FamilySplits(runs: Runs, r: string, rest: Runs, d: string)
    requires r in runs && rest == runs - {r} && d != r
    ensures Under(runs, r, d) <==> d in rest && InFamily(rest, Children(rest, r), d)
  {
    if Under(runs, r, d) {
      var k: nat :| Leads(runs, r, d, k);
      ChildOnTheWay(runs, r, rest, d, k);
    }
    if d in rest && InFamily(rest, Children(rest, r), d) {
      var c :| c in Children(rest, r) && Under(rest, c, d);
      var k: nat :| Leads(rest, c, d, k);
      ThroughChild(runs, r, rest, c, d, k);
    }
  }

  lemma {:induction false} ChildOnTheWay(runs: Runs, r: string, rest: Runs, d: string, k: nat)
    requires r in runs && rest == runs - {r} && d != r && d in runs && Leads(runs, r, d, k)
    ensures InFamily(rest, Children(rest, r), d)
    decreases k
  {
    var p := runs[d].value;
    if p == r {
      assert d in Children(rest, r) && Leads(rest, d, d, 0) && Under(rest, d, d);
    } else {
      ChildOnTheWay(runs, r, rest, p, k - 1);
      var c :| c in Children(rest, r) && Under(rest, c, p);
      var n: nat :| Leads(rest, c, p, n);
      assert Leads(rest, c, d, n + 1);
      assert Under(rest, c, d);
    }
  }

  lemma {:induction false} ThroughChild(runs: Runs, r: string, rest: Runs, c: string, d: string, k: nat)
    requires r in runs && rest == runs - {r} && c in Children(rest, r) && d in rest && Leads(rest, c, d, k)
    ensures Leads(runs, r, d, k + 1)
    decreases k
  {
    if d == c {
      assert Leads(runs, r, r, k);
    } else {
      ThroughChild(runs, r, rest, c, rest[d].value, k - 1);
    }
  }

  /******* Positions *******/

  type Index = map<string, seq<nat>>

  /** The rows at some positions, in that order. */
  function Gather(events: seq<Row>, at: seq<nat>): (rows: seq<Row>)
    requires forall i | 0 <= i < |at| :: at[i] < |events|
  {
    seq(|at|, i requires 0 <= i < |at| => events[at[i]])
  }

  ghost predicate Ascending(at: seq<nat>, size: nat) {
    && (forall i | 0 <= i < |at| :: at[i] < size)
    && forall i, j | 0 <= i < j < |at| :: at[i] < at[j]
  }

  /** Every parent's positions ascend, and no position belongs to two parents. */
  ghost predicate Indexed(index: Index, size: nat) {
    && (forall p | p in index :: Ascending(index[p], size))
    && forall p, q, x | p in index && q in index && x in index[p] && x in index[q] :: p == q
  }

  ghost predicate Laid(events: seq<Row>, counter: nat, index: Index) {
    && Increasing(events) && (forall i | 0 <= i < |events| :: 0 < events[i].id <= counter)
    && Indexed(index, |events|)
  }

  ghost function RowsOf(events: seq<Row>, index: Index, parent: string): seq<Row>
    requires Indexed(index, |events|)
  {
    if parent in index then Gather(events, index[parent]) else []
  }

  /** A parent's rows come in the order they were stored. */
  /** Positions after a compaction; those that were dropped disappear. */
  function Remap(at: seq<nat>, place: map<nat, nat>): seq<nat> {
    if at == [] then [] else
    var last := at[|at| - 1];
    Remap(at[..|at| - 1], place) + if last in place then [place[last]] else []
  }

  lemma {:induction false} RemapAll(at: seq<nat>, place: map<nat, nat>)
    requires forall x | x in at :: x in place
    ensures |Remap(at, place)| == |at| && forall i | 0 <= i < |at| :: Remap(at, place)[i] == place[at[i]]
  {
    if at != [] {
      assert at[|at| - 1] in at;
      RemapAll(at[..|at| - 1], place);
    }
  }

  /** `kept` is `events[..upTo]` without the removed positions, `place` says where each position went, and
      `origin` where each came from. */
  ghost predicate Compacted(events: seq<Row>, removed: set<nat>, upTo: nat, kept: seq<Row>, place: map<nat, nat>,
                            origin: seq<nat>) {
    && upTo <= |events| && |origin| == |kept| && Ascending(origin, upTo)
    && (forall k | 0 <= k < |kept| :: origin[k] in place && place[origin[k]] == k && kept[k] == events[origin[k]])
    && (forall i | i in place :: place[i] < |kept| && origin[place[i]] == i)
    && (forall i | 0 <= i < upTo :: i in place <==> i !in removed)
  }

  lemma {:induction false} CompactedStep(events: seq<Row>, removed: set<nat>, i: nat, kept: seq<Row>,
                                         place: map<nat, nat>,
                      origin: seq<nat>)
    requires Compacted(events, removed, i, kept, place, origin) && i < |events|
    ensures if i in removed then Compacted(events, removed, i + 1, kept, place, origin)
            else Compacted(events, removed, i + 1, kept + [events[i]], place[i := |kept|], origin + [i])
  {
  }

  lemma {:induction false} CompactedKeepsOrder(events: seq<Row>, counter: nat, removed: set<nat>, kept: seq<Row>,
                                               place: map<nat, nat>,
                            origin: seq<nat>)
    requires Increasing(events) && Compacted(events, removed, |events|, kept, place, origin)
    requires forall i | 0 <= i < |events| :: 0 < events[i].id <= counter
    ensures Increasing(kept) && forall i | 0 <= i < |kept| :: 0 < kept[i].id <= counter
  {
    forall k, l | 0 <= k < l < |kept| ensures kept[k].id < kept[l].id {
      assert origin[k] < origin[l];
    }
  }

  /** Positions that were kept lead to the same rows. */
  lemma {:induction false} RemapKeeps(events: seq<Row>, removed: set<nat>, kept: seq<Row>, place: map<nat, nat>,
                                      origin: seq<nat>,
                   at: seq<nat>)
    requires Compacted(events, removed, |events|, kept, place, origin)
    requires Ascending(at, |events|) && forall x | x in at :: x !in removed
    ensures var to := Remap(at, place);
            && Ascending(to, |kept|) && Gather(kept, to) == Gather(events, at)
            && forall y | y in to :: y < |origin| && origin[y] in at
  {
    forall x | x in at ensures x in place {
    }
    RemapAll(at, place);
    var to := Remap(at, place);
    assert forall i | 0 <= i < |to| :: at[i] in at && at[i] in place && to[i] == place[at[i]];
    MapsBack(events, removed, kept, place, origin, at, to);
  }

  lemma {:induction false} MapsBack(events: seq<Row>, removed: set<nat>, kept: seq<Row>, place: map<nat, nat>,
                                    origin: seq<nat>,
                 at: seq<nat>, to: seq<nat>)
    requires Compacted(events, removed, |events|, kept, place, origin) && Ascending(at, |events|)
    requires |to| == |at| && forall i | 0 <= i < |to| :: at[i] in place && to[i] == place[at[i]]
    ensures Ascending(to, |kept|) && Gather(kept, to) == Gather(events, at)
    ensures forall y | y in to :: y < |origin| && origin[y] in at
  {
    forall i | 0 <= i < |to| ensures to[i] < |kept| && origin[to[i]] == at[i] && kept[to[i]] == events[at[i]] {
    }
    forall i, j | 0 <= i < j < |to| ensures to[i] < to[j] {
      assert origin[to[i]] < origin[to[j]];
    }
  }

  /** Compaction after dropping one parent's positions leaves every other parent the same rows. */
  lemma {:induction false} CompactionKeepsRows(events: seq<Row>, index: Index, r: string, kept: seq<Row>,
                                               place: map<nat, nat>,
                            origin: seq<nat>,
                            index': Index)
    requires Indexed(index, |events|) && r in index
    requires Compacted(events, set x | x in index[r], |events|, kept, place, origin)
    requires index' == map p | p in index && p != r :: Remap(index[p], place)
    ensures Indexed(index', |kept|)
    ensures forall p | p != r :: RowsOf(kept, index', p) == RowsOf(events, index, p)
  {
    var removed := set x | x in index[r];
    forall p | p in index'
      ensures Ascending(index'[p], |kept|) && Gather(kept, index'[p]) == Gather(events, index[p])
      ensures forall y | y in index'[p] :: y < |origin| && origin[y] in index[p]
    {
      assert forall x | x in index[p] :: x !in removed;
      RemapKeeps(events, removed, kept, place, origin, index[p]);
    }
    forall p, q, x | p in index' && q in index' && x in index'[p] && x in index'[q] ensures p == q {
      assert origin[x] in index[p] && origin[x] in index[q];
    }
  }

  /** Who has lost rows between two layouts: the families of `gone`, and nobody else. */
  ghost predicate RowsLost(events: seq<Row>, index: Index, events': seq<Row>, index': Index, runs: Runs,
                           gone: set<string>)
    requires Indexed(index, |events|) && Indexed(index', |events'|)
  {
    forall p :: RowsOf(events', index', p) == if InFamily(runs, gone, p) then [] else RowsOf(events, index, p)
  }

  /** The rows after one run was deleted. */
  ghost predicate RowsDeleted(events: seq<Row>, index: Index, events': seq<Row>, index': Index, runs: Runs, r: string)
    requires Indexed(index, |events|) && Indexed(index', |events'|)
  {
    forall p :: RowsOf(events', index', p) == if Under(runs, r, p) then [] else RowsOf(events, index, p)
  }

  /** One parent has lost its rows. */
  ghost predicate RowsPurged(events: seq<Row>, index: Index, events': seq<Row>, index': Index, r: string)
    requires Indexed(index, |events|) && Indexed(index', |events'|)
  {
    forall p :: RowsOf(events', index', p) == if p == r then [] else RowsOf(events, index, p)
  }

  /** The runs after one was deleted. */
  ghost predicate RunsDeleted(runs: Runs, r: string, left: Runs) {
    forall d :: (d in left <==> d in runs && !Under(runs, r, d)) && (d in left ==> left[d] == runs[d])
  }

  /** Purging the root of a family after its children's families completes the deletion. */
  lemma {:induction false} DeletionCompletes(whole: Runs, r: string, rest: Runs, gone: set<string>, left: Runs,
                                             events: seq<Row>,
                          index: Index,
                          mid: seq<Row>, midIndex: Index, events': seq<Row>, index': Index)
    requires r in whole && rest == whole - {r} && gone == Children(rest, r) && Pruned(rest, gone, left)
    requires Indexed(index, |events|) && Indexed(midIndex, |mid|) && Indexed(index', |events'|)
    requires RowsLost(events, index, mid, midIndex, rest, gone)
    requires RowsPurged(mid, midIndex, events', index', r)
    ensures RunsDeleted(whole, r, left) && RowsDeleted(events, index, events', index', whole, r)
  {
    assert Leads(whole, r, r, 0);
    forall d | d != r ensures Under(whole, r, d) <==> d in rest && InFamily(rest, gone, d) {
      FamilySplits(whole, r, rest, d);
    }
    forall d ensures (d in left <==> d in whole && !Under(whole, r, d)) && (d in left ==> left[d] == whole[d]) {
    }
  }

  ghost function Among(ids: seq<string>): set<string> {
    set c | c in ids
  }

  lemma {:induction false} AmongMore(ids: seq<string>, i: nat)
    requires i < |ids|
    ensures Among(ids[..i + 1]) == Among(ids[..i]) + {ids[i]} && ids[i] in Among(ids)
  {
    assert ids[..i + 1] == ids[..i] + [ids[i]];
  }

  /** The members of a set in some order. */
  method Listed(s: set<string>) returns (ids: seq<string>)
    ensures Among(ids) == s
  {
    ids := [];
    var left := s;
    while exists c :: c in left
      invariant left <= s && Among(ids) == s - left
      decreases left
    {
      if c :| c in left {
        AmongMore(ids + [c], |ids|);
        assert (ids + [c])[..|ids|] == ids && (ids + [c])[..|ids| + 1] == ids + [c];
        ids, left := ids + [c], left - {c};
      }
    }
  }

  class PersistentTraceStore {
    var events: seq<Row>
    var counter: nat
    var index: Index
    var runs: Runs

    ghost predicate Valid()
      reads this
    {
      Laid(events, counter, index)
    }

    /** The rows stored under a parent. */
    ghost function Rows(parent: string): seq<Row>
      reads this
      requires Valid()
    {
      RowsOf(events, index, parent)
    }

    constructor ()
      ensures Valid() && counter == 0 && runs == map[] && forall p :: Rows(p) == []
    {
      events, counter, index, runs := [], 0, map[], map[];
    }

    /** Stores a batch under a parent; ids go on from the last one ever given. */
    method SaveEventsBatch(parent: string, batch: seq<Record>)
      requires Valid()
      modifies this`events, this`counter, this`index
      ensures Valid() && counter == old(counter) + |batch|
      ensures events == old(events) + Numbered(batch, old(counter))
      ensures Rows(parent) == old(Rows(parent)) + Numbered(batch, old(counter))
      ensures forall p | p != parent :: Rows(p) == old(Rows(p))
    {
      var rows, at := Lay(batch, counter, |events|, At(index, parent));
      SavedEvents(events, counter, batch);
      SavedIndex(index, |events|, parent, |batch|);
      SavedRows(events, counter, index, parent, batch);
      events, counter, index := events + rows, counter + |batch|, index[parent := at];
    }

    /** The loop over a batch: each record gets the next id and the next position. */
    static method Lay(batch: seq<Record>, counter: nat, size: nat, known: seq<nat>)
      returns (rows: seq<Row>, at: seq<nat>)
      ensures rows == Numbered(batch, counter) && at == known + Positions(size, |batch|)
    {
      rows, at := [], known;
      for i := 0 to |batch|
        invariant rows == Numbered(batch, counter)[..i] && at == known + Positions(size, i)
      {
        rows, at := rows + [Row(counter + 1 + i, batch[i])], at + [size + i];
      }
    }

    /** The pages of a query. */
    method QueryEvents(parent: string, f: Filter, after: Option<nat>, limit: int) returns (page: seq<Row>)
      requires Valid()
      ensures page == Page(Rows(parent), f, after, limit)
      ensures PageOf(Rows(parent), f, after, limit, page)
    {
      page := [];
      PageIsOf(Rows(parent), f, after, limit);
      if parent in index {
        page := Collect(Gather(events, index[parent]), f, after, limit);
      }
    }

    /** The loop of a query: it looks at the limit after adding a row. */
    static method Collect(rows: seq<Row>, f: Filter, after: Option<nat>, limit: int) returns (page: seq<Row>)
      ensures page == Page(rows, f, after, limit)
    {
      page := [];
      var i := 0;
      while i < |rows|
        invariant 0 <= i <= |rows| && page == Select(rows[..i], f, after) && |page| < PageSize(limit)
      {
        var e := rows[i];
        assert rows[..i + 1][..i] == rows[..i];
        i := i + 1;
        if Past(e.id, after) && Admits(f, e.record) {
          page := page + [e];
          if |page| >= limit {
            assert rows == rows[..i] + rows[i..];
            SelectAppend(rows[..i], rows[i..], f, after);
            return;
          }
        }
      }
      assert rows[..|rows|] == rows;
    }

    method RegisterRun(runId: string, parent: Option<string>)
      modifies this`runs
      ensures runs == old(runs)[runId := parent]
    {
      runs := runs[runId := parent];
    }

    /** Deletes a run, the runs below it, and the rows of all of them; nobody else's rows change. */
    method DeleteRun(r: string) returns (found: bool)
      requires Valid()
      modifies this
      ensures Valid() && counter == old(counter) && found == (r in old(runs))
      ensures if found then RunsDeleted(old(runs), r, runs) && RowsDeleted(old(events), old(index), events, index, old(runs), r)
              else runs == old(runs) && events == old(events) && index == old(index)
      decreases |runs|, 0
    {
      if r !in runs {
        return false;
      }
      found := true;
      Smaller(runs, r);
      runs := runs - {r};
      ghost var rest := runs;
      DeleteChildren(r);
      ghost var mid, midIndex := events, index;
      Purge(r);
      DeletionCompletes(old(runs), r, rest, Children(rest, r), runs, old(events), old(index), mid, midIndex, events,
                        index);
    }

    /** The loop over the children of a run that is itself already gone. */
    method DeleteChildren(r: string)
      requires Valid()
      modifies this
      ensures Valid() && counter == old(counter)
      ensures Progress(old(runs), Children(old(runs), r), runs, old(events), old(index), events, index)
      decreases |runs|, 2
    {
      var ids := Listed(Children(runs, r));
      ghost var whole := runs;
      NothingGone(runs, events, index);
      for i := 0 to |ids|
        invariant Valid() && counter == old(counter) && |runs| <= |whole|
        invariant Progress(whole, Among(ids[..i]), runs, old(events), old(index), events, index)
      {
        AmongMore(ids, i);
        DeleteChild(ids[i], whole, Among(ids[..i]), old(events), old(index));
      }
      assert ids[..|ids|] == ids && Among(ids) == Children(whole, r);
    }

    /** One pass of that loop. */
    method DeleteChild(c: string, ghost whole: Runs, ghost gone: set<string>, ghost eventsBefore: seq<Row>,
                       ghost indexBefore: Index)
      requires Valid() && c in whole && Progress(whole, gone, runs, eventsBefore, indexBefore, events, index)
      modifies this
      ensures Valid() && counter == old(counter) && |runs| <= |old(runs)|
      ensures Progress(whole, gone + {c}, runs, eventsBefore, indexBefore, events, index)
      decreases |runs|, 1
    {
      ghost var left, mid, midIndex := runs, events, index;
      var known := DeleteRun(c);
      OneMoreFamily(whole, gone, left, c, runs, eventsBefore, indexBefore, mid, midIndex, events, index);
    }

    /** Drops a parent's rows and renumbers the positions of all others. */
    method Purge(r: string)
      requires Valid()
      modifies this`events, this`index
      ensures Valid() && RowsPurged(old(events), old(index), events, index, r)
    {
      if r !in index {
        return;
      }
      var removed := set x | x in index[r];
      if exists x :: x in removed {
        var kept: seq<Row>, place: map<nat, nat> := [], map[];
        ghost var origin: seq<nat> := [];
        for i := 0 to |events|
          invariant Compacted(events, removed, i, kept, place, origin)
          modifies {}
        {
          CompactedStep(events, removed, i, kept, place, origin);
          if i !in removed {
            kept, place, origin := kept + [events[i]], place[i := |kept|], origin + [i];
          }
        }
        var remapped := map p | p in index && p != r :: Remap(index[p], place);
        CompactedKeepsOrder(events, counter, removed, kept, place, origin);
        CompactionKeepsRows(events, index, r, kept, place, origin, remapped);
        events, index := kept, remapped;
      } else {
        index := index - {r};
      }
    }
  }

  function Positions(from: nat, n: nat): (at: seq<nat>)
    ensures |at| == n && forall i | 0 <= i < n :: at[i] == from + i
  {
    seq(n, i requires 0 <= i < n => from + i)
  }

  function At(index: Index, parent: string): seq<nat> {
    if parent in index then index[parent] else []
  }

  lemma {:induction false} SavedEvents(events: seq<Row>, counter: nat, batch: seq<Record>)
    requires Increasing(events) && forall i | 0 <= i < |events| :: 0 < events[i].id <= counter
    ensures var events' := events + Numbered(batch, counter);
            Increasing(events') && forall i | 0 <= i < |events'| :: 0 < events'[i].id <= counter + |batch|
  {
  }

  lemma {:induction false} SavedIndex(index: Index, size: nat, parent: string, n: nat)
    requires Indexed(index, size)
    ensures Indexed(index[parent := At(index, parent) + Positions(size, n)], size + n)
  {
    var index' := index[parent := At(index, parent) + Positions(size, n)];
    forall p | p in index' ensures Ascending(index'[p], size + n) {
    }
    forall p, q, x | p in index' && q in index' && x in index'[p] && x in index'[q] ensures p == q {
      if x < size {
        assert x in At(index, p) && x in At(index, q);
      }
    }
  }

  lemma {:induction false} SavedRows(events: seq<Row>, counter: nat, index: Index, parent: string, batch: seq<Record>)
    requires Indexed(index, |events|)
    requires Indexed(index[parent := At(index, parent) + Positions(|events|, |batch|)], |events| + |batch|)
    ensures var events' := events + Numbered(batch, counter);
            var index' := index[parent := At(index, parent) + Positions(|events|, |batch|)];
            && RowsOf(events', index', parent) == RowsOf(events, index, parent) + Numbered(batch, counter)
            && forall p | p != parent :: RowsOf(events', index', p) == RowsOf(events, index, p)
  {
    assert Ascending(At(index, parent), |events|);
    GatherMore(events, Numbered(batch, counter), At(index, parent));
    forall p | p != parent && p in index
      ensures Ascending(index[p], |events|) && Gather(events + Numbered(batch, counter), index[p]) ==
                Gather(events, index[p])
    {
      assert Ascending(index[p], |events|);
      GatherMore(events, Numbered(batch, counter), index[p]);
    }
  }

  lemma {:induction false} GatherMore(events: seq<Row>, more: seq<Row>, at: seq<nat>)
    requires Ascending(at, |events|)
    ensures Gather(events + more, at) == Gather(events, at)
    ensures Gather(events + more, at + Positions(|events|, |more|)) == Gather(events, at) + more
  {
  }

  lemma {:induction false} Smaller(runs: Runs, r: string)
    requires r in runs
    ensures |runs - {r}| < |runs|
  {
    assert (runs - {r}).Keys == runs.Keys - {r};
  }

  lemma {:induction false} SmallerOrSame(left: Runs, runs: Runs)
    requires forall d | d in runs :: d in left
    ensures |runs| <= |left|
  {
    assert runs.Keys <= left.Keys;
    CardinalityOfSubset(runs.Keys, left.Keys);
  }

  lemma {:induction false} CardinalityOfSubset(a: set<string>, b: set<string>)
    requires a <= b
    ensures |a| <= |b|
  {
    assert b == a + (b - a);
  }

  /** After one more family is removed, the parents without rows are those of the families removed so far. */
  lemma {:induction false} RowsPruned(runs: Runs, gone: set<string>, left: Runs, c: string)
    requires Pruned(runs, gone, left) && c in runs
    ensures forall p :: InFamily(runs, gone + {c}, p) <==> InFamily(runs, gone, p) || (c in left && Under(left, c, p))
  {
    forall p ensures InFamily(runs, gone + {c}, p) <==> InFamily(runs, gone, p) || (c in left && Under(left, c, p)) {
      FamilyGrows(runs, gone, c, p);
      if c in left {
        if p in left {
          UnderLeft(runs, gone, left, c, p);
        }
      } else if Under(runs, c, p) {
        FamilyClosed(runs, gone, c, p);
      }
    }
  }

  /** After the families of `gone` were removed: the runs that are left, and who has lost rows. */
  ghost predicate Progress(runs: Runs, gone: set<string>, left: Runs, events: seq<Row>, index: Index,
                           events': seq<Row>, index': Index) {
    && Indexed(index, |events|) && Indexed(index', |events'|)
    && Pruned(runs, gone, left) && RowsLost(events, index, events', index', runs, gone)
  }

  lemma {:induction false} NothingGone(runs: Runs, events: seq<Row>, index: Index)
    requires Indexed(index, |events|)
    ensures Progress(runs, {}, runs, events, index, events, index)
  {
    assert forall d :: !InFamily(runs, {}, d);
  }

  lemma {:induction false} OneMoreFamily(runs: Runs, gone: set<string>, left: Runs, c: string, left': Runs,
                                         events: seq<Row>, index: Index,
                      mid: seq<Row>, midIndex: Index, events': seq<Row>, index': Index)
    requires Progress(runs, gone, left, events, index, mid, midIndex) && c in runs && Indexed(index', |events'|)
    requires if c in left then RunsDeleted(left, c, left') && RowsDeleted(mid, midIndex, events', index', left, c)
             else left' == left && events' == mid && index' == midIndex
    ensures Progress(runs, gone + {c}, left', events, index, events', index') && |left'| <= |left|
  {
    PrunedStep(runs, gone, left, c, left');
    RowsPruned(runs, gone, left, c);
    SmallerOrSame(left, left');
  }
}
