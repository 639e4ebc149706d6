/** The trace collector: buffering, flushes that may overlap and fail, and what is lost when. */
module Collector {
  import opened Values
  import opened Multiplicity
  import opened TraceStore
  import opened Emitters

  const MAX_FLUSH_ATTEMPTS := 3

  /** How the write of one batch ended. A cancelled flush does not learn whether its write took place. */
  datatype Write = Saved | Refused | CancelledAfterWrite | CancelledBeforeWrite

  /** The slice `buffer[-most:]` that is taken when a buffer is longer than `most`. */
  function Overflow(buffer: seq<nat>, most: int): (n: nat)
    ensures n <= |buffer|
  {
    if |buffer| <= most || most == 0 then 0
    else if most > 0 then |buffer| - most
    else if -most <= |buffer| then -most else |buffer|
  }

  /******* Counting tickets *******/

  function TimesIn(batches: seq<seq<nat>>, t: nat): nat {
    if batches == [] then 0 else TimesIn(batches[..|batches| - 1], t) + Times(batches[|batches| - 1], t)
  }

  lemma {:induction false} TimesInAppend(a: seq<seq<nat>>, b: seq<seq<nat>>, t: nat)
    ensures TimesIn(a + b, t) == TimesIn(a, t) + TimesIn(b, t)
    decreases |b|
  {
    if b == [] {
      assert a + b == a;
    } else {
      TimesInAppend(a, b[..|b| - 1], t);
      assert (a + b)[..|a + b| - 1] == a + b[..|b| - 1];
    }
  }

  lemma {:induction false} TimesRemove(batches: seq<seq<nat>>, k: nat, t: nat)
    requires k < |batches|
    ensures TimesIn(batches, t) == TimesIn(batches[..k] + batches[k + 1..], t) + Times(batches[k], t)
  {
    var a, b, c := batches[..k], [batches[k]], batches[k + 1..];
    assert batches == a + b + c;
    TimesInAppend(a + b, c, t);
    TimesInAppend(a, b, t);
    TimesInAppend(a, c, t);
    TimesOne(batches[k], t);
  }

  lemma {:induction false} TimesOne(batch: seq<nat>, t: nat)
    ensures TimesIn([batch], t) == Times(batch, t)
  {
    assert TimesIn([batch][..0], t) == 0;
  }

  function Tickets(n: nat): (s: seq<nat>)
    ensures |s| == n && forall i | 0 <= i < n :: s[i] == i
  {
    seq(n, i requires 0 <= i < n => i)
  }

  /** In how many places a record is: stored, dropped, in a batch being written, or buffered. */
  ghost function Places(stored: seq<nat>, dropped: seq<nat>, flights: seq<seq<nat>>, buffer: seq<nat>, t: nat): nat {
    Times(stored, t) + Times(dropped, t) + TimesIn(flights, t) + Times(buffer, t)
  }

  /** Every record handled so far is in exactly one place, once. */
  ghost predicate Conserved(n: nat, stored: seq<nat>, dropped: seq<nat>, flights: seq<seq<nat>>, buffer: seq<nat>) {
    forall t: nat :: Places(stored, dropped, flights, buffer, t) == if t < n then 1 else 0
  }

  predicate Sorted(s: seq<nat>) {
    forall i, j | 0 <= i < j < |s| :: s[i] < s[j]
  }

  /** With one batch at most being written, what is stored, then that batch, then the buffer, is in order. */
  ghost predicate KeepsOrder(stored: seq<nat>, flights: seq<seq<nat>>, buffer: seq<nat>) {
    |flights| <= 1 && Sorted(Pipeline(stored, flights, buffer))
  }

  lemma {:induction false} HandleConserves(n: nat, stored: seq<nat>, dropped: seq<nat>, flights: seq<seq<nat>>,
                                           buffer: seq<nat>)
    requires Conserved(n, stored, dropped, flights, buffer)
    ensures Conserved(n + 1, stored, dropped, flights, buffer + [n])
  {
    forall t: nat ensures Places(stored, dropped, flights, buffer + [n], t) == if t < n + 1 then 1 else 0 {
      assert Places(stored, dropped, flights, buffer, t) == if t < n then 1 else 0;
      TimesAppend(buffer, [n], t);
    }
  }

  lemma {:induction false} BeginConserves(n: nat, stored: seq<nat>, dropped: seq<nat>, flights: seq<seq<nat>>,
                                          buffer: seq<nat>)
    requires Conserved(n, stored, dropped, flights, buffer)
    ensures Conserved(n, stored, dropped, flights + [buffer], [])
  {
    forall t: nat ensures Places(stored, dropped, flights + [buffer], [], t) == if t < n then 1 else 0 {
      assert Places(stored, dropped, flights, buffer, t) == if t < n then 1 else 0;
      TimesInAppend(flights, [buffer], t);
      TimesOne(buffer, t);
    }
  }

  /** A finished batch moves to the stored, the dropped or the buffered records. */
  lemma {:induction false} FinishConserves(n: nat, stored: seq<nat>, dropped: seq<nat>, flights: seq<seq<nat>>,
                                           buffer: seq<nat>, k: nat)
    requires Conserved(n, stored, dropped, flights, buffer) && k < |flights|
    ensures var rest := flights[..k] + flights[k + 1..];
            && Conserved(n, stored + flights[k], dropped, rest, buffer)
            && Conserved(n, stored, dropped + flights[k], rest, buffer)
            && Conserved(n, stored, dropped, rest, flights[k] + buffer)
  {
    var rest, batch := flights[..k] + flights[k + 1..], flights[k];
    forall t: nat
      ensures Places(stored + batch, dropped, rest, buffer, t) == Places(stored, dropped + batch, rest, buffer, t)
              == Places(stored, dropped, rest, batch + buffer, t) == if t < n then 1 else 0
    {
      assert Places(stored, dropped, flights, buffer, t) == if t < n then 1 else 0;
      TimesRemove(flights, k, t);
      TimesAppend(stored, batch, t);
      TimesAppend(dropped, batch, t);
      TimesAppend(batch, buffer, t);
    }
  }

  lemma {:induction false} TrimConserves(n: nat, stored: seq<nat>, dropped: seq<nat>, flights: seq<seq<nat>>,
                                         buffer: seq<nat>, k: nat)
    requires Conserved(n, stored, dropped, flights, buffer) && k <= |buffer|
    ensures Conserved(n, stored, dropped + buffer[..k], flights, buffer[k..])
  {
    forall t: nat ensures Places(stored, dropped + buffer[..k], flights, buffer[k..], t) == if t < n then 1 else 0 {
      assert Places(stored, dropped, flights, buffer, t) == if t < n then 1 else 0;
      assert buffer == buffer[..k] + buffer[k..];
      TimesAppend(buffer[..k], buffer[k..], t);
      TimesAppend(dropped, buffer[..k], t);
    }
  }

  lemma {:induction false} BoundedByTickets(n: nat, stored: seq<nat>, dropped: seq<nat>, flights: seq<seq<nat>>,
                                            buffer: seq<nat>)
    requires Conserved(n, stored, dropped, flights, buffer)
    ensures forall t | t in buffer || t in stored || t in dropped :: t < n
    ensures forall k, t | 0 <= k < |flights| && t in flights[k] :: t < n
  {
    forall t: nat | t in buffer || t in stored || t in dropped ensures t < n {
      assert Places(stored, dropped, flights, buffer, t) == if t < n then 1 else 0;
      TimesMember<nat>(buffer, t);
      TimesMember<nat>(stored, t);
      TimesMember<nat>(dropped, t);
    }
    forall k, t: nat | 0 <= k < |flights| && t in flights[k] ensures t < n {
      assert Places(stored, dropped, flights, buffer, t) == if t < n then 1 else 0;
      TimesRemove(flights, k, t);
      TimesMember<nat>(flights[k], t);
    }
  }

  function Pipeline(stored: seq<nat>, flights: seq<seq<nat>>, buffer: seq<nat>): seq<nat>
    requires |flights| <= 1
  {
    stored + (if flights == [] then [] else flights[0]) + buffer
  }

  lemma {:induction false} TimesInPipeline(stored: seq<nat>, flights: seq<seq<nat>>, buffer: seq<nat>, t: nat)
    requires |flights| <= 1
    ensures Times(Pipeline(stored, flights, buffer), t) == Times(stored, t) + TimesIn(flights, t) + Times(buffer, t)
  {
    if flights != [] {
      assert flights == [flights[0]];
      TimesOne(flights[0], t);
      TimesAppend(stored, flights[0], t);
      TimesAppend(stored + flights[0], buffer, t);
    } else {
      assert stored + [] == stored;
      TimesAppend(stored, buffer, t);
    }
  }

  /** While no flush overlaps another, the stored records, the batch being written and the buffer are exactly
      the handled records, in order, if and only if nothing was dropped. */
  lemma {:induction false} NothingLost(n: nat, stored: seq<nat>, dropped: seq<nat>, flights: seq<seq<nat>>,
                                       buffer: seq<nat>)
    requires Conserved(n, stored, dropped, flights, buffer) && KeepsOrder(stored, flights, buffer)
    ensures Pipeline(stored, flights, buffer) == Tickets(n) <==> dropped == []
  {
    var all := Pipeline(stored, flights, buffer);
    forall t: nat ensures Times(all, t) + Times(dropped, t) == if t < n then 1 else 0 {
      assert Places(stored, dropped, flights, buffer, t) == if t < n then 1 else 0;
      TimesInPipeline(stored, flights, buffer, t);
    }
    if dropped == [] {
      forall t: nat ensures t in all <==> t < n {
        TimesMember(all, t);
      }
      SortedIsIdentity(all, n);
    } else {
      TimesMember(dropped, dropped[0]);
      TimesMember(all, dropped[0]);
      assert dropped[0] !in all && dropped[0] < n;
      assert Tickets(n)[dropped[0]] == dropped[0];
    }
  }

  lemma {:induction false} SortedIsIdentity(s: seq<nat>, n: nat)
    requires Sorted(s) && forall t: nat :: t in s <==> t < n
    ensures s == Tickets(n)
  {
    if n == 0 {
      assert forall i | 0 <= i < |s| :: s[i] !in s;
    } else {
      assert n - 1 in s;
      var i :| 0 <= i < |s| && s[i] == n - 1;
      LastIsGreatest(s, i, n);
      var front := s[..|s| - 1];
      forall t: nat ensures t in front <==> t < n - 1 {
        if t < n - 1 {
          assert t in s;
          var j :| 0 <= j < |s| && s[j] == t;
          assert front[j] == t;
        }
        if t in front {
          var j :| 0 <= j < |front| && front[j] == t;
          assert s[j] < s[|s| - 1];
        }
      }
      SortedIsIdentity(front, n - 1);
      assert s == front + [n - 1];
    }
  }

  lemma {:induction false} LastIsGreatest(s: seq<nat>, i: nat, n: nat)
    requires Sorted(s) && i < |s| && s[i] == n - 1 && forall t: nat :: t in s ==> t < n
    ensures i == |s| - 1
  {
    assert s[|s| - 1] in s;
  }

  function Fetch(records: seq<Record>, batch: seq<nat>): (rs: seq<Record>)
    requires forall i | 0 <= i < |batch| :: batch[i] < |records|
    ensures |rs| == |batch| && forall i | 0 <= i < |batch| :: rs[i] == records[batch[i]]
  {
    seq(|batch|, i requires 0 <= i < |batch| => records[batch[i]])
  }

  /** The account of the records, and their order as long as no flush overlapped another. */
  ghost predicate Books(n: nat, stored: seq<nat>, dropped: seq<nat>, flights: seq<seq<nat>>, buffer: seq<nat>,
                        overlapped: bool) {
    && Conserved(n, stored, dropped, flights, buffer)
    && (!overlapped ==> KeepsOrder(stored, flights, buffer))
  }

  lemma {:induction false} HandleBooks(n: nat, stored: seq<nat>, dropped: seq<nat>, flights: seq<seq<nat>>,
                                       buffer: seq<nat>,
                    overlapped: bool)
    requires Books(n, stored, dropped, flights, buffer, overlapped)
    ensures Books(n + 1, stored, dropped, flights, buffer + [n], overlapped)
  {
    HandleConserves(n, stored, dropped, flights, buffer);
    if !overlapped {
      BoundedByTickets(n, stored, dropped, flights, buffer);
      var all := stored + (if flights == [] then [] else flights[0]) + buffer;
      forall i | 0 <= i < |all| ensures all[i] < n {
        assert all[i] in stored || all[i] in buffer || (flights != [] && all[i] in flights[0]);
      }
      assert stored + (if flights == [] then [] else flights[0]) + (buffer + [n]) == all + [n];
    }
  }

  lemma {:induction false} BeginBooks(n: nat, stored: seq<nat>, dropped: seq<nat>, flights: seq<seq<nat>>,
                                      buffer: seq<nat>,
                   overlapped: bool)
    requires Books(n, stored, dropped, flights, buffer, overlapped)
    ensures Books(n, stored, dropped, flights + [buffer], [], overlapped || flights != [])
  {
    BeginConserves(n, stored, dropped, flights, buffer);
    if !overlapped && flights == [] {
      assert stored + [] + buffer == stored + buffer + [];
    }
  }

  datatype Ending = Ending(stored: seq<nat>, dropped: seq<nat>, buffer: seq<nat>, failures: nat)

  predicate Wrote(write: Write) {
    write.Saved? || write.CancelledAfterWrite?
  }

  /** Where a batch goes when its write ends. A refused one goes back to the front of the buffer, which is then
      cut to size, unless this was the third failure in a row: then it is dropped. A cancelled flush puts
      nothing back and counts nothing. */
  function Settle(write: Write, batch: seq<nat>, so: Ending, maxBuffer: int): Ending {
    match write
    case Saved => so.(stored := so.stored + batch, failures := 0)
    case CancelledAfterWrite => so.(stored := so.stored + batch)
    case CancelledBeforeWrite => so.(dropped := so.dropped + batch)
    case Refused =>
      if so.failures + 1 >= MAX_FLUSH_ATTEMPTS then so.(dropped := so.dropped + batch, failures := 0) else
      var back := batch + so.buffer;
      var cut := Overflow(back, maxBuffer);
      so.(dropped := so.dropped + back[..cut], buffer := back[cut..], failures := so.failures + 1)
  }

  /** The end of a write, told by what it does to each record: a saved batch is stored, a refused one returns before what
      was buffered meanwhile, and the oldest records that are too many are dropped, or, at the third refusal in a row, the
      batch is dropped and nothing else; a cancelled flush stores what it had written and loses what it had not. */
  ghost predicate Ended(write: Write, batch: seq<nat>, so: Ending, e: Ending, maxBuffer: int) {
    && (write in {Saved, CancelledAfterWrite} ==>
          e.stored == so.stored + batch && e.dropped == so.dropped && e.buffer == so.buffer)
    && (write in {Refused, CancelledBeforeWrite} ==> e.stored == so.stored)
    && (write == CancelledBeforeWrite ==> e.dropped == so.dropped + batch && e.buffer == so.buffer)
    && (write == Refused && so.failures >= 2 ==>
          e.dropped == so.dropped + batch && e.buffer == so.buffer && e.failures == 0)
    && (write == Refused && so.failures < 2 ==>
          && e.failures == so.failures + 1
          && exists gone: seq<nat> :: e.dropped == so.dropped + gone && CutTo(batch + so.buffer, gone, e.buffer,
                                                                              maxBuffer))
    && (write == Saved ==> e.failures == 0)
    && (Cancelled(write) ==> e.failures == so.failures)
  }

  /** The oldest records go as long as there are more than `most`; a limit of zero limits nothing. */
  ghost predicate CutTo(back: seq<nat>, gone: seq<nat>, kept: seq<nat>, most: int) {
    && back == gone + kept
    && (most == 0 || |back| <= most ==> gone == [])
    && (0 < most < |back| ==> |kept| == most)
    && (most < 0 && most + |back| >= 0 ==> |gone| == -most)
    && (most + |back| < 0 ==> kept == [])
  }

  lemma {:induction false} OverflowCuts(back: seq<nat>, most: int)
    ensures CutTo(back, back[..Overflow(back, most)], back[Overflow(back, most)..], most)
  {
    var cut := Overflow(back, most);
    assert back == back[..cut] + back[cut..];
  }

  lemma {:induction false} SettleIsEnded(write: Write, batch: seq<nat>, so: Ending, maxBuffer: int)
    ensures Ended(write, batch, so, Settle(write, batch, so, maxBuffer), maxBuffer)
  {
    OverflowCuts(batch + so.buffer, maxBuffer);
  }

  predicate Cancelled(write: Write) {
    write.CancelledAfterWrite? || write.CancelledBeforeWrite?
  }

  /** What is left of a collector by a close: the last flush takes the buffer, the cancelled write of the batch in
      flight ends, and the last write ends. */
  function Closing(so: Ending, flights: seq<seq<nat>>, periodic: Write, last: Write, maxBuffer: int): Ending {
    var taken := so.(buffer := []);
    var ended := if flights == [] then taken else Settle(periodic, flights[0], taken, maxBuffer);
    if so.buffer == [] then ended else Settle(last, so.buffer, ended, maxBuffer)
  }

  /** Closing a collector to which nothing bad has happened stores everything handled, in order, however the cancelled
      write turns out, if and only if no batch is in flight when it is called. One in flight is safe only when its
      write had taken place before it was cancelled. */
  lemma {:induction false} CloseStoresAllIff(n: nat, so: Ending, flights: seq<seq<nat>>, maxBuffer: int)
    requires Books(n, so.stored, [], flights, so.buffer, false) && so.dropped == [] && NoneEmpty(flights)
    ensures (forall periodic | Cancelled(periodic) ::
               Closing(so, flights, periodic, Saved, maxBuffer).stored == Tickets(n)) <==> flights == []
    ensures Closing(so, flights, CancelledAfterWrite, Saved, maxBuffer).stored == Tickets(n)
  {
    NothingLost(n, so.stored, [], flights, so.buffer);
    if flights != [] {
      var end := Closing(so, flights, CancelledBeforeWrite, Saved, maxBuffer);
      assert end.stored == so.stored + so.buffer;
      assert |Pipeline(so.stored, flights, so.buffer)| == |so.stored| + |flights[0]| + |so.buffer|;
      assert |end.stored| < n;
    } else {
      assert Pipeline(so.stored, [], so.buffer) == so.stored + so.buffer;
    }
  }

  lemma {:induction false} EndBooks(n: nat, so: Ending, flights: seq<seq<nat>>, overlapped: bool, k: nat,
                                    write: Write, maxBuffer: int)
    requires Books(n, so.stored, so.dropped, flights, so.buffer, overlapped) && k < |flights|
             && so.failures < MAX_FLUSH_ATTEMPTS
    ensures var rest, e := flights[..k] + flights[k + 1..], Settle(write, flights[k], so, maxBuffer);
            Books(n, e.stored, e.dropped, rest, e.buffer, overlapped) && e.failures < MAX_FLUSH_ATTEMPTS
    ensures forall i | 0 <= i < |flights[k]| :: flights[k][i] < n
  {
    var rest, batch, back := flights[..k] + flights[k + 1..], flights[k], flights[k] + so.buffer;
    var cut := Overflow(back, maxBuffer);
    FinishConserves(n, so.stored, so.dropped, flights, so.buffer, k);
    TrimConserves(n, so.stored, so.dropped, rest, back, cut);
    BoundedByTickets(n, so.stored, so.dropped, flights, so.buffer);
    assert forall i | 0 <= i < |batch| :: batch[i] in batch;
    if !overlapped {
      assert rest == [];
      StillSorted(so.stored, batch, so.buffer);
      CutStaysSorted(so.stored, batch, so.buffer, cut);
      assert so.stored + batch + [] + so.buffer == so.stored + batch + so.buffer;
    }
  }

  /** The rows of a parent hold the given records. */
  ghost predicate Hold(rows: seq<Row>, records: seq<Record>, stored: seq<nat>) {
    |rows| == |stored| && forall i | 0 <= i < |rows| :: stored[i] < |records| && rows[i].record == records[stored[i]]
  }

  predicate NoneEmpty(flights: seq<seq<nat>>) {
    forall k | 0 <= k < |flights| :: flights[k] != []
  }

  lemma {:induction false} RestNotEmpty(flights: seq<seq<nat>>, k: nat)
    requires NoneEmpty(flights) && k < |flights|
    ensures NoneEmpty(flights[..k] + flights[k + 1..])
  {
  }

  /** A queue at a level gets the records of that level and of the coarser ones. */
  predicate Included(level: Level, threshold: Level) {
    && (threshold == Info ==> level == Info)
    && (threshold == Debug ==> level != Verbose)
  }

  /** The records a queue at this level gets. */
  function Admitted(records: seq<Record>, threshold: Level): seq<Record> {
    if records == [] then [] else
    var last := records[|records| - 1];
    Admitted(records[..|records| - 1], threshold) + if Rank(last.level) <= Rank(threshold) then [last] else []
  }

  /** `records` are the records built so far, in the order their events were handled; the buffer and the
      batches being written refer to them by position. */
  class TraceCollector {
    const parent: string
    const classify: string -> Level
    const redact: Event -> Option<Event>
    const queueLevel: Option<Level>
    const maxBuffer: int
    var records: seq<Record>
    var buffer: seq<nat>
    var flights: seq<seq<nat>>       // batches whose write has begun and not ended
    var failures: nat
    var queue: seq<Record>
    ghost var rows: seq<Row>         // what the store holds for the parent
    ghost var stored: seq<nat>
    ghost var dropped: seq<nat>
    ghost var overlapped: bool       // a flush began while another was being written

    /** The store holds what was written for the parent, and nothing else. */
    ghost predicate Stores(store: PersistentTraceStore)
      reads this, store
    {
      store.Valid() && store.Rows(parent) == rows
    }

    ghost predicate Valid()
      reads this
    {
      && Books(|records|, stored, dropped, flights, buffer, overlapped)
      && Hold(rows, records, stored)
      && queue == (if queueLevel.Some? then Admitted(records, queueLevel.value) else [])
      && failures < MAX_FLUSH_ATTEMPTS
      && NoneEmpty(flights)
    }

    constructor (parent: string, classify: string -> Level, redact: Event -> Option<Event>, queueLevel: Option<Level>,
                 maxBuffer: int)
      ensures Valid() && rows == [] && this.parent == parent && !overlapped && dropped == [] && records == []
      ensures flights == []
    {
      this.parent, this.classify, this.redact := parent, classify, redact;
      this.queueLevel, this.maxBuffer := queueLevel, maxBuffer;
      records, buffer, flights, failures, queue, rows, stored, dropped, overlapped := [], [], [], 0, [], [], [], [], false;
    }

    /** Redacts, classifies, buffers and, at a sufficient level, queues one event. If redaction raises the event
        is neither buffered nor queued. */
    method Handle(event: Event) returns (ok: bool)
      requires Valid()
      modifies this`records, this`buffer, this`queue
      ensures Valid() && ok == redact(event).Some?
      ensures !ok ==> records == old(records) && buffer == old(buffer) && queue == old(queue)
      ensures ok ==> |records| == |old(records)| + 1 && records[..|old(records)|] == old(records)
                     && buffer == old(buffer) + [|old(records)|]
      ensures ok ==> var r := records[|old(records)|];
                     && r.eventType == redact(event).value.eventType && r.payload == redact(event).value.payload
                     && r.spanId == redact(event).value.spanId && r.parentSpanId == redact(event).value.parentSpanId
                     && r.level == classify(r.eventType)
                     && queue == old(queue) + if queueLevel.Some? && Included(r.level, queueLevel.value) then [r] else []
    {
      var redacted := redact(event);
      if redacted.None? {
        return false;
      }
      var e := redacted.value;
      var record := Record(e.eventType, classify(e.eventType), e.spanId, e.parentSpanId, e.payload);
      HandleBooks(|records|, stored, dropped, flights, buffer, overlapped);
      assert (records + [record])[..|records|] == records;
      buffer := buffer + [|records|];
      records := records + [record];
      if queueLevel.Some? && Rank(record.level) <= Rank(queueLevel.value) {
        queue := queue + [record];
      }
      ok := true;
    }

    /** The first half of a flush: takes the whole buffer, if there is any. */
    method BeginFlush() returns (began: bool)
      requires Valid()
      modifies this`buffer, this`flights, this`overlapped
      ensures Valid() && began == (old(buffer) != [])
      ensures began ==> buffer == [] && flights == old(flights) + [old(buffer)]
      ensures !began ==> buffer == old(buffer) && flights == old(flights)
      ensures overlapped == (old(overlapped) || (began && old(flights) != []))
    {
      if buffer == [] {
        return false;
      }
      BeginBooks(|records|, stored, dropped, flights, buffer, overlapped);
      overlapped := overlapped || flights != [];
      flights, buffer := flights + [buffer], [];
      began := true;
    }

    /** The write itself. */
    method Deliver(store: PersistentTraceStore, batch: seq<nat>)
      requires Stores(store) && Hold(rows, records, stored)
      requires forall i | 0 <= i < |batch| :: batch[i] < |records|
      modifies this`stored, this`rows, store`events, store`counter, store`index
      ensures Stores(store) && Hold(rows, records, stored)
      ensures stored == old(stored) + batch && old(rows) <= rows
      ensures forall p | p != parent :: store.Rows(p) == old(store.Rows(p))
    {
      store.SaveEventsBatch(parent, Fetch(records, batch));
      rows := rows + Numbered(Fetch(records, batch), store.counter - |batch|);
      stored := stored + batch;
    }

    /** The second half: the write of one of the batches ended. */
    method EndFlush(store: PersistentTraceStore, k: nat, write: Write)
      requires Valid() && Stores(store) && k < |flights|
      modifies this`buffer, this`flights, this`failures, this`stored, this`dropped, this`rows,
               store`events, store`counter, store`index
      ensures Valid() && Stores(store) && flights == old(flights)[..k] + old(flights)[k + 1..]
      ensures Ending(stored, dropped, buffer, failures) ==
                Settle(write, old(flights)[k], Ending(old(stored), old(dropped), old(buffer), old(failures)), maxBuffer)
      ensures Ended(write, old(flights)[k], Ending(old(stored), old(dropped), old(buffer), old(failures)),
                    Ending(stored, dropped, buffer, failures), maxBuffer)
    {
      SettleIsEnded(write, flights[k], Ending(stored, dropped, buffer, failures), maxBuffer);
      var batch, rest := flights[k], flights[..k] + flights[k + 1..];
      ghost var so := Ending(stored, dropped, buffer, failures);
      EndBooks(|records|, so, flights, overlapped, k, write, maxBuffer);
      RestNotEmpty(flights, k);
      flights := rest;
      Land(store, batch, write);
      ghost var e := Settle(write, batch, so, maxBuffer);
      assert stored == e.stored && dropped == e.dropped && buffer == e.buffer && failures == e.failures;
    }

    /** The batch arrives in the store, or does not, and the collector settles it. */
    method Land(store: PersistentTraceStore, batch: seq<nat>, write: Write)
      requires Stores(store) && Hold(rows, records, stored)
      requires forall i | 0 <= i < |batch| :: batch[i] < |records|
      modifies this`buffer, this`failures, this`stored, this`dropped, this`rows, store`events, store`counter, store`index
      ensures Stores(store) && Hold(rows, records, stored)
      ensures Ending(stored, dropped, buffer, failures) ==
                Settle(write, batch, Ending(old(stored), old(dropped), old(buffer), old(failures)), maxBuffer)
    {
      if Wrote(write) {
        Deliver(store, batch);
      }
      TakeBack(write, batch);
    }

    /** Closing: the task that flushes periodically is told to stop, then what is left in the buffer is flushed. The
        cancelled write, if one was in flight, ends after the last flush has taken its batch; how it ended is
        `periodic`. */
    method Close(store: PersistentTraceStore, periodic: Write, last: Write)
      requires Valid() && Stores(store) && |flights| <= 1 && Cancelled(periodic)
      modifies this, store`events, store`counter, store`index
      ensures Valid() && Stores(store) && flights == [] && records == old(records)
      ensures Ending(stored, dropped, buffer, failures) ==
                Closing(Ending(old(stored), old(dropped), old(buffer), old(failures)), old(flights), periodic, last,
                        maxBuffer)
    {
      var inFlight := flights != [];
      var began := BeginFlush();
      if inFlight {
        EndFlush(store, 0, periodic);
      }
      if began {
        EndFlush(store, 0, last);
      }
    }

    /** One event is handled, its flush begins, and the collector is closed while the write has not taken place: the
        event is not stored, and nothing will store it. */
    method LoseOnClose(store: PersistentTraceStore, event: Event)
      requires Valid() && Stores(store) && records == [] && buffer == [] && flights == [] && redact(event).Some?
      modifies this, store`events, store`counter, store`index
      ensures Valid() && Stores(store) && |records| == 1
      ensures stored == old(stored) && buffer == [] && flights == []
    {
      var handled := Handle(event);
      var began := BeginFlush();
      Close(store, CancelledBeforeWrite, Saved);
    }

    /** What the flush does with the batch besides writing it. */
    method TakeBack(write: Write, batch: seq<nat>)
      modifies this`buffer, this`failures, this`dropped
      ensures var e := Settle(write, batch, Ending(stored, old(dropped), old(buffer), old(failures)), maxBuffer);
              dropped == e.dropped && buffer == e.buffer && failures == e.failures
    {
      match write {
        case Saved => failures := 0;
        case CancelledAfterWrite =>
        case CancelledBeforeWrite => dropped := dropped + batch;
        case Refused =>
          failures := failures + 1;
          if failures >= MAX_FLUSH_ATTEMPTS {
            failures, dropped := 0, dropped + batch;
          } else {
            var back := batch + buffer;
            var cut := Overflow(back, maxBuffer);
            dropped, buffer := dropped + back[..cut], back[cut..];
          }
      }
    }
  }

  lemma {:induction false} StillSorted(stored: seq<nat>, batch: seq<nat>, buffer: seq<nat>)
    ensures Sorted(stored + batch + buffer) ==> Sorted(stored + [] + buffer)
  {
    if Sorted(stored + batch + buffer) {
      var all := stored + batch + buffer;
      assert forall i | 0 <= i < |stored| :: stored[i] == all[i];
      assert forall i | 0 <= i < |buffer| :: buffer[i] == all[|stored| + |batch| + i];
    }
  }

  lemma {:induction false} CutStaysSorted(stored: seq<nat>, batch: seq<nat>, buffer: seq<nat>, cut: nat)
    requires cut <= |batch| + |buffer|
    ensures Sorted(stored + batch + buffer) ==> Sorted(stored + [] + (batch + buffer)[cut..])
  {
    if Sorted(stored + batch + buffer) {
      var all, back := stored + batch + buffer, batch + buffer;
      assert all == stored + back;
      assert forall i | 0 <= i < |stored| :: stored[i] == all[i];
      assert forall i | cut <= i < |back| :: back[i] == all[|stored| + i];
    }
  }
}
