/** Span blocks: what the context stack, the emitted start and end events and their links do over nested
    programs, including listeners and bodies that raise. */
module Spans {
  import opened Values
  import opened Emitters

  /** A program over one emitter: emitting, a span block, delegating to a child emitter, catching, raising. */
  datatype Prog =
    | Skip
    | Then(first: Prog, second: Prog)
    | Emit(payload: string)
    | Span(name: string, body: Prog)
    | Delegate(inner: Prog)
    | Catch(tried: Prog)
    | Raise

  datatype Outcome = Outcome(stack: seq<nat>, next: nat, events: seq<Event>, raised: bool)

  const START := "span.start"
  const END := "span.end"

  function Current(stack: seq<nat>): nat
    requires stack != []
  {
    stack[|stack| - 1]
  }

  function ParentOf(stack: seq<nat>, root: Option<nat>): Option<nat> {
    if |stack| > 1 then Some(stack[|stack| - 2]) else root
  }

  /** Runs a program on an emitter whose span stack is `stack` and whose seeded parent span is `root`; `next` is
      the next fresh span id, and `raises` says on which events an internal listener raises. */
  function Exec(p: Prog, raises: Event -> bool, stack: seq<nat>, root: Option<nat>, next: nat): (o: Outcome)
    requires stack != []
    ensures stack <= o.stack && next <= o.next
    decreases p
  {
    match p
    case Skip => Outcome(stack, next, [], false)
    case Raise => Outcome(stack, next, [], true)
    case Emit(payload) =>
      var e := Event("event", Current(stack), ParentOf(stack, root), payload);
      Outcome(stack, next, [e], raises(e))
    case Then(p0, p1) =>
      var a := Exec(p0, raises, stack, root, next);
      if a.raised then a else
      var b := Exec(p1, raises, a.stack, root, a.next);
      Outcome(b.stack, b.next, a.events + b.events, b.raised)
    case Span(name, body) =>
      var start := Event(START, next, Some(Current(stack)), name);
      if raises(start) then Outcome(stack + [next], next + 1, [start], true) else
      var b := Exec(body, raises, stack + [next], root, next + 1);
      var end := Event(END, next, Some(Current(stack)), name);
      Outcome(if raises(end) then b.stack else stack, b.next, [start] + b.events + [end], raises(end) || b.raised)
    case Delegate(inner) =>
      Exec(inner, raises, [Current(stack)], ParentOf(stack, root), next).(stack := stack)
    case Catch(tried) =>
      Exec(tried, raises, stack, root, next).(raised := false)
  }

  predicate IsBoundary(e: Event) {
    e.eventType == START || e.eventType == END
  }

  /** No listener raised on a start or end event. */
  predicate Calm(events: seq<Event>, raises: Event -> bool) {
    forall e | e in events :: IsBoundary(e) ==> !raises(e)
  }

  /** If no listener raises on a boundary event, every program leaves the span stack as it found it. */
  lemma {:induction false} StackRestored(p: Prog, raises: Event -> bool, stack: seq<nat>, root: Option<nat>, next: nat)
    requires stack != [] && Calm(Exec(p, raises, stack, root, next).events, raises)
    ensures Exec(p, raises, stack, root, next).stack == stack
    decreases p
  {
    match p
    case Then(p0, p1) =>
      StackRestored(p0, raises, stack, root, next);
      var a := Exec(p0, raises, stack, root, next);
      if !a.raised {
        StackRestored(p1, raises, a.stack, root, a.next);
      }
    case Catch(tried) => StackRestored(tried, raises, stack, root, next);
    case Span(name, body) =>
      var o := Exec(p, raises, stack, root, next);
      var start, end := Event(START, next, Some(Current(stack)), name), Event(END, next, Some(Current(stack)), name);
      assert start in o.events;
      if !raises(start) {
        assert end in o.events;
      }
    case _ =>
  }

  /** The ids from position `base` up lie between `low` and `high`. */
  predicate FreshAbove(stack: seq<nat>, base: nat, low: nat, high: nat) {
    forall k | base <= k < |stack| :: low <= stack[k] < high
  }

  lemma {:induction false} FreshOnTop(a: seq<nat>, b: seq<nat>, base: nat, low: nat, mid: nat, high: nat)
    requires a <= b && low <= mid <= high && FreshAbove(a, base, low, mid) && FreshAbove(b, |a|, mid, high)
    ensures FreshAbove(b, base, low, high)
  {
    forall k | base <= k < |b| ensures low <= b[k] < high {
      if k < |a| {
        assert b[k] == a[k];
      }
    }
  }

  /** Ids on top of the original stack are fresh. */
  lemma {:induction false} LeftoversAreFresh(p: Prog, raises: Event -> bool, stack: seq<nat>, root: Option<nat>,
                                             next: nat)
    requires stack != []
    ensures var o := Exec(p, raises, stack, root, next); FreshAbove(o.stack, |stack|, next, o.next)
    decreases p
  {
    match p
    case Then(p0, p1) =>
      LeftoversAreFresh(p0, raises, stack, root, next);
      var a := Exec(p0, raises, stack, root, next);
      if !a.raised {
        LeftoversAreFresh(p1, raises, a.stack, root, a.next);
        var b := Exec(p1, raises, a.stack, root, a.next);
        FreshOnTop(a.stack, b.stack, |stack|, next, a.next, b.next);
      }
    case Catch(tried) => LeftoversAreFresh(tried, raises, stack, root, next);
    case Span(name, body) =>
      LeftoversAreFresh(body, raises, stack + [next], root, next + 1);
      var b := Exec(body, raises, stack + [next], root, next + 1);
      FreshOnTop(stack + [next], b.stack, |stack|, next, next + 1, b.next);
    case _ =>
  }

  /** A span block gives the stack back, and an event emitted after it names the span that was current before
      it, exactly when no listener raised on its own start or end event: leaving the block resets the stack
      only after the end event was emitted, and entering it emits before the block is guarded. */
  lemma {:induction false} SpanRestoresIff(name: string, body: Prog, raises: Event -> bool, stack: seq<nat>,
                                           root: Option<nat>, next: nat)
    requires stack != [] && Current(stack) < next
    ensures var start, end := Event(START, next, Some(Current(stack)), name), Event(END, next, Some(Current(stack)), name);
            var calm := !raises(start) && !raises(end);
            && (Exec(Span(name, body), raises, stack, root, next).stack == stack <==> calm)
            && forall payload ::
                 var o := Exec(Then(Catch(Span(name, body)), Emit(payload)), raises, stack, root, next);
                 o.events != [] && (o.events[|o.events| - 1].spanId == Current(stack) <==> calm)
  {
    LeftoversAreFresh(Span(name, body), raises, stack, root, next);
    var s := Exec(Span(name, body), raises, stack, root, next);
    var start, end := Event(START, next, Some(Current(stack)), name), Event(END, next, Some(Current(stack)), name);
    assert s.stack == stack <==> !raises(start) && !raises(end) by {
      if raises(start) || raises(end) {
        assert |s.stack| > |stack|;
      }
    }
    forall payload
      ensures var o := Exec(Then(Catch(Span(name, body)), Emit(payload)), raises, stack, root, next);
              o.events != [] && (o.events[|o.events| - 1].spanId == Current(stack) <==> s.stack == stack)
    {
      var o := Exec(Then(Catch(Span(name, body)), Emit(payload)), raises, stack, root, next);
      assert Exec(Catch(Span(name, body)), raises, stack, root, next) == s.(raised := false);
      assert o.events == s.events + Exec(Emit(payload), raises, s.stack, root, s.next).events;
      TopChanges(stack, s.stack, next, s.next);
    }
  }

  lemma {:induction false} TopChanges(stack: seq<nat>, more: seq<nat>, low: nat, high: nat)
    requires stack != [] && stack <= more && Current(stack) < low && FreshAbove(more, |stack|, low, high)
    ensures Current(more) == Current(stack) <==> more == stack
  {
    if |more| > |stack| {
      assert low <= more[|more| - 1];
    }
  }

  /******* Well-nested traces *******/

  /** Reads a trace against a stack of open spans: a start event names the innermost open span as its parent
      and opens its own, an end event closes the innermost open span and names the one below, any other event
      carries the innermost open span and its parent. */
  function Scan(open: seq<nat>, root: Option<nat>, events: seq<Event>): Option<seq<nat>>
    requires open != []
    decreases |events|
  {
    if events == [] then Some(open) else
    var e, rest := events[0], events[1..];
    if e.eventType == START then
      if e.parentSpanId == Some(Current(open)) then Scan(open + [e.spanId], root, rest) else None
    else if e.eventType == END then
      if |open| > 1 && e.spanId == Current(open) && e.parentSpanId == Some(open[|open| - 2])
      then Scan(open[..|open| - 1], root, rest) else None
    else if e.spanId == Current(open) && e.parentSpanId == ParentOf(open, root) then Scan(open, root, rest) else None
  }

  lemma {:induction false} ScanAppend(open: seq<nat>, root: Option<nat>, a: seq<Event>, b: seq<Event>)
    requires open != []
    ensures Scan(open, root, a + b) ==
              match Scan(open, root, a) case None => None case Some(mid) => if mid == [] then None else Scan(mid, root, b)
    decreases |a|
  {
    if a == [] {
      assert a + b == b;
    } else {
      assert (a + b)[1..] == a[1..] + b;
      var e := a[0];
      if e.eventType == START {
        ScanAppend(open + [e.spanId], root, a[1..], b);
      } else if e.eventType == END {
        if |open| > 1 {
          ScanAppend(open[..|open| - 1], root, a[1..], b);
        }
      } else {
        ScanAppend(open, root, a[1..], b);
      }
    }
  }

  /** The same events, the same fresh ids, the same exception and the same spans left open. */
  predicate Alike(a: Outcome, s: seq<nat>, b: Outcome, t: seq<nat>)
    requires s <= a.stack && t <= b.stack
  {
    a.events == b.events && a.next == b.next && a.raised == b.raised && a.stack[|s|..] == b.stack[|t|..]
  }

  /** Only the innermost open span and its parent matter to a trace: what an emitter with a longer stack emits,
      a child emitter seeded with the current span and its parent emits too. */
  lemma {:induction false} OnlyTheTopMatters(p: Prog, raises: Event -> bool, s: seq<nat>, r: Option<nat>, t: seq<nat>,
                                             q: Option<nat>, next: nat)
    requires s != [] && t != [] && Current(s) == Current(t) && ParentOf(s, r) == ParentOf(t, q)
    ensures Alike(Exec(p, raises, s, r, next), s, Exec(p, raises, t, q, next), t)
    decreases p
  {
    match p
    case Then(p0, p1) =>
      OnlyTheTopMatters(p0, raises, s, r, t, q, next);
      var a, b := Exec(p0, raises, s, r, next), Exec(p0, raises, t, q, next);
      if !a.raised {
        SameTop(a.stack, s, r, b.stack, t, q);
        OnlyTheTopMatters(p1, raises, a.stack, r, b.stack, q, a.next);
        SameGrowth(s, a.stack, Exec(p1, raises, a.stack, r, a.next).stack, t, b.stack,
                   Exec(p1, raises, b.stack, q, a.next).stack);
      }
    case Catch(tried) => OnlyTheTopMatters(tried, raises, s, r, t, q, next);
    case Span(name, body) =>
      OnlyTheTopMatters(body, raises, s + [next], r, t + [next], q, next + 1);
      SpansAlike(name, body, raises, s, r, t, q, next);
    case Delegate(inner) => OnlyTheTopMatters(inner, raises, [Current(s)], ParentOf(s, r), [Current(t)],
                                              ParentOf(t, q), next);
    case _ =>
  }

  lemma {:induction false} SpansAlike(name: string, body: Prog, raises: Event -> bool, s: seq<nat>, r: Option<nat>,
                                      t: seq<nat>,
                   q: Option<nat>, next: nat)
    requires s != [] && t != [] && Current(s) == Current(t)
    requires Alike(Exec(body, raises, s + [next], r, next + 1), s + [next],
                   Exec(body, raises, t + [next], q, next + 1), t + [next])
    ensures Alike(Exec(Span(name, body), raises, s, r, next), s, Exec(Span(name, body), raises, t, q, next), t)
  {
    var a, b := Exec(body, raises, s + [next], r, next + 1), Exec(body, raises, t + [next], q, next + 1);
    var o, u := Exec(Span(name, body), raises, s, r, next), Exec(Span(name, body), raises, t, q, next);
    Grown(s, next, a.stack);
    Grown(t, next, b.stack);
    if raises(Event(START, next, Some(Current(s)), name)) {
      assert (s + [next])[|s|..] == [next] == (t + [next])[|t|..];
    } else {
      assert o.events == u.events;
      assert s[|s|..] == [] == t[|t|..];
    }
  }

  lemma {:induction false} Grown(s: seq<nat>, id: nat, a: seq<nat>)
    requires s + [id] <= a
    ensures a[|s|..] == [id] + a[|s| + 1..]
  {
  }

  lemma {:induction false} GrownTwice(s: seq<nat>, a: seq<nat>, b: seq<nat>)
    requires s <= a <= b
    ensures b[|s|..] == a[|s|..] + b[|a|..]
  {
    assert b == a + b[|a|..];
  }

  lemma {:induction false} SameGrowth(s: seq<nat>, a: seq<nat>, c: seq<nat>, t: seq<nat>, b: seq<nat>, d: seq<nat>)
    requires s <= a <= c && t <= b <= d && a[|s|..] == b[|t|..] && c[|a|..] == d[|b|..]
    ensures c[|s|..] == d[|t|..]
  {
    GrownTwice(s, a, c);
    GrownTwice(t, b, d);
  }

  lemma {:induction false} SameTop(a: seq<nat>, s: seq<nat>, r: Option<nat>, b: seq<nat>, t: seq<nat>, q: Option<nat>)
    requires s != [] && t != [] && s <= a && t <= b && a[|s|..] == b[|t|..]
    requires Current(s) == Current(t) && ParentOf(s, r) == ParentOf(t, q)
    ensures Current(a) == Current(b) && ParentOf(a, r) == ParentOf(b, q)
  {
    var d := a[|s|..];
    assert a == s + d && b == t + d;
  }

  lemma {:induction false} BlockIsNested(stack: seq<nat>, root: Option<nat>, id: nat, name: string, body: seq<Event>)
    requires stack != [] && Scan(stack + [id], root, body) == Some(stack + [id])
    ensures var start, end := Event(START, id, Some(Current(stack)), name), Event(END, id, Some(Current(stack)), name);
            Scan(stack, root, [start] + body + [end]) == Some(stack)
  {
    var start, end := Event(START, id, Some(Current(stack)), name), Event(END, id, Some(Current(stack)), name);
    ScanAppend(stack + [id], root, body, [end]);
    assert (stack + [id])[..|stack|] == stack && [end][1..] == [];
    assert ([start] + body + [end])[1..] == body + [end];
  }

  /** With no listener raising on a boundary event, the whole trace of any program, with any delegation to child
      emitters and any exceptions in bodies, is well nested and leaves the same spans open. */
  lemma {:induction false} TraceIsNested(p: Prog, raises: Event -> bool, stack: seq<nat>, root: Option<nat>, next: nat)
    requires stack != [] && Calm(Exec(p, raises, stack, root, next).events, raises)
    ensures Scan(stack, root, Exec(p, raises, stack, root, next).events) == Some(stack)
    decreases p
  {
    match p
    case Then(p0, p1) =>
      var a := Exec(p0, raises, stack, root, next);
      TraceIsNested(p0, raises, stack, root, next);
      StackRestored(p0, raises, stack, root, next);
      if !a.raised {
        var b := Exec(p1, raises, stack, root, a.next);
        assert Exec(p, raises, stack, root, next).events == a.events + b.events;
        TraceIsNested(p1, raises, stack, root, a.next);
        ScanAppend(stack, root, a.events, b.events);
      }
    case Catch(tried) => TraceIsNested(tried, raises, stack, root, next);
    case Span(name, body) =>
      var o := Exec(p, raises, stack, root, next);
      var start, end := Event(START, next, Some(Current(stack)), name), Event(END, next, Some(Current(stack)), name);
      assert start in o.events;
      var b := Exec(body, raises, stack + [next], root, next + 1);
      TraceIsNested(body, raises, stack + [next], root, next + 1);
      BlockIsNested(stack, root, next, name, b.events);
    case Delegate(inner) =>
      OnlyTheTopMatters(inner, raises, [Current(stack)], ParentOf(stack, root), stack, root, next);
      TraceIsNested(inner, raises, stack, root, next);
    case _ =>
  }

  /** The same program with every delegation done on the delegating emitter itself. */
  function Inline(p: Prog): Prog {
    match p
    case Then(a, b) => Then(Inline(a), Inline(b))
    case Span(name, body) => Span(name, Inline(body))
    case Delegate(inner) => Inline(inner)
    case Catch(tried) => Catch(Inline(tried))
    case _ => p
  }

  /** Delegating to child emitters is invisible in the trace: the same events with the same span links. */
  lemma {:induction false} DelegationIsTransparent(p: Prog, raises: Event -> bool, stack: seq<nat>, root: Option<nat>,
                                                   next: nat)
    requires stack != [] && Calm(Exec(p, raises, stack, root, next).events, raises)
    ensures Exec(Inline(p), raises, stack, root, next) == Exec(p, raises, stack, root, next)
    decreases p
  {
    match p
    case Then(p0, p1) =>
      var a := Exec(p0, raises, stack, root, next);
      DelegationIsTransparent(p0, raises, stack, root, next);
      if !a.raised {
        DelegationIsTransparent(p1, raises, a.stack, root, a.next);
      }
    case Catch(tried) => DelegationIsTransparent(tried, raises, stack, root, next);
    case Span(name, body) =>
      var o := Exec(p, raises, stack, root, next);
      var start := Event(START, next, Some(Current(stack)), name);
      assert start in o.events;
      DelegationIsTransparent(body, raises, stack + [next], root, next + 1);
    case Delegate(inner) =>
      OnlyTheTopMatters(inner, raises, [Current(stack)], ParentOf(stack, root), stack, root, next);
      DelegationIsTransparent(inner, raises, stack, root, next);
      StackRestored(inner, raises, stack, root, next);
    case _ =>
  }

  /******* Balance *******/

  function Count(events: seq<Event>, kind: string): nat {
    if events == [] then 0 else Count(events[..|events| - 1], kind) + if events[|events| - 1].eventType == kind then 1 else 0
  }

  lemma {:induction false} CountAppend(a: seq<Event>, b: seq<Event>, kind: string)
    ensures Count(a + b, kind) == Count(a, kind) + Count(b, kind)
    decreases |b|
  {
    if b == [] {
      assert a + b == a;
    } else {
      CountAppend(a, b[..|b| - 1], kind);
      assert (a + b)[..|a + b| - 1] == a + b[..|b| - 1];
    }
  }

  function RefusedStarts(events: seq<Event>, raises: Event -> bool): nat {
    if events == [] then 0 else
    var e := events[|events| - 1];
    RefusedStarts(events[..|events| - 1], raises) + if e.eventType == START && raises(e) then 1 else 0
  }

  lemma {:induction false} RefusedAppend(a: seq<Event>, b: seq<Event>, raises: Event -> bool)
    ensures RefusedStarts(a + b, raises) == RefusedStarts(a, raises) + RefusedStarts(b, raises)
    decreases |b|
  {
    if b == [] {
      assert a + b == a;
    } else {
      RefusedAppend(a, b[..|b| - 1], raises);
      assert (a + b)[..|a + b| - 1] == a + b[..|b| - 1];
    }
  }

  /** Whatever raises where, every start event has its end event, except the starts on which a listener raised:
      those are never ended. */
  lemma {:induction false} EveryStartEnds(p: Prog, raises: Event -> bool, stack: seq<nat>, root: Option<nat>, next: nat)
    requires stack != []
    ensures var t := Exec(p, raises, stack, root, next).events;
            Count(t, START) == Count(t, END) + RefusedStarts(t, raises)
    decreases p
  {
    match p
    case Then(p0, p1) =>
      EveryStartEnds(p0, raises, stack, root, next);
      var a := Exec(p0, raises, stack, root, next);
      if !a.raised {
        EveryStartEnds(p1, raises, a.stack, root, a.next);
        var b := Exec(p1, raises, a.stack, root, a.next);
        CountAppend(a.events, b.events, START);
        CountAppend(a.events, b.events, END);
        RefusedAppend(a.events, b.events, raises);
      }
    case Catch(tried) => EveryStartEnds(tried, raises, stack, root, next);
    case Delegate(inner) => EveryStartEnds(inner, raises, [Current(stack)], ParentOf(stack, root), next);
    case Span(name, body) =>
      var start, end := Event(START, next, Some(Current(stack)), name), Event(END, next, Some(Current(stack)), name);
      if !raises(start) {
        EveryStartEnds(body, raises, stack + [next], root, next + 1);
        var b := Exec(body, raises, stack + [next], root, next + 1);
        SpanCounts(start, b.events, end, raises);
      }
    case _ =>
  }

  lemma {:induction false} SpanCounts(start: Event, body: seq<Event>, end: Event, raises: Event -> bool)
    requires start.eventType == START && end.eventType == END && !raises(start)
    ensures var t := [start] + body + [end];
            && Count(t, START) == Count(body, START) + 1 && Count(t, END) == Count(body, END) + 1
            && RefusedStarts(t, raises) == RefusedStarts(body, raises)
  {
    CountAppend([start] + body, [end], START);
    CountAppend([start], body, START);
    CountAppend([start] + body, [end], END);
    CountAppend([start], body, END);
    RefusedAppend([start] + body, [end], raises);
    RefusedAppend([start], body, raises);
  }

  /** Span ids are never reused: each is started at most once. */
  lemma {:induction false} StartsAreFresh(p: Prog, raises: Event -> bool, stack: seq<nat>, root: Option<nat>, next: nat)
    requires stack != []
    ensures var o := Exec(p, raises, stack, root, next); FreshStarts(o.events, next, o.next)
    decreases p
  {
    match p
    case Then(p0, p1) =>
      StartsAreFresh(p0, raises, stack, root, next);
      var a := Exec(p0, raises, stack, root, next);
      if !a.raised {
        StartsAreFresh(p1, raises, a.stack, root, a.next);
        FreshAppend(a.events, Exec(p1, raises, a.stack, root, a.next).events, next, a.next,
                    Exec(p1, raises, a.stack, root, a.next).next);
      }
    case Catch(tried) => StartsAreFresh(tried, raises, stack, root, next);
    case Delegate(inner) => StartsAreFresh(inner, raises, [Current(stack)], ParentOf(stack, root), next);
    case Span(name, body) =>
      var start, end := Event(START, next, Some(Current(stack)), name), Event(END, next, Some(Current(stack)), name);
      if !raises(start) {
        StartsAreFresh(body, raises, stack + [next], root, next + 1);
        var b := Exec(body, raises, stack + [next], root, next + 1);
        FreshAppend([start], b.events, next, next + 1, b.next);
        FreshAppend([start] + b.events, [end], next, b.next, b.next);
      }
    case _ =>
  }

  predicate FreshStarts(events: seq<Event>, low: nat, high: nat) {
    && (forall i | 0 <= i < |events| && events[i].eventType == START :: low <= events[i].spanId < high)
    && forall i, j | 0 <= i < j < |events| && events[i].eventType == events[j].eventType == START ::
         events[i].spanId < events[j].spanId
  }

  lemma {:induction false} FreshAppend(a: seq<Event>, b: seq<Event>, low: nat, mid: nat, high: nat)
    requires FreshStarts(a, low, mid) && FreshStarts(b, mid, high) && low <= mid <= high
    ensures FreshStarts(a + b, low, high)
  {
  }
  /******* What a program emits when no listener raises *******/

  /** The program itself raises: a block or a delegation passes an exception on, a catch does not. */
  predicate Throws(p: Prog) {
    match p
    case Raise => true
    case Then(p0, p1) => Throws(p0) || Throws(p1)
    case Span(_, body) => Throws(body)
    case Delegate(inner) => Throws(inner)
    case _ => false
  }

  /** The types and texts of the events in order: a block has its start before and its end after what its body emits,
      even if the body raises; what follows an exception is not reached. */
  function Trace(p: Prog): seq<(string, string)> {
    match p
    case Emit(payload) => [("event", payload)]
    case Then(p0, p1) => Trace(p0) + if Throws(p0) then [] else Trace(p1)
    case Span(name, body) => [("span.start", name)] + Trace(body) + [("span.end", name)]
    case Delegate(inner) => Trace(inner)
    case Catch(tried) => Trace(tried)
    case _ => []
  }

  function Said(events: seq<Event>): (r: seq<(string, string)>)
    ensures |r| == |events| && forall i | 0 <= i < |r| :: r[i] == (events[i].eventType, events[i].payload)
  {
    seq(|events|, i requires 0 <= i < |events| => (events[i].eventType, events[i].payload))
  }

  lemma {:induction false} SaidConcat(a: seq<Event>, b: seq<Event>)
    ensures Said(a + b) == Said(a) + Said(b)
  {
  }

  /** With listeners that never raise, a program raises exactly if it does so itself, and emits exactly its trace. */
  lemma {:induction false} QuietRun(p: Prog, raises: Event -> bool, stack: seq<nat>, root: Option<nat>, next: nat)
    requires stack != [] && forall e :: !raises(e)
    ensures var o := Exec(p, raises, stack, root, next);
            o.raised == Throws(p) && Said(o.events) == Trace(p)
    decreases p
  {
    match p
    case Then(p0, p1) =>
      QuietRun(p0, raises, stack, root, next);
      var a := Exec(p0, raises, stack, root, next);
      if !a.raised {
        QuietRun(p1, raises, a.stack, root, a.next);
        SaidConcat(a.events, Exec(p1, raises, a.stack, root, a.next).events);
      }
    case Span(name, body) =>
      QuietRun(body, raises, stack + [next], root, next + 1);
      var b := Exec(body, raises, stack + [next], root, next + 1);
      var start, end := Event(START, next, Some(Current(stack)), name), Event(END, next, Some(Current(stack)), name);
      SaidConcat([start] + b.events, [end]);
      SaidConcat([start], b.events);
      assert Said([start]) == [("span.start", name)] && Said([end]) == [("span.end", name)];
    case Delegate(inner) => QuietRun(inner, raises, [Current(stack)], ParentOf(stack, root), next);
    case Catch(tried) => QuietRun(tried, raises, stack, root, next);
    case _ =>
  }
}
