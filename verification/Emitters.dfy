/** In-memory event emitters: listeners copied to children, events forwarded to ancestors. */
module Emitters {
  import opened Values

  datatype Event = Event(eventType: string, spanId: nat, parentSpanId: Option<nat>, payload: string)

  /** What an emitter calls for an event. A forwarding sink counts as internal. */
  datatype Sink = Listener(id: nat, internal: bool) | Forward(ancestor: nat)

  predicate IsInternal(s: Sink) {
    s.Forward? || s.internal
  }

  /** Emitters are numbered in creation order, listeners in registration order. */
  datatype Emitter = Emitter(cap: Option<int>, events: seq<Event>, sinks: seq<Sink>)

  /******* The cap *******/

  /** The slice taken after an append: `events[-cap:]` when there are more than `cap` of them. A negative cap
      drops that many from the front, and a cap of zero drops nothing. */
  function Trim(cap: Option<int>, events: seq<Event>): seq<Event> {
    if cap.None? || |events| <= cap.value then events
    else if cap.value > 0 then events[|events| - cap.value..]
    else if -cap.value <= |events| then events[-cap.value..]
    else []
  }

  /** What is left of a stream that was trimmed after every append. */
  function Retained(cap: Option<int>, stream: seq<Event>): seq<Event> {
    if cap.None? || cap.value == 0 || |stream| <= cap.value then stream
    else if cap.value < 0 then []
    else stream[|stream| - cap.value..]
  }

  /** Trimming after every append keeps exactly the last `cap` events of the stream, for a positive cap. */
  lemma {:induction false} TrimStep(cap: Option<int>, stream: seq<Event>, e: Event)
    ensures Trim(cap, Retained(cap, stream) + [e]) == Retained(cap, stream + [e])
  {
    if cap.Some? && 0 < cap.value <= |stream| {
      LastOnes(stream, e, cap.value);
    }
  }

  lemma {:induction false} LastOnes(stream: seq<Event>, e: Event, c: nat)
    requires 0 < c <= |stream|
    ensures (stream[|stream| - c..] + [e])[1..] == (stream + [e])[|stream| + 1 - c..]
  {
  }

  /** A cap of zero is no cap, and a positive cap bounds the list. */
  lemma {:induction false} CapBounds(cap: int, stream: seq<Event>)
    ensures cap > 0 <==> forall s: seq<Event> :: |Retained(Some(cap), s)| <= cap
    ensures cap == 0 ==> Retained(Some(cap), stream) == stream
    ensures cap > 0 ==>
              exists gone: seq<Event> ::
                stream == gone + Retained(Some(cap), stream) && (gone != [] ==> |Retained(Some(cap), stream)| == cap)
    ensures Retained(None, stream) == stream
  {
    if cap > 0 && |stream| > cap {
      assert stream == stream[..|stream| - cap] + Retained(Some(cap), stream);
    } else {
      assert stream == [] + stream;
    }
    if cap <= 0 {
      var e := Event("", 0, None, "");
      assert |Retained(Some(cap), [e])| > cap;
    }
  }

  /******* The history of an emitter tree *******/

  datatype Entry = Entry(source: nat, event: Event)

  /** `parents[n]` and `births[n]` are an emitter's parent and the number of listeners registered when it was
      created; `owners[q]`, `internal[q]` and `since[q]` are a listener's emitter, its kind, and the number of
      events emitted when it was registered. */
  datatype History = History(parents: seq<Option<nat>>, births: seq<nat>, owners: seq<nat>, internal: seq<bool>,
                             since: seq<nat>, log: seq<Entry>)

  ghost predicate Sound(h: History) {
    && |h.births| == |h.parents| && |h.internal| == |h.since| == |h.owners|
    && (forall n | 0 <= n < |h.parents| :: h.parents[n].Some? ==> h.parents[n].value < n)
    && (forall n | 0 <= n < |h.births| :: h.births[n] <= |h.owners|)
    && (forall q | 0 <= q < |h.owners| :: h.owners[q] < |h.parents| && h.since[q] <= |h.log|)
    && (forall k | 0 <= k < |h.log| :: h.log[k].source < |h.parents|)
  }

  ghost predicate HasParent(h: History, n: nat) {
    n < |h.parents| && h.parents[n].Some? && h.parents[n].value < n
  }

  /** Listener `q` is called for events of `n`: it was registered on `n`, or on its parent before `n` was
      created, and so on upwards. */
  ghost predicate Carries(h: History, n: nat, q: nat)
    requires Sound(h)
    decreases n
  {
    q < |h.owners| && n < |h.parents| &&
    (h.owners[q] == n || (HasParent(h, n) && q < h.births[n] && Carries(h, h.parents[n].value, q)))
  }

  ghost predicate Above(h: History, a: nat, n: nat)
    decreases n
  {
    HasParent(h, n) && (h.parents[n].value == a || Above(h, a, h.parents[n].value))
  }

  /** The child of `a` on the way down to `n`. */
  ghost function Branch(h: History, a: nat, n: nat): (c: nat)
    requires Above(h, a, n)
    ensures c <= n < |h.parents| && h.parents[c] == Some(a)
    decreases n
  {
    if h.parents[n].value == a then n else Branch(h, a, h.parents[n].value)
  }

  /** An internal listener registered early enough (before the first `limit` were complete) fails on an event. */
  ghost predicate Interrupted(h: History, fails: (nat, Event) -> bool, n: nat, e: Event, limit: nat)
    requires Sound(h)
  {
    exists q | 0 <= q < limit && q < |h.owners| :: h.internal[q] && Carries(h, n, q) && fails(q, e)
  }

  /** An event of `n` ends up in the list of `a`: it is its own, or it comes from below and no internal
      listener that the branch inherited from `a` failed on it. */
  ghost predicate Reaches(h: History, fails: (nat, Event) -> bool, n: nat, e: Event, a: nat)
    requires Sound(h)
  {
    n == a || (Above(h, a, n) && !Interrupted(h, fails, n, e, h.births[Branch(h, a, n)]))
  }

  /** Listener `q` is called for an event of `n`: it is carried by `n`, and if it is internal then no internal
      listener registered before it failed. */
  ghost predicate Hears(h: History, fails: (nat, Event) -> bool, n: nat, e: Event, q: nat)
    requires Sound(h)
  {
    Carries(h, n, q) && (h.internal[q] ==> !Interrupted(h, fails, n, e, q))
  }

  /** The emitted events that reach `a`, in emission order. */
  ghost function Stream(h: History, fails: (nat, Event) -> bool, log: seq<Entry>, a: nat): seq<Event>
    requires Sound(h)
  {
    if log == [] then [] else
    var last := log[|log| - 1];
    Stream(h, fails, log[..|log| - 1], a) + if Reaches(h, fails, last.source, last.event, a) then [last.event] else []
  }

  /** The emitted events that `q` hears, in emission order. */
  ghost function Heard(h: History, fails: (nat, Event) -> bool, log: seq<Entry>, q: nat): seq<Event>
    requires Sound(h)
  {
    if log == [] then [] else
    var last := log[|log| - 1];
    Heard(h, fails, log[..|log| - 1], q) + if Hears(h, fails, last.source, last.event, q) then [last.event] else []
  }

  /******* History only grows *******/

  ghost predicate Grows(h: History, h': History) {
    && Sound(h) && Sound(h')
    && h.parents <= h'.parents && h.births <= h'.births
    && h.owners <= h'.owners && h.internal <= h'.internal && h.since <= h'.since
    && (forall n | |h.parents| <= n < |h'.parents| :: h'.births[n] >= |h.owners|)
  }

  lemma {:induction false} CarriesStays(h: History, h': History, n: nat, q: nat)
    requires Grows(h, h') && n < |h.parents|
    ensures Carries(h', n, q) == (Carries(h, n, q) || (|h.owners| <= q < |h'.owners| && h'.owners[q] == n))
    decreases n
  {
    if HasParent(h, n) {
      CarriesStays(h, h', h.parents[n].value, q);
    }
  }

  lemma {:induction false} AboveStays(h: History, h': History, a: nat, n: nat)
    requires Grows(h, h') && n < |h.parents|
    ensures Above(h', a, n) == Above(h, a, n)
    ensures Above(h, a, n) ==> Branch(h', a, n) == Branch(h, a, n)
    decreases n
  {
    if HasParent(h, n) {
      AboveStays(h, h', a, h.parents[n].value);
    }
  }

  lemma {:induction false} InterruptedStays(h: History, h': History, fails: (nat, Event) -> bool, n: nat, e: Event,
                                            limit: nat)
    requires Grows(h, h') && n < |h.parents| && limit <= |h.owners|
    ensures Interrupted(h', fails, n, e, limit) == Interrupted(h, fails, n, e, limit)
  {
    forall q | 0 <= q < limit ensures Carries(h', n, q) == Carries(h, n, q) {
      CarriesStays(h, h', n, q);
    }
  }

  lemma {:induction false} ReachesStays(h: History, h': History, fails: (nat, Event) -> bool, n: nat, e: Event, a: nat)
    requires Grows(h, h') && n < |h.parents|
    ensures Reaches(h', fails, n, e, a) == Reaches(h, fails, n, e, a)
  {
    AboveStays(h, h', a, n);
    if Above(h, a, n) {
      InterruptedStays(h, h', fails, n, e, h.births[Branch(h, a, n)]);
    }
  }

  lemma {:induction false} HearsStays(h: History, h': History, fails: (nat, Event) -> bool, n: nat, e: Event, q: nat)
    requires Grows(h, h') && n < |h.parents| && q < |h.owners|
    ensures Hears(h', fails, n, e, q) == Hears(h, fails, n, e, q)
  {
    CarriesStays(h, h', n, q);
    InterruptedStays(h, h', fails, n, e, q);
  }

  ghost predicate From(h: History, log: seq<Entry>) {
    forall k | 0 <= k < |log| :: log[k].source < |h.parents|
  }

  lemma {:induction false} StreamStays(h: History, h': History, fails: (nat, Event) -> bool, log: seq<Entry>, a: nat)
    requires Grows(h, h') && From(h, log)
    ensures Stream(h', fails, log, a) == Stream(h, fails, log, a)
  {
    if log != [] {
      StreamStays(h, h', fails, log[..|log| - 1], a);
      ReachesStays(h, h', fails, log[|log| - 1].source, log[|log| - 1].event, a);
    }
  }

  lemma {:induction false} HeardStays(h: History, h': History, fails: (nat, Event) -> bool, log: seq<Entry>, q: nat)
    requires Grows(h, h') && From(h, log) && q < |h.owners|
    ensures Heard(h', fails, log, q) == Heard(h, fails, log, q)
  {
    if log != [] {
      HeardStays(h, h', fails, log[..|log| - 1], q);
      HearsStays(h, h', fails, log[|log| - 1].source, log[|log| - 1].event, q);
    }
  }

  lemma {:induction false} NothingFrom(h: History, fails: (nat, Event) -> bool, log: seq<Entry>, a: nat)
    requires Sound(h) && forall k | 0 <= k < |log| :: log[k].source < a
    ensures Stream(h, fails, log, a) == []
  {
    if log != [] {
      NothingFrom(h, fails, log[..|log| - 1], a);
      var n := log[|log| - 1].source;
      if Above(h, a, n) {
        AboveIsEarlier(h, a, n);
      }
    }
  }

  lemma {:induction false} AboveIsEarlier(h: History, a: nat, n: nat)
    requires Above(h, a, n)
    ensures a < n
    decreases n
  {
    if h.parents[n].value != a {
      AboveIsEarlier(h, a, h.parents[n].value);
    }
  }

  /******* What the history means *******/

  /** The events of `log` emitted by `a` or below it. */
  ghost function Below(h: History, log: seq<Entry>, a: nat): seq<Event> {
    if log == [] then [] else
    var last := log[|log| - 1];
    Below(h, log[..|log| - 1], a) + if last.source == a || Above(h, a, last.source) then [last.event] else []
  }

  /** Events reach every ancestor, once each and in order, exactly as long as no internal listener the branch
      inherited has failed on one. */
  lemma {:induction false} AllReachIff(h: History, fails: (nat, Event) -> bool, log: seq<Entry>, a: nat)
    requires Sound(h) && From(h, log)
    ensures Stream(h, fails, log, a) == Below(h, log, a) <==>
              forall k | 0 <= k < |log| && Above(h, a, log[k].source) ::
                !Interrupted(h, fails, log[k].source, log[k].event, h.births[Branch(h, a, log[k].source)])
    ensures Stream(h, fails, log, a) == Below(h, log, a) || |Stream(h, fails, log, a)| < |Below(h, log, a)|
  {
    if log != [] {
      var front, last := log[..|log| - 1], log[|log| - 1];
      AllReachIff(h, fails, front, a);
      assert forall k | 0 <= k < |front| :: log[k] == front[k];
      var s, b := Stream(h, fails, front, a), Below(h, front, a);
      if last.source == a || Above(h, a, last.source) {
        if Reaches(h, fails, last.source, last.event, a) {
          assert Stream(h, fails, log, a) == s + [last.event] && Below(h, log, a) == b + [last.event];
          assert (s + [last.event])[..|s|] == s && (b + [last.event])[..|b|] == b;
        } else {
          assert |Stream(h, fails, log, a)| < |Below(h, log, a)|;
        }
      }
    }
  }

  /** The events of `log` emitted by an emitter that carries `q`. */
  ghost function CarriedFrom(h: History, log: seq<Entry>, q: nat): seq<Event>
    requires Sound(h)
  {
    if log == [] then [] else
    var last := log[|log| - 1];
    CarriedFrom(h, log[..|log| - 1], q) + if Carries(h, last.source, q) then [last.event] else []
  }

  /** A listener hears every event it is carried for, once each and in order: always when it is external, and
      when it is internal exactly as long as no internal listener registered before it has failed. */
  lemma {:induction false} AllHeardIff(h: History, fails: (nat, Event) -> bool, log: seq<Entry>, q: nat)
    requires Sound(h) && From(h, log) && q < |h.owners|
    ensures Heard(h, fails, log, q) == CarriedFrom(h, log, q) <==>
              !h.internal[q] || forall k | 0 <= k < |log| && Carries(h, log[k].source, q) ::
                !Interrupted(h, fails, log[k].source, log[k].event, q)
    ensures Heard(h, fails, log, q) == CarriedFrom(h, log, q) || |Heard(h, fails, log, q)| < |CarriedFrom(h, log, q)|
  {
    if log != [] {
      var front, last := log[..|log| - 1], log[|log| - 1];
      AllHeardIff(h, fails, front, q);
      assert forall k | 0 <= k < |front| :: log[k] == front[k];
      var s, b := Heard(h, fails, front, q), CarriedFrom(h, front, q);
      if Carries(h, last.source, q) {
        if Hears(h, fails, last.source, last.event, q) {
          assert Heard(h, fails, log, q) == s + [last.event] && CarriedFrom(h, log, q) == b + [last.event];
          assert (s + [last.event])[..|s|] == s && (b + [last.event])[..|b|] == b;
        } else {
          assert |Heard(h, fails, log, q)| < |CarriedFrom(h, log, q)|;
        }
      }
    }
  }

  /******* The emitters themselves *******/

  /** Each sink appears once; listeners appear in registration order, and a forwarding sink comes right after
      what the branch inherited. */
  ghost predicate Wired(h: History, n: nat, sinks: seq<Sink>)
    requires Sound(h) && n < |h.parents|
  {
    Ordered(h, n, sinks) && Covered(h, n, sinks)
  }

  ghost predicate Ordered(h: History, n: nat, sinks: seq<Sink>)
    requires Sound(h)
  {
    && (forall i | 0 <= i < |sinks| :: Placed(h, n, sinks[i]))
    && (forall i, j | 0 <= i < j < |sinks| :: Before(h, n, sinks[i], sinks[j]))
  }

  ghost predicate Covered(h: History, n: nat, sinks: seq<Sink>)
    requires Sound(h)
  {
    && (forall q: nat | Carries(h, n, q) :: Listener(q, h.internal[q]) in sinks)
    && (forall a: nat | Above(h, a, n) :: Forward(a) in sinks)
  }

  ghost predicate Placed(h: History, n: nat, s: Sink)
    requires Sound(h)
  {
    match s
    case Listener(q, i) => Carries(h, n, q) && i == h.internal[q]
    case Forward(a) => Above(h, a, n)
  }

  ghost predicate Before(h: History, n: nat, s: Sink, t: Sink)
    requires Sound(h) && Placed(h, n, s) && Placed(h, n, t)
  {
    match (s, t)
    case (Listener(p, _), Listener(q, _)) => p < q
    case (Listener(p, _), Forward(a)) => p < h.births[Branch(h, a, n)]
    case (Forward(a), Listener(q, _)) => h.births[Branch(h, a, n)] <= q
    case (Forward(a), Forward(b)) => a < b
  }

  /** A sink is called for an event. */
  ghost predicate Called(h: History, fails: (nat, Event) -> bool, n: nat, e: Event, s: Sink)
    requires Sound(h)
  {
    match s
    case Listener(q, _) => Hears(h, fails, n, e, q)
    case Forward(a) => a != n && Reaches(h, fails, n, e, a)
  }

  ghost predicate FailsAt(fails: (nat, Event) -> bool, e: Event, s: Sink) {
    s.Listener? && s.internal && fails(s.id, e)
  }

  lemma {:induction false} InOrder(h: History, n: nat, sinks: seq<Sink>, i: nat, j: nat)
    requires Sound(h) && n < |h.parents| && Wired(h, n, sinks) && i < |sinks| && j < |sinks|
    ensures Placed(h, n, sinks[i]) && Placed(h, n, sinks[j])
    ensures i < j ==> Before(h, n, sinks[i], sinks[j])
  {
  }

  /** In a wired list, a sink is called exactly when it is external or nothing before it fails. */
  lemma {:induction false} CalledIff(h: History, fails: (nat, Event) -> bool, n: nat, e: Event, sinks: seq<Sink>,
                                     i: nat)
    requires Sound(h) && n < |h.parents| && Wired(h, n, sinks) && i < |sinks|
    ensures Called(h, fails, n, e, sinks[i]) <==>
              (!IsInternal(sinks[i]) || forall j | 0 <= j < i :: !FailsAt(fails, e, sinks[j]))
  {
    var s := sinks[i];
    assert Placed(h, n, s);
    if s.Forward? {
      AboveIsEarlier(h, s.ancestor, n);
    }
    if IsInternal(s) {
      var limit := if s.Forward? then h.births[Branch(h, s.ancestor, n)] else s.id;
      if Interrupted(h, fails, n, e, limit) {
        var q :| 0 <= q < limit && q < |h.owners| && h.internal[q] && Carries(h, n, q) && fails(q, e);
        var j :| 0 <= j < |sinks| && sinks[j] == Listener(q, true);
        InOrder(h, n, sinks, i, j);
        assert FailsAt(fails, e, sinks[j]);
      } else {
        forall j | 0 <= j < i ensures !FailsAt(fails, e, sinks[j]) {
          assert Placed(h, n, sinks[j]) && Before(h, n, sinks[j], s);
        }
      }
    }
  }

  /** A sink that is called is in the list. */
  lemma {:induction false} CalledIsListed(h: History, fails: (nat, Event) -> bool, n: nat, e: Event, sinks: seq<Sink>,
                                          s: Sink)
    requires Sound(h) && n < |h.parents| && Wired(h, n, sinks) && Called(h, fails, n, e, s)
    requires s.Listener? ==> s.id < |h.owners| && s.internal == h.internal[s.id]
    ensures s in sinks
  {
  }

  /** The list before which everything was called, given how far the internal sinks got. */
  ghost predicate Reached(sinks: seq<Sink>, upTo: nat, s: Sink)
    requires upTo <= |sinks|
  {
    if IsInternal(s) then s in sinks[..upTo] else s in sinks
  }

  /** When the internal sinks before `upTo` were called, and the call stopped there because the last one failed
      or because there were no more, then exactly the sinks that should be called were. */
  lemma {:induction false} ReachedIsCalled(h: History, fails: (nat, Event) -> bool, n: nat, e: Event,
                                           sinks: seq<Sink>, upTo: nat,
                        raised: bool, s: Sink)
    requires Sound(h) && n < |h.parents| && Wired(h, n, sinks)
    requires Stopped(fails, e, sinks, upTo, raised)
    requires s.Listener? ==> s.id < |h.owners| && s.internal == h.internal[s.id]
    ensures Reached(sinks, upTo, s) <==> Called(h, fails, n, e, s)
  {
    if s in sinks {
      var i :| 0 <= i < |sinks| && sinks[i] == s;
      CalledIff(h, fails, n, e, sinks, i);
      if IsInternal(s) {
        if i < upTo {
          assert sinks[..upTo][i] == s;
        } else {
          forall k | 0 <= k < upTo ensures sinks[k] != s {
            InOrder(h, n, sinks, k, i);
          }
        }
      }
    } else if Called(h, fails, n, e, s) {
      CalledIsListed(h, fails, n, e, sinks, s);
    }
  }

  /** A sink does not occur twice. */
  lemma {:induction false} NotYet(h: History, n: nat, sinks: seq<Sink>, i: nat)
    requires Sound(h) && n < |h.parents| && Wired(h, n, sinks) && i < |sinks|
    ensures sinks[i] !in sinks[..i]
    ensures forall s :: s in sinks[..i + 1] <==> s in sinks[..i] || s == sinks[i]
    ensures sinks[i].Listener? ==> sinks[i].id < |h.owners| && sinks[i].internal == h.internal[sinks[i].id]
    ensures sinks[i].Forward? ==> sinks[i].ancestor < n
  {
    assert Placed(h, n, sinks[i]);
    if sinks[i].Forward? {
      AboveIsEarlier(h, sinks[i].ancestor, n);
    }
    assert sinks[..i + 1] == sinks[..i] + [sinks[i]];
    forall k | 0 <= k < i ensures sinks[k] != sinks[i] {
      InOrder(h, n, sinks, k, i);
    }
  }

  function Receive(m: Emitter, e: Event): Emitter {
    m.(events := Trim(m.cap, m.events + [e]))
  }

  /** The internal sinks before `upTo` were called, and the last of them raised or there were no more. */
  ghost predicate Stopped(fails: (nat, Event) -> bool, e: Event, sinks: seq<Sink>, upTo: nat, raised: bool) {
    && upTo <= |sinks| && (upTo < |sinks| ==> raised)
    && (forall j | 0 <= j < upTo - 1 :: !FailsAt(fails, e, sinks[j]))
    && if raised then upTo > 0 && FailsAt(fails, e, sinks[upTo - 1]) else upTo > 0 ==> !FailsAt(fails, e, sinks[upTo - 1])
  }

  /** The listeners of one kind in `sinks` were called once each. */
  ghost predicate CalledOnce(sinks: seq<Sink>, internal: bool, e: Event, heard: seq<seq<Event>>,
                             calls: seq<seq<Event>>) {
    |calls| == |heard| &&
    forall q | 0 <= q < |heard| :: calls[q] == heard[q] + if Listener(q, internal) in sinks then [e] else []
  }

  /** The ancestors in `sinks` received the event once each. */
  ghost predicate ForwardedOnce(sinks: seq<Sink>, e: Event, emitters: seq<Emitter>, ems: seq<Emitter>) {
    |ems| == |emitters| &&
    forall a | 0 <= a < |ems| :: ems[a] == if Forward(a) in sinks then Receive(emitters[a], e) else emitters[a]
  }

  /** No sink twice, and only known listeners and emitters. */
  ghost predicate Usable(sinks: seq<Sink>, listeners: nat, emitters: nat) {
    && (forall i | 0 <= i < |sinks| :: if sinks[i].Listener? then sinks[i].id < listeners else sinks[i].ancestor < emitters)
    && (forall i, j | 0 <= i < j < |sinks| :: sinks[i] != sinks[j])
  }

  lemma {:induction false} WiredIsUsable(h: History, n: nat, sinks: seq<Sink>)
    requires Sound(h) && n < |h.parents| && Wired(h, n, sinks)
    ensures Usable(sinks, |h.owners|, |h.parents|)
  {
    forall i | 0 <= i < |sinks| ensures if sinks[i].Listener? then sinks[i].id < |h.owners| else sinks[i].ancestor < |h.parents| {
      NotYet(h, n, sinks, i);
    }
    forall i, j | 0 <= i < j < |sinks| ensures sinks[i] != sinks[j] {
      NotYet(h, n, sinks, j);
      assert sinks[..j][i] == sinks[i];
    }
  }

  lemma {:induction false} Next(sinks: seq<Sink>, i: nat, listeners: nat, emitters: nat)
    requires Usable(sinks, listeners, emitters) && i < |sinks|
    ensures sinks[i] !in sinks[..i] && forall s :: s in sinks[..i + 1] <==> s in sinks[..i] || s == sinks[i]
  {
    assert sinks[..i + 1] == sinks[..i] + [sinks[i]];
  }

  lemma {:induction false} CalledOneMore(sinks: seq<Sink>, i: nat, internal: bool, e: Event, heard: seq<seq<Event>>,
                      calls: seq<seq<Event>>, emitters: nat)
    requires Usable(sinks, |heard|, emitters) && i < |sinks| && CalledOnce(sinks[..i], internal, e, heard, calls)
    ensures CalledOnce(sinks[..i + 1], internal, e, heard,
                       if sinks[i].Listener? && sinks[i].internal == internal
                       then calls[sinks[i].id := calls[sinks[i].id] + [e]] else calls)
  {
    Next(sinks, i, |heard|, emitters);
  }

  lemma {:induction false} ForwardedOneMore(sinks: seq<Sink>, i: nat, e: Event, emitters: seq<Emitter>,
                                            ems: seq<Emitter>, listeners: nat)
    requires Usable(sinks, listeners, |emitters|) && i < |sinks| && ForwardedOnce(sinks[..i], e, emitters, ems)
    ensures ForwardedOnce(sinks[..i + 1], e, emitters,
                          if sinks[i].Forward? then ems[sinks[i].ancestor := Receive(ems[sinks[i].ancestor], e)] else ems)
  {
    Next(sinks, i, listeners, |emitters|);
  }

  /** The first dispatch loop: the external listeners, whether they raise or not. */
  method CallExternals(sinks: seq<Sink>, e: Event, heard: seq<seq<Event>>, ghost emitters: nat)
    returns (calls: seq<seq<Event>>)
    requires Usable(sinks, |heard|, emitters)
    ensures CalledOnce(sinks, false, e, heard, calls)
  {
    calls := heard;
    for i := 0 to |sinks|
      invariant CalledOnce(sinks[..i], false, e, heard, calls)
    {
      CalledOneMore(sinks, i, false, e, heard, calls, emitters);
      if !IsInternal(sinks[i]) {
        calls := calls[sinks[i].id := calls[sinks[i].id] + [e]];
      }
    }
    assert sinks[..|sinks|] == sinks;
  }

  /** The second dispatch loop: the internal listeners and the forwarding sinks, until one raises. */
  method CallInternals(fails: (nat, Event) -> bool, sinks: seq<Sink>, e: Event, emitters: seq<Emitter>,
                       heard: seq<seq<Event>>)
    returns (ems: seq<Emitter>, calls: seq<seq<Event>>, raised: bool, ghost upTo: nat)
    requires Usable(sinks, |heard|, |emitters|)
    ensures Stopped(fails, e, sinks, upTo, raised)
    ensures CalledOnce(sinks[..upTo], true, e, heard, calls) && ForwardedOnce(sinks[..upTo], e, emitters, ems)
  {
    ems, calls, raised := emitters, heard, false;
    var i := 0;
    while i < |sinks| && !raised
      invariant 0 <= i <= |sinks| && (raised ==> i > 0 && FailsAt(fails, e, sinks[i - 1]))
      invariant forall j | 0 <= j < (if raised then i - 1 else i) :: !FailsAt(fails, e, sinks[j])
      invariant CalledOnce(sinks[..i], true, e, heard, calls) && ForwardedOnce(sinks[..i], e, emitters, ems)
    {
      CalledOneMore(sinks, i, true, e, heard, calls, |emitters|);
      ForwardedOneMore(sinks, i, e, emitters, ems, |heard|);
      var s := sinks[i];
      if s.Forward? {
        ems := ems[s.ancestor := Receive(ems[s.ancestor], e)];
      } else if s.internal {
        calls := calls[s.id := calls[s.id] + [e]];
        raised := fails(s.id, e);
      }
      i := i + 1;
    }
    upTo := i;
  }

  /** Every list of events is what is retained of the events that reach it, and every listener has been
      called for exactly the events it hears. */
  ghost predicate Accounted(h: History, fails: (nat, Event) -> bool, emitters: seq<Emitter>, heard: seq<seq<Event>>) {
    && Sound(h) && |emitters| == |h.parents| && |heard| == |h.owners|
    && (forall n | 0 <= n < |emitters| :: EmitterAccounted(h, fails, n, emitters[n]))
    && (forall q | 0 <= q < |heard| :: ListenerAccounted(h, fails, q, heard[q]))
  }

  ghost predicate EmitterAccounted(h: History, fails: (nat, Event) -> bool, n: nat, m: Emitter)
    requires Sound(h) && n < |h.parents|
  {
    Wired(h, n, m.sinks) && m.events == Retained(m.cap, Stream(h, fails, h.log, n))
  }

  ghost predicate ListenerAccounted(h: History, fails: (nat, Event) -> bool, q: nat, calls: seq<Event>)
    requires Sound(h) && q < |h.owners|
  {
    calls == Heard(h, fails, h.log[h.since[q]..], q)
  }

  /** The emitters of one process, addressed by number; `fails` says on which events a listener raises. */
  class EmitterTree {
    const fails: (nat, Event) -> bool
    var emitters: seq<Emitter>
    var heard: seq<seq<Event>>     // the calls each listener has received
    ghost var h: History

    ghost predicate Valid()
      reads this
    {
      Accounted(h, fails, emitters, heard)
    }

    constructor (fails: (nat, Event) -> bool)
      ensures Valid() && emitters == [] && heard == [] && h.log == []
    {
      this.fails, emitters, heard, h := fails, [], [], History([], [], [], [], [], []);
    }

    /** Records an event with the emitter, then calls the external listeners, then the internal sinks until one
        raises. */
    method Emit(n: nat, e: Event) returns (raised: bool)
      requires Valid() && n < |emitters|
      modifies this
      ensures Valid() && h == old(h).(log := old(h.log) + [Entry(n, e)])
      ensures raised <==> Interrupted(old(h), fails, n, e, |old(heard)|)
      ensures |emitters| == |old(emitters)| && |heard| == |old(heard)|
      ensures forall m | 0 <= m < |emitters| :: emitters[m] == old(emitters)[m].(events := emitters[m].events)
    {
      var sinks := emitters[n].sinks;
      assert EmitterAccounted(h, fails, n, emitters[n]);
      WiredIsUsable(h, n, sinks);
      var mid := CallExternals(sinks, e, heard, |emitters|);
      var ems, calls;
      ghost var upTo;
      ems, calls, raised, upTo := CallInternals(fails, sinks, e, emitters[n := Receive(emitters[n], e)], mid);
      Settled(h, fails, n, e, emitters, heard, mid, ems, calls, upTo, raised);
      RaisedIff(h, fails, n, e, sinks, upTo, raised);
      emitters, heard, h := ems, calls, h.(log := h.log + [Entry(n, e)]);
    }

    /** Registers a listener, for later events and for children created later. */
    method AddListener(n: nat, internal: bool) returns (q: nat)
      requires Valid() && n < |emitters|
      modifies this
      ensures Valid() && q == |old(heard)| && h == Registered(old(h), n, internal)
      ensures heard == old(heard) + [[]] && |emitters| == |old(emitters)|
      ensures emitters == old(emitters)[n := old(emitters)[n].(sinks := emitters[n].sinks)]
    {
      q := |heard|;
      RegistrationKeeps(h, fails, n, internal, emitters, heard);
      emitters := emitters[n := emitters[n].(sinks := emitters[n].sinks + [Listener(q, internal)])];
      heard, h := heard + [[]], Registered(h, n, internal);
    }

    /** A fresh emitter without a parent. */
    method NewEmitter(cap: Option<int>) returns (n: nat)
      requires Valid()
      modifies this
      ensures Valid() && n == |old(emitters)| && h == Founded(old(h), None)
      ensures heard == old(heard) && emitters == old(emitters) + [Emitter(cap, [], [])]
    {
      n := |emitters|;
      FoundingKeeps(h, fails, None, emitters, heard, Emitter(cap, [], []));
      emitters, h := emitters + [Emitter(cap, [], [])], Founded(h, None);
    }

    /** A child copies its parent's cap and sinks, then adds the sink that forwards to the parent. */
    method CreateChild(p: nat) returns (n: nat)
      requires Valid() && p < |emitters|
      modifies this
      ensures Valid() && n == |old(emitters)| && h == Founded(old(h), Some(p))
      ensures heard == old(heard) && |emitters| == n + 1 && emitters[..n] == old(emitters)
      ensures emitters[n].cap == emitters[p].cap && emitters[n].events == []
    {
      n := |emitters|;
      var sinks: seq<Sink> := [];
      for i := 0 to |emitters[p].sinks|
        invariant sinks == emitters[p].sinks[..i]
        modifies {}
      {
        sinks := sinks + [emitters[p].sinks[i]];
      }
      var child := Emitter(emitters[p].cap, [], sinks + [Forward(p)]);
      FoundingKeeps(h, fails, Some(p), emitters, heard, child);
      emitters, h := emitters + [child], Founded(h, Some(p));
    }
  }

  /** The history after a listener was registered. */
  ghost function Registered(h: History, n: nat, internal: bool): History {
    h.(owners := h.owners + [n], internal := h.internal + [internal], since := h.since + [|h.log|])
  }

  /** The history after an emitter was created. */
  ghost function Founded(h: History, parent: Option<nat>): History {
    h.(parents := h.parents + [parent], births := h.births + [|h.owners|])
  }

  lemma {:induction false} EmitterUnaffected(h: History, h': History, fails: (nat, Event) -> bool, n: nat, m: Emitter)
    requires Grows(h, h') && h'.log == h.log && n < |h.parents| && EmitterAccounted(h, fails, n, m)
    requires forall q | |h.owners| <= q < |h'.owners| :: h'.owners[q] != n
    ensures EmitterAccounted(h', fails, n, m)
  {
    WiredStays(h, h', n, m.sinks);
    StreamStays(h, h', fails, h.log, n);
  }

  lemma {:induction false} ListenerUnaffected(h: History, h': History, fails: (nat, Event) -> bool, q: nat,
                                              calls: seq<Event>)
    requires Grows(h, h') && h'.log == h.log && q < |h.owners| && ListenerAccounted(h, fails, q, calls)
    ensures ListenerAccounted(h', fails, q, calls)
  {
    HeardStays(h, h', fails, h.log[h.since[q]..], q);
  }

  lemma {:induction false} WiredWithListener(h: History, n: nat, internal: bool, sinks: seq<Sink>)
    requires Sound(h) && n < |h.parents| && Wired(h, n, sinks)
    ensures Grows(h, Registered(h, n, internal))
    ensures Wired(Registered(h, n, internal), n, sinks + [Listener(|h.owners|, internal)])
  {
    OrderedWithListener(h, n, internal, sinks);
    CoveredWithListener(h, n, internal, sinks);
  }

  lemma {:induction false} OrderedWithListener(h: History, n: nat, internal: bool, sinks: seq<Sink>)
    requires Sound(h) && n < |h.parents| && Ordered(h, n, sinks) && Grows(h, Registered(h, n, internal))
    ensures Ordered(Registered(h, n, internal), n, sinks + [Listener(|h.owners|, internal)])
  {
    var h', sinks' := Registered(h, n, internal), sinks + [Listener(|h.owners|, internal)];
    forall i | 0 <= i < |sinks'| ensures Placed(h', n, sinks'[i]) {
      if i < |sinks| {
        PlacedStays(h, h', n, sinks[i]);
      }
    }
    forall i, j | 0 <= i < j < |sinks'| ensures Before(h', n, sinks'[i], sinks'[j]) {
      assert Placed(h, n, sinks[i]);
      if j < |sinks| {
        BeforeStays(h, h', n, sinks[i], sinks[j]);
      } else {
        LastComesLast(h, n, internal, sinks[i]);
      }
    }
  }

  lemma {:induction false} BeforeStays(h: History, h': History, n: nat, s: Sink, t: Sink)
    requires Grows(h, h') && n < |h.parents| && Placed(h, n, s) && Placed(h, n, t) && Before(h, n, s, t)
    ensures Placed(h', n, s) && Placed(h', n, t) && Before(h', n, s, t)
  {
    PlacedStays(h, h', n, s);
    PlacedStays(h, h', n, t);
  }

  lemma {:induction false} LastComesLast(h: History, n: nat, internal: bool, s: Sink)
    requires Grows(h, Registered(h, n, internal)) && n < |h.parents| && Placed(h, n, s)
    ensures var h', t := Registered(h, n, internal), Listener(|h.owners|, internal);
            Placed(h', n, s) && Placed(h', n, t) && Before(h', n, s, t)
  {
    PlacedStays(h, Registered(h, n, internal), n, s);
  }

  lemma {:induction false} CoveredWithListener(h: History, n: nat, internal: bool, sinks: seq<Sink>)
    requires Sound(h) && n < |h.parents| && Covered(h, n, sinks) && Grows(h, Registered(h, n, internal))
    ensures Covered(Registered(h, n, internal), n, sinks + [Listener(|h.owners|, internal)])
  {
    var h', sinks' := Registered(h, n, internal), sinks + [Listener(|h.owners|, internal)];
    forall q: nat | Carries(h', n, q) ensures Listener(q, h'.internal[q]) in sinks' {
      CarriesStays(h, h', n, q);
    }
    forall a: nat | Above(h', a, n) ensures Forward(a) in sinks' {
      AboveStays(h, h', a, n);
    }
  }

  lemma {:induction false} RegistrationKeeps(h: History, fails: (nat, Event) -> bool, n: nat, internal: bool,
                                             emitters: seq<Emitter>,
                          heard: seq<seq<Event>>)
    requires Accounted(h, fails, emitters, heard) && n < |emitters|
    ensures Accounted(Registered(h, n, internal), fails,
                      emitters[n := emitters[n].(sinks := emitters[n].sinks + [Listener(|h.owners|, internal)])],
                      heard + [[]])
  {
    var h' := Registered(h, n, internal);
    var m := emitters[n].(sinks := emitters[n].sinks + [Listener(|h.owners|, internal)]);
    assert EmitterAccounted(h, fails, n, emitters[n]);
    WiredWithListener(h, n, internal, emitters[n].sinks);
    StreamStays(h, h', fails, h.log, n);
    assert EmitterAccounted(h', fails, n, m);
    var now := emitters[n := m];
    forall i | 0 <= i < |emitters| ensures EmitterAccounted(h', fails, i, now[i]) {
      if i != n {
        EmitterUnaffected(h, h', fails, i, emitters[i]);
      }
    }
    forall q | 0 <= q < |heard + [[]]| ensures ListenerAccounted(h', fails, q, (heard + [[]])[q]) {
      if q < |heard| {
        ListenerUnaffected(h, h', fails, q, heard[q]);
      }
    }
  }

  lemma {:induction false} WiredAtBirth(h: History, p: nat, sinks: seq<Sink>)
    requires Sound(h) && p < |h.parents| && Wired(h, p, sinks)
    ensures Grows(h, Founded(h, Some(p)))
    ensures Wired(Founded(h, Some(p)), |h.parents|, sinks + [Forward(p)])
  {
    BirthGrows(h, p);
    OrderedAtBirth(h, p, sinks);
    CoveredAtBirth(h, p, sinks);
  }

  lemma {:induction false} BirthGrows(h: History, p: nat)
    requires Sound(h) && p < |h.parents|
    ensures Grows(h, Founded(h, Some(p))) && HasParent(Founded(h, Some(p)), |h.parents|)
  {
  }

  /** A child carries what its parent carries. */
  lemma {:induction false} CarriesAtBirth(h: History, p: nat, q: nat)
    requires Sound(h) && p < |h.parents|
    ensures Sound(Founded(h, Some(p))) && Carries(Founded(h, Some(p)), |h.parents|, q) == Carries(h, p, q)
  {
    BirthGrows(h, p);
    CarriesStays(h, Founded(h, Some(p)), p, q);
  }

  /** A child's ancestors are its parent and the parent's ancestors, along the same branches. */
  lemma {:induction false} AboveAtBirth(h: History, p: nat, a: nat)
    requires Sound(h) && p < |h.parents|
    ensures var h', n := Founded(h, Some(p)), |h.parents|;
            && Above(h', a, n) == (a == p || Above(h, a, p))
            && (Above(h, a, p) ==> Branch(h', a, n) == Branch(h, a, p))
  {
    BirthGrows(h, p);
    AboveStays(h, Founded(h, Some(p)), a, p);
    if Above(h, a, p) {
      AboveIsEarlier(h, a, p);
    }
  }

  lemma {:induction false} OrderedAtBirth(h: History, p: nat, sinks: seq<Sink>)
    requires Sound(h) && p < |h.parents| && Ordered(h, p, sinks) && Grows(h, Founded(h, Some(p)))
    ensures Ordered(Founded(h, Some(p)), |h.parents|, sinks + [Forward(p)])
  {
    var h', n, sinks' := Founded(h, Some(p)), |h.parents|, sinks + [Forward(p)];
    forall i | 0 <= i < |sinks'| ensures Placed(h', n, sinks'[i]) {
      if i < |sinks| {
        PlacedAtBirth(h, p, sinks[i]);
      }
    }
    forall i, j | 0 <= i < j < |sinks'| ensures Before(h', n, sinks'[i], sinks'[j]) {
      PlacedAtBirth(h, p, sinks[i]);
      if j < |sinks| {
        PlacedAtBirth(h, p, sinks[j]);
        assert Before(h, p, sinks[i], sinks[j]);
      }
    }
  }

  lemma {:induction false} PlacedAtBirth(h: History, p: nat, s: Sink)
    requires Sound(h) && p < |h.parents| && Placed(h, p, s)
    ensures var h', n := Founded(h, Some(p)), |h.parents|;
            && Sound(h') && Placed(h', n, s) && Before(h', n, s, Forward(p))
            && (s.Forward? ==> h'.births[Branch(h', s.ancestor, n)] == h.births[Branch(h, s.ancestor, p)])
  {
    BirthGrows(h, p);
    AboveAtBirth(h, p, p);
    match s {
      case Listener(q, _) => CarriesAtBirth(h, p, q);
      case Forward(a) => AboveAtBirth(h, p, a); AboveIsEarlier(h, a, p);
    }
  }

  lemma {:induction false} CoveredAtBirth(h: History, p: nat, sinks: seq<Sink>)
    requires Sound(h) && p < |h.parents| && Covered(h, p, sinks) && Grows(h, Founded(h, Some(p)))
    ensures Covered(Founded(h, Some(p)), |h.parents|, sinks + [Forward(p)])
  {
    var h', n := Founded(h, Some(p)), |h.parents|;
    forall q: nat | Carries(h', n, q) ensures Listener(q, h'.internal[q]) in sinks + [Forward(p)] {
      CarriesAtBirth(h, p, q);
    }
    forall a: nat | Above(h', a, n) ensures Forward(a) in sinks + [Forward(p)] {
      AboveAtBirth(h, p, a);
    }
  }

  lemma {:induction false} FoundingKeeps(h: History, fails: (nat, Event) -> bool, parent: Option<nat>,
                                         emitters: seq<Emitter>,
                      heard: seq<seq<Event>>, m: Emitter)
    requires Accounted(h, fails, emitters, heard) && m.events == []
    requires match parent
             case Some(p) => p < |emitters| && m.sinks == emitters[p].sinks + [Forward(p)]
             case None => m.sinks == []
    ensures Accounted(Founded(h, parent), fails, emitters + [m], heard)
  {
    var h', n, now := Founded(h, parent), |emitters|, emitters + [m];
    if parent.Some? {
      assert EmitterAccounted(h, fails, parent.value, emitters[parent.value]);
    }
    NewbornAccounted(h, fails, parent, if parent.Some? then emitters[parent.value].sinks else [], m);
    forall i | 0 <= i < |now| ensures EmitterAccounted(h', fails, i, now[i]) {
      if i < n {
        EmitterUnaffected(h, h', fails, i, emitters[i]);
      }
    }
    forall q | 0 <= q < |heard| ensures ListenerAccounted(h', fails, q, heard[q]) {
      ListenerUnaffected(h, h', fails, q, heard[q]);
    }
  }

  lemma {:induction false} NewbornAccounted(h: History, fails: (nat, Event) -> bool, parent: Option<nat>,
                                            inherited: seq<Sink>, m: Emitter)
    requires Sound(h) && m.events == []
    requires match parent
             case Some(p) => p < |h.parents| && Wired(h, p, inherited) && m.sinks == inherited + [Forward(p)]
             case None => m.sinks == []
    ensures Grows(h, Founded(h, parent)) && EmitterAccounted(Founded(h, parent), fails, |h.parents|, m)
  {
    if parent.Some? {
      WiredAtBirth(h, parent.value, inherited);
    } else {
      WiredAlone(h);
    }
    NothingFrom(Founded(h, parent), fails, h.log, |h.parents|);
  }

  lemma {:induction false} WiredAlone(h: History)
    requires Sound(h)
    ensures Grows(h, Founded(h, None)) && Wired(Founded(h, None), |h.parents|, [])
  {
  }

  lemma {:induction false} RaisedIff(h: History, fails: (nat, Event) -> bool, n: nat, e: Event, sinks: seq<Sink>,
                                     upTo: nat, raised: bool)
    requires Sound(h) && n < |h.parents| && Wired(h, n, sinks) && Stopped(fails, e, sinks, upTo, raised)
    ensures raised <==> Interrupted(h, fails, n, e, |h.owners|)
  {
    if raised {
      assert Placed(h, n, sinks[upTo - 1]);
    } else {
      forall q: nat | q < |h.owners| && h.internal[q] && Carries(h, n, q) ensures !fails(q, e) {
        assert Listener(q, true) in sinks;
        var j :| 0 <= j < |sinks| && sinks[j] == Listener(q, true);
        assert !FailsAt(fails, e, sinks[j]);
      }
    }
  }

  /** One emission keeps the account of every list and every listener. */
  lemma {:induction false} Settled(h: History, fails: (nat, Event) -> bool, n: nat, e: Event, emitters: seq<Emitter>,
                heard: seq<seq<Event>>,
                mid: seq<seq<Event>>, ems: seq<Emitter>, calls: seq<seq<Event>>, upTo: nat, raised: bool)
    requires Accounted(h, fails, emitters, heard) && n < |h.parents|
    requires Stopped(fails, e, emitters[n].sinks, upTo, raised)
    requires CalledOnce(emitters[n].sinks, false, e, heard, mid)
             && CalledOnce(emitters[n].sinks[..upTo], true, e, mid, calls)
    requires ForwardedOnce(emitters[n].sinks[..upTo], e, emitters[n := Receive(emitters[n], e)], ems)
    ensures Accounted(h.(log := h.log + [Entry(n, e)]), fails, ems, calls)
  {
    var h', sinks := h.(log := h.log + [Entry(n, e)]), emitters[n].sinks;
    assert EmitterAccounted(h, fails, n, emitters[n]);
    forall m | 0 <= m < |ems| ensures EmitterAccounted(h', fails, m, ems[m]) {
      assert EmitterAccounted(h, fails, m, emitters[m]);
      ReachedIsCalled(h, fails, n, e, sinks, upTo, raised, Forward(m));
      NotItsOwnAncestor(h, n, sinks);
      SettledEmitter(h, fails, n, e, m, emitters[m], ems[m]);
    }
    forall q | 0 <= q < |calls| ensures ListenerAccounted(h', fails, q, calls[q]) {
      assert ListenerAccounted(h, fails, q, heard[q]);
      OneKind(h, n, sinks, q);
      ReachedIsCalled(h, fails, n, e, sinks, upTo, raised, Listener(q, h.internal[q]));
      OneKindBefore(h, n, sinks, q, upTo);
      SettledListener(h, fails, n, e, q, heard[q], calls[q]);
    }
  }

  lemma {:induction false} NotItsOwnAncestor(h: History, n: nat, sinks: seq<Sink>)
    requires Sound(h) && n < |h.parents| && Wired(h, n, sinks)
    ensures Forward(n) !in sinks
  {
    forall i | 0 <= i < |sinks| ensures sinks[i] != Forward(n) {
      NotYet(h, n, sinks, i);
    }
  }

  lemma {:induction false} SettledEmitter(h: History, fails: (nat, Event) -> bool, n: nat, e: Event, m: nat,
                                          was: Emitter, now: Emitter)
    requires Sound(h) && n < |h.parents| && m < |h.parents| && EmitterAccounted(h, fails, m, was)
    requires now == if Reaches(h, fails, n, e, m) then Receive(was, e) else was
    ensures Sound(h.(log := h.log + [Entry(n, e)]))
    ensures EmitterAccounted(h.(log := h.log + [Entry(n, e)]), fails, m, now)
  {
    var h' := h.(log := h.log + [Entry(n, e)]);
    WiredStays(h, h', m, was.sinks);
    StreamGrows(h, fails, n, e, m);
    TrimStep(was.cap, Stream(h, fails, h.log, m), e);
  }

  /** One more entry of the log reaches an emitter or does not. */
  lemma {:induction false} StreamGrows(h: History, fails: (nat, Event) -> bool, n: nat, e: Event, m: nat)
    requires Sound(h) && n < |h.parents|
    ensures var h' := h.(log := h.log + [Entry(n, e)]);
            && Grows(h, h')
            && Stream(h', fails, h'.log, m) == Stream(h, fails, h.log, m) + if Reaches(h, fails, n, e, m) then [e] else []
  {
    var h' := h.(log := h.log + [Entry(n, e)]);
    assert h'.log[..|h.log|] == h.log;
    StreamStays(h, h', fails, h.log, m);
    ReachesStays(h, h', fails, n, e, m);
  }

  lemma {:induction false} SettledListener(h: History, fails: (nat, Event) -> bool, n: nat, e: Event, q: nat,
                                           was: seq<Event>,
                        now: seq<Event>)
    requires Sound(h) && n < |h.parents| && q < |h.owners| && ListenerAccounted(h, fails, q, was)
    requires now == was + if Hears(h, fails, n, e, q) then [e] else []
    ensures Sound(h.(log := h.log + [Entry(n, e)]))
    ensures ListenerAccounted(h.(log := h.log + [Entry(n, e)]), fails, q, now)
  {
    var h' := h.(log := h.log + [Entry(n, e)]);
    var tail := h'.log[h.since[q]..];
    assert tail[..|tail| - 1] == h.log[h.since[q]..];
    HeardStays(h, h', fails, h.log[h.since[q]..], q);
    HearsStays(h, h', fails, n, e, q);
  }

  lemma {:induction false} OneKind(h: History, n: nat, sinks: seq<Sink>, q: nat)
    requires Sound(h) && n < |h.parents| && Wired(h, n, sinks) && q < |h.owners|
    ensures Listener(q, !h.internal[q]) !in sinks
  {
    forall j | 0 <= j < |sinks| ensures sinks[j] != Listener(q, !h.internal[q]) {
      assert Placed(h, n, sinks[j]);
    }
  }

  lemma {:induction false} OneKindBefore(h: History, n: nat, sinks: seq<Sink>, q: nat, upTo: nat)
    requires Sound(h) && n < |h.parents| && Wired(h, n, sinks) && q < |h.owners| && upTo <= |sinks|
    ensures Listener(q, !h.internal[q]) !in sinks[..upTo]
  {
    OneKind(h, n, sinks, q);
  }

  lemma {:induction false} WiredStays(h: History, h': History, n: nat, sinks: seq<Sink>)
    requires Grows(h, h') && n < |h.parents| && Wired(h, n, sinks)
    requires forall q | |h.owners| <= q < |h'.owners| :: h'.owners[q] != n
    ensures Wired(h', n, sinks)
  {
    forall i | 0 <= i < |sinks| ensures Placed(h', n, sinks[i]) {
      PlacedStays(h, h', n, sinks[i]);
    }
    forall i, j | 0 <= i < j < |sinks| ensures Before(h', n, sinks[i], sinks[j]) {
      BeforeStays(h, h', n, sinks[i], sinks[j]);
    }
    forall q: nat | Carries(h', n, q) ensures Listener(q, h'.internal[q]) in sinks {
      CarriesStays(h, h', n, q);
    }
    forall a: nat | Above(h', a, n) ensures Forward(a) in sinks {
      AboveStays(h, h', a, n);
    }
  }

  lemma {:induction false} PlacedStays(h: History, h': History, n: nat, s: Sink)
    requires Grows(h, h') && n < |h.parents| && Placed(h, n, s)
    ensures Placed(h', n, s)
    ensures s.Forward? ==> h'.births[Branch(h', s.ancestor, n)] == h.births[Branch(h, s.ancestor, n)]
  {
    match s {
      case Listener(q, _) => CarriesStays(h, h', n, q);
      case Forward(a) => AboveStays(h, h', a, n);
    }
  }
}
