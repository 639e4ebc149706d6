/** The message bus: routing by topic, first-in-first-out processing, lineage, delivery and the message cap. */
module MessageBus {
  import opened Values
  import opened Multiplicity

  datatype Message = Message(id: nat, topic: string, content: string, author: string, depth: int, parent: Option<nat>)

  datatype Draft = Draft(topic: string, content: string)

  datatype Subscription = Subscription(agent: string, topics: seq<string>, filter: Option<Message -> bool>)

  /** One subscriber's handling of the message at a position of the log; a failed one published nothing. */
  datatype Delivery = Delivery(position: nat, subscriber: nat, published: Option<seq<Message>>)

  datatype Ending = Quiescence | MaxMessages | Cancelled | Terminated

  datatype Config = Config(subscriptions: seq<Subscription>, maxMessages: int, maxDepth: int, allowSelf: bool)

  /******* Routing *******/

  /** The subscription once for every time it lists the topic. */
  function Copies(s: nat, topics: seq<string>, topic: string): seq<nat> {
    if topics == [] then [] else
    Copies(s, topics[..|topics| - 1], topic) + if topics[|topics| - 1] == topic then [s] else []
  }

  function Subscribed(subs: seq<Subscription>, topic: string): seq<nat> {
    if subs == [] then [] else
    var last := |subs| - 1;
    Subscribed(subs[..last], topic) + Copies(last, subs[last].topics, topic)
  }

  predicate Within(n: nat, s: seq<nat>) {
    forall i | 0 <= i < |s| :: s[i] < n
  }

  predicate Eligible(c: Config, s: nat, m: Message)
    requires s < |c.subscriptions|
  {
    var sub := c.subscriptions[s];
    && (sub.filter.Some? ==> sub.filter.value(m))
    && (c.allowSelf || sub.agent != m.author)
  }

  lemma {:induction false} CopiesAreOf(s: nat, topics: seq<string>, topic: string)
    ensures Within(s + 1, Copies(s, topics, topic))
  {
    if topics != [] {
      CopiesAreOf(s, topics[..|topics| - 1], topic);
    }
  }

  lemma {:induction false} SubscribedBounds(subs: seq<Subscription>, topic: string)
    ensures Within(|subs|, Subscribed(subs, topic))
  {
    if subs != [] {
      SubscribedBounds(subs[..|subs| - 1], topic);
      CopiesAreOf(|subs| - 1, subs[|subs| - 1].topics, topic);
    }
  }

  /** The candidates that are eligible for a message, in order. */
  function Pick(c: Config, candidates: seq<nat>, m: Message): (r: seq<nat>)
    requires Within(|c.subscriptions|, candidates)
    ensures Within(|c.subscriptions|, r)
  {
    if candidates == [] then [] else
    var last := candidates[|candidates| - 1];
    Pick(c, candidates[..|candidates| - 1], m) + if Eligible(c, last, m) then [last] else []
  }

  /** Who gets a message, in delivery order. */
  function Matching(c: Config, m: Message): (r: seq<nat>)
    ensures Within(|c.subscriptions|, r)
  {
    SubscribedBounds(c.subscriptions, m.topic);
    Pick(c, Subscribed(c.subscriptions, m.topic), m)
  }

  lemma {:induction false} TimesInCopies(s: nat, topics: seq<string>, topic: string, x: nat)
    ensures Times(Copies(s, topics, topic), x) == if x == s then Times(topics, topic) else 0
  {
    if topics != [] {
      TimesInCopies(s, topics[..|topics| - 1], topic, x);
      TimesAppend(Copies(s, topics[..|topics| - 1], topic), if topics[|topics| - 1] == topic then [s] else [], x);
    }
  }

  lemma {:induction false} TimesSubscribed(subs: seq<Subscription>, topic: string, x: nat)
    ensures Times(Subscribed(subs, topic), x) == if x < |subs| then Times(subs[x].topics, topic) else 0
  {
    if subs != [] {
      var last := |subs| - 1;
      TimesSubscribed(subs[..last], topic, x);
      TimesInCopies(last, subs[last].topics, topic, x);
      TimesAppend(Subscribed(subs[..last], topic), Copies(last, subs[last].topics, topic), x);
    }
  }

  lemma {:induction false} TimesPicked(c: Config, candidates: seq<nat>, m: Message, x: nat)
    requires x < |c.subscriptions| && Within(|c.subscriptions|, candidates)
    ensures Times(Pick(c, candidates, m), x) == if Eligible(c, x, m) then Times(candidates, x) else 0
  {
    if candidates != [] {
      var front, last := candidates[..|candidates| - 1], candidates[|candidates| - 1];
      TimesPicked(c, front, m, x);
      assert Times(candidates, x) == Times(front, x) + if last == x then 1 else 0;
      if Eligible(c, last, m) {
        assert Pick(c, candidates, m) == Pick(c, front, m) + [last];
        TimesOneMore(Pick(c, front, m), last, x);
      } else {
        assert Pick(c, candidates, m) == Pick(c, front, m);
      }
    }
  }

  /** A subscriber gets a message once for every time it lists the topic, if its filter passes and it is not the
      author (or self-delivery is on). */
  lemma {:induction false} TimesMatching(c: Config, m: Message, x: nat)
    requires x < |c.subscriptions|
    ensures Times(Matching(c, m), x) == if Eligible(c, x, m) then Times(c.subscriptions[x].topics, m.topic) else 0
  {
    SubscribedBounds(c.subscriptions, m.topic);
    TimesSubscribed(c.subscriptions, m.topic, x);
    TimesPicked(c, Subscribed(c.subscriptions, m.topic), m, x);
  }

  /******* Deliveries *******/

  datatype Slot = Slot(position: nat, subscriber: nat)

  function SlotsAt(position: nat, subs: seq<nat>): seq<Slot> {
    if subs == [] then [] else SlotsAt(position, subs[..|subs| - 1]) + [Slot(position, subs[|subs| - 1])]
  }

  /** Everything that has to be delivered for a log. */
  function Due(c: Config, log: seq<Message>): seq<Slot> {
    if log == [] then [] else
    var last := |log| - 1;
    Due(c, log[..last]) + SlotsAt(last, Matching(c, log[last]))
  }

  function Slots(ds: seq<Delivery>): seq<Slot> {
    if ds == [] then [] else Slots(ds[..|ds| - 1]) + [Slot(ds[|ds| - 1].position, ds[|ds| - 1].subscriber)]
  }

  lemma {:induction false} TimesSlots(position: nat, subs: seq<nat>, k: nat, x: nat)
    ensures Times(SlotsAt(position, subs), Slot(k, x)) == if k == position then Times(subs, x) else 0
  {
    if subs != [] {
      TimesSlots(position, subs[..|subs| - 1], k, x);
      TimesOneMore(SlotsAt(position, subs[..|subs| - 1]), Slot(position, subs[|subs| - 1]), Slot(k, x));
    }
  }

  /** How often a message of the log is delivered to a subscriber: as often as the subscriber lists its topic,
      if it is eligible, and never otherwise. In particular exactly once for a topic listed once. */
  lemma {:induction false} TimesDelivered(c: Config, log: seq<Message>, k: nat, x: nat)
    requires x < |c.subscriptions|
    ensures Times(Due(c, log), Slot(k, x)) ==
              if k < |log| && Eligible(c, x, log[k]) then Times(c.subscriptions[x].topics, log[k].topic) else 0
  {
    if log != [] {
      var last := |log| - 1;
      TimesDelivered(c, log[..last], k, x);
      TimesAppend(Due(c, log[..last]), SlotsAt(last, Matching(c, log[last])), Slot(k, x));
      TimesSlots(last, Matching(c, log[last]), k, x);
      TimesMatching(c, log[last], x);
    }
  }

  /** No subscriber is ever given its own message twice over, or at all, unless that was allowed. */
  lemma {:induction false} NoSelfDelivery(c: Config, log: seq<Message>, k: nat, x: nat)
    requires x < |c.subscriptions| && k < |log| && !c.allowSelf && c.subscriptions[x].agent == log[k].author
    ensures Times(Due(c, log), Slot(k, x)) == 0
  {
    TimesDelivered(c, log, k, x);
  }

  /******* The stream of messages *******/

  function WithinDepth(ms: seq<Message>, maxDepth: int): seq<Message> {
    if ms == [] then [] else
    var last := ms[|ms| - 1];
    WithinDepth(ms[..|ms| - 1], maxDepth) + if last.depth <= maxDepth then [last] else []
  }

  /** What the successful deliveries have put on the bus, in order. */
  function Accepted(ds: seq<Delivery>, maxDepth: int): seq<Message> {
    if ds == [] then [] else
    var last := ds[|ds| - 1];
    Accepted(ds[..|ds| - 1], maxDepth) + if last.published.Some? then WithinDepth(last.published.value, maxDepth) else []
  }

  lemma {:induction false} WithinDepthKeeps(ms: seq<Message>, maxDepth: int)
    ensures forall m | m in WithinDepth(ms, maxDepth) :: m in ms && m.depth <= maxDepth
  {
    if ms != [] {
      WithinDepthKeeps(ms[..|ms| - 1], maxDepth);
    }
  }

  predicate ChildOf(p: Message, m: Message) {
    m.parent == Some(p.id) && m.depth == p.depth + 1
  }

  /** Every message after the seeds answers an earlier one and is one deeper. */
  ghost predicate Forest(seeds: nat, stream: seq<Message>) {
    forall i | seeds <= i < |stream| :: Answers(stream, i)
  }

  ghost predicate Answers(stream: seq<Message>, i: nat)
    requires i < |stream|
  {
    exists j :: 0 <= j < i && ChildOf(stream[j], stream[i])
  }

  /** The chain of messages from a seed to a message: as long as the message is deep. */
  lemma {:induction false} DepthIsChainLength(seeds: nat, stream: seq<Message>, i: nat) returns (chain: seq<nat>)
    requires Forest(seeds, stream) && i < |stream| && forall k | 0 <= k < seeds && k < |stream| :: stream[k].depth == 0
    ensures chain != [] && chain[0] < seeds && chain[|chain| - 1] == i && |chain| == stream[i].depth + 1
    ensures forall k | 0 <= k < |chain| :: chain[k] < |stream|
    ensures forall k | 0 <= k < |chain| - 1 :: chain[k] < chain[k + 1] && ChildOf(stream[chain[k]], stream[chain[k + 1]])
    decreases i
  {
    if i < seeds {
      chain := [i];
    } else {
      assert Answers(stream, i);
      var j :| 0 <= j < i && ChildOf(stream[j], stream[i]);
      var up := DepthIsChainLength(seeds, stream, j);
      chain := up + [i];
    }
  }

  predicate Rising(stream: seq<Message>) {
    forall i, j | 0 <= i < j < |stream| :: stream[i].depth <= stream[j].depth
  }

  predicate Level(seeds: seq<Message>) {
    forall i, j | 0 <= i < |seeds| && 0 <= j < |seeds| :: seeds[i].depth == seeds[j].depth
  }

  /** The stream seen while the message at `k` is next: in order of depth, and at most one deeper than that. */
  predicate BreadthFirst(stream: seq<Message>, k: nat) {
    Rising(stream) && (k < |stream| ==> stream[|stream| - 1].depth <= stream[k].depth + 1)
  }

  /******* The controller *******/

  function Stamp(m: Message, author: string, drafts: seq<Draft>, nextId: nat): (r: seq<Message>)
    ensures |r| == |drafts|
    ensures forall i | 0 <= i < |r| ::
              r[i] == Message(nextId + i, drafts[i].topic, drafts[i].content, author, m.depth + 1, Some(m.id))
  {
    seq(|drafts|, i requires 0 <= i < |drafts| =>
      Message(nextId + i, drafts[i].topic, drafts[i].content, author, m.depth + 1, Some(m.id)))
  }

  predicate DistinctIds(ms: seq<Message>) {
    forall i, j | 0 <= i < j < |ms| :: ms[i].id != ms[j].id
  }

  /** No message has a fresh id yet. */
  predicate Below(ms: seq<Message>, nextId: nat) {
    forall i | 0 <= i < |ms| :: ms[i].id < nextId
  }

  /** New messages with fresh ids, answering `m`. */
  predicate Fresh(news: seq<Message>, m: Message, low: nat, high: nat, maxDepth: int) {
    && (forall i | 0 <= i < |news| :: low <= news[i].id < high && ChildOf(m, news[i]) && news[i].depth <= maxDepth)
    && (forall i, j | 0 <= i < j < |news| :: news[i].id < news[j].id)
  }

  lemma {:induction false} StampedIsFresh(m: Message, author: string, drafts: seq<Draft>, nextId: nat, maxDepth: int)
    ensures Fresh(WithinDepth(Stamp(m, author, drafts, nextId), maxDepth), m, nextId, nextId + |drafts|, maxDepth)
  {
    if drafts != [] {
      var front := drafts[..|drafts| - 1];
      StampedIsFresh(m, author, front, nextId, maxDepth);
      assert Stamp(m, author, drafts, nextId)[..|drafts| - 1] == Stamp(m, author, front, nextId);
    }
  }

  lemma {:induction false} FreshAppend(a: seq<Message>, b: seq<Message>, m: Message, low: nat, mid: nat, high: nat,
                                       maxDepth: int)
    requires Fresh(a, m, low, mid, maxDepth) && Fresh(b, m, mid, high, maxDepth) && low <= mid <= high
    ensures Fresh(a + b, m, low, high, maxDepth)
  {
  }

  datatype BusResult = BusResult(log: seq<Message>, deliveries: seq<Delivery>, ending: Ending)

  predicate Shallow(c: Config, seeds: nat, stream: seq<Message>) {
    forall i | seeds <= i < |stream| :: stream[i].depth <= c.maxDepth
  }

  /** The stream of a run: the seeds, then everything accepted from successful deliveries, in order. */
  function StreamOf(c: Config, seeds: seq<Message>, r: BusResult): seq<Message> {
    seeds + Accepted(r.deliveries, c.maxDepth)
  }

  /** What a run is: the stream processed first in, first out, every message delivered to exactly those it is
      due to, lineage and depth kept. */
  ghost predicate Processed(c: Config, seeds: seq<Message>, r: BusResult) {
    var stream := StreamOf(c, seeds, r);
    && r.log <= stream && (r.ending == Quiescence ==> r.log == stream)
    && Slots(r.deliveries) == Due(c, r.log)
    && Forest(|seeds|, stream) && Shallow(c, |seeds|, stream)
    && (DistinctIds(seeds) ==> DistinctIds(stream))
    && (Level(seeds) ==> Rising(stream))
  }

  /** From the message that reaches the cap on, nothing was delivered. */
  predicate IdleFrom(c: Config, log: seq<Message>, upTo: int)
    requires upTo <= |log|
  {
    forall k | 0 <= k < upTo && c.maxMessages - 1 <= k :: Matching(c, log[k]) == []
  }

  /** What the cap and the other stops amount to: a run stops only at a message that was delivered to somebody,
      and goes on past the cap only through messages that were not. */
  ghost predicate Stopped(c: Config, r: BusResult) {
    && r.log != [] && IdleFrom(c, r.log, |r.log| - 1)
    && (r.ending != Quiescence ==> Matching(c, r.log[|r.log| - 1]) != [])
    && (r.ending != Quiescence ==> (r.ending == MaxMessages <==> |r.log| >= c.maxMessages))
    && (r.ending == Quiescence ==> IdleFrom(c, r.log, |r.log|))
  }

  /** A run that ends by quiescence has processed every message that was put on the bus, and delivered each one
      to every eligible subscriber exactly as often as that subscriber lists its topic. */
  lemma {:induction false} QuiescenceIsComplete(c: Config, seeds: seq<Message>, r: BusResult, k: nat, x: nat)
    requires Processed(c, seeds, r) && r.ending == Quiescence && x < |c.subscriptions| && k < |StreamOf(c, seeds, r)|
    ensures var m := StreamOf(c, seeds, r)[k];
            Times(Slots(r.deliveries), Slot(k, x)) == if Eligible(c, x, m) then Times(c.subscriptions[x].topics, m.topic) else 0
  {
    TimesDelivered(c, r.log, k, x);
  }

  type Table = map<string, seq<nat>>

  function Lookup(table: Table, topic: string): seq<nat> {
    if topic in table then table[topic] else []
  }

  /** One subscription entered under each of its topics. */
  function Entered(table: Table, topics: seq<string>, s: nat): Table {
    if topics == [] then table else
    var so, topic := Entered(table, topics[..|topics| - 1], s), topics[|topics| - 1];
    so[topic := Lookup(so, topic) + [s]]
  }

  function RoutingTable(subs: seq<Subscription>): Table {
    if subs == [] then map[] else Entered(RoutingTable(subs[..|subs| - 1]), subs[|subs| - 1].topics, |subs| - 1)
  }

  lemma {:induction false} EnteredLookup(table: Table, topics: seq<string>, s: nat, topic: string)
    ensures Lookup(Entered(table, topics, s), topic) == Lookup(table, topic) + Copies(s, topics, topic)
  {
    if topics != [] {
      EnteredLookup(table, topics[..|topics| - 1], s, topic);
    }
  }

  /** The routing table lists, for every topic, the subscriptions to it, in order. */
  lemma {:induction false} RoutesToSubscribed(subs: seq<Subscription>, topic: string)
    ensures Lookup(RoutingTable(subs), topic) == Subscribed(subs, topic)
  {
    if subs != [] {
      var last := |subs| - 1;
      RoutesToSubscribed(subs[..last], topic);
      EnteredLookup(RoutingTable(subs[..last]), subs[last].topics, last, topic);
    }
  }

  /******* One message, and a run *******/

  type Agents = (nat, nat, Message) -> Option<seq<Draft>>

  datatype Round = Round(deliveries: seq<Delivery>, news: seq<Message>, nextId: nat)

  /** One subscriber handles a message; if it succeeds, what it published is new on the bus as long as it is
      not too deep. */
  function HandleOne(c: Config, act: Agents, m: Message, position: nat, s: nat, so: Round): Round
    requires s < |c.subscriptions|
  {
    match act(|so.deliveries|, s, m)
    case None => so.(deliveries := so.deliveries + [Delivery(position, s, None)])
    case Some(drafts) =>
      var published := Stamp(m, c.subscriptions[s].agent, drafts, so.nextId);
      Round(so.deliveries + [Delivery(position, s, Some(published))], so.news + WithinDepth(published, c.maxDepth),
            so.nextId + |drafts|)
  }

  /** All of them, in order. */
  function Handle(c: Config, act: Agents, m: Message, position: nat, matching: seq<nat>, before: seq<Delivery>,
                  nextId: nat): (r: Round)
    requires Within(|c.subscriptions|, matching)
    ensures before <= r.deliveries
  {
    if matching == [] then Round(before, [], nextId) else
    HandleOne(c, act, m, position, matching[|matching| - 1],
              Handle(c, act, m, position, matching[..|matching| - 1], before, nextId))
  }

  lemma {:induction false} OneDelivers(c: Config, act: Agents, m: Message, position: nat, s: nat, so: Round)
    requires s < |c.subscriptions|
    ensures var r := HandleOne(c, act, m, position, s, so);
            && Slots(r.deliveries) == Slots(so.deliveries) + [Slot(position, s)]
            && exists more ::
                 r.news == so.news + more
                 && Accepted(r.deliveries, c.maxDepth) == Accepted(so.deliveries, c.maxDepth) + more
  {
    var drafts := act(|so.deliveries|, s, m);
    if drafts.None? {
      OneMoreDelivery(so.deliveries, Delivery(position, s, None), c.maxDepth);
      assert so.news == so.news + [];
    } else {
      var published := Stamp(m, c.subscriptions[s].agent, drafts.value, so.nextId);
      OneMoreDelivery(so.deliveries, Delivery(position, s, Some(published)), c.maxDepth);
    }
  }

  lemma {:induction false} OneIsFresh(c: Config, act: Agents, m: Message, position: nat, s: nat, so: Round, low: nat)
    requires s < |c.subscriptions| && low <= so.nextId && Fresh(so.news, m, low, so.nextId, c.maxDepth)
    ensures var r := HandleOne(c, act, m, position, s, so); low <= r.nextId && Fresh(r.news, m, low, r.nextId, c.maxDepth)
  {
    var drafts := act(|so.deliveries|, s, m);
    if drafts.Some? {
      var agent := c.subscriptions[s].agent;
      var published := Stamp(m, agent, drafts.value, so.nextId);
      StampedIsFresh(m, agent, drafts.value, so.nextId, c.maxDepth);
      FreshAppend(so.news, WithinDepth(published, c.maxDepth), m, low, so.nextId, so.nextId + |drafts.value|,
                  c.maxDepth);
    }
  }

  /** Exactly the matching subscribers are given the message, and what is new is what the successful ones
      published. */
  lemma {:induction false} HandleDelivers(c: Config, act: Agents, m: Message, position: nat, matching: seq<nat>,
                                          before: seq<Delivery>, nextId: nat)
    requires Within(|c.subscriptions|, matching)
    ensures var r := Handle(c, act, m, position, matching, before, nextId);
            && Slots(r.deliveries) == Slots(before) + SlotsAt(position, matching)
            && Accepted(r.deliveries, c.maxDepth) == Accepted(before, c.maxDepth) + r.news
  {
    if matching != [] {
      var front, s := matching[..|matching| - 1], matching[|matching| - 1];
      HandleDelivers(c, act, m, position, front, before, nextId);
      var so := Handle(c, act, m, position, front, before, nextId);
      OneDelivers(c, act, m, position, s, so);
      var r := HandleOne(c, act, m, position, s, so);
      var more :| r.news == so.news + more && Accepted(r.deliveries, c.maxDepth) == Accepted(so.deliveries, c.maxDepth) + more;
      Associate(Slots(before), SlotsAt(position, front), [Slot(position, s)]);
      Associate(Accepted(before, c.maxDepth), so.news, more);
    }
  }

  lemma {:induction false} Associate<T>(a: seq<T>, b: seq<T>, d: seq<T>)
    ensures a + b + d == a + (b + d)
  {
  }

  lemma {:induction false} HandleIsFresh(c: Config, act: Agents, m: Message, position: nat, matching: seq<nat>,
                                         before: seq<Delivery>, nextId: nat)
    requires Within(|c.subscriptions|, matching)
    ensures var r := Handle(c, act, m, position, matching, before, nextId);
            nextId <= r.nextId && Fresh(r.news, m, nextId, r.nextId, c.maxDepth)
  {
    if matching != [] {
      var front := matching[..|matching| - 1];
      HandleIsFresh(c, act, m, position, front, before, nextId);
      OneIsFresh(c, act, m, position, matching[|matching| - 1], Handle(c, act, m, position, front, before, nextId),
                 nextId);
    }
  }

  lemma {:induction false} OneMoreDelivery(ds: seq<Delivery>, d: Delivery, maxDepth: int)
    ensures Slots(ds + [d]) == Slots(ds) + [Slot(d.position, d.subscriber)]
    ensures Accepted(ds + [d], maxDepth) ==
              Accepted(ds, maxDepth) + if d.published.Some? then WithinDepth(d.published.value, maxDepth) else []
  {
    assert (ds + [d])[..|ds|] == ds;
  }

  /** `k` messages of the stream have been processed. */
  datatype State = State(stream: seq<Message>, k: nat, deliveries: seq<Delivery>, nextId: nat)

  function Step(c: Config, act: Agents, s: State): State
    requires s.k < |s.stream|
  {
    var r := Handle(c, act, s.stream[s.k], s.k, Matching(c, s.stream[s.k]), s.deliveries, s.nextId);
    State(s.stream + r.news, s.k + 1, r.deliveries, r.nextId)
  }

  /** The state after `n` messages. */
  function After(c: Config, act: Agents, seeds: seq<Message>, firstId: nat, n: nat): State {
    if n == 0 then State(seeds, 0, [], firstId) else Next(c, act, After(c, act, seeds, firstId, n - 1))
  }

  /** One more message, if there is any. */
  function Next(c: Config, act: Agents, s: State): State {
    if s.k < |s.stream| then Step(c, act, s) else s
  }

  ghost predicate Delivered(c: Config, seeds: seq<Message>, s: State) {
    && s.k <= |s.stream| && s.stream == seeds + Accepted(s.deliveries, c.maxDepth)
    && Slots(s.deliveries) == Due(c, s.stream[..s.k])
  }

  ghost predicate Descends(c: Config, seeds: seq<Message>, s: State) {
    && Forest(|seeds|, s.stream) && Shallow(c, |seeds|, s.stream)
    && Below(s.stream, s.nextId) && (DistinctIds(seeds) ==> DistinctIds(s.stream))
  }

  ghost predicate InLevels(seeds: seq<Message>, s: State) {
    Level(seeds) ==> BreadthFirst(s.stream, s.k)
  }

  lemma {:induction false} StepDelivers(c: Config, act: Agents, seeds: seq<Message>, s: State)
    requires Delivered(c, seeds, s) && s.k < |s.stream|
    ensures Delivered(c, seeds, Step(c, act, s))
  {
    HandleDelivers(c, act, s.stream[s.k], s.k, Matching(c, s.stream[s.k]), s.deliveries, s.nextId);
    var r := Handle(c, act, s.stream[s.k], s.k, Matching(c, s.stream[s.k]), s.deliveries, s.nextId);
    Associate(seeds, Accepted(s.deliveries, c.maxDepth), r.news);
    assert (s.stream + r.news)[..s.k + 1] == s.stream[..s.k + 1];
    DueStep(c, s.stream, s.k);
  }

  lemma {:induction false} DueStep(c: Config, stream: seq<Message>, k: nat)
    requires k < |stream|
    ensures Due(c, stream[..k + 1]) == Due(c, stream[..k]) + SlotsAt(k, Matching(c, stream[k]))
  {
    assert stream[..k + 1][..k] == stream[..k];
  }

  lemma {:induction false} StepDescends(c: Config, act: Agents, seeds: seq<Message>, s: State)
    requires Descends(c, seeds, s) && s.k < |s.stream|
    ensures Descends(c, seeds, Step(c, act, s))
  {
    var r := Handle(c, act, s.stream[s.k], s.k, Matching(c, s.stream[s.k]), s.deliveries, s.nextId);
    HandleIsFresh(c, act, s.stream[s.k], s.k, Matching(c, s.stream[s.k]), s.deliveries, s.nextId);
    StreamGrows(c, |seeds|, s.stream, s.k, r.news, s.nextId, r.nextId);
  }

  lemma {:induction false} StepStaysInLevels(c: Config, act: Agents, seeds: seq<Message>, s: State)
    requires InLevels(seeds, s) && s.k < |s.stream|
    ensures InLevels(seeds, Step(c, act, s))
  {
    var r := Handle(c, act, s.stream[s.k], s.k, Matching(c, s.stream[s.k]), s.deliveries, s.nextId);
    HandleIsFresh(c, act, s.stream[s.k], s.k, Matching(c, s.stream[s.k]), s.deliveries, s.nextId);
    if Level(seeds) {
      LevelsGrow(s.stream, s.k, r.news, s.nextId, r.nextId, c.maxDepth);
    }
  }

  lemma {:induction false} LevelsGrow(stream: seq<Message>, k: nat, news: seq<Message>, low: nat, high: nat,
                                      maxDepth: int)
    requires BreadthFirst(stream, k) && k < |stream| && Fresh(news, stream[k], low, high, maxDepth)
    ensures BreadthFirst(stream + news, k + 1)
  {
    var all := stream + news;
    assert Rising(all);
    assert k + 1 < |all| ==> all[k].depth <= all[k + 1].depth;
  }

  lemma {:induction false} StreamGrows(c: Config, seeds: nat, stream: seq<Message>, k: nat, news: seq<Message>,
                                       low: nat, high: nat)
    requires Forest(seeds, stream) && Shallow(c, seeds, stream) && Below(stream, low)
    requires k < |stream| && Fresh(news, stream[k], low, high, c.maxDepth) && low <= high
    ensures Forest(seeds, stream + news) && Shallow(c, seeds, stream + news)
    ensures Below(stream + news, high) && (DistinctIds(stream) ==> DistinctIds(stream + news))
  {
    var all := stream + news;
    forall i | seeds <= i < |all| ensures Answers(all, i) {
      if i < |stream| {
        assert Answers(stream, i);
        var j :| 0 <= j < i && ChildOf(stream[j], stream[i]);
        assert ChildOf(all[j], all[i]);
      } else {
        assert ChildOf(all[k], all[i]);
      }
    }
  }

  /** Every run, whatever the agents do: everything due is delivered, lineage is a forest of bounded depth, and
      seeds of one depth are answered breadth first. */
  lemma {:induction false} EveryRun(c: Config, act: Agents, seeds: seq<Message>, firstId: nat, n: nat)
    requires Below(seeds, firstId)
    ensures var s := After(c, act, seeds, firstId, n);
            Delivered(c, seeds, s) && Descends(c, seeds, s) && InLevels(seeds, s)
  {
    if n > 0 {
      EveryRun(c, act, seeds, firstId, n - 1);
      var s := After(c, act, seeds, firstId, n - 1);
      if s.k < |s.stream| {
        StepDelivers(c, act, seeds, s);
        StepDescends(c, act, seeds, s);
        StepStaysInLevels(c, act, seeds, s);
      }
    }
  }

  /** A result taken from the state after some number of messages. */
  lemma {:induction false} RunEnds(c: Config, act: Agents, seeds: seq<Message>, firstId: nat, n: nat, ending: Ending)
    requires Below(seeds, firstId)
    requires var s := After(c, act, seeds, firstId, n); s.k <= |s.stream| && (ending == Quiescence ==> s.k == |s.stream|)
    ensures var s := After(c, act, seeds, firstId, n); Processed(c, seeds, BusResult(s.stream[..s.k], s.deliveries, ending))
  {
    EveryRun(c, act, seeds, firstId, n);
  }

  /** A result a run can end with: what the agents make of the seeds, up to a message at which the run may stop. */
  ghost predicate Outcome(c: Config, act: Agents, seeds: seq<Message>, firstId: nat, r: BusResult) {
    && Stopped(c, r)
    && var s := After(c, act, seeds, firstId, |r.log|);
       s.k == |r.log| <= |s.stream| && r.log == s.stream[..s.k] && r.deliveries == s.deliveries
       && (r.ending == Quiescence ==> s.k == |s.stream|)
  }

  /******* Who got what, and what came of it *******/

  /** The message at position `k` reached subscriber `x` once for every time it lists the topic, unless the subscriber's
      filter turns the message away, or the message is its own and that is not allowed. */
  ghost predicate Reached(c: Config, log: seq<Message>, ds: seq<Delivery>, k: nat, x: nat)
    requires k < |log| && x < |c.subscriptions|
  {
    var sub, m := c.subscriptions[x], log[k];
    Times(Slots(ds), Slot(k, x)) ==
      if sub.filter.Some? && !sub.filter.value(m) then 0
      else if sub.agent == m.author && !c.allowSelf then 0
      else Times(sub.topics, m.topic)
  }

  /** What subscriber `d.subscriber` did with its message: it failed and published nothing, or published what it drafted,
      in its own name and in answer to the message. */
  ghost predicate Acted(c: Config, act: Agents, log: seq<Message>, ds: seq<Delivery>, i: nat)
    requires i < |ds|
  {
    var d := ds[i];
    && d.position < |log| && d.subscriber < |c.subscriptions|
    && match act(i, d.subscriber, log[d.position])
       case None => d.published.None?
       case Some(drafts) =>
         && d.published.Some? && |d.published.value| == |drafts|
         && forall j | 0 <= j < |drafts| ::
              Answered(d.published.value[j], drafts[j], c.subscriptions[d.subscriber].agent, log[d.position])
  }

  predicate Answered(m: Message, draft: Draft, author: string, to: Message) {
    && m.topic == draft.topic && m.content == draft.content && m.author == author
    && m.parent == Some(to.id) && m.depth == to.depth + 1
  }

  /** A message was published by a delivery and is not too deep. */
  ghost predicate Published(ds: seq<Delivery>, maxDepth: int, m: Message) {
    m.depth <= maxDepth && exists i :: 0 <= i < |ds| && ds[i].published.Some? && m in ds[i].published.value
  }

  lemma {:induction false} WithinDepthExactly(ms: seq<Message>, maxDepth: int, m: Message)
    ensures m in WithinDepth(ms, maxDepth) <==> m in ms && m.depth <= maxDepth
  {
    if ms != [] {
      var last := |ms| - 1;
      WithinDepthExactly(ms[..last], maxDepth, m);
      assert m in ms <==> m in ms[..last] || m == ms[last];
    }
  }

  lemma {:induction false} AcceptedExactly(ds: seq<Delivery>, maxDepth: int, m: Message)
    ensures m in Accepted(ds, maxDepth) <==> Published(ds, maxDepth, m)
  {
    if ds != [] {
      var last := |ds| - 1;
      AcceptedExactly(ds[..last], maxDepth, m);
      if ds[last].published.Some? {
        WithinDepthExactly(ds[last].published.value, maxDepth, m);
      }
      if Published(ds[..last], maxDepth, m) {
        var i :| 0 <= i < last && ds[..last][i].published.Some? && m in ds[..last][i].published.value;
        assert ds[i].published.Some? && m in ds[i].published.value;
      }
      if Published(ds, maxDepth, m) {
        var i :| 0 <= i < |ds| && ds[i].published.Some? && m in ds[i].published.value;
        assert i < last ==> ds[..last][i] == ds[i];
      }
    }
  }

  /** All of that for a run: who was reached, what each delivery published, and that the stream consists of the seeds and
      what was published within the depth limit, numbered in the order in which it was put on the bus. */
  ghost predicate Accounted(c: Config, act: Agents, seeds: seq<Message>, log: seq<Message>, stream: seq<Message>,
                            ds: seq<Delivery>)
  {
    && (forall k, x | 0 <= k < |log| && 0 <= x < |c.subscriptions| :: Reached(c, log, ds, k, x))
    && (forall i | 0 <= i < |ds| :: Acted(c, act, log, ds, i))
    && (forall m :: m in stream <==> m in seeds || Published(ds, c.maxDepth, m))
    && seeds <= stream && (forall i, j | |seeds| <= i < j < |stream| :: stream[i].id < stream[j].id)
  }

  ghost predicate ActedAll(c: Config, act: Agents, log: seq<Message>, ds: seq<Delivery>) {
    forall i {:trigger Acted(c, act, log, ds, i)} | 0 <= i < |ds| :: Acted(c, act, log, ds, i)
  }

  lemma {:induction false} OneActs(c: Config, act: Agents, log: seq<Message>, position: nat, s: nat, so: Round)
    requires s < |c.subscriptions| && position < |log| && ActedAll(c, act, log, so.deliveries)
    ensures ActedAll(c, act, log, HandleOne(c, act, log[position], position, s, so).deliveries)
  {
    var ds := HandleOne(c, act, log[position], position, s, so).deliveries;
    forall i | 0 <= i < |ds| ensures Acted(c, act, log, ds, i) {
      if i < |ds| - 1 {
        assert Acted(c, act, log, so.deliveries, i);
      }
    }
  }

  lemma {:induction false} HandleActs(c: Config, act: Agents, log: seq<Message>, position: nat, matching: seq<nat>,
                                      before: seq<Delivery>, nextId: nat)
    requires Within(|c.subscriptions|, matching) && position < |log| && ActedAll(c, act, log, before)
    ensures ActedAll(c, act, log, Handle(c, act, log[position], position, matching, before, nextId).deliveries)
  {
    if matching != [] {
      var front := matching[..|matching| - 1];
      HandleActs(c, act, log, position, front, before, nextId);
      OneActs(c, act, log, position, matching[|matching| - 1],
              Handle(c, act, log[position], position, front, before, nextId));
    }
  }

  lemma {:induction false} ActedLonger(c: Config, act: Agents, log: seq<Message>, longer: seq<Message>,
                                       ds: seq<Delivery>)
    requires ActedAll(c, act, log, ds) && log <= longer
    ensures ActedAll(c, act, longer, ds)
  {
    forall i | 0 <= i < |ds| ensures Acted(c, act, longer, ds, i) {
      assert Acted(c, act, log, ds, i);
      assert longer[ds[i].position] == log[ds[i].position];
    }
  }

  predicate IdsRise(stream: seq<Message>, from: nat, low: nat) {
    && (forall i, j | from <= i < j < |stream| :: stream[i].id < stream[j].id)
    && forall i | from <= i < |stream| :: stream[i].id < low
  }

  ghost predicate Acting(c: Config, act: Agents, seeds: nat, s: State) {
    && s.k <= |s.stream| && seeds <= |s.stream|
    && ActedAll(c, act, s.stream[..s.k], s.deliveries) && IdsRise(s.stream, seeds, s.nextId)
  }

  lemma {:induction false} IdsRiseOn(stream: seq<Message>, from: nat, m: Message, news: seq<Message>, low: nat,
                                     high: nat, maxDepth: int)
    requires from <= |stream| && IdsRise(stream, from, low) && Fresh(news, m, low, high, maxDepth) && low <= high
    ensures IdsRise(stream + news, from, high)
  {
  }

  lemma {:induction false} StepIdsRise(c: Config, act: Agents, seeds: nat, s: State)
    requires seeds <= |s.stream| && IdsRise(s.stream, seeds, s.nextId) && s.k < |s.stream|
    ensures IdsRise(Step(c, act, s).stream, seeds, Step(c, act, s).nextId)
  {
    var m, matching := s.stream[s.k], Matching(c, s.stream[s.k]);
    HandleIsFresh(c, act, m, s.k, matching, s.deliveries, s.nextId);
    var r := Handle(c, act, m, s.k, matching, s.deliveries, s.nextId);
    IdsRiseOn(s.stream, seeds, m, r.news, s.nextId, r.nextId, c.maxDepth);
  }

  lemma {:induction false} StepActs(c: Config, act: Agents, seeds: nat, s: State)
    requires Acting(c, act, seeds, s) && s.k < |s.stream|
    ensures Acting(c, act, seeds, Step(c, act, s))
  {
    StepIdsRise(c, act, seeds, s);
    var log := s.stream[..s.k + 1];
    ActedLonger(c, act, s.stream[..s.k], log, s.deliveries);
    HandleActs(c, act, log, s.k, Matching(c, s.stream[s.k]), s.deliveries, s.nextId);
    assert Step(c, act, s).stream[..s.k + 1] == log;
  }

  lemma {:induction false} RunActs(c: Config, act: Agents, seeds: seq<Message>, firstId: nat, n: nat)
    ensures Acting(c, act, |seeds|, After(c, act, seeds, firstId, n))
  {
    if n > 0 {
      RunActs(c, act, seeds, firstId, n - 1);
      var s := After(c, act, seeds, firstId, n - 1);
      if s.k < |s.stream| {
        StepActs(c, act, |seeds|, s);
      }
    }
  }

  lemma {:induction false} ReachedAll(c: Config, log: seq<Message>, ds: seq<Delivery>)
    requires Slots(ds) == Due(c, log)
    ensures forall k, x | 0 <= k < |log| && 0 <= x < |c.subscriptions| :: Reached(c, log, ds, k, x)
  {
    forall k, x | 0 <= k < |log| && 0 <= x < |c.subscriptions| ensures Reached(c, log, ds, k, x) {
      TimesDelivered(c, log, k, x);
    }
  }

  lemma {:induction false} RunIsAccounted(c: Config, act: Agents, seeds: seq<Message>, firstId: nat, n: nat)
    requires Below(seeds, firstId)
    ensures var s := After(c, act, seeds, firstId, n);
            s.k <= |s.stream| && Accounted(c, act, seeds, s.stream[..s.k], s.stream, s.deliveries)
  {
    var s := After(c, act, seeds, firstId, n);
    EveryRun(c, act, seeds, firstId, n);
    RunActs(c, act, seeds, firstId, n);
    ReachedAll(c, s.stream[..s.k], s.deliveries);
    forall m ensures m in s.stream <==> m in seeds || Published(s.deliveries, c.maxDepth, m) {
      AcceptedExactly(s.deliveries, c.maxDepth, m);
    }
  }

  /** After the message at `k` the run was not asked to stop: nobody had cancelled it, and the termination condition did
      not hold of what had been delivered by then. */
  ghost predicate WentOn(c: Config, log: seq<Message>, ds: seq<Delivery>, cancelled: nat -> bool,
                         terminate: (seq<Message>, seq<Delivery>) -> bool, k: nat)
    requires k < |log|
  {
    Matching(c, log[k]) != [] ==>
      && k + 1 < c.maxMessages && !cancelled(k + 1)
      && exists n: nat :: n <= |ds| && Slots(ds[..n]) == Due(c, log[..k + 1]) && !terminate(log[..k + 1], ds[..n])
  }

  /** A run goes on until it is asked to stop, and the reason it gives is why it stopped. */
  ghost predicate EndsFor(c: Config, r: BusResult, cancelled: nat -> bool,
                          terminate: (seq<Message>, seq<Delivery>) -> bool) {
    && EarlierWentOn(c, r.log, r.deliveries, cancelled, terminate)
    && (r.ending == Quiescence ==> AllWentOn(c, r.log, r.deliveries, cancelled, terminate))
    && (r.ending == MaxMessages ==> |r.log| >= c.maxMessages)
    && (r.ending == Cancelled ==> |r.log| < c.maxMessages && cancelled(|r.log|))
    && (r.ending == Terminated ==>
          |r.log| < c.maxMessages && !cancelled(|r.log|) && terminate(r.log, r.deliveries))
  }

  ghost predicate AllWentOn(c: Config, log: seq<Message>, ds: seq<Delivery>, cancelled: nat -> bool,
                            terminate: (seq<Message>, seq<Delivery>) -> bool) {
    forall k {:trigger WentOn(c, log, ds, cancelled, terminate, k)} | 0 <= k < |log| ::
      WentOn(c, log, ds, cancelled, terminate, k)
  }

  lemma {:induction false} WentOnLonger(c: Config, log: seq<Message>, m: Message, ds: seq<Delivery>,
                                        more: seq<Delivery>,
                     cancelled: nat -> bool, terminate: (seq<Message>, seq<Delivery>) -> bool, k: nat)
    requires k < |log| && ds <= more && WentOn(c, log, ds, cancelled, terminate, k)
    ensures WentOn(c, log + [m], more, cancelled, terminate, k)
  {
    if Matching(c, log[k]) != [] {
      var n: nat :| n <= |ds| && Slots(ds[..n]) == Due(c, log[..k + 1]) && !terminate(log[..k + 1], ds[..n]);
      assert more[..n] == ds[..n] && (log + [m])[..k + 1] == log[..k + 1];
    }
  }

  lemma {:induction false} WentOnNow(c: Config, log: seq<Message>, m: Message, ds: seq<Delivery>,
                                     cancelled: nat -> bool,
                  terminate: (seq<Message>, seq<Delivery>) -> bool)
    requires Slots(ds) == Due(c, log + [m])
    requires Matching(c, m) != [] ==>
               |log| + 1 < c.maxMessages && !cancelled(|log| + 1) && !terminate(log + [m], ds)
    ensures WentOn(c, log + [m], ds, cancelled, terminate, |log|)
  {
    assert (log + [m])[..|log| + 1] == log + [m] && ds[..|ds|] == ds;
  }

  /** All messages of the log but perhaps the last. */
  ghost predicate EarlierWentOn(c: Config, log: seq<Message>, ds: seq<Delivery>, cancelled: nat -> bool,
                                terminate: (seq<Message>, seq<Delivery>) -> bool) {
    forall k {:trigger WentOn(c, log, ds, cancelled, terminate, k)} | 0 <= k < |log| - 1 ::
      WentOn(c, log, ds, cancelled, terminate, k)
  }

  lemma {:induction false} AllWentOnLonger(c: Config, log: seq<Message>, m: Message, ds: seq<Delivery>,
                                           more: seq<Delivery>,
                        cancelled: nat -> bool, terminate: (seq<Message>, seq<Delivery>) -> bool)
    requires AllWentOn(c, log, ds, cancelled, terminate) && ds <= more
    ensures EarlierWentOn(c, log + [m], more, cancelled, terminate)
  {
    forall k | 0 <= k < |log| ensures WentOn(c, log + [m], more, cancelled, terminate, k) {
      assert WentOn(c, log, ds, cancelled, terminate, k);
      WentOnLonger(c, log, m, ds, more, cancelled, terminate, k);
    }
  }

  lemma {:induction false} AllWentOnNow(c: Config, log: seq<Message>, m: Message, ds: seq<Delivery>,
                                        cancelled: nat -> bool,
                     terminate: (seq<Message>, seq<Delivery>) -> bool)
    requires EarlierWentOn(c, log + [m], ds, cancelled, terminate) && Slots(ds) == Due(c, log + [m])
    requires Matching(c, m) != [] ==>
               |log| + 1 < c.maxMessages && !cancelled(|log| + 1) && !terminate(log + [m], ds)
    ensures AllWentOn(c, log + [m], ds, cancelled, terminate)
  {
    WentOnNow(c, log, m, ds, cancelled, terminate);
  }

  lemma {:induction false} QuietEnd(c: Config, log: seq<Message>, ds: seq<Delivery>, cancelled: nat -> bool,
                 terminate: (seq<Message>, seq<Delivery>) -> bool)
    requires AllWentOn(c, log, ds, cancelled, terminate)
    ensures EndsFor(c, BusResult(log, ds, Quiescence), cancelled, terminate)
  {
  }

  lemma {:induction false} StoppedEnd(c: Config, log: seq<Message>, ds: seq<Delivery>, ending: Ending,
                                      cancelled: nat -> bool,
                   terminate: (seq<Message>, seq<Delivery>) -> bool)
    requires EarlierWentOn(c, log, ds, cancelled, terminate) && ending != Quiescence
    requires ending == MaxMessages ==> |log| >= c.maxMessages
    requires ending == Cancelled ==> |log| < c.maxMessages && cancelled(|log|)
    requires ending == Terminated ==> |log| < c.maxMessages && !cancelled(|log|) && terminate(log, ds)
    ensures EndsFor(c, BusResult(log, ds, ending), cancelled, terminate)
  {
  }

  /** Taking a message off the queue and putting new ones on. */
  lemma {:induction false} QueueMoves(c: Config, act: Agents, seeds: seq<Message>, firstId: nat, log: seq<Message>,
                                      queue: seq<Message>,
                   ds: seq<Delivery>, nextId: nat, r: Round)
    requires queue != [] && State(log + queue, |log|, ds, nextId) == After(c, act, seeds, firstId, |log|)
    requires r == Handle(c, act, queue[0], |log|, Matching(c, queue[0]), ds, nextId)
    ensures State(log + [queue[0]] + (queue[1..] + r.news), |log| + 1, r.deliveries, r.nextId) ==
              After(c, act, seeds, firstId, |log| + 1)
  {
    assert (log + queue)[|log|] == queue[0];
    assert queue == [queue[0]] + queue[1..];
    Associate(log, [queue[0]], queue[1..]);
    Associate(log + [queue[0]], queue[1..], r.news);
  }

  lemma {:induction false} IdleStep(c: Config, log: seq<Message>, m: Message)
    requires IdleFrom(c, log, |log|) && (Matching(c, m) == [] || |log| + 1 < c.maxMessages)
    ensures IdleFrom(c, log + [m], |log| + 1)
  {
  }

  lemma {:induction false} StopsHere(c: Config, log: seq<Message>, m: Message, ds: seq<Delivery>, e: Ending)
    requires IdleFrom(c, log, |log|) && Matching(c, m) != []
    requires e != Quiescence && (e == MaxMessages <==> |log| + 1 >= c.maxMessages)
    ensures Stopped(c, BusResult(log + [m], ds, e))
  {
  }

  /******* Exactly when the message cap holds *******/

  /** A message that is delivered to somebody whose answers are not too deep. */
  predicate Fertile(c: Config, m: Message) {
    Matching(c, m) != [] && m.depth + 1 <= c.maxDepth
  }

  /** The cap is looked at only after a message that was delivered: some run takes the log beyond it if the message
      that reaches it can be one that goes to nobody, with another message waiting. */
  predicate CapCanBePassed(c: Config, seeds: seq<Message>) {
    if c.maxMessages < 1 then true
    else if |seeds| > c.maxMessages then Matching(c, seeds[c.maxMessages - 1]) == []
    else
      && (|seeds| == c.maxMessages ==> Matching(c, seeds[c.maxMessages - 1]) == [])
      && exists i :: 0 <= i < |seeds| && Fertile(c, seeds[i])
  }

  lemma {:induction false} NoneWithinDepth(ms: seq<Message>, maxDepth: int)
    requires forall i | 0 <= i < |ms| :: ms[i].depth > maxDepth
    ensures WithinDepth(ms, maxDepth) == []
  {
    if ms != [] {
      NoneWithinDepth(ms[..|ms| - 1], maxDepth);
    }
  }

  /** Nothing new comes of a message that is not fertile. */
  lemma {:induction false} BarrenHandling(c: Config, act: Agents, m: Message, position: nat, matching: seq<nat>,
                                          before: seq<Delivery>, nextId: nat)
    requires Within(|c.subscriptions|, matching) && (matching == [] || m.depth + 1 > c.maxDepth)
    ensures Handle(c, act, m, position, matching, before, nextId).news == []
  {
    if matching != [] {
      var front, s := matching[..|matching| - 1], matching[|matching| - 1];
      BarrenHandling(c, act, m, position, front, before, nextId);
      var so := Handle(c, act, m, position, front, before, nextId);
      var drafts := act(|so.deliveries|, s, m);
      if drafts.Some? {
        var published := Stamp(m, c.subscriptions[s].agent, drafts.value, so.nextId);
        NoneWithinDepth(published, c.maxDepth);
      }
    }
  }

  /** When no seed is fertile nothing but the seeds is ever on the bus. */
  lemma {:induction false} OnlySeeds(c: Config, act: Agents, seeds: seq<Message>, firstId: nat, n: nat)
    requires forall i | 0 <= i < |seeds| :: !Fertile(c, seeds[i])
    ensures After(c, act, seeds, firstId, n).stream == seeds
  {
    if n > 0 {
      OnlySeeds(c, act, seeds, firstId, n - 1);
      var s := After(c, act, seeds, firstId, n - 1);
      if s.k < |s.stream| {
        BarrenHandling(c, act, s.stream[s.k], s.k, Matching(c, s.stream[s.k]), s.deliveries, s.nextId);
      }
    }
  }

  lemma {:induction false} SeedsComeFirst(c: Config, act: Agents, seeds: seq<Message>, firstId: nat, n: nat)
    ensures var s := After(c, act, seeds, firstId, n); |seeds| <= |s.stream| && s.stream[..|seeds|] == seeds
  {
    if n > 0 {
      SeedsComeFirst(c, act, seeds, firstId, n - 1);
    }
  }

  /** A run that passes the cap shows that it can be passed. */
  lemma {:induction false} PassedCanBe(c: Config, act: Agents, seeds: seq<Message>, firstId: nat, r: BusResult)
    requires Outcome(c, act, seeds, firstId, r) && |r.log| > c.maxMessages
    ensures CapCanBePassed(c, seeds)
  {
    var s, max := After(c, act, seeds, firstId, |r.log|), c.maxMessages;
    SeedsComeFirst(c, act, seeds, firstId, |r.log|);
    if max >= 1 {
      assert Matching(c, r.log[max - 1]) == [];
      if |seeds| >= max {
        assert r.log[max - 1] == s.stream[..|seeds|][max - 1];
      }
      if |seeds| <= max && forall i | 0 <= i < |seeds| :: !Fertile(c, seeds[i]) {
        OnlySeeds(c, act, seeds, firstId, |r.log|);
      }
    }
  }

  /** Every subscriber answers every message with `count` messages on one topic. */
  function Shouting(topic: string, count: nat): Agents {
    (i: nat, s: nat, m: Message) => Some(seq(count, _ => Draft(topic, "")))
  }

  /** Nobody subscribes to the topic. */
  predicate Unheard(subs: seq<Subscription>, topic: string) {
    forall s | 0 <= s < |subs| :: topic !in subs[s].topics
  }

  lemma {:induction false} UnheardHasNoCopies(s: nat, topics: seq<string>, topic: string)
    requires topic !in topics
    ensures Copies(s, topics, topic) == []
  {
    if topics != [] {
      assert topics[|topics| - 1] in topics;
      UnheardHasNoCopies(s, topics[..|topics| - 1], topic);
    }
  }

  lemma {:induction false} UnheardIsUnsubscribed(subs: seq<Subscription>, topic: string)
    requires Unheard(subs, topic)
    ensures Subscribed(subs, topic) == []
  {
    if subs != [] {
      UnheardIsUnsubscribed(subs[..|subs| - 1], topic);
      UnheardHasNoCopies(|subs| - 1, subs[|subs| - 1].topics, topic);
    }
  }

  lemma {:induction false} LongerThanTopics(topics: seq<string>) returns (n: nat)
    ensures forall t | t in topics :: |t| < n
  {
    n := 0;
    if topics != [] {
      var last := topics[|topics| - 1];
      n := LongerThanTopics(topics[..|topics| - 1]);
      n := if n > |last| then n else |last| + 1;
      assert topics == topics[..|topics| - 1] + [last];
    }
  }

  lemma {:induction false} LongerThanAll(subs: seq<Subscription>) returns (n: nat)
    ensures forall s | 0 <= s < |subs| :: forall t | t in subs[s].topics :: |t| < n
  {
    n := 0;
    if subs != [] {
      var rest := LongerThanAll(subs[..|subs| - 1]);
      var last := LongerThanTopics(subs[|subs| - 1].topics);
      n := if rest > last then rest else last;
      forall s | 0 <= s < |subs| ensures forall t | t in subs[s].topics :: |t| < n {
        if s < |subs| - 1 {
          assert subs[s] == subs[..|subs| - 1][s];
        }
      }
    }
  }

  /** There is always a topic nobody subscribes to. */
  lemma {:induction false} UnheardTopic(subs: seq<Subscription>) returns (topic: string)
    ensures Unheard(subs, topic)
  {
    var n := LongerThanAll(subs);
    topic := seq(n, _ => 'x');
  }

  lemma {:induction false} AllWithinDepth(ms: seq<Message>, maxDepth: int)
    requires forall i | 0 <= i < |ms| :: ms[i].depth <= maxDepth
    ensures WithinDepth(ms, maxDepth) == ms
  {
    if ms != [] {
      AllWithinDepth(ms[..|ms| - 1], maxDepth);
    }
  }

  predicate OnTopic(ms: seq<Message>, topic: string) {
    forall i | 0 <= i < |ms| :: ms[i].topic == topic
  }

  /** One shouting subscriber puts shouts on the bus, all of them unless they are too deep. */
  lemma {:induction false} OneShouts(c: Config, topic: string, count: nat, m: Message, position: nat, s: nat, so: Round)
    requires s < |c.subscriptions| && OnTopic(so.news, topic)
    ensures var news := HandleOne(c, Shouting(topic, count), m, position, s, so).news;
            OnTopic(news, topic) && (m.depth + 1 <= c.maxDepth ==> |news| >= |so.news| + count)
  {
    var published := Stamp(m, c.subscriptions[s].agent, seq(count, _ => Draft(topic, "")), so.nextId);
    var kept := WithinDepth(published, c.maxDepth);
    WithinDepthKeeps(published, c.maxDepth);
    forall i | 0 <= i < |kept| ensures kept[i].topic == topic {
      assert kept[i] in kept;
    }
    if m.depth + 1 <= c.maxDepth {
      AllWithinDepth(published, c.maxDepth);
    }
  }

  /** A fertile message is answered with shouts on the topic, at least `count` of them. */
  lemma {:induction false} ShoutedHandling(c: Config, topic: string, count: nat, m: Message, position: nat,
                                           matching: seq<nat>, before: seq<Delivery>, nextId: nat)
    requires Within(|c.subscriptions|, matching)
    ensures var news := Handle(c, Shouting(topic, count), m, position, matching, before, nextId).news;
            OnTopic(news, topic) && (matching != [] && m.depth + 1 <= c.maxDepth ==> |news| >= count)
  {
    if matching != [] {
      var front := matching[..|matching| - 1];
      ShoutedHandling(c, topic, count, m, position, front, before, nextId);
      OneShouts(c, topic, count, m, position, matching[|matching| - 1],
                Handle(c, Shouting(topic, count), m, position, front, before, nextId));
    }
  }

  /** The stream of a run with shouting subscribers: the seeds, then only shouts; nothing comes of the shouts. */
  ghost predicate Shouted(c: Config, seeds: seq<Message>, topic: string, count: nat, n: nat, s: State) {
    && |seeds| <= |s.stream| && s.stream[..|seeds|] == seeds && OnTopic(s.stream[|seeds|..], topic)
    && s.k == (if n <= |s.stream| then n else |s.stream|)
    && ((exists i :: 0 <= i < |seeds| && i < n && Fertile(c, seeds[i])) ==> |s.stream| >= |seeds| + count)
  }

  lemma {:induction false} ShoutingRun(c: Config, seeds: seq<Message>, firstId: nat, topic: string, count: nat, n: nat)
    requires Unheard(c.subscriptions, topic)
    ensures Shouted(c, seeds, topic, count, n, After(c, Shouting(topic, count), seeds, firstId, n))
  {
    if n > 0 {
      ShoutingRun(c, seeds, firstId, topic, count, n - 1);
      ShoutedNext(c, seeds, topic, count, n - 1, After(c, Shouting(topic, count), seeds, firstId, n - 1));
    }
  }

  lemma {:induction false} ShoutedNext(c: Config, seeds: seq<Message>, topic: string, count: nat, n: nat, s: State)
    requires Unheard(c.subscriptions, topic) && Shouted(c, seeds, topic, count, n, s)
    ensures var t := Next(c, Shouting(topic, count), s);
            Shouted(c, seeds, topic, count, n + 1, t) && (n >= |seeds| ==> t.stream == s.stream)
  {
    if s.k < |s.stream| {
      ShoutingStep(c, seeds, topic, count, n, s);
    }
  }

  lemma {:induction false} ShoutingStep(c: Config, seeds: seq<Message>, topic: string, count: nat, n: nat, s: State)
    requires Unheard(c.subscriptions, topic) && Shouted(c, seeds, topic, count, n, s) && s.k < |s.stream|
    ensures var t := Step(c, Shouting(topic, count), s);
            Shouted(c, seeds, topic, count, n + 1, t) && (n >= |seeds| ==> t.stream == s.stream)
  {
    var m := s.stream[s.k];
    var news := Handle(c, Shouting(topic, count), m, s.k, Matching(c, m), s.deliveries, s.nextId).news;
    ShoutedHandling(c, topic, count, m, s.k, Matching(c, m), s.deliveries, s.nextId);
    if s.k >= |seeds| {
      ShoutsGoUnheard(c, seeds, topic, count, n, s, s.k);
      assert s.stream + [] == s.stream;
    } else {
      assert m == s.stream[..|seeds|][s.k];
      ShoutedGrows(seeds, s.stream, news, topic);
    }
  }

  lemma {:induction false} ShoutedGrows(seeds: seq<Message>, stream: seq<Message>, news: seq<Message>, topic: string)
    requires |seeds| <= |stream| && stream[..|seeds|] == seeds && OnTopic(stream[|seeds|..], topic)
             && OnTopic(news, topic)
    ensures (stream + news)[..|seeds|] == seeds && OnTopic((stream + news)[|seeds|..], topic)
  {
    assert (stream + news)[|seeds|..] == stream[|seeds|..] + news;
  }

  /** The first message from position `k` on that is delivered to somebody, or the end of the stream. */
  lemma {:induction false} FirstDelivered(c: Config, stream: seq<Message>, k: nat) returns (n: nat)
    requires k <= |stream|
    ensures k <= n <= |stream| && (n < |stream| ==> Matching(c, stream[n]) != [])
    ensures forall j | k <= j < n :: Matching(c, stream[j]) == []
  {
    n := k;
    while n < |stream| && Matching(c, stream[n]) == []
      invariant k <= n <= |stream| && forall j | k <= j < n :: Matching(c, stream[j]) == []
    {
      n := n + 1;
    }
  }

  /** The stream that shouting subscribers end up with. */
  function ShoutedStream(c: Config, seeds: seq<Message>, firstId: nat, topic: string, count: nat): seq<Message> {
    After(c, Shouting(topic, count), seeds, firstId, |seeds|).stream
  }

  ghost predicate SameAsBefore(run: nat -> seq<Message>, n: nat) {
    n > 0 ==> run(n) == run(n - 1)
  }

  lemma {:induction false} SameFrom(run: nat -> seq<Message>, k: nat, n: nat)
    requires k <= n && forall j: nat | j > k :: SameAsBefore(run, j)
    ensures run(n) == run(k)
    decreases n
  {
    if n > k {
      SameFrom(run, k, n - 1);
      assert SameAsBefore(run, n);
    }
  }

  function ShoutingStreams(c: Config, seeds: seq<Message>, firstId: nat, topic: string,
                           count: nat): nat -> seq<Message> {
    (n: nat) => After(c, Shouting(topic, count), seeds, firstId, n).stream
  }

  lemma {:induction false} ShoutsAreFew(c: Config, seeds: seq<Message>, firstId: nat, topic: string, count: nat, n: nat)
    requires Unheard(c.subscriptions, topic) && n > |seeds|
    ensures SameAsBefore(ShoutingStreams(c, seeds, firstId, topic, count), n)
  {
    ShoutingRun(c, seeds, firstId, topic, count, n - 1);
    ShoutedNext(c, seeds, topic, count, n - 1, After(c, Shouting(topic, count), seeds, firstId, n - 1));
  }

  lemma {:induction false} StreamIsFinal(c: Config, seeds: seq<Message>, firstId: nat, topic: string, count: nat,
                                         n: nat)
    requires Unheard(c.subscriptions, topic) && n >= |seeds|
    ensures After(c, Shouting(topic, count), seeds, firstId, n).stream == ShoutedStream(c, seeds, firstId, topic, count)
  {
    var run := ShoutingStreams(c, seeds, firstId, topic, count);
    forall j: nat | j > |seeds| ensures SameAsBefore(run, j) {
      ShoutsAreFew(c, seeds, firstId, topic, count, j);
    }
    SameFrom(run, |seeds|, n);
    assert run(n) == run(|seeds|);
  }

  /** The run may stop in this state: at the cap, after a message that was delivered, or for want of messages. */
  ghost predicate MayStop(c: Config, s: State, ending: Ending) {
    && 0 < s.k <= |s.stream| && IdleFrom(c, s.stream, s.k - 1)
    && match ending
       case MaxMessages => s.k >= c.maxMessages && Matching(c, s.stream[s.k - 1]) != []
       case Quiescence => s.k == |s.stream| && IdleFrom(c, s.stream, s.k)
       case _ => false
  }

  lemma {:induction false} StopIsOutcome(c: Config, act: Agents, seeds: seq<Message>, firstId: nat, s: State,
                                         ending: Ending)
    returns (r: BusResult)
    requires MayStop(c, s, ending) && s == After(c, act, seeds, firstId, s.k)
    ensures Outcome(c, act, seeds, firstId, r) && |r.log| == s.k
  {
    r := BusResult(s.stream[..s.k], s.deliveries, ending);
    StoppedThere(c, s, ending);
  }

  lemma {:induction false} StoppedThere(c: Config, s: State, ending: Ending)
    requires MayStop(c, s, ending)
    ensures Stopped(c, BusResult(s.stream[..s.k], s.deliveries, ending))
  {
    assert forall k | 0 <= k < s.k :: s.stream[..s.k][k] == s.stream[k];
  }

  lemma {:induction false} SeedsMayStop(c: Config, seeds: seq<Message>, s: State, n: nat)
    requires seeds != [] && c.maxMessages < |seeds| && s.stream == seeds && n <= |seeds|
    requires n < |seeds| ==> Matching(c, seeds[n]) != []
    requires c.maxMessages >= 1 ==> c.maxMessages <= n && Matching(c, seeds[c.maxMessages - 1]) == []
    requires forall j | 0 <= j < n && c.maxMessages <= j :: Matching(c, seeds[j]) == []
    requires s.k == if n < |seeds| then n + 1 else n
    ensures MayStop(c, s, if n < |seeds| then MaxMessages else Quiescence)
  {
  }

  /** With silent subscribers the seeds are processed up to the first that is delivered at or after the cap. */
  lemma {:induction false} SilentOutcome(c: Config, seeds: seq<Message>, firstId: nat, topic: string)
    returns (r: BusResult)
    requires Unheard(c.subscriptions, topic) && seeds != [] && c.maxMessages < |seeds|
    requires c.maxMessages >= 1 ==> Matching(c, seeds[c.maxMessages - 1]) == []
    ensures Outcome(c, Shouting(topic, 0), seeds, firstId, r) && |r.log| > c.maxMessages
  {
    var n := FirstDelivered(c, seeds, if c.maxMessages >= 1 then c.maxMessages else 0);
    var s := SilentState(c, seeds, firstId, topic, if n < |seeds| then n + 1 else n);
    SeedsMayStop(c, seeds, s, n);
    r := StopIsOutcome(c, Shouting(topic, 0), seeds, firstId, s, if n < |seeds| then MaxMessages else Quiescence);
  }

  lemma {:induction false} SilentState(c: Config, seeds: seq<Message>, firstId: nat, topic: string, n: nat)
    returns (s: State)
    requires Unheard(c.subscriptions, topic) && n <= |seeds|
    ensures s == After(c, Shouting(topic, 0), seeds, firstId, n) && s.stream == seeds && s.k == n
  {
    s := After(c, Shouting(topic, 0), seeds, firstId, n);
    ShoutingRun(c, seeds, firstId, topic, 0, n);
    SilentStream(c, seeds, firstId, topic, n);
  }

  lemma {:induction false} SilentHandling(c: Config, topic: string, m: Message, position: nat, matching: seq<nat>,
                                          before: seq<Delivery>, nextId: nat)
    requires Within(|c.subscriptions|, matching)
    ensures Handle(c, Shouting(topic, 0), m, position, matching, before, nextId).news == []
  {
    if matching != [] {
      SilentHandling(c, topic, m, position, matching[..|matching| - 1], before, nextId);
    }
  }

  lemma {:induction false} SilentStream(c: Config, seeds: seq<Message>, firstId: nat, topic: string, n: nat)
    ensures After(c, Shouting(topic, 0), seeds, firstId, n).stream == seeds
  {
    if n > 0 {
      SilentStream(c, seeds, firstId, topic, n - 1);
      var s := After(c, Shouting(topic, 0), seeds, firstId, n - 1);
      if s.k < |s.stream| {
        SilentHandling(c, topic, s.stream[s.k], s.k, Matching(c, s.stream[s.k]), s.deliveries, s.nextId);
      }
    }
  }

  lemma {:induction false} ShoutsGoUnheard(c: Config, seeds: seq<Message>, topic: string, count: nat, n: nat,
                                           s: State, k: nat)
    requires Unheard(c.subscriptions, topic) && Shouted(c, seeds, topic, count, n, s) && |seeds| <= k < |s.stream|
    ensures Matching(c, s.stream[k]) == []
  {
    assert s.stream[k] == s.stream[|seeds|..][k - |seeds|];
    UnheardIsUnsubscribed(c.subscriptions, topic);
  }

  /** All shouts are processed, and none of them after the cap is delivered. */
  lemma {:induction false} ShoutsMayStop(c: Config, seeds: seq<Message>, topic: string, count: nat, s: State)
    requires Unheard(c.subscriptions, topic) && Shouted(c, seeds, topic, count, |s.stream|, s) && s.stream != []
    requires |seeds| <= c.maxMessages && (|seeds| == c.maxMessages && seeds != [] ==> Matching(c, seeds[c.maxMessages - 1]) == [])
    ensures MayStop(c, s, Quiescence)
  {
    forall k | 0 <= k < |s.stream| && c.maxMessages - 1 <= k ensures Matching(c, s.stream[k]) == [] {
      if k < |seeds| {
        assert s.stream[k] == s.stream[..|seeds|][k];
      } else {
        ShoutsGoUnheard(c, seeds, topic, count, |s.stream|, s, k);
      }
    }
  }

  /** A fertile seed: when its subscriber publishes enough on a topic nobody hears, all of it is processed. */
  lemma {:induction false} ShoutsPass(c: Config, seeds: seq<Message>, firstId: nat, topic: string, i: nat)
    returns (r: BusResult)
    requires Unheard(c.subscriptions, topic) && 1 <= c.maxMessages && |seeds| <= c.maxMessages
    requires |seeds| == c.maxMessages ==> Matching(c, seeds[c.maxMessages - 1]) == []
    requires i < |seeds| && Fertile(c, seeds[i])
    ensures Outcome(c, Shouting(topic, c.maxMessages), seeds, firstId, r) && |r.log| > c.maxMessages
  {
    var act, n := Shouting(topic, c.maxMessages), |ShoutedStream(c, seeds, firstId, topic, c.maxMessages)|;
    ShoutingRun(c, seeds, firstId, topic, c.maxMessages, |seeds|);
    StreamIsFinal(c, seeds, firstId, topic, c.maxMessages, n);
    ShoutingRun(c, seeds, firstId, topic, c.maxMessages, n);
    var s := After(c, act, seeds, firstId, n);
    ShoutsMayStop(c, seeds, topic, c.maxMessages, s);
    r := StopIsOutcome(c, act, seeds, firstId, s, Quiescence);
  }

  /** Whatever the agents do, no run takes the log beyond the message cap, if and only if the configuration and the
      seeds leave no room for it. */
  lemma {:induction false} CapHoldsIff(c: Config, seeds: seq<Message>, firstId: nat)
    requires seeds != []
    ensures (forall act: Agents, r | Outcome(c, act, seeds, firstId, r) :: |r.log| <= c.maxMessages)
            <==> !CapCanBePassed(c, seeds)
  {
    if CapCanBePassed(c, seeds) {
      var topic := UnheardTopic(c.subscriptions);
      if c.maxMessages < |seeds| {
        var r := SilentOutcome(c, seeds, firstId, topic);
      } else {
        var i :| 0 <= i < |seeds| && Fertile(c, seeds[i]);
        var r := ShoutsPass(c, seeds, firstId, topic, i);
      }
    } else {
      forall act: Agents, r | Outcome(c, act, seeds, firstId, r) ensures |r.log| <= c.maxMessages {
        if |r.log| > c.maxMessages {
          PassedCanBe(c, act, seeds, firstId, r);
        }
      }
    }
  }

  class MessageBus {
    const c: Config
    var routing: Table

    ghost predicate Valid()
      reads this
    {
      routing == RoutingTable(c.subscriptions)
    }

    constructor (c: Config)
      ensures Valid() && this.c == c
    {
      this.c, routing := c, map[];
      new;
      for s := 0 to |c.subscriptions|
        invariant routing == RoutingTable(c.subscriptions[..s])
      {
        var topics, table := c.subscriptions[s].topics, routing;
        for j := 0 to |topics|
          invariant routing == Entered(table, topics[..j], s)
        {
          assert topics[..j + 1][..j] == topics[..j];
          routing := routing[topics[j] := Lookup(routing, topics[j]) + [s]];
        }
        assert topics[..|topics|] == topics && c.subscriptions[..s + 1][..s] == c.subscriptions[..s];
      }
      assert c.subscriptions[..|c.subscriptions|] == c.subscriptions;
    }

    /** The subscribers of one message that the filter and the self-delivery rule leave. */
    method Match(m: Message) returns (matching: seq<nat>)
      requires Valid()
      ensures matching == Matching(c, m)
    {
      var candidates := Lookup(routing, m.topic);
      RoutesToSubscribed(c.subscriptions, m.topic);
      SubscribedBounds(c.subscriptions, m.topic);
      matching := [];
      for i := 0 to |candidates|
        invariant matching == Pick(c, candidates[..i], m)
      {
        var sub := c.subscriptions[candidates[i]];
        assert candidates[..i + 1][..i] == candidates[..i];
        if (sub.filter.Some? ==> sub.filter.value(m)) && (c.allowSelf || sub.agent != m.author) {
          matching := matching + [candidates[i]];
        }
      }
      assert candidates[..|candidates|] == candidates;
    }

    /** Gathers what the matching subscribers did. */
    method Deliver(m: Message, position: nat, matching: seq<nat>, act: Agents, before: seq<Delivery>, nextId: nat)
      returns (ds: seq<Delivery>, news: seq<Message>, next: nat)
      requires Within(|c.subscriptions|, matching)
      ensures Round(ds, news, next) == Handle(c, act, m, position, matching, before, nextId)
    {
      ds, news, next := before, [], nextId;
      for i := 0 to |matching|
        invariant Round(ds, news, next) == Handle(c, act, m, position, matching[..i], before, nextId)
      {
        var s := matching[i];
        assert matching[..i + 1][..i] == matching[..i];
        var drafts := act(|ds|, s, m);
        var published := None;
        if drafts.Some? {
          var stamped := Stamp(m, c.subscriptions[s].agent, drafts.value, next);
          next := next + |drafts.value|;
          news, published := news + WithinDepth(stamped, c.maxDepth), Some(stamped);
        }
        ds := ds + [Delivery(position, s, published)];
      }
      assert matching[..|matching|] == matching;
    }

    /** Processes seeds until the queue is empty, the cap is reached, or cancellation or the termination condition
        stops it. Those three are looked at only after a message that was delivered to somebody. */
    method Run(seeds: seq<Message>, firstId: nat, act: Agents, cancelled: nat -> bool,
               terminate: (seq<Message>, seq<Delivery>) -> bool)
      returns (r: Option<BusResult>)
      requires Valid() && Below(seeds, firstId)
      ensures r.None? <==> seeds == []
      ensures r.Some? ==> Processed(c, seeds, r.value) && Outcome(c, act, seeds, firstId, r.value)
      ensures r.Some? ==>
        && Accounted(c, act, seeds, r.value.log, StreamOf(c, seeds, r.value), r.value.deliveries)
        && EndsFor(c, r.value, cancelled, terminate)
    {
      if seeds == [] {
        return None;
      }
      var log, queue, ds, nextId, ending := Pump(seeds, firstId, act, cancelled, terminate);
      assert (log + queue)[..|log|] == log;
      RunEnds(c, act, seeds, firstId, |log|, ending);
      RunIsAccounted(c, act, seeds, firstId, |log|);
      EveryRun(c, act, seeds, firstId, |log|);
      r := Some(BusResult(log, ds, ending));
    }

    /** The loop of a run. */
    method Pump(seeds: seq<Message>, firstId: nat, act: Agents, cancelled: nat -> bool,
                terminate: (seq<Message>, seq<Delivery>) -> bool)
      returns (log: seq<Message>, queue: seq<Message>, ds: seq<Delivery>, nextId: nat, ending: Ending)
      requires Valid() && seeds != [] && Below(seeds, firstId)
      ensures State(log + queue, |log|, ds, nextId) == After(c, act, seeds, firstId, |log|)
      ensures (ending == Quiescence ==> queue == []) && Stopped(c, BusResult(log, ds, ending))
      ensures EndsFor(c, BusResult(log, ds, ending), cancelled, terminate)
    {
      log, queue, ds, nextId, ending := [], seeds, [], firstId, Quiescence;
      while queue != []
        invariant State(log + queue, |log|, ds, nextId) == After(c, act, seeds, firstId, |log|)
        invariant (queue == [] ==> log != []) && IdleFrom(c, log, |log|) && ending == Quiescence
        invariant AllWentOn(c, log, ds, cancelled, terminate)
        decreases if |log| < c.maxMessages then c.maxMessages - |log| else 0, |queue|
      {
        var message, delivered := queue[0], false;
        ghost var before := ds;
        delivered, queue, ds, nextId := ProcessNext(seeds, firstId, log, queue, act, ds, nextId);
        AllWentOnLonger(c, log, message, before, ds, cancelled, terminate);
        if delivered {
          ending := StopAfter(log, message, ds, cancelled, terminate);
          if ending != Quiescence {
            StoppedEnd(c, log + [message], ds, ending, cancelled, terminate);
            return log + [message], queue, ds, nextId, ending;
          }
        }
        IdleStep(c, log, message);
        AllWentOnNow(c, log, message, ds, cancelled, terminate);
        log := log + [message];
      }
      QuietEnd(c, log, ds, cancelled, terminate);
    }

    /** Takes the first message off the queue and delivers it to the matching subscribers. */
    method ProcessNext(ghost seeds: seq<Message>, ghost firstId: nat, log: seq<Message>, queue: seq<Message>,
                       act: Agents,
                       before: seq<Delivery>, id: nat)
      returns (delivered: bool, rest: seq<Message>, ds: seq<Delivery>, nextId: nat)
      requires Valid() && queue != [] && Below(seeds, firstId)
      requires State(log + queue, |log|, before, id) == After(c, act, seeds, firstId, |log|)
      ensures delivered <==> Matching(c, queue[0]) != []
      ensures !delivered ==> rest == queue[1..]
      ensures State(log + [queue[0]] + rest, |log| + 1, ds, nextId) == After(c, act, seeds, firstId, |log| + 1)
      ensures before <= ds && Slots(ds) == Due(c, log + [queue[0]])
    {
      var message := queue[0];
      var matching := Match(message);
      var known, news, next := Deliver(message, |log|, matching, act, before, id);
      QueueMoves(c, act, seeds, firstId, log, queue, before, id, Round(known, news, next));
      EveryRun(c, act, seeds, firstId, |log| + 1);
      assert (log + [message] + (queue[1..] + news))[..|log| + 1] == log + [message];
      return matching != [], queue[1..] + news, known, next;
    }

    /** Whether the run stops after a message that was delivered. */
    method StopAfter(log: seq<Message>, message: Message, ds: seq<Delivery>, cancelled: nat -> bool,
                     terminate: (seq<Message>, seq<Delivery>) -> bool)
      returns (ending: Ending)
      requires IdleFrom(c, log, |log|) && Matching(c, message) != []
      ensures if ending == Quiescence then |log| + 1 < c.maxMessages else Stopped(c, BusResult(log + [message], ds, ending))
      ensures ending == Quiescence ==> !cancelled(|log| + 1) && !terminate(log + [message], ds)
      ensures ending == MaxMessages ==> |log| + 1 >= c.maxMessages
      ensures ending == Cancelled ==> |log| + 1 < c.maxMessages && cancelled(|log| + 1)
      ensures ending == Terminated ==>
                |log| + 1 < c.maxMessages && !cancelled(|log| + 1) && terminate(log + [message], ds)
    {
      ending := CheckStops(log + [message], ds, cancelled, terminate);
      if ending != Quiescence {
        StopsHere(c, log, message, ds, ending);
      }
    }

    /** The three checks after a delivered message, in their order. */
    method CheckStops(log: seq<Message>, ds: seq<Delivery>, cancelled: nat -> bool,
                      terminate: (seq<Message>, seq<Delivery>) -> bool)
      returns (ending: Ending)
      ensures ending == MaxMessages <==> |log| >= c.maxMessages
      ensures ending == Cancelled <==> |log| < c.maxMessages && cancelled(|log|)
      ensures ending == Terminated <==> |log| < c.maxMessages && !cancelled(|log|) && terminate(log, ds)
    {
      ending := if |log| >= c.maxMessages then MaxMessages else if cancelled(|log|) then Cancelled
                else if terminate(log, ds) then Terminated else Quiescence;
    }
  }
}
