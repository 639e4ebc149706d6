/** Approvals answered from outside: a producer that waits at one gate after the other, a consumer that resolves
    whatever is pending, interleaved where they yield. */
module AsyncHitl {
  import opened Values

  datatype Decision = Approve | Reject

  /******* The provider *******/

  datatype Request = Request(id: string, prompt: string)

  /** A registered request, and the ticket under which the one who waits for it picks its answer up. */
  datatype Registered = Registered(request: Request, ticket: nat)

  /** Pending requests in registration order, and the answers of the resolved ones not yet picked up. An id may be
      registered again as soon as its request is no longer pending. */
  class AsyncHumanInputProvider {
    var pending: seq<Registered>
    var answers: map<nat, Decision>
    var tickets: nat

    ghost predicate Valid()
      reads this
    {
      && (forall i, j | 0 <= i < j < |pending| :: pending[i].request.id != pending[j].request.id)
      && (forall i, j | 0 <= i < j < |pending| :: pending[i].ticket != pending[j].ticket)
      && (forall i | 0 <= i < |pending| :: pending[i].ticket < tickets && pending[i].ticket !in answers)
      && (forall t | t in answers :: t < tickets)
    }

    constructor ()
      ensures Valid() && pending == [] && answers == map[]
    {
      pending, answers, tickets := [], map[], 0;
    }

    /** The first half of a request: registers it, unless one with its id is pending. */
    method Register(r: Request) returns (ticket: Option<nat>)
      requires Valid()
      modifies this`pending, this`tickets
      ensures Valid()
      ensures ticket.Some? <==> forall i | 0 <= i < |old(pending)| :: old(pending)[i].request.id != r.id
      ensures pending == old(pending) + if ticket.Some? then [Registered(r, ticket.value)] else []
    {
      for i := 0 to |pending|
        invariant forall j | 0 <= j < i :: pending[j].request.id != r.id
        modifies {}
      {
        if pending[i].request.id == r.id {
          return None;
        }
      }
      pending := pending + [Registered(r, tickets)];
      ticket, tickets := Some(tickets), tickets + 1;
    }

    /** The second half: picks the answer up. */
    method PickUp(ticket: nat) returns (d: Decision)
      requires Valid() && ticket in answers
      modifies this`answers
      ensures Valid() && d == old(answers)[ticket] && answers == old(answers) - {ticket}
    {
      d := answers[ticket];
      answers := answers - {ticket};
    }

    /** Delivers an answer to the one who waits; a request that is unknown or already resolved is left alone. */
    method Resolve(id: string, d: Decision) returns (delivered: bool)
      requires Valid()
      modifies this`pending, this`answers
      ensures Valid()
      ensures delivered <==> exists i :: 0 <= i < |old(pending)| && old(pending)[i].request.id == id
      ensures !delivered ==> pending == old(pending) && answers == old(answers)
      ensures delivered ==>
        exists i :: 0 <= i < |old(pending)| && old(pending)[i].request.id == id
                    && pending == old(pending)[..i] + old(pending)[i + 1..]
                    && answers == old(answers)[old(pending)[i].ticket := d]
    {
      for i := 0 to |pending|
        invariant forall j | 0 <= j < i :: pending[j].request.id != id
        invariant pending == old(pending) && answers == old(answers)
      {
        if pending[i].request.id == id {
          pending, answers := pending[..i] + pending[i + 1..], answers[pending[i].ticket := d];
          return true;
        }
      }
      delivered := false;
    }
  }

  /******* Recognising a draft in a prompt *******/

  predicate OccursAt(text: string, part: string, i: nat) {
    i + |part| <= |text| && text[i..i + |part|] == part
  }

  ghost predicate Occurs(text: string, part: string) {
    exists i: nat :: OccursAt(text, part, i)
  }

  function Prompt(draft: string): string {
    "Approve " + draft + "?"
  }

  function RunId(draft: string): string {
    "example-94-s2-" + draft
  }

  lemma {:induction false} PromptShowsDraft(draft: string)
    ensures Occurs(Prompt(draft), draft)
  {
    assert Prompt(draft)[8..8 + |draft|] == draft;
    assert OccursAt(Prompt(draft), draft, 8);
  }

  /** Scans for a part of a text. */
  method Contains(text: string, part: string) returns (r: bool)
    ensures r <==> Occurs(text, part)
  {
    var i := 0;
    while i + |part| <= |text|
      invariant 0 <= i && forall k: nat | k < i :: !OccursAt(text, part, k)
    {
      if text[i..i + |part|] == part {
        assert OccursAt(text, part, i);
        return true;
      }
      i := i + 1;
    }
    r := false;
  }

  /** The first draft that occurs in the prompt of draft `k`: the one whose decision is delivered. */
  ghost predicate Matched(drafts: seq<string>, k: nat, j: nat)
    requires k < |drafts|
  {
    j <= k && Occurs(Prompt(drafts[k]), drafts[j]) && forall i | 0 <= i < j :: !Occurs(Prompt(drafts[k]), drafts[i])
  }

  lemma {:induction false} MatchExists(drafts: seq<string>, k: nat)
    requires k < |drafts|
    ensures exists j: nat :: Matched(drafts, k, j)
  {
    PromptShowsDraft(drafts[k]);
    var j := 0;
    while !Occurs(Prompt(drafts[k]), drafts[j])
      invariant j <= k && forall i | 0 <= i < j :: !Occurs(Prompt(drafts[k]), drafts[i])
      decreases k - j
    {
      j := j + 1;
    }
    assert Matched(drafts, k, j);
  }

  ghost function Match(drafts: seq<string>, k: nat): (j: nat)
    requires k < |drafts|
    ensures Matched(drafts, k, j)
  {
    MatchExists(drafts, k);
    var j: nat :| Matched(drafts, k, j);
    j
  }

  lemma {:induction false} MatchUnique(drafts: seq<string>, k: nat, i: nat, j: nat)
    requires k < |drafts| && Matched(drafts, k, i) && Matched(drafts, k, j)
    ensures i == j
  {
  }

  /** What the producer makes of a decision: an approved draft passes through, a rejected one yields nothing. */
  function OutputOf(draft: string, d: Decision): Option<string> {
    if d == Approve then Some(draft) else None
  }

  /** The outputs of the first `n` drafts as the protocol computes them. */
  ghost function Outputs(drafts: seq<string>, decide: string -> Decision, n: nat): (r: seq<Option<string>>)
    requires n <= |drafts|
    ensures |r| == n && forall k | 0 <= k < n :: r[k] == OutputOf(drafts[k], decide(drafts[Match(drafts, k)]))
  {
    if n == 0 then [] else Outputs(drafts, decide, n - 1) + [OutputOf(drafts[n - 1], decide(drafts[Match(drafts, n - 1)]))]
  }

  /** The outputs with every draft's own decision. */
  function Intended(drafts: seq<string>, decide: string -> Decision): seq<Option<string>> {
    seq(|drafts|, k requires 0 <= k < |drafts| => OutputOf(drafts[k], decide(drafts[k])))
  }

  ghost predicate OwnDecisions(drafts: seq<string>, decide: string -> Decision) {
    Outputs(drafts, decide, |drafts|) == Intended(drafts, decide)
  }

  /** A draft occurs in the prompt of another one and comes before it in the list. */
  ghost predicate Masks(drafts: seq<string>, j: nat, k: nat)
    requires j < |drafts| && k < |drafts|
  {
    && drafts[j] != drafts[k] && Occurs(Prompt(drafts[k]), drafts[j])
    && forall i | 0 <= i < j :: drafts[i] != drafts[k]
  }

  /** Every draft gets its own decision, whatever the decisions are, exactly when no other draft that occurs in
      its prompt comes before it in the list. */
  lemma {:induction false} OwnDecisionsIff(drafts: seq<string>)
    ensures (forall decide: string -> Decision :: OwnDecisions(drafts, decide)) <==>
              forall j, k | 0 <= j < |drafts| && 0 <= k < |drafts| :: !Masks(drafts, j, k)
  {
    if j, k :| 0 <= j < |drafts| && 0 <= k < |drafts| && Masks(drafts, j, k) {
      MaskedIsMisread(drafts, j, k);
    } else {
      forall decide: string -> Decision ensures OwnDecisions(drafts, decide) {
        UnmaskedAreRead(drafts, decide);
      }
    }
  }

  lemma {:induction false} UnmaskedAreRead(drafts: seq<string>, decide: string -> Decision)
    requires forall j, k | 0 <= j < |drafts| && 0 <= k < |drafts| :: !Masks(drafts, j, k)
    ensures OwnDecisions(drafts, decide)
  {
    forall k | 0 <= k < |drafts| ensures drafts[Match(drafts, k)] == drafts[k] {
      UnmaskedIsRead(drafts, k);
    }
  }

  lemma {:induction false} UnmaskedIsRead(drafts: seq<string>, k: nat)
    requires k < |drafts| && forall j | 0 <= j < |drafts| :: !Masks(drafts, j, k)
    ensures drafts[Match(drafts, k)] == drafts[k]
  {
    var m := Match(drafts, k);
    PromptShowsDraft(drafts[k]);
    assert !Masks(drafts, m, k);
  }

  /** If another draft masks this one, some decisions go wrong. */
  lemma {:induction false} MaskedIsMisread(drafts: seq<string>, j: nat, k: nat)
    requires j < |drafts| && k < |drafts| && Masks(drafts, j, k)
    ensures exists decide: string -> Decision :: !OwnDecisions(drafts, decide)
  {
    var m := Match(drafts, k);
    assert m <= j && drafts[m] != drafts[k];
    var decide := (d: string) => if d == drafts[k] then Approve else Reject;
    Misreads(drafts, decide, k);
  }

  lemma {:induction false} Misreads(drafts: seq<string>, decide: string -> Decision, k: nat)
    requires k < |drafts| && decide(drafts[Match(drafts, k)]) != decide(drafts[k])
    ensures !OwnDecisions(drafts, decide)
  {
    assert Outputs(drafts, decide, |drafts|)[k] == OutputOf(drafts[k], decide(drafts[Match(drafts, k)]));
    assert Intended(drafts, decide)[k] == OutputOf(drafts[k], decide(drafts[k]));
  }

  /** Draft `j` is the first in the list that occurs in what is asked about draft `k`. */
  ghost predicate AnsweredFor(drafts: seq<string>, k: nat, j: nat)
    requires k < |drafts|
  {
    && j < |drafts| && Occurs("Approve " + drafts[k] + "?", drafts[j])
    && forall i | 0 <= i < j :: !Occurs("Approve " + drafts[k] + "?", drafts[i])
  }

  /** A draft comes out if it is approved, and nothing comes out if it is rejected. */
  predicate Comes(draft: string, d: Decision, output: Option<string>) {
    (d == Approve ==> output == Some(draft)) && (d == Reject ==> output == None)
  }

  /** A draft fares as the first draft shown in its prompt was decided on; without another draft in the way that is its own
      decision. */
  ghost predicate Fares(drafts: seq<string>, decide: string -> Decision, k: nat, output: Option<string>)
    requires k < |drafts|
  {
    && (exists j: nat :: AnsweredFor(drafts, k, j) && Comes(drafts[k], decide(drafts[j]), output))
    && ((forall j | 0 <= j < |drafts| :: !Masks(drafts, j, k)) ==> Comes(drafts[k], decide(drafts[k]), output))
  }

  ghost predicate Settled(drafts: seq<string>, decide: string -> Decision, outputs: seq<Option<string>>) {
    |outputs| == |drafts| && forall k: nat | k < |drafts| :: Fares(drafts, decide, k, outputs[k])
  }

  lemma {:induction false} DraftFares(drafts: seq<string>, decide: string -> Decision, k: nat)
    requires k < |drafts|
    ensures Fares(drafts, decide, k, OutputOf(drafts[k], decide(drafts[Match(drafts, k)])))
  {
    assert AnsweredFor(drafts, k, Match(drafts, k));
    if forall j | 0 <= j < |drafts| :: !Masks(drafts, j, k) {
      UnmaskedIsRead(drafts, k);
    }
  }

  lemma {:induction false} OutputsAreSettled(drafts: seq<string>, decide: string -> Decision,
                                             outputs: seq<Option<string>>)
    requires outputs == Outputs(drafts, decide, |drafts|)
    ensures Settled(drafts, decide, outputs)
  {
    forall k: nat | k < |drafts| ensures Fares(drafts, decide, k, outputs[k]) {
      DraftFares(drafts, decide, k);
    }
  }

  /******* The interleaved protocol *******/

  /** Where the producer is: not yet started, waiting at the gate of draft `k` with a ticket, or done. */
  datatype Producer = Fresh | AtGate(k: nat, ticket: nat) | Finished

  class Exchange {
    const drafts: seq<string>
    const decide: string -> Decision
    const provider: AsyncHumanInputProvider
    var producer: Producer
    var outputs: seq<Option<string>>
    var resolved: nat

    /** The producer waits for the consumer. */
    predicate Waiting()
      reads this, provider
    {
      producer.AtGate? && provider.pending != []
    }

    /** At most one request is pending: that of the gate the producer waits at. It is unanswered, or answered with
        the decision of the draft it was matched to and no longer pending. */
    ghost predicate Valid()
      reads this, provider
    {
      && provider.Valid() && |outputs| <= |drafts| && outputs == Outputs(drafts, decide, |outputs|)
      && match producer
         case Fresh => outputs == [] && provider.pending == [] && provider.answers == map[] && resolved == 0
         case Finished => |outputs| == |drafts| == resolved && provider.pending == [] && provider.answers == map[]
         case AtGate(k, ticket) =>
           && k == |outputs| < |drafts|
           && (if provider.pending == [] then
                 resolved == k + 1 && provider.answers == map[ticket := decide(drafts[Match(drafts, k)])]
               else
                 resolved == k && provider.answers == map[]
                 && provider.pending == [Registered(Request(RunId(drafts[k]), Prompt(drafts[k])), ticket)])
    }

    /** How many steps that get somewhere are left. */
    function Left(): nat
      reads this, provider
      requires |outputs| <= |drafts| && (producer.AtGate? ==> |outputs| < |drafts|)
    {
      match producer
      case Fresh => 2 * |drafts| + 1
      case Finished => 0
      case AtGate(_, _) => 2 * (|drafts| - |outputs|) - if provider.pending == [] then 1 else 0
    }

    constructor (drafts: seq<string>, decide: string -> Decision, provider: AsyncHumanInputProvider)
      requires provider.Valid() && provider.pending == [] && provider.answers == map[]
      ensures Valid() && this.drafts == drafts && this.decide == decide && this.provider == provider
              && producer == Fresh
    {
      this.drafts, this.decide, this.provider := drafts, decide, provider;
      producer, outputs, resolved := Fresh, [], 0;
    }

    /** From the start, or from an answered gate, to the next gate: the answer is picked up, the output appended
        and the next request registered without yielding in between. */
    method ProducerStep() returns (moved: bool)
      requires Valid()
      modifies this, provider
      ensures Valid() && moved == (old(producer) == Fresh || (old(producer).AtGate? && !old(Waiting())))
      ensures Left() == old(Left()) - if moved then 1 else 0
    {
      match producer {
        case Finished => return false;
        case Fresh =>
        case AtGate(k, ticket) =>
          if provider.pending != [] {
            return false;
          }
          var d := provider.PickUp(ticket);
          outputs := outputs + [OutputOf(drafts[k], d)];
      }
      if |outputs| < |drafts| {
        var draft := drafts[|outputs|];
        var ticket := provider.Register(Request(RunId(draft), Prompt(draft)));
        producer := AtGate(|outputs|, ticket.value);
      } else {
        producer := Finished;
      }
      moved := true;
    }

    /** One look at the pending requests: the first one is resolved with the decision of the first draft found in
        its prompt; with nothing pending the consumer yields. */
    method ConsumerStep() returns (moved: bool)
      requires Valid()
      modifies this`resolved, provider
      ensures Valid() && moved == old(Waiting())
      ensures Left() == old(Left()) - if moved then 1 else 0
    {
      if resolved == |drafts| || provider.pending == [] {
        return false;
      }
      var request := provider.pending[0].request;
      var j := FirstShown(request.prompt, |outputs|);
      var delivered := provider.Resolve(request.id, decide(drafts[j]));
      resolved := resolved + 1;
      moved := true;
    }

    /** The first draft that occurs in the prompt of draft `k`. */
    method FirstShown(prompt: string, ghost k: nat) returns (j: nat)
      requires k < |drafts| && prompt == Prompt(drafts[k])
      ensures j == Match(drafts, k)
    {
      j := 0;
      PromptShowsDraft(drafts[k]);
      var found := Contains(prompt, drafts[0]);
      while !found
        invariant j <= k && (found <==> Occurs(prompt, drafts[j]))
        invariant forall i | 0 <= i < j :: !Occurs(prompt, drafts[i])
        decreases k - j, !found
      {
        j := j + 1;
        found := Contains(prompt, drafts[j]);
      }
      assert Matched(drafts, k, j);
      MatchUnique(drafts, k, j, Match(drafts, k));
    }

    /** Some turns of the consumer. */
    method Look(times: nat)
      requires Valid()
      modifies this, provider
      ensures Valid() && Left() <= old(Left())
    {
      for i := 0 to times
        invariant Valid() && Left() <= old(Left())
      {
        var c := ConsumerStep();
      }
    }

    /** Runs both until the producer is through; before each turn of the producer the consumer may look any number
        of times. No schedule deadlocks: as long as something is left one of the two can move. */
    method Gather(looks: nat -> nat)
      requires Valid()
      modifies this, provider
      ensures Valid() && producer == Finished && provider.pending == [] && resolved == |drafts|
      ensures outputs == Outputs(drafts, decide, |drafts|) && Settled(drafts, decide, outputs)
    {
      TakeTurns(looks);
      OutputsAreSettled(drafts, decide, outputs);
    }

    method TakeTurns(looks: nat -> nat)
      requires Valid()
      modifies this, provider
      ensures Valid() && producer == Finished && provider.pending == [] && resolved == |drafts|
      ensures outputs == Outputs(drafts, decide, |drafts|)
    {
      var round := 0;
      while producer != Finished
        invariant Valid()
        decreases Left()
      {
        Turn(looks(round));
        round := round + 1;
      }
    }

    /** Some looks of the consumer, a turn of the producer and another look: one of the two gets somewhere. */
    method Turn(times: nat)
      requires Valid() && producer != Finished
      modifies this, provider
      ensures Valid() && Left() < old(Left())
    {
      Look(times);
      var m := ProducerStep();
      var c := ConsumerStep();
    }
  }
}
