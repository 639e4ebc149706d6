/** Fitting a conversation into a token budget: grouping, truncation and preparation. */
module Context {

  datatype Role = User | Assistant | ToolResult

  /** `calls` holds the name and the serialised arguments of each tool call. */
  datatype Message = Message(role: Role, content: string, calls: seq<(string, string)>, isProtected: bool)

  type Group = seq<Message>

  type Counter = string -> nat

  /******* Token counting *******/

  function CallTokens(calls: seq<(string, string)>, c: Counter): nat {
    if calls == [] then 0 else c(calls[0].0) + c(calls[0].1) + CallTokens(calls[1..], c)
  }

  /** Four tokens of framing, the content if there is any, and the tool calls. */
  function MessageTokens(m: Message, c: Counter): (n: nat)
    ensures n >= 4
  {
    4 + (if m.content == "" then 0 else c(m.content)) + CallTokens(m.calls, c)
  }

  function GroupTokens(g: Group, c: Counter): nat {
    if g == [] then 0 else MessageTokens(g[0], c) + GroupTokens(g[1..], c)
  }

  function Tokens(gs: seq<Group>, c: Counter): nat {
    if gs == [] then 0 else GroupTokens(gs[0], c) + Tokens(gs[1..], c)
  }

  /******* Grouping *******/

  function Flatten(gs: seq<Group>): seq<Message> {
    if gs == [] then [] else gs[0] + Flatten(gs[1..])
  }

  /** A tool result joins the group before it; anything else opens a group. */
  function AddToGroups(gs: seq<Group>, m: Message): seq<Group> {
    if m.role == ToolResult && gs != [] then gs[..|gs| - 1] + [gs[|gs| - 1] + [m]] else gs + [[m]]
  }

  function GroupMessages(ms: seq<Message>): seq<Group> {
    if ms == [] then [] else AddToGroups(GroupMessages(ms[..|ms| - 1]), ms[|ms| - 1])
  }

  /** A group: one opening message, then only tool results. */
  ghost predicate WellFormed(g: Group) {
    g != [] && forall j | 1 <= j < |g| :: g[j].role == ToolResult
  }

  /** Groups that grouping could have produced: only the first may be opened by a tool result. */
  ghost predicate WellGrouped(gs: seq<Group>) {
    && (forall i | 0 <= i < |gs| :: WellFormed(gs[i]))
    && (forall i | 1 <= i < |gs| :: gs[i][0].role != ToolResult)
  }

  lemma {:induction false} WellGroupedSnoc(gs: seq<Group>, g: Group)
    ensures WellGrouped(gs + [g]) <==> WellGrouped(gs) && WellFormed(g) && (gs == [] || g[0].role != ToolResult)
  {
    if WellGrouped(gs + [g]) {
      assert forall i | 0 <= i < |gs| :: (gs + [g])[i] == gs[i];
      assert (gs + [g])[|gs|] == g;
    }
  }

  lemma {:induction false} FlattenSnoc(gs: seq<Group>, g: Group)
    ensures Flatten(gs + [g]) == Flatten(gs) + g
  {
    if gs == [] {
      assert [g][1..] == [];
    } else {
      assert (gs + [g])[1..] == gs[1..] + [g];
      FlattenSnoc(gs[1..], g);
    }
  }

  lemma {:induction false} AddKeepsGrouping(gs: seq<Group>, m: Message)
    requires WellGrouped(gs)
    ensures WellGrouped(AddToGroups(gs, m)) && Flatten(AddToGroups(gs, m)) == Flatten(gs) + [m]
  {
    if m.role == ToolResult && gs != [] {
      var front, last := gs[..|gs| - 1], gs[|gs| - 1];
      assert gs == front + [last];
      FlattenSnoc(front, last + [m]);
      FlattenSnoc(front, last);
      WellGroupedSnoc(front, last);
      assert WellFormed(last + [m]);
      WellGroupedSnoc(front, last + [m]);
    } else {
      FlattenSnoc(gs, [m]);
      WellGroupedSnoc(gs, [m]);
    }
  }

  /** Grouping only inserts boundaries. */
  lemma {:induction false} GroupingKeepsMessages(ms: seq<Message>)
    ensures WellGrouped(GroupMessages(ms)) && Flatten(GroupMessages(ms)) == ms
  {
    if ms != [] {
      var front, last := ms[..|ms| - 1], ms[|ms| - 1];
      GroupingKeepsMessages(front);
      AddKeepsGrouping(GroupMessages(front), last);
      assert ms == front + [last];
      assert GroupMessages(ms) == AddToGroups(GroupMessages(front), last);
    }
  }

  /** The boundaries are forced: regrouping the messages of a well-grouped list gives that list back. */
  lemma {:induction false} RegroupingIsIdentity(gs: seq<Group>)
    requires WellGrouped(gs)
    ensures GroupMessages(Flatten(gs)) == gs
    decreases |Flatten(gs)|
  {
    if gs != [] {
      var front, last := gs[..|gs| - 1], gs[|gs| - 1];
      assert gs == front + [last];
      WellGroupedSnoc(front, last);
      FlattenSnoc(front, last);
      var m := last[|last| - 1];
      var before := Unadd(front, last);
      var ms := Flatten(gs);
      assert ms[..|ms| - 1] == Flatten(before) && ms[|ms| - 1] == m;
      RegroupingIsIdentity(before);
    }
  }

  /** The groups before the last message of the last group was added. */
  lemma {:induction false} Unadd(front: seq<Group>, last: Group) returns (before: seq<Group>)
    requires WellGrouped(front) && WellFormed(last) && (front == [] || last[0].role != ToolResult)
    ensures WellGrouped(before) && Flatten(front) + last == Flatten(before) + [last[|last| - 1]]
    ensures AddToGroups(before, last[|last| - 1]) == front + [last]
  {
    var m := last[|last| - 1];
    if |last| == 1 {
      before := front;
      assert last == [m];
    } else {
      var rest := last[..|last| - 1];
      assert last == rest + [m] && rest[0] == last[0];
      before := front + [rest];
      assert WellFormed(rest);
      WellGroupedSnoc(front, rest);
      FlattenSnoc(front, rest);
      assert before[..|before| - 1] == front && before[|before| - 1] == rest;
    }
  }

  lemma {:induction false} GroupMore(ms: seq<Message>, i: nat)
    requires i < |ms|
    ensures GroupMessages(ms[..i + 1]) == AddToGroups(GroupMessages(ms[..i]), ms[i])
  {
    assert ms[..i + 1][..i] == ms[..i];
  }

  lemma {:induction false} UpdatedLast(gs: seq<Group>, g: Group)
    requires gs != []
    ensures gs[|gs| - 1 := g] == gs[..|gs| - 1] + [g]
  {
  }

  method GroupInLoop(ms: seq<Message>) returns (gs: seq<Group>)
    ensures gs == GroupMessages(ms)
    ensures WellGrouped(gs) && Flatten(gs) == ms
  {
    gs := [];
    for i := 0 to |ms|
      invariant gs == GroupMessages(ms[..i])
    {
      GroupMore(ms, i);
      if ms[i].role == ToolResult && gs != [] {
        UpdatedLast(gs, gs[|gs| - 1] + [ms[i]]);
        gs := gs[|gs| - 1 := gs[|gs| - 1] + [ms[i]]];
      } else {
        gs := gs + [[ms[i]]];
      }
    }
    assert ms[..|ms|] == ms;
    GroupingKeepsMessages(ms);
  }

  /******* Truncation *******/

  datatype Policy = Policy(preserveFirst: bool, preserveRecent: int)

  predicate HasProtected(g: Group) {
    exists i | 0 <= i < |g| :: g[i].isProtected
  }

  /** The groups that are kept by rule: the first, the most recent ones, and those with a protected message. */
  predicate Protected(p: Policy, gs: seq<Group>, i: nat)
    requires i < |gs|
  {
    (p.preserveFirst && i == 0) || i >= |gs| - p.preserveRecent || HasProtected(gs[i])
  }

  function Flags(p: Policy, gs: seq<Group>): seq<bool> {
    seq(|gs|, i requires 0 <= i < |gs| => Protected(p, gs, i))
  }

  /** The groups whose flag is set, in their order. */
  function Select(gs: seq<Group>, keep: seq<bool>): seq<Group>
    requires |gs| == |keep|
  {
    if gs == [] then [] else (if keep[0] then [gs[0]] else []) + Select(gs[1..], keep[1..])
  }

  /** From the newest group back to the oldest: groups kept by rule stay, any other group stays when it still
      fits into what is left. The answer is one flag per group. */
  function Keep(gs: seq<Group>, byRule: seq<bool>, left: nat, c: Counter): (keep: seq<bool>)
    requires |gs| == |byRule|
    ensures |keep| == |gs|
  {
    if gs == [] then [] else
    var n := |gs| - 1;
    if byRule[n] then Keep(gs[..n], byRule[..n], left, c) + [true]
    else if GroupTokens(gs[n], c) <= left then Keep(gs[..n], byRule[..n], left - GroupTokens(gs[n], c), c) + [true]
    else Keep(gs[..n], byRule[..n], left, c) + [false]
  }

  function ByRuleTokens(p: Policy, gs: seq<Group>, c: Counter): nat {
    Tokens(Select(gs, Flags(p, gs)), c)
  }

  function KeepFlags(p: Policy, gs: seq<Group>, budget: int, c: Counter): (keep: seq<bool>)
    ensures |keep| == |gs|
  {
    var byRule := Flags(p, gs);
    var fixed := ByRuleTokens(p, gs, c);
    if fixed >= budget then byRule else Keep(gs, byRule, budget - fixed, c)
  }

  function Truncate(p: Policy, gs: seq<Group>, budget: int, c: Counter): seq<Group> {
    Select(gs, KeepFlags(p, gs, budget, c))
  }

  lemma {:induction false} TokensConcat(a: seq<Group>, b: seq<Group>, c: Counter)
    ensures Tokens(a + b, c) == Tokens(a, c) + Tokens(b, c)
  {
    if a == [] {
      assert a + b == b;
    } else {
      assert (a + b)[1..] == a[1..] + b;
      TokensConcat(a[1..], b, c);
    }
  }

  lemma {:induction false} SelectSnoc(gs: seq<Group>, keep: seq<bool>)
    requires |gs| == |keep| > 0
    ensures var n := |gs| - 1;
            Select(gs, keep) == Select(gs[..n], keep[..n]) + if keep[n] then [gs[n]] else []
  {
    var n := |gs| - 1;
    if n > 0 {
      SelectSnoc(gs[1..], keep[1..]);
      assert gs[..n][1..] == gs[1..][..n - 1] && keep[..n][1..] == keep[1..][..n - 1];
    }
  }

  lemma {:induction false} SelectTokensSnoc(gs: seq<Group>, keep: seq<bool>, c: Counter)
    requires |gs| == |keep| > 0
    ensures var n := |gs| - 1;
            Tokens(Select(gs, keep), c) == Tokens(Select(gs[..n], keep[..n]), c) + if keep[n] then GroupTokens(gs[n], c) else 0
  {
    var n := |gs| - 1;
    SelectSnoc(gs, keep);
    TokensConcat(Select(gs[..n], keep[..n]), if keep[n] then [gs[n]] else [], c);
    assert Tokens([gs[n]], c) == GroupTokens(gs[n], c) + Tokens([gs[n]][1..], c) == GroupTokens(gs[n], c);
  }

  /** The tokens of the selected groups, counted from the oldest to the newest. */
  function Kept(gs: seq<Group>, keep: seq<bool>, c: Counter): nat
    requires |gs| == |keep|
  {
    if gs == [] then 0 else
    var n := |gs| - 1;
    Kept(gs[..n], keep[..n], c) + if keep[n] then GroupTokens(gs[n], c) else 0
  }

  lemma {:induction false} KeptIsSelected(gs: seq<Group>, keep: seq<bool>, c: Counter)
    requires |gs| == |keep|
    ensures Kept(gs, keep, c) == Tokens(Select(gs, keep), c)
  {
    if gs != [] {
      KeptIsSelected(gs[..|gs| - 1], keep[..|gs| - 1], c);
      SelectTokensSnoc(gs, keep, c);
    }
  }

  lemma {:induction false} KeepSpends(gs: seq<Group>, byRule: seq<bool>, left: nat, c: Counter)
    requires |gs| == |byRule|
    ensures var keep := Keep(gs, byRule, left, c);
            && Kept(gs, keep, c) <= Kept(gs, byRule, c) + left
            && forall i | 0 <= i < |gs| :: byRule[i] ==> keep[i]
  {
    if gs != [] {
      var n := |gs| - 1;
      var keep := Keep(gs, byRule, left, c);
      var t := GroupTokens(gs[n], c);
      var left' := if !byRule[n] && t <= left then left - t else left;
      KeepSpends(gs[..n], byRule[..n], left', c);
      assert keep[..n] == Keep(gs[..n], byRule[..n], left', c);
    }
  }

  /** What is kept besides the groups kept by rule uses at most what was left. */
  lemma {:induction false} KeepFits(gs: seq<Group>, byRule: seq<bool>, left: nat, c: Counter)
    requires |gs| == |byRule|
    ensures var keep := Keep(gs, byRule, left, c);
            && Tokens(Select(gs, keep), c) <= Tokens(Select(gs, byRule), c) + left
            && forall i | 0 <= i < |gs| :: byRule[i] ==> keep[i]
  {
    KeepSpends(gs, byRule, left, c);
    KeptIsSelected(gs, Keep(gs, byRule, left, c), c);
    KeptIsSelected(gs, byRule, c);
  }

  /** Truncation keeps an ordered selection with every group that is kept by rule. The result is within the
      budget whenever those groups alone are below it; when they are not, nothing else is kept. */
  lemma {:induction false} TruncateSound(p: Policy, gs: seq<Group>, budget: int, c: Counter)
    ensures var keep := KeepFlags(p, gs, budget, c);
            var fixed := ByRuleTokens(p, gs, c);
            && (forall i | 0 <= i < |gs| :: Protected(p, gs, i) ==> keep[i])
            && (fixed < budget ==> Tokens(Truncate(p, gs, budget, c), c) <= budget)
            && (fixed >= budget ==> forall i | 0 <= i < |gs| :: keep[i] ==> Protected(p, gs, i))
  {
    var byRule := Flags(p, gs);
    var fixed := Tokens(Select(gs, byRule), c);
    if fixed < budget {
      KeepFits(gs, byRule, budget - fixed, c);
    }
  }

  /******* Which groups the budget drops *******/

  /** The tokens of the groups from `i` on that are kept without being kept by rule. */
  function ExtraFrom(gs: seq<Group>, byRule: seq<bool>, keep: seq<bool>, i: nat, c: Counter): nat
    requires |gs| == |byRule| == |keep| && i <= |gs|
    decreases |gs| - i
  {
    if i == |gs| then 0 else
    (if keep[i] && !byRule[i] then GroupTokens(gs[i], c) else 0) + ExtraFrom(gs, byRule, keep, i + 1, c)
  }

  /** Group `i` fits next to the extras kept among the newer groups. */
  predicate FitsBehind(gs: seq<Group>, byRule: seq<bool>, keep: seq<bool>, left: nat, c: Counter, i: int)
    requires |gs| == |byRule| == |keep| && 0 <= i < |gs|
  {
    GroupTokens(gs[i], c) + ExtraFrom(gs, byRule, keep, i + 1, c) <= left
  }

  /** A selection that drops a group exactly when it no longer fits next to the newer extras. */
  ghost predicate DropsOnlyWhatDoesNotFit(gs: seq<Group>, byRule: seq<bool>, keep: seq<bool>, left: nat, c: Counter) {
    && |gs| == |byRule| == |keep|
    && forall i {:trigger FitsBehind(gs, byRule, keep, left, c, i)} | 0 <= i < |gs| && !byRule[i] ::
         keep[i] <==> FitsBehind(gs, byRule, keep, left, c, i)
  }

  lemma {:induction false} ExtraSnoc(gs: seq<Group>, byRule: seq<bool>, keep: seq<bool>, i: nat, c: Counter)
    requires |gs| == |byRule| == |keep| > 0 && i < |gs|
    ensures var n := |gs| - 1;
            ExtraFrom(gs, byRule, keep, i, c)
            == ExtraFrom(gs[..n], byRule[..n], keep[..n], i, c) + if keep[n] && !byRule[n] then GroupTokens(gs[n], c) else 0
    decreases |gs| - i
  {
    if i < |gs| - 1 {
      ExtraSnoc(gs, byRule, keep, i + 1, c);
    } else {
      assert ExtraFrom(gs, byRule, keep, i + 1, c) == 0;
    }
  }

  lemma {:induction false} KeepDropsOnlyWhatDoesNotFit(gs: seq<Group>, byRule: seq<bool>, left: nat, c: Counter)
    requires |gs| == |byRule|
    ensures DropsOnlyWhatDoesNotFit(gs, byRule, Keep(gs, byRule, left, c), left, c)
    ensures forall i | 0 <= i < |gs| :: byRule[i] ==> Keep(gs, byRule, left, c)[i]
  {
    if gs != [] {
      var n := |gs| - 1;
      var keep := Keep(gs, byRule, left, c);
      var extra := if keep[n] && !byRule[n] then GroupTokens(gs[n], c) else 0;
      KeepDropsOnlyWhatDoesNotFit(gs[..n], byRule[..n], left - extra, c);
      assert keep[..n] == Keep(gs[..n], byRule[..n], left - extra, c);
      FrontDropsCarryOver(gs, byRule, keep, left, c);
    }
  }

  lemma {:induction false} FrontDropsCarryOver(gs: seq<Group>, byRule: seq<bool>, keep: seq<bool>, left: nat,
                                               c: Counter)
    requires |gs| == |byRule| == |keep| > 0
    requires var n := |gs| - 1;
             var extra := if keep[n] && !byRule[n] then GroupTokens(gs[n], c) else 0;
             && extra <= left && (!byRule[n] ==> (keep[n] <==> GroupTokens(gs[n], c) <= left))
             && DropsOnlyWhatDoesNotFit(gs[..n], byRule[..n], keep[..n], left - extra, c)
    ensures DropsOnlyWhatDoesNotFit(gs, byRule, keep, left, c)
  {
    var n := |gs| - 1;
    forall i | 0 <= i < |gs| && !byRule[i]
      ensures keep[i] <==> FitsBehind(gs, byRule, keep, left, c, i)
    {
      if i < n {
        var extra := if keep[n] && !byRule[n] then GroupTokens(gs[n], c) else 0;
        assert keep[i] <==> FitsBehind(gs[..n], byRule[..n], keep[..n], left - extra, c, i);
        if i + 1 < n {
          ExtraSnoc(gs, byRule, keep, i + 1, c);
        } else {
          assert ExtraFrom(gs[..n], byRule[..n], keep[..n], n, c) == 0;
          ExtraSnoc(gs, byRule, keep, n, c);
        }
        assert gs[..n][i] == gs[i] && byRule[..n][i] == byRule[i] && keep[..n][i] == keep[i];
      } else {
        assert ExtraFrom(gs, byRule, keep, n + 1, c) == 0;
      }
    }
  }

  /** The rule leaves no choice: one selection fits the description, so the budget is used as greedily from
      the newest group back as it can be. */
  lemma {:induction false} SelectionIsUnique(gs: seq<Group>, byRule: seq<bool>, a: seq<bool>, b: seq<bool>, left: nat,
                                             c: Counter, i: nat)
    requires DropsOnlyWhatDoesNotFit(gs, byRule, a, left, c) && DropsOnlyWhatDoesNotFit(gs, byRule, b, left, c)
    requires forall j | 0 <= j < |gs| && byRule[j] :: a[j] && b[j]
    requires i <= |gs|
    ensures forall j | i <= j < |gs| :: a[j] == b[j]
    ensures ExtraFrom(gs, byRule, a, i, c) == ExtraFrom(gs, byRule, b, i, c)
    decreases |gs| - i
  {
    if i < |gs| {
      SelectionIsUnique(gs, byRule, a, b, left, c, i + 1);
      if !byRule[i] {
        assert a[i] <==> FitsBehind(gs, byRule, a, left, c, i);
        assert b[i] <==> FitsBehind(gs, byRule, b, left, c, i);
      }
    }
  }

  /** Which groups the policy keeps whatever they cost: the first if it says so, the most recent ones, and those with a
      protected message. */
  ghost predicate RuleFlags(p: Policy, gs: seq<Group>, byRule: seq<bool>) {
    && |byRule| == |gs|
    && forall i | 0 <= i < |gs| ::
         byRule[i] <==> (i == 0 && p.preserveFirst) || i + p.preserveRecent >= |gs| || exists m | m in gs[i] :: m.isProtected
  }

  /** The tokens of the flagged groups from `i` on. */
  function Weigh(gs: seq<Group>, flags: seq<bool>, i: nat, c: Counter): nat
    requires |flags| == |gs| && i <= |gs|
    decreases |gs| - i
  {
    if i == |gs| then 0 else (if flags[i] then GroupTokens(gs[i], c) else 0) + Weigh(gs, flags, i + 1, c)
  }

  /** A truncation to a budget: all groups kept by rule stay. If they alone use up the budget nothing else does; otherwise
      each other group stays exactly if it fits together with them and with the newer groups that stay. */
  ghost predicate FitsBudget(gs: seq<Group>, byRule: seq<bool>, keep: seq<bool>, budget: int, c: Counter) {
    && |byRule| == |keep| == |gs|
    && (forall i | 0 <= i < |gs| && byRule[i] :: keep[i])
    && var fixed := Weigh(gs, byRule, 0, c);
       && (fixed >= budget ==> forall i | 0 <= i < |gs| && keep[i] :: byRule[i])
       && (fixed < budget ==>
             forall i | 0 <= i < |gs| && !byRule[i] ::
               keep[i] <==> fixed + ExtraFrom(gs, byRule, keep, i + 1, c) + GroupTokens(gs[i], c) <= budget)
  }

  /** The groups that stay, in their order and nothing else. */
  ghost predicate Picks(gs: seq<Group>, keep: seq<bool>, kept: seq<Group>, at: seq<nat>) {
    && |keep| == |gs| && |at| == |kept|
    && (forall j | 0 <= j < |at| :: at[j] < |gs| && keep[at[j]] && kept[j] == gs[at[j]])
    && (forall j, k | 0 <= j < k < |at| :: at[j] < at[k])
    && forall i | 0 <= i < |gs| && keep[i] :: i in at
  }

  lemma {:induction false} WeighSelected(gs: seq<Group>, flags: seq<bool>, i: nat, c: Counter)
    requires |flags| == |gs| && i <= |gs|
    ensures Weigh(gs, flags, i, c) == Tokens(Select(gs[i..], flags[i..]), c)
    decreases |gs| - i
  {
    if i < |gs| {
      WeighSelected(gs, flags, i + 1, c);
      assert gs[i..][1..] == gs[i + 1..] && flags[i..][1..] == flags[i + 1..];
      TokensConcat(if flags[i] then [gs[i]] else [], Select(gs[i + 1..], flags[i + 1..]), c);
      assert Tokens([gs[i]], c) == GroupTokens(gs[i], c) + Tokens([gs[i]][1..], c) == GroupTokens(gs[i], c);
    }
  }

  lemma {:induction false} SelectPicks(gs: seq<Group>, keep: seq<bool>) returns (at: seq<nat>)
    requires |gs| == |keep|
    ensures Picks(gs, keep, Select(gs, keep), at)
  {
    at := [];
    if gs != [] {
      var n := |gs| - 1;
      at := SelectPicks(gs[..n], keep[..n]);
      SelectSnoc(gs, keep);
      if keep[n] {
        at := at + [n];
      }
    }
  }

  lemma {:induction false} FlagsAreRule(p: Policy, gs: seq<Group>)
    ensures RuleFlags(p, gs, Flags(p, gs))
  {
    var byRule := Flags(p, gs);
    forall i | 0 <= i < |gs|
      ensures byRule[i] <==>
              (i == 0 && p.preserveFirst) || i + p.preserveRecent >= |gs| || exists m | m in gs[i] :: m.isProtected
    {
      if HasProtected(gs[i]) {
        var j :| 0 <= j < |gs[i]| && gs[i][j].isProtected;
        assert gs[i][j] in gs[i];
      }
    }
  }

  /** What truncation drops, and only that, is what does not fit beside the groups kept by rule and the newer ones. */
  lemma {:induction false} TruncateFitsBudget(p: Policy, gs: seq<Group>, budget: int, c: Counter)
    ensures RuleFlags(p, gs, Flags(p, gs))
    ensures FitsBudget(gs, Flags(p, gs), KeepFlags(p, gs, budget, c), budget, c)
  {
    var byRule, keep := Flags(p, gs), KeepFlags(p, gs, budget, c);
    FlagsAreRule(p, gs);
    WeighSelected(gs, byRule, 0, c);
    assert gs[0..] == gs && byRule[0..] == byRule;
    var fixed := Weigh(gs, byRule, 0, c);
    assert fixed == ByRuleTokens(p, gs, c);
    if fixed < budget {
      KeepDropsOnlyWhatDoesNotFit(gs, byRule, budget - fixed, c);
      forall i | 0 <= i < |gs| && !byRule[i]
        ensures keep[i] <==> fixed + ExtraFrom(gs, byRule, keep, i + 1, c) + GroupTokens(gs[i], c) <= budget
      {
        assert keep[i] <==> FitsBehind(gs, byRule, keep, budget - fixed, c, i);
      }
    }
  }

  /** The documented order: there is a point before which every group not kept by rule is dropped, and from
      which every group is kept. */
  ghost predicate OldestDroppedFirst(byRule: seq<bool>, keep: seq<bool>) {
    |byRule| == |keep| && exists cut :: CutAt(byRule, keep, cut)
  }

  ghost predicate CutAt(byRule: seq<bool>, keep: seq<bool>, cut: int) {
    |byRule| == |keep| && 0 <= cut <= |keep| && forall i | 0 <= i < |keep| && !byRule[i] :: keep[i] <==> i >= cut
  }

  /** Walking back from the newest group: once a group does not fit, no older group fits into what is left. */
  predicate NoSmallerOlderGroup(gs: seq<Group>, byRule: seq<bool>, left: nat, c: Counter)
    requires |gs| == |byRule|
  {
    gs == [] ||
    var n := |gs| - 1;
    if byRule[n] then NoSmallerOlderGroup(gs[..n], byRule[..n], left, c)
    else if GroupTokens(gs[n], c) <= left then NoSmallerOlderGroup(gs[..n], byRule[..n], left - GroupTokens(gs[n], c), c)
    else forall i | 0 <= i < n && !byRule[i] :: GroupTokens(gs[i], c) > left
  }

  /** The newest group, when it is kept, has no part in whether the oldest go first. */
  lemma {:induction false} NewestKept(byRule: seq<bool>, keep: seq<bool>)
    requires |byRule| == |keep| > 0 && keep[|keep| - 1]
    ensures var n := |keep| - 1; OldestDroppedFirst(byRule, keep) <==> OldestDroppedFirst(byRule[..n], keep[..n])
  {
    var n := |keep| - 1;
    if OldestDroppedFirst(byRule, keep) {
      var cut :| CutAt(byRule, keep, cut);
      assert CutAt(byRule[..n], keep[..n], if cut <= n then cut else n);
    }
    if OldestDroppedFirst(byRule[..n], keep[..n]) {
      var cut :| CutAt(byRule[..n], keep[..n], cut);
      assert CutAt(byRule, keep, cut);
    }
  }

  /** The oldest groups are dropped first exactly when that condition on the sizes holds: otherwise a small
      old group outlives a larger newer one. */
  lemma {:induction false} OldestFirstIff(gs: seq<Group>, byRule: seq<bool>, left: nat, c: Counter)
    requires |gs| == |byRule|
    ensures OldestDroppedFirst(byRule, Keep(gs, byRule, left, c)) <==> NoSmallerOlderGroup(gs, byRule, left, c)
  {
    var keep := Keep(gs, byRule, left, c);
    if gs == [] {
      assert CutAt(byRule, keep, 0);
    } else {
      var n := |gs| - 1;
      var t := GroupTokens(gs[n], c);
      if byRule[n] || t <= left {
        var left' := if byRule[n] then left else left - t;
        OldestFirstIff(gs[..n], byRule[..n], left', c);
        assert keep[..n] == Keep(gs[..n], byRule[..n], left', c);
        NewestKept(byRule, keep);
      } else {
        AllDroppedIff(gs[..n], byRule[..n], left, c);
        assert keep[..n] == Keep(gs[..n], byRule[..n], left, c);
        if OldestDroppedFirst(byRule, keep) {
          var cut :| CutAt(byRule, keep, cut);
          assert !keep[n] && cut > n;
          assert forall i | 0 <= i < n && !byRule[..n][i] :: !keep[..n][i];
        }
        if forall i | 0 <= i < n && !byRule[i] :: GroupTokens(gs[i], c) > left {
          assert CutAt(byRule, keep, |keep|);
        }
      }
    }
  }

  lemma {:induction false} AllDroppedIff(gs: seq<Group>, byRule: seq<bool>, left: nat, c: Counter)
    requires |gs| == |byRule|
    ensures (forall i | 0 <= i < |gs| && !byRule[i] :: !Keep(gs, byRule, left, c)[i])
            <==> (forall i | 0 <= i < |gs| && !byRule[i] :: GroupTokens(gs[i], c) > left)
  {
    if gs != [] {
      var n := |gs| - 1;
      var keep := Keep(gs, byRule, left, c);
      if byRule[n] || GroupTokens(gs[n], c) > left {
        AllDroppedIff(gs[..n], byRule[..n], left, c);
        assert keep[..n] == Keep(gs[..n], byRule[..n], left, c);
        assert forall i | 0 <= i < n :: gs[..n][i] == gs[i] && byRule[..n][i] == byRule[i] && keep[..n][i] == keep[i];
      } else {
        assert keep[n];
      }
    }
  }

  /** The documented order fails as soon as a small old group fits where a larger newer one does not. */
  lemma {:induction false} SmallOldGroupOutlives(gs: seq<Group>, left: nat, c: Counter)
    requires |gs| == 2 && GroupTokens(gs[0], c) <= left < GroupTokens(gs[1], c)
    ensures Keep(gs, [false, false], left, c) == [true, false]
    ensures !OldestDroppedFirst([false, false], Keep(gs, [false, false], left, c))
  {
    assert [false, false][..1] == [false] && gs[..1][0] == gs[0] && [false][..0] == [];
    assert Keep(gs[..1], [false], left, c) == [true];
    if OldestDroppedFirst([false, false], [true, false]) {
      var cut :| CutAt([false, false], [true, false], cut);
    }
  }

  /** With groups of one size the documented order is kept. */
  lemma {:induction false} UniformSizesDropOldestFirst(gs: seq<Group>, byRule: seq<bool>, left: nat, c: Counter,
                                                       size: nat)
    requires |gs| == |byRule| && forall i | 0 <= i < |gs| && !byRule[i] :: GroupTokens(gs[i], c) == size
    ensures OldestDroppedFirst(byRule, Keep(gs, byRule, left, c))
  {
    UniformSizes(gs, byRule, left, c, size);
    OldestFirstIff(gs, byRule, left, c);
  }

  lemma {:induction false} UniformSizes(gs: seq<Group>, byRule: seq<bool>, left: nat, c: Counter, size: nat)
    requires |gs| == |byRule| && forall i | 0 <= i < |gs| && !byRule[i] :: GroupTokens(gs[i], c) == size
    ensures NoSmallerOlderGroup(gs, byRule, left, c)
  {
    if gs != [] {
      var n := |gs| - 1;
      if byRule[n] {
        UniformSizes(gs[..n], byRule[..n], left, c, size);
      } else if GroupTokens(gs[n], c) <= left {
        UniformSizes(gs[..n], byRule[..n], left - GroupTokens(gs[n], c), c, size);
      }
    }
  }

  /******* Truncating twice *******/

  lemma {:induction false} SelectAll(gs: seq<Group>, keep: seq<bool>)
    requires |gs| == |keep| && forall i | 0 <= i < |gs| :: keep[i]
    ensures Select(gs, keep) == gs
  {
    if gs != [] {
      SelectAll(gs[1..], keep[1..]);
    }
  }

  /** Selecting by some flags leaves room for everything else in the remaining tokens. */
  lemma {:induction false} KeepAllWhenItFits(gs: seq<Group>, byRule: seq<bool>, left: nat, c: Counter)
    requires |gs| == |byRule|
    requires Tokens(gs, c) <= Tokens(Select(gs, byRule), c) + left
    ensures forall i | 0 <= i < |gs| :: Keep(gs, byRule, left, c)[i]
  {
    KeptIsSelected(gs, byRule, c);
    KeepAllWithin(gs, byRule, left, c);
  }

  lemma {:induction false} KeepAllWithin(gs: seq<Group>, byRule: seq<bool>, left: nat, c: Counter)
    requires |gs| == |byRule| && Tokens(gs, c) <= Kept(gs, byRule, c) + left
    ensures forall i | 0 <= i < |gs| :: Keep(gs, byRule, left, c)[i]
  {
    if gs != [] {
      var n := |gs| - 1;
      TokensSnoc(gs, c);
      KeptAtMost(gs[..n], byRule[..n], c);
      KeepAllWithin(gs[..n], byRule[..n], if byRule[n] then left else left - GroupTokens(gs[n], c), c);
    }
  }

  lemma {:induction false} KeptAtMost(gs: seq<Group>, keep: seq<bool>, c: Counter)
    requires |gs| == |keep|
    ensures Kept(gs, keep, c) <= Tokens(gs, c)
  {
    if gs != [] {
      TokensSnoc(gs, c);
      KeptAtMost(gs[..|gs| - 1], keep[..|gs| - 1], c);
    }
  }

  lemma {:induction false} TokensSnoc(gs: seq<Group>, c: Counter)
    requires gs != []
    ensures var n := |gs| - 1; Tokens(gs, c) == Tokens(gs[..n], c) + GroupTokens(gs[n], c)
  {
    var n := |gs| - 1;
    assert gs == gs[..n] + [gs[n]];
    TokensConcat(gs[..n], [gs[n]], c);
    assert Tokens([gs[n]], c) == GroupTokens(gs[n], c) + Tokens([gs[n]][1..], c) == GroupTokens(gs[n], c);
  }

  lemma {:induction false} SelectAtMost(gs: seq<Group>, keep: seq<bool>, c: Counter)
    requires |gs| == |keep|
    ensures Tokens(Select(gs, keep), c) <= Tokens(gs, c)
    ensures (forall i | 0 <= i < |gs| :: gs[i] != []) && Tokens(Select(gs, keep), c) == Tokens(gs, c) ==>
              forall i | 0 <= i < |gs| :: keep[i]
  {
    if gs != [] {
      SelectAtMost(gs[1..], keep[1..], c);
      TokensConcat(if keep[0] then [gs[0]] else [], Select(gs[1..], keep[1..]), c);
      assert Tokens([gs[0]], c) == GroupTokens(gs[0], c) + Tokens([gs[0]][1..], c) == GroupTokens(gs[0], c);
    }
  }

  /** Where a selected group comes from: not nearer to the end than it was, and the first stays first. */
  lemma {:induction false} SelectedFrom(gs: seq<Group>, keep: seq<bool>, j: nat) returns (i: nat)
    requires |gs| == |keep| && j < |Select(gs, keep)|
    ensures i < |gs| && keep[i] && gs[i] == Select(gs, keep)[j] && |Select(gs, keep)| - j <= |gs| - i
    ensures (j > 0 ==> i > 0) && (i == 0 ==> j == 0)
  {
    var rest := Select(gs[1..], keep[1..]);
    SelectLength(gs[1..], keep[1..]);
    if keep[0] && j == 0 {
      i := 0;
    } else {
      var k := SelectedFrom(gs[1..], keep[1..], if keep[0] then j - 1 else j);
      i := k + 1;
    }
  }

  lemma {:induction false} SelectLength(gs: seq<Group>, keep: seq<bool>)
    requires |gs| == |keep|
    ensures |Select(gs, keep)| <= |gs|
  {
    if gs != [] {
      SelectLength(gs[1..], keep[1..]);
    }
  }

  /** A selection of well-grouped groups is well grouped, so it survives flattening and regrouping. */
  lemma {:induction false} SelectWellGrouped(gs: seq<Group>, keep: seq<bool>)
    requires |gs| == |keep| && WellGrouped(gs)
    ensures WellGrouped(Select(gs, keep))
  {
    var s := Select(gs, keep);
    forall j | 0 <= j < |s| ensures WellFormed(s[j]) && (j >= 1 ==> s[j][0].role != ToolResult) {
      var i := SelectedFrom(gs, keep, j);
    }
  }

  /** Groups that fit the budget together, each with some tokens, are all kept. */
  lemma {:induction false} FittingIsUntouched(p: Policy, gs: seq<Group>, budget: int, c: Counter)
    requires Tokens(gs, c) <= budget && forall i | 0 <= i < |gs| :: gs[i] != []
    ensures Truncate(p, gs, budget, c) == gs
  {
    var byRule := Flags(p, gs);
    var fixed := Tokens(Select(gs, byRule), c);
    SelectAtMost(gs, byRule, c);
    if fixed < budget {
      KeepAllWhenItFits(gs, byRule, budget - fixed, c);
    }
    SelectAll(gs, KeepFlags(p, gs, budget, c));
  }

  /** Groups that are all kept by rule are all kept. */
  lemma {:induction false} RuledIsUntouched(p: Policy, gs: seq<Group>, budget: int, c: Counter)
    requires forall i | 0 <= i < |gs| :: Protected(p, gs, i)
    ensures Truncate(p, gs, budget, c) == gs
  {
    TruncateSound(p, gs, budget, c);
    SelectAll(gs, KeepFlags(p, gs, budget, c));
  }

  /** A group selected because it is kept by rule is still kept by rule among the selected groups. */
  lemma {:induction false} StillProtected(p: Policy, gs: seq<Group>, keep: seq<bool>)
    requires |gs| == |keep| && forall i | 0 <= i < |gs| :: keep[i] ==> Protected(p, gs, i)
    ensures forall j | 0 <= j < |Select(gs, keep)| :: Protected(p, Select(gs, keep), j)
  {
    forall j | 0 <= j < |Select(gs, keep)| ensures Protected(p, Select(gs, keep), j) {
      var i := SelectedFrom(gs, keep, j);
    }
  }

  /** Truncating a truncated list again, to the same budget, changes nothing. */
  lemma {:induction false} TruncateIdempotent(p: Policy, gs: seq<Group>, budget: int, c: Counter)
    requires WellGrouped(gs)
    ensures Truncate(p, Truncate(p, gs, budget, c), budget, c) == Truncate(p, gs, budget, c)
  {
    var keep := KeepFlags(p, gs, budget, c);
    TruncateSound(p, gs, budget, c);
    if ByRuleTokens(p, gs, c) < budget {
      SelectWellGrouped(gs, keep);
      var kept := Select(gs, keep);
      assert forall j | 0 <= j < |kept| :: WellFormed(kept[j]);
      FittingIsUntouched(p, kept, budget, c);
    } else {
      StillProtected(p, gs, keep);
      RuledIsUntouched(p, Select(gs, keep), budget, c);
    }
  }

  /******* Preparing a conversation *******/

  /** `trigger` is the largest total that is still left alone. */
  datatype Config = Config(limit: nat, reserve: nat, trigger: int, policy: Policy)

  /** A manager for a context window of `limit` tokens that acts above a share of what is available. */
  function Configure(limit: nat, reserve: nat, threshold: real, policy: Policy): Config {
    Config(limit, reserve, ((limit - reserve) as real * threshold).Floor, policy)
  }

  /** A total is left alone exactly when it is at most that share, and such a total always fits. */
  lemma {:induction false} TriggerIsShare(limit: nat, reserve: nat, threshold: real, policy: Policy, total: nat)
    requires 0.0 < threshold <= 1.0 && reserve < limit
    ensures total <= Configure(limit, reserve, threshold, policy).trigger
            <==> total as real <= (limit - reserve) as real * threshold
    ensures Configure(limit, reserve, threshold, policy).trigger <= limit - reserve
  {
    Share((limit - reserve) as real, threshold);
    FloorOf(total, limit - reserve, (limit - reserve) as real * threshold);
  }

  lemma {:induction false} FloorOf(total: nat, available: int, share: real)
    requires share <= available as real
    ensures total <= share.Floor <==> total as real <= share
    ensures share.Floor <= available
  {
  }

  lemma {:induction false} Share(available: real, threshold: real)
    requires 0.0 <= available && threshold <= 1.0
    ensures available * threshold <= available
  {
    var rest := 1.0 - threshold;
    assert available * rest >= 0.0;
    assert available * threshold == available * (1.0 - rest) == available - available * rest;
  }

  function MessageTotal(ms: seq<Message>, c: Counter): nat {
    if ms == [] then 0 else MessageTokens(ms[0], c) + MessageTotal(ms[1..], c)
  }

  /** `overhead` is what the system prompt and the tool schemas take. */
  function Prepare(k: Config, overhead: nat, ms: seq<Message>, c: Counter): seq<Message> {
    if overhead + MessageTotal(ms, c) <= k.trigger then ms
    else Fit(k.policy, ms, k.limit - k.reserve - overhead, c)
  }

  function Fit(p: Policy, ms: seq<Message>, budget: int, c: Counter): seq<Message> {
    Flatten(Truncate(p, GroupMessages(ms), budget, c))
  }

  lemma {:induction false} FlattenTotal(gs: seq<Group>, c: Counter)
    ensures MessageTotal(Flatten(gs), c) == Tokens(gs, c)
  {
    if gs != [] {
      FlattenTotal(gs[1..], c);
      TotalConcat(gs[0], Flatten(gs[1..]), c);
      GroupTotal(gs[0], c);
    }
  }

  lemma {:induction false} GroupTotal(g: Group, c: Counter)
    ensures MessageTotal(g, c) == GroupTokens(g, c)
  {
    if g != [] {
      GroupTotal(g[1..], c);
    }
  }

  lemma {:induction false} TotalConcat(a: seq<Message>, b: seq<Message>, c: Counter)
    ensures MessageTotal(a + b, c) == MessageTotal(a, c) + MessageTotal(b, c)
  {
    if a == [] {
      assert a + b == b;
    } else {
      assert (a + b)[1..] == a[1..] + b;
      TotalConcat(a[1..], b, c);
    }
  }

  /** Preparing a prepared conversation again changes nothing, whichever side of the threshold it is on. */
  lemma {:induction false} PrepareIdempotent(k: Config, overhead: nat, ms: seq<Message>, c: Counter)
    ensures Prepare(k, overhead, Prepare(k, overhead, ms, c), c) == Prepare(k, overhead, ms, c)
  {
    var gs := GroupMessages(ms);
    var budget := k.limit - k.reserve - overhead;
    var kept := Truncate(k.policy, gs, budget, c);
    GroupingKeepsMessages(ms);
    SelectWellGrouped(gs, KeepFlags(k.policy, gs, budget, c));
    RegroupingIsIdentity(kept);
    TruncateIdempotent(k.policy, gs, budget, c);
  }

  lemma {:induction false} TruncatedFits(p: Policy, ms: seq<Message>, budget: int, c: Counter)
    requires ByRuleTokens(p, GroupMessages(ms), c) < budget
    ensures MessageTotal(Fit(p, ms, budget, c), c) <= budget
  {
    var gs := GroupMessages(ms);
    TruncateSound(p, gs, budget, c);
    FlattenTotal(Truncate(p, gs, budget, c), c);
  }

  lemma {:induction false} PreparedFits(k: Config, overhead: nat, ms: seq<Message>, c: Counter, r: seq<Message>)
    requires k.trigger <= k.limit - k.reserve
    requires overhead + ByRuleTokens(k.policy, GroupMessages(ms), c) < k.limit - k.reserve
    requires r == Prepare(k, overhead, ms, c)
    ensures overhead + MessageTotal(r, c) <= k.limit - k.reserve
    ensures overhead + MessageTotal(ms, c) <= k.trigger ==> r == ms
  {
    var budget := k.limit - k.reserve - overhead;
    if overhead + MessageTotal(ms, c) > k.trigger {
      assert r == Fit(k.policy, ms, budget, c);
      TruncatedFits(k.policy, ms, budget, c);
    }
  }

  /** A manager configured to act above a share of what is available prepares a conversation to fit what the model may
      be sent whenever the groups kept by rule are below the message budget; a conversation up to that share is not
      touched. */
  lemma {:induction false} PrepareFits(limit: nat, reserve: nat, threshold: real, policy: Policy, overhead: nat,
                                       ms: seq<Message>,
                    c: Counter)
    requires 0.0 < threshold <= 1.0 && reserve < limit
    requires overhead + ByRuleTokens(policy, GroupMessages(ms), c) < limit - reserve
    ensures var r := Prepare(Configure(limit, reserve, threshold, policy), overhead, ms, c);
            && overhead + MessageTotal(r, c) <= limit - reserve
            && ((overhead + MessageTotal(ms, c)) as real <= (limit - reserve) as real * threshold ==> r == ms)
  {
    TriggerIsShare(limit, reserve, threshold, policy, overhead + MessageTotal(ms, c));
    var k := Configure(limit, reserve, threshold, policy);
    PreparedFits(k, overhead, ms, c, Prepare(k, overhead, ms, c));
  }

  /** A conversation over the threshold is cut down to groups of it that a truncation to the message budget keeps; one up
      to the threshold is left alone. */
  lemma {:induction false} PrepareFitsBudget(k: Config, overhead: nat, ms: seq<Message>, c: Counter)
      returns (byRule: seq<bool>, keep: seq<bool>, kept: seq<Group>, at: seq<nat>)
    ensures overhead + MessageTotal(ms, c) <= k.trigger ==> Prepare(k, overhead, ms, c) == ms
    ensures overhead + MessageTotal(ms, c) > k.trigger ==>
              && Prepare(k, overhead, ms, c) == Flatten(kept)
              && WellGrouped(GroupMessages(ms)) && Flatten(GroupMessages(ms)) == ms
              && RuleFlags(k.policy, GroupMessages(ms), byRule)
              && FitsBudget(GroupMessages(ms), byRule, keep, k.limit - k.reserve - overhead, c)
              && Picks(GroupMessages(ms), keep, kept, at)
  {
    var gs, budget := GroupMessages(ms), k.limit - k.reserve - overhead;
    byRule, keep, kept := Flags(k.policy, gs), KeepFlags(k.policy, gs, budget, c), Truncate(k.policy, gs, budget, c);
    GroupingKeepsMessages(ms);
    TruncateFitsBudget(k.policy, gs, budget, c);
    at := SelectPicks(gs, keep);
  }

  /** All texts a message is counted by. */
  function TextsOf(m: Message): seq<string> {
    (if m.content == "" then [] else [m.content]) + CallTexts(m.calls)
  }

  function CallTexts(calls: seq<(string, string)>): seq<string> {
    if calls == [] then [] else CallTexts(calls[..|calls| - 1]) + [calls[|calls| - 1].0, calls[|calls| - 1].1]
  }

  function AllTexts(ms: seq<Message>): seq<string> {
    if ms == [] then [] else AllTexts(ms[..|ms| - 1]) + TextsOf(ms[|ms| - 1])
  }

  function Counted(texts: seq<string>, c: Counter): nat {
    if texts == [] then 0 else Counted(texts[..|texts| - 1], c) + c(texts[|texts| - 1])
  }

  lemma {:induction false} CountedConcat(a: seq<string>, b: seq<string>, c: Counter)
    ensures Counted(a + b, c) == Counted(a, c) + Counted(b, c)
  {
    if b == [] {
      assert a + b == a;
    } else {
      assert (a + b)[..|a + b| - 1] == a + b[..|b| - 1];
      CountedConcat(a, b[..|b| - 1], c);
    }
  }

  lemma {:induction false} CallsAreCounted(calls: seq<(string, string)>, c: Counter)
    ensures CallTokens(calls, c) == Counted(CallTexts(calls), c)
  {
    if calls != [] {
      var n := |calls| - 1;
      CallsAreCounted(calls[..n], c);
      var pair := [calls[n].0, calls[n].1];
      CountedConcat(CallTexts(calls[..n]), pair, c);
      assert pair[..1] == [calls[n].0] && [calls[n].0][..0] == [];
      assert Counted([calls[n].0], c) == c(calls[n].0);
      CallTokensSnoc(calls, c);
    }
  }

  lemma {:induction false} CallTokensSnoc(calls: seq<(string, string)>, c: Counter)
    requires calls != []
    ensures var n := |calls| - 1; CallTokens(calls, c) == CallTokens(calls[..n], c) + c(calls[n].0) + c(calls[n].1)
  {
    var n := |calls| - 1;
    if n > 0 {
      CallTokensSnoc(calls[1..], c);
      assert calls[1..][..n - 1] == calls[..n][1..];
    }
  }

  /** A conversation counts four tokens for every message and the tokens of all its texts: contents that are not empty, and
      names and arguments of tool calls. */
  lemma {:induction false} TotalIsTexts(ms: seq<Message>, c: Counter)
    ensures MessageTotal(ms, c) == 4 * |ms| + Counted(AllTexts(ms), c)
  {
    if ms != [] {
      var front, last := ms[..|ms| - 1], ms[|ms| - 1];
      TotalIsTexts(front, c);
      assert ms == front + [last];
      TotalConcat(front, [last], c);
      assert [last][1..] == [] && MessageTotal([last], c) == MessageTokens(last, c);
      var content := if last.content == "" then [] else [last.content];
      CountedConcat(content, CallTexts(last.calls), c);
      assert [last.content][..0] == [];
      CallsAreCounted(last.calls, c);
      CountedConcat(AllTexts(front), TextsOf(last), c);
    }
  }

  /******* The loops *******/

  /** Walks the groups as the policy does: collects the groups kept by rule, then the others from the newest
      back, as long as each fits into what is left. */
  method TruncateInLoop(p: Policy, gs: seq<Group>, budget: int, c: Counter)
      returns (kept: seq<Group>, ghost byRule: seq<bool>, ghost keep: seq<bool>, ghost at: seq<nat>)
    ensures kept == Truncate(p, gs, budget, c)
    ensures RuleFlags(p, gs, byRule) && FitsBudget(gs, byRule, keep, budget, c) && Picks(gs, keep, kept, at)
  {
    kept := Walk(p, gs, budget, c);
    byRule, keep := Flags(p, gs), KeepFlags(p, gs, budget, c);
    TruncateFitsBudget(p, gs, budget, c);
    at := SelectPicks(gs, keep);
  }

  method Walk(p: Policy, gs: seq<Group>, budget: int, c: Counter) returns (kept: seq<Group>)
    ensures kept == Truncate(p, gs, budget, c)
  {
    var byRule := Flags(p, gs);
    var selected := Pick(gs, byRule);
    var fixed := Total(selected, c);
    if fixed >= budget {
      return selected;
    }
    var left, keep, i := budget - fixed, byRule, |gs|;
    KeepFrontAll(gs, byRule, left, c);
    while i > 0
      invariant 0 <= i <= |gs| && |keep| == |gs| && left >= 0
      invariant keep[..i] == byRule[..i]
      invariant Keep(gs, byRule, budget - fixed, c) == Keep(gs[..i], byRule[..i], left, c) + keep[i..]
    {
      i := i - 1;
      var t := GroupTokens(gs[i], c);
      KeepFront(gs, byRule, keep, left, c, i);
      if !byRule[i] && t <= left {
        keep := keep[i := true];
        left := left - t;
      }
    }
    assert keep[0..] == keep && Keep(gs[..0], byRule[..0], left, c) == [];
    assert keep == KeepFlags(p, gs, budget, c);
    kept := Pick(gs, keep);
  }

  lemma {:induction false} KeepFrontAll(gs: seq<Group>, byRule: seq<bool>, left: nat, c: Counter)
    requires |gs| == |byRule|
    ensures Keep(gs, byRule, left, c) == Keep(gs[..|gs|], byRule[..|gs|], left, c) + byRule[|gs|..]
  {
    assert gs[..|gs|] == gs && byRule[..|gs|] == byRule && byRule[|gs|..] == [];
  }

  /** One step of the walk back. */
  lemma {:induction false} KeepFront(gs: seq<Group>, byRule: seq<bool>, keep: seq<bool>, left: nat, c: Counter, i: nat)
    requires i < |gs| == |byRule| == |keep| && keep[..i + 1] == byRule[..i + 1]
    ensures var take := !byRule[i] && GroupTokens(gs[i], c) <= left;
            var keep' := if take then keep[i := true] else keep;
            var left' := if take then left - GroupTokens(gs[i], c) else left;
            && keep'[..i] == byRule[..i]
            && Keep(gs[..i + 1], byRule[..i + 1], left, c) + keep[i + 1..] == Keep(gs[..i], byRule[..i], left', c) + keep'[i..]
  {
    var take := !byRule[i] && GroupTokens(gs[i], c) <= left;
    var keep' := if take then keep[i := true] else keep;
    assert keep[i] == keep[..i + 1][i] == byRule[..i + 1][i];
    assert keep[..i] == keep[..i + 1][..i] == byRule[..i + 1][..i] == byRule[..i];
    assert gs[..i + 1][..i] == gs[..i];
    assert keep'[i..] == [keep'[i]] + keep[i + 1..];
  }

  method Pick(gs: seq<Group>, keep: seq<bool>) returns (kept: seq<Group>)
    requires |gs| == |keep|
    ensures kept == Select(gs, keep)
  {
    kept := [];
    for i := 0 to |gs|
      invariant kept == Select(gs[..i], keep[..i])
    {
      SelectSnoc(gs[..i + 1], keep[..i + 1]);
      assert gs[..i + 1][..i] == gs[..i] && keep[..i + 1][..i] == keep[..i];
      if keep[i] {
        kept := kept + [gs[i]];
      }
    }
    assert gs[..|gs|] == gs && keep[..|gs|] == keep;
  }

  method Total(gs: seq<Group>, c: Counter) returns (n: nat)
    ensures n == Tokens(gs, c)
  {
    n := 0;
    for i := 0 to |gs|
      invariant n == Tokens(gs[..i], c)
    {
      assert gs[..i + 1] == gs[..i] + [gs[i]];
      TokensConcat(gs[..i], [gs[i]], c);
      assert Tokens([gs[i]], c) == GroupTokens(gs[i], c) + Tokens([gs[i]][1..], c);
      n := n + GroupTokens(gs[i], c);
    }
    assert gs[..|gs|] == gs;
  }
}
