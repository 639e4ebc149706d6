/** The `#N` references inside plan arguments. */
module Substitution {
  import opened Decimals

  datatype Token = Lit(c: char) | Ref(digits: string)

  /** How many digits a text starts with. */
  function DigitRun(s: string): (n: nat)
    ensures n <= |s|
    ensures forall i | 0 <= i < n :: IsDigit(s[i])
    ensures n < |s| ==> !IsDigit(s[n])
  {
    if s != "" && IsDigit(s[0]) then 1 + DigitRun(s[1..]) else 0
  }

  /** Scans from the left; a reference is a hash sign with all the digits that follow it. */
  function Tokenize(s: string): seq<Token>
    decreases |s|
  {
    if s == "" then [] else
    var d := DigitRun(s[1..]);
    if s[0] == '#' && d > 0 then [Ref(s[1..1 + d])] + Tokenize(s[1 + d..])
    else [Lit(s[0])] + Tokenize(s[1..])
  }

  function Render(ts: seq<Token>): string {
    if ts == [] then "" else Text(ts[0]) + Render(ts[1..])
  }

  function Text(t: Token): string {
    match t case Lit(c) => [c] case Ref(digits) => ['#'] + digits
  }

  lemma {:induction false} RenderCons(t: Token, ts: seq<Token>)
    ensures Render([t] + ts) == Text(t) + Render(ts)
  {
    assert ([t] + ts)[1..] == ts;
  }

  lemma {:induction false} SplitAfter(s: string, d: nat)
    requires 1 + d <= |s|
    ensures s == ([s[0]] + s[1..1 + d]) + s[1 + d..]
  {
  }

  function DigitValue(c: char): (v: nat)
    ensures v < 10
  {
    if IsDigit(c) then (c - '0') as nat else 0
  }

  function Number(digits: string): nat {
    if digits == "" then 0 else 10 * Number(digits[..|digits| - 1]) + DigitValue(digits[|digits| - 1])
  }

  /** Scanning loses nothing. */
  lemma {:induction false} RenderTokenize(s: string)
    ensures Render(Tokenize(s)) == s
    decreases |s|
  {
    if s != "" {
      var d := DigitRun(s[1..]);
      if s[0] == '#' && d > 0 {
        RenderTokenize(s[1 + d..]);
        RenderCons(Ref(s[1..1 + d]), Tokenize(s[1 + d..]));
        SplitAfter(s, d);
      } else {
        RenderTokenize(s[1..]);
        RenderCons(Lit(s[0]), Tokenize(s[1..]));
        SplitAfter(s, 0);
      }
    }
  }

  lemma {:induction false} DigitRunExact(digits: string, rest: string)
    requires forall i | 0 <= i < |digits| :: IsDigit(digits[i])
    requires rest == "" || !IsDigit(rest[0])
    ensures DigitRun(digits + rest) == |digits|
  {
    if digits != "" {
      assert (digits + rest)[1..] == digits[1..] + rest;
      DigitRunExact(digits[1..], rest);
    } else {
      assert digits + rest == rest;
    }
  }

  /** Leading zeros do not count. */
  lemma {:induction false} NumberZeros(zeros: string, n: nat)
    requires forall i | 0 <= i < |zeros| :: zeros[i] == '0'
    ensures Number(zeros + Decimal(n)) == n
  {
    DecimalDigits(n);
    var s := zeros + Decimal(n);
    if n >= 10 {
      NumberZeros(zeros, n / 10);
      assert s[..|s| - 1] == zeros + Decimal(n / 10);
    } else {
      ZerosAreZero(zeros);
      assert s[..|s| - 1] == zeros;
    }
  }

  lemma {:induction false} ZerosAreZero(zeros: string)
    requires forall i | 0 <= i < |zeros| :: zeros[i] == '0'
    ensures Number(zeros) == 0
  {
    if zeros != "" {
      ZerosAreZero(zeros[..|zeros| - 1]);
    }
  }

  /** A reference is a hash and all the digits after it; a decimal number is read as that number, with leading zeros
      or without. */
  lemma {:induction false} ReferenceIsRead(zeros: string, n: nat, rest: string)
    requires forall i | 0 <= i < |zeros| :: zeros[i] == '0'
    requires rest == "" || !IsDigit(rest[0])
    ensures Tokenize(['#'] + (zeros + Decimal(n)) + rest) == [Ref(zeros + Decimal(n))] + Tokenize(rest)
    ensures Number(zeros + Decimal(n)) == n
  {
    DecimalDigits(n);
    NumberZeros(zeros, n);
    var digits := zeros + Decimal(n);
    DigitRunExact(digits, rest);
    var s := ['#'] + digits + rest;
    assert s[1..] == digits + rest;
    assert s[1..1 + |digits|] == digits;
    assert s[1 + |digits|..] == rest;
  }

  lemma {:induction false} DigitRunSplit(a: string, b: string)
    requires b == "" || !IsDigit(b[0])
    ensures DigitRun(a + b) == DigitRun(a)
  {
    if a == "" {
      assert a + b == b;
    } else {
      assert (a + b)[1..] == a[1..] + b;
      DigitRunSplit(a[1..], b);
    }
  }

  lemma {:induction false} ConsConcat(t: Token, ts: seq<Token>, us: seq<Token>)
    ensures [t] + (ts + us) == [t] + ts + us
  {
  }

  lemma {:induction false} FirstSplit(a: string, b: string)
    requires a != "" && DigitRun(a[1..] + b) == DigitRun(a[1..])
    ensures var d := DigitRun(a[1..]);
            if a[0] == '#' && d > 0 then Tokenize(a + b) == [Ref(a[1..1 + d])] + Tokenize(a[1 + d..] + b)
            else Tokenize(a + b) == [Lit(a[0])] + Tokenize(a[1..] + b)
  {
    var s, d := a + b, DigitRun(a[1..]);
    assert s[1..] == a[1..] + b;
    assert s[1 + d..] == a[1 + d..] + b && s[1..1 + d] == a[1..1 + d];
  }

  /** A text can be read in two parts, unless the cut separates digits from what they follow. */
  lemma {:induction false} TokenizeSplit(a: string, b: string)
    requires b == "" || !IsDigit(b[0])
    ensures Tokenize(a + b) == Tokenize(a) + Tokenize(b)
    decreases |a|
  {
    if a == "" {
      assert a + b == b;
    } else {
      DigitRunSplit(a[1..], b);
      FirstSplit(a, b);
      var d := DigitRun(a[1..]);
      if a[0] == '#' && d > 0 {
        TokenizeSplit(a[1 + d..], b);
        ConsConcat(Ref(a[1..1 + d]), Tokenize(a[1 + d..]), Tokenize(b));
      } else {
        TokenizeSplit(a[1..], b);
        ConsConcat(Lit(a[0]), Tokenize(a[1..]), Tokenize(b));
      }
    }
  }

  /** The step numbers a token list refers to. */
  function TokenRefs(ts: seq<Token>): set<int> {
    if ts == [] then {} else (if ts[0].Ref? then {Number(ts[0].digits)} else {}) + TokenRefs(ts[1..])
  }

  function Refs(s: string): set<int> {
    TokenRefs(Tokenize(s))
  }

  function Unavailable(n: nat): string {
    "[Step #" + Decimal(n) + " failed or not available]"
  }

  function Expand(ts: seq<Token>, results: map<int, string>): string {
    if ts == [] then "" else
    (match ts[0]
     case Lit(c) => [c]
     case Ref(digits) => if Number(digits) in results then results[Number(digits)] else Unavailable(Number(digits)))
    + Expand(ts[1..], results)
  }

  /** Replaces every reference by the result of the step it names; replaced text is not scanned again. */
  function Substitute(s: string, results: map<int, string>): string {
    Expand(Tokenize(s), results)
  }

  ghost predicate Agree(refs: set<int>, a: map<int, string>, b: map<int, string>) {
    forall r | r in refs :: (r in a <==> r in b) && (r in a ==> a[r] == b[r])
  }

  /** A substitution depends on the results of the referenced steps and on nothing else. */
  lemma {:induction false} ExpandAgree(ts: seq<Token>, a: map<int, string>, b: map<int, string>)
    requires Agree(TokenRefs(ts), a, b)
    ensures Expand(ts, a) == Expand(ts, b)
  {
    if ts != [] {
      if ts[0].Ref? {
        assert Number(ts[0].digits) in TokenRefs(ts);
      }
      ExpandAgree(ts[1..], a, b);
    }
  }

  lemma {:induction false} ExpandConcat(ts: seq<Token>, us: seq<Token>, results: map<int, string>)
    ensures Expand(ts + us, results) == Expand(ts, results) + Expand(us, results)
  {
    if ts == [] {
      assert ts + us == us;
    } else {
      assert (ts + us)[1..] == ts[1..] + us;
      ExpandConcat(ts[1..], us, results);
    }
  }

  lemma {:induction false} ExpandRef(digits: string, n: nat, ts: seq<Token>, results: map<int, string>)
    requires Number(digits) == n
    ensures Expand([Ref(digits)] + ts, results) ==
              (if n in results then results[n] else "[Step #" + Decimal(n) + " failed or not available]") + Expand(ts, results)
  {
    assert ([Ref(digits)] + ts)[1..] == ts;
  }

  /** The result of a finished step, or a note that there is none, stands where the reference stood; what is around the
      reference is substituted for itself. */
  lemma {:induction false} SubstituteReference(a: string, zeros: string, n: nat, b: string, results: map<int, string>)
    requires forall i | 0 <= i < |zeros| :: zeros[i] == '0'
    requires b == "" || !IsDigit(b[0])
    ensures Substitute(a + (['#'] + (zeros + Decimal(n)) + b), results) ==
              Substitute(a, results)
              + ((if n in results then results[n] else "[Step #" + Decimal(n) + " failed or not available]")
                 + Substitute(b, results))
  {
    var digits := zeros + Decimal(n);
    var rest := ['#'] + digits + b;
    ReferenceIsRead(zeros, n, b);
    ExpandRef(digits, n, Tokenize(b), results);
    TokenizeSplit(a, rest);
    ExpandConcat(Tokenize(a), Tokenize(rest), results);
  }

  /** A hash that is followed by no digit is no reference, and nothing else is one. */
  predicate MentionsNone(s: string) {
    forall i | 0 <= i < |s| - 1 && s[i] == '#' :: !IsDigit(s[i + 1])
  }

  lemma {:induction false} NoMentionNoRefs(s: string)
    requires MentionsNone(s)
    ensures Refs(s) == {}
    decreases |s|
  {
    if s != "" {
      var t := s[1..];
      forall i | 0 <= i < |t| - 1 && t[i] == '#' ensures !IsDigit(t[i + 1]) {
        assert s[i + 1] == '#';
      }
      assert s[0] == '#' && |t| > 0 ==> !IsDigit(t[0]);
      NoMentionNoRefs(t);
    }
  }

  /** A text that mentions no step is passed on as it is. */
  lemma {:induction false} SubstituteVerbatim(s: string, results: map<int, string>)
    requires MentionsNone(s)
    ensures Substitute(s, results) == s
  {
    NoMentionNoRefs(s);
    ExpandWithoutRefs(Tokenize(s), results);
    RenderTokenize(s);
  }

  /** An argument that is one reference is replaced by the result itself. */
  lemma {:induction false} SubstituteWhole(n: nat, results: map<int, string>)
    requires n in results
    ensures Substitute(['#'] + Decimal(n), results) == results[n]
  {
    ReferenceIsRead("", n, "");
    var digits := "" + Decimal(n);
    assert digits == Decimal(n) && ['#'] + digits + "" == ['#'] + Decimal(n);
    ExpandRef(digits, n, [], results);
    assert results[n] + "" == results[n];
  }

  /** A text without references is left alone. */
  lemma {:induction false} ExpandWithoutRefs(ts: seq<Token>, a: map<int, string>)
    requires TokenRefs(ts) == {}
    ensures Expand(ts, a) == Render(ts)
  {
    if ts != [] {
      assert TokenRefs(ts[1..]) <= TokenRefs(ts);
      assert ts[0].Lit?;
      ExpandWithoutRefs(ts[1..], a);
    }
  }

  /** Making one referenced result available, with the empty text, shortens the text. */
  lemma {:induction false} ExpandShorter(ts: seq<Token>, a: map<int, string>, r: int)
    requires r !in a
    ensures r in TokenRefs(ts) ==> |Expand(ts, a[r := ""])| < |Expand(ts, a)|
    ensures r !in TokenRefs(ts) ==> Expand(ts, a[r := ""]) == Expand(ts, a)
  {
    if ts != [] {
      ExpandShorter(ts[1..], a, r);
    }
  }
}
