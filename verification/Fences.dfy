/** The Markdown fence scanner: comment preambles, fenced blocks, and the annotation that skips one. */
module Fences {
  import opened Values

  predicate Word(c: char) {
    'a' <= c <= 'z' || 'A' <= c <= 'Z' || '0' <= c <= '9' || c == '_'
  }

  predicate Blank(c: char) {
    c == ' ' || c == '\t' || c == '\n' || c == '\r' || c == '\U{000B}' || c == '\U{000C}'
  }

  predicate StartsWith(s: string, p: string) {
    |p| <= |s| && s[..|p|] == p
  }

  const OPEN := "<!--"
  const SHUT := "-->"
  const TICKS := "```"

  /******* The scanner, on what is left of the text *******/

  /** Where the first `>` is, or the length. */
  function Gt(s: string): (n: nat)
    ensures n <= |s| && (n < |s| ==> s[n] == '>') && forall i | 0 <= i < n :: s[i] != '>'
  {
    if s == "" || s[0] == '>' then 0 else 1 + Gt(s[1..])
  }

  /** Skips blanks up to and including the last line end among them. */
  function AfterBlankLines(s: string): (r: Option<string>)
    ensures r.Some? ==> |r.value| < |s|
  {
    if s == "" || !Blank(s[0]) then None else
    match AfterBlankLines(s[1..])
    case Some(rest) => Some(rest)
    case None => if s[0] == '\n' then Some(s[1..]) else None
  }

  /** Reads one comment line (or several lines) with the blank lines after it. */
  function CommentHere(s: string): (r: Option<string>)
    ensures r.Some? ==> |r.value| < |s|
  {
    if !StartsWith(s, OPEN) then None else
    var t := s[4..];
    var g := Gt(t);
    if g < |t| && g >= 2 && t[g - 2..g] == "--" then AfterBlankLines(t[g + 1..]) else None
  }

  /** What follows the longest run of comments. */
  function AfterComments(s: string): (r: string)
    ensures |r| <= |s|
    decreases |s|
  {
    match CommentHere(s)
    case None => s
    case Some(rest) => AfterComments(rest)
  }

  function WordRun(s: string): (n: nat)
    ensures n <= |s| && (forall i | 0 <= i < n :: Word(s[i])) && (n < |s| ==> !Word(s[n]))
  {
    if s == "" || !Word(s[0]) then 0 else 1 + WordRun(s[1..])
  }

  /** Where the first line that starts with three backticks begins. */
  function Close(s: string, lineStart: bool): (r: Option<nat>)
    ensures r.Some? ==> r.value + 3 <= |s|
  {
    if lineStart && StartsWith(s, TICKS) then Some(0)
    else if s == "" then None
    else match Close(s[1..], s[0] == '\n') case Some(i) => Some(i + 1) case None => None
  }

  datatype Snippet = Snippet(preamble: string, lang: string, body: string)

  datatype Found = Found(snippet: Snippet, rest: string)

  datatype Block = Block(lang: string, body: string, rest: string)

  /** Reads a fenced block. */
  function FenceHere(f: string): (r: Option<Block>)
    ensures r.Some? ==> |r.value.rest| < |f|
  {
    if !StartsWith(f, TICKS) then None else
    var n := WordRun(f[3..]);
    if n == 0 || 3 + n >= |f| || f[3..][n] != '\n' then None else
    var b := f[3..][n + 1..];
    match Close(b, true)
    case None => None
    case Some(i) => Some(Block(f[3..][..n], b[..i], b[i..][3..]))
  }

  /** Reads a preamble and a fenced block at the start of a line. */
  function MatchHere(s: string): (r: Option<Found>)
    ensures r.Some? ==> |r.value.rest| < |s|
  {
    var f := AfterComments(s);
    match FenceHere(f)
    case None => None
    case Some(b) => Some(Found(Snippet(s[..|s| - |f|], b.lang, b.body), b.rest))
  }

  /** All blocks, from left to right, each search going on where the last match ended. */
  function Extract(s: string, lineStart: bool): seq<Snippet>
    decreases |s|
  {
    if lineStart && MatchHere(s).Some? then
      [MatchHere(s).value.snippet] + Extract(MatchHere(s).value.rest, false)
    else if s == "" then []
    else Extract(s[1..], s[0] == '\n')
  }

  /******* The pattern, declaratively *******/

  predicate NoGt(s: string) {
    forall i | 0 <= i < |s| :: s[i] != '>'
  }

  predicate AllBlank(s: string) {
    forall i | 0 <= i < |s| :: Blank(s[i])
  }

  /** A comment from a line start, and the blanks after it up to a line end. */
  datatype Comment = Comment(inner: string, gap: string)

  predicate GoodComment(c: Comment) {
    NoGt(c.inner) && AllBlank(c.gap)
  }

  /** A comment, and what follows it. */
  function CommentThen(c: Comment, t: string): string {
    OPEN + (c.inner + (SHUT + (c.gap + ("\n" + t))))
  }

  function CommentsThen(cs: seq<Comment>, t: string): string {
    if cs == [] then t else CommentThen(cs[0], CommentsThen(cs[1..], t))
  }

  predicate GoodComments(cs: seq<Comment>) {
    forall i | 0 <= i < |cs| :: GoodComment(cs[i])
  }

  predicate EndsLine(s: string) {
    s == "" || s[|s| - 1] == '\n'
  }

  predicate IsWord(s: string) {
    s != "" && forall i | 0 <= i < |s| :: Word(s[i])
  }

  function FenceThen(lang: string, body: string, rest: string): string {
    TICKS + (lang + ("\n" + (body + (TICKS + rest))))
  }

  /** One way of reading `s` as comments, an opening fence, a body that ends at a line start, a closing fence and a
      rest. */
  ghost predicate Reads(s: string, cs: seq<Comment>, lang: string, body: string, rest: string) {
    GoodComments(cs) && IsWord(lang) && EndsLine(body) && s == CommentsThen(cs, FenceThen(lang, body, rest))
  }

  /******* Blanks and comments *******/

  lemma {:induction false} Head(s: string, p: string)
    requires StartsWith(s, p)
    ensures s == p + s[|p|..]
  {
  }

  lemma {:induction false} AtChar(s: string, n: nat)
    requires n < |s|
    ensures s == s[..n] + ([s[n]] + s[n + 1..])
  {
  }

  lemma {:induction false} AtMark(s: string, i: nat)
    requires i + 3 <= |s| && s[i..i + 3] == TICKS
    ensures s == s[..i] + (TICKS + s[i..][3..])
  {
    assert s[i..] == s[i..i + 3] + s[i..][3..];
  }

  lemma {:induction false} AtShut(s: string, g: nat)
    requires 2 <= g < |s| && s[g - 2..g] == "--" && s[g] == '>'
    ensures s == s[..g - 2] + (SHUT + s[g + 1..])
  {
    assert s[g - 2..] == s[g - 2..g] + ([s[g]] + s[g + 1..]);
    assert s == s[..g - 2] + s[g - 2..];
  }

  lemma {:induction false} BlanksAreSkipped(gap: string, t: string)
    requires AllBlank(gap) && t != "" && !Blank(t[0])
    ensures AfterBlankLines(gap + ("\n" + t)) == Some(t)
  {
    if gap == "" {
      assert ("\n" + t)[1..] == t;
      assert gap + ("\n" + t) == "\n" + t;
    } else {
      BlanksAreSkipped(gap[1..], t);
      assert (gap + ("\n" + t))[1..] == gap[1..] + ("\n" + t);
    }
  }

  lemma {:induction false} SkippedWereBlank(s: string) returns (gap: string)
    requires AfterBlankLines(s).Some?
    ensures AllBlank(gap) && s == gap + ("\n" + AfterBlankLines(s).value)
  {
    if AfterBlankLines(s[1..]).Some? {
      var more := SkippedWereBlank(s[1..]);
      gap := [s[0]] + more;
      assert s == [s[0]] + s[1..];
    } else {
      gap := "";
      assert s == "\n" + s[1..];
    }
  }

  lemma {:induction false} GtAt(a: string, b: string)
    requires NoGt(a)
    ensures Gt(a + (SHUT + b)) == |a| + 2
  {
    if a == "" {
      var u := SHUT + b;
      assert a + u == u && u[0] == '-' && u[1..][0] == '-' && u[1..][1..][0] == '>';
    } else {
      GtAt(a[1..], b);
      assert (a + (SHUT + b))[1..] == a[1..] + (SHUT + b);
    }
  }

  lemma {:induction false} CommentIsRead(c: Comment, t: string)
    requires GoodComment(c) && t != "" && !Blank(t[0])
    ensures CommentHere(CommentThen(c, t)) == Some(t)
  {
    var after := c.gap + ("\n" + t);
    var u := c.inner + (SHUT + after);
    assert (OPEN + u)[..4] == OPEN && (OPEN + u)[4..] == u;
    GtAt(c.inner, after);
    TailAfter(c.inner, after);
    BlanksAreSkipped(c.gap, t);
  }

  lemma {:induction false} TailAfter(a: string, b: string)
    ensures var u := a + (SHUT + b); |u| == |a| + 3 + |b| && u[|a|..|a| + 2] == "--" && u[|a| + 3..] == b
  {
  }

  lemma {:induction false} ReadIsComment(s: string) returns (c: Comment)
    requires CommentHere(s).Some?
    ensures GoodComment(c) && s == CommentThen(c, CommentHere(s).value)
  {
    var t := s[4..];
    var g := Gt(t);
    var gap := SkippedWereBlank(t[g + 1..]);
    c := Comment(t[..g - 2], gap);
    Head(s, OPEN);
    AtShut(t, g);
  }

  lemma {:induction false} StartsSolid(cs: seq<Comment>, f: string)
    requires f != "" && !Blank(f[0])
    ensures var s := CommentsThen(cs, f); s != "" && !Blank(s[0])
  {
    if cs != [] {
      assert CommentsThen(cs, f)[0] == OPEN[0];
    }
  }

  lemma {:induction false} CommentsAreRead(cs: seq<Comment>, f: string)
    requires GoodComments(cs) && f != "" && f[0] == '`'
    ensures AfterComments(CommentsThen(cs, f)) == f
  {
    if cs != [] {
      StartsSolid(cs[1..], f);
      CommentIsRead(cs[0], CommentsThen(cs[1..], f));
      CommentsAreRead(cs[1..], f);
    } else {
      assert |f| >= 4 ==> f[..4][0] == f[0];
    }
  }

  lemma {:induction false} ReadAreComments(s: string) returns (cs: seq<Comment>)
    ensures GoodComments(cs) && s == CommentsThen(cs, AfterComments(s))
    decreases |s|
  {
    if CommentHere(s).None? {
      cs := [];
    } else {
      var c := ReadIsComment(s);
      var more := ReadAreComments(CommentHere(s).value);
      cs := [c] + more;
      assert cs[1..] == more;
    }
  }

  lemma {:induction false} PreambleIs(cs: seq<Comment>, t: string)
    ensures CommentsThen(cs, t) == CommentsThen(cs, "") + t
  {
    if cs == [] {
      assert "" + t == t;
    } else {
      PreambleIs(cs[1..], t);
      CommentShifts(cs[0], CommentsThen(cs[1..], ""), t);
    }
  }

  lemma {:induction false} CommentShifts(c: Comment, a: string, t: string)
    ensures CommentThen(c, a + t) == CommentThen(c, a) + t
  {
    Shift("\n", a, t);
    Shift(c.gap, "\n" + a, t);
    Shift(SHUT, c.gap + ("\n" + a), t);
    Shift(c.inner, SHUT + (c.gap + ("\n" + a)), t);
    Shift(OPEN, c.inner + (SHUT + (c.gap + ("\n" + a))), t);
  }

  lemma {:induction false} Shift(a: string, b: string, t: string)
    ensures a + (b + t) == (a + b) + t
  {
  }

  /******* Bodies *******/

  /** A line start: the beginning, or right after a line end. */
  predicate LineStart(s: string, i: nat, first: bool)
    requires i <= |s|
  {
    if i == 0 then first else s[i - 1] == '\n'
  }

  /** The closing fence found is the first one. */
  lemma {:induction false} CloseIsFirst(s: string, first: bool, i: nat)
    requires i + 3 <= |s| && LineStart(s, i, first) && s[i..i + 3] == TICKS
    ensures Close(s, first).Some? && Close(s, first).value <= i
    decreases |s|
  {
    if !(first && StartsWith(s, TICKS)) {
      assert i > 0;
      var t := s[1..];
      assert t[i - 1..i - 1 + 3] == s[i..i + 3];
      CloseIsFirst(t, s[0] == '\n', i - 1);
    }
  }

  lemma {:induction false} SliceShifts(s: string, i: nat, n: nat)
    requires s != "" && i + 1 + n <= |s|
    ensures s[1..][i..i + n] == s[i + 1..i + 1 + n]
  {
  }

  lemma {:induction false} CloseIsAtLineStart(s: string, first: bool)
    requires Close(s, first).Some?
    ensures var i := Close(s, first).value; LineStart(s, i, first) && s[i..i + 3] == TICKS
    decreases |s|
  {
    if !(first && StartsWith(s, TICKS)) {
      CloseIsAtLineStart(s[1..], s[0] == '\n');
      var i := Close(s[1..], s[0] == '\n').value;
      SliceShifts(s, i, 3);
    }
  }

  lemma {:induction false} WordRunIs(w: string, rest: string)
    requires forall i | 0 <= i < |w| :: Word(w[i])
    ensures WordRun(w + ("\n" + rest)) == |w|
  {
    if w == "" {
      assert w + ("\n" + rest) == "\n" + rest;
    } else {
      WordRunIs(w[1..], rest);
      assert (w + ("\n" + rest))[1..] == w[1..] + ("\n" + rest);
    }
  }

  /******* The scanner finds exactly what the pattern describes *******/

  lemma {:induction false} FenceIsRead(lang: string, body: string, rest: string)
    requires IsWord(lang) && EndsLine(body)
    ensures var b := FenceHere(FenceThen(lang, body, rest)); b.Some? && b.value.lang == lang && b.value.body <= body
  {
    var b := body + (TICKS + rest);
    OpeningIsRead(lang, b);
    ClosingShows(body, rest);
    CloseIsFirst(b, true, |body|);
  }

  /** The opening line is read, whatever follows it. */
  lemma {:induction false} OpeningIsRead(lang: string, b: string)
    requires IsWord(lang)
    ensures var l := lang + ("\n" + b);
            && StartsWith(TICKS + l, TICKS) && (TICKS + l)[3..] == l && WordRun(l) == |lang| && |lang| < |l|
            && l[..|lang|] == lang && l[|lang|] == '\n' && l[|lang| + 1..] == b
  {
    WordRunIs(lang, b);
    var l := lang + ("\n" + b);
    assert (TICKS + l)[..3] == TICKS;
  }

  lemma {:induction false} ClosingShows(body: string, rest: string)
    requires EndsLine(body)
    ensures var b := body + (TICKS + rest);
            && |body| + 3 <= |b| && b[|body|..|body| + 3] == TICKS && b[..|body|] == body && b[|body|..][3..] == rest
            && LineStart(b, |body|, true)
  {
    var b := body + (TICKS + rest);
    assert b[|body|..] == TICKS + rest;
  }

  lemma {:induction false} FoundIsFence(f: string)
    requires FenceHere(f).Some?
    ensures var b := FenceHere(f).value; IsWord(b.lang) && EndsLine(b.body) && f == FenceThen(b.lang, b.body, b.rest)
  {
    var l := f[3..];
    var n := WordRun(l);
    var b := l[n + 1..];
    FoundBody(b);
    var i := Close(b, true).value;
    Head(f, TICKS);
    AtChar(l, n);
    Assembles(f, l, l[..n], b, b[..i], b[i..][3..]);
  }

  lemma {:induction false} FoundBody(b: string)
    requires Close(b, true).Some?
    ensures var i := Close(b, true).value; EndsLine(b[..i]) && b == b[..i] + (TICKS + b[i..][3..])
  {
    CloseIsAtLineStart(b, true);
    AtMark(b, Close(b, true).value);
    LastBefore(b, Close(b, true).value);
  }

  lemma {:induction false} Assembles(f: string, l: string, lang: string, b: string, body: string, rest: string)
    requires f == TICKS + l && l == lang + ("\n" + b) && b == body + (TICKS + rest)
    ensures f == FenceThen(lang, body, rest)
  {
  }

  lemma {:induction false} LastBefore(b: string, i: nat)
    requires i <= |b| && LineStart(b, i, true)
    ensures EndsLine(b[..i])
  {
  }

  /** Whenever the text can be read by the pattern, the scanner finds a match: the same comments, the same language
      and the shortest body. */
  lemma {:induction false} PatternIsFound(s: string, cs: seq<Comment>, lang: string, body: string, rest: string)
    requires Reads(s, cs, lang, body, rest)
    ensures Agrees(s, cs, lang, body)
  {
    var f := FenceThen(lang, body, rest);
    assert f[0] == '`';
    CommentsAreRead(cs, f);
    PreambleIs(cs, f);
    FenceIsRead(lang, body, rest);
  }

  /** The scanner finds a match here with these comments, this language and no longer a body. */
  ghost predicate Agrees(s: string, cs: seq<Comment>, lang: string, body: string) {
    var m := MatchHere(s);
    m.Some? && m.value.snippet.preamble == CommentsThen(cs, "") && m.value.snippet.lang == lang && m.value.snippet.body <= body
  }

  /** What the scanner finds can be read by the pattern. */
  lemma {:induction false} FoundIsPattern(s: string) returns (cs: seq<Comment>)
    requires MatchHere(s).Some?
    ensures var m := MatchHere(s).value;
            m.snippet.preamble == CommentsThen(cs, "") && Reads(s, cs, m.snippet.lang, m.snippet.body, m.rest)
  {
    cs := ReadAreComments(s);
    PreambleIs(cs, AfterComments(s));
    FoundIsFence(AfterComments(s));
  }

  /** The scanner matches at a line start exactly when the pattern does, and then it takes the shortest body: every
      other reading has the same preamble and language and a body that goes on further. */
  lemma {:induction false} ScannerIsPattern(s: string)
    ensures MatchHere(s).Some? <==> exists cs, lang, body, rest :: Reads(s, cs, lang, body, rest)
    ensures forall cs, lang, body, rest | Reads(s, cs, lang, body, rest) :: Agrees(s, cs, lang, body)
  {
    forall cs, lang, body, rest | Reads(s, cs, lang, body, rest) ensures Agrees(s, cs, lang, body) {
      PatternIsFound(s, cs, lang, body, rest);
    }
    if MatchHere(s).Some? {
      var cs := FoundIsPattern(s);
    }
  }

  /******* The search through a text *******/

  /** A match begins at a place: a line start where the scanner matches. */
  predicate MatchesAt(text: string, p: nat)
    requires p <= |text|
  {
    (p == 0 || text[p - 1] == '\n') && MatchHere(text[p..]).Some?
  }

  /** The blocks of a text from `from` on: each search takes the first place where a match begins, and the next one goes
      on where that match ended, until there is no such place. */
  ghost predicate Leftmost(text: string, from: nat, at: seq<nat>, found: seq<Snippet>)
    decreases |found|
  {
    && |at| == |found| && from <= |text|
    && if found == [] then forall q | from <= q <= |text| :: !MatchesAt(text, q)
       else
         && from <= at[0] <= |text| && MatchesAt(text, at[0]) && (forall q | from <= q < at[0] :: !MatchesAt(text, q))
         && MatchHere(text[at[0]..]).value.snippet == found[0]
         && Leftmost(text, EndOf(text, at[0]), at[1..], found[1..])
  }

  lemma {:induction false} FencePrefix(lang: string, body: string, rest: string)
    ensures FenceThen(lang, body, rest) == (TICKS + (lang + ("\n" + body))) + (TICKS + rest)
  {
    Shift("\n", body, TICKS + rest);
    Shift(lang, "\n" + body, TICKS + rest);
    Shift(TICKS, lang + ("\n" + body), TICKS + rest);
  }

  lemma {:induction false} AfterTicks(s: string, x: string, rest: string)
    requires s == x + (TICKS + rest)
    ensures |rest| < |s| && s[|s| - |rest|..] == rest && s[|s| - |rest| - 1] == '`'
  {
  }

  lemma {:induction false} PatternEnds(s: string, cs: seq<Comment>, lang: string, body: string, rest: string)
    requires s == CommentsThen(cs, FenceThen(lang, body, rest))
    ensures |rest| < |s| && s[|s| - |rest|..] == rest && s[|s| - |rest| - 1] == '`'
  {
    var head := TICKS + (lang + ("\n" + body));
    PreambleIs(cs, FenceThen(lang, body, rest));
    FencePrefix(lang, body, rest);
    Shift(CommentsThen(cs, ""), head, TICKS + rest);
    AfterTicks(s, CommentsThen(cs, "") + head, rest);
  }

  /** A match ends with backticks, and what follows them is the rest of the text. */
  lemma {:induction false} MatchRest(s: string)
    requires MatchHere(s).Some?
    ensures var rest := MatchHere(s).value.rest;
            |rest| < |s| && s[|s| - |rest|..] == rest && s[|s| - |rest| - 1] == '`'
  {
    var cs := FoundIsPattern(s);
    var m := MatchHere(s).value;
    PatternEnds(s, cs, m.snippet.lang, m.snippet.body, m.rest);
  }

  /** Where the match that begins at `p` ends. */
  function EndOf(text: string, p: nat): (q: nat)
    requires p <= |text| && MatchHere(text[p..]).Some?
  {
    |text| - |MatchHere(text[p..]).value.rest|
  }

  lemma {:induction false} ExtractHere(text: string, p: nat)
    requires p <= |text| && MatchesAt(text, p)
    ensures var q := EndOf(text, p);
            && p < q <= |text| && text[q - 1] == '`'
            && Extract(text[p..], true) == [MatchHere(text[p..]).value.snippet] + Extract(text[q..], false)
  {
    MatchRest(text[p..]);
    assert text[EndOf(text, p)..] == MatchHere(text[p..]).value.rest;
  }

  lemma {:induction false} ExtractOn(text: string, p: nat, first: bool)
    requires p < |text| && !(first && MatchHere(text[p..]).Some?)
    ensures Extract(text[p..], first) == Extract(text[p + 1..], text[p] == '\n')
  {
    assert text[p..][1..] == text[p + 1..] && text[p..][0] == text[p];
  }

  lemma {:induction false} LeftmostOn(text: string, from: nat, at: seq<nat>, found: seq<Snippet>)
    requires from < |text| && !MatchesAt(text, from) && Leftmost(text, from + 1, at, found)
    ensures Leftmost(text, from, at, found)
  {
  }

  lemma {:induction false} ExtractIsLeftmost(text: string, from: nat, first: bool) returns (at: seq<nat>)
    requires from <= |text| && first == (from == 0 || text[from - 1] == '\n')
    ensures Leftmost(text, from, at, Extract(text[from..], first))
    decreases |text| - from
  {
    at := [];
    if MatchesAt(text, from) {
      ExtractHere(text, from);
      var rest := ExtractIsLeftmost(text, EndOf(text, from), false);
      at := [from] + rest;
      assert at[1..] == rest;
    } else if from < |text| {
      ExtractOn(text, from, first);
      at := ExtractIsLeftmost(text, from + 1, text[from] == '\n');
      LeftmostOn(text, from, at, Extract(text[from + 1..], text[from] == '\n'));
    }
  }

  /******* Round trip *******/

  /** Prose, then a block under its comments; the closing fence ends its line. */
  datatype Section = Section(prose: string, comments: seq<Comment>, lang: string, body: string)

  /** No line of the text starts with the given mark. */
  predicate NoLineStarts(s: string, mark: string) {
    forall i | 0 <= i < |s| :: LineStart(s, i, true) ==> !StartsWith(s[i..], mark)
  }

  /** No block can be read from the start of `s`, whatever follows `s`: it does not start with backticks, and if it
      starts with a comment, either that is not one after all, or something else follows it in `s`. */
  predicate Inert(s: string)
    decreases |s|
  {
    !StartsWith(s, TICKS) && (StartsWith(s, OPEN) ==> CommentIsSpent(s[4..]))
  }

  /** The text after an opened comment: the comment is closed in it, and what it is attached to is in it too. */
  predicate CommentIsSpent(t: string)
    decreases |t|
  {
    var g := Gt(t);
    && g < |t|
    && (g >= 2 && t[g - 2..g] == "--" ==>
          && !AllBlank(t[g + 1..])
          && var rest := AfterBlankLines(t[g + 1..]); rest.Some? ==> Inert(rest.value))
  }

  /** Prose of full lines from none of which a block could be read: comments may stand in it, but not as its last
      lines, where they would belong to the block that follows. */
  predicate Plain(prose: string) {
    EndsLine(prose) && forall i | 0 <= i < |prose| :: LineStart(prose, i, true) ==> Inert(prose[i..])
  }

  ghost predicate Renderable(x: Section) {
    && Plain(x.prose) && GoodComments(x.comments) && IsWord(x.lang)
    && EndsLine(x.body) && NoLineStarts(x.body, TICKS)
  }

  function Render(xs: seq<Section>, tail: string): string {
    if xs == [] then tail else
    xs[0].prose + CommentsThen(xs[0].comments, FenceThen(xs[0].lang, xs[0].body, "\n" + Render(xs[1..], tail)))
  }

  function Snippets(xs: seq<Section>): seq<Snippet> {
    if xs == [] then [] else
    [Snippet(CommentsThen(xs[0].comments, ""), xs[0].lang, xs[0].body)] + Snippets(xs[1..])
  }

  /** A body without a line of three backticks is read whole. */
  lemma {:induction false} BodyIsRead(body: string, first: bool, rest: string)
    requires (if body == "" then first else body[|body| - 1] == '\n')
    requires forall i | 0 <= i < |body| :: LineStart(body, i, first) ==> !StartsWith(body[i..], TICKS)
    ensures Close(body + (TICKS + rest), first) == Some(|body|)
  {
    var u := body + (TICKS + rest);
    if body == "" {
      assert u == TICKS + rest && u[..3] == TICKS;
    } else {
      assert u[1..] == body[1..] + (TICKS + rest);
      NotAcross(body, TICKS, TICKS + rest, first);
      forall i | 0 <= i < |body[1..]| && LineStart(body[1..], i, body[0] == '\n') ensures !StartsWith(body[1..][i..],
                                                                                                      TICKS) {
        assert body[1..][i..] == body[i + 1..] && LineStart(body, i + 1, first);
      }
      BodyIsRead(body[1..], body[0] == '\n', rest);
    }
  }

  /** A mark without a line end does not start a text that ends its line before the mark would. */
  lemma {:induction false} NotAcross(a: string, mark: string, b: string, first: bool)
    requires a != "" && a[|a| - 1] == '\n' && '\n' !in mark
    requires first ==> !StartsWith(a, mark) || LineStart(a, 0, first)
    ensures StartsWith(a + b, mark) ==> StartsWith(a, mark)
  {
    assert |a| <= |mark| <= |a + b| ==> (a + b)[..|mark|][|a| - 1] == a[|a| - 1];
    assert |a| <= |mark| ==> mark[|a| - 1] in mark;
    assert |mark| <= |a| ==> (a + b)[..|mark|] == a[..|mark|];
  }

  lemma {:induction false} GtSame(a: string, b: string)
    requires Gt(a) < |a|
    ensures Gt(a + b) == Gt(a)
  {
    if a[0] != '>' {
      assert (a + b)[1..] == a[1..] + b;
      GtSame(a[1..], b);
    }
  }

  /** Blank lines end where the first other character is. */
  lemma {:induction false} BlankLinesSame(a: string, b: string)
    requires !AllBlank(a)
    ensures match AfterBlankLines(a)
            case None => AfterBlankLines(a + b) == None
            case Some(rest) => rest != "" && (EndsLine(a) ==> EndsLine(rest)) && AfterBlankLines(a + b) == Some(rest + b)
  {
    if Blank(a[0]) {
      assert (a + b)[1..] == a[1..] + b;
      assert !AllBlank(a[1..]) by {
        var i :| 0 <= i < |a| && !Blank(a[i]);
        assert a[1..][i - 1] == a[i];
      }
      BlankLinesSame(a[1..], b);
    }
  }

  /** A spent comment is read alike whatever follows. */
  lemma {:induction false} SpentIsReadAlike(s: string, t: string)
    requires StartsWith(s, OPEN) && CommentIsSpent(s[4..]) && EndsLine(s)
    ensures match CommentHere(s)
            case None => CommentHere(s + t).None?
            case Some(rest) => rest != "" && EndsLine(rest) && Inert(rest) && CommentHere(s + t) == Some(rest + t)
  {
    var u := s[4..];
    var g := Gt(u);
    assert (s + t)[4..] == u + t && (s + t)[..4] == s[..4];
    GtSame(u, t);
    assert g >= 2 ==> (u + t)[g - 2..g] == u[g - 2..g];
    if g >= 2 && u[g - 2..g] == "--" {
      assert (u + t)[g + 1..] == u[g + 1..] + t;
      assert EndsLine(u[g + 1..]);
      BlankLinesSame(u[g + 1..], t);
    }
  }

  /** Nothing is read at an inert place. */
  lemma {:induction false} InertIsNoMatch(s: string, t: string)
    requires s != "" && EndsLine(s) && Inert(s)
    ensures FenceHere(AfterComments(s + t)).None?
    decreases |s|
  {
    assert s[0..] == s;
    NotAcross(s, TICKS, t, true);
    NotAcross(s, OPEN, t, true);
    if StartsWith(s, OPEN) {
      SpentIsReadAlike(s, t);
      if CommentHere(s).Some? {
        InertIsNoMatch(CommentHere(s).value, t);
      }
    }
  }

  /** Plain prose is skipped. */
  lemma {:induction false} ProseIsSkipped(prose: string, first: bool, t: string)
    requires (if prose == "" then first else prose[|prose| - 1] == '\n')
    requires forall i | 0 <= i < |prose| :: LineStart(prose, i, first) ==> Inert(prose[i..])
    ensures Extract(prose + t, first) == Extract(t, true)
  {
    if prose == "" {
      assert prose + t == t;
    } else {
      var u := prose + t;
      assert u[1..] == prose[1..] + t;
      if first {
        assert prose[0..] == prose;
        InertIsNoMatch(prose, t);
        assert MatchHere(u).None?;
      }
      forall i | 0 <= i < |prose[1..]| && LineStart(prose[1..], i, prose[0] == '\n') ensures Inert(prose[1..][i..]) {
        assert prose[1..][i..] == prose[i + 1..] && LineStart(prose, i + 1, first);
      }
      ProseIsSkipped(prose[1..], prose[0] == '\n', t);
    }
  }

  /** `r` is `s` or what is left of it from the start of a later line. */
  predicate LineTail(s: string, r: string) {
    |r| <= |s| && r == s[|s| - |r|..] && (|r| < |s| ==> s[|s| - |r| - 1] == '\n')
  }

  lemma {:induction false} LineTailOfTail(s: string, r: string, q: string)
    requires LineTail(s, r) && LineTail(r, q)
    ensures LineTail(s, q)
  {
    assert |q| < |r| ==> r[|r| - |q| - 1] == s[|s| - |q| - 1];
  }

  lemma {:induction false} CommentEndsLine(c: Comment, t: string)
    ensures LineTail(CommentThen(c, t), t)
  {
  }

  lemma {:induction false} AfterCommentsIsLine(s: string)
    ensures LineTail(s, AfterComments(s))
    decreases |s|
  {
    if CommentHere(s).Some? {
      var rest := CommentHere(s).value;
      var c := ReadIsComment(s);
      CommentEndsLine(c, rest);
      AfterCommentsIsLine(rest);
      LineTailOfTail(s, rest, AfterComments(rest));
    }
  }

  /** In a text without a line of backticks nothing is found, whatever comments it holds. */
  lemma {:induction false} TailIsSkipped(tail: string, first: bool)
    requires forall i | 0 <= i < |tail| :: LineStart(tail, i, first) ==> !StartsWith(tail[i..], TICKS)
    ensures Extract(tail, first) == []
  {
    if first {
      AfterCommentsIsLine(tail);
      var f := AfterComments(tail);
      assert f != "" ==> LineStart(tail, |tail| - |f|, first);
      assert MatchHere(tail).None?;
    }
    if tail != "" {
      forall i | 0 <= i < |tail[1..]| && LineStart(tail[1..], i, tail[0] == '\n') ensures !StartsWith(tail[1..][i..],
                                                                                                      TICKS) {
        assert tail[1..][i..] == tail[i + 1..] && LineStart(tail, i + 1, first);
      }
      TailIsSkipped(tail[1..], tail[0] == '\n');
    }
  }

  lemma {:induction false} SectionIsRead(x: Section, t: string)
    requires Renderable(x)
    ensures MatchHere(CommentsThen(x.comments, FenceThen(x.lang, x.body, t))) ==
              Some(Found(Snippet(CommentsThen(x.comments, ""), x.lang, x.body), t))
  {
    var f := FenceThen(x.lang, x.body, t);
    assert f[0] == '`';
    CommentsAreRead(x.comments, f);
    PreambleIs(x.comments, f);
    OpeningIsRead(x.lang, x.body + (TICKS + t));
    assert x.body[0..] == x.body;
    BodyIsRead(x.body, true, t);
    ClosingShows(x.body, t);
  }

  /** Rendering any sections and extracting again gives back exactly the blocks, in order, with their comments. */
  lemma {:induction false} ExtractRender(xs: seq<Section>, tail: string)
    requires (forall i | 0 <= i < |xs| :: Renderable(xs[i])) && NoLineStarts(tail, TICKS)
    ensures Extract(Render(xs, tail), true) == Snippets(xs)
  {
    if xs == [] {
      TailIsSkipped(tail, true);
    } else {
      var next := Render(xs[1..], tail);
      var block := CommentsThen(xs[0].comments, FenceThen(xs[0].lang, xs[0].body, "\n" + next));
      ProseIsSkipped(xs[0].prose, true, block);
      SectionIsRead(xs[0], "\n" + next);
      assert ("\n" + next)[1..] == next;
      ExtractRender(xs[1..], tail);
    }
  }

  /******* The annotation that skips a block *******/

  function LStrip(s: string): (r: string)
    ensures |r| <= |s|
  {
    if s == "" || !Blank(s[0]) then s else LStrip(s[1..])
  }

  function RStrip(s: string): string {
    if s == "" || !Blank(s[|s| - 1]) then s else RStrip(s[..|s| - 1])
  }

  function Strip(s: string): string {
    RStrip(LStrip(s))
  }

  /** What a marker here carries between the word and the end of the comment. */
  function MarkerTail(s: string): Option<string> {
    if !StartsWith(s, OPEN) then None else
    var t := LStrip(s[4..]);
    if !StartsWith(t, "verify:") then None else
    var u := LStrip(t[7..]);
    if !StartsWith(u, "skip") then None else
    var v := u[4..];
    var g := Gt(v);
    if g < |v| && g >= 2 && v[g - 2..g] == "--" then Some(v[..g - 2]) else None
  }

  /** The first marker in a preamble. */
  function FirstMarker(s: string): Option<string> {
    if MarkerTail(s).Some? then MarkerTail(s) else if s == "" then None else FirstMarker(s[1..])
  }

  predicate HasWord(s: string) {
    exists i :: 0 <= i < |s| && Word(s[i])
  }

  predicate IsDash(c: char) {
    c == '-' || c == '\U{2014}'
  }

  /** The reason in a tail; empty when it is missing, is not set off by a dash or has no word in it. */
  function Reason(tail: string): string {
    var t := Strip(tail);
    if t == "" || !IsDash(t[0]) then "" else
    var reason := Strip(t[1..]);
    if HasWord(reason) then reason else ""
  }

  /** No annotation, an annotation with a reason, or an invalid one (with an empty reason). */
  function SkipReason(preamble: string): Option<string> {
    match FirstMarker(preamble)
    case None => None
    case Some(tail) => Some(Reason(tail))
  }

  predicate Trimmed(s: string) {
    s != "" && !Blank(s[0]) && !Blank(s[|s| - 1])
  }

  lemma {:induction false} LStripPadded(a: string, r: string)
    requires AllBlank(a) && r != "" && !Blank(r[0])
    ensures LStrip(a + r) == r
  {
    if a == "" {
      assert a + r == r;
    } else {
      assert (a + r)[1..] == a[1..] + r;
      LStripPadded(a[1..], r);
    }
  }

  lemma {:induction false} RStripPadded(r: string, b: string)
    requires AllBlank(b) && Trimmed(r)
    ensures RStrip(r + b) == r
  {
    if b == "" {
      assert r + b == r;
    } else {
      assert (r + b)[..|r + b| - 1] == r + b[..|b| - 1];
      RStripPadded(r, b[..|b| - 1]);
    }
  }

  /** A comment that gives a reason: blanks may stand around every part. */
  function Annotation(a: string, b: string, d: string, dash: char, e: string, reason: string, g: string): Comment {
    Comment(a + ("verify:" + (b + ("skip" + (d + ([dash] + (e + (reason + g))))))), "")
  }

  lemma {:induction false} ReasonIsRead(d: string, dash: char, e: string, reason: string, g: string)
    requires AllBlank(d) && AllBlank(e) && AllBlank(g) && IsDash(dash) && Trimmed(reason) && HasWord(reason)
    ensures Reason(d + ([dash] + (e + (reason + g)))) == reason
  {
    var w := e + (reason + g);
    LStripPadded(d, [dash] + w);
    var core := [dash] + (e + reason);
    assert [dash] + w == core + g;
    assert core[|core| - 1] == reason[|reason| - 1];
    RStripPadded(core, g);
    assert core[1..] == e + reason;
    LStripPadded(e, reason);
    RStripPadded(reason, "");
    assert reason + "" == reason;
  }

  /** An annotated block is reported with exactly the reason it was given, whatever comments follow. */
  lemma {:induction false} AnnotationIsRead(a: string, b: string, d: string, dash: char, e: string, reason: string,
                                            g: string, t: string)
    requires AllBlank(a) && AllBlank(b) && AllBlank(d) && AllBlank(e) && AllBlank(g) && IsDash(dash)
    requires Trimmed(reason) && HasWord(reason) && NoGt(reason)
    ensures GoodComment(Annotation(a, b, d, dash, e, reason, g))
    ensures SkipReason(CommentThen(Annotation(a, b, d, dash, e, reason, g), t)) == Some(reason)
  {
    var tail := d + ([dash] + (e + (reason + g)));
    var close := SHUT + ("" + ("\n" + t));
    var v := tail + close;
    MarkerIsRead(a, b, tail, close[3..]);
    ReasonIsRead(d, dash, e, reason, g);
    NoGtInTail(d, dash, e, reason, g);
    GtAt(tail, close[3..]);
    assert SHUT + close[3..] == close;
    Regroup(a, b, tail, close);
    var s := CommentThen(Annotation(a, b, d, dash, e, reason, g), t);
    assert s == OPEN + (a + ("verify:" + (b + ("skip" + v))));
    assert MarkerTail(s) == Some(tail);
  }

  lemma {:induction false} NoGtInTail(d: string, dash: char, e: string, reason: string, g: string)
    requires AllBlank(d) && AllBlank(e) && AllBlank(g) && IsDash(dash) && NoGt(reason)
    ensures NoGt(d + ([dash] + (e + (reason + g))))
  {
  }

  lemma {:induction false} Regroup(a: string, b: string, tail: string, close: string)
    ensures a + ("verify:" + (b + ("skip" + tail))) + close == a + ("verify:" + (b + ("skip" + (tail + close))))
  {
    Shift("skip", tail, close);
    Shift(b, "skip" + tail, close);
    Shift("verify:", b + ("skip" + tail), close);
    Shift(a, "verify:" + (b + ("skip" + tail)), close);
  }

  lemma {:induction false} MarkerIsRead(a: string, b: string, tail: string, rest: string)
    requires AllBlank(a) && AllBlank(b) && NoGt(tail)
    ensures MarkerTail(OPEN + (a + ("verify:" + (b + ("skip" + (tail + (SHUT + rest))))))) == Some(tail)
  {
    var v := tail + (SHUT + rest);
    var u := "skip" + v;
    var t := "verify:" + (b + u);
    var s := OPEN + (a + t);
    assert s[..4] == OPEN && s[4..] == a + t;
    LStripPadded(a, t);
    assert t[..7] == "verify:" && t[7..] == b + u;
    LStripPadded(b, u);
    assert u[..4] == "skip" && u[4..] == v;
    GtAt(tail, rest);
    TailAfter(tail, rest);
    assert v[..|tail|] == tail;
  }

  /******* What counts as an annotation, told without scanning *******/

  /** A marker stands in `p` behind `x`, and carries `tail`. */
  ghost predicate MarkerIn(p: string, x: string, tail: string) {
    NoGt(tail) && exists a, b, y :: MarkerParts(p, x, a, b, tail, y)
  }

  ghost predicate MarkerParts(p: string, x: string, a: string, b: string, tail: string, y: string) {
    && AllBlank(a) && AllBlank(b)
    && p == x + (OPEN + (a + ("verify:" + (b + ("skip" + (tail + (SHUT + y)))))))
  }

  /** A tail gives a reason: a dash sets it off, blanks may stand around it, and it has a word in it. */
  ghost predicate Reasoned(tail: string, reason: string) {
    Trimmed(reason) && HasWord(reason) && exists d, dash, e, g :: ReasonParts(tail, d, dash, e, reason, g)
  }

  ghost predicate ReasonParts(tail: string, d: string, dash: char, e: string, reason: string, g: string) {
    && AllBlank(d) && AllBlank(e) && AllBlank(g) && (dash == '-' || dash == '\U{2014}')
    && tail == d + ([dash] + (e + (reason + g)))
  }

  /** What a preamble says about its block: nothing without a marker; otherwise its first marker gives a reason, or the
      annotation is invalid and the reason empty. */
  ghost predicate Says(preamble: string, skip: Option<string>) {
    match skip
    case None => forall x, tail :: !MarkerIn(preamble, x, tail)
    case Some(reason) =>
      exists x, tail ::
        && MarkerIn(preamble, x, tail)
        && (forall x', tail' | MarkerIn(preamble, x', tail') :: |x| <= |x'|)
        && if reason == "" then forall other :: !Reasoned(tail, other) else Reasoned(tail, reason)
  }

  lemma {:induction false} LStripSplit(s: string) returns (a: string)
    ensures AllBlank(a) && s == a + LStrip(s) && (LStrip(s) != "" ==> !Blank(LStrip(s)[0]))
  {
    a := "";
    if s != "" && Blank(s[0]) {
      var rest := LStripSplit(s[1..]);
      a := [s[0]] + rest;
    }
  }

  lemma {:induction false} RStripSplit(s: string) returns (b: string)
    ensures AllBlank(b) && s == RStrip(s) + b && (RStrip(s) != "" ==> !Blank(RStrip(s)[|RStrip(s)| - 1]))
    ensures RStrip(s) != "" ==> RStrip(s)[0] == s[0]
  {
    b := "";
    if s != "" && Blank(s[|s| - 1]) {
      var rest := RStripSplit(s[..|s| - 1]);
      b := rest + [s[|s| - 1]];
    }
  }

  lemma {:induction false} StripSplit(s: string) returns (a: string, b: string)
    ensures AllBlank(a) && AllBlank(b) && s == a + (Strip(s) + b) && (Strip(s) != "" ==> Trimmed(Strip(s)))
  {
    a := LStripSplit(s);
    b := RStripSplit(LStrip(s));
  }

  /** Blanks and then a word stand where the blanks are stripped to the word. */
  lemma {:induction false} WordAfter(s: string, word: string) returns (a: string)
    requires StartsWith(LStrip(s), word)
    ensures AllBlank(a) && s == a + (word + LStrip(s)[|word|..])
  {
    a := LStripSplit(s);
    Head(LStrip(s), word);
  }

  lemma {:induction false} MarkerTailParts(s: string) returns (a: string, b: string, y: string)
    requires MarkerTail(s).Some?
    ensures NoGt(MarkerTail(s).value) && AllBlank(a) && AllBlank(b)
    ensures s == OPEN + (a + ("verify:" + (b + ("skip" + (MarkerTail(s).value + (SHUT + y))))))
  {
    Head(s, OPEN);
    a := WordAfter(s[4..], "verify:");
    var t := LStrip(s[4..]);
    b := WordAfter(t[7..], "skip");
    var v := LStrip(t[7..])[4..];
    AtShut(v, Gt(v));
    y := v[Gt(v) + 1..];
  }

  lemma {:induction false} MarkerSuffix(p: string, i: nat, tail: string)
    requires i <= |p| && MarkerTail(p[i..]) == Some(tail)
    ensures MarkerIn(p, p[..i], tail)
  {
    var a, b, y := MarkerTailParts(p[i..]);
    var m := OPEN + (a + ("verify:" + (b + ("skip" + (tail + (SHUT + y))))));
    assert p == p[..i] + p[i..];
    assert MarkerParts(p, p[..i], a, b, tail, y);
  }

  lemma {:induction false} MarkerAtSuffix(p: string, x: string, tail: string)
    requires MarkerIn(p, x, tail)
    ensures |x| <= |p| && MarkerTail(p[|x|..]) == Some(tail)
  {
    var a, b, y :| MarkerParts(p, x, a, b, tail, y);
    MarkerIsRead(a, b, tail, y);
    assert p[|x|..] == OPEN + (a + ("verify:" + (b + ("skip" + (tail + (SHUT + y))))));
  }

  lemma {:induction false} FirstMarkerAt(s: string) returns (i: nat)
    ensures i <= |s| && FirstMarker(s) == MarkerTail(s[i..])
    ensures forall j | 0 <= j < i :: MarkerTail(s[j..]).None?
    ensures FirstMarker(s).None? ==> i == |s|
  {
    i := 0;
    if MarkerTail(s).Some? || s == "" {
      assert s[0..] == s;
    } else {
      var k := FirstMarkerAt(s[1..]);
      i := k + 1;
      forall j | 0 <= j < i ensures MarkerTail(s[j..]).None? {
        if j == 0 {
          assert s[0..] == s;
        } else {
          assert s[j..] == s[1..][j - 1..];
        }
      }
      assert s[i..] == s[1..][k..];
    }
  }

  lemma {:induction false} ReasonIsGiven(tail: string)
    ensures Reason(tail) != "" ==> Reasoned(tail, Reason(tail))
  {
    if Reason(tail) != "" {
      var t := Strip(tail);
      var d, h := StripSplit(tail);
      var e, g := StripSplit(t[1..]);
      var r := Reason(tail);
      assert t == [t[0]] + t[1..];
      Shift([t[0]], e + (r + g), h);
      Shift(e, r + g, h);
      Shift(r, g, h);
      assert ReasonParts(tail, d, t[0], e, r, g + h);
    }
  }

  lemma {:induction false} OneReason(tail: string, reason: string)
    requires Reasoned(tail, reason)
    ensures Reason(tail) == reason && reason != ""
  {
    var d, dash, e, g :| ReasonParts(tail, d, dash, e, reason, g);
    ReasonIsRead(d, dash, e, reason, g);
  }

  /** What is read from a preamble is what it says. */
  lemma {:induction false} SkipReasonIsSaid(preamble: string)
    ensures Says(preamble, SkipReason(preamble))
  {
    var i := FirstMarkerAt(preamble);
    if FirstMarker(preamble).None? {
      forall x, tail | MarkerIn(preamble, x, tail) ensures false {
        MarkerAtSuffix(preamble, x, tail);
      }
    } else {
      var tail := FirstMarker(preamble).value;
      MarkerSuffix(preamble, i, tail);
      forall x', tail' | MarkerIn(preamble, x', tail') ensures i <= |x'| {
        MarkerAtSuffix(preamble, x', tail');
      }
      ReasonIsGiven(tail);
      forall other | Reasoned(tail, other) ensures Reason(tail) == other && other != "" {
        OneReason(tail, other);
      }
      assert MarkerIn(preamble, preamble[..i], tail);
    }
  }

  lemma {:induction false} BareBlockRuns()
    ensures SkipReason("") == None
  {
  }

  datatype Reported = Reported(index: nat, snippet: Snippet, skipReason: Option<string>)

  /** The blocks of a guide, each with its place and what its preamble says; one without a preamble is not skipped. */
  method ExtractSnippets(text: string) returns (snippets: seq<Reported>, ghost at: seq<nat>)
    ensures Leftmost(text, 0, at, Extract(text, true))
    ensures var found := Extract(text, true);
            && |snippets| == |found|
            && forall i {:trigger snippets[i]} | 0 <= i < |found| ::
                 && snippets[i] == Reported(i, found[i], SkipReason(found[i].preamble))
                 && Says(found[i].preamble, snippets[i].skipReason)
                 && (found[i].preamble == "" ==> snippets[i].skipReason == None)
  {
    snippets := ScanGuide(text);
    at := ExtractIsLeftmost(text, 0, true);
    assert text[0..] == text;
    BareBlockRuns();
    forall i | 0 <= i < |snippets| ensures Says(snippets[i].snippet.preamble, snippets[i].skipReason) {
      SkipReasonIsSaid(snippets[i].snippet.preamble);
    }
  }

  /** The loop over the matches of a guide. */
  method ScanGuide(text: string) returns (snippets: seq<Reported>)
    ensures var found := Extract(text, true);
            && |snippets| == |found|
            && forall i | 0 <= i < |found| :: snippets[i] == Reported(i, found[i], SkipReason(found[i].preamble))
  {
    snippets := [];
    var rest, lineStart := text, true;
    ghost var so: seq<Snippet> := [];
    while rest != "" || (lineStart && MatchHere(rest).Some?)
      invariant Extract(text, true) == so + Extract(rest, lineStart) && |snippets| == |so|
      invariant forall i | 0 <= i < |so| :: snippets[i] == Reported(i, so[i], SkipReason(so[i].preamble))
      decreases |rest|
    {
      var m := if lineStart then MatchHere(rest) else None;
      if m.Some? {
        var snippet := m.value.snippet;
        assert so + ([snippet] + Extract(m.value.rest, false)) == (so + [snippet]) + Extract(m.value.rest, false);
        snippets := snippets + [Reported(|snippets|, snippet, SkipReason(snippet.preamble))];
        so := so + [snippet];
        rest, lineStart := m.value.rest, false;
      } else {
        rest, lineStart := rest[1..], rest[0] == '\n';
      }
    }
  }
}
