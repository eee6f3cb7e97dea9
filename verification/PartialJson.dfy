/** partial_json.go: repairing JSON that was cut off in the middle. */
module PartialJson {
  import opened Wrappers

  /** A byte is written as the character with that code. `Rescan` is the lexer of
      repairJSON as a fold; a text is balanced when that very lexer keeps every byte of it,
      never meets its depth limit, and ends outside any string with no bracket open. */
  type Text = string

  const MAX_DEPTH: nat := 512

  // -------------------------------------------------------------- the lexer

  datatype Lexer = Lexer(buf: Text, stack: seq<char>, inString: bool, escaped: bool, halted: bool)

  const START: Lexer := Lexer("", [], false, false, false)

  function Opener(c: char): char {
    if c == '}' then '{' else '['
  }

  function Closer(c: char): char {
    if c == '{' then '}' else ']'
  }

  function Step(st: Lexer, c: char): Lexer {
    var kept := st.(buf := st.buf + [c]);
    if st.halted then st
    else if st.escaped then kept.(escaped := false)
    else if st.inString then
      if c == '\\' then kept.(escaped := true)
      else if c == '"' then kept.(inString := false)
      else kept
    else if c == '"' then kept.(inString := true)
    else if c == '{' || c == '[' then
      if |st.stack| >= MAX_DEPTH then st.(halted := true) else kept.(stack := st.stack + [c])
    else if c == '}' || c == ']' then
      if |st.stack| > 0 && st.stack[|st.stack| - 1] == Opener(c)
      then kept.(stack := st.stack[..|st.stack| - 1]) else st
    else kept
  }

  function Rescan(s: Text): Lexer {
    if s == "" then START else Step(Rescan(s[..|s| - 1]), s[|s| - 1])
  }

  /** Rescanning keeps every byte and ends outside any string with no bracket open. */
  predicate Balanced(t: Text) {
    Rescan(t) == Lexer(t, [], false, false, false)
  }

  // --------------------------------------------------------- string helpers

  predicate IsWs(c: char) {
    c == ' ' || c == '\t' || c == '\n' || c == '\r'
  }

  function WsEnd(s: Text, n: nat): (r: nat)
    requires n <= |s|
    ensures r <= n && (r > 0 ==> !IsWs(s[r - 1]))
  {
    if n > 0 && IsWs(s[n - 1]) then WsEnd(s, n - 1) else n
  }

  function WsCommaEnd(s: Text, n: nat): (r: nat)
    requires n <= |s|
    ensures r <= n
  {
    if n > 0 && (IsWs(s[n - 1]) || s[n - 1] == ',') then WsCommaEnd(s, n - 1) else n
  }

  /** strings.TrimRight of the JSON white space. */
  function TrimRightWs(s: Text): Text {
    s[..WsEnd(s, |s|)]
  }

  /** Length of the Unicode white space at the start of s, in UTF-8; 0 if none. */
  function LeadingSpace(s: Text): (n: nat)
    ensures n <= |s|
  {
    if s == "" then 0
    else if IsWs(s[0]) || s[0] == 0x0B as char || s[0] == 0x0C as char then 1
    else if |s| >= 2 && s[0] == 0xC2 as char && (s[1] == 0x85 as char || s[1] == 0xA0 as char) then 2
    else if |s| >= 3 && IsWideSpace(s[0], s[1], s[2]) then 3
    else 0
  }

  function TrailingSpace(s: Text): (n: nat)
    ensures n <= |s|
  {
    var k := |s|;
    if s == "" then 0
    else if IsWs(s[k - 1]) || s[k - 1] == 0x0B as char || s[k - 1] == 0x0C as char then 1
    else if k >= 2 && s[k - 2] == 0xC2 as char && (s[k - 1] == 0x85 as char || s[k - 1] == 0xA0 as char) then 2
    else if k >= 3 && IsWideSpace(s[k - 3], s[k - 2], s[k - 1]) then 3
    else 0
  }

  predicate IsWideSpace(a: char, b: char, c: char) {
    || (a == 0xE1 as char && b == 0x9A as char && c == 0x80 as char)
    || (a == 0xE2 as char && b == 0x80 as char
        && (0x80 as char <= c <= 0x8A as char || c == 0xA8 as char || c == 0xA9 as char || c == 0xAF as char))
    || (a == 0xE2 as char && b == 0x81 as char && c == 0x9F as char)
    || (a == 0xE3 as char && b == 0x80 as char && c == 0x80 as char)
  }

  function TrimLeftSpace(s: Text): Text
    decreases |s|
  {
    if LeadingSpace(s) > 0 then TrimLeftSpace(s[LeadingSpace(s)..]) else s
  }

  function TrimRightSpace(s: Text): Text
    decreases |s|
  {
    if TrailingSpace(s) > 0 then TrimRightSpace(s[..|s| - TrailingSpace(s)]) else s
  }

  function TrimSpace(s: Text): Text {
    TrimRightSpace(TrimLeftSpace(s))
  }

  /** The position after the last quote of s[..n], 0 if there is none. */
  function QuoteEnd(s: Text, n: nat): (r: nat)
    requires n <= |s|
    ensures r <= n && (r > 0 ==> s[r - 1] == '"')
  {
    if n > 0 && s[n - 1] != '"' then QuoteEnd(s, n - 1) else n
  }

  /** The same for the last backslash followed by a u. */
  function UnicodeEnd(s: Text, n: nat): (r: nat)
    requires n <= |s|
    ensures r <= n && (r > 0 ==> r >= 2 && s[r - 2] == '\\' && s[r - 1] == 'u')
    ensures forall k | r <= k < n && k > 0 :: s[k - 1] == '\\' ==> s[k] != 'u'
  {
    if n < 2 then 0
    else if s[n - 2] == '\\' && s[n - 1] == 'u' then n
    else UnicodeEnd(s, n - 1)
  }

  /** The number of backslashes that end the first n bytes of s. */
  function Backslashes(s: Text, n: nat): (r: nat)
    requires n <= |s|
    ensures r <= n
  {
    if n > 0 && s[n - 1] == '\\' then 1 + Backslashes(s, n - 1) else 0
  }

  // ------------------------------------------------------- completeTrailing

  predicate IsBoundary(c: char) {
    c == ':' || c == ',' || c == '[' || c == '{' || c == ' ' || c == '\t' || c == '\n'
  }

  predicate EndsAtBoundary(s: Text, word: Text) {
    |word| <= |s| && s[|s| - |word|..] == word && (|s| > |word| ==> IsBoundary(s[|s| - |word| - 1]))
  }

  predicate HasSuffix(s: Text, word: Text) {
    |word| <= |s| && s[|s| - |word|..] == word
  }

  /** The shortest proper prefix of kw, of length n or more, that s ends with. */
  function PrefixAt(s: Text, kw: Text, n: nat): (r: Option<nat>)
    requires 1 <= n <= |kw|
    ensures r.Some? ==> n <= r.value < |kw| && EndsAtBoundary(s, kw[..r.value])
    decreases |kw| - n
  {
    if n == |kw| then None
    else if EndsAtBoundary(s, kw[..n]) then Some(n)
    else PrefixAt(s, kw, n + 1)
  }

  const KEYWORDS: seq<Text> := ["true", "false", "null"]

  function CompleteKeyword(s: Text, trimmed: Text, kws: seq<Text>): Option<Text>
    requires forall i | 0 <= i < |kws| :: kws[i] != ""
  {
    if kws == [] then None
    else
      var kw := kws[0];
      if HasSuffix(trimmed, kw) then
        if EndsAtBoundary(trimmed, kw) then Some(s) else CompleteKeyword(s, trimmed, kws[1..])
      else
        match PrefixAt(trimmed, kw, 1)
        case Some(n) => Some(trimmed[..|trimmed| - n] + kw)
        case None => CompleteKeyword(s, trimmed, kws[1..])
  }

  predicate IsNumberTail(c: char) {
    c == '.' || c == '-' || c == '+' || c == 'e' || c == 'E'
  }

  /** completeTrailing, with the keywords it knows. */
  function CompleteTrailing(s: Text, kws: seq<Text>): Text
    requires forall i | 0 <= i < |kws| :: kws[i] != ""
  {
    var trimmed := TrimRightWs(s);
    if trimmed == "" then s
    else
      match CompleteKeyword(s, trimmed, kws)
      case Some(r) => r
      case None => if IsNumberTail(trimmed[|trimmed| - 1]) then trimmed + "0" else s
  }

  // -------------------------------------------------- trimTrailingIncomplete

  /** A colon and the key before it go. */
  function WithoutKey(s: Text, n: nat): (r: nat)
    requires 0 < n <= |s|
    ensures r <= |s|
  {
    var k := WsEnd(s, n - 1);
    if k > 0 && s[k - 1] == '"' then
      var q := QuoteEnd(s, k - 1);
      WsCommaEnd(s, if q > 0 then q - 1 else k - 1)
    else k
  }

  /** A last string goes if it follows an opening brace or a comma. */
  function WithoutDangling(s: Text, n: nat): (r: nat)
    requires 0 < n <= |s|
    ensures r <= |s|
  {
    var q := QuoteEnd(s, n - 1);
    var before := if q > 0 then WsEnd(s, q - 1) else 0;
    if before > 0 && s[before - 1] == '{' then before
    else if before > 0 && s[before - 1] == ',' then WsEnd(s, before - 1)
    else n
  }

  /** trimTrailingIncomplete only ever shortens its argument: this is the length it
      shortens it to. */
  function TrimTo(s: Text): (n: nat)
    ensures n <= |s|
  {
    var n := WsEnd(s, |s|);
    if n == 0 then 0
    else if s[n - 1] == ',' then WsEnd(s, n - 1)
    else if s[n - 1] == ':' then WithoutKey(s, n)
    else if s[n - 1] == '"' then WithoutDangling(s, n)
    else n
  }

  function TrimTrailingIncomplete(s: Text): Text {
    s[..TrimTo(s)]
  }

  // -------------------------------------------------------------- repairJSON

  /** How much of the text is kept when it stopped inside a string: not a trailing
      lone backslash, and not an incomplete \uXXXX escape. */
  function EscapeEnd(st: Lexer): (n: nat)
    ensures n <= |st.buf|
  {
    var n := |st.buf|;
    if st.escaped && n > 0 && st.buf[n - 1] == '\\' then n - 1 else n
  }

  function UnicodeCut(r: Text, n: nat): (m: nat)
    requires n <= |r|
    ensures m <= n
  {
    var u := UnicodeEnd(r, n);
    if u > 0 && n - (u - 2) < 6 && Backslashes(r, u - 1) % 2 == 1 then u - 2 else n
  }

  function CloseString(st: Lexer): Text {
    if st.inString || st.escaped then st.buf[..UnicodeCut(st.buf, EscapeEnd(st))] + "\"" else st.buf
  }

  function Closers(stack: seq<char>): Text {
    if stack == [] then "" else [Closer(stack[|stack| - 1])] + Closers(stack[..|stack| - 1])
  }

  function Finish(st: Lexer, kws: seq<Text>): Text
    requires forall i | 0 <= i < |kws| :: kws[i] != ""
  {
    var r := CompleteTrailing(CloseString(st), kws);
    if st.stack == [] then r else TrimTrailingIncomplete(r) + Closers(st.stack)
  }

  function RepairWith(s: Text, kws: seq<Text>): Text
    requires forall i | 0 <= i < |kws| :: kws[i] != ""
  {
    var t := TrimSpace(s);
    if t == "" then "{}" else Finish(Rescan(t), kws)
  }

  function Repair(s: Text): Text {
    RepairWith(s, KEYWORDS)
  }

  // ------------------------------------------- the lexer, position by position

  /** The lexer's state without its buffer; ok until a byte is dropped. */
  datatype Lex = Lex(stack: seq<char>, inString: bool, escaped: bool, ok: bool)

  function LexStep(l: Lex, c: char): Lex {
    if !l.ok then l
    else if l.escaped then l.(escaped := false)
    else if l.inString then
      if c == '\\' then l.(escaped := true) else if c == '"' then l.(inString := false) else l
    else if c == '"' then l.(inString := true)
    else if c == '{' || c == '[' then
      if |l.stack| >= MAX_DEPTH then l.(ok := false) else l.(stack := l.stack + [c])
    else if c == '}' || c == ']' then
      if |l.stack| > 0 && l.stack[|l.stack| - 1] == Opener(c)
      then l.(stack := l.stack[..|l.stack| - 1]) else l.(ok := false)
    else l
  }

  /** The state after the first n bytes. */
  function At(t: Text, n: nat): Lex
    requires n <= |t|
  {
    if n == 0 then Lex([], false, false, true) else LexStep(At(t, n - 1), t[n - 1])
  }

  predicate Out(t: Text, n: nat, stack: seq<char>)
    requires n <= |t|
  {
    At(t, n) == Lex(stack, false, false, true)
  }

  predicate In(t: Text, n: nat, stack: seq<char>)
    requires n <= |t|
  {
    var l := At(t, n);
    l.ok && l.inString && l.stack == stack
  }

  predicate IsBracket(c: char) {
    c == '{' || c == '[' || c == '}' || c == ']'
  }

  predicate Brackets(stack: seq<char>) {
    |stack| <= MAX_DEPTH && forall i | 0 <= i < |stack| :: stack[i] == '{' || stack[i] == '['
  }

  lemma {:induction false} AtInvariant(t: Text, n: nat)
    requires n <= |t|
    ensures Brackets(At(t, n).stack)
    ensures At(t, n).ok && At(t, n).escaped ==> At(t, n).inString && n > 0 && t[n - 1] == '\\'
  {
    if n > 0 {
      AtInvariant(t, n - 1);
    }
  }

  lemma {:induction false} SamePrefix(t: Text, u: Text, n: nat)
    requires n <= |t| && n <= |u| && forall i | 0 <= i < n :: t[i] == u[i]
    ensures At(t, n) == At(u, n)
  {
    if n > 0 {
      SamePrefix(t, u, n - 1);
    }
  }

  lemma {:induction false} OkBefore(t: Text, m: nat, n: nat)
    requires m <= n <= |t| && At(t, n).ok
    ensures At(t, m).ok
  {
    if m < n {
      OkBefore(t, m, n - 1);
    }
  }

  function View(st: Lexer): Lex {
    Lex(st.stack, st.inString, st.escaped, true)
  }

  /** A step keeps its byte and moves on, or drops it and stays. */
  lemma StepIsLexStep(st: Lexer, c: char)
    requires !st.halted
    ensures var q := Step(st, c);
            if LexStep(View(st), c).ok then q.buf == st.buf + [c] && View(q) == LexStep(View(st), c) && !q.halted
            else q == st || q == st.(halted := true)
  {
  }

  lemma AtSnoc(t: Text, c: char)
    ensures At(t + [c], |t| + 1) == LexStep(At(t, |t|), c)
  {
    SamePrefix(t, t + [c], |t|);
  }

  /** What the lexer kept, it keeps again, and ends in the same state. */
  lemma {:induction false} KeptIsClean(s: Text)
    ensures At(Rescan(s).buf, |Rescan(s).buf|) == View(Rescan(s))
  {
    if s != "" {
      var p, c := Rescan(s[..|s| - 1]), s[|s| - 1];
      KeptIsClean(s[..|s| - 1]);
      if !p.halted {
        StepIsLexStep(p, c);
        AtSnoc(p.buf, c);
      }
    }
  }

  /** The fold over positions and the lexer's own fold agree. */
  lemma {:induction false} RescanIsAt(t: Text)
    ensures var l, st := At(t, |t|), Rescan(t);
            && |st.buf| <= |t|
            && (l.ok <==> st.buf == t && !st.halted)
            && (l.ok ==> View(st) == l)
  {
    if t != "" {
      var p, c := t[..|t| - 1], t[|t| - 1];
      RescanIsAt(p);
      AtSnoc(p, c);
      assert t == p + [c];
      if !Rescan(p).halted {
        StepIsLexStep(Rescan(p), c);
      }
    }
  }

  lemma OutBack(t: Text, n: nat, stack: seq<char>)
    requires 0 < n <= |t| && Out(t, n, stack)
    ensures t[n - 1] == '"' ==> In(t, n - 1, stack)
    ensures t[n - 1] != '"' && !IsBracket(t[n - 1]) ==> Out(t, n - 1, stack)
  {
    AtInvariant(t, n - 1);
  }

  lemma InBack(t: Text, n: nat, stack: seq<char>)
    requires n <= |t| && In(t, n, stack)
    ensures n > 0
    ensures t[n - 1] != '"' ==> In(t, n - 1, stack)
    ensures t[n - 1] == '"' ==>
              Out(t, n - 1, stack)
              || (In(t, n - 1, stack) && At(t, n - 1).escaped && n > 1 && t[n - 2] == '\\')
  {
    AtInvariant(t, n - 1);
  }

  /** The last quote of an open string is the one that opened it, or an escaped one. */
  lemma {:induction false} LastQuote(t: Text, n: nat, stack: seq<char>)
    requires n <= |t| && In(t, n, stack)
    ensures var q := QuoteEnd(t, n);
            && q > 0
            && (Out(t, q - 1, stack)
                || (In(t, q - 1, stack) && At(t, q - 1).escaped && q > 1 && t[q - 2] == '\\'))
  {
    InBack(t, n, stack);
    if t[n - 1] != '"' {
      LastQuote(t, n - 1, stack);
    }
  }

  /** In an open string the next byte is escaped after an odd run of backslashes. */
  lemma {:induction false} EscapedIsOdd(t: Text, n: nat, stack: seq<char>)
    requires n <= |t| && In(t, n, stack)
    ensures At(t, n).escaped <==> Backslashes(t, n) % 2 == 1
  {
    InBack(t, n, stack);
    if t[n - 1] == '\\' {
      EscapedIsOdd(t, n - 1, stack);
    }
  }

  lemma {:induction false} TrimOut(t: Text, n: nat, stack: seq<char>)
    requires n <= |t| && Out(t, n, stack)
    ensures Out(t, WsEnd(t, n), stack) && Out(t, WsCommaEnd(t, n), stack)
  {
    if n > 0 && (IsWs(t[n - 1]) || t[n - 1] == ',') {
      OutBack(t, n, stack);
      TrimOut(t, n - 1, stack);
    }
  }

  // ------------------------------------------------- completing what trails

  predicate IsLetter(c: char) {
    'a' <= c <= 'z'
  }

  predicate Words(kws: seq<Text>) {
    forall i | 0 <= i < |kws| :: kws[i] != "" && forall n | 0 <= n < |kws[i]| :: IsLetter(kws[i][n])
  }

  lemma KeywordsAreWords()
    ensures Words(KEYWORDS)
  {
  }

  predicate Plain(w: Text) {
    forall i | 0 <= i < |w| :: w[i] != '"' && !IsBracket(w[i])
  }

  lemma {:induction false} AddPlain(t: Text, k: nat, u: Text, n: nat, stack: seq<char>)
    requires k <= |t| && Out(t, k, stack) && k <= n <= |u|
    requires forall i | 0 <= i < k :: u[i] == t[i]
    requires forall i | k <= i < n :: u[i] != '"' && !IsBracket(u[i])
    ensures Out(u, n, stack)
  {
    if n == k {
      SamePrefix(t, u, k);
    } else {
      AddPlain(t, k, u, n - 1, stack);
    }
  }

  lemma {:induction false} DropPlain(t: Text, n: nat, m: nat, stack: seq<char>)
    requires m <= n <= |t| && Out(t, n, stack)
    requires forall i | m <= i < n :: t[i] != '"' && !IsBracket(t[i])
    ensures Out(t, m, stack)
  {
    if m < n {
      OutBack(t, n, stack);
      DropPlain(t, n - 1, m, stack);
    }
  }

  lemma ReplaceSuffix(t: Text, n: nat, kw: Text, stack: seq<char>)
    requires Out(t, |t|, stack) && n <= |kw| && Plain(kw) && EndsAtBoundary(t, kw[..n])
    ensures var u := t[..|t| - n] + kw; Out(u, |u|, stack)
  {
    assert forall i | |t| - n <= i < |t| :: t[i] == t[|t| - n..][i - (|t| - n)] == kw[i - (|t| - n)];
    DropPlain(t, |t|, |t| - n, stack);
    var u := t[..|t| - n] + kw;
    AddPlain(t, |t| - n, u, |u|, stack);
  }

  lemma {:induction false} KeywordOut(s: Text, trimmed: Text, kws: seq<Text>, stack: seq<char>)
    requires Out(s, |s|, stack) && Out(trimmed, |trimmed|, stack)
    requires forall i | 0 <= i < |kws| :: kws[i] != "" && Plain(kws[i])
    ensures match CompleteKeyword(s, trimmed, kws)
            case Some(r) => Out(r, |r|, stack)
            case None => true
  {
    if kws != [] {
      KeywordOut(s, trimmed, kws[1..], stack);
      match PrefixAt(trimmed, kws[0], 1)
      case None =>
      case Some(n) => ReplaceSuffix(trimmed, n, kws[0], stack);
    }
  }

  lemma CompleteOut(r: Text, kws: seq<Text>, stack: seq<char>)
    requires Out(r, |r|, stack) && forall i | 0 <= i < |kws| :: kws[i] != "" && Plain(kws[i])
    ensures var c := CompleteTrailing(r, kws); Out(c, |c|, stack)
  {
    var trimmed := TrimRightWs(r);
    TrimOut(r, |r|, stack);
    SamePrefix(r, trimmed, |trimmed|);
    KeywordOut(r, trimmed, kws, stack);
    AddPlain(trimmed, |trimmed|, trimmed + "0", |trimmed| + 1, stack);
  }

  lemma SuffixLast(s: Text, word: Text)
    requires word != ""
    ensures HasSuffix(s, word) ==> s[|s| - 1] == word[|word| - 1]
  {
    if HasSuffix(s, word) {
      assert s[|s| - |word|..][|word| - 1] == s[|s| - 1];
    }
  }

  predicate EndsInLetter(s: Text) {
    s != "" && IsLetter(s[|s| - 1])
  }

  /** A text that does not end in a letter has no keyword to complete. */
  lemma {:induction false} NoKeywordEnds(s: Text, trimmed: Text, kws: seq<Text>)
    requires Words(kws)
    ensures !EndsInLetter(trimmed) ==> CompleteKeyword(s, trimmed, kws).None?
    ensures match CompleteKeyword(s, trimmed, kws)
            case Some(r) => r == s || EndsInLetter(r)
            case None => true
  {
    if kws != [] {
      var kw := kws[0];
      NoKeywordEnds(s, trimmed, kws[1..]);
      SuffixLast(trimmed, kw);
      match PrefixAt(trimmed, kw, 1)
      case None =>
      case Some(n) =>
        SuffixLast(trimmed, kw[..n]);
    }
  }

  predicate IsCompleteEnd(c: char) {
    c == '"' || c == ':' || IsBracket(c)
  }

  /** Completing leaves alone a text that ends in a string, a colon or a bracket, and
      never makes one end in a colon that did not. */
  lemma CompleteEnds(r: Text, kws: seq<Text>)
    requires Words(kws)
    ensures var n := WsEnd(r, |r|); n > 0 && IsCompleteEnd(r[n - 1]) ==> CompleteTrailing(r, kws) == r
    ensures var c := CompleteTrailing(r, kws); var n := WsEnd(c, |c|); n > 0 && c[n - 1] == ':' ==> c == r
  {
    NoKeywordEnds(r, TrimRightWs(r), kws);
    var c := CompleteTrailing(r, kws);
    assert c == r || (c != "" && (IsLetter(c[|c| - 1]) || c[|c| - 1] == '0'));
  }

  // -------------------------------------------------- trimming what trails

  /** Cutting a closed string at its last inner quote: all of it goes, or the cut
      falls right after a backslash. */
  lemma RemoveString(s: Text, k: nat, stack: seq<char>)
    requires 0 < k <= |s| && s[k - 1] == '"' && Out(s, k, stack)
    ensures var q := QuoteEnd(s, k - 1);
            && q > 0
            && (Out(s, q - 1, stack)
                || (In(s, q - 1, stack) && At(s, q - 1).escaped && q > 1 && s[q - 2] == '\\'))
  {
    OutBack(s, k, stack);
    LastQuote(s, k - 1, stack);
  }

  /** The key that goes with its trailing colon holds no escaped quote. */
  predicate KeySafe(s: Text, n: nat)
    requires 0 < n <= |s|
  {
    var k := WsEnd(s, n - 1);
    k > 0 && s[k - 1] == '"' ==> var q := QuoteEnd(s, k - 1); q > 0 && !At(s, q - 1).inString
  }

  predicate KeyCutSafe(s: Text) {
    var n := WsEnd(s, |s|);
    n > 0 && s[n - 1] == ':' ==> KeySafe(s, n)
  }

  lemma TrimTrailing(s: Text, stack: seq<char>)
    requires Out(s, |s|, stack)
    ensures if KeyCutSafe(s) then Out(s, TrimTo(s), stack) else In(s, TrimTo(s), stack)
  {
    TrimOut(s, |s|, stack);
    var n := WsEnd(s, |s|);
    if n > 0 {
      OutBack(s, n, stack);
      if s[n - 1] == ',' {
        TrimOut(s, n - 1, stack);
      } else if s[n - 1] == ':' {
        TrimColon(s, n, stack);
      } else if s[n - 1] == '"' {
        TrimDangling(s, n, stack);
      }
    }
  }

  lemma TrimColon(s: Text, n: nat, stack: seq<char>)
    requires 0 < n <= |s| && Out(s, n - 1, stack)
    ensures if KeySafe(s, n) then Out(s, WithoutKey(s, n), stack) else In(s, WithoutKey(s, n), stack)
  {
    TrimOut(s, n - 1, stack);
    var k := WsEnd(s, n - 1);
    if k > 0 && s[k - 1] == '"' {
      RemoveString(s, k, stack);
      TrimKey(s, QuoteEnd(s, k - 1), stack);
      KeyCut(s, n, k);
    } else {
      assert KeySafe(s, n) && WithoutKey(s, n) == k;
    }
  }

  lemma KeyCut(s: Text, n: nat, k: nat)
    requires 0 < n <= |s| && k == WsEnd(s, n - 1) && k > 0 && s[k - 1] == '"' && QuoteEnd(s, k - 1) > 0
    ensures var q := QuoteEnd(s, k - 1);
            WithoutKey(s, n) == WsCommaEnd(s, q - 1) && (KeySafe(s, n) <==> !At(s, q - 1).inString)
  {
  }

  lemma TrimKey(s: Text, q: nat, stack: seq<char>)
    requires 0 < q <= |s|
    requires Out(s, q - 1, stack) || (In(s, q - 1, stack) && q > 1 && s[q - 2] == '\\')
    ensures if At(s, q - 1).inString then In(s, WsCommaEnd(s, q - 1), stack) else Out(s, WsCommaEnd(s, q - 1), stack)
  {
    if !At(s, q - 1).inString {
      TrimOut(s, q - 1, stack);
    }
  }

  lemma TrimDangling(s: Text, n: nat, stack: seq<char>)
    requires 0 < n <= |s| && s[n - 1] == '"' && Out(s, n, stack)
    ensures Out(s, WithoutDangling(s, n), stack)
  {
    RemoveString(s, n, stack);
    var q := QuoteEnd(s, n - 1);
    var before := WsEnd(s, q - 1);
    if before > 0 && (s[before - 1] == '{' || s[before - 1] == ',') {
      TrimOut(s, q - 1, stack);
      OutBack(s, before, stack);
      if s[before - 1] == ',' {
        TrimOut(s, before - 1, stack);
      }
    }
  }

  // ------------------------------------------------------------- the closers

  lemma CloseOne(x: Text, at: seq<char>, b: char)
    requires Out(x, |x|, at) && (b == '{' || b == '[')
    ensures var y := x + [Closer(b)];
            if at != [] && at[|at| - 1] == b then Out(y, |y|, at[..|at| - 1]) else !At(y, |y|).ok
  {
    AtSnoc(x, Closer(b));
  }

  /** The closers balance a text exactly when they close its own open brackets. */
  lemma {:induction false} ClosersBalance(x: Text, u: Text, at: seq<char>, stack: seq<char>)
    requires Out(x, |x|, at) && Brackets(stack) && u == x + Closers(stack)
    ensures Out(u, |u|, []) <==> at == stack
    decreases |stack|
  {
    if stack == [] {
      assert u == x;
    } else {
      var b := stack[|stack| - 1];
      var rest := stack[..|stack| - 1];
      var y := x + [Closer(b)];
      assert u == y + Closers(rest);
      CloseOne(x, at, b);
      if at != [] && at[|at| - 1] == b {
        ClosersBalance(y, u, at[..|at| - 1], rest);
        assert at == at[..|at| - 1] + [b] && stack == rest + [b];
      } else {
        SamePrefix(y, u, |y|);
        if At(u, |u|).ok {
          OkBefore(u, |y|, |u|);
        }
      }
    }
  }

  lemma {:induction false} StaysIn(t: Text, k: nat, n: nat, stack: seq<char>)
    requires k <= n <= |t| && In(t, k, stack) && forall i | k <= i < n :: t[i] != '"'
    ensures In(t, n, stack)
  {
    if k < n {
      StaysIn(t, k, n - 1, stack);
    }
  }

  lemma {:induction false} ClosersHaveNoQuote(stack: seq<char>)
    ensures forall i | 0 <= i < |Closers(stack)| :: Closers(stack)[i] != '"'
  {
    if stack != [] {
      ClosersHaveNoQuote(stack[..|stack| - 1]);
    }
  }

  /** Whether the text so far is cut somewhere outside a string or inside one decides
      whether the closers can balance it. */
  lemma CutAndClose(s: Text, k: nat, at: seq<char>, stack: seq<char>)
    requires k <= |s| && Brackets(stack) && (Out(s, k, at) || In(s, k, at))
    ensures var u := s[..k] + Closers(stack);
            Out(u, |u|, []) <==> !At(s, k).inString && at == stack
  {
    var x := s[..k];
    var u := x + Closers(stack);
    SamePrefix(s, x, k);
    if At(s, k).inString {
      SamePrefix(x, u, k);
      ClosersHaveNoQuote(stack);
      assert forall i | k <= i < |u| :: u[i] == Closers(stack)[i - k];
      StaysIn(u, k, |u|, at);
    } else {
      ClosersBalance(x, u, at, stack);
    }
  }

  // ---------------------------------------------------------- when it balances

  /** What the lexer keeps of the input: unmatched closers and everything past the
      depth limit left out. */
  function Kept(s: Text): Lexer {
    Rescan(TrimSpace(s))
  }

  /** Dropping an incomplete \uXXXX escape stays inside the string being closed. */
  predicate UnicodeCutSafe(st: Lexer) {
    st.inString ==> In(st.buf, UnicodeCut(st.buf, EscapeEnd(st)), st.stack)
  }

  lemma {:induction false} QuoteBefore(t: Text, n: nat, stack: seq<char>)
    requires n <= |t| && Out(t, n, stack)
    ensures var q := QuoteEnd(t, n); q > 0 ==> At(t, q - 1).ok && At(t, q - 1).inString
  {
    if n > 0 {
      AtInvariant(t, n - 1);
      if t[n - 1] != '"' {
        OkBefore(t, n - 1, n);
        QuoteBefore(t, n - 1, At(t, n - 1).stack);
      }
    }
  }

  lemma {:induction false} TrimIn(t: Text, n: nat, stack: seq<char>)
    requires n <= |t| && In(t, n, stack)
    ensures In(t, WsEnd(t, n), stack)
  {
    if n > 0 && IsWs(t[n - 1]) {
      InBack(t, n, stack);
      TrimIn(t, n - 1, stack);
    }
  }

  /** A quote that opens a string, taken for a dangling key, leaves the cut there or in
      the string before it. */
  lemma DanglingOpens(s: Text, n: nat, at: seq<char>)
    requires 0 < n <= |s| && var q := QuoteEnd(s, n - 1); q > 0 ==> In(s, q - 1, at)
    ensures var w := WithoutDangling(s, n); w == n || In(s, w, at)
  {
    if QuoteEnd(s, n - 1) > 0 {
      TrimInTwice(s, QuoteEnd(s, n - 1) - 1, at);
    }
  }

  lemma TrimInTwice(s: Text, n: nat, at: seq<char>)
    requires n <= |s| && In(s, n, at)
    ensures var before := WsEnd(s, n);
            before > 0 && In(s, before, at) && (s[before - 1] == ',' ==> In(s, WsEnd(s, before - 1), at))
  {
    TrimIn(s, n, at);
    var before := WsEnd(s, n);
    InBack(s, before, at);
    if s[before - 1] == ',' {
      TrimIn(s, before - 1, at);
    }
  }

  lemma NotEscapedAtCut(st: Lexer)
    requires At(st.buf, |st.buf|) == View(st) && st.inString
    ensures var m := UnicodeCut(st.buf, EscapeEnd(st));
            && At(st.buf, m).ok && !At(st.buf, m).escaped
            && (m == EscapeEnd(st) ==> In(st.buf, m, st.stack))
  {
    var b := st.buf;
    var n, m := EscapeEnd(st), UnicodeCut(b, EscapeEnd(st));
    AtInvariant(b, |b|);
    EscapedIsOdd(b, |b|, st.stack);
    InBack(b, |b|, st.stack);
    OkBefore(b, m, |b|);
    AtInvariant(b, m);
    if At(b, m).inString {
      EscapedIsOdd(b, m, At(b, m).stack);
    }
  }

  /** Closing the string the text stopped in. */
  lemma ClosedString(st: Lexer)
    requires At(st.buf, |st.buf|) == View(st)
    ensures var r := CloseString(st);
            if UnicodeCutSafe(st) then Out(r, |r|, st.stack)
            else
              && r != "" && r[|r| - 1] == '"' && At(r, |r|).ok
              && (if At(r, |r|).inString then Out(r, |r| - 1, At(r, |r|).stack)
                  else Out(r, |r|, At(r, |r|).stack) && At(r, |r|).stack != st.stack)
  {
    AtInvariant(st.buf, |st.buf|);
    if st.inString {
      NotEscapedAtCut(st);
      var m := UnicodeCut(st.buf, EscapeEnd(st));
      var u := st.buf[..m];
      SamePrefix(st.buf, u, m);
      AtSnoc(u, '"');
      SamePrefix(u, u + "\"", m);
      AtInvariant(st.buf, m);
    }
  }

  /** Repair balances its input exactly when neither of its two cuts by LastIndex goes
      astray: the \u cut stays in the string being closed, and a key removed with its
      trailing colon holds no escaped quote. */
  lemma RepairBalances(s: Text)
    ensures Balanced(Repair(s)) <==> CutsSafe(s)
  {
    KeywordsAreWords();
    RepairWithBalances(s, KEYWORDS);
  }

  predicate CutsSafe(s: Text) {
    TrimSpace(s) != "" ==>
      UnicodeCutSafe(Kept(s)) && (Kept(s).stack != [] ==> KeyCutSafe(CloseString(Kept(s))))
  }

  lemma RepairWithBalances(s: Text, kws: seq<Text>)
    requires Words(kws)
    ensures Balanced(RepairWith(s, kws)) <==> CutsSafe(s)
  {
    var st := Kept(s);
    KeptIsClean(TrimSpace(s));
    if TrimSpace(s) == "" {
      EmptyObjectBalances();
    } else {
      RescanIsAt(RepairWith(s, kws));
      AtInvariant(st.buf, |st.buf|);
      ClosedString(st);
      if UnicodeCutSafe(st) {
        SafeFinish(st, kws);
      } else {
        UnsafeFinish(st, kws);
      }
    }
  }

  lemma EmptyObjectBalances()
    ensures Balanced("{}")
  {
    assert "{}"[..1] == "{" && "{"[..0] == "";
    assert Rescan("{") == Step(START, '{');
    assert Rescan("{}") == Step(Rescan("{"), '}');
  }

  lemma SafeFinish(st: Lexer, kws: seq<Text>)
    requires Words(kws)
    requires Brackets(st.stack) && Out(CloseString(st), |CloseString(st)|, st.stack)
    ensures var f := Finish(st, kws); Out(f, |f|, []) <==> (st.stack != [] ==> KeyCutSafe(CloseString(st)))
  {
    var r := CloseString(st);
    CompleteOut(r, kws, st.stack);
    if st.stack != [] {
      KeySafeAfterCompletion(r, kws);
      TrimAndClose(CompleteTrailing(r, kws), st.stack);
    }
  }

  lemma KeySafeAfterCompletion(r: Text, kws: seq<Text>)
    requires Words(kws)
    ensures KeyCutSafe(CompleteTrailing(r, kws)) <==> KeyCutSafe(r)
  {
    CompleteEnds(r, kws);
  }

  lemma TrimAndClose(c: Text, stack: seq<char>)
    requires Brackets(stack) && Out(c, |c|, stack)
    ensures var f := TrimTrailingIncomplete(c) + Closers(stack); Out(f, |f|, []) <==> KeyCutSafe(c)
  {
    TrimTrailing(c, stack);
    CutAndClose(c, TrimTo(c), stack, stack);
  }

  lemma UnsafeFinish(st: Lexer, kws: seq<Text>)
    requires Words(kws)
    requires var r := CloseString(st);
             && Brackets(st.stack) && r != "" && r[|r| - 1] == '"' && At(r, |r|).ok
             && (if At(r, |r|).inString then Out(r, |r| - 1, At(r, |r|).stack)
                 else Out(r, |r|, At(r, |r|).stack) && At(r, |r|).stack != st.stack)
    ensures var f := Finish(st, kws); !Out(f, |f|, [])
  {
    var r := CloseString(st);
    CompleteEnds(r, kws);
    if st.stack != [] {
      if At(r, |r|).inString {
        OpenStringStaysOpen(r, At(r, |r|).stack, st.stack);
      } else {
        TrimDangling(r, |r|, At(r, |r|).stack);
        CutAndClose(r, TrimTo(r), At(r, |r|).stack, st.stack);
      }
    }
  }

  lemma OpenStringStaysOpen(r: Text, at: seq<char>, stack: seq<char>)
    requires Brackets(stack) && r != "" && r[|r| - 1] == '"' && Out(r, |r| - 1, at) && In(r, |r|, at)
    ensures var f := TrimTrailingIncomplete(r) + Closers(stack); !Out(f, |f|, [])
  {
    var inner := InnerStack(r);
    CutStaysOpen(r, at, inner);
    CutAndClose(r, TrimTo(r), if TrimTo(r) == |r| then at else inner, stack);
  }

  function InnerStack(r: Text): seq<char>
    requires r != ""
  {
    if QuoteEnd(r, |r| - 1) > 0 then At(r, QuoteEnd(r, |r| - 1) - 1).stack else []
  }

  lemma CutStaysOpen(r: Text, at: seq<char>, inner: seq<char>)
    requires r != "" && r[|r| - 1] == '"' && Out(r, |r| - 1, at) && In(r, |r|, at) && inner == InnerStack(r)
    ensures TrimTo(r) == |r| || In(r, TrimTo(r), inner)
  {
    InnerIsIn(r, at);
    assert WsEnd(r, |r|) == |r| && TrimTo(r) == WithoutDangling(r, |r|);
    DanglingOpens(r, |r|, inner);
  }

  lemma InnerIsIn(r: Text, at: seq<char>)
    requires r != "" && Out(r, |r| - 1, at)
    ensures var q := QuoteEnd(r, |r| - 1); q > 0 ==> In(r, q - 1, InnerStack(r))
  {
    QuoteBefore(r, |r| - 1, at);
  }

  // ------------------------------------------------------ well-escaped inputs

  predicate IsHex(c: char) {
    '0' <= c <= '9' || 'a' <= c <= 'f' || 'A' <= c <= 'F'
  }

  /** A backslash at i that starts an escape: inside a string, and valid as far as the
      text goes. */
  predicate ValidEscape(t: Text, i: nat)
    requires i < |t|
  {
    && At(t, i).inString
    && (i + 1 < |t| ==> t[i + 1] in "\"\\/bfnrtu")
    && (i + 1 < |t| && t[i + 1] == 'u' ==> forall k | i + 2 <= k < i + 6 && k < |t| :: IsHex(t[k]))
  }

  /** The string that ends at k, and not just an escaped quote of it, is a key: a colon
      follows. */
  predicate IsKeyEnd(t: Text, k: nat, colon: nat)
    requires k <= colon < |t|
  {
    k > 0 && t[k - 1] == '"' && !At(t, k).inString && t[colon] == ':' && k == WsEnd(t, colon)
  }

  predicate EscapesValid(t: Text) {
    forall i | 0 <= i < |t| :: t[i] == '\\' && !At(t, i).escaped ==> ValidEscape(t, i)
  }

  /** Backslashes occur only as valid or truncated escapes inside value strings. */
  predicate WellEscaped(t: Text) {
    && EscapesValid(t)
    && (forall i, k, colon | 0 <= i < k <= colon < |t| && IsKeyEnd(t, k, colon)
          && (forall m | i <= m < k :: At(t, m).inString) :: t[i] != '\\')
  }

  /** Every well-escaped text is repaired to a balanced one. */
  lemma WellEscapedBalances(s: Text)
    requires WellEscaped(Kept(s).buf)
    ensures Balanced(Repair(s))
  {
    var st := Kept(s);
    KeptIsClean(TrimSpace(s));
    AtInvariant(st.buf, |st.buf|);
    if st.inString {
      UnicodeCutStays(st);
      ClosedString(st);
      ClosedHasNoKey(st);
    } else if st.stack != [] {
      KeyIsSafe(st.buf, st.stack);
    }
    RepairBalances(s);
  }

  lemma ClosedHasNoKey(st: Lexer)
    requires st.inString
    ensures KeyCutSafe(CloseString(st))
  {
    var r := CloseString(st);
    assert r[|r| - 1] == '"';
  }

  lemma UnicodeCutStays(st: Lexer)
    requires EscapesValid(st.buf) && At(st.buf, |st.buf|) == View(st) && st.inString
    ensures UnicodeCutSafe(st)
  {
    var b := st.buf;
    AtInvariant(b, |b|);
    NotEscapedAtCut(st);
    var n, m := EscapeEnd(st), UnicodeCut(b, EscapeEnd(st));
    if m < n {
      assert b[m] == '\\' && b[m + 1] == 'u';
      EscapeStartIn(b, m, n, st.stack);
    }
  }

  lemma EscapeStartIn(b: Text, m: nat, n: nat, stack: seq<char>)
    requires EscapesValid(b) && m + 2 <= n <= |b| && n < m + 6 && b[m] == '\\' && b[m + 1] == 'u'
    requires !At(b, m).escaped && At(b, m).ok && At(b, |b|).ok && n + 1 >= |b|
    requires In(b, |b|, stack) && (n < |b| ==> b[n] == '\\')
    ensures In(b, m, stack)
  {
    assert ValidEscape(b, m);
    StaysIn(b, m, |b|, At(b, m).stack);
  }

  lemma KeyIsSafe(b: Text, stack: seq<char>)
    requires WellEscaped(b) && Out(b, |b|, stack)
    ensures KeyCutSafe(b)
  {
    var n := WsEnd(b, |b|);
    if n > 0 && b[n - 1] == ':' {
      TrimOut(b, |b|, stack);
      OutBack(b, n, stack);
      KeyIsSafeAt(b, n, stack);
    }
  }

  lemma KeyIsSafeAt(b: Text, n: nat, stack: seq<char>)
    requires WellEscaped(b) && 0 < n <= |b| && Out(b, n - 1, stack) && b[n - 1] == ':'
    ensures KeySafe(b, n)
  {
    TrimOut(b, n - 1, stack);
    var k := WsEnd(b, n - 1);
    if k > 0 && b[k - 1] == '"' {
      RemoveString(b, k, stack);
      KeyNotEscaped(b, QuoteEnd(b, k - 1), k, n - 1, stack);
    }
  }

  lemma KeyNotEscaped(b: Text, q: nat, k: nat, colon: nat, stack: seq<char>)
    requires WellEscaped(b) && k <= colon < |b| && IsKeyEnd(b, k, colon) && 0 < q == QuoteEnd(b, k - 1)
    ensures !(In(b, q - 1, stack) && At(b, q - 1).escaped && q > 1 && b[q - 2] == '\\')
  {
    if In(b, q - 1, stack) && At(b, q - 1).escaped && q > 1 && b[q - 2] == '\\' {
      AllInside(b, q, k, stack);
    }
  }

  lemma AllInside(b: Text, q: nat, k: nat, stack: seq<char>)
    requires 1 < q <= k - 1 && k <= |b| && q == QuoteEnd(b, k - 1) && b[q - 2] == '\\'
    requires In(b, q - 1, stack) && At(b, q - 1).escaped
    ensures forall j | q - 2 <= j < k :: At(b, j).inString
  {
    InBack(b, q - 1, stack);
    QuoteIsLast(b, k - 1);
    forall j | q - 1 <= j < k ensures At(b, j).inString {
      StaysInside(b, q - 1, j, stack);
    }
  }

  lemma {:induction false} QuoteIsLast(t: Text, n: nat)
    requires n <= |t|
    ensures forall i | QuoteEnd(t, n) <= i < n :: t[i] != '"'
  {
    if n > 0 && t[n - 1] != '"' {
      QuoteIsLast(t, n - 1);
    }
  }

  /** After an escaped quote the string goes on to the next quote. */
  lemma StaysInside(t: Text, k: nat, n: nat, stack: seq<char>)
    requires k <= n <= |t| && In(t, k, stack) && At(t, k).escaped
    requires forall i | k < i < n :: t[i] != '"'
    ensures At(t, n).inString
  {
    if k < n {
      StaysIn(t, k + 1, n, stack);
    }
  }

  // ------------------------------------------------------------- repairing again

  lemma NoTrailingSpace(s: Text)
    requires s != "" && IsBracket(s[|s| - 1])
    ensures TrailingSpace(s) == 0 && TrimRightSpace(s) == s
  {
  }

  /** The text ends, at a word boundary, in the beginning of this word. */
  predicate EndsInPart(t: Text, kw: Text) {
    exists n :: 0 < n < |kw| && EndsAtBoundary(t, kw[..n])
  }

  /** The text, but for white space, ends in a keyword or a number that is cut short. */
  predicate Truncated(r: Text) {
    var t := TrimRightWs(r);
    && t != ""
    && ((exists i :: 0 <= i < |KEYWORDS| && EndsInPart(t, KEYWORDS[i]))
        || (IsNumberTail(t[|t| - 1]) && forall i | 0 <= i < |KEYWORDS| :: !EndsAtBoundary(t, KEYWORDS[i])))
  }

  /** What was kept leaves no white space at an end of the repaired text. With a bracket open
      the closers end that text; else there must be a text, and what is cut short or the
      lack of white space ends it. */
  predicate StaysRepaired(st: Lexer) {
    if st.stack != [] then LeadingSpace(st.buf) == 0
    else
      var r := CloseString(st);
      r != "" && LeadingSpace(r) == 0 && (TrailingSpace(r) == 0 || Truncated(r))
  }

  /** When the cuts are safe, this is exactly when repairing again changes nothing. */
  lemma RepairAgain(s: Text)
    requires CutsSafe(s)
    ensures Repair(Repair(s)) == Repair(s) <==> TrimSpace(s) == "" || StaysRepaired(Kept(s))
  {
    KeywordsAreWords();
    RepairBalances(s);
    if TrimSpace(s) == "" {
      EmptyObjectBalances();
      RepairBalanced("{}", KEYWORDS);
    } else if Kept(s).stack != [] {
      AtInvariantOf(TrimSpace(s));
      EndsInBracket(s, KEYWORDS);
      RepairBalanced(Repair(s), KEYWORDS);
      SameLeadingSpace(s, KEYWORDS);
    } else {
      CompletionSettles(CloseString(Kept(s)), Repair(s));
    }
  }

  /** Nothing is open: completing what trails is all that is left to do. */
  lemma CompletionSettles(c: Text, r: Text)
    requires r == CompleteTrailing(c, KEYWORDS) && Balanced(r)
    ensures Repair(r) == r <==> c != "" && LeadingSpace(c) == 0 && (TrailingSpace(c) == 0 || Truncated(c))
  {
    KeywordsAreWords();
    BalancedAgain(r, KEYWORDS);
    CompletingTwice(c);
    CompletionGrows(c, KEYWORDS);
    TruncatedIsCompleted(c);
    if r != c {
      GrownEnds(c, r);
    }
  }

  /** r goes on where t ends, with letters or a zero. */
  predicate Grows(t: Text, r: Text) {
    t != "" && t < r && forall i | |t| <= i < |r| :: IsLetter(r[i]) || r[i] == '0'
  }

  lemma GrownEnds(c: Text, r: Text)
    requires Grows(TrimRightWs(c), r)
    ensures TrailingSpace(r) == 0 && (LeadingSpace(c) == 0 <==> LeadingSpace(r) == 0)
  {
    var n := WsEnd(c, |c|);
    SpaceAfter(c, |c|);
    assert forall i | 0 <= i < n :: c[i] == TrimRightWs(c)[i] == r[i];
    var k := |r| - 1;
    assert IsLetter(r[k]) || r[k] == '0';
  }

  lemma {:induction false} SpaceAfter(c: Text, n: nat)
    requires n <= |c|
    ensures forall i | WsEnd(c, n) <= i < n :: IsWs(c[i])
  {
    if n > 0 && IsWs(c[n - 1]) {
      SpaceAfter(c, n - 1);
    }
  }

  lemma {:induction false} KeywordGrows(s: Text, trimmed: Text, kws: seq<Text>)
    requires Words(kws) && trimmed != ""
    ensures var r := CompleteKeyword(s, trimmed, kws); r.Some? && r.value != s ==> Grows(trimmed, r.value)
  {
    if kws != [] {
      KeywordGrows(s, trimmed, kws[1..]);
      var kw := kws[0];
      match PrefixAt(trimmed, kw, 1)
      case None =>
      case Some(n) =>
        CompletedGrows(trimmed, kw, n);
    }
  }

  lemma CompletedGrows(trimmed: Text, kw: Text, n: nat)
    requires 0 < n < |kw| && HasSuffix(trimmed, kw[..n]) && trimmed != ""
    requires forall i | 0 <= i < |kw| :: IsLetter(kw[i])
    ensures Grows(trimmed, trimmed[..|trimmed| - n] + kw)
  {
    var r := trimmed[..|trimmed| - n] + kw;
    assert trimmed == trimmed[..|trimmed| - n] + kw[..n];
    assert r == trimmed + kw[n..];
  }

  lemma CompletionGrows(c: Text, kws: seq<Text>)
    requires Words(kws)
    ensures var r := CompleteTrailing(c, kws); r == c || Grows(TrimRightWs(c), r)
  {
    if TrimRightWs(c) != "" {
      KeywordGrows(c, TrimRightWs(c), kws);
    }
  }

  /** A balanced text is kept by a repair exactly if there is nothing to trim or complete. */
  lemma BalancedAgain(r: Text, kws: seq<Text>)
    requires Words(kws) && Balanced(r)
    ensures RepairWith(r, kws) == r
            <==> r != "" && LeadingSpace(r) == 0 && TrailingSpace(r) == 0 && CompleteTrailing(r, kws) == r
  {
    TrimLeftKeeps(r);
    TrimRightKeeps(TrimLeftSpace(r));
    var t := TrimSpace(r);
    if r != "" && LeadingSpace(r) == 0 && TrailingSpace(r) == 0 {
      NotTrimmed(r);
    } else if t != "" {
      CompletionGrows(t, kws);
      NotTrimmedWs(t);
      if CompleteTrailing(t, kws) != t {
        GrownEnds(t, CompleteTrailing(t, kws));
      }
    }
  }

  lemma NotTrimmedWs(t: Text)
    requires t != "" && TrailingSpace(t) == 0
    ensures TrimRightWs(t) == t
  {
  }

  lemma {:induction false} TrimLeftKeeps(r: Text)
    requires Balanced(r)
    ensures Balanced(TrimLeftSpace(r)) && LeadingSpace(TrimLeftSpace(r)) == 0
    decreases |r|
  {
    if LeadingSpace(r) > 0 {
      RescanIsAt(r);
      SpaceIsPlain(r);
      TrimOne(r, LeadingSpace(r));
      RescanIsAt(r[LeadingSpace(r)..]);
      TrimLeftKeeps(r[LeadingSpace(r)..]);
    }
  }

  lemma {:induction false} TrimRightKeeps(r: Text)
    requires Balanced(r) && LeadingSpace(r) == 0
    ensures var t := TrimRightSpace(r); Balanced(t) && LeadingSpace(t) == 0 && TrailingSpace(t) == 0
    decreases |r|
  {
    if TrailingSpace(r) > 0 {
      var n := |r| - TrailingSpace(r);
      TrailIsPlain(r);
      CutPlain(r, n);
      PrefixLeads(r, n);
      TrimRightKeeps(r[..n]);
    }
  }

  lemma TrailIsPlain(r: Text)
    ensures forall i | |r| - TrailingSpace(r) <= i < |r| :: r[i] != '"' && !IsBracket(r[i])
  {
  }

  lemma CutPlain(r: Text, n: nat)
    requires Balanced(r) && n <= |r| && forall i | n <= i < |r| :: r[i] != '"' && !IsBracket(r[i])
    ensures Balanced(r[..n])
  {
    RescanIsAt(r);
    DropPlain(r, |r|, n, []);
    SamePrefix(r, r[..n], n);
    RescanIsAt(r[..n]);
  }

  lemma PrefixLeads(r: Text, n: nat)
    requires n <= |r| && LeadingSpace(r) == 0
    ensures LeadingSpace(r[..n]) == 0
  {
  }

  /** Completing twice is completing once: a keyword that is whole stays, and a number that
      was completed ends in a digit. */
  lemma CompletingTwice(c: Text)
    ensures var r := CompleteTrailing(c, KEYWORDS); CompleteTrailing(r, KEYWORDS) == r
  {
    KeywordsAreWords();
    Completed(c, CompleteTrailing(c, KEYWORDS), KEYWORDS);
    if i: nat :| i < |KEYWORDS| && EndsAtBoundary(CompleteTrailing(c, KEYWORDS), KEYWORDS[i]) {
      WordStays(CompleteTrailing(c, KEYWORDS), i);
    }
  }

  /** What completing does ends in a whole keyword, or is all done. */
  lemma Completed(c: Text, r: Text, kws: seq<Text>)
    requires Words(kws) && r == CompleteTrailing(c, kws)
    ensures CompleteTrailing(r, kws) == r || exists i :: 0 <= i < |kws| && EndsAtBoundary(r, kws[i])
  {
    var trimmed := TrimRightWs(c);
    if trimmed != "" {
      KeywordIsWhole(c, trimmed, kws);
      ZeroStays(trimmed, kws);
    }
  }

  lemma {:induction false} KeywordIsWhole(s: Text, trimmed: Text, kws: seq<Text>)
    requires Words(kws)
    ensures var r := CompleteKeyword(s, trimmed, kws);
            r.Some? && r.value != s ==> exists i :: 0 <= i < |kws| && EndsAtBoundary(r.value, kws[i])
  {
    if kws != [] {
      KeywordIsWhole(s, trimmed, kws[1..]);
      match PrefixAt(trimmed, kws[0], 1)
      case Some(n) =>
        var k := |trimmed| - n;
        var r := trimmed[..k] + kws[0];
        assert r[|r| - |kws[0]|..] == kws[0];
        assert EndsAtBoundary(r, kws[0]);
      case None =>
        var r := CompleteKeyword(s, trimmed, kws[1..]);
        if r.Some? && r.value != s {
          var i :| 0 <= i < |kws| - 1 && EndsAtBoundary(r.value, kws[1..][i]);
          assert EndsAtBoundary(r.value, kws[i + 1]);
        }
    }
  }

  /** No prefix of the word, of length n or more, ends the text. */
  predicate NoPrefixEnds(r: Text, kw: Text, n: nat) {
    forall m | n <= m < |kw| :: !HasSuffix(r, kw[..m])
  }

  lemma {:induction false} NoPrefixAt(r: Text, kw: Text, n: nat)
    requires 1 <= n <= |kw| && NoPrefixEnds(r, kw, n)
    ensures PrefixAt(r, kw, n).None?
    decreases |kw| - n
  {
    if n < |kw| {
      NoPrefixAt(r, kw, n + 1);
    }
  }

  lemma SkipWord(s: Text, trimmed: Text, kws: seq<Text>)
    requires Words(kws) && kws != [] && NoPrefixEnds(trimmed, kws[0], 1) && !HasSuffix(trimmed, kws[0])
    ensures CompleteKeyword(s, trimmed, kws) == CompleteKeyword(s, trimmed, kws[1..])
  {
    NoPrefixAt(trimmed, kws[0], 1);
  }

  lemma TakeWord(s: Text, trimmed: Text, kws: seq<Text>)
    requires Words(kws) && kws != [] && EndsAtBoundary(trimmed, kws[0])
    ensures CompleteKeyword(s, trimmed, kws) == Some(s)
  {
  }

  lemma SuffixAt(s: Text, word: Text, j: nat)
    requires 0 < j <= |word|
    ensures HasSuffix(s, word) ==> s[|s| - j] == word[|word| - j]
  {
    if HasSuffix(s, word) {
      assert s[|s| - |word|..][|word| - j] == s[|s| - j];
    }
  }

  predicate NotFound(r: Text, kw: Text) {
    NoPrefixEnds(r, kw, 1) && !HasSuffix(r, kw)
  }

  /** The first word that ends the text, as a whole or in part, decides. */
  lemma {:induction false} WholeIsFound(s: Text, t: Text, kws: seq<Text>, i: nat)
    requires Words(kws) && i < |kws| && EndsAtBoundary(t, kws[i])
    requires forall j | 0 <= j < i :: NotFound(t, kws[j])
    ensures CompleteKeyword(s, t, kws) == Some(s)
  {
    if i == 0 {
      TakeWord(s, t, kws);
    } else {
      assert NotFound(t, kws[0]);
      SkipWord(s, t, kws);
      assert forall j | 0 <= j < i - 1 :: kws[1..][j] == kws[j + 1];
      WholeIsFound(s, t, kws[1..], i - 1);
    }
  }

  /** A whole keyword is not taken for a part of one that is tried before it. */
  lemma WholeStays(r: Text, i: nat)
    requires i < |KEYWORDS| && EndsAtBoundary(TrimRightWs(r), KEYWORDS[i])
    ensures CompleteTrailing(r, KEYWORDS) == r
  {
    KeywordsAreWords();
    var t := TrimRightWs(r);
    forall j | 0 <= j < i ensures NotFound(t, KEYWORDS[j]) { WordsApart(t, i, j); }
    WholeIsFound(r, t, KEYWORDS, i);
  }

  lemma WordStays(r: Text, i: nat)
    requires i < |KEYWORDS| && EndsAtBoundary(r, KEYWORDS[i])
    ensures CompleteTrailing(r, KEYWORDS) == r
  {
    LastTwo(r, KEYWORDS[i]);
    NotTrimmedWs(r);
    WholeStays(r, i);
  }

  /** No text ends in two keywords, or in one and a part of one. */
  lemma WordsApart(t: Text, i: nat, j: nat)
    requires i < |KEYWORDS| && j < |KEYWORDS| && HasSuffix(t, KEYWORDS[i])
    ensures NoPrefixEnds(t, KEYWORDS[j], 1) && (j != i ==> !HasSuffix(t, KEYWORDS[j]))
  {
    LastTwo(t, KEYWORDS[i]);
    if HasSuffix(t, KEYWORDS[j]) {
      LastTwo(t, KEYWORDS[j]);
    }
    forall m | 1 <= m < |KEYWORDS[j]| ensures !HasSuffix(t, KEYWORDS[j][..m]) {
      if HasSuffix(t, KEYWORDS[j][..m]) {
        SuffixAt(t, KEYWORDS[j][..m], 1);
        if m > 1 {
          SuffixAt(t, KEYWORDS[j][..m], 2);
        }
      }
    }
  }

  lemma LastTwo(t: Text, kw: Text)
    requires |kw| > 1 && HasSuffix(t, kw)
    ensures |t| > 1 && t[|t| - 1] == kw[|kw| - 1] && t[|t| - 2] == kw[|kw| - 2]
  {
    SuffixAt(t, kw, 1);
    SuffixAt(t, kw, 2);
  }

  lemma {:induction false} PrefixAtIs(t: Text, kw: Text, n: nat)
    requires 1 <= n <= |kw|
    ensures PrefixAt(t, kw, n).None? ==> forall m | n <= m < |kw| :: !EndsAtBoundary(t, kw[..m])
    decreases |kw| - n
  {
    if n < |kw| {
      PrefixAtIs(t, kw, n + 1);
    }
  }

  /** With no whole keyword at the end, a part of one is completed, and nothing else. */
  lemma {:induction false} PartIsCompleted(s: Text, t: Text, kws: seq<Text>)
    requires Words(kws) && t != "" && t == TrimRightWs(s) && forall i | 0 <= i < |kws| :: !EndsAtBoundary(t, kws[i])
    requires forall i | 0 <= i < |kws| :: HasSuffix(t, kws[i]) ==> !EndsInPart(t, kws[i])
    ensures var r := CompleteKeyword(s, t, kws);
            if exists i :: 0 <= i < |kws| && EndsInPart(t, kws[i]) then r.Some? && r.value != s else r.None?
  {
    if kws != [] {
      PrefixAtIs(t, kws[0], 1);
      if !HasSuffix(t, kws[0]) && PrefixAt(t, kws[0], 1).Some? {
        assert EndsInPart(t, kws[0]);
        CompletedGrows(t, kws[0], PrefixAt(t, kws[0], 1).value);
        GrownDiffers(s, CompleteKeyword(s, t, kws).value);
      } else {
        assert !EndsInPart(t, kws[0]);
        assert forall i | 0 < i < |kws| :: kws[i] == kws[1..][i - 1];
        PartIsCompleted(s, t, kws[1..]);
      }
    }
  }

  lemma GrownDiffers(c: Text, r: Text)
    requires Grows(TrimRightWs(c), r)
    ensures r != c
  {
    SpaceAfter(c, |c|);
    var n := WsEnd(c, |c|);
    assert IsLetter(r[n]) || r[n] == '0';
  }

  /** Completing changes exactly the texts that are cut short. */
  lemma TruncatedIsCompleted(c: Text)
    ensures CompleteTrailing(c, KEYWORDS) != c <==> Truncated(c)
  {
    var t := TrimRightWs(c);
    KeywordsAreWords();
    if i: nat :| i < |KEYWORDS| && EndsAtBoundary(t, KEYWORDS[i]) {
      WholeStays(c, i);
      forall j: nat | j < |KEYWORDS| ensures !EndsInPart(t, KEYWORDS[j]) { WordsApart(t, i, j); }
    } else if t != "" {
      forall j: nat | j < |KEYWORDS| ensures HasSuffix(t, KEYWORDS[j]) ==> !EndsInPart(t, KEYWORDS[j]) {
        if HasSuffix(t, KEYWORDS[j]) {
          WordsApart(t, j, j);
        }
      }
      PartIsCompleted(c, t, KEYWORDS);
      if IsNumberTail(t[|t| - 1]) {
        GrownDiffers(c, t + "0");
      }
    }
  }

  lemma ZeroStays(trimmed: Text, kws: seq<Text>)
    requires Words(kws) && trimmed != ""
    ensures CompleteTrailing(trimmed + "0", kws) == trimmed + "0"
  {
    var r := trimmed + "0";
    assert r[|r| - 1] == '0';
    NotTrimmedWs(r);
    NoKeywordEnds(r, r, kws);
  }

  /** Both texts have this bracket at b and the same bytes before it. */
  predicate ShareBracket(t: Text, u: Text, b: nat) {
    b < |t| && b < |u| && t[..b + 1] == u[..b + 1] && IsBracket(t[b])
  }

  lemma SharedSpace(t: Text, u: Text, b: nat)
    requires ShareBracket(t, u, b)
    ensures LeadingSpace(t) == 0 <==> LeadingSpace(u) == 0
  {
    assert forall i | 0 <= i <= b :: t[i] == t[..b + 1][i] == u[i];
  }

  lemma {:induction false} NoBracketNoStack(t: Text, n: nat)
    requires n <= |t| && forall i | 0 <= i < n :: !IsBracket(t[i])
    ensures At(t, n).stack == [] && At(t, n).ok
  {
    if n > 0 {
      NoBracketNoStack(t, n - 1);
    }
  }

  /** Closers alone balance nothing. */
  lemma ClosersNeedBrackets(x: Text, stack: seq<char>)
    requires stack != [] && Brackets(stack) && forall i | 0 <= i < |x| :: !IsBracket(x[i])
    ensures var u := x + Closers(stack); !Out(u, |u|, [])
  {
    NoBracketNoStack(x, |x|);
    AtInvariant(x, |x|);
    CutAndClose(x, |x|, [], stack);
    assert x[..|x|] == x;
  }

  lemma HasBracket(x: Text, stack: seq<char>)
    requires stack != [] && Brackets(stack) && Balanced(x + Closers(stack))
    ensures exists b :: 0 <= b < |x| && IsBracket(x[b])
  {
    RescanIsAt(x + Closers(stack));
    if forall i | 0 <= i < |x| :: !IsBracket(x[i]) {
      ClosersNeedBrackets(x, stack);
      assert false;
    }
  }

  lemma {:induction false} KeywordKeepsBrackets(s: Text, trimmed: Text, kws: seq<Text>, b: nat)
    requires Words(kws) && trimmed <= s
    ensures match CompleteKeyword(s, trimmed, kws)
            case Some(r) => b < |r| && IsBracket(r[b]) ==> ShareBracket(r, s, b)
            case None => true
  {
    if kws != [] {
      KeywordKeepsBrackets(s, trimmed, kws[1..], b);
      match PrefixAt(trimmed, kws[0], 1)
      case None =>
      case Some(n) =>
        var r := trimmed[..|trimmed| - n] + kws[0];
        var k := |trimmed| - n;
        assert forall i | k <= i < |r| :: r[i] == kws[0][i - k];
        if b < |r| && IsBracket(r[b]) {
          assert r[..b + 1] == s[..b + 1];
        }
    }
  }

  /** Completing what trails touches no bracket and nothing before one. */
  lemma CompletionKeepsBrackets(r: Text, kws: seq<Text>, b: nat)
    requires Words(kws)
    ensures var c := CompleteTrailing(r, kws); b < |c| && IsBracket(c[b]) ==> ShareBracket(c, r, b)
  {
    var trimmed := TrimRightWs(r);
    KeywordKeepsBrackets(r, trimmed, kws, b);
    var zero := trimmed + "0";
    if b < |trimmed| {
      assert zero[..b + 1] == r[..b + 1];
    }
  }

  lemma SameLeadingSpace(s: Text, kws: seq<Text>)
    requires Words(kws) && Kept(s).stack != [] && TrimSpace(s) != "" && Balanced(RepairWith(s, kws))
    ensures LeadingSpace(RepairWith(s, kws)) == 0 <==> LeadingSpace(Kept(s).buf) == 0
  {
    var c := CompleteTrailing(CloseString(Kept(s)), kws);
    var x := TrimTrailingIncomplete(c);
    AtInvariantOf(TrimSpace(s));
    HasBracket(x, Kept(s).stack);
    var b :| 0 <= b < |x| && IsBracket(x[b]);
    KeptBracket(Kept(s), kws, x, b);
    SharedSpace(x + Closers(Kept(s).stack), Kept(s).buf, b);
  }

  lemma KeptBracket(st: Lexer, kws: seq<Text>, x: Text, b: nat)
    requires Words(kws) && b < |x| && IsBracket(x[b])
    requires x == TrimTrailingIncomplete(CompleteTrailing(CloseString(st), kws))
    ensures ShareBracket(x + Closers(st.stack), st.buf, b)
  {
    var r := CloseString(st);
    var c := CompleteTrailing(r, kws);
    var out := x + Closers(st.stack);
    assert x == c[..TrimTo(c)];
    assert out[..b + 1] == c[..b + 1];
    CompletionKeepsBrackets(r, kws, b);
    ClosingKeeps(st, b);
  }

  lemma ClosingKeeps(st: Lexer, b: nat)
    requires b < |CloseString(st)| && IsBracket(CloseString(st)[b])
    ensures b < |st.buf| && CloseString(st)[..b + 1] == st.buf[..b + 1]
  {
  }

  lemma EndsInBracket(s: Text, kws: seq<Text>)
    requires Words(kws) && Kept(s).stack != [] && Brackets(Kept(s).stack) && TrimSpace(s) != ""
    ensures var r := RepairWith(s, kws); r != "" && IsBracket(r[|r| - 1])
  {
    ClosersLast(TrimTrailingIncomplete(CompleteTrailing(CloseString(Kept(s)), kws)), Kept(s).stack);
  }

  lemma RepairBalanced(r: Text, kws: seq<Text>)
    requires Words(kws) && Balanced(r) && r != "" && IsBracket(r[|r| - 1])
    ensures RepairWith(r, kws) == r <==> LeadingSpace(r) == 0
  {
    if LeadingSpace(r) == 0 {
      StableWhenTrimmed(r, kws);
    } else {
      RescanIsAt(r);
      TrimLeftBalanced(r);
      StableWhenTrimmed(TrimLeftSpace(r), kws);
      SameWhenTrimmed(r, TrimLeftSpace(r), kws);
    }
  }

  lemma SameWhenTrimmed(r: Text, t: Text, kws: seq<Text>)
    requires Words(kws) && t == TrimLeftSpace(r) && LeadingSpace(t) == 0
    ensures RepairWith(r, kws) == RepairWith(t, kws)
  {
    assert TrimSpace(r) == TrimSpace(t);
  }

  lemma {:induction false} AtInvariantOf(s: Text)
    ensures Brackets(Rescan(s).stack)
  {
    KeptIsClean(s);
    AtInvariant(Rescan(s).buf, |Rescan(s).buf|);
  }

  lemma {:induction false} ClosersLast(x: Text, stack: seq<char>)
    requires stack != [] && Brackets(stack)
    ensures var u := x + Closers(stack); u != "" && IsBracket(u[|u| - 1])
    decreases |stack|
  {
    var c := [Closer(stack[|stack| - 1])];
    var rest := stack[..|stack| - 1];
    assert x + Closers(stack) == x + c + Closers(rest);
    if rest != [] {
      ClosersLast(x + c, rest);
    }
  }

  lemma StableWhenTrimmed(r: Text, kws: seq<Text>)
    requires Words(kws) && Balanced(r) && r != "" && IsBracket(r[|r| - 1]) && LeadingSpace(r) == 0
    ensures RepairWith(r, kws) == r
  {
    NoTrailingSpace(r);
    CompleteEnds(r, kws);
  }

  lemma {:induction false} SameSuffix(t: Text, k: nat, n: nat)
    requires k + n <= |t| && At(t, k) == Lex([], false, false, true)
    ensures At(t[k..], n) == At(t, k + n)
  {
    if n > 0 {
      SameSuffix(t, k, n - 1);
    }
  }

  lemma SpaceIsPlain(r: Text)
    ensures forall i | 0 <= i < LeadingSpace(r) :: r[i] != '"' && !IsBracket(r[i])
  {
  }

  lemma TrimOne(r: Text, k: nat)
    requires Out(r, |r|, []) && k <= |r| && forall i | 0 <= i < k :: r[i] != '"' && !IsBracket(r[i])
    ensures Out(r[k..], |r| - k, [])
  {
    AddPlain("", 0, r, k, []);
    SameSuffix(r, k, |r| - k);
  }

  lemma {:induction false} TrimLeftBalanced(r: Text)
    requires Out(r, |r|, []) && r != "" && IsBracket(r[|r| - 1])
    ensures var t := TrimLeftSpace(r);
            && Balanced(t) && t != "" && IsBracket(t[|t| - 1]) && LeadingSpace(t) == 0
            && (LeadingSpace(r) > 0 ==> |t| < |r|)
    decreases |r|
  {
    if LeadingSpace(r) > 0 {
      var t := r[LeadingSpace(r)..];
      DropSpace(r, LeadingSpace(r));
      TrimLeftBalanced(t);
    } else {
      RescanIsAt(r);
    }
  }

  lemma DropSpace(r: Text, k: nat)
    requires Out(r, |r|, []) && r != "" && IsBracket(r[|r| - 1]) && k == LeadingSpace(r)
    ensures var t := r[k..]; Out(t, |t|, []) && t != "" && t[|t| - 1] == r[|r| - 1]
  {
    SpaceIsPlain(r);
    TrimOne(r, k);
  }

  // ------------------------------------------------- where the promises end

  /** The \u cut looks five bytes back, here over the end of the string it is in. */
  lemma UnicodeCutGoesAstray()
    ensures !Balanced(Repair(['[', '"', '\\', 'u', '"', ']', '"']))
  {
    var s := ['[', '"', '\\', 'u', '"', ']', '"'];
    AstrayTrace(s);
    AstrayCut(s);
    NotTrimmed(s);
    AstrayCutUnbalances(s);
  }

  lemma NotTrimmed(s: Text)
    requires s != "" && LeadingSpace(s) == 0 && TrailingSpace(s) == 0
    ensures TrimSpace(s) == s
  {
  }

  lemma AstrayTrace(s: Text)
    requires s == ['[', '"', '\\', 'u', '"', ']', '"']
    ensures At(s, 2) == Lex(['['], true, false, true) && At(s, 7) == Lex([], true, false, true)
  {
    assert At(s, 1) == Lex(['['], false, false, true);
    assert At(s, 3) == Lex(['['], true, true, true);
    assert At(s, 4) == Lex(['['], true, false, true);
    assert At(s, 5) == Lex(['['], false, false, true);
    assert At(s, 6) == Lex([], false, false, true);
  }

  lemma AstrayCut(s: Text)
    requires s == ['[', '"', '\\', 'u', '"', ']', '"']
    ensures UnicodeCut(s, 7) == 2
  {
    assert UnicodeEnd(s, 4) == 4 && UnicodeEnd(s, 5) == 4 && UnicodeEnd(s, 6) == 4 && UnicodeEnd(s, 7) == 4;
    assert Backslashes(s, 2) == 0 && Backslashes(s, 3) == 1;
  }

  lemma AstrayCutUnbalances(s: Text)
    requires s != "" && TrimSpace(s) == s && At(s, |s|) == Lex([], true, false, true)
    requires UnicodeCut(s, |s|) <= |s| && At(s, UnicodeCut(s, |s|)).stack != []
    ensures !Balanced(Repair(s))
  {
    RescanIsAt(s);
    RepairBalances(s);
  }

  /** LastIndex takes the escaped quote of a key for the one that opens it. */
  lemma KeyCutGoesAstray()
    ensures !Balanced(Repair(['{', '"', '\\', '"', '"', ':']))
  {
    var s := ['{', '"', '\\', '"', '"', ':'];
    KeyTrace(s);
    assert WsEnd(s, 6) == 6 && WsEnd(s, 5) == 5 && QuoteEnd(s, 4) == 4;
    NotTrimmed(s);
    KeyCutUnbalances(s);
  }

  lemma KeyTrace(s: Text)
    requires s == ['{', '"', '\\', '"', '"', ':']
    ensures At(s, 3) == Lex(['{'], true, true, true) && At(s, 6) == Lex(['{'], false, false, true)
  {
    assert At(s, 1) == Lex(['{'], false, false, true);
    assert At(s, 2) == Lex(['{'], true, false, true);
    assert At(s, 4) == Lex(['{'], true, false, true);
    assert At(s, 5) == Lex(['{'], false, false, true);
  }

  lemma KeyCutUnbalances(s: Text)
    requires s != "" && TrimSpace(s) == s && At(s, |s|) == Lex(['{'], false, false, true) && !KeyCutSafe(s)
    ensures !Balanced(Repair(s))
  {
    RescanIsAt(s);
    RepairBalances(s);
  }

  /** A dropped closer can leave white space in front, which the next pass removes. */
  lemma RepairAgainTrims()
    ensures Repair("] [") == " []" && Repair(" []") == "[]"
  {
    KeywordsAreWords();
    FirstPass("] [", KEYWORDS);
    SecondPass(" []", "[]", KEYWORDS);
  }

  lemma SecondPass(r: Text, t: Text, kws: seq<Text>)
    requires r == " []" && t == "[]" && Words(kws)
    ensures RepairWith(r, kws) == t
  {
    PairBalances(t);
    StableWhenTrimmed(t, kws);
    assert LeadingSpace(r) == 1 && r[1..] == t;
    SameWhenTrimmed(r, t, kws);
  }

  lemma PairBalances(t: Text)
    requires t == "[]"
    ensures Balanced(t)
  {
    assert At(t, 1) == Lex(['['], false, false, true);
    RescanIsAt(t);
  }

  lemma FirstPass(s: Text, kws: seq<Text>)
    requires s == "] [" && Words(kws)
    ensures RepairWith(s, kws) == " []"
  {
    FirstScan(s);
    NotTrimmed(s);
    CloseBracket(" [", kws);
  }

  lemma FirstScan(s: Text)
    requires s == "] ["
    ensures Rescan(s) == Lexer(" [", ['['], false, false, false)
  {
    assert s[..2] == "] " && s[..1] == "]" && s[..0] == "" && "] "[..1] == "]" && "]"[..0] == "";
    assert Rescan("]") == START && Rescan("] ") == Lexer(" ", [], false, false, false);
  }

  lemma CloseBracket(r: Text, kws: seq<Text>)
    requires r != "" && r[|r| - 1] == '[' && Words(kws)
    ensures Finish(Lexer(r, ['['], false, false, false), kws) == r + "]"
  {
    CompleteEnds(r, kws);
    assert ['['][..0] == [] && Closers([]) == "";
    assert Closers(['[']) == "]";
    assert r[..|r|] == r;
  }

  // ------------------------------------------------------------ the program

  /** The byte loop of repairJSON. */
  method ScanInput(s: Text) returns (buf: Text, stack: seq<char>, inString: bool, escaped: bool)
    ensures var st := Rescan(s); buf == st.buf && stack == st.stack && inString == st.inString && escaped == st.escaped
  {
    buf, stack, inString, escaped := "", [], false, false;
    var halted := false;
    var i := 0;
    while i < |s| && !halted
      invariant i <= |s| && Lexer(buf, stack, inString, escaped, halted) == Rescan(s[..i])
    {
      var c := s[i];
      assert s[..i + 1][..i] == s[..i];
      if escaped {
        buf := buf + [c];
        escaped := false;
      } else if inString {
        buf := buf + [c];
        if c == '\\' {
          escaped := true;
        } else if c == '"' {
          inString := false;
        }
      } else if c == '"' {
        buf := buf + [c];
        inString := true;
      } else if c == '{' || c == '[' {
        if |stack| >= MAX_DEPTH {
          halted := true;
        } else {
          buf := buf + [c];
          stack := stack + [c];
        }
      } else if c == '}' || c == ']' {
        if |stack| > 0 && stack[|stack| - 1] == Opener(c) {
          buf := buf + [c];
          stack := stack[..|stack| - 1];
        }
      } else {
        buf := buf + [c];
      }
      i := i + 1;
    }
    HaltedStays(s, i);
    assert s[..|s|] == s;
  }

  /** The open string closed, its broken escape dropped. */
  method CloseOpenString(ghost st: Lexer, buf: Text, escaped: bool) returns (result: Text)
    requires buf == st.buf && escaped == st.escaped && (st.inString || st.escaped)
    ensures result == CloseString(st)
  {
    result := buf;
    if escaped && |result| > 0 && result[|result| - 1] == '\\' {
      result := result[..|result| - 1];
    }
    assert result == st.buf[..EscapeEnd(st)];
    result := DropUnicode(st.buf, result);
    result := result + "\"";
  }

  /** An incomplete \uXXXX at the end, dropped. */
  method DropUnicode(ghost whole: Text, text: Text) returns (result: Text)
    requires |text| <= |whole| && text == whole[..|text|]
    ensures result == whole[..UnicodeCut(whole, |text|)]
  {
    result := text;
    SameUnicodeEnd(whole, text, |text|);
    var idx := UnicodeEnd(text, |text|);
    if idx > 0 && |text| - (idx - 2) < 6 {
      SameBackslashes(whole, text, idx - 1);
      if Backslashes(text, idx - 1) % 2 == 1 {
        result := text[..idx - 2];
      }
    }
  }

  method CloseBrackets(text: Text, stack: seq<char>) returns (closed: Text)
    ensures closed == text + Closers(stack)
  {
    closed := text;
    var k := |stack|;
    assert stack[..|stack|] == stack;
    while k > 0
      invariant 0 <= k <= |stack| && closed + Closers(stack[..k]) == text + Closers(stack)
    {
      k := k - 1;
      assert stack[..k + 1][..k] == stack[..k];
      assert closed + Closers(stack[..k + 1]) == closed + [Closer(stack[k])] + Closers(stack[..k]);
      closed := closed + [Closer(stack[k])];
    }
    assert closed + [] == closed;
  }

  /** repairJSON: one pass over the bytes, then the result string reassigned. */
  method RepairJson(input: Text) returns (result: Text)
    ensures result == Repair(input)
  {
    var s := TrimSpace(input);
    if s == "" {
      return "{}";
    }
    var buf, stack, inString, escaped := ScanInput(s);
    result := buf;
    if inString || escaped {
      result := CloseOpenString(Rescan(s), buf, escaped);
    }
    result := CompleteTrailing(result, KEYWORDS);
    if |stack| > 0 {
      result := TrimTrailingIncomplete(result);
      result := CloseBrackets(result, stack);
    }
  }

  lemma {:induction false} HaltedStays(s: Text, i: nat)
    requires i <= |s|
    requires i < |s| ==> Rescan(s[..i]).halted
    ensures Rescan(s[..|s|]) == Rescan(s[..i])
    decreases |s| - i
  {
    if i < |s| {
      assert s[..i + 1][..i] == s[..i];
      HaltedStays(s, i + 1);
    }
  }

  lemma {:induction false} SameUnicodeEnd(t: Text, u: Text, n: nat)
    requires n <= |t| && n <= |u| && forall i | 0 <= i < n :: t[i] == u[i]
    ensures UnicodeEnd(t, n) == UnicodeEnd(u, n)
  {
    if n >= 2 {
      SameUnicodeEnd(t, u, n - 1);
    }
  }

  lemma {:induction false} SameBackslashes(t: Text, u: Text, n: nat)
    requires n <= |t| && n <= |u| && forall i | 0 <= i < n :: t[i] == u[i]
    ensures Backslashes(t, n) == Backslashes(u, n)
  {
    if n > 0 {
      SameBackslashes(t, u, n - 1);
    }
  }
}
