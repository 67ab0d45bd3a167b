/**
 * A scanner for the printed fragment of Rocq, one character at a time, after the section
 * "Lexical conventions" of the Rocq Reference Manual: blanks separate tokens, a doubled quote stands
 * for a quote inside a string, comments nest, and strings inside comments are scanned as strings.
 */
module Lexing {
  import opened Decimal
  import opened Formatting

  datatype Token =
    | Word(w: string)
    | Nat(d: string)
    | Str(s: string)
    | Open | Close | Comma | ConsT | Percent | Minus

  // Inside a comment: the half-read delimiter, or an open string.
  datatype Inside = Plain | SawParen | SawStar | Quoted

  datatype Mode =
    | Idle
    | InWord(w: string)
    | InNat(d: string)
    | InStr(s: string)
    | MaybeEnd(s: string)           // a quote was read inside a string
    | Colon
    | Paren
    | Remark(level: nat, sub: Inside)
    | Stuck

  datatype Lexer = Lexer(toks: seq<Token>, mode: Mode)

  const START := Lexer([], Idle)

  predicate IsLetter(c: char) {
    'a' <= c <= 'z' || 'A' <= c <= 'Z' || c == '_'
  }

  predicate WordStart(c: char) {
    IsLetter(c) || c == '@'
  }

  predicate WordChar(c: char) {
    IsLetter(c) || IsDigit(c) || c == '\'' || c == '.'
  }

  predicate IsWord(w: string) {
    w != "" && WordStart(w[0]) && forall i :: 1 <= i < |w| ==> WordChar(w[i])
  }

  predicate IsBlank(c: char) {
    c == ' ' || c == '\n' || c == '\t'
  }

  // A position where a new token may start.
  predicate Settled(m: Mode) {
    m.Idle? || m.InWord? || m.InNat? || m.MaybeEnd? || m.Paren?
  }

  // The pending token, completed.
  function Flush(l: Lexer): Lexer {
    match l.mode
    case InWord(w) => Lexer(l.toks + [Word(w)], Idle)
    case InNat(d) => Lexer(l.toks + [Nat(d)], Idle)
    case MaybeEnd(s) => Lexer(l.toks + [Str(s)], Idle)
    case Paren => Lexer(l.toks + [Open], Idle)
    case _ => l
  }

  function Begin(toks: seq<Token>, c: char): Lexer {
    if IsBlank(c) then Lexer(toks, Idle)
    else if WordStart(c) then Lexer(toks, InWord([c]))
    else if IsDigit(c) then Lexer(toks, InNat([c]))
    else if c == '"' then Lexer(toks, InStr(""))
    else if c == '(' then Lexer(toks, Paren)
    else if c == ')' then Lexer(toks + [Close], Idle)
    else if c == ',' then Lexer(toks + [Comma], Idle)
    else if c == ':' then Lexer(toks, Colon)
    else if c == '%' then Lexer(toks + [Percent], Idle)
    else if c == '-' then Lexer(toks + [Minus], Idle)
    else Lexer(toks, Stuck)
  }

  function RemarkStep(level: nat, sub: Inside, c: char): Mode {
    if sub.Quoted? then Remark(level, if c == '"' then Plain else Quoted)
    else if c == '"' then Remark(level, Quoted)
    else if sub.SawParen? && c == '*' then Remark(level + 1, Plain)
    else if sub.SawStar? && c == ')' then (if level <= 1 then Idle else Remark(level - 1, Plain))
    else if c == '(' then Remark(level, SawParen)
    else if c == '*' then Remark(level, SawStar)
    else Remark(level, Plain)
  }

  // Rocq's numbers may go on with a hexadecimal part, an exponent or an underscore. No such number is
  // printed, and none is read here.
  predicate NumberGoesOn(c: char) {
    c == 'x' || c == 'X' || c == 'e' || c == 'E' || c == '_'
  }

  // The character continues the pending token instead of starting a new one.
  predicate Merges(m: Mode, c: char) {
    match m
    case InWord(_) => WordChar(c)
    case InNat(_) => IsDigit(c) || NumberGoesOn(c)
    case MaybeEnd(_) => c == '"'
    case Paren => c == '*'
    case _ => false
  }

  function Advance(l: Lexer, c: char): Lexer {
    match l.mode
    case InStr(s) => l.(mode := if c == '"' then MaybeEnd(s) else InStr(s + [c]))
    case Colon => if c == ':' then Lexer(l.toks + [ConsT], Idle) else l.(mode := Stuck)
    case Remark(n, sub) => l.(mode := RemarkStep(n, sub, c))
    case Stuck => l
    case Idle => Begin(l.toks, c)
    case InWord(w) =>
      if WordChar(c) then l.(mode := InWord(w + [c])) else Begin(Flush(l).toks, c)
    case InNat(d) =>
      if IsDigit(c) then l.(mode := InNat(d + [c]))
      else if NumberGoesOn(c) then l.(mode := Stuck)
      else Begin(Flush(l).toks, c)
    case MaybeEnd(s) =>
      if c == '"' then l.(mode := InStr(s + [c])) else Begin(Flush(l).toks, c)
    case Paren =>
      if c == '*' then l.(mode := Remark(1, Plain)) else Begin(Flush(l).toks, c)
  }

  function Scan(l: Lexer, s: string): Lexer
    decreases s
  {
    if s == "" then l else Scan(Advance(l, s[0]), s[1..])
  }

  datatype Tokens = Malformed | Tokens(toks: seq<Token>)

  function Lex(s: string): Tokens {
    var l := Flush(Scan(START, s));
    if l.mode.Idle? then Tokens(l.toks) else Malformed
  }

  lemma {:induction false} ScanAppend(l: Lexer, a: string, b: string)
    ensures Scan(l, a + b) == Scan(Scan(l, a), b)
    decreases a
  {
    if a == "" {
      assert a + b == b;
    } else {
      assert (a + b)[1..] == a[1..] + b;
      ScanAppend(Advance(l, a[0]), a[1..], b);
    }
  }

  lemma {:induction false} ScanBlanks(l: Lexer, n: nat)
    requires Settled(l.mode)
    ensures Scan(l, Blanks(n)) == if n == 0 then l else Flush(l)
  {
    if n > 0 {
      ScanBlanks(l, n - 1);
      ScanAppend(l, Blanks(n - 1), " ");
    }
  }

  // ----- Words, numbers -----

  lemma {:induction false} ScanInWord(toks: seq<Token>, w: string, more: string)
    requires forall i :: 0 <= i < |more| ==> WordChar(more[i])
    ensures Scan(Lexer(toks, InWord(w)), more) == Lexer(toks, InWord(w + more))
    decreases more
  {
    if more == "" {
      assert w + more == w;
    } else {
      ScanInWord(toks, w + [more[0]], more[1..]);
      assert w + [more[0]] + more[1..] == w + more;
    }
  }

  lemma ScanWord(l: Lexer, w: string)
    requires IsWord(w) && Settled(l.mode) && !Merges(l.mode, w[0])
    ensures Scan(l, w) == Lexer(Flush(l).toks, InWord(w))
  {
    ScanInWord(Flush(l).toks, [w[0]], w[1..]);
    assert [w[0]] + w[1..] == w;
  }

  lemma {:induction false} ScanInNat(toks: seq<Token>, d: string, more: string)
    requires AllDigits(more)
    ensures Scan(Lexer(toks, InNat(d)), more) == Lexer(toks, InNat(d + more))
    decreases more
  {
    if more == "" {
      assert d + more == d;
    } else {
      ScanInNat(toks, d + [more[0]], more[1..]);
      assert d + [more[0]] + more[1..] == d + more;
    }
  }

  lemma ScanNat(l: Lexer, d: string)
    requires d != "" && AllDigits(d) && Settled(l.mode) && !Merges(l.mode, d[0])
    ensures Scan(l, d) == Lexer(Flush(l).toks, InNat(d))
  {
    ScanInNat(Flush(l).toks, [d[0]], d[1..]);
    assert [d[0]] + d[1..] == d;
  }

  // ----- String literals -----

  function Doubled(s: string): string {
    if s == "" then ""
    else (if s[0] == '"' then "\"\"" else [s[0]]) + Doubled(s[1..])
  }

  function Literal(s: string): string {
    "\"" + Doubled(s) + "\""
  }

  lemma {:induction false} ScanInStr(toks: seq<Token>, pre: string, s: string)
    ensures Scan(Lexer(toks, InStr(pre)), Doubled(s)) == Lexer(toks, InStr(pre + s))
    decreases s
  {
    if s == "" {
      assert pre + s == pre;
    } else {
      var c := if s[0] == '"' then "\"\"" else [s[0]];
      ScanAppend(Lexer(toks, InStr(pre)), c, Doubled(s[1..]));
      ScanOneDoubled(toks, pre, s[0]);
      ScanInStr(toks, pre + [s[0]], s[1..]);
      assert pre + [s[0]] + s[1..] == pre + s;
    }
  }

  // At every place before its final quote a literal is open, or half of a doubled quote has been read:
  // it does not close early.
  lemma LiteralStaysOpen(l: Lexer, s: string, k: nat)
    requires Settled(l.mode) && !Merges(l.mode, '"') && k <= |Doubled(s)|
    ensures var l' := Scan(l, "\"" + Doubled(s)[..k]);
            && l'.toks == Flush(l).toks
            && (l'.mode.InStr? || (l'.mode.MaybeEnd? && k < |Doubled(s)| && Doubled(s)[k] == '"'))
            && (k == |Doubled(s)| ==> l'.mode == InStr(s))
  {
    ScanAppend(l, "\"", Doubled(s)[..k]);
    ScanDoubledPrefix(Flush(l).toks, "", s, k);
    assert Doubled(s)[..|Doubled(s)|] == Doubled(s) && "" + s == s;
    ScanInStr(Flush(l).toks, "", s);
  }

  lemma {:induction false} ScanDoubledPrefix(toks: seq<Token>, pre: string, s: string, k: nat)
    requires k <= |Doubled(s)|
    ensures var l' := Scan(Lexer(toks, InStr(pre)), Doubled(s)[..k]);
            && l'.toks == toks
            && (l'.mode.InStr? || (l'.mode.MaybeEnd? && k < |Doubled(s)| && Doubled(s)[k] == '"'))
    decreases s
  {
    if s != "" && k > 0 {
      var c := if s[0] == '"' then "\"\"" else [s[0]];
      if k < |c| {
        assert Doubled(s)[..k] == "\"" && "\""[1..] == "" && Doubled(s)[1] == c[1];
      } else {
        var rest := Doubled(s[1..])[..k - |c|];
        assert Doubled(s)[..k] == c + rest;
        ScanAppend(Lexer(toks, InStr(pre)), c, rest);
        ScanOneDoubled(toks, pre, s[0]);
        ScanDoubledPrefix(toks, pre + [s[0]], s[1..], k - |c|);
      }
    }
  }

  lemma ScanOneDoubled(toks: seq<Token>, pre: string, c: char)
    ensures Scan(Lexer(toks, InStr(pre)), if c == '"' then "\"\"" else [c]) == Lexer(toks, InStr(pre + [c]))
  {
    var d := if c == '"' then "\"\"" else [c];
    if c == '"' {
      assert d[1..] == "\"" && d[1..][1..] == "";
      assert Scan(Lexer(toks, MaybeEnd(pre)), d[1..]) == Lexer(toks, InStr(pre + ['"']));
    }
  }

  // Every string is read back from its literal, which closes at its final quote.
  lemma ScanLiteral(l: Lexer, s: string)
    requires Settled(l.mode) && !Merges(l.mode, '"')
    ensures Scan(l, Literal(s)) == Lexer(Flush(l).toks, MaybeEnd(s))
  {
    ScanAppend(l, "\"" + Doubled(s), "\"");
    ScanAppend(l, "\"", Doubled(s));
    ScanInStr(Flush(l).toks, "", s);
    assert "" + s == s;
  }

  // What follows a literal, unless it is a quote, ends it and starts a token of its own.
  lemma LiteralStandsAlone(s: string, rest: string)
    requires rest == "" || rest[0] != '"'
    ensures Flush(Scan(START, Literal(s) + rest)) == Flush(Scan(Lexer([Str(s)], Idle), rest))
  {
    ScanAppend(START, Literal(s), rest);
    ScanLiteral(START, s);
    assert [] + [Str(s)] == [Str(s)];
  }

  lemma {:induction false} DoubledInjective(a: string, b: string)
    requires Doubled(a) == Doubled(b)
    ensures a == b
  {
    ScanInStr([], "", a);
    ScanInStr([], "", b);
    assert "" + a == a && "" + b == b;
  }

  // ----- Comments -----

  predicate Clash(c: char, d: char) {
    (c == '(' && d == '*') || (c == '*' && d == ')')
  }

  // The body of a comment, with every delimiter broken by a space.
  function Escaped(s: string): (e: string)
    ensures s == "" <==> e == ""
    ensures s != "" ==> e[0] == s[0]
  {
    if s == "" then ""
    else [s[0]] + (if |s| > 1 && Clash(s[0], s[1]) then " " else "") + Escaped(s[1..])
  }

  function Comment(s: string): string {
    "(* " + Escaped(s) + " *)"
  }

  predicate NoDelimiter(e: string) {
    |e| > 1 ==> !Clash(e[0], e[1]) && NoDelimiter(e[1..])
  }

  function Quotes(s: string): nat {
    if s == "" then 0 else (if s[0] == '"' then 1 else 0) + Quotes(s[1..])
  }

  function WithoutSpaces(s: string): string {
    if s == "" then "" else (if s[0] == ' ' then "" else [s[0]]) + WithoutSpaces(s[1..])
  }

  lemma {:induction false} EscapedHasNoDelimiter(s: string)
    ensures NoDelimiter(Escaped(s))
  {
    if s != "" {
      EscapedHasNoDelimiter(s[1..]);
      var rest := Escaped(s[1..]);
      if |s| > 1 && Clash(s[0], s[1]) {
        assert Escaped(s) == [s[0], ' '] + rest;
      } else {
        assert Escaped(s) == [s[0]] + rest;
      }
    }
  }

  // Escaping changes exactly the texts that hold a delimiter, so escaping twice is escaping once.
  lemma {:induction false} EscapedFixpoint(s: string)
    ensures Escaped(s) == s <==> NoDelimiter(s)
    ensures |Escaped(s)| >= |s|
  {
    if s != "" {
      EscapedFixpoint(s[1..]);
      if !NoDelimiter(s) {
        EscapedHasNoDelimiter(s);
      }
    }
  }

  lemma EscapedIdempotent(s: string)
    ensures Escaped(Escaped(s)) == Escaped(s)
  {
    EscapedHasNoDelimiter(s);
    EscapedFixpoint(Escaped(s));
  }

  lemma {:induction false} WithoutSpacesAppend(a: string, b: string)
    ensures WithoutSpaces(a + b) == WithoutSpaces(a) + WithoutSpaces(b)
  {
    if a == "" {
      assert a + b == b;
    } else {
      assert (a + b)[1..] == a[1..] + b;
      WithoutSpacesAppend(a[1..], b);
    }
  }

  lemma {:induction false} EscapedChangesOnlySpaces(s: string)
    ensures WithoutSpaces(Escaped(s)) == WithoutSpaces(s)
    ensures Quotes(Escaped(s)) == Quotes(s)
  {
    if s != "" {
      EscapedChangesOnlySpaces(s[1..]);
      var rest := Escaped(s[1..]);
      if |s| > 1 && Clash(s[0], s[1]) {
        assert Escaped(s) == [s[0], ' '] + rest;
        assert Escaped(s)[1..] == [' '] + rest;
        assert ([' '] + rest)[1..] == rest;
        WithoutSpacesAppend([s[0], ' '], rest);
        assert [s[0], ' '][1..] == " ";
      } else {
        assert Escaped(s) == [s[0]] + rest;
        WithoutSpacesAppend([s[0]], rest);
      }
    }
  }

  // A half-read delimiter that the next character would complete.
  predicate Completes(sub: Inside, c: char) {
    (sub.SawParen? && c == '*') || (sub.SawStar? && c == ')')
  }

  // Text without delimiters leaves the comment at its level; only the parity of its quotes matters.
  lemma {:induction false} ScanRemark(toks: seq<Token>, sub: Inside, e: string)
    requires NoDelimiter(e)
    requires e != "" ==> !Completes(sub, e[0])
    ensures var l := Scan(Lexer(toks, Remark(1, sub)), e);
            && l.toks == toks && l.mode.Remark? && l.mode.level == 1
            && (l.mode.sub.Quoted? <==> (Quotes(e) + (if sub.Quoted? then 1 else 0)) % 2 == 1)
    decreases e
  {
    if e != "" {
      var m := RemarkStep(1, sub, e[0]);
      ScanRemark(toks, m.sub, e[1..]);
    }
  }

  lemma {:induction false} NoDelimiterPrefix(e: string, k: nat)
    requires NoDelimiter(e) && k <= |e|
    ensures NoDelimiter(e[..k])
  {
    if k > 1 {
      NoDelimiterPrefix(e[1..], k - 1);
      assert e[..k][1..] == e[1..][..k - 1];
    }
  }

  // Before its own terminator a printed comment never closes and never nests ...
  lemma CommentStaysOpen(l: Lexer, s: string, k: nat)
    requires Settled(l.mode)
    requires k <= |Escaped(s)|
    ensures var l' := Scan(l, "(* " + Escaped(s)[..k]);
            && l'.toks == Flush(l).toks && l'.mode.Remark? && l'.mode.level == 1
            && (k == |Escaped(s)| ==> (l'.mode.sub.Quoted? <==> Quotes(s) % 2 == 1))
  {
    var e := Escaped(s)[..k];
    ScanAppend(l, "(* ", e);
    assert "(* "[1..] == "* " && "* "[1..] == " " && " "[1..] == "";
    var toks := Flush(l).toks;
    assert Scan(l, "(* ") == Scan(Lexer(toks, Paren), "* ") == Scan(Lexer(toks, Remark(1, Plain)), " ");
    EscapedHasNoDelimiter(s);
    NoDelimiterPrefix(Escaped(s), k);
    ScanRemark(Flush(l).toks, Plain, e);
    EscapedChangesOnlySpaces(s);
    assert k == |Escaped(s)| ==> e == Escaped(s);
  }

  // ... and its terminator closes it exactly when the text holds an even number of quotes (an odd
  // one opens a string that swallows the terminator).
  lemma CommentCloses(l: Lexer, s: string)
    requires Settled(l.mode)
    ensures Scan(l, Comment(s)) == Lexer(Flush(l).toks, Idle) <==> Quotes(s) % 2 == 0
    ensures Quotes(s) % 2 == 1 ==> Scan(l, Comment(s)).mode.Remark?
  {
    ScanAppend(l, "(* " + Escaped(s), " *)");
    CommentStaysOpen(l, s, |Escaped(s)|);
    assert Escaped(s)[..|Escaped(s)|] == Escaped(s);
    var m := Scan(l, "(* " + Escaped(s));
    assert " *)"[1..] == "*)" && "*)"[1..] == ")" && ")"[1..] == "";
    assert Scan(m, " *)") == Advance(Advance(Advance(m, ' '), '*'), ')') by {
      assert Scan(Advance(m, ' '), "*)") == Scan(Advance(Advance(m, ' '), '*'), ")");
    }
  }

  // The witness of the odd case: a single quote.
  lemma LoneQuoteSwallowsTheTerminator()
    ensures Scan(START, Comment("\"")).mode.Remark?
  {
    assert Quotes("\"") == 1;
    CommentCloses(START, "\"");
  }
}
