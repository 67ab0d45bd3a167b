/**
 * Reading printed terms back: a parser for the token fragment, and the round trip through the
 * characters that the layout engine writes, whatever its state when printing starts.
 */
module Reading {
  import opened Decimal
  import opened Formatting
  import opened Lexing
  import opened Printing
  import opened Sequences

  // ----- Tokens of a term -----

  function ScopeToks(scope: string): seq<Token> {
    if scope == "" then [] else [Percent, Word(scope)]
  }

  function RefName(p: char, n: nat): string {
    [p] + Numeral(n)
  }

  function SignedToks(v: int): seq<Token> {
    if v < 0 then [Open, Minus, Nat(Numeral(-v)), Close] else [Nat(Numeral(v))]
  }

  function Toks(t: Term): seq<Token> {
    match t
    case Ident(x) => [Word(x)]
    case Ref(p, n) => [Word(RefName(p, n))]
    case Quote(s) => [Token.Str(s)]
    case Num(v, scope) => SignedToks(v) + ScopeToks(scope)
    case Ctor(x, args, _) => [Open, Word(x)] + ArgToks(args) + [Close]
    case Seq(es, bare) => if bare && es == [] then [Word("nil")] else [Open] + ElemToks(es) + [Word("nil"), Close]
    case Tuple(ps) => [Open] + PartToks(ps) + [Close]
    case Remarked(_, u) => Toks(u)
  }

  function ArgToks(args: seq<Arg>): seq<Token> {
    if args == [] then [] else OneArgToks(args[0]) + ArgToks(args[1..])
  }

  function OneArgToks(a: Arg): seq<Token> {
    Toks(a.t)
  }

  function ElemToks(es: seq<Term>): seq<Token> {
    if es == [] then [] else Toks(es[0]) + [ConsT] + ElemToks(es[1..])
  }

  function PartToks(ps: seq<Term>): seq<Token> {
    if ps == [] then []
    else if |ps| == 1 then Toks(ps[0])
    else Toks(ps[0]) + [Comma] + PartToks(ps[1..])
  }

  // ----- Which terms print unambiguously -----

  predicate RefShaped(w: string) {
    |w| > 1 && (w[0] == 't' || w[0] == 'n') && AllDigits(w[1..])
  }

  // What a term leaves pending, and what it starts with.
  datatype EndKind = EndIdle | EndWord | EndNat | EndStr | EndOpen
  datatype First = FirstWord(c: char) | FirstNat | FirstQuote | FirstOpen | FirstLine

  function End(t: Term): EndKind {
    match t
    case Ident(_) | Ref(_, _) => EndWord
    case Quote(_) => EndStr
    case Num(v, scope) => if scope != "" then EndWord else if v < 0 then EndIdle else EndNat
    case Ctor(_, _, _) | Tuple(_) => EndIdle
    case Seq(es, bare) => if bare && es == [] then EndWord else EndIdle
    case Remarked(_, u) => End(u)
  }

  function Start(t: Term): First {
    match t
    case Ident(x) => FirstWord(if x == "" then ' ' else x[0])
    case Ref(p, _) => FirstWord(p)
    case Quote(_) => FirstQuote
    case Num(v, _) => if v < 0 then FirstOpen else FirstNat
    case Ctor(_, _, line) => if line then FirstLine else FirstOpen
    case Tuple(_) | Remarked(_, _) => FirstOpen
    case Seq(es, bare) => if bare && es == [] then FirstWord('n') else FirstOpen
  }

  // Printed without a space, the second would be swallowed by the first.
  predicate Fuses(e: EndKind, f: First) {
    match e
    case EndWord => f.FirstWord? || f.FirstNat?
    case EndNat => f.FirstNat? || (f.FirstWord? && NumberGoesOn(f.c))
    case EndStr => f.FirstQuote?
    case _ => false
  }

  // The names are names, the comments close, and a separator is left out only where nothing fuses.
  predicate Wf(t: Term) {
    match t
    case Ident(x) => IsWord(x) && x != "nil" && !RefShaped(x)
    case Ref(p, _) => p == 't' || p == 'n'
    case Quote(_) => true
    case Num(_, scope) => scope == "" || IsWord(scope)
    case Ctor(x, args, _) => IsWord(x) && x != "nil" && WfArgs(args, true, EndWord)
    case Seq(es, _) => WfAll(es)
    case Tuple(ps) => |ps| >= 2 && WfAll(ps)
    case Remarked(c, u) => Quotes(c) % 2 == 0 && Wf(u)
  }

  predicate WfArgs(args: seq<Arg>, gap: bool, e: EndKind) {
    args == [] ||
    (&& WfArg(args[0])
     && (gap || args[0].sep || !Fuses(e, Start(args[0].t)))
     && WfArgs(args[1..], false, End(args[0].t)))
  }

  predicate WfArg(a: Arg) {
    Wf(a.t)
  }

  predicate WfAll(ts: seq<Term>) {
    ts == [] || (Wf(ts[0]) && WfAll(ts[1..]))
  }

  // ----- From characters to tokens -----

  // The engine with its output already scanned.
  datatype Conf = Conf(lex: Lexer, depth: nat, spaces: nat, blank: bool)

  function Indentation(c: Conf): nat {
    (if c.blank then c.depth else 0) + c.spaces
  }

  function ScanWrite(c: Conf, s: string): Conf {
    Conf(Scan(Scan(c.lex, Blanks(Indentation(c))), s), c.depth, 0, false)
  }

  function ScanStep(op: Op, c: Conf): Conf {
    match op
    case Text(s) => ScanWrite(c, s)
    case Line => Conf(Scan(c.lex, "\n"), c.depth, 0, true)
    case Nbsp => c.(spaces := 1)
    case Indent => c.(depth := c.depth + 2)
    case Outdent => c.(depth := Shallower(c.depth))
    case LParen => ScanWrite(c, "(").(depth := c.depth + 2)
    case RParen => ScanWrite(c.(depth := Shallower(c.depth), spaces := 0), ")")
  }

  function ScanRun(ops: seq<Op>, c: Conf): Conf {
    if ops == [] then c else ScanRun(ops[1..], ScanStep(ops[0], c))
  }

  function Scanned(st: State): Conf {
    Conf(Scan(START, st.out), st.depth, st.spaces, st.blank)
  }

  lemma {:induction false} ScanFollowsRun(ops: seq<Op>, st: State)
    ensures ScanRun(ops, Scanned(st)) == Scanned(Run(ops, st))
  {
    if ops != [] {
      var st' := Step(ops[0], st);
      assert ScanStep(ops[0], Scanned(st)) == Scanned(st') by {
        ScanWriteFollows(st, match ops[0] case Text(s) => s case _ => "(");
        ScanWriteFollows(st.(depth := Shallower(st.depth), spaces := 0), ")");
        ScanAppend(START, st.out, "\n");
      }
      ScanFollowsRun(ops[1..], st');
    }
  }

  lemma ScanWriteFollows(st: State, s: string)
    ensures ScanWrite(Scanned(st), s) == Scanned(Write(st, s))
  {
    ScanAppend(START, st.out, Pending(st));
    ScanAppend(START, st.out + Pending(st), s);
  }

  lemma {:induction false} ScanRunAppend(a: seq<Op>, b: seq<Op>, c: Conf)
    ensures ScanRun(a + b, c) == ScanRun(b, ScanRun(a, c))
    decreases a
  {
    if a == [] {
      assert a + b == b;
    } else {
      assert (a + b)[1..] == a[1..] + b;
      ScanRunAppend(a[1..], b, ScanStep(a[0], c));
    }
  }

  lemma ScanRunTwo(a: Op, b: Op, c: Conf)
    ensures ScanRun([a, b], c) == ScanStep(b, ScanStep(a, c))
  {
    assert [a, b][1..] == [b];
    assert ScanRun([b], ScanStep(a, c)) == ScanStep(b, ScanStep(a, c));
  }

  lemma ScanRunThree(a: Op, b: Op, d: Op, c: Conf)
    ensures ScanRun([a, b, d], c) == ScanStep(d, ScanStep(b, ScanStep(a, c)))
  {
    assert [a, b, d][1..] == [b, d];
    ScanRunTwo(b, d, ScanStep(a, c));
  }

  function Kind(m: Mode): EndKind {
    match m
    case InWord(_) => EndWord
    case InNat(_) => EndNat
    case MaybeEnd(_) => EndStr
    case Paren => EndOpen
    case _ => EndIdle
  }

  predicate Ready(c: Conf, f: First) {
    Settled(c.lex.mode) && (Indentation(c) > 0 || !Fuses(Kind(c.lex.mode), f))
  }

  // From c to r exactly the tokens ts were added, and text is on the line.
  predicate Emitted(c: Conf, ts: seq<Token>, e: EndKind, r: Conf) {
    && Settled(r.lex.mode) && Kind(r.lex.mode) == e
    && Flush(r.lex).toks == Flush(c.lex).toks + ts
    && r.depth == c.depth && r.spaces == 0 && !r.blank
  }

  predicate StartsAs(s: string, f: First) {
    && s != ""
    && (f.FirstWord? ==> s[0] == f.c && WordStart(f.c))
    && (f.FirstNat? ==> IsDigit(s[0]))
    && (f.FirstQuote? ==> s[0] == '"')
    && (f.FirstOpen? ==> s[0] == '(')
    && !f.FirstLine?
  }

  // The deferred blanks only separate.
  lemma BeforeWrite(c: Conf, s: string, f: First) returns (l: Lexer)
    requires Ready(c, f) && StartsAs(s, f)
    ensures l == Scan(c.lex, Blanks(Indentation(c)))
    ensures Settled(l.mode) && !Merges(l.mode, s[0]) && Flush(l) == Flush(c.lex)
  {
    ScanBlanks(c.lex, Indentation(c));
    l := Scan(c.lex, Blanks(Indentation(c)));
  }

  lemma EmitWord(c: Conf, w: string)
    requires IsWord(w) && Ready(c, FirstWord(w[0]))
    ensures Emitted(c, [Word(w)], EndWord, ScanWrite(c, w))
    ensures ScanWrite(c, w).lex == Lexer(Flush(c.lex).toks, InWord(w))
  {
    var l := BeforeWrite(c, w, FirstWord(w[0]));
    ScanWord(l, w);
  }

  lemma EmitRef(p: char, n: nat, c: Conf)
    requires p == 't' || p == 'n'
    requires Ready(c, FirstWord(p))
    ensures Emitted(c, Toks(Ref(p, n)), EndWord, ScanRun(Ops(Ref(p, n)), c))
  {
    ScanRunTwo(Text([p]), Text(Numeral(n)), c);
    EmitWord(c, [p]);
    var mid := ScanWrite(c, [p]);
    ScanBlanks(mid.lex, 0);
    ScanInWord(mid.lex.toks, [p], Numeral(n));
  }

  lemma EmitQuote(c: Conf, s: string)
    requires Ready(c, FirstQuote)
    ensures Emitted(c, [Token.Str(s)], EndStr, ScanWrite(c, Literal(s)))
  {
    var l := BeforeWrite(c, Literal(s), FirstQuote);
    ScanLiteral(l, s);
  }

  lemma ScanScope(l: Lexer, scope: string)
    requires Settled(l.mode) && !l.mode.Paren? && (scope == "" || IsWord(scope))
    ensures var r := Scan(l, if scope == "" then "" else "%" + scope);
            && Settled(r.mode) && Flush(r).toks == Flush(l).toks + ScopeToks(scope)
            && Kind(r.mode) == if scope == "" then Kind(l.mode) else EndWord
  {
    if scope == "" {
      Nil(Flush(l).toks);
    } else {
      ScanAppend(l, "%", scope);
      ScanWord(Lexer(Flush(l).toks + [Percent], Idle), scope);
      Assoc(Flush(l).toks, [Percent], [Word(scope)]);
      assert [Percent] + [Word(scope)] == ScopeToks(scope);
    }
  }

  lemma ScanSigned(l: Lexer, v: int)
    requires v < 0 && Settled(l.mode)
    ensures Scan(l, "(-" + Numeral(-v) + ")")
            == Lexer(Flush(l).toks + [Open, Minus, Nat(Numeral(-v)), Close], Idle)
  {
    var d, ts := Numeral(-v), Flush(l).toks;
    ScanAppend(l, "(-" + d, ")");
    ScanAppend(l, "(-", d);
    assert "(-"[1..] == "-" && "-"[1..] == "";
    assert Scan(l, "(-") == Advance(Advance(l, '('), '-');
    var l2 := Lexer(ts + [Open] + [Minus], Idle);
    ScanNat(l2, d);
    Assoc4(ts, [Open], [Minus], [Nat(d)]);
    Assoc(ts, [Open] + ([Minus] + [Nat(d)]), [Close]);
    assert [Open] + ([Minus] + [Nat(d)]) + [Close] == [Open, Minus, Nat(d), Close];
  }

  lemma ScanNumber(l: Lexer, v: int)
    requires Settled(l.mode) && !Merges(l.mode, SignedText(v)[0])
    ensures var r := Scan(l, SignedText(v));
            && Settled(r.mode) && !r.mode.Paren?
            && Flush(r).toks == Flush(l).toks + SignedToks(v)
            && Kind(r.mode) == if v < 0 then EndIdle else EndNat
  {
    if v < 0 {
      ScanSigned(l, v);
    } else {
      ScanNat(l, Numeral(v));
    }
  }

  lemma EmitNumber(c: Conf, v: int, scope: string)
    requires Ready(c, Start(Num(v, scope))) && (scope == "" || IsWord(scope))
    ensures Emitted(c, Toks(Num(v, scope)), End(Num(v, scope)), ScanWrite(c, NumberText(v, scope)))
  {
    var l := BeforeWrite(c, SignedText(v), Start(Num(v, scope)));
    ScanAppend(l, SignedText(v), if scope == "" then "" else "%" + scope);
    ScanNumber(l, v);
    ScanScope(Scan(l, SignedText(v)), scope);
    Assoc(Flush(l).toks, SignedToks(v), ScopeToks(scope));
  }

  lemma EmitOpen(c: Conf)
    requires Ready(c, FirstOpen)
    ensures Emitted(c, [Open], EndOpen, ScanWrite(c, "("))
  {
    var l := BeforeWrite(c, "(", FirstOpen);
  }

  // A closing parenthesis or a comma ends whatever is pending.
  lemma EmitMark(c: Conf, s: string, tok: Token)
    requires Settled(c.lex.mode) && ((s == ")" && tok == Close) || (s == "," && tok == Comma))
    ensures Emitted(c, [tok], EndIdle, ScanWrite(c, s))
  {
    ScanBlanks(c.lex, Indentation(c));
    var l := Scan(c.lex, Blanks(Indentation(c)));
    assert s[1..] == "";
    assert Scan(l, s) == Advance(l, s[0]) == Begin(Flush(l).toks, s[0]);
  }

  lemma EmitCons(c: Conf)
    requires Settled(c.lex.mode) && !c.blank
    ensures var r := ScanRun([Nbsp, Text("::"), Nbsp], c);
            Emitted(c, [ConsT], EndIdle, r.(spaces := 0)) && r.spaces == 1
  {
    ScanRunThree(Nbsp, Text("::"), Nbsp, c);
    ScanBlanks(c.lex, 1);
    assert "::"[1..] == ":" && ":"[1..] == "";
    assert Scan(Flush(c.lex), "::") == Advance(Advance(Flush(c.lex), ':'), ':');
  }

  // The central step: printing a term adds its tokens and nothing else, whatever the layout state.
  lemma {:induction false} EmitTerm(t: Term, c: Conf)
    requires Wf(t) && Ready(c, Start(t))
    ensures Emitted(c, Toks(t), End(t), ScanRun(Ops(t), c))
    decreases t, 0
  {
    match t
    case Ident(x) => EmitWord(c, x);
    case Ref(p, n) => EmitRef(p, n, c);
    case Quote(s) => EmitQuote(c, s);
    case Num(v, scope) => EmitNumber(c, v, scope);
    case Ctor(x, args, line) => EmitCtor(x, args, line, c);
    case Seq(es, bare) =>
      if bare && es == [] {
        EmitWord(c, "nil");
      } else {
        EmitSeq(es, c);
        assert Ops(t) == [LParen] + ElemOps(es) + [Text("nil"), RParen];
      }
    case Tuple(ps) => EmitTuple(ps, c);
    case Remarked(s, u) =>
      EmitRemark(s, c);
      var head := [Text(Comment(s)), Nbsp];
      ScanRunAppend(head, Ops(u), c);
      EmitTerm(u, ScanRun(head, c));
  }

  // A comment in front adds no token.
  lemma EmitRemark(s: string, c: Conf)
    requires Quotes(s) % 2 == 0 && Ready(c, FirstOpen)
    ensures var r := ScanRun([Text(Comment(s)), Nbsp], c);
            && Settled(r.lex.mode) && Flush(r.lex).toks == Flush(c.lex).toks
            && r.depth == c.depth && r.spaces == 1
  {
    ScanRunTwo(Text(Comment(s)), Nbsp, c);
    var l := BeforeWrite(c, Comment(s), FirstOpen);
    CommentCloses(l, s);
  }

  lemma {:induction false} EmitTuple(ps: seq<Term>, c: Conf)
    requires ps != [] && WfAll(ps) && Ready(c, FirstOpen)
    ensures Emitted(c, Toks(Tuple(ps)), EndIdle, ScanRun(Ops(Tuple(ps)), c))
    decreases ps, 2
  {
    Assoc([Text("(")], PartOps(ps), [Text(")")]);
    ScanRunAppend([Text("(")], PartOps(ps) + [Text(")")], c);
    EmitOpen(c);
    EmitRestOfTuple(ps, ScanWrite(c, "("));
    Assoc(Flush(c.lex).toks, [Open], PartToks(ps) + [Close]);
    Assoc([Open], PartToks(ps), [Close]);
  }

  lemma {:induction false} EmitRestOfTuple(ps: seq<Term>, c: Conf)
    requires ps != [] && WfAll(ps) && AtElement(c)
    ensures Emitted(c, PartToks(ps) + [Close], EndIdle, ScanRun(PartOps(ps) + [Text(")")], c))
    decreases ps, 1
  {
    ScanRunAppend(PartOps(ps), [Text(")")], c);
    EmitParts(ps, c);
    EmitMark(ScanRun(PartOps(ps), c), ")", Close);
    Assoc(Flush(c.lex).toks, PartToks(ps), [Close]);
  }

  // After the head of a constructor: its tokens, one level deeper, and a pending space.
  lemma EmitHead(x: string, line: bool, c: Conf)
    requires IsWord(x) && Ready(c, if line then FirstLine else FirstOpen)
    ensures var r := ScanRun((if line then [Line] else []) + [LParen, Text(x), Nbsp], c);
            && Settled(r.lex.mode) && Kind(r.lex.mode) == EndWord
            && Flush(r.lex).toks == Flush(c.lex).toks + [Open, Word(x)]
            && r.depth == c.depth + 2 && r.spaces == 1 && !r.blank
  {
    var front := if line then [Line] else [];
    ScanRunAppend(front, [LParen, Text(x), Nbsp], c);
    var c0 := ScanRun(front, c);
    assert Ready(c0, FirstOpen) && Flush(c0.lex).toks == Flush(c.lex).toks && c0.depth == c.depth;
    ScanRunThree(LParen, Text(x), Nbsp, c0);
    EmitOpen(c0);
    EmitWord(ScanStep(LParen, c0), x);
    assert Flush(c.lex).toks + [Open] + [Word(x)] == Flush(c.lex).toks + [Open, Word(x)];
  }

  lemma {:induction false} EmitCtor(x: string, args: seq<Arg>, line: bool, c: Conf)
    requires IsWord(x) && WfArgs(args, true, EndWord)
    requires Ready(c, if line then FirstLine else FirstOpen)
    ensures var t := Ctor(x, args, line); Emitted(c, Toks(t), EndIdle, ScanRun(Ops(t), c))
    decreases args, 1
  {
    var head := (if line then [Line] else []) + [LParen, Text(x), Nbsp];
    ScanRunAppend(head + ArgOps(args), [RParen], c);
    ScanRunAppend(head, ArgOps(args), c);
    EmitHead(x, line, c);
    var c2 := ScanRun(head, c);
    EmitArgs(args, c2);
    var c3 := ScanRun(ArgOps(args), c2);
    EmitMark(c3.(depth := c.depth, spaces := 0), ")", Close);
    Assoc(Flush(c.lex).toks, [Open, Word(x)], ArgToks(args));
    Assoc(Flush(c.lex).toks, [Open, Word(x)] + ArgToks(args), [Close]);
  }

  lemma {:induction false} EmitArgs(args: seq<Arg>, c: Conf)
    requires Settled(c.lex.mode) && !c.blank && WfArgs(args, c.spaces > 0, Kind(c.lex.mode))
    ensures var r := ScanRun(ArgOps(args), c);
            && Settled(r.lex.mode) && Flush(r.lex).toks == Flush(c.lex).toks + ArgToks(args)
            && r.depth == c.depth && !r.blank
    decreases args, 0
  {
    if args == [] {
      Nil(Flush(c.lex).toks);
    } else {
      var a := args[0];
      var gap := if a.sep then [Nbsp] else [];
      ScanRunAppend(OneArgOps(a), ArgOps(args[1..]), c);
      ScanRunAppend(gap, Ops(a.t), c);
      var c1 := ScanRun(gap, c);
      EmitArg(a, c1);
      var c2 := ScanRun(Ops(a.t), c1);
      EmitArgs(args[1..], c2);
      Assoc(Flush(c.lex).toks, Toks(a.t), ArgToks(args[1..]));
    }
  }

  lemma {:induction false} EmitArg(a: Arg, c: Conf)
    requires Wf(a.t) && Ready(c, Start(a.t))
    ensures Emitted(c, Toks(a.t), End(a.t), ScanRun(Ops(a.t), c))
    decreases a, 0
  {
    EmitTerm(a.t, c);
  }

  lemma {:induction false} EmitSeq(es: seq<Term>, c: Conf)
    requires WfAll(es) && Ready(c, FirstOpen)
    ensures Emitted(c, [Open] + ElemToks(es) + [Word("nil"), Close], EndIdle,
                    ScanRun([LParen] + ElemOps(es) + [Text("nil"), RParen], c))
    decreases es, 1
  {
    ScanRunAppend([LParen] + ElemOps(es), [Text("nil"), RParen], c);
    ScanRunAppend([LParen], ElemOps(es), c);
    EmitOpen(c);
    var c1 := ScanStep(LParen, c);
    EmitElems(es, c1);
    var c2 := ScanRun(ElemOps(es), c1);
    ScanRunTwo(Text("nil"), RParen, c2);
    EmitWord(c2, "nil");
    var c3 := ScanWrite(c2, "nil");
    EmitMark(c3.(depth := c.depth), ")", Close);
    Assoc4(Flush(c.lex).toks, [Open], ElemToks(es), [Word("nil")]);
    Assoc(Flush(c.lex).toks + ([Open] + ElemToks(es)), [Word("nil")], [Close]);
    Assoc(Flush(c.lex).toks, [Open] + ElemToks(es), [Word("nil"), Close]);
    assert [Word("nil")] + [Close] == [Word("nil"), Close];
    Assoc(Flush(c.lex).toks, [Open], ElemToks(es));
  }

  // An element of a list may follow a space or an opening parenthesis.
  predicate AtElement(c: Conf) {
    Settled(c.lex.mode) && !c.blank && (c.spaces > 0 || c.lex.mode.Paren?)
  }

  lemma {:induction false} EmitElem(t: Term, c: Conf)
    requires Wf(t) && AtElement(c)
    ensures var r := ScanRun(OneElemOps(t), c);
            && AtElement(r) && r.depth == c.depth
            && Flush(r.lex).toks == Flush(c.lex).toks + (Toks(t) + [ConsT])
    decreases t, 1
  {
    ScanRunAppend(Ops(t), [Nbsp, Text("::"), Nbsp], c);
    EmitTerm(t, c);
    EmitCons(ScanRun(Ops(t), c));
    Assoc(Flush(c.lex).toks, Toks(t), [ConsT]);
  }

  lemma {:induction false} EmitElems(es: seq<Term>, c: Conf)
    requires WfAll(es) && AtElement(c)
    ensures var r := ScanRun(ElemOps(es), c);
            AtElement(r) && r.depth == c.depth && Flush(r.lex).toks == Flush(c.lex).toks + ElemToks(es)
    decreases es, 0
  {
    if es == [] {
      Nil(Flush(c.lex).toks);
    } else {
      ScanRunAppend(OneElemOps(es[0]), ElemOps(es[1..]), c);
      EmitElem(es[0], c);
      EmitElems(es[1..], ScanRun(OneElemOps(es[0]), c));
      Assoc(Flush(c.lex).toks, Toks(es[0]) + [ConsT], ElemToks(es[1..]));
    }
  }

  lemma {:induction false} EmitParts(ps: seq<Term>, c: Conf)
    requires WfAll(ps) && ps != [] && AtElement(c)
    ensures var r := ScanRun(PartOps(ps), c);
            && Settled(r.lex.mode) && Flush(r.lex).toks == Flush(c.lex).toks + PartToks(ps)
            && r.depth == c.depth && !r.blank && r.spaces == 0
    decreases ps, 0
  {
    EmitTerm(ps[0], c);
    if |ps| > 1 {
      var comma := [Text(","), Nbsp];
      ScanRunAppend(Ops(ps[0]) + comma, PartOps(ps[1..]), c);
      ScanRunAppend(Ops(ps[0]), comma, c);
      var c1 := ScanRun(Ops(ps[0]), c);
      ScanRunTwo(Text(","), Nbsp, c1);
      EmitMark(c1, ",", Comma);
      var c2 := ScanRun(comma, c1);
      EmitParts(ps[1..], c2);
      Assoc4(Flush(c.lex).toks, Toks(ps[0]), [Comma], PartToks(ps[1..]));
    }
  }

  // ----- The parser -----

  datatype Parsed<+T> = Fail | Done(value: T, rest: seq<Token>)

  function NumberOf(v: int, ts: seq<Token>): (r: Parsed<Term>)
    ensures r.Done? && |r.rest| <= |ts|
  {
    if |ts| >= 2 && ts[0] == Percent && ts[1].Word? then Done(Num(v, ts[1].w), ts[2..]) else Done(Num(v, ""), ts)
  }

  function WordOf(w: string): Term {
    if w == "nil" then Seq([], true) else if RefShaped(w) then Ref(w[0], Value(w[1..])) else Ident(w)
  }

  // After "(" this is the head of a constructor, not the first element of a list or tuple.
  predicate AtHead(ts: seq<Token>) {
    |ts| >= 2 && ts[0].Word? && ts[0].w != "nil" && !ts[1].ConsT? && !ts[1].Comma?
  }

  function ParseTerm(ts: seq<Token>): (r: Parsed<Term>)
    ensures r.Done? ==> |r.rest| < |ts|
    decreases |ts|, 0
  {
    if ts == [] then Fail
    else
      match ts[0]
      case Nat(d) => if AllDigits(d) then NumberOf(Value(d), ts[1..]) else Fail
      case Word(w) => Done(WordOf(w), ts[1..])
      case Str(s) => Done(Quote(s), ts[1..])
      case Open => ParseOpened(ts[1..])
      case _ => Fail
  }

  function ParseOpened(ts: seq<Token>): (r: Parsed<Term>)
    ensures r.Done? ==> |r.rest| < |ts|
    decreases |ts|, 1
  {
    if |ts| >= 3 && ts[0].Minus? && ts[1].Nat? && ts[2].Close? then
      if AllDigits(ts[1].d) then NumberOf(0 - Value(ts[1].d), ts[3..]) else Fail
    else if AtHead(ts) then
      match ParseArgs(ts[1..])
      case Fail => Fail
      case Done(args, rest) => Done(Ctor(ts[0].w, args, true), rest)
    else if |ts| >= 2 && ts[0] == Word("nil") && ts[1].Close? then Done(Seq([], true), ts[2..])
    else
      match ParseTerm(ts)
      case Fail => Fail
      case Done(t, rest) =>
        if rest == [] then Fail
        else if rest[0].ConsT? then
          match ParseElems(rest[1..])
          case Fail => Fail
          case Done(es, rest') => Done(Seq([t] + es, true), rest')
        else if rest[0].Comma? then
          match ParseParts(rest[1..])
          case Fail => Fail
          case Done(ps, rest') => Done(Tuple([t] + ps), rest')
        else Fail
  }

  function ParseArgs(ts: seq<Token>): (r: Parsed<seq<Arg>>)
    ensures r.Done? ==> |r.rest| < |ts|
    decreases |ts|, 1
  {
    if ts == [] then Fail
    else if ts[0].Close? then Done([], ts[1..])
    else
      match ParseTerm(ts)
      case Fail => Fail
      case Done(t, rest) =>
        match ParseArgs(rest)
        case Fail => Fail
        case Done(args, rest') => Done([Arg(true, t)] + args, rest')
  }

  function ParseElems(ts: seq<Token>): (r: Parsed<seq<Term>>)
    ensures r.Done? ==> |r.rest| < |ts|
    decreases |ts|, 1
  {
    if |ts| >= 2 && ts[0] == Word("nil") && ts[1].Close? then Done([], ts[2..])
    else
      match ParseTerm(ts)
      case Fail => Fail
      case Done(t, rest) =>
        if rest == [] || !rest[0].ConsT? then Fail
        else
          match ParseElems(rest[1..])
          case Fail => Fail
          case Done(es, rest') => Done([t] + es, rest')
  }

  function ParseParts(ts: seq<Token>): (r: Parsed<seq<Term>>)
    ensures r.Done? ==> |r.rest| < |ts|
    decreases |ts|, 1
  {
    match ParseTerm(ts)
    case Fail => Fail
    case Done(t, rest) =>
      if rest == [] then Fail
      else if rest[0].Close? then Done([t], rest[1..])
      else if rest[0].Comma? then
        match ParseParts(rest[1..])
        case Fail => Fail
        case Done(ps, rest') => Done([t] + ps, rest')
      else Fail
  }

  // The term without its layout choices and comments.
  function Erase(t: Term): Term {
    match t
    case Ctor(x, args, _) => Ctor(x, EraseArgs(args), true)
    case Seq(es, _) => Seq(EraseAll(es), true)
    case Tuple(ps) => Tuple(EraseAll(ps))
    case Remarked(_, u) => Erase(u)
    case _ => t
  }

  function EraseArgs(args: seq<Arg>): seq<Arg> {
    if args == [] then [] else [EraseArg(args[0])] + EraseArgs(args[1..])
  }

  function EraseArg(a: Arg): Arg {
    Arg(true, Erase(a.t))
  }

  function EraseAll(ts: seq<Term>): seq<Term> {
    if ts == [] then [] else [Erase(ts[0])] + EraseAll(ts[1..])
  }

  predicate NoScopeNext(rest: seq<Token>) {
    rest == [] || !rest[0].Percent?
  }

  // The tokens a term may begin with.
  lemma {:induction false} FirstToken(t: Term)
    requires Wf(t)
    ensures var ts := Toks(t);
            ts != [] && (ts[0].Open? || ts[0].Word? || ts[0].Nat? || ts[0].Str?)
            && (ts[0].Word? ==> |ts| == 1)
            && (ts[0].Open? ==> |ts| >= 3)
    decreases t
  {
    match t
    case Remarked(_, u) => FirstToken(u);
    case Tuple(ps) => FirstToken(ps[0]);
    case _ =>
  }

  lemma RefRoundTrip(p: char, n: nat)
    requires p == 't' || p == 'n'
    ensures WordOf(RefName(p, n)) == Ref(p, n) && RefName(p, n) != "nil"
  {
    assert RefName(p, n)[1..] == Numeral(n);
    ValueOfNumeral(n);
    assert IsDigit(RefName(p, n)[1]);
  }

  lemma ParseScope(v: int, scope: string, rest: seq<Token>)
    requires NoScopeNext(rest)
    ensures NumberOf(v, ScopeToks(scope) + rest) == Done(Num(v, scope), rest)
  {
    var tail := ScopeToks(scope) + rest;
    if scope == "" {
      assert tail == rest;
    } else {
      assert tail[2..] == rest && tail[0] == Percent && tail[1] == Word(scope);
    }
  }

  lemma ParseNumber(v: int, scope: string, rest: seq<Token>)
    requires NoScopeNext(rest)
    ensures ParseTerm(Toks(Num(v, scope)) + rest) == Done(Num(v, scope), rest)
  {
    ParseScope(v, scope, rest);
    Assoc(SignedToks(v), ScopeToks(scope), rest);
    ParseSigned(v, ScopeToks(scope) + rest);
  }

  lemma ParseSigned(v: int, tail: seq<Token>)
    ensures ParseTerm(SignedToks(v) + tail) == NumberOf(v, tail)
  {
    if v < 0 {
      ParseNegative(-v, tail);
    } else {
      ParseNatural(v, tail);
    }
  }

  lemma ParseNatural(n: nat, tail: seq<Token>)
    ensures ParseTerm([Nat(Numeral(n))] + tail) == NumberOf(n, tail)
  {
    ValueOfNumeral(n);
    Tail(Nat(Numeral(n)), tail);
  }

  lemma ParseNegative(n: nat, tail: seq<Token>)
    requires n > 0
    ensures ParseTerm([Open, Minus, Nat(Numeral(n)), Close] + tail) == NumberOf(-(n as int), tail)
  {
    var mid := [Minus, Nat(Numeral(n)), Close];
    ValueOfNumeral(n);
    assert [Open, Minus, Nat(Numeral(n)), Close] == [Open] + mid;
    Assoc([Open], mid, tail);
    Tail(Open, mid + tail);
    assert (mid + tail)[3..] == tail;
  }

  lemma {:induction false} ParseToks(t: Term, rest: seq<Token>)
    requires Wf(t) && NoScopeNext(rest)
    ensures ParseTerm(Toks(t) + rest) == Done(Erase(t), rest)
    decreases t, 1
  {
    var ts := Toks(t) + rest;
    match t
    case Ident(x) => assert ts[1..] == rest;
    case Ref(p, n) =>
      RefRoundTrip(p, n);
      assert ts[1..] == rest;
    case Quote(s) => assert ts[1..] == rest;
    case Num(v, scope) => ParseNumber(v, scope, rest);
    case Ctor(x, args, line) => ParseCtor(x, args, line, rest);
    case Seq(es, bare) =>
      if bare && es == [] {
        assert ts[1..] == rest;
      } else {
        Assoc4([Open], ElemToks(es), [Word("nil"), Close], rest);
        ParseSeq(es, rest);
      }
    case Tuple(ps) =>
      Assoc4([Open], PartToks(ps), [Close], rest);
      ParseTuple(ps, rest);
    case Remarked(_, u) => ParseToks(u, rest);
  }

  lemma {:induction false} ParseCtor(x: string, args: seq<Arg>, line: bool, rest: seq<Token>)
    requires Wf(Ctor(x, args, line))
    ensures ParseTerm(Toks(Ctor(x, args, line)) + rest) == Done(Erase(Ctor(x, args, line)), rest)
    decreases args, 1
  {
    var inner := ArgToks(args) + ([Close] + rest);
    var inside := [Word(x)] + inner;
    Assoc4([Open, Word(x)], ArgToks(args), [Close], rest);
    assert [Open, Word(x)] == [Open] + [Word(x)];
    Assoc([Open], [Word(x)], inner);
    Tail(Open, inside);
    Tail(Word(x), inner);
    HeadToken(args, rest);
    ParseArgToks(args, true, EndWord, rest);
  }

  lemma HeadToken(args: seq<Arg>, rest: seq<Token>)
    requires args == [] || WfArg(args[0])
    ensures var ts := ArgToks(args) + ([Close] + rest); ts != [] && !ts[0].ConsT? && !ts[0].Comma? && NoScopeNext(ts)
  {
    if args != [] {
      FirstToken(args[0].t);
    }
  }

  lemma {:induction false} ParseArgToks(args: seq<Arg>, gap: bool, e: EndKind, rest: seq<Token>)
    requires WfArgs(args, gap, e)
    ensures ParseArgs(ArgToks(args) + ([Close] + rest)) == Done(EraseArgs(args), rest)
    decreases args, 0
  {
    var ts := ArgToks(args) + ([Close] + rest);
    if args == [] {
      assert ts[1..] == rest;
    } else {
      var more := ArgToks(args[1..]) + ([Close] + rest);
      Assoc(OneArgToks(args[0]), ArgToks(args[1..]), [Close] + rest);
      FirstToken(args[0].t);
      HeadToken(args[1..], rest);
      ParseArg(args[0], more);
      ParseArgToks(args[1..], false, End(args[0].t), rest);
    }
  }

  lemma {:induction false} ParseArg(a: Arg, rest: seq<Token>)
    requires Wf(a.t) && NoScopeNext(rest)
    ensures ParseTerm(Toks(a.t) + rest) == Done(Erase(a.t), rest)
    decreases a, 0
  {
    ParseToks(a.t, rest);
  }

  // An opened list or tuple is not mistaken for a constructor or a number.
  lemma NotAHead(t: Term, mark: Token, more: seq<Token>)
    requires Wf(t) && (mark == ConsT || mark == Comma)
    ensures var ts := Toks(t) + ([mark] + more);
            !AtHead(ts) && !ts[0].Minus? && !(|ts| >= 2 && ts[0] == Word("nil") && ts[1].Close?)
  {
    FirstToken(t);
  }

  lemma {:induction false} ParseSeq(es: seq<Term>, rest: seq<Token>)
    requires WfAll(es)
    ensures var ts := ElemToks(es) + ([Word("nil"), Close] + rest);
            ParseTerm([Open] + ts) == ParseOpened(ts) == Done(Seq(EraseAll(es), true), rest)
    decreases es, 1
  {
    var ts := ElemToks(es) + ([Word("nil"), Close] + rest);
    Tail(Open, ts);
    if es == [] {
      assert ts[2..] == rest;
    } else {
      var more := ElemToks(es[1..]) + ([Word("nil"), Close] + rest);
      Assoc4(Toks(es[0]), [ConsT], ElemToks(es[1..]), [Word("nil"), Close] + rest);
      ParseToks(es[0], [ConsT] + more);
      ParseElemToks(es[1..], rest);
      FirstElem(es[0], EraseAll(es[1..]), more, rest);
    }
  }

  // The first element shows that a list was opened.
  lemma FirstElem(t: Term, others: seq<Term>, more: seq<Token>, rest: seq<Token>)
    requires Wf(t) && ParseTerm(Toks(t) + ([ConsT] + more)) == Done(Erase(t), [ConsT] + more)
    requires ParseElems(more) == Done(others, rest)
    ensures var ts := Toks(t) + ([ConsT] + more);
            ParseTerm([Open] + ts) == ParseOpened(ts) == Done(Seq([Erase(t)] + others, true), rest)
  {
    Tail(Open, Toks(t) + ([ConsT] + more));
    NotAHead(t, ConsT, more);
    Tail(ConsT, more);
  }

  lemma {:induction false} ParseElemToks(es: seq<Term>, rest: seq<Token>)
    requires WfAll(es)
    ensures ParseElems(ElemToks(es) + ([Word("nil"), Close] + rest)) == Done(EraseAll(es), rest)
    decreases es, 0
  {
    var ts := ElemToks(es) + ([Word("nil"), Close] + rest);
    if es == [] {
      assert ts[2..] == rest;
    } else {
      var more := ElemToks(es[1..]) + ([Word("nil"), Close] + rest);
      Assoc4(Toks(es[0]), [ConsT], ElemToks(es[1..]), [Word("nil"), Close] + rest);
      NotAHead(es[0], ConsT, more);
      ParseToks(es[0], [ConsT] + more);
      Tail(ConsT, more);
      ParseElemToks(es[1..], rest);
    }
  }

  lemma {:induction false} ParseTuple(ps: seq<Term>, rest: seq<Token>)
    requires |ps| >= 2 && WfAll(ps)
    ensures var ts := PartToks(ps) + ([Close] + rest);
            ParseTerm([Open] + ts) == ParseOpened(ts) == Done(Tuple(EraseAll(ps)), rest)
    decreases ps, 1
  {
    var ts := PartToks(ps) + ([Close] + rest);
    Tail(Open, ts);
    var more := PartToks(ps[1..]) + ([Close] + rest);
    Assoc4(Toks(ps[0]), [Comma], PartToks(ps[1..]), [Close] + rest);
    NotAHead(ps[0], Comma, more);
    ParseToks(ps[0], [Comma] + more);
    Tail(Comma, more);
    ParsePartToks(ps[1..], rest);
  }

  lemma {:induction false} ParsePartToks(ps: seq<Term>, rest: seq<Token>)
    requires ps != [] && WfAll(ps)
    ensures ParseParts(PartToks(ps) + ([Close] + rest)) == Done(EraseAll(ps), rest)
    decreases ps, 0
  {
    if |ps| == 1 {
      ParseLastPart(ps[0], rest);
      assert EraseAll(ps) == [Erase(ps[0])] + EraseAll(ps[1..]) == [Erase(ps[0])];
    } else {
      var more := PartToks(ps[1..]) + ([Close] + rest);
      Assoc4(Toks(ps[0]), [Comma], PartToks(ps[1..]), [Close] + rest);
      ParseToks(ps[0], [Comma] + more);
      Tail(Comma, more);
      ParsePartToks(ps[1..], rest);
    }
  }

  lemma {:induction false} ParseLastPart(t: Term, rest: seq<Token>)
    requires Wf(t)
    ensures ParseParts(Toks(t) + ([Close] + rest)) == Done([Erase(t)], rest)
    decreases t, 2
  {
    ParseToks(t, [Close] + rest);
    assert ([Close] + rest)[1..] == rest;
  }

  // ----- The round trip over characters -----

  function Read(s: string): Parsed<Term> {
    match Lex(s)
    case Malformed => Fail
    case Tokens(ts) => ParseTerm(ts)
  }

  // The characters that printing t adds to an engine in state st.
  function Characters(t: Term, st: State): string {
    Run(Ops(t), State("", st.depth, st.spaces, st.blank)).out
  }

  lemma LexCharacters(t: Term, st: State)
    requires Wf(t) && st.out == ""
    ensures Lex(Run(Ops(t), st).out) == Tokens(Toks(t))
  {
    ScanFollowsRun(Ops(t), st);
    EmitTerm(t, Scanned(st));
    Nil(Toks(t));
  }

  // Printing a term from any depth, pending space and line state writes characters that read back to
  // the term, all of them: layout never changes the token sequence.
  lemma PrintThenRead(t: Term, st: State)
    requires Wf(t)
    ensures Run(Ops(t), st).out == st.out + Characters(t, st)
    ensures Lex(Characters(t, st)) == Tokens(Toks(t))
    ensures Read(Characters(t, st)) == Done(Erase(t), [])
  {
    var clean := State("", st.depth, st.spaces, st.blank);
    Nil(st.out);
    RunFrame(st.out, Ops(t), clean);
    LexCharacters(t, clean);
    Nil(Toks(t));
    ParseToks(t, []);
  }
}
