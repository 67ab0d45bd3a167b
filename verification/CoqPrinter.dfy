/** The term printer over the layout engine, and the operations that each term stands for. */
module Printing {
  import opened Decimal
  import opened Formatting
  import opened Lexing
  import opened Sequences
  import opened Wrappers

  // sep: a non-breaking space is requested before the argument
  datatype Arg = Arg(sep: bool, t: Term)

  datatype Term =
    | Ident(name: string)
    | Ref(prefix: char, n: nat)                            // a cached type or name: `t12`, `n3`
    | Quote(s: string)
    | Num(v: int, scope: string)
    | Ctor(head: string, args: seq<Arg>, line: bool)       // on a line of its own if `line`
    | Seq(elems: seq<Term>, bare: bool)                    // `bare`: an empty one prints as `nil`
    | Tuple(parts: seq<Term>)
    | Remarked(text: string, t: Term)                      // a comment in front of a term

  // ----- Terms as layout operations -----

  function Ops(t: Term): seq<Op>
    decreases t, 0
  {
    match t
    case Ident(x) => [Text(x)]
    case Ref(p, n) => [Text([p]), Text(Numeral(n))]
    case Quote(s) => [Text(Literal(s))]
    case Num(v, scope) => [Text(NumberText(v, scope))]
    case Ctor(x, args, line) =>
      (if line then [Line] else []) + [LParen, Text(x), Nbsp] + ArgOps(args) + [RParen]
    case Seq(es, bare) =>
      if bare && es == [] then [Text("nil")] else [LParen] + ElemOps(es) + [Text("nil"), RParen]
    case Tuple(ps) => [Text("(")] + PartOps(ps) + [Text(")")]
    case Remarked(c, u) => [Text(Comment(c)), Nbsp] + Ops(u)
  }

  function OneArgOps(a: Arg): seq<Op> {
    (if a.sep then [Nbsp] else []) + Ops(a.t)
  }

  function ArgOps(args: seq<Arg>): seq<Op> {
    if args == [] then [] else OneArgOps(args[0]) + ArgOps(args[1..])
  }

  function OneElemOps(t: Term): seq<Op>
    decreases t, 1
  {
    Ops(t) + [Nbsp, Text("::"), Nbsp]
  }

  function ElemOps(es: seq<Term>): seq<Op> {
    if es == [] then [] else OneElemOps(es[0]) + ElemOps(es[1..])
  }

  function PartOps(ps: seq<Term>): seq<Op> {
    if ps == [] then []
    else if |ps| == 1 then Ops(ps[0])
    else Ops(ps[0]) + [Text(","), Nbsp] + PartOps(ps[1..])
  }

  lemma {:induction false} ArgOpsAppend(xs: seq<Arg>, a: Arg)
    ensures ArgOps(xs + [a]) == ArgOps(xs) + OneArgOps(a)
  {
    if xs == [] {
      assert xs + [a] == [a] && [a][1..] == [];
    } else {
      assert (xs + [a])[1..] == xs[1..] + [a];
      ArgOpsAppend(xs[1..], a);
    }
  }

  lemma {:induction false} ElemOpsAppend(xs: seq<Term>, ys: seq<Term>)
    ensures ElemOps(xs + ys) == ElemOps(xs) + ElemOps(ys)
  {
    if xs == [] {
      assert xs + ys == ys;
    } else {
      assert (xs + ys)[1..] == xs[1..] + ys;
      ElemOpsAppend(xs[1..], ys);
    }
  }

  // ----- Guards balance: no term trips the depth assertion, and each restores the depth -----

  lemma {:induction false} Balanced(t: Term, depth: nat)
    ensures Safe(Ops(t), depth) && DepthAfter(Ops(t), depth) == depth
    decreases t, 0
  {
    match t
    case Ctor(x, args, line) => BalancedCtor(x, args, line, depth);
    case Seq(es, bare) =>
      if bare && es == [] {
        FlatOps(Ops(t), depth);
      } else {
        BalancedElems(es, depth + 2);
        FlatOps([Text("nil")], depth + 2);
        SafeAppend(ElemOps(es), [Text("nil")], depth + 2);
        Guarded(ElemOps(es) + [Text("nil")], depth);
        assert Ops(t) == [LParen] + (ElemOps(es) + [Text("nil")]) + [RParen];
      }
    case Tuple(ps) =>
      BalancedParts(ps, depth);
      FlatOps([Text("(")], depth);
      FlatOps([Text(")")], depth);
      SafeAppend([Text("(")], PartOps(ps), depth);
      SafeAppend([Text("(")] + PartOps(ps), [Text(")")], depth);
    case Remarked(c, u) =>
      Balanced(u, depth);
      FlatOps([Text(Comment(c)), Nbsp], depth);
      SafeAppend([Text(Comment(c)), Nbsp], Ops(u), depth);
    case _ => FlatOps(Ops(t), depth);
  }

  lemma {:induction false} BalancedCtor(x: string, args: seq<Arg>, line: bool, depth: nat)
    ensures Safe(Ops(Ctor(x, args, line)), depth) && DepthAfter(Ops(Ctor(x, args, line)), depth) == depth
    decreases args, 1
  {
    var head, body := [Text(x), Nbsp], ArgOps(args);
    FlatOps(head, depth + 2);
    BalancedArgs(args, depth + 2);
    SafeAppend(head, body, depth + 2);
    Guarded(head + body, depth);
    var inner := [LParen] + (head + body) + [RParen];
    var front := if line then [Line] else [];
    FlatOps(front, depth);
    SafeAppend(front, inner, depth);
    assert Ops(Ctor(x, args, line)) == front + inner;
  }

  lemma {:induction false} BalancedArg(a: Arg, depth: nat)
    ensures Safe(OneArgOps(a), depth) && DepthAfter(OneArgOps(a), depth) == depth
    decreases a, 0
  {
    Balanced(a.t, depth);
    var gap := if a.sep then [Nbsp] else [];
    FlatOps(gap, depth);
    SafeAppend(gap, Ops(a.t), depth);
  }

  lemma {:induction false} BalancedArgs(args: seq<Arg>, depth: nat)
    ensures Safe(ArgOps(args), depth) && DepthAfter(ArgOps(args), depth) == depth
    decreases args, 0
  {
    if args != [] {
      BalancedArg(args[0], depth);
      BalancedArgs(args[1..], depth);
      SafeAppend(OneArgOps(args[0]), ArgOps(args[1..]), depth);
    }
  }

  lemma {:induction false} BalancedElems(es: seq<Term>, depth: nat)
    ensures Safe(ElemOps(es), depth) && DepthAfter(ElemOps(es), depth) == depth
    decreases es, 0
  {
    if es != [] {
      Balanced(es[0], depth);
      BalancedElems(es[1..], depth);
      FlatOps([Nbsp, Text("::"), Nbsp], depth);
      SafeAppend(Ops(es[0]), [Nbsp, Text("::"), Nbsp], depth);
      SafeAppend(OneElemOps(es[0]), ElemOps(es[1..]), depth);
    }
  }

  lemma {:induction false} BalancedParts(ps: seq<Term>, depth: nat)
    ensures Safe(PartOps(ps), depth) && DepthAfter(PartOps(ps), depth) == depth
    decreases ps, 0
  {
    if ps != [] {
      Balanced(ps[0], depth);
      if |ps| > 1 {
        BalancedParts(ps[1..], depth);
        FlatOps([Text(","), Nbsp], depth);
        SafeAppend(Ops(ps[0]), [Text(","), Nbsp], depth);
        SafeAppend(Ops(ps[0]) + [Text(","), Nbsp], PartOps(ps[1..]), depth);
      }
    }
  }

  lemma NextArg(head: seq<Op>, args: seq<Arg>, a: Arg, st: State)
    ensures Run(head + ArgOps(args + [a]), st) == Run(OneArgOps(a), Run(head + ArgOps(args), st))
  {
    ArgOpsAppend(args, a);
    Assoc(head, ArgOps(args), OneArgOps(a));
    RunAppend(head + ArgOps(args), OneArgOps(a), st);
  }

  // A printed list grows by one element.
  lemma NextElem(es: seq<Term>, t: Term, st: State)
    ensures Run([LParen] + ElemOps(es + [t]), st) == Run(OneElemOps(t), Run([LParen] + ElemOps(es), st))
  {
    ElemOpsAppend(es, [t]);
    assert [t][1..] == [];
    Nil(OneElemOps(t));
    Assoc([LParen], ElemOps(es), OneElemOps(t));
    RunAppend([LParen] + ElemOps(es), OneElemOps(t), st);
  }

  // ----- The printer -----

  // What the string printer writes for one character.
  function DoubledChar(c: char): string {
    if c == '"' then "\"\"" else [c]
  }

  lemma DoubledStep(s: string, i: nat)
    requires i < |s|
    ensures Doubled(s[i..]) == DoubledChar(s[i]) + Doubled(s[i + 1..])
  {
    assert s[i..][1..] == s[i + 1..];
  }

  // What the comment printer writes for one character.
  function EscapedChar(s: string, i: nat): string
    requires i < |s|
  {
    [s[i]] + if i + 1 < |s| && Clash(s[i], s[i + 1]) then " " else ""
  }

  lemma EscapedStep(s: string, i: nat)
    requires i < |s|
    ensures Escaped(s[i..]) == EscapedChar(s, i) + Escaped(s[i + 1..])
  {
    assert s[i..][1..] == s[i + 1..];
  }

  function AsSeq(x: Option<Term>): seq<Term> {
    if x.Some? then [x.value] else []
  }

  function Kept(xs: seq<Option<Term>>): seq<Term> {
    if xs == [] then [] else AsSeq(xs[0]) + Kept(xs[1..])
  }

  lemma {:induction false} KeptAppend(xs: seq<Option<Term>>, x: Option<Term>)
    ensures Kept(xs + [x]) == Kept(xs) + AsSeq(x)
  {
    if xs == [] {
      assert xs + [x] == [x] && [x][1..] == [];
    } else {
      assert (xs + [x])[1..] == xs[1..] + [x];
      KeptAppend(xs[1..], x);
    }
  }

  // What a filter callback does with an element: it prints a term or nothing, and says whether the
  // element is kept.
  datatype Answer = Answer(printed: Option<Term>, kept: bool)

  function PrintedOps(x: Answer): seq<Op> {
    if x.printed.Some? then Ops(x.printed.value) else []
  }

  function AnswerOps(x: Answer): seq<Op> {
    PrintedOps(x) + if x.kept then [Nbsp, Text("::"), Nbsp] else []
  }

  function FilteredOps(xs: seq<Answer>): seq<Op> {
    if xs == [] then [] else AnswerOps(xs[0]) + FilteredOps(xs[1..])
  }

  function FilteredList(xs: seq<Answer>): seq<Op> {
    if xs == [] then [Text("nil")] else [LParen] + FilteredOps(xs) + [Text("nil"), RParen]
  }

  // The callback keeps exactly what it prints.
  predicate Honest(x: Answer) {
    x.printed.Some? <==> x.kept
  }

  function AllPrinted(xs: seq<Answer>): seq<Term> {
    if xs == [] then [] else AsSeq(xs[0].printed) + AllPrinted(xs[1..])
  }

  // Then the list is that of the printed elements; bare only if the range itself is empty.
  lemma {:induction false} HonestList(xs: seq<Answer>)
    requires forall i :: 0 <= i < |xs| ==> Honest(xs[i])
    ensures FilteredOps(xs) == ElemOps(AllPrinted(xs)) && FilteredList(xs) == Ops(Seq(AllPrinted(xs), xs == []))
  {
    if xs != [] {
      HonestList(xs[1..]);
      ElemOpsAppend(AsSeq(xs[0].printed), AllPrinted(xs[1..]));
      HonestAnswer(xs[0]);
    }
  }

  lemma HonestAnswer(x: Answer)
    requires Honest(x)
    ensures AnswerOps(x) == ElemOps(AsSeq(x.printed))
  {
    if x.kept {
      assert [x.printed.value][1..] == [];
      Nil(OneElemOps(x.printed.value));
    }
  }

  lemma {:induction false} FilteredNext(xs: seq<Answer>, x: Answer)
    ensures FilteredOps(xs + [x]) == FilteredOps(xs) + AnswerOps(x)
  {
    if xs == [] {
      assert xs + [x] == [x] && [x][1..] == [];
    } else {
      assert (xs + [x])[1..] == xs[1..] + [x];
      FilteredNext(xs[1..], x);
      Assoc(AnswerOps(xs[0]), FilteredOps(xs[1..]), AnswerOps(x));
    }
  }

  lemma NextAnswer(xs: seq<Answer>, i: nat, st: State)
    requires i < |xs|
    ensures Run([LParen] + FilteredOps(xs[..i + 1]), st)
            == Run(AnswerOps(xs[i]), Run([LParen] + FilteredOps(xs[..i]), st))
  {
    assert xs[..i + 1] == xs[..i] + [xs[i]];
    FilteredNext(xs[..i], xs[i]);
    Assoc([LParen], FilteredOps(xs[..i]), AnswerOps(xs[i]));
    RunAppend([LParen] + FilteredOps(xs[..i]), AnswerOps(xs[i]), st);
  }

  // Whatever the answers, the depth stays that of the opening parenthesis.
  lemma {:induction false} BalancedAnswers(xs: seq<Answer>, depth: nat)
    ensures Safe(FilteredOps(xs), depth) && DepthAfter(FilteredOps(xs), depth) == depth
  {
    if xs != [] {
      BalancedAnswer(xs[0], depth);
      BalancedAnswers(xs[1..], depth);
      SafeAppend(AnswerOps(xs[0]), FilteredOps(xs[1..]), depth);
    }
  }

  lemma BalancedAnswer(x: Answer, depth: nat)
    ensures Safe(AnswerOps(x), depth) && DepthAfter(AnswerOps(x), depth) == depth
  {
    if x.printed.Some? {
      Balanced(x.printed.value, depth);
    }
    var cons: seq<Op> := if x.kept then [Nbsp, Text("::"), Nbsp] else [];
    FlatOps(cons, depth);
    SafeAppend(PrintedOps(x), cons, depth);
  }

  lemma FilteredDepth(xs: seq<Answer>, st: State)
    ensures Run([LParen] + FilteredOps(xs), st).depth == st.depth + 2
  {
    BalancedAnswers(xs, st.depth + 2);
    RunDepth([LParen] + FilteredOps(xs), st);
    assert ([LParen] + FilteredOps(xs))[1..] == FilteredOps(xs);
  }

  class CoqPrinter {
    const output: Formatter

    constructor (f: Formatter)
      ensures output == f
    {
      output := f;
    }

    method BeginCtor(head: string, line: bool)
      modifies output
      ensures output.View() == Run((if line then [Line] else []) + [LParen, Text(head), Nbsp], old(output.View()))
    {
      ghost var st := output.View();
      if line {
        output.NewLine();
      }
      output.OpenParen();
      output.Put(head);
      output.AddNbsp();
      ghost var tail := [LParen, Text(head), Nbsp];
      RunThree(LParen, Text(head), Nbsp, if line then Step(Line, st) else st);
      RunAppend(if line then [Line] else [], tail, st);
    }

    method EndCtor()
      requires output.depth >= 2
      modifies output
      ensures output.View() == Run([RParen], old(output.View()))
    {
      output.CloseParen();
    }

    method BeginList()
      modifies output
      ensures output.View() == Run([LParen], old(output.View()))
    {
      output.OpenParen();
    }

    method EndList()
      requires output.depth >= 2
      modifies output
      ensures output.View() == Run([Text("nil"), RParen], old(output.View()))
    {
      ghost var st := output.View();
      output.Put("nil");
      output.CloseParen();
      RunTwo(Text("nil"), RParen, st);
    }

    method Cons()
      modifies output
      ensures output.View() == Run([Nbsp, Text("::"), Nbsp], old(output.View()))
    {
      ghost var st := output.View();
      output.PutCons();
      RunThree(Nbsp, Text("::"), Nbsp, st);
    }

    // A string literal, one character at a time.
    method Str(s: string)
      modifies output
      ensures output.View() == Run([Text(Literal(s))], old(output.View()))
    {
      ghost var st := output.View();
      output.Put("\"");
      ghost var front := output.out;
      var i := 0;
      ghost var done := "";
      Nil(front);
      Nil(Doubled(s));
      while i < |s|
        invariant 0 <= i <= |s|
        invariant output.spaces == 0 && !output.blank && output.depth == st.depth
        invariant output.out == front + done
        invariant done + Doubled(s[i..]) == Doubled(s)
      {
        DoubledStep(s, i);
        Assoc(done, DoubledChar(s[i]), Doubled(s[i + 1..]));
        Assoc(front, done, DoubledChar(s[i]));
        PutDoubled(s[i]);
        done := done + DoubledChar(s[i]);
        i := i + 1;
      }
      output.Put("\"");
      Nil(done);
      Assoc4(st.out + Pending(st), "\"", done, "\"");
    }

    method PutDoubled(c: char)
      requires output.spaces == 0 && !output.blank
      modifies output
      ensures output.View() == old(output.View()).(out := old(output.out) + DoubledChar(c))
    {
      output.Put([c]);
      if c == '"' {
        output.Put([c]);
      }
    }

    // A comment, one character at a time, with one character of lookahead.
    method Cmt(s: string)
      modifies output
      ensures output.View() == Run([Text(Comment(s))], old(output.View()))
    {
      ghost var st := output.View();
      output.Put("(* ");
      ghost var front := output.out;
      var i := 0;
      ghost var done := "";
      Nil(front);
      Nil(Escaped(s));
      while i < |s|
        invariant 0 <= i <= |s|
        invariant output.spaces == 0 && !output.blank && output.depth == st.depth
        invariant output.out == front + done
        invariant done + Escaped(s[i..]) == Escaped(s)
      {
        EscapedStep(s, i);
        Assoc(done, EscapedChar(s, i), Escaped(s[i + 1..]));
        Assoc(front, done, EscapedChar(s, i));
        PutEscaped(s, i);
        done := done + EscapedChar(s, i);
        i := i + 1;
      }
      output.Put(" *)");
      Nil(done);
      Assoc4(st.out + Pending(st), "(* ", done, " *)");
    }

    method PutEscaped(s: string, i: nat)
      requires i < |s| && output.spaces == 0 && !output.blank
      modifies output
      ensures output.View() == old(output.View()).(out := old(output.out) + EscapedChar(s, i))
    {
      var c := s[i];
      output.Put([c]);
      if (c == '(' || c == '*') && i + 1 < |s| {
        var d := s[i + 1];
        if (c == '(' && d == '*') || (c == '*' && d == ')') {
          output.Put(" ");
        }
      }
    }

    // A reference to a cached definition: its prefix, then its number.
    method PutRef(prefix: char, n: nat)
      modifies output
      ensures output.View() == Run(Ops(Ref(prefix, n)), old(output.View()))
    {
      ghost var st := output.View();
      output.Put([prefix]);
      output.Put(Numeral(n));
      RunTwo(Text([prefix]), Text(Numeral(n)), st);
    }

    method PrintTerm(t: Term)
      modifies output
      ensures output.View() == Run(Ops(t), old(output.View()))
      decreases t, 1
    {
      ghost var st := output.View();
      match t
      case Ident(x) => output.Put(x);
      case Ref(p, n) => PutRef(p, n);
      case Quote(s) => Str(s);
      case Num(v, scope) => output.PutNumber(v, scope);
      case Ctor(x, args, line) => PrintCtor(x, args, line);
      case Seq(es, bare) =>
        if bare {
          ListRange(es);
        } else {
          PrintLowLevelList(es);
        }
      case Tuple(ps) => PrintTuple(ps);
      case Remarked(c, u) =>
        Cmt(c);
        output.AddNbsp();
        RunTwo(Text(Comment(c)), Nbsp, st);
        PrintTerm(u);
        RunAppend([Text(Comment(c)), Nbsp], Ops(u), st);
    }

    // A guard: the constructor opens, its arguments follow, and leaving the scope closes it.
    method PrintCtor(x: string, args: seq<Arg>, line: bool)
      modifies output
      ensures output.View() == Run(Ops(Ctor(x, args, line)), old(output.View()))
      decreases args
    {
      ghost var st := output.View();
      BeginCtor(x, line);
      ghost var head := (if line then [Line] else []) + [LParen, Text(x), Nbsp];
      assert head + ArgOps(args[..0]) == head;
      var i := 0;
      while i < |args|
        invariant 0 <= i <= |args|
        invariant output.View() == Run(head + ArgOps(args[..i]), st)
      {
        PrintArg(args[i]);
        NextArg(head, args[..i], args[i], st);
        assert args[..i] + [args[i]] == args[..i + 1];
        i := i + 1;
      }
      assert args[..|args|] == args;
      DepthInside(Ctor(x, args, line), head + ArgOps(args), st);
      EndCtor();
      RunAppend(head + ArgOps(args), [RParen], st);
    }

    method PrintArg(a: Arg)
      modifies output
      ensures output.View() == Run(OneArgOps(a), old(output.View()))
      decreases a
    {
      ghost var st := output.View();
      if a.sep {
        output.AddNbsp();
      }
      PrintTerm(a.t);
      RunAppend(if a.sep then [Nbsp] else [], Ops(a.t), st);
    }

    // `begin_list`, the elements, `end_list`
    method PrintLowLevelList(es: seq<Term>)
      modifies output
      ensures output.View() == Run(Ops(Seq(es, false)), old(output.View()))
      decreases es, 1
    {
      ghost var st := output.View();
      BeginList();
      ElemLoop(es, st);
      DepthInside(Seq(es, false), [LParen] + ElemOps(es), st);
      EndList();
      RunAppend([LParen] + ElemOps(es), [Text("nil"), RParen], st);
    }

    // At the closing operation of a term the depth is at least two.
    ghost method DepthInside(t: Term, prefix: seq<Op>, st: State)
      requires prefix + [RParen] == Ops(t) || prefix + [Text("nil"), RParen] == Ops(t)
      requires output.View() == Run(prefix, st)
      ensures output.depth >= 2
    {
      Balanced(t, st.depth);
      RunDepth(prefix, st);
      if prefix + [RParen] == Ops(t) {
        SafeAppend(prefix, [RParen], st.depth);
      } else {
        SafeAppend(prefix, [Text("nil"), RParen], st.depth);
        assert [Text("nil"), RParen][1..] == [RParen];
      }
    }

    // An element, then `::`.
    method PrintElem(t: Term)
      modifies output
      ensures output.View() == Run(OneElemOps(t), old(output.View()))
      decreases t, 2
    {
      ghost var st := output.View();
      PrintTerm(t);
      Cons();
      RunAppend(Ops(t), [Nbsp, Text("::"), Nbsp], st);
    }

    // The loop shared by the list printers.
    method ElemLoop(es: seq<Term>, ghost st: State)
      requires output.View() == Run([LParen], st)
      modifies output
      ensures output.View() == Run([LParen] + ElemOps(es), st)
      decreases es, 0
    {
      var i := 0;
      assert [LParen] + ElemOps(es[..0]) == [LParen];
      while i < |es|
        invariant 0 <= i <= |es|
        invariant output.View() == Run([LParen] + ElemOps(es[..i]), st)
      {
        PrintElem(es[i]);
        NextElem(es[..i], es[i], st);
        assert es[..i] + [es[i]] == es[..i + 1];
        i := i + 1;
      }
      assert es[..|es|] == es;
    }

    method ListRange(es: seq<Term>)
      modifies output
      ensures output.View() == Run(Ops(Seq(es, true)), old(output.View()))
      decreases es, 1
    {
      ghost var st := output.View();
      if |es| == 0 {
        output.Put("nil");
      } else {
        BeginList();
        ElemLoop(es, st);
        DepthInside(Seq(es, true), [LParen] + ElemOps(es), st);
        EndList();
        RunAppend([LParen] + ElemOps(es), [Text("nil"), RParen], st);
      }
    }

    // `::` behind the elements for which the callback answers so.
    method ListRangeFilter(xs: seq<Answer>)
      modifies output
      ensures output.View() == Run(FilteredList(xs), old(output.View()))
    {
      ghost var st := output.View();
      if |xs| == 0 {
        output.Put("nil");
      } else {
        BeginList();
        FilterLoop(xs, st);
        FilteredDepth(xs, st);
        EndList();
        RunAppend([LParen] + FilteredOps(xs), [Text("nil"), RParen], st);
      }
    }

    method FilterLoop(xs: seq<Answer>, ghost st: State)
      requires output.View() == Run([LParen], st)
      modifies output
      ensures output.View() == Run([LParen] + FilteredOps(xs), st)
    {
      var i := 0;
      assert [LParen] + FilteredOps(xs[..0]) == [LParen];
      while i < |xs|
        invariant 0 <= i <= |xs|
        invariant output.View() == Run([LParen] + FilteredOps(xs[..i]), st)
      {
        NextAnswer(xs, i, st);
        PrintAnswer(xs[i]);
        i := i + 1;
      }
      assert xs[..|xs|] == xs;
    }

    method PrintAnswer(x: Answer)
      modifies output
      ensures output.View() == Run(AnswerOps(x), old(output.View()))
    {
      ghost var st := output.View();
      if x.printed.Some? {
        PrintTerm(x.printed.value);
      }
      if x.kept {
        Cons();
      }
      RunAppend(PrintedOps(x), if x.kept then [Nbsp, Text("::"), Nbsp] else [], st);
    }

    method PrintTuple(ps: seq<Term>)
      modifies output
      ensures output.View() == Run(Ops(Tuple(ps)), old(output.View()))
      decreases ps, 1
    {
      ghost var st := output.View();
      output.Put("(");
      PrintParts(ps);
      RunAppend([Text("(")], PartOps(ps), st);
      output.Put(")");
      RunAppend([Text("(")] + PartOps(ps), [Text(")")], st);
    }

    method PrintParts(ps: seq<Term>)
      modifies output
      ensures output.View() == Run(PartOps(ps), old(output.View()))
      decreases ps, 0
    {
      ghost var st := output.View();
      if |ps| > 0 {
        PrintTerm(ps[0]);
        if |ps| > 1 {
          output.PutTupleSep();
          RunTwo(Text(","), Nbsp, Run(Ops(ps[0]), st));
          RunAppend(Ops(ps[0]), [Text(","), Nbsp], st);
          PrintParts(ps[1..]);
          RunAppend(Ops(ps[0]) + [Text(","), Nbsp], PartOps(ps[1..]), st);
        }
      }
    }
  }
}
