/** Printing statements: the printer emits, without building it, the flat form. */
module SwitchPrinting {
  import opened Formatting
  import opened Printing
  import opened Reading
  import opened Sequences
  import opened SwitchLowering
  import opened Wrappers

  // ----- The terms of lowered statements -----

  function LabelTerm(l: Label): Term {
    match l
    case Exact(v) => Ctor("Exact", [Arg(false, Num(v, "Z"))], true)
    case Range(lo, hi) => Ctor("Range", [Arg(false, Num(lo, "Z")), Arg(true, Num(hi, "Z"))], true)
  }

  function OptTerm(t: Option<Term>): Term {
    match t
    case None => Ident("None")
    case Some(x) => Ctor("Some", [Arg(false, x)], true)
  }

  // As printed: `switch` leaves out the spaces between its arguments, which open on lines of their own.
  function ToTerm(l: Lowered): Term
    decreases l, 0
  {
    match l
    case Sexpr(e) => Ctor("Sexpr", [Arg(false, e)], true)
    case Sdecl(ds) => Ctor("Sdecl", [Arg(false, Seq(ds, false))], true)
    case Sskip => Ident("Sskip")
    case Sbreak => Ident("Sbreak")
    case Scontinue => Ident("Scontinue")
    case Sreturn(None) => Ident("Sreturn_void")
    case Sreturn(Some(e)) => Ctor("Sreturn_val", [Arg(false, e)], true)
    case Sseq(ls) => Ctor("Sseq", [Arg(false, Seq(ToTerms(ls), false))], true)
    case Sif(v, c, x, y) =>
      Ctor("Sif", [Arg(false, OptTerm(v)), Arg(true, c), Arg(true, ToTerm(x)), Arg(true, ToTerm(y))], true)
    case SifConsteval(x, y) => Ctor("Sif_consteval", [Arg(false, ToTerm(x)), Arg(true, ToTerm(y))], true)
    case Swhile(v, c, b) => Ctor("Swhile", [Arg(false, OptTerm(v)), Arg(true, c), Arg(true, ToTerm(b))], true)
    case Sdo(b, c) => Ctor("Sdo", [Arg(false, ToTerm(b)), Arg(true, c)], true)
    case Sfor(i, c, n, b) =>
      Ctor("Sfor", [Arg(false, SomeTerm(i)), Arg(true, OptTerm(c)), Arg(true, OptTerm(n)), Arg(true, ToTerm(b))], true)
    case Sforeach(r, x, y, i, c, n, d, b) =>
      Ctor("Sforeach",
           [Arg(false, ToTerm(r)), Arg(true, ToTerm(x)), Arg(true, ToTerm(y)), Arg(true, SomeTerm(i)),
            Arg(true, OptTerm(c)), Arg(true, OptTerm(n)), Arg(true, ToTerm(d)), Arg(true, ToTerm(b))], true)
    case Sswitch(v, c, b) => Ctor("Sswitch", [Arg(false, OptTerm(v)), Arg(false, c), Arg(false, ToTerm(b))], true)
    case Scase(l) => Ctor("Scase", [Arg(false, LabelTerm(l))], true)
    case Sdefault => Ident("Sdefault")
  }

  function SomeTerm(l: Option<Lowered>): Term
    decreases l, 0
  {
    match l
    case None => Ident("None")
    case Some(x) => Ctor("Some", [Arg(false, ToTerm(x))], true)
  }

  function ToTerms(ls: seq<Lowered>): seq<Term>
    decreases ls, 0
  {
    if ls == [] then [] else [ToTerm(ls[0])] + ToTerms(ls[1..])
  }

  lemma {:induction false} ToTermsAppend(a: seq<Lowered>, b: seq<Lowered>)
    ensures ToTerms(a + b) == ToTerms(a) + ToTerms(b)
  {
    if a == [] {
      assert a + b == b;
    } else {
      assert (a + b)[1..] == a[1..] + b;
      ToTermsAppend(a[1..], b);
      Assoc([ToTerm(a[0])], ToTerms(a[1..]), ToTerms(b));
    }
  }

  // ----- What the visitors emit -----

  const CONS: seq<Op> := [Nbsp, Text("::"), Nbsp]

  function Open(head: string): seq<Op> {
    [Line, LParen, Text(head), Nbsp]
  }

  function Flat(pieces: seq<seq<Op>>): seq<Op> {
    if pieces == [] then [] else Flat(pieces[..|pieces| - 1]) + pieces[|pieces| - 1]
  }

  // A constructor around the pieces that a visitor emits.
  function Around(head: string, pieces: seq<seq<Op>>): seq<Op> {
    Open(head) + Flat(pieces) + [RParen]
  }

  function Spaced(ops: seq<Op>): seq<Op> {
    [Nbsp] + ops
  }

  function Listed(elems: seq<Op>): seq<Op> {
    [LParen] + elems + [Text("nil"), RParen]
  }

  // printStmt: a case or default statement emits its label, `::`, and its own statement.
  function Emit(s: Stmt): seq<Op>
    decreases s, 1
  {
    match s
    case ExprStmt(e) => Around("Sexpr", [Ops(e)])
    case DeclStmt(ds) => Around("Sdecl", [Listed(EmitDecls(ds))])
    case Null => [Text("Sskip")]
    case Break => [Text("Sbreak")]
    case Continue => [Text("Scontinue")]
    case Return(None) => [Text("Sreturn_void")]
    case Return(Some(e)) => Around("Sreturn_val", [Ops(e)])
    case Compound(ss) => Around("Sseq", [Listed(EmitAll(ss))])
    case If(_, v, c, x, y) => Around("Sif", [EmitOpt(v), Spaced(Ops(c)), Spaced(Emit(x)), Spaced(EmitElse(y))])
    case IfConsteval(_, x, y) => Around("Sif_consteval", [Emit(x), Spaced(EmitElse(y))])
    case While(v, c, b) => Around("Swhile", [EmitOpt(v), Spaced(Ops(c)), Spaced(Emit(b))])
    case Do(b, c) => Around("Sdo", [Emit(b), Spaced(Ops(c))])
    case For(i, _, c, n, b) =>
      Around("Sfor", [EmitInit(i), Spaced(EmitOpt(c)), Spaced(EmitOpt(n)), Spaced(Emit(b))])
    case ForRange(_, _, _, _, _, _, _, _) => Around("Sforeach", EmitSetUp(s) + EmitTurn(s))
    case Switch(_, v, c, b) => Around("Sswitch", [EmitOpt(v), Ops(c), Emit(b)])
    case Case(l, t) => Ops(ToTerm(Scase(l))) + (CONS + Emit(t))
    case Default(t) => [Text("Sdefault")] + (CONS + Emit(t))
  }

  function EmitSetUp(s: Stmt): (r: seq<seq<Op>>)
    requires s.ForRange?
    ensures |r| == 4
    decreases s, 0
  {
    [Emit(s.range), Spaced(Emit(s.first)), Spaced(Emit(s.last)), Spaced(EmitInit(s.init))]
  }

  function EmitTurn(s: Stmt): (r: seq<seq<Op>>)
    requires s.ForRange?
    ensures |r| == 4
    decreases s, 0
  {
    [Spaced(EmitOpt(s.test)), Spaced(EmitOpt(s.inc)), Spaced(Emit(s.decl)), Spaced(Emit(s.loop))]
  }

  function EmitOpt(t: Option<Term>): seq<Op> {
    match t
    case None => [Text("None")]
    case Some(x) => Around("Some", [Ops(x)])
  }

  function EmitInit(s: Option<Stmt>): seq<Op>
    decreases s, 0
  {
    match s
    case None => [Text("None")]
    case Some(x) => Around("Some", [Emit(x)])
  }

  function EmitElse(s: Option<Stmt>): seq<Op>
    decreases s, 0
  {
    match s
    case None => [Text("Sskip")]
    case Some(x) => Emit(x)
  }

  // The loop of VisitDeclStmt: no `::` behind a declaration that prints nothing.
  function EmitDecls(ds: seq<Option<Term>>): seq<Op> {
    if ds == [] then [] else EmitDecl(ds[0]) + EmitDecls(ds[1..])
  }

  function EmitDecl(d: Option<Term>): seq<Op> {
    if d.Some? then OneElemOps(d.value) else []
  }

  // The loop of VisitCompoundStmt.
  function EmitAll(ss: seq<Stmt>): seq<Op>
    decreases ss, 0
  {
    if ss == [] then [] else EmitOne(ss[0]) + EmitAll(ss[1..])
  }

  function EmitOne(s: Stmt): seq<Op>
    decreases s, 2
  {
    Emit(s) + CONS
  }

  // ----- The emission is the printed lowering -----

  lemma {:induction false} FlatIsArgOps(pieces: seq<seq<Op>>, args: seq<Arg>)
    requires |pieces| == |args| && forall i :: 0 <= i < |args| ==> pieces[i] == OneArgOps(args[i])
    ensures Flat(pieces) == ArgOps(args)
    decreases |args|
  {
    if args != [] {
      var n := |args| - 1;
      FlatIsArgOps(pieces[..n], args[..n]);
      ArgOpsAppend(args[..n], args[n]);
      assert args[..n] + [args[n]] == args;
    }
  }

  lemma AroundIsCtor(head: string, pieces: seq<seq<Op>>, args: seq<Arg>)
    requires |pieces| == |args| && forall i :: 0 <= i < |args| ==> pieces[i] == OneArgOps(args[i])
    ensures Around(head, pieces) == Ops(Ctor(head, args, true))
  {
    FlatIsArgOps(pieces, args);
    assert [Line] + [LParen, Text(head), Nbsp] == Open(head);
  }

  // What is emitted for an argument.
  function Piece(a: Arg): seq<Op> {
    if a.sep then Spaced(Ops(a.t)) else Ops(a.t)
  }

  lemma PieceIsArgOps(a: Arg)
    ensures Piece(a) == OneArgOps(a)
  {
    Nil(Ops(a.t));
  }

  lemma AroundOne(head: string, ops: seq<Op>, t: Term)
    requires ops == Ops(t)
    ensures Around(head, [ops]) == Ops(Ctor(head, [Arg(false, t)], true))
  {
    PieceIsArgOps(Arg(false, t));
    AroundIsCtor(head, [ops], [Arg(false, t)]);
  }

  lemma AroundTwo(head: string, a: Arg, b: Arg)
    ensures Around(head, [Piece(a), Piece(b)]) == Ops(Ctor(head, [a, b], true))
  {
    PieceIsArgOps(a);
    PieceIsArgOps(b);
    AroundIsCtor(head, [Piece(a), Piece(b)], [a, b]);
  }

  lemma AroundThree(head: string, a: Arg, b: Arg, c: Arg)
    ensures Around(head, [Piece(a), Piece(b), Piece(c)]) == Ops(Ctor(head, [a, b, c], true))
  {
    PieceIsArgOps(a);
    PieceIsArgOps(b);
    PieceIsArgOps(c);
    AroundIsCtor(head, [Piece(a), Piece(b), Piece(c)], [a, b, c]);
  }

  lemma AroundFour(head: string, a: Arg, b: Arg, c: Arg, d: Arg)
    ensures Around(head, [Piece(a), Piece(b), Piece(c), Piece(d)]) == Ops(Ctor(head, [a, b, c, d], true))
  {
    PieceIsArgOps(a);
    PieceIsArgOps(b);
    PieceIsArgOps(c);
    PieceIsArgOps(d);
    AroundIsCtor(head, [Piece(a), Piece(b), Piece(c), Piece(d)], [a, b, c, d]);
  }

  lemma EmitOptIsTerm(t: Option<Term>)
    ensures EmitOpt(t) == Ops(OptTerm(t))
  {
    if t.Some? {
      AroundOne("Some", Ops(t.value), t.value);
    }
  }

  lemma {:induction false} EmitDeclsAreKept(ds: seq<Option<Term>>)
    ensures EmitDecls(ds) == ElemOps(Kept(ds))
  {
    if ds != [] {
      EmitDeclsAreKept(ds[1..]);
      ElemOpsAppend(AsSeq(ds[0]), Kept(ds[1..]));
      if ds[0].Some? {
        assert [ds[0].value][1..] == [];
        Nil(OneElemOps(ds[0].value));
      }
    }
  }

  lemma EmitDeclStmt(ds: seq<Option<Term>>)
    ensures Emit(DeclStmt(ds)) == Ops(ToTerm(Sdecl(Kept(ds))))
  {
    EmitDeclsAreKept(ds);
    AroundOne("Sdecl", Listed(EmitDecls(ds)), Seq(Kept(ds), false));
  }

  lemma {:induction false} EmitLowers(s: Stmt)
    requires Plain(s)
    ensures Emit(s) == Ops(ToTerm(Lower(s)))
    decreases s, 2
  {
    match s
    case ExprStmt(e) => AroundOne("Sexpr", Ops(e), e);
    case DeclStmt(ds) => EmitDeclStmt(ds);
    case Return(Some(e)) => AroundOne("Sreturn_val", Ops(e), e);
    case Compound(ss) =>
      PlainIsLabeled(ss);
      EmitBlock(ss);
    case If(_, _, _, _, _) => EmitIf(s);
    case IfConsteval(_, _, _) => EmitIfConsteval(s);
    case While(_, _, _) => EmitWhile(s);
    case Do(_, _) => EmitDo(s);
    case For(_, _, _, _, _) => EmitFor(s);
    case ForRange(_, _, _, _, _, _, _, _) => EmitForRange(s);
    case Switch(i, v, c, Compound(ss)) => EmitSwitch(i, v, c, ss);
    case _ =>
  }

  lemma {:induction false} EmitIf(s: Stmt)
    requires s.If? && Plain(s)
    ensures Emit(s) == Ops(ToTerm(Lower(s)))
    decreases s, 0
  {
    var If(_, v, c, x, y) := s;
    EmitOptIsTerm(v);
    EmitLowers(x);
    EmitElseLowers(y);
    AroundFour("Sif", Arg(false, OptTerm(v)), Arg(true, c), Arg(true, ToTerm(Lower(x))),
               Arg(true, ToTerm(LowerElse(y))));
  }

  lemma {:induction false} EmitIfConsteval(s: Stmt)
    requires s.IfConsteval? && Plain(s)
    ensures Emit(s) == Ops(ToTerm(Lower(s)))
    decreases s, 0
  {
    var IfConsteval(_, x, y) := s;
    EmitLowers(x);
    EmitElseLowers(y);
    AroundTwo("Sif_consteval", Arg(false, ToTerm(Lower(x))), Arg(true, ToTerm(LowerElse(y))));
  }

  lemma {:induction false} EmitWhile(s: Stmt)
    requires s.While? && Plain(s)
    ensures Emit(s) == Ops(ToTerm(Lower(s)))
    decreases s, 0
  {
    var While(v, c, b) := s;
    EmitOptIsTerm(v);
    EmitLowers(b);
    AroundThree("Swhile", Arg(false, OptTerm(v)), Arg(true, c), Arg(true, ToTerm(Lower(b))));
  }

  lemma {:induction false} EmitDo(s: Stmt)
    requires s.Do? && Plain(s)
    ensures Emit(s) == Ops(ToTerm(Lower(s)))
    decreases s, 0
  {
    var Do(b, c) := s;
    EmitLowers(b);
    AroundTwo("Sdo", Arg(false, ToTerm(Lower(b))), Arg(true, c));
  }

  lemma {:induction false} EmitFor(s: Stmt)
    requires s.For? && Plain(s)
    ensures Emit(s) == Ops(ToTerm(Lower(s)))
    decreases s, 0
  {
    var For(i, _, c, n, b) := s;
    EmitInitLowers(i);
    EmitOptIsTerm(c);
    EmitOptIsTerm(n);
    EmitLowers(b);
    AroundFour("Sfor", Arg(false, SomeTerm(LowerIfAny(i))), Arg(true, OptTerm(c)), Arg(true, OptTerm(n)),
               Arg(true, ToTerm(Lower(b))));
  }

  function SetUpArgs(s: Stmt): (r: seq<Arg>)
    requires s.ForRange? && Plain(s)
    ensures |r| == 4
  {
    [Arg(false, ToTerm(Lower(s.range))), Arg(true, ToTerm(Lower(s.first))), Arg(true, ToTerm(Lower(s.last))),
     Arg(true, SomeTerm(LowerIfAny(s.init)))]
  }

  function TurnArgs(s: Stmt): (r: seq<Arg>)
    requires s.ForRange? && Plain(s)
    ensures |r| == 4
  {
    [Arg(true, OptTerm(s.test)), Arg(true, OptTerm(s.inc)), Arg(true, ToTerm(Lower(s.decl))),
     Arg(true, ToTerm(Lower(s.loop)))]
  }

  lemma {:induction false} SetUpPieces(s: Stmt)
    requires s.ForRange? && Plain(s)
    ensures forall k :: 0 <= k < 4 ==> EmitSetUp(s)[k] == Piece(SetUpArgs(s)[k])
    decreases s, 0
  {
    EmitLowers(s.range);
    EmitLowers(s.first);
    EmitLowers(s.last);
    EmitInitLowers(s.init);
  }

  lemma {:induction false} TurnPieces(s: Stmt)
    requires s.ForRange? && Plain(s)
    ensures forall k :: 0 <= k < 4 ==> EmitTurn(s)[k] == Piece(TurnArgs(s)[k])
    decreases s, 0
  {
    EmitOptIsTerm(s.test);
    EmitOptIsTerm(s.inc);
    EmitLowers(s.decl);
    EmitLowers(s.loop);
  }

  lemma PiecesAreArgOps(ps: seq<seq<Op>>, args: seq<Arg>, qs: seq<seq<Op>>, more: seq<Arg>)
    requires |ps| == |args| && forall k :: 0 <= k < |args| ==> ps[k] == Piece(args[k])
    requires |qs| == |more| && forall k :: 0 <= k < |more| ==> qs[k] == Piece(more[k])
    ensures forall k :: 0 <= k < |args + more| ==> (ps + qs)[k] == OneArgOps((args + more)[k])
  {
    forall k | 0 <= k < |args + more| ensures (ps + qs)[k] == OneArgOps((args + more)[k]) {
      PieceIsArgOps((args + more)[k]);
    }
  }

  lemma {:induction false} EmitForRange(s: Stmt)
    requires s.ForRange? && Plain(s)
    ensures Emit(s) == Ops(ToTerm(Lower(s)))
    decreases s, 1
  {
    SetUpPieces(s);
    TurnPieces(s);
    PiecesAreArgOps(EmitSetUp(s), SetUpArgs(s), EmitTurn(s), TurnArgs(s));
    AroundIsCtor("Sforeach", EmitSetUp(s) + EmitTurn(s), SetUpArgs(s) + TurnArgs(s));
    RangeTerm(s);
  }

  lemma RangeTerm(s: Stmt)
    requires s.ForRange? && Plain(s)
    ensures ToTerm(Lower(s)) == Ctor("Sforeach", SetUpArgs(s) + TurnArgs(s), true)
  {
  }

  lemma {:induction false} EmitInitLowers(i: Option<Stmt>)
    requires PlainIfAny(i)
    ensures EmitInit(i) == Ops(SomeTerm(LowerIfAny(i)))
    decreases i, 0
  {
    if i.Some? {
      EmitLowers(i.value);
      AroundOne("Some", Emit(i.value), ToTerm(Lower(i.value)));
    }
  }

  lemma {:induction false} EmitElseLowers(y: Option<Stmt>)
    requires PlainIfAny(y)
    ensures EmitElse(y) == Ops(ToTerm(LowerElse(y)))
    decreases y, 0
  {
    if y.Some? {
      EmitLowers(y.value);
    }
  }

  // A compound statement prints as the list of its items, cases flattened.
  lemma {:induction false} EmitBlock(ss: seq<Stmt>)
    requires AllLabeled(ss)
    ensures Emit(Compound(ss)) == Ops(ToTerm(Sseq(ItemsAll(ss))))
    decreases ss, 2
  {
    EmitAllLowers(ss);
    AroundOne("Sseq", Listed(EmitAll(ss)), Seq(ToTerms(ItemsAll(ss)), false));
  }

  lemma {:induction false} EmitSwitch(i: Option<Stmt>, v: Option<Term>, c: Term, ss: seq<Stmt>)
    requires PlainIfAny(i) && AllLabeled(ss)
    ensures var s := Switch(i, v, c, Compound(ss)); Emit(s) == Ops(ToTerm(Lower(s)))
    decreases ss, 3
  {
    EmitBlock(ss);
    AroundSwitch(v, c, Emit(Compound(ss)), ToTerm(Sseq(ItemsAll(ss))));
  }

  lemma AroundSwitch(v: Option<Term>, c: Term, block: seq<Op>, b: Term)
    requires block == Ops(b)
    ensures Around("Sswitch", [EmitOpt(v), Ops(c), block])
            == Ops(Ctor("Sswitch", [Arg(false, OptTerm(v)), Arg(false, c), Arg(false, b)], true))
  {
    EmitOptIsTerm(v);
    AroundThree("Sswitch", Arg(false, OptTerm(v)), Arg(false, c), Arg(false, b));
  }

  lemma {:induction false} EmitOneLowers(s: Stmt)
    requires Labeled(s)
    ensures EmitOne(s) == ElemOps(ToTerms(Items(s)))
    decreases s, 3
  {
    match s
    case Case(l, t) => EmitHead(Scase(l), t);
    case Default(t) => EmitHead(Sdefault, t);
    case _ =>
      EmitLowers(s);
      OneItem(Lower(s));
  }

  lemma OneItem(l: Lowered)
    ensures ElemOps(ToTerms([l])) == Ops(ToTerm(l)) + CONS
  {
    var x := ToTerm(l);
    assert ToTerms([l]) == [x] && [x][1..] == [];
    Nil(OneElemOps(x));
  }

  lemma {:induction false} EmitHead(h: Lowered, t: Stmt)
    requires Labeled(t)
    ensures (Ops(ToTerm(h)) + (CONS + Emit(t))) + CONS == ElemOps(ToTerms([h] + Items(t)))
    decreases t, 4
  {
    EmitOneLowers(t);
    var n := Ops(ToTerm(h));
    Assoc(n, CONS + Emit(t), CONS);
    Assoc(CONS, Emit(t), CONS);
    Assoc(n, CONS, Emit(t) + CONS);
    assert ([h] + Items(t))[1..] == Items(t);
    assert ToTerms([h] + Items(t))[1..] == ToTerms(Items(t));
  }

  lemma {:induction false} EmitAllLowers(ss: seq<Stmt>)
    requires AllLabeled(ss)
    ensures EmitAll(ss) == ElemOps(ToTerms(ItemsAll(ss)))
    decreases ss, 0
  {
    if ss != [] {
      EmitOneLowers(ss[0]);
      EmitAllLowers(ss[1..]);
      ToTermsAppend(Items(ss[0]), ItemsAll(ss[1..]));
      ElemOpsAppend(ToTerms(Items(ss[0])), ToTerms(ItemsAll(ss[1..])));
    }
  }

  // ----- The statement printer -----

  lemma {:induction false} EmitAllAppend(ss: seq<Stmt>, s: Stmt)
    ensures EmitAll(ss + [s]) == EmitAll(ss) + EmitOne(s)
  {
    if ss == [] {
      assert ss + [s] == [s] && [s][1..] == [];
      Nil(EmitOne(s));
    } else {
      assert (ss + [s])[1..] == ss[1..] + [s];
      EmitAllAppend(ss[1..], s);
      Assoc(EmitOne(ss[0]), EmitAll(ss[1..]), EmitOne(s));
    }
  }

  // Where a constructor is closed, the depth is at least two.
  lemma ClosingDepth(t: Term, prefix: seq<Op>, st: State)
    requires Ops(t) == prefix + [RParen]
    ensures Formatting.Run(prefix, st).depth >= 2
  {
    Balanced(t, st.depth);
    SafeAppend(prefix, [RParen], st.depth);
    RunDepth(prefix, st);
  }

  lemma Extend(a: seq<Op>, b: seq<Op>, st: State)
    ensures Formatting.Run(a + b, st) == Formatting.Run(b, Formatting.Run(a, st))
  {
    RunAppend(a, b, st);
  }

  // One piece after another.
  lemma FlatNext(pieces: seq<seq<Op>>, piece: seq<Op>, st: State)
    ensures Flat(pieces + [piece]) == Flat(pieces) + piece
    ensures Formatting.Run(Flat(pieces + [piece]), st) == Formatting.Run(piece, Formatting.Run(Flat(pieces), st))
  {
    assert (pieces + [piece])[..|pieces|] == pieces;
    Extend(Flat(pieces), piece, st);
  }

  lemma Flat1(a: seq<Op>)
    ensures Flat([a]) == a
  {
    assert [a][..0] == [];
  }

  lemma Flat2(a: seq<Op>, b: seq<Op>, st: State)
    ensures Formatting.Run(Flat([a, b]), st) == Formatting.Run(b, Formatting.Run(a, st))
  {
    Flat1(a);
    FlatNext([a], b, st);
    assert [a] + [b] == [a, b];
  }

  lemma Flat3(a: seq<Op>, b: seq<Op>, c: seq<Op>, st: State)
    ensures Formatting.Run(Flat([a, b, c]), st) == Formatting.Run(c, Formatting.Run(b, Formatting.Run(a, st)))
  {
    Flat2(a, b, st);
    FlatNext([a, b], c, st);
    assert [a, b] + [c] == [a, b, c];
  }

  lemma Flat4(a: seq<Op>, b: seq<Op>, c: seq<Op>, d: seq<Op>, st: State)
    ensures Formatting.Run(Flat([a, b, c, d]), st)
            == Formatting.Run(d, Formatting.Run(c, Formatting.Run(b, Formatting.Run(a, st))))
  {
    Flat3(a, b, c, st);
    FlatNext([a, b, c], d, st);
    assert [a, b, c] + [d] == [a, b, c, d];
  }

  lemma {:induction false} FlatAppend(xs: seq<seq<Op>>, ys: seq<seq<Op>>)
    ensures Flat(xs + ys) == Flat(xs) + Flat(ys)
    decreases |ys|
  {
    if ys == [] {
      assert xs + ys == xs;
    } else {
      var front, last := ys[..|ys| - 1], ys[|ys| - 1];
      assert (xs + ys)[..|xs + ys| - 1] == xs + front;
      FlatAppend(xs, front);
      Assoc(Flat(xs), Flat(front), last);
    }
  }

  lemma RunFlat(xs: seq<seq<Op>>, ys: seq<seq<Op>>, st: State)
    ensures Formatting.Run(Flat(xs + ys), st) == Formatting.Run(Flat(ys), Formatting.Run(Flat(xs), st))
  {
    FlatAppend(xs, ys);
    Extend(Flat(xs), Flat(ys), st);
  }

  class StmtPrinter {
    const print_: CoqPrinter

    constructor (p: CoqPrinter)
      ensures print_ == p
    {
      print_ := p;
    }

    method OpenCtor(head: string)
      modifies print_.output
      ensures print_.output.View() == Formatting.Run(Open(head), old(print_.output.View()))
    {
      print_.BeginCtor(head, true);
      assert [Line] + [LParen, Text(head), Nbsp] == Open(head);
    }

    method Word(w: string)
      modifies print_.output
      ensures print_.output.View() == Formatting.Run([Text(w)], old(print_.output.View()))
    {
      print_.output.Put(w);
    }

    method Space(ghost ops: seq<Op>)
      modifies print_.output
      ensures Formatting.Run(ops, print_.output.View()) == Formatting.Run(Spaced(ops), old(print_.output.View()))
    {
      Extend([Nbsp], ops, print_.output.View());
      print_.output.AddNbsp();
    }

    // Closes the constructor around the pieces that have been emitted since st.
    method Close(head: string, ghost pieces: seq<seq<Op>>, ghost t: Term, ghost st: State)
      requires Ops(t) == Around(head, pieces)
      requires print_.output.View() == Formatting.Run(Flat(pieces), Formatting.Run(Open(head), st))
      modifies print_.output
      ensures print_.output.View() == Formatting.Run(Around(head, pieces), st)
    {
      Extend(Open(head), Flat(pieces), st);
      ClosingDepth(t, Open(head) + Flat(pieces), st);
      print_.EndCtor();
      Extend(Open(head) + Flat(pieces), [RParen], st);
    }

    method CloseStmt(head: string, ghost pieces: seq<seq<Op>>, ghost s: Stmt, ghost st: State)
      requires Plain(s) && Emit(s) == Around(head, pieces)
      requires print_.output.View() == Formatting.Run(Flat(pieces), Formatting.Run(Open(head), st))
      modifies print_.output
      ensures print_.output.View() == Formatting.Run(Emit(s), st)
    {
      EmitLowers(s);
      Close(head, pieces, ToTerm(Lower(s)), st);
    }

    // A constructor with one term.
    method PrintOne(head: string, x: Term)
      modifies print_.output
      ensures print_.output.View() == Formatting.Run(Around(head, [Ops(x)]), old(print_.output.View()))
    {
      ghost var st := print_.output.View();
      OpenCtor(head);
      print_.PrintTerm(x);
      Flat1(Ops(x));
      AroundOne(head, Ops(x), x);
      Close(head, [Ops(x)], Ctor(head, [Arg(false, x)], true), st);
    }

    method PrintOpt(t: Option<Term>)
      modifies print_.output
      ensures print_.output.View() == Formatting.Run(EmitOpt(t), old(print_.output.View()))
    {
      match t
      case None => Word("None");
      case Some(x) => PrintOne("Some", x);
    }

    method SpacedOpt(t: Option<Term>)
      modifies print_.output
      ensures print_.output.View() == Formatting.Run(Spaced(EmitOpt(t)), old(print_.output.View()))
    {
      Space(EmitOpt(t));
      PrintOpt(t);
    }

    method SpacedTerm(t: Term)
      modifies print_.output
      ensures print_.output.View() == Formatting.Run(Spaced(Ops(t)), old(print_.output.View()))
    {
      Space(Ops(t));
      print_.PrintTerm(t);
    }

    method SpacedStmt(s: Stmt)
      requires Plain(s)
      modifies print_.output
      ensures print_.output.View() == Formatting.Run(Spaced(Emit(s)), old(print_.output.View()))
      decreases s, 2
    {
      Space(Emit(s));
      PrintStmt(s);
    }

    method SpacedElse(s: Option<Stmt>)
      requires PlainIfAny(s)
      modifies print_.output
      ensures print_.output.View() == Formatting.Run(Spaced(EmitElse(s)), old(print_.output.View()))
      decreases s, 0
    {
      Space(EmitElse(s));
      match s
      case None => Word("Sskip");
      case Some(x) => PrintStmt(x);
    }

    method PrintInit(i: Option<Stmt>)
      requires PlainIfAny(i)
      modifies print_.output
      ensures print_.output.View() == Formatting.Run(EmitInit(i), old(print_.output.View()))
      decreases i, 0
    {
      match i
      case None => Word("None");
      case Some(x) =>
        ghost var st := print_.output.View();
        OpenCtor("Some");
        PrintStmt(x);
        Flat1(Emit(x));
        EmitInitLowers(i);
        Close("Some", [Emit(x)], SomeTerm(LowerIfAny(i)), st);
    }

    method SpacedInit(i: Option<Stmt>)
      requires PlainIfAny(i)
      modifies print_.output
      ensures print_.output.View() == Formatting.Run(Spaced(EmitInit(i)), old(print_.output.View()))
      decreases i, 1
    {
      Space(EmitInit(i));
      PrintInit(i);
    }

    method PrintStmt(s: Stmt)
      requires Labeled(s)
      modifies print_.output
      ensures print_.output.View() == Formatting.Run(Emit(s), old(print_.output.View()))
      decreases s, 1
    {
      match s
      case ExprStmt(e) => PrintOne("Sexpr", e);
      case DeclStmt(ds) => PrintDecls(ds);
      case Null => Word("Sskip");
      case Break => Word("Sbreak");
      case Continue => Word("Scontinue");
      case Return(None) => Word("Sreturn_void");
      case Return(Some(e)) => PrintOne("Sreturn_val", e);
      case Compound(ss) =>
        PlainIsLabeled(ss);
        PrintCompound(ss);
      case If(_, _, _, _, _) => PrintIf(s);
      case IfConsteval(_, _, _) => PrintIfConsteval(s);
      case While(_, _, _) => PrintWhile(s);
      case Do(_, _) => PrintDo(s);
      case For(_, _, _, _, _) => PrintFor(s);
      case ForRange(_, _, _, _, _, _, _, _) => PrintForRange(s);
      case Switch(_, _, _, _) => PrintSwitch(s);
      case Case(l, t) => PrintCase(l, t);
      case Default(t) => PrintDefault(t);
    }

    method PrintDecls(ds: seq<Option<Term>>)
      modifies print_.output
      ensures print_.output.View() == Formatting.Run(Emit(DeclStmt(ds)), old(print_.output.View()))
    {
      ghost var st := print_.output.View();
      OpenCtor("Sdecl");
      ghost var st1 := print_.output.View();
      print_.BeginList();
      assert [LParen] + ElemOps(Kept(ds[..0])) == [LParen];
      var i := 0;
      while i < |ds|
        invariant 0 <= i <= |ds|
        invariant print_.output.View() == Formatting.Run([LParen] + ElemOps(Kept(ds[..i])), st1)
      {
        KeptAppend(ds[..i], ds[i]);
        assert ds[..i] + [ds[i]] == ds[..i + 1];
        match ds[i] {
          case None =>
            Nil(Kept(ds[..i]));
          case Some(d) =>
            print_.PrintElem(d);
            NextElem(Kept(ds[..i]), d, st1);
        }
        i := i + 1;
      }
      assert ds[..|ds|] == ds;
      EndListed(ElemOps(Kept(ds)), Seq(Kept(ds), false), st1);
      EmitDeclsAreKept(ds);
      Flat1(Listed(EmitDecls(ds)));
      EmitDeclStmt(ds);
      Close("Sdecl", [Listed(EmitDecls(ds))], ToTerm(Sdecl(Kept(ds))), st);
    }

    // `end_list` of a list of which the elements have been printed.
    method EndListed(ghost elems: seq<Op>, ghost t: Term, ghost st: State)
      requires print_.output.View() == Formatting.Run([LParen] + elems, st) && Ops(t) == Listed(elems)
      modifies print_.output
      ensures print_.output.View() == Formatting.Run(Listed(elems), st)
    {
      print_.DepthInside(t, [LParen] + elems, st);
      print_.EndList();
      Extend([LParen] + elems, [Text("nil"), RParen], st);
    }

    method PrintCase(l: Label, t: Stmt)
      requires Labeled(t)
      modifies print_.output
      ensures print_.output.View() == Formatting.Run(Emit(Case(l, t)), old(print_.output.View()))
      decreases t, 2
    {
      ghost var st := print_.output.View();
      print_.PrintTerm(ToTerm(Scase(l)));
      print_.Cons();
      PrintStmt(t);
      ghost var n := Ops(ToTerm(Scase(l)));
      Extend(CONS, Emit(t), Formatting.Run(n, st));
      Extend(n, CONS + Emit(t), st);
    }

    method PrintDefault(t: Stmt)
      requires Labeled(t)
      modifies print_.output
      ensures print_.output.View() == Formatting.Run(Emit(Default(t)), old(print_.output.View()))
      decreases t, 2
    {
      ghost var st := print_.output.View();
      Word("Sdefault");
      print_.Cons();
      PrintStmt(t);
      Extend(CONS, Emit(t), Formatting.Run([Text("Sdefault")], st));
      Extend([Text("Sdefault")], CONS + Emit(t), st);
    }

    method PrintCompound(ss: seq<Stmt>)
      requires AllLabeled(ss)
      modifies print_.output
      ensures print_.output.View() == Formatting.Run(Emit(Compound(ss)), old(print_.output.View()))
      decreases ss
    {
      ghost var st := print_.output.View();
      OpenCtor("Sseq");
      ghost var st1 := print_.output.View();
      print_.BeginList();
      assert [LParen] + EmitAll(ss[..0]) == [LParen];
      var i := 0;
      while i < |ss|
        invariant 0 <= i <= |ss|
        invariant print_.output.View() == Formatting.Run([LParen] + EmitAll(ss[..i]), st1)
      {
        LabeledAt(ss, i);
        ghost var st2 := print_.output.View();
        PrintStmt(ss[i]);
        print_.Cons();
        Extend(Emit(ss[i]), CONS, st2);
        NextEmit(ss[..i], ss[i], st1);
        assert ss[..i] + [ss[i]] == ss[..i + 1];
        i := i + 1;
      }
      assert ss[..|ss|] == ss;
      EmitAllLowers(ss);
      EndListed(EmitAll(ss), Seq(ToTerms(ItemsAll(ss)), false), st1);
      Flat1(Listed(EmitAll(ss)));
      EmitBlock(ss);
      Close("Sseq", [Listed(EmitAll(ss))], ToTerm(Sseq(ItemsAll(ss))), st);
    }

    method PrintIf(s: Stmt)
      requires s.If? && Plain(s)
      modifies print_.output
      ensures print_.output.View() == Formatting.Run(Emit(s), old(print_.output.View()))
      decreases s, 0
    {
      ghost var st := print_.output.View();
      OpenCtor("Sif");
      ghost var st1 := print_.output.View();
      PrintOpt(s.v);
      SpacedTerm(s.cond);
      SpacedStmt(s.thn);
      SpacedElse(s.els);
      Flat4(EmitOpt(s.v), Spaced(Ops(s.cond)), Spaced(Emit(s.thn)), Spaced(EmitElse(s.els)), st1);
      CloseStmt("Sif", [EmitOpt(s.v), Spaced(Ops(s.cond)), Spaced(Emit(s.thn)), Spaced(EmitElse(s.els))], s, st);
    }

    method PrintIfConsteval(s: Stmt)
      requires s.IfConsteval? && Plain(s)
      modifies print_.output
      ensures print_.output.View() == Formatting.Run(Emit(s), old(print_.output.View()))
      decreases s, 0
    {
      ghost var st := print_.output.View();
      OpenCtor("Sif_consteval");
      ghost var st1 := print_.output.View();
      PrintStmt(s.thn);
      SpacedElse(s.els);
      Flat2(Emit(s.thn), Spaced(EmitElse(s.els)), st1);
      CloseStmt("Sif_consteval", [Emit(s.thn), Spaced(EmitElse(s.els))], s, st);
    }

    method PrintWhile(s: Stmt)
      requires s.While? && Plain(s)
      modifies print_.output
      ensures print_.output.View() == Formatting.Run(Emit(s), old(print_.output.View()))
      decreases s, 0
    {
      ghost var st := print_.output.View();
      OpenCtor("Swhile");
      ghost var st1 := print_.output.View();
      PrintOpt(s.v);
      SpacedTerm(s.cond);
      SpacedStmt(s.loop);
      Flat3(EmitOpt(s.v), Spaced(Ops(s.cond)), Spaced(Emit(s.loop)), st1);
      CloseStmt("Swhile", [EmitOpt(s.v), Spaced(Ops(s.cond)), Spaced(Emit(s.loop))], s, st);
    }

    method PrintDo(s: Stmt)
      requires s.Do? && Plain(s)
      modifies print_.output
      ensures print_.output.View() == Formatting.Run(Emit(s), old(print_.output.View()))
      decreases s, 0
    {
      ghost var st := print_.output.View();
      OpenCtor("Sdo");
      ghost var st1 := print_.output.View();
      PrintStmt(s.loop);
      SpacedTerm(s.cond);
      Flat2(Emit(s.loop), Spaced(Ops(s.cond)), st1);
      CloseStmt("Sdo", [Emit(s.loop), Spaced(Ops(s.cond))], s, st);
    }

    method PrintFor(s: Stmt)
      requires s.For? && Plain(s)
      modifies print_.output
      ensures print_.output.View() == Formatting.Run(Emit(s), old(print_.output.View()))
      decreases s, 0
    {
      ghost var st := print_.output.View();
      OpenCtor("Sfor");
      ghost var st1 := print_.output.View();
      PrintInit(s.init);
      SpacedOpt(s.test);
      SpacedOpt(s.inc);
      SpacedStmt(s.loop);
      Flat4(EmitInit(s.init), Spaced(EmitOpt(s.test)), Spaced(EmitOpt(s.inc)), Spaced(Emit(s.loop)), st1);
      CloseStmt("Sfor", [EmitInit(s.init), Spaced(EmitOpt(s.test)), Spaced(EmitOpt(s.inc)), Spaced(Emit(s.loop))],
                s, st);
    }

    method PrintForRange(s: Stmt)
      requires s.ForRange? && Plain(s)
      modifies print_.output
      ensures print_.output.View() == Formatting.Run(Emit(s), old(print_.output.View()))
      decreases s, 0, 1
    {
      ghost var st := print_.output.View();
      OpenCtor("Sforeach");
      RunFlat(EmitSetUp(s), EmitTurn(s), print_.output.View());
      PrintSetUp(s);
      PrintTurn(s);
      CloseStmt("Sforeach", EmitSetUp(s) + EmitTurn(s), s, st);
    }

    // The range, its first and its last element, and the initialization.
    method PrintSetUp(s: Stmt)
      requires s.ForRange? && Plain(s)
      modifies print_.output
      ensures print_.output.View() == Formatting.Run(Flat(EmitSetUp(s)), old(print_.output.View()))
      decreases s, 0, 0
    {
      Flat4(Emit(s.range), Spaced(Emit(s.first)), Spaced(Emit(s.last)), Spaced(EmitInit(s.init)),
            print_.output.View());
      PrintStmt(s.range);
      SpacedStmt(s.first);
      SpacedStmt(s.last);
      SpacedInit(s.init);
    }

    // The condition, the increment, the variable of a turn and the body.
    method PrintTurn(s: Stmt)
      requires s.ForRange? && Plain(s)
      modifies print_.output
      ensures print_.output.View() == Formatting.Run(Flat(EmitTurn(s)), old(print_.output.View()))
      decreases s, 0, 0
    {
      Flat4(Spaced(EmitOpt(s.test)), Spaced(EmitOpt(s.inc)), Spaced(Emit(s.decl)), Spaced(Emit(s.loop)),
            print_.output.View());
      SpacedOpt(s.test);
      SpacedOpt(s.inc);
      SpacedStmt(s.decl);
      SpacedStmt(s.loop);
    }

    method PrintSwitch(s: Stmt)
      requires s.Switch? && Plain(s)
      modifies print_.output
      ensures print_.output.View() == Formatting.Run(Emit(s), old(print_.output.View()))
      decreases s, 0
    {
      ghost var st := print_.output.View();
      OpenCtor("Sswitch");
      ghost var st1 := print_.output.View();
      PrintOpt(s.v);
      print_.PrintTerm(s.cond);
      PrintBlock(s.block);
      Flat3(EmitOpt(s.v), Ops(s.cond), Emit(s.block), st1);
      CloseStmt("Sswitch", [EmitOpt(s.v), Ops(s.cond), Emit(s.block)], s, st);
    }

    // The body of a switch: a compound statement whose items may be labels.
    method PrintBlock(b: Stmt)
      requires b.Compound? && AllLabeled(b.body)
      modifies print_.output
      ensures print_.output.View() == Formatting.Run(Emit(b), old(print_.output.View()))
      decreases b, 0
    {
      PrintCompound(b.body);
    }
  }

  lemma {:induction false} LabeledAt(ss: seq<Stmt>, i: nat)
    requires AllLabeled(ss) && i < |ss|
    ensures Labeled(ss[i])
  {
    if i > 0 {
      LabeledAt(ss[1..], i - 1);
    }
  }

  lemma NextEmit(ss: seq<Stmt>, s: Stmt, st: State)
    ensures Formatting.Run([LParen] + EmitAll(ss + [s]), st)
            == Formatting.Run(EmitOne(s), Formatting.Run([LParen] + EmitAll(ss), st))
  {
    EmitAllAppend(ss, s);
    Assoc([LParen], EmitAll(ss), EmitOne(s));
    Extend([LParen] + EmitAll(ss), EmitOne(s), st);
  }

  // Printing a supported statement writes characters that read back to its lowering.
  lemma StatementReadsBack(s: Stmt, st: State)
    requires Plain(s) && Wf(ToTerm(Lower(s)))
    ensures Formatting.Run(Emit(s), st).out == st.out + Characters(ToTerm(Lower(s)), st)
    ensures Read(Characters(ToTerm(Lower(s)), st)) == Done(Erase(ToTerm(Lower(s))), [])
  {
    EmitLowers(s);
    PrintThenRead(ToTerm(Lower(s)), st);
  }
}
