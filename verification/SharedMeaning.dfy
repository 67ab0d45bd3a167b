/**
 * The sharing pass has its own statements and types, with every node that it may share. Here they are
 * printed as the statements that run, and as the types that have sugar; so what is read back from shared
 * text means what the source means.
 */
module SharedMeaning {
  import Formatting
  import opened PrePrinting
  import opened Printing
  import opened Reading
  import opened SharedText
  import opened Sharing
  import opened SharingMeaning
  import Statements = SwitchLowering
  import StatementTerms = SwitchPrinting
  import Sugar = TypeSugar
  import opened Wrappers

  // ----- Terms that differ in layout only -----

  predicate Same(a: Term, b: Term) {
    Erase(a) == Erase(b)
  }

  lemma {:induction false} SameArgs(ts: seq<Term>, args: seq<Arg>)
    requires |ts| == |args| && forall i :: 0 <= i < |ts| ==> Same(ts[i], args[i].t)
    ensures EraseArgs(Wrapped(ts)) == EraseArgs(args)
  {
    if ts != [] {
      SameArgs(ts[1..], args[1..]);
      assert Wrapped(ts)[1..] == Wrapped(ts[1..]);
    }
  }

  lemma SameApp(head: string, ts: seq<Term>, args: seq<Arg>, line: bool, line': bool)
    requires |ts| == |args| && forall i :: 0 <= i < |ts| ==> Same(ts[i], args[i].t)
    ensures Same(App(head, ts, line), Ctor(head, args, line'))
  {
    SameArgs(ts, args);
  }

  lemma SameOne(head: string, t: Term, a: Arg, line: bool)
    requires Same(t, a.t)
    ensures Same(App(head, [t], line), Ctor(head, [a], line))
  {
    SameApp(head, [t], [a], line, line);
  }

  lemma SameTwo(head: string, t: Term, u: Term, a: Arg, b: Arg, line: bool)
    requires Same(t, a.t) && Same(u, b.t)
    ensures Same(App(head, [t, u], line), Ctor(head, [a, b], line))
  {
    SameApp(head, [t, u], [a, b], line, line);
  }

  lemma SameThree(head: string, t: Term, u: Term, v: Term, a: Arg, b: Arg, c: Arg, line: bool)
    requires Same(t, a.t) && Same(u, b.t) && Same(v, c.t)
    ensures Same(App(head, [t, u, v], line), Ctor(head, [a, b, c], line))
  {
    SameApp(head, [t, u, v], [a, b, c], line, line);
  }

  lemma SameFour(head: string, t: Term, u: Term, v: Term, w: Term, a: Arg, b: Arg, c: Arg, d: Arg, line: bool)
    requires Same(t, a.t) && Same(u, b.t) && Same(v, c.t) && Same(w, d.t)
    ensures Same(App(head, [t, u, v, w], line), Ctor(head, [a, b, c, d], line))
  {
    SameApp(head, [t, u, v, w], [a, b, c, d], line, line);
  }

  // ----- Statements -----

  // Only statements that the pass enters, and their variables.
  predicate Entered(s: Stmt)
    decreases s, 0
  {
    match s
    case ExprStmt(_) | Break | Continue | Null => true
    case Compound(ss) => AllEntered(ss)
    case Return(_) => true
    case While(_, _, b) => Entered(b)
    case Do(b, _) => Entered(b)
    case For(i, _, _, _, b) => EnteredIfAny(i) && Entered(b)
    case If(i, _, _, x, y) => EnteredIfAny(i) && Entered(x) && EnteredIfAny(y)
    case IfConsteval(_, x, y) => Entered(x) && EnteredIfAny(y)
    case OtherStmt(_, _, _) => false
  }

  predicate EnteredIfAny(s: Option<Stmt>)
    decreases s, 0
  {
    s.None? || Entered(s.value)
  }

  predicate AllEntered(ss: seq<Stmt>)
    decreases ss, 0
  {
    ss == [] || (Entered(ss[0]) && AllEntered(ss[1..]))
  }

  function OptTerm(c: Tables, e: Option<Expr>): Option<Term> {
    match e
    case None => None
    case Some(x) => Some(PrintExpr(c, x))
  }

  function VarTerm(c: Tables, v: Option<LocalVar>): Option<Term> {
    match v
    case None => None
    case Some(LocalVar(s, ty, i)) => Some(App("Dvar", [Quote(s), PrintQual(c, ty), PrintOptExpr(c, i)], true))
  }

  // The statement that runs, its expressions printed.
  function Running(c: Tables, s: Stmt): Statements.Stmt
    requires Entered(s)
    decreases s, 0
  {
    match s
    case ExprStmt(e) => Statements.ExprStmt(PrintExpr(c, e))
    case Break => Statements.Break
    case Continue => Statements.Continue
    case Null => Statements.Null
    case Compound(ss) => Statements.Compound(AllRunning(c, ss))
    case Return(e) => Statements.Return(OptTerm(c, e))
    case While(v, e, b) => Statements.While(VarTerm(c, v), PrintExpr(c, e), Running(c, b))
    case Do(b, e) => Statements.Do(Running(c, b), PrintExpr(c, e))
    case For(i, v, t, n, b) =>
      Statements.For(RunningIfAny(c, i), VarTerm(c, v), OptTerm(c, t), OptTerm(c, n), Running(c, b))
    case If(i, v, e, x, y) =>
      Statements.If(RunningIfAny(c, i), VarTerm(c, v), PrintExpr(c, e), Running(c, x), RunningIfAny(c, y))
    case IfConsteval(negated, x, y) => Statements.IfConsteval(negated, Running(c, x), RunningIfAny(c, y))
  }

  function RunningIfAny(c: Tables, s: Option<Stmt>): Option<Statements.Stmt>
    requires EnteredIfAny(s)
    decreases s, 0
  {
    match s
    case None => None
    case Some(x) => Some(Running(c, x))
  }

  function AllRunning(c: Tables, ss: seq<Stmt>): seq<Statements.Stmt>
    requires AllEntered(ss)
    decreases ss, 0
  {
    if ss == [] then [] else [Running(c, ss[0])] + AllRunning(c, ss[1..])
  }

  lemma {:induction false} RunningIsPlain(c: Tables, s: Stmt)
    requires Entered(s)
    ensures Statements.Plain(Running(c, s))
    decreases s, 0
  {
    match s
    case Compound(ss) => AllRunningArePlain(c, ss);
    case While(_, _, b) => RunningIsPlain(c, b);
    case Do(b, _) => RunningIsPlain(c, b);
    case For(i, _, _, _, b) =>
      RunningIfAnyIsPlain(c, i);
      RunningIsPlain(c, b);
    case IfConsteval(_, x, y) =>
      RunningIsPlain(c, x);
      RunningIfAnyIsPlain(c, y);
    case If(i, _, _, x, y) =>
      RunningIfAnyIsPlain(c, i);
      RunningIsPlain(c, x);
      RunningIfAnyIsPlain(c, y);
    case _ =>
  }

  lemma {:induction false} RunningIfAnyIsPlain(c: Tables, s: Option<Stmt>)
    requires EnteredIfAny(s)
    ensures Statements.PlainIfAny(RunningIfAny(c, s))
    decreases s, 0
  {
    if s.Some? {
      RunningIsPlain(c, s.value);
    }
  }

  lemma {:induction false} AllRunningArePlain(c: Tables, ss: seq<Stmt>)
    requires AllEntered(ss)
    ensures Statements.AllPlain(AllRunning(c, ss))
    decreases ss, 0
  {
    if ss != [] {
      RunningIsPlain(c, ss[0]);
      AllRunningArePlain(c, ss[1..]);
    }
  }

  function Lowered(c: Tables, s: Stmt): Term
    requires Entered(s)
  {
    RunningIsPlain(c, s);
    StatementTerms.ToTerm(Statements.Lower(Running(c, s)))
  }

  lemma OptIsSame(c: Tables, e: Option<Expr>)
    ensures Same(PrintOptExpr(c, e), StatementTerms.OptTerm(OptTerm(c, e)))
  {
    if e.Some? {
      var x := PrintExpr(c, e.value);
      SameOne("Some", x, Arg(false, x), true);
    }
  }

  lemma VarIsSame(c: Tables, v: Option<LocalVar>)
    ensures Same(PrintOptVar(c, v), StatementTerms.OptTerm(VarTerm(c, v)))
  {
    if v.Some? {
      var x := VarTerm(c, v).value;
      SameOne("Some", x, Arg(false, x), true);
    }
  }

  // The pass prints a statement as its lowering prints, up to layout.
  lemma {:induction false} PrintsLowered(c: Tables, s: Stmt)
    requires Entered(s)
    ensures Same(PrintStmt(c, s), Lowered(c, s))
    decreases s, 1
  {
    RunningIsPlain(c, s);
    match s
    case ExprStmt(e) => SameOne("Sexpr", PrintExpr(c, e), Arg(false, PrintExpr(c, e)), true);
    case Break | Continue | Null =>
    case Compound(ss) => PrintsLoweredBlock(c, ss);
    case Return(None) =>
    case Return(Some(e)) => SameOne("Sreturn_val", PrintExpr(c, e), Arg(false, PrintExpr(c, e)), true);
    case While(_, _, _) => PrintsLoweredWhile(c, s);
    case Do(_, _) => PrintsLoweredDo(c, s);
    case For(_, _, _, _, _) => PrintsLoweredFor(c, s);
    case If(_, _, _, _, _) => PrintsLoweredIf(c, s);
    case IfConsteval(_, _, _) => PrintsLoweredIfConsteval(c, s);
  }

  lemma {:induction false} PrintsLoweredWhile(c: Tables, s: Stmt)
    requires s.While? && Entered(s)
    ensures Same(PrintStmt(c, s), Lowered(c, s))
    decreases s, 0
  {
    var While(v, e, b) := s;
    VarIsSame(c, v);
    PrintsLowered(c, b);
    RunningIsPlain(c, b);
    SameThree("Swhile", PrintOptVar(c, v), PrintExpr(c, e), PrintStmt(c, b),
              Arg(false, StatementTerms.OptTerm(VarTerm(c, v))), Arg(true, PrintExpr(c, e)),
              Arg(true, Lowered(c, b)), true);
  }

  lemma {:induction false} PrintsLoweredDo(c: Tables, s: Stmt)
    requires s.Do? && Entered(s)
    ensures Same(PrintStmt(c, s), Lowered(c, s))
    decreases s, 0
  {
    var Do(b, e) := s;
    PrintsLowered(c, b);
    LoweredDo(c, b, e);
    SameTwo("Sdo", PrintStmt(c, b), PrintExpr(c, e), Arg(false, Lowered(c, b)), Arg(true, PrintExpr(c, e)), true);
  }

  lemma LoweredDo(c: Tables, b: Stmt, e: Expr)
    requires Entered(b)
    ensures Lowered(c, Do(b, e)) == Ctor("Sdo", [Arg(false, Lowered(c, b)), Arg(true, PrintExpr(c, e))], true)
  {
    RunningIsPlain(c, b);
  }

  lemma {:induction false} PrintsLoweredFor(c: Tables, s: Stmt)
    requires s.For? && Entered(s)
    ensures Same(PrintStmt(c, s), Lowered(c, s))
    decreases s, 0
  {
    RunningIsPlain(c, s);
    var For(i, _, t, n, b) := s;
    PrintsLoweredInit(c, i);
    OptIsSame(c, t);
    OptIsSame(c, n);
    PrintsLowered(c, b);
    RunningIfAnyIsPlain(c, i);
    SameFour("Sfor", PrintInit(c, i), PrintOptExpr(c, t), PrintOptExpr(c, n), PrintStmt(c, b),
             Arg(false, StatementTerms.SomeTerm(Statements.LowerIfAny(RunningIfAny(c, i)))),
             Arg(true, StatementTerms.OptTerm(OptTerm(c, t))), Arg(true, StatementTerms.OptTerm(OptTerm(c, n))),
             Arg(true, Lowered(c, b)), true);
  }

  lemma {:induction false} PrintsLoweredIf(c: Tables, s: Stmt)
    requires s.If? && Entered(s)
    ensures Same(PrintStmt(c, s), Lowered(c, s))
    decreases s, 0
  {
    RunningIsPlain(c, s);
    var If(_, v, e, x, y) := s;
    VarIsSame(c, v);
    PrintsLowered(c, x);
    PrintsLoweredElse(c, y);
    RunningIfAnyIsPlain(c, y);
    SameFour("Sif", PrintOptVar(c, v), PrintExpr(c, e), PrintStmt(c, x), PrintOptStmt(c, y, "Sskip"),
             Arg(false, StatementTerms.OptTerm(VarTerm(c, v))), Arg(true, PrintExpr(c, e)), Arg(true, Lowered(c, x)),
             Arg(true, StatementTerms.ToTerm(Statements.LowerElse(RunningIfAny(c, y)))), true);
  }

  lemma {:induction false} PrintsLoweredIfConsteval(c: Tables, s: Stmt)
    requires s.IfConsteval? && Entered(s)
    ensures Same(PrintStmt(c, s), Lowered(c, s))
    decreases s, 0
  {
    RunningIsPlain(c, s);
    var IfConsteval(_, x, y) := s;
    PrintsLowered(c, x);
    PrintsLoweredElse(c, y);
    RunningIfAnyIsPlain(c, y);
    SameTwo("Sif_consteval", PrintStmt(c, x), PrintOptStmt(c, y, "Sskip"), Arg(false, Lowered(c, x)),
            Arg(true, StatementTerms.ToTerm(Statements.LowerElse(RunningIfAny(c, y)))), true);
  }

  lemma {:induction false} PrintsLoweredInit(c: Tables, i: Option<Stmt>)
    requires EnteredIfAny(i)
    ensures Statements.PlainIfAny(RunningIfAny(c, i))
    ensures Same(PrintInit(c, i), StatementTerms.SomeTerm(Statements.LowerIfAny(RunningIfAny(c, i))))
    decreases i, 0
  {
    RunningIfAnyIsPlain(c, i);
    if i.Some? {
      PrintsLowered(c, i.value);
      SameOne("Some", PrintStmt(c, i.value), Arg(false, Lowered(c, i.value)), true);
    }
  }

  lemma {:induction false} PrintsLoweredElse(c: Tables, y: Option<Stmt>)
    requires EnteredIfAny(y)
    ensures Statements.PlainIfAny(RunningIfAny(c, y))
    ensures Same(PrintOptStmt(c, y, "Sskip"), StatementTerms.ToTerm(Statements.LowerElse(RunningIfAny(c, y))))
    decreases y, 0
  {
    RunningIfAnyIsPlain(c, y);
    if y.Some? {
      PrintsLowered(c, y.value);
    }
  }

  lemma {:induction false} PrintsLoweredBlock(c: Tables, ss: seq<Stmt>)
    requires AllEntered(ss)
    ensures Statements.Plain(Statements.Compound(AllRunning(c, ss)))
    ensures Same(App("Sseq", [Seq(PrintStmts(c, ss), false)], true),
                 StatementTerms.ToTerm(Statements.Lower(Statements.Compound(AllRunning(c, ss)))))
    decreases ss, 1
  {
    AllRunningArePlain(c, ss);
    Statements.PlainIsLabeled(AllRunning(c, ss));
    PrintsLoweredAll(c, ss);
    var es := StatementTerms.ToTerms(Statements.ItemsAll(AllRunning(c, ss)));
    SameOne("Sseq", Seq(PrintStmts(c, ss), false), Arg(false, Seq(es, false)), true);
  }

  lemma {:induction false} PrintsLoweredAll(c: Tables, ss: seq<Stmt>)
    requires AllEntered(ss)
    ensures Statements.AllLabeled(AllRunning(c, ss))
    ensures EraseAll(PrintStmts(c, ss)) == EraseAll(StatementTerms.ToTerms(Statements.ItemsAll(AllRunning(c, ss))))
    decreases ss, 0
  {
    AllRunningArePlain(c, ss);
    Statements.PlainIsLabeled(AllRunning(c, ss));
    if ss != [] {
      PrintsLowered(c, ss[0]);
      PrintsLoweredAll(c, ss[1..]);
      var first, rest := Running(c, ss[0]), AllRunning(c, ss[1..]);
      RunningIsPlain(c, ss[0]);
      assert AllRunning(c, ss)[1..] == rest;
      assert Statements.Items(first) == [Statements.Lower(first)];
      var items := [Statements.Lower(first)] + Statements.ItemsAll(rest);
      assert items[1..] == Statements.ItemsAll(rest);
      assert PrintStmts(c, ss)[1..] == PrintStmts(c, ss[1..]);
    }
  }

  // ----- What shared statements do -----

  // The term of a shared statement, the definitions substituted, is the lowering of the statement, up to
  // layout; and the lowering runs as the statement does, unless a `for` declares a variable.
  lemma SharedStatementRuns<S>(
      start: Cache, declarations: seq<Decl>, definitions: seq<Decl>, s: Stmt, m: Statements.Machine<S>, st: S,
      fuel: nat)
    requires Good(start) && Entered(s)
    requires Statements.Plain(Running(NOTHING, s)) && !Statements.Forgets(Running(NOTHING, s))
    ensures var r, cache := Statements.Lower(Running(NOTHING, s)), PreModule(start, declarations, definitions);
            && Same(Subst(Meanings(cache.defs), PrintStmt(cache.tables, s)), StatementTerms.ToTerm(r))
            && Statements.Run(m, r, st, fuel) == Statements.Exec(m, Running(NOTHING, s), st, fuel)
  {
    var cache := PreModule(start, declarations, definitions);
    PreModuleKeeps(start, declarations, definitions);
    ExpandStmt(s, cache.tables, Meanings(cache.defs));
    PrintsLowered(NOTHING, s);
    Statements.LowerPreserves(m, Running(NOTHING, s), st, fuel);
  }

  // ----- Types -----

  function Wrapper(q: Sugar.QualType): Wrap {
    if q.local.isConst then if Sugar.IsVolatileQualified(q) then ConstVolatile else Const
    else if q.local.isVolatile then Volatile
    else Bare
  }

  // The node of a type with sugar; ids gives each node an identity.
  function Node(ids: Sugar.Type -> nat, ty: Sugar.Type): Type
    decreases ty
  {
    Type(ids(ty),
         match ty
         case Builtin(x) => Builtin(x)
         case Pointer(q) => Pointer(QualNode(ids, q))
         case ConstantArray(e, n) => ConstantArray(QualNode(ids, e), n)
         case IncompleteArray(e) => IncompleteArray(QualNode(ids, e))
         case Elaborated(q) => Elaborated(QualNode(ids, q))
         case Substituted(q) => Elaborated(QualNode(ids, q))
         case _ => Sugar(QualNode(ids, Sugar.Shown(ty))))
  }

  function QualNode(ids: Sugar.Type -> nat, q: Sugar.QualType): QualType
    decreases q
  {
    QualType(Wrapper(q), Node(ids, q.ty))
  }

  // The pass prints types as the type printer does, up to layout.
  lemma {:induction false} PrintsType(ids: Sugar.Type -> nat, ty: Sugar.Type)
    ensures Same(PrintType(NOTHING, Node(ids, ty)), Sugar.TypeTerm(ty))
    decreases ty
  {
    match ty
    case Builtin(_) =>
    case Pointer(q) =>
      PrintsQual(ids, q);
      SameOne("Tptr", PrintQual(NOTHING, QualNode(ids, q)), Arg(false, Sugar.QualTerm(q)), false);
    case ConstantArray(e, n) =>
      PrintsQual(ids, e);
      SameTwo("Tarray", PrintQual(NOTHING, QualNode(ids, e)), Num(n, ""), Arg(false, Sugar.QualTerm(e)),
              Arg(true, Num(n, "")), false);
    case IncompleteArray(e) =>
      PrintsQual(ids, e);
      SameOne("Tincomplete_array", PrintQual(NOTHING, QualNode(ids, e)), Arg(false, Sugar.QualTerm(e)), false);
    case _ => PrintsQual(ids, Sugar.Shown(ty));
  }

  lemma {:induction false} PrintsQual(ids: Sugar.Type -> nat, q: Sugar.QualType)
    ensures Same(PrintQual(NOTHING, QualNode(ids, q)), Sugar.QualTerm(q))
    decreases q
  {
    PrintsType(ids, q.ty);
    var x, y := PrintType(NOTHING, Node(ids, q.ty)), Sugar.TypeTerm(q.ty);
    SameOne("Qconst", x, Arg(false, y), false);
    SameOne("Qvolatile", x, Arg(false, y), false);
    SameOne("Qconst_volatile", x, Arg(false, y), false);
  }

  // A type printed with the cache of a module, the definitions substituted, denotes the type that its
  // sugar shows, and so the canonical type.
  lemma SharedTypeDenotes(
      start: Cache, declarations: seq<Decl>, definitions: seq<Decl>, ids: Sugar.Type -> nat, q: Sugar.QualType)
    requires Good(start)
    ensures var cache := PreModule(start, declarations, definitions);
            var t := Subst(Meanings(cache.defs), PrintQual(cache.tables, QualNode(ids, q)));
            && Sugar.Denote(t) == Some(Sugar.SpelledQ(q))
            && (Sugar.FaithfulQ(q) ==> Sugar.Denote(t) == Some(Sugar.CanonQ(q)))
  {
    var cache := PreModule(start, declarations, definitions);
    PreModuleKeeps(start, declarations, definitions);
    ExpandQual(QualNode(ids, q), cache.tables, Meanings(cache.defs));
    PrintsQual(ids, q);
    Sugar.DenoteErased(PrintQual(NOTHING, QualNode(ids, q)));
    Sugar.DenoteErased(Sugar.QualTerm(q));
    Sugar.PrintedIsSpelledQ(q);
    if Sugar.FaithfulQ(q) {
      Sugar.SpelledIsCanonicalQ(q);
    }
  }
}
