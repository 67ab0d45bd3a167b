/**
 * What the printed nodes mean: two nodes print alike if and only if what printing keeps of them is the
 * same, and the text of a module, read back, is its declarations.
 */
module NodeMeaning {
  import Formatting
  import opened NodeReading
  import opened PrePrinting
  import opened Printing
  import opened Reading
  import opened SharedText
  import opened Sharing
  import opened Wrappers

  // ----- What is kept prints as the node does -----

  lemma {:induction false} KeptTypePrints(t: Type)
    ensures PrintType(NOTHING, KeptType(t)) == PrintType(NOTHING, t)
    decreases t, 0
  {
    NoReference(t, NO_NAME);
    NoReference(KeptType(t), NO_NAME);
    match t.shape
    case Builtin(_) =>
    case Pointer(p) => KeptQualPrints(p);
    case LReference(p) => KeptQualPrints(p);
    case RReference(p) => KeptQualPrints(p);
    case ConstantArray(_, _) | IncompleteArray(_) | VariableArray(_, _) => KeptArrayPrints(t);
    case Function(r, ps, _, _) =>
      KeptQualPrints(r);
      KeptParamsPrint(ps);
    case Record(d) => KeptNamePrints(d);
    case Enum(_, d) => KeptNamePrints(d);
    case Elaborated(q) => KeptSpellingPrints(q);
    case Sugar(q) => KeptSpellingPrints(q);
    case Decayed(o, a) =>
      KeptQualPrints(o);
      KeptQualPrints(a);
    case MemberPointer(k, p) =>
      KeptTypePrints(k);
      KeptQualPrints(p);
  }

  lemma {:induction false} KeptArrayPrints(t: Type)
    requires t.shape.ConstantArray? || t.shape.IncompleteArray? || t.shape.VariableArray?
    ensures PrintShape(NOTHING, KeptType(t)) == PrintShape(NOTHING, t)
    decreases t.shape
  {
    KeptQualPrints(t.shape.e);
    if t.shape.VariableArray? {
      KeptExprPrints(t.shape.count);
    }
  }

  lemma {:induction false} KeptSpellingPrints(q: QualType)
    ensures PrintType(NOTHING, KeptSpelling(q)) == PrintQual(NOTHING, q)
    decreases q, 0
  {
    KeptTypePrints(q.ty);
    NoReference(KeptSpelling(q), NO_NAME);
  }

  lemma {:induction false} KeptQualPrints(q: QualType)
    ensures PrintQual(NOTHING, KeptQual(q)) == PrintQual(NOTHING, q)
    decreases q, 1
  {
    KeptSpellingPrints(q);
    NoReference(KeptSpelling(q), NO_NAME);
  }

  lemma {:induction false} KeptQualsPrint(qs: seq<QualType>)
    ensures PrintQuals(NOTHING, KeptQuals(qs)) == PrintQuals(NOTHING, qs)
    decreases qs, 0
  {
    if qs != [] {
      KeptQualPrints(qs[0]);
      KeptQualsPrint(qs[1..]);
      assert KeptQuals(qs)[1..] == KeptQuals(qs[1..]);
    }
  }

  lemma {:induction false} KeptParamsPrint(qs: seq<QualType>)
    ensures PrintUnquals(NOTHING, KeptParams(qs)) == PrintUnquals(NOTHING, qs)
    decreases qs, 0
  {
    if qs != [] {
      KeptParamPrints(qs[0]);
      KeptParamsPrint(qs[1..]);
      assert KeptParams(qs)[1..] == KeptParams(qs[1..]);
    }
  }

  lemma {:induction false} KeptParamPrints(q: QualType)
    ensures PrintUnqual(NOTHING, KeptParam(q)) == PrintUnqual(NOTHING, q)
    decreases q, 0
  {
    KeptTypePrints(q.ty);
  }

  lemma {:induction false} KeptNamePrints(n: Name)
    ensures PrintName(NOTHING, KeptName(n)) == PrintName(NOTHING, n)
    decreases n, 0
  {
    NoReference(NO_TYPE, n);
    NoReference(NO_TYPE, KeptName(n));
    KeptAtomPrints(n.atom);
    if n.special {
      KeptTemplateArgsPrint(n.targs);
    }
    match n.scope
    case None =>
    case Some(s) => KeptNamePrints(s);
  }

  lemma {:induction false} KeptAtomPrints(a: Atom)
    ensures PrintAtom(NOTHING, KeptAtom(a)) == PrintAtom(NOTHING, a)
    decreases a, 0
  {
    if a.Nfunction? {
      KeptQualsPrint(a.params);
    }
  }

  lemma {:induction false} KeptTemplateArgPrints(a: TemplateArg)
    ensures PrintTemplateArg(NOTHING, KeptTemplateArg(a)) == PrintTemplateArg(NOTHING, a)
    decreases a, 0
  {
    if !a.Aparam? {
      KeptQualPrints(a.q);
    }
  }

  lemma {:induction false} KeptTemplateArgsPrint(args: seq<TemplateArg>)
    ensures PrintTemplateArgs(NOTHING, KeptTemplateArgs(args)) == PrintTemplateArgs(NOTHING, args)
    decreases args, 0
  {
    if args != [] {
      KeptTemplateArgPrints(args[0]);
      KeptTemplateArgsPrint(args[1..]);
      assert KeptTemplateArgs(args)[1..] == KeptTemplateArgs(args[1..]);
    }
  }

  lemma {:induction false} KeptExprPrints(e: Expr)
    ensures PrintExpr(NOTHING, KeptExpr(e)) == PrintExpr(NOTHING, e)
    decreases e, 0
  {
    KeptQualPrints(e.ty);
    match e
    case DeclRef(local, d, _, _) =>
      if !local {
        KeptNamePrints(d);
      }
    case Unary(_, x, _) => KeptExprPrints(x);
    case Binary(_, x, y, _) =>
      KeptExprPrints(x);
      KeptExprPrints(y);
    case Call(f, args, _) =>
      KeptExprPrints(f);
      KeptExprsPrint(args);
    case MemberCall(m, f, args, _) =>
      KeptNamePrints(m);
      KeptExprPrints(f);
      KeptExprsPrint(args);
    case Construct(k, args, _) =>
      KeptNamePrints(k);
      KeptExprsPrint(args);
    case Cast(_, x, _) => KeptExprPrints(x);
    case OtherExpr(_, xs, ns, _) =>
      KeptExprsPrint(xs);
      KeptNamesPrint(ns);
  }

  lemma {:induction false} KeptExprsPrint(es: seq<Expr>)
    ensures PrintExprs(NOTHING, KeptExprs(es)) == PrintExprs(NOTHING, es)
    decreases es, 0
  {
    if es != [] {
      KeptExprPrints(es[0]);
      KeptExprsPrint(es[1..]);
      assert KeptExprs(es)[1..] == KeptExprs(es[1..]);
    }
  }

  lemma {:induction false} KeptNamesPrint(ns: seq<Name>)
    ensures PrintNames(NOTHING, KeptNames(ns)) == PrintNames(NOTHING, ns)
    decreases ns, 0
  {
    if ns != [] {
      KeptNamePrints(ns[0]);
      KeptNamesPrint(ns[1..]);
      assert KeptNames(ns)[1..] == KeptNames(ns[1..]);
    }
  }

  lemma KeptOptExprPrints(e: Option<Expr>)
    ensures PrintOptExpr(NOTHING, KeptOptExpr(e)) == PrintOptExpr(NOTHING, e)
  {
    if e.Some? {
      KeptExprPrints(e.value);
    }
  }

  lemma KeptVarPrints(v: Option<LocalVar>)
    ensures PrintOptVar(NOTHING, KeptVar(v)) == PrintOptVar(NOTHING, v)
  {
    if v.Some? {
      KeptQualPrints(v.value.ty);
      KeptOptExprPrints(v.value.init);
    }
  }

  lemma {:induction false} KeptStmtPrints(s: Stmt)
    ensures PrintStmt(NOTHING, KeptStmt(s)) == PrintStmt(NOTHING, s)
    decreases s, 0
  {
    match s
    case ExprStmt(e) => KeptExprPrints(e);
    case Break | Continue | Null =>
    case Compound(ss) => KeptStmtsPrint(ss);
    case Return(e) => KeptOptExprPrints(e);
    case While(v, e, b) =>
      KeptVarPrints(v);
      KeptExprPrints(e);
      KeptStmtPrints(b);
    case Do(b, e) =>
      KeptStmtPrints(b);
      KeptExprPrints(e);
    case For(i, _, t, n, b) =>
      KeptInitPrints(i);
      KeptOptExprPrints(t);
      KeptOptExprPrints(n);
      KeptStmtPrints(b);
    case If(_, v, e, x, y) =>
      KeptVarPrints(v);
      KeptExprPrints(e);
      KeptStmtPrints(x);
      KeptElsePrints(y);
    case IfConsteval(_, x, y) =>
      KeptStmtPrints(x);
      KeptElsePrints(y);
    case OtherStmt(_, es, ss) =>
      KeptExprsPrint(es);
      KeptStmtsPrint(ss);
  }

  lemma {:induction false} KeptInitPrints(s: Option<Stmt>)
    ensures PrintInit(NOTHING, KeptInit(s)) == PrintInit(NOTHING, s)
    ensures PrintBody(NOTHING, KeptInit(s)) == PrintBody(NOTHING, s)
    decreases s, 0
  {
    if s.Some? {
      KeptStmtPrints(s.value);
    }
  }

  lemma {:induction false} KeptElsePrints(s: Option<Stmt>)
    ensures PrintOptStmt(NOTHING, Some(KeptElse(s)), "Sskip") == PrintOptStmt(NOTHING, s, "Sskip")
    decreases s, 0
  {
    if s.Some? {
      KeptStmtPrints(s.value);
    }
  }

  lemma {:induction false} KeptStmtsPrint(ss: seq<Stmt>)
    ensures PrintStmts(NOTHING, KeptStmts(ss)) == PrintStmts(NOTHING, ss)
    decreases ss, 0
  {
    if ss != [] {
      KeptStmtPrints(ss[0]);
      KeptStmtsPrint(ss[1..]);
      assert KeptStmts(ss)[1..] == KeptStmts(ss[1..]);
    }
  }

  lemma KeptDeclPrints(d: Decl)
    ensures PlainDecl(KeptDecl(d)) == PlainDecl(d)
  {
    KeptNamePrints(d.name);
    match d
    case VarDecl(_, ty, i) =>
      KeptQualPrints(ty);
      KeptOptExprPrints(i);
    case FunctionDecl(_, ps, r, b) =>
      KeptQualsPrint(ps);
      KeptQualPrints(r);
      KeptInitPrints(b);
    case ConstructorDecl(_, ps, _, ins, b) =>
      KeptQualsPrint(ps);
      KeptExprsPrint(ins);
      KeptInitPrints(b);
    case RecordDecl(_, fs) => KeptQualsPrint(fs);
    case OtherDecl(_, _, ts) => KeptQualsPrint(ts);
  }

  // ----- Which nodes print alike -----

  // Two names print alike if and only if they are the same name but for addresses and the spelling of
  // types; so neither scopes, nor identifiers, nor parameters, nor template arguments are confused.
  lemma NamesPrintAlikeIff(a: Name, b: Name)
    ensures Erase(PlainName(a)) == Erase(PlainName(b)) <==> KeptName(a) == KeptName(b)
  {
    NameReads(a);
    NameReads(b);
    KeptNamePrints(a);
    KeptNamePrints(b);
  }

  lemma TypesPrintAlikeIff(a: QualType, b: QualType)
    ensures Erase(PrintQual(NOTHING, a)) == Erase(PrintQual(NOTHING, b)) <==> KeptQual(a) == KeptQual(b)
  {
    QualReads(a);
    QualReads(b);
    KeptQualPrints(a);
    KeptQualPrints(b);
  }

  lemma ExpressionsPrintAlikeIff(a: Expr, b: Expr)
    ensures Erase(PrintExpr(NOTHING, a)) == Erase(PrintExpr(NOTHING, b)) <==> KeptExpr(a) == KeptExpr(b)
  {
    ExprReads(a);
    ExprReads(b);
    KeptExprPrints(a);
    KeptExprPrints(b);
  }

  lemma DeclarationsPrintAlikeIff(a: Decl, b: Decl)
    ensures Erase(PlainDecl(a)) == Erase(PlainDecl(b)) <==> KeptDecl(a) == KeptDecl(b)
  {
    DeclReads(a);
    DeclReads(b);
    KeptDeclPrints(a);
    KeptDeclPrints(b);
  }

  // ----- Through the characters -----

  // Reading the definitions of a module back, and then a declaration printed with references to them,
  // gives the declaration.
  lemma SharedTextIsTheDeclaration(
      declarations: seq<Decl>, definitions: seq<Decl>, d: Decl, sts: seq<Formatting.State>, st: Formatting.State)
    requires var s := PreModule(EMPTY, declarations, definitions);
             |sts| == |s.defs| && AllWf(s.defs) && Wf(PrintDecl(s.tables, d))
    ensures var s := PreModule(EMPTY, declarations, definitions);
            DeclFrom(Subst(Meanings(DefsRead(s.defs, sts)), TermRead(PrintDecl(s.tables, d), st))) == KeptDecl(d)
  {
    var s := PreModule(EMPTY, declarations, definitions);
    MeaningsRead(s.defs, sts);
    PrintThenRead(PrintDecl(s.tables, d), st);
    SharingPreservesMeaning(declarations, definitions, d);
    SubstErase(Meanings(s.defs), PrintDecl(s.tables, d));
    DeclReads(d);
  }
}
