/** Printing with references means the same as printing without, once the references are read back. */
module SharingMeaning {
  import opened Printing
  import opened Sharing
  import opened Wrappers

  // Every cached node is defined, and its definition means what the node prints as without sharing.
  ghost predicate Sound(c: Tables, env: Env) {
    && (forall t :: t in c.types ==> c.types[t] != 0 && ('t', c.types[t]) in env && env[('t', c.types[t])] == Plain(t))
    && (forall n :: n in c.names ==>
          c.names[n] != 0 && ('n', c.names[n]) in env && env[('n', c.names[n])] == PlainName(n))
  }

  lemma {:induction false} SubstWrapped(env: Env, xs: seq<Term>, ys: seq<Term>)
    requires |xs| == |ys| && forall i :: 0 <= i < |xs| ==> Subst(env, xs[i]) == ys[i]
    ensures SubstArgs(env, Wrapped(xs)) == Wrapped(ys)
  {
    if xs != [] {
      SubstWrapped(env, xs[1..], ys[1..]);
      assert Wrapped(xs)[1..] == Wrapped(xs[1..]);
    }
  }

  lemma SubstApp(env: Env, head: string, xs: seq<Term>, ys: seq<Term>, line: bool)
    requires |xs| == |ys| && forall i :: 0 <= i < |xs| ==> Subst(env, xs[i]) == ys[i]
    ensures Subst(env, App(head, xs, line)) == App(head, ys, line)
  {
    SubstWrapped(env, xs, ys);
  }

  lemma {:induction false} ExpandType(t: Type, c: Tables, env: Env)
    requires Sound(c, env)
    ensures Subst(env, PrintType(c, t)) == Plain(t)
    decreases t, 2
  {
    if Lookup(c.types, t) == 0 {
      ExpandShape(t, c, env);
    }
  }

  // Also what makes a new definition mean its type.
  lemma {:induction false} ExpandShape(t: Type, c: Tables, env: Env)
    requires Sound(c, env)
    ensures Subst(env, PrintShape(c, t)) == Plain(t)
    decreases t, 1
  {
    var o := NOTHING;
    assert Plain(t) == PrintShape(o, t);
    match t.shape
    case Builtin(_) =>
    case Pointer(_) => ExpandIndirection(t, c, env);
    case LReference(_) => ExpandIndirection(t, c, env);
    case RReference(_) => ExpandIndirection(t, c, env);
    case ConstantArray(_, _) => ExpandArray(t, c, env);
    case IncompleteArray(_) => ExpandArray(t, c, env);
    case VariableArray(_, _) => ExpandArray(t, c, env);
    case Function(_, _, _, _) => ExpandFunction(t, c, env);
    case Record(d) =>
      ExpandName(d, c, env);
      SubstApp(env, "Tnamed", [PrintName(c, d)], [PrintName(o, d)], false);
    case Enum(_, d) =>
      ExpandName(d, c, env);
      SubstApp(env, "Tenum", [PrintName(c, d)], [PrintName(o, d)], false);
    case Elaborated(q) => ExpandQual(q, c, env);
    case Sugar(q) => ExpandQual(q, c, env);
    case Decayed(_, _) => ExpandPair(t, c, env);
    case MemberPointer(_, _) => ExpandPair(t, c, env);
  }

  lemma {:induction false} ExpandPair(t: Type, c: Tables, env: Env)
    requires Sound(c, env) && (t.shape.Decayed? || t.shape.MemberPointer?)
    ensures Subst(env, PrintShape(c, t)) == PrintShape(NOTHING, t)
    decreases t, 0
  {
    var o := NOTHING;
    match t.shape
    case Decayed(x, y) =>
      ExpandQual(x, c, env);
      ExpandQual(y, c, env);
      SubstApp(env, "Tdecay_type", [PrintQual(c, x), PrintQual(c, y)], [PrintQual(o, x), PrintQual(o, y)], false);
    case MemberPointer(k, p) =>
      ExpandType(k, c, env);
      ExpandQual(p, c, env);
      SubstApp(env, "Tmember_pointer", [PrintType(c, k), PrintQual(c, p)], [PrintType(o, k), PrintQual(o, p)], false);
  }

  lemma {:induction false} ExpandIndirection(t: Type, c: Tables, env: Env)
    requires Sound(c, env)
    requires t.shape.Pointer? || t.shape.LReference? || t.shape.RReference?
    ensures Subst(env, PrintShape(c, t)) == PrintShape(NOTHING, t)
    decreases t, 0
  {
    var o := NOTHING;
    match t.shape
    case Pointer(p) =>
      ExpandQual(p, c, env);
      SubstApp(env, "Tptr", [PrintQual(c, p)], [PrintQual(o, p)], false);
    case LReference(p) =>
      ExpandQual(p, c, env);
      SubstApp(env, "Tref", [PrintQual(c, p)], [PrintQual(o, p)], false);
    case RReference(p) =>
      ExpandQual(p, c, env);
      SubstApp(env, "Trv_ref", [PrintQual(c, p)], [PrintQual(o, p)], false);
  }

  lemma {:induction false} ExpandArray(t: Type, c: Tables, env: Env)
    requires Sound(c, env)
    requires t.shape.ConstantArray? || t.shape.IncompleteArray? || t.shape.VariableArray?
    ensures Subst(env, PrintShape(c, t)) == PrintShape(NOTHING, t)
    decreases t, 0
  {
    var o := NOTHING;
    match t.shape
    case ConstantArray(e, n) =>
      ExpandQual(e, c, env);
      SubstApp(env, "Tarray", [PrintQual(c, e), Num(n, "")], [PrintQual(o, e), Num(n, "")], false);
    case IncompleteArray(e) =>
      ExpandQual(e, c, env);
      SubstApp(env, "Tincomplete_array", [PrintQual(c, e)], [PrintQual(o, e)], false);
    case VariableArray(e, n) =>
      ExpandQual(e, c, env);
      ExpandExpr(n, c, env);
      SubstApp(env, "Tvariable_array", [PrintQual(c, e), PrintExpr(c, n)], [PrintQual(o, e), PrintExpr(o, n)], false);
  }

  lemma {:induction false} ExpandFunction(t: Type, c: Tables, env: Env)
    requires Sound(c, env) && t.shape.Function?
    ensures Subst(env, PrintShape(c, t)) == PrintShape(NOTHING, t)
    decreases t, 0
  {
    var Function(r, ps, cc, v) := t.shape;
    ExpandQual(r, c, env);
    ExpandUnquals(ps, c, env);
    SubstApp(env, "Tfunction",
             [Ident("type"), Ident(cc), Ident(v), PrintQual(c, r), Seq(PrintUnquals(c, ps), true)],
             [Ident("type"), Ident(cc), Ident(v), PrintQual(NOTHING, r), Seq(PrintUnquals(NOTHING, ps), true)], true);
  }

  lemma {:induction false} ExpandQual(q: QualType, c: Tables, env: Env)
    requires Sound(c, env)
    ensures Subst(env, PrintQual(c, q)) == PrintQual(NOTHING, q)
    ensures Subst(env, PrintUnqual(c, q)) == PrintUnqual(NOTHING, q)
    decreases q, 0
  {
    ExpandType(q.ty, c, env);
    var x, y := PrintType(c, q.ty), Plain(q.ty);
    SubstApp(env, "Qconst", [x], [y], false);
    SubstApp(env, "Qvolatile", [x], [y], false);
    SubstApp(env, "Qconst_volatile", [x], [y], false);
  }

  lemma {:induction false} ExpandUnquals(qs: seq<QualType>, c: Tables, env: Env)
    requires Sound(c, env)
    ensures SubstAll(env, PrintUnquals(c, qs)) == PrintUnquals(NOTHING, qs)
    decreases qs, 0
  {
    if qs != [] {
      ExpandQual(qs[0], c, env);
      ExpandUnquals(qs[1..], c, env);
      assert PrintUnquals(c, qs)[1..] == PrintUnquals(c, qs[1..]);
    }
  }

  lemma {:induction false} ExpandQuals(qs: seq<QualType>, c: Tables, env: Env)
    requires Sound(c, env)
    ensures SubstAll(env, PrintQuals(c, qs)) == PrintQuals(NOTHING, qs)
    decreases qs, 0
  {
    if qs != [] {
      ExpandQual(qs[0], c, env);
      ExpandQuals(qs[1..], c, env);
      assert PrintQuals(c, qs)[1..] == PrintQuals(c, qs[1..]);
    }
  }

  lemma {:induction false} ExpandName(n: Name, c: Tables, env: Env)
    requires Sound(c, env)
    ensures Subst(env, PrintName(c, n)) == PlainName(n)
    decreases n, 2
  {
    if Lookup(c.names, n) == 0 {
      ExpandFullName(n, c, env);
    }
  }

  lemma {:induction false} ExpandFullName(n: Name, c: Tables, env: Env)
    requires Sound(c, env)
    ensures Subst(env, PrintFullName(c, n)) == PlainName(n)
    decreases n, 1
  {
    ExpandScoped(n, c, env);
    assert PlainName(n) == PrintFullName(NOTHING, n);
    if n.special {
      ExpandTemplateArgs(n.targs, c, env);
      SubstApp(env, "Ninst",
               [PrintScoped(c, n), Seq(PrintTemplateArgs(c, n.targs), true)],
               [PrintScoped(NOTHING, n), Seq(PrintTemplateArgs(NOTHING, n.targs), true)], false);
    }
  }

  lemma {:induction false} ExpandScoped(n: Name, c: Tables, env: Env)
    requires Sound(c, env)
    ensures Subst(env, PrintScoped(c, n)) == PrintScoped(NOTHING, n)
    decreases n, 0
  {
    ExpandAtom(n.atom, c, env);
    var x, y := PrintAtom(c, n.atom), PrintAtom(NOTHING, n.atom);
    match n.scope
    case None =>
      SubstApp(env, "Nglobal", [x], [y], false);
    case Some(s) =>
      ExpandName(s, c, env);
      SubstApp(env, "Nscoped", [PrintName(c, s), x], [PrintName(NOTHING, s), y], false);
  }

  lemma {:induction false} ExpandAtom(a: Atom, c: Tables, env: Env)
    requires Sound(c, env)
    ensures Subst(env, PrintAtom(c, a)) == PrintAtom(NOTHING, a)
    decreases a, 0
  {
    match a
    case Nid(s) =>
      SubstApp(env, "Nid", [Quote(s)], [Quote(s)], false);
    case Nanon(i) =>
      SubstApp(env, "Nanon", [Num(i, "")], [Num(i, "")], false);
    case Nfunction(q, f, ps) =>
      ExpandQuals(ps, c, env);
      SubstApp(env, "Nfunction",
               [Ident(q), Ident(f), Seq(PrintQuals(c, ps), true)],
               [Ident(q), Ident(f), Seq(PrintQuals(NOTHING, ps), true)], false);
  }

  lemma {:induction false} ExpandTemplateArg(a: TemplateArg, c: Tables, env: Env)
    requires Sound(c, env)
    ensures Subst(env, PrintTemplateArg(c, a)) == PrintTemplateArg(NOTHING, a)
    decreases a, 0
  {
    match a
    case Atype(q) =>
      ExpandQual(q, c, env);
      SubstApp(env, "Atype", [PrintQual(c, q)], [PrintQual(NOTHING, q)], false);
    case Aint(v, q) =>
      ExpandQual(q, c, env);
      SubstApp(env, "Eint", [Num(v, "Z"), PrintQual(c, q)], [Num(v, "Z"), PrintQual(NOTHING, q)], false);
      SubstApp(env, "Avalue",
               [App("Eint", [Num(v, "Z"), PrintQual(c, q)], false)],
               [App("Eint", [Num(v, "Z"), PrintQual(NOTHING, q)], false)], false);
    case Aparam(s) =>
      SubstApp(env, "Tparam", [Quote(s)], [Quote(s)], false);
      SubstApp(env, "Atype", [App("Tparam", [Quote(s)], false)], [App("Tparam", [Quote(s)], false)], false);
  }

  lemma {:induction false} ExpandTemplateArgs(args: seq<TemplateArg>, c: Tables, env: Env)
    requires Sound(c, env)
    ensures SubstAll(env, PrintTemplateArgs(c, args)) == PrintTemplateArgs(NOTHING, args)
    decreases args, 0
  {
    if args != [] {
      ExpandTemplateArg(args[0], c, env);
      ExpandTemplateArgs(args[1..], c, env);
      assert PrintTemplateArgs(c, args)[1..] == PrintTemplateArgs(c, args[1..]);
    }
  }

  lemma {:induction false} ExpandNames(ns: seq<Name>, c: Tables, env: Env)
    requires Sound(c, env)
    ensures SubstAll(env, PrintNames(c, ns)) == PrintNames(NOTHING, ns)
    decreases ns, 0
  {
    if ns != [] {
      ExpandName(ns[0], c, env);
      ExpandNames(ns[1..], c, env);
      assert PrintNames(c, ns)[1..] == PrintNames(c, ns[1..]);
    }
  }

  lemma {:induction false} ExpandExpr(e: Expr, c: Tables, env: Env)
    requires Sound(c, env)
    ensures Subst(env, PrintExpr(c, e)) == PrintExpr(NOTHING, e)
    decreases e, 1
  {
    match e
    case DeclRef(_, _, _, _) => ExpandDeclRef(e, c, env);
    case Unary(_, _, _) => ExpandOperator(e, c, env);
    case Binary(_, _, _, _) => ExpandOperator(e, c, env);
    case Cast(_, _, _) => ExpandOperator(e, c, env);
    case Call(_, _, _) => ExpandCall(e, c, env);
    case MemberCall(_, _, _, _) => ExpandMemberCall(e, c, env);
    case Construct(_, _, _) => ExpandConstruct(e, c, env);
    case OtherExpr(_, _, _, _) => ExpandOtherExpr(e, c, env);
  }

  lemma {:induction false} ExpandDeclRef(e: Expr, c: Tables, env: Env)
    requires Sound(c, env) && e.DeclRef?
    ensures Subst(env, PrintExpr(c, e)) == PrintExpr(NOTHING, e)
    decreases e, 0
  {
    var DeclRef(local, d, s, q) := e;
    ExpandQual(q, c, env);
    var x, y := PrintQual(c, q), PrintQual(NOTHING, q);
    if local {
      SubstApp(env, "Evar", [Quote(s), x], [Quote(s), y], false);
    } else {
      ExpandName(d, c, env);
      SubstApp(env, "Eglobal", [PrintName(c, d), x], [PrintName(NOTHING, d), y], false);
    }
  }

  lemma {:induction false} ExpandOtherExpr(e: Expr, c: Tables, env: Env)
    requires Sound(c, env) && e.OtherExpr?
    ensures Subst(env, PrintExpr(c, e)) == PrintExpr(NOTHING, e)
    decreases e, 0
  {
    var OtherExpr(h, es, ns, q) := e;
    var o := NOTHING;
    ExpandQual(q, c, env);
    ExpandExprs(es, c, env);
    ExpandNames(ns, c, env);
    SubstApp(env, h,
             [Seq(PrintExprs(c, es), true), Seq(PrintNames(c, ns), true), PrintQual(c, q)],
             [Seq(PrintExprs(o, es), true), Seq(PrintNames(o, ns), true), PrintQual(o, q)], true);
  }

  lemma {:induction false} ExpandOperator(e: Expr, c: Tables, env: Env)
    requires Sound(c, env) && (e.Unary? || e.Binary? || e.Cast?)
    ensures Subst(env, PrintExpr(c, e)) == PrintExpr(NOTHING, e)
    decreases e, 0
  {
    var o := NOTHING;
    ExpandQual(e.ty, c, env);
    var x, y := PrintQual(c, e.ty), PrintQual(o, e.ty);
    match e
    case Unary(op, a, _) =>
      ExpandExpr(a, c, env);
      SubstApp(env, "Eunop", [Ident(op), PrintExpr(c, a), x], [Ident(op), PrintExpr(o, a), y], true);
    case Binary(op, a, b, _) =>
      ExpandExpr(a, c, env);
      ExpandExpr(b, c, env);
      SubstApp(env, "Ebinop",
               [Ident(op), PrintExpr(c, a), PrintExpr(c, b), x],
               [Ident(op), PrintExpr(o, a), PrintExpr(o, b), y], true);
    case Cast(k, a, _) =>
      ExpandExpr(a, c, env);
      SubstApp(env, "Ecast", [Ident(k), PrintExpr(c, a), x], [Ident(k), PrintExpr(o, a), y], true);
  }

  lemma {:induction false} ExpandCall(e: Expr, c: Tables, env: Env)
    requires Sound(c, env) && e.Call?
    ensures Subst(env, PrintExpr(c, e)) == PrintExpr(NOTHING, e)
    decreases e, 0
  {
    var o := NOTHING;
    ExpandQual(e.ty, c, env);
    var x, y := PrintQual(c, e.ty), PrintQual(o, e.ty);
    match e
    case Call(f, args, _) =>
      ExpandExpr(f, c, env);
      ExpandExprs(args, c, env);
      SubstApp(env, "Ecall",
               [PrintExpr(c, f), Seq(PrintExprs(c, args), true), x],
               [PrintExpr(o, f), Seq(PrintExprs(o, args), true), y], true);
  }

  lemma {:induction false} ExpandMemberCall(e: Expr, c: Tables, env: Env)
    requires Sound(c, env) && e.MemberCall?
    ensures Subst(env, PrintExpr(c, e)) == PrintExpr(NOTHING, e)
    decreases e, 0
  {
    var o := NOTHING;
    ExpandQual(e.ty, c, env);
    var x, y := PrintQual(c, e.ty), PrintQual(o, e.ty);
    match e
    case MemberCall(m, f, args, _) =>
      ExpandName(m, c, env);
      ExpandExpr(f, c, env);
      ExpandExprs(args, c, env);
      SubstApp(env, "Emember_call",
               [PrintName(c, m), PrintExpr(c, f), Seq(PrintExprs(c, args), true), x],
               [PrintName(o, m), PrintExpr(o, f), Seq(PrintExprs(o, args), true), y], true);
  }

  lemma {:induction false} ExpandConstruct(e: Expr, c: Tables, env: Env)
    requires Sound(c, env) && e.Construct?
    ensures Subst(env, PrintExpr(c, e)) == PrintExpr(NOTHING, e)
    decreases e, 0
  {
    var o := NOTHING;
    ExpandQual(e.ty, c, env);
    var x, y := PrintQual(c, e.ty), PrintQual(o, e.ty);
    match e
    case Construct(k, args, _) =>
      ExpandName(k, c, env);
      ExpandExprs(args, c, env);
      SubstApp(env, "Econstructor",
               [PrintName(c, k), Seq(PrintExprs(c, args), true), x],
               [PrintName(o, k), Seq(PrintExprs(o, args), true), y], true);
  }

  lemma {:induction false} ExpandExprs(es: seq<Expr>, c: Tables, env: Env)
    requires Sound(c, env)
    ensures SubstAll(env, PrintExprs(c, es)) == PrintExprs(NOTHING, es)
    decreases es, 0
  {
    if es != [] {
      ExpandExpr(es[0], c, env);
      ExpandExprs(es[1..], c, env);
      assert PrintExprs(c, es)[1..] == PrintExprs(c, es[1..]);
    }
  }

  lemma ExpandOptExpr(e: Option<Expr>, c: Tables, env: Env)
    requires Sound(c, env)
    ensures Subst(env, PrintOptExpr(c, e)) == PrintOptExpr(NOTHING, e)
  {
    if e.Some? {
      ExpandExpr(e.value, c, env);
      SubstApp(env, "Some", [PrintExpr(c, e.value)], [PrintExpr(NOTHING, e.value)], true);
    }
  }

  lemma ExpandOptVar(v: Option<LocalVar>, c: Tables, env: Env)
    requires Sound(c, env)
    ensures Subst(env, PrintOptVar(c, v)) == PrintOptVar(NOTHING, v)
  {
    if v.Some? {
      var LocalVar(s, ty, i) := v.value;
      var o := NOTHING;
      ExpandQual(ty, c, env);
      ExpandOptExpr(i, c, env);
      var xs, ys := [Quote(s), PrintQual(c, ty), PrintOptExpr(c, i)], [Quote(s), PrintQual(o, ty), PrintOptExpr(o, i)];
      SubstApp(env, "Dvar", xs, ys, true);
      SubstApp(env, "Some", [App("Dvar", xs, true)], [App("Dvar", ys, true)], true);
    }
  }

  lemma {:induction false} ExpandStmt(s: Stmt, c: Tables, env: Env)
    requires Sound(c, env)
    ensures Subst(env, PrintStmt(c, s)) == PrintStmt(NOTHING, s)
    decreases s, 1
  {
    var o := NOTHING;
    match s
    case ExprStmt(e) =>
      ExpandExpr(e, c, env);
      SubstApp(env, "Sexpr", [PrintExpr(c, e)], [PrintExpr(o, e)], true);
    case Break | Continue | Null =>
    case Compound(ss) =>
      ExpandStmts(ss, c, env);
      SubstApp(env, "Sseq", [Seq(PrintStmts(c, ss), false)], [Seq(PrintStmts(o, ss), false)], true);
    case Return(v) =>
      if v.Some? {
        ExpandExpr(v.value, c, env);
        SubstApp(env, "Sreturn_val", [PrintExpr(c, v.value)], [PrintExpr(o, v.value)], true);
      }
    case While(_, _, _) => ExpandLoop(s, c, env);
    case Do(_, _) => ExpandLoop(s, c, env);
    case For(_, _, _, _, _) => ExpandLoop(s, c, env);
    case If(_, _, _, _, _) => ExpandIf(s, c, env);
    case IfConsteval(_, _, _) => ExpandIfConsteval(s, c, env);
    case OtherStmt(h, es, ss) =>
      ExpandExprs(es, c, env);
      ExpandStmts(ss, c, env);
      SubstApp(env, h,
               [Seq(PrintExprs(c, es), true), Seq(PrintStmts(c, ss), true)],
               [Seq(PrintExprs(o, es), true), Seq(PrintStmts(o, ss), true)], true);
  }

  lemma {:induction false} ExpandLoop(s: Stmt, c: Tables, env: Env)
    requires Sound(c, env) && (s.While? || s.Do? || s.For?)
    ensures Subst(env, PrintStmt(c, s)) == PrintStmt(NOTHING, s)
    decreases s, 0
  {
    var o := NOTHING;
    match s
    case While(v, e, b) =>
      ExpandOptVar(v, c, env);
      ExpandExpr(e, c, env);
      ExpandStmt(b, c, env);
      SubstApp(env, "Swhile",
               [PrintOptVar(c, v), PrintExpr(c, e), PrintStmt(c, b)],
               [PrintOptVar(o, v), PrintExpr(o, e), PrintStmt(o, b)], true);
    case Do(b, e) =>
      ExpandStmt(b, c, env);
      ExpandExpr(e, c, env);
      SubstApp(env, "Sdo", [PrintStmt(c, b), PrintExpr(c, e)], [PrintStmt(o, b), PrintExpr(o, e)], true);
    case For(i, _, t, n, b) =>
      ExpandInit(i, c, env);
      ExpandOptExpr(t, c, env);
      ExpandOptExpr(n, c, env);
      ExpandStmt(b, c, env);
      SubstApp(env, "Sfor",
               [PrintInit(c, i), PrintOptExpr(c, t), PrintOptExpr(c, n), PrintStmt(c, b)],
               [PrintInit(o, i), PrintOptExpr(o, t), PrintOptExpr(o, n), PrintStmt(o, b)], true);
  }

  lemma {:induction false} ExpandIf(s: Stmt, c: Tables, env: Env)
    requires Sound(c, env) && s.If?
    ensures Subst(env, PrintStmt(c, s)) == PrintStmt(NOTHING, s)
    decreases s, 0
  {
    var o := NOTHING;
    var If(_, v, e, x, y) := s;
    ExpandOptVar(v, c, env);
    ExpandExpr(e, c, env);
    ExpandStmt(x, c, env);
    ExpandOptStmt(y, "Sskip", c, env);
    SubstApp(env, "Sif",
             [PrintOptVar(c, v), PrintExpr(c, e), PrintStmt(c, x), PrintOptStmt(c, y, "Sskip")],
             [PrintOptVar(o, v), PrintExpr(o, e), PrintStmt(o, x), PrintOptStmt(o, y, "Sskip")], true);
  }

  lemma {:induction false} ExpandIfConsteval(s: Stmt, c: Tables, env: Env)
    requires Sound(c, env) && s.IfConsteval?
    ensures Subst(env, PrintStmt(c, s)) == PrintStmt(NOTHING, s)
    decreases s, 0
  {
    var o := NOTHING;
    var IfConsteval(_, x, y) := s;
    ExpandStmt(x, c, env);
    ExpandOptStmt(y, "Sskip", c, env);
    SubstApp(env, "Sif_consteval",
             [PrintStmt(c, x), PrintOptStmt(c, y, "Sskip")], [PrintStmt(o, x), PrintOptStmt(o, y, "Sskip")], true);
  }

  lemma {:induction false} ExpandInit(s: Option<Stmt>, c: Tables, env: Env)
    requires Sound(c, env)
    ensures Subst(env, PrintInit(c, s)) == PrintInit(NOTHING, s)
    decreases s, 0
  {
    if s.Some? {
      ExpandStmt(s.value, c, env);
      SubstApp(env, "Some", [PrintStmt(c, s.value)], [PrintStmt(NOTHING, s.value)], true);
    }
  }

  lemma {:induction false} ExpandOptStmt(s: Option<Stmt>, absent: string, c: Tables, env: Env)
    requires Sound(c, env)
    ensures Subst(env, PrintOptStmt(c, s, absent)) == PrintOptStmt(NOTHING, s, absent)
    decreases s, 0
  {
    if s.Some? {
      ExpandStmt(s.value, c, env);
    }
  }

  lemma {:induction false} ExpandStmts(ss: seq<Stmt>, c: Tables, env: Env)
    requires Sound(c, env)
    ensures SubstAll(env, PrintStmts(c, ss)) == PrintStmts(NOTHING, ss)
    decreases ss, 0
  {
    if ss != [] {
      ExpandStmt(ss[0], c, env);
      ExpandStmts(ss[1..], c, env);
      assert PrintStmts(c, ss)[1..] == PrintStmts(c, ss[1..]);
    }
  }

  lemma ExpandBody(b: Option<Stmt>, c: Tables, env: Env)
    requires Sound(c, env)
    ensures Subst(env, PrintBody(c, b)) == PrintBody(NOTHING, b)
  {
    if b.Some? {
      ExpandStmt(b.value, c, env);
      SubstApp(env, "Some", [PrintStmt(c, b.value)], [PrintStmt(NOTHING, b.value)], true);
    }
  }

  lemma ExpandFunctionDecl(d: Decl, c: Tables, env: Env)
    requires Sound(c, env) && d.FunctionDecl?
    ensures Subst(env, PrintDecl(c, d)) == PlainDecl(d)
  {
    var o := NOTHING;
    ExpandName(d.name, c, env);
    match d
    case FunctionDecl(n, ps, r, b) =>
      ExpandQual(r, c, env);
      ExpandQuals(ps, c, env);
      ExpandBody(b, c, env);
      SubstApp(env, "Dfunction",
               [PrintName(c, n), PrintQual(c, r), Seq(PrintQuals(c, ps), true), PrintBody(c, b)],
               [PrintName(o, n), PrintQual(o, r), Seq(PrintQuals(o, ps), true), PrintBody(o, b)], true);
  }

  lemma ExpandConstructorDecl(d: Decl, c: Tables, env: Env)
    requires Sound(c, env) && d.ConstructorDecl?
    ensures Subst(env, PrintDecl(c, d)) == PlainDecl(d)
  {
    var o := NOTHING;
    ExpandName(d.name, c, env);
    match d
    case ConstructorDecl(n, ps, r, ins, b) =>
      ExpandQuals(ps, c, env);
      ExpandExprs(ins, c, env);
      ExpandBody(b, c, env);
      SubstApp(env, "Dconstructor",
               [PrintName(c, n), Seq(PrintQuals(c, ps), true), Seq(PrintExprs(c, ins), true), PrintBody(c, b)],
               [PrintName(o, n), Seq(PrintQuals(o, ps), true), Seq(PrintExprs(o, ins), true), PrintBody(o, b)], true);
  }

  // Whatever the cache holds, hit or miss: a printed declaration means its unshared printing.
  lemma ExpandDecl(d: Decl, c: Tables, env: Env)
    requires Sound(c, env)
    ensures Subst(env, PrintDecl(c, d)) == PlainDecl(d)
  {
    var o := NOTHING;
    ExpandName(d.name, c, env);
    match d
    case VarDecl(n, ty, i) =>
      ExpandQual(ty, c, env);
      ExpandOptExpr(i, c, env);
      SubstApp(env, "Dvariable",
               [PrintName(c, n), PrintQual(c, ty), PrintOptExpr(c, i)],
               [PrintName(o, n), PrintQual(o, ty), PrintOptExpr(o, i)], true);
    case FunctionDecl(_, _, _, _) => ExpandFunctionDecl(d, c, env);
    case ConstructorDecl(_, _, _, _, _) => ExpandConstructorDecl(d, c, env);
    case RecordDecl(n, fs) =>
      ExpandQuals(fs, c, env);
      SubstApp(env, "Dstruct",
               [PrintName(c, n), Seq(PrintQuals(c, fs), true)],
               [PrintName(o, n), Seq(PrintQuals(o, fs), true)], true);
    case OtherDecl(h, n, ts) =>
      ExpandQuals(ts, c, env);
      SubstApp(env, h,
               [PrintName(c, n), Seq(PrintQuals(c, ts), true)],
               [PrintName(o, n), Seq(PrintQuals(o, ts), true)], true);
  }
}
