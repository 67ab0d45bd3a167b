/**
 * The sharing pass: types and names met in a declaration are printed once, as definitions
 * `t2`, `t3`, ... and `n2`, `n3`, ..., and later printing refers to them.
 *
 * A type or a name stands for a node of Clang's graph: `id` is its identity (the pointer), and the
 * tree below it is the graph unfolded, so the graph is acyclic. Names and types are closed: their
 * printing does not depend on the enclosing declaration.
 */
module Sharing {
  import opened Printing
  import opened Wrappers

  // ----- Types, names, expressions, statements and declarations -----

  datatype Wrap = Bare | Const | Volatile | ConstVolatile

  datatype QualType = QualType(wrap: Wrap, ty: Type)

  datatype Type = Type(id: nat, shape: Shape)

  datatype Shape =
    | Builtin(name: string)
    | Pointer(p: QualType)
    | LReference(p: QualType)
    | RReference(p: QualType)
    | ConstantArray(e: QualType, size: nat)
    | IncompleteArray(e: QualType)
    | VariableArray(e: QualType, count: Expr)
    | Function(ret: QualType, params: seq<QualType>, cc: string, variadic: string)
    | Record(decl: Name)
    | Enum(decl: Name, canonical: Name)
    | Elaborated(q: QualType)          // and substituted template parameters
    | Sugar(q: QualType)               // typedef, parenthesized, attributed, using, macro: not entered
    | Decayed(original: QualType, adjusted: QualType)
    | MemberPointer(cls: Type, p: QualType)

  datatype Name = Name(id: nat, scope: Option<Name>, atom: Atom, special: bool, targs: seq<TemplateArg>)

  datatype Atom =
    | Nid(ident: string)
    | Nanon(index: nat)
    | Nfunction(quals: string, fname: string, params: seq<QualType>)

  datatype TemplateArg =
    | Atype(q: QualType)
    | Aint(v: int, q: QualType)
    | Aparam(ident: string)

  datatype Expr =
    | DeclRef(local: bool, d: Name, ident: string, ty: QualType)
    | Unary(op: string, sub: Expr, ty: QualType)
    | Binary(op: string, lhs: Expr, rhs: Expr, ty: QualType)
    | Call(callee: Expr, args: seq<Expr>, ty: QualType)
    | MemberCall(method_: Name, callee: Expr, args: seq<Expr>, ty: QualType)
    | Construct(ctor: Name, args: seq<Expr>, ty: QualType)
    | Cast(kind: string, sub: Expr, ty: QualType)
    | OtherExpr(head: string, subs: seq<Expr>, refs: seq<Name>, ty: QualType)   // not entered

  datatype LocalVar = LocalVar(ident: string, ty: QualType, init: Option<Expr>)

  datatype Stmt =
    | ExprStmt(e: Expr)
    | Break
    | Continue
    | Null
    | Compound(body: seq<Stmt>)
    | Return(value: Option<Expr>)
    | While(v: Option<LocalVar>, cond: Expr, loop: Stmt)
    | Do(loop: Stmt, cond: Expr)
    | For(start: Option<Stmt>, v: Option<LocalVar>, test: Option<Expr>, inc: Option<Expr>, loop: Stmt)
    | If(init: Option<Stmt>, v: Option<LocalVar>, cond: Expr, thn: Stmt, els: Option<Stmt>)
    | IfConsteval(negated: bool, thn: Stmt, els: Option<Stmt>)
    | OtherStmt(head: string, exprs: seq<Expr>, subs: seq<Stmt>)                // not entered

  datatype Decl =
    | VarDecl(name: Name, ty: QualType, init: Option<Expr>)
    | FunctionDecl(name: Name, params: seq<QualType>, ret: QualType, body: Option<Stmt>)
    | ConstructorDecl(name: Name, params: seq<QualType>, ret: QualType, inits: seq<Expr>, body: Option<Stmt>)
    | RecordDecl(name: Name, fields: seq<QualType>)
    | OtherDecl(head: string, name: Name, tys: seq<QualType>)

  // ----- The cache -----

  const LIMIT: nat := 0x1_0000_0000    // names are numbered by a 32-bit unsigned counter

  // The two tables, without their counters: all that printing looks at.
  datatype Tables = Tables(types: map<Type, nat>, names: map<Name, nat>)

  const NOTHING := Tables(map[], map[])

  function Lookup<T>(m: map<T, nat>, p: T): nat {
    if p in m then m[p] else 0
  }

  // ----- Printing, with references for cached nodes -----

  function Wrapped(ts: seq<Term>): seq<Arg> {
    if ts == [] then [] else [Arg(true, ts[0])] + Wrapped(ts[1..])
  }

  function App(head: string, ts: seq<Term>, line: bool): Term {
    Ctor(head, Wrapped(ts), line)
  }

  function PrintType(c: Tables, t: Type): Term
    decreases t, 2
  {
    if Lookup(c.types, t) != 0 then Ref('t', c.types[t]) else PrintShape(c, t)
  }

  // The visitor behind the cache hook.
  function PrintShape(c: Tables, t: Type): Term
    decreases t, 1
  {
    match t.shape
    case Builtin(s) => Ident(s)
    case Pointer(p) => App("Tptr", [PrintQual(c, p)], false)
    case LReference(p) => App("Tref", [PrintQual(c, p)], false)
    case RReference(p) => App("Trv_ref", [PrintQual(c, p)], false)
    case ConstantArray(e, n) => App("Tarray", [PrintQual(c, e), Num(n, "")], false)
    case IncompleteArray(e) => App("Tincomplete_array", [PrintQual(c, e)], false)
    case VariableArray(e, n) => App("Tvariable_array", [PrintQual(c, e), PrintExpr(c, n)], false)
    case Function(r, ps, cc, v) =>
      App("Tfunction", [Ident("type"), Ident(cc), Ident(v), PrintQual(c, r), Seq(PrintUnquals(c, ps), true)], true)
    case Record(d) => App("Tnamed", [PrintName(c, d)], false)
    case Enum(_, d) => App("Tenum", [PrintName(c, d)], false)
    case Elaborated(q) => PrintQual(c, q)
    case Sugar(q) => PrintQual(c, q)
    case Decayed(o, a) => App("Tdecay_type", [PrintQual(c, o), PrintQual(c, a)], false)
    case MemberPointer(k, p) => App("Tmember_pointer", [PrintType(c, k), PrintQual(c, p)], false)
  }

  function PrintQual(c: Tables, q: QualType): Term
    decreases q, 0
  {
    var t := PrintType(c, q.ty);
    match q.wrap
    case Bare => t
    case Const => App("Qconst", [t], false)
    case Volatile => App("Qvolatile", [t], false)
    case ConstVolatile => App("Qconst_volatile", [t], false)
  }

  function PrintUnqual(c: Tables, q: QualType): Term
    decreases q, 0
  {
    PrintType(c, q.ty)
  }

  function PrintUnquals(c: Tables, qs: seq<QualType>): seq<Term>
    decreases qs, 0
  {
    if qs == [] then [] else [PrintUnqual(c, qs[0])] + PrintUnquals(c, qs[1..])
  }

  function PrintQuals(c: Tables, qs: seq<QualType>): seq<Term>
    decreases qs, 0
  {
    if qs == [] then [] else [PrintQual(c, qs[0])] + PrintQuals(c, qs[1..])
  }

  function PrintName(c: Tables, n: Name): Term
    decreases n, 2
  {
    if Lookup(c.names, n) != 0 then Ref('n', c.names[n]) else PrintFullName(c, n)
  }

  function PrintFullName(c: Tables, n: Name): Term
    decreases n, 1
  {
    if n.special then App("Ninst", [PrintScoped(c, n), Seq(PrintTemplateArgs(c, n.targs), true)], false)
    else PrintScoped(c, n)
  }

  function PrintScoped(c: Tables, n: Name): Term
    decreases n, 0
  {
    match n.scope
    case None => App("Nglobal", [PrintAtom(c, n.atom)], false)
    case Some(s) => App("Nscoped", [PrintName(c, s), PrintAtom(c, n.atom)], false)
  }

  function PrintAtom(c: Tables, a: Atom): Term
    decreases a, 0
  {
    match a
    case Nid(s) => App("Nid", [Quote(s)], false)
    case Nanon(i) => App("Nanon", [Num(i, "")], false)
    case Nfunction(q, f, ps) => App("Nfunction", [Ident(q), Ident(f), Seq(PrintQuals(c, ps), true)], false)
  }

  function PrintTemplateArg(c: Tables, a: TemplateArg): Term
    decreases a, 0
  {
    match a
    case Atype(q) => App("Atype", [PrintQual(c, q)], false)
    case Aint(v, q) => App("Avalue", [App("Eint", [Num(v, "Z"), PrintQual(c, q)], false)], false)
    case Aparam(s) => App("Atype", [App("Tparam", [Quote(s)], false)], false)
  }

  function PrintTemplateArgs(c: Tables, args: seq<TemplateArg>): seq<Term>
    decreases args, 0
  {
    if args == [] then [] else [PrintTemplateArg(c, args[0])] + PrintTemplateArgs(c, args[1..])
  }

  function PrintExpr(c: Tables, e: Expr): Term
    decreases e, 0
  {
    match e
    case DeclRef(true, _, s, ty) => App("Evar", [Quote(s), PrintQual(c, ty)], false)
    case DeclRef(false, d, _, ty) => App("Eglobal", [PrintName(c, d), PrintQual(c, ty)], false)
    case Unary(op, x, ty) => App("Eunop", [Ident(op), PrintExpr(c, x), PrintQual(c, ty)], true)
    case Binary(op, x, y, ty) =>
      App("Ebinop", [Ident(op), PrintExpr(c, x), PrintExpr(c, y), PrintQual(c, ty)], true)
    case Call(f, args, ty) => App("Ecall", [PrintExpr(c, f), Seq(PrintExprs(c, args), true), PrintQual(c, ty)], true)
    case MemberCall(m, f, args, ty) =>
      App("Emember_call",
          [PrintName(c, m), PrintExpr(c, f), Seq(PrintExprs(c, args), true), PrintQual(c, ty)], true)
    case Construct(k, args, ty) =>
      App("Econstructor", [PrintName(c, k), Seq(PrintExprs(c, args), true), PrintQual(c, ty)], true)
    case Cast(k, x, ty) => App("Ecast", [Ident(k), PrintExpr(c, x), PrintQual(c, ty)], true)
    case OtherExpr(h, xs, ns, ty) =>
      App(h, [Seq(PrintExprs(c, xs), true), Seq(PrintNames(c, ns), true), PrintQual(c, ty)], true)
  }

  function PrintExprs(c: Tables, es: seq<Expr>): seq<Term>
    decreases es, 0
  {
    if es == [] then [] else [PrintExpr(c, es[0])] + PrintExprs(c, es[1..])
  }

  function PrintNames(c: Tables, ns: seq<Name>): seq<Term>
    decreases ns, 0
  {
    if ns == [] then [] else [PrintName(c, ns[0])] + PrintNames(c, ns[1..])
  }

  function PrintOptExpr(c: Tables, e: Option<Expr>): Term {
    match e
    case None => Ident("None")
    case Some(x) => App("Some", [PrintExpr(c, x)], true)
  }

  function PrintOptVar(c: Tables, v: Option<LocalVar>): Term {
    match v
    case None => Ident("None")
    case Some(LocalVar(s, ty, i)) =>
      App("Some", [App("Dvar", [Quote(s), PrintQual(c, ty), PrintOptExpr(c, i)], true)], true)
  }

  function PrintStmt(c: Tables, s: Stmt): Term
    decreases s, 0
  {
    match s
    case ExprStmt(e) => App("Sexpr", [PrintExpr(c, e)], true)
    case Break => Ident("Sbreak")
    case Continue => Ident("Scontinue")
    case Null => Ident("Sskip")
    case Compound(ss) => App("Sseq", [Seq(PrintStmts(c, ss), false)], true)
    case Return(None) => Ident("Sreturn_void")
    case Return(Some(e)) => App("Sreturn_val", [PrintExpr(c, e)], true)
    case While(v, e, b) => App("Swhile", [PrintOptVar(c, v), PrintExpr(c, e), PrintStmt(c, b)], true)
    case Do(b, e) => App("Sdo", [PrintStmt(c, b), PrintExpr(c, e)], true)
    case For(i, _, t, n, b) =>        // a condition variable is not printed
      App("Sfor", [PrintInit(c, i), PrintOptExpr(c, t), PrintOptExpr(c, n), PrintStmt(c, b)], true)
    case If(_, v, e, x, y) =>         // nor is an initialization, nor a negation
      App("Sif", [PrintOptVar(c, v), PrintExpr(c, e), PrintStmt(c, x), PrintOptStmt(c, y, "Sskip")], true)
    case IfConsteval(_, x, y) => App("Sif_consteval", [PrintStmt(c, x), PrintOptStmt(c, y, "Sskip")], true)
    case OtherStmt(h, es, ss) => App(h, [Seq(PrintExprs(c, es), true), Seq(PrintStmts(c, ss), true)], true)
  }

  function PrintInit(c: Tables, s: Option<Stmt>): Term
    decreases s, 0
  {
    match s
    case None => Ident("None")
    case Some(x) => App("Some", [PrintStmt(c, x)], true)
  }

  function PrintOptStmt(c: Tables, s: Option<Stmt>, absent: string): Term
    decreases s, 0
  {
    match s
    case None => Ident(absent)
    case Some(x) => PrintStmt(c, x)
  }

  function PrintStmts(c: Tables, ss: seq<Stmt>): seq<Term>
    decreases ss, 0
  {
    if ss == [] then [] else [PrintStmt(c, ss[0])] + PrintStmts(c, ss[1..])
  }

  function PrintBody(c: Tables, b: Option<Stmt>): Term {
    match b
    case None => Ident("None")
    case Some(s) => App("Some", [PrintStmt(c, s)], true)
  }

  function PrintDecl(c: Tables, d: Decl): Term {
    match d
    case VarDecl(n, ty, i) => App("Dvariable", [PrintName(c, n), PrintQual(c, ty), PrintOptExpr(c, i)], true)
    case FunctionDecl(n, ps, r, b) =>
      App("Dfunction", [PrintName(c, n), PrintQual(c, r), Seq(PrintQuals(c, ps), true), PrintBody(c, b)], true)
    case ConstructorDecl(n, ps, r, ins, b) =>
      App("Dconstructor",
          [PrintName(c, n), Seq(PrintQuals(c, ps), true), Seq(PrintExprs(c, ins), true), PrintBody(c, b)], true)
    case RecordDecl(n, fs) => App("Dstruct", [PrintName(c, n), Seq(PrintQuals(c, fs), true)], true)
    case OtherDecl(h, n, ts) => App(h, [PrintName(c, n), Seq(PrintQuals(c, ts), true)], true)
  }

  // Printing without sharing: the cache is empty.
  function Plain(t: Type): Term { PrintType(NOTHING, t) }
  function PlainName(n: Name): Term { PrintName(NOTHING, n) }
  function PlainDecl(d: Decl): Term { PrintDecl(NOTHING, d) }

  // ----- Definitions, and substituting them back -----

  datatype Source = OfType(t: Type) | OfName(n: Name)

  // `#[local] Definition <prefix><n> : _ := <body>.`
  datatype Def = Def(prefix: char, n: nat, body: Term, source: Source)

  type Env = map<(char, nat), Term>

  function Subst(env: Env, t: Term): Term {
    match t
    case Ref(p, n) => if (p, n) in env then env[(p, n)] else t
    case Ctor(x, args, line) => Ctor(x, SubstArgs(env, args), line)
    case Seq(es, bare) => Seq(SubstAll(env, es), bare)
    case Tuple(ps) => Tuple(SubstAll(env, ps))
    case Remarked(c, u) => Remarked(c, Subst(env, u))
    case _ => t
  }

  function SubstArg(env: Env, a: Arg): Arg {
    Arg(a.sep, Subst(env, a.t))
  }

  function SubstArgs(env: Env, args: seq<Arg>): seq<Arg> {
    if args == [] then [] else [SubstArg(env, args[0])] + SubstArgs(env, args[1..])
  }

  function SubstAll(env: Env, ts: seq<Term>): seq<Term> {
    if ts == [] then [] else [Subst(env, ts[0])] + SubstAll(env, ts[1..])
  }

  // Each definition is read in the environment of the earlier ones only.
  function Meanings(defs: seq<Def>): Env {
    if defs == [] then map[]
    else
      var d := defs[|defs| - 1];
      var env := Meanings(defs[..|defs| - 1]);
      env[(d.prefix, d.n) := Subst(env, d.body)]
  }

  // ----- The traversal -----

  datatype Cache = Cache(tables: Tables, nextType: nat, nextName: nat, defs: seq<Def>)

  const EMPTY := Cache(NOTHING, 1, 1, [])

  datatype Visit =
    | VisitQual(q: QualType)
    | VisitName(n: Name)
    | VisitExpr(e: Expr)
    | VisitStmt(s: Stmt)
    | VisitDecl(d: Decl)

  // The types for which the type visitor answers `true`.
  predicate Cached(t: Type) {
    match t.shape
    case Pointer(_) | LReference(_) | RReference(_) | ConstantArray(_, _) | IncompleteArray(_) => true
    case Function(_, _, _, _) | Record(_) | Enum(_, _) => true
    case _ => false
  }

  function QualVisits(qs: seq<QualType>): seq<Visit> {
    if qs == [] then [] else [VisitQual(qs[0])] + QualVisits(qs[1..])
  }

  function ExprVisits(es: seq<Expr>): seq<Visit> {
    if es == [] then [] else [VisitExpr(es[0])] + ExprVisits(es[1..])
  }

  function StmtVisits(ss: seq<Stmt>): seq<Visit> {
    if ss == [] then [] else [VisitStmt(ss[0])] + StmtVisits(ss[1..])
  }

  function OptVisit(e: Option<Expr>): seq<Visit> {
    if e.None? then [] else [VisitExpr(e.value)]
  }

  function VarVisit(v: Option<LocalVar>): seq<Visit> {
    if v.None? then [] else OptVisit(v.value.init)
  }

  function TypeKids(t: Type): seq<Visit> {
    match t.shape
    case Pointer(p) => [VisitQual(p)]
    case LReference(p) => [VisitQual(p)]
    case RReference(p) => [VisitQual(p)]
    case ConstantArray(e, _) => [VisitQual(e)]
    case IncompleteArray(e) => [VisitQual(e)]
    case VariableArray(_, n) => [VisitExpr(n)]
    case Function(r, ps, _, _) => QualVisits(ps) + [VisitQual(r)]
    case Record(d) => [VisitName(d)]
    case Enum(d, _) => [VisitName(d)]
    case Elaborated(q) => [VisitQual(q)]
    case Decayed(o, a) => [VisitQual(o), VisitQual(a)]
    case _ => []
  }

  function ExprKids(e: Expr): seq<Visit> {
    [VisitQual(e.ty)] +
    match e
    case DeclRef(local, d, _, _) => if local then [] else [VisitName(d)]
    case Unary(_, x, _) => [VisitExpr(x)]
    case Binary(_, x, y, _) => [VisitExpr(x), VisitExpr(y)]
    case Call(f, args, _) => [VisitExpr(f)] + ExprVisits(args)
    case MemberCall(m, f, args, _) => [VisitName(m), VisitExpr(f)] + ExprVisits(args)
    case Construct(k, args, _) => [VisitName(k)] + ExprVisits(args)
    case Cast(_, x, ty) => [VisitExpr(x), VisitQual(ty)]
    case OtherExpr(_, _, _, _) => []
  }

  function StmtKids(s: Stmt): seq<Visit> {
    match s
    case ExprStmt(e) => [VisitExpr(e)]
    case Compound(ss) => StmtVisits(ss)
    case Return(v) => OptVisit(v)
    case While(v, e, b) => VarVisit(v) + [VisitExpr(e), VisitStmt(b)]
    case Do(b, e) => [VisitStmt(b), VisitExpr(e)]
    case For(_, v, t, n, b) => VarVisit(v) + OptVisit(t) + OptVisit(n) + [VisitStmt(b)]
    case If(_, v, e, x, y) => VarVisit(v) + [VisitExpr(e), VisitStmt(x)] + BodyVisit(y)
    case IfConsteval(_, x, y) => [VisitStmt(x)] + BodyVisit(y)
    case Break | Continue | Null | OtherStmt(_, _, _) => []
  }

  function BodyVisit(b: Option<Stmt>): seq<Visit> {
    if b.None? then [] else [VisitStmt(b.value)]
  }

  function DeclVisits(ds: seq<Decl>): seq<Visit> {
    seq(|ds|, i requires 0 <= i < |ds| => VisitDecl(ds[i]))
  }

  // The name comes after the parameter types, which it refers to.
  function DeclKids(d: Decl): seq<Visit> {
    match d
    case VarDecl(_, ty, _) => [VisitQual(ty)]
    case FunctionDecl(n, ps, r, b) => QualVisits(ps) + [VisitQual(r), VisitName(n)] + BodyVisit(b)
    case ConstructorDecl(n, ps, r, ins, b) =>
      ExprVisits(ins) + (QualVisits(ps) + [VisitQual(r), VisitName(n)] + BodyVisit(b))
    case RecordDecl(n, fs) => [VisitName(n)] + QualVisits(fs)
    case OtherDecl(_, _, _) => []
  }

  // ----- Sizes: how deep the traversal can still go -----

  function TypeSize(t: Type): nat {
    1 + match t.shape
        case Pointer(p) => QualSize(p)
        case LReference(p) => QualSize(p)
        case RReference(p) => QualSize(p)
        case ConstantArray(e, _) => QualSize(e)
        case IncompleteArray(e) => QualSize(e)
        case VariableArray(_, n) => ExprSize(n)
        case Function(r, ps, _, _) => QualSize(r) + QualsSize(ps)
        case Elaborated(q) => QualSize(q)
        case Decayed(o, a) => QualSize(o) + QualSize(a)
        case _ => 0
  }

  function QualSize(q: QualType): nat {
    TypeSize(q.ty)
  }

  function QualsSize(qs: seq<QualType>): nat {
    if qs == [] then 0 else QualSize(qs[0]) + QualsSize(qs[1..])
  }

  function ExprSize(e: Expr): nat {
    1 + QualSize(e.ty) +
    match e
    case DeclRef(_, _, _, _) => 0
    case Unary(_, x, _) => ExprSize(x)
    case Binary(_, x, y, _) => ExprSize(x) + ExprSize(y)
    case Call(f, args, _) => ExprSize(f) + ExprsSize(args)
    case MemberCall(_, f, args, _) => ExprSize(f) + ExprsSize(args)
    case Construct(_, args, _) => ExprsSize(args)
    case Cast(_, x, _) => ExprSize(x)
    case OtherExpr(_, _, _, _) => 0
  }

  function ExprsSize(es: seq<Expr>): nat {
    if es == [] then 0 else ExprSize(es[0]) + ExprsSize(es[1..])
  }

  function OptExprSize(e: Option<Expr>): nat {
    match e
    case None => 0
    case Some(x) => ExprSize(x)
  }

  function VarSize(v: Option<LocalVar>): nat {
    match v
    case None => 0
    case Some(x) => OptExprSize(x.init)
  }

  function StmtSize(s: Stmt): nat {
    1 + match s
        case ExprStmt(e) => ExprSize(e)
        case Compound(ss) => StmtsSize(ss)
        case Return(v) => OptExprSize(v)
        case While(v, e, b) => VarSize(v) + ExprSize(e) + StmtSize(b)
        case Do(b, e) => StmtSize(b) + ExprSize(e)
        case For(_, v, t, n, b) => VarSize(v) + OptExprSize(t) + OptExprSize(n) + StmtSize(b)
        case If(_, v, e, x, y) => VarSize(v) + ExprSize(e) + StmtSize(x) + OptStmtSize(y)
        case IfConsteval(_, x, y) => StmtSize(x) + OptStmtSize(y)
        case Break | Continue | Null | OtherStmt(_, _, _) => 0
  }

  function OptStmtSize(s: Option<Stmt>): nat {
    match s
    case None => 0
    case Some(x) => StmtSize(x)
  }

  function StmtsSize(ss: seq<Stmt>): nat {
    if ss == [] then 0 else StmtSize(ss[0]) + StmtsSize(ss[1..])
  }

  function DeclSize(d: Decl): nat {
    1 + match d
        case VarDecl(_, ty, _) => QualSize(ty)
        case FunctionDecl(_, ps, r, b) => QualsSize(ps) + QualSize(r) + OptStmtSize(b)
        case ConstructorDecl(_, ps, r, ins, b) => ExprsSize(ins) + QualsSize(ps) + QualSize(r) + OptStmtSize(b)
        case RecordDecl(_, fs) => QualsSize(fs)
        case OtherDecl(_, _, _) => 0
  }

  function Size(v: Visit): nat {
    match v
    case VisitQual(q) => QualSize(q)
    case VisitName(_) => 0
    case VisitExpr(e) => ExprSize(e)
    case VisitStmt(s) => StmtSize(s)
    case VisitDecl(d) => DeclSize(d)
  }

  function MaxSize(vs: seq<Visit>): nat {
    if vs == [] then 0
    else
      var m, n := MaxSize(vs[..|vs| - 1]), Size(vs[|vs| - 1]);
      if m < n then n else m
  }

  lemma {:induction false} MaxSizeBound(vs: seq<Visit>, bound: nat)
    requires forall v :: v in vs ==> Size(v) <= bound
    ensures MaxSize(vs) <= bound
  {
    if vs != [] {
      MaxSizeBound(vs[..|vs| - 1], bound);
    }
  }

  lemma {:induction false} QualVisitsSize(qs: seq<QualType>)
    ensures forall v :: v in QualVisits(qs) ==> Size(v) <= QualsSize(qs)
  {
    if qs != [] {
      QualVisitsSize(qs[1..]);
    }
  }

  lemma {:induction false} ExprVisitsSize(es: seq<Expr>)
    ensures forall v :: v in ExprVisits(es) ==> Size(v) <= ExprsSize(es)
  {
    if es != [] {
      ExprVisitsSize(es[1..]);
    }
  }

  lemma {:induction false} StmtVisitsSize(ss: seq<Stmt>)
    ensures forall v :: v in StmtVisits(ss) ==> Size(v) <= StmtsSize(ss)
  {
    if ss != [] {
      StmtVisitsSize(ss[1..]);
    }
  }

  lemma VarVisitSize(v: Option<LocalVar>)
    ensures forall x :: x in VarVisit(v) ==> Size(x) <= VarSize(v)
  {
  }

  lemma ForVisitsSize(v: Option<LocalVar>, t: Option<Expr>, n: Option<Expr>, b: Stmt)
    ensures forall x :: x in VarVisit(v) + OptVisit(t) + OptVisit(n) + [VisitStmt(b)]
                    ==> Size(x) <= VarSize(v) + OptExprSize(t) + OptExprSize(n) + StmtSize(b)
  {
    VarVisitSize(v);
    assert forall x :: x in OptVisit(t) ==> Size(x) <= OptExprSize(t);
    assert forall x :: x in OptVisit(n) ==> Size(x) <= OptExprSize(n);
  }

  lemma TypeKidsShrink(t: Type)
    ensures MaxSize(TypeKids(t)) < TypeSize(t)
  {
    if t.shape.Function? {
      QualVisitsSize(t.shape.params);
    }
    MaxSizeBound(TypeKids(t), TypeSize(t) - 1);
  }

  lemma ExprKidsShrink(e: Expr)
    ensures MaxSize(ExprKids(e)) < ExprSize(e)
  {
    match e {
      case Call(_, args, _) => ExprVisitsSize(args);
      case MemberCall(_, _, args, _) => ExprVisitsSize(args);
      case Construct(_, args, _) => ExprVisitsSize(args);
      case _ =>
    }
    MaxSizeBound(ExprKids(e), ExprSize(e) - 1);
  }

  lemma StmtKidsShrink(s: Stmt)
    ensures MaxSize(StmtKids(s)) < StmtSize(s)
  {
    match s {
      case ExprStmt(e) => MaxSizeBound([VisitExpr(e)], ExprSize(e));
      case Compound(ss) =>
        StmtVisitsSize(ss);
        MaxSizeBound(StmtVisits(ss), StmtsSize(ss));
      case Return(v) => MaxSizeBound(OptVisit(v), OptExprSize(v));
      case While(v, e, b) =>
        VarVisitSize(v);
        MaxSizeBound(VarVisit(v) + [VisitExpr(e), VisitStmt(b)], VarSize(v) + ExprSize(e) + StmtSize(b));
      case Do(b, e) => MaxSizeBound([VisitStmt(b), VisitExpr(e)], StmtSize(b) + ExprSize(e));
      case For(_, v, t, n, b) =>
        ForVisitsSize(v, t, n, b);
        MaxSizeBound(StmtKids(s), StmtSize(s) - 1);
      case IfConsteval(_, x, y) => MaxSizeBound([VisitStmt(x)] + BodyVisit(y), StmtSize(x) + OptStmtSize(y));
      case If(_, v, e, x, y) =>
        VarVisitSize(v);
        MaxSizeBound(VarVisit(v) + [VisitExpr(e), VisitStmt(x)] + BodyVisit(y),
                     VarSize(v) + ExprSize(e) + StmtSize(x) + OptStmtSize(y));
      case Break | Continue | Null | OtherStmt(_, _, _) =>
    }
  }

  lemma DeclKidsShrink(d: Decl)
    ensures MaxSize(DeclKids(d)) < DeclSize(d)
  {
    match d {
      case FunctionDecl(_, ps, _, _) => QualVisitsSize(ps);
      case ConstructorDecl(_, ps, _, ins, _) =>
        QualVisitsSize(ps);
        ExprVisitsSize(ins);
      case RecordDecl(_, fs) => QualVisitsSize(fs);
      case _ =>
    }
    MaxSizeBound(DeclKids(d), DeclSize(d) - 1);
  }
}
