/**
 * Reading names, types, expressions, statements and declarations back from terms. What is printed
 * without sharing is the node, but for what printing leaves out: addresses, sugar that adds no
 * qualifier, and the few parts that the visitors never print.
 */
module NodeReading {
  import Formatting
  import opened Printing
  import opened Reading
  import opened Sharing
  import opened Wrappers

  // ----- What printing keeps of a node -----

  const NO_TYPE := Type(0, Builtin(""))
  const NO_NAME := Name(0, None, Nid(""), false, [])
  const NO_EXPR := OtherExpr("", [], [], QualType(Bare, NO_TYPE))

  // A type that is only a qualified one, and the other way round.
  function AsType(q: QualType): Type {
    if q.wrap.Bare? then q.ty else Type(0, Sugar(q))
  }

  function AsQual(t: Type): QualType {
    if t.shape.Sugar? then t.shape.q else QualType(Bare, t)
  }

  function KeptType(t: Type): Type
    decreases t, 0
  {
    match t.shape
    case Builtin(s) => Type(0, Builtin(s))
    case Pointer(p) => Type(0, Pointer(KeptQual(p)))
    case LReference(p) => Type(0, LReference(KeptQual(p)))
    case RReference(p) => Type(0, RReference(KeptQual(p)))
    case ConstantArray(e, n) => Type(0, ConstantArray(KeptQual(e), n))
    case IncompleteArray(e) => Type(0, IncompleteArray(KeptQual(e)))
    case VariableArray(e, n) => Type(0, VariableArray(KeptQual(e), KeptExpr(n)))
    case Function(r, ps, cc, v) => Type(0, Function(KeptQual(r), KeptParams(ps), cc, v))
    case Record(d) => Type(0, Record(KeptName(d)))
    case Enum(_, d) => Type(0, Enum(KeptName(d), KeptName(d)))
    case Elaborated(q) => KeptSpelling(q)
    case Sugar(q) => KeptSpelling(q)
    case Decayed(o, a) => Type(0, Decayed(KeptQual(o), KeptQual(a)))
    case MemberPointer(k, p) => Type(0, MemberPointer(KeptType(k), KeptQual(p)))
  }

  function KeptSpelling(q: QualType): Type
    decreases q, 0
  {
    AsType(QualType(q.wrap, KeptType(q.ty)))
  }

  function KeptQual(q: QualType): QualType
    decreases q, 1
  {
    AsQual(KeptSpelling(q))
  }

  function KeptQuals(qs: seq<QualType>): seq<QualType>
    decreases qs, 0
  {
    if qs == [] then [] else [KeptQual(qs[0])] + KeptQuals(qs[1..])
  }

  // Parameters of a function type lose their qualifier.
  function KeptParams(qs: seq<QualType>): seq<QualType>
    decreases qs, 0
  {
    if qs == [] then [] else [KeptParam(qs[0])] + KeptParams(qs[1..])
  }

  function KeptParam(q: QualType): QualType
    decreases q, 0
  {
    QualType(Bare, KeptType(q.ty))
  }

  function KeptName(n: Name): Name
    decreases n, 0
  {
    Name(0, KeptScope(n.scope), KeptAtom(n.atom), n.special, if n.special then KeptTemplateArgs(n.targs) else [])
  }

  function KeptScope(s: Option<Name>): Option<Name>
    decreases s, 0
  {
    match s
    case None => None
    case Some(n) => Some(KeptName(n))
  }

  function KeptAtom(a: Atom): Atom
    decreases a, 0
  {
    match a
    case Nfunction(q, f, ps) => Nfunction(q, f, KeptQuals(ps))
    case Nid(_) | Nanon(_) => a
  }

  function KeptTemplateArg(a: TemplateArg): TemplateArg
    decreases a, 0
  {
    match a
    case Atype(q) => Atype(KeptQual(q))
    case Aint(v, q) => Aint(v, KeptQual(q))
    case Aparam(s) => Aparam(s)
  }

  function KeptTemplateArgs(args: seq<TemplateArg>): seq<TemplateArg>
    decreases args, 0
  {
    if args == [] then [] else [KeptTemplateArg(args[0])] + KeptTemplateArgs(args[1..])
  }

  // A local variable is known by its identifier, any other declaration by its name.
  function KeptExpr(e: Expr): Expr
    decreases e, 0
  {
    match e
    case DeclRef(true, _, s, ty) => DeclRef(true, NO_NAME, s, KeptQual(ty))
    case DeclRef(false, d, _, ty) => DeclRef(false, KeptName(d), "", KeptQual(ty))
    case Unary(op, x, ty) => Unary(op, KeptExpr(x), KeptQual(ty))
    case Binary(op, x, y, ty) => Binary(op, KeptExpr(x), KeptExpr(y), KeptQual(ty))
    case Call(f, args, ty) => Call(KeptExpr(f), KeptExprs(args), KeptQual(ty))
    case MemberCall(m, f, args, ty) => MemberCall(KeptName(m), KeptExpr(f), KeptExprs(args), KeptQual(ty))
    case Construct(k, args, ty) => Construct(KeptName(k), KeptExprs(args), KeptQual(ty))
    case Cast(k, x, ty) => Cast(k, KeptExpr(x), KeptQual(ty))
    case OtherExpr(h, xs, ns, ty) => OtherExpr(h, KeptExprs(xs), KeptNames(ns), KeptQual(ty))
  }

  function KeptExprs(es: seq<Expr>): seq<Expr>
    decreases es, 0
  {
    if es == [] then [] else [KeptExpr(es[0])] + KeptExprs(es[1..])
  }

  function KeptNames(ns: seq<Name>): seq<Name>
    decreases ns, 0
  {
    if ns == [] then [] else [KeptName(ns[0])] + KeptNames(ns[1..])
  }

  function KeptOptExpr(e: Option<Expr>): Option<Expr> {
    match e
    case None => None
    case Some(x) => Some(KeptExpr(x))
  }

  function KeptVar(v: Option<LocalVar>): Option<LocalVar> {
    match v
    case None => None
    case Some(LocalVar(s, ty, i)) => Some(LocalVar(s, KeptQual(ty), KeptOptExpr(i)))
  }

  // Left out: the condition variable of a `for`, the initialization of an `if`, the negation of
  // `consteval`, and whether a missing branch is an empty one.
  function KeptStmt(s: Stmt): Stmt
    decreases s, 0
  {
    match s
    case ExprStmt(e) => ExprStmt(KeptExpr(e))
    case Break | Continue | Null => s
    case Compound(ss) => Compound(KeptStmts(ss))
    case Return(e) => Return(KeptOptExpr(e))
    case While(v, e, b) => While(KeptVar(v), KeptExpr(e), KeptStmt(b))
    case Do(b, e) => Do(KeptStmt(b), KeptExpr(e))
    case For(i, _, t, n, b) => For(KeptInit(i), None, KeptOptExpr(t), KeptOptExpr(n), KeptStmt(b))
    case If(_, v, e, x, y) => If(None, KeptVar(v), KeptExpr(e), KeptStmt(x), Some(KeptElse(y)))
    case IfConsteval(_, x, y) => IfConsteval(false, KeptStmt(x), Some(KeptElse(y)))
    case OtherStmt(h, es, ss) => OtherStmt(h, KeptExprs(es), KeptStmts(ss))
  }

  function KeptInit(s: Option<Stmt>): Option<Stmt>
    decreases s, 0
  {
    match s
    case None => None
    case Some(x) => Some(KeptStmt(x))
  }

  function KeptElse(s: Option<Stmt>): Stmt
    decreases s, 0
  {
    match s
    case None => Null
    case Some(x) => KeptStmt(x)
  }

  function KeptStmts(ss: seq<Stmt>): seq<Stmt>
    decreases ss, 0
  {
    if ss == [] then [] else [KeptStmt(ss[0])] + KeptStmts(ss[1..])
  }

  // A constructor prints no return type.
  function KeptDecl(d: Decl): Decl {
    match d
    case VarDecl(n, ty, i) => VarDecl(KeptName(n), KeptQual(ty), KeptOptExpr(i))
    case FunctionDecl(n, ps, r, b) => FunctionDecl(KeptName(n), KeptQuals(ps), KeptQual(r), KeptInit(b))
    case ConstructorDecl(n, ps, _, ins, b) =>
      ConstructorDecl(KeptName(n), KeptQuals(ps), QualType(Bare, NO_TYPE), KeptExprs(ins), KeptInit(b))
    case RecordDecl(n, fs) => RecordDecl(KeptName(n), KeptQuals(fs))
    case OtherDecl(h, n, ts) =>
      if h == "Dstruct" then RecordDecl(KeptName(n), KeptQuals(ts)) else OtherDecl(h, KeptName(n), KeptQuals(ts))
  }

  // ----- From terms to nodes -----

  function WordFrom(t: Term): string {
    if t.Ident? then t.name else ""
  }

  function StringFrom(t: Term): string {
    if t.Quote? then t.s else ""
  }

  function NatFrom(t: Term): nat {
    if t.Num? && t.scope == "" && t.v >= 0 then t.v else 0
  }

  function IntFrom(t: Term): int {
    if t.Num? && t.scope == "Z" then t.v else 0
  }

  function TypeFrom(t: Term): Type
    decreases t, 2
  {
    match t
    case Ident(s) => Type(0, Builtin(s))
    case Ctor(head, args, _) =>
      if |args| == 1 then Type(0, OneFrom(t))
      else if |args| == 2 then Type(0, TwoFrom(t))
      else if |args| == 5 && head == "Tfunction" && WordFrom(args[0].t) == "type" then
        Type(0, Function(QualFrom(args[3].t), ParamsFrom(args[4].t), WordFrom(args[1].t), WordFrom(args[2].t)))
      else NO_TYPE
    case _ => NO_TYPE
  }

  function OneFrom(t: Term): Shape
    requires t.Ctor? && |t.args| == 1
    decreases t, 1
  {
    var x := t.args[0].t;
    if t.head == "Qconst" then Sugar(QualType(Const, TypeFrom(x)))
    else if t.head == "Qvolatile" then Sugar(QualType(Volatile, TypeFrom(x)))
    else if t.head == "Qconst_volatile" then Sugar(QualType(ConstVolatile, TypeFrom(x)))
    else if t.head == "Tnamed" then Record(NameFrom(x))
    else if t.head == "Tenum" then Enum(NameFrom(x), NameFrom(x))
    else ReferringFrom(t)
  }

  function ReferringFrom(t: Term): Shape
    requires t.Ctor? && |t.args| == 1
    decreases t, 0
  {
    var q := QualFrom(t.args[0].t);
    if t.head == "Tptr" then Pointer(q)
    else if t.head == "Tref" then LReference(q)
    else if t.head == "Trv_ref" then RReference(q)
    else if t.head == "Tincomplete_array" then IncompleteArray(q)
    else Builtin("")
  }

  function TwoFrom(t: Term): Shape
    requires t.Ctor? && |t.args| == 2
    decreases t, 0
  {
    var x, y := t.args[0].t, t.args[1].t;
    if t.head == "Tarray" then ConstantArray(QualFrom(x), NatFrom(y))
    else if t.head == "Tvariable_array" then VariableArray(QualFrom(x), ExprFrom(y))
    else if t.head == "Tdecay_type" then Decayed(QualFrom(x), QualFrom(y))
    else if t.head == "Tmember_pointer" then MemberPointer(TypeFrom(x), QualFrom(y))
    else Builtin("")
  }

  function QualFrom(t: Term): QualType
    decreases t, 3
  {
    AsQual(TypeFrom(t))
  }

  function QualsFrom(t: Term): seq<QualType>
    decreases t, 0
  {
    match t
    case Seq(ts, _) => AllQualsFrom(ts)
    case _ => []
  }

  function AllQualsFrom(ts: seq<Term>): seq<QualType>
    decreases ts, 0
  {
    if ts == [] then [] else [QualFrom(ts[0])] + AllQualsFrom(ts[1..])
  }

  function ParamsFrom(t: Term): seq<QualType>
    decreases t, 0
  {
    match t
    case Seq(ts, _) => AllParamsFrom(ts)
    case _ => []
  }

  function AllParamsFrom(ts: seq<Term>): seq<QualType>
    decreases ts, 0
  {
    if ts == [] then [] else [QualType(Bare, TypeFrom(ts[0]))] + AllParamsFrom(ts[1..])
  }

  function NameFrom(t: Term): Name
    decreases t, 1
  {
    match t
    case Ctor(head, args, _) =>
      if |args| == 2 && head == "Ninst" then
        var n := ScopedFrom(args[0].t);
        Name(0, n.scope, n.atom, true, TemplateArgsFrom(args[1].t))
      else ScopedFrom(t)
    case _ => NO_NAME
  }

  function ScopedFrom(t: Term): Name
    decreases t, 0
  {
    match t
    case Ctor(head, args, _) =>
      if |args| == 1 && head == "Nglobal" then Name(0, None, AtomFrom(args[0].t), false, [])
      else if |args| == 2 && head == "Nscoped" then
        Name(0, Some(NameFrom(args[0].t)), AtomFrom(args[1].t), false, [])
      else NO_NAME
    case _ => NO_NAME
  }

  function AtomFrom(t: Term): Atom
    decreases t, 0
  {
    match t
    case Ctor(head, args, _) =>
      if |args| == 1 && head == "Nid" then Nid(StringFrom(args[0].t))
      else if |args| == 1 && head == "Nanon" then Nanon(NatFrom(args[0].t))
      else if |args| == 3 && head == "Nfunction" then
        Nfunction(WordFrom(args[0].t), WordFrom(args[1].t), QualsFrom(args[2].t))
      else Nid("")
    case _ => Nid("")
  }

  function TemplateArgFrom(t: Term): TemplateArg
    decreases t, 0
  {
    match t
    case Ctor(head, args, _) =>
      if |args| == 1 && head == "Atype" then TypeArgFrom(args[0].t)
      else if |args| == 1 && head == "Avalue" then ValueArgFrom(args[0].t)
      else Aparam("")
    case _ => Aparam("")
  }

  function TypeArgFrom(t: Term): TemplateArg
    decreases t, 4
  {
    match t
    case Ctor(head, args, _) =>
      if |args| == 1 && head == "Tparam" then Aparam(StringFrom(args[0].t)) else Atype(QualFrom(t))
    case _ => Atype(QualFrom(t))
  }

  function ValueArgFrom(t: Term): TemplateArg
    decreases t, 0
  {
    match t
    case Ctor(head, args, _) =>
      if |args| == 2 && head == "Eint" then Aint(IntFrom(args[0].t), QualFrom(args[1].t)) else Aparam("")
    case _ => Aparam("")
  }

  function TemplateArgsFrom(t: Term): seq<TemplateArg>
    decreases t, 0
  {
    match t
    case Seq(ts, _) => AllTemplateArgsFrom(ts)
    case _ => []
  }

  function AllTemplateArgsFrom(ts: seq<Term>): seq<TemplateArg>
    decreases ts, 0
  {
    if ts == [] then [] else [TemplateArgFrom(ts[0])] + AllTemplateArgsFrom(ts[1..])
  }

  // An expression that is not entered starts with a list.
  function ExprFrom(t: Term): Expr
    decreases t, 1
  {
    match t
    case Ctor(head, args, _) =>
      if |args| == 2 then ReferenceFrom(t)
      else if |args| == 3 then
        if args[0].t.Seq? then
          OtherExpr(head, ExprsFrom(args[0].t), NamesFrom(args[1].t), QualFrom(args[2].t))
        else OperatorFrom(t)
      else if |args| == 4 && head == "Ebinop" then
        Binary(WordFrom(args[0].t), ExprFrom(args[1].t), ExprFrom(args[2].t), QualFrom(args[3].t))
      else if |args| == 4 && head == "Emember_call" then
        MemberCall(NameFrom(args[0].t), ExprFrom(args[1].t), ExprsFrom(args[2].t), QualFrom(args[3].t))
      else NO_EXPR
    case _ => NO_EXPR
  }

  function ReferenceFrom(t: Term): Expr
    requires t.Ctor? && |t.args| == 2
    decreases t, 0
  {
    if t.head == "Evar" then DeclRef(true, NO_NAME, StringFrom(t.args[0].t), QualFrom(t.args[1].t))
    else if t.head == "Eglobal" then DeclRef(false, NameFrom(t.args[0].t), "", QualFrom(t.args[1].t))
    else NO_EXPR
  }

  function OperatorFrom(t: Term): Expr
    requires t.Ctor? && |t.args| == 3
    decreases t, 0
  {
    var x, y, ty := t.args[0].t, t.args[1].t, QualFrom(t.args[2].t);
    if t.head == "Eunop" then Unary(WordFrom(x), ExprFrom(y), ty)
    else if t.head == "Ecast" then Cast(WordFrom(x), ExprFrom(y), ty)
    else if t.head == "Ecall" then Call(ExprFrom(x), ExprsFrom(y), ty)
    else if t.head == "Econstructor" then Construct(NameFrom(x), ExprsFrom(y), ty)
    else NO_EXPR
  }

  function ExprsFrom(t: Term): seq<Expr>
    decreases t, 0
  {
    match t
    case Seq(ts, _) => AllExprsFrom(ts)
    case _ => []
  }

  function AllExprsFrom(ts: seq<Term>): seq<Expr>
    decreases ts, 0
  {
    if ts == [] then [] else [ExprFrom(ts[0])] + AllExprsFrom(ts[1..])
  }

  function NamesFrom(t: Term): seq<Name>
    decreases t, 0
  {
    match t
    case Seq(ts, _) => AllNamesFrom(ts)
    case _ => []
  }

  function AllNamesFrom(ts: seq<Term>): seq<Name>
    decreases ts, 0
  {
    if ts == [] then [] else [NameFrom(ts[0])] + AllNamesFrom(ts[1..])
  }

  // What is behind `Some`.
  function Inside(t: Term): Option<Term> {
    match t
    case Ctor(head, args, _) => if |args| == 1 && head == "Some" then Some(args[0].t) else None
    case _ => None
  }

  function OptExprFrom(t: Term): Option<Expr> {
    match Inside(t)
    case None => None
    case Some(x) => Some(ExprFrom(x))
  }

  function VarFrom(t: Term): Option<LocalVar> {
    match Inside(t)
    case Some(Ctor(head, args, _)) =>
      if |args| == 3 && head == "Dvar"
      then Some(LocalVar(StringFrom(args[0].t), QualFrom(args[1].t), OptExprFrom(args[2].t)))
      else None
    case _ => None
  }

  function StmtFrom(t: Term): Stmt
    decreases t, 1
  {
    match t
    case Ident(x) =>
      if x == "Sbreak" then Break
      else if x == "Scontinue" then Continue
      else if x == "Sreturn_void" then Return(None)
      else Null
    case Ctor(head, args, _) =>
      if |args| == 1 then SimpleFrom(t)
      else if |args| == 2 then
        if args[0].t.Seq? then OtherStmt(head, ExprsFrom(args[0].t), StmtsFrom(args[1].t)) else PairFrom(t)
      else if |args| == 3 && head == "Swhile" then
        While(VarFrom(args[0].t), ExprFrom(args[1].t), StmtFrom(args[2].t))
      else if |args| == 4 then LongFrom(t)
      else Null
    case _ => Null
  }

  function SimpleFrom(t: Term): Stmt
    requires t.Ctor? && |t.args| == 1
    decreases t, 0
  {
    if t.head == "Sexpr" then ExprStmt(ExprFrom(t.args[0].t))
    else if t.head == "Sreturn_val" then Return(Some(ExprFrom(t.args[0].t)))
    else if t.head == "Sseq" then Compound(StmtsFrom(t.args[0].t))
    else Null
  }

  function PairFrom(t: Term): Stmt
    requires t.Ctor? && |t.args| == 2
    decreases t, 0
  {
    if t.head == "Sdo" then Do(StmtFrom(t.args[0].t), ExprFrom(t.args[1].t))
    else if t.head == "Sif_consteval" then IfConsteval(false, StmtFrom(t.args[0].t), Some(StmtFrom(t.args[1].t)))
    else Null
  }

  function LongFrom(t: Term): Stmt
    requires t.Ctor? && |t.args| == 4
    decreases t, 0
  {
    if t.head == "Sfor" then
      For(InitFrom(t.args[0].t), None, OptExprFrom(t.args[1].t), OptExprFrom(t.args[2].t), StmtFrom(t.args[3].t))
    else if t.head == "Sif" then
      If(None, VarFrom(t.args[0].t), ExprFrom(t.args[1].t), StmtFrom(t.args[2].t), Some(StmtFrom(t.args[3].t)))
    else Null
  }

  function InitFrom(t: Term): Option<Stmt>
    decreases t, 0
  {
    match t
    case Ctor(head, args, _) => if |args| == 1 && head == "Some" then Some(StmtFrom(args[0].t)) else None
    case _ => None
  }

  function StmtsFrom(t: Term): seq<Stmt>
    decreases t, 0
  {
    match t
    case Seq(ts, _) => AllStmtsFrom(ts)
    case _ => []
  }

  function AllStmtsFrom(ts: seq<Term>): seq<Stmt>
    decreases ts, 0
  {
    if ts == [] then [] else [StmtFrom(ts[0])] + AllStmtsFrom(ts[1..])
  }

  function DeclFrom(t: Term): Decl {
    match t
    case Ctor(head, args, _) =>
      if |args| == 3 && head == "Dvariable" then
        VarDecl(NameFrom(args[0].t), QualFrom(args[1].t), OptExprFrom(args[2].t))
      else if |args| == 4 && head == "Dfunction" then
        FunctionDecl(NameFrom(args[0].t), QualsFrom(args[2].t), QualFrom(args[1].t), InitFrom(args[3].t))
      else if |args| == 4 && head == "Dconstructor" then
        ConstructorDecl(NameFrom(args[0].t), QualsFrom(args[1].t), QualType(Bare, NO_TYPE), ExprsFrom(args[2].t),
                        InitFrom(args[3].t))
      else if |args| == 2 && head == "Dstruct" then RecordDecl(NameFrom(args[0].t), QualsFrom(args[1].t))
      else if |args| == 2 then OtherDecl(head, NameFrom(args[0].t), QualsFrom(args[1].t))
      else OtherDecl("", NO_NAME, [])
    case _ => OtherDecl("", NO_NAME, [])
  }

  // ----- Reading inverts printing -----

  lemma One(head: string, x: Term, line: bool) returns (args: seq<Arg>)
    ensures Erase(App(head, [x], line)) == Ctor(head, args, true)
    ensures |args| == 1 && args[0].t == Erase(x)
  {
    args := EraseArgs(Wrapped([x]));
    assert [x] == [x] + [];
    Cons(x, []);
  }

  lemma Cons(x: Term, xs: seq<Term>)
    ensures EraseArgs(Wrapped([x] + xs)) == [Arg(true, Erase(x))] + EraseArgs(Wrapped(xs))
  {
    assert ([x] + xs)[1..] == xs && Wrapped([x] + xs)[1..] == Wrapped(xs);
  }

  lemma Two(head: string, x: Term, y: Term, line: bool) returns (args: seq<Arg>)
    ensures Erase(App(head, [x, y], line)) == Ctor(head, args, true)
    ensures |args| == 2 && args[0].t == Erase(x) && args[1].t == Erase(y)
  {
    var rest := One(head, y, line);
    assert [x, y] == [x] + [y];
    Cons(x, [y]);
    args := EraseArgs(Wrapped([x, y]));
  }

  lemma Three(head: string, x: Term, y: Term, z: Term, line: bool) returns (args: seq<Arg>)
    ensures Erase(App(head, [x, y, z], line)) == Ctor(head, args, true)
    ensures |args| == 3 && args[0].t == Erase(x) && args[1].t == Erase(y) && args[2].t == Erase(z)
  {
    var rest := Two(head, y, z, line);
    assert [x, y, z] == [x] + [y, z];
    Cons(x, [y, z]);
    args := EraseArgs(Wrapped([x, y, z]));
  }

  lemma Four(head: string, x: Term, y: Term, z: Term, w: Term, line: bool) returns (args: seq<Arg>)
    ensures Erase(App(head, [x, y, z, w], line)) == Ctor(head, args, true)
    ensures |args| == 4 && args[0].t == Erase(x) && args[1].t == Erase(y) && args[2].t == Erase(z)
    ensures args[3].t == Erase(w)
  {
    var rest := Three(head, y, z, w, line);
    assert [x, y, z, w] == [x] + [y, z, w];
    Cons(x, [y, z, w]);
    args := EraseArgs(Wrapped([x, y, z, w]));
  }

  lemma Five(head: string, x: Term, y: Term, z: Term, w: Term, v: Term, line: bool) returns (args: seq<Arg>)
    ensures Erase(App(head, [x, y, z, w, v], line)) == Ctor(head, args, true)
    ensures |args| == 5 && args[0].t == Erase(x) && args[1].t == Erase(y) && args[2].t == Erase(z)
    ensures args[3].t == Erase(w) && args[4].t == Erase(v)
  {
    var rest := Four(head, y, z, w, v, line);
    assert [x, y, z, w, v] == [x] + [y, z, w, v];
    Cons(x, [y, z, w, v]);
    args := EraseArgs(Wrapped([x, y, z, w, v]));
  }

  // Nothing is cached.
  lemma NoReference(t: Type, n: Name)
    ensures Plain(t) == PrintShape(NOTHING, t) && PlainName(n) == PrintFullName(NOTHING, n)
  {
    assert NOTHING.types == map[] && NOTHING.names == map[];
    assert t !in NOTHING.types && n !in NOTHING.names;
  }

  lemma Differ(a: string, b: string, i: nat)
    requires i < |a| && i < |b| && a[i] != b[i]
    ensures a != b
  {
  }

  // Heads of one length differ.
  lemma HeadsDiffer()
    ensures "Tnamed" != "Qconst" && "Tref" != "Tptr" && "Tnamed" != "Tparam" && "Tarray" != "Tparam"
    ensures "Qconst" != "Tparam" && "Tvariable_array" != "Qconst_volatile" && "Tmember_pointer" != "Tvariable_array"
    ensures "Ecall" != "Ecast" && "Ecall" != "Eunop" && "Ecast" != "Eunop"
  {
    Differ("Tnamed", "Qconst", 0);
    Differ("Tref", "Tptr", 1);
    Differ("Tnamed", "Tparam", 1);
    Differ("Tarray", "Tparam", 1);
    Differ("Qconst", "Tparam", 0);
    Differ("Tvariable_array", "Qconst_volatile", 0);
    Differ("Tmember_pointer", "Tvariable_array", 1);
    Differ("Ecall", "Ecast", 3);
    Differ("Ecall", "Eunop", 1);
    Differ("Ecast", "Eunop", 1);
  }

  lemma {:induction false} TypeReads(t: Type)
    ensures TypeFrom(Erase(Plain(t))) == KeptType(t)
    decreases t, 1
  {
    NoReference(t, NO_NAME);
    HeadsDiffer();
    var c := NOTHING;
    match t.shape
    case Builtin(_) =>
    case Pointer(_) | LReference(_) | RReference(_) | IncompleteArray(_) => ReferringReads(t);
    case ConstantArray(_, _) | VariableArray(_, _) => ArrayReads(t);
    case Decayed(_, _) => DecayedReads(t);
    case MemberPointer(_, _) => MemberPointerReads(t);
    case Function(_, _, _, _) => FunctionReads(t);
    case Record(d) =>
      NameReads(d);
      var args := One("Tnamed", PrintName(c, d), false);
    case Enum(_, d) =>
      NameReads(d);
      var args := One("Tenum", PrintName(c, d), false);
    case Elaborated(q) => SpellingReads(q);
    case Sugar(q) => SpellingReads(q);
  }

  lemma {:induction false} ReferringReads(t: Type)
    requires t.shape.Pointer? || t.shape.LReference? || t.shape.RReference? || t.shape.IncompleteArray?
    ensures TypeFrom(Erase(Plain(t))) == KeptType(t)
    decreases t, 0
  {
    NoReference(t, NO_NAME);
    HeadsDiffer();
    var c := NOTHING;
    match t.shape
    case Pointer(p) =>
      QualReads(p);
      var args := One("Tptr", PrintQual(c, p), false);
      Referring("Tptr", args);
    case LReference(p) =>
      QualReads(p);
      var args := One("Tref", PrintQual(c, p), false);
      Referring("Tref", args);
    case RReference(p) =>
      QualReads(p);
      var args := One("Trv_ref", PrintQual(c, p), false);
      Referring("Trv_ref", args);
    case IncompleteArray(p) =>
      QualReads(p);
      var args := One("Tincomplete_array", PrintQual(c, p), false);
      Referring("Tincomplete_array", args);
  }

  lemma Referring(head: string, args: seq<Arg>)
    requires |args| == 1 && head in ["Tptr", "Tref", "Trv_ref", "Tincomplete_array"]
    ensures var q := QualFrom(args[0].t);
            TypeFrom(Ctor(head, args, true)) == Type(0, if head == "Tptr" then Pointer(q)
                                                        else if head == "Tref" then LReference(q)
                                                        else if head == "Trv_ref" then RReference(q)
                                                        else IncompleteArray(q))
  {
    var x := Ctor(head, args, true);
    assert TypeFrom(x) == Type(0, OneFrom(x));
    assert OneFrom(x) == ReferringFrom(x);
  }

  lemma {:induction false} ArrayReads(t: Type)
    requires t.shape.ConstantArray? || t.shape.VariableArray?
    ensures TypeFrom(Erase(Plain(t))) == KeptType(t)
    decreases t, 0
  {
    NoReference(t, NO_NAME);
    HeadsDiffer();
    var c := NOTHING;
    match t.shape
    case ConstantArray(e, n) =>
      QualReads(e);
      var args := Two("Tarray", PrintQual(c, e), Num(n, ""), false);
    case VariableArray(e, n) =>
      QualReads(e);
      ExprReads(n);
      var args := Two("Tvariable_array", PrintQual(c, e), PrintExpr(c, n), false);
  }

  lemma {:induction false} DecayedReads(t: Type)
    requires t.shape.Decayed?
    ensures TypeFrom(Erase(Plain(t))) == KeptType(t)
    decreases t, 0
  {
    NoReference(t, NO_NAME);
    HeadsDiffer();
    var c := NOTHING;
    var Decayed(o, a) := t.shape;
    QualReads(o);
    QualReads(a);
    var args := Two("Tdecay_type", PrintQual(c, o), PrintQual(c, a), false);
    assert TypeFrom(Ctor("Tdecay_type", args, true)) == Type(0, TwoFrom(Ctor("Tdecay_type", args, true)));
  }

  lemma {:induction false} MemberPointerReads(t: Type)
    requires t.shape.MemberPointer?
    ensures TypeFrom(Erase(Plain(t))) == KeptType(t)
    decreases t, 0
  {
    NoReference(t, NO_NAME);
    HeadsDiffer();
    var c := NOTHING;
    var MemberPointer(k, p) := t.shape;
    TypeReads(k);
    QualReads(p);
    var args := Two("Tmember_pointer", PrintType(c, k), PrintQual(c, p), false);
    assert TypeFrom(Ctor("Tmember_pointer", args, true)) == Type(0, TwoFrom(Ctor("Tmember_pointer", args, true)));
  }

  lemma {:induction false} FunctionReads(t: Type)
    requires t.shape.Function?
    ensures TypeFrom(Erase(Plain(t))) == KeptType(t)
    decreases t, 0
  {
    NoReference(t, NO_NAME);
    var c := NOTHING;
    var Function(r, ps, cc, v) := t.shape;
    QualReads(r);
    ParamsRead(ps);
    var args := Five("Tfunction", Ident("type"), Ident(cc), Ident(v), PrintQual(c, r), Seq(PrintUnquals(c, ps), true),
                     true);
  }

  lemma {:induction false} SpellingReads(q: QualType)
    ensures TypeFrom(Erase(PrintQual(NOTHING, q))) == KeptSpelling(q)
    decreases q, 0
  {
    TypeReads(q.ty);
    match q.wrap
    case Bare =>
    case Const => var args := One("Qconst", Plain(q.ty), false);
    case Volatile => var args := One("Qvolatile", Plain(q.ty), false);
    case ConstVolatile => var args := One("Qconst_volatile", Plain(q.ty), false);
  }

  lemma {:induction false} QualReads(q: QualType)
    ensures QualFrom(Erase(PrintQual(NOTHING, q))) == KeptQual(q)
    decreases q, 1
  {
    SpellingReads(q);
  }

  lemma {:induction false} QualsRead(qs: seq<QualType>)
    ensures AllQualsFrom(EraseAll(PrintQuals(NOTHING, qs))) == KeptQuals(qs)
    decreases qs, 0
  {
    if qs != [] {
      QualReads(qs[0]);
      QualsRead(qs[1..]);
      assert PrintQuals(NOTHING, qs)[1..] == PrintQuals(NOTHING, qs[1..]);
    }
  }

  lemma {:induction false} ParamsRead(qs: seq<QualType>)
    ensures AllParamsFrom(EraseAll(PrintUnquals(NOTHING, qs))) == KeptParams(qs)
    decreases qs, 0
  {
    if qs != [] {
      ParamReads(qs[0]);
      ParamsRead(qs[1..]);
      assert PrintUnquals(NOTHING, qs)[1..] == PrintUnquals(NOTHING, qs[1..]);
    }
  }

  lemma {:induction false} ParamReads(q: QualType)
    ensures TypeFrom(Erase(PrintUnqual(NOTHING, q))) == KeptType(q.ty)
    decreases q, 0
  {
    TypeReads(q.ty);
  }

  lemma {:induction false} NameReads(n: Name)
    ensures NameFrom(Erase(PlainName(n))) == KeptName(n)
    decreases n, 1
  {
    NoReference(NO_TYPE, n);
    ScopedReads(n);
    if n.special {
      TemplateArgsRead(n.targs);
      var args := Two("Ninst", PrintScoped(NOTHING, n), Seq(PrintTemplateArgs(NOTHING, n.targs), true), false);
    }
  }

  lemma {:induction false} ScopedReads(n: Name)
    ensures ScopedFrom(Erase(PrintScoped(NOTHING, n))) == Name(0, KeptScope(n.scope), KeptAtom(n.atom), false, [])
    ensures NameFrom(Erase(PrintScoped(NOTHING, n))) == ScopedFrom(Erase(PrintScoped(NOTHING, n)))
    decreases n, 0
  {
    var c := NOTHING;
    AtomReads(n.atom);
    match n.scope
    case None => var args := One("Nglobal", PrintAtom(c, n.atom), false);
    case Some(s) =>
      NameReads(s);
      var args := Two("Nscoped", PrintName(c, s), PrintAtom(c, n.atom), false);
  }

  lemma {:induction false} AtomReads(a: Atom)
    ensures AtomFrom(Erase(PrintAtom(NOTHING, a))) == KeptAtom(a)
    decreases a, 0
  {
    match a
    case Nid(s) => var args := One("Nid", Quote(s), false);
    case Nanon(i) => var args := One("Nanon", Num(i, ""), false);
    case Nfunction(q, f, ps) =>
      QualsRead(ps);
      var args := Three("Nfunction", Ident(q), Ident(f), Seq(PrintQuals(NOTHING, ps), true), false);
  }

  // No type is printed as a template parameter is.
  lemma {:induction false} NotAParameter(t: Type)
    ensures var x := Erase(Plain(t)); x.Ident? || (x.Ctor? && x.head != "Tparam")
    decreases t
  {
    NoReference(t, NO_NAME);
    HeadsDiffer();
    match t.shape
    case Elaborated(q) => QualIsNotAParameter(q);
    case Sugar(q) => QualIsNotAParameter(q);
    case _ =>
  }

  lemma {:induction false} QualIsNotAParameter(q: QualType)
    ensures var x := Erase(PrintQual(NOTHING, q)); x.Ident? || (x.Ctor? && x.head != "Tparam")
    decreases q
  {
    HeadsDiffer();
    NotAParameter(q.ty);
  }

  lemma {:induction false} TemplateArgReads(a: TemplateArg)
    ensures TemplateArgFrom(Erase(PrintTemplateArg(NOTHING, a))) == KeptTemplateArg(a)
    decreases a, 0
  {
    var c := NOTHING;
    match a
    case Atype(q) =>
      QualReads(q);
      QualIsNotAParameter(q);
      var args := One("Atype", PrintQual(c, q), false);
    case Aint(v, q) =>
      QualReads(q);
      var inner := Two("Eint", Num(v, "Z"), PrintQual(c, q), false);
      var args := One("Avalue", App("Eint", [Num(v, "Z"), PrintQual(c, q)], false), false);
    case Aparam(s) =>
      var inner := One("Tparam", Quote(s), false);
      var args := One("Atype", App("Tparam", [Quote(s)], false), false);
  }

  lemma {:induction false} TemplateArgsRead(args: seq<TemplateArg>)
    ensures AllTemplateArgsFrom(EraseAll(PrintTemplateArgs(NOTHING, args))) == KeptTemplateArgs(args)
    decreases args, 0
  {
    if args != [] {
      TemplateArgReads(args[0]);
      TemplateArgsRead(args[1..]);
      assert PrintTemplateArgs(NOTHING, args)[1..] == PrintTemplateArgs(NOTHING, args[1..]);
    }
  }

  lemma {:induction false} ExprReads(e: Expr)
    ensures ExprFrom(Erase(PrintExpr(NOTHING, e))) == KeptExpr(e)
    decreases e, 1
  {
    match e
    case DeclRef(_, _, _, _) => ReferenceReads(e);
    case Unary(_, _, _) | Cast(_, _, _) => OperatorReads(e);
    case Call(_, _, _) => CallReads(e);
    case Construct(_, _, _) => ConstructReads(e);
    case Binary(_, _, _, _) => BinaryReads(e);
    case MemberCall(_, _, _, _) => MemberCallReads(e);
    case OtherExpr(_, _, _, _) => OtherReads(e);
  }

  lemma {:induction false} ReferenceReads(e: Expr)
    requires e.DeclRef?
    ensures ExprFrom(Erase(PrintExpr(NOTHING, e))) == KeptExpr(e)
    decreases e, 0
  {
    var c := NOTHING;
    var DeclRef(local, d, s, q) := e;
    QualReads(q);
    if local {
      var args := Two("Evar", Quote(s), PrintQual(c, q), false);
    } else {
      NameReads(d);
      var args := Two("Eglobal", PrintName(c, d), PrintQual(c, q), false);
    }
  }

  lemma {:induction false} OperatorReads(e: Expr)
    requires e.Unary? || e.Cast?
    ensures ExprFrom(Erase(PrintExpr(NOTHING, e))) == KeptExpr(e)
    decreases e, 0
  {
    var c := NOTHING;
    QualReads(e.ty);
    ExprReads(e.sub);
    match e
    case Unary(op, x, q) => var args := Three("Eunop", Ident(op), PrintExpr(c, x), PrintQual(c, q), true);
    case Cast(k, x, q) => var args := Three("Ecast", Ident(k), PrintExpr(c, x), PrintQual(c, q), true);
  }

  lemma {:induction false} BinaryReads(e: Expr)
    requires e.Binary?
    ensures ExprFrom(Erase(PrintExpr(NOTHING, e))) == KeptExpr(e)
    decreases e, 0
  {
    var c := NOTHING;
    var Binary(op, x, y, q) := e;
    QualReads(q);
    ExprReads(x);
    ExprReads(y);
    var args := Four("Ebinop", Ident(op), PrintExpr(c, x), PrintExpr(c, y), PrintQual(c, q), true);
  }

  // Neither a name nor an expression is printed as a list.
  lemma NotAList(n: Name, e: Expr)
    ensures Erase(PlainName(n)).Ctor? && Erase(PrintExpr(NOTHING, e)).Ctor?
  {
    NoReference(NO_TYPE, n);
  }

  lemma {:induction false} CallReads(e: Expr)
    requires e.Call?
    ensures ExprFrom(Erase(PrintExpr(NOTHING, e))) == KeptExpr(e)
    decreases e, 0
  {
    var c := NOTHING;
    var Call(f, args, q) := e;
    HeadsDiffer();
    QualReads(q);
    ExprsRead(args);
    ExprReads(f);
    NotAList(NO_NAME, f);
    var xs := Three("Ecall", PrintExpr(c, f), Seq(PrintExprs(c, args), true), PrintQual(c, q), true);
    var x := Ctor("Ecall", xs, true);
    assert ExprFrom(x) == OperatorFrom(x);
    assert ExprsFrom(xs[1].t) == KeptExprs(args);
  }

  lemma {:induction false} ConstructReads(e: Expr)
    requires e.Construct?
    ensures ExprFrom(Erase(PrintExpr(NOTHING, e))) == KeptExpr(e)
    decreases e, 0
  {
    var c := NOTHING;
    var Construct(k, args, q) := e;
    QualReads(q);
    ExprsRead(args);
    NameReads(k);
    NotAList(k, NO_EXPR);
    var xs := Three("Econstructor", PrintName(c, k), Seq(PrintExprs(c, args), true), PrintQual(c, q), true);
    var x := Ctor("Econstructor", xs, true);
    assert ExprFrom(x) == OperatorFrom(x);
    assert ExprsFrom(xs[1].t) == KeptExprs(args);
  }

  lemma {:induction false} MemberCallReads(e: Expr)
    requires e.MemberCall?
    ensures ExprFrom(Erase(PrintExpr(NOTHING, e))) == KeptExpr(e)
    decreases e, 0
  {
    var c := NOTHING;
    var MemberCall(m, f, args, q) := e;
    QualReads(q);
    NameReads(m);
    ExprReads(f);
    ExprsRead(args);
    var xs := Four("Emember_call", PrintName(c, m), PrintExpr(c, f), Seq(PrintExprs(c, args), true), PrintQual(c, q),
                   true);
  }

  lemma {:induction false} OtherReads(e: Expr)
    requires e.OtherExpr?
    ensures ExprFrom(Erase(PrintExpr(NOTHING, e))) == KeptExpr(e)
    decreases e, 0
  {
    var c := NOTHING;
    var OtherExpr(h, es, ns, q) := e;
    QualReads(q);
    ExprsRead(es);
    NamesRead(ns);
    var args := Three(h, Seq(PrintExprs(c, es), true), Seq(PrintNames(c, ns), true), PrintQual(c, q), true);
    assert ExprsFrom(args[0].t) == KeptExprs(es) && NamesFrom(args[1].t) == KeptNames(ns);
  }

  lemma {:induction false} ExprsRead(es: seq<Expr>)
    ensures AllExprsFrom(EraseAll(PrintExprs(NOTHING, es))) == KeptExprs(es)
    decreases es, 0
  {
    if es != [] {
      ExprReads(es[0]);
      ExprsRead(es[1..]);
      assert PrintExprs(NOTHING, es)[1..] == PrintExprs(NOTHING, es[1..]);
    }
  }

  lemma {:induction false} NamesRead(ns: seq<Name>)
    ensures AllNamesFrom(EraseAll(PrintNames(NOTHING, ns))) == KeptNames(ns)
    decreases ns, 0
  {
    if ns != [] {
      NameReads(ns[0]);
      NamesRead(ns[1..]);
      assert PrintNames(NOTHING, ns)[1..] == PrintNames(NOTHING, ns[1..]);
    }
  }

  lemma OptExprReads(e: Option<Expr>)
    ensures OptExprFrom(Erase(PrintOptExpr(NOTHING, e))) == KeptOptExpr(e)
  {
    if e.Some? {
      ExprReads(e.value);
      var args := One("Some", PrintExpr(NOTHING, e.value), true);
    }
  }

  lemma VarReads(v: Option<LocalVar>)
    ensures VarFrom(Erase(PrintOptVar(NOTHING, v))) == KeptVar(v)
  {
    if v.Some? {
      var c := NOTHING;
      var LocalVar(s, ty, i) := v.value;
      QualReads(ty);
      OptExprReads(i);
      var inner := Three("Dvar", Quote(s), PrintQual(c, ty), PrintOptExpr(c, i), true);
      var args := One("Some", App("Dvar", [Quote(s), PrintQual(c, ty), PrintOptExpr(c, i)], true), true);
    }
  }

  lemma {:induction false} StmtReads(s: Stmt)
    ensures StmtFrom(Erase(PrintStmt(NOTHING, s))) == KeptStmt(s)
    decreases s, 1
  {
    match s
    case Break | Continue | Null =>
    case ExprStmt(_) | Return(_) => SimpleReads(s);
    case Compound(ss) =>
      StmtsRead(ss);
      BlockReads(ss);
    case While(_, _, _) => WhileReads(s);
    case Do(_, _) | IfConsteval(_, _, _) => TwoPartsRead(s);
    case For(_, _, _, _, _) => ForReads(s);
    case If(_, _, _, _, _) => IfReads(s);
    case OtherStmt(h, es, ss) =>
      StmtsRead(ss);
      OtherStmtReads(h, es, ss);
  }

  lemma {:induction false} SimpleReads(s: Stmt)
    requires s.ExprStmt? || s.Return?
    ensures StmtFrom(Erase(PrintStmt(NOTHING, s))) == KeptStmt(s)
    decreases s, 0
  {
    var c := NOTHING;
    match s
    case ExprStmt(e) =>
      ExprReads(e);
      var args := One("Sexpr", PrintExpr(c, e), true);
    case Return(e) =>
      if e.Some? {
        ExprReads(e.value);
        var args := One("Sreturn_val", PrintExpr(c, e.value), true);
      }
  }

  lemma BlockReads(ss: seq<Stmt>)
    requires AllStmtsFrom(EraseAll(PrintStmts(NOTHING, ss))) == KeptStmts(ss)
    ensures StmtFrom(Erase(PrintStmt(NOTHING, Compound(ss)))) == KeptStmt(Compound(ss))
  {
    var args := One("Sseq", Seq(PrintStmts(NOTHING, ss), false), true);
    assert StmtsFrom(args[0].t) == KeptStmts(ss);
  }

  lemma OtherStmtReads(head: string, es: seq<Expr>, ss: seq<Stmt>)
    requires AllStmtsFrom(EraseAll(PrintStmts(NOTHING, ss))) == KeptStmts(ss)
    ensures StmtFrom(Erase(PrintStmt(NOTHING, OtherStmt(head, es, ss)))) == KeptStmt(OtherStmt(head, es, ss))
  {
    ExprsRead(es);
    var args := Two(head, Seq(PrintExprs(NOTHING, es), true), Seq(PrintStmts(NOTHING, ss), true), true);
    assert ExprsFrom(args[0].t) == KeptExprs(es) && StmtsFrom(args[1].t) == KeptStmts(ss);
  }

  lemma {:induction false} WhileReads(s: Stmt)
    requires s.While?
    ensures StmtFrom(Erase(PrintStmt(NOTHING, s))) == KeptStmt(s)
    decreases s, 0
  {
    var c := NOTHING;
    var While(v, e, b) := s;
    VarReads(v);
    ExprReads(e);
    StmtReads(b);
    var args := Three("Swhile", PrintOptVar(c, v), PrintExpr(c, e), PrintStmt(c, b), true);
  }

  // A statement is not printed as a list.
  lemma StmtIsNotAList(s: Stmt)
    ensures !Erase(PrintStmt(NOTHING, s)).Seq?
  {
  }

  lemma {:induction false} TwoPartsRead(s: Stmt)
    requires s.Do? || s.IfConsteval?
    ensures StmtFrom(Erase(PrintStmt(NOTHING, s))) == KeptStmt(s)
    decreases s, 0
  {
    var c := NOTHING;
    match s
    case Do(b, e) =>
      StmtReads(b);
      StmtIsNotAList(b);
      ExprReads(e);
      var args := Two("Sdo", PrintStmt(c, b), PrintExpr(c, e), true);
    case IfConsteval(_, x, y) =>
      StmtReads(x);
      StmtIsNotAList(x);
      ElseReads(y);
      var args := Two("Sif_consteval", PrintStmt(c, x), PrintOptStmt(c, y, "Sskip"), true);
  }

  lemma {:induction false} ForReads(s: Stmt)
    requires s.For?
    ensures StmtFrom(Erase(PrintStmt(NOTHING, s))) == KeptStmt(s)
    decreases s, 0
  {
    var c := NOTHING;
    var For(i, _, t, n, b) := s;
    InitReads(i);
    OptExprReads(t);
    OptExprReads(n);
    StmtReads(b);
    var args := Four("Sfor", PrintInit(c, i), PrintOptExpr(c, t), PrintOptExpr(c, n), PrintStmt(c, b), true);
    assert StmtFrom(Ctor("Sfor", args, true)) == LongFrom(Ctor("Sfor", args, true));
  }

  lemma {:induction false} IfReads(s: Stmt)
    requires s.If?
    ensures StmtFrom(Erase(PrintStmt(NOTHING, s))) == KeptStmt(s)
    decreases s, 0
  {
    var c := NOTHING;
    var If(_, v, e, x, y) := s;
    VarReads(v);
    ExprReads(e);
    StmtReads(x);
    ElseReads(y);
    var args := Four("Sif", PrintOptVar(c, v), PrintExpr(c, e), PrintStmt(c, x), PrintOptStmt(c, y, "Sskip"), true);
    assert StmtFrom(Ctor("Sif", args, true)) == LongFrom(Ctor("Sif", args, true));
  }

  lemma {:induction false} InitReads(s: Option<Stmt>)
    ensures InitFrom(Erase(PrintInit(NOTHING, s))) == KeptInit(s)
    decreases s, 0
  {
    if s.Some? {
      StmtReads(s.value);
      var args := One("Some", PrintStmt(NOTHING, s.value), true);
    }
  }

  lemma {:induction false} ElseReads(s: Option<Stmt>)
    ensures StmtFrom(Erase(PrintOptStmt(NOTHING, s, "Sskip"))) == KeptElse(s)
    decreases s, 0
  {
    if s.Some? {
      StmtReads(s.value);
    }
  }

  lemma {:induction false} StmtsRead(ss: seq<Stmt>)
    ensures AllStmtsFrom(EraseAll(PrintStmts(NOTHING, ss))) == KeptStmts(ss)
    decreases ss, 0
  {
    if ss != [] {
      StmtReads(ss[0]);
      StmtsRead(ss[1..]);
      assert PrintStmts(NOTHING, ss)[1..] == PrintStmts(NOTHING, ss[1..]);
    }
  }

  lemma BodyReads(b: Option<Stmt>)
    ensures InitFrom(Erase(PrintBody(NOTHING, b))) == KeptInit(b)
  {
    if b.Some? {
      StmtReads(b.value);
      var args := One("Some", PrintStmt(NOTHING, b.value), true);
    }
  }

  lemma DeclReads(d: Decl)
    ensures DeclFrom(Erase(PlainDecl(d))) == KeptDecl(d)
  {
    NameReads(d.name);
    match d
    case VarDecl(_, _, _) => VarDeclReads(d);
    case FunctionDecl(_, _, _, _) => FunctionDeclReads(d);
    case ConstructorDecl(_, _, _, _, _) => ConstructorDeclReads(d);
    case RecordDecl(_, _) => FieldsRead(d);
    case OtherDecl(_, _, _) => FieldsRead(d);
  }

  lemma FieldsRead(d: Decl)
    requires (d.RecordDecl? || d.OtherDecl?) && NameFrom(Erase(PlainName(d.name))) == KeptName(d.name)
    ensures DeclFrom(Erase(PlainDecl(d))) == KeptDecl(d)
  {
    var qs := if d.RecordDecl? then d.fields else d.tys;
    QualsRead(qs);
    var head := if d.RecordDecl? then "Dstruct" else d.head;
    var args := Two(head, PlainName(d.name), Seq(PrintQuals(NOTHING, qs), true), true);
    assert QualsFrom(args[1].t) == KeptQuals(qs);
  }

  lemma VarDeclReads(d: Decl)
    requires d.VarDecl? && NameFrom(Erase(PlainName(d.name))) == KeptName(d.name)
    ensures DeclFrom(Erase(PlainDecl(d))) == KeptDecl(d)
  {
    var c := NOTHING;
    var VarDecl(n, ty, i) := d;
    QualReads(ty);
    OptExprReads(i);
    var args := Three("Dvariable", PlainName(n), PrintQual(c, ty), PrintOptExpr(c, i), true);
  }

  lemma FunctionDeclReads(d: Decl)
    requires d.FunctionDecl? && NameFrom(Erase(PlainName(d.name))) == KeptName(d.name)
    ensures DeclFrom(Erase(PlainDecl(d))) == KeptDecl(d)
  {
    var c := NOTHING;
    var FunctionDecl(n, ps, r, b) := d;
    QualsRead(ps);
    QualReads(r);
    BodyReads(b);
    var args := Four("Dfunction", PlainName(n), PrintQual(c, r), Seq(PrintQuals(c, ps), true), PrintBody(c, b), true);
  }

  lemma ConstructorDeclReads(d: Decl)
    requires d.ConstructorDecl? && NameFrom(Erase(PlainName(d.name))) == KeptName(d.name)
    ensures DeclFrom(Erase(PlainDecl(d))) == KeptDecl(d)
  {
    var c := NOTHING;
    var ConstructorDecl(n, ps, _, ins, b) := d;
    QualsRead(ps);
    ExprsRead(ins);
    BodyReads(b);
    var args := Four("Dconstructor", PlainName(n), Seq(PrintQuals(c, ps), true), Seq(PrintExprs(c, ins), true),
                     PrintBody(c, b), true);
    assert QualsFrom(args[1].t) == KeptQuals(ps) && ExprsFrom(args[2].t) == KeptExprs(ins);
  }
}
