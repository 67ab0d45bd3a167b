/**
 * What the sharing pass defines: exactly the types of the shared kinds, and the names, that occur in
 * what it enters. Where they occur is told by the nodes alone.
 */
module Occurrences {
  import opened PrePrinting
  import opened Printing
  import opened Sharing
  import opened SharingMeaning
  import opened Wrappers

  // ----- Where types and names occur -----

  // Pointers, references, arrays of constant or unknown size, functions, records and enumerations.
  predicate IsShared(t: Type) {
    || t.shape.Pointer? || t.shape.LReference? || t.shape.RReference?
    || t.shape.ConstantArray? || t.shape.IncompleteArray? || t.shape.Function?
    || t.shape.Record? || t.shape.Enum?
  }

  function Itself(t: Type): set<Source> {
    if IsShared(t) then {OfType(t)} else {}
  }

  function InType(t: Type): set<Source>
    decreases t, 1
  {
    Itself(t) + Below(t)
  }

  // What occurs in a type besides itself. Member pointers, and sugar other than elaborated types, are
  // not entered; of an array of variable size only the size is.
  function Below(t: Type): set<Source>
    decreases t, 0
  {
    match t.shape
    case Pointer(p) => InType(p.ty)
    case LReference(p) => InType(p.ty)
    case RReference(p) => InType(p.ty)
    case ConstantArray(e, _) => InType(e.ty)
    case IncompleteArray(e) => InType(e.ty)
    case VariableArray(_, n) => InExpr(n)
    case Function(r, ps, _, _) => InQuals(ps) + InType(r.ty)
    case Record(d) => {OfName(d)}
    case Enum(d, _) => {OfName(d)}
    case Elaborated(q) => InType(q.ty)
    case Decayed(o, a) => InType(o.ty) + InType(a.ty)
    case Builtin(_) | Sugar(_) | MemberPointer(_, _) => {}
  }

  function InQuals(qs: seq<QualType>): set<Source> {
    if qs == [] then {} else InQual(qs[0]) + InQuals(qs[1..])
  }

  function InQual(q: QualType): set<Source> {
    InType(q.ty)
  }

  // The type of every expression occurs; the parts of an expression of another kind do not.
  function InExpr(e: Expr): set<Source> {
    InType(e.ty.ty) +
    match e
    case DeclRef(local, d, _, _) => if local then {} else {OfName(d)}
    case Unary(_, x, _) => InExpr(x)
    case Cast(_, x, _) => InExpr(x)
    case Binary(_, x, y, _) => InExpr(x) + InExpr(y)
    case Call(f, args, _) => InExpr(f) + InExprs(args)
    case MemberCall(m, f, args, _) => {OfName(m)} + InExpr(f) + InExprs(args)
    case Construct(k, args, _) => {OfName(k)} + InExprs(args)
    case OtherExpr(_, _, _, _) => {}
  }

  function InExprs(es: seq<Expr>): set<Source> {
    if es == [] then {} else InExpr(es[0]) + InExprs(es[1..])
  }

  function InOptExpr(e: Option<Expr>): set<Source> {
    match e
    case None => {}
    case Some(x) => InExpr(x)
  }

  // Of a declared variable only what it is initialized with.
  function InVar(v: Option<LocalVar>): set<Source> {
    match v
    case None => {}
    case Some(x) => InOptExpr(x.init)
  }

  function InStmt(s: Stmt): set<Source> {
    match s
    case ExprStmt(e) => InExpr(e)
    case Compound(ss) => InStmts(ss)
    case Return(e) => InOptExpr(e)
    case While(v, e, b) => InVar(v) + InExpr(e) + InStmt(b)
    case Do(b, e) => InStmt(b) + InExpr(e)
    case For(_, v, t, n, b) => InVar(v) + InOptExpr(t) + InOptExpr(n) + InStmt(b)
    case If(_, v, e, x, y) => InVar(v) + InExpr(e) + InStmt(x) + InOptStmt(y)
    case IfConsteval(_, x, y) => InStmt(x) + InOptStmt(y)
    case Break | Continue | Null | OtherStmt(_, _, _) => {}
  }

  function InOptStmt(s: Option<Stmt>): set<Source> {
    match s
    case None => {}
    case Some(x) => InStmt(x)
  }

  function InStmts(ss: seq<Stmt>): set<Source> {
    if ss == [] then {} else InStmt(ss[0]) + InStmts(ss[1..])
  }

  function InDecl(d: Decl): set<Source> {
    match d
    case VarDecl(_, ty, _) => InType(ty.ty)
    case FunctionDecl(n, ps, r, b) => {OfName(n)} + InQuals(ps) + InType(r.ty) + InOptStmt(b)
    case ConstructorDecl(n, ps, r, ins, b) =>
      {OfName(n)} + InQuals(ps) + InType(r.ty) + InExprs(ins) + InOptStmt(b)
    case RecordDecl(n, fs) => {OfName(n)} + InQuals(fs)
    case OtherDecl(_, _, _) => {}
  }

  function InDecls(ds: seq<Decl>): set<Source> {
    if ds == [] then {} else InDecls(ds[..|ds| - 1]) + InDecl(ds[|ds| - 1])
  }

  // ----- The visits of a node meet what occurs in it -----

  function InVisit(v: Visit): set<Source> {
    match v
    case VisitQual(q) => InType(q.ty)
    case VisitName(n) => {OfName(n)}
    case VisitExpr(e) => InExpr(e)
    case VisitStmt(s) => InStmt(s)
    case VisitDecl(d) => InDecl(d)
  }

  function InVisits(vs: seq<Visit>): set<Source> {
    if vs == [] then {} else InVisits(vs[..|vs| - 1]) + InVisit(vs[|vs| - 1])
  }

  lemma {:induction false} InVisitsAppend(a: seq<Visit>, b: seq<Visit>)
    ensures InVisits(a + b) == InVisits(a) + InVisits(b)
    decreases |b|
  {
    if b == [] {
      assert a + b == a;
    } else {
      assert (a + b)[..|a + b| - 1] == a + b[..|b| - 1];
      InVisitsAppend(a, b[..|b| - 1]);
    }
  }

  lemma InOneVisit(v: Visit)
    ensures InVisits([v]) == InVisit(v)
  {
    assert [v][..0] == [];
  }

  lemma InTwoVisits(v: Visit, w: Visit)
    ensures InVisits([v, w]) == InVisit(v) + InVisit(w)
  {
    assert [v, w] == [v] + [w];
    InVisitsAppend([v], [w]);
    InOneVisit(v);
    InOneVisit(w);
  }

  lemma InVisitsBehind(v: Visit, vs: seq<Visit>)
    ensures InVisits([v] + vs) == InVisit(v) + InVisits(vs)
  {
    InVisitsAppend([v], vs);
    InOneVisit(v);
  }

  lemma {:induction false} InQualVisits(qs: seq<QualType>)
    ensures InVisits(QualVisits(qs)) == InQuals(qs)
  {
    if qs != [] {
      InQualVisits(qs[1..]);
      InVisitsBehind(VisitQual(qs[0]), QualVisits(qs[1..]));
    }
  }

  lemma {:induction false} InExprVisits(es: seq<Expr>)
    ensures InVisits(ExprVisits(es)) == InExprs(es)
  {
    if es != [] {
      InExprVisits(es[1..]);
      InVisitsBehind(VisitExpr(es[0]), ExprVisits(es[1..]));
    }
  }

  lemma {:induction false} InStmtVisits(ss: seq<Stmt>)
    ensures InVisits(StmtVisits(ss)) == InStmts(ss)
  {
    if ss != [] {
      InStmtVisits(ss[1..]);
      InVisitsBehind(VisitStmt(ss[0]), StmtVisits(ss[1..]));
    }
  }

  lemma InOptVisit(e: Option<Expr>)
    ensures InVisits(OptVisit(e)) == InOptExpr(e)
  {
    if e.Some? {
      InOneVisit(VisitExpr(e.value));
    }
  }

  lemma InVarVisit(v: Option<LocalVar>)
    ensures InVisits(VarVisit(v)) == InVar(v)
  {
    if v.Some? {
      InOptVisit(v.value.init);
    }
  }

  lemma InBodyVisit(b: Option<Stmt>)
    ensures InVisits(BodyVisit(b)) == InOptStmt(b)
  {
    if b.Some? {
      InOneVisit(VisitStmt(b.value));
    }
  }

  lemma {:induction false} InDeclVisits(ds: seq<Decl>)
    ensures InVisits(DeclVisits(ds)) == InDecls(ds)
  {
    if ds != [] {
      InDeclVisits(ds[..|ds| - 1]);
      assert DeclVisits(ds)[..|ds| - 1] == DeclVisits(ds[..|ds| - 1]);
    }
  }

  lemma InTypeKids(t: Type)
    ensures InVisits(TypeKids(t)) == Below(t)
  {
    match t.shape
    case Function(r, ps, _, _) =>
      InQualVisits(ps);
      InOneVisit(VisitQual(r));
      InVisitsAppend(QualVisits(ps), [VisitQual(r)]);
    case Decayed(o, a) => InTwoVisits(VisitQual(o), VisitQual(a));
    case Builtin(_) | Sugar(_) | MemberPointer(_, _) =>
    case _ => InOneVisit(TypeKids(t)[0]);
  }

  lemma InExprKids(e: Expr)
    ensures InVisits(ExprKids(e)) == InExpr(e)
  {
    InVisitsBehind(VisitQual(e.ty), ExprKids(e)[1..]);
    assert ExprKids(e) == [VisitQual(e.ty)] + ExprKids(e)[1..];
    match e
    case Unary(_, x, _) => InOneVisit(VisitExpr(x));
    case Cast(_, x, ty) => InTwoVisits(VisitExpr(x), VisitQual(ty));
    case Binary(_, x, y, _) => InTwoVisits(VisitExpr(x), VisitExpr(y));
    case Call(f, args, _) =>
      InExprVisits(args);
      InVisitsBehind(VisitExpr(f), ExprVisits(args));
    case MemberCall(m, f, args, _) =>
      InExprVisits(args);
      InTwoVisits(VisitName(m), VisitExpr(f));
      InVisitsAppend([VisitName(m), VisitExpr(f)], ExprVisits(args));
    case Construct(k, args, _) =>
      InExprVisits(args);
      InVisitsBehind(VisitName(k), ExprVisits(args));
    case DeclRef(_, d, _, _) => InOneVisit(VisitName(d));
    case OtherExpr(_, _, _, _) =>
  }

  lemma InStmtKids(s: Stmt)
    ensures InVisits(StmtKids(s)) == InStmt(s)
  {
    match s
    case ExprStmt(e) => InOneVisit(VisitExpr(e));
    case Compound(ss) => InStmtVisits(ss);
    case Return(e) => InOptVisit(e);
    case While(v, e, b) =>
      InVarVisit(v);
      InTwoVisits(VisitExpr(e), VisitStmt(b));
      InVisitsAppend(VarVisit(v), [VisitExpr(e), VisitStmt(b)]);
    case Do(b, e) => InTwoVisits(VisitStmt(b), VisitExpr(e));
    case For(_, v, t, n, b) =>
      InVarVisit(v);
      InOptVisit(t);
      InOptVisit(n);
      InOneVisit(VisitStmt(b));
      InVisitsAppend(VarVisit(v), OptVisit(t));
      InVisitsAppend(VarVisit(v) + OptVisit(t), OptVisit(n));
      InVisitsAppend(VarVisit(v) + OptVisit(t) + OptVisit(n), [VisitStmt(b)]);
    case If(_, v, e, x, y) =>
      InVarVisit(v);
      InBodyVisit(y);
      InTwoVisits(VisitExpr(e), VisitStmt(x));
      InVisitsAppend(VarVisit(v), [VisitExpr(e), VisitStmt(x)]);
      InVisitsAppend(VarVisit(v) + [VisitExpr(e), VisitStmt(x)], BodyVisit(y));
    case IfConsteval(_, x, y) =>
      InBodyVisit(y);
      InVisitsBehind(VisitStmt(x), BodyVisit(y));
    case Break | Continue | Null | OtherStmt(_, _, _) =>
  }

  lemma InSignature(ps: seq<QualType>, r: QualType, n: Name, b: Option<Stmt>)
    ensures InVisits(QualVisits(ps) + [VisitQual(r), VisitName(n)] + BodyVisit(b))
            == {OfName(n)} + InQuals(ps) + InType(r.ty) + InOptStmt(b)
  {
    InQualVisits(ps);
    InBodyVisit(b);
    InTwoVisits(VisitQual(r), VisitName(n));
    InVisitsAppend(QualVisits(ps), [VisitQual(r), VisitName(n)]);
    InVisitsAppend(QualVisits(ps) + [VisitQual(r), VisitName(n)], BodyVisit(b));
  }

  lemma InDeclKids(d: Decl)
    ensures InVisits(DeclKids(d)) == InDecl(d)
  {
    match d
    case VarDecl(_, ty, _) => InOneVisit(VisitQual(ty));
    case FunctionDecl(n, ps, r, b) => InSignature(ps, r, n, b);
    case ConstructorDecl(n, ps, r, ins, b) =>
      InSignature(ps, r, n, b);
      InExprVisits(ins);
      InVisitsAppend(ExprVisits(ins), QualVisits(ps) + [VisitQual(r), VisitName(n)] + BodyVisit(b));
    case RecordDecl(n, fs) =>
      InQualVisits(fs);
      InVisitsBehind(VisitName(n), QualVisits(fs));
    case OtherDecl(_, _, _) =>
  }

  // ----- What every visit defines -----

  function Sources(defs: seq<Def>): set<Source> {
    if defs == [] then {} else Sources(defs[..|defs| - 1]) + {defs[|defs| - 1].source}
  }

  // The tables that some definitions make.
  function TablesOf(defs: seq<Def>): Tables {
    if defs == [] then NOTHING
    else
      var c, d := TablesOf(defs[..|defs| - 1]), defs[|defs| - 1];
      match d.source
      case OfType(t) => c.(types := c.types[t := d.n])
      case OfName(n) => c.(names := c.names[n := d.n])
  }

  // The definition at i is of a name, or of a type of a shared kind, is printed with the definitions
  // before it, and those are of all that occurs in it.
  ghost predicate Grounded(defs: seq<Def>, i: int)
    requires 0 <= i < |defs|
  {
    match defs[i].source
    case OfType(t) =>
      IsShared(t) && Below(t) <= Sources(defs[..i]) && defs[i].body == PrintType(TablesOf(defs[..i]), t)
    case OfName(n) => defs[i].body == PrintName(TablesOf(defs[..i]), n)
  }

  ghost predicate Settled(s: Cache) {
    && Good(s) && s.tables == TablesOf(s.defs)
    && forall i :: 0 <= i < |s.defs| ==> Grounded(s.defs, i)
  }

  lemma {:induction false} SourcesGrow(defs: seq<Def>, k: nat)
    requires k <= |defs|
    ensures Sources(defs[..k]) <= Sources(defs)
    decreases |defs|
  {
    if k == |defs| {
      assert defs[..k] == defs;
    } else {
      assert defs[..|defs| - 1][..k] == defs[..k];
      SourcesGrow(defs[..|defs| - 1], k);
    }
  }

  lemma {:induction false} SourceAt(defs: seq<Def>, x: Source) returns (i: nat)
    requires x in Sources(defs)
    ensures i < |defs| && defs[i].source == x
  {
    i := |defs| - 1;
    if defs[i].source != x {
      i := SourceAt(defs[..i], x);
    }
  }

  lemma {:induction false} TablesHoldSources(defs: seq<Def>)
    ensures forall t :: t in TablesOf(defs).types <==> OfType(t) in Sources(defs)
    ensures forall n :: n in TablesOf(defs).names <==> OfName(n) in Sources(defs)
  {
    if defs != [] {
      TablesHoldSources(defs[..|defs| - 1]);
    }
  }

  // What occurs in a type that has a definition has one, too.
  lemma SettledIsClosed(s: Cache, t: Type)
    requires Settled(s) && t in s.tables.types
    ensures InType(t) <= Sources(s.defs)
  {
    TablesHoldSources(s.defs);
    var i := SourceAt(s.defs, OfType(t));
    assert Grounded(s.defs, i);
    SourcesGrow(s.defs, i);
  }

  lemma DefineTypeSettles(s: Cache, t: Type)
    requires Settled(s) && t !in s.tables.types && IsShared(t) && Below(t) <= Sources(s.defs)
    ensures Settled(DefineType(s, t)) && Sources(DefineType(s, t).defs) == Sources(s.defs) + {OfType(t)}
  {
    var r := DefineType(s, t);
    DefineTypeKeeps(s, t);
    assert r.defs[..|s.defs|] == s.defs;
    forall i | 0 <= i < |r.defs| ensures Grounded(r.defs, i) {
      if i < |s.defs| {
        assert Grounded(s.defs, i) && r.defs[..i] == s.defs[..i];
      }
    }
  }

  lemma DefineNameSettles(s: Cache, n: Name)
    requires Settled(s) && n !in s.tables.names
    ensures Settled(DefineName(s, n)) && Sources(DefineName(s, n).defs) == Sources(s.defs) + {OfName(n)}
  {
    var r := DefineName(s, n);
    DefineNameKeeps(s, n);
    assert r.defs[..|s.defs|] == s.defs;
    forall i | 0 <= i < |r.defs| ensures Grounded(r.defs, i) {
      if i < |s.defs| {
        assert Grounded(s.defs, i) && r.defs[..i] == s.defs[..i];
      }
    }
  }

  // A visit adds definitions of what occurs in it, all of it and nothing else.
  lemma {:induction false} PreSettles(s: Cache, v: Visit)
    requires Settled(s)
    ensures Settled(Pre(s, v)) && Sources(Pre(s, v).defs) == Sources(s.defs) + InVisit(v)
    decreases Size(v), 1
  {
    match v
    case VisitQual(q) => QualSettles(s, q);
    case VisitName(n) =>
      TablesHoldSources(s.defs);
      if Lookup(s.tables.names, n) == 0 {
        DefineNameSettles(s, n);
      }
    case VisitExpr(e) =>
      ExprKidsShrink(e);
      PreAllSettles(s, ExprKids(e));
      InExprKids(e);
    case VisitStmt(st) =>
      StmtKidsShrink(st);
      PreAllSettles(s, StmtKids(st));
      InStmtKids(st);
    case VisitDecl(d) =>
      DeclKidsShrink(d);
      PreAllSettles(s, DeclKids(d));
      InDeclKids(d);
  }

  lemma {:induction false} QualSettles(s: Cache, q: QualType)
    requires Settled(s)
    ensures var r := Pre(s, VisitQual(q)); Settled(r) && Sources(r.defs) == Sources(s.defs) + InType(q.ty)
    decreases QualSize(q), 0
  {
    var t := q.ty;
    if Lookup(s.tables.types, t) != 0 {
      SettledIsClosed(s, t);
    } else {
      TypeKidsShrink(t);
      PreAllSettles(s, TypeKids(t));
      InTypeKids(t);
      if IsShared(t) {
        StoreNeverFails(s, t);
        DefineTypeSettles(PreAll(s, TypeKids(t)), t);
      }
    }
  }

  lemma {:induction false} PreAllSettles(s: Cache, vs: seq<Visit>)
    requires Settled(s)
    ensures Settled(PreAll(s, vs)) && Sources(PreAll(s, vs).defs) == Sources(s.defs) + InVisits(vs)
    decreases MaxSize(vs), 2 + |vs|
  {
    if vs != [] {
      PreAllSettles(s, vs[..|vs| - 1]);
      PreSettles(PreAll(s, vs[..|vs| - 1]), vs[|vs| - 1]);
    }
  }

  // ----- The main results -----

  // A cache that no pass has changed yet.
  ghost predicate New(s: Cache) {
    Good(s) && s.tables == NOTHING && s.defs == []
  }

  lemma EmptyIsNew()
    ensures New(EMPTY)
  {
  }

  lemma ModuleSettles(start: Cache, declarations: seq<Decl>, definitions: seq<Decl>)
    requires New(start)
    ensures var s := PreModule(start, declarations, definitions);
            Settled(s) && Sources(s.defs) == InDecls(declarations) + InDecls(definitions)
  {
    var ds, es := DeclVisits(declarations), DeclVisits(definitions);
    PreAllSettles(start, ds);
    PreAllSettles(PreAll(start, ds), es);
    InDeclVisits(declarations);
    InDeclVisits(definitions);
  }

  // The pass over a module defines exactly what occurs in its declarations and definitions.
  lemma DefinedIffOccurs(start: Cache, declarations: seq<Decl>, definitions: seq<Decl>, x: Source)
    requires New(start)
    ensures (exists i :: 0 <= i < |PreModule(start, declarations, definitions).defs|
                         && PreModule(start, declarations, definitions).defs[i].source == x)
            <==> x in InDecls(declarations) + InDecls(definitions)
  {
    ModuleSettles(start, declarations, definitions);
    var defs := PreModule(start, declarations, definitions).defs;
    if x in Sources(defs) {
      var i := SourceAt(defs, x);
    }
    if i :| 0 <= i < |defs| && defs[i].source == x {
      SourcesGrow(defs, i + 1);
      assert defs[..i + 1][..i] == defs[..i];
    }
  }

  // A type that occurs is printed afterwards as a reference to its definition, any other type as its
  // shape.
  lemma TypePrintsAsReference(start: Cache, declarations: seq<Decl>, definitions: seq<Decl>, t: Type)
    requires New(start)
    ensures var s := PreModule(start, declarations, definitions);
            if OfType(t) in InDecls(declarations) + InDecls(definitions)
            then exists i :: 0 <= i < |s.defs| && s.defs[i].source == OfType(t) && s.defs[i].prefix == 't'
                             && PrintType(s.tables, t) == Ref('t', s.defs[i].n)
            else PrintType(s.tables, t) == PrintShape(s.tables, t)
  {
    ModuleSettles(start, declarations, definitions);
    var s := PreModule(start, declarations, definitions);
    TablesHoldSources(s.defs);
    if OfType(t) in Sources(s.defs) {
      var i := SourceAt(s.defs, OfType(t));
      assert Placed(s, i);
    }
  }

  lemma NamePrintsAsReference(start: Cache, declarations: seq<Decl>, definitions: seq<Decl>, n: Name)
    requires New(start)
    ensures var s := PreModule(start, declarations, definitions);
            if OfName(n) in InDecls(declarations) + InDecls(definitions)
            then exists i :: 0 <= i < |s.defs| && s.defs[i].source == OfName(n) && s.defs[i].prefix == 'n'
                             && PrintName(s.tables, n) == Ref('n', s.defs[i].n)
            else PrintName(s.tables, n) == PrintFullName(s.tables, n)
  {
    ModuleSettles(start, declarations, definitions);
    var s := PreModule(start, declarations, definitions);
    TablesHoldSources(s.defs);
    if OfName(n) in Sources(s.defs) {
      var i := SourceAt(s.defs, OfName(n));
      assert Placed(s, i);
    }
  }

  // The definition of a type refers to earlier definitions for all that occurs in it.
  lemma DefinitionsShare(start: Cache, declarations: seq<Decl>, definitions: seq<Decl>, i: nat)
    requires New(start) && i < |PreModule(start, declarations, definitions).defs|
    ensures Grounded(PreModule(start, declarations, definitions).defs, i)
  {
    ModuleSettles(start, declarations, definitions);
  }
}
