/** The sharing traversal itself: its cache, the definitions it emits, and what every run keeps. */
module PrePrinting {
  import opened Decimal
  import Formatting
  import opened Printing
  import opened Sharing
  import opened SharingMeaning

  // ----- The traversal as a function on the cache -----

  function DefineType(s: Cache, t: Type): Cache {
    var n := s.nextType + 1;
    Cache(s.tables.(types := s.tables.types[t := n]), n, s.nextName,
          s.defs + [Def('t', n, PrintType(s.tables, t), OfType(t))])
  }

  function DefineName(s: Cache, d: Name): Cache {
    var n := s.nextName + 1;
    Cache(s.tables.(names := s.tables.names[d := n]), s.nextType, n,
          s.defs + [Def('n', n, PrintName(s.tables, d), OfName(d))])
  }

  function Pre(s: Cache, v: Visit): (r: Cache)
    ensures s.nextType <= r.nextType && s.nextName <= r.nextName
    decreases Size(v), 1
  {
    match v
    case VisitQual(q) =>
      if Lookup(s.tables.types, q.ty) != 0 then s
      else
        TypeKidsShrink(q.ty);
        var s' := PreAll(s, TypeKids(q.ty));
        if Cached(q.ty) then DefineType(s', q.ty) else s'
    case VisitName(n) => if Lookup(s.tables.names, n) != 0 then s else DefineName(s, n)
    case VisitExpr(e) =>
      ExprKidsShrink(e);
      PreAll(s, ExprKids(e))
    case VisitStmt(st) =>
      StmtKidsShrink(st);
      PreAll(s, StmtKids(st))
    case VisitDecl(d) =>
      DeclKidsShrink(d);
      PreAll(s, DeclKids(d))
  }

  function PreAll(s: Cache, vs: seq<Visit>): (r: Cache)
    ensures s.nextType <= r.nextType && s.nextName <= r.nextName
    decreases MaxSize(vs), 2 + |vs|
  {
    if vs == [] then s else Pre(PreAll(s, vs[..|vs| - 1]), vs[|vs| - 1])
  }

  // The cache after the pass over a module: its declarations, then its definitions.
  function PreModule(s: Cache, declarations: seq<Decl>, definitions: seq<Decl>): Cache {
    PreAll(PreAll(s, DeclVisits(declarations)), DeclVisits(definitions))
  }

  // ----- What every visit keeps -----

  function Count(defs: seq<Def>, prefix: char): nat {
    if defs == [] then 0
    else Count(defs[..|defs| - 1], prefix) + if defs[|defs| - 1].prefix == prefix then 1 else 0
  }

  // The definition at i has the next number of its prefix, starting from 2, and is in the table.
  ghost predicate Placed(s: Cache, i: int)
    requires 0 <= i < |s.defs|
  {
    var d := s.defs[i];
    && d.n == 2 + Count(s.defs[..i], d.prefix)
    && match d.source
       case OfType(t) => d.prefix == 't' && t in s.tables.types && s.tables.types[t] == d.n
       case OfName(n) => d.prefix == 'n' && n in s.tables.names && s.tables.names[n] == d.n
  }

  ghost predicate Good(s: Cache) {
    && (forall t :: t in s.tables.types ==> 2 <= s.tables.types[t] <= s.nextType)
    && (forall n :: n in s.tables.names ==> 2 <= s.tables.names[n] <= s.nextName)
    && s.nextType == 1 + Count(s.defs, 't')
    && s.nextName == 1 + Count(s.defs, 'n')
    && (forall i :: 0 <= i < |s.defs| ==> Placed(s, i))
    && Sound(s.tables, Meanings(s.defs))
  }

  lemma EmptyIsGood()
    ensures Good(EMPTY)
  {
  }

  lemma DefineTypeKeeps(s: Cache, t: Type)
    requires Good(s) && t !in s.tables.types
    ensures Good(DefineType(s, t))
  {
    var r := DefineType(s, t);
    var d := r.defs[|s.defs|];
    assert r.defs[..|s.defs|] == s.defs;
    ExpandType(t, s.tables, Meanings(s.defs));
    forall i | 0 <= i < |r.defs| ensures Placed(r, i) {
      if i < |s.defs| {
        assert Placed(s, i) && r.defs[..i] == s.defs[..i];
      }
    }
  }

  lemma DefineNameKeeps(s: Cache, n: Name)
    requires Good(s) && n !in s.tables.names
    ensures Good(DefineName(s, n))
  {
    var r := DefineName(s, n);
    assert r.defs[..|s.defs|] == s.defs;
    ExpandName(n, s.tables, Meanings(s.defs));
    forall i | 0 <= i < |r.defs| ensures Placed(r, i) {
      if i < |s.defs| {
        assert Placed(s, i) && r.defs[..i] == s.defs[..i];
      }
    }
  }

  // A visit caches only types that are no deeper than what it visits.
  ghost predicate NoDeeper(s: Cache, r: Cache, bound: nat) {
    forall t :: t in r.tables.types && t !in s.tables.types ==> TypeSize(t) <= bound
  }

  lemma {:induction false} PreKeeps(s: Cache, v: Visit)
    requires Good(s)
    ensures Good(Pre(s, v)) && NoDeeper(s, Pre(s, v), Size(v))
    ensures s.defs <= Pre(s, v).defs
    decreases Size(v), 1
  {
    match v
    case VisitQual(q) =>
      if Lookup(s.tables.types, q.ty) == 0 {
        TypeKidsShrink(q.ty);
        PreAllKeeps(s, TypeKids(q.ty));
        if Cached(q.ty) {
          DefineTypeKeeps(PreAll(s, TypeKids(q.ty)), q.ty);
        }
      }
    case VisitName(n) =>
      if Lookup(s.tables.names, n) == 0 {
        DefineNameKeeps(s, n);
      }
    case VisitExpr(e) =>
      ExprKidsShrink(e);
      PreAllKeeps(s, ExprKids(e));
    case VisitStmt(st) =>
      StmtKidsShrink(st);
      PreAllKeeps(s, StmtKids(st));
    case VisitDecl(d) =>
      DeclKidsShrink(d);
      PreAllKeeps(s, DeclKids(d));
  }

  lemma {:induction false} PreAllKeeps(s: Cache, vs: seq<Visit>)
    requires Good(s)
    ensures Good(PreAll(s, vs)) && NoDeeper(s, PreAll(s, vs), MaxSize(vs))
    ensures s.defs <= PreAll(s, vs).defs
    decreases MaxSize(vs), 2 + |vs|
  {
    if vs != [] {
      PreAllKeeps(s, vs[..|vs| - 1]);
      PreKeeps(PreAll(s, vs[..|vs| - 1]), vs[|vs| - 1]);
    }
  }

  // The assertion of `store` never fires: the children of a type never cache the type itself.
  lemma StoreNeverFails(s: Cache, t: Type)
    requires Good(s) && Lookup(s.tables.types, t) == 0
    ensures t !in PreAll(s, TypeKids(t)).tables.types
  {
    TypeKidsShrink(t);
    PreAllKeeps(s, TypeKids(t));
  }

  lemma PreModuleKeeps(s: Cache, declarations: seq<Decl>, definitions: seq<Decl>)
    requires Good(s)
    ensures Good(PreModule(s, declarations, definitions))
  {
    PreAllKeeps(s, DeclVisits(declarations));
    PreAllKeeps(PreAll(s, DeclVisits(declarations)), DeclVisits(definitions));
  }

  // ----- The main results -----

  // Sharing preserves meaning: after the pass over a module, every declaration printed with the cache,
  // with the emitted definitions substituted back, is its unshared printing.
  lemma SharingPreservesMeaning(declarations: seq<Decl>, definitions: seq<Decl>, d: Decl)
    ensures var s := PreModule(EMPTY, declarations, definitions);
            Subst(Meanings(s.defs), PrintDecl(s.tables, d)) == PlainDecl(d)
  {
    EmptyIsGood();
    PreModuleKeeps(EMPTY, declarations, definitions);
    var s := PreModule(EMPTY, declarations, definitions);
    ExpandDecl(d, s.tables, Meanings(s.defs));
  }

  lemma {:induction false} CountMonotone(defs: seq<Def>, i: nat, j: nat, prefix: char)
    requires i < j <= |defs| && defs[i].prefix == prefix
    ensures Count(defs[..i], prefix) < Count(defs[..j], prefix)
    decreases j
  {
    assert defs[..j][..j - 1] == defs[..j - 1];
    if i < j - 1 {
      CountMonotone(defs, i, j - 1, prefix);
    }
  }

  lemma Ordered(s: Cache, i: nat, j: nat)
    requires Good(s) && i < j < |s.defs|
    ensures s.defs[i].n >= 2
    ensures s.defs[i].prefix == s.defs[j].prefix ==> s.defs[i].n < s.defs[j].n
    ensures s.defs[i].source != s.defs[j].source
  {
    assert Placed(s, i) && Placed(s, j);
    if s.defs[i].prefix == s.defs[j].prefix {
      CountMonotone(s.defs, i, j, s.defs[i].prefix);
    }
  }

  // Per prefix the numbers strictly increase in emission order and are never the sentinel 0; no node
  // is defined twice.
  lemma DefinitionsAreOrdered(declarations: seq<Decl>, definitions: seq<Decl>, i: nat, j: nat)
    requires i < j < |PreModule(EMPTY, declarations, definitions).defs|
    ensures var defs := PreModule(EMPTY, declarations, definitions).defs;
            && defs[i].n >= 2
            && (defs[i].prefix == defs[j].prefix ==> defs[i].n < defs[j].n)
            && defs[i].source != defs[j].source
  {
    EmptyIsGood();
    PreModuleKeeps(EMPTY, declarations, definitions);
    Ordered(PreModule(EMPTY, declarations, definitions), i, j);
  }

  // ----- Each node is defined once -----

  // The types and names that a visit meets if nothing is cached.
  ghost function Nodes(v: Visit): set<Source>
    decreases Size(v), 1
  {
    match v
    case VisitQual(q) =>
      TypeKidsShrink(q.ty);
      NodesOfAll(TypeKids(q.ty)) + {OfType(q.ty)}
    case VisitName(n) => {OfName(n)}
    case VisitExpr(e) =>
      ExprKidsShrink(e);
      NodesOfAll(ExprKids(e))
    case VisitStmt(st) =>
      StmtKidsShrink(st);
      NodesOfAll(StmtKids(st))
    case VisitDecl(d) =>
      DeclKidsShrink(d);
      NodesOfAll(DeclKids(d))
  }

  ghost function NodesOfAll(vs: seq<Visit>): set<Source>
    decreases MaxSize(vs), 2 + |vs|
  {
    if vs == [] then {} else NodesOfAll(vs[..|vs| - 1]) + Nodes(vs[|vs| - 1])
  }

  ghost predicate From(defs: seq<Def>, nodes: set<Source>) {
    forall i :: 0 <= i < |defs| ==> defs[i].source in nodes
  }

  // Only nodes of what is visited are defined.
  lemma {:induction false} PreDefines(s: Cache, v: Visit, nodes: set<Source>)
    requires From(s.defs, nodes)
    ensures From(Pre(s, v).defs, nodes + Nodes(v))
    decreases Size(v), 1
  {
    match v
    case VisitQual(q) =>
      if Lookup(s.tables.types, q.ty) == 0 {
        TypeKidsShrink(q.ty);
        PreAllDefines(s, TypeKids(q.ty), nodes);
      }
    case VisitName(n) =>
    case VisitExpr(e) =>
      ExprKidsShrink(e);
      PreAllDefines(s, ExprKids(e), nodes);
    case VisitStmt(st) =>
      StmtKidsShrink(st);
      PreAllDefines(s, StmtKids(st), nodes);
    case VisitDecl(d) =>
      DeclKidsShrink(d);
      PreAllDefines(s, DeclKids(d), nodes);
  }

  lemma {:induction false} PreAllDefines(s: Cache, vs: seq<Visit>, nodes: set<Source>)
    requires From(s.defs, nodes)
    ensures From(PreAll(s, vs).defs, nodes + NodesOfAll(vs))
    decreases MaxSize(vs), 2 + |vs|
  {
    if vs != [] {
      var front, last := vs[..|vs| - 1], vs[|vs| - 1];
      PreAllDefines(s, front, nodes);
      PreDefines(PreAll(s, front), last, nodes + NodesOfAll(front));
    }
  }

  function Id(source: Source): nat {
    match source
    case OfType(t) => t.id
    case OfName(n) => n.id
  }

  // An address belongs to one type, and to one name.
  ghost predicate IdsDetermine(nodes: set<Source>) {
    forall x, y :: x in nodes && y in nodes && x.OfType? == y.OfType? && Id(x) == Id(y) ==> x == y
  }

  ghost function ModuleNodes(declarations: seq<Decl>, definitions: seq<Decl>): set<Source> {
    NodesOfAll(DeclVisits(declarations)) + NodesOfAll(DeclVisits(definitions))
  }

  lemma PreModuleDefines(s: Cache, declarations: seq<Decl>, definitions: seq<Decl>)
    requires s.defs == []
    ensures From(PreModule(s, declarations, definitions).defs, ModuleNodes(declarations, definitions))
  {
    var first := DeclVisits(declarations);
    PreAllDefines(s, first, {});
    assert {} + NodesOfAll(first) == NodesOfAll(first);
    PreAllDefines(PreAll(s, first), DeclVisits(definitions), NodesOfAll(first));
  }

  lemma IdsDiffer(s: Cache, nodes: set<Source>, i: nat, j: nat)
    requires Good(s) && From(s.defs, nodes) && IdsDetermine(nodes) && i < j < |s.defs|
    ensures s.defs[i].prefix == s.defs[j].prefix ==> Id(s.defs[i].source) != Id(s.defs[j].source)
  {
    assert Placed(s, i) && Placed(s, j);
    Ordered(s, i, j);
  }

  // If so it is for what the module holds, no two definitions of a prefix are of the same address.
  lemma EachNodeDefinedOnce(start: Cache, declarations: seq<Decl>, definitions: seq<Decl>, i: nat, j: nat)
    requires Good(start) && start.defs == [] && IdsDetermine(ModuleNodes(declarations, definitions))
    requires i < j < |PreModule(start, declarations, definitions).defs|
    ensures var defs := PreModule(start, declarations, definitions).defs;
            defs[i].prefix == defs[j].prefix ==> Id(defs[i].source) != Id(defs[j].source)
  {
    PreModuleKeeps(start, declarations, definitions);
    PreModuleDefines(start, declarations, definitions);
    IdsDiffer(PreModule(start, declarations, definitions), ModuleNodes(declarations, definitions), i, j);
  }

  // ----- Every reference is to an earlier definition -----

  function RefsOf(t: Term): set<(char, nat)> {
    match t
    case Ref(p, n) => {(p, n)}
    case Ctor(_, args, _) => ArgRefs(args)
    case Seq(es, _) => AllRefs(es)
    case Tuple(ps) => AllRefs(ps)
    case Remarked(_, u) => RefsOf(u)
    case _ => {}
  }

  function OneArgRefs(a: Arg): set<(char, nat)> {
    RefsOf(a.t)
  }

  function ArgRefs(args: seq<Arg>): set<(char, nat)> {
    if args == [] then {} else OneArgRefs(args[0]) + ArgRefs(args[1..])
  }

  function AllRefs(ts: seq<Term>): set<(char, nat)> {
    if ts == [] then {} else RefsOf(ts[0]) + AllRefs(ts[1..])
  }

  // Substitution removes exactly the defined references, if the definitions hold none.
  ghost predicate Closed(env: Env) {
    forall k :: k in env ==> RefsOf(env[k]) == {}
  }

  lemma {:induction false} SubstRefs(t: Term, env: Env)
    ensures RefsOf(t) - env.Keys <= RefsOf(Subst(env, t))
    ensures Closed(env) ==> RefsOf(Subst(env, t)) == RefsOf(t) - env.Keys
    decreases t, 0
  {
    match t
    case Ctor(_, args, _) => SubstArgRefs(args, env);
    case Seq(es, _) => SubstAllRefs(es, env);
    case Tuple(ps) => SubstAllRefs(ps, env);
    case Remarked(_, u) => SubstRefs(u, env);
    case _ =>
  }

  lemma {:induction false} SubstOneArgRefs(a: Arg, env: Env)
    ensures OneArgRefs(a) - env.Keys <= OneArgRefs(SubstArg(env, a))
    ensures Closed(env) ==> OneArgRefs(SubstArg(env, a)) == OneArgRefs(a) - env.Keys
    decreases a, 0
  {
    SubstRefs(a.t, env);
  }

  lemma {:induction false} SubstArgRefs(args: seq<Arg>, env: Env)
    ensures ArgRefs(args) - env.Keys <= ArgRefs(SubstArgs(env, args))
    ensures Closed(env) ==> ArgRefs(SubstArgs(env, args)) == ArgRefs(args) - env.Keys
    decreases args, 0
  {
    if args != [] {
      assert SubstArgs(env, args)[1..] == SubstArgs(env, args[1..]);
      SubstOneArgRefs(args[0], env);
      SubstArgRefs(args[1..], env);
    }
  }

  lemma {:induction false} SubstAllRefs(ts: seq<Term>, env: Env)
    ensures AllRefs(ts) - env.Keys <= AllRefs(SubstAll(env, ts))
    ensures Closed(env) ==> AllRefs(SubstAll(env, ts)) == AllRefs(ts) - env.Keys
    decreases ts, 0
  {
    if ts != [] {
      assert SubstAll(env, ts)[1..] == SubstAll(env, ts[1..]);
      SubstRefs(ts[0], env);
      SubstAllRefs(ts[1..], env);
    }
  }

  // Unshared printing holds no reference, because no substitution changes it.
  lemma PlainIsClosed(t: Type)
    ensures RefsOf(Plain(t)) == {}
  {
    var env: Env := map r | r in RefsOf(Plain(t)) :: Ident("x");
    ExpandType(t, NOTHING, env);
    SubstRefs(Plain(t), env);
  }

  lemma PlainNameIsClosed(n: Name)
    ensures RefsOf(PlainName(n)) == {}
  {
    var env: Env := map r | r in RefsOf(PlainName(n)) :: Ident("x");
    ExpandName(n, NOTHING, env);
    SubstRefs(PlainName(n), env);
  }

  lemma {:induction false} MeaningAt(defs: seq<Def>, i: nat)
    requires i < |defs|
    requires forall j :: i < j < |defs| ==> (defs[j].prefix, defs[j].n) != (defs[i].prefix, defs[i].n)
    ensures (defs[i].prefix, defs[i].n) in Meanings(defs)
    ensures Meanings(defs)[(defs[i].prefix, defs[i].n)] == Subst(Meanings(defs[..i]), defs[i].body)
    decreases |defs|
  {
    if i < |defs| - 1 {
      var front := defs[..|defs| - 1];
      assert front[..i] == defs[..i];
      MeaningAt(front, i);
    }
  }

  function Defined(defs: seq<Def>): set<(char, nat)> {
    set d | d in defs :: (d.prefix, d.n)
  }

  lemma {:induction false} MeaningsKeys(defs: seq<Def>)
    ensures Meanings(defs).Keys == Defined(defs)
  {
    if defs != [] {
      var front, d := defs[..|defs| - 1], defs[|defs| - 1];
      MeaningsKeys(front);
      assert defs == front + [d];
      assert Defined(defs) == Defined(front) + {(d.prefix, d.n)};
    }
  }

  lemma SourceIsClosed(d: Def, env: Env)
    requires match d.source case OfType(t) => Subst(env, d.body) == Plain(t)
                            case OfName(n) => Subst(env, d.body) == PlainName(n)
    ensures RefsOf(d.body) <= env.Keys
  {
    match d.source {
      case OfType(t) => PlainIsClosed(t);
      case OfName(n) => PlainNameIsClosed(n);
    }
    SubstRefs(d.body, env);
  }

  lemma EarlierOnly(s: Cache, i: nat)
    requires Good(s) && i < |s.defs|
    ensures RefsOf(s.defs[i].body) <= Meanings(s.defs[..i]).Keys
  {
    var d := s.defs[i];
    forall j | i < j < |s.defs| ensures (s.defs[j].prefix, s.defs[j].n) != (d.prefix, d.n) {
      Ordered(s, i, j);
    }
    MeaningAt(s.defs, i);
    assert Placed(s, i);
    SourceIsClosed(d, Meanings(s.defs[..i]));
  }

  // Every emitted definition refers only to definitions emitted before it.
  lemma DefinedBeforeUse(declarations: seq<Decl>, definitions: seq<Decl>, i: nat)
    requires i < |PreModule(EMPTY, declarations, definitions).defs|
    ensures var defs := PreModule(EMPTY, declarations, definitions).defs;
            RefsOf(defs[i].body) <= Defined(defs[..i])
  {
    EmptyIsGood();
    PreModuleKeeps(EMPTY, declarations, definitions);
    EarlierOnly(PreModule(EMPTY, declarations, definitions), i);
    MeaningsKeys(PreModule(EMPTY, declarations, definitions).defs[..i]);
  }

  // ----- The text of the definitions -----

  function HeadOps(prefix: char, n: nat): seq<Formatting.Op> {
    [Formatting.Text("#[local] Definition "), Formatting.Text([prefix]), Formatting.Text(Numeral(n)),
     Formatting.Text(if prefix == 't' then " : type := " else " : name := ")]
  }

  function TailOps(): seq<Formatting.Op> {
    [Formatting.Text("."), Formatting.Line]
  }

  function DefOps(d: Def): seq<Formatting.Op> {
    HeadOps(d.prefix, d.n) + (Ops(d.body) + TailOps())
  }

  function DefsOps(defs: seq<Def>): seq<Formatting.Op> {
    if defs == [] then [] else DefsOps(defs[..|defs| - 1]) + DefOps(defs[|defs| - 1])
  }

  lemma OneMore(defs: seq<Def>, d: Def, st: Formatting.State)
    ensures Formatting.Run(DefsOps(defs + [d]), st)
            == Formatting.Run(TailOps(), Formatting.Run(Ops(d.body),
                 Formatting.Run(HeadOps(d.prefix, d.n), Formatting.Run(DefsOps(defs), st))))
  {
    assert (defs + [d])[..|defs|] == defs;
    var st1 := Formatting.Run(DefsOps(defs), st);
    Formatting.RunAppend(DefsOps(defs), DefOps(d), st);
    Formatting.RunAppend(HeadOps(d.prefix, d.n), Ops(d.body) + TailOps(), st1);
    Formatting.RunAppend(Ops(d.body), TailOps(), Formatting.Run(HeadOps(d.prefix, d.n), st1));
  }

  // ----- The cache and the pass as the program runs them -----

  class NameCache<T(==)> {
    var entries: map<T, nat>
    var next: nat      // 32-bit

    constructor ()
      ensures entries == map[] && next == 1
    {
      entries, next := map[], 1;
    }

    // The counter wraps around to the sentinel 0 exactly from its largest value.
    method Fresh() returns (n: nat)
      requires next < LIMIT
      modifies this`next
      ensures n == next < LIMIT
      ensures n == if old(next) == LIMIT - 1 then 0 else old(next) + 1
    {
      next := (next + 1) % LIMIT;
      n := next;
    }

    // always_assert(entries_.find(p) == entries_.end())
    method Store(p: T, n: nat)
      requires p !in entries
      modifies this`entries
      ensures entries == old(entries)[p := n]
    {
      entries := entries[p := n];
    }

    method LookUp(p: T) returns (n: nat)
      ensures n == Lookup(entries, p)
    {
      if p in entries {
        n := entries[p];
      } else {
        n := 0;
      }
    }

    // Prints `<prefix><number>` for a cached node and nothing for another.
    method Reference(p: T, prefix: char, printer: CoqPrinter) returns (hit: bool)
      modifies printer.output
      ensures hit <==> Lookup(entries, p) != 0
      ensures printer.output.View() ==
              if hit then Formatting.Run(Ops(Ref(prefix, Lookup(entries, p))), old(printer.output.View()))
              else old(printer.output.View())
    {
      var x := LookUp(p);
      if x != 0 {
        printer.PutRef(prefix, x);
      }
      hit := x != 0;
    }
  }

  class PrePrinter {
    const types: NameCache<Type>
    const names: NameCache<Name>
    const printer: CoqPrinter
    var defs: seq<Def>
    ghost const start: Formatting.State      // of the layout engine, before the first definition

    ghost function View(): Cache
      reads this, types, names
    {
      Cache(Tables(types.entries, names.entries), types.next, names.next, defs)
    }

    // The text of exactly the definitions has been written.
    ghost predicate Written()
      reads this, printer.output
    {
      printer.output.View() == Formatting.Run(DefsOps(defs), start)
    }

    // The counters do not wrap around before the cache has become r.
    ghost predicate Fits(r: Cache) {
      r.nextType < LIMIT && r.nextName < LIMIT
    }

    constructor (p: CoqPrinter)
      ensures View() == EMPTY && fresh(types) && fresh(names)
      ensures printer == p && start == p.output.View() && Written()
    {
      types := new NameCache();
      names := new NameCache();
      defs := [];
      printer, start := p, p.output.View();
    }

    // The cache hook of the type printer.
    method PrintTypeOf(t: Type)
      modifies printer.output
      ensures printer.output.View()
              == Formatting.Run(Ops(PrintType(Tables(types.entries, names.entries), t)), old(printer.output.View()))
    {
      var hit := types.Reference(t, 't', printer);
      if !hit {
        printer.PrintTerm(PrintShape(Tables(types.entries, names.entries), t));
      }
    }

    // The cache hook of the name printer.
    method PrintNameOf(d: Name)
      modifies printer.output
      ensures printer.output.View()
              == Formatting.Run(Ops(PrintName(Tables(types.entries, names.entries), d)), old(printer.output.View()))
    {
      var hit := names.Reference(d, 'n', printer);
      if !hit {
        printer.PrintTerm(PrintFullName(Tables(types.entries, names.entries), d));
      }
    }

    method EmitType(t: Type)
      requires Fits(DefineType(View(), t)) && t !in types.entries && Written()
      modifies this`defs, types, printer.output
      ensures View() == DefineType(old(View()), t) && Written()
    {
      var n := types.Fresh();
      Begin('t', n);
      PrintTypeOf(t);
      End();
      var d := Def('t', n, PrintType(Tables(types.entries, names.entries), t), OfType(t));
      OneMore(defs, d, start);
      defs := defs + [d];
      types.Store(t, n);
    }

    method EmitName(d: Name)
      requires Fits(DefineName(View(), d)) && d !in names.entries && Written()
      modifies this`defs, names, printer.output
      ensures View() == DefineName(old(View()), d) && Written()
    {
      var n := names.Fresh();
      Begin('n', n);
      PrintNameOf(d);
      End();
      var def := Def('n', n, PrintName(Tables(types.entries, names.entries), d), OfName(d));
      OneMore(defs, def, start);
      defs := defs + [def];
      names.Store(d, n);
    }

    method Begin(prefix: char, n: nat)
      modifies printer.output
      ensures printer.output.View() == Formatting.Run(HeadOps(prefix, n), old(printer.output.View()))
    {
      ghost var st := printer.output.View();
      printer.output.Put("#[local] Definition ");
      printer.PutRef(prefix, n);
      var kind := if prefix == 't' then " : type := " else " : name := ";
      printer.output.Put(kind);
      Formatting.RunAppend(Ops(Ref(prefix, n)), [Formatting.Text(kind)],
                           Formatting.Step(Formatting.Text("#[local] Definition "), st));
      assert HeadOps(prefix, n)[1..] == Ops(Ref(prefix, n)) + [Formatting.Text(kind)];
    }

    method End()
      modifies printer.output
      ensures printer.output.View() == Formatting.Run(TailOps(), old(printer.output.View()))
    {
      ghost var st := printer.output.View();
      printer.output.Put(".");
      printer.output.NewLine();
      Formatting.RunTwo(Formatting.Text("."), Formatting.Line, st);
    }

    method DoVisit(v: Visit)
      requires Good(View()) && Fits(Pre(View(), v)) && Written()
      modifies this`defs, types, names, printer.output
      ensures View() == Pre(old(View()), v) && Written()
      decreases Size(v), 1
    {
      ghost var s := View();
      match v
      case VisitQual(q) =>
        var known := types.LookUp(q.ty);
        if known == 0 {
          TypeKidsShrink(q.ty);
          DoAll(TypeKids(q.ty));
          if Cached(q.ty) {
            StoreNeverFails(s, q.ty);
            EmitType(q.ty);
          }
        }
      case VisitName(n) =>
        var known := names.LookUp(n);
        if known == 0 {
          EmitName(n);
        }
      case VisitExpr(e) =>
        ExprKidsShrink(e);
        DoAll(ExprKids(e));
      case VisitStmt(st) =>
        StmtKidsShrink(st);
        DoAll(StmtKids(st));
      case VisitDecl(d) =>
        DeclKidsShrink(d);
        DoAll(DeclKids(d));
    }

    method DoAll(vs: seq<Visit>)
      requires Good(View()) && Fits(PreAll(View(), vs)) && Written()
      modifies this`defs, types, names, printer.output
      ensures View() == PreAll(old(View()), vs) && Written()
      decreases MaxSize(vs), 2 + |vs|
    {
      ghost var s := View();
      var i := 0;
      while i < |vs|
        invariant 0 <= i <= |vs|
        invariant View() == PreAll(s, vs[..i]) && Written()
      {
        NextVisit(s, vs, i);
        DoVisit(vs[i]);
        i := i + 1;
      }
      assert vs[..|vs|] == vs;
    }

    // The loops over the declarations, then the definitions, of the module.
    method DoModule(declarations: seq<Decl>, definitions: seq<Decl>)
      requires Good(View()) && Fits(PreModule(View(), declarations, definitions)) && Written()
      modifies this`defs, types, names, printer.output
      ensures View() == PreModule(old(View()), declarations, definitions) && Written()
    {
      PreAllKeeps(View(), DeclVisits(declarations));
      DoAll(DeclVisits(declarations));
      DoAll(DeclVisits(definitions));
    }
  }

  lemma NextVisit(s: Cache, vs: seq<Visit>, i: nat)
    requires Good(s) && i < |vs|
    ensures Good(PreAll(s, vs[..i])) && Size(vs[i]) <= MaxSize(vs)
    ensures PreAll(s, vs[..i + 1]) == Pre(PreAll(s, vs[..i]), vs[i])
    ensures PreAll(s, vs[..i + 1]).nextType <= PreAll(s, vs).nextType
    ensures PreAll(s, vs[..i + 1]).nextName <= PreAll(s, vs).nextName
  {
    PreAllKeeps(s, vs[..i]);
    assert vs[..i + 1][..i] == vs[..i];
    PrefixFits(s, vs, i + 1);
  }

  lemma {:induction false} PrefixFits(s: Cache, vs: seq<Visit>, k: nat)
    requires k <= |vs|
    ensures MaxSize(vs[..k]) <= MaxSize(vs)
    ensures k > 0 ==> Size(vs[k - 1]) <= MaxSize(vs)
    ensures PreAll(s, vs[..k]).nextType <= PreAll(s, vs).nextType
    ensures PreAll(s, vs[..k]).nextName <= PreAll(s, vs).nextName
    decreases |vs|
  {
    if k < |vs| {
      PrefixFits(s, vs[..|vs| - 1], k);
      assert vs[..|vs| - 1][..k] == vs[..k];
    } else {
      assert vs[..k] == vs;
    }
  }
}
