/**
 * The module builder: a depth-first traversal of the declaration graph, which may be cyclic (friends,
 * specializations), with a visited set, flags that record templates and specializations on the way,
 * and four lists of declarations.
 */
module ModuleBuilding {
  import opened Wrappers

  // ----- The declaration graph -----

  type Id = nat

  datatype What = NOTHING | DECLARATION | DEFINITION

  // canonical names the redeclaration chain; defn is the definition found along it.
  datatype Redecl = Redecl(canonical: Id, prev: Option<Id>, defn: Option<Id>)

  datatype Node =
    | StaticAssert
    | Ignored                                            // using, empty, field, unsupported, ...
    | Typedef(r: Redecl, namesAnonymous: bool)
    | CRecord(r: Redecl)
    | CxxRecord(r: Redecl, implicit: bool, lambda: bool, dependent: bool, members: seq<Id>)
    | Function(r: Redecl, isMethod: bool, deleted: bool, dependent: bool, decls: seq<Id>)
    | Var(r: Redecl, templated: bool, staticLocal: bool, externalStorage: bool)
    | Enum(r: Redecl, enumerators: seq<Id>)
    | EnumConstant
    | TypeAliasTemplate(pattern: Id)
    | Template(pattern: Id, specializations: seq<Id>)    // class, function and variable templates
    | Namespace(members: seq<Id>)
    | LinkageSpec(members: seq<Id>)
    | Friend(target: Option<Id>)

  datatype Config = Config(g: map<Id, Node>, templates: bool, filter: Id -> What)

  datatype Flags = Flags(inTemplate: bool, inSpecialization: bool) {
    function SetTemplate(): Flags { this.(inTemplate := true) }
    function SetSpecialization(): Flags { this.(inSpecialization := true) }
    predicate IsNone() { !inTemplate && !inSpecialization }
    // every flag of this is also in f
    predicate Below(f: Flags) {
      (inTemplate ==> f.inTemplate) && (inSpecialization ==> f.inSpecialization)
    }
  }

  const NO_FLAGS := Flags(false, false)

  // ----- What one declaration adds, and where its visitor goes next -----

  datatype Add = Add(decl: Id, definition: bool)

  function Go(c: Config, d: Id, definition: bool): seq<Add> {
    match c.filter(d)
    case DEFINITION => [Add(d, definition)]
    case DECLARATION => [Add(d, false)]
    case NOTHING => []
  }

  function GoAll(c: Config, ds: seq<Id>): seq<Add> {
    if ds == [] then [] else GoAll(c, ds[..|ds| - 1]) + Go(c, ds[|ds| - 1], true)
  }

  predicate FirstOfUndefined(r: Redecl) {
    r.defn.None? && r.prev.None?
  }

  // The redeclaration chosen for a tag or a function: the definition, else the first declaration.
  function GoChosen(c: Config, d: Id, r: Redecl): seq<Add> {
    if r.defn == Some(d) then Go(c, d, true)
    else if FirstOfUndefined(r) then Go(c, d, false)
    else []
  }

  predicate EntersRecord(c: Config, n: Node)
    requires n.CxxRecord?
  {
    !(n.implicit && !n.lambda) && (!n.dependent || c.templates)
  }

  predicate EntersFunction(c: Config, n: Node)
    requires n.Function?
  {
    !(n.isMethod && n.deleted) && !(n.dependent && !c.templates)
  }

  function Adds(c: Config, d: Id): seq<Add>
    requires d in c.g
  {
    var n := c.g[d];
    match n
    case Typedef(r, anon) => if !anon && d == r.canonical then Go(c, d, true) else []
    case CRecord(r) => GoChosen(c, d, r)
    case CxxRecord(r, _, _, _, _) => if EntersRecord(c, n) then GoChosen(c, d, r) else []
    case Function(r, _, _, _, _) => if EntersFunction(c, n) then GoChosen(c, d, r) else []
    case Var(r, templated, _, _) =>
      if templated && !c.templates then []
      else if r.defn == Some(d) || (r.defn.None? && d == r.canonical) then Go(c, d, true)
      else []
    case Enum(r, es) => if d == r.canonical then Go(c, d, true) + GoAll(c, es) else []
    case EnumConstant => Go(c, d, true)
    case _ => []
  }

  // Local variables are lifted only if they have static or external storage.
  predicate Lifted(c: Config, i: Id) {
    i in c.g && c.g[i].Var? ==> c.g[i].staticLocal || c.g[i].externalStorage
  }

  function LiftedOnly(c: Config, ds: seq<Id>): seq<Id> {
    if ds == [] then []
    else LiftedOnly(c, ds[..|ds| - 1]) + if Lifted(c, ds[|ds| - 1]) then [ds[|ds| - 1]] else []
  }

  // Visited with `set_template`.
  function PatternKids(c: Config, d: Id): seq<Id>
    requires d in c.g
  {
    match c.g[d]
    case TypeAliasTemplate(p) => if c.templates then [p] else []
    case Template(p, _) => if c.templates then [p] else []
    case _ => []
  }

  // Visited with the flags of RestFlags.
  function RestKids(c: Config, d: Id): seq<Id>
    requires d in c.g
  {
    var n := c.g[d];
    match n
    case CxxRecord(_, _, _, _, ms) => if EntersRecord(c, n) then ms else []
    case Function(r, _, _, _, ds) =>
      if EntersFunction(c, n) && r.defn == Some(d) && c.filter(d).DEFINITION? then LiftedOnly(c, ds) else []
    case Template(_, ss) => ss
    case Namespace(ms) => ms
    case LinkageSpec(ms) => ms
    case Friend(Some(t)) => [t]
    case _ => []
  }

  function RestFlags(n: Node, f: Flags): Flags {
    if n.Template? then f.SetSpecialization() else f
  }

  ghost predicate Kid(c: Config, d: Id, k: Id)
    requires d in c.g
  {
    k in PatternKids(c, d) || k in RestKids(c, d)
  }

  // The graph is closed.
  ghost predicate WellFormed(c: Config, roots: seq<Id>) {
    && (forall d, k :: d in c.g && Kid(c, d, k) ==> k in c.g)
    && (forall k :: k in roots ==> k in c.g)
  }

  // ----- The traversal as a function -----

  // owner: the visited declaration whose visitor added the entry
  datatype Entry = Entry(decl: Id, definition: bool, flags: Flags, owner: Id)

  datatype State = State(visited: set<Id>, log: seq<Entry>, asserts: seq<Id>)

  const NEW := State({}, [], [])

  function Entries(adds: seq<Add>, f: Flags, owner: Id): (es: seq<Entry>)
    ensures |es| == |adds|
    ensures forall i :: 0 <= i < |es| ==> es[i] == Entry(adds[i].decl, adds[i].definition, f, owner)
  {
    seq(|adds|, i requires 0 <= i < |adds| => Entry(adds[i].decl, adds[i].definition, f, owner))
  }

  // The effect of a visitor before it visits anything else.
  function Enter(c: Config, st: State, d: Id, f: Flags): State
    requires d in c.g
  {
    State(st.visited + {d}, st.log + Entries(Adds(c, d), f, d),
          st.asserts + if c.g[d].StaticAssert? then [d] else [])
  }

  ghost function Left(c: Config, st: State): set<Id> {
    c.g.Keys - st.visited
  }

  lemma EnterShrinks(c: Config, st: State, d: Id, f: Flags)
    requires d in c.g && d !in st.visited
    ensures |Left(c, Enter(c, st, d, f))| < |Left(c, st)|
  {
    var a, b := Left(c, Enter(c, st, d, f)), Left(c, st);
    assert a == b - {d};
  }

  lemma GrowShrinks(c: Config, a: State, b: State)
    requires a.visited <= b.visited
    ensures |Left(c, b)| <= |Left(c, a)|
  {
    Smaller(Left(c, b), Left(c, a));
  }

  lemma {:induction false} Smaller(x: set<Id>, y: set<Id>)
    requires x <= y
    ensures |x| <= |y|
  {
    if x != {} {
      var e :| e in x;
      Smaller(x - {e}, y - {e});
    }
  }

  function Visit(c: Config, roots: seq<Id>, st: State, d: Id, f: Flags): (r: State)
    requires WellFormed(c, roots) && d in c.g
    ensures st.visited <= r.visited && d in r.visited
    decreases |Left(c, st)|, 0
  {
    if d in st.visited then st
    else
      var s1 := Enter(c, st, d, f);
      EnterShrinks(c, st, d, f);
      assert forall k :: k in PatternKids(c, d) ==> Kid(c, d, k);
      assert forall k :: k in RestKids(c, d) ==> Kid(c, d, k);
      var s2 := VisitAll(c, roots, s1, PatternKids(c, d), f.SetTemplate());
      GrowShrinks(c, s1, s2);
      VisitAll(c, roots, s2, RestKids(c, d), RestFlags(c.g[d], f))
  }

  function VisitAll(c: Config, roots: seq<Id>, st: State, ds: seq<Id>, f: Flags): (r: State)
    requires WellFormed(c, roots) && forall d :: d in ds ==> d in c.g
    ensures st.visited <= r.visited && forall d :: d in ds ==> d in r.visited
    decreases |Left(c, st)|, 1 + |ds|
  {
    if ds == [] then st
    else
      var s1 := VisitAll(c, roots, st, ds[..|ds| - 1], f);
      GrowShrinks(c, st, s1);
      Visit(c, roots, s1, ds[|ds| - 1], f)
  }

  // build_module: the members of the translation unit, with no flags
  function Build(c: Config, roots: seq<Id>): State
    requires WellFormed(c, roots)
  {
    VisitAll(c, roots, NEW, roots, NO_FLAGS)
  }

  // ----- Exactly the reachable declarations are visited -----

  ghost predicate ClosedUnderKids(c: Config, s: set<Id>) {
    forall d, k :: d in s && d in c.g && Kid(c, d, k) ==> k in s
  }

  // What a visit newly visits, it visits together with its successors.
  ghost predicate Covered(c: Config, st: State, r: State) {
    forall d, k :: d in r.visited && d !in st.visited && d in c.g && Kid(c, d, k) ==> k in r.visited
  }

  lemma {:induction false} VisitCovers(c: Config, roots: seq<Id>, st: State, d: Id, f: Flags)
    requires WellFormed(c, roots) && d in c.g
    ensures Covered(c, st, Visit(c, roots, st, d, f))
    decreases |Left(c, st)|, 0
  {
    if d !in st.visited {
      var s1 := Enter(c, st, d, f);
      EnterShrinks(c, st, d, f);
      assert forall k :: k in PatternKids(c, d) ==> Kid(c, d, k);
      assert forall k :: k in RestKids(c, d) ==> Kid(c, d, k);
      var s2 := VisitAll(c, roots, s1, PatternKids(c, d), f.SetTemplate());
      GrowShrinks(c, s1, s2);
      VisitAllCovers(c, roots, s1, PatternKids(c, d), f.SetTemplate());
      VisitAllCovers(c, roots, s2, RestKids(c, d), RestFlags(c.g[d], f));
    }
  }

  lemma {:induction false} VisitAllCovers(c: Config, roots: seq<Id>, st: State, ds: seq<Id>, f: Flags)
    requires WellFormed(c, roots) && forall d :: d in ds ==> d in c.g
    ensures Covered(c, st, VisitAll(c, roots, st, ds, f))
    decreases |Left(c, st)|, 1 + |ds|
  {
    if ds != [] {
      var s1 := VisitAll(c, roots, st, ds[..|ds| - 1], f);
      GrowShrinks(c, st, s1);
      VisitAllCovers(c, roots, st, ds[..|ds| - 1], f);
      VisitCovers(c, roots, s1, ds[|ds| - 1], f);
    }
  }

  // A visit stays inside every set that is closed under the visit edges.
  lemma {:induction false} VisitStays(c: Config, roots: seq<Id>, st: State, d: Id, f: Flags, s: set<Id>)
    requires WellFormed(c, roots) && d in c.g
    requires ClosedUnderKids(c, s) && d in s && st.visited <= s
    ensures Visit(c, roots, st, d, f).visited <= s
    decreases |Left(c, st)|, 0
  {
    if d !in st.visited {
      var s1 := Enter(c, st, d, f);
      EnterShrinks(c, st, d, f);
      assert forall k :: k in PatternKids(c, d) ==> Kid(c, d, k);
      assert forall k :: k in RestKids(c, d) ==> Kid(c, d, k);
      var s2 := VisitAll(c, roots, s1, PatternKids(c, d), f.SetTemplate());
      GrowShrinks(c, s1, s2);
      VisitAllStays(c, roots, s1, PatternKids(c, d), f.SetTemplate(), s);
      VisitAllStays(c, roots, s2, RestKids(c, d), RestFlags(c.g[d], f), s);
    }
  }

  lemma {:induction false} VisitAllStays(c: Config, roots: seq<Id>, st: State, ds: seq<Id>, f: Flags, s: set<Id>)
    requires WellFormed(c, roots) && forall d :: d in ds ==> d in c.g
    requires ClosedUnderKids(c, s) && (forall d :: d in ds ==> d in s) && st.visited <= s
    ensures VisitAll(c, roots, st, ds, f).visited <= s
    decreases |Left(c, st)|, 1 + |ds|
  {
    if ds != [] {
      var s1 := VisitAll(c, roots, st, ds[..|ds| - 1], f);
      GrowShrinks(c, st, s1);
      VisitAllStays(c, roots, st, ds[..|ds| - 1], f, s);
      VisitStays(c, roots, s1, ds[|ds| - 1], f, s);
    }
  }

  ghost predicate IsPath(c: Config, roots: seq<Id>, p: seq<Id>) {
    && p != [] && p[0] in roots
    && forall i :: 0 <= i < |p| - 1 ==> p[i] in c.g && Kid(c, p[i], p[i + 1])
  }

  ghost predicate Reachable(c: Config, roots: seq<Id>, d: Id) {
    exists p :: IsPath(c, roots, p) && p[|p| - 1] == d
  }

  lemma {:induction false} PathStays(c: Config, roots: seq<Id>, p: seq<Id>, s: set<Id>)
    requires IsPath(c, roots, p) && ClosedUnderKids(c, s) && forall d :: d in roots ==> d in s
    ensures p[|p| - 1] in s
    decreases |p|
  {
    if |p| > 1 {
      var q := p[..|p| - 1];
      PathStays(c, roots, q, s);
      assert Kid(c, p[|p| - 2], p[|p| - 2 + 1]);
    }
  }

  lemma ReachableStep(c: Config, roots: seq<Id>, d: Id, k: Id)
    requires Reachable(c, roots, d) && d in c.g && Kid(c, d, k)
    ensures Reachable(c, roots, k)
  {
    var p :| IsPath(c, roots, p) && p[|p| - 1] == d;
    var q := p + [k];
    forall i | 0 <= i < |q| - 1 ensures q[i] in c.g && Kid(c, q[i], q[i + 1]) {
      if i < |p| - 1 {
        assert Kid(c, p[i], p[i + 1]);
      }
    }
    assert IsPath(c, roots, q) && q[|q| - 1] == k;
  }

  // The traversal terminates (its measure is the unvisited declarations) and has then visited exactly
  // what is reachable from the translation unit along its visit edges.
  lemma VisitedIsReachable(c: Config, roots: seq<Id>, d: Id)
    requires WellFormed(c, roots)
    ensures d in Build(c, roots).visited <==> Reachable(c, roots, d)
  {
    var v := Build(c, roots).visited;
    VisitAllCovers(c, roots, NEW, roots, NO_FLAGS);
    assert v <= c.g.Keys by {
      VisitAllStays(c, roots, NEW, roots, NO_FLAGS, c.g.Keys);
    }
    if Reachable(c, roots, d) {
      var p :| IsPath(c, roots, p) && p[|p| - 1] == d;
      PathStays(c, roots, p, v);
    }
    if d in v {
      var s := set x | x in c.g.Keys && Reachable(c, roots, x);
      forall x, k | x in s && x in c.g && Kid(c, x, k) ensures k in s {
        ReachableStep(c, roots, x, k);
      }
      forall x | x in roots ensures x in s {
        assert IsPath(c, roots, [x]) && [x][0] == x;
      }
      VisitAllStays(c, roots, NEW, roots, NO_FLAGS, s);
    }
  }
}
