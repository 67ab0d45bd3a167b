/**
 * What a module holds, told by its declarations alone: which declarations a visitor goes on to, which
 * of them it lists and as what, and the static assertions.
 */
module ModuleReach {
  import opened ModuleBuilding
  import opened ModuleRoutes
  import opened ModuleRouting
  import opened Wrappers

  // ----- Where a visitor goes -----

  // The visitor of d goes on to k.
  ghost predicate Enters(c: Config, d: Id, k: Id)
    requires d in c.g
  {
    match c.g[d]
    case Namespace(members) => k in members
    case LinkageSpec(members) => k in members
    case CxxRecord(_, implicit, lambda, dependent, members) =>
      k in members && (implicit ==> lambda) && (dependent ==> c.templates)
    case Function(r, isMethod, deleted, dependent, held) =>
      && k in held && r.defn == Some(d) && c.filter(d) == DEFINITION
      && (isMethod ==> !deleted) && (dependent ==> c.templates)
      && (k in c.g && c.g[k].Var? ==> c.g[k].staticLocal || c.g[k].externalStorage)
    case TypeAliasTemplate(pattern) => k == pattern && c.templates
    case Template(pattern, specializations) => (k == pattern && c.templates) || k in specializations
    case Friend(target) => target == Some(k)
    case StaticAssert | Ignored | Typedef(_, _) | CRecord(_) => false
    case Var(_, _, _, _) | Enum(_, _) | EnumConstant => false
  }

  lemma {:induction false} LiftedOnlyHas(c: Config, ds: seq<Id>, k: Id)
    ensures k in LiftedOnly(c, ds) <==>
              k in ds && (k in c.g && c.g[k].Var? ==> c.g[k].staticLocal || c.g[k].externalStorage)
  {
    if ds != [] {
      LiftedOnlyHas(c, ds[..|ds| - 1], k);
    }
  }

  lemma KidIffEnters(c: Config, d: Id, k: Id)
    requires d in c.g
    ensures Kid(c, d, k) <==> Enters(c, d, k)
  {
    if c.g[d].Function? {
      LiftedOnlyHas(c, c.g[d].decls, k);
    }
  }

  // A chain of declarations from the translation unit, each of which enters the next.
  ghost predicate IsChain(c: Config, roots: seq<Id>, p: seq<Id>) {
    && p != [] && p[0] in roots
    && forall i :: 0 <= i < |p| - 1 ==> p[i] in c.g && Enters(c, p[i], p[i + 1])
  }

  ghost predicate Reached(c: Config, roots: seq<Id>, d: Id) {
    exists p :: IsChain(c, roots, p) && p[|p| - 1] == d
  }

  // What is entered is in the graph.
  ghost predicate HoldsItsMembers(c: Config, roots: seq<Id>) {
    && (forall d, k :: d in c.g && Enters(c, d, k) ==> k in c.g)
    && (forall k :: k in roots ==> k in c.g)
  }

  lemma ChainIffPath(c: Config, roots: seq<Id>, p: seq<Id>)
    ensures IsChain(c, roots, p) <==> IsPath(c, roots, p)
  {
    forall i | 0 <= i < |p| - 1 && p[i] in c.g ensures Kid(c, p[i], p[i + 1]) <==> Enters(c, p[i], p[i + 1]) {
      KidIffEnters(c, p[i], p[i + 1]);
    }
  }

  lemma ReachedIff(c: Config, roots: seq<Id>, d: Id)
    ensures Reached(c, roots, d) <==> Reachable(c, roots, d)
  {
    if Reached(c, roots, d) {
      var p :| IsChain(c, roots, p) && p[|p| - 1] == d;
      ChainIffPath(c, roots, p);
    }
    if Reachable(c, roots, d) {
      var p :| IsPath(c, roots, p) && p[|p| - 1] == d;
      ChainIffPath(c, roots, p);
    }
  }

  lemma HoldsIsWellFormed(c: Config, roots: seq<Id>)
    ensures HoldsItsMembers(c, roots) <==> WellFormed(c, roots)
  {
    forall d, k | d in c.g ensures Kid(c, d, k) <==> Enters(c, d, k) {
      KidIffEnters(c, d, k);
    }
  }

  // The traversal visits what its declarations enter, and nothing else.
  lemma VisitedIffReached(c: Config, roots: seq<Id>, d: Id)
    requires HoldsItsMembers(c, roots)
    ensures WellFormed(c, roots)
    ensures d in Build(c, roots).visited <==> Reached(c, roots, d)
  {
    HoldsIsWellFormed(c, roots);
    VisitedIsReachable(c, roots, d);
    ReachedIff(c, roots, d);
  }

  // ----- In what order, and with what effect on the flags -----

  // The places in ds of what is kept of it, in order.
  ghost predicate Keeps(c: Config, ds: seq<Id>, kept: seq<Id>, places: seq<nat>) {
    && |places| == |kept|
    && (forall i :: 0 <= i < |places| ==> places[i] < |ds| && kept[i] == ds[places[i]])
    && (forall i, j :: 0 <= i < j < |places| ==> places[i] < places[j])
    && (forall p :: 0 <= p < |ds| ==>
          (p in places <==> (ds[p] in c.g && c.g[ds[p]].Var? ==>
                               c.g[ds[p]].staticLocal || c.g[ds[p]].externalStorage)))
  }

  lemma {:induction false} LiftedOnlyKeeps(c: Config, ds: seq<Id>) returns (places: seq<nat>)
    ensures Keeps(c, ds, LiftedOnly(c, ds), places)
  {
    places := [];
    if ds != [] {
      var n := |ds| - 1;
      places := LiftedOnlyKeeps(c, ds[..n]);
      assert n !in places;
      if Lifted(c, ds[n]) {
        places := places + [n];
      }
    }
  }

  // Members, and what a function holds, are visited in their order with the flags as they are; the
  // pattern of a template comes first and sets the one flag, its specializations set the other.
  lemma EdgesOf(c: Config, d: Id) returns (places: seq<nat>)
    requires d in c.g
    ensures match c.g[d]
            case Namespace(members) => Edges(c, d) == EdgesTo(members, false, false)
            case LinkageSpec(members) => Edges(c, d) == EdgesTo(members, false, false)
            case CxxRecord(_, implicit, lambda, dependent, members) =>
              Edges(c, d) == if (implicit ==> lambda) && (dependent ==> c.templates)
                             then EdgesTo(members, false, false) else []
            case Friend(Some(t)) => Edges(c, d) == [Edge(t, false, false)]
            case TypeAliasTemplate(p) => Edges(c, d) == if c.templates then [Edge(p, true, false)] else []
            case Template(p, ss) =>
              Edges(c, d) == (if c.templates then [Edge(p, true, false)] else []) + EdgesTo(ss, false, true)
            case Function(r, isMethod, deleted, dependent, held) =>
              if r.defn == Some(d) && c.filter(d) == DEFINITION
                 && (isMethod ==> !deleted) && (dependent ==> c.templates)
              then exists kept :: Edges(c, d) == EdgesTo(kept, false, false) && Keeps(c, held, kept, places)
              else Edges(c, d) == []
            case _ => Edges(c, d) == []
  {
    places := [];
    match c.g[d] {
      case Function(_, _, _, _, held) =>
        places := LiftedOnlyKeeps(c, held);
        assert Edges(c, d) == EdgesTo(RestKids(c, d), false, false);
        assert Keeps(c, held, LiftedOnly(c, held), places);
      case Template(p, ss) =>
        assert PatternKids(c, d) == if c.templates then [p] else [];
        assert Edges(c, d) == EdgesTo(PatternKids(c, d), true, false) + EdgesTo(ss, false, true);
      case TypeAliasTemplate(p) => assert PatternKids(c, d) == if c.templates then [p] else [];
      case Friend(t) => assert RestKids(c, d) == if t.Some? then [t.value] else [];
      case _ => assert Edges(c, d) == EdgesTo(RestKids(c, d), false, false);
    }
  }

  // ----- What is listed -----

  // Of a chain its definition is taken as a definition; if there is none, the redeclaration without a
  // predecessor is taken as a declaration.
  ghost predicate Taken(d: Id, r: Redecl, defined: bool) {
    if defined then r.defn == Some(d) else r.defn == None && r.prev == None
  }

  // The visitor of d takes x.
  ghost predicate Takes(c: Config, d: Id, x: Id, defined: bool)
    requires d in c.g
  {
    match c.g[d]
    case CRecord(r) => x == d && Taken(d, r, defined)
    case CxxRecord(r, implicit, lambda, dependent, _) =>
      x == d && Taken(d, r, defined) && (implicit ==> lambda) && (dependent ==> c.templates)
    case Function(r, isMethod, deleted, dependent, _) =>
      x == d && Taken(d, r, defined) && (isMethod ==> !deleted) && (dependent ==> c.templates)
    case Typedef(r, namesAnonymous) => x == d && defined && r.canonical == d && !namesAnonymous
    case Var(r, templated, _, _) =>
      && x == d && defined && (templated ==> c.templates)
      && if r.defn == None then r.canonical == d else r.defn == Some(d)
    case Enum(r, enumerators) => defined && r.canonical == d && (x == d || x in enumerators)
    case EnumConstant => x == d && defined
    case StaticAssert | Ignored | TypeAliasTemplate(_) | Template(_, _) => false
    case Namespace(_) | LinkageSpec(_) | Friend(_) => false
  }

  // The filter drops it, makes a declaration of it, or leaves it as it was taken.
  ghost predicate Lists(c: Config, d: Id, x: Id, definition: bool)
    requires d in c.g
  {
    match c.filter(x)
    case NOTHING => false
    case DECLARATION => !definition && (Takes(c, d, x, true) || Takes(c, d, x, false))
    case DEFINITION => Takes(c, d, x, definition)
  }

  lemma {:induction false} GoAllHas(c: Config, es: seq<Id>, a: Add)
    ensures a in GoAll(c, es) <==>
              a.decl in es && c.filter(a.decl) != NOTHING && a.definition == c.filter(a.decl).DEFINITION?
  {
    if es != [] {
      GoAllHas(c, es[..|es| - 1], a);
    }
  }

  lemma AddsIffLists(c: Config, d: Id, x: Id, definition: bool)
    requires d in c.g
    ensures Add(x, definition) in Adds(c, d) <==> Lists(c, d, x, definition)
  {
    if c.g[d].Enum? {
      GoAllHas(c, c.g[d].enumerators, Add(x, definition));
    }
  }

  // An enumeration comes before its enumerators, which keep their order.
  lemma {:induction false} EnumeratorsInOrder(c: Config, es: seq<Id>)
    requires forall x :: c.filter(x) == DEFINITION
    ensures GoAll(c, es) == seq(|es|, i requires 0 <= i < |es| => Add(es[i], true))
  {
    if es != [] {
      EnumeratorsInOrder(c, es[..|es| - 1]);
    }
  }

  lemma EnumerationInOrder(c: Config, d: Id)
    requires d in c.g && c.g[d].Enum? && c.g[d].r.canonical == d && forall x :: c.filter(x) == DEFINITION
    ensures var es := c.g[d].enumerators;
            Adds(c, d) == [Add(d, true)] + seq(|es|, i requires 0 <= i < |es| => Add(es[i], true))
  {
    EnumeratorsInOrder(c, c.g[d].enumerators);
  }

  ghost predicate HasListed(log: seq<Entry>, x: Id, definition: bool) {
    exists i :: 0 <= i < |log| && log[i].decl == x && log[i].definition == definition
  }

  // A declaration is listed, as a definition or as a declaration, if and only if some declaration that
  // is reached takes it so.
  lemma ListedIffTaken(c: Config, roots: seq<Id>, x: Id, definition: bool)
    requires HoldsItsMembers(c, roots) && Linked(c) && EnumeratorsOwned(c, roots)
    ensures WellFormed(c, roots)
    ensures HasListed(Build(c, roots).log, x, definition)
            <==> exists d :: Reached(c, roots, d) && d in c.g && Lists(c, d, x, definition)
  {
    HoldsIsWellFormed(c, roots);
    VisitAllRecords(c, roots, NEW, roots, NO_FLAGS);
    var st := Build(c, roots);
    if HasListed(st.log, x, definition) {
      var i :| 0 <= i < |st.log| && st.log[i].decl == x && st.log[i].definition == definition;
      assert Owned(c, st.visited, st.log[i]);
      var d := st.log[i].owner;
      VisitedIffReached(c, roots, d);
      AddsIffLists(c, d, x, definition);
      assert Reached(c, roots, d) && d in c.g && Lists(c, d, x, definition);
    }
    if exists d :: Reached(c, roots, d) && d in c.g && Lists(c, d, x, definition) {
      var d :| Reached(c, roots, d) && d in c.g && Lists(c, d, x, definition);
      VisitedIffReached(c, roots, d);
      AddsIffLists(c, d, x, definition);
      assert HasEntry(st.log, d, Add(x, definition));
    }
  }

  // Nothing but an enumeration takes another declaration than itself.
  lemma TakenByItself(c: Config, roots: seq<Id>, d: Id, x: Id, definition: bool)
    requires EnumeratorsOwned(c, roots) && d in c.g && x in c.g && !c.g[x].EnumConstant?
    requires Lists(c, d, x, definition)
    ensures d == x
  {
    if c.g[d].Enum? && x != d {
      assert false;
    }
  }

  // Functions, records and structures that are reached and not skipped: the definition of a chain is
  // listed as a definition, the first of a chain without one as a declaration, any other not at all.
  lemma TagsAndFunctionsListed(c: Config, roots: seq<Id>, d: Id)
    requires HoldsItsMembers(c, roots) && Linked(c) && EnumeratorsOwned(c, roots)
    requires Reached(c, roots, d) && d in c.g && c.filter(d) == DEFINITION
    requires match c.g[d]
             case CRecord(_) => true
             case CxxRecord(_, implicit, lambda, dependent, _) => (implicit ==> lambda) && (dependent ==> c.templates)
             case Function(_, isMethod, deleted, dependent, _) =>
               (isMethod ==> !deleted) && (dependent ==> c.templates)
             case _ => false
    ensures WellFormed(c, roots)
    ensures var log, r := Build(c, roots).log, c.g[d].r;
            && (r.defn == Some(d) ==> HasListed(log, d, true) && !HasListed(log, d, false))
            && (r.defn == None && r.prev == None ==> HasListed(log, d, false) && !HasListed(log, d, true))
            && (r.defn != Some(d) && (r.defn != None || r.prev != None) ==>
                  !HasListed(log, d, true) && !HasListed(log, d, false))
  {
    forall b: bool, o | o in c.g && Lists(c, o, d, b) ensures o == d {
      TakenByItself(c, roots, o, d, b);
    }
    ListedIffTaken(c, roots, d, true);
    ListedIffTaken(c, roots, d, false);
    assert Lists(c, d, d, true) <==> c.g[d].r.defn == Some(d);
  }

  // ----- Static assertions -----

  // Every visited static assertion is recorded, once.
  ghost predicate AssertsOf(c: Config, st: State) {
    && (forall d :: d in st.asserts <==> d in st.visited && d in c.g && c.g[d].StaticAssert?)
    && (forall i, j :: 0 <= i < j < |st.asserts| ==> st.asserts[i] != st.asserts[j])
  }

  lemma EnterAsserts(c: Config, st: State, d: Id, f: Flags)
    requires d in c.g && d !in st.visited && AssertsOf(c, st)
    ensures AssertsOf(c, Enter(c, st, d, f))
  {
    var r := Enter(c, st, d, f);
    assert d !in st.asserts;
    forall x ensures x in r.asserts <==> x in r.visited && x in c.g && c.g[x].StaticAssert? {
      assert x in r.asserts <==> x in st.asserts || (x == d && c.g[d].StaticAssert?);
    }
  }

  lemma {:induction false} VisitAsserts(c: Config, roots: seq<Id>, st: State, d: Id, f: Flags)
    requires WellFormed(c, roots) && d in c.g && AssertsOf(c, st)
    ensures AssertsOf(c, Visit(c, roots, st, d, f))
    decreases |Left(c, st)|, 0
  {
    if d !in st.visited {
      var s1 := Enter(c, st, d, f);
      EnterShrinks(c, st, d, f);
      EnterAsserts(c, st, d, f);
      KidsWithin(c, roots, d);
      var s2 := VisitAll(c, roots, s1, PatternKids(c, d), f.SetTemplate());
      GrowShrinks(c, s1, s2);
      VisitAllAsserts(c, roots, s1, PatternKids(c, d), f.SetTemplate());
      VisitAllAsserts(c, roots, s2, RestKids(c, d), RestFlags(c.g[d], f));
    }
  }

  lemma {:induction false} VisitAllAsserts(c: Config, roots: seq<Id>, st: State, ds: seq<Id>, f: Flags)
    requires WellFormed(c, roots) && AssertsOf(c, st) && forall d :: d in ds ==> d in c.g
    ensures AssertsOf(c, VisitAll(c, roots, st, ds, f))
    decreases |Left(c, st)|, 1 + |ds|
  {
    if ds != [] {
      var s1 := VisitAll(c, roots, st, ds[..|ds| - 1], f);
      GrowShrinks(c, st, s1);
      VisitAllAsserts(c, roots, st, ds[..|ds| - 1], f);
      VisitAsserts(c, roots, s1, ds[|ds| - 1], f);
    }
  }

  // A module holds each static assertion that is reached exactly once, and no other.
  lemma AssertsAreReached(c: Config, roots: seq<Id>, d: Id)
    requires HoldsItsMembers(c, roots)
    ensures WellFormed(c, roots)
    ensures var asserts := Build(c, roots).asserts;
            && (d in asserts <==> Reached(c, roots, d) && d in c.g && c.g[d].StaticAssert?)
            && (forall i, j :: 0 <= i < j < |asserts| ==> asserts[i] != asserts[j])
  {
    VisitedIffReached(c, roots, d);
    VisitAllAsserts(c, roots, NEW, roots, NO_FLAGS);
  }
}
