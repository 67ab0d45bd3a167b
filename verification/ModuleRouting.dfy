/** Where the module builder puts what it visits: the four lists, entry by entry. */
module ModuleRouting {
  import opened ModuleBuilding
  import opened ModuleRoutes
  import opened Sequences
  import opened Wrappers

  // ----- The four lists as selections from the log of entries -----

  datatype Slot = Slot(template: bool, definition: bool)

  // In a template: template lists only. Otherwise the plain list, and the template list too for a
  // specialization.
  predicate GoesTo(e: Entry, k: Slot) {
    && e.definition == k.definition
    && if k.template then e.flags.inTemplate || e.flags.inSpecialization else !e.flags.inTemplate
  }

  function Listed(log: seq<Entry>, k: Slot): seq<Id> {
    if log == [] then []
    else Listed(log[..|log| - 1], k) + if GoesTo(log[|log| - 1], k) then [log[|log| - 1].decl] else []
  }

  lemma ListedSnoc(log: seq<Entry>, e: Entry, k: Slot)
    ensures Listed(log + [e], k) == if GoesTo(e, k) then Listed(log, k) + [e.decl] else Listed(log, k)
  {
    assert (log + [e])[..|log|] == log;
    Nil(Listed(log, k));
  }

  lemma {:induction false} ListedIff(log: seq<Entry>, k: Slot, d: Id)
    ensures d in Listed(log, k) <==> exists i :: 0 <= i < |log| && log[i].decl == d && GoesTo(log[i], k)
  {
    if log != [] {
      ListedIff(log[..|log| - 1], k, d);
    }
  }

  // The declarations listed on a specialization route, outside every template.
  predicate IsSpecialized(e: Entry, definition: bool) {
    e.definition == definition && !e.flags.inTemplate && e.flags.inSpecialization
  }

  function Specialized(log: seq<Entry>, definition: bool): seq<Id> {
    if log == [] then []
    else
      var e := log[|log| - 1];
      Specialized(log[..|log| - 1], definition) + if IsSpecialized(e, definition) then [e.decl] else []
  }

  // a is what is left of b after dropping some elements
  predicate Subsequence(a: seq<Id>, b: seq<Id>)
    decreases |b|
  {
    if a == [] then true
    else if b == [] then false
    else (a[|a| - 1] == b[|b| - 1] && Subsequence(a[..|a| - 1], b[..|b| - 1])) || Subsequence(a, b[..|b| - 1])
  }

  lemma SubsequenceSnoc(a: seq<Id>, b: seq<Id>, d: Id)
    requires Subsequence(a, b)
    ensures Subsequence(a, b + [d]) && Subsequence(a + [d], b + [d])
  {
    assert (a + [d])[..|a|] == a && (b + [d])[..|b|] == b;
  }

  // In order, the specialization-route declarations are a subsequence of the plain list ...
  lemma {:induction false} SpecializedAreListed(log: seq<Entry>, definition: bool)
    ensures Subsequence(Specialized(log, definition), Listed(log, Slot(false, definition)))
  {
    if log != [] {
      var front, e := log[..|log| - 1], log[|log| - 1];
      SpecializedAreListed(front, definition);
      SubsequenceSnoc(Specialized(front, definition), Listed(front, Slot(false, definition)), e.decl);
      Nil(Specialized(front, definition));
      Nil(Listed(front, Slot(false, definition)));
    }
  }

  function Without(ds: seq<Id>, s: set<Id>): seq<Id> {
    if ds == [] then []
    else Without(ds[..|ds| - 1], s) + if ds[|ds| - 1] in s then [] else [ds[|ds| - 1]]
  }

  lemma WithoutSnoc(ds: seq<Id>, d: Id, s: set<Id>)
    ensures Without(ds + [d], s) == if d in s then Without(ds, s) else Without(ds, s) + [d]
  {
    assert (ds + [d])[..|ds|] == ds;
  }

  // ... and exactly what the template list holds besides what was first visited inside a template.
  lemma {:induction false} RestOfTemplateList(log: seq<Entry>, definition: bool, s: set<Id>)
    requires forall i :: 0 <= i < |log| ==> (log[i].decl in s <==> log[i].flags.inTemplate)
    ensures Without(Listed(log, Slot(true, definition)), s) == Specialized(log, definition)
  {
    if log != [] {
      var front, e := log[..|log| - 1], log[|log| - 1];
      RestOfTemplateList(front, definition, s);
      WithoutSnoc(Listed(front, Slot(true, definition)), e.decl, s);
      assert e.decl in s <==> e.flags.inTemplate;
      Nil(Specialized(front, definition));
      Nil(Listed(front, Slot(true, definition)));
    }
  }

  // ----- What the declarations satisfy -----

  predicate HasRedecl(n: Node) {
    n.Typedef? || n.CRecord? || n.CxxRecord? || n.Function? || n.Var? || n.Enum?
  }

  predicate SameKind(a: Node, b: Node) {
    (a.Typedef? && b.Typedef?) || (a.CRecord? && b.CRecord?) || (a.CxxRecord? && b.CxxRecord?)
    || (a.Function? && b.Function?) || (a.Var? && b.Var?) || (a.Enum? && b.Enum?)
  }

  // The redeclaration chain of a declaration.
  function Chain(c: Config, d: Id): Id {
    if d in c.g && HasRedecl(c.g[d]) then c.g[d].r.canonical else d
  }

  predicate SameChain(c: Config, d: Id, e: Id) {
    && d in c.g && e in c.g && HasRedecl(c.g[d]) && HasRedecl(c.g[e])
    && c.g[d].r.canonical == c.g[e].r.canonical
  }

  predicate EnumeratorOf(c: Config, x: Id, d: Id) {
    d in c.g && c.g[d].Enum? && d == c.g[d].r.canonical && x in c.g[d].enumerators
  }

  // Clang's redeclaration chains are linked: one canonical declaration of the same kind, the only one
  // without a predecessor, and one shared answer for the definition.
  ghost predicate Linked(c: Config) {
    && (forall d {:trigger HasRedecl(c.g[d])} :: d in c.g && HasRedecl(c.g[d]) ==>
          var r := c.g[d].r;
          r.canonical in c.g && SameKind(c.g[d], c.g[r.canonical]) && (r.prev.None? <==> d == r.canonical))
    && (forall d, e :: SameChain(c, d, e) ==> c.g[d].r.defn == c.g[e].r.defn)
  }

  // Enumerators belong to one enumeration and are reached only through it.
  ghost predicate EnumeratorsOwned(c: Config, roots: seq<Id>) {
    && (forall d :: d in c.g && c.g[d].Enum? ==>
          var es := c.g[d].enumerators;
          && (forall i :: 0 <= i < |es| ==> es[i] in c.g && c.g[es[i]].EnumConstant?)
          && (forall i, j :: 0 <= i < j < |es| ==> es[i] != es[j]))
    && (forall d, e, x :: EnumeratorOf(c, x, d) && EnumeratorOf(c, x, e) ==> d == e)
    && (forall d, k :: d in c.g && Kid(c, d, k) && k in c.g ==> !c.g[k].EnumConstant?)
    && (forall k :: k in roots && k in c.g ==> !c.g[k].EnumConstant?)
  }

  // ----- At most one entry per redeclaration chain -----

  lemma {:induction false} GoAllAdds(c: Config, es: seq<Id>)
    ensures forall a :: a in GoAll(c, es) ==> a.decl in es
    ensures (forall i, j :: 0 <= i < j < |es| ==> es[i] != es[j]) ==>
              forall i, j :: 0 <= i < j < |GoAll(c, es)| ==> GoAll(c, es)[i].decl != GoAll(c, es)[j].decl
  {
    if es != [] {
      var front := es[..|es| - 1];
      GoAllAdds(c, front);
      assert forall i :: 0 <= i < |front| ==> front[i] == es[i];
    }
  }

  // Every addition is the declaration itself, chosen from its chain, or one of its enumerators.
  lemma AddsShape(c: Config, d: Id, a: Add)
    requires d in c.g && a in Adds(c, d)
    ensures a.decl == d || EnumeratorOf(c, a.decl, d)
    ensures a.decl == d && HasRedecl(c.g[d]) ==>
              c.g[d].r.defn == Some(d) || FirstOfUndefined(c.g[d].r) || d == c.g[d].r.canonical
    ensures a.decl == d && (c.g[d].CRecord? || c.g[d].CxxRecord? || c.g[d].Function? || c.g[d].Var?) ==>
              c.g[d].r.defn == Some(d) || c.g[d].r.defn.None?
  {
    if c.g[d].Enum? && d == c.g[d].r.canonical {
      GoAllAdds(c, c.g[d].enumerators);
    }
  }

  lemma ChosenOnce(c: Config, roots: seq<Id>, d: Id, e: Id, a: Add, b: Add)
    requires Linked(c) && EnumeratorsOwned(c, roots)
    requires d in c.g && e in c.g && !c.g[d].EnumConstant? && !c.g[e].EnumConstant?
    requires a in Adds(c, d) && b in Adds(c, e) && d != e
    ensures Chain(c, a.decl) != Chain(c, b.decl)
  {
    AddsShape(c, d, a);
    AddsShape(c, e, b);
    if a.decl == d && b.decl == e && Chain(c, d) == Chain(c, e) {
      assert HasRedecl(c.g[d]) && HasRedecl(c.g[e]) && SameChain(c, d, e);
      assert false;
    }
  }

  lemma GoAllAt(c: Config, es: seq<Id>, i: nat)
    requires i < |GoAll(c, es)|
    ensures GoAll(c, es)[i].decl in es
  {
    GoAllAdds(c, es);
    assert GoAll(c, es)[i] in GoAll(c, es);
  }

  lemma OnlyEnumsAddMore(c: Config, d: Id)
    requires d in c.g && |Adds(c, d)| > 1
    ensures c.g[d].Enum? && d == c.g[d].r.canonical
    ensures Adds(c, d) == Go(c, d, true) + GoAll(c, c.g[d].enumerators)
  {
  }

  // What an enumeration adds: itself, then its enumerators.
  lemma AddOfEnum(c: Config, d: Id, k: nat)
    requires d in c.g && |Adds(c, d)| > 1 && k < |Adds(c, d)|
    ensures var own := |Go(c, d, true)|; var a := Adds(c, d)[k];
            if k < own then a.decl == d
            else k - own < |GoAll(c, c.g[d].enumerators)| && a == GoAll(c, c.g[d].enumerators)[k - own]
                 && EnumeratorOf(c, a.decl, d)
  {
    OnlyEnumsAddMore(c, d);
    var own := |Go(c, d, true)|;
    if k >= own {
      GoAllAt(c, c.g[d].enumerators, k - own);
    }
  }

  lemma EnumChains(c: Config, roots: seq<Id>, d: Id, x: Id, y: Id)
    requires EnumeratorsOwned(c, roots) && x != y
    requires EnumeratorOf(c, y, d) && (x == d || EnumeratorOf(c, x, d))
    ensures Chain(c, x) != Chain(c, y)
  {
    var es := c.g[d].enumerators;
    assert y in c.g && c.g[y].EnumConstant?;
    assert x in es ==> x in c.g && c.g[x].EnumConstant?;
  }

  lemma AddsDistinct(c: Config, roots: seq<Id>, d: Id, i: nat, j: nat)
    requires EnumeratorsOwned(c, roots) && d in c.g && i < j < |Adds(c, d)|
    ensures Chain(c, Adds(c, d)[i].decl) != Chain(c, Adds(c, d)[j].decl)
  {
    AddOfEnum(c, d, i);
    EnumNamesDiffer(c, roots, d, i, j);
    EnumChains(c, roots, d, Adds(c, d)[i].decl, Adds(c, d)[j].decl);
  }

  lemma OneDefinition(c: Config, d: Id)
    requires d in c.g
    ensures |Go(c, d, true)| <= 1
  {
  }

  lemma EnumNamesDiffer(c: Config, roots: seq<Id>, d: Id, i: nat, j: nat)
    requires EnumeratorsOwned(c, roots) && d in c.g && i < j < |Adds(c, d)|
    ensures Adds(c, d)[i].decl != Adds(c, d)[j].decl && EnumeratorOf(c, Adds(c, d)[j].decl, d)
  {
    AddOfEnum(c, d, i);
    AddOfEnum(c, d, j);
    OneDefinition(c, d);
    var es, own := c.g[d].enumerators, |Go(c, d, true)|;
    GoAllAdds(c, es);
    OnlyEnumsAddMore(c, d);
    if i < own {
      assert d !in es;
    }
  }

  ghost predicate Visitable(c: Config, d: Id) {
    d in c.g && !c.g[d].EnumConstant?
  }

  ghost predicate Owned(c: Config, visited: set<Id>, e: Entry) {
    e.owner in visited && e.owner in c.g && Add(e.decl, e.definition) in Adds(c, e.owner)
  }

  ghost predicate HasEntry(log: seq<Entry>, x: Id, a: Add) {
    exists i :: 0 <= i < |log| && log[i].decl == a.decl && log[i].definition == a.definition && log[i].owner == x
  }

  ghost predicate NoChainTwice(c: Config, log: seq<Entry>) {
    forall i, j :: 0 <= i < j < |log| ==> Chain(c, log[i].decl) != Chain(c, log[j].decl)
  }

  // Entries come from visited declarations, all their additions are there, and no chain occurs twice.
  ghost predicate Recorded(c: Config, st: State) {
    && (forall x :: x in st.visited ==> Visitable(c, x))
    && (forall i :: 0 <= i < |st.log| ==> Owned(c, st.visited, st.log[i]))
    && NoChainTwice(c, st.log)
    && (forall x, a :: x in st.visited && x in c.g && a in Adds(c, x) ==> HasEntry(st.log, x, a))
  }

  lemma EnterOwned(c: Config, st: State, d: Id, f: Flags, i: nat)
    requires d in c.g && i < |Enter(c, st, d, f).log|
    requires forall i :: 0 <= i < |st.log| ==> Owned(c, st.visited, st.log[i])
    ensures Owned(c, st.visited + {d}, Enter(c, st, d, f).log[i])
  {
    if i < |st.log| {
      assert Owned(c, st.visited, st.log[i]);
    } else {
      assert Adds(c, d)[i - |st.log|] in Adds(c, d);
    }
  }

  lemma EnterNoChainTwice(c: Config, roots: seq<Id>, st: State, d: Id, f: Flags)
    requires Linked(c) && EnumeratorsOwned(c, roots)
    requires Recorded(c, st) && Visitable(c, d) && d !in st.visited
    ensures NoChainTwice(c, Enter(c, st, d, f).log)
  {
    forall i, j | 0 <= i < j < |Enter(c, st, d, f).log|
      ensures Chain(c, Enter(c, st, d, f).log[i].decl) != Chain(c, Enter(c, st, d, f).log[j].decl)
    {
      EntryAt(c, st, d, f, i);
      EntryAt(c, st, d, f, j);
      PairDiffers(c, roots, st, d, i, j);
    }
  }

  // The declaration behind the entry at i, after st has entered d.
  function DeclAt(c: Config, st: State, d: Id, i: nat): Id
    requires d in c.g && i < |st.log| + |Adds(c, d)|
  {
    if i < |st.log| then st.log[i].decl else Adds(c, d)[i - |st.log|].decl
  }

  lemma PairDiffers(c: Config, roots: seq<Id>, st: State, d: Id, i: nat, j: nat)
    requires Linked(c) && EnumeratorsOwned(c, roots)
    requires Recorded(c, st) && Visitable(c, d) && d !in st.visited && i < j < |st.log| + |Adds(c, d)|
    ensures Chain(c, DeclAt(c, st, d, i)) != Chain(c, DeclAt(c, st, d, j))
  {
    var n := |st.log|;
    if i >= n {
      AddsDistinct(c, roots, d, i - n, j - n);
    } else if j >= n {
      NewChain(c, roots, st, d, i, j - n);
    }
  }

  lemma EntryAt(c: Config, st: State, d: Id, f: Flags, i: nat)
    requires d in c.g && i < |Enter(c, st, d, f).log|
    ensures |Enter(c, st, d, f).log| == |st.log| + |Adds(c, d)|
    ensures Enter(c, st, d, f).log[i].decl == DeclAt(c, st, d, i)
  {
  }

  // What a declaration adds is of no chain that has an entry already.
  lemma NewChain(c: Config, roots: seq<Id>, st: State, d: Id, i: nat, k: nat)
    requires Linked(c) && EnumeratorsOwned(c, roots)
    requires Recorded(c, st) && Visitable(c, d) && d !in st.visited
    requires i < |st.log| && k < |Adds(c, d)|
    ensures Chain(c, st.log[i].decl) != Chain(c, Adds(c, d)[k].decl)
  {
    var e := st.log[i];
    assert Owned(c, st.visited, e) && Visitable(c, e.owner);
    ChosenOnce(c, roots, e.owner, d, Add(e.decl, e.definition), Adds(c, d)[k]);
  }

  lemma EnterHasEntry(c: Config, st: State, d: Id, f: Flags, x: Id, a: Add)
    requires d in c.g && x in c.g && a in Adds(c, x) && (x == d || HasEntry(st.log, x, a))
    ensures HasEntry(Enter(c, st, d, f).log, x, a)
  {
    var log, n := Enter(c, st, d, f).log, |st.log|;
    if x == d {
      var k :| 0 <= k < |Adds(c, d)| && Adds(c, d)[k] == a;
      assert log[n + k] == Entry(a.decl, a.definition, f, d);
    } else {
      var i :| 0 <= i < n && st.log[i].decl == a.decl && st.log[i].definition == a.definition && st.log[i].owner == x;
      assert log[i] == st.log[i];
    }
  }

  lemma EnterRecords(c: Config, roots: seq<Id>, st: State, d: Id, f: Flags)
    requires Linked(c) && EnumeratorsOwned(c, roots)
    requires Recorded(c, st) && Visitable(c, d) && d !in st.visited
    ensures Recorded(c, Enter(c, st, d, f))
  {
    var r := Enter(c, st, d, f);
    EnterNoChainTwice(c, roots, st, d, f);
    forall i | 0 <= i < |r.log| ensures Owned(c, r.visited, r.log[i]) {
      EnterOwned(c, st, d, f, i);
    }
    forall x, a | x in r.visited && x in c.g && a in Adds(c, x) ensures HasEntry(r.log, x, a) {
      EnterHasEntry(c, st, d, f, x, a);
    }
  }

  lemma KidsVisitable(c: Config, roots: seq<Id>, d: Id)
    requires WellFormed(c, roots) && EnumeratorsOwned(c, roots) && d in c.g
    ensures forall k :: k in PatternKids(c, d) ==> k in c.g && Visitable(c, k)
    ensures forall k :: k in RestKids(c, d) ==> k in c.g && Visitable(c, k)
  {
    assert forall k :: k in PatternKids(c, d) ==> Kid(c, d, k);
    assert forall k :: k in RestKids(c, d) ==> Kid(c, d, k);
  }

  lemma {:induction false} VisitRecords(c: Config, roots: seq<Id>, st: State, d: Id, f: Flags)
    requires WellFormed(c, roots) && Linked(c) && EnumeratorsOwned(c, roots)
    requires Recorded(c, st) && Visitable(c, d)
    ensures Recorded(c, Visit(c, roots, st, d, f))
    decreases |Left(c, st)|, 0
  {
    if d !in st.visited {
      var s1 := Enter(c, st, d, f);
      EnterShrinks(c, st, d, f);
      EnterRecords(c, roots, st, d, f);
      KidsVisitable(c, roots, d);
      var s2 := VisitAll(c, roots, s1, PatternKids(c, d), f.SetTemplate());
      GrowShrinks(c, s1, s2);
      VisitAllRecords(c, roots, s1, PatternKids(c, d), f.SetTemplate());
      VisitAllRecords(c, roots, s2, RestKids(c, d), RestFlags(c.g[d], f));
    }
  }

  lemma {:induction false} VisitAllRecords(c: Config, roots: seq<Id>, st: State, ds: seq<Id>, f: Flags)
    requires WellFormed(c, roots) && Linked(c) && EnumeratorsOwned(c, roots) && Recorded(c, st)
    requires forall d :: d in ds ==> d in c.g && Visitable(c, d)
    ensures Recorded(c, VisitAll(c, roots, st, ds, f))
    decreases |Left(c, st)|, 1 + |ds|
  {
    if ds != [] {
      var s1 := VisitAll(c, roots, st, ds[..|ds| - 1], f);
      GrowShrinks(c, st, s1);
      VisitAllRecords(c, roots, st, ds[..|ds| - 1], f);
      VisitRecords(c, roots, s1, ds[|ds| - 1], f);
    }
  }

  // ----- The main results -----

  ghost predicate Clean(c: Config, roots: seq<Id>) {
    WellFormed(c, roots) && Linked(c) && EnumeratorsOwned(c, roots)
  }

  // No two entries of a module belong to one redeclaration chain; in particular no declaration is
  // listed twice, in one list or across declarations and definitions.
  lemma OneEntryPerChain(c: Config, roots: seq<Id>, i: nat, j: nat)
    requires Clean(c, roots) && i < j < |Build(c, roots).log|
    ensures var log := Build(c, roots).log; Chain(c, log[i].decl) != Chain(c, log[j].decl)
  {
    VisitAllRecords(c, roots, NEW, roots, NO_FLAGS);
  }

  // A redeclaration d that a reached declaration adds (itself, or an enumeration its enumerators) has
  // exactly one entry in its chain.
  lemma EntryOf(c: Config, roots: seq<Id>, owner: Id, d: Id, definition: bool) returns (i: nat)
    requires Clean(c, roots) && Reachable(c, roots, owner) && owner in c.g && Add(d, definition) in Adds(c, owner)
    ensures var log := Build(c, roots).log;
            && i < |log| && log[i].decl == d && log[i].definition == definition && log[i].owner == owner
            && forall j :: 0 <= j < |log| && j != i ==> Chain(c, log[j].decl) != Chain(c, d)
  {
    VisitAllRecords(c, roots, NEW, roots, NO_FLAGS);
    VisitedIsReachable(c, roots, owner);
    var log := Build(c, roots).log;
    i :| 0 <= i < |log| && log[i].decl == d && log[i].definition == definition && log[i].owner == owner;
    assert NoChainTwice(c, log);
  }

  // ----- The least route decides the list -----

  ghost predicate GoesInside(c: Config, roots: seq<Id>, q: seq<nat>) {
    exists e :: e in Along(c, RootEdges(roots), q) && e.template
  }

  ghost predicate GoesToSpecialization(c: Config, roots: seq<Id>, q: seq<nat>) {
    exists e :: e in Along(c, RootEdges(roots), q) && e.specialization
  }

  ghost predicate Leads(c: Config, roots: seq<Id>, q: seq<nat>, x: Id) {
    LeastRoute(c, RootEdges(roots), {}, q, x)
  }

  // The flags of an entry are set by the edges of the least route to its owner, and by nothing else.
  lemma FlagsOfEntry(c: Config, roots: seq<Id>, i: nat) returns (q: seq<nat>)
    requires WellFormed(c, roots) && i < |Build(c, roots).log|
    ensures var e := Build(c, roots).log[i];
            && Leads(c, roots, q, e.owner)
            && (e.flags.inTemplate <==> GoesInside(c, roots, q))
            && (e.flags.inSpecialization <==> GoesToSpecialization(c, roots, q))
  {
    q := BuildTakesLeastRoutes(c, roots, i);
    FlagsOfEdges(NO_FLAGS, Along(c, RootEdges(roots), q));
  }

  lemma {:induction false} RouteReaches(
      c: Config, roots: seq<Id>, es: seq<Edge>, avoid: set<Id>, q: seq<nat>, x: Id)
    requires Route(c, es, avoid, q, x) && forall i :: 0 <= i < |es| ==> Reachable(c, roots, es[i].to)
    ensures Reachable(c, roots, x)
    decreases |q|
  {
    if |q| > 1 {
      var d := es[q[0]].to;
      forall i | 0 <= i < |Edges(c, d)| ensures Reachable(c, roots, Edges(c, d)[i].to) {
        EdgeIsKid(c, d, i);
        ReachableStep(c, roots, d, Edges(c, d)[i].to);
      }
      RouteReaches(c, roots, Edges(c, d), avoid + {d}, q[1..], x);
    }
  }

  lemma LeadsReaches(c: Config, roots: seq<Id>, q: seq<nat>, x: Id)
    requires Leads(c, roots, q, x)
    ensures Reachable(c, roots, x)
  {
    forall i | 0 <= i < |roots| ensures Reachable(c, roots, RootEdges(roots)[i].to) {
      assert IsPath(c, roots, [roots[i]]) && [roots[i]][0] == roots[i];
    }
    RouteReaches(c, roots, RootEdges(roots), {}, q, x);
  }

  // A reached declaration that adds anything has a least route ...
  lemma RouteOf(c: Config, roots: seq<Id>, owner: Id, d: Id, definition: bool) returns (q: seq<nat>)
    requires Clean(c, roots) && Reachable(c, roots, owner) && owner in c.g && Add(d, definition) in Adds(c, owner)
    ensures Leads(c, roots, q, owner)
  {
    var i := EntryOf(c, roots, owner, d, definition);
    q := FlagsOfEntry(c, roots, i);
  }

  // ... and the flags of its entries are those of that route.
  lemma EntryOnRoute(c: Config, roots: seq<Id>, owner: Id, d: Id, definition: bool, q: seq<nat>) returns (i: nat)
    requires Clean(c, roots) && Leads(c, roots, q, owner) && owner in c.g && Add(d, definition) in Adds(c, owner)
    ensures var log := Build(c, roots).log;
            && i < |log| && log[i].decl == d && log[i].definition == definition
            && (forall j :: 0 <= j < |log| && j != i ==> log[j].decl != d)
            && (log[i].flags.inTemplate <==> GoesInside(c, roots, q))
            && (log[i].flags.inSpecialization <==> GoesToSpecialization(c, roots, q))
  {
    LeadsReaches(c, roots, q, owner);
    i := EntryOf(c, roots, owner, d, definition);
    var p := FlagsOfEntry(c, roots, i);
    OneLeastRoute(c, RootEdges(roots), {}, p, q, owner);
  }

  // A redeclaration that is chosen and reached is in its plain list if and only if the least route has
  // no edge into the pattern of a template, and in its template list if and only if the route has such
  // an edge or one to a specialization.
  lemma ChosenIsListed(c: Config, roots: seq<Id>, owner: Id, d: Id, definition: bool, q: seq<nat>)
    requires Clean(c, roots) && Leads(c, roots, q, owner) && owner in c.g && Add(d, definition) in Adds(c, owner)
    ensures var log := Build(c, roots).log;
            && (d in Listed(log, Slot(false, definition)) <==> !GoesInside(c, roots, q))
            && (d in Listed(log, Slot(true, definition)) <==>
                  GoesInside(c, roots, q) || GoesToSpecialization(c, roots, q))
  {
    var i := EntryOnRoute(c, roots, owner, d, definition, q);
    var log := Build(c, roots).log;
    ListedIff(log, Slot(false, definition), d);
    ListedIff(log, Slot(true, definition), d);
  }

  lemma {:induction false} SpecializedIff(log: seq<Entry>, definition: bool, d: Id)
    ensures d in Specialized(log, definition) <==>
              exists i :: 0 <= i < |log| && log[i].decl == d && IsSpecialized(log[i], definition)
  {
    if log != [] {
      SpecializedIff(log[..|log| - 1], definition, d);
    }
  }

  // The specialization-route declarations are those whose least route has no edge into a pattern and
  // has one to a specialization.
  lemma SpecializedByRoute(c: Config, roots: seq<Id>, owner: Id, d: Id, definition: bool, q: seq<nat>)
    requires Clean(c, roots) && Leads(c, roots, q, owner) && owner in c.g && Add(d, definition) in Adds(c, owner)
    ensures d in Specialized(Build(c, roots).log, definition)
            <==> !GoesInside(c, roots, q) && GoesToSpecialization(c, roots, q)
  {
    var i := EntryOnRoute(c, roots, owner, d, definition, q);
    SpecializedIff(Build(c, roots).log, definition, d);
  }

  // What was first visited inside a template.
  function InTemplates(log: seq<Entry>): set<Id> {
    set i | 0 <= i < |log| && log[i].flags.inTemplate :: log[i].decl
  }

  // In a module, each template list holds besides that exactly the specialization-route declarations,
  // in the order of the plain list.
  lemma TemplateListsOfModule(c: Config, roots: seq<Id>, definition: bool)
    requires Clean(c, roots)
    ensures var log := Build(c, roots).log;
            && Without(Listed(log, Slot(true, definition)), InTemplates(log)) == Specialized(log, definition)
            && Subsequence(Specialized(log, definition), Listed(log, Slot(false, definition)))
  {
    var log := Build(c, roots).log;
    forall i | 0 <= i < |log| ensures log[i].decl in InTemplates(log) <==> log[i].flags.inTemplate {
      if log[i].decl in InTemplates(log) {
        var j :| 0 <= j < |log| && log[j].flags.inTemplate && log[j].decl == log[i].decl;
        SameEntry(c, roots, i, j);
      }
    }
    RestOfTemplateList(log, definition, InTemplates(log));
    SpecializedAreListed(log, definition);
  }

  lemma SameEntry(c: Config, roots: seq<Id>, i: nat, j: nat)
    requires Clean(c, roots) && i < |Build(c, roots).log| && j < |Build(c, roots).log|
    requires Build(c, roots).log[i].decl == Build(c, roots).log[j].decl
    ensures i == j
  {
    if i < j {
      OneEntryPerChain(c, roots, i, j);
    } else if j < i {
      OneEntryPerChain(c, roots, j, i);
    }
  }

  // Without templates every chosen, reached redeclaration is in its plain list.
  lemma WithoutTemplatesAllListed(c: Config, roots: seq<Id>, owner: Id, d: Id, definition: bool)
    requires Clean(c, roots) && Reachable(c, roots, owner) && owner in c.g && Add(d, definition) in Adds(c, owner)
    requires !c.templates
    ensures d in Listed(Build(c, roots).log, Slot(false, definition))
  {
    var q := RouteOf(c, roots, owner, d, definition);
    ChosenIsListed(c, roots, owner, d, definition, q);
    NeverInside(c, RootEdges(roots), q);
  }

  lemma {:induction false} NeverInside(c: Config, es: seq<Edge>, q: seq<nat>)
    requires !c.templates && forall i :: 0 <= i < |es| ==> !es[i].template
    ensures forall e :: e in Along(c, es, q) ==> !e.template
    decreases |q|
  {
    if q != [] && q[0] < |es| {
      var d := es[q[0]].to;
      assert d in c.g ==> PatternKids(c, d) == [];
      NeverInside(c, Edges(c, d), q[1..]);
    }
  }

  // The entries behind two places of one list, in the same order.
  lemma {:induction false} Behind(log: seq<Entry>, k: Slot, a: nat, b: nat) returns (i: nat, j: nat)
    requires a < b < |Listed(log, k)|
    ensures i < j < |log| && log[i].decl == Listed(log, k)[a] && log[j].decl == Listed(log, k)[b]
  {
    var front, e := log[..|log| - 1], log[|log| - 1];
    if b < |Listed(front, k)| {
      i, j := Behind(front, k, a, b);
    } else {
      j := |log| - 1;
      assert Listed(front, k)[a] in Listed(front, k);
      ListedIff(front, k, Listed(front, k)[a]);
      i :| 0 <= i < |front| && front[i].decl == Listed(front, k)[a] && GoesTo(front[i], k);
    }
  }

  lemma NamedOnce(c: Config, log: seq<Entry>, k: Slot, a: nat, b: nat)
    requires NoChainTwice(c, log) && a < b < |Listed(log, k)|
    ensures Chain(c, Listed(log, k)[a]) != Chain(c, Listed(log, k)[b])
  {
    var i, j := Behind(log, k, a, b);
  }

  lemma DeclaredOrDefined(c: Config, log: seq<Entry>, template: bool, x: Id, y: Id)
    requires NoChainTwice(c, log)
    requires x in Listed(log, Slot(template, true)) && y in Listed(log, Slot(template, false))
    ensures Chain(c, x) != Chain(c, y)
  {
    ListedIff(log, Slot(template, true), x);
    ListedIff(log, Slot(template, false), y);
    var i :| 0 <= i < |log| && log[i].decl == x && GoesTo(log[i], Slot(template, true));
    var j :| 0 <= j < |log| && log[j].decl == y && GoesTo(log[j], Slot(template, false));
    assert i < j ==> Chain(c, log[i].decl) != Chain(c, log[j].decl);
    assert j < i ==> Chain(c, log[j].decl) != Chain(c, log[i].decl);
  }

  // Each list names a chain at most once, and no chain is both declared and defined.
  lemma ListsNameEachChainOnce(c: Config, roots: seq<Id>, k: Slot)
    requires Clean(c, roots)
    ensures var l := Listed(Build(c, roots).log, k);
            forall a, b :: 0 <= a < b < |l| ==> Chain(c, l[a]) != Chain(c, l[b])
    ensures var log := Build(c, roots).log;
            forall x, y :: x in Listed(log, Slot(k.template, true)) && y in Listed(log, Slot(k.template, false))
                           ==> Chain(c, x) != Chain(c, y)
  {
    VisitAllRecords(c, roots, NEW, roots, NO_FLAGS);
    var log := Build(c, roots).log;
    forall a, b | 0 <= a < b < |Listed(log, k)| ensures Chain(c, Listed(log, k)[a]) != Chain(c, Listed(log, k)[b]) {
      NamedOnce(c, log, k, a, b);
    }
    forall x, y | x in Listed(log, Slot(k.template, true)) && y in Listed(log, Slot(k.template, false))
      ensures Chain(c, x) != Chain(c, y)
    {
      DeclaredOrDefined(c, log, k.template, x, y);
    }
  }

  // ----- The order of two members of the translation unit may decide -----

  // A function template (1, with pattern 2) is declared again by a friend declaration (6) in a class
  // template (3, with pattern 4); that redeclaration (7, with pattern 8) shares its specialization (5).
  function FriendGraph(friendFirst: bool): map<Id, Node> {
    map[
      1 := Template(2, [5]),
      2 := Function(if friendFirst then Redecl(8, Some(8), None) else Redecl(2, None, None), false, false, true, []),
      3 := Template(4, []),
      4 := CxxRecord(Redecl(4, None, Some(4)), false, false, true, [6]),
      5 := Function(Redecl(5, None, None), false, false, false, []),
      6 := Friend(Some(7)),
      7 := Template(8, [5]),
      8 := Function(if friendFirst then Redecl(8, None, None) else Redecl(2, Some(2), None), false, false, true, [])]
  }

  // The class template is the first or the second member of the translation unit.
  ghost predicate Befriended(c: Config, roots: seq<Id>, friendFirst: bool) {
    && c.g == FriendGraph(friendFirst) && c.templates && (forall d :: c.filter(d).DEFINITION?)
    && roots == if friendFirst then [3, 1] else [1, 3]
  }

  lemma FriendEdges(c: Config, roots: seq<Id>, friendFirst: bool)
    requires Befriended(c, roots, friendFirst)
    ensures Edges(c, 1) == [Edge(2, true, false), Edge(5, false, true)]
    ensures Edges(c, 3) == [Edge(4, true, false)]
    ensures Edges(c, 4) == [Edge(6, false, false)]
    ensures Edges(c, 6) == [Edge(7, false, false)]
    ensures Edges(c, 7) == [Edge(8, true, false), Edge(5, false, true)]
    ensures Edges(c, 2) == [] && Edges(c, 5) == [] && Edges(c, 8) == []
  {
  }

  lemma KidIsEdge(c: Config, d: Id, k: Id)
    requires d in c.g && Kid(c, d, k)
    ensures exists i :: 0 <= i < |Edges(c, d)| && Edges(c, d)[i].to == k
  {
    var ps, rs := PatternKids(c, d), RestKids(c, d);
    if k in ps {
      var i :| 0 <= i < |ps| && ps[i] == k;
      assert Edges(c, d)[i].to == k;
    } else {
      var i :| 0 <= i < |rs| && rs[i] == k;
      assert Edges(c, d)[|ps| + i].to == k;
    }
  }

  // The graph has the shape that the results above ask for.
  lemma FriendIsClean(c: Config, roots: seq<Id>, friendFirst: bool)
    requires Befriended(c, roots, friendFirst)
    ensures Clean(c, roots)
  {
    FriendIsWellFormed(c, roots, friendFirst);
    FriendIsLinked(c, roots, friendFirst);
    FriendHasNoEnumerators(c, roots, friendFirst);
  }

  lemma FriendIsWellFormed(c: Config, roots: seq<Id>, friendFirst: bool)
    requires Befriended(c, roots, friendFirst)
    ensures WellFormed(c, roots)
  {
    FriendKids(c, roots, friendFirst);
  }

  lemma FriendHasNoEnumerators(c: Config, roots: seq<Id>, friendFirst: bool)
    requires Befriended(c, roots, friendFirst)
    ensures EnumeratorsOwned(c, roots)
  {
    FriendKids(c, roots, friendFirst);
    assert forall d :: d in c.g ==> !c.g[d].Enum? && !c.g[d].EnumConstant?;
  }

  lemma FriendKids(c: Config, roots: seq<Id>, friendFirst: bool)
    requires Befriended(c, roots, friendFirst)
    ensures forall d, k :: d in c.g && Kid(c, d, k) ==> k in [2, 4, 5, 6, 7, 8]
  {
    FriendEdges(c, roots, friendFirst);
    forall d, k | d in c.g && Kid(c, d, k) ensures k in [2, 4, 5, 6, 7, 8] {
      KidIsEdge(c, d, k);
    }
  }

  lemma FriendIsLinked(c: Config, roots: seq<Id>, friendFirst: bool)
    requires Befriended(c, roots, friendFirst)
    ensures Linked(c)
  {
    forall d, e | SameChain(c, d, e) ensures c.g[d].r.defn == c.g[e].r.defn {
      assert d in {2, 4, 5, 8} && e in {2, 4, 5, 8};
    }
  }

  // The second of two edges is the only way to where it leads.
  lemma SecondEdge(c: Config, es: seq<Edge>, avoid: set<Id>, x: Id) returns (q: seq<nat>)
    requires |es| == 2 && es[1].to == x && x !in avoid && es[0].to != x && Edges(c, es[0].to) == []
    ensures LeastRoute(c, es, avoid, q, x) && Along(c, es, q) == [es[1]]
  {
    q := [1];
    assert q[1..] == [];
  }

  // A first edge that leads on is on the least route.
  lemma FirstEdge(c: Config, es: seq<Edge>, avoid: set<Id>, q: seq<nat>, x: Id)
    requires es != [] && es[0].to !in avoid && LeastRoute(c, Edges(c, es[0].to), avoid + {es[0].to}, q, x)
    ensures LeastRoute(c, es, avoid, [0] + q, x)
    ensures Along(c, es, [0] + q) == [es[0]] + Along(c, Edges(c, es[0].to), q)
  {
    var d, q' := es[0].to, [0] + q;
    RouteAvoids(c, Edges(c, d), avoid + {d}, q, x);
    assert q'[1..] == q;
    forall p | Route(c, es, avoid, p, x) ensures Before(q', p) {
      if p[0] == 0 {
        assert Route(c, Edges(c, d), avoid + {d}, p[1..], x);
      }
    }
  }

  lemma TemplateFirst(c: Config, roots: seq<Id>) returns (q: seq<nat>)
    requires Befriended(c, roots, true)
    ensures Leads(c, roots, q, 5) && GoesInside(c, roots, q)
  {
    FriendEdges(c, roots, true);
    assert {3, 4, 6} + {7} == {3, 4, 6, 7} && {3, 4} + {6} == {3, 4, 6} && {3} + {4} == {3, 4} && {} + {3} == {3};
    var p := SecondEdge(c, Edges(c, 7), {3, 4, 6, 7}, 5);
    FirstEdge(c, Edges(c, 6), {3, 4, 6}, p, 5);
    FirstEdge(c, Edges(c, 4), {3, 4}, [0] + p, 5);
    FirstEdge(c, Edges(c, 3), {3}, [0] + ([0] + p), 5);
    q := [0] + ([0] + ([0] + p));
    FirstEdge(c, RootEdges(roots), {}, q, 5);
    var along := Along(c, Edges(c, 3), q);
    assert along[0] == Edge(4, true, false);
    assert Edge(4, true, false) in [RootEdges(roots)[0]] + along;
    q := [0] + q;
  }

  lemma FunctionFirst(c: Config, roots: seq<Id>) returns (q: seq<nat>)
    requires Befriended(c, roots, false)
    ensures Leads(c, roots, q, 5) && !GoesInside(c, roots, q)
  {
    FriendEdges(c, roots, false);
    assert {} + {1} == {1};
    q := SecondEdge(c, Edges(c, 1), {1}, 5);
    FirstEdge(c, RootEdges(roots), {}, q, 5);
    q := [0] + q;
  }

  // By the function template there is always a route that avoids every pattern.
  lemma ByTheFunction(c: Config, roots: seq<Id>, friendFirst: bool) returns (q: seq<nat>)
    requires Befriended(c, roots, friendFirst)
    ensures Route(c, RootEdges(roots), {}, q, 5) && !GoesInside(c, roots, q)
  {
    FriendEdges(c, roots, friendFirst);
    var p := ToSpecialization(c, roots, friendFirst);
    q := [if friendFirst then 1 else 0] + p;
    assert q[1..] == p && {} + {1} == {1};
    assert RootEdges(roots)[q[0]] == Edge(1, false, false);
  }

  lemma ToSpecialization(c: Config, roots: seq<Id>, friendFirst: bool) returns (p: seq<nat>)
    requires Befriended(c, roots, friendFirst)
    ensures Route(c, Edges(c, 1), {1}, p, 5) && Along(c, Edges(c, 1), p) == [Edge(5, false, true)]
  {
    FriendEdges(c, roots, friendFirst);
    p := [1];
    assert p[1..] == [];
  }

  // If the class template comes first, the specialization is in no plain list, although that route
  // leads to it; if the function template comes first, it is.
  lemma FirstVisitDecides(c: Config, roots: seq<Id>, friendFirst: bool) returns (q: seq<nat>)
    requires Befriended(c, roots, friendFirst)
    ensures Clean(c, roots) && Add(5, false) in Adds(c, 5)
    ensures Route(c, RootEdges(roots), {}, q, 5) && !GoesInside(c, roots, q)
    ensures 5 in Listed(Build(c, roots).log, Slot(false, false)) <==> !friendFirst
  {
    FriendIsClean(c, roots, friendFirst);
    q := ByTheFunction(c, roots, friendFirst);
    assert Adds(c, 5) == [Add(5, false)];
    var least: seq<nat>;
    if friendFirst {
      least := TemplateFirst(c, roots);
    } else {
      least := FunctionFirst(c, roots);
    }
    ChosenIsListed(c, roots, 5, 5, false, least);
  }
}
