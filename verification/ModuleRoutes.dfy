/**
 * By which route the module builder comes to a declaration: of all simple routes from the translation
 * unit the one that is least in the order of the visit edges, and its edges give the flags.
 */
module ModuleRoutes {
  import opened ModuleBuilding
  import opened Sequences

  // ----- Visit edges in order, and routes along them -----

  // template: into the pattern of a template; specialization: into a specialization of one
  datatype Edge = Edge(to: Id, template: bool, specialization: bool)

  function EdgesTo(ds: seq<Id>, template: bool, specialization: bool): (es: seq<Edge>)
    ensures |es| == |ds| && forall i :: 0 <= i < |ds| ==> es[i] == Edge(ds[i], template, specialization)
  {
    seq(|ds|, i requires 0 <= i < |ds| => Edge(ds[i], template, specialization))
  }

  function Edges(c: Config, d: Id): seq<Edge> {
    if d !in c.g then []
    else EdgesTo(PatternKids(c, d), true, false) + EdgesTo(RestKids(c, d), false, c.g[d].Template?)
  }

  function RootEdges(roots: seq<Id>): seq<Edge> {
    EdgesTo(roots, false, false)
  }

  // A route gives the place of each of its edges among those of the declaration it has come to. It
  // does not come to a declaration twice, nor to one in avoid.
  predicate Route(c: Config, es: seq<Edge>, avoid: set<Id>, q: seq<nat>, x: Id)
    decreases |q|
  {
    && q != [] && q[0] < |es|
    && var d := es[q[0]].to;
       d !in avoid && if |q| == 1 then d == x else Route(c, Edges(c, d), avoid + {d}, q[1..], x)
  }

  // The edges of a route.
  function Along(c: Config, es: seq<Edge>, q: seq<nat>): seq<Edge>
    decreases |q|
  {
    if q == [] || q[0] >= |es| then [] else [es[q[0]]] + Along(c, Edges(c, es[q[0]].to), q[1..])
  }

  function Through(f: Flags, e: Edge): Flags {
    Flags(f.inTemplate || e.template, f.inSpecialization || e.specialization)
  }

  function FlagsAfter(f: Flags, es: seq<Edge>): Flags
    decreases es
  {
    if es == [] then f else FlagsAfter(Through(f, es[0]), es[1..])
  }

  // Flags only grow, and a flag is set after the route exactly if it was before or some edge sets it.
  lemma {:induction false} FlagsOfEdges(f: Flags, es: seq<Edge>)
    ensures f.Below(FlagsAfter(f, es))
    ensures FlagsAfter(f, es).inTemplate <==> f.inTemplate || exists e :: e in es && e.template
    ensures FlagsAfter(f, es).inSpecialization <==> f.inSpecialization || exists e :: e in es && e.specialization
    decreases es
  {
    if es != [] {
      FlagsOfEdges(Through(f, es[0]), es[1..]);
      assert forall e :: e in es <==> e == es[0] || e in es[1..];
    }
  }

  // The order in which a traversal tries routes.
  predicate Before(a: seq<nat>, b: seq<nat>)
    decreases |a|
  {
    a == [] || (b != [] && (a[0] < b[0] || (a[0] == b[0] && Before(a[1..], b[1..]))))
  }

  lemma {:induction false} BeforeBoth(a: seq<nat>, b: seq<nat>)
    requires Before(a, b) && Before(b, a)
    ensures a == b
    decreases |a|
  {
    if a != [] {
      BeforeBoth(a[1..], b[1..]);
      assert a == [a[0]] + a[1..] && b == [b[0]] + b[1..];
    }
  }

  ghost predicate LeastRoute(c: Config, es: seq<Edge>, avoid: set<Id>, q: seq<nat>, x: Id) {
    Route(c, es, avoid, q, x) && forall p :: Route(c, es, avoid, p, x) ==> Before(q, p)
  }

  lemma OneLeastRoute(c: Config, es: seq<Edge>, avoid: set<Id>, p: seq<nat>, q: seq<nat>, x: Id)
    requires LeastRoute(c, es, avoid, p, x) && LeastRoute(c, es, avoid, q, x)
    ensures p == q
  {
    BeforeBoth(p, q);
  }

  // ----- What routes avoid -----

  lemma {:induction false} RouteAvoids(c: Config, es: seq<Edge>, avoid: set<Id>, q: seq<nat>, x: Id)
    requires Route(c, es, avoid, q, x)
    ensures x !in avoid
    decreases |q|
  {
    if |q| > 1 {
      var d := es[q[0]].to;
      RouteAvoids(c, Edges(c, d), avoid + {d}, q[1..], x);
    }
  }

  lemma {:induction false} AvoidLess(c: Config, es: seq<Edge>, less: set<Id>, more: set<Id>, q: seq<nat>, x: Id)
    requires less <= more && Route(c, es, more, q, x)
    ensures Route(c, es, less, q, x)
    decreases |q|
  {
    if |q| > 1 {
      var d := es[q[0]].to;
      AvoidLess(c, Edges(c, d), less + {d}, more + {d}, q[1..], x);
    }
  }

  // Whatever is in w but not in avoid has its successors in w.
  ghost predicate ClosedOutside(c: Config, avoid: set<Id>, w: set<Id>) {
    forall d, k :: d in w && d !in avoid && d in c.g && Kid(c, d, k) ==> k in w
  }

  lemma EdgeIsKid(c: Config, d: Id, i: nat)
    requires i < |Edges(c, d)|
    ensures d in c.g && Kid(c, d, Edges(c, d)[i].to)
  {
    var ps := PatternKids(c, d);
    if i < |ps| {
      assert Edges(c, d)[i].to == ps[i];
    } else {
      assert Edges(c, d)[i].to == RestKids(c, d)[i - |ps|];
    }
  }

  // A route that starts in w stays there.
  lemma {:induction false} RouteStays(c: Config, es: seq<Edge>, avoid: set<Id>, w: set<Id>, q: seq<nat>, x: Id)
    requires Route(c, es, avoid, q, x) && ClosedOutside(c, avoid, w) && es[q[0]].to in w
    ensures x in w
    decreases |q|
  {
    if |q| > 1 {
      var d := es[q[0]].to;
      EdgeIsKid(c, d, q[1]);
      assert q[1..][0] == q[1];
      RouteStays(c, Edges(c, d), avoid + {d}, w, q[1..], x);
    }
  }

  // So a route to a declaration outside w never meets w.
  lemma {:induction false} AvoidMore(c: Config, es: seq<Edge>, avoid: set<Id>, w: set<Id>, q: seq<nat>, x: Id)
    requires Route(c, es, avoid, q, x) && avoid <= w && ClosedOutside(c, avoid, w) && x !in w
    ensures Route(c, es, w, q, x)
    decreases |q|
  {
    var d := es[q[0]].to;
    if d in w {
      RouteStays(c, es, avoid, w, q, x);
    }
    if |q| > 1 {
      RouteAvoids(c, Edges(c, d), avoid + {d}, q[1..], x);
      AvoidMore(c, Edges(c, d), avoid + {d}, w + {d}, q[1..], x);
    }
  }

  // ----- The traversal along edges -----

  predicate Within(c: Config, es: seq<Edge>) {
    forall i :: 0 <= i < |es| ==> es[i].to in c.g
  }

  function VisitEdges(c: Config, roots: seq<Id>, st: State, es: seq<Edge>, f: Flags): (r: State)
    requires WellFormed(c, roots) && Within(c, es)
    ensures st.visited <= r.visited && forall i :: 0 <= i < |es| ==> es[i].to in r.visited
  {
    if es == [] then st
    else
      var e := es[|es| - 1];
      Visit(c, roots, VisitEdges(c, roots, st, es[..|es| - 1], f), e.to, Through(f, e))
  }

  lemma {:induction false} VisitEdgesAppend(
      c: Config, roots: seq<Id>, st: State, a: seq<Edge>, b: seq<Edge>, f: Flags)
    requires WellFormed(c, roots) && Within(c, a) && Within(c, b)
    ensures Within(c, a + b)
    ensures VisitEdges(c, roots, st, a + b, f) == VisitEdges(c, roots, VisitEdges(c, roots, st, a, f), b, f)
    decreases |b|
  {
    if b == [] {
      Nil(a);
    } else {
      var front := b[..|b| - 1];
      assert (a + b)[..|a + b| - 1] == a + front;
      VisitEdgesAppend(c, roots, st, a, front, f);
    }
  }

  lemma {:induction false} VisitAllIsEdges(
      c: Config, roots: seq<Id>, st: State, ds: seq<Id>, template: bool, special: bool, f: Flags, g: Flags)
    requires WellFormed(c, roots) && forall d :: d in ds ==> d in c.g
    requires g == Flags(f.inTemplate || template, f.inSpecialization || special)
    ensures VisitAll(c, roots, st, ds, g) == VisitEdges(c, roots, st, EdgesTo(ds, template, special), f)
    decreases |ds|
  {
    if ds != [] {
      var front := ds[..|ds| - 1];
      var es := EdgesTo(ds, template, special);
      assert es[..|es| - 1] == EdgesTo(front, template, special);
      VisitAllIsEdges(c, roots, st, front, template, special, f, g);
    }
  }

  lemma KidsWithin(c: Config, roots: seq<Id>, d: Id)
    requires WellFormed(c, roots) && d in c.g
    ensures Within(c, Edges(c, d))
    ensures forall k :: k in PatternKids(c, d) ==> k in c.g
    ensures forall k :: k in RestKids(c, d) ==> k in c.g
  {
    assert forall k :: k in PatternKids(c, d) ==> Kid(c, d, k);
    assert forall k :: k in RestKids(c, d) ==> Kid(c, d, k);
  }

  // After a declaration its edges, in order.
  lemma VisitIsEdges(c: Config, roots: seq<Id>, st: State, d: Id, f: Flags)
    requires WellFormed(c, roots) && d in c.g && d !in st.visited
    ensures Within(c, Edges(c, d))
    ensures Visit(c, roots, st, d, f) == VisitEdges(c, roots, Enter(c, st, d, f), Edges(c, d), f)
  {
    var s1, n := Enter(c, st, d, f), c.g[d];
    var ps, rs := PatternKids(c, d), RestKids(c, d);
    KidsWithin(c, roots, d);
    var s2 := VisitAll(c, roots, s1, ps, f.SetTemplate());
    VisitAllIsEdges(c, roots, s1, ps, true, false, f, f.SetTemplate());
    VisitAllIsEdges(c, roots, s2, rs, false, n.Template?, f, RestFlags(n, f));
    VisitEdgesAppend(c, roots, s1, EdgesTo(ps, true, false), EdgesTo(rs, false, n.Template?), f);
  }

  lemma {:induction false} VisitEdgesCovers(c: Config, roots: seq<Id>, st: State, es: seq<Edge>, f: Flags)
    requires WellFormed(c, roots) && Within(c, es)
    ensures Covered(c, st, VisitEdges(c, roots, st, es, f))
    decreases |es|
  {
    if es != [] {
      var front, e := es[..|es| - 1], es[|es| - 1];
      VisitEdgesCovers(c, roots, st, front, f);
      VisitCovers(c, roots, VisitEdges(c, roots, st, front, f), e.to, Through(f, e));
    }
  }

  // ----- Every entry has the flags of the least route to its owner -----

  ghost predicate ByLeastRoute(c: Config, es: seq<Edge>, avoid: set<Id>, f: Flags, e: Entry) {
    exists q :: LeastRoute(c, es, avoid, q, e.owner) && FlagsAfter(f, Along(c, es, q)) == e.flags
  }

  // The entries that are new in r.
  ghost predicate NewByLeastRoute(c: Config, es: seq<Edge>, st: State, f: Flags, r: State) {
    && st.log <= r.log
    && forall i :: |st.log| <= i < |r.log| ==> ByLeastRoute(c, es, st.visited, f, r.log[i])
  }

  // Routes by the first edges come first, and a last edge adds only routes to what they do not reach.
  lemma FrontIsLeast(c: Config, es: seq<Edge>, avoid: set<Id>, f: Flags, e: Entry)
    requires es != [] && ByLeastRoute(c, es[..|es| - 1], avoid, f, e)
    ensures ByLeastRoute(c, es, avoid, f, e)
  {
    var front, x := es[..|es| - 1], e.owner;
    var q :| LeastRoute(c, front, avoid, q, x) && FlagsAfter(f, Along(c, front, q)) == e.flags;
    assert Route(c, es, avoid, q, x) && Along(c, es, q) == Along(c, front, q);
    forall p | Route(c, es, avoid, p, x) ensures Before(q, p) {
      if p[0] < |front| {
        assert Route(c, front, avoid, p, x);
      }
    }
    assert LeastRoute(c, es, avoid, q, x);
  }

  lemma LastIsLeast(c: Config, es: seq<Edge>, avoid: set<Id>, w: set<Id>, f: Flags, e: Entry)
    requires es != [] && avoid <= w && ClosedOutside(c, avoid, w)
    requires forall i :: 0 <= i < |es| - 1 ==> es[i].to in w
    requires ByLeastRoute(c, [Edge(es[|es| - 1].to, false, false)], w, Through(f, es[|es| - 1]), e)
    ensures ByLeastRoute(c, es, avoid, f, e)
  {
    var n, x := |es| - 1, e.owner;
    var one := [Edge(es[n].to, false, false)];
    var q :| LeastRoute(c, one, w, q, x) && FlagsAfter(Through(f, es[n]), Along(c, one, q)) == e.flags;
    LastRoute(c, es, avoid, w, q, x);
    LastFlags(c, es, f, q);
  }

  lemma LastRoute(c: Config, es: seq<Edge>, avoid: set<Id>, w: set<Id>, q: seq<nat>, x: Id)
    requires es != [] && avoid <= w && ClosedOutside(c, avoid, w)
    requires forall i :: 0 <= i < |es| - 1 ==> es[i].to in w
    requires LeastRoute(c, [Edge(es[|es| - 1].to, false, false)], w, q, x)
    ensures LeastRoute(c, es, avoid, [|es| - 1] + q[1..], x)
  {
    var n := |es| - 1;
    var one, q' := [Edge(es[n].to, false, false)], [n] + q[1..];
    RouteAvoids(c, one, w, q, x);
    FromPlace(c, one, es, w, q, q', x);
    AvoidLess(c, es, avoid, w, q', x);
    forall p | Route(c, es, avoid, p, x) ensures Before(q', p) {
      LastOnly(c, es, avoid, w, p, x);
      var p' := [0] + p[1..];
      FromPlace(c, es, one, w, p, p', x);
      assert Before(q, p');
      assert p'[1..] == p[1..] && q'[1..] == q[1..];
    }
  }

  // The same route, from another list of edges.
  lemma FromPlace(c: Config, a: seq<Edge>, b: seq<Edge>, avoid: set<Id>, p: seq<nat>, q: seq<nat>, x: Id)
    requires Route(c, a, avoid, p, x) && q != [] && q[0] < |b| && b[q[0]].to == a[p[0]].to
    requires q == [q[0]] + p[1..]
    ensures Route(c, b, avoid, q, x)
  {
    assert q[1..] == p[1..];
  }

  lemma LastFlags(c: Config, es: seq<Edge>, f: Flags, q: seq<nat>)
    requires es != [] && q != [] && q[0] == 0
    ensures var n := |es| - 1;
            FlagsAfter(f, Along(c, es, [n] + q[1..]))
            == FlagsAfter(Through(f, es[n]), Along(c, [Edge(es[n].to, false, false)], q))
  {
    var n := |es| - 1;
    var rest := Along(c, Edges(c, es[n].to), q[1..]);
    var bare := Edge(es[n].to, false, false);
    assert ([n] + q[1..])[1..] == q[1..];
    Tail(es[n], rest);
    Tail(bare, rest);
    assert Through(Through(f, es[n]), bare) == Through(f, es[n]);
  }

  // A route to a declaration outside w takes the last edge.
  lemma LastOnly(c: Config, es: seq<Edge>, avoid: set<Id>, w: set<Id>, p: seq<nat>, x: Id)
    requires es != [] && avoid <= w && ClosedOutside(c, avoid, w) && x !in w
    requires forall i :: 0 <= i < |es| - 1 ==> es[i].to in w
    requires Route(c, es, avoid, p, x)
    ensures p[0] == |es| - 1 && Route(c, es, w, p, x)
  {
    if p[0] < |es| - 1 {
      RouteStays(c, es, avoid, w, p, x);
    }
    AvoidMore(c, es, avoid, w, p, x);
  }

  lemma {:induction false} VisitTakesLeastRoutes(c: Config, roots: seq<Id>, st: State, d: Id, f: Flags)
    requires WellFormed(c, roots) && d in c.g
    ensures NewByLeastRoute(c, [Edge(d, false, false)], st, f, Visit(c, roots, st, d, f))
    decreases |Left(c, st)|, 0
  {
    if d !in st.visited {
      var s1, r := Enter(c, st, d, f), Visit(c, roots, st, d, f);
      VisitIsEdges(c, roots, st, d, f);
      EnterShrinks(c, st, d, f);
      EdgesTakeLeastRoutes(c, roots, s1, Edges(c, d), f);
      forall i | |st.log| <= i < |r.log| ensures ByLeastRoute(c, [Edge(d, false, false)], st.visited, f, r.log[i]) {
        if i < |s1.log| {
          assert r.log[i] == s1.log[i];
          OwnRoute(c, d, st.visited, f, r.log[i]);
        } else {
          LongerRoute(c, d, st.visited, f, r.log[i]);
        }
      }
    }
  }

  // To the declaration itself there is one route.
  lemma OwnRoute(c: Config, d: Id, avoid: set<Id>, f: Flags, e: Entry)
    requires d !in avoid && e.owner == d && e.flags == f
    ensures ByLeastRoute(c, [Edge(d, false, false)], avoid, f, e)
  {
    var one, q := [Edge(d, false, false)], [0];
    assert q[1..] == [] && Route(c, one, avoid, q, d);
    assert Along(c, one, q) == one && one[1..] == [];
    assert FlagsAfter(f, one) == FlagsAfter(Through(f, one[0]), []) == f;
    assert LeastRoute(c, one, avoid, q, d);
  }

  // Other routes go on from it.
  lemma LongerRoute(c: Config, d: Id, avoid: set<Id>, f: Flags, e: Entry)
    requires d !in avoid && ByLeastRoute(c, Edges(c, d), avoid + {d}, f, e)
    ensures ByLeastRoute(c, [Edge(d, false, false)], avoid, f, e)
  {
    var one, x := [Edge(d, false, false)], e.owner;
    var q :| LeastRoute(c, Edges(c, d), avoid + {d}, q, x) && FlagsAfter(f, Along(c, Edges(c, d), q)) == e.flags;
    var q' := [0] + q;
    RouteAvoids(c, Edges(c, d), avoid + {d}, q, x);
    assert q'[1..] == q && Route(c, one, avoid, q', x);
    Tail(one[0], Along(c, Edges(c, d), q));
    assert Through(f, one[0]) == f;
    forall p | Route(c, one, avoid, p, x) ensures Before(q', p) {
      assert |p| > 1 && Route(c, Edges(c, d), avoid + {d}, p[1..], x);
    }
    assert LeastRoute(c, one, avoid, q', x);
  }

  lemma {:induction false} EdgesTakeLeastRoutes(c: Config, roots: seq<Id>, st: State, es: seq<Edge>, f: Flags)
    requires WellFormed(c, roots) && Within(c, es)
    ensures NewByLeastRoute(c, es, st, f, VisitEdges(c, roots, st, es, f))
    decreases |Left(c, st)|, 1 + |es|
  {
    if es != [] {
      var front, e := es[..|es| - 1], es[|es| - 1];
      var s1, r := VisitEdges(c, roots, st, front, f), VisitEdges(c, roots, st, es, f);
      EdgesTakeLeastRoutes(c, roots, st, front, f);
      VisitEdgesCovers(c, roots, st, front, f);
      GrowShrinks(c, st, s1);
      VisitTakesLeastRoutes(c, roots, s1, e.to, Through(f, e));
      forall i | |st.log| <= i < |r.log| ensures ByLeastRoute(c, es, st.visited, f, r.log[i]) {
        if i < |s1.log| {
          assert r.log[i] == s1.log[i];
          FrontIsLeast(c, es, st.visited, f, r.log[i]);
        } else {
          assert forall j :: 0 <= j < |front| ==> es[j] == front[j];
          LastIsLeast(c, es, st.visited, s1.visited, f, r.log[i]);
        }
      }
    }
  }

  // Every entry of a module carries the flags of the least simple route from the translation unit to
  // the declaration that added it.
  lemma BuildTakesLeastRoutes(c: Config, roots: seq<Id>, i: nat) returns (q: seq<nat>)
    requires WellFormed(c, roots) && i < |Build(c, roots).log|
    ensures var e := Build(c, roots).log[i];
            && LeastRoute(c, RootEdges(roots), {}, q, e.owner)
            && FlagsAfter(NO_FLAGS, Along(c, RootEdges(roots), q)) == e.flags
  {
    var es, e := RootEdges(roots), Build(c, roots).log[i];
    assert Within(c, es) by {
      assert forall j :: 0 <= j < |roots| ==> roots[j] in c.g;
    }
    VisitAllIsEdges(c, roots, NEW, roots, false, false, NO_FLAGS, NO_FLAGS);
    EdgesTakeLeastRoutes(c, roots, NEW, es, NO_FLAGS);
    assert ByLeastRoute(c, es, {}, NO_FLAGS, e);
    q :| LeastRoute(c, es, {}, q, e.owner) && FlagsAfter(NO_FLAGS, Along(c, es, q)) == e.flags;
  }
}
