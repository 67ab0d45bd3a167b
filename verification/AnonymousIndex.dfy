/**
 * Indices of anonymous declarations: counted from the first enclosing context that names print,
 * through the contexts that names ignore.
 */
module AnonymousIndices {
  datatype Kind =
    | TranslationUnit
    | Namespace
    | CxxRecord(lambda: bool, anonymousStruct: bool)
    | CRecord(anonymousStruct: bool)
    | Enum
    | Function
    | LinkageSpec
    | ExportOrExternC
    | OtherContext          // requires-expression bodies, deduction guides, unknown contexts
    | OtherNamed            // variables, typedefs, fields, ...
    | NotNamed              // static assertions, friends, empty declarations, ...

  datatype Decl = Decl(id: nat, kind: Kind, hasIdentifier: bool, members: seq<Decl>)

  datatype ContextKind = Global | Scope | Ignorable

  predicate IsContext(d: Decl) {
    !d.kind.OtherNamed? && !d.kind.NotNamed?
  }

  function ClassifyContext(d: Decl): ContextKind {
    match d.kind
    case TranslationUnit => Global
    case Namespace | CxxRecord(_, _) | CRecord(_) | Function | Enum => Scope
    case _ => Ignorable
  }

  predicate IsIgnorable(d: Decl) {
    IsContext(d) && ClassifyContext(d).Ignorable?
  }

  // isNamed: declarations with an identifier, except anonymous namespaces, structs and lambdas
  predicate IsNamed(d: Decl) {
    match d.kind
    case TranslationUnit | LinkageSpec | ExportOrExternC | NotNamed => false
    case CxxRecord(lambda, anon) => d.hasIdentifier && !lambda && !anon
    case CRecord(anon) => d.hasIdentifier && !anon
    case _ => d.hasIdentifier
  }

  predicate IsAnonymous(d: Decl) {
    !IsNamed(d)
  }

  // ----- The search -----

  datatype Search = Search(found: bool, acc: nat)

  // The recursion of getAnonymousIndex over one declaration of a context, then over the context.
  function SearchOne(d: Decl, target: nat, acc: nat): Search
    decreases d, 0
  {
    if d.id == target then Search(true, acc)
    else
      var s := if IsIgnorable(d) then SearchAll(d.members, target, acc) else Search(false, acc);
      if s.found then s else Search(false, s.acc + if IsAnonymous(d) then 1 else 0)
  }

  function SearchAll(ds: seq<Decl>, target: nat, acc: nat): Search
    decreases ds, 0
  {
    if ds == [] then Search(false, acc)
    else
      var s := SearchOne(ds[0], target, acc);
      if s.found then s else SearchAll(ds[1..], target, s.acc)
  }

  method GetAnonymousIndex(ctx: seq<Decl>, target: nat, start: nat) returns (found: bool, acc: nat)
    ensures Search(found, acc) == SearchAll(ctx, target, start)
    decreases ctx
  {
    acc := start;
    var i := 0;
    while i < |ctx|
      invariant 0 <= i <= |ctx|
      invariant SearchAll(ctx[i..], target, acc) == SearchAll(ctx, target, start)
    {
      var d := ctx[i];
      assert ctx[i..][0] == d && ctx[i..][1..] == ctx[i + 1..];
      if d.id == target {
        return true, acc;
      }
      if IsIgnorable(d) {
        found, acc := Descend(d, target, acc);
        if found {
          return;
        }
      }
      if IsAnonymous(d) {
        acc := acc + 1;
      }
      i := i + 1;
    }
    found := false;
  }

  method Descend(d: Decl, target: nat, start: nat) returns (found: bool, acc: nat)
    ensures Search(found, acc) == SearchAll(d.members, target, start)
    decreases d
  {
    found, acc := GetAnonymousIndex(d.members, target, start);
  }

  // ----- The flattened order -----

  // A declaration after what is inside it, if names ignore it.
  function Block(d: Decl): seq<Decl>
    decreases d, 0
  {
    (if IsIgnorable(d) then Flat(d.members) else []) + [d]
  }

  function Flat(ds: seq<Decl>): seq<Decl>
    decreases ds, 0
  {
    if ds == [] then [] else Block(ds[0]) + Flat(ds[1..])
  }

  function CountAnonymous(ds: seq<Decl>): nat {
    if ds == [] then 0 else (if IsAnonymous(ds[0]) then 1 else 0) + CountAnonymous(ds[1..])
  }

  ghost predicate UniqueIds(ds: seq<Decl>) {
    forall i, j :: 0 <= i < j < |ds| ==> ds[i].id != ds[j].id
  }

  ghost predicate Absent(ds: seq<Decl>, target: nat) {
    forall i :: 0 <= i < |ds| ==> ds[i].id != target
  }

  lemma {:induction false} CountAppend(a: seq<Decl>, b: seq<Decl>)
    ensures CountAnonymous(a + b) == CountAnonymous(a) + CountAnonymous(b)
  {
    if a == [] {
      assert a + b == b;
    } else {
      assert (a + b)[1..] == a[1..] + b;
      CountAppend(a[1..], b);
    }
  }

  // A search that finds nothing has counted the anonymous declarations of the flattened order.
  lemma {:induction false} MissOne(d: Decl, target: nat, acc: nat)
    requires Absent(Block(d), target)
    ensures SearchOne(d, target, acc) == Search(false, acc + CountAnonymous(Block(d)))
    decreases d, 0
  {
    var inner := if IsIgnorable(d) then Flat(d.members) else [];
    assert Block(d)[|inner|] == d;
    assert forall i :: 0 <= i < |inner| ==> inner[i] == Block(d)[i];
    if IsIgnorable(d) {
      MissAll(d.members, target, acc);
    }
    CountAppend(inner, [d]);
    assert [d][1..] == [];
  }

  lemma {:induction false} MissAll(ds: seq<Decl>, target: nat, acc: nat)
    requires Absent(Flat(ds), target)
    ensures SearchAll(ds, target, acc) == Search(false, acc + CountAnonymous(Flat(ds)))
    decreases ds, 0
  {
    if ds != [] {
      var a, b := Block(ds[0]), Flat(ds[1..]);
      assert forall i :: 0 <= i < |a| ==> a[i] == Flat(ds)[i];
      assert forall i :: 0 <= i < |b| ==> b[i] == Flat(ds)[|a| + i];
      MissOne(ds[0], target, acc);
      MissAll(ds[1..], target, acc + CountAnonymous(a));
      CountAppend(a, b);
    }
  }

  // Where the counting for the declaration at place i of the flattened order stops: before it, and
  // before what is inside it.
  function Start(flat: seq<Decl>, i: nat): int
    requires i < |flat|
  {
    i - (|Block(flat[i])| - 1)
  }

  // What a search for the declaration at place i has counted.
  predicate FoundAt(s: Search, flat: seq<Decl>, i: nat, acc: nat)
    requires i < |flat|
  {
    Start(flat, i) <= i && FoundBehind(s, flat, Start(flat, i), acc)
  }

  predicate FoundBehind(s: Search, flat: seq<Decl>, n: int, acc: nat) {
    0 <= n <= |flat| && s == Search(true, acc + CountAnonymous(flat[..n]))
  }

  lemma FoundLeft(s: Search, a: seq<Decl>, b: seq<Decl>, i: nat, acc: nat)
    requires i < |a| && FoundAt(s, a, i, acc)
    ensures FoundAt(s, a + b, i, acc)
  {
    assert (a + b)[i] == a[i];
    assert (a + b)[..Start(a, i)] == a[..Start(a, i)];
  }

  lemma FoundRight(s: Search, a: seq<Decl>, b: seq<Decl>, k: nat, acc: nat)
    requires k < |b| && FoundAt(s, b, k, acc + CountAnonymous(a))
    ensures FoundAt(s, a + b, |a| + k, acc)
  {
    StartRight(a, b, k);
    FoundBehindRight(s, a, b, Start(b, k), acc);
  }

  lemma FoundBehindRight(s: Search, a: seq<Decl>, b: seq<Decl>, n: int, acc: nat)
    requires FoundBehind(s, b, n, acc + CountAnonymous(a))
    ensures FoundBehind(s, a + b, |a| + n, acc)
  {
    CountRight(a, b, n);
  }

  lemma StartRight(a: seq<Decl>, b: seq<Decl>, k: nat)
    requires k < |b|
    ensures Start(a + b, |a| + k) == |a| + Start(b, k)
  {
    assert (a + b)[|a| + k] == b[k];
  }

  lemma CountRight(a: seq<Decl>, b: seq<Decl>, n: nat)
    requires n <= |b|
    ensures CountAnonymous((a + b)[..|a| + n]) == CountAnonymous(a) + CountAnonymous(b[..n])
  {
    assert (a + b)[..|a| + n] == a + b[..n];
    CountAppend(a, b[..n]);
  }

  lemma UniqueParts(a: seq<Decl>, b: seq<Decl>)
    requires UniqueIds(a + b)
    ensures UniqueIds(a) && UniqueIds(b) && forall k :: 0 <= k < |b| ==> Absent(a, b[k].id)
  {
    var flat := a + b;
    assert forall j :: 0 <= j < |a| ==> flat[j] == a[j];
    assert forall j :: 0 <= j < |b| ==> flat[|a| + j] == b[j];
  }

  lemma {:induction false} FindOne(d: Decl, i: nat, acc: nat)
    requires UniqueIds(Block(d)) && i < |Block(d)|
    ensures FoundAt(SearchOne(d, Block(d)[i].id, acc), Block(d), i, acc)
    decreases d, 1
  {
    var inner := if IsIgnorable(d) then Flat(d.members) else [];
    UniqueParts(inner, [d]);
    assert Block(d)[|inner|] == d;
    if i < |inner| {
      var s := SearchAll(d.members, inner[i].id, acc);
      FindAll(d.members, i, acc);
      FoundLeft(s, inner, [d], i, acc);
    }
  }

  lemma {:induction false} FindAll(ds: seq<Decl>, i: nat, acc: nat)
    requires UniqueIds(Flat(ds)) && i < |Flat(ds)|
    ensures FoundAt(SearchAll(ds, Flat(ds)[i].id, acc), Flat(ds), i, acc)
    decreases ds, 0
  {
    var a: seq<Decl>, b: seq<Decl> := Block(ds[0]), Flat(ds[1..]);
    var target := (a + b)[i].id;
    UniqueParts(a, b);
    if i < |a| {
      FindOne(ds[0], i, acc);
      FoundLeft(SearchOne(ds[0], target, acc), a, b, i, acc);
    } else {
      var k, n := i - |a|, acc + CountAnonymous(a);
      assert target == b[k].id;
      MissOne(ds[0], target, acc);
      FindAll(ds[1..], k, n);
      FoundRight(SearchAll(ds[1..], target, n), a, b, k, acc);
    }
  }

  // ----- The main results -----

  function IndexOf(ctx: seq<Decl>, d: Decl): nat {
    SearchAll(ctx, d.id, 0).acc
  }

  // The search finds every declaration of the flattened order, and the index of one that names print
  // is the number of anonymous declarations before it.
  lemma IndexCounts(ctx: seq<Decl>, i: nat)
    requires UniqueIds(Flat(ctx)) && i < |Flat(ctx)|
    ensures SearchAll(ctx, Flat(ctx)[i].id, 0).found
    ensures !IsIgnorable(Flat(ctx)[i]) ==> IndexOf(ctx, Flat(ctx)[i]) == CountAnonymous(Flat(ctx)[..i])
  {
    FindAll(ctx, i, 0);
  }

  // Among anonymous declarations that names print, indices strictly increase in the flattened order.
  lemma IndicesIncrease(ctx: seq<Decl>, i: nat, j: nat)
    requires UniqueIds(Flat(ctx)) && i < j < |Flat(ctx)|
    requires !IsIgnorable(Flat(ctx)[i]) && !IsIgnorable(Flat(ctx)[j]) && IsAnonymous(Flat(ctx)[i])
    ensures IndexOf(ctx, Flat(ctx)[i]) < IndexOf(ctx, Flat(ctx)[j])
  {
    var flat := Flat(ctx);
    IndexCounts(ctx, i);
    IndexCounts(ctx, j);
    assert flat[..j] == flat[..i] + flat[i..j];
    CountAppend(flat[..i], flat[i..j]);
  }

  lemma {:induction false} SearchAppend(ds: seq<Decl>, later: seq<Decl>, target: nat, acc: nat)
    ensures SearchAll(ds + later, target, acc)
            == var s := SearchAll(ds, target, acc); if s.found then s else SearchAll(later, target, s.acc)
    decreases ds
  {
    if ds == [] {
      assert ds + later == later;
    } else {
      assert (ds + later)[1..] == ds[1..] + later;
      SearchAppend(ds[1..], later, target, SearchOne(ds[0], target, acc).acc);
    }
  }

  // Declarations added later to the context change no earlier index.
  lemma IndicesAreStable(ctx: seq<Decl>, later: seq<Decl>, i: nat)
    requires UniqueIds(Flat(ctx)) && i < |Flat(ctx)|
    ensures IndexOf(ctx + later, Flat(ctx)[i]) == IndexOf(ctx, Flat(ctx)[i])
  {
    FindAll(ctx, i, 0);
    SearchAppend(ctx, later, Flat(ctx)[i].id, 0);
  }

  // An ignorable context as the subject: its index is its place in the order exactly when nothing
  // anonymous is inside it; otherwise it is the index that counting starts with inside it.
  lemma IgnorableSubject(ctx: seq<Decl>, i: nat)
    requires UniqueIds(Flat(ctx)) && i < |Flat(ctx)| && IsIgnorable(Flat(ctx)[i])
    ensures var d := Flat(ctx)[i];
            IndexOf(ctx, d) == CountAnonymous(Flat(ctx)[..i]) <==> CountAnonymous(Flat(d.members)) == 0
  {
    var flat := Flat(ctx);
    FindAll(ctx, i, 0);
    var s := Start(flat, i);
    InsideBefore(ctx, i);
    assert flat[..i] == flat[..s] + flat[s..i];
    CountAppend(flat[..s], flat[s..i]);
  }

  // A linkage specification with an anonymous structure inside: it comes second, and gets index 0.
  lemma SubjectOfLinkageSpec() returns (ctx: seq<Decl>)
    ensures UniqueIds(Flat(ctx)) && |Flat(ctx)| == 2 && IsIgnorable(Flat(ctx)[1])
    ensures CountAnonymous(Flat(ctx)[..1]) == 1 && IndexOf(ctx, Flat(ctx)[1]) == 0
  {
    var inner := Decl(1, CxxRecord(false, true), false, []);
    var outer := Decl(2, LinkageSpec, false, [inner]);
    ctx := [outer];
    assert ctx[1..] == [] && [inner][1..] == [];
    assert Block(inner) == [inner] && Flat([inner]) == Block(inner) + Flat([]);
    assert Block(outer) == [inner, outer] && Flat(ctx) == Block(outer) + Flat([]);
    assert Flat(ctx) == [inner, outer];
    assert Flat(ctx)[..1] == [inner] && CountAnonymous([inner]) == 1;
    assert SearchOne(outer, 2, 0) == Search(true, 0);
  }

  // What is inside an ignorable context stands right before it.
  lemma {:induction false} InsideBefore(ds: seq<Decl>, i: nat)
    requires i < |Flat(ds)| && IsIgnorable(Flat(ds)[i])
    ensures 0 <= Start(Flat(ds), i) <= i && Flat(ds)[Start(Flat(ds), i)..i] == Flat(Flat(ds)[i].members)
    decreases ds, 0
  {
    var flat, a, b := Flat(ds), Block(ds[0]), Flat(ds[1..]);
    if i < |a| {
      InsideBlock(ds[0], i);
      assert flat[i] == a[i] && flat[Start(flat, i)..i] == a[Start(a, i)..i];
    } else {
      var k := i - |a|;
      assert flat[i] == b[k];
      InsideBefore(ds[1..], k);
      assert flat[Start(flat, i)..i] == b[Start(b, k)..k];
    }
  }

  lemma {:induction false} InsideBlock(d: Decl, i: nat)
    requires i < |Block(d)| && IsIgnorable(Block(d)[i])
    ensures 0 <= Start(Block(d), i) <= i && Block(d)[Start(Block(d), i)..i] == Flat(Block(d)[i].members)
    decreases d, 1
  {
    var flat := Block(d);
    if i < |flat| - 1 {
      var inner := Flat(d.members);
      assert flat[i] == inner[i];
      InsideBefore(d.members, i);
      assert flat[Start(flat, i)..i] == inner[Start(inner, i)..i];
    } else {
      assert flat[i] == d && flat[..i] == Flat(d.members);
    }
  }

  // ----- Which declarations get numbers of their own -----

  // Contexts that names do not print.
  predicate Suppressed(k: Kind) {
    k.LinkageSpec? || k.ExportOrExternC? || k.OtherContext?
  }

  // Enumerations, structures, namespaces and functions that have no identifier, lambdas and anonymous
  // structures whether they have one or not; and whatever cannot have one.
  predicate Nameless(d: Decl) {
    match d.kind
    case Enum | Namespace | Function | OtherContext | OtherNamed => !d.hasIdentifier
    case CRecord(anonymousStruct) => anonymousStruct || !d.hasIdentifier
    case CxxRecord(lambda, anonymousStruct) => lambda || anonymousStruct || !d.hasIdentifier
    case TranslationUnit | LinkageSpec | ExportOrExternC | NotNamed => true
  }

  // Inside contexts that names do not print, from the list ctx inwards.
  ghost predicate IsNest(ctx: seq<Decl>, nest: seq<Decl>, d: Decl) {
    && nest != [] && nest[0] in ctx && nest[|nest| - 1] == d
    && forall k :: 0 <= k < |nest| - 1 ==> Suppressed(nest[k].kind) && nest[k + 1] in nest[k].members
  }

  lemma {:induction false} NestIsFlat(ctx: seq<Decl>, nest: seq<Decl>, d: Decl) returns (i: nat)
    requires IsNest(ctx, nest, d)
    ensures i < |Flat(ctx)| && Flat(ctx)[i] == d
    decreases |nest|
  {
    MemberInFlat(ctx, nest[0]);
    if |nest| > 1 {
      var outer := nest[0];
      assert Suppressed(outer.kind) && nest[0 + 1] in outer.members;
      var inner := nest[1..];
      forall k | 0 <= k < |inner| - 1 ensures Suppressed(inner[k].kind) && inner[k + 1] in inner[k].members {
        assert Suppressed(nest[k + 1].kind) && nest[k + 1 + 1] in nest[k + 1].members;
      }
      var j := NestIsFlat(outer.members, inner, d);
      assert Flat(outer.members)[j] in Flat(ctx);
    }
    i :| 0 <= i < |Flat(ctx)| && Flat(ctx)[i] == d;
  }

  // Two nameless declarations that names print, whatever suppressed contexts they are in, differ in
  // their indices; so two unnamed structures, enumerations or lambdas of one ancestor differ in name.
  lemma NamelessDiffer(ctx: seq<Decl>, nest: seq<Decl>, other: seq<Decl>, d: Decl, e: Decl)
    requires UniqueIds(Flat(ctx)) && IsNest(ctx, nest, d) && IsNest(ctx, other, e) && d.id != e.id
    requires Nameless(d) && Nameless(e) && !Suppressed(d.kind) && !Suppressed(e.kind)
    ensures IndexOf(ctx, d) != IndexOf(ctx, e)
  {
    var i := NestIsFlat(ctx, nest, d);
    var j := NestIsFlat(ctx, other, e);
    if i < j {
      IndicesIncrease(ctx, i, j);
    } else if j < i {
      IndicesIncrease(ctx, j, i);
    }
  }

  lemma {:induction false} SearchShifts(ds: seq<Decl>, target: nat, acc: nat, more: nat)
    ensures var s := SearchAll(ds, target, acc);
            SearchAll(ds, target, acc + more) == Search(s.found, s.acc + more)
    decreases ds, 0
  {
    if ds != [] {
      SearchOneShifts(ds[0], target, acc, more);
      SearchShifts(ds[1..], target, SearchOne(ds[0], target, acc).acc, more);
    }
  }

  lemma {:induction false} SearchOneShifts(d: Decl, target: nat, acc: nat, more: nat)
    ensures var s := SearchOne(d, target, acc);
            SearchOne(d, target, acc + more) == Search(s.found, s.acc + more)
    decreases d, 1
  {
    if IsIgnorable(d) {
      SearchShifts(d.members, target, acc, more);
    }
  }

  // A declaration in front shifts every later index: by what is inside it, if names do not print it,
  // and by one more if it is nameless.
  lemma InFront(d: Decl, ctx: seq<Decl>, x: nat)
    requires d.id != x && (Suppressed(d.kind) ==> !SearchAll(d.members, x, 0).found)
    ensures var before := if Suppressed(d.kind) then SearchAll(d.members, x, 0).acc else 0;
            SearchAll([d] + ctx, x, 0).acc == SearchAll(ctx, x, 0).acc + before + if Nameless(d) then 1 else 0
  {
    assert ([d] + ctx)[1..] == ctx;
    SearchShifts(ctx, x, 0, SearchOne(d, x, 0).acc);
  }

  // ----- From the first ancestor that names print, the search succeeds -----

  predicate Encloses(outer: Decl, d: Decl) {
    d in outer.members
  }

  // The contexts around a declaration, from the translation unit inwards.
  ghost predicate IsChain(chain: seq<Decl>, d: Decl) {
    && chain != [] && chain[0].kind.TranslationUnit?
    && (forall k :: 1 <= k < |chain| ==> Encloses(chain[k - 1], chain[k]))
    && Encloses(chain[|chain| - 1], d)
  }

  // getNonIgnorableAncestor, as a place in the chain
  function Ancestor(chain: seq<Decl>): (k: nat)
    requires chain != [] && chain[0].kind.TranslationUnit?
    ensures k < |chain| && !IsIgnorable(chain[k]) && forall j :: k < j < |chain| ==> IsIgnorable(chain[j])
  {
    if IsIgnorable(chain[|chain| - 1]) then Ancestor(chain[..|chain| - 1]) else |chain| - 1
  }

  lemma {:induction false} MemberInFlat(ds: seq<Decl>, d: Decl)
    requires d in ds
    ensures d in Flat(ds) && (IsIgnorable(d) ==> forall x :: x in Flat(d.members) ==> x in Flat(ds))
  {
    if d == ds[0] {
      assert Block(d)[|Block(d)| - 1] == d;
      assert Flat(ds) == Block(ds[0]) + Flat(ds[1..]);
    } else {
      MemberInFlat(ds[1..], d);
    }
  }

  lemma {:induction false} ThroughIgnorable(chain: seq<Decl>, d: Decl, k: nat)
    requires k < |chain| && Encloses(chain[|chain| - 1], d)
    requires forall j :: k < j < |chain| ==> Encloses(chain[j - 1], chain[j])
    requires forall j :: k < j < |chain| ==> IsIgnorable(chain[j])
    ensures d in Flat(chain[k].members)
    decreases |chain| - k
  {
    if k == |chain| - 1 {
      MemberInFlat(chain[k].members, d);
    } else {
      ThroughIgnorable(chain, d, k + 1);
      MemberInFlat(chain[k].members, chain[k + 1]);
    }
  }

  lemma SearchSucceeds(chain: seq<Decl>, d: Decl)
    requires IsChain(chain, d) && UniqueIds(Flat(chain[Ancestor(chain)].members))
    ensures SearchAll(chain[Ancestor(chain)].members, d.id, 0).found
  {
    var k := Ancestor(chain);
    ThroughIgnorable(chain, d, k);
    var flat := Flat(chain[k].members);
    var i :| 0 <= i < |flat| && flat[i] == d;
    IndexCounts(chain[k].members, i);
  }
}
