/**
 * The span tree of the log viewer: counters kept up to date, along parent pointers, as spans are
 * deleted and used again. They are compared with a recount of the tree.
 */
module SpanCounting {
  import opened Sequences

  datatype Counts = Counts(events: int, large: int)

  datatype Measure = Events | Large

  function Of(c: Counts, m: Measure): int {
    if m.Events? then c.events else c.large
  }

  // One element of the JSON array of a span.
  datatype Item = Event(large: bool) | SubSpan(name: string, items: seq<Item>) | Unknown

  datatype Tree = Tree(name: string, own: Counts, deleted: bool, count: Counts, kids: seq<Tree>)

  // ----- What the constructor builds -----

  function Weight(large: bool, m: Measure): int {
    if m.Events? || large then 1 else 0
  }

  function AddOwn(x: int, items: seq<Item>, m: Measure): int
    decreases items
  {
    if items == [] then x else AddOwn(AddEvent(x, items[0], m), items[1..], m)
  }

  function AddEvent(x: int, i: Item, m: Measure): int {
    if i.Event? then x + Weight(i.large, m) else x
  }

  // The events of a span and of everything inside it.
  function AddEvents(x: int, items: seq<Item>, m: Measure): int
    decreases items
  {
    if items == [] then x else AddEvents(AddItem(x, items[0], m), items[1..], m)
  }

  function AddItem(x: int, i: Item, m: Measure): int
    decreases i
  {
    match i
    case Event(large) => x + Weight(large, m)
    case SubSpan(_, items) => AddEvents(x, items, m)
    case Unknown => x
  }

  function Build(name: string, items: seq<Item>): Tree
    decreases items, 1
  {
    Tree(name,
         Counts(AddOwn(0, items, Events), AddOwn(0, items, Large)), false,
         Counts(AddEvents(0, items, Events), AddEvents(0, items, Large)),
         BuildKids(items))
  }

  function BuildKids(items: seq<Item>): seq<Tree>
    decreases items, 0
  {
    if items == [] then [] else BuildItem(items[0]) + BuildKids(items[1..])
  }

  function BuildItem(i: Item): seq<Tree>
    decreases i
  {
    if i.SubSpan? then [Build(i.name, i.items)] else []
  }

  lemma {:induction false} CountNext(x: int, items: seq<Item>, i: Item, m: Measure)
    ensures AddOwn(x, items + [i], m) == AddEvent(AddOwn(x, items, m), i, m)
    ensures AddEvents(x, items + [i], m) == AddItem(AddEvents(x, items, m), i, m)
    decreases items
  {
    if items == [] {
      assert items + [i] == [i] && [i][1..] == [];
    } else {
      assert (items + [i])[1..] == items[1..] + [i] && (items + [i])[0] == items[0];
      CountNext(AddEvent(x, items[0], m), items[1..], i, m);
      CountNext(AddItem(x, items[0], m), items[1..], i, m);
    }
  }

  lemma {:induction false} KidsNext(items: seq<Item>, i: Item)
    ensures BuildKids(items + [i]) == BuildKids(items) + BuildItem(i)
  {
    if items == [] {
      assert items + [i] == [i] && [i][1..] == [];
      Nil(BuildItem(i));
    } else {
      assert (items + [i])[1..] == items[1..] + [i] && (items + [i])[0] == items[0];
      KidsNext(items[1..], i);
      Assoc(BuildItem(items[0]), BuildKids(items[1..]), BuildItem(i));
    }
  }

  // ----- Recounting -----

  function AddOne(x: int, t: Tree, m: Measure): int {
    if t.deleted then x else x + Of(t.count, m)
  }

  function AddLive(x: int, ts: seq<Tree>, m: Measure): int
    decreases ts
  {
    if ts == [] then x else AddLive(AddOne(x, ts[0], m), ts[1..], m)
  }

  predicate Agrees(t: Tree, m: Measure) {
    Of(t.count, m) == AddLive(Of(t.own, m), t.kids, m)
  }

  // Every counter is the span's own events plus the counters of its child spans that are not deleted.
  predicate Consistent(t: Tree)
    decreases t, 1
  {
    Agrees(t, Events) && Agrees(t, Large) && AllConsistent(t.kids)
  }

  predicate AllConsistent(ts: seq<Tree>)
    decreases ts, 0
  {
    ts == [] || (Consistent(ts[0]) && AllConsistent(ts[1..]))
  }

  function Recount(t: Tree, m: Measure): int
    decreases t, 1
  {
    AddRecounts(Of(t.own, m), t.kids, m)
  }

  function AddRecounts(x: int, ts: seq<Tree>, m: Measure): int
    decreases ts, 0
  {
    if ts == [] then x else AddRecounts(if ts[0].deleted then x else x + Recount(ts[0], m), ts[1..], m)
  }

  lemma {:induction false} CountersAreTheRecount(t: Tree, m: Measure)
    requires Consistent(t)
    ensures Of(t.count, m) == Recount(t, m)
    decreases t, 1
  {
    SumsAreTheRecount(Of(t.own, m), t.kids, m);
  }

  lemma {:induction false} SumsAreTheRecount(x: int, ts: seq<Tree>, m: Measure)
    requires AllConsistent(ts)
    ensures AddLive(x, ts, m) == AddRecounts(x, ts, m)
    decreases ts, 0
  {
    if ts != [] {
      CountersAreTheRecount(ts[0], m);
      SumsAreTheRecount(AddOne(x, ts[0], m), ts[1..], m);
    }
  }

  // Counting from a different start.
  lemma {:induction false} OwnShift(x: int, d: int, items: seq<Item>, m: Measure)
    ensures AddOwn(x + d, items, m) == AddOwn(x, items, m) + d
    decreases items
  {
    if items != [] {
      OwnShift(AddEvent(x, items[0], m), d, items[1..], m);
    }
  }

  lemma {:induction false} EventsShift(x: int, d: int, items: seq<Item>, m: Measure)
    ensures AddEvents(x + d, items, m) == AddEvents(x, items, m) + d
    decreases items
  {
    if items != [] {
      ItemShift(x, d, items[0], m);
      EventsShift(AddItem(x, items[0], m), d, items[1..], m);
    }
  }

  lemma {:induction false} ItemShift(x: int, d: int, i: Item, m: Measure)
    ensures AddItem(x + d, i, m) == AddItem(x, i, m) + d
    decreases i
  {
    if i.SubSpan? {
      EventsShift(x, d, i.items, m);
    }
  }

  lemma {:induction false} LiveShift(x: int, d: int, ts: seq<Tree>, m: Measure)
    ensures AddLive(x + d, ts, m) == AddLive(x, ts, m) + d
    decreases ts
  {
    if ts != [] {
      LiveShift(AddOne(x, ts[0], m), d, ts[1..], m);
    }
  }

  // A new tree is consistent, and its counters are the events in the log.
  lemma {:induction false} BuiltConsistent(name: string, items: seq<Item>)
    ensures Consistent(Build(name, items))
    ensures forall m :: Recount(Build(name, items), m) == AddEvents(0, items, m)
    decreases items, 1
  {
    BuiltSums(0, items, Events);
    BuiltSums(0, items, Large);
    BuiltKids(items);
    forall m ensures Recount(Build(name, items), m) == AddEvents(0, items, m) {
      CountersAreTheRecount(Build(name, items), m);
    }
  }

  lemma {:induction false} BuiltSums(x: int, items: seq<Item>, m: Measure)
    ensures AddEvents(x, items, m) == AddLive(AddOwn(x, items, m), BuildKids(items), m)
    decreases items
  {
    if items != [] {
      var i, rest := items[0], BuildKids(items[1..]);
      BuiltSums(AddItem(x, i, m), items[1..], m);
      if i.SubSpan? {
        var t := Build(i.name, i.items);
        EventsShift(0, x, i.items, m);
        OwnShift(x, Of(t.count, m), items[1..], m);
        Tail(t, rest);
      } else {
        Nil(rest);
      }
    }
  }

  lemma {:induction false} BuiltKids(items: seq<Item>)
    ensures AllConsistent(BuildKids(items))
    decreases items, 0
  {
    if items != [] {
      var i, rest := items[0], BuildKids(items[1..]);
      BuiltKids(items[1..]);
      if i.SubSpan? {
        BuiltItem(i);
        Tail(Build(i.name, i.items), rest);
      } else {
        Nil(rest);
      }
    }
  }

  lemma {:induction false} BuiltItem(i: Item)
    requires i.SubSpan?
    ensures Consistent(Build(i.name, i.items))
    decreases i
  {
    BuiltConsistent(i.name, i.items);
  }

  // ----- The counters of a new span are numbers of events -----

  // The events of a log in order, each by whether it is a large one.
  function EventsIn(items: seq<Item>): seq<bool>
    decreases items
  {
    if items == [] then [] else EventsOf(items[0]) + EventsIn(items[1..])
  }

  function EventsOf(i: Item): seq<bool>
    decreases i
  {
    match i
    case Event(large) => [large]
    case SubSpan(_, items) => EventsIn(items)
    case Unknown => []
  }

  function DirectEvents(items: seq<Item>): seq<bool> {
    if items == [] then []
    else (match items[0] case Event(large) => [large] case _ => []) + DirectEvents(items[1..])
  }

  function Number(es: seq<bool>, m: Measure): int {
    match m
    case Events => |es|
    case Large => multiset(es)[true]
  }

  lemma NumberAppend(a: seq<bool>, b: seq<bool>, m: Measure)
    ensures Number(a + b, m) == Number(a, m) + Number(b, m)
  {
  }

  lemma {:induction false} AddEventsCounts(x: int, items: seq<Item>, m: Measure)
    ensures AddEvents(x, items, m) == x + Number(EventsIn(items), m)
    decreases items, 0
  {
    if items != [] {
      AddItemCounts(x, items[0], m);
      AddEventsCounts(AddItem(x, items[0], m), items[1..], m);
      NumberAppend(EventsOf(items[0]), EventsIn(items[1..]), m);
    }
  }

  lemma {:induction false} AddItemCounts(x: int, i: Item, m: Measure)
    ensures AddItem(x, i, m) == x + Number(EventsOf(i), m)
    decreases i, 0
  {
    if i.SubSpan? {
      AddEventsCounts(x, i.items, m);
    }
  }

  lemma {:induction false} AddOwnCounts(x: int, items: seq<Item>, m: Measure)
    ensures AddOwn(x, items, m) == x + Number(DirectEvents(items), m)
    decreases items
  {
    if items != [] {
      AddOwnCounts(AddEvent(x, items[0], m), items[1..], m);
      NumberAppend(DirectEvents([items[0]]), DirectEvents(items[1..]), m);
      assert [items[0]][1..] == [] && DirectEvents([items[0]]) + [] == DirectEvents([items[0]]);
    }
  }

  // The span that is built for an item.
  ghost predicate IsSpanOf(t: Tree, i: Item) {
    i.SubSpan? && t == Build(i.name, i.items)
  }

  lemma {:induction false} KidsAreSpans(items: seq<Item>) returns (places: seq<nat>)
    ensures |places| == |BuildKids(items)|
    ensures forall j :: 0 <= j < |places| ==> places[j] < |items| && IsSpanOf(BuildKids(items)[j], items[places[j]])
    ensures forall j, k :: 0 <= j < k < |places| ==> places[j] < places[k]
    ensures forall p :: 0 <= p < |items| && items[p].SubSpan? ==> p in places
  {
    places := [];
    if items != [] {
      var n := |items| - 1;
      var front, last := items[..n], items[n];
      places := KidsAreSpans(front);
      assert items == front + [last];
      KidsNext(front, last);
      if last.SubSpan? {
        places := places + [n];
        assert BuildKids(items)[|places| - 1] == Build(last.name, last.items);
        assert places[|places| - 1] == n;
      }
    }
  }

  // A new span counts the events of its log, at any depth, and the large ones among them; its own
  // events are the direct ones; its children are the spans of the log, in their order.
  lemma BuiltCountsEvents(name: string, items: seq<Item>) returns (places: seq<nat>)
    ensures var t := Build(name, items);
            && t.name == name && !t.deleted
            && t.count == Counts(|EventsIn(items)|, multiset(EventsIn(items))[true])
            && t.own == Counts(|DirectEvents(items)|, multiset(DirectEvents(items))[true])
            && |places| == |t.kids|
            && (forall j :: 0 <= j < |places| ==> places[j] < |items| && IsSpanOf(t.kids[j], items[places[j]]))
            && (forall j, k :: 0 <= j < k < |places| ==> places[j] < places[k])
            && (forall p :: 0 <= p < |items| && items[p].SubSpan? ==> p in places)
  {
    places := KidsAreSpans(items);
    AddEventsCounts(0, items, Events);
    AddEventsCounts(0, items, Large);
    AddOwnCounts(0, items, Events);
    AddOwnCounts(0, items, Large);
  }

  // ----- Toggling -----

  predicate IsPath(t: Tree, path: seq<nat>)
    decreases path
  {
    path == [] || (path[0] < |t.kids| && IsPath(t.kids[path[0]], path[1..]))
  }

  function At(t: Tree, path: seq<nat>): Tree
    requires IsPath(t, path)
    decreases path
  {
    if path == [] then t else At(t.kids[path[0]], path[1..])
  }

  // What the parents of a toggled span are offset by.
  function Offset(t: Tree): Counts {
    if t.deleted then t.count else Counts(-t.count.events, -t.count.large)
  }

  // The span at the end of the path changes its flag, and every span on the way to it its counters.
  function Shift(t: Tree, path: seq<nat>, d: Counts): Tree
    requires IsPath(t, path)
    decreases path
  {
    if path == [] then t.(deleted := !t.deleted)
    else
      var i := path[0];
      t.(count := Counts(t.count.events + d.events, t.count.large + d.large),
         kids := t.kids[i := Shift(t.kids[i], path[1..], d)])
  }

  function Toggle(t: Tree, path: seq<nat>): Tree
    requires IsPath(t, path)
  {
    Shift(t, path, Offset(At(t, path)))
  }

  // A span above the toggled one, other than the root, is deleted.
  predicate Hidden(t: Tree, path: seq<nat>)
    requires IsPath(t, path)
    decreases path
  {
    |path| >= 2 && (t.kids[path[0]].deleted || Hidden(t.kids[path[0]], path[1..]))
  }

  lemma {:induction false} Updated(x: int, ts: seq<Tree>, i: nat, t: Tree, m: Measure)
    requires i < |ts|
    ensures AddLive(x, ts[i := t], m) == AddLive(x, ts, m) + (AddOne(0, t, m) - AddOne(0, ts[i], m))
    decreases ts
  {
    if i == 0 {
      assert ts[i := t][1..] == ts[1..];
      LiveShift(AddOne(x, ts[0], m), AddOne(0, t, m) - AddOne(0, ts[0], m), ts[1..], m);
    } else {
      assert ts[i := t][1..] == ts[1..][i - 1 := t];
      Updated(AddOne(x, ts[0], m), ts[1..], i - 1, t, m);
    }
  }

  lemma {:induction false} UpdatedConsistent(ts: seq<Tree>, i: nat, t: Tree)
    requires i < |ts| && AllConsistent(ts)
    ensures Consistent(ts[i]) && (AllConsistent(ts[i := t]) <==> Consistent(t))
  {
    if i == 0 {
      assert ts[i := t][1..] == ts[1..];
    } else {
      assert ts[i := t][1..] == ts[1..][i - 1 := t];
      UpdatedConsistent(ts[1..], i - 1, t);
    }
  }

  // Toggling a span keeps all counters right exactly when nothing above it is deleted, or it has
  // nothing to count.
  lemma {:induction false} ToggleKeepsCounters(t: Tree, path: seq<nat>)
    requires IsPath(t, path) && Consistent(t)
    ensures Consistent(Toggle(t, path)) <==> !Hidden(t, path) || At(t, path).count == Counts(0, 0)
    decreases path
  {
    var u := Toggle(t, path);
    if path == [] {
      assert u.kids == t.kids && u.count == t.count;
      assert Agrees(u, Events) && Agrees(u, Large);
    } else {
      var c, rest := t.kids[path[0]], path[1..];
      UpdatedConsistent(t.kids, path[0], Toggle(c, rest));
      ToggleKeepsCounters(c, rest);
      ParentAgrees(t, path, Events);
      ParentAgrees(t, path, Large);
    }
  }

  // Whether one counter of the root stays right.
  lemma ParentAgrees(t: Tree, path: seq<nat>, m: Measure)
    requires IsPath(t, path) && path != [] && Agrees(t, m)
    ensures Agrees(Toggle(t, path), m)
            <==> |path| == 1 || !t.kids[path[0]].deleted || Of(At(t, path).count, m) == 0
  {
    var c, rest := t.kids[path[0]], path[1..];
    Updated(Of(t.own, m), t.kids, path[0], Toggle(c, rest), m);
    if rest == [] {
      assert At(c, rest) == c;
    }
  }

  // ----- Runs -----

  // Each toggled span exists, and is not below a deleted one, when its turn comes.
  predicate Legal(t: Tree, paths: seq<seq<nat>>)
    decreases |paths|
  {
    paths == [] || (IsPath(t, paths[0]) && !Hidden(t, paths[0]) && Legal(Toggle(t, paths[0]), paths[1..]))
  }

  function Run(t: Tree, paths: seq<seq<nat>>): Tree
    requires Legal(t, paths)
    decreases |paths|
  {
    if paths == [] then t else Run(Toggle(t, paths[0]), paths[1..])
  }

  lemma {:induction false} RunKeepsCounters(t: Tree, paths: seq<seq<nat>>)
    requires Consistent(t) && Legal(t, paths)
    ensures Consistent(Run(t, paths)) && forall m :: Of(Run(t, paths).count, m) == Recount(Run(t, paths), m)
    decreases |paths|
  {
    if paths == [] {
      CountersAreTheRecount(t, Events);
      CountersAreTheRecount(t, Large);
    } else {
      ToggleKeepsCounters(t, paths[0]);
      RunKeepsCounters(Toggle(t, paths[0]), paths[1..]);
    }
  }

  // The tree without its counters.
  function Flags(t: Tree): Tree
    decreases t, 1
  {
    t.(count := Counts(0, 0), kids := FlagsAll(t.kids))
  }

  function FlagsAll(ts: seq<Tree>): seq<Tree>
    decreases ts, 0
  {
    if ts == [] then [] else [Flags(ts[0])] + FlagsAll(ts[1..])
  }

  // Flags determine consistent counters.
  lemma {:induction false} FlagsDetermine(t: Tree, u: Tree)
    requires Consistent(t) && Consistent(u) && Flags(t) == Flags(u)
    ensures t == u
    decreases t, 1
  {
    FlagsDetermineAll(t.kids, u.kids);
  }

  lemma {:induction false} FlagsDetermineAll(ts: seq<Tree>, us: seq<Tree>)
    requires AllConsistent(ts)
    requires AllConsistent(us)
    requires FlagsAll(ts) == FlagsAll(us)
    ensures ts == us
    decreases ts, 0
  {
    if ts != [] && us != [] {
      assert FlagsAll(ts)[0] == Flags(ts[0]) && FlagsAll(ts)[1..] == FlagsAll(ts[1..]);
      assert FlagsAll(us)[0] == Flags(us[0]) && FlagsAll(us)[1..] == FlagsAll(us[1..]);
      FlagsDetermine(ts[0], us[0]);
      FlagsDetermineAll(ts[1..], us[1..]);
    }
  }

  // Undoing every deletion, in any order, restores every counter of the tree.
  lemma UndoRestores(t: Tree, paths: seq<seq<nat>>)
    requires Consistent(t) && Legal(t, paths) && Flags(Run(t, paths)) == Flags(t)
    ensures Run(t, paths) == t
  {
    RunKeepsCounters(t, paths);
    FlagsDetermine(Run(t, paths), t);
  }

  // A log whose n events, all large, are in an inner span of an outer span.
  function Nested(n: nat, outerDeleted: bool, innerDeleted: bool, outer: int, log: int): Tree {
    var inner := Tree("inner", Counts(n, n), innerDeleted, Counts(n, n), []);
    Tree("log", Counts(0, 0), false, Counts(log, log),
         [Tree("outer", Counts(0, 0), outerDeleted, Counts(outer, outer), [inner])])
  }

  predicate Toggles(t: Tree, path: seq<nat>, u: Tree) {
    IsPath(t, path) && Toggle(t, path) == u
  }

  lemma ToggleOuter(n: nat, od: bool, id: bool, o: int, l: int) returns (path: seq<nat>)
    ensures path == [0]
    ensures Toggles(Nested(n, od, id, o, l), path, Nested(n, !od, id, o, if od then l + o else l - o))
  {
    path := [0];
    var t := Nested(n, od, id, o, l);
    assert path[1..] == [] && At(t, path) == t.kids[0];
    assert t.kids[0 := Shift(t.kids[0], path[1..], Offset(t.kids[0]))] == Nested(n, !od, id, o, l).kids;
  }

  lemma ToggleInner(n: nat, od: bool, id: bool, o: int, l: int) returns (path: seq<nat>)
    ensures path == [0, 0]
    ensures var t, d: int := Nested(n, od, id, o, l), if id then n as int else -(n as int);
            Toggles(t, path, Nested(n, od, !id, o + d, l + d)) && (Hidden(t, path) <==> od)
  {
    path := [0, 0];
    var t, d: int := Nested(n, od, id, o, l), if id then n as int else -(n as int);
    assert path[1..] == [0] && path[1..][1..] == [];
    assert At(t.kids[0], path[1..]) == t.kids[0].kids[0];
    assert At(t, path) == t.kids[0].kids[0];
    assert Shift(t.kids[0], path[1..], Counts(d, d)) == Nested(n, od, !id, o + d, l).kids[0];
  }

  // Below a deleted span it does not, unless there is nothing to count: delete the inner span and then
  // the outer one, use the inner one and then the outer one; no span is deleted any more, and the log
  // counts everything twice.
  lemma UndoBelowDeleted(n: nat) returns (outer: seq<nat>, inner: seq<nat>)
    ensures outer == [0] && inner == [0, 0]
    ensures var t0, t1, t2 := Nested(n, false, false, n, n), Nested(n, false, true, 0, 0), Nested(n, true, true, 0, 0);
            var t3, t4 := Nested(n, true, false, n, n), Nested(n, false, false, n, n + n);
            && Consistent(t0)
            && Toggles(t0, inner, t1) && Toggles(t1, outer, t2)
            && Toggles(t2, inner, t3) && Hidden(t2, inner) && Toggles(t3, outer, t4)
            && Flags(t4) == Flags(t0) && (t4 == t0 <==> n == 0)
  {
    inner := ToggleInner(n, false, false, n, n);
    outer := ToggleOuter(n, false, true, 0, 0);
    inner := ToggleInner(n, true, true, 0, 0);
    outer := ToggleOuter(n, true, false, n, n);
    CountsAreForgotten(n, n, n + n);
    NestedConsistent(n);
  }

  lemma NestedConsistent(n: nat)
    ensures Consistent(Nested(n, false, false, n, n))
  {
    var log := Nested(n, false, false, n, n);
    var outer := log.kids[0];
    var inner := outer.kids[0];
    assert [inner][1..] == [] && AllConsistent([]);
    assert [outer][1..] == [];
    assert Agrees(inner, Events) && Agrees(inner, Large) && Consistent(inner) && AllConsistent([inner]);
    assert Agrees(outer, Events) && Agrees(outer, Large) && Consistent(outer) && AllConsistent([outer]);
    assert Agrees(log, Events) && Agrees(log, Large);
  }

  lemma CountsAreForgotten(n: nat, a: int, b: int)
    ensures Flags(Nested(n, false, false, n, a)) == Flags(Nested(n, false, false, n, b))
  {
    assert Nested(n, false, false, n, a).kids == Nested(n, false, false, n, b).kids;
  }

  // ----- One turn of the constructor's loop -----

  // Counters and own events grow; a child span is added.
  function Counting(t: Tree, own: Counts, d: Counts): Tree {
    t.(own := Counts(t.own.events + own.events, t.own.large + own.large),
       count := Counts(t.count.events + d.events, t.count.large + d.large))
  }

  function Appended(t: Tree, kid: Tree): Tree {
    t.(kids := t.kids + [kid])
  }

  function One(large: bool): Counts {
    Counts(1, if large then 1 else 0)
  }

  function With(t: Tree, i: Item): Tree {
    match i
    case Event(large) => Counting(t, One(large), One(large))
    case SubSpan(name, items) => var kid := Build(name, items); Counting(Appended(t, kid), Counts(0, 0), kid.count)
    case Unknown => t
  }

  lemma BuildStep(name: string, items: seq<Item>, i: Item)
    ensures Build(name, items + [i]) == With(Build(name, items), i)
  {
    CountNext(0, items, i, Events);
    CountNext(0, items, i, Large);
    KidsNext(items, i);
    if i.SubSpan? {
      EventsShift(0, AddEvents(0, items, Events), i.items, Events);
      EventsShift(0, AddEvents(0, items, Large), i.items, Large);
    }
  }

  lemma AppendedAt(t: Tree, kid: Tree, p: seq<nat>)
    ensures IsPath(Appended(t, kid), p)
            <==> IsPath(t, p) || (p != [] && p[0] == |t.kids| && IsPath(kid, p[1..]))
    ensures p != [] && IsPath(t, p) ==> At(Appended(t, kid), p) == At(t, p)
    ensures p != [] && p[0] == |t.kids| && IsPath(kid, p[1..]) ==> At(Appended(t, kid), p) == At(kid, p[1..])
  {
  }

  // What toggling changes in each span.
  lemma {:induction false} ShiftAt(t: Tree, path: seq<nat>, d: Counts, q: seq<nat>)
    requires IsPath(t, path)
    ensures IsPath(Shift(t, path, d), q) <==> IsPath(t, q)
    ensures IsPath(t, q) ==>
              var x, y := At(t, q), At(Shift(t, path, d), q);
              && y.name == x.name && |y.kids| == |x.kids|
              && y.deleted == (x.deleted != (q == path))
              && y.count == if q < path then Counts(x.count.events + d.events, x.count.large + d.large) else x.count
    decreases path
  {
    if path != [] && q != [] && q[0] == path[0] {
      if q[0] < |t.kids| {
        ShiftAt(t.kids[q[0]], path[1..], d, q[1..]);
      }
      assert q == [q[0]] + q[1..] && path == [path[0]] + path[1..];
      assert q == path <==> q[1..] == path[1..];
      assert q < path <==> q[1..] < path[1..];
    }
  }

  // ----- The objects -----

  type Nodes = map<seq<nat>, Span>

  function Up(p: seq<nat>): seq<nat>
    requires p != []
  {
    p[..|p| - 1]
  }

  ghost predicate HasParent(nodes: Nodes, p: seq<nat>)
    requires p in nodes && p != []
  {
    Up(p) in nodes && nodes[p].parentSpan == nodes[Up(p)]
  }

  // The spans of a log by their place below its root: every span knows its parent.
  ghost predicate Chained(nodes: Nodes, parent: Span?) {
    && (forall p {:trigger HasParent(nodes, p)} :: p in nodes && p != [] ==> HasParent(nodes, p))
    && ([] in nodes ==> nodes[[]].parentSpan == parent)
    && (forall p, q :: p in nodes && q in nodes && nodes[p] == nodes[q] ==> p == q)
  }

  // The span at p is as the tree says, and has its child spans at their places.
  ghost predicate Fits(nodes: Nodes, t: Tree, p: seq<nat>)
    requires p in nodes && IsPath(t, p)
    reads nodes[p]
  {
    nodes[p].Shows(At(t, p)) && nodes[p].HasChildren(p, nodes)
  }

  ghost predicate Represents(nodes: Nodes, parent: Span?, t: Tree)
    reads nodes.Values
  {
    && Chained(nodes, parent)
    && (forall p :: p in nodes <==> IsPath(t, p))
    && (forall p {:trigger Fits(nodes, t, p)} :: p in nodes ==> Fits(nodes, t, p))
  }

  class Span {
    const parentSpan: Span?
    const name: string
    var eventCount: int
    var largeEventCount: int
    var deleted: bool
    var children: seq<Span>          // the child spans; events are only counted
    ghost var nodes: Nodes           // this span and all below it

    ghost predicate Shows(t: Tree)
      reads this
    {
      name == t.name && deleted == t.deleted && Counts(eventCount, largeEventCount) == t.count && |children| == |t.kids|
    }

    ghost predicate HasChildren(p: seq<nat>, nodes: Nodes)
      reads this
    {
      forall i :: 0 <= i < |children| ==> p + [i] in nodes && nodes[p + [i]] == children[i]
    }

    constructor (parentSpan: Span?, name: string, items: seq<Item>)
      ensures fresh(nodes.Values) && [] in nodes && nodes[[]] == this
      ensures Represents(nodes, parentSpan, Build(name, items))
      decreases items
    {
      this.parentSpan, this.name := parentSpan, name;
      eventCount, largeEventCount := 0, 0;
      deleted, children := false, [];
      nodes := map[];
      new;
      nodes := map[[] := this];
      for i := 0 to |items|
        invariant fresh(nodes.Values) && [] in nodes && nodes[[]] == this && this.parentSpan == parentSpan
        invariant Represents(nodes, parentSpan, Build(name, items[..i]))
      {
        assert items[..i + 1] == items[..i] + [items[i]];
        BuildStep(name, items[..i], items[i]);
        AddItem(items[i], Build(name, items[..i]));
      }
      assert items[..|items|] == items;
    }

    method AddItem(i: Item, ghost t: Tree)
      requires [] in nodes && nodes[[]] == this && Represents(nodes, parentSpan, t)
      modifies this
      ensures fresh(nodes.Values - old(nodes.Values)) && [] in nodes && nodes[[]] == this
      ensures Represents(nodes, parentSpan, With(t, i))
      decreases i
    {
      match i
      case Event(large) =>
        Count(Counts(1, if large then 1 else 0), t, One(large));
      case SubSpan(kidName, kidItems) =>
        var o := new Span(this, kidName, kidItems);
        ghost var kid := Build(kidName, kidItems);
        assert Fits(o.nodes, kid, []);
        AppendChild(o, t, kid);
        Count(Counts(o.eventCount, o.largeEventCount), Appended(t, kid), Counts(0, 0));
      case Unknown =>
    }

    method Count(d: Counts, ghost t: Tree, ghost own: Counts)
      requires [] in nodes && nodes[[]] == this && Represents(nodes, parentSpan, t)
      modifies this`eventCount, this`largeEventCount
      ensures Represents(nodes, parentSpan, Counting(t, own, d))
    {
      assert Fits(nodes, t, []);
      eventCount := eventCount + d.events;
      largeEventCount := largeEventCount + d.large;
      ghost var u := Counting(t, own, d);
      assert forall p :: IsPath(u, p) <==> IsPath(t, p);
      forall p | p in nodes ensures Fits(nodes, u, p) {
        if p != [] {
          assert nodes[p] != this && old(Fits(nodes, t, p)) && At(u, p) == At(t, p);
        }
      }
    }

    method AppendChild(o: Span, ghost t: Tree, ghost kid: Tree)
      requires [] in nodes && nodes[[]] == this && Represents(nodes, parentSpan, t)
      requires [] in o.nodes && o.nodes[[]] == o && Represents(o.nodes, this, kid)
      requires o.nodes.Values !! nodes.Values
      modifies this`children, this`nodes
      ensures nodes.Values <= old(nodes.Values) + o.nodes.Values && [] in nodes && nodes[[]] == this
      ensures Represents(nodes, parentSpan, Appended(t, kid))
    {
      ghost var a, b := nodes, o.nodes;
      assert Fits(a, t, []);
      MergedIn(a, |t.kids|, b);
      children := children + [o];
      nodes := Merged(a, |t.kids|, b);
      forall p | p in a && p != [] ensures Fits(a, t, p) {
        assert a[p] != this && old(Fits(a, t, p));
      }
      forall i | 0 <= i < |t.kids| ensures [i] in a && a[[i]] == children[i] {
        assert [] + [i] == [i];
      }
      MergedShows(a, b, t, kid, parentSpan, this);
    }

    // Along the parent pointers to the root of the log.
    method OffsetParentCounts(d: Counts, ghost p: seq<nat>, ghost log: Nodes)
      requires Chained(log, null) && p in log && log[p] == this
      modifies log.Values`eventCount, log.Values`largeEventCount
      ensures forall q :: q in log ==>
                && log[q].eventCount == old(log[q].eventCount) + (if q < p then d.events else 0)
                && log[q].largeEventCount == old(log[q].largeEventCount) + (if q < p then d.large else 0)
      decreases |p|
    {
      assert p != [] ==> HasParent(log, p);
      if parentSpan != null {
        parentSpan.eventCount := parentSpan.eventCount + d.events;
        parentSpan.largeEventCount := parentSpan.largeEventCount + d.large;
        assert forall q :: q in log ==> (q < p <==> q == Up(p) || q < Up(p));
        parentSpan.OffsetParentCounts(d, Up(p), log);
      }
    }

    method ToggleDeleted(ghost p: seq<nat>, ghost log: Nodes, ghost t: Tree)
      requires Represents(log, null, t) && p in log && log[p] == this
      modifies log.Values
      ensures Represents(log, null, Toggle(t, p))
    {
      ghost var d := Offset(At(t, p));
      assert Fits(log, t, p);
      deleted := !deleted;
      if deleted {
        OffsetParentCounts(Counts(-eventCount, -largeEventCount), p, log);
      } else {
        OffsetParentCounts(Counts(eventCount, largeEventCount), p, log);
      }
      forall q: seq<nat> ensures q in log <==> IsPath(Toggle(t, p), q) {
        ShiftAt(t, p, d, q);
      }
      forall q | q in log ensures Fits(log, Toggle(t, p), q) {
        ShiftAt(t, p, d, q);
        assert old(Fits(log, t, q)) && (log[q] == this <==> q == p);
      }
    }

    method SetDeleted(b: bool, ghost p: seq<nat>, ghost log: Nodes, ghost t: Tree)
      requires Represents(log, null, t) && p in log && log[p] == this
      modifies log.Values
      ensures Represents(log, null, if At(t, p).deleted == b then t else Toggle(t, p))
    {
      assert Fits(log, t, p);
      if b != deleted {
        ToggleDeleted(p, log, t);
      }
    }
  }

  lemma MergedShows(a: Nodes, b: Nodes, t: Tree, kid: Tree, parent: Span?, top: Span)
    requires [] in a && a[[]] == top && Chained(a, parent) && (forall p :: p in a <==> IsPath(t, p))
    requires forall p {:trigger Fits(a, t, p)} :: p in a && p != [] ==> Fits(a, t, p)
    requires [] in b && Represents(b, top, kid) && a.Values !! b.Values
    requires top.Shows(Appended(t, kid)) && top.children[|t.kids|] == b[[]]
    requires forall i :: 0 <= i < |t.kids| ==> [i] in a && a[[i]] == top.children[i]
    ensures Represents(Merged(a, |t.kids|, b), parent, Appended(t, kid))
  {
    assert forall p :: p in a && p != [] ==> IsPath(t, p) && p[0] < |t.kids|;
    MergedChained(a, |t.kids|, b, parent, top);
    MergedPaths(a, b, t, kid);
    var c, u := Merged(a, |t.kids|, b), Appended(t, kid);
    forall p: seq<nat> | p in c ensures Fits(c, u, p) {
      if p == [] {
        MergedRoot(a, b, t, kid, top);
      } else {
        MergedFits(a, b, t, kid, top, p);
      }
    }
  }

  lemma MergedPaths(a: Nodes, b: Nodes, t: Tree, kid: Tree)
    requires [] in a && (forall p :: p in a <==> IsPath(t, p)) && (forall p :: p in b <==> IsPath(kid, p))
    ensures forall p: seq<nat> :: p in Merged(a, |t.kids|, b) <==> IsPath(Appended(t, kid), p)
  {
    MergedIn(a, |t.kids|, b);
    forall p: seq<nat> ensures p in Merged(a, |t.kids|, b) <==> IsPath(Appended(t, kid), p) {
      AppendedAt(t, kid, p);
    }
  }

  lemma MergedRoot(a: Nodes, b: Nodes, t: Tree, kid: Tree, top: Span)
    requires [] in a && a[[]] == top && [] in b && forall p :: p in a && p != [] ==> p[0] < |t.kids|
    requires top.Shows(Appended(t, kid)) && top.children[|t.kids|] == b[[]]
    requires forall i :: 0 <= i < |t.kids| ==> [i] in a && a[[i]] == top.children[i]
    ensures [] in Merged(a, |t.kids|, b) && Fits(Merged(a, |t.kids|, b), Appended(t, kid), [])
  {
    MergedIn(a, |t.kids|, b);
    assert forall i :: 0 <= i <= |t.kids| ==> [] + [i] == [i] && [i][1..] == [];
  }

  lemma MergedFits(a: Nodes, b: Nodes, t: Tree, kid: Tree, top: Span, p: seq<nat>)
    requires forall p :: p in a ==> IsPath(t, p)
    requires forall p {:trigger Fits(a, t, p)} :: p in a && p != [] ==> Fits(a, t, p)
    requires Represents(b, top, kid) && p != [] && p in Merged(a, |t.kids|, b)
    ensures IsPath(Appended(t, kid), p) && Fits(Merged(a, |t.kids|, b), Appended(t, kid), p)
  {
    MergedIn(a, |t.kids|, b);
    AppendedAt(t, kid, p);
    if p in a {
      assert Fits(a, t, p);
      MergedChildren(a, |t.kids|, b, a[p], p);
    } else {
      assert Fits(b, kid, p[1..]);
      MergedBelow(a, |t.kids|, b, b[p[1..]], p);
    }
  }

  lemma MergedChildren(a: Nodes, n: nat, b: Nodes, s: Span, p: seq<nat>)
    requires s.HasChildren(p, a)
    ensures s.HasChildren(p, Merged(a, n, b))
  {
    MergedIn(a, n, b);
  }

  lemma MergedBelow(a: Nodes, n: nat, b: Nodes, s: Span, p: seq<nat>)
    requires p != [] && p[0] == n && s.HasChildren(p[1..], b)
    requires forall q :: q in a && q != [] ==> q[0] < n
    ensures s.HasChildren(p, Merged(a, n, b))
  {
    MergedIn(a, n, b);
    forall i | 0 <= i < |s.children|
      ensures p + [i] in Merged(a, n, b) && Merged(a, n, b)[p + [i]] == s.children[i]
    {
      assert (p + [i])[1..] == p[1..] + [i];
    }
  }

  lemma MergedIn(a: Nodes, n: nat, b: Nodes)
    ensures forall p :: p in Merged(a, n, b) <==> p in a || (p != [] && p[0] == n && p[1..] in b)
  {
    forall p: seq<nat> | p != [] && p[0] == n && p[1..] in b ensures p in Merged(a, n, b) {
      assert p == [n] + p[1..];
    }
  }

  lemma MergedChained(a: Nodes, n: nat, b: Nodes, parent: Span?, top: Span)
    requires [] in a && a[[]] == top && [] in b && Chained(a, parent) && Chained(b, top)
    requires a.Values !! b.Values && forall p :: p in a && p != [] ==> p[0] < n
    ensures Chained(Merged(a, n, b), parent)
  {
    var c := Merged(a, n, b);
    MergedIn(a, n, b);
    forall p: seq<nat> | p in c && p != [] ensures HasParent(c, p) {
      if p in a {
        assert HasParent(a, p);
      } else {
        MergedParent(a, n, b, top, p);
      }
    }
    forall p: seq<nat>, q: seq<nat> | p in c && q in c && c[p] == c[q] ensures p == q {
      assert p !in a ==> p == [n] + p[1..];
      assert q !in a ==> q == [n] + q[1..];
      assert p in a ==> c[p] in a.Values;
      assert q in a ==> c[q] in a.Values;
      assert p !in a ==> c[p] in b.Values;
      assert q !in a ==> c[q] in b.Values;
    }
  }

  lemma MergedParent(a: Nodes, n: nat, b: Nodes, top: Span, p: seq<nat>)
    requires [] in a && a[[]] == top && [] in b && Chained(b, top)
    requires forall p :: p in a && p != [] ==> p[0] < n
    requires p != [] && p[0] == n && p[1..] in b && p in Merged(a, n, b)
    ensures HasParent(Merged(a, n, b), p)
  {
    MergedIn(a, n, b);
    if p[1..] == [] {
      assert Up(p) == [];
    } else {
      assert HasParent(b, p[1..]);
      assert Up(p)[1..] == Up(p[1..]) && Up(p)[0] == n;
    }
  }

  ghost function Merged(a: Nodes, n: nat, b: Nodes): Nodes {
    map p | p in a.Keys + (set q | q in b :: [n] + q) :: if p in a then a[p] else b[p[1..]]
  }
}
