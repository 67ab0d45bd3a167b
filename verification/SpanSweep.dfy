/**
 * Deleting, or using again, all spans of a name in one call: one traversal of the log in pre-order,
 * which goes on below a deleted span if the name is its own.
 */
module SpanSweeping {
  import opened Sequences
  import opened SpanCounting

  // ----- The traversal as a function -----

  predicate Pruned(t: Tree, name: string) {
    t.deleted && t.name != name
  }

  predicate Flips(t: Tree, name: string, b: bool) {
    t.name == name && t.deleted != b
  }

  // What the traversal of t adds to a counter of every span above t.
  function Gain(t: Tree, name: string, b: bool, m: Measure): int
    decreases t, 1
  {
    if Pruned(t, name) then 0
    else (if Flips(t, name, b) then Of(Offset(t), m) else 0) + GainAll(t.kids, name, b, m)
  }

  function GainAll(ts: seq<Tree>, name: string, b: bool, m: Measure): int
    decreases ts, 0
  {
    if ts == [] then 0 else Gain(ts[0], name, b, m) + GainAll(ts[1..], name, b, m)
  }

  function Sweep(t: Tree, name: string, b: bool): Tree
    decreases t, 1
  {
    if Pruned(t, name) then t
    else
      t.(deleted := if t.name == name then b else t.deleted,
         count := Counts(t.count.events + GainAll(t.kids, name, b, Events),
                         t.count.large + GainAll(t.kids, name, b, Large)),
         kids := SweepAll(t.kids, name, b))
  }

  function SweepAll(ts: seq<Tree>, name: string, b: bool): (r: seq<Tree>)
    ensures |r| == |ts|
    decreases ts, 0
  {
    if ts == [] then [] else [Sweep(ts[0], name, b)] + SweepAll(ts[1..], name, b)
  }

  // ----- Which spans change -----

  // The span k levels down the path is deleted and has another name.
  predicate Blocks(t: Tree, p: seq<nat>, k: nat, name: string) {
    k <= |p| && IsPath(t, p[..k]) && At(t, p[..k]).deleted && At(t, p[..k]).name != name
  }

  // No deleted span of another name is above the place p.
  predicate InReach(t: Tree, p: seq<nat>, name: string) {
    forall k :: 0 <= k < |p| ==> !Blocks(t, p, k, name)
  }

  lemma BlocksDeeper(t: Tree, p: seq<nat>, k: nat, name: string)
    requires IsPath(t, p) && p != []
    ensures Blocks(t, p, 0, name) <==> Pruned(t, name)
    ensures 0 < k <= |p| ==> (Blocks(t, p, k, name) <==> Blocks(t.kids[p[0]], p[1..], k - 1, name))
  {
    assert p[..0] == [];
    if 0 < k <= |p| {
      assert p[..k][1..] == p[1..][..k - 1];
    }
  }

  lemma InReachDeeper(t: Tree, p: seq<nat>, name: string)
    requires IsPath(t, p) && p != []
    ensures InReach(t, p, name) <==> !Pruned(t, name) && InReach(t.kids[p[0]], p[1..], name)
  {
    var u, q := t.kids[p[0]], p[1..];
    BlocksDeeper(t, p, 0, name);
    if InReach(t, p, name) {
      forall k | 0 <= k < |q| ensures !Blocks(u, q, k, name) {
        BlocksDeeper(t, p, k + 1, name);
      }
    }
    if !Pruned(t, name) && InReach(u, q, name) {
      forall k | 0 <= k < |p| ensures !Blocks(t, p, k, name) {
        BlocksDeeper(t, p, k, name);
      }
    }
  }

  lemma {:induction false} SweepAllAt(ts: seq<Tree>, name: string, b: bool, i: nat)
    requires i < |ts|
    ensures SweepAll(ts, name, b)[i] == Sweep(ts[i], name, b)
  {
    if i > 0 {
      SweepAllAt(ts[1..], name, b, i - 1);
    }
  }

  // Deleting, or using again, by name marks exactly the spans of that name that have no deleted span of
  // another name above them; every other span keeps its flag, and all keep their places and names.
  lemma {:induction false} SweepMarks(t: Tree, p: seq<nat>, name: string, b: bool)
    requires IsPath(t, p)
    ensures IsPath(Sweep(t, name, b), p)
    ensures var old_, new_ := At(t, p), At(Sweep(t, name, b), p);
            && new_.name == old_.name && new_.own == old_.own && |new_.kids| == |old_.kids|
            && new_.deleted == if old_.name == name && InReach(t, p, name) then b else old_.deleted
    decreases p
  {
    if p != [] {
      InReachDeeper(t, p, name);
      if !Pruned(t, name) {
        SweepAllAt(t.kids, name, b, p[0]);
        SweepMarks(t.kids[p[0]], p[1..], name, b);
      }
    }
  }

  // ----- When the counters stay right -----

  // What the parent of t loses although t does not count.
  function Lost(t: Tree, name: string, b: bool, m: Measure): int {
    if b && t.name == name then GainAll(t.kids, name, b, m) else 0
  }

  function LostAll(ts: seq<Tree>, name: string, b: bool, m: Measure): int {
    if ts == [] then 0 else Lost(ts[0], name, b, m) + LostAll(ts[1..], name, b, m)
  }

  lemma GainOfOne(x: int, t: Tree, name: string, b: bool, m: Measure)
    ensures AddOne(x, Sweep(t, name, b), m)
            == AddOne(x, t, m) + Gain(t, name, b, m) - Lost(t, name, b, m)
  {
  }

  lemma {:induction false} SweepSums(x: int, ts: seq<Tree>, name: string, b: bool, m: Measure)
    ensures AddLive(x, SweepAll(ts, name, b), m)
            == AddLive(x, ts, m) + GainAll(ts, name, b, m) - LostAll(ts, name, b, m)
    decreases ts
  {
    if ts != [] {
      var t, d := ts[0], Gain(ts[0], name, b, m) - Lost(ts[0], name, b, m);
      GainOfOne(x, t, name, b, m);
      assert SweepAll(ts, name, b)[1..] == SweepAll(ts[1..], name, b);
      SweepSums(AddOne(x, t, m) + d, ts[1..], name, b, m);
      LiveShift(AddOne(x, t, m), d, ts[1..], m);
    }
  }

  lemma AgreesIff(t: Tree, name: string, b: bool, m: Measure)
    requires Agrees(t, m) && !Pruned(t, name)
    ensures Agrees(Sweep(t, name, b), m) <==> LostAll(t.kids, name, b, m) == 0
  {
    SweepSums(Of(t.own, m), t.kids, name, b, m);
  }

  // Using spans again is always right: what is deleted has been used again before its inside is.
  lemma {:induction false} UseKeepsCounters(t: Tree, name: string)
    requires Consistent(t)
    ensures Consistent(Sweep(t, name, false))
    decreases t, 1
  {
    if !Pruned(t, name) {
      NothingLost(t.kids, name, Events);
      NothingLost(t.kids, name, Large);
      AgreesIff(t, name, false, Events);
      AgreesIff(t, name, false, Large);
      UseKeepsAll(t.kids, name);
    }
  }

  lemma {:induction false} NothingLost(ts: seq<Tree>, name: string, m: Measure)
    ensures LostAll(ts, name, false, m) == 0
  {
    if ts != [] {
      NothingLost(ts[1..], name, m);
    }
  }

  lemma {:induction false} UseKeepsAll(ts: seq<Tree>, name: string)
    requires AllConsistent(ts)
    ensures AllConsistent(SweepAll(ts, name, false))
    decreases ts, 0
  {
    if ts != [] {
      UseKeepsCounters(ts[0], name);
      UseKeepsAll(ts[1..], name);
      assert SweepAll(ts, name, false)[1..] == SweepAll(ts[1..], name, false);
    }
  }

  // Events are counted from nothing.
  predicate Natural(t: Tree)
    decreases t, 1
  {
    t.own.events >= 0 && t.own.large >= 0 && AllNatural(t.kids)
  }

  predicate AllNatural(ts: seq<Tree>)
    decreases ts, 0
  {
    ts == [] || (Natural(ts[0]) && AllNatural(ts[1..]))
  }

  lemma {:induction false} CountIsNatural(t: Tree)
    requires Consistent(t) && Natural(t)
    ensures t.count.events >= 0 && t.count.large >= 0
    decreases t, 1
  {
    LiveIsNatural(Of(t.own, Events), t.kids, Events);
    LiveIsNatural(Of(t.own, Large), t.kids, Large);
  }

  lemma {:induction false} LiveIsNatural(x: int, ts: seq<Tree>, m: Measure)
    requires x >= 0 && AllConsistent(ts) && AllNatural(ts)
    ensures AddLive(x, ts, m) >= 0
    decreases ts, 0
  {
    if ts != [] {
      CountIsNatural(ts[0]);
      LiveIsNatural(AddOne(x, ts[0], m), ts[1..], m);
    }
  }

  // Deleting by name touches nothing in ts that has anything to count.
  predicate Quiet(t: Tree, name: string)
    decreases t, 1
  {
    Pruned(t, name) || ((Flips(t, name, true) ==> t.count == Counts(0, 0)) && AllQuiet(t.kids, name))
  }

  predicate AllQuiet(ts: seq<Tree>, name: string)
    decreases ts, 0
  {
    ts == [] || (Quiet(ts[0], name) && AllQuiet(ts[1..], name))
  }

  // No span of the name that has anything to count lies inside another of the name.
  predicate Apart(t: Tree, name: string)
    decreases t, 1
  {
    Pruned(t, name) || ((t.name == name ==> AllQuiet(t.kids, name)) && AllApart(t.kids, name))
  }

  predicate AllApart(ts: seq<Tree>, name: string)
    decreases ts, 0
  {
    ts == [] || (Apart(ts[0], name) && AllApart(ts[1..], name))
  }

  lemma {:induction false} QuietIff(t: Tree, name: string)
    requires Consistent(t) && Natural(t)
    ensures Gain(t, name, true, Events) <= 0 && Gain(t, name, true, Large) <= 0
    ensures Gain(t, name, true, Events) == 0 && Gain(t, name, true, Large) == 0 <==> Quiet(t, name)
    decreases t, 1
  {
    CountIsNatural(t);
    AllQuietIff(t.kids, name);
  }

  lemma {:induction false} AllQuietIff(ts: seq<Tree>, name: string)
    requires AllConsistent(ts) && AllNatural(ts)
    ensures GainAll(ts, name, true, Events) <= 0 && GainAll(ts, name, true, Large) <= 0
    ensures GainAll(ts, name, true, Events) == 0 && GainAll(ts, name, true, Large) == 0 <==> AllQuiet(ts, name)
    decreases ts, 0
  {
    if ts != [] {
      QuietIff(ts[0], name);
      AllQuietIff(ts[1..], name);
    }
  }

  // Below no unpruned span of the name, at the top of ts, is anything that counts deleted.
  predicate TopsQuiet(ts: seq<Tree>, name: string) {
    ts == [] || ((ts[0].name == name ==> AllQuiet(ts[0].kids, name)) && TopsQuiet(ts[1..], name))
  }

  lemma {:induction false} LostIff(ts: seq<Tree>, name: string)
    requires AllConsistent(ts) && AllNatural(ts)
    ensures LostAll(ts, name, true, Events) <= 0 && LostAll(ts, name, true, Large) <= 0
    ensures LostAll(ts, name, true, Events) == 0 && LostAll(ts, name, true, Large) == 0 <==> TopsQuiet(ts, name)
  {
    if ts != [] {
      AllQuietIff(ts[0].kids, name);
      LostIff(ts[1..], name);
    }
  }

  lemma {:induction false} DeleteKeepsIff(t: Tree, name: string)
    requires Consistent(t) && Natural(t)
    ensures Consistent(Sweep(t, name, true))
            <==> Pruned(t, name) || (TopsQuiet(t.kids, name) && AllConsistent(SweepAll(t.kids, name, true)))
    decreases t, 1
  {
    if !Pruned(t, name) {
      AgreesIff(t, name, true, Events);
      AgreesIff(t, name, true, Large);
      LostIff(t.kids, name);
    }
  }

  lemma {:induction false} DeleteAllKeepsIff(ts: seq<Tree>, name: string)
    requires AllConsistent(ts) && AllNatural(ts)
    ensures TopsQuiet(ts, name) && AllConsistent(SweepAll(ts, name, true)) <==> AllApart(ts, name)
    decreases ts
  {
    if ts != [] {
      assert SweepAll(ts, name, true)[1..] == SweepAll(ts[1..], name, true);
      DeleteKeepsIff(ts[0], name);
      DeleteAllKeepsIff(ts[0].kids, name);
      DeleteAllKeepsIff(ts[1..], name);
    }
  }

  // Deleting all spans of a name keeps every counter right if and only if no such span that has anything
  // to count lies inside another one, the root of the log aside.
  lemma DeleteKeepsCountersIff(log: Tree, name: string)
    requires Consistent(log) && Natural(log)
    ensures Consistent(Sweep(log, name, true)) <==> Pruned(log, name) || AllApart(log.kids, name)
  {
    DeleteKeepsIff(log, name);
    DeleteAllKeepsIff(log.kids, name);
  }

  lemma {:induction false} BuiltNatural(name: string, items: seq<Item>)
    ensures Natural(Build(name, items))
    decreases items, 1
  {
    OwnIsNatural(0, items, Events);
    OwnIsNatural(0, items, Large);
    BuiltKidsNatural(items);
  }

  lemma {:induction false} BuiltKidsNatural(items: seq<Item>)
    ensures AllNatural(BuildKids(items))
    decreases items, 0
  {
    if items != [] {
      var i, rest := items[0], BuildKids(items[1..]);
      BuiltKidsNatural(items[1..]);
      if i.SubSpan? {
        BuiltItemNatural(i);
        Tail(Build(i.name, i.items), rest);
      } else {
        Nil(rest);
      }
    }
  }

  lemma {:induction false} BuiltItemNatural(i: Item)
    requires i.SubSpan?
    ensures Natural(Build(i.name, i.items))
    decreases i
  {
    BuiltNatural(i.name, i.items);
  }

  lemma {:induction false} OwnIsNatural(x: int, items: seq<Item>, m: Measure)
    requires x >= 0
    ensures AddOwn(x, items, m) >= 0
    decreases items
  {
    if items != [] {
      OwnIsNatural(AddEvent(x, items[0], m), items[1..], m);
    }
  }

  // What the viewer does to every new log, to hide the spans of one name.
  lemma DeleteInNewLog(log: string, items: seq<Item>, name: string)
    ensures var t := Build(log, items); Consistent(Swept(t, [], name, true)) <==> AllApart(t.kids, name)
  {
    BuiltConsistent(log, items);
    BuiltNatural(log, items);
    DeleteKeepsCountersIff(Build(log, items), name);
  }

  // A span of a name with one event, inside another span of the name: the log then counts less than
  // nothing.
  lemma NestedInNewLog(name: string) returns (items: seq<Item>)
    ensures var t := Build("log", items);
            !AllApart(t.kids, name) && !Consistent(Swept(t, [], name, true))
            && Swept(t, [], name, true).count == Counts(-1, 0)
  {
    var u := BuildOneEvent(name);
    var inner := SubSpan(name, [Event(false)]);
    var v := BuildOneSpan(name, inner, u);
    var outer := SubSpan(name, [inner]);
    var t := BuildOneSpan("log", outer, v);
    items := [outer];
    forall m ensures Gain(u, name, true, m) == -Of(u.count, m) && GainAll([v], name, true, m) == -2 * Of(u.count, m) {
      LeafGain(u, name, m);
      OneKidGain(v, u, name, m);
      assert [v][1..] == [];
    }
    assert [u][1..] == [] && [v][1..] == [];
    assert !Quiet(u, name) && !Apart(v, name);
    DeleteInNewLog("log", items, name);
  }

  lemma LeafGain(t: Tree, name: string, m: Measure)
    requires t.kids == [] && t.name == name && !t.deleted
    ensures Gain(t, name, true, m) == -Of(t.count, m)
  {
    assert GainAll(t.kids, name, true, m) == 0;
  }

  lemma OneKidGain(t: Tree, kid: Tree, name: string, m: Measure)
    requires t.kids == [kid] && t.name == name && !t.deleted
    ensures Gain(t, name, true, m) == -Of(t.count, m) + Gain(kid, name, true, m)
  {
    assert t.kids[1..] == [];
    assert GainAll(t.kids, name, true, m) == Gain(kid, name, true, m) + GainAll([], name, true, m);
  }

  lemma BuildOneEvent(name: string) returns (t: Tree)
    ensures t == Build(name, [Event(false)]) == Tree(name, Counts(1, 0), false, Counts(1, 0), [])
  {
    assert [Event(false)][1..] == [];
    t := Build(name, [Event(false)]);
  }

  lemma BuildOneSpan(name: string, i: Item, kid: Tree) returns (t: Tree)
    requires i.SubSpan? && kid == Build(i.name, i.items)
    ensures t == Build(name, [i]) == Tree(name, Counts(0, 0), false, kid.count, [kid])
  {
    assert [i][1..] == [];
    assert BuildItem(i) == [kid] && BuildKids([i]) == [kid] + BuildKids([]);
    forall m ensures AddOwn(0, [i], m) == 0 && AddEvents(0, [i], m) == Of(kid.count, m) {
      assert AddOwn(0, [i], m) == AddOwn(0, [], m) && AddEvents(0, [i], m) == AddEvents(AddItem(0, i, m), [], m);
    }
    t := Build(name, [i]);
  }

  // ----- The traversal of the objects -----

  function Total(c: Counts, d: Counts): Counts {
    Counts(c.events + d.events, c.large + d.large)
  }

  function GainOf(t: Tree, name: string, b: bool): Counts {
    Counts(Gain(t, name, b, Events), Gain(t, name, b, Large))
  }

  function GainOfAll(ts: seq<Tree>, name: string, b: bool): Counts {
    Counts(GainAll(ts, name, b, Events), GainAll(ts, name, b, Large))
  }

  // The tree with another one at the end of the path, and d more on the counters on the way to it.
  function Graft(t: Tree, path: seq<nat>, u: Tree, d: Counts): Tree
    requires IsPath(t, path)
    decreases path
  {
    if path == [] then u
    else
      var i := path[0];
      t.(count := Total(t.count, d), kids := t.kids[i := Graft(t.kids[i], path[1..], u, d)])
  }

  lemma {:induction false} GraftNothing(t: Tree, path: seq<nat>)
    requires IsPath(t, path)
    ensures Graft(t, path, At(t, path), Counts(0, 0)) == t
    decreases path
  {
    if path != [] {
      GraftNothing(t.kids[path[0]], path[1..]);
    }
  }

  lemma {:induction false} GraftAt(t: Tree, path: seq<nat>, u: Tree, d: Counts)
    requires IsPath(t, path)
    ensures IsPath(Graft(t, path, u, d), path) && At(Graft(t, path, u, d), path) == u
    decreases path
  {
    if path != [] {
      GraftAt(t.kids[path[0]], path[1..], u, d);
    }
  }

  lemma {:induction false} GraftAgain(t: Tree, path: seq<nat>, u: Tree, d: Counts, v: Tree, e: Counts)
    requires IsPath(t, path)
    ensures IsPath(Graft(t, path, u, d), path)
    ensures Graft(Graft(t, path, u, d), path, v, e) == Graft(t, path, v, Total(d, e))
    decreases path
  {
    if path != [] {
      var i := path[0];
      GraftAgain(t.kids[i], path[1..], u, d, v, e);
      assert t.kids[i := Graft(t.kids[i], path[1..], u, d)][i := Graft(t.kids[i], path[1..], v, Total(d, e))]
          == t.kids[i := Graft(t.kids[i], path[1..], v, Total(d, e))];
    }
  }

  // One child span further down.
  lemma {:induction false} GraftKid(t: Tree, path: seq<nat>, i: nat, u: Tree, d: Counts)
    requires IsPath(t, path) && i < |At(t, path).kids|
    ensures IsPath(t, path + [i]) && At(t, path + [i]) == At(t, path).kids[i]
    ensures var k := At(t, path).(count := Total(At(t, path).count, d), kids := At(t, path).kids[i := u]);
            Graft(t, path + [i], u, d) == Graft(t, path, k, d)
    decreases path
  {
    if path == [] {
      assert path + [i] == [i] && [i][1..] == [];
    } else {
      assert (path + [i])[1..] == path[1..] + [i] && (path + [i])[0] == path[0];
      GraftKid(t.kids[path[0]], path[1..], i, u, d);
    }
  }

  lemma {:induction false} ToggleGrafts(t: Tree, path: seq<nat>, d: Counts)
    requires IsPath(t, path)
    ensures Shift(t, path, d) == Graft(t, path, At(t, path).(deleted := !At(t, path).deleted), d)
    decreases path
  {
    if path != [] {
      ToggleGrafts(t.kids[path[0]], path[1..], d);
    }
  }

  // The span with its flag set, and the traversal of its first n child spans done.
  function Partly(t: Tree, name: string, b: bool, n: nat): Tree
    requires n <= |t.kids|
  {
    t.(deleted := if t.name == name then b else t.deleted,
       count := Total(t.count, GainOfAll(t.kids[..n], name, b)),
       kids := SweepAll(t.kids[..n], name, b) + t.kids[n..])
  }

  function PartOfGain(t: Tree, name: string, b: bool, n: nat): Counts
    requires n <= |t.kids|
  {
    Total(if Flips(t, name, b) then Offset(t) else Counts(0, 0), GainOfAll(t.kids[..n], name, b))
  }

  lemma {:induction false} SweepNext(ts: seq<Tree>, t: Tree, name: string, b: bool)
    ensures SweepAll(ts + [t], name, b) == SweepAll(ts, name, b) + [Sweep(t, name, b)]
    ensures forall m :: GainAll(ts + [t], name, b, m) == GainAll(ts, name, b, m) + Gain(t, name, b, m)
    decreases ts
  {
    if ts == [] {
      assert ts + [t] == [t] && [t][1..] == [];
    } else {
      assert (ts + [t])[1..] == ts[1..] + [t] && (ts + [t])[0] == ts[0];
      SweepNext(ts[1..], t, name, b);
    }
  }

  lemma PartlyNext(t: Tree, name: string, b: bool, n: nat)
    requires n < |t.kids|
    ensures var k, d := Partly(t, name, b, n), GainOf(t.kids[n], name, b);
            && |k.kids| == |t.kids| && k.kids[n] == t.kids[n]
            && Partly(t, name, b, n + 1)
               == k.(count := Total(k.count, d), kids := k.kids[n := Sweep(t.kids[n], name, b)])
            && PartOfGain(t, name, b, n + 1) == Total(PartOfGain(t, name, b, n), d)
  {
    assert t.kids[..n + 1] == t.kids[..n] + [t.kids[n]];
    SweepNext(t.kids[..n], t.kids[n], name, b);
  }

  lemma PartlyAll(t: Tree, name: string, b: bool)
    requires !Pruned(t, name)
    ensures Partly(t, name, b, |t.kids|) == Sweep(t, name, b)
    ensures PartOfGain(t, name, b, |t.kids|) == GainOf(t, name, b)
  {
    assert t.kids[..|t.kids|] == t.kids;
  }

  lemma PartlyStarts(t: Tree, name: string, b: bool)
    ensures Partly(t, name, b, 0) == if Flips(t, name, b) then t.(deleted := !t.deleted) else t
    ensures PartOfGain(t, name, b, 0) == if Flips(t, name, b) then Offset(t) else Counts(0, 0)
  {
    assert Partly(t, name, b, 0).kids == t.kids;
  }

  // The log when the traversal of the span at p has returned.
  function Swept(t: Tree, p: seq<nat>, name: string, b: bool): Tree
    requires IsPath(t, p)
  {
    Graft(t, p, Sweep(At(t, p), name, b), GainOf(At(t, p), name, b))
  }

  // Before the first child span.
  function Begun(t: Tree, p: seq<nat>, name: string, b: bool): Tree
    requires IsPath(t, p)
  {
    if Flips(At(t, p), name, b) then Toggle(t, p) else t
  }

  // One turn over child span i of u, which is at p.
  ghost predicate Turns(stages: seq<Tree>, i: nat, p: seq<nat>, u: Tree, name: string, b: bool)
    requires i < |stages| - 1 && i < |u.kids|
  {
    && IsPath(stages[i], p) && |At(stages[i], p).kids| == |u.kids|
    && IsPath(stages[i], p + [i]) && At(stages[i], p + [i]) == u.kids[i]
    && Swept(stages[i], p + [i], name, b) == stages[i + 1]
  }

  // The log before and after each turn.
  ghost predicate Stages(stages: seq<Tree>, p: seq<nat>, u: Tree, name: string, b: bool) {
    && |stages| == |u.kids| + 1
    && IsPath(stages[|u.kids|], p) && |At(stages[|u.kids|], p).kids| == |u.kids|
    && forall i: nat {:trigger Turns(stages, i, p, u, name, b)} :: i < |u.kids| ==> Turns(stages, i, p, u, name, b)
  }

  lemma SweptNext(t: Tree, p: seq<nat>, name: string, b: bool, i: nat)
    requires IsPath(t, p) && i < |At(t, p).kids|
    ensures var u := At(t, p);
            var now := Graft(t, p, Partly(u, name, b, i), PartOfGain(u, name, b, i));
            && IsPath(now, p) && |At(now, p).kids| == |u.kids|
            && IsPath(now, p + [i]) && At(now, p + [i]) == u.kids[i]
            && Swept(now, p + [i], name, b)
               == Graft(t, p, Partly(u, name, b, i + 1), PartOfGain(u, name, b, i + 1))
  {
    var u := At(t, p);
    var k, e := Partly(u, name, b, i), PartOfGain(u, name, b, i);
    var v, d := Sweep(u.kids[i], name, b), GainOf(u.kids[i], name, b);
    PartlyNext(u, name, b, i);
    GraftAt(t, p, k, e);
    GraftKid(Graft(t, p, k, e), p, i, v, d);
    GraftAgain(t, p, k, e, k.(count := Total(k.count, d), kids := k.kids[i := v]), d);
  }

  lemma BegunIsPartly(t: Tree, p: seq<nat>, name: string, b: bool)
    requires IsPath(t, p)
    ensures Begun(t, p, name, b) == Graft(t, p, Partly(At(t, p), name, b, 0), PartOfGain(At(t, p), name, b, 0))
  {
    PartlyStarts(At(t, p), name, b);
    if Flips(At(t, p), name, b) {
      ToggleGrafts(t, p, Offset(At(t, p)));
    } else {
      GraftNothing(t, p);
    }
  }

  lemma SweptIsPartly(t: Tree, p: seq<nat>, name: string, b: bool)
    requires IsPath(t, p) && !Pruned(At(t, p), name)
    ensures var u := At(t, p);
            && Swept(t, p, name, b) == Graft(t, p, Partly(u, name, b, |u.kids|), PartOfGain(u, name, b, |u.kids|))
            && IsPath(Swept(t, p, name, b), p) && |At(Swept(t, p, name, b), p).kids| == |u.kids|
  {
    PartlyAll(At(t, p), name, b);
    GraftAt(t, p, Sweep(At(t, p), name, b), GainOf(At(t, p), name, b));
  }

  lemma OneTurn(t: Tree, p: seq<nat>, name: string, b: bool, stages: seq<Tree>, i: nat)
    requires IsPath(t, p) && i < |At(t, p).kids| && i < |stages| - 1
    requires stages[i] == Graft(t, p, Partly(At(t, p), name, b, i), PartOfGain(At(t, p), name, b, i))
    requires stages[i + 1] == Graft(t, p, Partly(At(t, p), name, b, i + 1), PartOfGain(At(t, p), name, b, i + 1))
    ensures Turns(stages, i, p, At(t, p), name, b)
  {
    SweptNext(t, p, name, b, i);
  }

  lemma StagesOf(t: Tree, p: seq<nat>, name: string, b: bool) returns (stages: seq<Tree>)
    requires IsPath(t, p) && !Pruned(At(t, p), name)
    ensures Stages(stages, p, At(t, p), name, b)
    ensures stages[0] == Begun(t, p, name, b) && stages[|At(t, p).kids|] == Swept(t, p, name, b)
  {
    var u := At(t, p);
    var first, last := Begun(t, p, name, b), Swept(t, p, name, b);
    stages := Underway(t, p, name, b, |u.kids|);
    SweptIsPartly(t, p, name, b);
  }

  // The log before and after each of the first n turns.
  lemma {:induction false} Underway(t: Tree, p: seq<nat>, name: string, b: bool, n: nat) returns (stages: seq<Tree>)
    requires IsPath(t, p) && n <= |At(t, p).kids|
    ensures |stages| == n + 1 && stages[0] == Begun(t, p, name, b)
    ensures stages[n] == Graft(t, p, Partly(At(t, p), name, b, n), PartOfGain(At(t, p), name, b, n))
    ensures forall i: nat {:trigger Turns(stages, i, p, At(t, p), name, b)} :: i < n ==>
              Turns(stages, i, p, At(t, p), name, b)
  {
    if n == 0 {
      BegunIsPartly(t, p, name, b);
      stages := [Begun(t, p, name, b)];
    } else {
      var before := Underway(t, p, name, b, n - 1);
      var u := At(t, p);
      stages := before + [Graft(t, p, Partly(u, name, b, n), PartOfGain(u, name, b, n))];
      forall i: nat | i < n ensures Turns(stages, i, p, u, name, b) {
        if i < n - 1 {
          assert Turns(before, i, p, u, name, b);
        } else {
          OneTurn(t, p, name, b, stages, i);
        }
      }
    }
  }

  lemma IsShown(s: Span, log: Nodes, t: Tree, p: seq<nat>)
    requires p in log && log[p] == s && Represents(log, null, t)
    ensures IsPath(t, p) && s.Shows(At(t, p)) && s.HasChildren(p, log)
  {
    assert Fits(log, t, p);
  }

  // The span at p, then the spans below it in order.
  method SetDeletedSpansWithName(s: Span, name: string, b: bool, ghost p: seq<nat>, ghost log: Nodes, ghost t: Tree)
    requires Represents(log, null, t) && p in log && log[p] == s
    modifies log.Values
    ensures Represents(log, null, Swept(t, p, name, b))
    decreases At(t, p), 2
  {
    IsShown(s, log, t, p);
    var matches := s.name == name;
    if s.deleted && !matches {
      GraftNothing(t, p);
    } else {
      if matches {
        s.SetDeleted(b, p, log, t);
      }
      ghost var stages := StagesOf(t, p, name, b);
      SweepChildren(s, name, b, p, log, At(t, p), stages);
    }
  }

  // The loop over the child spans.
  method SweepChildren(s: Span, name: string, b: bool, ghost p: seq<nat>, ghost log: Nodes, ghost u: Tree,
                       ghost stages: seq<Tree>)
    requires Stages(stages, p, u, name, b)
    requires p in log && log[p] == s && Represents(log, null, stages[0])
    modifies log.Values
    ensures Represents(log, null, stages[|u.kids|])
    decreases u, 1
  {
    assert |u.kids| > 0 ==> Turns(stages, 0, p, u, name, b);
    IsShown(s, log, stages[0], p);
    for i := 0 to |s.children|
      invariant |s.children| == |u.kids|
      invariant Represents(log, null, stages[i])
    {
      SweepChild(s, i, name, b, p, log, u, stages);
    }
  }

  method SweepChild(s: Span, i: nat, name: string, b: bool, ghost p: seq<nat>, ghost log: Nodes, ghost u: Tree,
                    ghost stages: seq<Tree>)
    requires Stages(stages, p, u, name, b) && i < |u.kids|
    requires p in log && log[p] == s && Represents(log, null, stages[i])
    modifies log.Values
    ensures |s.children| == |u.kids| && Represents(log, null, stages[i + 1])
    decreases u, 0
  {
    assert Turns(stages, i, p, u, name, b);
    IsShown(s, log, stages[i], p);
    SetDeletedSpansWithName(s.children[i], name, b, p + [i], log, stages[i]);
    assert i + 1 < |u.kids| ==> Turns(stages, i + 1, p, u, name, b);
    IsShown(s, log, stages[i + 1], p);
  }
}
