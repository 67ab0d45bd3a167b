/**
 * Opaque values: Clang identifies a bound sub-expression by its node, the printed term by a number.
 * Binary conditionals and array loops bind one; array loops also bind an index, known by its level.
 */
module OpaqueNumbering {
  import opened Sequences

  type NodeId = nat

  datatype Expr =
    | Opaque(id: NodeId)
    | ArrayIndex
    | BinCond(binder: NodeId, common: Expr, cond: Expr, thn: Expr, els: Expr)   // c ?: e
    | ArrayLoop(binder: NodeId, source: Expr, size: nat, body: Expr)
    | Op(tag: string, args: seq<Expr>)
    | Detached(tag: string, args: seq<Expr>)       // comma, &&, ||: operands start with new names

  datatype Out =
    | EopaqueRef(n: int)
    | EarrayloopIndex(level: int)
    | Eif2(n: int, common: Out, cond: Out, thn: Out, els: Out)
    | EarrayloopInit(n: int, source: Out, level: int, size: nat, body: Out)
    | Eop(tag: string, args: seq<Out>)

  // ----- The numbering -----

  datatype Names = Names(indexes: seq<NodeId>, count: int)

  const NO_NAMES := Names([], -1)

  // The first place of id, or -1.
  function Find(ids: seq<NodeId>, id: NodeId): (n: int)
    ensures if id in ids then 0 <= n < |ids| && ids[n] == id && (forall k :: 0 <= k < n ==> ids[k] != id) else n == -1
  {
    if ids == [] then -1
    else
      var n := Find(ids[..|ids| - 1], id);
      if n != -1 then n
      else if ids[|ids| - 1] == id then |ids| - 1
      else -1
  }

  function Bind(s: Names, id: NodeId): Names {
    s.(indexes := s.indexes + [id])
  }

  function Deeper(s: Names): Names {
    s.(count := s.count + 1)
  }

  function Shallower(s: Names): Names {
    s.(count := s.count - 1)
  }

  function Print(e: Expr, s: Names): (Out, Names)
    decreases e, 0
  {
    match e
    case Opaque(id) => (EopaqueRef(Find(s.indexes, id)), s)
    case ArrayIndex => (EarrayloopIndex(s.count), s)
    case BinCond(b, c, k, t, f) =>
      var (c', s1) := Print(c, Bind(s, b));
      var (k', s2) := Print(k, Deeper(s1));
      var (t', s3) := Print(t, s2);
      var (f', s4) := Print(f, s3);
      (Eif2(|s.indexes|, c', k', t', f'), Shallower(s4))
    case ArrayLoop(b, x, n, y) =>
      var (x', s1) := Print(x, Bind(s, b));
      var (y', s2) := Print(y, Deeper(s1));
      (EarrayloopInit(|s.indexes|, x', s1.count + 1, n, y'), Shallower(s2))
    case Op(tag, args) =>
      var (os, s1) := PrintArgs(args, s);
      (Eop(tag, os), s1)
    case Detached(tag, args) => (Eop(tag, PrintDetached(args)), s)
  }

  function PrintArgs(args: seq<Expr>, s: Names): (seq<Out>, Names)
    decreases args, 0
  {
    if args == [] then ([], s)
    else
      var (o, s1) := Print(args[0], s);
      var (os, s2) := PrintArgs(args[1..], s1);
      ([o] + os, s2)
  }

  function PrintDetached(args: seq<Expr>): seq<Out>
    decreases args, 0
  {
    if args == [] then [] else [Print(args[0], NO_NAMES).0] + PrintDetached(args[1..])
  }

  // The nodes that printing e binds, in order.
  function Binders(e: Expr): seq<NodeId>
    decreases e, 0
  {
    match e
    case BinCond(b, c, k, t, f) => [b] + (Binders(c) + (Binders(k) + (Binders(t) + Binders(f))))
    case ArrayLoop(b, x, _, y) => [b] + (Binders(x) + Binders(y))
    case Op(_, args) => ArgBinders(args)
    case _ => []
  }

  function ArgBinders(args: seq<Expr>): seq<NodeId>
    decreases args, 0
  {
    if args == [] then [] else Binders(args[0]) + ArgBinders(args[1..])
  }

  // Printing restores the index count and only appends the nodes it binds.
  lemma {:induction false} PrintRestores(e: Expr, s: Names)
    ensures Print(e, s).1 == Names(s.indexes + Binders(e), s.count)
    decreases e, 0
  {
    match e
    case BinCond(b, c, k, t, f) =>
      var s0 := Bind(s, b);
      PrintRestores(c, s0);
      var s1 := Print(c, s0).1;
      PrintRestores(k, Deeper(s1));
      var s2 := Print(k, Deeper(s1)).1;
      PrintRestores(t, s2);
      var s3 := Print(t, s2).1;
      PrintRestores(f, s3);
      Assoc(s.indexes, [b], Binders(c));
      Assoc4(s.indexes, [b] + Binders(c), Binders(k), Binders(t));
      Assoc(s.indexes, [b] + Binders(c), Binders(k) + (Binders(t) + Binders(f)));
      Assoc4(s.indexes + ([b] + Binders(c)), Binders(k), Binders(t), Binders(f));
      Assoc([b], Binders(c), Binders(k) + (Binders(t) + Binders(f)));
    case ArrayLoop(b, x, n, y) =>
      var s0 := Bind(s, b);
      PrintRestores(x, s0);
      PrintRestores(y, Deeper(Print(x, s0).1));
      Assoc4(s.indexes, [b], Binders(x), Binders(y));
    case Op(_, args) => PrintArgsRestores(args, s);
    case _ => Nil(s.indexes);
  }

  lemma {:induction false} PrintArgsRestores(args: seq<Expr>, s: Names)
    ensures PrintArgs(args, s).1 == Names(s.indexes + ArgBinders(args), s.count)
    decreases args, 0
  {
    if args == [] {
      Nil(s.indexes);
    } else {
      PrintRestores(args[0], s);
      PrintArgsRestores(args[1..], Print(args[0], s).1);
      Assoc(s.indexes, Binders(args[0]), ArgBinders(args[1..]));
    }
  }

  // ----- Binding by node: what the numbers should be -----

  // Every node that e binds, also behind commas, && and ||.
  function All(e: Expr): set<NodeId>
    decreases e, 0
  {
    match e
    case BinCond(b, c, k, t, f) => {b} + All(c) + All(k) + All(t) + All(f)
    case ArrayLoop(b, x, _, y) => {b} + All(x) + All(y)
    case Op(_, args) => AllOfArgs(args)
    case Detached(_, args) => AllOfArgs(args)
    case _ => {}
  }

  function AllOfArgs(args: seq<Expr>): set<NodeId>
    decreases args, 0
  {
    if args == [] then {} else All(args[0]) + AllOfArgs(args[1..])
  }

  // Clang's invariants: no node binds twice, ...
  predicate BindsOnce(e: Expr)
    decreases e, 0
  {
    match e
    case BinCond(b, c, k, t, f) =>
      && BindsOnce(c) && BindsOnce(k) && BindsOnce(t) && BindsOnce(f)
      && {b} !! All(c) !! All(k) !! All(t) !! All(f)
    case ArrayLoop(b, x, _, y) => BindsOnce(x) && BindsOnce(y) && {b} !! All(x) !! All(y)
    case Op(_, args) => ArgsBindOnce(args)
    case Detached(_, args) => ArgsBindOnce(args)
    case _ => true
  }

  predicate ArgsBindOnce(args: seq<Expr>)
    decreases args, 0
  {
    args == [] || (BindsOnce(args[0]) && ArgsBindOnce(args[1..]) && All(args[0]) !! AllOfArgs(args[1..]))
  }

  // ... a reference lies in the scope of its binder, and an index inside a loop.
  predicate InScope(e: Expr, scope: set<NodeId>, inLoop: bool)
    decreases e, 0
  {
    match e
    case Opaque(id) => id in scope
    case ArrayIndex => inLoop
    case BinCond(b, c, k, t, f) =>
      && InScope(c, scope, inLoop)
      && InScope(k, scope + {b}, inLoop) && InScope(t, scope + {b}, inLoop) && InScope(f, scope + {b}, inLoop)
    case ArrayLoop(b, x, _, y) => InScope(x, scope, inLoop) && InScope(y, scope + {b}, true)
    case Op(_, args) => AllInScope(args, scope, inLoop)
    case Detached(_, args) => AllInScope(args, scope, inLoop)
  }

  predicate AllInScope(args: seq<Expr>, scope: set<NodeId>, inLoop: bool)
    decreases args, 0
  {
    args == [] || (InScope(args[0], scope, inLoop) && AllInScope(args[1..], scope, inLoop))
  }

  // The condition as the traversal meets it: what is visible, the count, and the level of the loop.
  predicate Right(e: Expr, visible: set<NodeId>, count: int, level: int)
    decreases e, 0
  {
    match e
    case Opaque(id) => id in visible
    case ArrayIndex => count == level
    case BinCond(b, c, k, t, f) =>
      && Right(c, visible, count, level)
      && Right(k, visible + {b}, count + 1, level)
      && Right(t, visible + {b}, count + 1, level)
      && Right(f, visible + {b}, count + 1, level)
    case ArrayLoop(b, x, _, y) => Right(x, visible, count, level) && Right(y, visible + {b}, count + 1, count + 1)
    case Op(_, args) => AllRight(args, visible, count, level)
    case Detached(_, args) => AllRight(args, {}, -1, level)
  }

  predicate AllRight(args: seq<Expr>, visible: set<NodeId>, count: int, level: int)
    decreases args, 0
  {
    args == [] || (Right(args[0], visible, count, level) && AllRight(args[1..], visible, count, level))
  }

  // The condition on the expression itself. The frames around a sub-expression, from the outside in:
  // the body of an array loop, a `?:` around anything but its common operand, and an operand of a
  // comma, && or ||.
  datatype Frame = Body(binder: NodeId) | Branch(binder: NodeId) | FreshNames

  // The place of the innermost loop body, or -1.
  function Innermost(fs: seq<Frame>): (i: int)
    ensures -1 <= i < |fs| && (i >= 0 ==> fs[i].Body?) && forall j :: i < j < |fs| ==> !fs[j].Body?
  {
    if fs == [] then -1 else if fs[|fs| - 1].Body? then |fs| - 1 else Innermost(fs[..|fs| - 1])
  }

  // The place of the last frame with fresh names, or -1.
  function LastFresh(fs: seq<Frame>): (k: int)
    ensures -1 <= k < |fs| && (k >= 0 ==> fs[k].FreshNames?) && forall j :: k < j < |fs| ==> !fs[j].FreshNames?
  {
    if fs == [] then -1 else if fs[|fs| - 1].FreshNames? then |fs| - 1 else LastFresh(fs[..|fs| - 1])
  }

  // The level of the innermost loop: how many frames lie between it and the fresh names around it.
  function LoopLevel(fs: seq<Frame>): int {
    var i := Innermost(fs);
    if i == -1 then -1 else i - 1 - LastFresh(fs[..i])
  }

  // No fresh names lie between a reference and its binder.
  predicate SeesBinder(fs: seq<Frame>, id: NodeId) {
    exists i :: LastFresh(fs) < i < |fs| && fs[i].binder == id
  }

  // Between an index and its loop lies no frame at all, or else fresh names, and behind the last of
  // them by chance exactly as many `?:` as the level of the loop and one.
  predicate SeesLoop(fs: seq<Frame>) {
    if LastFresh(fs) < Innermost(fs) then Innermost(fs) == |fs| - 1
    else |fs| - 1 - LastFresh(fs) == LoopLevel(fs) + 1
  }

  predicate WellPlaced(e: Expr, fs: seq<Frame>)
    decreases e, 0
  {
    match e
    case Opaque(id) => SeesBinder(fs, id)
    case ArrayIndex => SeesLoop(fs)
    case BinCond(b, c, k, t, f) =>
      var inner := fs + [Branch(b)];
      WellPlaced(c, fs) && WellPlaced(k, inner) && WellPlaced(t, inner) && WellPlaced(f, inner)
    case ArrayLoop(b, x, _, y) => WellPlaced(x, fs) && WellPlaced(y, fs + [Body(b)])
    case Op(_, args) => AllWellPlaced(args, fs)
    case Detached(_, args) => AllWellPlaced(args, fs + [FreshNames])
  }

  predicate AllWellPlaced(args: seq<Expr>, fs: seq<Frame>)
    decreases args, 0
  {
    args == [] || (WellPlaced(args[0], fs) && AllWellPlaced(args[1..], fs))
  }

  // What the traversal has computed inside the frames.
  ghost predicate Computed(fs: seq<Frame>, visible: set<NodeId>, count: int, level: int) {
    && (forall id :: id in visible <==> SeesBinder(fs, id))
    && count == |fs| - 2 - LastFresh(fs)
    && level == LoopLevel(fs)
  }

  lemma ComputedNext(fs: seq<Frame>, frame: Frame, visible: set<NodeId>, count: int, level: int)
    requires Computed(fs, visible, count, level)
    ensures frame.FreshNames? ==> Computed(fs + [frame], {}, -1, level)
    ensures frame.Branch? ==> Computed(fs + [frame], visible + {frame.binder}, count + 1, level)
    ensures frame.Body? ==> Computed(fs + [frame], visible + {frame.binder}, count + 1, count + 1)
  {
    var gs := fs + [frame];
    assert gs[..|fs|] == fs && gs[|fs|] == frame;
    if Innermost(fs) != -1 && !frame.Body? {
      assert gs[..Innermost(fs)] == fs[..Innermost(fs)];
    }
    if !frame.FreshNames? {
      forall id ensures SeesBinder(gs, id) <==> SeesBinder(fs, id) || id == frame.binder {
        SeesNext(fs, frame, id);
      }
    }
  }

  lemma SeesNext(fs: seq<Frame>, frame: Frame, id: NodeId)
    requires !frame.FreshNames?
    ensures SeesBinder(fs + [frame], id) <==> SeesBinder(fs, id) || id == frame.binder
  {
    var gs := fs + [frame];
    assert gs[..|fs|] == fs && gs[|fs|] == frame;
    if SeesBinder(fs, id) {
      var i :| LastFresh(fs) < i < |fs| && fs[i].binder == id;
      assert gs[i] == fs[i];
    }
    if SeesBinder(gs, id) {
      var i :| LastFresh(gs) < i < |gs| && gs[i].binder == id;
      assert i < |fs| ==> gs[i] == fs[i];
    }
  }

  lemma SeesLoopIff(fs: seq<Frame>, visible: set<NodeId>, count: int, level: int)
    requires Computed(fs, visible, count, level)
    ensures count == level <==> SeesLoop(fs)
  {
    var i, k := Innermost(fs), LastFresh(fs);
    if k < i {
      assert LastFresh(fs[..i]) == k by {
        PrefixFresh(fs, i);
      }
    }
  }

  lemma {:induction false} PrefixFresh(fs: seq<Frame>, i: nat)
    requires LastFresh(fs) < i <= |fs|
    ensures LastFresh(fs[..i]) == LastFresh(fs)
  {
    var k, k' := LastFresh(fs), LastFresh(fs[..i]);
    assert k >= 0 ==> fs[..i][k] == fs[k];
    assert k' >= 0 ==> fs[..i][k'] == fs[k'];
  }

  // The two forms of the condition agree.
  lemma {:induction false} RightIffWellPlaced(e: Expr, fs: seq<Frame>, visible: set<NodeId>, count: int, level: int)
    requires Computed(fs, visible, count, level)
    ensures Right(e, visible, count, level) <==> WellPlaced(e, fs)
    decreases e, 0
  {
    match e
    case Opaque(_) =>
    case ArrayIndex => SeesLoopIff(fs, visible, count, level);
    case BinCond(b, c, k, t, f) =>
      var inner := fs + [Branch(b)];
      ComputedNext(fs, Branch(b), visible, count, level);
      RightIffWellPlaced(c, fs, visible, count, level);
      RightIffWellPlaced(k, inner, visible + {b}, count + 1, level);
      RightIffWellPlaced(t, inner, visible + {b}, count + 1, level);
      RightIffWellPlaced(f, inner, visible + {b}, count + 1, level);
    case ArrayLoop(b, x, _, y) =>
      ComputedNext(fs, Body(b), visible, count, level);
      RightIffWellPlaced(x, fs, visible, count, level);
      RightIffWellPlaced(y, fs + [Body(b)], visible + {b}, count + 1, count + 1);
    case Op(_, args) => AllRightIffWellPlaced(args, fs, visible, count, level);
    case Detached(_, args) =>
      ComputedNext(fs, FreshNames, visible, count, level);
      AllRightIffWellPlaced(args, fs + [FreshNames], {}, -1, level);
  }

  lemma {:induction false} AllRightIffWellPlaced(
      args: seq<Expr>, fs: seq<Frame>, visible: set<NodeId>, count: int, level: int)
    requires Computed(fs, visible, count, level)
    ensures AllRight(args, visible, count, level) <==> AllWellPlaced(args, fs)
    decreases args, 0
  {
    if args != [] {
      RightIffWellPlaced(args[0], fs, visible, count, level);
      AllRightIffWellPlaced(args[1..], fs, visible, count, level);
    }
  }

  // In particular: no comma, && or || at all, and no `?:` between a loop and its index.
  predicate Threaded(e: Expr, direct: bool)
    decreases e, 0
  {
    match e
    case Opaque(_) => true
    case ArrayIndex => direct
    case BinCond(b, c, k, t, f) => Threaded(c, direct) && Threaded(k, false) && Threaded(t, false) && Threaded(f, false)
    case ArrayLoop(b, x, _, y) => Threaded(x, direct) && Threaded(y, true)
    case Op(_, args) => AllThreaded(args, direct)
    case Detached(_, _) => false
  }

  predicate AllThreaded(args: seq<Expr>, direct: bool)
    decreases args, 0
  {
    args == [] || (Threaded(args[0], direct) && AllThreaded(args[1..], direct))
  }

  lemma {:induction false} ThreadedIsRight(e: Expr, scope: set<NodeId>, inLoop: bool, direct: bool, count: int,
                                           level: int)
    requires InScope(e, scope, inLoop) && Threaded(e, direct) && (direct ==> count == level)
    ensures Right(e, scope, count, level)
    decreases e, 0
  {
    match e
    case BinCond(b, c, k, t, f) =>
      ThreadedIsRight(c, scope, inLoop, direct, count, level);
      ThreadedIsRight(k, scope + {b}, inLoop, false, count + 1, level);
      ThreadedIsRight(t, scope + {b}, inLoop, false, count + 1, level);
      ThreadedIsRight(f, scope + {b}, inLoop, false, count + 1, level);
    case ArrayLoop(b, x, _, y) =>
      ThreadedIsRight(x, scope, inLoop, direct, count, level);
      ThreadedIsRight(y, scope + {b}, true, true, count + 1, count + 1);
    case Op(_, args) => ArgsThreadedRight(args, scope, inLoop, direct, count, level);
    case _ =>
  }

  lemma {:induction false} ArgsThreadedRight(
      args: seq<Expr>, scope: set<NodeId>, inLoop: bool, direct: bool, count: int, level: int)
    requires AllInScope(args, scope, inLoop) && AllThreaded(args, direct) && (direct ==> count == level)
    ensures AllRight(args, scope, count, level)
    decreases args, 0
  {
    if args != [] {
      ThreadedIsRight(args[0], scope, inLoop, direct, count, level);
      ArgsThreadedRight(args[1..], scope, inLoop, direct, count, level);
    }
  }

  // Binders are numbered as printed, but every reference carries the number of its own binder, and
  // every index the level of its own loop.
  function Resolve(e: Expr, s: Names, numbers: map<NodeId, int>, level: int): Out
    decreases e, 0
  {
    match e
    case Opaque(id) => EopaqueRef(if id in numbers then numbers[id] else -1)
    case ArrayIndex => EarrayloopIndex(level)
    case BinCond(b, c, k, t, f) =>
      var s1 := Print(c, Bind(s, b)).1;
      var s2 := Print(k, Deeper(s1)).1;
      var s3 := Print(t, s2).1;
      var inner := numbers[b := |s.indexes|];
      Eif2(|s.indexes|, Resolve(c, Bind(s, b), numbers, level), Resolve(k, Deeper(s1), inner, level),
           Resolve(t, s2, inner, level), Resolve(f, s3, inner, level))
    case ArrayLoop(b, x, n, y) =>
      var s1 := Print(x, Bind(s, b)).1;
      EarrayloopInit(|s.indexes|, Resolve(x, Bind(s, b), numbers, level), s1.count + 1, n,
                     Resolve(y, Deeper(s1), numbers[b := |s.indexes|], s1.count + 1))
    case Op(tag, args) => Eop(tag, ResolveArgs(args, s, numbers, level))
    case Detached(tag, args) => Eop(tag, ResolveDetached(args, numbers, level))
  }

  function ResolveArgs(args: seq<Expr>, s: Names, numbers: map<NodeId, int>, level: int): seq<Out>
    decreases args, 0
  {
    if args == [] then []
    else [Resolve(args[0], s, numbers, level)] + ResolveArgs(args[1..], Print(args[0], s).1, numbers, level)
  }

  function ResolveDetached(args: seq<Expr>, numbers: map<NodeId, int>, level: int): seq<Out>
    decreases args, 0
  {
    if args == [] then []
    else [Resolve(args[0], NO_NAMES, numbers, level)] + ResolveDetached(args[1..], numbers, level)
  }

  // The visible binders carry the numbers that `find` returns; those behind a comma, && or || are
  // numbered but not found.
  ghost predicate Tracks(ids: seq<NodeId>, scope: set<NodeId>, visible: set<NodeId>, numbers: map<NodeId, int>) {
    && visible <= scope && numbers.Keys == scope
    && (forall id :: id in visible ==> id in ids && numbers[id] == Find(ids, id))
    && (forall id :: id in scope && id !in visible ==> id !in ids && numbers[id] >= 0)
  }

  ghost predicate New(nodes: set<NodeId>, ids: seq<NodeId>, scope: set<NodeId>) {
    nodes !! scope && forall id :: id in nodes ==> id !in ids
  }

  lemma {:induction false} BindersAreInAll(e: Expr)
    ensures forall id :: id in Binders(e) ==> id in All(e)
    decreases e, 0
  {
    match e
    case BinCond(b, c, k, t, f) =>
      BindersAreInAll(c);
      BindersAreInAll(k);
      BindersAreInAll(t);
      BindersAreInAll(f);
    case ArrayLoop(b, x, _, y) =>
      BindersAreInAll(x);
      BindersAreInAll(y);
    case Op(_, args) => ArgBindersAreInAll(args);
    case _ =>
  }

  lemma {:induction false} ArgBindersAreInAll(args: seq<Expr>)
    ensures forall id :: id in ArgBinders(args) ==> id in AllOfArgs(args)
    decreases args, 0
  {
    if args != [] {
      BindersAreInAll(args[0]);
      ArgBindersAreInAll(args[1..]);
    }
  }

  lemma FindAppend(a: seq<NodeId>, b: seq<NodeId>, id: NodeId)
    requires id in a
    ensures Find(a + b, id) == Find(a, id)
  {
    var i, j := Find(a + b, id), Find(a, id);
    assert (a + b)[j] == id && (i < |a| ==> a[i] == id);
  }

  // Later binders leave what is tracked as it is.
  lemma TracksGrow(ids: seq<NodeId>, more: seq<NodeId>, scope: set<NodeId>, visible: set<NodeId>,
                   numbers: map<NodeId, int>)
    requires Tracks(ids, scope, visible, numbers) && forall id :: id in more ==> id !in scope
    ensures Tracks(ids + more, scope, visible, numbers)
  {
    forall id | id in visible ensures Find(ids + more, id) == Find(ids, id) {
      FindAppend(ids, more, id);
    }
  }

  // After printing e, with the nodes of rest still to come.
  lemma AfterPrint(e: Expr, s: Names, scope: set<NodeId>, visible: set<NodeId>, numbers: map<NodeId, int>,
                   rest: set<NodeId>)
    requires Tracks(s.indexes, scope, visible, numbers) && New(All(e) + rest, s.indexes, scope) && All(e) !! rest
    ensures var r := Print(e, s).1;
            && r.count == s.count && r.indexes == s.indexes + Binders(e)
            && Tracks(r.indexes, scope, visible, numbers) && New(rest, r.indexes, scope)
  {
    PrintRestores(e, s);
    BindersAreInAll(e);
    TracksGrow(s.indexes, Binders(e), scope, visible, numbers);
  }

  // The binder gets the next number, before the scope of the binder opens ...
  lemma AfterBind(b: NodeId, s: Names, scope: set<NodeId>, visible: set<NodeId>, numbers: map<NodeId, int>,
                  rest: set<NodeId>)
    requires Tracks(s.indexes, scope, visible, numbers) && New({b} + rest, s.indexes, scope) && b !in rest
    ensures var ids := s.indexes + [b];
            && Tracks(ids, scope, visible, numbers) && New(rest, ids, scope) && Find(ids, b) == |s.indexes|
  {
    TracksGrow(s.indexes, [b], scope, visible, numbers);
    var ids := s.indexes + [b];
    assert ids[..|ids| - 1] == s.indexes;
  }

  // ... and keeps it inside.
  lemma OpenScope(b: NodeId, n: nat, bound: seq<NodeId>, ids: seq<NodeId>, scope: set<NodeId>, visible: set<NodeId>,
                  numbers: map<NodeId, int>, rest: set<NodeId>)
    requires Tracks(ids, scope, visible, numbers) && New(rest, ids, scope) && b !in rest && b !in scope
    requires bound <= ids && b in bound && Find(bound, b) == n
    ensures Tracks(ids, scope + {b}, visible + {b}, numbers[b := n]) && New(rest, ids, scope + {b})
  {
    FindAppend(bound, ids[|bound|..], b);
    assert bound + ids[|bound|..] == ids;
  }

  // ----- The numbers printed are right exactly when the condition holds -----

  ghost predicate Setting(e: Expr, s: Names, scope: set<NodeId>, visible: set<NodeId>, inLoop: bool,
                          numbers: map<NodeId, int>, level: int) {
    && InScope(e, scope, inLoop) && BindsOnce(e) && New(All(e), s.indexes, scope)
    && Tracks(s.indexes, scope, visible, numbers) && (inLoop ==> level >= 0) && s.count >= -1
  }

  lemma {:induction false} PrintIsRightIff(e: Expr, s: Names, scope: set<NodeId>, visible: set<NodeId>, inLoop: bool,
                                           numbers: map<NodeId, int>, level: int)
    requires Setting(e, s, scope, visible, inLoop, numbers, level)
    ensures Print(e, s).0 == Resolve(e, s, numbers, level) <==> Right(e, visible, s.count, level)
    decreases e, 2
  {
    match e
    case Opaque(id) =>
    case ArrayIndex =>
    case BinCond(_, _, _, _, _) => BinCondIsRightIff(e, s, scope, visible, inLoop, numbers, level);
    case ArrayLoop(_, _, _, _) => LoopIsRightIff(e, s, scope, visible, inLoop, numbers, level);
    case Op(_, args) => ArgsAreRightIff(args, s, scope, visible, inLoop, numbers, level);
    case Detached(_, args) => DetachedAreRightIff(args, scope, inLoop, numbers, level);
  }

  lemma {:induction false} LoopIsRightIff(e: Expr, s: Names, scope: set<NodeId>, visible: set<NodeId>, inLoop: bool,
                                          numbers: map<NodeId, int>, level: int)
    requires e.ArrayLoop? && Setting(e, s, scope, visible, inLoop, numbers, level)
    ensures Print(e, s).0 == Resolve(e, s, numbers, level) <==> Right(e, visible, s.count, level)
    decreases e, 0
  {
    var ArrayLoop(b, x, _, y) := e;
    PrintIsRightIff(x, Bind(s, b), scope, visible, inLoop, numbers, level) by {
      AfterBind(b, s, scope, visible, numbers, All(x));
    }
    EnterLoop(e, s, scope, visible, numbers);
    var s1 := Print(x, Bind(s, b)).1;
    PrintIsRightIff(y, Deeper(s1), scope + {b}, visible + {b}, true, numbers[b := |s.indexes|], s1.count + 1);
    BothRightIff(e, s, Deeper(s1), visible, numbers, level);
  }

  lemma BothRightIff(e: Expr, s: Names, r: Names, visible: set<NodeId>, numbers: map<NodeId, int>, level: int)
    requires e.ArrayLoop? && r == Deeper(Print(e.source, Bind(s, e.binder)).1) && r.count == s.count + 1
    requires Print(e.source, Bind(s, e.binder)).0 == Resolve(e.source, Bind(s, e.binder), numbers, level)
             <==> Right(e.source, visible, s.count, level)
    requires Print(e.body, r).0 == Resolve(e.body, r, numbers[e.binder := |s.indexes|], r.count)
             <==> Right(e.body, visible + {e.binder}, r.count, r.count)
    ensures Print(e, s).0 == Resolve(e, s, numbers, level) <==> Right(e, visible, s.count, level)
  {
  }

  // After the array the body sees the binder under its number.
  lemma EnterLoop(e: Expr, s: Names, scope: set<NodeId>, visible: set<NodeId>, numbers: map<NodeId, int>)
    requires e.ArrayLoop? && BindsOnce(e) && New(All(e), s.indexes, scope) && Tracks(s.indexes, scope, visible, numbers)
    ensures var ArrayLoop(b, x, _, y) := e;
            var r := Print(x, Bind(s, b)).1;
            && r.count == s.count && New(All(y), r.indexes, scope + {b})
            && Tracks(r.indexes, scope + {b}, visible + {b}, numbers[b := |s.indexes|])
  {
    var ArrayLoop(b, x, _, y) := e;
    var s0 := Bind(s, b);
    AfterBind(b, s, scope, visible, numbers, All(x) + All(y));
    AfterPrint(x, s0, scope, visible, numbers, All(y));
    OpenScope(b, |s.indexes|, s0.indexes, Print(x, s0).1.indexes, scope, visible, numbers, All(y));
  }

  lemma {:induction false} BinCondIsRightIff(e: Expr, s: Names, scope: set<NodeId>, visible: set<NodeId>, inLoop: bool,
                                             numbers: map<NodeId, int>, level: int)
    requires e.BinCond? && Setting(e, s, scope, visible, inLoop, numbers, level)
    ensures Print(e, s).0 == Resolve(e, s, numbers, level) <==> Right(e, visible, s.count, level)
    decreases e, 1
  {
    var BinCond(b, c, k, t, f) := e;
    PrintIsRightIff(c, Bind(s, b), scope, visible, inLoop, numbers, level) by {
      AfterBind(b, s, scope, visible, numbers, All(c));
    }
    EnterBranches(e, s, scope, visible, numbers);
    BranchesAreRightIff(e, Deeper(Print(c, Bind(s, b)).1), scope + {b}, visible + {b}, inLoop,
                        numbers[b := |s.indexes|], level);
  }

  // After the common operand the branches see the binder under its number.
  lemma EnterBranches(e: Expr, s: Names, scope: set<NodeId>, visible: set<NodeId>, numbers: map<NodeId, int>)
    requires e.BinCond? && BindsOnce(e) && New(All(e), s.indexes, scope) && Tracks(s.indexes, scope, visible, numbers)
    ensures var r := Print(e.common, Bind(s, e.binder)).1;
            && r.count == s.count
            && New(All(e.cond) + (All(e.thn) + All(e.els)), r.indexes, scope + {e.binder})
            && Tracks(r.indexes, scope + {e.binder}, visible + {e.binder}, numbers[e.binder := |s.indexes|])
  {
    var BinCond(b, c, k, t, f) := e;
    var s0 := Bind(s, b);
    var later := All(k) + (All(t) + All(f));
    AfterBind(b, s, scope, visible, numbers, All(c) + later);
    AfterPrint(c, s0, scope, visible, numbers, later);
    OpenScope(b, |s.indexes|, s0.indexes, Print(c, s0).1.indexes, scope, visible, numbers, later);
  }

  lemma {:induction false} BranchesAreRightIff(
      e: Expr, s: Names, scope: set<NodeId>, visible: set<NodeId>, inLoop: bool, numbers: map<NodeId, int>,
      level: int)
    requires e.BinCond?
    requires InScope(e.cond, scope, inLoop) && InScope(e.thn, scope, inLoop) && InScope(e.els, scope, inLoop)
    requires BindsOnce(e) && New(All(e.cond) + (All(e.thn) + All(e.els)), s.indexes, scope)
    requires Tracks(s.indexes, scope, visible, numbers) && (inLoop ==> level >= 0) && s.count >= -1
    ensures var s2 := Print(e.cond, s).1;
            var s3 := Print(e.thn, s2).1;
            (&& Print(e.cond, s).0 == Resolve(e.cond, s, numbers, level)
             && Print(e.thn, s2).0 == Resolve(e.thn, s2, numbers, level)
             && Print(e.els, s3).0 == Resolve(e.els, s3, numbers, level))
            <==>
            (&& Right(e.cond, visible, s.count, level)
             && Right(e.thn, visible, s.count, level)
             && Right(e.els, visible, s.count, level))
    decreases e, 0
  {
    var BinCond(_, _, k, t, f) := e;
    PrintIsRightIff(k, s, scope, visible, inLoop, numbers, level);
    AfterPrint(k, s, scope, visible, numbers, All(t) + All(f));
    var s2 := Print(k, s).1;
    PrintIsRightIff(t, s2, scope, visible, inLoop, numbers, level);
    AfterPrint(t, s2, scope, visible, numbers, All(f));
    PrintIsRightIff(f, Print(t, s2).1, scope, visible, inLoop, numbers, level);
  }

  lemma {:induction false} ArgsAreRightIff(
      args: seq<Expr>, s: Names, scope: set<NodeId>, visible: set<NodeId>, inLoop: bool,
      numbers: map<NodeId, int>, level: int)
    requires AllInScope(args, scope, inLoop) && ArgsBindOnce(args) && New(AllOfArgs(args), s.indexes, scope)
    requires Tracks(s.indexes, scope, visible, numbers) && (inLoop ==> level >= 0) && s.count >= -1
    ensures PrintArgs(args, s).0 == ResolveArgs(args, s, numbers, level) <==> AllRight(args, visible, s.count, level)
    decreases args, 0
  {
    if args != [] {
      var s1 := Print(args[0], s).1;
      PrintIsRightIff(args[0], s, scope, visible, inLoop, numbers, level);
      AfterPrint(args[0], s, scope, visible, numbers, AllOfArgs(args[1..]));
      ArgsAreRightIff(args[1..], s1, scope, visible, inLoop, numbers, level);
      var os, rs := PrintArgs(args, s).0, ResolveArgs(args, s, numbers, level);
      assert os[1..] == PrintArgs(args[1..], s1).0 && rs[1..] == ResolveArgs(args[1..], s1, numbers, level);
    }
  }

  lemma {:induction false} DetachedAreRightIff(args: seq<Expr>, scope: set<NodeId>, inLoop: bool,
                                               numbers: map<NodeId, int>, level: int)
    requires AllInScope(args, scope, inLoop) && ArgsBindOnce(args) && AllOfArgs(args) !! scope
    requires numbers.Keys == scope && (forall id :: id in scope ==> numbers[id] >= 0) && (inLoop ==> level >= 0)
    ensures PrintDetached(args) == ResolveDetached(args, numbers, level) <==> AllRight(args, {}, -1, level)
    decreases args, 0
  {
    if args != [] {
      PrintIsRightIff(args[0], NO_NAMES, scope, {}, inLoop, numbers, level);
      DetachedAreRightIff(args[1..], scope, inLoop, numbers, level);
      var os, rs := PrintDetached(args), ResolveDetached(args, numbers, level);
      assert os[1..] == PrintDetached(args[1..]) && rs[1..] == ResolveDetached(args[1..], numbers, level);
    }
  }

  // A whole expression is printed with the number of its own binder at every reference, and the level
  // of its own loop at every index, exactly under the condition.
  lemma NumberingIsRightIff(e: Expr)
    requires InScope(e, {}, false) && BindsOnce(e)
    ensures Print(e, NO_NAMES).0 == Resolve(e, NO_NAMES, map[], -1) <==> WellPlaced(e, [])
  {
    RightIffWellPlaced(e, [], {}, -1, -1);
    PrintIsRightIff(e, NO_NAMES, {}, {}, false, map[], -1);
  }

  // In particular expressions that thread their names and have no `?:` between a loop and its index.
  lemma ThreadedIsNumberedRight(e: Expr)
    requires InScope(e, {}, false) && BindsOnce(e) && Threaded(e, true)
    ensures WellPlaced(e, []) && Print(e, NO_NAMES).0 == Resolve(e, NO_NAMES, map[], -1)
  {
    ThreadedIsRight(e, {}, false, true, -1, -1);
    RightIffWellPlaced(e, [], {}, -1, -1);
    NumberingIsRightIff(e);
  }

  // ----- Evaluation by node and by number -----

  // The value of every other construct, from the values of its operands.
  type Meaning = (string, seq<int>) -> int

  // The values bound to nodes; index is the value of the innermost loop's index.
  function EvalByNode(m: Meaning, e: Expr, env: map<NodeId, int>, index: int): int
    decreases e, 0
  {
    match e
    case Opaque(id) => if id in env then env[id] else 0
    case ArrayIndex => index
    case BinCond(b, c, k, t, f) =>
      var env' := env[b := EvalByNode(m, c, env, index)];
      if EvalByNode(m, k, env', index) != 0 then EvalByNode(m, t, env', index) else EvalByNode(m, f, env', index)
    case ArrayLoop(b, x, n, y) => m("array", LoopByNode(m, y, env[b := EvalByNode(m, x, env, index)], n))
    case Op(tag, args) => m(tag, ArgsByNode(m, args, env, index))
    case Detached(tag, args) => m(tag, ArgsByNode(m, args, env, index))
  }

  function LoopByNode(m: Meaning, y: Expr, env: map<NodeId, int>, n: nat): seq<int>
    decreases y, 1, n
  {
    if n == 0 then [] else LoopByNode(m, y, env, n - 1) + [EvalByNode(m, y, env, n - 1)]
  }

  function ArgsByNode(m: Meaning, args: seq<Expr>, env: map<NodeId, int>, index: int): seq<int>
    decreases args, 0
  {
    if args == [] then [] else [EvalByNode(m, args[0], env, index)] + ArgsByNode(m, args[1..], env, index)
  }

  // As the program logic evaluates the printed term: both kinds of names are numbers in a region.
  function EvalByNumber(m: Meaning, o: Out, env: map<int, int>, levels: map<int, int>): int
    decreases o, 0
  {
    match o
    case EopaqueRef(n) => if n in env then env[n] else 0
    case EarrayloopIndex(l) => if l in levels then levels[l] else 0
    case Eif2(n, c, k, t, f) =>
      var env' := env[n := EvalByNumber(m, c, env, levels)];
      if EvalByNumber(m, k, env', levels) != 0 then EvalByNumber(m, t, env', levels)
      else EvalByNumber(m, f, env', levels)
    case EarrayloopInit(n, x, l, size, y) =>
      m("array", LoopByNumber(m, y, env[n := EvalByNumber(m, x, env, levels)], levels, l, size))
    case Eop(tag, args) => m(tag, ArgsByNumber(m, args, env, levels))
  }

  function LoopByNumber(m: Meaning, y: Out, env: map<int, int>, levels: map<int, int>, l: int, n: nat): seq<int>
    decreases y, 1, n
  {
    if n == 0 then []
    else LoopByNumber(m, y, env, levels, l, n - 1) + [EvalByNumber(m, y, env, levels[l := n - 1])]
  }

  function ArgsByNumber(m: Meaning, args: seq<Out>, env: map<int, int>, levels: map<int, int>): seq<int>
    decreases args, 0
  {
    if args == [] then [] else [EvalByNumber(m, args[0], env, levels)] + ArgsByNumber(m, args[1..], env, levels)
  }

  // Every visible node has its value under its number.
  ghost predicate SameValues(ids: seq<NodeId>, visible: set<NodeId>, env: map<NodeId, int>, env': map<int, int>) {
    forall id :: id in visible ==>
      id in ids && id in env && Find(ids, id) in env' && env'[Find(ids, id)] == env[id]
  }

  ghost predicate SameIndex(index: int, level: int, levels: map<int, int>) {
    index == if level in levels then levels[level] else 0
  }

  // What evaluation by number needs of a sub-expression that is about to be printed.
  ghost predicate Ready(e: Expr, s: Names, visible: set<NodeId>, level: int, env: map<NodeId, int>, env': map<int, int>,
                        index: int, levels: map<int, int>) {
    && BindsOnce(e) && New(All(e), s.indexes, visible) && Right(e, visible, s.count, level)
    && SameValues(s.indexes, visible, env, env') && SameIndex(index, level, levels)
  }

  lemma SameValuesGrow(ids: seq<NodeId>, more: seq<NodeId>, visible: set<NodeId>, env: map<NodeId, int>,
                       env': map<int, int>)
    requires SameValues(ids, visible, env, env')
    ensures SameValues(ids + more, visible, env, env')
  {
    forall id | id in visible ensures Find(ids + more, id) == Find(ids, id) {
      FindAppend(ids, more, id);
    }
  }

  lemma SameValuesBind(b: NodeId, n: nat, bound: seq<NodeId>, ids: seq<NodeId>, visible: set<NodeId>,
                       env: map<NodeId, int>, env': map<int, int>, v: int)
    requires SameValues(ids, visible, env, env') && b !in visible
    requires bound <= ids && b in bound && Find(bound, b) == n
    ensures SameValues(ids, visible + {b}, env[b := v], env'[n := v])
  {
    FindAppend(bound, ids[|bound|..], b);
    assert bound + ids[|bound|..] == ids;
    forall id | id in visible ensures Find(ids, id) != n {
      assert ids[Find(ids, id)] == id;
    }
  }

  // After printing e: the nodes of rest are still new.
  lemma StillNew(e: Expr, s: Names, visible: set<NodeId>, env: map<NodeId, int>, env': map<int, int>, rest: set<NodeId>)
    requires New(All(e) + rest, s.indexes, visible) && All(e) !! rest && SameValues(s.indexes, visible, env, env')
    ensures var r := Print(e, s).1;
            && r.count == s.count && r.indexes == s.indexes + Binders(e)
            && New(rest, r.indexes, visible) && SameValues(r.indexes, visible, env, env')
  {
    PrintRestores(e, s);
    BindersAreInAll(e);
    SameValuesGrow(s.indexes, Binders(e), visible, env, env');
  }

  // Entering the scope of b, whose common or source expression has just been printed.
  lemma BindValue(b: NodeId, s: Names, x: Expr, visible: set<NodeId>, env: map<NodeId, int>, env': map<int, int>,
                  v: int, rest: set<NodeId>)
    requires New({b} + (All(x) + rest), s.indexes, visible) && {b} !! All(x) !! rest
    requires SameValues(s.indexes, visible, env, env')
    ensures var r := Print(x, Bind(s, b)).1;
            && r.count == s.count && New(rest, r.indexes, visible + {b})
            && SameValues(r.indexes, visible + {b}, env[b := v], env'[|s.indexes| := v])
    ensures New(All(x), Bind(s, b).indexes, visible) && SameValues(Bind(s, b).indexes, visible, env, env')
  {
    var s0 := Bind(s, b);
    SameValuesGrow(s.indexes, [b], visible, env, env');
    assert s0.indexes[..|s.indexes|] == s.indexes;
    StillNew(x, s0, visible, env, env', rest);
    var r := Print(x, s0).1;
    SameValuesBind(b, |s.indexes|, s0.indexes, r.indexes, visible, env, env', v);
  }

  // Evaluating the printed term by number is evaluating the expression by node identity.
  lemma {:induction false} NumbersMeanNodes(
      m: Meaning, e: Expr, s: Names, visible: set<NodeId>, level: int,
      env: map<NodeId, int>, env': map<int, int>, index: int, levels: map<int, int>)
    requires Ready(e, s, visible, level, env, env', index, levels)
    ensures EvalByNumber(m, Print(e, s).0, env', levels) == EvalByNode(m, e, env, index)
    decreases e, 4
  {
    match e
    case Opaque(id) =>
    case ArrayIndex =>
    case BinCond(_, _, _, _, _) => BinCondMeans(m, e, s, visible, level, env, env', index, levels);
    case ArrayLoop(_, _, _, _) => ArrayLoopMeans(m, e, s, visible, level, env, env', index, levels);
    case Op(_, args) => ArgsMean(m, args, s, visible, level, env, env', index, levels);
    case Detached(_, args) => DetachedMean(m, args, level, env, env', index, levels);
  }

  lemma {:induction false} BinCondMeans(
      m: Meaning, e: Expr, s: Names, visible: set<NodeId>, level: int,
      env: map<NodeId, int>, env': map<int, int>, index: int, levels: map<int, int>)
    requires e.BinCond? && Ready(e, s, visible, level, env, env', index, levels)
    ensures EvalByNumber(m, Print(e, s).0, env', levels) == EvalByNode(m, e, env, index)
    decreases e, 3
  {
    var b, v := e.binder, EvalByNode(m, e.common, env, index);
    var r := CommonMeans(m, e, s, visible, level, env, env', index, levels);
    BranchesMean(m, e, r, visible + {b}, level, env[b := v], env'[|s.indexes| := v], index, levels);
    ChoiceMeans(m, e, s, r, env, env', index, levels, v);
  }

  // The common operand, and what it leaves to the branches.
  lemma {:induction false} CommonMeans(
      m: Meaning, e: Expr, s: Names, visible: set<NodeId>, level: int,
      env: map<NodeId, int>, env': map<int, int>, index: int, levels: map<int, int>) returns (r: Names)
    requires e.BinCond? && Ready(e, s, visible, level, env, env', index, levels)
    ensures var BinCond(b, c, k, t, f) := e;
            var v, s1 := EvalByNode(m, c, env, index), Bind(s, b);
            && r == Deeper(Print(c, s1).1) && EvalByNumber(m, Print(c, s1).0, env', levels) == v
            && New(All(k) + (All(t) + All(f)), r.indexes, visible + {b})
            && Right(k, visible + {b}, r.count, level) && Right(t, visible + {b}, r.count, level)
            && Right(f, visible + {b}, r.count, level)
            && SameValues(r.indexes, visible + {b}, env[b := v], env'[|s.indexes| := v])
    decreases e, 2
  {
    var BinCond(b, c, k, t, f) := e;
    BindValue(b, s, c, visible, env, env', EvalByNode(m, c, env, index), All(k) + (All(t) + All(f)));
    NumbersMeanNodes(m, c, Bind(s, b), visible, level, env, env', index, levels);
    r := Deeper(Print(c, Bind(s, b)).1);
  }

  lemma ChoiceMeans(m: Meaning, e: Expr, s: Names, r: Names, env: map<NodeId, int>, env': map<int, int>,
                    index: int, levels: map<int, int>, v: int)
    requires e.BinCond? && r == Deeper(Print(e.common, Bind(s, e.binder)).1)
    requires EvalByNode(m, e.common, env, index) == v
    requires EvalByNumber(m, Print(e.common, Bind(s, e.binder)).0, env', levels) == v
    requires var numbered, bound := env'[|s.indexes| := v], env[e.binder := v];
             var s2 := Print(e.cond, r).1;
             var s3 := Print(e.thn, s2).1;
             && EvalByNumber(m, Print(e.cond, r).0, numbered, levels) == EvalByNode(m, e.cond, bound, index)
             && EvalByNumber(m, Print(e.thn, s2).0, numbered, levels) == EvalByNode(m, e.thn, bound, index)
             && EvalByNumber(m, Print(e.els, s3).0, numbered, levels) == EvalByNode(m, e.els, bound, index)
    ensures EvalByNumber(m, Print(e, s).0, env', levels) == EvalByNode(m, e, env, index)
  {
  }

  lemma {:induction false} ArrayLoopMeans(
      m: Meaning, e: Expr, s: Names, visible: set<NodeId>, level: int,
      env: map<NodeId, int>, env': map<int, int>, index: int, levels: map<int, int>)
    requires e.ArrayLoop? && Ready(e, s, visible, level, env, env', index, levels)
    ensures EvalByNumber(m, Print(e, s).0, env', levels) == EvalByNode(m, e, env, index)
    decreases e, 3
  {
    var ArrayLoop(b, x, n, y) := e;
    var v := EvalByNode(m, x, env, index);
    var r := SourceMeans(m, e, s, visible, level, env, env', index, levels);
    LoopMeans(m, e, r, visible + {b}, env[b := v], env'[|s.indexes| := v], levels, n);
    ArrayMeans(m, e, s, r, env, env', index, levels, v);
  }

  lemma ArrayMeans(m: Meaning, e: Expr, s: Names, r: Names, env: map<NodeId, int>, env': map<int, int>,
                   index: int, levels: map<int, int>, v: int)
    requires e.ArrayLoop? && r == Deeper(Print(e.source, Bind(s, e.binder)).1)
    requires EvalByNode(m, e.source, env, index) == v
    requires EvalByNumber(m, Print(e.source, Bind(s, e.binder)).0, env', levels) == v
    requires LoopByNumber(m, Print(e.body, r).0, env'[|s.indexes| := v], levels, r.count, e.size)
             == LoopByNode(m, e.body, env[e.binder := v], e.size)
    ensures EvalByNumber(m, Print(e, s).0, env', levels) == EvalByNode(m, e, env, index)
  {
  }

  // The array that is copied, and what it leaves to the body.
  lemma {:induction false} SourceMeans(
      m: Meaning, e: Expr, s: Names, visible: set<NodeId>, level: int,
      env: map<NodeId, int>, env': map<int, int>, index: int, levels: map<int, int>) returns (r: Names)
    requires e.ArrayLoop? && Ready(e, s, visible, level, env, env', index, levels)
    ensures var ArrayLoop(b, x, n, y) := e;
            var v, s1 := EvalByNode(m, x, env, index), Bind(s, b);
            && r == Deeper(Print(x, s1).1) && EvalByNumber(m, Print(x, s1).0, env', levels) == v
            && New(All(y), r.indexes, visible + {b}) && Right(y, visible + {b}, r.count, r.count)
            && SameValues(r.indexes, visible + {b}, env[b := v], env'[|s.indexes| := v])
    decreases e, 2
  {
    var ArrayLoop(b, x, n, y) := e;
    BindValue(b, s, x, visible, env, env', EvalByNode(m, x, env, index), All(y));
    NumbersMeanNodes(m, x, Bind(s, b), visible, level, env, env', index, levels);
    r := Deeper(Print(x, Bind(s, b)).1);
  }

  lemma {:induction false} BranchesMean(
      m: Meaning, e: Expr, s: Names, visible: set<NodeId>, level: int,
      env: map<NodeId, int>, env': map<int, int>, index: int, levels: map<int, int>)
    requires e.BinCond? && BindsOnce(e) && New(All(e.cond) + (All(e.thn) + All(e.els)), s.indexes, visible)
    requires Right(e.cond, visible, s.count, level) && Right(e.thn, visible, s.count, level)
    requires Right(e.els, visible, s.count, level)
    requires SameValues(s.indexes, visible, env, env') && SameIndex(index, level, levels)
    ensures var s2 := Print(e.cond, s).1;
            var s3 := Print(e.thn, s2).1;
            && EvalByNumber(m, Print(e.cond, s).0, env', levels) == EvalByNode(m, e.cond, env, index)
            && EvalByNumber(m, Print(e.thn, s2).0, env', levels) == EvalByNode(m, e.thn, env, index)
            && EvalByNumber(m, Print(e.els, s3).0, env', levels) == EvalByNode(m, e.els, env, index)
    decreases e, 2
  {
    var BinCond(_, _, k, t, f) := e;
    NumbersMeanNodes(m, k, s, visible, level, env, env', index, levels);
    StillNew(k, s, visible, env, env', All(t) + All(f));
    var s2 := Print(k, s).1;
    NumbersMeanNodes(m, t, s2, visible, level, env, env', index, levels);
    StillNew(t, s2, visible, env, env', All(f));
    NumbersMeanNodes(m, f, Print(t, s2).1, visible, level, env, env', index, levels);
  }

  lemma {:induction false} LoopMeans(
      m: Meaning, e: Expr, s: Names, visible: set<NodeId>, env: map<NodeId, int>, env': map<int, int>,
      levels: map<int, int>, n: nat)
    requires e.ArrayLoop? && BindsOnce(e) && New(All(e.body), s.indexes, visible)
    requires Right(e.body, visible, s.count, s.count) && SameValues(s.indexes, visible, env, env')
    ensures LoopByNumber(m, Print(e.body, s).0, env', levels, s.count, n) == LoopByNode(m, e.body, env, n)
    decreases e, 2, n
  {
    if n > 0 {
      LoopMeans(m, e, s, visible, env, env', levels, n - 1);
      NumbersMeanNodes(m, e.body, s, visible, s.count, env, env', n - 1, levels[s.count := n - 1]);
    }
  }

  lemma {:induction false} ArgsMean(
      m: Meaning, args: seq<Expr>, s: Names, visible: set<NodeId>, level: int,
      env: map<NodeId, int>, env': map<int, int>, index: int, levels: map<int, int>)
    requires ArgsBindOnce(args) && New(AllOfArgs(args), s.indexes, visible) && AllRight(args, visible, s.count, level)
    requires SameValues(s.indexes, visible, env, env') && SameIndex(index, level, levels)
    ensures ArgsByNumber(m, PrintArgs(args, s).0, env', levels) == ArgsByNode(m, args, env, index)
    decreases args, 0
  {
    if args != [] {
      NumbersMeanNodes(m, args[0], s, visible, level, env, env', index, levels);
      StillNew(args[0], s, visible, env, env', AllOfArgs(args[1..]));
      var s1 := Print(args[0], s).1;
      ArgsMean(m, args[1..], s1, visible, level, env, env', index, levels);
      assert PrintArgs(args, s).0[1..] == PrintArgs(args[1..], s1).0;
    }
  }

  lemma {:induction false} DetachedMean(
      m: Meaning, args: seq<Expr>, level: int,
      env: map<NodeId, int>, env': map<int, int>, index: int, levels: map<int, int>)
    requires ArgsBindOnce(args) && AllRight(args, {}, -1, level) && SameIndex(index, level, levels)
    ensures ArgsByNumber(m, PrintDetached(args), env', levels) == ArgsByNode(m, args, env, index)
    decreases args, 0
  {
    if args != [] {
      NumbersMeanNodes(m, args[0], NO_NAMES, {}, level, env, env', index, levels);
      DetachedMean(m, args[1..], level, env, env', index, levels);
      assert PrintDetached(args)[1..] == PrintDetached(args[1..]);
    }
  }

  // A whole expression: under the condition the printed term means what the expression means.
  lemma PrintedMeansExpression(m: Meaning, e: Expr)
    requires BindsOnce(e) && WellPlaced(e, [])
    ensures EvalByNumber(m, Print(e, NO_NAMES).0, map[], map[]) == EvalByNode(m, e, map[], 0)
  {
    RightIffWellPlaced(e, [], {}, -1, -1);
    NumbersMeanNodes(m, e, NO_NAMES, {}, -1, map[], map[], 0, map[]);
  }

  // Outside the condition: an array loop whose index is read under a `?:` or under a comma, and a bound
  // value read under a comma. Under both, the index of an outermost loop happens to be right.
  lemma IndexUnderConditional()
    ensures var none := Op("", []);
            var e := ArrayLoop(1, none, 2, BinCond(2, none, none, ArrayIndex, none));
            InScope(e, {}, false) && BindsOnce(e) && Print(e, NO_NAMES).0 != Resolve(e, NO_NAMES, map[], -1)
  {
    var none := Op("", []);
    var e := ArrayLoop(1, none, 2, BinCond(2, none, none, ArrayIndex, none));
    RightIffWellPlaced(e, [], {}, -1, -1);
    NumberingIsRightIff(e);
  }

  lemma IndexUnderComma()
    ensures var none := Op("", []);
            var e := ArrayLoop(1, none, 2, Detached(",", [ArrayIndex]));
            InScope(e, {}, false) && BindsOnce(e) && Print(e, NO_NAMES).0 != Resolve(e, NO_NAMES, map[], -1)
  {
    var none := Op("", []);
    var args := [ArrayIndex];
    var e := ArrayLoop(1, none, 2, Detached(",", args));
    assert args[0] == ArrayIndex && !AllRight(args, {}, -1, 0);
    assert !Right(e, {}, -1, -1);
    RightIffWellPlaced(e, [], {}, -1, -1);
    NumberingIsRightIff(e);
  }

  lemma IndexUnderBoth()
    ensures var none := Op("", []);
            var e := ArrayLoop(1, none, 2, Detached(",", [BinCond(2, none, none, ArrayIndex, none)]));
            InScope(e, {}, false) && BindsOnce(e) && Print(e, NO_NAMES).0 == Resolve(e, NO_NAMES, map[], -1)
  {
    var none := Op("", []);
    var args := [BinCond(2, none, none, ArrayIndex, none)];
    var e := ArrayLoop(1, none, 2, Detached(",", args));
    var k, scope: set<NodeId> := args[0], {} + {1};
    assert args[1..] == [] && scope == {1};
    assert forall v, n, l :: Right(none, v, n, l);
    assert Right(k, {}, -1, 0);
    assert AllRight(args, {}, -1, 0);
    assert Right(Detached(",", args), {1}, 0, 0);
    assert InScope(k, {1}, true) && AllInScope(args, {1}, true);
    assert BindsOnce(k) && ArgsBindOnce(args) && All(k) == {2} && AllOfArgs(args) == {2};
    assert Right(e, {}, -1, -1);
    RightIffWellPlaced(e, [], {}, -1, -1);
    NumberingIsRightIff(e);
  }

  lemma ReferenceUnderComma()
    ensures var none := Op("", []);
            var e := BinCond(1, none, Detached(",", [Opaque(1)]), none, none);
            InScope(e, {}, false) && BindsOnce(e) && Print(e, NO_NAMES).0 != Resolve(e, NO_NAMES, map[], -1)
  {
    var none := Op("", []);
    var e := BinCond(1, none, Detached(",", [Opaque(1)]), none, none);
    assert !AllRight([Opaque(1)], {}, -1, -1);
    RightIffWellPlaced(e, [], {}, -1, -1);
    NumberingIsRightIff(e);
  }

  // ----- The names as the printer keeps them -----

  class OpaqueNames {
    var indexes: seq<NodeId>
    var anonymous: seq<NodeId>
    var indexCount: int

    ghost function View(): Names
      reads this
    {
      Names(indexes, indexCount)
    }

    constructor ()
      ensures View() == NO_NAMES && anonymous == []
    {
      indexes, anonymous, indexCount := [], [], -1;
    }

    method Fresh(e: NodeId) returns (index: nat)
      modifies this
      ensures View() == Bind(old(View()), e) && index == |old(indexes)| && anonymous == old(anonymous)
    {
      index := |indexes|;
      indexes := indexes + [e];
    }

    method Lookup(e: NodeId) returns (result: int)
      ensures result == Find(indexes, e)
    {
      result := 0;
      while result < |indexes|
        invariant 0 <= result <= |indexes|
        invariant e !in indexes[..result]
      {
        if indexes[result] == e {
          return;
        }
        result := result + 1;
      }
      assert indexes[..|indexes|] == indexes;
      return -1;
    }

    method PushAnon(e: NodeId) returns (index: nat)
      modifies this
      ensures View() == old(View()) && anonymous == old(anonymous) + [e] && index == |old(anonymous)|
    {
      index := |anonymous|;
      anonymous := anonymous + [e];
    }

    method FindAnon(e: NodeId) returns (result: int)
      ensures result == Find(anonymous, e)
    {
      result := 0;
      while result < |anonymous|
        invariant 0 <= result <= |anonymous|
        invariant e !in anonymous[..result]
      {
        if anonymous[result] == e {
          return;
        }
        result := result + 1;
      }
      assert anonymous[..|anonymous|] == anonymous;
      return -1;
    }

    method PopAnon(e: NodeId)
      requires anonymous != [] && anonymous[|anonymous| - 1] == e
      modifies this
      ensures View() == old(View()) && anonymous + [e] == old(anonymous)
    {
      anonymous := anonymous[..|anonymous| - 1];
    }

    method IncIndexCount()
      modifies this
      ensures View() == Deeper(old(View())) && anonymous == old(anonymous)
    {
      indexCount := indexCount + 1;
    }

    method DecIndexCount()
      modifies this
      ensures View() == Shallower(old(View())) && anonymous == old(anonymous)
    {
      indexCount := indexCount - 1;
    }
  }

  // printExpr
  method PrintExpr(e: Expr, names: OpaqueNames) returns (o: Out)
    modifies names
    ensures (o, names.View()) == Print(e, old(names.View())) && names.anonymous == old(names.anonymous)
    decreases e, 1
  {
    match e
    case Opaque(id) =>
      var n := names.Lookup(id);
      o := EopaqueRef(n);
    case ArrayIndex => o := EarrayloopIndex(names.indexCount);
    case BinCond(b, c, k, t, f) =>
      var n := names.Fresh(b);
      var c' := PrintExpr(c, names);
      names.IncIndexCount();
      var k' := PrintExpr(k, names);
      var t' := PrintExpr(t, names);
      var f' := PrintExpr(f, names);
      names.DecIndexCount();
      o := Eif2(n, c', k', t', f');
    case ArrayLoop(b, x, size, y) =>
      var n := names.Fresh(b);
      var x' := PrintExpr(x, names);
      names.IncIndexCount();
      var level := names.indexCount;
      var y' := PrintExpr(y, names);
      names.DecIndexCount();
      o := EarrayloopInit(n, x', level, size, y');
    case Op(tag, args) =>
      var os := PrintOperands(args, names);
      o := Eop(tag, os);
    case Detached(tag, args) =>
      var os := PrintDetachedOperands(args);
      o := Eop(tag, os);
  }

  method PrintOperands(args: seq<Expr>, names: OpaqueNames) returns (os: seq<Out>)
    modifies names
    ensures (os, names.View()) == PrintArgs(args, old(names.View())) && names.anonymous == old(names.anonymous)
    decreases args, 0
  {
    if |args| == 0 {
      os := [];
    } else {
      var o := PrintExpr(args[0], names);
      var rest := PrintOperands(args[1..], names);
      os := [o] + rest;
    }
  }

  method PrintDetachedOperands(args: seq<Expr>) returns (os: seq<Out>)
    ensures os == PrintDetached(args)
    decreases args, 0
  {
    if |args| == 0 {
      os := [];
    } else {
      var names := new OpaqueNames();
      var o := PrintExpr(args[0], names);
      var rest := PrintDetachedOperands(args[1..]);
      os := [o] + rest;
    }
  }
}
