/**
 * What the printing of statements leaves out, and exactly when that changes their meaning: the variable
 * of a `for` condition, the initialization of an `if` or a `switch`, the negation of `if !consteval`.
 */
module Forgetting {
  import opened Endings
  import opened Printing
  import opened SwitchLowering
  import opened Wrappers

  // Printed, the statement has the same outcome on every machine over the integers.
  ghost predicate Preserved(s: Stmt)
    requires Plain(s)
  {
    forall m: Machine<int>, st: int, fuel: nat :: Run(m, Lower(s), st, fuel) == Exec(m, s, st, fuel)
  }

  lemma AllPreserved(s: Stmt)
    requires Plain(s) && !Forgets(s)
    ensures Preserved(s)
  {
    forall m: Machine<int>, st: int, fuel: nat ensures Run(m, Lower(s), st, fuel) == Exec(m, s, st, fuel) {
      LowerPreserves(m, s, st, fuel);
    }
  }

  // What C++ allows as an initialization.
  predicate Simple(s: Stmt) {
    s.ExprStmt? || s.DeclStmt? || s.Null?
  }

  predicate SimpleIfAny(s: Option<Stmt>) {
    s.None? || Simple(s.value)
  }

  function Length(init: Option<Stmt>): (d: nat)
    requires SimpleIfAny(init)
    ensures d == 0 <==> Silent(init)
  {
    match init
    case None => 0
    case Some(ExprStmt(_)) => 1
    case Some(DeclStmt(ds)) => |Kept(ds)|
    case Some(Null) => 0
  }

  // An initialization takes its steps, and nothing else.
  lemma InitSteps(values: int -> int, k: bool, init: Option<Stmt>, n: int, fuel: nat)
    requires SimpleIfAny(init)
    ensures ExecIfAny(Schedule(values, k), init, n, fuel) == Normal(n + Length(init))
  {
    if init.Some? && init.value.DeclStmt? {
      CountSteps(values, k, Kept(init.value.vars), n);
    }
  }

  lemma InitGoesOn(m: Machine<int>, init: Option<Stmt>, st: int, fuel: nat)
    requires SimpleIfAny(init)
    ensures ExecIfAny(m, init, st, fuel).Normal?
  {
    if init.Some? {
      assert ExecIfAny(m, init, st, fuel) == Exec(m, init.value, st, fuel);
    }
  }

  // ----- `for` -----

  // The variable that the condition declares is not printed.
  lemma ForPreservesIff(s: Stmt)
    requires s.For? && Plain(s) && !ForgetsIfAny(s.init) && !Forgets(s.loop)
    requires SimpleIfAny(s.init) && (s.v.Some? ==> s.test.Some?)
    ensures Preserved(s) <==> s.v.None?
  {
    if s.v.None? {
      AllPreserved(s);
    } else {
      ForgottenVariable(s);
    }
  }

  // The loop that stops at once takes one step less.
  lemma ForgottenVariable(s: Stmt)
    requires s.For? && s.v.Some? && s.test.Some? && Plain(s) && SimpleIfAny(s.init) && !ForgetsIfAny(s.init)
    ensures !Preserved(s)
  {
    var values := (n: int) => 0;
    var m, d := Schedule(values, false), Length(s.init);
    InitSteps(values, false, s.init, 0, 0);
    LowerIfAnyPreserves(m, s.init, 0, 0);
    assert Head(m, s, d, 0) == Normal(d + 2);
    assert RunHead(m, Lower(s), d, 0) == Normal(d + 1);
    assert Run(m, Lower(s), 0, 0) != Exec(m, s, 0, 0);
  }

  // ----- A late start is noticed -----

  predicate Takes(p: Part, values: int -> int, k: bool, n: int, fuel: nat, t: nat)
    requires Proper(p)
  {
    var o := Perform(Schedule(values, k), p, n, fuel);
    Stopped(o) && o.s == n + t
  }

  ghost predicate EndsIn(p: Part, t: nat)
    requires Proper(p)
  {
    exists values: int -> int, k: bool, n: int, fuel: nat :: Takes(p, values, k, n, fuel, t)
  }

  // Of all runs of a part there is one with the fewest steps.
  lemma {:induction false} Quickest(p: Part, t: nat)
    returns (best: nat, values: int -> int, k: bool, n: int, fuel: nat)
    requires Proper(p) && EndsIn(p, t)
    ensures Takes(p, values, k, n, fuel, best) && forall u: nat :: u < best ==> !EndsIn(p, u)
    decreases t
  {
    if u: nat :| u < t && EndsIn(p, u) {
      best, values, k, n, fuel := Quickest(p, u);
    } else {
      best := t;
      values, k, n, fuel :| Takes(p, values, k, n, fuel, t);
    }
  }

  // What is behind the initialization: the condition and what it decides on.
  predicate Behind(p: Part) {
    (p.Chosen? && p.s.If? && Plain(p.s)) || (p.Selected? && p.s.Switch? && Plain(p.s))
  }

  lemma Forwards(p: Part, values: int -> int, k: bool, n: int, fuel: nat)
    requires Behind(p)
    ensures var o := Perform(Schedule(values, k), p, n, fuel); o.OutOfFuel? || (Stopped(o) && o.s >= n)
  {
    var inv := (st: int) => st >= n;
    if p.Chosen? {
      ExitsChoose(Schedule(values, k), inv, p.s, n, fuel);
    } else {
      ExitsSwitch(Schedule(values, k), inv, p.s, n, fuel);
    }
  }

  // Started d steps later, the quickest run cannot end where it did.
  lemma LateStart(p: Part, t: nat, d: nat) returns (values: int -> int, k: bool, n: int, fuel: nat)
    requires Behind(p) && EndsIn(p, t) && d > 0
    ensures var m := Schedule(values, k); Perform(m, p, n, fuel) != Perform(m, p, n + d, fuel)
  {
    var best;
    best, values, k, n, fuel := Quickest(p, t);
    Forwards(p, values, k, n + d, fuel);
    assert d <= best ==> !EndsIn(p, best - d);
    assert d <= best ==> !Takes(p, values, k, n + d, fuel, best - d);
  }

  // A plan is a run.
  lemma PlanEnds(plan: seq<int>, k: bool, p: Part, x: Exit)
    requires Proper(p) && Leads(plan, k, p, x)
    ensures EndsIn(p, |plan|)
  {
    var values := (j: int) => if 0 <= j < |plan| then plan[j] else 0;
    assert Follows(values, 0, plan);
    assert Ended(Perform(Schedule(values, k), p, 0, 1), x, 0 + |plan|);
    assert Takes(p, values, k, 0, 1, |plan|);
  }

  // ----- `if` -----

  lemma IfRuns(m: Machine<int>, s: Stmt, st: int, fuel: nat)
    requires s.If? && Plain(s) && !Forgets(s.thn) && !ForgetsIfAny(s.els)
    ensures Run(m, Lower(s), st, fuel) == Perform(m, Chosen(s), st, fuel)
  {
    var st' := Test(m, s.v, Some(s.cond), st).1;
    LowerPreserves(m, s.thn, st', fuel);
    ElsePreserves(m, s.els, st', fuel);
  }

  // The initialization is not printed; that is harmless only if it does nothing, or if neither branch
  // ever ends.
  lemma IfPreservesIff(s: Stmt)
    requires s.If? && Plain(s) && SimpleIfAny(s.init) && !Forgets(s.thn) && !ForgetsIfAny(s.els)
    ensures Preserved(s) <==> Silent(s.init) || (Endless(s.thn) && EndlessIfAny(s.els))
  {
    if Silent(s.init) {
      AllPreserved(s);
    } else if Endless(s.thn) && EndlessIfAny(s.els) {
      EndlessIf(s);
    } else {
      ForgottenInitOfIf(s);
    }
  }

  lemma EndlessIf(s: Stmt)
    requires s.If? && Plain(s) && SimpleIfAny(s.init) && !Forgets(s.thn) && !ForgetsIfAny(s.els)
    requires Endless(s.thn) && EndlessIfAny(s.els)
    ensures Preserved(s)
  {
    forall k: bool, x: Exit ensures !MayChoose(s, k, x) {
      assert !May(s.thn, k, x) && !May(s.els.value, k, x);
    }
    forall m: Machine<int>, st: int, fuel: nat ensures Run(m, Lower(s), st, fuel) == Exec(m, s, st, fuel) {
      InitGoesOn(m, s.init, st, fuel);
      IfRuns(m, s, st, fuel);
      ExitsChoose(m, (n: int) => true, s, st, fuel);
      ExitsChoose(m, (n: int) => true, s, ExecIfAny(m, s.init, st, fuel).s, fuel);
    }
  }

  lemma ForgottenInitOfIf(s: Stmt)
    requires s.If? && Plain(s) && SimpleIfAny(s.init) && !Silent(s.init) && !Forgets(s.thn) && !ForgetsIfAny(s.els)
    requires !Endless(s.thn) || !EndlessIfAny(s.els)
    ensures !Preserved(s)
  {
    var k0, x := BranchEnds(s);
    var plan := PlanForChoose(s, k0, x);
    PlanEnds(plan, k0, Chosen(s), x);
    var values, k, n, fuel := LateStart(Chosen(s), |plan|, Length(s.init));
    LateIf(s, values, k, n, fuel);
  }

  lemma LateIf(s: Stmt, values: int -> int, k: bool, n: int, fuel: nat)
    requires s.If? && Plain(s) && SimpleIfAny(s.init) && !Forgets(s.thn) && !ForgetsIfAny(s.els)
    requires var m := Schedule(values, k);
             Perform(m, Chosen(s), n, fuel) != Perform(m, Chosen(s), n + Length(s.init), fuel)
    ensures !Preserved(s)
  {
    InitSteps(values, k, s.init, n, fuel);
    IfRuns(Schedule(values, k), s, n, fuel);
    assert Run(Schedule(values, k), Lower(s), n, fuel) != Exec(Schedule(values, k), s, n, fuel);
  }

  lemma BranchEnds(s: Stmt) returns (k: bool, x: Exit)
    requires s.If? && (!Endless(s.thn) || !EndlessIfAny(s.els))
    ensures MayChoose(s, k, x)
  {
    if !Endless(s.thn) {
      k, x :| May(s.thn, k, x);
    } else if s.els.Some? {
      k, x :| May(s.els.value, k, x);
    } else {
      k, x := false, ToNext;
      assert MayIfAny(s.els, k, x);
    }
  }

  // ----- `switch` -----

  // No value leads to a run that ends.
  ghost predicate EndlessSwitch(s: Stmt)
    requires s.Switch?
  {
    forall k: bool, x: Exit :: !MaySwitch(s, k, x)
  }

  lemma SwitchRuns(m: Machine<int>, s: Stmt, st: int, fuel: nat)
    requires s.Switch? && Plain(s) && !Forgets(s.block)
    ensures Run(m, Lower(s), st, fuel) == Perform(m, Selected(s), st, fuel)
  {
    var declared := Step(m, s.v, st);
    JumpPreserves(m, s.block.body, m.eval(s.cond, declared), m.step(s.cond, declared), fuel);
  }

  // The initialization is not printed; that is harmless only if it does nothing, or if the switch never
  // ends.
  lemma SwitchPreservesIff(s: Stmt)
    requires s.Switch? && Plain(s) && SimpleIfAny(s.init) && !Forgets(s.block)
    ensures Preserved(s) <==> Silent(s.init) || EndlessSwitch(s)
  {
    if Silent(s.init) {
      AllPreserved(s);
    } else if EndlessSwitch(s) {
      forall m: Machine<int>, st: int, fuel: nat ensures Run(m, Lower(s), st, fuel) == Exec(m, s, st, fuel) {
        InitGoesOn(m, s.init, st, fuel);
        SwitchRuns(m, s, st, fuel);
        ExitsSwitch(m, (n: int) => true, s, st, fuel);
        ExitsSwitch(m, (n: int) => true, s, ExecIfAny(m, s.init, st, fuel).s, fuel);
      }
    } else {
      ForgottenInitOfSwitch(s);
    }
  }

  lemma ForgottenInitOfSwitch(s: Stmt)
    requires s.Switch? && Plain(s) && SimpleIfAny(s.init) && !Silent(s.init) && !Forgets(s.block)
    requires !EndlessSwitch(s)
    ensures !Preserved(s)
  {
    var k0: bool, x: Exit :| MaySwitch(s, k0, x);
    var plan := PlanForSelect(s, k0, x);
    PlanEnds(plan, k0, Selected(s), x);
    var values, k, n, fuel := LateStart(Selected(s), |plan|, Length(s.init));
    LateSwitch(s, values, k, n, fuel);
  }

  lemma LateSwitch(s: Stmt, values: int -> int, k: bool, n: int, fuel: nat)
    requires s.Switch? && Plain(s) && SimpleIfAny(s.init) && !Forgets(s.block)
    requires var m := Schedule(values, k);
             Perform(m, Selected(s), n, fuel) != Perform(m, Selected(s), n + Length(s.init), fuel)
    ensures !Preserved(s)
  {
    InitSteps(values, k, s.init, n, fuel);
    SwitchRuns(Schedule(values, k), s, n, fuel);
    assert Run(Schedule(values, k), Lower(s), n, fuel) != Exec(Schedule(values, k), s, n, fuel);
  }

  // ----- Which statements end -----

  // Every `for` and every loop over a range has a condition.
  predicate Conditional(s: Stmt)
    decreases s, 0
  {
    match s
    case Compound(ss) => AllConditional(ss)
    case If(i, _, _, x, _) => ConditionalIfAny(i) && Conditional(x)
    case IfConsteval(_, x, y) => Conditional(x) && ConditionalIfAny(y)
    case While(_, _, b) => Conditional(b)
    case Do(b, _) => Conditional(b)
    case For(i, _, c, _, b) => ConditionalIfAny(i) && c.Some? && Conditional(b)
    case ForRange(i, r, f, l, c, _, d, b) =>
      ConditionalIfAny(i) && Conditional(r) && Conditional(f) && Conditional(l) && c.Some? && Conditional(d)
      && Conditional(b)
    case Switch(i, _, _, b) => ConditionalIfAny(i) && Conditional(b)
    case Case(_, t) => Conditional(t)
    case Default(t) => Conditional(t)
    case _ => true
  }

  predicate ConditionalIfAny(s: Option<Stmt>)
    decreases s, 0
  {
    s.None? || Conditional(s.value)
  }

  predicate AllConditional(ss: seq<Stmt>)
    decreases ss, 0
  {
    ss == [] || (Conditional(ss[0]) && AllConditional(ss[1..]))
  }

  // Such statements end on some machine, so no initialization in front of them is harmless.
  lemma {:induction false} ConditionalEnds(s: Stmt, k: bool) returns (x: Exit)
    requires Labeled(s) && Conditional(s)
    ensures May(s, k, x)
    decreases s, 9
  {
    match s
    case ExprStmt(_) | DeclStmt(_) | Null => x := ToNext;
    case Break => x := ToBreak;
    case Continue => x := ToContinue;
    case Return(_) => x := ToReturn;
    case Compound(ss) =>
      PlainIsLabeled(ss);
      x := AllConditionalEnd(ss, k);
    case If(i, _, _, t, _) =>
      x := ConditionalAnyEnds(i, k);
      if x == ToNext {
        x := ConditionalEnds(t, k);
      }
    case IfConsteval(negated, t, e) =>
      if k != negated {
        x := ConditionalEnds(t, k);
      } else {
        x := ConditionalAnyEnds(e, k);
      }
    case While(_, _, _) => x := ToNext;
    case Do(b, _) =>
      x := ConditionalEnds(b, k);
      x := if x == ToReturn then ToReturn else ToNext;
    case For(i, _, _, _, _) => x := ConditionalAnyEnds(i, k);
    case ForRange(_, _, _, _, _, _, _, _) => x := ConditionalRangeEnds(s, k);
    case Switch(_, _, _, _) => x := ConditionalSwitchEnds(s, k);
    case Case(_, t) => x := ConditionalEnds(t, k);
    case Default(t) => x := ConditionalEnds(t, k);
  }

  lemma {:induction false} ConditionalAnyEnds(s: Option<Stmt>, k: bool) returns (x: Exit)
    requires PlainIfAny(s) && ConditionalIfAny(s)
    ensures MayIfAny(s, k, x)
    decreases s, 0
  {
    x := ToNext;
    if s.Some? {
      x := ConditionalEnds(s.value, k);
    }
  }

  lemma {:induction false} AllConditionalEnd(ss: seq<Stmt>, k: bool) returns (x: Exit)
    requires AllLabeled(ss) && AllConditional(ss)
    ensures MayAll(ss, k, x)
    decreases ss, 0
  {
    x := ToNext;
    if ss != [] {
      x := ConditionalEnds(ss[0], k);
      if x == ToNext {
        x := AllConditionalEnd(ss[1..], k);
      }
    }
  }

  lemma {:induction false} ConditionalRangeEnds(s: Stmt, k: bool) returns (x: Exit)
    requires s.ForRange? && Plain(s) && Conditional(s)
    ensures May(s, k, x)
    decreases s, 2
  {
    x := ConditionalAnyEnds(s.init, k);
    if x == ToNext {
      x := ConditionalSetUpEnds(s, k);
    }
  }

  lemma {:induction false} ConditionalSetUpEnds(s: Stmt, k: bool) returns (x: Exit)
    requires s.ForRange? && Plain(s) && Conditional(s)
    ensures MaySetUp(s, k, x)
    decreases s, 1
  {
    x := ConditionalEnds(s.range, k);
    if x == ToNext {
      x := ConditionalEnds(s.first, k);
      if x == ToNext {
        x := ConditionalEnds(s.last, k);
        assert MaySetUpLast(s, k, x);
      }
      assert MaySetUpFirst(s, k, x);
    }
  }

  lemma {:induction false} ConditionalSwitchEnds(s: Stmt, k: bool) returns (x: Exit)
    requires s.Switch? && Plain(s) && Conditional(s)
    ensures May(s, k, x)
    decreases s, 1
  {
    x := ConditionalAnyEnds(s.init, k);
    if x == ToNext {
      var y := ConditionalBlockEnds(s.block.body, 0, k);
      x := Leaving(y);
      assert MaySwitch(s, k, x);
    }
  }

  lemma {:induction false} ConditionalBlockEnds(ss: seq<Stmt>, v: int, k: bool) returns (x: Exit)
    requires AllLabeled(ss) && AllConditional(ss)
    ensures MayGoTo(ss, v, k, x)
    decreases ss, 2
  {
    if AnyHas(ss, ToValue(v)) {
      x := ConditionalEntryEnds(ss, ToValue(v), k);
    } else if AnyHas(ss, ToDefault) {
      x := ConditionalEntryEnds(ss, ToDefault, k);
    } else {
      x := ToNext;
    }
  }

  lemma {:induction false} ConditionalEntryEnds(ss: seq<Stmt>, t: Target, k: bool) returns (x: Exit)
    requires AllLabeled(ss) && AllConditional(ss) && AnyHas(ss, t)
    ensures MayEnter(ss, t, k, x)
    decreases ss, 1
  {
    if Has(ss[0], t) {
      x := AllConditionalEnd(ss, k);
    } else {
      x := ConditionalEntryEnds(ss[1..], t, k);
    }
  }

  function Above(l: Label): int {
    match l
    case Exact(v) => v + 1
    case Range(_, hi) => hi + 1
  }

  function Max(a: int, b: int): int {
    if a < b then b else a
  }

  // No label of the block matches this value or a greater one.
  function Unmatched(s: Stmt): int {
    match s
    case Case(l, t) => Max(Above(l), Unmatched(t))
    case Default(t) => Unmatched(t)
    case _ => 0
  }

  function AllUnmatched(ss: seq<Stmt>): int {
    if ss == [] then 0 else Max(Unmatched(ss[0]), AllUnmatched(ss[1..]))
  }

  lemma {:induction false} NoneMatches(s: Stmt, v: int)
    requires Labeled(s) && v >= Unmatched(s)
    ensures !Has(s, ToValue(v))
  {
    match s
    case Case(_, t) => NoneMatches(t, v);
    case Default(t) => NoneMatches(t, v);
    case _ => PlainHasNone(s, ToValue(v));
  }

  lemma {:induction false} NoneOfAllMatches(ss: seq<Stmt>, v: int)
    requires AllLabeled(ss) && v >= AllUnmatched(ss)
    ensures !AnyHas(ss, ToValue(v))
  {
    if ss != [] {
      NoneMatches(ss[0], v);
      NoneOfAllMatches(ss[1..], v);
    }
  }

  // A switch without a default label ends for a value that no label matches.
  lemma SwitchWithoutDefaultEnds(s: Stmt, k: bool)
    requires s.Switch? && Plain(s) && !Has(s.block, ToDefault)
    ensures MaySwitch(s, k, ToNext)
  {
    var ss := s.block.body;
    NoneOfAllMatches(ss, AllUnmatched(ss));
    assert MayGoTo(ss, AllUnmatched(ss), k, ToNext);
  }

  // for (;;) e;
  function Spin(e: Term): Stmt {
    For(None, None, None, None, ExprStmt(e))
  }

  lemma SpinIsEndless(e: Term)
    ensures Plain(Spin(e)) && !Forgets(Spin(e)) && Endless(Spin(e))
  {
    forall k: bool, x: Exit ensures !May(Spin(e), k, x) {
      var s := Spin(e);
      assert !May(ExprStmt(e), k, ToBreak) && !May(ExprStmt(e), k, ToReturn);
      assert Condition(s).None? && !MayTurn(s, k, ToBreak) && !MayTurn(s, k, ToReturn);
      assert !MayAgain(s, k, x) && !MayHead(s, k, x);
    }
  }

  // Two branches that never end hide the initialization.
  lemma EndlessHides(e: Term, c: Term)
    ensures var s := If(Some(ExprStmt(e)), None, c, Spin(e), Some(Spin(e)));
            Plain(s) && Preserved(s) && !Silent(s.init)
  {
    var s := If(Some(ExprStmt(e)), None, c, Spin(e), Some(Spin(e)));
    SpinIsEndless(e);
    assert PlainIfAny(s.init) && PlainIfAny(s.els) && !ForgetsIfAny(s.els);
    IfPreservesIff(s);
  }

  // ----- `if consteval` -----

  // How the statement ends without a single step, if it does.
  function Mute(s: Stmt, k: bool): Option<Exit>
    decreases s, 9
  {
    match s
    case Null => Some(ToNext)
    case DeclStmt(ds) => if Kept(ds) == [] then Some(ToNext) else None
    case ExprStmt(_) => None
    case Break => Some(ToBreak)
    case Continue => Some(ToContinue)
    case Return(e) => if e.None? then Some(ToReturn) else None
    case Compound(ss) => MuteAll(ss, k)
    case If(i, _, _, _, _) => MuteThen(MuteIfAny(i, k), None)
    case IfConsteval(negated, t, e) => if k != negated then Mute(t, k) else MuteIfAny(e, k)
    case While(_, _, _) => None
    case Do(_, _) => MuteTurned(s, k)
    case For(i, _, _, _, _) => MuteThen(MuteIfAny(i, k), MuteHead(s, k))
    case ForRange(i, r, f, l, _, _, _, _) =>
      MuteThen(MuteIfAny(i, k), MuteThen(Mute(r, k), MuteThen(Mute(f, k), MuteThen(Mute(l, k), MuteHead(s, k)))))
    case Switch(i, _, _, _) => MuteThen(MuteIfAny(i, k), None)
    case Case(_, t) => Mute(t, k)
    case Default(t) => Mute(t, k)
  }

  function MuteThen(first: Option<Exit>, rest: Option<Exit>): Option<Exit> {
    if first == Some(ToNext) then rest else first
  }

  function MuteIfAny(s: Option<Stmt>, k: bool): Option<Exit>
    decreases s, 0
  {
    if s.Some? then Mute(s.value, k) else Some(ToNext)
  }

  function MuteAll(ss: seq<Stmt>, k: bool): Option<Exit>
    decreases ss, 0
  {
    if ss == [] then Some(ToNext) else MuteThen(Mute(ss[0], k), MuteAll(ss[1..], k))
  }

  function MuteTurn(s: Stmt, k: bool): Option<Exit>
    requires IsLoop(s)
    decreases s, 0
  {
    if s.ForRange? then MuteThen(Mute(s.decl, k), Mute(s.loop, k)) else Mute(s.loop, k)
  }

  function MuteTurned(s: Stmt, k: bool): Option<Exit>
    requires IsLoop(s)
    decreases s, 1
  {
    match MuteTurn(s, k)
    case Some(ToBreak) => Some(ToNext)
    case Some(ToReturn) => Some(ToReturn)
    case _ => None
  }

  function MuteHead(s: Stmt, k: bool): Option<Exit>
    requires IsLoop(s)
    decreases s, 2
  {
    if Variable(s).Some? || Condition(s).Some? then None else MuteTurned(s, k)
  }

  function OutcomeOf<S>(x: Exit, st: S): Outcome<S> {
    match x
    case ToNext => Normal(st)
    case ToBreak => Broke(st)
    case ToContinue => Continued(st)
    case ToReturn => Returned(st, None)
  }

  // On every machine that is how it ends.
  lemma {:induction false} MuteEnds<S>(m: Machine<S>, s: Stmt, st: S, fuel: nat)
    requires Mute(s, m.constant).Some?
    ensures Exec(m, s, st, fuel) == OutcomeOf(Mute(s, m.constant).value, st)
    decreases s, 9
  {
    match s
    case Compound(ss) => MuteAllEnd(m, ss, st, fuel);
    case If(i, _, _, _, _) => MuteAnyEnds(m, i, st, fuel);
    case IfConsteval(negated, t, e) =>
      if m.constant != negated {
        MuteEnds(m, t, st, fuel);
      } else {
        MuteAnyEnds(m, e, st, fuel);
      }
    case Do(_, _) => MuteTurnEnds(m, s, st, fuel);
    case For(i, _, _, _, _) =>
      MuteAnyEnds(m, i, st, fuel);
      if MuteIfAny(i, m.constant) == Some(ToNext) {
        MuteHeadEnds(m, s, st, fuel);
      }
    case ForRange(_, _, _, _, _, _, _, _) => MuteRangeEnds(m, s, st, fuel);
    case Switch(i, _, _, _) => MuteAnyEnds(m, i, st, fuel);
    case Case(_, t) => MuteEnds(m, t, st, fuel);
    case Default(t) => MuteEnds(m, t, st, fuel);
    case _ =>
  }

  lemma {:induction false} MuteAnyEnds<S>(m: Machine<S>, s: Option<Stmt>, st: S, fuel: nat)
    requires MuteIfAny(s, m.constant).Some?
    ensures ExecIfAny(m, s, st, fuel) == OutcomeOf(MuteIfAny(s, m.constant).value, st)
    decreases s, 0
  {
    if s.Some? {
      MuteEnds(m, s.value, st, fuel);
    }
  }

  lemma {:induction false} MuteAllEnd<S>(m: Machine<S>, ss: seq<Stmt>, st: S, fuel: nat)
    requires MuteAll(ss, m.constant).Some?
    ensures ExecAll(m, ss, st, fuel) == OutcomeOf(MuteAll(ss, m.constant).value, st)
    decreases ss, 0
  {
    if ss != [] {
      MuteEnds(m, ss[0], st, fuel);
      if Mute(ss[0], m.constant) == Some(ToNext) {
        MuteAllEnd(m, ss[1..], st, fuel);
      }
    }
  }

  lemma {:induction false} MuteTurnEnds<S>(m: Machine<S>, s: Stmt, st: S, fuel: nat)
    requires IsLoop(s) && MuteTurn(s, m.constant).Some?
    ensures Turn(m, s, st, fuel) == OutcomeOf(MuteTurn(s, m.constant).value, st)
    decreases s, 0
  {
    if !s.ForRange? {
      MuteEnds(m, s.loop, st, fuel);
    } else {
      MuteEnds(m, s.decl, st, fuel);
      if Mute(s.decl, m.constant) == Some(ToNext) {
        MuteEnds(m, s.loop, st, fuel);
      }
    }
  }

  lemma {:induction false} MuteHeadEnds<S>(m: Machine<S>, s: Stmt, st: S, fuel: nat)
    requires IsLoop(s) && MuteHead(s, m.constant).Some?
    ensures Head(m, s, st, fuel) == OutcomeOf(MuteHead(s, m.constant).value, st)
    decreases s, 1
  {
    MuteTurnEnds(m, s, st, fuel);
  }

  lemma {:induction false} MuteRangeEnds<S>(m: Machine<S>, s: Stmt, st: S, fuel: nat)
    requires s.ForRange? && Mute(s, m.constant).Some?
    ensures Exec(m, s, st, fuel) == OutcomeOf(Mute(s, m.constant).value, st)
    decreases s, 2
  {
    var k := m.constant;
    MuteAnyEnds(m, s.init, st, fuel);
    if MuteIfAny(s.init, k) == Some(ToNext) {
      MuteEnds(m, s.range, st, fuel);
      if Mute(s.range, k) == Some(ToNext) {
        MuteEnds(m, s.first, st, fuel);
        if Mute(s.first, k) == Some(ToNext) {
          MuteEnds(m, s.last, st, fuel);
          if Mute(s.last, k) == Some(ToNext) {
            MuteHeadEnds(m, s, st, fuel);
          }
        }
      }
    }
  }

  // The run goes on from n, or has taken steps.
  predicate Moved(o: Outcome<int>, n: int) {
    o.OutOfFuel? || (Stopped(o) && o.s > n)
  }

  function After(n: int): int -> bool {
    (st: int) => st > n
  }

  // Every other statement takes steps, or never ends, on every machine that counts.
  lemma {:induction false} LoudMoves(values: int -> int, k: bool, s: Stmt, n: int, fuel: nat)
    requires Labeled(s) && Mute(s, k).None?
    ensures Moved(Exec(Schedule(values, k), s, n, fuel), n)
    decreases fuel, s, 9
  {
    var m := Schedule(values, k);
    match s
    case DeclStmt(ds) => CountSteps(values, k, Kept(ds), n);
    case Compound(ss) =>
      PlainIsLabeled(ss);
      LoudAllMove(values, k, ss, n, fuel);
    case If(_, _, _, _, _) => LoudIfMoves(values, k, s, n, fuel);
    case IfConsteval(negated, t, e) =>
      if k != negated {
        LoudMoves(values, k, t, n, fuel);
      } else {
        LoudAnyMoves(values, k, e, n, fuel);
      }
    case While(_, _, _) => LoudHeadMoves(values, k, s, n, fuel);
    case Do(_, _) => LoudTurnedMoves(values, k, s, n, fuel);
    case For(_, _, _, _, _) => LoudForMoves(values, k, s, n, fuel);
    case ForRange(_, _, _, _, _, _, _, _) => LoudRangeMoves(values, k, s, n, fuel);
    case Switch(_, _, _, _) => LoudSwitchMoves(values, k, s, n, fuel);
    case Case(_, t) => LoudMoves(values, k, t, n, fuel);
    case Default(t) => LoudMoves(values, k, t, n, fuel);
    case _ =>
  }

  lemma {:induction false} LoudAnyMoves(values: int -> int, k: bool, s: Option<Stmt>, n: int, fuel: nat)
    requires PlainIfAny(s) && MuteIfAny(s, k).None?
    ensures Moved(ExecIfAny(Schedule(values, k), s, n, fuel), n)
    decreases fuel, s, 0
  {
    LoudMoves(values, k, s.value, n, fuel);
  }

  // A first part that goes on has taken no step, or has moved.
  lemma {:induction false} FirstMoves(values: int -> int, k: bool, s: Option<Stmt>, n: int, fuel: nat)
    requires PlainIfAny(s) && (MuteIfAny(s, k).None? || MuteIfAny(s, k) == Some(ToNext))
    ensures var o := ExecIfAny(Schedule(values, k), s, n, fuel);
            if MuteIfAny(s, k).None? then Moved(o, n) else o == Normal(n)
    decreases fuel, s, 1
  {
    if MuteIfAny(s, k).None? {
      LoudAnyMoves(values, k, s, n, fuel);
    } else {
      MuteAnyEnds(Schedule(values, k), s, n, fuel);
    }
  }

  lemma {:induction false} LoudAllMove(values: int -> int, k: bool, ss: seq<Stmt>, n: int, fuel: nat)
    requires AllLabeled(ss) && MuteAll(ss, k).None?
    ensures Moved(ExecAll(Schedule(values, k), ss, n, fuel), n)
    decreases fuel, ss, 0
  {
    var m := Schedule(values, k);
    if Mute(ss[0], k).None? {
      LoudMoves(values, k, ss[0], n, fuel);
      var o := Exec(m, ss[0], n, fuel);
      if o.Normal? {
        ExitsAll(m, After(n), ss[1..], o.s, fuel);
      }
    } else {
      MuteEnds(m, ss[0], n, fuel);
      LoudAllMove(values, k, ss[1..], n, fuel);
    }
  }

  lemma {:induction false} LoudIfMoves(values: int -> int, k: bool, s: Stmt, n: int, fuel: nat)
    requires s.If? && Plain(s) && Mute(s, k).None?
    ensures Moved(Exec(Schedule(values, k), s, n, fuel), n)
    decreases fuel, s, 0
  {
    var m := Schedule(values, k);
    FirstMoves(values, k, s.init, n, fuel);
    var o := ExecIfAny(m, s.init, n, fuel);
    if o.Normal? {
      var (yes, st) := Test(m, s.v, Some(s.cond), o.s);
      if yes {
        Exits(m, After(n), s.thn, st, fuel);
      } else {
        ExitsIfAny(m, After(n), s.els, st, fuel);
      }
    }
  }

  lemma {:induction false} LoudSwitchMoves(values: int -> int, k: bool, s: Stmt, n: int, fuel: nat)
    requires s.Switch? && Plain(s) && Mute(s, k).None?
    ensures Moved(Exec(Schedule(values, k), s, n, fuel), n)
    decreases fuel, s, 0
  {
    var m := Schedule(values, k);
    FirstMoves(values, k, s.init, n, fuel);
    var o := ExecIfAny(m, s.init, n, fuel);
    if o.Normal? {
      var declared := Step(m, s.v, o.s);
      var _ := ExitsGoTo(m, After(n), s.block.body, m.eval(s.cond, declared), m.step(s.cond, declared), fuel);
    }
  }

  lemma {:induction false} LoudTurnMoves(values: int -> int, k: bool, s: Stmt, n: int, fuel: nat)
    requires IsLoop(s) && Plain(s) && MuteTurn(s, k).None?
    ensures Moved(Turn(Schedule(values, k), s, n, fuel), n)
    decreases fuel, s, 0
  {
    var m := Schedule(values, k);
    if !s.ForRange? {
      LoudMoves(values, k, s.loop, n, fuel);
    } else if Mute(s.decl, k).None? {
      LoudMoves(values, k, s.decl, n, fuel);
      var o := Exec(m, s.decl, n, fuel);
      if o.Normal? {
        Exits(m, After(n), s.loop, o.s, fuel);
      }
    } else {
      MuteEnds(m, s.decl, n, fuel);
      LoudMoves(values, k, s.loop, n, fuel);
    }
  }

  lemma {:induction false} LoudTurnedMoves(values: int -> int, k: bool, s: Stmt, n: int, fuel: nat)
    requires IsLoop(s) && Plain(s) && MuteTurned(s, k).None?
    ensures var m := Schedule(values, k); Moved(Again(m, s, Turn(m, s, n, fuel), fuel), n)
    decreases fuel, s, 1
  {
    var m := Schedule(values, k);
    if MuteTurn(s, k).None? {
      LoudTurnMoves(values, k, s, n, fuel);
      var o := Turn(m, s, n, fuel);
      if (o.Normal? || o.Continued?) && fuel > 0 {
        ExitsHead(m, After(n), s, Step(m, Increment(s), o.s), fuel - 1);
      }
    } else {
      MuteTurnEnds(m, s, n, fuel);
      if fuel > 0 {
        var next := Step(m, Increment(s), n);
        if Variable(s).Some? || Condition(s).Some? {
          TestMoves(values, k, s, next, n, fuel - 1);
        } else if next > n {
          ExitsHead(m, After(n), s, next, fuel - 1);
        } else {
          LoudTurnedMoves(values, k, s, n, fuel - 1);
        }
      }
    }
  }

  // A loop with a condition takes steps at its head.
  lemma TestMoves(values: int -> int, k: bool, s: Stmt, at: int, n: int, fuel: nat)
    requires IsLoop(s) && Plain(s) && (Variable(s).Some? || Condition(s).Some?) && at >= n
    ensures Moved(Head(Schedule(values, k), s, at, fuel), n)
  {
    var m := Schedule(values, k);
    var (yes, st) := Test(m, Variable(s), Condition(s), at);
    if yes {
      ExitsTurn(m, After(n), s, st, fuel);
      ExitsAgain(m, After(n), s, Turn(m, s, st, fuel), fuel);
    }
  }

  lemma {:induction false} LoudHeadMoves(values: int -> int, k: bool, s: Stmt, n: int, fuel: nat)
    requires IsLoop(s) && Plain(s) && MuteHead(s, k).None?
    ensures Moved(Head(Schedule(values, k), s, n, fuel), n)
    decreases fuel, s, 2
  {
    if Variable(s).Some? || Condition(s).Some? {
      TestMoves(values, k, s, n, n, fuel);
    } else {
      LoudTurnedMoves(values, k, s, n, fuel);
    }
  }

  lemma {:induction false} LoudForMoves(values: int -> int, k: bool, s: Stmt, n: int, fuel: nat)
    requires s.For? && Plain(s) && Mute(s, k).None?
    ensures Moved(Exec(Schedule(values, k), s, n, fuel), n)
    decreases fuel, s, 3
  {
    var m := Schedule(values, k);
    FirstMoves(values, k, s.init, n, fuel);
    var o := ExecIfAny(m, s.init, n, fuel);
    if o.Normal? {
      if MuteIfAny(s.init, k).None? {
        ExitsHead(m, After(n), s, o.s, fuel);
      } else {
        LoudHeadMoves(values, k, s, n, fuel);
      }
    }
  }

  lemma {:induction false} LoudRangeMoves(values: int -> int, k: bool, s: Stmt, n: int, fuel: nat)
    requires s.ForRange? && Plain(s) && Mute(s, k).None?
    ensures Moved(Exec(Schedule(values, k), s, n, fuel), n)
    decreases fuel, s, 4
  {
    var m := Schedule(values, k);
    FirstMoves(values, k, s.init, n, fuel);
    var o := ExecIfAny(m, s.init, n, fuel);
    if o.Normal? {
      if MuteIfAny(s.init, k).None? {
        ExitsSetUp(m, After(n), s, o.s, fuel);
      } else {
        LoudSetUpMoves(values, k, s, n, fuel);
      }
    }
  }

  lemma {:induction false} LoudSetUpMoves(values: int -> int, k: bool, s: Stmt, n: int, fuel: nat)
    requires s.ForRange? && Plain(s)
    requires MuteThen(Mute(s.range, k), MuteThen(Mute(s.first, k), MuteThen(Mute(s.last, k), MuteHead(s, k)))).None?
    ensures Moved(SetUp(Schedule(values, k), s, n, fuel), n)
    decreases fuel, s, 3
  {
    var m := Schedule(values, k);
    var o1 := LoudOrMute(values, k, s.range, n, fuel);
    if o1.Normal? {
      if o1.s > n {
        Exits(m, After(n), s.first, o1.s, fuel);
      } else {
        var _ := LoudOrMute(values, k, s.first, n, fuel);
      }
      var o2 := Exec(m, s.first, o1.s, fuel);
      if o2.Normal? {
        if o2.s > n {
          Exits(m, After(n), s.last, o2.s, fuel);
        } else {
          var _ := LoudOrMute(values, k, s.last, n, fuel);
        }
        var o3 := Exec(m, s.last, o2.s, fuel);
        if o3.Normal? {
          if o3.s > n {
            ExitsHead(m, After(n), s, o3.s, fuel);
          } else {
            LoudHeadMoves(values, k, s, n, fuel);
          }
        }
      }
    }
  }

  lemma {:induction false} LoudOrMute(values: int -> int, k: bool, s: Stmt, n: int, fuel: nat)
    returns (o: Outcome<int>)
    requires Plain(s)
    ensures o == Exec(Schedule(values, k), s, n, fuel)
    ensures if Mute(s, k).None? then Moved(o, n) else o == OutcomeOf(Mute(s, k).value, n)
    decreases fuel, s, 10
  {
    o := Exec(Schedule(values, k), s, n, fuel);
    if Mute(s, k).None? {
      LoudMoves(values, k, s, n, fuel);
    } else {
      MuteEnds(Schedule(values, k), s, n, fuel);
    }
  }

  // The statement does nothing and goes on, at compile time and at run time.
  predicate Idle(s: Stmt) {
    Mute(s, false) == Some(ToNext) && Mute(s, true) == Some(ToNext)
  }

  // The negation is not printed. Without an `else` that changes nothing only if the branch is idle.
  lemma ConstevalPreservesIff(s: Stmt)
    requires s.IfConsteval? && s.els.None? && Plain(s) && !Forgets(s.thn)
    ensures Preserved(s) <==> !s.negated || Idle(s.thn)
  {
    if !s.negated {
      AllPreserved(s);
    } else {
      forall m: Machine<int>, st: int, fuel: nat
        ensures Run(m, Lower(s), st, fuel) == (if m.constant then Exec(m, s.thn, st, fuel) else Normal(st))
      {
        LowerPreserves(m, s.thn, st, fuel);
      }
      if Idle(s.thn) {
        forall m: Machine<int>, st: int, fuel: nat ensures Run(m, Lower(s), st, fuel) == Exec(m, s, st, fuel) {
          MuteEnds(m, s.thn, st, fuel);
        }
      } else {
        var k := Mute(s.thn, false) == Some(ToNext);
        var values := (n: int) => 0;
        var _ := LoudOrMute(values, k, s.thn, 0, 0);
        assert Run(Schedule(values, k), Lower(s), 0, 0) != Exec(Schedule(values, k), s, 0, 0);
      }
    }
  }

  // With an `else`, whatever it is, the negation makes a difference for some first branch.
  lemma NegationPreservesIff(negated: bool, els: Option<Stmt>)
    requires PlainIfAny(els) && !ForgetsIfAny(els)
    ensures (forall x: Stmt | Plain(x) && !Forgets(x) :: Preserved(IfConsteval(negated, x, els))) <==> !negated
  {
    if !negated {
      forall x: Stmt | Plain(x) && !Forgets(x) ensures Preserved(IfConsteval(negated, x, els)) {
        AllPreserved(IfConsteval(negated, x, els));
      }
    } else {
      var m := Schedule((n: int) => 0, false);
      ElsePreserves(m, els, 0, 0);
      var x := if ExecIfAny(m, els, 0, 0) == Normal(0) then Break else Null;
      var s := IfConsteval(true, x, els);
      assert Plain(x) && !Forgets(x);
      assert Run(m, Lower(s), 0, 0) != Exec(m, s, 0, 0);
    }
  }
}
