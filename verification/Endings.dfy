/**
 * How a statement may end, over all machines: it goes on, breaks, continues, returns, or never ends.
 */
module Endings {
  import opened Printing
  import opened SwitchLowering
  import opened Wrappers

  datatype Exit = ToNext | ToBreak | ToContinue | ToReturn

  predicate Stopped<S>(o: Outcome<S>) {
    o.Normal? || o.Broke? || o.Continued? || o.Returned?
  }

  function ExitOf<S>(o: Outcome<S>): Exit
    requires Stopped(o)
  {
    if o.Normal? then ToNext
    else if o.Broke? then ToBreak
    else if o.Continued? then ToContinue
    else ToReturn
  }

  // ----- Which exits a statement may take, whatever its conditions are -----

  // One thing after another: the first one exits, or it goes on and the rest exits.
  predicate Chain(x: Exit, exits: bool, goesOn: bool, rest: bool) {
    (x != ToNext && exits) || (goesOn && rest)
  }

  ghost predicate May(s: Stmt, k: bool, x: Exit)
    decreases s, 9
  {
    match s
    case ExprStmt(_) | DeclStmt(_) | Null => x == ToNext
    case Break => x == ToBreak
    case Continue => x == ToContinue
    case Return(_) => x == ToReturn
    case Compound(ss) => MayAll(ss, k, x)
    case If(i, _, _, _, _) => Chain(x, MayIfAny(i, k, x), MayIfAny(i, k, ToNext), MayChoose(s, k, x))
    case IfConsteval(negated, t, e) => if k != negated then May(t, k, x) else MayIfAny(e, k, x)
    case While(_, _, _) => MayHead(s, k, x)
    case Do(_, _) => MayAgain(s, k, x)
    case For(i, _, _, _, _) => Chain(x, MayIfAny(i, k, x), MayIfAny(i, k, ToNext), MayHead(s, k, x))
    case ForRange(i, _, _, _, _, _, _, _) =>
      Chain(x, MayIfAny(i, k, x), MayIfAny(i, k, ToNext), MaySetUp(s, k, x))
    case Switch(i, _, _, _) => Chain(x, MayIfAny(i, k, x), MayIfAny(i, k, ToNext), MaySwitch(s, k, x))
    case Case(_, t) => May(t, k, x)
    case Default(t) => May(t, k, x)
  }

  ghost predicate MayIfAny(s: Option<Stmt>, k: bool, x: Exit)
    decreases s, 0
  {
    if s.Some? then May(s.value, k, x) else x == ToNext
  }

  ghost predicate MayAll(ss: seq<Stmt>, k: bool, x: Exit)
    decreases ss, 0
  {
    if ss == [] then x == ToNext
    else Chain(x, May(ss[0], k, x), May(ss[0], k, ToNext), MayAll(ss[1..], k, x))
  }

  ghost predicate MayChoose(s: Stmt, k: bool, x: Exit)
    requires s.If?
    decreases s, 0
  {
    May(s.thn, k, x) || MayIfAny(s.els, k, x)
  }

  ghost predicate MayTurn(s: Stmt, k: bool, x: Exit)
    requires IsLoop(s)
    decreases s, 0
  {
    if s.ForRange? then Chain(x, May(s.decl, k, x), May(s.decl, k, ToNext), May(s.loop, k, x))
    else May(s.loop, k, x)
  }

  // From a turn on: by a break, by a condition that becomes false, or by returning.
  ghost predicate MayAgain(s: Stmt, k: bool, x: Exit)
    requires IsLoop(s)
    decreases s, 1
  {
    match x
    case ToNext =>
      MayTurn(s, k, ToBreak) || (Condition(s).Some? && (MayTurn(s, k, ToNext) || MayTurn(s, k, ToContinue)))
    case ToReturn => MayTurn(s, k, ToReturn)
    case _ => false
  }

  ghost predicate MayHead(s: Stmt, k: bool, x: Exit)
    requires IsLoop(s)
    decreases s, 2
  {
    (x == ToNext && Condition(s).Some?) || MayAgain(s, k, x)
  }

  ghost predicate MaySetUp(s: Stmt, k: bool, x: Exit)
    requires s.ForRange?
    decreases s, 5
  {
    Chain(x, May(s.range, k, x), May(s.range, k, ToNext), MaySetUpFirst(s, k, x))
  }

  ghost predicate MaySetUpFirst(s: Stmt, k: bool, x: Exit)
    requires s.ForRange?
    decreases s, 4
  {
    Chain(x, May(s.first, k, x), May(s.first, k, ToNext), MaySetUpLast(s, k, x))
  }

  ghost predicate MaySetUpLast(s: Stmt, k: bool, x: Exit)
    requires s.ForRange?
    decreases s, 3
  {
    Chain(x, May(s.last, k, x), May(s.last, k, ToNext), MayHead(s, k, x))
  }

  // Some value leads to a run with such an exit; a break leaves the switch.
  ghost predicate MaySwitch(s: Stmt, k: bool, x: Exit)
    requires s.Switch?
    decreases s, 0
  {
    s.block.Compound? && exists v: int, y: Exit :: MayGoTo(s.block.body, v, k, y) && x == Leaving(y)
  }

  function Leaving(y: Exit): Exit {
    if y == ToBreak then ToNext else y
  }

  ghost predicate MayGoTo(ss: seq<Stmt>, v: int, k: bool, x: Exit)
    decreases ss, 2
  {
    if AnyHas(ss, ToValue(v)) then MayEnter(ss, ToValue(v), k, x)
    else if AnyHas(ss, ToDefault) then MayEnter(ss, ToDefault, k, x)
    else x == ToNext
  }

  ghost predicate MayEnter(ss: seq<Stmt>, t: Target, k: bool, x: Exit)
    requires AnyHas(ss, t)
    decreases ss, 1
  {
    if Has(ss[0], t) then MayAll(ss, k, x) else MayEnter(ss[1..], t, k, x)
  }

  // The statement never ends: it loops without a condition and without a way out.
  ghost predicate Endless(s: Stmt) {
    forall k: bool, x: Exit :: !May(s, k, x)
  }

  ghost predicate EndlessIfAny(s: Option<Stmt>) {
    s.Some? && Endless(s.value)
  }

  // ----- No other exit is taken, by any machine -----

  ghost predicate Keeps<S(!new)>(m: Machine<S>, inv: S -> bool) {
    forall e: Term, st: S :: inv(st) ==> inv(m.step(e, st))
  }

  // The run has not ended, or its state keeps the invariant.
  predicate Going<S>(o: Outcome<S>, inv: S -> bool) {
    o.OutOfFuel? || (Stopped(o) && inv(o.s))
  }

  lemma {:induction false} StepsKeep<S(!new)>(m: Machine<S>, inv: S -> bool, es: seq<Term>, st: S)
    requires Keeps(m, inv) && inv(st)
    ensures inv(StepAll(m, es, st))
  {
    if es != [] {
      StepsKeep(m, inv, es[1..], m.step(es[0], st));
    }
  }

  // A label of its own changes nothing in where the run of an item starts.
  lemma {:induction false} EnterIsExec<S>(m: Machine<S>, s: Stmt, t: Target, st: S, fuel: nat)
    requires Labeled(s) && Has(s, t)
    ensures Enter(m, s, t, st, fuel) == Exec(m, s, st, fuel)
    decreases s
  {
    match s
    case Case(l, u) =>
      if !At(l, t) {
        EnterIsExec(m, u, t, st, fuel);
      }
    case Default(u) =>
      if !t.ToDefault? {
        EnterIsExec(m, u, t, st, fuel);
      }
    case _ => PlainHasNone(s, t);
  }

  lemma {:induction false} Exits<S(!new)>(m: Machine<S>, inv: S -> bool, s: Stmt, st: S, fuel: nat)
    requires Labeled(s) && Keeps(m, inv) && inv(st)
    ensures var o := Exec(m, s, st, fuel); Going(o, inv) && (Stopped(o) ==> May(s, m.constant, ExitOf(o)))
    decreases fuel, s, 9
  {
    match s
    case DeclStmt(ds) => StepsKeep(m, inv, Kept(ds), st);
    case Compound(ss) =>
      PlainIsLabeled(ss);
      ExitsAll(m, inv, ss, st, fuel);
    case If(i, _, _, _, _) =>
      ExitsIfAny(m, inv, i, st, fuel);
      var o := ExecIfAny(m, i, st, fuel);
      if o.Normal? {
        ExitsChoose(m, inv, s, o.s, fuel);
      }
    case IfConsteval(negated, t, e) =>
      if m.constant != negated {
        Exits(m, inv, t, st, fuel);
      } else {
        ExitsIfAny(m, inv, e, st, fuel);
      }
    case While(_, _, _) => ExitsHead(m, inv, s, st, fuel);
    case Do(_, _) =>
      ExitsTurn(m, inv, s, st, fuel);
      ExitsAgain(m, inv, s, Turn(m, s, st, fuel), fuel);
    case For(i, _, _, _, _) =>
      ExitsIfAny(m, inv, i, st, fuel);
      var o := ExecIfAny(m, i, st, fuel);
      if o.Normal? {
        ExitsHead(m, inv, s, o.s, fuel);
      }
    case ForRange(i, _, _, _, _, _, _, _) =>
      ExitsIfAny(m, inv, i, st, fuel);
      var o := ExecIfAny(m, i, st, fuel);
      if o.Normal? {
        ExitsSetUp(m, inv, s, o.s, fuel);
      }
    case Switch(i, _, _, _) =>
      ExitsIfAny(m, inv, i, st, fuel);
      var o := ExecIfAny(m, i, st, fuel);
      if o.Normal? {
        ExitsSwitch(m, inv, s, o.s, fuel);
      }
    case Case(_, t) => Exits(m, inv, t, st, fuel);
    case Default(t) => Exits(m, inv, t, st, fuel);
    case _ =>
  }

  lemma {:induction false} ExitsIfAny<S(!new)>(m: Machine<S>, inv: S -> bool, s: Option<Stmt>, st: S, fuel: nat)
    requires PlainIfAny(s) && Keeps(m, inv) && inv(st)
    ensures var o := ExecIfAny(m, s, st, fuel);
            Going(o, inv) && (Stopped(o) ==> MayIfAny(s, m.constant, ExitOf(o)))
    decreases fuel, s, 0
  {
    if s.Some? {
      Exits(m, inv, s.value, st, fuel);
    }
  }

  lemma {:induction false} ExitsAll<S(!new)>(m: Machine<S>, inv: S -> bool, ss: seq<Stmt>, st: S, fuel: nat)
    requires AllLabeled(ss) && Keeps(m, inv) && inv(st)
    ensures var o := ExecAll(m, ss, st, fuel); Going(o, inv) && (Stopped(o) ==> MayAll(ss, m.constant, ExitOf(o)))
    decreases fuel, ss, 0
  {
    if ss != [] {
      Exits(m, inv, ss[0], st, fuel);
      var o := Exec(m, ss[0], st, fuel);
      if o.Normal? {
        ExitsAll(m, inv, ss[1..], o.s, fuel);
      }
    }
  }

  lemma TestKeeps<S(!new)>(m: Machine<S>, inv: S -> bool, v: Option<Term>, c: Option<Term>, st: S)
    requires Keeps(m, inv) && inv(st)
    ensures inv(Test(m, v, c, st).1)
  {
  }

  lemma {:induction false} ExitsChoose<S(!new)>(m: Machine<S>, inv: S -> bool, s: Stmt, st: S, fuel: nat)
    requires s.If? && Plain(s) && Keeps(m, inv) && inv(st)
    ensures var o := Choose(m, s, st, fuel);
            Going(o, inv) && (Stopped(o) ==> MayChoose(s, m.constant, ExitOf(o)))
    decreases fuel, s, 0
  {
    TestKeeps(m, inv, s.v, Some(s.cond), st);
    var (yes, st') := Test(m, s.v, Some(s.cond), st);
    if yes {
      Exits(m, inv, s.thn, st', fuel);
    } else {
      ExitsIfAny(m, inv, s.els, st', fuel);
    }
  }

  lemma {:induction false} ExitsTurn<S(!new)>(m: Machine<S>, inv: S -> bool, s: Stmt, st: S, fuel: nat)
    requires IsLoop(s) && Plain(s) && Keeps(m, inv) && inv(st)
    ensures var o := Turn(m, s, st, fuel); Going(o, inv) && (Stopped(o) ==> MayTurn(s, m.constant, ExitOf(o)))
    decreases fuel, s, 0
  {
    if s.ForRange? {
      Exits(m, inv, s.decl, st, fuel);
      var o := Exec(m, s.decl, st, fuel);
      if o.Normal? {
        Exits(m, inv, s.loop, o.s, fuel);
      }
    } else {
      Exits(m, inv, s.loop, st, fuel);
    }
  }

  lemma {:induction false} ExitsAgain<S(!new)>(m: Machine<S>, inv: S -> bool, s: Stmt, o: Outcome<S>, fuel: nat)
    requires IsLoop(s) && Plain(s) && Keeps(m, inv)
    requires Going(o, inv) && (Stopped(o) ==> MayTurn(s, m.constant, ExitOf(o)))
    ensures var p := Again(m, s, o, fuel); Going(p, inv) && (Stopped(p) ==> MayAgain(s, m.constant, ExitOf(p)))
    decreases fuel, s, 1
  {
    if (o.Normal? || o.Continued?) && fuel > 0 {
      ExitsHead(m, inv, s, Step(m, Increment(s), o.s), fuel - 1);
      var p := Again(m, s, o, fuel);
      assert Stopped(p) && ExitOf(p) == ToNext && Condition(s).Some? ==> MayAgain(s, m.constant, ToNext);
    }
  }

  lemma {:induction false} ExitsHead<S(!new)>(m: Machine<S>, inv: S -> bool, s: Stmt, st: S, fuel: nat)
    requires IsLoop(s) && Plain(s) && Keeps(m, inv) && inv(st)
    ensures var o := Head(m, s, st, fuel); Going(o, inv) && (Stopped(o) ==> MayHead(s, m.constant, ExitOf(o)))
    decreases fuel, s, 2
  {
    TestKeeps(m, inv, Variable(s), Condition(s), st);
    var (yes, st') := Test(m, Variable(s), Condition(s), st);
    if yes {
      ExitsTurn(m, inv, s, st', fuel);
      ExitsAgain(m, inv, s, Turn(m, s, st', fuel), fuel);
    }
  }

  lemma {:induction false} ExitsSetUp<S(!new)>(m: Machine<S>, inv: S -> bool, s: Stmt, st: S, fuel: nat)
    requires s.ForRange? && Plain(s) && Keeps(m, inv) && inv(st)
    ensures var o := SetUp(m, s, st, fuel); Going(o, inv) && (Stopped(o) ==> MaySetUp(s, m.constant, ExitOf(o)))
    decreases fuel, s, 3
  {
    Exits(m, inv, s.range, st, fuel);
    var o1 := Exec(m, s.range, st, fuel);
    if o1.Normal? {
      Exits(m, inv, s.first, o1.s, fuel);
      var o2 := Exec(m, s.first, o1.s, fuel);
      if o2.Normal? {
        Exits(m, inv, s.last, o2.s, fuel);
        var o3 := Exec(m, s.last, o2.s, fuel);
        if o3.Normal? {
          ExitsHead(m, inv, s, o3.s, fuel);
        }
      }
    }
  }

  // The condition of a switch, and the jump.
  function Select<S>(m: Machine<S>, s: Stmt, st: S, fuel: nat): Outcome<S>
    requires s.Switch?
  {
    var declared := Step(m, s.v, st);
    GoTo(m, s.block, m.eval(s.cond, declared), m.step(s.cond, declared), fuel)
  }

  lemma {:induction false} ExitsSwitch<S(!new)>(m: Machine<S>, inv: S -> bool, s: Stmt, st: S, fuel: nat)
    requires s.Switch? && Plain(s) && Keeps(m, inv) && inv(st)
    ensures var o := Select(m, s, st, fuel);
            Going(o, inv) && (Stopped(o) ==> MaySwitch(s, m.constant, ExitOf(o)))
    decreases fuel, s, 0
  {
    var declared := Step(m, s.v, st);
    var v, st' := m.eval(s.cond, declared), m.step(s.cond, declared);
    var o := ExitsGoTo(m, inv, s.block.body, v, st', fuel);
    assert Stopped(o) ==> MayGoTo(s.block.body, v, m.constant, ExitOf(o));
  }

  lemma {:induction false} ExitsGoTo<S(!new)>(m: Machine<S>, inv: S -> bool, ss: seq<Stmt>, v: int, st: S, fuel: nat)
    returns (o: Outcome<S>)
    requires AllLabeled(ss) && Keeps(m, inv) && inv(st)
    ensures GoTo(m, Compound(ss), v, st, fuel) == AfterSwitch(o)
    ensures Going(o, inv) && (Stopped(o) ==> MayGoTo(ss, v, m.constant, ExitOf(o)))
    decreases fuel, ss, 2
  {
    if AnyHas(ss, ToValue(v)) {
      ExitsEnter(m, inv, ss, ToValue(v), st, fuel);
      o := EnterAll(m, ss, ToValue(v), st, fuel);
      assert Enter(m, Compound(ss), ToValue(v), st, fuel) == o;
    } else if AnyHas(ss, ToDefault) {
      ExitsEnter(m, inv, ss, ToDefault, st, fuel);
      o := EnterAll(m, ss, ToDefault, st, fuel);
      assert Enter(m, Compound(ss), ToDefault, st, fuel) == o;
    } else {
      o := Normal(st);
    }
  }

  lemma {:induction false} ExitsEnter<S(!new)>(m: Machine<S>, inv: S -> bool, ss: seq<Stmt>, t: Target, st: S,
                                               fuel: nat)
    requires AllLabeled(ss) && AnyHas(ss, t) && Keeps(m, inv) && inv(st)
    ensures var o := EnterAll(m, ss, t, st, fuel);
            Going(o, inv) && (Stopped(o) ==> MayEnter(ss, t, m.constant, ExitOf(o)))
    decreases fuel, ss, 1
  {
    if Has(ss[0], t) {
      EnterIsExec(m, ss[0], t, st, fuel);
      ExitsAll(m, inv, ss, st, fuel);
    } else {
      ExitsEnter(m, inv, ss[1..], t, st, fuel);
    }
  }

  // ----- Every such exit is taken, by some machine -----

  // A machine that counts its steps, and whose conditions follow a schedule.
  function Schedule(values: int -> int, k: bool): Machine<int> {
    Machine((e: Term, n: int) => n + 1, (e: Term, n: int) => values(n), k)
  }

  lemma {:induction false} CountSteps(values: int -> int, k: bool, es: seq<Term>, n: int)
    ensures StepAll(Schedule(values, k), es, n) == n + |es|
  {
    if es != [] {
      CountSteps(values, k, es[1..], n + 1);
    }
  }

  ghost predicate Follows(values: int -> int, n: int, plan: seq<int>) {
    forall j :: 0 <= j < |plan| ==> values(n + j) == plan[j]
  }

  lemma FollowsBoth(values: int -> int, n: int, a: seq<int>, b: seq<int>)
    requires Follows(values, n, a + b)
    ensures Follows(values, n, a) && Follows(values, n + |a|, b)
  {
    forall j | 0 <= j < |a| ensures values(n + j) == a[j] {
      assert (a + b)[j] == a[j];
    }
    forall j | 0 <= j < |b| ensures values(n + |a| + j) == b[j] {
      assert (a + b)[|a| + j] == b[j] && n + |a| + j == n + (|a| + j);
    }
  }

  // The parts of a run.
  datatype Part =
    | Whole(s: Stmt)
    | Perhaps(o: Option<Stmt>)
    | Rest(ss: seq<Stmt>)
    | Chosen(s: Stmt)
    | OneTurn(s: Stmt)
    | Turned(s: Stmt)
    | Loop(s: Stmt)
    | First(s: Stmt)
    | Last(s: Stmt)
    | All(s: Stmt)
    | Selected(s: Stmt)
    | Entered(ss: seq<Stmt>, t: Target)

  predicate Proper(p: Part) {
    match p
    case Chosen(s) => s.If?
    case OneTurn(s) => IsLoop(s)
    case Turned(s) => IsLoop(s)
    case Loop(s) => IsLoop(s)
    case First(s) => s.ForRange?
    case Last(s) => s.ForRange?
    case All(s) => s.ForRange?
    case Selected(s) => s.Switch?
    case Entered(ss, t) => AnyHas(ss, t)
    case _ => true
  }

  function Perform<S>(m: Machine<S>, p: Part, st: S, fuel: nat): Outcome<S>
    requires Proper(p)
    decreases p.First?
  {
    match p
    case Whole(s) => Exec(m, s, st, fuel)
    case Perhaps(o) => ExecIfAny(m, o, st, fuel)
    case Rest(ss) => ExecAll(m, ss, st, fuel)
    case Chosen(s) => Choose(m, s, st, fuel)
    case OneTurn(s) => Turn(m, s, st, fuel)
    case Turned(s) => Again(m, s, Turn(m, s, st, fuel), fuel)
    case Loop(s) => Head(m, s, st, fuel)
    case All(s) => SetUp(m, s, st, fuel)
    case First(s) =>
      var o := Exec(m, s.first, st, fuel);
      if o.Normal? then Perform(m, Last(s), o.s, fuel) else o
    case Last(s) =>
      var o := Exec(m, s.last, st, fuel);
      if o.Normal? then Head(m, s, o.s, fuel) else o
    case Selected(s) => Select(m, s, st, fuel)
    case Entered(ss, t) => EnterAll(m, ss, t, st, fuel)
  }

  predicate Ended(o: Outcome<int>, x: Exit, n: int) {
    Stopped(o) && ExitOf(o) == x && o.s == n
  }

  // Whoever follows the plan ends with this exit, one step for each of its values.
  ghost predicate Leads(plan: seq<int>, k: bool, p: Part, x: Exit)
    requires Proper(p)
  {
    forall values: int -> int, n: int, fuel: nat {:trigger Perform(Schedule(values, k), p, n, fuel)} ::
      fuel > 0 && Follows(values, n, plan) ==> Ended(Perform(Schedule(values, k), p, n, fuel), x, n + |plan|)
  }

  ghost predicate Alike(k: bool, r: Part, p: Part)
    requires Proper(r) && Proper(p)
  {
    forall values: int -> int, n: int, fuel: nat {:trigger Perform(Schedule(values, k), r, n, fuel)} ::
      Perform(Schedule(values, k), r, n, fuel) == Perform(Schedule(values, k), p, n, fuel)
  }

  // r is p, and then q if p goes on.
  ghost predicate Sequence(k: bool, r: Part, p: Part, q: Part)
    requires Proper(r) && Proper(p) && Proper(q)
  {
    forall values: int -> int, n: int, fuel: nat {:trigger Perform(Schedule(values, k), r, n, fuel)} ::
      Perform(Schedule(values, k), r, n, fuel)
      == var o := Perform(Schedule(values, k), p, n, fuel);
         if o.Normal? then Perform(Schedule(values, k), q, o.s, fuel) else o
  }

  lemma LeadsAlike(plan: seq<int>, k: bool, r: Part, p: Part, x: Exit)
    requires Proper(r) && Proper(p) && Alike(k, r, p) && Leads(plan, k, p, x)
    ensures Leads(plan, k, r, x)
  {
  }

  lemma LeadsOut(plan: seq<int>, k: bool, r: Part, p: Part, q: Part, x: Exit)
    requires Proper(r) && Proper(p) && Proper(q) && Sequence(k, r, p, q) && Leads(plan, k, p, x) && x != ToNext
    ensures Leads(plan, k, r, x)
  {
  }

  lemma LeadsOn(a: seq<int>, b: seq<int>, k: bool, r: Part, p: Part, q: Part, x: Exit)
    requires Proper(r) && Proper(p) && Proper(q) && Sequence(k, r, p, q) && Leads(a, k, p, ToNext) && Leads(b, k, q, x)
    ensures Leads(a + b, k, r, x)
  {
    forall values: int -> int, n: int, fuel: nat | fuel > 0 && Follows(values, n, a + b)
      ensures Ended(Perform(Schedule(values, k), r, n, fuel), x, n + |a + b|)
    {
      FollowsBoth(values, n, a, b);
      assert Ended(Perform(Schedule(values, k), p, n, fuel), ToNext, n + |a|);
      assert Ended(Perform(Schedule(values, k), q, n + |a|, fuel), x, n + |a| + |b|);
    }
  }

  function Zeros(n: nat): (r: seq<int>)
    ensures |r| == n
  {
    seq(n, i => 0)
  }

  // One step for what is there.
  function StepOf(e: Option<Term>): (r: seq<int>)
    ensures |r| == if e.Some? then 1 else 0
  {
    Zeros(if e.Some? then 1 else 0)
  }

  // The condition has this truth value.
  function TestOf(v: Option<Term>, c: Option<Term>, yes: bool): seq<int>
    requires c.None? ==> yes
  {
    StepOf(v) + if c.None? then [] else [if yes then 1 else 0]
  }

  lemma TestFollows(values: int -> int, k: bool, v: Option<Term>, c: Option<Term>, yes: bool, n: int)
    requires (c.None? ==> yes) && Follows(values, n, TestOf(v, c, yes))
    ensures Test(Schedule(values, k), v, c, n) == (yes, n + |TestOf(v, c, yes)|)
  {
    var plan := TestOf(v, c, yes);
    if c.Some? {
      var at := |StepOf(v)|;
      assert plan[at] == if yes then 1 else 0;
      assert values(n + at) == plan[at];
    }
  }

  // ----- A plan for each exit -----

  lemma {:induction false} PlanFor(s: Stmt, k: bool, x: Exit) returns (plan: seq<int>)
    requires Labeled(s) && May(s, k, x)
    ensures Leads(plan, k, Whole(s), x)
    decreases s, 9
  {
    match s
    case ExprStmt(_) => plan := [0];
    case DeclStmt(ds) => plan := PlanForDecl(ds, k);
    case Null => plan := [];
    case Break => plan := [];
    case Continue => plan := [];
    case Return(e) => plan := StepOf(e);
    case Compound(ss) =>
      PlainIsLabeled(ss);
      plan := PlanForAll(ss, k, x);
      LeadsAlike(plan, k, Whole(s), Rest(ss), x);
    case If(i, _, _, _, _) => plan := PlanForIf(s, k, x);
    case IfConsteval(negated, t, e) =>
      if k != negated {
        plan := PlanFor(t, k, x);
        LeadsAlike(plan, k, Whole(s), Whole(t), x);
      } else {
        plan := PlanForAny(e, k, x);
        LeadsAlike(plan, k, Whole(s), Perhaps(e), x);
      }
    case While(_, _, _) =>
      plan := PlanForHead(s, k, x);
      LeadsAlike(plan, k, Whole(s), Loop(s), x);
    case Do(_, _) =>
      plan := PlanForAgain(s, k, x);
      LeadsAlike(plan, k, Whole(s), Turned(s), x);
    case For(i, _, _, _, _) => plan := PlanForFor(s, k, x);
    case ForRange(i, _, _, _, _, _, _, _) => plan := PlanForRange(s, k, x);
    case Switch(i, _, _, _) => plan := PlanForSwitch(s, k, x);
    case Case(_, t) =>
      plan := PlanFor(t, k, x);
      LeadsAlike(plan, k, Whole(s), Whole(t), x);
    case Default(t) =>
      plan := PlanFor(t, k, x);
      LeadsAlike(plan, k, Whole(s), Whole(t), x);
  }

  lemma PlanForDecl(ds: seq<Option<Term>>, k: bool) returns (plan: seq<int>)
    ensures Leads(plan, k, Whole(DeclStmt(ds)), ToNext)
  {
    plan := Zeros(|Kept(ds)|);
    forall values: int -> int, n: int, fuel: nat
      ensures Ended(Perform(Schedule(values, k), Whole(DeclStmt(ds)), n, fuel), ToNext, n + |plan|)
    {
      CountSteps(values, k, Kept(ds), n);
    }
  }

  lemma {:induction false} PlanForAny(s: Option<Stmt>, k: bool, x: Exit) returns (plan: seq<int>)
    requires PlainIfAny(s) && MayIfAny(s, k, x)
    ensures Leads(plan, k, Perhaps(s), x)
    decreases s, 0
  {
    if s.Some? {
      plan := PlanFor(s.value, k, x);
      LeadsAlike(plan, k, Perhaps(s), Whole(s.value), x);
    } else {
      plan := [];
    }
  }

  lemma {:induction false} PlanForAll(ss: seq<Stmt>, k: bool, x: Exit) returns (plan: seq<int>)
    requires AllLabeled(ss) && MayAll(ss, k, x)
    ensures Leads(plan, k, Rest(ss), x)
    decreases ss, 0
  {
    if ss == [] {
      plan := [];
    } else if x != ToNext && May(ss[0], k, x) {
      plan := PlanFor(ss[0], k, x);
      LeadsOut(plan, k, Rest(ss), Whole(ss[0]), Rest(ss[1..]), x);
    } else {
      var a := PlanFor(ss[0], k, ToNext);
      var b := PlanForAll(ss[1..], k, x);
      plan := a + b;
      LeadsOn(a, b, k, Rest(ss), Whole(ss[0]), Rest(ss[1..]), x);
    }
  }

  lemma {:induction false} PlanForIf(s: Stmt, k: bool, x: Exit) returns (plan: seq<int>)
    requires s.If? && Plain(s) && May(s, k, x)
    ensures Leads(plan, k, Whole(s), x)
    decreases s, 1
  {
    if x != ToNext && MayIfAny(s.init, k, x) {
      plan := PlanForAny(s.init, k, x);
      LeadsOut(plan, k, Whole(s), Perhaps(s.init), Chosen(s), x);
    } else {
      var a := PlanForAny(s.init, k, ToNext);
      var b := PlanForChoose(s, k, x);
      plan := a + b;
      LeadsOn(a, b, k, Whole(s), Perhaps(s.init), Chosen(s), x);
    }
  }

  lemma {:induction false} PlanForChoose(s: Stmt, k: bool, x: Exit) returns (plan: seq<int>)
    requires s.If? && Plain(s) && MayChoose(s, k, x)
    ensures Leads(plan, k, Chosen(s), x)
    decreases s, 0
  {
    var yes := May(s.thn, k, x);
    var branch := if yes then Whole(s.thn) else Perhaps(s.els);
    var b: seq<int>;
    if yes {
      b := PlanFor(s.thn, k, x);
    } else {
      b := PlanForAny(s.els, k, x);
    }
    var a := TestOf(s.v, Some(s.cond), yes);
    plan := a + b;
    forall values: int -> int, n: int, fuel: nat | fuel > 0 && Follows(values, n, plan)
      ensures Ended(Perform(Schedule(values, k), Chosen(s), n, fuel), x, n + |plan|)
    {
      FollowsBoth(values, n, a, b);
      TestFollows(values, k, s.v, Some(s.cond), yes, n);
      assert Ended(Perform(Schedule(values, k), branch, n + |a|, fuel), x, n + |a| + |b|);
    }
  }

  lemma {:induction false} PlanForFor(s: Stmt, k: bool, x: Exit) returns (plan: seq<int>)
    requires s.For? && Plain(s) && May(s, k, x)
    ensures Leads(plan, k, Whole(s), x)
    decreases s, 3
  {
    if x != ToNext && MayIfAny(s.init, k, x) {
      plan := PlanForAny(s.init, k, x);
      LeadsOut(plan, k, Whole(s), Perhaps(s.init), Loop(s), x);
    } else {
      var a := PlanForAny(s.init, k, ToNext);
      var b := PlanForHead(s, k, x);
      plan := a + b;
      LeadsOn(a, b, k, Whole(s), Perhaps(s.init), Loop(s), x);
    }
  }

  lemma {:induction false} PlanForRange(s: Stmt, k: bool, x: Exit) returns (plan: seq<int>)
    requires s.ForRange? && Plain(s) && May(s, k, x)
    ensures Leads(plan, k, Whole(s), x)
    decreases s, 6
  {
    if x != ToNext && MayIfAny(s.init, k, x) {
      plan := PlanForAny(s.init, k, x);
      LeadsOut(plan, k, Whole(s), Perhaps(s.init), All(s), x);
    } else {
      var a := PlanForAny(s.init, k, ToNext);
      var b := PlanForSetUp(s, k, x);
      plan := a + b;
      LeadsOn(a, b, k, Whole(s), Perhaps(s.init), All(s), x);
    }
  }

  lemma {:induction false} PlanForSetUp(s: Stmt, k: bool, x: Exit) returns (plan: seq<int>)
    requires s.ForRange? && Plain(s) && MaySetUp(s, k, x)
    ensures Leads(plan, k, All(s), x)
    decreases s, 5
  {
    if x != ToNext && May(s.range, k, x) {
      plan := PlanFor(s.range, k, x);
      LeadsOut(plan, k, All(s), Whole(s.range), First(s), x);
    } else {
      var a := PlanFor(s.range, k, ToNext);
      var b := PlanForFirst(s, k, x);
      plan := a + b;
      LeadsOn(a, b, k, All(s), Whole(s.range), First(s), x);
    }
  }

  lemma {:induction false} PlanForFirst(s: Stmt, k: bool, x: Exit) returns (plan: seq<int>)
    requires s.ForRange? && Plain(s) && MaySetUpFirst(s, k, x)
    ensures Leads(plan, k, First(s), x)
    decreases s, 4
  {
    if x != ToNext && May(s.first, k, x) {
      plan := PlanFor(s.first, k, x);
      LeadsOut(plan, k, First(s), Whole(s.first), Last(s), x);
    } else {
      var a := PlanFor(s.first, k, ToNext);
      var b := PlanForLast(s, k, x);
      plan := a + b;
      LeadsOn(a, b, k, First(s), Whole(s.first), Last(s), x);
    }
  }

  lemma {:induction false} PlanForLast(s: Stmt, k: bool, x: Exit) returns (plan: seq<int>)
    requires s.ForRange? && Plain(s) && MaySetUpLast(s, k, x)
    ensures Leads(plan, k, Last(s), x)
    decreases s, 3
  {
    if x != ToNext && May(s.last, k, x) {
      plan := PlanFor(s.last, k, x);
      LeadsOut(plan, k, Last(s), Whole(s.last), Loop(s), x);
    } else {
      var a := PlanFor(s.last, k, ToNext);
      var b := PlanForHead(s, k, x);
      plan := a + b;
      LeadsOn(a, b, k, Last(s), Whole(s.last), Loop(s), x);
    }
  }

  lemma {:induction false} PlanForTurn(s: Stmt, k: bool, x: Exit) returns (plan: seq<int>)
    requires IsLoop(s) && Plain(s) && MayTurn(s, k, x)
    ensures Leads(plan, k, OneTurn(s), x)
    decreases s, 0
  {
    if !s.ForRange? {
      plan := PlanFor(s.loop, k, x);
      LeadsAlike(plan, k, OneTurn(s), Whole(s.loop), x);
    } else if x != ToNext && May(s.decl, k, x) {
      plan := PlanFor(s.decl, k, x);
      LeadsOut(plan, k, OneTurn(s), Whole(s.decl), Whole(s.loop), x);
    } else {
      var a := PlanFor(s.decl, k, ToNext);
      var b := PlanFor(s.loop, k, x);
      plan := a + b;
      LeadsOn(a, b, k, OneTurn(s), Whole(s.decl), Whole(s.loop), x);
    }
  }

  lemma {:induction false} PlanForAgain(s: Stmt, k: bool, x: Exit) returns (plan: seq<int>)
    requires IsLoop(s) && Plain(s) && MayAgain(s, k, x)
    ensures Leads(plan, k, Turned(s), x)
    decreases s, 1
  {
    if x == ToReturn {
      plan := PlanForTurn(s, k, ToReturn);
      TurnEnds(s, k, plan, ToReturn);
    } else if MayTurn(s, k, ToBreak) {
      plan := PlanForTurn(s, k, ToBreak);
      TurnEnds(s, k, plan, ToBreak);
    } else {
      var y := if MayTurn(s, k, ToNext) then ToNext else ToContinue;
      var a := PlanForTurn(s, k, y);
      plan := TurnStops(s, k, a, y);
    }
  }

  lemma TurnEnds(s: Stmt, k: bool, plan: seq<int>, x: Exit)
    requires IsLoop(s) && Leads(plan, k, OneTurn(s), x) && (x == ToReturn || x == ToBreak)
    ensures Leads(plan, k, Turned(s), Leaving(x))
  {
    forall values: int -> int, n: int, fuel: nat | fuel > 0 && Follows(values, n, plan)
      ensures Ended(Perform(Schedule(values, k), Turned(s), n, fuel), Leaving(x), n + |plan|)
    {
      assert Ended(Perform(Schedule(values, k), OneTurn(s), n, fuel), x, n + |plan|);
    }
  }

  // After the turn the condition is false.
  lemma TurnStops(s: Stmt, k: bool, a: seq<int>, x: Exit) returns (plan: seq<int>)
    requires IsLoop(s) && Condition(s).Some? && Leads(a, k, OneTurn(s), x) && (x == ToNext || x == ToContinue)
    ensures Leads(plan, k, Turned(s), ToNext)
  {
    var inc, test := StepOf(Increment(s)), TestOf(Variable(s), Condition(s), false);
    plan := a + (inc + test);
    forall values: int -> int, n: int, fuel: nat | fuel > 0 && Follows(values, n, plan)
      ensures Ended(Perform(Schedule(values, k), Turned(s), n, fuel), ToNext, n + |plan|)
    {
      FollowsBoth(values, n, a, inc + test);
      FollowsBoth(values, n + |a|, inc, test);
      assert Ended(Perform(Schedule(values, k), OneTurn(s), n, fuel), x, n + |a|);
      var m, at := Schedule(values, k), n + |a| + |inc|;
      TestFollows(values, k, Variable(s), Condition(s), false, at);
      assert Step(m, Increment(s), n + |a|) == at;
      assert Head(m, s, at, fuel - 1) == Normal(at + |test|);
      assert Perform(m, Turned(s), n, fuel) == Head(m, s, at, fuel - 1);
    }
  }

  lemma {:induction false} PlanForHead(s: Stmt, k: bool, x: Exit) returns (plan: seq<int>)
    requires IsLoop(s) && Plain(s) && MayHead(s, k, x)
    ensures Leads(plan, k, Loop(s), x)
    decreases s, 2
  {
    if x == ToNext && Condition(s).Some? {
      plan := TestOf(Variable(s), Condition(s), false);
      forall values: int -> int, n: int, fuel: nat | fuel > 0 && Follows(values, n, plan)
        ensures Ended(Perform(Schedule(values, k), Loop(s), n, fuel), x, n + |plan|)
      {
        TestFollows(values, k, Variable(s), Condition(s), false, n);
      }
    } else {
      var a := TestOf(Variable(s), Condition(s), true);
      var b := PlanForAgain(s, k, x);
      plan := a + b;
      forall values: int -> int, n: int, fuel: nat | fuel > 0 && Follows(values, n, plan)
        ensures Ended(Perform(Schedule(values, k), Loop(s), n, fuel), x, n + |plan|)
      {
        FollowsBoth(values, n, a, b);
        TestFollows(values, k, Variable(s), Condition(s), true, n);
        assert Ended(Perform(Schedule(values, k), Turned(s), n + |a|, fuel), x, n + |a| + |b|);
      }
    }
  }

  lemma {:induction false} PlanForSwitch(s: Stmt, k: bool, x: Exit) returns (plan: seq<int>)
    requires s.Switch? && Plain(s) && May(s, k, x)
    ensures Leads(plan, k, Whole(s), x)
    decreases s, 1
  {
    if x != ToNext && MayIfAny(s.init, k, x) {
      plan := PlanForAny(s.init, k, x);
      LeadsOut(plan, k, Whole(s), Perhaps(s.init), Selected(s), x);
    } else {
      var a := PlanForAny(s.init, k, ToNext);
      var b := PlanForSelect(s, k, x);
      plan := a + b;
      LeadsOn(a, b, k, Whole(s), Perhaps(s.init), Selected(s), x);
    }
  }

  lemma {:induction false} PlanForSelect(s: Stmt, k: bool, x: Exit) returns (plan: seq<int>)
    requires s.Switch? && Plain(s) && MaySwitch(s, k, x)
    ensures Leads(plan, k, Selected(s), x)
    decreases s, 0
  {
    var ss := s.block.body;
    var v: int, y: Exit :| MayGoTo(ss, v, k, y) && x == Leaving(y);
    var a := StepOf(s.v) + [v];
    var b := PlanForGoTo(ss, v, k, y);
    plan := a + b;
    forall values: int -> int, n: int, fuel: nat | fuel > 0 && Follows(values, n, plan)
      ensures Ended(Perform(Schedule(values, k), Selected(s), n, fuel), x, n + |plan|)
    {
      FollowsBoth(values, n, a, b);
      FollowsBoth(values, n, StepOf(s.v), [v]);
      var at := n + |StepOf(s.v)|;
      assert values(at + 0) == [v][0];
      assert Step(Schedule(values, k), s.v, n) == at;
      Jumps(values, k, ss, v, b, y, n + |a|, fuel);
    }
  }

  // The plan leads from the jump to the exit of the block.
  ghost predicate LeadsFrom(plan: seq<int>, k: bool, ss: seq<Stmt>, v: int, x: Exit) {
    if AnyHas(ss, ToValue(v)) then Leads(plan, k, Entered(ss, ToValue(v)), x)
    else if AnyHas(ss, ToDefault) then Leads(plan, k, Entered(ss, ToDefault), x)
    else plan == [] && x == ToNext
  }

  lemma Jumps(values: int -> int, k: bool, ss: seq<Stmt>, v: int, plan: seq<int>, y: Exit, n: int, fuel: nat)
    requires LeadsFrom(plan, k, ss, v, y) && fuel > 0 && Follows(values, n, plan)
    ensures Ended(GoTo(Schedule(values, k), Compound(ss), v, n, fuel), Leaving(y), n + |plan|)
  {
    var m := Schedule(values, k);
    if AnyHas(ss, ToValue(v)) {
      assert Ended(Perform(m, Entered(ss, ToValue(v)), n, fuel), y, n + |plan|);
      assert Enter(m, Compound(ss), ToValue(v), n, fuel) == EnterAll(m, ss, ToValue(v), n, fuel);
    } else if AnyHas(ss, ToDefault) {
      assert Ended(Perform(m, Entered(ss, ToDefault), n, fuel), y, n + |plan|);
      assert Enter(m, Compound(ss), ToDefault, n, fuel) == EnterAll(m, ss, ToDefault, n, fuel);
    }
  }

  lemma {:induction false} PlanForGoTo(ss: seq<Stmt>, v: int, k: bool, x: Exit) returns (plan: seq<int>)
    requires AllLabeled(ss) && MayGoTo(ss, v, k, x)
    ensures LeadsFrom(plan, k, ss, v, x)
    decreases ss, 2
  {
    if AnyHas(ss, ToValue(v)) {
      plan := PlanForEnter(ss, ToValue(v), k, x);
    } else if AnyHas(ss, ToDefault) {
      plan := PlanForEnter(ss, ToDefault, k, x);
    } else {
      plan := [];
    }
  }

  lemma {:induction false} PlanForEnter(ss: seq<Stmt>, t: Target, k: bool, x: Exit) returns (plan: seq<int>)
    requires AllLabeled(ss) && AnyHas(ss, t) && MayEnter(ss, t, k, x)
    ensures Leads(plan, k, Entered(ss, t), x)
    decreases ss, 1
  {
    if Has(ss[0], t) {
      plan := PlanForAll(ss, k, x);
      forall values: int -> int, n: int, fuel: nat
        ensures Perform(Schedule(values, k), Entered(ss, t), n, fuel) == Perform(Schedule(values, k), Rest(ss), n, fuel)
      {
        EnterIsExec(Schedule(values, k), ss[0], t, n, fuel);
      }
      LeadsAlike(plan, k, Entered(ss, t), Rest(ss), x);
    } else {
      plan := PlanForEnter(ss[1..], t, k, x);
      LeadsAlike(plan, k, Entered(ss, t), Entered(ss[1..], t), x);
    }
  }
}
