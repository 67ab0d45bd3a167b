/**
 * Statement lowering: nested `case` and `default` statements become a flat list of labels and
 * statements, and running the flat list from the matching label is running the nested statement.
 */
module SwitchLowering {
  import opened Printing
  import opened Sequences
  import opened Wrappers

  datatype Label = Exact(v: int) | Range(lo: int, hi: int)

  predicate Matches(l: Label, v: int) {
    match l
    case Exact(w) => v == w
    case Range(lo, hi) => lo <= v <= hi
  }

  // Expressions and declarations are known by their printed terms; v is the variable that a condition
  // declares.
  datatype Stmt =
    | ExprStmt(e: Term)
    | DeclStmt(vars: seq<Option<Term>>)     // None: nothing is printed, as for a type alias
    | Null
    | Break
    | Continue
    | Return(value: Option<Term>)
    | Compound(body: seq<Stmt>)
    | If(init: Option<Stmt>, v: Option<Term>, cond: Term, thn: Stmt, els: Option<Stmt>)
    | IfConsteval(negated: bool, thn: Stmt, els: Option<Stmt>)     // negated: `if !consteval`
    | While(v: Option<Term>, cond: Term, loop: Stmt)
    | Do(loop: Stmt, cond: Term)
    | For(init: Option<Stmt>, v: Option<Term>, test: Option<Term>, inc: Option<Term>, loop: Stmt)
    | ForRange(init: Option<Stmt>, range: Stmt, first: Stmt, last: Stmt, test: Option<Term>, inc: Option<Term>,
               decl: Stmt, loop: Stmt)
    | Switch(init: Option<Stmt>, v: Option<Term>, cond: Term, block: Stmt)
    | Case(l: Label, sub: Stmt)
    | Default(sub: Stmt)

  datatype Lowered =
    | Sexpr(e: Term)
    | Sdecl(vars: seq<Term>)
    | Sskip
    | Sbreak
    | Scontinue
    | Sreturn(value: Option<Term>)
    | Sseq(body: seq<Lowered>)
    | Sif(v: Option<Term>, cond: Term, thn: Lowered, els: Lowered)
    | SifConsteval(thn: Lowered, els: Lowered)
    | Swhile(v: Option<Term>, cond: Term, loop: Lowered)
    | Sdo(loop: Lowered, cond: Term)
    | Sfor(init: Option<Lowered>, test: Option<Term>, inc: Option<Term>, loop: Lowered)
    | Sforeach(range: Lowered, first: Lowered, last: Lowered, init: Option<Lowered>, test: Option<Term>,
               inc: Option<Term>, decl: Lowered, loop: Lowered)
    | Sswitch(v: Option<Term>, cond: Term, block: Lowered)
    | Scase(l: Label)
    | Sdefault

  // ----- Supported statements: labels only at the top level of a compound switch body -----

  // Where a switch may go: to a value, or to the default label.
  datatype Target = ToValue(v: int) | ToDefault

  predicate Plain(s: Stmt)
    decreases s, 0
  {
    match s
    case Compound(ss) => AllPlain(ss)
    case If(i, _, _, x, y) => PlainIfAny(i) && Plain(x) && PlainIfAny(y)
    case IfConsteval(_, x, y) => Plain(x) && PlainIfAny(y)
    case While(_, _, b) => Plain(b)
    case Do(b, _) => Plain(b)
    case For(i, _, _, _, b) => PlainIfAny(i) && Plain(b)
    case ForRange(i, r, x, y, _, _, d, b) => PlainIfAny(i) && Plain(r) && Plain(x) && Plain(y) && Plain(d) && Plain(b)
    case Switch(i, _, _, Compound(ss)) => PlainIfAny(i) && AllLabeled(ss)
    case Switch(_, _, _, _) => false
    case Case(_, _) | Default(_) => false
    case _ => true
  }

  predicate PlainIfAny(s: Option<Stmt>)
    decreases s, 0
  {
    s.None? || Plain(s.value)
  }

  predicate AllPlain(ss: seq<Stmt>)
    decreases ss, 0
  {
    ss == [] || (Plain(ss[0]) && AllPlain(ss[1..]))
  }

  predicate Labeled(s: Stmt)
    decreases s, 1
  {
    match s
    case Case(_, t) => Labeled(t)
    case Default(t) => Labeled(t)
    case _ => Plain(s)
  }

  predicate AllLabeled(ss: seq<Stmt>)
    decreases ss, 0
  {
    ss == [] || (Labeled(ss[0]) && AllLabeled(ss[1..]))
  }

  // Nothing is done or declared at run time.
  predicate Silent(s: Option<Stmt>) {
    match s
    case Some(Null) => true
    case Some(DeclStmt(ds)) => Kept(ds) == []
    case Some(_) => false
    case None => true
  }

  // The printing of some statement inside leaves something out: the variable that the condition of a
  // `for` declares, the initialization of an `if` or `switch`, or the negation of `consteval`.
  predicate Forgets(s: Stmt)
    decreases s, 0
  {
    match s
    case Compound(ss) => AnyForgets(ss)
    case If(i, _, _, x, y) => !Silent(i) || Forgets(x) || ForgetsIfAny(y)
    case IfConsteval(negated, x, y) => negated || Forgets(x) || ForgetsIfAny(y)
    case While(_, _, b) => Forgets(b)
    case Do(b, _) => Forgets(b)
    case For(i, v, _, _, b) => ForgetsIfAny(i) || v.Some? || Forgets(b)
    case ForRange(i, r, x, y, _, _, d, b) =>
      ForgetsIfAny(i) || Forgets(r) || Forgets(x) || Forgets(y) || Forgets(d) || Forgets(b)
    case Switch(i, _, _, b) => !Silent(i) || Forgets(b)
    case Case(_, t) => Forgets(t)
    case Default(t) => Forgets(t)
    case _ => false
  }

  predicate ForgetsIfAny(s: Option<Stmt>)
    decreases s, 0
  {
    s.Some? && Forgets(s.value)
  }

  predicate AnyForgets(ss: seq<Stmt>)
    decreases ss, 0
  {
    ss != [] && (Forgets(ss[0]) || AnyForgets(ss[1..]))
  }

  // ----- Lowering -----

  function Lower(s: Stmt): Lowered
    requires Plain(s)
    decreases s, 0
  {
    match s
    case ExprStmt(e) => Sexpr(e)
    case DeclStmt(ds) => Sdecl(Kept(ds))
    case Null => Sskip
    case Break => Sbreak
    case Continue => Scontinue
    case Return(e) => Sreturn(e)
    case Compound(ss) =>
      PlainIsLabeled(ss);
      Sseq(ItemsAll(ss))
    case If(_, v, c, x, y) => Sif(v, c, Lower(x), LowerElse(y))
    case IfConsteval(_, x, y) => SifConsteval(Lower(x), LowerElse(y))
    case While(v, c, b) => Swhile(v, c, Lower(b))
    case Do(b, c) => Sdo(Lower(b), c)
    case For(i, _, c, n, b) => Sfor(LowerIfAny(i), c, n, Lower(b))
    case ForRange(i, r, x, y, c, n, d, b) =>
      Sforeach(Lower(r), Lower(x), Lower(y), LowerIfAny(i), c, n, Lower(d), Lower(b))
    case Switch(_, v, c, Compound(ss)) => Sswitch(v, c, Sseq(ItemsAll(ss)))
  }

  function LowerIfAny(s: Option<Stmt>): Option<Lowered>
    requires PlainIfAny(s)
    decreases s, 0
  {
    match s
    case None => None
    case Some(x) => Some(Lower(x))
  }

  function LowerElse(s: Option<Stmt>): Lowered
    requires PlainIfAny(s)
    decreases s, 0
  {
    match s
    case None => Sskip
    case Some(x) => Lower(x)
  }

  // What a statement contributes to the list it is printed in.
  function Items(s: Stmt): seq<Lowered>
    requires Labeled(s)
    decreases s, 1
  {
    match s
    case Case(l, t) => [Scase(l)] + Items(t)
    case Default(t) => [Sdefault] + Items(t)
    case _ => [Lower(s)]
  }

  function ItemsAll(ss: seq<Stmt>): seq<Lowered>
    requires AllLabeled(ss)
    decreases ss, 0
  {
    if ss == [] then [] else Items(ss[0]) + ItemsAll(ss[1..])
  }

  lemma {:induction false} PlainIsLabeled(ss: seq<Stmt>)
    requires AllPlain(ss)
    ensures AllLabeled(ss)
  {
    if ss != [] {
      PlainIsLabeled(ss[1..]);
    }
  }

  // ----- Meaning of the nested statements, after [stmt.switch] and [stmt.iter] -----

  // What evaluating an expression, or a declaration, does to the state, and the value of an expression;
  // constant: the statement is evaluated at compile time.
  datatype Machine<!S> = Machine(step: (Term, S) -> S, eval: (Term, S) -> int, constant: bool)

  datatype Outcome<S> =
    | Normal(s: S) | Broke(s: S) | Continued(s: S) | Returned(s: S, value: Option<int>) | OutOfFuel | Unsupported

  function Step<S>(m: Machine<S>, e: Option<Term>, st: S): S {
    if e.Some? then m.step(e.value, st) else st
  }

  function StepAll<S>(m: Machine<S>, es: seq<Term>, st: S): S {
    if es == [] then st else StepAll(m, es[1..], m.step(es[0], st))
  }

  // A condition declares its variable and is evaluated; one that is left out is true.
  function Test<S>(m: Machine<S>, v: Option<Term>, c: Option<Term>, st: S): (bool, S) {
    var declared := Step(m, v, st);
    (c.None? || m.eval(c.value, declared) != 0, Step(m, c, declared))
  }

  function Return_<S>(m: Machine<S>, e: Option<Term>, st: S): Outcome<S> {
    Returned(Step(m, e, st), if e.Some? then Some(m.eval(e.value, st)) else None)
  }

  // A break leaves the switch.
  function AfterSwitch<S>(o: Outcome<S>): Outcome<S> {
    if o.Broke? then Normal(o.s) else o
  }

  predicate At(l: Label, t: Target) {
    t.ToValue? && Matches(l, t.v)
  }

  // The statement holds the label t for the innermost enclosing switch.
  predicate Has(s: Stmt, t: Target) {
    match s
    case Case(l, u) => At(l, t) || Has(u, t)
    case Default(u) => t.ToDefault? || Has(u, t)
    case Compound(ss) => AnyHas(ss, t)
    case If(_, _, _, x, None) => Has(x, t)
    case If(_, _, _, x, Some(y)) => Has(x, t) || Has(y, t)
    case IfConsteval(_, x, None) => Has(x, t)
    case IfConsteval(_, x, Some(y)) => Has(x, t) || Has(y, t)
    case While(_, _, b) => Has(b, t)
    case Do(b, _) => Has(b, t)
    case For(_, _, _, _, b) => Has(b, t)
    case ForRange(_, _, _, _, _, _, _, b) => Has(b, t)
    case _ => false
  }

  predicate AnyHas(ss: seq<Stmt>, t: Target) {
    ss != [] && (Has(ss[0], t) || AnyHas(ss[1..], t))
  }

  predicate IsLoop(s: Stmt) {
    s.While? || s.Do? || s.For? || s.ForRange?
  }

  function Variable(s: Stmt): Option<Term>
    requires IsLoop(s)
  {
    if s.While? || s.For? then s.v else None
  }

  function Condition(s: Stmt): Option<Term>
    requires IsLoop(s)
  {
    if s.While? || s.Do? then Some(s.cond) else s.test
  }

  function Increment(s: Stmt): Option<Term>
    requires IsLoop(s)
  {
    if s.For? || s.ForRange? then s.inc else None
  }

  function Exec<S>(m: Machine<S>, s: Stmt, st: S, fuel: nat): Outcome<S>
    decreases fuel, s, 4
  {
    match s
    case ExprStmt(e) => Normal(m.step(e, st))
    case DeclStmt(ds) => Normal(StepAll(m, Kept(ds), st))
    case Null => Normal(st)
    case Break => Broke(st)
    case Continue => Continued(st)
    case Return(e) => Return_(m, e, st)
    case Compound(ss) => ExecAll(m, ss, st, fuel)
    case If(i, _, _, _, _) =>
      var o := ExecIfAny(m, i, st, fuel);
      if o.Normal? then Choose(m, s, o.s, fuel) else o
    case IfConsteval(negated, x, y) =>
      if m.constant != negated then Exec(m, x, st, fuel) else ExecIfAny(m, y, st, fuel)
    case While(_, _, _) => Head(m, s, st, fuel)
    case Do(_, _) => Again(m, s, Turn(m, s, st, fuel), fuel)
    case For(i, _, _, _, _) =>
      var o := ExecIfAny(m, i, st, fuel);
      if o.Normal? then Head(m, s, o.s, fuel) else o
    case ForRange(i, _, _, _, _, _, _, _) =>
      var o := ExecIfAny(m, i, st, fuel);
      if o.Normal? then SetUp(m, s, o.s, fuel) else o
    case Switch(i, v, c, b) =>
      var o := ExecIfAny(m, i, st, fuel);
      if o.Normal? then
        var declared := Step(m, v, o.s);
        GoTo(m, b, m.eval(c, declared), m.step(c, declared), fuel)
      else o
    case Case(_, u) => Exec(m, u, st, fuel)
    case Default(u) => Exec(m, u, st, fuel)
  }

  // The condition of an `if`, and the branch.
  function Choose<S>(m: Machine<S>, s: Stmt, st: S, fuel: nat): Outcome<S>
    requires s.If?
    decreases fuel, s, 0
  {
    var (yes, st') := Test(m, s.v, Some(s.cond), st);
    if yes then Exec(m, s.thn, st', fuel) else ExecIfAny(m, s.els, st', fuel)
  }

  // To the label of a value, else to the default label, else behind the switch.
  function GoTo<S>(m: Machine<S>, b: Stmt, v: int, st: S, fuel: nat): Outcome<S>
    decreases fuel, b, 5
  {
    if Has(b, ToValue(v)) then AfterSwitch(Enter(m, b, ToValue(v), st, fuel))
    else if Has(b, ToDefault) then AfterSwitch(Enter(m, b, ToDefault, st, fuel))
    else Normal(st)
  }

  function ExecIfAny<S>(m: Machine<S>, s: Option<Stmt>, st: S, fuel: nat): Outcome<S>
    decreases fuel, s, 0
  {
    if s.Some? then Exec(m, s.value, st, fuel) else Normal(st)
  }

  // The range, its first and its last element, and the loop.
  function SetUp<S>(m: Machine<S>, s: Stmt, st: S, fuel: nat): Outcome<S>
    requires s.ForRange?
    decreases fuel, s, 3
  {
    var o1 := Exec(m, s.range, st, fuel);
    var o2 := if o1.Normal? then Exec(m, s.first, o1.s, fuel) else o1;
    var o3 := if o2.Normal? then Exec(m, s.last, o2.s, fuel) else o2;
    if o3.Normal? then Head(m, s, o3.s, fuel) else o3
  }

  // The loop from its condition on.
  function Head<S>(m: Machine<S>, s: Stmt, st: S, fuel: nat): Outcome<S>
    requires IsLoop(s)
    decreases fuel, s, 2
  {
    var (yes, st') := Test(m, Variable(s), Condition(s), st);
    if yes then Again(m, s, Turn(m, s, st', fuel), fuel) else Normal(st')
  }

  // One turn.
  function Turn<S>(m: Machine<S>, s: Stmt, st: S, fuel: nat): Outcome<S>
    requires IsLoop(s)
    decreases fuel, s, 0
  {
    var o := if s.ForRange? then Exec(m, s.decl, st, fuel) else Normal(st);
    if o.Normal? then Exec(m, s.loop, o.s, fuel) else o
  }

  // After one turn.
  function Again<S>(m: Machine<S>, s: Stmt, o: Outcome<S>, fuel: nat): Outcome<S>
    requires IsLoop(s)
    decreases fuel, s, 1
  {
    if o.Normal? || o.Continued? then
      if fuel == 0 then OutOfFuel else Head(m, s, Step(m, Increment(s), o.s), fuel - 1)
    else if o.Broke? then Normal(o.s)
    else o
  }

  function ExecAll<S>(m: Machine<S>, ss: seq<Stmt>, st: S, fuel: nat): Outcome<S>
    decreases fuel, ss, 0
  {
    if ss == [] then Normal(st)
    else
      var o := Exec(m, ss[0], st, fuel);
      if o.Normal? then ExecAll(m, ss[1..], o.s, fuel) else o
  }

  // Run from the label t onwards.
  function Enter<S>(m: Machine<S>, s: Stmt, t: Target, st: S, fuel: nat): Outcome<S>
    requires Has(s, t)
    decreases fuel, s, 3
  {
    match s
    case Case(l, u) => if At(l, t) then Exec(m, u, st, fuel) else Enter(m, u, t, st, fuel)
    case Default(u) => if t.ToDefault? then Exec(m, u, st, fuel) else Enter(m, u, t, st, fuel)
    case Compound(ss) => EnterAll(m, ss, t, st, fuel)
    case If(_, _, _, x, None) => Enter(m, x, t, st, fuel)
    case If(_, _, _, x, Some(y)) => if Has(x, t) then Enter(m, x, t, st, fuel) else Enter(m, y, t, st, fuel)
    case IfConsteval(_, x, None) => Enter(m, x, t, st, fuel)
    case IfConsteval(_, x, Some(y)) => if Has(x, t) then Enter(m, x, t, st, fuel) else Enter(m, y, t, st, fuel)
    case While(_, _, b) => Again(m, s, Enter(m, b, t, st, fuel), fuel)
    case Do(b, _) => Again(m, s, Enter(m, b, t, st, fuel), fuel)
    case For(_, _, _, _, b) => Again(m, s, Enter(m, b, t, st, fuel), fuel)
    case ForRange(_, _, _, _, _, _, _, b) => Again(m, s, Enter(m, b, t, st, fuel), fuel)
  }

  function EnterAll<S>(m: Machine<S>, ss: seq<Stmt>, t: Target, st: S, fuel: nat): Outcome<S>
    requires AnyHas(ss, t)
    decreases fuel, ss, 0
  {
    if Has(ss[0], t) then
      var o := Enter(m, ss[0], t, st, fuel);
      if o.Normal? then ExecAll(m, ss[1..], o.s, fuel) else o
    else EnterAll(m, ss[1..], t, st, fuel)
  }

  // ----- Meaning of the flat statements: the program logic's reading of them -----

  // The label at i is selected by v: a matching case, or the default when no case matches.
  predicate Selects(ls: seq<Lowered>, i: int, t: Target)
    requires 0 <= i < |ls|
  {
    (ls[i].Scase? && At(ls[i].l, t)) || (ls[i].Sdefault? && t.ToDefault?)
  }

  predicate AnySelects(ls: seq<Lowered>, t: Target) {
    exists i :: 0 <= i < |ls| && Selects(ls, i, t)
  }

  // The first selected label.
  function Find(ls: seq<Lowered>, t: Target): (i: nat)
    requires AnySelects(ls, t)
    ensures i < |ls| && Selects(ls, i, t)
  {
    if Selects(ls, 0, t) then 0
    else
      FindTail(ls, t);
      1 + Find(ls[1..], t)
  }

  lemma FindTail(ls: seq<Lowered>, t: Target)
    requires AnySelects(ls, t) && (ls == [] || !Selects(ls, 0, t))
    ensures ls != [] && AnySelects(ls[1..], t)
    ensures forall i :: 0 <= i < |ls| - 1 ==> (Selects(ls[1..], i, t) <==> Selects(ls, i + 1, t))
  {
    var i :| 0 <= i < |ls| && Selects(ls, i, t);
    assert Selects(ls[1..], i - 1, t);
  }

  predicate Loops(l: Lowered) {
    l.Swhile? || l.Sdo? || l.Sfor? || l.Sforeach?
  }

  function VariableOf(l: Lowered): Option<Term>
    requires Loops(l)
  {
    if l.Swhile? then l.v else None
  }

  function ConditionOf(l: Lowered): Option<Term>
    requires Loops(l)
  {
    if l.Swhile? || l.Sdo? then Some(l.cond) else l.test
  }

  function IncrementOf(l: Lowered): Option<Term>
    requires Loops(l)
  {
    if l.Sfor? || l.Sforeach? then l.inc else None
  }

  function Run<S>(m: Machine<S>, l: Lowered, st: S, fuel: nat): Outcome<S>
    decreases fuel, l, 4
  {
    match l
    case Sexpr(e) => Normal(m.step(e, st))
    case Sdecl(ds) => Normal(StepAll(m, ds, st))
    case Sskip => Normal(st)
    case Sbreak => Broke(st)
    case Scontinue => Continued(st)
    case Sreturn(e) => Return_(m, e, st)
    case Sseq(ls) => RunBlock(m, ls, st, fuel)
    case Sif(v, c, x, y) =>
      var (yes, st') := Test(m, v, Some(c), st);
      if yes then Run(m, x, st', fuel) else Run(m, y, st', fuel)
    case SifConsteval(x, y) => if m.constant then Run(m, x, st, fuel) else Run(m, y, st, fuel)
    case Swhile(_, _, _) => RunHead(m, l, st, fuel)
    case Sdo(_, _) => RunAgain(m, l, RunTurn(m, l, st, fuel), fuel)
    case Sfor(i, _, _, _) =>
      var o := RunIfAny(m, i, st, fuel);
      if o.Normal? then RunHead(m, l, o.s, fuel) else o
    case Sforeach(_, _, _, i, _, _, _, _) =>
      var o := RunIfAny(m, i, st, fuel);
      if o.Normal? then RunSetUp(m, l, o.s, fuel) else o
    case Sswitch(v, c, Sseq(ls)) =>
      var declared := Step(m, v, st);
      RunTo(m, ls, m.eval(c, declared), m.step(c, declared), fuel)
    case Sswitch(_, _, _) => Unsupported
    case Scase(_) => Normal(st)
    case Sdefault => Normal(st)
  }

  function RunTo<S>(m: Machine<S>, ls: seq<Lowered>, v: int, st: S, fuel: nat): Outcome<S>
    decreases fuel, ls, 1
  {
    if AnySelects(ls, ToValue(v)) then AfterSwitch(RunBlock(m, ls[Find(ls, ToValue(v)) + 1..], st, fuel))
    else if AnySelects(ls, ToDefault) then AfterSwitch(RunBlock(m, ls[Find(ls, ToDefault) + 1..], st, fuel))
    else Normal(st)
  }

  function RunIfAny<S>(m: Machine<S>, l: Option<Lowered>, st: S, fuel: nat): Outcome<S>
    decreases fuel, l, 0
  {
    if l.Some? then Run(m, l.value, st, fuel) else Normal(st)
  }

  function RunSetUp<S>(m: Machine<S>, l: Lowered, st: S, fuel: nat): Outcome<S>
    requires l.Sforeach?
    decreases fuel, l, 3
  {
    var o1 := Run(m, l.range, st, fuel);
    var o2 := if o1.Normal? then Run(m, l.first, o1.s, fuel) else o1;
    var o3 := if o2.Normal? then Run(m, l.last, o2.s, fuel) else o2;
    if o3.Normal? then RunHead(m, l, o3.s, fuel) else o3
  }

  function RunHead<S>(m: Machine<S>, l: Lowered, st: S, fuel: nat): Outcome<S>
    requires Loops(l)
    decreases fuel, l, 2
  {
    var (yes, st') := Test(m, VariableOf(l), ConditionOf(l), st);
    if yes then RunAgain(m, l, RunTurn(m, l, st', fuel), fuel) else Normal(st')
  }

  function RunTurn<S>(m: Machine<S>, l: Lowered, st: S, fuel: nat): Outcome<S>
    requires Loops(l)
    decreases fuel, l, 0
  {
    var o := if l.Sforeach? then Run(m, l.decl, st, fuel) else Normal(st);
    if o.Normal? then Run(m, l.loop, o.s, fuel) else o
  }

  function RunAgain<S>(m: Machine<S>, l: Lowered, o: Outcome<S>, fuel: nat): Outcome<S>
    requires Loops(l)
    decreases fuel, l, 1
  {
    if o.Normal? || o.Continued? then
      if fuel == 0 then OutOfFuel else RunHead(m, l, Step(m, IncrementOf(l), o.s), fuel - 1)
    else if o.Broke? then Normal(o.s)
    else o
  }

  function RunBlock<S>(m: Machine<S>, ls: seq<Lowered>, st: S, fuel: nat): Outcome<S>
    decreases fuel, ls, 0
  {
    if ls == [] then Normal(st)
    else
      var o := Run(m, ls[0], st, fuel);
      if o.Normal? then RunBlock(m, ls[1..], o.s, fuel) else o
  }

  // Running a, and then b if a ends normally.
  function Then<S>(m: Machine<S>, o: Outcome<S>, ls: seq<Lowered>, fuel: nat): Outcome<S> {
    if o.Normal? then RunBlock(m, ls, o.s, fuel) else o
  }

  lemma {:induction false} RunBlockAppend<S>(m: Machine<S>, a: seq<Lowered>, b: seq<Lowered>, st: S, fuel: nat)
    ensures RunBlock(m, a + b, st, fuel) == Then(m, RunBlock(m, a, st, fuel), b, fuel)
    decreases a
  {
    if a == [] {
      assert a + b == b;
    } else {
      assert (a + b)[1..] == a[1..] + b;
      var o := Run(m, a[0], st, fuel);
      if o.Normal? {
        RunBlockAppend(m, a[1..], b, o.s, fuel);
      }
    }
  }

  // ----- A loop over a range is the `for` that Rocq makes of it -----

  function Initially(i: Option<Lowered>): seq<Lowered> {
    if i.Some? then [i.value] else []
  }

  // The desugared form: the initialization first, and the declaration at the start of every turn.
  function Desugared(l: Lowered): Lowered
    requires l.Sforeach?
  {
    Sseq(Initially(l.init) + [l.range, l.first, l.last, PlainFor(l)])
  }

  function PlainFor(l: Lowered): Lowered
    requires l.Sforeach?
  {
    Sfor(None, l.test, l.inc, Sseq([l.decl, l.loop]))
  }

  lemma RunCons<S>(m: Machine<S>, l: Lowered, ls: seq<Lowered>, st: S, fuel: nat)
    ensures RunBlock(m, [l] + ls, st, fuel) == Then(m, Run(m, l, st, fuel), ls, fuel)
  {
    assert ([l] + ls)[1..] == ls;
  }

  lemma RunPair<S>(m: Machine<S>, a: Lowered, b: Lowered, st: S, fuel: nat)
    ensures RunBlock(m, [a, b], st, fuel) == Then(m, Run(m, a, st, fuel), [b], fuel)
    ensures RunBlock(m, [b], st, fuel) == Run(m, b, st, fuel)
  {
    assert [a, b] == [a] + [b] && [b] == [b] + [];
    RunCons(m, a, [b], st, fuel);
    RunCons(m, b, [], st, fuel);
  }

  lemma {:induction false} RangeTurns<S>(m: Machine<S>, l: Lowered, st: S, fuel: nat)
    requires l.Sforeach?
    ensures RunHead(m, l, st, fuel) == RunHead(m, PlainFor(l), st, fuel)
    decreases fuel
  {
    var (yes, st') := Test(m, None, l.test, st);
    if yes {
      RangeTurn(m, l, st', fuel);
      var o := RunTurn(m, l, st', fuel);
      if fuel > 0 && (o.Normal? || o.Continued?) {
        RangeTurns(m, l, Step(m, l.inc, o.s), fuel - 1);
      }
    }
  }

  lemma RangeTurn<S>(m: Machine<S>, l: Lowered, st: S, fuel: nat)
    requires l.Sforeach?
    ensures RunTurn(m, l, st, fuel) == RunTurn(m, PlainFor(l), st, fuel)
  {
    RunPair(m, l.decl, l.loop, st, fuel);
    var o := Run(m, l.decl, st, fuel);
    if o.Normal? {
      RunPair(m, l.decl, l.loop, o.s, fuel);
    }
  }

  lemma RangeForIsFor<S>(m: Machine<S>, l: Lowered, st: S, fuel: nat)
    requires l.Sforeach?
    ensures Run(m, l, st, fuel) == Run(m, Desugared(l), st, fuel)
  {
    var o := RunIfAny(m, l.init, st, fuel);
    var rest := [l.range, l.first, l.last, PlainFor(l)];
    if l.init.Some? {
      RunCons(m, l.init.value, rest, st, fuel);
    } else {
      assert Initially(l.init) + rest == rest;
    }
    if o.Normal? {
      RangeSetUp(m, l, o.s, fuel);
    }
  }

  lemma RangeSetUp<S>(m: Machine<S>, l: Lowered, st: S, fuel: nat)
    requires l.Sforeach?
    ensures RunBlock(m, [l.range, l.first, l.last, PlainFor(l)], st, fuel) == RunSetUp(m, l, st, fuel)
  {
    assert [l.range, l.first, l.last, PlainFor(l)] == [l.range] + [l.first, l.last, PlainFor(l)];
    RunCons(m, l.range, [l.first, l.last, PlainFor(l)], st, fuel);
    var o1 := Run(m, l.range, st, fuel);
    if o1.Normal? {
      assert [l.first, l.last, PlainFor(l)] == [l.first] + [l.last, PlainFor(l)];
      RunCons(m, l.first, [l.last, PlainFor(l)], o1.s, fuel);
      var o2 := Run(m, l.first, o1.s, fuel);
      if o2.Normal? {
        RunPair(m, l.last, PlainFor(l), o2.s, fuel);
        var o3 := Run(m, l.last, o2.s, fuel);
        if o3.Normal? {
          RunPair(m, l.last, PlainFor(l), o3.s, fuel);
          RangeTurns(m, l, o3.s, fuel);
        }
      }
    }
  }

  // ----- Lowering preserves meaning -----

  // Every statement has the meaning of its lowering, for any state and any number of loop turns.
  lemma {:induction false} LowerPreserves<S>(m: Machine<S>, s: Stmt, st: S, fuel: nat)
    requires Plain(s) && !Forgets(s)
    ensures Run(m, Lower(s), st, fuel) == Exec(m, s, st, fuel)
    decreases fuel, s, 3
  {
    match s
    case Compound(ss) =>
      PlainIsLabeled(ss);
      ItemsPreserve(m, ss, st, fuel);
    case If(i, v, c, x, y) =>
      SilentSteps(m, i, st, fuel);
      var st' := Test(m, v, Some(c), st).1;
      LowerPreserves(m, x, st', fuel);
      ElsePreserves(m, y, st', fuel);
    case IfConsteval(_, x, y) =>
      LowerPreserves(m, x, st, fuel);
      ElsePreserves(m, y, st, fuel);
    case While(_, _, _) => HeadPreserves(m, s, st, fuel);
    case Do(_, _) =>
      TurnPreserves(m, s, st, fuel);
      AgainPreserves(m, s, Turn(m, s, st, fuel), fuel);
    case For(i, _, _, _, _) =>
      LowerIfAnyPreserves(m, i, st, fuel);
      var o := ExecIfAny(m, i, st, fuel);
      if o.Normal? {
        HeadPreserves(m, s, o.s, fuel);
      }
    case ForRange(i, _, _, _, _, _, _, _) =>
      LowerIfAnyPreserves(m, i, st, fuel);
      var o := ExecIfAny(m, i, st, fuel);
      if o.Normal? {
        SetUpPreserves(m, s, o.s, fuel);
      }
    case Switch(i, v, c, Compound(ss)) => SwitchPreserves(m, i, v, c, ss, st, fuel);
    case _ =>
  }

  lemma SilentSteps<S>(m: Machine<S>, s: Option<Stmt>, st: S, fuel: nat)
    requires Silent(s)
    ensures ExecIfAny(m, s, st, fuel) == Normal(st)
  {
  }

  lemma {:induction false} LowerIfAnyPreserves<S>(m: Machine<S>, s: Option<Stmt>, st: S, fuel: nat)
    requires PlainIfAny(s) && !ForgetsIfAny(s)
    ensures RunIfAny(m, LowerIfAny(s), st, fuel) == ExecIfAny(m, s, st, fuel)
    decreases fuel, s, 0
  {
    if s.Some? {
      LowerPreserves(m, s.value, st, fuel);
    }
  }

  lemma {:induction false} ElsePreserves<S>(m: Machine<S>, s: Option<Stmt>, st: S, fuel: nat)
    requires PlainIfAny(s) && !ForgetsIfAny(s)
    ensures Run(m, LowerElse(s), st, fuel) == ExecIfAny(m, s, st, fuel)
    decreases fuel, s, 0
  {
    if s.Some? {
      LowerPreserves(m, s.value, st, fuel);
    }
  }

  lemma {:induction false} SetUpPreserves<S>(m: Machine<S>, s: Stmt, st: S, fuel: nat)
    requires s.ForRange? && Plain(s) && !Forgets(s)
    ensures RunSetUp(m, Lower(s), st, fuel) == SetUp(m, s, st, fuel)
    decreases fuel, s, 2
  {
    LowerPreserves(m, s.range, st, fuel);
    var o1 := Exec(m, s.range, st, fuel);
    if o1.Normal? {
      LowerPreserves(m, s.first, o1.s, fuel);
      var o2 := Exec(m, s.first, o1.s, fuel);
      if o2.Normal? {
        LowerPreserves(m, s.last, o2.s, fuel);
        var o3 := Exec(m, s.last, o2.s, fuel);
        if o3.Normal? {
          HeadPreserves(m, s, o3.s, fuel);
        }
      }
    }
  }

  lemma {:induction false} HeadPreserves<S>(m: Machine<S>, s: Stmt, st: S, fuel: nat)
    requires IsLoop(s) && Plain(s) && !Forgets(s)
    ensures RunHead(m, Lower(s), st, fuel) == Head(m, s, st, fuel)
    decreases fuel, s, 1
  {
    var st' := Test(m, Variable(s), Condition(s), st).1;
    TurnPreserves(m, s, st', fuel);
    AgainPreserves(m, s, Turn(m, s, st', fuel), fuel);
  }

  lemma {:induction false} TurnPreserves<S>(m: Machine<S>, s: Stmt, st: S, fuel: nat)
    requires IsLoop(s) && Plain(s) && !Forgets(s)
    ensures RunTurn(m, Lower(s), st, fuel) == Turn(m, s, st, fuel)
    decreases fuel, s, 0
  {
    if s.ForRange? {
      LowerPreserves(m, s.decl, st, fuel);
      var o := Exec(m, s.decl, st, fuel);
      if o.Normal? {
        LowerPreserves(m, s.loop, o.s, fuel);
      }
    } else {
      LowerPreserves(m, s.loop, st, fuel);
    }
  }

  lemma {:induction false} AgainPreserves<S>(m: Machine<S>, s: Stmt, o: Outcome<S>, fuel: nat)
    requires IsLoop(s) && Plain(s) && !Forgets(s)
    ensures RunAgain(m, Lower(s), o, fuel) == Again(m, s, o, fuel)
    decreases fuel, s, 0
  {
    if fuel > 0 && (o.Normal? || o.Continued?) {
      HeadPreserves(m, s, Step(m, Increment(s), o.s), fuel - 1);
    }
  }

  // The labels of a list change nothing when it is run from the start.
  lemma {:induction false} ItemPreserves<S>(m: Machine<S>, s: Stmt, st: S, fuel: nat)
    requires Labeled(s) && !Forgets(s)
    ensures RunBlock(m, Items(s), st, fuel) == Exec(m, s, st, fuel)
    decreases fuel, s, 4
  {
    match s
    case Case(l, u) =>
      ItemPreserves(m, u, st, fuel);
      assert ([Scase(l)] + Items(u))[1..] == Items(u);
    case Default(u) =>
      ItemPreserves(m, u, st, fuel);
      assert ([Sdefault] + Items(u))[1..] == Items(u);
    case _ => LowerPreserves(m, s, st, fuel);
  }

  lemma {:induction false} ItemsPreserve<S>(m: Machine<S>, ss: seq<Stmt>, st: S, fuel: nat)
    requires AllLabeled(ss) && !AnyForgets(ss)
    ensures RunBlock(m, ItemsAll(ss), st, fuel) == ExecAll(m, ss, st, fuel)
    decreases fuel, ss, 0
  {
    if ss != [] {
      RunBlockAppend(m, Items(ss[0]), ItemsAll(ss[1..]), st, fuel);
      ItemPreserves(m, ss[0], st, fuel);
      var o := Exec(m, ss[0], st, fuel);
      if o.Normal? {
        ItemsPreserve(m, ss[1..], o.s, fuel);
      }
    }
  }

  // Supported statements without a label of their own hold none.
  lemma {:induction false} PlainHasNone(s: Stmt, t: Target)
    requires Plain(s)
    ensures !Has(s, t)
    decreases s
  {
    match s
    case Compound(ss) => AllPlainHaveNone(ss, t);
    case If(_, _, _, x, None) => PlainHasNone(x, t);
    case If(_, _, _, x, Some(y)) =>
      PlainHasNone(x, t);
      PlainHasNone(y, t);
    case IfConsteval(_, x, None) => PlainHasNone(x, t);
    case IfConsteval(_, x, Some(y)) =>
      PlainHasNone(x, t);
      PlainHasNone(y, t);
    case While(_, _, b) => PlainHasNone(b, t);
    case Do(b, _) => PlainHasNone(b, t);
    case For(_, _, _, _, b) => PlainHasNone(b, t);
    case ForRange(_, _, _, _, _, _, _, b) => PlainHasNone(b, t);
    case _ =>
  }

  lemma {:induction false} AllPlainHaveNone(ss: seq<Stmt>, t: Target)
    requires AllPlain(ss)
    ensures !AnyHas(ss, t)
    decreases ss
  {
    if ss != [] {
      PlainHasNone(ss[0], t);
      AllPlainHaveNone(ss[1..], t);
    }
  }

  // Jumping to the first selected label of a list and running on ends as o.
  ghost predicate Jumps<S>(m: Machine<S>, ls: seq<Lowered>, t: Target, st: S, fuel: nat, o: Outcome<S>) {
    AnySelects(ls, t) && RunBlock(m, ls[Find(ls, t) + 1..], st, fuel) == o
  }

  // Jumping to any selected label of a statement's items and running on is entering the statement at
  // its label; whether there is one is the same question. The rest of the list follows.
  lemma {:induction false} ItemEnters<S>(m: Machine<S>, s: Stmt, t: Target, rest: seq<Lowered>, st: S, fuel: nat)
    requires Labeled(s) && !Forgets(s)
    ensures AnySelects(Items(s), t) <==> Has(s, t)
    ensures Has(s, t) ==>
              Jumps(m, Items(s) + rest, t, st, fuel, Then(m, Enter(m, s, t, st, fuel), rest, fuel))
    decreases fuel, s, 5
  {
    match s
    case Case(l, u) => HeadEnters(m, Scase(l), u, t, rest, st, fuel);
    case Default(u) => HeadEnters(m, Sdefault, u, t, rest, st, fuel);
    case _ => PlainHasNone(s, t);
  }

  lemma {:induction false} HeadEnters<S>(m: Machine<S>, h: Lowered, u: Stmt, t: Target, rest: seq<Lowered>, st: S,
                                         fuel: nat)
    requires Labeled(u) && !Forgets(u) && (h.Scase? || h.Sdefault?)
    ensures var ls := [h] + Items(u); AnySelects(ls, t) <==> Selects([h], 0, t) || Has(u, t)
    ensures Selects([h], 0, t) ==>
              Jumps(m, [h] + Items(u) + rest, t, st, fuel, Then(m, Exec(m, u, st, fuel), rest, fuel))
    ensures !Selects([h], 0, t) && Has(u, t) ==>
              Jumps(m, [h] + Items(u) + rest, t, st, fuel, Then(m, Enter(m, u, t, st, fuel), rest, fuel))
    decreases fuel, u, 6
  {
    ItemEnters(m, u, t, rest, st, fuel);
    ConsSelects(h, Items(u), t);
    if Selects([h], 0, t) {
      HeadSelected(m, h, u, t, rest, st, fuel);
    } else if Has(u, t) {
      SkipHead(m, h, Items(u), rest, t, st, fuel, Then(m, Enter(m, u, t, st, fuel), rest, fuel));
    }
  }

  lemma {:induction false} HeadSelected<S>(m: Machine<S>, h: Lowered, u: Stmt, t: Target, rest: seq<Lowered>, st: S,
                                           fuel: nat)
    requires Labeled(u) && !Forgets(u) && Selects([h], 0, t)
    ensures Jumps(m, [h] + Items(u) + rest, t, st, fuel, Then(m, Exec(m, u, st, fuel), rest, fuel))
    decreases fuel, u, 5
  {
    var us := Items(u);
    var ls := [h] + us + rest;
    assert ls[1..] == us + rest;
    assert Selects(ls, 0, t);
    RunBlockAppend(m, us, rest, st, fuel);
    ItemPreserves(m, u, st, fuel);
  }

  // A label that is not selected is skipped over.
  lemma SkipHead<S>(m: Machine<S>, h: Lowered, us: seq<Lowered>, rest: seq<Lowered>, t: Target, st: S, fuel: nat,
                    o: Outcome<S>)
    requires !Selects([h], 0, t) && Jumps(m, us + rest, t, st, fuel, o)
    ensures Jumps(m, [h] + us + rest, t, st, fuel, o)
  {
    var tail, ls := us + rest, [h] + us + rest;
    Assoc([h], us, rest);
    ConsSelects(h, tail, t);
    var k := Find(tail, t);
    assert ls[k + 2..] == tail[k + 1..];
  }

  lemma ConsSelects(h: Lowered, ls: seq<Lowered>, t: Target)
    ensures AnySelects([h] + ls, t) <==> Selects([h], 0, t) || AnySelects(ls, t)
    ensures !Selects([h], 0, t) && AnySelects(ls, t) ==> Find([h] + ls, t) == 1 + Find(ls, t)
  {
    var cs := [h] + ls;
    assert cs[1..] == ls;
    assert forall i :: 0 <= i < |ls| ==> (Selects(cs, i + 1, t) <==> Selects(ls, i, t));
    assert Selects(cs, 0, t) <==> Selects([h], 0, t);
    if AnySelects(cs, t) {
      var i :| 0 <= i < |cs| && Selects(cs, i, t);
      assert i > 0 ==> Selects(ls, i - 1, t);
    }
  }

  lemma {:induction false} AppendSelects(a: seq<Lowered>, b: seq<Lowered>, t: Target)
    ensures AnySelects(a + b, t) <==> AnySelects(a, t) || AnySelects(b, t)
    ensures !AnySelects(a, t) && AnySelects(b, t) ==> Find(a + b, t) == |a| + Find(b, t)
    decreases a
  {
    if a == [] {
      assert a + b == b;
    } else {
      AppendSelects(a[1..], b, t);
      assert a == [a[0]] + a[1..] && a + b == [a[0]] + (a[1..] + b);
      ConsSelects(a[0], a[1..], t);
      ConsSelects(a[0], a[1..] + b, t);
    }
  }

  lemma {:induction false} ItemsEnter<S>(m: Machine<S>, ss: seq<Stmt>, t: Target, st: S, fuel: nat)
    requires AllLabeled(ss) && !AnyForgets(ss)
    ensures var ls := ItemsAll(ss);
            && (AnySelects(ls, t) <==> AnyHas(ss, t))
            && (AnyHas(ss, t) ==> Jumps(m, ls, t, st, fuel, EnterAll(m, ss, t, st, fuel)))
    decreases fuel, ss, 2
  {
    if ss != [] {
      ItemsSelect(m, ss, t, st, fuel);
      if Has(ss[0], t) {
        FirstItemEnters(m, ss, t, st, fuel);
      } else if AnyHas(ss[1..], t) {
        LaterItemEnters(m, ss, t, st, fuel);
      }
    }
  }

  // A label is selected in the first item or in the others.
  lemma {:induction false} ItemsSelect<S>(m: Machine<S>, ss: seq<Stmt>, t: Target, st: S, fuel: nat)
    requires ss != [] && AllLabeled(ss) && !AnyForgets(ss)
    ensures AnySelects(ItemsAll(ss), t) <==> AnyHas(ss, t)
    decreases fuel, ss, 0
  {
    AppendSelects(Items(ss[0]), ItemsAll(ss[1..]), t);
    ItemEnters(m, ss[0], t, ItemsAll(ss[1..]), st, fuel);
    ItemsEnter(m, ss[1..], t, st, fuel);
  }

  lemma {:induction false} FirstItemEnters<S>(m: Machine<S>, ss: seq<Stmt>, t: Target, st: S, fuel: nat)
    requires ss != [] && AllLabeled(ss) && !AnyForgets(ss) && Has(ss[0], t)
    ensures Jumps(m, ItemsAll(ss), t, st, fuel, EnterAll(m, ss, t, st, fuel))
    decreases fuel, ss, 1
  {
    ItemEnters(m, ss[0], t, ItemsAll(ss[1..]), st, fuel);
    ItemEntersFirst(m, ss, t, st, fuel);
  }

  lemma {:induction false} LaterItemEnters<S>(m: Machine<S>, ss: seq<Stmt>, t: Target, st: S, fuel: nat)
    requires ss != [] && AllLabeled(ss) && !AnyForgets(ss) && !Has(ss[0], t) && AnyHas(ss[1..], t)
    ensures Jumps(m, ItemsAll(ss), t, st, fuel, EnterAll(m, ss, t, st, fuel))
    decreases fuel, ss, 1
  {
    ItemsEnter(m, ss[1..], t, st, fuel);
    ItemEnters(m, ss[0], t, ItemsAll(ss[1..]), st, fuel);
    SkipItems(m, Items(ss[0]), ItemsAll(ss[1..]), t, st, fuel);
  }

  lemma SkipItems<S>(m: Machine<S>, head: seq<Lowered>, rest: seq<Lowered>, t: Target, st: S, fuel: nat)
    requires !AnySelects(head, t) && AnySelects(rest, t)
    ensures Jumps(m, head + rest, t, st, fuel, RunBlock(m, rest[Find(rest, t) + 1..], st, fuel))
  {
    AppendSelects(head, rest, t);
    assert (head + rest)[|head| + Find(rest, t) + 1..] == rest[Find(rest, t) + 1..];
  }

  // The label is in the first item: the run goes on with the others.
  lemma {:induction false} ItemEntersFirst<S>(m: Machine<S>, ss: seq<Stmt>, t: Target, st: S, fuel: nat)
    requires ss != [] && AllLabeled(ss) && !AnyForgets(ss) && Has(ss[0], t)
    ensures Then(m, Enter(m, ss[0], t, st, fuel), ItemsAll(ss[1..]), fuel) == EnterAll(m, ss, t, st, fuel)
    decreases fuel, ss, 0
  {
    var o := Enter(m, ss[0], t, st, fuel);
    if o.Normal? {
      ItemsPreserve(m, ss[1..], o.s, fuel);
    }
  }

  // The switch itself: jump to the matching label, else the default, and fall through until a break.
  lemma {:induction false} SwitchPreserves<S>(m: Machine<S>, i: Option<Stmt>, v: Option<Term>, c: Term,
                                              ss: seq<Stmt>, st: S, fuel: nat)
    requires PlainIfAny(i) && AllLabeled(ss) && !AnyForgets(ss) && Silent(i)
    ensures var s := Switch(i, v, c, Compound(ss)); Run(m, Lower(s), st, fuel) == Exec(m, s, st, fuel)
    decreases fuel, ss, 4
  {
    SilentSteps(m, i, st, fuel);
    var declared := Step(m, v, st);
    JumpPreserves(m, ss, m.eval(c, declared), m.step(c, declared), fuel);
  }

  lemma {:induction false} JumpPreserves<S>(m: Machine<S>, ss: seq<Stmt>, v: int, st: S, fuel: nat)
    requires AllLabeled(ss) && !AnyForgets(ss)
    ensures RunTo(m, ItemsAll(ss), v, st, fuel) == GoTo(m, Compound(ss), v, st, fuel)
    decreases fuel, ss, 3
  {
    ItemsEnter(m, ss, ToValue(v), st, fuel);
    ItemsEnter(m, ss, ToDefault, st, fuel);
  }

  // ----- Any selected label, not only the first -----

  // [stmt.switch]: no value is matched twice, and there is one default at most.
  ghost predicate Disjoint(ls: seq<Lowered>) {
    && (forall i, j, v :: 0 <= i < j < |ls| && ls[i].Scase? && ls[j].Scase? && Matches(ls[i].l, v) ==>
          !Matches(ls[j].l, v))
    && (forall i, j :: 0 <= i < j < |ls| && ls[i].Sdefault? ==> !ls[j].Sdefault?)
  }

  // The program logic asks the run from every selected label; with disjoint labels each of them is the
  // run of the nested statement.
  lemma EverySelectedLabel<S>(m: Machine<S>, ss: seq<Stmt>, t: Target, st: S, fuel: nat, i: nat)
    requires AllLabeled(ss) && !AnyForgets(ss) && Disjoint(ItemsAll(ss))
    requires i < |ItemsAll(ss)| && Selects(ItemsAll(ss), i, t)
    ensures AnyHas(ss, t) && RunBlock(m, ItemsAll(ss)[i + 1..], st, fuel) == EnterAll(m, ss, t, st, fuel)
  {
    var ls := ItemsAll(ss);
    ItemsEnter(m, ss, t, st, fuel);
    var k := Find(ls, t);
    assert Selects(ls, k, t);
    if t.ToValue? {
      assert Matches(ls[i].l, t.v) && Matches(ls[k].l, t.v);
    }
    assert k == i;
  }

  // ----- Small programs, told step by step -----

  lemma HasInThree(ss: seq<Stmt>, t: Target)
    requires |ss| == 3
    ensures AnyHas(ss[2..], t) <==> Has(ss[2], t)
    ensures AnyHas(ss[1..], t) <==> Has(ss[1], t) || Has(ss[2], t)
    ensures AnyHas(ss, t) <==> Has(ss[0], t) || Has(ss[1], t) || Has(ss[2], t)
  {
    assert ss[1..][1..] == ss[2..] && ss[2..][1..] == [] && !AnyHas([], t);
    assert AnyHas(ss[2..], t) <==> Has(ss[2..][0], t) || AnyHas(ss[2..][1..], t);
    assert AnyHas(ss[1..], t) <==> Has(ss[1..][0], t) || AnyHas(ss[1..][1..], t);
  }

  function RangeBlock(lo: int, hi: int, a: Term, b: Term): seq<Stmt> {
    [Case(Range(lo, hi), ExprStmt(a)), Break, Default(ExprStmt(b))]
  }

  lemma RangeHit<S>(m: Machine<S>, lo: int, hi: int, a: Term, b: Term, v: int, st: S, fuel: nat)
    requires lo <= v <= hi
    ensures GoTo(m, Compound(RangeBlock(lo, hi, a, b)), v, st, fuel) == Normal(m.step(a, st))
  {
    var ss := RangeBlock(lo, hi, a, b);
    HasInThree(ss, ToValue(v));
    assert Exec(m, ExprStmt(a), st, fuel) == Normal(m.step(a, st));
    assert Enter(m, ss[0], ToValue(v), st, fuel) == Normal(m.step(a, st));
    assert ExecAll(m, ss[1..], m.step(a, st), fuel) == Broke(m.step(a, st));
    assert EnterAll(m, ss, ToValue(v), st, fuel) == Broke(m.step(a, st));
    assert Enter(m, Compound(ss), ToValue(v), st, fuel) == Broke(m.step(a, st));
  }

  lemma RangeMissed<S>(m: Machine<S>, lo: int, hi: int, a: Term, b: Term, v: int, st: S, fuel: nat)
    requires !(lo <= v <= hi)
    ensures GoTo(m, Compound(RangeBlock(lo, hi, a, b)), v, st, fuel) == Normal(m.step(b, st))
  {
    var ss := RangeBlock(lo, hi, a, b);
    HasInThree(ss, ToValue(v));
    HasInThree(ss, ToDefault);
    assert !Has(ExprStmt(a), ToValue(v)) && !Has(ExprStmt(a), ToDefault) && !Has(ExprStmt(b), ToValue(v));
    assert ss[1..][1..] == ss[2..] && ss[2..][1..] == [];
    assert Exec(m, ExprStmt(b), st, fuel) == Normal(m.step(b, st));
    assert Enter(m, ss[2], ToDefault, st, fuel) == Normal(m.step(b, st));
    assert EnterAll(m, ss[2..], ToDefault, st, fuel) == Normal(m.step(b, st));
    assert EnterAll(m, ss[1..], ToDefault, st, fuel) == EnterAll(m, ss[2..], ToDefault, st, fuel);
    assert EnterAll(m, ss, ToDefault, st, fuel) == EnterAll(m, ss[1..], ToDefault, st, fuel);
    assert !Has(Compound(ss), ToValue(v)) && Has(Compound(ss), ToDefault);
    assert Enter(m, Compound(ss), ToDefault, st, fuel) == Normal(m.step(b, st));
  }

  // `switch (c) { case lo ... hi: a; break; default: b; }` runs a for the values of the range, and b for
  // the others.
  lemma RangeSwitch<S>(m: Machine<S>, c: Term, lo: int, hi: int, a: Term, b: Term, st: S, fuel: nat)
    ensures var block := Compound([Case(Range(lo, hi), ExprStmt(a)), Break, Default(ExprStmt(b))]);
            Exec(m, Switch(None, None, c, block), st, fuel)
            == Normal(m.step(if lo <= m.eval(c, st) <= hi then a else b, m.step(c, st)))
  {
    var block, v, st' := Compound(RangeBlock(lo, hi, a, b)), m.eval(c, st), m.step(c, st);
    assert ExecIfAny(m, None, st, fuel) == Normal(st);
    assert Exec(m, Switch(None, None, c, block), st, fuel) == GoTo(m, block, v, st', fuel);
    if lo <= v <= hi {
      RangeHit(m, lo, hi, a, b, v, st', fuel);
    } else {
      RangeMissed(m, lo, hi, a, b, v, st', fuel);
    }
  }

  // `if (v; c) a else b` declares v, evaluates c and takes the branch of its value.
  lemma IfBranches<S>(m: Machine<S>, v: Term, c: Term, a: Stmt, b: Stmt, st: S, fuel: nat)
    ensures var st1 := m.step(v, st);
            Exec(m, If(None, Some(v), c, a, Some(b)), st, fuel)
            == Exec(m, if m.eval(c, st1) != 0 then a else b, m.step(c, st1), fuel)
  {
    var s := If(None, Some(v), c, a, Some(b));
    assert ExecIfAny(m, None, st, fuel) == Normal(st);
    assert Exec(m, s, st, fuel) == Choose(m, s, st, fuel);
    assert ExecIfAny(m, Some(b), m.step(c, m.step(v, st)), fuel) == Exec(m, b, m.step(c, m.step(v, st)), fuel);
  }

  // `for (; c; n) a` runs a and n as long as c holds.
  lemma ForUnrolls<S>(m: Machine<S>, c: Term, n: Term, a: Term, st: S, fuel: nat)
    ensures var loop := For(None, None, Some(c), Some(n), ExprStmt(a));
            var st' := m.step(c, st);
            Exec(m, loop, st, fuel)
            == if m.eval(c, st) == 0 then Normal(st')
               else if fuel == 0 then OutOfFuel
               else Exec(m, loop, m.step(n, m.step(a, st')), fuel - 1)
  {
    var s := For(None, None, Some(c), Some(n), ExprStmt(a));
    var st' := m.step(c, st);
    assert ExecIfAny(m, None, st, fuel) == Normal(st) && Exec(m, s, st, fuel) == Head(m, s, st, fuel);
    assert Turn(m, s, st', fuel) == Exec(m, ExprStmt(a), st', fuel) == Normal(m.step(a, st'));
    if m.eval(c, st) == 0 {
      assert Head(m, s, st, fuel) == Normal(st');
    } else {
      var next := m.step(n, m.step(a, st'));
      assert Head(m, s, st, fuel) == Again(m, s, Normal(m.step(a, st')), fuel);
      if fuel != 0 {
        assert Again(m, s, Normal(m.step(a, st')), fuel) == Head(m, s, next, fuel - 1);
        assert ExecIfAny(m, None, next, fuel - 1) == Normal(next);
        assert Exec(m, s, next, fuel - 1) == Head(m, s, next, fuel - 1);
      }
    }
  }

  // `while (v; c) a` declares v for every test; a break ends it, and a returned value leaves it.
  lemma WhileUnrolls<S>(m: Machine<S>, v: Term, c: Term, a: Stmt, st: S, fuel: nat)
    ensures var st1 := m.step(v, st);
            var loop := While(Some(v), c, a);
            var o := Exec(m, a, m.step(c, st1), fuel);
            Exec(m, loop, st, fuel)
            == if m.eval(c, st1) == 0 then Normal(m.step(c, st1))
               else if o.Broke? then Normal(o.s)
               else if !o.Normal? && !o.Continued? then o
               else if fuel == 0 then OutOfFuel
               else Exec(m, loop, o.s, fuel - 1)
  {
    var s, st1 := While(Some(v), c, a), m.step(v, st);
    var st' := m.step(c, st1);
    var o := Exec(m, a, st', fuel);
    assert Exec(m, s, st, fuel) == Head(m, s, st, fuel) && Turn(m, s, st', fuel) == o;
    if m.eval(c, st1) != 0 {
      assert Head(m, s, st, fuel) == Again(m, s, o, fuel);
      if (o.Normal? || o.Continued?) && fuel != 0 {
        assert Again(m, s, o, fuel) == Head(m, s, o.s, fuel - 1) == Exec(m, s, o.s, fuel - 1);
      }
    }
  }
}
