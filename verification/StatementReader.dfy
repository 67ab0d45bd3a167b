/** Reading statements back from terms: what is printed is the lowering, and runs as the statement does. */
module StatementReading {
  import Formatting
  import opened Printing
  import opened Reading
  import opened SwitchLowering
  import opened SwitchPrinting
  import opened Wrappers

  // ----- From terms to lowered statements -----

  predicate InZ(t: Term) {
    t.Num? && t.scope == "Z"
  }

  function LabelFrom(t: Term): Option<Label> {
    match t
    case Ctor(head, args, _) =>
      if |args| == 1 && head == "Exact" && InZ(args[0].t) then Some(Exact(args[0].t.v))
      else if |args| == 2 && head == "Range" && InZ(args[0].t) && InZ(args[1].t)
      then Some(Range(args[0].t.v, args[1].t.v))
      else None
    case _ => None
  }

  function OptFrom(t: Term): Option<Option<Term>> {
    match t
    case Ident(x) => if x == "None" then Some(None) else None
    case Ctor(head, args, _) => if |args| == 1 && head == "Some" then Some(Some(args[0].t)) else None
    case _ => None
  }

  function LoweredFrom(t: Term): Option<Lowered>
    decreases t, 1
  {
    match t
    case Ident(x) => WordFrom(x)
    case Ctor(head, args, _) =>
      if |args| == 1 then OneFrom(head, args[0].t)
      else if |args| == 2 then TwoFrom(head, args[1].t, LoweredFrom(args[0].t), LoweredFrom(args[1].t))
      else if |args| == 3 then
        ThreeFrom(head, OptFrom(args[0].t), args[1].t, LoweredFrom(args[2].t))
      else if |args| == 4 && head == "Sif" then
        IfFrom(OptFrom(args[0].t), args[1].t, LoweredFrom(args[2].t), LoweredFrom(args[3].t))
      else if |args| == 4 && head == "Sfor" then
        ForFrom(SomeFrom(args[0].t), OptFrom(args[1].t), OptFrom(args[2].t), LoweredFrom(args[3].t))
      else if |args| == 8 && head == "Sforeach" then
        ForEachFrom(LoweredFrom(args[0].t), LoweredFrom(args[1].t), LoweredFrom(args[2].t), SomeFrom(args[3].t),
                    OptFrom(args[4].t), OptFrom(args[5].t), LoweredFrom(args[6].t), LoweredFrom(args[7].t))
      else None
    case _ => None
  }

  function WordFrom(x: string): Option<Lowered> {
    if x == "Sskip" then Some(Sskip)
    else if x == "Sbreak" then Some(Sbreak)
    else if x == "Scontinue" then Some(Scontinue)
    else if x == "Sreturn_void" then Some(Sreturn(None))
    else if x == "Sdefault" then Some(Sdefault)
    else None
  }

  function OneFrom(head: string, x: Term): Option<Lowered>
    decreases x, 0
  {
    if head == "Sexpr" then Some(Sexpr(x))
    else if head == "Sreturn_val" then Some(Sreturn(Some(x)))
    else if head == "Scase" && LabelFrom(x).Some? then Some(Scase(LabelFrom(x).value))
    else
      match x
      case Seq(es, _) =>
        if head == "Sdecl" then Some(Sdecl(es))
        else if head == "Sseq" && AllFrom(es).Some? then Some(Sseq(AllFrom(es).value))
        else None
      case _ => None
  }

  function TwoFrom(head: string, c: Term, x: Option<Lowered>, y: Option<Lowered>): Option<Lowered> {
    if head == "Sif_consteval" && x.Some? && y.Some? then Some(SifConsteval(x.value, y.value))
    else if head == "Sdo" && x.Some? then Some(Sdo(x.value, c))
    else None
  }

  function ThreeFrom(head: string, v: Option<Option<Term>>, c: Term, b: Option<Lowered>): Option<Lowered> {
    if v.None? || b.None? then None
    else if head == "Swhile" then Some(Swhile(v.value, c, b.value))
    else if head == "Sswitch" then Some(Sswitch(v.value, c, b.value))
    else None
  }

  function IfFrom(v: Option<Option<Term>>, c: Term, x: Option<Lowered>, y: Option<Lowered>): Option<Lowered> {
    if v.Some? && x.Some? && y.Some? then Some(Sif(v.value, c, x.value, y.value)) else None
  }

  function ForFrom(i: Option<Option<Lowered>>, c: Option<Option<Term>>, n: Option<Option<Term>>,
                   b: Option<Lowered>): Option<Lowered> {
    if i.Some? && c.Some? && n.Some? && b.Some? then Some(Sfor(i.value, c.value, n.value, b.value)) else None
  }

  function ForEachFrom(r: Option<Lowered>, x: Option<Lowered>, y: Option<Lowered>, i: Option<Option<Lowered>>,
                       c: Option<Option<Term>>, n: Option<Option<Term>>, d: Option<Lowered>,
                       b: Option<Lowered>): Option<Lowered> {
    if r.Some? && x.Some? && y.Some? && i.Some? && c.Some? && n.Some? && d.Some? && b.Some?
    then Some(Sforeach(r.value, x.value, y.value, i.value, c.value, n.value, d.value, b.value))
    else None
  }

  function SomeFrom(t: Term): Option<Option<Lowered>>
    decreases t, 0
  {
    match t
    case Ident(x) => if x == "None" then Some(None) else None
    case Ctor(head, args, _) =>
      if |args| == 1 && head == "Some" then
        match LoweredFrom(args[0].t)
        case Some(l) => Some(Some(l))
        case None => None
      else None
    case _ => None
  }

  function AllFrom(ts: seq<Term>): Option<seq<Lowered>>
    decreases ts
  {
    if ts == [] then Some([])
    else
      match (LoweredFrom(ts[0]), AllFrom(ts[1..]))
      case (Some(l), Some(ls)) => Some([l] + ls)
      case _ => None
  }

  // ----- Expressions without their layout -----

  function BareOpt(e: Option<Term>): Option<Term> {
    match e
    case None => None
    case Some(x) => Some(Erase(x))
  }

  // The lowered statement, each expression without its layout.
  function Bare(l: Lowered): Lowered
    decreases l, 1
  {
    match l
    case Sexpr(e) => Sexpr(Erase(e))
    case Sdecl(ds) => Sdecl(EraseAll(ds))
    case Sreturn(e) => Sreturn(BareOpt(e))
    case Sseq(ls) => Sseq(BareAll(ls))
    case Sif(v, c, x, y) => Sif(BareOpt(v), Erase(c), Bare(x), Bare(y))
    case SifConsteval(x, y) => SifConsteval(Bare(x), Bare(y))
    case Swhile(v, c, b) => Swhile(BareOpt(v), Erase(c), Bare(b))
    case Sdo(b, c) => Sdo(Bare(b), Erase(c))
    case Sfor(i, c, n, b) => Sfor(BareIfAny(i), BareOpt(c), BareOpt(n), Bare(b))
    case Sforeach(r, x, y, i, c, n, d, b) =>
      Sforeach(Bare(r), Bare(x), Bare(y), BareIfAny(i), BareOpt(c), BareOpt(n), Bare(d), Bare(b))
    case Sswitch(v, c, b) => Sswitch(BareOpt(v), Erase(c), Bare(b))
    case Sskip | Sbreak | Scontinue | Scase(_) | Sdefault => l
  }

  function BareIfAny(l: Option<Lowered>): Option<Lowered>
    decreases l, 0
  {
    match l
    case None => None
    case Some(x) => Some(Bare(x))
  }

  function BareAll(ls: seq<Lowered>): (r: seq<Lowered>)
    ensures |r| == |ls| && forall i :: 0 <= i < |ls| ==> r[i] == Bare(ls[i])
    decreases ls, 0
  {
    if ls == [] then [] else [Bare(ls[0])] + BareAll(ls[1..])
  }

  // ----- Reading inverts printing -----

  lemma OneArg(a: Arg)
    ensures EraseArgs([a]) == [EraseArg(a)]
  {
    assert [a][1..] == [];
  }

  lemma ConsArg(a: Arg, args: seq<Arg>)
    ensures EraseArgs([a] + args) == [EraseArg(a)] + EraseArgs(args)
  {
    assert ([a] + args)[1..] == args;
  }

  lemma TwoArgs(a: Arg, b: Arg)
    ensures EraseArgs([a, b]) == [EraseArg(a), EraseArg(b)]
  {
    assert [a, b] == [a] + [b];
    ConsArg(a, [b]);
    OneArg(b);
  }

  lemma ThreeArgs(a: Arg, b: Arg, c: Arg)
    ensures EraseArgs([a, b, c]) == [EraseArg(a), EraseArg(b), EraseArg(c)]
  {
    assert [a, b, c] == [a] + [b, c];
    ConsArg(a, [b, c]);
    TwoArgs(b, c);
  }

  lemma FourArgs(a: Arg, b: Arg, c: Arg, d: Arg)
    ensures EraseArgs([a, b, c, d]) == [EraseArg(a), EraseArg(b), EraseArg(c), EraseArg(d)]
  {
    assert [a, b, c, d] == [a] + [b, c, d];
    ConsArg(a, [b, c, d]);
    ThreeArgs(b, c, d);
  }

  lemma AppendArgs(a: seq<Arg>, b: seq<Arg>)
    ensures EraseArgs(a + b) == EraseArgs(a) + EraseArgs(b)
  {
    if a == [] {
      assert a + b == b;
    } else {
      assert (a + b)[1..] == a[1..] + b;
      AppendArgs(a[1..], b);
    }
  }

  lemma LabelReads(l: Label)
    ensures LabelFrom(Erase(LabelTerm(l))) == Some(l)
  {
    match l
    case Exact(v) => OneArg(Arg(false, Num(v, "Z")));
    case Range(lo, hi) => TwoArgs(Arg(false, Num(lo, "Z")), Arg(true, Num(hi, "Z")));
  }

  lemma OptReads(e: Option<Term>)
    ensures OptFrom(Erase(OptTerm(e))) == Some(BareOpt(e))
  {
    if e.Some? {
      OneArg(Arg(false, e.value));
    }
  }

  // Reading what is printed for a lowered statement gives it back, up to the layout of expressions.
  lemma {:induction false} TermReads(l: Lowered)
    ensures LoweredFrom(Erase(ToTerm(l))) == Some(Bare(l))
    decreases l, 2
  {
    match l
    case Sexpr(_) | Sdecl(_) | Sreturn(Some(_)) | Scase(_) => LeafReads(l);
    case Sskip | Sbreak | Scontinue | Sdefault | Sreturn(None) => WordReads(l);
    case Sseq(ls) =>
      TermsRead(ls);
      OneArg(Arg(false, Seq(ToTerms(ls), false)));
    case Sif(_, _, _, _) => IfReads(l);
    case SifConsteval(x, y) =>
      TermReads(x);
      TermReads(y);
      TwoArgs(Arg(false, ToTerm(x)), Arg(true, ToTerm(y)));
    case Swhile(_, _, b) =>
      TermReads(b);
      WhileReads(l);
    case Sswitch(_, _, b) =>
      TermReads(b);
      SwitchReads(l);
    case Sdo(b, c) =>
      TermReads(b);
      TwoArgs(Arg(false, ToTerm(b)), Arg(true, c));
    case Sfor(_, _, _, _) => ForReads(l);
    case Sforeach(_, _, _, _, _, _, _, _) => ForEachReads(l);
  }

  lemma WordReads(l: Lowered)
    requires l.Sskip? || l.Sbreak? || l.Scontinue? || l.Sdefault? || l == Sreturn(None)
    ensures LoweredFrom(Erase(ToTerm(l))) == Some(Bare(l))
  {
  }

  lemma LeafReads(l: Lowered)
    requires l.Sexpr? || l.Sdecl? || l.Scase? || (l.Sreturn? && l.value.Some?)
    ensures LoweredFrom(Erase(ToTerm(l))) == Some(Bare(l))
  {
    match l
    case Sexpr(e) => OneArg(Arg(false, e));
    case Sdecl(ds) => OneArg(Arg(false, Seq(ds, false)));
    case Sreturn(Some(e)) => OneArg(Arg(false, e));
    case Scase(k) =>
      LabelReads(k);
      OneArg(Arg(false, LabelTerm(k)));
  }

  lemma WhileReads(l: Lowered)
    requires l.Swhile? && LoweredFrom(Erase(ToTerm(l.loop))) == Some(Bare(l.loop))
    ensures LoweredFrom(Erase(ToTerm(l))) == Some(Bare(l))
  {
    OptReads(l.v);
    ThreeArgs(Arg(false, OptTerm(l.v)), Arg(true, l.cond), Arg(true, ToTerm(l.loop)));
  }

  lemma SwitchReads(l: Lowered)
    requires l.Sswitch? && LoweredFrom(Erase(ToTerm(l.block))) == Some(Bare(l.block))
    ensures LoweredFrom(Erase(ToTerm(l))) == Some(Bare(l))
  {
    OptReads(l.v);
    ThreeArgs(Arg(false, OptTerm(l.v)), Arg(false, l.cond), Arg(false, ToTerm(l.block)));
  }

  lemma {:induction false} IfReads(l: Lowered)
    requires l.Sif?
    ensures LoweredFrom(Erase(ToTerm(l))) == Some(Bare(l))
    decreases l, 1
  {
    var Sif(v, c, x, y) := l;
    OptReads(v);
    TermReads(x);
    TermReads(y);
    FourArgs(Arg(false, OptTerm(v)), Arg(true, c), Arg(true, ToTerm(x)), Arg(true, ToTerm(y)));
  }

  lemma {:induction false} ForReads(l: Lowered)
    requires l.Sfor?
    ensures LoweredFrom(Erase(ToTerm(l))) == Some(Bare(l))
    decreases l, 1
  {
    var Sfor(i, c, n, b) := l;
    SomeReads(i);
    OptReads(c);
    OptReads(n);
    TermReads(b);
    FourArgs(Arg(false, SomeTerm(i)), Arg(true, OptTerm(c)), Arg(true, OptTerm(n)), Arg(true, ToTerm(b)));
  }

  lemma {:induction false} ForEachReads(l: Lowered)
    requires l.Sforeach?
    ensures LoweredFrom(Erase(ToTerm(l))) == Some(Bare(l))
    decreases l, 1
  {
    ForEachParts(l);
    var args := ForEachTerm(l);
    ForEachArgs(args);
  }

  lemma ForEachTerm(l: Lowered) returns (args: seq<Arg>)
    requires l.Sforeach?
    ensures Erase(ToTerm(l)) == Ctor("Sforeach", args, true) && |args| == 8
    ensures args[0].t == Erase(ToTerm(l.range)) && args[1].t == Erase(ToTerm(l.first))
    ensures args[2].t == Erase(ToTerm(l.last)) && args[3].t == Erase(SomeTerm(l.init))
    ensures args[4].t == Erase(OptTerm(l.test)) && args[5].t == Erase(OptTerm(l.inc))
    ensures args[6].t == Erase(ToTerm(l.decl)) && args[7].t == Erase(ToTerm(l.loop))
  {
    var Sforeach(r, x, y, i, c, n, d, b) := l;
    var printed := [Arg(false, ToTerm(r)), Arg(true, ToTerm(x)), Arg(true, ToTerm(y)), Arg(true, SomeTerm(i)),
                    Arg(true, OptTerm(c)), Arg(true, OptTerm(n)), Arg(true, ToTerm(d)), Arg(true, ToTerm(b))];
    EightArgs(printed[0], printed[1], printed[2], printed[3], printed[4], printed[5], printed[6], printed[7]);
    args := EraseArgs(printed);
  }

  lemma ForEachArgs(args: seq<Arg>)
    requires |args| == 8
    ensures LoweredFrom(Ctor("Sforeach", args, true))
            == ForEachFrom(LoweredFrom(args[0].t), LoweredFrom(args[1].t), LoweredFrom(args[2].t), SomeFrom(args[3].t),
                           OptFrom(args[4].t), OptFrom(args[5].t), LoweredFrom(args[6].t), LoweredFrom(args[7].t))
  {
  }

  lemma {:induction false} ForEachParts(l: Lowered)
    requires l.Sforeach?
    ensures LoweredFrom(Erase(ToTerm(l.range))) == Some(Bare(l.range))
    ensures LoweredFrom(Erase(ToTerm(l.first))) == Some(Bare(l.first))
    ensures LoweredFrom(Erase(ToTerm(l.last))) == Some(Bare(l.last))
    ensures LoweredFrom(Erase(ToTerm(l.decl))) == Some(Bare(l.decl))
    ensures LoweredFrom(Erase(ToTerm(l.loop))) == Some(Bare(l.loop))
    ensures SomeFrom(Erase(SomeTerm(l.init))) == Some(BareIfAny(l.init))
    ensures OptFrom(Erase(OptTerm(l.test))) == Some(BareOpt(l.test))
    ensures OptFrom(Erase(OptTerm(l.inc))) == Some(BareOpt(l.inc))
    decreases l, 0
  {
    TermReads(l.range);
    TermReads(l.first);
    TermReads(l.last);
    TermReads(l.decl);
    TermReads(l.loop);
    SomeReads(l.init);
    OptReads(l.test);
    OptReads(l.inc);
  }

  lemma EightArgs(a: Arg, b: Arg, c: Arg, d: Arg, e: Arg, f: Arg, g: Arg, h: Arg)
    ensures EraseArgs([a, b, c, d, e, f, g, h])
            == [EraseArg(a), EraseArg(b), EraseArg(c), EraseArg(d), EraseArg(e), EraseArg(f), EraseArg(g), EraseArg(h)]
  {
    assert [a, b, c, d, e, f, g, h] == [a, b, c, d] + [e, f, g, h];
    AppendArgs([a, b, c, d], [e, f, g, h]);
    FourArgs(a, b, c, d);
    FourArgs(e, f, g, h);
  }

  lemma {:induction false} SomeReads(l: Option<Lowered>)
    ensures SomeFrom(Erase(SomeTerm(l))) == Some(BareIfAny(l))
    decreases l, 0
  {
    if l.Some? {
      TermReads(l.value);
      OneArg(Arg(false, ToTerm(l.value)));
    }
  }

  lemma {:induction false} TermsRead(ls: seq<Lowered>)
    ensures AllFrom(EraseAll(ToTerms(ls))) == Some(BareAll(ls))
    decreases ls, 0
  {
    if ls != [] {
      TermReads(ls[0]);
      TermsRead(ls[1..]);
      var ts := EraseAll(ToTerms(ls));
      assert ToTerms(ls)[1..] == ToTerms(ls[1..]);
      assert ts[0] == Erase(ToTerm(ls[0])) && ts[1..] == EraseAll(ToTerms(ls[1..]));
    }
  }

  // ----- Running what was read -----

  // The machine that does not see layout.
  function Blind<S>(m: Machine<S>): Machine<S> {
    Machine((e, st) => m.step(Erase(e), st), (e, st) => m.eval(Erase(e), st), m.constant)
  }

  lemma StepBare<S>(m: Machine<S>, e: Option<Term>, st: S)
    ensures Step(m, BareOpt(e), st) == Step(Blind(m), e, st)
  {
  }

  lemma TestBare<S>(m: Machine<S>, v: Option<Term>, c: Option<Term>, st: S)
    ensures Test(m, BareOpt(v), BareOpt(c), st) == Test(Blind(m), v, c, st)
  {
  }

  lemma {:induction false} StepAllBare<S>(m: Machine<S>, es: seq<Term>, st: S)
    ensures StepAll(m, EraseAll(es), st) == StepAll(Blind(m), es, st)
    decreases es
  {
    if es != [] {
      StepAllBare(m, es[1..], m.step(Erase(es[0]), st));
      assert EraseAll(es)[1..] == EraseAll(es[1..]);
    }
  }

  lemma LabelBare(l: Lowered)
    ensures Bare(l).Sdefault? <==> l.Sdefault?
    ensures Bare(l).Scase? <==> l.Scase?
    ensures l.Scase? ==> Bare(l) == l
  {
  }

  lemma SelectsBare(ls: seq<Lowered>, t: Target)
    ensures forall i :: 0 <= i < |ls| ==> (Selects(BareAll(ls), i, t) <==> Selects(ls, i, t))
  {
    forall i | 0 <= i < |ls| ensures Selects(BareAll(ls), i, t) <==> Selects(ls, i, t) {
      LabelBare(ls[i]);
    }
  }

  lemma AnySelectsBare(ls: seq<Lowered>, t: Target)
    ensures AnySelects(BareAll(ls), t) <==> AnySelects(ls, t)
  {
    SelectsBare(ls, t);
    if AnySelects(ls, t) {
      var i :| 0 <= i < |ls| && Selects(ls, i, t);
      assert Selects(BareAll(ls), i, t);
    }
  }

  lemma {:induction false} FindBare(ls: seq<Lowered>, t: Target)
    requires AnySelects(ls, t)
    ensures AnySelects(BareAll(ls), t) && Find(BareAll(ls), t) == Find(ls, t)
    decreases ls
  {
    SelectsBare(ls, t);
    AnySelectsBare(ls, t);
    if !Selects(ls, 0, t) {
      FindTail(ls, t);
      FindBare(ls[1..], t);
      assert BareAll(ls)[1..] == BareAll(ls[1..]);
    }
  }

  // A lowered statement without the layout of its expressions runs as on a blind machine.
  lemma {:induction false} RunBare<S>(m: Machine<S>, l: Lowered, st: S, fuel: nat)
    ensures Run(m, Bare(l), st, fuel) == Run(Blind(m), l, st, fuel)
    decreases fuel, l, 4
  {
    match l
    case Sdecl(ds) => StepAllBare(m, ds, st);
    case Sseq(ls) => RunBlockBare(m, ls, st, fuel);
    case Sif(v, c, x, y) =>
      TestBare(m, v, Some(c), st);
      var st' := Test(Blind(m), v, Some(c), st).1;
      RunBare(m, x, st', fuel);
      RunBare(m, y, st', fuel);
    case SifConsteval(x, y) =>
      RunBare(m, x, st, fuel);
      RunBare(m, y, st, fuel);
    case Swhile(_, _, _) => RunHeadBare(m, l, st, fuel);
    case Sdo(_, _) =>
      RunTurnBare(m, l, st, fuel);
      RunAgainBare(m, l, RunTurn(Blind(m), l, st, fuel), fuel);
    case Sfor(i, _, _, _) =>
      RunIfAnyBare(m, i, st, fuel);
      var o := RunIfAny(Blind(m), i, st, fuel);
      if o.Normal? {
        RunHeadBare(m, l, o.s, fuel);
      }
    case Sforeach(_, _, _, i, _, _, _, _) =>
      RunIfAnyBare(m, i, st, fuel);
      var o := RunIfAny(Blind(m), i, st, fuel);
      if o.Normal? {
        RunSetUpBare(m, l, o.s, fuel);
      }
    case Sswitch(v, c, b) =>
      StepBare(m, v, st);
      if b.Sseq? {
        var declared := Step(Blind(m), v, st);
        RunToBare(m, b.body, m.eval(Erase(c), declared), m.step(Erase(c), declared), fuel);
      }
    case _ =>
  }

  // The run from behind the first label that t selects.
  function RunFrom<S>(m: Machine<S>, ls: seq<Lowered>, t: Target, st: S, fuel: nat): Outcome<S>
    requires AnySelects(ls, t)
  {
    RunBlock(m, ls[Find(ls, t) + 1..], st, fuel)
  }

  lemma RunToIs<S>(m: Machine<S>, ls: seq<Lowered>, v: int, st: S, fuel: nat)
    ensures RunTo(m, ls, v, st, fuel)
            == if AnySelects(ls, ToValue(v)) then AfterSwitch(RunFrom(m, ls, ToValue(v), st, fuel))
               else if AnySelects(ls, ToDefault) then AfterSwitch(RunFrom(m, ls, ToDefault, st, fuel))
               else Normal(st)
  {
  }

  lemma {:induction false} RunToBare<S>(m: Machine<S>, ls: seq<Lowered>, v: int, st: S, fuel: nat)
    ensures RunTo(m, BareAll(ls), v, st, fuel) == RunTo(Blind(m), ls, v, st, fuel)
    decreases fuel, ls, 2
  {
    AnySelectsBare(ls, ToValue(v));
    AnySelectsBare(ls, ToDefault);
    RunToIs(m, BareAll(ls), v, st, fuel);
    RunToIs(Blind(m), ls, v, st, fuel);
    if AnySelects(ls, ToValue(v)) {
      RunFromBare(m, ls, ToValue(v), st, fuel);
    } else if AnySelects(ls, ToDefault) {
      RunFromBare(m, ls, ToDefault, st, fuel);
    }
  }

  lemma BareTail(ls: seq<Lowered>, i: nat)
    requires i <= |ls|
    ensures BareAll(ls)[i..] == BareAll(ls[i..])
  {
  }

  lemma {:induction false} RunBehindBare<S>(m: Machine<S>, ls: seq<Lowered>, i: nat, st: S, fuel: nat)
    requires 0 < i <= |ls|
    ensures RunBlock(m, BareAll(ls)[i..], st, fuel) == RunBlock(Blind(m), ls[i..], st, fuel)
    decreases fuel, ls, 0
  {
    BareTail(ls, i);
    RunBlockBare(m, ls[i..], st, fuel);
  }

  lemma RunFromIs<S>(m: Machine<S>, ls: seq<Lowered>, t: Target, i: nat, st: S, fuel: nat)
    requires AnySelects(ls, t) && i == Find(ls, t)
    ensures RunFrom(m, ls, t, st, fuel) == RunBlock(m, ls[i + 1..], st, fuel)
  {
  }

  lemma {:induction false} RunFromBare<S>(m: Machine<S>, ls: seq<Lowered>, t: Target, st: S, fuel: nat)
    requires AnySelects(ls, t) && AnySelects(BareAll(ls), t)
    ensures RunFrom(m, BareAll(ls), t, st, fuel) == RunFrom(Blind(m), ls, t, st, fuel)
    decreases fuel, ls, 1
  {
    var i := Find(ls, t);
    FindBare(ls, t);
    RunBehindBare(m, ls, i + 1, st, fuel);
    RunFromIs(m, BareAll(ls), t, i, st, fuel);
    RunFromIs(Blind(m), ls, t, i, st, fuel);
  }

  lemma {:induction false} RunIfAnyBare<S>(m: Machine<S>, l: Option<Lowered>, st: S, fuel: nat)
    ensures RunIfAny(m, BareIfAny(l), st, fuel) == RunIfAny(Blind(m), l, st, fuel)
    decreases fuel, l, 0
  {
    if l.Some? {
      RunBare(m, l.value, st, fuel);
    }
  }

  lemma {:induction false} RunSetUpBare<S>(m: Machine<S>, l: Lowered, st: S, fuel: nat)
    requires l.Sforeach?
    ensures RunSetUp(m, Bare(l), st, fuel) == RunSetUp(Blind(m), l, st, fuel)
    decreases fuel, l, 3
  {
    var b := Blind(m);
    RunBare(m, l.range, st, fuel);
    var o1 := Run(b, l.range, st, fuel);
    if o1.Normal? {
      RunBare(m, l.first, o1.s, fuel);
    }
    var o2 := if o1.Normal? then Run(b, l.first, o1.s, fuel) else o1;
    if o2.Normal? {
      RunBare(m, l.last, o2.s, fuel);
    }
    var o3 := if o2.Normal? then Run(b, l.last, o2.s, fuel) else o2;
    if o3.Normal? {
      RunHeadBare(m, l, o3.s, fuel);
    }
  }

  lemma LoopBare(l: Lowered)
    requires Loops(l)
    ensures Loops(Bare(l)) && VariableOf(Bare(l)) == BareOpt(VariableOf(l))
    ensures ConditionOf(Bare(l)) == BareOpt(ConditionOf(l)) && IncrementOf(Bare(l)) == BareOpt(IncrementOf(l))
  {
  }

  lemma {:induction false} RunHeadBare<S>(m: Machine<S>, l: Lowered, st: S, fuel: nat)
    requires Loops(l)
    ensures Loops(Bare(l)) && RunHead(m, Bare(l), st, fuel) == RunHead(Blind(m), l, st, fuel)
    decreases fuel, l, 2
  {
    LoopBare(l);
    TestBare(m, VariableOf(l), ConditionOf(l), st);
    var (yes, st') := Test(Blind(m), VariableOf(l), ConditionOf(l), st);
    if yes {
      RunTurnBare(m, l, st', fuel);
      RunAgainBare(m, l, RunTurn(Blind(m), l, st', fuel), fuel);
    }
  }

  lemma {:induction false} RunTurnBare<S>(m: Machine<S>, l: Lowered, st: S, fuel: nat)
    requires Loops(l)
    ensures Loops(Bare(l)) && RunTurn(m, Bare(l), st, fuel) == RunTurn(Blind(m), l, st, fuel)
    decreases fuel, l, 0
  {
    LoopBare(l);
    if l.Sforeach? {
      RunBare(m, l.decl, st, fuel);
    }
    var o := if l.Sforeach? then Run(Blind(m), l.decl, st, fuel) else Normal(st);
    if o.Normal? {
      RunBare(m, l.loop, o.s, fuel);
    }
  }

  lemma {:induction false} RunAgainBare<S>(m: Machine<S>, l: Lowered, o: Outcome<S>, fuel: nat)
    requires Loops(l)
    ensures Loops(Bare(l)) && RunAgain(m, Bare(l), o, fuel) == RunAgain(Blind(m), l, o, fuel)
    decreases fuel, l, 1
  {
    LoopBare(l);
    if (o.Normal? || o.Continued?) && fuel != 0 {
      StepBare(m, IncrementOf(l), o.s);
      RunHeadBare(m, l, Step(Blind(m), IncrementOf(l), o.s), fuel - 1);
    }
  }

  lemma {:induction false} RunBlockBare<S>(m: Machine<S>, ls: seq<Lowered>, st: S, fuel: nat)
    ensures RunBlock(m, BareAll(ls), st, fuel) == RunBlock(Blind(m), ls, st, fuel)
    decreases fuel, ls, 0
  {
    if ls != [] {
      RunBare(m, ls[0], st, fuel);
      var o := Run(Blind(m), ls[0], st, fuel);
      if o.Normal? {
        RunBlockBare(m, ls[1..], o.s, fuel);
      }
      assert BareAll(ls)[1..] == BareAll(ls[1..]);
    }
  }

  // ----- The main results -----

  // The characters that a supported statement prints, read back as a statement, are its lowering ...
  lemma PrintedIsTheLowering(s: Stmt, st: Formatting.State) returns (t: Term)
    requires Plain(s) && Wf(ToTerm(Lower(s)))
    ensures Formatting.Run(Emit(s), st).out == st.out + Characters(ToTerm(Lower(s)), st)
    ensures Read(Characters(ToTerm(Lower(s)), st)) == Done(t, [])
    ensures LoweredFrom(t) == Some(Bare(Lower(s)))
  {
    StatementReadsBack(s, st);
    TermReads(Lower(s));
    t := Erase(ToTerm(Lower(s)));
  }

  // ... and running what was read back has the outcome of the statement, for every machine.
  lemma PrintedRunsAsWritten<S>(m: Machine<S>, s: Stmt, at: Formatting.State, st: S, fuel: nat)
      returns (l: Lowered, t: Term)
    requires Plain(s) && !Forgets(s) && Wf(ToTerm(Lower(s)))
    ensures Formatting.Run(Emit(s), at).out == at.out + Characters(ToTerm(Lower(s)), at)
    ensures Read(Characters(ToTerm(Lower(s)), at)) == Done(t, []) && LoweredFrom(t) == Some(l)
    ensures Run(m, l, st, fuel) == Exec(Blind(m), s, st, fuel)
  {
    t := PrintedIsTheLowering(s, at);
    l := Bare(Lower(s));
    RunBare(m, Lower(s), st, fuel);
    LowerPreserves(Blind(m), s, st, fuel);
  }
}
