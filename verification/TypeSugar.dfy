/** Types as written, with their sugar, and how they print. */
module TypeSugar {
  import opened Formatting
  import opened Printing
  import opened Reading
  import opened Sequences
  import opened Wrappers

  datatype Quals = Quals(isConst: bool, isVolatile: bool) {
    function Union(other: Quals): Quals {
      Quals(isConst || other.isConst, isVolatile || other.isVolatile)
    }

    predicate Empty() {
      !isConst && !isVolatile
    }
  }

  function Unqualified(): Quals {
    Quals(false, false)
  }

  datatype QualType = QualType(local: Quals, ty: Type)

  // Most sugar has one type inside. A typedef has its own and that of its first declaration, which is
  // printed; an attributed type the modified one, which is printed, and the equivalent one; a
  // macro-qualified type its underlying one and the modified one, which is printed.
  datatype Type =
    | Builtin(name: string)
    | Pointer(pointee: QualType)
    | ConstantArray(element: QualType, size: nat)
    | IncompleteArray(element: QualType)
    | Paren(inner: QualType)
    | Elaborated(named: QualType)
    | Substituted(replacement: QualType)
    | Using(used: QualType)
    | TemplateAlias(aliased: QualType)
    | Decltype(desugared: QualType)
    | TypeOfExpr(desugared: QualType)
    | Typedef(first: QualType, own: QualType)
    | Attributed(modified: QualType, equivalent: QualType)
    | MacroQualified(modified: QualType, underlying: QualType)

  predicate IsSugar(ty: Type) {
    !ty.Builtin? && !ty.Pointer? && !ty.ConstantArray? && !ty.IncompleteArray?
  }

  // What the visitor of a sugar type prints, and what the type stands for.
  function Shown(ty: Type): (q: QualType)
    requires IsSugar(ty)
    ensures q < ty
  {
    match ty
    case Paren(q) => q
    case Elaborated(q) => q
    case Substituted(q) => q
    case Using(q) => q
    case TemplateAlias(q) => q
    case Decltype(q) => q
    case TypeOfExpr(q) => q
    case Typedef(q, _) => q
    case Attributed(q, _) => q
    case MacroQualified(q, _) => q
  }

  function Meant(ty: Type): (q: QualType)
    requires IsSugar(ty)
    ensures q < ty
  {
    if ty.Typedef? then ty.own
    else if ty.Attributed? then ty.equivalent
    else if ty.MacroQualified? then ty.underlying
    else Shown(ty)
  }

  // ----- Canonical types: no sugar, and array qualifiers on the outside -----

  function Bare(ty: Type): QualType {
    QualType(Unqualified(), ty)
  }

  function Qualified(q: QualType, extra: Quals): QualType {
    QualType(q.local.Union(extra), q.ty)
  }

  function Canon(ty: Type): QualType
    decreases ty
  {
    match ty
    case Builtin(_) => Bare(ty)
    case Pointer(q) => Bare(Pointer(CanonQ(q)))
    case ConstantArray(e, n) => var c := CanonQ(e); QualType(c.local, ConstantArray(Bare(c.ty), n))
    case IncompleteArray(e) => var c := CanonQ(e); QualType(c.local, IncompleteArray(Bare(c.ty)))
    case _ => CanonQ(Meant(ty))
  }

  function CanonQ(q: QualType): QualType
    decreases q
  {
    Qualified(Canon(q.ty), q.local)
  }

  // isVolatileQualified looks through the sugar; isLocalConstQualified does not.
  predicate IsVolatileQualified(q: QualType) {
    q.local.isVolatile || Canon(q.ty).local.isVolatile
  }

  // Where sugar has two types inside, they are the same one up to sugar; that is all that is asked.
  predicate Faithful(ty: Type)
    decreases ty
  {
    match ty
    case Builtin(_) => true
    case Pointer(q) => FaithfulQ(q)
    case ConstantArray(e, _) => FaithfulQ(e)
    case IncompleteArray(e) => FaithfulQ(e)
    case Typedef(q, own) => FaithfulQ(q) && CanonQ(q) == CanonQ(own)
    case Attributed(q, e) => FaithfulQ(q) && CanonQ(q) == CanonQ(e)
    case MacroQualified(q, u) => FaithfulQ(q) && CanonQ(q) == CanonQ(u)
    case _ => FaithfulQ(Shown(ty))
  }

  predicate FaithfulQ(q: QualType)
    decreases q
  {
    Faithful(q.ty)
  }

  // ----- What is printed -----

  function Apply(head: string, t: Term): Term {
    Ctor(head, [Arg(false, t)], false)
  }

  function TypeTerm(ty: Type): Term
    decreases ty
  {
    match ty
    case Builtin(x) => Ident(x)
    case Pointer(q) => Apply("Tptr", QualTerm(q))
    case ConstantArray(e, n) => Ctor("Tarray", [Arg(false, QualTerm(e)), Arg(true, Num(n, ""))], false)
    case IncompleteArray(e) => Apply("Tincomplete_array", QualTerm(e))
    case _ => QualTerm(Shown(ty))
  }

  function QualTerm(q: QualType): Term
    decreases q
  {
    var t := TypeTerm(q.ty);
    if q.local.isConst then Apply(if IsVolatileQualified(q) then "Qconst_volatile" else "Qconst", t)
    else if q.local.isVolatile then Apply("Qvolatile", t)
    else t
  }

  class TypePrinter {
    const print_: CoqPrinter

    constructor (p: CoqPrinter)
      ensures print_ == p
    {
      print_ := p;
    }

    method PrintQualType(q: QualType)
      modifies print_.output
      ensures print_.output.View() == Formatting.Run(Ops(QualTerm(q)), old(print_.output.View()))
      ensures print_.output.depth == old(print_.output.depth)
      decreases q, 0
    {
      if q.local.isConst {
        if IsVolatileQualified(q) {
          PrintUnder("Qconst_volatile", q.ty);
        } else {
          PrintUnder("Qconst", q.ty);
        }
      } else if q.local.isVolatile {
        PrintUnder("Qvolatile", q.ty);
      } else {
        PrintType(q.ty);
      }
    }

    method PrintUnder(head: string, ty: Type)
      modifies print_.output
      ensures print_.output.View() == Formatting.Run(Ops(Apply(head, TypeTerm(ty))), old(print_.output.View()))
      ensures print_.output.depth == old(print_.output.depth)
      decreases ty, 1
    {
      ghost var st := print_.output.View();
      print_.BeginCtor(head, false);
      PrintType(ty);
      OpenDepth(head, st);
      print_.EndCtor();
      ApplyRuns(head, TypeTerm(ty), st);
    }

    method PrintOver(head: string, q: QualType)
      modifies print_.output
      ensures print_.output.View() == Formatting.Run(Ops(Apply(head, QualTerm(q))), old(print_.output.View()))
      ensures print_.output.depth == old(print_.output.depth)
      decreases q, 1
    {
      ghost var st := print_.output.View();
      print_.BeginCtor(head, false);
      PrintQualType(q);
      OpenDepth(head, st);
      print_.EndCtor();
      ApplyRuns(head, QualTerm(q), st);
    }

    // printType, with its check that every visitor closes what it opens
    method PrintType(ty: Type)
      modifies print_.output
      ensures print_.output.View() == Formatting.Run(Ops(TypeTerm(ty)), old(print_.output.View()))
      ensures print_.output.depth == old(print_.output.depth)
      decreases ty, 0
    {
      match ty
      case Builtin(x) => print_.output.Put(x);
      case Pointer(q) => PrintOver("Tptr", q);
      case ConstantArray(e, n) => PrintArray(e, n);
      case IncompleteArray(e) => PrintOver("Tincomplete_array", e);
      case Paren(q) => PrintQualType(q);
      case Elaborated(q) => PrintQualType(q);
      case Substituted(q) => PrintQualType(q);
      case Using(q) => PrintQualType(q);
      case TemplateAlias(q) => PrintQualType(q);
      case Decltype(q) => PrintQualType(q);
      case TypeOfExpr(q) => PrintQualType(q);
      case Typedef(first, _) => PrintQualType(first);
      case Attributed(modified, _) => PrintQualType(modified);
      case MacroQualified(modified, _) => PrintQualType(modified);
    }

    method PrintArray(e: QualType, n: nat)
      modifies print_.output
      ensures print_.output.View()
              == Formatting.Run(Ops(TypeTerm(ConstantArray(e, n))), old(print_.output.View()))
      ensures print_.output.depth == old(print_.output.depth)
      decreases e, 1
    {
      ghost var st := print_.output.View();
      print_.BeginCtor("Tarray", false);
      PrintQualType(e);
      print_.output.AddNbsp();
      print_.output.PutNumber(n, "");
      OpenDepth("Tarray", st);
      print_.EndCtor();
      ArrayRuns(QualTerm(e), n, st);
    }
  }

  function Head(head: string): seq<Op> {
    [] + [LParen, Text(head), Nbsp]
  }

  lemma OpenDepth(head: string, st: State)
    ensures Formatting.Run(Head(head), st).depth == st.depth + 2
  {
    assert Head(head) == [LParen, Text(head), Nbsp];
    RunThree(LParen, Text(head), Nbsp, st);
  }

  lemma ApplyRuns(head: string, t: Term, st: State)
    ensures Formatting.Run(Ops(Apply(head, t)), st)
            == Formatting.Run([RParen], Formatting.Run(Ops(t), Formatting.Run(Head(head), st)))
    ensures Formatting.Run(Ops(Apply(head, t)), st).depth == st.depth
  {
    var a := Arg(false, t);
    assert [a][1..] == [];
    Nil(Ops(t));
    assert ArgOps([a]) == Ops(t);
    RunAppend(Head(head), Ops(t), st);
    RunAppend(Head(head) + Ops(t), [RParen], st);
    Balanced(Apply(head, t), st.depth);
    RunDepth(Ops(Apply(head, t)), st);
  }

  lemma ArrayRuns(t: Term, n: nat, st: State)
    ensures var whole := Ctor("Tarray", [Arg(false, t), Arg(true, Num(n, ""))], false);
            && Formatting.Run(Ops(whole), st)
               == Formatting.Run([RParen], Step(Text(NumberText(n, "")), Step(Nbsp,
                    Formatting.Run(Ops(t), Formatting.Run(Head("Tarray"), st)))))
            && Formatting.Run(Ops(whole), st).depth == st.depth
  {
    var a, b := Arg(false, t), Arg(true, Num(n, ""));
    var tail := [Nbsp, Text(NumberText(n, ""))];
    assert [a, b][1..] == [b] && [b][1..] == [];
    Nil(OneArgOps(b));
    assert OneArgOps(b) == tail;
    Nil(Ops(t));
    assert OneArgOps(a) == Ops(t);
    assert ArgOps([b]) == tail;
    assert ArgOps([a, b]) == Ops(t) + tail;
    Assoc(Head("Tarray"), Ops(t), tail);
    RunAppend(Head("Tarray"), Ops(t), st);
    RunAppend(Head("Tarray") + Ops(t), tail, st);
    RunTwo(Nbsp, Text(NumberText(n, "")), Formatting.Run(Head("Tarray") + Ops(t), st));
    RunAppend(Head("Tarray") + Ops(t) + tail, [RParen], st);
    Balanced(Ctor("Tarray", [a, b], false), st.depth);
    RunDepth(Ops(Ctor("Tarray", [a, b], false)), st);
  }

  // ----- What printed types mean: nested qualifiers merge, and an array's are its element's -----

  function SizeOf(t: Term): Option<nat> {
    match t
    case Num(v, scope) => if v >= 0 && scope == "" then Some(v) else None
    case Remarked(_, u) => SizeOf(u)
    case _ => None
  }

  function Denote(t: Term): Option<QualType>
    decreases t
  {
    match t
    case Ident(x) => Some(Bare(Builtin(x)))
    case Remarked(_, u) => Denote(u)
    case Ctor(h, args, _) =>
      var q := if args == [] then None else DenoteArg(args[0]);
      if q.None? then None
      else if |args| == 1 then Construct(h, q.value)
      else if |args| == 2 && h == "Tarray" then ArrayOf(q.value, SizeOf(args[1].t))
      else None
    case _ => None
  }

  function DenoteArg(a: Arg): Option<QualType>
    decreases a
  {
    Denote(a.t)
  }

  function ArrayOf(q: QualType, n: Option<nat>): Option<QualType> {
    if n.None? then None else Some(QualType(q.local, ConstantArray(Bare(q.ty), n.value)))
  }

  function Construct(h: string, q: QualType): Option<QualType> {
    match h
    case "Tptr" => Some(Bare(Pointer(q)))
    case "Tincomplete_array" => Some(QualType(q.local, IncompleteArray(Bare(q.ty))))
    case "Qconst" => Some(Qualified(q, Quals(true, false)))
    case "Qvolatile" => Some(Qualified(q, Quals(false, true)))
    case "Qconst_volatile" => Some(Qualified(q, Quals(true, true)))
    case _ => None
  }

  // The type along what the visitors show.
  function Spelled(ty: Type): QualType
    decreases ty
  {
    match ty
    case Builtin(_) => Bare(ty)
    case Pointer(q) => Bare(Pointer(SpelledQ(q)))
    case ConstantArray(e, n) => var c := SpelledQ(e); QualType(c.local, ConstantArray(Bare(c.ty), n))
    case IncompleteArray(e) => var c := SpelledQ(e); QualType(c.local, IncompleteArray(Bare(c.ty)))
    case _ => SpelledQ(Shown(ty))
  }

  // Under a local `const` the canonical type's `volatile` counts too.
  function SpelledQ(q: QualType): QualType
    decreases q
  {
    var isVolatile := if q.local.isConst then IsVolatileQualified(q) else q.local.isVolatile;
    Qualified(Spelled(q.ty), Quals(q.local.isConst, isVolatile))
  }

  // Whatever the type, the printed term, its qualifiers merged, is the type that is shown.
  lemma {:induction false} PrintedIsSpelled(ty: Type)
    ensures Denote(TypeTerm(ty)) == Some(Spelled(ty))
    decreases ty
  {
    match ty
    case Builtin(_) =>
    case Pointer(q) => PrintedIsSpelledQ(q);
    case ConstantArray(e, n) => PrintedIsSpelledQ(e);
    case IncompleteArray(e) => PrintedIsSpelledQ(e);
    case _ => PrintedIsSpelledQ(Shown(ty));
  }

  lemma {:induction false} PrintedIsSpelledQ(q: QualType)
    ensures Denote(QualTerm(q)) == Some(SpelledQ(q))
    decreases q
  {
    PrintedIsSpelled(q.ty);
  }

  lemma {:induction false} SpelledIsCanonical(ty: Type)
    requires Faithful(ty)
    ensures Spelled(ty) == Canon(ty)
    decreases ty
  {
    match ty
    case Builtin(_) =>
    case Pointer(q) => SpelledIsCanonicalQ(q);
    case ConstantArray(e, n) => SpelledIsCanonicalQ(e);
    case IncompleteArray(e) => SpelledIsCanonicalQ(e);
    case _ => SpelledIsCanonicalQ(Shown(ty));
  }

  lemma {:induction false} SpelledIsCanonicalQ(q: QualType)
    requires FaithfulQ(q)
    ensures SpelledQ(q) == CanonQ(q)
    decreases q
  {
    SpelledIsCanonical(q.ty);
  }

  // So sugar removal preserves types: the printed type is the canonical type.
  lemma PrintedIsCanonical(ty: Type)
    requires Faithful(ty)
    ensures Denote(TypeTerm(ty)) == Some(Canon(ty))
  {
    PrintedIsSpelled(ty);
    SpelledIsCanonical(ty);
  }

  lemma PrintedIsCanonicalQ(q: QualType)
    requires FaithfulQ(q)
    ensures Denote(QualTerm(q)) == Some(CanonQ(q))
  {
    PrintedIsSpelledQ(q);
    SpelledIsCanonicalQ(q);
  }

  // Without typedefs, attributes and macros nothing at all is asked.
  predicate OneInside(ty: Type)
    decreases ty
  {
    match ty
    case Builtin(_) => true
    case Pointer(q) => OneInsideQ(q)
    case ConstantArray(e, _) => OneInsideQ(e)
    case IncompleteArray(e) => OneInsideQ(e)
    case Typedef(_, _) => false
    case Attributed(_, _) => false
    case MacroQualified(_, _) => false
    case _ => OneInsideQ(Shown(ty))
  }

  predicate OneInsideQ(q: QualType)
    decreases q
  {
    OneInside(q.ty)
  }

  lemma {:induction false} OneInsideIsFaithful(ty: Type)
    requires OneInside(ty)
    ensures Faithful(ty)
    decreases ty
  {
    if IsSugar(ty) {
      OneInsideIsFaithful(Shown(ty).ty);
    } else {
      match ty
      case Builtin(_) =>
      case Pointer(q) => OneInsideIsFaithful(q.ty);
      case ConstantArray(e, _) => OneInsideIsFaithful(e.ty);
      case IncompleteArray(e) => OneInsideIsFaithful(e.ty);
    }
  }

  lemma OneInsideIsCanonical(q: QualType)
    requires OneInsideQ(q)
    ensures Denote(QualTerm(q)) == Some(CanonQ(q))
  {
    OneInsideIsFaithful(q.ty);
    PrintedIsCanonicalQ(q);
  }

  // ----- When the printed type is, literally, the canonical type's -----

  // At every level at most one layer of sugar is qualified, and no array element is.
  predicate OneLayer(ty: Type)
    decreases ty
  {
    match ty
    case Builtin(_) => true
    case Pointer(q) => OneLayerQ(q)
    case ConstantArray(e, _) => OneLayerQ(e) && CanonQ(e).local.Empty()
    case IncompleteArray(e) => OneLayerQ(e) && CanonQ(e).local.Empty()
    case _ => OneLayerQ(Shown(ty))
  }

  predicate OneLayerQ(q: QualType)
    decreases q
  {
    OneLayer(q.ty) && (q.local.Empty() || Canon(q.ty).local.Empty())
  }

  lemma {:induction false} CanonicalIsCanonical(ty: Type)
    ensures !IsSugar(Canon(ty).ty) && Canon(Canon(ty).ty) == Bare(Canon(ty).ty)
    decreases ty
  {
    match ty
    case Builtin(_) =>
    case Pointer(q) => CanonicalIsCanonical(q.ty);
    case ConstantArray(e, _) => CanonicalIsCanonical(e.ty);
    case IncompleteArray(e) => CanonicalIsCanonical(e.ty);
    case _ => CanonicalIsCanonical(Meant(ty).ty);
  }

  lemma {:induction false} CanonicalIsFaithful(ty: Type)
    ensures Faithful(Canon(ty).ty)
    decreases ty
  {
    match ty
    case Builtin(_) =>
    case Pointer(q) => CanonicalIsFaithful(q.ty);
    case ConstantArray(e, _) => CanonicalIsFaithful(e.ty);
    case IncompleteArray(e) => CanonicalIsFaithful(e.ty);
    case _ => CanonicalIsFaithful(Meant(ty).ty);
  }

  lemma {:induction false} PrintedLiterally(ty: Type)
    requires Faithful(ty)
    ensures TypeTerm(ty) == QualTerm(Canon(ty)) <==> OneLayer(ty)
    decreases ty
  {
    match ty
    case Builtin(_) =>
    case Pointer(q) => PrintedLiterallyQ(q);
    case ConstantArray(e, _) => PrintedLiterallyQ(e);
    case IncompleteArray(e) => PrintedLiterallyQ(e);
    case _ => PrintedLiterallyQ(Shown(ty));
  }

  lemma {:induction false} PrintedLiterallyQ(q: QualType)
    requires FaithfulQ(q)
    ensures QualTerm(q) == QualTerm(CanonQ(q)) <==> OneLayerQ(q)
    decreases q
  {
    var c := Canon(q.ty);
    PrintedLiterally(q.ty);
    CanonicalIsCanonical(q.ty);
    if !q.local.Empty() && !c.local.Empty() {
      CanonicalIsFaithful(q.ty);
      PrintedIsCanonical(q.ty);
      PrintedIsCanonical(c.ty);
      assert TypeTerm(q.ty) != TypeTerm(c.ty);
    }
  }

  // ----- Through the characters -----

  predicate Names(ty: Type)
    decreases ty
  {
    match ty
    case Builtin(x) => Wf(Ident(x))
    case Pointer(q) => NamesQ(q)
    case ConstantArray(e, _) => NamesQ(e)
    case IncompleteArray(e) => NamesQ(e)
    case _ => NamesQ(Shown(ty))
  }

  predicate NamesQ(q: QualType)
    decreases q
  {
    Names(q.ty)
  }

  lemma {:induction false} TermWf(ty: Type)
    requires Names(ty)
    ensures Wf(TypeTerm(ty))
    decreases ty
  {
    match ty
    case Builtin(_) =>
    case Pointer(q) => TermWfQ(q);
    case ConstantArray(e, n) =>
      TermWfQ(e);
      ArrayWf(QualTerm(e), n);
    case IncompleteArray(e) => TermWfQ(e);
    case _ => TermWfQ(Shown(ty));
  }

  lemma {:induction false} TermWfQ(q: QualType)
    requires NamesQ(q)
    ensures Wf(QualTerm(q))
    decreases q
  {
    TermWf(q.ty);
  }

  lemma ArrayWf(t: Term, n: nat)
    requires Wf(t)
    ensures Wf(Ctor("Tarray", [Arg(false, t), Arg(true, Num(n, ""))], false))
  {
    var a, b := Arg(false, t), Arg(true, Num(n, ""));
    assert [a, b][1..] == [b] && [b][1..] == [];
    assert WfArg(b) && WfArgs([], false, End(b.t));
    assert WfArgs([b], false, End(t));
  }

  lemma {:induction false} DenoteErased(t: Term)
    ensures Denote(Erase(t)) == Denote(t) && SizeOf(Erase(t)) == SizeOf(t)
    decreases t
  {
    match t
    case Ctor(h, args, _) =>
      if args != [] {
        DenoteErasedArg(args[0]);
        if |args| == 2 {
          DenoteErasedArg(args[1]);
          assert args[1..] == [args[1]] && args[1..][1..] == [];
          assert EraseArgs(args[1..]) == [EraseArg(args[1])];
          assert EraseArgs(args) == [EraseArg(args[0]), EraseArg(args[1])];
        }
        ErasedArity(args);
      }
    case Remarked(_, u) => DenoteErased(u);
    case _ =>
  }

  lemma {:induction false} DenoteErasedArg(a: Arg)
    ensures DenoteArg(EraseArg(a)) == DenoteArg(a) && SizeOf(EraseArg(a).t) == SizeOf(a.t)
    decreases a
  {
    DenoteErased(a.t);
  }

  lemma {:induction false} ErasedArity(args: seq<Arg>)
    ensures |EraseArgs(args)| == |args|
  {
    if args != [] {
      ErasedArity(args[1..]);
    }
  }

  // From any layout state, the characters written for a type read back to a term that denotes the type
  // that is shown, and so the canonical type.
  lemma PrintedTypeReadsBack(q: QualType, st: State)
    requires NamesQ(q)
    ensures var chars := Characters(QualTerm(q), st);
            && Formatting.Run(Ops(QualTerm(q)), st).out == st.out + chars
            && Read(chars).Done? && Read(chars).rest == [] && Denote(Read(chars).value) == Some(SpelledQ(q))
    ensures FaithfulQ(q) ==> Denote(Read(Characters(QualTerm(q), st)).value) == Some(CanonQ(q))
  {
    TermWfQ(q);
    PrintThenRead(QualTerm(q), st);
    DenoteErased(QualTerm(q));
    PrintedIsSpelledQ(q);
    if FaithfulQ(q) {
      SpelledIsCanonicalQ(q);
    }
  }
}
