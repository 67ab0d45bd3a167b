/** Sharing through the characters: reading the emitted text back and substituting the definitions. */
module SharedText {
  import opened Decimal
  import Formatting
  import opened Printing
  import opened PrePrinting
  import opened Reading
  import opened Sharing

  // ----- Substituting and forgetting layout, in either order -----

  function EraseEnv(env: Env): Env {
    map k | k in env :: Erase(env[k])
  }

  lemma {:induction false} SubstErase(env: Env, t: Term)
    ensures Erase(Subst(env, t)) == Subst(EraseEnv(env), Erase(t))
    decreases t, 0
  {
    match t
    case Ctor(_, args, _) => SubstEraseArgs(env, args);
    case Seq(es, _) => SubstEraseAll(env, es);
    case Tuple(ps) => SubstEraseAll(env, ps);
    case Remarked(_, u) => SubstErase(env, u);
    case _ =>
  }

  lemma {:induction false} SubstEraseArgs(env: Env, args: seq<Arg>)
    ensures EraseArgs(SubstArgs(env, args)) == SubstArgs(EraseEnv(env), EraseArgs(args))
    decreases args, 0
  {
    if args != [] {
      SubstEraseArg(env, args[0]);
      SubstEraseArgs(env, args[1..]);
    }
  }

  lemma {:induction false} SubstEraseArg(env: Env, a: Arg)
    ensures EraseArg(SubstArg(env, a)) == SubstArg(EraseEnv(env), EraseArg(a))
    decreases a, 0
  {
    SubstErase(env, a.t);
  }

  lemma {:induction false} SubstEraseAll(env: Env, ts: seq<Term>)
    ensures EraseAll(SubstAll(env, ts)) == SubstAll(EraseEnv(env), EraseAll(ts))
    decreases ts, 0
  {
    if ts != [] {
      SubstErase(env, ts[0]);
      SubstEraseAll(env, ts[1..]);
    }
  }

  // ----- Definitions as they are read back -----

  // The value of the text that a term prints as from the layout state st.
  function TermRead(t: Term, st: Formatting.State): Term {
    var r := Read(Characters(t, st));
    if r.Done? then r.value else t
  }

  // Each definition, its body read back; sts are the layout states in which the bodies were printed.
  function DefsRead(defs: seq<Def>, sts: seq<Formatting.State>): seq<Def>
    requires |sts| == |defs|
    decreases |defs|
  {
    if defs == [] then []
    else
      var n := |defs| - 1;
      DefsRead(defs[..n], sts[..n]) + [defs[n].(body := TermRead(defs[n].body, sts[n]))]
  }

  predicate AllWf(defs: seq<Def>) {
    forall i :: 0 <= i < |defs| ==> Wf(defs[i].body)
  }

  lemma {:induction false} MeaningsRead(defs: seq<Def>, sts: seq<Formatting.State>)
    requires |sts| == |defs| && AllWf(defs)
    ensures Meanings(DefsRead(defs, sts)) == EraseEnv(Meanings(defs))
    decreases |defs|
  {
    if defs == [] {
      assert EraseEnv(Meanings(defs)) == map[];
    } else {
      var n := |defs| - 1;
      MeaningsRead(defs[..n], sts[..n]);
      LastMeaning(defs, DefsRead(defs[..n], sts[..n]), TermRead(defs[n].body, sts[n])) by {
        PrintThenRead(defs[n].body, sts[n]);
      }
    }
  }

  lemma LastMeaning(defs: seq<Def>, front: seq<Def>, body: Term)
    requires defs != [] && body == Erase(defs[|defs| - 1].body)
    requires Meanings(front) == EraseEnv(Meanings(defs[..|defs| - 1]))
    ensures Meanings(front + [defs[|defs| - 1].(body := body)]) == EraseEnv(Meanings(defs))
  {
    var last := defs[|defs| - 1].(body := body);
    SubstErase(Meanings(defs[..|defs| - 1]), defs[|defs| - 1].body);
    assert (front + [last])[..|front|] == front;
  }

  // Reading the definitions and a declaration of the shared output back, and substituting, gives what
  // is read back from the output without sharing. It holds for whatever layout surrounds each of them.
  lemma SharedTextMeansPlainText(
      declarations: seq<Decl>, definitions: seq<Decl>, d: Decl, sts: seq<Formatting.State>, st: Formatting.State,
      plain: Formatting.State)
    requires var s := PreModule(EMPTY, declarations, definitions);
             |sts| == |s.defs| && AllWf(s.defs) && Wf(PrintDecl(s.tables, d)) && Wf(PlainDecl(d))
    ensures var s := PreModule(EMPTY, declarations, definitions);
            Subst(Meanings(DefsRead(s.defs, sts)), TermRead(PrintDecl(s.tables, d), st))
            == TermRead(PlainDecl(d), plain)
  {
    var s := PreModule(EMPTY, declarations, definitions);
    MeaningsRead(s.defs, sts);
    PrintThenRead(PrintDecl(s.tables, d), st);
    PrintThenRead(PlainDecl(d), plain);
    SharingPreservesMeaning(declarations, definitions, d);
    SubstErase(Meanings(s.defs), PrintDecl(s.tables, d));
  }

  // ----- The characters of the definitions, one definition after the other -----

  // What the layout engine writes before and behind the body of a definition, and the state there.
  function BodyState(defs: seq<Def>, i: nat, st: Formatting.State): Formatting.State
    requires i < |defs|
  {
    Formatting.Run(HeadOps(defs[i].prefix, defs[i].n), Formatting.Run(DefsOps(defs[..i]), st))
  }

  // The text of a module's definitions holds, behind the head of every definition, the characters of its
  // body in the state that the head leaves.
  lemma DefinitionText(defs: seq<Def>, i: nat, st: Formatting.State)
    requires i < |defs|
    ensures var before := BodyState(defs, i, st);
            before.out + Characters(defs[i].body, before) <= Formatting.Run(DefsOps(defs), st).out
  {
    var before, t := BodyState(defs, i, st), defs[i].body;
    assert defs[..i + 1] == defs[..i] + [defs[i]];
    OneMore(defs[..i], defs[i], st);
    BodyWritten(t, before, TailOps());
    LaterDefinitions(defs, i + 1, st);
    Prefixes(before.out + Characters(t, before), Formatting.Run(DefsOps(defs[..i + 1]), st).out,
             Formatting.Run(DefsOps(defs), st).out);
  }

  lemma Prefixes(a: string, b: string, c: string)
    requires a <= b <= c
    ensures a <= c
  {
  }

  lemma {:induction false} LaterDefinitions(defs: seq<Def>, k: nat, st: Formatting.State)
    requires k <= |defs|
    ensures Formatting.Run(DefsOps(defs[..k]), st).out <= Formatting.Run(DefsOps(defs), st).out
    decreases |defs|
  {
    if k == |defs| {
      assert defs[..k] == defs;
    } else {
      var n := |defs| - 1;
      assert defs[..n][..k] == defs[..k];
      LaterDefinitions(defs[..n], k, st);
      Formatting.RunAppend(DefsOps(defs[..n]), DefOps(defs[n]), st);
      Formatting.RunExtends(DefOps(defs[n]), Formatting.Run(DefsOps(defs[..n]), st));
      Prefixes(Formatting.Run(DefsOps(defs[..k]), st).out, Formatting.Run(DefsOps(defs[..n]), st).out,
               Formatting.Run(DefsOps(defs), st).out);
    }
  }

  lemma BodyWritten(t: Term, before: Formatting.State, after: seq<Formatting.Op>)
    ensures Formatting.Run(Ops(t), before).out == before.out + Characters(t, before)
    ensures before.out + Characters(t, before) <= Formatting.Run(after, Formatting.Run(Ops(t), before)).out
  {
    var clean := Formatting.State("", before.depth, before.spaces, before.blank);
    assert before.out + "" == before.out;
    Formatting.RunFrame(before.out, Ops(t), clean);
    Formatting.RunExtends(after, Formatting.Run(Ops(t), before));
  }

  // ----- The sentences -----

  // Every term ends in a chunk or a closing parenthesis ...
  lemma LastOp(t: Term)
    ensures Ops(t) != [] && var last := Ops(t)[|Ops(t)| - 1]; last.Text? || last.RParen?
    decreases t
  {
    if t.Remarked? {
      LastOp(t.t);
    }
  }

  // ... so behind it nothing is pending.
  lemma NothingPending(t: Term, st: Formatting.State)
    ensures var r := Formatting.Run(Ops(t), st); r.depth == st.depth && r.spaces == 0 && !r.blank
  {
    LastOp(t);
    var n := |Ops(t)| - 1;
    var mid := Formatting.Run(Ops(t)[..n], st);
    assert Ops(t) == Ops(t)[..n] + [Ops(t)[n]];
    Formatting.RunAppend(Ops(t)[..n], [Ops(t)[n]], st);
    assert Formatting.Run([Ops(t)[n]], mid) == Formatting.Step(Ops(t)[n], mid);
    Balanced(t, st.depth);
    Formatting.RunDepth(Ops(t), st);
  }

  // At the start of a line outside all parentheses, or on it with nothing pending.
  predicate AtTop(st: Formatting.State) {
    st.depth == 0 && st.spaces == 0
  }

  // A definition as it is written there.
  function Sentence(d: Def): string {
    "#[local] Definition " + [d.prefix] + Numeral(d.n) + (if d.prefix == 't' then " : type := " else " : name := ")
    + Characters(d.body, Formatting.State("", 0, 0, false)) + ".\n"
  }

  function Sentences(defs: seq<Def>): string {
    if defs == [] then "" else Sentences(defs[..|defs| - 1]) + Sentence(defs[|defs| - 1])
  }

  lemma Chunk(s: string, st: Formatting.State)
    requires AtTop(st)
    ensures Formatting.Step(Formatting.Text(s), st) == Formatting.State(st.out + s, 0, 0, false)
  {
    assert Formatting.Pending(st) == "" && st.out + "" == st.out;
  }

  lemma HeadWritten(prefix: char, n: nat, st: Formatting.State)
    requires AtTop(st)
    ensures var kind := if prefix == 't' then " : type := " else " : name := ";
            Formatting.Run(HeadOps(prefix, n), st)
            == Formatting.State(st.out + ("#[local] Definition " + [prefix] + Numeral(n) + kind), 0, 0, false)
  {
    var kind := if prefix == 't' then " : type := " else " : name := ";
    var ops := HeadOps(prefix, n);
    var a := Formatting.Step(ops[0], st);
    var b := Formatting.Step(ops[1], a);
    Chunk("#[local] Definition ", st);
    Chunk([prefix], a);
    Chunk(Numeral(n), b);
    Chunk(kind, Formatting.Step(ops[2], b));
    assert ops == [ops[0]] + ops[1..] && ops[1..][0] == ops[1];
    Formatting.RunThree(ops[1], ops[2], ops[3], a);
    assert ops[1..] == [ops[1], ops[2], ops[3]];
    Joined(st.out, "#[local] Definition ", [prefix], Numeral(n), kind);
  }

  lemma Joined(o: string, a: string, b: string, c: string, d: string)
    ensures o + a + b + c + d == o + (a + b + c + d)
  {
  }

  lemma SentenceWritten(d: Def, st: Formatting.State)
    requires AtTop(st)
    ensures var r := Formatting.Run(DefOps(d), st); AtTop(r) && r.out == st.out + Sentence(d)
  {
    var head := Formatting.Run(HeadOps(d.prefix, d.n), st);
    var body := Formatting.Run(Ops(d.body), head);
    HeadWritten(d.prefix, d.n, st);
    NothingPending(d.body, head);
    BodyWritten(d.body, head, TailOps());
    Chunk(".", body);
    Formatting.RunTwo(Formatting.Text("."), Formatting.Line, body);
    Formatting.RunAppend(HeadOps(d.prefix, d.n), Ops(d.body) + TailOps(), st);
    Formatting.RunAppend(Ops(d.body), TailOps(), head);
    Ended(st.out, d, body.out);
  }

  lemma Ended(o: string, d: Def, body: string)
    requires var kind := if d.prefix == 't' then " : type := " else " : name := ";
             body == o + ("#[local] Definition " + [d.prefix] + Numeral(d.n) + kind)
                     + Characters(d.body, Formatting.State("", 0, 0, false))
    ensures body + "." + "\n" == o + Sentence(d)
  {
  }

  // The text of a module's definitions, character by character: one sentence after the other.
  lemma {:induction false} SentencesWritten(defs: seq<Def>, st: Formatting.State)
    requires AtTop(st)
    ensures var r := Formatting.Run(DefsOps(defs), st); AtTop(r) && r.out == st.out + Sentences(defs)
  {
    if defs != [] {
      var front, d := defs[..|defs| - 1], defs[|defs| - 1];
      SentencesWritten(front, st);
      SentenceWritten(d, Formatting.Run(DefsOps(front), st));
      Formatting.RunAppend(DefsOps(front), DefOps(d), st);
    }
  }
}
