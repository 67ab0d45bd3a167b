/** The layout engine: deferred spaces, pending indentation, and nesting depth. */
module Formatting {
  import opened Decimal
  import opened Sequences

  // ----- The value view of the engine -----

  datatype State = State(out: string, depth: nat, spaces: nat, blank: bool)

  datatype Op =
    | Text(s: string)   // a chunk written through `operator<<`
    | Line
    | Nbsp
    | Indent
    | Outdent
    | LParen            // "(" and one level deeper
    | RParen            // one level back, pending space dropped, ")"

  function Blanks(n: nat): (s: string)
    ensures |s| == n && forall i :: 0 <= i < n ==> s[i] == ' '
  {
    if n == 0 then "" else Blanks(n - 1) + " "
  }

  // What `nobreak` writes: indentation at the start of a line, then the deferred spaces.
  function Pending(st: State): string {
    Blanks((if st.blank then st.depth else 0) + st.spaces)
  }

  function Write(st: State, s: string): State {
    State(st.out + Pending(st) + s, st.depth, 0, false)
  }

  function Shallower(depth: nat): nat {
    if depth >= 2 then depth - 2 else 0
  }

  function Step(op: Op, st: State): State {
    match op
    case Text(s) => Write(st, s)
    case Line => st.(out := st.out + "\n", blank := true, spaces := 0)
    case Nbsp => st.(spaces := 1)
    case Indent => st.(depth := st.depth + 2)
    case Outdent => st.(depth := Shallower(st.depth))
    case LParen => Write(st, "(").(depth := st.depth + 2)
    case RParen => Write(st.(depth := Shallower(st.depth), spaces := 0), ")")
  }

  function Run(ops: seq<Op>, st: State): State {
    if ops == [] then st else Run(ops[1..], Step(ops[0], st))
  }

  // No operation trips the `depth >= 2` assertion of `outdent`.
  predicate Safe(ops: seq<Op>, depth: nat) {
    ops == [] ||
    (((ops[0].Outdent? || ops[0].RParen?) ==> depth >= 2) && Safe(ops[1..], DepthStep(ops[0], depth)))
  }

  function DepthStep(op: Op, depth: nat): nat {
    match op
    case Indent | LParen => depth + 2
    case Outdent | RParen => Shallower(depth)
    case _ => depth
  }

  function DepthAfter(ops: seq<Op>, depth: nat): nat {
    if ops == [] then depth else DepthAfter(ops[1..], DepthStep(ops[0], depth))
  }

  lemma {:induction false} RunAppend(a: seq<Op>, b: seq<Op>, st: State)
    ensures Run(a + b, st) == Run(b, Run(a, st))
  {
    if a == [] {
      assert a + b == b;
    } else {
      assert (a + b)[1..] == a[1..] + b;
      RunAppend(a[1..], b, Step(a[0], st));
    }
  }

  lemma {:induction false} SafeAppend(a: seq<Op>, b: seq<Op>, depth: nat)
    ensures DepthAfter(a + b, depth) == DepthAfter(b, DepthAfter(a, depth))
    ensures Safe(a + b, depth) <==> Safe(a, depth) && Safe(b, DepthAfter(a, depth))
  {
    if a == [] {
      assert a + b == b;
    } else {
      assert (a + b)[1..] == a[1..] + b;
      SafeAppend(a[1..], b, DepthStep(a[0], depth));
    }
  }

  lemma RunTwo(a: Op, b: Op, st: State)
    ensures Run([a, b], st) == Step(b, Step(a, st))
  {
    assert [a, b][1..] == [b];
    assert Run([b], Step(a, st)) == Step(b, Step(a, st));
  }

  lemma RunThree(a: Op, b: Op, c: Op, st: State)
    ensures Run([a, b, c], st) == Step(c, Step(b, Step(a, st)))
  {
    assert [a, b, c][1..] == [b, c];
    RunTwo(b, c, Step(a, st));
  }

  // Texts, lines and spaces leave the depth alone.
  lemma {:induction false} FlatOps(ops: seq<Op>, depth: nat)
    requires forall i :: 0 <= i < |ops| ==> ops[i].Text? || ops[i].Line? || ops[i].Nbsp?
    ensures Safe(ops, depth) && DepthAfter(ops, depth) == depth
  {
    if ops != [] {
      FlatOps(ops[1..], depth);
    }
  }

  // A guard (constructor or list) around a safe, depth-neutral body is again safe and neutral.
  lemma Guarded(body: seq<Op>, depth: nat)
    requires Safe(body, depth + 2) && DepthAfter(body, depth + 2) == depth + 2
    ensures Safe([LParen] + body + [RParen], depth)
    ensures DepthAfter([LParen] + body + [RParen], depth) == depth
  {
    var open := [LParen] + body;
    assert open[1..] == body;
    SafeAppend(open, [RParen], depth);
  }

  lemma {:induction false} RunDepth(ops: seq<Op>, st: State)
    ensures Run(ops, st).depth == DepthAfter(ops, st.depth)
  {
    if ops != [] {
      RunDepth(ops[1..], Step(ops[0], st));
    }
  }

  lemma WriteFrame(pre: string, st: State, s: string)
    ensures Write(st.(out := pre + st.out), s) == Write(st, s).(out := pre + Write(st, s).out)
  {
    Assoc(pre, st.out, Pending(st));
    Assoc(pre, st.out + Pending(st), s);
  }

  // The text already written never matters to what is written next.
  lemma {:induction false} RunFrame(pre: string, ops: seq<Op>, st: State)
    ensures Run(ops, st.(out := pre + st.out)) == Run(ops, st).(out := pre + Run(ops, st).out)
  {
    if ops != [] {
      match ops[0] {
        case Text(s) => WriteFrame(pre, st, s);
        case Line => Assoc(pre, st.out, "\n");
        case LParen => WriteFrame(pre, st, "(");
        case RParen => WriteFrame(pre, st.(depth := Shallower(st.depth), spaces := 0), ")");
        case _ =>
      }
      RunFrame(pre, ops[1..], Step(ops[0], st));
    }
  }

  // Text is only ever added.
  lemma {:induction false} RunExtends(ops: seq<Op>, st: State)
    ensures st.out <= Run(ops, st).out
  {
    if ops != [] {
      RunExtends(ops[1..], Step(ops[0], st));
    }
  }

  // ----- The page: an independent account of the same layout, line by line -----

  // indent counts the blanks in front of the first text of the line.
  datatype PageLine = Empty | Filled(indent: nat, body: string)

  datatype Page = Page(done: seq<PageLine>, cur: PageLine, depth: nat, gap: bool)

  function Append(p: Page, s: string): Page {
    match p.cur
    case Empty => p.(cur := Filled(p.depth + if p.gap then 1 else 0, s), gap := false)
    case Filled(i, b) => p.(cur := Filled(i, b + (if p.gap then " " else "") + s), gap := false)
  }

  function PageStep(op: Op, p: Page): Page {
    match op
    case Text(s) => Append(p, s)
    case Line => Page(p.done + [p.cur], Empty, p.depth, false)
    case Nbsp => p.(gap := true)
    case Indent => p.(depth := p.depth + 2)
    case Outdent => p.(depth := Shallower(p.depth))
    case LParen => Append(p, "(").(depth := p.depth + 2)
    case RParen => Append(p.(depth := Shallower(p.depth), gap := false), ")")
  }

  function PageRun(ops: seq<Op>, p: Page): Page {
    if ops == [] then p else PageRun(ops[1..], PageStep(ops[0], p))
  }

  function RenderLine(l: PageLine): string {
    match l
    case Empty => ""
    case Filled(i, b) => Blanks(i) + b
  }

  function RenderLines(ls: seq<PageLine>): string {
    if ls == [] then "" else RenderLines(ls[..|ls| - 1]) + RenderLine(ls[|ls| - 1]) + "\n"
  }

  function Render(p: Page): string {
    RenderLines(p.done) + RenderLine(p.cur)
  }

  predicate Agree(p: Page, st: State) {
    && st.out == Render(p)
    && st.depth == p.depth
    && st.spaces == (if p.gap then 1 else 0)
    && st.blank == p.cur.Empty?
  }

  lemma AppendAgrees(p: Page, st: State, s: string)
    requires Agree(p, st)
    ensures Agree(Append(p, s), Write(st, s))
  {
    var front, w := RenderLines(p.done), Pending(st);
    match p.cur
    case Empty =>
      Nil(front);
      Assoc(front, w, s);
    case Filled(i, b) =>
      var x := Blanks(i);
      assert w == (if p.gap then " " else "");
      Assoc(front, x + b, w);
      Assoc(x, b, w);
      Assoc(front, x + (b + w), s);
      Assoc(x, b + w, s);
  }

  lemma {:induction false} LayoutFollowsPage(ops: seq<Op>, p: Page, st: State)
    requires Agree(p, st)
    ensures Agree(PageRun(ops, p), Run(ops, st))
  {
    if ops != [] {
      var st', p' := Step(ops[0], st), PageStep(ops[0], p);
      match ops[0] {
        case Text(s) => AppendAgrees(p, st, s);
        case Line =>
          assert p'.done[..|p'.done| - 1] == p.done;
          Nil(RenderLines(p'.done));
        case LParen => AppendAgrees(p, st, "(");
        case RParen =>
          AppendAgrees(p.(depth := Shallower(p.depth), gap := false),
                       st.(depth := Shallower(st.depth), spaces := 0), ")");
        case _ =>
      }
      LayoutFollowsPage(ops[1..], p', st');
    }
  }

  // Every run of a new engine renders the page: each line that has text is indented by the depth in
  // force at its first text, plus the pending space, and every other line is empty.
  lemma LayoutIsThePage(ops: seq<Op>)
    ensures Run(ops, State("", 0, 0, true)).out == Render(PageRun(ops, Page([], Empty, 0, false)))
  {
    LayoutFollowsPage(ops, Page([], Empty, 0, false), State("", 0, 0, true));
  }

  // ----- No line ends in a blank that the engine inserted -----

  predicate PlainChunk(op: Op) {
    op.Text? ==> op.s != "" && '\n' !in op.s && op.s[|op.s| - 1] != ' '
  }

  // Every blank is followed by another character of its line.
  predicate NoTrailingBlank(out: string) {
    forall i :: 0 <= i < |out| && out[i] == ' ' ==> i + 1 < |out| && out[i + 1] != '\n'
  }

  lemma {:induction false} NoTrailingBlanks(ops: seq<Op>, st: State)
    requires NoTrailingBlank(st.out)
    requires forall i :: 0 <= i < |ops| ==> PlainChunk(ops[i])
    ensures NoTrailingBlank(Run(ops, st).out)
  {
    if ops != [] {
      assert PlainChunk(ops[0]);
      NoTrailingBlanks(ops[1..], Step(ops[0], st));
    }
  }

  // ----- The engine itself -----

  // The characters of a number: parentheses around a negative one, then the scope if any.
  function SignedText(v: int): string {
    if v < 0 then "(-" + Numeral(-v) + ")" else Numeral(v)
  }

  function ScopeText(scope: string): string {
    if scope == "" then "" else "%" + scope
  }

  function NumberText(v: int, scope: string): string {
    SignedText(v) + ScopeText(scope)
  }

  class Formatter {
    var out: string
    var depth: nat
    var spaces: nat
    var blank: bool

    ghost function View(): State
      reads this
    {
      State(out, depth, spaces, blank)
    }

    constructor ()
      ensures View() == State("", 0, 0, true)
    {
      out, depth, spaces, blank := "", 0, 0, true;
    }

    method NewLine()
      modifies this
      ensures View() == Step(Line, old(View()))
    {
      out := out + "\n";
      blank := true;
      spaces := 0;
    }

    method NoBreak()
      modifies this
      ensures View() == Write(old(View()), "")
    {
      if blank {
        var d := depth;
        while d > 0
          invariant 0 <= d <= depth
          invariant out == old(out) + Blanks(depth - d)
          invariant depth == old(depth) && spaces == old(spaces) && blank == old(blank)
        {
          out := out + " ";
          d := d - 1;
        }
        blank := false;
      }
      ghost var start := if old(blank) then depth else 0;
      assert out == old(out) + Blanks(start);
      while spaces > 0
        invariant 0 <= spaces <= old(spaces)
        invariant out == old(out) + Blanks(start + (old(spaces) - spaces))
        invariant depth == old(depth) && !blank
      {
        out := out + " ";
        spaces := spaces - 1;
      }
    }

    method AddNbsp()
      modifies this
      ensures View() == Step(Nbsp, old(View()))
    {
      spaces := 1;
    }

    method AddIndent()
      modifies this
      ensures View() == Step(Indent, old(View()))
    {
      depth := depth + 2;
    }

    method AddOutdent()
      requires depth >= 2
      modifies this
      ensures View() == Step(Outdent, old(View()))
    {
      depth := depth - 2;
    }

    method ClearSpaces()
      modifies this
      ensures View() == old(View()).(spaces := 0)
    {
      spaces := 0;
    }

    // `operator<<` on a chunk of text
    method Put(s: string)
      modifies this
      ensures View() == Step(Text(s), old(View()))
      // right after another chunk, a chunk is contiguous
      ensures old(spaces) == 0 && !old(blank) ==> out == old(out) + s
    {
      NoBreak();
      out := out + s;
      blank := false;
    }

    method OpenParen()
      modifies this
      ensures View() == Step(LParen, old(View()))
    {
      NoBreak();
      out := out + "(";
      AddIndent();
    }

    method CloseParen()
      requires depth >= 2
      modifies this
      ensures View() == Step(RParen, old(View()))
    {
      AddOutdent();
      ClearSpaces();
      NoBreak();
      out := out + ")";
    }

    method PutCons()
      modifies this
      ensures View() == Step(Nbsp, Step(Text("::"), Step(Nbsp, old(View()))))
    {
      AddNbsp();
      Put("::");
      AddNbsp();
    }

    method PutTupleSep()
      modifies this
      ensures View() == Step(Nbsp, Step(Text(","), old(View())))
    {
      Put(",");
      AddNbsp();
    }

    method PutNumber(v: int, scope: string)
      modifies this
      ensures View() == Step(Text(NumberText(v, scope)), old(View()))
    {
      NoBreak();
      Assoc(out, SignedText(v), ScopeText(scope));
      PutSigned(v);
      PutScope(scope);
    }

    method PutScope(scope: string)
      modifies this`out
      ensures out == old(out) + ScopeText(scope)
    {
      if scope != "" {
        out := out + "%" + scope;
        Assoc(old(out), "%", scope);
      } else {
        Nil(out);
      }
    }

    method PutSigned(v: int)
      modifies this`out
      ensures out == old(out) + SignedText(v)
    {
      if v < 0 {
        ghost var start, digits := out, "-" + Numeral(-v);
        out := out + "(";
        out := out + ("-" + Numeral(-v));
        out := out + ")";
        Assoc4(start, "(", digits, ")");
        Assoc("(", "-", Numeral(-v));
        assert "(-" == "(" + "-";
      } else {
        out := out + Numeral(v);
      }
    }
  }
}
