/** Decoding the bytes of a string literal into code units of one, two or four bytes, and printing them. */
module StringLiterals {
  import opened Decimal
  import opened Formatting
  import opened Lexing
  import opened Printing
  import opened Reading
  import opened Sequences

  newtype Byte = b: int | 0 <= b < 256

  // getCharByteWidth
  type Width = w: nat | w == 1 || w == 2 || w == 4 witness 1

  const WORD: nat := 0x1_0000_0000_0000_0000     // unsigned long long

  // (acc << 8) | b: the low byte of the shifted word is empty
  function Shift(acc: nat, b: Byte): nat {
    (acc * 256) % WORD + b as nat
  }

  function Power(width: nat): nat {
    if width == 0 then 1 else 256 * Power(width - 1)
  }

  // The value of a group with its most significant byte first.
  function BigValue(g: seq<Byte>): nat {
    if g == [] then 0 else BigValue(g[..|g| - 1]) * 256 + g[|g| - 1] as nat
  }

  function Reversed(g: seq<Byte>): (r: seq<Byte>)
    ensures |r| == |g| && forall i :: 0 <= i < |g| ==> r[i] == g[|g| - 1 - i]
  {
    seq(|g|, i requires 0 <= i < |g| => g[|g| - 1 - i])
  }

  function UnitOf(g: seq<Byte>, big: bool): nat {
    if big then BigValue(g) else BigValue(Reversed(g))
  }

  // The code units of a literal whose length is a multiple of the width.
  function Units(bytes: seq<Byte>, width: Width, big: bool): seq<nat>
    requires |bytes| % width == 0
    decreases |bytes|
  {
    if bytes == [] then []
    else
      FirstGroup(bytes, width);
      [UnitOf(bytes[..width], big)] + Units(bytes[width..], width, big)
  }

  lemma FirstGroup<T>(bytes: seq<T>, width: Width)
    requires |bytes| % width == 0 && bytes != []
    ensures width <= |bytes| && |bytes[width..]| % width == 0 && |bytes| / width == 1 + |bytes[width..]| / width
  {
    if width == 1 {
    } else if width == 2 {
    } else {
      assert width == 4;
    }
  }

  // ----- The loop -----

  lemma {:induction false} BigValueFits(g: seq<Byte>)
    ensures BigValue(g) < Power(|g|)
  {
    if g != [] {
      BigValueFits(g[..|g| - 1]);
    }
  }

  lemma {:induction false} PowerGrows(a: nat, b: nat)
    requires a <= b
    ensures Power(a) <= Power(b)
    decreases b
  {
    if a < b {
      PowerGrows(a, b - 1);
    }
  }

  lemma SmallMod(x: nat, m: nat)
    requires x < m
    ensures x % m == x
  {
  }

  // No bits are shifted out of a word while a unit of up to four bytes is built.
  lemma ShiftBuilds(g: seq<Byte>, b: Byte)
    requires |g| < 4
    ensures Shift(BigValue(g), b) == BigValue(g + [b])
  {
    BigValueFits(g);
    PowerGrows(|g|, 3);
    assert Power(3) == 0x100_0000;
    SmallMod(BigValue(g) * 256, WORD);
    assert (g + [b])[..|g|] == g;
  }

  // The loop of the big-endian arm.
  method BigUnit(bytes: seq<Byte>, start: nat, width: Width) returns (unit: nat)
    requires start + width <= |bytes|
    ensures unit == BigValue(bytes[start..][..width])
  {
    ghost var group := bytes[start..][..width];
    unit := 0;
    var i, j := start, 0;
    while j < width
      invariant 0 <= j <= width && i == start + j
      invariant unit == BigValue(group[..j])
    {
      ShiftBuilds(group[..j], bytes[i]);
      assert group[..j] + [bytes[i]] == group[..j + 1];
      unit := Shift(unit, bytes[i]);
      i := i + 1;
      j := j + 1;
    }
    assert group[..width] == group;
  }

  // The loop of the little-endian arm.
  method LittleUnit(bytes: seq<Byte>, start: nat, width: Width) returns (unit: nat)
    requires start + width <= |bytes|
    ensures unit == BigValue(Reversed(bytes[start..][..width]))
  {
    ghost var back := Reversed(bytes[start..][..width]);
    unit := 0;
    var j := 0;
    while j < width
      invariant 0 <= j <= width
      invariant unit == BigValue(back[..j])
    {
      var b := bytes[start + width - j - 1];
      ShiftBuilds(back[..j], b);
      assert back[..j] + [b] == back[..j + 1];
      unit := Shift(unit, b);
      j := j + 1;
    }
    assert back[..width] == back;
  }

  // ----- What the units are -----

  function BigBytes(v: nat, width: nat): (g: seq<Byte>)
    ensures |g| == width
  {
    if width == 0 then [] else BigBytes(v / 256, width - 1) + [(v % 256) as Byte]
  }

  function Encode(units: seq<nat>, width: nat, big: bool): seq<Byte> {
    if units == [] then []
    else
      var g := BigBytes(units[0], width);
      (if big then g else Reversed(g)) + Encode(units[1..], width, big)
  }

  lemma {:induction false} BytesOfValue(g: seq<Byte>)
    ensures BigBytes(BigValue(g), |g|) == g
  {
    if g != [] {
      BytesOfValue(g[..|g| - 1]);
      assert BigValue(g) / 256 == BigValue(g[..|g| - 1]) && BigValue(g) % 256 == g[|g| - 1] as nat;
      assert g[..|g| - 1] + [g[|g| - 1]] == g;
    }
  }

  lemma GroupRoundTrip(g: seq<Byte>, big: bool)
    ensures var b := BigBytes(UnitOf(g, big), |g|); (if big then b else Reversed(b)) == g
  {
    if big {
      BytesOfValue(g);
    } else {
      BytesOfValue(Reversed(g));
      assert Reversed(Reversed(g)) == g;
    }
  }

  // Re-encoding the units in the same byte order restores the literal.
  lemma {:induction false} EncodeUnits(bytes: seq<Byte>, width: Width, big: bool)
    requires |bytes| % width == 0
    ensures Encode(Units(bytes, width, big), width, big) == bytes
    decreases |bytes|
  {
    if bytes != [] {
      FirstGroup(bytes, width);
      var g, us := bytes[..width], Units(bytes[width..], width, big);
      EncodeUnits(bytes[width..], width, big);
      GroupRoundTrip(g, big);
      Tail(UnitOf(g, big), us);
      assert g + bytes[width..] == bytes;
    }
  }

  // There is one unit per group, below 256^width.
  lemma {:induction false} UnitsInRange(bytes: seq<Byte>, width: Width, big: bool)
    requires |bytes| % width == 0
    ensures |Units(bytes, width, big)| == |bytes| / width
    ensures forall k :: 0 <= k < |Units(bytes, width, big)| ==> Units(bytes, width, big)[k] < Power(width)
    decreases |bytes|
  {
    if bytes != [] {
      FirstGroup(bytes, width);
      UnitsInRange(bytes[width..], width, big);
      BigValueFits(bytes[..width]);
      BigValueFits(Reversed(bytes[..width]));
    }
  }

  function ReversedGroups(bytes: seq<Byte>, width: Width): (r: seq<Byte>)
    requires |bytes| % width == 0
    ensures |r| == |bytes|
    decreases |bytes|
  {
    if bytes == [] then []
    else
      FirstGroup(bytes, width);
      Reversed(bytes[..width]) + ReversedGroups(bytes[width..], width)
  }

  // The two byte orders agree up to reversing every group.
  lemma {:induction false} ByteOrdersAgree(bytes: seq<Byte>, width: Width)
    requires |bytes| % width == 0
    ensures Units(bytes, width, false) == Units(ReversedGroups(bytes, width), width, true)
    decreases |bytes|
  {
    if bytes != [] {
      FirstGroup(bytes, width);
      ByteOrdersAgree(bytes[width..], width);
      var r := ReversedGroups(bytes, width);
      FirstGroup(r, width);
      assert r[..width] == Reversed(bytes[..width]) && r[width..] == ReversedGroups(bytes[width..], width);
    }
  }

  // ----- Printing -----

  function Numbers(units: seq<nat>): seq<Term> {
    if units == [] then [] else [Num(units[0], "N")] + Numbers(units[1..])
  }

  // The printed literal; ty is its character type.
  function LiteralTerm(units: seq<nat>, ty: Term): Term {
    Ctor("Estring", [Arg(false, Seq(Numbers(units), false)), Arg(true, ty)], false)
  }

  lemma {:induction false} NumbersNext(units: seq<nat>, u: nat)
    ensures Numbers(units + [u]) == Numbers(units) + [Num(u, "N")]
  {
    if units == [] {
      assert units + [u] == [u] && [u][1..] == [];
    } else {
      assert (units + [u])[1..] == units[1..] + [u];
      NumbersNext(units[1..], u);
    }
  }

  lemma {:induction false} UnitsAppend(a: seq<Byte>, g: seq<Byte>, width: Width, big: bool)
    requires |a| % width == 0 && |g| == width
    ensures |a + g| % width == 0 && Units(a + g, width, big) == Units(a, width, big) + [UnitOf(g, big)]
    decreases |a|
  {
    LengthAppend(|a|, width);
    if a == [] {
      assert a + g == g && g[..width] == g && g[width..] == [];
    } else {
      FirstGroup(a, width);
      assert (a + g)[..width] == a[..width] && (a + g)[width..] == a[width..] + g;
      UnitsAppend(a[width..], g, width, big);
    }
  }

  lemma LengthAppend(n: nat, width: Width)
    requires n % width == 0
    ensures (n + width) % width == 0
  {
  }

  // What is printed up to the units, and behind them.
  function Front(units: seq<nat>): seq<Op> {
    [LParen, Text("Estring"), Nbsp] + ([LParen] + ElemOps(Numbers(units)))
  }

  function Back(ty: Term): seq<Op> {
    [Text("nil"), RParen] + ([Nbsp] + Ops(ty)) + [RParen]
  }

  lemma LiteralOps(units: seq<nat>, ty: Term)
    ensures Ops(LiteralTerm(units, ty)) == Front(units) + Back(ty)
  {
    var list, head, elems := Seq(Numbers(units), false), [LParen, Text("Estring"), Nbsp], ElemOps(Numbers(units));
    var args := [Arg(false, list), Arg(true, ty)];
    assert args[1..] == [Arg(true, ty)] && args[1..][1..] == [];
    Nil(Ops(list));
    Nil(OneArgOps(args[1]));
    assert ArgOps(args[1..]) == OneArgOps(args[1]);
    assert ArgOps(args) == Ops(list) + ([Nbsp] + Ops(ty));
    assert [] + head == head;
    Assoc([LParen] + elems, [Text("nil"), RParen], [Nbsp] + Ops(ty));
    Assoc(head, [LParen] + elems, [Text("nil"), RParen] + ([Nbsp] + Ops(ty)));
    Assoc(head + ([LParen] + elems), [Text("nil"), RParen] + ([Nbsp] + Ops(ty)), [RParen]);
  }

  lemma FrontNext(units: seq<nat>, u: nat, st: State)
    ensures Run(Front(units + [u]), st) == Run(OneElemOps(Num(u, "N")), Run(Front(units), st))
  {
    var head := [LParen, Text("Estring"), Nbsp];
    NumbersNext(units, u);
    RunAppend(head, [LParen] + ElemOps(Numbers(units + [u])), st);
    RunAppend(head, [LParen] + ElemOps(Numbers(units)), st);
    NextElem(Numbers(units), Num(u, "N"), Run(head, st));
  }

  lemma ClosingDepths(units: seq<nat>, ty: Term, st: State)
    ensures Run(Front(units), st).depth >= 4
    ensures Run(Front(units) + ([Text("nil"), RParen] + ([Nbsp] + Ops(ty))), st).depth >= 2
  {
    var front, rest := Front(units), [Text("nil"), RParen] + ([Nbsp] + Ops(ty));
    LiteralOps(units, ty);
    Balanced(LiteralTerm(units, ty), st.depth);
    Assoc(front, rest, [RParen]);
    SafeAppend(front + rest, [RParen], st.depth);
    RunDepth(front + rest, st);
    FrontDepth(units, st);
  }

  lemma FrontDepth(units: seq<nat>, st: State)
    ensures Run(Front(units), st).depth == st.depth + 4
  {
    var head := [LParen, Text("Estring"), Nbsp];
    RunThree(LParen, Text("Estring"), Nbsp, st);
    RunAppend(head, [LParen] + ElemOps(Numbers(units)), st);
    BalancedElems(Numbers(units), st.depth + 4);
    RunDepth([LParen] + ElemOps(Numbers(units)), Run(head, st));
    assert ([LParen] + ElemOps(Numbers(units)))[1..] == ElemOps(Numbers(units));
  }

  class LiteralPrinter {
    const print_: CoqPrinter

    constructor (p: CoqPrinter)
      ensures print_ == p
    {
      print_ := p;
    }

    method VisitStringLiteral(bytes: seq<Byte>, width: Width, big: bool, ty: Term)
      requires |bytes| % width == 0
      modifies print_.output
      ensures print_.output.View() == Run(Ops(LiteralTerm(Units(bytes, width, big), ty)), old(print_.output.View()))
    {
      ghost var st := print_.output.View();
      print_.BeginCtor("Estring", false);
      print_.BeginList();
      BeginsFront(st);
      var i := 0;
      while i < |bytes|
        invariant 0 <= i <= |bytes| && i % width == 0 && |bytes[..i]| % width == 0
        invariant print_.output.View() == Run(Front(Units(bytes[..i], width, big)), st)
      {
        NextUnit(bytes, i, width, big, st);
        var unit := 0;
        if big {
          unit := BigUnit(bytes, i, width);
        } else {
          unit := LittleUnit(bytes, i, width);
        }
        i := i + width;
        PrintUnit(unit);
      }
      assert bytes[..|bytes|] == bytes;
      Finish(Units(bytes, width, big), ty, st);
    }

    // `end_list`, the type and `end_ctor`
    method Finish(ghost units: seq<nat>, ty: Term, ghost st: State)
      requires print_.output.View() == Run(Front(units), st)
      modifies print_.output
      ensures print_.output.View() == Run(Ops(LiteralTerm(units, ty)), st)
    {
      ghost var front, close := Front(units), [Text("nil"), RParen];
      ClosingDepths(units, ty, st);
      print_.EndList();
      RunAppend(front, close, st);
      print_.output.AddNbsp();
      print_.PrintTerm(ty);
      RunAppend([Nbsp], Ops(ty), Run(front + close, st));
      RunAppend(front + close, [Nbsp] + Ops(ty), st);
      Assoc(front, close, [Nbsp] + Ops(ty));
      print_.EndCtor();
      RunAppend(front + (close + ([Nbsp] + Ops(ty))), [RParen], st);
      Assoc(front, close + ([Nbsp] + Ops(ty)), [RParen]);
      LiteralOps(units, ty);
    }

    // A numeral, its scope and `::`
    method PrintUnit(u: nat)
      modifies print_.output
      ensures print_.output.View() == Run(OneElemOps(Num(u, "N")), old(print_.output.View()))
    {
      ghost var st := print_.output.View();
      print_.output.Put(Numeral(u));
      print_.output.Put("%N");
      TwoChunks(st, Numeral(u), "%N");
      assert "%" + "N" == "%N";
      print_.Cons();
      RunAppend(Ops(Num(u, "N")), [Nbsp, Text("::"), Nbsp], st);
    }
  }

  lemma NextUnit(bytes: seq<Byte>, i: nat, width: Width, big: bool, st: State)
    requires |bytes| % width == 0 && i % width == 0 && i < |bytes| && |bytes[..i]| % width == 0
    ensures i + width <= |bytes| && (i + width) % width == 0 && |bytes[..i + width]| % width == 0
    ensures Run(Front(Units(bytes[..i + width], width, big)), st)
            == Run(OneElemOps(Num(UnitOf(bytes[i..][..width], big), "N")),
                   Run(Front(Units(bytes[..i], width, big)), st))
  {
    GroupFits(i, |bytes|, width);
    var group := bytes[i..][..width];
    UnitsAppend(bytes[..i], group, width, big);
    assert bytes[..i] + group == bytes[..i + width];
    FrontNext(Units(bytes[..i], width, big), UnitOf(group, big), st);
  }

  lemma TwoChunks(st: State, a: string, b: string)
    ensures Write(Write(st, a), b) == Write(st, a + b)
  {
    Assoc(st.out + Pending(st), a, b);
    Nil(st.out + Pending(st) + a);
  }

  lemma BeginsFront(st: State)
    ensures Run([LParen], Run([] + [LParen, Text("Estring"), Nbsp], st)) == Run(Front([]), st)
  {
    var head := [LParen, Text("Estring"), Nbsp];
    assert [] + head == head && Front([]) == head + [LParen];
    RunAppend(head, [LParen], st);
  }

  lemma GroupFits(i: nat, n: nat, width: Width)
    requires i % width == 0 && n % width == 0 && i < n
    ensures i + width <= n && (i + width) % width == 0
  {
  }

  // ----- From the characters back to the bytes -----

  function Values(ts: seq<Term>): seq<nat> {
    if ts == [] then []
    else (if ts[0].Num? && ts[0].v >= 0 then [ts[0].v as nat] else []) + Values(ts[1..])
  }

  // The bytes that a literal stands for.
  function BytesOf(t: Term, width: nat, big: bool): seq<Byte> {
    if t.Ctor? && t.args != [] && t.args[0].t.Seq? then Encode(Values(t.args[0].t.elems), width, big) else []
  }

  lemma {:induction false} ValuesOfNumbers(units: seq<nat>)
    ensures Values(EraseAll(Numbers(units))) == units && WfAll(Numbers(units))
  {
    if units != [] {
      ValuesOfNumbers(units[1..]);
    }
  }

  // From any layout state the characters of a literal read back to one term, which holds every byte
  // and, behind them, the type.
  lemma LiteralReadsBack(bytes: seq<Byte>, width: Width, big: bool, ty: Term, st: State)
    requires |bytes| % width == 0 && Wf(ty)
    ensures var r := Read(Characters(LiteralTerm(Units(bytes, width, big), ty), st));
            && r.Done? && r.rest == [] && BytesOf(r.value, width, big) == bytes
            && r.value.Ctor? && r.value.head == "Estring" && |r.value.args| == 2 && r.value.args[1].t == Erase(ty)
  {
    var units := Units(bytes, width, big);
    ValuesOfNumbers(units);
    EncodeUnits(bytes, width, big);
    LiteralIsWf(units, ty);
    PrintThenRead(LiteralTerm(units, ty), st);
    ErasedLiteral(units, ty, width, big);
  }

  lemma ErasedLiteral(units: seq<nat>, ty: Term, width: nat, big: bool)
    ensures BytesOf(Erase(LiteralTerm(units, ty)), width, big) == Encode(units, width, big)
    ensures var t := Erase(LiteralTerm(units, ty));
            t.Ctor? && t.head == "Estring" && |t.args| == 2 && t.args[1].t == Erase(ty)
  {
    var list := Seq(Numbers(units), false);
    var args := [Arg(false, list), Arg(true, ty)];
    ValuesOfNumbers(units);
    var erased := EraseArgs(args);
    assert erased == [EraseArg(args[0])] + EraseArgs(args[1..]);
    assert erased[0].t == Seq(EraseAll(Numbers(units)), true);
    assert Erase(LiteralTerm(units, ty)) == Ctor("Estring", erased, true);
  }

  lemma LiteralIsWf(units: seq<nat>, ty: Term)
    requires WfAll(Numbers(units)) && Wf(ty)
    ensures Wf(LiteralTerm(units, ty))
  {
    var list := Seq(Numbers(units), false);
    var args := [Arg(false, list), Arg(true, ty)];
    assert args[1..] == [Arg(true, ty)] && args[1..][1..] == [];
    assert WfArg(args[0]) && WfArg(args[1]) && WfArgs([], false, End(ty));
    assert WfArgs([args[1]], false, End(list));
    assert IsWord("Estring");
  }
}
