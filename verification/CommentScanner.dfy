/** Scanning a block of source text for comments: runs of line comments, and block comments. */
module CommentScanning {

  const NPOS: nat := 0xFFFF_FFFF_FFFF_FFFF     // the largest 64-bit unsigned number

  // n + 1 as the unsigned type computes it
  function After(n: nat): nat {
    if n == NPOS then 0 else n + 1
  }

  // The text fits in memory.
  type Block = s: string | |s| < NPOS witness ""

  predicate At(block: string, i: int, p: string) {
    0 <= i && i + |p| <= |block| && block[i..i + |p|] == p
  }

  // StringRef::find
  function Find(block: Block, p: string, from: nat): (r: nat)
    requires p != ""
    ensures r == NPOS || (from <= r && At(block, r, p))
    ensures forall i :: from <= i < r ==> !At(block, i, p)
    decreases |block| - from
  {
    if from + |p| > |block| then NPOS
    else if block[from..from + |p|] == p then from
    else Find(block, p, from + 1)
  }

  const SLASHES: string := "//"
  const OPEN: string := "/*"
  const CLOSE: string := "*/"
  const NEWLINE: string := "\n"

  lemma TwoCharacters(block: string, i: int, a: char, b: char)
    ensures At(block, i, [a, b]) <==> 0 <= i && i + 2 <= |block| && block[i] == a && block[i + 1] == b
  {
    if 0 <= i && i + 2 <= |block| {
      assert block[i..i + 2] == [block[i], block[i + 1]];
    }
  }

  lemma OneCharacter(block: string, i: int, a: char)
    ensures At(block, i, [a]) <==> 0 <= i < |block| && block[i] == a
  {
    if 0 <= i < |block| {
      assert block[i..i + 1] == [block[i]];
    }
  }

  // ----- What a comment is -----

  // The line after the newline at eol holds a `//`.
  predicate NextLineCommented(block: Block, eol: nat) {
    var c := Find(block, SLASHES, eol + 1);
    c != NPOS && Find(block, NEWLINE, eol + 1) > c
  }

  // A maximal run of lines, from the one of first: every line after the first holds a `//`, and the
  // line after the last does not.
  ghost predicate IsRun(block: Block, first: nat, end: nat) {
    && first <= end && At(block, end, NEWLINE)
    && (forall q :: first <= q < end && At(block, q, NEWLINE) ==> NextLineCommented(block, q))
    && !NextLineCommented(block, end)
  }

  // Every `//` from here on has a newline after it.
  predicate LinesEnd(block: Block, from: nat) {
    forall i :: from <= i < |block| && At(block, i, SLASHES) ==> Find(block, NEWLINE, i) != NPOS
  }

  datatype Span = Span(first: nat, end: nat)

  ghost predicate IsComment(block: Block, s: Span) {
    && s.first < s.end <= |block|
    && if At(block, s.first, SLASHES) then IsRun(block, s.first, s.end)
       else At(block, s.first, OPEN) && s.end == Find(block, CLOSE, s.first) + 2
  }

  // No comment starts in the gap.
  ghost predicate NoOpener(block: string, from: nat, to: nat) {
    forall i :: from <= i < to ==> !At(block, i, SLASHES) && !At(block, i, OPEN)
  }

  // The run goes at least as far as eol.
  ghost predicate InRun(block: Block, first: nat, eol: nat) {
    && first < eol < |block| && At(block, eol, NEWLINE)
    && forall q :: first <= q < eol && At(block, q, NEWLINE) ==> NextLineCommented(block, q)
  }

  // The run does not hit the end of the text.
  ghost predicate RunEnds(block: Block, first: nat) {
    exists e :: IsRun(block, first, e)
  }

  lemma FirstLine(block: Block, first: nat)
    requires At(block, first, SLASHES) && Find(block, NEWLINE, first) != NPOS
    ensures InRun(block, first, Find(block, NEWLINE, first))
  {
    TwoCharacters(block, first, '/', '/');
    OneCharacter(block, first, '\n');
  }

  lemma AnotherLine(block: Block, first: nat, eol: nat)
    requires InRun(block, first, eol) && NextLineCommented(block, eol)
    requires Find(block, NEWLINE, Find(block, SLASHES, eol + 1)) != NPOS
    ensures var end := Find(block, NEWLINE, Find(block, SLASHES, eol + 1)); eol < end && InRun(block, first, end)
  {
    var next := Find(block, SLASHES, eol + 1);
    var end := Find(block, NEWLINE, next);
    assert At(block, next, SLASHES);
    assert forall q :: eol + 1 <= q <= next ==> !At(block, q, NEWLINE);
  }

  // Inside a run that ends, every line ends.
  lemma LineEndsInRun(block: Block, first: nat, eol: nat, end: nat)
    requires IsRun(block, first, end) && InRun(block, first, eol) && eol <= end && NextLineCommented(block, eol)
    ensures Find(block, NEWLINE, Find(block, SLASHES, eol + 1)) <= end
  {
    assert eol != end && Find(block, NEWLINE, eol + 1) <= end;
  }

  // ----- The loop over a run of line comments, whether the run ends or not -----

  // The loop of parseLineComment turns again after the newline at eol, and then goes to another.
  predicate TurnsAgain(block: Block, eol: nat) {
    var next := Find(block, SLASHES, After(eol));
    next != NPOS && Find(block, NEWLINE, After(eol)) > next
  }

  function Turn(block: Block, eol: nat): nat {
    Find(block, NEWLINE, Find(block, SLASHES, After(eol)))
  }

  predicate ReturnsWithin(block: Block, eol: nat, n: nat)
    decreases n
  {
    !TurnsAgain(block, eol) || (n > 0 && ReturnsWithin(block, Turn(block, eol), n - 1))
  }

  ghost predicate Returns(block: Block, eol: nat) {
    exists n: nat :: ReturnsWithin(block, eol, n)
  }

  lemma OneTurn(block: Block, eol: nat)
    requires TurnsAgain(block, eol)
    ensures Returns(block, eol) <==> Returns(block, Turn(block, eol))
  {
    if Returns(block, eol) {
      var n: nat :| ReturnsWithin(block, eol, n);
      assert ReturnsWithin(block, Turn(block, eol), n - 1);
    }
    if Returns(block, Turn(block, eol)) {
      var n: nat :| ReturnsWithin(block, Turn(block, eol), n);
      assert ReturnsWithin(block, eol, n + 1);
    }
  }

  lemma EndsHere(block: Block, first: nat, eol: nat)
    requires InRun(block, first, eol) && !NextLineCommented(block, eol)
    ensures RunEnds(block, first)
  {
    assert IsRun(block, first, eol);
  }

  // In a run that ends the loop returns; in another it comes to npos, and so to the start of the text.
  lemma {:induction false} ToTheEnd(block: Block, first: nat, eol: nat)
    requires InRun(block, first, eol)
    ensures Returns(block, eol) <==> RunEnds(block, first) || Returns(block, NPOS)
    decreases |block| - eol
  {
    if !NextLineCommented(block, eol) {
      assert IsRun(block, first, eol);
      assert ReturnsWithin(block, eol, 0);
    } else {
      OneTurn(block, eol);
      if Turn(block, eol) == NPOS {
        if RunEnds(block, first) {
          var end :| IsRun(block, first, end);
          LineEndsInRun(block, first, eol, end);
        }
      } else {
        AnotherLine(block, first, eol);
        ToTheEnd(block, first, Turn(block, eol));
      }
    }
  }

  // From there it goes on for ever if the first run of the text does not end either.
  lemma {:induction false} NeverReturns(block: Block, first: nat, eol: nat, n: nat)
    requires eol == NPOS || InRun(block, first, eol)
    requires !RunEnds(block, first) && TurnsAgain(block, NPOS)
    requires Turn(block, NPOS) == NPOS || InRun(block, first, Turn(block, NPOS))
    ensures !ReturnsWithin(block, eol, n)
    decreases n
  {
    if eol != NPOS {
      if !NextLineCommented(block, eol) {
        EndsHere(block, first, eol);
      } else if Turn(block, eol) != NPOS {
        AnotherLine(block, first, eol);
      }
    }
    if n > 0 {
      NeverReturns(block, first, Turn(block, eol), n - 1);
    }
  }

  // Behind the last newline the loop goes on from the start of the text.
  lemma FromTheStart(block: Block, first: nat)
    requires At(block, first, SLASHES)
    ensures var start := Find(block, SLASHES, 0);
            && (Find(block, NEWLINE, 0) < start ==> !TurnsAgain(block, NPOS))
            && (Find(block, NEWLINE, 0) >= start ==>
                  && At(block, start, SLASHES) && TurnsAgain(block, NPOS)
                  && Turn(block, NPOS) == Find(block, NEWLINE, start))
  {
    var start := Find(block, SLASHES, 0);
    assert start <= first && At(block, start, SLASHES);
    TwoCharacters(block, start, '/', '/');
    OneCharacter(block, start, '\n');
  }

  // A run with no newline behind its opener does not end.
  lemma NoNewline(block: Block, first: nat)
    requires Find(block, NEWLINE, first) == NPOS
    ensures !RunEnds(block, first)
  {
    assert forall e: nat :: first <= e < NPOS ==> !At(block, e, NEWLINE);
    assert forall e: nat :: At(block, e, NEWLINE) ==> e < NPOS;
  }

  lemma StartReturnsIff(block: Block, first: nat)
    requires At(block, first, SLASHES)
    ensures var start := Find(block, SLASHES, 0);
            Returns(block, NPOS) <==> Find(block, NEWLINE, 0) < start || RunEnds(block, start)
  {
    var start := Find(block, SLASHES, 0);
    FromTheStart(block, first);
    if Find(block, NEWLINE, 0) < start {
      assert ReturnsWithin(block, NPOS, 0);
    } else {
      OneTurn(block, NPOS);
      if Turn(block, NPOS) == NPOS {
        NoNewline(block, start);
      } else {
        FirstLine(block, start);
        ToTheEnd(block, start, Turn(block, NPOS));
      }
      if !RunEnds(block, start) && Returns(block, NPOS) {
        var n: nat :| ReturnsWithin(block, NPOS, n);
        NeverReturns(block, start, NPOS, n);
      }
    }
  }

  // The loop returns if and only if the run ends, or else the text has a newline before its first `//`
  // or the run from there ends.
  lemma LineCommentReturnsIff(block: Block, first: nat)
    requires At(block, first, SLASHES)
    ensures var start := Find(block, SLASHES, 0);
            Returns(block, Find(block, NEWLINE, first))
            <==> RunEnds(block, first) || Find(block, NEWLINE, 0) < start || RunEnds(block, start)
  {
    StartReturnsIff(block, first);
    if Find(block, NEWLINE, first) == NPOS {
      NoNewline(block, first);
    } else {
      FirstLine(block, first);
      ToTheEnd(block, first, Find(block, NEWLINE, first));
    }
  }

  // The shortest text on which it does not: a line comment, and nothing else.
  lemma LoneLineCommentHangs()
    ensures At(SLASHES, 0, SLASHES) && !Returns(SLASHES, Find(SLASHES, NEWLINE, 0))
  {
    var block: Block := SLASHES;
    TwoCharacters(block, 0, '/', '/');
    forall i ensures !At(block, i, NEWLINE) {
      OneCharacter(block, i, '\n');
    }
    assert Find(block, SLASHES, 0) == 0;
    NoNewline(block, 0);
    LineCommentReturnsIff(block, 0);
  }

  // ----- What it returns -----

  ghost function LastEol(block: Block, eol: nat, n: nat): nat
    requires ReturnsWithin(block, eol, n)
    decreases n
  {
    if !TurnsAgain(block, eol) then eol else LastEol(block, Turn(block, eol), n - 1)
  }

  // The end of the run, or npos, or the end of the first run of the text.
  ghost predicate EndsLine(block: Block, first: nat, eol: nat) {
    var start := Find(block, SLASHES, 0);
    if RunEnds(block, first) then IsRun(block, first, eol)
    else if Find(block, NEWLINE, 0) < start then eol == NPOS
    else IsRun(block, start, eol)
  }

  lemma {:induction false} LastEolOfRun(block: Block, first: nat, eol: nat, n: nat)
    requires InRun(block, first, eol) && ReturnsWithin(block, eol, n)
    ensures RunEnds(block, first) ==> IsRun(block, first, LastEol(block, eol, n))
    ensures !RunEnds(block, first) ==>
              exists k: nat :: ReturnsWithin(block, NPOS, k) && LastEol(block, eol, n) == LastEol(block, NPOS, k)
    decreases n
  {
    if !TurnsAgain(block, eol) {
      assert IsRun(block, first, eol);
    } else if Turn(block, eol) == NPOS {
      if RunEnds(block, first) {
        var end :| IsRun(block, first, end);
        LineEndsInRun(block, first, eol, end);
      }
      assert ReturnsWithin(block, NPOS, n - 1);
    } else {
      AnotherLine(block, first, eol);
      LastEolOfRun(block, first, Turn(block, eol), n - 1);
    }
  }

  lemma LastEolFromStart(block: Block, first: nat, n: nat)
    requires At(block, first, SLASHES) && ReturnsWithin(block, NPOS, n) && !RunEnds(block, first)
    ensures EndsLine(block, first, LastEol(block, NPOS, n))
  {
    var start := Find(block, SLASHES, 0);
    FromTheStart(block, first);
    if Find(block, NEWLINE, 0) >= start {
      assert Returns(block, NPOS);
      StartReturnsIff(block, first);
      if Turn(block, NPOS) == NPOS {
        NoNewline(block, start);
      } else {
        FirstLine(block, start);
        LastEolOfRun(block, start, Turn(block, NPOS), n - 1);
      }
    }
  }

  lemma LastEolEndsLine(block: Block, first: nat, n: nat)
    requires At(block, first, SLASHES) && ReturnsWithin(block, Find(block, NEWLINE, first), n)
    ensures EndsLine(block, first, LastEol(block, Find(block, NEWLINE, first), n))
  {
    var eol := Find(block, NEWLINE, first);
    if eol == NPOS {
      NoNewline(block, first);
      LastEolFromStart(block, first, n);
    } else {
      FirstLine(block, first);
      LastEolOfRun(block, first, eol, n);
      if !RunEnds(block, first) {
        var k: nat :| ReturnsWithin(block, NPOS, k) && LastEol(block, eol, n) == LastEol(block, NPOS, k);
        LastEolFromStart(block, first, k);
      }
    }
  }

  // ----- The scanner -----

  // The comment ahead ends: the run of line comments, or the block comment.
  ghost predicate Scannable(block: Block, offset: nat) {
    var line, para := Find(block, SLASHES, offset), Find(block, OPEN, offset);
    && (line < para ==> RunEnds(block, line))
    && (para < line ==> Find(block, CLOSE, para) != NPOS)
  }

  // The loop over the run of line comments ahead, if one is next, returns.
  ghost predicate CallReturns(block: Block, offset: nat) {
    var line := Find(block, SLASHES, offset);
    line < Find(block, OPEN, offset) ==> Returns(block, Find(block, NEWLINE, line))
  }

  // StringRef::substr(first, end - first): up to the end of the text if the difference wraps around.
  function Substr(block: Block, first: nat, end: nat): string
    requires first <= |block|
  {
    if first <= end <= |block| then block[first..end] else block[first..]
  }

  lemma ScannableReturns(block: Block, offset: nat)
    requires Scannable(block, offset)
    ensures CallReturns(block, offset)
  {
    var line := Find(block, SLASHES, offset);
    if line < Find(block, OPEN, offset) {
      LineCommentReturnsIff(block, line);
    }
  }

  class CommentScanner {
    const block: Block
    var offset: nat

    constructor (block: Block)
      ensures this.block == block && offset == 0
    {
      this.block, offset := block, 0;
    }

    // assert(eol != npos && "end of line necessary"), where assertions are on
    method ParseLineComment(first: nat) returns (eol: nat)
      requires At(block, first, SLASHES) && Returns(block, Find(block, NEWLINE, first))
      ensures EndsLine(block, first, eol)
    {
      eol := Find(block, NEWLINE, first);
      ghost var n: nat :| ReturnsWithin(block, eol, n);
      ghost var last := LastEol(block, eol, n);
      LastEolEndsLine(block, first, n);
      var next := Find(block, SLASHES, After(eol));
      while next != NPOS && Find(block, NEWLINE, After(eol)) > next
        invariant ReturnsWithin(block, eol, n) && LastEol(block, eol, n) == last
        invariant next == Find(block, SLASHES, After(eol))
        decreases n
      {
        eol := Find(block, NEWLINE, next);
        next := Find(block, SLASHES, After(eol));
        n := n - 1;
      }
    }

    // assert(closing != npos && "open block comment without close"), where assertions are on
    method ParseBlockComment(first: nat) returns (end: nat)
      ensures end == After(After(Find(block, CLOSE, first)))
      ensures Find(block, CLOSE, first) != NPOS ==> end == Find(block, CLOSE, first) + 2
    {
      end := After(After(Find(block, CLOSE, first)));
      ClosingFits(block, first);
    }

    method Next() returns (found: bool, result: string, ghost first: nat)
      requires CallReturns(block, offset)
      modifies this
      ensures found <==> Find(block, SLASHES, old(offset)) != NPOS || Find(block, OPEN, old(offset)) != NPOS
      ensures !found ==> offset == old(offset) && NoOpener(block, offset, |block|)
      ensures found ==>
                && FirstOpener(block, old(offset), first) && result == Substr(block, first, offset)
                && (At(block, first, SLASHES) ==> EndsLine(block, first, offset))
                && (At(block, first, OPEN) ==> offset == After(After(Find(block, CLOSE, first))))
      ensures found && Scannable(block, old(offset)) ==>
                && Span(first, offset) == NextSpan(block, old(offset)) && IsComment(block, Span(first, offset))
                && result == block[first..offset]
    {
      var line, para := Find(block, SLASHES, offset), Find(block, OPEN, offset);
      first := if line < para then line else para;
      FirstIs(block, offset, first);
      if line == NPOS && para == NPOS {
        return false, "", first;
      } else if line < para {
        var end := ParseLineComment(line);
        if Scannable(block, offset) {
          RunIsUnique(block, line, end, RunEnd(block, line));
        }
        result := SubstrOf(line, end);
        offset := end;
        found := true;
      } else if para < line {
        var end := ParseBlockComment(para);
        ClosingFits(block, para);
        result := SubstrOf(para, end);
        offset := end;
        found := true;
      } else {
        TwoCharacters(block, para, '/', '*');
        TwoCharacters(block, para, '/', '/');
        assert false;
      }
    }

    // substr clips its second argument to the rest of the text.
    method SubstrOf(first: nat, end: nat) returns (result: string)
      requires first <= |block|
      ensures result == Substr(block, first, end)
    {
      result := if first <= end <= |block| then block[first..end] else block[first..];
    }
  }

  lemma ClosingFits(block: Block, first: nat)
    ensures var closing := Find(block, CLOSE, first);
            closing != NPOS ==> closing + 2 <= |block| && After(After(closing)) == closing + 2
  {
  }

  // ----- A whole scan -----

  datatype Scan = Comments(spans: seq<Span>) | Failed

  // The end of the comment that a call from offset returns, if it is one.
  ghost function NextSpan(block: Block, offset: nat): (s: Span)
    requires Scannable(block, offset)
    requires Find(block, SLASHES, offset) != NPOS || Find(block, OPEN, offset) != NPOS
    ensures offset <= s.first && IsComment(block, s) && NoOpener(block, offset, s.first)
  {
    var line, para := Find(block, SLASHES, offset), Find(block, OPEN, offset);
    TwoCharacters(block, para, '/', '*');
    TwoCharacters(block, para, '/', '/');
    TwoCharacters(block, line, '/', '/');
    if line < para then Span(line, RunEnd(block, line))
    else Span(para, Find(block, CLOSE, para) + 2)
  }

  // The last newline of the run.
  ghost function RunEnd(block: Block, first: nat): (e: nat)
    requires At(block, first, SLASHES) && RunEnds(block, first)
    ensures IsRun(block, first, e) && first < e < |block|
  {
    TwoCharacters(block, first, '/', '/');
    OneCharacter(block, first, '\n');
    var e :| IsRun(block, first, e);
    e
  }

  // The run from a given start has one end, so every call returns this span.
  lemma RunIsUnique(block: Block, first: nat, a: nat, b: nat)
    requires IsRun(block, first, a) && IsRun(block, first, b)
    ensures a == b
  {
  }

  // A call moves on behind the opener of a line comment if and only if the run ends, or the text has a
  // newline before its first `//`; otherwise it goes back, to the end of the first run of the text.
  lemma LineCallMovesOnIff(block: Block, first: nat, eol: nat)
    requires At(block, first, SLASHES) && EndsLine(block, first, eol)
    ensures first < eol <==> RunEnds(block, first) || Find(block, NEWLINE, 0) < Find(block, SLASHES, 0)
    ensures eol <= first ==> eol < first
  {
    var start := Find(block, SLASHES, 0);
    assert start <= first;
    TwoCharacters(block, first, '/', '/');
    OneCharacter(block, first, '\n');
    if !RunEnds(block, first) && Find(block, NEWLINE, 0) >= start && first <= eol {
      assert IsRun(block, first, eol);
    }
  }

  // Two runs, of which the second has no newline behind its last line.
  const TWO_RUNS: Block := "//\n\n//\n//"

  // Although the assertions hold, every call after the first returns the second run again.
  lemma EndlessScan()
    ensures var end, line := Find(TWO_RUNS, NEWLINE, 0), 4;
            && FirstOpener(TWO_RUNS, 0, 0) && IsRun(TWO_RUNS, 0, end)
            && FirstOpener(TWO_RUNS, end, line) && At(TWO_RUNS, line, SLASHES)
            && Find(TWO_RUNS, NEWLINE, line) != NPOS && CallReturns(TWO_RUNS, end)
            && forall eol: nat :: EndsLine(TWO_RUNS, line, eol) ==> eol == end
  {
    OpenersOfTwoRuns();
    NewlinesOfTwoRuns();
    FirstOfTwoRuns();
    SecondOfTwoRuns();
    LineCommentReturnsIff(TWO_RUNS, 4);
    assert Find(TWO_RUNS, NEWLINE, 0) == 2 && Find(TWO_RUNS, NEWLINE, 4) == 6;
    assert FirstOpener(TWO_RUNS, 0, 0) && FirstOpener(TWO_RUNS, 2, 4);
    forall eol: nat | EndsLine(TWO_RUNS, 4, eol) ensures eol == 2 {
      RunIsUnique(TWO_RUNS, 0, eol, 2);
    }
  }

  lemma FirstOfTwoRuns()
    ensures IsRun(TWO_RUNS, 0, 2)
  {
    OpenersOfTwoRuns();
    NewlinesOfTwoRuns();
    assert Find(TWO_RUNS, SLASHES, 3) == 4 && Find(TWO_RUNS, NEWLINE, 3) == 3;
  }

  lemma SecondOfTwoRuns()
    ensures !RunEnds(TWO_RUNS, 4)
  {
    OpenersOfTwoRuns();
    NewlinesOfTwoRuns();
    assert Find(TWO_RUNS, SLASHES, 7) == 7 && Find(TWO_RUNS, NEWLINE, 7) == NPOS;
    assert forall e: nat :: IsRun(TWO_RUNS, 4, e) ==> e == 6;
  }

  lemma OpenersOfTwoRuns()
    ensures forall i: nat :: At(TWO_RUNS, i, SLASHES) <==> i == 0 || i == 4 || i == 7
    ensures forall i: nat :: !At(TWO_RUNS, i, OPEN)
  {
    forall i: nat ensures At(TWO_RUNS, i, SLASHES) <==> i == 0 || i == 4 || i == 7 {
      TwoCharacters(TWO_RUNS, i, '/', '/');
    }
    forall i: nat ensures !At(TWO_RUNS, i, OPEN) {
      TwoCharacters(TWO_RUNS, i, '/', '*');
    }
  }

  lemma NewlinesOfTwoRuns()
    ensures forall i: nat :: At(TWO_RUNS, i, NEWLINE) <==> i == 2 || i == 3 || i == 6
  {
    forall i: nat ensures At(TWO_RUNS, i, NEWLINE) <==> i == 2 || i == 3 || i == 6 {
      OneCharacter(TWO_RUNS, i, '\n');
    }
  }

  // Calling `next` until it finds nothing. Every comment ends after it starts, so this terminates.
  ghost function ScanFrom(block: Block, offset: nat): Scan
    decreases |block| - offset
  {
    if !Scannable(block, offset) then Failed
    else if Find(block, SLASHES, offset) == NPOS && Find(block, OPEN, offset) == NPOS then Comments([])
    else
      var s := NextSpan(block, offset);
      match ScanFrom(block, s.end)
      case Failed => Failed
      case Comments(rest) => Comments([s] + rest)
  }

  // Comments in bounds and in order, without an opener before, between or after them.
  ghost predicate Covers(block: Block, offset: nat, spans: seq<Span>)
    decreases |spans|
  {
    if spans == [] then NoOpener(block, offset, |block|)
    else
      && offset <= spans[0].first && IsComment(block, spans[0]) && NoOpener(block, offset, spans[0].first)
      && Covers(block, spans[0].end, spans[1..])
  }

  lemma {:induction false} ScanCovers(block: Block, offset: nat)
    ensures var r := ScanFrom(block, offset); r.Comments? ==> Covers(block, offset, r.spans)
    decreases |block| - offset
  {
    if Scannable(block, offset) && (Find(block, SLASHES, offset) != NPOS || Find(block, OPEN, offset) != NPOS) {
      var s := NextSpan(block, offset);
      ScanCovers(block, s.end);
      if ScanFrom(block, s.end).Comments? {
        assert ([s] + ScanFrom(block, s.end).spans)[1..] == ScanFrom(block, s.end).spans;
      }
    }
  }

  // In a covering list the comments are pairwise disjoint, in order.
  lemma {:induction false} CoveredInOrder(block: Block, offset: nat, spans: seq<Span>, i: nat, j: nat)
    requires Covers(block, offset, spans) && i < j < |spans|
    ensures offset <= spans[i].first < spans[i].end <= spans[j].first < spans[j].end <= |block|
    decreases j
  {
    if i > 0 {
      CoveredInOrder(block, spans[0].end, spans[1..], i - 1, j - 1);
    } else if j > 1 {
      CoveredInOrder(block, spans[0].end, spans[1..], 0, j - 1);
    }
  }

  // ----- Exactly which text is scanned to its end -----

  ghost predicate FirstOpener(block: Block, from: nat, p: nat) {
    from <= p < |block| && (At(block, p, SLASHES) || At(block, p, OPEN)) && NoOpener(block, from, p)
  }

  // The scan from offset comes to the opener at p, after the comments of spans.
  ghost predicate Reaches(block: Block, offset: nat, spans: seq<Span>, p: nat)
    decreases |spans|
  {
    if spans == [] then FirstOpener(block, offset, p)
    else
      && FirstOpener(block, offset, spans[0].first) && IsComment(block, spans[0])
      && Reaches(block, spans[0].end, spans[1..], p)
  }

  // A `//` that the run from first comes to: its own, or that of another line.
  ghost predicate RunOpener(block: Block, first: nat, q: nat) {
    q == first ||
    exists eol: nat :: InRun(block, first, eol) && NextLineCommented(block, eol) && q == Find(block, SLASHES, eol + 1)
  }

  // The comment at an opener ends: each `//` of a run has a later newline, a block comment its `*/`.
  ghost predicate Ends(block: Block, p: nat) {
    && (At(block, p, SLASHES) ==> forall q :: RunOpener(block, p, q) ==> Find(block, NEWLINE, q) != NPOS)
    && (At(block, p, OPEN) ==> Find(block, CLOSE, p) != NPOS)
  }

  ghost predicate EveryCommentEnds(block: Block, offset: nat) {
    forall spans: seq<Span>, p: nat :: Reaches(block, offset, spans, p) ==> Ends(block, p)
  }

  lemma {:induction false} RunGoesOn(block: Block, first: nat, eol: nat)
    requires InRun(block, first, eol)
    requires forall q :: RunOpener(block, first, q) ==> Find(block, NEWLINE, q) != NPOS
    ensures RunEnds(block, first)
    decreases |block| - eol
  {
    if !NextLineCommented(block, eol) {
      assert IsRun(block, first, eol);
    } else {
      var next := Find(block, SLASHES, eol + 1);
      assert RunOpener(block, first, next);
      AnotherLine(block, first, eol);
      RunGoesOn(block, first, Find(block, NEWLINE, next));
    }
  }

  lemma RunEndsIff(block: Block, first: nat)
    requires At(block, first, SLASHES)
    ensures RunEnds(block, first) <==> forall q :: RunOpener(block, first, q) ==> Find(block, NEWLINE, q) != NPOS
  {
    if RunEnds(block, first) {
      var end := RunEnd(block, first);
      forall q | RunOpener(block, first, q) ensures Find(block, NEWLINE, q) != NPOS {
        if q != first {
          var eol: nat :|
            InRun(block, first, eol) && NextLineCommented(block, eol) && q == Find(block, SLASHES, eol + 1);
          LineEndsInRun(block, first, eol, end);
        }
      }
    } else if forall q :: RunOpener(block, first, q) ==> Find(block, NEWLINE, q) != NPOS {
      assert RunOpener(block, first, first);
      FirstLine(block, first);
      RunGoesOn(block, first, Find(block, NEWLINE, first));
    }
  }

  lemma FirstIs(block: Block, offset: nat, p: nat)
    ensures var line, para := Find(block, SLASHES, offset), Find(block, OPEN, offset);
            FirstOpener(block, offset, p) <==> p != NPOS && p == if line < para then line else para
  {
    TwoCharacters(block, p, '/', '*');
    TwoCharacters(block, p, '/', '/');
  }

  // One call succeeds exactly if the comment at the first opener, if any, ends.
  lemma ScannableIff(block: Block, offset: nat)
    ensures Scannable(block, offset) <==> forall p :: FirstOpener(block, offset, p) ==> Ends(block, p)
  {
    var line, para := Find(block, SLASHES, offset), Find(block, OPEN, offset);
    forall p: nat ensures FirstOpener(block, offset, p) <==> p != NPOS && p == if line < para then line else para {
      FirstIs(block, offset, p);
    }
    if line < para {
      TwoCharacters(block, line, '/', '*');
      TwoCharacters(block, line, '/', '/');
      RunEndsIff(block, line);
      assert FirstOpener(block, offset, line);
    } else if para < line {
      TwoCharacters(block, para, '/', '*');
      TwoCharacters(block, para, '/', '/');
      assert FirstOpener(block, offset, para);
    } else if line != NPOS {
      TwoCharacters(block, line, '/', '/');
      TwoCharacters(block, line, '/', '*');
      assert false;
    }
  }

  // A call returns the comment at the first opener.
  lemma NextIsFirst(block: Block, offset: nat, s: Span)
    requires Scannable(block, offset) && FirstOpener(block, offset, s.first) && IsComment(block, s)
    ensures Find(block, SLASHES, offset) != NPOS || Find(block, OPEN, offset) != NPOS
    ensures s == NextSpan(block, offset)
  {
    var n := NextSpan(block, offset);
    assert n.first == s.first;
    if At(block, s.first, SLASHES) {
      RunIsUnique(block, s.first, s.end, n.end);
    }
  }

  lemma {:induction false} ScannedEnds(block: Block, offset: nat, spans: seq<Span>, p: nat)
    requires ScanFrom(block, offset).Comments? && Reaches(block, offset, spans, p)
    ensures Ends(block, p)
    decreases |spans|
  {
    if spans == [] {
      ScannableIff(block, offset);
    } else {
      NextIsFirst(block, offset, spans[0]);
      ScannedEnds(block, spans[0].end, spans[1..], p);
    }
  }

  lemma {:induction false} EndsScanned(block: Block, offset: nat)
    requires EveryCommentEnds(block, offset)
    ensures ScanFrom(block, offset).Comments?
    decreases |block| - offset
  {
    assert forall p :: FirstOpener(block, offset, p) ==> Reaches(block, offset, [], p);
    ScannableIff(block, offset);
    if Find(block, SLASHES, offset) != NPOS || Find(block, OPEN, offset) != NPOS {
      var s := NextSpan(block, offset);
      forall spans: seq<Span>, p: nat | Reaches(block, s.end, spans, p) ensures Ends(block, p) {
        assert ([s] + spans)[1..] == spans;
        assert Reaches(block, offset, [s] + spans, p);
      }
      EndsScanned(block, s.end);
    }
  }

  // Text is scanned to its end if and only if every comment ends that the scan comes to.
  lemma ScannedIff(block: Block, offset: nat)
    ensures ScanFrom(block, offset).Comments? <==> EveryCommentEnds(block, offset)
  {
    if ScanFrom(block, offset).Comments? {
      forall spans: seq<Span>, p: nat | Reaches(block, offset, spans, p) ensures Ends(block, p) {
        ScannedEnds(block, offset, spans, p);
      }
    } else if EveryCommentEnds(block, offset) {
      EndsScanned(block, offset);
    }
  }

  // The shortest text that is not: a block comment that never closes.
  lemma OpenCommentIsNotScanned()
    ensures !ScanFrom(OPEN, 0).Comments? && !EveryCommentEnds(OPEN, 0)
  {
    forall i: nat ensures !At(OPEN, i, SLASHES) && !At(OPEN, i, CLOSE) {
      TwoCharacters(OPEN, i, '/', '/');
      TwoCharacters(OPEN, i, '*', '/');
    }
    TwoCharacters(OPEN, 0, '/', '*');
    assert Find(OPEN, OPEN, 0) == 0;
    ScannedIff(OPEN, 0);
  }

  // In particular text in which every line comment ends and every block comment closes.
  lemma WellFormedTextIsScanned(block: Block, offset: nat)
    requires LinesEnd(block, offset)
    requires forall i :: offset <= i < |block| && At(block, i, OPEN) ==> Find(block, CLOSE, i) != NPOS
    ensures ScanFrom(block, offset).Comments?
  {
    forall spans: seq<Span>, p: nat | Reaches(block, offset, spans, p) ensures Ends(block, p) {
      ReachesForward(block, offset, spans, p);
      forall q: nat | RunOpener(block, p, q) && At(block, p, SLASHES) ensures Find(block, NEWLINE, q) != NPOS {
        assert p <= q && At(block, q, SLASHES);
      }
    }
    EndsScanned(block, offset);
  }

  lemma {:induction false} ReachesForward(block: Block, offset: nat, spans: seq<Span>, p: nat)
    requires Reaches(block, offset, spans, p)
    ensures offset <= p < |block|
    decreases |spans|
  {
    if spans != [] {
      ReachesForward(block, spans[0].end, spans[1..], p);
    }
  }

  // ----- Whether repeated calls come to the end of the text, with assertions off -----

  // What a call from one offset leaves in the scanner, if it returns.
  ghost predicate Moves(block: Block, offset: nat, to: nat) {
    exists p: nat :: FirstOpener(block, offset, p) && MovesFrom(block, p, to)
  }

  ghost predicate MovesFrom(block: Block, p: nat, to: nat) {
    if At(block, p, SLASHES) then EndsLine(block, p, to) else to == After(After(Find(block, CLOSE, p)))
  }

  ghost predicate Done(block: Block, offset: nat) {
    forall p: nat :: !FirstOpener(block, offset, p)
  }

  ghost predicate FinishesIn(block: Block, offset: nat, n: nat)
    decreases n
  {
    Done(block, offset) || (n > 0 && exists to: nat :: Moves(block, offset, to) && FinishesIn(block, to, n - 1))
  }

  ghost predicate Finishes(block: Block, offset: nat) {
    exists n: nat :: FinishesIn(block, offset, n)
  }

  lemma MoveIsUnique(block: Block, offset: nat, a: nat, b: nat)
    requires Moves(block, offset, a) && Moves(block, offset, b)
    ensures a == b
  {
    var p: nat :| FirstOpener(block, offset, p) && MovesFrom(block, p, a);
    var q: nat :| FirstOpener(block, offset, q) && MovesFrom(block, q, b);
    FirstIs(block, offset, p);
    FirstIs(block, offset, q);
    if At(block, p, SLASHES) && RunEnds(block, p) {
      RunIsUnique(block, p, a, b);
    } else if At(block, p, SLASHES) && Find(block, NEWLINE, 0) >= Find(block, SLASHES, 0) {
      RunIsUnique(block, Find(block, SLASHES, 0), a, b);
    }
  }

  // One call less.
  lemma AfterOneCall(block: Block, offset: nat, to: nat, n: nat)
    requires Moves(block, offset, to)
    ensures FinishesIn(block, offset, n) <==> n > 0 && FinishesIn(block, to, n - 1)
  {
    if n > 0 && FinishesIn(block, offset, n) {
      var t: nat :| Moves(block, offset, t) && FinishesIn(block, t, n - 1);
      MoveIsUnique(block, offset, t, to);
    }
  }

  // A call over a comment that ends.
  lemma CommentMoves(block: Block, offset: nat, s: Span)
    requires FirstOpener(block, offset, s.first) && IsComment(block, s)
    ensures Moves(block, offset, s.end)
  {
    TwoCharacters(block, s.first, '/', '/');
    TwoCharacters(block, s.first, '/', '*');
    if At(block, s.first, SLASHES) {
      assert RunEnds(block, s.first);
    } else {
      ClosingFits(block, s.first);
    }
    assert MovesFrom(block, s.first, s.end);
  }

  function OffsetAfter(offset: nat, spans: seq<Span>): nat {
    if spans == [] then offset else spans[|spans| - 1].end
  }

  lemma {:induction false} Reached(block: Block, offset: nat, spans: seq<Span>, p: nat)
    requires Reaches(block, offset, spans, p)
    ensures FirstOpener(block, OffsetAfter(offset, spans), p)
    decreases |spans|
  {
    if spans != [] {
      assert OffsetAfter(offset, spans) == OffsetAfter(spans[0].end, spans[1..]);
      Reached(block, spans[0].end, spans[1..], p);
    }
  }

  // The calls before the opener at p is reached.
  lemma {:induction false} AfterCalls(block: Block, offset: nat, spans: seq<Span>, p: nat, n: nat)
    requires Reaches(block, offset, spans, p)
    ensures FinishesIn(block, offset, n)
            <==> n >= |spans| && FinishesIn(block, OffsetAfter(offset, spans), n - |spans|)
    decreases |spans|
  {
    if spans != [] {
      CommentMoves(block, offset, spans[0]);
      AfterOneCall(block, offset, spans[0].end, n);
      if n > 0 {
        var rest := spans[1..];
        assert OffsetAfter(offset, spans) == OffsetAfter(spans[0].end, rest);
        AfterCalls(block, spans[0].end, rest, p, n - 1);
      }
    }
  }

  // Where every comment ends the calls come to the end.
  lemma {:induction false} EndsFinish(block: Block, offset: nat) returns (n: nat)
    requires EveryCommentEnds(block, offset)
    ensures FinishesIn(block, offset, n)
    decreases |block| - offset
  {
    if p: nat :| FirstOpener(block, offset, p) {
      assert Reaches(block, offset, [], p);
      ScannableIff(block, offset);
      FirstIs(block, offset, p);
      EndsScanned(block, offset);
      var s := NextSpan(block, offset);
      FirstIs(block, offset, s.first);
      forall spans: seq<Span>, q: nat | Reaches(block, s.end, spans, q) ensures Ends(block, q) {
        assert ([s] + spans)[1..] == spans;
        assert Reaches(block, offset, [s] + spans, q);
      }
      CommentMoves(block, offset, s);
      n := EndsFinish(block, s.end);
      n := n + 1;
    } else {
      n := 0;
    }
  }

  // A run that does not end, in a text with a newline before its first `//`: its rest is the last comment.
  lemma UnendedRunFinishes(block: Block, offset: nat, spans: seq<Span>, p: nat)
    requires Reaches(block, offset, spans, p) && At(block, p, SLASHES) && !Ends(block, p)
    requires Find(block, NEWLINE, 0) < Find(block, SLASHES, 0)
    ensures Finishes(block, offset)
  {
    var last := OffsetAfter(offset, spans);
    Reached(block, offset, spans, p);
    AfterCalls(block, offset, spans, p, |spans| + 1);
    RunEndsIff(block, p);
    TwoCharacters(block, p, '/', '/');
    TwoCharacters(block, p, '/', '*');
    assert MovesFrom(block, p, NPOS);
    assert Moves(block, last, NPOS);
    assert Done(block, NPOS);
    AfterOneCall(block, last, NPOS, 1);
    assert FinishesIn(block, offset, |spans| + 1);
  }

  // In a text that opens with a line comment, and has no newline before it, a run that does not end leads
  // back to the end of the first run, for ever; or its loop never returns.
  lemma {:induction false} NeverFinishes(block: Block, spans: seq<Span>, p: nat, n: nat)
    requires Reaches(block, 0, spans, p) && At(block, p, SLASHES) && !Ends(block, p)
    requires FirstOpener(block, 0, Find(block, SLASHES, 0)) && Find(block, SLASHES, 0) <= Find(block, NEWLINE, 0)
    ensures !FinishesIn(block, 0, n)
    decreases n
  {
    var start, last := Find(block, SLASHES, 0), OffsetAfter(0, spans);
    Reached(block, 0, spans, p);
    AfterCalls(block, 0, spans, p, n);
    RunEndsIff(block, p);
    if n >= |spans| && FinishesIn(block, last, n - |spans|) {
      assert !Done(block, last);
      var to: nat :| Moves(block, last, to) && FinishesIn(block, to, n - |spans| - 1);
      BackToTheFirst(block, spans, p, to);
      CommentMoves(block, 0, spans[0]);
      AfterOneCall(block, 0, to, n - |spans|);
      NeverFinishes(block, spans, p, n - |spans|);
    }
  }

  lemma BackToTheFirst(block: Block, spans: seq<Span>, p: nat, to: nat)
    requires Reaches(block, 0, spans, p) && At(block, p, SLASHES) && !Ends(block, p)
    requires FirstOpener(block, 0, Find(block, SLASHES, 0)) && Find(block, SLASHES, 0) <= Find(block, NEWLINE, 0)
    requires Moves(block, OffsetAfter(0, spans), to)
    ensures spans != [] && to == spans[0].end
  {
    Reached(block, 0, spans, p);
    RunEndsIff(block, p);
    GoesBack(block, OffsetAfter(0, spans), p, to);
    if spans != [] {
      FirstOfSpans(block, spans, p, to);
    }
  }

  lemma GoesBack(block: Block, offset: nat, p: nat, to: nat)
    requires FirstOpener(block, offset, p) && At(block, p, SLASHES) && !RunEnds(block, p)
    requires Find(block, SLASHES, 0) <= Find(block, NEWLINE, 0) && Moves(block, offset, to)
    ensures IsRun(block, Find(block, SLASHES, 0), to) && RunEnds(block, Find(block, SLASHES, 0))
  {
    var q: nat :| FirstOpener(block, offset, q) && MovesFrom(block, q, to);
    OpenersAgree(block, offset, p, q);
  }

  lemma OpenersAgree(block: Block, offset: nat, p: nat, q: nat)
    requires FirstOpener(block, offset, p) && FirstOpener(block, offset, q)
    ensures p == q
  {
    FirstIs(block, offset, p);
    FirstIs(block, offset, q);
  }

  lemma FirstOfSpans(block: Block, spans: seq<Span>, p: nat, to: nat)
    requires Reaches(block, 0, spans, p) && spans != []
    requires FirstOpener(block, 0, Find(block, SLASHES, 0)) && IsRun(block, Find(block, SLASHES, 0), to)
    ensures to == spans[0].end
  {
    var start := Find(block, SLASHES, 0);
    OpenersAgree(block, 0, start, spans[0].first);
    RunIsUnique(block, start, to, spans[0].end);
  }

  // Every block comment closes that the scan comes to, as the assertion demands.
  ghost predicate BlocksEnd(block: Block) {
    forall spans: seq<Span>, p: nat ::
      Reaches(block, 0, spans, p) && At(block, p, OPEN) ==> Find(block, CLOSE, p) != NPOS
  }

  // So a text that opens with a line comment is scanned to its end if and only if every comment ends, or
  // it has a newline before its first `//`.
  lemma FinishesIff(block: Block)
    requires BlocksEnd(block) && FirstOpener(block, 0, Find(block, SLASHES, 0))
    ensures Finishes(block, 0)
            <==> EveryCommentEnds(block, 0) || Find(block, NEWLINE, 0) < Find(block, SLASHES, 0)
  {
    if EveryCommentEnds(block, 0) {
      var n := EndsFinish(block, 0);
    } else {
      var spans: seq<Span>, p: nat :| Reaches(block, 0, spans, p) && !Ends(block, p);
      assert At(block, p, SLASHES);
      if Find(block, NEWLINE, 0) < Find(block, SLASHES, 0) {
        UnendedRunFinishes(block, 0, spans, p);
      } else if Finishes(block, 0) {
        var n: nat :| FinishesIn(block, 0, n);
        NeverFinishes(block, spans, p, n);
      }
    }
  }

  // A block comment that does not close sends the scan back to offset 1.
  lemma UnclosedMoves(block: Block, offset: nat, spans: seq<Span>, p: nat)
    requires Reaches(block, offset, spans, p) && At(block, p, OPEN) && Find(block, CLOSE, p) == NPOS
    ensures Moves(block, OffsetAfter(offset, spans), 1)
  {
    Reached(block, offset, spans, p);
    TwoCharacters(block, p, '/', '/');
    TwoCharacters(block, p, '/', '*');
    assert MovesFrom(block, p, 1);
  }

  lemma RestartCalls(block: Block, offset: nat, spans: seq<Span>, p: nat, to: nat, n: nat)
    requires Reaches(block, offset, spans, p) && Moves(block, OffsetAfter(offset, spans), to)
    ensures FinishesIn(block, offset, n) <==> n > |spans| && FinishesIn(block, to, n - |spans| - 1)
  {
    AfterCalls(block, offset, spans, p, n);
    if n >= |spans| {
      AfterOneCall(block, OffsetAfter(offset, spans), to, n - |spans|);
    }
  }

  lemma RestartFinishes(block: Block, offset: nat, spans: seq<Span>, p: nat, to: nat)
    requires Reaches(block, offset, spans, p) && Moves(block, OffsetAfter(offset, spans), to)
    ensures Finishes(block, offset) <==> Finishes(block, to)
  {
    if Finishes(block, offset) {
      var n: nat :| FinishesIn(block, offset, n);
      RestartCalls(block, offset, spans, p, to, n);
    }
    if Finishes(block, to) {
      var n: nat :| FinishesIn(block, to, n);
      RestartCalls(block, offset, spans, p, to, n + |spans| + 1);
    }
  }

  lemma UnclosedRestarts(block: Block, offset: nat, spans: seq<Span>, p: nat)
    requires Reaches(block, offset, spans, p) && At(block, p, OPEN) && Find(block, CLOSE, p) == NPOS
    ensures Finishes(block, offset) <==> Finishes(block, 1)
  {
    UnclosedMoves(block, offset, spans, p);
    RestartFinishes(block, offset, spans, p, 1);
  }

  // So an open comment at the start of the text ends the scan, and one behind a blank repeats it for ever.
  const OPEN_BEHIND_BLANK: Block := " /*"

  lemma OpenCommentAtStart()
    ensures Finishes(OPEN, 0)
  {
    forall i: nat ensures !At(OPEN, i, SLASHES) && !At(OPEN, i, CLOSE) && (At(OPEN, i, OPEN) <==> i == 0) {
      TwoCharacters(OPEN, i, '/', '/');
      TwoCharacters(OPEN, i, '*', '/');
      TwoCharacters(OPEN, i, '/', '*');
    }
    assert Reaches(OPEN, 0, [], 0);
    assert Done(OPEN, 1);
    assert FinishesIn(OPEN, 1, 0);
    UnclosedRestarts(OPEN, 0, [], 0);
  }

  lemma OpenCommentBehindBlank()
    ensures !Finishes(OPEN_BEHIND_BLANK, 0)
  {
    if Finishes(OPEN_BEHIND_BLANK, 0) {
      var n: nat :| FinishesIn(OPEN_BEHIND_BLANK, 0, n);
      RepeatsForEver(0, n);
    }
  }

  lemma {:induction false} RepeatsForEver(offset: nat, n: nat)
    requires offset <= 1
    ensures !FinishesIn(OPEN_BEHIND_BLANK, offset, n)
    decreases n
  {
    var block := OPEN_BEHIND_BLANK;
    forall i: nat ensures !At(block, i, SLASHES) && !At(block, i, CLOSE) && (At(block, i, OPEN) <==> i == 1) {
      TwoCharacters(block, i, '/', '/');
      TwoCharacters(block, i, '*', '/');
      TwoCharacters(block, i, '/', '*');
    }
    assert FirstOpener(block, offset, 1) && MovesFrom(block, 1, 1);
    assert Moves(block, offset, 1);
    AfterOneCall(block, offset, 1, n);
    if n > 0 {
      RepeatsForEver(1, n - 1);
    }
  }

  // ----- Where a block comment ends -----

  // The search for the end of a block comment starts at its opener, so `/*/` counts as closed. It is
  // where C++ closes the comment, searching behind the opener, exactly when no `/` follows the opener.
  lemma ClosesWhereCppDoes(block: Block, first: nat)
    requires At(block, first, OPEN)
    ensures Find(block, CLOSE, first) == Find(block, CLOSE, first + 2)
            <==> !(first + 2 < |block| && block[first + 2] == '/')
  {
    TwoCharacters(block, first, '/', '*');
    TwoCharacters(block, first, '*', '/');
    TwoCharacters(block, first + 1, '*', '/');
    var a, b := Find(block, CLOSE, first), Find(block, CLOSE, first + 2);
    assert !At(block, first, CLOSE);
    assert At(block, first + 1, CLOSE) <==> first + 2 < |block| && block[first + 2] == '/';
    assert a == (if At(block, first + 1, CLOSE) then first + 1 else b);
  }

  // The shortest such text, which C++ does not close at all.
  lemma SlashStarSlash()
    ensures var block: Block := "/*/";
            At(block, 0, OPEN) && Find(block, CLOSE, 0) == 1 && Find(block, CLOSE, 2) == NPOS
  {
    var block: Block := "/*/";
    TwoCharacters(block, 0, '/', '*');
    ClosesWhereCppDoes(block, 0);
    forall i: nat ensures At(block, i, CLOSE) <==> i == 1 {
      TwoCharacters(block, i, '*', '/');
    }
  }
}
