/** The printed names of the parameters of a function. */
module ParamNaming {
  import opened Decimal
  import opened Sequences
  import opened Wrappers

  // The identifier of each parameter; None for an unnamed one.
  type Params = seq<Option<string>>

  // How many parameters directly before i carry the same identifier (parameters expanded from one
  // pack do).
  function Offset(ps: Params, i: nat): nat
    requires i < |ps|
  {
    if i > 0 && ps[i - 1] == ps[i] then 1 + Offset(ps, i - 1) else 0
  }

  function Named(x: string, offset: nat): string {
    "\"" + x + (if offset == 0 then "" else "..." + Numeral(offset)) + "\""
  }

  function NameOf(ps: Params, i: nat): string
    requires i < |ps|
  {
    match ps[i]
    case Some(x) => Named(x, Offset(ps, i))
    case None => "(localname.anon " + Numeral(i) + ")"
  }

  // The search of printParamName for the parameter at place target.
  method PrintParamName(ps: Params, target: nat) returns (name: string)
    requires target < |ps|
    ensures name == NameOf(ps, target)
  {
    var i := 0;
    var info: Option<string> := None;     // the null identifier
    var offset := 0;
    while true
      invariant 0 <= i <= target
      invariant i > 0 ==> info == ps[i - 1]
      invariant i > 0 && ps[i - 1].Some? ==> offset == Offset(ps, i - 1)
      invariant i == 0 ==> info == None
      decreases target - i
    {
      if ps[i] == info {
        offset := offset + 1;
      } else {
        offset := 0;
      }
      if i == target {
        match ps[i] {
          case Some(x) =>
            name := "\"" + x;
            if offset != 0 {
              name := name + "..." + Numeral(offset);
              Assoc("\"" + x, "...", Numeral(offset));
            } else {
              Nil("\"" + x);
            }
            name := name + "\"";
          case None => name := "(localname.anon " + Numeral(i) + ")";
        }
        return;
      }
      info := ps[i];
      i := i + 1;
    }
  }

  // ----- When the names are pairwise distinct -----

  // Parameters with the same identifier are next to each other.
  ghost predicate Contiguous(ps: Params) {
    forall i, j, k :: 0 <= i < j < k < |ps| && ps[i].Some? && ps[i] == ps[k] ==> ps[j] == ps[i]
  }

  ghost predicate NoDots(ps: Params) {
    forall i :: 0 <= i < |ps| && ps[i].Some? ==> '.' !in ps[i].value
  }

  ghost predicate NamesDistinct(ps: Params) {
    forall i, j :: 0 <= i < j < |ps| ==> NameOf(ps, i) != NameOf(ps, j)
  }

  lemma {:induction false} OffsetBound(ps: Params, i: nat)
    requires i < |ps|
    ensures Offset(ps, i) <= i && forall k :: i - Offset(ps, i) <= k <= i ==> ps[k] == ps[i]
    ensures Offset(ps, i) < i ==> ps[i - Offset(ps, i) - 1] != ps[i]
  {
    if i > 0 && ps[i - 1] == ps[i] {
      OffsetBound(ps, i - 1);
    }
  }

  // The suffix of a printed name.
  function Suffix(offset: nat): string {
    if offset == 0 then "" else "..." + Numeral(offset)
  }

  // The longest prefix without a dot.
  function BeforeDot(s: string): string {
    if s == "" || s[0] == '.' then "" else [s[0]] + BeforeDot(s[1..])
  }

  lemma {:induction false} BeforeSuffix(x: string, offset: nat)
    requires '.' !in x
    ensures BeforeDot(x + Suffix(offset)) == x
  {
    if x == "" {
      Nil(Suffix(offset));
    } else {
      assert (x + Suffix(offset))[1..] == x[1..] + Suffix(offset);
      BeforeSuffix(x[1..], offset);
    }
  }

  // A printed name determines the identifier and the offset.
  lemma NamedInjective(x: string, m: nat, y: string, n: nat)
    requires Named(x, m) == Named(y, n) && '.' !in x && '.' !in y
    ensures x == y && m == n
  {
    var a, b := x + Suffix(m), y + Suffix(n);
    Assoc("\"", x, Suffix(m));
    Assoc("\"", y, Suffix(n));
    assert a == Named(x, m)[1..|Named(x, m)| - 1] && b == Named(y, n)[1..|Named(y, n)| - 1];
    BeforeSuffix(x, m);
    BeforeSuffix(y, n);
    assert Suffix(m) == a[|x|..] && Suffix(n) == b[|y|..];
    if m > 0 && n > 0 {
      assert Numeral(m) == Suffix(m)[3..] && Numeral(n) == Suffix(n)[3..];
      NumeralInjective(m, n);
    }
  }

  lemma AnonInjective(i: nat, j: nat)
    requires "(localname.anon " + Numeral(i) + ")" == "(localname.anon " + Numeral(j) + ")"
    ensures i == j
  {
    var front := "(localname.anon ";
    var a, b := front + Numeral(i) + ")", front + Numeral(j) + ")";
    assert Numeral(i) == a[|front|..|a| - 1] && Numeral(j) == b[|front|..|b| - 1];
    NumeralInjective(i, j);
  }

  lemma ContiguousDistinct(ps: Params, i: nat, j: nat)
    requires NoDots(ps) && Contiguous(ps) && i < j < |ps|
    ensures NameOf(ps, i) != NameOf(ps, j)
  {
    if NameOf(ps, i) == NameOf(ps, j) {
      assert ps[i].Some? ==> NameOf(ps, i)[0] == '"';
      assert ps[i].None? ==> NameOf(ps, i)[0] == '(';
      assert ps[j].Some? ==> NameOf(ps, j)[0] == '"';
      assert ps[j].None? ==> NameOf(ps, j)[0] == '(';
      if ps[i].Some? && ps[j].Some? {
        NamedInjective(ps[i].value, Offset(ps, i), ps[j].value, Offset(ps, j));
        OffsetBound(ps, i);
        OffsetBound(ps, j);
        assert false;
      } else if ps[i].None? && ps[j].None? {
        AnonInjective(i, j);
        assert false;
      }
    }
  }

  // The first parameter of every block of equal identifiers has offset 0, so two blocks clash.
  lemma SeparatedClash(ps: Params, i: nat, j: nat, k: nat)
    requires i < j < k < |ps| && ps[i].Some? && ps[i] == ps[k] && ps[j] != ps[i]
    ensures exists a, b :: 0 <= a < b < |ps| && NameOf(ps, a) == NameOf(ps, b)
  {
    OffsetBound(ps, i);
    OffsetBound(ps, k);
    var a, b := i - Offset(ps, i), k - Offset(ps, k);
    assert ps[a] == ps[i] && ps[b] == ps[k];
    assert Offset(ps, a) == 0 && Offset(ps, b) == 0;
    assert j < b;
    assert NameOf(ps, a) == NameOf(ps, b);
  }

  // For identifiers without dots the printed names are pairwise distinct, unnamed parameters included,
  // exactly when equal identifiers are contiguous.
  lemma DistinctIffContiguous(ps: Params)
    requires NoDots(ps)
    ensures NamesDistinct(ps) <==> Contiguous(ps)
  {
    if Contiguous(ps) {
      forall i, j | 0 <= i < j < |ps| ensures NameOf(ps, i) != NameOf(ps, j) {
        ContiguousDistinct(ps, i, j);
      }
    } else {
      var i, j, k :| 0 <= i < j < k < |ps| && ps[i].Some? && ps[i] == ps[k] && ps[j] != ps[i];
      SeparatedClash(ps, i, j, k);
    }
  }
}
