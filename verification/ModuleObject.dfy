/** The module builder as the program runs it: a visited set and four lists that grow in place. */
module ModuleObjects {
  import opened ModuleBuilding
  import opened ModuleRouting
  import opened Sequences
  import opened Wrappers

  ghost predicate Selected(log: seq<Entry>, decls: seq<Id>, defs: seq<Id>, tdecls: seq<Id>, tdefs: seq<Id>) {
    && decls == Listed(log, Slot(false, false))
    && defs == Listed(log, Slot(false, true))
    && tdecls == Listed(log, Slot(true, false))
    && tdefs == Listed(log, Slot(true, true))
  }

  function Extend(ds: seq<Id>, e: Entry, k: Slot): seq<Id> {
    if GoesTo(e, k) then ds + [e.decl] else ds
  }

  lemma SelectedGrows(log: seq<Entry>, e: Entry, decls: seq<Id>, defs: seq<Id>, tdecls: seq<Id>, tdefs: seq<Id>)
    requires Selected(log, decls, defs, tdecls, tdefs)
    ensures Selected(log + [e], Extend(decls, e, Slot(false, false)), Extend(defs, e, Slot(false, true)),
                     Extend(tdecls, e, Slot(true, false)), Extend(tdefs, e, Slot(true, true)))
  {
    ListedSnoc(log, e, Slot(false, false));
    ListedSnoc(log, e, Slot(false, true));
    ListedSnoc(log, e, Slot(true, false));
    ListedSnoc(log, e, Slot(true, true));
  }

  class Module {
    var declarations: seq<Id>
    var definitions: seq<Id>
    var templateDeclarations: seq<Id>
    var templateDefinitions: seq<Id>
    var asserts: seq<Id>
    ghost var log: seq<Entry>

    // The four lists are selections from the log of all entries.
    ghost predicate Valid()
      reads this
    {
      Selected(log, declarations, definitions, templateDeclarations, templateDefinitions)
    }

    constructor ()
      ensures Valid() && log == [] && asserts == []
    {
      declarations, definitions, templateDeclarations, templateDefinitions, asserts := [], [], [], [], [];
      log := [];
    }

    method AddDefinition(d: Id, f: Flags, ghost owner: Id)
      requires Valid()
      modifies this
      ensures Valid() && log == old(log) + [Entry(d, true, f, owner)] && asserts == old(asserts)
    {
      SelectedGrows(log, Entry(d, true, f, owner), declarations, definitions, templateDeclarations,
                    templateDefinitions);
      if f.inTemplate {
        templateDefinitions := templateDefinitions + [d];
      } else {
        definitions := definitions + [d];
        if f.inSpecialization {
          templateDefinitions := templateDefinitions + [d];
        }
      }
      log := log + [Entry(d, true, f, owner)];
    }

    method AddDeclaration(d: Id, f: Flags, ghost owner: Id)
      requires Valid()
      modifies this
      ensures Valid() && log == old(log) + [Entry(d, false, f, owner)] && asserts == old(asserts)
    {
      SelectedGrows(log, Entry(d, false, f, owner), declarations, definitions, templateDeclarations,
                    templateDefinitions);
      if f.inTemplate {
        templateDeclarations := templateDeclarations + [d];
      } else {
        declarations := declarations + [d];
        if f.inSpecialization {
          templateDeclarations := templateDeclarations + [d];
        }
      }
      log := log + [Entry(d, false, f, owner)];
    }

    method AddAssert(d: Id)
      requires Valid()
      modifies this
      ensures Valid() && log == old(log) && asserts == old(asserts) + [d]
    {
      asserts := asserts + [d];
    }
  }

  // Namespaces and linkage specifications are members of the translation unit, of a namespace or of a
  // linkage specification only.
  predicate Flagless(n: Node) {
    n.Namespace? || n.LinkageSpec?
  }

  ghost predicate Nested(c: Config) {
    forall d, k :: d in c.g && Kid(c, d, k) && k in c.g && Flagless(c.g[k]) ==> Flagless(c.g[d])
  }

  // The example of a befriended function template is such a graph.
  lemma FriendIsNested(c: Config, roots: seq<Id>, friendFirst: bool)
    requires Befriended(c, roots, friendFirst)
    ensures Nested(c)
  {
    FriendKids(c, roots, friendFirst);
  }

  class BuildModule {
    const c: Config
    const roots: seq<Id>
    const output: Module
    var visited: set<Id>

    ghost function View(): State
      reads this, output
    {
      State(visited, output.log, output.asserts)
    }

    constructor (c: Config, roots: seq<Id>, m: Module)
      requires m.log == [] && m.asserts == []
      ensures this.c == c && this.roots == roots && output == m && View() == NEW
    {
      this.c, this.roots, output, visited := c, roots, m, {};
    }

    // `go`: ask the filter, then list the declaration.
    method GoOn(d: Id, f: Flags, definition: bool, ghost owner: Id) returns (what: What)
      requires output.Valid()
      modifies output
      ensures output.Valid() && output.asserts == old(output.asserts)
      ensures output.log == old(output.log) + Entries(Go(c, d, definition), f, owner)
      ensures what == match c.filter(d)
                      case DEFINITION => if definition then DEFINITION else DECLARATION
                      case w => w
    {
      what := c.filter(d);
      match what {
        case DEFINITION =>
          if definition {
            output.AddDefinition(d, f, owner);
          } else {
            output.AddDeclaration(d, f, owner);
            what := DECLARATION;
          }
        case DECLARATION => output.AddDeclaration(d, f, owner);
        case NOTHING =>
      }
    }

    method GoOnAll(ds: seq<Id>, f: Flags, ghost owner: Id)
      requires output.Valid()
      modifies output
      ensures output.Valid() && output.asserts == old(output.asserts)
      ensures output.log == old(output.log) + Entries(GoAll(c, ds), f, owner)
    {
      var i := 0;
      while i < |ds|
        invariant 0 <= i <= |ds|
        invariant output.Valid() && output.asserts == old(output.asserts)
        invariant output.log == old(output.log) + Entries(GoAll(c, ds[..i]), f, owner)
      {
        NextGo(c, old(output.log), ds, i, f, owner);
        var _ := GoOn(ds[i], f, true, owner);
        i := i + 1;
      }
      assert ds[..|ds|] == ds;
    }

    // VisitTagDecl, and the choice that VisitFunctionDecl makes in the same way.
    method GoOnChosen(d: Id, r: Redecl, f: Flags) returns (what: What)
      requires output.Valid()
      modifies output
      ensures output.Valid() && output.asserts == old(output.asserts)
      ensures output.log == old(output.log) + Entries(GoChosen(c, d, r), f, d)
      ensures what.DEFINITION? <==> r.defn == Some(d) && c.filter(d).DEFINITION?
    {
      what := NOTHING;
      if r.defn == Some(d) {
        what := GoOn(d, f, true, d);
      } else if r.defn == None && r.prev == None {
        what := GoOn(d, f, false, d);
      } else {
        assert output.log + [] == output.log;
      }
    }

    method DoVisit(d: Id, f: Flags)
      requires WellFormed(c, roots) && Nested(c) && d in c.g && output.Valid()
      requires Flagless(c.g[d]) ==> f.IsNone()
      modifies this, output
      ensures output.Valid() && View() == Visit(c, roots, old(View()), d, f)
      decreases |Left(c, View())|, 0
    {
      if d !in visited {
        ghost var st := View();
        visited := visited + {d};
        AddAll(d, f);
        assert View() == Enter(c, st, d, f);
        EnterShrinks(c, st, d, f);
        KidsNest(d, f);
        Follow(d, f);
      }
    }

    // The part of every visitor that lists declarations.
    method AddAll(d: Id, f: Flags)
      requires d in c.g && output.Valid()
      modifies output
      ensures output.Valid() && output.log == old(output.log) + Entries(Adds(c, d), f, d)
      ensures output.asserts == old(output.asserts) + if c.g[d].StaticAssert? then [d] else []
    {
      Nil(output.asserts);
      match c.g[d] {
        case StaticAssert =>
          Nil(output.log);
          output.AddAssert(d);
        case Typedef(_, _) => AddTypedef(d, f);
        case CRecord(r) => var _ := GoOnChosen(d, r, f);
        case CxxRecord(_, _, _, _, _) => AddRecord(d, f);
        case Function(_, _, _, _, _) => AddFunction(d, f);
        case Var(_, _, _, _) => AddVariable(d, f);
        case Enum(_, _) => AddEnumeration(d, f);
        case EnumConstant => var _ := GoOn(d, f, true, d);
        case _ => Nil(output.log);
      }
    }

    // VisitTypedefNameDecl
    method AddTypedef(d: Id, f: Flags)
      requires d in c.g && c.g[d].Typedef? && output.Valid()
      modifies output
      ensures output.Valid() && output.asserts == old(output.asserts)
      ensures output.log == old(output.log) + Entries(Adds(c, d), f, d)
    {
      Nil(output.log);
      var n := c.g[d];
      if !n.namesAnonymous && d == n.r.canonical {
        var _ := GoOn(d, f, true, d);
      }
    }

    // VisitCXXRecordDecl
    method AddRecord(d: Id, f: Flags)
      requires d in c.g && c.g[d].CxxRecord? && output.Valid()
      modifies output
      ensures output.Valid() && output.asserts == old(output.asserts)
      ensures output.log == old(output.log) + Entries(Adds(c, d), f, d)
    {
      Nil(output.log);
      var n := c.g[d];
      if !(n.implicit && !n.lambda) && (!n.dependent || c.templates) {
        var _ := GoOnChosen(d, n.r, f);
      }
    }

    // VisitCXXMethodDecl and VisitFunctionDecl
    method AddFunction(d: Id, f: Flags)
      requires d in c.g && c.g[d].Function? && output.Valid()
      modifies output
      ensures output.Valid() && output.asserts == old(output.asserts)
      ensures output.log == old(output.log) + Entries(Adds(c, d), f, d)
    {
      Nil(output.log);
      var n := c.g[d];
      if !(n.isMethod && n.deleted) && !(n.dependent && !c.templates) {
        var _ := GoOnChosen(d, n.r, f);
      }
    }

    method AddVariable(d: Id, f: Flags)
      requires d in c.g && c.g[d].Var? && output.Valid()
      modifies output
      ensures output.Valid() && output.asserts == old(output.asserts)
      ensures output.log == old(output.log) + Entries(Adds(c, d), f, d)
    {
      Nil(output.log);
      var n := c.g[d];
      if !(n.templated && !c.templates) {
        AddVar(d, n.r, f);
      }
    }

    method AddEnumeration(d: Id, f: Flags)
      requires d in c.g && c.g[d].Enum? && output.Valid()
      modifies output
      ensures output.Valid() && output.asserts == old(output.asserts)
      ensures output.log == old(output.log) + Entries(Adds(c, d), f, d)
    {
      Nil(output.log);
      var n := c.g[d];
      if d == n.r.canonical {
        AddEnum(d, n.enumerators, f);
      }
    }

    method AddVar(d: Id, r: Redecl, f: Flags)
      requires output.Valid()
      modifies output
      ensures output.Valid() && output.asserts == old(output.asserts)
      ensures output.log == old(output.log) +
              Entries(if r.defn == Some(d) || (r.defn.None? && d == r.canonical) then Go(c, d, true) else [], f, d)
    {
      Nil(output.log);
      if r.defn != None {
        if r.defn == Some(d) {
          var _ := GoOn(d, f, true, d);
        }
      } else if d == r.canonical {
        var _ := GoOn(d, f, true, d);
      }
    }

    method AddEnum(d: Id, es: seq<Id>, f: Flags)
      requires output.Valid()
      modifies output
      ensures output.Valid() && output.asserts == old(output.asserts)
      ensures output.log == old(output.log) + Entries(Go(c, d, true) + GoAll(c, es), f, d)
    {
      ghost var start := output.log;
      var _ := GoOn(d, f, true, d);
      GoOnAll(es, f, d);
      EntriesAppend(Go(c, d, true), GoAll(c, es), f, d);
      Assoc(start, Entries(Go(c, d, true), f, d), Entries(GoAll(c, es), f, d));
    }

    lemma KidsNest(d: Id, f: Flags)
      requires WellFormed(c, roots) && Nested(c) && d in c.g && (Flagless(c.g[d]) ==> f.IsNone())
      ensures forall k :: k in PatternKids(c, d) ==> k in c.g && !Flagless(c.g[k])
      ensures forall k :: k in RestKids(c, d) ==> k in c.g && (Flagless(c.g[k]) ==> RestFlags(c.g[d], f).IsNone())
    {
      assert forall k :: k in PatternKids(c, d) ==> Kid(c, d, k);
      assert forall k :: k in RestKids(c, d) ==> Kid(c, d, k);
    }

    // The part of every visitor that visits other declarations.
    method Follow(d: Id, f: Flags)
      requires WellFormed(c, roots) && Nested(c) && d in c.g && output.Valid()
      requires Flagless(c.g[d]) ==> f.IsNone()      // always_assert(flags.none())
      modifies this, output
      ensures output.Valid()
      ensures var kids := PatternKids(c, d);
              && (forall k :: k in kids ==> k in c.g) && (forall k :: k in RestKids(c, d) ==> k in c.g)
              && View() == VisitAll(c, roots, VisitAll(c, roots, old(View()), kids, f.SetTemplate()),
                                    RestKids(c, d), RestFlags(c.g[d], f))
      decreases |Left(c, View())|, |PatternKids(c, d)| + |RestKids(c, d)| + 2
    {
      KidsNest(d, f);
      ghost var st := View();
      VisitEach(PatternKids(c, d), f.SetTemplate());
      GrowShrinks(c, st, View());
      VisitEach(RestKids(c, d), RestFlags(c.g[d], f));
    }

    // VisitDeclContext, and every other loop over declarations.
    method VisitEach(ds: seq<Id>, f: Flags)
      requires WellFormed(c, roots) && Nested(c) && output.Valid()
      requires forall d :: d in ds ==> d in c.g && (Flagless(c.g[d]) ==> f.IsNone())
      modifies this, output
      ensures output.Valid() && View() == VisitAll(c, roots, old(View()), ds, f)
      decreases |Left(c, View())|, |ds| + 1
    {
      ghost var st := View();
      var i := 0;
      while i < |ds|
        invariant 0 <= i <= |ds|
        invariant output.Valid() && View() == VisitAll(c, roots, st, ds[..i], f)
      {
        GrowShrinks(c, st, View());
        assert ds[..i + 1][..i] == ds[..i];
        DoVisit(ds[i], f);
        i := i + 1;
      }
      assert ds[..|ds|] == ds;
    }

    // VisitTranslationUnitDecl
    method Run()
      requires WellFormed(c, roots) && Nested(c) && output.Valid() && View() == NEW
      modifies this, output
      ensures output.Valid() && View() == Build(c, roots)
    {
      VisitEach(roots, NO_FLAGS);
    }
  }

  lemma NextGo(c: Config, log: seq<Entry>, ds: seq<Id>, i: nat, f: Flags, owner: Id)
    requires i < |ds|
    ensures log + Entries(GoAll(c, ds[..i + 1]), f, owner)
            == (log + Entries(GoAll(c, ds[..i]), f, owner)) + Entries(Go(c, ds[i], true), f, owner)
  {
    assert ds[..i + 1][..i] == ds[..i];
    EntriesAppend(GoAll(c, ds[..i]), Go(c, ds[i], true), f, owner);
    Assoc(log, Entries(GoAll(c, ds[..i]), f, owner), Entries(Go(c, ds[i], true), f, owner));
  }

  lemma EntriesAppend(a: seq<Add>, b: seq<Add>, f: Flags, owner: Id)
    ensures Entries(a + b, f, owner) == Entries(a, f, owner) + Entries(b, f, owner)
  {
  }
}
