# A verified model of cpp2v and of the log viewer's counters

`cpp2v` walks the syntax tree that Clang builds for a C++ translation unit and prints it as Rocq terms.
This project models the parts of it where something can go wrong, with Clang erased to small finite
datatypes (a declaration graph, type and name nodes with an identity, expression and statement trees),
and proves what those parts are for. It also models the span counters of the log viewer's JavaScript.

Run `dafny verify dfyconfig.toml` to verify everything.

| file | component |
|---|---|
| `Formatter.dfy` | the layout engine: deferred spaces, pending indentation, depth |
| `CoqPrinter.dfy`, `Lexer.dfy`, `Reader.dfy` | the term printer, Rocq's lexical conventions (Rocq Reference Manual, section "Lexical conventions"), and the matching reader |
| `Sharing.dfy`, `SharingMeaning.dfy`, `PrePrint.dfy`, `SharedText.dfy` | hash-consing of types and names into `tN` and `nN` definitions, and the text of those |
| `Occurrences.dfy` | what the sharing pass defines, told by where types and names occur |
| `NodeReader.dfy`, `NodeMeaning.dfy` | reading names, types, expressions, statements and declarations back from terms, and which nodes print alike |
| `ModuleBuilder.dfy`, `ModuleRoutes.dfy`, `ModuleRouting.dfy`, `ModuleObject.dfy` | the traversal of the declaration graph, the routes it takes, and its four lists |
| `ModuleReach.dfy` | what a module holds, told by its declarations: where each visitor goes and what it lists |
| `Switch.dfy`, `SwitchPrinter.dfy` | statements and loops, and the flattening of `switch` bodies ([stmt.switch] of the C++ standard) |
| `StatementReader.dfy` | reading printed statements back, and running them |
| `Endings.dfy`, `Forgotten.dfy` | which ways out a statement has, over all machines, and what printing leaves out |
| `OpaqueNames.dfy` | numbers for opaque values and array loop indices |
| `StringLiteral.dfy` | decoding of string-literal bytes into code units, and their printing |
| `AnonymousIndex.dfy`, `ParamNames.dfy`, `TypeSugar.dfy` | indices of anonymous declarations, parameter names, sugar removal |
| `SharedMeaning.dfy` | shared statements and types as the statements that run and the types with sugar |
| `CommentScanner.dfy` | the scanner for runs of line comments and block comments |
| `SpanCounters.dfy`, `SpanSweep.dfy` | the span tree of the log viewer; deleting all spans of a name |
| `Decimal.dfy`, `Sequences.dfy`, `Wrappers.dfy` | decimal numerals, facts about concatenation, optional values |

Where the program updates an object in place there is a class with the same fields, and each of its
methods is proved to compute a function of the old state; the results are lemmas about that function,
over every input and every run. A term is printed by a sequence of layout operations (`Printing.Ops`),
so that a visitor that emits directly is proved to emit the operations of a term, and the round trip
through characters then applies to it.

## What the proofs found

Each of these is a property that one would expect and that fails. The code is modelled as it is, and the
named members give the exact condition, or the failing input.

- A comment closes at its own terminator exactly when its text has an even number of double quotes:
  Rocq lexes strings inside comments (`CommentCloses`, `LoneQuoteSwallowsTheTerminator`).
- A declaration reached both inside and outside of templates is in its plain list exactly when the least
  simple route to it, trying the edges of every declaration in order, has no edge into the pattern of a
  template (`ChosenIsListed`). So the order of two members of the translation unit may decide: with a
  specialization shared by a function template and its redeclaration as a friend, it does (`FirstVisitDecides`).
- The printing of a statement may leave something out, and without a warning. The variable that the
  condition of a `for` declares is never printed, although the sharing pass visits it: a `for` keeps its
  meaning exactly when it declares none (`ForPreservesIff`). The initialization of an `if` or a `switch` is
  never printed: they keep their meaning exactly when it does nothing, or when what follows the condition
  never ends, whatever the conditions are (`IfPreservesIff`, `SwitchPreservesIff`). Two branches that are
  `for (;;)` loops without a way out are such a case (`EndlessHides`); where every `for` and every loop over
  a range has a condition there is none (`ConditionalEnds`, `ConditionalSwitchEnds`). And `if !consteval` is
  printed as `if consteval`: the meaning stays exactly when there is no negation, or else, without an `else`,
  when the branch does nothing (`ConstevalPreservesIff`, `NegationPreservesIff`). Every other statement of
  the model keeps its meaning (`LowerPreserves`).
- A reference to a bound value has its number exactly when no comma, `&&` or `||` lies between it and its
  binder, because those print their operands with fresh names. An array loop index has the level of its
  loop exactly when nothing counted lies between the two, or else one of those operators does and, behind
  the last of them, by chance as many `?:` as the loop's level plus one: `?:` counts as a level
  (`NumberingIsRightIff`, `IndexUnderConditional`, `IndexUnderComma`, `IndexUnderBoth`, `ReferenceUnderComma`).
- Every call returns a whole comment, to the end of the text, exactly when every comment ends that the scan
  comes to (`ScannedIff`, `OpenCommentIsNotScanned`). A run of line comments that does not end sends its loop
  back to the start of the text, because the position after an unsuccessful search wraps around. The loop
  may then turn for ever, as it does on the text `//` if assertions are off (`LineCommentReturnsIff`,
  `LoneLineCommentHangs`), or the call may go back to an earlier comment, so that the scan never finishes,
  even where all assertions hold (`LineCallMovesOnIff`, `EndlessScan`). A text that opens with a line comment,
  and whose block comments close, is scanned to its end exactly when every comment ends or there is a newline
  before its first `//` (`FinishesIff`); a block comment that does not close sends the scan back to offset 1
  (`UnclosedRestarts`, `OpenCommentAtStart`, `OpenCommentBehindBlank`).
- The search for the end of a block comment starts at its opener, so `/*/` counts as closed; a comment ends
  where C++ ends it exactly when no `/` follows its opener (`ClosesWhereCppDoes`, `SlashStarSlash`).
- An ignorable context as the subject of an anonymous index gets the index of what is first inside it,
  unless nothing anonymous is inside (`IgnorableSubject`, `SubjectOfLinkageSpec`).
- Toggling a span below a deleted one breaks the counters exactly when the span has something to count,
  and undoing everything may then count events twice (`ToggleKeepsCounters`, `UndoBelowDeleted`).
- Deleting all spans of a name, as the viewer does to every new log, breaks the counters exactly when a
  span of the name that has something to count lies inside another one; using them again never does
  (`DeleteKeepsCountersIff`, `DeleteInNewLog`, `NestedInNewLog`, `UseKeepsCounters`).

Other remarks:

- Printed parameter names are distinct exactly when equal identifiers are contiguous, as those expanded from
  one pack are (`DistinctIffContiguous`); nothing in the printing itself would keep others apart (`SeparatedClash`).
- `Eopaque_ref` and its number are followed by the type with no separator, which is readable because a
  type does not begin with a letter that would continue a number (`Reading.Wf` says where a separator may
  be left out).
- Two declarations print alike exactly when they agree in all that the visitors print (`DeclarationsPrintAlikeIff`).
  Besides addresses and sugar, a constructor's return type, the qualifiers of the parameters of a function
  type, and whether a missing `else` is an empty statement are not among it; `NodeReading` lists it all.
- A number is stored only after the printing of its definition, and the counter is pre-incremented, so
  definitions are numbered from 2; the 32-bit counter would reach the sentinel 0 after 2^32 - 1 nodes (`Fresh`).
- A variable without a definition goes to the list of definitions, through its canonical declaration (`AddVar`).

## Model

| member | source | states |
|---|---|---|
| Formatting.Formatter.NewLine | rocq-bluerock-cpp2v/src/Formatter.cpp:20-26 | starts a blank line and drops the pending space |
| Formatting.Formatter.NoBreak | rocq-bluerock-cpp2v/src/Formatter.cpp:28-40 | writes the indentation of a blank line, then the pending space, with two countdown loops, and clears both |
| Formatting.Formatter.AddNbsp | rocq-bluerock-cpp2v/src/Formatter.cpp:49-52 | one deferred space, however often it is asked for; nothing is written |
| Formatting.Formatter.AddIndent | rocq-bluerock-cpp2v/src/Formatter.cpp:54-57 | one level deeper; nothing is written |
| Formatting.Formatter.AddOutdent | rocq-bluerock-cpp2v/src/Formatter.cpp:58-62 | from a depth of at least two, the depth that the matching indent found |
| Formatting.Formatter.ClearSpaces | rocq-bluerock-cpp2v/include/Formatter.hpp:37-39 | the deferred space is forgotten, and nothing else |
| Formatting.Formatter.Put | rocq-bluerock-cpp2v/include/Formatter.hpp:43-48 | a chunk follows everything pending |
| Formatting.Formatter.OpenParen | rocq-bluerock-cpp2v/src/Formatter.cpp:99-106 | an opening parenthesis, and one level deeper |
| Formatting.Formatter.CloseParen | rocq-bluerock-cpp2v/src/Formatter.cpp:108-116 | one level back first, the pending space dropped, then the closing parenthesis |
| Formatting.Formatter.PutCons | rocq-bluerock-cpp2v/src/Formatter.cpp:133-138 | `::` between two deferred spaces |
| Formatting.Formatter.PutTupleSep | rocq-bluerock-cpp2v/src/Formatter.cpp:126-131 | a comma, then a deferred space |
| Formatting.Formatter.PutNumber | rocq-bluerock-cpp2v/src/Formatter.cpp:146-158 | one chunk: the numeral, in parentheses if negative, and `%scope` if there is a scope |
| Formatting.SafeAppend | rocq-bluerock-cpp2v/src/Formatter.cpp:58-62 | a run trips the depth assertion of `outdent` exactly if its first part does or its second does from where the first ends |
| Formatting.Guarded | rocq-bluerock-cpp2v/include/CoqPrinter.hpp:190-197 | a guard around a body that never trips the assertion and restores the depth does the same |
| Formatting.RunFrame | rocq-bluerock-cpp2v/src/Formatter.cpp:20-62 | text already written never influences what is written next |
| Formatting.LayoutFollowsPage | rocq-bluerock-cpp2v/src/Formatter.cpp:20-62 | every operation sequence keeps the engine in agreement with an independent page of lines, each with the indent of its first text |
| Formatting.LayoutIsThePage | rocq-bluerock-cpp2v/src/Formatter.cpp:20-62 | any run of a new engine writes exactly the page: a line with text is indented by the depth at its first text plus the pending space, other lines are empty |
| Formatting.NoTrailingBlanks | rocq-bluerock-cpp2v/src/Formatter.cpp:20-52 | for chunks that are not empty, hold no newline and do not end in a space, no line of any run ends in a space |
| Lexing.ScanLiteral | rocq-bluerock-cpp2v/src/StringPrettyPrinter.cpp:12-27 | every string's literal is one token that reads back to the string |
| Lexing.LiteralStaysOpen | rocq-bluerock-cpp2v/src/StringPrettyPrinter.cpp:12-27 | at every place before the final quote the literal is open, or closed only half by the first of two quotes |
| Lexing.LiteralStandsAlone | rocq-bluerock-cpp2v/src/StringPrettyPrinter.cpp:12-27 | whatever follows a literal, except a quote, starts a token of its own |
| Lexing.DoubledInjective | rocq-bluerock-cpp2v/src/StringPrettyPrinter.cpp:21-25 | different strings have different literals |
| Lexing.EscapedHasNoDelimiter | rocq-bluerock-cpp2v/src/StringPrettyPrinter.cpp:35-43 | the escaped body of a comment holds no comment delimiter |
| Lexing.EscapedFixpoint | rocq-bluerock-cpp2v/src/StringPrettyPrinter.cpp:35-43 | escaping leaves a text alone exactly when it holds no delimiter |
| Lexing.EscapedIdempotent | rocq-bluerock-cpp2v/src/StringPrettyPrinter.cpp:35-43 | escaping twice is escaping once |
| Lexing.EscapedChangesOnlySpaces | rocq-bluerock-cpp2v/src/StringPrettyPrinter.cpp:35-43 | apart from spaces the text is unchanged |
| Lexing.CommentStaysOpen | rocq-bluerock-cpp2v/src/StringPrettyPrinter.cpp:29-45 | at every place before its own terminator the comment is open, at level one, and inside a string at the end exactly for an odd number of quotes |
| Lexing.CommentCloses | rocq-bluerock-cpp2v/src/StringPrettyPrinter.cpp:29-45 | a comment closes at its terminator and adds no token if and only if its text has an even number of quotes |
| Lexing.LoneQuoteSwallowsTheTerminator | rocq-bluerock-cpp2v/src/StringPrettyPrinter.cpp:29-45 | the failing input: the comment of a single quote never closes |
| Printing.Balanced | rocq-bluerock-cpp2v/include/CoqPrinter.hpp:71-81 | no term trips the depth assertion from any depth, and every term restores the depth |
| Printing.CoqPrinter.BeginCtor | rocq-bluerock-cpp2v/include/CoqPrinter.hpp:71-77 | on a new line if asked for, the parenthesis, the head and a deferred space |
| Printing.CoqPrinter.EndCtor | rocq-bluerock-cpp2v/include/CoqPrinter.hpp:79-81 | the closing parenthesis, from a depth of at least two |
| Printing.CoqPrinter.EndList | rocq-bluerock-cpp2v/include/CoqPrinter.hpp:166-168 | `nil` and the closing parenthesis |
| Printing.CoqPrinter.Cons | rocq-bluerock-cpp2v/include/CoqPrinter.hpp:169-171 | `::` with a deferred space on both sides |
| Printing.CoqPrinter.Str | rocq-bluerock-cpp2v/src/StringPrettyPrinter.cpp:12-27 | the character loop writes the literal as one contiguous chunk |
| Printing.CoqPrinter.Cmt | rocq-bluerock-cpp2v/src/StringPrettyPrinter.cpp:29-45 | the loop with one character of lookahead writes the escaped comment as one contiguous chunk |
| Printing.CoqPrinter.PutRef | rocq-bluerock-cpp2v/include/PrePrint.hpp:36-42 | the prefix and the number of a reference, with nothing between them |
| Printing.CoqPrinter.PrintTerm | rocq-bluerock-cpp2v/include/CoqPrinter.hpp:71-81 | the printer calls for a term perform exactly the operations of the term, from any state |
| Printing.CoqPrinter.PrintCtor | rocq-bluerock-cpp2v/include/CoqPrinter.hpp:190-197 | a guard prints its constructor around the arguments, and closing is always within the depth |
| Printing.CoqPrinter.PrintLowLevelList | rocq-bluerock-cpp2v/include/CoqPrinter.hpp:162-171 | a list printed by hand, which is bracketed even when it is empty |
| Printing.CoqPrinter.ListRange | rocq-bluerock-cpp2v/include/CoqPrinter.hpp:122-135 | the iterator loop prints `nil` for an empty range and a bracketed list otherwise |
| Printing.CoqPrinter.ListRangeFilter | rocq-bluerock-cpp2v/include/CoqPrinter.hpp:142-155 | the elements with what the callback does for each: it prints a term or nothing, and `::` follows where it answers so |
| Printing.HonestList | rocq-bluerock-cpp2v/include/CoqPrinter.hpp:142-155 | if the callback keeps exactly what it prints, the list is that of the printed elements, bare only if the range itself is empty |
| Printing.CoqPrinter.PrintTuple | rocq-bluerock-cpp2v/include/CoqPrinter.hpp:203-210 | parts separated by commas, without a level of depth |
| Reading.ScanFollowsRun | rocq-bluerock-cpp2v/src/Formatter.cpp:20-62 | scanning what a run writes can be done operation by operation, for every run |
| Reading.EmitTerm | rocq-bluerock-cpp2v/include/CoqPrinter.hpp:71-81 | printing a well-formed term adds exactly its tokens, whatever was written before and whatever is pending |
| Reading.ParseToks | rocq-bluerock-cpp2v/include/CoqPrinter.hpp:71-81 | the tokens of a term, followed by any others, are read back to the term, and the others are left |
| Reading.PrintThenRead | rocq-bluerock-cpp2v/include/CoqPrinter.hpp:71-81 | round trip over characters: from any depth, pending space, line state and earlier text, the characters written for a term have its tokens and read back to it, whole |
| PrePrinting.NameCache.Fresh | rocq-bluerock-cpp2v/include/PrePrint.hpp:25-27 | the next number of the 32-bit counter, which wraps to the sentinel 0 exactly from its largest value |
| PrePrinting.NameCache.Store | rocq-bluerock-cpp2v/include/PrePrint.hpp:28-31 | one new entry, where the assertion demands that there is none |
| PrePrinting.NameCache.LookUp | rocq-bluerock-cpp2v/include/PrePrint.hpp:32-35 | the number of a node, or 0 |
| PrePrinting.NameCache.Reference | rocq-bluerock-cpp2v/include/PrePrint.hpp:36-42 | prints a reference for a cached node and nothing, without changing the layout, for another |
| PrePrinting.PrePrinter.PrintTypeOf | rocq-bluerock-cpp2v/src/PrintType.cpp:61-65 | the cache hook: a reference for a cached type, otherwise the printing of its shape |
| PrePrinting.PrePrinter.PrintNameOf | rocq-bluerock-cpp2v/src/PrintName.cpp:865-930 | the same for a name; what the printing means is `NodeReading.NameReads` |
| SharingMeaning.ExpandType | rocq-bluerock-cpp2v/src/PrintType.cpp:61-65 | with any sound cache, hit or miss, a printed type with the definitions substituted is the unshared printing |
| SharingMeaning.ExpandName | rocq-bluerock-cpp2v/src/PrintName.cpp:865-930 | the same for structured names: scopes, atoms, function parameters and template arguments |
| SharingMeaning.ExpandExpr | rocq-bluerock-cpp2v/src/PrintExpr.cpp:1656-1672 | the same for expressions |
| SharingMeaning.ExpandStmt | rocq-bluerock-cpp2v/src/PrintStmt.cpp:49-264 | the same for statements |
| SharingMeaning.ExpandDecl | rocq-bluerock-cpp2v/src/ToCoq.cpp:165-171 | the same for declarations |
| PrePrinting.PrePrinter.EmitType | rocq-bluerock-cpp2v/src/PrePrint.cpp:29-34 | number, write the definition with the cache as it is, and only then store; what has been written is the text of exactly the definitions |
| PrePrinting.PrePrinter.EmitName | rocq-bluerock-cpp2v/src/PrePrint.cpp:215-219 | the same for a name |
| PrePrinting.PrePrinter.DoVisit | rocq-bluerock-cpp2v/src/PrePrint.cpp:18-220 | one visit of a type, statement, expression, declaration or name computes the next cache and definitions, and never stores twice; which nodes it shares is `Occurrences.PreSettles` |
| PrePrinting.PrePrinter.DoAll | rocq-bluerock-cpp2v/src/PrePrint.cpp:81-86 | visits in order, each from the cache that the one before left |
| PrePrinting.PrePrinter.DoModule | rocq-bluerock-cpp2v/src/ToCoq.cpp:152-157 | the loops over declarations and then definitions compute the cache of the module |
| PrePrinting.PreKeeps | rocq-bluerock-cpp2v/src/PrePrint.cpp:26-86 | every visit keeps the cache invariant (sound, numbered in order, each node defined once), caches nothing deeper than what it visits and only appends definitions |
| PrePrinting.StoreNeverFails | rocq-bluerock-cpp2v/include/PrePrint.hpp:28-31 | visiting the children of an uncached type never caches the type itself, so the assertion of `store` holds |
| PrePrinting.SharingPreservesMeaning | rocq-bluerock-cpp2v/src/ToCoq.cpp:132-171 | for every module and every declaration: substituting the emitted definitions into the shared output gives exactly what an empty cache prints |
| PrePrinting.DefinitionsAreOrdered | rocq-bluerock-cpp2v/src/PrePrint.cpp:26-36 | in emission order the numbers of each prefix strictly increase and are never 0 or 1, and no unfolded node is defined twice |
| PrePrinting.EachNodeDefinedOnce | rocq-bluerock-cpp2v/src/PrePrint.cpp:26-36 | if every address in the module belongs to one node, no two definitions of a prefix are of the same address |
| PrePrinting.PlainIsClosed | rocq-bluerock-cpp2v/src/PrintType.cpp:61-65 | printing with an empty cache holds no reference |
| PrePrinting.DefinedBeforeUse | rocq-bluerock-cpp2v/src/ToCoq.cpp:132-159 | every emitted definition refers only to definitions emitted before it |
| Occurrences.PreSettles | rocq-bluerock-cpp2v/src/PrePrint.cpp:18-222 | a visit adds definitions of exactly what occurs in it: types that are pointers, references, arrays of constant or unknown size, functions, records or enumerations, and names of records, functions and referenced declarations; each is printed with the earlier definitions, which are of all that occurs inside it |
| Occurrences.DefinedIffOccurs | rocq-bluerock-cpp2v/src/ToCoq.cpp:152-157 | after the pass over a module a type or name has a definition if and only if it occurs in a declaration or definition of the module |
| Occurrences.TypePrintsAsReference | rocq-bluerock-cpp2v/src/PrePrint.cpp:26-36 | every type that occurs prints as a reference to its definition, and every other as its shape |
| Occurrences.NamePrintsAsReference | rocq-bluerock-cpp2v/src/PrePrint.cpp:209-220 | the same for a name |
| Occurrences.DefinitionsShare | rocq-bluerock-cpp2v/src/ToCoq.cpp:135-148 | the definition of a type is printed with references to the earlier definitions, among which is every type and name that occurs in it |
| NodeReading.TypeReads | rocq-bluerock-cpp2v/src/PrintType.cpp:61-505 | the printed type, read back, is the type but for addresses, names of sugar, and qualifiers of the parameters of a function type: kinds of references, results and parameters, arrays and their sizes are told apart |
| NodeReading.NameReads | rocq-bluerock-cpp2v/src/PrintName.cpp:865-930 | the printed name, read back, is the name: scopes, identifiers, function parameters and template arguments, but for addresses |
| NodeReading.ExprReads | rocq-bluerock-cpp2v/src/PrintExpr.cpp:100-1130 | the printed expression, read back, is the expression: operators, operands in order, callees, arguments, referenced names and types |
| NodeReading.StmtReads | rocq-bluerock-cpp2v/src/PrintStmt.cpp:49-264 | the printed statement, read back, is the statement but for what its visitor never prints |
| NodeReading.DeclReads | rocq-bluerock-cpp2v/src/PrintDecl.cpp:618-930 | the printed declaration, read back, is the declaration |
| NodeMeaning.NamesPrintAlikeIff | rocq-bluerock-cpp2v/src/PrintName.cpp:865-930 | two names print alike if and only if they are the same name but for addresses and sugar |
| NodeMeaning.TypesPrintAlikeIff | rocq-bluerock-cpp2v/src/PrintType.cpp:526-552 | the same for qualified types |
| NodeMeaning.ExpressionsPrintAlikeIff | rocq-bluerock-cpp2v/src/PrintExpr.cpp:1656-1672 | the same for expressions |
| NodeMeaning.DeclarationsPrintAlikeIff | rocq-bluerock-cpp2v/src/ToCoq.cpp:165-171 | the same for declarations, up to what printing leaves out |
| NodeMeaning.SharedTextIsTheDeclaration | rocq-bluerock-cpp2v/src/ToCoq.cpp:132-171 | through the characters: the definitions of a module and a declaration printed with references to them, read back and substituted, are the declaration |
| SharedText.SharedTextMeansPlainText | rocq-bluerock-cpp2v/src/ToCoq.cpp:132-171 | through the characters: reading the definitions and a declaration of the shared output back and substituting gives what is read back from the output without sharing, whatever layout surrounds each |
| SharedText.DefinitionText | rocq-bluerock-cpp2v/src/ToCoq.cpp:135-148 | the text of the definitions holds, behind the head of each, the characters of its body |
| SharedText.SentencesWritten | rocq-bluerock-cpp2v/src/ToCoq.cpp:135-148 | outside all parentheses the text of the definitions is, character by character, one sentence `#[local] Definition t2 : type := ... .` after the other, with `: name :=` for names |
| SharedMeaning.PrintsLowered | rocq-bluerock-cpp2v/src/PrintStmt.cpp:49-268 | the statements that the sharing pass enters print as their lowering does, up to layout |
| SharedMeaning.SharedStatementRuns | rocq-bluerock-cpp2v/src/ToCoq.cpp:132-171 | a statement printed with the cache of a module, its definitions substituted, is the lowering of the statement, which has the same outcome as the statement on every machine if its printing leaves nothing out |
| SharedMeaning.PrintsQual | rocq-bluerock-cpp2v/src/PrintType.cpp:526-552 | types with sugar print, as nodes of the sharing pass, as the type printer prints them, up to layout |
| SharedMeaning.SharedTypeDenotes | rocq-bluerock-cpp2v/src/ToCoq.cpp:132-171 | a type printed with the cache of a module, its definitions substituted, denotes the type that its sugar shows, and so the canonical type |
| ModuleObjects.Module.AddDefinition | rocq-bluerock-cpp2v/src/ModuleBuilder.cpp:334-336 | the four lists stay the selections of one log of entries, extended by this one |
| ModuleObjects.Module.AddDeclaration | rocq-bluerock-cpp2v/src/ModuleBuilder.cpp:310-340 | the same for a declaration |
| ModuleObjects.Module.AddAssert | rocq-bluerock-cpp2v/src/ModuleBuilder.cpp:304-306 | one more assertion; the four lists stay |
| ModuleObjects.BuildModule.GoOn | rocq-bluerock-cpp2v/src/ModuleBuilder.cpp:47-65 | what the filter and the caller make of a declaration: a definition, a declaration or nothing |
| ModuleObjects.BuildModule.GoOnChosen | rocq-bluerock-cpp2v/src/ModuleBuilder.cpp:140-147 | lists the definition of a chain, or the first declaration of a chain without one; as what it is listed is `ModuleReach.TagsAndFunctionsListed` |
| ModuleObjects.BuildModule.AddVar | rocq-bluerock-cpp2v/src/ModuleBuilder.cpp:245-254 | lists the definition of a variable, or its canonical declaration, both as definitions |
| ModuleObjects.BuildModule.AddEnum | rocq-bluerock-cpp2v/src/ModuleBuilder.cpp:272-280 | an enumeration, then its enumerators |
| ModuleObjects.BuildModule.AddAll | rocq-bluerock-cpp2v/src/ModuleBuilder.cpp:102-286 | what each kind of declaration lists, under the conditions of its visitor |
| ModuleObjects.BuildModule.AddTypedef | rocq-bluerock-cpp2v/src/ModuleBuilder.cpp:123-132 | a canonical typedef that names no anonymous structure |
| ModuleObjects.BuildModule.AddRecord | rocq-bluerock-cpp2v/src/ModuleBuilder.cpp:140-164 | a record, by its chain, unless it is implicit or dependent with templates off |
| ModuleObjects.BuildModule.DoVisit | rocq-bluerock-cpp2v/src/ModuleBuilder.cpp:74-79 | terminates on every finite graph and computes the specified traversal, within the flag assertions |
| ModuleObjects.BuildModule.Follow | rocq-bluerock-cpp2v/src/ModuleBuilder.cpp:106-292 | visits the pattern of a template with the template flag, then everything else with the flags of its route; which they are, for each kind of declaration, is `ModuleReach.KidIffEnters` |
| ModuleObjects.BuildModule.VisitEach | rocq-bluerock-cpp2v/src/ModuleBuilder.cpp:149-155 | the members of a context in order, each skipped if it has been visited meanwhile |
| ModuleObjects.BuildModule.Run | rocq-bluerock-cpp2v/src/ModuleBuilder.cpp:295-302 | the whole traversal from the translation unit |
| ModuleBuilding.VisitCovers | rocq-bluerock-cpp2v/src/ModuleBuilder.cpp:74-79 | everything newly visited has all its successors visited |
| ModuleBuilding.VisitStays | rocq-bluerock-cpp2v/src/ModuleBuilder.cpp:74-79 | a visit never leaves a set that is closed under the visit edges |
| ModuleBuilding.VisitedIsReachable | rocq-bluerock-cpp2v/src/ModuleBuilder.cpp:106-292 | on return a declaration is visited if and only if a path of visit edges leads to it from the translation unit |
| ModuleReach.KidIffEnters | rocq-bluerock-cpp2v/src/ModuleBuilder.cpp:95-293 | where each visitor goes: members of namespaces and linkage specifications, and of records that are neither implicit nor dependent (unless lambdas, and unless templates are on); the pattern of a template if templates are on, and every specialization; the target of a friend; what the definition of a function holds, local variables only if static or external |
| ModuleReach.VisitedIffReached | rocq-bluerock-cpp2v/src/ModuleBuilder.cpp:85-157 | a declaration is visited if and only if a chain of such steps leads to it from the translation unit |
| ModuleReach.EdgesOf | rocq-bluerock-cpp2v/src/ModuleBuilder.cpp:134-293 | in which order, and with which flag set: the pattern first and inside the template, then the specializations, everything else in its order with the flags as they are |
| ModuleRoutes.VisitIsEdges | rocq-bluerock-cpp2v/src/ModuleBuilder.cpp:106-292 | a visit is the visit of the edges of the declaration in order, each edge with what it does to the two flags |
| ModuleRoutes.VisitTakesLeastRoutes | rocq-bluerock-cpp2v/src/ModuleBuilder.cpp:74-79 | every new entry of a visit carries the flags of the least simple route to its owner that avoids what had been visited before |
| ModuleRoutes.BuildTakesLeastRoutes | rocq-bluerock-cpp2v/src/ModuleBuilder.cpp:295-302 | every entry of a module carries both flags of the least simple route from the translation unit to the declaration that added it |
| ModuleRoutes.OneLeastRoute | rocq-bluerock-cpp2v/src/ModuleBuilder.cpp:74-79 | there is one such route |
| ModuleRouting.VisitRecords | rocq-bluerock-cpp2v/src/ModuleBuilder.cpp:74-292 | every visit keeps: entries come from visited declarations, all of them are there, and no chain occurs twice |
| ModuleRouting.OneEntryPerChain | rocq-bluerock-cpp2v/src/ModuleBuilder.cpp:123-280 | with linked redeclaration chains no two entries of a module belong to one chain |
| ModuleRouting.FlagsOfEntry | rocq-bluerock-cpp2v/include/ModuleBuilder.hpp:21-36 | an entry is in a template if and only if the least route to its owner has an edge into a pattern, and a specialization if and only if it has one to a specialization |
| ModuleRouting.EntryOf | rocq-bluerock-cpp2v/src/ModuleBuilder.cpp:123-280 | a reached and chosen declaration has exactly one entry in its chain, and it is its own |
| ModuleReach.ListedIffTaken | rocq-bluerock-cpp2v/src/ModuleBuilder.cpp:47-293 | a declaration is listed, as a definition or as a declaration, if and only if one that is reached takes it so, told for each kind of declaration and each answer of the filter |
| ModuleReach.TagsAndFunctionsListed | rocq-bluerock-cpp2v/src/ModuleBuilder.cpp:140-230 | a reached function or record that is not skipped is listed as a definition if it is the definition of its chain, as a declaration if it is the first of a chain without one, and otherwise not at all |
| ModuleReach.EnumerationInOrder | rocq-bluerock-cpp2v/src/ModuleBuilder.cpp:272-280 | an enumeration is listed before its enumerators, which keep their order, all as definitions |
| ModuleReach.AssertsAreReached | rocq-bluerock-cpp2v/src/ModuleBuilder.cpp:102-104 | the module holds each static assertion that is reached exactly once, and no other |
| ModuleRouting.RouteOf | rocq-bluerock-cpp2v/src/ModuleBuilder.cpp:106-292 | it has a least route |
| ModuleRouting.ChosenIsListed | rocq-bluerock-cpp2v/src/ModuleBuilder.cpp:310-340 | a reached and chosen declaration is in its plain list if and only if the least route has no edge into the pattern of a template, and in its template list if and only if it has such an edge or one to a specialization |
| ModuleRouting.SpecializedByRoute | rocq-bluerock-cpp2v/src/ModuleBuilder.cpp:324-331 | the specialization-route declarations are those whose least route has no edge into a pattern and has one to a specialization |
| ModuleRouting.TemplateListsOfModule | rocq-bluerock-cpp2v/src/ModuleBuilder.cpp:324-331 | in a module they are, in order, a subsequence of the plain list, and exactly what the template list holds besides what was visited inside a template |
| ModuleRouting.WithoutTemplatesAllListed | rocq-bluerock-cpp2v/src/ModuleBuilder.cpp:310-340 | when templates are off it is in its plain list |
| ModuleRouting.ListsNameEachChainOnce | rocq-bluerock-cpp2v/src/ModuleBuilder.cpp:310-340 | no list names a chain twice, and no chain is both declared and defined |
| ModuleRouting.FirstVisitDecides | rocq-bluerock-cpp2v/src/ModuleBuilder.cpp:288-292 | a specialization shared by a function template and its friend redeclaration: in one order of the translation unit it is in the plain list, in the other it is not, although a route outside every template leads to it |
| ModuleRouting.FriendIsClean | rocq-bluerock-cpp2v/src/ModuleBuilder.cpp:288-292 | that graph is well formed, with linked chains and owned enumerators |
| ModuleObjects.FriendIsNested | rocq-bluerock-cpp2v/src/ModuleBuilder.cpp:106-113 | and meets the flag assertions |
| SwitchLowering.LowerPreserves | rocq-bluerock-cpp2v/src/PrintStmt.cpp:37-269 | a statement and its lowering have the same outcome from every state, for every meaning of expressions, conditions and declarations, if nothing inside is left out by its printing: a variable of a `for` condition, an initialization of an `if` or `switch` that does something, a negated `consteval` |
| Forgetting.ForPreservesIff | rocq-bluerock-cpp2v/src/PrintStmt.cpp:66-95 | a `for` keeps its meaning for every machine if and only if its condition declares no variable |
| Forgetting.IfPreservesIff | rocq-bluerock-cpp2v/src/PrintStmt.cpp:166-185 | an `if` keeps its meaning for every machine if and only if its initialization does nothing, or neither branch ever ends |
| Forgetting.SwitchPreservesIff | rocq-bluerock-cpp2v/src/PrintStmt.cpp:220-234 | a `switch` keeps its meaning for every machine if and only if its initialization does nothing, or no value leads to a run that ends |
| Forgetting.ConstevalPreservesIff | rocq-bluerock-cpp2v/src/PrintStmt.cpp:157-165 | an `if consteval` without `else` keeps its meaning if and only if it is not negated, or its branch does nothing at compile time and at run time |
| Forgetting.NegationPreservesIff | rocq-bluerock-cpp2v/src/PrintStmt.cpp:157-165 | with any `else`, it keeps its meaning for every first branch if and only if it is not negated |
| Forgetting.ConditionalEnds | rocq-bluerock-cpp2v/src/PrintStmt.cpp:49-143 | a statement in which every `for` and every loop over a range has a condition ends on some machine |
| Forgetting.ConditionalSwitchEnds | rocq-bluerock-cpp2v/src/PrintStmt.cpp:220-234 | and so does a `switch` of such statements |
| Forgetting.SwitchWithoutDefaultEnds | rocq-bluerock-cpp2v/src/PrintStmt.cpp:220-234 | and any `switch` without a default label |
| Forgetting.EndlessHides | rocq-bluerock-cpp2v/src/PrintStmt.cpp:166-185 | an `if` whose initialization is dropped without harm, because both branches loop for ever |
| Endings.Exits | rocq-bluerock-cpp2v/src/PrintStmt.cpp:37-269 | a run on any machine that ends takes one of the ways out that the statement has by its form |
| Endings.PlanFor | rocq-bluerock-cpp2v/src/PrintStmt.cpp:37-269 | each of these ways out is taken by some machine, which follows a plan of values for the conditions |
| SwitchLowering.RangeForIsFor | rocq-bluerock-brick/theories/lang/cpp/parser/stmt.v:18-21 | a loop over a range is the `for` loop that it is parsed as: the initialization first, the declaration in every turn |
| SwitchLowering.ItemPreserves | rocq-bluerock-cpp2v/src/PrintStmt.cpp:188-218 | run from the start, the labels spliced into a list change nothing |
| SwitchLowering.ItemsEnter | rocq-bluerock-cpp2v/src/PrintStmt.cpp:254-264 | the list has a selected label if and only if the nested body has one, and running on from it is entering the body there |
| SwitchLowering.SwitchPreserves | rocq-bluerock-cpp2v/src/PrintStmt.cpp:220-234 | if the initialization does nothing: after the condition variable and the condition, jumping to the matching case, else the default, and falling through until a break is the run of the nested switch |
| SwitchLowering.EverySelectedLabel | rocq-bluerock-cpp2v/src/PrintStmt.cpp:188-234 | with disjoint labels, running on from any selected label, not only the first, is that run |
| SwitchLowering.RangeSwitch | rocq-bluerock-cpp2v/src/PrintStmt.cpp:188-234 | a `switch` with a range label, a break and a default runs the first part for the values of the range and the other part for all others |
| SwitchLowering.IfBranches | rocq-bluerock-cpp2v/src/PrintStmt.cpp:155-186 | an `if` declares its variable, evaluates its condition and takes the branch of its value |
| SwitchLowering.ForUnrolls | rocq-bluerock-cpp2v/src/PrintStmt.cpp:66-95 | a `for` is its condition, body and increment followed by the same `for` |
| SwitchLowering.WhileUnrolls | rocq-bluerock-cpp2v/src/PrintStmt.cpp:49-64 | a `while` declares its variable for every test; a break ends it and a returned value leaves it |
| SwitchPrinting.EmitLowers | rocq-bluerock-cpp2v/src/PrintStmt.cpp:37-269 | what the visitors emit directly, with `::` after each label, is the printed form of the lowered statement |
| SwitchPrinting.StmtPrinter.PrintStmt | rocq-bluerock-cpp2v/src/PrintStmt.cpp:37-269 | the visitors perform exactly those operations |
| SwitchPrinting.StmtPrinter.PrintCase | rocq-bluerock-cpp2v/src/PrintStmt.cpp:188-208 | a label, `::`, and the statement it labels, with no constructor around them; what the label means is `StatementReading.TermReads` |
| SwitchPrinting.StmtPrinter.PrintDefault | rocq-bluerock-cpp2v/src/PrintStmt.cpp:210-218 | the same for the default label |
| SwitchPrinting.StmtPrinter.PrintSwitch | rocq-bluerock-cpp2v/src/PrintStmt.cpp:220-234 | no initialization; the condition variable if any, the condition and the block with no separator between them, which is readable because constructors open on lines of their own |
| SwitchPrinting.StmtPrinter.PrintWhile | rocq-bluerock-cpp2v/src/PrintStmt.cpp:49-64 | the condition variable if any, the condition, the body |
| SwitchPrinting.StmtPrinter.PrintDecls | rocq-bluerock-cpp2v/src/PrintStmt.cpp:37-47 | a list of declarations, without `::` behind those that print nothing |
| SwitchPrinting.StmtPrinter.PrintFor | rocq-bluerock-cpp2v/src/PrintStmt.cpp:66-95 | initialization, condition and increment if any, the body; no condition variable |
| SwitchPrinting.StmtPrinter.PrintForRange | rocq-bluerock-cpp2v/src/PrintStmt.cpp:97-134 | the range and its ends before the initialization, then condition, increment, declaration and body |
| SwitchPrinting.StmtPrinter.PrintDo | rocq-bluerock-cpp2v/src/PrintStmt.cpp:136-143 | the body, then the condition |
| SwitchPrinting.StmtPrinter.PrintIf | rocq-bluerock-cpp2v/src/PrintStmt.cpp:166-185 | the condition variable if any, the condition, both branches, a missing one as `Sskip`; no initialization |
| SwitchPrinting.StmtPrinter.PrintIfConsteval | rocq-bluerock-cpp2v/src/PrintStmt.cpp:157-165 | both branches in order, negated or not |
| SwitchPrinting.StmtPrinter.PrintCompound | rocq-bluerock-cpp2v/src/PrintStmt.cpp:254-264 | the loop over the body, in one list |
| SwitchPrinting.StatementReadsBack | rocq-bluerock-cpp2v/src/PrintStmt.cpp:37-269 | from any layout state the characters of a statement read back to its lowering |
| StatementReading.TermReads | rocq-bluerock-cpp2v/src/PrintStmt.cpp:49-264 | what is printed for a lowered statement, read back as a statement, is that statement, with its labels and the order of its parts; expressions are kept up to layout |
| StatementReading.RunBare | rocq-bluerock-cpp2v/src/PrintStmt.cpp:49-264 | the layout of expressions does not matter: without it a lowered statement runs as on a machine that does not see layout |
| StatementReading.PrintedIsTheLowering | rocq-bluerock-cpp2v/src/PrintStmt.cpp:49-264 | the characters that a supported statement prints, read back as a statement, are its lowering |
| StatementReading.PrintedRunsAsWritten | rocq-bluerock-cpp2v/src/PrintStmt.cpp:49-264 | running what was read back from those characters has the outcome of the statement, on every machine, if its printing leaves nothing out |
| OpaqueNumbering.OpaqueNames.Fresh | rocq-bluerock-cpp2v/include/OpaqueNames.hpp:20-24 | the number of nodes bound so far, and one more node |
| OpaqueNumbering.OpaqueNames.Lookup | rocq-bluerock-cpp2v/include/OpaqueNames.hpp:28-36 | the first place of a node, or -1 |
| OpaqueNumbering.OpaqueNames.PushAnon | rocq-bluerock-cpp2v/include/OpaqueNames.hpp:38-42 | the next place of the stack of anonymous declarations |
| OpaqueNumbering.OpaqueNames.FindAnon | rocq-bluerock-cpp2v/include/OpaqueNames.hpp:43-51 | the first place of a declaration there, or -1 |
| OpaqueNumbering.OpaqueNames.PopAnon | rocq-bluerock-cpp2v/include/OpaqueNames.hpp:52-56 | undoes the push of the same declaration |
| OpaqueNumbering.OpaqueNames.IncIndexCount | rocq-bluerock-cpp2v/include/OpaqueNames.hpp:61-63 | one level deeper |
| OpaqueNumbering.OpaqueNames.DecIndexCount | rocq-bluerock-cpp2v/include/OpaqueNames.hpp:64-66 | one level back |
| OpaqueNumbering.PrintExpr | rocq-bluerock-cpp2v/src/PrintExpr.cpp:1656-1672 | the visitors compute the specified output and leave the names as specified |
| OpaqueNumbering.PrintRestores | rocq-bluerock-cpp2v/src/PrintExpr.cpp:1191-1205 | printing any expression restores the index count and appends exactly the nodes it binds |
| OpaqueNumbering.ThreadedIsNumberedRight | rocq-bluerock-cpp2v/src/PrintExpr.cpp:1191-1205 | expressions that thread their names and have no `?:` between a loop and its index are well placed and numbered right |
| OpaqueNumbering.NumberingIsRightIff | rocq-bluerock-cpp2v/src/PrintExpr.cpp:1514-1517 | every reference has its binder's number and every index its loop's level if and only if the expression is well placed: no fresh-names operator between a reference and its binder, and between an index and its loop nothing counted, or a fresh-names operator and, behind the last one, exactly as many `?:` as the loop's level plus one |
| OpaqueNumbering.RightIffWellPlaced | rocq-bluerock-cpp2v/src/PrintExpr.cpp:1191-1205 | what the traversal computes, as names in scope, count and level, is determined by the operators around a sub-expression |
| OpaqueNumbering.NumbersMeanNodes | rocq-bluerock-cpp2v/src/PrintExpr.cpp:1628-1653 | under the condition, evaluating by number is evaluating by node identity, in every pair of matching environments |
| OpaqueNumbering.PrintedMeansExpression | rocq-bluerock-cpp2v/src/PrintExpr.cpp:1674-1678 | the same for a whole expression |
| OpaqueNumbering.IndexUnderConditional | rocq-bluerock-cpp2v/src/PrintExpr.cpp:1650-1653 | an array loop whose index, read below `?:`, gets the wrong level |
| OpaqueNumbering.IndexUnderComma | rocq-bluerock-cpp2v/src/PrintExpr.cpp:419-429 | an array loop whose index, read below a comma, gets the wrong level |
| OpaqueNumbering.IndexUnderBoth | rocq-bluerock-cpp2v/src/PrintExpr.cpp:1191-1205 | below a comma and then `?:`, it gets the right one by chance |
| OpaqueNumbering.ReferenceUnderComma | rocq-bluerock-cpp2v/src/PrintExpr.cpp:419-429 | a bound value whose reference below a comma loses its number |
| CommentScanning.CommentScanner.ParseLineComment | rocq-bluerock-cpp2v/include/CommentScanner.hpp:22-35 | where the loop returns: the last newline of the maximal run, or npos, or the end of the first run of the text |
| CommentScanning.CommentScanner.ParseBlockComment | rocq-bluerock-cpp2v/include/CommentScanner.hpp:37-44 | behind the first `*/` from the opener on, or 1 if there is none |
| CommentScanning.CommentScanner.Next | rocq-bluerock-cpp2v/include/CommentScanner.hpp:49-74 | where the loop over the run ahead returns: finds a comment if and only if an opener is left, the first one; the offset moves to its end as computed, and the result is clipped to the text; if the comment ends, it is in bounds and no opener is in the gap before it |
| CommentScanning.RunIsUnique | rocq-bluerock-cpp2v/include/CommentScanner.hpp:22-35 | a run of line comments has only one maximal end |
| CommentScanning.ScanCovers | rocq-bluerock-cpp2v/include/CommentScanner.hpp:49-74 | repeated calls return comments that cover every opener of the text |
| CommentScanning.CoveredInOrder | rocq-bluerock-cpp2v/include/CommentScanner.hpp:49-74 | they are in bounds, pairwise disjoint and in order |
| CommentScanning.ScannedIff | rocq-bluerock-cpp2v/include/CommentScanner.hpp:49-74 | every call up to the end of the text returns a whole comment if and only if every comment ends that the scan comes to: each `//` of a run has a later newline, each block comment its closing pair |
| CommentScanning.OpenCommentIsNotScanned | rocq-bluerock-cpp2v/include/CommentScanner.hpp:37-44 | the failing input `/*` |
| CommentScanning.LineCommentReturnsIff | rocq-bluerock-cpp2v/include/CommentScanner.hpp:22-35 | the loop over a run returns if and only if the run ends, or else the text has a newline before its first `//` or the run from there ends |
| CommentScanning.LoneLineCommentHangs | rocq-bluerock-cpp2v/include/CommentScanner.hpp:22-35 | the loop never returns on the text `//` |
| CommentScanning.LineCallMovesOnIff | rocq-bluerock-cpp2v/include/CommentScanner.hpp:49-74 | a call moves on behind the opener of a line comment if and only if the run ends or the text has a newline before its first `//`; otherwise it goes back before the opener |
| CommentScanning.EndlessScan | rocq-bluerock-cpp2v/include/CommentScanner.hpp:49-74 | a text of two runs on which the assertions hold and every call after the first returns the second run again |
| CommentScanning.FinishesIff | rocq-bluerock-cpp2v/include/CommentScanner.hpp:49-74 | where every block comment closes that is reached, calls on a text that opens with a line comment come to its end if and only if every comment ends, or the text has a newline before its first `//` |
| CommentScanning.EndsFinish | rocq-bluerock-cpp2v/include/CommentScanner.hpp:49-74 | from any offset, they do if every comment ends |
| CommentScanning.UnendedRunFinishes | rocq-bluerock-cpp2v/include/CommentScanner.hpp:49-74 | and they do if the first comment that does not end is a line comment and the text has a newline before its first `//` |
| CommentScanning.UnclosedRestarts | rocq-bluerock-cpp2v/include/CommentScanner.hpp:37-74 | if the first comment that does not end is a block comment, they do if and only if they do from offset 1 |
| CommentScanning.OpenCommentAtStart | rocq-bluerock-cpp2v/include/CommentScanner.hpp:37-74 | so calls on `/*` come to the end |
| CommentScanning.OpenCommentBehindBlank | rocq-bluerock-cpp2v/include/CommentScanner.hpp:37-74 | and on a blank and `/*` they never do |
| CommentScanning.WellFormedTextIsScanned | rocq-bluerock-cpp2v/include/CommentScanner.hpp:49-74 | in particular, text in which every `//` has a later newline and every block comment closes is scanned to its end |
| CommentScanning.ClosesWhereCppDoes | rocq-bluerock-cpp2v/include/CommentScanner.hpp:37-44 | a block comment ends where C++ ends it if and only if no `/` follows its opener |
| CommentScanning.SlashStarSlash | rocq-bluerock-cpp2v/include/CommentScanner.hpp:37-44 | the failing input `/*/`, closed here and open in C++ |
| StringLiterals.LiteralPrinter.VisitStringLiteral | rocq-bluerock-cpp2v/src/PrintExpr.cpp:945-979 | for widths 1, 2 and 4 and any length divisible by the width the loop stays in bounds and writes the literal with its code units and its type |
| StringLiterals.BigUnit | rocq-bluerock-cpp2v/src/PrintExpr.cpp:962-966 | the value of a group, most significant byte first, with no bit shifted out of 64 |
| StringLiterals.LittleUnit | rocq-bluerock-cpp2v/src/PrintExpr.cpp:967-973 | the value of a group, least significant byte first |
| StringLiterals.EncodeUnits | rocq-bluerock-cpp2v/src/PrintExpr.cpp:959-980 | encoding the units in the same byte order gives the bytes back |
| StringLiterals.LiteralReadsBack | rocq-bluerock-cpp2v/src/PrintExpr.cpp:945-979 | from any layout state the characters of a literal read back to one term, whose units encode to the bytes again and whose type is the given one |
| StringLiterals.UnitsInRange | rocq-bluerock-cpp2v/src/PrintExpr.cpp:959-980 | there are length/width units, each below 256^width |
| StringLiterals.ByteOrdersAgree | rocq-bluerock-cpp2v/src/PrintExpr.cpp:961-973 | the two arms agree up to reversing each group of bytes |
| ParamNaming.PrintParamName | rocq-bluerock-cpp2v/src/ClangPrinter.cpp:68-98 | the loop prints the identifier with the length of the run of equal identifiers before it, or the place of an unnamed parameter |
| ParamNaming.NamedInjective | rocq-bluerock-cpp2v/src/ClangPrinter.cpp:85-90 | for identifiers without a dot the printed name determines identifier and offset |
| ParamNaming.SeparatedClash | rocq-bluerock-cpp2v/src/ClangPrinter.cpp:79-83 | two separated parameters of one identifier always lead to two equal names |
| ParamNaming.DistinctIffContiguous | rocq-bluerock-cpp2v/src/ClangPrinter.cpp:79-96 | all printed names are pairwise distinct, unnamed parameters included, if and only if equal identifiers are contiguous |
| AnonymousIndices.GetAnonymousIndex | rocq-bluerock-cpp2v/src/PrintName.cpp:348-368 | the recursive loop over a context finds the target and counts as specified |
| AnonymousIndices.MissAll | rocq-bluerock-cpp2v/src/PrintName.cpp:348-368 | a search that finds nothing has counted the anonymous declarations of the flattened context |
| AnonymousIndices.FindAll | rocq-bluerock-cpp2v/src/PrintName.cpp:348-368 | a search finds every declaration of the flattened context, and has counted those before it and before what is inside it |
| AnonymousIndices.IndexCounts | rocq-bluerock-cpp2v/src/PrintName.cpp:206-235 | the index of a declaration that names print is the number of anonymous declarations before it in flattened order |
| AnonymousIndices.IndicesIncrease | rocq-bluerock-cpp2v/src/PrintName.cpp:206-235 | indices strictly increase in that order, so they are distinct |
| AnonymousIndices.IndicesAreStable | rocq-bluerock-cpp2v/src/PrintName.cpp:348-368 | declarations added later change no earlier index |
| AnonymousIndices.NamelessDiffer | rocq-bluerock-cpp2v/src/PrintName.cpp:320-386 | two structures, enumerations, namespaces or functions without an identifier, lambdas or anonymous structures, in whatever linkage specifications and exports of one ancestor, have different indices |
| AnonymousIndices.InFront | rocq-bluerock-cpp2v/src/PrintName.cpp:348-368 | a declaration in front shifts later indices by one exactly if it is nameless, by kind and identifier, and besides by what is inside it exactly if names do not print it |
| AnonymousIndices.Ancestor | rocq-bluerock-cpp2v/src/PrintName.cpp:289-318 | the innermost enclosing context that names do not ignore; one exists because the translation unit is not ignored |
| AnonymousIndices.SearchSucceeds | rocq-bluerock-cpp2v/src/PrintName.cpp:370-386 | from that ancestor the search always finds the declaration |
| AnonymousIndices.IgnorableSubject | rocq-bluerock-cpp2v/src/PrintName.cpp:359-365 | for an ignorable context the index is its place in the order if and only if nothing anonymous is inside it |
| AnonymousIndices.SubjectOfLinkageSpec | rocq-bluerock-cpp2v/src/PrintName.cpp:359-365 | a linkage specification behind one anonymous declaration, inside it, that gets index 0 |
| TypeSugar.TypePrinter.PrintQualType | rocq-bluerock-cpp2v/src/PrintType.cpp:526-552 | the qualifier wrappers, from local const, local volatile and the volatile of the canonical type, around the printed type; the depth is restored |
| TypeSugar.TypePrinter.PrintType | rocq-bluerock-cpp2v/src/PrintType.cpp:507-515 | the visitors print the term of the type, and the depth assertion holds |
| TypeSugar.TypePrinter.PrintArray | rocq-bluerock-cpp2v/src/PrintType.cpp:335-341 | the element type, then the size |
| TypeSugar.PrintedIsSpelledQ | rocq-bluerock-cpp2v/src/PrintType.cpp:526-552 | whatever the type, the printed type, its nested qualifiers merged and array qualifiers moved outwards, is the type along what the sugar shows |
| TypeSugar.PrintedIsCanonicalQ | rocq-bluerock-cpp2v/src/PrintType.cpp:526-552 | so it is the canonical type with all qualifiers of every level; asked only of sugar with two types inside (typedef, attributed, macro-qualified) is that both have one canonical type |
| TypeSugar.OneInsideIsCanonical | rocq-bluerock-cpp2v/src/PrintType.cpp:526-552 | so it is, with nothing asked, for every type over sugar with one type inside: parenthesized, elaborated, substituted, using, alias template, decltype, typeof |
| TypeSugar.PrintedLiterallyQ | rocq-bluerock-cpp2v/src/PrintType.cpp:526-552 | the printed term is literally that of the canonical type if and only if at every level one layer at most is qualified and no array element is |
| TypeSugar.PrintedTypeReadsBack | rocq-bluerock-cpp2v/src/PrintType.cpp:526-552 | from any layout state the characters of a type read back to a term that denotes the type that is shown, and so the canonical type |
| SpanCounting.Span.constructor | ocaml-logger-lib/src/static/main.js:288-327 | the recursive construction builds the specified tree of objects, with parent pointers and counters |
| SpanCounting.Span.AddItem | ocaml-logger-lib/src/static/main.js:289-324 | one turn of the constructor's loop: an event counts once, a child span brings all it counts, anything else is skipped |
| SpanCounting.Span.AppendChild | ocaml-logger-lib/src/static/main.js:541-544 | the child becomes the last one, and the two trees of objects one |
| SpanCounting.Span.Count | ocaml-logger-lib/src/static/main.js:302-312 | only the counters of this span change |
| SpanCounting.Span.OffsetParentCounts | ocaml-logger-lib/src/static/main.js:530-539 | every span above this one, and no other, gets the offset |
| SpanCounting.Span.ToggleDeleted | ocaml-logger-lib/src/static/main.js:564-582 | the flag of one span flips, and the counters of those above it change by what it counts; everything else stays |
| SpanCounting.Span.SetDeleted | ocaml-logger-lib/src/static/main.js:584-586 | toggles only if the flag differs |
| SpanCounting.BuiltConsistent | ocaml-logger-lib/src/static/main.js:288-327 | new counters are the events, and large events, at any depth, and every span agrees with its child spans |
| SpanCounting.BuiltCountsEvents | ocaml-logger-lib/src/static/main.js:288-327 | a new span counts the events of its log at any depth, and the large ones among them; its own events are the direct ones, and its children the spans of the log in their order |
| SpanCounting.CountersAreTheRecount | ocaml-logger-lib/src/static/main.js:519-528 | where every span agrees with its child spans, every counter is a recursive recount |
| SpanCounting.ToggleKeepsCounters | ocaml-logger-lib/src/static/main.js:564-582 | a toggle keeps all counters right if and only if no span above it but the root is deleted, or it counts nothing |
| SpanCounting.RunKeepsCounters | ocaml-logger-lib/src/static/main.js:564-582 | every run of toggles that are not below a deleted span keeps every counter equal to a recount |
| SpanCounting.FlagsDetermine | ocaml-logger-lib/src/static/main.js:564-582 | right counters are determined by which spans are deleted |
| SpanCounting.UndoRestores | ocaml-logger-lib/src/static/main.js:564-582 | a run that undoes all its deletions, in any order, restores the whole tree |
| SpanCounting.UndoBelowDeleted | ocaml-logger-lib/src/static/main.js:613-624 | four toggles, one of them below a deleted span, after which nothing is deleted and the log counts everything twice |
| SpanSweeping.SetDeletedSpansWithName | ocaml-logger-lib/src/static/main.js:613-624 | the traversal, which goes on below a deleted span of the name, sets the flags of the name and leaves every other span as it was, each counter changed by what the traversal toggles below it |
| SpanSweeping.SweepMarks | ocaml-logger-lib/src/static/main.js:613-624 | exactly the spans of the name with no deleted span of another name above them get the flag; every other flag, and all places and names, stay |
| SpanSweeping.DeleteKeepsCountersIff | ocaml-logger-lib/src/static/main.js:613-624 | deleting by name keeps all counters right if and only if no span of the name that has something to count lies inside another one, the root of the log aside |
| SpanSweeping.DeleteInNewLog | ocaml-logger-lib/src/static/main.js:877-884 | so it is for every new log |
| SpanSweeping.NestedInNewLog | ocaml-logger-lib/src/static/main.js:877-884 | the failing log: one event in a span inside another of the name; deleted by name, the log counts -1 events |
| SpanSweeping.UseKeepsCounters | ocaml-logger-lib/src/static/main.js:613-624 | using all spans of a name again keeps all counters right, always |

## Left out

- Clang (semantic analysis, layout, constant evaluation, redeclaration chains, `getDefinition`): its answers are input data, with the well-formedness hypotheses named in the lemmas (`Linked`, `EnumeratorsOwned`, `Nested`, `WellFormed`, `UniqueIds`, `FaithfulQ`, `BindsOnce`, `InScope`).
- Template parameters: types and names are closed, because the enclosing declaration resolves parameters in `ClangPrinter`.
- Cyclic type graphs: a type node is its identity with the graph below it unfolded, so sharing is proved for acyclic graphs.
- PrePrinting.PrePrinter.DoModule: assumes that a module has at most 2^32 - 2 types and as many names; the wrap-around itself is in `Fresh`.
- Formatting.Formatter.AddOutdent: the depth is unbounded; the 32-bit overflow of a nesting 2^31 deep is not modelled.
- `Formatter::ascii` and `flush`: the first bypasses the layout state, the second is output plumbing.
- Printing.CoqPrinter.PrintTerm: records and `boolean` are no terms of the model, nor is the fixed text of `ToCoq.cpp` around a module: straight-line text with no state to keep.
- PrePrinting.PrePrinter.PrintTypeOf: behind the hook the term of the shape is printed as one; the visitors, which ask the hook again as they go, are the function `Sharing.PrintShape` and no methods.
- PrePrinting.PrePrinter.PrintNameOf: likewise for `Sharing.PrintFullName`.
- SharedText.SharedTextMeansPlainText: asks that the printed terms are well formed (`Wf`), that is, that what is printed as an identifier is one.
- Number printing by the output stream: decimal digits are taken as given (`Decimal.Numeral`, proved injective).
- SharingMeaning.ExpandExpr: the many expression classes are collected into the shapes that the sharing pass treats differently; expressions it does not enter are one constructor with sub-expressions, names and a type.
- SharingMeaning.ExpandStmt: likewise for statements that the pass does not enter.
- SharedMeaning.SharedStatementRuns: covers the statements that the pass enters, with `break`, `continue` and the empty statement; `switch`, declarations and loops over ranges are one constructor of the sharing model, and an initialization of an `if` is a statement that the pass enters.
- SharingMeaning.ExpandDecl: declarations keep their names, types and bodies; other parts hold no shared node.
- ModuleObjects.BuildModule.DoVisit: the specification collector and the tracing output have no effect on the lists and are left out.
- SwitchLowering.LowerPreserves: covers bodies that are compound statements with labels at their top level only, as the documentation requires (doc/sphinx/index.rst:24). `if` and `switch` have their initialization and `if consteval` its negation. Scopes are not modelled: a declaration is a step on the state. The program logic rejects a label behind a declaration, which this equality of outcomes does not say. Loops run for any number of turns, as a fuel parameter over which the lemmas quantify.
- SwitchPrinting.StmtPrinter.PrintStmt: attributes, labels, `goto`, inline assembly and `try` are not modelled.
- CommentScanning.CommentScanner.Next: asks that the loop over a run of line comments returns, since a call that does not has no result; `LineCommentReturnsIff` says exactly when it does. Assertions are taken to be off.
- CommentScanning.FinishesIff: says nothing of texts that open with a block comment, where going back may lead into the middle of a comment; `UnclosedRestarts` and `UnendedRunFinishes` hold for them too.
- OpaqueNumbering.PrintExpr: builds a tree of the printed numbers instead of characters; the other operands of an expression are one constructor with threaded names and one with fresh names. The default arm of `VisitAtomicExpr`, which returns with its constructor open, is left out.
- AnonymousIndices.Ancestor: takes the lexical and the semantic context of a declaration to be the same.
- The other heuristics for anonymous names (first declaration, field or enumerator): not injective by design.
- TypeSugar.PrintedIsCanonicalQ: builtins, pointers, constant and incomplete arrays under sugar; reference collapsing, decayed types, function parameter qualifiers and variable array bounds are not part of it.
- TypeSugar.TypePrinter.PrintType: takes from Clang which type a sugar node shows.
- SpanCounting.Span.constructor: a child span joins its parent when it is complete, not when its construction starts, which no reader of the tree can see; page elements, times, names of prefixes, `span_count` and `empty_span_count` are left out.
- `Elaborate.cpp` and `FromClang.cpp`, which drive Clang's semantic analysis; file output, command line, logging and `Location.cpp`.
- The one-to-one tables of operators, casts, builtins and calling conventions: each is settled by reading one branch.
