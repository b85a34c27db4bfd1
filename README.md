# ANTLR ↔ PsiBuilder bridge, modelled in Dafny

This project models the part of the ANTLR–IntelliJ adaptor that serves the
editor's parse requests with an ANTLR parser:

- **`PSITokenSource`** makes the editor's `PsiBuilder` look like an ANTLR
  token source. It keeps its own raw index and skips raw slots the editor
  classifies as whitespace or comment. It rebuilds each token's text from the
  gap between one slot's start offset and the next one's.
- **`SyntaxErrorListener`** collects every syntax error whose message does not
  start with `"report"`, in call order.
- **`ANTLRParseTreeToPSIConverter`** does two things:
  - It indexes the collected errors by the start offset of the token
    `SyntaxError.getOffendingSymbol()` returns. For a "no viable
    alternative" error that is the token where prediction started, which is
    where the tree puts its error node. Any other error uses its offending
    token. The first error per offset wins.
  - It replays a finished ANTLR parse tree as `mark` / `advanceLexer` /
    `done` / `error` calls on the builder. Error nodes go through a four-way
    split: an error is recorded or not, crossed with a real or a conjured
    token.
- **`ANTLRParserAdaptor`** runs the parse:
  - `parseLight` installs the token source, the missing-token error strategy
    and the listeners on the parser.
  - It runs the grammar's parse between `mark()` and `rollbackTo()`.
  - It replays the tree and then steps over the rest of the input.
  - `parse` wraps all of this in a root marker closed with the root's element
    type.

The builder (`Host.Builder`) is abstract and made of these parts:
- a fixed sequence of raw slots over the original text, each with an ANTLR
  type, a whitespace-or-comment flag and a start offset;
- a raw cursor;
- for each marker handed out so far, in id order, the cursor and production
  length where it was opened;
- the *production*: the sequence of `Mark` / `Advance` / `Done` / `Error`
  operations recorded so far. `rollbackTo` truncates it.

`Consumed()` counts the real slots before the cursor.

The replay is specified by the pure function `Converter.ReplayOps`.
`Converter.Walk` is proved to append exactly that to the production. Lemmas
about `ReplayOps` then give these properties:
- well bracketing on any stack of open markers (`Host.Bracket`);
- one `done` per rule node;
- one marker per rule node and per marked error node;
- one advance per consumed leaf.

`ParserAdaptor.ParserAdaptor.ParseLight` and `Parse` are proved to append
`LightProduction` and `ParseProduction`, and lemmas state the shape of those
productions.

The grammar-specific `parse(parser, root)` is abstract in the source. It is
given to the model as an `ExploratoryParse` with two parts:
- the steps it takes, each a token pull or an error report;
- the tree it returns, or `None` when it throws.

Files:

| file | contents |
|---|---|
| `Antlr.dfy` | ANTLR values: tokens, parse trees, syntax-error records, recognition exceptions |
| `Host.dfy` | the abstract `PsiBuilder`, trivia skipping, real-token counting, the bracket checker |
| `SyntaxErrors.dfy` | `SyntaxErrorListener`, the listener datatype, the `toString` join and its inverse |
| `TokenSource.dfy` | `PSITokenSource` |
| `Converter.dfy` | `ANTLRParseTreeToPSIConverter`, the tree walker, the replay specification |
| `ParserAdaptor.dfy` | the parser's configuration and `ANTLRParserAdaptor` |

## Model

| member | source | states |
|---|---|---|
| `SyntaxErrors.SyntaxErrorListener.constructor` | src/org/antlr/jetbrains/adaptor/parser/SyntaxErrorListener.java:14-17 | a new collector holds no errors |
| `SyntaxErrors.SyntaxErrorListener.SyntaxError` | src/org/antlr/jetbrains/adaptor/parser/SyntaxErrorListener.java:23-33 | a message starting with "report" leaves the list unchanged; any other message appends exactly one record with the given token, line, column, message and exception, leaving earlier entries as they were |
| `SyntaxErrors.Kept` | src/org/antlr/jetbrains/adaptor/parser/SyntaxErrorListener.java:29-32 | the errors a call sequence leaves are never more than the calls |
| `SyntaxErrors.KeptIsFilter` | src/org/antlr/jetbrains/adaptor/parser/SyntaxErrorListener.java:29-32 | an error is kept if and only if it was reported and its message does not start with "report" |
| `SyntaxErrors.Render` | src/org/antlr/jetbrains/adaptor/parser/SyntaxErrorListener.java:36-38 | one rendered line per error, the i-th line rendering the i-th error |
| `SyntaxErrors.SplitJoin` | src/org/antlr/jetbrains/adaptor/parser/SyntaxErrorListener.java:36-38 | cutting the newline-join of newline-free lines at newlines gives the lines back (join and split are inverse) |
| `SyntaxErrors.SyntaxErrorListener.GetSyntaxErrors` | src/org/antlr/jetbrains/adaptor/parser/SyntaxErrorListener.java:19-21 | the collector's own list of kept errors, in call order (not a copy) |
| `SyntaxErrors.SyntaxErrorListener.ToString` | src/org/antlr/jetbrains/adaptor/parser/SyntaxErrorListener.java:36-38 | no errors give the empty text; otherwise, when no rendering holds a newline, the text lists every collected error exactly once, in list order |
| `TokenSource.SlotStart` | src/org/antlr/jetbrains/adaptor/lexer/PSITokenSource.java:74-77 | `rawTokenTypeStart` at an absolute index is the slot's start offset, or the text length past the end, and never exceeds the text |
| `TokenSource.SlotToken` | src/org/antlr/jetbrains/adaptor/lexer/PSITokenSource.java:68-83 | the token built from a raw index: the slot's ANTLR type or EOF past the end; start is the slot start; text runs to the next slot's start; stop is start + length - 1 with length 0 for EOF; default channel; line and column 0; not yet numbered |
| `TokenSource.RealIndicesAreReal` | src/org/antlr/jetbrains/adaptor/lexer/PSITokenSource.java:61-66 | the indices of non-trivia slots from `i` are in range, point at non-trivia slots and strictly increase |
| `TokenSource.RealIndicesSkip` | src/org/antlr/jetbrains/adaptor/lexer/PSITokenSource.java:61-66 | the real indices from `i` start at the first non-trivia slot at or after `i` |
| `TokenSource.ReadIndicesAreRealSlots` | src/org/antlr/jetbrains/adaptor/lexer/PSITokenSource.java:59-85 | successive `nextToken` calls from raw index `i` build their tokens from exactly the non-trivia slots, in order, and then from the end position (EOF) |
| `TokenSource.PSITokenSource.constructor` | src/org/antlr/jetbrains/adaptor/lexer/PSITokenSource.java:27-34 | a new source is over the given builder, with the default token factory and both indices 0 |
| `TokenSource.PSITokenSource.GetLine` | src/org/antlr/jetbrains/adaptor/lexer/PSITokenSource.java:89-90 | always 0 |
| `TokenSource.PSITokenSource.GetCharPositionInLine` | src/org/antlr/jetbrains/adaptor/lexer/PSITokenSource.java:36-39 | always 0 |
| `TokenSource.PSITokenSource.GetTokenFactory` | src/org/antlr/jetbrains/adaptor/lexer/PSITokenSource.java:108-111 | the factory installed by the constructor or by the last `setTokenFactory` |
| `TokenSource.PSITokenSource.SetTokenFactory` | src/org/antlr/jetbrains/adaptor/lexer/PSITokenSource.java:103-106 | the factory is replaced |
| `TokenSource.PSITokenSource.SkipHidden` | src/org/antlr/jetbrains/adaptor/lexer/PSITokenSource.java:59-66 | the skip loop moves `currentTokenIndex` to the first non-trivia slot at or after it (or the end), the lookahead offset moving in lockstep so it stays `currentTokenIndex - rawTokenIndex()` |
| `TokenSource.PSITokenSource.MakeToken` | src/org/antlr/jetbrains/adaptor/lexer/PSITokenSource.java:68-83 | the token built through `rawLookup`/`rawTokenTypeStart` at an offset from the cursor is the token of that absolute raw index (`SlotToken`) |
| `TokenSource.PSITokenSource.NextToken` | src/org/antlr/jetbrains/adaptor/lexer/PSITokenSource.java:52-87 | returns the token of the first non-trivia slot at or after the old `currentTokenIndex` (EOF when none is left), leaves `currentTokenIndex` one past it, reports line/column 0 and the default channel; the builder cursor only skips trivia, its production and consumed count are untouched |
| `Host.SkipTrivia` | src/org/antlr/jetbrains/adaptor/lexer/PSITokenSource.java:55 | the skip stops at the first non-trivia slot or the end, having passed only trivia |
| `Host.AtEndIffAllConsumed` | src/org/antlr/jetbrains/adaptor/parser/ANTLRParserAdaptor.java:84-87 | the input is at its end exactly when every real slot has been consumed |
| `Host.BracketCounts` | src/org/antlr/jetbrains/adaptor/parser/ANTLRParseTreeToPSIConverter.java:167-179 | a well-bracketed production opens as many markers as it closes with `done` or `error` |
| `Host.AdvanceRunShape` | src/org/antlr/jetbrains/adaptor/parser/ANTLRParserAdaptor.java:84-87 | a run of `k` advances is neutral on any marker stack and holds `k` advances and nothing else |
| `Host.Builder.RawLookup` | src/org/antlr/jetbrains/adaptor/lexer/PSITokenSource.java:60 | `rawLookup(steps)` gives the slot `steps` from the cursor, or null outside the slots |
| `Host.Builder.RawTokenTypeStart` | src/org/antlr/jetbrains/adaptor/lexer/PSITokenSource.java:74-77 | `rawTokenTypeStart(steps)` is within the text for any non-negative absolute index |
| `Host.Builder.GetTokenType` | src/org/antlr/jetbrains/adaptor/lexer/PSITokenSource.java:55 | `getTokenType()` skips trivia without consuming a real token and reports the current slot's type, or null at the end |
| `Host.Builder.Eof` | src/org/antlr/jetbrains/adaptor/parser/ANTLRParserAdaptor.java:84 | `eof()` skips trivia and holds exactly when every real token is consumed |
| `Host.Builder.AdvanceLexer` | src/org/antlr/jetbrains/adaptor/parser/ANTLRParseTreeToPSIConverter.java:95 | `advanceLexer()` records one advance and consumes one more real token unless none is left |
| `Host.Builder.Mark` | src/org/antlr/jetbrains/adaptor/parser/ANTLRParseTreeToPSIConverter.java:170 | `mark()` hands out the next marker id, records it and remembers cursor and production length; earlier markers keep their recorded points |
| `Host.Builder.Done` | src/org/antlr/jetbrains/adaptor/parser/ANTLRParseTreeToPSIConverter.java:178 | `done(tag)` records the close of the marker with that tag |
| `Host.Builder.Error` | src/org/antlr/jetbrains/adaptor/parser/ANTLRParseTreeToPSIConverter.java:152 | `error(message)` records the close of the marker as an error with that message |
| `Host.Builder.RollbackTo` | src/org/antlr/jetbrains/adaptor/parser/ANTLRParserAdaptor.java:72 | `rollbackTo()` restores the cursor where the marker was opened and drops everything recorded since, the marker included |
| `Converter.FirstWithIsEarliest` | src/org/antlr/jetbrains/adaptor/parser/ANTLRParseTreeToPSIConverter.java:50-55 | whenever some error has offset `k`, the first-error lookup finds one, with offset `k`, and it is the one at the least index |
| `Converter.FirstWithAbsent` | src/org/antlr/jetbrains/adaptor/parser/ANTLRParseTreeToPSIConverter.java:50-55 | with no error at offset `k`, nothing is found there |
| `Converter.FirstWithAppend` | src/org/antlr/jetbrains/adaptor/parser/ANTLRParseTreeToPSIConverter.java:50-55 | the first error at `k` of a concatenation is the first half's if it has one, else the second half's |
| `Converter.KeepsFirstUnique` | src/org/antlr/jetbrains/adaptor/parser/ANTLRParseTreeToPSIConverter.java:47-58 | the first-error index of a list is unique |
| `Converter.KeepsFirstCompose` | src/org/antlr/jetbrains/adaptor/parser/ANTLRParseTreeToPSIConverter.java:47-58 | indexing one collector's list on top of another's keeps the first errors of the concatenated lists |
| `Converter.FirstErrorsKeepsFirst` | src/org/antlr/jetbrains/adaptor/parser/ANTLRParseTreeToPSIConverter.java:50-55 | the index built one error at a time, skipping taken offsets, holds the earliest error for every offset present and nothing else |
| `Converter.RecordFirstErrors` | src/org/antlr/jetbrains/adaptor/parser/ANTLRParseTreeToPSIConverter.java:50-56 | the constructor's loop keeps existing entries and adds, for each new offset, the earliest error of the list at that offset (the offset of `getOffendingSymbol()`, so a no-viable-alternative error counts at its start token); later duplicates are ignored |
| `Converter.NoViableAltAtStart` | src/org/antlr/jetbrains/adaptor/parser/ANTLRParseTreeToPSIConverter.java:50-55 | a no-viable-alternative error is indexed at its start token's offset, and is the entry there when no earlier error has that offset |
| `Converter.ParseTreeToPsiConverter.constructor` | src/org/antlr/jetbrains/adaptor/parser/ANTLRParseTreeToPSIConverter.java:40-59 | after construction the map holds, for each offset, the earliest error over all collectors' lists in listener order, each error counted at the start of `getOffendingSymbol()` (the start token for a no-viable-alternative error); `syntaxErrors` is the last collector's list; the marker stack is empty |
| `Converter.ParseTreeToPsiConverter.SyntaxError` | src/org/antlr/jetbrains/adaptor/parser/ANTLRParseTreeToPSIConverter.java:61-71 | a no-viable-alternative error is put under its start token's offset, any other under the offending token's offset, overwriting an existing entry |
| `Converter.ParseTreeToPsiConverter.VisitTerminal` | src/org/antlr/jetbrains/adaptor/parser/ANTLRParseTreeToPSIConverter.java:93-98 | one advance, no marker; one more real token consumed unless none is left |
| `Converter.ErrorNodeOps` | src/org/antlr/jetbrains/adaptor/parser/ANTLRParseTreeToPSIConverter.java:139-163 | an error node records one advance exactly when it advances over its token, and exactly when it marks an error a marker opened first and closed last as an error carrying the indexed error's message plus a newline, or else the conjured token's text; an unmarked node is a bare advance |
| `Converter.ErrorNodeEffect` | src/org/antlr/jetbrains/adaptor/parser/ANTLRParseTreeToPSIConverter.java:139-163 | the four-way split: one advance exactly when (error and real token) or (no error and not conjured); one marker, closed as an error, exactly when there is an error or the token is conjured; the message is the error's message plus a newline, else the conjured token's text; a conjured token never advances; no `done`; bracket-neutral |
| `Converter.ParseTreeToPsiConverter.VisitErrorNode` | src/org/antlr/jetbrains/adaptor/parser/ANTLRParseTreeToPSIConverter.java:130-164 | appends exactly the four-way split's operations, uses a marker id exactly when it marks an error, and consumes a token exactly when it advances over one; earlier markers keep their points |
| `Converter.ParseTreeToPsiConverter.EnterEveryRule` | src/org/antlr/jetbrains/adaptor/parser/ANTLRParseTreeToPSIConverter.java:166-172 | opens one new marker and pushes it; the cursor does not move; earlier markers keep their points |
| `Converter.ParseTreeToPsiConverter.ExitEveryRule` | src/org/antlr/jetbrains/adaptor/parser/ANTLRParseTreeToPSIConverter.java:174-179 | pops one marker, the most recently pushed, and closes it tagged with the rule's element type |
| `Converter.ReplayBalanced` | src/org/antlr/jetbrains/adaptor/parser/ANTLRParseTreeToPSIConverter.java:166-179 | the replay of any tree, from any marker stack, closes every marker it opens, always the innermost, and leaves the stack as it found it |
| `Converter.ReplayChildrenBalanced` | src/org/antlr/jetbrains/adaptor/parser/ANTLRParseTreeToPSIConverter.java:166-179 | the same for a rule's children |
| `Converter.ReplayDoneCount` | src/org/antlr/jetbrains/adaptor/parser/ANTLRParseTreeToPSIConverter.java:174-179 | the replay calls `done` exactly once per rule node |
| `Converter.ReplayChildrenDoneCount` | src/org/antlr/jetbrains/adaptor/parser/ANTLRParseTreeToPSIConverter.java:174-179 | the same for a rule's children |
| `Converter.ReplayAdvanceCount` | src/org/antlr/jetbrains/adaptor/parser/ANTLRParseTreeToPSIConverter.java:93-163 | the replay advances once per terminal and per error node that steps over a token, and never otherwise |
| `Converter.ReplayChildrenAdvanceCount` | src/org/antlr/jetbrains/adaptor/parser/ANTLRParseTreeToPSIConverter.java:93-163 | the same for a rule's children |
| `Converter.ReplayMarkCount` | src/org/antlr/jetbrains/adaptor/parser/ANTLRParseTreeToPSIConverter.java:139-172 | the replay opens a marker exactly once per rule node and per error node that marks an error |
| `Converter.ReplayChildrenMarkCount` | src/org/antlr/jetbrains/adaptor/parser/ANTLRParseTreeToPSIConverter.java:139-172 | the same for a rule's children |
| `Converter.Walk` | src/org/antlr/jetbrains/adaptor/parser/ANTLRParseTreeToPSIConverter.java:93-179 | walking a tree with the converter appends exactly its replay, uses one marker id per marker it opens, consumes one real token per advance (fewer only at the end of input), leaves the marker stack as it was, and leaves earlier markers' recorded points alone |
| `Converter.WalkRule` | src/org/antlr/jetbrains/adaptor/parser/ANTLRParseTreeToPSIConverter.java:166-179 | the same for a rule node: enter, children, exit |
| `Converter.WalkChildren` | src/org/antlr/jetbrains/adaptor/parser/ANTLRParseTreeToPSIConverter.java:166-179 | the same for a rule's children, left to right |
| `ParserAdaptor.ReportsAreReported` | src/org/antlr/jetbrains/adaptor/parser/ANTLRParserAdaptor.java:68-73 | an error is among the parse's reports exactly when the parse reported it |
| `ParserAdaptor.CollectedIffReported` | src/org/antlr/jetbrains/adaptor/parser/SyntaxErrorListener.java:29-32 | after the parse, the collector holds an error exactly when it was reported and its message does not start with "report" |
| `ParserAdaptor.Parser.constructor` | src/org/antlr/jetbrains/adaptor/parser/ANTLRParserAdaptor.java:33-36 | the parser handed to the adaptor starts with no token stream, the default strategy and the console listener |
| `ParserAdaptor.Parser.SetTokenStream` | src/org/antlr/jetbrains/adaptor/parser/ANTLRParserAdaptor.java:57-58 | the token stream is replaced |
| `ParserAdaptor.Parser.SetErrorHandler` | src/org/antlr/jetbrains/adaptor/parser/ANTLRParserAdaptor.java:59 | the error strategy is replaced |
| `ParserAdaptor.Parser.RemoveErrorListeners` | src/org/antlr/jetbrains/adaptor/parser/ANTLRParserAdaptor.java:60 | no listener is left |
| `ParserAdaptor.Parser.AddErrorListener` | src/org/antlr/jetbrains/adaptor/parser/ANTLRParserAdaptor.java:61-62 | the listener is appended after the existing ones |
| `ParserAdaptor.LightProductionShape` | src/org/antlr/jetbrains/adaptor/parser/ANTLRParserAdaptor.java:77-87 | the `parseLight` production is well bracketed on any marker stack; it has one `done` per rule node and one marker per marker the replay opens; it advances over the replay's leaves plus every real token they leave; the count equals the tokens left exactly when the tree claims no more than are left |
| `ParserAdaptor.ParseProductionBalanced` | src/org/antlr/jetbrains/adaptor/parser/ANTLRParserAdaptor.java:113-121 | the `parse` production opens the root marker first and closes it with `root` last, and every replay marker nests inside it |
| `ParserAdaptor.ParseProductionCounts` | src/org/antlr/jetbrains/adaptor/parser/ANTLRParserAdaptor.java:113-121 | the `parse` production has one `done` per rule node plus the root's, and one marker per replay marker plus the root's |
| `ParserAdaptor.CollectorIndex` | src/org/antlr/jetbrains/adaptor/parser/ANTLRParserAdaptor.java:60-77 | with the collector first and the console listener second, the converter's index is the first-error index of the collector's list |
| `ParserAdaptor.RunEvents` | src/org/antlr/jetbrains/adaptor/parser/ANTLRParserAdaptor.java:70 | running the grammar's parse against the token source leaves exactly the kept reports, in order, appended to the collector |
| `ParserAdaptor.DrainInput` | src/org/antlr/jetbrains/adaptor/parser/ANTLRParserAdaptor.java:84-87 | the drain loop advances once per real token left and never at the end; afterwards every real token is consumed, so `eof()` holds |
| `ParserAdaptor.ParserAdaptor.constructor` | src/org/antlr/jetbrains/adaptor/parser/ANTLRParserAdaptor.java:33-36 | the adaptor keeps its parser and its element-type tables |
| `ParserAdaptor.ParserAdaptor.Configure` | src/org/antlr/jetbrains/adaptor/parser/ANTLRParserAdaptor.java:56-62 | the parser reads a `CommonTokenStream` over a new token source on the builder, uses the missing-token strategy, and its listeners are exactly a fresh, empty collector followed by the console listener |
| `ParserAdaptor.ParserAdaptor.Explore` | src/org/antlr/jetbrains/adaptor/parser/ANTLRParserAdaptor.java:68-73 | the builder's production and cursor after the mark–parse–rollback are those from before it, whatever the parse did; earlier markers keep their points |
| `ParserAdaptor.ParserAdaptor.Convert` | src/org/antlr/jetbrains/adaptor/parser/ANTLRParserAdaptor.java:77-87 | the converter built from the parser's listeners appends the replay of the tree (with the collector's first-error index) and then one advance per real token left; all input ends consumed; earlier markers keep their points |
| `ParserAdaptor.ParserAdaptor.ExploreAndConvert` | src/org/antlr/jetbrains/adaptor/parser/ANTLRParserAdaptor.java:68-87 | the builder's side of `parseLight`: a thrown parse leaves production and cursor as before with one marker id used; a returned tree appends exactly `LightProduction` and consumes all input; the collector gains exactly the kept reports |
| `ParserAdaptor.ParserAdaptor.ParseLight` | src/org/antlr/jetbrains/adaptor/parser/ANTLRParserAdaptor.java:48-107 | the parser is configured as above; the collector holds exactly the kept reports; if the parse throws, the builder is as before apart from one used marker id; otherwise the replay starts from the pre-parse state, the production gains exactly `LightProduction`, and all input is consumed (`eof()` holds); earlier markers keep their points |
| `ParserAdaptor.ParserAdaptor.Parse` | src/org/antlr/jetbrains/adaptor/parser/ANTLRParserAdaptor.java:111-123 | a completed parse appends exactly `ParseProduction`: the root marker around the `parseLight` production, closed with `root`, with all input consumed; a thrown parse leaves only the open root marker and the cursor unchanged; earlier markers keep their points |

## Left out

- Cancellation checks (`checkCanceled`) are no-ops. Debug printing (`System.out.println`), `nanoTime` timing and the unused `oldTree`/`oldText`/`newText`/`actuallyReparsedNew` fields are not modelled. The console listener is modelled as a listener that records nothing.
- `ParserAdaptor.ParserAdaptor.Parse`: the non-file-root branch (`getLightTree`, then `rootMarker.drop()` after `done`) is not modelled. Its effect depends on `PsiBuilder` internals that are not part of this model. The model's contract is what happens up to and including `done(root)` for any root. `getTreeBuilt` is represented by the production itself.
- `PsiBuilder` is abstract (`Host.Builder`). Its contracts are the meanings the bridge relies on. In particular, `mark()` does not skip whitespace here. AST construction is not part of this model.
- The ANTLR runtime is not modelled: prediction, `CommonTokenStream` buffering, `ErrorStrategyAdaptor` and the `Recognizer`. The grammar's `parse(parser, root)` is the `ExploratoryParse` input: a fixed script of token pulls and error reports, plus the tree or a thrown exception. So the script does not depend on the tokens pulled, and a thrown parse is `completed == false`.
- `ParseTreeWalker.DEFAULT.walk` is modelled as `Converter.Walk`, a plain recursive pre-order enter and post-order exit, with `visitTerminal`/`visitErrorNode` at the leaves.
- `PSIElementTypeFactory` lookups are replaced by the given `ruleElementTypes`/`tokenElementTypes` tables. The language field and `getLanguage` are not modelled.
- A rule index outside `ruleElementTypes` makes the source throw. The model excludes it with a `RuleIndicesBelow` precondition.
- `String.format("%s%n", ...)`: the platform line separator is modelled as `"\n"`.
- `SyntaxError` records do not carry the recognizer.
- `getSyntaxErrors` returns the list itself. The converter only reads it, so sharing that list (aliasing) is not modelled.
- Only the default token factory is used to build tokens. A factory set with `setTokenFactory` is stored but does not change how `NextToken` builds tokens.
- `getInputStream` and `getSourceName` are trivial wrappers and are not modelled.
- The converter's `syntaxError` callback overwrites an existing entry (last wins), while its constructor keeps the first. It is modelled as written. In the adaptor's wiring the converter is never added as a listener, so during replay only the constructor fills the index; `ParseLight` states that.
- `WalkRule`/`WalkChildren`/`WalkChild`, `SkipHidden`/`MakeToken` and `Configure`/`Explore`/`Convert`/`ExploreAndConvert`/`RunEvents`/`DrainInput` are steps of `walk`, `nextToken` and `parseLight` written as separate members. They are not separate entities in the source.
