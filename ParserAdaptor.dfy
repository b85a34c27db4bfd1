/**
 * `ANTLRParserAdaptor`: how the host's parse request is served.  The ANTLR
 * parser is pointed at a token source over the host builder, given the
 * missing-token error strategy and a fresh error collector, and run once
 * under a rollback marker; the builder is then rolled back, the finished
 * parse tree is replayed onto it by the tree converter, and whatever input is
 * left is stepped over.  `parse` wraps all of that in a root marker closed
 * with the root's element type.
 *
 * The grammar-specific `parse(parser, root)` is not part of this model: what
 * it does is given as an `ExploratoryParse`, the sequence of token pulls and
 * error reports it makes and the tree it returns (`None` when it throws).
 */
module ParserAdaptor {
  import opened Antlr
  import opened Host
  import opened SyntaxErrors
  import opened TokenSource
  import opened Converter

  /** The error strategy installed on the parser: ANTLR's default, or the
   *  bridge's `ErrorStrategyAdaptor` (which tweaks conjured tokens). */
  datatype ErrorStrategy = DefaultStrategy | MissingTokenAdaptor

  /** The parser's token stream: none yet, or a `CommonTokenStream` over a
   *  token source. */
  datatype TokenStream = NoStream | CommonTokenStream(source: PSITokenSource)

  /** One step of the exploratory parse as the bridge sees it: the parser
   *  pulls the next token, or reports a syntax error to its listeners. */
  datatype ParseEvent = Pull | Report(error: SyntaxError)

  /** The grammar's parse: its steps in order, and the tree it returns, or
   *  `None` when it throws. */
  datatype ExploratoryParse = ExploratoryParse(events: seq<ParseEvent>, tree: Option<ParseTree>)

  /** The errors reported during `events`, in order. */
  function Reports(events: seq<ParseEvent>): (errs: seq<SyntaxError>)
    ensures |errs| <= |events|
  {
    if events == [] then []
    else
      var last := events[|events| - 1];
      Reports(events[..|events| - 1]) + if last.Report? then [last.error] else []
  }

  /** An error is among the reports exactly when it was reported. */
  lemma {:induction false} ReportsAreReported(events: seq<ParseEvent>, e: SyntaxError)
    ensures e in Reports(events) <==> Report(e) in events
    decreases |events|
  {
    if events != [] {
      var init := events[..|events| - 1];
      ReportsAreReported(init, e);
      assert events == init + [events[|events| - 1]];
    }
  }

  /** The collector ends up holding exactly the reported errors whose message
   *  does not start with "report". */
  lemma CollectedIffReported(events: seq<ParseEvent>, e: SyntaxError)
    ensures e in Kept(Reports(events)) <==> Report(e) in events && !StartsWith(e.msg, "report")
  {
    KeptIsFilter(Reports(events), e);
    ReportsAreReported(events, e);
  }

  /** The parts of ANTLR's `Parser` the bridge configures. */
  class Parser {
    var tokenStream: TokenStream
    var errorHandler: ErrorStrategy
    var errorListeners: seq<ErrorListener>

    /** A new parser listens with the console listener only. */
    constructor ()
      ensures tokenStream == NoStream && errorHandler == DefaultStrategy && errorListeners == [Console]
    {
      tokenStream := NoStream;
      errorHandler := DefaultStrategy;
      errorListeners := [Console];
    }

    method SetTokenStream(tokens: TokenStream)
      modifies this`tokenStream
      ensures tokenStream == tokens
    {
      tokenStream := tokens;
    }

    method SetErrorHandler(handler: ErrorStrategy)
      modifies this`errorHandler
      ensures errorHandler == handler
    {
      errorHandler := handler;
    }

    method RemoveErrorListeners()
      modifies this`errorListeners
      ensures errorListeners == []
    {
      errorListeners := [];
    }

    method AddErrorListener(listener: ErrorListener)
      modifies this`errorListeners
      ensures errorListeners == old(errorListeners) + [listener]
    {
      errorListeners := errorListeners + [listener];
    }
  }

  /** The advances `parseLight` makes after the replay: one per real token
   *  the replay left unconsumed. */
  function Drained(t: ParseTree, errs: map<int, SyntaxError>, consumed: nat, total: nat): nat {
    total - Min(consumed + ConsumedLeaves(t, errs), total)
  }

  /**
   * What a completed `parseLight` appends to the production, with `next` the
   * first marker id the replay uses, `consumed` the real tokens consumed
   * before the call and `total` the real tokens of the input: the replay of
   * the tree, then the advances over what is left.
   */
  function LightProduction(t: ParseTree, errs: map<int, SyntaxError>, ruleTypes: seq<ElementType>,
                           next: Marker, consumed: nat, total: nat): seq<Op>
    requires RuleIndicesBelow(t, |ruleTypes|)
  {
    ReplayOps(t, errs, ruleTypes, next) + AdvanceRun(Drained(t, errs, consumed, total))
  }

  /**
   * The `parseLight` production is well bracketed on any stack of open
   * markers, holds one node per rule node, and advances over every real token
   * left before the call exactly once, the count being exact precisely when
   * the tree does not claim more tokens than are left.
   */
  lemma LightProductionShape(t: ParseTree, errs: map<int, SyntaxError>, ruleTypes: seq<ElementType>,
                             next: Marker, consumed: nat, total: nat, open: seq<Marker>)
    requires RuleIndicesBelow(t, |ruleTypes|)
    ensures var ops := LightProduction(t, errs, ruleTypes, next, consumed, total);
      && Bracket(ops, open) == Some(open)
      && Count(ops, DoneOp) == RuleNodes(t)
      && Count(ops, MarkOp) == MarkersOf(t, errs)
      && Count(ops, AdvanceOp) == ConsumedLeaves(t, errs) + Drained(t, errs, consumed, total)
      && (consumed <= total ==>
            (Count(ops, AdvanceOp) == total - consumed <==> consumed + ConsumedLeaves(t, errs) <= total))
  {
    var replay, drain := ReplayOps(t, errs, ruleTypes, next), AdvanceRun(Drained(t, errs, consumed, total));
    ReplayBalanced(t, errs, ruleTypes, next, open);
    AdvanceRunShape(|drain|, open);
    BracketAppend(replay, drain, open);
    ReplayDoneCount(t, errs, ruleTypes, next);
    ReplayMarkCount(t, errs, ruleTypes, next);
    ReplayAdvanceCount(t, errs, ruleTypes, next);
    CountAppend(replay, drain, DoneOp);
    CountAppend(replay, drain, MarkOp);
    CountAppend(replay, drain, AdvanceOp);
  }

  /**
   * What a completed `parse` appends: the root marker, the `parseLight`
   * production (its markers numbered after the root marker and the
   * rolled-back one), and the root's `done`.
   */
  function ParseProduction(t: ParseTree, errs: map<int, SyntaxError>, ruleTypes: seq<ElementType>,
                           root: ElementType, n: Marker, consumed: nat, total: nat): seq<Op>
    requires RuleIndicesBelow(t, |ruleTypes|)
  {
    [Op.Mark(n)] + LightProduction(t, errs, ruleTypes, n + 2, consumed, total) + [Op.Done(n, root)]
  }

  /**
   * The `parse` production is well bracketed on any stack of open markers:
   * the root marker is opened first and closed last, around the
   * `parseLight` production.
   */
  lemma ParseProductionBalanced(t: ParseTree, errs: map<int, SyntaxError>, ruleTypes: seq<ElementType>,
                                root: ElementType, n: Marker, consumed: nat, total: nat, open: seq<Marker>)
    requires RuleIndicesBelow(t, |ruleTypes|)
    ensures var ops := ParseProduction(t, errs, ruleTypes, root, n, consumed, total);
      && Bracket(ops, open) == Some(open)
      && ops[0] == Op.Mark(n) && ops[|ops| - 1] == Op.Done(n, root)
  {
    var light := LightProduction(t, errs, ruleTypes, n + 2, consumed, total);
    var a := [Op.Mark(n)] + light;
    LightProductionShape(t, errs, ruleTypes, n + 2, consumed, total, [n] + open);
    assert [Op.Mark(n)][1..] == [] && [Op.Done(n, root)][1..] == [];
    BracketAppend([Op.Mark(n)], light, open);
    BracketAppend(a, [Op.Done(n, root)], open);
    assert ([n] + open)[1..] == open;
  }

  /** The `parse` production holds one node per rule node of the tree plus
   *  the root, and one marker per marker of the replay plus the root's. */
  lemma ParseProductionCounts(t: ParseTree, errs: map<int, SyntaxError>, ruleTypes: seq<ElementType>,
                              root: ElementType, n: Marker, consumed: nat, total: nat)
    requires RuleIndicesBelow(t, |ruleTypes|)
    ensures var ops := ParseProduction(t, errs, ruleTypes, root, n, consumed, total);
      && Count(ops, DoneOp) == RuleNodes(t) + 1
      && Count(ops, MarkOp) == MarkersOf(t, errs) + 1
  {
    var light := LightProduction(t, errs, ruleTypes, n + 2, consumed, total);
    var a := [Op.Mark(n)] + light;
    LightProductionShape(t, errs, ruleTypes, n + 2, consumed, total, []);
    CountOne(Op.Mark(n), DoneOp);
    CountOne(Op.Mark(n), MarkOp);
    CountOne(Op.Done(n, root), DoneOp);
    CountOne(Op.Done(n, root), MarkOp);
    CountAppend([Op.Mark(n)], light, DoneOp);
    CountAppend([Op.Mark(n)], light, MarkOp);
    CountAppend(a, [Op.Done(n, root)], DoneOp);
    CountAppend(a, [Op.Done(n, root)], MarkOp);
  }

  /** With the collector first and the console listener second, the
   *  converter's error index is the first-error index of the collector's
   *  list. */
  lemma CollectorIndex(m: map<int, SyntaxError>, c: SyntaxErrorListener)
    requires KeepsFirst(m, map[], CollectedErrors([Collecting(c), Console]))
    ensures m == FirstErrors(c.syntaxErrors)
  {
    var ls := [Collecting(c), Console];
    assert ls[..1] == [Collecting(c)] && ls[..1][..0] == [];
    assert CollectedErrors(ls[..1]) == [] + c.syntaxErrors;
    assert CollectedErrors(ls) == c.syntaxErrors;
    FirstErrorsKeepsFirst(c.syntaxErrors);
    KeepsFirstUnique(m, FirstErrors(c.syntaxErrors), map[], c.syntaxErrors);
  }

  /** One more event: a report the collector keeps is appended to what the
   *  events before it left; anything else adds nothing. */
  lemma KeptReportsSnoc(kept: seq<SyntaxError>, events: seq<ParseEvent>, i: nat)
    requires i < |events|
    ensures kept + Kept(Reports(events[..i + 1])) ==
      kept + Kept(Reports(events[..i]))
      + if events[i].Report? && !StartsWith(events[i].error.msg, "report") then [events[i].error] else []
  {
    assert events[..i + 1][..i] == events[..i];
    var reported := Reports(events[..i]);
    if events[i].Report? {
      var e := events[i].error;
      assert Reports(events[..i + 1]) == reported + [e];
      assert (reported + [e])[..|reported|] == reported;
    } else {
      assert Reports(events[..i + 1]) == reported + [] == reported;
    }
  }

  /**
   * The exploratory parse against the bridge's token source: each pull asks
   * the source for its next token, each report goes to the collector (the
   * console listener only prints).  The builder's production and markers are
   * untouched; only its cursor moves.
   */
  method RunEvents(source: PSITokenSource, collector: SyntaxErrorListener, events: seq<ParseEvent>)
    requires source.Valid()
    modifies source, source.builder`cursor, collector
    ensures source.Valid()
    ensures collector.syntaxErrors == old(collector.syntaxErrors) + Kept(Reports(events))
  {
    var i := 0;
    while i < |events|
      invariant 0 <= i <= |events|
      invariant source.Valid()
      invariant collector.syntaxErrors == old(collector.syntaxErrors) + Kept(Reports(events[..i]))
    {
      KeptReportsSnoc(old(collector.syntaxErrors), events, i);
      match events[i] {
        case Pull =>
          var token := source.NextToken();
        case Report(e) =>
          collector.SyntaxError(e.offendingSymbol, e.line, e.charPositionInLine, e.msg, e.e);
      }
      i := i + 1;
    }
    assert events[..|events|] == events;
  }

  /** `while (!builder.eof()) builder.advanceLexer();`: steps over every real
   *  token left, one advance each. */
  method DrainInput(builder: Builder)
    requires builder.Valid()
    modifies builder`cursor, builder`log
    ensures builder.Valid()
    ensures builder.log == old(builder.log) + AdvanceRun(builder.TotalReal() - old(builder.Consumed()))
    ensures builder.Consumed() == builder.TotalReal()
  {
    ghost var k: nat := 0;
    var atEnd := builder.Eof();
    while !atEnd
      invariant builder.Valid()
      invariant atEnd <==> builder.Consumed() == builder.TotalReal()
      invariant builder.log == old(builder.log) + AdvanceRun(k)
      invariant builder.Consumed() == old(builder.Consumed()) + k <= builder.TotalReal()
      decreases builder.TotalReal() - builder.Consumed()
    {
      builder.AdvanceLexer();
      k := k + 1;
      atEnd := builder.Eof();
    }
  }

  /** The adaptor: the parser it drives and the element-type tables of its
   *  language. */
  class ParserAdaptor {
    const parser: Parser
    const ruleElementTypes: seq<ElementType>
    const tokenElementTypes: seq<ElementType>

    constructor (parser: Parser, ruleElementTypes: seq<ElementType>, tokenElementTypes: seq<ElementType>)
      ensures this.parser == parser
      ensures this.ruleElementTypes == ruleElementTypes && this.tokenElementTypes == tokenElementTypes
    {
      this.parser := parser;
      this.ruleElementTypes := ruleElementTypes;
      this.tokenElementTypes := tokenElementTypes;
    }

    /**
     * The configuration step of `parseLight`: a token source over the
     * builder behind a `CommonTokenStream`, the missing-token error strategy,
     * and a fresh collector followed by the console listener as the only
     * error listeners.
     */
    method Configure(builder: Builder) returns (source: PSITokenSource, collector: SyntaxErrorListener)
      requires builder.Valid() && builder.WellFormed()
      modifies parser
      ensures fresh(source) && fresh(collector)
      ensures source.Valid() && source.builder == builder
      ensures parser.tokenStream == CommonTokenStream(source) && parser.errorHandler == MissingTokenAdaptor
      ensures parser.errorListeners == [Collecting(collector), Console] && collector.syntaxErrors == []
      ensures builder.Consumed() == old(builder.Consumed())
    {
      source := new PSITokenSource(builder);
      parser.SetTokenStream(CommonTokenStream(source));
      parser.SetErrorHandler(MissingTokenAdaptor);
      parser.RemoveErrorListeners();
      collector := new SyntaxErrorListener();
      parser.AddErrorListener(Collecting(collector));
      parser.AddErrorListener(Console);
      assert parser.errorListeners == [] + [Collecting(collector)] + [Console];
    }

    /**
     * The exploratory step of `parseLight`: a rollback marker, the grammar's
     * parse, and the rollback (run whether or not the parse throws).  The
     * builder ends where it started with one marker id used up.
     */
    method Explore(source: PSITokenSource, collector: SyntaxErrorListener, builder: Builder, events: seq<ParseEvent>)
      requires source.Valid() && source.builder == builder
      modifies source, collector, builder`cursor, builder`log, builder`nextMarker, builder`marks
      ensures builder.Valid()
      ensures builder.log == old(builder.log) && builder.cursor == old(builder.cursor)
      ensures builder.Consumed() == old(builder.Consumed())
      ensures builder.nextMarker == old(builder.nextMarker) + 1
      ensures collector.syntaxErrors == old(collector.syntaxErrors) + Kept(Reports(events))
      ensures MarksKept(old(builder.marks), builder.marks)
    {
      ghost var log0 := builder.log;
      var rollbackMarker := builder.Mark();
      RunEvents(source, collector, events);
      builder.RollbackTo(rollbackMarker);
      assert builder.log == log0[..|log0|] == log0;
    }

    /**
     * The conversion step of `parseLight`: a converter reading the
     * collector's errors replays the tree, then the rest of the input is
     * stepped over.
     */
    method Convert(t: ParseTree, listeners: seq<ErrorListener>, collector: SyntaxErrorListener, builder: Builder)
      requires builder.Valid() && RuleIndicesBelow(t, |ruleElementTypes|)
      requires listeners == [Collecting(collector), Console]
      modifies builder`cursor, builder`log, builder`nextMarker, builder`marks
      ensures builder.Valid()
      ensures var errs := FirstErrors(collector.syntaxErrors);
        && builder.log == old(builder.log) + LightProduction(t, errs, ruleElementTypes, old(builder.nextMarker),
                                                             old(builder.Consumed()), builder.TotalReal())
        && builder.nextMarker == old(builder.nextMarker) + MarkersOf(t, errs)
        && builder.Consumed() == builder.TotalReal()
      ensures MarksKept(old(builder.marks), builder.marks)
    {
      var listener := new ParseTreeToPsiConverter(listeners, ruleElementTypes, tokenElementTypes, builder);
      CollectorIndex(listener.tokenToErrorMap, collector);
      Walk(listener, t);
      DrainInput(builder);
    }

    /**
     * The builder's side of `parseLight`: the exploratory step and, when the
     * parse returned a tree, the conversion step.
     */
    method ExploreAndConvert(source: PSITokenSource, collector: SyntaxErrorListener, builder: Builder,
                             run: ExploratoryParse) returns (completed: bool)
      requires source.Valid() && source.builder == builder
      requires run.tree.Some? ==> RuleIndicesBelow(run.tree.value, |ruleElementTypes|)
      modifies source, collector, builder`cursor, builder`log, builder`nextMarker, builder`marks
      ensures builder.Valid()
      ensures completed <==> run.tree.Some?
      ensures collector.syntaxErrors == old(collector.syntaxErrors) + Kept(Reports(run.events))
      ensures !completed ==>
        builder.log == old(builder.log) && builder.cursor == old(builder.cursor)
        && builder.nextMarker == old(builder.nextMarker) + 1
      ensures completed ==>
        var t, errs := run.tree.value, FirstErrors(collector.syntaxErrors);
        && builder.log == old(builder.log) + LightProduction(t, errs, ruleElementTypes, old(builder.nextMarker) + 1,
                                                             old(builder.Consumed()), builder.TotalReal())
        && builder.nextMarker == old(builder.nextMarker) + 1 + MarkersOf(t, errs)
        && builder.Consumed() == builder.TotalReal()
      ensures MarksKept(old(builder.marks), builder.marks)
    {
      Explore(source, collector, builder, run.events);
      completed := run.tree.Some?;
      if completed {
        ghost var explored := builder.marks;
        Convert(run.tree.value, [Collecting(collector), Console], collector, builder);
        MarksKeptTrans(old(builder.marks), explored, builder.marks);
      }
    }

    /**
     * `parseLight`: configures the parser, runs the exploratory parse under a
     * rollback marker, rolls the builder back, replays the tree and steps over
     * the rest of the input.  `completed` is false when the parse threw: the
     * builder is then rolled back and nothing is replayed.  `collector` is the
     * error collector installed on the parser.
     */
    method ParseLight(root: ElementType, builder: Builder, run: ExploratoryParse)
      returns (completed: bool, ghost collector: SyntaxErrorListener)
      requires builder.Valid() && builder.WellFormed()
      requires run.tree.Some? ==> RuleIndicesBelow(run.tree.value, |ruleElementTypes|)
      modifies parser, builder`cursor, builder`log, builder`nextMarker, builder`marks
      ensures builder.Valid()
      ensures completed <==> run.tree.Some?
      ensures parser.errorHandler == MissingTokenAdaptor
      ensures parser.tokenStream.CommonTokenStream? && parser.tokenStream.source.builder == builder
      ensures parser.errorListeners == [Collecting(collector), Console] && fresh(collector)
      ensures collector.syntaxErrors == Kept(Reports(run.events))
      ensures !completed ==>
        builder.log == old(builder.log) && builder.cursor == old(builder.cursor)
        && builder.nextMarker == old(builder.nextMarker) + 1
      ensures completed ==>
        var t, errs := run.tree.value, FirstErrors(collector.syntaxErrors);
        && builder.log == old(builder.log) + LightProduction(t, errs, ruleElementTypes, old(builder.nextMarker) + 1,
                                                             old(builder.Consumed()), builder.TotalReal())
        && builder.nextMarker == old(builder.nextMarker) + 1 + MarkersOf(t, errs)
        && builder.Consumed() == builder.TotalReal()
      ensures MarksKept(old(builder.marks), builder.marks)
    {
      var source, c := Configure(builder);
      collector := c;
      completed := ExploreAndConvert(source, c, builder, run);
      assert [] + Kept(Reports(run.events)) == Kept(Reports(run.events));
    }

    /**
     * `parse`: a root marker around `parseLight`, closed with the root's
     * element type when the exploratory parse returned a tree; when it threw,
     * the root marker is left open over a rolled-back builder.
     */
    method Parse(root: ElementType, builder: Builder, run: ExploratoryParse)
      returns (completed: bool, ghost collector: SyntaxErrorListener)
      requires builder.Valid() && builder.WellFormed()
      requires run.tree.Some? ==> RuleIndicesBelow(run.tree.value, |ruleElementTypes|)
      modifies parser, builder`cursor, builder`log, builder`nextMarker, builder`marks
      ensures builder.Valid()
      ensures completed <==> run.tree.Some?
      ensures parser.errorListeners == [Collecting(collector), Console]
      ensures collector.syntaxErrors == Kept(Reports(run.events))
      ensures !completed ==>
        builder.log == old(builder.log) + [Op.Mark(old(builder.nextMarker))] && builder.cursor == old(builder.cursor)
      ensures completed ==>
        && builder.log == old(builder.log) + ParseProduction(run.tree.value, FirstErrors(collector.syntaxErrors),
                                                             ruleElementTypes, root, old(builder.nextMarker),
                                                             old(builder.Consumed()), builder.TotalReal())
        && builder.Consumed() == builder.TotalReal()
      ensures MarksKept(old(builder.marks), builder.marks)
    {
      ghost var log0, c0 := builder.log, builder.Consumed();
      var rootMarker := builder.Mark();
      ghost var marked := builder.marks;
      completed, collector := ParseLight(root, builder, run);
      MarksKeptTrans(old(builder.marks), marked, builder.marks);
      if completed {
        ghost var light := LightProduction(run.tree.value, FirstErrors(collector.syntaxErrors), ruleElementTypes,
                                           rootMarker + 2, c0, builder.TotalReal());
        builder.Done(rootMarker, root);
        assert log0 + [Op.Mark(rootMarker)] + light + [Op.Done(rootMarker, root)] ==
               log0 + ([Op.Mark(rootMarker)] + light + [Op.Done(rootMarker, root)]);
      }
    }
  }
}
