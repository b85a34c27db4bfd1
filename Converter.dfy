/**
 * `ANTLRParseTreeToPSIConverter`: replays a finished ANTLR parse tree as
 * mark / done / error / advance calls on the host builder, attaching syntax
 * errors (indexed by the start offset of their token) to error nodes.
 *
 * The replay is specified by `ReplayOps`, a pure function from the tree and
 * the error index to the production it appends; `Walk` (ANTLR's
 * `ParseTreeWalker`: enter in pre-order, exit in post-order) is proved to
 * append exactly that, and the lemmas below state what that production is
 * like: well bracketed, one `done` per rule node, one advance per consumed
 * token.
 */
module Converter {
  import opened Antlr
  import opened Host
  import opened SyntaxErrors

  /** The offset a recorded error is indexed by in the converter's constructor:
   *  the start of `getOffendingSymbol()`, so a "no viable alternative" error
   *  sits at the token where prediction started. */
  function ErrorOffset(e: SyntaxError): int {
    e.GetOffendingSymbol().start
  }

  /** The earliest error of `errs` whose offending token starts at `k`. */
  function FirstWith(errs: seq<SyntaxError>, k: int): Option<SyntaxError> {
    if errs == [] then None
    else if ErrorOffset(errs[0]) == k then Some(errs[0])
    else FirstWith(errs[1..], k)
  }

  /** `FirstWith` picks the error with the least index among those at `k`,
   *  and finds one whenever there is one. */
  lemma {:induction false} FirstWithIsEarliest(errs: seq<SyntaxError>, k: int, i: nat)
    requires i < |errs| && ErrorOffset(errs[i]) == k
    ensures FirstWith(errs, k).Some?
    ensures (forall j :: 0 <= j < i ==> ErrorOffset(errs[j]) != k) ==> FirstWith(errs, k) == Some(errs[i])
    ensures FirstWith(errs, k).Some? ==> ErrorOffset(FirstWith(errs, k).value) == k
    decreases i
  {
    if i > 0 && ErrorOffset(errs[0]) != k {
      FirstWithIsEarliest(errs[1..], k, i - 1);
      assert forall j :: 0 <= j < i - 1 ==> errs[1..][j] == errs[j + 1];
    }
  }

  /** No error at `k` means nothing is found at `k`. */
  lemma {:induction false} FirstWithAbsent(errs: seq<SyntaxError>, k: int)
    requires forall j :: 0 <= j < |errs| ==> ErrorOffset(errs[j]) != k
    ensures FirstWith(errs, k) == None
    decreases |errs|
  {
    if errs != [] {
      FirstWithAbsent(errs[1..], k);
    }
  }

  lemma {:induction false} FirstWithAppend(a: seq<SyntaxError>, b: seq<SyntaxError>, k: int)
    ensures FirstWith(a + b, k) == if FirstWith(a, k).Some? then FirstWith(a, k) else FirstWith(b, k)
    decreases |a|
  {
    if a == [] {
      assert a + b == b;
    } else {
      assert (a + b)[1..] == a[1..] + b;
      FirstWithAppend(a[1..], b, k);
    }
  }

  /**
   * A "no viable alternative" error is indexed at its start token, not at the
   * token where prediction failed, and is the one kept there when no earlier
   * error claims that offset.
   */
  lemma NoViableAltAtStart(errs: seq<SyntaxError>, i: nat, st: Token)
    requires i < |errs| && errs[i].e == Some(NoViableAlt(st))
    ensures st.start in FirstErrors(errs)
    ensures (forall j :: 0 <= j < i ==> ErrorOffset(errs[j]) != st.start) ==> FirstErrors(errs)[st.start] == errs[i]
  {
    FirstErrorsKeepsFirst(errs);
    FirstWithIsEarliest(errs, st.start, i);
  }

  /** `m` is `m0` extended, for each offset `m0` lacks, with the earliest error
   *  of `errs` at that offset; later errors at an offset are ignored. */
  ghost predicate KeepsFirst(m: map<int, SyntaxError>, m0: map<int, SyntaxError>, errs: seq<SyntaxError>) {
    && (forall k :: k in m <==> k in m0 || FirstWith(errs, k).Some?)
    && (forall k :: k in m ==> m[k] == if k in m0 then m0[k] else FirstWith(errs, k).value)
  }

  /** Two indexes that keep the first errors of the same list are the same map. */
  lemma KeepsFirstUnique(m1: map<int, SyntaxError>, m2: map<int, SyntaxError>,
                         m0: map<int, SyntaxError>, errs: seq<SyntaxError>)
    requires KeepsFirst(m1, m0, errs) && KeepsFirst(m2, m0, errs)
    ensures m1 == m2
  {
    forall k ensures k in m1 <==> k in m2 {}
    assert m1.Keys == m2.Keys;
    forall k | k in m1 ensures m1[k] == m2[k] {}
  }

  /** Indexing `a` first and then `b` on top keeps the first errors of `a + b`. */
  lemma KeepsFirstCompose(m1: map<int, SyntaxError>, m: map<int, SyntaxError>,
                          a: seq<SyntaxError>, b: seq<SyntaxError>)
    requires KeepsFirst(m1, map[], a) && KeepsFirst(m, m1, b)
    ensures KeepsFirst(m, map[], a + b)
  {
    forall k ensures k in m <==> FirstWith(a + b, k).Some? {
      FirstWithAppend(a, b, k);
    }
    forall k | k in m ensures m[k] == FirstWith(a + b, k).value {
      FirstWithAppend(a, b, k);
    }
  }

  /** The error index built from `errs` one error at a time, an offset
   *  already present keeping its error. */
  function FirstErrors(errs: seq<SyntaxError>): map<int, SyntaxError> {
    if errs == [] then map[]
    else
      var m, e := FirstErrors(errs[..|errs| - 1]), errs[|errs| - 1];
      if ErrorOffset(e) in m then m else m[ErrorOffset(e) := e]
  }

  /** That index holds, for every offset some error of `errs` starts at, the
   *  earliest such error, and nothing else. */
  lemma {:induction false} FirstErrorsKeepsFirst(errs: seq<SyntaxError>)
    ensures KeepsFirst(FirstErrors(errs), map[], errs)
    decreases |errs|
  {
    if errs != [] {
      var init, e := errs[..|errs| - 1], errs[|errs| - 1];
      FirstErrorsKeepsFirst(init);
      assert errs == init + [e];
      assert [e][1..] == [];
      forall k ensures FirstWith(errs, k) == if FirstWith(init, k).Some? then FirstWith(init, k)
                                            else if ErrorOffset(e) == k then Some(e) else None {
        FirstWithAppend(init, [e], k);
      }
    }
  }

  /**
   * The constructor's inner loop: records each error under the start offset
   * of `getOffendingSymbol()` (the start token of a failed prediction, else
   * the offending token) unless that offset is already taken.
   */
  method RecordFirstErrors(m0: map<int, SyntaxError>, errs: seq<SyntaxError>) returns (m: map<int, SyntaxError>)
    ensures forall k :: k in m <==> k in m0 || FirstWith(errs, k).Some?
    ensures forall k :: k in m ==> m[k] == if k in m0 then m0[k] else FirstWith(errs, k).value
  {
    m := m0;
    for i := 0 to |errs|
      invariant forall k :: k in m <==> k in m0 || FirstWith(errs[..i], k).Some?
      invariant forall k :: k in m ==> m[k] == if k in m0 then m0[k] else FirstWith(errs[..i], k).value
    {
      var error := errs[i];
      var startIndex := error.GetOffendingSymbol().start;
      assert errs[..i + 1] == errs[..i] + [error];
      assert [error][1..] == [];
      forall k ensures FirstWith(errs[..i + 1], k) ==
          if FirstWith(errs[..i], k).Some? then FirstWith(errs[..i], k)
          else if startIndex == k then Some(error) else None {
        FirstWithAppend(errs[..i], [error], k);
      }
      if startIndex !in m {
        m := m[startIndex := error];
      }
    }
    assert errs[..|errs|] == errs;
  }

  /** The errors of every collector among `listeners`, in listener order. */
  ghost function CollectedErrors(listeners: seq<ErrorListener>): seq<SyntaxError>
    reads set i | 0 <= i < |listeners| && listeners[i].Collecting? :: listeners[i].collector
  {
    if listeners == [] then []
    else
      var last := listeners[|listeners| - 1];
      CollectedErrors(listeners[..|listeners| - 1]) + if last.Collecting? then last.collector.syntaxErrors else []
  }

  /** The error list of the last collector among `listeners`, if any. */
  ghost function LastCollected(listeners: seq<ErrorListener>): Option<seq<SyntaxError>>
    reads set i | 0 <= i < |listeners| && listeners[i].Collecting? :: listeners[i].collector
  {
    if listeners == [] then None
    else
      var last := listeners[|listeners| - 1];
      if last.Collecting? then Some(last.collector.syntaxErrors) else LastCollected(listeners[..|listeners| - 1])
  }

  /** A token that stands for real input: placed, not EOF, not conjured. */
  predicate IsRealToken(tok: Token) {
    tok.start >= 0 && tok.ttype != EOF && !tok.IsConjured()
  }

  /**
   * What visiting an error node wrapping `tok` records, with `m` the next
   * marker the builder hands out: an advance exactly when `AdvancesOver`
   * holds, and exactly when `MarksError` holds a marker `m` that is closed as
   * an error carrying the indexed error's message and a newline, or, with no
   * error at the token, the conjured token's own text; otherwise a bare advance.
   */
  function ErrorNodeOps(tok: Token, errs: map<int, SyntaxError>, m: Marker): (ops: seq<Op>)
    ensures |ops| == (if MarksError(tok, errs) then 2 else 0) + (if AdvancesOver(tok, errs) then 1 else 0)
    ensures MarksError(tok, errs) ==> ops[0] == Op.Mark(m)
    ensures MarksError(tok, errs) ==>
      ops[|ops| - 1] == Op.Error(m, if tok.start in errs then errs[tok.start].msg + "\n" else tok.text)
    ensures |ops| == 3 ==> ops[1] == Advance
    ensures !MarksError(tok, errs) ==> ops == [Advance]
  {
    if tok.start in errs then
      var message := errs[tok.start].msg + "\n";
      if IsRealToken(tok) then [Op.Mark(m), Advance, Op.Error(m, message)]
      else [Op.Mark(m), Op.Error(m, message)]
    else if tok.IsConjured() then [Op.Mark(m), Op.Error(m, tok.text)]
    else [Advance]
  }

  /** Does visiting an error node wrapping `tok` step the host over a token? */
  predicate AdvancesOver(tok: Token, errs: map<int, SyntaxError>) {
    (tok.start in errs && IsRealToken(tok)) || (tok.start !in errs && !tok.IsConjured())
  }

  /** Does visiting an error node wrapping `tok` open (and close) an error marker? */
  predicate MarksError(tok: Token, errs: map<int, SyntaxError>) {
    tok.start in errs || tok.IsConjured()
  }

  lemma CountPair(a: Op, b: Op, k: OpKind)
    ensures Count([a, b], k) == (if KindOf(a) == k then 1 else 0) + (if KindOf(b) == k then 1 else 0)
  {
    assert [a, b] == [a] + [b];
    CountAppend([a], [b], k);
    CountOne(a, k);
    CountOne(b, k);
  }

  lemma CountTriple(a: Op, b: Op, c: Op, k: OpKind)
    ensures Count([a, b, c], k) ==
      (if KindOf(a) == k then 1 else 0) + (if KindOf(b) == k then 1 else 0) + (if KindOf(c) == k then 1 else 0)
  {
    assert [a, b, c] == [a, b] + [c];
    CountAppend([a, b], [c], k);
    CountPair(a, b, k);
    CountOne(c, k);
  }

  /**
   * The four-way split on an error node: the cursor advances once exactly when
   * an error is present and the token is real, or no error is present and the
   * token is not conjured; a marker is opened (and immediately closed as an
   * error, never as a rule) exactly when an error is present or the token is
   * conjured, carrying the error's message and a newline, or else the conjured
   * token's own text; a conjured token never moves the cursor.
   */
  lemma ErrorNodeEffect(tok: Token, errs: map<int, SyntaxError>, m: Marker, open: seq<Marker>)
    ensures var ops := ErrorNodeOps(tok, errs, m);
      && Count(ops, AdvanceOp) == (if AdvancesOver(tok, errs) then 1 else 0)
      && Count(ops, MarkOp) == Count(ops, ErrorOp) == (if MarksError(tok, errs) then 1 else 0)
      && Count(ops, DoneOp) == 0
      && (tok.IsConjured() ==> Count(ops, AdvanceOp) == 0)
      && (tok.start in errs ==> Op.Error(m, errs[tok.start].msg + "\n") in ops)
      && (tok.start !in errs && tok.IsConjured() ==> Op.Error(m, tok.text) in ops)
      && Bracket(ops, open) == Some(open)
  {
    var ops := ErrorNodeOps(tok, errs, m);
    assert ([m] + open)[1..] == open;
    if |ops| == 3 {
      forall k { CountTriple(ops[0], ops[1], ops[2], k); }
      assert ops[1..][1..] == [ops[2]] && ops[1..][1..][1..] == [];
      assert ops[0] == Mark(m) && ops[1] == Advance;
      assert Bracket(ops, open) == Bracket(ops[1..], [m] + open);
      assert Bracket(ops[1..], [m] + open) == Bracket(ops[1..][1..], [m] + open);
      assert Bracket(ops[1..][1..], [m] + open) == Bracket([], open);
    } else if |ops| == 2 {
      forall k { CountPair(ops[0], ops[1], k); }
      assert ops[1..] == [ops[1]] && ops[1..][1..] == [];
      assert ops[0] == Mark(m);
      assert Bracket(ops, open) == Bracket(ops[1..], [m] + open);
      assert Bracket(ops[1..], [m] + open) == Bracket([], open);
    } else {
      assert ops[..0] == [];
    }
  }

  /**
   * The production replaying `t` appends, with `next` the next marker id: an
   * advance for a terminal, `ErrorNodeOps` for an error node, and for a rule
   * node its marker, its children's replay and the `done` that closes the
   * marker with the rule's element type.
   */
  function ReplayOps(t: ParseTree, errs: map<int, SyntaxError>, ruleTypes: seq<ElementType>, next: Marker): (ops: seq<Op>)
    requires RuleIndicesBelow(t, |ruleTypes|)
    decreases t
  {
    match t
    case Terminal(_) => [Advance]
    case ErrorLeaf(tok) => ErrorNodeOps(tok, errs, next)
    case Rule(r, kids) =>
      [Op.Mark(next)] + ReplayChildren(kids, errs, ruleTypes, next + 1) + [Op.Done(next, ruleTypes[r])]
  }

  /** The children of a rule node, left to right, each starting from the next
   *  marker id its left siblings leave. */
  function ReplayChildren(kids: seq<ParseTree>, errs: map<int, SyntaxError>, ruleTypes: seq<ElementType>, next: Marker): (ops: seq<Op>)
    requires forall k :: 0 <= k < |kids| ==> RuleIndicesBelow(kids[k], |ruleTypes|)
    decreases kids
  {
    if kids == [] then []
    else
      var before := ReplayChildren(kids[..|kids| - 1], errs, ruleTypes, next);
      before + ReplayOps(kids[|kids| - 1], errs, ruleTypes, next + MarkersIn(kids[..|kids| - 1], errs))
  }

  /** A non-empty child list replays as its init followed by its last child,
   *  numbered after the init's markers (a solver step for the inductions
   *  below). */
  lemma ReplayChildrenLast(kids: seq<ParseTree>, errs: map<int, SyntaxError>, ruleTypes: seq<ElementType>, next: Marker)
    requires kids != []
    requires forall k :: 0 <= k < |kids| ==> RuleIndicesBelow(kids[k], |ruleTypes|)
    ensures var init, last := kids[..|kids| - 1], kids[|kids| - 1];
      && (forall k :: 0 <= k < |init| ==> RuleIndicesBelow(init[k], |ruleTypes|))
      && RuleIndicesBelow(last, |ruleTypes|) && last in kids
      && ReplayChildren(kids, errs, ruleTypes, next) ==
           ReplayChildren(init, errs, ruleTypes, next) + ReplayOps(last, errs, ruleTypes, next + MarkersIn(init, errs))
      && MarkersIn(kids, errs) == MarkersIn(init, errs) + MarkersOf(last, errs)
      && ConsumedLeavesIn(kids, errs) == ConsumedLeavesIn(init, errs) + ConsumedLeaves(last, errs)
  {
    assert kids[|kids| - 1] in kids;
  }

  /**
   * Marker balance: the replay of any tree, from any stack of open markers,
   * closes every marker it opens, always the most recently opened one, and
   * leaves the stack as it found it.
   */
  lemma {:induction false} ReplayBalanced(t: ParseTree, errs: map<int, SyntaxError>, ruleTypes: seq<ElementType>,
                                          next: Marker, open: seq<Marker>)
    requires RuleIndicesBelow(t, |ruleTypes|)
    ensures Bracket(ReplayOps(t, errs, ruleTypes, next), open) == Some(open)
    decreases t
  {
    match t
    case Terminal(_) =>
    case ErrorLeaf(tok) => ErrorNodeEffect(tok, errs, next, open);
    case Rule(r, kids) =>
      var inner := ReplayChildren(kids, errs, ruleTypes, next + 1);
      ReplayChildrenBalanced(kids, errs, ruleTypes, next + 1, [next] + open);
      BracketWrap(next, inner, ruleTypes[r], open);
  }

  lemma {:induction false} ReplayChildrenBalanced(kids: seq<ParseTree>, errs: map<int, SyntaxError>,
                                                  ruleTypes: seq<ElementType>, next: Marker, open: seq<Marker>)
    requires forall k :: 0 <= k < |kids| ==> RuleIndicesBelow(kids[k], |ruleTypes|)
    ensures Bracket(ReplayChildren(kids, errs, ruleTypes, next), open) == Some(open)
    decreases kids
  {
    if kids != [] {
      var init, last := kids[..|kids| - 1], kids[|kids| - 1];
      ReplayChildrenLast(kids, errs, ruleTypes, next);
      var before := ReplayChildren(init, errs, ruleTypes, next);
      var step := ReplayOps(last, errs, ruleTypes, next + MarkersIn(init, errs));
      ReplayChildrenBalanced(init, errs, ruleTypes, next, open);
      ReplayBalanced(last, errs, ruleTypes, next + MarkersIn(init, errs), open);
      BracketAppend(before, step, open);
    }
  }

  /** One `done` per rule node: the replay closes a marker with a rule tag
   *  exactly as often as the tree has rule nodes. */
  lemma {:induction false} ReplayDoneCount(t: ParseTree, errs: map<int, SyntaxError>, ruleTypes: seq<ElementType>, next: Marker)
    requires RuleIndicesBelow(t, |ruleTypes|)
    ensures Count(ReplayOps(t, errs, ruleTypes, next), DoneOp) == RuleNodes(t)
    decreases t
  {
    match t
    case Terminal(_) =>
    case ErrorLeaf(tok) => ErrorNodeEffect(tok, errs, next, []);
    case Rule(r, kids) =>
      var inner := ReplayChildren(kids, errs, ruleTypes, next + 1);
      ReplayChildrenDoneCount(kids, errs, ruleTypes, next + 1);
      CountWrap(next, inner, ruleTypes[r], DoneOp);
  }

  lemma {:induction false} ReplayChildrenDoneCount(kids: seq<ParseTree>, errs: map<int, SyntaxError>,
                                                   ruleTypes: seq<ElementType>, next: Marker)
    requires forall k :: 0 <= k < |kids| ==> RuleIndicesBelow(kids[k], |ruleTypes|)
    ensures Count(ReplayChildren(kids, errs, ruleTypes, next), DoneOp) == RuleNodesIn(kids)
    decreases kids
  {
    if kids != [] {
      var init, last := kids[..|kids| - 1], kids[|kids| - 1];
      ReplayChildrenLast(kids, errs, ruleTypes, next);
      var before := ReplayChildren(init, errs, ruleTypes, next);
      var step := ReplayOps(last, errs, ruleTypes, next + MarkersIn(init, errs));
      ReplayChildrenDoneCount(init, errs, ruleTypes, next);
      ReplayDoneCount(last, errs, ruleTypes, next + MarkersIn(init, errs));
      CountAppend(before, step, DoneOp);
    }
  }

  /** The tokens of `t` the replay steps over: every terminal, every error
   *  node with an error at a real token, every error node without an error at
   *  a token that is not conjured. */
  function ConsumedLeaves(t: ParseTree, errs: map<int, SyntaxError>): nat
    decreases t
  {
    match t
    case Terminal(_) => 1
    case ErrorLeaf(tok) => if AdvancesOver(tok, errs) then 1 else 0
    case Rule(_, kids) => ConsumedLeavesIn(kids, errs)
  }

  function ConsumedLeavesIn(kids: seq<ParseTree>, errs: map<int, SyntaxError>): nat
    decreases kids
  {
    if kids == [] then 0 else ConsumedLeavesIn(kids[..|kids| - 1], errs) + ConsumedLeaves(kids[|kids| - 1], errs)
  }

  /** The replay calls `advanceLexer` once per consumed leaf and at no other time. */
  lemma {:induction false} ReplayAdvanceCount(t: ParseTree, errs: map<int, SyntaxError>, ruleTypes: seq<ElementType>, next: Marker)
    requires RuleIndicesBelow(t, |ruleTypes|)
    ensures Count(ReplayOps(t, errs, ruleTypes, next), AdvanceOp) == ConsumedLeaves(t, errs)
    decreases t
  {
    match t
    case Terminal(_) =>
    case ErrorLeaf(tok) => ErrorNodeEffect(tok, errs, next, []);
    case Rule(r, kids) =>
      var inner := ReplayChildren(kids, errs, ruleTypes, next + 1);
      ReplayChildrenAdvanceCount(kids, errs, ruleTypes, next + 1);
      CountWrap(next, inner, ruleTypes[r], AdvanceOp);
  }

  lemma {:induction false} ReplayChildrenAdvanceCount(kids: seq<ParseTree>, errs: map<int, SyntaxError>,
                                                      ruleTypes: seq<ElementType>, next: Marker)
    requires forall k :: 0 <= k < |kids| ==> RuleIndicesBelow(kids[k], |ruleTypes|)
    ensures Count(ReplayChildren(kids, errs, ruleTypes, next), AdvanceOp) == ConsumedLeavesIn(kids, errs)
    decreases kids
  {
    if kids != [] {
      var init, last := kids[..|kids| - 1], kids[|kids| - 1];
      ReplayChildrenLast(kids, errs, ruleTypes, next);
      var before := ReplayChildren(init, errs, ruleTypes, next);
      var step := ReplayOps(last, errs, ruleTypes, next + MarkersIn(init, errs));
      ReplayChildrenAdvanceCount(init, errs, ruleTypes, next);
      ReplayAdvanceCount(last, errs, ruleTypes, next + MarkersIn(init, errs));
      CountAppend(before, step, AdvanceOp);
    }
  }

  /** The markers the replay of `t` opens: one per rule node and one per
   *  error node that marks an error. */
  function MarkersOf(t: ParseTree, errs: map<int, SyntaxError>): nat
    decreases t
  {
    match t
    case Terminal(_) => 0
    case ErrorLeaf(tok) => if MarksError(tok, errs) then 1 else 0
    case Rule(_, kids) => 1 + MarkersIn(kids, errs)
  }

  function MarkersIn(kids: seq<ParseTree>, errs: map<int, SyntaxError>): nat
    decreases kids
  {
    if kids == [] then 0 else MarkersIn(kids[..|kids| - 1], errs) + MarkersOf(kids[|kids| - 1], errs)
  }

  /** The replay opens a marker exactly once per rule node and per marked
   *  error node, so sibling subtrees are numbered without gaps or clashes. */
  lemma {:induction false} ReplayMarkCount(t: ParseTree, errs: map<int, SyntaxError>, ruleTypes: seq<ElementType>, next: Marker)
    requires RuleIndicesBelow(t, |ruleTypes|)
    ensures Count(ReplayOps(t, errs, ruleTypes, next), MarkOp) == MarkersOf(t, errs)
    decreases t
  {
    match t
    case Terminal(_) =>
    case ErrorLeaf(tok) => ErrorNodeEffect(tok, errs, next, []);
    case Rule(r, kids) =>
      var inner := ReplayChildren(kids, errs, ruleTypes, next + 1);
      ReplayChildrenMarkCount(kids, errs, ruleTypes, next + 1);
      CountWrap(next, inner, ruleTypes[r], MarkOp);
  }

  lemma {:induction false} ReplayChildrenMarkCount(kids: seq<ParseTree>, errs: map<int, SyntaxError>,
                                                   ruleTypes: seq<ElementType>, next: Marker)
    requires forall k :: 0 <= k < |kids| ==> RuleIndicesBelow(kids[k], |ruleTypes|)
    ensures Count(ReplayChildren(kids, errs, ruleTypes, next), MarkOp) == MarkersIn(kids, errs)
    decreases kids
  {
    if kids != [] {
      var init, last := kids[..|kids| - 1], kids[|kids| - 1];
      ReplayChildrenLast(kids, errs, ruleTypes, next);
      var before := ReplayChildren(init, errs, ruleTypes, next);
      var step := ReplayOps(last, errs, ruleTypes, next + MarkersIn(init, errs));
      ReplayChildrenMarkCount(init, errs, ruleTypes, next);
      ReplayMarkCount(last, errs, ruleTypes, next + MarkersIn(init, errs));
      CountAppend(before, step, MarkOp);
    }
  }

  class ParseTreeToPsiConverter {
    const builder: Builder
    const ruleElementTypes: seq<ElementType>
    const tokenElementTypes: seq<ElementType>
    var syntaxErrors: Option<seq<SyntaxError>>
    var markers: seq<Marker>
    var tokenToErrorMap: map<int, SyntaxError>

    ghost predicate Valid()
      reads this, builder
    {
      builder.Valid()
    }

    /**
     * Reads the error lists of the parser's collectors and indexes them by the
     * start offset of `getOffendingSymbol()`, the first error per offset winning.
     */
    constructor (listeners: seq<ErrorListener>, ruleElementTypes: seq<ElementType>,
                 tokenElementTypes: seq<ElementType>, builder: Builder)
      requires builder.Valid()
      ensures Valid() && this.builder == builder
      ensures this.ruleElementTypes == ruleElementTypes && this.tokenElementTypes == tokenElementTypes
      ensures markers == []
      ensures syntaxErrors == LastCollected(listeners)
      ensures KeepsFirst(tokenToErrorMap, map[], CollectedErrors(listeners))
    {
      this.builder := builder;
      this.ruleElementTypes := ruleElementTypes;
      this.tokenElementTypes := tokenElementTypes;
      markers := [];
      syntaxErrors := None;
      tokenToErrorMap := map[];
      new;
      for i := 0 to |listeners|
        invariant markers == []
        invariant syntaxErrors == LastCollected(listeners[..i])
        invariant KeepsFirst(tokenToErrorMap, map[], CollectedErrors(listeners[..i]))
      {
        assert listeners[..i + 1][..i] == listeners[..i];
        ghost var before := CollectedErrors(listeners[..i]);
        if listeners[i].Collecting? {
          var errs := listeners[i].collector.GetSyntaxErrors();
          syntaxErrors := Some(errs);
          assert CollectedErrors(listeners[..i + 1]) == before + errs;
          ghost var m1 := tokenToErrorMap;
          tokenToErrorMap := RecordFirstErrors(tokenToErrorMap, errs);
          KeepsFirstCompose(m1, tokenToErrorMap, before, errs);
          assert KeepsFirst(tokenToErrorMap, map[], CollectedErrors(listeners[..i + 1]));
        } else {
          assert before + [] == before;
          assert CollectedErrors(listeners[..i + 1]) == before;
        }
      }
      assert listeners[..|listeners|] == listeners;
    }

    /**
     * `syntaxError` as a listener callback: a "no viable alternative" error is
     * indexed under its start token, any other under the offending token, and
     * an existing entry at that offset is overwritten.
     */
    method SyntaxError(offendingSymbol: Token, line: int, charPositionInLine: int,
                       msg: string, e: Option<RecognitionException>)
      modifies this`tokenToErrorMap
      ensures e.Some? && e.value.NoViableAlt? ==>
        var start := e.value.startToken;
        tokenToErrorMap == old(tokenToErrorMap)[start.start := Antlr.SyntaxError(start, line, charPositionInLine, msg, e)]
      ensures !(e.Some? && e.value.NoViableAlt?) ==>
        tokenToErrorMap == old(tokenToErrorMap)[offendingSymbol.start :=
          Antlr.SyntaxError(offendingSymbol, line, charPositionInLine, msg, e)]
    {
      if e.Some? && e.value.NoViableAlt? {
        var start := e.value.startToken;
        tokenToErrorMap := tokenToErrorMap[start.start := Antlr.SyntaxError(start, line, charPositionInLine, msg, e)];
      } else {
        tokenToErrorMap := tokenToErrorMap[offendingSymbol.start :=
          Antlr.SyntaxError(offendingSymbol, line, charPositionInLine, msg, e)];
      }
    }

    /** `visitTerminal`: steps the host over one token, then peeks. */
    method VisitTerminal(node: ParseTree)
      requires Valid() && node.Terminal?
      modifies builder`cursor, builder`log
      ensures Valid()
      ensures builder.log == old(builder.log) + [Advance]
      ensures builder.Consumed() == Min(old(builder.Consumed()) + 1, builder.TotalReal())
    {
      builder.AdvanceLexer();
      var _ := builder.GetTokenType();
    }

    /** `visitErrorNode`: the four-way split of `ErrorNodeOps`. */
    method VisitErrorNode(node: ParseTree)
      requires Valid() && node.ErrorLeaf?
      modifies builder`cursor, builder`log, builder`nextMarker, builder`marks
      ensures Valid()
      ensures var ops := ErrorNodeOps(node.symbol, tokenToErrorMap, old(builder.nextMarker));
        && builder.log == old(builder.log) + ops
        && builder.nextMarker == old(builder.nextMarker) + (if MarksError(node.symbol, tokenToErrorMap) then 1 else 0)
        && builder.Consumed() ==
             Min(old(builder.Consumed()) + (if AdvancesOver(node.symbol, tokenToErrorMap) then 1 else 0), builder.TotalReal())
      ensures MarksKept(old(builder.marks), builder.marks)
    {
      RealCountPrefix(builder.slots, builder.cursor);
      var badToken := node.symbol;
      var isConjuredToken := badToken.tokenIndex < 0;
      var nodeStartIndex := badToken.start;
      if nodeStartIndex in tokenToErrorMap {
        var error := tokenToErrorMap[nodeStartIndex];
        var errorMarker := builder.Mark();
        var message := error.msg + "\n";
        if badToken.start >= 0 && badToken.ttype != EOF && !isConjuredToken {
          builder.AdvanceLexer();
        }
        builder.Error(errorMarker, message);
      } else {
        if isConjuredToken {
          var errorMarker := builder.Mark();
          builder.Error(errorMarker, badToken.text);
        } else {
          builder.AdvanceLexer();
        }
      }
    }

    /** `enterEveryRule`: opens a marker and pushes it. */
    method EnterEveryRule(ctx: ParseTree)
      requires Valid() && ctx.Rule?
      modifies this`markers, builder`log, builder`nextMarker, builder`marks
      ensures Valid()
      ensures markers == [old(builder.nextMarker)] + old(markers)
      ensures builder.log == old(builder.log) + [Op.Mark(old(builder.nextMarker))]
      ensures builder.nextMarker == old(builder.nextMarker) + 1
      ensures builder.cursor == old(builder.cursor) && builder.Consumed() == old(builder.Consumed())
      ensures MarksKept(old(builder.marks), builder.marks)
    {
      var marker := builder.Mark();
      markers := [marker] + markers;
    }

    /** `exitEveryRule`: pops the most recently opened marker and closes it
     *  with the rule's element type. */
    method ExitEveryRule(ctx: ParseTree)
      requires Valid() && ctx.Rule? && 0 <= ctx.ruleIndex < |ruleElementTypes|
      requires markers != []
      modifies this`markers, builder`log
      ensures Valid()
      ensures markers == old(markers[1..])
      ensures builder.log == old(builder.log) + [Op.Done(old(markers[0]), ruleElementTypes[ctx.ruleIndex])]
      ensures builder.Consumed() == old(builder.Consumed())
    {
      var marker := markers[0];
      markers := markers[1..];
      builder.Done(marker, ruleElementTypes[ctx.ruleIndex]);
    }
  }

  /** Unfolds `ReplayOps` at a rule node for `WalkRule`, which reaches the
   *  node through a variable rather than a constructor pattern. */
  lemma ReplayRule(r: int, kids: seq<ParseTree>, errs: map<int, SyntaxError>, ruleTypes: seq<ElementType>, next: Marker)
    requires RuleIndicesBelow(Rule(r, kids), |ruleTypes|)
    ensures var inner := ReplayChildren(kids, errs, ruleTypes, next + 1);
      var ops := ReplayOps(Rule(r, kids), errs, ruleTypes, next);
      ops == [Op.Mark(next)] + inner + [Op.Done(next, ruleTypes[r])]
  {
  }

  /** One more child: its replay is appended, numbered after the markers its
   *  left siblings opened, and its consumed leaves are added. */
  lemma ChildrenSnoc(kids: seq<ParseTree>, i: nat, errs: map<int, SyntaxError>,
                     ruleTypes: seq<ElementType>, next: Marker)
    requires i < |kids|
    requires forall k :: 0 <= k < |kids| ==> RuleIndicesBelow(kids[k], |ruleTypes|)
    ensures var done := ReplayChildren(kids[..i], errs, ruleTypes, next);
      ReplayChildren(kids[..i + 1], errs, ruleTypes, next) ==
        done + ReplayOps(kids[i], errs, ruleTypes, next + MarkersIn(kids[..i], errs))
    ensures MarkersIn(kids[..i + 1], errs) == MarkersIn(kids[..i], errs) + MarkersOf(kids[i], errs)
    ensures ConsumedLeavesIn(kids[..i + 1], errs) == ConsumedLeavesIn(kids[..i], errs) + ConsumedLeaves(kids[i], errs)
  {
    assert kids[..i + 1][..i] == kids[..i];
  }

  /** Re-associates a three-way append for the solver in `ChildStep`. */
  lemma AppendAssoc(a: seq<Op>, b: seq<Op>, c: seq<Op>)
    ensures a + (b + c) == a + b + c
  {
  }

  /** Adding two batches of advances to a consumed count that never passes
   *  the total is adding them at once (a solver step for `ChildStep`). */
  lemma MinStep(c: int, a: nat, b: nat, total: int)
    requires c <= total
    ensures Min(Min(c + a, total) + b, total) == Min(c + a + b, total)
  {
  }

  /**
   * `ParseTreeWalker.walk`: error nodes and terminals are visited, rule nodes
   * entered, their children walked left to right, and exited.  Appends exactly
   * `ReplayOps` to the production, leaves the marker stack as it was, and
   * consumes one token per advance (fewer only when input runs out).
   */
  method Walk(listener: ParseTreeToPsiConverter, t: ParseTree)
    requires listener.Valid() && RuleIndicesBelow(t, |listener.ruleElementTypes|)
    modifies listener`markers, listener.builder`cursor, listener.builder`log,
             listener.builder`nextMarker, listener.builder`marks
    ensures listener.Valid()
    ensures var ops := ReplayOps(t, listener.tokenToErrorMap, listener.ruleElementTypes, old(listener.builder.nextMarker));
      && listener.builder.log == old(listener.builder.log) + ops
      && listener.builder.nextMarker == old(listener.builder.nextMarker) + MarkersOf(t, listener.tokenToErrorMap)
      && listener.builder.Consumed() ==
           Min(old(listener.builder.Consumed()) + ConsumedLeaves(t, listener.tokenToErrorMap), listener.builder.TotalReal())
    ensures listener.markers == old(listener.markers)
    ensures MarksKept(old(listener.builder.marks), listener.builder.marks)
    decreases t, 3
  {
    match t
    case ErrorLeaf(_) =>
      listener.VisitErrorNode(t);
    case Terminal(_) =>
      listener.VisitTerminal(t);
    case Rule(_, _) =>
      WalkRule(listener, t);
  }

  /** A rule node: entered, its children walked, exited. */
  method WalkRule(listener: ParseTreeToPsiConverter, t: ParseTree)
    requires listener.Valid() && t.Rule? && RuleIndicesBelow(t, |listener.ruleElementTypes|)
    modifies listener`markers, listener.builder`cursor, listener.builder`log,
             listener.builder`nextMarker, listener.builder`marks
    ensures listener.Valid()
    ensures var ops := ReplayOps(t, listener.tokenToErrorMap, listener.ruleElementTypes, old(listener.builder.nextMarker));
      && listener.builder.log == old(listener.builder.log) + ops
      && listener.builder.nextMarker == old(listener.builder.nextMarker) + MarkersOf(t, listener.tokenToErrorMap)
      && listener.builder.Consumed() ==
           Min(old(listener.builder.Consumed()) + ConsumedLeaves(t, listener.tokenToErrorMap), listener.builder.TotalReal())
    ensures listener.markers == old(listener.markers)
    ensures MarksKept(old(listener.builder.marks), listener.builder.marks)
    decreases t, 2
  {
    ReplayRule(t.ruleIndex, t.children, listener.tokenToErrorMap, listener.ruleElementTypes, listener.builder.nextMarker);
    listener.EnterEveryRule(t);
    WalkChildren(listener, t);
    listener.ExitEveryRule(t);
  }

  /** One more child walked: the production, the marker counter and the
   *  consumed count each take that child's share. */
  lemma ChildStep(kids: seq<ParseTree>, i: nat, errs: map<int, SyntaxError>, ruleTypes: seq<ElementType>,
                  n: Marker, log0: seq<Op>, c0: nat, total: nat,
                  log: seq<Op>, next: Marker, c: nat, log': seq<Op>, next': Marker, c': nat)
    requires i < |kids| && c0 <= total
    requires forall k :: 0 <= k < |kids| ==> RuleIndicesBelow(kids[k], |ruleTypes|)
    requires log == log0 + ReplayChildren(kids[..i], errs, ruleTypes, n)
    requires next == n + MarkersIn(kids[..i], errs)
    requires c == Min(c0 + ConsumedLeavesIn(kids[..i], errs), total)
    requires log' == log + ReplayOps(kids[i], errs, ruleTypes, next)
    requires next' == next + MarkersOf(kids[i], errs)
    requires c' == Min(c + ConsumedLeaves(kids[i], errs), total)
    ensures log' == log0 + ReplayChildren(kids[..i + 1], errs, ruleTypes, n)
    ensures next' == n + MarkersIn(kids[..i + 1], errs)
    ensures c' == Min(c0 + ConsumedLeavesIn(kids[..i + 1], errs), total)
  {
    ChildrenSnoc(kids, i, errs, ruleTypes, n);
    AppendAssoc(log0, ReplayChildren(kids[..i], errs, ruleTypes, n), ReplayOps(kids[i], errs, ruleTypes, next));
    MinStep(c0, ConsumedLeavesIn(kids[..i], errs), ConsumedLeaves(kids[i], errs), total);
  }

  /** The builder holds `log0` followed by the replay of the first `i` of
   *  `kids`, with the marker counter and the consumed count to match. */
  ghost predicate WalkedUpTo(listener: ParseTreeToPsiConverter, kids: seq<ParseTree>, i: nat,
                             log0: seq<Op>, c0: nat, n: Marker)
    reads listener, listener.builder
  {
    var b, errs, types := listener.builder, listener.tokenToErrorMap, listener.ruleElementTypes;
    && i <= |kids| && b.cursor <= |b.slots|
    && (forall k :: 0 <= k < |kids| ==> RuleIndicesBelow(kids[k], |types|))
    && b.log == log0 + ReplayChildren(kids[..i], errs, types, n)
    && b.nextMarker == n + MarkersIn(kids[..i], errs)
    && b.Consumed() == Min(c0 + ConsumedLeavesIn(kids[..i], errs), b.TotalReal())
  }

  /** One turn of the walker's loop: child `i` is walked and accounted for. */
  method WalkChild(listener: ParseTreeToPsiConverter, t: ParseTree, i: nat,
                   ghost log0: seq<Op>, ghost c0: nat, ghost n: Marker)
    requires listener.Valid() && t.Rule? && i < |t.children| && c0 <= listener.builder.TotalReal()
    requires WalkedUpTo(listener, t.children, i, log0, c0, n)
    modifies listener`markers, listener.builder`cursor, listener.builder`log,
             listener.builder`nextMarker, listener.builder`marks
    ensures listener.Valid() && WalkedUpTo(listener, t.children, i + 1, log0, c0, n)
    ensures listener.markers == old(listener.markers)
    ensures MarksKept(old(listener.builder.marks), listener.builder.marks)
    decreases t, 0
  {
    var b, kids := listener.builder, t.children;
    assert kids[i] in kids;
    ghost var errs, types := listener.tokenToErrorMap, listener.ruleElementTypes;
    ghost var log, next, c := b.log, b.nextMarker, b.Consumed();
    Walk(listener, kids[i]);
    ghost var log', next', c' := b.log, b.nextMarker, b.Consumed();
    ChildStep(kids, i, errs, types, n, log0, c0, b.TotalReal(), log, next, c, log', next', c');
  }

  /** The walker's loop over a rule node's children. */
  method WalkChildren(listener: ParseTreeToPsiConverter, t: ParseTree)
    requires listener.Valid() && t.Rule? && RuleIndicesBelow(t, |listener.ruleElementTypes|)
    modifies listener`markers, listener.builder`cursor, listener.builder`log,
             listener.builder`nextMarker, listener.builder`marks
    ensures listener.Valid()
    ensures var ops := ReplayChildren(t.children, listener.tokenToErrorMap, listener.ruleElementTypes,
                                      old(listener.builder.nextMarker));
      && listener.builder.log == old(listener.builder.log) + ops
      && listener.builder.nextMarker == old(listener.builder.nextMarker) + MarkersIn(t.children, listener.tokenToErrorMap)
      && listener.builder.Consumed() ==
           Min(old(listener.builder.Consumed()) + ConsumedLeavesIn(t.children, listener.tokenToErrorMap),
               listener.builder.TotalReal())
    ensures listener.markers == old(listener.markers)
    ensures MarksKept(old(listener.builder.marks), listener.builder.marks)
    decreases t, 1
  {
    var b := listener.builder;
    var kids := t.children;
    ghost var log0, c0, n := b.log, b.Consumed(), b.nextMarker;
    RealCountPrefix(b.slots, b.cursor);
    assert kids[..0] == [];
    var i := 0;
    while i < |kids|
      invariant i <= |kids| && listener.Valid() && c0 <= b.TotalReal()
      invariant WalkedUpTo(listener, kids, i, log0, c0, n)
      invariant listener.markers == old(listener.markers)
      invariant MarksKept(old(b.marks), b.marks)
    {
      WalkChild(listener, t, i, log0, c0, n);
      i := i + 1;
    }
    assert kids[..|kids|] == kids;
  }
}
