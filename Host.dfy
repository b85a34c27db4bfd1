/**
 * The host editor's incremental tree builder (IntelliJ's `PsiBuilder`), seen
 * abstractly: a fixed sequence of raw token slots over the original text, a
 * raw cursor into it, and the production the builder records (markers opened,
 * tokens advanced over, markers closed with a tag or with an error).
 *
 * Every query the bridge uses is given the meaning it has in the host:
 * `rawLookup` and `rawTokenTypeStart` look relative to the raw cursor and
 * answer "nothing" / the text length past the end; `getTokenType` and `eof`
 * first skip whitespace and comment slots; `advanceLexer` skips them and then
 * steps over one real slot unless the input is exhausted; `rollbackTo` restores
 * the cursor and drops everything recorded since the marker was opened.
 */
module Host {
  import opened Antlr

  /** One raw token slot: its ANTLR token type, whether the host classifies it
   *  as whitespace or comment, and its start offset in the original text. */
  datatype RawSlot = RawSlot(antlrType: int, trivia: bool, start: nat)

  /** A host element type: a rule's or a token's tag, or the root's. */
  datatype ElementType = ElementType(id: nat)

  /** A marker handle; the builder hands them out in increasing order. */
  type Marker = nat

  /** What the builder records. */
  datatype Op =
    | Mark(m: Marker)
    | Advance
    | Done(m: Marker, tag: ElementType)
    | Error(m: Marker, message: string)

  /** Where a marker was opened: the raw cursor and the production length. */
  datatype MarkPoint = MarkPoint(cursor: nat, logLength: nat)

  /** Slot starts never decrease and never pass the end of the text. */
  ghost predicate WellFormedSlots(slots: seq<RawSlot>, text: string) {
    && (forall i, j :: 0 <= i <= j < |slots| ==> slots[i].start <= slots[j].start)
    && (forall i :: 0 <= i < |slots| ==> slots[i].start <= |text|)
  }

  function Min(a: int, b: int): int {
    if a <= b then a else b
  }

  /**
   * The first raw index at or after `i` that is past the end or holds a slot
   * that is not whitespace or comment.
   */
  function SkipTrivia(slots: seq<RawSlot>, i: nat): (j: nat)
    ensures i <= j
    ensures j < |slots| ==> !slots[j].trivia
    ensures j >= |slots| ==> j == if i <= |slots| then |slots| else i
    ensures forall k :: i <= k < j ==> slots[k].trivia
    decreases |slots| - i
  {
    if i < |slots| && slots[i].trivia then SkipTrivia(slots, i + 1) else i
  }

  /** The number of real (non-trivia) slots in `s`. */
  function RealCount(s: seq<RawSlot>): nat {
    if s == [] then 0
    else RealCount(s[..|s| - 1]) + if s[|s| - 1].trivia then 0 else 1
  }

  /** Counting real slots of a prefix never exceeds the whole. */
  lemma {:induction false} RealCountPrefix(s: seq<RawSlot>, i: nat)
    requires i <= |s|
    ensures RealCount(s[..i]) <= RealCount(s)
    decreases |s| - i
  {
    if i < |s| {
      RealCountPrefix(s, i + 1);
      assert s[..i + 1][..i] == s[..i];
    } else {
      assert s[..i] == s;
    }
  }

  /** Skipping trivia consumes no real slot. */
  lemma {:induction false} SkipKeepsCount(s: seq<RawSlot>, i: nat)
    requires i <= |s|
    ensures RealCount(s[..SkipTrivia(s, i)]) == RealCount(s[..i])
    decreases |s| - i
  {
    if i < |s| && s[i].trivia {
      assert s[..i + 1][..i] == s[..i];
      SkipKeepsCount(s, i + 1);
    }
  }

  /**
   * The input is exhausted from raw index `i` on exactly when every real slot
   * lies before `i`.
   */
  lemma AtEndIffAllConsumed(s: seq<RawSlot>, i: nat)
    requires i <= |s|
    ensures SkipTrivia(s, i) == |s| <==> RealCount(s[..i]) == RealCount(s)
    ensures SkipTrivia(s, i) < |s| ==> RealCount(s[..SkipTrivia(s, i) + 1]) == RealCount(s[..i]) + 1
  {
    var j := SkipTrivia(s, i);
    SkipKeepsCount(s, i);
    if j == |s| {
      assert s[..j] == s;
    } else {
      assert s[..j + 1][..j] == s[..j];
      RealCountPrefix(s, j + 1);
    }
  }

  /**
   * Replays `ops` against a stack of open markers (top first): opening pushes,
   * closing must name the top and pops it.  `None` when a close does not match.
   */
  function Bracket(ops: seq<Op>, open: seq<Marker>): Option<seq<Marker>> {
    if ops == [] then Some(open)
    else match ops[0]
      case Mark(m) => Bracket(ops[1..], [m] + open)
      case Advance => Bracket(ops[1..], open)
      case Done(m, _) => if open != [] && open[0] == m then Bracket(ops[1..], open[1..]) else None
      case Error(m, _) => if open != [] && open[0] == m then Bracket(ops[1..], open[1..]) else None
  }

  /** Bracketing a concatenation is bracketing its halves in turn. */
  lemma {:induction false} BracketAppend(a: seq<Op>, b: seq<Op>, open: seq<Marker>)
    ensures Bracket(a + b, open) == match Bracket(a, open) case None => None case Some(s) => Bracket(b, s)
    decreases |a|
  {
    if a != [] {
      assert (a + b)[1..] == a[1..] + b;
      match a[0]
      case Mark(m) => BracketAppend(a[1..], b, [m] + open);
      case Advance => BracketAppend(a[1..], b, open);
      case Done(m, _) =>
        if open != [] && open[0] == m { BracketAppend(a[1..], b, open[1..]); }
      case Error(m, _) =>
        if open != [] && open[0] == m { BracketAppend(a[1..], b, open[1..]); }
    } else {
      assert a + b == b;
    }
  }

  /** A stretch that leaves the stack as it found it stays balanced when
   *  wrapped in a marker opened before it and closed after it. */
  lemma BracketWrap(m: Marker, inner: seq<Op>, tag: ElementType, open: seq<Marker>)
    requires Bracket(inner, [m] + open) == Some([m] + open)
    ensures Bracket([Op.Mark(m)] + inner + [Op.Done(m, tag)], open) == Some(open)
  {
    BracketAppend([Op.Mark(m)], inner, open);
    BracketAppend([Op.Mark(m)] + inner, [Op.Done(m, tag)], open);
    assert ([m] + open)[1..] == open;
  }

  datatype OpKind = MarkOp | AdvanceOp | DoneOp | ErrorOp

  function KindOf(op: Op): OpKind {
    match op
    case Mark(_) => MarkOp
    case Advance => AdvanceOp
    case Done(_, _) => DoneOp
    case Error(_, _) => ErrorOp
  }

  /** The kinds of `ops`, position by position. */
  function Kinds(ops: seq<Op>): (ks: seq<OpKind>)
    ensures |ks| == |ops| && forall i :: 0 <= i < |ops| ==> ks[i] == KindOf(ops[i])
  {
    seq(|ops|, i requires 0 <= i < |ops| => KindOf(ops[i]))
  }

  /** How many operations of kind `k` `ops` holds. */
  function Count(ops: seq<Op>, k: OpKind): nat {
    multiset(Kinds(ops))[k]
  }

  lemma CountAppend(a: seq<Op>, b: seq<Op>, k: OpKind)
    ensures Count(a + b, k) == Count(a, k) + Count(b, k)
  {
    assert Kinds(a + b) == Kinds(a) + Kinds(b);
  }

  /** A one-operation production counts its one kind (a solver step for the
   *  small-production counts). */
  lemma CountOne(op: Op, k: OpKind)
    ensures Count([op], k) == if KindOf(op) == k then 1 else 0
  {
    assert Kinds([op]) == [KindOf(op)];
  }

  /** Wrapping a stretch in a marker and its `done` adds one mark and one
   *  `done` to its counts. */
  lemma CountWrap(m: Marker, inner: seq<Op>, tag: ElementType, k: OpKind)
    ensures Count([Op.Mark(m)] + inner + [Op.Done(m, tag)], k) ==
      Count(inner, k) + (if k == MarkOp then 1 else 0) + (if k == DoneOp then 1 else 0)
  {
    CountAppend([Op.Mark(m)], inner, k);
    CountAppend([Op.Mark(m)] + inner, [Op.Done(m, tag)], k);
    CountOne(Op.Mark(m), k);
    CountOne(Op.Done(m, tag), k);
  }

  /**
   * A well-bracketed stretch of production opens exactly as many markers as it
   * closes, with a tag or with an error.
   */
  lemma {:induction false} BracketCounts(ops: seq<Op>, open: seq<Marker>, after: seq<Marker>)
    requires Bracket(ops, open) == Some(after)
    ensures |open| + Count(ops, MarkOp) == |after| + Count(ops, DoneOp) + Count(ops, ErrorOp)
    decreases |ops|
  {
    if ops != [] {
      assert ops == [ops[0]] + ops[1..];
      CountOne(ops[0], MarkOp);
      CountOne(ops[0], DoneOp);
      CountOne(ops[0], ErrorOp);
      CountAppend([ops[0]], ops[1..], MarkOp);
      CountAppend([ops[0]], ops[1..], DoneOp);
      CountAppend([ops[0]], ops[1..], ErrorOp);
      match ops[0]
      case Mark(m) => BracketCounts(ops[1..], [m] + open, after);
      case Advance => BracketCounts(ops[1..], open, after);
      case Done(_, _) => BracketCounts(ops[1..], open[1..], after);
      case Error(_, _) => BracketCounts(ops[1..], open[1..], after);
    }
  }

  /** `k` calls of `advanceLexer`. */
  function AdvanceRun(k: nat): (ops: seq<Op>)
    ensures |ops| == k
  {
    if k == 0 then [] else AdvanceRun(k - 1) + [Advance]
  }

  /** A run of advances leaves any stack of open markers as it is, and holds
   *  `k` advances and nothing else. */
  lemma {:induction false} AdvanceRunShape(k: nat, open: seq<Marker>)
    ensures Bracket(AdvanceRun(k), open) == Some(open)
    ensures Count(AdvanceRun(k), AdvanceOp) == k
    ensures Count(AdvanceRun(k), MarkOp) == Count(AdvanceRun(k), DoneOp) == Count(AdvanceRun(k), ErrorOp) == 0
    decreases k
  {
    if k > 0 {
      var before := AdvanceRun(k - 1);
      AdvanceRunShape(k - 1, open);
      BracketAppend(before, [Advance], open);
      assert [Advance][1..] == [];
      CountAppend(before, [Advance], AdvanceOp);
      CountAppend(before, [Advance], MarkOp);
      CountAppend(before, [Advance], DoneOp);
      CountAppend(before, [Advance], ErrorOp);
      CountOne(Advance, AdvanceOp);
      CountOne(Advance, MarkOp);
      CountOne(Advance, DoneOp);
      CountOne(Advance, ErrorOp);
    }
  }

  /** Every marker `before` records is still recorded in `after`, at the same
   *  point: opening markers never moves or forgets an earlier one. */
  ghost predicate MarksKept(before: seq<MarkPoint>, after: seq<MarkPoint>) {
    before <= after
  }

  /** Keeping marks is transitive (a solver step for the multi-phase parses). */
  lemma MarksKeptTrans(a: seq<MarkPoint>, b: seq<MarkPoint>, c: seq<MarkPoint>)
    requires MarksKept(a, b) && MarksKept(b, c)
    ensures MarksKept(a, c)
  {
  }

  /** The abstract `PsiBuilder`. */
  class Builder {
    const slots: seq<RawSlot>
    const text: string
    var cursor: nat
    var log: seq<Op>
    var nextMarker: Marker
    /** Where each marker handed out so far was opened, by marker id. */
    var marks: seq<MarkPoint>

    /** The cursor and every recorded mark point lie within the slots, and
     *  exactly the markers handed out before `nextMarker` are recorded. */
    ghost predicate Valid()
      reads this
    {
      && cursor <= |slots|
      && |marks| == nextMarker
      && (forall m :: 0 <= m < |marks| ==> marks[m].cursor <= |slots|)
    }

    /** The lexer's slots agree with the text they were cut from. */
    ghost predicate WellFormed() {
      WellFormedSlots(slots, text)
    }

    constructor (slots: seq<RawSlot>, text: string)
      ensures Valid() && this.slots == slots && this.text == text
      ensures cursor == 0 && log == [] && nextMarker == 0 && marks == []
    {
      this.slots := slots;
      this.text := text;
      cursor := 0;
      log := [];
      nextMarker := 0;
      marks := [];
    }

    /** Real slots the builder has stepped over so far. */
    function Consumed(): (c: nat)
      reads this`cursor
      requires cursor <= |slots|
      ensures c <= TotalReal()
    {
      RealCountPrefix(slots, cursor);
      RealCount(slots[..cursor])
    }

    function TotalReal(): nat {
      RealCount(slots)
    }

    /** `rawTokenIndex()`. */
    function RawTokenIndex(): nat
      reads this
    {
      cursor
    }

    /** `rawLookup(steps)`: the slot `steps` away from the cursor, if any. */
    function RawLookup(steps: int): (r: Option<RawSlot>)
      reads this
      ensures r.Some? <==> 0 <= cursor + steps < |slots|
      ensures r.Some? ==> r.value == slots[cursor + steps]
    {
      var i := cursor + steps;
      if 0 <= i < |slots| then Some(slots[i]) else None
    }

    /** `rawTokenTypeStart(steps)`: that slot's start offset; the text length
     *  past the end and -1 before the beginning. */
    function RawTokenTypeStart(steps: int): (r: int)
      reads this
      requires WellFormed()
      ensures 0 <= cursor + steps ==> 0 <= r <= |text|
    {
      var i := cursor + steps;
      if i < 0 then -1 else if i >= |slots| then |text| else slots[i].start
    }

    /** `getTokenType()`: skips whitespace and comments and reports the current
     *  token's type, `None` at the end. */
    method GetTokenType() returns (r: Option<int>)
      requires Valid()
      modifies this`cursor
      ensures Valid()
      ensures cursor == SkipTrivia(slots, old(cursor))
      ensures Consumed() == old(Consumed())
      ensures r.Some? <==> cursor < |slots|
      ensures r.Some? ==> r.value == slots[cursor].antlrType
    {
      SkipKeepsCount(slots, cursor);
      cursor := SkipTrivia(slots, cursor);
      r := if cursor < |slots| then Some(slots[cursor].antlrType) else None;
    }

    /** `eof()`: skips whitespace and comments and tells whether no real
     *  token is left. */
    method Eof() returns (atEnd: bool)
      requires Valid()
      modifies this`cursor
      ensures Valid()
      ensures cursor == SkipTrivia(slots, old(cursor))
      ensures Consumed() == old(Consumed())
      ensures atEnd <==> Consumed() == TotalReal()
    {
      AtEndIffAllConsumed(slots, cursor);
      SkipKeepsCount(slots, cursor);
      cursor := SkipTrivia(slots, cursor);
      atEnd := cursor >= |slots|;
    }

    /** `advanceLexer()`: steps over the next real token unless none is left. */
    method AdvanceLexer()
      requires Valid()
      modifies this`cursor, this`log
      ensures Valid()
      ensures log == old(log) + [Advance]
      ensures Consumed() == Min(old(Consumed()) + 1, TotalReal())
    {
      AtEndIffAllConsumed(slots, cursor);
      SkipKeepsCount(slots, cursor);
      RealCountPrefix(slots, cursor);
      var j := SkipTrivia(slots, cursor);
      if j < |slots| {
        RealCountPrefix(slots, j + 1);
        assert RealCount(slots[..j + 1]) == Consumed() + 1;
        cursor := j + 1;
      } else {
        cursor := j;
      }
      log := log + [Advance];
    }

    /** `mark()`: opens a new marker at the current position. */
    method Mark() returns (m: Marker)
      requires Valid()
      modifies this`log, this`nextMarker, this`marks
      ensures Valid()
      ensures m == old(nextMarker) && nextMarker == m + 1
      ensures log == old(log) + [Op.Mark(m)]
      ensures marks == old(marks) + [MarkPoint(cursor, |old(log)|)]
      ensures MarksKept(old(marks), marks)
      ensures Consumed() == old(Consumed())
    {
      m := nextMarker;
      nextMarker := nextMarker + 1;
      marks := marks + [MarkPoint(cursor, |log|)];
      log := log + [Op.Mark(m)];
    }

    /** `marker.done(tag)`: closes `m` as a node tagged `tag`. */
    method Done(m: Marker, tag: ElementType)
      requires Valid()
      modifies this`log
      ensures Valid()
      ensures log == old(log) + [Op.Done(m, tag)]
    {
      log := log + [Op.Done(m, tag)];
    }

    /** `marker.error(message)`: closes `m` as an error node. */
    method Error(m: Marker, message: string)
      requires Valid()
      modifies this`log
      ensures Valid()
      ensures log == old(log) + [Op.Error(m, message)]
    {
      log := log + [Op.Error(m, message)];
    }

    /** `marker.rollbackTo()`: restores the cursor to where `m` was opened and
     *  forgets everything recorded since, `m` included. */
    method RollbackTo(m: Marker)
      requires Valid()
      requires m < |marks| && marks[m].logLength <= |log|
      modifies this`cursor, this`log
      ensures Valid()
      ensures cursor == old(marks[m].cursor)
      ensures log == old(log[..marks[m].logLength])
    {
      cursor := marks[m].cursor;
      log := log[..marks[m].logLength];
    }
  }
}
