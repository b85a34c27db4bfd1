/**
 * `PSITokenSource`: makes the host builder look like a source of ANTLR
 * tokens.  It keeps its own raw index (`currentTokenIndex`), skips raw slots
 * the host classifies as whitespace or comment, and rebuilds each token's
 * text from the gap between one slot's start and the next one's.  It never
 * advances the host cursor; it only peeks.
 */
module TokenSource {
  import opened Antlr
  import opened Host

  /** The strategy a token source builds tokens with (`TokenFactory`); only the
   *  default one is modelled, see `PSITokenSource.NextToken`. */
  datatype TokenFactory = TokenFactory(id: nat)

  /** `CommonTokenFactory.DEFAULT`. */
  const DEFAULT_FACTORY: TokenFactory := TokenFactory(0)

  /** `rawTokenTypeStart` for the absolute raw index `i`. */
  function SlotStart(slots: seq<RawSlot>, text: string, i: nat): (r: nat)
    requires WellFormedSlots(slots, text)
    ensures r <= |text|
    ensures i < |slots| ==> r == slots[i].start
    ensures i >= |slots| ==> r == |text|
  {
    if i < |slots| then slots[i].start else |text|
  }

  /**
   * The token built from raw index `i`: the slot's type (EOF past the end), its
   * start, the text up to the next slot's start, stop = start + length - 1
   * (length 0 for EOF), default channel, line and column 0, not yet numbered.
   */
  function SlotToken(slots: seq<RawSlot>, text: string, i: nat): (t: Token)
    requires WellFormedSlots(slots, text)
    ensures t.ttype == if i < |slots| then slots[i].antlrType else EOF
    ensures t.start == SlotStart(slots, text, i)
    ensures t.text == text[SlotStart(slots, text, i)..SlotStart(slots, text, i + 1)]
    ensures t.stop == t.start + (if t.ttype != EOF then |t.text| else 0) - 1
    ensures t.channel == DEFAULT_CHANNEL && t.line == 0 && t.column == 0 && t.tokenIndex == UNNUMBERED
  {
    var start := SlotStart(slots, text, i);
    var next := SlotStart(slots, text, i + 1);
    var ttype := if i < |slots| then slots[i].antlrType else EOF;
    var tokenText := text[start..next];
    var length := if ttype != EOF then |tokenText| else 0;
    Token(ttype, tokenText, DEFAULT_CHANNEL, start, start + length - 1, 0, 0, UNNUMBERED)
  }

  /** The raw indices `n` successive `nextToken` calls build their tokens
   *  from when the source's raw index starts at `i`. */
  function ReadIndices(slots: seq<RawSlot>, i: nat, n: nat): (ix: seq<nat>)
    ensures |ix| == n
    decreases n
  {
    if n == 0 then []
    else
      var j := SkipTrivia(slots, i);
      [j] + ReadIndices(slots, j + 1, n - 1)
  }

  /** The raw indices at or after `i` of slots that are not whitespace or
   *  comment, in order. */
  function RealIndices(slots: seq<RawSlot>, i: nat): seq<nat>
    decreases |slots| - i
  {
    if i >= |slots| then []
    else if slots[i].trivia then RealIndices(slots, i + 1)
    else [i] + RealIndices(slots, i + 1)
  }

  /** `ix` lists real slot indices at or after `i`, in increasing order. */
  ghost predicate RealAndIncreasing(slots: seq<RawSlot>, i: nat, ix: seq<nat>)
  {
    && (forall k :: 0 <= k < |ix| ==> i <= ix[k] < |slots| && !slots[ix[k]].trivia)
    && (forall k, l :: 0 <= k < l < |ix| ==> ix[k] < ix[l])
  }

  /** The real indices are in range, point at real slots, and increase. */
  lemma {:induction false} RealIndicesAreReal(slots: seq<RawSlot>, i: nat)
    ensures RealAndIncreasing(slots, i, RealIndices(slots, i))
    decreases |slots| - i
  {
    if i < |slots| {
      RealIndicesAreReal(slots, i + 1);
      var rest := RealIndices(slots, i + 1);
      if !slots[i].trivia {
        var ix := [i] + rest;
        assert RealIndices(slots, i) == ix;
        forall k | 0 <= k < |ix|
          ensures i <= ix[k] < |slots| && !slots[ix[k]].trivia
          ensures forall l :: k < l < |ix| ==> ix[k] < ix[l]
        {
          assert forall l :: 0 < l < |ix| ==> ix[l] == rest[l - 1];
        }
      } else {
        assert RealIndices(slots, i) == rest;
      }
    }
  }

  /**
   * Trivia transparency: starting at raw index `i`, successive `nextToken`
   * calls build their tokens from exactly the real slots, in order, and then
   * from the end position (the EOF token, see `SlotToken`); no whitespace or
   * comment slot ever reaches the parser.
   */
  lemma {:induction false} ReadIndicesAreRealSlots(slots: seq<RawSlot>, i: nat)
    requires i <= |slots|
    ensures var ix := RealIndices(slots, i);
      ReadIndices(slots, i, |ix| + 1) == ix + [|slots|]
    decreases |slots| - i
  {
    var j := SkipTrivia(slots, i);
    RealIndicesSkip(slots, i);
    if j < |slots| {
      var rest := RealIndices(slots, j + 1);
      ReadIndicesAreRealSlots(slots, j + 1);
      ConsSnoc(j, rest, |slots|);
    }
  }

  /** Re-bracketing `[j] + ix + [e]` (a solver step for `ReadIndicesAreRealSlots`). */
  lemma ConsSnoc(j: nat, ix: seq<nat>, e: nat)
    ensures [j] + ix + [e] == [j] + (ix + [e])
  {
  }

  /** Real indices from `i` are those from the first real slot at or after `i`. */
  lemma {:induction false} RealIndicesSkip(slots: seq<RawSlot>, i: nat)
    requires i <= |slots|
    ensures var j := SkipTrivia(slots, i);
      RealIndices(slots, i) == if j < |slots| then [j] + RealIndices(slots, j + 1) else []
    decreases |slots| - i
  {
    if i < |slots| && slots[i].trivia {
      RealIndicesSkip(slots, i + 1);
    }
  }

  class PSITokenSource {
    const builder: Builder
    var tokenFactory: TokenFactory
    var currentTokenIndex: nat
    var builderTokenIndex: nat

    ghost predicate Valid()
      reads this, builder
    {
      builder.Valid() && builder.WellFormed()
    }

    constructor (builder: Builder)
      requires builder.Valid() && builder.WellFormed()
      ensures Valid() && this.builder == builder
      ensures tokenFactory == DEFAULT_FACTORY && currentTokenIndex == 0 && builderTokenIndex == 0
    {
      this.builder := builder;
      tokenFactory := DEFAULT_FACTORY;
      currentTokenIndex := 0;
      builderTokenIndex := 0;
    }

    /** `getLine()`: the host reports no lines at this layer. */
    function GetLine(): (line: int)
      ensures line == 0
    {
      0
    }

    /** `getCharPositionInLine()`: nor columns. */
    function GetCharPositionInLine(): (column: int)
      ensures column == 0
    {
      0
    }

    function GetTokenFactory(): (f: TokenFactory)
      reads this
      ensures f == tokenFactory
    {
      tokenFactory
    }

    method SetTokenFactory(factory: TokenFactory)
      modifies this`tokenFactory
      ensures tokenFactory == factory
    {
      tokenFactory := factory;
    }

    /**
     * The skipping loop of `nextToken()`: walks the source's raw index (and
     * its offset from the host cursor) over whitespace and comment slots, up
     * to the first other slot or the end.
     */
    method SkipHidden(tokenOffset: int) returns (offset: int)
      requires Valid() && tokenOffset == currentTokenIndex - builder.cursor
      modifies this`currentTokenIndex
      ensures currentTokenIndex == SkipTrivia(builder.slots, old(currentTokenIndex))
      ensures offset == currentTokenIndex - builder.cursor
    {
      offset := tokenOffset;
      var ideaType := builder.RawLookup(offset);
      while ideaType.Some? && ideaType.value.trivia
        invariant offset == currentTokenIndex - builder.cursor
        invariant old(currentTokenIndex) <= currentTokenIndex
        invariant SkipTrivia(builder.slots, old(currentTokenIndex)) == SkipTrivia(builder.slots, currentTokenIndex)
        invariant ideaType == builder.RawLookup(offset)
        decreases |builder.slots| - currentTokenIndex
      {
        currentTokenIndex := currentTokenIndex + 1;
        offset := offset + 1;
        ideaType := builder.RawLookup(offset);
      }
    }

    /**
     * The token `nextToken()` builds from the slot `tokenOffset` away from the
     * host cursor: that slot's type (EOF past the end), its text between its
     * start and the next slot's start, stop one before the end of that text
     * (start - 1 for EOF), the default channel, no line or column.
     */
    function MakeToken(tokenOffset: int): (t: Token)
      reads this, builder
      requires Valid() && 0 <= builder.cursor + tokenOffset
      ensures t == SlotToken(builder.slots, builder.text, builder.cursor + tokenOffset)
    {
      var ideaType := builder.RawLookup(tokenOffset);
      var ttype := if ideaType.Some? then ideaType.value.antlrType else EOF;
      var start := builder.RawTokenTypeStart(tokenOffset);
      var text := builder.text[builder.RawTokenTypeStart(tokenOffset)..builder.RawTokenTypeStart(tokenOffset + 1)];
      var length := if ttype != EOF then |text| else 0;
      Token(ttype, text, DEFAULT_CHANNEL, start, start + length - 1, 0, 0, UNNUMBERED)
    }

    /**
     * `nextToken()`: peeks (skipping trivia at the host cursor), then walks its
     * own raw index over whitespace and comment slots, builds the token from
     * the first other slot (or the end) and moves its index one past it.  The
     * host's production and consumed-token count are untouched.
     */
    method NextToken() returns (t: Token)
      requires Valid()
      modifies this`currentTokenIndex, this`builderTokenIndex, builder`cursor
      ensures Valid()
      ensures var j := SkipTrivia(builder.slots, old(currentTokenIndex));
        && t == SlotToken(builder.slots, builder.text, j)
        && currentTokenIndex == j + 1
      ensures t.line == GetLine() && t.column == GetCharPositionInLine() && t.channel == DEFAULT_CHANNEL
      ensures builderTokenIndex == builder.cursor == SkipTrivia(builder.slots, old(builder.cursor))
      ensures builder.log == old(builder.log) && builder.Consumed() == old(builder.Consumed())
    {
      var _ := builder.GetTokenType();
      builderTokenIndex := builder.RawTokenIndex();
      var tokenOffset := SkipHidden(currentTokenIndex - builderTokenIndex);
      t := MakeToken(tokenOffset);
      currentTokenIndex := currentTokenIndex + 1;
    }
  }
}
