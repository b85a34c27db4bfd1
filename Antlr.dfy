/**
 * Values of the ANTLR runtime that cross the bridge: tokens, parse trees,
 * syntax-error records and recognition exceptions.  The runtime itself
 * (prediction, token buffering, the error strategy) is not part of this model.
 */
module Antlr {

  /** `Token.EOF`: the type of the end-of-input token. */
  const EOF: int := -1

  /** `Token.DEFAULT_CHANNEL`. */
  const DEFAULT_CHANNEL: int := 0

  /** `CommonToken`'s token index before a token stream numbers it. */
  const UNNUMBERED: int := -1

  /**
   * A token: its type, text, channel, start and (inclusive) stop character
   * offsets, line, column and its index in the token stream.  A token the
   * error strategy invents for a missing input ("conjured") has a negative
   * index.
   */
  datatype Token = Token(
    ttype: int,
    text: string,
    channel: int,
    start: int,
    stop: int,
    line: int,
    column: int,
    tokenIndex: int)
  {
    predicate IsConjured() { tokenIndex < 0 }
  }

  /**
   * The recognition failure attached to a syntax error.  Only
   * "no viable alternative" matters here: it carries the token where the
   * failed prediction started.
   */
  datatype RecognitionException =
    | NoViableAlt(startToken: Token)
    | OtherRecognitionError

  /**
   * A recorded syntax error: the offending token, line, column, message and
   * the optional recognition exception.
   */
  datatype SyntaxError = SyntaxError(
    offendingSymbol: Token,
    line: int,
    charPositionInLine: int,
    msg: string,
    e: Option<RecognitionException>)
  {
    /** `getOffendingSymbol()`: after a failed prediction ("no viable
     *  alternative") the token where prediction started, which is where the
     *  parse tree puts its error node; otherwise the token reported. */
    function GetOffendingSymbol(): Token {
      match e
      case Some(NoViableAlt(startToken)) => startToken
      case _ => offendingSymbol
    }
  }

  /**
   * A finished parse tree: rule nodes with their rule index and ordered
   * children, terminal nodes and error nodes, each of the last two wrapping
   * exactly one token.
   */
  datatype ParseTree =
    | Rule(ruleIndex: int, children: seq<ParseTree>)
    | Terminal(symbol: Token)
    | ErrorLeaf(symbol: Token)

  datatype Option<T> = None | Some(value: T)

  /** Every rule node of `t` has an index into a table of `n` element types. */
  ghost predicate RuleIndicesBelow(t: ParseTree, n: nat)
    decreases t
  {
    match t
    case Rule(r, kids) => 0 <= r < n && forall k :: 0 <= k < |kids| ==> RuleIndicesBelow(kids[k], n)
    case _ => true
  }

  /** The number of rule nodes in `t`. */
  function RuleNodes(t: ParseTree): nat
    decreases t
  {
    match t
    case Rule(_, kids) => 1 + RuleNodesIn(kids)
    case _ => 0
  }

  function RuleNodesIn(kids: seq<ParseTree>): nat
    decreases kids
  {
    if kids == [] then 0 else RuleNodesIn(kids[..|kids| - 1]) + RuleNodes(kids[|kids| - 1])
  }

  /** Does `msg` start with `prefix` (Java's `String.startsWith`)? */
  predicate StartsWith(msg: string, prefix: string) {
    |prefix| <= |msg| && msg[..|prefix|] == prefix
  }
}
