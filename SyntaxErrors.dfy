/**
 * The collector the bridge installs on the parser: every syntax error whose
 * message does not start with "report" is appended, in call order, to a list
 * that the tree converter later reads.
 */
module SyntaxErrors {
  import opened Antlr

  /** An error listener installed on the parser: the collector, or ANTLR's
   *  console listener (which only prints). */
  datatype ErrorListener =
    | Collecting(collector: SyntaxErrorListener)
    | Console

  /** The errors a call sequence leaves in a collector: every report whose
   *  message does not start with "report", in order. */
  function Kept(reports: seq<SyntaxError>): (kept: seq<SyntaxError>)
    ensures |kept| <= |reports|
  {
    if reports == [] then []
    else
      var last := reports[|reports| - 1];
      Kept(reports[..|reports| - 1]) + if StartsWith(last.msg, "report") then [] else [last]
  }

  /** A report is kept if and only if its message does not start with
   *  "report"; the kept ones keep their relative order. */
  lemma {:induction false} KeptIsFilter(reports: seq<SyntaxError>, e: SyntaxError)
    ensures e in Kept(reports) <==> e in reports && !StartsWith(e.msg, "report")
    decreases |reports|
  {
    if reports != [] {
      var init := reports[..|reports| - 1];
      KeptIsFilter(init, e);
      assert reports == init + [reports[|reports| - 1]];
    }
  }

  class SyntaxErrorListener {
    var syntaxErrors: seq<SyntaxError>

    constructor ()
      ensures syntaxErrors == []
    {
      syntaxErrors := [];
    }

    /** `getSyntaxErrors()`: the collector's own list, not a copy. */
    function GetSyntaxErrors(): (errs: seq<SyntaxError>)
      reads this
      ensures errs == syntaxErrors
    {
      syntaxErrors
    }

    /** `syntaxError(...)`: a message starting with "report" is only printed;
     *  any other is appended as one new record. */
    method SyntaxError(offendingSymbol: Token, line: int, charPositionInLine: int,
                       msg: string, e: Option<RecognitionException>)
      modifies this
      ensures StartsWith(msg, "report") ==> syntaxErrors == old(syntaxErrors)
      ensures !StartsWith(msg, "report") ==>
        syntaxErrors == old(syntaxErrors) + [Antlr.SyntaxError(offendingSymbol, line, charPositionInLine, msg, e)]
    {
      if !StartsWith(msg, "report") {
        syntaxErrors := syntaxErrors + [Antlr.SyntaxError(offendingSymbol, line, charPositionInLine, msg, e)];
      }
    }

    /**
     * `toString()`: the rendered errors joined by newlines.  No errors give
     * the empty text; otherwise, when no rendering holds a newline, cutting
     * the text at newlines gives back one line per collected error, in list
     * order.
     */
    function ToString(render: Antlr.SyntaxError -> string): (s: string)
      reads this
      ensures syntaxErrors == [] ==> s == ""
      ensures syntaxErrors != [] && (forall i :: 0 <= i < |syntaxErrors| ==> '\n' !in render(syntaxErrors[i])) ==>
        Split(s, '\n') == Render(syntaxErrors, render)
    {
      var lines := Render(syntaxErrors, render);
      if lines != [] && forall i :: 0 <= i < |lines| ==> '\n' !in lines[i] then
        SplitJoin(lines, '\n');
        Join(lines, '\n')
      else
        Join(lines, '\n')
    }
  }

  function Render(errors: seq<SyntaxError>, render: SyntaxError -> string): (lines: seq<string>)
    ensures |lines| == |errors|
    ensures forall i :: 0 <= i < |errors| ==> lines[i] == render(errors[i])
  {
    if errors == [] then [] else [render(errors[0])] + Render(errors[1..], render)
  }

  /** `Utils.join`: the parts with `sep` between neighbours. */
  function Join(parts: seq<string>, sep: char): string {
    if parts == [] then ""
    else if |parts| == 1 then parts[0]
    else parts[0] + [sep] + Join(parts[1..], sep)
  }

  /** Cuts `s` at every `sep`; the partner of `Join`. */
  function Split(s: string, sep: char): (parts: seq<string>)
    ensures |parts| >= 1
  {
    if s == [] then [""]
    else
      var rest := Split(s[1..], sep);
      if s[0] == sep then [""] + rest else [[s[0]] + rest[0]] + rest[1..]
  }

  /** Splitting a piece free of `sep` followed by more text glues the piece
   *  to the first part of the rest. */
  lemma {:induction false} SplitPrefix(x: string, t: string, sep: char)
    requires sep !in x
    ensures Split(x + t, sep) == [x + Split(t, sep)[0]] + Split(t, sep)[1..]
    decreases |x|
  {
    var st := Split(t, sep);
    if x != [] {
      assert x[0] in x;
      assert (x + t)[0] == x[0];
      assert (x + t)[1..] == x[1..] + t;
      SplitPrefix(x[1..], t, sep);
      assert [x[0]] + (x[1..] + Split(t, sep)[0]) == x + Split(t, sep)[0];
    } else {
      assert x + t == t;
      assert st == [st[0]] + st[1..];
      assert x + st[0] == st[0];
    }
  }

  /**
   * Joining error lines that hold no newline and cutting the result at
   * newlines gives the lines back: the text lists each error exactly once, in
   * list order.
   */
  lemma {:induction false} SplitJoin(parts: seq<string>, sep: char)
    requires parts != []
    requires forall i :: 0 <= i < |parts| ==> sep !in parts[i]
    ensures Split(Join(parts, sep), sep) == parts
    decreases |parts|
  {
    if |parts| == 1 {
      SplitPrefix(parts[0], "", sep);
      assert parts[0] + "" == parts[0];
    } else {
      var rest := Join(parts[1..], sep);
      SplitJoin(parts[1..], sep);
      assert parts[0] + [sep] + rest == parts[0] + ([sep] + rest);
      SplitPrefix(parts[0], [sep] + rest, sep);
      assert ([sep] + rest)[1..] == rest;
      assert Split([sep] + rest, sep) == [""] + Split(rest, sep);
      assert parts[0] + "" == parts[0];
      assert parts == [parts[0]] + parts[1..];
    }
  }
}
