/**
  Plain stand-ins for the editor types the analyzers produce: positions,
  ranges, diagnostics and the parsed-token records handed to the
  semantic-highlighting builder.
*/
module Host {

  /** vscode.Position: a zero-based line and character. */
  datatype Position = Position(line: int, character: int)

  /** vscode.Range, recorded as the four constructor arguments in the order
      a call site passes them (some call sites pass a column where the
      constructor expects a line). */
  datatype Range = Range(startLine: int, startCharacter: int, endLine: int, endCharacter: int)

  /** The arguments `new vscode.Range` accepts: the `vscode.Position`
      constructor rejects a negative line or character with an exception. */
  predicate Constructible(r: Range)
  {
    r.startLine >= 0 && r.startCharacter >= 0 && r.endLine >= 0 && r.endCharacter >= 0
  }

  datatype Severity = Error | Warning

  datatype Diagnostic = Diagnostic(message: string, range: Range, severity: Severity, source: string)

  /** IParsedToken */
  datatype Token = Token(line: int, startCharacter: int, length: int, tokenType: string, tokenModifiers: seq<string>)

  /** Every diagnostic of the analyzers carries the source label "SDF". */
  const Source: string := "SDF"

  function ErrorAt(message: string, range: Range): Diagnostic
  {
    Diagnostic(message, range, Error, Source)
  }

  /** The analyzers' ordered token/diagnostic lists only ever grow during a parse. */
  predicate Extends<T(==)>(before: seq<T>, after: seq<T>)
  {
    |before| <= |after| && after[..|before|] == before
  }

  lemma ExtendsTrans<T>(a: seq<T>, b: seq<T>, c: seq<T>)
    requires Extends(a, b) && Extends(b, c)
    ensures Extends(a, c)
  {
    assert c[..|a|] == c[..|b|][..|a|];
  }
}
