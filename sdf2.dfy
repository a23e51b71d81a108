/**
  The schema-document analyzer of src/sdf2.ts (`.sdftypes` files).

  Grammar: `Property := Name ':' Type`, `Type := '{' Property* '}' | Label ('[' ']')*`.
  The value-level functions below (`ExpectTypeF`, `ObjectLoopF`, …) are the
  meaning of the closures inside `Analyzer.Parse`; the class methods are
  proved to compute exactly them, and the lemmas state what they promise.
*/
module Sdf2 {
  import opened Js
  import opened Host
  import opened Feed

  /** A schema node: a scalar type label (array suffixes are not kept) or an
      object of named schema nodes. */
  datatype SchemaNode = Literal(Label: string) | Object(Props: Dict<NamedNode>)

  /** A schema node together with the property name it was attached under. */
  datatype NamedNode = NamedNode(Name: string, Node: SchemaNode)

  /** The `Type` tag of a node: 'OBJECT' or 'LITERAL'. */
  function TypeTag(n: SchemaNode): string
  {
    if n.Object? then "OBJECT" else "LITERAL"
  }

  /** Delimiters of a scalar type label. */
  const LabelDelimiters: string := "[{\r\n \t\0,"

  /** What a parse leaves in the analyzer: Tokens, Diagnostics and Root. */
  datatype Analysis = Analysis(tokens: seq<Token>, diags: seq<Diagnostic>, root: Dict<NamedNode>)

  /** The parser's state between two steps: the cursor and what has been emitted. */
  datatype State = State(cur: Cursor, tokens: seq<Token>, diags: seq<Diagnostic>)

  /** `st` was followed by `r`: the cursor did not move back, the token and
      diagnostic lists only grew, and every diagnostic added is an Error. */
  predicate Follows(st: State, r: State)
  {
    |r.cur.content| <= |st.cur.content| && Extends(st.tokens, r.tokens) && Extends(st.diags, r.diags)
    && forall i :: |st.diags| <= i < |r.diags| ==> r.diags[i].severity == Error
  }

  lemma FollowsTrans(a: State, b: State, c: State)
    requires Follows(a, b) && Follows(b, c)
    ensures Follows(a, c)
  {
    assert c.tokens[..|b.tokens|][..|a.tokens|] == c.tokens[..|a.tokens|];
    assert c.diags[..|b.diags|][..|a.diags|] == c.diags[..|a.diags|];
    forall i | |a.diags| <= i < |c.diags| ensures c.diags[i].severity == Error {
      if i < |b.diags| { assert c.diags[i] == c.diags[..|b.diags|][i]; }
    }
  }

  function WithCursor(st: State, c: Cursor): State { State(c, st.tokens, st.diags) }

  function Emit(st: State, t: Token): State { State(st.cur, st.tokens + [t], st.diags) }

  /** The `variable` token of a property name: from the name's first column
      to the column before the one reached after ':'. */
  function NameToken(line: int, start: int, end: int): Token
  {
    Token(line, start, end - start - 1, "variable", [])
  }

  /** The `type` token of a scalar label. */
  function LabelToken(line: int, start: int, end: int): Token
  {
    Token(line, start, end - start, "type", [])
  }

  /** The Error for a '[' not followed by ']' (column and line swapped). */
  function BracketError(line: int, column: int): Diagnostic
  {
    ErrorAt("Expected ']'", Range(column - 1, line, column, line))
  }

  function AddDiag(st: State, d: Diagnostic): State { State(st.cur, st.tokens, st.diags + [d]) }

  /** The Error pushed when a loop hits its ceiling (line, column - 1, line, column). */
  function CeilingError(c: Cursor, message: string): Diagnostic
  {
    ErrorAt(message, Range(c.line, c.column - 1, c.line, c.column))
  }

  // ---------------------------------------------------------------------
  // The parser as functions on states

  /** `ExpectPropertyName`: white space, the text up to ':', then the ':'. */
  function ExpectPropertyNameF(st: State): (r: (string, State))
    ensures |r.1.cur.content| <= |st.cur.content|
  {
    var u := Until(SkipWhitespace(st.cur), ":");
    (u.0, WithCursor(st, Next(u.1).1))
  }

  /** The part of `ExpectProperty` before the type: white space, the name,
      its `variable` token (from the name's first column to the column
      before the one after ':'), and the white space after ':'. */
  function PropertyHeadF(st: State): (r: (string, State))
    ensures |r.1.cur.content| <= |st.cur.content|
  {
    var c1 := SkipWhitespace(st.cur);
    var n := ExpectPropertyNameF(WithCursor(st, c1));
    var s2 := n.1;
    (n.0, WithCursor(Emit(s2, NameToken(s2.cur.line, c1.column, s2.cur.column)), SkipWhitespace(s2.cur)))
  }

  lemma PropertyHeadUnfold(st: State)
    ensures var s1 := WithCursor(st, SkipWhitespace(st.cur));
            var n := ExpectPropertyNameF(s1);
            PropertyHeadF(st) == (n.0, WithCursor(Emit(n.1, NameToken(n.1.cur.line, s1.cur.column, n.1.cur.column)), SkipWhitespace(n.1.cur)))
  {}

  /** The `[]` suffixes after a type label, with `safe` iterations left. */
  function SuffixLoopF(st: State, safe: nat): (r: State)
    ensures |r.cur.content| <= |st.cur.content|
    decreases safe
  {
    if Current(st.cur) != '[' then st
    else if safe == 0 then AddDiag(st, CeilingError(st.cur, "Endless loop! 2"))
    else
      var c1 := SkipWhitespace(Next(st.cur).1);
      if Current(c1) != ']' then
        AddDiag(WithCursor(st, c1), BracketError(c1.line, c1.column))
      else
        SuffixLoopF(WithCursor(st, Next(c1).1), safe - 1)
  }

  /** A '[' at the end of a line, with no ']' after the white space that
      follows, yields an Error whose range starts at column -1 of the next
      line, an argument list `new vscode.Range` rejects. */
  lemma UnclosedBracketAtLineEnd(st: State, safe: nat)
    requires Current(st.cur) == '[' && safe > 0
    requires SkipWhitespace(Next(st.cur).1).column == 0 && Current(SkipWhitespace(Next(st.cur).1)) != ']'
    ensures var r := SuffixLoopF(st, safe);
      && |r.diags| == |st.diags| + 1 && r.diags[..|st.diags|] == st.diags
      && r.diags[|st.diags|].message == "Expected ']'"
      && !Constructible(r.diags[|st.diags|].range)
  {
    SuffixLoopStep(st, safe);
  }

  /** `x[` followed by a line break at the end of a schema document: the
      Error's range is (-1, 1, 0, 1). */
  lemma UnclosedBracketExample()
    ensures SuffixLoopF(State(Cursor("[\n", 0, 4, 4), [], []), EndlessSafe).diags
      == [ErrorAt("Expected ']'", Range(-1, 1, 0, 1))]
  {
    var st := State(Cursor("[\n", 0, 4, 4), [], []);
    SuffixLoopStep(st, EndlessSafe);
    var n := Next(st.cur).1;
    assert n == Cursor("\n", 0, 5, 5);
    assert Next(n).1 == Cursor([], 1, 0, 6);
    assert SkipWhitespace(n) == Cursor([], 1, 0, 6);
  }

  /** One iteration of the suffix loop. */
  lemma SuffixLoopStep(st: State, safe: nat)
    requires Current(st.cur) == '[' && safe > 0
    ensures var c1 := SkipWhitespace(Next(st.cur).1);
            SuffixLoopF(st, safe) ==
              if Current(c1) != ']' then AddDiag(WithCursor(st, c1), BracketError(c1.line, c1.column))
              else SuffixLoopF(WithCursor(st, Next(c1).1), safe - 1)
  {}

  /** The suffix loop's invariant survives an iteration that found ']'. */
  lemma SuffixLoopKeeps(st: State, safe: int, rest: nat, after: State, outcome: State)
    requires Current(st.cur) == '[' && rest == safe - 1
    requires SuffixLoopF(st, safe) == outcome
    requires var c1 := SkipWhitespace(Next(st.cur).1);
      Current(c1) == ']' && after == WithCursor(st, Next(c1).1)
    ensures SuffixLoopF(after, rest) == outcome
  {
    assert SuffixLoopF(st, rest + 1) == SuffixLoopF(after, rest);
  }

  /** The scalar branch of `ExpectType`: the label up to a delimiter, its
      `type` token, then the suffixes. */
  function LabelTypeF(st: State): (r: (SchemaNode, State))
    ensures |r.1.cur.content| <= |st.cur.content|
  {
    var u := Until(st.cur, LabelDelimiters);
    (Literal(u.0), SuffixLoopF(Emit(WithCursor(st, u.1), LabelToken(u.1.line, st.cur.column, u.1.column)), EndlessSafe))
  }

  /** The object branch of `ExpectType`, the cursor being on '{'. */
  function ObjectTypeF(st: State): (r: (SchemaNode, State))
    requires Current(st.cur) == '{'
    ensures |r.1.cur.content| <= |st.cur.content|
    decreases |st.cur.content|, 0, 0
  {
    var c1 := SkipWhitespace(Next(st.cur).1);
    var l := ObjectLoopF(WithCursor(st, c1), [], EndlessSafe);
    (Object(l.0), WithCursor(l.1, Next(l.1.cur).1))
  }

  /** `ExpectType`: an object in braces, or a label with its suffixes. */
  function ExpectTypeF(st: State): (r: (SchemaNode, State))
    ensures |r.1.cur.content| <= |st.cur.content|
    decreases |st.cur.content|, 1, 0
  {
    var st1 := WithCursor(st, SkipWhitespace(st.cur));
    if Current(st1.cur) == '{' then ObjectTypeF(st1) else LabelTypeF(st1)
  }

  /** `ExpectProperty`: a name (with its `variable` token) and its type. */
  function ExpectPropertyF(st: State): (r: (NamedNode, State))
    ensures |r.1.cur.content| <= |st.cur.content|
    decreases |st.cur.content|, 2, 0
  {
    var h := PropertyHeadF(st);
    var t := ExpectTypeF(h.1);
    (NamedNode(h.0, t.0), t.1)
  }

  /** The state after one property of a loop and the white space after it. */
  function AfterPropertyF(st: State): (r: (NamedNode, State))
    ensures |r.1.cur.content| <= |st.cur.content|
    decreases |st.cur.content|, 3, 0
  {
    var p := ExpectPropertyF(st);
    (p.0, WithCursor(p.1, SkipWhitespace(p.1.cur)))
  }

  /** The property loop of an object, with `safe` iterations left. */
  function ObjectLoopF(st: State, props: Dict<NamedNode>, safe: nat): (r: (Dict<NamedNode>, State))
    ensures |r.1.cur.content| <= |st.cur.content|
    decreases |st.cur.content|, 4, safe
  {
    if Current(st.cur) == '}' then (props, st)
    else if safe == 0 then (props, AddDiag(st, CeilingError(st.cur, "Endless loop! 1")))
    else
      var p := AfterPropertyF(st);
      ObjectLoopF(p.1, Put(props, p.0.Name, p.0), safe - 1)
  }

  /** The top-level property loop, with `safe` iterations left. */
  function TopLoopF(st: State, root: Dict<NamedNode>, safe: nat): (r: (Dict<NamedNode>, State))
    ensures |r.1.cur.content| <= |st.cur.content|
    decreases safe
  {
    if Current(st.cur) == '\0' then (root, st)
    else if safe == 0 then (root, AddDiag(st, CeilingError(st.cur, "Endless loop! 3")))
    else
      var p := AfterPropertyF(st);
      TopLoopF(p.1, Put(root, p.0.Name, p.0), safe - 1)
  }

  /** `Parse(content)`: what Tokens, Diagnostics and Root hold afterwards. */
  function ParseF(content: string): Analysis
  {
    var st := State(SkipWhitespace(Cursor(content, 0, 0, 0)), [], []);
    var r := TopLoopF(st, [], EndlessSafe);
    Analysis(r.1.tokens, r.1.diags, r.0)
  }

  /** One iteration of the object loop. */
  lemma ObjectLoopStep(st: State, props: Dict<NamedNode>, safe: nat)
    requires Current(st.cur) != '}' && safe > 0
    ensures ObjectLoopF(st, props, safe) == ObjectLoopF(AfterPropertyF(st).1, Put(props, AfterPropertyF(st).0.Name, AfterPropertyF(st).0), safe - 1)
  {}

  /** One iteration of the top-level loop. */
  lemma TopLoopStep(st: State, root: Dict<NamedNode>, safe: nat)
    requires Current(st.cur) != '\0' && safe > 0
    ensures TopLoopF(st, root, safe) == TopLoopF(AfterPropertyF(st).1, Put(root, AfterPropertyF(st).0.Name, AfterPropertyF(st).0), safe - 1)
  {}

  // ---------------------------------------------------------------------
  // What the parse promises

  /** Every entry is keyed by its node's own name, keys are distinct, and
      nested objects are well formed too. */
  predicate WellFormed(n: SchemaNode)
  {
    n.Object? ==>
      UniqueKeys(n.Props) &&
      forall i :: 0 <= i < |n.Props| ==> n.Props[i].0 == n.Props[i].1.Name && WellFormed(n.Props[i].1.Node)
  }

  predicate WellFormedDict(d: Dict<NamedNode>)
  {
    WellFormed(Object(d))
  }

  lemma PutWellFormed(d: Dict<NamedNode>, p: NamedNode)
    requires WellFormedDict(d) && WellFormed(p.Node)
    ensures WellFormedDict(Put(d, p.Name, p))
  {
    PutUnique(d, p.Name, p);
    PutEntries(d, p.Name, p);
  }

  lemma {:induction false} ExpectTypeWellFormed(st: State)
    ensures WellFormed(ExpectTypeF(st).0)
    decreases |st.cur.content|, 1, 0
  {
    var st1 := WithCursor(st, SkipWhitespace(st.cur));
    if Current(st1.cur) == '{' {
      ObjectLoopWellFormed(WithCursor(st1, SkipWhitespace(Next(st1.cur).1)), [], EndlessSafe);
    }
  }

  lemma {:induction false} ExpectPropertyWellFormed(st: State)
    ensures WellFormed(ExpectPropertyF(st).0.Node)
    decreases |st.cur.content|, 2, 0
  {
    ExpectTypeWellFormed(PropertyHeadF(st).1);
  }

  lemma PutPropertyWellFormed(st: State, props: Dict<NamedNode>)
    requires WellFormedDict(props)
    ensures WellFormedDict(Put(props, AfterPropertyF(st).0.Name, AfterPropertyF(st).0))
    decreases |st.cur.content|, 3, 0
  {
    ExpectPropertyWellFormed(st);
    PutWellFormed(props, AfterPropertyF(st).0);
  }

  lemma {:induction false} ObjectLoopWellFormed(st: State, props: Dict<NamedNode>, safe: nat)
    requires WellFormedDict(props)
    ensures WellFormedDict(ObjectLoopF(st, props, safe).0)
    decreases |st.cur.content|, 4, safe
  {
    if Current(st.cur) != '}' && safe > 0 {
      PutPropertyWellFormed(st, props);
      ObjectLoopWellFormed(AfterPropertyF(st).1, Put(props, AfterPropertyF(st).0.Name, AfterPropertyF(st).0), safe - 1);
    }
  }

  lemma {:induction false} TopLoopWellFormed(st: State, root: Dict<NamedNode>, safe: nat)
    requires WellFormedDict(root)
    ensures WellFormedDict(TopLoopF(st, root, safe).0)
    decreases safe
  {
    if Current(st.cur) != '\0' && safe > 0 {
      PutPropertyWellFormed(st, root);
      TopLoopWellFormed(AfterPropertyF(st).1, Put(root, AfterPropertyF(st).0.Name, AfterPropertyF(st).0), safe - 1);
    }
  }

  /** The Root of every schema parse is keyed by property name, each stored
      node's Name equals its key, at every depth. */
  lemma ParseWellFormed(content: string)
    ensures WellFormedDict(ParseF(content).root)
  {
    var st := State(SkipWhitespace(Cursor(content, 0, 0, 0)), [], []);
    TopLoopWellFormed(st, [], EndlessSafe);
  }

  /** Skipping white space in front of a non-white-space character does nothing. */
  lemma SkipWhitespaceStops(c: Cursor)
    requires Current(c) !in WhitespaceCharacters
    ensures SkipWhitespace(c) == c
  {}

  /** The `variable` token of a property starts at the name's first column.
      When the name has no line break it has the name's length if a ':'
      closes the name, and is one shorter when the text ran out first. */
  lemma PropertyNameToken(st: State)
    requires Current(SkipWhitespace(st.cur)) !in WhitespaceCharacters
    requires '\n' !in PropertyHeadF(st).0
    ensures var c1 := SkipWhitespace(st.cur);
            var name := PropertyHeadF(st).0;
            && |name| <= |c1.content| && name == c1.content[..|name|]
            && ':' !in name
            && PropertyHeadF(st).1.tokens ==
                 st.tokens + [Token(c1.line, c1.column, if ':' in c1.content then |name| else |name| - 1, "variable", [])]
  {
    var c1 := SkipWhitespace(st.cur);
    SkipWhitespaceStops(c1);
    var u := Until(c1, ":");
    UntilSpec(c1, ":");
    UntilMoves(c1, ":");
    AfterNoNewline((c1.line, c1.column), u.0);
    NextMoves(u.1);
    assert u.0 == c1.content[..|u.0|];
    if u.1.content != [] {
      assert c1.content[|u.0|] == ':';
      assert Next(u.1).0 == ":";
    } else {
      assert u.0 == c1.content;
    }
  }

  /** The `[]` suffix loop emits no token and at most one Error: either
      'Expected ']'' or the ceiling's. Without one it stopped in front of a
      character other than '['. */
  lemma {:induction false} SuffixLoopSpec(st: State, safe: nat)
    ensures var r := SuffixLoopF(st, safe);
      && r.tokens == st.tokens
      && |st.diags| <= |r.diags| <= |st.diags| + 1
      && r.diags[..|st.diags|] == st.diags
      && (|r.diags| == |st.diags| ==> Current(r.cur) != '[')
      && (|r.diags| > |st.diags| ==>
            r.diags[|st.diags|].severity == Error && r.diags[|st.diags|].message in {"Expected ']'", "Endless loop! 2"})
    decreases safe
  {
    if Current(st.cur) == '[' && safe > 0 {
      var c1 := SkipWhitespace(Next(st.cur).1);
      if Current(c1) == ']' {
        SuffixLoopSpec(WithCursor(st, Next(c1).1), safe - 1);
      }
    }
  }

  /** A scalar type is the longest delimiter-free prefix of the text; its
      `type` token covers exactly that label, on the label's line, and the
      suffixes add no token. */
  lemma LabelTypeSpec(st: State)
    ensures var r := LabelTypeF(st);
      && r.0.Literal?
      && |r.0.Label| <= |st.cur.content| && r.0.Label == st.cur.content[..|r.0.Label|]
      && (forall i :: 0 <= i < |r.0.Label| ==> r.0.Label[i] !in LabelDelimiters)
      && (|r.0.Label| == |st.cur.content| || st.cur.content[|r.0.Label|] in LabelDelimiters)
      && r.1.tokens == st.tokens + [Token(st.cur.line, st.cur.column, |r.0.Label|, "type", [])]
  {
    var u := Until(st.cur, LabelDelimiters);
    UntilSpec(st.cur, LabelDelimiters);
    UntilMoves(st.cur, LabelDelimiters);
    assert '\n' !in u.0;
    AfterNoNewline((st.cur.line, st.cur.column), u.0);
    assert u.0 == st.cur.content[..|u.0|];
    if u.1.content != [] { assert st.cur.content[|u.0|] == u.1.content[0]; }
    SuffixLoopSpec(Emit(WithCursor(st, u.1), LabelToken(u.1.line, st.cur.column, u.1.column)), EndlessSafe);
  }

  /** `d[k] = v` adds at most one entry. */
  lemma PutLength<V>(d: Dict<V>, k: string, v: V)
    ensures |Put(d, k, v)| <= |d| + 1
  {
    PutKeys(d, k, v);
  }

  /** The object loop stops in front of '}', or has pushed the ceiling's Error
      last; it adds at most one property per iteration. */
  lemma {:induction false} ObjectLoopExit(st: State, props: Dict<NamedNode>, safe: nat)
    ensures var r := ObjectLoopF(st, props, safe);
      && (Current(r.1.cur) == '}' || (r.1.diags != [] && r.1.diags[|r.1.diags| - 1] == CeilingError(r.1.cur, "Endless loop! 1")))
      && |r.0| <= |props| + safe
    decreases |st.cur.content|, safe
  {
    if Current(st.cur) != '}' && safe > 0 {
      PutLength(props, AfterPropertyF(st).0.Name, AfterPropertyF(st).0);
      ObjectLoopExit(AfterPropertyF(st).1, Put(props, AfterPropertyF(st).0.Name, AfterPropertyF(st).0), safe - 1);
    }
  }

  /** The top-level loop stops at the end of the text, or has pushed the
      ceiling's Error last; it adds at most one property per iteration. */
  lemma {:induction false} TopLoopExit(st: State, root: Dict<NamedNode>, safe: nat)
    ensures var r := TopLoopF(st, root, safe);
      && (Current(r.1.cur) == '\0' || (r.1.diags != [] && r.1.diags[|r.1.diags| - 1] == CeilingError(r.1.cur, "Endless loop! 3")))
      && |r.0| <= |root| + safe
    decreases safe
  {
    if Current(st.cur) != '\0' && safe > 0 {
      PutLength(root, AfterPropertyF(st).0.Name, AfterPropertyF(st).0);
      TopLoopExit(AfterPropertyF(st).1, Put(root, AfterPropertyF(st).0.Name, AfterPropertyF(st).0), safe - 1);
    }
  }

  // Tokens and diagnostics are only ever appended, and every diagnostic of
  // a schema parse is an Error.

  lemma FollowsRefl(st: State)
    ensures Follows(st, st)
  {}

  lemma FollowsMove(st: State, c: Cursor)
    requires |c.content| <= |st.cur.content|
    ensures Follows(st, WithCursor(st, c))
  {}

  lemma FollowsEmit(st: State, t: Token)
    ensures Follows(st, Emit(st, t))
  {}

  lemma FollowsError(st: State, message: string, range: Range)
    ensures Follows(st, AddDiag(st, ErrorAt(message, range)))
  {}

  lemma {:induction false} SuffixLoopFollows(st: State, safe: nat)
    ensures Follows(st, SuffixLoopF(st, safe))
    decreases safe
  {
    if Current(st.cur) != '[' {
      FollowsRefl(st);
    } else if safe == 0 {
      FollowsError(st, "Endless loop! 2", CeilingError(st.cur, "Endless loop! 2").range);
    } else {
      var c1 := SkipWhitespace(Next(st.cur).1);
      if Current(c1) != ']' {
        FollowsMove(st, c1);
        FollowsError(WithCursor(st, c1), "Expected ']'", BracketError(c1.line, c1.column).range);
        FollowsTrans(st, WithCursor(st, c1), AddDiag(WithCursor(st, c1), BracketError(c1.line, c1.column)));
      } else {
        var s1 := WithCursor(st, Next(c1).1);
        FollowsMove(st, Next(c1).1);
        SuffixLoopFollows(s1, safe - 1);
        FollowsTrans(st, s1, SuffixLoopF(s1, safe - 1));
      }
    }
  }

  lemma LabelTypeFollows(st: State)
    ensures Follows(st, LabelTypeF(st).1)
  {
    var u := Until(st.cur, LabelDelimiters);
    var s1 := WithCursor(st, u.1);
    var s2 := Emit(s1, LabelToken(u.1.line, st.cur.column, u.1.column));
    FollowsMove(st, u.1);
    FollowsEmit(s1, LabelToken(u.1.line, st.cur.column, u.1.column));
    FollowsTrans(st, s1, s2);
    SuffixLoopFollows(s2, EndlessSafe);
    FollowsTrans(st, s2, SuffixLoopF(s2, EndlessSafe));
  }

  lemma {:induction false} ObjectTypeFollows(st: State)
    requires Current(st.cur) == '{'
    ensures Follows(st, ObjectTypeF(st).1)
    decreases |st.cur.content|, 0, 0
  {
    var s1 := WithCursor(st, SkipWhitespace(Next(st.cur).1));
    var l := ObjectLoopF(s1, [], EndlessSafe);
    FollowsMove(st, s1.cur);
    ObjectLoopFollows(s1, [], EndlessSafe);
    FollowsTrans(st, s1, l.1);
    FollowsMove(l.1, Next(l.1.cur).1);
    FollowsTrans(st, l.1, WithCursor(l.1, Next(l.1.cur).1));
  }

  lemma {:induction false} ExpectTypeFollows(st: State)
    ensures Follows(st, ExpectTypeF(st).1)
    decreases |st.cur.content|, 1, 0
  {
    var st1 := WithCursor(st, SkipWhitespace(st.cur));
    FollowsMove(st, st1.cur);
    if Current(st1.cur) == '{' {
      ObjectTypeFollows(st1);
      FollowsTrans(st, st1, ObjectTypeF(st1).1);
    } else {
      LabelTypeFollows(st1);
      FollowsTrans(st, st1, LabelTypeF(st1).1);
    }
  }

  lemma PropertyHeadFollows(st: State)
    ensures Follows(st, PropertyHeadF(st).1)
  {
    var c1 := SkipWhitespace(st.cur);
    var s2 := ExpectPropertyNameF(WithCursor(st, c1)).1;
    var t := NameToken(s2.cur.line, c1.column, s2.cur.column);
    FollowsMove(st, s2.cur);
    FollowsEmit(s2, t);
    FollowsTrans(st, s2, Emit(s2, t));
    FollowsMove(Emit(s2, t), SkipWhitespace(s2.cur));
    FollowsTrans(st, Emit(s2, t), PropertyHeadF(st).1);
  }

  lemma {:induction false} ExpectPropertyFollows(st: State)
    ensures Follows(st, ExpectPropertyF(st).1)
    decreases |st.cur.content|, 2, 0
  {
    var h := PropertyHeadF(st).1;
    PropertyHeadFollows(st);
    ExpectTypeFollows(h);
    FollowsTrans(st, h, ExpectTypeF(h).1);
  }

  lemma {:induction false} AfterPropertyFollows(st: State)
    ensures Follows(st, AfterPropertyF(st).1)
    decreases |st.cur.content|, 3, 0
  {
    var p := ExpectPropertyF(st).1;
    ExpectPropertyFollows(st);
    FollowsMove(p, SkipWhitespace(p.cur));
    FollowsTrans(st, p, AfterPropertyF(st).1);
  }

  lemma {:induction false} ObjectLoopFollows(st: State, props: Dict<NamedNode>, safe: nat)
    ensures Follows(st, ObjectLoopF(st, props, safe).1)
    decreases |st.cur.content|, 4, safe
  {
    if Current(st.cur) == '}' {
      FollowsRefl(st);
    } else if safe == 0 {
      FollowsError(st, "Endless loop! 1", CeilingError(st.cur, "Endless loop! 1").range);
    } else {
      var p := AfterPropertyF(st);
      AfterPropertyFollows(st);
      ObjectLoopFollows(p.1, Put(props, p.0.Name, p.0), safe - 1);
      FollowsTrans(st, p.1, ObjectLoopF(p.1, Put(props, p.0.Name, p.0), safe - 1).1);
    }
  }

  lemma {:induction false} TopLoopFollows(st: State, root: Dict<NamedNode>, safe: nat)
    ensures Follows(st, TopLoopF(st, root, safe).1)
    decreases safe
  {
    if Current(st.cur) == '\0' {
      FollowsRefl(st);
    } else if safe == 0 {
      FollowsError(st, "Endless loop! 3", CeilingError(st.cur, "Endless loop! 3").range);
    } else {
      var p := AfterPropertyF(st);
      AfterPropertyFollows(st);
      TopLoopFollows(p.1, Put(root, p.0.Name, p.0), safe - 1);
      FollowsTrans(st, p.1, TopLoopF(p.1, Put(root, p.0.Name, p.0), safe - 1).1);
    }
  }

  /** The Root of a schema parse holds at most 500 properties and every
      diagnostic it reports is an Error. */
  lemma ParseExit(content: string)
    ensures var a := ParseF(content);
      && |a.root| <= EndlessSafe
      && forall i :: 0 <= i < |a.diags| ==> a.diags[i].severity == Error
  {
    var st := State(SkipWhitespace(Cursor(content, 0, 0, 0)), [], []);
    TopLoopExit(st, [], EndlessSafe);
    TopLoopFollows(st, [], EndlessSafe);
  }

  // ---------------------------------------------------------------------
  // The class

  class Analyzer {
    var Tokens: seq<Token>
    var Diagnostics: seq<Diagnostic>
    var Root: Dict<NamedNode>

    constructor ()
      ensures Tokens == [] && Diagnostics == [] && Root == []
    {
      Tokens, Diagnostics, Root := [], [], [];
    }

    /** Tokens, Diagnostics and Root as one value. */
    function Result(): Analysis
      reads this
    {
      Analysis(Tokens, Diagnostics, Root)
    }

    ghost function Snap(feed: TextFeed): State
      reads this`Tokens, this`Diagnostics, feed
    {
      State(feed.View(), Tokens, Diagnostics)
    }

    method Parse(content: string)
      modifies this
      ensures Result() == ParseF(content)
    {
      Tokens := [];
      Diagnostics := [];
      Root := [];
      var feed := new TextFeed(content);
      feed.ConsumeCharacters(WhitespaceCharacters);
      ghost var s0 := Snap(feed);
      var endlessSafe: int := EndlessSafe;
      while feed.CurrentCharacter() != '\0'
        invariant 0 <= endlessSafe <= EndlessSafe
        invariant TopLoopF(Snap(feed), Root, endlessSafe) == TopLoopF(s0, [], EndlessSafe)
        decreases endlessSafe
      {
        if endlessSafe <= 0 {
          Diagnostics := Diagnostics + [CeilingError(feed.View(), "Endless loop! 3")];
          break;
        }
        ghost var before := Snap(feed);
        ghost var rootBefore := Root;
        TopLoopStep(before, Root, endlessSafe);
        endlessSafe := endlessSafe - 1;
        var newProperty := ExpectProperty(feed);
        feed.ConsumeCharacters(WhitespaceCharacters);
        ghost var after := Snap(feed);
        assert (newProperty, after) == AfterPropertyF(before);
        Root := Put(Root, newProperty.Name, newProperty);
        assert Snap(feed) == after;
        assert Root == Put(rootBefore, AfterPropertyF(before).0.Name, AfterPropertyF(before).0);
        assert TopLoopF(after, Root, endlessSafe) == TopLoopF(before, rootBefore, endlessSafe + 1);
      }
    }

    method ExpectPropertyName(feed: TextFeed) returns (propertyName: string)
      modifies feed
      ensures (propertyName, Snap(feed)) == ExpectPropertyNameF(old(Snap(feed)))
    {
      feed.ConsumeCharacters(WhitespaceCharacters);
      propertyName := feed.ConsumeUntil(":");
      var _ := feed.ConsumeNext();
    }

    method ExpectType(feed: TextFeed) returns (node: SchemaNode)
      modifies this`Tokens, this`Diagnostics, feed
      ensures (node, Snap(feed)) == ExpectTypeF(old(Snap(feed)))
      decreases |feed.Content|, 1
    {
      feed.ConsumeCharacters(WhitespaceCharacters);
      if feed.CurrentCharacter() == '{' {
        node := ObjectType(feed);
      } else {
        node := LabelType(feed);
      }
    }

    /** The object branch of `ExpectType`: '{', white space, the property
        loop, then the closing character. */
    method ObjectType(feed: TextFeed) returns (node: SchemaNode)
      requires feed.CurrentCharacter() == '{'
      modifies this`Tokens, this`Diagnostics, feed
      ensures (node, Snap(feed)) == ObjectTypeF(old(Snap(feed)))
      decreases |feed.Content|, 0
    {
      var _ := feed.ConsumeNext();
      feed.ConsumeCharacters(WhitespaceCharacters);
      var props := ObjectLoop(feed);
      var _ := feed.ConsumeNext();
      node := Object(props);
    }

    /** The property loop of an object, up to '}' or the iteration ceiling. */
    method ObjectLoop(feed: TextFeed) returns (props: Dict<NamedNode>)
      modifies this`Tokens, this`Diagnostics, feed
      ensures (props, Snap(feed)) == ObjectLoopF(old(Snap(feed)), [], EndlessSafe)
      decreases |feed.Content|, 3
    {
      props := [];
      var endlessSafe: int := EndlessSafe;
      while feed.CurrentCharacter() != '}'
        invariant 0 <= endlessSafe <= EndlessSafe
        invariant |feed.Content| <= |old(feed.Content)|
        invariant ObjectLoopF(Snap(feed), props, endlessSafe) == ObjectLoopF(old(Snap(feed)), [], EndlessSafe)
        decreases endlessSafe
      {
        if endlessSafe <= 0 {
          Diagnostics := Diagnostics + [CeilingError(feed.View(), "Endless loop! 1")];
          break;
        }
        ghost var before := Snap(feed);
        ObjectLoopStep(before, props, endlessSafe);
        endlessSafe := endlessSafe - 1;
        var newProperty := ExpectProperty(feed);
        feed.ConsumeCharacters(WhitespaceCharacters);
        assert (newProperty, Snap(feed)) == AfterPropertyF(before);
        props := Put(props, newProperty.Name, newProperty);
      }
    }

    /** The scalar branch of `ExpectType`: the label, its `type` token and
        the `[]` suffixes. */
    method LabelType(feed: TextFeed) returns (node: SchemaNode)
      modifies this`Tokens, this`Diagnostics, feed
      ensures (node, Snap(feed)) == LabelTypeF(old(Snap(feed)))
    {
      var typeStart := feed.CurrentColumn();
      var literalValue := feed.ConsumeUntil(LabelDelimiters);
      Tokens := Tokens + [LabelToken(feed.CurrentLine(), typeStart, feed.CurrentColumn())];
      SuffixLoop(feed);
      node := Literal(literalValue);
    }

    /** The `[]` suffix loop after a label. */
    method SuffixLoop(feed: TextFeed)
      modifies this`Diagnostics, feed
      ensures Snap(feed) == SuffixLoopF(old(Snap(feed)), EndlessSafe)
    {
      ghost var outcome := SuffixLoopF(Snap(feed), EndlessSafe);
      var endlessSafe: int := EndlessSafe;
      while feed.CurrentCharacter() == '['
        invariant 0 <= endlessSafe <= EndlessSafe
        invariant SuffixLoopF(Snap(feed), endlessSafe) == outcome
        decreases endlessSafe
      {
        if endlessSafe <= 0 {
          Diagnostics := Diagnostics + [CeilingError(feed.View(), "Endless loop! 2")];
          break;
        }
        ghost var before, safeBefore := Snap(feed), endlessSafe;
        endlessSafe := endlessSafe - 1;
        SuffixLoopStep(before, safeBefore);
        var closed := Suffix(feed);
        if !closed {
          break;
        }
        SuffixLoopKeeps(before, safeBefore, endlessSafe, Snap(feed), outcome);
      }
    }

    /** One `[]` suffix: '[', white space, and ']' or an Error. */
    method Suffix(feed: TextFeed) returns (closed: bool)
      modifies this`Diagnostics, feed
      ensures var c1 := SkipWhitespace(Next(old(feed.View())).1);
        && closed == (Current(c1) == ']')
        && Snap(feed) == if closed then WithCursor(old(Snap(feed)), Next(c1).1)
                         else AddDiag(WithCursor(old(Snap(feed)), c1), BracketError(c1.line, c1.column))
    {
      var _ := feed.ConsumeNext();
      feed.ConsumeCharacters(WhitespaceCharacters);
      if feed.CurrentCharacter() != ']' {
        Diagnostics := Diagnostics + [BracketError(feed.CurrentLine(), feed.CurrentColumn())];
        return false;
      }
      var _ := feed.ConsumeNext();
      return true;
    }

    method ExpectProperty(feed: TextFeed) returns (property: NamedNode)
      modifies this`Tokens, this`Diagnostics, feed
      ensures (property, Snap(feed)) == ExpectPropertyF(old(Snap(feed)))
      decreases |feed.Content|, 2
    {
      ghost var s0 := Snap(feed);
      feed.ConsumeCharacters(WhitespaceCharacters);
      ghost var s1 := Snap(feed);
      assert s1 == WithCursor(s0, SkipWhitespace(s0.cur));
      var propertyStart := feed.CurrentColumn();
      var propertyName := ExpectPropertyName(feed);
      ghost var s2 := Snap(feed);
      assert (propertyName, s2) == ExpectPropertyNameF(s1);
      Tokens := Tokens + [NameToken(feed.CurrentLine(), propertyStart, feed.CurrentColumn())];
      feed.ConsumeCharacters(WhitespaceCharacters);
      PropertyHeadUnfold(s0);
      var propertyValue := ExpectType(feed);
      property := NamedNode(propertyName, propertyValue);
    }
  }
}
