/**
  The data-document analyzer of src/sdf.ts.

  Grammar: `Property := Name ':' Value`, `Value := '{' Property* '}' |
  '[' Value* ']' | '"' text '"' | bare literal`. While it parses, the
  analyzer keeps a stack of schema entries (taken from a parsed `.sdftypes`
  document) that follows the nesting of the data, and warns when an object
  appears where the schema declares a scalar.

  The value-level functions below are the meaning of the closures inside
  `Analyzer.Parse` and `Analyzer.GetCompletion`; the class methods are
  proved to compute exactly them, and the lemmas state what they promise.
*/
module Sdf {
  import opened Js
  import opened Host
  import opened Feed
  import Sdf2

  /** A data node: a literal (the raw text), an object of named nodes, or a list. */
  datatype DataNode = Literal(Text: string) | Object(Entries: Dict<DataNamed>) | List(Items: seq<DataNode>)

  /** A data node together with the property name it was stored under. */
  datatype DataNamed = DataNamed(Name: string, Node: DataNode)

  /** One entry of the schema stack: a schema node, or `null`. */
  type Frame = Option<Sdf2.NamedNode>

  type Stack = seq<Frame>

  /** Delimiters of a bare literal. */
  const BareDelimiters: string := "{\r\n \t\0,"

  /** What a parse leaves in the analyzer. */
  datatype Analysis = Analysis(tokens: seq<Token>, diags: seq<Diagnostic>, root: Dict<DataNamed>, stack: Stack)

  /** The parser's state between two steps. */
  datatype State = State(cur: Cursor, tokens: seq<Token>, diags: seq<Diagnostic>, stack: Stack)

  // ---------------------------------------------------------------------
  // The schema stack

  /** `Typedef()`: the top of the stack, or `null` when it is empty. */
  function Typedef(stack: Stack): (r: Frame)
    ensures stack != [] ==> r == stack[|stack| - 1]
    ensures r.Some? ==> r in stack
    ensures NoSchema(stack) ==> r.None?
  {
    if stack == [] then None else stack[|stack| - 1]
  }

  /** What `GoInside(name)` pushes: the schema child `name` when the top is
      a non-null object that has it, and `null` otherwise. */
  function Entered(stack: Stack, name: string): Frame
  {
    match Typedef(stack)
    case None => None
    case Some(n) => if n.Node.Literal? then None else Get(n.Node.Props, name)
  }

  function GoInsideF(stack: Stack, name: string): Stack
  {
    stack + [Entered(stack, name)]
  }

  /** `GoOutside()`: pops one entry, if there is one. */
  function GoOutsideF(stack: Stack): Stack
  {
    if stack == [] then [] else stack[..|stack| - 1]
  }

  /** The stack a parse or a completion starts from: the synthetic OBJECT
      root around the schema when one is given, empty otherwise. */
  function InitialStack(schema: Option<Dict<Sdf2.NamedNode>>): (r: Stack)
    ensures schema.None? ==> r == []
    ensures schema.Some? ==> |r| == 1 && Typedef(r) == Some(Sdf2.NamedNode("", Sdf2.Object(schema.value)))
  {
    if schema.Some? then [Some(Sdf2.NamedNode("", Sdf2.Object(schema.value)))] else []
  }

  /** `GoInside` pushes exactly one entry and leaves the rest of the stack
      alone; `GoOutside` pops it again. */
  lemma GoInsideOutside(stack: Stack, name: string)
    ensures |GoInsideF(stack, name)| == |stack| + 1
    ensures GoInsideF(stack, name)[..|stack|] == stack
    ensures Typedef(GoInsideF(stack, name)) == Entered(stack, name)
    ensures GoOutsideF(GoInsideF(stack, name)) == stack
  {
    assert (stack + [Entered(stack, name)])[..|stack|] == stack;
  }

  /** The entry pushed is non-null exactly when the top is a non-null object
      with a property `name`, and then it is that property's schema node. */
  lemma EnteredSpec(stack: Stack, name: string)
    ensures Entered(stack, name).Some? <==>
      (Typedef(stack).Some? && Typedef(stack).value.Node.Object? && name in Keys(Typedef(stack).value.Node.Props))
    ensures Entered(stack, name).Some? ==>
      (name, Entered(stack, name).value) in Typedef(stack).value.Node.Props
  {}

  /** Below a `null` the stack only ever receives `null`s. */
  lemma NullStaysNull(stack: Stack, name: string)
    requires Typedef(stack).None?
    ensures Typedef(GoInsideF(stack, name)).None?
  {}

  // ---------------------------------------------------------------------
  // Tokens and diagnostics

  function WithCursor(st: State, c: Cursor): State { State(c, st.tokens, st.diags, st.stack) }

  function WithStack(st: State, stack: Stack): State { State(st.cur, st.tokens, st.diags, stack) }

  function Emit(st: State, t: Token): State { State(st.cur, st.tokens + [t], st.diags, st.stack) }

  function AddDiag(st: State, d: Diagnostic): State { State(st.cur, st.tokens, st.diags + [d], st.stack) }

  function Pos(c: Cursor): Position { Position(c.line, c.column) }

  /** The `variable` token of a property name (one column short of where
      the cursor is after ':'). */
  function NameToken(line: int, start: int, end: int): Token
  {
    Token(line, start, end - start - 1, "variable", [])
  }

  /** A token from `start` up to the cursor's column. */
  function SpanToken(line: int, start: int, end: int, tokenType: string): Token
  {
    Token(line, start, end - start, tokenType, [])
  }

  /** How a bare literal is highlighted: booleans get no token, numbers a
      `number` token, anything else a `string` token. */
  function LiteralTokenType(text: string): Option<string>
  {
    if text in ["true", "false", "yes", "no"] then None
    else if IsNumeric(text) then Some("number")
    else Some("string")
  }

  /** The Error of the object loop's ceiling: (line, column - 1, line, column). */
  function ObjectCeiling(c: Cursor): Diagnostic
  {
    ErrorAt("Expected '}'", Range(c.line, c.column - 1, c.line, c.column))
  }

  /** The Error of the list loop's ceiling (column and line swapped). */
  function ListCeiling(c: Cursor): Diagnostic
  {
    ErrorAt("Expected ']'", Range(c.column - 1, c.line, c.column, c.line))
  }

  /** The Error of the top-level loop's ceiling (column and line swapped). */
  function TopCeiling(c: Cursor): Diagnostic
  {
    ErrorAt("Endless loop", Range(c.column - 1, c.line, c.column, c.line))
  }

  /** The Warning for an object where the schema declares the scalar `n`,
      from the '{' to the cursor after the object (the end is given as
      column, line). */
  function MismatchWarning(n: Sdf2.NamedNode, started: Position, c: Cursor): Diagnostic
    requires n.Node.Literal?
  {
    Diagnostic("The property \"" + n.Name + "\" should be a " + n.Node.Label,
      Range(started.line, started.character, c.column, c.line), Warning, Source)
  }

  /** The entry whose type is not OBJECT (that is, a LITERAL) makes an
      object value a mismatch. */
  predicate Mismatch(ct: Frame)
  {
    ct.Some? && ct.value.Node.Literal?
  }

  // ---------------------------------------------------------------------
  // The parser as functions on states

  /** The start of a property: white space, the name up to ':', the ':',
      the name's `variable` token and the white space after it. */
  function PropertyHeadF(st: State): (r: (string, State))
    ensures |r.1.cur.content| <= |st.cur.content|
  {
    var c1 := SkipWhitespace(st.cur);
    var n := ExpectPropertyNameF(c1);
    var c2 := n.1;
    (n.0, WithCursor(Emit(WithCursor(st, c2), NameToken(c2.line, c1.column, c2.column)), SkipWhitespace(c2)))
  }

  /** `ExpectPropertyName`: white space, the text up to ':', and the ':'. */
  function ExpectPropertyNameF(c: Cursor): (r: (string, Cursor))
    ensures |r.1.content| <= |c.content|
  {
    var u := Until(SkipWhitespace(c), ":");
    (u.0, Next(u.1).1)
  }

  /** Whether a value starting here is compound (and `GoInside` is called). */
  predicate Compound(c: Cursor)
  {
    Current(c) == '{' || Current(c) == '['
  }

  /** One property inside an object or at the top level: its head, then its
      value, with the schema stack entered around compound values. */
  function EntryF(st: State): (r: (DataNamed, State))
    ensures |r.1.cur.content| <= |st.cur.content|
    decreases |st.cur.content|, 3, 0
  {
    var h := PropertyHeadF(st);
    var went := Compound(h.1.cur);
    var s1 := if went then WithStack(h.1, GoInsideF(h.1.stack, h.0)) else h.1;
    var v := ExpectValueF(s1);
    (DataNamed(h.0, v.0), if went then WithStack(v.1, GoOutsideF(v.1.stack)) else v.1)
  }

  /** `ExpectValue`: white space, then an object, a list, a quoted string
      or a bare literal. The schema entry on top at entry decides the
      mismatch Warning. */
  function ExpectValueF(st: State): (r: (DataNode, State))
    ensures |r.1.cur.content| <= |st.cur.content|
    decreases |st.cur.content|, 2, 0
  {
    var ct := Typedef(st.stack);
    var s1 := WithCursor(st, SkipWhitespace(st.cur));
    if Current(s1.cur) == '{' then ObjectF(s1, ct)
    else if Current(s1.cur) == '[' then ListF(s1)
    else if Current(s1.cur) == '"' then StringF(s1)
    else BareF(s1)
  }

  /** An object up to and including its closing character. */
  function ObjectBodyF(st: State): (r: (Dict<DataNamed>, State))
    requires Current(st.cur) == '{'
    ensures |r.1.cur.content| <= |st.cur.content|
    decreases |st.cur.content|, 0, 0
  {
    var l := ObjectLoopF(WithCursor(st, SkipWhitespace(Next(st.cur).1)), [], EndlessSafe);
    (l.0, WithCursor(l.1, Next(l.1.cur).1))
  }

  /** The object branch: the body, then the Warning when the schema entry
      `ct` on top at entry is a scalar. */
  function ObjectF(st: State, ct: Frame): (r: (DataNode, State))
    requires Current(st.cur) == '{'
    ensures |r.1.cur.content| <= |st.cur.content|
    decreases |st.cur.content|, 1, 0
  {
    var b := ObjectBodyF(st);
    (Object(b.0), if Mismatch(ct) then AddDiag(b.1, MismatchWarning(ct.value, Pos(st.cur), b.1.cur)) else b.1)
  }

  /** The property loop of an object, with `safe` iterations left. */
  function ObjectLoopF(st: State, props: Dict<DataNamed>, safe: nat): (r: (Dict<DataNamed>, State))
    ensures |r.1.cur.content| <= |st.cur.content|
    decreases |st.cur.content|, 4, safe
  {
    if Current(st.cur) == '}' then (props, st)
    else if safe == 0 then (props, AddDiag(st, ObjectCeiling(st.cur)))
    else
      var p := EntryF(st);
      ObjectLoopF(WithCursor(p.1, SkipWhitespace(p.1.cur)), Put(props, p.0.Name, p.0), safe - 1)
  }

  /** The list branch, up to and including its closing character. */
  function ListF(st: State): (r: (DataNode, State))
    requires Current(st.cur) == '['
    ensures |r.1.cur.content| <= |st.cur.content|
    decreases |st.cur.content|, 1, 0
  {
    var l := ListLoopF(WithCursor(st, SkipWhitespace(Next(st.cur).1)), [], EndlessSafe);
    (List(l.0), WithCursor(l.1, Next(l.1.cur).1))
  }

  /** The element loop of a list, with `safe` iterations left. */
  function ListLoopF(st: State, items: seq<DataNode>, safe: nat): (r: (seq<DataNode>, State))
    ensures |r.1.cur.content| <= |st.cur.content|
    decreases |st.cur.content|, 4, safe
  {
    if Current(st.cur) == ']' then (items, st)
    else if safe == 0 then (items, AddDiag(st, ListCeiling(st.cur)))
    else
      var v := ExpectValueF(WithCursor(st, SkipWhitespace(st.cur)));
      ListLoopF(WithCursor(v.1, SkipWhitespace(v.1.cur)), items + [v.0], safe - 1)
  }

  /** A quoted string: the text up to the next '"', and a `string` token
      from the opening quote to the cursor after the closing one. */
  function StringF(st: State): (r: (DataNode, State))
    ensures |r.1.cur.content| <= |st.cur.content|
  {
    var u := Until(Next(st.cur).1, "\"");
    var c2 := Next(u.1).1;
    (Literal(u.0), Emit(WithCursor(st, c2), SpanToken(c2.line, st.cur.column, c2.column, "string")))
  }

  /** A bare literal: the text up to a delimiter, highlighted by
      `LiteralTokenType`. */
  function BareF(st: State): (r: (DataNode, State))
    ensures |r.1.cur.content| <= |st.cur.content|
  {
    var u := Until(st.cur, BareDelimiters);
    var s1 := WithCursor(st, u.1);
    var tt := LiteralTokenType(u.0);
    (Literal(u.0), if tt.Some? then Emit(s1, SpanToken(u.1.line, st.cur.column, u.1.column, tt.value)) else s1)
  }

  /** The top-level property loop, with `safe` iterations left. */
  function TopLoopF(st: State, root: Dict<DataNamed>, safe: nat): (r: (Dict<DataNamed>, State))
    ensures |r.1.cur.content| <= |st.cur.content|
    decreases safe
  {
    if Current(st.cur) == '\0' then (root, st)
    else if safe == 0 then (root, AddDiag(st, TopCeiling(st.cur)))
    else
      var p := EntryF(st);
      TopLoopF(p.1, Put(root, p.0.Name, p.0), safe - 1)
  }

  /** `Parse(content, schema)`: what Tokens, Diagnostics, Root and the
      schema stack hold afterwards. */
  function ParseF(content: string, schema: Option<Dict<Sdf2.NamedNode>>): Analysis
  {
    var st := State(SkipWhitespace(Cursor(content, 0, 0, 0)), [], [], InitialStack(schema));
    var r := TopLoopF(st, [], EndlessSafe);
    Analysis(r.1.tokens, r.1.diags, r.0, r.1.stack)
  }

  /** One iteration of the object loop. */
  lemma ObjectLoopStep(st: State, props: Dict<DataNamed>, safe: nat)
    requires Current(st.cur) != '}' && safe > 0
    ensures var p := EntryF(st);
      ObjectLoopF(st, props, safe) == ObjectLoopF(WithCursor(p.1, SkipWhitespace(p.1.cur)), Put(props, p.0.Name, p.0), safe - 1)
  {}

  /** The object loop's invariant survives one iteration. */
  lemma ObjectLoopKeeps(st: State, props: Dict<DataNamed>, safe: int, after: State, props': Dict<DataNamed>, rest: nat)
    requires Current(st.cur) != '}' && rest == safe - 1
    requires var p := EntryF(st);
      after == WithCursor(p.1, SkipWhitespace(p.1.cur)) && props' == Put(props, p.0.Name, p.0)
    ensures ObjectLoopF(after, props', rest) == ObjectLoopF(st, props, safe)
  {
    ObjectLoopStep(st, props, rest + 1);
  }

  /** One iteration of the list loop. */
  lemma ListLoopStep(st: State, items: seq<DataNode>, safe: nat)
    requires Current(st.cur) != ']' && safe > 0
    ensures var v := ExpectValueF(WithCursor(st, SkipWhitespace(st.cur)));
      ListLoopF(st, items, safe) == ListLoopF(WithCursor(v.1, SkipWhitespace(v.1.cur)), items + [v.0], safe - 1)
  {}

  /** One iteration of the top-level loop. */
  lemma TopLoopStep(st: State, root: Dict<DataNamed>, safe: nat)
    requires Current(st.cur) != '\0' && safe > 0
    ensures var p := EntryF(st);
      TopLoopF(st, root, safe) == TopLoopF(p.1, Put(root, p.0.Name, p.0), safe - 1)
  {}

  /** The top-level loop's invariant survives one property. */
  lemma TopLoopKeeps(st: State, root: Dict<DataNamed>, safe: int, rest: nat, p: DataNamed, after: State,
                     outcome: (Dict<DataNamed>, State))
    requires Current(st.cur) != '\0' && rest == safe - 1
    requires TopLoopF(st, root, safe) == outcome
    requires (p, after) == EntryF(st)
    ensures TopLoopF(after, Put(root, p.Name, p), rest) == outcome
  {
    TopLoopStep(st, root, rest + 1);
  }

  // ---------------------------------------------------------------------
  // The schema stack is restored, output only grows, and no Warning is
  // reported below a `null` schema entry

  /** Every diagnostic `r` added to those of `st` is an Error. */
  predicate Quiet(st: State, r: State)
  {
    forall i :: |st.diags| <= i < |r.diags| ==> r.diags[i].severity == Error
  }

  /** `r` follows `st`: the cursor did not move back, tokens and diagnostics
      only grew, the schema stack is the one `st` had, and below a `null`
      entry no Warning was added. */
  predicate Sound(st: State, r: State)
  {
    |r.cur.content| <= |st.cur.content| && Extends(st.tokens, r.tokens) && Extends(st.diags, r.diags)
    && r.stack == st.stack && (Typedef(st.stack).None? ==> Quiet(st, r))
  }

  lemma SoundTrans(a: State, b: State, c: State)
    requires Sound(a, b) && Sound(b, c)
    ensures Sound(a, c)
  {
    assert c.tokens[..|b.tokens|][..|a.tokens|] == c.tokens[..|a.tokens|];
    assert c.diags[..|b.diags|][..|a.diags|] == c.diags[..|a.diags|];
    if Typedef(a.stack).None? {
      forall i | |a.diags| <= i < |c.diags| ensures c.diags[i].severity == Error {
        if i < |b.diags| { assert c.diags[i] == c.diags[..|b.diags|][i]; }
      }
    }
  }

  lemma SoundRefl(st: State)
    ensures Sound(st, st)
  {}

  lemma SoundMove(st: State, c: Cursor)
    requires |c.content| <= |st.cur.content|
    ensures Sound(st, WithCursor(st, c))
  {}

  lemma SoundEmit(st: State, t: Token)
    ensures Sound(st, Emit(st, t))
  {}

  lemma SoundError(st: State, message: string, range: Range)
    ensures Sound(st, AddDiag(st, ErrorAt(message, range)))
  {}

  /** A value parsed between `GoInside` and `GoOutside`. */
  lemma SoundInside(h: State, name: string, v: State)
    requires Sound(WithStack(h, GoInsideF(h.stack, name)), v)
    ensures Sound(h, WithStack(v, GoOutsideF(v.stack)))
  {
    GoInsideOutside(h.stack, name);
    if Typedef(h.stack).None? {
      NullStaysNull(h.stack, name);
    }
  }

  lemma PropertyHeadSound(st: State)
    ensures Sound(st, PropertyHeadF(st).1)
  {
    var c1 := SkipWhitespace(st.cur);
    var u := Until(SkipWhitespace(c1), ":");
    var c2 := Next(u.1).1;
    var t := NameToken(c2.line, c1.column, c2.column);
    SoundMove(st, c2);
    SoundEmit(WithCursor(st, c2), t);
    SoundTrans(st, WithCursor(st, c2), Emit(WithCursor(st, c2), t));
    SoundMove(Emit(WithCursor(st, c2), t), SkipWhitespace(c2));
    SoundTrans(st, Emit(WithCursor(st, c2), t), PropertyHeadF(st).1);
  }

  lemma StringSound(st: State)
    ensures Sound(st, StringF(st).1)
  {
    var u := Until(Next(st.cur).1, "\"");
    var c2 := Next(u.1).1;
    SoundMove(st, c2);
    SoundEmit(WithCursor(st, c2), SpanToken(c2.line, st.cur.column, c2.column, "string"));
    SoundTrans(st, WithCursor(st, c2), StringF(st).1);
  }

  lemma BareSound(st: State)
    ensures Sound(st, BareF(st).1)
  {
    var u := Until(st.cur, BareDelimiters);
    SoundMove(st, u.1);
    var tt := LiteralTokenType(u.0);
    if tt.Some? {
      SoundEmit(WithCursor(st, u.1), SpanToken(u.1.line, st.cur.column, u.1.column, tt.value));
      SoundTrans(st, WithCursor(st, u.1), BareF(st).1);
    }
  }

  lemma EntrySound(st: State)
    ensures Sound(st, EntryF(st).1)
    decreases |st.cur.content|, 3, 0
  {
    var h := PropertyHeadF(st);
    PropertyHeadSound(st);
    if Compound(h.1.cur) {
      var s1 := WithStack(h.1, GoInsideF(h.1.stack, h.0));
      ExpectValueSound(s1);
      SoundInside(h.1, h.0, ExpectValueF(s1).1);
      SoundTrans(st, h.1, EntryF(st).1);
    } else {
      ExpectValueSound(h.1);
      SoundTrans(st, h.1, EntryF(st).1);
    }
  }

  lemma ExpectValueSound(st: State)
    ensures Sound(st, ExpectValueF(st).1)
    decreases |st.cur.content|, 2, 0
  {
    var s1 := WithCursor(st, SkipWhitespace(st.cur));
    SoundMove(st, s1.cur);
    if Current(s1.cur) == '{' {
      ObjectSound(s1, Typedef(st.stack));
    } else if Current(s1.cur) == '[' {
      ListSound(s1);
    } else if Current(s1.cur) == '"' {
      StringSound(s1);
    } else {
      BareSound(s1);
    }
    SoundTrans(st, s1, ExpectValueF(st).1);
  }

  lemma ObjectSound(st: State, ct: Frame)
    requires Current(st.cur) == '{'
    requires ct.None? || Typedef(st.stack).Some?
    ensures Sound(st, ObjectF(st, ct).1)
    decreases |st.cur.content|, 1, 0
  {
    var s1 := WithCursor(st, SkipWhitespace(Next(st.cur).1));
    var l := ObjectLoopF(s1, [], EndlessSafe);
    SoundMove(st, s1.cur);
    ObjectLoopSound(s1, [], EndlessSafe);
    SoundTrans(st, s1, l.1);
    SoundMove(l.1, Next(l.1.cur).1);
    SoundTrans(st, l.1, ObjectBodyF(st).1);
  }

  lemma ObjectLoopSound(st: State, props: Dict<DataNamed>, safe: nat)
    ensures Sound(st, ObjectLoopF(st, props, safe).1)
    decreases |st.cur.content|, 4, safe
  {
    if Current(st.cur) == '}' {
      SoundRefl(st);
    } else if safe == 0 {
      SoundError(st, "Expected '}'", ObjectCeiling(st.cur).range);
    } else {
      var p := EntryF(st);
      var s1 := WithCursor(p.1, SkipWhitespace(p.1.cur));
      EntrySound(st);
      SoundMove(p.1, s1.cur);
      SoundTrans(st, p.1, s1);
      ObjectLoopSound(s1, Put(props, p.0.Name, p.0), safe - 1);
      SoundTrans(st, s1, ObjectLoopF(s1, Put(props, p.0.Name, p.0), safe - 1).1);
    }
  }

  lemma ListSound(st: State)
    requires Current(st.cur) == '['
    ensures Sound(st, ListF(st).1)
    decreases |st.cur.content|, 1, 0
  {
    var s1 := WithCursor(st, SkipWhitespace(Next(st.cur).1));
    var l := ListLoopF(s1, [], EndlessSafe);
    SoundMove(st, s1.cur);
    ListLoopSound(s1, [], EndlessSafe);
    SoundTrans(st, s1, l.1);
    SoundMove(l.1, Next(l.1.cur).1);
    SoundTrans(st, l.1, ListF(st).1);
  }

  lemma ListLoopSound(st: State, items: seq<DataNode>, safe: nat)
    ensures Sound(st, ListLoopF(st, items, safe).1)
    decreases |st.cur.content|, 4, safe
  {
    if Current(st.cur) == ']' {
      SoundRefl(st);
    } else if safe == 0 {
      SoundError(st, "Expected ']'", ListCeiling(st.cur).range);
    } else {
      var s0 := WithCursor(st, SkipWhitespace(st.cur));
      var v := ExpectValueF(s0);
      var s1 := WithCursor(v.1, SkipWhitespace(v.1.cur));
      SoundMove(st, s0.cur);
      ExpectValueSound(s0);
      SoundTrans(st, s0, v.1);
      SoundMove(v.1, s1.cur);
      SoundTrans(st, v.1, s1);
      ListLoopSound(s1, items + [v.0], safe - 1);
      SoundTrans(st, s1, ListLoopF(s1, items + [v.0], safe - 1).1);
    }
  }

  lemma TopLoopSound(st: State, root: Dict<DataNamed>, safe: nat)
    ensures Sound(st, TopLoopF(st, root, safe).1)
    decreases safe
  {
    if Current(st.cur) == '\0' {
      SoundRefl(st);
    } else if safe == 0 {
      SoundError(st, "Endless loop", TopCeiling(st.cur).range);
    } else {
      var p := EntryF(st);
      EntrySound(st);
      TopLoopSound(p.1, Put(root, p.0.Name, p.0), safe - 1);
      SoundTrans(st, p.1, TopLoopF(p.1, Put(root, p.0.Name, p.0), safe - 1).1);
    }
  }

  // ---------------------------------------------------------------------
  // The mismatch Warning

  /** An object value gets the Warning exactly when the schema entry on top
      at entry to `ExpectValue` is non-null and not an OBJECT; the Warning
      names that entry and its declared type and comes after everything the
      object's body reported. */
  lemma ValueWarning(st: State)
    requires Current(SkipWhitespace(st.cur)) == '{'
    ensures var ct := Typedef(st.stack);
            var c1 := SkipWhitespace(st.cur);
            var b := ObjectBodyF(WithCursor(st, c1));
            var r := ExpectValueF(st);
            && r.0 == Object(b.0)
            && (!Mismatch(ct) ==> r.1.diags == b.1.diags)
            && (Mismatch(ct) ==>
                  |r.1.diags| == |b.1.diags| + 1 && r.1.diags[..|b.1.diags|] == b.1.diags
                  && r.1.diags[|b.1.diags|].severity == Warning
                  && r.1.diags[|b.1.diags|].message == "The property \"" + ct.value.Name + "\" should be a " + ct.value.Node.Label
                  && r.1.diags[|b.1.diags|].range.startLine == c1.line
                  && r.1.diags[|b.1.diags|].range.startCharacter == c1.column)
  {
    var b := ObjectBodyF(WithCursor(st, SkipWhitespace(st.cur)));
    if Mismatch(Typedef(st.stack)) {
      var w := MismatchWarning(Typedef(st.stack).value, Pos(SkipWhitespace(st.cur)), b.1.cur);
      assert (b.1.diags + [w])[..|b.1.diags|] == b.1.diags;
    }
  }

  /** With no schema, or below a `null` entry, a value adds no Warning. */
  lemma NoWarningWithoutSchema(st: State)
    requires Typedef(st.stack).None?
    ensures forall i :: |st.diags| <= i < |ExpectValueF(st).1.diags| ==> ExpectValueF(st).1.diags[i].severity == Error
  {
    ExpectValueSound(st);
  }

  // ---------------------------------------------------------------------
  // The loop ceilings

  /** The object loop stops in front of '}', or has pushed the ceiling's
      Error last; it adds at most one property per iteration. */
  lemma ObjectLoopExit(st: State, props: Dict<DataNamed>, safe: nat)
    ensures var r := ObjectLoopF(st, props, safe);
      && (Current(r.1.cur) == '}' || (r.1.diags != [] && r.1.diags[|r.1.diags| - 1] == ObjectCeiling(r.1.cur)))
      && |r.0| <= |props| + safe
    decreases |st.cur.content|, safe
  {
    if Current(st.cur) != '}' && safe > 0 {
      var p := EntryF(st);
      Sdf2.PutLength(props, p.0.Name, p.0);
      ObjectLoopExit(WithCursor(p.1, SkipWhitespace(p.1.cur)), Put(props, p.0.Name, p.0), safe - 1);
    }
  }

  /** The list loop stops in front of ']', or has pushed the ceiling's
      Error last. */
  lemma ListLoopExit(st: State, items: seq<DataNode>, safe: nat)
    ensures var r := ListLoopF(st, items, safe);
      Current(r.1.cur) == ']' || (r.1.diags != [] && r.1.diags[|r.1.diags| - 1] == ListCeiling(r.1.cur))
    decreases |st.cur.content|, safe
  {
    if Current(st.cur) != ']' && safe > 0 {
      var v := ExpectValueF(WithCursor(st, SkipWhitespace(st.cur)));
      ListLoopStep(st, items, safe);
      ListLoopExit(WithCursor(v.1, SkipWhitespace(v.1.cur)), items + [v.0], safe - 1);
    }
  }

  /** Every iteration of the list loop appends exactly one element. */
  lemma ListLoopItems(st: State, items: seq<DataNode>, safe: nat)
    ensures var r := ListLoopF(st, items, safe).0;
      |items| <= |r| <= |items| + safe && r[..|items|] == items
    decreases |st.cur.content|, safe
  {
    if Current(st.cur) != ']' && safe > 0 {
      var v := ExpectValueF(WithCursor(st, SkipWhitespace(st.cur)));
      var s1 := WithCursor(v.1, SkipWhitespace(v.1.cur));
      var items' := items + [v.0];
      var safe' := safe - 1;
      ListLoopStep(st, items, safe);
      ListLoopItems(s1, items', safe');
      var r := ListLoopF(s1, items', safe').0;
      assert r[..|items|] == r[..|items'|][..|items|];
    }
  }

  /** The top-level loop stops at the end of the text, or has pushed the
      ceiling's Error last; it adds at most one property per iteration. */
  lemma TopLoopExit(st: State, root: Dict<DataNamed>, safe: nat)
    ensures var r := TopLoopF(st, root, safe);
      && (Current(r.1.cur) == '\0' || (r.1.diags != [] && r.1.diags[|r.1.diags| - 1] == TopCeiling(r.1.cur)))
      && |r.0| <= |root| + safe
    decreases safe
  {
    if Current(st.cur) != '\0' && safe > 0 {
      var p := EntryF(st);
      TopLoopStep(st, root, safe);
      Sdf2.PutLength(root, p.0.Name, p.0);
      TopLoopExit(p.1, Put(root, p.0.Name, p.0), safe - 1);
    }
  }

  // ---------------------------------------------------------------------
  // Literals and strings

  /** A bare literal is the longest delimiter-free prefix, stored raw; it
      gets the token its class calls for, covering exactly the literal. */
  lemma BareSpec(st: State)
    ensures var r := BareF(st);
      && r.0.Literal?
      && |r.0.Text| <= |st.cur.content| && r.0.Text == st.cur.content[..|r.0.Text|]
      && (forall i :: 0 <= i < |r.0.Text| ==> r.0.Text[i] !in BareDelimiters)
      && (|r.0.Text| == |st.cur.content| || st.cur.content[|r.0.Text|] in BareDelimiters)
      && (LiteralTokenType(r.0.Text).None? ==> r.1.tokens == st.tokens)
      && (LiteralTokenType(r.0.Text).Some? ==>
            r.1.tokens == st.tokens + [Token(st.cur.line, st.cur.column, |r.0.Text|, LiteralTokenType(r.0.Text).value, [])])
  {
    var u := Until(st.cur, BareDelimiters);
    UntilSpec(st.cur, BareDelimiters);
    UntilMoves(st.cur, BareDelimiters);
    assert '\n' !in u.0;
    AfterNoNewline((st.cur.line, st.cur.column), u.0);
    assert u.0 == st.cur.content[..|u.0|];
    if u.1.content != [] { assert st.cur.content[|u.0|] == u.1.content[0]; }
  }

  /** The words true, false, yes and no get no token; any other literal a
      `number` token exactly when it converts to a number, else a `string` one. */
  lemma LiteralTokenTypeSpec(text: string)
    ensures LiteralTokenType(text).None? <==> text in ["true", "false", "yes", "no"]
    ensures LiteralTokenType(text) == Some("number") <==> text !in ["true", "false", "yes", "no"] && IsNumeric(text)
    ensures LiteralTokenType(text).Some? ==> LiteralTokenType(text).value in ["number", "string"]
  {}

  /** The empty literal converts to the number 0, so it is highlighted as a number. */
  lemma EmptyLiteralIsNumber()
    ensures LiteralTokenType("") == Some("number")
  {}

  /** A quoted string stores the text between the quotes (no quote inside). */
  lemma StringText(st: State)
    requires Current(st.cur) == '"'
    ensures var r := StringF(st);
      && r.0.Literal?
      && 1 + |r.0.Text| <= |st.cur.content| && r.0.Text == st.cur.content[1..1 + |r.0.Text|]
      && '"' !in r.0.Text
      && (1 + |r.0.Text| == |st.cur.content| || st.cur.content[1 + |r.0.Text|] == '"')
  {
    var c1 := Next(st.cur).1;
    NextSpec(st.cur);
    var u := Until(c1, "\"");
    UntilSpec(c1, "\"");
    assert c1.content == st.cur.content[1..];
    if u.1.content != [] { assert st.cur.content[1 + |u.0|] == u.1.content[0]; }
  }

  /** On one line, the token of a quoted string runs from the opening quote
      to just after the closing one, or to the end of the text when no
      closing quote comes. */
  lemma StringToken(st: State)
    requires Current(st.cur) == '"' && '\n' !in StringF(st).0.Text
    ensures StringF(st).1.tokens == st.tokens + [Token(st.cur.line, st.cur.column,
              |StringF(st).0.Text| + if 1 + |StringF(st).0.Text| < |st.cur.content| then 2 else 1, "string", [])]
  {
    var c1 := Next(st.cur).1;
    NextSpec(st.cur);
    assert c1.column == st.cur.column + 1 && c1.line == st.cur.line;
    var u := Until(c1, "\"");
    UntilSpec(c1, "\"");
    UntilMoves(c1, "\"");
    AfterNoNewline((c1.line, c1.column), u.0);
    assert u.1.column == c1.column + |u.0| && u.1.line == c1.line;
    var c2 := Next(u.1).1;
    if u.1.content != [] {
      assert u.1.content[0] == '"';
      assert c2.column == u.1.column + 1 && c2.line == u.1.line;
    }
  }

  /** A string token ends after a closing quote exactly when one follows. */
  lemma StringSpec(st: State)
    requires Current(st.cur) == '"'
    ensures var r := StringF(st);
      && r.0.Literal?
      && 1 + |r.0.Text| <= |st.cur.content| && r.0.Text == st.cur.content[1..1 + |r.0.Text|]
      && '"' !in r.0.Text
      && ('\n' !in r.0.Text ==>
            r.1.tokens == st.tokens + [Token(st.cur.line, st.cur.column,
              |r.0.Text| + if '"' in st.cur.content[1..] then 2 else 1, "string", [])])
  {
    StringText(st);
    var t := StringF(st).0.Text;
    if '\n' !in t {
      StringToken(st);
      if 1 + |t| < |st.cur.content| {
        assert st.cur.content[1..][|t|] == '"';
      } else {
        assert st.cur.content[1..] == t;
      }
    }
  }

  // ---------------------------------------------------------------------
  // The shape of the parsed tree

  /** Every object entry is keyed by its node's own name, keys are distinct,
      and nested objects and list elements are well formed too. */
  predicate WellFormed(n: DataNode)
  {
    match n
    case Literal(_) => true
    case Object(d) =>
      UniqueKeys(d) && forall i :: 0 <= i < |d| ==> d[i].0 == d[i].1.Name && WellFormed(d[i].1.Node)
    case List(items) => forall i :: 0 <= i < |items| ==> WellFormed(items[i])
  }

  predicate WellFormedDict(d: Dict<DataNamed>)
  {
    WellFormed(Object(d))
  }

  lemma PutWellFormed(d: Dict<DataNamed>, p: DataNamed)
    requires WellFormedDict(d) && WellFormed(p.Node)
    ensures WellFormedDict(Put(d, p.Name, p))
  {
    PutUnique(d, p.Name, p);
    PutEntries(d, p.Name, p);
  }

  lemma EntryWellFormed(st: State)
    ensures WellFormed(EntryF(st).0.Node)
    decreases |st.cur.content|, 3, 0
  {
    var h := PropertyHeadF(st);
    if Compound(h.1.cur) {
      ExpectValueWellFormed(WithStack(h.1, GoInsideF(h.1.stack, h.0)));
    } else {
      ExpectValueWellFormed(h.1);
    }
  }

  lemma ExpectValueWellFormed(st: State)
    ensures WellFormed(ExpectValueF(st).0)
    decreases |st.cur.content|, 2, 0
  {
    var s1 := WithCursor(st, SkipWhitespace(st.cur));
    var s2 := WithCursor(s1, SkipWhitespace(Next(s1.cur).1));
    if Current(s1.cur) == '{' {
      ObjectLoopWellFormed(s2, [], EndlessSafe);
      assert ExpectValueF(st) == ObjectF(s1, Typedef(st.stack));
      assert ObjectF(s1, Typedef(st.stack)).0 == Object(ObjectBodyF(s1).0);
      assert ObjectBodyF(s1).0 == ObjectLoopF(s2, [], EndlessSafe).0;
    } else if Current(s1.cur) == '[' {
      ListLoopWellFormed(s2, [], EndlessSafe);
      assert ExpectValueF(st) == ListF(s1);
      assert ListF(s1).0 == List(ListLoopF(s2, [], EndlessSafe).0);
    }
  }

  lemma ObjectLoopWellFormed(st: State, props: Dict<DataNamed>, safe: nat)
    requires WellFormedDict(props)
    ensures WellFormedDict(ObjectLoopF(st, props, safe).0)
    decreases |st.cur.content|, 4, safe
  {
    if Current(st.cur) != '}' && safe > 0 {
      var p := EntryF(st);
      EntryWellFormed(st);
      PutWellFormed(props, p.0);
      ObjectLoopWellFormed(WithCursor(p.1, SkipWhitespace(p.1.cur)), Put(props, p.0.Name, p.0), safe - 1);
    }
  }

  lemma ListLoopWellFormed(st: State, items: seq<DataNode>, safe: nat)
    requires forall i :: 0 <= i < |items| ==> WellFormed(items[i])
    ensures var r := ListLoopF(st, items, safe).0; forall i :: 0 <= i < |r| ==> WellFormed(r[i])
    decreases |st.cur.content|, 4, safe
  {
    if Current(st.cur) != ']' && safe > 0 {
      var v := ExpectValueF(WithCursor(st, SkipWhitespace(st.cur)));
      ExpectValueWellFormed(WithCursor(st, SkipWhitespace(st.cur)));
      assert forall i :: 0 <= i < |items + [v.0]| ==> WellFormed((items + [v.0])[i]) by {
        forall i | 0 <= i < |items + [v.0]| ensures WellFormed((items + [v.0])[i]) {
          if i < |items| { assert (items + [v.0])[i] == items[i]; }
        }
      }
      ListLoopStep(st, items, safe);
      ListLoopWellFormed(WithCursor(v.1, SkipWhitespace(v.1.cur)), items + [v.0], safe - 1);
    }
  }

  lemma TopLoopWellFormed(st: State, root: Dict<DataNamed>, safe: nat)
    requires WellFormedDict(root)
    ensures WellFormedDict(TopLoopF(st, root, safe).0)
    decreases safe
  {
    if Current(st.cur) != '\0' && safe > 0 {
      var p := EntryF(st);
      EntryWellFormed(st);
      PutWellFormed(root, p.0);
      TopLoopWellFormed(p.1, Put(root, p.0.Name, p.0), safe - 1);
    }
  }

  /** What every data parse promises: Root is well formed and holds at most
      500 properties, the schema stack ends as it started, and without a
      schema every diagnostic is an Error. */
  lemma ParseSpec(content: string, schema: Option<Dict<Sdf2.NamedNode>>)
    ensures var a := ParseF(content, schema);
      && WellFormedDict(a.root)
      && |a.root| <= EndlessSafe
      && a.stack == InitialStack(schema)
      && (schema.None? ==> forall i :: 0 <= i < |a.diags| ==> a.diags[i].severity == Error)
  {
    var st := State(SkipWhitespace(Cursor(content, 0, 0, 0)), [], [], InitialStack(schema));
    TopLoopWellFormed(st, [], EndlessSafe);
    TopLoopExit(st, [], EndlessSafe);
    TopLoopSound(st, [], EndlessSafe);
  }

  // ---------------------------------------------------------------------
  // The analyzer object

  // ---------------------------------------------------------------------
  // Completion: a second walk over the document that stops ("throws") as
  // soon as a stretch of white space it skips contains the editor cursor

  /** Where the walk is: still going at a cursor, or stopped with the
      completion labels it pushed; either way with the schema stack as the
      analyzer holds it at that moment. */
  datatype Walk = Go(cur: Cursor, stack: Stack) | Done(items: seq<string>, stack: Stack)

  /** `CursorInside(start, end)` for the editor position `at`. On the line of
      `start` only the start column is consulted. */
  predicate CursorInside(at: Position, start: Position, end: Position)
    ensures NotAfter(start, at) && NotAfter(at, end) ==> CursorInside(at, start, end)
    ensures CursorInside(at, start, end) ==> NotAfter(start, at) && at.line <= end.line
    ensures CursorInside(at, start, end) && at.line != start.line ==> NotAfter(at, end)
  {
    if at.line < start.line then false
    else if at.line > end.line then false
    else if at.line == start.line then at.character >= start.character
    else if at.line == end.line then at.character <= end.character
    else true
  }

  /** The property names offered where a property name is expected: the
      keys of the schema entry on top, when it is an OBJECT. */
  function NameLabels(ct: Frame): seq<string>
  {
    if ct.Some? && ct.value.Node.Object? then Keys(ct.value.Node.Props) else []
  }

  /** The labels offered where a value is expected: 'Property Value', then
      the Type tag of the entered schema entry when there is one. */
  function ValueLabels(ct: Frame): seq<string>
  {
    ["Property Value"] + if ct.Some? then [Sdf2.TypeTag(ct.value.Node)] else []
  }

  /** A stopped walk offers either the property names or the value labels
      of the schema entry on top of the stack it stopped with. */
  predicate Labelled(w: Walk)
  {
    w.Done? ==> w.items == NameLabels(Typedef(w.stack)) || w.items == ValueLabels(Typedef(w.stack))
  }

  /** Every entry of the stack is `null`: the document has no schema. */
  predicate NoSchema(stack: Stack)
  {
    forall i :: 0 <= i < |stack| ==> stack[i].None?
  }

  /** Without a schema, `GoInside` pushes only `null`. */
  lemma NoSchemaInside(stack: Stack, name: string)
    ensures NoSchema(stack) ==> Typedef(stack).None? && NoSchema(GoInsideF(stack, name)) && Typedef(GoInsideF(stack, name)).None?
  {}

  /** The walk of `ExpectValue` (completion version): white space, then an
      object, then a list, then a quoted string, each tried in turn, and
      finally everything up to a bare-literal delimiter. */
  function CValueF(c: Cursor, stack: Stack, at: Position): (r: Walk)
    ensures r.Go? ==> |r.cur.content| <= |c.content| && r.stack == stack
    ensures r.Done? ==> Extends(stack, r.stack)
    ensures NoSchema(stack) ==> NoSchema(r.stack) && (r.Done? ==> r.items == [] || r.items == ["Property Value"])
    ensures Labelled(r)
    decreases |c.content|, 1, 0
  {
    var c1 := SkipWhitespace(c);
    var a := if Current(c1) == '{' then CObjectF(c1, stack, at) else Go(c1, stack);
    if a.Done? then a
    else
      var b := if Current(a.cur) == '[' then CListF(a.cur, stack, at) else a;
      if b.Done? then b
      else
        var c2 := if Current(b.cur) == '"' then Next(Until(Next(b.cur).1, "\"").1).1 else b.cur;
        Go(Until(c2, BareDelimiters).1, stack)
  }

  /** An object: '{', white space, the property loop, the closing character. */
  function CObjectF(c: Cursor, stack: Stack, at: Position): (r: Walk)
    requires Current(c) == '{'
    ensures r.Go? ==> |r.cur.content| <= |c.content| && r.stack == stack
    ensures r.Done? ==> Extends(stack, r.stack)
    ensures NoSchema(stack) ==> NoSchema(r.stack) && (r.Done? ==> r.items == [] || r.items == ["Property Value"])
    ensures Labelled(r)
    decreases |c.content|, 0, 0
  {
    var w := CObjectLoopF(SkipWhitespace(Next(c).1), stack, EndlessSafe, at);
    if w.Done? then w else Go(Next(w.cur).1, w.stack)
  }

  /** The property loop of an object, with `safe` iterations left. */
  function CObjectLoopF(c: Cursor, stack: Stack, safe: nat, at: Position): (r: Walk)
    ensures r.Go? ==> |r.cur.content| <= |c.content| && r.stack == stack
    ensures r.Done? ==> Extends(stack, r.stack)
    ensures NoSchema(stack) ==> NoSchema(r.stack) && (r.Done? ==> r.items == [] || r.items == ["Property Value"])
    ensures Labelled(r)
    decreases |c.content|, 3, safe
  {
    if Current(c) == '}' || safe == 0 then Go(c, stack)
    else
      var w := CPropertyF(c, stack, at);
      if w.Done? then w else CObjectLoopF(w.cur, w.stack, safe - 1, at)
  }

  /** A list: '[', white space, the element loop, the closing character. */
  function CListF(c: Cursor, stack: Stack, at: Position): (r: Walk)
    requires Current(c) == '['
    ensures r.Go? ==> |r.cur.content| <= |c.content| && r.stack == stack
    ensures r.Done? ==> Extends(stack, r.stack)
    ensures NoSchema(stack) ==> NoSchema(r.stack) && (r.Done? ==> r.items == [] || r.items == ["Property Value"])
    ensures Labelled(r)
    decreases |c.content|, 0, 0
  {
    var w := CListLoopF(SkipWhitespace(Next(c).1), stack, EndlessSafe, at);
    if w.Done? then w else Go(Next(w.cur).1, w.stack)
  }

  /** The element loop of a list, with `safe` iterations left: white space,
      a value, white space. */
  function CListLoopF(c: Cursor, stack: Stack, safe: nat, at: Position): (r: Walk)
    ensures r.Go? ==> |r.cur.content| <= |c.content| && r.stack == stack
    ensures r.Done? ==> Extends(stack, r.stack)
    ensures NoSchema(stack) ==> NoSchema(r.stack) && (r.Done? ==> r.items == [] || r.items == ["Property Value"])
    ensures Labelled(r)
    decreases |c.content|, 3, safe
  {
    if Current(c) == ']' || safe == 0 then Go(c, stack)
    else
      var w := CValueF(SkipWhitespace(c), stack, at);
      if w.Done? then w else CListLoopF(SkipWhitespace(w.cur), w.stack, safe - 1, at)
  }

  /** `ParseProperties`: white space (stop with the names of the schema
      entry on top if the cursor is in it), the text up to ':' and the ':',
      `GoInside` the name, white space (stop with the value labels of the
      entered entry if the cursor is in it), the value, `GoOutside`. */
  function CPropertyF(c: Cursor, stack: Stack, at: Position): (r: Walk)
    ensures r.Go? ==> |r.cur.content| <= |c.content| && r.stack == stack
    ensures r.Done? ==> Extends(stack, r.stack)
    ensures NoSchema(stack) ==> NoSchema(r.stack) && (r.Done? ==> r.items == [] || r.items == ["Property Value"])
    ensures Labelled(r)
    decreases |c.content|, 2, 0
  {
    var c1 := SkipWhitespace(c);
    if CursorInside(at, Pos(c), Pos(c1)) then Done(NameLabels(Typedef(stack)), stack)
    else
      var u := Until(c1, ":");
      var c2 := Next(u.1).1;
      var inner := GoInsideF(stack, u.0);
      var c3 := SkipWhitespace(c2);
      assert Extends(stack, inner) && GoOutsideF(inner) == stack by { GoInsideOutside(stack, u.0); }
      assert NoSchema(stack) ==> NoSchema(inner) && Typedef(inner).None? by { NoSchemaInside(stack, u.0); }
      if CursorInside(at, Pos(c2), Pos(c3)) then Done(ValueLabels(Typedef(inner)), inner)
      else
        var w := CValueF(c3, inner, at);
        if w.Done? then w else Go(w.cur, GoOutsideF(w.stack))
  }

  /** The top-level loop, with `safe` iterations left. */
  function CTopLoopF(c: Cursor, stack: Stack, safe: nat, at: Position): (r: Walk)
    ensures r.Go? ==> r.stack == stack
    ensures r.Done? ==> Extends(stack, r.stack)
    ensures NoSchema(stack) ==> NoSchema(r.stack) && (r.Done? ==> r.items == [] || r.items == ["Property Value"])
    ensures Labelled(r)
    decreases safe
  {
    if Current(c) == '\0' || safe == 0 then Go(c, stack)
    else
      var w := CPropertyF(c, stack, at);
      if w.Done? then w else CTopLoopF(w.cur, w.stack, safe - 1, at)
  }

  /** `GetCompletion(content, at, schema)`: the labels offered, and the
      schema stack the analyzer is left with. */
  function CompletionF(content: string, at: Position, schema: Option<Dict<Sdf2.NamedNode>>): (r: (seq<string>, Stack))
  {
    var w := CTopLoopF(Cursor(content, 0, 0, 0), InitialStack(schema), EndlessSafe, at);
    (if w.Done? then w.items else [], w.stack)
  }

  /** A walk result as the completion methods report it. */
  function Outcome(thrown: bool, items: seq<string>, c: Cursor, stack: Stack): Walk
  {
    if thrown then Done(items, stack) else Go(c, stack)
  }

  /** The completion loops' invariants survive one iteration that did not stop. */
  lemma CObjectLoopKeeps(c: Cursor, stack: Stack, safe: int, rest: nat, at: Position, c': Cursor, stack': Stack, outcome: Walk)
    requires Current(c) != '}' && rest == safe - 1
    requires CObjectLoopF(c, stack, safe, at) == outcome
    requires CPropertyF(c, stack, at) == Go(c', stack')
    ensures CObjectLoopF(c', stack', rest, at) == outcome
  {
    assert CObjectLoopF(c, stack, rest + 1, at) == CObjectLoopF(c', stack', rest, at);
  }

  lemma CListLoopKeeps(c: Cursor, stack: Stack, safe: int, rest: nat, at: Position, c': Cursor, stack': Stack, outcome: Walk)
    requires Current(c) != ']' && rest == safe - 1
    requires CListLoopF(c, stack, safe, at) == outcome
    requires exists m :: CValueF(SkipWhitespace(c), stack, at) == Go(m, stack') && c' == SkipWhitespace(m)
    ensures CListLoopF(c', stack', rest, at) == outcome
  {
    var m :| CValueF(SkipWhitespace(c), stack, at) == Go(m, stack') && c' == SkipWhitespace(m);
    assert CListLoopF(c, stack, rest + 1, at) == CListLoopF(c', stack', rest, at);
  }

  lemma CTopLoopKeeps(c: Cursor, stack: Stack, safe: int, rest: nat, at: Position, c': Cursor, stack': Stack, outcome: Walk)
    requires Current(c) != '\0' && rest == safe - 1
    requires CTopLoopF(c, stack, safe, at) == outcome
    requires CPropertyF(c, stack, at) == Go(c', stack')
    ensures CTopLoopF(c', stack', rest, at) == outcome
  {
    assert CTopLoopF(c, stack, rest + 1, at) == CTopLoopF(c', stack', rest, at);
  }

  /** `p` is at or before `q` in reading order. */
  predicate NotAfter(p: Position, q: Position)
  {
    p.line < q.line || (p.line == q.line && p.character <= q.character)
  }

  /** On `start`'s line the end column is never consulted: every column
      from `start`'s on counts as inside, even one after `end`. */
  lemma CursorInsideStartLine(at: Position, start: Position, end: Position)
    requires at.line == start.line <= end.line
    ensures CursorInside(at, start, end) <==> start.character <= at.character
  {}

  /** What a completion leaves: the labels pushed before the walk stopped
      (none if it never stopped), and the starting stack extended by the
      entries the walk had entered and not yet left when it stopped. */
  lemma CompletionStack(content: string, at: Position, schema: Option<Dict<Sdf2.NamedNode>>)
    ensures Extends(InitialStack(schema), CompletionF(content, at, schema).1)
    ensures CTopLoopF(Cursor(content, 0, 0, 0), InitialStack(schema), EndlessSafe, at).Go? ==>
      CompletionF(content, at, schema) == ([], InitialStack(schema))
  {}

  /** Whatever the document and the position: the labels offered are none,
      or the property names of the schema entry on top of the stack the
      analyzer is left with, or 'Property Value' and that entry's Type tag. */
  lemma CompletionLabels(content: string, at: Position, schema: Option<Dict<Sdf2.NamedNode>>)
    ensures var r := CompletionF(content, at, schema);
      r.0 == [] || r.0 == NameLabels(Typedef(r.1)) || r.0 == ValueLabels(Typedef(r.1))
  {}

  /** Without a schema the only label ever offered is 'Property Value',
      and the analyzer is left with a stack of `null`s. */
  lemma CompletionWithoutSchema(content: string, at: Position)
    ensures CompletionF(content, at, None).0 in {[], ["Property Value"]}
    ensures NoSchema(CompletionF(content, at, None).1)
  {}

  /** Anywhere on the first line of a non-empty document the walk stops in
      the white space before the first property and offers the schema's
      top-level names (nothing without a schema). */
  lemma CompletionOnFirstLine(content: string, at: Position, schema: Option<Dict<Sdf2.NamedNode>>)
    requires content != [] && content[0] != '\0'
    requires at.line == 0 && at.character >= 0
    ensures CompletionF(content, at, schema).0 == if schema.Some? then Keys(schema.value) else []
    ensures CompletionF(content, at, schema).1 == InitialStack(schema)
  {
    var c := Cursor(content, 0, 0, 0);
    var c1 := SkipWhitespace(c);
    assert CursorInside(at, Pos(c), Pos(c1));
  }

  /** After a property's ':' the labels are 'Property Value' and the Type
      tag of the property's schema entry: here the cursor is just after
      `a:` on the second line, and `a` is a LITERAL in the schema. */
  lemma CompletionAfterColon()
    ensures var schema := [("a", Sdf2.NamedNode("a", Sdf2.Literal("number")))];
      CompletionF("\na: 1", Position(1, 2), Some(schema)).0 == ["Property Value", "LITERAL"]
  {
    var schema := [("a", Sdf2.NamedNode("a", Sdf2.Literal("number")))];
    var c := Cursor("\na: 1", 0, 0, 0);
    var c1 := Cursor("a: 1", 1, 0, 1);
    var c2 := Cursor(" 1", 1, 2, 3);
    assert SkipWhitespace(c) == c1;
    assert SkipWhitespace(c2) == Cursor("1", 1, 3, 4);
    ColonExampleName();
    CompletionAtValue(c, c1, c2, InitialStack(Some(schema)), Position(1, 2), "a");
  }

  /** When the cursor is in the white space before a property, the walk
      stops there, on the current stack, with the names of its top entry. */
  lemma CompletionAtName(c: Cursor, stack: Stack, at: Position)
    requires CursorInside(at, Pos(c), Pos(SkipWhitespace(c)))
    ensures CPropertyF(c, stack, at) == Done(NameLabels(Typedef(stack)), stack)
  {}

  /** When the cursor is not in the white space before a property but is
      in the white space after its ':', the walk stops there, inside the
      property's schema entry, with that entry's value labels. */
  lemma CompletionAtValue(c: Cursor, c1: Cursor, c2: Cursor, stack: Stack, at: Position, name: string)
    requires SkipWhitespace(c) == c1 && !CursorInside(at, Pos(c), Pos(c1))
    requires Until(c1, ":").0 == name && Next(Until(c1, ":").1).1 == c2
    requires CursorInside(at, Pos(c2), Pos(SkipWhitespace(c2)))
    ensures CPropertyF(c, stack, at) == Done(ValueLabels(Entered(stack, name)), GoInsideF(stack, name))
  {}

  lemma ColonExampleName()
    ensures Until(Cursor("a: 1", 1, 0, 1), ":") == ("a", Cursor(": 1", 1, 1, 2))
    ensures Next(Cursor(": 1", 1, 1, 2)) == (":", Cursor(" 1", 1, 2, 3))
  {
    var c1 := Cursor("a: 1", 1, 0, 1);
    assert IndexOf("a: 1", ':') == 1;
    assert Found("a: 1", ":") == 1;
    assert "a: 1"[1..] == ": 1";
    assert ": 1"[1..] == " 1";
    assert Next(c1) == ("a", Cursor(": 1", 1, 1, 2));
    assert Take(Cursor(": 1", 1, 1, 2), 0) == ("", Cursor(": 1", 1, 1, 2));
    assert Take(c1, 1) == (Next(c1).0 + Take(Next(c1).1, 0).0, Take(Next(c1).1, 0).1);
    assert "a" + "" == "a";
  }

  class Analyzer {
    var Tokens: seq<Token>
    var Diagnostics: seq<Diagnostic>
    var Root: Dict<DataNamed>
    var typeDefinitionStack: Stack

    constructor ()
      ensures Tokens == [] && Diagnostics == [] && Root == [] && typeDefinitionStack == []
    {
      Tokens, Diagnostics, Root, typeDefinitionStack := [], [], [], [];
    }

    /** Tokens, Diagnostics, Root and the schema stack as one value. */
    function Result(): Analysis
      reads this
    {
      Analysis(Tokens, Diagnostics, Root, typeDefinitionStack)
    }

    ghost function Snap(feed: TextFeed): State
      reads this`Tokens, this`Diagnostics, this`typeDefinitionStack, feed
    {
      State(feed.View(), Tokens, Diagnostics, typeDefinitionStack)
    }

    /** `GoInside(name)`: pushes the schema child `name`, or `null`, and
        returns what it pushed. */
    method GoInside(propertyName: string) returns (entered: Frame)
      modifies this`typeDefinitionStack
      ensures typeDefinitionStack == GoInsideF(old(typeDefinitionStack), propertyName)
      ensures entered == Typedef(typeDefinitionStack)
    {
      var last := Typedef(typeDefinitionStack);
      if last.None? || last.value.Node.Literal? {
        entered := None;
      } else {
        entered := Get(last.value.Node.Props, propertyName);
      }
      typeDefinitionStack := typeDefinitionStack + [entered];
    }

    method GoOutside()
      modifies this`typeDefinitionStack
      ensures typeDefinitionStack == GoOutsideF(old(typeDefinitionStack))
    {
      if |typeDefinitionStack| == 0 { return; }
      typeDefinitionStack := typeDefinitionStack[..|typeDefinitionStack| - 1];
    }

    method Parse(content: string, schema: Option<Dict<Sdf2.NamedNode>>)
      modifies this
      ensures Result() == ParseF(content, schema)
    {
      Tokens := [];
      Diagnostics := [];
      Root := [];
      typeDefinitionStack := if schema.Some? then [Some(Sdf2.NamedNode("", Sdf2.Object(schema.value)))] else [];
      var feed := new TextFeed(content);
      feed.ConsumeCharacters(WhitespaceCharacters);
      ghost var s0 := Snap(feed);
      ghost var outcome := TopLoopF(s0, [], EndlessSafe);
      var root: Dict<DataNamed> := [];
      var endlessSafe: int := EndlessSafe;
      while feed.CurrentCharacter() != '\0'
        invariant 0 <= endlessSafe <= EndlessSafe
        invariant TopLoopF(Snap(feed), root, endlessSafe) == outcome
        decreases endlessSafe
      {
        if endlessSafe <= 0 {
          Diagnostics := Diagnostics + [TopCeiling(feed.View())];
          break;
        }
        ghost var before, rootBefore, safeBefore := Snap(feed), root, endlessSafe;
        var property := Entry(feed);
        root := Put(root, property.Name, property);
        endlessSafe := endlessSafe - 1;
        TopLoopKeeps(before, rootBefore, safeBefore, endlessSafe, property, Snap(feed), outcome);
      }
      Root := root;
    }

    method ExpectPropertyName(feed: TextFeed) returns (propertyName: string)
      modifies feed
      ensures (propertyName, feed.View()) == ExpectPropertyNameF(old(feed.View()))
    {
      feed.ConsumeCharacters(WhitespaceCharacters);
      propertyName := feed.ConsumeUntil(":");
      var _ := feed.ConsumeNext();
    }

    /** One property of an object or of the top level: its name and
        `variable` token, then its value inside the schema entry of the name
        when the value is compound. */
    method Entry(feed: TextFeed) returns (property: DataNamed)
      modifies this`Tokens, this`Diagnostics, this`typeDefinitionStack, feed
      ensures (property, Snap(feed)) == EntryF(old(Snap(feed)))
      decreases |feed.Content|, 3
    {
      ghost var s0 := Snap(feed);
      feed.ConsumeCharacters(WhitespaceCharacters);
      var propertyStart := feed.CurrentColumn();
      var propertyName := ExpectPropertyName(feed);
      Tokens := Tokens + [NameToken(feed.CurrentLine(), propertyStart, feed.CurrentColumn())];
      feed.ConsumeCharacters(WhitespaceCharacters);
      ghost var h := PropertyHeadF(s0);
      assert (propertyName, Snap(feed)) == h;
      var wentInside := false;
      if feed.CurrentCharacter() == '{' || feed.CurrentCharacter() == '[' {
        var _ := GoInside(propertyName);
        wentInside := true;
      }
      var propertyValue := ExpectValue(feed);
      if wentInside { GoOutside(); }
      property := DataNamed(propertyName, propertyValue);
    }

    method ExpectValue(feed: TextFeed) returns (value: DataNode)
      modifies this`Tokens, this`Diagnostics, this`typeDefinitionStack, feed
      ensures (value, Snap(feed)) == ExpectValueF(old(Snap(feed)))
      decreases |feed.Content|, 2
    {
      var currentType := Typedef(typeDefinitionStack);
      feed.ConsumeCharacters(WhitespaceCharacters);
      if feed.CurrentCharacter() == '{' {
        value := ObjectValue(feed, currentType);
      } else if feed.CurrentCharacter() == '[' {
        value := ListValue(feed);
      } else if feed.CurrentCharacter() == '"' {
        value := StringValue(feed);
      } else {
        value := BareValue(feed);
      }
    }

    /** The object branch of `ExpectValue`; `currentType` is the schema
        entry that was on top when the value began. */
    method ObjectValue(feed: TextFeed, currentType: Frame) returns (value: DataNode)
      requires feed.CurrentCharacter() == '{'
      modifies this`Tokens, this`Diagnostics, this`typeDefinitionStack, feed
      ensures (value, Snap(feed)) == ObjectF(old(Snap(feed)), currentType)
      decreases |feed.Content|, 1
    {
      var started := feed.CurrentPosition();
      var _ := feed.ConsumeNext();
      feed.ConsumeCharacters(WhitespaceCharacters);
      var props := ObjectLoop(feed);
      var _ := feed.ConsumeNext();
      if Mismatch(currentType) {
        Diagnostics := Diagnostics + [MismatchWarning(currentType.value, started, feed.View())];
      }
      value := Object(props);
    }

    /** The property loop of an object, up to '}' or the iteration ceiling. */
    method ObjectLoop(feed: TextFeed) returns (props: Dict<DataNamed>)
      modifies this`Tokens, this`Diagnostics, this`typeDefinitionStack, feed
      ensures (props, Snap(feed)) == ObjectLoopF(old(Snap(feed)), [], EndlessSafe)
      decreases |feed.Content|, 5
    {
      props := [];
      var endlessSafe: int := EndlessSafe;
      while feed.CurrentCharacter() != '}'
        invariant 0 <= endlessSafe <= EndlessSafe
        invariant |feed.Content| <= |old(feed.Content)|
        invariant ObjectLoopF(Snap(feed), props, endlessSafe) == ObjectLoopF(old(Snap(feed)), [], EndlessSafe)
        decreases endlessSafe
      {
        if endlessSafe <= 0 {
          Diagnostics := Diagnostics + [ObjectCeiling(feed.View())];
          break;
        }
        props, endlessSafe := ObjectIteration(feed, props, endlessSafe);
      }
    }

    /** One iteration of the object's property loop: a property, then
        white space; the property is stored under its name. */
    method ObjectIteration(feed: TextFeed, props: Dict<DataNamed>, safe: int) returns (props': Dict<DataNamed>, safe': int)
      requires feed.CurrentCharacter() != '}' && safe > 0
      modifies this`Tokens, this`Diagnostics, this`typeDefinitionStack, feed
      ensures |feed.Content| <= |old(feed.Content)| && safe' == safe - 1
      ensures ObjectLoopF(Snap(feed), props', safe') == ObjectLoopF(old(Snap(feed)), props, safe)
      decreases |feed.Content|, 4
    {
      ghost var before := Snap(feed);
      var property := Entry(feed);
      ghost var e := EntryF(before);
      assert property == e.0 && Snap(feed) == e.1;
      feed.ConsumeCharacters(WhitespaceCharacters);
      assert Snap(feed) == WithCursor(e.1, SkipWhitespace(e.1.cur));
      props' := Put(props, property.Name, property);
      safe' := safe - 1;
      ObjectLoopKeeps(before, props, safe, Snap(feed), props', safe');
    }

    /** The list branch of `ExpectValue`. */
    method ListValue(feed: TextFeed) returns (value: DataNode)
      requires feed.CurrentCharacter() == '['
      modifies this`Tokens, this`Diagnostics, this`typeDefinitionStack, feed
      ensures (value, Snap(feed)) == ListF(old(Snap(feed)))
      decreases |feed.Content|, 1
    {
      var _ := feed.ConsumeNext();
      feed.ConsumeCharacters(WhitespaceCharacters);
      var items := ListLoop(feed);
      var _ := feed.ConsumeNext();
      value := List(items);
    }

    /** The element loop of a list, up to ']' or the iteration ceiling. */
    method ListLoop(feed: TextFeed) returns (items: seq<DataNode>)
      modifies this`Tokens, this`Diagnostics, this`typeDefinitionStack, feed
      ensures (items, Snap(feed)) == ListLoopF(old(Snap(feed)), [], EndlessSafe)
      decreases |feed.Content|, 5
    {
      items := [];
      var endlessSafe: int := EndlessSafe;
      while feed.CurrentCharacter() != ']'
        invariant 0 <= endlessSafe <= EndlessSafe
        invariant |feed.Content| <= |old(feed.Content)|
        invariant ListLoopF(Snap(feed), items, endlessSafe) == ListLoopF(old(Snap(feed)), [], EndlessSafe)
        decreases endlessSafe
      {
        if endlessSafe <= 0 {
          Diagnostics := Diagnostics + [ListCeiling(feed.View())];
          break;
        }
        items, endlessSafe := ListIteration(feed, items, endlessSafe);
      }
    }

    /** One iteration of the list's element loop: white space, a value
        (appended), white space. */
    method ListIteration(feed: TextFeed, items: seq<DataNode>, safe: int) returns (items': seq<DataNode>, safe': int)
      requires feed.CurrentCharacter() != ']' && safe > 0
      modifies this`Tokens, this`Diagnostics, this`typeDefinitionStack, feed
      ensures |feed.Content| <= |old(feed.Content)| && safe' == safe - 1
      ensures ListLoopF(Snap(feed), items', safe') == ListLoopF(old(Snap(feed)), items, safe)
      decreases |feed.Content|, 4
    {
      ghost var before := Snap(feed);
      ListLoopStep(before, items, safe);
      feed.ConsumeCharacters(WhitespaceCharacters);
      ghost var s1 := WithCursor(before, SkipWhitespace(before.cur));
      assert Snap(feed) == s1;
      var element := ExpectValue(feed);
      ghost var v := ExpectValueF(s1);
      assert element == v.0 && Snap(feed) == v.1;
      feed.ConsumeCharacters(WhitespaceCharacters);
      assert Snap(feed) == WithCursor(v.1, SkipWhitespace(v.1.cur));
      items' := items + [element];
      safe' := safe - 1;
    }

    /** The quoted-string branch of `ExpectValue`. */
    method StringValue(feed: TextFeed) returns (value: DataNode)
      modifies this`Tokens, feed
      ensures (value, Snap(feed)) == StringF(old(Snap(feed)))
    {
      var stringStartChar := feed.CurrentColumn();
      var _ := feed.ConsumeNext();
      var stringValue := feed.ConsumeUntil("\"");
      var _ := feed.ConsumeNext();
      Tokens := Tokens + [SpanToken(feed.CurrentLine(), stringStartChar, feed.CurrentColumn(), "string")];
      value := Literal(stringValue);
    }

    /** The bare-literal branch of `ExpectValue`. */
    method BareValue(feed: TextFeed) returns (value: DataNode)
      modifies this`Tokens, feed
      ensures (value, Snap(feed)) == BareF(old(Snap(feed)))
    {
      var anyLiteralStart := feed.CurrentColumn();
      var anyLiteral := feed.ConsumeUntil(BareDelimiters);
      var tokenType: Option<string> := Some("string");
      if anyLiteral in ["true", "false", "yes", "no"] {
        tokenType := None;
      } else if IsNumeric(anyLiteral) {
        tokenType := Some("number");
      }
      if tokenType.Some? {
        Tokens := Tokens + [SpanToken(feed.CurrentLine(), anyLiteralStart, feed.CurrentColumn(), tokenType.value)];
      }
      value := Literal(anyLiteral);
    }

    // -------------------------------------------------------------------
    // Completion

    /** `GetCompletion(content, at, schema)`: walks the document and returns
        the labels pushed before the walk stopped at `at` (none if it never
        did); the schema stack is left as the walk left it. */
    method GetCompletion(content: string, at: Position, schema: Option<Dict<Sdf2.NamedNode>>) returns (result: seq<string>)
      modifies this`typeDefinitionStack
      ensures (result, typeDefinitionStack) == CompletionF(content, at, schema)
    {
      var feed := new TextFeed(content);
      typeDefinitionStack := if schema.Some? then [Some(Sdf2.NamedNode("", Sdf2.Object(schema.value)))] else [];
      result := [];
      ghost var outcome := CTopLoopF(feed.View(), typeDefinitionStack, EndlessSafe, at);
      var endlessSafe: int := EndlessSafe;
      while feed.CurrentCharacter() != '\0'
        invariant 0 <= endlessSafe <= EndlessSafe
        invariant CTopLoopF(feed.View(), typeDefinitionStack, endlessSafe, at) == outcome
        decreases endlessSafe
      {
        if endlessSafe <= 0 {
          break;
        }
        ghost var c0, stack0, safe0 := feed.View(), typeDefinitionStack, endlessSafe;
        var items, thrown := CompleteProperty(feed, at);
        if thrown {
          result := items;
          return;
        }
        endlessSafe := endlessSafe - 1;
        CTopLoopKeeps(c0, stack0, safe0, endlessSafe, at, feed.View(), typeDefinitionStack, outcome);
      }
    }

    /** `ParseProperties` of the completion walk; `thrown` stands for the
        `throw null` that ends the walk once `items` are pushed. */
    method CompleteProperty(feed: TextFeed, at: Position) returns (items: seq<string>, thrown: bool)
      modifies this`typeDefinitionStack, feed
      ensures Outcome(thrown, items, feed.View(), typeDefinitionStack) == CPropertyF(old(feed.View()), old(typeDefinitionStack), at)
      decreases |feed.Content|, 2
    {
      var start := feed.CurrentPosition();
      var currentType := Typedef(typeDefinitionStack);
      feed.ConsumeCharacters(WhitespaceCharacters);
      if CursorInside(at, start, feed.CurrentPosition()) {
        items := [];
        if currentType.Some? && currentType.value.Node.Object? {
          items := Keys(currentType.value.Node.Props);
        }
        thrown := true;
        return;
      }
      var propertyName := feed.ConsumeUntil(":");
      var _ := feed.ConsumeNext();
      var _ := GoInside(propertyName);
      start := feed.CurrentPosition();
      feed.ConsumeCharacters(WhitespaceCharacters);
      if CursorInside(at, start, feed.CurrentPosition()) {
        items := ["Property Value"];
        var ctype := Typedef(typeDefinitionStack);
        if ctype.Some? {
          items := items + [Sdf2.TypeTag(ctype.value.Node)];
        }
        thrown := true;
        return;
      }
      items, thrown := CompleteValue(feed, at);
      if thrown {
        return;
      }
      GoOutside();
    }

    /** `ExpectValue` of the completion walk. */
    method CompleteValue(feed: TextFeed, at: Position) returns (items: seq<string>, thrown: bool)
      modifies this`typeDefinitionStack, feed
      ensures Outcome(thrown, items, feed.View(), typeDefinitionStack) == CValueF(old(feed.View()), old(typeDefinitionStack), at)
      decreases |feed.Content|, 1
    {
      ghost var c0, stack0 := feed.View(), typeDefinitionStack;
      feed.ConsumeCharacters(WhitespaceCharacters);
      ghost var c1 := feed.View();
      if feed.CurrentCharacter() == '{' {
        items, thrown := CompleteObject(feed, at);
        if thrown {
          return;
        }
      }
      ghost var a := if Current(c1) == '{' then CObjectF(c1, stack0, at) else Go(c1, stack0);
      assert a == Go(feed.View(), typeDefinitionStack);
      if feed.CurrentCharacter() == '[' {
        items, thrown := CompleteList(feed, at);
        if thrown {
          return;
        }
      }
      if feed.CurrentCharacter() == '"' {
        var _ := feed.ConsumeNext();
        var _ := feed.ConsumeUntil("\"");
        var _ := feed.ConsumeNext();
      }
      var _ := feed.ConsumeUntil(BareDelimiters);
      items, thrown := [], false;
    }

    /** The object branch of the completion walk. */
    method CompleteObject(feed: TextFeed, at: Position) returns (items: seq<string>, thrown: bool)
      requires feed.CurrentCharacter() == '{'
      modifies this`typeDefinitionStack, feed
      ensures Outcome(thrown, items, feed.View(), typeDefinitionStack) == CObjectF(old(feed.View()), old(typeDefinitionStack), at)
      decreases |feed.Content|, 0
    {
      var _ := feed.ConsumeNext();
      feed.ConsumeCharacters(WhitespaceCharacters);
      items, thrown := CompleteObjectLoop(feed, at);
      if thrown {
        return;
      }
      var _ := feed.ConsumeNext();
    }

    /** The property loop of an object in the completion walk. */
    method CompleteObjectLoop(feed: TextFeed, at: Position) returns (items: seq<string>, thrown: bool)
      modifies this`typeDefinitionStack, feed
      ensures Outcome(thrown, items, feed.View(), typeDefinitionStack) == CObjectLoopF(old(feed.View()), old(typeDefinitionStack), EndlessSafe, at)
      decreases |feed.Content|, 3
    {
      ghost var outcome := CObjectLoopF(feed.View(), typeDefinitionStack, EndlessSafe, at);
      var endlessSafe: int := EndlessSafe;
      while feed.CurrentCharacter() != '}'
        invariant 0 <= endlessSafe <= EndlessSafe
        invariant |feed.Content| <= |old(feed.Content)|
        invariant CObjectLoopF(feed.View(), typeDefinitionStack, endlessSafe, at) == outcome
        decreases endlessSafe
      {
        if endlessSafe <= 0 {
          break;
        }
        ghost var c0, stack0, safe0 := feed.View(), typeDefinitionStack, endlessSafe;
        items, thrown := CompleteProperty(feed, at);
        if thrown {
          return;
        }
        endlessSafe := endlessSafe - 1;
        CObjectLoopKeeps(c0, stack0, safe0, endlessSafe, at, feed.View(), typeDefinitionStack, outcome);
      }
      items, thrown := [], false;
    }

    /** The list branch of the completion walk. */
    method CompleteList(feed: TextFeed, at: Position) returns (items: seq<string>, thrown: bool)
      requires feed.CurrentCharacter() == '['
      modifies this`typeDefinitionStack, feed
      ensures Outcome(thrown, items, feed.View(), typeDefinitionStack) == CListF(old(feed.View()), old(typeDefinitionStack), at)
      decreases |feed.Content|, 0
    {
      var _ := feed.ConsumeNext();
      feed.ConsumeCharacters(WhitespaceCharacters);
      items, thrown := CompleteListLoop(feed, at);
      if thrown {
        return;
      }
      var _ := feed.ConsumeNext();
    }

    /** The element loop of a list in the completion walk. */
    method CompleteListLoop(feed: TextFeed, at: Position) returns (items: seq<string>, thrown: bool)
      modifies this`typeDefinitionStack, feed
      ensures Outcome(thrown, items, feed.View(), typeDefinitionStack) == CListLoopF(old(feed.View()), old(typeDefinitionStack), EndlessSafe, at)
      decreases |feed.Content|, 3
    {
      ghost var outcome := CListLoopF(feed.View(), typeDefinitionStack, EndlessSafe, at);
      var endlessSafe: int := EndlessSafe;
      while feed.CurrentCharacter() != ']'
        invariant 0 <= endlessSafe <= EndlessSafe
        invariant |feed.Content| <= |old(feed.Content)|
        invariant CListLoopF(feed.View(), typeDefinitionStack, endlessSafe, at) == outcome
        decreases endlessSafe
      {
        if endlessSafe <= 0 {
          break;
        }
        ghost var c0, stack0, safe0 := feed.View(), typeDefinitionStack, endlessSafe;
        feed.ConsumeCharacters(WhitespaceCharacters);
        items, thrown := CompleteValue(feed, at);
        if thrown {
          return;
        }
        feed.ConsumeCharacters(WhitespaceCharacters);
        endlessSafe := endlessSafe - 1;
        CListLoopKeeps(c0, stack0, safe0, endlessSafe, at, feed.View(), typeDefinitionStack, outcome);
      }
      items, thrown := [], false;
    }
  }
}
