/**
  The semantic-highlighting side of src/extension.ts: the legend tables,
  the two encoders applied to every parsed token, and `_parseText`, a
  scanner of data documents of its own that produces highlighting tokens
  only (no tree, no diagnostics).

  `_parseText` keeps its cursor in closure-local variables; here they are
  the fields of a `Tokenizer`. Its `ConsumeNext` has no guard for the end
  of the text: there it still moves the column and total counters and
  returns `undefined`, which `Consume` appends as the text "undefined".
  The `*Raw` functions are the value-level meaning of these closures; the
  lemmas relate them to the guarded cursor of `Feed`.
*/
module Extension {
  import opened Js
  import opened Host
  import opened Feed
  import Sdf

  // ---------------------------------------------------------------------
  // The legend and the encoders

  const TokenTypesLegend: seq<string> := ["string", "number", "variable"]

  const TokenModifiersLegend: seq<string> := ["readonly"]

  predicate Distinct(legend: seq<string>)
  {
    forall i, j :: 0 <= i < j < |legend| ==> legend[i] != legend[j]
  }

  /** `legend.forEach((name, index) => map.set(name, index))`. */
  function LegendMap(legend: seq<string>): Dict<nat>
    decreases |legend|
  {
    if legend == [] then [] else Put<nat>(LegendMap(legend[..|legend| - 1]), legend[|legend| - 1], |legend| - 1)
  }

  /** A legend of distinct names maps each name to its index and nothing
      else; its size is the legend's length. */
  lemma {:induction false} LegendMapSpec(legend: seq<string>)
    requires Distinct(legend)
    ensures Keys(LegendMap(legend)) == legend && |LegendMap(legend)| == |legend|
    ensures forall i :: 0 <= i < |legend| ==> Get(LegendMap(legend), legend[i]) == Some(i)
    decreases |legend|
  {
    if legend != [] {
      var init := legend[..|legend| - 1];
      var last := legend[|legend| - 1];
      var n: nat := |legend| - 1;
      var m := LegendMap(init);
      assert legend == init + [last];
      assert LegendMap(legend) == Put(m, last, n);
      assert Distinct(init);
      LegendMapSpec(init);
      assert last !in init;
      PutKeys(m, last, n);
      forall i | 0 <= i < |legend|
        ensures Get(Put(m, last, n), legend[i]) == Some(i)
      {
        PutGet(m, last, n, legend[i]);
        if i < n {
          assert legend[i] == init[i] && legend[i] != last;
        }
      }
    }
  }

  /** `_encodeTokenType`: the legend index, `size + 2` for `notInLegend`,
      and 0 for anything else. */
  function EncodeTokenType(tokenType: string): (r: nat)
    ensures tokenType in TokenTypesLegend ==> r < |TokenTypesLegend| && TokenTypesLegend[r] == tokenType
    ensures tokenType == "notInLegend" ==> r == |TokenTypesLegend| + 2
    ensures tokenType !in TokenTypesLegend && tokenType != "notInLegend" ==> r == 0
  {
    LegendMapSpec(TokenTypesLegend);
    var m := LegendMap(TokenTypesLegend);
    var index := Get(m, tokenType);
    if index.Some? then index.value
    else if tokenType == "notInLegend" then |m| + 2
    else 0
  }

  /** The table `_encodeTokenType` computes: `string` 0, `number` 1,
      `variable` 2, `notInLegend` 5, anything else 0. */
  lemma EncodeTokenTypeTable(tokenType: string)
    ensures EncodeTokenType(tokenType) ==
      if tokenType == "string" then 0
      else if tokenType == "number" then 1
      else if tokenType == "variable" then 2
      else if tokenType == "notInLegend" then 5
      else 0
  {
    LegendMapSpec(TokenTypesLegend);
    var m := LegendMap(TokenTypesLegend);
    assert Keys(m) == TokenTypesLegend == ["string", "number", "variable"];
    if tokenType !in TokenTypesLegend {
      assert tokenType !in Keys(m);
    }
  }

  /** `1 << n` on JavaScript's 32-bit integers (the shift count is taken
      modulo 32). */
  function Shl(n: nat): bv32
  {
    1 << (n % 32)
  }

  /** The bit one modifier contributes in `_encodeTokenModifiers`, given
      the legend map: `1 << index` for a modifier in the legend,
      `1 << size + 2` for `notInLegend`, nothing otherwise. */
  function LegendBit(tokenModifiers: Dict<nat>, modifier: string): bv32
  {
    var index := Get(tokenModifiers, modifier);
    if index.Some? then Shl(index.value)
    else if modifier == "notInLegend" then Shl(|tokenModifiers| + 2)
    else 0
  }

  function ModifierBit(modifier: string): bv32
  {
    LegendBit(LegendMap(TokenModifiersLegend), modifier)
  }

  /** The accumulator of `_encodeTokenModifiers` after the first `|mods|` modifiers. */
  function ModifierMask(mods: seq<string>): bv32
    decreases |mods|
  {
    if mods == [] then 0 else ModifierMask(mods[..|mods| - 1]) | ModifierBit(mods[|mods| - 1])
  }

  lemma ModifierBitTable(modifier: string)
    ensures ModifierBit(modifier) ==
      if modifier == "readonly" then 1 else if modifier == "notInLegend" then 8 else 0
  {
    LegendMapSpec(TokenModifiersLegend);
    assert TokenModifiersLegend[0] == "readonly";
    if modifier != "readonly" {
      assert modifier !in Keys(LegendMap(TokenModifiersLegend));
    }
  }

  /** `readonly` sets bit 0, `notInLegend` bit 3, anything else nothing. */
  function MaskOf(mods: seq<string>): bv32
  {
    (if "readonly" in mods then 1 else 0) | (if "notInLegend" in mods then 8 else 0)
  }

  /** The mask depends only on which modifiers occur. */
  lemma {:induction false} ModifierMaskMembers(mods: seq<string>)
    ensures ModifierMask(mods) == MaskOf(mods)
    decreases |mods|
  {
    if mods != [] {
      var init := mods[..|mods| - 1];
      var last := mods[|mods| - 1];
      ModifierMaskMembers(init);
      ModifierBitTable(last);
      MaskOfSnoc(init, last);
      assert mods == init + [last];
    }
  }

  /** One more modifier adds its own bit to the mask. */
  lemma MaskOfSnoc(init: seq<string>, last: string)
    ensures MaskOf(init + [last]) == MaskOf(init) |
      (if last == "readonly" then 1 else if last == "notInLegend" then 8 else 0)
  {
    var mods := init + [last];
    var r: bv32 := if "readonly" in init then 1 else 0;
    var n: bv32 := if "notInLegend" in init then 8 else 0;
    assert "readonly" in mods <==> "readonly" in init || last == "readonly";
    assert "notInLegend" in mods <==> "notInLegend" in init || last == "notInLegend";
    if last == "readonly" {
      assert MaskOf(mods) == 1 | n;
      assert (r | n) | 1 == 1 | n;
    } else if last == "notInLegend" {
      assert MaskOf(mods) == r | 8;
      assert (r | n) | 8 == r | 8;
    } else {
      assert MaskOf(mods) == r | n;
    }
  }

  /** Order and repetition of the modifiers do not matter. */
  lemma ModifierMaskOrderFree(a: seq<string>, b: seq<string>)
    requires forall x :: x in a <==> x in b
    ensures ModifierMask(a) == ModifierMask(b)
  {
    ModifierMaskMembers(a);
    ModifierMaskMembers(b);
    assert ("readonly" in a) == ("readonly" in b);
    assert ("notInLegend" in a) == ("notInLegend" in b);
  }

  /** `_encodeTokenModifiers`: OR-ing one bit per known modifier. */
  method EncodeTokenModifiers(strTokenModifiers: seq<string>) returns (result: bv32)
    ensures result == ModifierMask(strTokenModifiers)
    ensures result == MaskOf(strTokenModifiers)
  {
    var tokenModifiers := LegendMap(TokenModifiersLegend);
    result := 0;
    for i := 0 to |strTokenModifiers|
      invariant result == ModifierMask(strTokenModifiers[..i])
    {
      var tokenModifier := strTokenModifiers[i];
      result := result | LegendBit(tokenModifiers, tokenModifier);
      MaskStep(strTokenModifiers, i);
    }
    assert strTokenModifiers[..|strTokenModifiers|] == strTokenModifiers;
    ModifierMaskMembers(strTokenModifiers);
  }

  lemma MaskStep(mods: seq<string>, i: nat)
    requires i < |mods|
    ensures ModifierMask(mods[..i + 1]) == ModifierMask(mods[..i]) | ModifierBit(mods[i])
  {
    assert mods[..i + 1][..i] == mods[..i];
  }

  // ---------------------------------------------------------------------
  // The unguarded cursor of _parseText

  /** `ConsumeNext()`: removes and returns the first character; on empty
      text it returns `undefined` (None) and still moves the column and the
      total by one. */
  function NextRaw(c: Cursor): (r: (Option<char>, Cursor))
    ensures |r.1.content| <= |c.content|
    ensures c.content != [] ==> |r.1.content| < |c.content|
  {
    if |c.content| == 0 then (None, Cursor(c.content, c.line, c.column + 1, c.total + 1))
    else
      var p := Step((c.line, c.column), c.content[0]);
      (Some(c.content[0]), Cursor(c.content[1..], p.0, p.1, c.total + 1))
  }

  /** `substring += ConsumeNext()`: `undefined` is appended as "undefined". */
  function Text(ch: Option<char>): string
  {
    if ch.Some? then [ch.value] else "undefined"
  }

  /** `ConsumeCharacters(chars)` with `safe` iterations of the ceiling left. */
  function SkipRaw(c: Cursor, chars: string, safe: nat): (r: Cursor)
    ensures |r.content| <= |c.content|
    decreases safe
  {
    if Current(c) !in chars then c
    else if safe == 0 then c
    else SkipRaw(NextRaw(c).1, chars, safe - 1)
  }

  function SkipSpaceRaw(c: Cursor): (r: Cursor)
    ensures |r.content| <= |c.content|
  {
    SkipRaw(c, WhitespaceCharacters, EndlessSafe)
  }

  /** `Consume(n)`. */
  function TakeRaw(c: Cursor, n: nat): (r: (string, Cursor))
    ensures |r.1.content| <= |c.content|
    decreases n
  {
    if n == 0 then ("", c)
    else
      var (ch, c1) := NextRaw(c);
      var (t, c2) := TakeRaw(c1, n - 1);
      (Text(ch) + t, c2)
  }

  /** `ConsumeUntil(until)`: the same `found` as the guarded cursor. */
  function UntilRaw(c: Cursor, until: string): (r: (string, Cursor))
    ensures |r.1.content| <= |c.content|
  {
    var found := Found(c.content, until);
    if found == -1 || found == |c.content| then ("", c) else TakeRaw(c, found)
  }

  /** `k` copies of "undefined". */
  function Undefineds(k: nat): string
  {
    if k == 0 then "" else "undefined" + Undefineds(k - 1)
  }

  /** On non-empty text the unguarded `ConsumeNext` is the guarded one. */
  lemma NextRawAgrees(c: Cursor)
    requires c.content != []
    ensures NextRaw(c).1 == Next(c).1 && Text(NextRaw(c).0) == Next(c).0
  {}

  /** Skipping a set without the sentinel never reaches the unguarded case. */
  lemma {:induction false} SkipRawAgrees(c: Cursor, chars: string, safe: nat)
    requires '\0' !in chars
    ensures SkipRaw(c, chars, safe) == SkipWhile(c, chars, safe)
    decreases safe
  {
    if Current(c) in chars && safe > 0 {
      NextRawAgrees(c);
      SkipRawAgrees(NextRaw(c).1, chars, safe - 1);
    }
  }

  lemma SkipSpaceRawAgrees(c: Cursor)
    ensures SkipSpaceRaw(c) == SkipWhitespace(c)
  {
    SkipRawAgrees(c, WhitespaceCharacters, EndlessSafe);
  }

  /** Within the text, the unguarded `Consume` is the guarded one. */
  lemma {:induction false} TakeRawAgrees(c: Cursor, n: nat)
    requires n <= |c.content|
    ensures TakeRaw(c, n) == Take(c, n)
    decreases n
  {
    if n > 0 {
      NextRawAgrees(c);
      TakeRawAgrees(NextRaw(c).1, n - 1);
    }
  }

  /** The guarded `Consume` does nothing on empty text. */
  lemma {:induction false} TakeEmpty(c: Cursor, n: nat)
    requires c.content == []
    ensures Take(c, n) == ("", c)
    decreases n
  {
    if n > 0 {
      assert Next(c) == ("", c);
      TakeEmpty(c, n - 1);
      assert Take(c, n) == ("" + Take(c, n - 1).0, Take(c, n - 1).1);
      assert "" + "" == "";
    }
  }

  /** Past the end of the text, every further `ConsumeNext` appends
      "undefined" and moves the column and the total on. */
  lemma {:induction false} TakeRawPast(c: Cursor, n: nat)
    requires |c.content| <= n
    ensures var g := Take(c, n);
      TakeRaw(c, n) == (g.0 + Undefineds(n - |c.content|),
        Cursor([], g.1.line, g.1.column + (n - |c.content|), g.1.total + (n - |c.content|)))
    decreases n
  {
    if c.content == [] {
      TakeEmpty(c, n);
      if n > 0 {
        var c1 := NextRaw(c).1;
        assert c1 == Cursor([], c.line, c.column + 1, c.total + 1);
        TakeEmpty(c1, n - 1);
        TakeRawPast(c1, n - 1);
        assert TakeRaw(c, n) == ("undefined" + TakeRaw(c1, n - 1).0, TakeRaw(c1, n - 1).1);
        assert Undefineds(n) == "undefined" + Undefineds(n - 1);
        assert "" + Undefineds(n - 1) == Undefineds(n - 1);
        assert "" + Undefineds(n) == Undefineds(n);
      } else {
        assert "" + Undefineds(0) == "";
      }
    } else {
      NextRawAgrees(c);
      var c1 := NextRaw(c).1;
      TakeRawPast(c1, n - 1);
      var g1 := Take(c1, n - 1);
      var u := Undefineds(n - |c.content|);
      assert |c1.content| == |c.content| - 1;
      assert Take(c, n) == (Next(c).0 + g1.0, g1.1);
      assert TakeRaw(c, n) == (Next(c).0 + (g1.0 + u), g1.1.(content := [], column := g1.1.column + (n - |c.content|), total := g1.1.total + (n - |c.content|)));
      assert Next(c).0 + (g1.0 + u) == (Next(c).0 + g1.0) + u;
    }
  }

  /** With a delimiter in the text, the unguarded `ConsumeUntil` is the guarded one. */
  lemma UntilRawAgrees(c: Cursor, until: string, k: nat)
    requires k < |c.content| && c.content[k] in until
    ensures UntilRaw(c, until) == Until(c, until)
  {
    FoundSpec(c.content, until);
    TakeRawAgrees(c, Found(c.content, until));
  }

  /** Without a delimiter, `ConsumeUntil` returns the whole text followed by
      "undefined", and the cursor ends one column and one character past
      the guarded cursor's end. */
  lemma UntilRawNoDelimiter(c: Cursor, until: string)
    requires forall i :: 0 <= i < |c.content| ==> c.content[i] !in until
    ensures var g := Until(c, until).1;
      UntilRaw(c, until) == (c.content + "undefined", Cursor([], g.line, g.column + 1, g.total + 1))
  {
    FoundSpec(c.content, until);
    UntilNoDelimiter(c, until);
    TakeRawPast(c, |c.content| + 1);
    assert Undefineds(1) == "undefined";
  }

  // ---------------------------------------------------------------------
  // _parseText as functions on scanner states

  /** The scanner's cursor and the tokens pushed so far. */
  datatype Scan = Scan(cur: Cursor, tokens: seq<Token>)

  function SkipScan(s: Scan): (r: Scan)
    ensures |r.cur.content| <= |s.cur.content| && r.tokens == s.tokens
  {
    Scan(SkipSpaceRaw(s.cur), s.tokens)
  }

  /** `ExpectPropertyName()`: white space, the text up to ':', and one more character. */
  function PropertyNameF(c: Cursor): (r: (string, Cursor))
    ensures |r.1.content| <= |c.content|
  {
    var u := UntilRaw(SkipSpaceRaw(c), ":");
    (u.0, NextRaw(u.1).1)
  }

  /** The start of a property in the object and the top-level loops: white
      space, the name, its `variable` token (one column short of the
      cursor) and the white space after it. */
  function HeadF(s: Scan): (r: Scan)
    ensures |r.cur.content| <= |s.cur.content| && Extends(s.tokens, r.tokens)
  {
    var c1 := SkipSpaceRaw(s.cur);
    var c2 := PropertyNameF(c1).1;
    Scan(SkipSpaceRaw(c2), s.tokens + [Token(c2.line, c1.column, c2.column - c1.column - 1, "variable", [])])
  }

  /** `ExpectValue()`: white space, then an object, a list or a scalar. */
  function ValueF(s: Scan): (r: Scan)
    ensures |r.cur.content| <= |s.cur.content| && Extends(s.tokens, r.tokens)
    decreases |s.cur.content|, 1, 0
  {
    var s1 := SkipScan(s);
    if Current(s1.cur) == '{' then ObjectValueF(s1)
    else if Current(s1.cur) == '[' then ListValueF(s1)
    else ScalarF(s1)
  }

  /** An object: '{', white space, the property loop, one more character. */
  function ObjectValueF(s: Scan): (r: Scan)
    requires Current(s.cur) == '{'
    ensures |r.cur.content| <= |s.cur.content| && Extends(s.tokens, r.tokens)
    decreases |s.cur.content|, 0, 0
  {
    var l := ObjectLoopF(SkipScan(Scan(NextRaw(s.cur).1, s.tokens)), EndlessSafe);
    Scan(NextRaw(l.cur).1, l.tokens)
  }

  /** The property loop of an object, with `safe` iterations left. */
  function ObjectLoopF(s: Scan, safe: nat): (r: Scan)
    ensures |r.cur.content| <= |s.cur.content| && Extends(s.tokens, r.tokens)
    decreases |s.cur.content|, 2, safe
  {
    if Current(s.cur) == '}' then s
    else if safe == 0 then s
    else
      var h := HeadF(s);
      var v := ValueF(h);
      var r := ObjectLoopF(SkipScan(v), safe - 1);
      ExtendsTrans(s.tokens, h.tokens, v.tokens);
      ExtendsTrans(s.tokens, v.tokens, r.tokens);
      r
  }

  /** A list: '[', white space, the element loop, one more character. */
  function ListValueF(s: Scan): (r: Scan)
    requires Current(s.cur) == '['
    ensures |r.cur.content| <= |s.cur.content| && Extends(s.tokens, r.tokens)
    decreases |s.cur.content|, 0, 0
  {
    var l := ListLoopF(SkipScan(Scan(NextRaw(s.cur).1, s.tokens)), EndlessSafe);
    Scan(NextRaw(l.cur).1, l.tokens)
  }

  /** The element loop of a list, with `safe` iterations left. */
  function ListLoopF(s: Scan, safe: nat): (r: Scan)
    ensures |r.cur.content| <= |s.cur.content| && Extends(s.tokens, r.tokens)
    decreases |s.cur.content|, 2, safe
  {
    if Current(s.cur) == ']' then s
    else if safe == 0 then s
    else
      var v := ValueF(SkipScan(s));
      var r := ListLoopF(SkipScan(v), safe - 1);
      ExtendsTrans(s.tokens, v.tokens, r.tokens);
      r
  }

  /** A scalar: an optional '&' (then white space), then a quoted string or
      a bare literal, both starting at the '&' of a reference. */
  function ScalarF(s: Scan): (r: Scan)
    ensures |r.cur.content| <= |s.cur.content|
  {
    if Current(s.cur) == '&' then ScalarTailF(s.tokens, SkipSpaceRaw(NextRaw(s.cur).1), s.cur.column, true)
    else ScalarTailF(s.tokens, s.cur, s.cur.column, false)
  }

  /** The scalar after the optional '&': quoted or bare. */
  function ScalarTailF(tokens: seq<Token>, c: Cursor, start: int, isReference: bool): (r: Scan)
    ensures |r.cur.content| <= |c.content|
  {
    if Current(c) == '"' then QuotedF(tokens, c, start, isReference)
    else BareF(tokens, c, start, isReference)
  }

  /** A quoted string from `c` (at its opening quote) to one character past
      the next quote: a `variable`/`readonly` token for a reference, a
      `string` token otherwise, from `start` to the cursor. */
  function QuotedF(tokens: seq<Token>, c: Cursor, start: int, isReference: bool): (r: Scan)
    ensures |r.cur.content| <= |c.content|
  {
    var c2 := NextRaw(UntilRaw(NextRaw(c).1, "\"").1).1;
    Scan(c2, tokens + [Token(c2.line, start, c2.column - start,
      if isReference then "variable" else "string", if isReference then ["readonly"] else [])])
  }

  /** A bare literal from `c` up to a delimiter: a `variable`/`readonly`
      token for a reference, otherwise the token `sdf.ts` gives the
      literal's text, if any. */
  function BareF(tokens: seq<Token>, c: Cursor, start: int, isReference: bool): (r: Scan)
    ensures |r.cur.content| <= |c.content|
  {
    var u := UntilRaw(c, Sdf.BareDelimiters);
    var tokenType := Sdf.LiteralTokenType(u.0);
    var c2 := u.1;
    if isReference then Scan(c2, tokens + [Token(c2.line, start, c2.column - start, "variable", ["readonly"])])
    else if tokenType.Some? then Scan(c2, tokens + [Token(c2.line, start, c2.column - start, tokenType.value, [])])
    else Scan(c2, tokens)
  }

  /** The top-level loop, with `safe` iterations left. */
  function TopLoopF(s: Scan, safe: nat): (r: Scan)
    ensures Extends(s.tokens, r.tokens)
    decreases safe
  {
    if Current(s.cur) == '\0' then s
    else if safe == 0 then s
    else
      var h := HeadF(s);
      var v := ValueF(h);
      var r := TopLoopF(v, safe - 1);
      ExtendsTrans(s.tokens, h.tokens, v.tokens);
      ExtendsTrans(s.tokens, v.tokens, r.tokens);
      r
  }

  /** `_parseText(content)`: the tokens, in scan order. */
  function ParseTextF(content: string): seq<Token>
  {
    TopLoopF(SkipScan(Scan(Cursor(content, 0, 0, 0), [])), EndlessSafe).tokens
  }

  // ---------------------------------------------------------------------
  // What _parseText promises

  /** A value that does not open an object or a list is a scalar. */
  lemma ValueIsScalar(s: Scan)
    requires Current(SkipSpaceRaw(s.cur)) !in "{["
    ensures ValueF(s) == ScalarF(SkipScan(s))
  {}

  /** A value prefixed with '&' is one `variable`/`readonly` token starting
      at the '&' and ending at the cursor, whatever follows: a quoted
      string, a boolean or a number. */
  lemma ReferenceToken(s: Scan)
    requires Current(s.cur) == '&'
    ensures var r := ScalarF(s);
      r.tokens == s.tokens + [Token(r.cur.line, s.cur.column, r.cur.column - s.cur.column, "variable", ["readonly"])]
  {
    var c1 := SkipSpaceRaw(NextRaw(s.cur).1);
    assert ScalarF(s) == ScalarTailF(s.tokens, c1, s.cur.column, true);
    ReferenceTail(s.tokens, c1, s.cur.column);
  }

  /** What follows the '&' and its white space, quoted or bare, is one
      `variable`/`readonly` token from `start`. */
  lemma ReferenceTail(tokens: seq<Token>, c: Cursor, start: int)
    ensures var r := ScalarTailF(tokens, c, start, true);
      r.tokens == tokens + [Token(r.cur.line, start, r.cur.column - start, "variable", ["readonly"])]
  {}

  /** A quoted string closed on its own line is one `string` token from the
      opening quote to just after the closing one, and the cursor stops
      right behind the closing quote. */
  lemma QuotedStringToken(s: Scan, k: nat)
    requires var c := s.cur;
      Current(c) == '"' && k + 1 < |c.content| && c.content[k + 1] == '"'
      && (forall i :: 1 <= i <= k ==> c.content[i] != '"') && '\n' !in c.content[..k + 2]
    ensures var r := ScalarF(s);
      r.tokens == s.tokens + [Token(s.cur.line, s.cur.column, k + 2, "string", [])] && r.cur.content == s.cur.content[k + 2..]
  {
    assert ScalarF(s) == QuotedF(s.tokens, s.cur, s.cur.column, false);
    QuotedCursor(s.cur, k);
  }

  /** Where the cursor stops after a quoted string closed on its own line. */
  lemma QuotedCursor(c: Cursor, k: nat)
    requires Current(c) == '"' && k + 1 < |c.content| && c.content[k + 1] == '"'
      && (forall i :: 1 <= i <= k ==> c.content[i] != '"') && '\n' !in c.content[..k + 2]
    ensures var c2 := NextRaw(UntilRaw(NextRaw(c).1, "\"").1).1;
      c2.content == c.content[k + 2..] && c2.line == c.line && c2.column == c.column + k + 2
  {
    var n1 := NextRaw(c).1;
    NextRawAgrees(c);
    NextMoves(c);
    assert n1.content == c.content[1..] && n1.content[k] == '"';
    assert forall i :: 0 <= i < k ==> n1.content[i] == c.content[i + 1];
    UntilRawAgrees(n1, "\"", k);
    UntilFirst(n1, "\"", k);
    UntilSpec(n1, "\"");
    UntilMoves(n1, "\"");
    var u := Until(n1, "\"");
    var c2 := NextRaw(u.1).1;
    NextRawAgrees(u.1);
    NextMoves(u.1);
    MovesTrans(c, Next(c).0, n1, u.0, u.1);
    MovesTrans(c, Next(c).0 + u.0, u.1, Next(u.1).0, c2);
    var consumed := Next(c).0 + u.0 + Next(u.1).0;
    assert consumed == c.content[..k + 2];
    AfterNoNewline((c.line, c.column), consumed);
  }

  /** A bare literal outside a reference gets the token `sdf.ts` gives it:
      none for `true`, `false`, `yes` and `no`, otherwise a `number` token
      for a numeric text and a `string` token for any other, from where the
      literal starts to the cursor. */
  lemma BareLiteralToken(s: Scan)
    requires Current(s.cur) !in "&\""
    ensures var r := ScalarF(s); var u := UntilRaw(s.cur, Sdf.BareDelimiters);
      && r.cur == u.1
      && (u.0 in ["true", "false", "yes", "no"] ==> r.tokens == s.tokens)
      && (u.0 !in ["true", "false", "yes", "no"] ==>
            r.tokens == s.tokens + [Token(r.cur.line, s.cur.column, r.cur.column - s.cur.column,
              if IsNumeric(u.0) then "number" else "string", [])])
  {
    assert ScalarF(s) == BareF(s.tokens, s.cur, s.cur.column, false);
  }

  /** A number that ends the text without a line break after it is read as
      "1undefined" and highlighted as a two-column `string`. */
  lemma NumberAtEndOfText(s: Scan)
    requires s.cur.content == "1"
    ensures ScalarF(s).tokens == s.tokens + [Token(s.cur.line, s.cur.column, 2, "string", [])]
  {
    assert ScalarF(s) == BareF(s.tokens, s.cur, s.cur.column, false);
    BareOneAtEnd(s.tokens, s.cur);
  }

  lemma BareOneAtEnd(tokens: seq<Token>, c: Cursor)
    requires c.content == "1"
    ensures BareF(tokens, c, c.column, false).tokens == tokens + [Token(c.line, c.column, 2, "string", [])]
  {
    OneAtEnd(c);
    LiteralAtEnd();
    var c2 := Cursor([], c.line, c.column + 2, c.total + 2);
    assert BareF(tokens, c, c.column, false) == Scan(c2, tokens + [Token(c2.line, c.column, c2.column - c.column, "string", [])]);
  }

  lemma OneAtEnd(c: Cursor)
    requires c.content == "1"
    ensures UntilRaw(c, Sdf.BareDelimiters) == ("1undefined", Cursor([], c.line, c.column + 2, c.total + 2))
  {
    UntilRawNoDelimiter(c, Sdf.BareDelimiters);
    FoundSpec(c.content, Sdf.BareDelimiters);
    var c1 := Next(c).1;
    assert c1 == Cursor([], c.line, c.column + 1, c.total + 1);
    TakeEmpty(c1, 1);
    assert Until(c, Sdf.BareDelimiters) == Take(c, 2);
    assert Take(c, 2).1 == c1;
    assert "1" + "undefined" == "1undefined";
  }

  lemma LiteralAtEnd()
    ensures Sdf.LiteralTokenType("1undefined") == Some("string")
  {
    var t := "1undefined";
    assert TrimStart(t) == t && TrimEnd(t) == t;
    assert LeadingDigits(t) == 1 by {
      assert LeadingDigits(t[1..]) == 0;
    }
    assert t[1..] == "undefined";
    assert !IsNumeric(t);
  }

  /** Every loop only appends tokens: the result starts with what was there. */
  lemma ParseTextExtends(s: Scan, safe: nat)
    ensures Extends(s.tokens, TopLoopF(s, safe).tokens)
  {}

  // ---------------------------------------------------------------------
  // The closure state of _parseText

  class Tokenizer {
    var Content: string
    var currentCharacterTotal: nat
    var currentCharacter: nat
    var currentLine: nat
    var result: seq<Token>

    function View(): Cursor
      reads this
    {
      Cursor(Content, currentLine, currentCharacter, currentCharacterTotal)
    }

    function Snap(): Scan
      reads this
    {
      Scan(View(), result)
    }

    constructor (content: string)
      ensures Snap() == Scan(Cursor(content, 0, 0, 0), [])
    {
      Content := content;
      currentCharacterTotal, currentCharacter, currentLine := 0, 0, 0;
      result := [];
    }

    function CurrentCharacter(): char
      reads this
    {
      Current(View())
    }

    method ConsumeNext() returns (substring: Option<char>)
      modifies this
      ensures (substring, View()) == NextRaw(old(View())) && result == old(result)
    {
      substring := if |Content| > 0 then Some(Content[0]) else None;
      Content := if |Content| > 0 then Content[1..] else Content;
      if substring == Some('\n') {
        currentLine := currentLine + 1;
        currentCharacter := 0;
      } else {
        currentCharacter := currentCharacter + 1;
      }
      currentCharacterTotal := currentCharacterTotal + 1;
    }

    method ConsumeCharacters(chars: string)
      modifies this
      ensures View() == SkipRaw(old(View()), chars, EndlessSafe) && result == old(result)
    {
      var endlessSafe: int := EndlessSafe;
      while CurrentCharacter() in chars
        invariant 0 <= endlessSafe <= EndlessSafe && result == old(result)
        invariant SkipRaw(View(), chars, endlessSafe) == SkipRaw(old(View()), chars, EndlessSafe)
        decreases endlessSafe
      {
        if endlessSafe <= 0 { break; }
        ghost var before := View();
        endlessSafe := endlessSafe - 1;
        var _ := ConsumeNext();
        assert SkipRaw(before, chars, endlessSafe + 1) == SkipRaw(View(), chars, endlessSafe);
      }
    }

    method ConsumeUntil(until: string) returns (s: string)
      modifies this
      ensures (s, View()) == UntilRaw(old(View()), until) && result == old(result)
    {
      var found: int := |Content| + 1;
      for i := 0 to |until|
        invariant found == Found(Content, until[..i])
      {
        assert until[..i + 1][..i] == until[..i];
        var element := until[i];
        var subfound := IndexOf(Content, element);
        if subfound == -1 { continue; }
        found := Min(found, subfound);
      }
      assert until[..|until|] == until;
      if found == -1 || found == |Content| { return ""; }
      s := Consume(found);
    }

    method Consume(until: nat) returns (s: string)
      modifies this
      ensures (s, View()) == TakeRaw(old(View()), until) && result == old(result)
    {
      s := "";
      assert "" + TakeRaw(View(), until).0 == TakeRaw(View(), until).0;
      for i := 0 to until
        invariant result == old(result)
        invariant (s + TakeRaw(View(), until - i).0, TakeRaw(View(), until - i).1) == TakeRaw(old(View()), until)
      {
        ghost var before := View();
        var ch := ConsumeNext();
        ghost var rest := TakeRaw(View(), until - i - 1);
        assert TakeRaw(before, until - i) == (Text(ch) + rest.0, rest.1);
        assert s + (Text(ch) + rest.0) == (s + Text(ch)) + rest.0;
        s := s + Text(ch);
      }
      assert TakeRaw(View(), 0) == ("", View()) && s + "" == s;
    }

    method ExpectPropertyName() returns (propertyName: string)
      modifies this
      ensures (propertyName, View()) == PropertyNameF(old(View())) && result == old(result)
    {
      ConsumeCharacters(WhitespaceCharacters);
      propertyName := ConsumeUntil(":");
      var _ := ConsumeNext();
    }

    /** The lines shared by the object loop and the top-level loop: white
        space, the name, its `variable` token, white space. */
    method PropertyHead()
      modifies this
      ensures Snap() == HeadF(old(Snap()))
    {
      ConsumeCharacters(WhitespaceCharacters);
      var propertyStart := currentCharacter;
      var _ := ExpectPropertyName();
      result := result + [Token(currentLine, propertyStart, currentCharacter - propertyStart - 1, "variable", [])];
      ConsumeCharacters(WhitespaceCharacters);
    }

    method ExpectValue()
      modifies this
      ensures Snap() == ValueF(old(Snap()))
      decreases |Content|, 1
    {
      ConsumeCharacters(WhitespaceCharacters);
      if CurrentCharacter() == '{' {
        ObjectValue();
        return;
      }
      if CurrentCharacter() == '[' {
        ListValue();
        return;
      }
      Scalar();
    }

    method ObjectValue()
      requires CurrentCharacter() == '{'
      modifies this
      ensures Snap() == ObjectValueF(old(Snap()))
      decreases |Content|, 0
    {
      var _ := ConsumeNext();
      ConsumeCharacters(WhitespaceCharacters);
      ObjectLoop();
      var _ := ConsumeNext();
    }

    method ObjectLoop()
      modifies this
      ensures Snap() == ObjectLoopF(old(Snap()), EndlessSafe)
      decreases |Content|, 2
    {
      ghost var outcome := ObjectLoopF(Snap(), EndlessSafe);
      var endlessSafe: int := EndlessSafe;
      while CurrentCharacter() != '}'
        invariant 0 <= endlessSafe <= EndlessSafe && |Content| <= |old(Content)|
        invariant ObjectLoopF(Snap(), endlessSafe) == outcome
        decreases endlessSafe
      {
        if endlessSafe <= 0 { break; }
        ghost var before, safeBefore := Snap(), endlessSafe;
        endlessSafe := endlessSafe - 1;
        PropertyHead();
        ExpectValue();
        ConsumeCharacters(WhitespaceCharacters);
        ObjectLoopKeeps(before, safeBefore, endlessSafe, Snap(), outcome);
      }
    }

    method ListValue()
      requires CurrentCharacter() == '['
      modifies this
      ensures Snap() == ListValueF(old(Snap()))
      decreases |Content|, 0
    {
      var _ := ConsumeNext();
      ConsumeCharacters(WhitespaceCharacters);
      ListLoop();
      var _ := ConsumeNext();
    }

    method ListLoop()
      modifies this
      ensures Snap() == ListLoopF(old(Snap()), EndlessSafe)
      decreases |Content|, 2
    {
      ghost var outcome := ListLoopF(Snap(), EndlessSafe);
      var endlessSafe: int := EndlessSafe;
      while CurrentCharacter() != ']'
        invariant 0 <= endlessSafe <= EndlessSafe && |Content| <= |old(Content)|
        invariant ListLoopF(Snap(), endlessSafe) == outcome
        decreases endlessSafe
      {
        if endlessSafe <= 0 { break; }
        ghost var before, safeBefore := Snap(), endlessSafe;
        endlessSafe := endlessSafe - 1;
        ConsumeCharacters(WhitespaceCharacters);
        ExpectValue();
        ConsumeCharacters(WhitespaceCharacters);
        ListLoopKeeps(before, safeBefore, endlessSafe, Snap(), outcome);
      }
    }

    /** The scalar branch of `ExpectValue`. */
    method Scalar()
      modifies this
      ensures Snap() == ScalarF(old(Snap()))
    {
      var isReference := false;
      var referenceStart := currentCharacter;
      if CurrentCharacter() == '&' {
        var _ := ConsumeNext();
        ConsumeCharacters(WhitespaceCharacters);
        isReference := true;
      }
      if CurrentCharacter() == '"' {
        var stringStartChar := if isReference then referenceStart else currentCharacter;
        QuotedString(stringStartChar, isReference);
        return;
      }
      var anyLiteralStart := if isReference then referenceStart else currentCharacter;
      BareLiteral(anyLiteralStart, isReference);
    }

    method QuotedString(stringStartChar: int, isReference: bool)
      modifies this
      ensures Snap() == QuotedF(old(result), old(View()), stringStartChar, isReference)
    {
      var _ := ConsumeNext();
      var _ := ConsumeUntil("\"");
      var _ := ConsumeNext();
      result := result + [Token(currentLine, stringStartChar, currentCharacter - stringStartChar,
        if isReference then "variable" else "string", if isReference then ["readonly"] else [])];
    }

    method BareLiteral(anyLiteralStart: int, isReference: bool)
      modifies this
      ensures Snap() == BareF(old(result), old(View()), anyLiteralStart, isReference)
    {
      var anyLiteral := ConsumeUntil(Sdf.BareDelimiters);
      var tokenType: Option<string> := Some("string");
      if anyLiteral in ["true", "false", "yes", "no"] {
        tokenType := None;
      } else if IsNumeric(anyLiteral) {
        tokenType := Some("number");
      }
      if isReference {
        result := result + [Token(currentLine, anyLiteralStart, currentCharacter - anyLiteralStart, "variable", ["readonly"])];
      } else if tokenType.Some? {
        result := result + [Token(currentLine, anyLiteralStart, currentCharacter - anyLiteralStart, tokenType.value, [])];
      }
    }
  }

  /** The object loop's invariant survives one iteration. */
  lemma ObjectLoopKeeps(s: Scan, safe: int, rest: nat, after: Scan, outcome: Scan)
    requires Current(s.cur) != '}' && rest == safe - 1
    requires ObjectLoopF(s, safe) == outcome
    requires after == SkipScan(ValueF(HeadF(s)))
    ensures ObjectLoopF(after, rest) == outcome
  {
    assert ObjectLoopF(s, rest + 1) == ObjectLoopF(after, rest);
  }

  /** The list loop's invariant survives one iteration. */
  lemma ListLoopKeeps(s: Scan, safe: int, rest: nat, after: Scan, outcome: Scan)
    requires Current(s.cur) != ']' && rest == safe - 1
    requires ListLoopF(s, safe) == outcome
    requires after == SkipScan(ValueF(SkipScan(s)))
    ensures ListLoopF(after, rest) == outcome
  {
    assert ListLoopF(s, rest + 1) == ListLoopF(after, rest);
  }

  /** The top-level loop's invariant survives one iteration. */
  lemma TopLoopKeeps(s: Scan, safe: int, rest: nat, after: Scan, outcome: Scan)
    requires Current(s.cur) != '\0' && rest == safe - 1
    requires TopLoopF(s, safe) == outcome
    requires after == ValueF(HeadF(s))
    ensures TopLoopF(after, rest) == outcome
  {
    assert TopLoopF(s, rest + 1) == TopLoopF(after, rest);
  }

  /** `_parseText(content)`. */
  method ParseText(content: string) returns (tokens: seq<Token>)
    ensures tokens == ParseTextF(content)
  {
    var t := new Tokenizer(content);
    t.ConsumeCharacters(WhitespaceCharacters);
    ghost var outcome := TopLoopF(t.Snap(), EndlessSafe);
    var endlessSafe: int := EndlessSafe;
    while t.CurrentCharacter() != '\0'
      invariant 0 <= endlessSafe <= EndlessSafe
      invariant TopLoopF(t.Snap(), endlessSafe) == outcome
      decreases endlessSafe
    {
      if endlessSafe <= 0 { break; }
      ghost var before, safeBefore := t.Snap(), endlessSafe;
      endlessSafe := endlessSafe - 1;
      t.PropertyHead();
      t.ExpectValue();
      TopLoopKeeps(before, safeBefore, endlessSafe, t.Snap(), outcome);
    }
    tokens := t.result;
  }
}
