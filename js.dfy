/**
  The pieces of the JavaScript runtime that the analyzers lean on, stated
  on Dafny values: `String.prototype.indexOf` for one character, `trim`,
  ASCII `toLowerCase`, `endsWith`, the `isNaN(+s)` numeric test, and plain
  objects used as string-keyed dictionaries.
*/
module Js {

  datatype Option<T> = None | Some(value: T)

  function Min(a: int, b: int): int { if a <= b then a else b }

  // ---------------------------------------------------------------------
  // String.prototype.indexOf(ch)

  /** The index of the first occurrence of `ch` in `s`, or -1. */
  function IndexOf(s: string, ch: char): (r: int)
    ensures -1 <= r < |s|
  {
    if s == [] then -1
    else if s[0] == ch then 0
    else
      var k := IndexOf(s[1..], ch);
      if k == -1 then -1 else k + 1
  }

  lemma {:induction false} IndexOfSpec(s: string, ch: char)
    ensures var r := IndexOf(s, ch);
      && -1 <= r < |s|
      && (r == -1 <==> ch !in s)
      && (0 <= r ==> s[r] == ch && forall i :: 0 <= i < r ==> s[i] != ch)
  {
    if s != [] && s[0] != ch {
      IndexOfSpec(s[1..], ch);
      assert forall x :: x in s[1..] ==> x in s;
      assert ch in s ==> ch in s[1..] by {
        if ch in s { var j :| 0 <= j < |s| && s[j] == ch; assert j != 0; assert s[1..][j - 1] == ch; }
      }
    }
  }

  // ---------------------------------------------------------------------
  // trim / toLowerCase / endsWith

  /** ECMAScript WhiteSpace and LineTerminator code points (what `trim` removes). */
  predicate IsJsSpace(ch: char)
  {
    ch == '\t' || ch == '\n' || ch == '\U{B}' || ch == '\U{C}' || ch == '\r' || ch == ' '
    || ch == '\U{A0}' || ch == '\U{1680}' || ('\U{2000}' <= ch <= '\U{200A}')
    || ch == '\U{2028}' || ch == '\U{2029}' || ch == '\U{202F}' || ch == '\U{205F}'
    || ch == '\U{3000}' || ch == '\U{FEFF}'
  }

  function TrimStart(s: string): string
  {
    if s != [] && IsJsSpace(s[0]) then TrimStart(s[1..]) else s
  }

  function TrimEnd(s: string): string
  {
    if s != [] && IsJsSpace(s[|s| - 1]) then TrimEnd(s[..|s| - 1]) else s
  }

  /** `trimStart` drops exactly the leading white space. */
  lemma {:induction false} TrimStartSpec(s: string)
    ensures var r := TrimStart(s);
      && |r| <= |s| && r == s[|s| - |r|..]
      && (r == [] || !IsJsSpace(r[0]))
      && (forall i :: 0 <= i < |s| - |r| ==> IsJsSpace(s[i]))
  {
    if s != [] && IsJsSpace(s[0]) {
      TrimStartSpec(s[1..]);
      var r := TrimStart(s[1..]);
      assert s[1..][|s| - 1 - |r|..] == s[|s| - |r|..];
      forall i | 0 <= i < |s| - |r| ensures IsJsSpace(s[i]) {
        if i > 0 { assert s[i] == s[1..][i - 1]; }
      }
    }
  }

  /** `trimEnd` drops exactly the trailing white space. */
  lemma {:induction false} TrimEndSpec(s: string)
    ensures var r := TrimEnd(s);
      && |r| <= |s| && r == s[..|r|]
      && (r == [] || !IsJsSpace(r[|r| - 1]))
      && (forall i :: |r| <= i < |s| ==> IsJsSpace(s[i]))
  {
    if s != [] && IsJsSpace(s[|s| - 1]) {
      TrimEndSpec(s[..|s| - 1]);
      var r := TrimEnd(s[..|s| - 1]);
      assert s[..|s| - 1][..|r|] == s[..|r|];
      forall i | |r| <= i < |s| ensures IsJsSpace(s[i]) {
        if i < |s| - 1 { assert s[i] == s[..|s| - 1][i]; }
      }
    }
  }

  /** `s.trim()`: `s` without its leading and trailing white space. */
  function Trim(s: string): (r: string)
    ensures r == [] || (!IsJsSpace(r[0]) && !IsJsSpace(r[|r| - 1]))
    ensures var k := |s| - |TrimStart(s)|;
      && 0 <= k && k + |r| <= |s| && r == s[k..k + |r|]
      && (forall i :: 0 <= i < k ==> IsJsSpace(s[i]))
      && (forall i :: k + |r| <= i < |s| ==> IsJsSpace(s[i]))
  {
    TrimStartSpec(s);
    TrimEndSpec(TrimStart(s));
    TrimEnd(TrimStart(s))
  }

  function LowerChar(ch: char): char
  {
    if 'A' <= ch <= 'Z' then (ch as int + 32) as char else ch
  }

  /** No ASCII capital letter occurs in `s`. */
  predicate NoUpper(s: string)
  {
    forall i :: 0 <= i < |s| ==> !('A' <= s[i] <= 'Z')
  }

  /** `s.toLowerCase()`, restricted to the ASCII letters: no capital is
      left, every other character stays where it was, and each capital
      becomes its own small letter. */
  function ToLower(s: string): (r: string)
    ensures |r| == |s| && NoUpper(r)
    ensures forall i :: 0 <= i < |s| && !('A' <= s[i] <= 'Z') ==> r[i] == s[i]
    ensures forall i :: 0 <= i < |s| && 'A' <= s[i] <= 'Z' ==> 'a' <= r[i] <= 'z' && r[i] as int - s[i] as int == 'a' as int - 'A' as int
  {
    seq(|s|, i requires 0 <= i < |s| => LowerChar(s[i]))
  }

  /** Lowering text that has no capital changes nothing; in particular
      lowering twice is lowering once. */
  lemma ToLowerIdempotent(s: string)
    ensures NoUpper(s) ==> ToLower(s) == s
    ensures ToLower(ToLower(s)) == ToLower(s)
  {
    if NoUpper(s) {
      assert forall i :: 0 <= i < |s| ==> ToLower(s)[i] == s[i];
    }
    var t := ToLower(s);
    assert forall i :: 0 <= i < |t| ==> ToLower(t)[i] == t[i];
  }

  /** Lowering works character by character, so it distributes over
      concatenation. */
  lemma ToLowerConcat(a: string, b: string)
    ensures ToLower(a + b) == ToLower(a) + ToLower(b)
  {
    assert forall i :: 0 <= i < |a + b| ==> ToLower(a + b)[i] == (ToLower(a) + ToLower(b))[i];
  }

  /** A text ending in `suffix` still ends in it, lowered, once lowered:
      a test of `ToLower(s)` against a lower-case suffix ignores case. */
  lemma ToLowerEndsWith(s: string, suffix: string)
    requires EndsWith(s, suffix)
    ensures EndsWith(ToLower(s), ToLower(suffix))
  {
    var k := |s| - |suffix|;
    assert s == s[..k] + suffix;
    ToLowerConcat(s[..k], suffix);
  }

  predicate EndsWith(s: string, suffix: string)
  {
    |suffix| <= |s| && s[|s| - |suffix|..] == suffix
  }

  // ---------------------------------------------------------------------
  // !Number.isNaN(+s): the StringNumericLiteral grammar of ECMA-262
  // (section 7.1.4.1.1), recognised but not evaluated.

  predicate IsDigit(ch: char) { '0' <= ch <= '9' }

  function LeadingDigits(s: string): (n: nat)
    ensures n <= |s|
  {
    if s != [] && IsDigit(s[0]) then 1 + LeadingDigits(s[1..]) else 0
  }

  predicate AllOf(s: string, allowed: string)
  {
    forall i :: 0 <= i < |s| ==> s[i] in allowed
  }

  /** SignedInteger := [+|-] DecimalDigits */
  predicate IsSignedInteger(s: string)
  {
    var t := if s != [] && (s[0] == '+' || s[0] == '-') then s[1..] else s;
    t != [] && LeadingDigits(t) == |t|
  }

  /** An optional ExponentPart. */
  predicate IsOptionalExponent(s: string)
  {
    s == [] || ((s[0] == 'e' || s[0] == 'E') && IsSignedInteger(s[1..]))
  }

  /** StrUnsignedDecimalLiteral */
  predicate IsUnsignedDecimal(s: string)
  {
    if s == "Infinity" then true
    else
      var a := LeadingDigits(s);
      var rest := s[a..];
      if rest != [] && rest[0] == '.' then
        var b := LeadingDigits(rest[1..]);
        (a > 0 || b > 0) && IsOptionalExponent(rest[1 + b..])
      else
        a > 0 && IsOptionalExponent(rest)
  }

  /** NonDecimalIntegerLiteral (0b…, 0o…, 0x…) */
  predicate IsNonDecimalInteger(s: string)
  {
    |s| > 2 && s[0] == '0' &&
    ((s[1] in "bB" && AllOf(s[2..], "01")) ||
     (s[1] in "oO" && AllOf(s[2..], "01234567")) ||
     (s[1] in "xX" && AllOf(s[2..], "0123456789abcdefABCDEF")))
  }

  /** The characters a numeric literal can start with: a sign, a digit,
      '.', or the 'I' of "Infinity". */
  predicate NumericStart(ch: char)
  {
    ch == '+' || ch == '-' || ch == '.' || ch == 'I' || IsDigit(ch)
  }

  /** `!Number.isNaN(+s)`: the trimmed text is empty (which converts to 0)
      or is a StrNumericLiteral. */
  predicate IsNumeric(s: string)
    ensures Trim(s) == [] ==> IsNumeric(s)
    ensures Trim(s) != [] && LeadingDigits(Trim(s)) == |Trim(s)| ==> IsNumeric(s)
  {
    var t := Trim(s);
    t == [] || IsNonDecimalInteger(t) || IsUnsignedDecimal(t)
    || (t[0] in "+-" && IsUnsignedDecimal(t[1..]))
  }

  /** A numeric text, once trimmed, starts with a sign, a digit, '.' or
      "Infinity": a text starting with any other character is not a number. */
  lemma NumericFirstChar(s: string)
    requires IsNumeric(s) && Trim(s) != []
    ensures NumericStart(Trim(s)[0])
  {
    var t := Trim(s);
    if !IsNonDecimalInteger(t) && !(t[0] in "+-") && t != "Infinity" {
      assert IsUnsignedDecimal(t);
      if LeadingDigits(t) == 0 {
        assert t[0] == '.';
      }
    }
  }

  // ---------------------------------------------------------------------
  // A plain object used as a dictionary: an insertion-ordered list of
  // entries; assigning an existing key keeps that key's place.

  type Dict<V> = seq<(string, V)>

  function Keys<V>(d: Dict<V>): (r: seq<string>)
    ensures |r| == |d|
    ensures forall i :: 0 <= i < |d| ==> r[i] == d[i].0
  {
    if d == [] then [] else [d[0].0] + Keys(d[1..])
  }

  predicate UniqueKeys<V>(d: Dict<V>)
  {
    forall i, j :: 0 <= i < j < |d| ==> d[i].0 != d[j].0
  }

  /** `d[k]`: the value of the first entry with key `k`. */
  function Get<V>(d: Dict<V>, k: string): (r: Option<V>)
    ensures r.None? <==> k !in Keys(d)
    ensures r.Some? ==> (k, r.value) in d
  {
    if d == [] then None
    else if d[0].0 == k then Some(d[0].1)
    else
      assert Keys(d) == [d[0].0] + Keys(d[1..]);
      assert forall x :: x in d[1..] ==> x in d;
      Get(d[1..], k)
  }

  /** `d[k] = v`: overwrites the entry of `k` in place, or appends one. */
  function Put<V>(d: Dict<V>, k: string, v: V): Dict<V>
  {
    if d == [] then [(k, v)]
    else if d[0].0 == k then [(k, v)] + d[1..]
    else [d[0]] + Put(d[1..], k, v)
  }

  /** Assignment keeps the order of the keys and appends a new key last. */
  lemma {:induction false} PutKeys<V>(d: Dict<V>, k: string, v: V)
    ensures Keys(Put(d, k, v)) == if k in Keys(d) then Keys(d) else Keys(d) + [k]
  {
    if d != [] && d[0].0 != k {
      PutKeys(d[1..], k, v);
      assert Keys(d) == [d[0].0] + Keys(d[1..]);
      assert Keys([d[0]] + Put(d[1..], k, v)) == [d[0].0] + Keys(Put(d[1..], k, v));
    }
  }

  /** Every entry after assignment is an old entry or the new one. */
  lemma {:induction false} PutEntries<V>(d: Dict<V>, k: string, v: V)
    ensures forall e :: e in Put(d, k, v) ==> e in d || e == (k, v)
  {
    if d != [] && d[0].0 != k {
      PutEntries(d[1..], k, v);
      assert forall x :: x in d[1..] ==> x in d;
    }
  }

  /** After `d[k] = v`, reading `k` gives `v` and every other key reads as before. */
  lemma {:induction false} PutGet<V>(d: Dict<V>, k: string, v: V, k': string)
    ensures Get(Put(d, k, v), k') == if k' == k then Some(v) else Get(d, k')
  {
    if d != [] && d[0].0 != k {
      PutGet(d[1..], k, v, k');
    }
  }

  /** Assignment keeps the keys of a dictionary distinct. */
  lemma {:induction false} PutUnique<V>(d: Dict<V>, k: string, v: V)
    requires UniqueKeys(d)
    ensures UniqueKeys(Put(d, k, v))
  {
    var r := Put(d, k, v);
    PutKeys(d, k, v);
    assert forall i, j :: 0 <= i < j < |r| ==> Keys(r)[i] != Keys(r)[j] by {
      forall i, j | 0 <= i < j < |r| ensures Keys(r)[i] != Keys(r)[j] {
        if j == |d| {
          assert Keys(r)[j] == k && k !in Keys(d);
          assert Keys(r)[i] == Keys(d)[i];
        } else {
          assert Keys(r)[i] == Keys(d)[i] == d[i].0 && Keys(r)[j] == Keys(d)[j] == d[j].0;
        }
      }
    }
  }
}
