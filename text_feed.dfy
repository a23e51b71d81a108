/**
  The forward-only text cursor of src/text-feed.ts.

  `Cursor` is the value of a `TextFeed` (remaining text, line, column and
  total counters); `Next`, `SkipWhile`, `Take` and `Until` are the value-level
  meaning of `ConsumeNext`, `ConsumeCharacters`, `Consume` and `ConsumeUntil`,
  and the class methods are proved to compute exactly them.
*/
module Feed {
  import opened Js
  import opened Host

  const WhitespaceCharacters: string := " \t\r\n"

  /** The iteration ceiling of every `endlessSafe` loop. */
  const EndlessSafe: nat := 500

  datatype Cursor = Cursor(content: string, line: nat, column: nat, total: nat)

  /** `CurrentCharacter()`: the next character, or the sentinel '\0'. */
  function Current(c: Cursor): (ch: char)
    ensures c.content != [] ==> ch == c.content[0]
    ensures ch == '\0' <==> (c.content == [] || c.content[0] == '\0')
  {
    if 0 < |c.content| then c.content[0] else '\0'
  }

  // ---------------------------------------------------------------------
  // Line and column bookkeeping

  /** How consuming one character moves (line, column). */
  function Step(p: (nat, nat), ch: char): (nat, nat)
  {
    if ch == '\n' then (p.0 + 1, 0) else (p.0, p.1 + 1)
  }

  /** The (line, column) reached from `p` by consuming `s`. */
  function After(p: (nat, nat), s: string): (nat, nat)
    decreases |s|
  {
    if s == [] then p else After(Step(p, s[0]), s[1..])
  }

  lemma {:induction false} AfterConcat(p: (nat, nat), s: string, t: string)
    ensures After(p, s + t) == After(After(p, s), t)
    decreases |s|
  {
    if s != [] {
      assert (s + t)[0] == s[0] && (s + t)[1..] == s[1..] + t;
      AfterConcat(Step(p, s[0]), s[1..], t);
    } else {
      assert s + t == t;
    }
  }

  /** Text without a line break moves the column by its length. */
  lemma {:induction false} AfterNoNewline(p: (nat, nat), s: string)
    requires '\n' !in s
    ensures After(p, s) == (p.0, p.1 + |s|)
    decreases |s|
  {
    if s != [] {
      assert forall x :: x in s[1..] ==> x in s;
      AfterNoNewline(Step(p, s[0]), s[1..]);
    }
  }

  /** The line counter counts the line breaks consumed. */
  function Newlines(s: string): nat
  {
    if s == [] then 0 else (if s[0] == '\n' then 1 else 0) + Newlines(s[1..])
  }

  lemma {:induction false} AfterLine(p: (nat, nat), s: string)
    ensures After(p, s).0 == p.0 + Newlines(s)
    decreases |s|
  {
    if s != [] {
      AfterLine(Step(p, s[0]), s[1..]);
    }
  }

  /** After a line break the column counts the characters since the last one. */
  lemma {:induction false} AfterNewlineColumn(p: (nat, nat), s: string, t: string)
    requires '\n' !in t
    ensures After(p, s + "\n" + t).1 == |t|
  {
    AfterConcat(p, s + "\n", t);
    AfterConcat(p, s, "\n");
    AfterNoNewline(After(p, s + "\n"), t);
  }

  /** `b` is `a` after consuming exactly `s`: the text, the total and the
      position all agree. */
  predicate Moves(a: Cursor, s: string, b: Cursor)
  {
    s + b.content == a.content && b.total == a.total + |s|
    && (b.line, b.column) == After((a.line, a.column), s)
  }

  /** `b` is reachable from `a` by consuming some prefix of `a.content`. */
  predicate Advanced(a: Cursor, b: Cursor)
  {
    |b.content| <= |a.content| && Moves(a, a.content[..|a.content| - |b.content|], b)
  }

  lemma MovesAdvanced(a: Cursor, s: string, b: Cursor)
    requires Moves(a, s, b)
    ensures Advanced(a, b) && a.content[..|a.content| - |b.content|] == s
  {
    assert a.content[..|s|] == s;
  }

  lemma {:induction false} MovesTrans(a: Cursor, s: string, b: Cursor, t: string, c: Cursor)
    requires Moves(a, s, b) && Moves(b, t, c)
    ensures Moves(a, s + t, c)
  {
    AfterConcat((a.line, a.column), s, t);
  }

  lemma AdvancedTrans(a: Cursor, b: Cursor, c: Cursor)
    requires Advanced(a, b) && Advanced(b, c)
    ensures Advanced(a, c)
  {
    var s := a.content[..|a.content| - |b.content|];
    var t := b.content[..|b.content| - |c.content|];
    MovesTrans(a, s, b, t, c);
    MovesAdvanced(a, s + t, c);
  }

  lemma AdvancedRefl(a: Cursor)
    ensures Advanced(a, a)
  {
    assert a.content[..0] == [];
  }

  // ---------------------------------------------------------------------
  // The four consuming operations, as functions on cursors

  /** `ConsumeNext()`: on empty text it returns "" and changes nothing;
      otherwise it removes and returns the first character. */
  function Next(c: Cursor): (r: (string, Cursor))
    ensures |r.1.content| <= |c.content|
    ensures c.content != [] ==> |r.1.content| < |c.content|
  {
    if |c.content| == 0 then ("", c)
    else
      var ch := c.content[0];
      var p := Step((c.line, c.column), ch);
      ([ch], Cursor(c.content[1..], p.0, p.1, c.total + 1))
  }

  /** `ConsumeCharacters(chars)` with `safe` iterations of the ceiling left. */
  function SkipWhile(c: Cursor, chars: string, safe: nat): (r: Cursor)
    ensures |r.content| <= |c.content|
    decreases safe
  {
    if Current(c) !in chars then c
    else if safe == 0 then c
    else SkipWhile(Next(c).1, chars, safe - 1)
  }

  /** Skipping the white space set `' \t\r\n'` (the sentinel is not in it). */
  function SkipWhitespace(c: Cursor): (r: Cursor)
    ensures |r.content| <= |c.content|
  {
    SkipWhile(c, WhitespaceCharacters, EndlessSafe)
  }

  /** `Consume(n)`: `n` calls of `ConsumeNext`, concatenated. */
  function Take(c: Cursor, n: nat): (r: (string, Cursor))
    ensures |r.1.content| <= |c.content|
    decreases n
  {
    if n == 0 then ("", c)
    else
      var (s, c1) := Next(c);
      var (t, c2) := Take(c1, n - 1);
      (s + t, c2)
  }

  /** The `found` of `ConsumeUntil`: the minimum of `indexOf` over the
      delimiters, starting from `|s| + 1`. */
  function Found(s: string, until: string): (r: int)
    ensures 0 <= r <= |s| + 1
    decreases |until|
  {
    if until == [] then |s| + 1
    else
      var f := Found(s, until[..|until| - 1]);
      var sub := IndexOf(s, until[|until| - 1]);
      if sub == -1 then f else Min(f, sub)
  }

  /** `ConsumeUntil(until)`. */
  function Until(c: Cursor, until: string): (r: (string, Cursor))
    ensures |r.1.content| <= |c.content|
  {
    var found := Found(c.content, until);
    if found == -1 || found == |c.content| then ("", c) else Take(c, found)
  }

  // ---------------------------------------------------------------------
  // What each operation consumes

  /** `ConsumeNext` splits off the first character, if any. */
  lemma NextSpec(c: Cursor)
    ensures Next(c).0 + Next(c).1.content == c.content
    ensures Next(c).0 == c.content[..Min(1, |c.content|)]
  {
    if c.content != [] {
      assert [c.content[0]] + c.content[1..] == c.content;
    }
  }

  /** `Consume(n)` returns the first `n` characters (all of them when
      fewer remain) and keeps the rest. */
  lemma {:induction false} TakeSpec(c: Cursor, n: nat)
    ensures Take(c, n).0 == c.content[..Min(n, |c.content|)]
    ensures Take(c, n).0 + Take(c, n).1.content == c.content
    decreases n
  {
    if n > 0 {
      var (s, c1) := Next(c);
      NextSpec(c);
      TakeSpec(c1, n - 1);
      var (t, c2) := Take(c1, n - 1);
      assert Take(c, n) == (s + t, c2);
      assert (s + t) + c2.content == s + (t + c2.content);
      if c.content != [] {
        assert c1.content == c.content[1..];
        assert s + t == c.content[..Min(n, |c.content|)];
      }
    }
  }

  /** `found` is either past the end (no delimiter occurs) or the first
      position holding a delimiter. */
  lemma {:induction false} FoundSpec(s: string, until: string)
    ensures var r := Found(s, until);
      && (r == |s| + 1 || (0 <= r < |s| && s[r] in until))
      && (forall i :: 0 <= i < |s| && i < r ==> s[i] !in until)
    decreases |until|
  {
    if until != [] {
      var init := until[..|until| - 1];
      var last := until[|until| - 1];
      assert until == init + [last];
      FoundSpec(s, init);
      IndexOfSpec(s, last);
    }
  }

  /** `ConsumeUntil` returns the delimiter-free text in front of the first
      delimiter and leaves the cursor on that delimiter (or at the end). */
  lemma UntilSpec(c: Cursor, until: string)
    ensures Until(c, until).0 + Until(c, until).1.content == c.content
    ensures forall i :: 0 <= i < |Until(c, until).0| ==> Until(c, until).0[i] !in until
    ensures Until(c, until).1.content == [] || Until(c, until).1.content[0] in until
  {
    var found := Found(c.content, until);
    FoundSpec(c.content, until);
    if found != -1 && found != |c.content| {
      TakeSpec(c, found);
      var r := Take(c, found);
      if found < |c.content| {
        assert r.1.content == c.content[found..];
      }
    }
  }

  // ---------------------------------------------------------------------
  // Properties of the operations

  /** Each operation keeps the counters in step with the text it consumes. */
  lemma NextMoves(c: Cursor)
    ensures Moves(c, Next(c).0, Next(c).1)
  {
  }

  lemma {:induction false} SkipWhileMoves(c: Cursor, chars: string, safe: nat)
    ensures Advanced(c, SkipWhile(c, chars, safe))
    decreases safe
  {
    if Current(c) !in chars || safe == 0 {
      AdvancedRefl(c);
    } else {
      var n := Next(c).1;
      NextMoves(c);
      MovesAdvanced(c, Next(c).0, n);
      SkipWhileMoves(n, chars, safe - 1);
      AdvancedTrans(c, n, SkipWhile(n, chars, safe - 1));
    }
  }

  lemma {:induction false} TakeMoves(c: Cursor, n: nat)
    ensures Moves(c, Take(c, n).0, Take(c, n).1)
    decreases n
  {
    if n == 0 {
    } else {
      var (s, c1) := Next(c);
      NextMoves(c);
      TakeMoves(c1, n - 1);
      MovesTrans(c, s, c1, Take(c1, n - 1).0, Take(c1, n - 1).1);
    }
  }

  lemma UntilMoves(c: Cursor, until: string)
    ensures Moves(c, Until(c, until).0, Until(c, until).1)
  {
    var found := Found(c.content, until);
    if found != -1 && found != |c.content| {
      TakeMoves(c, found);
    }
  }

  /** `ConsumeCharacters` consumes at most `safe` characters, all of them in
      `chars`, and stops in front of a character not in `chars` unless the
      ceiling was reached (or `chars` holds the sentinel and the text ran out). */
  lemma {:induction false} SkipWhileSpec(c: Cursor, chars: string, safe: nat)
    ensures var r := SkipWhile(c, chars, safe);
      && r.content == c.content[|c.content| - |r.content|..]
      && |c.content| - |r.content| <= safe
      && (forall i :: 0 <= i < |c.content| - |r.content| ==> c.content[i] in chars)
      && (Current(r) in chars ==> |c.content| - |r.content| == safe || (r.content == [] && '\0' in chars))
    decreases safe
  {
    if Current(c) in chars && safe > 0 {
      var n := Next(c).1;
      var r := SkipWhile(n, chars, safe - 1);
      assert SkipWhile(c, chars, safe) == r;
      SkipWhileSpec(n, chars, safe - 1);
      if c.content != [] {
        assert n.content == c.content[1..];
        assert r.content == c.content[|c.content| - |r.content|..];
        forall i | 0 <= i < |c.content| - |r.content| ensures c.content[i] in chars {
          if i > 0 { assert c.content[i] == n.content[i - 1]; }
        }
      }
    }
  }

  lemma SkipWhitespaceSpec(c: Cursor)
    ensures var r := SkipWhitespace(c);
      && r.content == c.content[|c.content| - |r.content|..]
      && (forall i :: 0 <= i < |c.content| - |r.content| ==> c.content[i] in WhitespaceCharacters)
      && (Current(r) !in WhitespaceCharacters || |c.content| - |r.content| == EndlessSafe)
  {
    SkipWhileSpec(c, WhitespaceCharacters, EndlessSafe);
  }

  /** The `return ""` branch of `ConsumeUntil` is dead: `found` is never
      -1 and never the length of the text. */
  lemma UntilEmptyBranchDead(c: Cursor, until: string)
    ensures Found(c.content, until) != -1 && Found(c.content, until) != |c.content|
  {
    FoundSpec(c.content, until);
  }

  /** A delimiter in front: nothing is consumed and "" is returned. */
  lemma UntilAtDelimiter(c: Cursor, until: string)
    requires c.content != [] && c.content[0] in until
    ensures Until(c, until) == ("", c)
  {
    FoundSpec(c.content, until);
  }

  /** No delimiter at all: the whole remaining text is consumed, by the
      `Consume(length + 1)` whose last call stops at the empty guard. */
  lemma UntilNoDelimiter(c: Cursor, until: string)
    requires forall i :: 0 <= i < |c.content| ==> c.content[i] !in until
    ensures Until(c, until) == Take(c, |c.content| + 1)
    ensures Until(c, until).0 == c.content && Until(c, until).1.content == []
  {
    FoundSpec(c.content, until);
    TakeSpec(c, |c.content| + 1);
  }

  /** With its first delimiter at `k`, `ConsumeUntil` takes exactly the
      `k` characters in front of it. */
  lemma UntilFirst(c: Cursor, until: string, k: nat)
    requires k < |c.content| && c.content[k] in until
    requires forall i :: 0 <= i < k ==> c.content[i] !in until
    ensures Until(c, until) == Take(c, k) && |Until(c, until).0| == k
  {
    FoundSpec(c.content, until);
    TakeSpec(c, k);
  }

  /** `Until` returns the longest delimiter-free prefix. */
  lemma UntilLongest(c: Cursor, until: string, k: nat)
    requires k <= |c.content|
    requires forall i :: 0 <= i < k ==> c.content[i] !in until
    ensures k <= |Until(c, until).0|
  {
    FoundSpec(c.content, until);
    UntilSpec(c, until);
    var found := Found(c.content, until);
    if found != -1 && found != |c.content| {
      TakeSpec(c, found);
    }
  }

  // ---------------------------------------------------------------------
  // The class

  class TextFeed {
    var Content: string
    var currentCharacterTotal: nat
    var currentCharacter: nat
    var currentLine: nat

    function View(): Cursor
      reads this
    {
      Cursor(Content, currentLine, currentCharacter, currentCharacterTotal)
    }

    constructor (content: string)
      ensures View() == Cursor(content, 0, 0, 0)
    {
      Content := content;
      currentCharacterTotal, currentCharacter, currentLine := 0, 0, 0;
    }

    function CurrentCharacterTotal(): nat reads this { currentCharacterTotal }
    function CurrentColumn(): nat reads this { currentCharacter }
    function CurrentLine(): nat reads this { currentLine }

    function CurrentCharacter(): char
      reads this
    {
      Current(View())
    }

    function CurrentPosition(): Position
      reads this
    {
      Position(currentLine, currentCharacter)
    }

    method ConsumeNext() returns (s: string)
      modifies this
      ensures (s, View()) == Next(old(View()))
    {
      if |Content| == 0 { return ""; }
      s := Content[..1];
      assert s == [Content[0]];
      Content := Content[1..];
      if s[0] == '\n' {
        currentLine := currentLine + 1;
        currentCharacter := 0;
      } else {
        currentCharacter := currentCharacter + 1;
      }
      currentCharacterTotal := currentCharacterTotal + 1;
    }

    method ConsumeCharacters(chars: string)
      modifies this
      ensures View() == SkipWhile(old(View()), chars, EndlessSafe)
    {
      var endlessSafe: int := EndlessSafe;
      while CurrentCharacter() in chars
        invariant 0 <= endlessSafe <= EndlessSafe
        invariant SkipWhile(View(), chars, endlessSafe) == SkipWhile(old(View()), chars, EndlessSafe)
        decreases endlessSafe
      {
        if endlessSafe <= 0 { break; }
        ghost var before := View();
        endlessSafe := endlessSafe - 1;
        var _ := ConsumeNext();
        assert View() == Next(before).1;
        assert SkipWhile(before, chars, endlessSafe + 1) == SkipWhile(View(), chars, endlessSafe);
      }
    }

    method ConsumeUntil(until: string) returns (s: string)
      modifies this
      ensures (s, View()) == Until(old(View()), until)
    {
      var found: int := |Content| + 1;
      for i := 0 to |until|
        invariant found == Found(Content, until[..i])
      {
        assert until[..i + 1][..i] == until[..i];
        var element := until[i];
        var subfound := IndexOf(Content, element);
        if subfound == -1 { continue; }
        found := Min(found, subfound);
      }
      assert until[..|until|] == until;
      if found == -1 || found == |Content| { return ""; }
      s := Consume(found);
    }

    method Consume(until: nat) returns (s: string)
      modifies this
      ensures (s, View()) == Take(old(View()), until)
    {
      s := "";
      assert "" + Take(View(), until).0 == Take(View(), until).0;
      for i := 0 to until
        invariant (s + Take(View(), until - i).0, Take(View(), until - i).1) == Take(old(View()), until)
      {
        ghost var before := View();
        var ch := ConsumeNext();
        ghost var rest := Take(View(), until - i - 1);
        assert Take(before, until - i) == (ch + rest.0, rest.1);
        assert s + (ch + rest.0) == (s + ch) + rest.0;
        s := s + ch;
      }
      assert Take(View(), 0) == ("", View()) && s + "" == s;
    }
  }
}
