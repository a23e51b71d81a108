# vscode-sdf analysis core in Dafny

A model of the language-analysis core of the vscode-sdf editor extension,
with proofs about it. The extension handles two formats:

- **data documents** (language `sdf`): `name: value` properties, where a
  value is an object `{ … }`, a list `[ … ]`, a quoted string or a bare
  literal;
- **type (schema) documents** (language `sdf2`, files `*.sdftypes`):
  `name: type` properties, where a type is an object `{ … }` or a label
  with optional `[]` suffixes.

The model covers:

- **`Feed`** (`text-feed.ts`): the forward-only cursor `TextFeed`. It holds
  the remaining text and its line, column and total counters. Its operations
  are `ConsumeNext`, `ConsumeCharacters`, `ConsumeUntil` and `Consume`.
- **`Sdf2`** (`sdf2.ts`): the schema analyzer. It builds the tree of schema
  nodes and emits `variable` tokens for names and `type` tokens for labels.
  It reports an Error for a malformed `[]` suffix and for a loop that hits
  its ceiling.
- **`Sdf`** (`sdf.ts`): the data analyzer and its completion walk.
  - `Parse` builds the data tree and emits tokens. It follows the nesting of
    the data with a stack of schema entries (`GoInside`/`GoOutside`), and
    warns when an object appears where the schema declares a scalar.
  - `GetCompletion` re-walks the text up to the editor position and offers
    property names or value hints.
- **`Registry`** (`analyzers.ts`): the list of analysed documents.
  - `Analyze` re-parses the record of a known URI, or appends a new one.
  - A data document is linked to the schema whose URI ends in
    `<--type>.sdftypes`.
  - `GetFile` looks a record up by URI.
- **`Extension`** (`extension.ts`): the semantic-highlighting front end.
  - The token-type and token-modifier legends.
  - `_encodeTokenType` and `_encodeTokenModifiers`; the modifier mask is a
    32-bit `bv32`, and `1 << n` shifts by `n mod 32`, as JavaScript does.
  - `_parseText`, a scanner of its own that only produces tokens.
- **`Js`** and **`Host`**: the JavaScript built-ins the code relies on, and
  the editor types the code uses.
  - The built-ins are `indexOf`, `trim`, `toLowerCase`, `endsWith`,
    `Number.isNaN(+s)`, and objects used as insertion-ordered dictionaries.
  - The editor types are positions, ranges, diagnostics and tokens.

**How it is modelled.** Every imperative operation is a method of a `class`
that has the source's fields.

- Each method is proved to compute exactly a value-level function of the
  state before it: `Next`, `ExpectTypeF`, `ObjectLoopF`, `CValueF`,
  `AnalyzeF`, `ParseTextF`, ….
- The properties the source promises are lemmas about those functions.
- A loop bounded by `endlessSafe` is a loop with a counter, starting at 500,
  both in the method and in its function. When the counter runs out, the
  function pushes the same Error diagnostic the source pushes.

**Quirks of the code that the model keeps:**

- A freshly opened data document is re-parsed once for every schema
  record serving its `--type`, so the **last** match decides (`NewDataLastSchema`).
  Re-analysis of a known data document stops at the **first** match
  (`ReanalyzeFirstSchema`). Re-analysis reads `--type` from the Root of the
  *previous* parse.
- `ConsumeUntil` never takes its early `return ""` branch
  (`UntilEmptyBranchDead`). Without a delimiter it consumes the whole rest
  of the text (`UntilNoDelimiter`).
- A quoted string's token spans both quotes (`StringSpec`,
  `QuotedStringToken`).
- The empty bare literal is highlighted as a number, because `+""` is 0
  (`EmptyLiteralIsNumber`).
- A `type` token encodes as 0, like `string`, because `type` is not in the
  legend (`EncodeTokenTypeTable`).
- Reference literals (`&…`) exist only in `_parseText`. The data analyzer
  treats `&` as the start of a bare literal.
- Diagnostic ranges keep the argument order of each call site. Some calls
  swap line and column (sdf2.ts:100, sdf.ts:126, sdf.ts:148, sdf.ts:215).
- `_parseText`'s `ConsumeNext` has no end-of-text guard. At the end of the
  text it still advances the column and the total. `Consume` then appends
  the text "undefined" (`TakeRawPast`, `UntilRawNoDelimiter`). As a result,
  a bare literal `1` at the very end of a document is highlighted as a
  two-column `string` (`NumberAtEndOfText`).

## Model

| member | source | states |
|---|---|---|
| Feed.Current | src/text-feed.ts:12 | the current character is the first of the text, and is the sentinel '\0' exactly when the text is empty (or starts with '\0') |
| Feed.TextFeed.constructor | src/text-feed.ts:15-17 | a new feed holds the whole text at line 0, column 0, total 0 |
| Feed.TextFeed.ConsumeNext | src/text-feed.ts:21-34 | returns and removes the first character, advancing to the next line or column; on empty text returns "" and changes nothing |
| Feed.TextFeed.ConsumeCharacters | src/text-feed.ts:36-44 | the feed afterwards is `SkipWhile(chars, 500)` of the feed before |
| Feed.TextFeed.ConsumeUntil | src/text-feed.ts:46-57 | returns and consumes the text up to the first character of `until` (`Until`) |
| Feed.TextFeed.Consume | src/text-feed.ts:59-64 | returns and consumes the first `until` characters, or all of them when fewer remain (`Take`) |
| Feed.NextSpec | src/text-feed.ts:21-34 | the returned character followed by the remaining text is the old text; the returned text is its first character, or "" |
| Feed.TakeSpec | src/text-feed.ts:59-64 | `Consume(n)` returns the first min(n, length) characters and leaves the rest |
| Feed.FoundSpec | src/text-feed.ts:48-54 | the search over `until` yields the index of the first character that belongs to `until`, or length + 1 when there is none |
| Feed.UntilSpec | src/text-feed.ts:46-57 | consumed text + remaining text is the old text; no consumed character is a delimiter; the remaining text is empty or starts with a delimiter |
| Feed.UntilEmptyBranchDead | src/text-feed.ts:55 | the early `return ""` is never taken: the index found is never -1 and never the text's length |
| Feed.UntilAtDelimiter | src/text-feed.ts:46-57 | at a delimiter, nothing is consumed and "" is returned |
| Feed.UntilNoDelimiter | src/text-feed.ts:46-57 | without a delimiter, the whole rest of the text is consumed and returned |
| Feed.UntilFirst | src/text-feed.ts:46-57 | when the first delimiter is at index k, exactly k characters are consumed |
| Feed.UntilLongest | src/text-feed.ts:46-57 | every delimiter-free prefix of the text is consumed |
| Feed.SkipWhileSpec | src/text-feed.ts:36-44 | only characters of the set are skipped, at most 500; it stops at a non-member, or at the ceiling, or at end of text when '\0' is in the set |
| Feed.SkipWhitespaceSpec | src/text-feed.ts:36-44 | skipping white space drops only white space and stops at a non-space or after 500 characters |
| Feed.NextMoves | src/text-feed.ts:21-34 | after `ConsumeNext`, total grows by the consumed length and line/column are those reached by reading the consumed text |
| Feed.TakeMoves | src/text-feed.ts:59-64 | the same position bookkeeping holds for `Consume` |
| Feed.UntilMoves | src/text-feed.ts:46-57 | the same position bookkeeping holds for `ConsumeUntil` |
| Feed.SkipWhileMoves | src/text-feed.ts:36-44 | the same position bookkeeping holds for `ConsumeCharacters` |
| Feed.MovesTrans | src/text-feed.ts:21-34 | consuming s then t is consuming s + t |
| Feed.AfterConcat | src/text-feed.ts:26-31 | the position after s + t is the position after t starting from the position after s |
| Feed.AfterNoNewline | src/text-feed.ts:26-31 | text without a newline moves only the column, by its length |
| Feed.AfterLine | src/text-feed.ts:26-28 | the line grows by the number of newlines consumed |
| Feed.AfterNewlineColumn | src/text-feed.ts:26-31 | after a newline the column counts only the characters since it |
| Js.IndexOfSpec | src/text-feed.ts:51 | `indexOf` is -1 exactly when the character is absent, and otherwise the index of its first occurrence |
| Js.TrimStartSpec | src/analyzers.ts:26 | `trim` drops exactly the leading white space |
| Js.TrimEndSpec | src/analyzers.ts:26 | `trim` drops exactly the trailing white space |
| Js.Trim | src/analyzers.ts:26 | the result has no white space at either end and is the text with exactly its leading and trailing white space removed |
| Js.ToLower | src/analyzers.ts:26 | `toLowerCase` keeps the length, leaves no capital letter, keeps every other character in place and turns each capital into its own small letter |
| Js.ToLowerIdempotent | src/analyzers.ts:26 | lowering text without capitals changes nothing, so lowering twice is lowering once |
| Js.ToLowerConcat | src/analyzers.ts:26 | lowering distributes over concatenation |
| Js.ToLowerEndsWith | src/analyzers.ts:26 | a URI ending in a suffix, lowered, ends in the lowered suffix: the `endsWith` test ignores the case of the URI |
| Js.IsNumeric | src/sdf.ts:189 | `!Number.isNaN(+s)` (also extension.ts:200): text that is empty once trimmed is numeric, and so is every string of decimal digits |
| Js.NumericFirstChar | src/sdf.ts:189 | a numeric text, once trimmed, starts with a sign, a digit, '.' or the 'I' of Infinity |
| Js.Get | src/analyzers.ts:24 | a dictionary read is absent exactly when the key is not a key, and otherwise is the value of an entry with that key |
| Js.PutKeys | src/sdf2.ts:68 | assigning keeps the key order and appends a new key last |
| Js.PutGet | src/sdf2.ts:68 | after `d[k] = v`, `d[k]` is v and every other key reads as before |
| Js.PutEntries | src/sdf2.ts:68 | every entry after assignment is an old entry or the new one |
| Js.PutUnique | src/sdf2.ts:68 | assignment keeps the keys distinct |
| Sdf2.Analyzer.constructor | src/sdf2.ts:28-30 | a new analyzer has no tokens, no diagnostics and an empty Root |
| Sdf2.Analyzer.Parse | src/sdf2.ts:32-154 | Tokens, Diagnostics and Root afterwards are exactly `ParseF(content)` |
| Sdf2.Analyzer.ExpectPropertyName | src/sdf2.ts:39-44 | skips white space, reads up to ':' and consumes one more character (`ExpectPropertyNameF`) |
| Sdf2.Analyzer.ExpectProperty | src/sdf2.ts:115-133 | a property: name token, white space, then its type (`ExpectPropertyF`) |
| Sdf2.Analyzer.ExpectType | src/sdf2.ts:46-113 | an object type when the next character is '{', and a label type otherwise (`ExpectTypeF`) |
| Sdf2.Analyzer.ObjectType | src/sdf2.ts:48-72 | consumes '{', the property loop and the closing character (`ObjectTypeF`) |
| Sdf2.Analyzer.ObjectLoop | src/sdf2.ts:55-69 | repeats properties until '}' or the ceiling, assigning each by its name (`ObjectLoopF`) |
| Sdf2.Analyzer.LabelType | src/sdf2.ts:74-82 | reads the label up to a delimiter and emits its `type` token (`LabelTypeF`) |
| Sdf2.Analyzer.SuffixLoop | src/sdf2.ts:84-107 | consumes `[ ]` suffixes until another character, a missing ']' or the ceiling (`SuffixLoopF`) |
| Sdf2.Analyzer.Suffix | src/sdf2.ts:95-106 | one suffix: closed exactly when ']' follows '[' and white space; otherwise the Error "Expected ']'" at the reached position |
| Sdf2.PropertyNameToken | src/sdf2.ts:115-126 | when skipping white space stopped at a non-space (not at the 500-character ceiling) and the name has no line break: the name is the text up to ':' (without ':'); its `variable` token starts at the name and is one column short when no ':' follows |
| Sdf2.LabelTypeSpec | src/sdf2.ts:74-82 | the label is the longest delimiter-free prefix, and its `type` token spans exactly the label |
| Sdf2.SuffixLoopSpec | src/sdf2.ts:84-107 | suffixes emit no token and at most one diagnostic, an Error "Expected ']'" or "Endless loop! 2"; without one, the loop stopped at a non-'[' |
| Sdf2.UnclosedBracketAtLineEnd | src/sdf2.ts:95-104 | a '[' with nothing but white space and a line break after it adds one Error "Expected ']'" whose range has a negative argument, which `new vscode.Range` rejects |
| Sdf2.UnclosedBracketExample | src/sdf2.ts:100 | for `[` and a line break the Error's range arguments are (-1, 1, 0, 1) |
| Sdf2.ObjectLoopExit | src/sdf2.ts:55-69 | the object loop ends at '}' or with the ceiling Error "Endless loop! 1" last, having added at most 500 properties |
| Sdf2.TopLoopExit | src/sdf2.ts:137-153 | the top loop ends at end of text or with the ceiling Error "Endless loop! 3" last, with at most 500 roots |
| Sdf2.ParseExit | src/sdf2.ts:32-154 | the Root has at most 500 entries and every diagnostic is an Error |
| Sdf2.ExpectTypeFollows | src/sdf2.ts:46-113 | parsing a type never moves back, only appends tokens and diagnostics, and every diagnostic it adds is an Error |
| Sdf2.TopLoopFollows | src/sdf2.ts:137-153 | the same holds for the whole top-level loop |
| Sdf2.ExpectTypeWellFormed | src/sdf2.ts:46-113 | every object type is keyed by its entries' own names, with distinct keys, at every depth |
| Sdf2.ObjectLoopWellFormed | src/sdf2.ts:55-69 | the property loop keeps the object well formed |
| Sdf2.ParseWellFormed | src/sdf2.ts:32-154 | the parsed Root is well formed |
| Sdf.InitialStack | src/sdf.ts:60 | the stack is empty without a schema, and holds one unnamed OBJECT entry for the schema otherwise |
| Sdf.Typedef | src/sdf.ts:31-33 | the top of the stack when it is non-empty, always an entry of the stack, and null whenever the stack holds only nulls |
| Sdf.Analyzer.constructor | src/sdf.ts:26-30 | a new analyzer has no tokens, no diagnostics, an empty Root and an empty stack |
| Sdf.Analyzer.GoInside | src/sdf.ts:34-50 | pushes the entry of the property in the top OBJECT entry, or null, and returns the new top |
| Sdf.Analyzer.GoOutside | src/sdf.ts:51-54 | pops the stack when it is not empty |
| Sdf.GoInsideOutside | src/sdf.ts:34-54 | `GoInside` pushes exactly one entry, keeps the rest, and `GoOutside` afterwards restores the stack |
| Sdf.EnteredSpec | src/sdf.ts:34-50 | the pushed entry is non-null exactly when the top is an OBJECT having that property, and then it is that property's entry |
| Sdf.NullStaysNull | src/sdf.ts:36-39 | below a null entry only null is pushed |
| Sdf.Analyzer.Parse | src/sdf.ts:56-245 | Tokens, Diagnostics, Root and the stack afterwards are exactly `ParseF(content, schema)` |
| Sdf.Analyzer.ExpectPropertyName | src/sdf.ts:64-70 | skips white space, reads up to ':' and consumes one more character |
| Sdf.Analyzer.Entry | src/sdf.ts:97-119 | a property: name token, `GoInside` before an object or list value, the value, `GoOutside` (`EntryF`) |
| Sdf.Analyzer.ExpectValue | src/sdf.ts:72-204 | an object, a list, a quoted string or a bare literal, by the next character (`ExpectValueF`) |
| Sdf.Analyzer.ObjectValue | src/sdf.ts:76-133 | the object and, when the entry on top is not an OBJECT, its Warning (`ObjectF`) |
| Sdf.Analyzer.ObjectLoop | src/sdf.ts:85-120 | repeats properties until '}' or the ceiling (`ObjectLoopF`) |
| Sdf.Analyzer.ObjectIteration | src/sdf.ts:97-119 | one iteration keeps the loop's outcome, with one less round left |
| Sdf.Analyzer.ListValue | src/sdf.ts:134-161 | consumes '[', the element loop and the closing character (`ListF`) |
| Sdf.Analyzer.ListLoop | src/sdf.ts:142-158 | repeats values until ']' or the ceiling, appending each (`ListLoopF`) |
| Sdf.Analyzer.ListIteration | src/sdf.ts:154-157 | one iteration keeps the loop's outcome, with one less round left |
| Sdf.Analyzer.StringValue | src/sdf.ts:163-182 | the quoted string and its token (`StringF`) |
| Sdf.Analyzer.BareValue | src/sdf.ts:184-203 | the bare literal and its token, if any (`BareF`) |
| Sdf.ParseSpec | src/sdf.ts:56-245 | the parsed Root is well formed and has at most 500 entries; the stack is the initial one; without a schema every diagnostic is an Error |
| Sdf.ValueWarning | src/sdf.ts:123-130 | an object value adds one Warning exactly when the entry on top is a non-OBJECT, naming its Name and label, from where the object starts |
| Sdf.NoWarningWithoutSchema | src/sdf.ts:123-130 | below a null entry a value adds no Warning |
| Sdf.ExpectValueSound | src/sdf.ts:72-204 | a value never moves back, only appends output, leaves the stack as it found it, and below null adds no Warning |
| Sdf.EntrySound | src/sdf.ts:97-119 | the same holds for a property, `GoInside`/`GoOutside` included |
| Sdf.TopLoopSound | src/sdf.ts:208-244 | the same holds for the top-level loop |
| Sdf.ObjectLoopExit | src/sdf.ts:85-120 | the object loop ends at '}' or with the ceiling Error last, having added at most 500 properties |
| Sdf.ListLoopExit | src/sdf.ts:142-158 | the list loop ends at ']' or with the ceiling Error last |
| Sdf.ListLoopItems | src/sdf.ts:142-158 | the list keeps its earlier elements in order and gains at most 500 |
| Sdf.TopLoopExit | src/sdf.ts:208-244 | the top loop ends at end of text or with the ceiling Error last, with at most 500 roots |
| Sdf.BareSpec | src/sdf.ts:184-203 | the literal is the longest delimiter-free prefix; booleans emit no token, and other literals emit one token spanning the literal |
| Sdf.LiteralTokenTypeSpec | src/sdf.ts:186-189 | no token exactly for true/false/yes/no; `number` exactly for other numeric texts; otherwise `string` |
| Sdf.EmptyLiteralIsNumber | src/sdf.ts:189 | the empty literal is classified `number` |
| Sdf.StringText | src/sdf.ts:163-169 | the string's value is the text after '"' up to the next '"' (or the end) |
| Sdf.StringSpec | src/sdf.ts:163-182 | the value is the quote-free text after the opening quote; when it has no line break, its `string` token spans both quotes (one column less without a closing quote) |
| Sdf.ExpectValueWellFormed | src/sdf.ts:72-204 | every object value is keyed by its entries' own names, with distinct keys, at every depth, lists included |
| Sdf.TopLoopWellFormed | src/sdf.ts:208-244 | the top loop keeps the Root well formed |
| Sdf.Analyzer.GetCompletion | src/sdf.ts:247-366 | the completion labels and the stack afterwards are exactly `CompletionF(content, at, schema)` |
| Sdf.Analyzer.CompleteProperty | src/sdf.ts:320-355 | the walk of `ParseProperties`, stopping with labels where the thrown `null` stops it (`CPropertyF`) |
| Sdf.Analyzer.CompleteValue | src/sdf.ts:274-318 | the walk of `ExpectValue`: object, then list, then string, then a bare literal, each tried in turn (`CValueF`) |
| Sdf.Analyzer.CompleteObject | src/sdf.ts:281-292 | the walk of an object (`CObjectF`) |
| Sdf.Analyzer.CompleteObjectLoop | src/sdf.ts:285-290 | the property loop of an object, up to 500 rounds (`CObjectLoopF`) |
| Sdf.Analyzer.CompleteList | src/sdf.ts:293-306 | the walk of a list (`CListF`) |
| Sdf.Analyzer.CompleteListLoop | src/sdf.ts:297-304 | the element loop of a list, up to 500 rounds (`CListLoopF`) |
| Sdf.CValueF | src/sdf.ts:274-318 | a walk that runs through never moves back and restores the stack; one that stops only pushed, and offers the property names or the value labels of the entry on top of the stack it stopped with; without a schema it offers nothing or only "Property Value" |
| Sdf.CPropertyF | src/sdf.ts:320-355 | the same for a property |
| Sdf.CTopLoopF | src/sdf.ts:357-363 | the same for the top-level loop |
| Sdf.CursorInside | src/sdf.ts:253-265 | every position between start and end is inside; a position inside is not before start and not below end's line, and, off start's line, not after end |
| Sdf.CursorInsideStartLine | src/sdf.ts:253-259 | on the start line, inside exactly from the start column on |
| Sdf.NoSchemaInside | src/sdf.ts:34-50 | without a schema every entry pushed is null |
| Sdf.CompletionLabels | src/sdf.ts:247-366 | for every document, position and schema, the labels are none, or the keys of the OBJECT entry on top of the final stack, or "Property Value" followed by that entry's Type tag |
| Sdf.CompletionStack | src/sdf.ts:357-365 | the stack afterwards extends the initial one; a walk that reaches the end yields no labels |
| Sdf.CompletionWithoutSchema | src/sdf.ts:320-351 | without a schema the labels are none or only "Property Value" |
| Sdf.CompletionOnFirstLine | src/sdf.ts:320-333 | on the first line of a document that is non-empty and does not start with '\0', any position yields exactly the schema's top-level keys in order, or nothing without a schema |
| Sdf.CompletionAfterColon | src/sdf.ts:335-351 | just after `a:` for a schema with `a` as a scalar, the labels are "Property Value" and "LITERAL" |
| Sdf.CompletionAtValue | src/sdf.ts:335-351 | when the position is in the white space after the colon, the walk stops with the value labels of the entered entry |
| Sdf.CompletionAtName | src/sdf.ts:320-332 | when the position is in the white space before a property, the walk stops on the current stack with the property names of its top entry |
| Registry.Lookup | src/analyzers.ts:20-22 | the index of the first record with the URI, or none exactly when no record has it |
| Registry.FirstServing | src/analyzers.ts:27-33 | the first schema record whose lowercased URI ends with `<typeName>.sdftypes`, or none exactly when there is none |
| Registry.LastServing | src/analyzers.ts:52-57 | the last such record, or none exactly when there is none |
| Registry.ViewOf | src/analyzers.ts:5-13 | a record's value keeps its URI and its kind |
| Registry.TypeName | src/analyzers.ts:24-26 | present exactly when Root has a LITERAL `--type`; then it has no capital letter and no white space at either end |
| Registry.Serves | src/analyzers.ts:29-30 | only a schema record whose URI is long enough to hold `<typeName>.sdftypes` serves; a schema URI ending in `<typeName>.sdftypes` serves whatever the case of the URI, for a type name without capitals |
| Registry.Analyzers.constructor | src/analyzers.ts:16 | a new registry has no records |
| Registry.Analyzers.Analyze | src/analyzers.ts:18-73 | the result and the records afterwards are exactly `AnalyzeF`; earlier record objects stay in place |
| Registry.Analyzers.Reanalyze | src/analyzers.ts:20-38 | the known record is replaced by its re-analysis; the others are unchanged |
| Registry.Analyzers.ReanalyzeData | src/analyzers.ts:23-36 | a data record is re-parsed against the first schema serving the previous `--type`, or without one |
| Registry.Analyzers.Append | src/analyzers.ts:40-70 | exactly one new record is appended, holding the new document's analysis |
| Registry.Analyzers.NewData | src/analyzers.ts:42-58 | a new data record: parsed without a schema and then against the last serving schema |
| Registry.Analyzers.ParseAgainstSchemas | src/analyzers.ts:52-57 | the loop re-parses for every serving schema, so the last one decides |
| Registry.Analyzers.ParseIfServing | src/analyzers.ts:53-56 | re-parses against a record exactly when it serves the type name |
| Registry.Analyzers.GetFile | src/analyzers.ts:75-83 | the first record with the URI, whose analyzer the source returns, or none exactly when there is none |
| Registry.AnalyzeHandled | src/analyzers.ts:19 | a document is handled exactly when its language is `sdf` or `sdf2`; otherwise nothing changes |
| Registry.AnalyzeExisting | src/analyzers.ts:20-38 | a known URI changes only its own record, keeping URI and kind |
| Registry.AnalyzeNew | src/analyzers.ts:40-70 | a new URI appends one record with that URI, a data record exactly for `sdf` |
| Registry.AnalyzeKeepsUnique | src/analyzers.ts:18-73 | distinct URIs stay distinct |
| Registry.SchemaRecordsStandAlone | src/analyzers.ts:36 | a schema record always holds the plain parse of its text |
| Registry.ReanalyzeFirstSchema | src/analyzers.ts:23-33 | a known data record is re-parsed against the first serving schema |
| Registry.NewDataLastSchema | src/analyzers.ts:47-57 | a new data record is parsed against the last serving schema |
| Registry.NewDataWithoutSchema | src/analyzers.ts:47-58 | a new data record that no schema serves holds the schema-free parse |
| Registry.ReanalyzeWithoutSchema | src/analyzers.ts:23-36 | a known data record that names no type, or whose type no schema serves, is re-parsed without a schema |
| Registry.LookupAt | src/analyzers.ts:20-22 | the first index with the URI is what the search finds |
| Registry.FirstServingAt | src/analyzers.ts:27-33 | the first serving index is what the search finds |
| Registry.LastServingAt | src/analyzers.ts:52-57 | the last serving index is what the search finds |
| Extension.LegendMapSpec | src/extension.ts:6-16 | the legend map has the legend's entries in order, each mapped to its index |
| Extension.EncodeTokenTypeTable | src/extension.ts:40-47 | string→0, number→1, variable→2, notInLegend→5, anything else (`type` included)→0 |
| Extension.EncodeTokenType | src/extension.ts:40-47 | a legend name encodes as its index in the legend, `notInLegend` as the legend size + 2, anything else as 0 |
| Extension.ModifierBitTable | src/extension.ts:53-57 | readonly contributes the value 1 (bit 0), notInLegend the value 8 (bit 3, from `1 << size + 2`), anything else nothing |
| Extension.ModifierMaskMembers | src/extension.ts:49-60 | the mask is the OR of the bits of the modifiers present |
| Extension.ModifierMaskOrderFree | src/extension.ts:49-60 | the mask depends only on which modifiers occur, not on order or repetition |
| Extension.EncodeTokenModifiers | src/extension.ts:49-60 | the loop computes exactly the mask of the present modifiers |
| Extension.NextRawAgrees | src/extension.ts:72-84 | on non-empty text, the unguarded `ConsumeNext` agrees with the cursor's |
| Extension.SkipRawAgrees | src/extension.ts:86-94 | `ConsumeCharacters` agrees with the cursor's when '\0' is not in the set |
| Extension.SkipSpaceRawAgrees | src/extension.ts:86-94 | skipping white space agrees with the cursor's |
| Extension.TakeRawAgrees | src/extension.ts:109-114 | `Consume(n)` agrees with the cursor's while n does not pass the end |
| Extension.TakeRawPast | src/extension.ts:109-114 | past the end, each step appends "undefined" and still moves column and total |
| Extension.UntilRawAgrees | src/extension.ts:96-107 | with a delimiter present, `ConsumeUntil` agrees with the cursor's |
| Extension.UntilRawNoDelimiter | src/extension.ts:96-107 | without a delimiter, it returns the rest of the text plus "undefined" and moves one column past the end |
| Extension.Tokenizer.constructor | src/extension.ts:63-70 | a scan starts on the whole text at line 0, column 0, with no tokens |
| Extension.Tokenizer.ConsumeNext | src/extension.ts:72-84 | the unguarded step (`NextRaw`); tokens unchanged |
| Extension.Tokenizer.ConsumeCharacters | src/extension.ts:86-94 | `SkipRaw` of the cursor, at most 500 steps; tokens unchanged |
| Extension.Tokenizer.ConsumeUntil | src/extension.ts:96-107 | `UntilRaw` of the cursor; tokens unchanged |
| Extension.Tokenizer.Consume | src/extension.ts:109-114 | `TakeRaw` of the cursor; tokens unchanged |
| Extension.Tokenizer.ExpectPropertyName | src/extension.ts:116-122 | white space, the name up to ':', one more step (`PropertyNameF`) |
| Extension.Tokenizer.PropertyHead | src/extension.ts:135-145 | a property name and its `variable` token (`HeadF`) |
| Extension.Tokenizer.ExpectValue | src/extension.ts:124-219 | an object, a list or a scalar, by the next character (`ValueF`) |
| Extension.Tokenizer.ObjectValue | src/extension.ts:127-151 | the object branch (`ObjectValueF`) |
| Extension.Tokenizer.ObjectLoop | src/extension.ts:131-148 | the property loop, up to 500 rounds (`ObjectLoopF`) |
| Extension.Tokenizer.ListValue | src/extension.ts:152-166 | the list branch (`ListValueF`) |
| Extension.Tokenizer.ListLoop | src/extension.ts:156-163 | the element loop, up to 500 rounds (`ListLoopF`) |
| Extension.Tokenizer.Scalar | src/extension.ts:168-218 | an optional '&', then a quoted string or a bare literal (`ScalarF`) |
| Extension.Tokenizer.QuotedString | src/extension.ts:177-193 | the quoted string and its token (`QuotedF`) |
| Extension.Tokenizer.BareLiteral | src/extension.ts:195-218 | the bare literal and its token, if any (`BareF`) |
| Extension.ParseText | src/extension.ts:62-244 | the tokens returned are exactly `ParseTextF(content)` |
| Extension.HeadF | src/extension.ts:135-145 | a property head never moves back and only appends tokens |
| Extension.ValueF | src/extension.ts:124-219 | a value never moves back and only appends tokens |
| Extension.TopLoopF | src/extension.ts:223-241 | the top-level loop only appends tokens |
| Extension.ParseTextExtends | src/extension.ts:223-241 | the tokens of the whole scan extend those it started with |
| Extension.ValueIsScalar | src/extension.ts:124-168 | a value that starts with neither '{' nor '[' is a scalar |
| Extension.ReferenceToken | src/extension.ts:168-209 | a reference emits one `variable`/`readonly` token from the '&' to the reached column, whatever follows it |
| Extension.QuotedStringToken | src/extension.ts:177-193 | an unreferenced one-line string emits one `string` token spanning both quotes, and the scan resumes after the closing quote |
| Extension.QuotedCursor | src/extension.ts:181-183 | '"', the text up to '"', and '"' leave the cursor just after the closing quote, on the same line |
| Extension.BareLiteralToken | src/extension.ts:195-217 | booleans emit no token; other literals emit one `number` or `string` token from its start to the reached column |
| Extension.OneAtEnd | src/extension.ts:96-114 | reading a last `1` yields the text "1undefined" and moves two columns |
| Extension.LiteralAtEnd | src/extension.ts:197-200 | "1undefined" is classified `string` |
| Extension.NumberAtEndOfText | src/extension.ts:195-217 | a bare `1` at the very end of the text is highlighted as a two-column `string` |

## Left out

- Sdf2.Analyzer.Parse, Sdf.Analyzer.Parse, Registry.Analyzers.Analyze, Registry.AnalyzeNew: the diagnostics built with `CurrentColumn - 1` (sdf2.ts:60, 89, 100 and 143; sdf.ts:91, 148 and 215) get a negative argument when the cursor is at the start of a line. `new vscode.Range` throws for a negative line or character. The source's `Parse` therefore stops there with an exception, and `Analyze` does not append the new record (analyzers.ts:60, 69). The model records the diagnostic as it is and carries on, so for these inputs its results differ from the source's. `Sdf2.UnclosedBracketAtLineEnd` shows the most common case: `x[` at the end of a line in a schema document.
- Editor plumbing is outside the model:
  - `activate`, the provider registration and `provideDocumentSemanticTokens`;
  - `SemanticTokensBuilder`, `CancellationToken` and `document.getText()`. A `Document` value stands for these, and its URI is a string.
- `console.error` calls when a loop hits its ceiling in `TextFeed` or `_parseText`. Output is left out; the loop stops as the source's does.
- Strings are sequences of Unicode scalar values. JavaScript measures UTF-16 code units, so columns of text outside the Basic Multilingual Plane differ.
- `toLowerCase` lowers only ASCII letters.
- Js.Get, Js.Put, Sdf.Entered: a dictionary is its own keys only. In JavaScript, `obj[key]` also finds the members of `Object.prototype`, and assigning `__proto__` sets the prototype instead of adding a key. So for a key such as `constructor` the source enters the `Object` function in `GoInside` (sdf.ts:44-49), warns 'The property "undefined" should be a undefined' for an object value, and offers a label `undefined` after the ':'. The model enters `null` there, with no warning and only "Property Value". Keys named `__proto__` at sdf.ts:116 and 239 and sdf2.ts:68 and 151 are modelled as ordinary keys.
- `Number.isNaN(+s)` is modelled as recognising the StringNumericLiteral grammar of ECMA-262 (section 7.1.4.1.1) after `trim`. The number's value (floating point) is not computed, since only the NaN test is used.
- Object keys that look like array indices are ordered by insertion like other keys. JavaScript lists integer-like keys first in `Object.keys`, which changes the order of completion labels for such schemas.
- `GetCompletion`'s `try`/`catch` rethrows any error other than `null`. Nothing in the walk throws anything else, so only the `null` abort is modelled.
- The empty `if (CursorInside(...)) { }` in the completion walk's `ExpectValue` (sdf.ts:278) has no effect and is left out.
- The `./token` module (the `IParsedToken` shape) is not part of this model. Its field names are taken from the local interface at extension.ts:22-28.
- Registry.Analyzers.Analyze: two records may not share an analyzer object (`Valid`). The source guarantees this by always creating a fresh analyzer. Aliasing between records is not modelled beyond that.
