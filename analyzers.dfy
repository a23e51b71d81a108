/**
  The document registry of src/analyzers.ts: one record per open document,
  holding the analyzer of its language (`sdf` data documents, `sdf2`
  schema documents). Analysing a document re-parses the analyzer of its
  record, or creates and parses a new record; a data document is linked
  to a schema through the literal value of its `--type` property.

  `AnalyzeF` states on values what `Analyzers.Analyze` does to the list of
  records; the class keeps the analyzers as objects and is proved to
  compute exactly it.
*/
module Registry {
  import opened Js
  import Sdf
  import Sdf2

  /** A text document: its URI, its language id and its text. */
  datatype Document = Document(uri: string, languageId: string, text: string)

  /** What a record holds, as values: its URI and what its analyzer holds. */
  datatype FileView = DataView(uri: string, data: Sdf.Analysis) | TypeView(uri: string, types: Sdf2.Analysis)

  predicate Handled(languageId: string)
  {
    languageId == "sdf" || languageId == "sdf2"
  }

  predicate UniqueUris(fs: seq<FileView>)
  {
    forall i, j :: 0 <= i < j < |fs| ==> fs[i].uri != fs[j].uri
  }

  // ---------------------------------------------------------------------
  // The three searches of the registry

  /** The index of the first record with `uri`, searching from `from`. */
  function Lookup(fs: seq<FileView>, uri: string, from: nat): (r: Option<nat>)
    requires from <= |fs|
    ensures r.Some? ==> from <= r.value < |fs| && fs[r.value].uri == uri
    ensures r.Some? ==> forall k :: from <= k < r.value ==> fs[k].uri != uri
    ensures r.None? <==> forall k :: from <= k < |fs| ==> fs[k].uri != uri
    decreases |fs| - from
  {
    if from == |fs| then None
    else if fs[from].uri == uri then Some(from)
    else Lookup(fs, uri, from + 1)
  }

  /** `Root['--type']`, when it is a LITERAL: its text, lowercased and trimmed. */
  function TypeName(root: Dict<Sdf.DataNamed>): (r: Option<string>)
    ensures r.Some? <==> Get(root, "--type").Some? && Get(root, "--type").value.Node.Literal?
    ensures r.Some? ==> NoUpper(r.value)
    ensures r.Some? && r.value != [] ==> !IsJsSpace(r.value[0]) && !IsJsSpace(r.value[|r.value| - 1])
  {
    match Get(root, "--type")
    case None => None
    case Some(n) => if n.Node.Literal? then Some(Trim(ToLower(n.Node.Text))) else None
  }

  /** A URI ending in `<typeName>.sdftypes`, in any case, ends in it once
      lowered, when `typeName` itself has no capital. */
  lemma SuffixIgnoresCase(uri: string, typeName: string)
    ensures NoUpper(typeName) && EndsWith(uri, typeName + ".sdftypes") ==> EndsWith(ToLower(uri), typeName + ".sdftypes")
  {
    var suffix := typeName + ".sdftypes";
    if NoUpper(typeName) && EndsWith(uri, suffix) {
      forall i | 0 <= i < |suffix| ensures !('A' <= suffix[i] <= 'Z') {
        if i >= |typeName| { assert suffix[i] == ".sdftypes"[i - |typeName|]; }
      }
      ToLowerEndsWith(uri, suffix);
      ToLowerIdempotent(suffix);
    }
  }

  /** A schema record serves `typeName` when its lowercased URI ends with
      `typeName + ".sdftypes"`. */
  predicate Serves(f: FileView, typeName: string)
    ensures Serves(f, typeName) ==> f.TypeView? && |typeName| + |".sdftypes"| <= |f.uri|
    ensures f.TypeView? && NoUpper(typeName) && EndsWith(f.uri, typeName + ".sdftypes") ==> Serves(f, typeName)
  {
    SuffixIgnoresCase(f.uri, typeName);
    f.TypeView? && EndsWith(ToLower(f.uri), typeName + ".sdftypes")
  }

  /** The first record serving `typeName`, searching from `from`. */
  function FirstServing(fs: seq<FileView>, typeName: string, from: nat): (r: Option<nat>)
    requires from <= |fs|
    ensures r.Some? ==> from <= r.value < |fs| && Serves(fs[r.value], typeName)
    ensures r.Some? ==> forall k :: from <= k < r.value ==> !Serves(fs[k], typeName)
    ensures r.None? <==> forall k :: from <= k < |fs| ==> !Serves(fs[k], typeName)
    decreases |fs| - from
  {
    if from == |fs| then None
    else if Serves(fs[from], typeName) then Some(from)
    else FirstServing(fs, typeName, from + 1)
  }

  /** The last record serving `typeName` among the first `n`. */
  function LastServing(fs: seq<FileView>, typeName: string, n: nat): (r: Option<nat>)
    requires n <= |fs|
    ensures r.Some? ==> r.value < n && Serves(fs[r.value], typeName)
    ensures r.Some? ==> forall k :: r.value < k < n ==> !Serves(fs[k], typeName)
    ensures r.None? <==> forall k :: 0 <= k < n ==> !Serves(fs[k], typeName)
  {
    if n == 0 then None
    else if Serves(fs[n - 1], typeName) then Some(n - 1)
    else LastServing(fs, typeName, n - 1)
  }

  /** The schema of the first record serving the `--type` of `root`, if any. */
  function FirstSchema(fs: seq<FileView>, root: Dict<Sdf.DataNamed>): Option<Dict<Sdf2.NamedNode>>
  {
    var typeName := TypeName(root);
    if typeName.Some? then SchemaAt(fs, FirstServing(fs, typeName.value, 0)) else None
  }

  /** The schema a record at index `j` supplies. */
  function SchemaAt(fs: seq<FileView>, j: Option<nat>): Option<Dict<Sdf2.NamedNode>>
    requires j.Some? ==> j.value < |fs| && fs[j.value].TypeView?
  {
    if j.Some? then Some(fs[j.value].types.root) else None
  }

  // ---------------------------------------------------------------------
  // Analyze, on values

  /** Re-analysing the record at `i`: a data record is re-parsed against
      the first schema serving the `--type` of its previous Root (or
      without a schema); a schema record is re-parsed. */
  function ReanalyzeF(fs: seq<FileView>, i: nat, text: string): FileView
    requires i < |fs|
  {
    match fs[i]
    case DataView(uri, previous) => DataView(uri, Sdf.ParseF(text, FirstSchema(fs, previous.root)))
    case TypeView(uri, _) => TypeView(uri, Sdf2.ParseF(text))
  }

  /** The schema of the last of the first `n` records serving `typeName`. */
  function LastSchema(fs: seq<FileView>, typeName: string, n: nat): Option<Dict<Sdf2.NamedNode>>
    requires n <= |fs|
  {
    SchemaAt(fs, LastServing(fs, typeName, n))
  }

  /** One more record: it decides the schema when it serves `typeName`. */
  lemma LastSchemaStep(fs: seq<FileView>, typeName: string, j: nat, n: nat)
    requires j < |fs| && n == j + 1
    ensures LastSchema(fs, typeName, n) ==
      if Serves(fs[j], typeName) then Some(fs[j].types.root) else LastSchema(fs, typeName, j)
  {}

  /** The record of a new document: a data document is parsed without a
      schema, then once more for every schema serving its `--type`, so the
      last of them decides; a schema document is parsed. */
  function NewRecordF(fs: seq<FileView>, d: Document): FileView
  {
    if d.languageId == "sdf" then
      var typeName := TypeName(Sdf.ParseF(d.text, None).root);
      DataView(d.uri, Sdf.ParseF(d.text, if typeName.Some? then LastSchema(fs, typeName.value, |fs|) else None))
    else TypeView(d.uri, Sdf2.ParseF(d.text))
  }

  /** `Analyze(document)`: whether the document was handled, and the records afterwards. */
  function AnalyzeF(fs: seq<FileView>, d: Document): (bool, seq<FileView>)
  {
    if !Handled(d.languageId) then (false, fs)
    else
      var i := Lookup(fs, d.uri, 0);
      if i.Some? then (true, fs[i.value := ReanalyzeF(fs, i.value, d.text)])
      else (true, fs + [NewRecordF(fs, d)])
  }

  // ---------------------------------------------------------------------
  // What Analyze promises

  /** A document is handled exactly when its language is `sdf` or `sdf2`;
      an unhandled one leaves the registry as it was. */
  lemma AnalyzeHandled(fs: seq<FileView>, d: Document)
    ensures AnalyzeF(fs, d).0 <==> Handled(d.languageId)
    ensures !Handled(d.languageId) ==> AnalyzeF(fs, d).1 == fs
  {}

  /** A registered document keeps its place: the list has the same length,
      every other record is untouched, and the record keeps its URI and kind. */
  lemma AnalyzeExisting(fs: seq<FileView>, d: Document, i: nat)
    requires Handled(d.languageId) && i < |fs| && fs[i].uri == d.uri
    requires forall k :: 0 <= k < i ==> fs[k].uri != d.uri
    ensures var r := AnalyzeF(fs, d).1;
      |r| == |fs| && (forall k :: 0 <= k < |fs| && k != i ==> r[k] == fs[k])
      && r[i].uri == d.uri && r[i].DataView? == fs[i].DataView?
  {
    assert Lookup(fs, d.uri, 0) == Some(i);
  }

  /** A new document is appended: the old records are untouched and the
      last one has the document's URI and the kind of its language. */
  lemma AnalyzeNew(fs: seq<FileView>, d: Document)
    requires Handled(d.languageId)
    requires forall k :: 0 <= k < |fs| ==> fs[k].uri != d.uri
    ensures var r := AnalyzeF(fs, d).1;
      |r| == |fs| + 1 && r[..|fs|] == fs && r[|fs|].uri == d.uri
      && (r[|fs|].DataView? <==> d.languageId == "sdf")
  {
    assert Lookup(fs, d.uri, 0).None?;
  }

  /** Since lookup comes before insertion, URIs stay distinct. */
  lemma AnalyzeKeepsUnique(fs: seq<FileView>, d: Document)
    requires UniqueUris(fs)
    ensures UniqueUris(AnalyzeF(fs, d).1)
  {
    var r := AnalyzeF(fs, d).1;
    if Handled(d.languageId) {
      var i := Lookup(fs, d.uri, 0);
      if i.Some? {
        assert forall k :: 0 <= k < |r| ==> r[k].uri == fs[k].uri;
      } else {
        assert forall k :: 0 <= k < |fs| ==> r[k] == fs[k];
      }
    }
  }

  /** Schema records are always parsed without a schema: what a schema
      record holds after `Analyze` is the parse of the new text. */
  lemma SchemaRecordsStandAlone(fs: seq<FileView>, d: Document, k: nat)
    requires Handled(d.languageId) && k < |AnalyzeF(fs, d).1|
    requires k < |fs| ==> fs[k].uri == d.uri
    requires AnalyzeF(fs, d).1[k].TypeView?
    requires forall m :: 0 <= m < |fs| && fs[m].uri == d.uri ==> m == k
    ensures AnalyzeF(fs, d).1[k].types == Sdf2.ParseF(d.text)
  {
    var i := Lookup(fs, d.uri, 0);
    if i.Some? {
      assert i.value == k;
    }
  }

  /** Re-analysing a data record uses the FIRST serving schema record. */
  lemma ReanalyzeFirstSchema(fs: seq<FileView>, d: Document, i: nat, j: nat)
    requires Handled(d.languageId) && i < |fs| && fs[i].uri == d.uri && fs[i].DataView?
    requires forall k :: 0 <= k < i ==> fs[k].uri != d.uri
    requires TypeName(fs[i].data.root).Some?
    requires j < |fs| && Serves(fs[j], TypeName(fs[i].data.root).value)
    requires forall k :: 0 <= k < j ==> !Serves(fs[k], TypeName(fs[i].data.root).value)
    ensures AnalyzeF(fs, d).1[i] == DataView(d.uri, Sdf.ParseF(d.text, Some(fs[j].types.root)))
  {
    LookupAt(fs, d.uri, i);
    FirstServingAt(fs, TypeName(fs[i].data.root).value, j);
  }

  /** Re-analysing a data record that names no type, or whose type no
      schema record serves, parses it without a schema. */
  lemma ReanalyzeWithoutSchema(fs: seq<FileView>, d: Document, i: nat)
    requires Handled(d.languageId) && i < |fs| && fs[i].uri == d.uri && fs[i].DataView?
    requires forall k :: 0 <= k < i ==> fs[k].uri != d.uri
    requires var t := TypeName(fs[i].data.root);
      t.Some? ==> forall k :: 0 <= k < |fs| ==> !Serves(fs[k], t.value)
    ensures AnalyzeF(fs, d).1[i] == DataView(d.uri, Sdf.ParseF(d.text, None))
  {
    LookupAt(fs, d.uri, i);
  }

  /** A new data document ends up parsed against the LAST serving schema
      record (its schema-free parse decides the type name). */
  lemma NewDataLastSchema(fs: seq<FileView>, d: Document, j: nat)
    requires d.languageId == "sdf" && forall k :: 0 <= k < |fs| ==> fs[k].uri != d.uri
    requires TypeName(Sdf.ParseF(d.text, None).root).Some?
    requires j < |fs| && Serves(fs[j], TypeName(Sdf.ParseF(d.text, None).root).value)
    requires forall k :: j < k < |fs| ==> !Serves(fs[k], TypeName(Sdf.ParseF(d.text, None).root).value)
    ensures AnalyzeF(fs, d).1[|fs|] == DataView(d.uri, Sdf.ParseF(d.text, Some(fs[j].types.root)))
  {
    assert Lookup(fs, d.uri, 0).None?;
    LastServingAt(fs, TypeName(Sdf.ParseF(d.text, None).root).value, j);
  }

  /** A new data document no schema record serves keeps its schema-free parse. */
  lemma NewDataWithoutSchema(fs: seq<FileView>, d: Document)
    requires d.languageId == "sdf" && forall k :: 0 <= k < |fs| ==> fs[k].uri != d.uri
    requires var t := TypeName(Sdf.ParseF(d.text, None).root);
      t.Some? ==> forall k :: 0 <= k < |fs| ==> !Serves(fs[k], t.value)
    ensures AnalyzeF(fs, d).1[|fs|] == DataView(d.uri, Sdf.ParseF(d.text, None))
  {
    assert Lookup(fs, d.uri, 0).None?;
  }

  // ---------------------------------------------------------------------
  // The class

  /** A record: a URI and the analyzer object of its language. */
  datatype AnalyzedFile = DataFile(uri: string, data: Sdf.Analyzer) | TypeFile(uri: string, types: Sdf2.Analyzer)

  function ObjectOf(f: AnalyzedFile): object
  {
    if f.DataFile? then f.data else f.types
  }

  /** What the record's analyzer currently holds. */
  function ViewOf(f: AnalyzedFile): (v: FileView)
    reads ObjectOf(f)
    ensures v.uri == f.uri && (v.DataView? <==> f.DataFile?)
  {
    match f
    case DataFile(uri, a) => DataView(uri, a.Result())
    case TypeFile(uri, t) => TypeView(uri, t.Result())
  }

  class Analyzers {
    var files: seq<AnalyzedFile>

    constructor ()
      ensures files == []
    {
      files := [];
    }

    ghost function Objects(): set<object>
      reads this
    {
      set i | 0 <= i < |files| :: ObjectOf(files[i])
    }

    /** No two records share an analyzer. */
    ghost predicate Valid()
      reads this
    {
      forall i, j :: 0 <= i < j < |files| ==> ObjectOf(files[i]) != ObjectOf(files[j])
    }

    /** The records as values. */
    ghost function Model(): seq<FileView>
      reads this, Objects()
    {
      seq(|files|, i requires 0 <= i < |files| reads this, Objects() => ViewOf(files[i]))
    }

    /** `Analyze(document)`. The records themselves are never replaced: a
        re-analysis changes only what the record's analyzer holds, and a new
        document adds one record with a fresh analyzer. */
    method Analyze(document: Document) returns (handled: bool)
      requires Valid()
      modifies this, Objects()
      ensures Valid()
      ensures (handled, Model()) == AnalyzeF(old(Model()), document)
      ensures |old(files)| <= |files| && files[..|old(files)|] == old(files)
    {
      if document.languageId != "sdf" && document.languageId != "sdf2" {
        return false;
      }
      ghost var before := Model();
      var i := 0;
      while i < |files|
        invariant 0 <= i <= |files|
        invariant files == old(files) && Model() == before
        invariant forall k :: 0 <= k < i ==> files[k].uri != document.uri
      {
        var file := files[i];
        if file.uri == document.uri {
          assert Lookup(before, document.uri, 0) == Some(i) by { LookupAt(before, document.uri, i); }
          Reanalyze(document, i);
          return true;
        }
        i := i + 1;
      }
      assert Lookup(before, document.uri, 0).None?;
      Append(document);
      return true;
    }

    /** The branch of `Analyze` for a new document: a record with a fresh
        analyzer of its language is appended. */
    method Append(document: Document)
      requires Valid() && Handled(document.languageId)
      modifies this
      ensures Valid() && Model() == old(Model()) + [NewRecordF(old(Model()), document)]
      ensures |files| == |old(files)| + 1 && files[..|old(files)|] == old(files)
    {
      ghost var before := Model();
      if document.languageId == "sdf" {
        var data := NewData(document, before);
        files := files + [DataFile(document.uri, data)];
      } else {
        var types := new Sdf2.Analyzer();
        types.Parse(document.text);
        files := files + [TypeFile(document.uri, types)];
      }
      ModelAfterAppend(before);
    }

    /** The branch of `Analyze` for the registered record at `i`. */
    method Reanalyze(document: Document, i: nat)
      requires Valid() && i < |files| && files[i].uri == document.uri
      modifies ObjectOf(files[i])
      ensures Model() == old(Model())[i := ReanalyzeF(old(Model()), i, document.text)]
    {
      ghost var before := Model();
      var file := files[i];
      if file.DataFile? {
        ReanalyzeData(document, file.data, before);
      } else {
        file.types.Parse(document.text);
      }
      ModelAfterParse(before, i);
    }

    /** A data record's re-analysis: the loop over the records stops at the
        first one serving the `--type` of the previous Root and re-parses
        against its schema; without one, the record is re-parsed alone. */
    method ReanalyzeData(document: Document, data: Sdf.Analyzer, ghost fs: seq<FileView>)
      requires |fs| == |files|
      requires forall k :: 0 <= k < |files| ==> fs[k].uri == files[k].uri && (fs[k].TypeView? <==> files[k].TypeFile?)
      requires forall k :: 0 <= k < |files| && files[k].TypeFile? ==> fs[k].types == files[k].types.Result()
      modifies data
      ensures data.Result() == Sdf.ParseF(document.text, FirstSchema(fs, old(data.Root)))
    {
      var typeName := TypeName(data.Root);
      if typeName.Some? {
        var j := 0;
        while j < |files|
          invariant 0 <= j <= |files|
          invariant forall k :: 0 <= k < j ==> !Serves(fs[k], typeName.value)
        {
          var typeFile := files[j];
          if typeFile.TypeFile? && EndsWith(ToLower(typeFile.uri), typeName.value + ".sdftypes") {
            assert Serves(fs[j], typeName.value);
            FirstServingAt(fs, typeName.value, j);
            data.Parse(document.text, Some(typeFile.types.Root));
            return;
          }
          j := j + 1;
        }
      }
      data.Parse(document.text, None);
    }

    /** After one record's analyzer changed, the model differs from
        `before` at most at that record. */
    lemma ModelAfterParse(before: seq<FileView>, i: nat)
      requires Valid() && i < |files| && |before| == |files|
      requires forall k :: 0 <= k < |files| && k != i ==> before[k] == ViewOf(files[k])
      ensures Model() == before[i := ViewOf(files[i])]
    {}

    /** After a record with a new analyzer was appended, the model is
        `before` and the view of that record. */
    lemma ModelAfterAppend(before: seq<FileView>)
      requires |files| == |before| + 1
      requires forall k :: 0 <= k < |before| ==> before[k] == ViewOf(files[k])
      ensures Model() == before + [ViewOf(files[|before|])]
    {}

    /** The branch of `Analyze` for a new data document. */
    method NewData(document: Document, ghost fs: seq<FileView>) returns (data: Sdf.Analyzer)
      requires document.languageId == "sdf"
      requires |fs| == |files|
      requires forall k :: 0 <= k < |files| ==> fs[k].uri == files[k].uri && (fs[k].TypeView? <==> files[k].TypeFile?)
      requires forall k :: 0 <= k < |files| && files[k].TypeFile? ==> fs[k].types == files[k].types.Result()
      ensures fresh(data)
      ensures DataView(document.uri, data.Result()) == NewRecordF(fs, document)
    {
      data := new Sdf.Analyzer();
      data.Parse(document.text, None);
      var typeName := TypeName(data.Root);
      if typeName.Some? {
        ParseAgainstSchemas(data, document.text, typeName.value, fs);
      }
    }

    /** The loop of `NewData`: every record serving `typeName` re-parses
        `data` against its schema, so the last one wins. */
    method ParseAgainstSchemas(data: Sdf.Analyzer, text: string, typeName: string, ghost fs: seq<FileView>)
      requires |fs| == |files|
      requires forall k :: 0 <= k < |files| ==> fs[k].uri == files[k].uri && (fs[k].TypeView? <==> files[k].TypeFile?)
      requires forall k :: 0 <= k < |files| && files[k].TypeFile? ==> fs[k].types == files[k].types.Result()
      requires data.Result() == Sdf.ParseF(text, None)
      modifies data
      ensures data.Result() == Sdf.ParseF(text, LastSchema(fs, typeName, |fs|))
    {
      var j := 0;
      while j < |files|
        modifies data
        invariant 0 <= j <= |files|
        invariant forall k :: 0 <= k < |files| && files[k].TypeFile? ==> fs[k].types == files[k].types.Result()
        invariant data.Result() == Sdf.ParseF(text, LastSchema(fs, typeName, j))
      {
        ghost var j0 := j;
        ParseIfServing(data, text, typeName, files[j], fs[j]);
        j := j + 1;
        LastSchemaStep(fs, typeName, j0, j);
      }
    }

    /** One iteration of the loop of `NewData`: a record serving
        `typeName` re-parses `data` against its schema. */
    method ParseIfServing(data: Sdf.Analyzer, text: string, typeName: string, typeFile: AnalyzedFile, ghost view: FileView)
      requires view.uri == typeFile.uri && (view.TypeView? <==> typeFile.TypeFile?)
      requires typeFile.TypeFile? ==> view.types == typeFile.types.Result()
      modifies data
      ensures data.Result() == if Serves(view, typeName) then Sdf.ParseF(text, Some(view.types.root)) else old(data.Result())
    {
      if typeFile.TypeFile? && EndsWith(ToLower(typeFile.uri), typeName + ".sdftypes") {
        data.Parse(text, Some(typeFile.types.Root));
      }
    }

    /** `GetFile(uri)`: the first record with `uri`, or none. */
    method GetFile(uri: string) returns (r: Option<AnalyzedFile>)
      ensures r.None? <==> forall k :: 0 <= k < |files| ==> files[k].uri != uri
      ensures r.Some? ==>
        exists k :: (0 <= k < |files| && r.value == files[k] && files[k].uri == uri &&
          forall m :: 0 <= m < k ==> files[m].uri != uri)
    {
      var i := 0;
      while i < |files|
        invariant 0 <= i <= |files|
        invariant forall k :: 0 <= k < i ==> files[k].uri != uri
      {
        if files[i].uri == uri {
          return Some(files[i]);
        }
        i := i + 1;
      }
      return None;
    }
  }

  /** The first record with `uri` is found by `Lookup`. */
  lemma LookupAt(fs: seq<FileView>, uri: string, i: nat)
    requires i < |fs| && fs[i].uri == uri && forall k :: 0 <= k < i ==> fs[k].uri != uri
    ensures Lookup(fs, uri, 0) == Some(i)
  {
    var r := Lookup(fs, uri, 0);
    assert r.Some?;
    assert !(r.value < i) && !(i < r.value);
  }

  /** The first serving record is found by `FirstServing`. */
  lemma FirstServingAt(fs: seq<FileView>, typeName: string, j: nat)
    requires j < |fs| && Serves(fs[j], typeName) && forall k :: 0 <= k < j ==> !Serves(fs[k], typeName)
    ensures FirstServing(fs, typeName, 0) == Some(j)
  {
    var r := FirstServing(fs, typeName, 0);
    assert r.Some?;
    assert !(r.value < j) && !(j < r.value);
  }

  /** The last serving record is found by `LastServing`. */
  lemma LastServingAt(fs: seq<FileView>, typeName: string, j: nat)
    requires j < |fs| && Serves(fs[j], typeName) && forall k :: j < k < |fs| ==> !Serves(fs[k], typeName)
    ensures LastServing(fs, typeName, |fs|) == Some(j)
  {
    var r := LastServing(fs, typeName, |fs|);
    assert r.Some?;
    assert !(r.value < j) && !(j < r.value);
  }
}
