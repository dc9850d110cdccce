/** The extension-to-loader dispatch table of services/loaders/loaders.py. */
module Loaders {
  import opened Common
  import ChunkUtil

  /** The loader classes the table refers to; `Ics` is the custom calendar loader. */
  datatype LoaderKind =
    | Text
    | PyPdf
    | UnstructuredWord
    | Csv
    | Json
    | UnstructuredPowerPoint
    | UnstructuredExcel
    | UnstructuredEmail
    | Ics

  /** `EXTENSION_LOADER_MAP`. */
  const ExtensionLoaderMap: map<string, LoaderKind> := map[
    ".txt" := Text,
    ".md" := Text,
    ".pdf" := PyPdf,
    ".docx" := UnstructuredWord,
    ".csv" := Csv,
    ".json" := Json,
    ".pptx" := UnstructuredPowerPoint,
    ".xlsx" := UnstructuredExcel,
    ".eml" := UnstructuredEmail,
    ".ics" := Ics
  ]

  /** The registered extensions, listed independently of the table. */
  const Registered: seq<string> := [".txt", ".md", ".pdf", ".docx", ".csv", ".json", ".pptx", ".xlsx", ".eml", ".ics"]

  /** Exact-match lookup: no case folding, no dot insertion. */
  function LoaderFor(ext: string): (r: Option<LoaderKind>)
    ensures r.Some? <==> ext in Registered
    ensures r == Some(Text) <==> ext == ".txt" || ext == ".md"
    ensures r == Some(Ics) <==> ext == ".ics"
    ensures r == Some(PyPdf) <==> ext == ".pdf"
  {
    if ext in ExtensionLoaderMap then Some(ExtensionLoaderMap[ext]) else None
  }

  /** The table's keys are exactly the listed extensions. */
  lemma KeysAreRegistered()
    ensures ExtensionLoaderMap.Keys == set e | e in Registered
  {
  }

  /** No extension is listed twice. */
  lemma RegisteredDistinct()
    ensures forall i, j :: 0 <= i < j < |Registered| ==> Registered[i] != Registered[j]
  {
  }

  /** A sequence without repeats has as many distinct elements as positions. */
  lemma {:induction false} DistinctCard<T>(s: seq<T>)
    requires forall i, j :: 0 <= i < j < |s| ==> s[i] != s[j]
    ensures |set x | x in s| == |s|
  {
    if |s| > 0 {
      var tail := s[1..];
      DistinctCard(tail);
      assert (set x | x in s) == {s[0]} + (set x | x in tail);
      assert s[0] !in tail;
    }
  }

  /** Exactly ten extensions are registered, and they are the listed ones. */
  lemma TenExtensions()
    ensures ExtensionLoaderMap.Keys == set e | e in Registered
    ensures |ExtensionLoaderMap.Keys| == 10
  {
    KeysAreRegistered();
    RegisteredDistinct();
    DistinctCard(Registered);
  }

  /** Unlisted extensions, upper-case spellings and dotless names have no loader. */
  lemma UnlistedHaveNoLoader()
    ensures LoaderFor(".xyz") == None
    ensures LoaderFor(".PDF") == None
    ensures LoaderFor("pdf") == None
    ensures LoaderFor("") == None
  {
  }

  /** A dot followed by a non-empty tag that holds no further dot. */
  predicate DotTagged(e: string) {
    |e| >= 2 && e[0] == '.' && forall i :: 1 <= i < |e| ==> e[i] != '.'
  }

  /** Stripping leading dots from a dot-tagged name removes exactly its first character. */
  lemma DotTaggedStrip(e: string)
    requires DotTagged(e)
    ensures ChunkUtil.LStripDots(e) == e[1..]
  {
    ChunkUtil.StrippedOfDotsUnique(e, e[1..]);
  }

  /** The registered keys, one by one. */
  lemma RegisteredIsOneOf(ext: string)
    requires ext in ExtensionLoaderMap
    ensures ext == ".txt" || ext == ".md" || ext == ".pdf" || ext == ".docx" || ext == ".csv"
         || ext == ".json" || ext == ".pptx" || ext == ".xlsx" || ext == ".eml" || ext == ".ics"
  {
  }

  /** Every registered key is a dot followed by a dot-free tag. */
  lemma RegisteredKeysDotTagged(ext: string)
    requires ext in ExtensionLoaderMap
    ensures DotTagged(ext)
  {
    RegisteredIsOneOf(ext);
  }

  /** The chunk type tag made from a registered key is the key without its dot. */
  lemma RegisteredKeysGiveTypeTags(ext: string)
    requires ext in ExtensionLoaderMap
    ensures ChunkUtil.LStripDots(ext) == ext[1..]
    ensures ChunkUtil.LStripDots(ext) in ["txt", "md", "pdf", "docx", "csv", "json", "pptx", "xlsx", "eml", "ics"]
  {
    RegisteredKeysDotTagged(ext);
    DotTaggedStrip(ext);
    RegisteredIsOneOf(ext);
  }
}
