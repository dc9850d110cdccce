/**
 * The `Chunk` record (models/chunk.py) and the `(page_content, metadata)`
 * document pairs that loaders and the text splitter exchange.
 */
module ChunkModel {
  import opened Common

  /** A metadata value. The source allows any Python value; strings and integers are the ones the core writes. */
  datatype Value = Str(s: string) | Int(n: int)

  /** A string-keyed metadata dictionary; no constraint is placed on its keys. */
  type Metadata = map<string, Value>

  /** The atomic retrievable unit. `fileType` is the source's `type` field. */
  datatype Chunk = Chunk(
    chunkId: string,
    text: string,
    source: string,
    fileType: string,
    index: int,
    metadata: Metadata)

  /** A loaded or split document: its text and loader-specific metadata. */
  datatype Document = Document(pageContent: string, metadata: Metadata)

  /** The keyword arguments given to the `Chunk` constructor; `None` is an omitted argument. */
  datatype ChunkArgs = ChunkArgs(
    chunkId: Option<string>,
    text: Option<string>,
    source: Option<string>,
    fileType: Option<string>,
    index: Option<int>,
    metadata: Option<Metadata>)

  /** Construction failure: the names of the omitted mandatory fields, in declaration order. */
  datatype ValidationError = MissingFields(fields: seq<string>)

  /** The mandatory fields omitted from `a`, in declaration order. */
  function Omitted(a: ChunkArgs): (r: seq<string>)
    ensures r == [] <==> a.chunkId.Some? && a.text.Some? && a.source.Some? && a.fileType.Some? && a.index.Some?
    ensures "chunk_id" in r <==> a.chunkId.None?
    ensures "text" in r <==> a.text.None?
    ensures "source" in r <==> a.source.None?
    ensures "type" in r <==> a.fileType.None?
    ensures "index" in r <==> a.index.None?
    ensures "metadata" !in r
  {
    (if a.chunkId.None? then ["chunk_id"] else [])
    + (if a.text.None? then ["text"] else [])
    + (if a.source.None? then ["source"] else [])
    + (if a.fileType.None? then ["type"] else [])
    + (if a.index.None? then ["index"] else [])
  }

  /**
   * Constructing a `Chunk` from keyword arguments: the five first-class fields
   * are mandatory, `metadata` defaults to the empty dictionary.
   */
  function Build(a: ChunkArgs): (r: Result<Chunk, ValidationError>)
    ensures r.Success? <==> a.chunkId.Some? && a.text.Some? && a.source.Some? && a.fileType.Some? && a.index.Some?
    ensures r.Failure? ==> r.error.fields != [] && "metadata" !in r.error.fields
    ensures r.Failure? ==> ("chunk_id" in r.error.fields <==> a.chunkId.None?)
    ensures r.Failure? ==> ("text" in r.error.fields <==> a.text.None?)
    ensures r.Failure? ==> ("source" in r.error.fields <==> a.source.None?)
    ensures r.Failure? ==> ("type" in r.error.fields <==> a.fileType.None?)
    ensures r.Failure? ==> ("index" in r.error.fields <==> a.index.None?)
    ensures r.Success? ==> Some(r.value.chunkId) == a.chunkId && Some(r.value.text) == a.text
                           && Some(r.value.source) == a.source && Some(r.value.fileType) == a.fileType
                           && Some(r.value.index) == a.index
    ensures r.Success? && a.metadata.None? ==> r.value.metadata == map[]
    ensures r.Success? && a.metadata.Some? ==> r.value.metadata == a.metadata.value
  {
    var missing := Omitted(a);
    if missing != [] then Failure(MissingFields(missing))
    else Success(Chunk(a.chunkId.value, a.text.value, a.source.value, a.fileType.value, a.index.value,
                       a.metadata.GetOr(map[])))
  }

  /** The keyword arguments that spell out every field of `c`. */
  function ArgsOf(c: Chunk): ChunkArgs {
    ChunkArgs(Some(c.chunkId), Some(c.text), Some(c.source), Some(c.fileType), Some(c.index), Some(c.metadata))
  }

  /** Every chunk is built back from its own fields, and from them alone when its metadata is empty. */
  lemma BuildFromFields(c: Chunk)
    ensures Build(ArgsOf(c)) == Success(c)
    ensures c.metadata == map[] ==> Build(ArgsOf(c).(metadata := None)) == Success(c)
  {
  }
}
