/**
 * The index records of services/vector_service.py: `upsert` flattens each chunk
 * into one text-plus-metadata record and appends it to the store; `search`
 * rebuilds chunks from the ranked hits. Embedding and nearest-neighbour ranking
 * are library calls: the store is an append-only sequence of records and the
 * ranked hits are an input, each with a score of an opaque type `S`.
 */
module VectorService {
  import opened Common
  import opened ChunkModel

  /** The first-class chunk fields that `upsert` writes into every record's metadata. */
  const Reserved: set<string> := {"chunk_id", "source", "type", "index"}

  /** A stored document: the chunk's text and its flattened metadata. */
  datatype Record = Record(pageContent: string, metadata: Metadata)

  /**
   * Why rebuilding a chunk failed: a reserved key absent from the record, or
   * reserved values of the wrong kind for the `Chunk` fields they fill.
   */
  datatype SearchError = KeyError(key: string) | InvalidFields(fields: seq<string>)

  /** The four first-class fields of `c` as metadata entries. */
  function FirstClassFields(c: Chunk): Metadata {
    map["chunk_id" := Str(c.chunkId), "source" := Str(c.source), "type" := Str(c.fileType), "index" := Int(c.index)]
  }

  /**
   * The record `upsert` stores for `c`: the first-class fields merged with the
   * chunk's metadata, where a metadata entry wins on a key collision.
   */
  function Flatten(c: Chunk): (r: Record)
    ensures r.pageContent == c.text
    ensures r.metadata.Keys == Reserved + c.metadata.Keys
    ensures forall k :: k in c.metadata ==> r.metadata[k] == c.metadata[k]
    ensures "chunk_id" !in c.metadata ==> r.metadata["chunk_id"] == Str(c.chunkId)
    ensures "source" !in c.metadata ==> r.metadata["source"] == Str(c.source)
    ensures "type" !in c.metadata ==> r.metadata["type"] == Str(c.fileType)
    ensures "index" !in c.metadata ==> r.metadata["index"] == Int(c.index)
  {
    Record(c.text, FirstClassFields(c) + c.metadata)
  }

  /** One record per chunk, in input order. */
  function FlattenAll(chunks: seq<Chunk>): (r: seq<Record>)
    ensures |r| == |chunks|
    ensures forall i :: 0 <= i < |r| ==> r[i] == Flatten(chunks[i])
  {
    if |chunks| == 0 then [] else [Flatten(chunks[0])] + FlattenAll(chunks[1..])
  }

  /**
   * `upsert`: appends exactly one record per chunk, in order, after the
   * existing records, which stay as they were. There is no de-duplication.
   */
  function Upsert(store: seq<Record>, chunks: seq<Chunk>): (r: seq<Record>)
    ensures |r| == |store| + |chunks|
    ensures r[..|store|] == store
    ensures forall i :: 0 <= i < |chunks| ==> r[|store| + i] == Flatten(chunks[i])
    ensures forall i :: |store| <= i < |r| ==> Reserved <= r[i].metadata.Keys
  {
    store + FlattenAll(chunks)
  }

  /** The reserved values that can fill the `Chunk` fields: strings for the ids, an integer for `index`. */
  predicate WellTypedReserved(m: Metadata) {
    && ("chunk_id" in m ==> m["chunk_id"].Str?)
    && ("source" in m ==> m["source"].Str?)
    && ("type" in m ==> m["type"].Str?)
    && ("index" in m ==> m["index"].Int?)
  }

  /** The reserved fields whose values are of the wrong kind, in declaration order. */
  function IllTypedFields(m: Metadata): (r: seq<string>)
    ensures r == [] <==> WellTypedReserved(m)
    ensures forall k :: k in r <==> k in Reserved && k in m && !(if k == "index" then m[k].Int? else m[k].Str?)
  {
    (if "chunk_id" in m && !m["chunk_id"].Str? then ["chunk_id"] else [])
    + (if "source" in m && !m["source"].Str? then ["source"] else [])
    + (if "type" in m && !m["type"].Str? then ["type"] else [])
    + (if "index" in m && !m["index"].Int? then ["index"] else [])
  }

  /** A record a chunk can be rebuilt from. */
  predicate Rebuildable(rec: Record) {
    Reserved <= rec.metadata.Keys && WellTypedReserved(rec.metadata)
  }

  /**
   * The chunk `search` rebuilds from one hit: the reserved keys are looked up
   * in the order chunk_id, source, type, index, and removed from the metadata.
   */
  function Unflatten(rec: Record): (r: Result<Chunk, SearchError>)
    ensures r.Success? <==> Rebuildable(rec)
    ensures !(Reserved <= rec.metadata.Keys) <==> r.Failure? && r.error.KeyError?
    ensures r.Failure? && r.error.KeyError? ==> r.error.key in Reserved && r.error.key !in rec.metadata
    ensures "chunk_id" !in rec.metadata ==> r == Failure(KeyError("chunk_id"))
    ensures "chunk_id" in rec.metadata && "source" !in rec.metadata ==> r == Failure(KeyError("source"))
    ensures ("chunk_id" in rec.metadata && "source" in rec.metadata && "type" !in rec.metadata)
            ==> r == Failure(KeyError("type"))
    ensures ("chunk_id" in rec.metadata && "source" in rec.metadata && "type" in rec.metadata
             && "index" !in rec.metadata) ==> r == Failure(KeyError("index"))
    ensures Reserved <= rec.metadata.Keys && r.Failure? ==> r.error == InvalidFields(IllTypedFields(rec.metadata))
    ensures r.Success? ==>
              && r.value.text == rec.pageContent
              && rec.metadata["chunk_id"] == Str(r.value.chunkId)
              && rec.metadata["source"] == Str(r.value.source)
              && rec.metadata["type"] == Str(r.value.fileType)
              && rec.metadata["index"] == Int(r.value.index)
              && r.value.metadata.Keys == rec.metadata.Keys - Reserved
              && forall k :: k in r.value.metadata ==> r.value.metadata[k] == rec.metadata[k]
  {
    var m := rec.metadata;
    if "chunk_id" !in m then Failure(KeyError("chunk_id"))
    else if "source" !in m then Failure(KeyError("source"))
    else if "type" !in m then Failure(KeyError("type"))
    else if "index" !in m then Failure(KeyError("index"))
    else
      var bad := IllTypedFields(m);
      if bad != [] then Failure(InvalidFields(bad))
      else Success(Chunk(m["chunk_id"].s, rec.pageContent, m["source"].s, m["type"].s, m["index"].n, m - Reserved))
  }

  /**
   * `search` over the library's ranked hits: one (chunk, score) per hit, in hit
   * order, scores passed through; the first hit that cannot be rebuilt raises.
   */
  function Search<S>(hits: seq<(Record, S)>): (r: Result<seq<(Chunk, S)>, SearchError>)
    ensures r.Success? <==> forall i :: 0 <= i < |hits| ==> Unflatten(hits[i].0).Success?
    ensures r.Success? ==> |r.value| == |hits|
    ensures r.Success? ==> forall i :: 0 <= i < |hits| ==> r.value[i] == (Unflatten(hits[i].0).value, hits[i].1)
    ensures r.Failure? ==> exists i :: 0 <= i < |hits| && Unflatten(hits[i].0) == Failure(r.error)
                                      && forall j :: 0 <= j < i ==> Unflatten(hits[j].0).Success?
    ensures hits == [] ==> r == Success([])
  {
    if |hits| == 0 then Success([])
    else
      match Unflatten(hits[0].0)
      case Failure(e) => Failure(e)
      case Success(c) =>
        var rest := Search(hits[1..]);
        if rest.Failure? then
          assert forall i :: 1 <= i < |hits| ==> hits[i] == hits[1..][i - 1];
          Failure(rest.error)
        else Success([(c, hits[0].1)] + rest.value)
  }

  /** Round trip: a chunk whose metadata holds no reserved key comes back from its record unchanged. */
  lemma RoundTrip(c: Chunk)
    requires Reserved !! c.metadata.Keys
    ensures Unflatten(Flatten(c)) == Success(c)
  {
    var m := Flatten(c).metadata;
    assert m - Reserved == c.metadata;
  }

  /** ...and only such a chunk: a reserved key in the metadata never survives the round trip. */
  lemma RoundTripOnlyIfReservedFree(c: Chunk)
    requires Unflatten(Flatten(c)) == Success(c)
    ensures Reserved !! c.metadata.Keys
  {
  }

  /**
   * On a key collision the metadata value is what the record stores, and what
   * the rebuilt chunk carries as the first-class field, while the key leaves
   * the rebuilt metadata.
   */
  lemma CollisionOverrides(c: Chunk, k: string)
    requires k in Reserved && k in c.metadata
    ensures Flatten(c).metadata[k] == c.metadata[k]
    ensures Unflatten(Flatten(c)).Success? ==> k !in Unflatten(Flatten(c)).value.metadata
    ensures Unflatten(Flatten(c)) != Success(c)
  {
  }

  /**
   * The collision a calendar loader causes: a string "source" in the metadata
   * replaces the chunk's source and is dropped from the rebuilt metadata.
   */
  lemma SourceCollision(c: Chunk, s: string)
    requires "source" in c.metadata && c.metadata["source"] == Str(s)
    requires "chunk_id" !in c.metadata && "type" !in c.metadata && "index" !in c.metadata
    ensures Unflatten(Flatten(c)) == Success(c.(source := s, metadata := c.metadata - {"source"}))
  {
    var m := Flatten(c).metadata;
    assert m - Reserved == c.metadata - {"source"};
  }

  /** Two upserts append what one upsert of both batches appends. */
  lemma UpsertConcat(store: seq<Record>, a: seq<Chunk>, b: seq<Chunk>)
    ensures Upsert(Upsert(store, a), b) == Upsert(store, a + b)
  {
    var l := Upsert(Upsert(store, a), b);
    var r := Upsert(store, a + b);
    forall i | 0 <= i < |l|
      ensures l[i] == r[i]
    {
      if i < |store| {
        assert l[i] == Upsert(store, a)[..|store|][i];
      } else if i < |store| + |a| {
        assert l[i] == Upsert(store, a)[i];
        assert (a + b)[i - |store|] == a[i - |store|];
      } else {
        assert (a + b)[i - |store|] == b[i - |store| - |a|];
      }
    }
  }

  /** Upserting the same chunk twice leaves two identical records. */
  lemma UpsertTwiceKeepsBoth(store: seq<Record>, c: Chunk)
    ensures Upsert(Upsert(store, [c]), [c]) == store + [Flatten(c), Flatten(c)]
  {
    UpsertConcat(store, [c], [c]);
    var r := Upsert(store, [c, c]);
    assert r[|store|] == Flatten(c) && r[|store| + 1] == Flatten(c);
    assert r == r[..|store|] + [r[|store|], r[|store| + 1]];
  }

  /** Every record can be rebuilt into a chunk. */
  ghost predicate StoreRebuildable(store: seq<Record>) {
    forall i :: 0 <= i < |store| ==> Rebuildable(store[i])
  }

  /**
   * `upsert` keeps the store rebuildable as long as no chunk overrides a
   * reserved key with a value of the wrong kind.
   */
  lemma UpsertKeepsStoreRebuildable(store: seq<Record>, chunks: seq<Chunk>)
    requires StoreRebuildable(store)
    requires forall i :: 0 <= i < |chunks| ==> WellTypedReserved(chunks[i].metadata)
    ensures StoreRebuildable(Upsert(store, chunks))
  {
    var r := Upsert(store, chunks);
    forall i | 0 <= i < |r|
      ensures Rebuildable(r[i])
    {
      if i < |store| {
        assert r[i] == r[..|store|][i];
      } else {
        var c := chunks[i - |store|];
        assert r[i] == Flatten(c);
      }
    }
  }

  /** Hits drawn from a rebuildable store never make `search` fail. */
  lemma SearchOverRebuildableStore<S>(store: seq<Record>, hits: seq<(Record, S)>)
    requires StoreRebuildable(store)
    requires forall i :: 0 <= i < |hits| ==> hits[i].0 in store
    ensures Search(hits).Success? && |Search(hits).value| == |hits|
  {
  }

  /**
   * Searching a freshly upserted batch of reserved-free chunks gives back the
   * chunks themselves: hit `i` points at position `at[i]` of the batch.
   */
  lemma SearchAfterUpsert<S>(store: seq<Record>, chunks: seq<Chunk>, hits: seq<(Record, S)>, at: seq<nat>)
    requires forall i :: 0 <= i < |chunks| ==> Reserved !! chunks[i].metadata.Keys
    requires |at| == |hits|
    requires forall i :: 0 <= i < |at| ==> at[i] < |chunks|
    requires forall i :: 0 <= i < |hits| ==> hits[i].0 == Upsert(store, chunks)[|store| + at[i]]
    ensures Search(hits).Success?
    ensures forall i :: 0 <= i < |hits| ==> Search(hits).value[i] == (chunks[at[i]], hits[i].1)
  {
    forall i | 0 <= i < |hits|
      ensures Unflatten(hits[i].0) == Success(chunks[at[i]])
    {
      RoundTrip(chunks[at[i]]);
    }
  }
}
