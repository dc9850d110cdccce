# Chunk, index-record, loader and chat-stream model of a RAG backend

This Dafny project models the data-shaping core of a retrieval-augmented-generation
backend. The libraries it calls stay abstract: embeddings, nearest-neighbour ranking,
the recursive text splitter and calendar parsing. The model covers:

- the `Chunk` record and how it is built from keyword arguments (`ChunkModel`);
- `split_document`, which wraps the splitter's output pieces into chunks. It numbers
  them 0..N-1 over the whole output, stamps the source, and strips leading dots from
  the type tag (`ChunkUtil`);
- the vector index's record shaping (`VectorService`). `upsert` flattens each chunk's
  first-class fields and metadata into one record and appends it to an append-only
  store. `search` rebuilds chunks from the library's ranked hits;
- the extension-to-loader dispatch table (`Loaders`);
- the calendar loader's flattening of each `VEVENT` into a seven-line document with
  fixed metadata (`IcsLoader`);
- the stub chat generator and the streaming RPC handler that turns its
  `(token, final_text)` items into response records (`LlmService`, `Servicer`).

Parameters stand in for what the source gets from outside:

- The splitter's output is an input sequence of `Document`s.
- `uuid4()` is an id supply `ids: nat -> string`; the k-th chunk of one call gets
  `ids(k)`.
- The ranked hits are an input sequence of `(Record, S)` pairs, where `S` is any
  score type.
- The walked calendar is an input sequence of components whose properties are already
  rendered as strings.

Metadata values are the sum type `Value = Str | Int`.

Facts about the code that the model keeps:

- Chunk metadata may hold the reserved keys `chunk_id`, `source`, `type` and `index`.
  `split_document` copies loader metadata unchanged, and the calendar loader writes a
  `source` key. The metadata value then overrides the first-class field in the stored
  record, and the key is dropped from the metadata on search.
- `search` does no ordering or `top_k` truncation of its own. Hits are passed through in
  the order the library returns them.
- No code path connects the loader table, chunker and index into an ingestion
  pipeline. The upload service writes a temporary file and uses a plain text loader.
  The model therefore has no pipeline operation.
- Chunk text may be empty.

## Model

| member | source | states |
|---|---|---|
| ChunkModel.Build | models/chunk.py:18-26 | construction succeeds exactly when chunk_id, text, source, type and index are all given; every missing one is reported; an omitted metadata becomes the empty map |
| ChunkModel.BuildFromFields | models/chunk.py:18-26 | every chunk is rebuilt from its own fields, and from its five first-class fields alone when its metadata is empty |
| ChunkUtil.LStripDots | utils/chunk_util.py:36 | the type tag is the suffix with its whole run of leading dots removed: a suffix of the input, preceded only by dots, never starting with a dot |
| ChunkUtil.StrippedOfDotsUnique | utils/chunk_util.py:36 | that description has only one possible result, so it fully specifies the stripped tag |
| ChunkUtil.LStripDotsExamples | utils/chunk_util.py:36 | ".pdf", "..pdf" and "pdf" all give "pdf"; stripping is idempotent |
| ChunkUtil.SplitDocument | utils/chunk_util.py:29-41 | one chunk per split piece in order; index i for the i-th piece; the given source on every chunk; the dot-stripped type; text and metadata copied unchanged; ids pairwise distinct for a distinct supply; no pieces give no chunks |
| ChunkUtil.WrapFromAppend | utils/chunk_util.py:31-37 | numbering continues across input documents: wrapping a concatenation numbers the second part after the first |
| VectorService.Flatten | services/vector_service.py:62-71 | the record holds the chunk's text; its keys are the four reserved keys plus the metadata keys; metadata values win on collisions; otherwise the first-class values are stored |
| VectorService.Upsert | services/vector_service.py:59-75 | appends exactly one flattened record per chunk, in order; existing records unchanged; every new record holds all four reserved keys |
| VectorService.Unflatten | services/vector_service.py:88-101 | rebuilding succeeds exactly when all reserved keys are present with values of the right kind; a missing key raises a KeyError naming the first absent key in the order chunk_id, source, type, index; otherwise a failure lists exactly the reserved fields with values of the wrong kind; on success the fields come from the reserved entries, and the metadata is every other entry with its value |
| VectorService.Search | services/vector_service.py:84-103 | succeeds exactly when every hit can be rebuilt; then there is one (chunk, score) per hit, in order, with the score unchanged; a failure carries the error of the first bad hit |
| VectorService.RoundTrip | services/vector_service.py:62-101 | a chunk whose metadata has no reserved key comes back from its record unchanged |
| VectorService.RoundTripOnlyIfReservedFree | services/vector_service.py:96-100 | conversely, a chunk that comes back unchanged has no reserved key in its metadata |
| VectorService.CollisionOverrides | services/vector_service.py:64-70 | on a reserved-key collision the stored value is the metadata value, the key is absent from the rebuilt metadata, and the round trip fails |
| VectorService.SourceCollision | services/vector_service.py:64-70 | a string "source" in the metadata, as the calendar loader writes it, becomes the rebuilt chunk's source and leaves its metadata |
| VectorService.UpsertConcat | services/vector_service.py:61-75 | two upserts append the same records as one upsert of both batches |
| VectorService.UpsertTwiceKeepsBoth | services/vector_service.py:72-75 | upserting the same chunk twice stores two identical records: no de-duplication |
| VectorService.UpsertKeepsStoreRebuildable | services/vector_service.py:61-72 | upsert keeps every record rebuildable unless a chunk overrides a reserved key with a value of the wrong kind |
| VectorService.SearchOverRebuildableStore | services/vector_service.py:85-101 | hits drawn from a rebuildable store never make search fail, and give one result per hit |
| VectorService.SearchAfterUpsert | services/vector_service.py:61-103 | searching freshly upserted reserved-free chunks returns exactly those chunks with the hits' scores |
| Loaders.LoaderFor | services/loaders/loaders.py:14-26 | exact-match lookup: a loader exactly for the ten listed extensions; text loader exactly for .txt and .md, PDF loader exactly for .pdf, calendar loader exactly for .ics |
| Loaders.TenExtensions | services/loaders/loaders.py:14-26 | the table's keys are the ten listed extensions, ten distinct ones |
| Loaders.DistinctCard | services/loaders/loaders.py:14-26 | a list without repeats has as many distinct elements as entries, which gives the table its ten keys |
| Loaders.UnlistedHaveNoLoader | services/loaders/loaders.py:14-26 | ".xyz", ".PDF", "pdf" and "" have no loader |
| Loaders.RegisteredKeysDotTagged | services/loaders/loaders.py:14-26 | every key is a dot followed by a non-empty, dot-free tag |
| Loaders.RegisteredKeysGiveTypeTags | services/loaders/loaders.py:14-26 | stripping leading dots from a key gives the key without its dot, one of the ten chunk type tags |
| IcsLoader.ReadEvent | services/loaders/ics_loader.py:18-24 | reading an event succeeds exactly when it has dtstart and dtend; a missing dtstart is reported before a missing dtend; the dates are taken as they are |
| IcsLoader.ReadEventFields | services/loaders/ics_loader.py:18-24 | absent summary, description, location, organizer and status read as "", present ones as they are |
| IcsLoader.SplitJoinLines | services/loaders/ics_loader.py:26-34 | joining newline-free lines with "\n" and splitting the result gives the lines back |
| IcsLoader.EventTextSplits | services/loaders/ics_loader.py:26-34 | when no field holds a newline, the event text splits into exactly the seven lines Event, Start, End, Location, Organizer, Status, Description |
| IcsLoader.EventTextEndsWithDescription | services/loaders/ics_loader.py:26-34 | the text ends with the description line, and ends in a newline only if the description does |
| IcsLoader.EventMetadata | services/loaders/ics_loader.py:36-44 | metadata keys are exactly summary, start, end, location, organizer, status, source, each holding the event's field; no description; source is the file name given |
| IcsLoader.BaseName | services/loaders/ics_loader.py:43 | the file name is the longest slash-free suffix of the path |
| IcsLoader.Events | services/loaders/ics_loader.py:16-17 | only components named VEVENT are kept, and every VEVENT of the walk is kept; a walk with no VEVENT keeps none |
| IcsLoader.EventsOne | services/loaders/ics_loader.py:16-17 | a single component is kept exactly when it is a VEVENT; with EventsAppend this fixes the kept events, in walk order, for every walk |
| IcsLoader.EventsAppend | services/loaders/ics_loader.py:16-17 | the filter keeps walk order: the events of a concatenation are those of each part, in turn |
| IcsLoader.EventDocuments | services/loaders/ics_loader.py:26-46 | one document per dated event, in order, each built from that event |
| IcsLoader.LoadEvents | services/loaders/ics_loader.py:15-48 | loading succeeds exactly when every VEVENT has both dates, and then yields the documents of the VEVENTs in walk order |
| IcsLoader.LoadEventsError | services/loaders/ics_loader.py:16-21 | a failed load reports the missing date of the first VEVENT, in walk order, that lacks one |
| IcsLoader.Load | services/loaders/ics_loader.py:11-48 | one document per kept event, and every VEVENT is kept; none for a calendar without VEVENT; a missing dtstart or dtend fails the load |
| IcsLoader.LoadedDocument | services/loaders/ics_loader.py:26-46 | each loaded document's text is its event's text; its metadata has the seven fixed keys holding the event's fields and the file's base name as source |
| LlmService.EchoResponse | services/llm_service.py:31 | the response is "Echo: " followed by the prompt |
| LlmService.TokenItems | services/llm_service.py:34-36 | one (character, "") item per response character, in order |
| LlmService.StreamChat | services/llm_service.py:30-39 | the response's characters as single-character tokens with empty final text, then ("", response) once and last: response length + 1 items |
| LlmService.TokensSpell | services/llm_service.py:34-36 | the tokens of the streamed items concatenate to the streamed string |
| LlmService.StreamSpellsFinalText | services/llm_service.py:31-39 | the tokens before the final item spell the final text |
| LlmService.OnlyPromptMatters | services/llm_service.py:20-31 | history and model name do not affect the stream |
| Servicer.StreamChat | grpc_server/servicer.py:28-39 | the handler's stream for a request has one record per character of "Echo: " + prompt plus one, and ends with the terminal record carrying that whole string; the full shape is stated by Servicer.EchoStreamShape |
| Servicer.ToResponse | grpc_server/servicer.py:35-39 | an item with non-empty final text becomes a record with empty token and that text, its token discarded; otherwise the token is sent with empty final text |
| Servicer.Respond | grpc_server/servicer.py:34-39 | exactly one record per generator item, in order |
| Servicer.RespondKeepsTermination | grpc_server/servicer.py:34-39 | a stream whose only final text is on its last item yields exactly one terminal record, the last, with an empty token |
| Servicer.EchoStreamShape | grpc_server/servicer.py:29-39 | for any request, every record but the last carries one character of "Echo: " + prompt and no final text; exactly one terminal record, the last, carries the whole string |
| Servicer.EchoStreamSpellsFinal | grpc_server/servicer.py:34-39 | the tokens of the non-terminal records spell the terminal record's final text |

## Left out

- Embeddings, the FAISS index and nearest-neighbour ranking. These are library calls on
  floating-point vectors. The ranked hits are an input, and no ascending-score order or
  `top_k` bound is claimed, because the code imposes neither.
- Index persistence, directory creation, the embedder choice and the dimension probe.
  These are file I/O and library set-up.
- The recursive text splitter. It is a library; its output pieces are an input, and
  no overlap or reconstruction property of the split is claimed.
- `uuid4` randomness. It is replaced by an id supply. Distinctness is a hypothesis, and
  only ids drawn within one call are related.
- Calendar parsing, opening the file and `str()` of dates. These are library and I/O
  calls; properties arrive as strings.
- Asynchronous delivery, the per-token sleep, cancellation, and all gRPC and HTTP
  transport and server lifecycle.
- The upload service, configuration settings and the upload response record. They are
  I/O plumbing or behaviour-free.
- Concurrent access to the shared index. The model is sequential.
- Metadata values are strings or integers only. Other Python values
  (floats, lists, nested dictionaries) are not modelled.
- ChunkModel.Build: field type validation and coercion are not modelled. Dafny's types
  already fix each field's type.
- VectorService.Unflatten: a reserved value of the wrong kind is a validation failure.
  Pydantic's coercion of a numeric string to an integer `index` is not modelled.
- IcsLoader.ReadEvent: property names are matched exactly, as lower-case keys. The
  calendar library's case-insensitive lookup is not modelled.
- IcsLoader.BaseName: the path is split at its last '/'. Path normalisation (trailing
  slashes, other separators) is not modelled.
- Servicer.StreamChat: forwarding the request's prompt, history and model to the
  generator is the definition itself and is not restated as a contract. Its contract
  gives the stream's length and terminal record, and `Servicer.EchoStreamShape` states
  the whole stream.
