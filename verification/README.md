# Rag-Pipeline, modelled in Dafny

A model of the retrieval-augmented question-answering pipeline of the
Rag-Pipeline service, with proofs of what its code promises:

- **Ingestion** (`parse_files`): find the stored PDF, split its text
  elements into chunks with the accumulate-and-flush loop of
  `FileUploadHandler.parse_file`, embed every chunk, make sure the Qdrant
  collection exists, and upsert one point per chunk under one shared doc
  id. A chunk of two or more elements is shorter than `chunk_size`
  characters. A single element of `chunk_size` characters or more becomes a
  chunk on its own, of at least `chunk_size` characters. When that element
  comes first, chunk_1 is empty.
- **Question answering** (`user_query`): embed the question, scan the
  collection, build a faiss index over the vectors, take the five nearest
  neighbours, and hand their texts to the chat model as references.

The external services are parameters of the model:

- the PDF extractor (`partition_pdf`) is a function from a path to the
  element texts or an exception;
- the embedding service is a function from a text to a vector or an error;
- the faiss index search is an oracle that answers one row of
  (distance, index) slots or fails;
- the chat model is a function from the model name and the messages to the
  list of choices or an error;
- the Qdrant server is a class holding the collections and the stored
  points, with a request counter and an `outage` predicate that says which
  requests fail in transport;
- `uuid4` is a generator whose only promise is that it never repeats an
  identifier.

Modules, one per source file, plus two shared ones:

| file | module | models |
|---|---|---|
| base.dfy | Base | Option/Result, the exceptions, `str(int)`, the uuid4 generator |
| chunking.dfy | Chunking | the chunking policy of `parse_file` as values: `strip`, the kept elements, the groups, the chunk texts |
| process_file.dfy | ProcessFile | `FileUploadHandler`: upload, get_file_path, generate_embeddings, and the parse_file loop as a method |
| faiss_search.dfy | FaissSearch | `FAISSSearchEngine`: construction, the result-formatting loop, search_similar_chunks |
| qdrant_store.dfy | QdrantStore | the Qdrant server state and `QuadrantManager`: connect, upsert, the store scan |
| response_generation.dfy | ResponseGeneration | `LLMService`: completion, the prompt, Python's repr of the reference list |
| user_router.dfy | UserRouter | the `parse_files` and `user_query` handlers |

Behaviours of the code a reader might not expect:

- Search ranks are the faiss slot position + 1. They are dense (1, 2, ...)
  only when the empty slots come last (`FaissSearch.FormattedDense`), not
  always.
- A `parse_files` call that fails part-way leaves the chunks already
  upserted in the store (`UserRouter.StoredChunksAppend`). It is not
  all-or-nothing.
- The collection is created with the cosine metric while the search uses
  L2. The model keeps the declared parameters (`QdrantStore.DefaultParams`)
  and does no arithmetic on distances.

## Model

| member | source | states |
|---|---|---|
| Base.UuidSource.Next | app/services/process_file.py:32 | the new identifier was never handed out before; it is recorded after all earlier ones |
| Base.UuidSource.Distinct | app/services/vector_store.py:116 | every two identifiers handed out differ |
| Chunking.IsSpace | app/services/process_file.py:92 | the whitespace `strip()` removes includes space, tab, newline and carriage return, and no ASCII letter or digit |
| Chunking.Strip | app/services/process_file.py:92 | `strip()` leaves either nothing or a text with no whitespace at either end |
| Chunking.TrimEndSpec | app/services/process_file.py:92 | right-stripping keeps a prefix, removes only whitespace, and leaves no trailing whitespace |
| Chunking.TrimStartSpec | app/services/process_file.py:92 | left-stripping keeps a suffix, removes only whitespace, and leaves no leading whitespace |
| Chunking.StripIsInnerSlice | app/services/process_file.py:92 | the stripped text is a contiguous slice of the element; everything outside it is whitespace |
| Chunking.StripOfClean | app/services/process_file.py:92 | stripping a text that is already stripped changes nothing |
| Chunking.Kept | app/services/process_file.py:91-94 | the kept texts are no more than the elements, and each is non-empty and stripped |
| Chunking.KeptAppend | app/services/process_file.py:91-94 | every element contributes its stripped text exactly once, in input order, or nothing when blank |
| Chunking.AccumulatedIsJoinedLine | app/services/process_file.py:110 | the accumulator holding a group is the group joined by newlines plus a final newline |
| Chunking.StripAccumulated | app/services/process_file.py:103 | stripping the accumulator gives its group joined by newlines |
| Chunking.Pack | app/services/process_file.py:97-110 | each kept element closes at most one group, so there are no more closed groups than elements; once an element is read the accumulator is never empty |
| Chunking.Groups | app/services/process_file.py:97-122 | at most one group more than there are kept elements; no group at all exactly when nothing is kept |
| Chunking.ChunkTexts | app/services/process_file.py:97-122 | at most one chunk text more than there are kept elements; no chunk at all exactly when nothing is kept |
| Chunking.PackMerge | app/services/process_file.py:110 | an element that fits joins the accumulator, and the accumulator grows by the element and a newline |
| Chunking.PackFlush | app/services/process_file.py:97-108 | an element that does not fit closes the accumulator's group and starts a new one alone |
| Chunking.PackPartition | app/services/process_file.py:97-110 | the closed groups followed by the open group are exactly the kept elements |
| Chunking.GroupsPartition | app/services/process_file.py:97-122 | the chunks' groups, concatenated, are exactly the kept elements: nothing lost, duplicated, reordered or split |
| Chunking.PackBound | app/services/process_file.py:97-110 | an accumulator holding two or more elements never exceeds the chunk size |
| Chunking.ChunkSizeBound | app/services/process_file.py:97-110 | a chunk built from two or more elements is shorter than the chunk size |
| Chunking.PackShape | app/services/process_file.py:97-108 | only the first closed group can be empty, exactly when the first kept element is at least the chunk size long, and that element then starts the next group |
| Chunking.GroupsShape | app/services/process_file.py:97-122 | the same shape for the final list of groups |
| Chunking.GroupTexts | app/services/process_file.py:103-119 | a chunk text is empty exactly when its group is, and otherwise is stripped and starts with the group's first element |
| Chunking.FirstChunkEmpty | app/services/process_file.py:97-108 | chunk_1 has empty text exactly when the first kept element is at least the chunk size long; that element starts chunk_2; no other chunk is empty |
| Chunking.ChunkTextsClean | app/services/process_file.py:103-119 | every chunk text is empty or already stripped |
| Chunking.OpenClean | app/services/process_file.py:110 | the accumulator only ever holds kept, stripped elements |
| Chunking.ClosedIsPrefix | app/services/process_file.py:97-108 | a chunk once emitted stays emitted, at its position, whatever elements follow |
| Chunking.FlushedGroupIsChunk | app/services/process_file.py:97-107 | the group flushed when an element does not fit is a chunk of the final result, at the position it was emitted in |
| Chunking.NoChunksIffNothingKept | app/services/process_file.py:87-113 | there are no chunks exactly when no element is kept |
| Chunking.ChunksJoinToKept | app/services/process_file.py:97-122 | the non-empty chunk texts joined by newlines equal the kept elements joined by newlines |
| Chunking.ChunkKeysDistinct | app/services/process_file.py:98-114 | chunk_m and chunk_n are different keys for m ≠ n |
| ProcessFile.PathJoin | app/services/process_file.py:54 | the joined path ends with the name, and starts with the directory when the name is relative |
| ProcessFile.UploadPathShape | app/services/process_file.py:33 | the stored file of a relative id is the directory, a separator when needed, the id and ".pdf" |
| ProcessFile.UploadPathInjective | app/services/process_file.py:54 | two relative ids never share a stored file |
| ProcessFile.DictGet | app/services/process_file.py:59 | the stored value when the key is present, the default otherwise |
| ProcessFile.GenerateEmbeddings | app/services/process_file.py:66-76 | the service's vector when the call succeeds; HTTP 500 when it fails |
| ProcessFile.BuildChunks | app/services/process_file.py:98-122 | one record per chunk text, or HTTP 500 |
| ProcessFile.BuildChunksMeaning | app/services/process_file.py:98-122 | success exactly when every chunk text embeds; the j-th record has key chunk_(j+1), the file id, the name, the text, its length as total_chars, and that text's own embedding |
| ProcessFile.BuildChunksSnoc | app/services/process_file.py:98-107 | emitting one more chunk appends its record after the earlier ones |
| ProcessFile.ChunkIdsDistinct | app/services/process_file.py:98-114 | the records of one parse have pairwise distinct keys, so none overwrites another in the dict |
| ProcessFile.BuildChunksFailsAt | app/services/process_file.py:105-121 | one chunk whose embedding fails makes the whole parse fail with HTTP 500 |
| ProcessFile.KeptStep | app/services/process_file.py:91-110 | one loop step keeps the stripped element or skips it when blank |
| ProcessFile.KeptSplit | app/services/process_file.py:91-94 | the kept elements of a list are those of a prefix followed by those of the rest |
| ProcessFile.FlushFailureIsFinal | app/services/process_file.py:97-130 | an embedding failure during a flush ends the parse with HTTP 500, whatever elements remain |
| ProcessFile.FinalTexts | app/services/process_file.py:112-122 | the chunk texts are the flushed groups, then the accumulator's text only when it is not blank |
| ProcessFile.ParseFileSpec | app/services/process_file.py:78-130 | a missing file raises FileNotFoundError, an extraction error is passed on, a failed embedding is HTTP 500, and a successful parse has no chunk exactly when no element has non-blank text |
| ProcessFile.FileUploadHandler.constructor | app/services/process_file.py:22-25 | the handler keeps the file and the upload directory; the metadata dict is empty |
| ProcessFile.FileUploadHandler.Upload | app/services/process_file.py:27-49 | no file: ValueError and nothing changes; otherwise a fresh id, its file stored at the upload path, and the original name or "unknown" |
| ProcessFile.FileUploadHandler.GetFilePath | app/services/process_file.py:53-64 | succeeds exactly when `<upload_dir>/<file_id>.pdf` exists, with that path and the name "unknown"; otherwise FileNotFoundError |
| ProcessFile.FileUploadHandler.ParseFile | app/services/process_file.py:78-130 | the result is that of looking up the file, extracting its elements, chunking them and embedding every chunk, with each failure passed on |
| ProcessFile.ChunkElements | app/services/process_file.py:87-126 | the loop returns the records of the chunk texts of the kept elements, or HTTP 500 when an embedding fails |
| FaissSearch.NewSearchEngine | app/services/vector_store.py:13-19 | no vectors: IndexError; vectors of different lengths: ValueError; otherwise the engine over those vectors and payloads, with the common length as dimension |
| FaissSearch.PyIndex | app/services/vector_store.py:49 | Python list indexing: negative indices count from the end; out of range raises |
| FaissSearch.Formatted | app/services/vector_store.py:47-54 | no more results than slots, and every rank lies in 1..k |
| FaissSearch.SearchOutcome | app/services/vector_store.py:43-61 | [] when faiss raises; otherwise no more results than slots, every rank in 1..k |
| FaissSearch.FormattedFails | app/services/vector_store.py:47-61 | formatting succeeds exactly when every occupied slot points inside the payload list |
| FaissSearch.FormattedCount | app/services/vector_store.py:47-54 | one result per occupied slot |
| FaissSearch.FormattedFromSlots | app/services/vector_store.py:47-54 | each result carries the distance of slot rank-1 and the payload at that slot's index |
| FaissSearch.FormattedRanks | app/services/vector_store.py:47-53 | ranks lie in 1..k and strictly increase along the results |
| FaissSearch.FormattedDense | app/services/vector_store.py:47-53 | when the empty slots come last, the ranks are exactly 1, 2, 3, ... |
| FaissSearch.FormattedKeepsOrder | app/services/vector_store.py:46-55 | distances faiss returns in ascending order stay ascending in the results |
| FaissSearch.SearchAtMostTopK | app/services/vector_store.py:43-54 | given a row of top_k slots, at most top_k results |
| FaissSearch.SearchOutcomeCases | app/services/vector_store.py:43-61 | [] when faiss fails or a lookup fails; otherwise one result per occupied slot |
| FaissSearch.FormattedStaysFailed | app/services/vector_store.py:47-61 | once one slot's lookup fails, the whole search yields [] |
| FaissSearch.Search | app/services/vector_store.py:22-61 | the loop returns the formatted results of the faiss row, or [] on any exception |
| FaissSearch.SearchSimilarChunks | app/services/vector_store.py:63-67 | the same result as search |
| QdrantStore.Upserted | app/services/vector_store.py:112-121 | the upserted point is in the store afterwards |
| QdrantStore.UpsertFreshAppends | app/services/vector_store.py:112-121 | an upsert under a new id appends exactly one point and keeps all others in order |
| QdrantStore.UpsertExistingReplaces | app/services/vector_store.py:112-121 | an upsert under an existing id replaces that point in place and nothing else |
| QdrantStore.UpsertKeepsKeysUnique | app/services/vector_store.py:112-121 | upserting never creates two points with one id in one collection |
| QdrantStore.UpsertDataAppends | app/services/vector_store.py:112-121 | while all stored ids came from the generator, the fresh id is new to the store, so the point is appended, and the invariant holds again |
| QdrantStore.QdrantServer.GetCollections | app/services/vector_store.py:84-85 | the collection names, unless the request fails in transport; nothing changes |
| QdrantStore.QdrantServer.CreateCollection | app/services/vector_store.py:89-92 | adds the collection with the given parameters exactly when the request goes through and the name is free |
| QdrantStore.QdrantServer.Upsert | app/services/vector_store.py:112-121 | stores the point exactly when the request goes through, the collection exists and the vector has its size |
| QdrantStore.QdrantServer.Scroll | app/services/vector_store.py:131-136 | the collection's points in storage order, at most `limit` of them; nothing changes |
| QdrantStore.ScanOf | app/services/vector_store.py:137-138 | vectors and payloads of the same points, index for index |
| QdrantStore.QuadrantManager.constructor | app/services/vector_store.py:73-78 | connects at once: status 200 and the client exactly when connect succeeds, otherwise 401 and no client |
| QdrantStore.QuadrantManager.ConnectQdrant | app/services/vector_store.py:80-101 | creates the collection with 1536-long cosine vectors only when absent, leaves an existing one untouched, and reports 200 exactly when every request went through; otherwise (None, 401) |
| QdrantStore.QuadrantManager.UpsertData | app/services/vector_store.py:103-127 | one request storing one point under a fresh id, with the chunk's embedding and payload {doc_id, text, file_id}; it succeeds exactly when the server accepts the upsert; a store failure is raised again |
| QdrantStore.QuadrantManager.FetchAllVectorsAndPayloads | app/services/vector_store.py:129-139 | as written it always raises AttributeError |
| QdrantStore.QuadrantManager.FetchAllVectorsAndPayloadsIntended | app/services/vector_store.py:129-139 | the scan the code means: the collection's first 10000 points split into vectors and payloads; the store is unchanged |
| ResponseGeneration.ChatRequest | app/services/response_generation.py:20-23 | exactly two messages: the system prompt, then the user prompt |
| ResponseGeneration.Completion | app/services/response_generation.py:15-28 | the first choice's content; None exactly when the call fails or gives no content |
| ResponseGeneration.Repr | app/services/response_generation.py:41 | repr of a text is quoted at both ends with the quote Python picks |
| ResponseGeneration.ReprList | app/services/response_generation.py:41 | the rendered list is bracketed |
| ResponseGeneration.ReprRoundTrip | app/services/response_generation.py:41 | repr of a text can be read back to the same text, and it ends where the literal ends |
| ResponseGeneration.ItemsRoundTrip | app/services/response_generation.py:41 | the rendered items read back to the same list |
| ResponseGeneration.ReprListRoundTrip | app/services/response_generation.py:41 | the rendered reference list reads back to the same references, in order |
| ResponseGeneration.UserPrompt | app/services/response_generation.py:41 | the prompt starts with the template and ends with the rendered reference list |
| ResponseGeneration.GenerateResponse | app/services/response_generation.py:30-48 | None when the prompts are missing, a key is missing or the query object is falsy; otherwise the completion of the assembled prompts; it never raises |
| ResponseGeneration.RequestCarriesPrompts | app/services/response_generation.py:40-43 | the model gets the system prompt unchanged first, then the user prompt, which starts with the template and from which the references can be read back |
| UserRouter.StoredShareIds | app/routers/user.py:80-86 | every point of one call carries the request's file id, the one doc id and its own chunk's text and embedding |
| UserRouter.UpsertedAllAppends | app/routers/user.py:84-86 | upserts under fresh, distinct ids append the points in order |
| UserRouter.UpsertedUnderSnoc | app/routers/user.py:84-86 | one more chunk upserted under the next id extends the stored series by that chunk's point |
| UserRouter.FirstRefusedMeaning | app/routers/user.py:84-86 | every upsert before the first refused one goes through, the refused one does not, and none is refused exactly when every chunk's upsert goes through |
| UserRouter.FirstRefusedStep | app/routers/user.py:84-86 | while no earlier upsert was refused, the next chunk's upsert either goes through or is the first refused one |
| UserRouter.UpsertNext | app/routers/user.py:84-86 | one turn of the loop sends exactly one request and draws one point id; it succeeds exactly when that upsert goes through (no outage, the collection exists, the vector has its size); on success the chunk's point joins the series after the earlier chunks; on failure the store is unchanged and this chunk is the first refused one |
| UserRouter.UpsertChunks | app/routers/user.py:84-86 | upsert_data once per chunk, in order, one request each; it stores exactly the chunks before the first refused upsert and succeeds exactly when no upsert is refused; the first failure stops the loop, one request past it, and the earlier chunks stay stored |
| UserRouter.StoredChunksAppend | app/routers/user.py:80-97 | what one call stores is appended after the existing points, one per chunk and in chunk order, and stays after a failure |
| UserRouter.ConnectedCollections | app/services/vector_store.py:88-92 | after connecting, the default collection exists and every earlier collection keeps its parameters |
| UserRouter.ParseFiles | app/routers/user.py:67-97 | a failed or empty parse stores nothing; when a connection fails nothing is upserted and the reply is 500; every failure is HTTP 500; for a non-empty parse the reply is 200 exactly when both connections report 200 and every chunk's upsert goes through, and every chunk is then stored under one doc id |
| UserRouter.ConnectForParse | app/routers/user.py:77-78 | reports 200 exactly when the manager's own connection and connect_qdrant both go through; the stored points are untouched and an existing collection is left alone |
| UserRouter.StoreChunks | app/routers/user.py:77-94 | upserts only when connect_qdrant reports 200: otherwise HTTP 500 with no point stored; the reply is 200 exactly when both connections report 200 and then every chunk's upsert goes through; once connected, the chunks before the first refused upsert are stored and the request count says how far the loop got |
| UserRouter.DrawAndUpsert | app/routers/user.py:80-86 | the doc id is drawn once, before the chunks' point ids; the upserts store exactly the chunks before the first refused one, and the result is success exactly when none is refused |
| UserRouter.References | app/routers/user.py:127 | the payload text of each result, in result order |
| UserRouter.Answer | app/routers/user.py:117-136 | succeeds exactly when the engine can be built, echoes the query and carries generate_response's answer for the references |
| UserRouter.AtMostFiveReferences | app/routers/user.py:121-127 | at most five references reach the prompt |
| UserRouter.ReferencesComeFromScan | app/routers/user.py:127 | every reference is the text of a scanned payload |
| UserRouter.UserQueryAsWritten | app/routers/user.py:101-139 | as written, every query ends in HTTP 500 and the stored points are unchanged |
| UserRouter.UserQuery | app/routers/user.py:101-139 | with the intended scan: every failure is 500, and when the requests go through the reply is the answer over the stored points |

## Left out

- PDF extraction, the embedding and chat services, and the faiss index are
  parameters. Their internals are not modelled.
- Floating-point numbers: vectors are sequences of reals that are carried,
  never computed on. faiss's float32 L2 distances are not modelled, and so
  the cosine metric of the collection (app/services/vector_store.py:91)
  against the L2 index (line 15) is recorded but has no effect.
- Qdrant's transport and server errors are one `outage` predicate over the
  request number. HTTP detail messages are dropped; only status codes are
  kept.
- Qdrant's scroll returns points ordered by id. The model returns them in
  storage order.
- uuid4 is a counter that never repeats. Randomness is not modelled.
- Upload writes the file with `shutil.copyfileobj`. The model records the
  path and ignores the bytes and any I/O error.
- `getattr(file, 'filename', 'unknown')` is modelled as an optional name.
- Reading prompt_studio.json is a parameter: the parsed object, or None
  when reading fails. Its values are taken to be strings.
- `LLMService()` and `OpenAI()` construction failures are not modelled.
- The model name comes from the environment.
- ResponseGeneration.NonPrintable: Python's `str.isprintable` is
  approximated. The model escapes the controls, the separators other than
  ' ', the format characters it lists, the private use areas, U+FFF0–U+FFFB,
  U+FFFE, U+FFFF, and everything from U+E01F0 on. It writes raw the other
  unassigned code points (for example U+0378) and the format characters it
  does not list (for example U+0890, U+08E2 and U+13430–U+1343F), where
  Python escapes them. Which of these Python escapes depends on the Unicode
  version it was built with.
- The upload directory is the class attribute `UPLOAD_TEMP_DIR`, shared by
  every handler (app/services/process_file.py:20, 24). The model passes it
  to each handler's constructor instead. So nothing ties the directory
  `Upload` writes to the one `ParseFiles` reads; the caller must pass the
  same one.
- The FastAPI layer is not modelled: main.py, `root()`, `upload_file` and
  the route decorators.
- Logging is not modelled.
- Concurrent requests against the shared store are not modelled.
- UserRouter.ParseFiles: the parse_files body is split across helper
  methods (StoreChunks, ConnectForParse, DrawAndUpsert, UpsertChunks,
  UpsertNext). The source is one
  function; the split keeps each proof small.
- ProcessFile.ChunkElements: the chunking loop is a module-level method
  rather than part of `ParseFile`, for the same reason.
- UserRouter.UserQuery: the reply is pinned down only when the
  manager's connection and the scroll reach the server. When a transport
  failure hits, the contract says only that the result is 500 or the answer.

## Findings

| source | as written | input that shows it | evidently intended | confidence | as-written member | corrected member |
|---|---|---|---|---|---|---|
| app/services/vector_store.py:131 | `self.self.qdrant_client.scroll(...)`: a manager has no attribute `self`, so every call raises AttributeError and every `user_query` ends in HTTP 500 | any query, on any store | `self.qdrant_client.scroll(...)` over the manager's collection | not executed | QdrantStore.QuadrantManager.FetchAllVectorsAndPayloads, UserRouter.UserQueryAsWritten | QdrantStore.QuadrantManager.FetchAllVectorsAndPayloadsIntended, UserRouter.UserQuery |
