/** app/routers/user.py: the two request handlers that drive the pipeline.

    parse_files chunks a stored PDF, connects to the vector database and
    upserts every chunk; user_query embeds the question, scans the stored
    points, searches them and asks the chat model. Both catch every
    exception and answer HTTP 500 instead. */
module UserRouter {
  import opened Base
  import opened ProcessFile
  import opened FaissSearch
  import opened QdrantStore
  import opened ResponseGeneration

  /** The body parse_files returns on success. */
  datatype ParseReply = ParseReply(statusCode: int, message: string)

  const ParsedOk: ParseReply := ParseReply(200, "Parsing completed and data saved in Qdrant!")

  /** The body user_query returns: the query, and the answer or None. */
  datatype QueryReply = QueryReply(query: string, response: Option<string>)

  /** The number of neighbours user_query asks for. */
  const QueryTopK: int := 5

  /** The record upsert_data stores for one chunk under point id `id`. */
  function ChunkPoint(collection: string, id: string, chunk: ChunkRecord, fileId: string, docId: string): Record {
    Record(collection, Point(id, chunk.embedding, Payload(docId, chunk.text, fileId)))
  }

  /** The records stored for the chunks, the j-th under the j-th id. */
  function Stored(collection: string, chunks: seq<ChunkRecord>, ids: seq<string>, fileId: string, docId: string)
    : (rs: seq<Record>)
    requires |ids| == |chunks|
    ensures |rs| == |chunks|
  {
    seq(|chunks|, j requires 0 <= j < |chunks| => ChunkPoint(collection, ids[j], chunks[j], fileId, docId))
  }

  /** Every record of one parse_files call carries the request's file id and
      the one doc id drawn for the call, next to its own chunk's text and
      embedding. */
  lemma {:induction false} StoredShareIds(collection: string, chunks: seq<ChunkRecord>, ids: seq<string>,
                                          fileId: string, docId: string)
    requires |ids| == |chunks|
    ensures var rs := Stored(collection, chunks, ids, fileId, docId);
            forall j :: 0 <= j < |rs| ==>
              && rs[j].collection == collection
              && rs[j].point.payload.docId == docId && rs[j].point.payload.fileId == fileId
              && rs[j].point.payload.text == chunks[j].text && rs[j].point.vector == chunks[j].embedding
              && rs[j].point.id == ids[j]
  {
  }

  lemma {:induction false} StoredSnoc(collection: string, chunks: seq<ChunkRecord>, ids: seq<string>,
                                      fileId: string, docId: string, i: nat)
    requires i < |chunks| && i < |ids|
    ensures Stored(collection, chunks[..i + 1], ids[..i + 1], fileId, docId)
            == Stored(collection, chunks[..i], ids[..i], fileId, docId)
               + [ChunkPoint(collection, ids[i], chunks[i], fileId, docId)]
  {
  }

  /** The store after a series of upserts, in order. */
  function UpsertedAll(records: seq<Record>, recs: seq<Record>): seq<Record>
    decreases |recs|
  {
    if recs == [] then records
    else Upserted(UpsertedAll(records, recs[..|recs| - 1]), recs[|recs| - 1])
  }

  /** Upserts under fresh, pairwise distinct ids append the new points after
      the existing ones, in order. */
  lemma {:induction false} UpsertedAllAppends(records: seq<Record>, recs: seq<Record>, drawn: seq<string>)
    requires IdsDrawn(records, drawn)
    requires forall j :: 0 <= j < |recs| ==> recs[j].point.id !in drawn
    requires forall i, j :: 0 <= i < j < |recs| ==> recs[i].point.id != recs[j].point.id
    ensures UpsertedAll(records, recs) == records + recs
    decreases |recs|
  {
    if recs != [] {
      var init := recs[..|recs| - 1];
      var last := recs[|recs| - 1];
      UpsertedAllAppends(records, init, drawn);
      var before := records + init;
      forall i | 0 <= i < |before|
        ensures !SameKey(before[i], last)
      {
        if i < |records| {
          assert records[i].point.id in drawn;
        } else {
          assert before[i] == recs[i - |records|];
        }
      }
      UpsertFreshAppends(before, last);
      assert before + [last] == records + recs;
    }
  }

  /** The store holds the points of the first |ids| chunks, upserted in
      order after `records`, the j-th under the j-th id. */
  ghost predicate UpsertedUnder(records: seq<Record>, after: seq<Record>, collection: string,
                                chunks: seq<ChunkRecord>, ids: seq<string>, fileId: string, docId: string)
    requires |ids| <= |chunks|
  {
    after == UpsertedAll(records, Stored(collection, chunks[..|ids|], ids, fileId, docId))
  }

  /** One more chunk upserted under the next id extends the series of
      upserts by that chunk's point. */
  lemma {:induction false} UpsertedUnderSnoc(records: seq<Record>, before: seq<Record>, after: seq<Record>,
                                             collection: string, chunks: seq<ChunkRecord>, ids: seq<string>,
                                             fileId: string, docId: string, id: string)
    requires |ids| < |chunks|
    requires UpsertedUnder(records, before, collection, chunks, ids, fileId, docId)
    requires after == Upserted(before, ChunkPoint(collection, id, chunks[|ids|], fileId, docId))
    ensures UpsertedUnder(records, after, collection, chunks, ids + [id], fileId, docId)
  {
    var i := |ids|;
    var all := ids + [id];
    assert all[..i] == ids && all[i] == id;
    StoredSnoc(collection, chunks, all, fileId, docId, i);
    assert all[..i + 1] == all;
    var init := Stored(collection, chunks[..i], ids, fileId, docId);
    var rec := ChunkPoint(collection, id, chunks[i], fileId, docId);
    assert (init + [rec])[..|init|] == init;
  }

  /** Whether the upsert of `chunk` into `collection` goes through when the
      server receives it as its request number `n`: no outage, the
      collection exists and the embedding has the collection's size. */
  ghost predicate UpsertGoesThrough(outage: nat -> bool, n: nat, collections: map<string, VectorParams>,
                                    collection: string, chunk: ChunkRecord)
  {
    && !outage(n)
    && collection in collections
    && |chunk.embedding| == collections[collection].size
  }

  /** Whether the upserts of the first `count` chunks all go through, the
      j-th as request number `requests + j`. */
  ghost predicate UpsertsGoThrough(outage: nat -> bool, requests: nat, collections: map<string, VectorParams>,
                                   collection: string, chunks: seq<ChunkRecord>, count: nat)
    requires count <= |chunks|
  {
    forall j :: 0 <= j < count ==> UpsertGoesThrough(outage, requests + j, collections, collection, chunks[j])
  }

  /** The position of the first chunk whose upsert is refused when the
      chunks are upserted one by one from request number `n` on, or |chunks|
      when every upsert goes through. */
  ghost function FirstRefused(outage: nat -> bool, n: nat, collections: map<string, VectorParams>,
                              collection: string, chunks: seq<ChunkRecord>): (k: nat)
    ensures k <= |chunks|
    decreases |chunks|
  {
    if chunks == [] || !UpsertGoesThrough(outage, n, collections, collection, chunks[0]) then 0
    else 1 + FirstRefused(outage, n + 1, collections, collection, chunks[1..])
  }

  /** Every upsert before the first refused one goes through, the refused
      one does not, and no upsert is refused exactly when all of them go
      through. */
  lemma {:induction false} FirstRefusedMeaning(outage: nat -> bool, n: nat, collections: map<string, VectorParams>,
                                               collection: string, chunks: seq<ChunkRecord>)
    ensures var k := FirstRefused(outage, n, collections, collection, chunks);
            && UpsertsGoThrough(outage, n, collections, collection, chunks, k)
            && (k < |chunks| ==> !UpsertGoesThrough(outage, n + k, collections, collection, chunks[k]))
            && (k == |chunks| <==> UpsertsGoThrough(outage, n, collections, collection, chunks, |chunks|))
    decreases |chunks|
  {
    var k := FirstRefused(outage, n, collections, collection, chunks);
    if chunks != [] && UpsertGoesThrough(outage, n, collections, collection, chunks[0]) {
      var tail := chunks[1..];
      FirstRefusedMeaning(outage, n + 1, collections, collection, tail);
      forall j | 0 <= j < k
        ensures UpsertGoesThrough(outage, n + j, collections, collection, chunks[j])
      {
        if j > 0 {
          assert chunks[j] == tail[j - 1] && n + j == n + 1 + (j - 1);
        }
      }
      if k < |chunks| {
        assert chunks[k] == tail[k - 1] && n + k == n + 1 + (k - 1);
      }
    }
  }

  /** While the first i upserts are not refused, the next one decides
      whether the first i + 1 are not either, or the i-th is the first
      refused one. */
  lemma {:induction false} FirstRefusedStep(outage: nat -> bool, n: nat, collections: map<string, VectorParams>,
                                            collection: string, chunks: seq<ChunkRecord>, i: nat)
    requires i < |chunks| && i <= FirstRefused(outage, n, collections, collection, chunks)
    ensures UpsertGoesThrough(outage, n + i, collections, collection, chunks[i]) ==>
              i + 1 <= FirstRefused(outage, n, collections, collection, chunks)
    ensures !UpsertGoesThrough(outage, n + i, collections, collection, chunks[i]) ==>
              FirstRefused(outage, n, collections, collection, chunks) == i
    decreases i
  {
    if i > 0 {
      var tail := chunks[1..];
      FirstRefusedStep(outage, n + 1, collections, collection, tail, i - 1);
      assert tail[i - 1] == chunks[i] && n + 1 + (i - 1) == n + i;
    }
  }

  /** The outcome of upserting the chunks one by one from request number
      `before` on, stopping at the first refused upsert: the `stored` chunks
      before it reached the store, the loop succeeded (`ok`) exactly when no
      upsert was refused, and the request counter stands at `after`, one past
      the refused request on failure. */
  ghost predicate UpsertsOutcome(ok: bool, stored: nat, outage: nat -> bool, before: nat, after: nat,
                                 collections: map<string, VectorParams>, collection: string,
                                 chunks: seq<ChunkRecord>)
  {
    && stored == FirstRefused(outage, before, collections, collection, chunks)
    && (ok <==> stored == |chunks|)
    && after == before + (if ok then stored else stored + 1)
  }

  /** The upsert loop of parse_files: upsert_data once per chunk, in order,
      all under one doc id; the first failure stops the loop and leaves the
      chunks already upserted in the store. */
  method UpsertChunks(manager: QuadrantManager, client: QdrantServer, chunks: seq<ChunkRecord>,
                      fileId: string, docId: string, uuids: UuidSource)
    returns (r: Result<(), Exc>, ghost stored: nat)
    requires uuids.Valid()
    modifies client, uuids
    ensures uuids.Valid()
    ensures stored <= |chunks|
    ensures r.Success? ==> stored == |chunks|
    ensures r.Failure? ==> stored < |chunks| && r.error.ServiceError?
    ensures UpsertsOutcome(r.Success?, stored, client.outage, old(client.requests), client.requests,
                           client.collections, manager.collectionName, chunks)
    ensures var d0 := |old(uuids.drawn)|;
            && |uuids.drawn| == d0 + (if r.Success? then stored else stored + 1)
            && uuids.drawn[..d0] == old(uuids.drawn)
            && UpsertedUnder(old(client.records), client.records, manager.collectionName, chunks,
                             uuids.drawn[d0..d0 + stored], fileId, docId)
    ensures client.collections == old(client.collections)
  {
    ghost var drawn0 := uuids.drawn;
    ghost var records0 := client.records;
    ghost var requests0 := client.requests;
    ghost var ids: seq<string> := [];
    for i := 0 to |chunks|
      invariant uuids.Valid()
      invariant |ids| == i && uuids.drawn == drawn0 + ids
      invariant client.collections == old(client.collections)
      invariant client.requests == requests0 + i
      invariant i <= FirstRefused(client.outage, requests0, client.collections, manager.collectionName, chunks)
      invariant UpsertedUnder(records0, client.records, manager.collectionName, chunks, ids, fileId, docId)
    {
      var res;
      ghost var id;
      res, id := UpsertNext(manager, client, chunks, i, fileId, docId, uuids, records0, ids, requests0);
      if res.Failure? {
        assert uuids.drawn == drawn0 + (ids + [id]);
        DrawnPrefix(drawn0, ids + [id], i);
        assert (ids + [id])[..i] == ids;
        return res, i;
      }
      ids := ids + [id];
    }
    DrawnPrefix(drawn0, ids, |chunks|);
    assert ids[..|chunks|] == ids;
    return Success(()), |chunks|;
  }

  /** One turn of the upsert loop: upsert_data for the next chunk, which
      draws its point id `id`. */
  method UpsertNext(manager: QuadrantManager, client: QdrantServer, chunks: seq<ChunkRecord>, i: nat,
                    fileId: string, docId: string, uuids: UuidSource, ghost records0: seq<Record>,
                    ghost ids: seq<string>, ghost requests0: nat)
    returns (r: Result<(), Exc>, ghost id: string)
    requires uuids.Valid()
    requires i == |ids| < |chunks|
    requires UpsertedUnder(records0, client.records, manager.collectionName, chunks, ids, fileId, docId)
    requires client.requests == requests0 + i
    requires i <= FirstRefused(client.outage, requests0, client.collections, manager.collectionName, chunks)
    modifies client, uuids
    ensures uuids.Valid()
    ensures uuids.drawn == old(uuids.drawn) + [id]
    ensures client.collections == old(client.collections)
    ensures client.requests == old(client.requests) + 1
    ensures r.Success? <==> UpsertGoesThrough(client.outage, old(client.requests), client.collections,
                                              manager.collectionName, chunks[i])
    ensures r.Success? ==> i + 1 <= FirstRefused(client.outage, requests0, client.collections,
                                                 manager.collectionName, chunks)
    ensures r.Failure? ==> i == FirstRefused(client.outage, requests0, client.collections, manager.collectionName,
                                             chunks)
    ensures r.Failure? ==> r.error.ServiceError? && client.records == old(client.records)
    ensures r.Success? ==> UpsertedUnder(records0, client.records, manager.collectionName, chunks, ids + [id],
                                         fileId, docId)
  {
    ghost var before := client.records;
    r := manager.UpsertData(client, chunks[i], fileId, docId, uuids);
    id := uuids.drawn[|old(uuids.drawn)|];
    assert uuids.drawn == old(uuids.drawn) + [id];
    FirstRefusedStep(client.outage, requests0, client.collections, manager.collectionName, chunks, i);
    if r.Success? {
      UpsertedUnderSnoc(records0, before, client.records, manager.collectionName, chunks, ids, fileId, docId, id);
    }
  }

  /** The ids drawn after `drawn0`, read back from the full sequence. */
  lemma {:induction false} DrawnPrefix(drawn0: seq<string>, ids: seq<string>, n: nat)
    requires n <= |ids|
    ensures (drawn0 + ids)[..|drawn0|] == drawn0
    ensures (drawn0 + ids)[|drawn0|..|drawn0| + n] == ids[..n]
  {
  }

  /** The store after a parse_files call that got past parsing: the ids
      drawn before the call are still the first ones; the next id drawn is the
      doc id, and the ones after it are the point ids of the first `stored`
      chunks, which were upserted in order under that doc id. */
  ghost predicate StoredUnderDocId(before: seq<Record>, after: seq<Record>, collection: string,
                                   chunks: seq<ChunkRecord>, stored: nat, drawnBefore: seq<string>,
                                   drawnAfter: seq<string>, fileId: string)
  {
    var d0 := |drawnBefore|;
    && stored <= |chunks|
    && d0 + 1 + stored <= |drawnAfter|
    && drawnAfter[..d0] == drawnBefore
    && after == UpsertedAll(before, Stored(collection, chunks[..stored], drawnAfter[d0 + 1..d0 + 1 + stored],
                                           fileId, drawnAfter[d0]))
  }

  /** While every stored id came from the generator, what parse_files
      stores is appended after the points already there, one point per chunk
      and in chunk order, none of them replacing another; so the chunks
      upserted before a failure stay in the store. */
  lemma {:induction false} StoredChunksAppend(before: seq<Record>, after: seq<Record>, collection: string,
                                              chunks: seq<ChunkRecord>, stored: nat, drawnBefore: seq<string>,
                                              drawnAfter: seq<string>, fileId: string)
    requires StoredUnderDocId(before, after, collection, chunks, stored, drawnBefore, drawnAfter, fileId)
    requires IdsDrawn(before, drawnBefore)
    requires forall i, j :: 0 <= i < j < |drawnAfter| ==> drawnAfter[i] != drawnAfter[j]
    ensures var d0 := |drawnBefore|;
            after == before + Stored(collection, chunks[..stored], drawnAfter[d0 + 1..d0 + 1 + stored], fileId,
                                     drawnAfter[d0])
  {
    var d0 := |drawnBefore|;
    var ids := drawnAfter[d0 + 1..d0 + 1 + stored];
    var recs := Stored(collection, chunks[..stored], ids, fileId, drawnAfter[d0]);
    StoredShareIds(collection, chunks[..stored], ids, fileId, drawnAfter[d0]);
    forall j | 0 <= j < |recs|
      ensures recs[j].point.id !in drawnBefore
    {
      assert recs[j].point.id == drawnAfter[d0 + 1 + j];
    }
    forall i, j | 0 <= i < j < |recs|
      ensures recs[i].point.id != recs[j].point.id
    {
      assert recs[i].point.id == drawnAfter[d0 + 1 + i] && recs[j].point.id == drawnAfter[d0 + 1 + j];
    }
    UpsertedAllAppends(before, recs, drawnBefore);
  }

  /** Whether both connections parse_files makes report 200, for a server
      whose request counter stands at `requests` and whose collections are
      `collections`: the manager's own connection (one get_collections, and
      a create_collection when the collection is missing), then
      connect_qdrant once more, which finds the collection and needs only
      its get_collections to succeed. */
  ghost predicate ParseConnects(outage: nat -> bool, requests: nat, collections: map<string, VectorParams>) {
    var first := if DefaultCollection in collections then 1 else 2;
    && !outage(requests)
    && (DefaultCollection in collections || !outage(requests + 1))
    && !outage(requests + first)
  }

  /** The request counter once both connections of parse_files reported
      200: one get_collections, a create_collection when the collection was
      missing, and connect_qdrant's get_collections. */
  function ConnectedRequests(requests: nat, collections: map<string, VectorParams>): nat {
    requests + (if DefaultCollection in collections then 1 else 2) + 1
  }

  /** The collections once both connections reported 200: the default
      collection exists, created with the default parameters if it was
      missing. */
  function ConnectedCollections(collections: map<string, VectorParams>): (cs: map<string, VectorParams>)
    ensures DefaultCollection in cs
    ensures forall name :: name in collections ==> name in cs && cs[name] == collections[name]
  {
    if DefaultCollection in collections then collections else collections[DefaultCollection := DefaultParams]
  }

  /** Whether parse_files stores every chunk and reports 200: both
      connections report 200 and then every chunk's upsert goes through, in
      order, on the requests that follow. */
  ghost predicate ParseStores(outage: nat -> bool, requests: nat, collections: map<string, VectorParams>,
                              chunks: seq<ChunkRecord>)
  {
    && ParseConnects(outage, requests, collections)
    && UpsertsGoThrough(outage, ConnectedRequests(requests, collections), ConnectedCollections(collections),
                        DefaultCollection, chunks, |chunks|)
  }

  /** parse_files(file_id): parses the stored PDF, connects, draws one doc id
      and upserts every chunk under it. An empty parse (400), a failed
      connection (401) and every other exception all surface as 500.
      `stored` counts the chunks that reached the store; they stay there
      whatever happens afterwards. */
  method ParseFiles(fileId: string, fs: FileSystem, uploadDir: string, extract: Extractor, embed: Embedder,
                    server: QdrantServer, uuids: UuidSource)
    returns (r: Result<ParseReply, Exc>, ghost stored: nat)
    requires uuids.Valid()
    modifies server, uuids
    ensures uuids.Valid()
    ensures r.Failure? ==> r.error == HttpException(500)
    ensures r.Success? ==> r.value == ParsedOk
    ensures var parsed := ParseFileSpec(fs.files, uploadDir, fileId, DefaultChunkSize, extract, embed);
            && ((parsed.Failure? || parsed.value == []) ==>
                  && r.Failure? && stored == 0
                  && server.records == old(server.records)
                  && server.collections == old(server.collections)
                  && uuids.drawn == old(uuids.drawn))
            && (r.Success? ==> parsed.Success? && stored == |parsed.value|)
            && (parsed.Success? && parsed.value != [] ==>
                  && StoredUnderDocId(old(server.records), server.records, DefaultCollection, parsed.value, stored,
                                      old(uuids.drawn), uuids.drawn, fileId)
                  && (r.Success? <==> ParseStores(server.outage, old(server.requests), old(server.collections),
                                                  parsed.value)))
    ensures !ParseConnects(server.outage, old(server.requests), old(server.collections)) ==>
              r.Failure? && stored == 0 && server.records == old(server.records)
    ensures r.Success? ==> ParseConnects(server.outage, old(server.requests), old(server.collections))
    ensures DefaultCollection in old(server.collections) ==> server.collections == old(server.collections)
  {
    var handler := new FileUploadHandler(None, uploadDir);
    var attributes := handler.GetFilePath(fs, fileId);
    if attributes.Failure? {
      return Failure(HttpException(500)), 0;
    }
    var parsed := handler.ParseFile(fs, fileId, DefaultChunkSize, extract, embed);
    if parsed.Failure? {
      return Failure(HttpException(500)), 0;
    }
    if parsed.value == [] {
      // HTTPException(400), caught by the handler's own except clause
      return Failure(HttpException(500)), 0;
    }
    ghost var connected;
    r, stored, connected := StoreChunks(fileId, parsed.value, server, uuids);
  }

  /** The second half of parse_files, once the chunks are parsed: connect
      (the manager's own connection, then connect_qdrant once more), draw the
      doc id, and upsert the chunks only when the status is 200. */
  method StoreChunks(fileId: string, chunks: seq<ChunkRecord>, server: QdrantServer, uuids: UuidSource)
    returns (r: Result<ParseReply, Exc>, ghost stored: nat, ghost connected: bool)
    requires uuids.Valid()
    modifies server, uuids
    ensures uuids.Valid()
    ensures connected <==> ParseConnects(server.outage, old(server.requests), old(server.collections))
    ensures r.Failure? ==> r.error == HttpException(500)
    ensures r.Success? ==> connected && r.value == ParsedOk && stored == |chunks|
    ensures !connected ==> r == Failure(HttpException(500)) && stored == 0 && server.records == old(server.records)
    ensures r.Success? <==> ParseStores(server.outage, old(server.requests), old(server.collections), chunks)
    ensures connected ==>
              && server.collections == ConnectedCollections(old(server.collections))
              && UpsertsOutcome(r.Success?, stored, server.outage,
                                ConnectedRequests(old(server.requests), old(server.collections)), server.requests,
                                server.collections, DefaultCollection, chunks)
    ensures StoredUnderDocId(old(server.records), server.records, DefaultCollection, chunks, stored,
                             old(uuids.drawn), uuids.drawn, fileId)
    ensures DefaultCollection in old(server.collections) ==> server.collections == old(server.collections)
  {
    ghost var n := server.requests;
    ghost var collections := server.collections;
    var manager, response := ConnectForParse(server);
    connected := response.code == 200;
    if response.code == 200 {
      var upserted;
      FirstRefusedMeaning(server.outage, ConnectedRequests(n, collections), ConnectedCollections(collections),
                          DefaultCollection, chunks);
      upserted, stored := DrawAndUpsert(manager, server, chunks, fileId, uuids);
      if upserted.Failure? {
        return Failure(HttpException(500)), stored, connected;
      }
      return Success(ParsedOk), stored, connected;
    }
    ghost var d0 := |uuids.drawn|;
    var docId := uuids.Next();
    // HTTPException(401), caught by the handler's own except clause
    assert Stored(DefaultCollection, chunks[..0], uuids.drawn[d0 + 1..d0 + 1], fileId, docId) == [];
    return Failure(HttpException(500)), 0, connected;
  }

  /** The connections of parse_files: QuadrantManager() connects once, then
      connect_qdrant connects again; the second status decides. */
  method ConnectForParse(server: QdrantServer) returns (manager: QuadrantManager, response: Status)
    modifies server
    ensures manager.collectionName == DefaultCollection
    ensures response.code == 200 <==> ParseConnects(server.outage, old(server.requests), old(server.collections))
    ensures response.code == 200 ==>
              && server.requests == ConnectedRequests(old(server.requests), old(server.collections))
              && server.collections == ConnectedCollections(old(server.collections))
    ensures server.records == old(server.records)
    ensures DefaultCollection in old(server.collections) ==> server.collections == old(server.collections)
  {
    manager := new QuadrantManager(server, DefaultCollection);
    var client;
    client, response := manager.ConnectQdrant(DefaultCollection);
  }

  /** The connected branch of parse_files: draw the doc id, then upsert the
      chunks under it. */
  method DrawAndUpsert(manager: QuadrantManager, client: QdrantServer, chunks: seq<ChunkRecord>, fileId: string,
                       uuids: UuidSource)
    returns (r: Result<(), Exc>, ghost stored: nat)
    requires uuids.Valid()
    modifies client, uuids
    ensures uuids.Valid()
    ensures r.Success? ==> stored == |chunks|
    ensures r.Failure? ==> stored < |chunks| && r.error.ServiceError?
    ensures UpsertsOutcome(r.Success?, stored, client.outage, old(client.requests), client.requests,
                           client.collections, manager.collectionName, chunks)
    ensures StoredUnderDocId(old(client.records), client.records, manager.collectionName, chunks, stored,
                             old(uuids.drawn), uuids.drawn, fileId)
    ensures client.collections == old(client.collections)
  {
    ghost var d0 := |uuids.drawn|;
    var docId := uuids.Next();
    assert uuids.drawn[..d0] == old(uuids.drawn);
    r, stored := UpsertChunks(manager, client, chunks, fileId, docId, uuids);
    assert uuids.drawn[..d0] == old(uuids.drawn) by {
      assert uuids.drawn[..d0] == uuids.drawn[..d0 + 1][..d0];
    }
    assert uuids.drawn[d0] == docId;
  }

  /** The reference texts: the payload text of every search result, in
      result order. */
  function References(results: seq<SearchResult<Payload>>): (refs: seq<string>)
    ensures |refs| == |results|
    ensures forall j :: 0 <= j < |results| ==> refs[j] == results[j].payload.text
  {
    seq(|results|, j requires 0 <= j < |results| => results[j].payload.text)
  }

  /** The store scan user_query works on: the collection's points, at most
      10000 of them. */
  function StoreScan(records: seq<Record>): Scan {
    ScanOf(Take(PointsOf(records, DefaultCollection), 10000))
  }

  /** The references user_query would send for a scan: None when the search
      engine cannot be built from it. */
  function QueryReferences(scan: Scan, embedding: Vector, knn: Knn): Result<seq<string>, Exc> {
    match NewSearchEngine(scan.vectors, scan.payloads)
    case Failure(e) => Failure(e)
    case Success(engine) => Success(References(SearchOutcome(engine, embedding, QueryTopK, knn)))
  }

  /** Steps 3 to 5 of user_query over a given scan: build the engine, search
      the top five, extract the references and generate the answer. */
  function Answer(queryText: string, embedding: Vector, scan: Scan, knn: Knn, llm: LLMService,
                  prompts: Option<map<string, string>>): (r: Result<QueryReply, Exc>)
    ensures r.Success? <==> scan.vectors != [] && forall k :: 0 <= k < |scan.vectors| ==> |scan.vectors[k]| == |scan.vectors[0]|
    ensures r.Failure? ==> r.error == HttpException(500)
    ensures r.Success? ==>
              && r.value.query == queryText
              && QueryReferences(scan, embedding, knn).Success?
              && r.value.response
                 == GenerateResponse(llm, prompts, Some(QueryObject(queryText, QueryReferences(scan, embedding, knn).value)))
  {
    match QueryReferences(scan, embedding, knn)
    case Failure(_) => Failure(HttpException(500))
    case Success(refs) => Success(QueryReply(queryText, GenerateResponse(llm, prompts, Some(QueryObject(queryText, refs)))))
  }

  /** Given that faiss answers with a row of k slots, at most five references
      reach the prompt. */
  lemma {:induction false} AtMostFiveReferences(scan: Scan, embedding: Vector, knn: Knn)
    requires knn(scan.vectors, embedding, QueryTopK).Some? ==> |knn(scan.vectors, embedding, QueryTopK).value| == QueryTopK
    requires QueryReferences(scan, embedding, knn).Success?
    ensures |QueryReferences(scan, embedding, knn).value| <= 5
  {
    var engine := NewSearchEngine(scan.vectors, scan.payloads).value;
    SearchAtMostTopK(engine, embedding, QueryTopK, knn);
  }

  /** Every reference is the text of one of the scanned payloads. */
  lemma {:induction false} ReferencesComeFromScan(scan: Scan, embedding: Vector, knn: Knn)
    requires QueryReferences(scan, embedding, knn).Success?
    ensures var refs := QueryReferences(scan, embedding, knn).value;
            forall j :: 0 <= j < |refs| ==> exists i :: 0 <= i < |scan.payloads| && refs[j] == scan.payloads[i].text
  {
    var engine := NewSearchEngine(scan.vectors, scan.payloads).value;
    var refs := QueryReferences(scan, embedding, knn).value;
    var answer := knn(engine.embeddings, embedding, QueryTopK);
    if answer.Some? && Formatted(engine.payloads, answer.value).Some? {
      var row := answer.value;
      var rs := Formatted(engine.payloads, row).value;
      assert SearchOutcome(engine, embedding, QueryTopK, knn) == rs;
      assert engine.payloads == scan.payloads;
      FormattedFromSlots(engine.payloads, row);
      forall j | 0 <= j < |refs|
        ensures exists i :: 0 <= i < |scan.payloads| && refs[j] == scan.payloads[i].text
      {
        assert refs == References(rs);
        assert FromSlot(engine.payloads, row, rs[j]);
        var idx := row[rs[j].rank - 1].index;
        var found := PyIndex(scan.payloads, idx);
        assert found == Some(rs[j].payload);
        var i := if idx >= 0 then idx else |scan.payloads| + idx;
        assert scan.payloads[i] == rs[j].payload;
        assert refs[j] == scan.payloads[i].text;
      }
    } else {
      assert SearchOutcome(engine, embedding, QueryTopK, knn) == [];
    }
  }

  /** user_query as written: the scan fails on the missing `self.self`
      attribute, so every request ends in 500, after the manager's
      connection has run. */
  method UserQueryAsWritten(queryText: string, embed: Embedder, server: QdrantServer, knn: Knn,
                            llm: LLMService, prompts: Option<map<string, string>>)
    returns (r: Result<QueryReply, Exc>)
    modifies server
    ensures r == Failure(HttpException(500))
    ensures server.records == old(server.records)
  {
    var manager := new QuadrantManager(server, DefaultCollection);
    var embedding := GenerateEmbeddings(embed, queryText);
    if embedding.Failure? {
      return Failure(HttpException(500));
    }
    var scan := manager.FetchAllVectorsAndPayloads();
    assert scan.Failure?;
    return Failure(HttpException(500));
  }

  /** user_query with the scan it evidently means: embed the query, scan the
      collection, build the engine, search the top five and generate the
      answer; any failure is 500. */
  method UserQuery(queryText: string, embed: Embedder, server: QdrantServer, knn: Knn,
                   llm: LLMService, prompts: Option<map<string, string>>)
    returns (r: Result<QueryReply, Exc>)
    modifies server
    ensures server.records == old(server.records)
    ensures r.Failure? ==> r.error == HttpException(500)
    ensures embed(queryText).Failure? ==> r.Failure?
    ensures r.Success? ==> r == Answer(queryText, embed(queryText).value, StoreScan(old(server.records)), knn, llm, prompts)
    ensures (forall n :: old(server.requests) <= n < old(server.requests) + 3 ==> !server.outage(n))
            && embed(queryText).Success? ==>
              r == Answer(queryText, embed(queryText).value, StoreScan(old(server.records)), knn, llm, prompts)
  {
    var manager := new QuadrantManager(server, DefaultCollection);
    var embedding := GenerateEmbeddings(embed, queryText);
    if embedding.Failure? {
      return Failure(HttpException(500));
    }
    var scan := manager.FetchAllVectorsAndPayloadsIntended();
    if scan.Failure? {
      return Failure(HttpException(500));
    }
    var engine := NewSearchEngine(scan.value.vectors, scan.value.payloads);
    if engine.Failure? {
      return Failure(HttpException(500));
    }
    var results := Search(engine.value, embedding.value, QueryTopK, knn);
    var references := References(results);
    var response := GenerateResponse(llm, prompts, Some(QueryObject(queryText, references)));
    return Success(QueryReply(queryText, response));
  }
}
