/** app/services/vector_store.py, QuadrantManager: the adapter between the
    pipeline and the Qdrant vector database.

    The database is modelled by its state (`QdrantServer`): the collections
    with their vector parameters and the stored points, in storage order.
    Its transport can fail; `outage(n)` says whether the n-th request the
    server receives fails, which stands for every network or server error. */
module QdrantStore {
  import opened Base
  import opened ProcessFile

  datatype Distance = Cosine | Euclid | Dot | Manhattan

  datatype VectorParams = VectorParams(size: nat, distance: Distance)

  /** The payload stored with every chunk: {"doc_id", "text", "file_id"}. */
  datatype Payload = Payload(docId: string, text: string, fileId: string)

  datatype Point = Point(id: string, vector: Vector, payload: Payload)

  /** A point together with the collection it is stored in. */
  datatype Record = Record(collection: string, point: Point)

  /** What connect_qdrant reports besides the client. */
  datatype Status = Status(code: int, message: string)

  const DefaultCollection: string := "philippine_history"

  /** The parameters connect_qdrant creates a missing collection with. */
  const DefaultParams: VectorParams := VectorParams(1536, Cosine)

  const Connected: Status := Status(200, "Connection Established!")
  const Unreachable: Status := Status(401, "Couldn't connect to vector database.")

  /** The store after upserting `rec`: a point with the same id in the same
      collection is replaced where it stands, otherwise `rec` is appended. */
  function Upserted(records: seq<Record>, rec: Record): (r: seq<Record>)
    ensures rec in r
    decreases |records|
  {
    if records == [] then [rec]
    else if records[0].collection == rec.collection && records[0].point.id == rec.point.id
    then [rec] + records[1..]
    else [records[0]] + Upserted(records[1..], rec)
  }

  predicate SameKey(a: Record, b: Record) {
    a.collection == b.collection && a.point.id == b.point.id
  }

  /** No two stored points of one collection share an id. */
  predicate UniqueKeys(records: seq<Record>) {
    forall i, j :: 0 <= i < j < |records| ==> !SameKey(records[i], records[j])
  }

  /** An upsert under a new id appends exactly one point and keeps all the
      others, in order. */
  lemma {:induction false} UpsertFreshAppends(records: seq<Record>, rec: Record)
    requires forall i :: 0 <= i < |records| ==> !SameKey(records[i], rec)
    ensures Upserted(records, rec) == records + [rec]
    decreases |records|
  {
    if records != [] {
      var tail := records[1..];
      assert forall i :: 0 <= i < |tail| ==> tail[i] == records[i + 1];
      UpsertFreshAppends(tail, rec);
      assert [records[0]] + (tail + [rec]) == records + [rec];
    }
  }

  /** An upsert under an id already stored replaces that one point: the
      store keeps its size, every position but one keeps its point, and
      that position now holds the new point. */
  lemma {:induction false} UpsertExistingReplaces(records: seq<Record>, rec: Record, k: nat)
    requires k < |records| && SameKey(records[k], rec)
    requires forall i :: 0 <= i < k ==> !SameKey(records[i], rec)
    ensures Upserted(records, rec) == records[k := rec]
    decreases |records|
  {
    if k > 0 {
      var tail := records[1..];
      assert forall i :: 0 <= i < k - 1 ==> tail[i] == records[i + 1];
      UpsertExistingReplaces(tail, rec, k - 1);
      assert [records[0]] + tail[k - 1 := rec] == records[k := rec];
    } else {
      assert [rec] + records[1..] == records[0 := rec];
    }
  }

  /** Upserting never creates a duplicate id within a collection. */
  lemma {:induction false} UpsertKeepsKeysUnique(records: seq<Record>, rec: Record)
    requires UniqueKeys(records)
    ensures UniqueKeys(Upserted(records, rec))
  {
    if exists k :: 0 <= k < |records| && SameKey(records[k], rec) {
      var k := FirstSameKey(records, rec);
      UpsertExistingReplaces(records, rec, k);
      var r := records[k := rec];
      forall i, j | 0 <= i < j < |r|
        ensures !SameKey(r[i], r[j])
      {
        if i != k && j != k {
          assert r[i] == records[i] && r[j] == records[j];
        } else if i == k {
          assert r[j] == records[j] && !SameKey(records[k], records[j]);
        } else {
          assert r[i] == records[i] && !SameKey(records[i], records[k]);
        }
      }
    } else {
      UpsertFreshAppends(records, rec);
    }
  }

  /** The first position holding a point with the same id and collection. */
  lemma {:induction false} FirstSameKey(records: seq<Record>, rec: Record) returns (k: nat)
    requires exists k :: 0 <= k < |records| && SameKey(records[k], rec)
    ensures k < |records| && SameKey(records[k], rec)
    ensures forall i :: 0 <= i < k ==> !SameKey(records[i], rec)
  {
    k := 0;
    while !SameKey(records[k], rec)
      invariant k < |records|
      invariant forall i :: 0 <= i < k ==> !SameKey(records[i], rec)
      invariant exists k' :: k <= k' < |records| && SameKey(records[k'], rec)
      decreases |records| - k
    {
      k := k + 1;
    }
  }

  /** The database server, as far as the pipeline can observe it. */
  class QdrantServer {
    var collections: map<string, VectorParams>
    var records: seq<Record>
    /** Requests received so far. */
    var requests: nat
    const outage: nat -> bool

    constructor (collections: map<string, VectorParams>, records: seq<Record>, outage: nat -> bool)
      ensures this.collections == collections && this.records == records
      ensures this.outage == outage && requests == 0
    {
      this.collections := collections;
      this.records := records;
      this.outage := outage;
      requests := 0;
    }

    /** get_collections: the names of the existing collections. */
    method GetCollections() returns (r: Result<set<string>, Exc>)
      modifies this
      ensures requests == old(requests) + 1
      ensures collections == old(collections) && records == old(records)
      ensures r.Success? <==> !outage(old(requests))
      ensures r.Success? ==> r.value == collections.Keys
    {
      var failed := outage(requests);
      requests := requests + 1;
      if failed {
        return Failure(ServiceError("transport"));
      }
      return Success(collections.Keys);
    }

    /** create_collection: fails when the name is taken. */
    method CreateCollection(name: string, params: VectorParams) returns (r: Result<(), Exc>)
      modifies this
      ensures requests == old(requests) + 1 && records == old(records)
      ensures r.Success? <==> !outage(old(requests)) && name !in old(collections)
      ensures collections == if r.Success? then old(collections)[name := params] else old(collections)
    {
      var failed := outage(requests);
      requests := requests + 1;
      if failed {
        return Failure(ServiceError("transport"));
      }
      if name in collections {
        return Failure(ServiceError("collection already exists"));
      }
      collections := collections[name := params];
      return Success(());
    }

    /** upsert of one point: refused when the collection is missing or the
      vector's length is not the collection's size. */
    method Upsert(collection: string, point: Point) returns (r: Result<(), Exc>)
      modifies this
      ensures requests == old(requests) + 1 && collections == old(collections)
      ensures r.Success? <==>
                && !outage(old(requests))
                && collection in collections
                && |point.vector| == collections[collection].size
      ensures records == if r.Success? then Upserted(old(records), Record(collection, point)) else old(records)
      ensures r.Failure? ==> r.error.ServiceError?
    {
      var failed := outage(requests);
      requests := requests + 1;
      if failed {
        return Failure(ServiceError("transport"));
      }
      if collection !in collections {
        return Failure(ServiceError("collection not found"));
      }
      if |point.vector| != collections[collection].size {
        return Failure(ServiceError("wrong vector dimension"));
      }
      records := Upserted(records, Record(collection, point));
      return Success(());
    }

    /** scroll(collection, limit, with_payload, with_vectors): the stored
        points of the collection, at most `limit` of them. */
    method Scroll(collection: string, limit: nat) returns (r: Result<seq<Point>, Exc>)
      modifies this
      ensures requests == old(requests) + 1
      ensures collections == old(collections) && records == old(records)
      ensures r.Success? <==> !outage(old(requests)) && collection in collections
      ensures r.Success? ==> r.value == Take(PointsOf(records, collection), limit)
    {
      var failed := outage(requests);
      requests := requests + 1;
      if failed {
        return Failure(ServiceError("transport"));
      }
      if collection !in collections {
        return Failure(ServiceError("collection not found"));
      }
      return Success(Take(PointsOf(records, collection), limit));
    }
  }

  /** The points stored in one collection, in storage order. */
  function PointsOf(records: seq<Record>, collection: string): (ps: seq<Point>)
    ensures |ps| <= |records|
    decreases |records|
  {
    if records == [] then []
    else
      var init := PointsOf(records[..|records| - 1], collection);
      var last := records[|records| - 1];
      if last.collection == collection then init + [last.point] else init
  }

  function Take<T>(xs: seq<T>, n: nat): (r: seq<T>)
    ensures |r| <= n && r <= xs
    ensures |xs| <= n ==> r == xs
  {
    if |xs| <= n then xs else xs[..n]
  }

  /** Every id stored so far was drawn from the generator. */
  ghost predicate IdsDrawn(records: seq<Record>, drawn: seq<string>) {
    forall i :: 0 <= i < |records| ==> records[i].point.id in drawn
  }

  /** The scan the router meant to do: the vectors and the payloads of the
      collection's points, index for index. */
  datatype Scan = Scan(vectors: seq<Vector>, payloads: seq<Payload>)

  function ScanOf(points: seq<Point>): (s: Scan)
    ensures |s.vectors| == |s.payloads| == |points|
    ensures forall i :: 0 <= i < |points| ==> s.vectors[i] == points[i].vector && s.payloads[i] == points[i].payload
  {
    Scan(seq(|points|, i requires 0 <= i < |points| => points[i].vector),
         seq(|points|, i requires 0 <= i < |points| => points[i].payload))
  }

  class QuadrantManager {
    /** The client, or null after a failed connection. */
    var client: QdrantServer?
    const collectionName: string
    var status: Status

    /** __init__: connects at once and keeps the outcome. */
    constructor (server: QdrantServer, collectionName: string)
      modifies server
      ensures this.collectionName == collectionName
      ensures status == Connected || status == Unreachable
      ensures status == Connected ==> client == server
      ensures status == Unreachable ==> client == null
      ensures status == Connected <==>
                && !server.outage(old(server.requests))
                && (collectionName in old(server.collections) || !server.outage(old(server.requests) + 1))
      ensures server.records == old(server.records)
      ensures server.collections ==
                (if collectionName !in old(server.collections) && status == Connected
                 then old(server.collections)[collectionName := DefaultParams]
                 else old(server.collections))
      ensures server.requests ==
                old(server.requests)
                + (if server.outage(old(server.requests)) || collectionName in old(server.collections) then 1 else 2)
    {
      this.collectionName := collectionName;
      client := server;
      status := Unreachable;
      new;
      var c, st := ConnectQdrant(collectionName);
      client := c;
      status := st;
    }

    /** connect_qdrant: makes sure the collection exists, creating it with
        1536-long cosine vectors when absent and leaving an existing one as it
        is whatever its parameters; any failure, including having no client,
        gives (None, 401). */
    method ConnectQdrant(name: string) returns (c: QdrantServer?, st: Status)
      modifies client
      ensures client == null ==> c == null && st == Unreachable
      ensures client != null ==>
                && (st == Connected || st == Unreachable)
                && (st == Connected ==> c == client && name in client.collections)
                && (st == Unreachable ==> c == null)
                && (st == Connected <==>
                      && !client.outage(old(client.requests))
                      && (name in old(client.collections) || !client.outage(old(client.requests) + 1)))
                && client.records == old(client.records)
                && client.requests ==
                   old(client.requests)
                   + (if client.outage(old(client.requests)) || name in old(client.collections) then 1 else 2)
                && client.collections ==
                   (if name !in old(client.collections) && st == Connected
                    then old(client.collections)[name := DefaultParams]
                    else old(client.collections))
    {
      if client == null {
        return null, Unreachable;
      }
      var names := client.GetCollections();
      if names.Failure? {
        return null, Unreachable;
      }
      if name !in names.value {
        var created := client.CreateCollection(name, DefaultParams);
        if created.Failure? {
          return null, Unreachable;
        }
      }
      return client, Connected;
    }

    /** upsert_data: stores one chunk under a fresh point id, with its
        embedding as vector and {doc_id, text, file_id} as payload; a store
        failure is raised again. With no client the call fails before an id
        is drawn. */
    method UpsertData(target: QdrantServer?, chunk: ChunkRecord, fileId: string, docId: string,
                      uuids: UuidSource)
      returns (r: Result<(), Exc>)
      requires uuids.Valid()
      modifies target, uuids
      ensures uuids.Valid()
      ensures target == null ==> r == Failure(AttributeError) && uuids.drawn == old(uuids.drawn)
      ensures target != null ==>
                && |uuids.drawn| == |old(uuids.drawn)| + 1
                && uuids.drawn[..|old(uuids.drawn)|] == old(uuids.drawn)
                && uuids.drawn[|old(uuids.drawn)|] !in old(uuids.drawn)
                && target.requests == old(target.requests) + 1
                && target.collections == old(target.collections)
                && var rec := Record(collectionName,
                                     Point(uuids.drawn[|old(uuids.drawn)|], chunk.embedding,
                                           Payload(docId, chunk.text, fileId)));
                   && (r.Success? <==>
                         && !target.outage(old(target.requests))
                         && collectionName in target.collections
                         && |chunk.embedding| == target.collections[collectionName].size)
                   && target.records == (if r.Success? then Upserted(old(target.records), rec)
                                         else old(target.records))
      ensures target != null && r.Failure? ==> r.error.ServiceError?
    {
      if target == null {
        return Failure(AttributeError);
      }
      var payload := Payload(docId, chunk.text, fileId);
      var id := uuids.Next();
      r := target.Upsert(collectionName, Point(id, chunk.embedding, payload));
    }

    /** fetch_all_vectors_and_payloads as written: it looks `self.self` up,
        which a manager does not have, so it always raises AttributeError
        before reaching the database. */
    function FetchAllVectorsAndPayloads(): (r: Result<Scan, Exc>)
      ensures r.Failure? && r.error == AttributeError
    {
      Failure(AttributeError)
    }

    /** The scan fetch_all_vectors_and_payloads evidently means: scroll the
        manager's collection (at most 10000 points) through its client and
        split the points into vectors and payloads. */
    method FetchAllVectorsAndPayloadsIntended() returns (r: Result<Scan, Exc>)
      modifies client
      ensures client == null ==> r == Failure(AttributeError)
      ensures client != null ==>
                && client.records == old(client.records)
                && client.collections == old(client.collections)
                && (r.Success? <==> !client.outage(old(client.requests)) && collectionName in client.collections)
                && (r.Success? ==> r.value == ScanOf(Take(PointsOf(client.records, collectionName), 10000)))
    {
      if client == null {
        return Failure(AttributeError);
      }
      var scrolled := client.Scroll(collectionName, 10000);
      if scrolled.Failure? {
        return Failure(scrolled.error);
      }
      return Success(ScanOf(scrolled.value));
    }
  }

  /** While every stored id came from the generator, the fresh id upsert_data
      draws is new to the store, so a successful upsert_data adds exactly one
      point and the store keeps every earlier point; and the invariant holds
      again afterwards. */
  lemma {:induction false} UpsertDataAppends(records: seq<Record>, drawn: seq<string>, rec: Record)
    requires IdsDrawn(records, drawn)
    requires rec.point.id !in drawn
    ensures Upserted(records, rec) == records + [rec]
    ensures IdsDrawn(Upserted(records, rec), drawn + [rec.point.id])
  {
    UpsertFreshAppends(records, rec);
    var r := records + [rec];
    forall i | 0 <= i < |r|
      ensures r[i].point.id in drawn + [rec.point.id]
    {
      if i < |records| {
        assert r[i] == records[i];
      }
    }
  }
}
