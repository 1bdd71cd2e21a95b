/** app/services/vector_store.py, FAISSSearchEngine: an exact nearest-neighbour
    index over the stored embeddings, and the assembly of its answer into
    ranked results.

    The faiss index itself is an oracle (`Knn`): given the stored vectors, a
    query and k, it answers with one row of (distance, index) slots, where an
    index of -1 marks an empty slot, or it fails (None). Distances are
    carried, never computed. */
module FaissSearch {
  import opened Base

  /** One slot of the row faiss answers with. */
  datatype Slot = Slot(distance: real, index: int)

  /** One entry of the list search returns: {'distance', 'payload', 'rank'}. */
  datatype SearchResult<P> = SearchResult(distance: real, payload: P, rank: nat)

  /** The engine after __init__: the dimension taken from the first vector,
      the vectors added to the index, and the payloads kept beside them. */
  datatype SearchEngine<P> = SearchEngine(dimension: nat, embeddings: seq<Vector>, payloads: seq<P>)

  /** index.search(query, k), restricted to its first row; None when faiss
      raises. */
  type Knn = (seq<Vector>, Vector, int) -> Option<seq<Slot>>

  /** FAISSSearchEngine(embeddings, payloads). An empty list fails with
      IndexError when the first vector's length is read; vectors of different
      lengths cannot become one float32 matrix and fail with ValueError. */
  function NewSearchEngine<P>(embeddings: seq<Vector>, payloads: seq<P>): (r: Result<SearchEngine<P>, Exc>)
    ensures embeddings == [] ==> r == Failure(IndexError)
    ensures embeddings != [] ==>
              (r.Success? <==> forall k :: 0 <= k < |embeddings| ==> |embeddings[k]| == |embeddings[0]|)
    ensures r.Failure? ==> r.error in {IndexError, ValueError}
    ensures r.Success? ==>
              && r.value.embeddings == embeddings && r.value.payloads == payloads
              && forall k :: 0 <= k < |embeddings| ==> |embeddings[k]| == r.value.dimension
  {
    if embeddings == [] then Failure(IndexError)
    else if exists k :: 0 <= k < |embeddings| && |embeddings[k]| != |embeddings[0]| then Failure(ValueError)
    else Success(SearchEngine(|embeddings[0]|, embeddings, payloads))
  }

  /** Python's xs[i]: negative indices count from the end; None stands for
      the IndexError an index out of range raises. */
  function PyIndex<P>(xs: seq<P>, i: int): (r: Option<P>)
    ensures r.Some? <==> -|xs| <= i < |xs|
    ensures r.Some? && i >= 0 ==> r.value == xs[i]
    ensures r.Some? && i < 0 ==> r.value == xs[|xs| + i]
  {
    if 0 <= i < |xs| then Some(xs[i])
    else if -|xs| <= i < 0 then Some(xs[|xs| + i])
    else None
  }

  /** The results the formatting loop builds from a row of slots: empty slots
      are skipped, every other slot gives its distance, the payload at its
      index and its position + 1 as rank. None when a payload lookup raises. */
  function Formatted<P>(payloads: seq<P>, row: seq<Slot>): (r: Option<seq<SearchResult<P>>>)
    ensures r.Some? ==> |r.value| <= |row|
    ensures r.Some? ==> forall j :: 0 <= j < |r.value| ==> 1 <= r.value[j].rank <= |row|
    decreases |row|
  {
    if row == [] then Some([])
    else
      var s := row[|row| - 1];
      match Formatted(payloads, row[..|row| - 1])
      case None => None
      case Some(init) =>
        if s.index == -1 then Some(init)
        else
          match PyIndex(payloads, s.index)
          case None => None
          case Some(p) => Some(init + [SearchResult(s.distance, p, |row|)])
  }

  /** What search(query, k) returns: the formatted row, or [] when faiss or a
      payload lookup raises. */
  function SearchOutcome<P>(engine: SearchEngine<P>, query: Vector, topK: int, knn: Knn)
    : (rs: seq<SearchResult<P>>)
    ensures knn(engine.embeddings, query, topK).None? ==> rs == []
    ensures var answer := knn(engine.embeddings, query, topK);
            answer.Some? ==> |rs| <= |answer.value|
                             && forall j :: 0 <= j < |rs| ==> 1 <= rs[j].rank <= |answer.value|
  {
    match knn(engine.embeddings, query, topK)
    case None => []
    case Some(row) =>
      match Formatted(engine.payloads, row)
      case None => []
      case Some(rs) => rs
  }

  /** The number of occupied slots. */
  function Occupied(row: seq<Slot>): (n: nat)
    ensures n <= |row|
    decreases |row|
  {
    if row == [] then 0
    else Occupied(row[..|row| - 1]) + (if row[|row| - 1].index == -1 then 0 else 1)
  }

  predicate Resolvable<P>(payloads: seq<P>, s: Slot) {
    s.index == -1 || PyIndex(payloads, s.index).Some?
  }

  /** Formatting fails exactly when some occupied slot points outside the
      payload list. */
  lemma {:induction false} FormattedFails<P>(payloads: seq<P>, row: seq<Slot>)
    ensures Formatted(payloads, row).Some? <==> forall k :: 0 <= k < |row| ==> Resolvable(payloads, row[k])
    decreases |row|
  {
    if row != [] {
      var init := row[..|row| - 1];
      FormattedFails(payloads, init);
      assert forall k :: 0 <= k < |init| ==> init[k] == row[k];
    }
  }

  /** A result for each occupied slot, no more. */
  lemma {:induction false} FormattedCount<P>(payloads: seq<P>, row: seq<Slot>)
    requires Formatted(payloads, row).Some?
    ensures |Formatted(payloads, row).value| == Occupied(row)
    decreases |row|
  {
    if row != [] {
      FormattedCount(payloads, row[..|row| - 1]);
    }
  }

  /** Every result comes from the occupied slot at position rank - 1: its
      distance is that slot's distance and its payload is the payload at that
      slot's index. */
  ghost predicate FromSlot<P>(payloads: seq<P>, row: seq<Slot>, r: SearchResult<P>) {
    && 1 <= r.rank <= |row|
    && row[r.rank - 1].index != -1
    && r.distance == row[r.rank - 1].distance
    && PyIndex(payloads, row[r.rank - 1].index) == Some(r.payload)
  }

  lemma {:induction false} FormattedFromSlots<P>(payloads: seq<P>, row: seq<Slot>)
    requires Formatted(payloads, row).Some?
    ensures var rs := Formatted(payloads, row).value;
            forall j :: 0 <= j < |rs| ==> FromSlot(payloads, row, rs[j])
    decreases |row|
  {
    if row != [] {
      var init := row[..|row| - 1];
      FormattedFromSlots(payloads, init);
      var rs0 := Formatted(payloads, init).value;
      forall j | 0 <= j < |rs0|
        ensures FromSlot(payloads, row, rs0[j])
      {
        assert FromSlot(payloads, init, rs0[j]);
        assert row[rs0[j].rank - 1] == init[rs0[j].rank - 1];
      }
    }
  }

  /** Ranks strictly increase along the results, and none exceeds the row. */
  lemma {:induction false} FormattedRanks<P>(payloads: seq<P>, row: seq<Slot>)
    requires Formatted(payloads, row).Some?
    ensures var rs := Formatted(payloads, row).value;
            && (forall j :: 0 <= j < |rs| ==> 1 <= rs[j].rank <= |row|)
            && (forall j, k :: 0 <= j < k < |rs| ==> rs[j].rank < rs[k].rank)
    decreases |row|
  {
    if row != [] {
      FormattedRanks(payloads, row[..|row| - 1]);
    }
  }

  /** When every occupied slot comes before every empty one (as faiss pads
      a short answer), the ranks are exactly 1, 2, ..., with no gap. */
  lemma {:induction false} FormattedDense<P>(payloads: seq<P>, row: seq<Slot>)
    requires Formatted(payloads, row).Some?
    requires forall j, k :: 0 <= j < k < |row| && row[j].index == -1 ==> row[k].index == -1
    ensures var rs := Formatted(payloads, row).value;
            forall j :: 0 <= j < |rs| ==> rs[j].rank == j + 1
    decreases |row|
  {
    if row != [] {
      var init := row[..|row| - 1];
      assert forall j, k :: 0 <= j < k < |init| && init[j].index == -1 ==> init[k].index == -1 by {
        forall j, k | 0 <= j < k < |init| && init[j].index == -1
          ensures init[k].index == -1
        {
          assert init[j] == row[j] && init[k] == row[k];
        }
      }
      FormattedDense(payloads, init);
      FormattedCount(payloads, init);
      if row[|row| - 1].index != -1 {
        forall k | 0 <= k < |init|
          ensures init[k].index != -1
        {
          assert init[k] == row[k];
        }
        AllOccupied(init);
      }
    }
  }

  /** A row with no empty slot has every slot occupied. */
  lemma {:induction false} AllOccupied(row: seq<Slot>)
    requires forall k :: 0 <= k < |row| ==> row[k].index != -1
    ensures Occupied(row) == |row|
    decreases |row|
  {
    if row != [] {
      var init := row[..|row| - 1];
      assert forall k :: 0 <= k < |init| ==> init[k] == row[k];
      AllOccupied(init);
    }
  }

  predicate Ascending(ds: seq<real>) {
    forall j, k :: 0 <= j < k < |ds| ==> ds[j] <= ds[k]
  }

  function SlotDistances(row: seq<Slot>): seq<real> {
    seq(|row|, j requires 0 <= j < |row| => row[j].distance)
  }

  function ResultDistances<P>(rs: seq<SearchResult<P>>): seq<real> {
    seq(|rs|, j requires 0 <= j < |rs| => rs[j].distance)
  }

  /** The results keep faiss's order: distances that come back ascending stay
      ascending. */
  lemma {:induction false} FormattedKeepsOrder<P>(payloads: seq<P>, row: seq<Slot>)
    requires Formatted(payloads, row).Some?
    requires Ascending(SlotDistances(row))
    ensures Ascending(ResultDistances(Formatted(payloads, row).value))
  {
    var rs := Formatted(payloads, row).value;
    FormattedFromSlots(payloads, row);
    FormattedRanks(payloads, row);
    forall j, k | 0 <= j < k < |rs|
      ensures ResultDistances(rs)[j] <= ResultDistances(rs)[k]
    {
      assert FromSlot(payloads, row, rs[j]) && FromSlot(payloads, row, rs[k]);
      assert SlotDistances(row)[rs[j].rank - 1] <= SlotDistances(row)[rs[k].rank - 1];
    }
  }

  /** Given that faiss answers with a row of top_k slots, search returns at
      most top_k results. */
  lemma {:induction false} SearchAtMostTopK<P>(engine: SearchEngine<P>, query: Vector, topK: int, knn: Knn)
    requires knn(engine.embeddings, query, topK).Some? ==> |knn(engine.embeddings, query, topK).value| == topK
    ensures |SearchOutcome(engine, query, topK, knn)| <= if topK < 0 then 0 else topK
  {
    var answer := knn(engine.embeddings, query, topK);
    if answer.Some? && Formatted(engine.payloads, answer.value).Some? {
      FormattedCount(engine.payloads, answer.value);
    }
  }

  /** search answers [] when faiss raises or a lookup raises, and otherwise
      one result per occupied slot. */
  lemma {:induction false} SearchOutcomeCases<P>(engine: SearchEngine<P>, query: Vector, topK: int, knn: Knn)
    ensures var answer := knn(engine.embeddings, query, topK);
            && (answer.None? ==> SearchOutcome(engine, query, topK, knn) == [])
            && ((answer.Some? && exists k :: 0 <= k < |answer.value| && !Resolvable(engine.payloads, answer.value[k]))
                ==> SearchOutcome(engine, query, topK, knn) == [])
            && ((answer.Some? && forall k :: 0 <= k < |answer.value| ==> Resolvable(engine.payloads, answer.value[k]))
                ==> |SearchOutcome(engine, query, topK, knn)| == Occupied(answer.value))
  {
    var answer := knn(engine.embeddings, query, topK);
    if answer.Some? {
      FormattedFails(engine.payloads, answer.value);
      if Formatted(engine.payloads, answer.value).Some? {
        FormattedCount(engine.payloads, answer.value);
      }
    }
  }

  /** search(query_embedding, top_k): asks faiss for the row and formats it
      slot by slot; any exception on the way gives []. */
  method Search<P>(engine: SearchEngine<P>, query: Vector, topK: int, knn: Knn)
    returns (results: seq<SearchResult<P>>)
    ensures results == SearchOutcome(engine, query, topK, knn)
  {
    var answer := knn(engine.embeddings, query, topK);
    if answer.None? {
      return [];
    }
    var row := answer.value;
    results := [];
    for i := 0 to |row|
      invariant Formatted(engine.payloads, row[..i]) == Some(results)
    {
      assert row[..i + 1][..i] == row[..i];
      var slot := row[i];
      if slot.index != -1 {
        var payload := PyIndex(engine.payloads, slot.index);
        if payload.None? {
          FormattedStaysFailed(engine.payloads, row, i + 1);
          return [];
        }
        results := results + [SearchResult(slot.distance, payload.value, i + 1)];
      }
    }
    assert row[..|row|] == row;
  }

  /** Once a prefix of the row fails to format, the whole row does. */
  lemma {:induction false} FormattedStaysFailed<P>(payloads: seq<P>, row: seq<Slot>, i: nat)
    requires i <= |row|
    requires Formatted(payloads, row[..i]).None?
    ensures Formatted(payloads, row).None?
  {
    FormattedFails(payloads, row[..i]);
    FormattedFails(payloads, row);
    var k :| 0 <= k < i && !Resolvable(payloads, row[..i][k]);
    assert row[..i][k] == row[k];
  }

  /** search_similar_chunks: the same as search. */
  method SearchSimilarChunks<P>(engine: SearchEngine<P>, embedding: Vector, topK: int, knn: Knn)
    returns (results: seq<SearchResult<P>>)
    ensures results == SearchOutcome(engine, embedding, topK, knn)
  {
    results := Search(engine, embedding, topK, knn);
  }
}
