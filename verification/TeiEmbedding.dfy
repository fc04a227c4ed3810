/** Embedding texts in batches: every response lists its vectors in any order, tagged with the place of
    their input, and is checked before it is used. */
module TeiEmbedding {
  import opened Basics
  import opened Sets

  datatype Result<T> = Ok(value: T) | Err(error: Failure)

  datatype Failure =
    | NoDataList
    | WrongCount
    | InvalidItem
    | InvalidIndexes
    | NoVector
    | WrongDimensions
    | NotANumber
    | HttpStatus
    | InvalidJson
    | RequestFailed

  type Vector = seq<real>

  /** A decoded item: an index that is no integer, a vector that is no list and a value that is no finite
      number are `None`. */
  datatype Item = Item(index: Option<int>, embedding: Option<seq<Option<real>>>)

  /** The `data` list of a payload, where an item that is no object is `None`. */
  type Payload = Option<seq<Option<Item>>>

  ghost predicate WellFormed(item: Option<Item>, dimensions: nat) {
    && item.Some? && item.value.index.Some? && item.value.embedding.Some?
    && |item.value.embedding.value| == dimensions
    && forall k :: 0 <= k < dimensions ==> item.value.embedding.value[k].Some?
  }

  /** The item for input `i` carries this vector. */
  ghost predicate Carries(item: Option<Item>, i: int, v: Vector) {
    && WellFormed(item, |v|) && item.value.index.value == i
    && forall k :: 0 <= k < |v| ==> item.value.embedding.value[k].value == v[k]
  }

  /** What a response must be: one well-formed item for every input and nothing else. */
  ghost predicate Proper(payload: Payload, n: nat, dimensions: nat) {
    && payload.Some? && |payload.value| == n
    && (forall j :: 0 <= j < n ==>
         WellFormed(payload.value[j], dimensions) && 0 <= payload.value[j].value.index.value < n)
    && (forall j, k :: 0 <= j < k < n ==> payload.value[j].value.index != payload.value[k].value.index)
  }

  /** The vectors of a payload by input. */
  ghost predicate Ordered(payload: Payload, n: nat, dimensions: nat, vectors: seq<Vector>) {
    && payload.Some? && |payload.value| == |vectors| == n
    && forall i :: 0 <= i < n ==>
         |vectors[i]| == dimensions && exists j :: 0 <= j < n && Carries(payload.value[j], i, vectors[i])
  }

  method ReadVector(raw: seq<Option<real>>) returns (r: Result<Vector>)
    ensures r.Ok? <==> forall k :: 0 <= k < |raw| ==> raw[k].Some?
    ensures r.Ok? ==> |r.value| == |raw| && forall k :: 0 <= k < |raw| ==> raw[k].value == r.value[k]
    ensures r.Err? ==> r.error == NotANumber
  {
    var embedding: Vector := [];
    for k := 0 to |raw|
      invariant |embedding| == k && forall i :: 0 <= i < k ==> raw[i].Some? && raw[i].value == embedding[i]
    {
      if raw[k].None? {
        return Err(NotANumber);
      }
      embedding := embedding + [raw[k].value];
    }
    return Ok(embedding);
  }

  /** Every vector in `by_index` was filed from the item at its place, one of the first `j`. */
  ghost predicate Filed(data: seq<Option<Item>>, j: nat, dimensions: nat, byIndex: map<int, Vector>,
          place: map<int, nat>)
  {
    && j <= |data| && |byIndex| == j
    && (forall i :: i in byIndex <==> i in place)
    && (forall i :: i in place ==> place[i] < j && FiledFrom(data, dimensions, byIndex, place, i))
    && (forall k :: 0 <= k < j ==> PlacedAt(data, dimensions, place, k))
  }

  ghost predicate FiledFrom(data: seq<Option<Item>>, dimensions: nat, byIndex: map<int, Vector>, place: map<int, nat>,
          i: int)
  {
    i in place && i in byIndex && place[i] < |data| && |byIndex[i]| == dimensions &&
      Carries(data[place[i]], i, byIndex[i])
  }

  /** The item at `k` is well formed and is the one filed under its index. */
  ghost predicate PlacedAt(data: seq<Option<Item>>, dimensions: nat, place: map<int, nat>, k: nat)
    requires k < |data|
  {
    WellFormed(data[k], dimensions) && data[k].value.index.value in place && place[data[k].value.index.value] == k
  }

  lemma FileOne(data: seq<Option<Item>>, j: nat, dimensions: nat, byIndex: map<int, Vector>, place: map<int, nat>,
          i: int, v: Vector)
    requires Filed(data, j, dimensions, byIndex, place) && j < |data| && i !in byIndex
    requires |v| == dimensions && Carries(data[j], i, v)
    ensures Filed(data, j + 1, dimensions, byIndex[i := v], place[i := j])
  {
    var (more, there) := (byIndex[i := v], place[i := j]);
    OneMore(byIndex, i, v);
    forall k | 0 <= k < j + 1
      ensures PlacedAt(data, dimensions, there, k)
    {
      assert k < j ==> PlacedAt(data, dimensions, place, k);
    }
    forall m | m in there
      ensures there[m] < j + 1 && FiledFrom(data, dimensions, more, there, m)
    {
      assert m != i ==> FiledFrom(data, dimensions, byIndex, place, m);
    }
  }

  /** One item of the response. */
  method ReadItem(item: Option<Item>, dimensions: nat, seen: set<int>) returns (r: Result<(int, Vector)>)
    ensures r.Ok? <==> WellFormed(item, dimensions) && item.value.index.value !in seen
    ensures r.Ok? ==> |r.value.1| == dimensions && Carries(item, r.value.0, r.value.1)
    ensures r.Err? ==> r.error in {InvalidItem, InvalidIndexes, NoVector, WrongDimensions, NotANumber}
  {
    if item.None? {
      return Err(InvalidItem);
    }
    var index := item.value.index;
    if index.None? || index.value in seen {
      return Err(InvalidIndexes);
    }
    var raw := item.value.embedding;
    if raw.None? {
      return Err(NoVector);
    }
    if |raw.value| != dimensions {
      return Err(WrongDimensions);
    }
    var v := ReadVector(raw.value);
    if v.Err? {
      return Err(v.error);
    }
    return Ok((index.value, v.value));
  }

  /** No two items filed have the same index. */
  lemma FiledDistinct(data: seq<Option<Item>>, j: nat, dimensions: nat, byIndex: map<int, Vector>,
          place: map<int, nat>, k: nat, l: nat)
    requires Filed(data, j, dimensions, byIndex, place) && k < l < j
    ensures WellFormed(data[k], dimensions) && WellFormed(data[l], dimensions)
    ensures data[k].value.index != data[l].value.index
  {
    assert PlacedAt(data, dimensions, place, k) && PlacedAt(data, dimensions, place, l);
  }

  /** With one item per input, the response is proper when all indexes are in range, and then every input
      has its vector. */
  lemma AllFiled(data: seq<Option<Item>>, dimensions: nat, byIndex: map<int, Vector>, place: map<int, nat>)
    requires Filed(data, |data|, dimensions, byIndex, place)
    ensures Proper(Some(data), |data|, dimensions) <==> Within(byIndex.Keys, |data|)
    ensures Proper(Some(data), |data|, dimensions) ==> forall i :: 0 <= i < |data| ==> i in byIndex
  {
    if Within(byIndex.Keys, |data|) {
      forall k | 0 <= k < |data|
        ensures WellFormed(data[k], dimensions) && 0 <= data[k].value.index.value < |data|
      {
        assert PlacedAt(data, dimensions, place, k);
        var i := data[k].value.index.value;
        assert i in byIndex;
        assert i in byIndex.Keys;
      }
      forall k, l | 0 <= k < l < |data|
        ensures data[k].value.index != data[l].value.index
      {
        FiledDistinct(data, |data|, dimensions, byIndex, place, k, l);
      }
      assert |byIndex.Keys| == |byIndex|;
      HoldsAll(byIndex.Keys, |data|);
    } else {
      var i :| i in byIndex && !(0 <= i < |data|);
      assert FiledFrom(data, dimensions, byIndex, place, i);
    }
  }

  /** A response with a malformed item or a repeated index is not proper. */
  lemma NotProper(data: seq<Option<Item>>, j: nat, dimensions: nat, byIndex: map<int, Vector>, place: map<int, nat>)
    requires Filed(data, j, dimensions, byIndex, place) && j < |data|
    requires !WellFormed(data[j], dimensions) || data[j].value.index.value in byIndex
    ensures !Proper(Some(data), |data|, dimensions)
  {
    if WellFormed(data[j], dimensions) {
      var i := data[j].value.index.value;
      assert FiledFrom(data, dimensions, byIndex, place, i);
      assert data[place[i]].value.index == data[j].value.index;
    }
  }

  method FileItems(data: seq<Option<Item>>, dimensions: nat)
    returns (r: Result<map<int, Vector>>, ghost place: map<int, nat>)
    ensures r.Ok? ==> Filed(data, |data|, dimensions, r.value, place)
    ensures r.Err? ==> !Proper(Some(data), |data|, dimensions)
    ensures r.Err? ==> !r.error.HttpStatus? && !r.error.InvalidJson? && !r.error.RequestFailed?
  {
    var byIndex: map<int, Vector> := map[];
    place := map[];
    for j := 0 to |data|
      invariant Filed(data, j, dimensions, byIndex, place)
    {
      var item := ReadItem(data[j], dimensions, byIndex.Keys);
      if item.Err? {
        NotProper(data, j, dimensions, byIndex, place);
        return Err(item.error), place;
      }
      FileOne(data, j, dimensions, byIndex, place, item.value.0, item.value.1);
      byIndex := byIndex[item.value.0 := item.value.1];
      place := place[item.value.0 := j];
    }
    return Ok(byIndex), place;
  }

  /** The filed vectors in the order of the inputs, if there is exactly one for each. */
  method Arrange(byIndex: map<int, Vector>, n: nat) returns (r: Option<seq<Vector>>)
    ensures r.Some? <==> Within(byIndex.Keys, n) && forall i :: 0 <= i < n ==> i in byIndex
    ensures r.Some? ==> |r.value| == n && forall i :: 0 <= i < n ==> r.value[i] == byIndex[i]
  {
    if !(forall i :: i in byIndex ==> 0 <= i < n) || !(forall i :: 0 <= i < n ==> i in byIndex) {
      return None;
    }
    var vectors: seq<Vector> := [];
    for i := 0 to n
      invariant |vectors| == i && forall k :: 0 <= k < i ==> vectors[k] == byIndex[k]
    {
      vectors := vectors + [byIndex[i]];
    }
    return Some(vectors);
  }

  lemma ArrangedIsOrdered(data: seq<Option<Item>>, dimensions: nat, byIndex: map<int, Vector>, place: map<int, nat>,
          vectors: seq<Vector>)
    requires Filed(data, |data|, dimensions, byIndex, place) && |vectors| == |data|
    requires forall i :: 0 <= i < |data| ==> i in byIndex && vectors[i] == byIndex[i]
    ensures Ordered(Some(data), |data|, dimensions, vectors)
  {
    forall i | 0 <= i < |data|
      ensures |vectors[i]| == dimensions && exists j :: 0 <= j < |data| && Carries(data[j], i, vectors[i])
    {
      assert FiledFrom(data, dimensions, byIndex, place, i);
      assert Carries(data[place[i]], i, vectors[i]);
    }
  }

  /** `_validate_response` accepts exactly the proper responses, and then puts the vectors in the order of
      the inputs. */
  method ValidateResponse(payload: Payload, inputCount: nat, dimensions: nat) returns (r: Result<seq<Vector>>)
    ensures r.Ok? <==> Proper(payload, inputCount, dimensions)
    ensures r.Ok? ==> Ordered(payload, inputCount, dimensions, r.value)
    ensures r.Err? ==> !r.error.HttpStatus? && !r.error.InvalidJson? && !r.error.RequestFailed?
  {
    if payload.None? {
      return Err(NoDataList);
    }
    if |payload.value| != inputCount {
      return Err(WrongCount);
    }
    var filed;
    ghost var place;
    filed, place := FileItems(payload.value, dimensions);
    if filed.Err? {
      return Err(filed.error);
    }
    AllFiled(payload.value, dimensions, filed.value, place);
    var vectors := Arrange(filed.value, inputCount);
    if vectors.None? {
      return Err(InvalidIndexes);
    }
    ArrangedIsOrdered(payload.value, dimensions, filed.value, place, vectors.value);
    return Ok(vectors.value);
  }

  // ---- Batches ----

  /** What the service answers: nothing, or a status and a body, which may not be JSON. */
  datatype Response = Failed | Response(status: int, body: Option<Payload>)

  ghost predicate Accepted(response: Response, n: nat, dimensions: nat) {
    response.Response? && 200 <= response.status < 300 && response.body.Some? &&
      Proper(response.body.value, n, dimensions)
  }

  function Batch<T>(texts: seq<T>, start: nat, size: nat): seq<T>
    requires start <= |texts|
  {
    texts[start..if start + size <= |texts| then start + size else |texts|]
  }

  /** All responses from the batch at `start` on are accepted. */
  ghost predicate AllAccepted(texts: seq<string>, start: nat, size: nat, dimensions: nat, service: nat -> Response)
    requires size > 0
    decreases if start < |texts| then |texts| - start else 0
  {
    start < |texts| ==>
      Accepted(service(start), |Batch(texts, start, size)|, dimensions) &&
        AllAccepted(texts, start + size, size, dimensions, service)
  }

  /** Each item of a proper response carries the vector of its input. */
  ghost predicate EmbedsBatch(payload: Payload, batch: seq<string>, embedder: string -> Vector)
    requires payload.Some?
  {
    forall i, j :: 0 <= i < |batch| && 0 <= j < |payload.value| && HasIndex(payload.value[j], i) ==>
      Carries(payload.value[j], i, embedder(batch[i]))
  }

  predicate HasIndex(item: Option<Item>, i: int) {
    item.Some? && item.value.index == Some(i)
  }

  /** A service that embeds: what it answers properly is the vectors of what it was sent. Nothing is said
      of its other answers. */
  ghost predicate Embeds(texts: seq<string>, start: nat, size: nat, dimensions: nat, service: nat -> Response,
          embedder: string -> Vector)
    requires size > 0
    decreases if start < |texts| then |texts| - start else 0
  {
    start < |texts| && Accepted(service(start), |Batch(texts, start, size)|, dimensions) ==>
      EmbedsBatch(service(start).body.value, Batch(texts, start, size), embedder)
      && Embeds(texts, start + size, size, dimensions, service, embedder)
  }

  method Receive(response: Response, n: nat, dimensions: nat) returns (r: Result<seq<Vector>>)
    ensures r.Ok? <==> Accepted(response, n, dimensions)
    ensures r.Ok? ==> Ordered(response.body.value, n, dimensions, r.value)
  {
    if response.Failed? {
      return Err(RequestFailed);
    }
    if !(200 <= response.status < 300) {
      return Err(HttpStatus);
    }
    if response.body.None? {
      return Err(InvalidJson);
    }
    r := ValidateResponse(response.body.value, n, dimensions);
  }

  /** The vectors of one accepted batch are those of its texts. */
  lemma BatchIsEmbedded(payload: Payload, batch: seq<string>, dimensions: nat, embedder: string -> Vector,
          vectors: seq<Vector>)
    requires Ordered(payload, |batch|, dimensions, vectors) && EmbedsBatch(payload, batch, embedder)
    ensures forall i :: 0 <= i < |batch| ==> vectors[i] == embedder(batch[i])
  {
    forall i | 0 <= i < |batch|
      ensures vectors[i] == embedder(batch[i])
    {
      var j :| 0 <= j < |batch| && Carries(payload.value[j], i, vectors[i]);
      assert HasIndex(payload.value[j], i);
      SameVector(payload.value[j], i, vectors[i], embedder(batch[i]));
    }
  }

  lemma SameVector(item: Option<Item>, i: int, u: Vector, v: Vector)
    requires Carries(item, i, u) && Carries(item, i, v)
    ensures u == v
  {
  }

  /** `_embed`: a result exactly when every batch is answered properly, whatever else the service answers;
      and if it embeds, then, whatever the batch size and the order inside the responses, the result is the
      embedder mapped over the texts. */
  method Embed(texts: seq<string>, size: nat, dimensions: nat, service: nat -> Response,
          ghost embedder: string -> Vector)
    returns (r: Result<seq<Vector>>)
    requires size > 0
    ensures r.Ok? <==> AllAccepted(texts, 0, size, dimensions, service)
    ensures r.Ok? ==> |r.value| == |texts|
    ensures r.Ok? && Embeds(texts, 0, size, dimensions, service, embedder) ==>
              forall i :: 0 <= i < |texts| ==> r.value[i] == embedder(texts[i])
  {
    var results: seq<Vector> := [];
    var start: nat := 0;
    ghost var embeds := Embeds(texts, 0, size, dimensions, service, embedder);
    while start < |texts|
      invariant |results| == if start <= |texts| then start else |texts|
      invariant AllAccepted(texts, 0, size, dimensions, service) <==>
                  AllAccepted(texts, start, size, dimensions, service)
      invariant embeds ==> Embeds(texts, start, size, dimensions, service, embedder)
      invariant embeds ==> forall i :: 0 <= i < |results| ==> results[i] == embedder(texts[i])
    {
      var batch := Batch(texts, start, size);
      var vectors := Receive(service(start), |batch|, dimensions);
      if vectors.Err? {
        return Err(vectors.error);
      }
      if embeds {
        BatchIsEmbedded(service(start).body.value, batch, dimensions, embedder, vectors.value);
      }
      results := results + vectors.value;
      start := start + size;
    }
    return Ok(results);
  }
}
