/**
 Embedding the chunks of a filing (services/ingestion.py): at most 32 texts at a time go to the
 provider, whose replies may list their entries in any order, and the vectors are cut back
 into the Items they came from. Token counts are left out.

 A reply is good when it has one vector of the configured size for every index of its batch.
 Embedding succeeds exactly when every reply is good; then vector p is the one the provider
 gave for text p, and vector j of an Item the one for chunk j of that Item. The check for a
 missing slot never decides: as many distinct indexes in range as there are slots fill all.
 */
module Embedding {
  import opened Wrappers
  import opened Sequences

  type Vector = seq<real>

  /** One entry of a reply; its index is None when it is not an integer. */
  datatype Entry = Entry(index: Option<int>, vector: Vector)

  datatype Reply = Raised | Answered(data: seq<Entry>)

  datatype Failure = ProviderError | CountMismatch | IndexMismatch | DimensionMismatch | MissingSlot

  const BATCH_SIZE: nat := 32

  // ----- one reply --------------------------------------------------------

  /** Position k of the reply can be placed: its index is a slot that no earlier entry took. */
  predicate Placeable(data: seq<Entry>, k: nat, slots: nat, dimensions: nat)
    requires k < |data|
  {
    && data[k].index.Some? && 0 <= data[k].index.value < slots
    && |data[k].vector| == dimensions
    && forall j :: 0 <= j < k ==> data[j].index != data[k].index
  }

  predicate GoodReply(r: Reply, slots: nat, dimensions: nat) {
    r.Answered? && |r.data| == slots && forall k :: 0 <= k < |r.data| ==> Placeable(r.data, k, slots, dimensions)
  }

  /** Every vector is the one the reply gives for its index. */
  predicate Follows(vectors: seq<Vector>, data: seq<Entry>) {
    forall k :: 0 <= k < |data| && data[k].index.Some? && 0 <= data[k].index.value < |vectors| ==>
      vectors[data[k].index.value] == data[k].vector
  }

  function Below(n: nat): (r: set<int>)
    ensures forall i :: i in r <==> 0 <= i < n
    ensures |r| == n
  {
    if n == 0 then {} else Below(n - 1) + {n - 1}
  }

  /** As many distinct slots as there are slots are all of them. */
  lemma {:induction false} PigeonHole(taken: set<int>, slots: nat)
    requires |taken| == slots && forall i :: i in taken ==> 0 <= i < slots
    ensures forall i :: 0 <= i < slots ==> i in taken
  {
    SubsetSize(taken, Below(slots));
  }

  predicate AllPlaceable(data: seq<Entry>, k: nat, slots: nat, dimensions: nat)
    requires k <= |data|
  {
    forall j :: 0 <= j < k ==> Placeable(data, j, slots, dimensions)
  }

  predicate Owns(owner: map<int, nat>, slot: int, k: nat) {
    slot in owner && owner[slot] == k
  }

  predicate AllOwn(owner: map<int, nat>, data: seq<Entry>, k: nat)
    requires k <= |data|
  {
    forall j :: 0 <= j < k ==> data[j].index.Some? && Owns(owner, data[j].index.value, j)
  }

  predicate Took(ordered: seq<Option<Vector>>, data: seq<Entry>, k: nat, slot: int, j: nat)
    requires k <= |data|
  {
    j < k && 0 <= slot < |ordered| && data[j].index == Some(slot) && ordered[slot] == Some(data[j].vector)
  }

  predicate AllTook(ordered: seq<Option<Vector>>, owner: map<int, nat>, data: seq<Entry>, k: nat)
    requires k <= |data|
  {
    && |owner.Keys| == k
    && (forall i :: i in owner ==> Took(ordered, data, k, i, owner[i]))
    && (forall i :: 0 <= i < |ordered| && ordered[i].Some? ==> i in owner)
  }

  /** The first k entries have been placed, and owner says which entry took each slot. */
  predicate Placed(
    ordered: seq<Option<Vector>>, owner: map<int, nat>, data: seq<Entry>, k: nat, slots: nat, dimensions: nat)
  {
    && k <= |data| && |ordered| == slots
    && AllPlaceable(data, k, slots, dimensions)
    && AllOwn(owner, data, k)
    && AllTook(ordered, owner, data, k)
  }

  predicate HeldAtIndex(ordered: seq<Option<Vector>>, e: Entry) {
    e.index.Some? && 0 <= e.index.value < |ordered| && ordered[e.index.value] == Some(e.vector)
  }

  /** A free slot can be taken by the next entry, and only a free one. */
  lemma {:induction false} FreeIffPlaceable(
    ordered: seq<Option<Vector>>, owner: map<int, nat>, data: seq<Entry>, k: nat, slots: nat, dimensions: nat)
    requires Placed(ordered, owner, data, k, slots, dimensions) && k < |data|
    requires data[k].index.Some? && 0 <= data[k].index.value < slots && |data[k].vector| == dimensions
    ensures Placeable(data, k, slots, dimensions) <==> ordered[data[k].index.value].None?
    ensures ordered[data[k].index.value].None? <==> data[k].index.value !in owner
  {
    var index := data[k].index.value;
    if index in owner {
      assert Took(ordered, data, k, index, owner[index]);
    } else {
      forall j | 0 <= j < k
        ensures data[j].index != data[k].index
      {
        assert Owns(owner, data[j].index.value, j);
      }
    }
  }

  lemma {:induction false} TakeOneMore(
    ordered: seq<Option<Vector>>, owner: map<int, nat>, data: seq<Entry>, k: nat, slot: nat)
    requires k < |data| && AllTook(ordered, owner, data, k)
    requires data[k].index == Some(slot) && slot < |ordered| && slot !in owner
    ensures AllTook(ordered[slot := Some(data[k].vector)], owner[slot := k], data, k + 1)
  {
    var next, owned := ordered[slot := Some(data[k].vector)], owner[slot := k];
    assert owned.Keys == owner.Keys + {slot};
    forall i | i in owned
      ensures Took(next, data, k + 1, i, owned[i])
    {
      if i != slot {
        assert Took(ordered, data, k, i, owner[i]);
      }
    }
  }

  lemma {:induction false} PlaceOne(
    ordered: seq<Option<Vector>>, owner: map<int, nat>, data: seq<Entry>, k: nat, slots: nat, dimensions: nat)
    requires Placed(ordered, owner, data, k, slots, dimensions) && k < |data| && Placeable(data, k, slots, dimensions)
    requires data[k].index.value !in owner
    ensures var index := data[k].index.value;
      Placed(ordered[index := Some(data[k].vector)], owner[index := k], data, k + 1, slots, dimensions)
  {
    TakeOneMore(ordered, owner, data, k, data[k].index.value);
  }

  /** When every entry has been placed, no slot is empty. */
  lemma {:induction false} AllPlaced(
    ordered: seq<Option<Vector>>, owner: map<int, nat>, data: seq<Entry>, slots: nat, dimensions: nat)
    requires |data| == slots && Placed(ordered, owner, data, slots, slots, dimensions)
    ensures forall i :: 0 <= i < slots ==> ordered[i].Some?
    ensures forall k :: 0 <= k < slots ==> HeldAtIndex(ordered, data[k])
  {
    assert forall i :: i in owner.Keys ==> Took(ordered, data, slots, i, owner[i]);
    PigeonHole(owner.Keys, slots);
    forall i | 0 <= i < slots
      ensures ordered[i].Some?
    {
      assert i in owner.Keys;
    }
    forall k | 0 <= k < slots
      ensures HeldAtIndex(ordered, data[k])
    {
      assert Placeable(data, k, slots, dimensions);
      assert Owns(owner, data[k].index.value, k);
      assert Took(ordered, data, slots, data[k].index.value, k);
    }
  }

  /**
   Puts one reply in order. It succeeds exactly on a good reply, and the last check of the
   source, for a slot left empty, is never what fails.
   */
  method PutInOrder(r: Reply, slots: nat, dimensions: nat) returns (result: Result<seq<Vector>, Failure>)
    ensures result.Success? <==> GoodReply(r, slots, dimensions)
    ensures result.Success? ==> |result.value| == slots && Follows(result.value, r.data)
    ensures result != Failure(MissingSlot)
  {
    if r.Raised? {
      return Failure(ProviderError);
    }
    var data := r.data;
    if |data| != slots {
      return Failure(CountMismatch);
    }
    var ordered := new Option<Vector>[slots](_ => None);
    ghost var owner: map<int, nat> := map[];
    for k := 0 to |data|
      invariant Placed(ordered[..], owner, data, k, slots, dimensions)
    {
      if data[k].index.None? || data[k].index.value < 0 || data[k].index.value >= slots {
        assert !Placeable(data, k, slots, dimensions);
        return Failure(IndexMismatch);
      }
      var index := data[k].index.value;
      if |data[k].vector| == dimensions {
        FreeIffPlaceable(ordered[..], owner, data, k, slots, dimensions);
      } else {
        assert !Placeable(data, k, slots, dimensions);
      }
      if ordered[index].Some? {
        return Failure(IndexMismatch);
      }
      if |data[k].vector| != dimensions {
        return Failure(DimensionMismatch);
      }
      PlaceOne(ordered[..], owner, data, k, slots, dimensions);
      ghost var before := ordered[..];
      ordered[index] := Some(data[k].vector);
      assert ordered[..] == before[index := Some(data[k].vector)];
      owner := owner[index := k];
    }
    AllPlaced(ordered[..], owner, data, slots, dimensions);
    var vectors := Collect(ordered);
    if vectors.None? {
      assert false;
      return Failure(MissingSlot);
    }
    return Success(vectors.value);
  }

  /** The slots as a list, or None when one was left empty. */
  method Collect(ordered: array<Option<Vector>>) returns (r: Option<seq<Vector>>)
    ensures r.Some? <==> forall i :: 0 <= i < ordered.Length ==> ordered[i].Some?
    ensures r.Some? ==> |r.value| == ordered.Length
    ensures r.Some? ==> forall i :: 0 <= i < ordered.Length ==> ordered[i] == Some(r.value[i])
  {
    var vectors: seq<Vector> := [];
    for i := 0 to ordered.Length
      invariant |vectors| == i && forall j :: 0 <= j < i ==> ordered[j] == Some(vectors[j])
    {
      if ordered[i].None? {
        return None;
      }
      vectors := vectors + [ordered[i].value];
    }
    return Some(vectors);
  }

  /** The order of the entries does not matter: two replies with the same entries put down the same vectors. */
  lemma {:induction false} EntryOrderDoesNotMatter(
    a: seq<Entry>, b: seq<Entry>, slots: nat, dimensions: nat, x: seq<Vector>, y: seq<Vector>)
    requires GoodReply(Answered(a), slots, dimensions) && (forall e :: e in a <==> e in b)
    requires |x| == slots == |y| && Follows(x, a) && Follows(y, b)
    ensures x == y
  {
    forall i | 0 <= i < slots
      ensures x[i] == y[i]
    {
      var k := EntryFor(a, slots, dimensions, i);
      assert a[k] in b;
      var l :| 0 <= l < |b| && b[l] == a[k];
    }
  }

  function Indexes(data: seq<Entry>, n: nat): set<int>
    requires n <= |data|
  {
    set k | 0 <= k < n && data[k].index.Some? :: data[k].index.value
  }

  lemma {:induction false} IndexesSize(data: seq<Entry>, slots: nat, dimensions: nat, n: nat)
    requires n <= |data| && forall k :: 0 <= k < n ==> Placeable(data, k, slots, dimensions)
    ensures |Indexes(data, n)| == n && forall i :: i in Indexes(data, n) ==> 0 <= i < slots
  {
    if n > 0 {
      IndexesSize(data, slots, dimensions, n - 1);
      assert Placeable(data, n - 1, slots, dimensions);
      assert Indexes(data, n) == Indexes(data, n - 1) + {data[n - 1].index.value};
    }
  }

  /** A good reply has an entry for every slot. */
  lemma {:induction false} EntryFor(data: seq<Entry>, slots: nat, dimensions: nat, i: int) returns (k: nat)
    requires GoodReply(Answered(data), slots, dimensions) && 0 <= i < slots
    ensures k < |data| && data[k].index == Some(i)
  {
    IndexesSize(data, slots, dimensions, |data|);
    PigeonHole(Indexes(data, |data|), slots);
    assert i in Indexes(data, |data|);
    k :| k < |data| && data[k].index == Some(i);
  }

  // ----- all requests -----------------------------------------------------

  /** The b-th request of _embed. */
  function Batch(texts: seq<string>, b: nat): seq<string> {
    var from := b * BATCH_SIZE;
    if from >= |texts| then []
    else if from + BATCH_SIZE <= |texts| then texts[from..from + BATCH_SIZE]
    else texts[from..]
  }

  function BatchCount(texts: seq<string>): nat {
    (|texts| + BATCH_SIZE - 1) / BATCH_SIZE
  }

  /** Text p goes out in request p / 32, behind those before it; the requests hold nothing else. */
  lemma {:induction false} SentOnce(texts: seq<string>, p: nat)
    requires p < |texts|
    ensures var batch := Batch(texts, p / 32);
      && p / 32 < BatchCount(texts) && p % 32 < |batch| <= 32 && batch[p % 32] == texts[p]
      && |batch| == if |texts| - p / 32 * 32 < 32 then |texts| - p / 32 * 32 else 32
    ensures 32 * (BatchCount(texts) - 1) < |texts| <= 32 * BatchCount(texts)
  {
  }

  /** The provider's reply to each request, by its number. */
  type Provider = nat -> Reply

  predicate GoodProvider(provider: Provider, texts: seq<string>, dimensions: nat) {
    forall b :: 0 <= b < BatchCount(texts) ==> GoodReply(provider(b), |Batch(texts, b)|, dimensions)
  }

  /** The vector of text p is the one its reply gives for its place in the request. */
  ghost predicate Answers(provider: Provider, texts: seq<string>, vectors: seq<Vector>, p: nat) {
    p < |vectors| && provider(p / BATCH_SIZE).Answered? &&
    exists e :: e in provider(p / BATCH_SIZE).data && e.index == Some(p % BATCH_SIZE) && e.vector == vectors[p]
  }

  lemma {:induction false} BatchAnswers(
    provider: Provider, texts: seq<string>, dimensions: nat, b: nat, part: seq<Vector>, vectors: seq<Vector>, i: nat)
    requires GoodReply(provider(b), |part|, dimensions) && Follows(part, provider(b).data)
    requires |part| <= BATCH_SIZE && i < |part|
    requires b * BATCH_SIZE + i < |vectors| && vectors[b * BATCH_SIZE + i] == part[i]
    ensures Answers(provider, texts, vectors, b * BATCH_SIZE + i)
  {
    var k := EntryFor(provider(b).data, |part|, dimensions, i);
    assert provider(b).data[k] in provider(b).data;
  }

  lemma {:induction false} AnswersGrow(
    provider: Provider, texts: seq<string>, dimensions: nat, b: nat, part: seq<Vector>, vectors: seq<Vector>)
    requires b * BATCH_SIZE == |vectors| && |part| <= BATCH_SIZE
    requires GoodReply(provider(b), |part|, dimensions) && Follows(part, provider(b).data)
    requires forall p :: 0 <= p < |vectors| ==> Answers(provider, texts, vectors, p)
    ensures forall p :: 0 <= p < |vectors + part| ==> Answers(provider, texts, vectors + part, p)
  {
    forall p | 0 <= p < |vectors + part|
      ensures Answers(provider, texts, vectors + part, p)
    {
      if p < |vectors| {
        assert Answers(provider, texts, vectors, p);
      } else {
        BatchAnswers(provider, texts, dimensions, b, part, vectors + part, p - |vectors|);
      }
    }
  }

  /** _embed: one vector per text in text order, unless a reply is not good. */
  method Embed(provider: Provider, texts: seq<string>, dimensions: nat) returns (result: Option<seq<Vector>>)
    ensures result.Some? <==> GoodProvider(provider, texts, dimensions)
    ensures result.Some? ==> |result.value| == |texts|
    ensures result.Some? ==> forall p :: 0 <= p < |texts| ==> Answers(provider, texts, result.value, p)
  {
    var vectors: seq<Vector> := [];
    var b := 0;
    while b * BATCH_SIZE < |texts|
      invariant |vectors| == if b * BATCH_SIZE < |texts| then b * BATCH_SIZE else |texts|
      invariant forall c :: 0 <= c < b ==> GoodReply(provider(c), |Batch(texts, c)|, dimensions)
      invariant forall p :: 0 <= p < |vectors| ==> Answers(provider, texts, vectors, p)
      decreases |texts| - b * BATCH_SIZE
    {
      var placed := PutInOrder(provider(b), |Batch(texts, b)|, dimensions);
      if placed.Failure? {
        return None;
      }
      AnswersGrow(provider, texts, dimensions, b, placed.value, vectors);
      vectors := vectors + placed.value;
      b := b + 1;
    }
    return Some(vectors);
  }

  // ----- back to the Items ------------------------------------------------

  function Flat<T>(items: seq<seq<T>>): seq<T> {
    if items == [] then [] else Flat(items[..|items| - 1]) + items[|items| - 1]
  }

  lemma {:induction false} FlatPrefix<T>(items: seq<seq<T>>, n: nat)
    requires n <= |items|
    ensures Flat(items[..n]) <= Flat(items)
  {
    if n < |items| {
      FlatPrefix(items[..|items| - 1], n);
      assert items[..|items| - 1][..n] == items[..n];
    } else {
      assert items[..n] == items;
    }
  }

  predicate SameShape<S, T>(a: seq<seq<S>>, b: seq<seq<T>>) {
    |a| == |b| && forall i :: 0 <= i < |a| ==> |a[i]| == |b[i]|
  }

  /** The vectors of each Item, as the cursor cuts them; nothing is left over. */
  method Partition(items: seq<seq<string>>, vectors: seq<Vector>) returns (parts: seq<seq<Vector>>)
    requires |vectors| == |Flat(items)|
    ensures SameShape(items, parts) && Flat(parts) == vectors
  {
    parts := [];
    var cursor := 0;
    for i := 0 to |items|
      invariant |parts| == i && cursor == |Flat(items[..i])| <= |vectors|
      invariant Flat(parts) == vectors[..cursor]
      invariant forall k :: 0 <= k < i ==> |parts[k]| == |items[k]|
    {
      FlatPrefix(items, i + 1);
      assert items[..i + 1][..i] == items[..i];
      var part := vectors[cursor..cursor + |items[i]|];
      assert (parts + [part])[..|parts|] == parts;
      assert vectors[..cursor] + part == vectors[..cursor + |items[i]|];
      parts := parts + [part];
      cursor := cursor + |items[i]|;
    }
    assert items[..|items|] == items;
  }

  lemma {:induction false} SameShapeSameLength<S, T>(a: seq<seq<S>>, b: seq<seq<T>>, n: nat)
    requires SameShape(a, b) && n <= |a|
    ensures |Flat(a[..n])| == |Flat(b[..n])|
  {
    if n > 0 {
      SameShapeSameLength(a, b, n - 1);
      assert a[..n][..n - 1] == a[..n - 1] && b[..n][..n - 1] == b[..n - 1];
    }
  }

  lemma {:induction false} FlatAt<T>(items: seq<seq<T>>, i: nat, j: nat)
    requires i < |items| && j < |items[i]|
    ensures |Flat(items[..i])| + j < |Flat(items)|
    ensures Flat(items)[|Flat(items[..i])| + j] == items[i][j]
  {
    FlatPrefix(items, i + 1);
    assert items[..i + 1][..i] == items[..i];
    assert Flat(items[..i + 1])[|Flat(items[..i])| + j] == items[i][j];
  }

  /** The provider embeds what it is sent: every entry carries the embedding of the text with its index. */
  ghost predicate Honest(provider: Provider, texts: seq<string>, embedding: string -> Vector) {
    forall b, e :: 0 <= b < BatchCount(texts) && provider(b).Answered? && e in provider(b).data
                   && e.index.Some? && 0 <= e.index.value < |Batch(texts, b)|
      ==> e.vector == embedding(Batch(texts, b)[e.index.value])
  }

  lemma {:induction false} HonestVector(
    provider: Provider, texts: seq<string>, vectors: seq<Vector>, p: nat, embedding: string -> Vector)
    requires Honest(provider, texts, embedding) && |vectors| == |texts| && p < |texts|
    requires Answers(provider, texts, vectors, p)
    ensures vectors[p] == embedding(texts[p])
  {
    var b := p / BATCH_SIZE;
    assert b * BATCH_SIZE <= p < |texts|;
    var e :| e in provider(b).data && e.index == Some(p % BATCH_SIZE) && e.vector == vectors[p];
    SentOnce(texts, p);
  }

  lemma {:induction false} ItemVector(
    provider: Provider, items: seq<seq<string>>, parts: seq<seq<Vector>>, vectors: seq<Vector>, i: nat, j: nat,
    embedding: string -> Vector)
    requires Honest(provider, Flat(items), embedding) && |vectors| == |Flat(items)|
    requires forall p :: 0 <= p < |vectors| ==> Answers(provider, Flat(items), vectors, p)
    requires SameShape(items, parts) && Flat(parts) == vectors && i < |items| && j < |items[i]|
    ensures parts[i][j] == embedding(items[i][j])
  {
    FlatAt(items, i, j);
    FlatAt(parts, i, j);
    SameShapeSameLength(items, parts, i);
    HonestVector(provider, Flat(items), vectors, |Flat(items[..i])| + j, embedding);
  }

  /** From replies in any order to Items: vector j of an Item is the embedding of chunk j of that Item. */
  method EmbedItems(provider: Provider, items: seq<seq<string>>, dimensions: nat, ghost embedding: string -> Vector)
    returns (result: Option<seq<seq<Vector>>>)
    requires Honest(provider, Flat(items), embedding)
    ensures result.Some? <==> GoodProvider(provider, Flat(items), dimensions)
    ensures result.Some? ==> SameShape(items, result.value)
    ensures result.Some? ==> forall i, j :: 0 <= i < |items| && 0 <= j < |items[i]| ==>
      result.value[i][j] == embedding(items[i][j])
  {
    var vectors := Embed(provider, Flat(items), dimensions);
    if vectors.None? {
      return None;
    }
    var parts := Partition(items, vectors.value);
    forall i, j | 0 <= i < |items| && 0 <= j < |items[i]|
      ensures parts[i][j] == embedding(items[i][j])
    {
      ItemVector(provider, items, parts, vectors.value, i, j, embedding);
    }
    return Some(parts);
  }
}
