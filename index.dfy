/**
 * The vector index as the end-to-end test supplies it: `FakeCollection`, an
 * append-only list of records with delete-by-source and prefix queries, and
 * `FakeClient`, whose class-level registry hands out one collection per
 * (path, name).  These are the only implementation of the index contract that
 * the ingestion and answering code is run against.
 */
module Index {
  import opened Wrappers

  /** A metadata dictionary reduced to the two keys the core reads and writes; an absent key is None, and `{}` is `Metadata(None, None)`. */
  datatype Metadata = Metadata(source: Option<string>, chunk: Option<int>)

  const NoMetadata: Metadata := Metadata(None, None)

  /** One stored record: `{"document", "embedding", "metadata", "id"}`. */
  datatype Entry = Entry(document: string, embedding: seq<real>, metadata: Metadata, id: string)

  /** A value in a `distances` list: a number, or anything else a store may put there. */
  datatype Value = Number(x: real) | NotNumber

  /**
   * The dictionary returned by `collection.query`: one list per query for each
   * of the four keys.  None stands for a key that is missing or holds None;
   * inner None entries stand for None values inside the lists.
   */
  datatype QueryResult = QueryResult(
    documents: Option<seq<seq<string>>>,
    metadatas: Option<seq<seq<Option<Metadata>>>>,
    ids: Option<seq<seq<string>>>,
    distances: Option<seq<seq<Option<Value>>>>)

  function Min(a: int, b: int): int {
    if a <= b then a else b
  }

  /** Python's `zip(documents, embeddings, metadatas, ids)` turned into records. */
  function Zip(ds: seq<string>, es: seq<seq<real>>, ms: seq<Metadata>, xs: seq<string>): (r: seq<Entry>)
    ensures |r| == Min(Min(|ds|, |es|), Min(|ms|, |xs|))
    ensures forall k :: 0 <= k < |r| ==> r[k] == Entry(ds[k], es[k], ms[k], xs[k])
  {
    if ds == [] || es == [] || ms == [] || xs == [] then []
    else [Entry(ds[0], es[0], ms[0], xs[0])] + Zip(ds[1..], es[1..], ms[1..], xs[1..])
  }

  /** The entries that survive `delete(where={"source": src})`: those whose metadata source differs from `src`. */
  function Without(es: seq<Entry>, src: string): (r: seq<Entry>)
    ensures |r| <= |es|
    ensures forall k :: 0 <= k < |r| ==> r[k].metadata.source != Some(src)
    ensures forall e :: e in r ==> e in es
  {
    if es == [] then []
    else if es[0].metadata.source == Some(src) then Without(es[1..], src)
    else [es[0]] + Without(es[1..], src)
  }

  /** Filtering distributes over concatenation. */
  lemma {:induction false} WithoutAppend(a: seq<Entry>, b: seq<Entry>, src: string)
    ensures Without(a + b, src) == Without(a, src) + Without(b, src)
    decreases |a|
  {
    if a == [] {
      assert a + b == b;
    } else {
      assert (a + b)[1..] == a[1..] + b;
      WithoutAppend(a[1..], b, src);
    }
  }

  /** Entries of other sources are kept, in order. */
  lemma {:induction false} WithoutOthers(es: seq<Entry>, src: string)
    requires forall k :: 0 <= k < |es| ==> es[k].metadata.source != Some(src)
    ensures Without(es, src) == es
    decreases |es|
  {
    if es != [] {
      WithoutOthers(es[1..], src);
      assert [es[0]] + es[1..] == es;
    }
  }

  /** Entries of `src` all disappear. */
  lemma {:induction false} WithoutOwn(es: seq<Entry>, src: string)
    requires forall k :: 0 <= k < |es| ==> es[k].metadata.source == Some(src)
    ensures Without(es, src) == []
    decreases |es|
  {
    if es != [] {
      WithoutOwn(es[1..], src);
    }
  }

  /** Deleting a source twice is deleting it once. */
  lemma {:induction false} WithoutTwice(es: seq<Entry>, src: string)
    ensures Without(Without(es, src), src) == Without(es, src)
  {
    WithoutOthers(Without(es, src), src);
  }

  /** Deleting one source does not disturb another source's deletion. */
  lemma {:induction false} WithoutCommutes(es: seq<Entry>, a: string, b: string)
    ensures Without(Without(es, a), b) == Without(Without(es, b), a)
    decreases |es|
  {
    if es != [] {
      WithoutCommutes(es[1..], a, b);
    }
  }

  /** The records of `src` that a list holds; what `Without` removes. */
  function Of(es: seq<Entry>, src: string): (r: seq<Entry>)
    ensures forall k :: 0 <= k < |r| ==> r[k].metadata.source == Some(src)
    ensures |r| + |Without(es, src)| == |es|
  {
    if es == [] then []
    else if es[0].metadata.source == Some(src) then [es[0]] + Of(es[1..], src)
    else Of(es[1..], src)
  }

  lemma {:induction false} OfAppend(a: seq<Entry>, b: seq<Entry>, src: string)
    ensures Of(a + b, src) == Of(a, src) + Of(b, src)
    decreases |a|
  {
    if a == [] {
      assert a + b == b;
    } else {
      assert (a + b)[1..] == a[1..] + b;
      OfAppend(a[1..], b, src);
    }
  }

  lemma {:induction false} OfAll(es: seq<Entry>, src: string)
    requires forall k :: 0 <= k < |es| ==> es[k].metadata.source == Some(src)
    ensures Of(es, src) == es
    decreases |es|
  {
    if es != [] {
      OfAll(es[1..], src);
      assert [es[0]] + es[1..] == es;
    }
  }

  lemma {:induction false} OfNone(es: seq<Entry>, src: string)
    requires forall k :: 0 <= k < |es| ==> es[k].metadata.source != Some(src)
    ensures Of(es, src) == []
    decreases |es|
  {
    if es != [] {
      OfNone(es[1..], src);
    }
  }

  /** Records of another source are untouched by deleting `src`. */
  lemma {:induction false} OfWithout(es: seq<Entry>, src: string, other: string)
    requires other != src
    ensures Of(Without(es, src), other) == Of(es, other)
    decreases |es|
  {
    if es != [] {
      OfWithout(es[1..], src, other);
    }
  }

  /** Python's `s[:n]` for any integer `n`: a negative stop counts from the end. */
  function Head<T>(s: seq<T>, n: int): (r: seq<T>)
    ensures n >= 0 ==> |r| == Min(n, |s|)
    ensures n < 0 ==> |r| == if |s| + n > 0 then |s| + n else 0
    ensures r == s[..|r|]
  {
    if n >= 0 then (if n <= |s| then s[..n] else s)
    else if |s| + n > 0 then s[..|s| + n]
    else []
  }

  class FakeCollection {
    const key: (string, string)
    var entries: seq<Entry>

    constructor (key: (string, string))
      ensures this.key == key && entries == []
    {
      this.key := key;
      entries := [];
    }

    /** `add`: appends one record per position the four lists share, in argument order. */
    method Add(documents: seq<string>, embeddings: seq<seq<real>>, metadatas: seq<Metadata>, ids: seq<string>)
      modifies this
      ensures entries == old(entries) + Zip(documents, embeddings, metadatas, ids)
    {
      var n := Min(Min(|documents|, |embeddings|), Min(|metadatas|, |ids|));
      var i := 0;
      while i < n
        invariant 0 <= i <= n
        invariant |entries| == |old(entries)| + i
        invariant entries[..|old(entries)|] == old(entries)
        invariant forall k :: 0 <= k < i ==>
          entries[|old(entries)| + k] == Entry(documents[k], embeddings[k], metadatas[k], ids[k])
      {
        entries := entries + [Entry(documents[i], embeddings[i], metadatas[i], ids[i])];
        i := i + 1;
      }
      var z := Zip(documents, embeddings, metadatas, ids);
      assert entries == old(entries) + z by {
        assert forall k :: 0 <= k < |z| ==> entries[|old(entries)| + k] == z[k];
      }
    }

    /** `delete(where)`: with a non-empty source, drops that source's records and keeps the rest in order; otherwise does nothing. */
    method Delete(source: Option<string>)
      modifies this
      ensures source.None? || source == Some("") ==> entries == old(entries)
      ensures source.Some? && source != Some("") ==> entries == Without(old(entries), source.value)
    {
      if source.Some? && source.value != "" {
        entries := Without(entries, source.value);
      }
    }

    /** `query(query_embeddings, n_results, include)`: the first `n_results` records (Python slice rules), nearest first, the query vector ignored. */
    function Query(nResults: int): (r: QueryResult)
      reads this
      ensures r.documents.Some? && r.metadatas.Some? && r.ids.Some? && r.distances.Some?
      ensures |r.documents.value| == 1 && |r.metadatas.value| == 1 && |r.ids.value| == 1 && |r.distances.value| == 1
      ensures var sel := Head(entries, nResults);
        && |r.documents.value[0]| == |sel| && |r.metadatas.value[0]| == |sel|
        && |r.ids.value[0]| == |sel| && |r.distances.value[0]| == |sel|
        && forall k :: 0 <= k < |sel| ==>
          && r.documents.value[0][k] == sel[k].document
          && r.metadatas.value[0][k] == Some(sel[k].metadata)
          && r.ids.value[0][k] == sel[k].id
          && r.distances.value[0][k] == Some(Number(k as real / 10.0))
    {
      var sel := Head(entries, nResults);
      QueryResult(
        Some([seq(|sel|, k requires 0 <= k < |sel| => sel[k].document)]),
        Some([seq(|sel|, k requires 0 <= k < |sel| => Some(sel[k].metadata))]),
        Some([seq(|sel|, k requires 0 <= k < |sel| => sel[k].id)]),
        Some([seq(|sel|, k requires 0 <= k < |sel| => Some(Number(k as real / 10.0)))]))
    }

    /** Reported distances grow strictly with rank. */
    lemma {:induction false} QueryDistancesIncrease(nResults: int, i: nat, j: nat)
      requires i < j < |Query(nResults).distances.value[0]|
      ensures var d := Query(nResults).distances.value[0];
        d[i].Some? && d[j].Some? && d[i].value.Number? && d[j].value.Number? && d[i].value.x < d[j].value.x
    {
    }
  }

  /** FakeClient's class-level `_registry`, shared by every client. */
  class Registry {
    var collections: map<(string, string), FakeCollection>

    constructor ()
      ensures collections == map[]
    {
      collections := map[];
    }

    /** Every collection is filed under its own key, so different keys hold different collections. */
    ghost predicate Valid()
      reads this, collections.Values
    {
      forall k :: k in collections ==> collections[k].key == k
    }
  }

  class FakeClient {
    const path: string
    const registry: Registry

    constructor (path: string, registry: Registry)
      ensures this.path == path && this.registry == registry
    {
      this.path := path;
      this.registry := registry;
    }

    /** `get_or_create_collection(name)`: the registered collection for (path, name), created empty on first use. */
    method GetOrCreateCollection(name: string) returns (c: FakeCollection)
      requires registry.Valid()
      modifies registry
      ensures registry.Valid()
      ensures (path, name) in registry.collections && c == registry.collections[(path, name)]
      ensures c.key == (path, name)
      ensures (path, name) in old(registry.collections) ==>
        registry.collections == old(registry.collections) && c == old(registry.collections[(path, name)])
      ensures (path, name) !in old(registry.collections) ==>
        fresh(c) && c.entries == [] && registry.collections == old(registry.collections)[(path, name) := c]
    {
      var k := (path, name);
      if k !in registry.collections {
        var created := new FakeCollection(k);
        registry.collections := registry.collections[k := created];
      }
      c := registry.collections[k];
    }
  }
}
