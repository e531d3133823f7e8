/**
  The vector-store resource the indexing assets use. Each namespace of the
  index is a map from vector id to record; a fetch reads it and an upsert
  overwrites by id. The Pinecone client behind it is not part of this model.
 */
module Resources {

  /** An embedding, as returned by the embedding service. */
  type Embedding = seq<real>

  /** Vector metadata; its values are modelled as strings. */
  type Metadata = map<string, string>

  /** One vector of an upsert request. */
  datatype Vector = Vector(id: string, values: Embedding, metadata: Metadata)

  /** What the index keeps for one id. */
  datatype Record = Record(values: Embedding, metadata: Metadata)

  /** The entries of one namespace, by vector id. */
  type Entries = map<string, Record>

  /** One call of `upsert`, as the service receives it. */
  datatype UpsertRequest = UpsertRequest(namespace: string, vectors: seq<Vector>)

  function RecordOf(v: Vector): Record
  {
    Record(v.values, v.metadata)
  }

  function IdSet(vectors: seq<Vector>): set<string>
  {
    set i | 0 <= i < |vectors| :: vectors[i].id
  }

  /** `vectors[i]` is the last vector of the request with its id. */
  ghost predicate IsLastWrite(vectors: seq<Vector>, i: int)
  {
    0 <= i < |vectors| && forall j :: i < j < |vectors| ==> vectors[j].id != vectors[i].id
  }

  /** Upserting `vectors` into `entries` one after the other, each overwriting by id. */
  function UpsertAll(entries: Entries, vectors: seq<Vector>): Entries
  {
    if vectors == [] then entries
    else UpsertAll(entries, vectors[..|vectors| - 1])[vectors[|vectors| - 1].id := RecordOf(vectors[|vectors| - 1])]
  }

  /**
    The overwrite-by-id semantics of an upsert: the keys become the old keys
    plus the written ids, an id that is not written keeps its record, and a
    written id holds the record of the last vector written under it.
   */
  lemma UpsertAllSpec(entries: Entries, vectors: seq<Vector>)
    ensures var r := UpsertAll(entries, vectors);
      && r.Keys == entries.Keys + IdSet(vectors)
      && (forall k :: k in entries && k !in IdSet(vectors) ==> r[k] == entries[k])
      && (forall i :: IsLastWrite(vectors, i) ==> r[vectors[i].id] == RecordOf(vectors[i]))
  {
    UpsertAllKeys(entries, vectors);
    UpsertAllKeeps(entries, vectors);
    UpsertAllLastWrite(entries, vectors);
  }

  lemma {:induction false} UpsertAllKeys(entries: Entries, vectors: seq<Vector>)
    ensures UpsertAll(entries, vectors).Keys == entries.Keys + IdSet(vectors)
    decreases |vectors|
  {
    if vectors != [] {
      var init := vectors[..|vectors| - 1];
      UpsertAllKeys(entries, init);
      IdSetInit(vectors);
    }
  }

  lemma IdSetInit(vectors: seq<Vector>)
    requires vectors != []
    ensures IdSet(vectors) == IdSet(vectors[..|vectors| - 1]) + {vectors[|vectors| - 1].id}
  {
    var init := vectors[..|vectors| - 1];
    assert forall i :: 0 <= i < |init| ==> init[i] == vectors[i];
  }

  lemma {:induction false} UpsertAllKeeps(entries: Entries, vectors: seq<Vector>)
    ensures forall k :: k in entries && k !in IdSet(vectors) ==>
      k in UpsertAll(entries, vectors) && UpsertAll(entries, vectors)[k] == entries[k]
    decreases |vectors|
  {
    if vectors != [] {
      var init := vectors[..|vectors| - 1];
      UpsertAllKeeps(entries, init);
      IdSetInit(vectors);
    }
  }

  lemma {:induction false} UpsertAllLastWrite(entries: Entries, vectors: seq<Vector>)
    ensures forall i :: IsLastWrite(vectors, i) ==>
      vectors[i].id in UpsertAll(entries, vectors) && UpsertAll(entries, vectors)[vectors[i].id] == RecordOf(vectors[i])
    decreases |vectors|
  {
    if vectors != [] {
      var init := vectors[..|vectors| - 1];
      var last := vectors[|vectors| - 1];
      var before := UpsertAll(entries, init);
      var r := UpsertAll(entries, vectors);
      assert r == before[last.id := RecordOf(last)];
      UpsertAllLastWrite(entries, init);
      forall i | IsLastWrite(vectors, i)
        ensures vectors[i].id in r && r[vectors[i].id] == RecordOf(vectors[i])
      {
        if i < |init| {
          assert vectors[i] == init[i];
          assert IsLastWrite(init, i) by {
            forall j | i < j < |init| ensures init[j].id != init[i].id {
              assert init[j] == vectors[j];
            }
          }
        }
      }
    }
  }

  /** The resource: its namespaces, and the ghost log of the upsert calls it received. */
  class PineconeResource {
    var namespaces: map<string, Entries>
    ghost var requests: seq<UpsertRequest>

    constructor (initial: map<string, Entries>)
      ensures namespaces == initial && requests == []
    {
      namespaces := initial;
      requests := [];
    }

    /** The entries of a namespace; a namespace nobody wrote to is empty. */
    function Namespace(ns: string): Entries
      reads this
    {
      if ns in namespaces then namespaces[ns] else map[]
    }

    /** The index's `fetch`: the records of those of `ids` that are present. */
    method Fetch(ids: seq<string>, namespace: string) returns (vectors: map<string, Record>)
      ensures vectors.Keys == (set i | 0 <= i < |ids| :: ids[i]) * Namespace(namespace).Keys
      ensures forall k :: k in vectors ==> vectors[k] == Namespace(namespace)[k]
    {
      var entries := Namespace(namespace);
      vectors := map i | 0 <= i < |ids| && ids[i] in entries :: ids[i] := entries[ids[i]];
    }

    /** `is_document_already_indexed`: whether the fetch of `id` returns anything. */
    method IsDocumentAlreadyIndexed(id: string, namespace: string) returns (indexed: bool)
      ensures indexed <==> id in Namespace(namespace)
    {
      var results := Fetch([id], namespace);
      if id in Namespace(namespace) {
        assert [id][0] == id;
        assert id in results.Keys;
      } else {
        assert results.Keys == {};
      }
      indexed := |results| > 0;
    }

    /** `upsert`: one request that writes `vectors` into `namespace`, overwriting by id. */
    method Upsert(vectors: seq<Vector>, namespace: string)
      modifies this
      ensures namespaces == old(namespaces)[namespace := UpsertAll(old(Namespace(namespace)), vectors)]
      ensures requests == old(requests) + [UpsertRequest(namespace, vectors)]
    {
      namespaces := namespaces[namespace := UpsertAll(Namespace(namespace), vectors)];
      requests := requests + [UpsertRequest(namespace, vectors)];
    }
  }

  /** Upserting `a` and then `b` is upserting `a + b`. */
  lemma {:induction false} UpsertAllAppend(entries: Entries, a: seq<Vector>, b: seq<Vector>)
    ensures UpsertAll(UpsertAll(entries, a), b) == UpsertAll(entries, a + b)
  {
    if b != [] {
      var init := b[..|b| - 1];
      assert (a + b)[..|a + b| - 1] == a + init;
      assert (a + b)[|a + b| - 1] == b[|b| - 1];
      UpsertAllAppend(entries, a, init);
    } else {
      assert a + b == a;
    }
  }

  /** Every written id has a last write. */
  lemma LastWriteExists(vectors: seq<Vector>, k: string) returns (i: nat)
    requires k in IdSet(vectors)
    ensures IsLastWrite(vectors, i) && vectors[i].id == k
  {
    var j :| 0 <= j < |vectors| && vectors[j].id == k;
    i := j;
    while i < |vectors| - 1 && exists m :: i < m < |vectors| && vectors[m].id == k
      invariant j <= i < |vectors| && vectors[i].id == k
      decreases |vectors| - i
    {
      var m :| i < m < |vectors| && vectors[m].id == k;
      i := m;
    }
  }

  /** Upsert is idempotent: repeating the same request leaves the namespace as it was. */
  lemma UpsertAllIdempotent(entries: Entries, vectors: seq<Vector>)
    ensures UpsertAll(UpsertAll(entries, vectors), vectors) == UpsertAll(entries, vectors)
  {
    var once := UpsertAll(entries, vectors);
    var twice := UpsertAll(once, vectors);
    UpsertAllSpec(entries, vectors);
    UpsertAllSpec(once, vectors);
    forall k | k in once ensures twice[k] == once[k] {
      if k in IdSet(vectors) {
        var i := LastWriteExists(vectors, k);
      }
    }
  }
}
