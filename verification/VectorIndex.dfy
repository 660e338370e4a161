/** The vector index: points keyed by chunk id, outside every transaction of the repository. */
module VectorStore {
  import opened Records

  class VectorIndex {
    var points: map<Id, Payload>

    constructor ()
      ensures points == map[]
    {
      points := map[];
    }

    /** `upsert_chunks`: later entries win. */
    method UpsertChunks(batch: seq<(Id, Payload)>)
      modifies this
      ensures points == old(points) + AsMap(batch)
    {
      for i := 0 to |batch|
        invariant points == old(points) + AsMap(batch[..i])
      {
        assert batch[..i + 1][..i] == batch[..i];
        points := points[batch[i].0 := batch[i].1];
      }
      assert batch[..|batch|] == batch;
    }

    /** `set_payload` with `published`: ids without a point are ignored. */
    method SetPublished(ids: set<Id>)
      modifies this
      ensures points.Keys == old(points).Keys
      ensures forall c | c in points ::
                points[c] == if c in ids then old(points)[c].(published := true) else old(points)[c]
    {
      points := map c | c in points :: if c in ids then points[c].(published := true) else points[c];
    }
  }

  ghost function AsMap(batch: seq<(Id, Payload)>): map<Id, Payload> {
    if batch == [] then map[]
    else AsMap(batch[..|batch| - 1])[batch[|batch| - 1].0 := batch[|batch| - 1].1]
  }
}
