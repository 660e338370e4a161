/** Reviewing and acknowledging as the API runs them, held against the functions of
    `Services`. */
module ApiServices {
  import opened Options
  import opened Records
  import opened Store
  import opened Services
  import opened Repository
  import opened VectorStore

  /** How a service call ends: the HTTP errors of the program, or an exception of one of the
      stores that reaches the caller. */
  datatype Reply = Accepted | NotFound | AlreadyFinal | StoreRaised

  class ReviewService {
    const repository: MetadataRepository
    const index: VectorIndex

    constructor (repository: MetadataRepository, index: VectorIndex)
      ensures this.repository == repository && this.index == index
    {
      this.repository, this.index := repository, index;
    }

    ghost function World(): World
      reads repository, index
    {
      Records.World(repository.State(), index.points)
    }

    /** `apply_action`. Only a pending item is touched; a refused call changes nothing. An accepted
        one leaves row, item and point in agreement; it raises, short of a rejection, exactly if the
        chunk is missing or the index fails. */
    method ApplyAction(call: ReviewCall, indexFails: bool) returns (reply: Reply)
      modifies repository, index
      ensures World() == ApplyReview(old(World()), call, indexFails)
      ensures reply == NotFound <==> call.item !in old(repository.reviews)
      ensures reply == AlreadyFinal <==> call.item in old(repository.reviews)
                                         && old(repository.reviews)[call.item].status != Pending
      ensures reply == NotFound || reply == AlreadyFinal ==> World() == old(World())
      ensures ReviewLeaves(old(World()), World(), call, indexFails)
      ensures reply == StoreRaised ==> call.item in old(repository.reviews)
      ensures call.item in old(repository.reviews) ==>
                var item, edited := old(repository.reviews)[call.item], call.edit.chunkId;
                (reply == StoreRaised <==>
                   && item.status == Pending && call.action != Reject
                   && (indexFails
                       || (if edited.Some? then edited.value else item.point.chunkId) !in old(repository.chunks)))
    {
      hide Edited, StatusOf, ReviewLeaves, UpdateChunk;
      ReviewOutcome(World(), call, indexFails);
      if call.item !in repository.reviews {
        return NotFound;
      }
      var item := repository.reviews[call.item];
      if item.status != Pending {
        return AlreadyFinal;
      }
      var content := if call.content.Some? then call.content.value else item.content;
      var point := EditPayload(item.point, call.edit);
      var status := NextStatus(call.action);
      var ok := repository.MarkReviewItem(call.item, status, call.reviewer,
                                          if call.action == Modify then Some(content) else None, point);
      if call.action == Reject {
        return Accepted;
      }
      UpdateNeedsChunk(repository.State(), repository.reviews[call.item]);
      reply := CommitReviewedItem(repository.reviews[call.item], indexFails);
    }

    /** `_commit_reviewed_item`. */
    method CommitReviewedItem(item: ReviewItem, indexFails: bool) returns (reply: Reply)
      modifies repository, index
      ensures var updated := UpdateChunk(old(repository.State()), item.point.chunkId, item.content, item.status);
              && (reply == if updated == None || indexFails then StoreRaised else Accepted)
              && repository.State() == (if updated == None then old(repository.State()) else updated.value)
              && index.points == if reply == Accepted then old(index.points)[item.point.chunkId := item.point]
                                 else old(index.points)
    {
      hide UpdateChunk;
      var ok := repository.UpdateChunkContent(item.point.chunkId, item.content, item.status);
      if !ok || indexFails {
        return StoreRaised;
      }
      OnePointBatch(item.point.chunkId, item.point, index.points);
      index.UpsertChunks([(item.point.chunkId, item.point)]);
      reply := Accepted;
    }
  }

  lemma UpdateNeedsChunk(db: Db, item: ReviewItem)
    ensures UpdateChunk(db, item.point.chunkId, item.content, item.status) == None <==>
            item.point.chunkId !in db.chunks
  {
  }

  /** The stored payload updated with what the reviewer gave. */
  method EditPayload(held: Payload, edit: Edit) returns (point: Payload)
    ensures point == Edited(held, edit) && EditedAs(held, point, edit)
  {
    point := held;
    if edit.documentId.Some? { point := point.(documentId := edit.documentId.value); }
    if edit.chunkId.Some? { point := point.(chunkId := edit.chunkId.value); }
    if edit.sourceType.Some? { point := point.(sourceType := edit.sourceType.value); }
    if edit.tags.Some? { point := point.(tags := edit.tags.value); }
    if edit.chunkIndex.Some? { point := point.(chunkIndex := edit.chunkIndex.value); }
    if edit.workspaceId.Some? { point := point.(workspaceId := edit.workspaceId.value); }
    if edit.published.Some? { point := point.(published := edit.published.value); }
  }

  method NextStatus(action: ReviewAction) returns (status: ReviewStatus)
    ensures status == StatusOf(action)
  {
    match action {
      case Approve => status := Approved;
      case Reject => status := Rejected;
      case Modify => status := Modified;
    }
  }

  lemma OnePointBatch(c: Id, p: Payload, points: map<Id, Payload>)
    ensures points + AsMap([(c, p)]) == points[c := p]
  {
  }

  class AckService {
    const repository: MetadataRepository
    const index: VectorIndex

    constructor (repository: MetadataRepository, index: VectorIndex)
      ensures this.repository == repository && this.index == index
    {
      this.repository, this.index := repository, index;
    }

    ghost function World(): World
      reads repository, index
    {
      Records.World(repository.State(), index.points)
    }

    /** `ack`: an unknown or already acknowledged document is refused and nothing changes. */
    method Ack(d: Id, actor: string, now: int, indexFails: bool) returns (reply: Reply)
      modifies repository, index
      ensures World() == ApplyAck(old(World()), d, actor, now, indexFails)
      ensures reply == Accepted <==> AckDocument(old(repository.State()), d, actor, now).Some?
                                     && !(indexFails && ChunksOf(old(repository.State()), d) != {})
    {
      var ok, chunkIds := repository.AcknowledgeDocument(d, actor, now);
      if !ok {
        return StoreRaised;
      }
      if chunkIds != {} {
        if indexFails {
          return StoreRaised;
        }
        index.SetPublished(chunkIds);
      }
      reply := Accepted;
    }
  }
}
