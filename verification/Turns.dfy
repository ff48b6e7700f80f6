/** The orchestrator's loop bodies on the real objects, run without interruption. The pipeline module
    splits the same bodies into their locked sections and lets everything interleave. */
module Turns {
  import opened Wire
  import opened FrameRing
  import opened Fleet
  import opened TaskTable

  /** A broadcaster turn after both waits: every client is offered exactly the oldest `seconds` batches,
      which then leave the FIFO; the removal does not panic. */
  method BroadcastTurn(buffer: FrameBuffer, pool: ClientPool, seconds: nat)
    requires buffer.Valid() && Aligned(buffer.View()) && Enough(buffer.View(), seconds)
    modifies buffer`tail, pool.clients
    ensures buffer.Valid() && pool.clients == old(pool.clients)
    ensures forall c :: c in pool.clients ==>
                          c.History() == Offer(old(c.History()),
                              Frames(old(Contents(buffer.View()))[..seconds * BATCH_SIZE]))
    ensures Contents(buffer.View()) == old(Contents(buffer.View()))[seconds * BATCH_SIZE..]
  {
    ReadTakesPrefix(buffer.View(), seconds);
    RemoveDropsPrefix(buffer.View(), seconds);
    var frames := buffer.GetFramesToBroadcast(seconds);
    pool.BroadcastEncoded(Frames(frames.value));
    var panicked := buffer.RemoveSentFramesFromBuffer(seconds);
    assert !panicked;
  }

  /** The start of a batch's goroutine once a worker is picked: number the task, file it, ask for it. */
  method StartTask(batchMap: FrameBatchMap, worker: Client, startFrame: u32, endFrame: u32, done: nat)
          returns (renderTaskID: u32)
    modifies batchMap`frameBatches, worker
    ensures renderTaskID == old(worker.numRenderTasks)
    ensures batchMap.frameBatches == Put(old(batchMap.frameBatches), worker.id, renderTaskID,
                                         NewFrameBatchMetadata(renderTaskID, startFrame, endFrame, done))
    ensures worker.History() == Offer(old(worker.History()), Work(renderTaskID, startFrame, endFrame))
    ensures worker.numRenderTasks == (old(worker.numRenderTasks) as int + 1) % TWO_32
  {
    renderTaskID := worker.GenerateNewRenderTaskID();
    batchMap.AddFrameBatch(worker.id, NewFrameBatchMetadata(renderTaskID, startFrame, endFrame, done));
    worker.RequestWork(renderTaskID, startFrame, endFrame);
  }

  /** A timeout turn once the next worker is picked: the same worker is asked again under its old ID, another one
      takes the entry over under an ID of its own; the switch never panics. */
  method RetryTask(batchMap: FrameBatchMap, worker: Client, next: Client, renderTaskID: u32, startFrame: u32,
          endFrame: u32)
    returns (newRenderTaskID: u32)
    requires worker == next <==> worker.id == next.id
    modifies batchMap`frameBatches, next
    ensures next.id == worker.id ==>
              newRenderTaskID == renderTaskID && batchMap.frameBatches == old(batchMap.frameBatches)
                  && next.numRenderTasks == old(next.numRenderTasks)
    ensures next.id != worker.id ==>
              && newRenderTaskID == old(next.numRenderTasks)
              && batchMap.frameBatches == Move(old(batchMap.frameBatches), worker.id, renderTaskID, next.id,
                  newRenderTaskID)
    ensures next.History() == Offer(old(next.History()), Work(newRenderTaskID, startFrame, endFrame))
  {
    newRenderTaskID := renderTaskID;
    if next.id != worker.id {
      var panicked;
      panicked, newRenderTaskID := batchMap.SwitchRenderTaskExecutor(renderTaskID, worker.id, next);
      assert !panicked;
    }
    next.RequestWork(newRenderTaskID, startFrame, endFrame);
  }
}
