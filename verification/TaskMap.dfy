/** The table of outstanding render tasks: client ID to task ID to batch metadata. */
module TaskTable {
  import opened Wire
  import opened FrameRing
  import opened Fleet

  /** The metadata carries the goroutine's `done` channel; a channel is known by its serial number. */
  datatype Chan = Nil | Chan(serial: nat)
  datatype RenderTask = RenderTask(id: u32, start: u32, end: u32)
  datatype Meta = Meta(task: RenderTask, completed: bool, done: Chan)

  type TaskMap = map<u32, map<u32, Meta>>

  /** What a lookup of a missing key yields. */
  const ZERO_META: Meta := Meta(RenderTask(0, 0, 0), false, Nil)

  function NewFrameBatchMetadata(id: u32, start: u32, end: u32, serial: nat): Meta {
    Meta(RenderTask(id, start, end), false, Chan(serial))
  }

  predicate Has(m: TaskMap, client: u32, id: u32) {
    client in m && id in m[client]
  }

  /** The IDs under which a client has entries. */
  ghost function TasksOf(m: TaskMap, client: u32): set<u32> {
    set i | client in m && i in m[client] && Has(m, client, i)
  }

  function At(m: TaskMap, client: u32, id: u32): Meta {
    if Has(m, client, id) then m[client][id] else ZERO_META
  }

  ghost predicate NoEmptyInner(m: TaskMap) {
    forall c :: c in m ==> m[c] != map[]
  }

  function Put(m: TaskMap, client: u32, id: u32, x: Meta): TaskMap {
    m[client := (if client in m then m[client] else map[])[id := x]]
  }

  function Drop(m: TaskMap, client: u32, id: u32): TaskMap {
    if client !in m then m
    else var inner := m[client] - {id};
         if inner == map[] then m - {client} else m[client := inner]
  }

  /** Handing a task over: filed under the new pair, then removed from the old one. */
  function Move(m: TaskMap, client: u32, id: u32, client': u32, id': u32): TaskMap {
    Drop(Put(m, client', id', At(m, client, id)), client, id)
  }

  lemma PutLookup(m: TaskMap, client: u32, id: u32, x: Meta)
    ensures forall c, i :: Has(Put(m, client, id, x), c, i) <==> (c == client && i == id) || Has(m, c, i)
    ensures forall c, i :: Has(Put(m, client, id, x), c, i) ==>
                             At(Put(m, client, id, x), c, i) == if c == client && i == id then x else At(m, c, i)
    ensures NoEmptyInner(m) ==> NoEmptyInner(Put(m, client, id, x))
  {
    var m' := Put(m, client, id, x);
    assert id in m'[client];
  }

  lemma DropLookup(m: TaskMap, client: u32, id: u32)
    ensures forall c, i :: Has(Drop(m, client, id), c, i) <==> !(c == client && i == id) && Has(m, c, i)
    ensures forall c, i :: Has(Drop(m, client, id), c, i) ==> At(Drop(m, client, id), c, i) == At(m, c, i)
    ensures NoEmptyInner(m) ==> NoEmptyInner(Drop(m, client, id))
  {
    if client in m {
      var inner := m[client] - {id};
      forall i | i in m[client] && i != id
        ensures i in inner && inner != map[]
      {
      }
    }
  }

  /** A handoff moves one entry and touches no other. */
  lemma MoveLookup(m: TaskMap, client: u32, id: u32, client': u32, id': u32)
    requires client != client'
    ensures var m' := Move(m, client, id, client', id');
            && (forall c, i :: Has(m', c, i) <==>
                                 (c == client' && i == id') || (!(c == client && i == id) && Has(m, c, i)))
            && (forall c, i :: Has(m', c, i) ==> At(m', c, i) == if c == client' && i == id' then At(m, client, id)
                else At(m, c, i))
            && (NoEmptyInner(m) ==> NoEmptyInner(m'))
  {
    PutLookup(m, client', id', At(m, client, id));
    DropLookup(Put(m, client', id', At(m, client, id)), client, id);
  }

  /** Without an empty inner map, a map with no entry is the empty map. */
  lemma NoEntryNoMap(m: TaskMap)
    requires NoEmptyInner(m)
    requires forall c, i :: !Has(m, c, i)
    ensures m == map[]
  {
    forall c | c in m
      ensures false
    {
      assert m[c] != map[];
      var i :| i in m[c];
      assert Has(m, c, i);
    }
  }

  // -------------------------------------------------------------- saving a result

  /** Everything a save reads or changes under the map's lock. */
  datatype Store = Store(tasks: TaskMap, closed: set<nat>, ring: Ring)

  datatype SaveOutcome = Unassigned | Duplicate | Saved | WriteFailed | Panicked

  function Save(s: Store, client: u32, id: u32, frames: seq<byte>): (SaveOutcome, Store)
    requires |s.ring.data| == BUFFER_SIZE && |frames| == BATCH_SIZE
  {
    if !Has(s.tasks, client, id) then (Unassigned, s)
    else
      var meta := At(s.tasks, client, id);
      if meta.completed then (Duplicate, s)
      else
        match Write(s.ring, meta.task.start, meta.task.end, frames)
        case (StartAfterEnd, _) => (WriteFailed, s)
        case (OutOfBounds, _) => (Panicked, s)
        case (Stored, ring) =>
          var tasks := Put(s.tasks, client, id, meta.(completed := true));
          if meta.done.Nil? || meta.done.serial in s.closed then (Panicked, Store(tasks, s.closed, ring))
          else (Saved, Store(tasks, s.closed + {meta.done.serial}, ring))
  }

  /** An entry whose result can be stored: its range is in order and fits, and its flag says whether its channel,
      which it has, is closed. */
  ghost predicate SoundEntry(s: Store, m: Meta) {
    && m.task.start <= m.task.end && Offset(m.task.start) + BATCH_SIZE <= BUFFER_SIZE
    && m.done.Chan? && (m.completed <==> m.done.serial in s.closed)
  }

  ghost predicate Sound(s: Store) {
    forall c, i :: Has(s.tasks, c, i) ==> SoundEntry(s, At(s.tasks, c, i))
  }

  /** In a sound table a save never fails and never panics; what it reports says what it found. */
  lemma SoundSaves(s: Store, client: u32, id: u32, frames: seq<byte>)
    requires Sound(s) && |s.ring.data| == BUFFER_SIZE && |frames| == BATCH_SIZE
    ensures var out := Save(s, client, id, frames).0;
            && (out == Unassigned <==> !Has(s.tasks, client, id))
            && (out == Duplicate <==> Has(s.tasks, client, id) && At(s.tasks, client, id).completed)
            && (out == Saved <==> Has(s.tasks, client, id) && !At(s.tasks, client, id).completed)
  {
    if Has(s.tasks, client, id) {
      assert SoundEntry(s, At(s.tasks, client, id));
    }
  }

  // -------------------------------------------------------------------- the table

  class FrameBatchMap {
    var frameBatches: TaskMap
    var closed: set<nat> // serial numbers of the closed done channels
    const buffer: FrameBuffer

    ghost function View(): Store
      reads this, buffer, buffer.buffer
    {
      Store(frameBatches, closed, buffer.View())
    }

    constructor (fb: FrameBuffer)
      ensures buffer == fb && frameBatches == map[] && closed == {}
    {
      frameBatches, closed, buffer := map[], {}, fb;
    }

    method AddFrameBatch(clientID: u32, frameBatch: Meta)
      modifies this`frameBatches
      ensures frameBatches == Put(old(frameBatches), clientID, frameBatch.task.id, frameBatch)
    {
      Insert(clientID, frameBatch.task.id, frameBatch);
    }

    /** The insertion that adding and switching share: the inner map is made on first use. */
    method Insert(clientID: u32, renderTaskID: u32, meta: Meta)
      modifies this`frameBatches
      ensures frameBatches == Put(old(frameBatches), clientID, renderTaskID, meta)
    {
      if clientID !in frameBatches {
        frameBatches := frameBatches[clientID := map[]];
      }
      var inner: map<u32, Meta> := frameBatches[clientID];
      frameBatches := frameBatches[clientID := inner[renderTaskID := meta]];
    }

    /** How many tasks a client holds; since no inner map stays empty, none exactly when it is not in the table. */
    method GetLength(clientID: u32) returns (n: nat)
      ensures n == |TasksOf(frameBatches, clientID)|
      ensures n == 0 <==> forall i: u32 :: !Has(frameBatches, clientID, i)
      ensures NoEmptyInner(frameBatches) ==> (n == 0 <==> clientID !in frameBatches)
    {
      assert clientID in frameBatches ==> frameBatches[clientID].Keys == TasksOf(frameBatches, clientID);
      assert forall i: u32 :: Has(frameBatches, clientID, i) <==> i in TasksOf(frameBatches, clientID);
      n := if clientID in frameBatches then |frameBatches[clientID]| else 0;
    }

    /** Switching to the same client panics before anything changes. */
    method SwitchRenderTaskExecutor(renderTaskID: u32, clientID: u32, newClient: Client)
      returns (panicked: bool, newRenderTaskID: u32)
      modifies this`frameBatches, newClient`numRenderTasks
      ensures panicked <==> clientID == newClient.id
      ensures panicked ==> frameBatches == old(frameBatches)
      ensures panicked ==> newClient.numRenderTasks == old(newClient.numRenderTasks)
      ensures !panicked ==> newRenderTaskID == old(newClient.numRenderTasks)
      ensures !panicked ==> newClient.numRenderTasks == (old(newClient.numRenderTasks) as int + 1) % TWO_32
      ensures !panicked
              ==> frameBatches == Move(old(frameBatches), clientID, renderTaskID, newClient.id, newRenderTaskID)
    {
      if clientID == newClient.id {
        return true, 0;
      }
      panicked := false;
      var fbMeta := At(frameBatches, clientID, renderTaskID);
      newRenderTaskID := newClient.GenerateNewRenderTaskID();
      Insert(newClient.id, newRenderTaskID, fbMeta);
      DeleteRenderTask(clientID, renderTaskID);
    }

    method DeleteRenderTask(clientID: u32, renderTaskID: u32)
      modifies this`frameBatches
      ensures frameBatches == Drop(old(frameBatches), clientID, renderTaskID)
    {
      if clientID in frameBatches {
        frameBatches := frameBatches[clientID := frameBatches[clientID] - {renderTaskID}];
        if |frameBatches[clientID]| == 0 {
          frameBatches := frameBatches - {clientID};
        }
      }
    }

    method SaveRenderResult(clientID: u32, renderResult: RenderResult) returns (out: SaveOutcome)
      requires buffer.Valid() && |renderResult.frames| == BATCH_SIZE
      modifies this`frameBatches, this`closed, buffer.buffer
      ensures buffer.Valid()
      ensures (out, View()) == Save(old(View()), clientID, renderResult.id, renderResult.frames)
      ensures out == Unassigned <==> !Has(old(frameBatches), clientID, renderResult.id)
      ensures out == Duplicate <==>
                Has(old(frameBatches), clientID, renderResult.id)
                && At(old(frameBatches), clientID, renderResult.id).completed
      ensures out == Unassigned || out == Duplicate || out == WriteFailed ==> View() == old(View())
      ensures Sound(old(View())) ==> out != WriteFailed && out != Panicked
    {
      if Sound(View()) {
        SoundSaves(View(), clientID, renderResult.id, renderResult.frames);
      }
      if !Has(frameBatches, clientID, renderResult.id) {
        return Unassigned;
      }
      var batchMetadata := frameBatches[clientID][renderResult.id];
      if batchMetadata.completed {
        return Duplicate;
      }
      var written := buffer.AddFramesToBuffer(batchMetadata.task.start, batchMetadata.task.end, renderResult.frames);
      if written == StartAfterEnd {
        return WriteFailed;
      }
      if written == OutOfBounds {
        return Panicked;
      }
      frameBatches := Put(frameBatches, clientID, renderResult.id, batchMetadata.(completed := true));
      if batchMetadata.done.Nil? || batchMetadata.done.serial in closed {
        return Panicked;
      }
      closed := closed + {batchMetadata.done.serial};
      out := Saved;
    }
  }

  /** One message in a client's read loop; the connection is kept unless the message or its storing fails. A message
      of another type changes nothing and costs nothing; over a sound table only an empty message, or an answer that
      is not one whole batch long, ends the connection. */
  method HandleReceivedMessage(c: Client, batchMap: FrameBatchMap, data: seq<byte>) returns (kept: bool)
    requires batchMap.buffer.Valid()
    modifies batchMap`frameBatches, batchMap`closed, batchMap.buffer.buffer
    ensures batchMap.buffer.Valid()
    ensures match Classify(data)
            case Invalid(_) => !kept && batchMap.View() == old(batchMap.View())
            case Ignored => kept && batchMap.View() == old(batchMap.View())
            case Answer(r) =>
              && |r.frames| == BATCH_SIZE
              && var (out, store) := Save(old(batchMap.View()), c.id, r.id, r.frames);
                 batchMap.View() == store && (kept <==> out != WriteFailed && out != Panicked)
    ensures |data| > 0 && data[0] != RENDER_RESULT ==> kept && batchMap.View() == old(batchMap.View())
    ensures |data| == 0 || (data[0] == RENDER_RESULT && |data| != MAX_INCOMING_BYTES) ==>
              !kept && batchMap.View() == old(batchMap.View())
    ensures Sound(old(batchMap.View())) ==>
              (!kept <==> |data| == 0 || (data[0] == RENDER_RESULT && |data| != MAX_INCOMING_BYTES))
  {
    if |data| == 0 {
      return false;
    }
    if data[0] != RENDER_RESULT {
      return true;
    }
    match NewRenderResult(data[1..]) {
      case Err(_) =>
        return false;
      case Ok(renderResult) =>
        var out := batchMap.SaveRenderResult(c.id, renderResult);
        kept := out != WriteFailed && out != Panicked;
    }
  }
}
