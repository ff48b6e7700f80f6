/** Connected clients as the server sees them: each client's bounded send queue,
    its task counter and teardown, and the pool that admits, picks and fans out. */
module Fleet {
  import opened Wire

  const SEND_QUEUE_SIZE: nat := 15

  // --------------------------------------------------- one client's send queue

  /** The queue, with the history of what was offered to it, taken from it and dropped. */
  datatype Link = Link(queue: seq<Msg>, offered: seq<Msg>, taken: seq<Msg>, dropped: nat)

  const EMPTY_LINK: Link := Link([], [], [], 0)

  /** A non-blocking send: a full queue drops the message. */
  function Offer(l: Link, m: Msg): Link {
    if |l.queue| < SEND_QUEUE_SIZE
    then l.(queue := l.queue + [m], offered := l.offered + [m])
    else l.(offered := l.offered + [m], dropped := l.dropped + 1)
  }

  /** The writer takes the oldest message. */
  function Take(l: Link): Link
    requires |l.queue| > 0
  {
    l.(queue := l.queue[1..], taken := l.taken + [l.queue[0]])
  }

  ghost predicate Subsequence(a: seq<Msg>, b: seq<Msg>)
    decreases |b|
  {
    if |b| == 0 then |a| == 0
    else || (|a| > 0 && a[|a| - 1] == b[|b| - 1] && Subsequence(a[..|a| - 1], b[..|b| - 1]))
         || Subsequence(a, b[..|b| - 1])
  }

  /** What a client has received and still has queued is, in order, part of what it was offered,
      and the missing messages are exactly the counted drops. */
  ghost predicate LinkOk(l: Link) {
    && |l.queue| <= SEND_QUEUE_SIZE
    && Subsequence(l.taken + l.queue, l.offered)
    && |l.offered| == |l.taken| + |l.queue| + l.dropped
  }

  lemma OfferOk(l: Link, m: Msg)
    requires LinkOk(l)
    ensures LinkOk(Offer(l, m))
  {
    var l' := Offer(l, m);
    assert l'.offered[..|l'.offered| - 1] == l.offered;
    if |l.queue| < SEND_QUEUE_SIZE {
      assert l'.taken + l'.queue == (l.taken + l.queue) + [m];
      assert (l'.taken + l'.queue)[..|l.taken + l.queue|] == l.taken + l.queue;
    }
  }

  lemma TakeOk(l: Link)
    requires LinkOk(l) && |l.queue| > 0
    ensures LinkOk(Take(l))
    ensures Take(l).taken + Take(l).queue == l.taken + l.queue
  {
    assert l.queue == [l.queue[0]] + l.queue[1..];
    assert Take(l).taken + Take(l).queue == l.taken + l.queue;
  }

  lemma {:induction false} FullSubsequenceIsAll(a: seq<Msg>, b: seq<Msg>)
    requires Subsequence(a, b)
    ensures |a| <= |b|
    ensures |a| == |b| ==> a == b
    decreases |b|
  {
    if |b| == 0 {
    } else {
      var b' := b[..|b| - 1];
      if |a| > 0 && a[|a| - 1] == b[|b| - 1] && Subsequence(a[..|a| - 1], b') {
        FullSubsequenceIsAll(a[..|a| - 1], b');
        assert a == a[..|a| - 1] + [a[|a| - 1]] && b == b' + [b[|b| - 1]];
      } else {
        FullSubsequenceIsAll(a, b');
      }
    }
  }

  /** A client that lost nothing has received, or still has queued, everything offered, in order. */
  lemma NothingDroppedNothingMissing(l: Link)
    requires LinkOk(l) && l.dropped == 0
    ensures l.taken + l.queue == l.offered
  {
    FullSubsequenceIsAll(l.taken + l.queue, l.offered);
  }

  datatype LinkOp = Offered(m: Msg) | Written

  /** One event at a queue; the writer blocks while it is empty. */
  function LinkStep(l: Link, op: LinkOp): Link {
    match op
    case Offered(m) => Offer(l, m)
    case Written => if |l.queue| > 0 then Take(l) else l
  }

  /** A run of one queue. */
  function RunLink(ops: seq<LinkOp>): Link {
    if |ops| == 0 then EMPTY_LINK else LinkStep(RunLink(ops[..|ops| - 1]), ops[|ops| - 1])
  }

  /** Whatever is offered and whenever the writer runs: at most 15 messages wait, the writer's output is an
      in-order subsequence of the offers, and every offer is written, waiting or dropped. */
  lemma {:induction false} EveryQueueRunIsOrdered(ops: seq<LinkOp>)
    ensures LinkOk(RunLink(ops))
  {
    if |ops| == 0 {
    } else {
      var l := RunLink(ops[..|ops| - 1]);
      EveryQueueRunIsOrdered(ops[..|ops| - 1]);
      match ops[|ops| - 1]
      case Offered(m) => OfferOk(l, m);
      case Written => if |l.queue| > 0 { TakeOk(l); }
    }
  }

  /** How long the queue would get if it had no bound. */
  function Backlog(ops: seq<LinkOp>): nat {
    if |ops| == 0 then 0
    else var b := Backlog(ops[..|ops| - 1]);
         match ops[|ops| - 1]
         case Offered(_) => b + 1
         case Written => if b > 0 then b - 1 else 0
  }

  /** At no point of the run did that queue outgrow the real one. */
  ghost predicate KeepsUp(ops: seq<LinkOp>) {
    |ops| == 0 || (KeepsUp(ops[..|ops| - 1]) && Backlog(ops) <= SEND_QUEUE_SIZE)
  }

  /** A client loses a message exactly when, at some point, more than 15 are waiting for its writer. */
  lemma {:induction false} LosesNothingExactlyWhenKeepingUp(ops: seq<LinkOp>)
    ensures RunLink(ops).dropped == 0 <==> KeepsUp(ops)
    ensures KeepsUp(ops) ==> |RunLink(ops).queue| == Backlog(ops)
  {
    if |ops| == 0 {
    } else {
      LosesNothingExactlyWhenKeepingUp(ops[..|ops| - 1]);
      EveryQueueRunIsOrdered(ops[..|ops| - 1]);
    }
  }

  // ------------------------------------------------------------------ the client

  class Client {
    const id: u32
    var numRenderTasks: u32
    var send: seq<Msg>
    var pool: ClientPool?
    var quit: bool      // the channel that stops the writer is closed
    var connected: bool // the socket is open
    var torn: bool      // the once-only teardown has been run
    ghost var offered: seq<Msg>
    ghost var taken: seq<Msg>
    ghost var dropped: nat

    ghost function History(): Link
      reads this
    {
      Link(send, offered, taken, dropped)
    }

    /** Only the teardown closes the writer's channel, and it closes the socket too. */
    ghost predicate Valid()
      reads this
    {
      (quit <==> torn) && (torn ==> !connected)
    }

    constructor (id: u32)
      ensures Valid() && this.id == id && numRenderTasks == 0 && pool == null && connected && !torn
      ensures History() == EMPTY_LINK
    {
      this.id := id;
      numRenderTasks, send, pool := 0, [], null;
      quit, connected, torn := false, true, false;
      offered, taken, dropped := [], [], 0;
    }

    /** Task IDs count up from 0 and wrap at 2^32. */
    method GenerateNewRenderTaskID() returns (newRenderTaskID: u32)
      modifies this`numRenderTasks
      ensures newRenderTaskID == old(numRenderTasks)
      ensures numRenderTasks == (old(numRenderTasks) as int + 1) % TWO_32
    {
      newRenderTaskID := numRenderTasks;
      numRenderTasks := (numRenderTasks as int + 1) % TWO_32;
    }

    method Enqueue(msg: Msg)
      modifies this`send, this`offered, this`dropped
      ensures History() == Offer(old(History()), msg)
    {
      if |send| < SEND_QUEUE_SIZE {
        send := send + [msg];
      } else {
        dropped := dropped + 1;
      }
      offered := offered + [msg];
    }

    method RequestWork(renderTaskID: u32, startFrame: u32, endFrame: u32)
      modifies this`send, this`offered, this`dropped
      ensures History() == Offer(old(History()), Work(renderTaskID, startFrame, endFrame))
    {
      Enqueue(Work(renderTaskID, startFrame, endFrame));
    }

    /** One turn of the writer's receive arm. */
    method WriteNext() returns (msg: Msg)
      requires |send| > 0
      modifies this`send, this`taken
      ensures History() == Take(old(History())) && msg == old(send)[0]
    {
      msg := send[0];
      send := send[1..];
      taken := taken + [msg];
    }

    /** Teardown happens once, whichever goroutine notices the failure first: the writer is told to stop, the socket is
        closed and the pool left; a second call changes nothing, and the channel is never closed twice. */
    method Close()
      requires Valid()
      modifies this`quit, this`connected, this`torn, if pool == null then {} else {pool}
      ensures Valid() && torn && quit && !connected
      ensures pool != null ==> pool.clients == if old(torn) then old(pool.clients) else old(pool.clients) - {this}
    {
      if !torn {
        torn := true;
        assert !quit;
        quit := true;
        connected := false;
        if pool != null {
          pool.RemoveClient(this);
        }
      }
    }

    /** One turn of the writer: either ready arm may be taken, and a failing write tears the client down. The writer
        ends only with the client torn down, and always ends once that is so and nothing waits. */
    method WriterTurn(preferQuit: bool, writeFails: bool) returns (running: bool, written: Option<Msg>)
      requires Valid()
      modifies this`send, this`taken, this`quit, this`connected, this`torn, if pool == null then {} else {pool}
      ensures Valid() && (!running ==> torn) && (running ==> torn == old(torn))
      ensures old(torn) && (preferQuit || |old(send)| == 0) ==>
                !running && written == None && History() == old(History())
      ensures !old(torn) && |old(send)| == 0 ==> running && written == None && History() == old(History())
      ensures |old(send)| > 0 && !(old(torn) && preferQuit) ==>
                && History() == Take(old(History()))
                && (if writeFails then !running && written == None else running && written == Some(old(send)[0]))
      ensures pool != null ==>
                pool.clients == if torn && !old(torn) then old(pool.clients) - {this} else old(pool.clients)
    {
      if quit && (preferQuit || |send| == 0) {
        return false, None;
      }
      if |send| == 0 {
        return true, None;
      }
      var msg := WriteNext();
      if writeFails {
        Close();
        return false, None;
      }
      running, written := true, Some(msg);
    }
  }

  // -------------------------------------------------------------------- the pool

  class ClientPool {
    var clients: set<Client>
    const maxClients: int // <= 0 means unlimited

    constructor (maxClients: int)
      ensures this.maxClients == maxClients && clients == {}
    {
      this.maxClients := maxClients;
      clients := {};
    }

    method AddClient(client: Client) returns (admitted: bool)
      modifies this`clients, client`pool
      ensures admitted <==> maxClients <= 0 || |old(clients)| < maxClients
      ensures clients == if admitted then old(clients) + {client} else old(clients)
      ensures client.pool == if admitted then this else old(client.pool)
    {
      if maxClients > 0 && |clients| >= maxClients {
        return false;
      }
      client.pool := this;
      clients := clients + {client};
      admitted := true;
    }

    method RemoveClient(client: Client)
      modifies this`clients
      ensures clients == old(clients) - {client}
    {
      clients := clients - {client};
    }

    /** The members in some order, each once. */
    method Snapshot() returns (out: seq<Client>)
      ensures forall c :: c in out <==> c in clients
      ensures forall i, j :: 0 <= i < j < |out| ==> out[i] != out[j]
      ensures |out| == |clients|
    {
      out := [];
      var rest := clients;
      while rest != {}
        invariant rest <= clients
        invariant forall c :: c in out <==> c in clients && c !in rest
        invariant forall i, j :: 0 <= i < j < |out| ==> out[i] != out[j]
        invariant |out| + |rest| == |clients|
        decreases rest
      {
        var c :| c in rest;
        out := out + [c];
        rest := rest - {c};
      }
    }

    /** The random draw is an argument; waiting for a first member is the caller's guard. */
    method PickNewClient(draw: nat) returns (picked: Client)
      requires clients != {}
      ensures picked in clients
    {
      var keys := Snapshot();
      assert |keys| > 0;
      picked := keys[draw % |keys|];
    }

    /** Fan-out: every member is offered the message exactly once, and nobody's queue
        depends on anybody else's. */
    method BroadcastEncoded(msg: Msg)
      modifies clients
      ensures forall c :: c in clients ==> c.History() == Offer(old(c.History()), msg)
      ensures forall c :: c in clients ==>
                            c.numRenderTasks == old(c.numRenderTasks) && c.torn == old(c.torn) && c.pool == old(c.pool)
    {
      var snapshot := Snapshot();
      var k := 0;
      while k < |snapshot|
        invariant 0 <= k <= |snapshot|
        invariant clients == old(clients)
        invariant forall j :: 0 <= j < |snapshot| ==> snapshot[j] in clients
        invariant forall j :: 0 <= j < k ==> snapshot[j].History() == Offer(old(snapshot[j].History()), msg)
        invariant forall j :: k <= j < |snapshot| ==> snapshot[j].History() == old(snapshot[j].History())
        invariant forall c :: c in clients ==>
                                c.numRenderTasks == old(c.numRenderTasks) && c.torn == old(c.torn)
                                && c.pool == old(c.pool)
      {
        snapshot[k].Enqueue(msg);
        k := k + 1;
      }
    }
  }
}
