/** src/quiche/driver.rs: the per-connection driver. Its loops are proved to be runs of the step
    relations of ReadPass and WritePass. */
module StreamQuicDriver {
  import opened Types
  import opened Channels
  import opened Quiche
  import R = ReadPass
  import W = WritePass
  import System

  class StreamQuicDriver {
    const connId: ConnId
    const streamEventRecv: WriteChannel
    const eventTx: EventChannel
    const connCloseTx: CloseChannel
    const ioWorkerBuf: array<Byte>
    var pendingWrites: map<StreamId, seq<Chunk>>
    var seenStreams: set<StreamId>
    ghost var settled: map<StreamId, seq<W.Segment>>

    constructor (connId: ConnId, streamEventRecv: WriteChannel, eventTx: EventChannel, connCloseTx: CloseChannel)
      ensures this.connId == connId && this.streamEventRecv == streamEventRecv
      ensures this.eventTx == eventTx && this.connCloseTx == connCloseTx
      ensures pendingWrites == map[] && seenStreams == {} && settled == map[]
      ensures ioWorkerBuf.Length == 65536 && fresh(ioWorkerBuf)
    {
      this.connId, this.streamEventRecv := connId, streamEventRecv;
      this.eventTx, this.connCloseTx := eventTx, connCloseTx;
      ioWorkerBuf := new Byte[STREAM_BUFFER_SIZE];
      pendingWrites, seenStreams, settled := map[], {}, map[];
    }

    /** The read side of this driver as a state of ReadPass. */
    ghost function ReadView(conn: QuicheConnection, pc: R.Pc): R.ReadSide
      reads this, conn, eventTx
    {
      R.ReadSide(seenStreams, pc, conn.rx, conn.readable, System.Of(eventTx.log, connId), conn.arrived)
    }

    /** What the inner loop still has to read of stream `s`: its bytes and its FIN. */
    static function UnreadSize(rx: map<StreamId, R.RecvStream>, s: StreamId): nat {
      if s in rx then |rx[s].buf| + (if rx[s].fin && !rx[s].finRead then 1 else 0) else 0
    }

    /** The announcement of a client-initiated stream that was not seen before. */
    method Announce(conn: QuicheConnection, s: StreamId, ghost start: R.ReadSide)
      returns (stopped: bool)
      requires eventTx.Valid() && eventTx.mine == 0
      requires R.Reads(start, ReadView(conn, R.Announce(s)))
      modifies this`seenStreams, eventTx
      ensures eventTx.Valid() && eventTx.mine == 0
      ensures eventTx.refusals == old(eventTx.refusals) + (if stopped then 1 else 0)
      ensures R.Reads(start, ReadView(conn, if stopped then R.Outside else R.Drain(s)))
    {
      ghost var r := ReadView(conn, R.Announce(s));
      var permit := eventTx.TryReserve(connId);
      if !permit {
        stopped := true;
        R.ReadsMore(start, r, R.Full, ReadView(conn, R.Outside));
        return;
      }
      R.ReadsMore(start, r, R.Reserve, ReadView(conn, R.Announcing(s)));
      r := ReadView(conn, R.Announcing(s));
      var event := if Bidirectional(s) then NewBidi(s) else NewUni(s);
      eventTx.Send(connId, event);
      seenStreams := seenStreams + {s};
      R.ReadsMore(start, r, R.SendNew, ReadView(conn, R.Drain(s)));
      stopped := false;
    }

    /** quiche has just handed over `n` bytes into the buffer; `r` is the state before the receive. The
        permit in hand is used for them. */
    method OnReceived(conn: QuicheConnection, s: StreamId, n: nat, fin: bool,
                      ghost r: R.ReadSide, ghost start: R.ReadSide)
      requires eventTx.Valid() && eventTx.mine == 1
      requires r.pc == R.Draining(s) && R.Enabled(r, R.RecvOk(n)) && R.Reads(start, r)
      requires n <= ioWorkerBuf.Length && Chunk(ioWorkerBuf[..n], fin) == R.RecvChunk(r.rx[s], n)
      requires ReadView(conn, R.Draining(s)) == r.(rx := R.Received(r, n).rx)
      modifies this`seenStreams, eventTx
      ensures eventTx.Valid() && eventTx.mine == 0 && eventTx.refusals == old(eventTx.refusals)
      ensures R.Reads(start, ReadView(conn, R.Drain(s)))
    {
      var data := ioWorkerBuf[..n];
      eventTx.Send(connId, Data(s, Chunk(data, fin)));
      if fin {
        seenStreams := seenStreams - {s};
      }
      assert ReadView(conn, R.Drain(s)) == R.Received(r, n);
      R.ReadsMore(start, r, R.RecvOk(n), R.Received(r, n));
    }

    /** quiche had nothing to hand over: the permit is given back. */
    method OnNothing(conn: QuicheConnection, s: StreamId, ghost a: R.Action, ghost start: R.ReadSide)
      requires eventTx.Valid() && eventTx.mine == 1 && (a == R.RecvDone || a == R.RecvErr)
      requires R.Reads(start, ReadView(conn, R.Draining(s))) && R.Enabled(ReadView(conn, R.Draining(s)), a)
      modifies eventTx
      ensures eventTx.Valid() && eventTx.mine == 0 && eventTx.refusals == old(eventTx.refusals)
      ensures R.Reads(start, ReadView(conn, R.AtNext))
    {
      ghost var r := ReadView(conn, R.Draining(s));
      eventTx.Release();
      R.ReadsMore(start, r, a, ReadView(conn, R.AtNext));
    }

    /** One receive with a permit in hand: the permit is used for what was read, or given back. */
    method Receive(conn: QuicheConnection, s: StreamId, ghost start: R.ReadSide) returns (more: bool)
      requires eventTx.Valid() && eventTx.mine == 1 && ioWorkerBuf.Length == STREAM_BUFFER_SIZE
      requires R.Reads(start, ReadView(conn, R.Draining(s)))
      modifies this`seenStreams, eventTx, ioWorkerBuf, conn`rx, conn`recvErrors
      ensures eventTx.Valid() && eventTx.mine == 0 && eventTx.refusals == old(eventTx.refusals)
      ensures R.Reads(start, ReadView(conn, if more then R.Drain(s) else R.AtNext))
      ensures forall t | t != s :: R.UnreadAt(conn.rx, t) == old(R.UnreadAt(conn.rx, t))
      ensures if more then UnreadSize(conn.rx, s) < old(UnreadSize(conn.rx, s))
              else R.UnreadAt(conn.rx, s) == [] || s in conn.recvErrors
      ensures old(conn.recvErrors) <= conn.recvErrors
    {
      ghost var r := ReadView(conn, R.Draining(s));
      var received := conn.StreamRecv(s, ioWorkerBuf);
      more := received.RecvOk?;
      match received
      case RecvOk(n, fin) => OnReceived(conn, s, n, fin, r, start);
      case RecvDone => OnNothing(conn, s, R.RecvDone, start);
      case RecvErr => OnNothing(conn, s, R.RecvErr, start);
    }

    /** The inner loop: drain one stream, reserving a slot before every byte taken from quiche. */
    method DrainStream(conn: QuicheConnection, s: StreamId, ghost start: R.ReadSide) returns (stopped: bool)
      requires eventTx.Valid() && eventTx.mine == 0 && ioWorkerBuf.Length == STREAM_BUFFER_SIZE
      requires R.Reads(start, ReadView(conn, R.Drain(s)))
      modifies this`seenStreams, eventTx, ioWorkerBuf, conn`rx, conn`recvErrors
      ensures eventTx.Valid() && eventTx.mine == 0
      ensures eventTx.refusals == old(eventTx.refusals) + (if stopped then 1 else 0)
      ensures R.Reads(start, ReadView(conn, if stopped then R.Outside else R.AtNext))
      ensures forall t | t != s :: R.UnreadAt(conn.rx, t) == old(R.UnreadAt(conn.rx, t))
      ensures !stopped ==> R.UnreadAt(conn.rx, s) == [] || s in conn.recvErrors
      ensures old(conn.recvErrors) <= conn.recvErrors
    {
      var more := true;
      while more
        invariant eventTx.Valid() && eventTx.mine == 0 && eventTx.refusals == old(eventTx.refusals)
        invariant R.Reads(start, ReadView(conn, if more then R.Drain(s) else R.AtNext))
        invariant forall t | t != s :: R.UnreadAt(conn.rx, t) == old(R.UnreadAt(conn.rx, t))
        invariant !more ==> R.UnreadAt(conn.rx, s) == [] || s in conn.recvErrors
        invariant old(conn.recvErrors) <= conn.recvErrors
        decreases more, UnreadSize(conn.rx, s)
      {
        ghost var r := ReadView(conn, R.Drain(s));
        var permit := eventTx.TryReserve(connId);
        if !permit {
          R.ReadsMore(start, r, R.Full, ReadView(conn, R.Outside));
          return true;
        }
        R.ReadsMore(start, r, R.Reserve, ReadView(conn, R.Draining(s)));
        more := Receive(conn, s, start);
      }
      stopped := false;
    }

    /** process_reads. The pass is a run of the read side; it holds no permit afterwards; and unless
        the channel refused a permit, every stream quiche reported was drained or failed. */
    method ProcessReads(conn: QuicheConnection)
      requires eventTx.Valid() && eventTx.mine == 0
      requires R.ReadInv(ReadView(conn, R.AtNext)) && ioWorkerBuf.Length == STREAM_BUFFER_SIZE
      modifies this`seenStreams, eventTx, ioWorkerBuf, conn`rx, conn`readable, conn`recvErrors
      ensures eventTx.Valid() && eventTx.mine == 0
      ensures R.Reads(old(ReadView(conn, R.AtNext)), ReadView(conn, R.Outside))
      ensures R.ReadInv(ReadView(conn, R.Outside))
      ensures eventTx.refusals == old(eventTx.refusals) ==>
                && conn.readable == {}
                && forall s | s in old(conn.readable) :: R.UnreadAt(conn.rx, s) == [] || s in conn.recvErrors
    {
      ghost var start := ReadView(conn, R.AtNext);
      R.ReadsNothing(start);
      while true
        invariant eventTx.Valid() && eventTx.mine == 0 && eventTx.refusals == old(eventTx.refusals)
        invariant R.Reads(start, ReadView(conn, R.AtNext))
        invariant conn.readable <= old(conn.readable)
        invariant forall s | s in old(conn.readable) && s !in conn.readable ::
                    R.UnreadAt(conn.rx, s) == [] || s in conn.recvErrors
        decreases |conn.readable|
      {
        ghost var r := ReadView(conn, R.AtNext);
        var next := conn.StreamReadableNext();
        if next == None {
          R.ReadsMore(start, r, R.NoneLeft, ReadView(conn, R.Outside));
          break;
        }
        var s := next.value;
        var stopped := false;
        if ClientInitiated(s) && s !in seenStreams {
          R.ReadsMore(start, r, R.Take(s), ReadView(conn, R.Announce(s)));
          stopped := Announce(conn, s, start);
        } else {
          R.ReadsMore(start, r, R.Take(s), ReadView(conn, R.Drain(s)));
        }
        if stopped {
          break;
        }
        stopped := DrainStream(conn, s, start);
        if stopped {
          break;
        }
      }
      R.ReadsKeepInv(start, ReadView(conn, R.Outside));
    }

    /** The write side of this driver as a state of WritePass. */
    ghost function WriteView(conn: QuicheConnection, phase: W.Phase, stuck: set<StreamId>): W.WriteSide
      reads this, conn, streamEventRecv
    {
      W.WriteSide(streamEventRecv.queue, streamEventRecv.permit, streamEventRecv.notifying, phase, pendingWrites,
                  streamEventRecv.submitted, settled, conn.sent, conn.failed, stuck)
    }

    /** The first loop: move everything in the write channel into the per-stream queues. PHP may go on
        writing meanwhile; `supply` is the finite number of messages it still adds. */
    method DrainChannel(conn: QuicheConnection, ghost stuck: set<StreamId>)
      requires streamEventRecv.Valid()
      modifies this`pendingWrites, streamEventRecv
      ensures streamEventRecv.Valid() && streamEventRecv.queue == []
      ensures W.Writes(old(WriteView(conn, W.Draining, stuck)), WriteView(conn, W.Draining, stuck))
    {
      ghost var start := WriteView(conn, W.Draining, stuck);
      W.WritesNothing(start);
      var supply: nat := *;
      while true
        invariant streamEventRecv.Valid()
        invariant W.Writes(start, WriteView(conn, W.Draining, stuck))
        decreases supply + |streamEventRecv.queue|
      {
        supply := streamEventRecv.Interfere(supply, start, WriteView(conn, W.Draining, stuck));
        ghost var w := WriteView(conn, W.Draining, stuck);
        var message := streamEventRecv.TryRecv();
        if message == None {
          break;
        }
        var bytes := match message.value.data case Some(b) => b case None => [];
        var queue := At(pendingWrites, message.value.stream);
        pendingWrites := pendingWrites[message.value.stream := queue + [Chunk(bytes, message.value.fin)]];
        W.WritesMore(start, w, W.DrainOne, WriteView(conn, W.Draining, stuck));
      }
    }

    /** queue.pop_front() */
    method PopFront(s: StreamId, ghost accepted: bool, ghost w: W.WriteSide)
      requires W.HasHead(w, s) && pendingWrites == w.pending && settled == w.settled
      modifies this`pendingWrites, this`settled
      ensures pendingWrites == W.PopHead(w, s, accepted).pending && settled == W.PopHead(w, s, accepted).settled
    {
      settled := Extend(settled, s, [W.Segment(Items(pendingWrites[s][0]), accepted)]);
      pendingWrites := pendingWrites[s := pendingWrites[s][1..]];
    }

    /** queue[0] = (bytes.slice(n..), fin) */
    method KeepRemainder(s: StreamId, n: nat, ghost w: W.WriteSide)
      requires W.HasHead(w, s) && pendingWrites == w.pending && settled == w.settled
      requires n <= |pendingWrites[s][0].bytes|
      modifies this`pendingWrites, this`settled
      ensures pendingWrites == W.CutHead(w, s, n).pending && settled == W.CutHead(w, s, n).settled
    {
      var chunk := pendingWrites[s][0];
      settled := Extend(settled, s, [W.Segment(Octets(chunk.bytes[..n]), true)]);
      pendingWrites := pendingWrites[s := pendingWrites[s][0 := Chunk(chunk.bytes[n..], chunk.fin)]];
    }

    /** The flush of `s` is at a point where `blocked` says whether quiche refused to take everything. */
    ghost predicate Flushes(conn: QuicheConnection, s: StreamId, todo: set<StreamId>, blocked: bool,
                            stuck: set<StreamId>, start: W.WriteSide)
      reads this, conn, streamEventRecv
    {
      && W.Writes(start, WriteView(conn, W.Flushing(if blocked then todo - {s} else todo), stuck))
      && (blocked ==> s in conn.blocked)
    }

    /** quiche has just answered the offer of the head chunk of `s`; `w` is the state before the send. */
    ghost predicate Answered(conn: QuicheConnection, s: StreamId, answer: SendResult, w: W.WriteSide)
      reads this, conn, streamEventRecv
      requires W.HasHead(w, s)
    {
      var head := w.pending[s][0];
      && w == WriteView(conn, w.phase, w.stuck).(sent := w.sent, failed := w.failed)
      && match answer
         case SendOk(n) =>
           && n <= |head.bytes| && conn.failed == w.failed && (n < |head.bytes| ==> s in conn.blocked)
           && conn.sent == Extend(w.sent, s, if n == |head.bytes| then Items(head) else Octets(head.bytes[..n]))
         case SendDone => conn.sent == w.sent && conn.failed == w.failed && s in conn.blocked
         case SendErr => conn.sent == w.sent && conn.failed == w.failed + {s}
    }

    /** Accepted: the chunk is done, or its remainder stays. */
    method OnAccepted(conn: QuicheConnection, s: StreamId, n: nat, ghost w: W.WriteSide, ghost start: W.WriteSide)
      returns (blocked: bool, ghost stuck: set<StreamId>)
      requires W.HasHead(w, s) && s in w.phase.todo && Answered(conn, s, SendOk(n), w) && W.Writes(start, w)
      modifies this`pendingWrites, this`settled
      ensures pendingWrites.Keys == w.pending.Keys
      ensures if blocked then pendingWrites[s] != [] else |pendingWrites[s]| < |w.pending[s]|
      ensures Flushes(conn, s, w.phase.todo, blocked, stuck, start)
    {
      if n == |pendingWrites[s][0].bytes| {
        PopFront(s, true, w);
        W.WritesPop(start, w, s, true);
        blocked, stuck := false, w.stuck;
        assert WriteView(conn, w.phase, stuck) == W.PopHead(w, s, true);
      } else {
        KeepRemainder(s, n, w);
        W.WritesCut(start, w, s, n);
        blocked, stuck := true, w.stuck + {s};
        assert WriteView(conn, W.Flushing(w.phase.todo - {s}), stuck) == W.Block(W.CutHead(w, s, n), s);
      }
    }

    /** A hard error: the chunk is dropped. */
    method OnError(conn: QuicheConnection, s: StreamId, ghost w: W.WriteSide, ghost start: W.WriteSide)
      requires W.HasHead(w, s) && s in w.phase.todo && Answered(conn, s, SendErr, w) && W.Writes(start, w)
      modifies this`pendingWrites, this`settled
      ensures pendingWrites.Keys == w.pending.Keys && |pendingWrites[s]| < |w.pending[s]|
      ensures Flushes(conn, s, w.phase.todo, false, w.stuck, start)
    {
      PopFront(s, false, w);
      W.WritesPop(start, w, s, false);
      assert WriteView(conn, w.phase, w.stuck) == W.PopHead(w, s, false);
    }

    /** Done: nothing changes but that the pass leaves this stream. */
    lemma OnDone(conn: QuicheConnection, s: StreamId, w: W.WriteSide, start: W.WriteSide)
      requires W.HasHead(w, s) && s in w.phase.todo && Answered(conn, s, SendDone, w) && W.Writes(start, w)
      ensures pendingWrites == w.pending && Flushes(conn, s, w.phase.todo, true, w.stuck + {s}, start)
    {
      W.WritesBlocked(start, w, s);
      assert WriteView(conn, W.Flushing(w.phase.todo - {s}), w.stuck + {s}) == W.Block(w, s);
    }

    /** What the loop does with quiche's answer. `blocked`: quiche took less than the whole chunk, so the
        pass leaves this stream. */
    method OnAnswer(conn: QuicheConnection, s: StreamId, answer: SendResult,
                    ghost w: W.WriteSide, ghost start: W.WriteSide)
      returns (blocked: bool, ghost stuck: set<StreamId>)
      requires W.HasHead(w, s) && s in w.phase.todo && Answered(conn, s, answer, w) && W.Writes(start, w)
      modifies this`pendingWrites, this`settled
      ensures pendingWrites.Keys == w.pending.Keys
      ensures if blocked then pendingWrites[s] != [] else |pendingWrites[s]| < |w.pending[s]|
      ensures Flushes(conn, s, w.phase.todo, blocked, stuck, start)
    {
      match answer
      case SendOk(n) => blocked, stuck := OnAccepted(conn, s, n, w, start);
      case SendDone =>
        blocked, stuck := true, w.stuck + {s};
        OnDone(conn, s, w, start);
      case SendErr =>
        blocked, stuck := false, w.stuck;
        OnError(conn, s, w, start);
    }

    /** One turn of the flush loop: offer the head chunk and act on the answer. */
    method SendHead(conn: QuicheConnection, s: StreamId, ghost todo: set<StreamId>, ghost stuck0: set<StreamId>,
                    ghost start: W.WriteSide)
      returns (blocked: bool, ghost stuck: set<StreamId>)
      requires s in todo && s in pendingWrites && pendingWrites[s] != []
      requires W.Writes(start, WriteView(conn, W.Flushing(todo), stuck0))
      modifies this`pendingWrites, this`settled, conn`sent, conn`failed, conn`blocked
      ensures pendingWrites.Keys == old(pendingWrites.Keys)
      ensures if blocked then pendingWrites[s] != [] else |pendingWrites[s]| < |old(pendingWrites)[s]|
      ensures conn.blocked - {s} == old(conn.blocked) - {s}
      ensures Flushes(conn, s, todo, blocked, stuck, start)
    {
      ghost var w := WriteView(conn, W.Flushing(todo), stuck0);
      var chunk := pendingWrites[s][0];
      var answer := conn.StreamSend(s, chunk.bytes, chunk.fin);
      blocked, stuck := OnAnswer(conn, s, answer, w, start);
    }

    /** The PHP thread may write while the driver flushes. */
    method LetPhpWrite(conn: QuicheConnection, ghost todo: set<StreamId>, ghost stuck: set<StreamId>,
                       ghost start: W.WriteSide)
      requires streamEventRecv.Valid() && W.Writes(start, WriteView(conn, W.Flushing(todo), stuck))
      modifies streamEventRecv
      ensures streamEventRecv.Valid() && W.Writes(start, WriteView(conn, W.Flushing(todo), stuck))
    {
      var supply: nat := *;
      supply := streamEventRecv.Interfere(supply, start, WriteView(conn, W.Flushing(todo), stuck));
    }

    /** The closure given to `retain`: flush the queue of one stream until it is empty or blocked.
        The result says whether the entry is kept. */
    method FlushQueue(conn: QuicheConnection, s: StreamId, ghost todo: set<StreamId>, ghost stuck0: set<StreamId>,
                      ghost start: W.WriteSide)
      returns (keep: bool, ghost stuck: set<StreamId>)
      requires streamEventRecv.Valid() && s in todo && s in pendingWrites
      requires W.Writes(start, WriteView(conn, W.Flushing(todo), stuck0))
      modifies this`pendingWrites, this`settled, streamEventRecv, conn`sent, conn`failed, conn`blocked
      ensures streamEventRecv.Valid()
      ensures pendingWrites.Keys == old(pendingWrites.Keys) && (keep <==> pendingWrites[s] != [])
      ensures conn.blocked - {s} == old(conn.blocked) - {s}
      ensures Flushes(conn, s, todo, keep, stuck, start)
    {
      keep, stuck := false, stuck0;
      while pendingWrites[s] != [] && !keep
        invariant streamEventRecv.Valid()
        invariant pendingWrites.Keys == old(pendingWrites.Keys)
        invariant keep ==> pendingWrites[s] != []
        invariant conn.blocked - {s} == old(conn.blocked) - {s}
        invariant Flushes(conn, s, todo, keep, stuck, start)
        decreases !keep, |pendingWrites[s]|
      {
        LetPhpWrite(conn, todo, stuck, start);
        keep, stuck := SendHead(conn, s, todo, stuck, start);
      }
    }

    /** One entry visited by `retain`: it leaves the table if its queue was emptied. */
    method FlushEntry(conn: QuicheConnection, s: StreamId, ghost todo: set<StreamId>, ghost stuck0: set<StreamId>,
                      ghost start: W.WriteSide)
      returns (ghost stuck: set<StreamId>)
      requires streamEventRecv.Valid() && s in todo && s in pendingWrites
      requires W.Writes(start, WriteView(conn, W.Flushing(todo), stuck0))
      modifies this`pendingWrites, this`settled, streamEventRecv, conn`sent, conn`failed, conn`blocked
      ensures streamEventRecv.Valid()
      ensures pendingWrites.Keys == old(pendingWrites.Keys) || pendingWrites.Keys == old(pendingWrites.Keys) - {s}
      ensures s in pendingWrites ==> pendingWrites[s] != [] && s in conn.blocked
      ensures conn.blocked - {s} == old(conn.blocked) - {s}
      ensures W.Writes(start, WriteView(conn, W.Flushing(todo - {s}), stuck))
    {
      var keep;
      keep, stuck := FlushQueue(conn, s, todo, stuck0, start);
      if !keep {
        ghost var w := WriteView(conn, W.Flushing(todo), stuck);
        pendingWrites := pendingWrites - {s};
        W.WritesMore(start, w, W.Retire(s), WriteView(conn, W.Flushing(todo - {s}), stuck));
      }
    }

    /** process_writes: drain the channel, then flush every queue once, in any order, dropping the
        entries left empty, while PHP may go on writing. A run of the write side from Draining to
        Rested; and what it leaves queued is only what quiche would not take. */
    method ProcessWrites(conn: QuicheConnection, ghost stuck0: set<StreamId>)
      returns (ghost stuck: set<StreamId>)
      requires streamEventRecv.Valid() && W.WriteInv(WriteView(conn, W.Draining, stuck0))
      modifies this`pendingWrites, this`settled, streamEventRecv, conn`sent, conn`failed, conn`blocked
      ensures streamEventRecv.Valid()
      ensures W.Writes(old(WriteView(conn, W.Draining, stuck0)), WriteView(conn, W.Rested, stuck))
      ensures W.WriteInv(WriteView(conn, W.Rested, stuck))
      ensures forall s | s in pendingWrites :: pendingWrites[s] != [] && s in conn.blocked
      ensures streamEventRecv.queue != [] ==> streamEventRecv.permit || streamEventRecv.notifying
    {
      ghost var start := WriteView(conn, W.Draining, stuck0);
      DrainChannel(conn, stuck0);
      var todo := pendingWrites.Keys;
      stuck := {};
      W.WritesMore(start, WriteView(conn, W.Draining, stuck0), W.DrainEmpty, WriteView(conn, W.Flushing(todo), stuck));
      while todo != {}
        invariant streamEventRecv.Valid() && todo <= pendingWrites.Keys
        invariant forall s | s in pendingWrites && s !in todo :: s in conn.blocked
        invariant W.Writes(start, WriteView(conn, W.Flushing(todo), stuck))
        decreases |todo|
      {
        var s :| s in todo;
        ghost var blocked := conn.blocked;
        stuck := FlushEntry(conn, s, todo, stuck, start);
        forall t | t != s && t in blocked ensures t in conn.blocked {
          assert t in conn.blocked - {s};
        }
        todo := todo - {s};
      }
      W.WritesMore(start, WriteView(conn, W.Flushing(todo), stuck), W.EndFlush, WriteView(conn, W.Rested, stuck));
      W.WritesKeepInv(start, WriteView(conn, W.Rested, stuck));
      RestedIsSafe(conn, stuck);
    }

    /** What the invariant says of a driver that has been through process_writes. */
    lemma RestedIsSafe(conn: QuicheConnection, stuck: set<StreamId>)
      requires W.WriteInv(WriteView(conn, W.Rested, stuck))
      ensures forall s | s in pendingWrites :: pendingWrites[s] != []
      ensures streamEventRecv.queue != [] ==> streamEventRecv.permit || streamEventRecv.notifying
    {
      assert W.QueuesOk(WriteView(conn, W.Rested, stuck)) && W.WakeupSafe(WriteView(conn, W.Rested, stuck));
    }

    /** One poll of wait_for_data: it is over exactly when a permit is stored, which it takes. */
    method WaitForData(conn: QuicheConnection, ghost stuck: set<StreamId>) returns (woken: bool)
      requires streamEventRecv.Valid() && W.WriteInv(WriteView(conn, W.Waiting, stuck))
      modifies streamEventRecv`permit
      ensures woken == old(streamEventRecv.permit) && !streamEventRecv.permit
      ensures woken ==> W.Step(old(WriteView(conn, W.Waiting, stuck)), W.WakeNotified, WriteView(conn, W.Awake, stuck))
      ensures !woken ==> WriteView(conn, W.Waiting, stuck) == old(WriteView(conn, W.Waiting, stuck))
      ensures !woken ==> streamEventRecv.queue == [] || streamEventRecv.notifying
    {
      assert W.WakeupSafe(WriteView(conn, W.Waiting, stuck));
      woken := streamEventRecv.Notified();
    }

    /** on_conn_close: the close signal carries whether the peer closed; a full channel loses it. */
    method OnConnClose(conn: QuicheConnection)
      requires connCloseTx.Valid()
      modifies connCloseTx
      ensures connCloseTx.Valid()
      ensures connCloseTx.queue == if |old(connCloseTx.queue)| < 1024
                                   then old(connCloseTx.queue) + [(connId, conn.peerError)]
                                   else old(connCloseTx.queue)
    {
      var peerInitiated := conn.peerError;
      var delivered := connCloseTx.TrySend(connId, peerInitiated);
    }
  }
}
