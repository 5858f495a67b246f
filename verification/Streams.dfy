/** src/stream.rs: the writing half of the stream objects PHP holds. Opening streams and installing
    callbacks are methods of QuicheServer, which owns the slot maps. */
module Streams {
  import opened Types
  import opened Channels
  import W = WritePass

  class StreamHandle {
    const connId: ConnId
    const streamId: StreamId
    const writeTx: WriteChannel

    constructor (connId: ConnId, streamId: StreamId, writeTx: WriteChannel)
      ensures this.connId == connId && this.streamId == streamId && this.writeTx == writeTx
    {
      this.connId, this.streamId, this.writeTx := connId, streamId, writeTx;
    }

    /** write: succeeds exactly when the driver is there and the channel has room; then the message is
        queued, the driver is notified, and the write side has taken the steps Submit and Notify. On
        failure nothing has changed. */
    method Write(data: Bytes, fin: bool, ghost w: W.WriteSide) returns (ok: bool)
      requires writeTx.Valid() && !writeTx.notifying && writeTx.IsPartOf(w)
      modifies writeTx
      ensures writeTx.Valid() && !writeTx.notifying
      ensures ok <==> !old(writeTx.closed) && |old(writeTx.queue)| < 256
      ensures ok ==> writeTx.permit
      ensures ok ==> writeTx.queue == old(writeTx.queue) + [W.StreamWriter(streamId, Some(data), fin)]
      ensures ok ==> var submit := W.Submit(W.StreamWriter(streamId, Some(data), fin));
                     && W.Enabled(w, submit) && W.Enabled(W.Apply(w, submit), W.Notify)
                     && writeTx.IsPartOf(W.Apply(W.Apply(w, submit), W.Notify))
      ensures ok ==> writeTx.submitted == Extend(old(writeTx.submitted), streamId,
                                                 Octets(data) + if fin then [Fin] else [])
      ensures !ok ==> writeTx.IsPartOf(w)
    {
      ok := writeTx.TrySend(W.StreamWriter(streamId, Some(data), fin));
      if ok {
        writeTx.NotifyOne();
      }
    }

    /** close: an empty chunk carrying the FIN. */
    method Close(ghost w: W.WriteSide) returns (ok: bool)
      requires writeTx.Valid() && !writeTx.notifying && writeTx.IsPartOf(w)
      modifies writeTx
      ensures writeTx.Valid() && !writeTx.notifying
      ensures ok <==> !old(writeTx.closed) && |old(writeTx.queue)| < 256
      ensures ok ==> writeTx.permit && writeTx.submitted == Extend(old(writeTx.submitted), streamId, [Fin])
      ensures !ok ==> writeTx.IsPartOf(w)
    {
      ok := Write([], true, w);
      assert Items(Chunk([], true)) == [Fin];
    }
  }
}
