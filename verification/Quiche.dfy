/** The environment of a driver: what the code relies on of a quiche connection. Answers that quiche
    alone decides are left open. */
module Quiche {
  import opened Types
  import R = ReadPass

  datatype RecvResult = RecvOk(n: nat, fin: bool) | RecvDone | RecvErr
  datatype SendResult = SendOk(n: nat) | SendDone | SendErr

  class QuicheConnection {
    var rx: map<StreamId, R.RecvStream>
    var readable: set<StreamId>
    var peerError: bool
    ghost var arrived: map<StreamId, seq<Item>>
    ghost var recvErrors: set<StreamId>          // streams on which stream_recv failed
    ghost var sent: map<StreamId, seq<Item>>     // accepted by quiche
    ghost var failed: set<StreamId>              // streams on which stream_send failed
    ghost var blocked: set<StreamId>             // streams whose last send was not taken in full

    method StreamReadableNext() returns (s: Option<StreamId>)
      modifies this`readable
      ensures s == None <==> old(readable) == {}
      ensures s == None ==> readable == {}
      ensures s.Some? ==> s.value in old(readable) && readable == old(readable) - {s.value}
    {
      s := None;
      if readable != {} {
        var id :| id in readable;
        s, readable := Some(id), readable - {id};
      }
    }

    /** Copies unread bytes into `out`; the FIN is reported together with the last byte. */
    method StreamRecv(s: StreamId, out: array<Byte>) returns (r: RecvResult)
      requires out.Length == STREAM_BUFFER_SIZE
      modifies this`rx, this`recvErrors, out
      ensures r.RecvOk? ==>
                && old(R.UnreadAt(rx, s)) != [] && recvErrors == old(recvErrors)
                && r.n <= |old(rx)[s].buf| && r.n <= STREAM_BUFFER_SIZE
                && (r.n == 0 ==> old(rx)[s].buf == [])
                && Chunk(out[..r.n], r.fin) == R.RecvChunk(old(rx)[s], r.n)
                && rx == old(rx)[s := old(rx)[s].(buf := old(rx)[s].buf[r.n..], finRead := old(rx)[s].finRead || r.fin)]
      ensures r.RecvDone? ==> R.UnreadAt(rx, s) == [] && rx == old(rx) && recvErrors == old(recvErrors)
      ensures r.RecvErr? ==> rx == old(rx) && recvErrors == old(recvErrors) + {s}
    {
      var broken: bool := *;
      if broken || s !in rx {
        r := RecvErr;
        recvErrors := recvErrors + {s};
        return;
      }
      var q := rx[s];
      var finLeft := q.fin && !q.finRead;
      if q.buf == [] && !finLeft {
        r := RecvDone;
        return;
      }
      var n := if |q.buf| < STREAM_BUFFER_SIZE then |q.buf| else STREAM_BUFFER_SIZE;
      forall i | 0 <= i < n {
        out[i] := q.buf[i];
      }
      var fin := finLeft && n == |q.buf|;
      rx := rx[s := q.(buf := q.buf[n..], finRead := q.finRead || fin)];
      r := RecvOk(n, fin);
      assert out[..n] == q.buf[..n];
      UnreadLeft(q);
    }

    lemma UnreadLeft(q: R.RecvStream)
      requires q.buf != [] || (q.fin && !q.finRead)
      ensures R.Unread(q) != []
    {
    }

    /** Accepts a prefix of the bytes, and the FIN only together with the last of them. */
    method StreamSend(s: StreamId, bytes: Bytes, fin: bool) returns (r: SendResult)
      modifies this`sent, this`failed, this`blocked
      ensures r.SendOk? ==>
                && r.n <= |bytes| && failed == old(failed)
                && sent == Extend(old(sent), s,
                                  if r.n == |bytes| then Items(Chunk(bytes, fin)) else Octets(bytes[..r.n]))
      ensures r.SendDone? ==> sent == old(sent) && failed == old(failed)
      ensures r.SendErr? ==> sent == old(sent) && failed == old(failed) + {s}
      ensures blocked == if r.SendDone? || (r.SendOk? && r.n < |bytes|) then old(blocked) + {s} else old(blocked) - {s}
    {
      var answer: nat, window: nat := *, *;
      if answer == 0 {
        r := SendErr;
        failed, blocked := failed + {s}, blocked - {s};
      } else if answer == 1 {
        r := SendDone;
        blocked := blocked + {s};
      } else {
        var n := if window < |bytes| then window else |bytes|;
        r := SendOk(n);
        blocked := if n < |bytes| then blocked + {s} else blocked - {s};
        sent := Extend(sent, s, if n == |bytes| then Items(Chunk(bytes, fin)) else Octets(bytes[..n]));
      }
    }
  }
}
