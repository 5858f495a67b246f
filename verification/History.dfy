/** The history fields of the engine against the actions of its run: what was submitted, what arrived, what
    quiche accepted, which closes were signalled and which streams opened is what the actions say, and the
    theorems on these fields are stated on the actions. */
module History {
  import opened Types
  import R = ReadPass
  import W = WritePass
  import S = Server
  import opened System
  import opened ServerStepInvariant
  import opened RunInvariant
  import opened Deliveries

  lemma RunStepIsFresh(run: seq<System>, acts: seq<Action>, k: nat)
    requires Run(run, acts) && k < |acts| && run[k + 1].sv.accepts <= U64_VALUES
    ensures acts[k].Server? ==> Fresh(run[k], acts[k].sa)
  {
    assert Step(run[k], acts[k], run[k + 1]);
    AcceptsGrow(run[k], acts[k]);
    RunKeepsInv(run, acts, k);
    if acts[k].Server? {
      DriversAfter(run[k], acts[k].sa);
      AcceptIsFresh(run[k], acts[k].sa);
    }
  }

  // ---- what PHP wrote ----

  /** The bytes of a message, and its FIN. */
  function MessageItems(m: W.StreamWriter): seq<Item> {
    Octets(match m.data case Some(b) => b case None => []) + if m.fin then [Fin] else []
  }

  /** What this action adds to what PHP wrote on stream `id` of `c`. */
  function Writing(a: Action, c: ConnId, id: StreamId): seq<Item> {
    if a.Write? && a.c == c && a.wa.Submit? && a.wa.msg.stream == id then MessageItems(a.wa.msg) else []
  }

  /** Everything PHP wrote on stream `id` of `c`, write by write. */
  function Written(acts: seq<Action>, c: ConnId, id: StreamId): seq<Item> {
    if acts == [] then [] else Written(acts[..|acts| - 1], c, id) + Writing(acts[|acts| - 1], c, id)
  }

  function SubmittedAt(s: System, c: ConnId, id: StreamId): seq<Item> {
    if c in s.drivers then At(s.drivers[c].write.submitted, id) else []
  }

  lemma SubmittedAfterWrite(w: W.WriteSide, a: W.Action, id: StreamId)
    requires W.Enabled(w, a)
    ensures At(W.Apply(w, a).submitted, id)
         == At(w.submitted, id) + if a.Submit? && a.msg.stream == id then MessageItems(a.msg) else []
  {
    assert At(w.submitted, id) + [] == At(w.submitted, id);
  }

  lemma SubmittedAfterStep(s: System, a: Action, c: ConnId, id: StreamId)
    requires Enabled(s, a) && (a.Server? ==> Fresh(s, a.sa))
    ensures SubmittedAt(Apply(s, a), c, id) == SubmittedAt(s, c, id) + Writing(a, c, id)
  {
    assert SubmittedAt(s, c, id) + [] == SubmittedAt(s, c, id);
    if a.Server? {
      DriversAfter(s, a.sa);
    } else if a.Write? && a.c == c {
      SubmittedAfterWrite(s.drivers[c].write, a.wa, id);
    }
  }

  lemma {:induction false} SubmittedIsWritten(run: seq<System>, acts: seq<Action>, k: nat, c: ConnId, id: StreamId)
    requires Run(run, acts) && k <= |acts| && run[k].sv.accepts <= U64_VALUES
    ensures SubmittedAt(run[k], c, id) == Written(acts[..k], c, id)
    decreases k, 1
  {
    if k > 0 {
      OneMoreWritten(run, acts, k - 1, c, id);
    }
  }

  lemma {:induction false} OneMoreWritten(run: seq<System>, acts: seq<Action>, k: nat, c: ConnId, id: StreamId)
    requires Run(run, acts) && k < |acts| && run[k + 1].sv.accepts <= U64_VALUES
    ensures SubmittedAt(run[k + 1], c, id) == Written(acts[..k + 1], c, id)
    decreases k + 1, 0
  {
    AcceptsGrowAlong(run, acts, k, k + 1);
    SubmittedIsWritten(run, acts, k, c, id);
    RunStepIsFresh(run, acts, k);
    assert Step(run[k], acts[k], run[k + 1]);
    SubmittedAfterStep(run[k], acts[k], c, id);
    assert acts[..k + 1][..k] == acts[..k];
  }

  // ---- what quiche accepted ----

  /** What quiche takes by this action on stream `id`: the first bytes of the chunk offered, and its FIN with
      the last of them. */
  function TakenBy(w: W.WriteSide, a: W.Action, id: StreamId): seq<Item>
    requires W.Enabled(w, a)
  {
    if a.Send? && a.s == id && a.reply.Accepted? then
      var head, n := w.pending[id][0], a.reply.n;
      Octets(head.bytes[..n]) + if n == |head.bytes| && head.fin then [Fin] else []
    else []
  }

  function Taking(s: System, a: Action, c: ConnId, id: StreamId): seq<Item> {
    if a.Write? && a.c == c && c in s.drivers && W.Enabled(s.drivers[c].write, a.wa)
    then TakenBy(s.drivers[c].write, a.wa, id) else []
  }

  /** Everything quiche took on stream `id` of `c`, send by send. */
  function Taken(run: seq<System>, acts: seq<Action>, k: nat, c: ConnId, id: StreamId): seq<Item>
    requires k <= |acts| < |run|
  {
    if k == 0 then [] else Taken(run, acts, k - 1, c, id) + Taking(run[k - 1], acts[k - 1], c, id)
  }

  function SentBy(s: System, c: ConnId, id: StreamId): seq<Item> {
    if c in s.drivers then At(s.drivers[c].write.sent, id) else []
  }

  lemma SentAfterSend(w: W.WriteSide, id: StreamId, reply: W.Reply)
    requires W.Enabled(w, W.Send(id, reply))
    ensures At(W.ApplySend(w, id, reply).sent, id) == At(w.sent, id) + TakenBy(w, W.Send(id, reply), id)
  {
    var head := w.pending[id][0];
    assert At(w.sent, id) + [] == At(w.sent, id);
    if reply.Accepted? {
      assert Octets(head.bytes[..reply.n]) + [] == Octets(head.bytes[..reply.n]);
      if reply.n == |head.bytes| {
        assert head.bytes[..reply.n] == head.bytes;
      }
    }
  }

  lemma SentAfterWrite(w: W.WriteSide, a: W.Action, id: StreamId)
    requires W.Enabled(w, a)
    ensures At(W.Apply(w, a).sent, id) == At(w.sent, id) + TakenBy(w, a, id)
  {
    assert At(w.sent, id) + [] == At(w.sent, id);
    if a.Send? {
      if a.s == id {
        SentAfterSend(w, id, a.reply);
      } else {
        W.SendLeavesOthers(w, a.s, a.reply, id);
      }
    }
  }

  lemma SentAfterStep(s: System, a: Action, c: ConnId, id: StreamId)
    requires Enabled(s, a) && (a.Server? ==> Fresh(s, a.sa))
    ensures SentBy(Apply(s, a), c, id) == SentBy(s, c, id) + Taking(s, a, c, id)
  {
    assert SentBy(s, c, id) + [] == SentBy(s, c, id);
    if a.Server? {
      DriversAfter(s, a.sa);
    } else if a.Write? && a.c == c {
      SentAfterWrite(s.drivers[c].write, a.wa, id);
    }
  }

  lemma {:induction false} SentIsTaken(run: seq<System>, acts: seq<Action>, k: nat, c: ConnId, id: StreamId)
    requires Run(run, acts) && k <= |acts| && run[k].sv.accepts <= U64_VALUES
    ensures SentBy(run[k], c, id) == Taken(run, acts, k, c, id)
    decreases k, 1
  {
    if k > 0 {
      OneMoreTaken(run, acts, k - 1, c, id);
    }
  }

  lemma {:induction false} OneMoreTaken(run: seq<System>, acts: seq<Action>, k: nat, c: ConnId, id: StreamId)
    requires Run(run, acts) && k < |acts| && run[k + 1].sv.accepts <= U64_VALUES
    ensures SentBy(run[k + 1], c, id) == Taken(run, acts, k + 1, c, id)
    decreases k + 1, 0
  {
    AcceptsGrowAlong(run, acts, k, k + 1);
    SentIsTaken(run, acts, k, c, id);
    RunStepIsFresh(run, acts, k);
    assert Step(run[k], acts[k], run[k + 1]);
    SentAfterStep(run[k], acts[k], c, id);
  }

  lemma RunKeepsWriteSide(run: seq<System>, acts: seq<Action>, k: nat, c: ConnId)
    requires Run(run, acts) && k <= |acts| && run[k].sv.accepts <= U64_VALUES && c in run[k].drivers
    ensures W.WriteInv(run[k].drivers[c].write)
  {
    RunKeepsInv(run, acts, k);
  }

  /** End to end, PHP to quiche, in every run: what PHP wrote on a stream, write by write, is what was settled,
      then what is pending, then what is in the channel; and if no hard error was met, it is what quiche took,
      send by send, and what is outstanding. */
  lemma WritesEndToEnd(run: seq<System>, acts: seq<Action>, k: nat, c: ConnId, id: StreamId)
    requires Run(run, acts) && k <= |acts| && run[k].sv.accepts <= U64_VALUES && c in run[k].drivers
    ensures var w := run[k].drivers[c].write;
            && Written(acts[..k], c, id) == W.SettledItems(At(w.settled, id)) + W.Outstanding(w, id)
            && Taken(run, acts, k, c, id) == W.AcceptedItems(At(w.settled, id))
            && (id !in w.failed ==> Written(acts[..k], c, id) == Taken(run, acts, k, c, id) + W.Outstanding(w, id))
  {
    RunKeepsWriteSide(run, acts, k, c);
    assert W.ConservedAt(run[k].drivers[c].write, id) && W.SentAt(run[k].drivers[c].write, id);
    SubmittedIsWritten(run, acts, k, c, id);
    SentIsTaken(run, acts, k, c, id);
  }

  // ---- what the peer sent ----

  function Arriving(a: Action, c: ConnId, id: StreamId): seq<Item> {
    if a.Read? && a.c == c && a.ra.Arrive? && a.ra.s == id then
      Octets(a.ra.chunk.bytes) + if a.ra.chunk.fin then [Fin] else []
    else []
  }

  /** Everything that arrived from the peer on stream `id` of `c`. */
  function Arrived(acts: seq<Action>, c: ConnId, id: StreamId): seq<Item> {
    if acts == [] then [] else Arrived(acts[..|acts| - 1], c, id) + Arriving(acts[|acts| - 1], c, id)
  }

  function ArrivedAt(s: System, c: ConnId, id: StreamId): seq<Item> {
    if c in s.drivers then At(s.drivers[c].read.arrived, id) else []
  }

  lemma ArrivedAfterRead(r: R.ReadSide, a: R.Action, id: StreamId)
    requires R.Enabled(r, a)
    ensures At(R.Apply(r, a).arrived, id) == At(r.arrived, id) +
              if a.Arrive? && a.s == id then Octets(a.chunk.bytes) + (if a.chunk.fin then [Fin] else []) else []
  {
    assert At(r.arrived, id) + [] == At(r.arrived, id);
  }

  lemma ArrivedAfterStep(s: System, a: Action, c: ConnId, id: StreamId)
    requires Enabled(s, a) && (a.Server? ==> Fresh(s, a.sa))
    ensures ArrivedAt(Apply(s, a), c, id) == ArrivedAt(s, c, id) + Arriving(a, c, id)
  {
    assert ArrivedAt(s, c, id) + [] == ArrivedAt(s, c, id);
    if a.Server? {
      DriversAfter(s, a.sa);
    } else if a.Read? && a.c == c {
      ArrivedAfterRead(s.drivers[c].read, a.ra, id);
    }
  }

  lemma {:induction false} ArrivedIsArrived(run: seq<System>, acts: seq<Action>, k: nat, c: ConnId, id: StreamId)
    requires Run(run, acts) && k <= |acts| && run[k].sv.accepts <= U64_VALUES
    ensures ArrivedAt(run[k], c, id) == Arrived(acts[..k], c, id)
    decreases k, 1
  {
    if k > 0 {
      OneMoreArrived(run, acts, k - 1, c, id);
    }
  }

  lemma {:induction false} OneMoreArrived(run: seq<System>, acts: seq<Action>, k: nat, c: ConnId, id: StreamId)
    requires Run(run, acts) && k < |acts| && run[k + 1].sv.accepts <= U64_VALUES
    ensures ArrivedAt(run[k + 1], c, id) == Arrived(acts[..k + 1], c, id)
    decreases k + 1, 0
  {
    AcceptsGrowAlong(run, acts, k, k + 1);
    ArrivedIsArrived(run, acts, k, c, id);
    RunStepIsFresh(run, acts, k);
    assert Step(run[k], acts[k], run[k + 1]);
    ArrivedAfterStep(run[k], acts[k], c, id);
    assert acts[..k + 1][..k] == acts[..k];
  }

  /** End to end, peer to dispatch, in every run: what arrived on a stream is what was dispatched, then what is
      queued or was dropped, then what quiche still holds. */
  lemma ReadsEndToEnd(run: seq<System>, acts: seq<Action>, k: nat, c: ConnId, id: StreamId)
    requires Run(run, acts) && k <= |acts| && run[k].sv.accepts <= U64_VALUES && c in run[k].drivers
    ensures Cut(run[k], c) <= |run[k].log|
    ensures Arrived(acts[..k], c, id)
         == R.DataItems(Handled(run[k].sv.calls, c), id) + R.DataItems(Undelivered(run[k], c), id)
          + R.UnreadAt(run[k].drivers[c].read.rx, id)
  {
    PrefixRun(run, acts, k);
    ReadsConserved(run[k], c, id);
    ArrivedIsArrived(run, acts, k, c, id);
  }

  // ---- signals and opens ----

  predicate Acted(acts: seq<Action>, k: nat, a: Action)
    requires k <= |acts|
  {
    exists i :: 0 <= i < k && acts[i] == a
  }

  lemma ActedNext(acts: seq<Action>, k: nat, a: Action)
    requires k < |acts|
    ensures Acted(acts, k + 1, a) <==> Acted(acts, k, a) || acts[k] == a
  {
  }

  predicate HasSignalled(s: System, c: ConnId, peer: bool) {
    c in s.signalled && s.signalled[c] == peer
  }

  lemma SignalledAfterStep(s: System, a: Action, c: ConnId, peer: bool)
    requires SignalsOk(s) && Enabled(s, a)
    ensures HasSignalled(Apply(s, a), c, peer) <==> HasSignalled(s, c, peer) || a == CloseSignal(c, peer)
  {
    if a.Server? {
      SignalledAfterServer(s, a.sa);
    }
  }

  lemma SignalledAfterServer(s: System, a: S.Action)
    requires S.Enabled(s.sv, a)
    ensures ApplyServer(s, a).signalled == s.signalled
  {
  }

  lemma RunStepSignals(run: seq<System>, acts: seq<Action>, k: nat, c: ConnId, peer: bool)
    requires Run(run, acts) && k < |acts| && run[k + 1].sv.accepts <= U64_VALUES
    ensures HasSignalled(run[k + 1], c, peer) <==> HasSignalled(run[k], c, peer) || acts[k] == CloseSignal(c, peer)
  {
    assert Step(run[k], acts[k], run[k + 1]);
    AcceptsGrow(run[k], acts[k]);
    RunKeepsInv(run, acts, k);
    SignalledAfterStep(run[k], acts[k], c, peer);
  }

  /** The record of close signals says what the drivers signalled. */
  lemma {:induction false} SignalledIff(run: seq<System>, acts: seq<Action>, k: nat, c: ConnId, peer: bool)
    requires Run(run, acts) && k <= |acts| && run[k].sv.accepts <= U64_VALUES
    ensures c in run[k].signalled && run[k].signalled[c] == peer <==> Acted(acts, k, CloseSignal(c, peer))
    decreases k, 1
  {
    if k > 0 {
      OneMoreSignalled(run, acts, k - 1, c, peer);
    }
  }

  lemma {:induction false} OneMoreSignalled(run: seq<System>, acts: seq<Action>, k: nat, c: ConnId, peer: bool)
    requires Run(run, acts) && k < |acts| && run[k + 1].sv.accepts <= U64_VALUES
    ensures HasSignalled(run[k + 1], c, peer) <==> Acted(acts, k + 1, CloseSignal(c, peer))
    decreases k + 1, 0
  {
    AcceptsGrowAlong(run, acts, k, k + 1);
    SignalledIff(run, acts, k, c, peer);
    RunStepSignals(run, acts, k, c, peer);
    ActedNext(acts, k, CloseSignal(c, peer));
  }

  lemma UpAfterServer(s: System, a: S.Action)
    requires S.Enabled(s.sv, a) && Up(s.sv) && a != S.StartClose
    ensures Up(ApplyServer(s, a).sv)
  {
  }

  /** The server goes down only by close(). */
  lemma {:induction false} DownOnlyByClose(run: seq<System>, acts: seq<Action>, k: nat)
    requires Run(run, acts) && k <= |acts| && !Up(run[k].sv)
    ensures Acted(acts, k, Server(S.StartClose))
  {
    assert k > 0;
    assert Step(run[k - 1], acts[k - 1], run[k]);
    if Up(run[k - 1].sv) {
      if acts[k - 1].Server? && acts[k - 1].sa != S.StartClose {
        UpAfterServer(run[k - 1], acts[k - 1].sa);
      }
    } else {
      DownOnlyByClose(run, acts, k - 1);
    }
    ActedNext(acts, k - 1, Server(S.StartClose));
  }

  lemma OpenedAfterServer(s: System, a: S.Action, c: ConnId, id: StreamId)
    requires S.Enabled(s.sv, a)
    ensures (c, id) in ApplyServer(s, a).phpOpened <==> (c, id) in s.phpOpened || a == S.OpenStream(c, id)
  {
  }

  /** The record of opened streams says what PHP opened. */
  lemma {:induction false} OpenedIff(run: seq<System>, acts: seq<Action>, k: nat, c: ConnId, id: StreamId)
    requires Run(run, acts) && k <= |acts|
    ensures (c, id) in run[k].phpOpened <==> Acted(acts, k, Server(S.OpenStream(c, id)))
  {
    if k > 0 {
      assert Step(run[k - 1], acts[k - 1], run[k]);
      OpenedIff(run, acts, k - 1, c, id);
      if acts[k - 1].Server? {
        OpenedAfterServer(run[k - 1], acts[k - 1].sa, c, id);
      }
      ActedNext(acts, k - 1, Server(S.OpenStream(c, id)));
    }
  }

  lemma RunJustifies(run: seq<System>, acts: seq<Action>, k: nat, i: nat)
    requires Run(run, acts) && k <= |acts| && run[k].sv.accepts <= U64_VALUES && i < |run[k].sv.calls|
    ensures S.Justified(run[k].sv, run[k].sv.calls[i]) && SignalsOk(run[k])
  {
    RunKeepsInv(run, acts, k);
  }

  /** The flag given to on_close is right. `true`: a FIN of its stream was dispatched, or the driver of its
      connection reported a close by the peer. `false`: the driver reported another close, or PHP closed the
      server. */
  lemma OnCloseFlagIsRight(run: seq<System>, acts: seq<Action>, k: nat, i: nat)
    requires Run(run, acts) && k <= |acts| && run[k].sv.accepts <= U64_VALUES
    requires i < |run[k].sv.calls| && run[k].sv.calls[i].CloseCall?
    ensures var sv, call := run[k].sv, run[k].sv.calls[i];
            && call.slot in sv.slots
            && var c, id := sv.slots[call.slot].conn, sv.slots[call.slot].stream;
               if call.peer then S.FinSeen(sv.calls, c, id) || Acted(acts, k, CloseSignal(c, true))
               else Acted(acts, k, CloseSignal(c, false)) || Acted(acts, k, Server(S.StartClose))
  {
    RunJustifies(run, acts, k, i);
    var c := run[k].sv.slots[run[k].sv.calls[i].slot].conn;
    SignalledIff(run, acts, k, c, run[k].sv.calls[i].peer);
    if !Up(run[k].sv) {
      DownOnlyByClose(run, acts, k);
    }
  }
}
