/** What the invariant means for connections: closes, callbacks, permits, wake-ups and writes. */
module Lifecycle {
  import opened Types
  import R = ReadPass
  import W = WritePass
  import S = Server
  import O = WriteOrder
  import opened System
  import opened SystemInvariant
  import opened ServerStepInvariant
  import opened RunInvariant
  import opened History

  // ---- on_close and silence ----

  /** on_close of a slot pair is fired at most once, on every path and in every run. */
  lemma OnCloseAtMostOnce(s: System, k: S.SlotId)
    requires Reachable(s) && s.sv.accepts <= U64_VALUES
    ensures S.FireCount(s.sv.calls, k) <= 1
  {
    ReachableKeepsInv(s);
    S.FiredAtMostOnce(s.sv, k);
  }

  /** Once a connection is gone, on_close of each of its slot pairs was fired exactly once if the pair
      was registered while the connection was live and was not overwritten, and never otherwise. */
  lemma OnCloseExactlyOnce(s: System, k: S.SlotId)
    requires Reachable(s) && s.sv.accepts <= U64_VALUES && k in s.sv.slots
    requires s.sv.slots[k].conn in s.sv.removed && !S.MapLocked(s.sv.pc, s.sv.slots[k].conn)
    ensures S.FireCount(s.sv.calls, k) == if s.sv.slots[k].live && k !in s.sv.overwritten then 1 else 0
  {
    ReachableKeepsInv(s);
    S.FiredExactlyOnceOnceGone(s.sv, k);
  }

  /** No on_data of a slot pair ever follows its on_close. */
  lemma SilentAfterOnClose(s: System, i: nat, j: nat, k: S.SlotId)
    requires Reachable(s) && s.sv.accepts <= U64_VALUES && i < j < |s.sv.calls|
    requires s.sv.calls[i].CloseCall? && s.sv.calls[i].slot == k
    ensures !(s.sv.calls[j].DataCall? && s.sv.calls[j].target == Some(k))
  {
    ReachableKeepsInv(s);
    S.NoDataAfterClose(s.sv, i, j, k);
  }

  lemma {:induction false} ClosedStaysClosed(run: seq<System>, acts: seq<Action>, k: nat, m: nat)
    requires Run(run, acts) && k <= m <= |acts| && S.ClosedDown(run[k].sv)
    ensures S.ClosedDown(run[m].sv)
    ensures run[m].sv.calls == run[k].sv.calls && run[m].sv.accepts == run[k].sv.accepts
    decreases m
  {
    if k < m {
      ClosedStaysClosed(run, acts, k, m - 1);
      assert Step(run[m - 1], acts[m - 1], run[m]);
      ClosedAfterStep(run[m - 1], acts[m - 1]);
    }
  }

  /** From the step that ends close() on, the server is silent for the rest of every run: no connection is
      left, nothing is called, nothing is accepted, whatever the surviving drivers send. */
  lemma ClosedServerStaysSilent(run: seq<System>, acts: seq<Action>, k: nat, m: nat)
    requires Run(run, acts) && k < m <= |acts| && acts[k] == Server(S.EndClose)
    ensures S.ClosedDown(run[m].sv)
    ensures run[m].sv.calls == run[k].sv.calls && run[m].sv.accepts == run[k].sv.accepts
  {
    assert Step(run[k], acts[k], run[k + 1]);
    S.EndCloseClosesDown(run[k].sv);
    ClosedStaysClosed(run, acts, k + 1, m);
  }

  lemma ClosedAfterStep(s: System, a: Action)
    requires S.ClosedDown(s.sv) && Enabled(s, a)
    ensures var t := Apply(s, a); S.ClosedDown(t.sv) && t.sv.calls == s.sv.calls && t.sv.accepts == s.sv.accepts
  {
    if a.Server? {
      DriversAfter(s, a.sa);
      S.ClosedStaysSilent(s.sv, a.sa);
    }
  }

  // ---- accept before dispatch ----

  /** The server drops an event or a close only for a connection it has removed, never for one whose
      record is still to be inserted. */
  lemma DroppedOnlyIfRemoved(s: System)
    requires Reachable(s) && s.sv.accepts <= U64_VALUES
    ensures s.sv.pc.Dispatching? && s.sv.pc.c !in s.sv.connections ==> s.sv.pc.c in s.sv.removed
    ensures s.sv.pc.PollCloses? && s.closes != [] && s.closes[0].0 !in s.sv.connections ==>
              s.closes[0].0 in s.sv.removed
  {
    ReachableKeepsInv(s);
    if s.sv.pc.Dispatching? {
      DispatchedConnExists(s);
    }
  }

  // ---- permits ----

  /** Reserve before consume: queued events and outstanding permits never exceed the capacity, and a
      permit is outstanding only while its driver stands between reserving and using it. */
  lemma PermitsNeverLeak(s: System)
    requires Reachable(s) && s.sv.accepts <= U64_VALUES
    ensures s.taken <= |s.log| && |s.log| - s.taken + s.permits <= 8192
    ensures (forall c | c in s.drivers :: !R.Holding(s.drivers[c].read.pc)) ==> s.permits == 0
  {
    ReachableKeepsInv(s);
    if forall c | c in s.drivers :: !R.Holding(s.drivers[c].read.pc) {
      assert Holders(s.drivers) == {};
    }
  }

  /** A driver is refused a permit only when queued events and outstanding permits fill the channel. */
  lemma RefusedOnlyWhenFull(s: System, c: ConnId)
    requires Reachable(s) && s.sv.accepts <= U64_VALUES && ReadEnabled(s, c, R.Full)
    ensures |s.log| - s.taken + s.permits == 8192
  {
    PermitsNeverLeak(s);
  }

  // ---- writes ----

  lemma ReachableWriteInv(s: System, c: ConnId)
    requires Reachable(s) && s.sv.accepts <= U64_VALUES && c in s.drivers
    ensures W.WriteInv(s.drivers[c].write)
  {
    ReachableKeepsInv(s);
  }

  /** Every item PHP submitted on any stream of any connection is settled, pending or queued, in order,
      and quiche has exactly the accepted segments. */
  lemma WritesConserved(s: System, c: ConnId, id: StreamId)
    requires Reachable(s) && s.sv.accepts <= U64_VALUES && c in s.drivers
    ensures W.ConservedAt(s.drivers[c].write, id) && W.SentAt(s.drivers[c].write, id)
  {
    ReachableWriteInv(s, c);
  }

  lemma ReachableAlternates(s: System, c: ConnId)
    requires Reachable(s) && s.sv.accepts <= U64_VALUES && c in s.drivers
    ensures OneAtATime(s.drivers[c]) && (s.drivers[c].write.notifying ==> S.UserCode(s.sv.pc))
  {
    ReachableKeepsInv(s);
  }

  /** No lost wake-up: when a running driver waits with messages queued, it can take the step that wakes it
      at once, unless PHP is still inside the write, and then it can after that. */
  lemma WaitingDriverCanWake(s: System, c: ConnId)
    requires Reachable(s) && s.sv.accepts <= U64_VALUES && c in s.drivers && !s.drivers[c].closed
    requires s.drivers[c].write.phase.Waiting? && s.drivers[c].write.chan != []
    ensures || WriteEnabled(s, c, W.WakeNotified)
            || (WriteEnabled(s, c, W.Notify) && WriteEnabled(ApplyWrite(s, c, W.Notify), c, W.WakeNotified))
  {
    ReachableWriteInv(s, c);
    ReachableAlternates(s, c);
  }

  /** When a FIN of a stream is settled, everything PHP submitted on that stream before it has been settled
      too, and the FIN is the last item of its own send; for every connection of the engine. */
  lemma FinSettledLast(s: System, c: ConnId, id: StreamId, i: nat)
    requires Reachable(s) && s.sv.accepts <= U64_VALUES && c in s.drivers
    requires i < |At(s.drivers[c].write.settled, id)| && Fin in At(s.drivers[c].write.settled, id)[i].items
    ensures var segs, submitted := At(s.drivers[c].write.settled, id), At(s.drivers[c].write.submitted, id);
            var upTo := W.SettledItems(segs[..i + 1]);
            && upTo == W.SettledItems(segs[..i]) + segs[i].items
            && upTo <= submitted && |upTo| > 0 && submitted[|upTo| - 1] == Fin
  {
    ReachableWriteInv(s, c);
    W.FinAcceptedLast(s.drivers[c].write, id, i);
  }

  predicate SendsOn(a: Action, c: ConnId, id: StreamId) {
    a.Write? && a.c == c && a.wa.Send? && a.wa.s == id
  }

  /** The last send on stream `id` of `c` before state `k` was step `i`, and quiche took less than it was
      offered. */
  ghost predicate LastSendRefused(run: seq<System>, acts: seq<Action>, k: nat, c: ConnId, id: StreamId, i: nat)
    requires k <= |acts| < |run|
  {
    && i < k && SendsOn(acts[i], c, id) && c in run[i].drivers && W.Refused(run[i].drivers[c].write, acts[i].wa, id)
    && forall j | i < j < k :: !SendsOn(acts[j], c, id)
  }

  ghost predicate Stuck(s: System, c: ConnId, id: StreamId) {
    c in s.drivers && id in s.drivers[c].write.stuck
  }

  lemma StuckAfterStep(s: System, a: Action, c: ConnId, id: StreamId)
    requires DriversOk(s) && Enabled(s, a) && Stuck(Apply(s, a), c, id)
    ensures || (SendsOn(a, c, id) && c in s.drivers && W.Refused(s.drivers[c].write, a.wa, id))
            || (Stuck(s, c, id) && !SendsOn(a, c, id))
  {
    if a.Write? && a.c == c {
      assert W.QueuesOk(s.drivers[c].write);
      W.StuckAfterStep(s.drivers[c].write, a.wa, id);
    } else if a.Server? {
      DriversAfter(s, a.sa);
    }
  }

  lemma StuckAfterRunStep(run: seq<System>, acts: seq<Action>, k: nat, c: ConnId, id: StreamId)
    requires Run(run, acts) && k < |acts| && run[k + 1].sv.accepts <= U64_VALUES && Stuck(run[k + 1], c, id)
    ensures || (SendsOn(acts[k], c, id) && c in run[k].drivers && W.Refused(run[k].drivers[c].write, acts[k].wa, id))
            || (Stuck(run[k], c, id) && !SendsOn(acts[k], c, id))
  {
    assert Step(run[k], acts[k], run[k + 1]);
    AcceptsGrow(run[k], acts[k]);
    RunKeepsInv(run, acts, k);
    StuckAfterStep(run[k], acts[k], c, id);
  }

  lemma {:induction false} StuckMeansRefused(run: seq<System>, acts: seq<Action>, k: nat, c: ConnId, id: StreamId)
    returns (i: nat)
    requires Run(run, acts) && k <= |acts| && run[k].sv.accepts <= U64_VALUES && Stuck(run[k], c, id)
    ensures LastSendRefused(run, acts, k, c, id, i)
  {
    assert k > 0;
    AcceptsGrowAlong(run, acts, k - 1, k);
    StuckAfterRunStep(run, acts, k - 1, c, id);
    if SendsOn(acts[k - 1], c, id) {
      i := k - 1;
    } else {
      i := StuckMeansRefused(run, acts, k - 1, c, id);
    }
  }

  /** Work conserving, in every run of the engine: whatever a driver that is through process_writes keeps
      queued is on a stream on which quiche took less than it was offered by the last send. */
  lemma FlushIsWorkConserving(run: seq<System>, acts: seq<Action>, k: nat, c: ConnId, id: StreamId)
    requires Run(run, acts) && k <= |acts| && run[k].sv.accepts <= U64_VALUES && c in run[k].drivers
    requires run[k].drivers[c].write.phase.Rested? || run[k].drivers[c].write.phase.Waiting?
    requires id in run[k].drivers[c].write.pending
    ensures run[k].drivers[c].write.pending[id] != [] && exists i :: LastSendRefused(run, acts, k, c, id, i)
  {
    RunKeepsQueues(run, acts, k, c);
    var i := StuckMeansRefused(run, acts, k, c, id);
  }

  lemma RunKeepsQueues(run: seq<System>, acts: seq<Action>, k: nat, c: ConnId)
    requires Run(run, acts) && k <= |acts| && run[k].sv.accepts <= U64_VALUES && c in run[k].drivers
    ensures W.QueuesOk(run[k].drivers[c].write)
  {
    RunKeepsInv(run, acts, k);
  }

  /** This step takes something on stream `id` of `c`, which has already dropped something. */
  predicate Overtakes(s: System, a: Action, c: ConnId, id: StreamId) {
    && a.Write? && a.c == c && c in s.drivers && W.Enabled(s.drivers[c].write, a.wa)
    && O.Overtaking(s.drivers[c].write, a.wa, id)
  }

  ghost predicate InOrderAt(s: System, c: ConnId, id: StreamId) {
    c in s.drivers ==> O.InOrder(At(s.drivers[c].write.settled, id))
  }

  lemma OrderAfterServer(s: System, a: S.Action, c: ConnId, id: StreamId)
    requires S.Enabled(s.sv, a) && Fresh(s, a)
    ensures InOrderAt(ApplyServer(s, a), c, id) <==> InOrderAt(s, c, id)
  {
    DriversAfter(s, a);
  }

  lemma OrderAfterWrite(s: System, d: ConnId, a: W.Action, c: ConnId, id: StreamId)
    requires WriteEnabled(s, d, a)
    ensures InOrderAt(ApplyWrite(s, d, a), c, id) <==> InOrderAt(s, c, id) && !Overtakes(s, Write(d, a), c, id)
  {
    if d == c {
      O.OrderAfterStep(s.drivers[c].write, a, id);
    }
  }

  lemma OrderAfterStep(s: System, a: Action, c: ConnId, id: StreamId)
    requires Enabled(s, a) && (a.Server? ==> Fresh(s, a.sa))
    ensures InOrderAt(Apply(s, a), c, id) <==> InOrderAt(s, c, id) && !Overtakes(s, a, c, id)
  {
    match a
    case Server(sa) => OrderAfterServer(s, sa, c, id);
    case Write(d, wa) => OrderAfterWrite(s, d, wa, c, id);
    case Read(_, _) =>
    case CloseSignal(_, _) =>
  }

  ghost predicate NeverOvertook(run: seq<System>, acts: seq<Action>, k: nat, c: ConnId, id: StreamId)
    requires k <= |acts| < |run|
  {
    forall i | 0 <= i < k :: !Overtakes(run[i], acts[i], c, id)
  }

  lemma OrderAfterRunStep(run: seq<System>, acts: seq<Action>, k: nat, c: ConnId, id: StreamId)
    requires Run(run, acts) && k < |acts| && run[k + 1].sv.accepts <= U64_VALUES
    ensures InOrderAt(run[k + 1], c, id) <==> InOrderAt(run[k], c, id) && !Overtakes(run[k], acts[k], c, id)
  {
    assert Step(run[k], acts[k], run[k + 1]);
    RunStepIsFresh(run, acts, k);
    OrderAfterStep(run[k], acts[k], c, id);
  }

  lemma NothingYet(run: seq<System>, acts: seq<Action>, c: ConnId, id: StreamId)
    requires Run(run, acts)
    ensures InOrderAt(run[0], c, id)
  {
  }

  lemma NeverOvertookNext(run: seq<System>, acts: seq<Action>, k: nat, c: ConnId, id: StreamId)
    requires k < |acts| < |run|
    requires InOrderAt(run[k], c, id) <==> NeverOvertook(run, acts, k, c, id)
    requires InOrderAt(run[k + 1], c, id) <==> InOrderAt(run[k], c, id) && !Overtakes(run[k], acts[k], c, id)
    ensures InOrderAt(run[k + 1], c, id) <==> NeverOvertook(run, acts, k + 1, c, id)
  {
  }

  lemma {:induction false} InOrderIffNeverOvertook(run: seq<System>, acts: seq<Action>, k: nat, c: ConnId, id: StreamId)
    requires Run(run, acts) && k <= |acts| && run[k].sv.accepts <= U64_VALUES
    ensures InOrderAt(run[k], c, id) <==> NeverOvertook(run, acts, k, c, id)
    decreases k, 1
  {
    if k == 0 {
      NothingYet(run, acts, c, id);
    } else {
      OneMoreStep(run, acts, k - 1, c, id);
    }
  }

  lemma {:induction false} OneMoreStep(run: seq<System>, acts: seq<Action>, k: nat, c: ConnId, id: StreamId)
    requires Run(run, acts) && k < |acts| && run[k + 1].sv.accepts <= U64_VALUES
    ensures InOrderAt(run[k + 1], c, id) <==> NeverOvertook(run, acts, k + 1, c, id)
    decreases k + 1, 0
  {
    AcceptsGrowAlong(run, acts, k, k + 1);
    InOrderIffNeverOvertook(run, acts, k, c, id);
    OrderAfterRunStep(run, acts, k, c, id);
    NeverOvertookNext(run, acts, k, c, id);
  }

  lemma RunKeepsWrites(run: seq<System>, acts: seq<Action>, k: nat, c: ConnId, id: StreamId)
    requires Run(run, acts) && k <= |acts| && run[k].sv.accepts <= U64_VALUES && c in run[k].drivers
    ensures W.ConservedAt(run[k].drivers[c].write, id) && W.SentAt(run[k].drivers[c].write, id)
  {
    RunKeepsInv(run, acts, k);
  }

  /** For every stream of every connection, in every state of every run of the whole engine: what quiche
      accepted are the first items PHP submitted if and only if no send ever took anything on that stream
      after it had dropped something. */
  lemma AcceptedIsPrefixIff(run: seq<System>, acts: seq<Action>, k: nat, c: ConnId, id: StreamId)
    requires Run(run, acts) && k <= |acts| && run[k].sv.accepts <= U64_VALUES && c in run[k].drivers
    ensures var w := run[k].drivers[c].write;
            && (O.Gapless(O.Positions(At(w.settled, id))) <==> NeverOvertook(run, acts, k, c, id))
            && (NeverOvertook(run, acts, k, c, id) ==> At(w.sent, id) <= At(w.submitted, id))
    ensures NeverOvertook(run, acts, k, c, id) ==> Taken(run, acts, k, c, id) <= Written(acts[..k], c, id)
  {
    SubmittedIsWritten(run, acts, k, c, id);
    SentIsTaken(run, acts, k, c, id);
    RunKeepsWrites(run, acts, k, c, id);
    InOrderIffNeverOvertook(run, acts, k, c, id);
    O.SentByPosition(run[k].drivers[c].write, id);
  }

  /** Hard errors of quiche are final for their stream. */
  ghost predicate Sticky(run: seq<System>, acts: seq<Action>)
    requires Run(run, acts)
  {
    forall i | 0 <= i < |acts| :: StickyStep(run[i], acts[i])
  }

  predicate StickyStep(s: System, a: Action) {
    a.Write? && a.c in s.drivers ==> O.Final(s.drivers[a.c].write, a.wa)
  }

  lemma StickyNeverOvertakes(run: seq<System>, acts: seq<Action>, k: nat, c: ConnId, id: StreamId)
    requires Run(run, acts) && Sticky(run, acts) && k < |acts| && run[k].sv.accepts <= U64_VALUES
    ensures !Overtakes(run[k], acts[k], c, id)
  {
    if Overtakes(run[k], acts[k], c, id) {
      RunKeepsWrites(run, acts, k, c, id);
      assert StickyStep(run[k], acts[k]);
      O.FinalNeverOvertakes(run[k].drivers[c].write, acts[k].wa, id);
    }
  }

  /** So with final errors what quiche accepted on a stream is always a prefix of what PHP submitted. */
  lemma AcceptedIsPrefixOfSubmitted(run: seq<System>, acts: seq<Action>, k: nat, c: ConnId, id: StreamId)
    requires Run(run, acts) && Sticky(run, acts) && k <= |acts| && run[k].sv.accepts <= U64_VALUES
    requires c in run[k].drivers
    ensures At(run[k].drivers[c].write.sent, id) <= At(run[k].drivers[c].write.submitted, id)
    ensures Taken(run, acts, k, c, id) <= Written(acts[..k], c, id)
  {
    forall i | 0 <= i < k ensures !Overtakes(run[i], acts[i], c, id) {
      AcceptsGrowAlong(run, acts, i, k);
      StickyNeverOvertakes(run, acts, i, c, id);
    }
    AcceptedIsPrefixIff(run, acts, k, c, id);
  }

  // ---- the close channel ----

  function Ids(closes: seq<(ConnId, bool)>): set<ConnId> {
    set i | 0 <= i < |closes| :: closes[i].0
  }

  lemma {:induction false} DistinctIds(closes: seq<(ConnId, bool)>)
    requires forall i, j | 0 <= i < j < |closes| :: closes[i].0 != closes[j].0
    ensures |Ids(closes)| == |closes|
  {
    if closes == [] {
      assert Ids(closes) == {};
    } else {
      var n := |closes| - 1;
      DistinctIds(closes[..n]);
      assert Ids(closes) == Ids(closes[..n]) + {closes[n].0};
    }
  }

  lemma SubsetSize(a: set<ConnId>, b: set<ConnId>)
    requires a <= b
    ensures |a| <= |b|
  {
    assert b == a + (b - a);
  }

  /** Before the server is closed, at most one close signal per live connection is queued, none of
      them for the driver about to signal. */
  lemma QueuedClosesBelowLive(s: System, c: ConnId)
    requires ClosesOk(s) && Up(s.sv) && CloseEnabled(s, c)
    ensures |s.closes| < |Live(s.sv)|
  {
    DistinctIds(s.closes);
    assert Ids(s.closes) <= Live(s.sv) - {c};
    SubsetSize(Ids(s.closes), Live(s.sv) - {c});
  }

  /** With at most 1024 live connections a close signal always finds room, however full the event
      channel is. */
  lemma CloseFindsRoom(s: System, c: ConnId)
    requires Reachable(s) && s.sv.accepts <= U64_VALUES && Up(s.sv) && CloseEnabled(s, c)
    requires |Live(s.sv)| <= 1024
    ensures |s.closes| < 1024
  {
    ReachableKeepsInv(s);
    QueuedClosesBelowLive(s, c);
  }

  lemma {:induction false} LostStaysLost(run: seq<System>, acts: seq<Action>, k: nat, m: nat)
    requires Run(run, acts) && k <= m <= |acts|
    ensures run[k].lost <= run[m].lost
    decreases m
  {
    if k < m {
      LostStaysLost(run, acts, k, m - 1);
      assert Step(run[m - 1], acts[m - 1], run[m]);
      if acts[m - 1].Server? { LostAfterServer(run[m - 1], acts[m - 1].sa); }
    }
  }

  lemma LostAfterServer(s: System, a: S.Action)
    requires S.Enabled(s.sv, a)
    ensures ApplyServer(s, a).lost == s.lost
  {
  }

  /** A connection whose close was lost leaks: for the rest of the run, until the server itself is
      closed, it stays live, so none of the slot pairs it still has is fired. */
  lemma LostCloseLeaks(run: seq<System>, acts: seq<Action>, k: nat, m: nat, c: ConnId)
    requires Run(run, acts) && k <= m <= |acts| && run[m].sv.accepts <= U64_VALUES
    requires c in run[k].lost && Up(run[m].sv)
    ensures c in Live(run[m].sv) && c !in run[m].sv.removed
    ensures forall id | id in S.MapOf(run[m].sv, c) :: S.FireCount(run[m].sv.calls, S.MapOf(run[m].sv, c)[id]) == 0
  {
    LostStaysLost(run, acts, k, m);
    RunKeepsInv(run, acts, m);
    LostIsLive(run[m], c);
    forall id | id in S.MapOf(run[m].sv, c) ensures S.FireCount(run[m].sv.calls, S.MapOf(run[m].sv, c)[id]) == 0 {
      S.RegisteredNotFired(run[m].sv, c, id);
    }
  }

  lemma LostIsLive(s: System, c: ConnId)
    requires ClosesOk(s) && S.DomainsOk(s.sv) && Up(s.sv) && c in s.lost
    ensures c in Live(s.sv) && c !in s.sv.removed
  {
  }
}
