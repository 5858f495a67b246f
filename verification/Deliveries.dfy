/** What the invariant means for data: conservation from the peer to PHP, the announcements, the
    slot maps, and what happens to the events that arrive while a connection is being closed. */
module Deliveries {
  import opened Types
  import R = ReadPass
  import W = WritePass
  import S = Server
  import opened System
  import opened SystemInvariant
  import opened ServerStepInvariant
  import opened RunInvariant

  lemma OfSplit(log: seq<(ConnId, DriverEvent)>, n: nat, c: ConnId)
    requires n <= |log|
    ensures Of(log, c) == Of(log[..n], c) + Of(log[n..], c)
  {
    assert log == log[..n] + log[n..];
    OfConcat(log[..n], log[n..], c);
  }

  lemma {:induction false} DataItemsConcat(a: seq<DriverEvent>, b: seq<DriverEvent>, id: StreamId)
    ensures R.DataItems(a + b, id) == R.DataItems(a, id) + R.DataItems(b, id)
  {
    if b == [] {
      assert a + b == a;
    } else {
      var m := |b| - 1;
      DataItemsConcat(a, b[..m], id);
      assert (a + b)[..|a + b| - 1] == a + b[..m];
      if b[m].Data? && b[m].stream == id {
        Assoc(R.DataItems(a, id), R.DataItems(b[..m], id), Items(b[m].chunk));
      }
    }
  }

  lemma {:induction false} ReplayConcat(known: set<StreamId>, a: seq<DriverEvent>, b: seq<DriverEvent>)
    ensures R.Replay(known, a + b) == R.Replay(R.Replay(known, a), b)
  {
    if b == [] {
      assert a + b == a;
    } else {
      ReplayConcat(known, a, b[..|b| - 1]);
      assert (a + b)[..|a + b| - 1] == a + b[..|b| - 1];
    }
  }

  lemma {:induction false} ReplayMonotone(k1: set<StreamId>, k2: set<StreamId>, es: seq<DriverEvent>)
    requires k1 <= k2
    ensures R.Replay(k1, es) <= R.Replay(k2, es) <= R.Replay(k1, es) + (k2 - k1)
  {
    if es != [] {
      ReplayMonotone(k1, k2, es[..|es| - 1]);
    }
  }

  /** A FIN among the delivered items of a stream is their last item. */
  lemma {:induction false} FinLastInData(es: seq<DriverEvent>, id: StreamId)
    requires R.WellFormed(es)
    ensures W.FinLast(R.DataItems(es, id))
  {
    if es != [] {
      var m := |es| - 1;
      assert forall i | 0 <= i < m :: es[..m][i] == es[i] && es[..m][..i] == es[..i];
      assert R.WellFormed(es[..m]) by {
        forall i {:trigger es[..m][i]} | 0 <= i < m ensures R.Legal(es[..m][..i], es[..m][i]) {
          assert R.Legal(es[..i], es[i]);
        }
      }
      FinLastInData(es[..m], id);
      assert R.Legal(es[..m], es[m]);
      if es[m].Data? && es[m].stream == id {
        W.ItemsEndWithFin(es[m].chunk, 0);
        assert Fin !in R.DataItems(es[..m], id);
      }
    }
  }

  /** The events of `c` that no call was made for: still queued, or dropped after `c` was removed. */
  function Undelivered(s: System, c: ConnId): seq<DriverEvent>
    requires Cut(s, c) <= |s.log|
  {
    Of(s.log[Cut(s, c)..], c)
  }

  /** Conservation from the peer to the dispatch, for every connection, live or not: the items
      dispatched, then those in events still queued or dropped, then those unread in quiche, are exactly
      what the peer sent on the stream, in order; and a FIN is always the last item. */
  lemma ReadsConserved(s: System, c: ConnId, id: StreamId)
    requires Reachable(s) && s.sv.accepts <= U64_VALUES && c in s.drivers
    ensures Cut(s, c) <= |s.log|
    ensures At(s.drivers[c].read.arrived, id)
         == R.DataItems(Handled(s.sv.calls, c), id) + R.DataItems(Undelivered(s, c), id)
          + R.UnreadAt(s.drivers[c].read.rx, id)
    ensures W.FinLast(R.DataItems(Handled(s.sv.calls, c), id) + R.DataItems(Undelivered(s, c), id))
  {
    ReachableKeepsInv(s);
    DeliveredAndQueued(s, c);
    DataItemsConcat(Handled(s.sv.calls, c), Undelivered(s, c), id);
    assert R.ReadInv(s.drivers[c].read) && R.ConservedAt(s.drivers[c].read, id);
    FinLastInData(s.drivers[c].read.emitted, id);
  }

  lemma DeliveredAndQueued(s: System, c: ConnId)
    requires CoreInv(s) && c in s.drivers
    ensures Cut(s, c) <= |s.log|
    ensures s.drivers[c].read.emitted == Handled(s.sv.calls, c) + Undelivered(s, c)
  {
    CutsInRange(s);
    assert CallsAt(s, c);
    OfSplit(s.log, Cut(s, c), c);
  }

  /** For a live connection nothing was dropped: what is undelivered is in the channel. */
  lemma LiveUndeliveredIsQueued(s: System, c: ConnId)
    requires Reachable(s) && s.sv.accepts <= U64_VALUES && c in s.sv.connections
    ensures s.taken <= |s.log| && Cut(s, c) == Dispatched(s) && Undelivered(s, c) == Of(s.log[Dispatched(s)..], c)
  {
    ReachableKeepsInv(s);
  }

  /** What was dispatched of any connection, removed or not: exactly its events up to its cut, each once,
      in order, chunk by chunk. */
  lemma DeliveredExactly(s: System, c: ConnId)
    requires Reachable(s) && s.sv.accepts <= U64_VALUES
    ensures s.taken <= |s.log| && Cut(s, c) <= |s.log|
    ensures Handled(s.sv.calls, c) == Of(s.log[..Cut(s, c)], c)
  {
    ReachableKeepsInv(s);
    CutsInRange(s);
    assert CallsAt(s, c);
  }

  lemma EventsWellFormed(s: System, c: ConnId)
    requires CoreInv(s)
    ensures R.WellFormed(Of(s.log, c))
  {
    if c in s.drivers {
      assert R.ReadInv(s.drivers[c].read);
    } else {
      OfStranger(s.log, c);
    }
  }

  /** In the log of every driver a stream is announced only if bit 0 of its id is 0, once, as the kind bit 1
      says, and before all its data, which it always is; nothing follows a FIN; and a chunk is not empty of
      items and fits the buffer. */
  lemma LogAnnouncesOnceAndFirst(s: System, c: ConnId, j: nat)
    requires Reachable(s) && s.sv.accepts <= U64_VALUES && c in s.drivers && j < |Of(s.log, c)|
    ensures var es := Of(s.log, c);
            && (es[j].NewBidi? ==> es[j].stream % 4 == 0)
            && (es[j].NewUni? ==> es[j].stream % 4 == 2)
            && (!es[j].Data? ==>
                  forall i | 0 <= i < |es| && !es[i].Data? && es[i].stream == es[j].stream :: i == j)
            && (es[j].Data? && es[j].stream % 2 == 0 ==>
                  exists i :: 0 <= i < j && !es[i].Data? && es[i].stream == es[j].stream)
            && (es[j].Data? ==>
                  forall i | 0 <= i < j && es[i].Data? && es[i].stream == es[j].stream :: !es[i].chunk.fin)
            && (es[j].Data? ==>
                  |es[j].chunk.bytes| <= 65536 && (es[j].chunk.bytes != [] || es[j].chunk.fin))
  {
    ReachableKeepsInv(s);
    EventsWellFormed(s, c);
    R.AnnouncedOnceAndFirst(Of(s.log, c), j);
  }

  // ---- simulation between the server's slot map and the driver's announced streams ----

  function ClientKeys(m: S.SlotMap): set<StreamId> {
    set id | id in m && ClientInitiated(id)
  }

  /** The client-initiated ids that PHP itself opened on `c`. */
  function PhpClientIds(s: System, c: ConnId): set<StreamId> {
    set p | p in s.phpOpened && p.0 == c && ClientInitiated(p.1) :: p.1
  }

  lemma KeysBetween(s: System, c: ConnId)
    requires s.taken <= |s.log| && KeysOk(s) && c in s.sv.connections && R.WellFormed(Of(s.log, c))
    ensures Known(s, c, Finished(s)) <= ClientKeys(S.MapOf(s.sv, c)) <= Known(s, c, Finished(s)) + PhpClientIds(s, c)
  {
    var es := Of(s.log[..Finished(s)], c);
    OfPrefix(s.log, Finished(s), c);
    R.PrefixWellFormed(es, Of(s.log, c));
    forall id | id in R.Replay({}, es) ensures id in ClientKeys(S.MapOf(s.sv, c)) {
      R.ReplayOnlyClient(es, id);
      assert KeysAt(s, c, id);
    }
    forall id | id in ClientKeys(S.MapOf(s.sv, c)) ensures id in R.Replay({}, es) + PhpClientIds(s, c) {
      assert KeysAt(s, c, id);
      assert (c, id) in s.phpOpened ==> (c, id).1 in PhpClientIds(s, c);
    }
  }

  lemma ReachableReadInv(s: System, c: ConnId)
    requires Reachable(s) && s.sv.accepts <= U64_VALUES && c in s.sv.connections
    ensures LogOk(s) && KeysOk(s) && c in s.drivers && R.ReadInv(s.drivers[c].read) && R.WellFormed(Of(s.log, c))
  {
    ReachableKeepsInv(s);
  }

  lemma SeenIsReplayed(s: System, c: ConnId)
    requires LogOk(s) && c in s.drivers && R.ReadInv(s.drivers[c].read)
    ensures s.drivers[c].read.seen == R.Replay(Known(s, c, Finished(s)), Of(s.log[Finished(s)..], c))
  {
    OfSplit(s.log, Finished(s), c);
    ReplayConcat({}, Of(s.log[..Finished(s)], c), Of(s.log[Finished(s)..], c));
  }

  /** After event `e` stream `id` is known or not, whatever was known before. */
  predicate Tells(e: DriverEvent, id: StreamId) {
    e.stream == id && (!e.Data? || e.chunk.fin)
  }

  predicate Told(es: seq<DriverEvent>, id: StreamId) {
    exists i :: 0 <= i < |es| && Tells(es[i], id)
  }

  lemma ToldSnoc(es: seq<DriverEvent>, id: StreamId)
    requires es != []
    ensures Told(es, id) <==> Told(es[..|es| - 1], id) || Tells(es[|es| - 1], id)
  {
    var init := es[..|es| - 1];
    if Told(init, id) {
      var i :| 0 <= i < |init| && Tells(init[i], id);
      assert Tells(es[i], id);
    }
    if Told(es, id) && !Tells(es[|es| - 1], id) {
      var i :| 0 <= i < |es| && Tells(es[i], id);
      assert Tells(init[i], id);
    }
  }

  /** Two replays of the same events agree on `id` exactly if they started so or were told. */
  lemma {:induction false} ReplaysAgreeIff(k1: set<StreamId>, k2: set<StreamId>, es: seq<DriverEvent>, id: StreamId)
    ensures (id in R.Replay(k1, es) <==> id in R.Replay(k2, es)) <==> (id in k1 <==> id in k2) || Told(es, id)
  {
    if es != [] {
      ToldSnoc(es, id);
      ReplaysAgreeIff(k1, k2, es[..|es| - 1], id);
    }
  }

  /** Client-initiated ids that only PHP has made known to the slot map so far: it opened them itself, and
      no announcement has been dealt with. */
  function OwnKeys(s: System, c: ConnId): set<StreamId>
    requires s.taken <= |s.log|
  {
    set id | id in ClientKeys(S.MapOf(s.sv, c)) && id !in Known(s, c, Finished(s))
  }

  ghost predicate Simulates(s: System, c: ConnId)
    requires s.taken <= |s.log| && c in s.drivers
  {
    R.Replay(ClientKeys(S.MapOf(s.sv, c)), Of(s.log[Finished(s)..], c)) == s.drivers[c].read.seen
  }

  /** Simulation: replaying the events not finished yet over the client-initiated keys of the server's
      slot map gives exactly the driver's announced streams if and only if each of those keys that only PHP
      has made known is announced or ended by one of these events. */
  lemma SlotMapSimulatesSeenIff(s: System, c: ConnId)
    requires Reachable(s) && s.sv.accepts <= U64_VALUES && c in s.sv.connections
    ensures s.taken <= |s.log| && c in s.drivers
    ensures Simulates(s, c) <==> forall id | id in OwnKeys(s, c) :: Told(Of(s.log[Finished(s)..], c), id)
  {
    ReachableReadInv(s, c);
    SeenIsReplayed(s, c);
    KeysBetween(s, c);
    var known, keys, late := Known(s, c, Finished(s)), ClientKeys(S.MapOf(s.sv, c)), Of(s.log[Finished(s)..], c);
    forall id ensures (id in R.Replay(keys, late) <==> id in R.Replay(known, late)) <==>
                        id !in OwnKeys(s, c) || Told(late, id) {
      ReplaysAgreeIff(keys, known, late, id);
    }
  }

  /** So it holds whenever PHP opened no client-initiated id itself; and it never misses an announced
      stream, nor has more than what PHP opened. */
  lemma SlotMapSimulatesSeen(s: System, c: ConnId)
    requires Reachable(s) && s.sv.accepts <= U64_VALUES && c in s.sv.connections
    ensures s.taken <= |s.log| && c in s.drivers
    ensures var replayed := R.Replay(ClientKeys(S.MapOf(s.sv, c)), Of(s.log[Finished(s)..], c));
            && s.drivers[c].read.seen <= replayed <= s.drivers[c].read.seen + PhpClientIds(s, c)
            && (PhpClientIds(s, c) == {} ==> replayed == s.drivers[c].read.seen)
  {
    ReachableReadInv(s, c);
    SeenIsReplayed(s, c);
    KeysBetween(s, c);
    ReplayMonotone(Known(s, c, Finished(s)), ClientKeys(S.MapOf(s.sv, c)), Of(s.log[Finished(s)..], c));
    SlotMapSimulatesSeenIff(s, c);
  }

  // ---- events that arrive while their connection is being closed ----

  /** `c` was removed when `m` events had been received, its driver has stopped, and its events
      are `es`, for good. */
  ghost predicate Gone(s: System, c: ConnId, m: nat, es: seq<DriverEvent>) {
    && c in s.mark && s.mark[c] == m && c in s.sv.removed
    && c in s.drivers && s.drivers[c].closed
    && m <= |s.log| && Of(s.log, c) == es
  }

  lemma GoneAfterServer(s: System, a: S.Action, c: ConnId, m: nat, es: seq<DriverEvent>)
    requires Gone(s, c, m, es) && S.DomainsOk(s.sv) && S.Enabled(s.sv, a) && Fresh(s, a)
    ensures Gone(ApplyServer(s, a), c, m, es) && ApplyServer(s, a).log == s.log
  {
  }

  lemma GoneAfterRead(s: System, d: ConnId, a: R.Action, c: ConnId, m: nat, es: seq<DriverEvent>)
    requires Gone(s, c, m, es) && ReadEnabled(s, d, a)
    ensures Gone(ApplyRead(s, d, a), c, m, es) && s.log <= ApplyRead(s, d, a).log
  {
    var sent := R.Emission(s.drivers[d].read, a);
    if sent.Some? {
      OfSnoc(s.log, (d, sent.value), c);
    }
  }

  lemma GoneAfterWrite(s: System, d: ConnId, a: W.Action, c: ConnId, m: nat, es: seq<DriverEvent>)
    requires Gone(s, c, m, es) && WriteEnabled(s, d, a)
    ensures Gone(ApplyWrite(s, d, a), c, m, es)
  {
  }

  lemma GoneAfterClose(s: System, d: ConnId, peer: bool, c: ConnId, m: nat, es: seq<DriverEvent>)
    requires Gone(s, c, m, es) && CloseEnabled(s, d)
    ensures Gone(ApplyClose(s, d, peer), c, m, es)
  {
  }

  lemma ServerStepIsFresh(s: System, a: S.Action)
    requires S.DomainsOk(s.sv) && s.drivers.Keys == s.sv.maps.Keys
    requires ServerEnabled(s, a) && ApplyServer(s, a).sv.accepts <= U64_VALUES
    ensures Fresh(s, a)
  {
    DriversAfter(s, a);
    AcceptIsFresh(s, a);
  }

  lemma GoneAfterServerStep(s: System, a: S.Action, c: ConnId, m: nat, es: seq<DriverEvent>)
    requires Gone(s, c, m, es) && S.DomainsOk(s.sv) && s.drivers.Keys == s.sv.maps.Keys
    requires ServerEnabled(s, a) && ApplyServer(s, a).sv.accepts <= U64_VALUES
    ensures Gone(ApplyServer(s, a), c, m, es) && ApplyServer(s, a).log == s.log
  {
    ServerStepIsFresh(s, a);
    GoneAfterServer(s, a, c, m, es);
  }

  lemma GoneAfterStep(s: System, a: Action, c: ConnId, m: nat, es: seq<DriverEvent>)
    requires Gone(s, c, m, es) && S.DomainsOk(s.sv) && s.drivers.Keys == s.sv.maps.Keys
    requires Enabled(s, a) && Apply(s, a).sv.accepts <= U64_VALUES
    ensures Gone(Apply(s, a), c, m, es) && s.log <= Apply(s, a).log
  {
    match a
    case Server(sa) => GoneAfterServerStep(s, sa, c, m, es);
    case Read(d, ra) => GoneAfterRead(s, d, ra, c, m, es);
    case Write(d, wa) => GoneAfterWrite(s, d, wa, c, m, es);
    case CloseSignal(d, peer) => GoneAfterClose(s, d, peer, c, m, es);
  }

  lemma {:induction false} GoneAlong(run: seq<System>, acts: seq<Action>, k: nat, m: nat,
                                     c: ConnId, at: nat, es: seq<DriverEvent>)
    requires Run(run, acts) && k <= m <= |acts| && run[m].sv.accepts <= U64_VALUES
    requires Gone(run[k], c, at, es)
    ensures Gone(run[m], c, at, es) && run[k].log <= run[m].log
    decreases m
  {
    if k < m {
      assert Step(run[m - 1], acts[m - 1], run[m]);
      AcceptsGrow(run[m - 1], acts[m - 1]);
      GoneAlong(run, acts, k, m - 1, c, at, es);
      RunKeepsInv(run, acts, m - 1);
      GoneAfterStep(run[m - 1], acts[m - 1], c, at, es);
    }
  }

  /** The server takes the close of a live connection: at that moment everything that was in the
      event channel when this iteration polled it has been received, and nothing more. */
  lemma CloseCutsAtPoll(s: System, c: ConnId, peer: bool)
    requires Inv(s) && ServerEnabled(s, S.TakeClose(c, peer)) && c in s.sv.connections
    ensures var t := ApplyServer(s, S.TakeClose(c, peer));
            s.polled <= |s.log| && Gone(t, c, s.polled, Of(s.log, c)) && t.log == s.log
  {
    assert s.closes[0].0 == c;
  }

  lemma DeliveredOfGone(run: seq<System>, acts: seq<Action>, k: nat, c: ConnId, m: nat, es: seq<DriverEvent>)
    requires Run(run, acts) && k <= |acts| && run[k].sv.accepts <= U64_VALUES && Gone(run[k], c, m, es)
    ensures Handled(run[k].sv.calls, c) == Of(run[k].log[..m], c)
  {
    RunKeepsInv(run, acts, k);
    CutsInRange(run[k]);
    assert CallsAt(run[k], c);
  }

  lemma CloseStepKeepsItsCut(run: seq<System>, acts: seq<Action>, k: nat, m: nat, c: ConnId, peer: bool)
    requires Run(run, acts) && k < m <= |acts| && run[m].sv.accepts <= U64_VALUES
    requires acts[k] == Server(S.TakeClose(c, peer)) && c in run[k].sv.connections
    ensures run[k].polled <= |run[k].log| && run[k].log <= run[m].log
    ensures Gone(run[m], c, run[k].polled, Of(run[k].log, c))
  {
    assert Step(run[k], acts[k], run[k + 1]);
    AcceptsGrowAlong(run, acts, k, m);
    RunKeepsInv(run, acts, k);
    CloseCutsAtPoll(run[k], c, peer);
    GoneAlong(run, acts, k + 1, m, c, run[k].polled, Of(run[k].log, c));
  }

  /** Drain before close, over whole runs: for ever after the close of `c` was taken in step `k`, what
      was dispatched of `c` are exactly the events sent before the event poll of that iteration, and the
      events dropped as late are exactly those sent after that poll and before the close. So nothing is
      dropped if and only if no event of `c` slipped in between the two polls. */
  lemma DroppedExactlyAfterPoll(run: seq<System>, acts: seq<Action>, k: nat, m: nat, c: ConnId, peer: bool)
    requires Run(run, acts) && k < m <= |acts| && run[m].sv.accepts <= U64_VALUES
    requires acts[k] == Server(S.TakeClose(c, peer)) && c in run[k].sv.connections
    ensures run[k].polled <= |run[k].log|
    ensures Handled(run[m].sv.calls, c) == Of(run[k].log[..run[k].polled], c)
    ensures Of(run[m].log, c) == Of(run[k].log[..run[k].polled], c) + Of(run[k].log[run[k].polled..], c)
    ensures Handled(run[m].sv.calls, c) == Of(run[m].log, c) <==> Of(run[k].log[run[k].polled..], c) == []
  {
    var s, p := run[k], run[k].polled;
    CloseStepKeepsItsCut(run, acts, k, m, c, peer);
    DeliveredOfGone(run, acts, m, c, p, Of(s.log, c));
    assert run[m].log[..p] == s.log[..p];
    OfSplit(s.log, p, c);
  }

  /** The driver of `c` has stopped, and all its events, `es`, lie before position `p`, which an event
      poll has reached. */
  ghost predicate Stopped(s: System, c: ConnId, p: nat, es: seq<DriverEvent>) {
    && c in s.drivers && s.drivers[c].closed
    && p <= s.polled <= |s.log| && Of(s.log[..p], c) == es && Of(s.log, c) == es
  }

  lemma StoppedAfterServer(s: System, a: S.Action, c: ConnId, p: nat, es: seq<DriverEvent>)
    requires Stopped(s, c, p, es) && S.Enabled(s.sv, a) && Fresh(s, a)
    ensures Stopped(ApplyServer(s, a), c, p, es)
  {
    assert ApplyServer(s, a).log == s.log;
  }

  lemma StoppedAfterRead(s: System, d: ConnId, a: R.Action, c: ConnId, p: nat, es: seq<DriverEvent>)
    requires Stopped(s, c, p, es) && ReadEnabled(s, d, a)
    ensures Stopped(ApplyRead(s, d, a), c, p, es)
  {
    var t, sent := ApplyRead(s, d, a), R.Emission(s.drivers[d].read, a);
    assert t.log[..p] == s.log[..p];
    if sent.Some? {
      OfSnoc(s.log, (d, sent.value), c);
    }
  }

  lemma StoppedAfterStep(s: System, a: Action, c: ConnId, p: nat, es: seq<DriverEvent>)
    requires Stopped(s, c, p, es) && S.DomainsOk(s.sv) && s.drivers.Keys == s.sv.maps.Keys
    requires Enabled(s, a) && Apply(s, a).sv.accepts <= U64_VALUES
    ensures Stopped(Apply(s, a), c, p, es)
  {
    match a
    case Server(sa) =>
      ServerStepIsFresh(s, sa);
      StoppedAfterServer(s, sa, c, p, es);
    case Read(d, ra) => StoppedAfterRead(s, d, ra, c, p, es);
    case Write(_, _) =>
    case CloseSignal(_, _) =>
  }

  lemma {:induction false} StoppedAlong(run: seq<System>, acts: seq<Action>, k: nat, m: nat,
                                        c: ConnId, p: nat, es: seq<DriverEvent>)
    requires Run(run, acts) && k <= m <= |acts| && run[m].sv.accepts <= U64_VALUES
    requires Stopped(run[k], c, p, es)
    ensures Stopped(run[m], c, p, es)
    decreases m, 1
  {
    if k < m {
      StoppedOneMore(run, acts, k, m - 1, c, p, es);
    }
  }

  lemma {:induction false} StoppedOneMore(run: seq<System>, acts: seq<Action>, k: nat, m: nat,
                                          c: ConnId, p: nat, es: seq<DriverEvent>)
    requires Run(run, acts) && k <= m < |acts| && run[m + 1].sv.accepts <= U64_VALUES
    requires Stopped(run[k], c, p, es)
    ensures Stopped(run[m + 1], c, p, es)
    decreases m + 1, 0
  {
    AcceptsGrowAlong(run, acts, m, m + 1);
    StoppedAlong(run, acts, k, m, c, p, es);
    RunStepKeepsStopped(run, acts, m, c, p, es);
  }

  lemma RunStepKeepsStopped(run: seq<System>, acts: seq<Action>, k: nat, c: ConnId, p: nat, es: seq<DriverEvent>)
    requires Run(run, acts) && k < |acts| && run[k + 1].sv.accepts <= U64_VALUES
    requires Stopped(run[k], c, p, es)
    ensures Stopped(run[k + 1], c, p, es)
  {
    assert Step(run[k], acts[k], run[k + 1]);
    AcceptsGrow(run[k], acts[k]);
    RunKeepsInv(run, acts, k);
    StoppedAfterStep(run[k], acts[k], c, p, es);
  }

  lemma PollAfterStop(s: System, c: ConnId)
    requires c in s.drivers && s.drivers[c].closed && ServerEnabled(s, S.NoEvent)
    ensures Stopped(ApplyServer(s, S.NoEvent), c, |s.log|, Of(s.log, c))
  {
    assert s.log[..|s.log|] == s.log;
  }

  lemma NothingAfterPoll(s: System, c: ConnId, p: nat, es: seq<DriverEvent>)
    requires Stopped(s, c, p, es)
    ensures Of(s.log[s.polled..], c) == []
  {
    OfSplit(s.log, p, c);
    OfSplit(s.log[p..], s.polled - p, c);
    assert s.log[p..][s.polled - p..] == s.log[s.polled..];
  }

  /** A clean close drops nothing: if the driver of `c` had stopped before any event poll that came
      before its close was taken, then every event the driver ever sent was dispatched. */
  lemma StopBeforePollDropsNothing(run: seq<System>, acts: seq<Action>, j: nat, k: nat, m: nat, c: ConnId, peer: bool)
    requires Run(run, acts) && j < k < m <= |acts| && run[m].sv.accepts <= U64_VALUES
    requires acts[j] == Server(S.NoEvent) && c in run[j].drivers && run[j].drivers[c].closed
    requires acts[k] == Server(S.TakeClose(c, peer)) && c in run[k].sv.connections
    ensures Handled(run[m].sv.calls, c) == Of(run[m].log, c)
  {
    assert Step(run[j], acts[j], run[j + 1]);
    AcceptsGrowAlong(run, acts, k, m);
    PollAfterStop(run[j], c);
    StoppedAlong(run, acts, j + 1, k, c, |run[j].log|, Of(run[j].log, c));
    NothingAfterPoll(run[k], c, |run[j].log|, Of(run[j].log, c));
    DroppedExactlyAfterPoll(run, acts, k, m, c, peer);
  }
}
