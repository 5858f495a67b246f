/** Every step of the whole engine keeps the invariant of module System. */
module SystemInvariant {
  import opened Types
  import R = ReadPass
  import W = WritePass
  import S = Server
  import opened System

  // ---- lists of events ----

  lemma OfSnoc(log: seq<(ConnId, DriverEvent)>, e: (ConnId, DriverEvent), c: ConnId)
    ensures Of(log + [e], c) == if e.0 == c then Of(log, c) + [e.1] else Of(log, c)
  {
    assert (log + [e])[..|log|] == log;
  }

  lemma OfNext(log: seq<(ConnId, DriverEvent)>, n: nat, c: ConnId)
    requires n < |log|
    ensures Of(log[..n + 1], c) == if log[n].0 == c then Of(log[..n], c) + [log[n].1] else Of(log[..n], c)
  {
    assert log[..n + 1] == log[..n] + [log[n]];
    OfSnoc(log[..n], log[n], c);
  }

  lemma {:induction false} OfConcat(a: seq<(ConnId, DriverEvent)>, b: seq<(ConnId, DriverEvent)>, c: ConnId)
    ensures Of(a + b, c) == Of(a, c) + Of(b, c)
  {
    if b == [] {
      assert a + b == a;
    } else {
      var m := |b| - 1;
      OfConcat(a, b[..m], c);
      assert (a + b)[..|a + b| - 1] == a + b[..m];
    }
  }

  lemma {:induction false} OfPrefix(log: seq<(ConnId, DriverEvent)>, n: nat, c: ConnId)
    requires n <= |log|
    ensures Of(log[..n], c) <= Of(log, c)
    decreases |log| - n
  {
    if n == |log| {
      assert log[..n] == log;
    } else {
      OfPrefix(log, n + 1, c);
      OfNext(log, n, c);
    }
  }

  lemma {:induction false} OfStranger(log: seq<(ConnId, DriverEvent)>, c: ConnId)
    requires forall i | 0 <= i < |log| :: log[i].0 != c
    ensures Of(log, c) == []
  {
    if log != [] {
      OfStranger(log[..|log| - 1], c);
    }
  }

  /** The event of `c` that a call hands to PHP, if it is one. */
  function EventOf(call: S.Call, c: ConnId): Option<DriverEvent> {
    match call
    case StreamCall(d, ev, _) => if d == c then Some(ev) else None
    case DataCall(d, s, _, chunk, _) => if d == c then Some(Data(s, chunk)) else None
    case CloseCall(_, _, _) => None
  }

  lemma HandledSnoc(calls: seq<S.Call>, call: S.Call, c: ConnId)
    ensures Handled(calls + [call], c)
         == match EventOf(call, c) case Some(ev) => Handled(calls, c) + [ev] case None => Handled(calls, c)
  {
    assert (calls + [call])[..|calls|] == calls;
  }

  // ---- read steps ----

  lemma ReadKeepsDrivers(s: System, c: ConnId, a: R.Action)
    requires DriversOk(s) && ReadEnabled(s, c, a)
    ensures DriversOk(ApplyRead(s, c, a))
  {
    R.StepKeepsInv(s.drivers[c].read, a);
  }

  lemma ReadKeepsLog(s: System, c: ConnId, a: R.Action)
    requires LogOk(s) && ReadEnabled(s, c, a)
    ensures LogOk(ApplyRead(s, c, a))
  {
    var sent := R.Emission(s.drivers[c].read, a);
    var t := ApplyRead(s, c, a);
    EmissionIsLogged(s.drivers[c].read, a);
    forall d | d in t.drivers ensures t.drivers[d].read.emitted == Of(t.log, d) {
      if sent.Some? {
        OfSnoc(s.log, (c, sent.value), d);
      }
    }
  }

  lemma EmissionIsLogged(r: R.ReadSide, a: R.Action)
    requires R.Enabled(r, a)
    ensures R.Apply(r, a).emitted
         == match R.Emission(r, a) case Some(e) => r.emitted + [e] case None => r.emitted
  {
  }

  /** A read step moves its driver into or out of the places that hold a permit exactly as it moves
      the permit count. */
  lemma PermitsFollowPc(r: R.ReadSide, a: R.Action)
    requires R.Enabled(r, a)
    ensures a.Reserve? ==> !R.Holding(r.pc) && R.Holding(R.Apply(r, a).pc)
    ensures a.SendNew? || a.RecvOk? || a.RecvDone? || a.RecvErr? ==> R.Holding(r.pc) && !R.Holding(R.Apply(r, a).pc)
    ensures a.Arrive? || a.Rearm? || a.Begin? || a.NoneLeft? || a.Take? || a.Full? ==>
              !R.Holding(r.pc) && !R.Holding(R.Apply(r, a).pc)
    ensures R.Emission(r, a).Some? <==> a.SendNew? || a.RecvOk?
  {
  }

  lemma HoldersAfter(drivers: map<ConnId, Driver>, c: ConnId, d: Driver)
    requires c in drivers
    ensures R.Holding(drivers[c].read.pc) && !R.Holding(d.read.pc) ==>
              |Holders(drivers[c := d])| == |Holders(drivers)| - 1
    ensures !R.Holding(drivers[c].read.pc) && R.Holding(d.read.pc) ==>
              |Holders(drivers[c := d])| == |Holders(drivers)| + 1
    ensures (R.Holding(drivers[c].read.pc) <==> R.Holding(d.read.pc)) ==>
              Holders(drivers[c := d]) == Holders(drivers)
  {
    var before, after := Holders(drivers), Holders(drivers[c := d]);
    if R.Holding(drivers[c].read.pc) && !R.Holding(d.read.pc) {
      assert after == before - {c};
    } else if !R.Holding(drivers[c].read.pc) && R.Holding(d.read.pc) {
      assert after == before + {c};
    } else {
      assert after == before;
    }
  }

  lemma ReadKeepsChannel(s: System, c: ConnId, a: R.Action)
    requires ChannelOk(s) && s.taken <= |s.log| && ReadEnabled(s, c, a)
    ensures ChannelOk(ApplyRead(s, c, a))
  {
    var d := s.drivers[c];
    PermitsFollowPc(d.read, a);
    HoldersAfter(s.drivers, c, d.(read := R.Apply(d.read, a)));
    assert R.Holding(d.read.pc) ==> c in Holders(s.drivers);
  }

  /** The part of the state that the server's deliveries depend on is the same, and the log has
      grown at most. */
  predicate SameDeliveries(s: System, t: System) {
    && s.taken <= |s.log| && s.log <= t.log && t.taken == s.taken && t.sv == s.sv && t.mark == s.mark
    && t.phpOpened == s.phpOpened && t.polled == s.polled
  }

  lemma LongerLogKeepsKeys(s: System, t: System)
    requires SameDeliveries(s, t) && KeysOk(s)
    ensures KeysOk(t)
  {
    assert t.log[..Finished(t)] == s.log[..Finished(s)];
    forall c, id | c in Live(t.sv) ensures KeysAt(t, c, id) {
      assert KeysAt(s, c, id);
    }
  }

  lemma LongerLogKeepsCalls(s: System, t: System)
    requires SameDeliveries(s, t) && (forall c :: Cut(s, c) <= |s.log|) && CallsOk(s)
    ensures (forall c :: Cut(t, c) <= |t.log|) && CallsOk(t)
  {
    assert forall c :: Cut(t, c) == Cut(s, c);
    forall c ensures CallsAt(t, c) {
      assert CallsAt(s, c) && Cut(t, c) == Cut(s, c) <= |s.log|;
      assert t.log[..Cut(t, c)] == s.log[..Cut(s, c)];
    }
  }

  lemma LongerLogKeepsPositions(s: System, t: System)
    requires SameDeliveries(s, t) && PositionsOk(s)
    ensures PositionsOk(t)
  {
    assert forall i | 0 <= i < |s.log| :: t.log[i] == s.log[i];
  }

  lemma CutsInRange(s: System)
    requires s.taken <= |s.log| && PositionsOk(s)
    ensures forall c :: Cut(s, c) <= |s.log|
  {
  }

  /** Updating a driver without closing it does not concern the close channel. */
  lemma OpenDriverKeepsCloses(s: System, t: System, c: ConnId, d: Driver)
    requires ClosesOk(s) && t.closes == s.closes && t.sv == s.sv && t.lost == s.lost
    requires c in s.drivers && t.drivers == s.drivers[c := d] && d.closed == s.drivers[c].closed
    ensures ClosesOk(t)
  {
  }

  lemma DriverStepKeepsInv(s: System, t: System)
    requires CoreInv(s) && SameDeliveries(s, t)
    requires DriversOk(t) && LogOk(t) && ChannelOk(t)
    ensures CoreInv(t)
  {
    CutsInRange(s);
    LongerLogKeepsPositions(s, t);
    LongerLogKeepsKeys(s, t);
    LongerLogKeepsCalls(s, t);
  }

  /** Updating a driver without closing it does not concern the signals. */
  lemma OpenDriverKeepsSignals(s: System, t: System, c: ConnId, d: Driver)
    requires SignalsOk(s) && t.closes == s.closes && t.sv == s.sv && t.signalled == s.signalled
    requires c in s.drivers && t.drivers == s.drivers[c := d] && d.closed == s.drivers[c].closed
    ensures SignalsOk(t)
  {
  }

  lemma CloseKeepsSignals(s: System, c: ConnId, peer: bool)
    requires SignalsOk(s) && CloseEnabled(s, c)
    ensures SignalsOk(ApplyClose(s, c, peer))
  {
  }

  lemma ReadKeepsLoops(s: System, c: ConnId, a: R.Action)
    requires LoopsOk(s) && ReadEnabled(s, c, a)
    ensures LoopsOk(ApplyRead(s, c, a))
  {
  }

  lemma WriteKeepsLoops(s: System, c: ConnId, a: W.Action)
    requires LoopsOk(s) && WriteEnabled(s, c, a)
    ensures LoopsOk(ApplyWrite(s, c, a))
  {
  }

  lemma CloseKeepsLoops(s: System, c: ConnId, peer: bool)
    requires LoopsOk(s) && CloseEnabled(s, c)
    ensures LoopsOk(ApplyClose(s, c, peer))
  {
  }

  lemma ReadKeepsInv(s: System, c: ConnId, a: R.Action)
    requires Inv(s) && ReadEnabled(s, c, a)
    ensures Inv(ApplyRead(s, c, a))
  {
    var t := ApplyRead(s, c, a);
    ReadKeepsLoops(s, c, a);
    ReadKeepsDrivers(s, c, a);
    ReadKeepsLog(s, c, a);
    ReadKeepsChannel(s, c, a);
    DriverStepKeepsInv(s, t);
    OpenDriverKeepsCloses(s, t, c, t.drivers[c]);
    OpenDriverKeepsSignals(s, t, c, t.drivers[c]);
  }

  // ---- write steps and close signals ----

  lemma SameReadSideKeepsLog(s: System, t: System, c: ConnId, d: Driver)
    requires LogOk(s) && ChannelOk(s) && c in s.drivers && d.read == s.drivers[c].read
    requires t.log == s.log && t.taken == s.taken && t.permits == s.permits && t.polled == s.polled
    requires t.phpOpened == s.phpOpened && t.drivers == s.drivers[c := d]
    ensures LogOk(t) && ChannelOk(t)
  {
    HoldersAfter(s.drivers, c, d);
  }

  lemma WriteKeepsDrivers(s: System, c: ConnId, a: W.Action)
    requires DriversOk(s) && WriteEnabled(s, c, a)
    ensures DriversOk(ApplyWrite(s, c, a))
  {
    W.StepKeepsInv(s.drivers[c].write, a);
  }

  lemma CloseKeepsDrivers(s: System, c: ConnId, peer: bool)
    requires DriversOk(s) && c in s.drivers
    ensures DriversOk(ApplyClose(s, c, peer))
  {
  }

  lemma WriteKeepsInv(s: System, c: ConnId, a: W.Action)
    requires Inv(s) && WriteEnabled(s, c, a)
    ensures Inv(ApplyWrite(s, c, a))
  {
    var t := ApplyWrite(s, c, a);
    WriteKeepsLoops(s, c, a);
    WriteKeepsDrivers(s, c, a);
    SameReadSideKeepsLog(s, t, c, t.drivers[c]);
    DriverStepKeepsInv(s, t);
    OpenDriverKeepsCloses(s, t, c, t.drivers[c]);
    OpenDriverKeepsSignals(s, t, c, t.drivers[c]);
  }

  lemma QueuedSnoc(closes: seq<(ConnId, bool)>, e: (ConnId, bool), c: ConnId)
    ensures IsQueued(closes, c) || e.0 == c ==> IsQueued(closes + [e], c)
  {
    assert (closes + [e])[|closes|] == e;
    if i :| 0 <= i < |closes| && closes[i].0 == c {
      assert (closes + [e])[i].0 == c;
    }
  }

  lemma CloseKeepsQueued(s: System, c: ConnId, peer: bool)
    requires StoppedAreQueued(s) && CloseEnabled(s, c)
    ensures StoppedAreQueued(ApplyClose(s, c, peer))
  {
    var t := ApplyClose(s, c, peer);
    forall d | d in Live(t.sv) && d in t.drivers && t.drivers[d].closed ensures d in t.lost || IsQueued(t.closes, d) {
      QueuedSnoc(s.closes, (c, peer), d);
    }
  }

  lemma CloseKeepsDistinct(s: System, c: ConnId, peer: bool)
    requires ClosesBounded(s) && ClosesDistinct(s) && OpenAreLive(s) && CloseEnabled(s, c)
    ensures ClosesDistinct(ApplyClose(s, c, peer)) && OpenAreLive(ApplyClose(s, c, peer))
  {
  }

  lemma CloseKeepsCloses(s: System, c: ConnId, peer: bool)
    requires ClosesOk(s) && CloseEnabled(s, c)
    ensures ClosesOk(ApplyClose(s, c, peer))
  {
    assert ClosesBounded(ApplyClose(s, c, peer));
    if Up(s.sv) {
      CloseKeepsDistinct(s, c, peer);
      CloseKeepsQueued(s, c, peer);
    }
  }

  lemma CloseIsDriverStep(s: System, c: ConnId, peer: bool)
    requires s.taken <= |s.log| && CloseEnabled(s, c)
    ensures SameDeliveries(s, ApplyClose(s, c, peer))
    ensures var t := ApplyClose(s, c, peer);
            && t.drivers == s.drivers[c := s.drivers[c].(closed := true)]
            && t.log == s.log && t.taken == s.taken && t.permits == s.permits && t.polled == s.polled
  {
  }

  lemma CloseKeepsCore(s: System, c: ConnId, peer: bool)
    requires CoreInv(s) && CloseEnabled(s, c)
    ensures CoreInv(ApplyClose(s, c, peer))
  {
    CloseIsDriverStep(s, c, peer);
    CloseKeepsDrivers(s, c, peer);
    SameReadSideKeepsLog(s, ApplyClose(s, c, peer), c, s.drivers[c].(closed := true));
    DriverStepKeepsInv(s, ApplyClose(s, c, peer));
  }

  lemma CloseKeepsInv(s: System, c: ConnId, peer: bool)
    requires Inv(s) && CloseEnabled(s, c)
    ensures Inv(ApplyClose(s, c, peer))
  {
    CloseKeepsCore(s, c, peer);
    CloseKeepsCloses(s, c, peer);
    CloseKeepsSignals(s, c, peer);
    CloseKeepsLoops(s, c, peer);
  }
}
