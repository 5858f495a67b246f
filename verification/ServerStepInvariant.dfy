/** Steps of the PHP thread keep the invariant of module System. */
module ServerStepInvariant {
  import opened Types
  import R = ReadPass
  import W = WritePass
  import S = Server
  import opened System
  import opened SystemInvariant

  predicate Fresh(s: System, a: S.Action) {
    a.Accept? ==> S.ConnIdOf(s.sv.accepts) !in s.drivers
  }

  lemma AcceptIsFresh(s: System, a: S.Action)
    requires S.DomainsOk(s.sv) && s.drivers.Keys == s.sv.maps.Keys
    requires S.Enabled(s.sv, a) && S.Apply(s.sv, a).accepts <= U64_VALUES
    ensures Fresh(s, a)
  {
    assert a.Accept? ==> S.ConnIdOf(s.sv.accepts) == s.sv.accepts;
  }

  lemma MapKeysAfter(sv: S.Server, a: S.Action)
    requires S.DomainsOk(sv) && S.Enabled(sv, a)
    ensures S.Apply(sv, a).maps.Keys
         == if a.Accept? then sv.maps.Keys + {S.ConnIdOf(sv.accepts)} else sv.maps.Keys
  {
  }

  lemma DriversAfter(s: System, a: S.Action)
    requires S.Enabled(s.sv, a)
    ensures ApplyServer(s, a).drivers
         == if a.Accept? then s.drivers[S.ConnIdOf(s.sv.accepts) := NewDriver] else s.drivers
    ensures ApplyServer(s, a).sv == S.Apply(s.sv, a)
  {
  }

  lemma NewDriverOk()
    ensures R.ReadInv(NewDriver.read) && W.WriteInv(NewDriver.write)
  {
    W.InitialInv();
  }

  lemma ServerKeepsDrivers(s: System, a: S.Action)
    requires S.DomainsOk(s.sv) && DriversOk(s) && S.Enabled(s.sv, a)
    ensures DriversOk(ApplyServer(s, a))
  {
    MapKeysAfter(s.sv, a);
    DriversAfter(s, a);
    NewDriverOk();
  }

  lemma ServerKeepsLog(s: System, a: S.Action)
    requires LogOk(s) && s.drivers.Keys == s.sv.maps.Keys && ServerEnabled(s, a) && Fresh(s, a)
    ensures LogOk(ApplyServer(s, a))
  {
    if a.Accept? {
      OfStranger(s.log, S.ConnIdOf(s.sv.accepts));
    }
  }

  lemma ServerKeepsChannel(s: System, a: S.Action)
    requires LogOk(s) && ChannelOk(s) && ServerEnabled(s, a) && Fresh(s, a)
    ensures ChannelOk(ApplyServer(s, a))
  {
    assert Holders(ApplyServer(s, a).drivers) == Holders(s.drivers);
  }

  /** Detaching a connection records its position. */
  lemma MovingStepKeepsPositions(s: System, a: S.Action)
    requires s.taken <= |s.log| && s.polled <= |s.log| && PositionsOk(s) && S.DomainsOk(s.sv) && ServerEnabled(s, a)
    requires a.TakeClose? || a.CloseConn?
    ensures PositionsOk(ApplyServer(s, a))
  {
  }

  lemma ServerKeepsPositions(s: System, a: S.Action)
    requires s.taken <= |s.log| && s.polled <= |s.log| && PositionsOk(s) && S.DomainsOk(s.sv) && ServerEnabled(s, a)
    ensures ApplyServer(s, a).taken <= |ApplyServer(s, a).log| && PositionsOk(ApplyServer(s, a))
  {
    if a.TakeClose? || a.CloseConn? {
      MovingStepKeepsPositions(s, a);
    }
  }

  // ---- slot maps against the event log ----

  lemma KnownNext(s: System, c: ConnId, n: nat)
    requires n < |s.log|
    ensures Known(s, c, n + 1)
         == if s.log[n].0 == c then R.Effect(Known(s, c, n), s.log[n].1) else Known(s, c, n)
  {
    OfNext(s.log, n, c);
    if s.log[n].0 == c {
      R.ReplaySnoc({}, Of(s.log[..n], c), s.log[n].1);
    }
  }

  lemma EndedNext(s: System, c: ConnId, id: StreamId, n: nat)
    requires n < |s.log|
    ensures Ended(s, c, id, n + 1)
       <==> var e := s.log[n]; Ended(s, c, id, n) || (e.0 == c && e.1.Data? && e.1.stream == id && e.1.chunk.fin)
  {
    OfNext(s.log, n, c);
    if s.log[n].0 == c {
      R.DataItemsSnoc(Of(s.log[..n], c), s.log[n].1, id);
      if s.log[n].1.Data? {
        R.FinInItems(s.log[n].1.chunk);
      }
    }
  }

  /** Steps that finish no event and touch no map that matters. */
  lemma SameMapsKeepKeys(s: System, t: System)
    requires s.taken <= |s.log| && KeysOk(s)
    requires t.taken <= |t.log| && t.log == s.log && Finished(t) == Finished(s) && t.phpOpened == s.phpOpened
    requires forall c | c in Live(t.sv) :: c in Live(s.sv) && S.MapOf(t.sv, c) == S.MapOf(s.sv, c)
    ensures KeysOk(t)
  {
    forall c, id | c in Live(t.sv) ensures KeysAt(t, c, id) {
      assert KeysAt(s, c, id);
    }
  }

  lemma OpenKeepsKeys(s: System, c: ConnId, id: StreamId)
    requires s.taken <= |s.log| && KeysOk(s) && ServerEnabled(s, S.OpenStream(c, id))
    ensures KeysOk(ApplyServer(s, S.OpenStream(c, id)))
  {
    var t := ApplyServer(s, S.OpenStream(c, id));
    forall d, j | d in Live(t.sv) ensures KeysAt(t, d, j) {
      assert KeysAt(s, d, j);
    }
  }

  lemma AcceptKeepsKeys(s: System)
    requires LogOk(s) && KeysOk(s) && ServerEnabled(s, S.Accept) && Fresh(s, S.Accept)
    ensures KeysOk(ApplyServer(s, S.Accept))
  {
    var t := ApplyServer(s, S.Accept);
    var c := S.ConnIdOf(s.sv.accepts);
    OfStranger(s.log[..s.taken], c);
    forall d, j | d in Live(t.sv) ensures KeysAt(t, d, j) {
      if d != c { assert KeysAt(s, d, j); }
    }
  }

  /** The event being dispatched is dealt with: one more event is finished. */
  lemma FinishKeepsKeysAt(s: System, t: System, c: ConnId, id: StreamId)
    requires 0 < s.taken <= |s.log| && t.log == s.log && t.taken == s.taken
    requires Finished(s) == s.taken - 1 && Finished(t) == s.taken
    requires t.phpOpened == s.phpOpened && KeysAt(s, c, id)
    requires s.log[s.taken - 1].0 != c || s.log[s.taken - 1].1.stream != id ==>
               (id in S.MapOf(t.sv, c) <==> id in S.MapOf(s.sv, c))
    requires s.log[s.taken - 1].0 == c && s.log[s.taken - 1].1.stream == id ==>
               match s.log[s.taken - 1].1
               case Data(_, chunk) =>
                 id in S.MapOf(t.sv, c) <==> id in S.MapOf(s.sv, c) && !chunk.fin
               case _ => id in S.MapOf(t.sv, c)
    ensures KeysAt(t, c, id)
  {
    KnownNext(s, c, s.taken - 1);
    EndedNext(s, c, id, s.taken - 1);
  }

  lemma DispatchMaps(sv: S.Server, c: ConnId, id: StreamId)
    requires sv.pc.Dispatching? && (sv.pc.c in sv.connections ==> !sv.pc.ev.Data?)
    ensures id in S.MapOf(S.ApplyDispatch(sv), c)
       <==> id in S.MapOf(sv, c) || (c == sv.pc.c && c in sv.connections && id == sv.pc.ev.stream)
    ensures S.ApplyDispatch(sv).pc == S.PollEvents || S.ApplyDispatch(sv).pc == S.InStream
    ensures S.ApplyDispatch(sv).connections == sv.connections
  {
  }

  lemma DispatchKeepsKeys(s: System)
    requires s.taken <= |s.log| && PositionsOk(s) && KeysOk(s) && S.Enabled(s.sv, S.Dispatch)
    requires s.sv.pc.c in s.sv.connections ==> !s.sv.pc.ev.Data?
    ensures KeysOk(ApplyServer(s, S.Dispatch))
  {
    var t := ApplyServer(s, S.Dispatch);
    assert t == s.(sv := S.ApplyDispatch(s.sv));
    forall d, j | d in Live(t.sv) ensures KeysAt(t, d, j) {
      DispatchMaps(s.sv, d, j);
      assert KeysAt(s, d, j);
      FinishKeepsKeysAt(s, t, d, j);
    }
  }

  lemma CallbackDoneMaps(sv: S.Server, c: ConnId, id: StreamId)
    requires S.Enabled(sv, S.CallbackDone) && sv.pc.InData?
    ensures id in S.MapOf(S.Apply(sv, S.CallbackDone), c)
       <==> id in S.MapOf(sv, c) && !(c == sv.pc.c && id == sv.pc.s && sv.pc.fin)
    ensures S.Apply(sv, S.CallbackDone).pc == S.PollEvents || S.Apply(sv, S.CallbackDone).pc.InFin?
    ensures S.Apply(sv, S.CallbackDone).connections == sv.connections
  {
  }

  lemma CallbackDoneKeepsKeys(s: System)
    requires s.taken <= |s.log| && PositionsOk(s) && KeysOk(s) && S.Enabled(s.sv, S.CallbackDone) && s.sv.pc.InData?
    ensures KeysOk(ApplyServer(s, S.CallbackDone))
  {
    var t := ApplyServer(s, S.CallbackDone);
    assert t == s.(sv := S.Apply(s.sv, S.CallbackDone));
    forall d, j | d in Live(t.sv) ensures KeysAt(t, d, j) {
      CallbackDoneMaps(s.sv, d, j);
      assert KeysAt(s, d, j);
      FinishKeepsKeysAt(s, t, d, j);
    }
  }

  predicate TouchesMaps(s: System, a: S.Action) {
    || a.Accept? || a.OpenStream?
    || (a.Dispatch? && s.sv.pc.Dispatching? && (s.sv.pc.c in s.sv.connections ==> !s.sv.pc.ev.Data?))
    || (a.CallbackDone? && s.sv.pc.InData?)
  }

  lemma DetachLeavesOthers(s: System, a: S.Action, c: ConnId)
    requires S.Enabled(s.sv, a) && (a.TakeClose? || a.CloseConn?)
    ensures c in Live(ApplyServer(s, a).sv) ==>
              c in Live(s.sv) && S.MapOf(ApplyServer(s, a).sv, c) == S.MapOf(s.sv, c)
  {
  }

  lemma OtherStepsLeaveMaps(s: System, a: S.Action, c: ConnId)
    requires S.Enabled(s.sv, a) && !TouchesMaps(s, a)
    ensures c in Live(ApplyServer(s, a).sv) ==>
              c in Live(s.sv) && S.MapOf(ApplyServer(s, a).sv, c) == S.MapOf(s.sv, c)
  {
    if a.TakeClose? || a.CloseConn? {
      DetachLeavesOthers(s, a, c);
    }
  }

  lemma OtherStepsFinishNothing(s: System, a: S.Action)
    requires s.taken <= |s.log| && PositionsOk(s) && ServerEnabled(s, a) && !TouchesMaps(s, a)
    ensures var t := ApplyServer(s, a);
            && t.taken <= |t.log| && t.log == s.log && Finished(t) == Finished(s)
            && t.phpOpened == s.phpOpened
  {
  }

  lemma ServerKeepsKeys(s: System, a: S.Action)
    requires LogOk(s) && PositionsOk(s) && KeysOk(s) && ServerEnabled(s, a) && Fresh(s, a)
    ensures ApplyServer(s, a).taken <= |ApplyServer(s, a).log| && KeysOk(ApplyServer(s, a))
  {
    if !TouchesMaps(s, a) {
      OtherStepsFinishNothing(s, a);
      forall c ensures c in Live(ApplyServer(s, a).sv) ==>
                  c in Live(s.sv) && S.MapOf(ApplyServer(s, a).sv, c) == S.MapOf(s.sv, c) {
        OtherStepsLeaveMaps(s, a, c);
      }
      SameMapsKeepKeys(s, ApplyServer(s, a));
    } else {
      match a
      case Accept => AcceptKeepsKeys(s);
      case OpenStream(c, id) => OpenKeepsKeys(s, c, id);
      case Dispatch => DispatchKeepsKeys(s);
      case CallbackDone => CallbackDoneKeepsKeys(s);
    }
  }

  // ---- deliveries against the event log ----

  /** Steps after which no more events count as delivered, and which hand over no event. */
  lemma NothingDelivered(s: System, t: System)
    requires s.taken <= |s.log| && (forall c :: Cut(s, c) <= |s.log|) && CallsOk(s)
    requires t.taken <= |t.log| && t.log == s.log && (forall c :: Cut(t, c) == Cut(s, c))
    requires t.sv.calls == s.sv.calls || exists call: S.Call :: call.CloseCall? && t.sv.calls == s.sv.calls + [call]
    ensures CallsOk(t)
  {
    if call: S.Call :| call.CloseCall? && t.sv.calls == s.sv.calls + [call] {
      forall c ensures CallsAt(t, c) {
        assert CallsAt(s, c);
        HandledSnoc(s.sv.calls, call, c);
      }
    } else {
      forall c ensures CallsAt(t, c) {
        assert CallsAt(s, c);
      }
    }
  }

  /** Steps other than a dispatch deliver nothing. */
  lemma OtherStepsDeliverNothing(s: System, a: S.Action, c: ConnId)
    requires s.taken <= |s.log| && PositionsOk(s) && S.DomainsOk(s.sv) && ServerEnabled(s, a) && !a.Dispatch?
    ensures Cut(ApplyServer(s, a), c) == Cut(s, c)
  {
  }

  lemma OtherStepsCall(s: System, a: S.Action)
    requires S.Enabled(s.sv, a) && !a.Dispatch?
    ensures var calls, calls' := s.sv.calls, ApplyServer(s, a).sv.calls;
            calls' == calls || exists call: S.Call :: call.CloseCall? && calls' == calls + [call]
    ensures ApplyServer(s, a).log == s.log
  {
  }

  /** Handing over the next event of the log extends both sides in the same way. */
  lemma DeliverOne(log: seq<(ConnId, DriverEvent)>, n: nat, calls: seq<S.Call>, call: S.Call, c: ConnId)
    requires n < |log| && Handled(calls, c) == Of(log[..n], c)
    requires EventOf(call, c) == if log[n].0 == c then Some(log[n].1) else None
    ensures Handled(calls + [call], c) == Of(log[..n + 1], c)
  {
    OfNext(log, n, c);
    HandledSnoc(calls, call, c);
  }

  lemma DispatchCuts(s: System, c: ConnId)
    requires s.taken <= |s.log| && PositionsOk(s) && S.Enabled(s.sv, S.Dispatch) && S.DomainsOk(s.sv)
    requires s.sv.pc.c in s.sv.maps
    ensures var t := ApplyServer(s, S.Dispatch);
            if c in s.mark then Cut(t, c) == Cut(s, c) <= s.taken
            else Cut(s, c) == s.taken - 1 && Cut(t, c) == s.taken
    ensures s.sv.pc.c in s.mark <==> s.sv.pc.c !in s.sv.connections
  {
  }

  /** The call that dispatching an event makes. */
  function CallFor(sv: S.Server, c: ConnId, ev: DriverEvent): S.Call {
    match ev
    case Data(id, chunk) => S.ChunkCall(sv, c, id, chunk)
    case _ => S.StreamCall(c, ev, sv.next)
  }

  lemma DispatchedCall(s: System)
    requires S.Enabled(s.sv, S.Dispatch)
    ensures var calls, t := s.sv.calls, ApplyServer(s, S.Dispatch);
            && t.log == s.log && t.taken == s.taken
            && t.sv.calls == if s.sv.pc.c !in s.sv.connections then calls
                             else calls + [CallFor(s.sv, s.sv.pc.c, s.sv.pc.ev)]
  {
  }

  lemma CallCarriesEvent(sv: S.Server, c: ConnId, ev: DriverEvent, d: ConnId)
    ensures EventOf(CallFor(sv, c, ev), d) == if d == c then Some(ev) else None
  {
  }

  lemma DispatchDelivers(s: System, c: ConnId)
    requires s.taken <= |s.log| && PositionsOk(s) && S.Enabled(s.sv, S.Dispatch) && S.DomainsOk(s.sv)
    requires s.sv.pc.c in s.sv.maps && Cut(s, c) <= |s.log| && CallsAt(s, c)
    ensures var t := ApplyServer(s, S.Dispatch);
            t.taken <= |t.log| && Cut(t, c) <= |t.log| && CallsAt(t, c)
  {
    var n, calls := s.taken - 1, s.sv.calls;
    var t := ApplyServer(s, S.Dispatch);
    DispatchCuts(s, c);
    DispatchedCall(s);
    var call := CallFor(s.sv, s.sv.pc.c, s.sv.pc.ev);
    CallCarriesEvent(s.sv, s.sv.pc.c, s.sv.pc.ev, c);
    if s.sv.pc.c !in s.sv.connections {
      OfNext(s.log, n, c);
    } else if c in s.mark {
      HandledSnoc(calls, call, c);
    } else {
      DeliverOne(s.log, n, calls, call, c);
    }
  }

  lemma LegalInside(es: seq<DriverEvent>, before: seq<DriverEvent>, e: DriverEvent)
    requires R.WellFormed(es) && before + [e] <= es
    ensures R.Legal(before, e)
  {
    assert es[..|before|] == before && es[|before|] == e;
    assert R.Legal(es[..|before|], es[|before|]);
  }

  /** The chunk received last is legal after what came before it. */
  lemma ChunkIsLegal(s: System, c: ConnId, id: StreamId)
    requires 0 < s.taken <= |s.log| && R.WellFormed(Of(s.log, c))
    requires s.log[s.taken - 1].0 == c && s.log[s.taken - 1].1.Data? && s.log[s.taken - 1].1.stream == id
    ensures R.Legal(Of(s.log[..s.taken - 1], c), s.log[s.taken - 1].1)
    ensures R.WellFormed(Of(s.log[..s.taken - 1], c))
  {
    OfNext(s.log, s.taken - 1, c);
    OfPrefix(s.log, s.taken, c);
    LegalInside(Of(s.log, c), Of(s.log[..s.taken - 1], c), s.log[s.taken - 1].1);
    R.PrefixWellFormed(Of(s.log[..s.taken - 1], c), Of(s.log, c));
  }

  /** So its stream has not ended, and is known exactly if it is client-initiated. */
  lemma ChunkIsKnown(s: System, c: ConnId, id: StreamId)
    requires 0 < s.taken <= |s.log| && R.WellFormed(Of(s.log, c))
    requires s.log[s.taken - 1].0 == c && s.log[s.taken - 1].1.Data? && s.log[s.taken - 1].1.stream == id
    ensures !Ended(s, c, id, s.taken - 1)
    ensures id in Known(s, c, s.taken - 1) <==> id % 2 == 0
  {
    ChunkIsLegal(s, c, id);
    if id in R.Replay({}, Of(s.log[..s.taken - 1], c)) {
      R.ReplayOnlyClient(Of(s.log[..s.taken - 1], c), id);
    }
  }

  /** At its dispatch a chunk of a live connection finds a registered pair if and only if its stream is
      client-initiated or PHP has opened it. */
  lemma DataFindsPairIff(s: System, c: ConnId, id: StreamId)
    requires 0 < s.taken <= |s.log| && s.sv.pc.Dispatching? && KeysAt(s, c, id)
    requires s.log[s.taken - 1].0 == c && s.log[s.taken - 1].1.Data? && s.log[s.taken - 1].1.stream == id
    requires R.WellFormed(Of(s.log, c))
    ensures id in S.MapOf(s.sv, c) <==> id % 2 == 0 || (c, id) in s.phpOpened
  {
    ChunkIsKnown(s, c, id);
  }

  lemma DispatchKeepsTargets(s: System)
    requires s.taken <= |s.log| && PositionsOk(s) && KeysOk(s) && S.Enabled(s.sv, S.Dispatch)
    requires R.WellFormed(Of(s.log, s.sv.pc.c)) && Targeted(s.sv.calls)
    ensures Targeted(ApplyServer(s, S.Dispatch).sv.calls)
  {
    var c, ev := s.sv.pc.c, s.sv.pc.ev;
    DispatchedCall(s);
    if c in s.sv.connections && ev.Data? && ClientInitiated(ev.stream) {
      assert KeysAt(s, c, ev.stream);
      DataFindsPairIff(s, c, ev.stream);
    }
  }

  lemma DispatchedConnExists(s: System)
    requires CoreInv(s) && s.sv.pc.Dispatching?
    ensures s.sv.pc.c in s.sv.maps && R.WellFormed(Of(s.log, s.sv.pc.c))
  {
  }

  lemma DispatchKeepsCalls(s: System)
    requires s.taken <= |s.log| && PositionsOk(s) && S.DomainsOk(s.sv) && KeysOk(s)
    requires forall c :: Cut(s, c) <= |s.log|
    requires CallsOk(s) && S.Enabled(s.sv, S.Dispatch)
    requires s.sv.pc.c in s.sv.maps && R.WellFormed(Of(s.log, s.sv.pc.c))
    ensures var t := ApplyServer(s, S.Dispatch);
            t.taken <= |t.log| && (forall c :: Cut(t, c) <= |t.log|) && CallsOk(t)
  {
    var t := ApplyServer(s, S.Dispatch);
    forall c ensures t.taken <= |t.log| && Cut(t, c) <= |t.log| && CallsAt(t, c) {
      assert CallsAt(s, c);
      DispatchDelivers(s, c);
    }
    DispatchKeepsTargets(s);
  }

  lemma OtherStepsKeepCalls(s: System, a: S.Action)
    requires s.taken <= |s.log| && PositionsOk(s) && S.DomainsOk(s.sv) && (forall c :: Cut(s, c) <= |s.log|)
    requires CallsOk(s) && ServerEnabled(s, a) && !a.Dispatch?
    ensures var t := ApplyServer(s, a);
            t.taken <= |t.log| && (forall c :: Cut(t, c) <= |t.log|) && CallsOk(t)
  {
    OtherStepsCall(s, a);
    forall c ensures Cut(ApplyServer(s, a), c) == Cut(s, c) {
      OtherStepsDeliverNothing(s, a, c);
    }
    NothingDelivered(s, ApplyServer(s, a));
  }

  lemma ServerKeepsCalls(s: System, a: S.Action)
    requires CoreInv(s) && ServerEnabled(s, a)
    ensures var t := ApplyServer(s, a);
            t.taken <= |t.log| && (forall c :: Cut(t, c) <= |t.log|) && CallsOk(t)
  {
    CutsInRange(s);
    if a.Dispatch? {
      DispatchedConnExists(s);
      DispatchKeepsCalls(s);
    } else {
      OtherStepsKeepCalls(s, a);
    }
  }

  // ---- the close channel ----

  lemma LiveAfter(s: System, a: S.Action)
    requires S.Enabled(s.sv, a) && !a.TakeClose? && !a.Accept? && !a.CloseConn?
    ensures Live(ApplyServer(s, a).sv) == Live(s.sv)
  {
    if a.Insert? {
      InsertKeepsLive(s);
    }
  }

  lemma InsertKeepsLive(s: System)
    requires S.Enabled(s.sv, S.Insert)
    ensures Live(ApplyServer(s, S.Insert).sv) == Live(s.sv)
  {
  }

  lemma ClosesAfter(s: System, a: S.Action)
    requires S.Enabled(s.sv, a) && !a.TakeClose? && !a.Accept? && !a.CloseConn?
    ensures var t := ApplyServer(s, a);
            && t.closes == s.closes && t.drivers == s.drivers && t.lost == s.lost && (Up(t.sv) ==> Up(s.sv))
  {
  }

  lemma SameLiveKeepsCloses(s: System, t: System)
    requires ClosesOk(s) && (Up(t.sv) ==> Up(s.sv)) && Live(t.sv) == Live(s.sv)
    requires t.closes == s.closes && t.drivers == s.drivers && t.lost == s.lost
    ensures ClosesOk(t)
  {
  }

  lemma AcceptKeepsCloses(s: System)
    requires ClosesOk(s) && ServerEnabled(s, S.Accept) && Fresh(s, S.Accept)
    ensures ClosesOk(ApplyServer(s, S.Accept))
  {
  }

  lemma TakeCloseKeepsDistinct(s: System, c: ConnId, peer: bool)
    requires ClosesBounded(s) && ClosesDistinct(s) && OpenAreLive(s) && ServerEnabled(s, S.TakeClose(c, peer))
    ensures var t := ApplyServer(s, S.TakeClose(c, peer)); ClosesDistinct(t) && OpenAreLive(t)
  {
    assert s.closes[0].0 == c;
    assert forall i | 0 <= i < |s.closes[1..]| :: s.closes[1..][i] == s.closes[i + 1];
  }

  lemma TakeCloseKeepsQueued(s: System, c: ConnId, peer: bool)
    requires StoppedAreQueued(s) && ServerEnabled(s, S.TakeClose(c, peer))
    ensures StoppedAreQueued(ApplyServer(s, S.TakeClose(c, peer)))
  {
    var t := ApplyServer(s, S.TakeClose(c, peer));
    forall d | d in Live(t.sv) && d in t.drivers && t.drivers[d].closed && d !in t.lost ensures IsQueued(t.closes, d) {
      var i :| 0 <= i < |s.closes| && s.closes[i].0 == d;
      assert i > 0 && t.closes[i - 1].0 == d;
    }
  }

  lemma TakeCloseKeepsCloses(s: System, c: ConnId, peer: bool)
    requires ClosesOk(s) && ServerEnabled(s, S.TakeClose(c, peer))
    ensures ClosesOk(ApplyServer(s, S.TakeClose(c, peer)))
  {
    assert forall i | 0 <= i < |s.closes[1..]| :: s.closes[1..][i] == s.closes[i + 1];
    if Up(s.sv) {
      TakeCloseKeepsDistinct(s, c, peer);
      TakeCloseKeepsQueued(s, c, peer);
    }
  }

  lemma ServerKeepsCloses(s: System, a: S.Action)
    requires ClosesOk(s) && ServerEnabled(s, a) && Fresh(s, a)
    ensures ClosesOk(ApplyServer(s, a))
  {
    if a.Accept? {
      AcceptKeepsCloses(s);
    } else if a.TakeClose? {
      TakeCloseKeepsCloses(s, a.c, a.peer);
    } else if !a.CloseConn? {
      LiveAfter(s, a);
      ClosesAfter(s, a);
      SameLiveKeepsCloses(s, ApplyServer(s, a));
    }
  }

  lemma TakeCloseKeepsSignals(s: System, c: ConnId, peer: bool)
    requires SignalsOk(s) && ServerEnabled(s, S.TakeClose(c, peer))
    ensures SignalsOk(ApplyServer(s, S.TakeClose(c, peer)))
  {
    TakeCloseEffect(s, c, peer);
    CloseTakenKeepsSignals(s, ApplyServer(s, S.TakeClose(c, peer)), c, peer);
  }

  lemma TakeCloseEffect(s: System, c: ConnId, peer: bool)
    requires ServerEnabled(s, S.TakeClose(c, peer))
    ensures var t := ApplyServer(s, S.TakeClose(c, peer));
            && s.closes != [] && s.closes[0] == (c, peer) && t.closes == s.closes[1..]
            && t.signalled == s.signalled && t.drivers == s.drivers
            && (t.sv.flags == s.sv.flags || t.sv.flags == s.sv.flags[c := peer])
            && t.sv.connections <= s.sv.connections && t.sv.listening == s.sv.listening
            && !t.sv.pc.Accepting? && (Up(t.sv) ==> Up(s.sv))
  {
  }

  lemma CloseTakenKeepsSignals(s: System, t: System, c: ConnId, peer: bool)
    requires SignalsOk(s)
    requires s.closes != [] && s.closes[0] == (c, peer) && t.closes == s.closes[1..]
    requires t.signalled == s.signalled && t.drivers == s.drivers
    requires t.sv.flags == s.sv.flags || t.sv.flags == s.sv.flags[c := peer]
    requires t.sv.connections <= s.sv.connections && t.sv.listening == s.sv.listening
    requires !t.sv.pc.Accepting? && (Up(t.sv) ==> Up(s.sv))
    ensures SignalsOk(t)
  {
    assert forall i | 0 <= i < |t.closes| :: t.closes[i] == s.closes[i + 1];
  }

  lemma CloseConnKeepsSignals(s: System, c: ConnId)
    requires SignalsOk(s) && ServerEnabled(s, S.CloseConn(c))
    ensures SignalsOk(ApplyServer(s, S.CloseConn(c)))
  {
  }

  lemma OtherStepsSignalNothing(s: System, a: S.Action)
    requires S.Enabled(s.sv, a) && !a.TakeClose? && !a.CloseConn?
    ensures var t := ApplyServer(s, a);
            t.closes == s.closes && t.signalled == s.signalled && t.sv.flags == s.sv.flags && (Up(t.sv) ==> Up(s.sv))
  {
  }

  lemma StaysClosed(s: System, a: S.Action)
    requires S.Enabled(s.sv, a) && (!s.sv.listening ==> s.sv.connections == {} && !s.sv.pc.Accepting?)
    ensures var sv := S.Apply(s.sv, a); !sv.listening ==> sv.connections == {} && !sv.pc.Accepting?
  {
  }

  lemma ServerKeepsSignals(s: System, a: S.Action)
    requires SignalsOk(s) && ServerEnabled(s, a) && Fresh(s, a)
    ensures SignalsOk(ApplyServer(s, a))
  {
    if a.TakeClose? {
      TakeCloseKeepsSignals(s, a.c, a.peer);
    } else if a.CloseConn? {
      CloseConnKeepsSignals(s, a.c);
    } else {
      DriversAfter(s, a);
      OtherStepsSignalNothing(s, a);
      StaysClosed(s, a);
    }
  }

  lemma ServerKeepsLoops(s: System, a: S.Action)
    requires LoopsOk(s) && ServerEnabled(s, a)
    ensures LoopsOk(ApplyServer(s, a))
  {
    DriversAfter(s, a);
    assert forall c | c in s.drivers :: !s.drivers[c].write.notifying;
  }

  /** Every step of the PHP thread keeps the invariant of the whole engine. */
  lemma ServerStepKeepsInv(s: System, a: S.Action)
    requires Inv(s) && ServerEnabled(s, a) && ApplyServer(s, a).sv.accepts <= U64_VALUES
    ensures Inv(ApplyServer(s, a))
  {
    ServerStepKeepsCore(s, a);
    ServerKeepsCloses(s, a);
    ServerKeepsSignals(s, a);
    ServerKeepsLoops(s, a);
  }

  lemma ServerStepKeepsCore(s: System, a: S.Action)
    requires CoreInv(s) && ServerEnabled(s, a) && ApplyServer(s, a).sv.accepts <= U64_VALUES
    ensures Fresh(s, a) && CoreInv(ApplyServer(s, a))
  {
    DriversAfter(s, a);
    AcceptIsFresh(s, a);
    S.StepKeepsInv(s.sv, a);
    ServerKeepsDrivers(s, a);
    ServerKeepsLog(s, a);
    ServerKeepsChannel(s, a);
    ServerKeepsPositions(s, a);
    ServerKeepsKeys(s, a);
    ServerKeepsCalls(s, a);
  }

  /** Every step of the engine keeps the invariant, whichever thread takes it. */
  lemma StepKeepsInv(s: System, a: Action)
    requires Inv(s) && Enabled(s, a) && Apply(s, a).sv.accepts <= U64_VALUES
    ensures Inv(Apply(s, a))
  {
    match a
    case Server(sa) => ServerStepKeepsInv(s, sa);
    case Read(c, ra) => ReadKeepsInv(s, c, ra);
    case Write(c, wa) => WriteKeepsInv(s, c, wa);
    case CloseSignal(c, peer) => CloseKeepsInv(s, c, peer);
  }
}
