/** src/quiche/socket.rs and src/quiche/conn.rs: the server object driven by the PHP thread. Its
    methods are proved to be runs of the step relation of module Server. */
module QuicheServer {
  import opened Types
  import opened Channels
  import S = Server
  import System
  import opened SystemInvariant

  ghost predicate ServerStep(sv: S.Server, sv': S.Server) {
    exists a :: S.Step(sv, a, sv')
  }

  ghost predicate ServerRun(run: seq<S.Server>, from: S.Server, to: S.Server) {
    && run != [] && run[0] == from && run[|run| - 1] == to
    && forall i | 0 < i < |run| :: ServerStep(run[i - 1], run[i])
  }

  /** `to` is reached from `from` by steps of the PHP thread. */
  ghost predicate Serves(from: S.Server, to: S.Server) {
    exists run: seq<S.Server> :: ServerRun(run, from, to)
  }

  lemma ServesNothing(sv: S.Server)
    ensures Serves(sv, sv)
  {
    assert ServerRun([sv], sv, sv);
  }

  lemma ServesMore(from: S.Server, sv: S.Server, a: S.Action, sv': S.Server)
    requires Serves(from, sv) && S.Step(sv, a, sv')
    ensures Serves(from, sv')
  {
    var run :| ServerRun(run, from, sv);
    var more := run + [sv'];
    forall i | 0 < i < |more| ensures ServerStep(more[i - 1], more[i]) {
      if i < |run| {
        assert ServerStep(run[i - 1], run[i]);
      } else {
        assert more[i - 1] == sv;
      }
    }
    assert ServerRun(more, from, sv');
  }

  lemma {:induction false} RunKeepsInv(run: seq<S.Server>, from: S.Server, to: S.Server)
    requires ServerRun(run, from, to) && S.ServerInv(from) && to.accepts <= U64_VALUES
    ensures S.ServerInv(to) && from.accepts <= to.accepts
    decreases |run|
  {
    var n := |run| - 1;
    if n > 0 {
      assert ServerStep(run[n - 1], run[n]);
      var a :| S.Step(run[n - 1], a, run[n]);
      AcceptsGrow(run[n - 1], a);
      RunKeepsInv(run[..n], from, run[n - 1]);
      S.StepKeepsInv(run[n - 1], a);
    }
  }

  lemma AcceptsGrow(sv: S.Server, a: S.Action)
    requires S.Enabled(sv, a)
    ensures sv.accepts <= S.Apply(sv, a).accepts
  {
  }

  lemma ServesKeepsInv(from: S.Server, to: S.Server)
    requires Serves(from, to) && S.ServerInv(from) && to.accepts <= U64_VALUES
    ensures S.ServerInv(to)
  {
    var run :| ServerRun(run, from, to);
    RunKeepsInv(run, from, to);
  }

  /** What the two lower arms of the select would find: a connection (or a failed accept), the timer. */
  datatype Lower = Lower(accept: Option<bool>, timer: bool)

  class QuicheServer {
    var connections: set<ConnId>
    var slotMaps: map<ConnId, S.SlotMap>     // the shared slot maps, one per accepted connection
    var idCounter: nat                       // 64-bit counter
    var listening: bool
    var installed: S.Installed               // the callback in each slot that holds one
    var nextSlot: S.SlotId                   // allocation of fresh slot pairs
    var calls: seq<S.Call>                   // the calls into PHP, in order
    var pc: S.Pc                             // where the thread stands, and the locks it holds
    ghost var accepts: nat
    ghost var slots: map<S.SlotId, S.SlotInfo>
    ghost var overwritten: set<S.SlotId>
    ghost var removed: set<ConnId>
    ghost var flags: map<ConnId, bool>
    const events: EventChannel
    const closes: CloseChannel

    /** bind */
    constructor (events: EventChannel, closes: CloseChannel)
      ensures View() == S.Initial && Valid()
      ensures this.events == events && this.closes == closes
    {
      this.events, this.closes := events, closes;
      connections, slotMaps, idCounter, listening := {}, map[], 0, true;
      installed, nextSlot, calls, pc := map[], 0, [], S.Php;
      accepts, slots, overwritten, removed, flags := 0, map[], {}, {}, map[];
    }

    ghost function View(): S.Server
      reads this
    {
      S.Server(connections, slotMaps, accepts, listening, installed, nextSlot, pc, slots, overwritten, removed,
               flags, calls)
    }

    ghost predicate Valid()
      reads this
    {
      idCounter == S.ConnIdOf(accepts)
    }

    function SlotsOf(c: ConnId): S.SlotMap
      reads this
    {
      if c in slotMaps then slotMaps[c] else map[]
    }

    /** make_slot_pair and the insertion into the slot map of `c`, as prepare_bidi_stream,
        prepare_uni_stream and both New events do it. */
    method RegisterSlots(c: ConnId, s: StreamId) returns (slot: S.SlotId)
      modifies this`slotMaps, this`nextSlot, this`slots, this`overwritten
      ensures View() == S.Register(old(View()), c, s) && slot == old(nextSlot)
    {
      slot := nextSlot;
      nextSlot := nextSlot + 1;
      if s in SlotsOf(c) {
        overwritten := overwritten + {SlotsOf(c)[s]};
      }
      slots := slots[slot := S.SlotInfo(c, s, c in connections)];
      slotMaps := slotMaps[c := SlotsOf(c)[s := slot]];
    }

    /** open_bidi_stream / open_uni_stream on a stream object of connection `c`. */
    method OpenStream(c: ConnId, s: StreamId) returns (slot: S.SlotId)
      requires S.Enabled(View(), S.OpenStream(c, s))
      modifies this`slotMaps, this`nextSlot, this`slots, this`overwritten
      ensures S.Step(old(View()), S.OpenStream(c, s), View()) && slot == old(nextSlot)
    {
      slot := RegisterSlots(c, s);
    }

    /** install_slot: a value that is not callable is refused and changes nothing. */
    method InstallSlot(slot: S.SlotId, hook: S.Hook, cb: S.Callback, callable: bool) returns (ok: bool)
      requires S.Enabled(View(), S.Install(slot, hook, cb))
      modifies this`installed
      ensures ok == callable
      ensures installed == if ok then old(installed)[(slot, hook) := cb] else old(installed)
      ensures if ok then S.Step(old(View()), S.Install(slot, hook, cb), View()) else View() == old(View())
    {
      ok := callable;
      if callable {
        installed := installed[(slot, hook) := cb];
      }
    }

    /** One call of PHP code: open a stream or install a callback, as far as the locks the thread
        already holds allow it. */
    method OneUserCall(ghost start: S.Server)
      requires S.UserCode(pc) && Serves(start, View())
      modifies this`slotMaps, this`nextSlot, this`slots, this`overwritten, this`installed
      ensures Serves(start, View()) && slotMaps.Keys == old(slotMaps.Keys)
      ensures forall c, s | s in old(SlotsOf(c)) :: s in SlotsOf(c)
    {
      ghost var before := View();
      var c: ConnId, s: StreamId := *, *;
      var slot: S.SlotId, cb: S.Callback := *, *;
      var callable: bool, onData: bool := *, *;
      var hook := if onData then S.DataHook else S.CloseHook;
      if c in slotMaps && !S.MapLocked(pc, c) {
        slot := OpenStream(c, s);
        ServesMore(start, before, S.OpenStream(c, s), View());
      } else if slot < nextSlot && !S.SlotLocked(pc, slot, hook) {
        var ok := InstallSlot(slot, hook, cb, callable);
        if ok { ServesMore(start, before, S.Install(slot, hook, cb), View()); }
      }
    }

    /** PHP code running on the thread: any finite sequence of such calls. */
    method RunUserCode(ghost start: S.Server)
      requires S.UserCode(pc) && Serves(start, View())
      modifies this`slotMaps, this`nextSlot, this`slots, this`overwritten, this`installed
      ensures Serves(start, View()) && slotMaps.Keys == old(slotMaps.Keys)
      ensures forall c, s | s in old(SlotsOf(c)) :: s in SlotsOf(c)
    {
      var steps: nat := *;
      while steps > 0
        invariant Serves(start, View()) && slotMaps.Keys == old(slotMaps.Keys)
        invariant forall c, s | s in old(SlotsOf(c)) :: s in SlotsOf(c)
      {
        steps := steps - 1;
        OneUserCall(start);
      }
    }

    /** fire_on_close: call the callback in the slot, if there is one. */
    method FireOnClose(slot: S.SlotId, peer: bool)
      modifies this`calls
      ensures calls == old(calls) + [S.CloseCall(slot, peer, S.Listener(installed, slot, S.CloseHook))]
    {
      calls := calls + [S.CloseCall(slot, peer, S.Listener(installed, slot, S.CloseHook))];
    }

    /** A New event: register slots for the peer's stream and hand it to the on_stream callback. */
    method CallOnStream(c: ConnId, s: StreamId, ghost start: S.Server)
      requires pc == S.Dispatching(c, NewBidi(s)) || pc == S.Dispatching(c, NewUni(s))
      requires c in connections && start == View()
      modifies this`slotMaps, this`nextSlot, this`slots, this`overwritten, this`calls, this`pc
      ensures pc == S.InStream && Serves(start, View())
      ensures calls == old(calls) + [S.StreamCall(c, old(pc).ev, old(nextSlot))] && s in SlotsOf(c)
    {
      ServesNothing(start);
      var slot := RegisterSlots(c, s);
      calls := calls + [S.StreamCall(c, pc.ev, slot)];
      pc := S.InStream;
      ServesMore(start, start, S.Dispatch, View());
    }

    method DispatchNew(c: ConnId, s: StreamId)
      requires (pc == S.Dispatching(c, NewBidi(s)) || pc == S.Dispatching(c, NewUni(s))) && c in connections
      modifies this`slotMaps, this`nextSlot, this`slots, this`overwritten, this`installed, this`calls, this`pc
      ensures pc == S.PollEvents && Serves(old(View()), View())
      ensures calls == old(calls) + [S.StreamCall(c, old(pc).ev, old(nextSlot))] && s in SlotsOf(c)
    {
      ghost var start := View();
      CallOnStream(c, s, start);
      RunUserCode(start);
      ghost var before := View();
      pc := S.PollEvents;
      ServesMore(start, before, S.CallbackDone, View());
    }

    /** The first half of a Data event: look the slot pair up and call on_data. */
    method CallOnData(c: ConnId, s: StreamId, chunk: Chunk, ghost start: S.Server)
      requires pc == S.Dispatching(c, Data(s, chunk)) && c in connections && start == View()
      modifies this`slotMaps, this`nextSlot, this`slots, this`overwritten, this`installed, this`calls, this`pc
      ensures pc.InData? && pc.c == c && pc.s == s && pc.fin == chunk.fin && Serves(start, View())
      ensures calls == old(calls) + [S.ChunkCall(old(View()), c, s, chunk)]
      ensures s in old(SlotsOf(c)) ==> s in SlotsOf(c)
    {
      ServesNothing(start);
      var m := SlotsOf(c);
      var target := if s in m then Some(m[s]) else None;
      var heard := if target.Some? then S.Listener(installed, target.value, S.DataHook) else None;
      calls := calls + [S.DataCall(c, s, target, chunk, heard)];
      pc := S.InData(c, s, chunk.fin, target);
      ServesMore(start, start, S.Dispatch, View());
      if target.Some? {
        RunUserCode(start);
      }
    }

    /** A Data event: call on_data if a slot pair is registered; on FIN remove the pair and fire
        on_close. The pair is looked up again after on_data, which may have replaced it. */
    method DispatchData(c: ConnId, s: StreamId, chunk: Chunk)
      requires pc == S.Dispatching(c, Data(s, chunk)) && c in connections
      modifies this`slotMaps, this`nextSlot, this`slots, this`overwritten, this`installed, this`calls, this`pc
      ensures pc == S.PollEvents && Serves(old(View()), View())
      ensures old(calls) + [S.ChunkCall(old(View()), c, s, chunk)] <= calls
      ensures !chunk.fin ==> |calls| == |old(calls)| + 1
      ensures chunk.fin && s in old(SlotsOf(c)) ==>
                |calls| == |old(calls)| + 2 && calls[|old(calls)| + 1].CloseCall? && calls[|old(calls)| + 1].peer
      ensures HandsOver(old(calls), calls, c, Data(s, chunk))
    {
      ghost var start := View();
      CallOnData(c, s, chunk, start);
      if chunk.fin && s in SlotsOf(c) {
        FinishStream(c, s, start);
      } else {
        ghost var before := View();
        pc := S.PollEvents;
        ServesMore(start, before, S.CallbackDone, View());
      }
    }

    /** The FIN part of a Data event. */
    method FinishStream(c: ConnId, s: StreamId, ghost start: S.Server)
      requires pc.InData? && pc.c == c && pc.s == s && pc.fin && s in SlotsOf(c) && Serves(start, View())
      modifies this`slotMaps, this`nextSlot, this`slots, this`overwritten, this`installed, this`calls, this`pc
      ensures pc == S.PollEvents && Serves(start, View())
      ensures calls == old(calls) + [S.FireCall(old(View()), old(SlotsOf(c))[s], true)]
    {
      ghost var before := View();
      var removedSlot := SlotsOf(c)[s];
      slotMaps := slotMaps[c := SlotsOf(c) - {s}];
      FireOnClose(removedSlot, true);
      pc := S.InFin(removedSlot);
      ServesMore(start, before, S.CallbackDone, View());
      RunUserCode(start);
      before := View();
      pc := S.PollEvents;
      ServesMore(start, before, S.CallbackDone, View());
    }

    /** dispatch_driver_event. An event of a connection that is gone is dropped. */
    method DispatchDriverEvent(c: ConnId, ev: DriverEvent)
      requires pc == S.Dispatching(c, ev)
      modifies this`slotMaps, this`nextSlot, this`slots, this`overwritten, this`installed, this`calls, this`pc
      ensures pc == S.PollEvents && Serves(old(View()), View())
      ensures c !in connections ==> calls == old(calls) && slotMaps == old(slotMaps)
      ensures c in connections ==> HandsOver(old(calls), calls, c, ev)
    {
      if c !in connections {
        ghost var start := View();
        ServesNothing(start);
        pc := S.PollEvents;
        ServesMore(start, start, S.Dispatch, View());
        return;
      }
      match ev
      case NewBidi(s) => DispatchNew(c, s);
      case NewUni(s) => DispatchNew(c, s);
      case Data(s, chunk) => DispatchData(c, s, chunk);
    }

    /** One turn of the drain loop: the pair of stream `s` is fired. */
    method FireNext(s: StreamId, ghost start: S.Server)
      requires pc.Firing? && s in pc.todo && Serves(start, View())
      modifies this`slotMaps, this`nextSlot, this`slots, this`overwritten, this`installed, this`calls, this`pc
      ensures pc.Firing? && pc.todo == old(pc).todo - {s} && pc.closing == old(pc).closing && pc.peer == old(pc).peer
      ensures Serves(start, View())
      ensures calls == old(calls) + [S.FireCall(old(View()), old(pc).todo[s], old(pc).peer)]
    {
      ghost var before := View();
      var slot := pc.todo[s];
      FireOnClose(slot, pc.peer);
      pc := pc.(todo := pc.todo - {s}, held := Some(slot));
      ServesMore(start, before, S.FireNext(s), View());
      RunUserCode(start);
    }

    /** The drain loop of both close paths: fire on_close of every slot pair taken out of the map. */
    method FireAll(ghost start: S.Server)
      requires pc.Firing? && Serves(start, View())
      modifies this`slotMaps, this`nextSlot, this`slots, this`overwritten, this`installed, this`calls, this`pc
      ensures pc.Firing? && pc.todo == map[] && pc.closing == old(pc).closing && Serves(start, View())
      ensures |calls| == |old(calls)| + |old(pc).todo|
      ensures ClosesOf(old(calls), calls, old(pc).peer, old(pc).todo.Values)
    {
      while pc.todo.Keys != {}
        invariant pc.Firing? && pc.closing == old(pc).closing && pc.peer == old(pc).peer && Serves(start, View())
        invariant |calls| + |pc.todo.Keys| == |old(calls)| + |old(pc).todo.Keys|
        invariant pc.todo.Values <= old(pc).todo.Values
        invariant ClosesOf(old(calls), calls, old(pc).peer, old(pc).todo.Values)
        decreases |pc.todo.Keys|
      {
        var s :| s in pc.todo.Keys;
        assert (pc.todo - {s}).Keys == pc.todo.Keys - {s};
        FireNext(s, start);
      }
    }

    /** Take one connection out of the table and its slots out of its map, which stays locked. */
    method Detach(c: ConnId, peer: bool, closing: bool, ghost start: S.Server)
      requires c in connections && Serves(start, View())
      requires if closing then pc.Closing? && !peer else pc.PollCloses?
      modifies this`connections, this`removed, this`flags, this`pc, this`slotMaps
      ensures connections == old(connections) - {c} && removed == old(removed) + {c}
      ensures pc == S.Firing(c, peer, old(SlotsOf(c)), None, closing) && Serves(start, View())
    {
      ghost var before := View();
      connections := connections - {c};
      removed, flags := removed + {c}, flags[c := peer];
      pc := S.Firing(c, peer, SlotsOf(c), None, closing);
      slotMaps := slotMaps[c := map[]];
      assert View() == S.Detach(before, c, peer, closing);
      if closing {
        ServesMore(start, before, S.CloseConn(c), View());
      } else {
        ServesMore(start, before, S.TakeClose(c, peer), View());
      }
    }

    /** One connection of a close path: every slot pair still registered on it is fired. */
    method DetachAndFire(c: ConnId, peer: bool, closing: bool, ghost start: S.Server)
      requires c in connections && Serves(start, View())
      requires if closing then pc.Closing? && !peer else pc.PollCloses?
      modifies this`connections, this`removed, this`flags, this`slotMaps, this`nextSlot, this`slots
      modifies this`overwritten, this`installed, this`calls, this`pc
      ensures connections == old(connections) - {c} && removed == old(removed) + {c}
      ensures pc == (if closing then S.Closing else S.PollEvents) && Serves(start, View())
      ensures |calls| == |old(calls)| + |old(SlotsOf(c))|
      ensures ClosesOf(old(calls), calls, peer, old(SlotsOf(c)).Values)
    {
      Detach(c, peer, closing, start);
      FireAll(start);
      ghost var before := View();
      pc := if closing then S.Closing else S.PollEvents;
      ServesMore(start, before, S.FireDone, View());
    }

    /** The close arm of the select. A close for an unknown connection is ignored. */
    method HandleConnClosed(c: ConnId, peer: bool)
      requires pc == S.PollCloses
      modifies this`connections, this`removed, this`flags, this`slotMaps, this`nextSlot, this`slots
      modifies this`overwritten, this`installed, this`calls, this`pc
      ensures pc == S.PollEvents && Serves(old(View()), View())
      ensures connections == old(connections) - {c}
      ensures removed == if c in old(connections) then old(removed) + {c} else old(removed)
      ensures |calls| == |old(calls)| + (if c in old(connections) then |old(SlotsOf(c))| else 0)
      ensures ClosesOf(old(calls), calls, peer, old(SlotsOf(c)).Values)
    {
      ghost var start := View();
      ServesNothing(start);
      if c in connections {
        DetachAndFire(c, peer, false, start);
      } else {
        pc := S.PollEvents;
        ServesMore(start, start, S.TakeClose(c, peer), View());
      }
    }

    /** The accept arm up to `conn.start(driver)`: a fresh id and a fresh slot map. */
    method StartConnection() returns (c: ConnId)
      requires Valid() && pc == S.PollRest && listening
      modifies this`idCounter, this`accepts, this`slotMaps, this`pc
      ensures Valid() && pc == S.Accepting(c) && c == old(idCounter) && accepts == old(accepts) + 1
      ensures S.Step(old(View()), S.Accept, View()) && SlotsOf(c) == map[]
    {
      c := idCounter;
      idCounter := (idCounter + 1) % U64_VALUES;
      accepts := accepts + 1;
      slotMaps := slotMaps[c := map[]];
      pc := S.Accepting(c);
    }

    /** The accept arm: the driver is started first, then its record is inserted. */
    method AcceptConnection(ghost start: S.Server) returns (c: ConnId)
      requires Valid() && pc == S.PollRest && listening && Serves(start, View())
      modifies this`idCounter, this`accepts, this`slotMaps, this`pc, this`connections
      ensures Valid() && pc == S.PollEvents && Serves(start, View())
      ensures c == old(idCounter) && connections == old(connections) + {c} && accepts == old(accepts) + 1
      ensures SlotsOf(c) == map[]
    {
      ghost var before := View();
      c := StartConnection();
      ServesMore(start, before, S.Accept, View());
      before := View();
      connections := connections + {c};
      pc := S.PollEvents;
      ServesMore(start, before, S.Insert, View());
    }

    /** The loop of close(): `connections.drain()`. */
    method DrainConnections(ghost start: S.Server)
      requires pc == S.Closing && Serves(start, View())
      modifies this`connections, this`removed, this`flags, this`slotMaps, this`nextSlot, this`slots
      modifies this`overwritten, this`installed, this`calls, this`pc
      ensures pc == S.Closing && Serves(start, View()) && connections == {}
    {
      while connections != {}
        invariant pc == S.Closing && Serves(start, View())
        decreases connections
      {
        var c :| c in connections;
        DetachAndFire(c, false, true, start);
      }
    }

    /** The body of close(): every connection is drained, then the listener is dropped. */
    method CloseAll()
      requires pc == S.Php && Valid()
      modifies this
      ensures Valid() && Serves(old(View()), View()) && accepts == old(accepts)
      ensures S.ClosedDown(View()) && pc == S.Php
    {
      ghost var start := View();
      ServesNothing(start);
      pc := S.Closing;
      ServesMore(start, start, S.StartClose, View());
      DrainConnections(start);
      StopListening(start);
    }

    method StopListening(ghost start: S.Server)
      requires pc == S.Closing && connections == {} && Serves(start, View())
      modifies this`listening, this`pc
      ensures !listening && pc == S.Php && Serves(start, View())
    {
      ghost var before := View();
      listening := false;
      pc := S.Php;
      ServesMore(start, before, S.EndClose, View());
    }

    /** close(): fire on_close(false) for every live stream and stop accepting. Afterwards the server
        is closed down, and every slot pair that was registered while its connection was live and was
        not overwritten has been fired exactly once. */
    method Close()
      requires pc == S.Php && Valid() && S.ServerInv(View()) && accepts <= U64_VALUES
      modifies this
      ensures Valid() && Serves(old(View()), View()) && S.ServerInv(View())
      ensures S.ClosedDown(View()) && pc == S.Php
      ensures forall k | k in slots :: S.FireCount(calls, k) == if slots[k].live && k !in overwritten then 1 else 0
    {
      ghost var start := View();
      CloseAll();
      ServesKeepsInv(start, View());
      S.ClosedDownFiredAll(View());
    }

    /** The event arm, polled first; drivers may send before the poll. The event received is the oldest
        one, and it is handed to PHP if its connection is there. */
    method EventArm(ghost start: S.Server) returns (taken: bool)
      requires pc == S.PollEvents && events.Valid() && Serves(start, View())
      modifies this, events
      ensures events.Valid() && old(events.log) <= events.log && Serves(start, View())
      ensures idCounter == old(idCounter) && accepts == old(accepts) && listening == old(listening)
      ensures connections == old(connections) && removed == old(removed)
      ensures old(events.queue) != [] ==> taken
      ensures pc == if taken then S.PollEvents else S.PollCloses
      ensures !taken ==> events.queue == [] && events.Received() == old(events.Received()) && calls == old(calls)
      ensures taken ==> events.Received() == old(events.Received()) + 1
      ensures taken ==> OneEvent(old(calls), calls, connections, events.log, old(events.Received()))
    {
      events.Arrivals();
      ghost var before := View();
      var event := events.TryRecv();
      taken := event.Some?;
      if taken {
        pc := S.Dispatching(event.value.0, event.value.1);
        ServesMore(start, before, S.TakeEvent(event.value.0, event.value.1), View());
        before := View();
        DispatchDriverEvent(event.value.0, event.value.1);
        ServesJoin(start, before, View());
      } else {
        pc := S.PollCloses;
        ServesMore(start, before, S.NoEvent, View());
      }
    }

    /** The close arm, polled when there was no event; drivers may send and signal before the poll. */
    method CloseArm(ghost start: S.Server) returns (taken: bool)
      requires pc == S.PollCloses && closes.Valid() && Serves(start, View())
      modifies this, closes
      ensures closes.Valid() && old(closes.log) <= closes.log && Serves(start, View())
      ensures idCounter == old(idCounter) && accepts == old(accepts) && listening == old(listening)
      ensures old(closes.queue) != [] ==> taken
      ensures pc == if taken then S.PollEvents else S.PollRest
      ensures !taken ==> closes.queue == [] && closes.Received() == old(closes.Received())
      ensures !taken ==> connections == old(connections) && removed == old(removed)
      ensures taken ==> closes.Received() == old(closes.Received()) + 1
      ensures taken ==> OneClose(old(connections), connections, old(removed), removed, closes.log,
                                 old(closes.Received()))
      ensures taken ==> ClosesWith(old(calls), calls, closes.log[old(closes.Received())].1)
      ensures !taken ==> calls == old(calls)
    {
      closes.Arrivals();
      ghost var before := View();
      var close := closes.TryRecv();
      taken := close.Some?;
      if taken {
        HandleConnClosed(close.value.0, close.value.1);
        ServesJoin(start, before, View());
      } else {
        pc := S.PollRest;
        ServesMore(start, before, S.NoClose, View());
      }
    }

    /** The accept and timer arms, polled last, in this order. */
    method LowerArms(ready: Lower, ghost start: S.Server) returns (timer: bool)
      requires Valid() && pc == S.PollRest && Serves(start, View())
      modifies this
      ensures Valid() && Serves(start, View()) && listening == old(listening)
      ensures calls == old(calls) && removed == old(removed)
      ensures timer <==> Fires(ready, listening)
      ensures pc == if timer then S.Php else S.PollEvents
      ensures if Accepts(ready, listening)
              then connections == old(connections) + {old(idCounter)} && accepts == old(accepts) + 1
              else connections == old(connections) && accepts == old(accepts)
    {
      ghost var before := View();
      timer := false;
      if listening && ready.accept == Some(true) {
        var c := AcceptConnection(start);
      } else if listening && ready.accept.Some? {
        pc := S.PollEvents;
        ServesMore(start, before, S.AcceptError, View());
      } else if ready.timer {
        pc, timer := S.Php, true;
        ServesMore(start, before, S.Timer, View());
      } else {
        pc := S.PollEvents;
        ServesMore(start, before, S.Sleep, View());
      }
    }

    /** What a tick is about, at this moment. */
    ghost function Now(): Snapshot
      reads this, events, closes
    {
      Snapshot(events.log, events.Received(), closes.log, closes.Received(), calls, connections, removed, accepts)
    }

    /** One turn of the loop in tick: the biased select, then the arm it chose, while the drivers go on
        sending. */
    method Turn(ready: Lower, ghost start: S.Server) returns (timer: bool, ghost idle: bool)
      requires Valid() && pc == S.PollEvents && events.Valid() && closes.Valid() && Serves(start, View())
      modifies this, events, closes
      ensures Valid() && events.Valid() && closes.Valid() && Serves(start, View()) && listening == old(listening)
      ensures pc == if timer then S.Php else S.PollEvents
      ensures Turned(old(Now()), Now(), ready, listening, timer, idle)
    {
      ghost var calls0 := calls;
      timer, idle := false, false;
      var taken := EventArm(start);
      if taken {
        OneEventDelivers(calls0, calls, connections, events.log, old(events.Received()));
      } else {
        timer, idle := AfterEvents(ready, start);
        OnlyClosesDeliver(calls0, calls, old(connections), events.log, events.Received());
      }
    }

    /** The rest of a turn that found no event. */
    method AfterEvents(ready: Lower, ghost start: S.Server) returns (timer: bool, ghost idle: bool)
      requires Valid() && pc == S.PollCloses && events.Valid() && closes.Valid() && Serves(start, View())
      modifies this, events, closes
      ensures Valid() && events.Valid() && closes.Valid() && Serves(start, View()) && listening == old(listening)
      ensures old(events.log) <= events.log && old(closes.log) <= closes.log
      ensures events.Received() == old(events.Received())
      ensures pc == if timer then S.Php else S.PollEvents
      ensures if idle then closes.Received() == old(closes.Received()) == |old(closes.log)|
              else closes.Received() == old(closes.Received()) + 1
      ensures timer <==> idle && Fires(ready, listening)
      ensures accepts == old(accepts) + if idle && Accepts(ready, listening) then 1 else 0
      ensures !idle ==> OneClose(old(connections), connections, old(removed), removed, closes.log,
                                 old(closes.Received()))
      ensures !idle ==> ClosesWith(old(calls), calls, closes.log[old(closes.Received())].1)
      ensures idle ==> calls == old(calls) && removed == old(removed) && old(connections) <= connections
    {
      timer := false;
      events.Arrivals();
      var taken := CloseArm(start);
      idle := !taken;
      if !taken {
        timer := LowerArms(ready, start);
      }
    }

    /** One turn more, counted. */
    method NextTurn(ready: seq<Lower>, done: nat, ghost idle0: seq<nat>, ghost s0: Snapshot, ghost start: S.Server)
      returns (timer: bool, ghost idle: seq<nat>)
      requires Valid() && pc == S.PollEvents && events.Valid() && closes.Valid() && Serves(start, View())
      requires done < |ready| && Ticked(s0, Now(), ready, idle0, done, listening, false)
      modifies this, events, closes
      ensures Valid() && events.Valid() && closes.Valid() && Serves(start, View()) && listening == old(listening)
      ensures pc == if timer then S.Php else S.PollEvents
      ensures Ticked(s0, Now(), ready, idle, done + 1, listening, timer)
    {
      ghost var now, idleTurn := Now(), false;
      timer, idleTurn := Turn(ready[done], start);
      OneMoreTurn(s0, now, Now(), ready, idle0, done, listening, timer, idleTurn);
      idle := if idleTurn then idle0 + [done] else idle0;
    }

    /** The loop of tick, cut after `|ready|` turns; `done` of them are made, the turns in `idle` finding both
        queues empty. */
    method RunTurns(ready: seq<Lower>, ghost start: S.Server)
      returns (timer: bool, done: nat, ghost idle: seq<nat>)
      requires Valid() && pc == S.PollEvents && events.Valid() && closes.Valid() && Serves(start, View())
      modifies this, events, closes
      ensures Valid() && events.Valid() && closes.Valid() && Serves(start, View()) && listening == old(listening)
      ensures pc == if timer then S.Php else S.PollEvents
      ensures Ticked(old(Now()), Now(), ready, idle, done, listening, timer) && (!timer ==> done == |ready|)
    {
      timer, done, idle := false, 0, [];
      DeliversNothing(calls, connections - removed, events.log, events.Received());
      while done < |ready| && !timer
        invariant Valid() && events.Valid() && closes.Valid() && Serves(start, View()) && listening == old(listening)
        invariant pc == if timer then S.Php else S.PollEvents
        invariant Ticked(old(Now()), Now(), ready, idle, done, listening, timer)
        decreases |ready| - done
      {
        timer, idle := NextTurn(ready, done, idle, old(Now()), start);
        done := done + 1;
      }
    }

    /** tick, given what the accept and timer arms find at each turn, whatever the drivers send meanwhile. */
    method Tick(ready: seq<Lower>) returns (timer: bool, done: nat, ghost idle: seq<nat>)
      requires Valid() && pc == S.Php && events.Valid() && closes.Valid()
      modifies this, events, closes
      ensures Valid() && events.Valid() && closes.Valid() && Serves(old(View()), View())
      ensures pc == if timer then S.Php else S.PollEvents
      ensures Ticked(old(Now()), Now(), ready, idle, done, listening, timer) && (!timer ==> done == |ready|)
    {
      ghost var start := View();
      ServesNothing(start);
      pc := S.PollEvents;
      ServesMore(start, start, S.EnterTick, View());
      timer, done, idle := RunTurns(ready, start);
    }
  }

  // ---- the turns of a tick ----

  datatype Snapshot = Snapshot(
    events: seq<(ConnId, DriverEvent)>,  // every event sent, and how many of them were received
    received: int,
    closes: seq<(ConnId, bool)>,         // every close signal sent, and how many of them were received
    closed: int,
    calls: seq<S.Call>,
    connections: set<ConnId>,
    removed: set<ConnId>,
    accepts: nat)

  /** Both queues being empty, the timer arm is taken. */
  predicate Fires(ready: Lower, listening: bool) {
    ready.timer && !(listening && ready.accept.Some?)
  }

  /** Both queues being empty, a connection is accepted. */
  predicate Accepts(ready: Lower, listening: bool) {
    listening && ready.accept == Some(true)
  }

  /** The oldest event is received; PHP is given it if its connection is there. */
  predicate TookEvent(s0: Snapshot, s1: Snapshot) {
    && s1.received == s0.received + 1 && s1.closed == s0.closed
    && OneEvent(s0.calls, s1.calls, s0.connections, s1.events, s0.received)
    && s1.connections == s0.connections && s1.removed == s0.removed
  }

  /** All events sent before the turn having been received, the oldest close is: its connection is removed
      and on_close called with the flag of the signal. */
  predicate TookClose(s0: Snapshot, s1: Snapshot) {
    && s1.received == s0.received == |s0.events| && s1.closed == s0.closed + 1
    && OneClose(s0.connections, s1.connections, s0.removed, s1.removed, s1.closes, s0.closed)
    && ClosesWith(s0.calls, s1.calls, s1.closes[s0.closed].1)
  }

  /** All closes signalled before the turn having been received too, the lower arms are looked at. */
  predicate WasIdle(s0: Snapshot, s1: Snapshot) {
    && s1.received == s0.received == |s0.events| && s1.closed == s0.closed == |s0.closes|
    && s1.calls == s0.calls && s1.removed == s0.removed && s0.connections <= s1.connections
  }

  ghost predicate Turned(s0: Snapshot, s1: Snapshot, ready: Lower, listening: bool, timer: bool, idle: bool) {
    && s0.events <= s1.events && s0.closes <= s1.closes
    && (if idle then WasIdle(s0, s1) else TookEvent(s0, s1) || TookClose(s0, s1))
    && (timer <==> idle && Fires(ready, listening))
    && s1.accepts == s0.accepts + (if idle && Accepts(ready, listening) then 1 else 0)
    && Delivers(s0.calls, s1.calls, s0.connections, s1.events, s0.received, s1.received)
  }

  /** `done` turns. The ones in `idle` found both queues empty, the others received one event or close each;
      the timer arm was taken at the last turn if `timer`, and at no other. Once a turn was idle, all that was
      queued at the start has been received; before, events come first. Of every connection that stays PHP is
      given exactly the events received, oldest first. */
  ghost predicate Ticked(s0: Snapshot, s1: Snapshot, ready: seq<Lower>, idle: seq<nat>, done: nat,
                         listening: bool, timer: bool) {
    && Passed(s0.events, s1.events, s0.received, s1.received, idle != [])
    && Passed(s0.closes, s1.closes, s0.closed, s1.closed, idle != [])
    && done <= |ready| && s1.received - s0.received + s1.closed - s0.closed + |idle| == done
    && (forall i | 0 <= i < |idle| :: idle[i] < done)
    && (forall i | 0 <= i < |idle| :: Fires(ready[idle[i]], listening) <==> timer && i == |idle| - 1)
    && (timer ==> idle != [] && idle[|idle| - 1] == done - 1)
    && s1.accepts == s0.accepts + AcceptCount(ready, idle, listening)
    && (done <= |s0.events| - s0.received ==> !timer && s1.received == s0.received + done)
    && s0.removed <= s1.removed && s0.connections - s1.removed <= s1.connections
    && Delivers(s0.calls, s1.calls, s0.connections - s1.removed, s1.events, s0.received, s1.received)
  }

  function AcceptCount(ready: seq<Lower>, idle: seq<nat>, listening: bool): nat
    requires forall i | 0 <= i < |idle| :: idle[i] < |ready|
  {
    if idle == [] then 0
    else
      var m := |idle| - 1;
      AcceptCount(ready, idle[..m], listening) + if Accepts(ready[idle[m]], listening) then 1 else 0
  }

  lemma OneMoreTurn(s0: Snapshot, s1: Snapshot, s2: Snapshot, ready: seq<Lower>, idle: seq<nat>, done: nat,
                    listening: bool, timer: bool, idleTurn: bool)
    requires Ticked(s0, s1, ready, idle, done, listening, false) && done < |ready|
    requires Turned(s1, s2, ready[done], listening, timer, idleTurn)
    requires s1.received <= |s1.events|
    ensures Ticked(s0, s2, ready, if idleTurn then idle + [done] else idle, done + 1, listening, timer)
  {
    assert (idle + [done])[..|idle|] == idle;
    DeliversJoin(s0.calls, s1.calls, s2.calls, s0.connections - s2.removed, s1.events, s2.events,
                 s0.received, s1.received, s2.received);
  }

  // ---- what calls hand over ----

  /** Calls were added, all of them on_close calls with this flag. */
  predicate ClosesWith(before: seq<S.Call>, after: seq<S.Call>, peer: bool) {
    before <= after && forall i | |before| <= i < |after| :: after[i].CloseCall? && after[i].peer == peer
  }

  /** And on these pairs. */
  predicate ClosesOf(before: seq<S.Call>, after: seq<S.Call>, peer: bool, slots: set<S.SlotId>) {
    && ClosesWith(before, after, peer)
    && forall i | |before| <= i < |after| && after[i].CloseCall? :: after[i].slot in slots
  }

  /** Calls were added, all of them on_close calls. */
  predicate OnlyCloses(before: seq<S.Call>, after: seq<S.Call>) {
    before <= after && forall i | |before| <= i < |after| :: after[i].CloseCall?
  }

  /** The first call added hands over event `ev` of `c`; any further ones are on_close calls. */
  predicate HandsOver(before: seq<S.Call>, after: seq<S.Call>, c: ConnId, ev: DriverEvent) {
    && before < after
    && !after[|before|].CloseCall? && after[|before|].conn == c && EventOf(after[|before|], c) == Some(ev)
    && forall i | |before| < i < |after| :: after[i].CloseCall?
  }

  /** The event at place `at` of the log was handed over, or dropped if its connection is not there. */
  predicate OneEvent(before: seq<S.Call>, after: seq<S.Call>, ids: set<ConnId>,
                     log: seq<(ConnId, DriverEvent)>, at: int) {
    && 0 <= at < |log|
    && if log[at].0 in ids then HandsOver(before, after, log[at].0, log[at].1) else after == before
  }

  /** The signal at place `at` removed its connection, if it was there. */
  predicate OneClose(ids: set<ConnId>, ids': set<ConnId>, removed: set<ConnId>, removed': set<ConnId>,
                     log: seq<(ConnId, bool)>, at: int) {
    && 0 <= at < |log| && ids' == ids - {log[at].0}
    && removed' == if log[at].0 in ids then removed + {log[at].0} else removed
  }

  /** The log has grown, the receiver has moved on in it; and if `all`, past everything that was there at
      first. */
  predicate Passed<T(==)>(log: seq<T>, log': seq<T>, at: int, at': int, all: bool) {
    log <= log' && at <= at' && (all ==> |log| <= at')
  }

  /** Of every connection in `ids`, exactly its events from place `from` to `to` were handed to PHP. */
  ghost predicate Delivers(before: seq<S.Call>, after: seq<S.Call>, ids: set<ConnId>,
                           log: seq<(ConnId, DriverEvent)>, from: int, to: int) {
    && 0 <= from <= to <= |log|
    && forall d | d in ids :: System.Handled(after, d) == System.Handled(before, d) + System.Of(log[from..to], d)
  }

  lemma {:induction false} OnlyClosesHandNothing(before: seq<S.Call>, after: seq<S.Call>, d: ConnId)
    requires OnlyCloses(before, after)
    ensures System.Handled(after, d) == System.Handled(before, d)
    decreases |after|
  {
    if |before| < |after| {
      OnlyClosesHandNothing(before, after[..|after| - 1], d);
    } else {
      assert after == before;
    }
  }

  lemma HandedOver(before: seq<S.Call>, after: seq<S.Call>, c: ConnId, ev: DriverEvent, d: ConnId)
    requires HandsOver(before, after, c, ev)
    ensures System.Handled(after, d)
         == if d == c then System.Handled(before, d) + [ev] else System.Handled(before, d)
  {
    var first := before + [after[|before|]];
    OnlyClosesHandNothing(first, after, d);
    HandledSnoc(before, after[|before|], d);
  }

  lemma OneEventDelivers(before: seq<S.Call>, after: seq<S.Call>, ids: set<ConnId>,
                         log: seq<(ConnId, DriverEvent)>, at: int)
    requires OneEvent(before, after, ids, log, at)
    ensures Delivers(before, after, ids, log, at, at + 1)
  {
    assert log[at..at + 1] == [] + [log[at]];
    forall d | d in ids ensures System.Handled(after, d) == System.Handled(before, d) + System.Of(log[at..at + 1], d) {
      OfSnoc([], log[at], d);
      if log[at].0 in ids {
        HandedOver(before, after, log[at].0, log[at].1, d);
      }
    }
  }

  lemma OnlyClosesDeliver(before: seq<S.Call>, after: seq<S.Call>, ids: set<ConnId>,
                          log: seq<(ConnId, DriverEvent)>, at: int)
    requires OnlyCloses(before, after) && 0 <= at <= |log|
    ensures Delivers(before, after, ids, log, at, at)
  {
    forall d | d in ids ensures System.Handled(after, d) == System.Handled(before, d) + System.Of(log[at..at], d) {
      OnlyClosesHandNothing(before, after, d);
    }
  }

  lemma DeliversNothing(calls: seq<S.Call>, ids: set<ConnId>, log: seq<(ConnId, DriverEvent)>, at: int)
    requires 0 <= at <= |log|
    ensures Delivers(calls, calls, ids, log, at, at)
  {
    OnlyClosesDeliver(calls, calls, ids, log, at);
  }

  lemma DeliversJoin(c0: seq<S.Call>, c1: seq<S.Call>, c2: seq<S.Call>, ids: set<ConnId>,
                     log: seq<(ConnId, DriverEvent)>, log': seq<(ConnId, DriverEvent)>, from: int, mid: int, to: int)
    requires Delivers(c0, c1, ids, log, from, mid) && Delivers(c1, c2, ids, log', mid, to) && log <= log'
    ensures Delivers(c0, c2, ids, log', from, to)
  {
    assert log'[from..mid] == log[from..mid];
    assert log'[from..to] == log'[from..mid] + log'[mid..to];
    forall d | d in ids ensures System.Handled(c2, d) == System.Handled(c0, d) + System.Of(log'[from..to], d) {
      OfConcat(log'[from..mid], log'[mid..to], d);
      Assoc(System.Handled(c0, d), System.Of(log'[from..mid], d), System.Of(log'[mid..to], d));
    }
  }

  lemma ServesJoin(a: S.Server, b: S.Server, c: S.Server)
    requires Serves(a, b) && Serves(b, c)
    ensures Serves(a, c)
  {
    var r1 :| ServerRun(r1, a, b);
    var r2 :| ServerRun(r2, b, c);
    var run := r1 + r2[1..];
    forall i | 0 < i < |run| ensures ServerStep(run[i - 1], run[i]) {
      if i < |r1| {
        assert ServerStep(r1[i - 1], r1[i]);
      } else {
        var j := i - |r1| + 1;
        assert run[i] == r2[j] && run[i - 1] == r2[j - 1];
        assert ServerStep(r2[j - 1], r2[j]);
      }
    }
    assert ServerRun(run, a, c);
  }
}
