/** Reachable states that show the limits of the design: a close signal can be lost, exactly when more than
    1024 connections are live; events sent between the two polls of the select are dropped; chunks can
    reach no callback; and a slot pair can miss its on_close. */
module Witnesses {
  import opened Types
  import R = ReadPass
  import W = WritePass
  import S = Server
  import opened System
  import opened SystemInvariant
  import opened ServerStepInvariant
  import opened RunInvariant
  import opened Lifecycle
  import opened Deliveries
  import opened Routing

  predicate Below(c: ConnId, n: nat) {
    c < n
  }

  function UpTo(n: nat): set<ConnId> {
    set c: ConnId | 0 <= c < n && Below(c, n)
  }

  lemma {:induction false} UpToSize(n: nat)
    ensures |UpTo(n)| == n
  {
    if n > 0 {
      UpToSize(n - 1);
      assert UpTo(n) == UpTo(n - 1) + {n - 1};
    } else {
      assert UpTo(0) == {};
    }
  }

  /** No pair was ever registered and nothing was called or removed. */
  predicate Blank(sv: S.Server) {
    && sv.calls == [] && sv.next == 0 && sv.slots == map[] && sv.removed == {} && sv.overwritten == {}
    && sv.installed == map[] && forall c | c in sv.maps :: sv.maps[c] == map[]
  }

  /** `n` connections accepted, all live; the first `m` drivers have signalled their close. */
  ghost predicate Idle(s: System, n: nat, m: nat) {
    && Reachable(s)
    && s.sv.pc.PollEvents? && s.sv.listening && s.sv.accepts == n && s.sv.connections == UpTo(n)
    && s.log == [] && s.taken == 0 && Blank(s.sv)
    && s.drivers.Keys == UpTo(n)
    && (forall c | c in s.drivers :: s.drivers[c] == NewDriver.(closed := c < m))
    && |s.closes| == m && s.permits == 0
  }

  /** Both queues are found empty. */
  lemma PollBoth(s: System, n: nat) returns (t: System)
    requires Idle(s, n, 0)
    ensures Reachable(t) && t == s.(sv := s.sv.(pc := S.PollRest), polled := 0)
  {
    t := Go(s, Server(S.NoEvent));
    t := Go(t, Server(S.NoClose));
  }

  lemma AcceptOne(s: System, n: nat) returns (t: System)
    requires Idle(s, n, 0) && n < U64_VALUES
    ensures Idle(t, n + 1, 0)
  {
    assert S.ConnIdOf(n) == n;
    t := PollBoth(s, n);
    t := Go(t, Server(S.Accept));
    assert t.drivers == s.drivers[n := NewDriver];
    t := Go(t, Server(S.Insert));
    assert UpTo(n + 1) == UpTo(n) + {n};
  }

  lemma {:induction false} AcceptMany(n: nat) returns (t: System)
    requires n <= U64_VALUES
    ensures Idle(t, n, 0)
  {
    if n == 0 {
      assert Run([Initial], []);
      t := Go(Initial, Server(S.EnterTick));
      assert UpTo(0) == {};
    } else {
      t := AcceptMany(n - 1);
      t := AcceptOne(t, n - 1);
    }
  }

  lemma {:induction false} CloseMany(n: nat, m: nat) returns (t: System)
    requires m <= n <= U64_VALUES && m <= CONN_CLOSE_CHANNEL_CAPACITY
    ensures Idle(t, n, m)
  {
    if m == 0 {
      t := AcceptMany(n);
    } else {
      t := CloseMany(n, m - 1);
      assert m - 1 in t.drivers;
      t := Go(t, CloseSignal(m - 1, false));
    }
  }

  /** There is a run in which `n` connections are live and a driver signals its close into a full
      channel, so that the signal is lost. */
  ghost predicate CloseCanBeLost(n: nat) {
    exists s: System, c: ConnId ::
      && Reachable(s) && s.sv.accepts <= U64_VALUES && Up(s.sv) && |Live(s.sv)| == n
      && CloseEnabled(s, c) && c in ApplyClose(s, c, false).lost && c !in s.lost
  }

  /** A close signal can be lost exactly when more than 1024 connections are live. */
  lemma CloseLostIffOverCapacity(n: nat)
    requires n <= U64_VALUES
    ensures CloseCanBeLost(n) <==> n > 1024
  {
    if n > CONN_CLOSE_CHANNEL_CAPACITY {
      var s := CloseMany(n, CONN_CLOSE_CHANNEL_CAPACITY);
      var c := CONN_CLOSE_CHANNEL_CAPACITY;
      UpToSize(n);
      assert c in s.drivers;
      OpenDriverNotLost(s, c);
      assert Reachable(s) && CloseEnabled(s, c) && c in ApplyClose(s, c, false).lost;
    } else if CloseCanBeLost(n) {
      var s: System, c: ConnId :|
        && Reachable(s) && s.sv.accepts <= U64_VALUES && Up(s.sv) && |Live(s.sv)| == n
        && CloseEnabled(s, c) && c in ApplyClose(s, c, false).lost && c !in s.lost;
      CloseFindsRoom(s, c);
      assert false;
    }
  }

  lemma OpenDriverNotLost(s: System, c: ConnId)
    requires Reachable(s) && s.sv.accepts <= U64_VALUES && Up(s.sv) && c in s.drivers && !s.drivers[c].closed
    ensures c !in s.lost
  {
    ReachableKeepsInv(s);
  }

  // ---- an event between the two polls ----

  const LAST_WORDS: Chunk := Chunk([7], true)

  /** One connection, polled for events a moment ago with nothing queued then; its driver's read side
      is `r`, and what `r` emitted is all that is in the channel. */
  ghost predicate Polled(s: System, r: R.ReadSide) {
    && Reachable(s) && s.sv.pc == S.PollCloses && s.sv.connections == {0} && s.sv.accepts == 1
    && s.taken == 0 && s.closes == [] && s.polled == 0 && |s.log| == |r.emitted| && Blank(s.sv)
    && (forall i | 0 <= i < |s.log| :: s.log[i] == (0, r.emitted[i]))
    && s.permits == (if R.Holding(r.pc) then 1 else 0)
    && s.drivers.Keys == {0} && s.drivers[0] == NewDriver.(read := r)
  }

  lemma OnePolled() returns (s: System)
    ensures Polled(s, R.Initial)
  {
    var t := AcceptMany(1);
    assert UpTo(1) == {0};
    s := Go(t, Server(S.NoEvent));
  }

  lemma GoRead(s: System, r: R.ReadSide, a: R.Action) returns (t: System, r': R.ReadSide)
    requires Polled(s, r) && R.Enabled(r, a) && !a.Full? && |r.emitted| <= 2
    ensures Polled(t, r') && r' == R.Apply(r, a)
  {
    EmissionIsLogged(r, a);
    PermitsFollowPc(r, a);
    r' := R.Apply(r, a);
    t := Go(s, Read(0, a));
  }

  function Heard(id: StreamId): map<StreamId, R.RecvStream> {
    map[id := R.RecvStream([7], true, false)]
  }

  function Forwarded(id: StreamId): map<StreamId, R.RecvStream> {
    map[id := R.RecvStream([], true, true)]
  }

  lemma Hear(s: System, id: StreamId) returns (t: System, r: R.ReadSide)
    requires Polled(s, R.Initial)
    ensures Polled(t, r) && r.pc == R.AtNext && r.rx == Heard(id) && r.readable == {id}
    ensures r.emitted == [] && r.seen == {}
  {
    t, r := GoRead(s, R.Initial, R.Arrive(id, LAST_WORDS));
    assert [] + LAST_WORDS.bytes == [7];
    t, r := GoRead(t, r, R.Rearm({id}));
    t, r := GoRead(t, r, R.Begin);
  }

  lemma AnnounceIt(s: System, r0: R.ReadSide) returns (t: System, r: R.ReadSide)
    requires Polled(s, r0) && r0.pc == R.AtNext && r0.rx == Heard(0) && r0.readable == {0}
    requires r0.emitted == [] && r0.seen == {}
    ensures Polled(t, r) && r.pc == R.Drain(0) && r.rx == Heard(0) && r.readable == {} && r.emitted == [NewBidi(0)]
  {
    t, r := GoRead(s, r0, R.Take(0));
    t, r := GoRead(t, r, R.Reserve);
    t, r := GoRead(t, r, R.SendNew);
  }

  lemma ForwardedValue(r: R.ReadSide, id: StreamId)
    requires r.pc == R.Draining(id) && r.rx == Heard(id) && R.Enabled(r, R.RecvOk(1))
    ensures R.Apply(r, R.RecvOk(1)).rx == Forwarded(id)
    ensures R.Apply(r, R.RecvOk(1)).emitted == r.emitted + [Data(id, LAST_WORDS)]
  {
    assert R.RecvChunk(Heard(id)[id], 1) == LAST_WORDS;
    assert Heard(id)[id].buf[1..] == [];
  }

  lemma Forward(s: System, r0: R.ReadSide, id: StreamId) returns (t: System, r: R.ReadSide)
    requires Polled(s, r0) && r0.pc == R.Drain(id) && r0.rx == Heard(id) && r0.readable == {} && |r0.emitted| <= 1
    ensures Polled(t, r) && r.pc == R.Drain(id) && r.rx == Forwarded(id) && r.readable == {}
    ensures r.emitted == r0.emitted + [Data(id, LAST_WORDS)]
  {
    t, r := GoRead(s, r0, R.Reserve);
    R.FinInItems(LAST_WORDS);
    assert R.RecvChunk(Heard(id)[id], 1) == LAST_WORDS;
    ForwardedValue(r, id);
    t, r := GoRead(t, r, R.RecvOk(1));
  }

  lemma Finish(s: System, r0: R.ReadSide, id: StreamId) returns (t: System, r: R.ReadSide)
    requires Polled(s, r0) && r0.pc == R.Drain(id) && r0.rx == Forwarded(id) && r0.readable == {}
    requires |r0.emitted| <= 2
    ensures Polled(t, r) && r.pc == R.Outside && r.emitted == r0.emitted
  {
    t, r := GoRead(s, r0, R.Reserve);
    t, r := GoRead(t, r, R.RecvDone);
    t, r := GoRead(t, r, R.NoneLeft);
  }

  /** The driver has announced stream 0 and forwarded its only chunk, just after the event poll. */
  lemma ClientStreamSent() returns (s: System, r: R.ReadSide)
    ensures Polled(s, r) && r.pc == R.Outside && r.emitted == [NewBidi(0), Data(0, LAST_WORDS)]
    ensures s.log == [(0, NewBidi(0)), (0, Data(0, LAST_WORDS))]
  {
    s := OnePolled();
    s, r := Hear(s, 0);
    s, r := AnnounceIt(s, r);
    s, r := Forward(s, r, 0);
    s, r := Finish(s, r, 0);
  }

  /** The driver has forwarded a chunk on stream 1, which PHP would have to open. */
  lemma ServerStreamSent() returns (s: System, r: R.ReadSide)
    ensures Polled(s, r) && r.pc == R.Outside && r.emitted == [Data(1, LAST_WORDS)]
    ensures s.log == [(0, Data(1, LAST_WORDS))]
  {
    s := OnePolled();
    s, r := Hear(s, 1);
    s, r := GoRead(s, r, R.Take(1));
    s, r := Forward(s, r, 1);
    s, r := Finish(s, r, 1);
  }

  lemma ReadyToClose() returns (t: System)
    ensures Reachable(t) && t.sv.pc == S.PollCloses && t.sv.connections == {0} && 0 in t.sv.maps && Blank(t.sv)
    ensures t.closes == [] && t.log == [(0, NewBidi(0)), (0, Data(0, LAST_WORDS))] && CloseEnabled(t, 0)
    ensures forall c | c in t.drivers :: !t.drivers[c].write.notifying
  {
    var r;
    t, r := ClientStreamSent();
    ReachableKeepsInv(t);
    assert 0 in t.sv.maps;
  }

  /** The driver signals its close, the server takes the signal and finishes the close path. */
  const CLOSING: seq<Action> := [CloseSignal(0, true), Server(S.TakeClose(0, true)), Server(S.FireDone)]

  lemma CloseAndRemove(s: System) returns (states: seq<System>)
    requires s.sv.pc == S.PollCloses && s.sv.connections == {0} && 0 in s.sv.maps && Blank(s.sv)
    requires s.closes == [] && CloseEnabled(s, 0)
    requires forall c | c in s.drivers :: !s.drivers[c].write.notifying
    ensures |states| == 4 && states[0] == s && forall j | 0 <= j < 3 :: Step(states[j], CLOSING[j], states[j + 1])
    ensures states[3].sv.calls == [] && 0 in states[3].sv.removed && !S.MapLocked(states[3].sv.pc, 0)
  {
    var signalled := ApplyClose(s, 0, true);
    var taken := ApplyServer(signalled, S.TakeClose(0, true));
    var gone := ApplyServer(taken, S.FireDone);
    assert Step(s, CLOSING[0], signalled) && Step(signalled, CLOSING[1], taken) && Step(taken, CLOSING[2], gone);
    states := [s, signalled, taken, gone];
  }

  /** In step `i` the driver of `c` signals its close, having sent data before; at the end of the run the
      connection is gone and nothing of it has been dispatched. */
  ghost predicate LosesLastWords(run: seq<System>, acts: seq<Action>, i: nat, c: ConnId, id: StreamId) {
    && Run(run, acts) && i < |acts| && acts[i] == CloseSignal(c, true)
    && R.DataItems(Of(run[i].log, c), id) != []
    && c in run[|acts|].sv.removed && !S.MapLocked(run[|acts|].sv.pc, c)
    && Handled(run[|acts|].sv.calls, c) == []
  }

  /** Late events are dropped. In some run the driver signals its close in step `i`, when it has already
      sent the peer's last bytes; later the connection is gone, and none of its events was dispatched. */
  lemma LateEventsHappen()
    ensures exists run, acts, i, c, id :: LosesLastWords(run, acts, i, c, id)
  {
    var s := ReadyToClose();
    LastWordsLogged();
    var states := CloseAndRemove(s);
    RunThrough(states, CLOSING);
    var run, acts :| Run(run, acts) && GoesThrough(run, acts, states, CLOSING);
    var i := |acts| - 3;
    assert run[i] == run[i..][0] && acts[i] == acts[i..][0] && run[|acts|] == run[i..][3];
    assert LosesLastWords(run, acts, i, 0, 0);
  }

  lemma LastWordsLogged()
    ensures R.DataItems(Of([(0, NewBidi(0)), (0, Data(0, LAST_WORDS))], 0), 0) != []
  {
    var e1, e2 := (0, NewBidi(0)), (0, Data(0, LAST_WORDS));
    OfSnoc([e1], e2, 0);
    assert [e1, e2] == [e1] + [e2];
    R.DataItemsSnoc(Of([e1], 0), e2.1, 0);
    R.FinInItems(LAST_WORDS);
  }

  // ---- chunks that no callback hears ----

  lemma BackToEvents(s: System, r: R.ReadSide) returns (t: System)
    requires Polled(s, r)
    ensures Reachable(t) && t == s.(sv := s.sv.(pc := S.PollEvents))
  {
    t := Go(s, Server(S.NoClose));
    t := Go(t, Server(S.Sleep));
  }

  lemma AnnouncementTaken() returns (t: System)
    ensures Reachable(t) && t.sv.pc == S.Dispatching(0, NewBidi(0)) && t.sv.connections == {0} && Blank(t.sv)
    ensures 0 in t.sv.maps && t.taken == 1
    ensures t.log == [(0, NewBidi(0)), (0, Data(0, LAST_WORDS))]
    ensures forall c | c in t.drivers :: !t.drivers[c].write.notifying
  {
    var s, r := ClientStreamSent();
    ReachableKeepsInv(s);
    assert 0 in s.sv.maps;
    t := BackToEvents(s, r);
    t := Go(t, Server(S.TakeEvent(0, NewBidi(0))));
  }

  /** The stream was announced to PHP, whose on_stream callback installed nothing. */
  lemma AnnouncedOnly() returns (t: System)
    ensures Reachable(t) && t.sv.pc == S.PollEvents && t.sv.connections == {0} && t.sv.installed == map[]
    ensures S.MapOf(t.sv, 0) == map[0 := 0] && t.taken == 1
    ensures t.log == [(0, NewBidi(0)), (0, Data(0, LAST_WORDS))]
    ensures forall c | c in t.drivers :: !t.drivers[c].write.notifying
  {
    t := AnnouncementTaken();
    t := Go(t, Server(S.Dispatch));
    t := Go(t, Server(S.CallbackDone));
  }

  /** A chunk of an announced stream is dispatched before PHP has installed any callback. */
  lemma UnheardWithoutCallback()
    ensures exists s: System, i: nat ::
              && Reachable(s) && i < |s.sv.calls| && IsChunkOf(s.sv.calls[i], 0, 0)
              && s.sv.calls[i].chunk == LAST_WORDS && s.sv.calls[i].target.Some? && s.sv.calls[i].heard.None?
  {
    var t := AnnouncedOnly();
    t := Go(t, Server(S.TakeEvent(0, Data(0, LAST_WORDS))));
    t := Go(t, Server(S.Dispatch));
    assert IsChunkOf(t.sv.calls[|t.sv.calls| - 1], 0, 0);
  }

  // ---- and chunks that one does hear ----

  lemma InOnStream() returns (t: System)
    ensures Reachable(t) && t.sv.pc == S.InStream && t.sv.connections == {0} && t.taken == 1 && t.sv.next == 1
    ensures t.sv.installed == map[] && S.MapOf(t.sv, 0) == map[0 := 0] && |t.sv.calls| == 1 && 0 in t.sv.maps
    ensures t.log == [(0, NewBidi(0)), (0, Data(0, LAST_WORDS))]
    ensures forall c | c in t.drivers :: !t.drivers[c].write.notifying
  {
    t := AnnouncementTaken();
    t := Go(t, Server(S.Dispatch));
  }

  lemma DataInstalled() returns (t: System)
    ensures Reachable(t) && t.sv.pc == S.InStream && t.sv.connections == {0} && t.taken == 1 && t.sv.next == 1
    ensures t.sv.installed == map[(0, S.DataHook) := 7]
    ensures S.MapOf(t.sv, 0) == map[0 := 0] && |t.sv.calls| == 1 && 0 in t.sv.maps
    ensures t.log == [(0, NewBidi(0)), (0, Data(0, LAST_WORDS))]
    ensures forall c | c in t.drivers :: !t.drivers[c].write.notifying
  {
    t := InOnStream();
    t := Go(t, Server(S.Install(0, S.DataHook, 7)));
  }

  /** The stream was announced to PHP, whose on_stream callback installed callback 7 for its data and
      callback 8 for its end. */
  lemma BothInstalled() returns (t: System)
    ensures Reachable(t) && t.sv.pc == S.PollEvents && t.sv.connections == {0} && t.taken == 1
    ensures t.sv.installed == map[(0, S.DataHook) := 7, (0, S.CloseHook) := 8]
    ensures S.MapOf(t.sv, 0) == map[0 := 0] && |t.sv.calls| == 1 && 0 in t.sv.maps
    ensures t.log == [(0, NewBidi(0)), (0, Data(0, LAST_WORDS))]
    ensures forall c | c in t.drivers :: !t.drivers[c].write.notifying
  {
    t := DataInstalled();
    t := Go(t, Server(S.Install(0, S.CloseHook, 8)));
    t := Go(t, Server(S.CallbackDone));
  }

  lemma ChunkHeard() returns (t: System)
    ensures Reachable(t) && t.sv.pc == S.InData(0, 0, true, Some(0)) && t.sv.connections == {0} && 0 in t.sv.maps
    ensures t.sv.installed == map[(0, S.DataHook) := 7, (0, S.CloseHook) := 8] && S.MapOf(t.sv, 0) == map[0 := 0]
    ensures |t.sv.calls| == 2 && t.sv.calls[1] == S.DataCall(0, 0, Some(0), LAST_WORDS, Some(7))
    ensures forall c | c in t.drivers :: !t.drivers[c].write.notifying
  {
    t := BothInstalled();
    t := Go(t, Server(S.TakeEvent(0, Data(0, LAST_WORDS))));
    t := Go(t, Server(S.Dispatch));
  }

  /** The peer's only chunk is heard by the one, and then its FIN by the other. */
  lemma InstalledCallbacksAreCalled()
    ensures exists s: System ::
              && Reachable(s) && |s.sv.calls| == 3
              && s.sv.calls[1] == S.DataCall(0, 0, Some(0), LAST_WORDS, Some(7))
              && s.sv.calls[2] == S.CloseCall(0, true, Some(8))
  {
    var t := ChunkHeard();
    t := Go(t, Server(S.CallbackDone));
    assert t.sv.calls[2] == S.CloseCall(0, true, Some(8));
  }

  lemma ServerStreamTaken() returns (t: System)
    ensures Reachable(t) && t.sv.pc == S.Dispatching(0, Data(1, LAST_WORDS)) && t.sv.connections == {0} && Blank(t.sv)
    ensures forall c | c in t.drivers :: !t.drivers[c].write.notifying
  {
    var s, r := ServerStreamSent();
    t := BackToEvents(s, r);
    t := Go(t, Server(S.TakeEvent(0, Data(1, LAST_WORDS))));
  }

  /** A chunk arrives on a server-initiated stream that PHP has not opened: there is no pair for it. */
  lemma UnheardWithoutPair()
    ensures exists s: System, i: nat ::
              && Reachable(s) && i < |s.sv.calls| && IsChunkOf(s.sv.calls[i], 0, 1)
              && s.sv.calls[i].chunk == LAST_WORDS && s.sv.calls[i].target.None?
  {
    var t := ServerStreamTaken();
    t := Go(t, Server(S.Dispatch));
    assert IsChunkOf(t.sv.calls[|t.sv.calls| - 1], 0, 1);
  }

  // ---- pairs that miss their on_close, and a slot map that knows more than the driver ----

  /** One connection, nothing sent by anyone; the PHP thread is in state `sv`. */
  ghost predicate Alone(s: System, sv: S.Server) {
    && Reachable(s) && s.sv == sv && s.log == [] && s.taken == 0 && s.closes == []
    && s.drivers.Keys == {0} && s.drivers[0] == NewDriver
  }

  lemma GoAlone(s: System, sv: S.Server, a: S.Action) returns (t: System, sv': S.Server)
    requires Alone(s, sv) && S.Enabled(sv, a) && !a.TakeEvent? && !a.TakeClose? && !a.Accept?
    ensures Alone(t, sv') && sv' == S.Apply(sv, a)
  {
    sv' := S.Apply(sv, a);
    t := Go(s, Server(a));
  }

  lemma AloneInPhp() returns (s: System, sv: S.Server)
    ensures Alone(s, sv) && sv.pc == S.Php && sv.connections == {0} && 0 in sv.maps && Blank(sv)
  {
    s := AcceptMany(1);
    assert UpTo(1) == {0};
    ReachableKeepsInv(s);
    assert 0 in s.sv.maps;
    s := PollBoth(s, 1);
    s, sv := GoAlone(s, s.sv, S.Timer);
  }

  lemma OpenedTwice() returns (s: System, sv: S.Server)
    ensures Alone(s, sv) && sv.pc == S.Php && sv.connections == {0} && S.MapOf(sv, 0) == map[1 := 1]
    ensures sv.calls == [] && sv.removed == {} && sv.overwritten == {0} && sv.installed == map[]
    ensures 0 in sv.slots && sv.slots[0] == S.SlotInfo(0, 1, true)
  {
    s, sv := AloneInPhp();
    s, sv := GoAlone(s, sv, S.OpenStream(0, 1));
    s, sv := GoAlone(s, sv, S.OpenStream(0, 1));
  }

  lemma ClosingOpenedTwice() returns (s: System, sv: S.Server)
    ensures Alone(s, sv) && sv.pc == S.Firing(0, false, map[1 := 1], None, true) && sv.removed == {0}
    ensures sv.calls == [] && sv.overwritten == {0} && sv.installed == map[]
    ensures 0 in sv.slots && sv.slots[0] == S.SlotInfo(0, 1, true)
  {
    s, sv := OpenedTwice();
    s, sv := GoAlone(s, sv, S.StartClose);
    s, sv := GoAlone(s, sv, S.CloseConn(0));
  }

  /** PHP opens the same id twice on a live connection: the first pair is never fired. */
  lemma OverwrittenPairIsNeverFired()
    ensures exists s: System, k: S.SlotId ::
              && Reachable(s) && k in s.sv.slots && s.sv.slots[k].live && k in s.sv.overwritten
              && s.sv.slots[k].conn in s.sv.removed && s.sv.pc == S.Closing && S.FireCount(s.sv.calls, k) == 0
  {
    var s, sv := ClosingOpenedTwice();
    s, sv := GoAlone(s, sv, S.FireNext(1));
    s, sv := GoAlone(s, sv, S.FireDone);
    S.FireCountSnoc([], S.CloseCall(1, false, None), 0);
    assert s.sv.calls == [] + [S.CloseCall(1, false, None)];
  }

  lemma AloneRemoved() returns (s: System, sv: S.Server)
    ensures Alone(s, sv) && sv.pc == S.Php && sv.connections == {} && sv.removed == {0} && 0 in sv.maps
    ensures sv.maps[0] == map[] && sv.calls == [] && sv.next == 0 && sv.slots == map[] && sv.overwritten == {}
  {
    s, sv := AloneInPhp();
    s, sv := GoAlone(s, sv, S.StartClose);
    s, sv := GoAlone(s, sv, S.CloseConn(0));
    s, sv := GoAlone(s, sv, S.FireDone);
    s, sv := GoAlone(s, sv, S.EndClose);
  }

  /** PHP keeps a stream object of a connection that is gone and opens a stream on it: that pair is never
      fired. */
  lemma LatePairIsNeverFired()
    ensures exists s: System, k: S.SlotId ::
              && Reachable(s) && k in s.sv.slots && !s.sv.slots[k].live && k !in s.sv.overwritten
              && s.sv.slots[k].conn in s.sv.removed && s.sv.pc == S.Php && S.FireCount(s.sv.calls, k) == 0
  {
    var s, sv := AloneRemoved();
    s, sv := GoAlone(s, sv, S.OpenStream(0, 1));
    assert sv.slots[0] == S.SlotInfo(0, 1, false) && sv.calls == [];
  }

  /** PHP opens a client-initiated id itself: the slot map then knows a stream that the driver has not
      announced, so that replaying the queued events over its keys no longer gives the announced streams. */
  lemma OwnOpenBreaksSimulation()
    ensures exists s: System ::
              && Reachable(s) && 0 in s.sv.connections && 0 in s.drivers && s.taken == |s.log|
              && R.Replay(ClientKeys(S.MapOf(s.sv, 0)), Of(s.log[Finished(s)..], 0)) != s.drivers[0].read.seen
  {
    var s, sv := AloneInPhp();
    s, sv := GoAlone(s, sv, S.OpenStream(0, 0));
    assert 0 in ClientKeys(S.MapOf(s.sv, 0)) && s.log[Finished(s)..] == [];
  }

  // ---- a write that reaches quiche ----

  /** PHP code runs, and the write side of the only connection is `w`. */
  ghost predicate Writer(s: System, w: W.WriteSide) {
    Reachable(s) && s.sv.pc == S.Php && s.drivers.Keys == {0} && s.drivers[0] == NewDriver.(write := w)
  }

  lemma GoWrite(s: System, w: W.WriteSide, a: W.Action) returns (t: System, w': W.WriteSide)
    requires Writer(s, w) && W.Enabled(w, a)
    ensures Writer(t, w') && w' == W.Apply(w, a)
  {
    w' := W.Apply(w, a);
    t := Go(s, Write(0, a));
  }

  const GREETING: W.StreamWriter := W.StreamWriter(0, Some([7]), true)

  /** The driver has nothing to write and waits. */
  lemma DriverWaits() returns (s: System, w: W.WriteSide)
    ensures Writer(s, w) && w == W.Initial.(phase := W.Waiting)
  {
    var sv;
    s, sv := AloneInPhp();
    assert s.drivers[0] == NewDriver.(write := W.Initial);
    s, w := GoWrite(s, W.Initial, W.StartWrites);
    s, w := GoWrite(s, w, W.DrainEmpty);
    s, w := GoWrite(s, w, W.EndFlush);
    s, w := GoWrite(s, w, W.Wait);
  }

  /** PHP writes, and the driver is woken. */
  lemma DriverIsWoken() returns (s: System, w: W.WriteSide)
    ensures Writer(s, w) && w.phase == W.Awake && w.chan == [GREETING] && w.pending == map[]
    ensures At(w.submitted, 0) == [Octet(7), Fin] && w.sent == map[]
  {
    s, w := DriverWaits();
    assert Octets([7]) == [Octet(7)];
    s, w := GoWrite(s, w, W.Submit(GREETING));
    s, w := GoWrite(s, w, W.Notify);
    s, w := GoWrite(s, w, W.WakeNotified);
  }

  lemma DriverFlushes() returns (s: System, w: W.WriteSide)
    ensures Writer(s, w) && w.phase == W.Flushing({0}) && w.pending == map[0 := [Chunk([7], true)]]
    ensures At(w.submitted, 0) == [Octet(7), Fin] && w.sent == map[]
  {
    s, w := DriverIsWoken();
    s, w := GoWrite(s, w, W.StartWrites);
    s, w := GoWrite(s, w, W.DrainOne);
    assert At(w.pending, 0) == [W.ChunkOf(GREETING)] && W.ChunkOf(GREETING) == Chunk([7], true);
    assert w.pending == map[0 := [Chunk([7], true)]];
    s, w := GoWrite(s, w, W.DrainEmpty);
    assert w.pending.Keys == {0};
  }

  /** What PHP writes on a waiting driver's connection reaches quiche, with its FIN. */
  lemma WritesReachQuiche()
    ensures exists s: System ::
              && Reachable(s) && 0 in s.drivers
              && At(s.drivers[0].write.submitted, 0) == At(s.drivers[0].write.sent, 0) == [Octet(7), Fin]
  {
    var s, w := DriverFlushes();
    assert Octets([7]) == [Octet(7)];
    assert Items(Chunk([7], true)) == [Octet(7), Fin];
    s, w := GoWrite(s, w, W.Send(0, W.Accepted(|w.pending[0][0].bytes|)));
    assert At(w.sent, 0) == [] + [Octet(7), Fin];
  }
}
