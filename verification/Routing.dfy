/** Which slot pair a call goes to and which callback hears it: routing over all runs of the engine. */
module Routing {
  import opened Types
  import R = ReadPass
  import S = Server
  import opened System
  import opened SystemInvariant
  import opened ServerStepInvariant
  import opened RunInvariant
  import opened Deliveries
  import O = WriteOrder

  // ---- every call goes to a pair of its own connection and stream ----

  predicate RoutedTo(slots: map<S.SlotId, S.SlotInfo>, call: S.Call) {
    match call
    case StreamCall(c, ev, k) => !ev.Data? && k in slots && slots[k] == S.SlotInfo(c, ev.stream, true)
    case DataCall(c, id, target, _, _) =>
      target.Some? ==> target.value in slots && slots[target.value] == S.SlotInfo(c, id, true)
    case CloseCall(k, _, _) => k in slots && slots[k].live
  }

  predicate RoutesOk(sv: S.Server) {
    forall i | 0 <= i < |sv.calls| :: RoutedTo(sv.slots, sv.calls[i])
  }

  lemma DispatchRouted(sv: S.Server)
    requires S.SlotsInv(sv) && sv.pc.Dispatching? && sv.pc.c in sv.connections
    ensures RoutedTo(S.ApplyDispatch(sv).slots, S.ApplyDispatch(sv).calls[|sv.calls|])
  {
  }

  lemma NewCallRouted(sv: S.Server, a: S.Action)
    requires S.SlotsInv(sv) && S.Enabled(sv, a) && |S.Apply(sv, a).calls| == |sv.calls| + 1
    ensures RoutedTo(S.Apply(sv, a).slots, S.Apply(sv, a).calls[|sv.calls|])
  {
    if a.Dispatch? {
      DispatchRouted(sv);
    }
  }

  lemma StepKeepsRoutes(sv: S.Server, a: S.Action)
    requires S.ServerInv(sv) && RoutesOk(sv) && S.Enabled(sv, a)
    ensures RoutesOk(S.Apply(sv, a))
  {
    var sv' := S.Apply(sv, a);
    S.StepAddsCalls(sv, a);
    S.StepRemembers(sv, a);
    forall i | 0 <= i < |sv'.calls| ensures RoutedTo(sv'.slots, sv'.calls[i]) {
      if i < |sv.calls| {
        assert sv'.calls[i] == sv.calls[i] && RoutedTo(sv.slots, sv.calls[i]);
      } else {
        NewCallRouted(sv, a);
      }
    }
  }

  // ---- where pairs come from ----

  predicate IsAnnouncement(call: S.Call, k: S.SlotId) {
    call.StreamCall? && call.slot == k
  }

  predicate Announced(calls: seq<S.Call>, k: S.SlotId) {
    exists i :: 0 <= i < |calls| && IsAnnouncement(calls[i], k)
  }

  /** A pair was opened by PHP or given to PHP with an announcement. */
  predicate HasOrigin(s: System, k: S.SlotId)
    requires k in s.sv.slots
  {
    (s.sv.slots[k].conn, s.sv.slots[k].stream) in s.phpOpened || Announced(s.sv.calls, k)
  }

  predicate OriginsOk(s: System) {
    forall k | k in s.sv.slots :: HasOrigin(s, k)
  }

  lemma StaysAnnounced(calls: seq<S.Call>, more: seq<S.Call>, k: S.SlotId)
    requires calls <= more && Announced(calls, k)
    ensures Announced(more, k)
  {
    var i :| 0 <= i < |calls| && IsAnnouncement(calls[i], k);
    assert more[i] == calls[i];
  }

  lemma DispatchedPairHasOrigin(s: System, k: S.SlotId)
    requires S.Enabled(s.sv, S.Dispatch) && k in ApplyServer(s, S.Dispatch).sv.slots && k !in s.sv.slots
    ensures HasOrigin(ApplyServer(s, S.Dispatch), k)
  {
    assert IsAnnouncement(ApplyServer(s, S.Dispatch).sv.calls[|s.sv.calls|], k);
  }

  /** A server step opens a pair only by OpenStream, which records it, or by announcing it. */
  lemma NewPairHasOrigin(s: System, a: S.Action, k: S.SlotId)
    requires S.Enabled(s.sv, a) && k in ApplyServer(s, a).sv.slots && k !in s.sv.slots
    ensures HasOrigin(ApplyServer(s, a), k)
  {
    if a.Dispatch? {
      DispatchedPairHasOrigin(s, k);
    }
  }

  lemma OpenedOnlyGrows(s: System, a: S.Action)
    requires S.Enabled(s.sv, a)
    ensures s.phpOpened <= ApplyServer(s, a).phpOpened && ApplyServer(s, a).sv == S.Apply(s.sv, a)
  {
  }

  lemma ServerKeepsOrigins(s: System, a: S.Action)
    requires S.ServerInv(s.sv) && OriginsOk(s) && S.Enabled(s.sv, a)
    ensures OriginsOk(ApplyServer(s, a))
  {
    var t := ApplyServer(s, a);
    OpenedOnlyGrows(s, a);
    S.StepAddsCalls(s.sv, a);
    S.StepRemembers(s.sv, a);
    forall k | k in t.sv.slots ensures HasOrigin(t, k) {
      if k !in s.sv.slots {
        NewPairHasOrigin(s, a, k);
      } else if Announced(s.sv.calls, k) {
        StaysAnnounced(s.sv.calls, t.sv.calls, k);
      }
    }
  }

  /** `k'` is another pair registered for the same stream of the same connection as `k`. */
  predicate Rivals(slots: map<S.SlotId, S.SlotInfo>, k: S.SlotId, k': S.SlotId) {
    && k in slots && k' in slots && k' != k
    && slots[k'].conn == slots[k].conn && slots[k'].stream == slots[k].stream
  }

  /** A pair is overwritten only by another one of the same stream. */
  ghost predicate RivalsOk(sv: S.Server) {
    forall k | k in sv.overwritten :: exists k' :: Rivals(sv.slots, k, k')
  }

  lemma OverwrittenByDispatch(sv: S.Server, k: S.SlotId)
    requires S.SlotsInv(sv) && S.Enabled(sv, S.Dispatch)
    requires k in S.ApplyDispatch(sv).overwritten && k !in sv.overwritten
    ensures Rivals(S.ApplyDispatch(sv).slots, k, sv.next)
  {
  }

  lemma NewlyOverwritten(sv: S.Server, a: S.Action, k: S.SlotId)
    requires S.SlotsInv(sv) && S.Enabled(sv, a) && k in S.Apply(sv, a).overwritten && k !in sv.overwritten
    ensures Rivals(S.Apply(sv, a).slots, k, sv.next)
  {
    if a.Dispatch? {
      OverwrittenByDispatch(sv, k);
    }
  }

  lemma StepKeepsRivals(sv: S.Server, a: S.Action)
    requires S.ServerInv(sv) && RivalsOk(sv) && S.Enabled(sv, a)
    ensures RivalsOk(S.Apply(sv, a))
  {
    S.StepRemembers(sv, a);
    forall k | k in S.Apply(sv, a).overwritten ensures exists k' :: Rivals(S.Apply(sv, a).slots, k, k') {
      if k in sv.overwritten {
        var k' :| Rivals(sv.slots, k, k');
        assert Rivals(S.Apply(sv, a).slots, k, k');
      } else {
        NewlyOverwritten(sv, a, k);
      }
    }
  }

  /** What this module keeps along a run, beside the invariant. */
  ghost predicate RoutingOk(s: System) {
    RoutesOk(s.sv) && OriginsOk(s) && RivalsOk(s.sv)
  }

  lemma OthersLeaveServer(s: System, a: Action)
    requires Enabled(s, a) && !a.Server?
    ensures Apply(s, a).sv == s.sv && Apply(s, a).phpOpened == s.phpOpened
  {
  }

  lemma StepKeepsRouting(s: System, a: Action)
    requires S.ServerInv(s.sv) && RoutingOk(s) && Enabled(s, a)
    ensures RoutingOk(Apply(s, a))
  {
    if a.Server? {
      OpenedOnlyGrows(s, a.sa);
      StepKeepsRoutes(s.sv, a.sa);
      ServerKeepsOrigins(s, a.sa);
      StepKeepsRivals(s.sv, a.sa);
    } else {
      OthersLeaveServer(s, a);
    }
  }

  lemma {:induction false} RunKeepsRouting(run: seq<System>, acts: seq<Action>, k: nat)
    requires Run(run, acts) && k <= |acts| && run[k].sv.accepts <= U64_VALUES
    ensures RoutingOk(run[k])
  {
    if k > 0 {
      assert Step(run[k - 1], acts[k - 1], run[k]);
      AcceptsGrow(run[k - 1], acts[k - 1]);
      RunKeepsRouting(run, acts, k - 1);
      RunKeepsInv(run, acts, k - 1);
      StepKeepsRouting(run[k - 1], acts[k - 1]);
    }
  }

  lemma ReachableKeepsRouting(s: System)
    requires Reachable(s) && s.sv.accepts <= U64_VALUES
    ensures RoutingOk(s) && S.ServerInv(s.sv)
  {
    var run, acts :| Run(run, acts) && s == run[|acts|];
    RunKeepsRouting(run, acts, |acts|);
    RunKeepsInv(run, acts, |acts|);
  }

  /** No misrouting: on every path, the pair that an on_stream call hands out, and the pair whose on_data
      is called, was registered on the live connection for the very stream of the event. */
  lemma CallsGoToTheirOwnPair(s: System, i: nat)
    requires Reachable(s) && s.sv.accepts <= U64_VALUES && i < |s.sv.calls|
    ensures var call := s.sv.calls[i];
            && (call.StreamCall? ==>
                  call.slot in s.sv.slots && s.sv.slots[call.slot] == S.SlotInfo(call.conn, call.ev.stream, true))
            && (call.DataCall? && call.target.Some? ==>
                  && call.target.value in s.sv.slots
                  && s.sv.slots[call.target.value] == S.SlotInfo(call.conn, call.stream, true))
  {
    ReachableKeepsRouting(s);
    assert RoutedTo(s.sv.slots, s.sv.calls[i]);
  }

  // ---- calls against positions in the event list of a connection ----

  lemma {:induction false} HandledPrefix(calls: seq<S.Call>, i: nat, c: ConnId)
    requires i <= |calls|
    ensures Handled(calls[..i], c) <= Handled(calls, c)
  {
    if i == |calls| {
      assert calls[..i] == calls;
    } else {
      HandledPrefix(calls[..|calls| - 1], i, c);
      assert calls[..|calls| - 1][..i] == calls[..i];
    }
  }

  /** The event of call `i` stands in the list of handled events right after those of earlier calls. */
  lemma HandledAt(calls: seq<S.Call>, i: nat, c: ConnId)
    requires i < |calls| && EventOf(calls[i], c).Some?
    ensures |Handled(calls[..i], c)| < |Handled(calls, c)|
    ensures Handled(calls, c)[|Handled(calls[..i], c)|] == EventOf(calls[i], c).value
  {
    HandledPrefix(calls, i + 1, c);
    assert calls[..i + 1] == calls[..i] + [calls[i]];
    HandledSnoc(calls[..i], calls[i], c);
  }

  lemma HandledMonotone(calls: seq<S.Call>, i: nat, j: nat, c: ConnId)
    requires i < j < |calls| && EventOf(calls[i], c).Some?
    ensures |Handled(calls[..i], c)| < |Handled(calls[..j], c)|
  {
    HandledAt(calls[..j], i, c);
    assert calls[..j][..i] == calls[..i];
  }

  lemma HandledIsPrefix(s: System, c: ConnId)
    requires CoreInv(s)
    ensures Handled(s.sv.calls, c) <= Of(s.log, c)
  {
    CutsInRange(s);
    assert CallsAt(s, c);
    OfPrefix(s.log, Cut(s, c), c);
  }

  lemma HandledWellFormed(s: System, c: ConnId)
    requires Reachable(s) && s.sv.accepts <= U64_VALUES
    ensures R.WellFormed(Handled(s.sv.calls, c))
  {
    ReachableKeepsInv(s);
    EventsWellFormed(s, c);
    HandledIsPrefix(s, c);
    R.PrefixWellFormed(Handled(s.sv.calls, c), Of(s.log, c));
  }

  /** Is `call` the on_stream call for stream `id` of `c`? */
  predicate Announces(call: S.Call, c: ConnId, id: StreamId) {
    call.StreamCall? && call.conn == c && call.ev.stream == id && !call.ev.Data?
  }

  predicate IsChunkOf(call: S.Call, c: ConnId, id: StreamId) {
    call.DataCall? && call.conn == c && call.stream == id
  }

  lemma AnnouncedOnce(s: System, i: nat, j: nat, c: ConnId, id: StreamId)
    requires Reachable(s) && s.sv.accepts <= U64_VALUES && i <= j < |s.sv.calls|
    requires Announces(s.sv.calls[i], c, id) && Announces(s.sv.calls[j], c, id)
    ensures i == j && id % 2 == 0
  {
    var calls := s.sv.calls;
    HandledWellFormed(s, c);
    HandledAt(calls, i, c);
    HandledAt(calls, j, c);
    R.AnnouncedOnceAndFirst(Handled(calls, c), |Handled(calls[..i], c)|);
    if i < j {
      HandledMonotone(calls, i, j, c);
    }
  }

  /** `k` is the only pair ever registered for stream `id` of `c`. */
  predicate OnlyPair(sv: S.Server, c: ConnId, id: StreamId, k: S.SlotId) {
    && k in sv.slots && sv.slots[k].conn == c && sv.slots[k].stream == id
    && forall k' | k' in sv.slots && sv.slots[k'].conn == c && sv.slots[k'].stream == id :: k' == k
  }

  /** A client-initiated stream that PHP did not open itself has only the pair it was announced with. */
  lemma AnnouncedPairIsOnly(s: System, i: nat, c: ConnId, id: StreamId)
    requires Reachable(s) && s.sv.accepts <= U64_VALUES && i < |s.sv.calls|
    requires Announces(s.sv.calls[i], c, id) && (c, id) !in s.phpOpened
    ensures OnlyPair(s.sv, c, id, s.sv.calls[i].slot)
  {
    ReachableKeepsRouting(s);
    assert RoutedTo(s.sv.slots, s.sv.calls[i]);
    forall k | k in s.sv.slots && s.sv.slots[k].conn == c && s.sv.slots[k].stream == id
      ensures k == s.sv.calls[i].slot
    {
      assert HasOrigin(s, k);
      var j :| 0 <= j < |s.sv.calls| && IsAnnouncement(s.sv.calls[j], k);
      assert RoutedTo(s.sv.slots, s.sv.calls[j]);
      if i <= j {
        AnnouncedOnce(s, i, j, c, id);
      } else {
        AnnouncedOnce(s, j, i, c, id);
      }
    }
  }

  /** Every chunk of a client-initiated stream that PHP did not open itself goes to the very pair that
      on_stream was given when the stream was announced, earlier. */
  lemma ChunksFollowTheirAnnouncement(s: System, j: nat, c: ConnId, id: StreamId)
    requires Reachable(s) && s.sv.accepts <= U64_VALUES && j < |s.sv.calls|
    requires IsChunkOf(s.sv.calls[j], c, id) && id % 2 == 0 && (c, id) !in s.phpOpened
    ensures s.sv.calls[j].target.Some?
    ensures exists i :: 0 <= i < j && Announces(s.sv.calls[i], c, id)
    ensures forall i | 0 <= i < |s.sv.calls| && Announces(s.sv.calls[i], c, id) ::
              s.sv.calls[j].target == Some(s.sv.calls[i].slot)
  {
    var calls := s.sv.calls;
    ReachableKeepsInv(s);
    ReachableKeepsRouting(s);
    assert RoutedTo(s.sv.slots, calls[j]);
    var k := calls[j].target.value;
    assert HasOrigin(s, k);
    var i :| 0 <= i < |calls| && IsAnnouncement(calls[i], k);
    assert RoutedTo(s.sv.slots, calls[i]);
    AnnouncementComesFirst(s, i, j, c, id);
    forall i' | 0 <= i' < |calls| && Announces(calls[i'], c, id) ensures calls[j].target == Some(calls[i'].slot) {
      AnnouncedPairIsOnly(s, i', c, id);
    }
  }

  lemma AnnouncementComesFirst(s: System, i: nat, j: nat, c: ConnId, id: StreamId)
    requires Reachable(s) && s.sv.accepts <= U64_VALUES && i < |s.sv.calls| && j < |s.sv.calls|
    requires Announces(s.sv.calls[i], c, id) && IsChunkOf(s.sv.calls[j], c, id)
    ensures i < j
  {
    var calls := s.sv.calls;
    var es := Handled(calls, c);
    var p, q := |Handled(calls[..i], c)|, |Handled(calls[..j], c)|;
    HandledWellFormed(s, c);
    HandledAt(calls, i, c);
    HandledAt(calls, j, c);
    R.AnnouncedOnceAndFirst(es, p);
    R.AnnouncedOnceAndFirst(es, q);
    var first :| 0 <= first < q && !es[first].Data? && es[first].stream == id;
    if j < i {
      HandledMonotone(calls, j, i, c);
    }
  }

  // ---- which callback hears a call ----

  function HookOf(call: S.Call): Option<(S.SlotId, S.Hook)> {
    match call
    case StreamCall(_, _, _) => None
    case DataCall(_, _, target, _, _) => if target.Some? then Some((target.value, S.DataHook)) else None
    case CloseCall(slot, _, _) => Some((slot, S.CloseHook))
  }

  predicate IsHeard(call: S.Call) {
    !call.StreamCall? && call.heard.Some?
  }

  /** From `early` on: callbacks stay installed, an installed callback hears every call to its slot, and a
      chunk of a stream opened by PHP finds a pair. */
  predicate Since(early: System, now: System) {
    && early.sv.calls <= now.sv.calls && early.sv.installed.Keys <= now.sv.installed.Keys
    && early.phpOpened <= now.phpOpened
    && forall i | |early.sv.calls| <= i < |now.sv.calls| :: Expected(early, now.sv.calls[i])
  }

  predicate Expected(early: System, call: S.Call) {
    && (HookOf(call).Some? && HookOf(call).value in early.sv.installed ==> IsHeard(call))
    && (call.DataCall? && (call.conn, call.stream) in early.phpOpened ==> call.target.Some?)
  }

  lemma NewCallListens(sv: S.Server, a: S.Action)
    requires S.Enabled(sv, a) && |S.Apply(sv, a).calls| > |sv.calls|
    ensures var call := S.Apply(sv, a).calls[|sv.calls|];
            HookOf(call).Some? ==> call.heard == S.Listener(sv.installed, HookOf(call).value.0, HookOf(call).value.1)
  {
  }

  lemma CallbacksStay(sv: S.Server, a: S.Action)
    requires S.Enabled(sv, a)
    ensures sv.installed.Keys <= S.Apply(sv, a).installed.Keys
  {
  }

  lemma NewChunk(s: System, a: S.Action)
    requires S.Enabled(s.sv, a) && |S.Apply(s.sv, a).calls| > |s.sv.calls|
    requires S.Apply(s.sv, a).calls[|s.sv.calls|].DataCall?
    ensures a.Dispatch? && s.sv.pc.ev.Data? && s.sv.pc.c in s.sv.connections
    ensures S.Apply(s.sv, a).calls[|s.sv.calls|] == S.ChunkCall(s.sv, s.sv.pc.c, s.sv.pc.ev.stream, s.sv.pc.ev.chunk)
  {
  }

  lemma LiveFindsPair(s: System)
    requires s.sv.pc.Dispatching? && s.sv.pc.ev.Data? && s.sv.pc.c in s.sv.connections
    requires s.taken <= |s.log| && PositionsOk(s) && KeysOk(s) && R.WellFormed(Of(s.log, s.sv.pc.c))
    ensures var c, id := s.sv.pc.c, s.sv.pc.ev.stream;
            id in S.MapOf(s.sv, c) <==> id % 2 == 0 || (c, id) in s.phpOpened
  {
    assert KeysAt(s, s.sv.pc.c, s.sv.pc.ev.stream);
    DataFindsPairIff(s, s.sv.pc.c, s.sv.pc.ev.stream);
  }

  lemma DispatchedFindsPair(s: System)
    requires CoreInv(s) && s.sv.pc.Dispatching? && s.sv.pc.ev.Data? && s.sv.pc.c in s.sv.connections
    ensures var c, id := s.sv.pc.c, s.sv.pc.ev.stream;
            id in S.MapOf(s.sv, c) <==> id % 2 == 0 || (c, id) in s.phpOpened
  {
    EventsWellFormed(s, s.sv.pc.c);
    LiveFindsPair(s);
  }

  lemma NewCallExpected(s: System, a: S.Action)
    requires CoreInv(s) && S.Enabled(s.sv, a) && |S.Apply(s.sv, a).calls| > |s.sv.calls|
    ensures Expected(s, S.Apply(s.sv, a).calls[|s.sv.calls|])
  {
    NewCallListens(s.sv, a);
    if S.Apply(s.sv, a).calls[|s.sv.calls|].DataCall? {
      NewChunk(s, a);
      DispatchedFindsPair(s);
    }
  }

  lemma SinceOneStep(s: System, t: System)
    requires s.sv.calls <= t.sv.calls && |t.sv.calls| <= |s.sv.calls| + 1
    requires s.sv.installed.Keys <= t.sv.installed.Keys && s.phpOpened <= t.phpOpened
    requires |t.sv.calls| > |s.sv.calls| ==> Expected(s, t.sv.calls[|s.sv.calls|])
    ensures Since(s, t)
  {
  }

  lemma ServerStepSince(s: System, a: S.Action)
    requires CoreInv(s) && S.Enabled(s.sv, a)
    ensures Since(s, ApplyServer(s, a))
  {
    OpenedOnlyGrows(s, a);
    S.StepAddsCalls(s.sv, a);
    CallbacksStay(s.sv, a);
    if |ApplyServer(s, a).sv.calls| > |s.sv.calls| {
      NewCallExpected(s, a);
    }
    SinceOneStep(s, ApplyServer(s, a));
  }

  lemma SinceTrans(early: System, mid: System, now: System)
    requires Since(early, mid) && Since(mid, now)
    ensures Since(early, now)
  {
    forall i | |early.sv.calls| <= i < |now.sv.calls| ensures Expected(early, now.sv.calls[i]) {
      if i < |mid.sv.calls| {
        assert now.sv.calls[i] == mid.sv.calls[i];
      } else {
        assert Expected(mid, now.sv.calls[i]);
      }
    }
  }

  lemma StepSince(s: System, a: Action)
    requires CoreInv(s) && Enabled(s, a)
    ensures Since(s, Apply(s, a))
  {
    if a.Server? {
      ServerStepSince(s, a.sa);
    } else {
      OthersLeaveServer(s, a);
    }
  }

  lemma {:induction false} SinceAlong(run: seq<System>, acts: seq<Action>, k: nat, m: nat)
    requires Run(run, acts) && k <= m <= |acts| && run[m].sv.accepts <= U64_VALUES
    ensures Since(run[k], run[m])
    decreases m, 1
  {
    if k < m {
      SinceOneMore(run, acts, k, m - 1);
    } else {
      SinceOneStep(run[k], run[k]);
    }
  }

  lemma {:induction false} SinceOneMore(run: seq<System>, acts: seq<Action>, k: nat, m: nat)
    requires Run(run, acts) && k <= m < |acts| && run[m + 1].sv.accepts <= U64_VALUES
    ensures Since(run[k], run[m + 1])
    decreases m + 1, 0
  {
    AcceptsGrowAlong(run, acts, m, m + 1);
    SinceAlong(run, acts, k, m);
    RunStepSince(run, acts, m);
    SinceTrans(run[k], run[m], run[m + 1]);
  }

  lemma RunStepSince(run: seq<System>, acts: seq<Action>, k: nat)
    requires Run(run, acts) && k < |acts| && run[k + 1].sv.accepts <= U64_VALUES
    ensures Since(run[k], run[k + 1])
  {
    assert Step(run[k], acts[k], run[k + 1]);
    AcceptsGrow(run[k], acts[k]);
    RunKeepsInv(run, acts, k);
    StepSince(run[k], acts[k]);
  }

  /** The items that the on_data callback in slot pair `k` heard, in order. */
  function HeardItems(calls: seq<S.Call>, k: S.SlotId): seq<Item> {
    if calls == [] then []
    else
      var last := calls[|calls| - 1];
      var before := HeardItems(calls[..|calls| - 1], k);
      if last.DataCall? && last.target == Some(k) && last.heard.Some? then before + Items(last.chunk) else before
  }

  predicate HeardAs(call: S.Call, c: ConnId, id: StreamId, k: S.SlotId) {
    IsChunkOf(call, c, id) <==> call.DataCall? && call.target == Some(k) && call.heard.Some?
  }

  lemma {:induction false} HeardIsHandled(calls: seq<S.Call>, c: ConnId, id: StreamId, k: S.SlotId)
    requires forall j | 0 <= j < |calls| :: HeardAs(calls[j], c, id, k)
    requires forall j | 0 <= j < |calls| && calls[j].StreamCall? :: !calls[j].ev.Data?
    ensures HeardItems(calls, k) == R.DataItems(Handled(calls, c), id)
  {
    if calls != [] {
      var m := |calls| - 1;
      assert forall j | 0 <= j < m :: calls[..m][j] == calls[j];
      HeardIsHandled(calls[..m], c, id, k);
      assert HeardAs(calls[m], c, id, k);
      if EventOf(calls[m], c).Some? {
        R.DataItemsSnoc(Handled(calls[..m], c), EventOf(calls[m], c).value, id);
      }
    }
  }

  /** The pair existed at step `h` with a callback in it, before any chunk of its stream was dispatched. */
  ghost predicate ListenedInTime(s: System, c: ConnId, id: StreamId, k: S.SlotId) {
    && k in s.sv.slots && (k, S.DataHook) in s.sv.installed
    && forall j | 0 <= j < |s.sv.calls| :: !IsChunkOf(s.sv.calls[j], c, id)
  }

  lemma ExistingPairIsExpected(s: System, c: ConnId, id: StreamId, k: S.SlotId)
    requires Reachable(s) && s.sv.accepts <= U64_VALUES
    requires k in s.sv.slots && s.sv.slots[k].conn == c && s.sv.slots[k].stream == id
    ensures id % 2 == 0 || (c, id) in s.phpOpened
  {
    ReachableKeepsRouting(s);
    assert HasOrigin(s, k);
    if (c, id) !in s.phpOpened {
      var i :| 0 <= i < |s.sv.calls| && IsAnnouncement(s.sv.calls[i], k);
      assert RoutedTo(s.sv.slots, s.sv.calls[i]);
      AnnouncedOnce(s, i, i, c, id);
    }
  }

  lemma ChunkHeard(early: System, s: System, c: ConnId, id: StreamId, k: S.SlotId, j: nat)
    requires Since(early, s) && RoutesOk(s.sv) && Targeted(s.sv.calls)
    requires ListenedInTime(early, c, id, k) && OnlyPair(s.sv, c, id, k)
    requires id % 2 == 0 || (c, id) in early.phpOpened
    requires j < |s.sv.calls|
    ensures HeardAs(s.sv.calls[j], c, id, k)
  {
    var call := s.sv.calls[j];
    assert RoutedTo(s.sv.slots, call);
    if j < |early.sv.calls| {
      assert early.sv.calls[j] == call && !IsChunkOf(call, c, id);
    } else {
      assert Expected(early, call);
    }
  }

  lemma EveryChunkHeard(run: seq<System>, acts: seq<Action>, h: nat, m: nat, c: ConnId, id: StreamId, k: S.SlotId)
    requires Run(run, acts) && h <= m <= |acts| && run[m].sv.accepts <= U64_VALUES
    requires ListenedInTime(run[h], c, id, k) && OnlyPair(run[m].sv, c, id, k)
    requires id % 2 == 0 || (c, id) in run[h].phpOpened
    ensures forall j | 0 <= j < |run[m].sv.calls| :: HeardAs(run[m].sv.calls[j], c, id, k)
    ensures RoutesOk(run[m].sv)
  {
    SinceAlong(run, acts, h, m);
    RunKeepsRouting(run, acts, m);
    RunKeepsTargets(run, acts, m);
    forall j | 0 <= j < |run[m].sv.calls| ensures HeardAs(run[m].sv.calls[j], c, id, k) {
      ChunkHeard(run[h], run[m], c, id, k, j);
    }
  }

  lemma RunKeepsTargets(run: seq<System>, acts: seq<Action>, k: nat)
    requires Run(run, acts) && k <= |acts| && run[k].sv.accepts <= U64_VALUES
    ensures Targeted(run[k].sv.calls)
  {
    RunKeepsInv(run, acts, k);
  }

  lemma RoutedHeardIsHandled(sv: S.Server, c: ConnId, id: StreamId, k: S.SlotId)
    requires RoutesOk(sv) && forall j | 0 <= j < |sv.calls| :: HeardAs(sv.calls[j], c, id, k)
    ensures HeardItems(sv.calls, k) == R.DataItems(Handled(sv.calls, c), id)
  {
    assert forall j | 0 <= j < |sv.calls| :: RoutedTo(sv.slots, sv.calls[j]);
    HeardIsHandled(sv.calls, c, id, k);
  }

  lemma SlotInfoStays(run: seq<System>, acts: seq<Action>, h: nat, m: nat, k: S.SlotId)
    requires Run(run, acts) && h <= m <= |acts| && run[m].sv.accepts <= U64_VALUES && k in run[h].sv.slots
    ensures k in run[m].sv.slots && run[m].sv.slots[k] == run[h].sv.slots[k]
    decreases m
  {
    if h < m {
      assert Step(run[m - 1], acts[m - 1], run[m]);
      AcceptsGrow(run[m - 1], acts[m - 1]);
      SlotInfoStays(run, acts, h, m - 1, k);
      RunKeepsInv(run, acts, m - 1);
      StepRemembersSlots(run[m - 1], acts[m - 1], k);
    }
  }

  lemma StepRemembersSlots(s: System, a: Action, k: S.SlotId)
    requires S.ServerInv(s.sv) && Enabled(s, a) && k in s.sv.slots
    ensures k in Apply(s, a).sv.slots && Apply(s, a).sv.slots[k] == s.sv.slots[k]
  {
    if a.Server? {
      OpenedOnlyGrows(s, a.sa);
      S.StepRemembers(s.sv, a.sa);
    } else {
      OthersLeaveServer(s, a);
    }
  }

  /** A callback hears its stream. If on_data was installed on the only pair of a stream before the first
      chunk of that stream was dispatched, then for ever after what the callback heard, then what is
      queued or was dropped, then what quiche still holds, is exactly what the peer sent, in order. */
  lemma CallbackHearsItsStream(run: seq<System>, acts: seq<Action>, h: nat, m: nat,
                               c: ConnId, id: StreamId, k: S.SlotId)
    requires Run(run, acts) && h <= m <= |acts| && run[m].sv.accepts <= U64_VALUES
    requires ListenedInTime(run[h], c, id, k) && OnlyPair(run[m].sv, c, id, k)
    ensures c in run[m].drivers && Cut(run[m], c) <= |run[m].log|
    ensures At(run[m].drivers[c].read.arrived, id)
         == HeardItems(run[m].sv.calls, k) + R.DataItems(Undelivered(run[m], c), id)
          + R.UnreadAt(run[m].drivers[c].read.rx, id)
  {
    var s := run[m];
    AcceptsGrowAlong(run, acts, h, m);
    PrefixRun(run, acts, h);
    PrefixRun(run, acts, m);
    SlotInfoStays(run, acts, h, m, k);
    ExistingPairIsExpected(run[h], c, id, k);
    EveryChunkHeard(run, acts, h, m, c, id, k);
    RoutedHeardIsHandled(s.sv, c, id, k);
    PairHasDriver(s, k);
    ReadsConserved(s, c, id);
  }

  lemma PairHasDriver(s: System, k: S.SlotId)
    requires Reachable(s) && s.sv.accepts <= U64_VALUES && k in s.sv.slots
    ensures s.sv.slots[k].conn in s.drivers
  {
    ReachableKeepsInv(s);
  }

  /** Every chunk that pair `k` heard is of stream `id` of `c`, and only New events are announced. */
  predicate HearsOnly(calls: seq<S.Call>, c: ConnId, id: StreamId, k: S.SlotId) {
    && (forall j | 0 <= j < |calls| && calls[j].DataCall? && calls[j].target == Some(k) :: IsChunkOf(calls[j], c, id))
    && (forall j | 0 <= j < |calls| && calls[j].StreamCall? :: !calls[j].ev.Data?)
  }

  lemma OneCallHeard(calls: seq<S.Call>, c: ConnId, id: StreamId, k: S.SlotId)
    requires calls != [] && HearsOnly(calls, c, id, k)
    ensures var m := |calls| - 1;
            && HearsOnly(calls[..m], c, id, k)
            && R.DataItems(Handled(calls, c), id)
               == R.DataItems(Handled(calls[..m], c), id) + ChunkItems(calls[m], c, id)
            && HeardItems(calls, k)
               == HeardItems(calls[..m], k) + if HeardAs(calls[m], c, id, k) then ChunkItems(calls[m], c, id) else []
  {
    var m := |calls| - 1;
    assert forall j | 0 <= j < m :: calls[..m][j] == calls[j];
    if EventOf(calls[m], c).Some? {
      R.DataItemsSnoc(Handled(calls[..m], c), EventOf(calls[m], c).value, id);
    }
  }

  function ChunkItems(call: S.Call, c: ConnId, id: StreamId): seq<Item> {
    if IsChunkOf(call, c, id) then Items(call.chunk) else []
  }

  lemma {:induction false} HeardAtMost(calls: seq<S.Call>, c: ConnId, id: StreamId, k: S.SlotId)
    requires HearsOnly(calls, c, id, k)
    ensures |HeardItems(calls, k)| <= |R.DataItems(Handled(calls, c), id)|
  {
    if calls != [] {
      OneCallHeard(calls, c, id, k);
      HeardAtMost(calls[..|calls| - 1], c, id, k);
    }
  }

  lemma {:induction false} OneUnheard(calls: seq<S.Call>, c: ConnId, id: StreamId, k: S.SlotId, j: nat)
    requires HearsOnly(calls, c, id, k) && j < |calls|
    requires IsChunkOf(calls[j], c, id) && Items(calls[j].chunk) != [] && !HeardAs(calls[j], c, id, k)
    ensures |HeardItems(calls, k)| < |R.DataItems(Handled(calls, c), id)|
  {
    var m := |calls| - 1;
    OneCallHeard(calls, c, id, k);
    if j == m {
      HeardAtMost(calls[..m], c, id, k);
    } else {
      assert calls[..m][j] == calls[j];
      OneUnheard(calls[..m], c, id, k, j);
    }
  }

  lemma HeardLess(sv: S.Server, c: ConnId, id: StreamId, k: S.SlotId, j: nat)
    requires RoutesOk(sv) && OnlyPair(sv, c, id, k) && j < |sv.calls|
    requires IsChunkOf(sv.calls[j], c, id) && Items(sv.calls[j].chunk) != [] && !HeardAs(sv.calls[j], c, id, k)
    ensures |HeardItems(sv.calls, k)| < |R.DataItems(Handled(sv.calls, c), id)|
  {
    forall i | 0 <= i < |sv.calls| && sv.calls[i].DataCall? && sv.calls[i].target == Some(k)
      ensures IsChunkOf(sv.calls[i], c, id)
    {
      assert RoutedTo(sv.slots, sv.calls[i]);
    }
    forall i | 0 <= i < |sv.calls| && sv.calls[i].StreamCall? ensures !sv.calls[i].ev.Data? {
      assert RoutedTo(sv.slots, sv.calls[i]);
    }
    OneUnheard(sv.calls, c, id, k, j);
  }

  /** What the callback in pair `k` heard, then what is undelivered, then what quiche holds, is exactly what
      the peer sent. */
  ghost predicate HearsAll(s: System, c: ConnId, id: StreamId, k: S.SlotId) {
    && c in s.drivers && Cut(s, c) <= |s.log|
    && At(s.drivers[c].read.arrived, id)
       == HeardItems(s.sv.calls, k) + R.DataItems(Undelivered(s, c), id) + R.UnreadAt(s.drivers[c].read.rx, id)
  }

  lemma HearingLessIsNotAll(s: System, c: ConnId, id: StreamId, k: S.SlotId)
    requires Reachable(s) && s.sv.accepts <= U64_VALUES && c in s.drivers
    requires |HeardItems(s.sv.calls, k)| < |R.DataItems(Handled(s.sv.calls, c), id)|
    ensures !HearsAll(s, c, id, k)
  {
    ReadsConserved(s, c, id);
  }

  lemma ReceivedChunkHasItems(s: System, id: StreamId, chunk: Chunk)
    requires CoreInv(s) && s.sv.pc.Dispatching? && s.sv.pc.ev == Data(id, chunk)
    ensures Items(chunk) != []
  {
    EventsWellFormed(s, s.sv.pc.c);
    ChunkIsLegal(s, s.sv.pc.c, id);
    O.EmptyItems(chunk);
  }

  lemma RunChunkHasItems(run: seq<System>, acts: seq<Action>, d: nat, id: StreamId, chunk: Chunk)
    requires Run(run, acts) && d <= |acts| && run[d].sv.accepts <= U64_VALUES
    requires run[d].sv.pc.Dispatching? && run[d].sv.pc.ev == Data(id, chunk)
    ensures Items(chunk) != []
  {
    RunKeepsInv(run, acts, d);
    ReceivedChunkHasItems(run[d], id, chunk);
  }

  /** The first chunk of a stream with one pair is heard exactly if the pair was there with a callback. */
  lemma FirstChunkHeardIff(run: seq<System>, acts: seq<Action>, d: nat, m: nat,
                           c: ConnId, id: StreamId, k: S.SlotId, chunk: Chunk)
    requires Run(run, acts) && d < m <= |acts| && run[m].sv.accepts <= U64_VALUES
    requires acts[d] == Server(S.Dispatch) && run[d].sv.pc == S.Dispatching(c, Data(id, chunk))
    requires c in run[d].sv.connections && OnlyPair(run[m].sv, c, id, k)
    ensures |run[d].sv.calls| < |run[m].sv.calls|
    ensures var call := run[m].sv.calls[|run[d].sv.calls|];
            && IsChunkOf(call, c, id) && call.chunk == chunk
            && (HeardAs(call, c, id, k) <==> k in run[d].sv.slots && (k, S.DataHook) in run[d].sv.installed)
  {
    var s := run[d];
    ChunkUnheardIff(run, acts, d, m, c, id, chunk);
    DispatchedCallStays(run, acts, d, m, c, id, chunk);
    AcceptsGrowAlong(run, acts, d, m);
    if id in S.MapOf(s.sv, c) {
      RegisteredHasInfo(run, acts, d, c, id);
      SlotInfoStays(run, acts, d, m, S.MapOf(s.sv, c)[id]);
    } else if k in s.sv.slots {
      SlotInfoStays(run, acts, d, m, k);
      PrefixRun(run, acts, d);
      ExistingPairIsExpected(s, c, id, k);
    }
  }

  lemma DispatchedCallStays(run: seq<System>, acts: seq<Action>, d: nat, m: nat,
                            c: ConnId, id: StreamId, chunk: Chunk)
    requires Run(run, acts) && d < m <= |acts| && run[m].sv.accepts <= U64_VALUES
    requires acts[d] == Server(S.Dispatch) && run[d].sv.pc == S.Dispatching(c, Data(id, chunk))
    requires c in run[d].sv.connections
    ensures |run[d].sv.calls| < |run[m].sv.calls|
    ensures run[m].sv.calls[|run[d].sv.calls|] == S.ChunkCall(run[d].sv, c, id, chunk)
  {
    assert Step(run[d], acts[d], run[d + 1]);
    SinceAlong(run, acts, d + 1, m);
    ChunkIsDispatched(run[d], c, id, chunk);
  }

  lemma RegisteredHasInfo(run: seq<System>, acts: seq<Action>, d: nat, c: ConnId, id: StreamId)
    requires Run(run, acts) && d <= |acts| && run[d].sv.accepts <= U64_VALUES && id in S.MapOf(run[d].sv, c)
    ensures var k := S.MapOf(run[d].sv, c)[id];
            k in run[d].sv.slots && run[d].sv.slots[k].conn == c && run[d].sv.slots[k].stream == id
  {
    RunKeepsInv(run, acts, d);
  }

  /** Exactly when: let `d` be the step that dispatches the first chunk of a stream that has one pair. From
      then on the callback hears the whole stream if and only if the pair was there with a callback at `d`. */
  lemma CallbackHearsItsStreamIff(run: seq<System>, acts: seq<Action>, d: nat, m: nat,
                                  c: ConnId, id: StreamId, k: S.SlotId, chunk: Chunk)
    requires Run(run, acts) && d < m <= |acts| && run[m].sv.accepts <= U64_VALUES
    requires acts[d] == Server(S.Dispatch) && run[d].sv.pc == S.Dispatching(c, Data(id, chunk))
    requires c in run[d].sv.connections && OnlyPair(run[m].sv, c, id, k)
    requires forall j | 0 <= j < |run[d].sv.calls| :: !IsChunkOf(run[d].sv.calls[j], c, id)
    ensures HearsAll(run[m], c, id, k) <==> k in run[d].sv.slots && (k, S.DataHook) in run[d].sv.installed
  {
    if k in run[d].sv.slots && (k, S.DataHook) in run[d].sv.installed {
      CallbackHearsItsStream(run, acts, d, m, c, id, k);
    } else {
      FirstChunkHeardIff(run, acts, d, m, c, id, k, chunk);
      AcceptsGrowAlong(run, acts, d, m);
      RunChunkHasItems(run, acts, d, id, chunk);
      RunKeepsRouting(run, acts, m);
      HeardLess(run[m].sv, c, id, k, |run[d].sv.calls|);
      PrefixRun(run, acts, m);
      PairHasDriver(run[m], k);
      HearingLessIsNotAll(run[m], c, id, k);
    }
  }

  /** The same for the pair handed to on_stream: a callback installed there in time hears the whole
      stream, whatever PHP does meanwhile except opening the peer's own stream id. */
  lemma AnnouncedCallbackHearsItsStream(run: seq<System>, acts: seq<Action>, h: nat, m: nat,
                                        c: ConnId, id: StreamId, i: nat)
    requires Run(run, acts) && h <= m <= |acts| && run[m].sv.accepts <= U64_VALUES
    requires i < |run[h].sv.calls| && Announces(run[h].sv.calls[i], c, id) && (c, id) !in run[m].phpOpened
    requires ListenedInTime(run[h], c, id, run[h].sv.calls[i].slot)
    ensures c in run[m].drivers && Cut(run[m], c) <= |run[m].log|
    ensures At(run[m].drivers[c].read.arrived, id)
         == HeardItems(run[m].sv.calls, run[h].sv.calls[i].slot) + R.DataItems(Undelivered(run[m], c), id)
          + R.UnreadAt(run[m].drivers[c].read.rx, id)
  {
    SinceAlong(run, acts, h, m);
    PrefixRun(run, acts, m);
    assert run[m].sv.calls[i] == run[h].sv.calls[i];
    AnnouncedPairIsOnly(run[m], i, c, id);
    CallbackHearsItsStream(run, acts, h, m, c, id, run[h].sv.calls[i].slot);
  }

  /** Which chunks no callback hears. The chunk dispatched in step `d` reaches no callback if and only if
      its stream is neither client-initiated nor opened by PHP so far (then there is no pair), or nothing
      was installed on the pair registered for it. */
  lemma ChunkUnheardIff(run: seq<System>, acts: seq<Action>, d: nat, m: nat, c: ConnId, id: StreamId, chunk: Chunk)
    requires Run(run, acts) && d < m <= |acts| && run[m].sv.accepts <= U64_VALUES
    requires acts[d] == Server(S.Dispatch) && run[d].sv.pc == S.Dispatching(c, Data(id, chunk))
    requires c in run[d].sv.connections
    ensures var s, j := run[d], |run[d].sv.calls|;
            && j < |run[m].sv.calls| && IsChunkOf(run[m].sv.calls[j], c, id) && run[m].sv.calls[j].chunk == chunk
            && (id in S.MapOf(s.sv, c) <==> id % 2 == 0 || (c, id) in s.phpOpened)
            && (run[m].sv.calls[j].heard.None? <==>
                  (id in S.MapOf(s.sv, c) ==> (S.MapOf(s.sv, c)[id], S.DataHook) !in s.sv.installed))
  {
    var s := run[d];
    assert Step(s, acts[d], run[d + 1]);
    AcceptsGrowAlong(run, acts, d, m);
    RunFindsPair(run, acts, d);
    SinceAlong(run, acts, d + 1, m);
    ChunkIsDispatched(s, c, id, chunk);
  }

  lemma RunFindsPair(run: seq<System>, acts: seq<Action>, d: nat)
    requires Run(run, acts) && d <= |acts| && run[d].sv.accepts <= U64_VALUES
    requires run[d].sv.pc.Dispatching? && run[d].sv.pc.ev.Data? && run[d].sv.pc.c in run[d].sv.connections
    ensures var c, id := run[d].sv.pc.c, run[d].sv.pc.ev.stream;
            id in S.MapOf(run[d].sv, c) <==> id % 2 == 0 || (c, id) in run[d].phpOpened
  {
    RunKeepsInv(run, acts, d);
    DispatchedFindsPair(run[d]);
  }

  lemma ChunkIsDispatched(s: System, c: ConnId, id: StreamId, chunk: Chunk)
    requires s.sv.pc == S.Dispatching(c, Data(id, chunk)) && c in s.sv.connections
    ensures ApplyServer(s, S.Dispatch).sv.calls == s.sv.calls + [S.ChunkCall(s.sv, c, id, chunk)]
  {
  }

  // ---- on_close ----

  function HeardCloses(calls: seq<S.Call>, k: S.SlotId): nat {
    if calls == [] then 0
    else
      var last := calls[|calls| - 1];
      HeardCloses(calls[..|calls| - 1], k) + if last.CloseCall? && last.slot == k && last.heard.Some? then 1 else 0
  }

  lemma {:induction false} AllClosesHeard(calls: seq<S.Call>, k: S.SlotId)
    requires forall j | 0 <= j < |calls| && calls[j].CloseCall? && calls[j].slot == k :: calls[j].heard.Some?
    ensures HeardCloses(calls, k) == S.FireCount(calls, k)
  {
    if calls != [] {
      var m := |calls| - 1;
      assert forall j | 0 <= j < m :: calls[..m][j] == calls[j];
      AllClosesHeard(calls[..m], k);
    }
  }

  /** The on_close callback of a pair runs exactly once, if it was installed before the pair was fired,
      once the connection is gone, for every pair registered live and not overwritten. */
  lemma OnCloseCallbackRunsOnce(run: seq<System>, acts: seq<Action>, h: nat, m: nat, k: S.SlotId)
    requires Run(run, acts) && h <= m <= |acts| && run[m].sv.accepts <= U64_VALUES
    requires k in run[h].sv.slots && (k, S.CloseHook) in run[h].sv.installed && S.FireCount(run[h].sv.calls, k) == 0
    requires k in run[m].sv.slots && run[m].sv.slots[k].conn in run[m].sv.removed
    requires !S.MapLocked(run[m].sv.pc, run[m].sv.slots[k].conn)
    ensures HeardCloses(run[m].sv.calls, k)
         == if run[m].sv.slots[k].live && k !in run[m].sv.overwritten then 1 else 0
  {
    SinceAlong(run, acts, h, m);
    RunKeepsInv(run, acts, m);
    S.FiredExactlyOnceOnceGone(run[m].sv, k);
    ClosesHeard(run[h], run[m], k);
  }

  lemma ClosesHeard(early: System, s: System, k: S.SlotId)
    requires Since(early, s) && (k, S.CloseHook) in early.sv.installed && S.FireCount(early.sv.calls, k) == 0
    ensures HeardCloses(s.sv.calls, k) == S.FireCount(s.sv.calls, k)
  {
    var calls := s.sv.calls;
    forall j | 0 <= j < |calls| && calls[j].CloseCall? && calls[j].slot == k ensures calls[j].heard.Some? {
      if j < |early.sv.calls| {
        assert early.sv.calls[j] == calls[j];
        S.FiredStaysCounted(early.sv.calls, j, k);
      } else {
        assert Expected(early, calls[j]);
      }
    }
    AllClosesHeard(calls, k);
  }

  lemma {:induction false} NoMoreCloses(calls: seq<S.Call>, more: seq<S.Call>, k: S.SlotId)
    requires calls <= more && S.FireCount(more, k) <= S.FireCount(calls, k)
    ensures HeardCloses(more, k) == HeardCloses(calls, k) && S.FireCount(more, k) == S.FireCount(calls, k)
    decreases |more|
  {
    if |calls| == |more| {
      assert calls == more;
    } else {
      FireCountGrows(calls, more[..|more| - 1], k);
      NoMoreCloses(calls, more[..|more| - 1], k);
    }
  }

  lemma {:induction false} FireCountGrows(calls: seq<S.Call>, more: seq<S.Call>, k: S.SlotId)
    requires calls <= more
    ensures S.FireCount(calls, k) <= S.FireCount(more, k)
    decreases |more|
  {
    if |calls| == |more| {
      assert calls == more;
    } else {
      FireCountGrows(calls, more[..|more| - 1], k);
    }
  }

  lemma {:induction false} HeardAtMostFired(calls: seq<S.Call>, k: S.SlotId)
    ensures HeardCloses(calls, k) <= S.FireCount(calls, k)
  {
    if calls != [] {
      HeardAtMostFired(calls[..|calls| - 1], k);
    }
  }

  /** The step that fires a pair runs its callback exactly if one is installed. */
  lemma FiringHeardIff(sv: S.Server, a: S.Action, k: S.SlotId)
    requires S.Enabled(sv, a) && S.FireCount(sv.calls, k) == 0 && S.FireCount(S.Apply(sv, a).calls, k) == 1
    ensures HeardCloses(S.Apply(sv, a).calls, k) == if (k, S.CloseHook) in sv.installed then 1 else 0
  {
    var calls' := S.Apply(sv, a).calls;
    S.StepAddsCalls(sv, a);
    HeardAtMostFired(sv.calls, k);
    assert calls' != sv.calls;
    assert calls'[..|sv.calls|] == sv.calls && |calls'| == |sv.calls| + 1;
    NewCallListens(sv, a);
  }

  /** Exactly when: let `d` be the step that fires a pair. For ever after its on_close callback has run once if
      one was installed at that step, and never otherwise. */
  lemma OnCloseCallbackRunsIff(run: seq<System>, acts: seq<Action>, d: nat, m: nat, k: S.SlotId)
    requires Run(run, acts) && d < m <= |acts| && run[m].sv.accepts <= U64_VALUES
    requires S.FireCount(run[d].sv.calls, k) == 0 && S.FireCount(run[d + 1].sv.calls, k) == 1
    ensures HeardCloses(run[m].sv.calls, k) == if (k, S.CloseHook) in run[d].sv.installed then 1 else 0
  {
    assert Step(run[d], acts[d], run[d + 1]);
    if acts[d].Server? {
      OpenedOnlyGrows(run[d], acts[d].sa);
      FiringHeardIff(run[d].sv, acts[d].sa, k);
    } else {
      OthersLeaveServer(run[d], acts[d]);
    }
    SinceAlong(run, acts, d + 1, m);
    FiredOnceAlong(run, acts, m, k);
    NoMoreCloses(run[d + 1].sv.calls, run[m].sv.calls, k);
  }

  lemma FiredOnceAlong(run: seq<System>, acts: seq<Action>, m: nat, k: S.SlotId)
    requires Run(run, acts) && m <= |acts| && run[m].sv.accepts <= U64_VALUES
    ensures S.FireCount(run[m].sv.calls, k) <= 1
  {
    RunKeepsInv(run, acts, m);
    S.FiredAtMostOnce(run[m].sv, k);
  }

  /** Exactly once, in terms of what PHP opens: the only pair of its stream is never overwritten, so once its
      connection is gone its on_close was fired exactly if it was registered while the connection was live. */
  lemma OnlyPairFiredOnce(s: System, c: ConnId, id: StreamId, k: S.SlotId)
    requires Reachable(s) && s.sv.accepts <= U64_VALUES && OnlyPair(s.sv, c, id, k)
    requires c in s.sv.removed && !S.MapLocked(s.sv.pc, c)
    ensures S.FireCount(s.sv.calls, k) == if s.sv.slots[k].live then 1 else 0
  {
    ReachableKeepsRouting(s);
    S.FiredExactlyOnceOnceGone(s.sv, k);
    assert !exists k' :: Rivals(s.sv.slots, k, k');
  }

  /** Hence exactly once for the pair of every announced stream whose id PHP did not open itself. */
  lemma AnnouncedPairFiredOnce(s: System, i: nat, c: ConnId, id: StreamId)
    requires Reachable(s) && s.sv.accepts <= U64_VALUES && i < |s.sv.calls|
    requires Announces(s.sv.calls[i], c, id) && (c, id) !in s.phpOpened
    requires c in s.sv.removed && !S.MapLocked(s.sv.pc, c)
    ensures S.FireCount(s.sv.calls, s.sv.calls[i].slot) == 1
  {
    AnnouncedPairIsOnly(s, i, c, id);
    CallsGoToTheirOwnPair(s, i);
    OnlyPairFiredOnce(s, c, id, s.sv.calls[i].slot);
  }

  // ---- replacing a callback ----

  /** `cb` sits in `hook`, and has heard every call to it from call `n` on. */
  predicate Hears(sv: S.Server, hook: (S.SlotId, S.Hook), cb: S.Callback, n: nat) {
    && hook in sv.installed && sv.installed[hook] == cb && n <= |sv.calls|
    && forall j | n <= j < |sv.calls| && HookOf(sv.calls[j]) == Some(hook) :: sv.calls[j].heard == Some(cb)
  }

  lemma InstalledAfterStep(sv: S.Server, a: S.Action, hook: (S.SlotId, S.Hook))
    requires S.Enabled(sv, a) && (a.Install? ==> (a.slot, a.hook) != hook) && hook in sv.installed
    ensures hook in S.Apply(sv, a).installed && S.Apply(sv, a).installed[hook] == sv.installed[hook]
  {
  }

  lemma HearsAfterStep(sv: S.Server, a: S.Action, hook: (S.SlotId, S.Hook), cb: S.Callback, n: nat)
    requires Hears(sv, hook, cb, n) && S.Enabled(sv, a) && (a.Install? ==> (a.slot, a.hook) != hook)
    ensures Hears(S.Apply(sv, a), hook, cb, n)
  {
    InstalledAfterStep(sv, a, hook);
    S.StepAddsCalls(sv, a);
    if |S.Apply(sv, a).calls| > |sv.calls| {
      NewCallListens(sv, a);
    }
  }

  lemma {:induction false} HearsAlong(run: seq<System>, acts: seq<Action>, h: nat, m: nat,
                                      hook: (S.SlotId, S.Hook))
    requires Run(run, acts) && h <= m <= |acts| && hook in run[h].sv.installed
    requires forall i | h <= i < m :: !Installs(acts[i], hook)
    ensures Hears(run[m].sv, hook, run[h].sv.installed[hook], |run[h].sv.calls|)
    decreases m
  {
    if h < m {
      assert Step(run[m - 1], acts[m - 1], run[m]);
      HearsAlong(run, acts, h, m - 1, hook);
      if acts[m - 1].Server? {
        assert !Installs(acts[m - 1], hook);
        OpenedOnlyGrows(run[m - 1], acts[m - 1].sa);
        HearsAfterStep(run[m - 1].sv, acts[m - 1].sa, hook, run[h].sv.installed[hook], |run[h].sv.calls|);
      } else {
        OthersLeaveServer(run[m - 1], acts[m - 1]);
      }
    }
  }

  predicate Installs(a: Action, hook: (S.SlotId, S.Hook)) {
    a.Server? && a.sa.Install? && (a.sa.slot, a.sa.hook) == hook
  }

  /** From the step in which PHP installs callback `cb` in a slot, and until it installs another one there,
      every call to that slot is heard by `cb`. */
  lemma InstalledCallbackHears(run: seq<System>, acts: seq<Action>, h: nat, m: nat,
                               slot: S.SlotId, hook: S.Hook, cb: S.Callback, i: nat)
    requires Run(run, acts) && h < m <= |acts| && acts[h] == Server(S.Install(slot, hook, cb))
    requires forall j | h < j < m :: !Installs(acts[j], (slot, hook))
    requires |run[h].sv.calls| <= i < |run[m].sv.calls| && HookOf(run[m].sv.calls[i]) == Some((slot, hook))
    ensures run[m].sv.calls[i].heard == Some(cb)
  {
    assert Step(run[h], acts[h], run[h + 1]);
    S.InstallStores(run[h].sv, slot, hook, cb);
    HearsAlong(run, acts, h + 1, m, (slot, hook));
  }
}
