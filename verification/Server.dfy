/** The PHP thread as a transition system: the server loop, event dispatch, both close paths, and
    the calls PHP code makes on stream objects, also from inside a running callback. */
module Server {
  import opened Types

  /** Identity of a pair of callback slots (the source allocates a fresh pair of shared cells). */
  type SlotId = nat

  /** Where and when a slot pair was registered; `live`: its connection was in `connections`. */
  datatype SlotInfo = SlotInfo(conn: ConnId, stream: StreamId, live: bool)

  datatype Hook = DataHook | CloseHook

  /** Identity of a PHP callable. */
  type Callback = nat

  type Installed = map<(SlotId, Hook), Callback>

  type SlotMap = map<StreamId, SlotId>

  /** History of dispatches; `heard`: the callback that was found in the slot and called, if any.
      A `DataCall` without a slot is a chunk for which no slot pair was registered. */
  datatype Call =
    | StreamCall(conn: ConnId, ev: DriverEvent, slot: SlotId)
    | DataCall(conn: ConnId, stream: StreamId, target: Option<SlotId>, chunk: Chunk, heard: Option<Callback>)
    | CloseCall(slot: SlotId, peer: bool, heard: Option<Callback>)

  datatype Pc =
    | Php                                    // PHP code outside tick
    | PollEvents | PollCloses | PollRest     // the arms of the biased select, in order
    | Accepting(c: ConnId)                   // driver started, record not inserted yet
    | Dispatching(c: ConnId, ev: DriverEvent)
    | InStream                               // the on_stream callback is running
    | InData(c: ConnId, s: StreamId, fin: bool, held: Option<SlotId>)
    | InFin(heldFin: SlotId)
    | Firing(c: ConnId, peer: bool, todo: SlotMap, held: Option<SlotId>, closing: bool)
    | Closing                                // inside close(), between two connections

  datatype Server = Server(
    connections: set<ConnId>,
    maps: map<ConnId, SlotMap>,              // the shared slot map of every connection ever accepted
    accepts: nat,                            // accepted connections; the source's counter is this mod 2^64
    listening: bool,
    installed: Installed,
    next: SlotId,
    pc: Pc,
    // history
    slots: map<SlotId, SlotInfo>,
    overwritten: set<SlotId>,
    removed: set<ConnId>,
    flags: map<ConnId, bool>,                // the peer flag with which a connection was closed
    calls: seq<Call>)

  const Initial: Server := Server({}, map[], 0, true, map[], 0, Php, map[], {}, {}, map[], [])

  datatype Action =
    | EnterTick
    | NoEvent | TakeEvent(c: ConnId, ev: DriverEvent)
    | NoClose | TakeClose(c: ConnId, peer: bool)
    | Accept | AcceptError | Sleep | Timer
    | Insert
    | Dispatch
    | CallbackDone
    | FireNext(s: StreamId) | FireDone
    | StartClose | CloseConn(c: ConnId) | EndClose
    | OpenStream(c: ConnId, s: StreamId)
    | Install(slot: SlotId, hook: Hook, cb: Callback)

  /** PHP code is running on the thread. */
  predicate UserCode(pc: Pc) {
    pc.Php? || pc.InStream? || pc.InFin? || ((pc.InData? || pc.Firing?) && pc.held.Some?)
  }

  /** The close paths hold the slot map of the connection they are draining. */
  predicate MapLocked(pc: Pc, c: ConnId) {
    pc.Firing? && pc.c == c
  }

  /** The slot whose callback is running stays locked during the call. */
  predicate SlotLocked(pc: Pc, slot: SlotId, hook: Hook) {
    || (pc.InData? && pc.held == Some(slot) && hook == DataHook)
    || (pc.InFin? && pc.heldFin == slot && hook == CloseHook)
    || (pc.Firing? && pc.held == Some(slot) && hook == CloseHook)
  }

  /** The value of the 64-bit counter after `n` increments. */
  function ConnIdOf(n: nat): ConnId {
    n % U64_VALUES
  }

  function MapOf(sv: Server, c: ConnId): SlotMap {
    if c in sv.maps then sv.maps[c] else map[]
  }

  predicate Enabled(sv: Server, a: Action) {
    match a
    case EnterTick => sv.pc.Php?
    case NoEvent => sv.pc.PollEvents?
    case TakeEvent(_, _) => sv.pc.PollEvents?
    case NoClose => sv.pc.PollCloses?
    case TakeClose(_, _) => sv.pc.PollCloses?
    case Accept => sv.pc.PollRest? && sv.listening
    case AcceptError => sv.pc.PollRest? && sv.listening
    case Sleep => sv.pc.PollRest?
    case Timer => sv.pc.PollRest?
    case Insert => sv.pc.Accepting?
    case Dispatch => sv.pc.Dispatching?
    case CallbackDone => sv.pc.InStream? || sv.pc.InData? || sv.pc.InFin?
    case FireNext(s) => sv.pc.Firing? && s in sv.pc.todo
    case FireDone => sv.pc.Firing? && sv.pc.todo == map[]
    case StartClose => sv.pc.Php?
    case CloseConn(c) => sv.pc.Closing? && c in sv.connections
    case EndClose => sv.pc.Closing? && sv.connections == {}
    case OpenStream(c, _) => UserCode(sv.pc) && c in sv.maps && !MapLocked(sv.pc, c)
    case Install(slot, hook, _) => UserCode(sv.pc) && slot < sv.next && !SlotLocked(sv.pc, slot, hook)
  }

  /** Insert a fresh slot pair into the map of `c`, replacing whatever was registered for `s`. */
  function Register(sv: Server, c: ConnId, s: StreamId): Server {
    var m := MapOf(sv, c);
    sv.(maps := sv.maps[c := m[s := sv.next]],
        next := sv.next + 1,
        slots := sv.slots[sv.next := SlotInfo(c, s, c in sv.connections)],
        overwritten := if s in m then sv.overwritten + {m[s]} else sv.overwritten)
  }

  /** The callback currently in a slot. */
  function Listener(installed: Installed, slot: SlotId, hook: Hook): Option<Callback> {
    if (slot, hook) in installed then Some(installed[(slot, hook)]) else None
  }

  function FireCall(sv: Server, slot: SlotId, peer: bool): Call {
    CloseCall(slot, peer, Listener(sv.installed, slot, CloseHook))
  }

  /** Take `c` out of `connections` and its slots out of its map; they are about to be fired. */
  function Detach(sv: Server, c: ConnId, peer: bool, closing: bool): Server {
    sv.(connections := sv.connections - {c},
        removed := sv.removed + {c},
        flags := sv.flags[c := peer],
        maps := sv.maps[c := map[]],
        pc := Firing(c, peer, MapOf(sv, c), None, closing))
  }

  /** The FIN path: remove the slot pair of `s` and fire its on_close. */
  function FireFin(sv: Server, c: ConnId, s: StreamId): Server
    requires s in MapOf(sv, c)
  {
    var slot := MapOf(sv, c)[s];
    sv.(maps := sv.maps[c := MapOf(sv, c) - {s}],
        calls := sv.calls + [FireCall(sv, slot, true)],
        pc := InFin(slot))
  }

  function FireOne(sv: Server, s: StreamId): Server
    requires Enabled(sv, FireNext(s))
  {
    var slot := sv.pc.todo[s];
    sv.(calls := sv.calls + [FireCall(sv, slot, sv.pc.peer)],
        pc := sv.pc.(todo := sv.pc.todo - {s}, held := Some(slot)))
  }

  function ChunkCall(sv: Server, c: ConnId, s: StreamId, chunk: Chunk): Call {
    var m := MapOf(sv, c);
    if s in m then DataCall(c, s, Some(m[s]), chunk, Listener(sv.installed, m[s], DataHook))
    else DataCall(c, s, None, chunk, None)
  }

  function DispatchData(sv: Server, c: ConnId, s: StreamId, chunk: Chunk): Server {
    var call := ChunkCall(sv, c, s, chunk);
    sv.(calls := sv.calls + [call], pc := InData(c, s, chunk.fin, call.target))
  }

  function ApplyDispatch(sv: Server): Server
    requires sv.pc.Dispatching?
  {
    var c := sv.pc.c;
    if c !in sv.connections then sv.(pc := PollEvents)  // late event: dropped
    else
      match sv.pc.ev
      case Data(s, chunk) => DispatchData(sv, c, s, chunk)
      case _ =>
        var s := sv.pc.ev.stream;
        Register(sv, c, s).(calls := sv.calls + [StreamCall(c, sv.pc.ev, sv.next)], pc := InStream)
  }

  function Apply(sv: Server, a: Action): Server
    requires Enabled(sv, a)
  {
    match a
    case EnterTick => sv.(pc := PollEvents)
    case NoEvent => sv.(pc := PollCloses)
    case TakeEvent(c, ev) => sv.(pc := Dispatching(c, ev))
    case NoClose => sv.(pc := PollRest)
    case TakeClose(c, peer) =>
      if c in sv.connections then Detach(sv, c, peer, false) else sv.(pc := PollEvents)
    case Accept =>
      var c := ConnIdOf(sv.accepts);
      sv.(accepts := sv.accepts + 1, maps := sv.maps[c := map[]], pc := Accepting(c))
    case AcceptError => sv.(pc := PollEvents)
    case Sleep => sv.(pc := PollEvents)
    case Timer => sv.(pc := Php)
    case Insert => sv.(connections := sv.connections + {sv.pc.c}, pc := PollEvents)
    case Dispatch => ApplyDispatch(sv)
    case CallbackDone =>
      if sv.pc.InData? && sv.pc.fin && sv.pc.s in MapOf(sv, sv.pc.c) then FireFin(sv, sv.pc.c, sv.pc.s)
      else sv.(pc := PollEvents)
    case FireNext(s) => FireOne(sv, s)
    case FireDone => sv.(pc := if sv.pc.closing then Closing else PollEvents)
    case StartClose => sv.(pc := Closing)
    case CloseConn(c) => Detach(sv, c, false, true)
    case EndClose => sv.(listening := false, pc := Php)
    case OpenStream(c, s) => Register(sv, c, s)
    case Install(slot, hook, cb) => sv.(installed := sv.installed[(slot, hook) := cb])
  }

  // ---- reference notions on the history ----

  /** How often on_close of `slot` was fired. */
  function FireCount(calls: seq<Call>, slot: SlotId): nat {
    if calls == [] then 0
    else
      var last := calls[|calls| - 1];
      FireCount(calls[..|calls| - 1], slot) + if last.CloseCall? && last.slot == slot then 1 else 0
  }

  predicate Present(sv: Server, k: SlotId) {
    && k in sv.slots
    && var i := sv.slots[k];
       i.stream in MapOf(sv, i.conn) && MapOf(sv, i.conn)[i.stream] == k
  }

  predicate BeingFired(sv: Server, k: SlotId) {
    && k in sv.slots && sv.pc.Firing? && sv.slots[k].conn == sv.pc.c
    && sv.slots[k].stream in sv.pc.todo && sv.pc.todo[sv.slots[k].stream] == k
  }

  function Count(b: bool): nat {
    if b then 1 else 0
  }

  // ---- the invariant ----

  ghost predicate DomainsOk(sv: Server) {
    && sv.connections !! sv.removed
    && sv.maps.Keys == sv.connections + sv.removed + (if sv.pc.Accepting? then {sv.pc.c} else {})
    && (sv.pc.Accepting? ==> sv.pc.c !in sv.connections + sv.removed && MapOf(sv, sv.pc.c) == map[])
    && (forall c | c in sv.maps :: c < sv.accepts)
    && (sv.pc.InData? ==> sv.pc.c in sv.connections)
    && (sv.pc.Firing? ==> sv.pc.c in sv.removed && sv.maps[sv.pc.c] == map[])
  }

  /** Every registered slot pair sits under its own connection and stream, and a slot of a
      connection that is gone was registered after the connection was gone. */
  ghost predicate PlacesOk(sv: Server) {
    && (forall k | k in sv.slots :: k < sv.next && sv.slots[k].conn in sv.maps)
    && (forall c, s | c in sv.maps && s in sv.maps[c] ::
          && sv.maps[c][s] in sv.slots
          && sv.slots[sv.maps[c][s]] == SlotInfo(c, s, c in sv.connections))
    && (sv.pc.Firing? ==> forall s | s in sv.pc.todo ::
          && sv.pc.todo[s] in sv.slots
          && sv.slots[sv.pc.todo[s]] == SlotInfo(sv.pc.c, s, true))
  }

  /** A slot pair is in exactly one place: registered, about to be fired, overwritten, or fired. */
  ghost predicate BalancedAt(sv: Server, k: SlotId) {
    if k in sv.slots then
      && Count(Present(sv, k)) + Count(BeingFired(sv, k)) + Count(k in sv.overwritten)
         + FireCount(sv.calls, k) == 1
      && (FireCount(sv.calls, k) == 1 ==> sv.slots[k].live)
    else
      k !in sv.overwritten && FireCount(sv.calls, k) == 0
  }

  /** on_data is never called on a slot pair whose on_close was fired. */
  ghost predicate Silent(calls: seq<Call>) {
    forall i {:trigger calls[i]} | 0 <= i < |calls| && calls[i].DataCall? && calls[i].target.Some? ::
      FireCount(calls[..i], calls[i].target.value) == 0
  }

  ghost predicate SlotsInv(sv: Server) {
    DomainsOk(sv) && PlacesOk(sv) && (forall k :: BalancedAt(sv, k)) && Silent(sv.calls)
  }

  /** Does `call` report a FIN of stream `s`? */
  predicate IsFinOf(call: Call, c: ConnId, s: StreamId) {
    call.DataCall? && call.conn == c && call.stream == s && call.chunk.fin
  }

  predicate FinSeen(calls: seq<Call>, c: ConnId, s: StreamId) {
    exists j :: 0 <= j < |calls| && IsFinOf(calls[j], c, s)
  }

  /** The reason an on_close call gives: a FIN of its stream, or the flag its connection closed with. */
  predicate Justified(sv: Server, call: Call) {
    call.CloseCall? ==>
      && call.slot in sv.slots
      && var i := sv.slots[call.slot];
         (call.peer && FinSeen(sv.calls, i.conn, i.stream)) || (i.conn in sv.flags && sv.flags[i.conn] == call.peer)
  }

  predicate FlagDomains(sv: Server) {
    && sv.flags.Keys == sv.removed
    && (sv.pc.Firing? ==> sv.pc.c in sv.flags && sv.flags[sv.pc.c] == sv.pc.peer)
  }

  ghost predicate FlagsOk(sv: Server) {
    && FlagDomains(sv)
    && (sv.pc.InData? && sv.pc.fin ==> FinSeen(sv.calls, sv.pc.c, sv.pc.s))
    && (forall i | 0 <= i < |sv.calls| :: Justified(sv, sv.calls[i]))
  }

  ghost predicate ServerInv(sv: Server) {
    SlotsInv(sv) && FlagsOk(sv)
  }

  lemma FireCountSnoc(calls: seq<Call>, call: Call, k: SlotId)
    ensures FireCount(calls + [call], k)
         == FireCount(calls, k) + if call.CloseCall? && call.slot == k then 1 else 0
  {
    assert (calls + [call])[..|calls|] == calls;
  }

  lemma SilentSnoc(calls: seq<Call>, call: Call)
    requires Silent(calls)
    requires call.DataCall? && call.target.Some? ==> FireCount(calls, call.target.value) == 0
    ensures Silent(calls + [call])
  {
    var more := calls + [call];
    forall i {:trigger more[i]} | 0 <= i < |more| && more[i].DataCall? && more[i].target.Some?
      ensures FireCount(more[..i], more[i].target.value) == 0
    {
      assert more[..i] == if i < |calls| then calls[..i] else calls;
      if i < |calls| { assert more[i] == calls[i]; }
    }
  }

  // ---- each kind of change keeps the invariant ----

  lemma RegisterKeepsInv(sv: Server, c: ConnId, s: StreamId)
    requires SlotsInv(sv) && c in sv.maps && !sv.pc.Accepting? && !MapLocked(sv.pc, c)
    ensures SlotsInv(Register(sv, c, s))
  {
    var sv' := Register(sv, c, s);
    forall k ensures BalancedAt(sv', k) {
      assert BalancedAt(sv, k) && BalancedAt(sv, sv.next);
    }
  }

  lemma DetachKeepsInv(sv: Server, c: ConnId, peer: bool, closing: bool)
    requires SlotsInv(sv) && c in sv.connections && (sv.pc.PollCloses? || sv.pc.Closing?)
    ensures SlotsInv(Detach(sv, c, peer, closing))
  {
    var sv' := Detach(sv, c, peer, closing);
    forall k ensures BalancedAt(sv', k) {
      assert BalancedAt(sv, k);
    }
  }

  lemma FireFinKeepsInv(sv: Server, c: ConnId, s: StreamId)
    requires SlotsInv(sv) && c in sv.connections && s in MapOf(sv, c) && sv.pc.InData?
    ensures SlotsInv(FireFin(sv, c, s))
  {
    var sv' := FireFin(sv, c, s);
    var call := sv'.calls[|sv.calls|];
    forall k ensures BalancedAt(sv', k) {
      assert BalancedAt(sv, k);
      FireCountSnoc(sv.calls, call, k);
    }
    SilentSnoc(sv.calls, call);
  }

  lemma FireOneKeepsInv(sv: Server, s: StreamId)
    requires SlotsInv(sv) && Enabled(sv, FireNext(s))
    ensures SlotsInv(FireOne(sv, s))
  {
    var sv' := FireOne(sv, s);
    var call := sv'.calls[|sv.calls|];
    forall k ensures BalancedAt(sv', k) {
      assert BalancedAt(sv, k);
      FireCountSnoc(sv.calls, call, k);
    }
    SilentSnoc(sv.calls, call);
  }

  lemma DispatchDataKeepsInv(sv: Server, c: ConnId, s: StreamId, chunk: Chunk)
    requires SlotsInv(sv) && c in sv.connections && sv.pc.Dispatching?
    ensures SlotsInv(DispatchData(sv, c, s, chunk))
  {
    var sv' := DispatchData(sv, c, s, chunk);
    var call := sv'.calls[|sv.calls|];
    forall k ensures BalancedAt(sv', k) {
      assert BalancedAt(sv, k);
      FireCountSnoc(sv.calls, call, k);
    }
    if s in MapOf(sv, c) {
      assert BalancedAt(sv, MapOf(sv, c)[s]);
    }
    SilentSnoc(sv.calls, call);
  }

  lemma NewStreamKeepsInv(sv: Server)
    requires SlotsInv(sv) && sv.pc.Dispatching? && sv.pc.c in sv.connections && !sv.pc.ev.Data?
    ensures SlotsInv(ApplyDispatch(sv))
  {
    var c, s := sv.pc.c, sv.pc.ev.stream;
    var r := Register(sv, c, s);
    var sv' := ApplyDispatch(sv);
    RegisterKeepsInv(sv, c, s);
    var call := StreamCall(c, sv.pc.ev, sv.next);
    forall k ensures BalancedAt(sv', k) {
      assert BalancedAt(r, k);
      FireCountSnoc(sv.calls, call, k);
    }
    SilentSnoc(sv.calls, call);
  }

  /** Steps that neither touch a slot nor call anything. */
  lemma QuietStepKeepsInv(sv: Server, sv': Server)
    requires SlotsInv(sv) && DomainsOk(sv')
    requires sv'.slots == sv.slots && sv'.next == sv.next
    requires sv'.overwritten == sv.overwritten && sv'.calls == sv.calls
    requires forall c :: MapOf(sv', c) == MapOf(sv, c)
    requires forall c | MapOf(sv, c) != map[] :: c in sv'.connections <==> c in sv.connections
    requires sv.maps.Keys <= sv'.maps.Keys
    requires sv'.pc == sv.pc || (!sv'.pc.Firing? && (sv.pc.Firing? ==> sv.pc.todo == map[]))
    ensures SlotsInv(sv')
  {
    assert forall c | c in sv'.maps :: sv'.maps[c] == MapOf(sv, c);
    forall k ensures BalancedAt(sv', k) {
      assert BalancedAt(sv, k);
    }
  }

  predicate Quiet(sv: Server, a: Action) {
    match a
    case OpenStream(_, _) => false
    case FireNext(_) => false
    case CloseConn(_) => false
    case TakeClose(c, _) => c !in sv.connections
    case CallbackDone => !(sv.pc.InData? && sv.pc.fin && sv.pc.s in MapOf(sv, sv.pc.c))
    case Dispatch => sv.pc.Dispatching? && sv.pc.c !in sv.connections
    case _ => true
  }

  predicate Step(sv: Server, a: Action, sv': Server) {
    Enabled(sv, a) && sv' == Apply(sv, a)
  }

  lemma QuietKeepsDomains(sv: Server, a: Action)
    requires DomainsOk(sv) && Enabled(sv, a) && Quiet(sv, a) && Apply(sv, a).accepts <= U64_VALUES
    ensures DomainsOk(Apply(sv, a))
  {
    assert a.Accept? ==> ConnIdOf(sv.accepts) == sv.accepts;
  }

  lemma QuietLeavesSlots(sv: Server, a: Action)
    requires DomainsOk(sv) && Enabled(sv, a) && Quiet(sv, a) && Apply(sv, a).accepts <= U64_VALUES
    ensures var sv' := Apply(sv, a);
            && sv'.slots == sv.slots && sv'.next == sv.next
            && sv'.overwritten == sv.overwritten && sv'.calls == sv.calls
            && (sv'.pc == sv.pc || (!sv'.pc.Firing? && (sv.pc.Firing? ==> sv.pc.todo == map[])))
  {
  }

  lemma AcceptLeavesMaps(sv: Server)
    requires DomainsOk(sv) && Enabled(sv, Accept) && Apply(sv, Accept).accepts <= U64_VALUES
    ensures var sv' := Apply(sv, Accept);
            && (forall c :: MapOf(sv', c) == MapOf(sv, c)) && sv.maps.Keys <= sv'.maps.Keys
            && forall c | MapOf(sv, c) != map[] :: c in sv'.connections <==> c in sv.connections
  {
    assert ConnIdOf(sv.accepts) == sv.accepts;
  }

  lemma QuietLeavesMaps(sv: Server, a: Action)
    requires DomainsOk(sv) && Enabled(sv, a) && Quiet(sv, a) && Apply(sv, a).accepts <= U64_VALUES
    ensures var sv' := Apply(sv, a);
            && (forall c :: MapOf(sv', c) == MapOf(sv, c)) && sv.maps.Keys <= sv'.maps.Keys
            && forall c | MapOf(sv, c) != map[] :: c in sv'.connections <==> c in sv.connections
  {
    if a.Accept? {
      AcceptLeavesMaps(sv);
    }
  }

  lemma QuietActionKeepsInv(sv: Server, a: Action)
    requires SlotsInv(sv) && Enabled(sv, a) && Quiet(sv, a) && Apply(sv, a).accepts <= U64_VALUES
    ensures SlotsInv(Apply(sv, a))
  {
    QuietKeepsDomains(sv, a);
    QuietLeavesSlots(sv, a);
    QuietLeavesMaps(sv, a);
    QuietStepKeepsInv(sv, Apply(sv, a));
  }

  lemma StepKeepsSlots(sv: Server, a: Action)
    requires SlotsInv(sv) && Enabled(sv, a) && Apply(sv, a).accepts <= U64_VALUES
    ensures SlotsInv(Apply(sv, a))
  {
    if Quiet(sv, a) {
      QuietActionKeepsInv(sv, a);
    } else {
      match a
      case OpenStream(c, s) => RegisterKeepsInv(sv, c, s);
      case TakeClose(c, peer) => DetachKeepsInv(sv, c, peer, false);
      case CloseConn(c) => DetachKeepsInv(sv, c, false, true);
      case FireNext(s) => FireOneKeepsInv(sv, s);
      case CallbackDone => FireFinKeepsInv(sv, sv.pc.c, sv.pc.s);
      case Dispatch =>
        if sv.pc.ev.Data? {
          DispatchDataKeepsInv(sv, sv.pc.c, sv.pc.ev.stream, sv.pc.ev.chunk);
        } else {
          NewStreamKeepsInv(sv);
        }
    }
  }

  /** Nothing that justifies an on_close call is ever forgotten. */
  lemma StaysJustified(sv: Server, sv': Server, call: Call)
    requires Justified(sv, call) && sv.calls <= sv'.calls
    requires forall k | k in sv.slots :: k in sv'.slots && sv'.slots[k] == sv.slots[k]
    requires forall c | c in sv.flags :: c in sv'.flags && sv'.flags[c] == sv.flags[c]
    ensures Justified(sv', call)
  {
    if call.CloseCall? && FinSeen(sv.calls, sv.slots[call.slot].conn, sv.slots[call.slot].stream) {
      var i := sv.slots[call.slot];
      var j :| 0 <= j < |sv.calls| && IsFinOf(sv.calls[j], i.conn, i.stream);
      assert IsFinOf(sv'.calls[j], i.conn, i.stream);
    }
  }

  lemma StepAddsCalls(sv: Server, a: Action)
    requires Enabled(sv, a)
    ensures sv.calls <= Apply(sv, a).calls && |Apply(sv, a).calls| <= |sv.calls| + 1
  {
  }

  /** A step forgets no slot and no flag. */
  lemma StepRemembers(sv: Server, a: Action)
    requires (forall k | k in sv.slots :: k < sv.next) && sv.connections !! sv.removed && sv.flags.Keys == sv.removed
    requires Enabled(sv, a)
    ensures var sv' := Apply(sv, a);
            && (forall k | k in sv.slots :: k in sv'.slots && sv'.slots[k] == sv.slots[k])
            && (forall c | c in sv.flags :: c in sv'.flags && sv'.flags[c] == sv.flags[c])
  {
  }

  lemma NewCallJustified(sv: Server, a: Action)
    requires SlotsInv(sv) && FlagsOk(sv) && Enabled(sv, a) && |Apply(sv, a).calls| == |sv.calls| + 1
    ensures Justified(Apply(sv, a), Apply(sv, a).calls[|sv.calls|])
  {
    var sv' := Apply(sv, a);
    if a.CallbackDone? {
      var j :| 0 <= j < |sv.calls| && IsFinOf(sv.calls[j], sv.pc.c, sv.pc.s);
      assert IsFinOf(sv'.calls[j], sv.pc.c, sv.pc.s);
    }
  }

  /** Either the flags are left alone, and a close path that is running goes on or ends, or a connection is
      detached. */
  lemma FlagsAfterStep(sv: Server, a: Action)
    requires Enabled(sv, a) && !a.TakeClose? && !a.CloseConn?
    ensures Apply(sv, a).flags == sv.flags && Apply(sv, a).removed == sv.removed
  {
    if a.Dispatch? {
      DispatchLeavesFlags(sv);
    }
  }

  lemma DispatchLeavesFlags(sv: Server)
    requires sv.pc.Dispatching?
    ensures ApplyDispatch(sv).flags == sv.flags && ApplyDispatch(sv).removed == sv.removed
  {
  }

  lemma FiringAfterStep(sv: Server, a: Action)
    requires Enabled(sv, a) && !a.TakeClose? && !a.CloseConn?
    ensures Apply(sv, a).pc.Firing? ==>
              sv.pc.Firing? && Apply(sv, a).pc.c == sv.pc.c && Apply(sv, a).pc.peer == sv.pc.peer
  {
  }

  lemma StepKeepsFlagDomains(sv: Server, a: Action)
    requires FlagDomains(sv) && Enabled(sv, a)
    ensures FlagDomains(Apply(sv, a))
  {
    if a.TakeClose? || a.CloseConn? {
      DetachKeepsFlagDomains(sv, a);
    } else {
      FlagsAfterStep(sv, a);
      FiringAfterStep(sv, a);
    }
  }

  lemma DetachKeepsFlagDomains(sv: Server, a: Action)
    requires FlagDomains(sv) && Enabled(sv, a) && (a.TakeClose? || a.CloseConn?)
    ensures FlagDomains(Apply(sv, a))
  {
  }

  lemma StepKeepsFinSeen(sv: Server, a: Action)
    requires FlagsOk(sv) && Enabled(sv, a)
    ensures var sv' := Apply(sv, a); sv'.pc.InData? && sv'.pc.fin ==> FinSeen(sv'.calls, sv'.pc.c, sv'.pc.s)
  {
    if a.Dispatch? && sv.pc.c in sv.connections && sv.pc.ev.Data? {
      assert sv.pc.ev.chunk.fin ==> IsFinOf(Apply(sv, a).calls[|sv.calls|], sv.pc.c, sv.pc.ev.stream);
    }
  }

  lemma StepKeepsFlags(sv: Server, a: Action)
    requires SlotsInv(sv) && FlagsOk(sv) && Enabled(sv, a)
    ensures FlagsOk(Apply(sv, a))
  {
    var sv' := Apply(sv, a);
    StepAddsCalls(sv, a);
    StepRemembers(sv, a);
    StepKeepsFlagDomains(sv, a);
    StepKeepsFinSeen(sv, a);
    forall i | 0 <= i < |sv'.calls| ensures Justified(sv', sv'.calls[i]) {
      if i < |sv.calls| {
        StaysJustified(sv, sv', sv.calls[i]);
      } else {
        NewCallJustified(sv, a);
      }
    }
  }

  /** Every step of the PHP thread keeps the invariant, as long as the 64-bit connection counter has
      not wrapped around. */
  lemma StepKeepsInv(sv: Server, a: Action)
    requires ServerInv(sv) && Enabled(sv, a) && Apply(sv, a).accepts <= U64_VALUES
    ensures ServerInv(Apply(sv, a))
  {
    StepKeepsSlots(sv, a);
    StepKeepsFlags(sv, a);
  }

  /** What installing a callback does: it replaces what its slot held, and touches no other slot. */
  lemma InstallStores(sv: Server, slot: SlotId, hook: Hook, cb: Callback)
    requires Enabled(sv, Install(slot, hook, cb))
    ensures var after := Apply(sv, Install(slot, hook, cb)).installed;
            && (slot, hook) in after && after[(slot, hook)] == cb
            && forall h | h != (slot, hook) ::
                 (h in after <==> h in sv.installed) && (h in after ==> after[h] == sv.installed[h])
  {
  }

  // ---- what the invariant says ----

  /** At most once: no slot pair is ever fired twice, on any path. */
  lemma FiredAtMostOnce(sv: Server, k: SlotId)
    requires ServerInv(sv)
    ensures FireCount(sv.calls, k) <= 1
  {
    assert BalancedAt(sv, k);
  }

  /** Exactly once: when the connection of a slot pair is gone (and its close path is finished),
      on_close was fired if and only if the pair was registered while the connection was live and was
      never overwritten. */
  lemma FiredExactlyOnceOnceGone(sv: Server, k: SlotId)
    requires ServerInv(sv) && k in sv.slots
    requires sv.slots[k].conn in sv.removed && !MapLocked(sv.pc, sv.slots[k].conn)
    ensures FireCount(sv.calls, k) == 1 <==> sv.slots[k].live && k !in sv.overwritten
    ensures FireCount(sv.calls, k) == (if sv.slots[k].live && k !in sv.overwritten then 1 else 0)
  {
    assert BalancedAt(sv, k);
  }

  /** While its connection is live, a slot pair has been fired only after its FIN removed it. */
  lemma RegisteredNotFired(sv: Server, c: ConnId, s: StreamId)
    requires ServerInv(sv) && s in MapOf(sv, c)
    ensures FireCount(sv.calls, MapOf(sv, c)[s]) == 0
  {
    assert BalancedAt(sv, MapOf(sv, c)[s]);
  }

  /** Silence: between an on_close of a slot pair and any later on_data there is nothing to find. */
  lemma NoDataAfterClose(sv: Server, i: nat, j: nat, k: SlotId)
    requires ServerInv(sv) && i < j < |sv.calls|
    requires sv.calls[i].CloseCall? && sv.calls[i].slot == k
    ensures !(sv.calls[j].DataCall? && sv.calls[j].target == Some(k))
  {
    FiredStaysCounted(sv.calls[..j], i, k);
  }

  lemma {:induction false} FiredStaysCounted(calls: seq<Call>, i: nat, k: SlotId)
    requires i < |calls| && calls[i].CloseCall? && calls[i].slot == k
    ensures FireCount(calls, k) > 0
  {
    var n := |calls| - 1;
    if i < n {
      assert calls[..n][i] == calls[i];
      FiredStaysCounted(calls[..n], i, k);
    }
  }

  /** A server that was closed: nothing live, nothing more accepted, no close path running. */
  predicate ClosedDown(sv: Server) {
    && sv.connections == {} && !sv.listening
    && !sv.pc.Accepting? && !sv.pc.InData? && !sv.pc.Firing?
  }

  /** After close() every slot pair that was registered on a live connection and never overwritten has
      been fired, exactly once. */
  lemma ClosedDownFiredAll(sv: Server)
    requires ServerInv(sv) && ClosedDown(sv)
    ensures forall k | k in sv.slots ::
              FireCount(sv.calls, k) == if sv.slots[k].live && k !in sv.overwritten then 1 else 0
  {
    forall k | k in sv.slots
      ensures FireCount(sv.calls, k) == if sv.slots[k].live && k !in sv.overwritten then 1 else 0
    {
      FiredExactlyOnceOnceGone(sv, k);
    }
  }

  /** Once closed down a server stays so, and no callback of any kind is called any more. */
  lemma ClosedStaysSilent(sv: Server, a: Action)
    requires ClosedDown(sv) && Enabled(sv, a)
    ensures ClosedDown(Apply(sv, a)) && Apply(sv, a).calls == sv.calls
  {
  }

  lemma EndCloseClosesDown(sv: Server)
    requires Enabled(sv, EndClose)
    ensures var sv' := Apply(sv, EndClose);
            ClosedDown(sv') && sv'.calls == sv.calls && sv'.accepts == sv.accepts
  {
  }

  /** Connection ids are never reused if and only if at most 2^64 connections were accepted. */
  lemma IdsDistinctIffNoWrap(accepts: nat)
    ensures (forall m: nat, n: nat | m < n < accepts :: ConnIdOf(m) != ConnIdOf(n))
       <==> accepts <= 0x1_0000_0000_0000_0000
  {
    if accepts > U64_VALUES {
      assert ConnIdOf(0) == ConnIdOf(U64_VALUES);
    }
  }
}
