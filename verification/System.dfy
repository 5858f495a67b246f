/** The whole engine: the PHP thread, any number of drivers on worker threads, and the channels
    between them, as one transition system with arbitrary interleaving. */
module System {
  import opened Types
  import R = ReadPass
  import W = WritePass
  import S = Server

  datatype Driver = Driver(read: R.ReadSide, write: W.WriteSide, closed: bool)

  const NewDriver: Driver := Driver(R.Initial, W.Initial, false)

  /** The event channel is its whole history `log` with `taken` events received; `permits` slots are
      reserved but not used yet. */
  datatype System = System(
    sv: S.Server,
    log: seq<(ConnId, DriverEvent)>,
    taken: nat,
    permits: nat,
    closes: seq<(ConnId, bool)>,
    drivers: map<ConnId, Driver>,
    // history
    polled: nat,                      // length of `log` when the event queue was last found empty
    mark: map<ConnId, nat>,           // events received when the connection was removed
    signalled: map<ConnId, bool>,     // drivers that have signalled their close, and the peer flag
    lost: set<ConnId>,                // drivers whose close signal found its channel full
    phpOpened: set<(ConnId, StreamId)>)  // streams opened by PHP

  const Initial: System := System(S.Initial, [], 0, 0, [], map[], 0, map[], map[], {}, {})

  datatype Action =
    | Server(sa: S.Action)
    | Read(c: ConnId, ra: R.Action)
    | Write(c: ConnId, wa: W.Action)
    | CloseSignal(c: ConnId, peer: bool)

  predicate Room(s: System) {
    |s.log| - s.taken + s.permits < SERVER_EVENT_CHANNEL_CAPACITY
  }

  /** PHP is inside a `write` call, between try_send and notify_one. */
  ghost predicate MidWrite(s: System) {
    exists c :: c in s.drivers && s.drivers[c].write.notifying
  }

  ghost predicate ServerEnabled(s: System, a: S.Action) {
    && S.Enabled(s.sv, a) && !MidWrite(s)
    && match a
       case NoEvent => s.taken == |s.log|
       case TakeEvent(c, ev) => s.taken < |s.log| && s.log[s.taken] == (c, ev)
       case NoClose => s.closes == []
       case TakeClose(c, peer) => s.closes != [] && s.closes[0] == (c, peer)
       case _ => true
  }

  predicate ReadEnabled(s: System, c: ConnId, a: R.Action) {
    && c in s.drivers && !s.drivers[c].closed && R.Enabled(s.drivers[c].read, a)
    && (s.drivers[c].write.phase.Awake? || s.drivers[c].write.phase.Rested? || a.Arrive? || a.Rearm?)
    && (a.Reserve? ==> Room(s))
    && (a.Full? ==> !Room(s))
  }

  ghost predicate WriteEnabled(s: System, c: ConnId, a: W.Action) {
    && c in s.drivers && W.Enabled(s.drivers[c].write, a)
    && if a.Submit? then S.UserCode(s.sv.pc) && !MidWrite(s)
       else if a.Notify? then S.UserCode(s.sv.pc)
       else !s.drivers[c].closed && s.drivers[c].read.pc.Outside?
  }

  predicate CloseEnabled(s: System, c: ConnId) {
    && c in s.drivers && !s.drivers[c].closed && s.drivers[c].read.pc.Outside?
    && !s.drivers[c].write.phase.Draining? && !s.drivers[c].write.phase.Flushing?
  }

  ghost predicate Enabled(s: System, a: Action) {
    match a
    case Server(sa) => ServerEnabled(s, sa)
    case Read(c, ra) => ReadEnabled(s, c, ra)
    case Write(c, wa) => WriteEnabled(s, c, wa)
    case CloseSignal(c, _) => CloseEnabled(s, c)
  }

  function ApplyServer(s: System, a: S.Action): System
    requires S.Enabled(s.sv, a)
  {
    var t := s.(sv := S.Apply(s.sv, a));
    match a
    case NoEvent => t.(polled := |s.log|)
    case TakeEvent(_, _) => t.(taken := s.taken + 1)
    case TakeClose(c, _) =>
      t.(closes := if s.closes == [] then [] else s.closes[1..],
         mark := if c in s.sv.connections then s.mark[c := s.taken] else s.mark)
    case CloseConn(c) => t.(mark := s.mark[c := s.taken])
    case Accept => t.(drivers := s.drivers[S.ConnIdOf(s.sv.accepts) := NewDriver])
    case OpenStream(c, id) => t.(phpOpened := s.phpOpened + {(c, id)})
    case _ => t
  }

  /** Permits outstanding after a read step: reserve takes one, send and failed receive return one. */
  function PermitsAfter(permits: nat, a: R.Action): nat {
    match a
    case Reserve => permits + 1
    case SendNew => if permits == 0 then 0 else permits - 1
    case RecvOk(_) => if permits == 0 then 0 else permits - 1
    case RecvDone => if permits == 0 then 0 else permits - 1
    case RecvErr => if permits == 0 then 0 else permits - 1
    case _ => permits
  }

  function ApplyRead(s: System, c: ConnId, a: R.Action): System
    requires c in s.drivers && R.Enabled(s.drivers[c].read, a)
  {
    var d := s.drivers[c];
    var sent := R.Emission(d.read, a);
    s.(drivers := s.drivers[c := d.(read := R.Apply(d.read, a))],
       log := if sent.Some? then s.log + [(c, sent.value)] else s.log,
       permits := PermitsAfter(s.permits, a))
  }

  function ApplyWrite(s: System, c: ConnId, a: W.Action): System
    requires c in s.drivers && W.Enabled(s.drivers[c].write, a)
  {
    s.(drivers := s.drivers[c := s.drivers[c].(write := W.Apply(s.drivers[c].write, a))])
  }

  /** on_conn_close: a try_send on the close channel, whose failure is only logged. */
  function ApplyClose(s: System, c: ConnId, peer: bool): System
    requires c in s.drivers
  {
    var t := s.(drivers := s.drivers[c := s.drivers[c].(closed := true)], signalled := s.signalled[c := peer]);
    if |s.closes| < CONN_CLOSE_CHANNEL_CAPACITY then t.(closes := s.closes + [(c, peer)])
    else t.(lost := s.lost + {c})
  }

  ghost function Apply(s: System, a: Action): System
    requires Enabled(s, a)
  {
    match a
    case Server(sa) => ApplyServer(s, sa)
    case Read(c, ra) => ApplyRead(s, c, ra)
    case Write(c, wa) => ApplyWrite(s, c, wa)
    case CloseSignal(c, peer) => ApplyClose(s, c, peer)
  }

  // ---- reference notions ----

  /** The events of one connection. */
  function Of(log: seq<(ConnId, DriverEvent)>, c: ConnId): seq<DriverEvent> {
    if log == [] then []
    else
      var before := Of(log[..|log| - 1], c);
      if log[|log| - 1].0 == c then before + [log[|log| - 1].1] else before
  }

  /** The events of `c` that the server has dispatched, call by call. */
  function Handled(calls: seq<S.Call>, c: ConnId): seq<DriverEvent> {
    if calls == [] then []
    else
      var last := calls[|calls| - 1];
      var before := Handled(calls[..|calls| - 1], c);
      match last
      case StreamCall(d, ev, _) => if d == c then before + [ev] else before
      case DataCall(d, s, _, chunk, _) => if d == c then before + [Data(s, chunk)] else before
      case CloseCall(_, _, _) => before
  }

  /** Events whose on_data / on_stream part has been done. */
  function Dispatched(s: System): nat {
    if s.sv.pc.Dispatching? && s.taken > 0 then s.taken - 1 else s.taken
  }

  /** Events that have been dealt with completely, including the removal of slots at FIN. */
  function Finished(s: System): nat {
    if (s.sv.pc.Dispatching? || s.sv.pc.InData?) && s.taken > 0 then s.taken - 1 else s.taken
  }

  /** Events of `c` up to here were delivered; later ones, if `c` was removed, are dropped. */
  function Cut(s: System, c: ConnId): nat {
    if c in s.mark then s.mark[c] else Dispatched(s)
  }

  function Holders(drivers: map<ConnId, Driver>): set<ConnId> {
    set c | c in drivers && R.Holding(drivers[c].read.pc)
  }

  /** Connections that exist from the point of view of the server loop. */
  function Live(sv: S.Server): set<ConnId> {
    sv.connections + if sv.pc.Accepting? then {sv.pc.c} else {}
  }

  /** The server has not been asked to close yet. */
  predicate Up(sv: S.Server) {
    sv.listening && !sv.pc.Closing? && !(sv.pc.Firing? && sv.pc.closing)
  }

  // ---- the invariant ----

  ghost predicate DriversOk(s: System) {
    && s.drivers.Keys == s.sv.maps.Keys
    && forall c | c in s.drivers :: R.ReadInv(s.drivers[c].read) && W.WriteInv(s.drivers[c].write)
  }

  ghost predicate LogOk(s: System) {
    && s.taken <= |s.log| && s.polled <= |s.log|
    && (forall i | 0 <= i < |s.log| :: s.log[i].0 in s.drivers)
    && (forall p | p in s.phpOpened :: p.0 in s.drivers)
    && (forall c | c in s.drivers :: s.drivers[c].read.emitted == Of(s.log, c))
  }

  /** Reserved and used slots never exceed the capacity, and the permits outstanding are exactly
      those of the drivers standing between a reservation and its use. */
  ghost predicate ChannelOk(s: System) {
    && |s.log| - s.taken + s.permits <= SERVER_EVENT_CHANNEL_CAPACITY
    && s.permits == |Holders(s.drivers)|
  }

  ghost predicate PositionsOk(s: System)
    requires s.taken <= |s.log|
  {
    && s.mark.Keys == s.sv.removed
    && (forall c | c in s.mark :: s.mark[c] <= s.taken)
    && (s.sv.pc.PollCloses? ==> s.polled == s.taken)
    && (s.sv.pc.Dispatching? ==>
          && s.taken > 0 && s.log[s.taken - 1] == (s.sv.pc.c, s.sv.pc.ev)
          && (s.sv.pc.c in s.mark ==> s.mark[s.sv.pc.c] < s.taken))
    && (s.sv.pc.InData? ==>
          && s.taken > 0 && s.log[s.taken - 1].0 == s.sv.pc.c && s.log[s.taken - 1].1.Data?
          && s.log[s.taken - 1].1.stream == s.sv.pc.s && s.log[s.taken - 1].1.chunk.fin == s.sv.pc.fin)
  }

  /** The client-initiated streams that the events dealt with so far leave known. */
  function Known(s: System, c: ConnId, n: nat): set<StreamId>
    requires n <= |s.log|
  {
    R.Replay({}, Of(s.log[..n], c))
  }

  /** Has the FIN of `id` been dealt with? */
  predicate Ended(s: System, c: ConnId, id: StreamId, n: nat)
    requires n <= |s.log|
  {
    Fin in R.DataItems(Of(s.log[..n], c), id)
  }

  /** A pair is registered for every stream that is known or was opened by PHP and has not ended, and
      only for streams that are known or were opened by PHP. */
  ghost predicate KeysAt(s: System, c: ConnId, id: StreamId)
    requires s.taken <= |s.log|
  {
    && (id in Known(s, c, Finished(s)) ==> id in S.MapOf(s.sv, c))
    && (id in S.MapOf(s.sv, c) ==> id in Known(s, c, Finished(s)) || (c, id) in s.phpOpened)
    && ((c, id) in s.phpOpened && !Ended(s, c, id, Finished(s)) ==> id in S.MapOf(s.sv, c))
  }

  ghost predicate KeysOk(s: System)
    requires s.taken <= |s.log|
  {
    forall c, id | c in Live(s.sv) :: KeysAt(s, c, id)
  }

  /** The events of `c` dispatched are exactly its events up to its cut, in order, chunk by chunk. */
  ghost predicate CallsAt(s: System, c: ConnId)
    requires s.taken <= |s.log| && Cut(s, c) <= |s.log|
  {
    Handled(s.sv.calls, c) == Of(s.log[..Cut(s, c)], c)
  }

  /** Every chunk of a client-initiated stream found a registered slot pair. */
  predicate Targeted(calls: seq<S.Call>) {
    forall i | 0 <= i < |calls| && calls[i].DataCall? && ClientInitiated(calls[i].stream) :: calls[i].target.Some?
  }

  ghost predicate CallsOk(s: System)
    requires s.taken <= |s.log| && forall c :: Cut(s, c) <= |s.log|
  {
    (forall c :: CallsAt(s, c)) && Targeted(s.sv.calls)
  }

  predicate ClosesBounded(s: System) {
    && |s.closes| <= CONN_CLOSE_CHANNEL_CAPACITY
    && s.lost <= s.drivers.Keys
    && (forall i | 0 <= i < |s.closes| :: s.closes[i].0 in s.drivers && s.drivers[s.closes[i].0].closed)
  }

  /** Queued close signals are pairwise distinct and belong to live connections. */
  predicate ClosesDistinct(s: System) {
    && (forall i, j | 0 <= i < j < |s.closes| :: s.closes[i].0 != s.closes[j].0)
    && (forall i | 0 <= i < |s.closes| :: s.closes[i].0 in Live(s.sv) && s.closes[i].0 !in s.lost)
  }

  predicate OpenAreLive(s: System) {
    && (forall c | c in s.drivers && !s.drivers[c].closed :: c in Live(s.sv) && c !in s.lost)
    && s.lost <= Live(s.sv)
  }

  predicate IsQueued(closes: seq<(ConnId, bool)>, c: ConnId) {
    exists i :: 0 <= i < |closes| && closes[i].0 == c
  }

  /** A live connection whose driver has stopped has its signal queued, or it was lost. */
  predicate StoppedAreQueued(s: System) {
    forall c | c in Live(s.sv) && c in s.drivers && s.drivers[c].closed :: c in s.lost || IsQueued(s.closes, c)
  }

  predicate ClosesOk(s: System) {
    && ClosesBounded(s)
    && (Up(s.sv) ==> ClosesDistinct(s) && OpenAreLive(s) && StoppedAreQueued(s))
  }

  /** A connection was closed with the flag its driver signalled, or by the closing server. */
  ghost predicate SignalsOk(s: System) {
    && (forall c | c in s.signalled :: c in s.drivers && s.drivers[c].closed)
    && (forall i | 0 <= i < |s.closes| ::
          s.closes[i].0 in s.signalled && s.signalled[s.closes[i].0] == s.closes[i].1)
    && (forall c | c in s.sv.flags ::
          (c in s.signalled && s.sv.flags[c] == s.signalled[c]) || (!s.sv.flags[c] && !Up(s.sv)))
    && (!s.sv.listening ==> s.sv.connections == {} && !s.sv.pc.Accepting?)
  }

  /** The worker loop is inside process_reads only when it is not inside process_writes or a wait. */
  predicate OneAtATime(d: Driver) {
    d.read.pc.Outside? || d.write.phase.Awake? || d.write.phase.Rested?
  }

  /** Each loop does one thing at a time: a worker as above, and PHP is inside a write only where PHP code
      runs. */
  predicate LoopsOk(s: System) {
    forall c | c in s.drivers ::
      OneAtATime(s.drivers[c]) && (s.drivers[c].write.notifying ==> S.UserCode(s.sv.pc))
  }

  ghost predicate CoreInv(s: System) {
    && LogOk(s) && PositionsOk(s) && CallsOk(s) && KeysOk(s)
    && S.ServerInv(s.sv) && DriversOk(s) && ChannelOk(s)
  }

  ghost predicate Inv(s: System) {
    CoreInv(s) && ClosesOk(s) && SignalsOk(s) && LoopsOk(s)
  }

  // ---- runs ----

  ghost predicate Step(s: System, a: Action, t: System) {
    Enabled(s, a) && t == Apply(s, a)
  }

  ghost predicate Run(run: seq<System>, acts: seq<Action>) {
    && |run| == |acts| + 1 && run[0] == Initial
    && forall i | 0 <= i < |acts| :: Step(run[i], acts[i], run[i + 1])
  }

  ghost predicate Reachable(s: System) {
    exists run: seq<System>, acts: seq<Action> :: Run(run, acts) && s == run[|acts|]
  }
}
