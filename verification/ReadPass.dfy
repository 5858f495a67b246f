/** The read side of one driver as a transition system: every iteration of the loops of
    `process_reads` is a few small steps, so that other threads can run between any two of them. */
module ReadPass {
  import opened Types

  /** quiche's receive side of one stream: what has arrived in order and was not handed over yet. */
  datatype RecvStream = RecvStream(buf: Bytes, fin: bool, finRead: bool)

  function Unread(r: RecvStream): seq<Item> {
    Items(Chunk(r.buf, r.fin && !r.finRead))
  }

  function UnreadAt(rx: map<StreamId, RecvStream>, s: StreamId): seq<Item> {
    if s in rx then Unread(rx[s]) else []
  }

  /** Where the driver stands. `Announcing` and `Draining` are the places where it holds a permit. */
  datatype Pc =
    | Outside
    | AtNext
    | Announce(s: StreamId)
    | Announcing(s: StreamId)
    | Drain(s: StreamId)
    | Draining(s: StreamId)

  predicate Holding(pc: Pc) {
    pc.Announcing? || pc.Draining?
  }

  datatype ReadSide = ReadSide(
    seen: set<StreamId>,
    pc: Pc,
    rx: map<StreamId, RecvStream>,
    readable: set<StreamId>,
    // history: every event this driver ever sent, and everything the peer ever sent
    emitted: seq<DriverEvent>,
    arrived: map<StreamId, seq<Item>>)

  const Initial: ReadSide := ReadSide({}, Outside, map[], {}, [], map[])

  datatype Action =
    | Arrive(s: StreamId, chunk: Chunk)  // between passes: quiche processes packets
    | Rearm(ids: set<StreamId>)          // between passes: quiche decides which streams it reports
    | Begin
    | NoneLeft
    | Take(s: StreamId)
    | Reserve
    | Full
    | SendNew
    | RecvOk(n: nat)
    | RecvDone
    | RecvErr

  predicate Enabled(r: ReadSide, a: Action) {
    match a
    case Arrive(s, _) => r.pc.Outside? && !(s in r.rx && r.rx[s].fin)
    case Rearm(ids) => r.pc.Outside? && forall s | s in ids :: s in r.rx && !r.rx[s].finRead
    case Begin => r.pc.Outside?
    case NoneLeft => r.pc.AtNext? && r.readable == {}
    case Take(s) => r.pc.AtNext? && s in r.readable
    case Reserve => r.pc.Announce? || r.pc.Drain?
    case Full => r.pc.Announce? || r.pc.Drain?
    case SendNew => r.pc.Announcing?
    case RecvOk(n) =>
      && r.pc.Draining? && UnreadAt(r.rx, r.pc.s) != []
      && n <= |r.rx[r.pc.s].buf| && n <= STREAM_BUFFER_SIZE && (n == 0 ==> r.rx[r.pc.s].buf == [])
    case RecvDone => r.pc.Draining? && UnreadAt(r.rx, r.pc.s) == []
    case RecvErr => r.pc.Draining?
  }

  /** The chunk `stream_recv` hands over: the FIN comes with the last byte. */
  function RecvChunk(r: RecvStream, n: nat): Chunk
    requires n <= |r.buf|
  {
    Chunk(r.buf[..n], r.fin && !r.finRead && n == |r.buf|)
  }

  function NewEvent(s: StreamId): DriverEvent {
    if Bidirectional(s) then NewBidi(s) else NewUni(s)
  }

  /** The event a step sends into the shared channel, if any. */
  function Emission(r: ReadSide, a: Action): Option<DriverEvent>
    requires Enabled(r, a)
  {
    match a
    case SendNew => Some(NewEvent(r.pc.s))
    case RecvOk(n) => Some(Data(r.pc.s, RecvChunk(r.rx[r.pc.s], n)))
    case _ => None
  }

  /** `n` bytes of the stream being drained become one event, and the FIN with the last of them. */
  function Received(r: ReadSide, n: nat): ReadSide
    requires r.pc.Draining? && r.pc.s in r.rx && n <= |r.rx[r.pc.s].buf|
  {
    var s, q := r.pc.s, r.rx[r.pc.s];
    var chunk := RecvChunk(q, n);
    r.(emitted := r.emitted + [Data(s, chunk)],
       rx := r.rx[s := q.(buf := q.buf[n..], finRead := q.finRead || chunk.fin)],
       seen := if chunk.fin then r.seen - {s} else r.seen,
       pc := Drain(s))
  }

  function Apply(r: ReadSide, a: Action): ReadSide
    requires Enabled(r, a)
  {
    match a
    case Arrive(s, chunk) =>
      var q := if s in r.rx then r.rx[s] else RecvStream([], false, false);
      r.(rx := r.rx[s := q.(buf := q.buf + chunk.bytes, fin := chunk.fin)],
         arrived := Extend(r.arrived, s, Items(chunk)))
    case Rearm(ids) => r.(readable := ids)
    case Begin => r.(pc := AtNext)
    case NoneLeft => r.(pc := Outside)
    case Take(s) =>
      r.(readable := r.readable - {s},
         pc := if ClientInitiated(s) && s !in r.seen then Announce(s) else Drain(s))
    case Reserve => r.(pc := if r.pc.Announce? then Announcing(r.pc.s) else Draining(r.pc.s))
    case Full => r.(pc := Outside)
    case SendNew =>
      r.(emitted := r.emitted + [NewEvent(r.pc.s)], seen := r.seen + {r.pc.s}, pc := Drain(r.pc.s))
    case RecvOk(n) => Received(r, n)
    case RecvDone => r.(pc := AtNext)
    case RecvErr => r.(pc := AtNext)
  }

  // ---- reference notions on a list of events ----

  /** The items of stream `s` carried by a list of events. */
  function DataItems(es: seq<DriverEvent>, s: StreamId): seq<Item> {
    if es == [] then []
    else
      var e := es[|es| - 1];
      var before := DataItems(es[..|es| - 1], s);
      if e.Data? && e.stream == s then before + Items(e.chunk) else before
  }

  /** The effect of one event on a set of known streams: New adds, Data with FIN removes. */
  function Effect(known: set<StreamId>, e: DriverEvent): set<StreamId> {
    if !e.Data? then known + {e.stream} else if e.chunk.fin then known - {e.stream} else known
  }

  function Replay(known: set<StreamId>, es: seq<DriverEvent>): set<StreamId> {
    if es == [] then known else Effect(Replay(known, es[..|es| - 1]), es[|es| - 1])
  }

  /** May event `e` follow the events `before`? */
  ghost predicate Legal(before: seq<DriverEvent>, e: DriverEvent) {
    match e
    case Data(s, c) =>
      && (ClientInitiated(s) ==> s in Replay({}, before))
      && |c.bytes| <= STREAM_BUFFER_SIZE && (c.bytes != [] || c.fin)
      && Fin !in DataItems(before, s)
    case _ =>
      && ClientInitiated(e.stream) && e == NewEvent(e.stream)
      && NewEvent(e.stream) !in before
  }

  ghost predicate WellFormed(es: seq<DriverEvent>) {
    forall i {:trigger es[i]} | 0 <= i < |es| :: Legal(es[..i], es[i])
  }

  // ---- the invariant ----

  ghost predicate PcInv(r: ReadSide) {
    match r.pc
    case Announce(s) => s !in r.readable && ClientInitiated(s) && s !in r.seen && s in r.rx && !r.rx[s].finRead
    case Announcing(s) => s !in r.readable && ClientInitiated(s) && s !in r.seen && s in r.rx && !r.rx[s].finRead
    case Drain(s) => s !in r.readable && s in r.rx && (ClientInitiated(s) && !r.rx[s].finRead ==> s in r.seen)
    case Draining(s) => s !in r.readable && s in r.rx && (ClientInitiated(s) && !r.rx[s].finRead ==> s in r.seen)
    case _ => true
  }

  /** Nothing is lost, duplicated or reordered between quiche's buffers and the event channel. */
  ghost predicate ConservedAt(r: ReadSide, s: StreamId) {
    At(r.arrived, s) == DataItems(r.emitted, s) + UnreadAt(r.rx, s)
  }

  predicate FinWasRead(r: ReadSide, s: StreamId) {
    s in r.rx && r.rx[s].finRead
  }

  ghost predicate Tidy(r: ReadSide, s: StreamId) {
    && (FinWasRead(r, s) ==> r.rx[s].fin && r.rx[s].buf == [] && s !in r.seen)
    && (Fin in DataItems(r.emitted, s) ==> FinWasRead(r, s))
    && (NewEvent(s) in r.emitted ==> s in r.seen || FinWasRead(r, s))
    && (s in r.readable ==> s in r.rx && !r.rx[s].finRead)
  }

  ghost predicate ReadInv(r: ReadSide) {
    && (forall s :: ConservedAt(r, s))
    && (forall s :: Tidy(r, s))
    && r.seen == Replay({}, r.emitted)
    && WellFormed(r.emitted)
    && PcInv(r)
  }

  lemma DataItemsSnoc(es: seq<DriverEvent>, e: DriverEvent, s: StreamId)
    ensures DataItems(es + [e], s)
         == if e.Data? && e.stream == s then DataItems(es, s) + Items(e.chunk) else DataItems(es, s)
  {
    assert (es + [e])[..|es|] == es;
  }

  lemma ReplaySnoc(known: set<StreamId>, es: seq<DriverEvent>, e: DriverEvent)
    ensures Replay(known, es + [e]) == Effect(Replay(known, es), e)
  {
    assert (es + [e])[..|es|] == es;
  }

  lemma WellFormedSnoc(es: seq<DriverEvent>, e: DriverEvent)
    requires WellFormed(es) && Legal(es, e)
    ensures WellFormed(es + [e])
  {
    var more := es + [e];
    forall i {:trigger more[i]} | 0 <= i < |more| ensures Legal(more[..i], more[i]) {
      assert more[..i] == if i < |es| then es[..i] else es;
      if i < |es| { assert more[i] == es[i]; }
    }
  }

  lemma FinInItems(c: Chunk)
    ensures Fin in Items(c) <==> c.fin
  {
    FinNotInOctets(c.bytes);
    if c.fin {
      assert Items(c)[|Octets(c.bytes)|] == Fin;
    }
  }

  /** Receiving `n` bytes splits the unread items into those handed over and those left. */
  lemma RecvSplits(q: RecvStream, n: nat)
    requires n <= |q.buf| && !q.finRead
    ensures Unread(q) == Items(RecvChunk(q, n))
                       + Unread(q.(buf := q.buf[n..], finRead := RecvChunk(q, n).fin))
  {
    ItemsSplit(q.buf, q.fin, n);
    if n == |q.buf| {
      assert q.buf[..n] == q.buf && q.buf[n..] == [];
    }
  }

  lemma ArrivalExtends(q: RecvStream, chunk: Chunk)
    requires !q.fin && !q.finRead
    ensures Unread(q.(buf := q.buf + chunk.bytes, fin := chunk.fin)) == Unread(q) + Items(chunk)
  {
    OctetsConcat(q.buf, chunk.bytes);
  }

  /** The unread items a receive consumes are exactly the items it emits. */
  lemma RecvConserves(r: ReadSide, n: nat)
    requires Enabled(r, RecvOk(n)) && Tidy(r, r.pc.s) && ConservedAt(r, r.pc.s)
    ensures ConservedAt(Apply(r, RecvOk(n)), r.pc.s)
  {
    var s, q := r.pc.s, r.rx[r.pc.s];
    var chunk := RecvChunk(q, n);
    DataItemsSnoc(r.emitted, Data(s, chunk), s);
    assert q.finRead ==> Unread(q) == [];
    RecvSplits(q, n);
    Assoc(DataItems(r.emitted, s), Items(chunk), UnreadAt(Apply(r, RecvOk(n)).rx, s));
  }

  lemma ArriveConserves(r: ReadSide, s: StreamId, chunk: Chunk)
    requires ConservedAt(r, s) && Tidy(r, s) && Enabled(r, Arrive(s, chunk))
    ensures ConservedAt(Apply(r, Arrive(s, chunk)), s)
  {
    ArrivalExtends(if s in r.rx then r.rx[s] else RecvStream([], false, false), chunk);
    Assoc(DataItems(r.emitted, s), UnreadAt(r.rx, s), Items(chunk));
  }

  /** A step about another stream, or about none, leaves the items of `s` where they are. */
  lemma OthersConserve(r: ReadSide, a: Action, s: StreamId)
    requires ConservedAt(r, s) && Enabled(r, a)
    requires a.Arrive? ==> a.s != s
    requires a.RecvOk? ==> r.pc.s != s
    ensures ConservedAt(Apply(r, a), s)
  {
    var r' := Apply(r, a);
    if Emission(r, a).Some? {
      DataItemsSnoc(r.emitted, Emission(r, a).value, s);
    }
    assert DataItems(r'.emitted, s) == DataItems(r.emitted, s);
    assert UnreadAt(r'.rx, s) == UnreadAt(r.rx, s);
    assert At(r'.arrived, s) == At(r.arrived, s);
  }

  lemma StepKeepsTidy(r: ReadSide, a: Action, s: StreamId)
    requires Tidy(r, s) && PcInv(r) && Enabled(r, a)
    ensures Tidy(Apply(r, a), s)
  {
    if Emission(r, a).Some? {
      DataItemsSnoc(r.emitted, Emission(r, a).value, s);
      if a.RecvOk? {
        FinInItems(RecvChunk(r.rx[r.pc.s], a.n));
      }
    }
  }

  lemma NothingAfterFin(r: ReadSide, s: StreamId)
    requires Tidy(r, s)
    ensures FinWasRead(r, s) ==> UnreadAt(r.rx, s) == []
  {
  }

  lemma StepKeepsOrder(r: ReadSide, a: Action)
    requires ReadInv(r) && Enabled(r, a)
    ensures Apply(r, a).seen == Replay({}, Apply(r, a).emitted) && WellFormed(Apply(r, a).emitted)
  {
    if Emission(r, a).Some? {
      var e := Emission(r, a).value;
      ReplaySnoc({}, r.emitted, e);
      NothingAfterFin(r, r.pc.s);
      assert Legal(r.emitted, e);
      WellFormedSnoc(r.emitted, e);
    }
  }

  lemma StepKeepsPc(r: ReadSide, a: Action)
    requires (forall s :: Tidy(r, s)) && PcInv(r) && Enabled(r, a)
    ensures PcInv(Apply(r, a))
  {
    if a.Take? {
      assert Tidy(r, a.s);
    }
  }

  /** Every step of a driver's read side keeps the invariant. */
  lemma StepKeepsInv(r: ReadSide, a: Action)
    requires ReadInv(r) && Enabled(r, a)
    ensures ReadInv(Apply(r, a))
  {
    forall s ensures ConservedAt(Apply(r, a), s) {
      assert ConservedAt(r, s) && Tidy(r, s);
      if a.Arrive? && a.s == s {
        ArriveConserves(r, s, a.chunk);
      } else if a.RecvOk? && r.pc.s == s {
        RecvConserves(r, a.n);
      } else {
        OthersConserve(r, a, s);
      }
    }
    StepKeepsOrder(r, a);
    StepKeepsPc(r, a);
    forall s ensures Tidy(Apply(r, a), s) {
      StepKeepsTidy(r, a, s);
    }
  }

  // ---- what the invariant says about the event log of a driver ----

  lemma {:induction false} ReplayComesFromNew(es: seq<DriverEvent>, s: StreamId)
    requires s in Replay({}, es)
    ensures exists i :: 0 <= i < |es| && !es[i].Data? && es[i].stream == s
  {
    var n := |es| - 1;
    if !(!es[n].Data? && es[n].stream == s) {
      ReplayComesFromNew(es[..n], s);
      var i :| 0 <= i < n && !es[..n][i].Data? && es[..n][i].stream == s;
      assert es[i] == es[..n][i];
    }
  }

  lemma ReplayOnlyClient(es: seq<DriverEvent>, id: StreamId)
    requires WellFormed(es) && id in Replay({}, es)
    ensures ClientInitiated(id)
  {
    ReplayComesFromNew(es, id);
    var i :| 0 <= i < |es| && !es[i].Data? && es[i].stream == id;
    assert Legal(es[..i], es[i]);
  }

  lemma PrefixWellFormed(es: seq<DriverEvent>, all: seq<DriverEvent>)
    requires WellFormed(all) && es <= all
    ensures WellFormed(es)
  {
    forall i {:trigger es[i]} | 0 <= i < |es| ensures Legal(es[..i], es[i]) {
      assert es[i] == all[i] && es[..i] == all[..i];
      assert Legal(all[..i], all[i]);
    }
  }

  lemma {:induction false} FinStaysInItems(es: seq<DriverEvent>, i: nat)
    requires i < |es| && es[i].Data? && es[i].chunk.fin
    ensures Fin in DataItems(es, es[i].stream)
  {
    var n := |es| - 1;
    if i == n {
      FinInItems(es[i].chunk);
    } else {
      assert es[..n][i] == es[i];
      FinStaysInItems(es[..n], i);
    }
  }

  lemma NewNotRepeated(es: seq<DriverEvent>, i: nat, j: nat)
    requires WellFormed(es) && i < j < |es| && !es[i].Data? && !es[j].Data?
    ensures es[i].stream != es[j].stream
  {
    assert Legal(es[..i], es[i]) && Legal(es[..j], es[j]);
    assert es[..j][i] == es[i];
  }

  /** A stream is announced only if bit 0 of its id is 0, once, as bidirectional or unidirectional by bit 1,
      and before all its data, which it always is; nothing of a stream follows its FIN; and a chunk is not
      empty of items and fits the read buffer. */
  lemma AnnouncedOnceAndFirst(es: seq<DriverEvent>, j: nat)
    requires WellFormed(es) && j < |es|
    ensures es[j].NewBidi? ==> es[j].stream % 4 == 0
    ensures es[j].NewUni? ==> es[j].stream % 4 == 2
    ensures !es[j].Data? ==>
              forall i | 0 <= i < |es| && !es[i].Data? && es[i].stream == es[j].stream :: i == j
    ensures es[j].Data? && es[j].stream % 2 == 0 ==>
              exists i :: 0 <= i < j && !es[i].Data? && es[i].stream == es[j].stream
    ensures es[j].Data? ==>
              forall i | 0 <= i < j && es[i].Data? && es[i].stream == es[j].stream :: !es[i].chunk.fin
    ensures es[j].Data? ==> |es[j].chunk.bytes| <= 65536 && (es[j].chunk.bytes != [] || es[j].chunk.fin)
  {
    assert Legal(es[..j], es[j]);
    KindOfId(es[j].stream);
    if es[j].Data? {
      if es[j].stream % 2 == 0 {
        ReplayComesFromNew(es[..j], es[j].stream);
        var i :| 0 <= i < j && !es[..j][i].Data? && es[..j][i].stream == es[j].stream;
        assert es[i] == es[..j][i];
      }
      forall i | 0 <= i < j && es[i].Data? && es[i].stream == es[j].stream ensures !es[i].chunk.fin {
        if es[i].chunk.fin {
          assert es[..j][i] == es[i];
          FinStaysInItems(es[..j], i);
        }
      }
    } else {
      forall i | 0 <= i < |es| && !es[i].Data? && es[i].stream == es[j].stream ensures i == j {
        if i < j { NewNotRepeated(es, i, j); } else if j < i { NewNotRepeated(es, j, i); }
      }
    }
  }

  // ---- what a sequence of steps leads to ----

  ghost predicate ReadStep(r: ReadSide, r': ReadSide) {
    exists a :: Enabled(r, a) && r' == Apply(r, a)
  }

  /** A run of the read side from `from` to `to`. */
  ghost predicate ReadRun(run: seq<ReadSide>, from: ReadSide, to: ReadSide) {
    && run != [] && run[0] == from && run[|run| - 1] == to
    && forall i | 0 < i < |run| :: ReadStep(run[i - 1], run[i])
  }

  /** `to` is reached from `from` by steps of the read side. */
  ghost predicate Reads(from: ReadSide, to: ReadSide) {
    exists run: seq<ReadSide> :: ReadRun(run, from, to)
  }

  lemma ReadsNothing(r: ReadSide)
    ensures Reads(r, r)
  {
    assert ReadRun([r], r, r);
  }

  lemma ReadsMore(from: ReadSide, r: ReadSide, a: Action, r': ReadSide)
    requires Reads(from, r) && Enabled(r, a) && r' == Apply(r, a)
    ensures Reads(from, r')
  {
    var run :| ReadRun(run, from, r);
    assert ReadStep(r, r');
    ReadRunGrows(run, from, r, r');
  }

  lemma ReadRunGrows(run: seq<ReadSide>, from: ReadSide, r: ReadSide, r': ReadSide)
    requires ReadRun(run, from, r) && ReadStep(r, r')
    ensures ReadRun(run + [r'], from, r')
  {
    var more := run + [r'];
    forall i | 0 < i < |more| ensures ReadStep(more[i - 1], more[i]) {
      if i < |run| {
        assert ReadStep(run[i - 1], run[i]);
      }
    }
  }

  lemma ReadRunShrinks(run: seq<ReadSide>, from: ReadSide, to: ReadSide)
    requires ReadRun(run, from, to) && |run| > 1
    ensures ReadRun(run[..|run| - 1], from, run[|run| - 2]) && ReadStep(run[|run| - 2], to)
  {
    assert ReadStep(run[|run| - 2], run[|run| - 1]);
  }

  lemma ReadStepKeepsInv(r: ReadSide, r': ReadSide)
    requires ReadStep(r, r') && ReadInv(r)
    ensures ReadInv(r')
  {
    var a :| Enabled(r, a) && r' == Apply(r, a);
    StepKeepsInv(r, a);
  }

  lemma {:induction false} ReadRunKeepsInv(run: seq<ReadSide>, from: ReadSide, to: ReadSide)
    requires ReadRun(run, from, to) && ReadInv(from)
    ensures ReadInv(to)
    decreases |run|
  {
    if |run| > 1 {
      ReadRunShrinks(run, from, to);
      ReadRunKeepsInv(run[..|run| - 1], from, run[|run| - 2]);
      ReadStepKeepsInv(run[|run| - 2], to);
    }
  }

  /** Whatever the read side leads to satisfies the invariant. */
  lemma ReadsKeepInv(from: ReadSide, to: ReadSide)
    requires Reads(from, to) && ReadInv(from)
    ensures ReadInv(to)
  {
    var run :| ReadRun(run, from, to);
    ReadRunKeepsInv(run, from, to);
  }
}
