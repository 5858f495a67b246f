/** The write side of one connection as a transition system: the write channel filled by PHP, the
    wake-up signal, and the loops of `process_writes` cut into single steps. */
module WritePass {
  import opened Types

  /** One message of the per-connection write channel. */
  datatype StreamWriter = StreamWriter(stream: StreamId, data: Option<Bytes>, fin: bool)

  /** What quiche answers to one `stream_send`. */
  datatype Reply = Accepted(n: nat) | Done | Failed

  /** `Rested`: process_writes has run since the last wake-up. `Waiting`: inside wait_for_data. */
  datatype Phase = Awake | Draining | Flushing(todo: set<StreamId>) | Rested | Waiting

  /** The items one `stream_send` settled: accepted by quiche, or popped after a hard error. */
  datatype Segment = Segment(items: seq<Item>, accepted: bool)

  datatype WriteSide = WriteSide(
    chan: seq<StreamWriter>,
    permit: bool,       // the permit stored in the Notify
    notifying: bool,    // PHP is between try_send and notify_one
    phase: Phase,
    pending: map<StreamId, seq<Chunk>>,
    // history
    submitted: map<StreamId, seq<Item>>,     // everything whose write returned Ok
    settled: map<StreamId, seq<Segment>>,
    sent: map<StreamId, seq<Item>>,          // what quiche accepted
    failed: set<StreamId>,                   // streams that ever met a hard error
    stuck: set<StreamId>)                    // last send of this pass was Done or partial

  const Initial: WriteSide :=
    WriteSide([], false, false, Awake, map[], map[], map[], map[], {}, {})

  datatype Action =
    | Submit(msg: StreamWriter)   // PHP thread: try_send succeeded
    | Notify                      // PHP thread: notify_one
    | WakeNotified                // the driver takes the permit
    | WakeOther                   // the worker loop leaves the wait for another reason
    | StartWrites
    | DrainOne
    | DrainEmpty
    | Send(s: StreamId, reply: Reply)
    | Retire(s: StreamId)
    | EndFlush
    | Wait

  function ChunkOf(m: StreamWriter): Chunk {
    Chunk(match m.data case Some(b) => b case None => [], m.fin)
  }

  predicate Enabled(w: WriteSide, a: Action) {
    match a
    case Submit(_) => !w.notifying && |w.chan| < WRITE_CHANNEL_CAPACITY
    case Notify => w.notifying
    case WakeNotified => w.phase.Waiting? && w.permit
    case WakeOther => w.phase.Waiting?
    case StartWrites => w.phase.Awake? || w.phase.Rested?
    case DrainOne => w.phase.Draining? && w.chan != []
    case DrainEmpty => w.phase.Draining? && w.chan == []
    case Send(s, reply) =>
      && w.phase.Flushing? && s in w.phase.todo && s in w.pending && w.pending[s] != []
      && (reply.Accepted? ==> reply.n <= |w.pending[s][0].bytes|)
    case Retire(s) => w.phase.Flushing? && s in w.phase.todo && s in w.pending && w.pending[s] == []
    case EndFlush => w.phase.Flushing? && w.phase.todo == {}
    case Wait => w.phase.Rested?
  }

  predicate HasHead(w: WriteSide, s: StreamId) {
    w.phase.Flushing? && s in w.pending && w.pending[s] != []
  }

  /** The head chunk leaves the queue: accepted in full, or dropped after a hard error. */
  function PopHead(w: WriteSide, s: StreamId, accepted: bool): WriteSide
    requires HasHead(w, s)
  {
    var items := Items(w.pending[s][0]);
    w.(pending := w.pending[s := w.pending[s][1..]],
       settled := Extend(w.settled, s, [Segment(items, accepted)]),
       sent := if accepted then Extend(w.sent, s, items) else w.sent,
       failed := if accepted then w.failed else w.failed + {s})
  }

  /** A partial accept: the remainder stays at the head, with the FIN. */
  function CutHead(w: WriteSide, s: StreamId, n: nat): WriteSide
    requires HasHead(w, s) && n <= |w.pending[s][0].bytes|
  {
    var head := w.pending[s][0];
    var items := Octets(head.bytes[..n]);
    w.(pending := w.pending[s := w.pending[s][0 := Chunk(head.bytes[n..], head.fin)]],
       settled := Extend(w.settled, s, [Segment(items, true)]),
       sent := Extend(w.sent, s, items))
  }

  /** The pass gives up on `s`. */
  function Block(w: WriteSide, s: StreamId): WriteSide
    requires w.phase.Flushing?
  {
    w.(stuck := w.stuck + {s}, phase := Flushing(w.phase.todo - {s}))
  }

  /** One `stream_send` on the head of the queue of `s` and what the loop does with the answer. */
  function ApplySend(w: WriteSide, s: StreamId, reply: Reply): WriteSide
    requires Enabled(w, Send(s, reply))
  {
    match reply
    case Accepted(n) =>
      if n == |w.pending[s][0].bytes| then PopHead(w, s, true) else Block(CutHead(w, s, n), s)
    case Done => Block(w, s)
    case Failed => PopHead(w, s, false)
  }

  function Apply(w: WriteSide, a: Action): WriteSide
    requires Enabled(w, a)
  {
    match a
    case Submit(m) =>
      w.(chan := w.chan + [m], notifying := true,
         submitted := Extend(w.submitted, m.stream, Items(ChunkOf(m))))
    case Notify => w.(permit := true, notifying := false)
    case WakeNotified => w.(permit := false, phase := Awake)
    case WakeOther => w.(phase := Awake)
    case StartWrites => w.(phase := Draining)
    case DrainOne =>
      w.(chan := w.chan[1..], pending := Extend(w.pending, w.chan[0].stream, [ChunkOf(w.chan[0])]))
    case DrainEmpty => w.(phase := Flushing(w.pending.Keys), stuck := {})
    case Send(s, reply) => ApplySend(w, s, reply)
    case Retire(s) => w.(pending := w.pending - {s}, phase := Flushing(w.phase.todo - {s}))
    case EndFlush => w.(phase := Rested)
    case Wait => w.(phase := Waiting)
  }

  // ---- reference notions ----

  /** The chunks of stream `s` still in the write channel. */
  function Queued(chan: seq<StreamWriter>, s: StreamId): seq<Chunk> {
    if chan == [] then []
    else if chan[0].stream == s then [ChunkOf(chan[0])] + Queued(chan[1..], s)
    else Queued(chan[1..], s)
  }

  function SettledItems(segs: seq<Segment>): seq<Item> {
    if segs == [] then [] else SettledItems(segs[..|segs| - 1]) + segs[|segs| - 1].items
  }

  function AcceptedItems(segs: seq<Segment>): seq<Item> {
    if segs == [] then []
    else
      var before := AcceptedItems(segs[..|segs| - 1]);
      if segs[|segs| - 1].accepted then before + segs[|segs| - 1].items else before
  }

  // ---- the invariant ----

  /** The items of `s` not settled yet: pending in the driver, then queued in the channel. */
  function Outstanding(w: WriteSide, s: StreamId): seq<Item> {
    AllItems(At(w.pending, s)) + AllItems(Queued(w.chan, s))
  }

  /** Every submitted item of `s` is, in order, settled, pending in the driver, or in the channel. */
  ghost predicate ConservedAt(w: WriteSide, s: StreamId) {
    At(w.submitted, s) == SettledItems(At(w.settled, s)) + Outstanding(w, s)
  }

  /** quiche has exactly the accepted segments, which are all of them unless an error was met. */
  ghost predicate SentAt(w: WriteSide, s: StreamId) {
    && At(w.sent, s) == AcceptedItems(At(w.settled, s))
    && (s !in w.failed ==> At(w.sent, s) == SettledItems(At(w.settled, s)))
  }

  ghost predicate FinLast(items: seq<Item>) {
    forall i | 0 <= i < |items| && items[i] == Fin :: i == |items| - 1
  }

  ghost predicate SegmentsOk(w: WriteSide, s: StreamId) {
    forall seg | seg in At(w.settled, s) :: FinLast(seg.items)
  }

  /** No wake-up is lost: a driver that will not look at the channel again before waiting, while
      something is queued, has a permit stored or is about to get one. */
  predicate WakeupSafe(w: WriteSide) {
    w.chan != [] && (w.phase.Flushing? || w.phase.Rested? || w.phase.Waiting?) ==> w.permit || w.notifying
  }

  /** Queues in the table are non-empty, and after a pass each of them is blocked. */
  ghost predicate QueuesOk(w: WriteSide) {
    match w.phase
    case Awake => forall s | s in w.pending :: w.pending[s] != []
    case Draining => forall s | s in w.pending :: w.pending[s] != []
    case Flushing(todo) =>
      && todo <= w.pending.Keys && w.stuck !! todo
      && forall s | s in w.pending && s !in todo :: w.pending[s] != [] && s in w.stuck
    case _ => forall s | s in w.pending :: w.pending[s] != [] && s in w.stuck
  }

  ghost predicate WriteInv(w: WriteSide) {
    && (forall s :: ConservedAt(w, s) && SentAt(w, s))
    && (forall s :: SegmentsOk(w, s))
    && WakeupSafe(w)
    && QueuesOk(w)
    && |w.chan| <= WRITE_CHANNEL_CAPACITY
  }

  lemma {:induction false} QueuedSnoc(chan: seq<StreamWriter>, m: StreamWriter, s: StreamId)
    ensures Queued(chan + [m], s)
         == if m.stream == s then Queued(chan, s) + [ChunkOf(m)] else Queued(chan, s)
  {
    if chan == [] {
      assert chan + [m] == [m];
      assert [m][1..] == [];
      assert Queued([m], s) == if m.stream == s then [ChunkOf(m)] + Queued([], s) else Queued([], s);
    } else {
      assert (chan + [m])[1..] == chan[1..] + [m];
      QueuedSnoc(chan[1..], m, s);
    }
  }

  lemma SettledSnoc(segs: seq<Segment>, seg: Segment)
    ensures SettledItems(segs + [seg]) == SettledItems(segs) + seg.items
    ensures AcceptedItems(segs + [seg])
         == if seg.accepted then AcceptedItems(segs) + seg.items else AcceptedItems(segs)
  {
    assert (segs + [seg])[..|segs|] == segs;
  }

  lemma OneChunk(c: Chunk)
    ensures AllItems([c]) == Items(c)
  {
    assert [c][1..] == [];
    assert AllItems([c]) == Items(c) + AllItems([]);
  }

  lemma SubmitConserves(w: WriteSide, m: StreamWriter, s: StreamId)
    requires ConservedAt(w, s) && Enabled(w, Submit(m))
    ensures ConservedAt(Apply(w, Submit(m)), s)
  {
    var w', c := Apply(w, Submit(m)), ChunkOf(m);
    QueuedSnoc(w.chan, m, s);
    if m.stream == s {
      OneChunk(c);
      AllItemsConcat(Queued(w.chan, s), [c]);
      Assoc(AllItems(At(w.pending, s)), AllItems(Queued(w.chan, s)), Items(c));
      assert Outstanding(w', s) == Outstanding(w, s) + Items(c);
      Assoc(SettledItems(At(w.settled, s)), Outstanding(w, s), Items(c));
    }
  }

  lemma DrainConserves(w: WriteSide, s: StreamId)
    requires ConservedAt(w, s) && Enabled(w, DrainOne)
    ensures ConservedAt(Apply(w, DrainOne), s)
  {
    var w', c := Apply(w, DrainOne), ChunkOf(w.chan[0]);
    if w.chan[0].stream == s {
      var rest := Queued(w.chan[1..], s);
      OneChunk(c);
      AllItemsConcat(At(w.pending, s), [c]);
      AllItemsConcat([c], rest);
      Assoc(AllItems(At(w.pending, s)), Items(c), AllItems(rest));
      assert Outstanding(w', s) == Outstanding(w, s);
    }
  }

  /** A segment moves from the front of what is outstanding to the end of what is settled. */
  lemma MoveConserves(w: WriteSide, w': WriteSide, s: StreamId, seg: Segment)
    requires ConservedAt(w, s) && SentAt(w, s)
    requires w'.submitted == w.submitted && w'.chan == w.chan
    requires At(w'.settled, s) == At(w.settled, s) + [seg]
    requires AllItems(At(w.pending, s)) == seg.items + AllItems(At(w'.pending, s))
    requires At(w'.sent, s) == if seg.accepted then At(w.sent, s) + seg.items else At(w.sent, s)
    requires s in w.failed || !seg.accepted ==> s in w'.failed
    ensures ConservedAt(w', s) && SentAt(w', s)
  {
    SettledSnoc(At(w.settled, s), seg);
    Assoc(seg.items, AllItems(At(w'.pending, s)), AllItems(Queued(w.chan, s)));
    assert Outstanding(w, s) == seg.items + Outstanding(w', s);
    Assoc(SettledItems(At(w.settled, s)), seg.items, Outstanding(w', s));
  }

  lemma PopConserves(w: WriteSide, s: StreamId, accepted: bool)
    requires ConservedAt(w, s) && SentAt(w, s) && HasHead(w, s)
    ensures ConservedAt(PopHead(w, s, accepted), s) && SentAt(PopHead(w, s, accepted), s)
  {
    MoveConserves(w, PopHead(w, s, accepted), s, Segment(Items(w.pending[s][0]), accepted));
  }

  lemma CutConserves(w: WriteSide, s: StreamId, n: nat)
    requires ConservedAt(w, s) && SentAt(w, s) && HasHead(w, s) && n <= |w.pending[s][0].bytes|
    ensures ConservedAt(CutHead(w, s, n), s) && SentAt(CutHead(w, s, n), s)
  {
    var queue, head := w.pending[s], w.pending[s][0];
    var rest := Chunk(head.bytes[n..], head.fin);
    ItemsSplit(head.bytes, head.fin, n);
    assert queue[0 := rest][1..] == queue[1..];
    Assoc(Octets(head.bytes[..n]), Items(rest), AllItems(queue[1..]));
    MoveConserves(w, CutHead(w, s, n), s, Segment(Octets(head.bytes[..n]), true));
  }

  lemma BlockConserves(w: WriteSide, s: StreamId)
    requires ConservedAt(w, s) && SentAt(w, s) && w.phase.Flushing?
    ensures ConservedAt(Block(w, s), s) && SentAt(Block(w, s), s)
  {
  }

  lemma SendConserves(w: WriteSide, s: StreamId, reply: Reply)
    requires ConservedAt(w, s) && SentAt(w, s) && Enabled(w, Send(s, reply))
    ensures ConservedAt(ApplySend(w, s, reply), s) && SentAt(ApplySend(w, s, reply), s)
  {
    match reply
    case Accepted(n) =>
      if n == |w.pending[s][0].bytes| {
        PopConserves(w, s, true);
      } else {
        CutConserves(w, s, n);
        BlockConserves(CutHead(w, s, n), s);
      }
    case Done => BlockConserves(w, s);
    case Failed => PopConserves(w, s, false);
  }

  ghost predicate SameAt(w: WriteSide, w': WriteSide, t: StreamId) {
    && At(w'.pending, t) == At(w.pending, t) && At(w'.settled, t) == At(w.settled, t)
    && At(w'.sent, t) == At(w.sent, t) && (t in w'.failed <==> t in w.failed)
    && At(w'.submitted, t) == At(w.submitted, t) && Queued(w'.chan, t) == Queued(w.chan, t)
  }

  /** A send on one stream leaves every other stream alone. */
  lemma SendLeavesOthers(w: WriteSide, s: StreamId, reply: Reply, t: StreamId)
    requires Enabled(w, Send(s, reply)) && s != t
    ensures SameAt(w, ApplySend(w, s, reply), t)
  {
    match reply
    case Accepted(n) =>
      assert SameAt(w, PopHead(w, s, true), t);
      assert SameAt(w, CutHead(w, s, n), t);
    case Done =>
    case Failed => assert SameAt(w, PopHead(w, s, false), t);
  }

  lemma OtherStepLeaves(w: WriteSide, a: Action, s: StreamId)
    requires Enabled(w, a) && !a.Submit? && !a.DrainOne? && !(a.Send? && a.s == s)
    ensures SameAt(w, Apply(w, a), s)
  {
    if a.Send? { SendLeavesOthers(w, a.s, a.reply, s); }
  }

  lemma SameAtConserves(w: WriteSide, w': WriteSide, s: StreamId)
    requires ConservedAt(w, s) && SentAt(w, s) && SameAt(w, w', s)
    ensures ConservedAt(w', s) && SentAt(w', s)
  {
  }

  lemma StepConserves(w: WriteSide, a: Action, s: StreamId)
    requires ConservedAt(w, s) && SentAt(w, s) && Enabled(w, a)
    ensures ConservedAt(Apply(w, a), s) && SentAt(Apply(w, a), s)
  {
    if a.Submit? {
      SubmitConserves(w, a.msg, s);
    } else if a.DrainOne? {
      DrainConserves(w, s);
    } else if a.Send? && a.s == s {
      SendConserves(w, s, a.reply);
    } else {
      OtherStepLeaves(w, a, s);
      SameAtConserves(w, Apply(w, a), s);
    }
  }

  lemma ItemsEndWithFin(c: Chunk, n: nat)
    requires n <= |c.bytes|
    ensures FinLast(Items(c)) && FinLast(Octets(c.bytes[..n]))
  {
    FinNotInOctets(c.bytes);
    FinNotInOctets(c.bytes[..n]);
    assert forall i | 0 <= i < |Octets(c.bytes)| :: Items(c)[i] == Octets(c.bytes)[i];
  }

  lemma SendKeepsSegments(w: WriteSide, s: StreamId, reply: Reply)
    requires SegmentsOk(w, s) && Enabled(w, Send(s, reply))
    ensures SegmentsOk(ApplySend(w, s, reply), s)
  {
    ItemsEndWithFin(w.pending[s][0], if reply.Accepted? then reply.n else 0);
  }

  lemma StepKeepsSegments(w: WriteSide, a: Action, s: StreamId)
    requires SegmentsOk(w, s) && Enabled(w, a)
    ensures SegmentsOk(Apply(w, a), s)
  {
    if a.Send? {
      if a.s == s {
        SendKeepsSegments(w, s, a.reply);
      } else {
        SendLeavesOthers(w, a.s, a.reply, s);
      }
    }
  }

  lemma SendKeepsQueues(w: WriteSide, s: StreamId, reply: Reply)
    requires QueuesOk(w) && Enabled(w, Send(s, reply))
    ensures QueuesOk(ApplySend(w, s, reply))
  {
    match reply
    case Accepted(n) =>
      assert QueuesOk(PopHead(w, s, true));
      assert QueuesOk(CutHead(w, s, n));
    case Done =>
    case Failed => assert QueuesOk(PopHead(w, s, false));
  }

  lemma StepKeepsQueues(w: WriteSide, a: Action)
    requires QueuesOk(w) && Enabled(w, a)
    ensures QueuesOk(Apply(w, a))
  {
    if a.Send? {
      SendKeepsQueues(w, a.s, a.reply);
    }
  }

  /** Every step of a connection's write side keeps the invariant. */
  lemma StepKeepsInv(w: WriteSide, a: Action)
    requires WriteInv(w) && Enabled(w, a)
    ensures WriteInv(Apply(w, a))
  {
    var w' := Apply(w, a);
    forall s ensures ConservedAt(w', s) && SentAt(w', s) {
      StepConserves(w, a, s);
    }
    forall s ensures SegmentsOk(w', s) {
      StepKeepsSegments(w, a, s);
    }
    StepKeepsQueues(w, a);
  }

  lemma InitialInv()
    ensures WriteInv(Initial)
  {
  }

  // ---- runs and what they guarantee ----

  predicate Step(w: WriteSide, a: Action, w': WriteSide) {
    Enabled(w, a) && w' == Apply(w, a)
  }

  ghost predicate Run(run: seq<WriteSide>, acts: seq<Action>) {
    && |run| == |acts| + 1 && run[0] == Initial
    && forall i | 0 <= i < |acts| :: Step(run[i], acts[i], run[i + 1])
  }

  lemma NextKeepsInv(w: WriteSide, a: Action, w': WriteSide)
    requires WriteInv(w) && Step(w, a, w')
    ensures WriteInv(w')
  {
    StepKeepsInv(w, a);
  }

  /** The invariant holds along every run. */
  lemma {:induction false} RunKeepsInv(run: seq<WriteSide>, acts: seq<Action>, k: nat)
    requires Run(run, acts) && k <= |acts|
    ensures WriteInv(run[k])
    decreases k, 1
  {
    if k > 0 {
      RunStepKeepsInv(run, acts, k - 1);
    } else {
      InitialInv();
    }
  }

  lemma {:induction false} RunStepKeepsInv(run: seq<WriteSide>, acts: seq<Action>, k: nat)
    requires Run(run, acts) && k < |acts|
    ensures WriteInv(run[k + 1])
    decreases k + 1, 0
  {
    RunKeepsInv(run, acts, k);
    NextKeepsInv(run[k], acts[k], run[k + 1]);
  }

  predicate Refused(w: WriteSide, a: Action, s: StreamId) {
    && a.Send? && a.s == s && Enabled(w, a)
    && (a.reply.Done? || (a.reply.Accepted? && a.reply.n < |w.pending[s][0].bytes|))
  }

  /** The last send on `s` before state `k` was step `i`, and quiche took less than it was offered. */
  ghost predicate LastSendRefused(run: seq<WriteSide>, acts: seq<Action>, k: nat, s: StreamId, i: nat)
    requires |run| == |acts| + 1 && k <= |acts|
  {
    && i < k && Refused(run[i], acts[i], s)
    && forall j | i < j < k && acts[j].Send? :: acts[j].s != s
  }

  /** How a step changes the set of streams given up in this pass. */
  lemma StuckAfterStep(w: WriteSide, a: Action, s: StreamId)
    requires Enabled(w, a) && s in Apply(w, a).stuck && (w.phase.Flushing? ==> w.stuck !! w.phase.todo)
    ensures Refused(w, a, s) || (s in w.stuck && (a.Send? ==> a.s != s))
  {
  }

  lemma RefusedStays(run: seq<WriteSide>, acts: seq<Action>, k: nat, s: StreamId, i: nat)
    requires k < |acts| && |run| == |acts| + 1 && LastSendRefused(run, acts, k, s, i)
    requires acts[k].Send? ==> acts[k].s != s
    ensures LastSendRefused(run, acts, k + 1, s, i)
  {
  }

  /** The step at `k` gave up on `s`, or left it given up. */
  lemma StuckAfterRunStep(run: seq<WriteSide>, acts: seq<Action>, k: nat, s: StreamId)
    requires Run(run, acts) && k < |acts| && s in run[k + 1].stuck
    ensures Refused(run[k], acts[k], s) || (s in run[k].stuck && (acts[k].Send? ==> acts[k].s != s))
  {
    assert Step(run[k], acts[k], run[k + 1]);
    RunKeepsInv(run, acts, k);
    assert QueuesOk(run[k]);
    StuckAfterStep(run[k], acts[k], s);
  }

  lemma {:induction false} StuckMeansRefused(run: seq<WriteSide>, acts: seq<Action>, k: nat, s: StreamId)
    returns (i: nat)
    requires Run(run, acts) && k <= |acts| && s in run[k].stuck
    ensures LastSendRefused(run, acts, k, s, i)
    decreases k, 1
  {
    assert k > 0;
    i := StuckOneMore(run, acts, k - 1, s);
  }

  lemma {:induction false} StuckOneMore(run: seq<WriteSide>, acts: seq<Action>, k: nat, s: StreamId)
    returns (i: nat)
    requires Run(run, acts) && k < |acts| && s in run[k + 1].stuck
    ensures LastSendRefused(run, acts, k + 1, s, i)
    decreases k + 1, 0
  {
    StuckAfterRunStep(run, acts, k, s);
    if Refused(run[k], acts[k], s) {
      i := k;
    } else {
      i := StuckMeansRefused(run, acts, k, s);
      RefusedStays(run, acts, k, s, i);
    }
  }

  /** Work conserving: whenever the driver is not inside process_writes but has been through it since
      the last wake-up, every queue it still keeps is non-empty, and the last thing quiche said about
      that stream was that it would not take what it was offered. */
  lemma FlushIsWorkConserving(run: seq<WriteSide>, acts: seq<Action>, k: nat, s: StreamId)
    requires Run(run, acts) && k <= |acts| && (run[k].phase.Rested? || run[k].phase.Waiting?)
    requires s in run[k].pending
    ensures run[k].pending[s] != [] && exists i :: LastSendRefused(run, acts, k, s, i)
  {
    RunKeepsInv(run, acts, k);
    assert QueuesOk(run[k]);
    var i := StuckMeansRefused(run, acts, k, s);
  }

  lemma {:induction false} SettledPrefix(segs: seq<Segment>, i: nat)
    requires i <= |segs|
    ensures SettledItems(segs[..i]) <= SettledItems(segs)
  {
    if i == |segs| {
      assert segs[..i] == segs;
    } else {
      SettledPrefix(segs[..|segs| - 1], i);
      assert segs[..|segs| - 1][..i] == segs[..i];
    }
  }

  lemma FinEndsSegment(items: seq<Item>)
    requires FinLast(items) && Fin in items
    ensures |items| > 0 && items[|items| - 1] == Fin
  {
    var k :| 0 <= k < |items| && items[k] == Fin;
    assert k == |items| - 1;
  }

  /** When quiche accepts a FIN of `s`, everything submitted on `s` before it has been settled by
      earlier sends, and the FIN is the last item of its own send. */
  lemma FinAcceptedLast(w: WriteSide, s: StreamId, i: nat)
    requires WriteInv(w) && i < |At(w.settled, s)| && Fin in At(w.settled, s)[i].items
    ensures var upTo := SettledItems(At(w.settled, s)[..i + 1]);
            && upTo == SettledItems(At(w.settled, s)[..i]) + At(w.settled, s)[i].items
            && upTo <= At(w.submitted, s)
            && |upTo| > 0 && At(w.submitted, s)[|upTo| - 1] == Fin
  {
    var segs := At(w.settled, s);
    assert segs[..i + 1] == segs[..i] + [segs[i]];
    SettledSnoc(segs[..i], segs[i]);
    SettledPrefix(segs, i + 1);
    assert ConservedAt(w, s);
    assert segs[i] in segs && SegmentsOk(w, s);
    FinEndsSegment(segs[i].items);
  }

  ghost predicate Reachable(w: WriteSide) {
    exists run: seq<WriteSide>, acts: seq<Action> :: Run(run, acts) && w == run[|acts|]
  }

  lemma Go(w: WriteSide, a: Action) returns (w': WriteSide)
    requires Reachable(w) && Enabled(w, a)
    ensures w' == Apply(w, a) && Reachable(w')
  {
    var run, acts :| Run(run, acts) && w == run[|acts|];
    w' := Apply(w, a);
    var run', acts' := run + [w'], acts + [a];
    forall i | 0 <= i < |acts'| ensures Step(run'[i], acts'[i], run'[i + 1]) {
      if i < |acts| {
        assert Step(run[i], acts[i], run[i + 1]);
      }
    }
    assert Run(run', acts');
  }

  // ---- what a sequence of steps leads to ----

  ghost predicate WriteStep(w: WriteSide, w': WriteSide) {
    exists a :: Step(w, a, w')
  }

  /** A run of the write side from `from` to `to`. */
  ghost predicate WriteRun(run: seq<WriteSide>, from: WriteSide, to: WriteSide) {
    && run != [] && run[0] == from && run[|run| - 1] == to
    && forall i | 0 < i < |run| :: WriteStep(run[i - 1], run[i])
  }

  /** `to` is reached from `from` by steps of the write side. */
  ghost predicate Writes(from: WriteSide, to: WriteSide) {
    exists run: seq<WriteSide> :: WriteRun(run, from, to)
  }

  lemma WritesNothing(w: WriteSide)
    ensures Writes(w, w)
  {
    assert WriteRun([w], w, w);
  }

  lemma WritesMore(from: WriteSide, w: WriteSide, a: Action, w': WriteSide)
    requires Writes(from, w) && Step(w, a, w')
    ensures Writes(from, w')
  {
    var run :| WriteRun(run, from, w);
    assert WriteStep(w, w');
    WriteRunGrows(run, from, w, w');
  }

  lemma WriteRunGrows(run: seq<WriteSide>, from: WriteSide, w: WriteSide, w': WriteSide)
    requires WriteRun(run, from, w) && WriteStep(w, w')
    ensures WriteRun(run + [w'], from, w')
  {
    var more := run + [w'];
    forall i | 0 < i < |more| ensures WriteStep(more[i - 1], more[i]) {
      if i < |run| {
        assert WriteStep(run[i - 1], run[i]);
      }
    }
  }

  lemma WriteRunShrinks(run: seq<WriteSide>, from: WriteSide, to: WriteSide)
    requires WriteRun(run, from, to) && |run| > 1
    ensures WriteRun(run[..|run| - 1], from, run[|run| - 2]) && WriteStep(run[|run| - 2], to)
  {
    assert WriteStep(run[|run| - 2], run[|run| - 1]);
  }

  lemma WritesPop(from: WriteSide, w: WriteSide, s: StreamId, accepted: bool)
    requires Writes(from, w) && HasHead(w, s) && s in w.phase.todo
    ensures Writes(from, PopHead(w, s, accepted))
  {
    var reply := if accepted then Accepted(|w.pending[s][0].bytes|) else Failed;
    WritesMore(from, w, Send(s, reply), PopHead(w, s, accepted));
  }

  lemma WritesCut(from: WriteSide, w: WriteSide, s: StreamId, n: nat)
    requires Writes(from, w) && HasHead(w, s) && s in w.phase.todo && n < |w.pending[s][0].bytes|
    ensures Writes(from, Block(CutHead(w, s, n), s))
  {
    WritesMore(from, w, Send(s, Accepted(n)), Block(CutHead(w, s, n), s));
  }

  lemma WritesBlocked(from: WriteSide, w: WriteSide, s: StreamId)
    requires Writes(from, w) && HasHead(w, s) && s in w.phase.todo
    ensures Writes(from, Block(w, s))
  {
    WritesMore(from, w, Send(s, Done), Block(w, s));
  }

  lemma WriteStepKeepsInv(w: WriteSide, w': WriteSide)
    requires WriteStep(w, w') && WriteInv(w)
    ensures WriteInv(w')
  {
    var a :| Step(w, a, w');
    NextKeepsInv(w, a, w');
  }

  lemma {:induction false} WriteRunKeepsInv(run: seq<WriteSide>, from: WriteSide, to: WriteSide)
    requires WriteRun(run, from, to) && WriteInv(from)
    ensures WriteInv(to)
    decreases |run|
  {
    if |run| > 1 {
      WriteRunShrinks(run, from, to);
      WriteRunKeepsInv(run[..|run| - 1], from, run[|run| - 2]);
      WriteStepKeepsInv(run[|run| - 2], to);
    }
  }

  /** Whatever the write side leads to satisfies the invariant. */
  lemma WritesKeepInv(from: WriteSide, to: WriteSide)
    requires Writes(from, to) && WriteInv(from)
    ensures WriteInv(to)
  {
    var run :| WriteRun(run, from, to);
    WriteRunKeepsInv(run, from, to);
  }
}
