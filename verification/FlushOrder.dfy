/** The flush pass when quiche's answers on a stream depend on that stream alone: each stream ends
    exactly as if it had been flushed alone, whatever the order in which the pass visits the streams. */
module FlushOrder {
  import opened Types
  import opened WritePass

  /** How quiche answers on one stream: any function of what it was offered there in this pass, up to and
      including the chunk it answers. */
  type Policy = seq<Chunk> -> Reply

  /** quiche never accepts more than it is offered. */
  function Answer(policy: Policy, offers: seq<Chunk>): Reply
    requires offers != []
  {
    var reply, size := policy(offers), |offers[|offers| - 1].bytes|;
    if reply.Accepted? && reply.n > size then Accepted(size) else reply
  }

  datatype Outcome = Outcome(rest: seq<Chunk>, sent: seq<Item>)

  /** Reference: flush one queue on its own. */
  function FlushAlone(queue: seq<Chunk>, policy: Policy, offers: seq<Chunk>): Outcome {
    if queue == [] then Outcome([], [])
    else
      var tried := offers + [queue[0]];
      match Answer(policy, tried)
      case Accepted(n) =>
        if n == |queue[0].bytes| then
          var o := FlushAlone(queue[1..], policy, tried);
          Outcome(o.rest, Items(queue[0]) + o.sent)
        else
          Outcome(queue[0 := Chunk(queue[0].bytes[n..], queue[0].fin)], Octets(queue[0].bytes[..n]))
      case Done => Outcome(queue, [])
      case Failed => FlushAlone(queue[1..], policy, tried)
  }

  /** A flush pass with what was offered on each stream so far. */
  datatype Pass = Pass(w: WriteSide, offers: map<StreamId, seq<Chunk>>)

  /** quiche as a family of policies, one for each stream. */
  type Policies = StreamId -> Policy

  predicate CanSend(p: Pass, s: StreamId) {
    HasHead(p.w, s) && s in p.w.phase.todo
  }

  function Tried(p: Pass, s: StreamId): seq<Chunk>
    requires CanSend(p, s)
  {
    At(p.offers, s) + [p.w.pending[s][0]]
  }

  function SendStep(quic: Policies, p: Pass, s: StreamId): Pass
    requires CanSend(p, s)
  {
    Pass(ApplySend(p.w, s, Answer(quic(s), Tried(p, s))), p.offers[s := Tried(p, s)])
  }

  ghost predicate PassStep(quic: Policies, p: Pass, p': Pass) {
    || (exists s :: CanSend(p, s) && p' == SendStep(quic, p, s))
    || (exists s :: Enabled(p.w, Retire(s)) && p' == p.(w := Apply(p.w, Retire(s))))
  }

  ghost predicate PassRun(quic: Policies, run: seq<Pass>) {
    && run != [] && run[0].w.phase.Flushing? && run[0].w.phase.todo == run[0].w.pending.Keys
    && run[0].offers == map[]
    && forall i | 0 < i < |run| :: PassStep(quic, run[i - 1], run[i])
  }

  /** What is still to come on `t`, added to what was sent so far, is the reference outcome. */
  ghost predicate OnCourse(policy: Policy, p: Pass, t: StreamId, sent0: seq<Item>, o: Outcome) {
    && p.w.phase.Flushing?
    && (t in p.w.phase.todo ==>
          var f := FlushAlone(At(p.w.pending, t), policy, At(p.offers, t));
          f.rest == o.rest && At(p.w.sent, t) + f.sent == sent0 + o.sent)
    && (t !in p.w.phase.todo ==> At(p.w.pending, t) == o.rest && At(p.w.sent, t) == sent0 + o.sent)
  }

  lemma SendStaysOnCourse(quic: Policies, p: Pass, t: StreamId, sent0: seq<Item>, o: Outcome)
    requires OnCourse(quic(t), p, t, sent0, o) && CanSend(p, t)
    ensures OnCourse(quic(t), SendStep(quic, p, t), t, sent0, o)
  {
    var queue, tried := p.w.pending[t], Tried(p, t);
    match Answer(quic(t), tried)
    case Accepted(n) =>
      if n == |queue[0].bytes| {
        var o' := FlushAlone(queue[1..], quic(t), tried);
        Assoc(At(p.w.sent, t), Items(queue[0]), o'.sent);
      }
    case Done => assert At(p.w.sent, t) + [] == At(p.w.sent, t);
    case Failed =>
  }

  lemma SendElsewhereStaysOnCourse(quic: Policies, p: Pass, s: StreamId, t: StreamId, sent0: seq<Item>, o: Outcome)
    requires OnCourse(quic(t), p, t, sent0, o) && CanSend(p, s) && s != t
    ensures OnCourse(quic(t), SendStep(quic, p, s), t, sent0, o)
  {
    SendLeavesOthers(p.w, s, Answer(quic(s), Tried(p, s)), t);
    assert At(SendStep(quic, p, s).offers, t) == At(p.offers, t);
  }

  lemma RetireStaysOnCourse(policy: Policy, p: Pass, s: StreamId, t: StreamId, sent0: seq<Item>, o: Outcome)
    requires OnCourse(policy, p, t, sent0, o) && Enabled(p.w, Retire(s))
    ensures OnCourse(policy, p.(w := Apply(p.w, Retire(s))), t, sent0, o)
  {
    if s == t {
      assert FlushAlone([], policy, At(p.offers, t)) == Outcome([], []);
      assert At(p.w.sent, t) + [] == At(p.w.sent, t);
    }
  }

  lemma StepStaysOnCourse(quic: Policies, p: Pass, p': Pass, t: StreamId, sent0: seq<Item>, o: Outcome)
    requires OnCourse(quic(t), p, t, sent0, o) && PassStep(quic, p, p')
    ensures OnCourse(quic(t), p', t, sent0, o)
  {
    if s :| CanSend(p, s) && p' == SendStep(quic, p, s) {
      if s == t {
        SendStaysOnCourse(quic, p, t, sent0, o);
      } else {
        SendElsewhereStaysOnCourse(quic, p, s, t, sent0, o);
      }
    } else {
      var s :| Enabled(p.w, Retire(s)) && p' == p.(w := Apply(p.w, Retire(s)));
      RetireStaysOnCourse(quic(t), p, s, t, sent0, o);
    }
  }

  lemma {:induction false} RunStaysOnCourse(quic: Policies, run: seq<Pass>, k: nat, t: StreamId)
    requires PassRun(quic, run) && k < |run|
    ensures OnCourse(quic(t), run[k], t, At(run[0].w.sent, t), FlushAlone(At(run[0].w.pending, t), quic(t), []))
  {
    var sent0 := At(run[0].w.sent, t);
    if k == 0 {
      assert sent0 + [] == sent0;
    } else {
      RunStaysOnCourse(quic, run, k - 1, t);
      StepStaysOnCourse(quic, run[k - 1], run[k], t, sent0, FlushAlone(At(run[0].w.pending, t), quic(t), []));
    }
  }

  /** Flush independence: a completed pass leaves on every stream the queue and the accepted items of that
      stream flushed alone. Two passes from the same state therefore agree, in any order. */
  lemma FlushIndependent(quic: Policies, run: seq<Pass>, t: StreamId)
    requires PassRun(quic, run) && run[|run| - 1].w.phase == Flushing({})
    ensures var o := FlushAlone(At(run[0].w.pending, t), quic(t), []);
            && At(run[|run| - 1].w.pending, t) == o.rest
            && At(run[|run| - 1].w.sent, t) == At(run[0].w.sent, t) + o.sent
  {
    RunStaysOnCourse(quic, run, |run| - 1, t);
  }

  // ---- a send window ----

  function ByteCount(queue: seq<Chunk>): nat {
    if queue == [] then 0 else |queue[0].bytes| + ByteCount(queue[1..])
  }

  function Minus(n: nat, m: nat): nat {
    if n < m then 0 else n - m
  }

  /** What is left of a window of `n` bytes after these offers. */
  function LeftOf(n: nat, offers: seq<Chunk>): nat {
    if offers == [] then n else Minus(LeftOf(n, offers[..|offers| - 1]), |offers[|offers| - 1].bytes|)
  }

  function WindowReply(left: nat, size: nat): Reply {
    if size <= left then Accepted(size) else if left == 0 then Done else Accepted(left)
  }

  function Window(n: nat): Policy {
    (offers: seq<Chunk>) =>
      if offers == [] then Done
      else WindowReply(LeftOf(n, offers[..|offers| - 1]), |offers[|offers| - 1].bytes|)
  }

  lemma WindowAnswers(n: nat, offers: seq<Chunk>, c: Chunk)
    ensures Answer(Window(n), offers + [c]) == WindowReply(LeftOf(n, offers), |c.bytes|)
    ensures LeftOf(n, offers + [c]) == Minus(LeftOf(n, offers), |c.bytes|)
  {
    assert (offers + [c])[..|offers|] == offers;
  }

  ghost predicate FillsWindow(queue: seq<Chunk>, left: nat, o: Outcome) {
    && AllItems(queue) == o.sent + AllItems(o.rest)
    && ByteCount(o.rest) == Minus(ByteCount(queue), left)
    && (o.rest == [] <==> ByteCount(queue) <= left)
  }

  /** The head fits: the rest of the queue gets the rest of the window. */
  lemma HeadFits(queue: seq<Chunk>, left: nat, o: Outcome)
    requires queue != [] && |queue[0].bytes| <= left && FillsWindow(queue[1..], left - |queue[0].bytes|, o)
    ensures FillsWindow(queue, left, Outcome(o.rest, Items(queue[0]) + o.sent))
  {
    Assoc(Items(queue[0]), o.sent, AllItems(o.rest));
  }

  /** The head does not fit: what the window still takes of it is cut off. */
  lemma HeadIsCut(queue: seq<Chunk>, left: nat)
    requires queue != [] && left < |queue[0].bytes|
    ensures var rest := Chunk(queue[0].bytes[left..], queue[0].fin);
            FillsWindow(queue, left, Outcome(queue[0 := rest], Octets(queue[0].bytes[..left])))
  {
    var rest := Chunk(queue[0].bytes[left..], queue[0].fin);
    ItemsSplit(queue[0].bytes, queue[0].fin, left);
    assert queue[0 := rest][1..] == queue[1..];
    Assoc(Octets(queue[0].bytes[..left]), Items(rest), AllItems(queue[1..]));
  }

  lemma FlushWindowStep(queue: seq<Chunk>, n: nat, offers: seq<Chunk>)
    requires queue != []
    ensures var head, left := queue[0], LeftOf(n, offers);
            var o := FlushAlone(queue[1..], Window(n), offers + [head]);
            FlushAlone(queue, Window(n), offers) ==
              if |head.bytes| <= left then Outcome(o.rest, Items(head) + o.sent)
              else if left == 0 then Outcome(queue, [])
              else Outcome(queue[0 := Chunk(head.bytes[left..], head.fin)], Octets(head.bytes[..left]))
  {
    WindowAnswers(n, offers, queue[0]);
  }

  /** What flushing alone means under a window: an ordered split of the queue that uses the window to the
      full, and leaves something queued exactly when the window is too small. */
  lemma {:induction false} FlushAloneFillsWindow(queue: seq<Chunk>, n: nat, offers: seq<Chunk>)
    ensures FillsWindow(queue, LeftOf(n, offers), FlushAlone(queue, Window(n), offers))
    decreases |queue|
  {
    if queue != [] {
      var head, left := queue[0], LeftOf(n, offers);
      WindowAnswers(n, offers, head);
      FlushWindowStep(queue, n, offers);
      if |head.bytes| <= left {
        FlushAloneFillsWindow(queue[1..], n, offers + [head]);
        HeadFits(queue, left, FlushAlone(queue[1..], Window(n), offers + [head]));
      } else {
        HeadIsCut(queue, left);
        if left == 0 {
          assert queue[0 := Chunk(head.bytes[0..], head.fin)] == queue;
        }
      }
    }
  }

  // ---- one window shared by all streams of the connection ----

  type Queues = map<StreamId, seq<Chunk>>

  function Load(queues: Queues, s: StreamId): nat {
    ByteCount(At(queues, s))
  }

  /** The streams visited before place `i`. */
  function Before(order: seq<StreamId>, i: nat): set<StreamId>
    requires i <= |order|
  {
    set k | 0 <= k < i :: order[k]
  }

  /** An order in which `retain` may visit the table. */
  ghost predicate Visits(order: seq<StreamId>, ids: set<StreamId>) {
    && (forall i, j | 0 <= i < j < |order| :: order[i] != order[j])
    && Before(order, |order|) == ids
  }

  /** What the streams visited before place `i` leave of the shared window. */
  function LeftAt(queues: Queues, order: seq<StreamId>, i: nat, n: nat): nat
    requires i <= |order|
  {
    if i == 0 then n else Minus(LeftAt(queues, order, i - 1, n), Load(queues, order[i - 1]))
  }

  function SharedOutcome(queues: Queues, order: seq<StreamId>, i: nat, n: nat): Outcome
    requires i < |order|
  {
    FlushAlone(At(queues, order[i]), Window(LeftAt(queues, order, i, n)), [])
  }

  /** The bytes queued on a set of streams. */
  ghost function Total(queues: Queues, ids: set<StreamId>): nat {
    if ids == {} then 0
    else var s :| s in ids; Load(queues, s) + Total(queues, ids - {s})
  }

  lemma {:induction false} TotalPick(queues: Queues, ids: set<StreamId>, s: StreamId)
    requires s in ids
    ensures Total(queues, ids) == Load(queues, s) + Total(queues, ids - {s})
    decreases |ids|
  {
    var t :| t in ids && Total(queues, ids) == Load(queues, t) + Total(queues, ids - {t});
    if t != s {
      TotalPick(queues, ids - {t}, s);
      TotalPick(queues, ids - {s}, t);
      assert ids - {t} - {s} == ids - {s} - {t};
    }
  }

  lemma {:induction false} TotalMonotone(queues: Queues, some: set<StreamId>, all: set<StreamId>)
    requires some <= all
    ensures Total(queues, some) <= Total(queues, all)
    decreases |some|
  {
    if some != {} {
      var s :| s in some;
      TotalPick(queues, some, s);
      TotalPick(queues, all, s);
      TotalMonotone(queues, some - {s}, all - {s});
    }
  }

  lemma {:induction false} LeftIsTotal(queues: Queues, order: seq<StreamId>, i: nat, n: nat)
    requires i <= |order| && forall j, k | 0 <= j < k < |order| :: order[j] != order[k]
    ensures LeftAt(queues, order, i, n) == Minus(n, Total(queues, Before(order, i)))
  {
    if i > 0 {
      LeftIsTotal(queues, order, i - 1, n);
      TotalPick(queues, Before(order, i), order[i - 1]);
      assert Before(order, i) - {order[i - 1]} == Before(order, i - 1);
    }
  }

  /** No two orders of visit give any stream different outcomes. */
  ghost predicate OrderIrrelevant(queues: Queues, n: nat) {
    forall o1, o2, i, j |
      Visits(o1, queues.Keys) && Visits(o2, queues.Keys) && 0 <= i < |o1| && 0 <= j < |o2| && o1[i] == o2[j] ::
      SharedOutcome(queues, o1, i, n) == SharedOutcome(queues, o2, j, n)
  }

  predicate AtMostOneHasBytes(queues: Queues) {
    forall s, t | s in queues && t in queues && Load(queues, s) > 0 && Load(queues, t) > 0 :: s == t
  }

  lemma FitsCompletely(queue: seq<Chunk>, n: nat)
    requires ByteCount(queue) <= n
    ensures FlushAlone(queue, Window(n), []) == Outcome([], AllItems(queue))
  {
    FlushAloneFillsWindow(queue, n, []);
    var o := FlushAlone(queue, Window(n), []);
    assert o.sent + [] == o.sent;
  }

  lemma {:induction false} NoLoad(queues: Queues, ids: set<StreamId>)
    requires forall s | s in ids :: Load(queues, s) == 0
    ensures Total(queues, ids) == 0
    decreases |ids|
  {
    if ids != {} {
      var s :| s in ids;
      TotalPick(queues, ids, s);
      NoLoad(queues, ids - {s});
    }
  }

  lemma LeftBefore(queues: Queues, order: seq<StreamId>, i: nat, n: nat)
    requires Visits(order, queues.Keys) && i < |order|
    ensures LeftAt(queues, order, i, n) == Minus(n, Total(queues, Before(order, i)))
    ensures Total(queues, Before(order, i)) + Load(queues, order[i]) <= Total(queues, queues.Keys)
    ensures order[i] in queues && forall t | t in Before(order, i) :: t in queues && t != order[i]
  {
    var s, upTo := order[i], Before(order, i + 1);
    LeftIsTotal(queues, order, i, n);
    assert upTo <= Before(order, |order|) && s in upTo;
    assert upTo - {s} == Before(order, i);
    TotalPick(queues, upTo, s);
    TotalMonotone(queues, upTo, queues.Keys);
  }

  /** Under each of the three conditions the outcome at a place depends on the stream only. */
  lemma OutcomeByStream(queues: Queues, order: seq<StreamId>, i: nat, n: nat)
    requires Visits(order, queues.Keys) && i < |order|
    requires n == 0 || Total(queues, queues.Keys) <= n || AtMostOneHasBytes(queues)
    ensures SharedOutcome(queues, order, i, n)
         == if n > 0 && (Total(queues, queues.Keys) <= n || Load(queues, order[i]) == 0)
            then Outcome([], AllItems(At(queues, order[i])))
            else FlushAlone(At(queues, order[i]), Window(n), [])
  {
    LeftBefore(queues, order, i, n);
    if n > 0 && (Total(queues, queues.Keys) <= n || Load(queues, order[i]) == 0) {
      FitsCompletely(At(queues, order[i]), LeftAt(queues, order, i, n));
    } else if n > 0 {
      NoLoad(queues, Before(order, i));
    }
  }

  lemma {:induction false} SomeOrder(ids: set<StreamId>) returns (order: seq<StreamId>)
    ensures Visits(order, ids)
    decreases |ids|
  {
    if ids == {} {
      order := [];
    } else {
      var s :| s in ids;
      order := SomeOrder(ids - {s});
      VisitLast(order, ids - {s}, s);
      order := order + [s];
    }
  }

  lemma VisitLast(order: seq<StreamId>, ids: set<StreamId>, s: StreamId)
    requires Visits(order, ids) && s !in ids
    ensures Visits(order + [s], ids + {s}) && Before(order + [s], |order|) == ids
  {
    var more := order + [s];
    assert forall k | 0 <= k < |order| :: more[k] == order[k] && order[k] in Before(order, |order|);
    assert Before(more, |order|) == ids;
    assert more[|order|] == s;
    forall t ensures t in Before(more, |more|) <==> t in ids + {s} {
      if t in ids {
        assert t in Before(more, |order|);
      }
    }
  }

  lemma VisitFirst(order: seq<StreamId>, ids: set<StreamId>, s: StreamId)
    requires Visits(order, ids) && s !in ids
    ensures Visits([s] + order, ids + {s})
  {
    var more := [s] + order;
    assert forall k | 0 <= k < |order| :: more[k + 1] == order[k] && order[k] in Before(order, |order|);
    forall t ensures t in Before(more, |more|) <==> t in ids + {s} {
      if t in ids {
        var k :| 0 <= k < |order| && order[k] == t;
        assert more[k + 1] == t;
      } else if t == s {
        assert more[0] == s;
      }
    }
  }

  lemma LeftBehind(queues: Queues, order: seq<StreamId>, i: nat, n: nat, before: nat)
    requires Visits(order, queues.Keys) && i < |order| && before == Total(queues, Before(order, i))
    ensures ByteCount(SharedOutcome(queues, order, i, n).rest) == Minus(Load(queues, order[i]), Minus(n, before))
  {
    var left := LeftAt(queues, order, i, n);
    LeftBefore(queues, order, i, n);
    LeftInQueue(At(queues, order[i]), left);
  }

  lemma LeftInQueue(queue: seq<Chunk>, left: nat)
    ensures ByteCount(FlushAlone(queue, Window(left), []).rest) == Minus(ByteCount(queue), left)
  {
    FlushAloneFillsWindow(queue, left, []);
  }

  lemma FirstAndLast(ids: set<StreamId>, a: StreamId) returns (o1: seq<StreamId>, o2: seq<StreamId>)
    requires a in ids
    ensures Visits(o1, ids) && Visits(o2, ids) && |o1| == |o2| > 0 && o1[0] == o2[|o2| - 1] == a
    ensures Before(o1, 0) == {} && Before(o2, |o2| - 1) == ids - {a}
  {
    var rest := SomeOrder(ids - {a});
    o1, o2 := [a] + rest, rest + [a];
    assert ids - {a} + {a} == ids;
    VisitFirst(rest, ids - {a}, a);
    VisitLast(rest, ids - {a}, a);
  }

  lemma MinusDiffers(load: nat, others: nat, n: nat)
    requires load > 0 && others > 0 && 0 < n < load + others
    ensures Minus(load, n) != Minus(load, Minus(n, others))
  {
  }

  /** Visited first a stream has the whole window, visited last what the others leave of it. */
  lemma FirstAndLastLeave(queues: Queues, n: nat, a: StreamId, others: nat, o1: seq<StreamId>, o2: seq<StreamId>)
    requires a in queues && others == Total(queues, queues.Keys - {a})
    requires Visits(o1, queues.Keys) && |o1| > 0 && o1[0] == a && Before(o1, 0) == {}
    requires Visits(o2, queues.Keys) && |o2| > 0 && o2[|o2| - 1] == a && Before(o2, |o2| - 1) == queues.Keys - {a}
    ensures ByteCount(SharedOutcome(queues, o1, 0, n).rest) == Minus(Load(queues, a), n)
    ensures ByteCount(SharedOutcome(queues, o2, |o2| - 1, n).rest) == Minus(Load(queues, a), Minus(n, others))
  {
    LeftBehind(queues, o1, 0, n, 0);
    LeftBehind(queues, o2, |o2| - 1, n, others);
  }

  /** First or last makes a difference to a stream with bytes, if another one has bytes too and the
      window is neither empty nor large enough for all. */
  lemma FirstOrLastMatters(queues: Queues, n: nat, a: StreamId, b: StreamId)
    returns (o1: seq<StreamId>, o2: seq<StreamId>)
    requires 0 < n < Total(queues, queues.Keys) && a in queues && b in queues && a != b
    requires Load(queues, a) > 0 && Load(queues, b) > 0
    ensures Visits(o1, queues.Keys) && Visits(o2, queues.Keys) && |o1| == |o2| > 0 && o1[0] == o2[|o2| - 1] == a
    ensures SharedOutcome(queues, o1, 0, n) != SharedOutcome(queues, o2, |o2| - 1, n)
  {
    var others := Total(queues, queues.Keys - {a});
    OthersLoad(queues, a, b);
    MinusDiffers(Load(queues, a), others, n);
    o1, o2 := FirstAndLast(queues.Keys, a);
    FirstAndLastLeave(queues, n, a, others, o1, o2);
  }

  lemma OthersLoad(queues: Queues, a: StreamId, b: StreamId)
    requires a in queues && b in queues && a != b && Load(queues, b) > 0
    ensures Total(queues, queues.Keys) == Load(queues, a) + Total(queues, queues.Keys - {a})
    ensures Total(queues, queues.Keys - {a}) > 0
  {
    TotalPick(queues, queues.Keys, a);
    TotalPick(queues, queues.Keys - {a}, b);
  }

  /** With one window shared by the connection the visiting order does not matter if and only if the window
      is empty, or everything fits, or at most one stream has bytes. */
  lemma SharedWindowOrder(queues: Queues, n: nat)
    ensures OrderIrrelevant(queues, n) <==>
              n == 0 || Total(queues, queues.Keys) <= n || AtMostOneHasBytes(queues)
  {
    if n == 0 || Total(queues, queues.Keys) <= n || AtMostOneHasBytes(queues) {
      forall o1, o2, i, j |
        Visits(o1, queues.Keys) && Visits(o2, queues.Keys) && 0 <= i < |o1| && 0 <= j < |o2| && o1[i] == o2[j]
        ensures SharedOutcome(queues, o1, i, n) == SharedOutcome(queues, o2, j, n)
      {
        OutcomeByStream(queues, o1, i, n);
        OutcomeByStream(queues, o2, j, n);
      }
    } else {
      var a, b :| a in queues && b in queues && Load(queues, a) > 0 && Load(queues, b) > 0 && a != b;
      var o1, o2 := FirstOrLastMatters(queues, n, a, b);
    }
  }

  // ---- the pass itself under a shared window ----

  /** A pass that visits the streams in a given order; `left` is what all offers so far, on whatever stream,
      have left of the window. */
  datatype SharedPass = SharedPass(w: WriteSide, left: nat, at: nat)

  predicate CanOffer(p: SharedPass, order: seq<StreamId>) {
    p.at < |order| && HasHead(p.w, order[p.at]) && order[p.at] in p.w.phase.todo
  }

  function Offer(p: SharedPass, order: seq<StreamId>): SharedPass
    requires CanOffer(p, order)
  {
    var s := order[p.at];
    var size := |p.w.pending[s][0].bytes|;
    var w := ApplySend(p.w, s, WindowReply(p.left, size));
    SharedPass(w, Minus(p.left, size), if size <= p.left then p.at else p.at + 1)
  }

  predicate CanRetire(p: SharedPass, order: seq<StreamId>) {
    p.at < |order| && Enabled(p.w, Retire(order[p.at]))
  }

  ghost predicate SharedStep(p: SharedPass, p': SharedPass, order: seq<StreamId>) {
    || (CanOffer(p, order) && p' == Offer(p, order))
    || (CanRetire(p, order) && p' == SharedPass(Apply(p.w, Retire(order[p.at])), p.left, p.at + 1))
  }

  ghost predicate SharedRun(run: seq<SharedPass>, order: seq<StreamId>, n: nat) {
    && run != [] && run[0].w.phase == Flushing(run[0].w.pending.Keys) && run[0].left == n && run[0].at == 0
    && Visits(order, run[0].w.pending.Keys)
    && forall i | 0 < i < |run| :: SharedStep(run[i - 1], run[i], order)
  }

  /** Flushing a queue alone under a window, written out. */
  function FlushUnder(queue: seq<Chunk>, left: nat): Outcome {
    if queue == [] then Outcome([], [])
    else
      var head := queue[0];
      if |head.bytes| <= left then
        var o := FlushUnder(queue[1..], left - |head.bytes|);
        Outcome(o.rest, Items(head) + o.sent)
      else if left == 0 then Outcome(queue, [])
      else Outcome(queue[0 := Chunk(head.bytes[left..], head.fin)], Octets(head.bytes[..left]))
  }

  lemma FlushUnderStep(queue: seq<Chunk>, left: nat)
    requires queue != []
    ensures var head := queue[0];
            var o := FlushUnder(queue[1..], Minus(left, |head.bytes|));
            FlushUnder(queue, left) ==
              if |head.bytes| <= left then Outcome(o.rest, Items(head) + o.sent)
              else if left == 0 then Outcome(queue, [])
              else Outcome(queue[0 := Chunk(head.bytes[left..], head.fin)], Octets(head.bytes[..left]))
  {
  }

  lemma {:induction false} FlushUnderIsAlone(queue: seq<Chunk>, n: nat, offers: seq<Chunk>)
    ensures FlushUnder(queue, LeftOf(n, offers)) == FlushAlone(queue, Window(n), offers)
    decreases |queue|
  {
    if queue != [] {
      FlushUnderIsAlone(queue[1..], n, offers + [queue[0]]);
      WindowAnswers(n, offers, queue[0]);
      FlushUnderStep(queue, LeftOf(n, offers));
      FlushWindowStep(queue, n, offers);
    }
  }

  ghost predicate Visited(p: SharedPass, t: StreamId, sent0: seq<Item>, o: Outcome) {
    p.w.phase.Flushing? && At(p.w.pending, t) == o.rest && At(p.w.sent, t) == sent0 + o.sent
  }

  /** Flushing `queue` alone under `left` adds to `sent` what is missing for the outcome `o`, and will leave
      `after` of the window. */
  ghost predicate Remains(queue: seq<Chunk>, left: nat, sent: seq<Item>, sent0: seq<Item>, o: Outcome, after: nat) {
    && Minus(left, ByteCount(queue)) == after
    && FlushUnder(queue, left).rest == o.rest && sent + FlushUnder(queue, left).sent == sent0 + o.sent
  }

  lemma HeadSent(queue: seq<Chunk>, left: nat, sent: seq<Item>, sent0: seq<Item>, o: Outcome, after: nat)
    requires queue != [] && |queue[0].bytes| <= left && Remains(queue, left, sent, sent0, o, after)
    ensures Remains(queue[1..], left - |queue[0].bytes|, sent + Items(queue[0]), sent0, o, after)
  {
    Assoc(sent, Items(queue[0]), FlushUnder(queue[1..], left - |queue[0].bytes|).sent);
  }

  ghost predicate Visiting(p: SharedPass, t: StreamId, sent0: seq<Item>, o: Outcome, after: nat) {
    && p.w.phase.Flushing? && t in p.w.phase.todo
    && Remains(At(p.w.pending, t), p.left, At(p.w.sent, t), sent0, o, after)
  }

  lemma OfferPops(p: SharedPass, order: seq<StreamId>)
    requires CanOffer(p, order) && |p.w.pending[order[p.at]][0].bytes| <= p.left
    ensures var t, queue, p' := order[p.at], p.w.pending[order[p.at]], Offer(p, order);
            && p'.at == p.at && p'.left == p.left - |queue[0].bytes| && p'.w.phase == p.w.phase
            && At(p'.w.pending, t) == queue[1..] && At(p'.w.sent, t) == At(p.w.sent, t) + Items(queue[0])
  {
    assert Offer(p, order).w == PopHead(p.w, order[p.at], true);
  }

  lemma OfferFits(p: SharedPass, order: seq<StreamId>, sent0: seq<Item>, o: Outcome, after: nat)
    requires CanOffer(p, order) && Visiting(p, order[p.at], sent0, o, after)
    requires |p.w.pending[order[p.at]][0].bytes| <= p.left
    ensures Offer(p, order).at == p.at && Visiting(Offer(p, order), order[p.at], sent0, o, after)
  {
    OfferPops(p, order);
    HeadSent(p.w.pending[order[p.at]], p.left, At(p.w.sent, order[p.at]), sent0, o, after);
  }

  lemma OfferEnds(p: SharedPass, order: seq<StreamId>, sent0: seq<Item>, o: Outcome, after: nat)
    requires CanOffer(p, order) && Visiting(p, order[p.at], sent0, o, after)
    requires p.left < |p.w.pending[order[p.at]][0].bytes|
    ensures Offer(p, order).at == p.at + 1 && Offer(p, order).left == after
    ensures Visited(Offer(p, order), order[p.at], sent0, o)
  {
    var t := order[p.at];
    assert At(p.w.sent, t) + [] == At(p.w.sent, t);
  }

  lemma RetireEnds(p: SharedPass, order: seq<StreamId>, sent0: seq<Item>, o: Outcome, after: nat)
    requires CanRetire(p, order) && Visiting(p, order[p.at], sent0, o, after)
    ensures p.left == after
    ensures Visited(p.(w := Apply(p.w, Retire(order[p.at])), at := p.at + 1), order[p.at], sent0, o)
  {
    var t := order[p.at];
    assert FlushUnder([], p.left) == Outcome([], []);
    assert At(p.w.sent, t) + [] == At(p.w.sent, t);
  }

  ghost predicate SameStream(p: SharedPass, p': SharedPass, t: StreamId) {
    && p.w.phase.Flushing? && p'.w.phase.Flushing?
    && At(p'.w.pending, t) == At(p.w.pending, t) && At(p'.w.sent, t) == At(p.w.sent, t)
    && (t in p'.w.phase.todo <==> t in p.w.phase.todo)
  }

  lemma OtherStreamsStay(p: SharedPass, p': SharedPass, order: seq<StreamId>, t: StreamId)
    requires SharedStep(p, p', order) && t != order[p.at]
    ensures SameStream(p, p', t)
  {
    if CanOffer(p, order) {
      var s := order[p.at];
      SendLeavesOthers(p.w, s, WindowReply(p.left, |p.w.pending[s][0].bytes|), t);
    }
  }

  /** Where a pass from `p0` with a window of `n` stands with the stream at place `j`. */
  ghost predicate PlaceOk(p: SharedPass, p0: SharedPass, order: seq<StreamId>, n: nat, j: nat)
    requires j < |order|
  {
    var t, o := order[j], SharedOutcome(p0.w.pending, order, j, n);
    if j < p.at then Visited(p, t, At(p0.w.sent, t), o)
    else if j == p.at then Visiting(p, t, At(p0.w.sent, t), o, LeftAt(p0.w.pending, order, j + 1, n))
    else SameStream(p0, p, t) && t in p.w.phase.todo
  }

  /** Beginning the visit at place `j` with the window that the earlier ones leave. */
  lemma BeginVisit(p: SharedPass, p0: SharedPass, order: seq<StreamId>, n: nat, j: nat)
    requires j < |order| && p.at == j && p.left == LeftAt(p0.w.pending, order, j, n)
    requires SameStream(p0, p, order[j]) && order[j] in p.w.phase.todo
    ensures PlaceOk(p, p0, order, n, j)
  {
    FlushUnderIsAlone(At(p0.w.pending, order[j]), p.left, []);
  }

  /** One step of the visit at place `p.at`: it goes on, or it ends and hands on what it left. */
  ghost predicate VisitGoesOn(p: SharedPass, p': SharedPass, t: StreamId, sent0: seq<Item>, o: Outcome, after: nat) {
    || (p'.at == p.at && Visiting(p', t, sent0, o, after))
    || (p'.at == p.at + 1 && p'.left == after && Visited(p', t, sent0, o))
  }

  lemma StepOfVisit(p: SharedPass, p': SharedPass, order: seq<StreamId>, sent0: seq<Item>, o: Outcome, after: nat)
    requires SharedStep(p, p', order) && Visiting(p, order[p.at], sent0, o, after)
    ensures VisitGoesOn(p, p', order[p.at], sent0, o, after)
  {
    if CanRetire(p, order) {
      RetireEnds(p, order, sent0, o, after);
    } else if |p.w.pending[order[p.at]][0].bytes| <= p.left {
      OfferFits(p, order, sent0, o, after);
    } else {
      OfferEnds(p, order, sent0, o, after);
    }
  }

  /** The same at place `j`, against the reference outcome of that place. */
  ghost predicate GoesOnAt(p: SharedPass, p': SharedPass, p0: SharedPass, order: seq<StreamId>, n: nat, j: nat)
    requires j < |order|
  {
    VisitGoesOn(p, p', order[j], At(p0.w.sent, order[j]), SharedOutcome(p0.w.pending, order, j, n),
                LeftAt(p0.w.pending, order, j + 1, n))
  }

  lemma PlaceGoesOn(p: SharedPass, p': SharedPass, p0: SharedPass, order: seq<StreamId>, n: nat)
    requires SharedStep(p, p', order) && PlaceOk(p, p0, order, n, p.at)
    ensures GoesOnAt(p, p', p0, order, n, p.at)
  {
    var t := order[p.at];
    StepOfVisit(p, p', order, At(p0.w.sent, t), SharedOutcome(p0.w.pending, order, p.at, n),
                LeftAt(p0.w.pending, order, p.at + 1, n));
  }

  lemma GoesOnIsPlace(p: SharedPass, p': SharedPass, p0: SharedPass, order: seq<StreamId>, n: nat)
    requires p.at < |order| && GoesOnAt(p, p', p0, order, n, p.at)
    ensures PlaceOk(p', p0, order, n, p.at) && (p'.at == p.at || p'.at == p.at + 1)
    ensures p'.at == p.at + 1 ==> p'.left == LeftAt(p0.w.pending, order, p'.at, n)
  {
  }

  lemma StepAtPlace(p: SharedPass, p': SharedPass, p0: SharedPass, order: seq<StreamId>, n: nat)
    requires SharedStep(p, p', order) && PlaceOk(p, p0, order, n, p.at)
    ensures PlaceOk(p', p0, order, n, p.at) && (p'.at == p.at || p'.at == p.at + 1)
    ensures p'.at == p.at + 1 ==> p'.left == LeftAt(p0.w.pending, order, p'.at, n)
  {
    PlaceGoesOn(p, p', p0, order, n);
    GoesOnIsPlace(p, p', p0, order, n);
  }

  lemma StepElsewhere(p: SharedPass, p': SharedPass, p0: SharedPass, order: seq<StreamId>, n: nat, j: nat)
    requires SharedStep(p, p', order) && Visits(order, p0.w.pending.Keys) && j < |order| && j != p.at
    requires PlaceOk(p, p0, order, n, j) && (p'.at == p.at || p'.at == p.at + 1)
    requires p'.at == p.at + 1 ==> p'.left == LeftAt(p0.w.pending, order, p'.at, n)
    ensures PlaceOk(p', p0, order, n, j)
  {
    OtherStreamsStay(p, p', order, order[j]);
    if j == p'.at {
      BeginVisit(p', p0, order, n, j);
    }
  }

  lemma StepKeepsPlace(p: SharedPass, p': SharedPass, p0: SharedPass, order: seq<StreamId>, n: nat, j: nat)
    requires SharedStep(p, p', order) && Visits(order, p0.w.pending.Keys) && j < |order|
    requires PlaceOk(p, p0, order, n, j) && PlaceOk(p, p0, order, n, p.at)
    ensures PlaceOk(p', p0, order, n, j)
  {
    StepAtPlace(p, p', p0, order, n);
    if j != p.at {
      StepElsewhere(p, p', p0, order, n, j);
    }
  }

  lemma PlacesAtStart(p0: SharedPass, order: seq<StreamId>, n: nat, j: nat)
    requires p0.w.phase == Flushing(p0.w.pending.Keys) && p0.left == n && p0.at == 0
    requires Visits(order, p0.w.pending.Keys) && j < |order|
    ensures PlaceOk(p0, p0, order, n, j)
  {
    assert order[j] in Before(order, |order|);
    if j == 0 {
      BeginVisit(p0, p0, order, n, 0);
    }
  }

  lemma {:induction false} PlacesAlong(run: seq<SharedPass>, order: seq<StreamId>, n: nat, k: nat, j: nat)
    requires SharedRun(run, order, n) && k < |run| && j < |order|
    ensures PlaceOk(run[k], run[0], order, n, j)
    decreases k, 1
  {
    if k == 0 {
      PlacesAtStart(run[0], order, n, j);
    } else {
      PlaceOneMore(run, order, n, k - 1, j);
    }
  }

  lemma {:induction false} PlaceOneMore(run: seq<SharedPass>, order: seq<StreamId>, n: nat, k: nat, j: nat)
    requires SharedRun(run, order, n) && k + 1 < |run| && j < |order|
    ensures PlaceOk(run[k + 1], run[0], order, n, j)
    decreases k + 1, 0
  {
    assert SharedStep(run[k], run[k + 1], order);
    PlacesAlong(run, order, n, k, j);
    PlacesAlong(run, order, n, k, run[k].at);
    StepKeepsPlace(run[k], run[k + 1], run[0], order, n, j);
  }

  /** A completed pass under a shared window leaves on each stream the reference outcome of its place in the
      order of visits; so `SharedWindowOrder` is about passes. */
  lemma SharedPassOutcome(run: seq<SharedPass>, order: seq<StreamId>, n: nat, j: nat)
    requires SharedRun(run, order, n) && run[|run| - 1].at == |order| && j < |order|
    ensures var t, o := order[j], SharedOutcome(run[0].w.pending, order, j, n);
            && At(run[|run| - 1].w.pending, t) == o.rest
            && At(run[|run| - 1].w.sent, t) == At(run[0].w.sent, t) + o.sent
  {
    PlacesAlong(run, order, n, |run| - 1, j);
  }
}
