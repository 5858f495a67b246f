/** When what quiche accepted on a stream is a prefix of what PHP submitted there. A hard error drops a
    chunk and the pass goes on with the next one; the order is broken exactly by a later send that
    takes something on a stream that has already dropped something. */
module WriteOrder {
  import opened Types
  import opened WritePass

  // ---- the accepted items as positions among the submitted ones ----

  function Span(from: nat, n: nat): seq<nat> {
    seq(n, i requires 0 <= i < n => from + i)
  }

  /** Where the accepted items stand among the settled ones. */
  function Positions(segs: seq<Segment>): seq<nat> {
    if segs == [] then []
    else
      var m := |segs| - 1;
      var before := Positions(segs[..m]);
      if segs[m].accepted then before + Span(|SettledItems(segs[..m])|, |segs[m].items|) else before
  }

  predicate Gapless(ps: seq<nat>) {
    forall i | 0 <= i < |ps| :: ps[i] == i
  }

  /** Segment `j` was accepted although segment `i` before it had been dropped. */
  predicate Overtakes(segs: seq<Segment>, i: nat, j: nat) {
    && i < j < |segs|
    && !segs[i].accepted && segs[i].items != []
    && segs[j].accepted && segs[j].items != []
  }

  ghost predicate InOrder(segs: seq<Segment>) {
    forall i: nat, j: nat :: !Overtakes(segs, i, j)
  }

  predicate DroppedSome(segs: seq<Segment>) {
    exists i :: 0 <= i < |segs| && !segs[i].accepted && segs[i].items != []
  }

  /** The positions are increasing, and pick the accepted items out of the settled ones. */
  lemma {:induction false} PositionsPickAccepted(segs: seq<Segment>)
    ensures var ps := Positions(segs);
            && |ps| == |AcceptedItems(segs)|
            && (forall i | 0 <= i < |ps| :: ps[i] < |SettledItems(segs)|)
            && (forall i | 0 <= i < |ps| :: AcceptedItems(segs)[i] == SettledItems(segs)[ps[i]])
            && (forall i, j | 0 <= i < j < |ps| :: ps[i] < ps[j])
  {
    if segs != [] {
      PositionsPickAccepted(segs[..|segs| - 1]);
    }
  }

  lemma {:induction false} DroppedIffFewer(segs: seq<Segment>)
    ensures |AcceptedItems(segs)| <= |SettledItems(segs)|
    ensures DroppedSome(segs) <==> |AcceptedItems(segs)| < |SettledItems(segs)|
  {
    if segs != [] {
      var m := |segs| - 1;
      DroppedIffFewer(segs[..m]);
      DroppedSnoc(segs);
    }
  }

  lemma DroppedSnoc(segs: seq<Segment>)
    requires segs != []
    ensures var m := |segs| - 1;
            DroppedSome(segs) <==> DroppedSome(segs[..m]) || (!segs[m].accepted && segs[m].items != [])
  {
    var init := segs[..|segs| - 1];
    assert forall i | 0 <= i < |init| :: init[i] == segs[i];
    if DroppedSome(init) {
      var i :| 0 <= i < |init| && !init[i].accepted && init[i].items != [];
      assert !segs[i].accepted;
    }
  }

  lemma InOrderSnoc(segs: seq<Segment>)
    requires segs != []
    ensures var m := |segs| - 1;
            InOrder(segs) <==>
              InOrder(segs[..m]) && !(segs[m].accepted && segs[m].items != [] && DroppedSome(segs[..m]))
  {
    var m := |segs| - 1;
    var init := segs[..m];
    forall i: nat, j: nat | Overtakes(init, i, j) ensures Overtakes(segs, i, j) {
    }
    if segs[m].accepted && segs[m].items != [] && DroppedSome(init) {
      var i :| 0 <= i < |init| && !init[i].accepted && init[i].items != [];
      assert Overtakes(segs, i, m);
    }
    forall i: nat, j: nat | Overtakes(segs, i, j) && j < m ensures Overtakes(init, i, j) {
    }
    forall i: nat | Overtakes(segs, i, m) ensures DroppedSome(init) {
      assert init[i] == segs[i];
    }
  }

  /** The accepted items stand at the positions 0, 1, 2, ... if and only if no accepted segment follows a
      dropped one, empty segments aside. */
  lemma {:induction false} GaplessIffInOrder(segs: seq<Segment>)
    ensures Gapless(Positions(segs)) <==> InOrder(segs)
  {
    if segs != [] {
      var m := |segs| - 1;
      var before := Positions(segs[..m]);
      GaplessIffInOrder(segs[..m]);
      InOrderSnoc(segs);
      DroppedIffFewer(segs[..m]);
      PositionsPickAccepted(segs[..m]);
      GaplessSnoc(before, |SettledItems(segs[..m])|, |segs[m].items|);
    }
  }

  lemma GaplessSnoc(ps: seq<nat>, from: nat, n: nat)
    requires from >= |ps|
    ensures Gapless(ps + Span(from, n)) <==> Gapless(ps) && (n > 0 ==> from == |ps|)
  {
    var more := ps + Span(from, n);
    assert forall i | 0 <= i < |ps| :: more[i] == ps[i];
    assert forall i | |ps| <= i < |more| :: more[i] == from + (i - |ps|);
    assert n > 0 ==> more[|ps|] == from;
  }

  /** On any stream of any write side: quiche's items stand at known, increasing positions of what PHP
      submitted, and they are its first items if and only if no accepted segment follows a dropped one. */
  lemma SentByPosition(w: WriteSide, s: StreamId)
    requires ConservedAt(w, s) && SentAt(w, s)
    ensures var ps := Positions(At(w.settled, s));
            && |ps| == |At(w.sent, s)|
            && (forall i | 0 <= i < |ps| ::
                  ps[i] < |At(w.submitted, s)| && At(w.sent, s)[i] == At(w.submitted, s)[ps[i]])
            && (Gapless(ps) <==> InOrder(At(w.settled, s)))
            && (Gapless(ps) ==> At(w.sent, s) <= At(w.submitted, s))
  {
    var segs, ps := At(w.settled, s), Positions(At(w.settled, s));
    PositionsPickAccepted(segs);
    GaplessIffInOrder(segs);
    DroppedIffFewer(segs);
    assert SettledItems(segs) <= At(w.submitted, s);
    if Gapless(ps) {
      assert forall i | 0 <= i < |ps| :: At(w.sent, s)[i] == At(w.submitted, s)[i];
    }
  }

  // ---- the step that breaks the order ----

  /** A send that takes at least one item on a stream that has dropped at least one. */
  predicate Overtaking(w: WriteSide, a: Action, s: StreamId)
    requires Enabled(w, a)
  {
    && a.Send? && a.s == s && DroppedSome(At(w.settled, s)) && a.reply.Accepted?
    && (a.reply.n > 0 || Items(w.pending[s][0]) == [Fin])
  }

  lemma EmptyItems(c: Chunk)
    ensures Items(c) == [] <==> c.bytes == [] && !c.fin
    ensures Items(c) == [Fin] <==> c.bytes == [] && c.fin
  {
    OctetsAreTheBytes(c.bytes);
    FinNotInOctets(c.bytes);
    if c.bytes != [] {
      assert Items(c)[0] == Octets(c.bytes)[0];
      assert Items(c)[0] in Octets(c.bytes);
    }
  }

  lemma OneMoreSegment(segs: seq<Segment>, seg: Segment)
    ensures InOrder(segs + [seg]) <==> InOrder(segs) && !(seg.accepted && seg.items != [] && DroppedSome(segs))
  {
    assert (segs + [seg])[..|segs|] == segs;
    InOrderSnoc(segs + [seg]);
  }

  lemma SendOrder(w: WriteSide, s: StreamId, reply: Reply)
    requires Enabled(w, Send(s, reply))
    ensures InOrder(At(ApplySend(w, s, reply).settled, s)) <==>
              InOrder(At(w.settled, s)) && !Overtaking(w, Send(s, reply), s)
  {
    var head, segs := w.pending[s][0], At(w.settled, s);
    EmptyItems(head);
    match reply
    case Accepted(n) =>
      OctetsAreTheBytes(head.bytes[..n]);
      OneMoreSegment(segs, Segment(if n == |head.bytes| then Items(head) else Octets(head.bytes[..n]), true));
    case Done =>
    case Failed => OneMoreSegment(segs, Segment(Items(head), false));
  }

  lemma StepElsewhere(w: WriteSide, a: Action, s: StreamId)
    requires Enabled(w, a) && !(a.Send? && a.s == s)
    ensures At(Apply(w, a).settled, s) == At(w.settled, s)
  {
    if a.Send? { SendLeavesOthers(w, a.s, a.reply, s); }
  }

  lemma OrderAfterStep(w: WriteSide, a: Action, s: StreamId)
    requires Enabled(w, a)
    ensures InOrder(At(Apply(w, a).settled, s)) <==> InOrder(At(w.settled, s)) && !Overtaking(w, a, s)
  {
    if a.Send? && a.s == s {
      SendOrder(w, s, a.reply);
    } else {
      StepElsewhere(w, a, s);
    }
  }

  ghost predicate NeverOvertook(run: seq<WriteSide>, acts: seq<Action>, k: nat, s: StreamId)
    requires Run(run, acts) && k <= |acts|
  {
    forall i | 0 <= i < k :: Step(run[i], acts[i], run[i + 1]) && !Overtaking(run[i], acts[i], s)
  }

  lemma {:induction false} InOrderIffNeverOvertook(run: seq<WriteSide>, acts: seq<Action>, k: nat, s: StreamId)
    requires Run(run, acts) && k <= |acts|
    ensures InOrder(At(run[k].settled, s)) <==> NeverOvertook(run, acts, k, s)
    decreases k, 1
  {
    if k > 0 {
      OrderOneMore(run, acts, k - 1, s);
    }
  }

  lemma {:induction false} OrderOneMore(run: seq<WriteSide>, acts: seq<Action>, k: nat, s: StreamId)
    requires Run(run, acts) && k < |acts|
    ensures InOrder(At(run[k + 1].settled, s)) <==> NeverOvertook(run, acts, k + 1, s)
    decreases k + 1, 0
  {
    assert Step(run[k], acts[k], run[k + 1]);
    InOrderIffNeverOvertook(run, acts, k, s);
    OrderAfterStep(run[k], acts[k], s);
  }

  /** Over every run: what quiche accepted are the first items PHP submitted if and only if no send took
      anything on a stream that had already dropped something. */
  lemma PrefixIffNeverOvertook(run: seq<WriteSide>, acts: seq<Action>, k: nat, s: StreamId)
    requires Run(run, acts) && k <= |acts|
    ensures Gapless(Positions(At(run[k].settled, s))) <==> NeverOvertook(run, acts, k, s)
    ensures NeverOvertook(run, acts, k, s) ==> At(run[k].sent, s) <= At(run[k].submitted, s)
  {
    RunKeepsInv(run, acts, k);
    assert ConservedAt(run[k], s) && SentAt(run[k], s);
    SentByPosition(run[k], s);
    InOrderIffNeverOvertook(run, acts, k, s);
  }

  // ---- final errors ----

  /** A hard error is final for its stream (section 4.5 of RFC 9000: the final size cannot change). */
  predicate Final(w: WriteSide, a: Action) {
    a.Send? && a.s in w.failed ==> a.reply.Failed?
  }

  /** A stream that dropped something has met a hard error, so if errors are final nothing overtakes. */
  lemma FinalNeverOvertakes(w: WriteSide, a: Action, s: StreamId)
    requires SentAt(w, s) && Enabled(w, a) && Final(w, a)
    ensures !Overtaking(w, a, s)
  {
    DroppedIffFewer(At(w.settled, s));
  }

  ghost predicate Sticky(run: seq<WriteSide>, acts: seq<Action>)
    requires |run| == |acts| + 1
  {
    forall i | 0 <= i < |acts| :: Final(run[i], acts[i])
  }

  /** With final errors quiche has accepted, on every stream and at every moment of a run, a prefix of what
      PHP submitted; and what is missing is outstanding if no error was met. */
  lemma SentIsPrefixOfSubmitted(run: seq<WriteSide>, acts: seq<Action>, k: nat, s: StreamId)
    requires Run(run, acts) && Sticky(run, acts) && k <= |acts|
    ensures At(run[k].sent, s) <= At(run[k].submitted, s)
    ensures s !in run[k].failed ==> At(run[k].sent, s) + Outstanding(run[k], s) == At(run[k].submitted, s)
  {
    forall i | 0 <= i < k ensures Step(run[i], acts[i], run[i + 1]) && !Overtaking(run[i], acts[i], s) {
      RunKeepsInv(run, acts, i);
      assert Step(run[i], acts[i], run[i + 1]) && SentAt(run[i], s) && Final(run[i], acts[i]);
      FinalNeverOvertakes(run[i], acts[i], s);
    }
    PrefixIffNeverOvertook(run, acts, k, s);
    RunKeepsInv(run, acts, k);
    assert ConservedAt(run[k], s) && SentAt(run[k], s);
  }

  // ---- the condition can fail ----

  const NOTHING: StreamWriter := StreamWriter(0, Some([]), false)
  const ONE: StreamWriter := StreamWriter(0, Some([1]), false)
  const TWO: StreamWriter := StreamWriter(0, Some([2]), false)

  lemma ItemsOfChunks()
    ensures Items(ChunkOf(NOTHING)) == [] && Items(ChunkOf(ONE)) == [Octet(1)] && Items(ChunkOf(TWO)) == [Octet(2)]
  {
    assert Octets([1]) == [Octet(1)] && Octets([2]) == [Octet(2)];
  }

  /** PHP submits two messages on stream 0. */
  lemma TwoSubmitted(m1: StreamWriter, m2: StreamWriter) returns (w: WriteSide)
    requires m1.stream == m2.stream == 0
    ensures Reachable(w)
    ensures w == Initial.(permit := true, phase := Draining, chan := [m1, m2],
                          submitted := map[0 := Items(ChunkOf(m1)) + Items(ChunkOf(m2))])
  {
    assert Run([Initial], []);
    w := Go(Initial, Submit(m1));
    assert w.chan == [m1] && At(w.submitted, 0) == Items(ChunkOf(m1));
    assert w.submitted == map[0 := Items(ChunkOf(m1))];
    w := Go(w, Notify);
    w := Go(w, Submit(m2));
    assert w.chan == [m1, m2] && w.submitted == map[0 := Items(ChunkOf(m1)) + Items(ChunkOf(m2))];
    w := Go(w, Notify);
    w := Go(w, StartWrites);
  }

  lemma TwoReadyToFlush(m1: StreamWriter, m2: StreamWriter) returns (w: WriteSide)
    requires m1.stream == m2.stream == 0
    ensures Reachable(w)
    ensures w == Initial.(permit := true, phase := Flushing({0}), pending := map[0 := [ChunkOf(m1), ChunkOf(m2)]],
                          submitted := map[0 := Items(ChunkOf(m1)) + Items(ChunkOf(m2))])
  {
    w := TwoSubmitted(m1, m2);
    w := Go(w, DrainOne);
    assert w.chan == [m2] && At(w.pending, 0) == [ChunkOf(m1)];
    assert w.pending == map[0 := [ChunkOf(m1)]];
    w := Go(w, DrainOne);
    assert w.chan == [] && At(w.pending, 0) == [ChunkOf(m1), ChunkOf(m2)];
    assert w.pending == map[0 := [ChunkOf(m1), ChunkOf(m2)]];
    w := Go(w, DrainEmpty);
    assert w.pending.Keys == {0};
  }

  lemma ReachableInv(w: WriteSide)
    requires Reachable(w)
    ensures WriteInv(w)
  {
    var run, acts :| Run(run, acts) && w == run[|acts|];
    RunKeepsInv(run, acts, |acts|);
  }

  /** An error on the first chunk and none on the second: the second overtakes the first. */
  lemma NonStickyErrorsReorder()
    ensures exists w ::
              Reachable(w) && !Gapless(Positions(At(w.settled, 0))) && !(At(w.sent, 0) <= At(w.submitted, 0))
  {
    ItemsOfChunks();
    var w := TwoReadyToFlush(ONE, TWO);
    w := Go(w, Send(0, Failed));
    assert w.pending[0] == [ChunkOf(TWO)];
    w := Go(w, Send(0, Accepted(1)));
    assert At(w.sent, 0) == [Octet(2)];
    assert At(w.submitted, 0)[0] == Octet(1);
    ReachableInv(w);
    assert ConservedAt(w, 0) && SentAt(w, 0);
    SentByPosition(w, 0);
  }

  /** An error on an empty chunk is harmless although the next send succeeds: nothing was dropped. */
  lemma EmptyDropKeepsOrder()
    ensures exists w :: Reachable(w) && 0 in w.failed && At(w.sent, 0) == At(w.submitted, 0) == [Octet(1)]
  {
    ItemsOfChunks();
    var w := TwoReadyToFlush(NOTHING, ONE);
    w := Go(w, Send(0, Failed));
    assert w.pending[0] == [ChunkOf(ONE)];
    w := Go(w, Send(0, Accepted(1)));
    assert At(w.sent, 0) == [Octet(1)];
  }
}
