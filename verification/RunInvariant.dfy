/** The invariant over whole runs of the engine, and how runs are extended. */
module RunInvariant {
  import opened Types
  import S = Server
  import opened System
  import opened ServerStepInvariant

  lemma InitialInv()
    ensures Inv(Initial)
  {
  }

  lemma ServerAcceptsGrow(s: System, a: S.Action)
    requires S.Enabled(s.sv, a)
    ensures s.sv.accepts <= ApplyServer(s, a).sv.accepts
  {
    DriversAfter(s, a);
  }

  lemma AcceptsGrow(s: System, a: Action)
    requires Enabled(s, a)
    ensures s.sv.accepts <= Apply(s, a).sv.accepts
  {
    if a.Server? {
      ServerAcceptsGrow(s, a.sa);
    }
  }

  lemma {:induction false} AcceptsGrowAlong(run: seq<System>, acts: seq<Action>, k: nat, m: nat)
    requires Run(run, acts) && k <= m <= |acts|
    ensures run[k].sv.accepts <= run[m].sv.accepts
    decreases m
  {
    if k < m {
      assert Step(run[m - 1], acts[m - 1], run[m]);
      AcceptsGrow(run[m - 1], acts[m - 1]);
      AcceptsGrowAlong(run, acts, k, m - 1);
    }
  }

  /** In every state of every run with at most 2^64 accepted connections the invariant holds. */
  lemma {:induction false} RunKeepsInv(run: seq<System>, acts: seq<Action>, k: nat)
    requires Run(run, acts) && k <= |acts| && run[k].sv.accepts <= U64_VALUES
    ensures Inv(run[k])
  {
    if k == 0 {
      InitialInv();
    } else {
      assert Step(run[k - 1], acts[k - 1], run[k]);
      AcceptsGrow(run[k - 1], acts[k - 1]);
      RunKeepsInv(run, acts, k - 1);
      StepKeepsInv(run[k - 1], acts[k - 1]);
    }
  }

  lemma ReachableKeepsInv(s: System)
    requires Reachable(s) && s.sv.accepts <= U64_VALUES
    ensures Inv(s)
  {
    var run, acts :| Run(run, acts) && s == run[|acts|];
    RunKeepsInv(run, acts, |acts|);
  }

  /** Every state of a run is reachable. */
  lemma PrefixRun(run: seq<System>, acts: seq<Action>, h: nat)
    requires Run(run, acts) && h <= |acts|
    ensures Reachable(run[h])
  {
    var run', acts' := run[..h + 1], acts[..h];
    forall i | 0 <= i < |acts'| ensures Step(run'[i], acts'[i], run'[i + 1]) {
      assert Step(run[i], acts[i], run[i + 1]);
    }
    assert Run(run', acts') && run'[|acts'|] == run[h];
  }

  /** A run goes on with any further step. */
  lemma ExtendRun(run: seq<System>, acts: seq<Action>, a: Action, t: System)
    requires Run(run, acts) && Step(run[|acts|], a, t)
    ensures Run(run + [t], acts + [a])
  {
    var run', acts' := run + [t], acts + [a];
    forall i | 0 <= i < |acts'| ensures Step(run'[i], acts'[i], run'[i + 1]) {
      if i < |acts| {
        assert Step(run[i], acts[i], run[i + 1]);
      }
    }
  }

  lemma Go(s: System, a: Action) returns (t: System)
    requires Reachable(s) && Enabled(s, a)
    ensures t == Apply(s, a) && Reachable(t)
  {
    var run, acts :| Run(run, acts) && s == run[|acts|];
    t := Apply(s, a);
    ExtendRun(run, acts, a, t);
    assert (run + [t])[|acts + [a]|] == t;
  }

  /** The run ends with these states and actions. */
  predicate GoesThrough(run: seq<System>, acts: seq<Action>, states: seq<System>, more: seq<Action>) {
    && |more| <= |acts| && |run| == |acts| + 1
    && run[|acts| - |more|..] == states && acts[|acts| - |more|..] == more
  }

  /** Steps from a reachable state end some run. */
  lemma RunThrough(states: seq<System>, more: seq<Action>)
    requires |states| == |more| + 1 && Reachable(states[0])
    requires forall j | 0 <= j < |more| :: Step(states[j], more[j], states[j + 1])
    ensures exists run, acts :: Run(run, acts) && GoesThrough(run, acts, states, more)
  {
    var run0, acts0 :| Run(run0, acts0) && states[0] == run0[|acts0|];
    var at := |acts0|;
    var run, acts := run0[..at] + states, acts0 + more;
    forall j | 0 <= j < |acts| ensures Step(run[j], acts[j], run[j + 1]) {
      if j < at {
        assert Step(run0[j], acts0[j], run0[j + 1]);
      } else {
        assert Step(states[j - at], more[j - at], states[j - at + 1]);
      }
    }
    assert Run(run, acts) && GoesThrough(run, acts, states, more);
  }
}
