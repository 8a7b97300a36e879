/**
 * What every run of the engine keeps, whatever order the filters call their
 * continuations in: each chain runs its own filters one after another, the followers of
 * a group start only once its leader's chain has completed, `Finalize` fires exactly
 * once, and the output stage starts only after every chapter's chain has completed.
 */
module Safety {
  import opened Results
  import opened Setup
  import opened Engine
  import opened Invariant

  // ---------------------------------------------------------------- bookkeeping

  lemma ProjAppend(t: seq<Event>, e: Event, o: Owner)
    ensures Proj(t + [e], o) == Proj(t, o) + (if Concerns(e, o) then [e] else [])
  {
    assert (t + [e])[..|t + [e]| - 1] == t;
  }

  lemma {:induction false} InProj(t: seq<Event>, o: Owner, e: Event)
    requires e in Proj(t, o)
    ensures e in t
  {
    if t != [] {
      var front := t[..|t| - 1];
      assert t == front + [t[|t| - 1]];
      if e in Proj(front, o) {
        InProj(front, o, e);
      }
    }
  }

  lemma FiredCountAppend(t: seq<Event>, e: Event)
    ensures FiredCount(t + [e]) == FiredCount(t) + (if e.Fired? then 1 else 0)
  {
    assert (t + [e])[..|t + [e]| - 1] == t;
  }

  lemma {:induction false} CountRowUpdate(row: seq<Phase>, m: nat, p: Phase)
    requires m < |row|
    ensures CountRow(row[m := p]) + Done(row[m]) == CountRow(row) + Done(p)
  {
    var last := |row| - 1;
    if m < last {
      CountRowUpdate(row[..last], m, p);
      assert row[m := p][..last] == row[..last][m := p];
    } else {
      assert row[m := p][..last] == row[..last];
    }
  }

  lemma {:induction false} CountUpdate(chains: seq<seq<Phase>>, g: nat, m: nat, p: Phase)
    requires g < |chains| && m < |chains[g]|
    ensures CountFinished(chains[g := chains[g][m := p]]) + Done(chains[g][m]) == CountFinished(chains) + Done(p)
  {
    var last := |chains| - 1;
    var updated := chains[g := chains[g][m := p]];
    if g < last {
      CountUpdate(chains[..last], g, m, p);
      assert updated[..last] == chains[..last][g := chains[g][m := p]];
    } else {
      assert updated[..last] == chains[..last];
      CountRowUpdate(chains[g], m, p);
    }
  }

  lemma {:induction false} CountRowBound(row: seq<Phase>)
    ensures CountRow(row) <= |row|
    ensures CountRow(row) == |row| ==> forall m :: 0 <= m < |row| ==> row[m] == Finished
  {
    if row != [] {
      CountRowBound(row[..|row| - 1]);
      assert forall m :: 0 <= m < |row| - 1 ==> row[..|row| - 1][m] == row[m];
    }
  }

  /** At most every chain has finished, and when the count says so, every chain has. */
  lemma {:induction false} CountBound(chains: seq<seq<Phase>>, sched: seq<seq<Pending>>)
    requires |chains| == |sched| && forall g :: 0 <= g < |sched| ==> |chains[g]| == |sched[g]|
    ensures CountFinished(chains) <= Size(sched)
    ensures CountFinished(chains) == Size(sched) ==>
      forall g, m :: 0 <= g < |sched| && 0 <= m < |sched[g]| ==> chains[g][m] == Finished
  {
    if chains != [] {
      var last := |chains| - 1;
      CountBound(chains[..last], sched[..last]);
      CountRowBound(chains[last]);
      assert forall g :: 0 <= g < last ==> chains[..last][g] == chains[g] && sched[..last][g] == sched[g];
    }
  }

  lemma {:induction false} CountIdle(chains: seq<seq<Phase>>)
    requires forall g, m :: 0 <= g < |chains| && 0 <= m < |chains[g]| ==> chains[g][m] == Idle
    ensures CountFinished(chains) == 0
  {
    if chains != [] {
      var last := |chains| - 1;
      CountIdle(chains[..last]);
      RowIdle(chains[last]);
    }
  }

  lemma {:induction false} RowIdle(row: seq<Phase>)
    requires forall m :: 0 <= m < |row| ==> row[m] == Idle
    ensures CountRow(row) == 0
  {
    if row != [] {
      RowIdle(row[..|row| - 1]);
    }
  }

  lemma {:induction false} CountRowFull(row: seq<Phase>)
    requires forall m :: 0 <= m < |row| ==> row[m] == Finished
    ensures CountRow(row) == |row|
  {
    if row != [] {
      CountRowFull(row[..|row| - 1]);
    }
  }

  /** When every chain has finished, the count says so. */
  lemma {:induction false} CountFull(chains: seq<seq<Phase>>, sched: seq<seq<Pending>>)
    requires |chains| == |sched| && forall g :: 0 <= g < |sched| ==> |chains[g]| == |sched[g]|
    requires forall g, m :: 0 <= g < |sched| && 0 <= m < |sched[g]| ==> chains[g][m] == Finished
    ensures CountFinished(chains) == Size(sched)
  {
    if chains != [] {
      var last := |chains| - 1;
      CountFull(chains[..last], sched[..last]);
      CountRowFull(chains[last]);
    }
  }

  // ---------------------------------------------------------------- one step at a time

  /** Appending an event keeps the trace ordered when the event itself respects the order. */
  lemma TraceGrows(cfg: Config, t: seq<Event>, e: Event)
    requires TraceOrdered(cfg, t)
    requires FollowerStart(e) ==> Completed(Member(e.owner.g, 0)) in t
    requires OutputEvent(e) ==> AllCompletedIn(cfg, t)
    ensures TraceOrdered(cfg, t + [e])
  {
    var t' := t + [e];
    assert t'[..|t|] == t;
    assert forall j :: 0 <= j < |t| ==> t'[..j] == t[..j];
  }

  /** A chapter chain changing phase with one event of its own leaves every other chain's history alone. */
  lemma MemberHistories(cfg: Config, s: State, g0: nat, m0: nat, p: Phase, e: Event)
    requires Shaped(cfg, s) && Histories(cfg, s) && g0 < |cfg.sched| && m0 < |cfg.sched[g0]|
    requires (e.Started? || e.Completed?) && e.owner == Member(g0, m0)
    requires Proj(s.trace, Member(g0, m0)) + [e] == History(Member(g0, m0), cfg.sched[g0][m0].ops, p)
    ensures Shaped(cfg, MemberStep(s, g0, m0, p, e)) && Histories(cfg, MemberStep(s, g0, m0, p, e))
  {
    var s' := MemberStep(s, g0, m0, p, e);
    forall g, m | 0 <= g < |cfg.sched| && 0 <= m < |cfg.sched[g]|
      ensures Proj(s'.trace, Member(g, m)) == History(Member(g, m), cfg.sched[g][m].ops, s'.chains[g][m])
    {
      ProjAppend(s.trace, e, Member(g, m));
      if g != g0 || m != m0 {
        assert s'.chains[g][m] == s.chains[g][m];
      }
    }
    ProjAppend(s.trace, e, OutputStage);
  }

  /** The output chain changing phase with one event of its own leaves every chapter chain's history alone. */
  lemma OutputHistories(cfg: Config, s: State, p: Phase, e: Event)
    requires Shaped(cfg, s) && Histories(cfg, s)
    requires (e.Started? || e.Completed?) && e.owner == OutputStage
    requires Proj(s.trace, OutputStage) + [e] == History(OutputStage, OutOps(cfg), p)
    ensures Histories(cfg, s.(out := p, trace := s.trace + [e]))
  {
    forall g, m | 0 <= g < |cfg.sched| && 0 <= m < |cfg.sched[g]|
      ensures Proj(s.trace + [e], Member(g, m)) == Proj(s.trace, Member(g, m))
    {
      ProjAppend(s.trace, e, Member(g, m));
    }
    ProjAppend(s.trace, e, OutputStage);
  }

  lemma FiredKeepsHistories(cfg: Config, s: State, q: nat)
    requires Shaped(cfg, s) && Histories(cfg, s)
    ensures Histories(cfg, Log(s, Fired(q)))
  {
    forall g, m | 0 <= g < |cfg.sched| && 0 <= m < |cfg.sched[g]|
      ensures Proj(s.trace + [Fired(q)], Member(g, m)) == Proj(s.trace, Member(g, m))
    {
      ProjAppend(s.trace, Fired(q), Member(g, m));
    }
    ProjAppend(s.trace, Fired(q), OutputStage);
  }

  /** A finished chain has completed somewhere in the trace. */
  lemma FinishedCompleted(cfg: Config, s: State, g: nat, m: nat)
    requires Shaped(cfg, s) && Histories(cfg, s)
    requires g < |cfg.sched| && m < |cfg.sched[g]| && s.chains[g][m] == Finished
    ensures Completed(Member(g, m)) in s.trace
  {
    var o := Member(g, m);
    assert Completed(o) in Proj(s.trace, o);
    InProj(s.trace, o, Completed(o));
  }

  lemma FinishedAllCompleted(cfg: Config, s: State)
    requires Shaped(cfg, s) && Histories(cfg, s) && AllFinished(cfg, s)
    ensures AllCompletedIn(cfg, s.trace)
  {
    forall g, m | 0 <= g < |cfg.sched| && 0 <= m < |cfg.sched[g]|
      ensures Completed(Member(g, m)) in s.trace
    {
      FinishedCompleted(cfg, s, g, m);
    }
  }

  /**
   * Chapter chain `(g0, m0)` moving to phase `p` keeps every chain on its own ops and
   * every follower waiting, provided a follower only leaves `Idle` behind a finished
   * leader, and a leader that is not finished has idle followers.
   */
  lemma MemberPhases(cfg: Config, s: State, g0: nat, m0: nat, p: Phase, e: Event)
    requires Shaped(cfg, s) && Phases(cfg, s) && Waits(cfg, s)
    requires g0 < |cfg.sched| && m0 < |cfg.sched[g0]|
    requires Runs(cfg.sched[g0][m0].ops, CbFor(cfg, g0, m0), p)
    requires p.Running? ==> p.params == cfg.sched[g0][m0].params
    requires m0 > 0 && p != Idle ==> s.chains[g0][0] == Finished
    requires m0 == 0 && p != Finished ==> forall m :: 0 < m < |cfg.sched[g0]| ==> s.chains[g0][m] == Idle
    ensures Shaped(cfg, MemberStep(s, g0, m0, p, e))
    ensures Phases(cfg, MemberStep(s, g0, m0, p, e)) && Waits(cfg, MemberStep(s, g0, m0, p, e))
  {
    var s' := MemberStep(s, g0, m0, p, e);
    assert forall g, m :: 0 <= g < |cfg.sched| && 0 <= m < |cfg.sched[g]| ==>
      s'.chains[g][m] == if g == g0 && m == m0 then p else s.chains[g][m];
  }

  /** `Sequence` starting an idle chapter chain whose turn has come keeps the invariant. */
  lemma StartPreserves(cfg: Config, s: State, g: nat, m: nat)
    requires Inv(cfg, s) && g < |cfg.sched| && m < |cfg.sched[g]|
    requires s.chains[g][m] == Idle
    requires m > 0 ==> s.chains[g][0] == Finished
    ensures Inv(cfg, Sequence(s, Member(g, m), cfg.sched[g][m].ops, cfg.sched[g][m].params, CbFor(cfg, g, m)))
  {
    var c := cfg.sched[g][m];
    var o := Member(g, m);
    var cb := CbFor(cfg, g, m);
    if s.status == Live && |c.ops| >= 2 {
      var p := Running(0, ChainFrom(c.ops, 1, cb), c.params);
      var e := Started(o, 0, c.ops[0]);
      assert Sequence(s, o, c.ops, c.params, cb) == MemberStep(s, g, m, p, e);
      StartStep(cfg, s, g, m);
    }
  }

  lemma StartStep(cfg: Config, s: State, g: nat, m: nat)
    requires Inv(cfg, s) && g < |cfg.sched| && m < |cfg.sched[g]|
    requires s.chains[g][m] == Idle
    requires m > 0 ==> s.chains[g][0] == Finished
    requires |cfg.sched[g][m].ops| >= 2
    ensures Inv(cfg, MemberStep(s, g, m, Running(0, ChainFrom(cfg.sched[g][m].ops, 1, CbFor(cfg, g, m)), cfg.sched[g][m].params), Started(Member(g, m), 0, cfg.sched[g][m].ops[0])))
  {
    var c := cfg.sched[g][m];
    var s' := MemberStep(s, g, m, Running(0, ChainFrom(c.ops, 1, CbFor(cfg, g, m)), c.params), Started(Member(g, m), 0, c.ops[0]));
    StartCore(cfg, s, g, m);
    StartRecord(cfg, s, g, m);
  }

  /** Starting a chain keeps the phases, the waiting followers and the counters right. */
  lemma StartCore(cfg: Config, s: State, g: nat, m: nat)
    requires Inv(cfg, s) && g < |cfg.sched| && m < |cfg.sched[g]|
    requires s.chains[g][m] == Idle
    requires m > 0 ==> s.chains[g][0] == Finished
    requires |cfg.sched[g][m].ops| >= 2
    ensures var s' := MemberStep(s, g, m, Running(0, ChainFrom(cfg.sched[g][m].ops, 1, CbFor(cfg, g, m)), cfg.sched[g][m].params), Started(Member(g, m), 0, cfg.sched[g][m].ops[0]));
      Core(cfg, s')
  {
    var c := cfg.sched[g][m];
    var p := Running(0, ChainFrom(c.ops, 1, CbFor(cfg, g, m)), c.params);
    var e := Started(Member(g, m), 0, c.ops[0]);
    assert s.chains[g][m] != Finished;
    MemberPhases(cfg, s, g, m, p, e);
    CountUpdate(s.chains, g, m, p);
    FiredCountAppend(s.trace, e);
  }

  /** Starting a chain keeps the histories and the order of the trace right. */
  lemma StartRecord(cfg: Config, s: State, g: nat, m: nat)
    requires Inv(cfg, s) && g < |cfg.sched| && m < |cfg.sched[g]|
    requires s.chains[g][m] == Idle
    requires m > 0 ==> s.chains[g][0] == Finished
    requires |cfg.sched[g][m].ops| >= 2
    ensures var s' := MemberStep(s, g, m, Running(0, ChainFrom(cfg.sched[g][m].ops, 1, CbFor(cfg, g, m)), cfg.sched[g][m].params), Started(Member(g, m), 0, cfg.sched[g][m].ops[0]));
      Record(cfg, s')
  {
    var c := cfg.sched[g][m];
    var o := Member(g, m);
    var p := Running(0, ChainFrom(c.ops, 1, CbFor(cfg, g, m)), c.params);
    var e := Started(o, 0, c.ops[0]);
    assert Starts(o, c.ops, 1) == [e];
    MemberHistories(cfg, s, g, m, p, e);
    if m > 0 {
      FinishedCompleted(cfg, s, g, 0);
    }
    TraceGrows(cfg, s.trace, e);
  }

  /** A chain's terminal phase follows from the rest of its chain. */
  lemma ChainFromStep(ops: seq<FilterId>, i: nat, cb: Callback)
    ensures i < |ops| ==> ChainFrom(ops, i, cb) == Invoke(ops[i], ChainFrom(ops, i + 1, cb))
    ensures i >= |ops| ==> ChainFrom(ops, i, cb) == Terminal(cb)
  {
  }

  // ---------------------------------------------------------------- a filter calls `next`, more filters follow

  lemma AdvanceMember(cfg: Config, s: State, g: nat, m: nat)
    requires Inv(cfg, s) && s.status == Live && g < |cfg.sched| && m < |cfg.sched[g]|
    requires s.chains[g][m].Running? && s.chains[g][m].next.Invoke?
    ensures Inv(cfg, CallNext(cfg, s, Member(g, m)))
  {
    AdvanceMemberInv(cfg, s, g, m);
    AdvanceMemberStep(cfg, s, g, m);
  }

  lemma AdvanceMemberInv(cfg: Config, s: State, g: nat, m: nat)
    requires Inv(cfg, s) && g < |cfg.sched| && m < |cfg.sched[g]|
    requires s.chains[g][m].Running? && s.chains[g][m].next.Invoke?
    ensures Inv(cfg, MemberStep(s, g, m, Running(s.chains[g][m].stage + 1, s.chains[g][m].next.next, s.chains[g][m].params),
                                Started(Member(g, m), s.chains[g][m].stage + 1, s.chains[g][m].next.op)))
  {
    var c := cfg.sched[g][m];
    assert Runs(c.ops, CbFor(cfg, g, m), s.chains[g][m]);
    AdvanceMemberCore(cfg, s, g, m);
    AdvanceMemberRecord(cfg, s, g, m, c.ops, CbFor(cfg, g, m));
  }

  lemma AdvanceMemberStep(cfg: Config, s: State, g: nat, m: nat)
    requires s.status == Live && g < |s.chains| && m < |s.chains[g]|
    requires s.chains[g][m].Running? && s.chains[g][m].next.Invoke?
    ensures CallNext(cfg, s, Member(g, m))
      == MemberStep(s, g, m, Running(s.chains[g][m].stage + 1, s.chains[g][m].next.next, s.chains[g][m].params),
                    Started(Member(g, m), s.chains[g][m].stage + 1, s.chains[g][m].next.op))
  {
  }

  lemma AdvanceMemberCore(cfg: Config, s: State, g: nat, m: nat)
    requires Core(cfg, s) && g < |cfg.sched| && m < |cfg.sched[g]|
    requires s.chains[g][m].Running? && s.chains[g][m].next.Invoke?
    ensures Core(cfg, MemberStep(s, g, m, Running(s.chains[g][m].stage + 1, s.chains[g][m].next.next, s.chains[g][m].params), Started(Member(g, m), s.chains[g][m].stage + 1, s.chains[g][m].next.op)))
  {
    var ph := s.chains[g][m];
    var c := cfg.sched[g][m];
    var p := Running(ph.stage + 1, ph.next.next, ph.params);
    var e := Started(Member(g, m), ph.stage + 1, ph.next.op);
    ChainFromStep(c.ops, ph.stage + 1, CbFor(cfg, g, m));
    ChainFromStep(c.ops, ph.stage + 2, CbFor(cfg, g, m));
    assert s.chains[g][m] != Finished;
    MemberPhases(cfg, s, g, m, p, e);
    CountUpdate(s.chains, g, m, p);
    FiredCountAppend(s.trace, e);
  }

  lemma AdvanceMemberRecord(cfg: Config, s: State, g: nat, m: nat, ops: seq<FilterId>, cb: Callback)
    requires Record(cfg, s) && g < |cfg.sched| && m < |cfg.sched[g]| && ops == cfg.sched[g][m].ops
    requires s.chains[g][m].Running? && s.chains[g][m].next.Invoke?
    requires Runs(ops, cb, s.chains[g][m])
    ensures Record(cfg, MemberStep(s, g, m, Running(s.chains[g][m].stage + 1, s.chains[g][m].next.next, s.chains[g][m].params), Started(Member(g, m), s.chains[g][m].stage + 1, s.chains[g][m].next.op)))
  {
    var ph := s.chains[g][m];
    var p := Running(ph.stage + 1, ph.next.next, ph.params);
    var e := Started(Member(g, m), ph.stage + 1, ph.next.op);
    ChainFromStep(ops, ph.stage + 1, cb);
    ChainFromStep(ops, ph.stage + 2, cb);
    assert Starts(Member(g, m), ops, ph.stage + 2) == Starts(Member(g, m), ops, ph.stage + 1) + [e];
    MemberHistories(cfg, s, g, m, p, e);
    TraceGrows(cfg, s.trace, e);
  }

  lemma AdvanceOutput(cfg: Config, s: State)
    requires Inv(cfg, s) && s.status == Live && s.out.Running? && s.out.next.Invoke?
    ensures Inv(cfg, CallNext(cfg, s, OutputStage))
  {
    var s2 := AdvanceOutputInv(cfg, s);
    AdvanceOutputStep(cfg, s);
  }

  lemma AdvanceOutputInv(cfg: Config, s: State) returns (s2: State)
    requires Inv(cfg, s) && s.out.Running? && s.out.next.Invoke?
    ensures s2 == s.(out := Running(s.out.stage + 1, s.out.next.next, s.out.params),
                     trace := s.trace + [Started(OutputStage, s.out.stage + 1, s.out.next.op)])
    ensures Inv(cfg, s2)
  {
    var ph := s.out;
    assert cfg.output.List?;
    s2 := s.(out := Running(ph.stage + 1, ph.next.next, ph.params), trace := s.trace + [Started(OutputStage, ph.stage + 1, ph.next.op)]);
    AdvanceOutputCore(cfg, s);
    AdvanceOutputRecord(cfg, s);
  }

  lemma AdvanceOutputStep(cfg: Config, s: State)
    requires s.status == Live && s.out.Running? && s.out.next.Invoke?
    ensures CallNext(cfg, s, OutputStage)
      == s.(out := Running(s.out.stage + 1, s.out.next.next, s.out.params),
            trace := s.trace + [Started(OutputStage, s.out.stage + 1, s.out.next.op)])
  {
  }

  lemma AdvanceOutputCore(cfg: Config, s: State)
    requires Core(cfg, s) && s.out.Running? && s.out.next.Invoke? && cfg.output.List?
    ensures Core(cfg, s.(out := Running(s.out.stage + 1, s.out.next.next, s.out.params), trace := s.trace + [Started(OutputStage, s.out.stage + 1, s.out.next.op)]))
  {
    var ph := s.out;
    ChainFromStep(cfg.output.ids, ph.stage + 1, NoCallback);
    ChainFromStep(cfg.output.ids, ph.stage + 2, NoCallback);
    FiredCountAppend(s.trace, Started(OutputStage, ph.stage + 1, ph.next.op));
  }

  lemma AdvanceOutputRecord(cfg: Config, s: State)
    requires Record(cfg, s) && s.out.Running? && s.out.next.Invoke? && cfg.output.List?
    requires Runs(cfg.output.ids, NoCallback, s.out) && AllFinished(cfg, s)
    ensures Record(cfg, s.(out := Running(s.out.stage + 1, s.out.next.next, s.out.params), trace := s.trace + [Started(OutputStage, s.out.stage + 1, s.out.next.op)]))
  {
    var ph := s.out;
    var ids := cfg.output.ids;
    var e := Started(OutputStage, ph.stage + 1, ph.next.op);
    ChainFromStep(ids, ph.stage + 1, NoCallback);
    assert Starts(OutputStage, ids, ph.stage + 2) == Starts(OutputStage, ids, ph.stage + 1) + [e];
    OutputHistories(cfg, s, Running(ph.stage + 1, ph.next.next, ph.params), e);
    FinishedAllCompleted(cfg, s);
    TraceGrows(cfg, s.trace, e);
  }

  // ---------------------------------------------------------------- the output chain ends

  /** The output chain reaching its end keeps the histories and the order of the trace. */
  lemma EndOutputRecord(cfg: Config, s: State, n: int)
    requires Record(cfg, s) && s.out.Running? && s.out.stage + 1 == |OutOps(cfg)|
    ensures Record(cfg, s.(out := Finished, trace := s.trace + [Completed(OutputStage)], loaded := n))
  {
    var e := Completed(OutputStage);
    OutputHistories(cfg, s, Finished, e);
    TraceGrows(cfg, s.trace, e);
  }

  /** The single output filter calls its empty callback. */
  lemma NoopOutput(cfg: Config, s: State)
    requires Inv(cfg, s) && s.status == Live && s.out.Running? && s.out.next.Noop?
    ensures Inv(cfg, CallNext(cfg, s, OutputStage))
  {
    assert cfg.output.Single?;
    assert CallNext(cfg, s, OutputStage) == s.(out := Finished, trace := s.trace + [Completed(OutputStage)], loaded := s.loaded);
    NoopOutputCore(cfg, s);
    EndOutputRecord(cfg, s, s.loaded);
  }

  lemma NoopOutputCore(cfg: Config, s: State)
    requires Core(cfg, s) && s.out.Running? && cfg.output.Single?
    ensures Core(cfg, s.(out := Finished, trace := s.trace + [Completed(OutputStage)]))
  {
    FiredCountAppend(s.trace, Completed(OutputStage));
  }

  /** The last output filter of an array calls `next`: `Finalize` runs once more and does not fire. */
  lemma TerminalOutput(cfg: Config, s: State)
    requires Inv(cfg, s) && s.status == Live && s.out.Running? && s.out.next.Terminal?
    ensures Inv(cfg, CallNext(cfg, s, OutputStage))
  {
    var s2 := TerminalOutputInv(cfg, s);
    TerminalOutputStep(cfg, s);
  }

  lemma TerminalOutputInv(cfg: Config, s: State) returns (s2: State)
    requires Inv(cfg, s) && s.out.Running? && s.out.next.Terminal?
    ensures s2 == s.(out := Finished, trace := s.trace + [Completed(OutputStage)], loaded := s.loaded + 1)
    ensures Inv(cfg, s2) && s.loaded + 1 != cfg.total
  {
    s2 := s.(out := Finished, trace := s.trace + [Completed(OutputStage)], loaded := s.loaded + 1);
    assert cfg.output.List?;
    ChainFromStep(cfg.output.ids, s.out.stage + 1, NoCallback);
    CountFull(s.chains, cfg.sched);
    TerminalOutputCore(cfg, s);
    EndOutputRecord(cfg, s, s.loaded + 1);
  }

  lemma TerminalOutputStep(cfg: Config, s: State)
    requires s.status == Live && s.out.Running? && s.out.next.Terminal? && s.out.next.cb == NoCallback
    requires s.loaded + 1 != cfg.total
    ensures CallNext(cfg, s, OutputStage) == s.(out := Finished, trace := s.trace + [Completed(OutputStage)], loaded := s.loaded + 1)
  {
  }

  lemma TerminalOutputCore(cfg: Config, s: State)
    requires Core(cfg, s) && s.out.Running? && cfg.output.List? && CountFinished(s.chains) == cfg.total
    ensures Core(cfg, s.(out := Finished, trace := s.trace + [Completed(OutputStage)], loaded := s.loaded + 1))
  {
    FiredCountAppend(s.trace, Completed(OutputStage));
  }

  // ---------------------------------------------------------------- a chapter chain ends

  /** A chapter chain's last filter calls `next`: the chain is finished and `spec.loaded` grows by one, up to the total. */
  lemma FinishCore(cfg: Config, s: State, g: nat, m: nat)
    requires WF(cfg) && Core(cfg, s) && g < |cfg.sched| && m < |cfg.sched[g]| && s.chains[g][m].Running?
    ensures var s1 := MemberStep(s, g, m, Finished, Completed(Member(g, m))).(loaded := s.loaded + 1);
      && Settled(cfg, s1) && s1.out == Idle && FiredCount(s1.trace) == 0
      && 0 < s1.loaded <= cfg.total
      && (s1.loaded == cfg.total ==> AllFinished(cfg, s1))
  {
    var e := Completed(Member(g, m));
    var s1 := MemberStep(s, g, m, Finished, e).(loaded := s.loaded + 1);
    assert s.chains[g][m] != Finished;
    MemberPhases(cfg, s, g, m, Finished, e);
    CountUpdate(s.chains, g, m, Finished);
    CountBound(s1.chains, cfg.sched);
    FiredCountAppend(s.trace, e);
  }

  lemma FinishRecord(cfg: Config, s: State, g: nat, m: nat, ops: seq<FilterId>, cb: Callback, n: int)
    requires Record(cfg, s) && g < |cfg.sched| && m < |cfg.sched[g]| && ops == cfg.sched[g][m].ops
    requires s.chains[g][m].Running? && s.chains[g][m].next.Terminal? && Runs(ops, cb, s.chains[g][m])
    ensures Record(cfg, MemberStep(s, g, m, Finished, Completed(Member(g, m))).(loaded := n))
  {
    var e := Completed(Member(g, m));
    ChainFromStep(ops, s.chains[g][m].stage + 1, cb);
    MemberHistories(cfg, s, g, m, Finished, e);
    TraceGrows(cfg, s.trace, e);
  }

  /** The firing call of `Finalize`: params released, the barrier passed, the output stage dispatched. */
  lemma FireDispatch(cfg: Config, s: State, q: nat)
    requires WF(cfg) && Settled(cfg, s) && Record(cfg, s)
    requires s.out == Idle && FiredCount(s.trace) == 0 && 0 < s.loaded == cfg.total && AllFinished(cfg, s)
    ensures Inv(cfg, Dispatch(cfg, Log(s.(released := s.released + {q}), Fired(q)), q))
  {
    var s3 := Log(s.(released := s.released + {q}), Fired(q));
    FiredCountAppend(s.trace, Fired(q));
    assert Core(cfg, s3);
    FiredKeepsHistories(cfg, s, q);
    FinishedAllCompleted(cfg, s);
    TraceGrows(cfg, s.trace, Fired(q));
    DispatchPreserves(cfg, s3, q);
  }

  /** Dispatching the output stage behind a passed barrier keeps the invariant. */
  lemma DispatchPreserves(cfg: Config, s: State, q: nat)
    requires Inv(cfg, s) && s.out == Idle && AllFinished(cfg, s) && 0 < cfg.total
    ensures Inv(cfg, Dispatch(cfg, s, q))
  {
    HaltPreserves(cfg, s, Exited);
    HaltPreserves(cfg, s, Crashed);
    match cfg.output
    case Single(id) =>
      DispatchSingle(cfg, s, q);
      if id in cfg.registry {
        StartOutput(cfg, s, Running(0, Noop, q), Started(OutputStage, 0, id));
      }
    case List(ids) =>
      DispatchList(cfg, s, q);
      if Resolve(cfg.registry, ids).Ok? && s.status == Live && |ids| >= 2 {
        StartOutput(cfg, s, Running(0, ChainFrom(ids, 1, NoCallback), q), Started(OutputStage, 0, ids[0]));
      }
    case Missing =>
    case Unrecognised =>
  }

  /** The invariant does not depend on whether the process is still live. */
  lemma HaltPreserves(cfg: Config, s: State, st: Status)
    requires Inv(cfg, s)
    ensures Inv(cfg, s.(status := st))
  {
  }

  lemma DispatchSingle(cfg: Config, s: State, q: nat)
    requires cfg.output.Single?
    ensures cfg.output.id !in cfg.registry ==> Dispatch(cfg, s, q) == s.(status := Exited)
    ensures cfg.output.id in cfg.registry ==>
      Dispatch(cfg, s, q) == s.(out := Running(0, Noop, q), trace := s.trace + [Started(OutputStage, 0, cfg.output.id)])
  {
  }

  lemma DispatchList(cfg: Config, s: State, q: nat)
    requires cfg.output.List?
    ensures Resolve(cfg.registry, cfg.output.ids).Err? ==> Dispatch(cfg, s, q) == s.(status := Exited)
    ensures Resolve(cfg.registry, cfg.output.ids).Ok? && s.status != Live ==> Dispatch(cfg, s, q) == s
    ensures Resolve(cfg.registry, cfg.output.ids).Ok? && s.status == Live && |cfg.output.ids| < 2 ==>
      Dispatch(cfg, s, q) == s.(status := Crashed)
    ensures Resolve(cfg.registry, cfg.output.ids).Ok? && s.status == Live && |cfg.output.ids| >= 2 ==>
      Dispatch(cfg, s, q) == s.(out := Running(0, ChainFrom(cfg.output.ids, 1, NoCallback), q),
                               trace := s.trace + [Started(OutputStage, 0, cfg.output.ids[0])])
  {
    var ids := cfg.output.ids;
    if Resolve(cfg.registry, ids).Ok? {
      assert Resolve(cfg.registry, ids).value == ids;
    }
  }

  lemma StartOutput(cfg: Config, s: State, p: Phase, e: Event)
    requires Inv(cfg, s) && s.out == Idle && AllFinished(cfg, s) && 0 < cfg.total
    requires p.Running? && p.stage == 0 && OutOk(cfg, p) && |OutOps(cfg)| > 0 && e == Started(OutputStage, 0, OutOps(cfg)[0])
    ensures Inv(cfg, s.(out := p, trace := s.trace + [e]))
  {
    StartOutputCore(cfg, s, p, e);
    StartOutputRecord(cfg, s, p, e);
  }

  lemma StartOutputCore(cfg: Config, s: State, p: Phase, e: Event)
    requires Core(cfg, s) && s.out == Idle && AllFinished(cfg, s) && 0 < cfg.total
    requires p.Running? && OutOk(cfg, p) && e.Started?
    ensures Core(cfg, s.(out := p, trace := s.trace + [e]))
  {
    FiredCountAppend(s.trace, e);
  }

  lemma StartOutputRecord(cfg: Config, s: State, p: Phase, e: Event)
    requires Record(cfg, s) && s.out == Idle && AllFinished(cfg, s)
    requires p.Running? && p.stage == 0 && |OutOps(cfg)| > 0 && e == Started(OutputStage, 0, OutOps(cfg)[0])
    ensures Record(cfg, s.(out := p, trace := s.trace + [e]))
  {
    assert Starts(OutputStage, OutOps(cfg), 1) == [e];
    OutputHistories(cfg, s, p, e);
    FinishedAllCompleted(cfg, s);
    TraceGrows(cfg, s.trace, e);
  }

  /** `Sequence` for one chapter chain touches no other chain. */
  lemma SequenceFrame(s: State, g: nat, m: nat, ops: seq<FilterId>, params: nat, cb: Callback)
    requires g < |s.chains| && m < |s.chains[g]|
    ensures var s' := Sequence(s, Member(g, m), ops, params, cb);
      && |s'.chains| == |s.chains|
      && (forall h :: 0 <= h < |s.chains| && h != g ==> s'.chains[h] == s.chains[h])
      && |s'.chains[g]| == |s.chains[g]|
      && (forall k :: 0 <= k < |s.chains[g]| && k != m ==> s'.chains[g][k] == s.chains[g][k])
  {
  }

  /** The leader's `cb` starts the followers `ci`, `ci + 1`, ... of a group whose leader has finished. */
  lemma FollowersPreserve(cfg: Config, s: State, g: nat, ci: nat)
    requires Inv(cfg, s) && g < |cfg.sched| && 1 <= ci && s.chains[g][0] == Finished
    requires forall m :: ci <= m < |cfg.sched[g]| ==> s.chains[g][m] == Idle
    ensures Inv(cfg, Followers(s, g, cfg.sched[g], ci))
  {
    var t, i := s, ci;
    while i < |cfg.sched[g]|
      invariant 1 <= i && Inv(cfg, t) && t.chains[g][0] == Finished
      invariant forall m :: i <= m < |cfg.sched[g]| ==> t.chains[g][m] == Idle
      invariant Followers(s, g, cfg.sched[g], ci) == Followers(t, g, cfg.sched[g], i)
      decreases |cfg.sched[g]| - i
    {
      t := FollowerStarts(cfg, t, g, i);
      i := i + 1;
    }
    FollowersDone(cfg, t, g, i);
  }

  lemma FollowersDone(cfg: Config, s: State, g: nat, ci: nat)
    requires Inv(cfg, s) && g < |cfg.sched| && ci >= |cfg.sched[g]|
    ensures Inv(cfg, Followers(s, g, cfg.sched[g], ci))
  {
  }

  /** One pass of the followers' loop keeps the invariant and leaves the later followers idle. */
  lemma FollowerStarts(cfg: Config, s: State, g: nat, ci: nat) returns (s': State)
    requires Inv(cfg, s) && g < |cfg.sched| && 1 <= ci < |cfg.sched[g]| && s.chains[g][0] == Finished
    requires forall m :: ci <= m < |cfg.sched[g]| ==> s.chains[g][m] == Idle
    ensures Followers(s, g, cfg.sched[g], ci) == Followers(s', g, cfg.sched[g], ci + 1)
    ensures Inv(cfg, s') && s'.chains[g][0] == Finished
    ensures forall m :: ci + 1 <= m < |cfg.sched[g]| ==> s'.chains[g][m] == Idle
  {
    s' := Sequence(s, Member(g, ci), cfg.sched[g][ci].ops, cfg.sched[g][ci].params, NoCallback);
    StartPreserves(cfg, s, g, ci);
    SequenceFrame(s, g, ci, cfg.sched[g][ci].ops, cfg.sched[g][ci].params, NoCallback);
    FollowersUnfold(s, g, cfg.sched[g], ci);
  }

  lemma FollowersUnfold(s: State, g: nat, chapters: seq<Pending>, ci: nat)
    requires ci < |chapters|
    ensures Followers(s, g, chapters, ci)
      == Followers(Sequence(s, Member(g, ci), chapters[ci].ops, chapters[ci].params, NoCallback), g, chapters, ci + 1)
  {
  }

  /** A chapter chain's terminal step: `Finalize(params)` then, for a leader with followers, its `cb`. */
  lemma TerminalMember(cfg: Config, s: State, g: nat, m: nat)
    requires Inv(cfg, s) && s.status == Live && g < |cfg.sched| && m < |cfg.sched[g]|
    requires s.chains[g][m].Running? && s.chains[g][m].next.Terminal?
    ensures Inv(cfg, CallNext(cfg, s, Member(g, m)))
  {
    var cb := CbFor(cfg, g, m);
    TerminalCallback(cfg, s, g, m);
    var done := Finalize(cfg, MemberStep(s, g, m, Finished, Completed(Member(g, m))), s.chains[g][m].params);
    FinalizePreserves(cfg, s, g, m);
    TerminalStep(cfg, s, g, m, cb);
    if cb.StartFollowers? {
      LeaderDone(cfg, s, g, done);
      FollowersPreserve(cfg, done, g, 1);
    }
  }

  /** What `CallNext` does at a chapter chain's terminal step, stated once. */
  lemma TerminalStep(cfg: Config, s: State, g: nat, m: nat, cb: Callback)
    requires s.status == Live && g < |s.chains| && m < |s.chains[g]|
    requires s.chains[g][m].Running? && s.chains[g][m].next == Terminal(cb)
    ensures var done := Finalize(cfg, MemberStep(s, g, m, Finished, Completed(Member(g, m))), s.chains[g][m].params);
      CallNext(cfg, s, Member(g, m)) == if cb.StartFollowers? then Followers(done, cb.g, cb.chapters, 1) else done
  {
  }

  /** The terminal step of a chapter chain carries the `cb` the launch loop gave it. */
  lemma TerminalCallback(cfg: Config, s: State, g: nat, m: nat)
    requires Core(cfg, s) && g < |cfg.sched| && m < |cfg.sched[g]|
    requires s.chains[g][m].Running? && s.chains[g][m].next.Terminal?
    ensures s.chains[g][m].next == Terminal(CbFor(cfg, g, m))
  {
    assert Runs(cfg.sched[g][m].ops, CbFor(cfg, g, m), s.chains[g][m]);
    ChainFromStep(cfg.sched[g][m].ops, s.chains[g][m].stage + 1, CbFor(cfg, g, m));
  }

  /** When a leader finishes, its followers are all still idle. */
  lemma LeaderDone(cfg: Config, s: State, g: nat, done: State)
    requires Core(cfg, s) && g < |cfg.sched| && |cfg.sched[g]| > 0 && s.chains[g][0].Running?
    requires done.chains == s.chains[g := s.chains[g][0 := Finished]]
    ensures done.chains[g][0] == Finished
    ensures forall m :: 1 <= m < |cfg.sched[g]| ==> done.chains[g][m] == Idle
  {
  }

  lemma FinalizePreserves(cfg: Config, s: State, g: nat, m: nat)
    requires Inv(cfg, s) && g < |cfg.sched| && m < |cfg.sched[g]|
    requires s.chains[g][m].Running? && s.chains[g][m].next.Terminal?
    ensures var s1 := MemberStep(s, g, m, Finished, Completed(Member(g, m)));
      Inv(cfg, Finalize(cfg, s1, s.chains[g][m].params))
    ensures Finalize(cfg, MemberStep(s, g, m, Finished, Completed(Member(g, m))), s.chains[g][m].params).chains
      == s.chains[g := s.chains[g][m := Finished]]
  {
    var ph := s.chains[g][m];
    var s1 := MemberStep(s, g, m, Finished, Completed(Member(g, m)));
    var counted := s1.(loaded := s1.loaded + 1);
    assert Runs(cfg.sched[g][m].ops, CbFor(cfg, g, m), ph);
    FinishCore(cfg, s, g, m);
    FinishRecord(cfg, s, g, m, cfg.sched[g][m].ops, CbFor(cfg, g, m), s.loaded + 1);
    if counted.loaded == cfg.total {
      FireDispatch(cfg, counted, ph.params);
    }
  }

  // ---------------------------------------------------------------- every step, every run

  /** Whatever chain's filter calls `next`, in whatever state the run has reached, the invariant survives. */
  lemma CallNextPreserves(cfg: Config, s: State, o: Owner)
    requires Inv(cfg, s)
    ensures Inv(cfg, CallNext(cfg, s, o))
  {
    if s.status == Live && PhaseOf(s, o).Running? {
      match o
      case Member(g, m) =>
        var ph := s.chains[g][m];
        assert Runs(cfg.sched[g][m].ops, CbFor(cfg, g, m), ph);
        ChainFromStep(cfg.sched[g][m].ops, ph.stage + 1, CbFor(cfg, g, m));
        if ph.next.Invoke? {
          AdvanceMember(cfg, s, g, m);
        } else {
          TerminalMember(cfg, s, g, m);
        }
      case OutputStage =>
        match s.out.next
        case Invoke(_, _) => AdvanceOutput(cfg, s);
        case Terminal(_) => TerminalOutput(cfg, s);
        case Noop => NoopOutput(cfg, s);
    }
  }

  lemma {:induction false} StepsPreserve(cfg: Config, s: State, steps: seq<Owner>)
    requires Inv(cfg, s)
    ensures Inv(cfg, Steps(cfg, s, steps))
    decreases |steps|
  {
    if steps != [] {
      CallNextPreserves(cfg, s, steps[0]);
      StepsPreserve(cfg, CallNext(cfg, s, steps[0]), steps[1..]);
    }
  }

  /** The launch loop starting the leader of group `g`, whose chains are all idle. */
  lemma LaunchGroupPreserves(cfg: Config, s: State, g: nat)
    requires Inv(cfg, s) && g < |cfg.sched|
    requires forall m :: 0 <= m < |cfg.sched[g]| ==> s.chains[g][m] == Idle
    ensures Inv(cfg, LaunchGroup(cfg, s, g))
  {
    StartPreserves(cfg, s, g, 0);
  }

  lemma LaunchGroupFrame(cfg: Config, s: State, g: nat)
    requires g < |cfg.sched| && |s.chains| == |cfg.sched|
    ensures |LaunchGroup(cfg, s, g).chains| == |s.chains|
    ensures forall h :: 0 <= h < |s.chains| && h != g ==> LaunchGroup(cfg, s, g).chains[h] == s.chains[h]
  {
  }

  lemma {:induction false} LaunchFromPreserves(cfg: Config, s: State, g: nat)
    requires Inv(cfg, s) && g <= |cfg.sched|
    requires forall h, m :: g <= h < |cfg.sched| && 0 <= m < |cfg.sched[h]| ==> s.chains[h][m] == Idle
    ensures Inv(cfg, LaunchFrom(cfg, s, g))
    decreases |cfg.sched| - g
  {
    if g < |cfg.sched| {
      LaunchGroupPreserves(cfg, s, g);
      LaunchGroupFrame(cfg, s, g);
      LaunchFromPreserves(cfg, LaunchGroup(cfg, s, g), g + 1);
    }
  }

  lemma InitInv(cfg: Config)
    requires WF(cfg)
    ensures Inv(cfg, Init(cfg))
  {
    CountIdle(Init(cfg).chains);
  }

  /** Every run, after the launch loop and any sequence of filters calling `next`, satisfies the invariant. */
  lemma RunInv(cfg: Config, steps: seq<Owner>)
    requires WF(cfg)
    ensures Inv(cfg, Run(cfg, steps))
  {
    InitInv(cfg);
    LaunchFromPreserves(cfg, Init(cfg), 0);
    StepsPreserve(cfg, LaunchFrom(cfg, Init(cfg), 0), steps);
  }
}
