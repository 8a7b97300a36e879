/**
 * What an observer of any run sees, whatever order the filters call their continuations
 * in: each chain runs its own filters in order, followers wait for their leader, the
 * completion barrier fires once and exactly when every chapter's chain has completed,
 * and `spec.loaded` never runs past the number of `Finalize` calls there can be.
 */
module Properties {
  import opened Results
  import opened Setup
  import opened Engine
  import opened Invariant
  import opened Safety

  // ---------------------------------------------------------------- traces

  /** An event about `o` that is in the trace is in the projection on `o`. */
  lemma {:induction false} ProjHas(t: seq<Event>, o: Owner, e: Event)
    requires e in t && Concerns(e, o)
    ensures e in Proj(t, o)
  {
    var front := t[..|t| - 1];
    assert t == front + [t[|t| - 1]];
    if e != t[|t| - 1] {
      ProjHas(front, o, e);
    }
  }

  lemma {:induction false} StartsOnlyStart(o: Owner, ops: seq<FilterId>, n: nat)
    requires n <= |ops|
    ensures forall e :: e in Starts(o, ops, n) ==> e.Started?
  {
    if n > 0 {
      StartsOnlyStart(o, ops, n - 1);
    }
  }

  lemma {:induction false} StartsPrefix(o: Owner, ops: seq<FilterId>, n: nat)
    requires n <= |ops|
    ensures Starts(o, ops, n) <= Starts(o, ops, |ops|)
    decreases |ops| - n
  {
    if n < |ops| {
      StartsPrefix(o, ops, n + 1);
      assert Starts(o, ops, n + 1) == Starts(o, ops, n) + [Started(o, n, ops[n])];
    }
  }

  /** Whatever phase a chain is in, what it has produced is a prefix of its complete history. */
  lemma HistoryPrefix(o: Owner, ops: seq<FilterId>, p: Phase)
    ensures History(o, ops, p) <= Starts(o, ops, |ops|) + [Completed(o)]
  {
    var full := Starts(o, ops, |ops|) + [Completed(o)];
    if p.Running? && p.stage < |ops| {
      StartsPrefix(o, ops, p.stage + 1);
      assert Starts(o, ops, p.stage + 1) <= full;
    } else if p == Finished {
      assert History(o, ops, p) == full;
    }
  }

  /** Only a finished chain has its completion in its history. */
  lemma HistoryCompleted(o: Owner, ops: seq<FilterId>, p: Phase)
    ensures Completed(o) in History(o, ops, p) <==> p == Finished
  {
    if p.Running? && p.stage < |ops| {
      StartsOnlyStart(o, ops, p.stage + 1);
    } else if p == Finished {
      assert History(o, ops, p)[|Starts(o, ops, |ops|)|] == Completed(o);
    }
  }

  /** A chapter chain whose completion is in the trace is finished. */
  lemma CompletedFinished(cfg: Config, s: State, g: nat, m: nat)
    requires Shaped(cfg, s) && Histories(cfg, s)
    requires g < |cfg.sched| && m < |cfg.sched[g]| && Completed(Member(g, m)) in s.trace
    ensures s.chains[g][m] == Finished
  {
    var o := Member(g, m);
    ProjHas(s.trace, o, Completed(o));
    HistoryCompleted(o, cfg.sched[g][m].ops, s.chains[g][m]);
  }

  lemma {:induction false} FiredCountZero(t: seq<Event>)
    ensures FiredCount(t) == 0 <==> forall j :: 0 <= j < |t| ==> !t[j].Fired?
  {
    if t != [] {
      var front := t[..|t| - 1];
      FiredCountZero(front);
      assert forall j :: 0 <= j < |front| ==> front[j] == t[j];
    }
  }

  lemma {:induction false} FiredCountOne(t: seq<Event>)
    requires FiredCount(t) <= 1
    ensures forall i, j :: 0 <= i < |t| && 0 <= j < |t| && t[i].Fired? && t[j].Fired? ==> i == j
  {
    if t != [] {
      var front := t[..|t| - 1];
      FiredCountOne(front);
      FiredCountZero(front);
      assert forall j :: 0 <= j < |front| ==> front[j] == t[j];
    }
  }

  // ---------------------------------------------------------------- every run

  /** Each chapter's chain runs its own filters, first to last, and then completes: what it has done so far is a prefix of that. */
  lemma ChapterRunsInOrder(cfg: Config, steps: seq<Owner>, s: State, g: nat, m: nat)
    requires WF(cfg) && s == Run(cfg, steps) && g < |cfg.sched| && m < |cfg.sched[g]|
    ensures Proj(s.trace, Member(g, m)) <=
      Starts(Member(g, m), cfg.sched[g][m].ops, |cfg.sched[g][m].ops|) + [Completed(Member(g, m))]
    ensures Completed(Member(g, m)) in s.trace ==>
      Proj(s.trace, Member(g, m)) ==
        Starts(Member(g, m), cfg.sched[g][m].ops, |cfg.sched[g][m].ops|) + [Completed(Member(g, m))]
  {
    RunInv(cfg, steps);
    HistoryPrefix(Member(g, m), cfg.sched[g][m].ops, s.chains[g][m]);
    if Completed(Member(g, m)) in s.trace {
      CompletedFinished(cfg, s, g, m);
    }
  }

  /** The output chain runs the output filters, first to last: what it has done so far is a prefix of that. */
  lemma OutputRunsInOrder(cfg: Config, steps: seq<Owner>, s: State)
    requires WF(cfg) && s == Run(cfg, steps)
    ensures Proj(s.trace, OutputStage) <= Starts(OutputStage, OutOps(cfg), |OutOps(cfg)|) + [Completed(OutputStage)]
  {
    RunInv(cfg, steps);
    HistoryPrefix(OutputStage, OutOps(cfg), s.out);
  }

  /** The first filter of a follower starts only after its group's leader chain has completed. */
  lemma FollowersWaitForLeader(cfg: Config, steps: seq<Owner>, s: State)
    requires WF(cfg) && s == Run(cfg, steps)
    ensures forall j :: 0 <= j < |s.trace| && FollowerStart(s.trace[j]) ==>
      Completed(Member(s.trace[j].owner.g, 0)) in s.trace[..j]
  {
    RunInv(cfg, steps);
  }

  /** `Finalize` fires, and the output filters start, only after every chapter's chain has completed. */
  lemma OutputWaitsForAll(cfg: Config, steps: seq<Owner>, s: State)
    requires WF(cfg) && s == Run(cfg, steps)
    ensures forall j :: 0 <= j < |s.trace| && OutputEvent(s.trace[j]) ==> AllCompletedIn(cfg, s.trace[..j])
  {
    RunInv(cfg, steps);
  }

  /**
   * The barrier: `Finalize` fires at most once, and it has fired exactly when there is at
   * least one chapter and every chapter's chain has completed, which is exactly when
   * `spec.loaded` has reached `spec.contents.length`. The params whose `chap` was
   * cleared are the ones it fired with, so there is one at most.
   */
  lemma BarrierFiresOnce(cfg: Config, steps: seq<Owner>, s: State)
    requires WF(cfg) && s == Run(cfg, steps)
    ensures forall i, j :: 0 <= i < |s.trace| && 0 <= j < |s.trace| && s.trace[i].Fired? && s.trace[j].Fired? ==> i == j
    ensures (exists j :: 0 <= j < |s.trace| && s.trace[j].Fired?) <==> 0 < cfg.total <= s.loaded
    ensures (exists j :: 0 <= j < |s.trace| && s.trace[j].Fired?) <==> 0 < cfg.total && AllCompletedIn(cfg, s.trace)
    ensures forall q :: q in s.released <==> Fired(q) in s.trace
    ensures |s.released| <= 1
  {
    RunInv(cfg, steps);
    FiredCountZero(s.trace);
    FiredCountOne(s.trace);
    CountBound(s.chains, cfg.sched);
    if AllCompletedIn(cfg, s.trace) {
      forall g, m | 0 <= g < |cfg.sched| && 0 <= m < |cfg.sched[g]| ensures s.chains[g][m] == Finished {
        CompletedFinished(cfg, s, g, m);
      }
      CountFull(s.chains, cfg.sched);
    }
    if 0 < cfg.total <= s.loaded {
      FinishedAllCompleted(cfg, s);
    }
    AtMostOneReleased(s);
  }

  lemma AtMostOneReleased(s: State)
    requires forall q :: q in s.released <==> Fired(q) in s.trace
    requires forall i, j :: 0 <= i < |s.trace| && 0 <= j < |s.trace| && s.trace[i].Fired? && s.trace[j].Fired? ==> i == j
    ensures |s.released| <= 1
  {
    if s.released != {} {
      var q :| q in s.released;
      forall q' | q' in s.released ensures q' == q {
        var i :| 0 <= i < |s.trace| && s.trace[i] == Fired(q);
        var j :| 0 <= j < |s.trace| && s.trace[j] == Fired(q');
      }
      assert s.released == {q};
    }
  }

  /** `spec.loaded` counts `Finalize` calls: one per chapter chain and one for an output array, no more. */
  lemma LoadedBound(cfg: Config, steps: seq<Owner>, s: State)
    requires WF(cfg) && s == Run(cfg, steps)
    ensures 0 <= s.loaded <= cfg.total + (if cfg.output.List? then 1 else 0)
    ensures s.loaded > cfg.total ==> cfg.output.List? && s.out == Finished
  {
    RunInv(cfg, steps);
    CountBound(s.chains, cfg.sched);
  }

  // ---------------------------------------------------------------- ending the process

  /** Once the process has ended, no filter call changes anything. */
  lemma {:induction false} HaltedStays(cfg: Config, s: State, steps: seq<Owner>)
    requires s.status != Live
    ensures Steps(cfg, s, steps) == s
    decreases |steps|
  {
    if steps != [] {
      HaltedStays(cfg, CallNext(cfg, s, steps[0]), steps[1..]);
    }
  }

  /**
   * `Sequence` with fewer than two ops throws before any of them runs: nothing is
   * recorded, and nothing runs afterwards, whichever filter is called back.
   */
  lemma ShortChainHalts(cfg: Config, s: State, owner: Owner, ops: seq<FilterId>, params: nat, cb: Callback, steps: seq<Owner>)
    requires s.status == Live && |ops| < 2
    ensures Engine.Sequence(s, owner, ops, params, cb).status == Crashed
    ensures Steps(cfg, Engine.Sequence(s, owner, ops, params, cb), steps) == s.(status := Crashed)
  {
    HaltedStays(cfg, s.(status := Crashed), steps);
  }

  /** `Sequence` with two ops or more starts the first op, and only that one, as stage 0 of the chain. */
  lemma LongChainStarts(s: State, g: nat, m: nat, ops: seq<FilterId>, params: nat, cb: Callback)
    requires s.status == Live && |ops| >= 2 && g < |s.chains| && m < |s.chains[g]|
    ensures Engine.Sequence(s, Member(g, m), ops, params, cb).trace == s.trace + [Started(Member(g, m), 0, ops[0])]
    ensures Engine.Sequence(s, Member(g, m), ops, params, cb).chains[g][m] == Running(0, ChainFrom(ops, 1, cb), params)
    ensures Invoked(ChainFrom(ops, 1, cb)) == ops[1..] && Ending(ChainFrom(ops, 1, cb)) == Terminal(cb)
  {
    ChainFromRuns(ops, 1, cb);
  }

  // ---------------------------------------------------------------- an example

  /**
   * One chapter with the chain [a, b] and the single output filter o: once a and then b
   * call their continuations, `Finalize` fires from the chapter's params and o runs; when
   * o calls its empty callback the run is over, with `spec.loaded` at 1.
   */
  lemma OneChapterRun(a: FilterId, b: FilterId, o: FilterId)
    ensures var cfg := Config([[Pending([a, b], 0)]], 1, Single(o), {a, b, o});
      var s := Run(cfg, [Member(0, 0), Member(0, 0), OutputStage]);
      && s.trace == [Started(Member(0, 0), 0, a), Started(Member(0, 0), 1, b), Completed(Member(0, 0)),
                     Fired(0), Started(OutputStage, 0, o), Completed(OutputStage)]
      && s.loaded == 1 && s.released == {0} && s.status == Live
  {
    var cfg := Config([[Pending([a, b], 0)]], 1, Single(o), {a, b, o});
    var s1 := OneChapterLaunch(a, b, o);
    var s3 := OneChapterCompletes(a, b, o, s1);
    var s4 := CallNext(cfg, s3, OutputStage);
    assert s4.trace == s3.trace + [Completed(OutputStage)];
    assert Steps(cfg, s3, [OutputStage]) == s4;
    assert Steps(cfg, s1, [Member(0, 0), Member(0, 0), OutputStage]) == Steps(cfg, s3, [OutputStage]);
  }

  /** The launch loop of the one-chapter run starts a with the rest of the chain as its continuation. */
  lemma OneChapterLaunch(a: FilterId, b: FilterId, o: FilterId) returns (s1: State)
    ensures var cfg := Config([[Pending([a, b], 0)]], 1, Single(o), {a, b, o});
      && s1 == LaunchFrom(cfg, Init(cfg), 0)
      && s1 == State(Live, 0, {}, [[Running(0, Invoke(b, Terminal(NoCallback)), 0)]], Idle, [Started(Member(0, 0), 0, a)])
  {
    var cfg := Config([[Pending([a, b], 0)]], 1, Single(o), {a, b, o});
    var s0 := Init(cfg);
    assert |s0.chains| == 1 && s0.chains[0] == [Idle];
    assert s0.chains == [[Idle]];
    s1 := LaunchGroup(cfg, s0, 0);
    assert LaunchFrom(cfg, s0, 0) == LaunchFrom(cfg, s1, 1) == s1;
    assert ChainFrom([a, b], 2, NoCallback) == Terminal(NoCallback);
    assert ChainFrom([a, b], 1, NoCallback) == Invoke(b, Terminal(NoCallback));
    assert s1 == Engine.Sequence(s0, Member(0, 0), [a, b], 0, NoCallback);
    var p1 := Running(0, Invoke(b, Terminal(NoCallback)), 0);
    assert s0.chains[0][0 := p1] == [p1];
    assert s0.chains[0 := [p1]] == [[p1]];
  }

  /** a and then b call their continuations: the chapter completes, `Finalize` fires and o starts. */
  lemma OneChapterCompletes(a: FilterId, b: FilterId, o: FilterId, s1: State) returns (s3: State)
    requires s1 == State(Live, 0, {}, [[Running(0, Invoke(b, Terminal(NoCallback)), 0)]], Idle, [Started(Member(0, 0), 0, a)])
    ensures var cfg := Config([[Pending([a, b], 0)]], 1, Single(o), {a, b, o});
      && s3 == Steps(cfg, s1, [Member(0, 0), Member(0, 0)])
      && s3.trace == [Started(Member(0, 0), 0, a), Started(Member(0, 0), 1, b), Completed(Member(0, 0)),
                      Fired(0), Started(OutputStage, 0, o)]
      && s3.loaded == 1 && s3.released == {0} && s3.status == Live
      && s3.out == Running(0, Noop, 0)
  {
    var cfg := Config([[Pending([a, b], 0)]], 1, Single(o), {a, b, o});
    var s2 := CallNext(cfg, s1, Member(0, 0));
    assert PhaseOf(s1, Member(0, 0)) == Running(0, Invoke(b, Terminal(NoCallback)), 0);
    var p2 := Running(1, Terminal(NoCallback), 0);
    assert s1.chains[0][0 := p2] == [p2];
    assert s1.chains[0 := [p2]] == [[p2]];
    assert s2 == s1.(chains := [[p2]], trace := s1.trace + [Started(Member(0, 0), 1, b)]);
    s3 := CallNext(cfg, s2, Member(0, 0));
    var done := Log(WithPhase(s2, Member(0, 0), Finished), Completed(Member(0, 0)));
    assert s3 == Finalize(cfg, done, 0);
    assert s3.trace == s2.trace + [Completed(Member(0, 0)), Fired(0), Started(OutputStage, 0, o)];
    assert Steps(cfg, s1, [Member(0, 0), Member(0, 0)]) == Steps(cfg, s2, [Member(0, 0)]);
  }
}
