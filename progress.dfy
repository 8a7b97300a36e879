/**
 * The other half of the engine's promises: not only does nothing start too early, but
 * what is due to start does start. The launch loop starts every group's leader; a
 * leader's terminal step starts all of its followers; the `Finalize` call that reaches
 * the total dispatches the output stage. So a run in which no filter is working any
 * more has completed every chapter's chain and fired the output stage.
 */
module Progress {
  import opened Results
  import opened Setup
  import opened Engine
  import opened Invariant
  import opened Safety
  import opened Properties

  /** Every group's leader has started. */
  predicate LeadersStarted(s: State) {
    forall g :: 0 <= g < |s.chains| && 0 < |s.chains[g]| ==> s.chains[g][0] != Idle
  }

  /** Every follower of a leader whose chain has finished has started. */
  predicate FollowersStarted(s: State) {
    forall g, m :: 0 <= g < |s.chains| && 0 < m < |s.chains[g]| && s.chains[g][0] == Finished ==> s.chains[g][m] != Idle
  }

  /** An output filter or array of filters has started once `spec.loaded` has reached a non-zero total. */
  predicate OutputStarted(cfg: Config, s: State) {
    (cfg.output.Single? || cfg.output.List?) && 0 < cfg.total <= s.loaded ==> s.out != Idle
  }

  /** While the process lives, every chain that is due has been started. */
  predicate Launched(cfg: Config, s: State) {
    s.status == Live ==> LeadersStarted(s) && FollowersStarted(s) && OutputStarted(cfg, s)
  }

  // ---------------------------------------------------------------- what each operation starts

  /** `Sequence` on a live process either throws or leaves the chain running; nothing else moves. */
  lemma SequenceStarts(s: State, g: nat, m: nat, ops: seq<FilterId>, params: nat, cb: Callback, r: State)
    requires g < |s.chains| && m < |s.chains[g]| && r == Engine.Sequence(s, Member(g, m), ops, params, cb)
    ensures r.out == s.out && r.loaded == s.loaded && s.trace <= r.trace
    ensures r.status == Live ==> s.status == Live && r.chains[g][m].Running? && r.chains[g][m].stage == 0 && |ops| >= 2
    ensures r.status == Live ==> r.trace == s.trace + [Started(Member(g, m), 0, ops[0])]
  {
  }

  /** The leader's `cb` starts every follower from `ci` on, unless one of them throws. */
  lemma {:induction false} FollowersStart(s: State, g: nat, chapters: seq<Pending>, ci: nat, r: State)
    requires g < |s.chains| && r == Followers(s, g, chapters, ci)
    ensures |r.chains| == |s.chains| && forall h :: 0 <= h < |s.chains| && h != g ==> r.chains[h] == s.chains[h]
    ensures |r.chains[g]| == |s.chains[g]| && forall k :: 0 <= k < ci && k < |s.chains[g]| ==> r.chains[g][k] == s.chains[g][k]
    ensures r.out == s.out && r.loaded == s.loaded
    ensures r.status == Live ==>
      s.status == Live && forall k :: ci <= k < |chapters| && k < |s.chains[g]| ==> r.chains[g][k].Running?
    decreases |chapters| - ci
  {
    if ci < |chapters| {
      if ci < |s.chains[g]| {
        var s' := Engine.Sequence(s, Member(g, ci), chapters[ci].ops, chapters[ci].params, NoCallback);
        SequenceFrame(s, g, ci, chapters[ci].ops, chapters[ci].params, NoCallback);
        SequenceStarts(s, g, ci, chapters[ci].ops, chapters[ci].params, NoCallback, s');
        assert r == Followers(s', g, chapters, ci + 1);
        FollowersStart(s', g, chapters, ci + 1, r);
      } else {
        var s' := Engine.Sequence(s, Member(g, ci), chapters[ci].ops, chapters[ci].params, NoCallback);
        assert s'.chains == s.chains && s'.out == s.out && s'.loaded == s.loaded;
        assert s'.status == Live ==> s.status == Live;
        assert r == Followers(s', g, chapters, ci + 1);
        FollowersStart(s', g, chapters, ci + 1, r);
      }
    }
  }

  /** Dispatching a filter or an array of filters leaves the process dead or the output chain running. */
  lemma DispatchStarts(cfg: Config, s: State, q: nat, r: State)
    requires r == Dispatch(cfg, s, q)
    ensures r.chains == s.chains && r.loaded == s.loaded
    ensures r.status == Live ==> s.status == Live
    ensures r.status == Live && (cfg.output.Single? || cfg.output.List?) ==> r.out.Running?
  {
    match cfg.output
    case Single(_) => DispatchSingle(cfg, s, q);
    case List(_) => DispatchList(cfg, s, q);
    case Missing =>
    case Unrecognised =>
  }

  /** The `Finalize` call that reaches the total dispatches the output stage; any other call only counts. */
  lemma FinalizeStarts(cfg: Config, s: State, q: nat, r: State)
    requires r == Engine.Finalize(cfg, s, q)
    ensures r.chains == s.chains && r.loaded == s.loaded + 1
    ensures r.status == Live ==> s.status == Live
    ensures s.loaded + 1 != cfg.total ==> r.out == s.out
    ensures s.loaded + 1 == cfg.total && r.status == Live && (cfg.output.Single? || cfg.output.List?) ==> r.out.Running?
  {
    var counted := s.(loaded := s.loaded + 1);
    if counted.loaded == cfg.total {
      var fired := Log(counted.(released := counted.released + {q}), Fired(q));
      DispatchStarts(cfg, fired, q, r);
    }
  }

  // ---------------------------------------------------------------- the launch loop

  /** The launch loop from group `g` on starts the leader of every later group and touches nothing else. */
  lemma {:induction false} LaunchStarts(cfg: Config, s: State, g: nat, r: State)
    requires g <= |cfg.sched| && r == LaunchFrom(cfg, s, g)
    requires |s.chains| == |cfg.sched| && forall h :: 0 <= h < |cfg.sched| ==> |s.chains[h]| == |cfg.sched[h]|
    ensures |r.chains| == |s.chains| && forall h :: 0 <= h < |s.chains| ==> |r.chains[h]| == |s.chains[h]|
    ensures forall h :: 0 <= h < g ==> r.chains[h] == s.chains[h]
    ensures forall h, k :: 0 <= h < |s.chains| && 0 < k < |s.chains[h]| ==> r.chains[h][k] == s.chains[h][k]
    ensures r.out == s.out && r.loaded == s.loaded && s.trace <= r.trace
    ensures r.status == Live ==> forall h :: g <= h < |s.chains| && 0 < |s.chains[h]| ==>
      r.chains[h][0].Running? && r.chains[h][0].stage == 0 && |cfg.sched[h][0].ops| >= 2 &&
      Started(Member(h, 0), 0, cfg.sched[h][0].ops[0]) in r.trace
    decreases |cfg.sched| - g
  {
    if g < |cfg.sched| {
      var s' := LaunchGroup(cfg, s, g);
      var chapters := cfg.sched[g];
      if |chapters| > 0 {
        var cb := if |chapters| == 1 then NoCallback else StartFollowers(g, chapters);
        assert s' == Engine.Sequence(s, Member(g, 0), chapters[0].ops, chapters[0].params, cb);
        SequenceFrame(s, g, 0, chapters[0].ops, chapters[0].params, cb);
        SequenceStarts(s, g, 0, chapters[0].ops, chapters[0].params, cb, s');
      }
      LaunchStarts(cfg, s', g + 1, r);
      if s'.status != Live {
        LaunchHalted(cfg, s', g + 1);
      } else if |chapters| > 0 {
        PrefixHas(s'.trace, r.trace, Started(Member(g, 0), 0, chapters[0].ops[0]));
      }
    }
  }

  /** Once the process has ended, the rest of the launch loop cannot revive it. */
  lemma {:induction false} LaunchHalted(cfg: Config, s: State, g: nat)
    requires s.status != Live
    ensures LaunchFrom(cfg, s, g).status != Live
    decreases |cfg.sched| - g
  {
    if g < |cfg.sched| {
      assert LaunchGroup(cfg, s, g).status != Live;
      LaunchHalted(cfg, LaunchGroup(cfg, s, g), g + 1);
    }
  }

  lemma PrefixHas<T>(a: seq<T>, b: seq<T>, x: T)
    requires a <= b && x in a
    ensures x in b
  {
    var i :| 0 <= i < |a| && a[i] == x;
    assert b[i] == x;
  }

  /** After the launch loop of a live process, every leader runs and no follower has started. */
  lemma LaunchLaunched(cfg: Config)
    requires WF(cfg)
    ensures Launched(cfg, LaunchFrom(cfg, Init(cfg), 0))
    ensures Shaped(cfg, LaunchFrom(cfg, Init(cfg), 0))
    ensures forall g, m :: 0 <= g < |cfg.sched| && 0 < m < |cfg.sched[g]| ==> LaunchFrom(cfg, Init(cfg), 0).chains[g][m] == Idle
  {
    var r := LaunchFrom(cfg, Init(cfg), 0);
    LaunchStarts(cfg, Init(cfg), 0, r);
  }

  // ---------------------------------------------------------------- every step keeps it

  /** A chapter chain's filter starting its successor keeps every chain that was started started. */
  lemma AdvanceLaunched(cfg: Config, s: State, g: nat, m: nat)
    requires Launched(cfg, s) && s.status == Live && g < |s.chains| && m < |s.chains[g]|
    requires s.chains[g][m].Running? && s.chains[g][m].next.Invoke?
    ensures Launched(cfg, CallNext(cfg, s, Member(g, m)))
  {
    AdvanceMemberStep(cfg, s, g, m);
  }

  /** A chapter chain's terminal step: `Finalize` may dispatch the output, and a leader's `cb` starts its followers. */
  lemma TerminalLaunched(cfg: Config, s: State, g: nat, m: nat)
    requires Inv(cfg, s) && Launched(cfg, s) && s.status == Live && g < |cfg.sched| && m < |cfg.sched[g]|
    requires s.chains[g][m].Running? && s.chains[g][m].next.Terminal?
    ensures Launched(cfg, CallNext(cfg, s, Member(g, m)))
  {
    var cb := CbFor(cfg, g, m);
    TerminalCallback(cfg, s, g, m);
    var s1 := MemberStep(s, g, m, Finished, Completed(Member(g, m)));
    var done := Engine.Finalize(cfg, s1, s.chains[g][m].params);
    TerminalStep(cfg, s, g, m, cb);
    FinalizeStarts(cfg, s1, s.chains[g][m].params, done);
    var r := CallNext(cfg, s, Member(g, m));
    if cb.StartFollowers? {
      FollowersStart(done, g, cfg.sched[g], 1, r);
    } else {
      assert r == done;
    }
    if r.status == Live {
      assert done.status == Live;
      forall h | 0 <= h < |r.chains| && 0 < |r.chains[h]|
        ensures r.chains[h][0] != Idle
      {
        assert r.chains[h][0] == done.chains[h][0];
      }
      forall h, k | 0 <= h < |r.chains| && 0 < k < |r.chains[h]| && r.chains[h][0] == Finished
        ensures r.chains[h][k] != Idle
      {
        if !(cb.StartFollowers? && h == g) {
          assert r.chains[h] == done.chains[h];
        }
      }
    }
  }

  /** The output chain moving on leaves the chapter chains alone and the output started. */
  lemma OutputLaunched(cfg: Config, s: State)
    requires Inv(cfg, s) && Launched(cfg, s) && s.status == Live && s.out.Running?
    ensures Launched(cfg, CallNext(cfg, s, OutputStage))
  {
    match s.out.next
    case Invoke(_, _) => AdvanceOutputStep(cfg, s);
    case Terminal(_) =>
      var s2 := TerminalOutputInv(cfg, s);
      TerminalOutputStep(cfg, s);
    case Noop =>
      assert CallNext(cfg, s, OutputStage) == s.(out := Finished, trace := s.trace + [Completed(OutputStage)]);
  }

  /** Whichever filter calls `next`, every chain that was started stays started and every chain now due starts. */
  lemma CallNextLaunched(cfg: Config, s: State, o: Owner)
    requires Inv(cfg, s) && Launched(cfg, s)
    ensures Launched(cfg, CallNext(cfg, s, o))
  {
    if s.status == Live && PhaseOf(s, o).Running? {
      match o
      case Member(g, m) =>
        if s.chains[g][m].next.Invoke? {
          AdvanceLaunched(cfg, s, g, m);
        } else {
          assert Runs(cfg.sched[g][m].ops, CbFor(cfg, g, m), s.chains[g][m]);
          ChainFromStep(cfg.sched[g][m].ops, s.chains[g][m].stage + 1, CbFor(cfg, g, m));
          TerminalLaunched(cfg, s, g, m);
        }
      case OutputStage => OutputLaunched(cfg, s);
    }
  }

  lemma {:induction false} StepsLaunched(cfg: Config, s: State, steps: seq<Owner>)
    requires Inv(cfg, s) && Launched(cfg, s)
    ensures Launched(cfg, Steps(cfg, s, steps))
    decreases |steps|
  {
    if steps != [] {
      CallNextLaunched(cfg, s, steps[0]);
      CallNextPreserves(cfg, s, steps[0]);
      StepsLaunched(cfg, CallNext(cfg, s, steps[0]), steps[1..]);
    }
  }

  /** Every state of every run, while the process lives, has started every chain that is due. */
  lemma RunLaunched(cfg: Config, steps: seq<Owner>)
    requires WF(cfg)
    ensures Launched(cfg, Run(cfg, steps))
  {
    InitInv(cfg);
    LaunchFromPreserves(cfg, Init(cfg), 0);
    LaunchLaunched(cfg);
    StepsLaunched(cfg, LaunchFrom(cfg, Init(cfg), 0), steps);
  }

  // ---------------------------------------------------------------- what an observer sees

  /**
   * The launch loop, unless `Sequence` throws, starts the first filter of every group's
   * leader and no follower.
   */
  lemma LaunchStartsLeaders(cfg: Config, s: State)
    requires WF(cfg) && s == LaunchFrom(cfg, Init(cfg), 0) && s.status == Live
    ensures Shaped(cfg, s)
    ensures forall g :: 0 <= g < |cfg.sched| ==> s.chains[g][0].Running? && s.chains[g][0].stage == 0
    ensures forall g :: 0 <= g < |cfg.sched| ==> |cfg.sched[g][0].ops| >= 2 && Started(Member(g, 0), 0, cfg.sched[g][0].ops[0]) in s.trace
    ensures forall g, m :: 0 <= g < |cfg.sched| && 0 < m < |cfg.sched[g]| ==> s.chains[g][m] == Idle
  {
    LaunchStarts(cfg, Init(cfg), 0, s);
  }

  /** Once a leader's chain has completed, every follower of its group has started (unless the process ended). */
  lemma LeaderStartsFollowers(cfg: Config, steps: seq<Owner>, s: State, g: nat)
    requires WF(cfg) && s == Run(cfg, steps) && s.status == Live && g < |cfg.sched|
    requires Completed(Member(g, 0)) in s.trace
    ensures Shaped(cfg, s)
    ensures forall m :: 0 < m < |cfg.sched[g]| ==> s.chains[g][m] != Idle && Proj(s.trace, Member(g, m)) != []
  {
    RunInv(cfg, steps);
    RunLaunched(cfg, steps);
    CompletedFinished(cfg, s, g, 0);
    forall m | 0 < m < |cfg.sched[g]|
      ensures s.chains[g][m] != Idle && Proj(s.trace, Member(g, m)) != []
    {
      var ph := s.chains[g][m];
      if ph.Running? {
        assert |Starts(Member(g, m), cfg.sched[g][m].ops, ph.stage + 1)| > 0;
      } else {
        assert |History(Member(g, m), cfg.sched[g][m].ops, ph)| > 0;
      }
    }
  }

  /** Once `Finalize` has fired, an output filter or array of filters has started (unless the process ended). */
  lemma FiringStartsOutput(cfg: Config, steps: seq<Owner>, s: State)
    requires WF(cfg) && s == Run(cfg, steps) && s.status == Live
    requires cfg.output.Single? || cfg.output.List?
    requires exists j :: 0 <= j < |s.trace| && s.trace[j].Fired?
    ensures s.out != Idle && Proj(s.trace, OutputStage) != []
  {
    RunInv(cfg, steps);
    RunLaunched(cfg, steps);
    BarrierFiresOnce(cfg, steps, s);
    if s.out.Running? {
      assert |Starts(OutputStage, OutOps(cfg), s.out.stage + 1)| > 0;
    }
  }

  /**
   * A run in which no filter is working any more, and the process still lives, has
   * completed the chain of every chapter: `spec.loaded` counts all of them, `Finalize`
   * has fired once when there is a chapter, and an output filter or array has run to its
   * end (an array's own terminal step adding one more to `spec.loaded`).
   */
  lemma QuiescentRunCompletes(cfg: Config, steps: seq<Owner>, s: State)
    requires WF(cfg) && s == Run(cfg, steps) && s.status == Live
    requires forall g, m :: 0 <= g < |s.chains| && 0 <= m < |s.chains[g]| ==> !s.chains[g][m].Running?
    requires !s.out.Running?
    ensures AllCompletedIn(cfg, s.trace) && CountFinished(s.chains) == cfg.total
    ensures 0 < cfg.total ==> exists j :: 0 <= j < |s.trace| && s.trace[j].Fired?
    ensures 0 < cfg.total && (cfg.output.Single? || cfg.output.List?) ==> s.out == Finished
    ensures s.loaded == cfg.total + (if 0 < cfg.total && cfg.output.List? then 1 else 0)
  {
    RunInv(cfg, steps);
    RunLaunched(cfg, steps);
    forall g, m | 0 <= g < |cfg.sched| && 0 <= m < |cfg.sched[g]|
      ensures s.chains[g][m] == Finished
    {
      assert s.chains[g][0] != Idle;
    }
    CountFull(s.chains, cfg.sched);
    FinishedAllCompleted(cfg, s);
    BarrierFiresOnce(cfg, steps, s);
    if 0 < cfg.total && !(cfg.output.Single? || cfg.output.List?) {
      assert s.out == Idle;
    }
  }
}
