/**
 * The invariant of the engine's runs: what every state reachable from the launch loop
 * through any interleaving of filters calling `next` satisfies, stated over the
 * schedule the run was given.
 */
module Invariant {
  import opened Results
  import opened Setup
  import opened Engine

  /** The number of chapter chains a schedule holds. */
  function Size(sched: seq<seq<Pending>>): nat {
    if sched == [] then 0 else Size(sched[..|sched| - 1]) + |sched[|sched| - 1]|
  }

  function Done(p: Phase): nat {
    if p == Finished then 1 else 0
  }

  function CountRow(row: seq<Phase>): nat {
    if row == [] then 0 else CountRow(row[..|row| - 1]) + Done(row[|row| - 1])
  }

  /** How many chapter chains have reached their terminal step. */
  function CountFinished(chains: seq<seq<Phase>>): nat {
    if chains == [] then 0 else CountFinished(chains[..|chains| - 1]) + CountRow(chains[|chains| - 1])
  }

  /** The configurations a successful setup produces: no empty group, one chain per chapter. */
  predicate WF(cfg: Config) {
    && (forall g :: 0 <= g < |cfg.sched| ==> |cfg.sched[g]| > 0)
    && Size(cfg.sched) == cfg.total
  }

  predicate Shaped(cfg: Config, s: State) {
    && |s.chains| == |cfg.sched|
    && (forall g :: 0 <= g < |cfg.sched| ==> |s.chains[g]| == |cfg.sched[g]|)
  }

  /** The `cb` the launch loop hands chapter `m` of group `g`: the followers' closure for a leader that has followers. */
  function CbFor(cfg: Config, g: nat, m: nat): Callback
    requires g < |cfg.sched|
  {
    if m == 0 && |cfg.sched[g]| > 1 then StartFollowers(g, cfg.sched[g]) else NoCallback
  }

  /** A running chain is at one of its own stages and holds exactly the rest of its own chain. */
  predicate Runs(ops: seq<FilterId>, cb: Callback, p: Phase) {
    p.Running? ==> p.stage < |ops| && p.next == ChainFrom(ops, p.stage + 1, cb)
  }

  predicate Phases(cfg: Config, s: State)
    requires Shaped(cfg, s)
  {
    forall g, m :: 0 <= g < |cfg.sched| && 0 <= m < |cfg.sched[g]| ==>
      && Runs(cfg.sched[g][m].ops, CbFor(cfg, g, m), s.chains[g][m])
      && (s.chains[g][m].Running? ==> s.chains[g][m].params == cfg.sched[g][m].params)
  }

  /** The output chain: one filter with the empty callback, or the resolved array run by `Sequence`; nothing for any other `output`. */
  predicate OutOk(cfg: Config, p: Phase) {
    match cfg.output
    case Single(_) => p.Running? ==> p.stage == 0 && p.next == Noop
    case List(ids) => p != Idle ==> Resolve(cfg.registry, ids) == Ok(ids) && Runs(ids, NoCallback, p)
    case _ => p == Idle
  }

  /** The filters of the output chain. */
  function OutOps(cfg: Config): seq<FilterId> {
    match cfg.output
    case Single(id) => [id]
    case List(ids) => ids
    case _ => []
  }

  /** A follower of group `g` has not started unless the leader's chain has finished. */
  predicate Waits(cfg: Config, s: State)
    requires Shaped(cfg, s)
  {
    forall g, m :: 0 <= g < |cfg.sched| && 0 < m < |cfg.sched[g]| && s.chains[g][m] != Idle ==>
      s.chains[g][0] == Finished
  }

  predicate AllFinished(cfg: Config, s: State)
    requires Shaped(cfg, s)
  {
    forall g, m :: 0 <= g < |cfg.sched| && 0 <= m < |cfg.sched[g]| ==> s.chains[g][m] == Finished
  }

  /** `spec.loaded` counts the `Finalize` calls: one per finished chapter chain, one more for a finished output array. */
  predicate Counted(cfg: Config, s: State) {
    s.loaded == CountFinished(s.chains) + (if s.out == Finished && cfg.output.List? then 1 else 0)
  }

  predicate Concerns(e: Event, o: Owner) {
    match e
    case Started(o', _, _) => o' == o
    case Completed(o') => o' == o
    case Fired(_) => false
  }

  /** The events of `t` about the chain of `o`, in order. */
  function Proj(t: seq<Event>, o: Owner): seq<Event> {
    if t == [] then []
    else Proj(t[..|t| - 1], o) + (if Concerns(t[|t| - 1], o) then [t[|t| - 1]] else [])
  }

  /** The first `n` filters of `ops` starting for `o`, in order. */
  function Starts(o: Owner, ops: seq<FilterId>, n: nat): seq<Event>
    requires n <= |ops|
  {
    if n == 0 then [] else Starts(o, ops, n - 1) + [Started(o, n - 1, ops[n - 1])]
  }

  /** The events the chain of `ops` has produced in phase `p`: its filters started in order, then its completion. */
  function History(o: Owner, ops: seq<FilterId>, p: Phase): seq<Event> {
    match p
    case Idle => []
    case Running(i, _, _) => if i < |ops| then Starts(o, ops, i + 1) else []
    case Finished => Starts(o, ops, |ops|) + [Completed(o)]
  }

  predicate Histories(cfg: Config, s: State)
    requires Shaped(cfg, s)
  {
    && (forall g, m :: 0 <= g < |cfg.sched| && 0 <= m < |cfg.sched[g]| ==>
          Proj(s.trace, Member(g, m)) == History(Member(g, m), cfg.sched[g][m].ops, s.chains[g][m]))
    && Proj(s.trace, OutputStage) == History(OutputStage, OutOps(cfg), s.out)
  }

  predicate FollowerStart(e: Event) {
    e.Started? && e.stage == 0 && e.owner.Member? && e.owner.m > 0
  }

  predicate OutputEvent(e: Event) {
    e.Fired? || (e.Started? && e.owner == OutputStage)
  }

  predicate AllCompletedIn(cfg: Config, t: seq<Event>) {
    forall g, m :: 0 <= g < |cfg.sched| && 0 <= m < |cfg.sched[g]| ==> Completed(Member(g, m)) in t
  }

  /**
   * The order of the trace: a follower starts only after its leader's chain completed;
   * `Finalize` fires, and the output filters start, only after every chapter's chain
   * completed.
   */
  predicate TraceOrdered(cfg: Config, t: seq<Event>) {
    && (forall j :: 0 <= j < |t| && FollowerStart(t[j]) ==> Completed(Member(t[j].owner.g, 0)) in t[..j])
    && (forall j :: 0 <= j < |t| && OutputEvent(t[j]) ==> AllCompletedIn(cfg, t[..j]))
  }

  function FiredCount(t: seq<Event>): nat {
    if t == [] then 0 else FiredCount(t[..|t| - 1]) + (if t[|t| - 1].Fired? then 1 else 0)
  }

  /** The chains and `spec.loaded` agree: phases, waiting followers, the count, the released params. */
  ghost predicate Settled(cfg: Config, s: State) {
    && Shaped(cfg, s)
    && Phases(cfg, s)
    && Waits(cfg, s)
    && OutOk(cfg, s.out)
    && Counted(cfg, s)
    && (forall q :: q in s.released <==> Fired(q) in s.trace)
  }

  /** The chains and the counters: settled, the output stage behind the barrier, and `Finalize` fired once at most. */
  ghost predicate Core(cfg: Config, s: State) {
    && Settled(cfg, s)
    && (s.out != Idle ==> 0 < cfg.total && AllFinished(cfg, s))
    && FiredCount(s.trace) == (if 0 < cfg.total <= s.loaded then 1 else 0)
  }

  /** What the trace records: every chain's own history, and the order across chains. */
  predicate Record(cfg: Config, s: State) {
    Shaped(cfg, s) && Histories(cfg, s) && TraceOrdered(cfg, s.trace)
  }

  /** The invariant of every reachable state. */
  ghost predicate Inv(cfg: Config, s: State) {
    WF(cfg) && Core(cfg, s) && Record(cfg, s)
  }

  predicate InRange(cfg: Config, o: Owner) {
    o.Member? ==> o.g < |cfg.sched| && o.m < |cfg.sched[o.g]|
  }

  /** The filters of the chain `o` owns. */
  function OpsOf(cfg: Config, o: Owner): seq<FilterId>
    requires InRange(cfg, o)
  {
    match o
    case Member(g, m) => cfg.sched[g][m].ops
    case OutputStage => OutOps(cfg)
  }

  /** The state after chapter chain `(g0, m0)` moves to phase `p` and logs `e`. */
  function MemberStep(s: State, g0: nat, m0: nat, p: Phase, e: Event): State
    requires g0 < |s.chains| && m0 < |s.chains[g0]|
  {
    s.(chains := s.chains[g0 := s.chains[g0][m0 := p]], trace := s.trace + [e])
  }
}
