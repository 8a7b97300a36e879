/**
 * The execution engine of ebook.js: `Sequence` (a chain of filters joined by
 * continuations), `Finalize` (the completion barrier in front of the output stage) and
 * the loop that launches one chain per group of chapters sharing a source.
 *
 * Filters are opaque ids. A chain in flight is a state machine over its stage, and "the
 * filter running for a chain calls the continuation it was given" is a step the
 * environment may take at any moment, so each interleaving of the filters' asynchronous
 * work is one sequence of such steps.
 */
module Engine {
  import opened Results
  import opened Setup

  /** One `[ops, params]` pair of the schedule: the chain of a chapter and the chapter's index. */
  datatype Pending = Pending(ops: seq<FilterId>, params: nat)

  /** Who owns a chain: the chapter at position `m` of group `g` of the schedule, or the output stage. */
  datatype Owner = Member(g: nat, m: nat) | OutputStage

  /** The optional `cb` of `Sequence`: none, or the closure over group `g`'s `chapters` that starts its followers. */
  datatype Callback = NoCallback | StartFollowers(g: nat, chapters: seq<Pending>)

  /**
   * The closures `Sequence` links together. `Invoke(op, next)` is
   * `function() { op(params, next); }`; `Terminal(cb)` is
   * `function() { Finalize(params); if (cb) cb(); }`; `Noop` is the empty callback a
   * single output filter receives.
   */
  datatype Cont = Invoke(op: FilterId, next: Cont) | Terminal(cb: Callback) | Noop

  /**
   * A chain's state: not started; the filter of stage `stage` running, holding the
   * continuation `next`, on the params object of chapter `params`; or done.
   */
  datatype Phase = Idle | Running(stage: nat, next: Cont, params: nat) | Finished

  /** The process: alive, ended by an exception nobody catches, or ended by `process.exit`. */
  datatype Status = Live | Crashed | Exited

  /**
   * What an observer of the run sees: filter `op` starting as stage `stage` of a chain,
   * a chain's last filter calling its continuation, `Finalize` dispatching the output
   * stage from the params of a chapter.
   */
  datatype Event = Started(owner: Owner, stage: nat, op: FilterId) | Completed(owner: Owner) | Fired(params: nat)

  /** What the run is given: the schedule, `spec.contents.length`, `spec.output` and the filter registry. */
  datatype Config = Config(sched: seq<seq<Pending>>, total: nat, output: Output, registry: Registry)

  /**
   * The mutable state of one run: `spec.loaded`, the params objects whose `chap` was set
   * to null, the phase of every chapter chain (parallel to the schedule) and of the
   * output chain, and the events so far.
   */
  datatype State = State(
    status: Status,
    loaded: int,
    released: set<nat>,
    chains: seq<seq<Phase>>,
    out: Phase,
    trace: seq<Event>)

  /** The continuation chain for `ops[i..]` followed by the terminal step with `cb`. */
  function ChainFrom(ops: seq<FilterId>, i: nat, cb: Callback): Cont
    decreases |ops| - i
  {
    if i >= |ops| then Terminal(cb) else Invoke(ops[i], ChainFrom(ops, i + 1, cb))
  }

  /** The filters a continuation invokes, in order, before it ends. */
  function Invoked(c: Cont): seq<FilterId> {
    match c
    case Invoke(op, next) => [op] + Invoked(next)
    case Terminal(_) => []
    case Noop => []
  }

  /** What a continuation does after its last filter. */
  function Ending(c: Cont): Cont {
    match c
    case Invoke(_, next) => Ending(next)
    case _ => c
  }

  /** The chain `Sequence` builds runs exactly `ops[i..]`, then the terminal step with its `cb`. */
  lemma {:induction false} ChainFromRuns(ops: seq<FilterId>, i: nat, cb: Callback)
    requires i <= |ops|
    ensures Invoked(ChainFrom(ops, i, cb)) == ops[i..]
    ensures Ending(ChainFrom(ops, i, cb)) == Terminal(cb)
    decreases |ops| - i
  {
    if i < |ops| {
      ChainFromRuns(ops, i + 1, cb);
      assert ops[i..] == [ops[i]] + ops[i + 1..];
    }
  }

  /**
   * The backward `for` loop of `Sequence`: `last` starts as the terminal step and each
   * op, last to first, is wrapped around it.
   */
  method BuildChain(ops: seq<FilterId>, cb: Callback) returns (last: Cont)
    ensures Invoked(last) == ops && Ending(last) == Terminal(cb)
    ensures last == ChainFrom(ops, 0, cb)
  {
    last := Terminal(cb);
    var i := |ops|;
    while i > 0
      invariant 0 <= i <= |ops|
      invariant last == ChainFrom(ops, i, cb)
    {
      i := i - 1;
      last := Invoke(ops[i], last);
    }
    ChainFromRuns(ops, 0, cb);
  }

  function PhaseOf(s: State, o: Owner): Phase {
    match o
    case Member(g, m) => if g < |s.chains| && m < |s.chains[g]| then s.chains[g][m] else Idle
    case OutputStage => s.out
  }

  function WithPhase(s: State, o: Owner, p: Phase): State {
    match o
    case Member(g, m) =>
      if g < |s.chains| && m < |s.chains[g]| then s.(chains := s.chains[g := s.chains[g][m := p]]) else s
    case OutputStage => s.(out := p)
  }

  function Log(s: State, e: Event): State {
    s.(trace := s.trace + [e])
  }

  /**
   * `Sequence(ops, params, cb)` for the chain of `owner`: fewer than two ops throw (the
   * process ends before any of them runs); otherwise the chain is built and its first op
   * invoked at once with the rest of the chain as its continuation.
   */
  function Sequence(s: State, owner: Owner, ops: seq<FilterId>, params: nat, cb: Callback): State {
    if s.status != Live then s
    else if |ops| < 2 then s.(status := Crashed)
    else Log(WithPhase(s, owner, Running(0, ChainFrom(ops, 1, cb), params)), Started(owner, 0, ops[0]))
  }

  /**
   * The output stage, dispatched from the params of chapter `params`: a single filter
   * runs with an empty callback; an array is resolved id by id and run through
   * `Sequence` (without `cb`); null or a missing `output` throws on `.constructor`;
   * any other value is only logged.
   */
  function Dispatch(cfg: Config, s: State, params: nat): State {
    match cfg.output
    case Single(id) =>
      if id !in cfg.registry then s.(status := Exited)
      else Log(s.(out := Running(0, Noop, params)), Started(OutputStage, 0, id))
    case List(ids) =>
      (match Resolve(cfg.registry, ids)
       case Err(_) => s.(status := Exited)
       case Ok(ops) => Sequence(s, OutputStage, ops, params, NoCallback))
    case Missing => s.(status := Crashed)
    case Unrecognised => s
  }

  /**
   * `Finalize(params)`: `++spec.loaded`; when it now equals `spec.contents.length`,
   * `params.chap` becomes null and the output stage is dispatched. Every call adds one;
   * the call that reaches the total fires, and no other does.
   */
  function Finalize(cfg: Config, s: State, params: nat): (r: State)
    ensures r.loaded == s.loaded + 1 && r.chains == s.chains
    ensures s.loaded + 1 != cfg.total ==> r == s.(loaded := s.loaded + 1)
    ensures s.loaded + 1 == cfg.total ==>
      |r.trace| > |s.trace| && r.trace[|s.trace|] == Fired(params) && params in r.released
  {
    var counted := s.(loaded := s.loaded + 1);
    if counted.loaded != cfg.total then counted
    else
      var fired := Log(counted.(released := counted.released + {params}), Fired(params));
      var r := Dispatch(cfg, fired, params);
      assert r.trace[..|fired.trace|] == fired.trace;
      r
  }

  /** The leader's `cb`: `Sequence` for `chapters[ci]`, `chapters[ci + 1]`, ... in order. */
  function Followers(s: State, g: nat, chapters: seq<Pending>, ci: nat): State
    decreases |chapters| - ci
  {
    if ci >= |chapters| then s
    else Followers(Sequence(s, Member(g, ci), chapters[ci].ops, chapters[ci].params, NoCallback), g, chapters, ci + 1)
  }

  /**
   * The environment step: the filter running for `owner` calls its continuation. The
   * next filter of the chain starts; or the chain ends with `Finalize` and then `cb`;
   * or the empty callback of a single output filter returns, which ends that chain. Nothing happens when no filter runs for `owner`, or
   * once the process has ended.
   */
  function CallNext(cfg: Config, s: State, owner: Owner): State {
    if s.status != Live then s
    else
      match PhaseOf(s, owner)
      case Running(i, next, params) =>
        (match next
         case Invoke(op, rest) => Log(WithPhase(s, owner, Running(i + 1, rest, params)), Started(owner, i + 1, op))
         case Terminal(cb) =>
           var done := Finalize(cfg, Log(WithPhase(s, owner, Finished), Completed(owner)), params);
           (match cb
            case NoCallback => done
            case StartFollowers(g, chapters) => Followers(done, g, chapters, 1))
         case Noop => Log(WithPhase(s, owner, Finished), Completed(owner)))
      case _ => s
  }

  /** What the launch loop does for group `g`: start its leader, with the followers as `cb` when there are any. */
  function LaunchGroup(cfg: Config, s: State, g: nat): State
    requires g < |cfg.sched|
  {
    var chapters := cfg.sched[g];
    if |chapters| == 1 then Sequence(s, Member(g, 0), chapters[0].ops, chapters[0].params, NoCallback)
    else if |chapters| == 0 then s.(status := Crashed)   // `chapters[0][0]` of an empty group throws
    else Sequence(s, Member(g, 0), chapters[0].ops, chapters[0].params, StartFollowers(g, chapters))
  }

  /** The launch loop from group `g` on (`for (src in sched)`, groups in first-seen order). */
  function LaunchFrom(cfg: Config, s: State, g: nat): State
    decreases |cfg.sched| - g
  {
    if g >= |cfg.sched| then s else LaunchFrom(cfg, LaunchGroup(cfg, s, g), g + 1)
  }

  /** The state before the launch loop: `spec.loaded = 0`, no chain started. */
  function Init(cfg: Config): State {
    State(Live, 0, {}, seq(|cfg.sched|, g requires 0 <= g < |cfg.sched| => seq(|cfg.sched[g]|, _ => Idle)), Idle, [])
  }

  /** The run after the launch loop and then the environment steps `steps`, in order. */
  function Run(cfg: Config, steps: seq<Owner>): State {
    Steps(cfg, LaunchFrom(cfg, Init(cfg), 0), steps)
  }

  function Steps(cfg: Config, s: State, steps: seq<Owner>): State
    decreases |steps|
  {
    if steps == [] then s else Steps(cfg, CallNext(cfg, s, steps[0]), steps[1..])
  }
}
