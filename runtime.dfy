/**
 * The engine as the program runs it: one process whose state (`spec.loaded`, the params
 * objects whose `chap` was cleared, the chains in flight) is updated in place by
 * `Sequence`, `Finalize`, the leader's callback and the launch loop. Each method is
 * proved to do what the engine's state machine says of the state before it, so every
 * property proved of the state machine holds of the process.
 */
module Runtime {
  import opened Results
  import opened Setup
  import opened Engine
  import opened Invariant
  import opened Safety

  class Process {
    /** The schedule, `spec.contents.length`, `spec.output` and the filter registry. */
    const cfg: Config
    var status: Status
    /** `spec.loaded`. */
    var loaded: int
    /** The params objects whose `chap` has been set to null. */
    var released: set<nat>
    var chains: seq<seq<Phase>>
    var out: Phase
    var trace: seq<Event>

    /** The process's state as the engine's state machine describes it. */
    function Snapshot(): State
      reads this
    {
      State(status, loaded, released, chains, out, trace)
    }

    /** The state before the launch loop: `spec.loaded = 0`, no chain started. */
    constructor (cfg: Config)
      ensures this.cfg == cfg && Snapshot() == Init(cfg)
    {
      this.cfg := cfg;
      status, loaded, released := Live, 0, {};
      chains := seq(|cfg.sched|, g requires 0 <= g < |cfg.sched| => seq(|cfg.sched[g]|, _ => Idle));
      out, trace := Idle, [];
    }

    /** Move the chain of `o` to phase `p`, then record `e`. */
    method Move(o: Owner, p: Phase, e: Event)
      modifies this
      ensures Snapshot() == Log(WithPhase(old(Snapshot()), o, p), e)
    {
      match o {
        case Member(g, m) =>
          if g < |chains| && m < |chains[g]| {
            chains := chains[g := chains[g][m := p]];
          }
        case OutputStage =>
          out := p;
      }
      trace := trace + [e];
    }

    /**
     * `Sequence(ops, params, cb)` for the chain of `owner`: fewer than two ops throw;
     * otherwise the backward loop links the chain and its first op is invoked.
     */
    method Sequence(owner: Owner, ops: seq<FilterId>, params: nat, cb: Callback)
      modifies this
      ensures Snapshot() == Engine.Sequence(old(Snapshot()), owner, ops, params, cb)
    {
      if status != Live {
        return;
      }
      if |ops| < 2 {
        status := Crashed;
        return;
      }
      var last := BuildChain(ops, cb);
      assert last == Invoke(ops[0], ChainFrom(ops, 1, cb));
      // `last()`: the first op runs, holding the rest of the chain as its `next`
      Move(owner, Running(0, last.next, params), Started(owner, 0, last.op));
    }

    /** The output stage, dispatched from the params of chapter `params`. */
    method Dispatch(params: nat)
      modifies this
      ensures Snapshot() == Engine.Dispatch(cfg, old(Snapshot()), params)
    {
      match cfg.output {
        case Single(id) =>
          if id !in cfg.registry {
            status := Exited;
          } else {
            out := Running(0, Noop, params);
            trace := trace + [Started(OutputStage, 0, id)];
          }
        case List(ids) =>
          var r := ResolveChain(cfg.registry, ids);
          match r {
            case Err(_) =>
              status := Exited;
            case Ok(ops) =>
              Sequence(OutputStage, ops, params, NoCallback);
          }
        case Missing =>
          status := Crashed;
        case Unrecognised =>
      }
    }

    /** `Finalize(params)`: count the chain, and dispatch the output stage on the call that reaches the total. */
    method Finalize(params: nat)
      modifies this
      ensures Snapshot() == Engine.Finalize(cfg, old(Snapshot()), params)
    {
      loaded := loaded + 1;
      if loaded == cfg.total {
        released := released + {params};
        trace := trace + [Fired(params)];
        Dispatch(params);
      }
    }

    /** The leader's `cb`: `Sequence` for each follower of group `g`, in order. */
    method RunFollowers(g: nat, chapters: seq<Pending>)
      modifies this
      ensures Snapshot() == Followers(old(Snapshot()), g, chapters, 1)
    {
      var ci := 1;
      while ci < |chapters|
        invariant Followers(old(Snapshot()), g, chapters, 1) == Followers(Snapshot(), g, chapters, ci)
      {
        Sequence(Member(g, ci), chapters[ci].ops, chapters[ci].params, NoCallback);
        ci := ci + 1;
      }
    }

    /**
     * The filter running for `owner` calls its `next`. The invariant of the runs is kept,
     * whichever chain it is.
     */
    method CallNext(owner: Owner)
      modifies this
      ensures Snapshot() == Engine.CallNext(cfg, old(Snapshot()), owner)
      ensures Inv(cfg, old(Snapshot())) ==> Inv(cfg, Snapshot())
    {
      ghost var before := Snapshot();
      if Inv(cfg, before) {
        CallNextPreserves(cfg, before, owner);
      }
      if status != Live {
        return;
      }
      match PhaseOf(Snapshot(), owner) {
        case Running(i, next, params) =>
          match next {
            case Invoke(op, rest) =>
              Move(owner, Running(i + 1, rest, params), Started(owner, i + 1, op));
            case Terminal(cb) =>
              Move(owner, Finished, Completed(owner));
              Finalize(params);
              match cb {
                case NoCallback =>
                case StartFollowers(g, chapters) =>
                  RunFollowers(g, chapters);
              }
            case Noop =>
              Move(owner, Finished, Completed(owner));
          }
        case _ =>
      }
    }

    /** The launch loop: for each group, in first-seen order, start its leader with the followers as `cb`. */
    method Launch()
      modifies this
      ensures Snapshot() == LaunchFrom(cfg, old(Snapshot()), 0)
    {
      var g := 0;
      while g < |cfg.sched|
        invariant g <= |cfg.sched|
        invariant LaunchFrom(cfg, old(Snapshot()), 0) == LaunchFrom(cfg, Snapshot(), g)
      {
        var chapters := cfg.sched[g];
        if |chapters| == 1 {
          Sequence(Member(g, 0), chapters[0].ops, chapters[0].params, NoCallback);
        } else if |chapters| == 0 {
          status := Crashed;
        } else {
          Sequence(Member(g, 0), chapters[0].ops, chapters[0].params, StartFollowers(g, chapters));
        }
        g := g + 1;
      }
    }
  }

  /**
   * A whole run: the launch loop, then the filters calling `next` in the order `steps`
   * gives. For a schedule a successful setup produces, the process ends in a state that
   * keeps the invariant of the runs.
   */
  method Start(cfg: Config, steps: seq<Owner>) returns (p: Process)
    requires WF(cfg)
    ensures fresh(p) && p.cfg == cfg
    ensures p.Snapshot() == Run(cfg, steps)
    ensures Inv(cfg, p.Snapshot())
  {
    p := new Process(cfg);
    p.Launch();
    var k := 0;
    while k < |steps|
      invariant k <= |steps|
      invariant p.cfg == cfg
      invariant Steps(cfg, p.Snapshot(), steps[k..]) == Run(cfg, steps)
    {
      assert steps[k..][1..] == steps[k + 1..];
      p.CallNext(steps[k]);
      k := k + 1;
    }
    RunInv(cfg, steps);
  }
}
