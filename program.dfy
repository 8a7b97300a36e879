/**
 * The whole program: the setup loop builds the schedule from the spec, and only when it
 * gets through every chapter does the launch loop start the chains. The params object
 * of a chapter is identified by the chapter's index.
 */
module Program {
  import opened Results
  import opened Text
  import opened Setup
  import opened Engine
  import opened Invariant
  import opened Safety
  import opened Properties
  import opened Progress

  /** The `[ops, params]` pairs of one group, in the order they were filed. */
  function Chains(grp: Group): seq<Pending> {
    seq(|grp.entries|, m requires 0 <= m < |grp.entries| => Pending(grp.entries[m].ops, grp.entries[m].chapter))
  }

  /** The schedule as the launch loop walks it: one sequence of pairs per source, in first-seen order. */
  function Lift(groups: seq<Group>): seq<seq<Pending>> {
    seq(|groups|, g requires 0 <= g < |groups| => Chains(groups[g]))
  }

  /** What the launch loop and `Finalize` are given by a setup that produced `groups`. */
  function ConfigOf(spec: Spec, reg: Registry, groups: seq<Group>): Config {
    Config(Lift(groups), |spec.contents|, spec.output, reg)
  }

  /** The program on `spec`: the setup's error, or the run after the launch loop and the environment steps `steps`. */
  function Execute(spec: Spec, reg: Registry, steps: seq<Owner>): Result<State, SetupError> {
    match Schedule(spec, reg, |spec.contents|)
    case Err(e) => Err(e)
    case Ok(groups) => Ok(Run(ConfigOf(spec, reg, groups), steps))
  }

  // ---------------------------------------------------------------- counting the chains

  lemma {:induction false} SizeUpdate(sched: seq<seq<Pending>>, g: nat, row: seq<Pending>)
    requires g < |sched|
    ensures Size(sched[g := row]) + |sched[g]| == Size(sched) + |row|
  {
    var last := |sched| - 1;
    if g < last {
      SizeUpdate(sched[..last], g, row);
      assert sched[g := row][..last] == sched[..last][g := row];
    } else {
      assert sched[g := row][..last] == sched[..last];
    }
  }

  lemma LiftInsert(groups: seq<Group>, src: Text, e: Entry)
    ensures Size(Lift(Insert(groups, src, e))) == Size(Lift(groups)) + 1
  {
    var g := GroupIndex(groups, src);
    var grown := Insert(groups, src, e);
    if g < |groups| {
      var row := Chains(grown[g]);
      assert Lift(grown) == Lift(groups)[g := row];
      SizeUpdate(Lift(groups), g, row);
    } else {
      assert Lift(grown)[..|groups|] == Lift(groups);
    }
  }

  /** Filing `n` chapters puts `n` chains in the schedule. */
  lemma {:induction false} FilingSize(vs: seq<Result<Checked, SetupError>>, n: nat)
    requires n <= |vs| && Filing(vs, n).Ok?
    ensures Size(Lift(Filing(vs, n).value)) == n
  {
    if n > 0 {
      FilingSize(vs, n - 1);
      var c := vs[n - 1].value;
      LiftInsert(Filing(vs, n - 1).value, c.src, Entry(n - 1, Decimal(n - 1), c.ops));
    }
  }

  /** A successful setup hands the launch loop a schedule with no empty group and one chain per chapter. */
  lemma SetupWellFormed(spec: Spec, reg: Registry, groups: seq<Group>)
    requires Schedule(spec, reg, |spec.contents|) == Ok(groups)
    ensures WF(ConfigOf(spec, reg, groups))
  {
    SchedulePlaced(spec, reg);
    FilingSize(Verdicts(spec, reg), |spec.contents|);
  }

  /** Chapter `k` has a chain in the schedule. */
  predicate HasChain(sched: seq<seq<Pending>>, k: nat) {
    exists g, m :: 0 <= g < |sched| && 0 <= m < |sched[g]| && sched[g][m].params == k
  }

  /**
   * The chains of a successful setup are the spec's chapters: each runs the chain its
   * chapter resolved to, on that chapter's params, grouped under the chapter's `src`.
   */
  lemma SetupChainsFaithful(spec: Spec, reg: Registry, groups: seq<Group>)
    requires Schedule(spec, reg, |spec.contents|) == Ok(groups)
    ensures forall g, m :: 0 <= g < |groups| && 0 <= m < |Lift(groups)[g]| ==>
      && Lift(groups)[g][m].params < |spec.contents|
      && ChapterOps(spec, reg, Lift(groups)[g][m].params) == Ok(Lift(groups)[g][m].ops)
      && spec.contents[Lift(groups)[g][m].params].src == Str(groups[g].src)
  {
    var vs := Verdicts(spec, reg);
    SchedulePlaced(spec, reg);
    forall g, m | 0 <= g < |groups| && 0 <= m < |Lift(groups)[g]|
      ensures Lift(groups)[g][m].params < |spec.contents|
      ensures ChapterOps(spec, reg, Lift(groups)[g][m].params) == Ok(Lift(groups)[g][m].ops)
      ensures spec.contents[Lift(groups)[g][m].params].src == Str(groups[g].src)
    {
      var e := groups[g].entries[m];
      assert Fits(vs, groups[g].src, e, |spec.contents|);
      VerdictOk(spec, reg, e.chapter, groups[g].src, e.ops);
    }
  }

  /** Every chapter of a successful setup has a chain, exactly one, and a group holds its chapters in spec order. */
  lemma SetupChainsComplete(spec: Spec, reg: Registry, groups: seq<Group>)
    requires Schedule(spec, reg, |spec.contents|) == Ok(groups)
    ensures forall k :: 0 <= k < |spec.contents| ==> HasChain(Lift(groups), k)
    ensures forall g, m, g', m' ::
      (&& 0 <= g < |groups| && 0 <= m < |Lift(groups)[g]| && 0 <= g' < |groups| && 0 <= m' < |Lift(groups)[g']|
       && Lift(groups)[g][m].params == Lift(groups)[g'][m'].params) ==> g == g' && m == m'
    ensures forall g, m, m' :: 0 <= g < |groups| && 0 <= m < m' < |Lift(groups)[g]| ==>
      Lift(groups)[g][m].params < Lift(groups)[g][m'].params
  {
    var vs := Verdicts(spec, reg);
    SchedulePlaced(spec, reg);
    forall k | 0 <= k < |spec.contents| ensures HasChain(Lift(groups), k) {
      assert Filed(groups, k);
      var g, m :| 0 <= g < |groups| && 0 <= m < |groups[g].entries| && groups[g].entries[m].chapter == k;
      assert Lift(groups)[g][m].params == k;
    }
    forall g, m, g', m' | 0 <= g < |groups| && 0 <= m < |Lift(groups)[g]| &&
      0 <= g' < |groups| && 0 <= m' < |Lift(groups)[g']| && Lift(groups)[g][m].params == Lift(groups)[g'][m'].params
      ensures g == g' && m == m'
    {
      FiledOnce(vs, groups, |spec.contents|, g, m, g', m');
    }
  }

  // ---------------------------------------------------------------- the program

  /** The program gets past setup exactly when every chapter passes its checks; otherwise it reports the first that fails. */
  lemma ExecuteFails(spec: Spec, reg: Registry, steps: seq<Owner>)
    ensures Execute(spec, reg, steps).Ok? <==> forall j :: 0 <= j < |spec.contents| ==> ChapterOps(spec, reg, j).Ok?
    ensures Execute(spec, reg, steps).Err? ==>
      exists c :: 0 <= c < |spec.contents| && ChapterOps(spec, reg, c) == Err(Execute(spec, reg, steps).error) &&
        forall j :: 0 <= j < c ==> ChapterOps(spec, reg, j).Ok?
  {
    ScheduleOk(spec, reg);
    if Execute(spec, reg, steps).Err? {
      var c := ScheduleFailsAtFirst(spec, reg);
    }
  }

  /**
   * On every interleaving of a program that got past setup, the output stage fires once
   * at most, and it has fired exactly when the spec has chapters and every chapter's chain
   * has completed.
   */
  lemma ExecuteBarrier(spec: Spec, reg: Registry, steps: seq<Owner>, s: State, groups: seq<Group>)
    requires Schedule(spec, reg, |spec.contents|) == Ok(groups) && Execute(spec, reg, steps) == Ok(s)
    ensures forall i, j :: 0 <= i < |s.trace| && 0 <= j < |s.trace| && s.trace[i].Fired? && s.trace[j].Fired? ==> i == j
    ensures (exists j :: 0 <= j < |s.trace| && s.trace[j].Fired?) <==>
      |spec.contents| > 0 && AllCompletedIn(ConfigOf(spec, reg, groups), s.trace)
  {
    SetupWellFormed(spec, reg, groups);
    BarrierFiresOnce(ConfigOf(spec, reg, groups), steps, s);
  }

  /**
   * A program that got past setup and in which no filter is working any more, while the
   * process lives, has completed the chain of every one of the spec's chapters, and has
   * fired the output stage when there is a chapter.
   */
  lemma ExecuteCompletes(spec: Spec, reg: Registry, steps: seq<Owner>, s: State, groups: seq<Group>)
    requires Schedule(spec, reg, |spec.contents|) == Ok(groups) && Execute(spec, reg, steps) == Ok(s)
    requires s.status == Live && !s.out.Running?
    requires forall g, m :: 0 <= g < |s.chains| && 0 <= m < |s.chains[g]| ==> !s.chains[g][m].Running?
    ensures CountFinished(s.chains) == |spec.contents|
    ensures AllCompletedIn(ConfigOf(spec, reg, groups), s.trace)
    ensures |spec.contents| > 0 ==> exists j :: 0 <= j < |s.trace| && s.trace[j].Fired?
  {
    SetupWellFormed(spec, reg, groups);
    QuiescentRunCompletes(ConfigOf(spec, reg, groups), steps, s);
  }

  /** With no chapters nothing is ever launched, so nothing happens at all: the output stage never fires. */
  lemma EmptySpecIdle(spec: Spec, reg: Registry, steps: seq<Owner>)
    requires spec.contents == []
    ensures Execute(spec, reg, steps).Ok? && Execute(spec, reg, steps).value.trace == []
  {
    var cfg := ConfigOf(spec, reg, []);
    assert Schedule(spec, reg, 0) == Ok([]);
    assert LaunchFrom(cfg, Init(cfg), 0) == Init(cfg);
    StepsIdle(cfg, Init(cfg), steps);
  }

  /** With no chain started, the environment has nobody to call back. */
  lemma {:induction false} StepsIdle(cfg: Config, s: State, steps: seq<Owner>)
    requires s.chains == [] && s.out == Idle
    ensures Steps(cfg, s, steps) == s
    decreases |steps|
  {
    if steps != [] {
      StepsIdle(cfg, CallNext(cfg, s, steps[0]), steps[1..]);
    }
  }

  // ---------------------------------------------------------------- an example

  /** A chapter titled "t" from source `src`, with no chain name. */
  function Titled(src: Text): Chapter {
    Chapter(Str([0x74]), Str(src), NotString)
  }

  /**
   * Three chapters, the first and the last from source X, the middle one from Y: X's group
   * holds chapters 0 and 2 in that order, Y's group chapter 1, and X comes first.
   */
  lemma SharedSourceExample(x: Text, y: Text, ops: seq<FilterId>)
    requires x != y
    ensures Schedule(Spec([Titled(x), Titled(y), Titled(x)], ChainList(ops), Missing), set id | id in ops, 3) ==
      Ok([Group(x, [Entry(0, Decimal(0), ops), Entry(2, Decimal(2), ops)]), Group(y, [Entry(1, Decimal(1), ops)])])
  {
    var spec := Spec([Titled(x), Titled(y), Titled(x)], ChainList(ops), Missing);
    var reg := set id | id in ops;
    assert Resolve(reg, ops) == Ok(ops);
    var vs := Verdicts(spec, reg);
    assert vs[0] == Ok(Checked(x, ops));
    assert vs[1] == Ok(Checked(y, ops));
    assert vs[2] == Ok(Checked(x, ops));
    var e0, e1, e2 := Entry(0, Decimal(0), ops), Entry(1, Decimal(1), ops), Entry(2, Decimal(2), ops);
    var one := [Group(x, [e0])];
    var two := one + [Group(y, [e1])];
    assert Filing(vs, 0) == Ok([]);
    assert Insert([], x, e0) == one;
    assert Filing(vs, 1) == Ok(one);
    assert GroupIndex(one, y) == 1 by { assert one[1..] == []; }
    assert Filing(vs, 2) == Ok(two);
    assert GroupIndex(two, x) == 0;
    assert two[0].entries + [e2] == [e0, e2];
    assert Filing(vs, 3) == Ok(two[0 := Group(x, [e0, e2])]);
    assert two[0 := Group(x, [e0, e2])] == [Group(x, [e0, e2]), Group(y, [e1])];
    assert Schedule(spec, reg, 3) == Filing(vs, 3);
  }
}
