/**
 * The setup loop of ebook.js: each chapter of the parsed spec is checked, numbered,
 * given its resolved filter chain, and filed in the schedule under its source, so that
 * chapters sharing a source form one group. Any failure ends the program before the
 * launch loop, so that no chain starts.
 */
module Setup {
  import opened Results
  import opened Text

  type FilterId = Text

  /** A member of a spec object as `typeof` sees it: a string, or anything else (absence included). */
  datatype Field = Str(s: Text) | NotString

  /** A chapter object: `title`, `src` and, when the spec names its chains, `filters`. */
  datatype Chapter = Chapter(title: Field, src: Field, chain: Field)

  /** `spec.filters`, by the tag `Object.prototype.toString` gives it. */
  datatype Filters =
    | ChainList(ids: seq<FilterId>)                  // "[object Array]": one chain for every chapter
    | Named(chains: map<Text, seq<FilterId>>)        // "[object Object]": chains by name
    | Unsupported                                    // any other tag

  /** `spec.output`: a string, an array, null or absent (no `constructor`), or another value. */
  datatype Output = Single(id: FilterId) | List(ids: seq<FilterId>) | Missing | Unrecognised

  datatype Spec = Spec(contents: seq<Chapter>, filters: Filters, output: Output)

  /** The filter units loaded at start-up, by id (`FilterManager.filters`); a unit is known by its id. */
  type Registry = set<FilterId>

  /**
   * Why the setup loop stopped, and at which chapter: the first five make it log and
   * `return`, NoSuchFilter is `FilterManager.get` calling `process.exit`.
   */
  datatype SetupError =
    | TitleNotString(chapter: nat)
    | SrcNotString(chapter: nat)
    | ChainNameMissing(chapter: nat)
    | ChainNotFound(chapter: nat, name: Text)
    | UnsupportedFilters(chapter: nat)
    | NoSuchFilter(chapter: nat, id: FilterId)

  /** The position of the first id `FilterManager.get` does not know, or |ids| when it knows them all. */
  function FirstUnknown(reg: Registry, ids: seq<FilterId>): (k: nat)
    ensures k <= |ids|
    ensures forall j :: 0 <= j < k ==> ids[j] in reg
    ensures k < |ids| ==> ids[k] !in reg
  {
    if ids == [] || ids[0] !in reg then 0 else 1 + FirstUnknown(reg, ids[1..])
  }

  /** Resolving a chain id by id: the chain, or the first id that makes `get` exit. */
  function Resolve(reg: Registry, ids: seq<FilterId>): Result<seq<FilterId>, FilterId> {
    var k := FirstUnknown(reg, ids);
    if k == |ids| then Ok(ids) else Err(ids[k])
  }

  /** `for (fi ...) ops.push(filter_mgr.get(ids[fi]))`: stops at the first unknown id. */
  method ResolveChain(reg: Registry, ids: seq<FilterId>) returns (r: Result<seq<FilterId>, FilterId>)
    ensures r == Resolve(reg, ids)
    ensures r.Ok? <==> forall k :: 0 <= k < |ids| ==> ids[k] in reg
  {
    var ops: seq<FilterId> := [];
    var fi := 0;
    while fi < |ids|
      invariant fi <= |ids| && ops == ids[..fi]
      invariant forall j :: 0 <= j < fi ==> ids[j] in reg
    {
      if ids[fi] !in reg {
        return Err(ids[fi]);
      }
      ops := ops + [ids[fi]];
      fi := fi + 1;
    }
    assert ops == ids;
    return Ok(ops);
  }

  /** The checks and the chain resolution the setup loop performs for chapter `i`, in the program's order. */
  function ChapterOps(spec: Spec, reg: Registry, i: nat): Result<seq<FilterId>, SetupError>
    requires i < |spec.contents|
  {
    var chap := spec.contents[i];
    if !chap.title.Str? then Err(TitleNotString(i))
    else if !chap.src.Str? then Err(SrcNotString(i))
    else match spec.filters
      case ChainList(ids) => OpsOrExit(Resolve(reg, ids), i)
      case Named(chains) =>
        if !chap.chain.Str? then Err(ChainNameMissing(i))
        else if chap.chain.s !in chains then Err(ChainNotFound(i, chap.chain.s))
        else OpsOrExit(Resolve(reg, chains[chap.chain.s]), i)
      case Unsupported => Err(UnsupportedFilters(i))
  }

  function OpsOrExit(r: Result<seq<FilterId>, FilterId>, i: nat): Result<seq<FilterId>, SetupError> {
    match r
    case Ok(ops) => Ok(ops)
    case Err(id) => Err(NoSuchFilter(i, id))
  }

  /** One `[ops, params]` pair of the schedule: the chapter (its index), its assigned id, its chain. */
  datatype Entry = Entry(chapter: nat, id: Text, ops: seq<FilterId>)

  /** The chapters filed under one source, in the order they were filed. */
  datatype Group = Group(src: Text, entries: seq<Entry>)

  /** Where `sched[src]` lives: the first group with that source, or |sched| when there is none. */
  function GroupIndex(sched: seq<Group>, src: Text): (g: nat)
    ensures g <= |sched|
    ensures g < |sched| ==> sched[g].src == src
    ensures forall h :: 0 <= h < g ==> sched[h].src != src
  {
    if sched == [] then 0
    else if sched[0].src == src then 0
    else 1 + GroupIndex(sched[1..], src)
  }

  /** `if (src in sched) sched[src].push(e); else sched[src] = [e];` — keys keep the order they were added in. */
  function Insert(sched: seq<Group>, src: Text, e: Entry): seq<Group> {
    var g := GroupIndex(sched, src);
    if g < |sched| then sched[g := Group(src, sched[g].entries + [e])]
    else sched + [Group(src, [e])]
  }

  /** What the checks make of a chapter that passes them: the source it is filed under, and its chain. */
  datatype Checked = Checked(src: Text, ops: seq<FilterId>)

  /** The text of a `src` field; only read for a chapter that passed its checks, where it is a string. */
  function SrcText(f: Field): Text {
    if f.Str? then f.s else []
  }

  /** The verdict of the setup loop's checks on chapter `i`. */
  function Verdict(spec: Spec, reg: Registry, i: nat): Result<Checked, SetupError>
    requires i < |spec.contents|
  {
    match ChapterOps(spec, reg, i)
    case Ok(ops) => Ok(Checked(SrcText(spec.contents[i].src), ops))
    case Err(e) => Err(e)
  }

  /** The verdicts on all chapters, in spec order. */
  function Verdicts(spec: Spec, reg: Registry): seq<Result<Checked, SetupError>> {
    seq(|spec.contents|, i requires 0 <= i < |spec.contents| => Verdict(spec, reg, i))
  }

  /** Filing the first `n` verdicts: the schedule so far, or the first error met. */
  function Filing(vs: seq<Result<Checked, SetupError>>, n: nat): Result<seq<Group>, SetupError>
    requires n <= |vs|
  {
    if n == 0 then Ok([])
    else
      match Filing(vs, n - 1)
      case Err(e) => Err(e)
      case Ok(sched) =>
        match vs[n - 1]
        case Err(e) => Err(e)
        case Ok(c) => Ok(Insert(sched, c.src, Entry(n - 1, Decimal(n - 1), c.ops)))
  }

  /** The schedule after the first `n` chapters, or the error of the first chapter that fails. */
  function Schedule(spec: Spec, reg: Registry, n: nat): Result<seq<Group>, SetupError>
    requires n <= |spec.contents|
  {
    Filing(Verdicts(spec, reg), n)
  }

  /** The first failure is final: later chapters are never looked at. */
  lemma {:induction false} FilingErrorSticks(vs: seq<Result<Checked, SetupError>>, i: nat, n: nat)
    requires i <= n <= |vs| && Filing(vs, i).Err?
    ensures Filing(vs, n) == Filing(vs, i)
    decreases n
  {
    if n > i {
      FilingErrorSticks(vs, i, n - 1);
    }
  }

  /** A failing chapter is where the whole setup stops. */
  lemma ChapterFails(spec: Spec, reg: Registry, i: nat, e: SetupError)
    requires i < |spec.contents| && Schedule(spec, reg, i).Ok? && ChapterOps(spec, reg, i) == Err(e)
    ensures Schedule(spec, reg, |spec.contents|) == Err(e)
  {
    var vs := Verdicts(spec, reg);
    assert vs[i] == Err(e);
    FilingErrorSticks(vs, i + 1, |spec.contents|);
  }

  /** The setup loop itself (ebook.js lines 155-223): `chap.id = '' + i`, then the chain, then the schedule. */
  method BuildSchedule(spec: Spec, reg: Registry) returns (r: Result<seq<Group>, SetupError>)
    ensures r == Schedule(spec, reg, |spec.contents|)
  {
    var sched: seq<Group> := [];
    var i := 0;
    while i < |spec.contents|
      invariant i <= |spec.contents|
      invariant Schedule(spec, reg, i) == Ok(sched)
    {
      var chap := spec.contents[i];
      if !chap.title.Str? {
        ChapterFails(spec, reg, i, TitleNotString(i));
        return Err(TitleNotString(i));
      }
      if !chap.src.Str? {
        ChapterFails(spec, reg, i, SrcNotString(i));
        return Err(SrcNotString(i));
      }
      var id := Decimal(i);
      var resolved: Result<seq<FilterId>, FilterId>;
      match spec.filters {
        case ChainList(ids) =>
          resolved := ResolveChain(reg, ids);
        case Named(chains) =>
          if !chap.chain.Str? {
            ChapterFails(spec, reg, i, ChainNameMissing(i));
            return Err(ChainNameMissing(i));
          }
          if chap.chain.s !in chains {
            ChapterFails(spec, reg, i, ChainNotFound(i, chap.chain.s));
            return Err(ChainNotFound(i, chap.chain.s));
          }
          resolved := ResolveChain(reg, chains[chap.chain.s]);
        case Unsupported =>
          ChapterFails(spec, reg, i, UnsupportedFilters(i));
          return Err(UnsupportedFilters(i));
      }
      if resolved.Err? {
        ChapterFails(spec, reg, i, NoSuchFilter(i, resolved.error));
        return Err(NoSuchFilter(i, resolved.error));
      }
      assert ChapterOps(spec, reg, i) == Ok(resolved.value);
      sched := Insert(sched, chap.src.s, Entry(i, id, resolved.value));
      i := i + 1;
    }
    return Ok(sched);
  }

  /** Filing succeeds exactly when every verdict is a pass. */
  lemma {:induction false} FilingOk(vs: seq<Result<Checked, SetupError>>, n: nat)
    requires n <= |vs|
    ensures Filing(vs, n).Ok? <==> forall j :: 0 <= j < n ==> vs[j].Ok?
  {
    if n > 0 {
      FilingOk(vs, n - 1);
    }
  }

  /** A failed filing reports the error of the first failing verdict. */
  lemma {:induction false} FilingFailsAtFirst(vs: seq<Result<Checked, SetupError>>, n: nat) returns (c: nat)
    requires n <= |vs| && Filing(vs, n).Err?
    ensures c < n && vs[c] == Err(Filing(vs, n).error)
    ensures forall j :: 0 <= j < c ==> vs[j].Ok?
  {
    if Filing(vs, n - 1).Err? {
      c := FilingFailsAtFirst(vs, n - 1);
    } else {
      FilingOk(vs, n - 1);
      c := n - 1;
    }
  }

  /** Chapter `i` passes the checks with chain `ops` and source `src` exactly when its verdict says so. */
  lemma VerdictOk(spec: Spec, reg: Registry, i: nat, src: Text, ops: seq<FilterId>)
    requires i < |spec.contents|
    ensures Verdicts(spec, reg)[i] == Ok(Checked(src, ops)) <==>
      spec.contents[i].src == Str(src) && ChapterOps(spec, reg, i) == Ok(ops)
  {
  }

  /** The setup succeeds exactly when every chapter passes its checks. */
  lemma ScheduleOk(spec: Spec, reg: Registry)
    ensures Schedule(spec, reg, |spec.contents|).Ok? <==>
      forall j :: 0 <= j < |spec.contents| ==> ChapterOps(spec, reg, j).Ok?
  {
    var vs := Verdicts(spec, reg);
    FilingOk(vs, |spec.contents|);
    assert forall j :: 0 <= j < |spec.contents| ==> (vs[j].Ok? <==> ChapterOps(spec, reg, j).Ok?);
  }

  /** A failed setup reports the first chapter that fails, with that chapter's own error. */
  lemma ScheduleFailsAtFirst(spec: Spec, reg: Registry) returns (c: nat)
    requires Schedule(spec, reg, |spec.contents|).Err?
    ensures c < |spec.contents| && ChapterOps(spec, reg, c) == Err(Schedule(spec, reg, |spec.contents|).error)
    ensures forall j :: 0 <= j < c ==> ChapterOps(spec, reg, j).Ok?
  {
    var vs := Verdicts(spec, reg);
    c := FilingFailsAtFirst(vs, |spec.contents|);
    forall j | 0 <= j < c ensures ChapterOps(spec, reg, j).Ok? {
      assert vs[j].Ok?;
    }
  }

  /** Entry `e` of the group for `src` records chapter `e.chapter`, one of the first `n`, and its verdict. */
  predicate Fits(vs: seq<Result<Checked, SetupError>>, src: Text, e: Entry, n: nat)
    requires n <= |vs|
  {
    e.chapter < n && vs[e.chapter] == Ok(Checked(src, e.ops)) && e.id == Decimal(e.chapter)
  }

  /** Chapter `k` has an entry somewhere in the schedule. */
  predicate Filed(sched: seq<Group>, k: nat) {
    exists g, m :: 0 <= g < |sched| && 0 <= m < |sched[g].entries| && sched[g].entries[m].chapter == k
  }

  /**
   * What the schedule holds after `n` chapters: no empty group; every entry faithful to
   * its chapter; chapters in spec order within a group; one group per source; groups in
   * the order their sources were first seen; every chapter filed.
   */
  predicate Placed(vs: seq<Result<Checked, SetupError>>, sched: seq<Group>, n: nat)
    requires n <= |vs|
  {
    && (forall g :: 0 <= g < |sched| ==> |sched[g].entries| > 0)
    && (forall g, m :: 0 <= g < |sched| && 0 <= m < |sched[g].entries| ==> Fits(vs, sched[g].src, sched[g].entries[m], n))
    && (forall g, m, m' :: 0 <= g < |sched| && 0 <= m < m' < |sched[g].entries| ==>
          sched[g].entries[m].chapter < sched[g].entries[m'].chapter)
    && (forall g, g' :: 0 <= g < g' < |sched| ==> sched[g].src != sched[g'].src)
    && (forall g, g' :: 0 <= g < g' < |sched| && |sched[g].entries| > 0 && |sched[g'].entries| > 0 ==>
          sched[g].entries[0].chapter < sched[g'].entries[0].chapter)
    && (forall k :: 0 <= k < n ==> Filed(sched, k))
  }

  /** A successful filing holds every chapter once, under its own source, in spec order, with id '' + index. */
  lemma {:induction false} FilingPlaced(vs: seq<Result<Checked, SetupError>>, n: nat)
    requires n <= |vs| && Filing(vs, n).Ok?
    ensures Placed(vs, Filing(vs, n).value, n)
  {
    if n > 0 {
      FilingPlaced(vs, n - 1);
      InsertPlaced(vs, Filing(vs, n - 1).value, n - 1, vs[n - 1].value);
    }
  }

  /** A successful setup: every chapter filed once, under its own source, in spec order, with id '' + index. */
  lemma SchedulePlaced(spec: Spec, reg: Registry)
    requires Schedule(spec, reg, |spec.contents|).Ok?
    ensures Placed(Verdicts(spec, reg), Schedule(spec, reg, |spec.contents|).value, |spec.contents|)
  {
    FilingPlaced(Verdicts(spec, reg), |spec.contents|);
  }

  lemma InsertPlaced(vs: seq<Result<Checked, SetupError>>, sched: seq<Group>, n: nat, c: Checked)
    requires n < |vs| && Placed(vs, sched, n) && vs[n] == Ok(c)
    ensures Placed(vs, Insert(sched, c.src, Entry(n, Decimal(n), c.ops)), n + 1)
  {
    var g0 := GroupIndex(sched, c.src);
    if g0 < |sched| {
      InsertIntoGroup(vs, sched, n, c, g0);
    } else {
      InsertNewGroup(vs, sched, n, c);
    }
  }

  lemma InsertIntoGroup(vs: seq<Result<Checked, SetupError>>, sched: seq<Group>, n: nat, c: Checked, g0: nat)
    requires n < |vs| && Placed(vs, sched, n) && vs[n] == Ok(c)
    requires g0 < |sched| && sched[g0].src == c.src
    ensures Placed(vs, sched[g0 := Group(sched[g0].src, sched[g0].entries + [Entry(n, Decimal(n), c.ops)])], n + 1)
  {
    var e := Entry(n, Decimal(n), c.ops);
    var grown := sched[g0 := Group(sched[g0].src, sched[g0].entries + [e])];
    GrownFits(vs, sched, n, c, g0);
    GrownOrdered(vs, sched, n, c, g0);
    GrownFiled(vs, sched, n, c, g0);
    forall g, g' | 0 <= g < g' < |grown| && |grown[g].entries| > 0 && |grown[g'].entries| > 0
      ensures grown[g].entries[0].chapter < grown[g'].entries[0].chapter
    {
      assert grown[g].entries[0] == sched[g].entries[0];
      assert grown[g'].entries[0] == sched[g'].entries[0];
    }
  }

  lemma GrownFits(vs: seq<Result<Checked, SetupError>>, sched: seq<Group>, n: nat, c: Checked, g0: nat)
    requires n < |vs| && Placed(vs, sched, n) && vs[n] == Ok(c)
    requires g0 < |sched| && sched[g0].src == c.src
    ensures var grown := sched[g0 := Group(sched[g0].src, sched[g0].entries + [Entry(n, Decimal(n), c.ops)])];
      forall g, m :: 0 <= g < |grown| && 0 <= m < |grown[g].entries| ==> Fits(vs, grown[g].src, grown[g].entries[m], n + 1)
  {
    var e := Entry(n, Decimal(n), c.ops);
    var grown := sched[g0 := Group(sched[g0].src, sched[g0].entries + [e])];
    forall g, m | 0 <= g < |grown| && 0 <= m < |grown[g].entries|
      ensures Fits(vs, grown[g].src, grown[g].entries[m], n + 1)
    {
      if g == g0 && m == |sched[g0].entries| {
        assert grown[g].entries[m] == e;
      } else {
        assert grown[g].entries[m] == sched[g].entries[m];
        assert Fits(vs, sched[g].src, sched[g].entries[m], n);
      }
    }
  }

  lemma GrownOrdered(vs: seq<Result<Checked, SetupError>>, sched: seq<Group>, n: nat, c: Checked, g0: nat)
    requires n < |vs| && Placed(vs, sched, n)
    requires g0 < |sched|
    ensures var grown := sched[g0 := Group(sched[g0].src, sched[g0].entries + [Entry(n, Decimal(n), c.ops)])];
      forall g, m, m' :: 0 <= g < |grown| && 0 <= m < m' < |grown[g].entries| ==>
        grown[g].entries[m].chapter < grown[g].entries[m'].chapter
  {
    var e := Entry(n, Decimal(n), c.ops);
    var grown := sched[g0 := Group(sched[g0].src, sched[g0].entries + [e])];
    forall g, m, m' | 0 <= g < |grown| && 0 <= m < m' < |grown[g].entries|
      ensures grown[g].entries[m].chapter < grown[g].entries[m'].chapter
    {
      if g == g0 && m' == |sched[g0].entries| {
        assert Fits(vs, sched[g].src, sched[g].entries[m], n);
      } else {
        assert grown[g].entries[m] == sched[g].entries[m];
        assert grown[g].entries[m'] == sched[g].entries[m'];
      }
    }
  }

  lemma GrownFiled(vs: seq<Result<Checked, SetupError>>, sched: seq<Group>, n: nat, c: Checked, g0: nat)
    requires n < |vs| && Placed(vs, sched, n)
    requires g0 < |sched|
    ensures var grown := sched[g0 := Group(sched[g0].src, sched[g0].entries + [Entry(n, Decimal(n), c.ops)])];
      forall k :: 0 <= k < n + 1 ==> Filed(grown, k)
  {
    var e := Entry(n, Decimal(n), c.ops);
    var grown := sched[g0 := Group(sched[g0].src, sched[g0].entries + [e])];
    forall k | 0 <= k < n + 1 ensures Filed(grown, k) {
      if k == n {
        assert grown[g0].entries[|sched[g0].entries|].chapter == n;
      } else {
        assert Filed(sched, k);
        var g, m :| 0 <= g < |sched| && 0 <= m < |sched[g].entries| && sched[g].entries[m].chapter == k;
        assert grown[g].entries[m].chapter == k;
      }
    }
  }

  lemma InsertNewGroup(vs: seq<Result<Checked, SetupError>>, sched: seq<Group>, n: nat, c: Checked)
    requires n < |vs| && Placed(vs, sched, n) && vs[n] == Ok(c)
    requires forall h :: 0 <= h < |sched| ==> sched[h].src != c.src
    ensures Placed(vs, sched + [Group(c.src, [Entry(n, Decimal(n), c.ops)])], n + 1)
  {
    var e := Entry(n, Decimal(n), c.ops);
    var grown := sched + [Group(c.src, [e])];
    forall g, m | 0 <= g < |grown| && 0 <= m < |grown[g].entries|
      ensures Fits(vs, grown[g].src, grown[g].entries[m], n + 1)
    {
      if g < |sched| {
        assert grown[g] == sched[g];
      }
    }
    forall g, g' | 0 <= g < g' < |grown| && |grown[g].entries| > 0 && |grown[g'].entries| > 0
      ensures grown[g].entries[0].chapter < grown[g'].entries[0].chapter
    {
      if g' == |sched| {
        assert Fits(vs, sched[g].src, sched[g].entries[0], n);
      }
    }
    forall k | 0 <= k < n + 1 ensures Filed(grown, k) {
      if k == n {
        assert grown[|sched|].entries[0].chapter == n;
      } else {
        assert Filed(sched, k);
        var g, m :| 0 <= g < |sched| && 0 <= m < |sched[g].entries| && sched[g].entries[m].chapter == k;
        assert grown[g].entries[m].chapter == k;
      }
    }
  }

  /** In a placed schedule a chapter has one entry only. */
  lemma FiledOnce(vs: seq<Result<Checked, SetupError>>, sched: seq<Group>, n: nat, g: nat, m: nat, g': nat, m': nat)
    requires n <= |vs| && Placed(vs, sched, n)
    requires g < |sched| && m < |sched[g].entries| && g' < |sched| && m' < |sched[g'].entries|
    requires sched[g].entries[m].chapter == sched[g'].entries[m'].chapter
    ensures g == g' && m == m'
  {
    assert Fits(vs, sched[g].src, sched[g].entries[m], n);
    assert Fits(vs, sched[g'].src, sched[g'].entries[m'], n);
    assert sched[g].src == sched[g'].src;
    assert g == g';
    assert sched[g].entries[m].chapter == sched[g].entries[m'].chapter;
  }
}
