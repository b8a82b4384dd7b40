/** Putting runs of the in-place upgrade together. */
module UpgradeRuns {
  import opened Common
  import opened UpgradeModel

  type Condition = (Config, State, Action) -> bool

  /** Every action of the run meets the condition in its state. */
  ghost predicate Along(c: Config, s: State, run: seq<Action>, p: Condition)
    requires IsRun(c, s, run)
    decreases |run|
  {
    run == [] || (p(c, s, run[0]) && Along(c, Next(c, s, run[0]), run[1..], p))
  }

  lemma {:induction false} RunConcat(c: Config, s: State, r1: seq<Action>, r2: seq<Action>)
    requires IsRun(c, s, r1) && IsRun(c, Exec(c, s, r1), r2)
    ensures IsRun(c, s, r1 + r2) && Exec(c, s, r1 + r2) == Exec(c, Exec(c, s, r1), r2)
    decreases |r1|
  {
    if r1 == [] {
      assert r1 + r2 == r2;
    } else {
      RunConcat(c, Next(c, s, r1[0]), r1[1..], r2);
      assert (r1 + r2)[1..] == r1[1..] + r2;
    }
  }

  lemma RunSnoc(c: Config, s: State, run: seq<Action>, a: Action)
    requires IsRun(c, s, run) && Enabled(c, Exec(c, s, run), a)
    ensures IsRun(c, s, run + [a]) && Exec(c, s, run + [a]) == Next(c, Exec(c, s, run), a)
  {
    var t := Exec(c, s, run);
    assert IsRun(c, Next(c, t, a), []);
    assert [a][1..] == [];
    assert IsRun(c, t, [a]) && Exec(c, t, [a]) == Next(c, t, a);
    RunConcat(c, s, run, [a]);
  }

  lemma {:induction false} AlongConcat(c: Config, s: State, r1: seq<Action>, r2: seq<Action>, p: Condition)
    requires IsRun(c, s, r1) && IsRun(c, Exec(c, s, r1), r2) && Along(c, s, r1, p) && Along(c, Exec(c, s, r1), r2, p)
    ensures IsRun(c, s, r1 + r2) && Exec(c, s, r1 + r2) == Exec(c, Exec(c, s, r1), r2) && Along(c, s, r1 + r2, p)
    decreases |r1|
  {
    if r1 == [] {
      assert r1 + r2 == r2;
    } else {
      AlongConcat(c, Next(c, s, r1[0]), r1[1..], r2, p);
      assert (r1 + r2)[1..] == r1[1..] + r2;
    }
  }

  lemma AlongOne(c: Config, s: State, a: Action, p: Condition)
    requires Enabled(c, s, a) && p(c, s, a)
    ensures IsRun(c, s, [a]) && Exec(c, s, [a]) == Next(c, s, a) && Along(c, s, [a], p)
  {
    assert [a][1..] == [];
    assert IsRun(c, Next(c, s, a), []) && Along(c, Next(c, s, a), [], p);
  }

  lemma {:induction false} AlongWeaker(c: Config, s: State, run: seq<Action>, p: Condition, q: Condition)
    requires IsRun(c, s, run) && Along(c, s, run, p) && forall x, t, a :: p(x, t, a) ==> q(x, t, a)
    ensures Along(c, s, run, q)
    decreases |run|
  {
    if run != [] {
      AlongWeaker(c, Next(c, s, run[0]), run[1..], p, q);
    }
  }

  /** A call of an instance that works. */
  predicate CalmInst(a: IAction) {
    match a
    case GetLock(ok, _) => ok
    case GetHolder(ok) => ok
    case GetToUnlock(ok, _) => ok
    case DrainNode(ok) => ok
    case Download(f) => f.Ok?
    case CreateLock(f) => f.Ok?
    case DeleteLock(f) => f.Ok?
    case UpgradeApply(f) => f.Ok?
    case UpgradeNode(f) => f.Ok?
    case PatchMachine(f) => f.Ok?
    case RestartKubelet(f) => f.Ok?
    case CloseScope(f) => f.Ok?
    case Observe | Begin(_) | ReadMachines(_) | Branch | Reread(_) => true
  }

  predicate CalmCluster(c: Config, a: CAction) {
    match a
    case SetPaused(_, f) => f.Ok?
    case Annotate(_, f) => f.Ok?
    case CList(w) => c.active <= w
    case PatchControlPlane(found, f) => found && f.Ok?
    case PatchSet(_, f) => f.Ok?
    case PatchDeployment(_, f) => f.Ok?
    case SetUnpaused(_, f) => f.Ok?
    case ClearAnnotation(_, f) => f.Ok?
    case ClearRequest(f) => f.Ok?
    case CBegin | CheckInstance(_) => true
  }

  /** Reads of the lock and of the pause flag that show them as they are. */
  predicate CurrentInst(st: Store, a: IAction) {
    && (a.GetLock? ==> a.seen == st.lock)
    && (a.GetToUnlock? ==> a.found == st.lock.Some?)
  }

  predicate CurrentReads(c: Config, s: State, a: Action) {
    match a
    case Inst(_, ia) => CurrentInst(s.st, ia)
    case Cluster(ca) => (ca.SetPaused? || ca.SetUnpaused?) ==> ca.seen == s.st.paused
    case Request(_) | Crash => true
  }

  /** No crash, no failure, no lost answer, and nothing missing from the list of upgraded machines. */
  predicate Calm(c: Config, a: Action) {
    match a
    case Inst(_, ia) => CalmInst(ia)
    case Cluster(ca) => CalmCluster(c, ca)
    case Request(_) | Crash => false
  }

  ghost predicate CalmRun(c: Config, s: State, run: seq<Action>) {
    IsRun(c, s, run) && Along(c, s, run, CurrentReads) && forall a :: a in run ==> Calm(c, a)
  }

  lemma CalmThen(c: Config, s: State, a: Action, rest: seq<Action>)
    requires Enabled(c, s, a) && Calm(c, a) && CurrentReads(c, s, a) && CalmRun(c, Next(c, s, a), rest)
    ensures CalmRun(c, s, [a] + rest) && Exec(c, s, [a] + rest) == Exec(c, Next(c, s, a), rest)
  {
    assert ([a] + rest)[1..] == rest;
  }

  lemma CalmConcat(c: Config, s: State, r1: seq<Action>, r2: seq<Action>)
    requires CalmRun(c, s, r1) && CalmRun(c, Exec(c, s, r1), r2)
    ensures CalmRun(c, s, r1 + r2) && Exec(c, s, r1 + r2) == Exec(c, Exec(c, s, r1), r2)
  {
    AlongConcat(c, s, r1, r2, CurrentReads);
  }
}
