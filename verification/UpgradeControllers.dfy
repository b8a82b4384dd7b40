/** The controllers of the in-place upgrade as they are coded.  Every API call or command they make is an
    action of UpgradeModel, so whatever they do is a run of that model and its theorems hold of it. */
module UpgradeControllers {
  import opened Common
  import opened UpgradeModel
  import opened UpgradeRuns
  import opened UpgradeSafety
  import opened UpgradeOwners

  /** How the calls of one KKInstance reconcile end.
      hidden, hiddenAgain: machines that the first and the second read of the machines do not show yet.
      seen, found: what the cache shows of the lock to `Lock` and to `Unlock`, if it can show that. */
  datatype Env = Env(
    current: bool, download: Fault, hidden: set<Name>, hiddenAgain: set<Name>,
    getLock: bool, seen: Option<Name>, getHolder: bool, create: Fault, getToUnlock: bool, found: bool, delete: Fault,
    command: Fault, patch: Fault, drain: bool, restart: Fault, close: Fault)

  /** The lock as a reader finds it. */
  function SeenLock(st: Store, e: Env): (seen: Option<Name>)
    ensures Readable(st, seen) && (Readable(st, e.seen) ==> seen == e.seen)
  {
    if Readable(st, e.seen) then e.seen else st.lock
  }

  function FindsLock(st: Store, e: Env): (found: bool)
    ensures Findable(st, found) && (Findable(st, e.found) ==> found == e.found)
  {
    e.found && (st.lock.Some? || st.locks != {})
  }

  ghost predicate StepsTo(c: Config, s: State, a: Action, t: State) {
    Enabled(c, s, a) && Next(c, s, a) == t
  }

  ghost predicate Position(run: seq<Action>, k: int) {
    0 <= k < |run|
  }

  /** The actions `run` lead through the states `trace`. */
  ghost predicate Leading(c: Config, trace: seq<State>, run: seq<Action>) {
    && |trace| == |run| + 1
    && forall k {:trigger Position(run, k)} :: Position(run, k) ==> StepsTo(c, trace[k], run[k], trace[k + 1])
  }

  /** And their lists of upgraded machines cover the owners, and no stale read skips a pause. */
  ghost predicate Reading(c: Config, trace: seq<State>, run: seq<Action>) {
    && |trace| == |run| + 1
    && forall k {:trigger Position(run, k)} :: Position(run, k) ==> ReadsOk(c, trace[k], run[k])
  }

  lemma {:induction false} LeadingIsRun(c: Config, trace: seq<State>, run: seq<Action>)
    requires Leading(c, trace, run)
    ensures IsRun(c, trace[0], run) && Exec(c, trace[0], run) == trace[|run|]
    ensures Reading(c, trace, run) ==> Along(c, trace[0], run, ReadsOk)
    decreases |run|
  {
    if run != [] {
      var rest := run[1..];
      assert Position(run, 0);
      forall k | Position(rest, k)
        ensures StepsTo(c, trace[1..][k], rest[k], trace[1..][k + 1])
        ensures Reading(c, trace, run) ==> ReadsOk(c, trace[1..][k], rest[k])
      {
        assert Position(run, k + 1);
      }
      LeadingIsRun(c, trace[1..], rest);
    }
  }

  class Controllers {
    const c: Config
    var s: State
    ghost const start: State
    ghost var trace: seq<State>
    ghost var run: seq<Action>
    ghost var readsOk: bool           // every list of upgraded machines covered the owners, and no pause was skipped

    ghost predicate Valid()
      reads this
    {
      Leading(c, trace, run) && trace[0] == start && trace[|run|] == s && (readsOk ==> Reading(c, trace, run))
    }

    constructor (c: Config, s: State)
      ensures Valid() && this.c == c && this.s == s && start == s && readsOk
    {
      this.c, this.s, start, trace, run, readsOk := c, s, s, [s], [], true;
    }

    /** Any action; its read may be too stale. */
    method Do(a: Action)
      requires Valid() && Enabled(c, s, a)
      modifies this
      ensures Valid() && s == Next(c, old(s), a) && readsOk == (old(readsOk) && ReadsOk(c, old(s), a))
    {
      ghost var was := run;
      readsOk := readsOk && ReadsOk(c, s, a);
      trace, run := trace + [Next(c, s, a)], run + [a];
      s := Next(c, s, a);
      assert forall k :: Position(run, k) ==> Position(was, k) || k == |was|;
    }

    /** Any other action. */
    method Step(a: Action)
      requires Valid() && Enabled(c, s, a) && ReadsOk(c, s, a)
      modifies this`s, this`trace, this`run
      ensures Valid() && s == Next(c, old(s), a)
    {
      ghost var was := run;
      trace, run := trace + [Next(c, s, a)], run + [a];
      s := Next(c, s, a);
      assert forall k :: Position(run, k) ==> Position(was, k) || k == |was|;
    }

    /** One call of instance `i`. */
    method Call(i: Name, a: IAction)
      requires Valid() && i in s.ip && InstEnabled(c, s.st, i, s.ip[i], a)
      modifies this`s, this`trace, this`run
      ensures Valid() && s.cc == old(s).cc && i in s.ip && s.ip == old(s).ip[i := s.ip[i]]
      ensures s.st == NextStore(c, old(s).st, i, old(s).ip[i], a)
      ensures s.ip[i] == NextProc(c, old(s).st, i, old(s).ip[i], a)
    {
      Step(Inst(i, a));
    }

    predicate Live(i: Name)
      reads this
    {
      i in c.active && i in s.st.mver && i in s.st.running && i in s.st.obs && i in s.ip
    }

    predicate AtPoint(i: Name, pt: Point)
      reads this
    {
      Live(i) && At(s.ip[i], pt)
    }

    // -------------------------------------------------------------------------------------------
    // The lock
    // -------------------------------------------------------------------------------------------

    method GetSemaphore(i: Name, e: Env) returns (found: bool)
      requires Valid() && (AtPoint(i, StealGet) || AtPoint(i, FreeGet) || AtPoint(i, JoinGet))
      modifies this`s, this`trace, this`run
      ensures Valid() && s.cc == old(s).cc && s.st == old(s).st && Live(i) && s.ip == old(s).ip[i := s.ip[i]]
      ensures found == (e.getToUnlock && FindsLock(s.st, e))
      ensures s.ip[i] == old(s).ip[i].(at := AfterUnlockGet(old(s).ip[i].at, found))
    {
      found := e.getToUnlock && FindsLock(s.st, e);
      Call(i, GetToUnlock(e.getToUnlock, FindsLock(s.st, e)));
    }

    method DeleteSemaphore(i: Name, f: Fault)
      requires Valid() && (AtPoint(i, StealDelete) || AtPoint(i, FreeDelete) || AtPoint(i, JoinDelete))
      modifies this`s, this`trace, this`run
      ensures Valid() && s.cc == old(s).cc && i in s.ip && s.ip == old(s).ip[i := s.ip[i]]
      ensures s.st == old(s).st.(lock := if TookEffect(f) then None else old(s).st.lock)
      ensures s.ip[i] == old(s).ip[i].(at := if old(s).ip[i].at == JoinDelete then JoinNode else Close(false))
    {
      Call(i, DeleteLock(f));
    }

    /** The lock after `Unlock`. */
    function Released(st: Store, e: Env): Option<Name> {
      if e.getToUnlock && FindsLock(st, e) && TookEffect(e.delete) then None else st.lock
    }

    /** Removes the lock, whoever holds it, if the cache shows one. */
    method Unlock(i: Name, e: Env) returns (ok: bool)
      requires Valid() && (AtPoint(i, StealGet) || AtPoint(i, FreeGet) || AtPoint(i, JoinGet))
      modifies this`s, this`trace, this`run
      ensures Valid()
      ensures ok == (e.getToUnlock && (!FindsLock(old(s).st, e) || e.delete.Ok?))
      ensures s.cc == old(s).cc && i in s.ip && s.ip == old(s).ip[i := s.ip[i]]
      ensures s.ip[i] == old(s).ip[i].(at := AfterUnlockGet(old(s).ip[i].at, false))
      ensures s.st == old(s).st.(lock := Released(old(s).st, e))
    {
      var found := GetSemaphore(i, e);
      if !found {
        return e.getToUnlock;
      }
      DeleteSemaphore(i, e.delete);
      return e.delete.Ok?;
    }

    /** Acquired when it is seen to be free and is, or when it is seen to be the own; a holder that is seen and
        whose name is not the name of a Machine loses it.  Where the own lock is seen only if it is there,
        who acquires it has it. */
    method Lock(i: Name, e: Env) returns (ok: bool)
      requires Valid() && AtPoint(i, LockGet)
      modifies this`s, this`trace, this`run
      ensures Valid()
      ensures var seen, was := SeenLock(old(s).st, e), old(s).st.lock;
              && ok == (e.getLock && (seen == Some(i) || (seen.None? && was.None? && e.create.Ok?)))
              && (ok && (seen == Some(i) ==> was == Some(i)) ==> s.st.lock == Some(i))
      ensures var st, seen := old(s).st, SeenLock(old(s).st, e);
              var created := e.getLock && seen.None? && st.lock.None? && TookEffect(e.create);
              var steals := e.getLock && seen.Some? && seen.value != i && e.getHolder && seen.value !in c.machineNames;
              s.st == st.(lock := if created then Some(i) else if steals then Released(st, e) else st.lock,
                          locks := if created then st.locks + {i} else st.locks)
      ensures s.cc == old(s).cc && i in s.ip && s.ip == old(s).ip[i := s.ip[i]]
      ensures s.ip[i] == old(s).ip[i].(at := if ok then Apply else Close(false))
    {
      var seen := SeenLock(s.st, e);
      Call(i, GetLock(e.getLock, seen));
      if !e.getLock {
        return false;
      }
      if seen.Some? {
        if seen.value == i {
          return true;
        }
        Call(i, GetHolder(e.getHolder));
        if e.getHolder && seen.value !in c.machineNames {
          var _ := Unlock(i, e);
        }
        return false;
      }
      ok := s.st.lock.None? && e.create.Ok?;
      Call(i, CreateLock(e.create));
    }

    // -------------------------------------------------------------------------------------------
    // The upgrade of one host
    // -------------------------------------------------------------------------------------------

    /** `s` is `was` but for instance `i`, which goes on at `pt`. */
    ghost predicate Now(was: State, i: Name, st: Store, pt: Point)
      reads this
    {
      && s.cc == was.cc && s.st == st && i in s.ip && i in was.ip && s.ip == was.ip[i := s.ip[i]]
      && was.ip[i].Run? && s.ip[i] == was.ip[i].(at := pt)
    }

    /** Sets the version of the own Machine. */
    method PatchMachineSpecVersion(i: Name, e: Env) returns (ok: bool)
      requires Valid() && (AtPoint(i, ApplyPatch) || AtPoint(i, JoinPatch) || AtPoint(i, WorkerPatch))
      modifies this`s, this`trace, this`run
      ensures Valid() && ok == e.patch.Ok?
      ensures var p := old(s).ip[i];
              Now(old(s), i,
                  if TookEffect(e.patch) then old(s).st.(mver := old(s).st.mver[i := p.ver]) else old(s).st,
                  if ok then (if p.at == WorkerPatch then Drain else Close(false))
                  else if p.at == ApplyPatch then FreeGet else Close(false))
    {
      Call(i, PatchMachine(e.patch));
      return e.patch.Ok?;
    }

    /** `kubeadm upgrade apply`, then the machine's version. */
    method ApplyAndPatch(i: Name, e: Env) returns (ok: bool)
      requires Valid() && AtPoint(i, Apply)
      modifies this`s, this`trace, this`run
      ensures Valid() && ok == (e.command.Ok? && e.patch.Ok?)
      ensures var st, v := old(s).st, old(s).ip[i].ver;
              Now(old(s), i,
                  st.(log := if TookEffect(e.command) then st.log + [Applied(i, v)] else st.log,
                      mver := if e.command.Ok? && TookEffect(e.patch) then st.mver[i := v] else st.mver),
                  if ok then Close(false) else FreeGet)
    {
      Call(i, UpgradeApply(e.command));
      if !e.command.Ok? {
        return false;
      }
      ok := PatchMachineSpecVersion(i, e);
    }

    /** Behind the lock: an error releases it. */
    method ApplyBehindLock(i: Name, e: Env) returns (ok: bool)
      requires Valid() && AtPoint(i, Apply)
      modifies this`s, this`trace, this`run
      ensures Valid() && ok == (e.command.Ok? && e.patch.Ok?)
      ensures var st, v := old(s).st, old(s).ip[i].ver;
              Now(old(s), i,
                  st.(log := if TookEffect(e.command) then st.log + [Applied(i, v)] else st.log,
                      mver := if e.command.Ok? && TookEffect(e.patch) then st.mver[i := v] else st.mver,
                      lock := if ok then st.lock else Released(st, e)),
                  Close(false))
    {
      ok := ApplyAndPatch(i, e);
      if !ok {
        var _ := Unlock(i, e);
      }
    }

    /** `Lock` returns true. */
    ghost predicate GetsLock(st: Store, i: Name, e: Env) {
      var seen := SeenLock(st, e);
      e.getLock && (seen == Some(i) || (seen.None? && st.lock.None? && e.create.Ok?))
    }

    /** Some control plane is there after all, when the machines are read once more. */
    ghost predicate TooLate(st: Store, v: Version, e: Env) {
      exists m :: m in c.cp && m in st.mver && st.mver[m] == v && m !in e.hiddenAgain
    }

    /** What the upgrade of the first control plane does to the store: command and patch, only in time and
        only behind the lock, and the patch only after the command. */
    ghost predicate FirstUpgrade(st: Store, t: Store, i: Name, v: Version, e: Env) {
      var goes := !TooLate(st, v, e) && GetsLock(st, i, e);
      && t == st.(lock := t.lock, locks := t.locks, log := t.log, mver := t.mver)
      && t.log == (if goes && TookEffect(e.command) then st.log + [Applied(i, v)] else st.log)
      && t.mver == (if goes && e.command.Ok? && TookEffect(e.patch) then st.mver[i := v] else st.mver)
      && (TooLate(st, v, e) ==> t == st)
    }

    /** The first control plane.  The machines are read once more before the lock is taken, and not again
        behind it.  The command runs only for the holder of the lock, which keeps it on success, if the own
        lock is seen only where it is there. */
    method InPlaceUpgradeControlPlane(i: Name, e: Env) returns (ok: bool)
      requires Valid() && AtPoint(i, Recheck)
      modifies this`s, this`trace, this`run
      ensures Valid() && s.cc == old(s).cc && Live(i) && s.ip == old(s).ip[i := old(s).ip[i].(at := Close(false))]
      ensures FirstUpgrade(old(s).st, s.st, i, old(s).ip[i].ver, e)
      ensures ok == (!TooLate(old(s).st, old(s).ip[i].ver, e) && GetsLock(old(s).st, i, e) && e.command.Ok? && e.patch.Ok?)
      ensures ok && (SeenLock(old(s).st, e) == Some(i) ==> old(s).st.lock == Some(i)) ==> s.st.lock == Some(i)
    {
      var seen := AtVersion(s.st, s.ip[i].ver) - e.hiddenAgain;
      assert TooLate(s.st, s.ip[i].ver, e) <==> seen * c.cp != {} by {
        assert forall m :: m in seen * c.cp <==> m in c.cp && m in s.st.mver && s.st.mver[m] == s.ip[i].ver && m !in e.hiddenAgain;
      }
      Call(i, Reread(seen));
      if seen * c.cp != {} {
        return false;
      }
      ok := Lock(i, e);
      if ok {
        ok := ApplyBehindLock(i, e);
      }
    }

    /** The other control planes: the lock of the first is removed, then `kubeadm upgrade node`. */
    method InPlaceUpgradeScaleUp(i: Name, e: Env) returns (ok: bool)
      requires Valid() && AtPoint(i, JoinGet)
      modifies this`s, this`trace, this`run
      ensures Valid() && ok == (e.command.Ok? && e.patch.Ok?)
      ensures var st, v := old(s).st, old(s).ip[i].ver;
              Now(old(s), i,
                  st.(log := if TookEffect(e.command) then st.log + [NodeUpgraded(i, v)] else st.log,
                      mver := if e.command.Ok? && TookEffect(e.patch) then st.mver[i := v] else st.mver,
                      lock := Released(st, e)),
                  Close(false))
    {
      var _ := Unlock(i, e);
      Call(i, UpgradeNode(e.command));
      ok := e.command.Ok?;
      if ok {
        ok := PatchMachineSpecVersion(i, e);
      }
    }

    method InPlaceUpgradeScaleUpWorker(i: Name, e: Env) returns (ok: bool)
      requires Valid() && AtPoint(i, WorkerNode)
      modifies this`s, this`trace, this`run
      ensures Valid() && ok == (e.command.Ok? && e.patch.Ok?)
      ensures var st, v := old(s).st, old(s).ip[i].ver;
              Now(old(s), i,
                  st.(log := if TookEffect(e.command) then st.log + [NodeUpgraded(i, v)] else st.log,
                      mver := if e.command.Ok? && TookEffect(e.patch) then st.mver[i := v] else st.mver),
                  if ok then Drain else Close(false))
    {
      Call(i, UpgradeNode(e.command));
      ok := e.command.Ok?;
      if ok {
        ok := PatchMachineSpecVersion(i, e);
      }
    }

    /** Drain, then restart the kubelet; an error of the restart is only reported. */
    method DrainAndRestart(i: Name, e: Env)
      requires Valid() && AtPoint(i, Drain)
      modifies this`s, this`trace, this`run
      ensures Valid()
      ensures var st, v := old(s).st, old(s).ip[i].ver;
              Now(old(s), i,
                  if e.drain && TookEffect(e.restart)
                  then st.(running := st.running[i := v], log := st.log + [Restarted(i, v)]) else st,
                  Close(false))
    {
      Call(i, DrainNode(e.drain));
      if e.drain {
        Call(i, RestartKubelet(e.restart));
      }
    }

    method ChooseUpgrade(i: Name, e: Env) returns (at: Point)
      requires Valid() && AtPoint(i, Kubeadm) && s.ip[i].ver != s.ip[i].seen
      modifies this`s, this`trace, this`run
      ensures Valid() && s.cc == old(s).cc && s.st == old(s).st && AtPoint(i, at) && s.ip == old(s).ip[i := s.ip[i]]
      ensures s.ip[i].ver == old(s).ip[i].ver && s.ip[i].seen == old(s).ip[i].seen
      ensures at == Choose(c, i, old(s).ip[i].(view := AtVersion(old(s).st, old(s).ip[i].ver) - e.hidden))
    {
      Call(i, ReadMachines(AtVersion(s.st, s.ip[i].ver) - e.hidden));
      Call(i, Branch);
      return s.ip[i].at;
    }

    /** `kubeadm upgrade node`, and the patch of the own Machine if that succeeded. */
    ghost function NodeUpgrade(st: Store, i: Name, v: Version, e: Env): Store {
      st.(log := if TookEffect(e.command) then st.log + [NodeUpgraded(i, v)] else st.log,
          mver := if e.command.Ok? && TookEffect(e.patch) then st.mver[i := v] else st.mver)
    }

    /** Which upgrade a host is due, by the machines seen at the new version; `done` when the node may be
        drained.  A control plane is the first to be upgraded when none is seen there, and may be drained when
        all are; in between it removes the lock and is upgraded, unless its own Machine is there already.
        A worker waits for all control planes, and is upgraded until all workers are seen there. */
    method KubeadmUpgrade(i: Name, e: Env) returns (done: bool)
      requires Valid() && AtPoint(i, Kubeadm) && s.ip[i].ver != s.ip[i].seen
      modifies this`s, this`trace, this`run
      ensures Valid() && s.cc == old(s).cc && Live(i) && s.ip == old(s).ip[i := s.ip[i]]
      ensures s.ip[i].Run? && s.ip[i].at == if done then Drain else Close(false)
      ensures s.ip[i].seen == old(s).ip[i].seen && s.ip[i].ver == old(s).ip[i].ver
      ensures var st, v := old(s).st, old(s).ip[i].ver;
              var seen := AtVersion(st, v) - e.hidden;
              if i in c.cp then
                if seen * c.cp == {} then !done && FirstUpgrade(st, s.st, i, v, e)
                else if c.cp <= seen then done && s.st == st
                else if old(s).ip[i].own == v then !done && s.st == st
                else !done && s.st == NodeUpgrade(st, i, v, e).(lock := Released(st, e))
              else
                if !(c.cp <= seen) then !done && s.st == st
                else if c.workers <= seen then done && s.st == st
                else done == (e.command.Ok? && e.patch.Ok?) && s.st == NodeUpgrade(st, i, v, e)
    {
      var at := ChooseUpgrade(i, e);
      ghost var seen := AtVersion(old(s).st, old(s).ip[i].ver) - e.hidden;
      assert c.cp <= seen <==> seen * c.cp == c.cp;
      assert c.workers <= seen <==> seen * c.workers == c.workers;
      done := RunUpgrade(i, at, e);
    }

    method RunUpgrade(i: Name, at: Point, e: Env) returns (done: bool)
      requires Valid() && AtPoint(i, at) && at in {Recheck, JoinGet, WorkerNode, Drain, Close(false)}
      modifies this`s, this`trace, this`run
      ensures Valid() && s.cc == old(s).cc && Live(i) && s.ip == old(s).ip[i := s.ip[i]]
      ensures s.ip[i].Run? && s.ip[i].at == if done then Drain else Close(false)
      ensures s.ip[i].seen == old(s).ip[i].seen && s.ip[i].ver == old(s).ip[i].ver
      ensures var st, v := old(s).st, old(s).ip[i].ver;
              match at
              case Recheck => !done && FirstUpgrade(st, s.st, i, v, e)
              case JoinGet => !done && s.st == NodeUpgrade(st, i, v, e).(lock := Released(st, e))
              case WorkerNode => done == (e.command.Ok? && e.patch.Ok?) && s.st == NodeUpgrade(st, i, v, e)
              case _ => done == at.Drain? && s.st == st
    {
      if at == Recheck {
        var _ := InPlaceUpgradeControlPlane(i, e);
        done := false;
      } else if at == JoinGet {
        var _ := InPlaceUpgradeScaleUp(i, e);
        done := false;
      } else if at == WorkerNode {
        done := InPlaceUpgradeScaleUpWorker(i, e);
      } else {
        done := at == Drain;
      }
    }

    /** What a reconcile of an old kubelet leaves alone: the kubelet restarts only after a drain with all
        control planes seen there; a control plane whose own Machine is there, when some are seen there,
        does nothing but that. */
    ghost predicate UpgradeOutcome(st: Store, t: Store, i: Name, v: Version, own: Version, e: Env) {
      var seen := AtVersion(st, v) - e.hidden;
      && t == st.(lock := t.lock, locks := t.locks, log := t.log, mver := t.mver, running := t.running)
      && (t.running != st.running ==>
            t.running == st.running[i := v] && c.cp <= seen && e.drain && TookEffect(e.restart))
      && (i in c.cp && own == v && seen * c.cp != {} ==>
            && t.lock == st.lock && t.locks == st.locks && t.mver == st.mver
            && (t.log == st.log || (c.cp <= seen && t.log == st.log + [Restarted(i, v)])))
    }

    /** The store after the deferred patch of the status. */
    ghost predicate Reports(st: Store, t: Store, i: Name, kubelet: Version, upgraded: bool, f: Fault) {
      t == if !TookEffect(f) then st
           else st.(obs := st.obs[i := kubelet], upgraded := if upgraded then st.upgraded + {i} else st.upgraded)
    }

    /** One reconcile of a KKInstance that carries the annotation.  It marks the instance upgraded exactly when
        the kubelet is there, and then does nothing else; without the binaries it only reports.  Whatever
        fails, the commands on the hosts stay in order, and the cluster has no spurious rollout while the
        reads are good enough. */
    method ReconcileInPlaceUpgrade(i: Name, e: Env)
      requires Valid() && Live(i) && s.ip[i].Idle? && i in s.st.ann
      modifies this`s, this`trace, this`run
      ensures Valid() && s.cc == old(s).cc && s.ip == old(s).ip
      ensures var st, v := old(s).st, old(s).st.ann[i];
              var kubelet := if e.current then st.running[i] else st.obs[i];
              if v == kubelet then Reports(st, s.st, i, kubelet, true, e.close)
              else if !e.download.Ok? then Reports(st, s.st, i, kubelet, false, e.close)
              else exists t :: UpgradeOutcome(st, t, i, v, st.mver[i], e) && Reports(t, s.st, i, kubelet, false, e.close)
      ensures Init(c, start) ==> (readsOk && !s.st.paused ==> Consistent(c, s.st)) && Ordered(c, s.st.log)
    {
      ghost var ip := s.ip;
      ReconcilePhases(i, e);
      ghost var t := s.st;
      Call(i, CloseScope(e.close));
      assert s.ip == ip;
      if Init(c, start) {
        Theorems();
      }
    }

    /** Binaries, then kubeadm and the kubelet, up to the deferred patch of the status. */
    method ReconcilePhases(i: Name, e: Env)
      requires Valid() && Live(i) && s.ip[i].Idle? && i in s.st.ann
      modifies this`s, this`trace, this`run
      ensures Valid() && s.cc == old(s).cc && Live(i) && s.ip == old(s).ip[i := s.ip[i]] && s.ip[i].Run?
      ensures var st, v := old(s).st, old(s).st.ann[i];
              var kubelet := if e.current then st.running[i] else st.obs[i];
              && s.ip[i].seen == kubelet && s.ip[i].at == Close(v == kubelet)
              && if v == kubelet || !e.download.Ok? then s.st == st else UpgradeOutcome(st, s.st, i, v, st.mver[i], e)
    {
      Call(i, Begin(e.current));
      Call(i, Download(e.download));
      if At(s.ip[i], Kubeadm) {
        Upgrade(i, e);
      }
    }

    method Upgrade(i: Name, e: Env)
      requires Valid() && AtPoint(i, Kubeadm)
      modifies this`s, this`trace, this`run
      ensures Valid() && s.cc == old(s).cc && Live(i) && s.ip == old(s).ip[i := s.ip[i]]
      ensures s.ip[i].Run? && s.ip[i].at == Close(old(s).ip[i].ver == old(s).ip[i].seen) && s.ip[i].seen == old(s).ip[i].seen
      ensures var st, p := old(s).st, old(s).ip[i];
              if p.ver == p.seen then s.st == st else UpgradeOutcome(st, s.st, i, p.ver, p.own, e)
    {
      if s.ip[i].ver == s.ip[i].seen {
        Call(i, ReadMachines({}));
      } else {
        var done := KubeadmUpgrade(i, e);
        if done {
          DrainAndRestart(i, e);
        }
      }
    }

    lemma Theorems()
      requires Valid() && Init(c, start)
      ensures (readsOk && !s.st.paused ==> Consistent(c, s.st)) && Ordered(c, s.st.log)
    {
      LeadingIsRun(c, trace, run);
      if readsOk {
        NoSpuriousRollout(c, start, run);
      }
      CommandsAreOrdered(c, start, run);
    }
  }
}
