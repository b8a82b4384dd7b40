/** Exactly which upgrades can be completed. */
module UpgradeFinish {
  import opened Common
  import opened UpgradeModel
  import opened UpgradeRuns
  import opened UpgradeSafety
  import opened UpgradeOwners
  import opened UpgradeProgress

  // ---------------------------------------------------------------------------------------------
  // The condition
  // ---------------------------------------------------------------------------------------------

  /** The cluster controller has passed the check: it patches owners, unpauses and clears. */
  predicate Closing(p: CProc, v: Version) {
    && p.CRun? && p.ver == Some(v)
    && !p.at.Pause? && !p.at.AnnotateCp? && !p.at.AnnotateWorkers? && !p.at.Check?
  }

  /** Every instance can carry the annotation: it has it, or the webhook accepts it. */
  ghost predicate Annotatable(c: Config, st: Store, v: Version) {
    forall i :: i in c.active && i in st.obs && i !in st.ann ==> Accepts(c, st.obs[i], v)
  }

  ghost predicate CanGoOn(c: Config, s: State, v: Version) {
    || Closing(s.cc, v)
    || (!PhaseEmpty(c) && Annotatable(c, s.st, v) && IdleCpAt(c, s.st, v) && LockOpen(c, s.st, v))
  }

  /** The cluster controller is past its unpause and skipped it, because it read that there was no pause. */
  predicate Forgotten(s: State, v: Version) {
    Closing(s.cc, v) && (s.cc.at.Clear? || s.cc.at.Finish?) && s.st.paused
  }

  /** The upgrade is over: request and annotations gone, everything at `v`. */
  ghost predicate Over(c: Config, s: State, v: Version) {
    && s.st.target.None? && s.st.ann == map[]
    && forall i :: i in c.active ==>
         && i in s.st.mver && i in s.st.running && i in s.st.obs
         && s.st.mver[i] == v && s.st.running[i] == v && s.st.obs[i] == v
  }

  /** And the cluster is running. */
  ghost predicate Finished(c: Config, s: State, v: Version) {
    Over(c, s, v) && !s.st.paused
  }

  // ---------------------------------------------------------------------------------------------
  // An undisturbed reconcile of the cluster, phase by phase
  // ---------------------------------------------------------------------------------------------

  /** In the annotation loops, before the instances in `todo` are done. */
  ghost predicate Annotating(c: Config, s: State, v: Version) {
    && s.cc.CRun? && s.cc.ver == Some(v) && c.active <= s.st.obs.Keys && s.st.ann.Keys <= c.active
    && c.Wf() && !PhaseEmpty(c) && Annotatable(c, s.st, v)
    && match s.cc.at
       case AnnotateCp(todo) => todo != {} && todo <= c.active && c.active * c.cp <= s.st.ann.Keys + todo
       case AnnotateWorkers(todo) => todo != {} && todo <= c.active && c.active <= s.st.ann.Keys + todo
       case _ => false
  }

  lemma AnnotateNext(c: Config, s: State, v: Version, n: Name)
    requires Annotating(c, s, v) && n in s.cc.at.todo
    ensures Enabled(c, s, Cluster(Annotate(n, Ok)))
    ensures var t, at := Next(c, s, Cluster(Annotate(n, Ok))), s.cc.at;
            && t.st == s.st.(ann := t.st.ann) && t.ip == s.ip && Annotatable(c, t.st, v)
            && s.st.ann.Keys + {n} == t.st.ann.Keys
            && t.cc == LoopAnnotate(c, Some(v), at, at.todo - {n})
  {
  }

  lemma AnnotateMore(c: Config, s: State, v: Version, n: Name)
    requires Annotating(c, s, v) && n in s.cc.at.todo && (s.cc.at.AnnotateCp? || s.cc.at.todo != {n})
    ensures var t := Next(c, s, Cluster(Annotate(n, Ok)));
            && Annotating(c, t, v)
            && ((s.cc.at.AnnotateCp? && t.cc.at.AnnotateWorkers?)
                || (s.cc.at.AnnotateCp? == t.cc.at.AnnotateCp? && t.cc.at.todo == s.cc.at.todo - {n}))
  {
    AnnotateNext(c, s, v, n);
  }

  lemma {:induction false} FinishAnnotating(c: Config, s: State, v: Version) returns (run: seq<Action>, t: State)
    requires Annotating(c, s, v)
    ensures CalmRun(c, s, run) && Exec(c, s, run) == t
    ensures t == State(s.st.(ann := t.st.ann), CRun(Some(v), Check(c.active)), s.ip) && t.st.ann.Keys == c.active
    decreases s.cc.at.AnnotateCp?, |s.cc.at.todo|
  {
    var todo := s.cc.at.todo;
    var n :| n in todo;
    var a := Cluster(Annotate(n, Ok));
    AnnotateNext(c, s, v, n);
    var s1 := Next(c, s, a);
    assert |todo - {n}| < |todo|;
    if s.cc.at.AnnotateWorkers? && todo == {n} {
      run, t := [], s1;
    } else {
      AnnotateMore(c, s, v, n);
      run, t := FinishAnnotating(c, s1, v);
    }
    CalmThen(c, s, a, run);
    run := [a] + run;
  }

  /** The check: it goes through, or ends the reconcile. */
  lemma {:induction false} CheckAll(c: Config, s: State, v: Version) returns (run: seq<Action>)
    requires s.cc.CRun? && s.cc.ver == Some(v) && s.cc.at.Check? && s.cc.at.todo != {} && s.cc.at.todo <= s.st.obs.Keys
    ensures CalmRun(c, s, run)
    ensures Exec(c, s, run) == State(s.st, CIdle, s.ip) || Exec(c, s, run) == State(s.st, CRun(Some(v), ListMachines), s.ip)
    ensures (forall i :: i in s.cc.at.todo ==> PassesCheck(s.st, i)) ==> Closing(Exec(c, s, run).cc, v)
    decreases |s.cc.at.todo|
  {
    var n :| n in s.cc.at.todo;
    var a := Cluster(CheckInstance(n));
    var s1 := Next(c, s, a);
    assert |s.cc.at.todo - {n}| < |s.cc.at.todo|;
    run := [];
    if PassesCheck(s.st, n) && s.cc.at.todo != {n} {
      run := CheckAll(c, s1, v);
    }
    CalmThen(c, s, a, run);
    run := [a] + run;
  }

  lemma {:induction false} FinishClearing(c: Config, s: State) returns (run: seq<Action>)
    requires s.cc.CRun?
    requires (s.cc.at.Clear? && s.cc.at.todo != {} && s.st.ann.Keys <= s.cc.at.todo) || (s.cc.at.Finish? && s.st.ann == map[])
    ensures CalmRun(c, s, run)
    ensures Exec(c, s, run) == State(s.st.(ann := map[], target := if s.cc.ver.Some? then None else s.st.target), CIdle, s.ip)
    decreases s.cc.at.Clear?, if s.cc.at.Clear? then |s.cc.at.todo| else 0
  {
    if s.cc.at.Finish? {
      var a := Cluster(ClearRequest(Ok));
      CalmThen(c, s, a, []);
      run := [a] + [];
    } else {
      var n :| n in s.cc.at.todo;
      var a := Cluster(ClearAnnotation(n, Ok));
      var s1 := Next(c, s, a);
      assert |s.cc.at.todo - {n}| < |s.cc.at.todo|;
      assert s1.st.ann.Keys <= s.cc.at.todo - {n};
      run := FinishClearing(c, s1);
      CalmThen(c, s, a, run);
      run := [a] + run;
    }
  }

  // ---------------------------------------------------------------------------------------------
  // From the check on
  // ---------------------------------------------------------------------------------------------

  lemma CloseFromUnpause(c: Config, s: State, v: Version) returns (run: seq<Action>)
    requires Inv(c, s) && s.cc == CRun(Some(v), Unpause)
    ensures CalmRun(c, s, run) && Exec(c, s, run) == State(s.st.(paused := false, ann := map[], target := None), CIdle, s.ip)
  {
    var a := Cluster(SetUnpaused(s.st.paused, Ok));
    var s1 := Next(c, s, a);
    StepKeeps(c, s, a);
    run := FinishClearing(c, s1);
    CalmThen(c, s, a, run);
    run := [a] + run;
  }

  lemma CloseFromPatching(c: Config, s: State, v: Version) returns (run: seq<Action>)
    requires Inv(c, s) && Patching(s, v)
    ensures CalmRun(c, s, run)
    ensures var t := Exec(c, s, run).st; t == s.st.(paused := false, ann := map[], target := None, over := t.over)
  {
    var r1, s1 := FinishPatching(c, s, v);
    RunKeeps(c, s, r1);
    var r2 := CloseFromUnpause(c, s1, v);
    CalmConcat(c, s, r1, r2);
    run := r1 + r2;
  }

  lemma CloseFromList(c: Config, s: State, v: Version) returns (run: seq<Action>)
    requires Inv(c, s) && s.cc == CRun(Some(v), ListMachines)
    ensures CalmRun(c, s, run)
    ensures var t := Exec(c, s, run).st; t == s.st.(paused := false, ann := map[], target := None, over := t.over)
  {
    var a := Cluster(CList(AtVersion(s.st, v)));
    assert c.active <= AtVersion(s.st, v);
    StepKeeps(c, s, a);
    run := CloseFromPatching(c, Next(c, s, a), v);
    CalmThen(c, s, a, run);
    run := [a] + run;
  }

  lemma ClosedIsFinished(c: Config, s: State, t: State, v: Version)
    requires Inv(c, s) && Closing(s.cc, v)
    requires t.st == s.st.(paused := t.st.paused, ann := map[], target := None, over := t.st.over)
    ensures Over(c, t, v)
  {
    forall i | i in c.active ensures s.st.mver[i] == v && s.st.running[i] == v && s.st.obs[i] == v {
      assert HostOk(c, s.st, i);
    }
  }

  /** Once the check is passed nothing but a failure keeps the upgrade from its end. */
  lemma FinishClosing(c: Config, s: State, v: Version) returns (run: seq<Action>)
    requires Inv(c, s) && Closing(s.cc, v)
    ensures CalmRun(c, s, run) && Over(c, Exec(c, s, run), v) && Exec(c, s, run).st.paused == Forgotten(s, v)
  {
    if s.cc.at.ListMachines? {
      run := CloseFromList(c, s, v);
    } else if s.cc.at.Unpause? {
      run := CloseFromUnpause(c, s, v);
      assert Exec(c, s, run).st == s.st.(paused := false, ann := map[], target := None, over := s.st.over);
    } else if s.cc.at.Clear? || s.cc.at.Finish? {
      run := FinishClearing(c, s);
      assert Exec(c, s, run).st == s.st.(paused := s.st.paused, ann := map[], target := None, over := s.st.over);
    } else {
      run := CloseFromPatching(c, s, v);
    }
    ClosedIsFinished(c, s, Exec(c, s, run), v);
  }

  // ---------------------------------------------------------------------------------------------
  // Up to the check
  // ---------------------------------------------------------------------------------------------

  /** From a reconcile that pauses the cluster. */
  lemma AnnotateFromPause(c: Config, s: State, v: Version) returns (run: seq<Action>, t: State)
    requires Inv(c, s) && s.cc == CRun(Some(v), Pause) && !PhaseEmpty(c) && Annotatable(c, s.st, v)
    ensures CalmRun(c, s, run) && Exec(c, s, run) == t && t.st.ann.Keys == c.active
    ensures t == State(s.st.(paused := true, ann := t.st.ann), CRun(Some(v), Check(c.active)), s.ip)
  {
    var a := Cluster(SetPaused(s.st.paused, Ok));
    run, t := FinishAnnotating(c, Next(c, s, a), v);
    CalmThen(c, s, a, run);
    run := [a] + run;
  }

  lemma AnnotateFromIdle(c: Config, s: State, v: Version) returns (run: seq<Action>, t: State)
    requires Inv(c, s) && s.cc.CIdle? && s.st.target == Some(v) && !PhaseEmpty(c) && Annotatable(c, s.st, v)
    ensures CalmRun(c, s, run) && Exec(c, s, run) == t && t.st.ann.Keys == c.active
    ensures t == State(s.st.(paused := true, ann := t.st.ann), CRun(Some(v), Check(c.active)), s.ip)
  {
    var a := Cluster(CBegin);
    StepKeeps(c, s, a);
    run, t := AnnotateFromPause(c, Next(c, s, a), v);
    CalmThen(c, s, a, run);
    run := [a] + run;
  }

  /** From a reconcile that began before the request. */
  lemma AnnotateFromNone(c: Config, s: State, v: Version) returns (run: seq<Action>, t: State)
    requires Inv(c, s) && s.cc.CRun? && s.cc.ver.None? && s.st.target == Some(v) && !PhaseEmpty(c) && Annotatable(c, s.st, v)
    ensures CalmRun(c, s, run) && Exec(c, s, run) == t && t.st.ann.Keys == c.active
    ensures t == State(s.st.(paused := true, ann := t.st.ann), CRun(Some(v), Check(c.active)), s.ip)
  {
    var r1 := FinishClearing(c, s);
    RunKeeps(c, s, r1);
    var s1 := Exec(c, s, r1);
    assert s1 == State(s.st, CIdle, s.ip);
    var r2;
    r2, t := AnnotateFromIdle(c, s1, v);
    CalmConcat(c, s, r1, r2);
    run := r1 + r2;
  }

  lemma AnnotateFromStart(c: Config, s: State, v: Version) returns (run: seq<Action>, t: State)
    requires Inv(c, s) && s.st.target == Some(v) && !PhaseEmpty(c) && Annotatable(c, s.st, v)
    requires s.cc.CIdle? || s.cc.ver.None? || s.cc.at.Pause?
    ensures CalmRun(c, s, run) && Exec(c, s, run) == t && t.st.ann.Keys == c.active
    ensures t == State(s.st.(paused := true, ann := t.st.ann), CRun(Some(v), Check(c.active)), s.ip)
  {
    if s.cc.CIdle? {
      run, t := AnnotateFromIdle(c, s, v);
    } else if s.cc.ver.None? {
      run, t := AnnotateFromNone(c, s, v);
    } else {
      run, t := AnnotateFromPause(c, s, v);
    }
  }

  /** Wherever the cluster controller is before the check, it can get there with all annotated. */
  lemma ToCheck(c: Config, s: State, v: Version) returns (run: seq<Action>, t: State)
    requires Inv(c, s) && s.st.target == Some(v) && !Closing(s.cc, v) && !PhaseEmpty(c) && Annotatable(c, s.st, v)
    ensures CalmRun(c, s, run) && Exec(c, s, run) == t && t.st.ann.Keys == c.active
    ensures t == State(s.st.(paused := t.st.paused, ann := t.st.ann), t.cc, s.ip)
    ensures t.cc.CRun? && t.cc.ver == Some(v) && t.cc.at.Check? && t.cc.at.todo != {} && t.cc.at.todo <= c.active
  {
    if s.cc.CIdle? || s.cc.ver.None? || s.cc.at.Pause? {
      run, t := AnnotateFromStart(c, s, v);
    } else if s.cc.at.Check? {
      CheckNow(c, s);
      run, t := [], s;
    } else {
      AnnotatingNow(c, s, v);
      run, t := FinishAnnotating(c, s, v);
    }
  }

  lemma CheckNow(c: Config, s: State)
    requires Inv(c, s) && s.cc.CRun? && s.cc.at.Check?
    ensures s.st.ann.Keys == c.active && s.cc.at.todo != {} && s.cc.at.todo <= c.active
  {
  }

  lemma AnnotatingNow(c: Config, s: State, v: Version)
    requires Inv(c, s) && s.cc.CRun? && s.cc.ver == Some(v) && (s.cc.at.AnnotateCp? || s.cc.at.AnnotateWorkers?)
    requires !PhaseEmpty(c) && Annotatable(c, s.st, v)
    ensures Annotating(c, s, v)
  {
  }

  /** And from there to an idle controller that left all annotated, or past the check. */
  lemma ToWaiting(c: Config, s: State, v: Version) returns (run: seq<Action>)
    requires Inv(c, s) && s.st.target == Some(v) && !Closing(s.cc, v) && CanGoOn(c, s, v)
    ensures CalmRun(c, s, run)
    ensures var t := Exec(c, s, run);
            (Waiting(c, t, v) && t.cc.CIdle?) || (Inv(c, t) && Closing(t.cc, v) && !Forgotten(t, v))
  {
    var r1, s1 := ToCheck(c, s, v);
    RunKeeps(c, s, r1);
    WaitingNow(c, s, s1, v);
    var r2 := CheckAll(c, s1, v);
    CalmConcat(c, s, r1, r2);
    run := r1 + r2;
    RunKeeps(c, s1, r2);
    Checked(c, s1, Exec(c, s1, r2), v);
  }

  lemma Checked(c: Config, s: State, t: State, v: Version)
    requires Waiting(c, s, v) && Inv(c, t)
    requires t == State(s.st, CIdle, s.ip) || t == State(s.st, CRun(Some(v), ListMachines), s.ip)
    ensures (Waiting(c, t, v) && t.cc.CIdle?) || (Inv(c, t) && Closing(t.cc, v) && !Forgotten(t, v))
  {
  }

  lemma WaitingNow(c: Config, s: State, t: State, v: Version)
    requires Inv(c, t) && t.st == s.st.(paused := t.st.paused, ann := t.st.ann) && t.st.ann.Keys == c.active
    requires s.st.target == Some(v) && !PhaseEmpty(c) && IdleCpAt(c, s.st, v) && LockOpen(c, s.st, v)
    ensures Waiting(c, t, v)
  {
    assert AtVersion(t.st, v) == AtVersion(s.st, v);
  }

  lemma AllPass(c: Config, s: State, v: Version)
    requires Waiting(c, s, v) && Unreported(c, s.st, v) == {}
    ensures forall i :: i in c.active ==> i in s.st.obs && PassesCheck(s.st, i)
  {
    forall i | i in c.active ensures i in s.st.obs && PassesCheck(s.st, i) {
      assert HostOk(c, s.st, i);
      assert i !in Unreported(c, s.st, v);
    }
  }

  lemma CompleteReconcile(c: Config, s: State, v: Version) returns (run: seq<Action>)
    requires Waiting(c, s, v) && s.cc.CIdle? && Unreported(c, s.st, v) == {}
    ensures CalmRun(c, s, run) && Finished(c, Exec(c, s, run), v)
  {
    var r1, s1 := AnnotateFromIdle(c, s, v);
    RunKeeps(c, s, r1);
    AllPass(c, s1, v);
    var r2 := CheckAndClose(c, s1, v);
    CalmConcat(c, s, r1, r2);
    run := r1 + r2;
  }

  lemma CheckAndClose(c: Config, s: State, v: Version) returns (run: seq<Action>)
    requires Inv(c, s) && s.cc == CRun(Some(v), Check(c.active)) && c.active != {} && c.active <= s.st.obs.Keys
    requires forall i :: i in c.active ==> PassesCheck(s.st, i)
    ensures CalmRun(c, s, run) && Finished(c, Exec(c, s, run), v)
  {
    var r1 := CheckAll(c, s, v);
    RunKeeps(c, s, r1);
    var r2 := FinishClosing(c, Exec(c, s, r1), v);
    CalmConcat(c, s, r1, r2);
    run := r1 + r2;
  }

  /** Wherever failures and crashes left it, an upgrade that can go on can be completed from there
      without a further failure, crash or stale read of lock or pause; reconciles in flight end by their
      own calls.  The cluster runs at the end, unless its unpause was skipped before. */
  lemma CanFinish(c: Config, s: State, v: Version) returns (run: seq<Action>)
    requires Inv(c, s) && s.st.target == Some(v) && CanGoOn(c, s, v)
    ensures CalmRun(c, s, run) && Over(c, Exec(c, s, run), v) && Exec(c, s, run).st.paused == Forgotten(s, v)
  {
    if Closing(s.cc, v) {
      run := FinishClosing(c, s, v);
    } else {
      var r1 := ToWaiting(c, s, v);
      var r2 := FinishFrom(c, Exec(c, s, r1), v);
      CalmConcat(c, s, r1, r2);
      run := r1 + r2;
    }
  }

  lemma FinishFrom(c: Config, s: State, v: Version) returns (run: seq<Action>)
    requires (Waiting(c, s, v) && s.cc.CIdle?) || (Inv(c, s) && Closing(s.cc, v) && !Forgotten(s, v))
    ensures CalmRun(c, s, run) && Finished(c, Exec(c, s, run), v)
  {
    if Closing(s.cc, v) {
      run := FinishClosing(c, s, v);
    } else {
      var r1 := AllCanReport(c, s, v);
      var r2 := CompleteReconcile(c, Exec(c, s, r1), v);
      CalmConcat(c, s, r1, r2);
      run := r1 + r2;
    }
  }

  // ---------------------------------------------------------------------------------------------
  // The states that cannot go on
  // ---------------------------------------------------------------------------------------------

  /** The lock names a Machine that is not an active control plane: nobody is let in, nobody removes it. */
  ghost predicate Dead(c: Config, st: Store) {
    st.lock.Some? && st.lock.value !in c.active * c.cp && st.lock.value in c.machineNames
  }

  /** No reconcile has the lock or is about to steal it. */
  ghost predicate NoGrip(c: Config, st: Store, p: Proc) {
    p.Run? ==>
      && (p.at.LockHolder? ==> st.lock == Some(p.at.holder))
      && !p.at.StealGet? && !p.at.StealDelete?
      && !p.at.Apply? && !p.at.ApplyPatch? && !p.at.FreeGet? && !p.at.FreeDelete?
  }

  ghost predicate DeadOk(c: Config, s: State) {
    Dead(c, s.st) ==> s.st.locks == {s.st.lock.value} && forall i :: i in s.ip ==> NoGrip(c, s.st, s.ip[i])
  }

  /** A dead lock was not made by `i`. */
  lemma DeadBefore(c: Config, st: Store, i: Name, p: Proc, a: IAction)
    requires Has(st, i) && InstOk(c, st, i, p) && InstEnabled(c, st, i, p, a) && Dead(c, NextStore(c, st, i, p, a))
    ensures Dead(c, st) && NextStore(c, st, i, p, a).lock == st.lock && NextStore(c, st, i, p, a).locks == st.locks
  {
    LockBy(c, st, i, p, a);
  }

  lemma GripInst(c: Config, st: Store, i: Name, p: Proc, a: IAction)
    requires InstEnabled(c, st, i, p, a) && Dead(c, st) && st.locks == {st.lock.value} && NoGrip(c, st, p)
    requires p.Run? && p.at.LockGet? ==> i in c.cp
    ensures NoGrip(c, st, NextProc(c, st, i, p, a))
  {
    if !a.GetLock? && !a.GetHolder? && !a.CreateLock? {
      GripRest(c, st, i, p, a);
    }
  }

  lemma GripRest(c: Config, st: Store, i: Name, p: Proc, a: IAction)
    requires InstEnabled(c, st, i, p, a) && NoGrip(c, st, p) && !a.GetLock? && !a.GetHolder? && !a.CreateLock?
    ensures NoGrip(c, st, NextProc(c, st, i, p, a))
  {
  }

  lemma DeadStep(c: Config, s: State, a: Action)
    requires Inv(c, s) && DeadOk(c, s) && Enabled(c, s, a)
    ensures DeadOk(c, Next(c, s, a))
  {
    var t := Next(c, s, a);
    if Dead(c, t.st) {
      if a.Inst? {
        DeadBefore(c, s.st, a.i, s.ip[a.i], a.ia);
        GripInst(c, s.st, a.i, s.ip[a.i], a.ia);
        assert forall p :: NoGrip(c, s.st, p) ==> NoGrip(c, t.st, p);
      } else {
        assert t.st.lock == s.st.lock && t.st.locks == s.st.locks;
      }
      forall j | j in t.ip ensures NoGrip(c, t.st, t.ip[j]) {
        assert NoGrip(c, s.st, s.ip[j]);
      }
    }
  }

  /** Only a passed check leads to the end. */
  lemma OnlyCheckCloses(c: Config, st: Store, p: CProc, a: CAction, v: Version)
    requires st.target == Some(v) && !Closing(p, v) && CEnabled(c, st, p, a) && (p.CRun? && p.ver.Some? ==> p.ver == Some(v))
    ensures CNextStore(c, st, p, a).target == Some(v) && (st.paused ==> CNextStore(c, st, p, a).paused)
    ensures Closing(CNextProc(c, st, p, a), v) ==> a.CheckInstance? && PassesCheck(st, a.n) && p.at.todo == {a.n} && p.ver == Some(v)
  {
  }

  /** And the check is only passed when nothing is in the way. */
  lemma CheckPassed(c: Config, s: State, n: Name, v: Version)
    requires Inv(c, s) && s.st.target == Some(v) && s.cc == CRun(Some(v), Check({n})) && n in s.st.obs && PassesCheck(s.st, n)
    ensures CanGoOn(c, s, v)
  {
    assert forall i :: i in c.active ==> HostOk(c, s.st, i);
    AllPassed(c, s.st, s.cc, n, v);
    forall i | i in c.active ensures i in s.st.ann && s.st.ann[i] == s.st.running[i] == s.st.mver[i] == v {
      AnnotatedAt(c, s.st, i, v);
    }
    NothingInTheWay(c, s, v);
  }

  lemma AllPassed(c: Config, st: Store, p: CProc, n: Name, v: Version)
    requires st.obs.Keys == c.active && ClusterOk(c, st, p) && p == CRun(Some(v), Check({n}))
    requires n in st.obs && PassesCheck(st, n) && HostOk(c, st, n)
    ensures c.active <= st.ann.Keys && forall i :: i in c.active ==> st.obs[i] == v
  {
  }

  lemma AnnotatedAt(c: Config, st: Store, i: Name, v: Version)
    requires HostOk(c, st, i) && i in st.ann && st.target == Some(v) && st.obs[i] == v
    ensures st.ann[i] == st.running[i] == st.mver[i] == v
  {
  }

  lemma NothingInTheWay(c: Config, s: State, v: Version)
    requires c.Wf() && Shaped(c, s.st) && !PhaseEmpty(c) && (forall i :: i in c.active ==> HostOk(c, s.st, i))
    requires forall i :: i in c.active ==> i in s.st.ann && s.st.ann[i] == s.st.running[i] == s.st.mver[i] == v
    ensures CanGoOn(c, s, v)
  {
    var i :| i in c.active * c.cp;
    assert HostOk(c, s.st, i);
    assert i in AtVersion(s.st, v) * c.cp;
  }

  /** What is in the way stays there: an action of an instance. */
  lemma NoWayInst(c: Config, s: State, i: Name, a: IAction, v: Version)
    requires Inv(c, s) && DeadOk(c, s) && s.st.target == Some(v) && !CanGoOn(c, s, v) && Enabled(c, s, Inst(i, a))
    ensures !CanGoOn(c, Next(c, s, Inst(i, a)), v)
  {
    var t := NextStore(c, s.st, i, s.ip[i], a);
    InstGuarantee(c, s.st, i, s.ip[i], a);
    if !Annotatable(c, s.st, v) {
      var j :| j in c.active && j in s.st.obs && j !in s.st.ann && !Accepts(c, s.st.obs[j], v);
      assert t.obs[j] == s.st.obs[j];
    } else if !IdleCpAt(c, s.st, v) {
      var m :| m in c.cp && m !in c.active && m in s.st.mver && s.st.mver[m] != v;
      assert t.mver[m] == s.st.mver[m];
    } else if !LockOpen(c, s.st, v) {
      LockStaysShut(c, s.st, i, s.ip[i], a, v);
    }
  }

  lemma LockStaysShut(c: Config, st: Store, i: Name, p: Proc, a: IAction, v: Version)
    requires HostOk(c, st, i) && InstOk(c, st, i, p) && InstEnabled(c, st, i, p, a) && NoGrip(c, st, p)
    requires st.target == Some(v) && !LockOpen(c, st, v)
    ensures !LockOpen(c, NextStore(c, st, i, p, a), v)
  {
    var t := NextStore(c, st, i, p, a);
    if p.Run? && (p.at.JoinDelete? || p.at.JoinPatch? || p.at.WorkerPatch?) {
      assert p.view <= AtVersion(st, v);
    }
    assert AtVersion(t, v) * c.cp == {};
  }

  lemma NoWayCluster(c: Config, s: State, a: CAction, v: Version)
    requires Inv(c, s) && s.st.target == Some(v) && !CanGoOn(c, s, v) && Enabled(c, s, Cluster(a))
    ensures !CanGoOn(c, Next(c, s, Cluster(a)), v)
  {
    var t := CNextStore(c, s.st, s.cc, a);
    OnlyCheckCloses(c, s.st, s.cc, a, v);
    if Closing(CNextProc(c, s.st, s.cc, a), v) {
      CheckPassed(c, s, a.n, v);
    }
    StaysInTheWay(c, s.st, s.cc, a, v);
  }

  lemma StaysInTheWay(c: Config, st: Store, p: CProc, a: CAction, v: Version)
    requires CEnabled(c, st, p, a) && (a.Annotate? ==> p.ver == Some(v))
    ensures var t := CNextStore(c, st, p, a);
            && t.mver == st.mver && t.lock == st.lock && t.obs == st.obs
            && (!Annotatable(c, st, v) ==> !Annotatable(c, t, v))
  {
    if !Annotatable(c, st, v) {
      var j :| j in c.active && j in st.obs && j !in st.ann && !Accepts(c, st.obs[j], v);
      assert j !in CNextStore(c, st, p, a).ann;
    }
  }

  lemma NoWayStep(c: Config, s: State, a: Action, v: Version)
    requires Inv(c, s) && DeadOk(c, s) && s.st.target == Some(v) && !CanGoOn(c, s, v) && Enabled(c, s, a)
    ensures var t := Next(c, s, a);
            t.st.target == Some(v) && !CanGoOn(c, t, v) && (s.st.paused ==> t.st.paused)
  {
    match a
    case Inst(i, ia) => InstGuarantee(c, s.st, i, s.ip[i], ia); NoWayInst(c, s, i, ia, v);
    case Cluster(ca) => OnlyCheckCloses(c, s.st, s.cc, ca, v); NoWayCluster(c, s, ca, v);
    case Request(_) | Crash =>
  }

  /** An upgrade that cannot go on never can again: the request stays, and a cluster that is paused stays
      paused, whatever happens. */
  lemma {:induction false} StuckForever(c: Config, s: State, v: Version, run: seq<Action>)
    requires Inv(c, s) && DeadOk(c, s) && s.st.target == Some(v) && !CanGoOn(c, s, v) && IsRun(c, s, run)
    ensures var t := Exec(c, s, run);
            t.st.target == Some(v) && !CanGoOn(c, t, v) && (s.st.paused ==> t.st.paused)
    decreases |run|
  {
    if run != [] {
      StepKeeps(c, s, run[0]);
      DeadStep(c, s, run[0]);
      NoWayStep(c, s, run[0], v);
      StuckForever(c, Next(c, s, run[0]), v, run[1..]);
    }
  }

  lemma {:induction false} DeadRun(c: Config, s: State, run: seq<Action>)
    requires Inv(c, s) && DeadOk(c, s) && IsRun(c, s, run)
    ensures Inv(c, Exec(c, s, run)) && DeadOk(c, Exec(c, s, run))
    decreases |run|
  {
    if run != [] {
      StepKeeps(c, s, run[0]);
      DeadStep(c, s, run[0]);
      DeadRun(c, Next(c, s, run[0]), run[1..]);
    }
  }

  // ---------------------------------------------------------------------------------------------
  // The theorem
  // ---------------------------------------------------------------------------------------------

  ghost predicate Completes(c: Config, s: State, run: seq<Action>, v: Version) {
    CalmRun(c, s, run) && Finished(c, Exec(c, s, run), v)
  }

  ghost predicate Ends(c: Config, s: State, run: seq<Action>, v: Version) {
    IsRun(c, s, run) && Exec(c, s, run).st.target != Some(v)
  }

  /** An unpause that was skipped is not made up for: without a new request the cluster stays paused. */
  ghost predicate LeftPaused(s: State) {
    && s.st.paused
    && if s.cc.CRun? then (s.cc.at.Clear? || s.cc.at.Finish?) && (s.cc.ver.None? ==> s.st.target.None?)
       else s.st.target.None?
  }

  lemma LeftStep(c: Config, s: State, a: Action)
    requires LeftPaused(s) && Enabled(c, s, a) && Calm(c, a)
    ensures LeftPaused(Next(c, s, a))
  {
    if a.Inst? {
      var t := NextStore(c, s.st, a.i, s.ip[a.i], a.ia);
      assert t.paused == s.st.paused && t.target == s.st.target;
    }
  }

  lemma {:induction false} StaysLeft(c: Config, s: State, run: seq<Action>)
    requires LeftPaused(s) && CalmRun(c, s, run)
    ensures LeftPaused(Exec(c, s, run))
    decreases |run|
  {
    if run != [] {
      assert run[0] in run && forall a :: a in run[1..] ==> a in run;
      LeftStep(c, s, run[0]);
      StaysLeft(c, Next(c, s, run[0]), run[1..]);
    }
  }

  /** Exactly which upgrades can be completed.  Take any run from a consistent cluster, with any lock, any
      requests, any failures and stale reads, and stop it anywhere.  If the request is past its check, or
      if there are an active control plane and an active worker, every instance has its annotation or
      reports a version from which the webhook accepts the requested one, the control-plane machines
      without an active instance are at that version, and the lock is open, then the request can be
      brought to its end, and without a further failure to a running cluster unless its unpause was
      skipped.  If not, no run whatsoever removes the request. */
  lemma UpgradeFinishesIff(c: Config, s0: State, past: seq<Action>, v: Version)
    requires Init(c, s0) && IsRun(c, s0, past) && Exec(c, s0, past).st.target == Some(v)
    ensures var s := Exec(c, s0, past);
            && (CanGoOn(c, s, v) <==> exists run :: Ends(c, s, run, v))
            && (CanGoOn(c, s, v) && !Forgotten(s, v) <==> exists run :: Completes(c, s, run, v))
  {
    var s := Exec(c, s0, past);
    InitInv(c, s0);
    DeadRun(c, s0, past);
    if CanGoOn(c, s, v) {
      var run := CanFinish(c, s, v);
      assert Ends(c, s, run, v);
      if Forgotten(s, v) {
        forall r | CalmRun(c, s, r) ensures !Completes(c, s, r, v) {
          StaysLeft(c, s, r);
        }
      } else {
        assert Completes(c, s, run, v);
      }
    } else {
      forall run | IsRun(c, s, run) ensures !Ends(c, s, run, v) && !Completes(c, s, run, v) {
        StuckForever(c, s, v, run);
      }
    }
  }

  /** A completed upgrade leaves the cluster consistent, if the reads before were good enough. */
  lemma FinishedIsConsistent(c: Config, s0: State, past: seq<Action>, run: seq<Action>, v: Version)
    requires Init(c, s0) && IsRun(c, s0, past) && Along(c, s0, past, ReadsOk)
    requires CalmRun(c, Exec(c, s0, past), run) && Finished(c, Exec(c, Exec(c, s0, past), run), v)
    ensures Consistent(c, Exec(c, Exec(c, s0, past), run).st)
  {
    InitInv(c, s0);
    OwnersRun(c, s0, past);
    CalmReadsOk(c, Exec(c, s0, past), run);
    OwnersRun(c, Exec(c, s0, past), run);
  }

  lemma FullListCovers(c: Config, s: State, w: set<Name>)
    requires c.active <= w
    ensures ListCovers(c, s, Cluster(CList(w)))
  {
    forall o | o in s.st.over && c.Owned(o) * c.active != {} ensures c.Owned(o) * w != {} {
      var m :| m in c.Owned(o) * c.active;
      assert m in c.Owned(o) * w;
    }
  }

  lemma {:induction false} CalmReadsOk(c: Config, s: State, run: seq<Action>)
    requires CalmRun(c, s, run)
    ensures Along(c, s, run, ReadsOk)
    decreases |run|
  {
    if run != [] {
      assert Calm(c, run[0]) && forall a :: a in run[1..] ==> a in run;
      if run[0].Cluster? && run[0].ca.CList? {
        FullListCovers(c, s, run[0].ca.seenNew);
      }
      CalmReadsOk(c, Next(c, s, run[0]), run[1..]);
    }
  }

  // ---------------------------------------------------------------------------------------------
  // Stale reads of the pause
  // ---------------------------------------------------------------------------------------------

  /** A read that shows no pause when the upgrade is done: the upgrade ends, the cluster stays paused. */
  lemma SkippedUnpause(c: Config, s: State, v: Version, f: Fault) returns (run: seq<Action>)
    requires Inv(c, s) && s.cc == CRun(Some(v), Unpause) && s.st.paused
    ensures var t := Next(c, s, Cluster(SetUnpaused(false, f)));
            && Forgotten(t, v) && CalmRun(c, t, run) && Over(c, Exec(c, t, run), v) && Exec(c, t, run).st.paused
            && forall more :: CalmRun(c, t, more) ==> Exec(c, t, more).st.paused
  {
    var t := Next(c, s, Cluster(SetUnpaused(false, f)));
    StepKeeps(c, s, Cluster(SetUnpaused(false, f)));
    run := FinishClosing(c, t, v);
    forall more | CalmRun(c, t, more) ensures Exec(c, t, more).st.paused {
      StaysLeft(c, t, more);
    }
  }

  /** All instances get to the version while the cluster is not paused. */
  lemma SkippedPauseRollsOut(c: Config, s: State, v: Version, o: Owner) returns (run: seq<Action>)
    requires Inv(c, s) && !s.st.paused && CanGoOn(c, s, v) && s.st.target == Some(v)
    requires s.cc.CRun? && s.cc.ver == Some(v) && s.cc.at.AnnotateCp?
    requires o in s.st.over && c.Owned(o) * c.active != {} && s.st.over[o] != v
    ensures IsRun(c, s, run) && Along(c, s, run, ReadsOk)
    ensures !Exec(c, s, run).st.paused && !Consistent(c, Exec(c, s, run).st)
  {
    AnnotatingNow(c, s, v);
    var r1, s1 := FinishAnnotating(c, s, v);
    RunKeeps(c, s, r1);
    WaitingNow(c, s, s1, v);
    var r2 := AllCanReport(c, s1, v);
    var s2 := Exec(c, s1, r2);
    ReportedPatched(c, s2, v);
    SoloOwners(c, s1, r2);
    var m :| m in c.Owned(o) * c.active;
    CalmConcat(c, s, r1, r2);
    run := r1 + r2;
    CalmReadsOk(c, s, run);
    assert s2.st.mver[m] == v && s2.st.over[o] != v;
  }

  /** The condition on reads of the pause flag is exact.  After any run with reads good enough, for an
      upgrade that can go on and an owner of machines that it has to patch, the read before the pause is
      right if it shows a pause, if and only if no continuation has a spurious rollout. */
  lemma PauseIff(c: Config, s: State, run: seq<Action>, seen: bool, f: Fault, o: Owner)
    requires Init(c, s) && IsRun(c, s, run) && Along(c, s, run, ReadsOk)
    requires var t := Exec(c, s, run);
             && Enabled(c, t, Cluster(SetPaused(seen, f))) && CanGoOn(c, t, t.cc.ver.value)
             && o in t.st.over && c.Owned(o) * c.active != {} && t.st.over[o] != t.cc.ver.value
    ensures var t := Exec(c, s, run);
            PauseRead(c, t, Cluster(SetPaused(seen, f))) <==> StaysConsistent(c, Next(c, t, Cluster(SetPaused(seen, f))))
  {
    InitInv(c, s);
    OwnersRun(c, s, run);
    var t := Exec(c, s, run);
    if PauseRead(c, t, Cluster(SetPaused(seen, f))) {
      NextStaysConsistent(c, t, SetPaused(seen, f));
    } else {
      var more := SkippedPause(c, t, f, o);
    }
  }

  lemma SkippedPause(c: Config, s: State, f: Fault, o: Owner) returns (run: seq<Action>)
    requires Inv(c, s) && !s.st.paused && Enabled(c, s, Cluster(SetPaused(true, f))) && CanGoOn(c, s, s.cc.ver.value)
    requires o in s.st.over && c.Owned(o) * c.active != {} && s.st.over[o] != s.cc.ver.value
    ensures var t := Next(c, s, Cluster(SetPaused(true, f)));
            && IsRun(c, t, run) && Along(c, t, run, ReadsOk)
            && !Exec(c, t, run).st.paused && !Consistent(c, Exec(c, t, run).st)
  {
    var t := State(s.st, CRun(s.cc.ver, AnnotateCp(c.active * c.cp)), s.ip);
    assert t == Next(c, s, Cluster(SetPaused(true, f)));
    StepKeeps(c, s, Cluster(SetPaused(true, f)));
    run := SkippedPauseRollsOut(c, t, s.cc.ver.value, o);
  }

  /** Instances touch neither the owners nor the pause. */
  lemma {:induction false} SoloOwners(c: Config, s: State, run: seq<Action>)
    requires IsRun(c, s, run) && forall a :: a in run ==> a.Inst?
    ensures Exec(c, s, run).st.over == s.st.over && Exec(c, s, run).st.paused == s.st.paused
    decreases |run|
  {
    if run != [] {
      assert run[0] in run && forall a :: a in run[1..] ==> a in run;
      SoloOwners(c, Next(c, s, run[0]), run[1..]);
    }
  }

  lemma ReportedPatched(c: Config, s: State, v: Version)
    requires Waiting(c, s, v) && Unreported(c, s.st, v) == {}
    ensures forall i :: i in c.active ==> i in s.st.mver && s.st.mver[i] == v
  {
    forall i | i in c.active ensures i in s.st.mver && s.st.mver[i] == v {
      assert HostOk(c, s.st, i) && i !in Unreported(c, s.st, v);
    }
  }

  // ---------------------------------------------------------------------------------------------
  // How an upgrade gets stuck
  // ---------------------------------------------------------------------------------------------

  ghost predicate PausedForever(c: Config, s: State, v: Version) {
    forall run :: IsRun(c, s, run) ==> Exec(c, s, run).st.paused && Exec(c, s, run).st.target == Some(v)
  }

  lemma StuckPaused(c: Config, s: State, v: Version)
    requires Inv(c, s) && DeadOk(c, s) && s.st.target == Some(v) && !CanGoOn(c, s, v) && s.st.paused
    ensures PausedForever(c, s, v)
  {
    forall run | IsRun(c, s, run) ensures Exec(c, s, run).st.paused && Exec(c, s, run).st.target == Some(v) {
      StuckForever(c, s, v, run);
    }
  }

  lemma Pauses(c: Config, s: State, v: Version) returns (run: seq<Action>)
    requires s.cc.CIdle? && s.st.target == Some(v)
    ensures CalmRun(c, s, run) && Exec(c, s, run).st.paused
  {
    var s1, a := Next(c, s, Cluster(CBegin)), Cluster(SetPaused(s.st.paused, Ok));
    CalmThen(c, s1, a, []);
    CalmThen(c, s, Cluster(CBegin), [a] + []);
    run := [Cluster(CBegin)] + ([a] + []);
  }

  /** A request that the webhook of some instance refuses: it is accepted by the webhook of the cluster,
      it pauses the cluster, and no run ever ends it or unpauses the cluster again. */
  lemma InadmissibleRequestSticks(c: Config, s0: State, past: seq<Action>, v: Version, i: Name) returns (run: seq<Action>)
    requires Init(c, s0) && IsRun(c, s0, past) && i in c.active
    requires var s := Exec(c, s0, past);
             s.cc.CIdle? && Enabled(c, s, Request(v)) && i in s.st.obs && !Accepts(c, s.st.obs[i], v)
    ensures var t := Next(c, Exec(c, s0, past), Request(v));
            CalmRun(c, t, run) && PausedForever(c, Exec(c, t, run), v)
  {
    InitInv(c, s0);
    DeadRun(c, s0, past);
    run := RefusedAndPaused(c, Exec(c, s0, past), v, i);
  }

  /** After a request, without annotations, the refusal is in the way. */
  lemma RefusedRequest(c: Config, s: State, v: Version, i: Name)
    requires Inv(c, s) && DeadOk(c, s) && s.cc.CIdle? && Enabled(c, s, Request(v)) && i in c.active && !Accepts(c, s.st.obs[i], v)
    ensures var t := Next(c, s, Request(v)); Inv(c, t) && DeadOk(c, t) && t.st.target == Some(v) && !CanGoOn(c, t, v)
  {
    StepKeeps(c, s, Request(v));
    DeadStep(c, s, Request(v));
    assert i !in s.st.ann by {
      assert HostOk(c, s.st, i);
    }
  }

  lemma RefusedAndPaused(c: Config, s: State, v: Version, i: Name) returns (run: seq<Action>)
    requires Inv(c, s) && DeadOk(c, s) && s.cc.CIdle? && Enabled(c, s, Request(v)) && i in c.active && !Accepts(c, s.st.obs[i], v)
    ensures var t := Next(c, s, Request(v)); CalmRun(c, t, run) && PausedForever(c, Exec(c, t, run), v)
  {
    RefusedRequest(c, s, v, i);
    var t := Next(c, s, Request(v));
    run := Pauses(c, t, v);
    StuckForever(c, t, v, run);
    DeadRun(c, t, run);
    StuckPaused(c, Exec(c, t, run), v);
  }

  /** One rejected write while the annotations are cleared: the annotation of `i` is gone, the write for
      `n` fails, and the webhook will not let `i` have it back. */
  lemma FailedClearSticks(c: Config, s: State, v: Version, i: Name, n: Name)
    requires Inv(c, s) && s.cc.CRun? && s.cc.ver == Some(v) && s.cc.at.Clear?
    requires i in s.cc.at.todo && n in s.cc.at.todo && n in s.st.ann && i != n
    ensures Enabled(c, s, Cluster(ClearAnnotation(i, Ok)))
    ensures var t := Next(c, s, Cluster(ClearAnnotation(i, Ok)));
            && Enabled(c, t, Cluster(ClearAnnotation(n, Rejected)))
            && var u := Next(c, t, Cluster(ClearAnnotation(n, Rejected))); u.st.target == Some(v) && !CanGoOn(c, u, v)
  {
    ClearFacts(c, s, v, i);
    ClearOne(c, s, v, i, n);
    RejectedClear(c, Next(c, s, Cluster(ClearAnnotation(i, Ok))), v, i, n);
  }

  lemma ClearFacts(c: Config, s: State, v: Version, i: Name)
    requires Inv(c, s) && s.cc.CRun? && s.cc.ver == Some(v) && s.cc.at.Clear? && i in s.cc.at.todo
    ensures s.st.target == Some(v) && i in c.active && i in s.st.obs && s.st.obs[i] == v
  {
  }

  lemma ClearOne(c: Config, s: State, v: Version, i: Name, n: Name)
    requires s.cc.CRun? && s.cc.ver == Some(v) && s.cc.at.Clear? && s.st.target == Some(v)
    requires i in s.cc.at.todo && n in s.cc.at.todo && n in s.st.ann && i != n && i in s.st.obs && s.st.obs[i] == v
    ensures var t := Next(c, s, Cluster(ClearAnnotation(i, Ok)));
            && t.cc == CRun(Some(v), Clear(s.cc.at.todo - {i})) && n in s.cc.at.todo - {i} && n in t.st.ann
            && t.st.target == Some(v) && i !in t.st.ann && i in t.st.obs && t.st.obs[i] == v
  {
    assert n in s.cc.at.todo - {i};
  }

  lemma RejectedClear(c: Config, s: State, v: Version, i: Name, n: Name)
    requires s.cc.CRun? && s.cc.at.Clear? && n in s.cc.at.todo && n in s.st.ann
    requires s.st.target == Some(v) && i in c.active && i !in s.st.ann && i in s.st.obs && s.st.obs[i] == v
    ensures var t := Next(c, s, Cluster(ClearAnnotation(n, Rejected))); t.st.target == Some(v) && !CanGoOn(c, t, v)
  {
  }

  /** Without an active control plane or an active worker no request ever ends. */
  lemma EmptyPhaseBlocks(c: Config, s0: State, past: seq<Action>, run: seq<Action>, v: Version)
    requires Init(c, s0) && PhaseEmpty(c) && IsRun(c, s0, past) && Exec(c, s0, past).st.target == Some(v)
    requires IsRun(c, Exec(c, s0, past), run)
    ensures var s := Exec(c, s0, past); var t := Exec(c, s, run);
            t.st.target == Some(v) && (s.st.paused ==> t.st.paused)
  {
    InitInv(c, s0);
    DeadRun(c, s0, past);
    StuckForever(c, Exec(c, s0, past), v, run);
  }
}
