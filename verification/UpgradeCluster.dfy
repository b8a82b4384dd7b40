/** The KKCluster side of an in-place upgrade as it is coded: phases in order, each a loop over objects
    that stops at the first error. */
module UpgradeCluster {
  import opened Common
  import opened UpgradeModel
  import opened UpgradeSafety
  import opened UpgradeOwners
  import opened UpgradeControllers

  /** How the writes of one reconcile end, by object.
      hidden: upgraded machines that the list of machines does not show yet.
      seenBefore, seenAfter: whether the cluster looks paused before the upgrade and after it. */
  datatype Faults = Faults(
    seenBefore: bool, pause: Fault, annotate: Name -> Fault, hidden: set<Name>, found: bool, patchKcp: Fault, patchSet: Name -> Fault,
    patchDeployment: Name -> Fault, seenAfter: bool, unpause: Fault, clear: Name -> Fault, request: Fault)

  /** From `st` to `t` annotations from before are kept; new ones are for `names`, with the new version, and only
      where the webhook accepts it. */
  ghost predicate OnlyAnnotated(c: Config, st: Store, t: Store, v: Version, names: set<Name>) {
    && t == st.(ann := t.ann) && st.ann.Keys <= t.ann.Keys
    && forall n :: n in t.ann ==>
         if n in st.ann then t.ann[n] == st.ann[n]
         else n in names && t.ann[n] == v && n in st.obs && Accepts(c, st.obs[n], v)
  }

  /** Instance `n` has its annotation, or gets it. */
  predicate Annotatable(c: Config, st: Store, v: Version, n: Name, f: Fault) {
    n in st.ann || (f.Ok? && n in st.obs && Accepts(c, st.obs[n], v))
  }

  ghost predicate AllAnnotatable(c: Config, st: Store, v: Version, names: set<Name>, fs: Name -> Fault) {
    forall n :: n in names ==> Annotatable(c, st, v, n, fs(n))
  }

  /** The annotations of some do not matter for the others. */
  lemma OthersAnnotatable(c: Config, st: Store, t: Store, v: Version, a: set<Name>, b: set<Name>, fs: Name -> Fault)
    requires OnlyAnnotated(c, st, t, v, a) && AllAnnotatable(c, st, v, a, fs)
    ensures AllAnnotatable(c, t, v, b, fs) <==> AllAnnotatable(c, st, v, b, fs)
  {
    forall n | n in b ensures Annotatable(c, t, v, n, fs(n)) <==> Annotatable(c, st, v, n, fs(n)) {
      if n in a {
        assert Annotatable(c, st, v, n, fs(n));
      }
    }
  }

  lemma OnlyAnnotatedThen(c: Config, st: Store, t: Store, u: Store, v: Version, a: set<Name>, b: set<Name>, names: set<Name>)
    requires OnlyAnnotated(c, st, t, v, a) && OnlyAnnotated(c, t, u, v, b) && a + b <= names
    ensures OnlyAnnotated(c, st, u, v, names)
  {
  }

  class ClusterController {
    const w: Controllers

    constructor (w: Controllers)
      ensures this.w == w
    {
      this.w := w;
    }

    predicate At(v: Option<Version>, at: CPoint)
      reads w
    {
      w.s.cc == CRun(v, at)
    }

    method Call(a: CAction)
      requires w.Valid() && CEnabled(w.c, w.s.st, w.s.cc, a) && !a.CList? && !a.SetPaused?
      modifies w`s, w`trace, w`run
      ensures w.Valid() && w.s.ip == old(w.s).ip
      ensures w.s.st == CNextStore(w.c, old(w.s).st, old(w.s).cc, a)
      ensures w.s.cc == CNextProc(w.c, old(w.s).st, old(w.s).cc, a)
    {
      w.Step(Cluster(a));
    }

    /** Pauses the cluster at the start of an upgrade, unless it looks paused; a stale copy that does not
        look paused cannot be written.  If the read was right and this goes through, the cluster is paused. */
    method PauseCluster(v: Option<Version>, seen: bool, f: Fault) returns (ok: bool)
      requires w.Valid() && v.Some? && At(v, Pause)
      modifies w
      ensures w.Valid() && w.s.ip == old(w.s).ip
      ensures ok == (seen || (!old(w.s).st.paused && f.Ok?))
      ensures w.s.st == old(w.s).st.(paused := old(w.s).st.paused || (!seen && TookEffect(f)))
      ensures w.s.cc == if ok then EnterCp(w.c, v) else CIdle
      ensures w.readsOk == (old(w.readsOk) && (seen ==> old(w.s).st.paused)) && (ok && w.readsOk ==> w.s.st.paused)
    {
      ok := seen || (!w.s.st.paused && f.Ok?);
      w.Do(Cluster(SetPaused(seen, f)));
    }

    /** The same for the end of the upgrade. */
    method UnpauseCluster(v: Option<Version>, seen: bool, f: Fault) returns (ok: bool)
      requires w.Valid() && v.Some? && At(v, Unpause)
      modifies w`s, w`trace, w`run
      ensures w.Valid() && w.s.ip == old(w.s).ip
      ensures ok == (!seen || (old(w.s).st.paused && f.Ok?))
      ensures w.s.st == old(w.s).st.(paused := old(w.s).st.paused && (!seen || !TookEffect(f)))
      ensures w.s.cc == if ok then LoopClear(v, w.c.active) else CIdle
      ensures ok && (old(w.s).st.paused ==> seen) ==> !w.s.st.paused
    {
      ok := !seen || (w.s.st.paused && f.Ok?);
      Call(SetUnpaused(seen, f));
    }

    function AnnotatePoint(cp: bool, todo: set<Name>): CPoint {
      if cp then AnnotateCp(todo) else AnnotateWorkers(todo)
    }

    method AnnotateOne(v: Version, cp: bool, todo: set<Name>, n: Name, f: Fault) returns (ok: bool)
      requires w.Valid() && n in todo && n in w.c.active && n in w.s.st.obs && At(Some(v), AnnotatePoint(cp, todo))
      modifies w`s, w`trace, w`run
      ensures w.Valid() && w.s.ip == old(w.s).ip && OnlyAnnotated(w.c, old(w.s).st, w.s.st, v, {n})
      ensures ok == Annotatable(w.c, old(w.s).st, v, n, f) && (ok ==> n in w.s.st.ann)
      ensures w.s.cc == if ok then LoopAnnotate(w.c, Some(v), AnnotatePoint(cp, todo), todo - {n}) else CIdle
    {
      var failed := n !in w.s.st.ann && (!f.Ok? || WebhookRejects(w.c, w.s.st, n, v));
      Call(Annotate(n, f));
      return !failed;
    }

    /** Annotates a set of instances, unless they are annotated already.  It goes well exactly when every one of
        them has an annotation or may get it and the write succeeds; in any case nothing else changes. */
    method AnnotateInstances(v: Version, cp: bool, names: set<Name>, fs: Name -> Fault) returns (ok: bool)
      requires w.Valid() && names != {} && names <= w.c.active && names <= w.s.st.obs.Keys
      requires At(Some(v), AnnotatePoint(cp, names))
      modifies w`s, w`trace, w`run
      ensures w.Valid() && w.s.ip == old(w.s).ip && OnlyAnnotated(w.c, old(w.s).st, w.s.st, v, names)
      ensures ok == AllAnnotatable(w.c, old(w.s).st, v, names, fs)
      ensures ok ==> names <= w.s.st.ann.Keys
      ensures w.s.cc == if !ok then CIdle else if cp then EnterWorkers(w.c, Some(v)) else CRun(Some(v), Check(w.c.active))
    {
      var todo := names;
      while todo != {}
        invariant w.Valid() && todo <= names && w.s.ip == old(w.s).ip && OnlyAnnotated(w.c, old(w.s).st, w.s.st, v, names)
        invariant names - todo <= w.s.st.ann.Keys
        invariant forall n :: n in names && n !in todo ==> Annotatable(w.c, old(w.s).st, v, n, fs(n))
        invariant forall n :: n in todo ==> (n in w.s.st.ann <==> n in old(w.s).st.ann)
        invariant todo != {} ==> At(Some(v), AnnotatePoint(cp, todo))
        invariant todo == {} ==> w.s.cc == if cp then EnterWorkers(w.c, Some(v)) else CRun(Some(v), Check(w.c.active))
      {
        var n :| n in todo;
        var one := AnnotateOne(v, cp, todo, n, fs(n));
        if !one {
          return false;
        }
        todo := todo - {n};
      }
      return true;
    }

    /** Whether every instance reports the annotated version and its upgrade as done. */
    method CheckInstances(v: Version, names: set<Name>) returns (ok: bool)
      requires w.Valid() && names != {} && names <= w.s.st.obs.Keys && At(Some(v), Check(names))
      modifies w`s, w`trace, w`run
      ensures w.Valid() && w.s.ip == old(w.s).ip && w.s.st == old(w.s).st
      ensures ok <==> forall n :: n in names ==>
                n in w.s.st.ann && n in w.s.st.upgraded && n in w.s.st.obs && w.s.st.obs[n] == w.s.st.ann[n]
      ensures w.s.cc == if ok then CRun(Some(v), ListMachines) else CIdle
    {
      var todo := names;
      while todo != {}
        invariant w.Valid() && todo <= names && w.s.ip == old(w.s).ip && w.s.st == old(w.s).st
        invariant forall n :: n in names && n !in todo ==> PassesCheck(w.s.st, n)
        invariant At(Some(v), if todo != {} then Check(todo) else ListMachines)
      {
        var n :| n in todo;
        var passes := PassesCheck(w.s.st, n);
        Call(CheckInstance(n));
        if !passes {
          return false;
        }
        todo := todo - {n};
      }
      return true;
    }

    /** The machines at the new version, as far as the list shows them. */
    method ListUpgraded(v: Version, hidden: set<Name>) returns (view: set<Name>)
      requires w.Valid() && At(Some(v), ListMachines)
      modifies w
      ensures w.Valid() && w.s == old(w.s).(cc := CRun(Some(v), PatchKcp(view))) && view == AtVersion(w.s.st, v) - hidden
      ensures w.readsOk == (old(w.readsOk) && Covered(w.c, w.s.st.over, v, view))
    {
      view := AtVersion(w.s.st, v) - hidden;
      w.Do(Cluster(CList(view)));
    }

    /** Patches the control plane if it owns a listed machine. */
    method PatchKcpSpecVersion(v: Version, view: set<Name>, fs: Faults) returns (ok: bool)
      requires w.Valid() && At(Some(v), PatchKcp(view))
      modifies w`s, w`trace, w`run
      ensures w.Valid() && w.s.ip == old(w.s).ip
      ensures var st := old(w.s).st;
              && w.s.st == (if w.c.kcp.Some? && fs.found && w.c.Owned(Kcp) * view != {} && TookEffect(fs.patchKcp)
                            then st.(over := st.over[Kcp := v]) else st)
              && ok == (w.c.kcp.None? || (fs.found && (w.c.Owned(Kcp) * view == {} || fs.patchKcp.Ok?)))
              && w.s.cc == if ok then LoopSets(w.c, Some(v), view, w.c.machineSets.Keys, {}) else CIdle
    {
      Call(PatchControlPlane(fs.found, fs.patchKcp));
      return w.c.kcp.None? || (fs.found && (w.c.Owned(Kcp) * view == {} || fs.patchKcp.Ok?));
    }

    /** The MachineSets among `names` that own a machine of `view`. */
    function Touched(names: set<Name>, view: set<Name>): set<Name> {
      set ms | ms in names && ms in w.c.machineSets && w.c.machineSets[ms] * view != {}
    }

    method PatchOneSet(v: Version, view: set<Name>, left: set<Name>, patched: set<Name>, ms: Name, f: Fault) returns (ok: bool)
      requires w.Valid() && ms in left && w.s.cc == LoopSets(w.c, Some(v), view, left, patched)
      modifies w`s, w`trace, w`run
      ensures w.Valid() && w.s.ip == old(w.s).ip && ok == (!SetTouched(w.c, ms, view) || f.Ok?)
      ensures var over := old(w.s).st.over;
              w.s.st == old(w.s).st.(over := if SetTouched(w.c, ms, view) && TookEffect(f) then over[MachineSet(ms) := v] else over)
      ensures w.s.cc == if !ok then CIdle
                        else LoopSets(w.c, Some(v), view, left - {ms}, if SetTouched(w.c, ms, view) then patched + {ms} else patched)
    {
      Call(PatchSet(ms, f));
      return !SetTouched(w.c, ms, view) || f.Ok?;
    }

    /** Patches the MachineSets that own a listed machine, and no others, up to the first error. */
    method PatchMachineSets(v: Version, view: set<Name>, names: set<Name>, fs: Name -> Fault) returns (ok: bool)
      requires w.Valid() && w.s.cc == LoopSets(w.c, Some(v), view, names, {})
      modifies w`s, w`trace, w`run
      ensures w.Valid() && w.s.ip == old(w.s).ip && w.s.st == old(w.s).st.(over := w.s.st.over)
      ensures ok <==> forall ms :: ms in Touched(names, view) ==> fs(ms).Ok?
      ensures ok ==> forall ms :: ms in Touched(names, view) ==> Has(MachineSet(ms), v)
      ensures OnlySets(old(w.s).st, v, Touched(names, view))
      ensures w.s.cc == if ok then LoopDeployments(Some(v), w.c.deployments.Keys, Touched(names, view)) else CIdle
    {
      var left, patched := names, {};
      ghost var touched := Touched(names, view);
      while left != {}
        invariant w.Valid() && left <= names && w.s.ip == old(w.s).ip && w.s.st == old(w.s).st.(over := w.s.st.over)
        invariant patched == touched - left && forall ms :: ms in patched ==> Has(MachineSet(ms), v) && fs(ms).Ok?
        invariant OnlySets(old(w.s).st, v, touched)
        invariant w.s.cc == LoopSets(w.c, Some(v), view, left, patched)
      {
        var ms :| ms in left;
        assert ms in touched <==> SetTouched(w.c, ms, view);
        var one := PatchOneSet(v, view, left, patched, ms, fs(ms));
        if !one {
          return false;
        }
        if SetTouched(w.c, ms, view) {
          patched := patched + {ms};
        }
        left := left - {ms};
        assert patched == touched - left;
      }
      assert patched == touched;
      return true;
    }

    ghost predicate Has(o: Owner, v: Version)
      reads w
    {
      o in w.s.st.over && w.s.st.over[o] == v
    }

    /** MachineSets in `touched` may have got the new version; all other owners are as before. */
    ghost predicate OnlySets(st: Store, v: Version, touched: set<Name>)
      reads w
    {
      && st.over.Keys <= w.s.st.over.Keys
      && forall o :: o in w.s.st.over ==>
           (o.MachineSet? && o.name in touched && w.s.st.over[o] == v) || (o in st.over && w.s.st.over[o] == st.over[o])
    }

    ghost predicate OnlyDeployments(st: Store, v: Version, touched: set<Name>)
      reads w
    {
      && st.over.Keys <= w.s.st.over.Keys
      && forall o :: o in w.s.st.over ==>
           (o.MachineDeployment? && o.name in touched && w.s.st.over[o] == v) || (o in st.over && w.s.st.over[o] == st.over[o])
    }

    function TouchedDeployments(names: set<Name>, patched: set<Name>): set<Name> {
      set md | md in names && md in w.c.deployments && w.c.deployments[md] * patched != {}
    }

    method PatchOneDeployment(v: Version, left: set<Name>, patched: set<Name>, md: Name, f: Fault) returns (ok: bool)
      requires w.Valid() && md in left && w.s.cc == LoopDeployments(Some(v), left, patched)
      modifies w`s, w`trace, w`run
      ensures w.Valid() && w.s.ip == old(w.s).ip && ok == (!DeploymentTouched(w.c, md, patched) || f.Ok?)
      ensures var over := old(w.s).st.over;
              w.s.st == old(w.s).st.(
                over := if DeploymentTouched(w.c, md, patched) && TookEffect(f) then over[MachineDeployment(md) := v] else over)
      ensures w.s.cc == if ok then LoopDeployments(Some(v), left - {md}, patched) else CIdle
    {
      Call(PatchDeployment(md, f));
      return !DeploymentTouched(w.c, md, patched) || f.Ok?;
    }

    /** Patches the MachineDeployments that own a patched MachineSet, and no others. */
    method PatchMachineDeployments(v: Version, names: set<Name>, patched: set<Name>, fs: Name -> Fault) returns (ok: bool)
      requires w.Valid() && w.s.cc == LoopDeployments(Some(v), names, patched)
      modifies w`s, w`trace, w`run
      ensures w.Valid() && w.s.ip == old(w.s).ip && w.s.st == old(w.s).st.(over := w.s.st.over)
      ensures ok <==> forall md :: md in TouchedDeployments(names, patched) ==> fs(md).Ok?
      ensures ok ==> forall md :: md in TouchedDeployments(names, patched) ==> Has(MachineDeployment(md), v)
      ensures OnlyDeployments(old(w.s).st, v, TouchedDeployments(names, patched))
      ensures w.s.cc == if ok then CRun(Some(v), Unpause) else CIdle
    {
      var left := names;
      ghost var touched := TouchedDeployments(names, patched);
      while left != {}
        invariant w.Valid() && left <= names && w.s.ip == old(w.s).ip && w.s.st == old(w.s).st.(over := w.s.st.over)
        invariant forall md :: md in touched - left ==> Has(MachineDeployment(md), v) && fs(md).Ok?
        invariant OnlyDeployments(old(w.s).st, v, touched)
        invariant w.s.cc == LoopDeployments(Some(v), left, patched)
      {
        var md :| md in left;
        assert md in touched <==> DeploymentTouched(w.c, md, patched);
        var one := PatchOneDeployment(v, left, patched, md, fs(md));
        if !one {
          return false;
        }
        left := left - {md};
      }
      return true;
    }

    /** Removes the annotations of the instances, and stops at the first error. */
    method ClearAnnotations(v: Option<Version>, names: set<Name>, fs: Name -> Fault) returns (ok: bool)
      requires w.Valid() && w.s.cc == LoopClear(v, names)
      modifies w`s, w`trace, w`run
      ensures w.Valid() && w.s.ip == old(w.s).ip && w.s.st == old(w.s).st.(ann := w.s.st.ann)
      ensures w.s.st.ann.Keys <= old(w.s).st.ann.Keys && forall n :: n in w.s.st.ann ==> w.s.st.ann[n] == old(w.s).st.ann[n]
      ensures old(w.s).st.ann.Keys - names <= w.s.st.ann.Keys
      ensures ok <==> forall n :: n in names && n in old(w.s).st.ann ==> fs(n).Ok?
      ensures ok ==> w.s.st.ann.Keys !! names
      ensures w.s.cc == if ok then CRun(v, Finish) else CIdle
    {
      var todo := names;
      while todo != {}
        invariant w.Valid() && todo <= names && w.s.ip == old(w.s).ip && w.s.st == old(w.s).st.(ann := w.s.st.ann)
        invariant w.s.st.ann.Keys <= old(w.s).st.ann.Keys && forall n :: n in w.s.st.ann ==> w.s.st.ann[n] == old(w.s).st.ann[n]
        invariant old(w.s).st.ann.Keys - names <= w.s.st.ann.Keys && w.s.st.ann.Keys !! (names - todo)
        invariant forall n :: n in names && n !in todo && n in old(w.s).st.ann ==> fs(n).Ok?
        invariant forall n :: n in todo ==> (n in w.s.st.ann <==> n in old(w.s).st.ann)
        invariant w.s.cc == LoopClear(v, todo)
      {
        var n :| n in todo;
        var had := n in w.s.st.ann;
        Call(ClearAnnotation(n, fs(n)));
        if had && !fs(n).Ok? {
          return false;
        }
        todo := todo - {n};
      }
      return true;
    }

    /** Some owners have the new version, the control plane and the rest the old one. */
    ghost predicate Kept(st: Store, v: Version)
      reads w
    {
      forall o :: o in st.over ==> o in w.s.st.over && (w.s.st.over[o] == st.over[o] || (w.s.st.over[o] == v && !o.Kcp?))
    }

    /** The patches of MachineSets and MachineDeployments all succeed. */
    ghost predicate SetsOk(view: set<Name>, fs: Faults) {
      var touched := Touched(w.c.machineSets.Keys, view);
      && (forall ms :: ms in touched ==> fs.patchSet(ms).Ok?)
      && (forall md :: md in TouchedDeployments(w.c.deployments.Keys, touched) ==> fs.patchDeployment(md).Ok?)
    }

    /** The control plane is found and patched where it has to be, and so are MachineSets and MachineDeployments. */
    ghost predicate PatchesOk(view: set<Name>, fs: Faults) {
      && (w.c.kcp.Some? ==> fs.found && (w.c.kcp.value * view == {} || fs.patchKcp.Ok?))
      && SetsOk(view, fs)
    }

    /** The MachineSets that own an upgraded machine, then the MachineDeployments that own one of these. */
    method PatchMachineSet(v: Version, view: set<Name>, fs: Faults) returns (ok: bool)
      requires w.Valid() && w.s.cc == LoopSets(w.c, Some(v), view, w.c.machineSets.Keys, {})
      modifies w`s, w`trace, w`run
      ensures w.Valid() && w.s.ip == old(w.s).ip && w.s.st == old(w.s).st.(over := w.s.st.over) && Kept(old(w.s).st, v)
      ensures w.s.cc == if ok then CRun(Some(v), Unpause) else CIdle
      ensures ok <==> SetsOk(view, fs)
      ensures ok ==> forall ms :: ms in Touched(w.c.machineSets.Keys, view) ==> Has(MachineSet(ms), v)
      ensures ok ==> forall md :: md in TouchedDeployments(w.c.deployments.Keys, Touched(w.c.machineSets.Keys, view)) ==>
                Has(MachineDeployment(md), v)
    {
      ok := PatchMachineSets(v, view, w.c.machineSets.Keys, fs.patchSet);
      if !ok {
        return;
      }
      ok := PatchMachineDeployments(v, w.c.deployments.Keys, Touched(w.c.machineSets.Keys, view), fs.patchDeployment);
    }

    /** Patches every owner of a listed machine: the control plane, the MachineSets, and the
        MachineDeployments of these. */
    method PatchResourceSpecVersion(v: Version, fs: Faults) returns (ok: bool)
      requires w.Valid() && At(Some(v), ListMachines)
      modifies w
      ensures w.Valid() && w.s.ip == old(w.s).ip && w.s.st == old(w.s).st.(over := w.s.st.over)
      ensures w.s.cc == if ok then CRun(Some(v), Unpause) else CIdle
      ensures ok <==> PatchesOk(AtVersion(old(w.s).st, v) - fs.hidden, fs)
      ensures ok ==> forall o :: o in w.c.OwnerSet() && w.c.Owned(o) * (AtVersion(old(w.s).st, v) - fs.hidden) != {} ==> Has(o, v)
      ensures w.readsOk == (old(w.readsOk) && Covered(w.c, old(w.s).st.over, v, AtVersion(old(w.s).st, v) - fs.hidden))
    {
      var view := ListUpgraded(v, fs.hidden);
      ok := PatchKcpSpecVersion(v, view, fs);
      if !ok {
        return;
      }
      ok := PatchMachineSet(v, view, fs);
      if ok {
        forall o | o in w.c.OwnerSet() && w.c.Owned(o) * view != {} ensures Has(o, v) {
          OwnerPatched(o, view, Touched(w.c.machineSets.Keys, view));
        }
      }
    }

    /** An owner of an upgraded machine is the control plane, a touched set or a touched deployment. */
    lemma OwnerPatched(o: Owner, view: set<Name>, patched: set<Name>)
      requires o in w.c.OwnerSet() && w.c.Owned(o) * view != {} && patched == Touched(w.c.machineSets.Keys, view)
      ensures match o
              case Kcp => w.c.kcp.Some?
              case MachineSet(ms) => ms in patched
              case MachineDeployment(md) => md in TouchedDeployments(w.c.deployments.Keys, patched)
    {
      if o.MachineDeployment? {
        var md := o.name;
        var m :| m in w.c.Owned(o) * view;
        var ms :| ms in w.c.deployments[md] && ms in w.c.machineSets && m in w.c.machineSets[ms];
        assert m in w.c.Owned(MachineSet(ms)) * view;
        assert ms in w.c.deployments[md] * patched;
      }
    }

    /** Annotated, marked upgraded, and reporting the version of its annotation. */
    predicate Upgraded(st: Store, n: Name) {
      n in st.ann && n in st.upgraded && n in st.obs && st.obs[n] == st.ann[n]
    }

    /** The cluster is paused after the first phase. */
    predicate PausedNow(st: Store, fs: Faults) {
      st.paused || (!fs.seenBefore && TookEffect(fs.pause))
    }

    /** All phases go through: all instances are upgraded already, and no write fails that has to be made. */
    ghost predicate UpgradeOk(st: Store, v: Version, fs: Faults) {
      && (fs.seenBefore || (!st.paused && fs.pause.Ok?))
      && w.c.active * w.c.cp != {} && w.c.active * w.c.workers != {}
      && (forall n :: n in w.c.active ==> Upgraded(st, n))
      && PatchesOk(AtVersion(st, v) - fs.hidden, fs)
      && (!fs.seenAfter || (PausedNow(st, fs) && fs.unpause.Ok?))
    }

    /** The phases of an upgrade, in order, up to the first that does not go through.  If all do, every
        active instance passed its check, every owner of a listed machine has the new version, and the cluster
        is unpaused if it looked paused. */
    method ReconcileInPlaceUpgrade(v: Version, fs: Faults) returns (ok: bool)
      requires w.Valid() && At(Some(v), Pause) && w.c.active <= w.s.st.obs.Keys
      modifies w
      ensures w.Valid() && w.s.ip == old(w.s).ip
      ensures w.s.cc == if ok then LoopClear(Some(v), w.c.active) else CIdle
      ensures w.s.st == old(w.s).st.(paused := w.s.st.paused, ann := w.s.st.ann, over := w.s.st.over)
      ensures ok <==> UpgradeOk(old(w.s).st, v, fs)
      ensures ok && fs.seenAfter ==> !w.s.st.paused
      ensures ok ==> forall n :: n in w.c.active ==> Upgraded(w.s.st, n)
      ensures ok ==> forall o :: o in w.c.OwnerSet() && w.c.Owned(o) * (AtVersion(w.s.st, v) - fs.hidden) != {} ==> Has(o, v)
    {
      ok := AnnotateAndCheck(v, fs);
      if !ok {
        return;
      }
      ok := PatchResourceSpecVersion(v, fs);
      if ok {
        ok := UnpauseCluster(Some(v), fs.seenAfter, fs.unpause);
      }
    }

    /** Who gets the annotation now does not pass the check yet. */
    method AnnotateAndCheck(v: Version, fs: Faults) returns (ok: bool)
      requires w.Valid() && At(Some(v), Pause) && w.c.active <= w.s.st.obs.Keys
      modifies w
      ensures w.Valid() && w.s.ip == old(w.s).ip
      ensures w.s.st == old(w.s).st.(paused := PausedNow(old(w.s).st, fs), ann := w.s.st.ann)
      ensures w.s.cc == if ok then CRun(Some(v), ListMachines) else CIdle
      ensures ok <==> && (fs.seenBefore || (!old(w.s).st.paused && fs.pause.Ok?))
                      && w.c.active * w.c.cp != {} && w.c.active * w.c.workers != {}
                      && forall n :: n in w.c.active ==> Upgraded(old(w.s).st, n)
      ensures ok ==> forall n :: n in w.c.active ==> Upgraded(w.s.st, n)
    {
      ok := AnnotateAll(v, fs);
      if !ok {
        return;
      }
      assert forall n :: n in w.c.active ==> (Upgraded(w.s.st, n) <==> Upgraded(old(w.s).st, n));
      ok := CheckInstances(v, w.c.active);
    }

    /** There are active control planes and workers, and every one has its annotation or gets it. */
    ghost predicate AnnotatesOk(st: Store, v: Version, fs: Faults) {
      && w.c.active * w.c.cp != {} && w.c.active * w.c.workers != {}
      && AllAnnotatable(w.c, st, v, w.c.active * w.c.cp, fs.annotate)
      && AllAnnotatable(w.c, st, v, w.c.active * w.c.workers, fs.annotate)
    }

    /** Pause, then annotate the control planes, then the workers; neither set may be empty. */
    method AnnotateAll(v: Version, fs: Faults) returns (ok: bool)
      requires w.Valid() && At(Some(v), Pause) && w.c.active <= w.s.st.obs.Keys
      modifies w
      ensures w.Valid() && w.s.ip == old(w.s).ip && w.s.st.paused == PausedNow(old(w.s).st, fs)
      ensures w.s.cc == if ok then CRun(Some(v), Check(w.c.active)) else CIdle
      ensures OnlyAnnotated(w.c, old(w.s).st.(paused := w.s.st.paused), w.s.st, v, w.c.active)
      ensures ok <==> (fs.seenBefore || (!old(w.s).st.paused && fs.pause.Ok?)) && AnnotatesOk(old(w.s).st, v, fs)
      ensures ok ==> w.c.active * (w.c.cp + w.c.workers) <= w.s.st.ann.Keys
    {
      ok := PauseCluster(Some(v), fs.seenBefore, fs.pause);
      if !ok || w.c.active * w.c.cp == {} {
        return false;
      }
      ok := AnnotateBoth(v, fs);
    }

    method AnnotateBoth(v: Version, fs: Faults) returns (ok: bool)
      requires w.Valid() && w.c.active <= w.s.st.obs.Keys
      requires w.c.active * w.c.cp != {} && At(Some(v), AnnotateCp(w.c.active * w.c.cp))
      modifies w`s, w`trace, w`run
      ensures w.Valid() && w.s.ip == old(w.s).ip && OnlyAnnotated(w.c, old(w.s).st, w.s.st, v, w.c.active)
      ensures w.s.cc == if ok then CRun(Some(v), Check(w.c.active)) else CIdle
      ensures ok <==> AnnotatesOk(old(w.s).st, v, fs)
      ensures ok ==> w.c.active * (w.c.cp + w.c.workers) <= w.s.st.ann.Keys
    {
      ok := AnnotateInstances(v, true, w.c.active * w.c.cp, fs.annotate);
      if !ok || w.c.active * w.c.workers == {} {
        return false;
      }
      ghost var st := w.s.st;
      ok := AnnotateInstances(v, false, w.c.active * w.c.workers, fs.annotate);
      OnlyAnnotatedThen(w.c, old(w.s).st, st, w.s.st, v, w.c.active * w.c.cp, w.c.active * w.c.workers, w.c.active);
      OthersAnnotatable(w.c, old(w.s).st, st, v, w.c.active * w.c.cp, w.c.active * w.c.workers, fs.annotate);
    }

    ghost predicate ClearsOk(st: Store, fs: Faults) {
      forall n :: n in w.c.active && n in st.ann ==> fs.clear(n).Ok?
    }

    /** Clears the annotations and then, if all are gone, the request. */
    method PatchAnnotations(v: Option<Version>, fs: Faults)
      requires w.Valid() && w.s.cc == LoopClear(v, w.c.active)
      modifies w`s, w`trace, w`run
      ensures w.Valid() && w.s.cc.CIdle? && w.s.ip == old(w.s).ip
      ensures w.s.st == old(w.s).st.(ann := w.s.st.ann, target := w.s.st.target) && w.s.st.ann.Keys <= old(w.s).st.ann.Keys
      ensures w.s.st.target == (if v.Some? && TookEffect(fs.request) && ClearsOk(old(w.s).st, fs) then None else old(w.s).st.target)
      ensures w.s.st.target != old(w.s).st.target ==> w.s.st.ann.Keys !! w.c.active
    {
      var ok := ClearAnnotations(v, w.c.active, fs.clear);
      if ok {
        Call(ClearRequest(fs.request));
      }
    }

    /** The request goes exactly when all phases go through and the annotations are cleared. */
    ghost predicate RequestAfter(st: Store, t: Store, fs: Faults) {
      t.target == if st.target.Some? && UpgradeOk(st, st.target.value, fs) && ClearsOk(st, fs) && TookEffect(fs.request)
                  then None else st.target
    }

    /** One reconcile of the KKCluster.  It removes the request exactly when all phases go through and the
        annotations are cleared; without a request it only clears annotations.  Whatever fails, while the reads are good enough and the cluster is
        not paused no owner of machines asks for a version other than theirs. */
    method ReconcileNormal(fs: Faults)
      requires w.Valid() && w.s.cc.CIdle? && w.c.active <= w.s.st.obs.Keys
      modifies w
      ensures w.Valid() && w.s.cc.CIdle? && w.s.ip == old(w.s).ip
      ensures Init(w.c, w.start) ==> (w.readsOk && !w.s.st.paused ==> Consistent(w.c, w.s.st)) && Ordered(w.c, w.s.st.log)
      ensures RequestAfter(old(w.s).st, w.s.st, fs)
      ensures old(w.s).st.target.None? ==> w.s.st == old(w.s).st.(ann := w.s.st.ann)
      ensures w.s.st.target.None? && old(w.s).st.target.Some? ==>
                w.s.st.ann.Keys !! w.c.active && (fs.seenAfter ==> !w.s.st.paused)
    {
      Reconcile(fs);
      if Init(w.c, w.start) {
        w.Theorems();
      }
    }

    method Reconcile(fs: Faults)
      requires w.Valid() && w.s.cc.CIdle? && w.c.active <= w.s.st.obs.Keys
      modifies w
      ensures w.Valid() && w.s.cc.CIdle? && w.s.ip == old(w.s).ip
      ensures RequestAfter(old(w.s).st, w.s.st, fs)
      ensures old(w.s).st.target.None? ==> w.s.st == old(w.s).st.(ann := w.s.st.ann)
      ensures w.s.st.target.None? && old(w.s).st.target.Some? ==>
                w.s.st.ann.Keys !! w.c.active && (fs.seenAfter ==> !w.s.st.paused)
    {
      var target := w.s.st.target;
      Call(CBegin);
      var ok := true;
      if target.Some? {
        ok := ReconcileInPlaceUpgrade(target.value, fs);
      }
      if ok {
        PatchAnnotations(target, fs);
      }
    }
  }
}
