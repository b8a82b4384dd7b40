/** Look up or generate the certificates of a cluster, with several controllers doing so at once. */
module Certificates {
  import opened Common
  import SecretNames

  type Bytes = string

  datatype KeyPair = KeyPair(cert: Bytes, key: Bytes)

  datatype Certificate = Certificate(purpose: string, external: bool, pair: Option<KeyPair>, generated: bool)

  datatype Secret = Secret(data: map<string, Bytes>, owned: bool)

  type Store = map<string, Secret>

  const TLSKeyDataName := "tls.key"
  const TLSCrtDataName := "tls.crt"

  function AsSecret(c: Certificate): Secret
    requires c.pair.Some?
  {
    Secret(map[TLSKeyDataName := c.pair.value.key, TLSCrtDataName := c.pair.value.cert], c.generated)
  }

  /** The certificate must be there; a missing key is an empty key. */
  function ToKeyPair(s: Secret): Option<KeyPair> {
    if TLSCrtDataName !in s.data then None
    else Some(KeyPair(s.data[TLSCrtDataName], if TLSKeyDataName in s.data then s.data[TLSKeyDataName] else ""))
  }

  lemma SecretRoundTrip(c: Certificate)
    requires c.pair.Some?
    ensures ToKeyPair(AsSecret(c)) == c.pair
  {
  }

  // ---------------------------------------------------------------------------------------------
  // One certificate
  // ---------------------------------------------------------------------------------------------

  function SecretName(cluster: string, c: Certificate): string {
    SecretNames.Name(cluster, c.purpose)
  }

  /** How a call ends: with the certificate to go on with, or with an error. */
  datatype Outcome = Error | Next(c: Certificate)

  /** `answer`: whether the read works; `hit`: whether it shows a secret that is stored. */
  function LookOne(cluster: string, store: Store, c: Certificate, answer: bool, hit: bool): Outcome {
    var n := SecretName(cluster, c);
    if !answer then Error
    else if n !in store || !hit then (if c.external then Error else Next(c))
    else if ToKeyPair(store[n]).None? then Error
    else Next(c.(pair := ToKeyPair(store[n])))
  }

  /** `made`: the generated key pair, if generation works. */
  function GenOne(c: Certificate, made: Option<KeyPair>): Outcome {
    if c.pair.Some? || c.purpose == SecretNames.APIServerEtcdClient then Next(c)
    else if made.None? then Error
    else Next(c.(pair := made, generated := true))
  }

  predicate Stores(cluster: string, store: Store, c: Certificate, f: Fault) {
    c.generated && c.pair.Some? && SecretName(cluster, c) !in store && !f.Rejected?
  }

  function SaveOne(cluster: string, store: Store, c: Certificate, f: Fault): Store {
    if Stores(cluster, store, c, f) then store[SecretName(cluster, c) := AsSecret(c)] else store
  }

  predicate Saved(cluster: string, store: Store, c: Certificate, f: Fault) {
    c.generated ==> SecretName(cluster, c) !in store && f.Ok?
  }

  /** The certificate is what is stored under its name; a secret without a key stands for an empty key. */
  ghost predicate Holds(cluster: string, store: Store, c: Certificate) {
    c.pair.Some? && SecretName(cluster, c) in store &&
    var data := store[SecretName(cluster, c)].data;
    && TLSCrtDataName in data && c.pair.value.cert == data[TLSCrtDataName]
    && c.pair.value.key == if TLSKeyDataName in data then data[TLSKeyDataName] else ""
  }

  /** Nothing stored is lost or changed. */
  ghost predicate Grows(store: Store, store': Store) {
    forall n :: n in store ==> n in store' && store'[n] == store[n]
  }

  ghost predicate SameShape(certs: seq<Certificate>, certs': seq<Certificate>) {
    |certs'| == |certs| && forall i :: 0 <= i < |certs| ==>
      certs'[i].purpose == certs[i].purpose && certs'[i].external == certs[i].external
  }

  predicate UserSupplied(c: Certificate) {
    c.purpose == SecretNames.APIServerEtcdClient
  }

  // ---------------------------------------------------------------------------------------------
  // Many callers
  // ---------------------------------------------------------------------------------------------

  datatype Stage = Looking(k: nat) | Generating(k: nat) | Saving(k: nat) | Done | Failed

  /** A call of LookupOrGenerate: its certificates and how far it is. */
  datatype Job = Job(certs: seq<Certificate>, stage: Stage)

  datatype World = World(store: Store, jobs: map<nat, Job>)

  datatype Action =
    | Start(j: nat, certs: seq<Certificate>)
    | Look(j: nat, answer: bool, hit: bool)
    | Gen(j: nat, made: Option<KeyPair>)
    | Save(j: nat, f: Fault)

  /** A list as the constructors make it: nothing looked up or generated yet. */
  predicate Unused(certs: seq<Certificate>) {
    forall c :: c in certs ==> c.pair.None? && !c.generated
  }

  predicate Enabled(w: World, a: Action) {
    match a
    case Start(j, certs) => j !in w.jobs && Unused(certs)
    case Look(j, _, _) => j in w.jobs && w.jobs[j].stage.Looking?
    case Gen(j, _) => j in w.jobs && w.jobs[j].stage.Generating?
    case Save(j, _) => j in w.jobs && w.jobs[j].stage.Saving?
  }

  function Advance(o: Outcome, certs: seq<Certificate>, k: nat, next: Stage): Job
    requires k < |certs|
  {
    if o.Error? then Job(certs, Failed) else Job(certs[k := o.c], next)
  }

  function NextJob(cluster: string, store: Store, job: Job, a: Action): Job {
    match a
    case Start(_, certs) => Job(certs, Looking(0))
    case Look(_, answer, hit) =>
      if !job.stage.Looking? || job.stage.k >= |job.certs| then job.(stage := Generating(0))
      else Advance(LookOne(cluster, store, job.certs[job.stage.k], answer, hit), job.certs, job.stage.k, Looking(job.stage.k + 1))
    case Gen(_, made) =>
      if !job.stage.Generating? || job.stage.k >= |job.certs| then job.(stage := Saving(0))
      else Advance(GenOne(job.certs[job.stage.k], made), job.certs, job.stage.k, Generating(job.stage.k + 1))
    case Save(_, f) =>
      if !job.stage.Saving? || job.stage.k >= |job.certs| then job.(stage := Done)
      else job.(stage := if Saved(cluster, store, job.certs[job.stage.k], f) then Saving(job.stage.k + 1) else Failed)
  }

  function NextWorld(cluster: string, w: World, a: Action): World
    requires Enabled(w, a)
  {
    var job := if a.Start? then Job([], Failed) else w.jobs[a.j];
    World(if a.Save? && job.stage.Saving? && job.stage.k < |job.certs|
          then SaveOne(cluster, w.store, job.certs[job.stage.k], a.f) else w.store,
          w.jobs[a.j := NextJob(cluster, w.store, job, a)])
  }

  predicate IsRun(cluster: string, w: World, run: seq<Action>)
    decreases |run|
  {
    run == [] || (Enabled(w, run[0]) && IsRun(cluster, NextWorld(cluster, w, run[0]), run[1..]))
  }

  function Exec(cluster: string, w: World, run: seq<Action>): World
    requires IsRun(cluster, w, run)
    decreases |run|
  {
    if run == [] then w else Exec(cluster, NextWorld(cluster, w, run[0]), run[1..])
  }

  /** What is known of certificate `i` of a call, given how far it is. */
  ghost predicate CertOk(cluster: string, store: Store, st: Stage, i: nat, c: Certificate) {
    && (c.generated ==> c.pair.Some? && !st.Looking?)
    && (c.pair.Some? && !c.generated ==> Holds(cluster, store, c))
    && (st.Generating? && i < st.k ==> c.pair.Some? || UserSupplied(c))
    && (st.Saving? || st.Done? ==> c.pair.Some? || UserSupplied(c))
    && (st.Saving? && i < st.k ==> c.pair.None? || Holds(cluster, store, c))
    && (st.Done? ==> c.pair.None? || Holds(cluster, store, c))
  }

  ghost predicate JobOk(cluster: string, store: Store, job: Job) {
    forall i :: 0 <= i < |job.certs| ==> CertOk(cluster, store, job.stage, i, job.certs[i])
  }

  ghost predicate WorldOk(cluster: string, w: World) {
    forall j :: j in w.jobs ==> JobOk(cluster, w.store, w.jobs[j])
  }

  lemma WorldStep(cluster: string, w: World, a: Action)
    requires Enabled(w, a) && WorldOk(cluster, w)
    ensures var t := NextWorld(cluster, w, a); Grows(w.store, t.store) && WorldOk(cluster, t)
  {
  }

  /** Whatever the interleaving, and whichever reads are stale and creates fail: a stored secret never
      changes. */
  lemma {:induction false} WorldRun(cluster: string, w: World, run: seq<Action>)
    requires IsRun(cluster, w, run) && WorldOk(cluster, w)
    ensures Grows(w.store, Exec(cluster, w, run).store) && WorldOk(cluster, Exec(cluster, w, run))
    decreases |run|
  {
    if run != [] {
      WorldStep(cluster, w, run[0]);
      WorldRun(cluster, NextWorld(cluster, w, run[0]), run[1..]);
    }
  }

  /** And a call that succeeded holds, for every purpose, the key pair that is stored, now and for ever;
      so any two calls that succeeded hold the same. Only the user-supplied pair may be missing. */
  lemma SuccessAgrees(cluster: string, store: Store, run: seq<Action>, j: nat, k: nat, i: nat, h: nat)
    requires IsRun(cluster, World(store, map[]), run)
    requires var w := Exec(cluster, World(store, map[]), run);
             && j in w.jobs && k in w.jobs && w.jobs[j].stage.Done? && w.jobs[k].stage.Done?
             && i < |w.jobs[j].certs| && h < |w.jobs[k].certs|
             && w.jobs[j].certs[i].purpose == w.jobs[k].certs[h].purpose
    ensures var w := Exec(cluster, World(store, map[]), run); var c, d := w.jobs[j].certs[i], w.jobs[k].certs[h];
            && (c.pair.Some? ==> Holds(cluster, w.store, c))
            && (c.pair.None? ==> UserSupplied(c))
            && (c.pair.Some? && d.pair.Some? ==> c.pair == d.pair)
  {
    WorldRun(cluster, World(store, map[]), run);
    var w := Exec(cluster, World(store, map[]), run);
    assert CertOk(cluster, w.store, Done, i, w.jobs[j].certs[i]) && CertOk(cluster, w.store, Done, h, w.jobs[k].certs[h]);
  }

  // ---------------------------------------------------------------------------------------------
  // A call can succeed
  // ---------------------------------------------------------------------------------------------

  ghost predicate DistinctPurposes(certs: seq<Certificate>) {
    forall i, j :: 0 <= i < j < |certs| ==> certs[i].purpose != certs[j].purpose
  }

  lemma NamesDiffer(cluster: string, c: Certificate, d: Certificate)
    requires SecretName(cluster, c) == SecretName(cluster, d)
    ensures c.purpose == d.purpose
  {
    var n := SecretName(cluster, c);
    assert n[|cluster| + 1..] == c.purpose && n[|cluster| + 1..] == d.purpose;
  }

  lemma NamesDistinct(cluster: string, certs: seq<Certificate>)
    requires DistinctPurposes(certs)
    ensures forall i, j :: 0 <= i < j < |certs| ==> SecretName(cluster, certs[i]) != SecretName(cluster, certs[j])
  {
    forall i, j | 0 <= i < j < |certs| && SecretName(cluster, certs[i]) == SecretName(cluster, certs[j]) ensures false {
      NamesDiffer(cluster, certs[i], certs[j]);
    }
  }

  ghost predicate WellFormed(store: Store) {
    forall n :: n in store ==> TLSCrtDataName in store[n].data
  }

  ghost predicate InStore(cluster: string, store: Store, c: Certificate) {
    SecretName(cluster, c) in store
  }

  /** Its secret is there and has a certificate. */
  ghost predicate WellStored(cluster: string, store: Store, c: Certificate) {
    InStore(cluster, store, c) && TLSCrtDataName in store[SecretName(cluster, c)].data
  }

  /** The certificates of a call before stage `st` has dealt with those from `k` on. */
  ghost predicate Ongoing(cluster: string, store: Store, certs: seq<Certificate>, st: Stage) {
    DistinctPurposes(certs) && WellFormed(store) &&
    forall i :: 0 <= i < |certs| ==>
      var c := certs[i];
      && (c.external ==> InStore(cluster, store, c))
      && (st.Looking? ==> !c.generated && (c.pair.Some? <==> i < st.k && InStore(cluster, store, c)))
      && (st.Generating? ==> (c.generated ==> i < st.k && c.pair.Some? && !InStore(cluster, store, c)))
      && (st.Generating? && !c.generated ==> (c.pair.Some? <==> InStore(cluster, store, c)) && (i < st.k ==> c.pair.Some? || UserSupplied(c)))
      && (st.Saving? ==> if i < st.k || !c.generated then InStore(cluster, store, c) || UserSupplied(c)
                         else c.pair.Some? && !InStore(cluster, store, c))
      && (st.Done? ==> InStore(cluster, store, c) || UserSupplied(c))
  }

  /** The next call of job `j`, which works. */
  function NextCall(w: World, j: nat, pair: KeyPair): Action
    requires j in w.jobs
  {
    if w.jobs[j].stage.Looking? then Look(j, true, true)
    else if w.jobs[j].stage.Generating? then Gen(j, Some(pair))
    else Save(j, Ok)
  }

  function StageRank(job: Job): nat {
    var n := |job.certs| + 1;
    match job.stage
    case Looking(k) => if k < n then 3 * n - k else 2 * n + 1
    case Generating(k) => if k < n then 2 * n - k else n + 1
    case Saving(k) => if k < n then n - k else 1
    case Done | Failed => 0
  }

  predicate InRange(job: Job) {
    match job.stage
    case Looking(k) => k <= |job.certs|
    case Generating(k) => k <= |job.certs|
    case Saving(k) => k <= |job.certs|
    case Done => true
    case Failed => false
  }

  lemma LookOngoing(cluster: string, store: Store, certs: seq<Certificate>, k: nat)
    requires k < |certs| && Ongoing(cluster, store, certs, Looking(k))
    ensures var o := LookOne(cluster, store, certs[k], true, true);
            o.Next? && Ongoing(cluster, store, certs[k := o.c], Looking(k + 1)) && SameShape(certs, certs[k := o.c])
  {
  }

  lemma GenOngoing(cluster: string, store: Store, certs: seq<Certificate>, k: nat, pair: KeyPair)
    requires k < |certs| && Ongoing(cluster, store, certs, Generating(k))
    ensures var o := GenOne(certs[k], Some(pair));
            o.Next? && Ongoing(cluster, store, certs[k := o.c], Generating(k + 1)) && SameShape(certs, certs[k := o.c])
  {
  }

  lemma SaveOngoing(cluster: string, store: Store, certs: seq<Certificate>, k: nat)
    requires k < |certs| && Ongoing(cluster, store, certs, Saving(k))
    ensures Saved(cluster, store, certs[k], Ok)
    ensures Ongoing(cluster, SaveOne(cluster, store, certs[k], Ok), certs, Saving(k + 1))
  {
    forall i | k < i < |certs| && certs[i].generated ensures SecretName(cluster, certs[i]) != SecretName(cluster, certs[k]) {
      if SecretName(cluster, certs[i]) == SecretName(cluster, certs[k]) {
        NamesDiffer(cluster, certs[i], certs[k]);
      }
    }
  }

  lemma CallWorks(cluster: string, w: World, j: nat, pair: KeyPair) returns (t: World)
    requires j in w.jobs && InRange(w.jobs[j]) && !w.jobs[j].stage.Done? && Ongoing(cluster, w.store, w.jobs[j].certs, w.jobs[j].stage)
    ensures Enabled(w, NextCall(w, j, pair)) && t == NextWorld(cluster, w, NextCall(w, j, pair))
    ensures j in t.jobs && InRange(t.jobs[j]) && Ongoing(cluster, t.store, t.jobs[j].certs, t.jobs[j].stage)
    ensures StageRank(t.jobs[j]) < StageRank(w.jobs[j]) && SameShape(w.jobs[j].certs, t.jobs[j].certs)
  {
    var job := w.jobs[j];
    t := NextWorld(cluster, w, NextCall(w, j, pair));
    if job.stage.k < |job.certs| {
      match job.stage
      case Looking(k) => LookOngoing(cluster, w.store, job.certs, k);
      case Generating(k) => GenOngoing(cluster, w.store, job.certs, k, pair);
      case Saving(k) => SaveOngoing(cluster, w.store, job.certs, k);
    }
  }

  lemma {:induction false} Finishes(cluster: string, w: World, j: nat, pair: KeyPair) returns (run: seq<Action>)
    requires j in w.jobs && InRange(w.jobs[j]) && Ongoing(cluster, w.store, w.jobs[j].certs, w.jobs[j].stage)
    ensures IsRun(cluster, w, run)
    ensures var t := Exec(cluster, w, run);
            j in t.jobs && t.jobs[j].stage.Done? && Ongoing(cluster, t.store, t.jobs[j].certs, Done) && SameShape(w.jobs[j].certs, t.jobs[j].certs)
    decreases StageRank(w.jobs[j])
  {
    if w.jobs[j].stage.Done? {
      run := [];
    } else {
      var a := NextCall(w, j, pair);
      var t := CallWorks(cluster, w, j, pair);
      var more := Finishes(cluster, t, j, pair);
      run := [a] + more;
      assert run[1..] == more;
    }
  }

  /** A call can always succeed: from every world whose secrets have certificates, whatever other calls are under
      way, some run of a new call on distinct purposes, with no external certificate missing, ends well, and
      every purpose that is not user-supplied is then stored. */
  lemma CanSucceed(cluster: string, w: World, j: nat, certs: seq<Certificate>, pair: KeyPair) returns (run: seq<Action>)
    requires j !in w.jobs && Unused(certs) && DistinctPurposes(certs) && WellFormed(w.store)
    requires forall c :: c in certs && c.external ==> SecretName(cluster, c) in w.store
    ensures IsRun(cluster, w, run)
    ensures var t := Exec(cluster, w, run);
            && j in t.jobs && t.jobs[j].stage.Done?
            && forall c :: c in certs && !UserSupplied(c) ==> SecretName(cluster, c) in t.store
  {
    var a := Start(j, certs);
    var s := NextWorld(cluster, w, a);
    var more := Finishes(cluster, s, j, pair);
    run := [a] + more;
    assert run[1..] == more;
    var t := Exec(cluster, w, run);
    forall c | c in certs && !UserSupplied(c) ensures SecretName(cluster, c) in t.store {
      var i :| 0 <= i < |certs| && certs[i] == c;
      assert InStore(cluster, t.store, t.jobs[j].certs[i]) || UserSupplied(t.jobs[j].certs[i]);
    }
  }

  // ---------------------------------------------------------------------------------------------
  // The code, one call
  // ---------------------------------------------------------------------------------------------

  /** How the calls of one LookupOrGenerate end, per certificate. */
  datatype Env = Env(answer: bool, made: Option<KeyPair>, create: Fault)

  /** Of the first `k` certificates the generated ones are stored, each under a name of its own that was not in
      `was`, and nothing else is new. */
  ghost predicate SavedTo(cluster: string, certs: seq<Certificate>, was: Store, store: Store, k: nat)
    requires k <= |certs|
  {
    && Grows(was, store)
    && (forall i :: 0 <= i < k && certs[i].generated && certs[i].pair.Some? ==>
          var n, kp := SecretName(cluster, certs[i]), certs[i].pair.value;
          && n !in was && n in store
          && store[n] == Secret(map[TLSKeyDataName := kp.key, TLSCrtDataName := kp.cert], true))
    && DistinctNames(cluster, certs[..k])
    && (forall n :: n in store && n !in was ==> NewName(cluster, certs[..k], n))
  }

  /** Some generated certificate goes under this name. */
  ghost predicate NewName(cluster: string, certs: seq<Certificate>, n: string) {
    exists i :: 0 <= i < |certs| && certs[i].generated && SecretName(cluster, certs[i]) == n
  }

  /** No two generated certificates go under one name. */
  ghost predicate DistinctNames(cluster: string, certs: seq<Certificate>) {
    forall i, j :: 0 <= i < j < |certs| && certs[i].generated && certs[j].generated ==>
      SecretName(cluster, certs[i]) != SecretName(cluster, certs[j])
  }

  lemma NewNameGrows(cluster: string, certs: seq<Certificate>, k: nat, n: string)
    requires k < |certs|
    ensures NewName(cluster, certs[..k + 1], n) <==>
              NewName(cluster, certs[..k], n) || (certs[k].generated && SecretName(cluster, certs[k]) == n)
  {
    assert certs[..k + 1] == certs[..k] + [certs[k]];
    if NewName(cluster, certs[..k], n) {
      var i :| 0 <= i < k && certs[i].generated && SecretName(cluster, certs[i]) == n;
      assert certs[..k + 1][i] == certs[i];
    }
    if certs[k].generated && SecretName(cluster, certs[k]) == n {
      assert certs[..k + 1][k] == certs[k];
    }
  }

  /** Certificate `k` is stored under a new name. */
  lemma SavedNext(cluster: string, certs: seq<Certificate>, was: Store, store: Store, k: nat)
    requires k < |certs| && SavedTo(cluster, certs, was, store, k) && forall i :: 0 <= i <= k && certs[i].generated ==> certs[i].pair.Some?
    requires certs[k].generated && SecretName(cluster, certs[k]) !in store
    ensures SavedTo(cluster, certs, was, store[SecretName(cluster, certs[k]) := AsSecret(certs[k])], k + 1)
  {
    var t := store[SecretName(cluster, certs[k]) := AsSecret(certs[k])];
    forall n | n in t && n !in was ensures NewName(cluster, certs[..k + 1], n) {
      NewNameGrows(cluster, certs, k, n);
    }
    forall i | 0 <= i < k && certs[i].generated ensures SecretName(cluster, certs[i]) != SecretName(cluster, certs[k]) {
      Taken(cluster, certs, was, store, k, i);
    }
  }

  lemma Taken(cluster: string, certs: seq<Certificate>, was: Store, store: Store, k: nat, i: nat)
    requires i < k <= |certs| && SavedTo(cluster, certs, was, store, k) && certs[i].generated && certs[i].pair.Some?
    ensures SecretName(cluster, certs[i]) in store
  {
  }

  lemma SavedSkip(cluster: string, certs: seq<Certificate>, was: Store, store: Store, k: nat)
    requires k < |certs| && SavedTo(cluster, certs, was, store, k) && !certs[k].generated
    ensures SavedTo(cluster, certs, was, store, k + 1)
  {
    forall n | n in store && n !in was ensures NewName(cluster, certs[..k + 1], n) {
      NewNameGrows(cluster, certs, k, n);
    }
  }

  /** Nothing is new but under names of generated certificates. */
  ghost predicate OnlyNew(cluster: string, certs: seq<Certificate>, was: Store, store: Store) {
    Grows(was, store) && forall n :: n in store && n !in was ==> NewName(cluster, certs, n)
  }

  lemma SavedOnlyNew(cluster: string, certs: seq<Certificate>, was: Store, store: Store, k: nat)
    requires k <= |certs| && SavedTo(cluster, certs, was, store, k)
    ensures OnlyNew(cluster, certs, was, store)
  {
    forall n | n in store && n !in was ensures NewName(cluster, certs, n) {
      var i :| 0 <= i < k && certs[..k][i].generated && SecretName(cluster, certs[..k][i]) == n;
      assert certs[i] == certs[..k][i];
    }
  }

  /** A name that is taken was so before, or is that of an earlier certificate. */
  lemma SavedClash(cluster: string, certs: seq<Certificate>, was: Store, store: Store, k: nat)
    requires k < |certs| && SavedTo(cluster, certs, was, store, k) && certs[k].generated && SecretName(cluster, certs[k]) in store
    ensures SecretName(cluster, certs[k]) in was || !DistinctNames(cluster, certs)
  {
    if SecretName(cluster, certs[k]) !in was {
      var i :| 0 <= i < k && certs[..k][i].generated && SecretName(cluster, certs[..k][i]) == SecretName(cluster, certs[k]);
      assert certs[i] == certs[..k][i];
    }
  }

  /** The creates of the first `k` certificates succeed where they have to be made. */
  ghost predicate CreatesOk(certs: seq<Certificate>, env: seq<Env>, k: nat)
    requires |env| == |certs| && k <= |certs|
  {
    forall i :: 0 <= i < k && certs[i].generated ==> env[i].create.Ok?
  }

  lemma SavedAll(cluster: string, certs: seq<Certificate>, was: Store, store: Store, env: seq<Env>)
    requires |env| == |certs| && SavedTo(cluster, certs, was, store, |certs|) && CreatesOk(certs, env, |certs|)
    requires forall i :: 0 <= i < |certs| && certs[i].generated ==> certs[i].pair.Some?
    ensures SaveOk(cluster, was, certs, env)
  {
    assert certs[..|certs|] == certs;
  }

  /** What looking up and generating make of a list. */
  ghost predicate Prepared(cluster: string, store: Store, certs: seq<Certificate>, certs': seq<Certificate>) {
    SameShape(certs, certs') &&
    forall i :: 0 <= i < |certs| ==>
      if InStore(cluster, store, certs[i]) then Holds(cluster, store, certs'[i]) && certs'[i].generated == certs[i].generated
      else if certs[i].pair.Some? || UserSupplied(certs[i]) then certs'[i] == certs[i]
      else certs'[i].pair.Some? && certs'[i].generated
  }

  /** Everything is read; what is stored has a certificate; what is not can be generated or need not be. */
  ghost predicate PrepareOk(cluster: string, store: Store, certs: seq<Certificate>, env: seq<Env>)
    requires |env| == |certs|
  {
    forall i :: 0 <= i < |certs| ==>
      && env[i].answer
      && if InStore(cluster, store, certs[i]) then WellStored(cluster, store, certs[i])
         else !certs[i].external && (certs[i].pair.Some? || env[i].made.Some? || UserSupplied(certs[i]))
  }

  /** Every generated certificate can be created. */
  ghost predicate SaveOk(cluster: string, store: Store, certs: seq<Certificate>, env: seq<Env>)
    requires |env| == |certs|
  {
    && DistinctNames(cluster, certs)
    && forall i :: 0 <= i < |certs| && certs[i].generated ==> SecretName(cluster, certs[i]) !in store && env[i].create.Ok?
  }

  /** When a call on a new list succeeds. */
  ghost predicate NewListOk(cluster: string, store: Store, certs: seq<Certificate>, env: seq<Env>)
    requires |env| == |certs|
  {
    forall i :: 0 <= i < |certs| ==>
      && env[i].answer
      && if SecretName(cluster, certs[i]) in store then TLSCrtDataName in store[SecretName(cluster, certs[i])].data
         else !certs[i].external && (UserSupplied(certs[i]) || (env[i].made.Some? && env[i].create.Ok?))
  }

  lemma NewListIff(cluster: string, store: Store, certs: seq<Certificate>, certs': seq<Certificate>, env: seq<Env>)
    requires |env| == |certs| && Prepared(cluster, store, certs, certs') && PrepareOk(cluster, store, certs, env)
    requires Unused(certs) && DistinctPurposes(certs)
    ensures SaveOk(cluster, store, certs', env) <==> NewListOk(cluster, store, certs, env)
  {
    NewListPrepared(cluster, store, certs, certs');
    assert forall i :: 0 <= i < |certs| ==> certs[i] in certs;
  }

  lemma NewListPrepares(cluster: string, store: Store, certs: seq<Certificate>, env: seq<Env>)
    requires |env| == |certs| && NewListOk(cluster, store, certs, env)
    ensures PrepareOk(cluster, store, certs, env)
  {
  }

  /** A list that holds what is stored and is prepared again. */
  lemma AgainIff(cluster: string, store: Store, certs: seq<Certificate>, certs': seq<Certificate>, env: seq<Env>)
    requires |env| == |certs| && Prepared(cluster, store, certs, certs') && forall i :: 0 <= i < |certs| ==> Holds(cluster, store, certs[i])
    ensures certs' == certs && (SaveOk(cluster, store, certs', env) <==> forall i :: 0 <= i < |certs| ==> !certs[i].generated)
  {
    PreparedAgain(cluster, store, certs, certs');
  }

  lemma NewListPrepared(cluster: string, store: Store, certs: seq<Certificate>, certs': seq<Certificate>)
    requires Prepared(cluster, store, certs, certs') && Unused(certs)
    ensures forall i :: 0 <= i < |certs| ==>
              (certs'[i].generated <==> !InStore(cluster, store, certs[i]) && !UserSupplied(certs[i]))
    ensures DistinctPurposes(certs) ==> DistinctNames(cluster, certs')
  {
    assert forall i :: 0 <= i < |certs| ==> certs[i] in certs;
    if DistinctPurposes(certs) {
      NamesDistinct(cluster, certs');
    }
  }

  /** What a call that succeeds holds. */
  lemma PreparedHolds(cluster: string, store: Store, certs: seq<Certificate>, certs': seq<Certificate>, store': Store)
    requires Prepared(cluster, store, certs, certs') && SavedTo(cluster, certs', store, store', |certs'|)
    ensures forall i :: 0 <= i < |certs| ==>
              if certs'[i].pair.None? then UserSupplied(certs'[i])
              else Holds(cluster, store', certs'[i]) || (certs'[i] == certs[i] && !InStore(cluster, store, certs[i]))
    ensures Unused(certs) ==> forall i :: 0 <= i < |certs| ==>
              if certs'[i].pair.None? then UserSupplied(certs'[i]) else Holds(cluster, store', certs'[i])
  {
    assert forall i :: 0 <= i < |certs| ==> certs[i] in certs;
    forall i | 0 <= i < |certs| && certs'[i].pair.Some? && certs'[i].generated ensures Holds(cluster, store', certs'[i]) {
      SecretRoundTrip(certs'[i]);
    }
  }

  /** A list that holds what is stored is not changed. */
  lemma PreparedAgain(cluster: string, store: Store, certs: seq<Certificate>, certs': seq<Certificate>)
    requires Prepared(cluster, store, certs, certs') && forall i :: 0 <= i < |certs| ==> Holds(cluster, store, certs[i])
    ensures certs' == certs
  {
  }

  lemma NothingNew(cluster: string, certs: seq<Certificate>, was: Store, store: Store)
    requires OnlyNew(cluster, certs, was, store)
    requires forall i :: 0 <= i < |certs| && certs[i].generated ==> InStore(cluster, was, certs[i])
    ensures store == was
  {
  }

  lemma GeneratedHasPair(cluster: string, store: Store, certs: seq<Certificate>, certs': seq<Certificate>)
    requires Prepared(cluster, store, certs, certs') && forall c :: c in certs && c.generated ==> c.pair.Some?
    ensures forall i :: 0 <= i < |certs'| && certs'[i].generated ==> certs'[i].pair.Some?
  {
    assert forall i :: 0 <= i < |certs| ==> certs[i] in certs;
  }

  /** A call from `was` and `before` to `store` and `certs`. */
  ghost predicate CallResult(cluster: string, was: Store, before: seq<Certificate>, env: seq<Env>, store: Store, certs: seq<Certificate>, ok: bool)
    requires |env| == |before|
  {
    && SameShape(before, certs) && Grows(was, store)
    && if !PrepareOk(cluster, was, before, env) then !ok && store == was
       else && Prepared(cluster, was, before, certs) && ok == SaveOk(cluster, was, certs, env)
            && (ok ==> SavedTo(cluster, certs, was, store, |certs|))
            && OnlyNew(cluster, certs, was, store)
  }

  /** Every certificate is what is stored, but for a pair that was given and is not stored. */
  ghost predicate HoldsStored(cluster: string, was: Store, before: seq<Certificate>, store: Store, certs: seq<Certificate>)
    requires |before| == |certs|
  {
    forall i :: 0 <= i < |certs| ==>
      if certs[i].pair.None? then UserSupplied(certs[i])
      else Holds(cluster, store, certs[i]) || (certs[i] == before[i] && SecretName(cluster, before[i]) !in was)
  }

  /** Every certificate but a user-supplied one is stored and held. */
  ghost predicate AllStored(cluster: string, store: Store, certs: seq<Certificate>) {
    forall i :: 0 <= i < |certs| ==> if certs[i].pair.None? then UserSupplied(certs[i]) else Holds(cluster, store, certs[i])
  }

  /** All are read and found, with a certificate in each secret. */
  ghost predicate AllFound(cluster: string, store: Store, certs: seq<Certificate>, env: seq<Env>)
    requires |env| == |certs|
  {
    forall i :: 0 <= i < |certs| ==> env[i].answer && WellStored(cluster, store, certs[i])
  }

  /** All are read, and the list holds what is stored. */
  ghost predicate AllHeld(cluster: string, store: Store, certs: seq<Certificate>, env: seq<Env>)
    requires |env| == |certs|
  {
    forall i :: 0 <= i < |certs| ==> env[i].answer && Holds(cluster, store, certs[i])
  }

  ghost predicate NoneGenerated(certs: seq<Certificate>) {
    forall i :: 0 <= i < |certs| ==> !certs[i].generated
  }

  lemma ResultOfNew(cluster: string, was: Store, before: seq<Certificate>, env: seq<Env>, store: Store, certs: seq<Certificate>, ok: bool)
    requires |env| == |before| && CallResult(cluster, was, before, env, store, certs, ok) && Unused(before) && DistinctPurposes(before)
    ensures ok == NewListOk(cluster, was, before, env)
  {
    if PrepareOk(cluster, was, before, env) {
      NewListIff(cluster, was, before, certs, env);
    } else if NewListOk(cluster, was, before, env) {
      NewListPrepares(cluster, was, before, env);
    }
  }

  lemma ResultOfFound(cluster: string, was: Store, before: seq<Certificate>, env: seq<Env>, store: Store, certs: seq<Certificate>, ok: bool)
    requires |env| == |before| && CallResult(cluster, was, before, env, store, certs, ok) && Unused(before) && AllFound(cluster, was, before, env)
    ensures ok && store == was && NoneGenerated(certs)
  {
    assert PrepareOk(cluster, was, before, env);
    NewListPrepared(cluster, was, before, certs);
    NothingNew(cluster, certs, was, store);
  }

  lemma ResultOfHeld(cluster: string, was: Store, before: seq<Certificate>, env: seq<Env>, store: Store, certs: seq<Certificate>, ok: bool)
    requires |env| == |before| && CallResult(cluster, was, before, env, store, certs, ok) && AllHeld(cluster, was, before, env)
    ensures store == was && certs == before && ok == NoneGenerated(certs)
  {
    assert PrepareOk(cluster, was, before, env);
    AgainIff(cluster, was, before, certs, env);
    NothingNew(cluster, certs, was, store);
  }

  lemma ResultOfSuccess(cluster: string, was: Store, before: seq<Certificate>, env: seq<Env>, store: Store, certs: seq<Certificate>)
    requires |env| == |before| && CallResult(cluster, was, before, env, store, certs, true)
    ensures HoldsStored(cluster, was, before, store, certs) && (Unused(before) ==> AllStored(cluster, store, certs))
  {
    PreparedHolds(cluster, was, before, certs, store);
  }

  class Bootstrap {
    const cluster: string
    var store: Store
    var certs: seq<Certificate>

    constructor (cluster: string, store: Store, certs: seq<Certificate>)
      ensures this.cluster == cluster && this.store == store && this.certs == certs
    {
      this.cluster, this.store, this.certs := cluster, store, certs;
    }

    /** Fills in what is stored, and fails for an external certificate that is not. */
    method Lookup(env: seq<Env>) returns (ok: bool)
      requires |env| == |certs|
      modifies this`certs
      ensures SameShape(old(certs), certs)
      ensures forall i :: 0 <= i < |certs| ==> certs[i] == old(certs)[i] || Holds(cluster, store, certs[i])
      ensures forall i :: 0 <= i < |certs| ==> certs[i].generated == old(certs)[i].generated
      ensures ok <==> forall i :: 0 <= i < |certs| ==>
                env[i].answer && if InStore(cluster, store, certs[i]) then WellStored(cluster, store, certs[i]) else !old(certs)[i].external
      ensures ok ==> forall i :: 0 <= i < |certs| ==>
                if SecretName(cluster, certs[i]) in store then Holds(cluster, store, certs[i]) else certs[i] == old(certs)[i]
    {
      for i := 0 to |certs|
        invariant |certs| == |old(certs)|
        invariant forall j :: i <= j < |certs| ==> certs[j] == old(certs)[j]
        invariant forall j :: 0 <= j < i ==> LookOne(cluster, store, old(certs)[j], env[j].answer, true) == Next(certs[j])
      {
        var o := LookOne(cluster, store, certs[i], env[i].answer, true);
        if o.Error? {
          return false;
        }
        certs := certs[i := o.c];
      }
      return true;
    }

    /** Generates what is missing and nothing else. */
    method Generate(env: seq<Env>) returns (ok: bool)
      requires |env| == |certs|
      modifies this`certs
      ensures SameShape(old(certs), certs)
      ensures forall i :: 0 <= i < |certs| ==>
                || certs[i] == old(certs)[i]
                || (old(certs)[i].pair.None? && !UserSupplied(certs[i]) && certs[i].pair == env[i].made && certs[i].generated)
      ensures ok ==> forall i :: 0 <= i < |certs| ==> certs[i].pair.Some? || UserSupplied(certs[i])
      ensures ok <==> forall i :: 0 <= i < |certs| ==> old(certs)[i].pair.Some? || env[i].made.Some? || UserSupplied(certs[i])
      ensures ok ==> forall i :: 0 <= i < |certs| ==>
                (certs[i].generated <==> old(certs)[i].generated || (old(certs)[i].pair.None? && !UserSupplied(certs[i])))
    {
      for i := 0 to |certs|
        invariant |certs| == |old(certs)|
        invariant forall j :: i <= j < |certs| ==> certs[j] == old(certs)[j]
        invariant forall j :: 0 <= j < i ==> GenOne(old(certs)[j], env[j].made) == Next(certs[j])
      {
        var o := GenOne(certs[i], env[i].made);
        if o.Error? {
          return false;
        }
        certs := certs[i := o.c];
      }
      return true;
    }

    /** Creates a secret for every certificate that was generated; never changes one that is stored.  It succeeds
        exactly when no such secret is there yet, no two are for one name, and every create succeeds. */
    method SaveGenerated(env: seq<Env>) returns (ok: bool)
      requires |env| == |certs|
      requires forall i :: 0 <= i < |certs| && certs[i].generated ==> certs[i].pair.Some?
      modifies this`store
      ensures OnlyNew(cluster, certs, old(store), store) && (ok ==> SavedTo(cluster, certs, old(store), store, |certs|))
      ensures ok == SaveOk(cluster, old(store), certs, env)
    {
      ghost var was := store;
      for i := 0 to |certs|
        invariant SavedTo(cluster, certs, was, store, i) && CreatesOk(certs, env, i)
      {
        SavedOnlyNew(cluster, certs, was, store, i);
        if certs[i].generated {
          if SecretName(cluster, certs[i]) in store {
            SavedClash(cluster, certs, was, store, i);
            return false;
          }
          SavedNext(cluster, certs, was, store, i);
          if !env[i].create.Rejected? {
            store := store[SecretName(cluster, certs[i]) := AsSecret(certs[i])];
            SavedOnlyNew(cluster, certs, was, store, i + 1);
          }
          if !env[i].create.Ok? {
            return false;
          }
        } else {
          SavedSkip(cluster, certs, was, store, i);
        }
      }
      SavedOnlyNew(cluster, certs, was, store, |certs|);
      SavedAll(cluster, certs, was, store, env);
      return true;
    }

    /** Looks up, then generates what is missing. */
    method Prepare(env: seq<Env>) returns (ok: bool)
      requires |env| == |certs|
      modifies this`certs
      ensures SameShape(old(certs), certs) && (ok ==> Prepared(cluster, store, old(certs), certs))
      ensures ok == PrepareOk(cluster, store, old(certs), env)
    {
      ok := Lookup(env);
      if ok {
        ok := Generate(env);
      }
    }

    /** A call on a new list succeeds exactly when every secret that is there has a certificate, every external
        certificate is there, and what is missing can be generated and created; everything but the user-supplied
        pair is then stored.
        A call that succeeds holds what is stored, but for a pair that it was given and that is not stored.
        A call on a new list that finds everything stored generates nothing and leaves the store alone.
        A call that repeats a successful one with the same list changes nothing either, and then fails
        exactly when the list has something generated, which it tries to create again. */
    method LookupOrGenerate(env: seq<Env>) returns (ok: bool)
      requires |env| == |certs| && forall c :: c in certs && c.generated ==> c.pair.Some?
      modifies this`store, this`certs
      ensures Grows(old(store), store) && SameShape(old(certs), certs)
      ensures Unused(old(certs)) && DistinctPurposes(old(certs)) ==> ok == NewListOk(cluster, old(store), old(certs), env)
      ensures ok ==> HoldsStored(cluster, old(store), old(certs), store, certs)
      ensures ok && Unused(old(certs)) ==> AllStored(cluster, store, certs)
      ensures Unused(old(certs)) && AllFound(cluster, old(store), old(certs), env) ==> ok && store == old(store) && NoneGenerated(certs)
      ensures AllHeld(cluster, old(store), old(certs), env) ==>
                store == old(store) && certs == old(certs) && ok == NoneGenerated(certs)
    {
      ghost var before, was := certs, store;
      ok := Prepare(env);
      if ok {
        GeneratedHasPair(cluster, was, before, certs);
        ok := SaveGenerated(env);
      }
      assert CallResult(cluster, was, before, env, store, certs, ok);
      if Unused(before) && DistinctPurposes(before) {
        ResultOfNew(cluster, was, before, env, store, certs, ok);
      }
      if Unused(before) && AllFound(cluster, was, before, env) {
        ResultOfFound(cluster, was, before, env, store, certs, ok);
      }
      if AllHeld(cluster, was, before, env) {
        ResultOfHeld(cluster, was, before, env, store, certs, ok);
      }
      if ok {
        ResultOfSuccess(cluster, was, before, env, store, certs);
      }
    }
  }
}
