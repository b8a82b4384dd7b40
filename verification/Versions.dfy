/** The version gate of in-place upgrades, and what it means for a chain of upgrades. */
module Versions {
  import opened Common

  // Version numbers are 64-bit in the source; its `+ 1` wraps.
  const Limit: nat := 0x1_0000_0000_0000_0000

  newtype Word = x: int | 0 <= x < 0x1_0000_0000_0000_0000

  datatype Version = Version(major: Word, minor: Word, patch: Word)

  /** Precedence of section 11 of Semantic Versioning 2.0.0, on major, minor and patch. */
  predicate Greater(a: Version, b: Version) {
    || a.major > b.major
    || (a.major == b.major && (a.minor > b.minor || (a.minor == b.minor && a.patch > b.patch)))
  }

  function Successor(w: Word): Word {
    if w as int + 1 == Limit then 0 else w + 1
  }

  datatype GateError = BadNewVersion | BadOldVersion | SameVersion | SkipsMinor

  /** A missing node info is reported and then dereferenced. */
  datatype Verdict = Panics | Errors(list: seq<GateError>)

  const Zero := Version(0, 0, 0)

  function Parsed(v: Option<Version>): Version {
    if v.Some? then v.value else Zero
  }

  /** An upgrade from `old` to `new` that the gate lets through. */
  predicate Allowed(old_: Version, new_: Version) {
    && new_.major == old_.major
    && (new_.minor as int == old_.minor as int + 1 || (new_.minor == old_.minor && new_.patch > old_.patch))
  }

  /** Whether an instance with this kubelet version may be asked for that version. */
  predicate Accepts(kubelet: Option<Version>, requested: Option<Version>) {
    kubelet.Some? && requested.Some? && Allowed(kubelet.value, requested.value)
  }

  /** annotation: the requested version, None without the annotation, Some(None) if it does not parse;
      kubelet: the same for the kubelet version of the node info.
      An update is accepted exactly when it requests nothing, or an allowed upgrade. */
  method ValidateUpdate(annotation: Option<Option<Version>>, kubelet: Option<Option<Version>>) returns (r: Verdict)
    ensures r.Panics? <==> annotation.Some? && kubelet.None?
    ensures r == Errors([]) <==>
      annotation.None? || (kubelet.Some? && Accepts(kubelet.value, annotation.value))
    ensures annotation.Some? && annotation.value.Some? && kubelet.Some? && kubelet.value.Some? ==>
      var n, o := annotation.value.value, kubelet.value.value;
      var accepted := n.major == o.major &&
                      (n.minor as int == o.minor as int + 1 || (n.minor == o.minor && n.patch as int > o.patch as int));
      && (r == Errors([]) <==> accepted)
      && r.Errors? && (SameVersion in r.list <==> n == o) && (SkipsMinor in r.list <==> !accepted)
    ensures annotation.Some? && kubelet.Some? ==>
      r.Errors? && (BadNewVersion in r.list <==> annotation.value.None?) && (BadOldVersion in r.list <==> kubelet.value.None?)
  {
    var errs: seq<GateError> := [];
    if annotation.Some? {
      if kubelet.None? {
        return Panics;
      }
      if annotation.value.None? {
        errs := errs + [BadNewVersion];
      }
      if kubelet.value.None? {
        errs := errs + [BadOldVersion];
      }
      var n, o := Parsed(annotation.value), Parsed(kubelet.value);
      if n == o {
        errs := errs + [SameVersion];
      }
      if !(Greater(n, o) && n.major == o.major && (n.minor == Successor(o.minor) || n.minor == o.minor)) {
        errs := errs + [SkipsMinor];
      }
    }
    return Errors(errs);
  }

  // ---------------------------------------------------------------------------------------------
  // Chains of upgrades
  // ---------------------------------------------------------------------------------------------

  /** The versions a host runs, one accepted upgrade after the other. */
  ghost predicate Chain(vs: seq<Version>) {
    forall i :: 0 <= i < |vs| - 1 ==> Allowed(vs[i], vs[i + 1])
  }

  /** The version strictly increases, so none comes back. */
  lemma {:induction false} ChainIncreases(vs: seq<Version>, i: nat, j: nat)
    requires Chain(vs) && i < j < |vs|
    ensures vs[j].major == vs[i].major
    ensures vs[j].minor > vs[i].minor || (vs[j].minor == vs[i].minor && vs[j].patch > vs[i].patch)
    decreases j
  {
    assert Allowed(vs[j - 1], vs[j - 1 + 1]);
    if i < j - 1 {
      ChainIncreases(vs, i, j - 1);
    }
  }

  lemma {:induction false} ChainMajor(vs: seq<Version>, i: nat, j: nat)
    requires Chain(vs) && i <= j < |vs|
    ensures vs[j].major == vs[i].major && vs[i].minor <= vs[j].minor
    decreases j
  {
    if i < j {
      assert Allowed(vs[j - 1], vs[j - 1 + 1]);
      ChainMajor(vs, i, j - 1);
    }
  }

  /** Every minor version on the way is visited. */
  lemma {:induction false} ChainVisits(vs: seq<Version>, i: nat, j: nat, m: Word) returns (k: nat)
    requires Chain(vs) && i <= j < |vs| && vs[i].minor <= m <= vs[j].minor
    ensures i <= k <= j && vs[k].minor == m
    decreases j
  {
    if vs[j].minor == m {
      k := j;
    } else {
      assert i < j && Allowed(vs[j - 1], vs[j - 1 + 1]);
      k := ChainVisits(vs, i, j - 1, m);
    }
  }

  /** So a chain over `d` minor versions has at least `d` upgrades. */
  lemma {:induction false} ChainLength(vs: seq<Version>, i: nat, j: nat)
    requires Chain(vs) && i <= j < |vs|
    ensures vs[j].minor as int - vs[i].minor as int <= j - i
    decreases j
  {
    if i < j {
      assert Allowed(vs[j - 1], vs[j - 1 + 1]);
      ChainLength(vs, i, j - 1);
    }
  }
}
