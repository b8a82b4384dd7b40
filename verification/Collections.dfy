/** Sets of KKInstances, kept in a map by name: filters, and the sort by age. */
module Collections {
  import opened Common

  datatype KKInstance = KKInstance(name: string, created: int, controlPlane: bool, owned: bool, deleting: bool)

  type KKInstances = map<string, KKInstance>

  type Func = KKInstance -> bool

  /** Every instance is stored under its name. */
  ghost predicate Keyed(s: KKInstances) {
    forall n :: n in s ==> s[n].name == n
  }

  // ---------------------------------------------------------------------------------------------
  // Order
  // ---------------------------------------------------------------------------------------------

  /** The order of strings, character by character. */
  predicate Before(a: string, b: string) {
    b != "" && (a == "" || a[0] < b[0] || (a[0] == b[0] && Before(a[1..], b[1..])))
  }

  predicate Less(x: KKInstance, y: KKInstance) {
    if x.created == y.created then Before(x.name, y.name) else x.created < y.created
  }

  lemma {:induction false} BeforeTotal(a: string, b: string)
    ensures Before(a, b) || Before(b, a) || a == b
    ensures !(Before(a, b) && Before(b, a)) && (Before(a, b) ==> a != b)
    decreases |a|
  {
    if a != "" && b != "" {
      BeforeTotal(a[1..], b[1..]);
      assert a == [a[0]] + a[1..] && b == [b[0]] + b[1..];
    }
  }

  lemma {:induction false} BeforeTransitive(a: string, b: string, c: string)
    requires Before(a, b) && Before(b, c)
    ensures Before(a, c)
    decreases |a|
  {
    if a != "" && a[0] == b[0] == c[0] {
      BeforeTransitive(a[1..], b[1..], c[1..]);
    }
  }

  /** The first `k` characters are the same; then `a` ends, or has the smaller character. */
  ghost predicate DiffersAt(a: string, b: string, k: nat) {
    k <= |a| && k < |b| && (forall j :: 0 <= j < k ==> a[j] == b[j]) && (k == |a| || a[k] < b[k])
  }

  /** The order of strings is the lexicographic one. */
  lemma {:induction false} BeforeIff(a: string, b: string)
    ensures Before(a, b) <==> exists k: nat :: DiffersAt(a, b, k)
    decreases |a|
  {
    if a == "" || b == "" || a[0] != b[0] {
      if Before(a, b) {
        assert DiffersAt(a, b, 0);
      }
    } else {
      BeforeIff(a[1..], b[1..]);
      if k: nat :| DiffersAt(a[1..], b[1..], k) {
        assert forall j :: 0 < j < k + 1 ==> a[j] == a[1..][j - 1] && b[j] == b[1..][j - 1];
        assert DiffersAt(a, b, k + 1);
      }
      if k: nat :| DiffersAt(a, b, k) {
        assert k > 0 && DiffersAt(a[1..], b[1..], k - 1);
      }
    }
  }

  /** Created before, or at the same time with a smaller name. */
  ghost predicate Older(x: KKInstance, y: KKInstance) {
    x.created < y.created || (x.created == y.created && exists k: nat :: DiffersAt(x.name, y.name, k))
  }

  lemma LessIsOlder(x: KKInstance, y: KKInstance)
    ensures Less(x, y) <==> Older(x, y)
  {
    BeforeIff(x.name, y.name);
  }

  lemma LessTotal(x: KKInstance, y: KKInstance)
    ensures Less(x, y) || Less(y, x) || (x.created == y.created && x.name == y.name)
    ensures !(Less(x, y) && Less(y, x)) && (Less(x, y) ==> x != y)
  {
    BeforeTotal(x.name, y.name);
  }

  lemma LessTransitive(x: KKInstance, y: KKInstance, z: KKInstance)
    requires Less(x, y) && Less(y, z)
    ensures Less(x, z)
  {
    if x.created == y.created == z.created {
      BeforeTransitive(x.name, y.name, z.name);
    }
  }

  ghost predicate Sorted(a: seq<KKInstance>) {
    forall i, j :: 0 <= i < j < |a| ==> Less(a[i], a[j])
  }

  /** There is only one sorted list of a set of instances. */
  lemma {:induction false} SortedUnique(a: seq<KKInstance>, b: seq<KKInstance>)
    requires Sorted(a) && Sorted(b) && forall x :: x in a <==> x in b
    ensures a == b
    decreases |a|
  {
    if b != [] {
      assert b[0] in b && b[0] in a;
    }
    if a != [] {
      assert a[0] in b && b != [];
      assert b[0] in a;
      var i :| 0 <= i < |b| && b[i] == a[0];
      var j :| 0 <= j < |a| && a[j] == b[0];
      LessTotal(a[0], b[0]);
      forall x ensures x in a[1..] <==> x in b[1..] {
        TailMember(a, x);
        TailMember(b, x);
      }
      SortedUnique(a[1..], b[1..]);
      assert a == [a[0]] + a[1..] && b == [b[0]] + b[1..];
    }
  }

  lemma TailMember(a: seq<KKInstance>, x: KKInstance)
    requires Sorted(a) && a != []
    ensures x in a[1..] <==> x in a && x != a[0]
  {
    if x in a && x != a[0] {
      var k :| 0 <= k < |a| && a[k] == x;
      assert a[1..][k - 1] == x;
    }
    if x in a[1..] {
      var k :| 0 <= k < |a[1..]| && a[1..][k] == x;
      LessTotal(a[0], a[k + 1]);
    }
  }

  // ---------------------------------------------------------------------------------------------
  // Sorting
  // ---------------------------------------------------------------------------------------------

  function Place(a: seq<KKInstance>, x: KKInstance): seq<KKInstance> {
    if a == [] || Less(x, a[0]) then [x] + a else [a[0]] + Place(a[1..], x)
  }

  lemma {:induction false} PlaceMembers(a: seq<KKInstance>, x: KKInstance, y: KKInstance)
    ensures y in Place(a, x) <==> y in a || y == x
    decreases |a|
  {
    if a != [] && !Less(x, a[0]) {
      PlaceMembers(a[1..], x, y);
      assert a == [a[0]] + a[1..];
    }
  }

  lemma {:induction false} PlaceSorted(a: seq<KKInstance>, x: KKInstance)
    requires Sorted(a) && forall y :: y in a ==> y.name != x.name
    ensures Sorted(Place(a, x))
    decreases |a|
  {
    if a != [] && !Less(x, a[0]) {
      LessTotal(x, a[0]);
      PlaceSorted(a[1..], x);
      var rest := Place(a[1..], x);
      forall k | 0 <= k < |rest| ensures Less(a[0], rest[k]) {
        PlaceMembers(a[1..], x, rest[k]);
      }
    } else if a != [] {
      forall k | 0 <= k < |a| ensures Less(x, a[k]) {
        if k > 0 {
          LessTransitive(x, a[0], a[k]);
        }
      }
    }
  }

  ghost predicate DistinctNames(a: seq<KKInstance>) {
    forall i, j :: 0 <= i < j < |a| ==> a[i].name != a[j].name
  }

  /** The values in the order in which a map happens to be walked. */
  method UnsortedList(s: KKInstances) returns (res: seq<KKInstance>)
    requires Keyed(s)
    ensures DistinctNames(res) && (forall x :: x in res <==> x in s.Values) && |res| == |s|
  {
    res := [];
    var rest := s.Keys;
    while rest != {}
      invariant rest <= s.Keys && |res| + |rest| == |s|
      invariant forall k :: 0 <= k < |res| ==> res[k].name in s && res[k].name !in rest && s[res[k].name] == res[k]
      invariant forall n :: n in s && n !in rest ==> s[n] in res
      invariant DistinctNames(res)
    {
      var n :| n in rest;
      rest := rest - {n};
      res := res + [s[n]];
    }
  }

  /** Stands for the library's sort. */
  method Sort(list: seq<KKInstance>) returns (res: seq<KKInstance>)
    requires DistinctNames(list)
    ensures Sorted(res) && (forall x :: x in res <==> x in list) && |res| == |list|
  {
    res := [];
    for i := 0 to |list|
      invariant Sorted(res) && |res| == i
      invariant forall x :: x in res <==> x in list[..i]
    {
      assert forall y :: y in res ==> y.name != list[i].name;
      PlaceSorted(res, list[i]);
      forall x ensures x in Place(res, list[i]) <==> x in list[..i + 1] {
        PlaceMembers(res, list[i], x);
        assert list[..i + 1] == list[..i] + [list[i]];
      }
      PlaceLength(res, list[i]);
      res := Place(res, list[i]);
    }
    assert list[..|list|] == list;
  }

  lemma {:induction false} PlaceLength(a: seq<KKInstance>, x: KKInstance)
    ensures |Place(a, x)| == |a| + 1
    decreases |a|
  {
    if a != [] && !Less(x, a[0]) {
      PlaceLength(a[1..], x);
    }
  }

  /** The result is the one sorted list of the instances: it does not depend on the order of the map. */
  method SortedByCreationTimestamp(s: KKInstances) returns (res: seq<KKInstance>)
    requires Keyed(s)
    ensures forall i, j :: 0 <= i < j < |res| ==> Older(res[i], res[j])
    ensures Sorted(res) && |res| == |s| && forall x :: x in res <==> x in s.Values
    ensures forall other :: Sorted(other) && (forall x :: x in other <==> x in s.Values) ==> other == res
  {
    var list := UnsortedList(s);
    res := Sort(list);
    forall i, j | 0 <= i < j < |res| ensures Older(res[i], res[j]) {
      LessIsOlder(res[i], res[j]);
    }
    forall other | Sorted(other) && (forall x :: x in other <==> x in s.Values) ensures other == res {
      SortedUnique(other, res);
    }
  }

  /** The instance that is before all others. */
  method Oldest(s: KKInstances) returns (r: Option<KKInstance>)
    requires Keyed(s)
    ensures r.None? <==> s == map[]
    ensures r.Some? ==> r.value in s.Values && forall x :: x in s.Values && x != r.value ==> Older(r.value, x)
  {
    if |s| == 0 {
      return None;
    }
    var list := SortedByCreationTimestamp(s);
    assert list[0] in list;
    forall x | x in s.Values && x != list[0] ensures Older(list[0], x) {
      var k :| 0 <= k < |list| && list[k] == x;
      LessIsOlder(list[0], x);
    }
    return Some(list[0]);
  }

  /** The instance that is after all others. */
  method Newest(s: KKInstances) returns (r: Option<KKInstance>)
    requires Keyed(s)
    ensures r.None? <==> s == map[]
    ensures r.Some? ==> r.value in s.Values && forall x :: x in s.Values && x != r.value ==> Older(x, r.value)
  {
    if |s| == 0 {
      return None;
    }
    var list := SortedByCreationTimestamp(s);
    var last := list[|s| - 1];
    assert last in list;
    forall x | x in s.Values && x != last ensures Older(x, last) {
      var k :| 0 <= k < |list| && list[k] == x;
      LessIsOlder(x, last);
    }
    return Some(last);
  }

  // ---------------------------------------------------------------------------------------------
  // Filters
  // ---------------------------------------------------------------------------------------------

  predicate All(filters: seq<Func>, i: KKInstance) {
    filters == [] || (filters[0](i) && All(filters[1..], i))
  }

  predicate Any(filters: seq<Func>, i: KKInstance) {
    filters != [] && (filters[0](i) || Any(filters[1..], i))
  }

  function And(filters: seq<Func>): Func {
    i => All(filters, i)
  }

  function Or(filters: seq<Func>): Func {
    i => Any(filters, i)
  }

  function Not(f: Func): Func {
    i => !f(i)
  }

  lemma {:induction false} AndMeans(filters: seq<Func>, i: KKInstance)
    ensures And(filters)(i) <==> forall k :: 0 <= k < |filters| ==> filters[k](i)
    decreases |filters|
  {
    if filters != [] {
      AndMeans(filters[1..], i);
      assert And(filters)(i) <==> filters[0](i) && And(filters[1..])(i);
      assert forall k :: 1 <= k < |filters| ==> filters[k] == filters[1..][k - 1];
      forall k | 0 <= k < |filters| - 1 ensures filters[1..][k] == filters[k + 1] {
      }
    }
  }

  lemma {:induction false} OrMeans(filters: seq<Func>, i: KKInstance)
    ensures Or(filters)(i) <==> exists k :: 0 <= k < |filters| && filters[k](i)
    decreases |filters|
  {
    if filters != [] {
      OrMeans(filters[1..], i);
      assert Or(filters)(i) <==> filters[0](i) || Or(filters[1..])(i);
      assert forall k :: 1 <= k < |filters| ==> filters[k] == filters[1..][k - 1];
      forall k | 0 <= k < |filters| - 1 ensures filters[1..][k] == filters[k + 1] {
      }
    }
  }

  /** Builds the set of the instances that match, by inserting them one by one. */
  method NewFiltered(filter: Func, list: seq<KKInstance>) returns (ss: KKInstances)
    requires DistinctNames(list)
    ensures Keyed(ss) && forall x :: x in ss.Values <==> x in list && filter(x)
  {
    ss := map[];
    for i := 0 to |list|
      invariant forall n :: n in ss ==> exists k :: 0 <= k < i && list[k].name == n && ss[n] == list[k] && filter(list[k])
      invariant forall k :: 0 <= k < i && filter(list[k]) ==> list[k].name in ss && ss[list[k].name] == list[k]
    {
      if filter(list[i]) {
        ss := ss[list[i].name := list[i]];
      }
    }
  }

  method Filter(s: KKInstances, filters: seq<Func>) returns (r: KKInstances)
    requires Keyed(s)
    ensures Keyed(r) && r == Filtered(s, filters)
  {
    var list := UnsortedList(s);
    r := NewFiltered(And(filters), list);
    forall n | n in r ensures n in s && r[n] == s[n] && And(filters)(s[n]) {
      assert r[n] in r.Values;
    }
    forall n | n in s && And(filters)(s[n]) ensures n in r {
      assert s[n] in r.Values;
    }
  }

  ghost function Filtered(s: KKInstances, filters: seq<Func>): KKInstances {
    map n | n in s && And(filters)(s[n]) :: s[n]
  }

  const Active: Func := (i: KKInstance) => !i.deleting
  const Owned: Func := (i: KKInstance) => i.owned
  const ControlPlane: Func := (i: KKInstance) => i.controlPlane

  /** The two annotation phases of an upgrade split the active owned instances: every one is in exactly
      one of the two sets, so every one gets its annotation. */
  lemma UpgradePartition(s: KKInstances)
    ensures var cp := Filtered(s, [Active, Owned, ControlPlane]);
            var workers := Filtered(s, [Active, Owned, Not(ControlPlane)]);
            && cp.Keys !! workers.Keys
            && cp + workers == Filtered(s, [Active, Owned])
            && forall n :: n in s && !s[n].deleting && s[n].owned ==>
                 if s[n].controlPlane then n in cp && n !in workers else n in workers && n !in cp
  {
    forall n | n in s
      ensures And([Active, Owned, ControlPlane])(s[n]) <==> !s[n].deleting && s[n].owned && s[n].controlPlane
      ensures And([Active, Owned, Not(ControlPlane)])(s[n]) <==> !s[n].deleting && s[n].owned && !s[n].controlPlane
      ensures And([Active, Owned])(s[n]) <==> !s[n].deleting && s[n].owned
    {
      ThreeFilters(Active, Owned, ControlPlane, s[n]);
      ThreeFilters(Active, Owned, Not(ControlPlane), s[n]);
      AndMeans([Active, Owned], s[n]);
      assert [Active, Owned][0](s[n]) == Active(s[n]) && [Active, Owned][1](s[n]) == Owned(s[n]);
    }
  }

  lemma ThreeFilters(f: Func, g: Func, h: Func, i: KKInstance)
    ensures And([f, g, h])(i) <==> f(i) && g(i) && h(i)
  {
    AndMeans([f, g, h], i);
    var fs := [f, g, h];
    assert fs[0](i) == f(i) && fs[1](i) == g(i) && fs[2](i) == h(i);
  }
}
