/** How a KKMachine gets a node of the cluster spec, and what the KKCluster webhook guarantees of it. */
module Allocator {
  import opened Common

  type Name = string
  type Address = string
  type Role = string

  /** A node of the KKCluster spec. */
  datatype Node = Node(name: Name, address: Address, internal: Address, roles: seq<Role>)

  /** What the allocator reads of a stored KKInstance.
      labelled: carries the labels of the KKCluster; controlled: has a controller; owned: by this KKCluster. */
  datatype Listed = Listed(internal: Address, labelled: bool, controlled: bool, owned: bool)

  // ---------------------------------------------------------------------------------------------
  // Specification
  // ---------------------------------------------------------------------------------------------

  function Repeat<T>(x: T, n: nat): seq<T> {
    seq(n, _ => x)
  }

  function Occurrences(roles: seq<Role>, role: Role): nat {
    multiset(roles)[role]
  }

  /** The nodes with a role, in spec order; a node that lists the role twice appears twice. */
  function ByRole(nodes: seq<Node>, role: Role): (r: seq<Node>) {
    if nodes == [] then [] else ByRole(nodes[..|nodes| - 1], role) + Repeat(nodes[|nodes| - 1], Occurrences(nodes[|nodes| - 1].roles, role))
  }

  function ByRoles(nodes: seq<Node>, roles: seq<Role>): (r: seq<Node>) {
    if roles == [] then [] else ByRoles(nodes, roles[..|roles| - 1]) + ByRole(nodes, roles[|roles| - 1])
  }

  predicate Visible(i: Listed) {
    i.labelled && (i.controlled ==> i.owned)
  }

  /** The internal addresses that count as assigned. */
  function Used(list: seq<Listed>): set<Address> {
    set k | 0 <= k < |list| && Visible(list[k]) :: list[k].internal
  }

  /** The same, spelled out. */
  ghost function Assigned(list: seq<Listed>): set<Address> {
    set i | i in list && i.labelled && (!i.controlled || i.owned) :: i.internal
  }

  lemma AssignedIsUsed(list: seq<Listed>)
    ensures Assigned(list) == Used(list)
  {
    forall i | i in list && i.labelled && (!i.controlled || i.owned) ensures i.internal in Used(list) {
      var k :| 0 <= k < |list| && list[k] == i;
      assert Visible(list[k]);
    }
    forall k | 0 <= k < |list| && Visible(list[k]) ensures list[k].internal in Assigned(list) {
      assert list[k] in list;
    }
  }

  function FirstFree(specs: seq<Node>, used: set<Address>): (r: Option<Node>) {
    if specs == [] then None
    else if specs[0].internal !in used then Some(specs[0])
    else FirstFree(specs[1..], used)
  }

  function Select(nodes: seq<Node>, roles: seq<Role>, list: seq<Listed>): (r: Option<Node>) {
    FirstFree(ByRoles(nodes, roles), Used(list))
  }

  predicate HasRole(n: Node, roles: seq<Role>) {
    exists r :: r in roles && r in n.roles
  }

  // ---------------------------------------------------------------------------------------------
  // What the selection means
  // ---------------------------------------------------------------------------------------------

  lemma {:induction false} ByRoleMembers(nodes: seq<Node>, role: Role, n: Node)
    ensures n in ByRole(nodes, role) <==> n in nodes && role in n.roles
  {
    if nodes != [] {
      var rest, last := nodes[..|nodes| - 1], nodes[|nodes| - 1];
      ByRoleMembers(rest, role, n);
      assert nodes == rest + [last];
      var r := Repeat(last, Occurrences(last.roles, role));
      assert role in last.roles ==> r != [] && r[0] == last;
    }
  }

  lemma {:induction false} ByRolesMembers(nodes: seq<Node>, roles: seq<Role>, n: Node)
    ensures n in ByRoles(nodes, roles) <==> n in nodes && HasRole(n, roles)
  {
    if roles != [] {
      var rest, last := roles[..|roles| - 1], roles[|roles| - 1];
      ByRolesMembers(nodes, rest, n);
      ByRoleMembers(nodes, last, n);
      assert roles == rest + [last];
      assert HasRole(n, roles) <==> HasRole(n, rest) || last in n.roles;
    }
  }

  ghost predicate IsFirstFree(specs: seq<Node>, used: set<Address>, k: nat) {
    k < |specs| && specs[k].internal !in used && forall j :: 0 <= j < k ==> specs[j].internal in used
  }

  lemma {:induction false} FirstFreeIs(specs: seq<Node>, used: set<Address>)
    ensures var r := FirstFree(specs, used);
            && (r.None? <==> forall n :: n in specs ==> n.internal in used)
            && (r.Some? ==> exists k: nat :: IsFirstFree(specs, used, k) && r.value == specs[k])
  {
    if specs != [] && specs[0].internal in used {
      FirstFreeIs(specs[1..], used);
      var r := FirstFree(specs[1..], used);
      if r.Some? {
        var k: nat :| IsFirstFree(specs[1..], used, k) && r.value == specs[1..][k];
        forall j | 0 <= j < k + 1 ensures specs[j].internal in used {
          assert j == 0 || specs[j] == specs[1..][j - 1];
        }
        assert specs[k + 1] == specs[1..][k];
        assert IsFirstFree(specs, used, k + 1);
      }
    }
  }

  /** The selection is sound and complete: a selected node is in the spec, has one of the roles and is
      not assigned; and selection fails exactly when no node of the spec is all of that. */
  lemma SelectIff(nodes: seq<Node>, roles: seq<Role>, list: seq<Listed>)
    ensures var r := Select(nodes, roles, list);
            && (r.Some? ==> r.value in nodes && HasRole(r.value, roles) && r.value.internal !in Used(list))
            && (r.None? <==> forall n :: n in nodes && HasRole(n, roles) ==> n.internal in Used(list))
  {
    var specs := ByRoles(nodes, roles);
    FirstFreeIs(specs, Used(list));
    forall n | n in nodes || n in specs
      ensures n in specs <==> n in nodes && HasRole(n, roles)
    {
      ByRolesMembers(nodes, roles, n);
    }
  }

  // ---------------------------------------------------------------------------------------------
  // Order
  // ---------------------------------------------------------------------------------------------

  /** The list has the nodes at the positions `at` of the spec. */
  ghost predicate Positions(nodes: seq<Node>, arr: seq<Node>, at: seq<nat>) {
    |at| == |arr| && forall k :: 0 <= k < |at| ==> at[k] < |nodes| && arr[k] == nodes[at[k]]
  }

  ghost predicate Ascending(at: seq<nat>) {
    forall j, k :: 0 <= j < k < |at| ==> at[j] <= at[k]
  }

  function Times(at: seq<nat>, n: nat): nat {
    multiset(at)[n]
  }

  /** The list has the nodes with the role in spec order, each as often as it lists the role. */
  ghost predicate SpecOrder(nodes: seq<Node>, role: Role, arr: seq<Node>, at: seq<nat>) {
    && Positions(nodes, arr, at) && Ascending(at)
    && forall n: nat :: n < |nodes| ==> Times(at, n) == Occurrences(nodes[n].roles, role)
  }

  lemma PositionsNext(nodes: seq<Node>, arr: seq<Node>, at: seq<nat>, m: nat, times: nat)
    requires m < |nodes| && Positions(nodes[..m], arr, at)
    ensures Positions(nodes, arr + Repeat(nodes[m], times), at + Repeat(m, times))
  {
    var more := at + Repeat(m, times);
    forall k | 0 <= k < |more| ensures more[k] < |nodes| && (arr + Repeat(nodes[m], times))[k] == nodes[more[k]] {
      if k < |at| {
        assert nodes[..m][at[k]] == nodes[at[k]];
      }
    }
  }

  lemma AscendingNext(at: seq<nat>, m: nat, times: nat)
    requires Ascending(at) && forall k :: 0 <= k < |at| ==> at[k] < m
    ensures Ascending(at + Repeat(m, times))
  {
  }

  lemma TimesNext(at: seq<nat>, m: nat, times: nat, n: nat)
    requires (forall k :: 0 <= k < |at| ==> at[k] < m) && n <= m
    ensures Times(at + Repeat(m, times), n) == if n == m then times else Times(at, n)
  {
    TimesConcat(at, Repeat(m, times), n);
    RepeatTimes(m, times, n);
    if n == m {
      NotCounted(at, m);
    }
  }

  lemma {:induction false} ByRoleOrder(nodes: seq<Node>, role: Role) returns (at: seq<nat>)
    ensures SpecOrder(nodes, role, ByRole(nodes, role), at)
  {
    at := [];
    if nodes != [] {
      var m: nat := |nodes| - 1;
      var first := ByRoleOrder(nodes[..m], role);
      var times := Occurrences(nodes[m].roles, role);
      at := first + Repeat(m, times);
      PositionsNext(nodes, ByRole(nodes[..m], role), first, m, times);
      AscendingNext(first, m, times);
      forall n: nat | n < |nodes| ensures Times(at, n) == Occurrences(nodes[n].roles, role) {
        TimesNext(first, m, times, n);
        assert n < m ==> nodes[..m][n] == nodes[n];
      }
    }
  }

  lemma TimesConcat(a: seq<nat>, b: seq<nat>, n: nat)
    ensures Times(a + b, n) == Times(a, n) + Times(b, n)
  {
    assert multiset(a + b) == multiset(a) + multiset(b);
  }

  lemma {:induction false} RepeatTimes(x: nat, times: nat, n: nat)
    ensures Times(Repeat(x, times), n) == if n == x then times else 0
    decreases times
  {
    if times > 0 {
      RepeatTimes(x, times - 1, n);
      assert Repeat(x, times) == Repeat(x, times - 1) + [x];
      TimesConcat(Repeat(x, times - 1), [x], n);
    }
  }

  lemma NotCounted(at: seq<nat>, m: nat)
    requires forall k :: 0 <= k < |at| ==> at[k] < m
    ensures Times(at, m) == 0
  {
    assert m !in at;
  }

  /** The node at position `n` has the role at position `i`. */
  ghost predicate Fits(nodes: seq<Node>, roles: seq<Role>, i: nat, n: nat) {
    i < |roles| && n < |nodes| && roles[i] in nodes[n].roles
  }

  predicate Earlier(i: nat, n: nat, j: nat, m: nat) {
    i < j || (i == j && n < m)
  }

  ghost predicate FirstFit(nodes: seq<Node>, roles: seq<Role>, used: set<Address>, i: nat, n: nat) {
    && Fits(nodes, roles, i, n) && nodes[n].internal !in used
    && forall j: nat, m: nat :: Fits(nodes, roles, j, m) && Earlier(j, m, i, n) ==> nodes[m].internal in used
  }

  ghost predicate FirstOf(nodes: seq<Node>, roles: seq<Role>, used: set<Address>, r: Option<Node>) {
    if r.Some? then exists i: nat, n: nat :: FirstFit(nodes, roles, used, i, n) && r.value == nodes[n]
    else forall i: nat, n: nat :: Fits(nodes, roles, i, n) ==> nodes[n].internal in used
  }

  lemma {:induction false} FirstFreeConcat(a: seq<Node>, b: seq<Node>, used: set<Address>)
    ensures FirstFree(a + b, used) == if FirstFree(a, used).Some? then FirstFree(a, used) else FirstFree(b, used)
    decreases |a|
  {
    if a == [] {
      assert a + b == b;
    } else {
      assert (a + b)[1..] == a[1..] + b;
      FirstFreeConcat(a[1..], b, used);
    }
  }

  lemma FirstFreeRepeat(n: Node, times: nat, used: set<Address>)
    ensures FirstFree(Repeat(n, times), used) == if times > 0 && n.internal !in used then Some(n) else None
    decreases times
  {
    if times > 0 {
      assert Repeat(n, times)[1..] == Repeat(n, times - 1);
      FirstFreeRepeat(n, times - 1, used);
    }
  }

  /** Among the nodes with one role: the first of the spec that is free. */
  lemma {:induction false} FirstWithRole(nodes: seq<Node>, role: Role, used: set<Address>)
    ensures var r := FirstFree(ByRole(nodes, role), used);
            if r.Some? then exists n: nat :: FirstFit(nodes, [role], used, 0, n) && r.value == nodes[n]
            else forall n: nat :: Fits(nodes, [role], 0, n) ==> nodes[n].internal in used
  {
    if nodes != [] {
      var m: nat := |nodes| - 1;
      var rest, last := nodes[..m], nodes[m];
      var times := Occurrences(last.roles, role);
      FirstWithRole(rest, role, used);
      FirstFreeConcat(ByRole(rest, role), Repeat(last, times), used);
      FirstFreeRepeat(last, times, used);
      if FirstFree(ByRole(rest, role), used).Some? {
        var n: nat :| FirstFit(rest, [role], used, 0, n) && FirstFree(ByRole(rest, role), used).value == rest[n];
        FitStays(nodes, role, used, n);
      } else {
        FitLast(rest, nodes, role, used);
      }
    }
  }

  lemma FitStays(nodes: seq<Node>, role: Role, used: set<Address>, n: nat)
    requires nodes != [] && FirstFit(nodes[..|nodes| - 1], [role], used, 0, n)
    ensures FirstFit(nodes, [role], used, 0, n)
  {
    forall j: nat, m: nat | Fits(nodes, [role], j, m) && Earlier(j, m, 0, n) ensures nodes[m].internal in used {
      assert Fits(nodes[..|nodes| - 1], [role], j, m);
    }
  }

  lemma FitLast(rest: seq<Node>, nodes: seq<Node>, role: Role, used: set<Address>)
    requires nodes != [] && rest == nodes[..|nodes| - 1]
    requires forall n: nat :: Fits(rest, [role], 0, n) ==> rest[n].internal in used
    ensures var last: nat := |nodes| - 1;
            if role in nodes[last].roles && nodes[last].internal !in used then FirstFit(nodes, [role], used, 0, last)
            else forall n: nat :: Fits(nodes, [role], 0, n) ==> nodes[n].internal in used
  {
    var last: nat := |nodes| - 1;
    forall n: nat | n < last && Fits(nodes, [role], 0, n) ensures nodes[n].internal in used {
      assert Fits(rest, [role], 0, n);
    }
  }

  lemma {:induction false} FirstWithRoles(nodes: seq<Node>, roles: seq<Role>, used: set<Address>)
    ensures var r := FirstFree(ByRoles(nodes, roles), used);
            if r.Some? then exists i: nat, n: nat :: FirstFit(nodes, roles, used, i, n) && r.value == nodes[n]
            else forall i: nat, n: nat :: Fits(nodes, roles, i, n) ==> nodes[n].internal in used
  {
    if roles != [] {
      var m: nat := |roles| - 1;
      var front, last := roles[..m], roles[m];
      FirstWithRoles(nodes, front, used);
      FirstWithRole(nodes, last, used);
      FirstFreeConcat(ByRoles(nodes, front), ByRole(nodes, last), used);
      FitsSplit(nodes, roles);
      if FirstFree(ByRoles(nodes, front), used).Some? {
        var i: nat, n: nat :| FirstFit(nodes, front, used, i, n) && FirstFree(ByRoles(nodes, front), used).value == nodes[n];
        assert FirstFit(nodes, roles, used, i, n);
      } else if FirstFree(ByRole(nodes, last), used).Some? {
        var n: nat :| FirstFit(nodes, [last], used, 0, n) && FirstFree(ByRole(nodes, last), used).value == nodes[n];
        assert FirstFit(nodes, roles, used, m, n);
      }
    }
  }

  lemma FitsSplit(nodes: seq<Node>, roles: seq<Role>)
    requires roles != []
    ensures forall i: nat, n: nat :: i < |roles| - 1 ==> (Fits(nodes, roles, i, n) <==> Fits(nodes, roles[..|roles| - 1], i, n))
    ensures forall m: nat, n: nat :: m == |roles| - 1 ==> (Fits(nodes, roles, m, n) <==> Fits(nodes, [roles[m]], 0, n))
  {
  }

  /** The selected node is the first that is free, by the order of the roles and then of the spec. */
  lemma SelectFirst(nodes: seq<Node>, roles: seq<Role>, list: seq<Listed>)
    ensures FirstOf(nodes, roles, Assigned(list), Select(nodes, roles, list))
  {
    AssignedIsUsed(list);
    FirstWithRoles(nodes, roles, Used(list));
  }

  // ---------------------------------------------------------------------------------------------
  // The code
  // ---------------------------------------------------------------------------------------------

  method GetInstancesSpecByRole(nodes: seq<Node>, role: Role) returns (arr: seq<Node>)
    ensures arr == ByRole(nodes, role)
    ensures exists at :: SpecOrder(nodes, role, arr, at)
  {
    arr := [];
    for i := 0 to |nodes|
      invariant arr == ByRole(nodes[..i], role)
    {
      ghost var before := arr;
      assert nodes[..i + 1][..i] == nodes[..i];
      for j := 0 to |nodes[i].roles|
        invariant arr == before + Repeat(nodes[i], Occurrences(nodes[i].roles[..j], role))
      {
        assert nodes[i].roles[..j + 1] == nodes[i].roles[..j] + [nodes[i].roles[j]];
        if nodes[i].roles[j] == role {
          arr := arr + [nodes[i]];
        }
      }
      assert nodes[i].roles[..|nodes[i].roles|] == nodes[i].roles;
    }
    assert nodes[..|nodes|] == nodes;
    ghost var at := ByRoleOrder(nodes, role);
  }

  predicate ShouldExclude(i: Listed) {
    i.controlled && !i.owned
  }

  /** The list call returns the labelled objects; the loop drops those of other owners. */
  method AllInstances(labelled: seq<Listed>) returns (filtered: seq<Listed>)
    requires forall k :: 0 <= k < |labelled| ==> labelled[k].labelled
    ensures forall i :: i in filtered <==> i in labelled && !(i.controlled && !i.owned)
  {
    filtered := [];
    for k := 0 to |labelled|
      invariant forall i :: i in filtered <==> i in labelled[..k] && Visible(i)
    {
      assert labelled[..k + 1] == labelled[..k] + [labelled[k]];
      if !ShouldExclude(labelled[k]) {
        filtered := filtered + [labelled[k]];
      }
    }
    assert labelled[..|labelled|] == labelled;
  }

  function WithLabels(list: seq<Listed>): (r: seq<Listed>)
    ensures forall i :: i in r <==> i in list && i.labelled
  {
    if list == [] then [] else WithLabels(list[..|list| - 1]) + (if list[|list| - 1].labelled then [list[|list| - 1]] else [])
  }

  lemma {:induction false} FreeSuffix(specs: seq<Node>, used: set<Address>, k: nat)
    requires k <= |specs| && forall j :: 0 <= j < k ==> specs[j].internal in used
    ensures FirstFree(specs, used) == FirstFree(specs[k..], used)
    decreases k
  {
    if k > 0 {
      FreeSuffix(specs, used, k - 1);
      assert specs[k - 1..][1..] == specs[k..];
    }
  }

  /** The first node, by the order of the roles and then of the spec, whose internal address no labelled
      instance of this cluster has. */
  method GetUnassignedInstanceSpec(nodes: seq<Node>, roles: seq<Role>, list: seq<Listed>) returns (r: Option<Node>)
    ensures r == Select(nodes, roles, list)
    ensures FirstOf(nodes, roles, Assigned(list), r)
  {
    SelectFirst(nodes, roles, list);
    var specs: seq<Node> := [];
    for i := 0 to |roles|
      invariant specs == ByRoles(nodes, roles[..i])
    {
      var some := GetInstancesSpecByRole(nodes, roles[i]);
      specs := specs + some;
      assert roles[..i + 1][..i] == roles[..i];
    }
    assert roles[..|roles|] == roles;
    var instances := AllInstances(WithLabels(list));
    var taken: set<Address> := {};
    for i := 0 to |instances|
      invariant taken == set k | 0 <= k < i :: instances[k].internal
    {
      taken := taken + {instances[i].internal};
    }
    assert taken == Used(list) by {
      forall k | 0 <= k < |list| && Visible(list[k]) ensures list[k].internal in taken {
        assert list[k] in list && list[k] in instances;
      }
      forall k | 0 <= k < |instances| ensures instances[k].internal in Used(list) {
        assert instances[k] in instances && instances[k] in list;
      }
    }
    r := FirstUnassigned(specs, taken);
  }

  method FirstUnassigned(specs: seq<Node>, taken: set<Address>) returns (r: Option<Node>)
    ensures r == FirstFree(specs, taken)
  {
    for i := 0 to |specs|
      invariant forall j :: 0 <= j < i ==> specs[j].internal in taken
    {
      if specs[i].internal !in taken {
        FreeSuffix(specs, taken, i);
        return Some(specs[i]);
      }
    }
    FreeSuffix(specs, taken, |specs|);
    return None;
  }

  // ---------------------------------------------------------------------------------------------
  // The webhook that validates the nodes of a KKCluster
  // ---------------------------------------------------------------------------------------------

  datatype Field = NameField | AddressField | InternalField

  /** A bad name is one that is not in lower case; a bad address is not an IP address. */
  datatype NodeError = AuthRequired | Bad(field: Field, index: nat) | Duplicate(field: Field, index: nat)

  datatype Auth = Auth(password: string, privateKey: string, privateKeyPath: string, secret: string)

  predicate NoAuth(a: Auth) {
    a.password == "" && a.privateKey == "" && a.privateKeyPath == "" && a.secret == ""
  }

  ghost predicate DistinctNodes(nodes: seq<Node>) {
    forall i, j :: 0 <= i < j < |nodes| ==>
      nodes[i].name != nodes[j].name && nodes[i].address != nodes[j].address && nodes[i].internal != nodes[j].internal
  }

  function Get(n: Node, f: Field): string {
    match f
    case NameField => n.name
    case AddressField => n.address
    case InternalField => n.internal
  }

  /** `lower` and `isIp` stand for the library's case folding and address parser. */
  datatype Library = Library(lower: string -> string, isIp: string -> bool)

  predicate IsBad(lib: Library, f: Field, v: string) {
    if f == NameField then lib.lower(v) != v else !lib.isIp(v)
  }

  ghost predicate Repeated(nodes: seq<Node>, f: Field, i: nat) {
    i < |nodes| && exists j :: 0 <= j < i && Get(nodes[j], f) == Get(nodes[i], f)
  }

  /** The faults of a node list. */
  ghost predicate Faulty(auth: Auth, nodes: seq<Node>, lib: Library, e: NodeError) {
    match e
    case AuthRequired => NoAuth(auth)
    case Bad(f, i) => i < |nodes| && IsBad(lib, f, Get(nodes[i], f))
    case Duplicate(f, i) => Repeated(nodes, f, i)
  }

  /** The order in which the code looks for a fault. */
  function Turn(f: Field, i: nat): nat {
    3 * i + (if f == NameField then 0 else if f == AddressField then 1 else 2)
  }

  ghost predicate FoundUpTo(auth: Auth, nodes: seq<Node>, lib: Library, errs: seq<NodeError>, turn: nat) {
    forall e :: e in errs <==> Faulty(auth, nodes, lib, e) && (e.AuthRequired? || Turn(e.field, e.index) < turn)
  }

  function FieldErrors(f: Field, i: nat, bad: bool, seen: bool): seq<NodeError> {
    (if bad then [Bad(f, i)] else []) + (if seen then [Duplicate(f, i)] else [])
  }

  lemma FoundNext(auth: Auth, nodes: seq<Node>, lib: Library, errs: seq<NodeError>, f: Field, i: nat)
    requires i < |nodes| && FoundUpTo(auth, nodes, lib, errs, Turn(f, i))
    ensures FoundUpTo(auth, nodes, lib,
                      errs + FieldErrors(f, i, IsBad(lib, f, Get(nodes[i], f)), Repeated(nodes, f, i)), Turn(f, i) + 1)
  {
  }

  lemma NoFaults(auth: Auth, nodes: seq<Node>, lib: Library)
    requires forall e :: !Faulty(auth, nodes, lib, e)
    ensures DistinctNodes(nodes)
  {
    forall i, j | 0 <= i < j < |nodes|
      ensures nodes[i].name != nodes[j].name && nodes[i].address != nodes[j].address && nodes[i].internal != nodes[j].internal
    {
      forall f ensures Get(nodes[i], f) != Get(nodes[j], f) {
        assert !Faulty(auth, nodes, lib, Duplicate(f, j));
      }
      assert Get(nodes[i], NameField) != Get(nodes[j], NameField);
      assert Get(nodes[i], AddressField) != Get(nodes[j], AddressField);
      assert Get(nodes[i], InternalField) != Get(nodes[j], InternalField);
    }
  }

  /** Reports every fault and nothing else; so an accepted spec has distinct names and addresses. */
  method ValidateClusterNodes(auth: Auth, nodes: seq<Node>, lib: Library) returns (errs: seq<NodeError>)
    ensures forall e :: e in errs <==> Faulty(auth, nodes, lib, e)
    ensures errs == [] ==> DistinctNodes(nodes)
  {
    errs := if NoAuth(auth) then [AuthRequired] else [];
    var names, addrs, internals := {}, {}, {};
    for i := 0 to |nodes|
      invariant names == set k | 0 <= k < i :: nodes[k].name
      invariant addrs == set k | 0 <= k < i :: nodes[k].address
      invariant internals == set k | 0 <= k < i :: nodes[k].internal
      invariant FoundUpTo(auth, nodes, lib, errs, 3 * i)
    {
      var n := nodes[i];
      FoundNext(auth, nodes, lib, errs, NameField, i);
      errs := errs + FieldErrors(NameField, i, IsBad(lib, NameField, n.name), n.name in names);
      names := names + {n.name};
      FoundNext(auth, nodes, lib, errs, AddressField, i);
      errs := errs + FieldErrors(AddressField, i, IsBad(lib, AddressField, n.address), n.address in addrs);
      addrs := addrs + {n.address};
      FoundNext(auth, nodes, lib, errs, InternalField, i);
      errs := errs + FieldErrors(InternalField, i, IsBad(lib, InternalField, n.internal), n.internal in internals);
      internals := internals + {n.internal};
    }
    if errs == [] {
      NoFaults(auth, nodes, lib);
    }
  }
}
