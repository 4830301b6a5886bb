/** The project overview statistics (WebTaskFlow/src/components/ProjectOverview.jsx):
    the counts of tasks, employees and history rows, and the role tally in a
    plain object, whose keys inherited from `Object.prototype` behave apart. */
module ProjectOverview {
  import Values
  import opened Records

  /** The names a plain object `{}` inherits from `Object.prototype`, each a
      built-in function. */
  const InheritedMethods: set<string> := {"constructor", "hasOwnProperty", "isPrototypeOf",
    "propertyIsEnumerable", "toLocaleString", "toString", "valueOf", "__defineGetter__",
    "__defineSetter__", "__lookupGetter__", "__lookupSetter__"}

  /** The accessor key: reading it gives the prototype, and assigning a
      non-object to it is ignored. */
  const ProtoKey: string := "__proto__"

  /** A role that names nothing inherited, so the tally starts it at 1. */
  predicate Ordinary(r: string) {
    r != ProtoKey && r !in InheritedMethods
  }

  /** A value of `roleCounts`: a number, or the text `+ 1` makes of an
      inherited function. */
  datatype Count = Num(n: nat) | Text(s: string)

  /** `String(f)` of the built-in function inherited under `r`; the one under
      "constructor" is `Object`. */
  function NativeSource(r: string): string {
    "function " + (if r == "constructor" then "Object" else r) + "() { [native code] }"
  }

  /** `roleCounts[r]`: the own value, else what the prototype holds under `r`
      (as text, since `+` turns it into one), else undefined. */
  function Read(m: map<string, Count>, r: string): Values.Option<Count> {
    if r in m then Values.Some(m[r])
    else if r == ProtoKey then Values.Some(Text("[object Object]"))
    else if r in InheritedMethods then Values.Some(Text(NativeSource(r)))
    else Values.None
  }

  /** `(v || 0) + 1`: undefined and the empty text count as 0, a text is
      extended by the digit "1". */
  function Incr(v: Values.Option<Count>): Count {
    match v
    case None => Num(1)
    case Some(Num(n)) => Num(n + 1)
    case Some(Text(t)) => if t == "" then Num(1) else Text(t + "1")
  }

  /** `roleCounts[role] = (roleCounts[role] || 0) + 1` */
  function Bump(m: map<string, Count>, r: string): map<string, Count> {
    if r == ProtoKey then m else m[r := Incr(Read(m, r))]
  }

  /** `roleCounts` after the `forEach` over `roles`, in order. */
  function RoleTally(roles: seq<string>): map<string, Count>
    decreases |roles|
  {
    if |roles| == 0 then map[] else Bump(RoleTally(roles[..|roles| - 1]), roles[|roles| - 1])
  }

  /** The digit "1" written `k` times. */
  function Ones(k: nat): string {
    if k == 0 then "" else Ones(k - 1) + "1"
  }

  /** The keys are the roles present other than "__proto__". */
  lemma {:induction false} RoleTallyKeys(roles: seq<string>)
    ensures forall r :: r in RoleTally(roles) <==> r in roles && r != ProtoKey
    decreases |roles|
  {
    if |roles| > 0 {
      var pre := roles[..|roles| - 1];
      RoleTallyKeys(pre);
      assert roles == pre + [roles[|roles| - 1]];
    }
  }

  /** An ordinary role maps to how many employees have it. */
  lemma {:induction false} RoleTallyCounts(roles: seq<string>)
    ensures forall r :: r in RoleTally(roles) && Ordinary(r) ==> RoleTally(roles)[r] == Num(multiset(roles)[r])
    decreases |roles|
  {
    if |roles| > 0 {
      var pre := roles[..|roles| - 1];
      RoleTallyCounts(pre);
      RoleTallyKeys(pre);
      assert roles == pre + [roles[|roles| - 1]];
    }
  }

  /** An inherited method name maps to that function's source followed by
      one "1" per employee with the role. */
  lemma {:induction false} RoleTallyTexts(roles: seq<string>)
    ensures forall r :: r in RoleTally(roles) && r in InheritedMethods ==>
      RoleTally(roles)[r] == Text(NativeSource(r) + Ones(multiset(roles)[r]))
    decreases |roles|
  {
    if |roles| > 0 {
      var pre := roles[..|roles| - 1];
      var last := roles[|roles| - 1];
      RoleTallyTexts(pre);
      RoleTallyKeys(pre);
      assert roles == pre + [last];
      forall r | r in RoleTally(roles) && r in InheritedMethods
        ensures RoleTally(roles)[r] == Text(NativeSource(r) + Ones(multiset(roles)[r]))
      {
        if r == last {
          TextStep(RoleTally(pre), r, multiset(pre)[r]);
        } else {
          assert multiset(roles)[r] == multiset(pre)[r];
        }
      }
    }
  }

  /** One more employee with an inherited method name as role appends one "1". */
  lemma TextStep(m: map<string, Count>, r: string, k: nat)
    requires r in InheritedMethods
    requires r in m ==> m[r] == Text(NativeSource(r) + Ones(k))
    requires r !in m ==> k == 0
    ensures Incr(Read(m, r)) == Text(NativeSource(r) + Ones(k + 1))
  {
    assert Ones(k + 1) == Ones(k) + "1";
    if r in m {
      assert NativeSource(r) + Ones(k) + "1" == NativeSource(r) + Ones(k + 1);
    }
  }

  /** The three facts together: the keys are the roles present other than
      "__proto__"; an ordinary role maps to how many employees have it, at
      least 1; an inherited method name maps to a text. */
  lemma RoleTallySpec(roles: seq<string>)
    ensures forall r :: r in RoleTally(roles) <==> r in roles && r != ProtoKey
    ensures forall r :: r in RoleTally(roles) && Ordinary(r) ==>
      RoleTally(roles)[r] == Num(multiset(roles)[r]) && multiset(roles)[r] >= 1
    ensures forall r :: r in RoleTally(roles) && r in InheritedMethods ==>
      RoleTally(roles)[r] == Text(NativeSource(r) + Ones(multiset(roles)[r]))
  {
    RoleTallyKeys(roles);
    RoleTallyCounts(roles);
    RoleTallyTexts(roles);
  }

  /** One employee whose Role is "__proto__" leaves the tally empty, so no
      role is counted for them. */
  lemma ProtoRoleDropped()
    ensures RoleTally([ProtoKey]) == map[]
  {
    assert [ProtoKey][..0] == [];
  }

  /** One employee whose Role is "constructor" is counted as a text, not a number. */
  lemma ConstructorRoleIsText()
    ensures RoleTally(["constructor"]) == map["constructor" := Text("function Object() { [native code] }1")]
  {
    assert ["constructor"][..0] == [];
    assert "constructor" in InheritedMethods;
    assert Read(map[], "constructor") == Values.Some(Text(NativeSource("constructor")));
    assert NativeSource("constructor") == "function Object() { [native code] }";
    assert NativeSource("constructor") + "1" == "function Object() { [native code] }1";
  }

  predicate Distinct(keys: seq<string>) {
    forall i, j :: 0 <= i < j < |keys| ==> keys[i] != keys[j]
  }

  /** The number a key holds in `m`, 0 when it is missing or holds a text. */
  function NumAt(m: map<string, Count>, k: string): nat {
    if k in m && m[k].Num? then m[k].n else 0
  }

  /** The sum of the numeric counts of `m` at `keys`. */
  function SumAt(m: map<string, Count>, keys: seq<string>): nat
    decreases |keys|
  {
    if |keys| == 0 then 0 else NumAt(m, keys[0]) + SumAt(m, keys[1..])
  }

  lemma {:induction false} SumAtEmpty(keys: seq<string>)
    ensures SumAt(map[], keys) == 0
    decreases |keys|
  {
    if |keys| > 0 {
      SumAtEmpty(keys[1..]);
    }
  }

  /** What every tally looks like: no "__proto__" key, numbers (at least 1)
      exactly at the ordinary roles, and non-empty texts elsewhere. */
  predicate Shaped(m: map<string, Count>) {
    forall k :: k in m ==>
      k != ProtoKey && (m[k].Num? <==> Ordinary(k)) &&
      (m[k].Num? ==> m[k].n >= 1) && (m[k].Text? ==> m[k].s != "")
  }

  /** Counting one more `r` keeps the shape and adds one to the sum over
      keys that list `r` once, when `r` is ordinary; otherwise the sum stays. */
  lemma {:induction false} SumAtBump(m: map<string, Count>, keys: seq<string>, r: string)
    requires Distinct(keys)
    requires Shaped(m)
    ensures Shaped(Bump(m, r))
    ensures SumAt(Bump(m, r), keys) == SumAt(m, keys) + (if r in keys && Ordinary(r) then 1 else 0)
    decreases |keys|
  {
    assert NumAt(Bump(m, r), r) == NumAt(m, r) + (if Ordinary(r) then 1 else 0);
    if |keys| > 0 {
      var rest := keys[1..];
      assert forall i, j :: 0 <= i < j < |rest| ==> rest[i] == keys[i + 1] && rest[j] == keys[j + 1];
      SumAtBump(m, rest, r);
      assert r in keys <==> r == keys[0] || r in rest;
      if r == keys[0] {
        assert forall i :: 0 <= i < |rest| ==> rest[i] != r;
      }
    }
  }

  /** How many of `roles` are ordinary. */
  function OrdinaryCount(roles: seq<string>): nat
    decreases |roles|
  {
    if |roles| == 0 then 0
    else OrdinaryCount(roles[..|roles| - 1]) + (if Ordinary(roles[|roles| - 1]) then 1 else 0)
  }

  /** The numeric counts add up to the number of employees with an ordinary
      role, so to the number of employees when every role is ordinary. */
  lemma {:induction false} RoleTallyTotal(roles: seq<string>, keys: seq<string>)
    requires Distinct(keys)
    requires forall i :: 0 <= i < |roles| && Ordinary(roles[i]) ==> roles[i] in keys
    ensures Shaped(RoleTally(roles))
    ensures SumAt(RoleTally(roles), keys) == OrdinaryCount(roles) <= |roles|
    ensures (forall i :: 0 <= i < |roles| ==> Ordinary(roles[i])) ==> SumAt(RoleTally(roles), keys) == |roles|
    decreases |roles|
  {
    if |roles| == 0 {
      SumAtEmpty(keys);
    } else {
      var pre := roles[..|roles| - 1];
      RoleTallyTotal(pre, keys);
      SumAtBump(RoleTally(pre), keys, roles[|roles| - 1]);
    }
  }

  /** The role of every employee, in order. */
  function RolesOf(emps: seq<Employee>): seq<string> {
    seq(|emps|, i requires 0 <= i < |emps| => emps[i].role)
  }

  class Overview {
    var tasksCount: nat
    var usersCount: nat
    var rolesCount: nat
    var tasksAssignedCount: nat
    var roleDistribution: map<string, Count>

    /** Every statistic starts at zero. */
    constructor ()
      ensures tasksCount == 0 && usersCount == 0 && rolesCount == 0 && tasksAssignedCount == 0
      ensures roleDistribution == map[]
    {
      tasksCount, usersCount, rolesCount, tasksAssignedCount := 0, 0, 0, 0;
      roleDistribution := map[];
    }

    /** The tasks request: store how many tasks there are. */
    method OnTasks(tasks: seq<Task>)
      modifies this
      ensures tasksCount == |tasks|
      ensures usersCount == old(usersCount) && rolesCount == old(rolesCount)
      ensures tasksAssignedCount == old(tasksAssignedCount) && roleDistribution == old(roleDistribution)
    {
      tasksCount := |tasks|;
    }

    /** The employees request: count them and tally their roles. */
    method OnEmployees(emps: seq<Employee>)
      modifies this
      ensures usersCount == |emps|
      ensures roleDistribution == RoleTally(RolesOf(emps))
      ensures rolesCount == |roleDistribution.Keys|
      ensures tasksCount == old(tasksCount) && tasksAssignedCount == old(tasksAssignedCount)
    {
      var counts: map<string, Count> := map[];
      var i := 0;
      while i < |emps|
        invariant 0 <= i <= |emps|
        invariant counts == RoleTally(RolesOf(emps)[..i])
      {
        var role := emps[i].role;
        assert RolesOf(emps)[..i + 1] == RolesOf(emps)[..i] + [role];
        if role != ProtoKey {
          counts := counts[role := Incr(Read(counts, role))];
        }
        i := i + 1;
      }
      assert RolesOf(emps)[..i] == RolesOf(emps);
      usersCount := |emps|;
      rolesCount := |counts.Keys|;
      roleDistribution := counts;
    }

    /** The history request: the number of history rows, which counts a task
        once per row, so it can exceed the number of tasks. */
    method OnHistory(history: seq<HistoryRow>)
      modifies this
      ensures tasksAssignedCount == |history|
      ensures tasksCount == old(tasksCount) && usersCount == old(usersCount)
      ensures rolesCount == old(rolesCount) && roleDistribution == old(roleDistribution)
    {
      tasksAssignedCount := |history|;
    }
  }

  /** The roles the tally keeps are those of the employees, less "__proto__". */
  lemma TallyKeysAreRoles(emps: seq<Employee>)
    ensures RoleTally(RolesOf(emps)).Keys == set e | e in emps && e.role != ProtoKey :: e.role
  {
    var roles := RolesOf(emps);
    RoleTallyKeys(roles);
    forall r | r in roles && r != ProtoKey ensures r in (set e | e in emps && e.role != ProtoKey :: e.role) {
      var i :| 0 <= i < |roles| && roles[i] == r;
      assert emps[i] in emps;
    }
    forall e | e in emps && e.role != ProtoKey ensures e.role in roles {
      var i :| 0 <= i < |emps| && emps[i] == e;
      assert roles[i] == e.role;
    }
  }

  /** After the employees are loaded, the numeric counts, summed over the
      roles present, add up to the number of users with an ordinary role (all
      users when every role is ordinary); there is one entry per distinct role
      other than "__proto__", and every ordinary role's count is at least 1. */
  lemma EmployeeStatistics(emps: seq<Employee>, keys: seq<string>)
    requires Distinct(keys)
    requires forall k :: k in keys <==> k in RoleTally(RolesOf(emps))
    ensures SumAt(RoleTally(RolesOf(emps)), keys) == OrdinaryCount(RolesOf(emps)) <= |emps|
    ensures (forall e :: e in emps ==> Ordinary(e.role)) ==> SumAt(RoleTally(RolesOf(emps)), keys) == |emps|
    ensures |RoleTally(RolesOf(emps)).Keys| == |set e | e in emps && e.role != ProtoKey :: e.role|
    ensures forall r :: r in RoleTally(RolesOf(emps)) && Ordinary(r) ==>
      RoleTally(RolesOf(emps))[r].Num? && RoleTally(RolesOf(emps))[r].n >= 1
  {
    var roles := RolesOf(emps);
    RoleTallyKeys(roles);
    RoleTallyCounts(roles);
    assert forall i :: 0 <= i < |roles| && Ordinary(roles[i]) ==> roles[i] in keys;
    RoleTallyTotal(roles, keys);
    if forall e :: e in emps ==> Ordinary(e.role) {
      forall i | 0 <= i < |roles| ensures Ordinary(roles[i]) {
        assert emps[i] in emps;
      }
    }
    TallyKeysAreRoles(emps);
  }
}
