/** The broker's plan table: plans are stored under the composite key
    "<serviceID>/<planID>" when the services are loaded, and looked up by a
    key composed of the two identifiers the caller passes. */
module Plans {
  import opened Types

  /** The composite key "<a>/<b>". */
  function PlanKey(a: string, b: string): string
  {
    a + "/" + b
  }

  /** Looks a plan up under the key "<planID>/<serviceID>", in the order of
      the parameters as they are named; the table is only read. */
  function FindPlan(plans: map<string, Plan>, planID: string, serviceID: string): (r: Result<Plan>)
    ensures r.Ok? <==> PlanKey(planID, serviceID) in plans
    ensures r.Ok? ==> r.value == plans[PlanKey(planID, serviceID)]
    ensures r.Err? ==> r.msg == "plan " + PlanKey(planID, serviceID) + " not found"
  {
    var key := PlanKey(planID, serviceID);
    if key in plans then Ok(plans[key]) else Err("plan " + key + " not found")
  }

  /** The table after writing each plan of `ps`, in order, under
      "<serviceID>/<plan id>" into `m`; a later write overwrites an earlier one. */
  function AddPlans(m: map<string, Plan>, serviceID: string, ps: seq<Plan>): map<string, Plan>
    decreases |ps|
  {
    if ps == [] then m
    else
      var p := ps[|ps| - 1];
      AddPlans(m, serviceID, ps[..|ps| - 1])[PlanKey(serviceID, p.id) := p]
  }

  /** The table built from an empty map by writing the plans of every
      service, services in order and each service's plans in order. */
  function PlanTable(ss: seq<Service>): map<string, Plan>
    decreases |ss|
  {
    if ss == [] then map[]
    else
      var s := ss[|ss| - 1];
      AddPlans(PlanTable(ss[..|ss| - 1]), s.id, s.plans)
  }

  /** Plan `j` of service `i` is written under `key`. */
  ghost predicate WrittenAt(ss: seq<Service>, i: int, j: int, key: string)
  {
    0 <= i < |ss| && 0 <= j < |ss[i].plans| && PlanKey(ss[i].id, ss[i].plans[j].id) == key
  }

  /** Position (i, j) is written before position (i', j'). */
  predicate Before(i: int, j: int, i': int, j': int)
  {
    i < i' || (i == i' && j < j')
  }

  /** Plan `j` of service `i` is the last write under `key`. */
  ghost predicate LastWriter(ss: seq<Service>, i: int, j: int, key: string)
  {
    WrittenAt(ss, i, j, key) &&
    forall i', j' :: WrittenAt(ss, i', j', key) ==> !Before(i, j, i', j')
  }

  lemma {:induction false} AddPlansKeys(m: map<string, Plan>, serviceID: string, ps: seq<Plan>, key: string)
    ensures key in AddPlans(m, serviceID, ps) <==>
              key in m || exists j :: 0 <= j < |ps| && PlanKey(serviceID, ps[j].id) == key
    decreases |ps|
  {
    if ps != [] {
      var n := |ps| - 1;
      AddPlansKeys(m, serviceID, ps[..n], key);
      if key in AddPlans(m, serviceID, ps) && key !in m && key != PlanKey(serviceID, ps[n].id) {
        var j :| 0 <= j < n && PlanKey(serviceID, ps[..n][j].id) == key;
        assert ps[j] == ps[..n][j];
      }
      if exists j :: 0 <= j < |ps| && PlanKey(serviceID, ps[j].id) == key {
        var j :| 0 <= j < |ps| && PlanKey(serviceID, ps[j].id) == key;
        if j < n {
          assert ps[..n][j] == ps[j];
        }
      }
    }
  }

  /** A key no plan of `ps` is written under keeps its entry from `m`. */
  lemma {:induction false} AddPlansUntouched(m: map<string, Plan>, serviceID: string, ps: seq<Plan>, key: string)
    requires forall j :: 0 <= j < |ps| ==> PlanKey(serviceID, ps[j].id) != key
    ensures key in AddPlans(m, serviceID, ps) <==> key in m
    ensures key in m ==> AddPlans(m, serviceID, ps)[key] == m[key]
    decreases |ps|
  {
    if ps != [] {
      var n := |ps| - 1;
      assert forall j :: 0 <= j < n ==> ps[..n][j] == ps[j];
      AddPlansUntouched(m, serviceID, ps[..n], key);
    }
  }

  /** The last plan of `ps` written under a key is what the key holds. */
  lemma {:induction false} AddPlansLast(m: map<string, Plan>, serviceID: string, ps: seq<Plan>, j: int)
    requires 0 <= j < |ps|
    requires forall j' :: j < j' < |ps| ==> PlanKey(serviceID, ps[j'].id) != PlanKey(serviceID, ps[j].id)
    ensures PlanKey(serviceID, ps[j].id) in AddPlans(m, serviceID, ps)
    ensures AddPlans(m, serviceID, ps)[PlanKey(serviceID, ps[j].id)] == ps[j]
    decreases |ps|
  {
    var n := |ps| - 1;
    if j < n {
      assert forall j' :: 0 <= j' < n ==> ps[..n][j'] == ps[j'];
      AddPlansLast(m, serviceID, ps[..n], j);
    }
  }

  /** A key is in the table exactly when some plan of some service is
      written under it. */
  lemma {:induction false} PlanTableKeys(ss: seq<Service>, key: string)
    ensures key in PlanTable(ss) <==> exists i, j :: WrittenAt(ss, i, j, key)
    decreases |ss|
  {
    if ss != [] {
      var n := |ss| - 1;
      var s := ss[n];
      PlanTableKeys(ss[..n], key);
      AddPlansKeys(PlanTable(ss[..n]), s.id, s.plans, key);
      if key in PlanTable(ss) {
        if key in PlanTable(ss[..n]) {
          var i, j :| WrittenAt(ss[..n], i, j, key);
          assert WrittenAt(ss, i, j, key);
        } else {
          var j :| 0 <= j < |s.plans| && PlanKey(s.id, s.plans[j].id) == key;
          assert WrittenAt(ss, n, j, key);
        }
      }
      if exists i, j :: WrittenAt(ss, i, j, key) {
        var i, j :| WrittenAt(ss, i, j, key);
        if i < n {
          assert WrittenAt(ss[..n], i, j, key);
        }
      }
    }
  }

  /** When several plans are written under one key, the table holds the
      one written last. */
  lemma {:induction false} PlanTableLastWins(ss: seq<Service>, i: int, j: int, key: string)
    requires LastWriter(ss, i, j, key)
    ensures key in PlanTable(ss) && PlanTable(ss)[key] == ss[i].plans[j]
    decreases |ss|
  {
    var n := |ss| - 1;
    var s := ss[n];
    if i == n {
      forall j' | j < j' < |s.plans|
        ensures PlanKey(s.id, s.plans[j'].id) != PlanKey(s.id, s.plans[j].id)
      {
        assert !WrittenAt(ss, n, j', key);
      }
      AddPlansLast(PlanTable(ss[..n]), s.id, s.plans, j);
    } else {
      forall j' | 0 <= j' < |s.plans|
        ensures PlanKey(s.id, s.plans[j'].id) != key
      {
        assert !WrittenAt(ss, n, j', key);
      }
      forall i', j' | WrittenAt(ss[..n], i', j', key)
        ensures !Before(i, j, i', j')
      {
        assert WrittenAt(ss, i', j', key);
      }
      PlanTableLastWins(ss[..n], i, j, key);
      AddPlansUntouched(PlanTable(ss[..n]), s.id, s.plans, key);
    }
  }

  /** Among the plans of `ps` written under `key`, if any, there is a last one. */
  lemma {:induction false} LastPlanIndex(serviceID: string, ps: seq<Plan>, key: string) returns (j: int)
    requires exists j :: 0 <= j < |ps| && PlanKey(serviceID, ps[j].id) == key
    ensures 0 <= j < |ps| && PlanKey(serviceID, ps[j].id) == key
    ensures forall j' :: j < j' < |ps| ==> PlanKey(serviceID, ps[j'].id) != key
    decreases |ps|
  {
    var n := |ps| - 1;
    if PlanKey(serviceID, ps[n].id) == key {
      j := n;
    } else {
      var k :| 0 <= k < |ps| && PlanKey(serviceID, ps[k].id) == key;
      assert ps[..n][k] == ps[k];
      j := LastPlanIndex(serviceID, ps[..n], key);
      assert forall j' :: 0 <= j' < n ==> ps[..n][j'] == ps[j'];
    }
  }

  /** Every key of the table has a last writer, and the key holds that
      writer's plan: the table holds nothing but plans written under
      their own key. */
  lemma {:induction false} PlanTableHasLastWriter(ss: seq<Service>, key: string)
    requires key in PlanTable(ss)
    ensures exists i, j :: LastWriter(ss, i, j, key) && PlanTable(ss)[key] == ss[i].plans[j]
    decreases |ss|
  {
    var n := |ss| - 1;
    var s := ss[n];
    var i, j;
    if exists j :: 0 <= j < |s.plans| && PlanKey(s.id, s.plans[j].id) == key {
      i := n;
      j := LastPlanIndex(s.id, s.plans, key);
      forall i', j' | WrittenAt(ss, i', j', key)
        ensures !Before(i, j, i', j')
      {
      }
    } else {
      AddPlansUntouched(PlanTable(ss[..n]), s.id, s.plans, key);
      PlanTableHasLastWriter(ss[..n], key);
      i, j :| LastWriter(ss[..n], i, j, key);
      assert WrittenAt(ss, i, j, key);
      forall i', j' | WrittenAt(ss, i', j', key)
        ensures !Before(i, j, i', j')
      {
        assert WrittenAt(ss[..n], i', j', key);
      }
    }
    assert LastWriter(ss, i, j, key);
    PlanTableLastWins(ss, i, j, key);
  }

  /** Round trip between loading and provisioning: a request naming a
      loaded service and one of its plans, looked up with the identifiers
      in the order the provision flow passes them, finds a plan stored
      under "<serviceID>/<planID>", and that plan is the requested one
      unless a later service or plan was written under the same key. */
  lemma ProvisionFindsLoadedPlan(ss: seq<Service>, i: int, j: int)
    requires 0 <= i < |ss| && 0 <= j < |ss[i].plans|
    ensures FindPlan(PlanTable(ss), ss[i].id, ss[i].plans[j].id).Ok?
    ensures LastWriter(ss, i, j, PlanKey(ss[i].id, ss[i].plans[j].id)) ==>
              FindPlan(PlanTable(ss), ss[i].id, ss[i].plans[j].id) == Ok(ss[i].plans[j])
  {
    var key := PlanKey(ss[i].id, ss[i].plans[j].id);
    assert WrittenAt(ss, i, j, key);
    PlanTableKeys(ss, key);
    if LastWriter(ss, i, j, key) {
      PlanTableLastWins(ss, i, j, key);
    }
  }

  /** A request whose identifiers name no loaded plan fails the lookup. */
  lemma ProvisionMissesUnloadedPlan(ss: seq<Service>, serviceID: string, planID: string)
    requires forall i, j :: !WrittenAt(ss, i, j, PlanKey(serviceID, planID))
    ensures FindPlan(PlanTable(ss), serviceID, planID) ==
              Err("plan " + serviceID + "/" + planID + " not found")
  {
    PlanTableKeys(ss, PlanKey(serviceID, planID));
  }

  /** The composite key determines both identifiers when the first holds no '/'. */
  lemma KeyInjective(a: string, b: string, c: string, d: string)
    requires '/' !in a && '/' !in c
    requires PlanKey(a, b) == PlanKey(c, d)
    ensures a == c && b == d
  {
    var k := PlanKey(a, b);
    assert forall x :: 0 <= x < |a| ==> k[x] == a[x] != '/';
    assert forall x :: 0 <= x < |c| ==> k[x] == c[x] != '/';
    assert k[|a|] == '/' && k[|c|] == '/';
    assert k[..|a|] == a && k[..|c|] == c;
    assert k[|a| + 1..] == b && k[|c| + 1..] == d;
  }

  /** Without that condition two different service/plan pairs share a key,
      so the later one shadows the earlier in the table. */
  lemma SlashInIdentifiersCollides(p: Plan, q: Plan)
    requires p.id == "c" && q.id == "b/c"
    ensures PlanKey("a/b", p.id) == PlanKey("a", q.id)
    ensures FindPlan(PlanTable([Service("a/b", [p]), Service("a", [q])]), "a/b", p.id) == Ok(q)
  {
  }
}
