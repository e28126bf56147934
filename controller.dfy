/**
 * SpringBootAppController: the reconciliation pipeline. `reconcile` runs
 * the synchronisers in a fixed order, the optional ones gated by the spec;
 * `delete` runs the teardowns in the reverse order. A step that throws
 * ends the pass (no later step runs) and the exception is swallowed at the
 * top, so both entry points always return normally.
 */
module Controller {
  import opened Wrappers
  import opened Crd
  import opened Naming
  import opened Kube
  import opened Deployments
  import opened Services
  import opened Config
  import opened Database
  import opened Monitoring

  datatype Step =
    | DeploymentSync | ServiceSync | DatabaseSync | ConfigSync | MonitoringSetup
    | MonitoringTeardown | ConfigTeardown | DatabaseTeardown | ServiceTeardown | DeploymentTeardown
  {
    predicate IsSetup() {
      DeploymentSync? || ServiceSync? || DatabaseSync? || ConfigSync? || MonitoringSetup?
    }

    /** Position in the fixed order of its entry point. */
    function Rank(): nat {
      match this
      case DeploymentSync => 0
      case ServiceSync => 1
      case DatabaseSync => 2
      case ConfigSync => 3
      case MonitoringSetup => 4
      case MonitoringTeardown => 0
      case ConfigTeardown => 1
      case DatabaseTeardown => 2
      case ServiceTeardown => 3
      case DeploymentTeardown => 4
    }

    /** The teardown that undoes a set-up step. */
    function Teardown(): Step {
      match this
      case DeploymentSync => DeploymentTeardown
      case ServiceSync => ServiceTeardown
      case DatabaseSync => DatabaseTeardown
      case ConfigSync => ConfigTeardown
      case MonitoringSetup => MonitoringTeardown
      case _ => this
    }
  }

  /** The steps of one reconcile pass, in the order they are attempted. */
  function ReconcilePlan(spec: Spec): (plan: seq<Step>)
    ensures forall i :: 0 <= i < |plan| ==> plan[i].IsSetup()
    ensures forall i, j :: 0 <= i < j < |plan| ==> plan[i].Rank() < plan[j].Rank()
    ensures DeploymentSync in plan && ServiceSync in plan && ConfigSync in plan
    ensures DatabaseSync in plan <==> DatabaseEnabled(spec)
    ensures MonitoringSetup in plan <==> MonitoringEnabled(spec)
  {
    [DeploymentSync, ServiceSync]
      + (if DatabaseEnabled(spec) then [DatabaseSync] else [])
      + [ConfigSync]
      + (if MonitoringEnabled(spec) then [MonitoringSetup] else [])
  }

  /** The steps of one delete pass, in the order they are attempted. */
  function DeletePlan(spec: Spec): (plan: seq<Step>)
    ensures forall i :: 0 <= i < |plan| ==> !plan[i].IsSetup()
    ensures forall i, j :: 0 <= i < j < |plan| ==> plan[i].Rank() < plan[j].Rank()
    ensures ConfigTeardown in plan && ServiceTeardown in plan && DeploymentTeardown in plan
    ensures DatabaseTeardown in plan <==> DatabaseEnabled(spec)
    ensures MonitoringTeardown in plan <==> MonitoringEnabled(spec)
  {
    (if MonitoringEnabled(spec) then [MonitoringTeardown] else [])
      + [ConfigTeardown]
      + (if DatabaseEnabled(spec) then [DatabaseTeardown] else [])
      + [ServiceTeardown, DeploymentTeardown]
  }

  function Reverse(s: seq<Step>): (r: seq<Step>)
    ensures |r| == |s| && forall i :: 0 <= i < |s| ==> r[i] == s[|s| - 1 - i]
  {
    seq(|s|, i requires 0 <= i < |s| => s[|s| - 1 - i])
  }

  function Teardowns(s: seq<Step>): (r: seq<Step>)
    ensures |r| == |s| && forall i :: 0 <= i < |s| ==> r[i] == s[i].Teardown()
  {
    seq(|s|, i requires 0 <= i < |s| => s[i].Teardown())
  }

  /** Deletion undoes the set-up steps in the reverse of their order. */
  lemma DeletePlanReversesReconcile(spec: Spec)
    ensures DeletePlan(spec) == Teardowns(Reverse(ReconcilePlan(spec)))
  {
    UndoPlan(DatabaseEnabled(spec), MonitoringEnabled(spec));
  }

  /** The plans' shapes for each choice of the two optional steps. */
  lemma UndoPlan(database: bool, monitoring: bool)
    ensures
      var db := if database then [DatabaseSync] else [];
      var mon := if monitoring then [MonitoringSetup] else [];
      Teardowns(Reverse([DeploymentSync, ServiceSync] + db + [ConfigSync] + mon))
        == (if monitoring then [MonitoringTeardown] else []) + [ConfigTeardown]
          + (if database then [DatabaseTeardown] else []) + [ServiceTeardown, DeploymentTeardown]
  {
    var db := if database then [DatabaseSync] else [];
    var mon := if monitoring then [MonitoringSetup] else [];
    UndoSteps(db, mon);
    assert Teardowns(db) == (if database then [DatabaseTeardown] else []);
    assert Teardowns(mon) == (if monitoring then [MonitoringTeardown] else []);
  }

  /** Undoing the set-up sequence, whichever optional steps it holds. */
  lemma UndoSteps(db: seq<Step>, mon: seq<Step>)
    requires db == [] || db == [DatabaseSync]
    requires mon == [] || mon == [MonitoringSetup]
    ensures Teardowns(Reverse([DeploymentSync, ServiceSync] + db + [ConfigSync] + mon))
         == Teardowns(mon) + [ConfigTeardown] + Teardowns(db) + [ServiceTeardown, DeploymentTeardown]
  {
    var up := [DeploymentSync, ServiceSync] + db + [ConfigSync] + mon;
    var r := Reverse(up);
    assert r == Reverse(mon) + [ConfigSync] + Reverse(db) + [ServiceSync, DeploymentSync];
    assert Reverse(mon) == mon && Reverse(db) == db;
  }

  /** What the pipeline acts on: the cluster's objects and the RDS backend. */
  datatype World = World(objects: map<Key, Object>, rds: RdsState)

  datatype Outcome = Outcome(world: World, ok: bool)

  function Lift(w: World, a: Applied): Outcome {
    Outcome(w.(objects := a.objects), a.ok)
  }

  /** The store keys a step of this app may write: its four derived objects and its own resource. */
  function OwnedKeys(app: App): set<Key> {
    {DeploymentKey(app), ServiceKey(app), ConfigMapKey(app), SecretKey(app), AppKey(app)}
  }

  /** The four derived objects. */
  function DerivedKeys(app: App): set<Key> {
    {DeploymentKey(app), ServiceKey(app), ConfigMapKey(app), SecretKey(app)}
  }

  /** The two stores agree on every key outside `keys`. */
  ghost predicate AgreeOutside(m1: map<Key, Object>, m2: map<Key, Object>, keys: set<Key>) {
    forall k :: k !in keys ==> (k in m1 <==> k in m2) && (k in m1 ==> m1[k] == m2[k])
  }

  /** The store keys a step may write. */
  function StepKeys(step: Step, app: App): set<Key> {
    match step
    case DeploymentSync => {DeploymentKey(app)}
    case ServiceSync => {ServiceKey(app)}
    case DatabaseSync => {AppKey(app)}
    case ConfigSync => {ConfigMapKey(app), SecretKey(app)}
    case MonitoringSetup => {}
    case MonitoringTeardown => {}
    case ConfigTeardown => {ConfigMapKey(app), SecretKey(app)}
    case DatabaseTeardown => {}
    case ServiceTeardown => {ServiceKey(app)}
    case DeploymentTeardown => {DeploymentKey(app)}
  }

  /** One step: its service call, with failure meaning that the call threw. */
  function RunStep(w: World, rejecting: set<Key>, app: App, uuidPrefix: string, step: Step): (o: Outcome)
    ensures AgreeOutside(o.world.objects, w.objects, StepKeys(step, app))
    ensures AgreeOutside(o.world.objects, w.objects, OwnedKeys(app))
    ensures !step.DatabaseSync? && !step.DatabaseTeardown? ==> o.world.rds == w.rds
    ensures !step.DatabaseSync? ==> AgreeOutside(o.world.objects, w.objects, DerivedKeys(app))
  {
    match step
    case DeploymentSync => Lift(w, SyncDeployment(w.objects, rejecting, app))
    case ServiceSync => Lift(w, SyncService(w.objects, rejecting, app))
    case DatabaseSync =>
      var d := SyncDatabase(w.objects, rejecting, w.rds, app, uuidPrefix);
      Outcome(World(d.objects, d.rds), d.ok)
    case ConfigSync => Lift(w, SyncConfig(w.objects, rejecting, app))
    case MonitoringSetup => Outcome(w, true)
    case MonitoringTeardown => Outcome(w, true)
    case ConfigTeardown => Lift(w, TeardownConfig(w.objects, rejecting, app))
    case DatabaseTeardown =>
      var t := TeardownDatabase(w.rds, app);
      Outcome(w.(rds := t.rds), t.error.None?)
    case ServiceTeardown => Lift(w, TeardownService(w.objects, rejecting, app))
    case DeploymentTeardown => Lift(w, TeardownDeployment(w.objects, rejecting, app))
  }

  /** A pass: the final world, the steps invoked in order, and whether every step returned normally. */
  datatype Run = Run(world: World, invoked: seq<Step>, completed: bool)

  /** `r` preceded by the steps `done`. */
  function After(done: seq<Step>, r: Run): Run {
    Run(r.world, done + r.invoked, r.completed)
  }

  /**
   * Run the steps in order; the first step that fails is the last one
   * invoked, and the pass ends there with whatever that step changed.
   */
  function RunPlan(w: World, rejecting: set<Key>, app: App, uuidPrefix: string, plan: seq<Step>): (r: Run)
    ensures r.invoked <= plan
    ensures r.completed ==> r.invoked == plan
    ensures !r.completed ==> |r.invoked| > 0
    decreases |plan|
  {
    if plan == [] then Run(w, [], true)
    else
      var o := RunStep(w, rejecting, app, uuidPrefix, plan[0]);
      if !o.ok then Run(o.world, [plan[0]], false)
      else After([plan[0]], RunPlan(o.world, rejecting, app, uuidPrefix, plan[1..]))
  }

  /** Running `p1 + p2` runs `p1`, then (only if it completed) `p2` from where it left the world. */
  lemma {:induction false} RunPlanAppend(w: World, rejecting: set<Key>, app: App, uuidPrefix: string, p1: seq<Step>, p2: seq<Step>)
    ensures var r1 := RunPlan(w, rejecting, app, uuidPrefix, p1);
      RunPlan(w, rejecting, app, uuidPrefix, p1 + p2)
        == if r1.completed then After(r1.invoked, RunPlan(r1.world, rejecting, app, uuidPrefix, p2)) else r1
    decreases |p1|
  {
    if p1 == [] {
      assert p1 + p2 == p2;
    } else {
      var s, tail := p1[0], p1[1..];
      assert p1 == [s] + tail && p1 + p2 == [s] + (tail + p2);
      RunPlanCons(w, rejecting, app, uuidPrefix, s, tail);
      RunPlanCons(w, rejecting, app, uuidPrefix, s, tail + p2);
      var o := RunStep(w, rejecting, app, uuidPrefix, s);
      if o.ok {
        RunPlanAppend(o.world, rejecting, app, uuidPrefix, tail, p2);
        var rt := RunPlan(o.world, rejecting, app, uuidPrefix, tail);
        if rt.completed {
          AfterAfter([s], rt.invoked, RunPlan(rt.world, rejecting, app, uuidPrefix, p2));
        }
      }
    }
  }

  /**
   * A pass that does not complete stopped at its last invoked step: every
   * earlier step completed, that step failed from the world they left, and
   * the pass's world is the one that failing step left.
   */
  ghost predicate StoppedAtLastStep(w: World, rejecting: set<Key>, app: App, uuidPrefix: string, plan: seq<Step>) {
    var r := RunPlan(w, rejecting, app, uuidPrefix, plan);
    !r.completed ==>
      var n := |r.invoked| - 1;
      var before := RunPlan(w, rejecting, app, uuidPrefix, plan[..n]);
      var last := RunStep(before.world, rejecting, app, uuidPrefix, plan[n]);
      && before.completed && !last.ok && r.world == last.world
  }

  /** Every pass stops at its first failing step. */
  lemma {:induction false} StopsAtFirstFailure(w: World, rejecting: set<Key>, app: App, uuidPrefix: string, plan: seq<Step>)
    ensures StoppedAtLastStep(w, rejecting, app, uuidPrefix, plan)
    decreases |plan|
  {
    var r := RunPlan(w, rejecting, app, uuidPrefix, plan);
    if plan != [] && !r.completed {
      var o := RunStep(w, rejecting, app, uuidPrefix, plan[0]);
      if o.ok {
        StopsAtFirstFailure(o.world, rejecting, app, uuidPrefix, plan[1..]);
        StopsAfterFirstStep(w, rejecting, app, uuidPrefix, plan);
      } else {
        assert plan[..0] == [];
      }
    }
  }

  /** The inductive step: a pass whose first step succeeds stops where the rest of it stops. */
  lemma StopsAfterFirstStep(w: World, rejecting: set<Key>, app: App, uuidPrefix: string, plan: seq<Step>)
    requires plan != [] && RunStep(w, rejecting, app, uuidPrefix, plan[0]).ok
    requires StoppedAtLastStep(RunStep(w, rejecting, app, uuidPrefix, plan[0]).world, rejecting, app, uuidPrefix, plan[1..])
    ensures StoppedAtLastStep(w, rejecting, app, uuidPrefix, plan)
  {
    var r := RunPlan(w, rejecting, app, uuidPrefix, plan);
    var o := RunStep(w, rejecting, app, uuidPrefix, plan[0]);
    var rest := RunPlan(o.world, rejecting, app, uuidPrefix, plan[1..]);
    assert r == After([plan[0]], rest);
    if !r.completed {
      var m := |rest.invoked| - 1;
      PrefixAfterFirstStep(w, rejecting, app, uuidPrefix, plan, m);
      var inner := RunPlan(o.world, rejecting, app, uuidPrefix, plan[1..][..m]);
      var last := RunStep(inner.world, rejecting, app, uuidPrefix, plan[1..][m]);
      assert inner.completed && !last.ok && rest.world == last.world;
      var before := RunPlan(w, rejecting, app, uuidPrefix, plan[..m + 1]);
      assert |r.invoked| - 1 == m + 1 && before.world == inner.world && before.completed;
      assert RunStep(before.world, rejecting, app, uuidPrefix, plan[m + 1]) == last;
    }
  }

  /** A prefix of a plan whose first step succeeds runs that step, then the rest of the prefix. */
  lemma PrefixAfterFirstStep(w: World, rejecting: set<Key>, app: App, uuidPrefix: string, plan: seq<Step>, m: nat)
    requires m < |plan| - 1 && RunStep(w, rejecting, app, uuidPrefix, plan[0]).ok
    ensures var o := RunStep(w, rejecting, app, uuidPrefix, plan[0]);
      && RunPlan(w, rejecting, app, uuidPrefix, plan[..m + 1])
           == After([plan[0]], RunPlan(o.world, rejecting, app, uuidPrefix, plan[1..][..m]))
      && plan[m + 1] == plan[1..][m]
  {
    assert plan[..m + 1] == [plan[0]] + plan[1..][..m];
    RunPlanCons(w, rejecting, app, uuidPrefix, plan[0], plan[1..][..m]);
  }

  lemma PrefixMembers(s: seq<Step>, t: seq<Step>)
    requires s <= t
    ensures forall x :: x in s ==> x in t
  {
    forall x | x in s
      ensures x in t
    {
      var i :| 0 <= i < |s| && s[i] == x;
      assert t[i] == x;
    }
  }

  /** A gated step that the spec switches off is never invoked, by either entry point, whatever happens. */
  lemma GatedStepsNeverRun(w: World, rejecting: set<Key>, app: App, uuidPrefix: string)
    ensures var up := RunPlan(w, rejecting, app, uuidPrefix, ReconcilePlan(app.spec)).invoked;
      var down := RunPlan(w, rejecting, app, uuidPrefix, DeletePlan(app.spec)).invoked;
      && (!DatabaseEnabled(app.spec) ==> DatabaseSync !in up && DatabaseTeardown !in down)
      && (!MonitoringEnabled(app.spec) ==> MonitoringSetup !in up && MonitoringTeardown !in down)
  {
    var up := RunPlan(w, rejecting, app, uuidPrefix, ReconcilePlan(app.spec)).invoked;
    var down := RunPlan(w, rejecting, app, uuidPrefix, DeletePlan(app.spec)).invoked;
    PrefixMembers(up, ReconcilePlan(app.spec));
    PrefixMembers(down, DeletePlan(app.spec));
  }

  /** Whatever the faults, a pass of either entry point changes no store key outside this app's own. */
  lemma {:induction false} RunPlanFrame(w: World, rejecting: set<Key>, app: App, uuidPrefix: string, plan: seq<Step>)
    ensures AgreeOutside(RunPlan(w, rejecting, app, uuidPrefix, plan).world.objects, w.objects, OwnedKeys(app))
    ensures DatabaseSync !in plan ==>
      AgreeOutside(RunPlan(w, rejecting, app, uuidPrefix, plan).world.objects, w.objects, DerivedKeys(app))
    decreases |plan|
  {
    if plan != [] {
      var o := RunStep(w, rejecting, app, uuidPrefix, plan[0]);
      if o.ok {
        RunPlanFrame(o.world, rejecting, app, uuidPrefix, plan[1..]);
        assert DatabaseSync !in plan ==> DatabaseSync !in plan[1..];
      }
    }
  }

  /** Applications with different namespace or name own disjoint sets of store keys. */
  lemma DistinctAppsDisjointKeys(a1: App, a2: App)
    requires a1.namespace != a2.namespace || a1.name != a2.name
    ensures OwnedKeys(a1) !! OwnedKeys(a2)
  {
    ResourceNameInjectiveInApp(a1.name, a2.name, "app");
    ResourceNameInjectiveInApp(a1.name, a2.name, "service");
    ResourceNameInjectiveInApp(a1.name, a2.name, "config");
    ResourceNameInjectiveInApp(a1.name, a2.name, "secret");
  }

  /** A pass for one application leaves every key of another application as it was. */
  lemma OtherAppsUntouched(w: World, rejecting: set<Key>, app: App, uuidPrefix: string, plan: seq<Step>, other: App)
    requires app.namespace != other.namespace || app.name != other.name
    ensures var r := RunPlan(w, rejecting, app, uuidPrefix, plan);
      forall k :: k in OwnedKeys(other) ==>
        (k in r.world.objects <==> k in w.objects) && (k in w.objects ==> r.world.objects[k] == w.objects[k])
  {
    RunPlanFrame(w, rejecting, app, uuidPrefix, plan);
    DistinctAppsDisjointKeys(app, other);
  }

  // ---------------------------------------------------------------------
  // Reconcile without the database: every step writes spec-determined
  // objects, so a pass overlays a fixed set of writes on whatever the
  // store holds.

  /** What a pass without the database writes, which steps it invokes and whether it completes. */
  datatype Overlay = Overlay(writes: map<Key, Object>, invoked: seq<Step>, completed: bool)

  /** The writes of one set-up step other than the database, from the fault set alone. */
  function StepWrites(step: Step, rejecting: set<Key>, app: App): Applied {
    match step
    case DeploymentSync =>
      if DeploymentKey(app) in rejecting then Applied(map[], false)
      else Applied(map[DeploymentKey(app) := DeploymentObject(DesiredDeployment(app))], true)
    case ServiceSync =>
      if ServiceKey(app) in rejecting then Applied(map[], false)
      else Applied(map[ServiceKey(app) := ServiceObject(DesiredService(app))], true)
    case ConfigSync =>
      if ConfigMapKey(app) in rejecting then Applied(map[], false)
      else if SecretKey(app) in rejecting then Applied(map[ConfigMapKey(app) := ConfigMapObject(DesiredConfigMap(app))], false)
      else Applied(map[ConfigMapKey(app) := ConfigMapObject(DesiredConfigMap(app)),
                       SecretKey(app) := SecretObject(DesiredSecret(app))], true)
    case _ => Applied(map[], true)
  }

  function PlanOverlay(plan: seq<Step>, rejecting: set<Key>, app: App): Overlay
    decreases |plan|
  {
    if plan == [] then Overlay(map[], [], true)
    else
      var d := StepWrites(plan[0], rejecting, app);
      if !d.ok then Overlay(d.objects, [plan[0]], false)
      else
        var rest := PlanOverlay(plan[1..], rejecting, app);
        Overlay(d.objects + rest.writes, [plan[0]] + rest.invoked, rest.completed)
  }

  lemma StepOverlay(w: World, rejecting: set<Key>, app: App, uuidPrefix: string, step: Step)
    requires step.IsSetup() && !step.DatabaseSync?
    ensures var d := StepWrites(step, rejecting, app);
      RunStep(w, rejecting, app, uuidPrefix, step) == Outcome(w.(objects := w.objects + d.objects), d.ok)
  {
    match step
    case DeploymentSync =>
      PutOverlay(w.objects, rejecting, DeploymentObject(DesiredDeployment(app)));
    case ServiceSync =>
      PutOverlay(w.objects, rejecting, ServiceObject(DesiredService(app)));
    case ConfigSync =>
      ConfigOverlay(w.objects, rejecting, app);
    case MonitoringSetup =>
      assert w.objects + map[] == w.objects;
  }

  /** The config step as an overlay: the ConfigMap, then the Secret only if the ConfigMap was written. */
  lemma ConfigOverlay(objects: map<Key, Object>, rejecting: set<Key>, app: App)
    ensures var d := StepWrites(ConfigSync, rejecting, app);
      SyncConfig(objects, rejecting, app) == Applied(objects + d.objects, d.ok)
  {
    var cm := ConfigMapObject(DesiredConfigMap(app));
    var secret := SecretObject(DesiredSecret(app));
    var cmKey, secretKey := ConfigMapKey(app), SecretKey(app);
    if cmKey in rejecting {
      UpdateIsOverlay(objects, map[]);
    } else if secretKey in rejecting {
      assert SyncConfig(objects, rejecting, app) == Applied(objects[cmKey := cm], false);
      UpdateIsOverlay(objects, map[cmKey := cm]);
    } else {
      UpdateIsOverlay(objects, map[cmKey := cm, secretKey := secret]);
    }
  }

  /** Overlaying a map of at most two entries is updating key by key. */
  lemma UpdateIsOverlay(m: map<Key, Object>, writes: map<Key, Object>)
    ensures writes == map[] ==> m + writes == m
    ensures forall k, v :: writes == map[k := v] ==> m + writes == m[k := v]
    ensures forall k1, v1, k2, v2 :: writes == map[k1 := v1, k2 := v2] ==> m + writes == m[k1 := v1][k2 := v2]
  {
  }

  /** createOrReplace as an overlay of at most one write. */
  lemma PutOverlay(objects: map<Key, Object>, rejecting: set<Key>, o: Object)
    ensures Put(objects, rejecting, o).objects
         == objects + if KeyOf(o) in rejecting then map[] else map[KeyOf(o) := o]
  {
    if KeyOf(o) in rejecting {
      assert objects + map[] == objects;
    } else {
      assert objects[KeyOf(o) := o] == objects + map[KeyOf(o) := o];
    }
  }

  lemma UnionAssoc(a: map<Key, Object>, b: map<Key, Object>, c: map<Key, Object>)
    ensures (a + b) + c == a + (b + c)
  {
  }

  /** A pass of set-up steps without the database is the store overlaid with writes that do not depend on the store. */
  lemma {:induction false} RunPlanOverlay(w: World, rejecting: set<Key>, app: App, uuidPrefix: string, plan: seq<Step>)
    requires forall i :: 0 <= i < |plan| ==> plan[i].IsSetup() && !plan[i].DatabaseSync?
    ensures var v := PlanOverlay(plan, rejecting, app);
      RunPlan(w, rejecting, app, uuidPrefix, plan) == Run(w.(objects := w.objects + v.writes), v.invoked, v.completed)
    decreases |plan|
  {
    if plan != [] {
      StepOverlay(w, rejecting, app, uuidPrefix, plan[0]);
      var d := StepWrites(plan[0], rejecting, app);
      var w1 := w.(objects := w.objects + d.objects);
      assert RunStep(w, rejecting, app, uuidPrefix, plan[0]) == Outcome(w1, d.ok);
      if d.ok {
        RunPlanOverlay(w1, rejecting, app, uuidPrefix, plan[1..]);
        var rest := PlanOverlay(plan[1..], rejecting, app);
        assert RunPlan(w, rejecting, app, uuidPrefix, plan) == After([plan[0]], RunPlan(w1, rejecting, app, uuidPrefix, plan[1..]));
        UnionAssoc(w.objects, d.objects, rest.writes);
      }
    }
  }

  /** With the database disabled, a second reconcile on an unchanged spec ends exactly as the first did. */
  lemma ReconcileIdempotentWithoutDatabase(w: World, rejecting: set<Key>, app: App, uuidPrefix: string, uuidPrefix2: string)
    requires !DatabaseEnabled(app.spec)
    ensures var once := RunPlan(w, rejecting, app, uuidPrefix, ReconcilePlan(app.spec));
      RunPlan(once.world, rejecting, app, uuidPrefix2, ReconcilePlan(app.spec)) == once
  {
    var plan := ReconcilePlan(app.spec);
    assert forall i :: 0 <= i < |plan| ==> plan[i].IsSetup() && !plan[i].DatabaseSync? by {
      forall i | 0 <= i < |plan| ensures plan[i].IsSetup() && !plan[i].DatabaseSync? {
        assert plan[i] in plan;
      }
    }
    var v := PlanOverlay(plan, rejecting, app);
    RunPlanOverlay(w, rejecting, app, uuidPrefix, plan);
    var once := RunPlan(w, rejecting, app, uuidPrefix, plan);
    RunPlanOverlay(once.world, rejecting, app, uuidPrefix2, plan);
    UnionIdempotent(w.objects, v.writes);
  }

  lemma UnionIdempotent(a: map<Key, Object>, b: map<Key, Object>)
    ensures (a + b) + b == a + b
  {
  }

  // ---------------------------------------------------------------------
  // Fault-free passes.

  /** The backend answers describe and create, and the instance, if it exists already, has an endpoint. */
  predicate DatabaseReachable(rds: RdsState, app: App, uuidPrefix: string) {
    var id := DbInstanceId(app.name, uuidPrefix);
    rds.faults.describeError.None? && rds.faults.createError.None? && (id !in rds.instances || rds.instances[id].Some?)
  }

  /** The store holds the four derived objects exactly as the spec describes them. */
  ghost predicate HoldsDesired(objects: map<Key, Object>, app: App) {
    && DeploymentKey(app) in objects && objects[DeploymentKey(app)] == DeploymentObject(DesiredDeployment(app))
    && ServiceKey(app) in objects && objects[ServiceKey(app)] == ServiceObject(DesiredService(app))
    && ConfigMapKey(app) in objects && objects[ConfigMapKey(app)] == ConfigMapObject(DesiredConfigMap(app))
    && SecretKey(app) in objects && objects[SecretKey(app)] == SecretObject(DesiredSecret(app))
  }

  /**
   * When no derived key faults (and, with the database enabled, the backend
   * is reachable), reconcile runs every step of its plan and leaves the
   * four derived objects in the store exactly as the spec describes them.
   */
  lemma {:induction false} FaultFreeReconcile(w: World, rejecting: set<Key>, app: App, uuidPrefix: string)
    requires DerivedKeys(app) !! rejecting
    requires DatabaseEnabled(app.spec) ==> DatabaseReachable(w.rds, app, uuidPrefix)
    ensures var r := RunPlan(w, rejecting, app, uuidPrefix, ReconcilePlan(app.spec));
      r.completed && r.invoked == ReconcilePlan(app.spec) && HoldsDesired(r.world.objects, app)
  {
    var front := [DeploymentSync, ServiceSync];
    var db := if DatabaseEnabled(app.spec) then [DatabaseSync] else [];
    var back := [ConfigSync] + (if MonitoringEnabled(app.spec) then [MonitoringSetup] else []);
    assert ReconcilePlan(app.spec) == (front + db) + back;
    RunPlanAppend(w, rejecting, app, uuidPrefix, front + db, back);
    FaultFreeFrontAndDatabase(w, rejecting, app, uuidPrefix, db);
    var r12 := RunPlan(w, rejecting, app, uuidPrefix, front + db);
    FaultFreeBack(r12.world, rejecting, app, uuidPrefix, back);
  }

  lemma FaultFreeFrontAndDatabase(w: World, rejecting: set<Key>, app: App, uuidPrefix: string, db: seq<Step>)
    requires DeploymentKey(app) !in rejecting && ServiceKey(app) !in rejecting
    requires db == if DatabaseEnabled(app.spec) then [DatabaseSync] else []
    requires DatabaseEnabled(app.spec) ==> DatabaseReachable(w.rds, app, uuidPrefix)
    ensures var r := RunPlan(w, rejecting, app, uuidPrefix, [DeploymentSync, ServiceSync] + db);
      && r.completed && r.invoked == [DeploymentSync, ServiceSync] + db
      && DeploymentKey(app) in r.world.objects && r.world.objects[DeploymentKey(app)] == DeploymentObject(DesiredDeployment(app))
      && ServiceKey(app) in r.world.objects && r.world.objects[ServiceKey(app)] == ServiceObject(DesiredService(app))
  {
    var front := [DeploymentSync, ServiceSync];
    RunPlanAppend(w, rejecting, app, uuidPrefix, front, db);
    FaultFreeFront(w, rejecting, app, uuidPrefix);
    var r1 := RunPlan(w, rejecting, app, uuidPrefix, front);
    FaultFreeDatabase(r1.world, rejecting, app, uuidPrefix, db);
    var r2 := RunPlan(r1.world, rejecting, app, uuidPrefix, db);
    KeptOutside(r2.world.objects, r1.world.objects, {AppKey(app)}, DeploymentKey(app));
    KeptOutside(r2.world.objects, r1.world.objects, {AppKey(app)}, ServiceKey(app));
  }

  lemma KeptOutside(m1: map<Key, Object>, m2: map<Key, Object>, keys: set<Key>, k: Key)
    requires AgreeOutside(m1, m2, keys) && k !in keys && k in m2
    ensures k in m1 && m1[k] == m2[k]
  {
  }

  lemma FaultFreeFront(w: World, rejecting: set<Key>, app: App, uuidPrefix: string)
    requires DeploymentKey(app) !in rejecting && ServiceKey(app) !in rejecting
    ensures var r := RunPlan(w, rejecting, app, uuidPrefix, [DeploymentSync, ServiceSync]);
      && r.completed && r.invoked == [DeploymentSync, ServiceSync]
      && DeploymentKey(app) in r.world.objects && r.world.objects[DeploymentKey(app)] == DeploymentObject(DesiredDeployment(app))
      && ServiceKey(app) in r.world.objects && r.world.objects[ServiceKey(app)] == ServiceObject(DesiredService(app))
  {
    var plan := [DeploymentSync, ServiceSync];
    var o1 := RunStep(w, rejecting, app, uuidPrefix, DeploymentSync);
    var o2 := RunStep(o1.world, rejecting, app, uuidPrefix, ServiceSync);
    assert plan[1..] == [ServiceSync] && plan[1..][1..] == [];
    assert RunPlan(o1.world, rejecting, app, uuidPrefix, plan[1..]) == Run(o2.world, [ServiceSync], true);
  }

  lemma FaultFreeDatabase(w: World, rejecting: set<Key>, app: App, uuidPrefix: string, db: seq<Step>)
    requires db == if DatabaseEnabled(app.spec) then [DatabaseSync] else []
    requires DatabaseEnabled(app.spec) ==> DatabaseReachable(w.rds, app, uuidPrefix)
    ensures var r := RunPlan(w, rejecting, app, uuidPrefix, db);
      r.completed && r.invoked == db && AgreeOutside(r.world.objects, w.objects, {AppKey(app)})
  {
    if DatabaseEnabled(app.spec) {
      SyncFindsOrCreates(w, rejecting, app, uuidPrefix);
      assert db[1..] == [];
    } else {
      assert AgreeOutside(w.objects, w.objects, {AppKey(app)});
    }
  }

  lemma FaultFreeBack(w: World, rejecting: set<Key>, app: App, uuidPrefix: string, back: seq<Step>)
    requires back == [ConfigSync] + (if MonitoringEnabled(app.spec) then [MonitoringSetup] else [])
    requires ConfigMapKey(app) !in rejecting && SecretKey(app) !in rejecting
    requires DeploymentKey(app) in w.objects && w.objects[DeploymentKey(app)] == DeploymentObject(DesiredDeployment(app))
    requires ServiceKey(app) in w.objects && w.objects[ServiceKey(app)] == ServiceObject(DesiredService(app))
    ensures var r := RunPlan(w, rejecting, app, uuidPrefix, back);
      r.completed && r.invoked == back && HoldsDesired(r.world.objects, app)
  {
    ConfigCompletesDesired(w.objects, rejecting, app);
    var o := RunStep(w, rejecting, app, uuidPrefix, ConfigSync);
    assert o == Lift(w, SyncConfig(w.objects, rejecting, app));
    if MonitoringEnabled(app.spec) {
      RunPlanCons(w, rejecting, app, uuidPrefix, ConfigSync, [MonitoringSetup]);
      RunPlanCons(o.world, rejecting, app, uuidPrefix, MonitoringSetup, []);
      assert RunStep(o.world, rejecting, app, uuidPrefix, MonitoringSetup) == Outcome(o.world, true);
    } else {
      RunPlanCons(w, rejecting, app, uuidPrefix, ConfigSync, []);
    }
  }

  /** With the deployment and the service in place, a fault-free config step completes the desired objects. */
  lemma ConfigCompletesDesired(objects: map<Key, Object>, rejecting: set<Key>, app: App)
    requires ConfigMapKey(app) !in rejecting && SecretKey(app) !in rejecting
    requires DeploymentKey(app) in objects && objects[DeploymentKey(app)] == DeploymentObject(DesiredDeployment(app))
    requires ServiceKey(app) in objects && objects[ServiceKey(app)] == ServiceObject(DesiredService(app))
    ensures SyncConfig(objects, rejecting, app).ok && HoldsDesired(SyncConfig(objects, rejecting, app).objects, app)
  {
    var r := SyncConfig(objects, rejecting, app);
    assert r.objects == objects[ConfigMapKey(app) := ConfigMapObject(DesiredConfigMap(app))]
      [SecretKey(app) := SecretObject(DesiredSecret(app))];
  }

  lemma SyncFindsOrCreates(w: World, rejecting: set<Key>, app: App, uuidPrefix: string)
    requires DatabaseEnabled(app.spec) && DatabaseReachable(w.rds, app, uuidPrefix)
    ensures RunStep(w, rejecting, app, uuidPrefix, DatabaseSync).ok
  {
    var id := DbInstanceId(app.name, uuidPrefix);
    if id in w.rds.instances {
      SyncFindsReadyInstance(w.objects, rejecting, w.rds, app, uuidPrefix);
    } else {
      SyncRequestsMissingInstance(w.objects, rejecting, w.rds, app, uuidPrefix);
    }
  }

  /** The keys a sequence of steps may write. */
  function PlanKeys(plan: seq<Step>, app: App): set<Key> {
    set i, k | 0 <= i < |plan| && k in StepKeys(plan[i], app) :: k
  }

  /** Teardown steps whose keys do not fault all complete, and remove exactly their keys. */
  lemma {:induction false} FaultFreeTeardowns(w: World, rejecting: set<Key>, app: App, uuidPrefix: string, plan: seq<Step>)
    requires forall i :: 0 <= i < |plan| ==> !plan[i].IsSetup()
    requires PlanKeys(plan, app) !! rejecting
    requires w.rds.faults.deleteError != Some(ClientError)
    ensures var r := RunPlan(w, rejecting, app, uuidPrefix, plan);
      r.completed && r.invoked == plan && r.world.objects == w.objects - PlanKeys(plan, app)
    decreases |plan|
  {
    if plan == [] {
      assert w.objects - PlanKeys(plan, app) == w.objects;
    } else {
      var o := RunStep(w, rejecting, app, uuidPrefix, plan[0]);
      assert StepKeys(plan[0], app) <= PlanKeys(plan, app);
      TeardownStepRemoves(w, rejecting, app, uuidPrefix, plan[0]);
      assert PlanKeys(plan[1..], app) <= PlanKeys(plan, app) by {
        forall k | k in PlanKeys(plan[1..], app) ensures k in PlanKeys(plan, app) {
          var i :| 0 <= i < |plan[1..]| && k in StepKeys(plan[1..][i], app);
          assert plan[i + 1] == plan[1..][i];
        }
      }
      FaultFreeTeardowns(o.world, rejecting, app, uuidPrefix, plan[1..]);
      assert PlanKeys(plan, app) == StepKeys(plan[0], app) + PlanKeys(plan[1..], app) by {
        forall k | k in PlanKeys(plan, app) ensures k in StepKeys(plan[0], app) + PlanKeys(plan[1..], app) {
          var i :| 0 <= i < |plan| && k in StepKeys(plan[i], app);
          if i > 0 {
            assert plan[1..][i - 1] == plan[i];
          }
        }
      }
      var r := RunPlan(w, rejecting, app, uuidPrefix, plan);
      assert r.world.objects == (w.objects - StepKeys(plan[0], app)) - PlanKeys(plan[1..], app);
    }
  }

  lemma TeardownStepRemoves(w: World, rejecting: set<Key>, app: App, uuidPrefix: string, step: Step)
    requires !step.IsSetup() && StepKeys(step, app) !! rejecting
    requires w.rds.faults.deleteError != Some(ClientError)
    ensures var o := RunStep(w, rejecting, app, uuidPrefix, step);
      o.ok && o.world.objects == w.objects - StepKeys(step, app) && o.world.rds.faults == w.rds.faults
  {
  }

  /**
   * When no derived key faults and the backend's delete call does not fail
   * on the client side, delete runs every step of its plan and removes
   * exactly the four derived objects; nothing else in the store changes,
   * the application's own resource included.
   */
  lemma FaultFreeDelete(w: World, rejecting: set<Key>, app: App, uuidPrefix: string)
    requires DerivedKeys(app) !! rejecting
    requires w.rds.faults.deleteError != Some(ClientError)
    ensures var r := RunPlan(w, rejecting, app, uuidPrefix, DeletePlan(app.spec));
      r.completed && r.invoked == DeletePlan(app.spec) && r.world.objects == w.objects - DerivedKeys(app)
  {
    var plan := DeletePlan(app.spec);
    assert PlanKeys(plan, app) == DerivedKeys(app) by {
      assert forall i :: 0 <= i < |plan| ==> StepKeys(plan[i], app) <= DerivedKeys(app);
      var c :| 0 <= c < |plan| && plan[c] == ConfigTeardown;
      var s :| 0 <= s < |plan| && plan[s] == ServiceTeardown;
      var d :| 0 <= d < |plan| && plan[d] == DeploymentTeardown;
      assert StepKeys(plan[c], app) + StepKeys(plan[s], app) + StepKeys(plan[d], app) == DerivedKeys(app);
    }
    FaultFreeTeardowns(w, rejecting, app, uuidPrefix, plan);
  }

  /**
   * A fault-free delete after a fault-free reconcile leaves no derived
   * object of the application, and every key outside the application's own
   * as it was before the reconcile.
   */
  lemma ReconcileThenDelete(w: World, rejecting: set<Key>, app: App, uuidPrefix: string, deletePrefix: string)
    requires DerivedKeys(app) !! rejecting
    requires DatabaseEnabled(app.spec) ==> DatabaseReachable(w.rds, app, uuidPrefix)
    requires w.rds.faults.deleteError != Some(ClientError)
    ensures var up := RunPlan(w, rejecting, app, uuidPrefix, ReconcilePlan(app.spec));
      var down := RunPlan(up.world, rejecting, app, deletePrefix, DeletePlan(app.spec));
      && up.completed && down.completed && HoldsDesired(up.world.objects, app)
      && DerivedKeys(app) !! down.world.objects.Keys
      && AgreeOutside(down.world.objects, w.objects, OwnedKeys(app))
  {
    FaultFreeReconcile(w, rejecting, app, uuidPrefix);
    RunPlanFrame(w, rejecting, app, uuidPrefix, ReconcilePlan(app.spec));
    var up := RunPlan(w, rejecting, app, uuidPrefix, ReconcilePlan(app.spec));
    RunPlanKeepsFaults(w, rejecting, app, uuidPrefix, ReconcilePlan(app.spec));
    FaultFreeDelete(up.world, rejecting, app, deletePrefix);
  }

  /** No step changes how the backend fails. */
  lemma {:induction false} RunPlanKeepsFaults(w: World, rejecting: set<Key>, app: App, uuidPrefix: string, plan: seq<Step>)
    ensures RunPlan(w, rejecting, app, uuidPrefix, plan).world.rds.faults == w.rds.faults
    decreases |plan|
  {
    if plan != [] {
      var o := RunStep(w, rejecting, app, uuidPrefix, plan[0]);
      assert o.world.rds.faults == w.rds.faults;
      if o.ok {
        RunPlanKeepsFaults(o.world, rejecting, app, uuidPrefix, plan[1..]);
      }
    }
  }

  /**
   * A client-side failure of the RDS delete call escapes deleteDatabase and
   * ends the delete pass there: the ConfigMap and Secret are gone, but the
   * Service and the Deployment stay.
   */
  lemma ClientFailureStopsDelete(w: World, rejecting: set<Key>, app: App)
    requires DatabaseEnabled(app.spec) && w.rds.faults.deleteError == Some(ClientError)
    requires app.status.Some? && app.status.value.databaseId.Some? && app.status.value.databaseId.value != ""
    requires ConfigMapKey(app) !in rejecting && SecretKey(app) !in rejecting
    ensures var r := RunPlan(w, rejecting, app, "", DeletePlan(app.spec));
      && !r.completed && r.invoked[|r.invoked| - 1] == DatabaseTeardown
      && ServiceTeardown !in r.invoked && DeploymentTeardown !in r.invoked
      && r.world.objects == w.objects - {ConfigMapKey(app), SecretKey(app)}
  {
    DeleteFollowsPlan(w, rejecting, app);
    DeleteRunStopsAtDatabase(w, rejecting, app);
  }

  /** The straight-line delete under a client-side failure of the RDS delete call. */
  lemma DeleteRunStopsAtDatabase(w: World, rejecting: set<Key>, app: App)
    requires DatabaseEnabled(app.spec) && w.rds.faults.deleteError == Some(ClientError)
    requires app.status.Some? && app.status.value.databaseId.Some? && app.status.value.databaseId.value != ""
    requires ConfigMapKey(app) !in rejecting && SecretKey(app) !in rejecting
    ensures var mon := if MonitoringEnabled(app.spec) then [MonitoringTeardown] else [];
      var r := DeleteRun(w, rejecting, app);
      && !r.completed && r.invoked == mon + [ConfigTeardown, DatabaseTeardown]
      && r.world.objects == w.objects - {ConfigMapKey(app), SecretKey(app)}
  {
    var mon := if MonitoringEnabled(app.spec) then [MonitoringTeardown] else [];
    var o1 := if MonitoringEnabled(app.spec) then RunStep(w, rejecting, app, "", MonitoringTeardown) else Outcome(w, true);
    assert o1 == Outcome(w, true);
    var o2 := RunStep(w, rejecting, app, "", ConfigTeardown);
    assert o2 == Lift(w, TeardownConfig(w.objects, rejecting, app));
    DeleteRestStopsAtDatabase(o2.world, rejecting, app);
    assert mon + [ConfigTeardown] + [DatabaseTeardown] == mon + [ConfigTeardown, DatabaseTeardown];
  }

  /** The tail of delete stops at the database step when the RDS delete call fails on the client side. */
  lemma DeleteRestStopsAtDatabase(w: World, rejecting: set<Key>, app: App)
    requires DatabaseEnabled(app.spec) && w.rds.faults.deleteError == Some(ClientError)
    requires app.status.Some? && app.status.value.databaseId.Some? && app.status.value.databaseId.value != ""
    ensures DeleteRest(w, rejecting, app) == Run(w.(rds := TeardownDatabase(w.rds, app).rds), [DatabaseTeardown], false)
  {
    var t := TeardownDatabase(w.rds, app);
    assert t.error == Some(ClientError);
    assert RunStep(w, rejecting, app, "", DatabaseTeardown) == Outcome(w.(rds := t.rds), false);
  }

  // ---------------------------------------------------------------------
  // The controller.

  /**
   * reconcile as written: each step in turn, returning at the first one
   * that fails; the database and monitoring steps only when enabled.
   */
  function ReconcileRun(w: World, rejecting: set<Key>, app: App, uuidPrefix: string): Run {
    var o1 := RunStep(w, rejecting, app, uuidPrefix, DeploymentSync);
    if !o1.ok then Run(o1.world, [DeploymentSync], false)
    else After([DeploymentSync], ReconcileFromService(o1.world, rejecting, app, uuidPrefix))
  }

  /** reconcile from the service onwards, once the deployment is in place. */
  function ReconcileFromService(w: World, rejecting: set<Key>, app: App, uuidPrefix: string): Run {
    var o2 := RunStep(w, rejecting, app, uuidPrefix, ServiceSync);
    if !o2.ok then Run(o2.world, [ServiceSync], false)
    else After([ServiceSync], ReconcileRest(o2.world, rejecting, app, uuidPrefix))
  }

  /** The rest of reconcile, once the deployment and the service are in place. */
  function ReconcileRest(w: World, rejecting: set<Key>, app: App, uuidPrefix: string): Run {
    var db := if DatabaseEnabled(app.spec) then [DatabaseSync] else [];
    var o3 := if DatabaseEnabled(app.spec) then RunStep(w, rejecting, app, uuidPrefix, DatabaseSync) else Outcome(w, true);
    if !o3.ok then Run(o3.world, db, false)
    else After(db, ReconcileFromConfig(o3.world, rejecting, app, uuidPrefix))
  }

  /** The config and monitoring steps that end reconcile. */
  function ReconcileFromConfig(w: World, rejecting: set<Key>, app: App, uuidPrefix: string): Run {
    var mon := if MonitoringEnabled(app.spec) then [MonitoringSetup] else [];
    var o4 := RunStep(w, rejecting, app, uuidPrefix, ConfigSync);
    if !o4.ok then Run(o4.world, [ConfigSync], false) else
    var o5 := if MonitoringEnabled(app.spec) then RunStep(o4.world, rejecting, app, uuidPrefix, MonitoringSetup) else Outcome(o4.world, true);
    Run(o5.world, [ConfigSync] + mon, o5.ok)
  }

  /** delete as written, in the same manner. */
  function DeleteRun(w: World, rejecting: set<Key>, app: App): Run {
    var mon := if MonitoringEnabled(app.spec) then [MonitoringTeardown] else [];
    var o1 := if MonitoringEnabled(app.spec) then RunStep(w, rejecting, app, "", MonitoringTeardown) else Outcome(w, true);
    if !o1.ok then Run(o1.world, mon, false) else
    var o2 := RunStep(o1.world, rejecting, app, "", ConfigTeardown);
    if !o2.ok then Run(o2.world, mon + [ConfigTeardown], false) else
    After(mon + [ConfigTeardown], DeleteRest(o2.world, rejecting, app))
  }

  /** The rest of delete, once the monitoring and config resources are gone. */
  function DeleteRest(w: World, rejecting: set<Key>, app: App): Run {
    var db := if DatabaseEnabled(app.spec) then [DatabaseTeardown] else [];
    var o3 := if DatabaseEnabled(app.spec) then RunStep(w, rejecting, app, "", DatabaseTeardown) else Outcome(w, true);
    if !o3.ok then Run(o3.world, db, false) else
    var o4 := RunStep(o3.world, rejecting, app, "", ServiceTeardown);
    if !o4.ok then Run(o4.world, db + [ServiceTeardown], false) else
    var o5 := RunStep(o4.world, rejecting, app, "", DeploymentTeardown);
    Run(o5.world, db + [ServiceTeardown, DeploymentTeardown], o5.ok)
  }

  /** Running a plan that starts with `s` runs `s`, then the rest only if `s` returned normally. */
  lemma RunPlanCons(w: World, rejecting: set<Key>, app: App, uuidPrefix: string, s: Step, rest: seq<Step>)
    ensures var o := RunStep(w, rejecting, app, uuidPrefix, s);
      RunPlan(w, rejecting, app, uuidPrefix, [s] + rest)
        == if o.ok then After([s], RunPlan(o.world, rejecting, app, uuidPrefix, rest)) else Run(o.world, [s], false)
  {
    assert ([s] + rest)[0] == s;
    assert ([s] + rest)[1..] == rest;
  }

  /** A step gated by `enabled` is either run on its own or skipped. */
  lemma RunPlanGated(w: World, rejecting: set<Key>, app: App, uuidPrefix: string, s: Step, enabled: bool)
    ensures var o := RunStep(w, rejecting, app, uuidPrefix, s);
      RunPlan(w, rejecting, app, uuidPrefix, if enabled then [s] else [])
        == if enabled then Run(o.world, [s], o.ok) else Run(w, [], true)
  {
    if enabled {
      RunPlanCons(w, rejecting, app, uuidPrefix, s, []);
      assert [s] + [] == [s];
    }
  }

  /** The tail of reconcile is the pipeline over database (if enabled), config, monitoring (if enabled). */
  lemma ReconcileRestFollowsPlan(w: World, rejecting: set<Key>, app: App, uuidPrefix: string)
    ensures var db := if DatabaseEnabled(app.spec) then [DatabaseSync] else [];
      var mon := if MonitoringEnabled(app.spec) then [MonitoringSetup] else [];
      ReconcileRest(w, rejecting, app, uuidPrefix) == RunPlan(w, rejecting, app, uuidPrefix, db + [ConfigSync] + mon)
  {
    var db := if DatabaseEnabled(app.spec) then [DatabaseSync] else [];
    var mon := if MonitoringEnabled(app.spec) then [MonitoringSetup] else [];
    assert db + [ConfigSync] + mon == db + ([ConfigSync] + mon);
    RunPlanAppend(w, rejecting, app, uuidPrefix, db, [ConfigSync] + mon);
    RunPlanGated(w, rejecting, app, uuidPrefix, DatabaseSync, DatabaseEnabled(app.spec));
    var r1 := RunPlan(w, rejecting, app, uuidPrefix, db);
    if r1.completed {
      ReconcileFromConfigFollowsPlan(r1.world, rejecting, app, uuidPrefix);
    }
  }

  /** The config step, then monitoring if enabled, runs as the pipeline does. */
  lemma ReconcileFromConfigFollowsPlan(w: World, rejecting: set<Key>, app: App, uuidPrefix: string)
    ensures var mon := if MonitoringEnabled(app.spec) then [MonitoringSetup] else [];
      ReconcileFromConfig(w, rejecting, app, uuidPrefix) == RunPlan(w, rejecting, app, uuidPrefix, [ConfigSync] + mon)
  {
    var mon := if MonitoringEnabled(app.spec) then [MonitoringSetup] else [];
    RunPlanCons(w, rejecting, app, uuidPrefix, ConfigSync, mon);
    var o4 := RunStep(w, rejecting, app, uuidPrefix, ConfigSync);
    RunPlanGated(o4.world, rejecting, app, uuidPrefix, MonitoringSetup, MonitoringEnabled(app.spec));
  }

  /** The straight-line reconcile is the pipeline run over the reconcile plan. */
  lemma ReconcileFollowsPlan(w: World, rejecting: set<Key>, app: App, uuidPrefix: string)
    ensures ReconcileRun(w, rejecting, app, uuidPrefix) == RunPlan(w, rejecting, app, uuidPrefix, ReconcilePlan(app.spec))
  {
    var db := if DatabaseEnabled(app.spec) then [DatabaseSync] else [];
    var mon := if MonitoringEnabled(app.spec) then [MonitoringSetup] else [];
    var rest := db + [ConfigSync] + mon;
    assert ReconcilePlan(app.spec) == [DeploymentSync] + ([ServiceSync] + rest);
    ReconcileFront(w, rejecting, app, uuidPrefix, rest);
  }

  /** The deployment and the service steps, followed by the tail, run as the pipeline does. */
  lemma ReconcileFront(w: World, rejecting: set<Key>, app: App, uuidPrefix: string, rest: seq<Step>)
    requires rest == (if DatabaseEnabled(app.spec) then [DatabaseSync] else []) + [ConfigSync]
      + (if MonitoringEnabled(app.spec) then [MonitoringSetup] else [])
    ensures ReconcileRun(w, rejecting, app, uuidPrefix) == RunPlan(w, rejecting, app, uuidPrefix, [DeploymentSync] + ([ServiceSync] + rest))
  {
    RunPlanCons(w, rejecting, app, uuidPrefix, DeploymentSync, [ServiceSync] + rest);
    var o1 := RunStep(w, rejecting, app, uuidPrefix, DeploymentSync);
    if o1.ok {
      ReconcileFromServiceFollowsPlan(o1.world, rejecting, app, uuidPrefix, rest);
    }
  }

  /** The service step, followed by the tail, runs as the pipeline does. */
  lemma ReconcileFromServiceFollowsPlan(w: World, rejecting: set<Key>, app: App, uuidPrefix: string, rest: seq<Step>)
    requires rest == (if DatabaseEnabled(app.spec) then [DatabaseSync] else []) + [ConfigSync]
      + (if MonitoringEnabled(app.spec) then [MonitoringSetup] else [])
    ensures ReconcileFromService(w, rejecting, app, uuidPrefix) == RunPlan(w, rejecting, app, uuidPrefix, [ServiceSync] + rest)
  {
    RunPlanCons(w, rejecting, app, uuidPrefix, ServiceSync, rest);
    var o2 := RunStep(w, rejecting, app, uuidPrefix, ServiceSync);
    if o2.ok {
      ReconcileRestFollowsPlan(o2.world, rejecting, app, uuidPrefix);
    }
  }

  /** The tail of delete is the pipeline over database (if enabled), service, deployment. */
  lemma DeleteRestFollowsPlan(w: World, rejecting: set<Key>, app: App)
    ensures var db := if DatabaseEnabled(app.spec) then [DatabaseTeardown] else [];
      DeleteRest(w, rejecting, app) == RunPlan(w, rejecting, app, "", db + [ServiceTeardown, DeploymentTeardown])
  {
    var db := if DatabaseEnabled(app.spec) then [DatabaseTeardown] else [];
    RunPlanAppend(w, rejecting, app, "", db, [ServiceTeardown, DeploymentTeardown]);
    RunPlanGated(w, rejecting, app, "", DatabaseTeardown, DatabaseEnabled(app.spec));
    var r1 := RunPlan(w, rejecting, app, "", db);
    if r1.completed {
      assert [ServiceTeardown, DeploymentTeardown] == [ServiceTeardown] + [DeploymentTeardown];
      RunPlanCons(r1.world, rejecting, app, "", ServiceTeardown, [DeploymentTeardown]);
      var o4 := RunStep(r1.world, rejecting, app, "", ServiceTeardown);
      RunPlanGated(o4.world, rejecting, app, "", DeploymentTeardown, true);
    }
  }

  /** The straight-line delete is the pipeline run over the delete plan. */
  lemma DeleteFollowsPlan(w: World, rejecting: set<Key>, app: App)
    ensures DeleteRun(w, rejecting, app) == RunPlan(w, rejecting, app, "", DeletePlan(app.spec))
  {
    var mon := if MonitoringEnabled(app.spec) then [MonitoringTeardown] else [];
    var db := if DatabaseEnabled(app.spec) then [DatabaseTeardown] else [];
    var tail := db + [ServiceTeardown, DeploymentTeardown];
    assert DeletePlan(app.spec) == mon + ([ConfigTeardown] + tail);
    DeleteFront(w, rejecting, app, mon, tail);
  }

  /** The monitoring and config teardowns, followed by the tail, run as the pipeline does. */
  lemma DeleteFront(w: World, rejecting: set<Key>, app: App, mon: seq<Step>, tail: seq<Step>)
    requires mon == if MonitoringEnabled(app.spec) then [MonitoringTeardown] else []
    requires tail == (if DatabaseEnabled(app.spec) then [DatabaseTeardown] else []) + [ServiceTeardown, DeploymentTeardown]
    ensures DeleteRun(w, rejecting, app) == RunPlan(w, rejecting, app, "", mon + ([ConfigTeardown] + tail))
  {
    RunPlanAppend(w, rejecting, app, "", mon, [ConfigTeardown] + tail);
    RunPlanGated(w, rejecting, app, "", MonitoringTeardown, MonitoringEnabled(app.spec));
    var r1 := RunPlan(w, rejecting, app, "", mon);
    if r1.completed {
      RunPlanCons(r1.world, rejecting, app, "", ConfigTeardown, tail);
      var o2 := RunStep(r1.world, rejecting, app, "", ConfigTeardown);
      if o2.ok {
        DeleteRestFollowsPlan(o2.world, rejecting, app);
        var rt := RunPlan(o2.world, rejecting, app, "", tail);
        AfterAfter(mon, [ConfigTeardown], rt);
      }
    }
  }

  /** Prefixing invoked steps twice is prefixing their concatenation. */
  lemma AfterAfter(a: seq<Step>, b: seq<Step>, r: Run)
    ensures After(a, After(b, r)) == After(a + b, r)
  {
    assert a + (b + r.invoked) == a + b + r.invoked;
  }

  /** A change to a SpringBootApp resource, as the informer reports it. */
  datatype Event =
    | Added(app: App)
    | Updated(previous: App, current: App)
    | Deleted(app: App, finalStateUnknown: bool)

  class SpringBootAppController {
    const cluster: Cluster
    const rds: RdsBackend

    constructor (cluster: Cluster, rds: RdsBackend)
      ensures this.cluster == cluster && this.rds == rds
    {
      this.cluster := cluster;
      this.rds := rds;
    }

    function State(): World
      reads cluster, rds
    {
      World(cluster.objects, rds.State())
    }

    /**
     * reconcile: deployment, service, database (if enabled), config,
     * monitoring (if enabled); the first step that throws ends the pass,
     * and the exception goes no further. `invoked` records the steps called.
     */
    method Reconcile(app: App, uuidPrefix: string) returns (ghost invoked: seq<Step>)
      modifies cluster, rds
      ensures var run := ReconcileRun(old(State()), cluster.rejecting, app, uuidPrefix);
        State() == run.world && invoked == run.invoked
    {
      var spec := app.spec;
      ghost var w0 := State();
      var ok := CreateOrUpdateDeployment(cluster, app);
      ghost var w := State();
      assert RunStep(w0, cluster.rejecting, app, uuidPrefix, DeploymentSync) == Outcome(w, ok);
      if !ok {
        return [DeploymentSync];
      }
      ghost var w1 := w;
      ok := CreateOrUpdateService(cluster, app);
      w := State();
      assert RunStep(w1, cluster.rejecting, app, uuidPrefix, ServiceSync) == Outcome(w, ok);
      if !ok {
        return [DeploymentSync, ServiceSync];
      }
      invoked := ReconcileRemaining(app, uuidPrefix);
      invoked := [DeploymentSync] + ([ServiceSync] + invoked);
    }

    /** The rest of reconcile: database (if enabled), then config and monitoring. */
    method ReconcileRemaining(app: App, uuidPrefix: string) returns (ghost invoked: seq<Step>)
      modifies cluster, rds
      ensures var run := ReconcileRest(old(State()), cluster.rejecting, app, uuidPrefix);
        State() == run.world && invoked == run.invoked
    {
      ghost var w := State();
      if DatabaseEnabled(app.spec) {
        var ok := CreateOrUpdateDatabase(cluster, rds, app, uuidPrefix);
        assert RunStep(w, cluster.rejecting, app, uuidPrefix, DatabaseSync) == Outcome(State(), ok);
        if !ok {
          return [DatabaseSync];
        }
      }
      invoked := ReconcileConfigAndMonitoring(app, uuidPrefix);
      invoked := (if DatabaseEnabled(app.spec) then [DatabaseSync] else []) + invoked;
    }

    /** The end of reconcile: config, then monitoring (if enabled). */
    method ReconcileConfigAndMonitoring(app: App, uuidPrefix: string) returns (ghost invoked: seq<Step>)
      modifies cluster, rds
      ensures var run := ReconcileFromConfig(old(State()), cluster.rejecting, app, uuidPrefix);
        State() == run.world && invoked == run.invoked
    {
      ghost var w := State();
      var ok := CreateOrUpdateConfigResources(cluster, app);
      ghost var w1 := State();
      assert RunStep(w, cluster.rejecting, app, uuidPrefix, ConfigSync) == Outcome(w1, ok);
      if !ok {
        assert ReconcileFromConfig(w, cluster.rejecting, app, uuidPrefix) == Run(w1, [ConfigSync], false);
        return [ConfigSync];
      }
      if MonitoringEnabled(app.spec) {
        ok := SetupMonitoring(app);
        assert RunStep(w1, cluster.rejecting, app, uuidPrefix, MonitoringSetup) == Outcome(w1, ok);
      }
      invoked := [ConfigSync] + (if MonitoringEnabled(app.spec) then [MonitoringSetup] else []);
      assert ReconcileFromConfig(w, cluster.rejecting, app, uuidPrefix) == Run(w1, invoked, true);
    }

    /**
     * delete: monitoring (if enabled), config, database (if enabled),
     * service, deployment; the first step that throws ends the pass, and
     * the exception goes no further.
     */
    method Delete(app: App) returns (ghost invoked: seq<Step>)
      modifies cluster, rds
      ensures var run := DeleteRun(old(State()), cluster.rejecting, app);
        State() == run.world && invoked == run.invoked
    {
      ghost var mon: seq<Step> := if MonitoringEnabled(app.spec) then [MonitoringTeardown] else [];
      ghost var w0 := State();
      if MonitoringEnabled(app.spec) {
        var done := DeleteMonitoring(app);
        assert RunStep(w0, cluster.rejecting, app, "", MonitoringTeardown) == Outcome(w0, done);
      }
      var ok := DeleteConfigResources(cluster, app);
      ghost var w := State();
      assert RunStep(w0, cluster.rejecting, app, "", ConfigTeardown) == Outcome(w, ok);
      if !ok {
        return mon + [ConfigTeardown];
      }
      invoked := DeleteRemaining(app);
      invoked := mon + [ConfigTeardown] + invoked;
    }

    /** The rest of delete: database (if enabled), service, deployment. */
    method DeleteRemaining(app: App) returns (ghost invoked: seq<Step>)
      modifies cluster, rds
      ensures var run := DeleteRest(old(State()), cluster.rejecting, app);
        State() == run.world && invoked == run.invoked
    {
      ghost var db: seq<Step> := if DatabaseEnabled(app.spec) then [DatabaseTeardown] else [];
      ghost var w := State();
      ghost var w2 := w;
      if DatabaseEnabled(app.spec) {
        var dbOk := DeleteDatabase(rds, app);
        w := State();
        assert RunStep(w2, cluster.rejecting, app, "", DatabaseTeardown) == Outcome(w, dbOk);
        if !dbOk {
          return db;
        }
      }
      ghost var w3 := w;
      var ok := DeleteService(cluster, app);
      w := State();
      assert RunStep(w3, cluster.rejecting, app, "", ServiceTeardown) == Outcome(w, ok);
      if !ok {
        return db + [ServiceTeardown];
      }
      ghost var w4 := w;
      ok := DeleteDeployment(cluster, app);
      w := State();
      assert RunStep(w4, cluster.rejecting, app, "", DeploymentTeardown) == Outcome(w, ok);
      invoked := db + [ServiceTeardown, DeploymentTeardown];
    }

    /**
     * The informer's handler: an added or updated resource is reconciled
     * (the updated one in its new form), a deleted one is deleted.
     */
    method Handle(event: Event, uuidPrefix: string)
      modifies cluster, rds
      ensures event.Added? ==> State() == ReconcileRun(old(State()), cluster.rejecting, event.app, uuidPrefix).world
      ensures event.Updated? ==> State() == ReconcileRun(old(State()), cluster.rejecting, event.current, uuidPrefix).world
      ensures event.Deleted? ==> State() == DeleteRun(old(State()), cluster.rejecting, event.app).world
    {
      match event {
        case Added(app) =>
          var _ := Reconcile(app, uuidPrefix);
        case Updated(_, current) =>
          var _ := Reconcile(current, uuidPrefix);
        case Deleted(app, _) =>
          var _ := Delete(app);
      }
    }
  }
}
