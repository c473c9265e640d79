/**
 * Properties of one reconciliation with any pair of callbacks: what
 * Reconcile returns on each error, what it reads and writes and in which
 * order, what the store holds after it succeeds, when it succeeds, and that
 * a second run right after a successful one writes nothing. The reconciler's
 * own callbacks are one instance (reconciler_lemmas.dfy).
 */
module ReconcileProperties {
  import opened Wrappers
  import opened Meta
  import opened Api
  import opened Store
  import opened Controllers
  import opened CreateOrUpdateProperties
  import opened CallbackProperties

  /** The calls made since the journal held `n` entries. */
  function Since(w: World, n: nat): seq<Call>
  {
    if n <= |w.journal| then w.journal[n..] else []
  }

  /** What the Deployment callback makes of the Deployment it finds (or of the blank one). */
  function DeploymentOutcome(w: World, req: NamespacedName, cb: Callbacks): Result<Object, ApiError>
    requires WellFormed(w) && Applicable(cb) && ParentKey(req) in w.objects
  {
    var app := ParentOf(w, req);
    Mutate(cb.deployment(app), DeploymentKey(req), Base(w, DeploymentObject(BlankDeployment(app))))
  }

  /** What the Service callback makes of the Service it finds (or of the blank one). */
  function ServiceOutcome(w: World, req: NamespacedName, cb: Callbacks): Result<Object, ApiError>
    requires WellFormed(w) && Applicable(cb) && ParentKey(req) in w.objects
  {
    var app := ParentOf(w, req);
    Mutate(cb.service(app), ServiceKey(req), Base(w, ServiceObject(BlankService(app))))
  }

  // ---------------------------------------------------------------------
  // Failures

  /** A request whose AppService is gone succeeds, reads nothing else and writes nothing. */
  lemma ReconcileParentGone(w: World, req: NamespacedName, cb: Callbacks)
    requires WellFormed(w) && Applicable(cb)
    requires ParentKey(req) !in w.objects && Call(Get, ParentKey(req)) !in w.faults
    ensures ReconcileWith(w, req, cb).0 == Pass
    ensures ReconcileWith(w, req, cb).1.objects == w.objects
    ensures ReconcileWith(w, req, cb).1.journal == w.journal + [Call(Get, ParentKey(req))]
  {
  }

  /**
   * When the fetch of the AppService fails, Reconcile returns that error (or
   * nothing, for NotFound) and neither reads nor writes any child.
   */
  lemma ReconcileParentFetchFails(w: World, req: NamespacedName, cb: Callbacks)
    requires WellFormed(w) && Applicable(cb)
    requires Call(Get, ParentKey(req)) in w.faults
    ensures var e := w.faults[Call(Get, ParentKey(req))];
      ReconcileWith(w, req, cb).0 == if e.NotFound? then Pass else Fail(e)
    ensures ReconcileWith(w, req, cb).1.objects == w.objects
    ensures ReconcileWith(w, req, cb).1.journal == w.journal + [Call(Get, ParentKey(req))]
  {
  }

  /**
   * When the Deployment step fails, Reconcile returns its error and leaves
   * the Service unread and unwritten.
   */
  lemma ReconcileDeploymentFails(w: World, req: NamespacedName, cb: Callbacks)
    requires WellFormed(w) && Applicable(cb)
    requires ParentKey(req) in w.objects && Call(Get, ParentKey(req)) !in w.faults
    requires DeploymentStep(Log(w, Call(Get, ParentKey(req))), ParentOf(w, req), cb).0.Failure?
    ensures ReconcileWith(w, req, cb).0 ==
      Fail(DeploymentStep(Log(w, Call(Get, ParentKey(req))), ParentOf(w, req), cb).0.error)
    ensures forall c | c in Since(ReconcileWith(w, req, cb).1, |w.journal|) :: c.key != ServiceKey(req)
    ensures ReconcileWith(w, req, cb).1.objects == w.objects
  {
    var app := ParentOf(w, req);
    var w1 := Log(w, Call(Get, ParentKey(req)));
    CreateOrUpdateLog(w1, DeploymentObject(BlankDeployment(app)), cb.deployment(app));
    var w2 := DeploymentStep(w1, app, cb).1;
    assert ReconcileWith(w, req, cb).1 == w2;
  }

  /**
   * When the Service step fails, Reconcile returns its error; whatever the
   * Deployment step stored stays stored.
   */
  lemma ReconcileServiceFails(w: World, req: NamespacedName, cb: Callbacks)
    requires WellFormed(w) && Applicable(cb)
    requires ParentKey(req) in w.objects && Call(Get, ParentKey(req)) !in w.faults
    requires var w2 := DeploymentStep(Log(w, Call(Get, ParentKey(req))), ParentOf(w, req), cb);
      w2.0.Success? && ServiceStep(w2.1, ParentOf(w, req), cb).0.Failure?
    ensures var w2 := DeploymentStep(Log(w, Call(Get, ParentKey(req))), ParentOf(w, req), cb);
      ReconcileWith(w, req, cb) == (Fail(ServiceStep(w2.1, ParentOf(w, req), cb).0.error), ServiceStep(w2.1, ParentOf(w, req), cb).1)
    ensures var w2 := DeploymentStep(Log(w, Call(Get, ParentKey(req))), ParentOf(w, req), cb);
      ReconcileWith(w, req, cb).1.objects == w2.1.objects
  {
  }

  // ---------------------------------------------------------------------
  // Footprint

  /**
   * Reconcile's footprint and order: it reads the AppService first, then
   * touches only the Deployment and the Service named after the request, all
   * Deployment calls before any Service call, and it never writes the
   * AppService or any other object.
   */
  lemma ReconcileFootprint(w: World, req: NamespacedName, cb: Callbacks)
    requires WellFormed(w) && Applicable(cb)
    ensures var w' := ReconcileWith(w, req, cb).1;
      && |w.journal| < |w'.journal|
      && w'.journal[..|w.journal| + 1] == w.journal + [Call(Get, ParentKey(req))]
    ensures var w' := ReconcileWith(w, req, cb).1;
      forall i | |w.journal| < i < |w'.journal| ::
        w'.journal[i].key == DeploymentKey(req) || w'.journal[i].key == ServiceKey(req)
    ensures var w' := ReconcileWith(w, req, cb).1;
      forall i, j | |w.journal| < i < j < |w'.journal| ::
        w'.journal[i].key == ServiceKey(req) ==> w'.journal[j].key == ServiceKey(req)
    ensures var w' := ReconcileWith(w, req, cb).1;
      forall k | k != DeploymentKey(req) && k != ServiceKey(req) ::
        (k in w'.objects <==> k in w.objects) && (k in w.objects ==> w'.objects[k] == w.objects[k])
  {
    var P := ParentKey(req);
    var w1 := Log(w, Call(Get, P));
    if Call(Get, P) !in w.faults && P in w.objects {
      var app := ParentOf(w, req);
      CreateOrUpdateTouches(w1, DeploymentObject(BlankDeployment(app)), cb.deployment(app));
      var (d, w2) := DeploymentStep(w1, app, cb);
      if d.Success? {
        CreateOrUpdateTouches(w2, ServiceObject(BlankService(app)), cb.service(app));
        var w3 := ServiceStep(w2, app, cb).1;
        assert ReconcileWith(w, req, cb).1 == w3;
        TouchesInTurn(w1, w2, w3, DeploymentKey(req), ServiceKey(req));
      } else {
        assert ReconcileWith(w, req, cb).1 == w2;
        TouchesInTurn(w1, w2, w2, DeploymentKey(req), ServiceKey(req));
      }
    } else {
      assert ReconcileWith(w, req, cb).1 == w1;
    }
  }

  /** Two rounds of calls on two different keys, one after the other (or only the first). */
  lemma TouchesInTurn(w1: World, w2: World, w3: World, k1: StoreKey, k2: StoreKey)
    requires Touches(w1, w2, k1) && k1 != k2
    requires w3 == w2 || Touches(w2, w3, k2)
    ensures |w1.journal| < |w3.journal| && w3.journal[..|w1.journal| + 1] == w1.journal + [Call(Get, k1)]
    ensures forall i | |w1.journal| <= i < |w3.journal| :: w3.journal[i].key == k1 || w3.journal[i].key == k2
    ensures forall i, j | |w1.journal| <= i < j < |w3.journal| :: w3.journal[i].key == k2 ==> w3.journal[j].key == k2
    ensures forall k | k != k1 && k != k2 ::
      (k in w3.objects <==> k in w1.objects) && (k in w1.objects ==> w3.objects[k] == w1.objects[k])
  {
    var r1 := w2.journal[|w1.journal|..];
    assert w2.journal == w1.journal + r1;
    if w3 == w2 {
      KeysInTurn(w1.journal, r1, [], k1, k2);
      assert w3.journal == w1.journal + r1 + [];
    } else {
      var r2 := w3.journal[|w2.journal|..];
      assert w3.journal == w1.journal + r1 + r2;
      KeysInTurn(w1.journal, r1, r2, k1, k2);
    }
  }

  /** Calls on `k1` followed by calls on `k2`, the first being a read of `k1`. */
  lemma KeysInTurn(j: seq<Call>, r1: seq<Call>, r2: seq<Call>, k1: StoreKey, k2: StoreKey)
    requires Round(r1, k1) && (r2 == [] || Round(r2, k2)) && k1 != k2
    ensures (j + r1 + r2)[..|j| + 1] == j + [Call(Get, k1)]
    ensures forall i | |j| <= i < |j + r1 + r2| :: (j + r1 + r2)[i].key == k1 || (j + r1 + r2)[i].key == k2
    ensures forall i, i' | |j| <= i < i' < |j + r1 + r2| :: (j + r1 + r2)[i].key == k2 ==> (j + r1 + r2)[i'].key == k2
  {
    var s := j + r1 + r2;
    assert forall i | |j| <= i < |j| + |r1| :: s[i] == r1[i - |j|];
    assert forall i | |j| + |r1| <= i < |s| :: s[i] == r2[i - |j| - |r1|];
    assert s[..|j| + 1] == j + [r1[0]];
  }

  // ---------------------------------------------------------------------
  // Success

  /**
   * A successful Deployment step after the AppService was read: the
   * callback's result on the Deployment found is stored, and the step read the
   * Deployment and made the write its result names.
   */
  lemma DeploymentRound(w: World, req: NamespacedName, cb: Callbacks)
    requires WellFormed(w) && Applicable(cb) && ParentKey(req) in w.objects
    requires DeploymentStep(Log(w, Call(Get, ParentKey(req))), ParentOf(w, req), cb).0.Success?
    ensures DeploymentOutcome(w, req, cb).Success?
    ensures var (d, w2) := DeploymentStep(Log(w, Call(Get, ParentKey(req))), ParentOf(w, req), cb);
      var DK := DeploymentKey(req);
      && d.value == Op(w, DK, DeploymentOutcome(w, req, cb).value)
      && w2.objects == w.objects[DK := DeploymentOutcome(w, req, cb).value]
      && w2.journal == w.journal + [Call(Get, ParentKey(req)), Call(Get, DK)] + Writes(d.value, DK)
  {
    var app := ParentOf(w, req);
    var dobj := DeploymentObject(BlankDeployment(app));
    var w1 := Log(w, Call(Get, ParentKey(req)));
    CreateOrUpdateOutcome(w1, dobj, cb.deployment(app));
    assert Base(w1, dobj) == Base(w, dobj);
  }

  /**
   * A successful Service step after a successful Deployment step: the
   * callback's result on the Service found at the start is stored, and the
   * step read the Service and made the write its result names.
   */
  lemma ServiceRound(w: World, req: NamespacedName, cb: Callbacks, w2: World)
    requires WellFormed(w) && Applicable(cb) && ParentKey(req) in w.objects
    requires var d := DeploymentStep(Log(w, Call(Get, ParentKey(req))), ParentOf(w, req), cb);
      d.0.Success? && w2 == d.1
    requires ServiceStep(w2, ParentOf(w, req), cb).0.Success?
    ensures ServiceOutcome(w, req, cb).Success?
    ensures var (sv, w3) := ServiceStep(w2, ParentOf(w, req), cb);
      var SK := ServiceKey(req);
      && sv.value == Op(w, SK, ServiceOutcome(w, req, cb).value)
      && w3.objects == w2.objects[SK := ServiceOutcome(w, req, cb).value]
      && w3.journal == w2.journal + [Call(Get, SK)] + Writes(sv.value, SK)
  {
    var app := ParentOf(w, req);
    var sobj := ServiceObject(BlankService(app));
    DeploymentRound(w, req, cb);
    CreateOrUpdateOutcome(w2, sobj, cb.service(app));
    assert Base(w2, sobj) == Base(w, sobj);
  }

  /**
   * After a successful reconciliation of an existing AppService both
   * callbacks succeeded on the children found before (or on the blank ones),
   * and the store holds exactly their results under the children's keys.
   */
  lemma ReconcileStores(w: World, req: NamespacedName, cb: Callbacks)
    requires WellFormed(w) && Applicable(cb)
    requires ParentKey(req) in w.objects && Call(Get, ParentKey(req)) !in w.faults
    requires ReconcileWith(w, req, cb).0 == Pass
    ensures DeploymentOutcome(w, req, cb).Success? && ServiceOutcome(w, req, cb).Success?
    ensures ReconcileWith(w, req, cb).1.objects ==
      w.objects[DeploymentKey(req) := DeploymentOutcome(w, req, cb).value][ServiceKey(req) := ServiceOutcome(w, req, cb).value]
  {
    var app := ParentOf(w, req);
    var w2 := DeploymentStep(Log(w, Call(Get, ParentKey(req))), app, cb).1;
    DeploymentRound(w, req, cb);
    ServiceRound(w, req, cb, w2);
  }

  /**
   * A successful reconciliation of an existing AppService makes exactly these
   * calls: read the AppService, read the Deployment, then create it if it was
   * missing or update it if the callback changed it, then the same for the
   * Service.
   */
  lemma ReconcileTrace(w: World, req: NamespacedName, cb: Callbacks)
    requires WellFormed(w) && Applicable(cb)
    requires ParentKey(req) in w.objects && Call(Get, ParentKey(req)) !in w.faults
    requires ReconcileWith(w, req, cb).0 == Pass
    ensures DeploymentOutcome(w, req, cb).Success? && ServiceOutcome(w, req, cb).Success?
    ensures var DK, SK := DeploymentKey(req), ServiceKey(req);
      ReconcileWith(w, req, cb).1.journal == w.journal
        + [Call(Get, ParentKey(req)), Call(Get, DK)] + Writes(Op(w, DK, DeploymentOutcome(w, req, cb).value), DK)
        + [Call(Get, SK)] + Writes(Op(w, SK, ServiceOutcome(w, req, cb).value), SK)
  {
    var app := ParentOf(w, req);
    var w2 := DeploymentStep(Log(w, Call(Get, ParentKey(req))), app, cb).1;
    DeploymentRound(w, req, cb);
    ServiceRound(w, req, cb, w2);
  }

  /**
   * Convergence: when the AppService exists, the store answers every call on
   * the three keys and both callbacks succeed on the children found, Reconcile
   * succeeds.
   */
  lemma ReconcileSucceeds(w: World, req: NamespacedName, cb: Callbacks)
    requires WellFormed(w) && Applicable(cb) && ParentKey(req) in w.objects
    requires Reliable(w, ParentKey(req)) && Reliable(w, DeploymentKey(req)) && Reliable(w, ServiceKey(req))
    requires DeploymentOutcome(w, req, cb).Success? && ServiceOutcome(w, req, cb).Success?
    ensures ReconcileWith(w, req, cb).0 == Pass
  {
    var app := ParentOf(w, req);
    var dobj, sobj := DeploymentObject(BlankDeployment(app)), ServiceObject(BlankService(app));
    var w1 := Log(w, Call(Get, ParentKey(req)));
    assert Base(w1, dobj) == Base(w, dobj);
    CreateOrUpdateReliable(w1, dobj, cb.deployment(app));
    var (d, w2) := DeploymentStep(w1, app, cb);
    assert Base(w2, sobj) == Base(w, sobj);
    CreateOrUpdateReliable(w2, sobj, cb.service(app));
  }

  /**
   * With callbacks that make the AppService the controller of what they
   * produce, every child Reconcile creates or changes is controlled by the
   * AppService it was reconciled for.
   */
  lemma ReconcileWritesOwnedBy(w: World, req: NamespacedName, cb: Callbacks)
    requires WellFormed(w) && Applicable(cb) && Owning(cb)
    ensures var w' := ReconcileWith(w, req, cb).1;
      forall k | k in w'.objects && (k !in w.objects || w'.objects[k] != w.objects[k]) ::
        ParentKey(req) in w.objects && ControlledBy(w'.objects[k], ParentOf(w, req))
  {
    var P := ParentKey(req);
    var w1 := Log(w, Call(Get, P));
    if Call(Get, P) !in w.faults && P in w.objects {
      var app := ParentOf(w, req);
      var dobj, sobj := DeploymentObject(BlankDeployment(app)), ServiceObject(BlankService(app));
      var (d, w2) := DeploymentStep(w1, app, cb);
      if d.Success? {
        var b := Base(w1, dobj);
        assert b.DeploymentObject?;
        assert ControlledBy(w2.objects[DeploymentKey(req)], app);
        var (sv, w3) := ServiceStep(w2, app, cb);
        assert ReconcileWith(w, req, cb).1 == w3;
        if sv.Success? {
          var bs := Base(w2, sobj);
          assert bs.ServiceObject?;
          assert ControlledBy(w3.objects[ServiceKey(req)], app);
        }
      } else {
        assert ReconcileWith(w, req, cb).1 == w2;
      }
    } else {
      assert ReconcileWith(w, req, cb).1 == w1;
    }
  }

  // ---------------------------------------------------------------------
  // Idempotence

  /**
   * Idempotence: with callbacks that leave their own output alone, right
   * after a successful reconciliation reconciling the same request again
   * succeeds, changes no object and only reads, provided the children can be
   * read.
   */
  lemma ReconcileRepeats(w: World, req: NamespacedName, cb: Callbacks)
    requires WellFormed(w) && Applicable(cb) && Settling(cb)
    requires Call(Get, DeploymentKey(req)) !in w.faults && Call(Get, ServiceKey(req)) !in w.faults
    requires ReconcileWith(w, req, cb).0 == Pass
    ensures var w1 := ReconcileWith(w, req, cb).1;
      && ReconcileWith(w1, req, cb).0 == Pass
      && ReconcileWith(w1, req, cb).1.objects == w1.objects
      && forall c | c in Since(ReconcileWith(w1, req, cb).1, |w1.journal|) :: c.verb == Get
  {
    if Call(Get, ParentKey(req)) !in w.faults && ParentKey(req) in w.objects {
      RepeatReadsOnly(w, req, cb);
    } else {
      RepeatParentMissing(w, req, cb);
    }
  }

  /** A request whose AppService was not found is not found again, and only read. */
  lemma RepeatParentMissing(w: World, req: NamespacedName, cb: Callbacks)
    requires WellFormed(w) && Applicable(cb)
    requires Call(Get, ParentKey(req)) in w.faults || ParentKey(req) !in w.objects
    requires ReconcileWith(w, req, cb).0 == Pass
    ensures var first := ReconcileWith(w, req, cb).1;
      && ReconcileWith(first, req, cb) == (Pass, Log(first, Call(Get, ParentKey(req))))
      && Since(Log(first, Call(Get, ParentKey(req))), |first.journal|) == [Call(Get, ParentKey(req))]
  {
    var P := ParentKey(req);
    var first := ReconcileWith(w, req, cb).1;
    if Call(Get, P) in w.faults {
      ReconcileParentFetchFails(w, req, cb);
      ReconcileParentFetchFails(first, req, cb);
    } else {
      ReconcileParentGone(w, req, cb);
      ReconcileParentGone(first, req, cb);
    }
    assert Since(Log(first, Call(Get, P)), |first.journal|) == [Call(Get, P)];
  }

  /** The second run of an existing AppService's reconciliation reads the three keys and nothing else. */
  lemma RepeatReadsOnly(w: World, req: NamespacedName, cb: Callbacks)
    requires WellFormed(w) && Applicable(cb) && Settling(cb)
    requires Call(Get, DeploymentKey(req)) !in w.faults && Call(Get, ServiceKey(req)) !in w.faults
    requires ParentKey(req) in w.objects && Call(Get, ParentKey(req)) !in w.faults
    requires ReconcileWith(w, req, cb).0 == Pass
    ensures var first := ReconcileWith(w, req, cb).1;
      var v3 := Log(Log(Log(first, Call(Get, ParentKey(req))), Call(Get, DeploymentKey(req))), Call(Get, ServiceKey(req)));
      && ReconcileWith(first, req, cb) == (Pass, v3)
      && Since(v3, |first.journal|) == [Call(Get, ParentKey(req)), Call(Get, DeploymentKey(req)), Call(Get, ServiceKey(req))]
  {
    var P, DK, SK := ParentKey(req), DeploymentKey(req), ServiceKey(req);
    var first := ReconcileWith(w, req, cb).1;
    var app := ParentOf(w, req);
    var dobj, sobj := DeploymentObject(BlankDeployment(app)), ServiceObject(BlankService(app));
    var dv, sv := StoredSettle(w, req, cb);
    assert ParentOf(first, req) == app;
    var v1 := Log(first, Call(Get, P));
    CreateOrUpdateUnchanged(v1, dobj, cb.deployment(app));
    var v2 := Log(v1, Call(Get, DK));
    CreateOrUpdateUnchanged(v2, sobj, cb.service(app));
    var v3 := Log(v2, Call(Get, SK));
    assert Since(v3, |first.journal|) == [Call(Get, P), Call(Get, DK), Call(Get, SK)];
  }

  /** After a successful reconciliation each settling callback, run on what it stored, returns it unchanged. */
  lemma StoredSettle(w: World, req: NamespacedName, cb: Callbacks) returns (dv: Object, sv: Object)
    requires WellFormed(w) && Applicable(cb) && Settling(cb)
    requires ParentKey(req) in w.objects && Call(Get, ParentKey(req)) !in w.faults
    requires ReconcileWith(w, req, cb).0 == Pass
    ensures var app := ParentOf(w, req);
      && ReconcileWith(w, req, cb).1.objects == w.objects[DeploymentKey(req) := dv][ServiceKey(req) := sv]
      && dv.Kind() == DeploymentKind && sv.Kind() == ServiceKind
      && Mutate(cb.deployment(app), DeploymentKey(req), dv) == Success(dv)
      && Mutate(cb.service(app), ServiceKey(req), sv) == Success(sv)
  {
    var app := ParentOf(w, req);
    var dobj, sobj := DeploymentObject(BlankDeployment(app)), ServiceObject(BlankService(app));
    ReconcileStores(w, req, cb);
    dv, sv := DeploymentOutcome(w, req, cb).value, ServiceOutcome(w, req, cb).value;
    assert Base(w, dobj).DeploymentObject? && dv.DeploymentObject?;
    assert Base(w, sobj).ServiceObject? && sv.ServiceObject?;
  }
}
