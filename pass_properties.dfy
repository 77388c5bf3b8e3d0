/** What a reconcile pass guarantees, proved about PassSpec.Reconcile. */
module PassProperties {
  import opened Api
  import opened Apimachinery
  import opened Conditions
  import opened Events
  import opened Resources
  import opened Cluster
  import opened ReconcileSpec
  import opened PassSpec

  /** The lookup keys of a list of descriptors. */
  function KeysOf(rs: seq<Resource>): set<ObjectKey>
  {
    set i | 0 <= i < |rs| :: ResourceKey(rs[i])
  }

  /** The cluster invariants the API server maintains: every object and every
      record is stored under its own key. */
  predicate Consistent(w: World)
  {
    KeysConsistent(w.store.objects) && RecordKeysConsistent(w.store.records)
  }

  lemma KeysOfSnoc(rs: seq<Resource>)
    requires rs != []
    ensures KeysOf(rs) == KeysOf(rs[..|rs| - 1]) + {ResourceKey(rs[|rs| - 1])}
  {
    var prefix := rs[..|rs| - 1];
    forall k | k in KeysOf(rs) ensures k in KeysOf(prefix) + {ResourceKey(rs[|rs| - 1])} {
      var i :| 0 <= i < |rs| && k == ResourceKey(rs[i]);
      if i < |rs| - 1 { assert prefix[i] == rs[i]; }
    }
    forall k | k in KeysOf(prefix) ensures k in KeysOf(rs) {
      var i :| 0 <= i < |prefix| && k == ResourceKey(prefix[i]);
      assert rs[i] == prefix[i];
    }
  }

  /** The descriptor loop, by induction over the descriptors: records are never
      touched and the object store changes within the frame of the descriptors'
      keys. */
  lemma {:induction false} ReconcileAllFrame(w: World, faults: set<Call>, scheme: Scheme, crd: Samtest, rs: seq<Resource>)
    requires KeysConsistent(w.store.objects)
    ensures var w' := ReconcileAll(w, faults, scheme, crd, rs).0;
      && w'.store.records == w.store.records
      && ObjectsFrame(w.store.objects, w'.store.objects, KeysOf(rs), crd)
    decreases |rs|
  {
    if rs != [] {
      var prefix, last := rs[..|rs| - 1], rs[|rs| - 1];
      var w1 := ReconcileAll(w, faults, scheme, crd, prefix).0;
      ReconcileAllFrame(w, faults, scheme, crd, prefix);
      ResourceFrame(w1, faults, scheme, crd, last);
      KeysOfSnoc(rs);
      var w2 := ReconcileResource(w1, faults, scheme, crd, last).0;
      ObjectsFrameTrans(w.store.objects, w1.store.objects, w2.store.objects, KeysOf(prefix), {ResourceKey(last)}, crd);
    }
  }

  /** When no descriptor failed, every descriptor's object exists and is
      controlled by the record: a later reconcile never undoes an earlier one. */
  lemma {:induction false} ReconcileAllConverges(w: World, faults: set<Call>, scheme: Scheme, crd: Samtest, rs: seq<Resource>)
    requires KeysConsistent(w.store.objects)
    ensures var (w', errs) := ReconcileAll(w, faults, scheme, crd, rs);
      |errs| == 0 ==> forall i :: 0 <= i < |rs| ==>
        ResourceKey(rs[i]) in w'.store.objects && IsControlledBy(w'.store.objects[ResourceKey(rs[i])], crd)
    decreases |rs|
  {
    if rs != [] {
      var prefix, last := rs[..|rs| - 1], rs[|rs| - 1];
      var (w1, errs1) := ReconcileAll(w, faults, scheme, crd, prefix);
      ReconcileAllConverges(w, faults, scheme, crd, prefix);
      ReconcileAllFrame(w, faults, scheme, crd, prefix);
      var (w2, err) := ReconcileResource(w1, faults, scheme, crd, last);
      if |errs1 + ErrorsOf(err)| == 0 {
        ResourceConverges(w1, faults, scheme, crd, last);
        forall i | 0 <= i < |rs| - 1
          ensures ResourceKey(rs[i]) in w2.store.objects && IsControlledBy(w2.store.objects[ResourceKey(rs[i])], crd)
        {
          assert rs[i] == prefix[i];
          ResourceKeepsControlled(w1, faults, scheme, crd, last, ResourceKey(rs[i]));
        }
      }
    }
  }

  /** The descriptor loop issues object calls only, appended to the log, and
      appends to the event log. */
  lemma {:induction false} ReconcileAllCalls(w: World, faults: set<Call>, scheme: Scheme, crd: Samtest, rs: seq<Resource>)
    requires KeysConsistent(w.store.objects)
    ensures var w' := ReconcileAll(w, faults, scheme, crd, rs).0;
      && |w.store.calls| <= |w'.store.calls| && w'.store.calls[..|w.store.calls|] == w.store.calls
      && (forall i :: |w.store.calls| <= i < |w'.store.calls| ==> w'.store.calls[i].IsObjectCall())
      && w.events <= w'.events
    decreases |rs|
  {
    if rs != [] {
      var prefix, last := rs[..|rs| - 1], rs[|rs| - 1];
      var w1 := ReconcileAll(w, faults, scheme, crd, prefix).0;
      ReconcileAllCalls(w, faults, scheme, crd, prefix);
      ReconcileAllFrame(w, faults, scheme, crd, prefix);
      var w2 := ReconcileResource(w1, faults, scheme, crd, last).0;
      ResourceLogsAppended(w1, faults, scheme, crd, last);
      var n, n1 := |w.store.calls|, |w1.store.calls|;
      forall i | n <= i < |w2.store.calls| ensures w2.store.calls[i].IsObjectCall() {
        if i < n1 {
          assert w2.store.calls[i] == w1.store.calls[i];
        }
      }
    }
  }

  /** The loop over exactly two descriptors, unfolded. */
  lemma ReconcileAllPair(w: World, faults: set<Call>, scheme: Scheme, crd: Samtest, rs: seq<Resource>)
    requires |rs| == 2
    ensures ReconcileAll(w, faults, scheme, crd, rs) ==
      var (w1, e1) := ReconcileResource(w, faults, scheme, crd, rs[0]);
      var (w2, e2) := ReconcileResource(w1, faults, scheme, crd, rs[1]);
      (w2, ErrorsOf(e1) + ErrorsOf(e2))
  {
    var one := rs[..1];
    assert one[..0] == [] && one[0] == rs[0] && rs[..|rs| - 1] == one;
    var (w1, e1) := ReconcileResource(w, faults, scheme, crd, rs[0]);
    assert ReconcileAll(w, faults, scheme, crd, one) == (w1, [] + ErrorsOf(e1));
    assert [] + ErrorsOf(e1) == ErrorsOf(e1);
  }

  // ---- the phases of a pass that goes ahead ----

  /** The record is read, exists and is not suspended. */
  predicate Proceeds(w: World, faults: set<Call>, req: RecordKey)
  {
    GetRecordCall(req) !in faults && req in w.store.records && !w.store.records[req].spec.suspend
  }

  /** The in-memory record once Progressing is set on it. */
  function Progressed(w: World, req: RecordKey): Samtest
    requires req in w.store.records
  {
    WithCondition(w.store.records[req], NewStatusCondition(ProgressingResources))
  }

  /** The Progressing write goes through. */
  predicate ProgressingWritten(w: World, faults: set<Call>, req: RecordKey)
    requires req in w.store.records
  {
    StatusUpdateCall(req, Progressed(w, req).status.conditions) !in faults
  }

  /** The world when the descriptor loop starts. */
  function BeforeResources(w: World, faults: set<Call>, req: RecordKey): World
    requires req in w.store.records
  {
    var (s1, _) := w.store.GetRecord(faults, req);
    var (_, s2, _) := UpdateStatus(s1, faults, w.store.records[req], NewStatusCondition(ProgressingResources));
    World(s2, w.events)
  }

  /** The world and the collected errors when the descriptor loop ends. */
  function ResourcePhase(w: World, faults: set<Call>, scheme: Scheme, req: RecordKey): (World, seq<Error>)
    requires req in w.store.records
  {
    var crd := Progressed(w, req);
    ReconcileAll(BeforeResources(w, faults, req), faults, scheme, crd, Instantiate(ManagedResources, crd))
  }

  // ---- early exits ----

  /** A record that no longer exists ends the pass with no error and no write. */
  lemma NotFoundIsNoOp(w: World, faults: set<Call>, scheme: Scheme, req: RecordKey)
    requires GetRecordCall(req) !in faults && req !in w.store.records
    ensures Reconcile(w, faults, scheme, req) ==
      PassOutcome(World(w.store.(calls := w.store.calls + [GetRecordCall(req)]), w.events), EmptyResult, None)
  {
  }

  /** Any other failure to read the record is returned, with no write. */
  lemma GetRecordErrorReturned(w: World, faults: set<Call>, scheme: Scheme, req: RecordKey)
    requires GetRecordCall(req) in faults
    ensures Reconcile(w, faults, scheme, req) ==
      PassOutcome(World(w.store.(calls := w.store.calls + [GetRecordCall(req)]), w.events), EmptyResult, Some(ServerError))
  {
  }

  /** A suspended record: no status write, no resource reconciled, no event,
      whatever state the managed objects are in. */
  lemma SuspendedPassWritesNothing(w: World, faults: set<Call>, scheme: Scheme, req: RecordKey)
    requires GetRecordCall(req) !in faults && req in w.store.records && w.store.records[req].spec.suspend
    ensures Reconcile(w, faults, scheme, req) ==
      PassOutcome(World(w.store.(calls := w.store.calls + [GetRecordCall(req)]), w.events), EmptyResult, None)
  {
  }

  /** Progressing is the first write; when it fails the pass returns the error
      and no resource is read or written. */
  lemma ProgressingFailureAborts(w: World, faults: set<Call>, scheme: Scheme, req: RecordKey)
    requires Consistent(w) && Proceeds(w, faults, req) && !ProgressingWritten(w, faults, req)
    ensures var out := Reconcile(w, faults, scheme, req);
      && out.world.store.objects == w.store.objects
      && out.world.store.records == w.store.records
      && out.world.events == w.events
      && out.world.store.calls ==
           w.store.calls + [GetRecordCall(req), StatusUpdateCall(req, Progressed(w, req).status.conditions)]
      && out.err == Some(ServerError)
  {
  }

  // ---- a pass that goes ahead ----

  function DeploymentKey(req: RecordKey): ObjectKey
  {
    ObjectKey("Deployment", req.namespace, req.name)
  }

  function ServiceKey(req: RecordKey): ObjectKey
  {
    ObjectKey("Service", req.namespace, req.name)
  }

  /** The descriptors of a pass look up the record's Deployment, then its Service. */
  lemma ManagedKeys(crd: Samtest)
    ensures var rs := Instantiate(ManagedResources, crd);
      && |rs| == 2
      && ResourceKey(rs[0]) == DeploymentKey(crd.Key())
      && ResourceKey(rs[1]) == ServiceKey(crd.Key())
      && KeysOf(rs) == {DeploymentKey(crd.Key()), ServiceKey(crd.Key())}
  {
    var rs := Instantiate(ManagedResources, crd);
    assert ResourceKey(rs[0]) == DeploymentKey(crd.Key());
    assert ResourceKey(rs[1]) == ServiceKey(crd.Key());
    assert KeysOf(rs) == {ResourceKey(rs[0]), ResourceKey(rs[1])};
  }

  /** The store the descriptor loop of a pass starts from: the record read and
      the Progressing write are logged, and the record now carries Progressing. */
  lemma BeforeResourcesUnfold(w: World, faults: set<Call>, req: RecordKey)
    requires RecordKeysConsistent(w.store.records)
    requires Proceeds(w, faults, req) && ProgressingWritten(w, faults, req)
    ensures var p := Progressed(w, req);
      && p.Key() == req
      && BeforeResources(w, faults, req) ==
           World(Store(w.store.objects, w.store.records[req := p],
                       w.store.calls + [GetRecordCall(req), StatusUpdateCall(req, p.status.conditions)]),
                 w.events)
  {
    var p := Progressed(w, req);
    assert w.store.records[req].Key() == req;
    assert w.store.records[req].(status := p.status) == p;
  }

  /** The condition a pass past the Progressing write ends with. */
  function FinalCondition(errs: seq<Error>): Condition
  {
    NewStatusCondition(if |errs| > 0 then ResourcesFailed else ResourcesReady)
  }

  /** A pass past the Progressing write closes with one status write: Failed
      (its error ignored, the first resource error returned) or Ready (its
      error returned). */
  lemma PassClose(w: World, faults: set<Call>, scheme: Scheme, req: RecordKey)
    requires RecordKeysConsistent(w.store.records)
    requires Proceeds(w, faults, req) && ProgressingWritten(w, faults, req)
    ensures var (w3, errs) := ResourcePhase(w, faults, scheme, req);
      var (s4, err4) := w3.store.StatusUpdate(faults, WithCondition(Progressed(w, req), FinalCondition(errs)));
      Reconcile(w, faults, scheme, req) ==
        PassOutcome(World(s4, w3.events), EmptyResult, if |errs| > 0 then Some(errs[0]) else err4)
  {
    BeforeResourcesUnfold(w, faults, req);
  }

  /** calls[lo..hi] is one descriptor's segment, ending at j, then the other's. */
  predicate SplitsAt(calls: seq<Call>, lo: int, j: int, hi: int, first: ObjectKey, second: ObjectKey)
  {
    0 <= lo < j < hi <= |calls| && ResourceCalls(calls[lo..j], first) && ResourceCalls(calls[j..hi], second)
  }

  /** The loop over two descriptors appends the first one's calls, then the second one's. */
  lemma PairCalls(w: World, faults: set<Call>, scheme: Scheme, crd: Samtest, rs: seq<Resource>)
    requires |rs| == 2 && KeysConsistent(w.store.objects)
    ensures var calls := ReconcileAll(w, faults, scheme, crd, rs).0.store.calls;
      && |w.store.calls| < |calls| && calls[..|w.store.calls|] == w.store.calls
      && exists j :: SplitsAt(calls, |w.store.calls|, j, |calls|, ResourceKey(rs[0]), ResourceKey(rs[1]))
  {
    ReconcileAllPair(w, faults, scheme, crd, rs);
    ResourceCallsAppended(w, faults, scheme, crd, rs[0]);
    ResourceKeepsKeysConsistent(w, faults, scheme, crd, rs[0]);
    var w1 := ReconcileResource(w, faults, scheme, crd, rs[0]).0;
    ResourceCallsAppended(w1, faults, scheme, crd, rs[1]);
    var w2 := ReconcileResource(w1, faults, scheme, crd, rs[1]).0;
    AppendedTwice(w.store.calls, w1.store.calls, w2.store.calls, ResourceKey(rs[0]), ResourceKey(rs[1]));
  }

  /** The descriptor loop of a pass appends the Deployment's calls, then the Service's. */
  lemma ResourcePhaseCalls(w: World, faults: set<Call>, scheme: Scheme, req: RecordKey)
    requires Consistent(w) && Proceeds(w, faults, req) && ProgressingWritten(w, faults, req)
    ensures var w2 := BeforeResources(w, faults, req);
      var calls := ResourcePhase(w, faults, scheme, req).0.store.calls;
      && |w2.store.calls| < |calls| && calls[..|w2.store.calls|] == w2.store.calls
      && exists j :: SplitsAt(calls, |w2.store.calls|, j, |calls|, DeploymentKey(req), ServiceKey(req))
  {
    var p := Progressed(w, req);
    BeforeResourcesUnfold(w, faults, req);
    ManagedKeys(p);
    PairCalls(BeforeResources(w, faults, req), faults, scheme, p, Instantiate(ManagedResources, p));
  }

  /** Two segments appended in turn, as slices of the final log. */
  lemma AppendedTwice(c: seq<Call>, c1: seq<Call>, c2: seq<Call>, k0: ObjectKey, k1: ObjectKey)
    requires |c| < |c1| && c1[..|c|] == c && ResourceCalls(c1[|c|..], k0)
    requires |c1| < |c2| && c2[..|c1|] == c1 && ResourceCalls(c2[|c1|..], k1)
    ensures |c| < |c2| && c2[..|c|] == c
    ensures SplitsAt(c2, |c|, |c1|, |c2|, k0, k1)
  {
    assert c2[|c|..|c1|] == c1[|c|..];
    assert c2[..|c|] == c1[..|c|];
  }

  /** The calls of a pass past the Progressing write, in order: the record read,
      the Progressing write, the Deployment's calls, the Service's calls, and one
      final status write. Every resource call comes after the first status write
      and before the last: the final condition is written only once both
      resources are done. */
  lemma PassCallOrder(w: World, faults: set<Call>, scheme: Scheme, req: RecordKey)
    requires Consistent(w) && Proceeds(w, faults, req) && ProgressingWritten(w, faults, req)
    ensures var before := BeforeResources(w, faults, req).store.calls;
      var (w3, errs) := ResourcePhase(w, faults, scheme, req);
      var calls := Reconcile(w, faults, scheme, req).world.store.calls;
      && before == w.store.calls + [GetRecordCall(req), StatusUpdateCall(req, Progressed(w, req).status.conditions)]
      && |before| < |w3.store.calls| && w3.store.calls[..|before|] == before
      && (exists j :: SplitsAt(w3.store.calls, |before|, j, |w3.store.calls|, DeploymentKey(req), ServiceKey(req)))
      && calls == w3.store.calls +
           [StatusUpdateCall(req, WithCondition(Progressed(w, req), FinalCondition(errs)).status.conditions)]
  {
    BeforeResourcesUnfold(w, faults, req);
    PassClose(w, faults, scheme, req);
    ResourcePhaseCalls(w, faults, scheme, req);
  }

  /** What the descriptor loop of a pass does to the cluster: records as the
      Progressing write left them, objects within the frame of the record's
      Deployment and Service keys, calls and events appended. */
  lemma ResourcePhaseFrame(w: World, faults: set<Call>, scheme: Scheme, req: RecordKey)
    requires Consistent(w) && Proceeds(w, faults, req) && ProgressingWritten(w, faults, req)
    ensures var w2 := BeforeResources(w, faults, req);
      var w3 := ResourcePhase(w, faults, scheme, req).0;
      && w3.store.records == w2.store.records
      && ObjectsFrame(w.store.objects, w3.store.objects, {DeploymentKey(req), ServiceKey(req)}, w.store.records[req])
      && w2.store.calls <= w3.store.calls
      && w.events <= w3.events
  {
    var p := Progressed(w, req);
    BeforeResourcesUnfold(w, faults, req);
    ManagedKeys(p);
    var rs := Instantiate(ManagedResources, p);
    var w2 := BeforeResources(w, faults, req);
    ReconcileAllFrame(w2, faults, scheme, p, rs);
    ReconcileAllCalls(w2, faults, scheme, p, rs);
    ObjectsFrameSameUid(w.store.objects, ResourcePhase(w, faults, scheme, req).0.store.objects,
                        {DeploymentKey(req), ServiceKey(req)}, p, w.store.records[req]);
  }

  /** When no descriptor failed, both managed objects exist and are controlled
      by the record. */
  lemma ResourcePhaseConverges(w: World, faults: set<Call>, scheme: Scheme, req: RecordKey)
    requires Consistent(w) && Proceeds(w, faults, req) && ProgressingWritten(w, faults, req)
    ensures var (w3, errs) := ResourcePhase(w, faults, scheme, req);
      |errs| == 0 ==>
        && DeploymentKey(req) in w3.store.objects
        && IsControlledBy(w3.store.objects[DeploymentKey(req)], w.store.records[req])
        && ServiceKey(req) in w3.store.objects
        && IsControlledBy(w3.store.objects[ServiceKey(req)], w.store.records[req])
  {
    var p := Progressed(w, req);
    BeforeResourcesUnfold(w, faults, req);
    ManagedKeys(p);
    var rs := Instantiate(ManagedResources, p);
    ReconcileAllConverges(BeforeResources(w, faults, req), faults, scheme, p, rs);
  }

  // ---- what every pass guarantees ----

  /** Whatever the faults and whatever path a pass takes, no record is added or
      removed, records keep their keys, and only the requested record's status
      can change. */
  lemma PassRecordsFrame(w: World, faults: set<Call>, scheme: Scheme, req: RecordKey)
    requires Consistent(w)
    ensures var out := Reconcile(w, faults, scheme, req).world;
      RecordKeysConsistent(out.store.records) && StatusOnly(w.store.records, out.store.records, req)
  {
    if Proceeds(w, faults, req) {
      var rec := w.store.records[req];
      assert rec.Key() == req;
      var s1 := w.store.GetRecord(faults, req).0;
      var p := Progressed(w, req);
      StatusUpdateStatusOnly(s1, faults, p);
      if ProgressingWritten(w, faults, req) {
        PassClose(w, faults, scheme, req);
        ResourcePhaseFrame(w, faults, scheme, req);
        var (w3, errs) := ResourcePhase(w, faults, scheme, req);
        StatusUpdateStatusOnly(w3.store, faults, WithCondition(p, FinalCondition(errs)));
        StatusOnlyTrans(w.store.records, w3.store.records, Reconcile(w, faults, scheme, req).world.store.records, req);
      }
    }
  }

  /** Whatever the faults and whatever path a pass takes: the cluster stays
      consistent; objects change only within the frame of the record's Deployment
      and Service keys, so an existing object keeps its spec, type and labels
      (only its controller reference may be set); calls and events are only
      appended. */
  lemma PassFrame(w: World, faults: set<Call>, scheme: Scheme, req: RecordKey)
    requires Consistent(w)
    ensures var out := Reconcile(w, faults, scheme, req).world;
      && Consistent(out)
      && StoreFrame(w.store.objects, out.store.objects, {DeploymentKey(req), ServiceKey(req)})
      && w.store.calls <= out.store.calls
      && w.events <= out.events
  {
    PassRecordsFrame(w, faults, scheme, req);
    PassObjectsFrame(w, faults, scheme, req);
    PassLogsAppended(w, faults, scheme, req);
  }

  /** The object-store part of PassFrame. */
  lemma PassObjectsFrame(w: World, faults: set<Call>, scheme: Scheme, req: RecordKey)
    requires Consistent(w)
    ensures var out := Reconcile(w, faults, scheme, req).world;
      StoreFrame(w.store.objects, out.store.objects, {DeploymentKey(req), ServiceKey(req)})
  {
    if Proceeds(w, faults, req) && ProgressingWritten(w, faults, req) {
      PassClose(w, faults, scheme, req);
      ResourcePhaseFrame(w, faults, scheme, req);
    }
  }

  /** The log part of PassFrame: calls and events are only appended. */
  lemma PassLogsAppended(w: World, faults: set<Call>, scheme: Scheme, req: RecordKey)
    requires Consistent(w)
    ensures var out := Reconcile(w, faults, scheme, req).world;
      w.store.calls <= out.store.calls && w.events <= out.events
  {
    if Proceeds(w, faults, req) && ProgressingWritten(w, faults, req) {
      BeforeResourcesUnfold(w, faults, req);
      PassClose(w, faults, scheme, req);
      ResourcePhaseFrame(w, faults, scheme, req);
    }
  }

  /** A pass that returns no error and got past the record read has converged:
      the record's Deployment and Service exist and are controlled by it, and its
      stored status carries both Progressing and Ready. */
  lemma PassSucceedsOnlyWhenConverged(w: World, faults: set<Call>, scheme: Scheme, req: RecordKey)
    requires Consistent(w) && Proceeds(w, faults, req)
    ensures var out := Reconcile(w, faults, scheme, req);
      var objects := out.world.store.objects;
      out.err.None? ==>
        && DeploymentKey(req) in objects && IsControlledBy(objects[DeploymentKey(req)], w.store.records[req])
        && ServiceKey(req) in objects && IsControlledBy(objects[ServiceKey(req)], w.store.records[req])
        && req in out.world.store.records
        && NewStatusCondition(ProgressingResources) in out.world.store.records[req].status.conditions
        && NewStatusCondition(ResourcesReady) in out.world.store.records[req].status.conditions
  {
    if ProgressingWritten(w, faults, req) {
      BeforeResourcesUnfold(w, faults, req);
      PassClose(w, faults, scheme, req);
      ResourcePhaseFrame(w, faults, scheme, req);
      ResourcePhaseConverges(w, faults, scheme, req);
      NewStatusConditionTypesDistinct(ProgressingResources, ResourcesReady);
    }
  }

  /** A pass that got past the Progressing write fails exactly when a resource
      failed, returning the first resource error in loop order, or when the
      final Ready write failed. */
  lemma PassErrorReflectsResources(w: World, faults: set<Call>, scheme: Scheme, req: RecordKey)
    requires Consistent(w) && Proceeds(w, faults, req) && ProgressingWritten(w, faults, req)
    ensures var (w3, errs) := ResourcePhase(w, faults, scheme, req);
      var out := Reconcile(w, faults, scheme, req);
      var ready := WithCondition(Progressed(w, req), NewStatusCondition(ResourcesReady));
      && (|errs| > 0 ==> out.err == Some(errs[0]))
      && (out.err.None? <==> |errs| == 0 && StatusUpdateCall(req, ready.status.conditions) !in faults)
  {
    BeforeResourcesUnfold(w, faults, req);
    PassClose(w, faults, scheme, req);
    ResourcePhaseFrame(w, faults, scheme, req);
  }

  /** A resource error is reported twice: the stored record gets Failed (when
      that write is accepted) and the pass returns an error, the first one. */
  lemma ResourceErrorMarksFailed(w: World, faults: set<Call>, scheme: Scheme, req: RecordKey)
    requires Consistent(w) && Proceeds(w, faults, req) && ProgressingWritten(w, faults, req)
    requires var errs := ResourcePhase(w, faults, scheme, req).1;
      var failed := WithCondition(Progressed(w, req), NewStatusCondition(ResourcesFailed));
      |errs| > 0 && StatusUpdateCall(req, failed.status.conditions) !in faults
    ensures var out := Reconcile(w, faults, scheme, req);
      && req in out.world.store.records
      && NewStatusCondition(ResourcesFailed) in out.world.store.records[req].status.conditions
      && out.err == Some(ResourcePhase(w, faults, scheme, req).1[0])
  {
    BeforeResourcesUnfold(w, faults, req);
    PassClose(w, faults, scheme, req);
    ResourcePhaseFrame(w, faults, scheme, req);
  }

  /** Failed is never cleared: once the stored record carries it, it carries it
      after any pass, even one that ends Ready. */
  lemma FailedConditionSticky(w: World, faults: set<Call>, scheme: Scheme, req: RecordKey)
    requires Consistent(w) && req in w.store.records
    requires NewStatusCondition(ResourcesFailed) in w.store.records[req].status.conditions
    ensures var out := Reconcile(w, faults, scheme, req).world;
      req in out.store.records && NewStatusCondition(ResourcesFailed) in out.store.records[req].status.conditions
  {
    NewStatusConditionTypesDistinct(ProgressingResources, ResourcesFailed);
    NewStatusConditionTypesDistinct(ResourcesReady, ResourcesFailed);
    PassFrame(w, faults, scheme, req);
    if Proceeds(w, faults, req) && ProgressingWritten(w, faults, req) {
      BeforeResourcesUnfold(w, faults, req);
      PassClose(w, faults, scheme, req);
      ResourcePhaseFrame(w, faults, scheme, req);
    }
  }

  // ---- scenarios ----

  /** The descriptor loop when both objects already exist under the record's
      control and nothing fails: two reads, nothing else. */
  lemma SteadyResourcePhase(w: World, scheme: Scheme, req: RecordKey)
    requires Consistent(w) && Proceeds(w, {}, req)
    requires DeploymentKey(req) in w.store.objects && IsControlledBy(w.store.objects[DeploymentKey(req)], w.store.records[req])
    requires ServiceKey(req) in w.store.objects && IsControlledBy(w.store.objects[ServiceKey(req)], w.store.records[req])
    ensures var w2 := BeforeResources(w, {}, req);
      ResourcePhase(w, {}, scheme, req) ==
        (w2.(store := w2.store.(calls := w2.store.calls + [GetCall(DeploymentKey(req)), GetCall(ServiceKey(req))])), [])
  {
    var p := Progressed(w, req);
    BeforeResourcesUnfold(w, {}, req);
    ManagedKeys(p);
    assert p.uid == w.store.records[req].uid;
    SteadyPair(BeforeResources(w, {}, req), scheme, p, Instantiate(ManagedResources, p));
  }

  /** Two descriptors whose objects the record already controls, with no fault:
      one read each, nothing else. */
  lemma SteadyPair(w: World, scheme: Scheme, crd: Samtest, rs: seq<Resource>)
    requires |rs| == 2
    requires ResourceKey(rs[0]) in w.store.objects && IsControlledBy(w.store.objects[ResourceKey(rs[0])], crd)
    requires ResourceKey(rs[1]) in w.store.objects && IsControlledBy(w.store.objects[ResourceKey(rs[1])], crd)
    ensures ReconcileAll(w, {}, scheme, crd, rs) ==
      (w.(store := w.store.(calls := w.store.calls + [GetCall(ResourceKey(rs[0])), GetCall(ResourceKey(rs[1]))])), [])
  {
    var (k0, k1) := (ResourceKey(rs[0]), ResourceKey(rs[1]));
    assert ErrorsOf(None) + ErrorsOf(None) == [];
    assert w.store.calls + [GetCall(k0)] + [GetCall(k1)] == w.store.calls + [GetCall(k0), GetCall(k1)];
    ReconcileAllPair(w, {}, scheme, crd, rs);
    SteadyStateNoWrite(w, {}, scheme, crd, rs[0]);
    var w1 := ReconcileResource(w, {}, scheme, crd, rs[0]).0;
    SteadyStateNoWrite(w1, {}, scheme, crd, rs[1]);
  }

  /** A pass over a converged record whose status already carries Progressing and
      Ready, with no fault: nothing changes but the call log. */
  lemma ConvergedPassNoOp(w: World, scheme: Scheme, req: RecordKey)
    requires Consistent(w) && Proceeds(w, {}, req)
    requires var conds := w.store.records[req].status.conditions;
      UniqueTypes(conds) &&
      NewStatusCondition(ProgressingResources) in conds && NewStatusCondition(ResourcesReady) in conds
    requires DeploymentKey(req) in w.store.objects && IsControlledBy(w.store.objects[DeploymentKey(req)], w.store.records[req])
    requires ServiceKey(req) in w.store.objects && IsControlledBy(w.store.objects[ServiceKey(req)], w.store.records[req])
    ensures var conds := w.store.records[req].status.conditions;
      Reconcile(w, {}, scheme, req) ==
        PassOutcome(w.(store := w.store.(calls := w.store.calls +
          [GetRecordCall(req), StatusUpdateCall(req, conds),
           GetCall(DeploymentKey(req)), GetCall(ServiceKey(req)), StatusUpdateCall(req, conds)])),
          EmptyResult, None)
  {
    var rec := w.store.records[req];
    var conds := rec.status.conditions;
    var (dk, sk) := (DeploymentKey(req), ServiceKey(req));
    assert w.store.calls + [GetRecordCall(req), StatusUpdateCall(req, conds)] + [GetCall(dk), GetCall(sk)]
             + [StatusUpdateCall(req, conds)] ==
           w.store.calls + [GetRecordCall(req), StatusUpdateCall(req, conds), GetCall(dk), GetCall(sk),
                            StatusUpdateCall(req, conds)];
    assert w.store.records[req := rec] == w.store.records;
    SetStatusConditionIdempotent(conds, NewStatusCondition(ProgressingResources));
    SetStatusConditionIdempotent(conds, NewStatusCondition(ResourcesReady));
    assert Progressed(w, req) == rec;
    BeforeResourcesUnfold(w, {}, req);
    SteadyResourcePhase(w, scheme, req);
    PassClose(w, {}, scheme, req);
  }

  /** After a pass that succeeds, the record is converged: its status carries
      Progressing and Ready (and keeps unique condition types), and both objects
      are controlled by it. */
  lemma SucceededPassConverges(w: World, faults: set<Call>, scheme: Scheme, req: RecordKey)
    requires Consistent(w) && Proceeds(w, faults, req)
    requires UniqueTypes(w.store.records[req].status.conditions)
    requires Reconcile(w, faults, scheme, req).err.None?
    ensures var w1 := Reconcile(w, faults, scheme, req).world;
      && Consistent(w1) && Proceeds(w1, {}, req)
      && var conds := w1.store.records[req].status.conditions;
      && UniqueTypes(conds)
      && NewStatusCondition(ProgressingResources) in conds && NewStatusCondition(ResourcesReady) in conds
      && DeploymentKey(req) in w1.store.objects
      && IsControlledBy(w1.store.objects[DeploymentKey(req)], w1.store.records[req])
      && ServiceKey(req) in w1.store.objects
      && IsControlledBy(w1.store.objects[ServiceKey(req)], w1.store.records[req])
  {
    var rec := w.store.records[req];
    var prog, ready := NewStatusCondition(ProgressingResources), NewStatusCondition(ResourcesReady);
    PassFrame(w, faults, scheme, req);
    PassSucceedsOnlyWhenConverged(w, faults, scheme, req);
    assert ProgressingWritten(w, faults, req);
    PassErrorReflectsResources(w, faults, scheme, req);
    BeforeResourcesUnfold(w, faults, req);
    PassClose(w, faults, scheme, req);
    ResourcePhaseFrame(w, faults, scheme, req);
    var w1 := Reconcile(w, faults, scheme, req).world;
    assert w1.store.records[req].status.conditions == SetStatusCondition(SetStatusCondition(rec.status.conditions, prog), ready);
    SetStatusConditionKeepsUnique(rec.status.conditions, prog);
    SetStatusConditionKeepsUnique(SetStatusCondition(rec.status.conditions, prog), ready);
  }

  /** Idempotence: after a pass that succeeds, a second pass with no faults
      returns no error, creates, updates and records nothing, and writes the
      record's status back unchanged; its only calls are the record read, two
      status writes and one read per resource. */
  lemma SteadyStateIdempotent(w: World, faults: set<Call>, scheme: Scheme, req: RecordKey)
    requires Consistent(w) && Proceeds(w, faults, req)
    requires UniqueTypes(w.store.records[req].status.conditions)
    requires Reconcile(w, faults, scheme, req).err.None?
    ensures var w1 := Reconcile(w, faults, scheme, req).world;
      var second := Reconcile(w1, {}, scheme, req);
      && req in w1.store.records
      && var conds := w1.store.records[req].status.conditions;
      && second.err.None?
      && second.world.store.objects == w1.store.objects
      && second.world.store.records == w1.store.records
      && second.world.events == w1.events
      && second.world.store.calls == w1.store.calls +
           [GetRecordCall(req), StatusUpdateCall(req, conds),
            GetCall(DeploymentKey(req)), GetCall(ServiceKey(req)), StatusUpdateCall(req, conds)]
  {
    SucceededPassConverges(w, faults, scheme, req);
    ConvergedPassNoOp(Reconcile(w, faults, scheme, req).world, scheme, req);
  }

  /** The create path of one resource, stated key by key. */
  lemma CreateStep(w: World, faults: set<Call>, scheme: Scheme, crd: Samtest, resource: Resource)
    requires GetCall(ResourceKey(resource)) !in faults && ResourceKey(resource) !in w.store.objects
    requires scheme.registersOwnerKind && CreateCall(ResourceKey(resource)) !in faults
    ensures var key := ResourceKey(resource);
      var (w', err) := ReconcileResource(w, faults, scheme, crd, resource);
      && err.None?
      && w'.store.records == w.store.records
      && w'.store.objects.Keys == w.store.objects.Keys + {key}
      && (forall k :: k in w.store.objects ==> w'.store.objects[k] == w.store.objects[k])
      && IsControlledBy(w'.store.objects[key], crd)
      && w'.store.objects[key].spec == resource.Generate().spec
      && SetControllerReference(crd, resource.Generate(), scheme) == Ok(w'.store.objects[key])
      && w'.events == w.events + [Recorded(crd, CreatedEvent(resource.Kind(), key.name))]
      && w'.store.calls == w.store.calls + [GetCall(key), CreateCall(key)]
  {
    CreatePathSingleWrite(w, faults, scheme, crd, resource);
  }

  /** Two descriptors whose objects are both missing, with no fault: both are
      created, controlled by the record and built from their descriptors. */
  lemma CreatesBothObjects(w: World, scheme: Scheme, crd: Samtest, rs: seq<Resource>)
    requires |rs| == 2 && scheme.registersOwnerKind
    requires ResourceKey(rs[0]) != ResourceKey(rs[1])
    requires ResourceKey(rs[0]) !in w.store.objects && ResourceKey(rs[1]) !in w.store.objects
    ensures var (w', errs) := ReconcileAll(w, {}, scheme, crd, rs);
      var objects := w'.store.objects;
      && errs == []
      && w'.store.records == w.store.records
      && objects.Keys == w.store.objects.Keys + {ResourceKey(rs[0]), ResourceKey(rs[1])}
      && (forall k :: k in w.store.objects ==> objects[k] == w.store.objects[k])
      && IsControlledBy(objects[ResourceKey(rs[0])], crd) && objects[ResourceKey(rs[0])].spec == rs[0].Generate().spec
      && IsControlledBy(objects[ResourceKey(rs[1])], crd) && objects[ResourceKey(rs[1])].spec == rs[1].Generate().spec
  {
    assert ErrorsOf(None) + ErrorsOf(None) == [];
    ReconcileAllPair(w, {}, scheme, crd, rs);
    CreateStep(w, {}, scheme, crd, rs[0]);
    var w1 := ReconcileResource(w, {}, scheme, crd, rs[0]).0;
    CreateStep(w1, {}, scheme, crd, rs[1]);
    var w2 := ReconcileResource(w1, {}, scheme, crd, rs[1]).0;
    CreatedTwice(w.store.objects, w1.store.objects, w2.store.objects, ResourceKey(rs[0]), ResourceKey(rs[1]));
  }

  /** Two insertions under distinct new keys, as a change to the object store. */
  lemma CreatedTwice(o: map<ObjectKey, Object>, o1: map<ObjectKey, Object>, o2: map<ObjectKey, Object>, k0: ObjectKey, k1: ObjectKey)
    requires k0 != k1
    requires o1.Keys == o.Keys + {k0} && (forall k :: k in o ==> o1[k] == o[k])
    requires o2.Keys == o1.Keys + {k1} && (forall k :: k in o1 ==> o2[k] == o1[k])
    ensures o2.Keys == o.Keys + {k0, k1} && (forall k :: k in o ==> o2[k] == o[k])
    ensures k0 in o1 && k0 in o2 && o2[k0] == o1[k0]
  {
  }

  /** ... and records one Created event and issues one Get and one Create for each. */
  lemma CreatesBothLog(w: World, scheme: Scheme, crd: Samtest, rs: seq<Resource>)
    requires |rs| == 2 && scheme.registersOwnerKind
    requires ResourceKey(rs[0]) != ResourceKey(rs[1])
    requires ResourceKey(rs[0]) !in w.store.objects && ResourceKey(rs[1]) !in w.store.objects
    ensures var w' := ReconcileAll(w, {}, scheme, crd, rs).0;
      && w'.events == w.events + [Recorded(crd, CreatedEvent(rs[0].Kind(), ResourceKey(rs[0]).name)),
                                  Recorded(crd, CreatedEvent(rs[1].Kind(), ResourceKey(rs[1]).name))]
      && w'.store.calls == w.store.calls + [GetCall(ResourceKey(rs[0])), CreateCall(ResourceKey(rs[0])),
                                            GetCall(ResourceKey(rs[1])), CreateCall(ResourceKey(rs[1]))]
  {
    var (k0, k1) := (ResourceKey(rs[0]), ResourceKey(rs[1]));
    var e0 := Recorded(crd, CreatedEvent(rs[0].Kind(), k0.name));
    var e1 := Recorded(crd, CreatedEvent(rs[1].Kind(), k1.name));
    assert w.store.calls + [GetCall(k0), CreateCall(k0)] + [GetCall(k1), CreateCall(k1)] ==
           w.store.calls + [GetCall(k0), CreateCall(k0), GetCall(k1), CreateCall(k1)];
    assert w.events + [e0] + [e1] == w.events + [e0, e1];
    ReconcileAllPair(w, {}, scheme, crd, rs);
    CreateStep(w, {}, scheme, crd, rs[0]);
    var w1 := ReconcileResource(w, {}, scheme, crd, rs[0]).0;
    CreateStep(w1, {}, scheme, crd, rs[1]);
  }

  /** The descriptor loop of a first pass with no fault: both objects are created. */
  lemma FreshResourcePhase(w: World, scheme: Scheme, req: RecordKey)
    requires Consistent(w) && Proceeds(w, {}, req) && scheme.registersOwnerKind
    requires DeploymentKey(req) !in w.store.objects && ServiceKey(req) !in w.store.objects
    ensures var p := Progressed(w, req);
      var rs := Instantiate(ManagedResources, p);
      var w2 := BeforeResources(w, {}, req);
      var (w3, errs) := ResourcePhase(w, {}, scheme, req);
      var objects := w3.store.objects;
      && errs == []
      && w3.store.records == w2.store.records
      && objects.Keys == w.store.objects.Keys + {DeploymentKey(req), ServiceKey(req)}
      && (forall k :: k in w.store.objects ==> objects[k] == w.store.objects[k])
      && IsControlledBy(objects[DeploymentKey(req)], p) && objects[DeploymentKey(req)].spec == rs[0].Generate().spec
      && IsControlledBy(objects[ServiceKey(req)], p) && objects[ServiceKey(req)].spec == rs[1].Generate().spec
      && w3.events == w.events +
           [Recorded(p, CreatedEvent("Deployment", req.name)), Recorded(p, CreatedEvent("Service", req.name))]
      && w3.store.calls == w2.store.calls +
           [GetCall(DeploymentKey(req)), CreateCall(DeploymentKey(req)),
            GetCall(ServiceKey(req)), CreateCall(ServiceKey(req))]
  {
    var p := Progressed(w, req);
    BeforeResourcesUnfold(w, {}, req);
    ManagedKeys(p);
    var rs := Instantiate(ManagedResources, p);
    assert rs[0].Kind() == "Deployment" && rs[1].Kind() == "Service";
    CreatesBothObjects(BeforeResources(w, {}, req), scheme, p, rs);
    CreatesBothLog(BeforeResources(w, {}, req), scheme, p, rs);
  }

  /** A first pass over a record with neither object present and no fault creates
      the Deployment and the Service, each controlled by the record and built from
      its descriptor, leaves every other object alone, and ends Ready. */
  lemma FreshPassCreatesBoth(w: World, scheme: Scheme, req: RecordKey)
    requires Consistent(w) && Proceeds(w, {}, req) && scheme.registersOwnerKind
    requires DeploymentKey(req) !in w.store.objects && ServiceKey(req) !in w.store.objects
    ensures var p := Progressed(w, req);
      var rs := Instantiate(ManagedResources, p);
      var out := Reconcile(w, {}, scheme, req);
      var objects := out.world.store.objects;
      && out.err.None?
      && objects.Keys == w.store.objects.Keys + {DeploymentKey(req), ServiceKey(req)}
      && (forall k :: k in w.store.objects ==> objects[k] == w.store.objects[k])
      && IsControlledBy(objects[DeploymentKey(req)], w.store.records[req])
      && objects[DeploymentKey(req)].spec == rs[0].Generate().spec
      && IsControlledBy(objects[ServiceKey(req)], w.store.records[req])
      && objects[ServiceKey(req)].spec == rs[1].Generate().spec
      && out.world.store.records == w.store.records[req := WithCondition(p, NewStatusCondition(ResourcesReady))]
  {
    var p := Progressed(w, req);
    var ready := WithCondition(p, NewStatusCondition(ResourcesReady));
    assert w.store.records[req := p][req := ready] == w.store.records[req := ready];
    FreshPassClose(w, scheme, req);
    FreshResourcePhase(w, scheme, req);
    BeforeResourcesUnfold(w, {}, req);
  }

  /** The first pass collects no error and closes with the Ready write. */
  lemma FreshPassClose(w: World, scheme: Scheme, req: RecordKey)
    requires Consistent(w) && Proceeds(w, {}, req) && scheme.registersOwnerKind
    requires DeploymentKey(req) !in w.store.objects && ServiceKey(req) !in w.store.objects
    ensures var (w3, errs) := ResourcePhase(w, {}, scheme, req);
      var out := Reconcile(w, {}, scheme, req);
      && errs == []
      && out.err.None?
      && out.world.store.objects == w3.store.objects
      && out.world.store.records == w3.store.records[req := WithCondition(Progressed(w, req), NewStatusCondition(ResourcesReady))]
  {
    BeforeResourcesUnfold(w, {}, req);
    FreshResourcePhase(w, scheme, req);
    PassClose(w, {}, scheme, req);
  }

  /** The same first pass, as the event log and the call log see it: Created for
      the Deployment, then for the Service; the record read, Progressing, a Get
      and a Create per resource, then Ready. */
  lemma FreshPassLog(w: World, scheme: Scheme, req: RecordKey)
    requires Consistent(w) && Proceeds(w, {}, req) && scheme.registersOwnerKind
    requires DeploymentKey(req) !in w.store.objects && ServiceKey(req) !in w.store.objects
    ensures var p := Progressed(w, req);
      var ready := WithCondition(p, NewStatusCondition(ResourcesReady));
      var out := Reconcile(w, {}, scheme, req);
      && out.world.events == w.events +
           [Recorded(p, CreatedEvent("Deployment", req.name)), Recorded(p, CreatedEvent("Service", req.name))]
      && out.world.store.calls == w.store.calls +
           [GetRecordCall(req), StatusUpdateCall(req, p.status.conditions),
            GetCall(DeploymentKey(req)), CreateCall(DeploymentKey(req)),
            GetCall(ServiceKey(req)), CreateCall(ServiceKey(req)),
            StatusUpdateCall(req, ready.status.conditions)]
  {
    var p := Progressed(w, req);
    var ready := WithCondition(p, NewStatusCondition(ResourcesReady));
    var (dk, sk) := (DeploymentKey(req), ServiceKey(req));
    assert w.store.calls + [GetRecordCall(req), StatusUpdateCall(req, p.status.conditions)]
             + [GetCall(dk), CreateCall(dk), GetCall(sk), CreateCall(sk)]
             + [StatusUpdateCall(req, ready.status.conditions)] ==
           w.store.calls + [GetRecordCall(req), StatusUpdateCall(req, p.status.conditions),
                            GetCall(dk), CreateCall(dk), GetCall(sk), CreateCall(sk),
                            StatusUpdateCall(req, ready.status.conditions)];
    BeforeResourcesUnfold(w, {}, req);
    FreshResourcePhase(w, scheme, req);
    PassClose(w, {}, scheme, req);
  }

  /** Two descriptors whose objects are both missing, where only the second's
      Create fails: the first object is created, the second is not, and the
      loop records Created then CreateError and collects the one error. */
  lemma CreateThenFail(w: World, faults: set<Call>, scheme: Scheme, crd: Samtest, rs: seq<Resource>)
    requires |rs| == 2 && scheme.registersOwnerKind
    requires ResourceKey(rs[0]) != ResourceKey(rs[1])
    requires ResourceKey(rs[0]) !in w.store.objects && ResourceKey(rs[1]) !in w.store.objects
    requires GetCall(ResourceKey(rs[0])) !in faults && CreateCall(ResourceKey(rs[0])) !in faults
    requires GetCall(ResourceKey(rs[1])) !in faults && CreateCall(ResourceKey(rs[1])) in faults
    ensures var (w', errs) := ReconcileAll(w, faults, scheme, crd, rs);
      && errs == [ServerError]
      && w'.store.records == w.store.records
      && ResourceKey(rs[0]) in w'.store.objects && IsControlledBy(w'.store.objects[ResourceKey(rs[0])], crd)
      && ResourceKey(rs[1]) !in w'.store.objects
      && w'.events == w.events + [Recorded(crd, CreatedEvent(rs[0].Kind(), ResourceKey(rs[0]).name)),
                                  Recorded(crd, CreateErrorEvent(rs[1].Kind(), ResourceKey(rs[1]).name))]
  {
    var created := Recorded(crd, CreatedEvent(rs[0].Kind(), ResourceKey(rs[0]).name));
    var failed := Recorded(crd, CreateErrorEvent(rs[1].Kind(), ResourceKey(rs[1]).name));
    assert w.events + [created] + [failed] == w.events + [created, failed];
    assert ErrorsOf(None) + ErrorsOf(Some(ServerError)) == [ServerError];
    ReconcileAllPair(w, faults, scheme, crd, rs);
    CreatePathSingleWrite(w, faults, scheme, crd, rs[0]);
    var w1 := ReconcileResource(w, faults, scheme, crd, rs[0]).0;
    CreateFailureRecordsCreateError(w1, faults, scheme, crd, rs[1]);
  }

  /** The descriptor loop of a first pass in which only the Service's Create fails. */
  lemma PartialResourcePhase(w: World, scheme: Scheme, req: RecordKey)
    requires Consistent(w) && Proceeds(w, {CreateCall(ServiceKey(req))}, req) && scheme.registersOwnerKind
    requires DeploymentKey(req) !in w.store.objects && ServiceKey(req) !in w.store.objects
    ensures var faults := {CreateCall(ServiceKey(req))};
      var p := Progressed(w, req);
      var (w3, errs) := ResourcePhase(w, faults, scheme, req);
      var objects := w3.store.objects;
      && errs == [ServerError]
      && w3.store.records == BeforeResources(w, faults, req).store.records
      && DeploymentKey(req) in objects && IsControlledBy(objects[DeploymentKey(req)], p)
      && ServiceKey(req) !in objects
      && w3.events == w.events +
           [Recorded(p, CreatedEvent("Deployment", req.name)), Recorded(p, CreateErrorEvent("Service", req.name))]
  {
    var faults := {CreateCall(ServiceKey(req))};
    var p := Progressed(w, req);
    BeforeResourcesUnfold(w, faults, req);
    ManagedKeys(p);
    var rs := Instantiate(ManagedResources, p);
    assert rs[0].Kind() == "Deployment" && rs[1].Kind() == "Service";
    CreateThenFail(BeforeResources(w, faults, req), faults, scheme, p, rs);
  }

  /** No rollback: when the Service cannot be created, the Deployment created
      earlier in the same pass stays, the pass records Created then CreateError,
      writes Failed and returns the Service's error. */
  lemma PartialFailureNoRollback(w: World, scheme: Scheme, req: RecordKey)
    requires Consistent(w) && Proceeds(w, {CreateCall(ServiceKey(req))}, req) && scheme.registersOwnerKind
    requires DeploymentKey(req) !in w.store.objects && ServiceKey(req) !in w.store.objects
    ensures var p := Progressed(w, req);
      var failed := WithCondition(p, NewStatusCondition(ResourcesFailed));
      var out := Reconcile(w, {CreateCall(ServiceKey(req))}, scheme, req);
      var objects := out.world.store.objects;
      && out.err == Some(ServerError)
      && DeploymentKey(req) in objects && IsControlledBy(objects[DeploymentKey(req)], w.store.records[req])
      && ServiceKey(req) !in objects
      && out.world.events == w.events +
           [Recorded(p, CreatedEvent("Deployment", req.name)), Recorded(p, CreateErrorEvent("Service", req.name))]
      && out.world.store.records == w.store.records[req := failed]
  {
    var faults := {CreateCall(ServiceKey(req))};
    var p := Progressed(w, req);
    var failed := WithCondition(p, NewStatusCondition(ResourcesFailed));
    assert w.store.records[req := p][req := failed] == w.store.records[req := failed];
    BeforeResourcesUnfold(w, faults, req);
    PartialResourcePhase(w, scheme, req);
    PassClose(w, faults, scheme, req);
  }
}
