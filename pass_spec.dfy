/** internal/controller/samtest_controller.go as a function of the cluster state:
    one reconcile pass of one Samtest record, and what it guarantees. The
    goroutine fan-out over the managed resources is a sequential loop in
    ManagedResources order; `errs` collects the failures in that order. */
module PassSpec {
  import opened Api
  import opened Apimachinery
  import opened Conditions
  import opened Events
  import opened Resources
  import opened Cluster
  import opened ReconcileSpec

  datatype PassOutcome = PassOutcome(world: World, result: ReconcileResult, err: Option<Error>)

  /** The record with `condition` upserted into its status conditions. */
  function WithCondition(samtest: Samtest, condition: Condition): Samtest
  {
    samtest.(status := SamtestStatus(SetStatusCondition(samtest.status.conditions, condition)))
  }

  /** updateStatus: set the condition on the in-memory record, then write its
      status; returns the updated record, the new store and the write's error. */
  function UpdateStatus(s: Store, faults: set<Call>, samtest: Samtest, condition: Condition): (r: (Samtest, Store, Option<Error>))
    ensures r.0 == WithCondition(samtest, condition) && condition in r.0.status.conditions
    ensures r.1.calls == s.calls + [StatusUpdateCall(samtest.Key(), r.0.status.conditions)]
    ensures r.1.objects == s.objects
    ensures r.2.None? <==> StatusUpdateCall(samtest.Key(), r.0.status.conditions) !in faults && samtest.Key() in s.records
    ensures r.1.records ==
      if r.2.None? then s.records[samtest.Key() := s.records[samtest.Key()].(status := r.0.status)] else s.records
  {
    var updated := WithCondition(samtest, condition);
    var (s1, err) := s.StatusUpdate(faults, updated);
    (updated, s1, err)
  }

  /** The descriptors bound to the record, one per template, in order. */
  function Instantiate(templates: seq<Resource>, crd: Samtest): (rs: seq<Resource>)
    ensures |rs| == |templates|
    ensures forall i :: 0 <= i < |rs| ==> rs[i] == templates[i].New(crd)
  {
    seq(|templates|, i requires 0 <= i < |templates| => templates[i].New(crd))
  }

  function ErrorsOf(err: Option<Error>): seq<Error>
  {
    if err.Some? then [err.value] else []
  }

  /** Reconciles each descriptor once, in order, collecting the failures: at most
      one error per descriptor, at least one call per descriptor, records never
      touched, the call and event logs only appended to. */
  function ReconcileAll(w: World, faults: set<Call>, scheme: Scheme, crd: Samtest, rs: seq<Resource>): (r: (World, seq<Error>))
    ensures |r.1| <= |rs|
    ensures r.0.store.records == w.store.records
    ensures w.store.calls <= r.0.store.calls && |r.0.store.calls| >= |w.store.calls| + |rs|
    ensures w.events <= r.0.events
    decreases |rs|
  {
    if rs == [] then (w, [])
    else
      var (w1, errs) := ReconcileAll(w, faults, scheme, crd, rs[..|rs| - 1]);
      var (w2, err) := ReconcileResource(w1, faults, scheme, crd, rs[|rs| - 1]);
      (w2, errs + ErrorsOf(err))
  }

  /** One pass. A missing record ends it quietly and any other read error is
      returned; a suspended record ends it with no write; otherwise Progressing
      is written (its failure aborts the pass), every managed resource is
      reconciled, and then exactly one of Failed (its write error ignored, the
      first resource error returned) or Ready (its write error returned). */
  function Reconcile(w: World, faults: set<Call>, scheme: Scheme, req: RecordKey): (out: PassOutcome)
    ensures out.result == EmptyResult
  {
    var (s1, got) := w.store.GetRecord(faults, req);
    if got.Err? then
      PassOutcome(w.(store := s1), EmptyResult, if got.error == NotFound then None else Some(got.error))
    else if got.value.spec.suspend then
      PassOutcome(w.(store := s1), EmptyResult, None)
    else
      var (samtest, s2, perr) := UpdateStatus(s1, faults, got.value, NewStatusCondition(ProgressingResources));
      if perr.Some? then
        PassOutcome(w.(store := s2), EmptyResult, perr)
      else
        var (w3, errs) := ReconcileAll(World(s2, w.events), faults, scheme, samtest, Instantiate(ManagedResources, samtest));
        if |errs| > 0 then
          var (_, s4, _) := UpdateStatus(w3.store, faults, samtest, NewStatusCondition(ResourcesFailed));
          PassOutcome(w3.(store := s4), EmptyResult, Some(errs[0]))
        else
          var (_, s4, rerr) := UpdateStatus(w3.store, faults, samtest, NewStatusCondition(ResourcesReady));
          PassOutcome(w3.(store := s4), EmptyResult, rerr)
  }
}
