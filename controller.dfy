/** internal/controller/samtest_controller.go and reconcile.go as the controller
    runs them: a reconciler holding the client and the event recorder, whose
    methods change the cluster and the event log step by step. Each method is
    proved to do exactly what the functions of ReconcileSpec and PassSpec say,
    so every property proved about those functions holds of the running code. */
module Controller {
  import opened Api
  import opened Apimachinery
  import opened Conditions
  import opened Events
  import opened Resources
  import opened Cluster
  import opened ReconcileSpec
  import opened PassSpec

  class SamtestReconciler {
    const client: Client
    const recorder: Recorder
    const scheme: Scheme

    /** What the reconciler can observe and change. */
    function State(): World
      reads client, recorder
    {
      World(client.State(), recorder.log)
    }

    constructor (client: Client, recorder: Recorder, scheme: Scheme)
      ensures this.client == client && this.recorder == recorder && this.scheme == scheme
    {
      this.client := client;
      this.recorder := recorder;
      this.scheme := scheme;
    }

    /** reconcileResource: Get; on NotFound set the controller reference, Create
        and record the outcome; on any other error return it; then adopt the
        object in hand when the record does not control it. */
    method ReconcileResource(crd: Samtest, resource: Resource) returns (err: Option<Error>)
      modifies client, recorder
      ensures (State(), err) == ReconcileSpec.ReconcileResource(old(State()), client.faults, scheme, crd, resource)
    {
      var desired := resource.Generate();
      var kind := resource.Kind();
      var name := desired.meta.name;
      var got := client.Get(KeyOf(desired));
      var found: Object;
      if got.Err? && got.error == NotFound {
        var owned := SetControllerReference(crd, desired, scheme);
        if owned.Err? {
          return Some(owned.error);
        }
        var createErr := client.Create(owned.value);
        if createErr.Some? {
          NewCreateErrorEvent(crd, recorder, kind, name);
          return createErr;
        }
        NewCreatedEvent(crd, recorder, kind, name);
        found := owned.value;
      } else if got.Err? {
        return Some(got.error);
      } else {
        found := got.value;
      }
      if !IsControlledBy(found, crd) {
        var adopted := SetControllerReference(crd, found, scheme);
        if adopted.Err? {
          return Some(adopted.error);
        }
        err := client.Update(adopted.value);
        return;
      }
      err := None;
    }

    /** updateStatus: set the condition on the record and write its status. */
    method UpdateStatus(samtest: Samtest, condition: Condition) returns (updated: Samtest, err: Option<Error>)
      modifies client
      ensures (updated, client.State(), err) == PassSpec.UpdateStatus(old(client.State()), client.faults, samtest, condition)
    {
      updated := WithCondition(samtest, condition);
      err := client.StatusUpdate(updated);
    }

    /** The loop of Reconcile over the managed resources: each template is bound
        to the record and reconciled, one after the other, in ManagedResources
        order, and every failure is collected in that order. */
    method ReconcileManaged(samtest: Samtest) returns (errs: seq<Error>)
      modifies client, recorder
      ensures (State(), errs) ==
        ReconcileAll(old(State()), client.faults, scheme, samtest, Instantiate(ManagedResources, samtest))
    {
      ghost var start := State();
      ghost var rs := Instantiate(ManagedResources, samtest);
      errs := [];
      var i := 0;
      while i < |ManagedResources|
        invariant 0 <= i <= |ManagedResources|
        invariant (State(), errs) == ReconcileAll(start, client.faults, scheme, samtest, rs[..i])
      {
        var res := ManagedResources[i].New(samtest);
        var resErr := ReconcileResource(samtest, res);
        assert rs[..i + 1][..i] == rs[..i] && rs[..i + 1][i] == res;
        errs := errs + ErrorsOf(resErr);
        i := i + 1;
      }
      assert rs[..i] == rs;
    }

    /** Reconcile: one pass over one record; the managed resources are
        reconciled one after the other, in ManagedResources order. */
    method Reconcile(req: RecordKey) returns (result: ReconcileResult, err: Option<Error>)
      modifies client, recorder
      ensures PassOutcome(State(), result, err) == PassSpec.Reconcile(old(State()), client.faults, scheme, req)
    {
      result := EmptyResult;
      var got := client.GetRecord(req);
      if got.Err? {
        err := if got.error == NotFound then None else Some(got.error);
        return;
      }
      var samtest := got.value;
      if samtest.spec.suspend {
        return EmptyResult, None;
      }
      var progressErr;
      samtest, progressErr := UpdateStatus(samtest, NewStatusCondition(ProgressingResources));
      if progressErr.Some? {
        return EmptyResult, progressErr;
      }
      var errs := ReconcileManaged(samtest);
      if |errs| > 0 {
        var _, _ := UpdateStatus(samtest, NewStatusCondition(ResourcesFailed));
        return EmptyResult, Some(errs[0]);
      }
      var _, readyErr := UpdateStatus(samtest, NewStatusCondition(ResourcesReady));
      return EmptyResult, readyErr;
    }
  }
}
