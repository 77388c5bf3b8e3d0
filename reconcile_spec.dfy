/** internal/controller/reconcile.go as a function of the cluster state: the
    per-resource get, then create-or-adopt algorithm, and what it guarantees. */
module ReconcileSpec {
  import opened Api
  import opened Apimachinery
  import opened Events
  import opened Resources
  import opened Cluster

  /** Everything a reconcile can change: the cluster and the recorder's log. */
  datatype World = World(store: Store, events: seq<RecordedEvent>)

  /** The lookup key of the object a descriptor generates. */
  function ResourceKey(resource: Resource): ObjectKey
  {
    KeyOf(resource.Generate())
  }

  /** Lines 78-91: take over an object the record does not control yet. An object
      the record controls is left alone; otherwise a success leaves the object
      under its key controlled by the record and otherwise unchanged. Records and
      the event log are never touched. */
  function Adopt(w: World, faults: set<Call>, scheme: Scheme, crd: Samtest, found: Object): (r: (World, Option<Error>))
    ensures IsControlledBy(found, crd) ==> r == (w, None)
    ensures r.0.store.records == w.store.records && r.0.events == w.events
    ensures r.1.None? && !IsControlledBy(found, crd) ==>
      && KeyOf(found) in r.0.store.objects
      && IsControlledBy(r.0.store.objects[KeyOf(found)], crd)
      && SameExceptController(r.0.store.objects[KeyOf(found)], found)
  {
    if IsControlledBy(found, crd) then (w, None)
    else match SetControllerReference(crd, found, scheme)
      case Err(e) => (w, Some(e))
      case Ok(owned) =>
        var (s, err) := w.store.Update(faults, owned);
        (w.(store := s), err)
  }

  /** One resource: Get; on NotFound set the controller reference and Create,
      recording CreateError or Created; on any other Get error return it; then
      adopt whatever object is now in hand. The drift check is commented out in
      the source and is not part of this algorithm. */
  function ReconcileResource(w: World, faults: set<Call>, scheme: Scheme, crd: Samtest, resource: Resource): (r: (World, Option<Error>))
    ensures r.0.store.records == w.store.records
    ensures w.store.calls < r.0.store.calls && r.0.store.calls[|w.store.calls|] == GetCall(ResourceKey(resource))
    ensures w.events <= r.0.events && |r.0.events| <= |w.events| + 1
  {
    var desired := resource.Generate();
    var kind := resource.Kind();
    var name := desired.meta.name;
    var (s1, got) := w.store.Get(faults, KeyOf(desired));
    if got.Err? && got.error == NotFound then
      match SetControllerReference(crd, desired, scheme)
      case Err(e) => (w.(store := s1), Some(e))
      case Ok(owned) =>
        var (s2, err) := s1.Create(faults, owned);
        if err.Some? then
          (World(s2, w.events + [Recorded(crd, CreateErrorEvent(kind, name))]), err)
        else
          Adopt(World(s2, w.events + [Recorded(crd, CreatedEvent(kind, name))]), faults, scheme, crd, owned)
    else if got.Err? then
      (w.(store := s1), Some(got.error))
    else
      Adopt(w.(store := s1), faults, scheme, crd, got.value)
  }

  // ---- one lemma per path ----

  /** A Get failure other than NotFound is returned; nothing is written or recorded. */
  lemma GetErrorReturnedWithoutWrites(w: World, faults: set<Call>, scheme: Scheme, crd: Samtest, resource: Resource)
    requires GetCall(ResourceKey(resource)) in faults
    ensures ReconcileResource(w, faults, scheme, crd, resource) ==
      (World(w.store.(calls := w.store.calls + [GetCall(ResourceKey(resource))]), w.events), Some(ServerError))
  {
  }

  /** On the create path the controller reference is set first; when that fails,
      Create is never called and nothing is recorded. */
  lemma OwnerReferenceFailureSkipsCreate(w: World, faults: set<Call>, scheme: Scheme, crd: Samtest, resource: Resource)
    requires GetCall(ResourceKey(resource)) !in faults && ResourceKey(resource) !in w.store.objects
    requires !scheme.registersOwnerKind
    ensures ReconcileResource(w, faults, scheme, crd, resource) ==
      (World(w.store.(calls := w.store.calls + [GetCall(ResourceKey(resource))]), w.events), Some(KindNotRegistered))
  {
  }

  /** A failed Create records exactly one CreateError event, no Created event,
      stores nothing, and returns the error. */
  lemma CreateFailureRecordsCreateError(w: World, faults: set<Call>, scheme: Scheme, crd: Samtest, resource: Resource)
    requires GetCall(ResourceKey(resource)) !in faults && ResourceKey(resource) !in w.store.objects
    requires scheme.registersOwnerKind && CreateCall(ResourceKey(resource)) in faults
    ensures var key := ResourceKey(resource);
      var out := ReconcileResource(w, faults, scheme, crd, resource);
      && out.0.store == w.store.(calls := w.store.calls + [GetCall(key), CreateCall(key)])
      && out.0.events == w.events + [Recorded(crd, CreateErrorEvent(resource.Kind(), key.name))]
      && out.1 == Some(ServerError)
  {
    var key := ResourceKey(resource);
    assert w.store.calls + [GetCall(key)] + [CreateCall(key)] == w.store.calls + [GetCall(key), CreateCall(key)];
  }

  /** A successful Create stores the generated object, already controlled by the
      record, records one Created event after it, and makes no second write: the
      adoption step sees the controller reference and does nothing. */
  lemma CreatePathSingleWrite(w: World, faults: set<Call>, scheme: Scheme, crd: Samtest, resource: Resource)
    requires GetCall(ResourceKey(resource)) !in faults && ResourceKey(resource) !in w.store.objects
    requires scheme.registersOwnerKind && CreateCall(ResourceKey(resource)) !in faults
    ensures var key := ResourceKey(resource);
      var desired := resource.Generate();
      var out := ReconcileResource(w, faults, scheme, crd, resource);
      && out.0.store.calls == w.store.calls + [GetCall(key), CreateCall(key)]
      && out.0.store.records == w.store.records
      && key in out.0.store.objects
      && out.0.store.objects == w.store.objects[key := out.0.store.objects[key]]
      && IsControlledBy(out.0.store.objects[key], crd)
      && out.0.store.objects[key].spec == desired.spec
      && out.0.store.objects[key].meta.labels == desired.meta.labels
      && SetControllerReference(crd, desired, scheme) == Ok(out.0.store.objects[key])
      && out.0.events == w.events + [Recorded(crd, CreatedEvent(resource.Kind(), key.name))]
      && out.1 == None
  {
    var key := ResourceKey(resource);
    assert w.store.calls + [GetCall(key)] + [CreateCall(key)] == w.store.calls + [GetCall(key), CreateCall(key)];
  }

  /** An existing object the record does not control gets the controller reference
      in exactly one Update, with nothing else about it changed; an Update failure
      is returned; no event is recorded either way. */
  lemma AdoptionSetsOwnerOnly(w: World, faults: set<Call>, scheme: Scheme, crd: Samtest, resource: Resource)
    requires KeysConsistent(w.store.objects)
    requires GetCall(ResourceKey(resource)) !in faults && ResourceKey(resource) in w.store.objects
    requires !IsControlledBy(w.store.objects[ResourceKey(resource)], crd)
    requires scheme.registersOwnerKind && !OwnedByOther(w.store.objects[ResourceKey(resource)], crd)
    ensures var key := ResourceKey(resource);
      var found := w.store.objects[key];
      var out := ReconcileResource(w, faults, scheme, crd, resource);
      && out.0.store.calls == w.store.calls + [GetCall(key), UpdateCall(key)]
      && out.0.store.records == w.store.records
      && out.0.events == w.events
      && out.1 == (if UpdateCall(key) in faults then Some(ServerError) else None)
      && key in out.0.store.objects
      && out.0.store.objects == w.store.objects[key := out.0.store.objects[key]]
      && (out.1.None? ==> IsControlledBy(out.0.store.objects[key], crd))
      && out.0.store.objects[key].spec == found.spec
      && out.0.store.objects[key].meta.(controller := found.meta.controller) == found.meta
  {
    var key := ResourceKey(resource);
    assert w.store.calls + [GetCall(key)] + [UpdateCall(key)] == w.store.calls + [GetCall(key), UpdateCall(key)];
  }

  /** An object controlled by the record leaves the pass with no write, no event
      and no error: the steady state is a no-op apart from the read. */
  lemma SteadyStateNoWrite(w: World, faults: set<Call>, scheme: Scheme, crd: Samtest, resource: Resource)
    requires GetCall(ResourceKey(resource)) !in faults && ResourceKey(resource) in w.store.objects
    requires IsControlledBy(w.store.objects[ResourceKey(resource)], crd)
    ensures ReconcileResource(w, faults, scheme, crd, resource) ==
      (World(w.store.(calls := w.store.calls + [GetCall(ResourceKey(resource))]), w.events), None)
  {
  }

  // ---- what every path guarantees ----

  /** The object differs at most in its controller reference. */
  predicate SameExceptController(now: Object, before: Object)
  {
    now.typeMeta == before.typeMeta && now.spec == before.spec &&
    now.meta.(controller := before.meta.controller) == before.meta
  }

  /** The calls one resource reconcile issues: exactly one Get, first, then at most
      Creates and Updates, all on that resource's own key. */
  predicate ResourceCalls(seg: seq<Call>, key: ObjectKey)
  {
    |seg| >= 1 && seg[0] == GetCall(key) &&
    forall i :: 1 <= i < |seg| ==> seg[i] == CreateCall(key) || seg[i] == UpdateCall(key)
  }

  /** The branch a resource reconcile takes, with its outcome written out: a read
      or owner-reference failure (nothing written), a failed Create (one
      CreateError event), a successful Create of the record-controlled generated
      object (one Created event), or an adoption Update of an object the record
      did not control, touching only its controller reference. The steady state
      is the first shape with no error. */
  ghost predicate Path(w: World, w': World, err: Option<Error>, scheme: Scheme, crd: Samtest, resource: Resource)
  {
    var key := ResourceKey(resource);
    var calls := w.store.calls;
    || (w'.store == w.store.(calls := calls + [GetCall(key)]) && w'.events == w.events)
    || (w'.store == w.store.(calls := calls + [GetCall(key), CreateCall(key)]) && err.Some? &&
        w'.events == w.events + [Recorded(crd, CreateErrorEvent(resource.Kind(), key.name))])
    || (key !in w.store.objects && err.None? &&
        w'.store.calls == calls + [GetCall(key), CreateCall(key)] && w'.store.records == w.store.records &&
        key in w'.store.objects && w'.store.objects == w.store.objects[key := w'.store.objects[key]] &&
        SetControllerReference(crd, resource.Generate(), scheme) == Ok(w'.store.objects[key]) &&
        w'.events == w.events + [Recorded(crd, CreatedEvent(resource.Kind(), key.name))])
    || (key in w.store.objects && !IsControlledBy(w.store.objects[key], crd) &&
        w'.store.calls == calls + [GetCall(key), UpdateCall(key)] && w'.store.records == w.store.records &&
        w'.events == w.events && key in w'.store.objects &&
        w'.store.objects == w.store.objects[key := w'.store.objects[key]] &&
        SameExceptController(w'.store.objects[key], w.store.objects[key]) &&
        (err.None? ==> IsControlledBy(w'.store.objects[key], crd)))
  }

  /** Every resource reconcile takes one of the branches of Path; each case is
      proved by the path lemmas above. */
  lemma {:induction false} ResourcePaths(w: World, faults: set<Call>, scheme: Scheme, crd: Samtest, resource: Resource)
    requires KeysConsistent(w.store.objects)
    ensures var (w', err) := ReconcileResource(w, faults, scheme, crd, resource);
      Path(w, w', err, scheme, crd, resource)
    ensures var key := ResourceKey(resource);
      var (w', err) := ReconcileResource(w, faults, scheme, crd, resource);
      && (err.None? ==> key in w'.store.objects && IsControlledBy(w'.store.objects[key], crd))
      && (w'.store.objects != w.store.objects ==> err.None?)
  {
    var key := ResourceKey(resource);
    var objects := w.store.objects;
    if GetCall(key) in faults {
      GetErrorReturnedWithoutWrites(w, faults, scheme, crd, resource);
    } else if key !in objects {
      if !scheme.registersOwnerKind {
        OwnerReferenceFailureSkipsCreate(w, faults, scheme, crd, resource);
      } else if CreateCall(key) in faults {
        CreateFailureRecordsCreateError(w, faults, scheme, crd, resource);
      } else {
        CreatePathSingleWrite(w, faults, scheme, crd, resource);
      }
    } else if IsControlledBy(objects[key], crd) {
      SteadyStateNoWrite(w, faults, scheme, crd, resource);
    } else if scheme.registersOwnerKind && !OwnedByOther(objects[key], crd) {
      AdoptionSetsOwnerOnly(w, faults, scheme, crd, resource);
    }
  }

  /** What every branch guarantees, whatever the faults: the records are
      untouched; only the resource's own object can change; an existing object
      keeps its spec, labels and type (only its controller reference may be set)
      and one the record already controls is left alone; an object that appears
      is the generated one, controlled by the record; the calls form one
      ResourceCalls segment; at most one event is appended. */
  ghost predicate Effects(w: World, w': World, scheme: Scheme, crd: Samtest, resource: Resource)
  {
    ObjectEffects(w, w', scheme, crd, resource) && LogEffects(w, w', resource)
  }

  /** How a reconcile may change the object store: objects stay under their own
      keys; no key outside `keys` is added, removed or changed; an existing object
      differs at most in its controller reference. */
  ghost predicate StoreFrame(o: map<ObjectKey, Object>, o': map<ObjectKey, Object>, keys: set<ObjectKey>)
  {
    && KeysConsistent(o')
    && (forall k :: k !in keys ==> (k in o' <==> k in o))
    && (forall k :: k !in keys && k in o ==> o'[k] == o[k])
    && (forall k :: k in o ==> k in o' && SameExceptController(o'[k], o[k]))
  }

  /** StoreFrame, and an object `crd` already controls is not touched. */
  ghost predicate ObjectsFrame(o: map<ObjectKey, Object>, o': map<ObjectKey, Object>, keys: set<ObjectKey>, crd: Samtest)
  {
    StoreFrame(o, o', keys) && (forall k :: k in o && IsControlledBy(o[k], crd) ==> o'[k] == o[k])
  }

  /** Two frames in a row are one frame over both key sets. */
  lemma ObjectsFrameTrans(o: map<ObjectKey, Object>, o1: map<ObjectKey, Object>, o2: map<ObjectKey, Object>,
                          keys1: set<ObjectKey>, keys2: set<ObjectKey>, crd: Samtest)
    requires ObjectsFrame(o, o1, keys1, crd) && ObjectsFrame(o1, o2, keys2, crd)
    ensures ObjectsFrame(o, o2, keys1 + keys2, crd)
  {
    forall k | k in o ensures k in o2 && SameExceptController(o2[k], o[k]) {
      assert k in o1 && SameExceptController(o1[k], o[k]);
    }
    forall k | k in o && IsControlledBy(o[k], crd) ensures o2[k] == o[k] {
      assert o1[k] == o[k];
    }
  }

  /** Control is by uid: a frame for one record holds for any record with its uid. */
  lemma ObjectsFrameSameUid(o: map<ObjectKey, Object>, o': map<ObjectKey, Object>, keys: set<ObjectKey>, crd: Samtest, other: Samtest)
    requires ObjectsFrame(o, o', keys, crd) && other.uid == crd.uid
    ensures ObjectsFrame(o, o', keys, other)
  {
  }

  /** The store part of Effects. */
  ghost predicate ObjectEffects(w: World, w': World, scheme: Scheme, crd: Samtest, resource: Resource)
  {
    var key := ResourceKey(resource);
    && w'.store.records == w.store.records
    && ObjectsFrame(w.store.objects, w'.store.objects, {key}, crd)
    && (key !in w.store.objects && key in w'.store.objects ==>
          SetControllerReference(crd, resource.Generate(), scheme) == Ok(w'.store.objects[key]))
  }

  /** The log part of Effects. */
  ghost predicate LogEffects(w: World, w': World, resource: Resource)
  {
    && |w.store.calls| < |w'.store.calls|
    && w'.store.calls[..|w.store.calls|] == w.store.calls
    && ResourceCalls(w'.store.calls[|w.store.calls|..], ResourceKey(resource))
    && w.events <= w'.events && |w'.events| <= |w.events| + 1
  }

  lemma PathObjectEffects(w: World, w': World, err: Option<Error>, scheme: Scheme, crd: Samtest, resource: Resource)
    requires KeysConsistent(w.store.objects)
    requires Path(w, w', err, scheme, crd, resource)
    ensures ObjectEffects(w, w', scheme, crd, resource)
  {
    var key := ResourceKey(resource);
    var o, o' := w.store.objects, w'.store.objects;
    if o' != o {
      var v := o'[key];
      if key !in o {
        assert KeyOf(v) == KeyOf(resource.Generate());
      } else {
        assert KeyOf(v) == KeyOf(o[key]);
      }
      PutFrame(o, key, v, crd);
    }
  }

  /** Storing `v` under its own key is within the frame of that key, as long as an
      existing object there differs at most in its controller reference and was
      not controlled by `crd`. */
  lemma PutFrame(o: map<ObjectKey, Object>, key: ObjectKey, v: Object, crd: Samtest)
    requires KeysConsistent(o) && KeyOf(v) == key
    requires key in o ==> SameExceptController(v, o[key]) && !IsControlledBy(o[key], crd)
    ensures ObjectsFrame(o, o[key := v], {key}, crd)
  {
  }

  lemma PathLogEffects(w: World, w': World, err: Option<Error>, scheme: Scheme, crd: Samtest, resource: Resource)
    requires Path(w, w', err, scheme, crd, resource)
    ensures LogEffects(w, w', resource)
  {
    var key := ResourceKey(resource);
    var n := |w.store.calls|;
    if w'.store.calls == w.store.calls + [GetCall(key)] {
      assert w'.store.calls[n..] == [GetCall(key)];
    } else if w'.store.calls == w.store.calls + [GetCall(key), CreateCall(key)] {
      assert w'.store.calls[n..] == [GetCall(key), CreateCall(key)];
    } else {
      assert w'.store.calls[n..] == [GetCall(key), UpdateCall(key)];
    }
  }

  /** Every resource reconcile has the Effects. */
  lemma ResourceEffects(w: World, faults: set<Call>, scheme: Scheme, crd: Samtest, resource: Resource)
    requires KeysConsistent(w.store.objects)
    ensures var (w', err) := ReconcileResource(w, faults, scheme, crd, resource);
      Effects(w, w', scheme, crd, resource)
  {
    var (w', err) := ReconcileResource(w, faults, scheme, crd, resource);
    ResourcePaths(w, faults, scheme, crd, resource);
    PathObjectEffects(w, w', err, scheme, crd, resource);
    PathLogEffects(w, w', err, scheme, crd, resource);
  }

  /** A resource reconcile that returns no error leaves its object present and
      controlled by the record. */
  lemma ResourceConverges(w: World, faults: set<Call>, scheme: Scheme, crd: Samtest, resource: Resource)
    requires KeysConsistent(w.store.objects)
    ensures var (w', err) := ReconcileResource(w, faults, scheme, crd, resource);
      err.None? ==> ResourceKey(resource) in w'.store.objects &&
                    IsControlledBy(w'.store.objects[ResourceKey(resource)], crd)
  {
    ResourcePaths(w, faults, scheme, crd, resource);
  }

  /** An object the record controls survives any resource reconcile unchanged. */
  lemma ResourceKeepsControlled(w: World, faults: set<Call>, scheme: Scheme, crd: Samtest, resource: Resource, k: ObjectKey)
    requires KeysConsistent(w.store.objects)
    requires k in w.store.objects && IsControlledBy(w.store.objects[k], crd)
    ensures var w' := ReconcileResource(w, faults, scheme, crd, resource).0;
      k in w'.store.objects && w'.store.objects[k] == w.store.objects[k]
  {
    ResourceEffects(w, faults, scheme, crd, resource);
  }

  /** The calls of a resource reconcile, on their own: one ResourceCalls segment
      appended to the log. */
  lemma ResourceCallsAppended(w: World, faults: set<Call>, scheme: Scheme, crd: Samtest, resource: Resource)
    requires KeysConsistent(w.store.objects)
    ensures var calls := ReconcileResource(w, faults, scheme, crd, resource).0.store.calls;
      && |w.store.calls| < |calls| && calls[..|w.store.calls|] == w.store.calls
      && ResourceCalls(calls[|w.store.calls|..], ResourceKey(resource))
  {
    ResourceEffects(w, faults, scheme, crd, resource);
  }

  /** Objects stay stored under their own keys across a resource reconcile. */
  lemma ResourceKeepsKeysConsistent(w: World, faults: set<Call>, scheme: Scheme, crd: Samtest, resource: Resource)
    requires KeysConsistent(w.store.objects)
    ensures KeysConsistent(ReconcileResource(w, faults, scheme, crd, resource).0.store.objects)
  {
    ResourceEffects(w, faults, scheme, crd, resource);
  }

  /** A resource reconcile only appends object calls to the call log and only
      appends to the event log. */
  lemma ResourceLogsAppended(w: World, faults: set<Call>, scheme: Scheme, crd: Samtest, resource: Resource)
    requires KeysConsistent(w.store.objects)
    ensures var w' := ReconcileResource(w, faults, scheme, crd, resource).0;
      && |w.store.calls| <= |w'.store.calls| && w'.store.calls[..|w.store.calls|] == w.store.calls
      && (forall i :: |w.store.calls| <= i < |w'.store.calls| ==> w'.store.calls[i].IsObjectCall())
      && w.events <= w'.events
  {
    ResourceEffects(w, faults, scheme, crd, resource);
    var w' := ReconcileResource(w, faults, scheme, crd, resource).0;
    SegmentObjectCalls(w.store.calls, w'.store.calls, ResourceKey(resource));
  }

  /** A ResourceCalls segment appended to a log holds object calls only. */
  lemma SegmentObjectCalls(calls: seq<Call>, calls': seq<Call>, key: ObjectKey)
    requires |calls| < |calls'| && calls'[..|calls|] == calls && ResourceCalls(calls'[|calls|..], key)
    ensures forall i :: |calls| <= i < |calls'| ==> calls'[i].IsObjectCall()
  {
    var n := |calls|;
    forall i | n <= i < |calls'| ensures calls'[i].IsObjectCall() {
      assert calls'[i] == calls'[n..][i - n];
    }
  }

  /** The object-store part of ResourceEffects on its own. */
  lemma ResourceFrame(w: World, faults: set<Call>, scheme: Scheme, crd: Samtest, resource: Resource)
    requires KeysConsistent(w.store.objects)
    ensures var w' := ReconcileResource(w, faults, scheme, crd, resource).0;
      && w'.store.records == w.store.records
      && ObjectsFrame(w.store.objects, w'.store.objects, {ResourceKey(resource)}, crd)
  {
    ResourceEffects(w, faults, scheme, crd, resource);
  }
}
