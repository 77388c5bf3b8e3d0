/** The cluster as the controller sees it through its client: a store of managed
    objects keyed by kind, namespace and name, a store of Samtest records, and the
    log of every API call issued. Any call can be made to fail: `faults` lists the
    calls the API server rejects (a timeout, a conflict, throttling). NotFound and
    AlreadyExists are not faults; they follow from what the store holds. */
module Cluster {
  import opened Api

  datatype Call =
    | GetRecordCall(record: RecordKey)
    | GetCall(key: ObjectKey)
    | CreateCall(key: ObjectKey)
    | UpdateCall(key: ObjectKey)
    | StatusUpdateCall(record: RecordKey, conditions: seq<Condition>)
  {
    predicate IsObjectCall() { GetCall? || CreateCall? || UpdateCall? }
  }

  datatype Store = Store(objects: map<ObjectKey, Object>, records: map<RecordKey, Samtest>, calls: seq<Call>)
  {
    function GetRecord(faults: set<Call>, key: RecordKey): (r: (Store, Result<Samtest>))
      ensures r.0 == this.(calls := calls + [GetRecordCall(key)])
      ensures r.1.Ok? <==> GetRecordCall(key) !in faults && key in records
      ensures r.1.Ok? ==> r.1.value == records[key]
      ensures r.1.Err? && GetRecordCall(key) !in faults ==> r.1.error == NotFound
      ensures r.1.Err? && GetRecordCall(key) in faults ==> r.1.error == ServerError
    {
      var s := this.(calls := calls + [GetRecordCall(key)]);
      if GetRecordCall(key) in faults then (s, Err(ServerError))
      else if key in records then (s, Ok(records[key]))
      else (s, Err(NotFound))
    }

    function Get(faults: set<Call>, key: ObjectKey): (r: (Store, Result<Object>))
      ensures r.0 == this.(calls := calls + [GetCall(key)])
      ensures r.1.Ok? <==> GetCall(key) !in faults && key in objects
      ensures r.1.Ok? ==> r.1.value == objects[key]
      ensures r.1.Err? && GetCall(key) !in faults ==> r.1.error == NotFound
      ensures r.1.Err? && GetCall(key) in faults ==> r.1.error == ServerError
    {
      var s := this.(calls := calls + [GetCall(key)]);
      if GetCall(key) in faults then (s, Err(ServerError))
      else if key in objects then (s, Ok(objects[key]))
      else (s, Err(NotFound))
    }

    /** Stores the object only when the call succeeds. */
    function Create(faults: set<Call>, obj: Object): (r: (Store, Option<Error>))
      ensures r.0.calls == calls + [CreateCall(KeyOf(obj))] && r.0.records == records
      ensures r.1.None? <==> CreateCall(KeyOf(obj)) !in faults && KeyOf(obj) !in objects
      ensures r.0.objects == if r.1.None? then objects[KeyOf(obj) := obj] else objects
    {
      var key := KeyOf(obj);
      var s := this.(calls := calls + [CreateCall(key)]);
      if CreateCall(key) in faults then (s, Some(ServerError))
      else if key in objects then (s, Some(AlreadyExists))
      else (s.(objects := objects[key := obj]), None)
    }

    /** Replaces the object only when the call succeeds. */
    function Update(faults: set<Call>, obj: Object): (r: (Store, Option<Error>))
      ensures r.0.calls == calls + [UpdateCall(KeyOf(obj))] && r.0.records == records
      ensures r.1.None? <==> UpdateCall(KeyOf(obj)) !in faults && KeyOf(obj) in objects
      ensures r.0.objects == if r.1.None? then objects[KeyOf(obj) := obj] else objects
    {
      var key := KeyOf(obj);
      var s := this.(calls := calls + [UpdateCall(key)]);
      if UpdateCall(key) in faults then (s, Some(ServerError))
      else if key !in objects then (s, Some(NotFound))
      else (s.(objects := objects[key := obj]), None)
    }

    /** Writes the record's status sub-resource only when the call succeeds. */
    function StatusUpdate(faults: set<Call>, crd: Samtest): (r: (Store, Option<Error>))
      ensures r.0.calls == calls + [StatusUpdateCall(crd.Key(), crd.status.conditions)]
      ensures r.0.objects == objects
      ensures r.1.None? <==> StatusUpdateCall(crd.Key(), crd.status.conditions) !in faults && crd.Key() in records
      ensures r.0.records ==
        if r.1.None? then records[crd.Key() := records[crd.Key()].(status := crd.status)] else records
    {
      var call := StatusUpdateCall(crd.Key(), crd.status.conditions);
      var s := this.(calls := calls + [call]);
      if call in faults then (s, Some(ServerError))
      else if crd.Key() !in records then (s, Some(NotFound))
      else (s.(records := records[crd.Key() := records[crd.Key()].(status := crd.status)]), None)
    }
  }

  /** Every object sits under its own key. */
  predicate KeysConsistent(objects: map<ObjectKey, Object>)
  {
    forall k :: k in objects ==> KeyOf(objects[k]) == k
  }

  /** Every record sits under its own key. */
  predicate RecordKeysConsistent(records: map<RecordKey, Samtest>)
  {
    forall k :: k in records ==> records[k].Key() == k
  }

  /** `after` differs from `before` at most in the status of the record under `key`. */
  ghost predicate StatusOnly(before: map<RecordKey, Samtest>, after: map<RecordKey, Samtest>, key: RecordKey)
  {
    && after.Keys == before.Keys
    && (forall k :: k in before && k != key ==> after[k] == before[k])
    && (key in before ==> after[key].(status := before[key].status) == before[key])
  }

  lemma StatusOnlyTrans(r: map<RecordKey, Samtest>, r1: map<RecordKey, Samtest>, r2: map<RecordKey, Samtest>, key: RecordKey)
    requires StatusOnly(r, r1, key) && StatusOnly(r1, r2, key)
    ensures StatusOnly(r, r2, key)
  {
  }

  /** A status write, successful or not, changes at most the written record's
      status, and records stay under their own keys. */
  lemma StatusUpdateStatusOnly(s: Store, faults: set<Call>, crd: Samtest)
    requires RecordKeysConsistent(s.records)
    ensures var s' := s.StatusUpdate(faults, crd).0;
      StatusOnly(s.records, s'.records, crd.Key()) && RecordKeysConsistent(s'.records)
  {
    var s' := s.StatusUpdate(faults, crd).0;
    if crd.Key() in s.records && s'.records != s.records {
      assert s.records[crd.Key()].Key() == crd.Key();
    }
  }

  /** The controller's client: the cluster state it reads and writes. */
  class Client {
    var objects: map<ObjectKey, Object>
    var records: map<RecordKey, Samtest>
    var calls: seq<Call>
    const faults: set<Call>

    function State(): Store
      reads this
    {
      Store(objects, records, calls)
    }

    constructor (objects: map<ObjectKey, Object>, records: map<RecordKey, Samtest>, faults: set<Call>)
      ensures State() == Store(objects, records, []) && this.faults == faults
    {
      this.objects := objects;
      this.records := records;
      this.calls := [];
      this.faults := faults;
    }

    method GetRecord(key: RecordKey) returns (r: Result<Samtest>)
      modifies this
      ensures (State(), r) == old(State()).GetRecord(faults, key)
    {
      calls := calls + [GetRecordCall(key)];
      if GetRecordCall(key) in faults {
        r := Err(ServerError);
      } else if key in records {
        r := Ok(records[key]);
      } else {
        r := Err(NotFound);
      }
    }

    method Get(key: ObjectKey) returns (r: Result<Object>)
      modifies this
      ensures (State(), r) == old(State()).Get(faults, key)
    {
      calls := calls + [GetCall(key)];
      if GetCall(key) in faults {
        r := Err(ServerError);
      } else if key in objects {
        r := Ok(objects[key]);
      } else {
        r := Err(NotFound);
      }
    }

    method Create(obj: Object) returns (err: Option<Error>)
      modifies this
      ensures (State(), err) == old(State()).Create(faults, obj)
    {
      var key := KeyOf(obj);
      calls := calls + [CreateCall(key)];
      if CreateCall(key) in faults {
        err := Some(ServerError);
      } else if key in objects {
        err := Some(AlreadyExists);
      } else {
        objects := objects[key := obj];
        err := None;
      }
    }

    method Update(obj: Object) returns (err: Option<Error>)
      modifies this
      ensures (State(), err) == old(State()).Update(faults, obj)
    {
      var key := KeyOf(obj);
      calls := calls + [UpdateCall(key)];
      if UpdateCall(key) in faults {
        err := Some(ServerError);
      } else if key !in objects {
        err := Some(NotFound);
      } else {
        objects := objects[key := obj];
        err := None;
      }
    }

    method StatusUpdate(crd: Samtest) returns (err: Option<Error>)
      modifies this
      ensures (State(), err) == old(State()).StatusUpdate(faults, crd)
    {
      var call := StatusUpdateCall(crd.Key(), crd.status.conditions);
      calls := calls + [call];
      if call in faults {
        err := Some(ServerError);
      } else if crd.Key() !in records {
        err := Some(NotFound);
      } else {
        records := records[crd.Key() := records[crd.Key()].(status := crd.status)];
        err := None;
      }
    }
  }
}
