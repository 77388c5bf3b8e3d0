/** internal/k8s/events.go: event values for each per-resource outcome, and the
    event recorder as an append-only log. */
module Events {
  import opened Api
  import opened Text

  datatype EventType = EventTypeNormal | EventTypeWarning

  /** EventTypeMap: the only two type strings the recorder accepts. */
  function EventTypeName(t: EventType): (name: string)
    ensures name == "Normal" <==> t == EventTypeNormal
    ensures name == "Warning" <==> t == EventTypeWarning
  {
    match t
    case EventTypeNormal => "Normal"
    case EventTypeWarning => "Warning"
  }

  datatype Event = Event(eventType: EventType, reason: string, message: string)

  /** An entry of the recorder's log, attached to a Samtest record. */
  datatype RecordedEvent = RecordedEvent(involved: RecordKey, eventType: string, reason: string, message: string)

  /** The cluster's event recorder: write-only telemetry, never read back. */
  class Recorder {
    var log: seq<RecordedEvent>

    constructor ()
      ensures log == []
    {
      log := [];
    }

    method Record(involved: RecordKey, eventType: string, reason: string, message: string)
      modifies this
      ensures log == old(log) + [RecordedEvent(involved, eventType, reason, message)]
    {
      log := log + [RecordedEvent(involved, eventType, reason, message)];
    }
  }

  /** What NewEvent hands to the recorder for `event` on record `crd`. */
  function Recorded(crd: Samtest, event: Event): (r: RecordedEvent)
    ensures r.involved == crd.Key()
    ensures r.eventType == EventTypeName(event.eventType)
    ensures r.reason == event.reason && r.message == event.message
  {
    RecordedEvent(crd.Key(), EventTypeName(event.eventType), event.reason, event.message)
  }

  /** Records exactly one event, and nothing else. */
  method NewEvent(crd: Samtest, recorder: Recorder, event: Event)
    modifies recorder
    ensures recorder.log == old(recorder.log) + [Recorded(crd, event)]
  {
    recorder.Record(crd.Key(), EventTypeName(event.eventType), event.reason, event.message);
  }

  // The five outcome events. Each reason is the kind followed by the outcome,
  // and each message names both the kind and the object.

  function CreatedEvent(kind: string, name: string): (e: Event)
    ensures e.eventType == EventTypeNormal
    ensures kind <= e.reason && e.reason[|kind|..] == "Created"
    ensures Mentions(e.message, kind) && Mentions(e.message, name)
  {
    MentionsStart(kind, " ");
    MentionsAppend(kind + " ", kind, name);
    MentionsAppend(kind + " " + name, kind, " has been created successfully");
    MentionsIn(kind + " ", name, " has been created successfully");
    Event(EventTypeNormal, kind + "Created", kind + " " + name + " has been created successfully")
  }

  function CreateErrorEvent(kind: string, name: string): (e: Event)
    ensures e.eventType == EventTypeWarning
    ensures kind <= e.reason && e.reason[|kind|..] == "CreateError"
    ensures Mentions(e.message, kind) && Mentions(e.message, name)
  {
    MentionsIn("An error occurred whilst creating ", kind, " ");
    MentionsAppend("An error occurred whilst creating " + kind + " ", kind, name);
    MentionsEnd("An error occurred whilst creating " + kind + " ", name);
    Event(EventTypeWarning, kind + "CreateError", "An error occurred whilst creating " + kind + " " + name)
  }

  function UpdatedEvent(kind: string, name: string): (e: Event)
    ensures e.eventType == EventTypeNormal
    ensures kind <= e.reason && e.reason[|kind|..] == "Updated"
    ensures Mentions(e.message, kind) && Mentions(e.message, name)
  {
    MentionsStart(kind, " ");
    MentionsAppend(kind + " ", kind, name);
    MentionsAppend(kind + " " + name, kind, " has been updated successfully");
    MentionsIn(kind + " ", name, " has been updated successfully");
    Event(EventTypeNormal, kind + "Updated", kind + " " + name + " has been updated successfully")
  }

  function UpdateErrorEvent(kind: string, name: string): (e: Event)
    ensures e.eventType == EventTypeWarning
    ensures kind <= e.reason && e.reason[|kind|..] == "UpdateError"
    ensures Mentions(e.message, kind) && Mentions(e.message, name)
  {
    MentionsIn("An error occurred whilst updating ", kind, " ");
    MentionsAppend("An error occurred whilst updating " + kind + " ", kind, name);
    MentionsEnd("An error occurred whilst updating " + kind + " ", name);
    Event(EventTypeWarning, kind + "UpdateError", "An error occurred whilst updating " + kind + " " + name)
  }

  function OutOfSyncEvent(kind: string, name: string): (e: Event)
    ensures e.eventType == EventTypeWarning
    ensures kind <= e.reason && e.reason[|kind|..] == "OutOfSync"
    ensures Mentions(e.message, kind) && Mentions(e.message, name)
  {
    MentionsStart(kind, " ");
    MentionsAppend(kind + " ", kind, name);
    MentionsAppend(kind + " " + name, kind, " is out of sync with the desired spec");
    MentionsIn(kind + " ", name, " is out of sync with the desired spec");
    Event(EventTypeWarning, kind + "OutOfSync", kind + " " + name + " is out of sync with the desired spec")
  }

  method NewCreatedEvent(crd: Samtest, recorder: Recorder, kind: string, name: string)
    modifies recorder
    ensures recorder.log == old(recorder.log) + [Recorded(crd, CreatedEvent(kind, name))]
  {
    NewEvent(crd, recorder, CreatedEvent(kind, name));
  }

  method NewCreateErrorEvent(crd: Samtest, recorder: Recorder, kind: string, name: string)
    modifies recorder
    ensures recorder.log == old(recorder.log) + [Recorded(crd, CreateErrorEvent(kind, name))]
  {
    NewEvent(crd, recorder, CreateErrorEvent(kind, name));
  }

  method NewUpdatedEvent(crd: Samtest, recorder: Recorder, kind: string, name: string)
    modifies recorder
    ensures recorder.log == old(recorder.log) + [Recorded(crd, UpdatedEvent(kind, name))]
  {
    NewEvent(crd, recorder, UpdatedEvent(kind, name));
  }

  method NewUpdateErrorEvent(crd: Samtest, recorder: Recorder, kind: string, name: string)
    modifies recorder
    ensures recorder.log == old(recorder.log) + [Recorded(crd, UpdateErrorEvent(kind, name))]
  {
    NewEvent(crd, recorder, UpdateErrorEvent(kind, name));
  }

  method NewOutOfSyncEvent(crd: Samtest, recorder: Recorder, kind: string, name: string)
    modifies recorder
    ensures recorder.log == old(recorder.log) + [Recorded(crd, OutOfSyncEvent(kind, name))]
  {
    NewEvent(crd, recorder, OutOfSyncEvent(kind, name));
  }

  /** For one kind the five reasons are pairwise distinct, so an event's reason
      tells which outcome it reports. */
  lemma OutcomeReasonsDistinct(kind: string, name: string)
    ensures var reasons := [CreatedEvent(kind, name).reason, CreateErrorEvent(kind, name).reason,
                            UpdatedEvent(kind, name).reason, UpdateErrorEvent(kind, name).reason,
                            OutOfSyncEvent(kind, name).reason];
            forall i, j :: 0 <= i < j < 5 ==> reasons[i] != reasons[j]
  {
    var k := |kind|;
    var c, ce := CreatedEvent(kind, name).reason, CreateErrorEvent(kind, name).reason;
    var u, ue := UpdatedEvent(kind, name).reason, UpdateErrorEvent(kind, name).reason;
    var o := OutOfSyncEvent(kind, name).reason;
    assert c[k] == 'C' && ce[k] == 'C' && u[k] == 'U' && ue[k] == 'U' && o[k] == 'O';
    assert |c| == k + 7 && |ce| == k + 11 && |u| == k + 7 && |ue| == k + 11 && |o| == k + 9;
  }
}
