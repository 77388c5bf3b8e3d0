/** internal/k8s/resources: the descriptors of the two managed kinds. A descriptor
    is bound to one Samtest record and deterministically generates the desired
    object. `Resource` is the descriptor interface as the controller uses it
    (New, Kind, Generate), a tagged variant over the two kinds. */
module Resources {
  import opened Api
  import opened Metadata
  import opened Events
  import opened Text

  // ---- resources/deployment.go ----

  datatype DeploymentEvents = DeploymentEvents(created: Event, updated: Event, imageOutOfSync: Event)

  function NewDeploymentEvents(name: string): (events: DeploymentEvents)
    ensures events.created.eventType == EventTypeNormal && events.created.reason == "DeploymentCreated"
    ensures events.updated.eventType == EventTypeNormal && events.updated.reason == "DeploymentUpdated"
    ensures events.imageOutOfSync.eventType == EventTypeWarning
    ensures events.imageOutOfSync.reason == "DeploymentImageOutOfSync"
    ensures Mentions(events.created.message, name) && Mentions(events.updated.message, name)
    ensures Mentions(events.imageOutOfSync.message, name)
  {
    MentionsIn("The Deployment '", name, "' has been created successfully");
    MentionsIn("The Deployment '", name, "' has been updated successfully");
    MentionsIn("The Deployment '", name, "' image is being updated to match the spec");
    DeploymentEvents(
      Event(EventTypeNormal, "DeploymentCreated",
            "The Deployment '" + name + "' has been created successfully"),
      Event(EventTypeNormal, "DeploymentUpdated",
            "The Deployment '" + name + "' has been updated successfully"),
      Event(EventTypeWarning, "DeploymentImageOutOfSync",
            "The Deployment '" + name + "' image is being updated to match the spec"))
  }

  datatype Deployment = Deployment(name: string, namespace: string, image: string, events: DeploymentEvents)
  {
    /** The kind the controller reports in events: the Go type of the generated object. */
    function Kind(): (kind: string)
      ensures kind == SpecKind(Generate().spec)
    {
      "Deployment"
    }

    function GenerateLabels(): (labels: Labels)
      ensures labels.Keys == {"app"} && labels["app"] == name
    {
      map["app" := name]
    }

    /** The desired Deployment: object labels, selector and pod-template labels
        are one map, and the single "main" container runs the image. */
    function Generate(): (d: Object)
      ensures d.meta.name == name && d.meta.namespace == namespace
      ensures d.meta.controller.None?
      ensures d.spec.DeploymentSpec?
      ensures d.meta.labels == d.spec.selector.matchLabels == d.spec.template.labels == GenerateLabels()
      ensures d.spec.template.containers == [Container("main", image)]
      ensures d.spec.replicas.None?
      ensures KeyOf(d) == ObjectKey("Deployment", namespace, name)
    {
      var labels := GenerateLabels();
      Object(
        TypeMeta("", ""),
        ObjectMeta(name, namespace, labels, None),
        DeploymentSpec(None, LabelSelector(labels),
                       PodTemplateSpec(labels, [Container("main", image)])))
    }
  }

  function NewDeployment(name: string, namespace: string, image: string): (d: Deployment)
    ensures d.name == name && d.namespace == namespace && d.image == image
    ensures d.events == NewDeploymentEvents(name)
    ensures d.events.created.reason == "DeploymentCreated"
    ensures Mentions(d.events.created.message, name)
  {
    Deployment(name, namespace, image, NewDeploymentEvents(name))
  }

  // ---- resources/service.go ----

  datatype Service = Service(name: string, namespace: string, labels: Labels)
  {
    /** Binds a Service descriptor to a record: its name, namespace and app label. */
    static function New(crd: Samtest): (s: Service)
      ensures s.name == crd.name && s.namespace == crd.namespace
      ensures s.labels.Keys == {"app"} && s.labels["app"] == crd.name
    {
      Service(crd.name, crd.namespace, CreateLabels(crd.name))
    }

    function Kind(): string { "Service" }

    /** The desired v1 Service: a ClusterIP service whose selector is the object's
        own label set, with the single port http/TCP/80 -> "http". */
    function Generate(): (s: Object)
      ensures s.typeMeta == TypeMeta("v1", Kind())
      ensures s.meta.name == name && s.meta.namespace == namespace
      ensures s.meta.controller.None?
      ensures s.spec.ServiceSpec? && s.spec.serviceType == ClusterIP
      ensures s.spec.serviceSelector == s.meta.labels == labels
      ensures s.spec.ports == [ServicePort("http", TCP, 80, StringValue("http"))]
      ensures s.spec.clusterIP == ""
      ensures KeyOf(s) == ObjectKey(Kind(), namespace, name)
    {
      Object(
        TypeMeta("v1", Kind()),
        ObjectMeta(name, namespace, labels, None),
        ServiceSpec(ClusterIP, labels, [ServicePort("http", TCP, 80, StringValue("http"))], ""))
    }

    /** Compares only the spec; an object that is not a Service is never equal. */
    function IsEqual(found: Object): (equal: bool)
      ensures !found.spec.ServiceSpec? ==> !equal
      ensures equal <==> found.spec == Generate().spec
    {
      match found.spec
      case ServiceSpec(_, _, _, _) => Generate().spec == found.spec
      case DeploymentSpec(_, _, _) => false
    }
  }

  /** The descriptor's own object compares equal, whatever its metadata. */
  lemma IsEqualIgnoresMetadata(s: Service, meta: ObjectMeta, typeMeta: TypeMeta)
    ensures s.IsEqual(s.Generate().(meta := meta, typeMeta := typeMeta))
  {
  }

  /** A live Service carrying a server-assigned cluster IP never compares equal
      to the generated one: the comparison includes that unmanaged field. */
  lemma IsEqualRejectsAssignedClusterIP(s: Service, found: Object)
    requires found.spec.ServiceSpec? && found.spec.clusterIP != ""
    ensures !s.IsEqual(found)
  {
  }

  // ---- the descriptor interface as the controller uses it ----

  datatype Resource = DeploymentResource(deployment: Deployment) | ServiceResource(service: Service)
  {
    /** Binds a template of this kind to a record; the template's own fields are ignored. */
    function New(crd: Samtest): (r: Resource)
      ensures r.DeploymentResource? <==> DeploymentResource?
      ensures r.DeploymentResource? ==>
        r.deployment.name == crd.name && r.deployment.namespace == crd.namespace &&
        r.deployment.image == crd.spec.image
      ensures r.ServiceResource? ==> r.service == Service.New(crd)
    {
      match this
      case DeploymentResource(_) => DeploymentResource(NewDeployment(crd.name, crd.namespace, crd.spec.image))
      case ServiceResource(_) => ServiceResource(Service.New(crd))
    }

    /** The kind a descriptor reports is the Go type of the object it generates,
        hence the kind part of that object's lookup key. */
    function Kind(): (kind: string)
      ensures kind == SpecKind(Generate().spec) && kind == KeyOf(Generate()).kind
      ensures ServiceResource? ==> Generate().typeMeta.kind == kind
    {
      match this
      case DeploymentResource(d) => d.Kind()
      case ServiceResource(s) => s.Kind()
    }

    function Generate(): Object
    {
      match this
      case DeploymentResource(d) => d.Generate()
      case ServiceResource(s) => s.Generate()
    }
  }

  /** The templates the controller reconciles in every pass, in loop order
      (Go zero values: empty strings, zero events, nil labels). */
  const ManagedResources: seq<Resource> := [
    DeploymentResource(Deployment("", "", "", DeploymentEvents(
      Event(EventTypeNormal, "", ""), Event(EventTypeNormal, "", ""), Event(EventTypeNormal, "", "")))),
    ServiceResource(Service("", "", map[]))
  ]

  /** What the API server demands of a workload or endpoint object: the selector
      is exactly the object's label set (and the pod template's), and a workload
      runs at least one container. */
  predicate WellFormed(obj: Object)
  {
    match obj.spec
    case DeploymentSpec(_, selector, template) =>
      selector.matchLabels == template.labels == obj.meta.labels && |template.containers| > 0
    case ServiceSpec(_, selector, _, _) =>
      selector == obj.meta.labels
  }

  /** Every descriptor bound to a record generates a well-formed object labelled
      app=<record name>, under the record's namespace and name, with the kind the
      descriptor reports. */
  lemma GeneratedObjectsWellFormed(template: Resource, crd: Samtest)
    ensures var obj := template.New(crd).Generate();
      && WellFormed(obj)
      && obj.meta.labels == CreateLabels(crd.name)
      && KeyOf(obj) == ObjectKey(template.New(crd).Kind(), crd.namespace, crd.name)
  {
  }

  /** The managed kinds have distinct lookup keys for one record, so the per-resource
      reconciles of a pass touch disjoint objects. */
  lemma ManagedKeysDistinct(crd: Samtest)
    ensures |ManagedResources| == 2
    ensures KeyOf(ManagedResources[0].New(crd).Generate()) != KeyOf(ManagedResources[1].New(crd).Generate())
  {
    assert KeyOf(ManagedResources[0].New(crd).Generate()).kind == "Deployment";
    assert KeyOf(ManagedResources[1].New(crd).Generate()).kind == "Service";
  }
}
