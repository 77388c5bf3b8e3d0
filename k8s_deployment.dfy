/** internal/k8s/deployment.go: the older Deployment descriptor, with its own
    label builder and an "Available" condition for a created Deployment. */
module K8sDeployment {
  import opened Api
  import opened Metadata
  import opened Text

  /** The resource state enumeration lives outside this model; only
      ResourceCreated is distinguished, the others stand in for its remaining values. */
  datatype ResourceState = ResourceCreated | OtherResourceState(ordinal: nat)

  datatype Deployment = Deployment(name: string, namespace: string, image: string)
  {
    function NewLabels(): (labels: Labels)
      ensures labels.Keys == {"app"} && labels["app"] == name
    {
      map["app" := name]
    }

    /** The desired apps/v1 Deployment: one "main" container running the image,
        and a selector that matches the pod template's labels. */
    function New(): (d: Object)
      ensures d.meta.name == name && d.meta.namespace == namespace
      ensures d.meta.controller.None?
      ensures d.spec.DeploymentSpec?
      ensures d.meta.labels == d.spec.selector.matchLabels == d.spec.template.labels == NewLabels()
      ensures d.spec.template.containers == [Container("main", image)]
      ensures d.spec.replicas.None?
    {
      var labels := NewLabels();
      Object(
        TypeMeta("", ""),
        ObjectMeta(name, namespace, labels, None),
        DeploymentSpec(None, LabelSelector(labels),
                       PodTemplateSpec(labels, [Container("main", image)])))
    }

    /** A condition exists for the created state only. */
    function NewCondition(state: ResourceState): (c: Option<Condition>)
      ensures c.Some? <==> state == ResourceCreated
      ensures c.Some? ==> c.value.conditionType == "Available" && c.value.status == ConditionTrue
      ensures c.Some? ==> c.value.reason == "DeploymentCreated"
      ensures c.Some? ==> Mentions(c.value.message, namespace + "/" + name)
    {
      if state == ResourceCreated then
        MentionsEnd("Deployment has been created successfully - ", namespace + "/" + name);
        Some(Condition("Available", ConditionTrue, "DeploymentCreated",
                       "Deployment has been created successfully - " + (namespace + "/" + name)))
      else None
    }
  }
}
