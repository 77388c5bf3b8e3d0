/** Value shapes of the Kubernetes API objects the operator reads and writes
    (core/v1 Service, apps/v1 Deployment, meta/v1 Condition and ObjectMeta) and of
    the Samtest custom resource (api/v1alpha1). Only the fields the operator
    touches are kept. */
module Api {

  datatype Option<+T> = None | Some(value: T)

  /** Failures the API server, or the owner-reference helper, can report. */
  datatype Error =
    | NotFound           // the named object does not exist
    | AlreadyExists      // Create of an object whose key is taken
    | AlreadyOwned       // another controller already owns the object
    | KindNotRegistered  // the scheme does not know the owner's kind
    | ServerError        // any other failure: timeout, conflict, throttling

  datatype Result<+T> = Ok(value: T) | Err(error: Error)

  // ---- meta/v1 ----

  datatype ConditionStatus = ConditionTrue | ConditionFalse | ConditionUnknown

  /** meta/v1 Condition without its timestamp and observed generation. */
  datatype Condition = Condition(conditionType: string, status: ConditionStatus, reason: string, message: string)

  /** The controller entry of an object's owner references. */
  datatype OwnerRef = OwnerRef(kind: string, name: string, uid: string)

  datatype TypeMeta = TypeMeta(apiVersion: string, kind: string)

  datatype ObjectMeta = ObjectMeta(
    name: string,
    namespace: string,
    labels: map<string, string>,
    controller: Option<OwnerRef>)

  // ---- apps/v1 and core/v1 ----

  datatype Container = Container(name: string, image: string)

  datatype LabelSelector = LabelSelector(matchLabels: map<string, string>)

  datatype PodTemplateSpec = PodTemplateSpec(labels: map<string, string>, containers: seq<Container>)

  datatype IntOrString = IntValue(intValue: int) | StringValue(stringValue: string)

  datatype Protocol = TCP | UDP | SCTP

  datatype ServiceType = ClusterIP | NodePort | LoadBalancer | ExternalName

  datatype ServicePort = ServicePort(name: string, protocol: Protocol, port: int, targetPort: IntOrString)

  /** The spec of a managed object; the variant is the object's Go type. */
  datatype Spec =
    | DeploymentSpec(replicas: Option<int>, selector: LabelSelector, template: PodTemplateSpec)
      // clusterIP is assigned by the API server, not by the operator
    | ServiceSpec(serviceType: ServiceType, serviceSelector: map<string, string>, ports: seq<ServicePort>, clusterIP: string)

  datatype Object = Object(typeMeta: TypeMeta, meta: ObjectMeta, spec: Spec)

  /** A client lookup key: the object's Go type together with namespace and name. */
  datatype ObjectKey = ObjectKey(kind: string, namespace: string, name: string)

  function SpecKind(spec: Spec): string
  {
    match spec
    case DeploymentSpec(_, _, _) => "Deployment"
    case ServiceSpec(_, _, _, _) => "Service"
  }

  function KeyOf(obj: Object): ObjectKey
  {
    ObjectKey(SpecKind(obj.spec), obj.meta.namespace, obj.meta.name)
  }

  // ---- api/v1alpha1 ----

  datatype SamtestSpec = SamtestSpec(suspend: bool, image: string, repliacas: int)

  datatype SamtestStatus = SamtestStatus(conditions: seq<Condition>)

  datatype RecordKey = RecordKey(namespace: string, name: string)

  /** The Samtest custom resource: the desired-state record. */
  datatype Samtest = Samtest(name: string, namespace: string, uid: string, spec: SamtestSpec, status: SamtestStatus)
  {
    function Key(): RecordKey { RecordKey(namespace, name) }
  }

  // ---- controller-runtime ----

  /** ctrl.Result: what the work queue should do after a pass. */
  datatype ReconcileResult = ReconcileResult(requeue: bool, requeueAfter: nat)

  const EmptyResult := ReconcileResult(false, 0)
}
