/** The Kubernetes objects the operator writes (a Deployment, a Service and
    an Ingress per Application), reduced to the fields it sets, and the
    result a reconcile pass hands back to the controller runtime. */
module KubeObjects {
  import opened Wrappers
  import opened NetworkingTypes
  import opened Labels
  import opened Runtime
  import opened Endpoints

  /** Name, namespace, labels and the controller owner reference: the
      owning Application's name once one has been recorded. */
  datatype ObjectMeta = ObjectMeta(name: string, namespace: string, labels: Labels, owner: Option<string>)

  datatype PullPolicy = PullIfNotPresent
  datatype SeccompProfile = SeccompRuntimeDefault

  datatype PodSecurityContext = PodSecurityContext(runAsNonRoot: bool, seccompProfile: SeccompProfile)

  datatype SecurityContext = SecurityContext(runAsNonRoot: bool, allowPrivilegeEscalation: bool, dropCapabilities: seq<string>)

  /** `ports` is a set: the list the operator builds has no determined order. */
  datatype Container = Container(
    name: string,
    image: string,
    imagePullPolicy: PullPolicy,
    securityContext: SecurityContext,
    ports: set<ContainerPort>,
    command: seq<string>,
    resources: ResourceRequirements)

  datatype Deployment = Deployment(
    meta: ObjectMeta,
    replicas: int32,
    selector: Labels,
    templateLabels: Labels,
    podSecurityContext: PodSecurityContext,
    containers: seq<Container>)

  /** The zero Deployment the sync starts from before overwriting it. */
  const EmptyDeployment := Deployment(
    ObjectMeta("", "", map[], None), 0, map[], map[],
    PodSecurityContext(false, SeccompRuntimeDefault), [])

  datatype ServiceType = ClusterIP

  datatype Service = Service(meta: ObjectMeta, selector: Labels, serviceType: ServiceType, ports: set<ServicePort>)

  /** `rules` is a set: the list the operator builds has no determined order. */
  datatype Ingress = Ingress(meta: ObjectMeta, rules: set<IngressRule>)

  /** A reconcile result; zero seconds means no requeue. */
  datatype ReconcileResult = ReconcileResult(requeueAfterSeconds: nat)

  const EmptyResult := ReconcileResult(0)
  const RequeueAfterMinute := ReconcileResult(60)
}
