/**
 The provisioner of package main: resolve credentials (kubeconfig first, the
 pod's in-cluster identity second), build a fixed-shape apps/v1 Deployment from
 a small intent, and submit it to the default namespace.

 The client-go calls are parameters: `buildConfigFromFlags` stands for
 clientcmd.BuildConfigFromFlags("", path), `inClusterConfig` for the outcome of
 rest.InClusterConfig(), `newForConfig` for kubernetes.NewForConfig and
 `create` for Deployments(namespace).Create. Every call made is recorded, in
 order, in a trace of Call values, so that "this call never happens" can be
 stated. A log.Fatalf is modelled as a Fatal outcome carrying its message.
 */
module CreateDeployment {
  import opened Optional
  import opened ClientGo
  import Fallback
  import MetaV1
  import CoreV1
  import AppsV1

  /** The intent the builder works from (the source's own `Deployment` type). */
  datatype Deployment = Deployment(name: string, namespace: string, depLabels: map<string, string>)

  /** resource.MustParse("0.5"), in millicores. */
  const HALF_CPU: nat := 500
  /** resource.MustParse("100Mi"), in bytes. */
  const MEMORY_100MI: nat := 100 * 1024 * 1024

  /** The name fixed in main. */
  const APP_NAME := "screen-recorder"

  /** Builds the Deployment object for an intent. */
  function BuildDeployment(d: Deployment): (r: AppsV1.Deployment)
    ensures r.metadata.name == "" && r.metadata.generateName == d.name
    ensures r.metadata.namespace == ""
    ensures r.spec.replicas == Some(1)
    ensures r.spec.selector == Some(MetaV1.LabelSelector(d.depLabels))
    ensures r.spec.template.metadata.labels == d.depLabels
    ensures AppsV1.SelectsOwnPods(r.spec)
    ensures CoreV1.QosClassOf(r.spec.template.spec) == CoreV1.Guaranteed
  {
    AppsV1.Deployment(
      MetaV1.EMPTY_META.(generateName := d.name),
      AppsV1.DeploymentSpec(
        Some(1),
        Some(MetaV1.LabelSelector(d.depLabels)),
        CoreV1.PodTemplateSpec(
          MetaV1.EMPTY_META.(labels := d.depLabels),
          CoreV1.PodSpec([
            CoreV1.Container(
              "web",
              "nginx:1.12",
              CoreV1.ResourceRequirements(
                map[CoreV1.Cpu := HALF_CPU, CoreV1.Memory := MEMORY_100MI],
                map[CoreV1.Cpu := HALF_CPU, CoreV1.Memory := MEMORY_100MI]),
              [CoreV1.ContainerPort("http", CoreV1.TCP, 80)])
          ]))))
  }

  /** Whatever the intent, the pod template holds one container "web" running
      nginx:1.12 with 0.5 cpu and 100Mi of memory both requested and limited,
      exposing only TCP port 80 under the name "http". */
  lemma BuildFixedContainer(d: Deployment)
    ensures var cs := BuildDeployment(d).spec.template.spec.containers;
            |cs| == 1 && cs[0].name == "web" && cs[0].image == "nginx:1.12" &&
            cs[0].resources.requests == cs[0].resources.limits &&
            cs[0].resources.limits == map[CoreV1.Cpu := 500, CoreV1.Memory := 104857600] &&
            cs[0].ports == [CoreV1.ContainerPort("http", CoreV1.TCP, 80)]
  {
  }

  /** The intent's namespace plays no part in the object: only its name and
      labels do. The namespace is applied by the create call alone. */
  lemma BuildIgnoresNamespace(d1: Deployment, d2: Deployment)
    requires d1.name == d2.name && d1.depLabels == d2.depLabels
    ensures BuildDeployment(d1) == BuildDeployment(d2)
  {
  }

  /** The replica count and the pod spec are the same for every intent. */
  lemma BuildShapeIsFixed(d1: Deployment, d2: Deployment)
    ensures BuildDeployment(d1).spec.replicas == BuildDeployment(d2).spec.replicas
    ensures BuildDeployment(d1).spec.template.spec == BuildDeployment(d2).spec.template.spec
  {
  }

  /** The intent main builds for an application name: the name with "-"
      appended as the prefix, the bare name as the "app" label, and the
      default namespace. */
  function IntentFor(name: string): (d: Deployment)
    ensures d.namespace == CoreV1.NAMESPACE_DEFAULT
    ensures d.depLabels == map["app" := name]
    ensures |d.name| == |name| + 1 && d.name[..|name|] == name && d.name[|name|] == '-'
  {
    var labels := map["app" := name];
    var d := Deployment("", CoreV1.NAMESPACE_DEFAULT, labels);
    d.(name := name + "-")
  }

  /** The object main submits asks the server to generate its name from the
      application name plus "-", and never carries the bare name. */
  lemma IntentGeneratesName(name: string)
    ensures var r := BuildDeployment(IntentFor(name));
            MetaV1.UsesGeneratedName(r.metadata) &&
            r.metadata.generateName == name + "-" &&
            r.metadata.generateName != name && r.metadata.name != name + "-"
  {
  }

  /** The concrete object of main. */
  lemma ScreenRecorderDeployment()
    ensures var r := BuildDeployment(IntentFor(APP_NAME));
            r.metadata.generateName == "screen-recorder-" &&
            r.spec.selector == Some(MetaV1.LabelSelector(map["app" := "screen-recorder"])) &&
            r.spec.template.metadata.labels == map["app" := "screen-recorder"] &&
            r.spec.replicas == Some(1)
  {
  }

  /** One client-go call, with the arguments it was given. */
  datatype Call =
    | FromFlags(kubeconfigPath: string)
    | InCluster
    | NewClient(config: RestConfig)
    | Create(clientset: Clientset, namespace: string, deployment: AppsV1.Deployment)

  /** How a stage of main ends: with a value for the next stage, or in a
      log.Fatalf with the given message. */
  datatype Step<T> = Proceed(value: T) | Fatal(message: string)

  const BUILD_CONFIG_FAILED := "Error Building Config: "
  const CLIENTSET_FAILED := "Error Getting clientset: "
  const CREATE_FAILED := "Error Creating the Deployment: "

  /** The rest.Config getClientset settles on: the kubeconfig's if it builds,
      the in-cluster one otherwise. */
  function ChosenConfig(
    kubeconfigPath: string,
    buildConfigFromFlags: string -> Outcome<RestConfig>,
    inClusterConfig: Outcome<RestConfig>): Outcome<RestConfig>
  {
    Fallback.FirstSuccess([buildConfigFromFlags(kubeconfigPath), inClusterConfig])
  }

  /** How getClientset ends, as a function of the outcomes of its calls. */
  function Resolution(
    kubeconfigPath: string,
    buildConfigFromFlags: string -> Outcome<RestConfig>,
    inClusterConfig: Outcome<RestConfig>,
    newForConfig: RestConfig -> Outcome<Clientset>): Step<Clientset>
  {
    match ChosenConfig(kubeconfigPath, buildConfigFromFlags, inClusterConfig)
    case Err(e) => Fatal(BUILD_CONFIG_FAILED + e)
    case Ok(config) =>
      match newForConfig(config)
      case Err(e) => Fatal(CLIENTSET_FAILED + e)
      case Ok(clientset) => Proceed(clientset)
  }

  /** The calls getClientset makes, in order. */
  function ResolutionCalls(
    kubeconfigPath: string,
    buildConfigFromFlags: string -> Outcome<RestConfig>,
    inClusterConfig: Outcome<RestConfig>): seq<Call>
  {
    var config := ChosenConfig(kubeconfigPath, buildConfigFromFlags, inClusterConfig);
    [FromFlags(kubeconfigPath)]
    + (if buildConfigFromFlags(kubeconfigPath).Err? then [InCluster] else [])
    + (if config.Ok? then [NewClient(config.value)] else [])
  }

  /** getClientset. `defaultKubeconfig` is the default of the --kubeconfig
      flag (the user's ~/.kube/config); `kubeconfigFlag` is the value given on
      the command line, if any. The flags are parsed only after the path has
      been read, so the given value is never consulted. */
  method GetClientset(
    defaultKubeconfig: string,
    kubeconfigFlag: Option<string>,
    buildConfigFromFlags: string -> Outcome<RestConfig>,
    inClusterConfig: Outcome<RestConfig>,
    newForConfig: RestConfig -> Outcome<Clientset>)
    returns (r: Step<Clientset>, calls: seq<Call>)
    ensures r == Resolution(defaultKubeconfig, buildConfigFromFlags, inClusterConfig, newForConfig)
    ensures calls == ResolutionCalls(defaultKubeconfig, buildConfigFromFlags, inClusterConfig)
    // the kubeconfig is tried first, at the default path
    ensures |calls| >= 1 && calls[0] == FromFlags(defaultKubeconfig)
    // a kubeconfig that builds is used, and the in-cluster source is never consulted
    ensures buildConfigFromFlags(defaultKubeconfig).Ok? ==>
              InCluster !in calls && calls[1] == NewClient(buildConfigFromFlags(defaultKubeconfig).value)
    // otherwise the in-cluster config is consulted and, if it builds, used
    ensures buildConfigFromFlags(defaultKubeconfig).Err? && inClusterConfig.Ok? ==>
              calls == [FromFlags(defaultKubeconfig), InCluster, NewClient(inClusterConfig.value)]
    // both failing is fatal, with the in-cluster error, and no clientset is built
    ensures buildConfigFromFlags(defaultKubeconfig).Err? && inClusterConfig.Err? ==>
              calls == [FromFlags(defaultKubeconfig), InCluster] &&
              r == Fatal(BUILD_CONFIG_FAILED + inClusterConfig.error)
    // a clientset is produced only from the config it was built from
    ensures r.Proceed? <==> calls[|calls| - 1].NewClient? && newForConfig(calls[|calls| - 1].config).Ok?
    ensures r.Proceed? ==> newForConfig(calls[|calls| - 1].config) == Ok(r.value)
  {
    var kubeconfig := defaultKubeconfig;
    var config := buildConfigFromFlags(kubeconfig);
    calls := [FromFlags(kubeconfig)];
    if config.Err? {
      config := inClusterConfig;
      calls := calls + [InCluster];
      if config.Err? {
        r := Fatal(BUILD_CONFIG_FAILED + config.error);
        return;
      }
    }
    // flag.Parse: the --kubeconfig value arrives after the path has been used
    kubeconfig := if kubeconfigFlag.Some? then kubeconfigFlag.value else kubeconfig;

    var clientset := newForConfig(config.value);
    calls := calls + [NewClient(config.value)];
    if clientset.Err? {
      r := Fatal(CLIENTSET_FAILED + clientset.error);
      return;
    }
    r := Proceed(clientset.value);
  }

  /** How the process ends: normally, or in a log.Fatalf. */
  datatype Exit = Normal | Exited(message: string)

  /** main: resolve a clientset, build the screen-recorder Deployment and
      create it in the default namespace. */
  method Run(
    defaultKubeconfig: string,
    kubeconfigFlag: Option<string>,
    buildConfigFromFlags: string -> Outcome<RestConfig>,
    inClusterConfig: Outcome<RestConfig>,
    newForConfig: RestConfig -> Outcome<Clientset>,
    create: (Clientset, string, AppsV1.Deployment) -> Outcome<AppsV1.Deployment>)
    returns (exit: Exit, calls: seq<Call>)
    ensures var resolved := Resolution(defaultKubeconfig, buildConfigFromFlags, inClusterConfig, newForConfig);
            var resolving := ResolutionCalls(defaultKubeconfig, buildConfigFromFlags, inClusterConfig);
            var descriptor := BuildDeployment(IntentFor(APP_NAME));
            match resolved
            case Fatal(msg) =>
              calls == resolving && exit == Exited(msg)
            case Proceed(cs) =>
              calls == resolving + [Create(cs, CoreV1.NAMESPACE_DEFAULT, descriptor)] &&
              exit == (match create(cs, CoreV1.NAMESPACE_DEFAULT, descriptor)
                       case Ok(_) => Normal
                       case Err(e) => Exited(CREATE_FAILED + e))
    // Create is the last call, and comes only right after a clientset was built
    ensures forall i :: 0 <= i < |calls| && calls[i].Create? ==>
              i == |calls| - 1 && i > 0 && calls[i - 1].NewClient? &&
              newForConfig(calls[i - 1].config) == Ok(calls[i].clientset) &&
              calls[i].namespace == CoreV1.NAMESPACE_DEFAULT &&
              calls[i].deployment == BuildDeployment(IntentFor(APP_NAME))
    // the process ends normally exactly when the Deployment was created
    ensures exit == Normal <==>
              calls[|calls| - 1].Create? &&
              var c := calls[|calls| - 1]; create(c.clientset, c.namespace, c.deployment).Ok?
  {
    var c;
    c, calls := GetClientset(defaultKubeconfig, kubeconfigFlag, buildConfigFromFlags, inClusterConfig, newForConfig);
    if c.Fatal? {
      exit := Exited(c.message);
      return;
    }

    var name := APP_NAME;
    var d := IntentFor(name);
    var deployment := BuildDeployment(d);
    calls := calls + [Create(c.value, d.namespace, deployment)];
    var created := create(c.value, d.namespace, deployment);
    if created.Err? {
      exit := Exited(CREATE_FAILED + created.error);
      return;
    }
    exit := Normal;
  }
}
