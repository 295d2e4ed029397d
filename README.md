# create_deployment_go, modelled in Dafny

This project models a one-shot Kubernetes provisioner written in Go (`main.go`).
The program does three things:

1. It gets a clientset. It first builds a rest config from the kubeconfig file.
   If that fails, it falls back to the pod's in-cluster identity. If both fail,
   the process ends fatally.
2. It builds an `apps/v1` Deployment from a small intent: a name prefix, a
   namespace and a label map.
3. It submits the Deployment to the `default` namespace.

Files:

- `api.dfy` models the Kubernetes object model the program fills in. It has one
  module per Go package: `MetaV1`, `CoreV1` and `AppsV1`, plus `Optional` for
  Go pointers. Each module also holds the API rule the builder honours:
  - `MetaV1.Matches` decides whether a label selector selects a label set.
  - `MetaV1.UsesGeneratedName` holds when an object asks the server to name it.
  - `CoreV1.QosClassOf` gives a pod's quality-of-service (QoS) class.
  - `AppsV1.SelectsOwnPods` holds when a Deployment's selector selects its own
    pod template.
- `client.dfy` models the client-go calls through their outcomes (`ClientGo`).
  It also holds `Fallback.FirstSuccess`, the reference meaning of a chain of
  credential strategies: the first success wins; if every strategy fails, the
  last failure is reported.
- `main.dfy` is package main (`CreateDeployment`):
  - `BuildDeployment` is the descriptor builder, a pure function.
  - `IntentFor` builds the intent that main constructs.
  - `GetClientset` and `Run` are methods over the outcomes of the foreign calls.
    Each returns the calls it made, in order, as a trace.

Resource quantities are integers in the resource's smallest unit. CPU is counted
in millicores, so "0.5" is 500. Memory is counted in bytes, so "100Mi" is
104857600. The Deployment's own `ObjectMeta.namespace` is left empty, as in the
source. The namespace takes effect only through the create call.

One quirk of the source is reproduced on purpose. `flag.Parse()` runs only after
the kubeconfig path has been read (main.go:31 reads it, main.go:40 parses). So
the path consulted is always the flag's default, `<home>/.kube/config`.
`GetClientset` takes the command-line value as `kubeconfigFlag`, and its
contract shows that this value is never used.

## Model

| member | source | states |
|---|---|---|
| `CreateDeployment.BuildDeployment` | main.go:55-98 | The object carries no name, only a generate-name prefix equal to the intent's name. Its own namespace is unset. Replicas is 1. The selector's match labels and the pod template's labels are both the intent's labels, so the Deployment selects its own pods. The pod's QoS class is Guaranteed. |
| `CreateDeployment.BuildFixedContainer` | main.go:70-90 | For every intent there is exactly one container. It is named "web", runs "nginx:1.12", and its requests equal its limits: 500 millicores of cpu and 100Mi of memory. Its only port is "http", TCP, 80. |
| `CreateDeployment.BuildIgnoresNamespace` | main.go:55-98 | Two intents with the same name and labels give the same object, whatever their namespaces. |
| `CreateDeployment.BuildShapeIsFixed` | main.go:60-95 | The replica count and the whole pod spec do not depend on the intent. |
| `CreateDeployment.IntentFor` | main.go:103-112 | The intent main builds is in the default namespace and is labelled {"app": name}. Its name is the application name followed by one "-". |
| `CreateDeployment.IntentGeneratesName` | main.go:103-114 | The object main submits asks the server to generate its name. Its prefix is name + "-", never the bare name, and it has no concrete name. |
| `CreateDeployment.ScreenRecorderDeployment` | main.go:103-114 | For "screen-recorder", the prefix is "screen-recorder-". Selector and template labels are {"app": "screen-recorder"}. Replicas is 1. |
| `Fallback.FirstSuccess` | main.go:31-39 | A chain of strategies succeeds if and only if some strategy succeeds, and then it returns the first success. When all strategies fail, it returns the last failure. |
| `CreateDeployment.GetClientset` | main.go:20-48 | The kubeconfig is tried first, at the default path, whatever the flag says. If it builds, it is used and the in-cluster source is never consulted. Otherwise the in-cluster config is consulted and used if it builds. If both fail, the outcome is fatal with the in-cluster error and no clientset is built. A clientset is produced only by NewForConfig on the chosen config, and a NewForConfig failure is fatal. |
| `CreateDeployment.Run` | main.go:99-120 | If resolution is fatal, nothing else is called. Otherwise exactly one Create follows, as the last call and right after a successful NewForConfig. Create receives that clientset, the namespace "default" and exactly the object built from main's intent. The process ends normally exactly when that Create succeeds, and otherwise with the create error. |

## Left out

- The client-go calls `clientcmd.BuildConfigFromFlags`, `rest.InClusterConfig`, `kubernetes.NewForConfig` and `Deployments(...).Create` are foreign I/O. They are parameters: a function from path to outcome, a fixed outcome, and functions of their arguments. A config or clientset is an opaque handle.
- `resource.MustParse` is library code. The two quantities are fixed integer constants.
- `homedir.HomeDir()`, `filepath.Join` and the flag package are OS and argument plumbing. The default kubeconfig path and the command-line flag value are passed in as values. A malformed command line, which makes `flag.Parse` exit the process, is not modelled.
- The `log.Printf` at main.go:33 and the `log.Println` at main.go:115 only write diagnostics, so they are not modelled. A `log.Fatalf` is modelled as a fatal outcome carrying its message without the trailing newline, not as process termination.
- The API server's own work is not modelled: appending a random suffix to a generated name, validation, and defaulting.
- Go's pointer aliasing is not modelled. In the source, one label map object is shared by the selector and the template; here it is one immutable map value used in both places.
- `context.Background()` and `metav1.CreateOptions{}` carry nothing the program sets, so they are not modelled.
- Only the cpu and memory resource kinds are modelled, the two the pod uses. `CoreV1.QosClassOf` applies the Kubernetes QoS rule container by container. The kubelet instead sums requests and limits over the pod. The two agree on every pod this builder emits.
