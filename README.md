# sandboxed, modelled in Dafny

`sandboxed` runs untrusted code in short-lived Kubernetes pods. A Go SDK creates a
pod per sandbox from a language image, waits until it is ready, runs code in it with
`sh -c` and force-deletes it. An MCP tool server keeps a registry of named sandboxes
on top of it. An HTTP server offers one-shot execution (create a pod, wait, run, clean
up) and sandbox endpoints. Two CLI commands, `exec` and `code`, run local shell
commands and open an editor.

This project models that core and proves what its code promises.

- The remote cluster is an abstract class, `Remote.Cluster`. It holds a map from pod
  to pod record and a `trace` of every API call together with the answer it got. A
  pod record holds the pod object, the readiness answers its next GETs will give and
  its log, read by read. The create, get, delete, log and exec calls are oracles: the
  answer is left open, and what it does to the pod map is stated.
- The contracts of the client, the SDK, the MCP server and the HTTP handlers speak of
  that trace. Examples are "the pod was created before it was polled", "no delete
  was issued", "nothing was sent" and "exactly these commands, in this order".
- Time is modelled by the poll budget only. The readiness deadline becomes a number
  of polls, 2 s apart. The `time.Now` values used in names are parameters.

Modules, one per file, in dependency order:

- `Wrappers`: Option, Result and Outcome.
- `Text`: the Go `strings`, `unicode` and `fmt` functions the core relies on, with
  their properties (`ToLower` only as far as its result is ASCII).
- `Templates`: the language image table.
- `Remote`: the cluster.
- `K8sClient`: `pkg/k8sclient/client.go`.
- `Sdk`: `pkg/sdk/sdk.go`.
- `Mcp`: `pkg/mcp/server.go`.
- `ApiServer`: `cmd/server.go`.
- `ExecCli`: `cmd/exec.go`.
- `CodeCli`: `cmd/code.go`.

Where the state changes in the source, the model is imperative:

- `K8sClient.Client`, `Sdk.Sandbox`, `Mcp.SandboxManager` and `ExecCli.Host` are
  classes.
- The readiness poll, the log read loop, the command loop of `CreateAndRunPod`, the
  option fold, the registry listing, the command-file scan, the environment
  composition and the run loop of `exec` are `while` loops with invariants.
- Table lookups and argv construction are functions.

In these places the code does something other than what it evidently sets out to do, and the model follows the code as written:

- The HTTP server's one-shot pods are submitted with the labels `app=api-execution`
  and `created-by=sandboxed-api`. `CreatePod` overwrites both, so the pod is labelled
  `app=<pod name>` and `created-by=sandboxed-cli`. `ApiServer.ApiPodLabels` proves the
  labels the pod actually gets.
- `CreateAndRunPod` wraps a create error twice with "failed to create pod: ". Once
  comes from `CreatePod` and once from itself.
- A `NewInstance` handle has an empty container name, so `Destroy` on it targets the
  pod `sandboxed-`, not the sandbox id.

## Model

| member | source | states |
|---|---|---|
| Templates.LanguageLookup | pkg/k8sclient/templates/lang.go:6-21 | succeeds exactly for the seven keys, with a non-empty image; otherwise the error "unsupported language: " + lang |
| Templates.LookupTable | pkg/k8sclient/templates/lang.go:7-15 | the image of each of the seven languages, entry by entry |
| Templates.LookupIsExact | pkg/k8sclient/templates/lang.go:17-20 | matching is exact: "Python", "py", "golang", " go" and "" are rejected, "Python" with its error text |
| Templates.LookupIsInjective | pkg/k8sclient/templates/lang.go:7-15 | no two languages share an image |
| Text.TrimSpace | pkg/sdk/sdk.go:102 | the result is the stretch of the input after its leading white space, only white space follows it, and it neither starts nor ends with white space |
| Text.TrimSpaceOfPadded | cmd/exec.go:61 | trimming white space around a text that neither starts nor ends with white space gives back exactly that text |
| Text.TrimSpaceIdempotent | cmd/exec.go:61 | trimming twice is trimming once |
| Text.ToLower | pkg/sdk/sdk.go:102 | keeps the length and lowers each code point on its own; `A`-`Z`, U+0130 and U+212A become their ASCII lower case |
| Text.ToLowerIdempotent | pkg/sdk/sdk.go:102 | no ASCII capital is left, and lowering twice is lowering once |
| Text.Join | cmd/exec.go:83 | joining one part gives that part, and joining none gives the empty string |
| Text.JoinSnoc | cmd/exec.go:83 | appending a part to a non-empty list appends the separator and that part to the joined text |
| Text.NatToDecimal | cmd/server.go:220 | a non-empty string of decimal digits, with a leading zero only for 0 |
| Text.IntToDecimal | cmd/server.go:337 | digits, with a leading '-' exactly for negative numbers |
| Text.DecimalRoundTrip | cmd/server.go:220 | reading back the decimal digits of n gives n |
| K8sClient.DefaultNamespace | pkg/k8sclient/client.go:79-81 | an empty namespace is replaced by the fallback, any other is kept |
| K8sClient.DefaultLabels | pkg/k8sclient/client.go:83-89 | the caller's keys plus `app` and `created-by`; `app` is the pod name, `created-by` is `sandboxed-cli`, every other caller label is kept; no labels give a fresh map with the two |
| K8sClient.SetIfNonEmpty | pkg/k8sclient/client.go:106-114 | a command or argument list is set exactly when it is non-empty, and then unchanged |
| K8sClient.BuildPod | pkg/k8sclient/client.go:78-114 | the pod has the spec's name, the defaulted namespace and labels, restart policy Never, and one container named after the pod with the spec's image and the command and args set only when non-empty |
| K8sClient.DeleteOptionsFor | pkg/k8sclient/client.go:145-155 | force sets grace period 0 and foreground propagation; otherwise neither is set |
| K8sClient.Answered | pkg/k8sclient/client.go:218-227 | a failed GET is an error naming pod, namespace and reason; otherwise the pod is ready exactly when its Ready condition is True |
| K8sClient.WaitMeaning | pkg/k8sclient/client.go:213-231 | the wait makes at most budget polls; all but the last answered NotReady; it ends Ready exactly on a Ready answer, with the GET's error exactly on a failed GET, and times out only after budget NotReady answers |
| K8sClient.WaitPolls | pkg/k8sclient/client.go:213-231 | a timeout uses the whole budget; any other verdict follows at least one poll |
| K8sClient.WaitLastAnswer | pkg/k8sclient/client.go:218-226 | the verdict is read off the last answer |
| K8sClient.WaitEarlierAnswers | pkg/k8sclient/client.go:223-229 | every answer before the last is NotReady, so the loop only continues on a not-ready pod |
| K8sClient.WaitConsumes | pkg/k8sclient/client.go:218 | each poll consumes the cluster's next readiness answer in order, and the unconsumed rest is left to later GETs |
| K8sClient.BudgetStep | pkg/k8sclient/client.go:210-229 | another poll is made exactly while the time spent sleeping is below the deadline |
| K8sClient.PollBudgetMeetsDeadline | pkg/k8sclient/client.go:210-229 | the polls cover the deadline, the last one starts before it, and a 300 s wait makes 150 polls |
| K8sClient.ReadyVerdict | pkg/k8sclient/client.go:205-232 | a positive deadline gives at least one poll and at most the deadline's budget; the wait passes exactly when its last answer is Ready, and otherwise fails with the last GET's error or the timeout; a final NotReady comes only once the whole budget was spent (PolledUntil) |
| K8sClient.StopIndex | pkg/k8sclient/client.go:250-257 | the reads before the stop delivered bytes without error, and the stopping read delivered none or an error |
| K8sClient.AccumulateIsPrefixConcat | pkg/k8sclient/client.go:248-261 | the collected log is the in-order concatenation of every read before the first empty or erroring one |
| K8sClient.StreamOutcome | pkg/k8sclient/client.go:316-326 | the exec passes exactly when the stream succeeded, and otherwise wraps the stream's error |
| K8sClient.ShapeExec | pkg/k8sclient/client.go:343-347 | stdout exactly on success; otherwise an error that starts with the wrapped stream error and ends with the captured stderr |
| K8sClient.NotReadyReport | pkg/k8sclient/client.go:366-369 | a readiness failure runs no command and reports "pod not ready: " and the reason |
| K8sClient.Client.constructor | pkg/k8sclient/client.go:70-74 | the client keeps its cluster and namespace |
| K8sClient.NewClient | pkg/k8sclient/client.go:40-75 | succeeds exactly when the configuration loads and a clientset is built from it; each failure has its own "failed to create kubernetes config: " or "failed to create kubernetes client: " error; the namespace defaults to "default" and is never empty |
| K8sClient.Client.CreatePod | pkg/k8sclient/client.go:78-127 | submits exactly BuildPod of the spec; on success the pod is new and is added and nothing else changes; on failure no pod changes and the error is wrapped |
| K8sClient.Client.DeletePodWithOptions | pkg/k8sclient/client.go:140-167 | one delete with the options force selects; it deletes exactly that pod on success and changes nothing on failure; a missing pod is an error, not swallowed; every error is wrapped with pod and namespace |
| K8sClient.Client.DeletePod | pkg/k8sclient/client.go:130-132 | a delete with empty options, otherwise as DeletePodWithOptions |
| K8sClient.Client.ForceDeletePod | pkg/k8sclient/client.go:135-137 | a delete with grace period 0 and foreground propagation, otherwise as DeletePodWithOptions |
| K8sClient.Client.GetPod | pkg/k8sclient/client.go:170-185 | one GET of the defaulted namespace that consumes the pod's next readiness answer |
| K8sClient.Client.WaitForPodReady | pkg/k8sclient/client.go:205-232 | the result is the wait's verdict; the trace holds exactly its GETs; the pod's readiness script keeps only the unconsumed answers |
| K8sClient.Client.GetPodLogs | pkg/k8sclient/client.go:235-262 | one log request that changes no pod; on success the log is the accumulation of the pod's reads; a missing pod is the wrapped not-found error |
| K8sClient.Client.ExecInPod | pkg/k8sclient/client.go:275-327 | one exec of exactly this command, with stdout and stderr captured and no pod changed; the result reports the stream's error |
| K8sClient.Client.ExecCommand | pkg/k8sclient/client.go:330-348 | one tty exec; the result is ShapeExec of its reply; a missing pod is an error |
| K8sClient.Client.RunCommands | pkg/k8sclient/client.go:372-381 | runs the commands in order and stops at the first failure; results are the stdouts of the earlier commands; no error exactly when every command ran; the error wraps the failed command's error |
| K8sClient.Client.AwaitAndRun | pkg/k8sclient/client.go:358-381 | polls first, at most the five-minute budget and ending NotReady only once it is spent, then runs commands only after a Ready answer; with cleanup the pod is deleted after the last call on every exit, including a readiness failure; afterwards the pod is gone exactly when that delete went through, it is otherwise the same pod, and no other pod changed |
| K8sClient.Client.CreateAndRunPod | pkg/k8sclient/client.go:351-382 | creates the pod before anything else, then waits as AwaitAndRun does, up to the five-minute deadline; a failed create polls, runs and deletes nothing and leaves the pods as they were; otherwise as AwaitAndRun, with partial results kept on a command failure: the new pod is in the cluster afterwards exactly when no cleanup delete removed it, and no other pod changed |
| Sdk.GetExecScript | pkg/sdk/sdk.go:27-46 | non-empty exactly for the seven languages |
| Sdk.IsValid | pkg/sdk/sdk.go:52-55 | true exactly for the seven languages |
| Sdk.DockerImage | pkg/sdk/sdk.go:48-50 | an image from the table exactly for a valid language |
| Sdk.ToLanguage | pkg/sdk/sdk.go:57-62 | succeeds exactly for a valid name and returns it unchanged; otherwise the lookup's error |
| Sdk.ExecScriptIffValid | pkg/sdk/sdk.go:27-62 | GetExecScript, DockerImage and ToLanguage agree on which languages are supported |
| Sdk.LanguageOfName | pkg/sdk/sdk.go:104-122 | the seven names map to themselves, "javascript" and "js" to node, anything else is the detection error |
| Sdk.NormalizeIdempotent | pkg/sdk/sdk.go:102 | trimming and lower-casing an already normalised reply changes nothing |
| Sdk.ReplyDependsOnNormalForm | pkg/sdk/sdk.go:102-122 | the detected language depends only on the normalised reply |
| Sdk.DetectLanguage | pkg/sdk/sdk.go:65-123 | no key is an error before the API is asked; a chat error is returned as it is; no choice is "no response from GPT API"; otherwise the language is read from the first choice's reply, and a detected language is one of the seven |
| Sdk.DetectWithoutKeyAsksNothing | pkg/sdk/sdk.go:66-69 | without a key the result does not depend on the completion service at all |
| Sdk.OptionsMapKeys | pkg/sdk/sdk.go:178-181 | an option name is in the folded map exactly when some option has it |
| Sdk.OptionsMapLastWins | pkg/sdk/sdk.go:178-181 | a repeated option name maps to its last value |
| Sdk.FoldOptions | pkg/sdk/sdk.go:178-181 | the loop builds exactly the fold of the options |
| Sdk.NamespaceOption | pkg/sdk/sdk.go:186-191 | the "namespace" option when it is a string, otherwise "default" |
| Sdk.NamespaceOfOptions | pkg/sdk/sdk.go:178-191 | no namespace option gives "default"; otherwise the last namespace option decides |
| Sdk.SandboxPodSpec | pkg/sdk/sdk.go:184-216 | pod "sandboxed-" + name with the keep-alive command, no args, the image and the namespace option |
| Sdk.SandboxPodLabels | pkg/sdk/sdk.go:206-216 | the created pod carries the caller's labels plus `app` = pod name and `created-by` = sandboxed-cli, or only those two |
| Sdk.ExecPlan | pkg/sdk/sdk.go:333-356 | Exec's plan has exactly three steps (their contents are in ExecPlanSteps) |
| Sdk.ExecPlanSteps | pkg/sdk/sdk.go:333-356 | every step runs under `sh -c`; the write step holds the commands verbatim between the here-document lines and gives them back; then chmod; the run step is empty exactly for an unsupported language |
| Sdk.AsOutput | pkg/sdk/sdk.go:292-301 | a success becomes Output(stdout, "", 0); an error is passed through unchanged |
| Sdk.Sandbox.constructor | pkg/sdk/sdk.go:156-160 | the handle keeps its cluster, driver, container and id |
| Sdk.Sandbox.Run | pkg/sdk/sdk.go:263-302 | with a configured cluster, exactly one exec of ["sh","-c",code] on pod id; the result is AsOutput of the reply; nothing is sent otherwise |
| Sdk.Sandbox.Exec | pkg/sdk/sdk.go:304-365 | write, chmod and run are sent in that order, each only after the previous succeeded; the first error is returned; an unsupported language stops before the run step |
| Sdk.Sandbox.Destroy | pkg/sdk/sdk.go:367-398 | one force delete of "sandboxed-" + the container name in the handle's namespace; nothing else is sent |
| Sdk.CreateSandbox | pkg/sdk/sdk.go:154-231 | (SandboxCreated) an unsupported language or a client that cannot be set up sends nothing; otherwise the pod is created before it is polled, up to the two-minute budget, and a final NotReady only once it is spent; the handle is returned exactly after a Ready answer, with id "sandboxed-" + name; a refused create reports "failed to create pod: ", a failed wait the GET error or the timeout; no delete is issued, so a submitted pod is in the cluster afterwards, ready or not, and no other pod changed |
| Sdk.CreateSandboxAuto | pkg/sdk/sdk.go:234-241 | a detection error is returned before any remote call; otherwise everything SandboxCreated states of CreateSandbox (calls, deadline, pod map, errors and verdict) with the detected language, and the same handle |
| Sdk.NewInstance | pkg/sdk/sdk.go:243-261 | always succeeds with the given id and an empty container, so it targets "sandboxed-" on Destroy and has no valid language |
| Mcp.SandboxManager.constructor | pkg/mcp/server.go:21-25 | the registry starts empty |
| Mcp.SandboxManager.GetSandbox | pkg/mcp/server.go:35-40 | reports a sandbox exactly for a registered name, with its handle |
| Mcp.SandboxManager.AddSandbox | pkg/mcp/server.go:28-32 | the name then maps to the handle, overwriting any earlier one; every other entry is unchanged |
| Mcp.SandboxManager.RemoveSandbox | pkg/mcp/server.go:43-47 | the name is then absent; every other entry is unchanged; an absent name is a no-op |
| Mcp.SandboxManager.ListSandboxes | pkg/mcp/server.go:50-58 | each registered name exactly once, so the length is the registry's size |
| Mcp.ToolOptions | pkg/mcp/server.go:106-112 | at most the two options (their meaning is in ToolOptionsReachSdk) |
| Mcp.ToolOptionsReachSdk | pkg/mcp/server.go:106-112 | the SDK sees the given namespace, or "default" when it is empty, and the given labels, or none when they are nil |
| Mcp.RunCodeReplyOf | pkg/mcp/server.go:171-185 | success exactly when the run succeeded, with its output and exit code; otherwise the run's error |
| Mcp.ToolServer.constructor | pkg/mcp/server.go:78-90 | a fresh, empty registry over the cluster |
| Mcp.ToolServer.CreateSandboxTool | pkg/mcp/server.go:95-141 | an existing name, an invalid language or a client that cannot be set up sends nothing and changes nothing; otherwise CreateSandbox's calls, two-minute deadline and pod map, with the SDK's error as the message; the name is registered, with the new handle, exactly when the sandbox became ready |
| Mcp.ToolServer.RunCodeTool | pkg/mcp/server.go:159-186 | an unknown name is "Sandbox not found" with nothing sent; otherwise exactly the handle's Run, shaped by RunCodeReplyOf |
| Mcp.ToolServer.DestroySandboxTool | pkg/mcp/server.go:201-229 | an unknown name is "Sandbox not found" with nothing sent; otherwise the handle's force delete of the pod its container names, in the namespace its options give: on success that pod was in the cluster and is the only one gone, on failure no pod changed; the entry is removed only when it succeeded |
| Mcp.ToolServer.ListSandboxesTool | pkg/mcp/server.go:242-263 | every registered name exactly once, with the count equal to the list's length and the registry's size |
| ApiServer.ImageForLanguage | cmd/server.go:375-390 | non-empty exactly for the eleven aliases |
| ApiServer.ImageTable | cmd/server.go:376-386 | the image of each alias group, so aliases of one language share an image |
| ApiServer.SameImageSameCommand | cmd/server.go:375-424 | two aliases with the same image get the same command |
| ApiServer.GoRunScriptRoundTrip | cmd/server.go:398-399 | the go script starts with the echo prefix, ends with the go run suffix, and gives back the code between them |
| ApiServer.CommandForLanguage | cmd/server.go:409-424 | non-empty exactly for the aliases |
| ApiServer.CommandsForLanguage | cmd/server.go:392-407 | non-empty exactly for the aliases |
| ApiServer.CommandTables | cmd/server.go:392-424 | the command list is exactly [the command] on the aliases and empty elsewhere; the code is the verbatim last element after -c or -e, except for go, where it is embedded in the script |
| ApiServer.StatusCode | cmd/server.go:426-431 | 200 exactly on success, otherwise 500 |
| ApiServer.ApiPodSpec | cmd/server.go:337-354 | pod "api-exec-" + the time, in the requested namespace, with the alias's image, no command and the API labels |
| ApiServer.ApiPodLabels | cmd/server.go:338-342 | the pod gets `app` = its name, `language` and `created-by` = sandboxed-cli, so never `app=api-execution` |
| ApiServer.ExecuteCode | cmd/server.go:323-373 | (Executed) an unsupported language sends nothing and reports the unsupported message; otherwise one create, a readiness wait of at most the five-minute budget that ends NotReady only once it is spent, at most one command, run only after a Ready answer, and a cleanup delete; success exactly when that command ran and succeeded, with its stdout as the output; the pod is gone afterwards exactly when the cleanup delete went through, and no other pod changed |
| ApiServer.ExecuteCodeHandler | cmd/server.go:183-206 | no client is 503; otherwise it is one ExecuteCode, with everything Executed states of its calls, pods and response, and the status follows the result's success |
| ApiServer.NamespaceOnlyMap | cmd/server.go:222-225 | the single option is exactly the namespace, and the SDK uses it as given |
| ApiServer.SandboxIdIsNotPodName | cmd/server.go:220-241 | the reported sandbox id is not the name of the pod the SDK creates |
| ApiServer.CreateSandboxHandler | cmd/server.go:208-242 | always creates a python sandbox for id name + "-" + the time, on a configured cluster, waiting up to the two-minute deadline; 200 with that id exactly when the SDK succeeded, otherwise 500 with the wrapped error; a submitted pod "sandboxed-" + id stays in the cluster, and no other pod changed |
| ApiServer.ExecuteInSandboxHandler | cmd/server.go:244-284 | one exec of ["sh","-c",code] on the pod named by the id; 200 with its stdout exactly when it succeeded, otherwise 500 |
| ApiServer.DestroySandboxHandler | cmd/server.go:286-321 | one delete, forced exactly when Force is set; 200 with the message when it succeeded, otherwise 500 with the wrapped error |
| ExecCli.FileCommands | cmd/exec.go:59-66 | the scan keeps exactly the trimmed command lines, in file order |
| ExecCli.KeptLinesAppend | cmd/exec.go:60-66 | the commands of two files in a row are the commands of each, in order |
| ExecCli.KeptLine | cmd/exec.go:61-65 | one line yields its trimmed text exactly when that is neither empty nor a comment |
| ExecCli.KeptLinesSound | cmd/exec.go:61-65 | every kept command is trimmed, non-empty and not a comment |
| ExecCli.KeptLineAt | cmd/exec.go:60-66 | every command line of the file is kept, in its place among the others |
| ExecCli.KeptLinesIdempotent | cmd/exec.go:59-66 | the kept commands, read again as a file, are kept unchanged |
| ExecCli.KeptCommandsStay | cmd/exec.go:61-65 | commands that are trimmed command lines are all kept, unchanged |
| ExecCli.Commands | cmd/exec.go:59-84 | a file gives its command lines, and none of them is an error; without a file the arguments joined by spaces are one command, and no argument is an error |
| ExecCli.JoinArguments | cmd/exec.go:83 | one argument is the command itself; each further one adds a space and itself |
| ExecCli.ShellArgv | cmd/exec.go:93-99 | [shell, "-c", command], with "sh" when no shell is given |
| ExecCli.ComposeEnv | cmd/exec.go:107-110 | the inherited environment, then the `--env` entries in order |
| ExecCli.RunsAt | cmd/exec.go:87-127 | the record holds, in order, each command's start and its outcome |
| ExecCli.RunCommands | cmd/exec.go:87-127 | the commands start in order, each with the shell, the directory and the composed environment; the first failure stops the run with "Error executing command: " and its error; it passes exactly when every command ran and succeeded |
| CodeCli.OpenPath | cmd/code.go:31-34 | the argument, or "." without one |
| CodeCli.CodeArgsOrder | cmd/code.go:52-60 | `--wait`, then `--new-window`, each when asked for, then the path |
| CodeCli.OpenCommand | cmd/code.go:84-89 | the terminal is passed through exactly for vim, nano and emacs |
| CodeCli.OtherEditorsGetOnlyThePath | cmd/code.go:61-68 | vim, nano and emacs run under their own name with only the path; subl and sublime run `subl` with only the path |
| CodeCli.UnknownEditorIsCode | cmd/code.go:69-78 | an unknown editor opens exactly as `code` does |

## Left out

- I/O, the HTTP and MCP transports, JSON binding and its 400 responses, the CORS
  middleware, the SSE server and the HTML page are not modelled. They are façades
  over the modelled handlers.
- The route table, which registers handlers only when a client exists, is not
  modelled. `ApiServer.ExecuteCodeHandler` models the 503 for a missing client.
- Timestamps in responses and the MCP text content are not modelled. Only the
  structured results are.
- `sync.RWMutex` in the registry and concurrent tool calls are not modelled. The
  registry is sequential.
- Mcp.ToolServer.Valid: the SDK's own cluster connection is taken to be the server's
  cluster, and every handle in the registry to use the Kubernetes driver.
- The ApiServer sandbox handlers take the cluster the SDK connects to as a parameter.
- The OpenAI chat call inside `DetectLanguage` is represented by its reply, a
  `Completion` parameter. Its request and transport are foreign calls.
- Kubeconfig and in-cluster config loading and building the clientset are represented
  by `Cluster.loadsConfig` and `Cluster.buildsClient`; their error reasons are left open.
- The Kubernetes API calls and the SPDY exec stream are oracles on `Remote.Cluster`.
  They are library calls over the network.
- Text.ToLower: only `A`-`Z`, U+0130 and U+212A are lowered; Go also lowers every
  other cased letter (`É` to `é`). Its only caller compares the result, trimmed, with
  seven ASCII names, and a letter outside those three never lowers to ASCII in Go, so
  no outcome depends on the rest.
- K8sClient.Client.ExecInPod: the executor-construction failure is not modelled
  separately. It reaches the caller as a stream error.
- K8sClient.Client.ExecInPod: with a tty the stream merges stderr into stdout. The
  model keeps both as the environment's reply.
- K8sClient.Client.GetPodLogs: the 2048-byte read buffer is not modelled. A read is
  one chunk of any size.
- K8sClient.Client.WaitForPodReady: wall-clock time is a poll budget of one poll
  every 2 s, with zero-latency polls, so a slow GET does not shorten the budget.
- `ListPods` is not modelled. It has no caller in the core.
- `NewSandboxed` and `NewSandboxForDocker` are not modelled. Their handles have no
  language container, so every method on them dereferences nil.
- `pkg/sdk/container.go` is not part of this model. Its methods call `Run` with four
  arguments, which `sdk.go` does not define. Only its `Output` record is used.
- Sdk.SandboxPodLabels: the caller's label map being shared with, and changed by,
  `CreatePod` is not modelled. Labels are values.
- Sdk.SandboxPodLabels: the nil-map panic for a `labels` option holding a nil map is
  not modelled.
- Sdk.Sandbox.Run, Sdk.Sandbox.Exec and Sdk.Sandbox.Destroy: the "unsupported driver"
  branch is modelled, but every constructor in the core sets "kubernetes".
- `filepath.Abs`, `os.Stat` and the process start in `code` are left to the caller.
  `CodeCli.OpenCommand` takes the absolute path.
- `os.Exit`, the progress printing and scanner read errors in `exec` are not
  modelled. The outcome of each process is an oracle on `ExecCli.Host`.
- The file contents `exec` reads are the `lines` parameter of `ExecCli.Commands`.
- cmd/mcp.go, cmd/version.go and example/main.go are not part of this model. They
  only wire and print.
- pkg/sdk/sdk_test.go is not part of this model. It needs a live cluster.
