/**
 * The HTTP API server's decisions (cmd/server.go): its own language alias
 * tables, the status code of a result, one-shot code execution in a throw-away
 * pod, and the sandbox create, execute and destroy handlers.
 */
module ApiServer {
  import opened Wrappers
  import opened Text
  import opened Templates
  import opened Remote
  import opened K8sClient
  import opened Sdk

  // ---------------------------------------------------------------------------
  // Alias tables

  /** The language names the server accepts: five languages, each under one or more names. */
  const ApiAliases: set<string> := {"python", "py", "node", "nodejs", "js", "go", "golang", "bash", "sh", "ruby", "rb"}

  /** The image each accepted name runs in, or "" for a name the server does not know. */
  function ImageForLanguage(language: string): (image: string)
    ensures image != "" <==> language in ApiAliases
  {
    if language == "python" || language == "py" then "python:3.9-slim"
    else if language == "node" || language == "nodejs" || language == "js" then "node:18-slim"
    else if language == "go" || language == "golang" then "golang:1.21-alpine"
    else if language == "bash" || language == "sh" then "alpine:latest"
    else if language == "ruby" || language == "rb" then "ruby:3.0-slim"
    else ""
  }

  /** The image table, alias group by alias group: the aliases of one language share its image. */
  lemma ImageTable(language: string)
    ensures language in {"python", "py"} ==> ImageForLanguage(language) == "python:3.9-slim"
    ensures language in {"node", "nodejs", "js"} ==> ImageForLanguage(language) == "node:18-slim"
    ensures language in {"go", "golang"} ==> ImageForLanguage(language) == "golang:1.21-alpine"
    ensures language in {"bash", "sh"} ==> ImageForLanguage(language) == "alpine:latest"
    ensures language in {"ruby", "rb"} ==> ImageForLanguage(language) == "ruby:3.0-slim"
  {
  }

  /** Names that share an image are aliases: they run every piece of code the same way. */
  lemma SameImageSameCommand(a: string, b: string, code: string)
    requires ImageForLanguage(a) != "" && ImageForLanguage(a) == ImageForLanguage(b)
    ensures CommandForLanguage(a, code) == CommandForLanguage(b, code)
  {
  }

  const GoRunPrefix := "echo '"
  const GoRunSuffix := "' > /tmp/main.go && cd /tmp && go run main.go"

  /** Go source is written to /tmp/main.go with echo and run there. */
  function GoRunScript(code: string): string {
    GoRunPrefix + code + GoRunSuffix
  }

  /** The code can be read back out of the Go run script: it sits between the fixed prefix and suffix. */
  lemma GoRunScriptRoundTrip(code: string)
    ensures HasPrefix(GoRunScript(code), GoRunPrefix) && HasSuffix(GoRunScript(code), GoRunSuffix)
    ensures GoRunScript(code)[|GoRunPrefix|..|GoRunScript(code)| - |GoRunSuffix|] == code
  {
    var s := GoRunScript(code);
    assert s[..|GoRunPrefix|] == GoRunPrefix;
    assert s[|s| - |GoRunSuffix|..] == GoRunSuffix;
    assert s[|GoRunPrefix|..|s| - |GoRunSuffix|] == code;
  }

  /** The command that runs `code` for an accepted name; the empty list (Go's nil) for any other. */
  function CommandForLanguage(language: string, code: string): (argv: seq<string>)
    ensures argv != [] <==> language in ApiAliases
  {
    if language == "python" || language == "py" then ["python", "-c", code]
    else if language == "node" || language == "nodejs" || language == "js" then ["node", "-e", code]
    else if language == "go" || language == "golang" then ["sh", "-c", GoRunScript(code)]
    else if language == "bash" || language == "sh" then ["sh", "-c", code]
    else if language == "ruby" || language == "rb" then ["ruby", "-e", code]
    else []
  }

  /** The command list for an accepted name (one command), or the empty list (Go's nil). */
  function CommandsForLanguage(language: string, code: string): (commands: seq<seq<string>>)
    ensures commands != [] <==> language in ApiAliases
    ensures |commands| <= 1
  {
    if language == "python" || language == "py" then [["python", "-c", code]]
    else if language == "node" || language == "nodejs" || language == "js" then [["node", "-e", code]]
    else if language == "go" || language == "golang" then [["sh", "-c", GoRunScript(code)]]
    else if language == "bash" || language == "sh" then [["sh", "-c", code]]
    else if language == "ruby" || language == "rb" then [["ruby", "-e", code]]
    else []
  }

  /**
   * The two tables agree. Every accepted name gets a three-word command: the
   * interpreter, its inline-code flag, and the code itself, verbatim, except for
   * Go, whose code is wrapped in the echo-and-run script.
   */
  lemma CommandTables(language: string, code: string)
    ensures CommandsForLanguage(language, code) == if language in ApiAliases then [CommandForLanguage(language, code)] else []
    ensures language in ApiAliases ==> |CommandForLanguage(language, code)| == 3
    ensures language in ApiAliases - {"go", "golang"} ==>
              CommandForLanguage(language, code)[1] in {"-c", "-e"} && CommandForLanguage(language, code)[2] == code
    ensures language in {"go", "golang"} ==> CommandForLanguage(language, code) == ["sh", "-c", GoRunScript(code)]
  {
  }

  /** 200 for a success, 500 otherwise. */
  function StatusCode(success: bool): (code: int)
    ensures code == 200 || code == 500
    ensures code == 200 <==> success
  {
    if success then 200 else 500
  }

  // ---------------------------------------------------------------------------
  // One-shot execution

  /** An execute request; `sandboxId` selects the sandbox for the execute-in-sandbox handler. */
  datatype ExecuteRequest = ExecuteRequest(language: string, code: string, namespace: string, sandboxId: string)

  /** What an execution reports (its timestamp is not modelled). */
  datatype ExecuteResponse = ExecuteResponse(success: bool, output: seq<string>, error: string, podName: string)

  function UnsupportedMessage(language: string): string {
    "Unsupported language: " + language + ". Supported: python, node, go, bash, ruby"
  }

  const ExecutionFailed := "Execution failed: "

  /** The throw-away pod is named after the Unix second it was created in. */
  function ExecPodName(now: int): string {
    "api-exec-" + IntToDecimal(now)
  }

  function ApiLabels(language: string): map<string, string> {
    map["app" := "api-execution", "language" := language, "created-by" := "sandboxed-api"]
  }

  /** The spec the server asks for: no command or arguments, the request's namespace and the server's labels. */
  function ApiPodSpec(req: ExecuteRequest, now: int): (spec: PodSpec)
    ensures spec.name == ExecPodName(now) && spec.namespace == req.namespace
    ensures spec.image == ImageForLanguage(req.language) && spec.command == [] && spec.args == []
    ensures spec.labels == Some(ApiLabels(req.language))
  {
    PodSpec(ExecPodName(now), req.namespace, ImageForLanguage(req.language), [], [], Some(ApiLabels(req.language)))
  }

  /**
   * The labels the pod really gets: the client overrides the server's "app" and
   * "created-by" labels with the pod name and "sandboxed-cli"; only "language"
   * survives as the server set it.
   */
  lemma ApiPodLabels(req: ExecuteRequest, now: int, clientNamespace: string)
    ensures var labels := BuildPod(ApiPodSpec(req, now), clientNamespace).labels;
      && labels == map["app" := ExecPodName(now), "language" := req.language, "created-by" := "sandboxed-cli"]
      && labels["app"] != "api-execution"
  {
    var n := ExecPodName(now);
    var l := req.language;
    assert BuildPod(ApiPodSpec(req, now), clientNamespace).labels == ApiLabels(l)["app" := n]["created-by" := "sandboxed-cli"];
    assert ApiLabels(l)["app" := n]["created-by" := "sandboxed-cli"] == map["app" := n, "language" := l, "created-by" := "sandboxed-cli"];
    assert n[8] == '-' && "api-execution"[8] == 'u';
  }

  /**
   * A run of a single command whose pod was created: it succeeded exactly when the
   * pod answered Ready and that command's one exec succeeded, and then its stdout
   * is the only result.
   */
  lemma OneCommandReport(commands: seq<seq<string>>, answers: seq<Status>, results: seq<string>,
                         err: Option<string>, replies: seq<ExecReply>)
    requires |commands| == 1
    requires RunReport(commands, answers, results, err, replies)
    ensures 0 < |answers| <= PollBudget(RunPodReadyTimeout)
    ensures forall i :: 0 <= i < |answers| - 1 ==> answers[i] == NotReady
    ensures answers[|answers| - 1] == NotReady ==> |answers| == PollBudget(RunPodReadyTimeout)
    ensures replies != [] ==> answers[|answers| - 1] == Ready
    ensures err.None? <==> answers[|answers| - 1] == Ready && |replies| == 1 && replies[0].failure.None?
    ensures err.None? ==> results == [replies[0].stdout]
  {
  }

  /**
   * What one execution of `req` on a client whose namespace is `namespace` did,
   * from the trace and pods `trace0`, `pods0` to `trace`, `pods`, given whether the
   * create went through, the readiness answers, the exec replies and whether the
   * cleanup delete went through:
   * - an unknown language is refused with no call and no change;
   * - otherwise the pod is created, and once it is, polled until Ready, the
   *   GET failure or the five-minute deadline, then its one command is run after a
   *   Ready answer, then it is deleted;
   * - the response succeeds exactly when that command ran and succeeded, and
   *   then carries its stdout; otherwise it carries the wrapped error;
   * - the pod is gone afterwards exactly when the delete went through, and no
   *   other pod changed.
   */
  ghost predicate Executed(namespace: string, req: ExecuteRequest, now: int,
                           trace0: seq<Call>, pods0: map<PodRef, PodRecord>, trace: seq<Call>, pods: map<PodRef, PodRecord>,
                           resp: ExecuteResponse, created: bool, answers: seq<Status>, replies: seq<ExecReply>, deleted: bool) {
    && (req.language !in ApiAliases ==>
          resp == ExecuteResponse(false, [], UnsupportedMessage(req.language), "")
          && trace == trace0 && pods == pods0 && !created)
    && (req.language in ApiAliases ==>
          var pod := BuildPod(ApiPodSpec(req, now), namespace);
          var commands := CommandsForLanguage(req.language, req.code);
          && |replies| <= 1
          && trace == trace0 + [CreateCall(pod, created)]
               + (if created then
                    GetCalls(RefOf(pod), answers) + ExecCalls(RefOf(pod), commands[..|replies|], replies)
                    + [DeleteCall(RefOf(pod), DeleteOptions(None, None), deleted)]
                  else [])
          && resp.podName == ExecPodName(now))
    && (created ==>
          && PolledUntil(answers, RunPodReadyTimeout)
          && (replies != [] ==> answers[|answers| - 1] == Ready))
    && (req.language in ApiAliases ==>
          (resp.success <==> created && answers[|answers| - 1] == Ready && |replies| == 1 && replies[0].failure.None?))
    && (resp.success ==>
          && created && 0 < |answers| && answers[|answers| - 1] == Ready
          && |replies| == 1 && replies[0].failure.None? && resp.output == [replies[0].stdout] && resp.error == "")
    && (!created ==> pods == pods0 && !deleted)
    && (created ==>
          var pod := BuildPod(ApiPodSpec(req, now), namespace); var ref := RefOf(pod);
          && req.language in ApiAliases
          && ref !in pods0
          && OnlyAt(pods0, pods, ref)
          && (ref in pods <==> !deleted)
          && (ref in pods ==> pods[ref].pod == pod))
    && (req.language in ApiAliases && !resp.success ==> resp.output == [] && HasPrefix(resp.error, ExecutionFailed))
  }

  /**
   * Run `req.code` in a fresh pod: an unknown language is refused before any
   * call; otherwise the pod is created, waited for, the one command run, and the
   * pod deleted on every exit after a successful create.
   */
  method ExecuteCode(client: Client, req: ExecuteRequest, now: int)
    returns (resp: ExecuteResponse, ghost created: bool, ghost answers: seq<Status>, ghost replies: seq<ExecReply>, ghost deleted: bool)
    modifies client.cluster
    ensures Executed(client.namespace, req, now, old(client.cluster.trace), old(client.cluster.pods),
                     client.cluster.trace, client.cluster.pods, resp, created, answers, replies, deleted)
  {
    created, answers, replies, deleted := false, [], [], false;
    var image := ImageForLanguage(req.language);
    var commands := CommandsForLanguage(req.language, req.code);
    if image == "" || |commands| == 0 {
      return ExecuteResponse(false, [], UnsupportedMessage(req.language), ""), created, answers, replies, deleted;
    }
    var spec := ApiPodSpec(req, now);
    var results, err;
    results, err, created, answers, replies, deleted := client.CreateAndRunPod(spec, commands, true);
    if created {
      OneCommandReport(commands, answers, results, err, replies);
    }
    if err.Some? {
      PrefixOfConcat(ExecutionFailed, err.value);
      return ExecuteResponse(false, [], ExecutionFailed + err.value, spec.name), created, answers, replies, deleted;
    }
    resp := ExecuteResponse(true, results, "", spec.name);
  }

  /**
   * The execute handler: without a cluster client it answers 503; otherwise it
   * is one ExecuteCode, and the status follows that execution's result.
   */
  method ExecuteCodeHandler(client: Option<Client>, req: ExecuteRequest, now: int)
    returns (status: int, resp: ExecuteResponse,
             ghost created: bool, ghost answers: seq<Status>, ghost replies: seq<ExecReply>, ghost deleted: bool)
    modifies if client.Some? then {client.value.cluster} else {}
    ensures client.None? ==> status == 503 && resp == ExecuteResponse(false, [], "Kubernetes client not available", "")
    ensures client.Some? ==> status == StatusCode(resp.success)
    ensures client.Some? ==>
              Executed(client.value.namespace, req, now, old(client.value.cluster.trace), old(client.value.cluster.pods),
                       client.value.cluster.trace, client.value.cluster.pods, resp, created, answers, replies, deleted)
    ensures client.Some? && req.language !in ApiAliases ==> status == 500 && resp.error == UnsupportedMessage(req.language)
  {
    created, answers, replies, deleted := false, [], [], false;
    if client.None? {
      return 503, ExecuteResponse(false, [], "Kubernetes client not available", ""), created, answers, replies, deleted;
    }
    var c := client.value;
    resp, created, answers, replies, deleted := ExecuteCode(c, req, now);
    status := StatusCode(resp.success);
  }

  // ---------------------------------------------------------------------------
  // Sandbox handlers

  datatype SandboxRequest = SandboxRequest(language: string, namespace: string, name: string)

  /** What the sandbox create handler reports (its timestamp is not modelled). */
  datatype SandboxResponse = SandboxResponse(success: bool, sandboxId: string, error: string)

  /** A created sandbox's id: the requested name, a dash and the Unix second. */
  function SandboxId(name: string, now: int): string {
    name + "-" + IntToDecimal(now)
  }

  /** The one option the create handler passes: the request's namespace, even an empty one. */
  function NamespaceOnly(namespace: string): seq<SandboxOption> {
    [SandboxOption("namespace", StringValue(namespace))]
  }

  lemma NamespaceOnlyMap(namespace: string)
    ensures OptionsMap(NamespaceOnly(namespace)) == map["namespace" := StringValue(namespace)]
    ensures NamespaceOption(OptionsMap(NamespaceOnly(namespace))) == namespace
  {
    assert NamespaceOnly(namespace)[..0] == [];
  }

  /**
   * The id the create handler returns is not the name of the pod it created:
   * the SDK puts "sandboxed-" in front of it.
   */
  lemma SandboxIdIsNotPodName(name: string, now: int)
    ensures SandboxPodName(SandboxId(name, now)) != SandboxId(name, now)
  {
    assert |SandboxPodName(SandboxId(name, now))| == 10 + |SandboxId(name, now)|;
  }

  /**
   * Create a sandbox named `<name>-<now>`. Whatever language the request names,
   * the sandbox is a Python one; the request's namespace is passed on as it is.
   */
  method CreateSandboxHandler(cluster: Cluster, req: SandboxRequest, now: int)
    returns (status: int, resp: SandboxResponse, ghost submitted: bool, ghost answers: seq<Status>)
    modifies cluster
    ensures cluster.Configured() ==>
              var pod := BuildPod(SandboxPodSpec(SandboxId(req.name, now), "python:3.9", map["namespace" := StringValue(req.namespace)]),
                                  DefaultNamespace(req.namespace, DefaultNs));
              cluster.trace == old(cluster.trace) + [CreateCall(pod, submitted)] + GetCalls(RefOf(pod), answers)
    ensures !cluster.Configured() ==> cluster.trace == old(cluster.trace) && !resp.success
    ensures submitted ==> cluster.Configured()
                          && PolledUntil(answers, SandboxReadyTimeout)
    ensures !submitted ==> cluster.pods == old(cluster.pods)
    ensures submitted ==>
              var pod := SandboxPod(SandboxId(req.name, now), "python:3.9", NamespaceOnly(req.namespace)); var ref := RefOf(pod);
              && ref == PodRef(DefaultNamespace(req.namespace, DefaultNs), SandboxPodName(SandboxId(req.name, now)))
              && ref !in old(cluster.pods) && ref in cluster.pods && cluster.pods[ref].pod == pod
              && OnlyAt(old(cluster.pods), cluster.pods, ref)
    ensures resp.success <==> submitted && answers[|answers| - 1] == Ready
    ensures resp.success ==> status == 200 && resp == SandboxResponse(true, SandboxId(req.name, now), "")
    ensures !resp.success ==> status == 500 && resp.sandboxId == "" && HasPrefix(resp.error, "Failed to create sandbox: ")
  {
    var id := SandboxId(req.name, now);
    var opts := NamespaceOnly(req.namespace);
    NamespaceOnlyMap(req.namespace);
    assert IsValid(Python) && Images[Python] == "python:3.9";
    var s;
    s, submitted, answers := CreateSandbox(cluster, id, Python, opts);
    if s.Err? {
      PrefixOfConcat("Failed to create sandbox: ", s.error);
      return 500, SandboxResponse(false, "", "Failed to create sandbox: " + s.error), submitted, answers;
    }
    status, resp := 200, SandboxResponse(true, id, "");
  }

  /**
   * Run `req.code` in the sandbox pod `req.sandboxId` through a handle made on
   * the spot: the pod operations go to the request's namespace, or "default".
   */
  method ExecuteInSandboxHandler(cluster: Cluster, req: ExecuteRequest)
    returns (status: int, resp: ExecuteResponse, ghost reply: Option<ExecReply>)
    modifies cluster
    ensures cluster.pods == old(cluster.pods)
    ensures cluster.Configured() ==>
              && reply.Some?
              && cluster.trace == old(cluster.trace)
                   + [ExecCall(PodRef(DefaultNamespace(req.namespace, DefaultNs), req.sandboxId), ["sh", "-c", req.code], true, reply.value)]
              && (resp.success <==> reply.value.failure.None?)
    ensures !cluster.Configured() ==> cluster.trace == old(cluster.trace) && !resp.success
    ensures resp.success ==> status == 200 && resp.output == [reply.value.stdout] && resp.error == ""
    ensures !resp.success ==> status == 500 && resp.output == [] && HasPrefix(resp.error, "Code execution failed: ")
  {
    var opts := NamespaceOnly(req.namespace);
    NamespaceOnlyMap(req.namespace);
    var h := NewInstance(cluster, req.sandboxId, opts);
    var sandbox := h.value;
    assert sandbox.Namespace() == req.namespace;
    var out;
    out, reply := sandbox.Run(req.code);
    if out.Err? {
      PrefixOfConcat("Code execution failed: ", out.error);
      return 500, ExecuteResponse(false, [], "Code execution failed: " + out.error, ""), reply;
    }
    status, resp := 200, ExecuteResponse(true, [out.value.result], "", "");
  }

  datatype DestroyRequest = DestroyRequest(sandboxId: string, namespace: string, force: bool)

  /** What the destroy handler reports: a message on success, an error otherwise. */
  datatype DestroyResponse = DestroyResponse(success: bool, message: string, error: string)

  /** Delete the pod `req.sandboxId`, forcibly exactly when the request says so. */
  method DestroySandboxHandler(client: Client, req: DestroyRequest) returns (status: int, resp: DestroyResponse)
    modifies client.cluster
    ensures var ref := PodRef(DefaultNamespace(req.namespace, client.namespace), req.sandboxId);
      && client.cluster.trace == old(client.cluster.trace) + [DeleteCall(ref, DeleteOptionsFor(req.force), resp.success)]
      && (resp.success ==> ref in old(client.cluster.pods) && client.cluster.pods == old(client.cluster.pods) - {ref})
      && (!resp.success ==> client.cluster.pods == old(client.cluster.pods))
    ensures resp.success ==> status == 200 && resp == DestroyResponse(true, "Sandbox " + req.sandboxId + " destroyed successfully", "")
    ensures !resp.success ==> status == 500 && resp.message == "" && HasPrefix(resp.error, "Failed to destroy sandbox: ")
  {
    var r;
    if req.force {
      r := client.ForceDeletePod(req.sandboxId, req.namespace);
    } else {
      r := client.DeletePod(req.sandboxId, req.namespace);
    }
    if r.Fail? {
      PrefixOfConcat("Failed to destroy sandbox: ", r.error);
      return 500, DestroyResponse(false, "", "Failed to destroy sandbox: " + r.error);
    }
    status, resp := 200, DestroyResponse(true, "Sandbox " + req.sandboxId + " destroyed successfully", "");
  }
}
