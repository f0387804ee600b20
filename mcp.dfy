/**
 * The MCP server's sandbox registry and the decisions of its four tools
 * (pkg/mcp/server.go): create_sandbox, run_code, destroy_sandbox and
 * list_sandboxes, each over the one registry the server keeps.
 */
module Mcp {
  import opened Wrappers
  import opened Text
  import opened Remote
  import opened K8sClient
  import opened Templates
  import opened Sdk

  /** The registry of live sandboxes, by the name the tool caller gave them. */
  class SandboxManager {
    var sandboxes: map<string, Sandbox>

    constructor ()
      ensures sandboxes == map[]
    {
      sandboxes := map[];
    }

    /** The handle registered under `name`, and whether there is one. */
    function GetSandbox(name: string): (r: Option<Sandbox>)
      reads this
      ensures r.Some? <==> name in sandboxes
      ensures r.Some? ==> r.value == sandboxes[name]
    {
      if name in sandboxes then Some(sandboxes[name]) else None
    }

    /** Register `sandbox` under `name`, replacing whatever was registered there. */
    method AddSandbox(name: string, sandbox: Sandbox)
      modifies this
      ensures sandboxes == old(sandboxes)[name := sandbox]
      ensures GetSandbox(name) == Some(sandbox)
      ensures forall other :: other != name ==> GetSandbox(other) == old(GetSandbox(other))
    {
      sandboxes := sandboxes[name := sandbox];
    }

    /** Forget `name`; every other entry stays, and an absent name changes nothing. */
    method RemoveSandbox(name: string)
      modifies this
      ensures sandboxes == old(sandboxes) - {name}
      ensures GetSandbox(name) == None
      ensures forall other :: other != name ==> GetSandbox(other) == old(GetSandbox(other))
      ensures name !in old(sandboxes) ==> sandboxes == old(sandboxes)
    {
      sandboxes := sandboxes - {name};
    }

    /** Every registered name once, in no particular order (Go's map iteration order is unspecified). */
    method ListSandboxes() returns (names: seq<string>)
      ensures forall n :: n in names <==> n in sandboxes
      ensures forall i, j :: 0 <= i < j < |names| ==> names[i] != names[j]
      ensures |names| == |sandboxes.Keys|
    {
      names := [];
      var remaining := sandboxes.Keys;
      while remaining != {}
        invariant remaining <= sandboxes.Keys
        invariant forall n :: n in names <==> n in sandboxes && n !in remaining
        invariant forall i, j :: 0 <= i < j < |names| ==> names[i] != names[j]
        invariant |names| + |remaining| == |sandboxes.Keys|
        decreases |remaining|
      {
        var n :| n in remaining;
        names := names + [n];
        remaining := remaining - {n};
      }
    }
  }

  // ---------------------------------------------------------------------------
  // The tools

  /** The arguments of create_sandbox; `labels` is None when the caller sent none. */
  datatype CreateSandboxArgs = CreateSandboxArgs(name: string, language: string, namespace: string, labels: Option<map<string, string>>)

  /** The structured result of create_sandbox and destroy_sandbox. */
  datatype ToolReply = ToolReply(success: bool, message: string)

  /** The structured result of run_code. */
  datatype RunCodeReply = RunCodeReply(success: bool, output: string, exitCode: int, error: string)

  /** The structured result of list_sandboxes. */
  datatype ListReply = ListReply(sandboxes: seq<string>, count: int)

  const AlreadyExists := "Sandbox already exists"
  const NotFoundMessage := "Sandbox not found"
  const CreatedMessage := "Sandbox created successfully"
  const DestroyedMessage := "Sandbox destroyed successfully"

  /** The options create_sandbox passes on: a namespace only when one was given, labels only when sent. */
  function ToolOptions(namespace: string, labels: Option<map<string, string>>): (opts: seq<SandboxOption>)
    ensures |opts| <= 2
  {
    (if namespace != "" then [SandboxOption("namespace", StringValue(namespace))] else [])
    + (if labels.Some? then [SandboxOption("labels", LabelMap(labels.value))] else [])
  }

  /**
   * What the SDK makes of those options: the pod goes to the namespace given, or
   * to "default" when none was; the caller's labels, when sent, reach the pod spec
   * with the SDK's own "created-by" mark.
   */
  lemma ToolOptionsReachSdk(namespace: string, labels: Option<map<string, string>>)
    ensures NamespaceOption(OptionsMap(ToolOptions(namespace, labels))) == if namespace != "" then namespace else DefaultNs
    ensures SandboxLabels(OptionsMap(ToolOptions(namespace, labels)))
            == if labels.Some? then labels.value["created-by" := "sandboxed-sdk"] else map[]
  {
    var opts := ToolOptions(namespace, labels);
    var ns := [SandboxOption("namespace", StringValue(namespace))];
    var ls := if labels.Some? then [SandboxOption("labels", LabelMap(labels.value))] else [];
    var base := OptionsMap(if namespace != "" then ns else []);
    assert OptionsMap(ns) == map["namespace" := StringValue(namespace)] by {
      assert ns[..0] == [];
    }
    assert OptionsMap(opts) == if labels.Some? then base["labels" := LabelMap(labels.value)] else base by {
      if labels.Some? {
        assert opts[..|opts| - 1] == if namespace != "" then ns else [];
      } else {
        assert opts == if namespace != "" then ns else [];
      }
    }
  }

  /** run_code's result for what Run returned. */
  function RunCodeReplyOf(o: Result<Output>): (r: RunCodeReply)
    ensures r.success <==> o.Ok?
    ensures o.Ok? ==> r.output == o.value.result && r.exitCode == o.value.exitCode && r.error == ""
    ensures o.Err? ==> r == RunCodeReply(false, "", 0, o.error)
  {
    match o
    case Ok(out) => RunCodeReply(true, out.result, out.exitCode, "")
    case Err(e) => RunCodeReply(false, "", 0, e)
  }

  /**
   * The tool handlers and the registry they share. Every registered handle is a
   * Kubernetes handle on the server's cluster: the SDK is configured from the same
   * environment the server runs in.
   */
  class ToolServer {
    const manager: SandboxManager
    const cluster: Cluster

    ghost predicate Valid()
      reads manager
    {
      forall n :: n in manager.sandboxes ==>
        manager.sandboxes[n].cluster == cluster && manager.sandboxes[n].driver == "kubernetes"
    }

    /** A server with an empty registry. */
    constructor (cluster: Cluster)
      ensures this.cluster == cluster && fresh(manager) && manager.sandboxes == map[]
      ensures Valid()
    {
      this.cluster := cluster;
      manager := new SandboxManager();
    }

    /**
     * create_sandbox: a taken name is refused before anything else; then the
     * language is checked, and only a sandbox the SDK created and saw become ready
     * is registered. Any failure leaves the registry as it was, and the message is
     * the SDK's error; a pod that was submitted stays in the cluster either way.
     */
    method CreateSandboxTool(args: CreateSandboxArgs) returns (r: ToolReply, ghost submitted: bool, ghost answers: seq<Status>)
      requires Valid()
      modifies manager, cluster
      ensures Valid()
      ensures args.name in old(manager.sandboxes) ==>
                r == ToolReply(false, AlreadyExists) && !submitted
                && cluster.trace == old(cluster.trace) && cluster.pods == old(cluster.pods)
      ensures args.name !in old(manager.sandboxes) && !IsValid(args.language) ==>
                r == ToolReply(false, "unsupported language: " + args.language) && !submitted
                && cluster.trace == old(cluster.trace) && cluster.pods == old(cluster.pods)
      ensures args.name !in old(manager.sandboxes) && IsValid(args.language) && !cluster.Configured() ==>
                !r.success && HasPrefix(r.message, SetupFailed(cluster)) && !submitted
                && cluster.trace == old(cluster.trace) && cluster.pods == old(cluster.pods)
      ensures args.name !in old(manager.sandboxes) && IsValid(args.language) && cluster.Configured() ==>
                var pod := SandboxPod(args.name, Images[args.language], ToolOptions(args.namespace, args.labels));
                cluster.trace == old(cluster.trace) + [CreateCall(pod, submitted)] + GetCalls(RefOf(pod), answers)
      ensures !submitted ==> cluster.pods == old(cluster.pods)
      ensures args.name !in old(manager.sandboxes) && IsValid(args.language) && cluster.Configured() && !submitted ==>
                !r.success && HasPrefix(r.message, CreateFailed)
      ensures submitted ==> args.name !in old(manager.sandboxes) && IsValid(args.language) && cluster.Configured()
      ensures submitted ==> PolledUntil(answers, SandboxReadyTimeout)
      ensures submitted ==>
                var pod := SandboxPod(args.name, Images[args.language], ToolOptions(args.namespace, args.labels));
                var ref := RefOf(pod);
                && ref !in old(cluster.pods) && ref in cluster.pods && cluster.pods[ref].pod == pod
                && OnlyAt(old(cluster.pods), cluster.pods, ref)
                && (!r.success ==> r.message == NotReadyReason(SandboxPodName(args.name), ref.namespace, answers[|answers| - 1]))
      ensures r.success <==> args.name !in old(manager.sandboxes) && submitted && answers[|answers| - 1] == Ready
      ensures !r.success ==> manager.sandboxes == old(manager.sandboxes)
      ensures r.success ==>
                && r.message == CreatedMessage
                && args.name in manager.sandboxes
                && manager.sandboxes == old(manager.sandboxes)[args.name := manager.sandboxes[args.name]]
                && fresh(manager.sandboxes[args.name])
                && manager.sandboxes[args.name].id == SandboxPodName(args.name)
                && manager.sandboxes[args.name].lc
                   == LanguageContainer(args.name, args.language, Images[args.language], ToolOptions(args.namespace, args.labels))
    {
      submitted, answers := false, [];
      if manager.GetSandbox(args.name).Some? {
        return ToolReply(false, AlreadyExists), submitted, answers;
      }
      var opts := ToolOptions(args.namespace, args.labels);
      var lang := ToLanguage(args.language);
      if lang.Err? {
        return ToolReply(false, lang.error), submitted, answers;
      }
      var s;
      s, submitted, answers := CreateSandbox(cluster, args.name, lang.value, opts);
      if s.Err? {
        return ToolReply(false, s.error), submitted, answers;
      }
      manager.AddSandbox(args.name, s.value);
      r := ToolReply(true, CreatedMessage);
    }

    /** run_code: an unknown name is refused without touching the cluster; otherwise Run's result is reported. */
    method RunCodeTool(sandboxName: string, code: string) returns (r: RunCodeReply, ghost reply: Option<ExecReply>)
      requires Valid()
      modifies cluster
      ensures cluster.pods == old(cluster.pods)
      ensures sandboxName !in manager.sandboxes ==>
                r == RunCodeReply(false, "", 0, NotFoundMessage) && cluster.trace == old(cluster.trace)
      ensures sandboxName in manager.sandboxes && !cluster.Configured() ==>
                !r.success && HasPrefix(r.error, SetupFailed(cluster)) && cluster.trace == old(cluster.trace)
      ensures sandboxName in manager.sandboxes && cluster.Configured() ==>
                var s := manager.sandboxes[sandboxName];
                && reply.Some?
                && cluster.trace == old(cluster.trace) + [ExecCall(PodRef(s.PodNamespace(), s.id), ["sh", "-c", code], true, reply.value)]
                && r == RunCodeReplyOf(AsOutput(ShapeExec(reply.value)))
    {
      reply := None;
      var s := manager.GetSandbox(sandboxName);
      if s.None? {
        return RunCodeReply(false, "", 0, NotFoundMessage), reply;
      }
      var sandbox := s.value;
      var out;
      out, reply := sandbox.Run(code);
      r := RunCodeReplyOf(out);
    }

    /**
     * destroy_sandbox: an unknown name is refused without touching the cluster;
     * otherwise the handle's pod is force-deleted, and the name is forgotten only
     * when the delete went through.
     */
    method DestroySandboxTool(sandboxName: string) returns (r: ToolReply)
      requires Valid()
      modifies manager, cluster
      ensures Valid()
      ensures sandboxName !in old(manager.sandboxes) ==>
                r == ToolReply(false, NotFoundMessage) && manager.sandboxes == old(manager.sandboxes)
                && cluster.trace == old(cluster.trace) && cluster.pods == old(cluster.pods)
      ensures sandboxName in old(manager.sandboxes) && !cluster.Configured() ==>
                !r.success && HasPrefix(r.message, SetupFailed(cluster)) && cluster.trace == old(cluster.trace)
                && cluster.pods == old(cluster.pods)
      ensures sandboxName in old(manager.sandboxes) && cluster.Configured() ==>
                var s := old(manager.sandboxes[sandboxName]);
                var ref := PodRef(s.PodNamespace(), DestroyTarget(s.lc));
                && cluster.trace == old(cluster.trace) + [DeleteCall(ref, DeleteOptionsFor(true), r.success)]
                && (r.success ==> ref in old(cluster.pods) && cluster.pods == old(cluster.pods) - {ref})
                && (!r.success ==> cluster.pods == old(cluster.pods))
      ensures r.success ==> r.message == DestroyedMessage && manager.sandboxes == old(manager.sandboxes) - {sandboxName}
      ensures !r.success ==> manager.sandboxes == old(manager.sandboxes)
    {
      var s := manager.GetSandbox(sandboxName);
      if s.None? {
        return ToolReply(false, NotFoundMessage);
      }
      var sandbox := s.value;
      var d := sandbox.Destroy();
      if d.Fail? {
        return ToolReply(false, d.error);
      }
      manager.RemoveSandbox(sandboxName);
      r := ToolReply(true, DestroyedMessage);
    }

    /** list_sandboxes: the registered names, each once, and how many there are. */
    method ListSandboxesTool() returns (r: ListReply)
      ensures r.count == |r.sandboxes| == |manager.sandboxes.Keys|
      ensures forall n :: n in r.sandboxes <==> n in manager.sandboxes
      ensures forall i, j :: 0 <= i < j < |r.sandboxes| ==> r.sandboxes[i] != r.sandboxes[j]
    {
      var names := manager.ListSandboxes();
      if |names| == 0 {
        return ListReply([], 0);
      }
      r := ListReply(names, |names|);
    }
  }
}
