/**
 * The sandbox SDK (pkg/sdk/sdk.go): languages and their run commands, language
 * detection from a chat reply, option folding, and the sandbox handle whose
 * methods create a pod, run code or a script in it, and delete it.
 */
module Sdk {
  import opened Wrappers
  import opened Text
  import opened Templates
  import opened Remote
  import opened K8sClient

  /** A language name; the seven below are the ones the SDK knows. */
  type Language = string

  const Python: Language := "python"
  const Go: Language := "go"
  const Node: Language := "node"
  const Java: Language := "java"
  const Ruby: Language := "ruby"
  const PHP: Language := "php"
  const Rust: Language := "rust"

  /** The shell command that runs the script file of a language, or "" for an unknown language. */
  function GetExecScript(l: Language): (script: string)
    ensures script != "" <==> l in SupportedLanguages
  {
    if l == Python then "python3 /tmp/exec_script.sh"
    else if l == Go then "go run /tmp/exec_script.go"
    else if l == Node then "node /tmp/exec_script.js"
    else if l == Java then "javac /tmp/ExecScript.java && java -cp /tmp ExecScript"
    else if l == Ruby then "ruby /tmp/exec_script.rb"
    else if l == PHP then "php /tmp/exec_script.php"
    else if l == Rust then "rustc /tmp/exec_script.rs -o /tmp/exec_script && /tmp/exec_script"
    else ""
  }

  /** Whether the image table knows the language. */
  function IsValid(l: Language): (b: bool)
    ensures b <==> l in SupportedLanguages
  {
    LanguageLookup(l).Ok?
  }

  /** The image a language runs in: the image table's answer. */
  function DockerImage(l: Language): (r: Result<string>)
    ensures r.Ok? <==> IsValid(l)
    ensures r.Ok? ==> r.value in Images.Values
  {
    LanguageLookup(l)
  }

  /** A string as a language: accepted unchanged when the image table knows it, else the table's error. */
  function ToLanguage(lang: string): (r: Result<Language>)
    ensures r.Ok? <==> IsValid(lang)
    ensures r.Ok? ==> r.value == lang
    ensures r.Err? ==> r.error == "unsupported language: " + lang
  {
    match LanguageLookup(lang)
    case Ok(_) => Ok(lang)
    case Err(e) => Err(e)
  }

  /** The languages with a run command are exactly the ones ToLanguage accepts. */
  lemma ExecScriptIffValid(l: Language)
    ensures GetExecScript(l) != "" <==> ToLanguage(l).Ok?
    ensures DockerImage(l).Ok? <==> ToLanguage(l).Ok?
  {
  }

  // ---------------------------------------------------------------------------
  // Language detection

  const KeyRequired := "OPENAI_API_KEY environment variable is required for automatic language detection"
  const NoResponse := "no response from GPT API"
  const Undetected := "unable to detect supported programming language from code"

  /** The reply as it is compared: lower-cased, then trimmed of white space. */
  function Normalize(reply: string): string {
    TrimSpace(ToLower(reply))
  }

  /** The names a reply may give: the seven languages, and two more names for Node. */
  const DetectableNames: set<string> := SupportedLanguages + {"javascript", "js"}

  /** The language a normalised reply names: the seven languages as themselves, "javascript" and "js" as Node. */
  function LanguageOfName(d: string): (r: Result<Language>)
    ensures r.Ok? <==> d in DetectableNames
    ensures r.Ok? ==> r.value in SupportedLanguages
    ensures d in SupportedLanguages ==> r == Ok(d)
    ensures d in {"javascript", "js"} ==> r == Ok(Node)
    ensures r.Err? ==> r.error == Undetected
  {
    if d == "python" then Ok(Python)
    else if d == "go" then Ok(Go)
    else if d == "node" || d == "javascript" || d == "js" then Ok(Node)
    else if d == "java" then Ok(Java)
    else if d == "ruby" then Ok(Ruby)
    else if d == "php" then Ok(PHP)
    else if d == "rust" then Ok(Rust)
    else Err(Undetected)
  }

  /** The language a chat reply names, once lower-cased and trimmed. */
  function LanguageFromReply(reply: string): Result<Language> {
    LanguageOfName(Normalize(reply))
  }

  /** Lower-casing and trimming once is enough: a normalised reply normalises to itself. */
  lemma NormalizeIdempotent(reply: string)
    ensures Normalize(Normalize(reply)) == Normalize(reply)
  {
    var l := ToLower(reply);
    var t := TrimSpace(l);
    var i := LeadingSpace(l);
    forall k | 0 <= k < |t|
      ensures ToLower(t)[k] == t[k]
    {
      assert t[k] == l[i + k];
      LowerCharIdempotent(reply[i + k]);
    }
    assert ToLower(t) == t;
    TrimSpaceIdempotent(l);
  }

  /** Read the reply once or normalise it first: the same language comes out. */
  lemma ReplyDependsOnNormalForm(reply: string)
    ensures LanguageFromReply(Normalize(reply)) == LanguageFromReply(reply)
  {
    NormalizeIdempotent(reply);
  }

  /** What the chat API answered: an error, or the contents of its choices. */
  datatype Completion = ChatError(error: string) | Choices(contents: seq<string>)

  /**
   * Detect the language of some code. Without an API key this fails before the
   * chat API is asked; `completion` is what the API answers when it is asked.
   */
  function DetectLanguage(apiKey: string, completion: Completion): (r: Result<Language>)
    ensures apiKey == "" ==> r == Err(KeyRequired)
    ensures apiKey != "" && completion.ChatError? ==> r == Err(completion.error)
    ensures apiKey != "" && completion.Choices? && completion.contents == [] ==> r == Err(NoResponse)
    ensures apiKey != "" && completion.Choices? && completion.contents != [] ==> r == LanguageFromReply(completion.contents[0])
    ensures r.Ok? ==> r.value in SupportedLanguages
    ensures r.Ok? ==> completion.Choices? && completion.contents != []
                      && r == LanguageFromReply(completion.contents[0])
  {
    if apiKey == "" then Err(KeyRequired)
    else match completion
      case ChatError(e) => Err(e)
      case Choices(contents) =>
        if contents == [] then Err(NoResponse) else LanguageFromReply(contents[0])
  }

  /** Without a key the answer the API would have given plays no part. */
  lemma DetectWithoutKeyAsksNothing(a: Completion, b: Completion)
    ensures DetectLanguage("", a) == DetectLanguage("", b)
  {
  }

  // ---------------------------------------------------------------------------
  // Options

  /** The value of an option, by the dynamic type the code tests for. */
  datatype OptionValue = StringValue(s: string) | LabelMap(labels: map<string, string>) | OtherValue

  datatype SandboxOption = SandboxOption(name: string, value: OptionValue)

  /** The options as a map: a later option with the same name replaces an earlier one. */
  function OptionsMap(opts: seq<SandboxOption>): map<string, OptionValue> {
    if opts == [] then map[]
    else OptionsMap(opts[..|opts| - 1])[opts[|opts| - 1].name := opts[|opts| - 1].value]
  }

  /** The map holds exactly the names that occur among the options. */
  lemma {:induction false} OptionsMapKeys(opts: seq<SandboxOption>, k: string)
    ensures k in OptionsMap(opts) <==> exists i :: 0 <= i < |opts| && opts[i].name == k
  {
    if opts != [] {
      var init := opts[..|opts| - 1];
      OptionsMapKeys(init, k);
      if k in OptionsMap(init) {
        var i :| 0 <= i < |init| && init[i].name == k;
        assert opts[i].name == k;
      }
      if exists i :: 0 <= i < |opts| && opts[i].name == k {
        var i :| 0 <= i < |opts| && opts[i].name == k;
        if i < |init| {
          assert init[i].name == k;
        }
      }
    }
  }

  /** The last option with a name gives that name's value. */
  lemma {:induction false} OptionsMapLastWins(opts: seq<SandboxOption>, i: nat)
    requires i < |opts|
    requires forall j :: i < j < |opts| ==> opts[j].name != opts[i].name
    ensures opts[i].name in OptionsMap(opts) && OptionsMap(opts)[opts[i].name] == opts[i].value
  {
    if i < |opts| - 1 {
      var init := opts[..|opts| - 1];
      forall j | i < j < |init|
        ensures init[j].name != init[i].name
      {
        assert init[j] == opts[j];
      }
      OptionsMapLastWins(init, i);
    }
  }

  /** Go's loop over the options into `mapOptions`. */
  method FoldOptions(opts: seq<SandboxOption>) returns (m: map<string, OptionValue>)
    ensures m == OptionsMap(opts)
  {
    m := map[];
    var i := 0;
    while i < |opts|
      invariant 0 <= i <= |opts|
      invariant m == OptionsMap(opts[..i])
    {
      assert opts[..i + 1][..i] == opts[..i];
      m := m[opts[i].name := opts[i].value];
      i := i + 1;
    }
    assert opts[..i] == opts;
  }

  /** The namespace the options ask for: the "namespace" option when it holds a string, else "default". */
  function NamespaceOption(m: map<string, OptionValue>): (ns: string)
    ensures "namespace" in m && m["namespace"].StringValue? ==> ns == m["namespace"].s
    ensures !("namespace" in m && m["namespace"].StringValue?) ==> ns == DefaultNs
  {
    if "namespace" in m && m["namespace"].StringValue? then m["namespace"].s else DefaultNs
  }

  /** With no "namespace" option, or one whose last value is not a string, the namespace is "default". */
  lemma NamespaceOfOptions(opts: seq<SandboxOption>)
    ensures (forall i :: 0 <= i < |opts| ==> opts[i].name != "namespace") ==> NamespaceOption(OptionsMap(opts)) == DefaultNs
    ensures forall i :: 0 <= i < |opts| && opts[i].name == "namespace"
                        && (forall j :: i < j < |opts| ==> opts[j].name != "namespace") ==>
               NamespaceOption(OptionsMap(opts)) == (if opts[i].value.StringValue? then opts[i].value.s else DefaultNs)
  {
    OptionsMapKeys(opts, "namespace");
    forall i | 0 <= i < |opts| && opts[i].name == "namespace" && (forall j :: i < j < |opts| ==> opts[j].name != "namespace")
      ensures NamespaceOption(OptionsMap(opts)) == (if opts[i].value.StringValue? then opts[i].value.s else DefaultNs)
    {
      OptionsMapLastWins(opts, i);
    }
  }

  /** The labels CreateSandbox passes on: the caller's, if given, marked as created by the SDK. */
  function SandboxLabels(m: map<string, OptionValue>): map<string, string> {
    if "labels" in m && m["labels"].LabelMap? then m["labels"].labels["created-by" := "sandboxed-sdk"] else map[]
  }

  /** The command that keeps a sandbox pod alive. */
  const KeepAlive: seq<string> := ["sh", "-c", "tail -f /dev/null"]

  /** A sandbox's pod is named after it. */
  function SandboxPodName(name: string): string {
    "sandboxed-" + name
  }

  /** The pod CreateSandbox asks for. */
  function SandboxPodSpec(name: string, image: string, m: map<string, OptionValue>): (spec: PodSpec)
    ensures spec.name == SandboxPodName(name) && spec.command == KeepAlive && spec.args == []
    ensures spec.image == image && spec.namespace == NamespaceOption(m) && spec.labels.Some?
  {
    PodSpec(SandboxPodName(name), NamespaceOption(m), image, KeepAlive, [], Some(SandboxLabels(m)))
  }

  /** The pod object a sandbox `name` in `image` reaches the cluster as, for options `opts`. */
  function SandboxPod(name: string, image: string, opts: seq<SandboxOption>): PodObject {
    BuildPod(SandboxPodSpec(name, image, OptionsMap(opts)), DefaultNamespace(NamespaceOption(OptionsMap(opts)), DefaultNs))
  }

  /**
   * The labels that reach the cluster: the SDK's "created-by" mark is overwritten
   * by the client's, "app" is the pod name, and every other label the caller gave
   * is kept; without a label map only those two are set.
   */
  lemma SandboxPodLabels(name: string, image: string, m: map<string, OptionValue>, clientNamespace: string)
    ensures var labels := BuildPod(SandboxPodSpec(name, image, m), clientNamespace).labels;
      && labels["created-by"] == "sandboxed-cli" && labels["app"] == SandboxPodName(name)
      && ("labels" in m && m["labels"].LabelMap? ==>
            labels.Keys == m["labels"].labels.Keys + {"app", "created-by"}
            && forall k :: k in m["labels"].labels && k != "app" && k != "created-by" ==> labels[k] == m["labels"].labels[k])
      && (!("labels" in m && m["labels"].LabelMap?) ==> labels.Keys == {"app", "created-by"})
  {
  }

  // ---------------------------------------------------------------------------
  // The sandbox handle

  /** What a run returns to the caller. */
  datatype Output = Output(result: string, error: string, exitCode: int)

  /** The language container a handle keeps: its name, language, image and options. */
  datatype LanguageContainer = LanguageContainer(name: string, language: string, image: string, opts: seq<SandboxOption>)

  /** How long CreateSandbox waits for the pod to be ready, in seconds. */
  const SandboxReadyTimeout := 120

  const ScriptFile := "/tmp/exec_script.sh"

  const HereDocOpen := "cat > " + ScriptFile + " << 'EOF'\n"
  const HereDocClose := "\nEOF"

  /** The command that writes `commands` to the script file through a here-document. */
  function WriteScript(commands: string): seq<string> {
    ["sh", "-c", HereDocOpen + commands + HereDocClose]
  }

  const ChmodScript: seq<string> := ["sh", "-c", "chmod +x " + ScriptFile]

  function RunScript(lang: Language): seq<string> {
    ["sh", "-c", GetExecScript(lang)]
  }

  /** The three commands Exec sends, in order. */
  function ExecPlan(commands: string, lang: Language): (plan: seq<seq<string>>)
    ensures |plan| == 3
  {
    [WriteScript(commands), ChmodScript, RunScript(lang)]
  }

  /**
   * Every step runs under `sh -c`; the first writes the commands verbatim between
   * the here-document's opening and closing lines, so they can be read back from
   * it; the second makes the file executable; the third is empty exactly when the
   * language has no run script.
   */
  lemma ExecPlanSteps(commands: string, lang: Language)
    ensures forall k :: 0 <= k < 3 ==> |ExecPlan(commands, lang)[k]| == 3 && ExecPlan(commands, lang)[k][..2] == ["sh", "-c"]
    ensures var w := ExecPlan(commands, lang)[0][2];
      && HasPrefix(w, HereDocOpen) && HasSuffix(w, HereDocClose)
      && |HereDocOpen| + |HereDocClose| <= |w| && w[|HereDocOpen|..|w| - |HereDocClose|] == commands
    ensures ExecPlan(commands, lang)[1][2] == "chmod +x " + ScriptFile
    ensures ExecPlan(commands, lang)[2][2] != "" <==> IsValid(lang)
  {
    var w := HereDocOpen + commands + HereDocClose;
    assert w == HereDocOpen + (commands + HereDocClose);
    PrefixOfConcat(HereDocOpen, commands + HereDocClose);
    SuffixOfConcat(HereDocOpen + commands, HereDocClose);
    assert w[|HereDocOpen|..|w| - |HereDocClose|] == commands;
  }

  /** The pod Destroy deletes. */
  function DestroyTarget(lc: LanguageContainer): string {
    SandboxPodName(lc.name)
  }

  /** A successful exec's stdout as an Output, or the exec's error. */
  function AsOutput(r: Result<string>): (o: Result<Output>)
    ensures o.Ok? <==> r.Ok?
    ensures o.Ok? ==> o.value == Output(r.value, "", 0)
    ensures o.Err? ==> o.error == r.error
  {
    match r
    case Ok(s) => Ok(Output(s, "", 0))
    case Err(e) => Err(e)
  }

  /**
   * Exec's progress: the first |replies| steps of the plan were sent to `ref`, in
   * order, and each of them succeeded.
   */
  ghost predicate ExecSoFar(ref: PodRef, commands: string, language: Language, trace0: seq<Call>, trace: seq<Call>, replies: seq<ExecReply>) {
    && |replies| <= 3
    && trace == trace0 + ExecCalls(ref, ExecPlan(commands, language)[..|replies|], replies)
    && forall i :: 0 <= i < |replies| ==> replies[i].failure.None?
  }

  /**
   * Exec's end: between one and three steps of the plan were sent, every one but
   * the last succeeded, and the run stopped for one of three reasons. The last step
   * failed, or was the third: the result is that exec's. The second succeeded and
   * the language is not one the table knows: the result is the lookup's error.
   */
  ghost predicate ExecRan(ref: PodRef, commands: string, language: Language, trace0: seq<Call>, trace: seq<Call>,
                          replies: seq<ExecReply>, r: Result<Output>) {
    && 0 < |replies| <= 3
    && trace == trace0 + ExecCalls(ref, ExecPlan(commands, language)[..|replies|], replies)
    && (forall i :: 0 <= i < |replies| - 1 ==> replies[i].failure.None?)
    && (|replies| == 3 ==> IsValid(language))
    && (replies[|replies| - 1].failure.Some? || |replies| == 3 ==> r == AsOutput(ShapeExec(replies[|replies| - 1])))
    && (|replies| < 3 && replies[|replies| - 1].failure.None? ==>
          |replies| == 2 && !IsValid(language) && r == Err("unsupported language: " + language))
  }

  lemma ExecStart(ref: PodRef, commands: string, language: Language, trace0: seq<Call>)
    ensures ExecSoFar(ref, commands, language, trace0, trace0, [])
  {
    assert ExecPlan(commands, language)[..0] == [];
  }

  /** Sending the next step of a plan extends the trace of the steps sent by that one exec. */
  lemma PlanStep(ref: PodRef, plan: seq<seq<string>>, trace0: seq<Call>, trace: seq<Call>, replies: seq<ExecReply>,
                 reply: ExecReply, traceAfter: seq<Call>)
    requires |replies| < |plan|
    requires trace == trace0 + ExecCalls(ref, plan[..|replies|], replies)
    requires traceAfter == trace + [ExecCall(ref, plan[|replies|], true, reply)]
    ensures traceAfter == trace0 + ExecCalls(ref, plan[..|replies| + 1], replies + [reply])
  {
    var k := |replies|;
    assert plan[..k + 1] == plan[..k] + [plan[k]];
    ExecCallsSnoc(ref, plan[..k], replies, plan[k], reply);
  }

  /** One more step of the plan: a failure ends the run with that exec's error, a success goes on. */
  lemma ExecNext(ref: PodRef, commands: string, language: Language, trace0: seq<Call>, trace: seq<Call>, replies: seq<ExecReply>,
                 command: seq<string>, reply: ExecReply, o: Result<string>, traceAfter: seq<Call>)
    requires ExecSoFar(ref, commands, language, trace0, trace, replies) && |replies| < 3
    requires command == ExecPlan(commands, language)[|replies|]
    requires traceAfter == trace + [ExecCall(ref, command, true, reply)]
    requires o == ShapeExec(reply)
    requires |replies| == 2 ==> IsValid(language)
    ensures o.Err? ==> ExecRan(ref, commands, language, trace0, traceAfter, replies + [reply], Err(o.error))
    ensures o.Ok? ==> ExecSoFar(ref, commands, language, trace0, traceAfter, replies + [reply])
    ensures o.Ok? && |replies| == 2 ==> ExecRan(ref, commands, language, trace0, traceAfter, replies + [reply], Ok(Output(o.value, "", 0)))
  {
    var replies' := replies + [reply];
    PlanStep(ref, ExecPlan(commands, language), trace0, trace, replies, reply, traceAfter);
    assert forall i :: 0 <= i < |replies| ==> replies'[i] == replies[i];
    if o.Err? {
      assert reply.failure.Some? && Err(o.error) == AsOutput(ShapeExec(reply));
    } else {
      assert reply.failure.None?;
    }
  }

  /** A language the table does not know ends the run after the second step. */
  lemma ExecUnsupported(ref: PodRef, commands: string, language: Language, trace0: seq<Call>, trace: seq<Call>, replies: seq<ExecReply>)
    requires ExecSoFar(ref, commands, language, trace0, trace, replies) && |replies| == 2
    requires !IsValid(language)
    ensures ExecRan(ref, commands, language, trace0, trace, replies, Err("unsupported language: " + language))
  {
  }

  class Sandbox {
    /** The cluster every client this handle builds talks to. */
    const cluster: Cluster
    const driver: string
    const lc: LanguageContainer
    /** The pod the handle runs code in; set once the pod is ready. */
    var id: string

    constructor (cluster: Cluster, driver: string, lc: LanguageContainer, id: string)
      ensures this.cluster == cluster && this.driver == driver && this.lc == lc && this.id == id
    {
      this.cluster := cluster;
      this.driver := driver;
      this.lc := lc;
      this.id := id;
    }

    /** The namespace the handle's options ask for. */
    function Namespace(): string {
      NamespaceOption(OptionsMap(lc.opts))
    }

    /** The namespace its pod operations go to, once the client has defaulted an empty one. */
    function PodNamespace(): string {
      DefaultNamespace(Namespace(), DefaultNs)
    }

    /**
     * Run `code` with `sh -c` in the handle's pod. Only a Kubernetes handle whose
     * client can be configured reaches the cluster, with exactly one exec call; the
     * stdout comes back with an empty error and exit code 0.
     */
    method Run(code: string) returns (r: Result<Output>, ghost reply: Option<ExecReply>)
      modifies cluster
      ensures cluster.pods == old(cluster.pods)
      ensures driver != "kubernetes" ==> r == Err("unsupported driver: " + driver) && cluster.trace == old(cluster.trace)
      ensures driver == "kubernetes" && !cluster.Configured() ==>
                r.Err? && HasPrefix(r.error, SetupFailed(cluster)) && cluster.trace == old(cluster.trace)
      ensures driver == "kubernetes" && cluster.Configured() ==>
                && reply.Some?
                && cluster.trace == old(cluster.trace) + [ExecCall(PodRef(PodNamespace(), id), ["sh", "-c", code], true, reply.value)]
                && r == AsOutput(ShapeExec(reply.value))
    {
      reply := None;
      var m := FoldOptions(lc.opts);
      var ns := NamespaceOption(m);
      if driver != "kubernetes" {
        return Err("unsupported driver: " + driver), reply;
      }
      var c := NewClient(cluster, ns);
      if c.Err? {
        return Err(c.error), reply;
      }
      var client := c.value;
      var o;
      ghost var rep;
      o, rep := client.ExecCommand(id, ns, ["sh", "-c", code]);
      reply := Some(rep);
      if o.Err? {
        return Err(o.error), reply;
      }
      r := Ok(Output(o.value, "", 0));
    }

    /**
     * Write `commands` to the script file, make it executable and run it with the
     * handle's language, each step only after the previous one succeeded. A
     * language the image table does not know fails after the first two steps.
     */
    method Exec(commands: string) returns (r: Result<Output>, ghost replies: seq<ExecReply>)
      modifies cluster
      ensures cluster.pods == old(cluster.pods)
      ensures driver != "kubernetes" ==> r == Err("unsupported driver: " + driver) && cluster.trace == old(cluster.trace)
      ensures driver != "kubernetes" || !cluster.Configured() ==> replies == []
      ensures driver == "kubernetes" && !cluster.Configured() ==>
                r.Err? && HasPrefix(r.error, SetupFailed(cluster)) && cluster.trace == old(cluster.trace)
      ensures driver == "kubernetes" && cluster.Configured() ==>
                ExecRan(PodRef(PodNamespace(), id), commands, lc.language, old(cluster.trace), cluster.trace, replies, r)
    {
      replies := [];
      var m := FoldOptions(lc.opts);
      var ns := NamespaceOption(m);
      if driver != "kubernetes" {
        return Err("unsupported driver: " + driver), replies;
      }
      var c := NewClient(cluster, ns);
      if c.Err? {
        return Err(c.error), replies;
      }
      var client := c.value;
      ghost var ref := PodRef(PodNamespace(), id);
      assert ref == PodRef(DefaultNamespace(ns, client.namespace), id);
      ghost var trace0 := cluster.trace;
      ghost var trace := trace0;
      ExecStart(ref, commands, lc.language, trace0);
      var o;
      ghost var rep;
      o, rep := client.ExecCommand(id, ns, WriteScript(commands));
      ExecNext(ref, commands, lc.language, trace0, trace, replies, WriteScript(commands), rep, o, cluster.trace);
      replies, trace := replies + [rep], cluster.trace;
      if o.Err? {
        return Err(o.error), replies;
      }
      o, rep := client.ExecCommand(id, ns, ChmodScript);
      ExecNext(ref, commands, lc.language, trace0, trace, replies, ChmodScript, rep, o, cluster.trace);
      replies, trace := replies + [rep], cluster.trace;
      if o.Err? {
        return Err(o.error), replies;
      }
      var lt := ToLanguage(lc.language);
      if lt.Err? {
        ExecUnsupported(ref, commands, lc.language, trace0, trace, replies);
        return Err(lt.error), replies;
      }
      o, rep := client.ExecCommand(id, ns, RunScript(lt.value));
      ExecNext(ref, commands, lc.language, trace0, trace, replies, RunScript(lt.value), rep, o, cluster.trace);
      replies := replies + [rep];
      if o.Err? {
        return Err(o.error), replies;
      }
      r := Ok(Output(o.value, "", 0));
    }

    /** Force-delete the pod named after the handle's language container. */
    method Destroy() returns (r: Outcome)
      modifies cluster
      ensures driver != "kubernetes" ==>
                r == Fail("unsupported driver: " + driver) && cluster.trace == old(cluster.trace) && cluster.pods == old(cluster.pods)
      ensures driver == "kubernetes" && !cluster.Configured() ==>
                r.Fail? && HasPrefix(r.error, SetupFailed(cluster)) && cluster.trace == old(cluster.trace) && cluster.pods == old(cluster.pods)
      ensures driver == "kubernetes" && cluster.Configured() ==>
                var ref := PodRef(PodNamespace(), DestroyTarget(lc));
                && cluster.trace == old(cluster.trace) + [DeleteCall(ref, DeleteOptionsFor(true), r.Pass?)]
                && (r.Pass? ==> ref in old(cluster.pods) && cluster.pods == old(cluster.pods) - {ref})
                && (r.Fail? ==> cluster.pods == old(cluster.pods))
    {
      var m := FoldOptions(lc.opts);
      var ns := NamespaceOption(m);
      if driver != "kubernetes" {
        return Fail("unsupported driver: " + driver);
      }
      var c := NewClient(cluster, ns);
      if c.Err? {
        return Fail(c.error);
      }
      var client := c.value;
      r := client.ForceDeletePod(DestroyTarget(lc), ns);
    }
  }

  /**
   * What creating sandbox `name` for `lang` did to `cluster`, from the trace and pods
   * `trace0`, `pods0` to `trace`, `pods`, given whether the pod was submitted and
   * the readiness answers:
   * - an unsupported language, or a cluster that cannot be configured, fails with
   *   no call and no change;
   * - otherwise the pod is submitted once and, once accepted, polled until Ready,
   *   the GET failure or the two-minute deadline;
   * - a submitted pod stays behind whatever the verdict, and no other pod changes;
   * - the result is Ok exactly when the last answer is Ready, and each failure
   *   carries the message of the step that failed.
   */
  ghost predicate SandboxCreated(cluster: Cluster, name: string, lang: Language, opts: seq<SandboxOption>,
                                 trace0: seq<Call>, pods0: map<PodRef, PodRecord>, trace: seq<Call>, pods: map<PodRef, PodRecord>,
                                 r: Result<Sandbox>, submitted: bool, answers: seq<Status>) {
    && (!IsValid(lang) ==> r == Err("unsupported language: " + lang) && trace == trace0 && pods == pods0)
    && (IsValid(lang) && !cluster.Configured() ==>
          r.Err? && HasPrefix(r.error, SetupFailed(cluster)) && trace == trace0 && pods == pods0)
    && (!submitted ==> answers == [] && pods == pods0)
    && (submitted ==> IsValid(lang) && cluster.Configured())
    && (IsValid(lang) && cluster.Configured() ==>
          var pod := SandboxPod(name, Images[lang], opts);
          trace == trace0 + [CreateCall(pod, submitted)] + GetCalls(RefOf(pod), answers))
    && (IsValid(lang) && cluster.Configured() && !submitted ==> r.Err? && HasPrefix(r.error, CreateFailed))
    && (submitted ==>
          var pod := SandboxPod(name, Images[lang], opts); var ref := RefOf(pod);
          && ref !in pods0 && ref in pods && pods[ref].pod == pod
          && OnlyAt(pods0, pods, ref))
    && (submitted ==> PolledUntil(answers, SandboxReadyTimeout))
    && (submitted && r.Err? ==>
          r.error == NotReadyReason(SandboxPodName(name), RefOf(SandboxPod(name, Images[lang], opts)).namespace, answers[|answers| - 1]))
    && (r.Ok? <==> submitted && answers[|answers| - 1] == Ready)
  }

  /**
   * Create a sandbox: look up the language's image, submit the keep-alive pod
   * "sandboxed-<name>" and wait up to two minutes for it to be ready. The handle
   * gets its id only after the pod is ready. A failure at any step is returned as
   * it is, and nothing is deleted: a pod that never became ready stays behind.
   */
  method CreateSandbox(cluster: Cluster, name: string, lang: Language, opts: seq<SandboxOption>)
    returns (r: Result<Sandbox>, ghost submitted: bool, ghost answers: seq<Status>)
    modifies cluster
    ensures SandboxCreated(cluster, name, lang, opts, old(cluster.trace), old(cluster.pods),
                           cluster.trace, cluster.pods, r, submitted, answers)
    ensures r.Ok? ==> fresh(r.value) && r.value.cluster == cluster && r.value.driver == "kubernetes"
                      && r.value.id == SandboxPodName(name)
                      && r.value.lc == LanguageContainer(name, lang, Images[lang], opts)
  {
    submitted, answers := false, [];
    var image := LanguageLookup(lang);
    if image.Err? {
      return Err(image.error), submitted, answers;
    }
    var lc := LanguageContainer(name, lang, image.value, opts);
    var s := new Sandbox(cluster, "kubernetes", lc, "");
    var m := FoldOptions(opts);
    var podName := SandboxPodName(name);
    var namespace := NamespaceOption(m);
    var c := NewClient(cluster, namespace);
    if c.Err? {
      return Err(c.error), submitted, answers;
    }
    var client := c.value;
    var spec := SandboxPodSpec(name, image.value, m);
    ghost var pod := BuildPod(spec, client.namespace);
    assert pod == SandboxPod(name, Images[lang], opts);
    ghost var trace0 := cluster.trace;
    var created := client.CreatePod(spec);
    submitted := created.Ok?;
    if created.Err? {
      return Err(created.error), submitted, answers;
    }
    ghost var ref := PodRef(DefaultNamespace(namespace, client.namespace), podName);
    assert RefOf(pod) == ref;
    ghost var pods1 := cluster.pods;
    assert OnlyAt(old(cluster.pods), pods1, ref);
    ghost var script := Script(cluster.pods, ref);
    var ready := client.WaitForPodReady(podName, namespace, SandboxReadyTimeout);
    answers := Wait(script, PollBudget(SandboxReadyTimeout)).answers;
    OnlyAtWithScript(pods1, ref, Wait(script, PollBudget(SandboxReadyTimeout)).rest);
    OnlyAtThen(old(cluster.pods), pods1, cluster.pods, ref);
    ReadyVerdict(script, SandboxReadyTimeout, podName, ref.namespace, ready, answers);
    if ready.Fail? {
      return Err(ready.error), submitted, answers;
    }
    assert cluster.trace == old(cluster.trace) + [CreateCall(pod, submitted)] + GetCalls(RefOf(pod), answers);
    s.id := podName;
    r := Ok(s);
  }

  /** Create a sandbox in the language detected from the chat API's answer about the code. */
  method CreateSandboxAuto(cluster: Cluster, name: string, apiKey: string, completion: Completion, opts: seq<SandboxOption>)
    returns (r: Result<Sandbox>, ghost submitted: bool, ghost answers: seq<Status>)
    modifies cluster
    ensures DetectLanguage(apiKey, completion).Err? ==>
              r == Err(DetectLanguage(apiKey, completion).error) && !submitted && answers == []
              && cluster.trace == old(cluster.trace) && cluster.pods == old(cluster.pods)
    ensures apiKey == "" ==> r == Err(KeyRequired) && cluster.trace == old(cluster.trace)
    ensures DetectLanguage(apiKey, completion).Ok? ==>
              SandboxCreated(cluster, name, DetectLanguage(apiKey, completion).value, opts, old(cluster.trace), old(cluster.pods),
                             cluster.trace, cluster.pods, r, submitted, answers)
    ensures r.Ok? ==>
              var lang := DetectLanguage(apiKey, completion).value;
              && DetectLanguage(apiKey, completion).Ok?
              && fresh(r.value) && r.value.cluster == cluster && r.value.driver == "kubernetes"
              && r.value.id == SandboxPodName(name)
              && r.value.lc == LanguageContainer(name, lang, Images[lang], opts)
  {
    submitted, answers := false, [];
    var lang := DetectLanguage(apiKey, completion);
    if lang.Err? {
      return Err(lang.error), submitted, answers;
    }
    r, submitted, answers := CreateSandbox(cluster, name, lang.value, opts);
  }

  /**
   * A handle on an existing sandbox pod `id`. Its language container only carries
   * the options, so Destroy on it targets the pod "sandboxed-", not `id`, and Exec
   * on it fails after writing the script because its language is empty.
   */
  method NewInstance(cluster: Cluster, id: string, opts: seq<SandboxOption>) returns (r: Result<Sandbox>)
    ensures r.Ok? && fresh(r.value) && r.value.cluster == cluster && r.value.driver == "kubernetes"
    ensures r.value.id == id && r.value.lc == LanguageContainer("", "", "", opts)
    ensures DestroyTarget(r.value.lc) == "sandboxed-" && !IsValid(r.value.lc.language)
  {
    var lc := LanguageContainer("", "", "", opts);
    var s := new Sandbox(cluster, "kubernetes", lc, id);
    assert SandboxPodName("") == "sandboxed-";
    r := Ok(s);
  }
}
