/**
 * The Kubernetes client wrapper (pkg/k8sclient/client.go): pod creation with the
 * default labels, deletion with and without force, readiness polling against a
 * deadline, log collection, exec with output capture, and the create-wait-exec-
 * cleanup sequence built from them.
 */
module K8sClient {
  import opened Wrappers
  import opened Text
  import opened Remote

  const DefaultNs := "default"

  /** Seconds slept between two readiness polls. */
  const PollIntervalSeconds := 2

  /** The readiness deadline CreateAndRunPod allows (five minutes). */
  const RunPodReadyTimeout := 300

  // The texts the client puts in front of the errors it wraps.
  const CreateFailed := "failed to create pod: "
  const StreamFailed := "failed to execute command in pod: "
  const ExecFailed := "exec failed: "
  const NotReadyFailed := "pod not ready: "
  const CommandFailed := "command execution failed: "
  const ConfigFailed := "failed to create kubernetes config: "
  const ClientFailed := "failed to create kubernetes client: "
  const StderrFollows := ", stderr: "

  /** How NewClient's error starts on `cluster`: the configuration did not load, or no clientset was built from it. */
  function SetupFailed(cluster: Cluster): string {
    if !cluster.loadsConfig then ConfigFailed else ClientFailed
  }

  /** What a caller asks CreatePod for; `labels` is `None` for a nil map. */
  datatype PodSpec = PodSpec(
    name: string,
    namespace: string,
    image: string,
    command: seq<string>,
    args: seq<string>,
    labels: Option<map<string, string>>)

  /** An empty namespace argument means the fallback namespace. */
  function DefaultNamespace(namespace: string, fallback: string): (ns: string)
    ensures namespace != "" ==> ns == namespace
    ensures namespace == "" ==> ns == fallback
  {
    if namespace == "" then fallback else namespace
  }

  /**
   * The caller's labels with `app` set to the pod name and `created-by` set to
   * "sandboxed-cli"; those two override whatever the caller gave, every other
   * label is kept.
   */
  function DefaultLabels(labels: Option<map<string, string>>, name: string): (r: map<string, string>)
    ensures r.Keys == (if labels.Some? then labels.value.Keys else {}) + {"app", "created-by"}
    ensures r["app"] == name && r["created-by"] == "sandboxed-cli"
    ensures labels.Some? ==>
      forall k :: k in labels.value && k != "app" && k != "created-by" ==> r[k] == labels.value[k]
  {
    var base := if labels.Some? then labels.value else map[];
    base["app" := name]["created-by" := "sandboxed-cli"]
  }

  /** A command or argument list is only set on the container when it is not empty. */
  function SetIfNonEmpty(xs: seq<string>): (r: Option<seq<string>>)
    ensures r.Some? <==> xs != []
    ensures r.Some? ==> r.value == xs
  {
    if xs == [] then None else Some(xs)
  }

  /**
   * The pod CreatePod submits: named as asked, in the spec's namespace or the
   * client's, with the default labels, restart policy Never, and exactly one
   * container that carries the pod's name, the image, and the command and
   * arguments when they are not empty.
   */
  function BuildPod(spec: PodSpec, clientNamespace: string): (pod: PodObject)
    ensures pod.name == spec.name
    ensures pod.namespace == DefaultNamespace(spec.namespace, clientNamespace)
    ensures pod.labels == DefaultLabels(spec.labels, spec.name)
    ensures pod.restartPolicy == "Never"
    ensures |pod.containers| == 1
    ensures pod.containers[0].name == spec.name && pod.containers[0].image == spec.image
    ensures pod.containers[0].command == SetIfNonEmpty(spec.command)
    ensures pod.containers[0].args == SetIfNonEmpty(spec.args)
  {
    var ns := if spec.namespace == "" then clientNamespace else spec.namespace;
    PodObject(
      spec.name, ns, DefaultLabels(spec.labels, spec.name), "Never",
      [Container(spec.name, spec.image, SetIfNonEmpty(spec.command), SetIfNonEmpty(spec.args))])
  }

  /** Force deletion asks for a zero grace period and foreground propagation; plain deletion sets neither. */
  function DeleteOptionsFor(force: bool): (o: DeleteOptions)
    ensures force <==> o.gracePeriodSeconds.Some?
    ensures force <==> o.propagationPolicy.Some?
    ensures force ==> o.gracePeriodSeconds.value == 0 && o.propagationPolicy.value == "Foreground"
  {
    if force then DeleteOptions(Some(0), Some("Foreground")) else DeleteOptions(None, None)
  }

  function GetPodError(name: string, namespace: string, reason: string): string {
    "failed to get pod " + name + " in namespace " + namespace + ": " + reason
  }

  function DeletePodError(name: string, namespace: string, reason: string): string {
    "failed to delete pod " + name + " in namespace " + namespace + ": " + reason
  }

  function TimeoutError(name: string): string {
    "timeout waiting for pod " + name + " to be ready"
  }

  /** What GetPod makes of one answer: whether the pod is Ready, or the wrapped error. */
  function Answered(name: string, namespace: string, answer: Status): (r: Result<bool>)
    ensures r.Ok? <==> !answer.Failed?
    ensures r.Ok? ==> (r.value <==> answer == Ready)
    ensures r.Err? ==> r.error == GetPodError(name, namespace, answer.reason)
  {
    match answer
    case Ready => Ok(true)
    case NotReady => Ok(false)
    case Failed(reason) => Err(GetPodError(name, namespace, reason))
  }

  // ---------------------------------------------------------------------------
  // Readiness polling

  /** The answers left after `k` GETs. */
  function Drop(script: seq<Status>, k: nat): (rest: seq<Status>)
    ensures k <= |script| ==> rest == script[k..]
    ensures k >= |script| ==> rest == []
  {
    if k >= |script| then [] else script[k..]
  }

  datatype Verdict = BecameReady | GetError(reason: string) | TimedOut

  /** How a wait ended: the answers its GETs received, in order, the verdict, and the answers left scripted. */
  datatype Waited = Waited(answers: seq<Status>, verdict: Verdict, rest: seq<Status>)

  /**
   * The number of polls that start before a deadline of `timeoutSeconds`: one at
   * every multiple of the poll interval strictly below it.
   */
  function PollBudget(timeoutSeconds: nat): nat {
    if timeoutSeconds == 0 then 0
    else if timeoutSeconds <= PollIntervalSeconds then 1
    else 1 + PollBudget(timeoutSeconds - PollIntervalSeconds)
  }

  /**
   * The wait over a pod whose GETs answer `script`, with `budget` polls left
   * before the deadline: stop at the first Ready answer or the first failed GET,
   * time out when the budget is spent.
   */
  function Wait(script: seq<Status>, budget: nat): Waited
    decreases budget
  {
    if budget == 0 then Waited([], TimedOut, script)
    else match Head(script)
      case Ready => Waited([Ready], BecameReady, Tail(script))
      case Failed(reason) => Waited([Failed(reason)], GetError(reason), Tail(script))
      case NotReady =>
        var later := Wait(Tail(script), budget - 1);
        Waited([NotReady] + later.answers, later.verdict, later.rest)
  }

  /** A wait that was preceded by the GETs that received `answers`. */
  function After(answers: seq<Status>, w: Waited): Waited {
    Waited(answers + w.answers, w.verdict, w.rest)
  }

  /** One step of a wait with polls left: a final answer ends it, NotReady leads to the wait over the rest. */
  lemma WaitStep(script: seq<Status>, budget: nat)
    requires budget > 0
    ensures Head(script) != NotReady ==>
      Wait(script, budget) == Waited([Head(script)], if Head(script) == Ready then BecameReady else GetError(Head(script).reason), Tail(script))
    ensures Head(script) == NotReady ==> Wait(script, budget) == After([NotReady], Wait(Tail(script), budget - 1))
  {
  }

  lemma AfterAfter(a: seq<Status>, b: seq<Status>, w: Waited)
    ensures After(a, After(b, w)) == After(a + b, w)
  {
    assert a + (b + w.answers) == (a + b) + w.answers;
  }

  /**
   * A wait that has spent `answers` and is left with `rest` and polls to spare
   * takes one more answer: a final one ends it, NotReady moves it along.
   */
  lemma WaitProgress(script: seq<Status>, budget: nat, answers: seq<Status>, rest: seq<Status>)
    requires |answers| < budget
    requires Wait(script, budget) == After(answers, Wait(rest, budget - |answers|))
    ensures Head(rest) == Ready ==> Wait(script, budget) == Waited(answers + [Ready], BecameReady, Tail(rest))
    ensures Head(rest).Failed? ==>
      Wait(script, budget) == Waited(answers + [Head(rest)], GetError(Head(rest).reason), Tail(rest))
    ensures Head(rest) == NotReady ==>
      Wait(script, budget) == After(answers + [NotReady], Wait(Tail(rest), budget - (|answers| + 1)))
  {
    WaitStep(rest, budget - |answers|);
    AfterAfter(answers, [NotReady], Wait(Tail(rest), budget - |answers| - 1));
  }

  /**
   * The state of WaitForPodReady's loop, on values: the GETs so far received
   * `answers` and left `rest` scripted, the reference wait from the start is
   * those answers followed by the wait over the rest, the pod map `pods` holds
   * `rest` for the pod, and `trace` has grown by exactly those GETs.
   */
  ghost predicate Polling(ref: PodRef, script: seq<Status>, budget: nat, answers: seq<Status>, rest: seq<Status>,
                          pods0: map<PodRef, PodRecord>, trace0: seq<Call>, pods: map<PodRef, PodRecord>, trace: seq<Call>)
  {
    && |answers| <= budget
    && Wait(script, budget) == After(answers, Wait(rest, budget - |answers|))
    && Script(pods, ref) == rest && pods == WithScript(pods0, ref, rest)
    && trace == trace0 + GetCalls(ref, answers)
  }

  lemma PollStart(ref: PodRef, budget: nat, pods0: map<PodRef, PodRecord>, trace0: seq<Call>)
    ensures Polling(ref, Script(pods0, ref), budget, [], Script(pods0, ref), pods0, trace0, pods0, trace0)
  {
    var script := Script(pods0, ref);
    assert After([], Wait(script, budget)) == Wait(script, budget);
    assert trace0 + GetCalls(ref, []) == trace0;
    if ref in pods0 {
      assert pods0[ref := pods0[ref].(readiness := script)] == pods0;
    }
  }

  /** The deadline passed: the wait timed out with the answers so far. */
  lemma PollTimeout(ref: PodRef, script: seq<Status>, budget: nat, answers: seq<Status>, rest: seq<Status>,
                    pods0: map<PodRef, PodRecord>, trace0: seq<Call>, pods: map<PodRef, PodRecord>, trace: seq<Call>)
    requires Polling(ref, script, budget, answers, rest, pods0, trace0, pods, trace)
    requires |answers| == budget
    ensures Wait(script, budget).verdict == TimedOut
    ensures trace == trace0 + GetCalls(ref, Wait(script, budget).answers)
    ensures pods == WithScript(pods0, ref, Wait(script, budget).rest)
  {
    assert answers + [] == answers;
  }

  /**
   * One poll: the GET of `ref` that moved the pod map from `pods` to `after` and
   * the trace from `trace` to `traceAfter` either ends the wait as `Wait` says or
   * leaves the loop in its state one poll later.
   */
  lemma PollStep(name: string, ref: PodRef, script: seq<Status>, budget: nat, answers: seq<Status>, rest: seq<Status>,
                 pods0: map<PodRef, PodRecord>, trace0: seq<Call>, pods: map<PodRef, PodRecord>, trace: seq<Call>,
                 after: map<PodRef, PodRecord>, traceAfter: seq<Call>, got: Result<bool>)
    requires Polling(ref, script, budget, answers, rest, pods0, trace0, pods, trace)
    requires |answers| < budget
    requires got == Answered(name, ref.namespace, Head(Script(pods, ref)))
    requires after == WithScript(pods, ref, Tail(Script(pods, ref)))
    requires traceAfter == trace + [GetCall(ref, Head(Script(pods, ref)))]
    ensures got != Ok(false) ==>
      && (if got.Err? then Fail(got.error) else Pass) == VerdictOutcome(name, ref.namespace, Wait(script, budget).verdict)
      && traceAfter == trace0 + GetCalls(ref, Wait(script, budget).answers)
      && after == WithScript(pods0, ref, Wait(script, budget).rest)
    ensures got == Ok(false) ==>
      Polling(ref, script, budget, answers + [NotReady], Tail(rest), pods0, trace0, after, traceAfter)
  {
    var answer := Head(rest);
    assert Script(pods, ref) == rest && pods == WithScript(pods0, ref, rest) && trace == trace0 + GetCalls(ref, answers);
    assert traceAfter == trace0 + GetCalls(ref, answers + [answer]) by {
      GetCallsSnoc(ref, answers, answer);
    }
    assert after == WithScript(pods0, ref, Tail(rest)) by {
      WithScriptTwice(pods0, ref, rest, Tail(rest));
    }
    WaitProgress(script, budget, answers, rest);
    if answer == NotReady {
      assert ref in pods0 && Script(after, ref) == Tail(rest);
    } else if answer == Ready {
      assert Wait(script, budget) == Waited(answers + [answer], BecameReady, Tail(rest));
    } else {
      assert Wait(script, budget) == Waited(answers + [answer], GetError(answer.reason), Tail(rest));
    }
  }

  /** Why a wait whose last answer was `last` did not end Ready: the GET's error, or the deadline. */
  function NotReadyReason(name: string, namespace: string, last: Status): string {
    if last.Failed? then GetPodError(name, namespace, last.reason) else TimeoutError(name)
  }

  function VerdictOutcome(name: string, namespace: string, v: Verdict): Outcome {
    match v
    case BecameReady => Pass
    case GetError(reason) => Fail(GetPodError(name, namespace, reason))
    case TimedOut => Fail(TimeoutError(name))
  }

  lemma DropTail(script: seq<Status>, k: nat)
    ensures Drop(Tail(script), k) == Drop(script, k + 1)
  {
  }

  /**
   * What a wait means: it never issues more polls than the budget; it becomes
   * ready exactly when its last answer was Ready; it stops at the first failed
   * GET without retrying and reports that GET's reason; it times out only after
   * spending the whole budget on NotReady answers; and every answer before the
   * last was NotReady.
   */
  lemma WaitMeaning(script: seq<Status>, budget: nat)
    ensures var a := Wait(script, budget).answers; var v := Wait(script, budget).verdict;
      && |a| <= budget
      && (forall i :: 0 <= i < |a| - 1 ==> a[i] == NotReady)
      && (v == BecameReady <==> |a| > 0 && a[|a| - 1] == Ready)
      && (v.GetError? <==> |a| > 0 && a[|a| - 1].Failed?)
      && (v.GetError? ==> a[|a| - 1] == Failed(v.reason))
      && (v == TimedOut ==> |a| == budget && forall i :: 0 <= i < budget ==> a[i] == NotReady)
  {
    WaitPolls(script, budget);
    WaitLastAnswer(script, budget);
    WaitEarlierAnswers(script, budget);
  }

  /** A wait polls at most its budget, spends all of it when it times out, and polls at least once otherwise. */
  lemma {:induction false} WaitPolls(script: seq<Status>, budget: nat)
    ensures |Wait(script, budget).answers| <= budget
    ensures Wait(script, budget).verdict == TimedOut ==> |Wait(script, budget).answers| == budget
    ensures Wait(script, budget).verdict != TimedOut ==> |Wait(script, budget).answers| > 0
    decreases budget
  {
    if budget > 0 && Head(script) == NotReady {
      WaitPolls(Tail(script), budget - 1);
    }
  }

  /** The last answer decides the verdict: Ready, the failed GET's reason, or NotReady on a timeout. */
  lemma {:induction false} WaitLastAnswer(script: seq<Status>, budget: nat)
    ensures var a := Wait(script, budget).answers; var v := Wait(script, budget).verdict;
      a != [] ==>
        && (v == BecameReady <==> a[|a| - 1] == Ready)
        && (v.GetError? ==> a[|a| - 1] == Failed(v.reason))
        && (v == TimedOut ==> a[|a| - 1] == NotReady)
    decreases budget
  {
    if budget > 0 && Head(script) == NotReady {
      WaitLastAnswer(Tail(script), budget - 1);
    }
  }

  /** Every answer before the last one was NotReady. */
  lemma {:induction false} WaitEarlierAnswers(script: seq<Status>, budget: nat)
    ensures forall i :: 0 <= i < |Wait(script, budget).answers| - 1 ==> Wait(script, budget).answers[i] == NotReady
    decreases budget
  {
    if budget > 0 && Head(script) == NotReady {
      WaitEarlierAnswers(Tail(script), budget - 1);
      var b := Wait(Tail(script), budget - 1).answers;
      forall i | 0 < i < |b|
        ensures ([NotReady] + b)[i] == NotReady
      {
        assert ([NotReady] + b)[i] == b[i - 1];
      }
    }
  }

  /**
   * A wait reads the script in order: its `i`-th GET receives what is scripted
   * after `i` GETs, and what it leaves is the script without the answers it used.
   */
  lemma {:induction false} WaitConsumes(script: seq<Status>, budget: nat)
    ensures var w := Wait(script, budget);
      && w.rest == Drop(script, |w.answers|)
      && forall i :: 0 <= i < |w.answers| ==> w.answers[i] == Head(Drop(script, i))
  {
    WaitRest(script, budget);
    forall i | 0 <= i < |Wait(script, budget).answers|
      ensures Wait(script, budget).answers[i] == Head(Drop(script, i))
    {
      WaitAnswerAt(script, budget, i);
    }
  }

  /** What a wait leaves is the script without the answers it used. */
  lemma {:induction false} WaitRest(script: seq<Status>, budget: nat)
    ensures Wait(script, budget).rest == Drop(script, |Wait(script, budget).answers|)
    decreases budget
  {
    if budget > 0 && Head(script) == NotReady {
      var later := Wait(Tail(script), budget - 1);
      assert Wait(script, budget).answers == [NotReady] + later.answers;
      WaitRest(Tail(script), budget - 1);
      DropTail(script, |later.answers|);
    } else if budget > 0 {
      DropTail(script, 0);
      assert Drop(script, 0) == script;
    } else {
      assert Drop(script, 0) == script;
    }
  }

  /** The `i`-th GET of a wait receives what is scripted after `i` GETs. */
  lemma {:induction false} WaitAnswerAt(script: seq<Status>, budget: nat, i: nat)
    requires i < |Wait(script, budget).answers|
    ensures Wait(script, budget).answers[i] == Head(Drop(script, i))
    decreases i
  {
    if i == 0 {
      assert Drop(script, 0) == script;
    } else {
      assert budget > 0 && Head(script) == NotReady;
      var later := Wait(Tail(script), budget - 1);
      assert Wait(script, budget).answers == [NotReady] + later.answers;
      WaitAnswerAt(Tail(script), budget - 1, i - 1);
      DropTail(script, i - 1);
    }
  }

  lemma {:induction false} BudgetStep(timeoutSeconds: nat, polls: nat)
    ensures polls < PollBudget(timeoutSeconds) <==> PollIntervalSeconds * polls < timeoutSeconds
  {
    if timeoutSeconds > PollIntervalSeconds && polls > 0 {
      BudgetStep(timeoutSeconds - PollIntervalSeconds, polls - 1);
    }
  }

  /** Every poll the budget allows starts before the deadline, and the next one would not. */
  lemma PollBudgetMeetsDeadline(timeoutSeconds: nat)
    ensures PollIntervalSeconds * PollBudget(timeoutSeconds) >= timeoutSeconds
    ensures PollBudget(timeoutSeconds) > 0 ==> PollIntervalSeconds * (PollBudget(timeoutSeconds) - 1) < timeoutSeconds
    ensures PollBudget(RunPodReadyTimeout) == 150
  {
    var b := PollBudget(timeoutSeconds);
    BudgetStep(timeoutSeconds, b);
    if b > 0 {
      BudgetStep(timeoutSeconds, b - 1);
    }
    BudgetStep(RunPodReadyTimeout, 149);
    BudgetStep(RunPodReadyTimeout, 150);
  }


  /**
   * The answers of a wait with a deadline of `timeoutSeconds`: at least one GET and
   * at most the budget, every answer before the last a not-ready one, and a final
   * NotReady only once the whole budget was spent, that is when the deadline passed.
   */
  ghost predicate PolledUntil(answers: seq<Status>, timeoutSeconds: nat) {
    && 0 < |answers| <= PollBudget(timeoutSeconds)
    && (forall i :: 0 <= i < |answers| - 1 ==> answers[i] == NotReady)
    && (answers[|answers| - 1] == NotReady ==> |answers| == PollBudget(timeoutSeconds))
  }

  /**
   * What a caller of WaitForPodReady learns from its outcome and the answers the
   * cluster gave: at least one GET and at most the budget, every answer before the
   * last a not-ready one, and success exactly when the last answer was Ready.
   */
  lemma ReadyVerdict(script: seq<Status>, timeoutSeconds: nat, name: string, namespace: string, r: Outcome, answers: seq<Status>)
    requires timeoutSeconds > 0
    requires r == VerdictOutcome(name, namespace, Wait(script, PollBudget(timeoutSeconds)).verdict)
    requires answers == Wait(script, PollBudget(timeoutSeconds)).answers
    ensures 0 < |answers| <= PollBudget(timeoutSeconds)
    ensures forall i :: 0 <= i < |answers| - 1 ==> answers[i] == NotReady
    ensures r.Pass? <==> answers[|answers| - 1] == Ready
    ensures r.Fail? ==> r.error == NotReadyReason(name, namespace, answers[|answers| - 1])
    ensures answers[|answers| - 1] == NotReady ==> |answers| == PollBudget(timeoutSeconds)
    ensures PolledUntil(answers, timeoutSeconds)
  {
    var budget := PollBudget(timeoutSeconds);
    assert budget > 0;
    WaitMeaning(script, budget);
  }

  // ---------------------------------------------------------------------------
  // Log collection

  /**
   * The text GetPodLogs collects from a stream that delivers `chunks`: the data of
   * each read up to the first read that delivers nothing or comes with an error;
   * the data of that read is dropped.
   */
  function Accumulate(chunks: seq<Chunk>): string {
    if chunks == [] || |chunks[0].data| == 0 || chunks[0].err.Some? then ""
    else chunks[0].data + Accumulate(chunks[1..])
  }

  /** The index of the first read that ends collection (or the number of reads). */
  function StopIndex(chunks: seq<Chunk>): (k: nat)
    ensures k <= |chunks|
    ensures forall i :: 0 <= i < k ==> |chunks[i].data| > 0 && chunks[i].err.None?
    ensures k < |chunks| ==> |chunks[k].data| == 0 || chunks[k].err.Some?
  {
    if chunks == [] || |chunks[0].data| == 0 || chunks[0].err.Some? then 0
    else 1 + StopIndex(chunks[1..])
  }

  /** The data of `chunks`, concatenated in order. */
  function Concat(chunks: seq<Chunk>): string {
    if chunks == [] then "" else Concat(chunks[..|chunks| - 1]) + chunks[|chunks| - 1].data
  }

  lemma {:induction false} ConcatCons(c: Chunk, rest: seq<Chunk>)
    ensures Concat([c] + rest) == c.data + Concat(rest)
    decreases |rest|
  {
    if rest != [] {
      var init := rest[..|rest| - 1];
      assert ([c] + rest)[..|rest|] == [c] + init;
      ConcatCons(c, init);
    } else {
      assert [c] + rest == [c];
      assert [c][..0] == [];
    }
  }

  /** The collected log is the concatenation of every read before the stopping one. */
  lemma {:induction false} AccumulateIsPrefixConcat(chunks: seq<Chunk>)
    ensures Accumulate(chunks) == Concat(chunks[..StopIndex(chunks)])
  {
    if chunks == [] || |chunks[0].data| == 0 || chunks[0].err.Some? {
      assert chunks[..0] == [];
    } else {
      AccumulateIsPrefixConcat(chunks[1..]);
      var k := StopIndex(chunks[1..]);
      assert chunks[..k + 1] == [chunks[0]] + chunks[1..][..k];
      ConcatCons(chunks[0], chunks[1..][..k]);
    }
  }

  // ---------------------------------------------------------------------------
  // Exec

  /** How ExecInPod reports the stream's error. */
  function StreamOutcome(failure: Option<string>): (r: Outcome)
    ensures r.Pass? <==> failure.None?
    ensures r.Fail? ==> r.error == StreamFailed + failure.value
  {
    match failure
    case None => Pass
    case Some(e) => Fail(StreamFailed + e)
  }

  /**
   * What ExecCommand returns for one exec reply: the captured stdout when the
   * stream succeeded; otherwise an error that wraps the stream's error and ends
   * with the captured stderr.
   */
  function ShapeExec(reply: ExecReply): (r: Result<string>)
    ensures r.Ok? <==> reply.failure.None?
    ensures r.Ok? ==> r.value == reply.stdout
    ensures r.Err? ==> HasPrefix(r.error, ExecFailed + StreamFailed + reply.failure.value)
    ensures r.Err? ==> HasSuffix(r.error, StderrFollows + reply.stderr)
  {
    match StreamOutcome(reply.failure)
    case Pass => Ok(reply.stdout)
    case Fail(e) =>
      var head := ExecFailed + e;
      var tail := StderrFollows + reply.stderr;
      assert ExecFailed + e + StderrFollows + reply.stderr == head + tail;
      assert head == ExecFailed + StreamFailed + reply.failure.value;
      PrefixOfConcat(head, tail);
      SuffixOfConcat(head, tail);
      Err(head + tail)
  }

  lemma Regroup(t: seq<Call>, g: seq<Call>, e: seq<Call>, l: seq<Call>)
    ensures ((t + g) + e) + l == t + ((g + e) + l)
  {
  }

  /**
   * What a wait-then-run reports, given the readiness answers and the exec replies
   * the cluster gave: the commands run only after a Ready answer, in order, until
   * the first that fails; every output collected is a successful command's stdout,
   * and the error says why the run stopped early.
   */
  ghost predicate RunReport(commands: seq<seq<string>>, answers: seq<Status>, results: seq<string>,
                            err: Option<string>, replies: seq<ExecReply>) {
    && |replies| <= |commands| && |results| <= |replies|
    && 0 < |answers| <= PollBudget(RunPodReadyTimeout)
    && (forall i :: 0 <= i < |answers| - 1 ==> answers[i] == NotReady)
    && (answers[|answers| - 1] == NotReady ==> |answers| == PollBudget(RunPodReadyTimeout))
    && (answers[|answers| - 1] != Ready ==>
          replies == [] && results == [] && err.Some? && HasPrefix(err.value, NotReadyFailed))
    && (replies != [] || err.None? ==> answers[|answers| - 1] == Ready)
    && (forall i :: 0 <= i < |results| ==> replies[i].failure.None? && results[i] == replies[i].stdout)
    && (err.None? ==> |results| == |replies| == |commands|)
    && (err.Some? && replies != [] ==>
          |replies| == |results| + 1 && replies[|results|].failure.Some?
          && err.value == CommandFailed + ShapeExec(replies[|results|]).error)
  }

  /** A pod that never became ready: nothing ran, and the error says so. */
  lemma NotReadyReport(commands: seq<seq<string>>, answers: seq<Status>, reason: string)
    requires 0 < |answers| <= PollBudget(RunPodReadyTimeout)
    requires forall i :: 0 <= i < |answers| - 1 ==> answers[i] == NotReady
    requires answers[|answers| - 1] != Ready
    requires answers[|answers| - 1] == NotReady ==> |answers| == PollBudget(RunPodReadyTimeout)
    ensures RunReport(commands, answers, [], Some(NotReadyFailed + reason), [])
  {
    PrefixOfConcat(NotReadyFailed, reason);
  }

  /** A ready pod: the report is the one of running the commands. */
  lemma ReadyReport(commands: seq<seq<string>>, answers: seq<Status>, results: seq<string>,
                    err: Option<string>, replies: seq<ExecReply>)
    requires 0 < |answers| <= PollBudget(RunPodReadyTimeout)
    requires forall i :: 0 <= i < |answers| - 1 ==> answers[i] == NotReady
    requires answers[|answers| - 1] == Ready
    requires |replies| <= |commands| && |results| <= |replies|
    requires forall i :: 0 <= i < |results| ==> replies[i].failure.None? && results[i] == replies[i].stdout
    requires err.None? <==> |results| == |replies| == |commands|
    requires err.Some? ==>
               |replies| == |results| + 1 && replies[|results|].failure.Some?
               && err.value == CommandFailed + ShapeExec(replies[|results|]).error
    ensures RunReport(commands, answers, results, err, replies)
  {
  }

  // ---------------------------------------------------------------------------
  // The client

  class Client {
    const cluster: Cluster
    /** The namespace used when a call passes an empty one. */
    const namespace: string

    constructor (cluster: Cluster, namespace: string)
      ensures this.cluster == cluster && this.namespace == namespace
    {
      this.cluster := cluster;
      this.namespace := namespace;
    }

    /**
     * Build the pod for `spec` and submit it. On success the cluster holds that
     * pod under its name and namespace and nothing else changed; on failure the
     * pod map is untouched and the error says the pod could not be created.
     */
    method CreatePod(spec: PodSpec) returns (r: Result<PodObject>)
      modifies cluster
      ensures var pod := BuildPod(spec, namespace);
        && cluster.trace == old(cluster.trace) + [CreateCall(pod, r.Ok?)]
        && (r.Ok? ==>
              && r.value == pod && RefOf(pod) !in old(cluster.pods)
              && RefOf(pod) in cluster.pods && cluster.pods[RefOf(pod)].pod == pod
              && cluster.pods == old(cluster.pods)[RefOf(pod) := cluster.pods[RefOf(pod)]])
        && (r.Err? ==> cluster.pods == old(cluster.pods) && HasPrefix(r.error, CreateFailed))
    {
      var pod := BuildPod(spec, namespace);
      var created := cluster.Create(pod);
      if created.Err? {
        PrefixOfConcat(CreateFailed, created.error);
        return Err(CreateFailed + created.error);
      }
      r := Ok(created.value);
    }

    /**
     * Delete a pod, forcibly or not. A missing pod is an error; a successful
     * delete removes exactly that pod; a failed one changes nothing.
     */
    method DeletePodWithOptions(name: string, podNamespace: string, force: bool) returns (r: Outcome)
      modifies cluster
      ensures var ref := PodRef(DefaultNamespace(podNamespace, namespace), name);
        && cluster.trace == old(cluster.trace) + [DeleteCall(ref, DeleteOptionsFor(force), r.Pass?)]
        && (r.Pass? ==> ref in old(cluster.pods) && cluster.pods == old(cluster.pods) - {ref})
        && (r.Fail? ==> cluster.pods == old(cluster.pods))
        && (ref !in old(cluster.pods) ==> r == Fail(DeletePodError(name, ref.namespace, NotFound(ref))))
        && (r.Fail? ==> HasPrefix(r.error, "failed to delete pod " + name + " in namespace " + ref.namespace + ": "))
    {
      var ns := if podNamespace == "" then namespace else podNamespace;
      var ref := PodRef(ns, name);
      var deleted := cluster.Delete(ref, DeleteOptionsFor(force));
      if deleted.Fail? {
        PrefixOfConcat("failed to delete pod " + name + " in namespace " + ns + ": ", deleted.error);
        return Fail(DeletePodError(name, ns, deleted.error));
      }
      r := Pass;
    }

    /** Delete with the default grace period and propagation. */
    method DeletePod(name: string, podNamespace: string) returns (r: Outcome)
      modifies cluster
      ensures var ref := PodRef(DefaultNamespace(podNamespace, namespace), name);
        && cluster.trace == old(cluster.trace) + [DeleteCall(ref, DeleteOptions(None, None), r.Pass?)]
        && (r.Pass? ==> ref in old(cluster.pods) && cluster.pods == old(cluster.pods) - {ref})
        && (r.Fail? ==> cluster.pods == old(cluster.pods))
        && (ref !in old(cluster.pods) ==> r == Fail(DeletePodError(name, ref.namespace, NotFound(ref))))
    {
      r := DeletePodWithOptions(name, podNamespace, false);
    }

    /** Delete at once: grace period zero, foreground propagation. */
    method ForceDeletePod(name: string, podNamespace: string) returns (r: Outcome)
      modifies cluster
      ensures var ref := PodRef(DefaultNamespace(podNamespace, namespace), name);
        && cluster.trace == old(cluster.trace) + [DeleteCall(ref, DeleteOptions(Some(0), Some("Foreground")), r.Pass?)]
        && (r.Pass? ==> ref in old(cluster.pods) && cluster.pods == old(cluster.pods) - {ref})
        && (r.Fail? ==> cluster.pods == old(cluster.pods))
        && (ref !in old(cluster.pods) ==> r == Fail(DeletePodError(name, ref.namespace, NotFound(ref))))
    {
      r := DeletePodWithOptions(name, podNamespace, true);
    }

    /** GET a pod: whether its Ready condition is True, or the wrapped error. */
    method GetPod(name: string, podNamespace: string) returns (r: Result<bool>)
      modifies cluster
      ensures var ref := PodRef(DefaultNamespace(podNamespace, namespace), name);
        && r == Answered(name, ref.namespace, Head(Script(old(cluster.pods), ref)))
        && cluster.pods == WithScript(old(cluster.pods), ref, Tail(Script(old(cluster.pods), ref)))
        && cluster.trace == old(cluster.trace) + [GetCall(ref, Head(Script(old(cluster.pods), ref)))]
    {
      var ns := if podNamespace == "" then namespace else podNamespace;
      var answer := cluster.Get(PodRef(ns, name));
      r := Answered(name, ns, answer);
    }

    /**
     * Poll the pod until its Ready condition is True, a GET fails, or the deadline
     * passes. Polls are taken as instantaneous and spaced by the poll interval, so
     * the deadline admits PollBudget(timeoutSeconds) of them. The GETs issued, the
     * answers they got and the result are those of the reference wait `Wait`.
     */
    method WaitForPodReady(name: string, podNamespace: string, timeoutSeconds: nat) returns (r: Outcome)
      modifies cluster
      ensures var ref := PodRef(DefaultNamespace(podNamespace, namespace), name);
        var w := Wait(Script(old(cluster.pods), ref), PollBudget(timeoutSeconds));
        && r == VerdictOutcome(name, ref.namespace, w.verdict)
        && cluster.trace == old(cluster.trace) + GetCalls(ref, w.answers)
        && cluster.pods == WithScript(old(cluster.pods), ref, w.rest)
    {
      var ns := if podNamespace == "" then namespace else podNamespace;
      ghost var ref := PodRef(ns, name);
      ghost var pods0, trace0 := cluster.pods, cluster.trace;
      ghost var script := Script(pods0, ref);
      ghost var budget := PollBudget(timeoutSeconds);
      ghost var answers: seq<Status> := [];
      ghost var rest := script;
      var elapsed := 0;
      BudgetStep(timeoutSeconds, 0);
      PollStart(ref, budget, pods0, trace0);
      assert DefaultNamespace(ns, namespace) == ns;
      while true
        invariant elapsed == PollIntervalSeconds * |answers|
        invariant |answers| < budget <==> elapsed < timeoutSeconds
        invariant Polling(ref, script, budget, answers, rest, pods0, trace0, cluster.pods, cluster.trace)
        decreases timeoutSeconds - elapsed
      {
        if elapsed >= timeoutSeconds {
          PollTimeout(ref, script, budget, answers, rest, pods0, trace0, cluster.pods, cluster.trace);
          return Fail(TimeoutError(name));
        }
        ghost var pods, trace := cluster.pods, cluster.trace;
        var pod := GetPod(name, ns);
        PollStep(name, ref, script, budget, answers, rest, pods0, trace0, pods, trace, cluster.pods, cluster.trace, pod);
        if pod.Err? {
          return Fail(pod.error);
        }
        if pod.value {
          return Pass;
        }
        BudgetStep(timeoutSeconds, |answers| + 1);
        elapsed := elapsed + PollIntervalSeconds;
        answers := answers + [NotReady];
        rest := Tail(rest);
      }
    }

    /**
     * Collect a pod's log: open the stream, then append the data of each read until
     * a read delivers nothing or comes with an error. Read errors end collection
     * without failing the call; only opening the stream can fail.
     */
    method GetPodLogs(name: string, podNamespace: string) returns (r: Result<string>)
      modifies cluster
      ensures var ref := PodRef(DefaultNamespace(podNamespace, namespace), name);
        && cluster.pods == old(cluster.pods)
        && cluster.trace == old(cluster.trace) + [LogsCall(ref, r.Ok?)]
        && (r.Ok? ==> ref in cluster.pods && r.value == Accumulate(cluster.pods[ref].logs))
        && (r.Err? ==> HasPrefix(r.error, "failed to get logs for pod " + name + ": "))
        && (ref !in cluster.pods ==> r == Err("failed to get logs for pod " + name + ": " + NotFound(ref)))
    {
      var ns := if podNamespace == "" then namespace else podNamespace;
      var ref := PodRef(ns, name);
      var open := cluster.OpenLogs(ref);
      if open.Err? {
        PrefixOfConcat("failed to get logs for pod " + name + ": ", open.error);
        return Err("failed to get logs for pod " + name + ": " + open.error);
      }
      var stream := open.value;
      ghost var chunks := stream.remaining;
      var logs := "";
      while true
        invariant Accumulate(chunks) == logs + Accumulate(stream.remaining)
        modifies stream
        decreases |stream.remaining|
      {
        var c := stream.Read();
        if |c.data| == 0 {
          break;
        }
        if c.err.Some? {
          break;
        }
        logs := logs + c.data;
      }
      r := Ok(logs);
    }

    /**
     * Run `command` in the pod over an exec stream, capturing what it writes to
     * stdout and stderr; the result reports the stream's error.
     */
    method ExecInPod(podName: string, podNamespace: string, command: seq<string>, tty: bool)
      returns (r: Outcome, stdout: string, stderr: string, ghost reply: ExecReply)
      modifies cluster
      ensures var ref := PodRef(DefaultNamespace(podNamespace, namespace), podName);
        && cluster.trace == old(cluster.trace) + [ExecCall(ref, command, tty, reply)]
        && cluster.pods == old(cluster.pods)
        && stdout == reply.stdout && stderr == reply.stderr
        && r == StreamOutcome(reply.failure)
        && (ref !in old(cluster.pods) ==> r == Fail(StreamFailed + NotFound(ref)))
    {
      var ns := if podNamespace == "" then namespace else podNamespace;
      var ref := PodRef(ns, podName);
      var answer := cluster.Exec(ref, command, tty);
      reply := answer;
      stdout, stderr := answer.stdout, answer.stderr;
      r := StreamOutcome(answer.failure);
    }

    /** Run `command` with a terminal and return its output, or an error carrying its stderr. */
    method ExecCommand(podName: string, podNamespace: string, command: seq<string>)
      returns (r: Result<string>, ghost reply: ExecReply)
      modifies cluster
      ensures var ref := PodRef(DefaultNamespace(podNamespace, namespace), podName);
        && cluster.trace == old(cluster.trace) + [ExecCall(ref, command, true, reply)]
        && cluster.pods == old(cluster.pods)
        && r == ShapeExec(reply)
        && (ref !in old(cluster.pods) ==> r.Err?)
    {
      var ns := if podNamespace == "" then namespace else podNamespace;
      var outcome, stdout, stderr;
      outcome, stdout, stderr, reply := ExecInPod(podName, ns, command, true);
      if outcome.Fail? {
        return Err(ExecFailed + outcome.error + StderrFollows + stderr), reply;
      }
      r := Ok(stdout);
    }

    /**
     * Run the commands in the pod one after another, collecting their outputs and
     * stopping at the first that fails; the outputs gathered so far are returned
     * with the error.
     */
    method RunCommands(podName: string, podNamespace: string, commands: seq<seq<string>>)
      returns (results: seq<string>, err: Option<string>, ghost replies: seq<ExecReply>)
      modifies cluster
      ensures |replies| <= |commands| && |results| <= |replies|
      ensures var ref := PodRef(DefaultNamespace(podNamespace, namespace), podName);
        cluster.trace == old(cluster.trace) + ExecCalls(ref, commands[..|replies|], replies)
      ensures cluster.pods == old(cluster.pods)
      ensures forall i :: 0 <= i < |results| ==> replies[i].failure.None? && results[i] == replies[i].stdout
      ensures err.None? <==> |results| == |replies| == |commands|
      ensures err.Some? ==>
                |replies| == |results| + 1 && replies[|results|].failure.Some?
                && err.value == CommandFailed + ShapeExec(replies[|results|]).error
    {
      ghost var ref := PodRef(DefaultNamespace(podNamespace, namespace), podName);
      results, err, replies := [], None, [];
      var i := 0;
      while i < |commands|
        invariant 0 <= i <= |commands|
        invariant |replies| == i && |results| == i
        invariant forall k :: 0 <= k < i ==> replies[k].failure.None? && results[k] == replies[k].stdout
        invariant cluster.trace == old(cluster.trace) + ExecCalls(ref, commands[..i], replies)
        invariant cluster.pods == old(cluster.pods)
      {
        var out;
        ghost var reply;
        out, reply := ExecCommand(podName, podNamespace, commands[i]);
        assert commands[..i + 1][..i] == commands[..i] && (replies + [reply])[..i] == replies;
        replies := replies + [reply];
        if out.Err? {
          err := Some(CommandFailed + out.error);
          return;
        }
        results := results + [out.value];
        i := i + 1;
      }
      assert commands[..i] == commands;
    }

    /**
     * The part of CreateAndRunPod after the pod was accepted: wait up to five
     * minutes for it to be ready, then run the commands one after another,
     * stopping at the first that fails. When `cleanup` is set, every exit issues
     * one (non-forced) delete of the pod, as the last call, the way the deferred
     * delete does.
     */
    method AwaitAndRun(pod: PodObject, commands: seq<seq<string>>, cleanup: bool)
      returns (results: seq<string>, err: Option<string>,
               ghost answers: seq<Status>, ghost replies: seq<ExecReply>, ghost deleted: bool)
      modifies cluster
      ensures RunReport(commands, answers, results, err, replies)
      ensures var ref := PodRef(DefaultNamespace(pod.namespace, namespace), pod.name);
        cluster.trace == old(cluster.trace) + GetCalls(ref, answers) + ExecCalls(ref, commands[..|replies|], replies)
                         + (if cleanup then [DeleteCall(ref, DeleteOptions(None, None), deleted)] else [])
    ensures deleted ==> cleanup
    ensures var ref := PodRef(DefaultNamespace(pod.namespace, namespace), pod.name);
      && OnlyAt(old(cluster.pods), cluster.pods, ref)
      && (deleted ==> ref in old(cluster.pods))
      && (ref in cluster.pods <==> ref in old(cluster.pods) && !deleted)
      && (ref in cluster.pods ==> cluster.pods[ref].pod == old(cluster.pods)[ref].pod)
    {
      results, replies, deleted := [], [], false;
      ghost var ref := PodRef(DefaultNamespace(pod.namespace, namespace), pod.name);
      ghost var script := Script(cluster.pods, ref);
      ghost var trace0, pods0 := cluster.trace, cluster.pods;
      var ready := WaitForPodReady(pod.name, pod.namespace, RunPodReadyTimeout);
      answers := Wait(script, PollBudget(RunPodReadyTimeout)).answers;
      OnlyAtWithScript(pods0, ref, Wait(script, PollBudget(RunPodReadyTimeout)).rest);
      ghost var pods1 := cluster.pods;
      ReadyVerdict(script, RunPodReadyTimeout, pod.name, ref.namespace, ready, answers);
      ghost var trace1 := cluster.trace;
      if ready.Fail? {
        NotReadyReport(commands, answers, ready.error);
        err := Some(NotReadyFailed + ready.error);
        assert cluster.trace == trace1 + ExecCalls(ref, commands[..0], []) by {
          assert ExecCalls(ref, commands[..0], []) == [];
        }
      } else {
        results, err, replies := RunCommands(pod.name, pod.namespace, commands);
        ReadyReport(commands, answers, results, err, replies);
      }
      ghost var trace2 := cluster.trace;
      assert trace2 == trace0 + GetCalls(ref, answers) + ExecCalls(ref, commands[..|replies|], replies);
      assert cluster.pods == pods1;
      if cleanup {
        var d := DeletePod(pod.name, pod.namespace);
        deleted := d.Pass?;
        if deleted {
          OnlyAtThen(pods0, pods1, cluster.pods, ref);
        }
      }
    }

    /**
     * Create the pod and, once it was accepted, wait for it, run the commands and
     * (with `cleanup`) delete it again. The ghost results record what the cluster
     * answered: whether the create was accepted, the readiness answers, the exec
     * replies and whether the delete went through. A refused create is reported
     * with its "failed to create pod" wrapping applied twice.
     */
    method CreateAndRunPod(spec: PodSpec, commands: seq<seq<string>>, cleanup: bool)
      returns (results: seq<string>, err: Option<string>,
               ghost created: bool, ghost answers: seq<Status>, ghost replies: seq<ExecReply>, ghost deleted: bool)
      modifies cluster
      ensures |replies| <= |commands| && |results| <= |replies|
      ensures var pod := BuildPod(spec, namespace); var ref := RefOf(pod);
        cluster.trace == old(cluster.trace) + [CreateCall(pod, created)]
          + (if created then
               GetCalls(ref, answers) + ExecCalls(ref, commands[..|replies|], replies)
               + (if cleanup then [DeleteCall(ref, DeleteOptions(None, None), deleted)] else [])
             else [])
      ensures !created ==> answers == [] && replies == [] && results == [] && err.Some?
                           && HasPrefix(err.value, CreateFailed + CreateFailed)
      ensures created ==> RunReport(commands, answers, results, err, replies)
      ensures !created ==> cluster.pods == old(cluster.pods) && !deleted
      ensures deleted ==> created && cleanup
      ensures created ==>
                var pod := BuildPod(spec, namespace); var ref := RefOf(pod);
                && ref !in old(cluster.pods)
                && OnlyAt(old(cluster.pods), cluster.pods, ref)
                && (ref in cluster.pods <==> !deleted)
                && (ref in cluster.pods ==> cluster.pods[ref].pod == pod)
    {
      var c := CreatePod(spec);
      created := c.Ok?;
      if c.Err? {
        err := Some(CreateFailed + c.error);
        PrefixOfPrefixed(CreateFailed, CreateFailed, c.error);
        return [], err, false, [], [], false;
      }
      var pod := c.value;
      ghost var trace1, pods1 := cluster.trace, cluster.pods;
      ghost var ref := RefOf(pod);
      assert OnlyAt(old(cluster.pods), pods1, ref);
      results, err, answers, replies, deleted := AwaitAndRun(pod, commands, cleanup);
      OnlyAtThen(old(cluster.pods), pods1, cluster.pods, ref);
      assert ref == PodRef(DefaultNamespace(pod.namespace, namespace), pod.name);
      Regroup(old(cluster.trace) + [CreateCall(pod, true)], GetCalls(ref, answers),
        ExecCalls(ref, commands[..|replies|], replies),
        if cleanup then [DeleteCall(ref, DeleteOptions(None, None), deleted)] else []);
    }
  }

  /**
   * Build a client over `cluster`. It fails when no configuration can be loaded,
   * and when no clientset can be built from the one loaded, each with its own
   * error; otherwise the client's namespace is the one given, or "default".
   */
  method NewClient(cluster: Cluster, namespace: string) returns (r: Result<Client>)
    ensures cluster.Configured() <==> r.Ok?
    ensures r.Ok? ==> fresh(r.value) && r.value.cluster == cluster
                      && r.value.namespace == DefaultNamespace(namespace, DefaultNs)
                      && r.value.namespace != ""
    ensures !cluster.loadsConfig ==> r.Err? && HasPrefix(r.error, ConfigFailed)
    ensures cluster.loadsConfig && !cluster.buildsClient ==> r.Err? && HasPrefix(r.error, ClientFailed)
    ensures r.Err? ==> HasPrefix(r.error, SetupFailed(cluster))
  {
    if !cluster.loadsConfig {
      var reason: string := *;
      PrefixOfConcat(ConfigFailed, reason);
      return Err(ConfigFailed + reason);
    }
    if !cluster.buildsClient {
      var reason: string := *;
      PrefixOfConcat(ClientFailed, reason);
      return Err(ClientFailed + reason);
    }
    var ns := if namespace == "" then DefaultNs else namespace;
    var client := new Client(cluster, ns);
    r := Ok(client);
  }
}
