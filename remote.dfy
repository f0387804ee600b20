/**
 * The remote Kubernetes cluster, seen from the sandbox code: a map from pod to pod
 * record and the primitive API operations on it. The API server, the kubelet and the
 * exec/log streams are outside the program, so the operations here are oracles:
 * what the environment answers is left open (a nondeterministic choice), what the
 * answer does to the pod map is stated, and every call is appended to `trace`
 * together with the answer it got. Callers' contracts speak of that trace.
 */
module Remote {
  import opened Wrappers

  datatype PodRef = PodRef(namespace: string, name: string)

  /** A container of a pod; `None` for a command or argument list that was not set. */
  datatype Container = Container(name: string, image: string, command: Option<seq<string>>, args: Option<seq<string>>)

  /** The pod object submitted to the API server. */
  datatype PodObject = PodObject(
    name: string,
    namespace: string,
    labels: map<string, string>,
    restartPolicy: string,
    containers: seq<Container>)

  function RefOf(pod: PodObject): PodRef {
    PodRef(pod.namespace, pod.name)
  }

  /** One answer to a GET of a pod: its Ready condition is True, it is not, or the GET failed. */
  datatype Status = Ready | NotReady | Failed(reason: string)

  /** One Read of a log stream: the bytes it delivered and the error it returned with them. */
  datatype Chunk = Chunk(data: string, err: Option<string>)

  /** What one exec round trip produced: the captured stdout and stderr, and the stream's error. */
  datatype ExecReply = ExecReply(stdout: string, stderr: string, failure: Option<string>)

  /** The part of the API's DeleteOptions that the client sets. */
  datatype DeleteOptions = DeleteOptions(gracePeriodSeconds: Option<int>, propagationPolicy: Option<string>)

  /**
   * A pod as the cluster holds it: the object submitted, the answers the next GETs of it
   * will give (once they run out, it keeps answering NotReady) and its log, read by read.
   */
  datatype PodRecord = PodRecord(pod: PodObject, readiness: seq<Status>, logs: seq<Chunk>)

  /** One call to the API server, with the answer it got. */
  datatype Call =
    | CreateCall(pod: PodObject, accepted: bool)
    | GetCall(ref: PodRef, answer: Status)
    | DeleteCall(ref: PodRef, options: DeleteOptions, deleted: bool)
    | LogsCall(ref: PodRef, streamed: bool)
    | ExecCall(ref: PodRef, command: seq<string>, tty: bool, reply: ExecReply)

  function NotFound(ref: PodRef): string {
    "pods \"" + ref.name + "\" not found"
  }

  /** The answer the next GET gives, given the answers still scripted. */
  function Head(script: seq<Status>): Status {
    if script == [] then NotReady else script[0]
  }

  /** The answers still scripted after one more GET. */
  function Tail(script: seq<Status>): (rest: seq<Status>)
    ensures |rest| == if script == [] then 0 else |script| - 1
  {
    if script == [] then [] else script[1..]
  }

  /** The GET calls that received `answers`, in order. */
  function GetCalls(ref: PodRef, answers: seq<Status>): (calls: seq<Call>)
    ensures |calls| == |answers|
  {
    if answers == [] then []
    else GetCalls(ref, answers[..|answers| - 1]) + [GetCall(ref, answers[|answers| - 1])]
  }

  /** One more GET appends one more call. */
  lemma GetCallsSnoc(ref: PodRef, answers: seq<Status>, answer: Status)
    ensures GetCalls(ref, answers + [answer]) == GetCalls(ref, answers) + [GetCall(ref, answer)]
  {
    assert (answers + [answer])[..|answers|] == answers;
  }

  /** The exec calls that sent `commands` with a terminal and received `replies`, in order. */
  function ExecCalls(ref: PodRef, commands: seq<seq<string>>, replies: seq<ExecReply>): (calls: seq<Call>)
    requires |commands| == |replies|
    ensures |calls| == |commands|
  {
    if commands == [] then []
    else ExecCalls(ref, commands[..|commands| - 1], replies[..|replies| - 1])
         + [ExecCall(ref, commands[|commands| - 1], true, replies[|replies| - 1])]
  }

  /** One more exec appends one more call. */
  lemma ExecCallsSnoc(ref: PodRef, commands: seq<seq<string>>, replies: seq<ExecReply>, command: seq<string>, reply: ExecReply)
    requires |commands| == |replies|
    ensures ExecCalls(ref, commands + [command], replies + [reply]) == ExecCalls(ref, commands, replies) + [ExecCall(ref, command, true, reply)]
  {
    assert (commands + [command])[..|commands|] == commands;
    assert (replies + [reply])[..|replies|] == replies;
  }

  /** The answers the next GETs of `ref` give; a missing pod answers "not found". */
  function Script(pods: map<PodRef, PodRecord>, ref: PodRef): seq<Status> {
    if ref in pods then pods[ref].readiness else [Failed(NotFound(ref))]
  }

  /** The pod map with the answers still scripted for `ref` replaced by `script`; a missing pod stays missing. */
  function WithScript(pods: map<PodRef, PodRecord>, ref: PodRef, script: seq<Status>): (r: map<PodRef, PodRecord>)
    ensures r.Keys == pods.Keys
    ensures ref in pods ==> Script(r, ref) == script && r[ref].pod == pods[ref].pod && r[ref].logs == pods[ref].logs
  {
    if ref in pods then pods[ref := pods[ref].(readiness := script)] else pods
  }

  /** Replacing the script twice keeps the second. */
  lemma WithScriptTwice(pods: map<PodRef, PodRecord>, ref: PodRef, first: seq<Status>, second: seq<Status>)
    ensures WithScript(WithScript(pods, ref, first), ref, second) == WithScript(pods, ref, second)
  {
  }

  /**
   * `after` differs from `before` at most in the pod `ref`: no other pod appeared
   * or went, and every other pod is as it was.
   */
  ghost predicate OnlyAt(before: map<PodRef, PodRecord>, after: map<PodRef, PodRecord>, ref: PodRef) {
    && (forall p :: p in before && p != ref ==> p in after && after[p] == before[p])
    && (forall p :: p in after && p != ref ==> p in before)
  }

  /** Changes confined to one pod stay confined to it when they follow one another. */
  lemma OnlyAtThen(a: map<PodRef, PodRecord>, b: map<PodRef, PodRecord>, c: map<PodRef, PodRecord>, ref: PodRef)
    requires OnlyAt(a, b, ref) && OnlyAt(b, c, ref)
    ensures OnlyAt(a, c, ref)
  {
  }

  /** Replacing a pod's scripted answers touches only that pod, and keeps it where it was. */
  lemma OnlyAtWithScript(pods: map<PodRef, PodRecord>, ref: PodRef, script: seq<Status>)
    ensures OnlyAt(pods, WithScript(pods, ref, script), ref)
    ensures ref in WithScript(pods, ref, script) <==> ref in pods
    ensures ref in pods ==> WithScript(pods, ref, script)[ref].pod == pods[ref].pod
  {
  }

  class Cluster {
    /** Whether a kubeconfig or an in-cluster configuration can be loaded. */
    const loadsConfig: bool
    /** Whether a clientset can be built from that configuration. */
    const buildsClient: bool
    var pods: map<PodRef, PodRecord>
    var trace: seq<Call>

    constructor (loadsConfig: bool, buildsClient: bool)
      ensures this.loadsConfig == loadsConfig && this.buildsClient == buildsClient
      ensures pods == map[] && trace == []
    {
      this.loadsConfig := loadsConfig;
      this.buildsClient := buildsClient;
      pods := map[];
      trace := [];
    }

    /** A client can be set up against this cluster: the configuration loads and a clientset is built from it. */
    predicate Configured() {
      loadsConfig && buildsClient
    }

    /** Submit a pod. It is refused if one of that name exists, and may be refused for other reasons. */
    method Create(pod: PodObject) returns (r: Result<PodObject>)
      modifies this
      ensures r.Ok? ==> RefOf(pod) !in old(pods) && r.value == pod
      ensures r.Ok? ==> RefOf(pod) in pods && pods[RefOf(pod)].pod == pod
                        && pods == old(pods)[RefOf(pod) := pods[RefOf(pod)]]
      ensures r.Err? ==> pods == old(pods)
      ensures trace == old(trace) + [CreateCall(pod, r.Ok?)]
    {
      var ref := RefOf(pod);
      var refused: bool := *;
      if ref in pods {
        r := Err("pods \"" + pod.name + "\" already exists");
      } else if refused {
        var reason: string := *;
        r := Err(reason);
      } else {
        var readiness: seq<Status> := *;
        var logs: seq<Chunk> := *;
        pods := pods[ref := PodRecord(pod, readiness, logs)];
        r := Ok(pod);
      }
      trace := trace + [CreateCall(pod, r.Ok?)];
    }

    /** GET a pod: the next scripted answer, or "not found". */
    method Get(ref: PodRef) returns (answer: Status)
      modifies this
      ensures answer == Head(Script(old(pods), ref))
      ensures pods == WithScript(old(pods), ref, Tail(Script(old(pods), ref)))
      ensures trace == old(trace) + [GetCall(ref, answer)]
    {
      answer := Head(Script(pods, ref));
      if ref in pods {
        pods := pods[ref := pods[ref].(readiness := Tail(pods[ref].readiness))];
      }
      trace := trace + [GetCall(ref, answer)];
    }

    /** DELETE a pod. A missing pod is an error; an existing one may also fail to go. */
    method Delete(ref: PodRef, options: DeleteOptions) returns (r: Outcome)
      modifies this
      ensures ref !in old(pods) ==> r == Fail(NotFound(ref))
      ensures r.Pass? ==> ref in old(pods) && pods == old(pods) - {ref}
      ensures r.Fail? ==> pods == old(pods)
      ensures trace == old(trace) + [DeleteCall(ref, options, r.Pass?)]
    {
      var refused: bool := *;
      if ref !in pods {
        r := Fail(NotFound(ref));
      } else if refused {
        var reason: string := *;
        r := Fail(reason);
      } else {
        pods := pods - {ref};
        r := Pass;
      }
      trace := trace + [DeleteCall(ref, options, r.Pass?)];
    }

    /** Open the log stream of a pod. */
    method OpenLogs(ref: PodRef) returns (r: Result<LogStream>)
      modifies this
      ensures ref !in pods ==> r == Err(NotFound(ref))
      ensures r.Ok? ==> ref in pods && fresh(r.value) && r.value.remaining == pods[ref].logs
      ensures pods == old(pods)
      ensures trace == old(trace) + [LogsCall(ref, r.Ok?)]
    {
      var refused: bool := *;
      if ref !in pods {
        r := Err(NotFound(ref));
      } else if refused {
        var reason: string := *;
        r := Err(reason);
      } else {
        var stream := new LogStream(pods[ref].logs);
        r := Ok(stream);
      }
      trace := trace + [LogsCall(ref, r.Ok?)];
    }

    /**
     * Run `command` in the pod over an exec stream. What it prints and whether the
     * stream fails are up to the environment; a missing pod always fails.
     */
    method Exec(ref: PodRef, command: seq<string>, tty: bool) returns (reply: ExecReply)
      modifies this
      ensures ref !in pods ==> reply == ExecReply("", "", Some(NotFound(ref)))
      ensures pods == old(pods)
      ensures trace == old(trace) + [ExecCall(ref, command, tty, reply)]
    {
      if ref !in pods {
        reply := ExecReply("", "", Some(NotFound(ref)));
      } else {
        reply := *;
      }
      trace := trace + [ExecCall(ref, command, tty, reply)];
    }
  }

  /** An open log stream: what the remaining Reads will return. */
  class LogStream {
    var remaining: seq<Chunk>

    constructor (chunks: seq<Chunk>)
      ensures remaining == chunks
    {
      remaining := chunks;
    }

    /** One Read: the next chunk, or zero bytes and end of file once the stream is drained. */
    method Read() returns (c: Chunk)
      modifies this
      ensures old(remaining) == [] ==> c == Chunk("", Some("EOF")) && remaining == []
      ensures old(remaining) != [] ==> c == old(remaining)[0] && remaining == old(remaining)[1..]
    {
      if remaining == [] {
        c := Chunk("", Some("EOF"));
      } else {
        c := remaining[0];
        remaining := remaining[1..];
      }
    }
  }
}
