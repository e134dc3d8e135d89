/**
 * The per-replica replication task and the fan-out to every replica
 * (replicateToSlaves and replicateToSlavesJSON in master/main.go).
 *
 * Each task is a sequential loop over an outcome oracle: the i-th element of
 * `responses` is what the i-th delivery attempt to that replica returns.
 * Waits are recorded as values (seconds) instead of being slept.
 */
module Replication {
  import opened Wrappers

  /** Delivery attempts per replica (maxRetries). */
  const MaxRetries: nat := 3
  /** Wait in seconds before the first retry; it doubles after every wait. */
  const BaseDelay: nat := 2
  /** The only HTTP status that counts as a delivered replication. */
  const StatusOK: nat := 200

  /** The replicas the writer fans out to (slaveAddresses). */
  const SlaveAddresses: seq<string> :=
    ["http://192.168.1.4:8002", "http://192.168.1.8:8005", "http://192.168.1.6:8004", "http://192.168.1.7:8006"]

  /** What one delivery attempt returns: a client error (including a timeout) or a status code. */
  datatype Response = TransportError | HttpStatus(code: int)

  predicate Succeeded(r: Response) {
    r.HttpStatus? && r.code == StatusOK
  }

  /** What is replicated: a GET of a path, or a POST of a marshalled JSON body to a path. */
  datatype Payload = Get(path: string) | Post(path: string, body: string)

  datatype Request = Request(verb: string, url: string, contentType: string, body: string)

  /** The HTTP request one attempt issues to `address`. */
  function RequestFor(p: Payload, address: string): Request {
    match p
    case Get(path) => Request("GET", address + path, "", "")
    case Post(path, body) => Request("POST", address + path, "application/json", body)
  }

  datatype Outcome = Delivered | Exhausted

  /** The observable result of one replica task: attempts made, waits taken, final outcome. */
  datatype TaskReport = TaskReport(target: string, request: Request, attempts: nat, delays: seq<nat>, outcome: Outcome)

  function Pow2(n: nat): (r: nat)
    ensures r >= 1
  {
    if n == 0 then 1 else 2 * Pow2(n - 1)
  }

  /** The waits before retries 1..n. */
  function Backoff(n: nat): (ds: seq<nat>)
    ensures |ds| == n
    ensures n > 0 ==> ds[0] == BaseDelay
    ensures forall k :: 0 < k < n ==> ds[k] == 2 * ds[k - 1]
  {
    seq(n, k requires 0 <= k => BaseDelay * Pow2(k))
  }

  function Sum(ds: seq<nat>): nat {
    if ds == [] then 0 else Sum(ds[..|ds| - 1]) + ds[|ds| - 1]
  }

  /** Index of the first successful response, or |rs| when none succeeds. */
  function FirstSuccess(rs: seq<Response>): (k: nat)
    ensures k <= |rs|
    ensures forall j :: 0 <= j < k ==> !Succeeded(rs[j])
    ensures k < |rs| ==> Succeeded(rs[k])
  {
    if rs == [] then 0
    else if Succeeded(rs[0]) then 0
    else 1 + FirstSuccess(rs[1..])
  }

  /**
   * Specification of one replica task: it stops right after the first
   * successful attempt among the first MaxRetries, and waits only between
   * attempts, never after the last one.
   */
  function TaskSpec(p: Payload, address: string, responses: seq<Response>): (t: TaskReport)
    requires |responses| >= MaxRetries
    ensures t.target == address && t.request == RequestFor(p, address)
    ensures 1 <= t.attempts <= MaxRetries
    ensures |t.delays| == t.attempts - 1
    ensures t.outcome == Delivered <==> exists j :: 0 <= j < MaxRetries && Succeeded(responses[j])
    ensures t.outcome == Delivered ==> Succeeded(responses[t.attempts - 1])
    ensures t.outcome == Exhausted ==> t.attempts == MaxRetries
    ensures forall j :: 0 <= j < t.attempts - 1 ==> !Succeeded(responses[j])
  {
    var k := FirstSuccess(responses[..MaxRetries]);
    if k < MaxRetries then
      TaskReport(address, RequestFor(p, address), k + 1, Backoff(k), Delivered)
    else
      TaskReport(address, RequestFor(p, address), MaxRetries, Backoff(MaxRetries - 1), Exhausted)
  }

  /** The retry loop of one replica task. */
  method RunTask(p: Payload, address: string, responses: seq<Response>) returns (t: TaskReport)
    requires |responses| >= MaxRetries
    ensures t == TaskSpec(p, address, responses)
  {
    var request := RequestFor(p, address);
    var retryDelay := BaseDelay;
    var delays: seq<nat> := [];
    var i := 0;
    while i < MaxRetries
      invariant 0 <= i <= MaxRetries
      invariant forall j :: 0 <= j < i ==> !Succeeded(responses[j])
      invariant delays == Backoff(if i < MaxRetries then i else MaxRetries - 1)
      invariant retryDelay == BaseDelay * Pow2(|delays|)
    {
      if Succeeded(responses[i]) {
        FirstSuccessAt(responses[..MaxRetries], i);
        return TaskReport(address, request, i + 1, delays, Delivered);
      }
      if i < MaxRetries - 1 {
        delays := delays + [retryDelay];
        retryDelay := retryDelay * 2;
      }
      i := i + 1;
    }
    FirstSuccessAt(responses[..MaxRetries], MaxRetries);
    return TaskReport(address, request, MaxRetries, delays, Exhausted);
  }

  /** FirstSuccess is pinned down by its contract. */
  lemma FirstSuccessAt(rs: seq<Response>, i: nat)
    requires i <= |rs|
    requires forall j :: 0 <= j < i ==> !Succeeded(rs[j])
    requires i < |rs| ==> Succeeded(rs[i])
    ensures FirstSuccess(rs) == i
  {
  }

  /** One task per replica, each driven independently by its own responses. */
  method FanOut(p: Payload, slaves: seq<string>, oracle: seq<seq<Response>>) returns (tasks: seq<TaskReport>)
    requires |oracle| == |slaves|
    requires forall j :: 0 <= j < |oracle| ==> |oracle[j]| >= MaxRetries
    ensures |tasks| == |slaves|
    ensures forall j :: 0 <= j < |slaves| ==> tasks[j] == TaskSpec(p, slaves[j], oracle[j])
  {
    tasks := [];
    var i := 0;
    while i < |slaves|
      invariant 0 <= i <= |slaves|
      invariant |tasks| == i
      invariant forall j :: 0 <= j < i ==> tasks[j] == TaskSpec(p, slaves[j], oracle[j])
    {
      var t := RunTask(p, slaves[i], oracle[i]);
      tasks := tasks + [t];
      i := i + 1;
    }
  }

  /** replicateToSlaves: a GET of `path` to every replica. */
  method ReplicateToSlaves(path: string, oracle: seq<seq<Response>>) returns (tasks: seq<TaskReport>)
    requires |oracle| == |SlaveAddresses|
    requires forall j :: 0 <= j < |oracle| ==> |oracle[j]| >= MaxRetries
    ensures |tasks| == |SlaveAddresses|
    ensures forall j :: 0 <= j < |tasks| ==>
      tasks[j].request == Request("GET", SlaveAddresses[j] + path, "", "") &&
      tasks[j] == TaskSpec(Get(path), SlaveAddresses[j], oracle[j])
  {
    tasks := FanOut(Get(path), SlaveAddresses, oracle);
  }

  /**
   * replicateToSlavesJSON: `marshalled` is the JSON encoding of the request,
   * or None when encoding failed, in which case nothing is sent.
   */
  method ReplicateToSlavesJSON(path: string, marshalled: Option<string>, oracle: seq<seq<Response>>)
    returns (tasks: seq<TaskReport>)
    requires |oracle| == |SlaveAddresses|
    requires forall j :: 0 <= j < |oracle| ==> |oracle[j]| >= MaxRetries
    ensures marshalled.None? ==> tasks == []
    ensures marshalled.Some? ==> |tasks| == |SlaveAddresses|
    ensures marshalled.Some? ==> forall j :: 0 <= j < |tasks| ==>
      tasks[j].request == Request("POST", SlaveAddresses[j] + path, "application/json", marshalled.value) &&
      tasks[j] == TaskSpec(Post(path, marshalled.value), SlaveAddresses[j], oracle[j])
  {
    if marshalled.None? {
      return [];
    }
    tasks := FanOut(Post(path, marshalled.value), SlaveAddresses, oracle);
  }

  /** The total wait for n retries is BaseDelay * (2^n - 1). */
  lemma {:induction false} BackoffTotal(n: nat)
    ensures Sum(Backoff(n)) == BaseDelay * (Pow2(n) - 1)
  {
    if n > 0 {
      BackoffTotal(n - 1);
      assert Backoff(n)[..n - 1] == Backoff(n - 1);
    }
  }

  /** A task that succeeds on attempt k waits only for the k - 1 retries before it. */
  lemma DeliveredOnAttempt(p: Payload, address: string, responses: seq<Response>, k: nat)
    requires |responses| >= MaxRetries
    requires 1 <= k <= MaxRetries && Succeeded(responses[k - 1])
    requires forall j :: 0 <= j < k - 1 ==> !Succeeded(responses[j])
    ensures var t := TaskSpec(p, address, responses);
      t.outcome == Delivered && t.attempts == k && t.delays == Backoff(k - 1) &&
      Sum(t.delays) == BaseDelay * (Pow2(k - 1) - 1)
  {
    FirstSuccessAt(responses[..MaxRetries], k - 1);
    BackoffTotal(k - 1);
  }

  /** A task whose every attempt fails makes three attempts, waits 2 then 4 seconds, 6 in all. */
  lemma AllAttemptsFail(p: Payload, address: string, responses: seq<Response>)
    requires |responses| >= MaxRetries
    requires forall j :: 0 <= j < MaxRetries ==> !Succeeded(responses[j])
    ensures var t := TaskSpec(p, address, responses);
      t.outcome == Exhausted && t.attempts == 3 && t.delays == [2, 4] && Sum(t.delays) == 6
  {
    FirstSuccessAt(responses[..MaxRetries], MaxRetries);
    BackoffTotal(MaxRetries - 1);
  }

  /**
   * One replica that answers at once and one that never answers: the first
   * task is delivered after one attempt and no wait, the second exhausted.
   */
  lemma OneOnlineOneUnreachable(path: string, body: string, online: string, offline: string)
    ensures var up := TaskSpec(Post(path, body), online, [HttpStatus(200), TransportError, TransportError]);
      up.outcome == Delivered && up.attempts == 1 && up.delays == []
    ensures var down := TaskSpec(Post(path, body), offline, [TransportError, HttpStatus(503), TransportError]);
      down.outcome == Exhausted && down.attempts == 3 && down.delays == [2, 4]
  {
    AllAttemptsFail(Post(path, body), offline, [TransportError, HttpStatus(503), TransportError]);
  }
}
