# Writer-side coordination of DDBProject's master server, in Dafny

This project models the coordination core of the master server in
`DDBProject/master/main.go`. The master is the writer of a single-writer,
multi-replica MySQL cluster. It applies every mutating request locally and
then replicates it, best-effort, to a fixed list of replicas ("slaves"). A
node that is not the writer probes the writer and runs a naive election when
the probe fails.

The model has three parts:

- `replication.dfy` (module `Replication`) covers the per-replica retry
  task. It makes at most 3 delivery attempts, waits 2 s and then 4 s between
  them, and counts only "no error and status 200" as success. The task is
  modelled once, for GET (`replicateToSlaves`) and POST
  (`replicateToSlavesJSON`) payloads, plus the fan-out of one task per
  replica address. `TaskSpec` is the specification: the first successful
  attempt, the waits before it, and the outcome (Delivered or Exhausted).
  The loop method `RunTask` is proved equal to it.
- `election.dfy` (module `Election`) covers the roster class `Roster`. It
  holds the globals `isMaster`, `masterAddress` and `electionInProgress`.
  Its methods are `PromoteToMaster`, `StartElection`, one health-check tick
  and the ticker loop. Each method is proved to follow a transition function
  on `RosterState` values. Lemmas relate runs of many ticks: the election
  flag is never cleared, at most one election runs, writer/address
  consistency is kept, and no promotion happens without the "8001" suffix.
- `handlers.dfy` (module `Handlers`) covers the request checks and the
  statement and replication-path construction of `createDB`, `dropDB`,
  `createTable`, `insertRecord`, `updateRecord`, `deleteRecord` and
  `selectRecords`. It also models the two `append` loops (column
  definitions and the records loop) and the hand-off of a handler's reply to
  the replicator.
- `wrappers.dfy` holds `Option` and `Result`.

The environment is replaced by parameters:

- The storage engine is a function `exec: Statement -> ExecResult`.
- Each delivery attempt and each liveness probe is an oracle value
  (`Response`, `Probe`).
- `base64.StdEncoding.DecodeString`, `url.QueryEscape` and `json.Marshal` are
  function parameters (`decode`, `queryEscape`, `marshal`).

The code behaves as follows, and the model does the same:

- Promotion does not clear `electionInProgress`, so at most one election runs per process.
- The retry schedule stops after 3 attempts, so only the 2 s and 4 s waits occur.
- The election criterion is a suffix test on `masterAddress`, not on the node's own identity.

## Model

| member | source | states |
|---|---|---|
| Replication.Backoff | DDBProject/master/main.go:471-488 | the n waits before retries start at 2 s and each is twice the previous one |
| Replication.FirstSuccess | DDBProject/master/main.go:473-482 | the index of the first attempt with no error and status 200; every earlier attempt failed |
| Replication.TaskSpec | DDBProject/master/main.go:469-491 | a task makes between 1 and 3 attempts; it is Delivered exactly when one of the first 3 responses is a 200, and then its last attempt is the first 200; every earlier attempt failed; Exhausted means 3 attempts; there is one wait fewer than attempts (no wait after the last attempt) |
| Replication.RunTask | DDBProject/master/main.go:470-490 | the retry loop (counter `i`, doubling `retryDelay`, early return on 200) yields exactly `TaskSpec` |
| Replication.FanOut | DDBProject/master/main.go:468-469 | one task per replica address, in list order, each following `TaskSpec` on its own responses |
| Replication.ReplicateToSlaves | DDBProject/master/main.go:467-493 | four tasks, each a GET of address + path following `TaskSpec` |
| Replication.ReplicateToSlavesJSON | DDBProject/master/main.go:495-527 | no task when marshalling fails; otherwise four tasks, each a POST of the JSON body to address + path |
| Replication.BackoffTotal | DDBProject/master/main.go:471-488 | n retries wait 2·(2^n − 1) seconds in total |
| Replication.DeliveredOnAttempt | DDBProject/master/main.go:473-488 | success on attempt k gives k attempts and only the k − 1 preceding waits, 2·(2^(k−1) − 1) seconds |
| Replication.AllAttemptsFail | DDBProject/master/main.go:473-490 | when every attempt errors or returns non-200, there are 3 attempts, waits of 2 and 4 seconds (6 in all), and the task is Exhausted |
| Replication.OneOnlineOneUnreachable | DDBProject/master/main.go:473-490 | a replica answering 200 at once is Delivered after 1 attempt with no wait; one that never succeeds is Exhausted after 3 attempts |
| Election.Roster.constructor | DDBProject/master/main.go:37-39 | the process starts as writer at http://localhost:8001 with no election in progress |
| Election.Roster.PromoteToMaster | DDBProject/master/main.go:543-547 | afterwards this node is writer at http://localhost:8001; the election flag is untouched |
| Election.Roster.StartElection | DDBProject/master/main.go:529-541 | no change when an election is in progress; otherwise the flag is raised and the node is promoted exactly when masterAddress ends with "8001" |
| Election.Roster.CheckMasterHealthTick | DDBProject/master/main.go:553-561 | a writer, or a probe that got any reply, changes nothing; a probe error on a non-writer runs startElection |
| Election.Roster.CheckMasterHealth | DDBProject/master/main.go:549-563 | the ticker loop leaves the roster in the state given by the tick function folded over the probe outcomes |
| Election.PromotionIdempotent | DDBProject/master/main.go:538-545 | promoting twice equals promoting once; the promoted address ends with "8001" again and is consistent with isMaster |
| Election.ElectionGuard | DDBProject/master/main.go:529-541 | the election guard is a no-op when the flag is up; afterwards the flag is always up; isMaster holds afterwards iff it held before or the guard passed with a "8001" suffix; the address changes only to the primary one |
| Election.TickFrame | DDBProject/master/main.go:554-559 | ticks on the writer and ticks whose probe got a status code leave all three globals unchanged; only a probe error starts an election |
| Election.TicksPreserveConsistency | DDBProject/master/main.go:543-559 | every run of ticks keeps "isMaster implies masterAddress is http://localhost:8001" |
| Election.ElectionFlagNeverCleared | DDBProject/master/main.go:529-533 | once electionInProgress is up, no run of ticks changes anything |
| Election.AtMostOneElection | DDBProject/master/main.go:529-533 | any run of ticks gets past the guard of startElection at most once, and never if the flag is already up |
| Election.WriterIsStable | DDBProject/master/main.go:554 | a writer's ticks change nothing and start no election |
| Election.StartedWriterNeverElects | DDBProject/master/main.go:37-39 | the master process, which starts as writer, never changes its roster through the health check |
| Election.NoPromotionWithoutSuffix | DDBProject/master/main.go:538-540 | a non-writer whose masterAddress does not end with "8001" is never promoted and keeps its masterAddress |
| Election.FailedProbePromotesPrimary | DDBProject/master/main.go:554-559 | a replica following http://localhost:8001 becomes writer on its first failed probe |
| Election.FailedProbeElsewhereDefers | DDBProject/master/main.go:529-541 | a replica following another address raises the flag, stays a replica, and never runs another election |
| Handlers.ExecThenReplicate | DDBProject/master/main.go:148-154 | the statement always runs; on success the reply is 200 and the given replication is started; on an exec error the reply is 500 and nothing is replicated |
| Handlers.CreateDB | DDBProject/master/main.go:141-157 | 400 iff the name is empty, and then nothing is executed or replicated; otherwise CREATE DATABASE IF NOT EXISTS <name> runs; on success the reply is 200 and GET /replicate/db?name=<name> is replicated; on an exec error the reply is 500 with no replication |
| Handlers.DropDB | DDBProject/master/main.go:159-175 | 400 iff the name is empty, and then nothing is executed or replicated; otherwise DROP DATABASE IF EXISTS <name> runs; on success the reply is 200 and GET /replicate/dropdb?name=<name> is replicated; on an exec error the reply is 500 with no replication |
| Handlers.BuildColumnsDef | DDBProject/master/main.go:220-222 | one "`name` type" definition per column, in input order |
| Handlers.CreateTable | DDBProject/master/main.go:177-251 | 400 iff dbname or table is empty, or there are neither columns nor a schema; every other request runs its CREATE TABLE and replicates exactly when it succeeds (200), else replies 500; with columns, the parenthesised part of the executed statement and the replicated (escaped) schema are the same string, "Id INT AUTO_INCREMENT PRIMARY KEY, " followed by the joined definitions; without columns the given schema is used for both |
| Handlers.FirstInvalid | DDBProject/master/main.go:289-316 | the index of the first record whose value is rejected; all earlier records pass |
| Handlers.CheckValue | DDBProject/master/main.go:294-318 | a value is accepted iff it is not a string, or is a string that is empty or matches [a-zA-Z0-9\s\-]{1,255} and decodes as base64, and it is not a number <= 0; a pattern failure reports the character message before any base64 check; a decoding failure reports the base64 message; a non-positive number reports the positive-number message; an accepted string binds its decoded text (corrected; as written the raw value is bound too), any other value binds itself |
| Handlers.RecordInsert | DDBProject/master/main.go:284-319 | fails iff some record is invalid, with the message of the first invalid one; otherwise exactly one backquoted column, one "?" and one argument per record, in record order |
| Handlers.BuildRecordInsert | DDBProject/master/main.go:285-319 | the append loop with its early rejections yields exactly `RecordInsert` |
| Handlers.ArgsMatchPlaceholders | DDBProject/master/main.go:309-318 | with the corrected loop, the k-th argument is the one bound by the k-th record and there are as many arguments as placeholders |
| Handlers.AsWrittenArgsCount | DDBProject/master/main.go:309-318 | as written, the loop binds (records + string records) arguments to one placeholder per record |
| Handlers.StringRecordArgMismatch | DDBProject/master/main.go:290-318 | a single valid string record gives one placeholder but two arguments as written, and one when corrected |
| Handlers.InsertRecord | DDBProject/master/main.go:253-348 | 400 iff dbname/table is empty, or there are no `values` and the records are empty or invalid; every other request runs its INSERT and replicates POST /replicate/insert exactly when it succeeds (200), else replies 500; a non-empty `values` is used in preference to records; the records statement lists the quoted columns and "?" placeholders, and the k-th argument is the one bound by the k-th record |
| Handlers.SelectRecords | DDBProject/master/main.go:349-363 | 400 iff dbname or table is empty; otherwise SELECT * FROM <dbname>.<table> runs; a query error replies 500; the reply is 200 iff the query succeeded; never replicates |
| Handlers.UpdateRecord | DDBProject/master/main.go:408-436 | 400 iff any of dbname, table, set, where is empty, and then nothing runs; otherwise the UPDATE runs; on success the reply is 200 and POST /replicate/update of the request is replicated; on an exec error the reply is 500 with no replication |
| Handlers.DeleteRecord | DDBProject/master/main.go:438-465 | 400 iff any of dbname, table, where is empty, and then nothing runs; otherwise the DELETE runs; on success the reply is 200 and POST /replicate/delete of the request is replicated; on an exec error the reply is 500 with no replication |
| Handlers.Dispatch | DDBProject/master/main.go:154-172 | the `go replicateToSlaves…`/`go replicateToSlavesJSON…` call of every mutating handler (lines 154, 172, 241-246, 282, 340, 433, 462): a reply that replicates by GET starts one task per replica, each a GET of the path following `TaskSpec`; a JSON replication whose data marshals starts one task per replica, each a POST of the marshalled data following `TaskSpec`, and none when marshalling fails; a reply without replication (rejections, failures, reads) starts none |

## Left out

- Goroutines, `time.Sleep`, the ticker and the 5-second HTTP client timeouts are not modelled. Each replica task is a sequential loop over a sequence of responses, and the retry waits are returned as values. The 2-second settling sleep in `startElection` and the 10-second ticker period are left out.
- The unsynchronised access to `isMaster`, `masterAddress` and `electionInProgress` from concurrent goroutines is a concurrency hazard. The class models the globals under sequential execution.
- Replication.RunTask: the response oracle must supply at least 3 responses, one per possible attempt. Responses beyond those consumed are ignored.
- Routing, CORS, the `/ping`, `/nodes` and `/is-master` endpoints, and response encoding are HTTP plumbing and are not modelled.
- Request JSON decoding is not modelled. That includes its "Invalid request body" 400 replies: handlers take already-decoded requests.
- SQL execution is the `exec` oracle. The row scanning and JSON encoding of `selectRecords` are not modelled.
- `json.Marshal` becomes the `marshal` parameter, where `None` is a marshalling error. `base64.StdEncoding.DecodeString` becomes `decode` and `url.QueryEscape` becomes `queryEscape`. The results of these functions are not interpreted.
- Handlers.CheckValue: JSON numbers are modelled as `int`, not `float64`. Only the sign test matters, but a fractional value such as 0.5 cannot be expressed.
- Go map iteration order in the records loop is not modelled. Records are a sequence of (column, value) pairs. Nothing is claimed about column order relative to the original map, and duplicate keys are not excluded.
- Handlers.CheckValue: its `arg` is the corrected one-argument binding, the decoded text for a string. The source also binds the raw value (see Findings).
- Handlers.InsertRecord, Handlers.RecordInsert and Handlers.BuildRecordInsert bind one argument per record: the decoded text for strings. The source appends both the decoded and the raw value (see Findings). `RecordArgsAsWritten`, `ArgsAsWrittenOf` and their lemmas keep the behaviour as written.
- `defer resp.Body.Close()` inside the retry loop and all logging are not modelled.
- The replicas' own `/replicate/...` endpoints are not part of this model.
- Election.Roster.CheckMasterHealthTick: the probe is an oracle outcome (`Probe`). The model does not record that it is a GET of masterAddress + "/ping" with a 5-second timeout.

## Findings

| source | as written | input that shows it | evidently intended | confidence | as-written member | corrected member |
|---|---|---|---|---|---|---|
| DDBProject/master/main.go:309-318 | a string record appends its decoded text and then, again, its raw value to `values`, beside a single "?" placeholder | records `{"name": "QUJD"}` (matches the pattern; valid base64): 1 placeholder, 2 arguments, so the parameterised insert is given the wrong number of arguments | each record binds exactly one argument, the decoded text for strings | high, not executed | Handlers.StringRecordArgMismatch | Handlers.ArgsMatchPlaceholders |
