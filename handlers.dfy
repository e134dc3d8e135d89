/**
 * Request validation, statement construction and replication-path
 * construction of the mutating handlers of master/main.go (createDB, dropDB,
 * createTable, insertRecord, updateRecord, deleteRecord) and of the read-only
 * selectRecords.
 *
 * Requests are taken as already decoded. The storage engine is an oracle
 * `exec` from statements to results; the base64 decoder and url.QueryEscape
 * are parameters. A handler's Reply records the status it writes, the
 * statement it executed (if any) and what it hands to the replicator (if
 * anything).
 */
module Handlers {
  import opened Wrappers
  import Replication

  const StatusBadRequest: nat := 400
  const StatusInternalServerError: nat := 500

  datatype ExecResult = ExecOk | ExecError(err: string)

  /** A JSON record value: a string, a number (only its sign matters here), or anything else. */
  datatype JsonValue = JString(s: string) | JNumber(n: int) | JOther

  /** An argument bound to a "?" placeholder. */
  datatype Arg = Text(s: string) | Raw(v: JsonValue)

  datatype Statement = Statement(sql: string, args: seq<Arg>)

  datatype Column = Column(name: string, dataType: string)

  datatype CreateTableRequest = CreateTableRequest(dbname: string, table: string, schema: string, columns: seq<Column>)
  datatype InsertRequest = InsertRequest(dbname: string, table: string, values: string, records: seq<(string, JsonValue)>)
  datatype UpdateRequest = UpdateRequest(dbname: string, table: string, setClause: string, where: string)
  datatype DeleteRequest = DeleteRequest(dbname: string, table: string, where: string)

  /** The data a POST replication marshals. */
  datatype ReplicaData =
    | FullInsert(insert: InsertRequest)
    | RecordsInsert(dbname: string, table: string, records: seq<(string, JsonValue)>)
    | Update(update: UpdateRequest)
    | Delete(delete: DeleteRequest)

  datatype ReplicaCall = ReplicateGet(path: string) | ReplicateJson(path: string, data: ReplicaData)

  datatype Reply = Reply(status: nat, message: string, executed: Option<Statement>, replication: Option<ReplicaCall>)

  /**
   * The ordering every mutating handler keeps: a rejection runs no statement
   * and replicates nothing; every request that is not rejected runs its
   * statement; a successful statement replies 200 and starts replication, a
   * failed one replies 500 and replicates nothing.
   */
  predicate ExecThenReplicateOrder(r: Reply, exec: Statement -> ExecResult) {
    && (r.status == StatusBadRequest ==> r.executed.None? && r.replication.None?)
    && (r.status != StatusBadRequest ==> r.executed.Some?)
    && (r.executed.Some? ==> (exec(r.executed.value).ExecOk? <==> r.status == Replication.StatusOK))
    && (r.executed.Some? && exec(r.executed.value).ExecError? ==> r.status == StatusInternalServerError)
    && (r.replication.Some? <==> r.status == Replication.StatusOK)
    && (r.replication.Some? ==> r.executed.Some? && exec(r.executed.value).ExecOk?)
  }

  function Reject(message: string): Reply {
    Reply(StatusBadRequest, message, None, None)
  }

  /** Run the statement; on success reply 200 and replicate, otherwise reply 500 with the error. */
  function ExecThenReplicate(stmt: Statement, exec: Statement -> ExecResult, failure: string, success: string,
                             rep: ReplicaCall): (r: Reply)
    ensures r.executed == Some(stmt) && ExecThenReplicateOrder(r, exec)
    ensures r.replication.Some? ==> r.replication.value == rep
  {
    match exec(stmt)
    case ExecError(e) => Reply(StatusInternalServerError, failure + e, Some(stmt), None)
    case ExecOk => Reply(Replication.StatusOK, success, Some(stmt), Some(rep))
  }

  // ---------------------------------------------------------------- createDB, dropDB

  function CreateDB(name: string, exec: Statement -> ExecResult): (r: Reply)
    ensures ExecThenReplicateOrder(r, exec)
    ensures r.status == StatusBadRequest <==> name == ""
    ensures r.executed.Some? ==> r.executed.value == Statement("CREATE DATABASE IF NOT EXISTS " + name, [])
    ensures r.replication.Some? ==> r.replication.value == ReplicateGet("/replicate/db?name=" + name)
  {
    if name == "" then Reject("Database name is required")
    else ExecThenReplicate(Statement("CREATE DATABASE IF NOT EXISTS " + name, []), exec,
                           "Failed to create database: ", "Database created successfully",
                           ReplicateGet("/replicate/db?name=" + name))
  }

  function DropDB(name: string, exec: Statement -> ExecResult): (r: Reply)
    ensures ExecThenReplicateOrder(r, exec)
    ensures r.status == StatusBadRequest <==> name == ""
    ensures r.executed.Some? ==> r.executed.value == Statement("DROP DATABASE IF EXISTS " + name, [])
    ensures r.replication.Some? ==> r.replication.value == ReplicateGet("/replicate/dropdb?name=" + name)
  {
    if name == "" then Reject("Database name is required")
    else ExecThenReplicate(Statement("DROP DATABASE IF EXISTS " + name, []), exec,
                           "Failed to drop database: ", "Database dropped successfully",
                           ReplicateGet("/replicate/dropdb?name=" + name))
  }

  // ---------------------------------------------------------------- createTable

  const PrimaryKeyColumn: string := "Id INT AUTO_INCREMENT PRIMARY KEY"

  function ColumnDef(c: Column): string {
    "`" + c.name + "` " + c.dataType
  }

  /** The column definitions, in input order. */
  function ColumnDefs(cols: seq<Column>): seq<string> {
    seq(|cols|, k requires 0 <= k < |cols| => ColumnDef(cols[k]))
  }

  /** strings.Join. */
  function Join(xs: seq<string>, sep: string): string {
    if xs == [] then ""
    else if |xs| == 1 then xs[0]
    else xs[0] + sep + Join(xs[1..], sep)
  }

  /** The schema sent to the replicas when columns are given. */
  function ReplicatedSchema(cols: seq<Column>): string {
    PrimaryKeyColumn + ", " + Join(ColumnDefs(cols), ", ")
  }

  function TablePath(dbname: string, table: string, escapedSchema: string): string {
    "/replicate/table?dbname=" + dbname + "&table=" + table + "&schema=" + escapedSchema
  }

  /** The append loop that builds columnsDef. */
  method BuildColumnsDef(cols: seq<Column>) returns (defs: seq<string>)
    ensures |defs| == |cols|
    ensures forall k :: 0 <= k < |cols| ==> defs[k] == "`" + cols[k].name + "` " + cols[k].dataType
    ensures defs == ColumnDefs(cols)
  {
    defs := [];
    for i := 0 to |cols|
      invariant |defs| == i
      invariant forall k :: 0 <= k < i ==> defs[k] == ColumnDef(cols[k])
    {
      defs := defs + ["`" + cols[i].name + "` " + cols[i].dataType];
    }
  }

  function CreateTable(req: CreateTableRequest, exec: Statement -> ExecResult, queryEscape: string -> string): (r: Reply)
    ensures ExecThenReplicateOrder(r, exec)
    ensures r.status == StatusBadRequest <==>
      req.dbname == "" || req.table == "" || (req.columns == [] && req.schema == "")
    ensures req.columns != [] && r.executed.Some? ==>
      r.executed.value.sql == "CREATE TABLE IF NOT EXISTS `" + req.dbname + "`.`" + req.table + "` (" + ReplicatedSchema(req.columns) + ")"
    ensures req.columns != [] && r.replication.Some? ==>
      r.replication.value == ReplicateGet(TablePath(req.dbname, req.table, queryEscape(ReplicatedSchema(req.columns))))
    ensures req.columns == [] && r.executed.Some? ==>
      r.executed.value.sql == "CREATE TABLE IF NOT EXISTS " + req.dbname + "." + req.table + " (" + req.schema + ")"
    ensures req.columns == [] && r.replication.Some? ==>
      r.replication.value == ReplicateGet(TablePath(req.dbname, req.table, queryEscape(req.schema)))
  {
    if req.dbname == "" || req.table == "" then
      Reject("Database name and table name are required")
    else if |req.columns| == 0 then
      if req.schema == "" then
        Reject("Either columns in request body or schema parameter is required")
      else
        ExecThenReplicate(
          Statement("CREATE TABLE IF NOT EXISTS " + req.dbname + "." + req.table + " (" + req.schema + ")", []),
          exec, "Failed to create table: ", "Table created successfully",
          ReplicateGet(TablePath(req.dbname, req.table, queryEscape(req.schema))))
    else
      var schema := ReplicatedSchema(req.columns);
      ExecThenReplicate(
        Statement("CREATE TABLE IF NOT EXISTS `" + req.dbname + "`.`" + req.table + "` (" + schema + ")", []),
        exec, "Failed to create table: ", "Table created successfully",
        ReplicateGet(TablePath(req.dbname, req.table, queryEscape(schema))))
  }

  // ---------------------------------------------------------------- insertRecord

  /** One character of the class [a-zA-Z0-9\s\-], where \s is Go's [\t\n\f\r ]. */
  predicate IsValueChar(c: char) {
    || ('a' <= c <= 'z') || ('A' <= c <= 'Z') || ('0' <= c <= '9')
    || c == '\t' || c == '\n' || c == '\U{C}' || c == '\r' || c == ' '
    || c == '-'
  }

  /** The anchored pattern ^[a-zA-Z0-9\s\-]{1,255}$. */
  predicate MatchesValuePattern(s: string) {
    1 <= |s| <= 255 && forall i :: 0 <= i < |s| ==> IsValueChar(s[i])
  }

  function InvalidCharsMessage(col: string): string {
    "Invalid value for " + col + ". Must be valid characters (letters, numbers, spaces, or hyphens)."
  }

  function InvalidBase64Message(col: string): string {
    "Invalid Base64 value for " + col
  }

  function NonPositiveMessage(col: string): string {
    "Invalid value for " + col + ". Must be a positive number."
  }

  /** Why the value of column `col` is rejected, if it is. */
  function ValueError(col: string, v: JsonValue, decode: string -> Option<string>): Option<string> {
    match v
    case JString(s) =>
      if |s| > 0 && !MatchesValuePattern(s) then Some(InvalidCharsMessage(col))
      else if decode(s).None? then Some(InvalidBase64Message(col))
      else None
    case JNumber(n) => if n <= 0 then Some(NonPositiveMessage(col)) else None
    case JOther => None
  }

  predicate AllValid(records: seq<(string, JsonValue)>, decode: string -> Option<string>) {
    forall j :: 0 <= j < |records| ==> ValueError(records[j].0, records[j].1, decode).None?
  }

  /** Index of the first rejected record, or |records| when all are accepted. */
  function FirstInvalid(records: seq<(string, JsonValue)>, decode: string -> Option<string>): (k: nat)
    ensures k <= |records|
    ensures forall j :: 0 <= j < k ==> ValueError(records[j].0, records[j].1, decode).None?
    ensures k < |records| ==> ValueError(records[k].0, records[k].1, decode).Some?
  {
    if records == [] then 0
    else if ValueError(records[0].0, records[0].1, decode).Some? then 0
    else 1 + FirstInvalid(records[1..], decode)
  }

  /** The argument bound to one record's placeholder: the decoded text for a string, the value itself otherwise. */
  function RecordArg(v: JsonValue, decode: string -> Option<string>): Arg
    requires v.JString? ==> decode(v.s).Some?
  {
    if v.JString? then Text(decode(v.s).value) else Raw(v)
  }

  /** The arguments the records loop appends as written: two for a string record, one otherwise. */
  function RecordArgsAsWritten(v: JsonValue, decode: string -> Option<string>): seq<Arg>
    requires v.JString? ==> decode(v.s).Some?
  {
    if v.JString? then [Text(decode(v.s).value), Raw(v)] else [Raw(v)]
  }

  function ArgsOf(records: seq<(string, JsonValue)>, decode: string -> Option<string>): seq<Arg>
    requires AllValid(records, decode)
  {
    if records == [] then []
    else ArgsOf(records[..|records| - 1], decode) + [RecordArg(records[|records| - 1].1, decode)]
  }

  function ArgsAsWrittenOf(records: seq<(string, JsonValue)>, decode: string -> Option<string>): seq<Arg>
    requires AllValid(records, decode)
  {
    if records == [] then []
    else ArgsAsWrittenOf(records[..|records| - 1], decode) + RecordArgsAsWritten(records[|records| - 1].1, decode)
  }

  function StringCount(records: seq<(string, JsonValue)>): nat {
    if records == [] then 0
    else StringCount(records[..|records| - 1]) + (if records[|records| - 1].1.JString? then 1 else 0)
  }

  function QuotedColumns(records: seq<(string, JsonValue)>): seq<string> {
    seq(|records|, k requires 0 <= k < |records| => "`" + records[k].0 + "`")
  }

  function Placeholders(n: nat): seq<string> {
    seq(n, _ => "?")
  }

  /** Columns, placeholders and arguments of a parameterised insert. */
  datatype InsertParts = InsertParts(columns: seq<string>, placeholders: seq<string>, args: seq<Arg>)

  /** With the corrected arguments, every placeholder gets exactly one argument. */
  lemma {:induction false} ArgsMatchPlaceholders(records: seq<(string, JsonValue)>, decode: string -> Option<string>)
    requires AllValid(records, decode)
    ensures |ArgsOf(records, decode)| == |records|
    ensures forall k :: 0 <= k < |records| ==> ArgsOf(records, decode)[k] == RecordArg(records[k].1, decode)
  {
    if records != [] {
      var init := records[..|records| - 1];
      assert AllValid(init, decode) by {
        forall j | 0 <= j < |init| ensures ValueError(init[j].0, init[j].1, decode).None? {
          assert init[j] == records[j];
        }
      }
      ArgsMatchPlaceholders(init, decode);
    }
  }

  /** As written, a string record contributes two arguments to one placeholder. */
  lemma {:induction false} AsWrittenArgsCount(records: seq<(string, JsonValue)>, decode: string -> Option<string>)
    requires AllValid(records, decode)
    ensures |ArgsAsWrittenOf(records, decode)| == |records| + StringCount(records)
  {
    if records != [] {
      var init := records[..|records| - 1];
      assert AllValid(init, decode) by {
        forall j | 0 <= j < |init| ensures ValueError(init[j].0, init[j].1, decode).None? {
          assert init[j] == records[j];
        }
      }
      AsWrittenArgsCount(init, decode);
    }
  }

  /** A single valid string record: one placeholder, but two arguments as written. */
  lemma StringRecordArgMismatch(decode: string -> Option<string>)
    requires decode("QUJD").Some?
    ensures var records := [("name", JString("QUJD"))];
      AllValid(records, decode) &&
      |Placeholders(|records|)| == 1 && |ArgsAsWrittenOf(records, decode)| == 2 &&
      |ArgsOf(records, decode)| == 1
  {
    var records := [("name", JString("QUJD"))];
    assert MatchesValuePattern("QUJD");
    assert AllValid(records, decode);
    AsWrittenArgsCount(records, decode);
    ArgsMatchPlaceholders(records, decode);
    assert records[..0] == [];
  }

  /**
   * The records path of insertRecord: the first rejected record decides the
   * error; otherwise one backquoted column, one "?" and one argument per record.
   */
  function RecordInsert(records: seq<(string, JsonValue)>, decode: string -> Option<string>): (r: Result<InsertParts, string>)
    ensures r.Failure? <==> !AllValid(records, decode)
    ensures r.Failure? ==>
      var k := FirstInvalid(records, decode);
      k < |records| && ValueError(records[k].0, records[k].1, decode) == Some(r.error)
    ensures r.Success? ==>
      |r.value.columns| == |records| && |r.value.placeholders| == |records| && |r.value.args| == |records|
    ensures r.Success? ==> forall k :: 0 <= k < |records| ==>
      r.value.columns[k] == "`" + records[k].0 + "`" && r.value.placeholders[k] == "?" &&
      r.value.args[k] == RecordArg(records[k].1, decode)
  {
    var k := FirstInvalid(records, decode);
    if k < |records| then
      Failure(ValueError(records[k].0, records[k].1, decode).value)
    else
      ArgsMatchPlaceholders(records, decode);
      Success(InsertParts(QuotedColumns(records), Placeholders(|records|), ArgsOf(records, decode)))
  }

  /** FirstInvalid is pinned down by its contract. */
  lemma FirstInvalidAt(records: seq<(string, JsonValue)>, decode: string -> Option<string>, i: nat)
    requires i <= |records|
    requires forall j :: 0 <= j < i ==> ValueError(records[j].0, records[j].1, decode).None?
    requires i < |records| ==> ValueError(records[i].0, records[i].1, decode).Some?
    ensures FirstInvalid(records, decode) == i
  {
  }

  /** The type switch of the records loop for one value: its error, or the argument it binds. */
  method CheckValue(col: string, value: JsonValue, decode: string -> Option<string>) returns (err: Option<string>, arg: Arg)
    ensures err.None? <==>
      (value.JString? ==> (value.s == [] || MatchesValuePattern(value.s)) && decode(value.s).Some?) &&
      (value.JNumber? ==> value.n > 0)
    ensures value.JString? && value.s != [] && !MatchesValuePattern(value.s) ==> err == Some(InvalidCharsMessage(col))
    ensures value.JString? && (value.s == [] || MatchesValuePattern(value.s)) && decode(value.s).None? ==>
      err == Some(InvalidBase64Message(col))
    ensures value.JNumber? && value.n <= 0 ==> err == Some(NonPositiveMessage(col))
    ensures err.None? && value.JString? ==> arg == Text(decode(value.s).value)
    ensures err.None? && !value.JString? ==> arg == Raw(value)
    ensures err == ValueError(col, value, decode)
  {
    arg := Raw(value);
    err := None;
    match value
    case JString(s) =>
      if |s| > 0 && !MatchesValuePattern(s) {
        err := Some(InvalidCharsMessage(col));
        return;
      }
      var decoded := decode(s);
      if decoded.None? {
        err := Some(InvalidBase64Message(col));
        return;
      }
      arg := Text(decoded.value);
    case JNumber(n) =>
      if n <= 0 {
        err := Some(NonPositiveMessage(col));
      }
    case JOther =>
  }

  /** The append loop over the records (with the corrected arguments). */
  method BuildRecordInsert(records: seq<(string, JsonValue)>, decode: string -> Option<string>)
    returns (r: Result<InsertParts, string>)
    ensures r == RecordInsert(records, decode)
  {
    var columns: seq<string> := [];
    var placeholders: seq<string> := [];
    var args: seq<Arg> := [];
    for i := 0 to |records|
      invariant forall j :: 0 <= j < i ==> ValueError(records[j].0, records[j].1, decode).None?
      invariant |columns| == i && forall k :: 0 <= k < i ==> columns[k] == "`" + records[k].0 + "`"
      invariant placeholders == Placeholders(i)
      invariant |args| == i && forall k :: 0 <= k < i ==> args[k] == RecordArg(records[k].1, decode)
    {
      var (col, value) := records[i];
      columns := columns + ["`" + col + "`"];
      placeholders := placeholders + ["?"];
      var err, arg := CheckValue(col, value, decode);
      if err.Some? {
        FirstInvalidAt(records, decode, i);
        return Failure(err.value);
      }
      args := args + [arg];
    }
    FirstInvalidAt(records, decode, |records|);
    ArgsMatchPlaceholders(records, decode);
    assert columns == QuotedColumns(records);
    assert args == ArgsOf(records, decode);
    return Success(InsertParts(columns, placeholders, args));
  }

  const InsertPath: string := "/replicate/insert"

  function InsertRecord(req: InsertRequest, exec: Statement -> ExecResult, decode: string -> Option<string>): (r: Reply)
    ensures ExecThenReplicateOrder(r, exec)
    ensures r.status == StatusBadRequest <==>
      req.dbname == "" || req.table == "" ||
      (req.values == "" && (req.records == [] || !AllValid(req.records, decode)))
    ensures r.replication.Some? ==> r.replication.value.ReplicateJson? && r.replication.value.path == InsertPath
    ensures req.values != "" && r.executed.Some? ==>
      r.executed.value == Statement("INSERT INTO " + req.dbname + "." + req.table + " VALUES (" + req.values + ")", [])
    ensures req.values != "" && r.replication.Some? ==> r.replication.value.data == FullInsert(req)
    ensures req.values == "" && r.executed.Some? ==>
      r.executed.value.sql == "INSERT INTO `" + req.dbname + "`.`" + req.table + "` (" +
        Join(QuotedColumns(req.records), ", ") + ") VALUES (" + Join(Placeholders(|req.records|), ", ") + ")" &&
      |r.executed.value.args| == |req.records| &&
      forall k :: 0 <= k < |req.records| ==> r.executed.value.args[k] == RecordArg(req.records[k].1, decode)
    ensures req.values == "" && r.replication.Some? ==>
      r.replication.value.data == RecordsInsert(req.dbname, req.table, req.records)
  {
    if req.dbname == "" || req.table == "" then
      Reject("Database name and table name are required")
    else if req.values != "" then
      ExecThenReplicate(
        Statement("INSERT INTO " + req.dbname + "." + req.table + " VALUES (" + req.values + ")", []),
        exec, "Failed to insert record: ", "Record inserted successfully",
        ReplicateJson(InsertPath, FullInsert(req)))
    else if |req.records| > 0 then
      match RecordInsert(req.records, decode)
      case Failure(message) => Reject(message)
      case Success(parts) =>
        ExecThenReplicate(
          Statement("INSERT INTO `" + req.dbname + "`.`" + req.table + "` (" + Join(parts.columns, ", ") +
                    ") VALUES (" + Join(parts.placeholders, ", ") + ")", parts.args),
          exec, "Failed to insert record: ", "Record inserted successfully",
          ReplicateJson(InsertPath, RecordsInsert(req.dbname, req.table, req.records)))
    else
      Reject("Either 'values' or 'records' is required")
  }

  // ---------------------------------------------------------------- selectRecords, updateRecord, deleteRecord

  /** selectRecords up to the query: it never replicates. Row scanning is not modelled. */
  function SelectRecords(dbname: string, table: string, query: Statement -> ExecResult): (r: Reply)
    ensures r.replication.None?
    ensures r.status == StatusBadRequest <==> dbname == "" || table == ""
    ensures r.executed.Some? ==> r.executed.value == Statement("SELECT * FROM " + dbname + "." + table, [])
    ensures r.status == Replication.StatusOK <==> r.executed.Some? && query(r.executed.value).ExecOk?
    ensures r.status != StatusBadRequest ==> r.executed.Some?
    ensures r.executed.Some? && query(r.executed.value).ExecError? ==> r.status == StatusInternalServerError
  {
    if dbname == "" || table == "" then
      Reject("Both dbname and table parameters are required")
    else
      var stmt := Statement("SELECT * FROM " + dbname + "." + table, []);
      match query(stmt)
      case ExecError(e) => Reply(StatusInternalServerError, "Failed to query records: " + e, Some(stmt), None)
      case ExecOk => Reply(Replication.StatusOK, "", Some(stmt), None)
  }

  function UpdateRecord(req: UpdateRequest, exec: Statement -> ExecResult): (r: Reply)
    ensures ExecThenReplicateOrder(r, exec)
    ensures r.status == StatusBadRequest <==> req.dbname == "" || req.table == "" || req.setClause == "" || req.where == ""
    ensures r.executed.Some? ==>
      r.executed.value == Statement("UPDATE " + req.dbname + "." + req.table + " SET " + req.setClause + " WHERE " + req.where, [])
    ensures r.replication.Some? ==> r.replication.value == ReplicateJson("/replicate/update", Update(req))
  {
    if req.dbname == "" || req.table == "" || req.setClause == "" || req.where == "" then
      Reject("All fields (dbname, table, set, where) are required")
    else
      ExecThenReplicate(
        Statement("UPDATE " + req.dbname + "." + req.table + " SET " + req.setClause + " WHERE " + req.where, []),
        exec, "Failed to update record: ", "Record updated successfully",
        ReplicateJson("/replicate/update", Update(req)))
  }

  function DeleteRecord(req: DeleteRequest, exec: Statement -> ExecResult): (r: Reply)
    ensures ExecThenReplicateOrder(r, exec)
    ensures r.status == StatusBadRequest <==> req.dbname == "" || req.table == "" || req.where == ""
    ensures r.executed.Some? ==>
      r.executed.value == Statement("DELETE FROM " + req.dbname + "." + req.table + " WHERE " + req.where, [])
    ensures r.replication.Some? ==> r.replication.value == ReplicateJson("/replicate/delete", Delete(req))
  {
    if req.dbname == "" || req.table == "" || req.where == "" then
      Reject("All fields (dbname, table, where) are required")
    else
      ExecThenReplicate(
        Statement("DELETE FROM " + req.dbname + "." + req.table + " WHERE " + req.where, []),
        exec, "Failed to delete record: ", "Record deleted successfully",
        ReplicateJson("/replicate/delete", Delete(req)))
  }

  // ---------------------------------------------------------------- hand-off to the replicator

  /**
   * The `go replicateToSlaves(...)` / `go replicateToSlavesJSON(...)` step
   * after a handler replied: one task per replica when the handler
   * replicates (and, for a POST, the data could be marshalled), none otherwise.
   */
  method Dispatch(r: Reply, marshal: ReplicaData -> Option<string>, oracle: seq<seq<Replication.Response>>)
    returns (tasks: seq<Replication.TaskReport>)
    requires |oracle| == |Replication.SlaveAddresses|
    requires forall j :: 0 <= j < |oracle| ==> |oracle[j]| >= Replication.MaxRetries
    ensures r.replication.None? ==> tasks == []
    ensures r.replication.Some? && r.replication.value.ReplicateGet? ==>
      |tasks| == |Replication.SlaveAddresses| &&
      forall j :: 0 <= j < |tasks| ==>
        tasks[j] == Replication.TaskSpec(Replication.Get(r.replication.value.path), Replication.SlaveAddresses[j], oracle[j])
    ensures r.replication.Some? && r.replication.value.ReplicateJson? ==>
      |tasks| == (if marshal(r.replication.value.data).Some? then |Replication.SlaveAddresses| else 0)
    ensures r.replication.Some? && r.replication.value.ReplicateJson? && marshal(r.replication.value.data).Some? ==>
      forall j :: 0 <= j < |tasks| ==>
        tasks[j] == Replication.TaskSpec(
          Replication.Post(r.replication.value.path, marshal(r.replication.value.data).value),
          Replication.SlaveAddresses[j], oracle[j])
  {
    match r.replication
    case None =>
      tasks := [];
    case Some(ReplicateGet(path)) =>
      tasks := Replication.ReplicateToSlaves(path, oracle);
    case Some(ReplicateJson(path, data)) =>
      tasks := Replication.ReplicateToSlavesJSON(path, marshal(data), oracle);
  }
}
