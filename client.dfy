/**
 * The execution client (`TAOSClient` and `TaosSqlResponse` in server.py).
 * The REST driver is an opaque oracle from a statement to a reply or a failure; the
 * `Connection` object also keeps a log of every statement that reached it, so that what
 * the guard keeps away from the database can be stated.
 */
module Client {
  import opened Wrappers
  import opened Guard

  /** A cell of a result row, as the REST driver's JSON decodes it. A float is carried
      by the text Python's `str()` gives it. */
  datatype Value = VNull | VBool(b: bool) | VInt(i: int) | VStr(s: string) | VFloat(repr: string)

  type Row = seq<Value>

  /** One entry of `column_meta`: column name, column type and column length. */
  datatype ColumnMeta = ColumnMeta(name: string, typ: string, length: int)

  /** What the driver answers; a protocol version may leave out any field. */
  datatype RawResponse = RawResponse(
    status: Option<string>,
    head: Option<seq<string>>,
    columnMeta: Option<seq<ColumnMeta>>,
    data: Option<seq<Row>>,
    rows: Option<int>)

  /** `TaosSqlResponse`: the fixed five-field shape every tool returns. */
  datatype Response = Response(
    status: string,
    head: seq<string>,
    columnMeta: seq<ColumnMeta>,
    data: seq<Row>,
    rows: int)

  /** The driver either answers or raises with a message. */
  type DriverReply = Result<RawResponse, string>

  /** The exceptions that leave a tool: the guard's and the missing-target `ValueError`,
      a failure raised by the driver, and the `IndexError` of indexing an empty row. */
  datatype Error = SecurityRestriction | MissingTarget | DriverFailure(message: string) | IndexOutOfRange

  const MissingTargetMessage: string := "Either stable_name or table_name must be specified"

  /** `str(e)` for each kind of exception. */
  function ErrorText(e: Error): string {
    match e
    case SecurityRestriction => SecurityMessage
    case MissingTarget => MissingTargetMessage
    case DriverFailure(m) => m
    case IndexOutOfRange => "list index out of range"
  }

  function Digit(d: nat): char
    requires d < 10
  {
    "0123456789"[d]
  }

  function NatToString(n: nat): (r: string)
    ensures r != []
    decreases n
  {
    if n < 10 then [Digit(n)] else NatToString(n / 10) + [Digit(n % 10)]
  }

  /** `str(i)` of a Python int: decimal digits, with a leading minus sign when negative. */
  function IntToString(i: int): string {
    if i < 0 then "-" + NatToString(-i) else NatToString(i)
  }

  /** How an f-string renders a cell. */
  function Show(v: Value): string {
    match v
    case VNull => "None"
    case VBool(b) => if b then "True" else "False"
    case VInt(i) => IntToString(i)
    case VStr(s) => s
    case VFloat(repr) => repr
  }

  /** The normalisation in `execute_sql`: each field the driver sent is kept, each one it
      left out gets its default. */
  function Normalize(raw: RawResponse): Response {
    Response(
      raw.status.GetOr(""),
      raw.head.GetOr([]),
      raw.columnMeta.GetOr([]),
      raw.data.GetOr([]),
      raw.rows.GetOr(-1))
  }

  /** A reply that carries every field. */
  function Complete(resp: Response): RawResponse {
    RawResponse(Some(resp.status), Some(resp.head), Some(resp.columnMeta), Some(resp.data), Some(resp.rows))
  }

  /** Fields the driver sent pass through unchanged. */
  lemma NormalizeKeepsPresentFields(resp: Response)
    ensures Normalize(Complete(resp)) == resp
  {
  }

  /** A reply without any field becomes status "", head, column_meta and data empty, rows -1. */
  lemma NormalizeDefaults()
    ensures Normalize(RawResponse(None, None, None, None, None)) == Response("", [], [], [], -1)
  {
  }

  /** Each field is normalised on its own: leaving one field out changes that field only. */
  lemma NormalizeFieldwise(raw: RawResponse)
    ensures Normalize(raw.(status := None)) == Normalize(raw).(status := "")
    ensures Normalize(raw.(head := None)) == Normalize(raw).(head := [])
    ensures Normalize(raw.(columnMeta := None)) == Normalize(raw).(columnMeta := [])
    ensures Normalize(raw.(data := None)) == Normalize(raw).(data := [])
    ensures Normalize(raw.(rows := None)) == Normalize(raw).(rows := -1)
  {
  }

  /** The database as the core sees it: a deterministic answer to each statement. */
  type Oracle = string -> DriverReply

  /** The driver's part of `execute_sql`: its failure re-raised, or its reply normalised. */
  function Answer(reply: Oracle, sql: string): Result<Response, Error> {
    match reply(sql)
    case Err(m) => Err(DriverFailure(m))
    case Ok(raw) => Ok(Normalize(raw))
  }

  /** The effect of `execute_sql` on an unchanged database: the guard first, then the driver. */
  function Execute(reply: Oracle, sql: string): (r: Result<Response, Error>)
    ensures ValidateSqlStmt(sql).Reject? ==> r == Err(SecurityRestriction)
    ensures ValidateSqlStmt(sql).Pass? && reply(sql).Err? ==> r == Err(DriverFailure(reply(sql).error))
    ensures ValidateSqlStmt(sql).Pass? && reply(sql).Ok? ==> r == Ok(Normalize(reply(sql).value))
  {
    if ValidateSqlStmt(sql).Reject? then Err(SecurityRestriction) else Answer(reply, sql)
  }

  /** A refused statement gets the same answer whatever the database holds: it is never consulted. */
  lemma RefusedIndependentOfDatabase(reply1: Oracle, reply2: Oracle, sql: string)
    requires ValidateSqlStmt(sql).Reject?
    ensures Execute(reply1, sql) == Execute(reply2, sql) == Err(SecurityRestriction)
  {
  }

  /** The statements that reach the driver when `sql` is executed. */
  function Reaching(sql: string): (r: seq<string>)
    ensures r == [] <==> Denied(sql)
    ensures r != [] ==> r == [sql]
  {
    if ValidateSqlStmt(sql).Reject? then [] else [sql]
  }

  /** The outcome of a run of statements together with what reached the driver, in order. */
  datatype Trace<T> = Trace(value: T, sent: seq<string>)

  /** Statements sent one batch after another, regrouped. */
  lemma Regroup(s: seq<string>, a: seq<string>, b: seq<string>, c: seq<string>, d: seq<string>)
    ensures s + a + b + c + d == s + (a + b + c + d)
    ensures s + a + b + c == s + (a + b + c)
    ensures s + a + b == s + (a + b)
  {
  }

  function ExecRun(reply: Oracle, sql: string): Trace<Result<Response, Error>> {
    Trace(Execute(reply, sql), Reaching(sql))
  }

  /** A statement that the guard lets through: the driver's answer, and the statement itself
      as the one thing sent. */
  function Asked(reply: Oracle, sql: string): Trace<Result<Response, Error>> {
    Trace(Answer(reply, sql), [sql])
  }

  /** A statement led by SELECT, SHOW, DESCRIBE or USE is executed as if there were no guard. */
  lemma ReadOnlyRunsUnguarded(reply: Oracle, sql: string)
    requires ReadOnly(sql)
    ensures ExecRun(reply, sql) == Asked(reply, sql)
  {
    ReadOnlyLeadPasses(sql);
  }

  /** The REST driver (`RestClient`). `received` records every statement it was sent. */
  class Connection {
    const reply: Oracle
    ghost var received: seq<string>

    constructor (reply: Oracle)
      ensures this.reply == reply && received == []
    {
      this.reply := reply;
      received := [];
    }

    /** `client.sql(stmt)`. */
    method Sql(stmt: string) returns (r: DriverReply)
      modifies this
      ensures r == reply(stmt)
      ensures received == old(received) + [stmt]
    {
      r := reply(stmt);
      received := received + [stmt];
    }
  }

  /** `TAOSClient`: the configured database and the driver connection. */
  class TaosClient {
    const database: string
    const conn: Connection

    constructor (database: string, conn: Connection)
      ensures this.database == database && this.conn == conn
    {
      this.database := database;
      this.conn := conn;
    }

    /** `execute_sql`: a refused statement raises before the driver is called and leaves
        the driver's log as it was; any other reaches the driver exactly once, and its
        reply is normalised or its failure re-raised. */
    method ExecuteSql(sqlStmt: string) returns (r: Result<Response, Error>)
      modifies conn
      ensures r == Execute(conn.reply, sqlStmt)
      ensures conn.received == old(conn.received) + Reaching(sqlStmt)
      ensures Denied(sqlStmt) ==> r == Err(SecurityRestriction) && conn.received == old(conn.received)
    {
      if ValidateSqlStmt(sqlStmt).Reject? {
        return Err(SecurityRestriction);
      }
      var raw := conn.Sql(sqlStmt);
      match raw
      case Err(m) => r := Err(DriverFailure(m));
      case Ok(resp) => r := Ok(Normalize(resp));
    }

    /** `execute_sql` on a statement led by a read-only verb, which is how every tool other
        than the free-form query calls it: the statement reaches the driver exactly once. */
    method Query(sqlStmt: string) returns (r: Result<Response, Error>)
      requires ReadOnly(sqlStmt)
      modifies conn
      ensures r == Answer(conn.reply, sqlStmt)
      ensures conn.received == old(conn.received) + [sqlStmt]
    {
      ReadOnlyRunsUnguarded(conn.reply, sqlStmt);
      r := ExecuteSql(sqlStmt);
    }
  }
}
