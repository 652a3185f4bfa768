/**
 * The command queue of the control plane and the operations built on it: backups, restores, runtime
 * actions, log requests, deployment runs and connector syncs. Every transaction is one atomic step.
 */
module CommandStore {
  import opened Common

  // ---------------------------------------------------------------- rows

  datatype CommandStatus = Pending | Claimed | Succeeded | Failed
  datatype OperationStatus = OpPending | OpRunning | OpSucceeded | OpFailed

  datatype OperationKind = BackupKind | RestoreKind | RuntimeKind | LogsKind | RunKind
  datatype Action = Deploy | Rollback | Stop

  /** A command's type together with the payload fields the store reads back. */
  datatype CommandKind =
    | ForOperation(operation: OperationKind, id: Id)
    | ConnectorSync(connector: Id, revision: nat)
    | ConnectorRemove(connector: Id, revision: nat)
    | EntitySync      // compose.stack.sync, traefik.route.sync
    | OtherCommand

  datatype RuntimeReport = Connected | OriginUnhealthy | RuntimeStopped | Unreported

  /**
   * A result document: `output` is stdout and stderr, `logs`, `truncated` and `runtime` are the fields the store
   * looks at, and `body` stands for everything else, the structure of the document included.
   */
  datatype Result = Result(body: string, output: string, truncated: bool, logs: string, runtime: RuntimeReport)

  datatype Command = Command(agent: Id, kind: CommandKind, status: CommandStatus, result: Option<Result>,
                             createdAt: int, leaseUntil: Option<int>, attempts: nat)

  datatype Detail =
    | Backup(stack: Id)
    | Restore(stack: Id, source: Id)
    | Runtime(project: string, service: Option<string>)
    | Logs
    | Run(deployment: Id, revision: Id, prior: Option<Id>, action: Action)

  /** One row of stack_backups, stack_restores, runtime_operations, runtime_log_requests or deployment_runs. */
  datatype Operation = Operation(detail: Detail, agent: Id, command: Id, status: OperationStatus, ordinal: nat)

  datatype DeploymentStatus = NotDeployed | Deploying | Deployed | Stopping | StoppedDeployment | DeploymentFailed
  datatype Deployment = Deployment(agent: Id, current: Option<Id>, status: DeploymentStatus)

  datatype ConnectorStatus = SyncPending | SyncDeploying | SyncStopping | Active | SyncStopped | SyncFailed
  datatype Connector = Connector(agent: Id, enabled: bool, desired: nat, status: ConnectorStatus)

  datatype EventKind = BackupSucceededEvent | BackupFailedEvent | RuntimeSucceededEvent | RuntimeFailedEvent
                     | DeploymentSucceededEvent | DeploymentFailedEvent
  /** An operational event; `command` is the command whose transaction wrote it. */
  datatype Event = Event(command: Id, kind: EventKind)

  /** Rows that the modelled transactions only read. */
  datatype Inventory = Inventory(
    agents: map<Id, bool>,        // the enabled agents, and whether they are enrolled
    stacks: map<Id, Id>,          // enabled stacks and their agents
    revisions: map<Id, Id>)       // the revisions of enabled deployments, and those deployments

  datatype Db = Db(
    known: Inventory,
    deployments: map<Id, Deployment>,
    connectors: map<Id, Connector>,
    commands: map<Id, Command>,
    operations: map<Id, Operation>,
    events: seq<Event>,
    clock: nat)                   // ordinal of the next operation row

  predicate Enrolled(agents: map<Id, bool>, agent: Id) { agent in agents && agents[agent] }

  datatype Created = Made | AlreadyActive | Unavailable
  /** `Rejected`: the request or its transaction is refused, and nothing is written. */
  datatype Completion = Updated | Idempotent | Conflict | Missing | Rejected

  const STALE_RESULT := Result("The operation exceeded the 24-hour completion window.", "", false, "", Unreported)
  const MAXIMUM_RESULT := 262_144
  const LONG_LEASE := 7200
  const SHORT_LEASE := 600
  const CONNECTOR_WINDOW := 1800

  function KindOf(d: Detail): OperationKind
  {
    match d
    case Backup(_) => BackupKind
    case Restore(_, _) => RestoreKind
    case Runtime(_, _) => RuntimeKind
    case Logs => LogsKind
    case Run(_, _, _, _) => RunKind
  }

  predicate Terminal(s: CommandStatus) { s == Succeeded || s == Failed }
  predicate ActiveOp(s: OperationStatus) { s == OpPending || s == OpRunning }

  /** The status every operation row must show for its command's status. */
  function Mirror(s: CommandStatus): OperationStatus
  {
    match s
    case Pending => OpPending
    case Claimed => OpRunning
    case Succeeded => OpSucceeded
    case Failed => OpFailed
  }

  function Final(ok: bool): CommandStatus { if ok then Succeeded else Failed }

  // ---------------------------------------------------------------- creating operations

  function NewCommand(agent: Id, kind: CommandKind, now: int): Command
  {
    Command(agent, kind, Pending, None, now, None, 0)
  }

  function InsertOperation(db: Db, agent: Id, detail: Detail, cmd: Id, op: Id, now: int): Db
  {
    db.(commands := db.commands[cmd := NewCommand(agent, ForOperation(KindOf(detail), op), now)],
        operations := db.operations[op := Operation(detail, agent, cmd, OpPending, db.clock)],
        clock := db.clock + 1)
  }

  predicate OnStack(d: Detail, stack: Id)
  {
    match d
    case Backup(s) => s == stack
    case Restore(s, _) => s == stack
    case _ => false
  }

  predicate HasActiveStackOperation(operations: map<Id, Operation>, stack: Id)
  {
    exists o :: o in operations && OnStack(operations[o].detail, stack) && ActiveOp(operations[o].status)
  }

  function CreateBackup(db: Db, stack: Id, cmd: Id, op: Id, now: int): (Db, Created)
  {
    if stack !in db.known.stacks || db.known.stacks[stack] !in db.known.agents then (db, Unavailable)
    else if HasActiveStackOperation(db.operations, stack) then (db, AlreadyActive)
    else (InsertOperation(db, db.known.stacks[stack], Backup(stack), cmd, op, now), Made)
  }

  function CreateRestore(db: Db, source: Id, cmd: Id, op: Id, now: int): (Db, Created)
  {
    if source !in db.operations || !db.operations[source].detail.Backup? || db.operations[source].status != OpSucceeded
    then (db, Unavailable)
    else
      var backup := db.operations[source];
      if backup.detail.stack !in db.known.stacks || backup.agent !in db.known.agents then (db, Unavailable)
      else if HasActiveStackOperation(db.operations, backup.detail.stack) then (db, AlreadyActive)
      else (InsertOperation(db, backup.agent, Restore(backup.detail.stack, source), cmd, op, now), Made)
  }

  /** Two runtime operations overlap unless both name a service and the services differ. */
  predicate Overlap(a: Option<string>, b: Option<string>)
  {
    a.None? || b.None? || a == b
  }

  predicate HasActiveRuntime(operations: map<Id, Operation>, agent: Id, project: string, service: Option<string>)
  {
    exists o :: o in operations && operations[o].detail.Runtime? && operations[o].agent == agent
      && operations[o].detail.project == project && ActiveOp(operations[o].status)
      && Overlap(operations[o].detail.service, service)
  }

  function CreateRuntimeOperation(db: Db, agent: Id, project: string, service: Option<string>, cmd: Id, op: Id,
                                  now: int): (Db, Created)
  {
    if HasActiveRuntime(db.operations, agent, project, service) then (db, AlreadyActive)
    else if !Enrolled(db.known.agents, agent) then (db, Unavailable)
    else (InsertOperation(db, agent, Runtime(project, service), cmd, op, now), Made)
  }

  function CreateLogRequest(db: Db, agent: Id, cmd: Id, op: Id, now: int): (Db, Created)
  {
    if !Enrolled(db.known.agents, agent) then (db, Unavailable)
    else (InsertOperation(db, agent, Logs, cmd, op, now), Made)
  }

  predicate RunOf(o: Operation, deployment: Id) { o.detail.Run? && o.detail.deployment == deployment }

  predicate HasActiveRun(operations: map<Id, Operation>, deployment: Id)
  {
    exists o :: o in operations && RunOf(operations[o], deployment) && ActiveOp(operations[o].status)
  }

  /** The deployment is enabled, the revision is its own, and its agent is enrolled. */
  predicate Deployable(db: Db, deployment: Id, revision: Id)
  {
    && deployment in db.deployments && Enrolled(db.known.agents, db.deployments[deployment].agent)
    && revision in db.known.revisions && db.known.revisions[revision] == deployment
  }

  function CreateDeploymentRun(db: Db, deployment: Id, revision: Id, action: Action, cmd: Id, op: Id, now: int)
    : (Db, Created)
  {
    if !Deployable(db, deployment, revision) then (db, Unavailable)
    else if HasActiveRun(db.operations, deployment) then (db, AlreadyActive)
    else
      var d := db.deployments[deployment];
      var inserted := InsertOperation(db, d.agent, Run(deployment, revision, d.current, action), cmd, op, now);
      (var status := if action == Stop then Stopping else Deploying;
       inserted.(deployments := db.deployments[deployment := d.(status := status)]), Made)
  }

  // ---------------------------------------------------------------- connectors

  predicate PendingSync(c: Command, agent: Id, connector: Id)
  {
    c.agent == agent && c.status == Pending && c.kind.ConnectorSync? && c.kind.connector == connector
  }

  /** Redirects the waiting sync to the new revision, or queues one. */
  function QueueConnectorSync(db: Db, connector: Id, stopping: bool, cmd: Id, now: int): Db
    requires connector in db.connectors
  {
    var k := db.connectors[connector];
    var noted := db.(connectors :=
                     db.connectors[connector := k.(status := if stopping then SyncStopping else SyncPending)]);
    if exists c :: c in db.commands && PendingSync(db.commands[c], k.agent, connector)
    then noted.(commands := map c | c in db.commands ::
                  if PendingSync(db.commands[c], k.agent, connector)
                  then db.commands[c].(kind := ConnectorSync(connector, k.desired), createdAt := now)
                  else db.commands[c])
    else noted.(commands := db.commands[cmd := NewCommand(k.agent, ConnectorSync(connector, k.desired), now)])
  }

  function CreateConnector(db: Db, connector: Id, agent: Id, enabled: bool, accountOk: bool, cmd: Id, now: int): Db
    requires connector !in db.connectors
  {
    if !Enrolled(db.known.agents, agent) || !accountOk then db
    else
      var created := db.(connectors := db.connectors[connector := Connector(agent, enabled, 1, SyncPending)]);
      if enabled then QueueConnectorSync(created, connector, false, cmd, now) else created
  }

  /** Tells an agent that loses a connector to remove it. */
  function QueueRemoval(db: Db, connector: Id, target: Id, removeCmd: Id, now: int): Db
    requires connector in db.connectors
  {
    var k := db.connectors[connector];
    if target != k.agent
    then db.(commands := db.commands[removeCmd := NewCommand(k.agent, ConnectorRemove(connector, k.desired + 1), now)])
    else db
  }

  /** The row of an updated connector: a new revision, and a status that starts over. */
  function Revised(k: Connector, enabled: Option<bool>, agent: Option<Id>): Connector
  {
    var on := if enabled.Some? then enabled.value else k.enabled;
    Connector(if agent.Some? then agent.value else k.agent, on, k.desired + 1, if on then SyncPending else SyncStopping)
  }

  /** `identityOk` stands for the account and token-identity guards. */
  function UpdateConnector(db: Db, connector: Id, enabled: Option<bool>, agent: Option<Id>, identityOk: bool,
                           removeCmd: Id, syncCmd: Id, now: int): Db
  {
    if connector !in db.connectors then db
    else
      var row := Revised(db.connectors[connector], enabled, agent);
      if !Enrolled(db.known.agents, row.agent) || !identityOk then db
      else
        var cleared := QueueRemoval(db, connector, row.agent, removeCmd, now);
        QueueConnectorSync(cleared.(connectors := db.connectors[connector := row]), connector, !row.enabled, syncCmd,
                           now)
  }

  // ---------------------------------------------------------------- claiming

  predicate Claimable(c: Command, agent: Id, now: int)
  {
    && c.agent == agent
    && (c.status == Pending || (c.status == Claimed && c.leaseUntil.Some? && c.leaseUntil.value <= now))
  }

  function LeaseOf(kind: CommandKind): int
  {
    if kind.ForOperation?
      && (kind.operation == BackupKind || kind.operation == RestoreKind || kind.operation == RunKind)
    then LONG_LEASE else SHORT_LEASE
  }

  function ClaimOperation(operations: map<Id, Operation>, agent: Id, kind: OperationKind, o: Id): map<Id, Operation>
  {
    if o in operations && KindOf(operations[o].detail) == kind && operations[o].status == OpPending
       && (kind == BackupKind || kind == RestoreKind || operations[o].agent == agent)
    then operations[o := operations[o].(status := OpRunning)]
    else operations
  }

  function ClaimConnector(connectors: map<Id, Connector>, agent: Id, k: Id, revision: nat): map<Id, Connector>
  {
    if k in connectors && connectors[k].agent == agent && connectors[k].desired == revision
    then connectors[k := connectors[k].(status := if connectors[k].enabled then SyncDeploying else SyncStopping)]
    else connectors
  }

  /** One selected row of a claim. */
  function ClaimOne(db: Db, agent: Id, cmd: Id, now: int): Db
    requires cmd in db.commands
  {
    var c := db.commands[cmd];
    var leased := db.(commands :=
                      db.commands[cmd := c.(status := Claimed, leaseUntil := Some(now + LeaseOf(c.kind)), attempts :=
                                            c.attempts + 1)]);
    match c.kind
    case ForOperation(kind, o) => leased.(operations := ClaimOperation(db.operations, agent, kind, o))
    case ConnectorSync(k, revision) => leased.(connectors := ClaimConnector(db.connectors, agent, k, revision))
    case _ => leased
  }

  /** `chosen`: the rows SELECT … FOR UPDATE SKIP LOCKED LIMIT returned. */
  ghost predicate ChosenForClaim(db: Db, agent: Id, chosen: seq<Id>, limit: nat, now: int)
  {
    && |chosen| <= limit
    && (forall i :: 0 <= i < |chosen| ==> chosen[i] in db.commands && Claimable(db.commands[chosen[i]], agent, now))
    && (forall i, j :: 0 <= i < j < |chosen| ==> chosen[i] != chosen[j])
  }

  function ClaimAll(db: Db, agent: Id, chosen: seq<Id>, now: int): (r: Db)
    requires forall i :: 0 <= i < |chosen| ==> chosen[i] in db.commands
    ensures r.commands.Keys == db.commands.Keys
  {
    if chosen == [] then db
    else ClaimOne(ClaimAll(db, agent, chosen[..|chosen| - 1], now), agent, chosen[|chosen| - 1], now)
  }

  // ---------------------------------------------------------------- completing

  /** Log texts are kept only with the request row. */
  function StoredResult(kind: CommandKind, result: Result): Result
  {
    if kind.ForOperation? && kind.operation == LogsKind then Result("", "", result.truncated, "", Unreported)
      else result
  }

  /** The length of a character inside a JSON text: escaped shortly, as `\u00xx`, or plain. */
  function EscapedChar(c: char): nat
  {
    if c == '"' || c == '\\' || c == '\n' || c == '\r' || c == '\t' || c as int == 8 || c as int == 12 then 2
    else if c < ' ' then 6
    else 1
  }

  function EscapedLength(s: string): nat
  {
    if s == "" then 0 else EscapedChar(s[0]) + EscapedLength(s[1..])
  }

  /** The route measures the text of the whole document, of which `body` is all that is not named. */
  predicate WithinSize(result: Result)
  {
    EscapedLength(result.body) + EscapedLength(result.output) + EscapedLength(result.logs) <= MAXIMUM_RESULT
  }

  /** PostgreSQL stores no NUL character, neither in jsonb nor in text. */
  predicate Clean(s: string) { forall c :: c in s ==> c != '\0' }

  predicate CleanResult(result: Result) { Clean(result.body) && Clean(result.output) && Clean(result.logs) }

  /** Whether the statements that store a result succeed; of a log request only the log text or the error is stored. */
  predicate Insertable(kind: CommandKind, ok: bool, result: Result)
  {
    if kind.ForOperation? && kind.operation == LogsKind then Clean(if ok then result.logs else result.body)
      else CleanResult(result)
  }

  /** Whether the UPDATE of the operation row finds it. */
  predicate CompletesOperation(operations: map<Id, Operation>, agent: Id, kind: OperationKind, o: Id)
  {
    && o in operations && KindOf(operations[o].detail) == kind && operations[o].agent == agent
    && (kind == BackupKind || kind == RestoreKind || ActiveOp(operations[o].status))
  }

  function CompleteOperation(operations: map<Id, Operation>, agent: Id, kind: OperationKind, o: Id, ok: bool)
    : map<Id, Operation>
  {
    if CompletesOperation(operations, agent, kind, o)
    then operations[o := operations[o].(status := if ok then OpSucceeded else OpFailed)]
    else operations
  }

  function CompleteDeployment(deployments: map<Id, Deployment>, agent: Id, run: Detail, ok: bool): map<Id, Deployment>
    requires run.Run?
  {
    var d := run.deployment;
    if d in deployments && deployments[d].agent == agent
    then deployments[d := deployments[d].(
           status := if !ok then DeploymentFailed else if run.action == Stop then StoppedDeployment else Deployed,
           current := if ok && run.action != Stop then Some(run.revision) else deployments[d].current)]
    else deployments
  }

  function CompleteConnector(connectors: map<Id, Connector>, agent: Id, k: Id, revision: nat, ok: bool,
                             runtime: RuntimeReport): map<Id, Connector>
  {
    if k in connectors && connectors[k].agent == agent && connectors[k].desired == revision
    then
      var status := if !ok then SyncFailed else if runtime == RuntimeStopped then SyncStopped else Active;
      connectors[k := connectors[k].(status := status)]
    else connectors
  }

  function CompletionEvents(kind: CommandKind, found: bool, cmd: Id, ok: bool): seq<Event>
  {
    match kind
    case ConnectorSync(_, _) => if ok then [] else [Event(cmd, DeploymentFailedEvent)]
    case EntitySync => if ok then [] else [Event(cmd, DeploymentFailedEvent)]
    case ForOperation(BackupKind, _) =>
      if found then [Event(cmd, if ok then BackupSucceededEvent else BackupFailedEvent)] else []
    case ForOperation(RestoreKind, _) => if found && !ok then [Event(cmd, BackupFailedEvent)] else []
    case ForOperation(RuntimeKind, _) =>
      if found then [Event(cmd, if ok then RuntimeSucceededEvent else RuntimeFailedEvent)] else []
    case ForOperation(RunKind, _) =>
      if found then [Event(cmd, if ok then DeploymentSucceededEvent else DeploymentFailedEvent)] else []
    case _ => []
  }

  /** What the transaction does once the command is known to be `claimed`. */
  function Finish(db: Db, agent: Id, cmd: Id, ok: bool, result: Result): Db
    requires cmd in db.commands
  {
    var c := db.commands[cmd];
    var found := c.kind.ForOperation? && CompletesOperation(db.operations, agent, c.kind.operation, c.kind.id);
    db.(commands := db.commands[cmd :=
                                c.(status := Final(ok), result := Some(StoredResult(c.kind, result)), leaseUntil :=
                                   None)],
        operations := if c.kind.ForOperation?
          then CompleteOperation(db.operations, agent, c.kind.operation, c.kind.id, ok) else db.operations,
        deployments := if found && c.kind.operation == RunKind
                       then CompleteDeployment(db.deployments, agent, db.operations[c.kind.id].detail, ok)
                         else db.deployments,
        connectors := if c.kind.ConnectorSync?
                      then CompleteConnector(db.connectors, agent, c.kind.connector, c.kind.revision, ok,
                                             result.runtime) else db.connectors,
        events := db.events + CompletionEvents(c.kind, found, cmd, ok))
  }

  function CompletionOf(db: Db, agent: Id, cmd: Id, ok: bool, result: Result): Completion
  {
    if !WithinSize(result) then Rejected
    else if cmd !in db.commands || db.commands[cmd].agent != agent then Missing
    else
      var c := db.commands[cmd];
      var stored := StoredResult(c.kind, result);
      if c.status == Final(ok) && !CleanResult(stored) then Rejected // the comparison casts it to jsonb
      else if c.status == Final(ok) && c.result == Some(stored) then Idempotent
      else if c.status != Claimed then Conflict
      else if !Insertable(c.kind, ok, result) then Rejected
      else Updated
  }

  function CompleteCommand(db: Db, agent: Id, cmd: Id, ok: bool, result: Result): Db
  {
    if CompletionOf(db, agent, cmd, ok, result) == Updated then Finish(db, agent, cmd, ok, result) else db
  }

  // ---------------------------------------------------------------- the stale sweep

  predicate Stale(c: Command, staleBefore: int, now: int)
  {
    && (c.status == Pending || c.status == Claimed)
    && match c.kind
       case ForOperation(_, _) => c.createdAt < staleBefore
       case ConnectorSync(_, _) => c.createdAt < now - CONNECTOR_WINDOW
       case ConnectorRemove(_, _) => c.createdAt < now - CONNECTOR_WINDOW
       case _ => false
  }

  predicate SweptOperation(o: Operation, cmd: Id, kind: OperationKind)
  {
    o.command == cmd && KindOf(o.detail) == kind && ActiveOp(o.status)
  }

  function SweepEvents(kind: OperationKind, found: bool, cmd: Id): seq<Event>
  {
    if !found then []
    else match kind
      case BackupKind => [Event(cmd, BackupFailedEvent)]
      case RestoreKind => [Event(cmd, BackupFailedEvent)]
      case RuntimeKind => [Event(cmd, RuntimeFailedEvent)]
      case _ => []
  }

  /** The operation rows the sweep's second UPDATE finds for a command. */
  function Swept(operations: map<Id, Operation>, cmd: Id, kind: OperationKind): set<Id>
  {
    set o | o in operations && SweptOperation(operations[o], cmd, kind)
  }

  function SweepOperations(operations: map<Id, Operation>, swept: set<Id>): map<Id, Operation>
  {
    map o | o in operations :: if o in swept then operations[o].(status := OpFailed) else operations[o]
  }

  function SweepDeployments(deployments: map<Id, Deployment>, operations: map<Id, Operation>, swept: set<Id>)
    : map<Id, Deployment>
  {
    map d | d in deployments ::
      if exists o :: o in swept && o in operations && RunOf(operations[o], d)
      then deployments[d].(status := DeploymentFailed) else deployments[d]
  }

  function SweepConnector(connectors: map<Id, Connector>, agent: Id, k: Id, revision: nat): map<Id, Connector>
  {
    if k in connectors && connectors[k].agent == agent && connectors[k].desired == revision
    then connectors[k := connectors[k].(status := SyncFailed)]
    else connectors
  }

  /** One row of the sweep. */
  function FailOne(db: Db, cmd: Id): Db
    requires cmd in db.commands
  {
    var c := db.commands[cmd];
    var failed := db.(commands :=
                      db.commands[cmd := c.(status := Failed, result := Some(STALE_RESULT), leaseUntil := None)]);
    match c.kind
    case ConnectorSync(k, revision) => failed.(connectors := SweepConnector(db.connectors, c.agent, k, revision))
    case ForOperation(kind, _) =>
      var swept := Swept(db.operations, cmd, kind);
      failed.(operations := SweepOperations(db.operations, swept),
              deployments := if kind == RunKind then SweepDeployments(db.deployments, db.operations, swept)
                else db.deployments,
              events := db.events + SweepEvents(kind, swept != {}, cmd))
    case _ => failed
  }

  /** `rows`: the RETURNING rows of the sweep's UPDATE, in any order. */
  ghost predicate StaleRows(db: Db, rows: seq<Id>, staleBefore: int, now: int)
  {
    && (forall i, j :: 0 <= i < j < |rows| ==> rows[i] != rows[j])
    && (forall c :: c in rows <==> c in db.commands && Stale(db.commands[c], staleBefore, now))
  }

  function FailAll(db: Db, rows: seq<Id>): (r: Db)
    requires forall i :: 0 <= i < |rows| ==> rows[i] in db.commands
    ensures r.commands.Keys == db.commands.Keys
  {
    if rows == [] then db else FailOne(FailAll(db, rows[..|rows| - 1]), rows[|rows| - 1])
  }

  /** Clears log texts of old requests; the command rows hold none to clear. */
  function PurgeLogs(db: Db, purged: set<Id>): Db
  {
    db.(commands := map c | c in db.commands ::
          if c in purged && db.commands[c].kind.ForOperation? && db.commands[c].kind.operation == LogsKind
            && db.commands[c].result.Some?
          then db.commands[c].(result := Some(db.commands[c].result.value.(logs := "")))
          else db.commands[c])
  }
}
