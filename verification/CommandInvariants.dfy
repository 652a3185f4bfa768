/** What every transaction of the command store keeps, and what follows for every run. */
module CommandInvariants {
  import opened Common
  import opened CommandStore

  // ---------------------------------------------------------------- invariants

  /** An operation row and its command point at each other and show the same status. */
  ghost predicate Lockstep(commands: map<Id, Command>, operations: map<Id, Operation>)
  {
    && (forall o :: o in operations ==>
          && operations[o].command in commands
          && commands[operations[o].command].kind == ForOperation(KindOf(operations[o].detail), o)
          && commands[operations[o].command].agent == operations[o].agent
          && operations[o].status == Mirror(commands[operations[o].command].status))
    && (forall c :: c in commands && commands[c].kind.ForOperation? ==>
          && commands[c].kind.id in operations && operations[commands[c].kind.id].command == c)
  }

  /** Results exist exactly on terminal commands, and those of log requests hold no log text. */
  ghost predicate ResultsSound(commands: map<Id, Command>)
  {
    forall c :: c in commands ==>
      && (commands[c].result.Some? <==> Terminal(commands[c].status))
      && (commands[c].result.Some? && commands[c].kind.ForOperation? && commands[c].kind.operation == LogsKind ==>
          commands[c].result.value.logs == "")
  }

  /** No command ever writes two events, and only a finished one writes any. */
  ghost predicate EventsOnce(commands: map<Id, Command>, events: seq<Event>)
  {
    && (forall i :: 0 <= i < |events| ==> events[i].command in commands && Terminal(commands[events[i].command].status))
    && (forall i, j :: 0 <= i < j < |events| ==> events[i].command != events[j].command)
  }

  ghost predicate StackExclusive(operations: map<Id, Operation>)
  {
    forall o, p, s ::
      && o in operations && p in operations && ActiveOp(operations[o].status) && ActiveOp(operations[p].status)
      && OnStack(operations[o].detail, s) && OnStack(operations[p].detail, s)
      ==> o == p
  }

  predicate SameScope(a: Operation, b: Operation)
  {
    a.detail.Runtime? && b.detail.Runtime? && a.agent == b.agent && a.detail.project == b.detail.project
    && Overlap(a.detail.service, b.detail.service)
  }

  ghost predicate RuntimeExclusive(operations: map<Id, Operation>)
  {
    forall o, p ::
      && o in operations && p in operations && ActiveOp(operations[o].status) && ActiveOp(operations[p].status)
      && SameScope(operations[o], operations[p])
      ==> o == p
  }

  // ---- deployments

  predicate InProgress(s: DeploymentStatus) { s == Deploying || s == Stopping }

  ghost predicate ActiveRun(operations: map<Id, Operation>, o: Id, d: Id)
  {
    o in operations && RunOf(operations[o], d) && ActiveOp(operations[o].status)
  }

  /** A run that put its revision into service. */
  ghost predicate Effective(operations: map<Id, Operation>, o: Id, d: Id)
  {
    o in operations && RunOf(operations[o], d) && operations[o].status == OpSucceeded
      && operations[o].detail.action != Stop
  }

  ghost predicate Latest(operations: map<Id, Operation>, o: Id, d: Id)
  {
    Effective(operations, o, d) && forall p :: Effective(operations, p, d) ==>
      operations[p].ordinal <= operations[o].ordinal
  }

  ghost predicate RunsSound(operations: map<Id, Operation>, deployments: map<Id, Deployment>, clock: nat)
  {
    && (forall o :: o in operations ==> operations[o].ordinal < clock)
    && (forall o :: o in operations && operations[o].detail.Run? ==>
          operations[o].detail.deployment in deployments
            && deployments[operations[o].detail.deployment].agent == operations[o].agent)
    // An active run is the youngest run of its deployment, so there is at most one.
    && (forall o, p, d :: ActiveRun(operations, o, d) && p in operations && RunOf(operations[p], d) && p != o ==>
          operations[p].ordinal < operations[o].ordinal)
  }

  ghost predicate DeploymentSound(operations: map<Id, Operation>, d: Id, row: Deployment)
  {
    && (InProgress(row.status) <==> exists o :: ActiveRun(operations, o, d))
    && (forall o :: ActiveRun(operations, o, d) ==>
          operations[o].detail.prior == row.current
            && row.status == if operations[o].detail.action == Stop then Stopping else Deploying)
    && (row.current.None? ==> forall o :: !Effective(operations, o, d))
    && (row.current.Some? ==>
        exists o :: Latest(operations, o, d) && operations[o].detail.revision == row.current.value)
  }

  ghost predicate History(operations: map<Id, Operation>, deployments: map<Id, Deployment>)
  {
    forall d :: d in deployments ==> DeploymentSound(operations, d, deployments[d])
  }

  // ---- connectors

  predicate Syncs(c: Command, k: Id) { c.kind.ConnectorSync? && c.kind.connector == k }

  predicate InFlight(s: ConnectorStatus) { s == SyncPending || s == SyncDeploying || s == SyncStopping }

  /** A sync of exactly the desired revision, addressed to the current agent. */
  predicate CurrentSync(c: Command, k: Id, row: Connector)
  {
    Syncs(c, k) && c.agent == row.agent && c.kind.revision == row.desired
  }

  ghost predicate ConnectorSound(commands: map<Id, Command>, k: Id, row: Connector)
  {
    && (forall c :: c in commands && Syncs(commands[c], k) ==> commands[c].kind.revision <= row.desired)
    && (forall c :: c in commands && PendingSync(commands[c], row.agent, k) ==>
        commands[c].kind.revision == row.desired)
    && (row.status == Active ==>
        exists c :: c in commands && CurrentSync(commands[c], k, row) && commands[c].status == Succeeded)
    && (InFlight(row.status) && (exists c :: c in commands && Syncs(commands[c], k)) ==>
          exists c :: c in commands && CurrentSync(commands[c], k, row) && !Terminal(commands[c].status))
  }

  /** Waiting syncs of one agent and connector are one. */
  ghost predicate WaitingUnique(commands: map<Id, Command>)
  {
    forall c, e, a, k ::
      c in commands && e in commands && PendingSync(commands[c], a, k) && PendingSync(commands[e], a, k) ==> c == e
  }

  ghost predicate SyncsKnown(commands: map<Id, Command>, connectors: map<Id, Connector>)
  {
    forall c :: c in commands && commands[c].kind.ConnectorSync? ==> commands[c].kind.connector in connectors
  }

  ghost predicate Fenced(commands: map<Id, Command>, connectors: map<Id, Connector>)
  {
    && (forall k :: k in connectors ==> ConnectorSound(commands, k, connectors[k]))
    && SyncsKnown(commands, connectors) && WaitingUnique(commands)
  }

  ghost predicate Inv(db: Db)
  {
    && Lockstep(db.commands, db.operations)
    && ResultsSound(db.commands)
    && EventsOnce(db.commands, db.events)
    && StackExclusive(db.operations)
    && RuntimeExclusive(db.operations)
    && RunsSound(db.operations, db.deployments, db.clock)
    && History(db.operations, db.deployments)
    && Fenced(db.commands, db.connectors)
  }

  // ---------------------------------------------------------------- creating an operation

  /** Fresh identifiers, as gen_random_uuid() gives them. */
  predicate Fresh(db: Db, cmd: Id, op: Id) { cmd !in db.commands && op !in db.operations }

  /** A new command that syncs no connector leaves the connector invariant alone. */
  lemma NewCommandFenced(commands: map<Id, Command>, connectors: map<Id, Connector>, cmd: Id, c: Command)
    requires Fenced(commands, connectors) && cmd !in commands && !c.kind.ConnectorSync?
    ensures Fenced(commands[cmd := c], connectors)
  {
    var commands' := commands[cmd := c];
    forall k | k in connectors ensures ConnectorSound(commands', k, connectors[k]) {
      var row := connectors[k];
      assert ConnectorSound(commands, k, row);
      if row.status == Active {
        var w :| w in commands && CurrentSync(commands[w], k, row) && commands[w].status == Succeeded;
        assert w in commands' && commands'[w] == commands[w];
      }
      if InFlight(row.status) && exists e :: e in commands' && Syncs(commands'[e], k) {
        var e :| e in commands' && Syncs(commands'[e], k);
        assert e in commands && Syncs(commands[e], k);
        var w :| w in commands && CurrentSync(commands[w], k, row) && !Terminal(commands[w].status);
        assert w in commands' && commands'[w] == commands[w];
      }
    }
  }

  lemma InsertedLockstep(db: Db, agent: Id, detail: Detail, cmd: Id, op: Id, now: int)
    requires Lockstep(db.commands, db.operations) && Fresh(db, cmd, op)
    ensures var db' := InsertOperation(db, agent, detail, cmd, op, now); Lockstep(db'.commands, db'.operations)
  {
  }

  lemma InsertedQueue(db: Db, agent: Id, detail: Detail, cmd: Id, op: Id, now: int)
    requires Inv(db) && Fresh(db, cmd, op)
    ensures var db' := InsertOperation(db, agent, detail, cmd, op, now);
      Lockstep(db'.commands, db'.operations) && ResultsSound(db'.commands) && EventsOnce(db'.commands, db'.events)
        && Fenced(db'.commands, db'.connectors)
  {
    InsertedLockstep(db, agent, detail, cmd, op, now);
    NewCommandFenced(db.commands, db.connectors, cmd, NewCommand(agent, ForOperation(KindOf(detail), op), now));
  }

  /** An operation that is no deployment run changes no deployment's history. */
  lemma InsertedHistory(operations: map<Id, Operation>, deployments: map<Id, Deployment>, op: Id, row: Operation)
    requires History(operations, deployments) && op !in operations && !row.detail.Run?
    ensures History(operations[op := row], deployments)
  {
    var operations' := operations[op := row];
    forall d | d in deployments ensures DeploymentSound(operations', d, deployments[d]) {
      SameRunsSameHistory(operations, operations', d, deployments[d]);
    }
  }

  /** Only the runs of a deployment matter to it. */
  lemma SameRunsSameHistory(operations: map<Id, Operation>, operations': map<Id, Operation>, d: Id, row: Deployment)
    requires DeploymentSound(operations, d, row)
    requires forall o :: o in operations && RunOf(operations[o], d) ==>
      o in operations' && operations'[o] == operations[o]
    requires forall o :: o in operations' && RunOf(operations'[o], d) ==>
      o in operations && operations'[o] == operations[o]
    ensures DeploymentSound(operations', d, row)
  {
    assert forall o :: ActiveRun(operations, o, d) <==> ActiveRun(operations', o, d);
    assert forall o :: Effective(operations, o, d) <==> Effective(operations', o, d);
    if row.current.Some? {
      var o :| Latest(operations, o, d) && operations[o].detail.revision == row.current.value;
      assert Latest(operations', o, d);
    }
  }

  lemma InsertPlainInv(db: Db, agent: Id, detail: Detail, cmd: Id, op: Id, now: int)
    requires Inv(db) && Fresh(db, cmd, op) && !detail.Run?
    requires detail.Backup? ==> !HasActiveStackOperation(db.operations, detail.stack)
    requires detail.Restore? ==> !HasActiveStackOperation(db.operations, detail.stack)
    requires detail.Runtime? ==> !HasActiveRuntime(db.operations, agent, detail.project, detail.service)
    ensures Inv(InsertOperation(db, agent, detail, cmd, op, now))
  {
    var db' := InsertOperation(db, agent, detail, cmd, op, now);
    InsertedQueue(db, agent, detail, cmd, op, now);
    InsertedHistory(db.operations, db.deployments, op, db'.operations[op]);
    InsertedExclusive(db.operations, op, db'.operations[op]);
    assert RunsSound(db'.operations, db'.deployments, db'.clock) by {
      forall o, p, d | ActiveRun(db'.operations, o, d) && p in db'.operations && RunOf(db'.operations[p], d) && p != o
        ensures db'.operations[p].ordinal < db'.operations[o].ordinal
      {
        assert ActiveRun(db.operations, o, d);
      }
    }
  }

  lemma InsertedExclusive(operations: map<Id, Operation>, op: Id, row: Operation)
    requires StackExclusive(operations) && RuntimeExclusive(operations) && op !in operations
    requires row.detail.Backup? || row.detail.Restore? ==> !HasActiveStackOperation(operations, row.detail.stack)
    requires row.detail.Runtime? ==> !HasActiveRuntime(operations, row.agent, row.detail.project, row.detail.service)
    ensures StackExclusive(operations[op := row]) && RuntimeExclusive(operations[op := row])
  {
  }

  lemma InsertRunInv(db: Db, d: Id, revision: Id, action: Action, cmd: Id, op: Id, now: int)
    requires Inv(db) && Fresh(db, cmd, op)
    ensures Inv(CreateDeploymentRun(db, d, revision, action, cmd, op, now).0)
  {
    var db' := CreateDeploymentRun(db, d, revision, action, cmd, op, now).0;
    if db' != db {
      var detail := Run(d, revision, db.deployments[d].current, action);
      InsertedQueue(db, db.deployments[d].agent, detail, cmd, op, now);
      InsertedExclusive(db.operations, op, db'.operations[op]);
      assert !exists o :: ActiveRun(db.operations, o, d) by {
        assert !HasActiveRun(db.operations, d);
      }
      InsertedRunsSound(db, db', d, op);
      InsertedRunHistory(db, db', d, op);
    }
  }

  ghost predicate RunInserted(db: Db, db': Db, d: Id, op: Id)
  {
    && op !in db.operations && d in db.deployments && op in db'.operations
    && db'.operations == db.operations[op := db'.operations[op]]
    && ActiveRun(db'.operations, op, d) && db'.operations[op].ordinal == db.clock && db'.clock == db.clock + 1
    && db'.operations[op].agent == db.deployments[d].agent
    && db'.operations[op].detail.prior == db.deployments[d].current
    && (var status := if db'.operations[op].detail.action == Stop then Stopping else Deploying;
        db'.deployments == db.deployments[d := db.deployments[d].(status := status)])
    && !exists o :: ActiveRun(db.operations, o, d)
  }

  lemma InsertedRunsSound(db: Db, db': Db, d: Id, op: Id)
    requires RunsSound(db.operations, db.deployments, db.clock) && RunInserted(db, db', d, op)
    ensures RunsSound(db'.operations, db'.deployments, db'.clock)
  {
    forall o, p, e | ActiveRun(db'.operations, o, e) && p in db'.operations && RunOf(db'.operations[p], e) && p != o
      ensures db'.operations[p].ordinal < db'.operations[o].ordinal
    {
      if o != op {
        assert ActiveRun(db.operations, o, e);
      }
    }
  }

  lemma InsertedRunHistory(db: Db, db': Db, d: Id, op: Id)
    requires History(db.operations, db.deployments) && RunInserted(db, db', d, op)
    ensures History(db'.operations, db'.deployments)
  {
    forall e | e in db'.deployments ensures DeploymentSound(db'.operations, e, db'.deployments[e]) {
      assert DeploymentSound(db.operations, e, db.deployments[e]);
      if e != d {
        SameRunsSameHistory(db.operations, db'.operations, e, db.deployments[e]);
      } else {
        assert forall o :: Effective(db.operations, o, d) <==> Effective(db'.operations, o, d);
        if db.deployments[d].current.Some? {
          var o :| Latest(db.operations, o, d) && db.operations[o].detail.revision == db.deployments[d].current.value;
          assert Latest(db'.operations, o, d);
        }
        assert forall o :: ActiveRun(db'.operations, o, d) ==> o == op || ActiveRun(db.operations, o, d);
      }
    }
  }

  // ---------------------------------------------------------------- an operation changes status

  function SetStatus(operations: map<Id, Operation>, o: Id, status: OperationStatus): map<Id, Operation>
    requires o in operations
  {
    operations[o := operations[o].(status := status)]
  }

  lemma StatusExclusive(operations: map<Id, Operation>, o: Id, status: OperationStatus)
    requires StackExclusive(operations) && RuntimeExclusive(operations) && o in operations
    requires ActiveOp(status) ==> ActiveOp(operations[o].status)
    ensures StackExclusive(SetStatus(operations, o, status)) && RuntimeExclusive(SetStatus(operations, o, status))
  {
  }

  lemma StatusRunsSound(operations: map<Id, Operation>, deployments: map<Id, Deployment>,
                        deployments': map<Id, Deployment>, clock: nat, o: Id, status: OperationStatus)
    requires RunsSound(operations, deployments, clock) && o in operations
    requires ActiveOp(status) ==> ActiveOp(operations[o].status)
    requires forall d :: d in deployments ==> d in deployments' && deployments'[d].agent == deployments[d].agent
    ensures RunsSound(SetStatus(operations, o, status), deployments', clock)
  {
    var operations' := SetStatus(operations, o, status);
    forall q, p, d | ActiveRun(operations', q, d) && p in operations' && RunOf(operations'[p], d) && p != q
      ensures operations'[p].ordinal < operations'[q].ordinal
    {
      assert ActiveRun(operations, q, d);
    }
  }

  /** A run that starts to run is as active as before. */
  lemma StartHistory(operations: map<Id, Operation>, deployments: map<Id, Deployment>, o: Id)
    requires History(operations, deployments) && o in operations && operations[o].status == OpPending
    ensures History(SetStatus(operations, o, OpRunning), deployments)
  {
    var operations' := SetStatus(operations, o, OpRunning);
    forall d | d in deployments ensures DeploymentSound(operations', d, deployments[d]) {
      assert DeploymentSound(operations, d, deployments[d]);
      assert forall p :: ActiveRun(operations, p, d) <==> ActiveRun(operations', p, d);
      assert forall p :: Effective(operations, p, d) <==> Effective(operations', p, d);
      if deployments[d].current.Some? {
        var p :| Latest(operations, p, d) && operations[p].detail.revision == deployments[d].current.value;
        assert Latest(operations', p, d);
      }
    }
  }

  lemma EndPlainHistory(operations: map<Id, Operation>, deployments: map<Id, Deployment>, o: Id,
                        status: OperationStatus)
    requires History(operations, deployments) && o in operations && !operations[o].detail.Run?
    ensures History(SetStatus(operations, o, status), deployments)
  {
    var operations' := SetStatus(operations, o, status);
    forall d | d in deployments ensures DeploymentSound(operations', d, deployments[d]) {
      SameRunsSameHistory(operations, operations', d, deployments[d]);
    }
  }

  /** The row of a deployment after its active run ended. */
  predicate EndedRow(run: Detail, ok: bool, row: Deployment, row': Deployment)
    requires run.Run?
  {
    && !InProgress(row'.status) && row'.agent == row.agent
    && row'.current == if ok && run.action != Stop then Some(run.revision) else row.current
  }

  lemma EndRunHistory(operations: map<Id, Operation>, deployments: map<Id, Deployment>, clock: nat, o: Id, ok: bool,
                      row': Deployment)
    requires History(operations, deployments) && RunsSound(operations, deployments, clock)
    requires o in operations && operations[o].detail.Run? && ActiveOp(operations[o].status)
    requires EndedRow(operations[o].detail, ok, deployments[operations[o].detail.deployment], row')
    ensures History(SetStatus(operations, o, if ok then OpSucceeded else OpFailed),
                    deployments[operations[o].detail.deployment := row'])
  {
    var d := operations[o].detail.deployment;
    var operations' := SetStatus(operations, o, if ok then OpSucceeded else OpFailed);
    var deployments' := deployments[d := row'];
    assert ActiveRun(operations, o, d);
    forall e | e in deployments' ensures DeploymentSound(operations', e, deployments'[e]) {
      assert DeploymentSound(operations, e, deployments[e]);
      if e != d {
        SameRunsSameHistory(operations, operations', e, deployments[e]);
      } else {
        EndedSound(operations, d, deployments[d], clock, o, ok, row');
      }
    }
  }

  lemma EndedSound(operations: map<Id, Operation>, d: Id, row: Deployment, clock: nat, o: Id, ok: bool,
                   row': Deployment)
    requires DeploymentSound(operations, d, row) && ActiveRun(operations, o, d)
    requires forall q, p, e :: ActiveRun(operations, q, e) && p in operations && RunOf(operations[p], e) && p != q ==>
          operations[p].ordinal < operations[q].ordinal
    requires EndedRow(operations[o].detail, ok, row, row')
    ensures DeploymentSound(SetStatus(operations, o, if ok then OpSucceeded else OpFailed), d, row')
  {
    var operations' := SetStatus(operations, o, if ok then OpSucceeded else OpFailed);
    forall p ensures !ActiveRun(operations', p, d) {
      if p != o && ActiveRun(operations, p, d) { assert false; }
    }
    if ok && operations[o].detail.action != Stop {
      forall p: Id | Effective(operations', p, d) ensures operations'[p].ordinal <= operations'[o].ordinal {
        assert p == o || operations[p].ordinal < operations[o].ordinal;
      }
      assert Latest(operations', o, d);
    } else {
      assert forall p :: Effective(operations, p, d) <==> Effective(operations', p, d);
      if row.current.Some? {
        var p :| Latest(operations, p, d) && operations[p].detail.revision == row.current.value;
        assert Latest(operations', p, d);
      }
    }
  }

  // ---------------------------------------------------------------- a command changes status

  lemma StatusLockstep(commands: map<Id, Command>, operations: map<Id, Operation>, cmd: Id, c: Command)
    requires Lockstep(commands, operations) && cmd in commands
    requires c.kind == commands[cmd].kind && c.agent == commands[cmd].agent
    ensures Lockstep(commands[cmd := c],
                     if c.kind.ForOperation? then SetStatus(operations, c.kind.id, Mirror(c.status)) else operations)
  {
  }

  /** Taking one command out of `pending` keeps waiting syncs unique. */
  lemma FewerPending(commands: map<Id, Command>, connectors: map<Id, Connector>, cmd: Id, c: Command,
                     commands': map<Id, Command>)
    requires SyncsKnown(commands, connectors) && WaitingUnique(commands)
    requires cmd in commands && c.kind == commands[cmd].kind && c.status != Pending && commands' == commands[cmd := c]
    ensures SyncsKnown(commands', connectors) && WaitingUnique(commands')
  {
  }

  lemma LeasedFenced(commands: map<Id, Command>, connectors: map<Id, Connector>, cmd: Id, c: Command,
                     connectors': map<Id, Connector>)
    requires Fenced(commands, connectors) && cmd in commands && !Terminal(commands[cmd].status)
    requires c.kind == commands[cmd].kind && c.agent == commands[cmd].agent && c.status == Claimed
    requires connectors' == match c.kind
               case ConnectorSync(k, revision) => ClaimConnector(connectors, c.agent, k, revision)
               case _ => connectors
    ensures Fenced(commands[cmd := c], connectors')
  {
    var commands' := commands[cmd := c];
    FewerPending(commands, connectors, cmd, c, commands');
    forall k | k in connectors' ensures ConnectorSound(commands', k, connectors'[k]) {
      assert ConnectorSound(commands, k, connectors[k]);
      LeasedSound(commands, k, connectors[k], cmd, c, connectors'[k]);
    }
  }

  lemma LeasedSound(commands: map<Id, Command>, k: Id, row: Connector, cmd: Id, c: Command, row': Connector)
    requires ConnectorSound(commands, k, row) && cmd in commands && !Terminal(commands[cmd].status)
    requires c.kind == commands[cmd].kind && c.agent == commands[cmd].agent && c.status == Claimed
    requires row' ==
      if CurrentSync(c, k, row) then row.(status := if row.enabled then SyncDeploying else SyncStopping) else row
    ensures ConnectorSound(commands[cmd := c], k, row')
  {
    var commands' := commands[cmd := c];
    if row' == row {
      if row.status == Active {
        var w :| w in commands && CurrentSync(commands[w], k, row) && commands[w].status == Succeeded;
        assert w in commands' && commands'[w] == commands[w];
      }
      if InFlight(row.status) && exists e :: e in commands' && Syncs(commands'[e], k) {
        var e :| e in commands' && Syncs(commands'[e], k);
        assert e in commands && Syncs(commands[e], k);
        var w :| w in commands && CurrentSync(commands[w], k, row) && !Terminal(commands[w].status);
        assert w in commands' && CurrentSync(commands'[w], k, row) && !Terminal(commands'[w].status);
      }
    } else {
      assert cmd in commands' && CurrentSync(commands'[cmd], k, row') && !Terminal(commands'[cmd].status);
    }
  }

  /** How the end of command `c` may change a connector row. */
  predicate EndsRow(c: Command, k: Id, row: Connector, row': Connector)
  {
    if CurrentSync(c, k, row)
    then row' == row.(status := row'.status) && !InFlight(row'.status)
      && (row'.status == Active ==> c.status == Succeeded)
    else row' == row
  }

  lemma EndedFenced(commands: map<Id, Command>, connectors: map<Id, Connector>, cmd: Id, c: Command,
                    connectors': map<Id, Connector>)
    requires Fenced(commands, connectors) && cmd in commands && !Terminal(commands[cmd].status)
    requires c.kind == commands[cmd].kind && c.agent == commands[cmd].agent && Terminal(c.status)
    requires connectors'.Keys == connectors.Keys
    requires forall k :: k in connectors ==> EndsRow(c, k, connectors[k], connectors'[k])
    ensures Fenced(commands[cmd := c], connectors')
  {
    var commands' := commands[cmd := c];
    FewerPending(commands, connectors, cmd, c, commands');
    forall k | k in connectors' ensures ConnectorSound(commands', k, connectors'[k]) {
      assert ConnectorSound(commands, k, connectors[k]);
      assert EndsRow(c, k, connectors[k], connectors'[k]);
      EndedConnector(commands, k, connectors[k], cmd, c, connectors'[k]);
    }
  }

  lemma EndedConnector(commands: map<Id, Command>, k: Id, row: Connector, cmd: Id, c: Command, row': Connector)
    requires ConnectorSound(commands, k, row) && cmd in commands && !Terminal(commands[cmd].status)
    requires c.kind == commands[cmd].kind && c.agent == commands[cmd].agent && Terminal(c.status)
    requires EndsRow(c, k, row, row')
    ensures ConnectorSound(commands[cmd := c], k, row')
  {
    var commands' := commands[cmd := c];
    if row'.status == Active {
      if CurrentSync(c, k, row) {
        assert cmd in commands' && CurrentSync(commands'[cmd], k, row');
      } else {
        var w :| w in commands && CurrentSync(commands[w], k, row) && commands[w].status == Succeeded;
        assert w in commands' && commands'[w] == commands[w];
      }
    }
    if InFlight(row'.status) && exists e :: e in commands' && Syncs(commands'[e], k) {
      var e :| e in commands' && Syncs(commands'[e], k);
      assert e in commands && Syncs(commands[e], k);
      var w :| w in commands && CurrentSync(commands[w], k, row) && !Terminal(commands[w].status);
      assert w != cmd;
      assert w in commands' && commands'[w] == commands[w];
    }
  }

  lemma StatusQueue(commands: map<Id, Command>, events: seq<Event>, cmd: Id, c: Command, added: seq<Event>)
    requires ResultsSound(commands) && EventsOnce(commands, events) && cmd in commands
      && !Terminal(commands[cmd].status)
    requires c.kind == commands[cmd].kind && (c.result.Some? <==> Terminal(c.status))
    requires c.result.Some? && c.kind.ForOperation? && c.kind.operation == LogsKind ==> c.result.value.logs == ""
    requires |added| <= 1 && (added != [] ==> Terminal(c.status) && added[0].command == cmd)
    ensures ResultsSound(commands[cmd := c]) && EventsOnce(commands[cmd := c], events + added)
  {
    assert forall i :: 0 <= i < |events| ==> events[i].command != cmd;
  }

  // ---------------------------------------------------------------- the three loops' bodies

  /** What claiming does to the operations and the history. */
  lemma ClaimOperationsInv(db: Db, agent: Id, cmd: Id)
    requires Inv(db) && cmd in db.commands && db.commands[cmd].agent == agent && !Terminal(db.commands[cmd].status)
    requires db.commands[cmd].kind.ForOperation?
    ensures var c := db.commands[cmd];
      var operations' := ClaimOperation(db.operations, agent, c.kind.operation, c.kind.id);
      && c.kind.id in db.operations && operations' == SetStatus(db.operations, c.kind.id, OpRunning)
      && StackExclusive(operations') && RuntimeExclusive(operations')
      && RunsSound(operations', db.deployments, db.clock) && History(operations', db.deployments)
  {
    var c := db.commands[cmd];
    var o := c.kind.id;
    assert ClaimOperation(db.operations, agent, c.kind.operation, o) == SetStatus(db.operations, o, OpRunning);
    StatusExclusive(db.operations, o, OpRunning);
    StatusRunsSound(db.operations, db.deployments, db.deployments, db.clock, o, OpRunning);
    if db.operations[o].status == OpPending {
      StartHistory(db.operations, db.deployments, o);
    } else {
      assert SetStatus(db.operations, o, OpRunning) == db.operations;
    }
  }

  lemma ClaimOneInv(db: Db, agent: Id, cmd: Id, now: int)
    requires Inv(db) && cmd in db.commands && Claimable(db.commands[cmd], agent, now)
    ensures Inv(ClaimOne(db, agent, cmd, now))
  {
    var c := db.commands[cmd];
    var db' := ClaimOne(db, agent, cmd, now);
    var c' := db'.commands[cmd];
    StatusLockstep(db.commands, db.operations, cmd, c');
    StatusQueue(db.commands, db.events, cmd, c', []);
    assert db.events + [] == db.events;
    LeasedFenced(db.commands, db.connectors, cmd, c', db'.connectors);
    if c.kind.ForOperation? { ClaimOperationsInv(db, agent, cmd); }
  }

  /** Under the lockstep invariant the guarded updates of a completion all find their row. */
  lemma FinishRows(db: Db, agent: Id, cmd: Id, ok: bool, result: Result)
    requires Inv(db) && CompletionOf(db, agent, cmd, ok, result) == Updated
    ensures var c, db' := db.commands[cmd], Finish(db, agent, cmd, ok, result);
      && (c.kind.ForOperation? ==>
            && CompletesOperation(db.operations, agent, c.kind.operation, c.kind.id)
            && db'.operations == SetStatus(db.operations, c.kind.id, Mirror(Final(ok))))
      && (c.kind.ForOperation? && c.kind.operation == RunKind ==>
            var run := db.operations[c.kind.id].detail;
            && run.Run? && run.deployment in db.deployments && ActiveOp(db.operations[c.kind.id].status)
            && db'.deployments == db.deployments[run.deployment := db'.deployments[run.deployment]]
            && EndedRow(run, ok, db.deployments[run.deployment], db'.deployments[run.deployment]))
      && (!(c.kind.ForOperation? && c.kind.operation == RunKind) ==> db'.deployments == db.deployments)
  {
  }

  lemma FinishOperationsInv(db: Db, agent: Id, cmd: Id, ok: bool, result: Result)
    requires Inv(db) && CompletionOf(db, agent, cmd, ok, result) == Updated
    ensures var db' := Finish(db, agent, cmd, ok, result);
      StackExclusive(db'.operations) && RuntimeExclusive(db'.operations)
      && RunsSound(db'.operations, db'.deployments, db'.clock) && History(db'.operations, db'.deployments)
  {
    var c, db' := db.commands[cmd], Finish(db, agent, cmd, ok, result);
    FinishRows(db, agent, cmd, ok, result);
    if c.kind.ForOperation? {
      var o := c.kind.id;
      StatusExclusive(db.operations, o, Mirror(Final(ok)));
      StatusRunsSound(db.operations, db.deployments, db'.deployments, db.clock, o, Mirror(Final(ok)));
      if c.kind.operation == RunKind {
        EndRunHistory(db.operations, db.deployments, db.clock, o, ok,
                      db'.deployments[db.operations[o].detail.deployment]);
      } else {
        EndPlainHistory(db.operations, db.deployments, o, Mirror(Final(ok)));
      }
    }
  }

  lemma FinishQueueInv(db: Db, agent: Id, cmd: Id, ok: bool, result: Result)
    requires Inv(db) && CompletionOf(db, agent, cmd, ok, result) == Updated
    ensures var db' := Finish(db, agent, cmd, ok, result);
      ResultsSound(db'.commands) && EventsOnce(db'.commands, db'.events)
  {
    var c, db' := db.commands[cmd], Finish(db, agent, cmd, ok, result);
    var found := c.kind.ForOperation? && CompletesOperation(db.operations, agent, c.kind.operation, c.kind.id);
    StatusQueue(db.commands, db.events, cmd, db'.commands[cmd], CompletionEvents(c.kind, found, cmd, ok));
  }

  lemma CompletedRows(connectors: map<Id, Connector>, c: Command, ok: bool, runtime: RuntimeReport)
    requires c.kind.ConnectorSync? && c.status == Final(ok)
    ensures var connectors' := CompleteConnector(connectors, c.agent, c.kind.connector, c.kind.revision, ok, runtime);
      connectors'.Keys == connectors.Keys && forall k :: k in connectors ==>
        EndsRow(c, k, connectors[k], connectors'[k])
  {
  }

  lemma FinishFenced(db: Db, agent: Id, cmd: Id, ok: bool, result: Result)
    requires Fenced(db.commands, db.connectors) && CompletionOf(db, agent, cmd, ok, result) == Updated
    ensures var db' := Finish(db, agent, cmd, ok, result); Fenced(db'.commands, db'.connectors)
  {
    var c, db' := db.commands[cmd], Finish(db, agent, cmd, ok, result);
    if c.kind.ConnectorSync? {
      CompletedRows(db.connectors, db'.commands[cmd], ok, result.runtime);
    }
    EndedFenced(db.commands, db.connectors, cmd, db'.commands[cmd], db'.connectors);
  }

  lemma FinishInv(db: Db, agent: Id, cmd: Id, ok: bool, result: Result)
    requires Inv(db) && CompletionOf(db, agent, cmd, ok, result) == Updated
    ensures Inv(Finish(db, agent, cmd, ok, result))
  {
    FinishRows(db, agent, cmd, ok, result);
    FinishOperationsInv(db, agent, cmd, ok, result);
    FinishQueueInv(db, agent, cmd, ok, result);
    FinishFenced(db, agent, cmd, ok, result);
    StatusLockstep(db.commands, db.operations, cmd, Finish(db, agent, cmd, ok, result).commands[cmd]);
  }

  /** Under the lockstep invariant the sweep finds exactly the operation its command names. */
  lemma SweptIsTarget(commands: map<Id, Command>, operations: map<Id, Operation>, cmd: Id)
    requires Lockstep(commands, operations)
    requires cmd in commands && commands[cmd].kind.ForOperation? && !Terminal(commands[cmd].status)
    ensures commands[cmd].kind.id in operations
      && Swept(operations, cmd, commands[cmd].kind.operation) == {commands[cmd].kind.id}
    ensures SweepOperations(operations, {commands[cmd].kind.id})
      == SetStatus(operations, commands[cmd].kind.id, OpFailed)
  {
    var o := commands[cmd].kind.id;
    assert SweptOperation(operations[o], cmd, commands[cmd].kind.operation);
  }

  lemma SweptDeployment(deployments: map<Id, Deployment>, operations: map<Id, Operation>, o: Id)
    requires o in operations && operations[o].detail.Run? && operations[o].detail.deployment in deployments
    ensures var d := operations[o].detail.deployment;
      SweepDeployments(deployments, operations, {o}) == deployments[d := deployments[d].(status := DeploymentFailed)]
  {
    var d := operations[o].detail.deployment;
    assert o in {o} && RunOf(operations[o], d);
  }

  lemma FailRunInv(db: Db, cmd: Id)
    requires Inv(db) && cmd in db.commands && !Terminal(db.commands[cmd].status)
    requires db.commands[cmd].kind.ForOperation? && db.commands[cmd].kind.operation == RunKind
    ensures var db' := FailOne(db, cmd);
      RunsSound(db'.operations, db'.deployments, db'.clock) && History(db'.operations, db'.deployments)
  {
    var o := db.commands[cmd].kind.id;
    SweptIsTarget(db.commands, db.operations, cmd);
    SweptDeployment(db.deployments, db.operations, o);
    var d := db.operations[o].detail.deployment;
    var row := db.deployments[d].(status := DeploymentFailed);
    StatusRunsSound(db.operations, db.deployments, db.deployments[d := row], db.clock, o, OpFailed);
    EndRunHistory(db.operations, db.deployments, db.clock, o, false, row);
  }

  lemma FailPlainInv(db: Db, cmd: Id)
    requires Inv(db) && cmd in db.commands && !Terminal(db.commands[cmd].status)
    requires db.commands[cmd].kind.ForOperation? && db.commands[cmd].kind.operation != RunKind
    ensures var db' := FailOne(db, cmd);
      RunsSound(db'.operations, db'.deployments, db'.clock) && History(db'.operations, db'.deployments)
  {
    var o := db.commands[cmd].kind.id;
    SweptIsTarget(db.commands, db.operations, cmd);
    StatusRunsSound(db.operations, db.deployments, db.deployments, db.clock, o, OpFailed);
    EndPlainHistory(db.operations, db.deployments, o, OpFailed);
  }

  lemma FailQueueInv(db: Db, cmd: Id)
    requires Inv(db) && cmd in db.commands && !Terminal(db.commands[cmd].status)
    ensures var db' := FailOne(db, cmd);
      ResultsSound(db'.commands) && EventsOnce(db'.commands, db'.events)
  {
    var c, db' := db.commands[cmd], FailOne(db, cmd);
    var added := if c.kind.ForOperation?
      then SweepEvents(c.kind.operation, Swept(db.operations, cmd, c.kind.operation) != {}, cmd) else [];
    StatusQueue(db.commands, db.events, cmd, db'.commands[cmd], added);
    assert db'.events == db.events + added;
  }

  lemma SweptRows(connectors: map<Id, Connector>, c: Command)
    requires c.kind.ConnectorSync? && c.status == Failed
    ensures var connectors' := SweepConnector(connectors, c.agent, c.kind.connector, c.kind.revision);
      connectors'.Keys == connectors.Keys && forall k :: k in connectors ==>
        EndsRow(c, k, connectors[k], connectors'[k])
  {
  }

  lemma FailFenced(db: Db, cmd: Id)
    requires Fenced(db.commands, db.connectors) && cmd in db.commands && !Terminal(db.commands[cmd].status)
    ensures var db' := FailOne(db, cmd); Fenced(db'.commands, db'.connectors)
  {
    var c, db' := db.commands[cmd], FailOne(db, cmd);
    if c.kind.ConnectorSync? {
      SweptRows(db.connectors, db'.commands[cmd]);
    }
    EndedFenced(db.commands, db.connectors, cmd, db'.commands[cmd], db'.connectors);
  }

  lemma FailOneInv(db: Db, cmd: Id)
    requires Inv(db) && cmd in db.commands && !Terminal(db.commands[cmd].status)
    ensures Inv(FailOne(db, cmd))
  {
    FailQueueInv(db, cmd);
    FailFenced(db, cmd);
    FailLockstep(db, cmd);
    if db.commands[cmd].kind.ForOperation? { FailOperationsInv(db, cmd); }
  }

  lemma FailLockstep(db: Db, cmd: Id)
    requires Lockstep(db.commands, db.operations) && cmd in db.commands && !Terminal(db.commands[cmd].status)
    ensures Lockstep(FailOne(db, cmd).commands, FailOne(db, cmd).operations)
  {
    StatusLockstep(db.commands, db.operations, cmd, FailOne(db, cmd).commands[cmd]);
    if db.commands[cmd].kind.ForOperation? { SweptIsTarget(db.commands, db.operations, cmd); }
  }

  lemma FailOperationsInv(db: Db, cmd: Id)
    requires Inv(db) && cmd in db.commands && !Terminal(db.commands[cmd].status) && db.commands[cmd].kind.ForOperation?
    ensures var c, db' := db.commands[cmd], FailOne(db, cmd);
      && c.kind.id in db.operations && db'.operations == SetStatus(db.operations, c.kind.id, OpFailed)
      && StackExclusive(db'.operations) && RuntimeExclusive(db'.operations)
      && RunsSound(db'.operations, db'.deployments, db'.clock) && History(db'.operations, db'.deployments)
  {
    var c := db.commands[cmd];
    SweptIsTarget(db.commands, db.operations, cmd);
    StatusExclusive(db.operations, c.kind.id, OpFailed);
    if c.kind.operation == RunKind { FailRunInv(db, cmd); } else { FailPlainInv(db, cmd); }
  }

  // ---------------------------------------------------------------- whole transactions

  lemma ClaimOneFrame(db: Db, agent: Id, cmd: Id, now: int)
    requires cmd in db.commands
    ensures ClaimOne(db, agent, cmd, now).commands == db.commands[cmd := ClaimOne(db, agent, cmd, now).commands[cmd]]
  {
  }

  lemma FailOneFrame(db: Db, cmd: Id)
    requires cmd in db.commands
    ensures FailOne(db, cmd).commands == db.commands[cmd := FailOne(db, cmd).commands[cmd]]
  {
  }

  lemma {:induction false} ClaimAllFrame(db: Db, agent: Id, chosen: seq<Id>, now: int, c: Id)
    requires forall i :: 0 <= i < |chosen| ==> chosen[i] in db.commands
    requires c in db.commands && c !in chosen
    ensures ClaimAll(db, agent, chosen, now).commands[c] == db.commands[c]
    decreases |chosen|
  {
    if chosen != [] {
      var n := |chosen| - 1;
      ClaimAllFrame(db, agent, chosen[..n], now, c);
      ClaimOneFrame(ClaimAll(db, agent, chosen[..n], now), agent, chosen[n], now);
    }
  }

  lemma {:induction false} FailAllFrame(db: Db, rows: seq<Id>, c: Id)
    requires forall i :: 0 <= i < |rows| ==> rows[i] in db.commands
    requires c in db.commands && c !in rows
    ensures FailAll(db, rows).commands[c] == db.commands[c]
    decreases |rows|
  {
    if rows != [] {
      var n := |rows| - 1;
      FailAllFrame(db, rows[..n], c);
      FailOneFrame(FailAll(db, rows[..n]), rows[n]);
    }
  }

  /** Whatever each claimed row keeps, a whole claim keeps. */
  lemma {:induction false} ClaimAllKeeps(keeps: Db -> bool, db: Db, agent: Id, chosen: seq<Id>, now: int)
    requires keeps(db)
    requires forall d: Db, c: Id :: keeps(d) && c in d.commands && Claimable(d.commands[c], agent, now) ==>
      keeps(ClaimOne(d, agent, c, now))
    requires forall i :: 0 <= i < |chosen| ==> chosen[i] in db.commands && Claimable(db.commands[chosen[i]], agent, now)
    requires forall i, j :: 0 <= i < j < |chosen| ==> chosen[i] != chosen[j]
    ensures keeps(ClaimAll(db, agent, chosen, now))
    decreases |chosen|
  {
    if chosen != [] {
      var n := |chosen| - 1;
      ClaimAllKeeps(keeps, db, agent, chosen[..n], now);
      assert chosen[n] !in chosen[..n];
      ClaimAllFrame(db, agent, chosen[..n], now, chosen[n]);
    }
  }

  /** Whatever each swept row keeps, a whole sweep keeps. */
  lemma {:induction false} FailAllKeeps(keeps: Db -> bool, db: Db, rows: seq<Id>)
    requires keeps(db)
    requires forall d: Db, c: Id :: keeps(d) && c in d.commands && !Terminal(d.commands[c].status) ==>
      keeps(FailOne(d, c))
    requires forall i :: 0 <= i < |rows| ==> rows[i] in db.commands && !Terminal(db.commands[rows[i]].status)
    requires forall i, j :: 0 <= i < j < |rows| ==> rows[i] != rows[j]
    ensures keeps(FailAll(db, rows))
    decreases |rows|
  {
    if rows != [] {
      var n := |rows| - 1;
      FailAllKeeps(keeps, db, rows[..n]);
      assert rows[n] !in rows[..n];
      FailAllFrame(db, rows[..n], rows[n]);
    }
  }

  lemma ClaimAllInv(db: Db, agent: Id, chosen: seq<Id>, limit: nat, now: int)
    requires Inv(db) && ChosenForClaim(db, agent, chosen, limit, now)
    ensures Inv(ClaimAll(db, agent, chosen, now))
  {
    forall d: Db, c: Id | Inv(d) && c in d.commands && Claimable(d.commands[c], agent, now)
      ensures Inv(ClaimOne(d, agent, c, now))
    {
      ClaimOneInv(d, agent, c, now);
    }
    ClaimAllKeeps((d: Db) => Inv(d), db, agent, chosen, now);
  }

  lemma FailAllInv(db: Db, rows: seq<Id>, staleBefore: int, now: int)
    requires Inv(db) && StaleRows(db, rows, staleBefore, now)
    ensures Inv(FailAll(db, rows))
  {
    forall d: Db, c: Id | Inv(d) && c in d.commands && !Terminal(d.commands[c].status)
      ensures Inv(FailOne(d, c))
    {
      FailOneInv(d, c);
    }
    forall i | 0 <= i < |rows| ensures rows[i] in db.commands && !Terminal(db.commands[rows[i]].status) {
      assert rows[i] in rows;
    }
    FailAllKeeps((d: Db) => Inv(d), db, rows);
  }

  // ---- connector updates

  /** Row `k` has a revision newer than every sync of it; all else is sound. */
  ghost predicate Bumped(commands: map<Id, Command>, connectors: map<Id, Connector>, k: Id)
  {
    && k in connectors
    && (forall j :: j in connectors && j != k ==> ConnectorSound(commands, j, connectors[j]))
    && (forall c :: c in commands && Syncs(commands[c], k) ==> commands[c].kind.revision < connectors[k].desired)
    && SyncsKnown(commands, connectors) && WaitingUnique(commands)
  }

  /** Commands of other connectors are the same before and after. */
  lemma OtherConnectorSound(commands: map<Id, Command>, commands': map<Id, Command>, j: Id, row: Connector)
    requires ConnectorSound(commands, j, row)
    requires forall c :: c in commands && Syncs(commands[c], j) ==> c in commands' && commands'[c] == commands[c]
    requires forall c :: c in commands' && Syncs(commands'[c], j) ==> c in commands && commands'[c] == commands[c]
    ensures ConnectorSound(commands', j, row)
  {
    if row.status == Active {
      var w :| w in commands && CurrentSync(commands[w], j, row) && commands[w].status == Succeeded;
      assert w in commands' && commands'[w] == commands[w];
    }
    if InFlight(row.status) && exists e :: e in commands' && Syncs(commands'[e], j) {
      var e :| e in commands' && Syncs(commands'[e], j);
      assert e in commands && Syncs(commands[e], j);
      var w :| w in commands && CurrentSync(commands[w], j, row) && !Terminal(commands[w].status);
      assert w in commands' && commands'[w] == commands[w];
    }
  }

  lemma QueuedSound(commands': map<Id, Command>, k: Id, row: Connector, w: Id)
    requires InFlight(row.status) && w in commands' && CurrentSync(commands'[w], k, row)
      && !Terminal(commands'[w].status)
    requires forall c :: c in commands' && Syncs(commands'[c], k) ==> commands'[c].kind.revision <= row.desired
    requires forall c :: c in commands' && PendingSync(commands'[c], row.agent, k) ==>
      commands'[c].kind.revision == row.desired
    ensures ConnectorSound(commands', k, row)
  {
  }

  lemma QueuedOwn(db: Db, k: Id, stopping: bool, cmd: Id, now: int)
    requires Bumped(db.commands, db.connectors, k) && cmd !in db.commands
    ensures var db' := QueueConnectorSync(db, k, stopping, cmd, now); ConnectorSound(db'.commands, k, db'.connectors[k])
  {
    var row := db.connectors[k];
    var db' := QueueConnectorSync(db, k, stopping, cmd, now);
    var row' := db'.connectors[k];
    if exists c :: c in db.commands && PendingSync(db.commands[c], row.agent, k) {
      var w :| w in db.commands && PendingSync(db.commands[w], row.agent, k);
      assert PendingSync(db'.commands[w], row.agent, k);
      QueuedSound(db'.commands, k, row', w);
    } else {
      QueuedSound(db'.commands, k, row', cmd);
    }
  }

  lemma QueuedOthers(db: Db, k: Id, stopping: bool, cmd: Id, now: int, j: Id)
    requires Bumped(db.commands, db.connectors, k) && cmd !in db.commands && j in db.connectors && j != k
    ensures ConnectorSound(QueueConnectorSync(db, k, stopping, cmd, now).commands, j, db.connectors[j])
  {
    OtherConnectorSound(db.commands, QueueConnectorSync(db, k, stopping, cmd, now).commands, j, db.connectors[j]);
  }

  lemma QueueFenced(db: Db, k: Id, stopping: bool, cmd: Id, now: int)
    requires Bumped(db.commands, db.connectors, k) && cmd !in db.commands
    ensures var db' := QueueConnectorSync(db, k, stopping, cmd, now); Fenced(db'.commands, db'.connectors)
  {
    var db' := QueueConnectorSync(db, k, stopping, cmd, now);
    QueuedOwn(db, k, stopping, cmd, now);
    forall j | j in db'.connectors && j != k ensures ConnectorSound(db'.commands, j, db'.connectors[j]) {
      QueuedOthers(db, k, stopping, cmd, now, j);
    }
    QueuedUnique(db, k, stopping, cmd, now);
  }

  lemma QueuedUnique(db: Db, k: Id, stopping: bool, cmd: Id, now: int)
    requires Bumped(db.commands, db.connectors, k) && cmd !in db.commands
    ensures WaitingUnique(QueueConnectorSync(db, k, stopping, cmd, now).commands)
  {
    var commands' := QueueConnectorSync(db, k, stopping, cmd, now).commands;
    forall c, e, a, j | c in commands' && e in commands' && PendingSync(commands'[c], a, j)
      && PendingSync(commands'[e], a, j)
      ensures c == e
    {
      assert c in db.commands ==> PendingSync(db.commands[c], a, j);
      assert e in db.commands ==> PendingSync(db.commands[e], a, j);
    }
  }

  /** Nothing but sync payloads and new rows without an operation changes. */
  ghost predicate QueueExtended(commands: map<Id, Command>, commands': map<Id, Command>)
  {
    && (forall c :: c in commands ==>
          && c in commands' && commands'[c].status == commands[c].status && commands'[c].agent == commands[c].agent
          && commands'[c].result == commands[c].result
          && (commands'[c].kind == commands[c].kind
              || (commands[c].kind.ConnectorSync? && commands'[c].kind.ConnectorSync?)))
    && (forall c :: c in commands' && c !in commands ==>
        !commands'[c].kind.ForOperation? && commands'[c].status == Pending && commands'[c].result == None)
  }

  lemma ExtendedQueue(db: Db, commands': map<Id, Command>)
    requires Lockstep(db.commands, db.operations) && ResultsSound(db.commands) && EventsOnce(db.commands, db.events)
    requires QueueExtended(db.commands, commands')
    ensures Lockstep(commands', db.operations) && ResultsSound(commands') && EventsOnce(commands', db.events)
  {
  }

  lemma RemovalFenced(db: Db, k: Id, target: Id, removeCmd: Id, now: int, cleared: Db)
    requires k in db.connectors && target != db.connectors[k].agent && removeCmd !in db.commands
    requires Fenced(db.commands, db.connectors) && cleared == QueueRemoval(db, k, target, removeCmd, now)
    ensures Fenced(cleared.commands, db.connectors)
  {
    var remove := NewCommand(db.connectors[k].agent, ConnectorRemove(k, db.connectors[k].desired + 1), now);
    assert cleared.commands == db.commands[removeCmd := remove];
    NewCommandFenced(db.commands, db.connectors, removeCmd, remove);
  }

  lemma RemovalExtends(db: Db, k: Id, target: Id, removeCmd: Id, now: int)
    requires k in db.connectors && removeCmd !in db.commands
    ensures QueueExtended(db.commands, QueueRemoval(db, k, target, removeCmd, now).commands)
  {
  }

  lemma RevisedBumped(commands: map<Id, Command>, connectors: map<Id, Connector>, k: Id, row: Connector)
    requires Fenced(commands, connectors) && k in connectors && row.desired == connectors[k].desired + 1
    ensures Bumped(commands, connectors[k := row], k)
  {
    assert ConnectorSound(commands, k, connectors[k]);
  }

  lemma ClearedInv(db: Db, k: Id, row: Connector, removeCmd: Id, now: int)
    requires Inv(db) && k in db.connectors && removeCmd !in db.commands && row.desired == db.connectors[k].desired + 1
    ensures var cleared := QueueRemoval(db, k, row.agent, removeCmd, now);
      QueueExtended(db.commands, cleared.commands) && Bumped(cleared.commands, db.connectors[k := row], k)
  {
    var cleared := QueueRemoval(db, k, row.agent, removeCmd, now);
    if row.agent != db.connectors[k].agent { RemovalFenced(db, k, row.agent, removeCmd, now, cleared); }
    RemovalExtends(db, k, row.agent, removeCmd, now);
    RevisedBumped(cleared.commands, cleared.connectors, k, row);
  }

  lemma ExtendedTwice(a: map<Id, Command>, b: map<Id, Command>, c: map<Id, Command>)
    requires QueueExtended(a, b) && QueueExtended(b, c)
    ensures QueueExtended(a, c)
  {
  }

  lemma UpdateConnectorInv(db: Db, k: Id, enabled: Option<bool>, agent: Option<Id>, identityOk: bool, removeCmd: Id,
                           syncCmd: Id, now: int)
    requires Inv(db) && removeCmd !in db.commands && syncCmd !in db.commands && removeCmd != syncCmd
    ensures Inv(UpdateConnector(db, k, enabled, agent, identityOk, removeCmd, syncCmd, now))
  {
    if k in db.connectors {
      var row := Revised(db.connectors[k], enabled, agent);
      if Enrolled(db.known.agents, row.agent) && identityOk {
        var cleared := QueueRemoval(db, k, row.agent, removeCmd, now);
        ClearedInv(db, k, row, removeCmd, now);
        var bumped := cleared.(connectors := db.connectors[k := row]);
        QueueExtends(cleared, bumped, k, !row.enabled, syncCmd, now);
        ExtendedTwice(db.commands, cleared.commands,
                      QueueConnectorSync(bumped, k, !row.enabled, syncCmd, now).commands);
        RequeueInv(db, bumped, k, !row.enabled, syncCmd, now);
      }
    }
  }

  /** Queueing the sync of a new revision restores the invariant. */
  lemma RequeueInv(db: Db, bumped: Db, k: Id, stopping: bool, cmd: Id, now: int)
    requires Inv(db) && bumped == db.(commands := bumped.commands, connectors := bumped.connectors)
      && cmd !in bumped.commands
    requires Bumped(bumped.commands, bumped.connectors, k)
    requires QueueExtended(db.commands, QueueConnectorSync(bumped, k, stopping, cmd, now).commands)
    ensures Inv(QueueConnectorSync(bumped, k, stopping, cmd, now))
  {
    QueueFenced(bumped, k, stopping, cmd, now);
    ExtendedQueue(db, QueueConnectorSync(bumped, k, stopping, cmd, now).commands);
  }

  lemma QueueExtends(db: Db, bumped: Db, k: Id, stopping: bool, cmd: Id, now: int)
    requires bumped == db.(connectors := bumped.connectors) && k in bumped.connectors && cmd !in db.commands
    ensures QueueExtended(db.commands, QueueConnectorSync(bumped, k, stopping, cmd, now).commands)
  {
  }

  lemma CreateConnectorInv(db: Db, k: Id, agent: Id, enabled: bool, accountOk: bool, cmd: Id, now: int)
    requires Inv(db) && k !in db.connectors && cmd !in db.commands
    ensures Inv(CreateConnector(db, k, agent, enabled, accountOk, cmd, now))
  {
    var db' := CreateConnector(db, k, agent, enabled, accountOk, cmd, now);
    if db' != db {
      var created := db.(connectors := db.connectors[k := Connector(agent, enabled, 1, SyncPending)]);
      assert forall c :: c in db.commands ==> !Syncs(db.commands[c], k);
      if enabled {
        assert Bumped(created.commands, created.connectors, k);
        QueueExtends(db, created, k, false, cmd, now);
        RequeueInv(db, created, k, false, cmd, now);
      } else {
        assert ConnectorSound(db.commands, k, created.connectors[k]);
      }
    }
  }

  lemma PurgeChangesNothing(db: Db, purged: set<Id>)
    requires Inv(db)
    ensures PurgeLogs(db, purged) == db
  {
    assert PurgeLogs(db, purged).commands == db.commands;
  }

  // ---------------------------------------------------------------- all transactions

  datatype Step =
    | SetInventory(known: Inventory)
    | NewDeployment(deployment: Id, agent: Id)
    | NewBackup(stack: Id, cmd: Id, op: Id, now: int)
    | NewRestore(source: Id, cmd: Id, op: Id, now: int)
    | NewRuntime(agent: Id, project: string, service: Option<string>, cmd: Id, op: Id, now: int)
    | NewLogRequest(agent: Id, cmd: Id, op: Id, now: int)
    | NewRun(deployment: Id, revision: Id, action: Action, cmd: Id, op: Id, now: int)
    | NewConnector(connector: Id, agent: Id, on: bool, accountOk: bool, cmd: Id, now: int)
    | ChangeConnector(connector: Id, enabled: Option<bool>, newAgent: Option<Id>, identityOk: bool, removeCmd: Id,
                      syncCmd: Id, now: int)
    | NewPlainCommand(agent: Id, kind: CommandKind, cmd: Id, now: int)
    | Claim(agent: Id, chosen: seq<Id>, limit: nat, now: int)
    | Complete(agent: Id, cmd: Id, ok: bool, result: Result)
    | Sweep(rows: seq<Id>, staleBefore: int, now: int)
    | Purge(purged: set<Id>)

  ghost predicate Enabled(db: Db, step: Step)
  {
    match step
    case NewDeployment(d, _) => d !in db.deployments
    case NewBackup(_, cmd, op, _) => Fresh(db, cmd, op)
    case NewRestore(_, cmd, op, _) => Fresh(db, cmd, op)
    case NewRuntime(_, _, _, cmd, op, _) => Fresh(db, cmd, op)
    case NewLogRequest(_, cmd, op, _) => Fresh(db, cmd, op)
    case NewRun(_, _, _, cmd, op, _) => Fresh(db, cmd, op)
    case NewConnector(k, _, _, _, cmd, _) => k !in db.connectors && cmd !in db.commands
    case ChangeConnector(_, _, _, _, r, c, _) => r !in db.commands && c !in db.commands && r != c
    case NewPlainCommand(_, kind, cmd, _) => cmd !in db.commands && (kind.EntitySync? || kind.OtherCommand?)
    case Claim(agent, chosen, limit, now) => ChosenForClaim(db, agent, chosen, limit, now)
    case Sweep(rows, before, now) => StaleRows(db, rows, before, now)
    case _ => true
  }

  ghost function Do(db: Db, step: Step): Db
    requires Enabled(db, step)
  {
    match step
    case SetInventory(known) => db.(known := known)
    case NewDeployment(d, agent) =>
      if Enrolled(db.known.agents, agent)
      then db.(deployments := db.deployments[d := Deployment(agent, None, NotDeployed)])
      else db
    case NewBackup(stack, cmd, op, now) => CreateBackup(db, stack, cmd, op, now).0
    case NewRestore(source, cmd, op, now) => CreateRestore(db, source, cmd, op, now).0
    case NewRuntime(agent, project, service, cmd, op, now) =>
      CreateRuntimeOperation(db, agent, project, service, cmd, op, now).0
    case NewLogRequest(agent, cmd, op, now) => CreateLogRequest(db, agent, cmd, op, now).0
    case NewRun(d, r, action, cmd, op, now) => CreateDeploymentRun(db, d, r, action, cmd, op, now).0
    case NewConnector(k, agent, on, accountOk, cmd, now) => CreateConnector(db, k, agent, on, accountOk, cmd, now)
    case ChangeConnector(k, on, agent, ok, r, c, now) => UpdateConnector(db, k, on, agent, ok, r, c, now)
    case NewPlainCommand(agent, kind, cmd, now) =>
      if agent in db.known.agents then db.(commands := db.commands[cmd := NewCommand(agent, kind, now)]) else db
    case Claim(agent, chosen, _, now) => ClaimAll(db, agent, chosen, now)
    case Complete(agent, cmd, ok, result) => CompleteCommand(db, agent, cmd, ok, result)
    case Sweep(rows, _, _) => RowsKnown(db, rows, step.staleBefore, step.now); FailAll(db, rows)
    case Purge(purged) => PurgeLogs(db, purged)
  }

  lemma RowsKnown(db: Db, rows: seq<Id>, staleBefore: int, now: int)
    requires StaleRows(db, rows, staleBefore, now)
    ensures forall i :: 0 <= i < |rows| ==> rows[i] in db.commands && !Terminal(db.commands[rows[i]].status)
  {
    forall i | 0 <= i < |rows| ensures rows[i] in db.commands && !Terminal(db.commands[rows[i]].status) {
      assert rows[i] in rows;
    }
  }

  ghost predicate Legal(db: Db, steps: seq<Step>)
    decreases |steps|
  {
    steps == [] || (Enabled(db, steps[0]) && Legal(Do(db, steps[0]), steps[1..]))
  }

  ghost function Exec(db: Db, steps: seq<Step>): Db
    requires Legal(db, steps)
    decreases |steps|
  {
    if steps == [] then db else Exec(Do(db, steps[0]), steps[1..])
  }

  predicate Init(db: Db)
  {
    && db.deployments == map[] && db.connectors == map[] && db.commands == map[] && db.operations == map[]
    && db.events == []
  }

  lemma CreateInv(db: Db, step: Step)
    requires Inv(db) && Enabled(db, step)
    requires step.NewBackup? || step.NewRestore? || step.NewRuntime? || step.NewLogRequest?
    ensures Inv(Do(db, step))
  {
    match step {
      case NewBackup(stack, cmd, op, now) =>
        if Do(db, step) != db { InsertPlainInv(db, db.known.stacks[stack], Backup(stack), cmd, op, now); }
      case NewRestore(source, cmd, op, now) =>
        if Do(db, step) != db {
          var backup := db.operations[source];
          InsertPlainInv(db, backup.agent, Restore(backup.detail.stack, source), cmd, op, now);
        }
      case NewRuntime(agent, project, service, cmd, op, now) =>
        if Do(db, step) != db { InsertPlainInv(db, agent, Runtime(project, service), cmd, op, now); }
      case NewLogRequest(agent, cmd, op, now) =>
        if Do(db, step) != db { InsertPlainInv(db, agent, Logs, cmd, op, now); }
    }
  }

  lemma NewDeploymentInv(db: Db, d: Id, agent: Id)
    requires Inv(db) && d !in db.deployments
    ensures Inv(Do(db, NewDeployment(d, agent)))
  {
    var row := Deployment(agent, None, NotDeployed);
    assert DeploymentSound(db.operations, d, row);
  }

  lemma PlainCommandInv(db: Db, agent: Id, kind: CommandKind, cmd: Id, now: int)
    requires Inv(db) && Enabled(db, NewPlainCommand(agent, kind, cmd, now))
    ensures Inv(Do(db, NewPlainCommand(agent, kind, cmd, now)))
  {
    var commands' := db.commands[cmd := NewCommand(agent, kind, now)];
    NewCommandFenced(db.commands, db.connectors, cmd, NewCommand(agent, kind, now));
    ExtendedQueue(db, commands');
  }

  /** Every transaction keeps the invariant. */
  lemma StepInv(db: Db, step: Step)
    requires Inv(db) && Enabled(db, step)
    ensures Inv(Do(db, step))
  {
    match step {
      case SetInventory(_) =>
      case NewDeployment(d, agent) => NewDeploymentInv(db, d, agent);
      case NewRun(d, r, action, cmd, op, now) => InsertRunInv(db, d, r, action, cmd, op, now);
      case NewConnector(k, agent, on, accountOk, cmd, now) => CreateConnectorInv(db, k, agent, on, accountOk, cmd, now);
      case ChangeConnector(k, on, agent, ok, r, c, now) => UpdateConnectorInv(db, k, on, agent, ok, r, c, now);
      case NewPlainCommand(agent, kind, cmd, now) => PlainCommandInv(db, agent, kind, cmd, now);
      case Claim(agent, chosen, limit, now) => ClaimAllInv(db, agent, chosen, limit, now);
      case Complete(agent, cmd, ok, result) =>
        if CompletionOf(db, agent, cmd, ok, result) == Updated { FinishInv(db, agent, cmd, ok, result); }
      case Sweep(rows, before, now) => FailAllInv(db, rows, before, now);
      case Purge(purged) => PurgeChangesNothing(db, purged);
      case _ => CreateInv(db, step);
    }
  }

  /** Whatever every transaction keeps, every run keeps. */
  lemma {:induction false} RunKeeps(keeps: Db -> bool, db: Db, steps: seq<Step>)
    requires keeps(db) && Legal(db, steps)
    requires forall d: Db, step: Step :: keeps(d) && Enabled(d, step) ==> keeps(Do(d, step))
    ensures keeps(Exec(db, steps))
    decreases |steps|
  {
    if steps != [] { RunKeeps(keeps, Do(db, steps[0]), steps[1..]); }
  }

  lemma RunInv(db: Db, steps: seq<Step>)
    requires Inv(db) && Legal(db, steps)
    ensures Inv(Exec(db, steps))
  {
    forall d: Db, step: Step | Inv(d) && Enabled(d, step) ensures Inv(Do(d, step)) {
      StepInv(d, step);
    }
    RunKeeps((d: Db) => Inv(d), db, steps);
  }

  lemma ReachableInv(db: Db, steps: seq<Step>)
    requires Init(db) && Legal(db, steps)
    ensures Inv(Exec(db, steps))
  {
    RunInv(db, steps);
  }

  // ---------------------------------------------------------------- what follows for every run

  /** Each operation row shows its command's status, whatever has happened. */
  lemma OperationsFollowCommands(db0: Db, steps: seq<Step>, o: Id)
    requires Init(db0) && Legal(db0, steps) && o in Exec(db0, steps).operations
    ensures var db := Exec(db0, steps); var row := db.operations[o];
      row.command in db.commands && db.commands[row.command].agent == row.agent
      && match db.commands[row.command].status
         case Pending => row.status == OpPending
         case Claimed => row.status == OpRunning
         case Succeeded => row.status == OpSucceeded
         case Failed => row.status == OpFailed
  {
    ReachableInv(db0, steps);
  }

  /** No stack ever has two active backups or restores, and no two active runtime actions overlap. */
  lemma ScopesExclude(db0: Db, steps: seq<Step>, o: Id, p: Id)
    requires Init(db0) && Legal(db0, steps) && o != p
    requires o in Exec(db0, steps).operations && p in Exec(db0, steps).operations
    requires ActiveOp(Exec(db0, steps).operations[o].status) && ActiveOp(Exec(db0, steps).operations[p].status)
    ensures var a, b := Exec(db0, steps).operations[o].detail, Exec(db0, steps).operations[p].detail;
      && (forall s :: !(OnStack(a, s) && OnStack(b, s)))
      && (a.Runtime? && b.Runtime? && a.project == b.project
          && Exec(db0, steps).operations[o].agent == Exec(db0, steps).operations[p].agent ==>
            a.service.Some? && b.service.Some? && a.service != b.service)
  {
    ReachableInv(db0, steps);
  }

  /**
   * A deployment is `deploying` or `stopping` exactly while one run is active, that run's prior
   * revision is the current one, and the current revision is that of the last run that succeeded
   * and was not a stop.
   */
  lemma DeploymentHistory(db0: Db, steps: seq<Step>, d: Id)
    requires Init(db0) && Legal(db0, steps) && d in Exec(db0, steps).deployments
    ensures var db := Exec(db0, steps); var row := db.deployments[d];
      && (forall o, p :: ActiveRun(db.operations, o, d) && ActiveRun(db.operations, p, d) ==> o == p)
      && (row.status == Deploying || row.status == Stopping <==> exists o :: ActiveRun(db.operations, o, d))
      && (forall o :: ActiveRun(db.operations, o, d) ==> db.operations[o].detail.prior == row.current)
      && (row.current == None <==> forall o :: !Effective(db.operations, o, d))
      && (row.current.Some? ==>
          exists o :: Latest(db.operations, o, d) && db.operations[o].detail.revision == row.current.value)
  {
    ReachableInv(db0, steps);
    var db := Exec(db0, steps);
    assert DeploymentSound(db.operations, d, db.deployments[d]);
    forall o, p | ActiveRun(db.operations, o, d) && ActiveRun(db.operations, p, d) ensures o == p {
    }
  }

  /**
   * A connector has one waiting sync per agent, the one at its agent carries the desired revision,
   * `active` means a sync of exactly that revision succeeded there, and once a sync was ever queued
   * an in-progress status means such a sync is still to come.
   */
  lemma ConnectorFencing(db0: Db, steps: seq<Step>, k: Id)
    requires Init(db0) && Legal(db0, steps) && k in Exec(db0, steps).connectors
    ensures var db := Exec(db0, steps); var row := db.connectors[k];
      && (forall c, e, a ::
          c in db.commands && e in db.commands && PendingSync(db.commands[c], a, k) && PendingSync(db.commands[e], a, k)
          ==> c == e)
      && (forall c :: c in db.commands && PendingSync(db.commands[c], row.agent, k) ==>
          db.commands[c].kind.revision == row.desired)
      && (row.status == Active ==>
          exists c :: c in db.commands && CurrentSync(db.commands[c], k, row) && db.commands[c].status == Succeeded)
      && (InFlight(row.status) && (exists c :: c in db.commands && Syncs(db.commands[c], k)) ==>
            exists c :: c in db.commands && CurrentSync(db.commands[c], k, row) && !Terminal(db.commands[c].status))
  {
    ReachableInv(db0, steps);
    assert ConnectorSound(Exec(db0, steps).commands, k, Exec(db0, steps).connectors[k]);
  }

  /** Results, stale failures and claims of another revision or agent leave every connector row alone. */
  lemma OldSyncsChangeNoRow(db: Db, cmd: Id, ok: bool, result: Result, now: int)
    requires cmd in db.commands && db.commands[cmd].kind.ConnectorSync?
    requires forall k :: k in db.connectors ==> !CurrentSync(db.commands[cmd], k, db.connectors[k])
    ensures CompleteCommand(db, db.commands[cmd].agent, cmd, ok, result).connectors == db.connectors
    ensures FailOne(db, cmd).connectors == db.connectors
    ensures ClaimOne(db, db.commands[cmd].agent, cmd, now).connectors == db.connectors
  {
  }

  // ---- outcomes

  function Rank(s: CommandStatus): nat { match s case Pending => 0 case Claimed => 1 case _ => 2 }

  /** Commands are never lost or moved, go forward only, and a terminal one never changes again. */
  ghost predicate Advanced(commands: map<Id, Command>, commands': map<Id, Command>)
  {
    forall c :: c in commands ==>
      && c in commands'
      && commands'[c].agent == commands[c].agent && Rank(commands[c].status) <= Rank(commands'[c].status)
      && (commands[c].status != Pending ==> commands'[c].kind == commands[c].kind)
      && (Terminal(commands[c].status) ==>
          commands'[c].status == commands[c].status && commands'[c].result == commands[c].result)
  }

  lemma AdvancedFurther(commands: map<Id, Command>, commands': map<Id, Command>, c: Id, row: Command)
    requires Advanced(commands, commands') && c in commands' && !Terminal(commands'[c].status)
    requires row.agent == commands'[c].agent && row.kind == commands'[c].kind
      && Rank(commands'[c].status) <= Rank(row.status)
    ensures Advanced(commands, commands'[c := row])
  {
  }

  lemma ClaimAdvances(db: Db, agent: Id, chosen: seq<Id>, limit: nat, now: int)
    requires ChosenForClaim(db, agent, chosen, limit, now)
    ensures Advanced(db.commands, ClaimAll(db, agent, chosen, now).commands)
  {
    forall d: Db, c: Id | Advanced(db.commands, d.commands) && c in d.commands && Claimable(d.commands[c], agent, now)
      ensures Advanced(db.commands, ClaimOne(d, agent, c, now).commands)
    {
      ClaimOneFrame(d, agent, c, now);
    }
    ClaimAllKeeps((d: Db) => Advanced(db.commands, d.commands), db, agent, chosen, now);
  }

  lemma SweepAdvances(db: Db, rows: seq<Id>)
    requires forall i :: 0 <= i < |rows| ==> rows[i] in db.commands && !Terminal(db.commands[rows[i]].status)
    requires forall i, j :: 0 <= i < j < |rows| ==> rows[i] != rows[j]
    ensures Advanced(db.commands, FailAll(db, rows).commands)
  {
    forall d: Db, c: Id | Advanced(db.commands, d.commands) && c in d.commands && !Terminal(d.commands[c].status)
      ensures Advanced(db.commands, FailOne(d, c).commands)
    {
      FailOneFrame(d, c);
      AdvancedFurther(db.commands, d.commands, c, FailOne(d, c).commands[c]);
    }
    FailAllKeeps((d: Db) => Advanced(db.commands, d.commands), db, rows);
  }

  lemma StepAdvances(db: Db, step: Step)
    requires Inv(db) && Enabled(db, step)
    ensures Advanced(db.commands, Do(db, step).commands)
  {
    match step {
      case Claim(agent, chosen, limit, now) => ClaimAdvances(db, agent, chosen, limit, now);
      case Sweep(rows, before, now) => RowsKnown(db, rows, before, now); SweepAdvances(db, rows);
      case Purge(purged) => PurgeChangesNothing(db, purged);
      case ChangeConnector(k, on, agent, ok, r, c, now) => UpdateAdvances(db, k, on, agent, ok, r, c, now);
      case NewConnector(k, agent, on, accountOk, cmd, now) => ConnectorAdvances(db, k, agent, on, accountOk, cmd, now);
      case SetInventory(_) =>
      case NewDeployment(_, _) =>
      case NewPlainCommand(_, _, _, _) => OtherAdvances(db, step);
      case Complete(_, _, _, _) => OtherAdvances(db, step);
      case _ => CreateAdvances(db, step);
    }
  }

  lemma ConnectorAdvances(db: Db, k: Id, agent: Id, on: bool, accountOk: bool, cmd: Id, now: int)
    requires k !in db.connectors && cmd !in db.commands
    ensures Advanced(db.commands, CreateConnector(db, k, agent, on, accountOk, cmd, now).commands)
  {
  }

  lemma OtherAdvances(db: Db, step: Step)
    requires Enabled(db, step) && (step.NewPlainCommand? || step.Complete?)
    ensures Advanced(db.commands, Do(db, step).commands)
  {
  }

  lemma UpdateAdvances(db: Db, k: Id, on: Option<bool>, agent: Option<Id>, ok: bool, r: Id, c: Id, now: int)
    requires r !in db.commands && c !in db.commands && r != c
    ensures Advanced(db.commands, UpdateConnector(db, k, on, agent, ok, r, c, now).commands)
  {
    if UpdateConnector(db, k, on, agent, ok, r, c, now) != db {
      var row := Revised(db.connectors[k], on, agent);
      var cleared := QueueRemoval(db, k, row.agent, r, now).(connectors := db.connectors[k := row]);
      QueueAdvances(cleared, k, !row.enabled, c, now);
      AdvancedTransitive(db.commands, cleared.commands, QueueConnectorSync(cleared, k, !row.enabled, c, now).commands);
    }
  }

  lemma QueueAdvances(db: Db, k: Id, stopping: bool, cmd: Id, now: int)
    requires k in db.connectors && cmd !in db.commands
    ensures Advanced(db.commands, QueueConnectorSync(db, k, stopping, cmd, now).commands)
  {
  }

  lemma AdvancedTransitive(a: map<Id, Command>, b: map<Id, Command>, c: map<Id, Command>)
    requires Advanced(a, b) && Advanced(b, c)
    ensures Advanced(a, c)
  {
  }

  lemma CreateAdvances(db: Db, step: Step)
    requires Enabled(db, step)
      && (step.NewBackup? || step.NewRestore? || step.NewRuntime? || step.NewLogRequest? || step.NewRun?)
    ensures Advanced(db.commands, Do(db, step).commands)
  {
  }

  /** Over any further run, statuses only move forward and terminal outcomes stay as they are. */
  lemma OutcomesAreFinal(db: Db, steps: seq<Step>, c: Id)
    requires Inv(db) && Legal(db, steps) && c in db.commands
    ensures var after := Exec(db, steps).commands;
      && c in after && Rank(db.commands[c].status) <= Rank(after[c].status)
      && (Terminal(db.commands[c].status) ==>
          after[c].status == db.commands[c].status && after[c].result == db.commands[c].result)
  {
    forall d: Db, step: Step | Inv(d) && Advanced(db.commands, d.commands) && Enabled(d, step)
      ensures Inv(Do(d, step)) && Advanced(db.commands, Do(d, step).commands)
    {
      StepInv(d, step);
      StepAdvances(d, step);
      AdvancedTransitive(db.commands, d.commands, Do(d, step).commands);
    }
    RunKeeps((d: Db) => Inv(d) && Advanced(db.commands, d.commands), db, steps);
  }

  lemma ClaimLeavesLive(db: Db, agent: Id, chosen: seq<Id>, limit: nat, now: int, c: Id)
    requires ChosenForClaim(db, agent, chosen, limit, now) && c in db.commands && !Terminal(db.commands[c].status)
    ensures !Terminal(ClaimAll(db, agent, chosen, now).commands[c].status)
  {
    forall d: Db, e: Id | (c in d.commands && !Terminal(d.commands[c].status)) && e in d.commands
      && Claimable(d.commands[e], agent, now)
      ensures c in ClaimOne(d, agent, e, now).commands && !Terminal(ClaimOne(d, agent, e, now).commands[c].status)
    {
      ClaimOneStatus(d, agent, e, now, c);
    }
    ClaimAllKeeps((d: Db) => c in d.commands && !Terminal(d.commands[c].status), db, agent, chosen, now);
  }

  lemma ClaimOneStatus(db: Db, agent: Id, cmd: Id, now: int, c: Id)
    requires cmd in db.commands && c in db.commands
    ensures c in ClaimOne(db, agent, cmd, now).commands
    ensures ClaimOne(db, agent, cmd, now).commands[c].status == if c == cmd then Claimed else db.commands[c].status
  {
  }

  lemma FailAllNeverSucceeds(db: Db, rows: seq<Id>, c: Id)
    requires forall i :: 0 <= i < |rows| ==> rows[i] in db.commands && !Terminal(db.commands[rows[i]].status)
    requires forall i, j :: 0 <= i < j < |rows| ==> rows[i] != rows[j]
    requires c in db.commands && db.commands[c].status != Succeeded
    ensures c in FailAll(db, rows).commands && FailAll(db, rows).commands[c].status != Succeeded
  {
    forall d: Db, e: Id | (c in d.commands && d.commands[c].status != Succeeded) && e in d.commands
      && !Terminal(d.commands[e].status)
      ensures c in FailOne(d, e).commands && FailOne(d, e).commands[c].status != Succeeded
    {
      FailOneStatus(d, e, c);
    }
    FailAllKeeps((d: Db) => c in d.commands && d.commands[c].status != Succeeded, db, rows);
  }

  lemma FailOneStatus(db: Db, cmd: Id, c: Id)
    requires cmd in db.commands && c in db.commands
    ensures c in FailOne(db, cmd).commands
    ensures FailOne(db, cmd).commands[c].status == if c == cmd then Failed else db.commands[c].status
  {
    FailOneFrame(db, cmd);
  }

  lemma SweepNeverSucceeds(db: Db, rows: seq<Id>, staleBefore: int, now: int, c: Id)
    requires StaleRows(db, rows, staleBefore, now) && c in db.commands && db.commands[c].status != Succeeded
    ensures Do(db, Sweep(rows, staleBefore, now)).commands[c].status != Succeeded
  {
    RowsKnown(db, rows, staleBefore, now);
    FailAllNeverSucceeds(db, rows, c);
  }

  lemma CompletionLeavesPending(db: Db, agent: Id, cmd: Id, ok: bool, result: Result, c: Id)
    requires c in db.commands && db.commands[c].status == Pending
    ensures var commands' := CompleteCommand(db, agent, cmd, ok, result).commands;
      c in commands' && commands'[c].status == Pending
  {
  }

  /** A command leaves `pending` for a terminal status only by the stale sweep, and then fails. */
  lemma PendingEndsOnlyStale(db: Db, step: Step, c: Id)
    requires Enabled(db, step) && c in db.commands && db.commands[c].status == Pending
    requires c in Do(db, step).commands && Terminal(Do(db, step).commands[c].status)
    ensures step.Sweep? && Do(db, step).commands[c].status == Failed
  {
    match step {
      case Claim(agent, chosen, limit, now) => ClaimLeavesLive(db, agent, chosen, limit, now, c);
      case Sweep(rows, before, now) => SweepNeverSucceeds(db, rows, before, now, c);
      case Complete(agent, cmd, ok, result) => CompletionLeavesPending(db, agent, cmd, ok, result, c);
      case _ =>
    }
  }

  /** The same submission again is recognised and changes nothing; any other one is refused. */
  lemma ResubmissionIsNoOp(db: Db, agent: Id, cmd: Id, ok: bool, result: Result, ok': bool, result': Result)
    requires CompletionOf(db, agent, cmd, ok, result) == Updated
    ensures var after := CompleteCommand(db, agent, cmd, ok, result);
      && CompletionOf(after, agent, cmd, ok, result) == Idempotent
      && CompletionOf(after, agent, cmd, ok', result') in {Idempotent, Conflict, Rejected}
      && CompleteCommand(after, agent, cmd, ok', result') == after
  {
  }

  /** In every reachable state each command has written at most one event, and none before it ended. */
  lemma EventsFireOnce(db0: Db, steps: seq<Step>, i: int, j: int)
    requires Init(db0) && Legal(db0, steps) && 0 <= i < j < |Exec(db0, steps).events|
    ensures Exec(db0, steps).events[i].command != Exec(db0, steps).events[j].command
    ensures Exec(db0, steps).events[i].command in Exec(db0, steps).commands
    ensures Terminal(Exec(db0, steps).commands[Exec(db0, steps).events[i].command].status)
  {
    ReachableInv(db0, steps);
  }
}
