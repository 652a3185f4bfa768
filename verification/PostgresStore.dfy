/** The store as the program keeps it: tables updated in place by one transaction at a time. */
module PostgresStore {
  import opened Common
  import opened CommandStore
  import opened CommandInvariants

  predicate LeasedTo(c: Command, agent: Id, now: int)
  {
    c.status == Claimed && c.agent == agent && c.leaseUntil == Some(now + LeaseOf(c.kind))
  }

  /** The command shows this outcome with this result. */
  predicate Shows(commands: map<Id, Command>, cmd: Id, ok: bool, result: Result)
  {
    && cmd in commands && commands[cmd].status == Final(ok)
    && commands[cmd].result == Some(StoredResult(commands[cmd].kind, result))
  }

  /** The command is there, and is the agent's. */
  predicate Holds(commands: map<Id, Command>, agent: Id, cmd: Id) { cmd in commands && commands[cmd].agent == agent }

  /** A new pending command and its pending operation, pointing at each other; all else as before. */
  ghost predicate Queued(before: Db, after: Db, agent: Id, detail: Detail, cmd: Id, op: Id)
  {
    && after == before.(commands := after.commands, operations := after.operations, clock := after.clock)
    && cmd in after.commands && op in after.operations
    && after.commands == before.commands[cmd := after.commands[cmd]]
    && after.operations == before.operations[op := after.operations[op]]
    && after.commands[cmd].agent == agent && after.commands[cmd].kind == ForOperation(KindOf(detail), op)
    && after.commands[cmd].status == Pending && after.commands[cmd].result == None
    && after.operations[op].detail == detail && after.operations[op].agent == agent
    && after.operations[op].command == cmd && after.operations[op].status == OpPending
  }

  /** A succeeded backup whose stack and agent are available. */
  predicate Restorable(db: Db, source: Id)
  {
    && source in db.operations && db.operations[source].detail.Backup? && db.operations[source].status == OpSucceeded
    && db.operations[source].detail.stack in db.known.stacks && db.operations[source].agent in db.known.agents
  }

  /** The operations of the command end alike. */
  ghost predicate OperationsEnded(before: map<Id, Operation>, after: map<Id, Operation>, cmd: Id, ok: bool)
  {
    && after.Keys == before.Keys
    && forall o :: o in before ==>
         after[o] == if before[o].command == cmd then before[o].(status := Mirror(Final(ok))) else before[o]
  }

  /** Only the deployment of the command's own active run may change. */
  ghost predicate DeploymentsEnded(operations: map<Id, Operation>, before: map<Id, Deployment>,
                                   after: map<Id, Deployment>, cmd: Id)
  {
    && after.Keys == before.Keys
    && forall d :: d in before ==>
         after[d] == before[d] || exists o :: ActiveRun(operations, o, d) && operations[o].command == cmd
  }

  /** Only the connector that waits for exactly this sync may change. */
  ghost predicate ConnectorsEnded(c: Command, before: map<Id, Connector>, after: map<Id, Connector>)
  {
    after.Keys == before.Keys && forall k :: k in before && !CurrentSync(c, k, before[k]) ==> after[k] == before[k]
  }

  /** At most one event is written, and it names the command. */
  ghost predicate EventsEnded(before: seq<Event>, after: seq<Event>, cmd: Id)
  {
    after == before || exists kind :: after == before + [Event(cmd, kind)]
  }

  /** The end of command `cmd` and all that follows from it. */
  ghost predicate Ended(before: Db, after: Db, cmd: Id, ok: bool)
    requires cmd in before.commands
  {
    && after == before.(commands := after.commands, operations := after.operations, deployments := after.deployments,
                        connectors := after.connectors, events := after.events)
    && cmd in after.commands && after.commands == before.commands[cmd := after.commands[cmd]]
    && after.commands[cmd].status == Final(ok)
    && after.commands[cmd].kind == before.commands[cmd].kind && after.commands[cmd].agent == before.commands[cmd].agent
    && OperationsEnded(before.operations, after.operations, cmd, ok)
    && DeploymentsEnded(before.operations, before.deployments, after.deployments, cmd)
    && ConnectorsEnded(before.commands[cmd], before.connectors, after.connectors)
    && EventsEnded(before.events, after.events, cmd)
  }

  lemma StatusEnds(commands: map<Id, Command>, operations: map<Id, Operation>, cmd: Id, ok: bool)
    requires Lockstep(commands, operations) && cmd in commands && commands[cmd].kind.ForOperation?
    ensures OperationsEnded(operations, SetStatus(operations, commands[cmd].kind.id, Mirror(Final(ok))), cmd, ok)
  {
  }

  lemma NoneEnds(commands: map<Id, Command>, operations: map<Id, Operation>, cmd: Id, ok: bool)
    requires Lockstep(commands, operations) && cmd in commands && !commands[cmd].kind.ForOperation?
    ensures OperationsEnded(operations, operations, cmd, ok)
  {
  }

  lemma RunEnds(commands: map<Id, Command>, operations: map<Id, Operation>, deployments: map<Id, Deployment>, cmd: Id,
                row: Deployment)
    requires Lockstep(commands, operations) && cmd in commands && !Terminal(commands[cmd].status)
    requires commands[cmd].kind.ForOperation? && commands[cmd].kind.operation == RunKind
    requires operations[commands[cmd].kind.id].detail.deployment in deployments
    ensures var d := operations[commands[cmd].kind.id].detail.deployment;
      DeploymentsEnded(operations, deployments, deployments[d := row], cmd)
  {
    var o := commands[cmd].kind.id;
    assert ActiveRun(operations, o, operations[o].detail.deployment) && operations[o].command == cmd;
  }

  lemma FinishOperations(db: Db, agent: Id, cmd: Id, ok: bool, result: Result)
    requires CompletionOf(db, agent, cmd, ok, result) == Updated && Inv(db)
    ensures OperationsEnded(db.operations, Finish(db, agent, cmd, ok, result).operations, cmd, ok)
  {
    FinishRows(db, agent, cmd, ok, result);
    if db.commands[cmd].kind.ForOperation? {
      StatusEnds(db.commands, db.operations, cmd, ok);
    } else {
      NoneEnds(db.commands, db.operations, cmd, ok);
    }
  }

  lemma FinishMeans(db: Db, agent: Id, cmd: Id, ok: bool, result: Result)
    requires CompletionOf(db, agent, cmd, ok, result) == Updated && Inv(db)
    ensures Inv(Finish(db, agent, cmd, ok, result)) && Ended(db, Finish(db, agent, cmd, ok, result), cmd, ok)
  {
    FinishInv(db, agent, cmd, ok, result);
    FinishOperations(db, agent, cmd, ok, result);
    FinishDeployments(db, agent, cmd, ok, result);
    CompletionWritesOne(db, agent, cmd, ok, result);
    FinishWrites(db, agent, cmd, ok, result);
  }

  lemma FinishWrites(db: Db, agent: Id, cmd: Id, ok: bool, result: Result)
    requires cmd in db.commands && db.commands[cmd].agent == agent
    ensures var after := Finish(db, agent, cmd, ok, result);
      && after == db.(commands := after.commands, operations := after.operations, deployments := after.deployments,
                      connectors := after.connectors, events := after.events)
      && after.commands == db.commands[cmd := after.commands[cmd]] && after.commands[cmd].status == Final(ok)
      && after.commands[cmd].kind == db.commands[cmd].kind && after.commands[cmd].agent == db.commands[cmd].agent
  {
  }

  lemma FinishDeployments(db: Db, agent: Id, cmd: Id, ok: bool, result: Result)
    requires CompletionOf(db, agent, cmd, ok, result) == Updated && Inv(db)
    ensures DeploymentsEnded(db.operations, db.deployments, Finish(db, agent, cmd, ok, result).deployments, cmd)
  {
    var c, after := db.commands[cmd], Finish(db, agent, cmd, ok, result);
    FinishRows(db, agent, cmd, ok, result);
    if c.kind.ForOperation? && c.kind.operation == RunKind {
      RunEnds(db.commands, db.operations, db.deployments, cmd,
              after.deployments[db.operations[c.kind.id].detail.deployment]);
    }
  }

  lemma CompletionWritesOne(db: Db, agent: Id, cmd: Id, ok: bool, result: Result)
    requires cmd in db.commands && db.commands[cmd].agent == agent
    ensures EventsEnded(db.events, Finish(db, agent, cmd, ok, result).events, cmd)
    ensures ConnectorsEnded(db.commands[cmd], db.connectors, Finish(db, agent, cmd, ok, result).connectors)
  {
  }

  lemma FailMeans(db: Db, cmd: Id)
    requires Inv(db) && cmd in db.commands && !Terminal(db.commands[cmd].status)
    ensures Inv(FailOne(db, cmd)) && Ended(db, FailOne(db, cmd), cmd, false)
  {
    FailOneInv(db, cmd);
    FailOperations(db, cmd);
    FailDeployments(db, cmd);
    SweepWritesOne(db, cmd);
    FailWrites(db, cmd);
  }

  lemma FailWrites(db: Db, cmd: Id)
    requires cmd in db.commands
    ensures var after := FailOne(db, cmd);
      && after == db.(commands := after.commands, operations := after.operations, deployments := after.deployments,
                      connectors := after.connectors, events := after.events)
      && after.commands == db.commands[cmd := after.commands[cmd]] && after.commands[cmd].status == Failed
      && after.commands[cmd].kind == db.commands[cmd].kind && after.commands[cmd].agent == db.commands[cmd].agent
  {
  }

  lemma FailOperations(db: Db, cmd: Id)
    requires Inv(db) && cmd in db.commands && !Terminal(db.commands[cmd].status)
    ensures OperationsEnded(db.operations, FailOne(db, cmd).operations, cmd, false)
  {
    if db.commands[cmd].kind.ForOperation? {
      FailOperationsInv(db, cmd);
      StatusEnds(db.commands, db.operations, cmd, false);
    } else {
      NoneEnds(db.commands, db.operations, cmd, false);
    }
  }

  lemma FailDeployments(db: Db, cmd: Id)
    requires Inv(db) && cmd in db.commands && !Terminal(db.commands[cmd].status)
    ensures DeploymentsEnded(db.operations, db.deployments, FailOne(db, cmd).deployments, cmd)
  {
    if db.commands[cmd].kind.ForOperation? { FailedDeployments(db, cmd); }
  }

  lemma FailedDeployments(db: Db, cmd: Id)
    requires Inv(db) && cmd in db.commands && !Terminal(db.commands[cmd].status) && db.commands[cmd].kind.ForOperation?
    ensures DeploymentsEnded(db.operations, db.deployments, FailOne(db, cmd).deployments, cmd)
  {
    var c := db.commands[cmd];
    SweptIsTarget(db.commands, db.operations, cmd);
    if c.kind.operation == RunKind {
      SweptDeployment(db.deployments, db.operations, c.kind.id);
      RunEnds(db.commands, db.operations, db.deployments, cmd,
              FailOne(db, cmd).deployments[db.operations[c.kind.id].detail.deployment]);
    }
  }

  lemma SweepWritesOne(db: Db, cmd: Id)
    requires cmd in db.commands
    ensures EventsEnded(db.events, FailOne(db, cmd).events, cmd)
    ensures ConnectorsEnded(db.commands[cmd], db.connectors, FailOne(db, cmd).connectors)
  {
  }

  /** `w` is the one waiting sync of the connector, at its desired revision; no other command changed. */
  ghost predicate WaitsAt(before: map<Id, Command>, after: map<Id, Command>, connector: Id, row: Connector, w: Id)
  {
    && after.Keys == before.Keys + {w}
    && w in after && PendingSync(after[w], row.agent, connector) && after[w].kind.revision == row.desired
    && (WaitingUnique(before) ==>
          forall c :: c in before && c != w ==> after[c] == before[c] && !PendingSync(after[c], row.agent, connector))
  }

  lemma RedirectedWaits(before: map<Id, Command>, after: map<Id, Command>, waiting: set<Id>, connector: Id,
                        k: Connector, now: int, w: Id)
    requires waiting == set c | c in before && PendingSync(before[c], k.agent, connector)
    requires w in waiting
    requires after == map c | c in before ::
        if c in waiting then before[c].(kind := ConnectorSync(connector, k.desired), createdAt := now) else before[c]
    ensures WaitsAt(before, after, connector, k, w)
  {
    assert WaitingUnique(before) ==> forall c :: c in waiting ==> c == w;
  }

  lemma AddedWaits(before: map<Id, Command>, after: map<Id, Command>, waiting: set<Id>, connector: Id, k: Connector,
                   now: int, cmd: Id)
    requires waiting == (set c | c in before && PendingSync(before[c], k.agent, connector)) && waiting == {}
    requires cmd !in before && after == before[cmd := NewCommand(k.agent, ConnectorSync(connector, k.desired), now)]
    ensures WaitsAt(before, after, connector, k, cmd)
  {
    forall c | c in before ensures !PendingSync(before[c], k.agent, connector) {
      assert c !in waiting;
    }
  }

  ghost predicate WaitsOnce(before: map<Id, Command>, after: map<Id, Command>, connector: Id, row: Connector)
  {
    exists w :: w in after && WaitsAt(before, after, connector, row, w)
  }

  lemma QueueRedirects(db: Db, connector: Id, stopping: bool, cmd: Id, now: int, waiting: set<Id>)
    requires connector in db.connectors && waiting != {}
    requires waiting == set c | c in db.commands
      && PendingSync(db.commands[c], db.connectors[connector].agent, connector)
    ensures var db', k := CommandStore.QueueConnectorSync(db, connector, stopping, cmd, now), db.connectors[connector];
      && db'.commands == (map c | c in db.commands ::
                            if c in waiting then db.commands[c].(kind :=
                                                                 ConnectorSync(connector, k.desired), createdAt := now)
                            else db.commands[c])
      && WaitsOnce(db.commands, db'.commands, connector, db'.connectors[connector])
  {
    var db', k := CommandStore.QueueConnectorSync(db, connector, stopping, cmd, now), db.connectors[connector];
    var w :| w in waiting;
    RedirectedWaits(db.commands, db'.commands, waiting, connector, k, now, w);
    assert WaitsAt(db.commands, db'.commands, connector, db'.connectors[connector], w);
  }

  lemma QueueAdds(db: Db, connector: Id, stopping: bool, cmd: Id, now: int, waiting: set<Id>)
    requires connector in db.connectors && cmd !in db.commands && waiting == {}
    requires waiting == set c | c in db.commands
      && PendingSync(db.commands[c], db.connectors[connector].agent, connector)
    ensures var db', k := CommandStore.QueueConnectorSync(db, connector, stopping, cmd, now), db.connectors[connector];
      && db'.commands == db.commands[cmd := NewCommand(k.agent, ConnectorSync(connector, k.desired), now)]
      && WaitsOnce(db.commands, db'.commands, connector, db'.connectors[connector])
  {
    var db', k := CommandStore.QueueConnectorSync(db, connector, stopping, cmd, now), db.connectors[connector];
    forall c | c in db.commands ensures !PendingSync(db.commands[c], k.agent, connector) {
      assert c !in waiting;
    }
    AddedWaits(db.commands, db'.commands, waiting, connector, k, now, cmd);
    assert WaitsAt(db.commands, db'.commands, connector, db'.connectors[connector], cmd);
  }

  lemma FailAllNext(db: Db, rows: seq<Id>, i: nat)
    requires i < |rows| && forall j :: 0 <= j < |rows| ==> rows[j] in db.commands
    ensures FailAll(db, rows[..i + 1]) == FailOne(FailAll(db, rows[..i]), rows[i])
  {
    assert rows[..i + 1][..i] == rows[..i];
  }

  lemma SweepKeeps(db: Db, rows: seq<Id>, staleBefore: int, now: int)
    requires StaleRows(db, rows, staleBefore, now)
    ensures Inv(db) ==> Inv(FailAll(db, rows))
  {
    if Inv(db) { StepInv(db, Sweep(rows, staleBefore, now)); }
  }

  lemma UpdateKeeps(db: Db, connector: Id, enabled: Option<bool>, agent: Option<Id>, identityOk: bool, removeCmd: Id,
                    syncCmd: Id, now: int)
    requires removeCmd !in db.commands && syncCmd !in db.commands && removeCmd != syncCmd
    ensures Inv(db) ==>
      Inv(CommandStore.UpdateConnector(db, connector, enabled, agent, identityOk, removeCmd, syncCmd, now))
  {
    if Inv(db) { UpdateConnectorInv(db, connector, enabled, agent, identityOk, removeCmd, syncCmd, now); }
  }

  class Store {
    var agents: map<Id, bool>
    var stacks: map<Id, Id>
    var revisions: map<Id, Id>
    var deployments: map<Id, Deployment>
    var connectors: map<Id, Connector>
    var commands: map<Id, Command>
    var operations: map<Id, Operation>
    var events: seq<Event>
    var clock: nat

    ghost function Rows(): Db
      reads this
    {
      Db(Inventory(agents, stacks, revisions), deployments, connectors, commands, operations, events, clock)
    }

    constructor ()
      ensures Init(Rows()) && Inv(Rows())
    {
      agents, stacks, revisions, deployments, connectors := map[], map[], map[], map[], map[];
      commands, operations, events, clock := map[], map[], [], 0;
    }

    /** The rows a poll was given, each leased, with its operation or connector row moved along. */
    method ClaimCommands(agent: Id, chosen: seq<Id>, limit: nat, now: int) returns (claimed: seq<Command>)
      requires ChosenForClaim(Rows(), agent, chosen, limit, now)
      modifies this
      ensures Rows() == ClaimAll(old(Rows()), agent, chosen, now)
      ensures |claimed| == |chosen|
      ensures forall i :: 0 <= i < |chosen| ==> LeasedTo(claimed[i], agent, now)
    {
      claimed := [];
      var i := 0;
      assert chosen[..0] == [];
      while i < |chosen|
        invariant 0 <= i <= |chosen| && |claimed| == i
        invariant Rows() == ClaimAll(old(Rows()), agent, chosen[..i], now)
        invariant forall j :: 0 <= j < i ==> LeasedTo(claimed[j], agent, now)
      {
        ClaimAllFrame(old(Rows()), agent, chosen[..i], now, chosen[i]);
        var leased := ClaimCommand(agent, chosen[i], now);
        claimed := claimed + [leased];
        assert chosen[..i + 1][..i] == chosen[..i];
        i := i + 1;
      }
      assert chosen[..i] == chosen;
    }

    method ClaimCommand(agent: Id, cmd: Id, now: int) returns (leased: Command)
      requires cmd in commands && commands[cmd].agent == agent
      modifies this`commands, this`operations, this`connectors
      ensures Rows() == ClaimOne(old(Rows()), agent, cmd, now)
      ensures LeasedTo(leased, agent, now) && leased == commands[cmd]
    {
      var c := commands[cmd];
      leased := c.(status := Claimed, leaseUntil := Some(now + LeaseOf(c.kind)), attempts := c.attempts + 1);
      commands := commands[cmd := leased];
      match c.kind {
        case ConnectorSync(k, revision) =>
          if k in connectors && connectors[k].agent == agent && connectors[k].desired == revision {
            connectors := connectors[k :=
                                     connectors[k].(status := if connectors[k].enabled then SyncDeploying
                                                    else SyncStopping)];
          }
        case ForOperation(kind, o) => operations := ClaimOperation(operations, agent, kind, o);
        case _ =>
      }
    }

    /** An answer of the agent, which ends the command if it is claimed and the result can be stored. */
    method CompleteCommand(agent: Id, cmd: Id, ok: bool, result: Result) returns (outcome: Completion)
      modifies this
      ensures outcome == CompletionOf(old(Rows()), agent, cmd, ok, result)
      ensures Rows() == CommandStore.CompleteCommand(old(Rows()), agent, cmd, ok, result)
      ensures outcome.Missing? <==> WithinSize(result) && !old(Holds(commands, agent, cmd))
      ensures outcome.Updated? <==>
        WithinSize(result) && old(Holds(commands, agent, cmd) && commands[cmd].status == Claimed)
        && Insertable(old(commands)[cmd].kind, ok, result)
      ensures outcome.Idempotent? <==>
        WithinSize(result) && old(Holds(commands, agent, cmd) && Shows(commands, cmd, ok, result))
        && CleanResult(StoredResult(old(commands)[cmd].kind, result))
      ensures outcome.Conflict? ==>
        old(Holds(commands, agent, cmd) && commands[cmd].status != Claimed && !Shows(commands, cmd, ok, result))
      ensures outcome.Updated? ==> Shows(commands, cmd, ok, result)
      ensures !outcome.Updated? ==> Rows() == old(Rows())
      ensures old(Inv(Rows())) ==> Inv(Rows()) && (outcome.Updated? ==> Ended(old(Rows()), Rows(), cmd, ok))
    {
      ghost var before := Rows();
      if !WithinSize(result) { return Rejected; }
      if cmd !in commands || commands[cmd].agent != agent { return Missing; }
      var c := commands[cmd];
      var stored := StoredResult(c.kind, result);
      if c.status == Final(ok) {
        if !CleanResult(stored) { return Rejected; }
        if c.result == Some(stored) { return Idempotent; }
      }
      if c.status != Claimed { return Conflict; }
      if !Insertable(c.kind, ok, result) { return Rejected; }
      WriteCompletion(agent, cmd, ok, result);
      if Inv(before) { FinishMeans(before, agent, cmd, ok, result); }
      return Updated;
    }

    /** The statements of the completion, once the command is known to be claimed. */
    method WriteCompletion(agent: Id, cmd: Id, ok: bool, result: Result)
      requires cmd in commands
      modifies this`commands, this`operations, this`deployments, this`connectors, this`events
      ensures Rows() == Finish(old(Rows()), agent, cmd, ok, result)
    {
      var c := commands[cmd];
      commands := commands[cmd :=
                           c.(status := Final(ok), result := Some(StoredResult(c.kind, result)), leaseUntil := None)];
      var found := false;
      match c.kind {
        case ConnectorSync(k, revision) =>
          connectors := CompleteConnector(connectors, agent, k, revision, ok, result.runtime);
        case ForOperation(kind, o) =>
          if CompletesOperation(operations, agent, kind, o) {
            found := true;
            if kind == RunKind {
              deployments := CompleteDeployment(deployments, agent, operations[o].detail, ok);
            }
            operations := operations[o := operations[o].(status := if ok then OpSucceeded else OpFailed)];
          }
        case _ =>
      }
      events := events + CompletionEvents(c.kind, found, cmd, ok);
    }

    /** The stale sweep, over the rows its first UPDATE returned. */
    method FailStaleCommands(rows: seq<Id>, staleBefore: int, now: int) returns (count: nat)
      requires StaleRows(Rows(), rows, staleBefore, now)
      modifies this
      ensures Rows() == Do(old(Rows()), Sweep(rows, staleBefore, now)) && count == |rows|
      ensures old(Inv(Rows())) ==> Inv(Rows())
    {
      RowsKnown(Rows(), rows, staleBefore, now);
      var i := 0;
      assert rows[..0] == [];
      while i < |rows|
        invariant 0 <= i <= |rows|
        invariant Rows() == FailAll(old(Rows()), rows[..i])
      {
        FailAllNext(old(Rows()), rows, i);
        FailStaleCommand(rows[i]);
        i := i + 1;
      }
      assert rows[..i] == rows;
      count := |rows|;
      SweepKeeps(old(Rows()), rows, staleBefore, now);
    }

    /** One row of the sweep: it fails its own operation, deployment or connector row, and nothing else. */
    method FailStaleCommand(cmd: Id)
      requires cmd in commands
      modifies this
      ensures Rows() == FailOne(old(Rows()), cmd)
      ensures commands[cmd].status == Failed && commands[cmd].result == Some(STALE_RESULT)
      ensures old(Inv(Rows()) && !Terminal(commands[cmd].status)) ==>
        Inv(Rows()) && Ended(old(Rows()), Rows(), cmd, false)
    {
      ghost var before := Rows();
      WriteFailure(cmd);
      FailWrites(before, cmd);
      if Inv(before) && !Terminal(before.commands[cmd].status) { FailMeans(before, cmd); }
    }

    method WriteFailure(cmd: Id)
      requires cmd in commands
      modifies this`commands, this`operations, this`deployments, this`connectors, this`events
      ensures Rows() == FailOne(old(Rows()), cmd)
    {
      var c := commands[cmd];
      commands := commands[cmd := c.(status := Failed, result := Some(STALE_RESULT), leaseUntil := None)];
      match c.kind {
        case ConnectorSync(k, revision) =>
          if k in connectors && connectors[k].agent == c.agent && connectors[k].desired == revision {
            connectors := connectors[k := connectors[k].(status := SyncFailed)];
          }
        case ForOperation(kind, _) =>
          var swept := Swept(operations, cmd, kind);
          if kind == RunKind { deployments := SweepDeployments(deployments, operations, swept); }
          operations := SweepOperations(operations, swept);
          events := events + SweepEvents(kind, swept != {}, cmd);
        case _ =>
      }
    }

    method InsertCommandAndOperation(agent: Id, detail: Detail, cmd: Id, op: Id, now: int)
      requires Fresh(Rows(), cmd, op)
      modifies this`commands, this`operations, this`clock
      ensures Rows() == InsertOperation(old(Rows()), agent, detail, cmd, op, now)
      ensures Queued(old(Rows()), Rows(), agent, detail, cmd, op)
    {
      commands := commands[cmd := NewCommand(agent, ForOperation(KindOf(detail), op), now)];
      operations := operations[op := Operation(detail, agent, cmd, OpPending, clock)];
      clock := clock + 1;
    }

    /** A backup is queued exactly for an available stack without an active operation, and then is its active one. */
    method CreateBackup(stack: Id, cmd: Id, op: Id, now: int) returns (created: Created)
      requires Fresh(Rows(), cmd, op)
      modifies this`commands, this`operations, this`clock
      ensures Rows() == Do(old(Rows()), NewBackup(stack, cmd, op, now))
      ensures !created.Unavailable? <==> stack in stacks && stacks[stack] in agents
      ensures created.AlreadyActive? <==> !created.Unavailable? && HasActiveStackOperation(old(operations), stack)
      ensures created.Made? ==> Queued(old(Rows()), Rows(), stacks[stack], Backup(stack), cmd, op)
      ensures created.Made? ==> HasActiveStackOperation(operations, stack)
      ensures !created.Made? ==> Rows() == old(Rows())
      ensures old(Inv(Rows())) ==> Inv(Rows())
    {
      ghost var before := Rows();
      if stack !in stacks || stacks[stack] !in agents {
        created := Unavailable;
      } else if HasActiveStackOperation(operations, stack) {
        created := AlreadyActive;
      } else {
        InsertCommandAndOperation(stacks[stack], Backup(stack), cmd, op, now);
        created := Made;
        assert OnStack(operations[op].detail, stack);
      }
      if Inv(before) { StepInv(before, NewBackup(stack, cmd, op, now)); }
    }

    /** A restore needs a succeeded backup, and its stack must be available and without an active operation. */
    method CreateRestore(source: Id, cmd: Id, op: Id, now: int) returns (created: Created)
      requires Fresh(Rows(), cmd, op)
      modifies this`commands, this`operations, this`clock
      ensures Rows() == Do(old(Rows()), NewRestore(source, cmd, op, now))
      ensures !created.Unavailable? <==> Restorable(old(Rows()), source)
      ensures created.AlreadyActive?
        <==> !created.Unavailable? && HasActiveStackOperation(old(operations), old(operations)[source].detail.stack)
      ensures created.Made? ==>
        var backup := old(operations)[source];
        && Queued(old(Rows()), Rows(), backup.agent, Restore(backup.detail.stack, source), cmd, op)
        && HasActiveStackOperation(operations, backup.detail.stack)
      ensures !created.Made? ==> Rows() == old(Rows())
      ensures old(Inv(Rows())) ==> Inv(Rows())
    {
      ghost var before := Rows();
      if source !in operations || !operations[source].detail.Backup? || operations[source].status != OpSucceeded {
        return Unavailable;
      }
      var backup := operations[source];
      if backup.detail.stack !in stacks || backup.agent !in agents { return Unavailable; }
      if HasActiveStackOperation(operations, backup.detail.stack) { return AlreadyActive; }
      InsertCommandAndOperation(backup.agent, Restore(backup.detail.stack, source), cmd, op, now);
      assert OnStack(operations[op].detail, backup.detail.stack);
      if Inv(before) { StepInv(before, NewRestore(source, cmd, op, now)); }
      return Made;
    }

    /** A runtime operation is queued exactly when no active one overlaps it and the agent is available. */
    method CreateRuntimeOperation(agent: Id, project: string, service: Option<string>, cmd: Id, op: Id, now: int)
      returns (created: Created)
      requires Fresh(Rows(), cmd, op)
      modifies this`commands, this`operations, this`clock
      ensures Rows() == Do(old(Rows()), NewRuntime(agent, project, service, cmd, op, now))
      ensures created.AlreadyActive? <==> HasActiveRuntime(old(operations), agent, project, service)
      ensures created.Made? <==> !created.AlreadyActive? && Enrolled(agents, agent)
      ensures created.Made? ==> Queued(old(Rows()), Rows(), agent, Runtime(project, service), cmd, op)
      ensures created.Made? ==> forall other :: Overlap(service, other) ==>
        HasActiveRuntime(operations, agent, project, other)
      ensures !created.Made? ==> Rows() == old(Rows())
      ensures old(Inv(Rows())) ==> Inv(Rows())
    {
      ghost var before := Rows();
      if HasActiveRuntime(operations, agent, project, service) { return AlreadyActive; }
      if !Enrolled(agents, agent) { return Unavailable; }
      InsertCommandAndOperation(agent, Runtime(project, service), cmd, op, now);
      assert operations[op].detail == Runtime(project, service);
      if Inv(before) { StepInv(before, NewRuntime(agent, project, service, cmd, op, now)); }
      return Made;
    }

    /** A log request is queued for every available agent, whatever else is active. */
    method CreateLogRequest(agent: Id, cmd: Id, op: Id, now: int) returns (created: Created)
      requires Fresh(Rows(), cmd, op)
      modifies this`commands, this`operations, this`clock
      ensures Rows() == Do(old(Rows()), NewLogRequest(agent, cmd, op, now))
      ensures created == if Enrolled(agents, agent) then Made else Unavailable
      ensures created.Made? ==> Queued(old(Rows()), Rows(), agent, Logs, cmd, op)
      ensures !created.Made? ==> Rows() == old(Rows())
      ensures old(Inv(Rows())) ==> Inv(Rows())
    {
      ghost var before := Rows();
      if !Enrolled(agents, agent) { return Unavailable; }
      InsertCommandAndOperation(agent, Logs, cmd, op, now);
      if Inv(before) { StepInv(before, NewLogRequest(agent, cmd, op, now)); }
      return Made;
    }

    /** A run is queued exactly for an available deployment without an active one; it records what it would replace. */
    method CreateDeploymentRun(deployment: Id, revision: Id, action: Action, cmd: Id, op: Id, now: int)
      returns (created: Created)
      requires Fresh(Rows(), cmd, op)
      modifies this`commands, this`operations, this`clock, this`deployments
      ensures Rows() == Do(old(Rows()), NewRun(deployment, revision, action, cmd, op, now))
      ensures !created.Unavailable? <==> old(Deployable(Rows(), deployment, revision))
      ensures created.AlreadyActive? <==> !created.Unavailable? && HasActiveRun(old(operations), deployment)
      ensures created.Made? ==>
        var d := old(deployments)[deployment];
        && Queued(old(Rows()), Rows().(deployments := old(deployments)), d.agent,
                  Run(deployment, revision, d.current, action), cmd, op)
        && HasActiveRun(operations, deployment)
        && deployments == old(deployments)[deployment := deployments[deployment]]
        && InProgress(deployments[deployment].status) && deployments[deployment].current == d.current
      ensures !created.Made? ==> Rows() == old(Rows())
      ensures old(Inv(Rows())) ==> Inv(Rows())
    {
      ghost var before := Rows();
      if deployment !in deployments || !Enrolled(agents, deployments[deployment].agent) { return Unavailable; }
      if revision !in revisions || revisions[revision] != deployment { return Unavailable; }
      if HasActiveRun(operations, deployment) { return AlreadyActive; }
      var d := deployments[deployment];
      InsertCommandAndOperation(d.agent, Run(deployment, revision, d.current, action), cmd, op, now);
      deployments := deployments[deployment := d.(status := if action == Stop then Stopping else Deploying)];
      assert RunOf(operations[op], deployment);
      if Inv(before) { StepInv(before, NewRun(deployment, revision, action, cmd, op, now)); }
      return Made;
    }

    /** Afterwards one sync waits for the connector at its agent, and it carries the desired revision. */
    method QueueConnectorSync(connector: Id, stopping: bool, cmd: Id, now: int)
      requires connector in connectors && cmd !in commands
      modifies this`connectors, this`commands
      ensures Rows() == CommandStore.QueueConnectorSync(old(Rows()), connector, stopping, cmd, now)
      ensures connectors == old(connectors)[connector := connectors[connector]]
      ensures connectors[connector] == old(connectors)[connector].(status := if stopping then SyncStopping
                                                                   else SyncPending)
      ensures old(WaitingUnique(commands)) ==> WaitsOnce(old(commands), commands, connector, connectors[connector])
    {
      ghost var before := Rows();
      var k := connectors[connector];
      connectors := connectors[connector := k.(status := if stopping then SyncStopping else SyncPending)];
      var waiting := set c | c in commands && PendingSync(commands[c], k.agent, connector);
      if waiting != {} {
        commands := map c | c in commands ::
          if c in waiting then commands[c].(kind := ConnectorSync(connector, k.desired), createdAt := now)
          else commands[c];
        QueueRedirects(before, connector, stopping, cmd, now, waiting);
      } else {
        commands := commands[cmd := NewCommand(k.agent, ConnectorSync(connector, k.desired), now)];
        QueueAdds(before, connector, stopping, cmd, now, waiting);
      }
    }

    method CreateConnector(connector: Id, agent: Id, enabled: bool, accountOk: bool, cmd: Id, now: int)
      returns (made: bool)
      requires connector !in connectors && cmd !in commands
      modifies this`connectors, this`commands
      ensures Rows() == CommandStore.CreateConnector(old(Rows()), connector, agent, enabled, accountOk, cmd, now)
      ensures made <==> connector in connectors
      ensures made <==> Enrolled(agents, agent) && accountOk
      ensures made ==>
        connectors[connector].agent == agent && connectors[connector].enabled == enabled
          && connectors[connector].desired == 1
      ensures old(Inv(Rows())) ==> Inv(Rows())
    {
      ghost var before := Rows();
      if !Enrolled(agents, agent) || !accountOk { return false; }
      connectors := connectors[connector := Connector(agent, enabled, 1, SyncPending)];
      if enabled { QueueConnectorSync(connector, false, cmd, now); }
      if Inv(before) { CreateConnectorInv(before, connector, agent, enabled, accountOk, cmd, now); }
      return true;
    }

    method UpdateConnector(connector: Id, enabled: Option<bool>, agent: Option<Id>, identityOk: bool, removeCmd: Id,
                           syncCmd: Id, now: int)
      returns (updated: bool)
      requires removeCmd !in commands && syncCmd !in commands && removeCmd != syncCmd
      modifies this`connectors, this`commands
      ensures Rows() == CommandStore.UpdateConnector(old(Rows()), connector, enabled, agent, identityOk, removeCmd,
                                                     syncCmd, now)
      ensures old(Inv(Rows())) ==> Inv(Rows())
      ensures updated <==>
        identityOk && connector in old(connectors)
        && Enrolled(agents, if agent.Some? then agent.value else old(connectors)[connector].agent)
      ensures !updated ==> Rows() == old(Rows())
      ensures updated ==>
        connector in connectors && connectors[connector].desired == old(connectors)[connector].desired + 1
    {
      if connector !in connectors { return false; }
      var k := connectors[connector];
      var target := if agent.Some? then agent.value else k.agent;
      if !Enrolled(agents, target) || !identityOk { return false; }
      ghost var before := Rows();
      RemoveFromAgent(connector, target, removeCmd, now);
      var on := if enabled.Some? then enabled.value else k.enabled;
      connectors := connectors[connector :=
                               Connector(target, on, k.desired + 1, if on then SyncPending else SyncStopping)];
      QueueConnectorSync(connector, !on, syncCmd, now);
      UpdateKeeps(before, connector, enabled, agent, identityOk, removeCmd, syncCmd, now);
      return true;
    }

    /** An agent that loses the connector is told to remove it. */
    method RemoveFromAgent(connector: Id, target: Id, removeCmd: Id, now: int)
      requires connector in connectors && removeCmd !in commands
      modifies this`commands
      ensures Rows() == QueueRemoval(old(Rows()), connector, target, removeCmd, now)
    {
      var k := connectors[connector];
      if target != k.agent {
        commands := commands[removeCmd := NewCommand(k.agent, ConnectorRemove(connector, k.desired + 1), now)];
      }
    }
  }
}
