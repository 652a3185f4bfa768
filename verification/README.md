# Verification model of GatewayControl

This Dafny project models the stateful core of GatewayControl and proves what its documentation and tests promise of
it. `dafny verify dfyconfig.toml` checks the whole project.

| file | models |
|---|---|
| `SystemRestore.dfy` | staging and applying a system restore: marker, lock and dump files, many stagers, one applier, crashes between any two file operations |
| `CommandStore.dfy`, `CommandInvariants.dfy`, `PostgresStore.dfy` | the agent command queue and the operations built on it: backups, restores, runtime actions, log requests, deployment runs, connector syncs |
| `AgentProtocol.dfy` | the agent's command loop and durable journal against that queue, with lost requests, lost answers, failed journal writes and crashes |
| `DomainAccess.dfy`, `Ingress.dfy` | DNS and tunnel reconciliation against an unreliable Cloudflare, fenced by revisions |
| `Migrations.dfy` | history validation and the resumable migration runner |
| `Archive.dfy` | the backup helper's tar writer, walk and extraction |
| `Ipv6.dfy` | parsing and canonical printing of IPv6 addresses, zones included |
| `ComposePolicy.dfy` | Compose validation, default limits and canonical ordering |
| `Common.dfy` | identifiers, options, ASCII lower-casing, split and join |

## How the model is built

Code that changes state step by step is a class whose methods carry the source's branches; each is proved against a
specification function, a step machine or a stated property. A protocol with several parties (restore, queue and agent)
is also a step machine over all interleavings. The methods of `SystemRestore.RecoveryHost`, `PostgresStore.Store` and
`AgentProtocol.Agent` are tied to those machines (equal to a run of it, equal to a transaction of it, reachable in it),
so the lemmas about every run are lemmas about that code.

A PostgreSQL transaction is one atomic step. `pg_restore --single-transaction` replaces the database atomically. The
applier starts only when no stager is live. A journal write returns success, fails after the file was replaced, or
fails before.

What happens to a domain access is a script, `weather`: for each step of an attempt the changes others make just before
it (a new revision, or an outcome of the HTTPS verification of guided publishing) and the fate of the call or write to
the store (it works, fails before or after its effect, or ends the process). The steps taken are in `log`, so a contract can say which of
them the script disturbed.

What the environment guarantees is stated in the contracts: identifiers given by databases and by Cloudflare are fresh;
the type of a DNS record follows from its content; the desired addresses of a domain access are pairwise different
(`PublicIpArray` decides that); hostnames are in lower case once validated; migration files are sorted by distinct
numbers; file names hold no slash; a parsed mapping holds each key once; an unpacked element or path is refused beyond
limits of the file system.

## Where the code does not do what is promised

Each of these is proved; the code is modelled as it is.

- A stager that must withdraw its published marker and fails to remove it goes on: the swallowed failure leaves
  `restore.pending` without a lock and without a dump. A pending marker has both exactly if its stager removed neither
  under it (`RollbackSoundIff`, over every continuation); `StrandedMarkerReachable` is a run that ends there.
- A finished restore whose applier died after removing the lock can be blocked by a stager that is killed just after
  taking the free lock (`ForeignLockBlocksCleanUp`, reached by `BlockedCleanUpReachable`). A run completes exactly from
  the states `RunCompletesIff` names.
- A result the server never takes is offered again forever, and the agent never polls again, not even after a restart
  (`WedgedForever`). That is a result whose command already failed as stale (`OverlongExecutionWedges`,
  `WedgeIsReachable`), but also one that is too large or holds a NUL character, which jsonb refuses
  (`UnstorableResultWedges`, `UnstorableIsReachable`). The loop reaches its next poll exactly when every waiting result
  is taken (`PollsAgainIff`).
- A stored success is in the journal on disk unless writing it there failed: the result is then delivered from memory
  (`SuccessWasExecuted`).
- A create that takes effect without an answer and whose look-up fails too leaves a record that no row names. So does a
  known record that could not be stored and then not deleted, as the mark for a later clean-up finds no row. A failed
  attempt that is still current and was not cut short leaves an unaccounted record exactly in these two cases, and at
  most one (`Reconcile`); `LoseSight` is a script of the first. The record carries the marker, so the next attempt adopts
  it. An attempt that dies, or whose clean-up meets a failing write to the store, leaves whatever was there; in the
  second case the failure is not noted either.
- A kept record that an earlier attempt marked `cleanup_pending` keeps that status after a successful attempt; owned
  rows are those not marked deleted, and `Exact` is stated for these.
- Ingress rewriting moves catch-all rules to the end. Another host keeps its target exactly when no catch-all with
  another target hides the first rule that names it (`OtherRouteIff`).
- A database clock set back between two migrations makes every later run refuse the history, since rows are read
  back ordered by time (`ReadBackIff`, `AcceptedAgainIff`; `SetBackClock` is such a database).
- An archive can pass every check and still fail to unpack, after the old content was cleared: exactly when a regular
  file stands at the root or above another entry, or a path or one of its elements is too long for the file system,
  since the walk only bounds the whole name (`ExtractArchive`, `AcceptedButBlocked`, `AcceptedButTooLong`). Restored
  file modes lose their execute bits and whatever the umask takes.
- An IPv6 text may carry a zone, which the library accepts. After a group of digits it is dropped (`CanonicalIp`). After
  `::` or an embedded IPv4 address it makes the last word no number, and an address that ends in NaN is accepted and
  returned (`OpenZoneNaN`, `NoNumber`). With a colon in it the printed text can have nine groups (`ColonInZone`,
  `NineGroups`).
- The check for unsupported Compose keys stops at the first one and ignores it if it is the empty string. So an empty
  key hides what comes after it, and the order of keys decides (`EmptyKeyHides`), exactly where a checked mapping holds
  the empty key beside another unsupported one (`OrderMattersIff`). Without an empty key the check is the intended one
  (`IntendedIff`).

## Model

| member | source | states |
|---|---|---|
| `SystemRestore.StepInv` | `server/src/system-recovery.ts:373-432` | every operation, failure or kill of a stager, every backup transition and every operation or crash of the applier keeps the staging invariant |
| `SystemRestore.StagingIsSafe` | `server/src/system-recovery.ts:373-432` | over all interleavings there is at most one marker; an applying one has its lock and complete dump, an applied one its dump; a pending one has both exactly if its own stager did not remove one of them while the marker was still pending |
| `SystemRestore.LoserTouchesNothing` | `server/src/system-recovery.ts:375-380` | a stager that finds the lock taken changes no file |
| `SystemRestore.StagerDumpFrame` | `server/src/system-recovery.ts:381-433` | a stager never touches a dump of another token |
| `SystemRestore.StagerTempFrame` | `server/src/system-recovery.ts:384-424` | a stager never touches a temporary marker of another token |
| `SystemRestore.StagerMarkerFrame` | `server/src/system-recovery.ts:387-402` | a stager adds or removes only a pending marker that names it, and never changes a lock that holds another token |
| `SystemRestore.RollbackSoundIff` | `server/src/system-recovery.ts:390-402` | over every continuation, with all kills and failures in it, a marker that is still pending has its lock and its dump exactly if its stager has removed neither since |
| `SystemRestore.FaultFreeRollbackIff` | `server/src/system-recovery.ts:390-402` | a rollback of a published marker that goes on to its end leaves the staging area sound exactly when removing the marker worked |
| `SystemRestore.LostDuring` | `server/src/system-recovery.ts:390-402` | the stranded markers are exactly those whose lock or dump was removed under them during the run |
| `SystemRestore.StrandedMarkerReachable` | `server/src/system-recovery.ts:390-402` | from an empty staging area: a backup, a staged restore that cannot be reported and a marker that cannot be removed end with a pending marker without lock and dump |
| `SystemRestore.RestoreIsCrashIdempotent` | `server/src/restore-system.ts:55-105` | after any number of applier crashes at any step no run refuses, and a completed one leaves exactly the snapshot with its own backup row finalised from running to succeeded |
| `SystemRestore.AppliedIsNeverReplayed` | `server/src/restore-system.ts:63-80` | while the applied marker exists nothing writes to the database |
| `SystemRestore.RunCompletesIff` | `server/src/restore-system.ts:31-88` | a fault-free run completes exactly when the one marker has its dump and its own lock, or is applied and has no lock |
| `SystemRestore.UnappliedAlwaysResumable` | `server/src/restore-system.ts:35-62` | a pending marker that was not lost, or an applying one, always meets that condition |
| `SystemRestore.ForeignLockBlocksCleanUp` | `server/src/restore-system.ts:54-58` | a stager killed while it holds the lock beside an applied marker makes every later run refuse |
| `SystemRestore.BlockedCleanUpReachable` | `server/src/restore-system.ts:54-58` | from an empty staging area a restore is staged and applied, and its clean-up is then refused |
| `SystemRestore.RecoveryHost.ApplyStagedSystemRestore` | `server/src/restore-system.ts:23-88` | the program, dying after any number of operations, does what the applier of the step machine does |
| `SystemRestore.RecoveryHost.Replay` | `server/src/restore-system.ts:69-76` | the restore of the dump and the update of the backup row follow the step machine, also when either refuses or the run dies between them |
| `SystemRestore.RecoveryHost.CleanUp` | `server/src/restore-system.ts:82-87` | lock, marker and dump are removed in this order |
| `SystemRestore.RecoveryHost.StageRestore` | `server/src/system-recovery.ts:144-162` | staging with any set of failing operations does what the stager of the step machine does; a success leaves its own marker and lock |
| `SystemRestore.RecoveryHost.TakeLock` | `server/src/system-recovery.ts:373-380` | the lock is created exclusively, then names its token |
| `SystemRestore.RecoveryHost.PublishStage` | `server/src/system-recovery.ts:149-162` | a prepared stage is published, or taken back with lock and dump |
| `SystemRestore.RecoveryHost.PrepareStage` | `server/src/system-recovery.ts:403-433` | marker check and dump copy follow the step machine, failures included |
| `SystemRestore.RecoveryHost.Publish` | `server/src/system-recovery.ts:412-425` | publishing follows the step machine, failures included |
| `SystemRestore.RecoveryHost.Rollback` | `server/src/system-recovery.ts:390-402` | the rollback follows the step machine, failures included |
| `SystemRestore.RecoveryHost.RemoveMarkerFile` | `server/src/system-recovery.ts:391-399` | an own published marker is removed; whatever fails there is left behind and the rollback goes on |
| `SystemRestore.RecoveryHost.RemoveFiles` | `server/src/system-recovery.ts:400-401` | temporary marker and own dump are removed; a failure abandons the rest |
| `SystemRestore.RecoveryHost.ReleaseLock` | `server/src/system-recovery.ts:387-389` | the lock is removed only while it holds the own token |
| `CommandInvariants.StepInv` | `server/src/postgres-store.ts:1530-1672` | every transaction keeps lockstep, exclusion, deployment history, connector fencing and event uniqueness |
| `CommandInvariants.OperationsFollowCommands` | `server/src/postgres-store.ts:1546-1555` | in every reachable state each backup, restore, run, runtime operation and log request has the status its command's status gives |
| `CommandInvariants.ScopesExclude` | `server/src/postgres-store.ts:1192-1213` | no two active runtime operations of an agent and project overlap, and no stack has two active backups or restores |
| `CommandInvariants.DeploymentHistory` | `server/src/postgres-store.ts:1650-1663` | a deployment is deploying or stopping exactly while its one run is active; that run's prior revision is the current one, which is that of the last succeeded non-stop run |
| `CommandInvariants.ConnectorFencing` | `server/src/postgres-store.ts:323-364` | one waiting sync per agent, at the current agent with the desired revision; active means success at exactly it; an in-progress status has a live command at it |
| `CommandInvariants.OldSyncsChangeNoRow` | `server/src/postgres-store.ts:1577-1588` | results and stale failures of an older revision or another agent leave the connector row alone |
| `CommandInvariants.OutcomesAreFinal` | `server/src/postgres-store.ts:1560-1572` | statuses only move forward and a terminal status and result never change |
| `CommandInvariants.PendingEndsOnlyStale` | `server/src/postgres-store.ts:1742-1753` | a pending command ends only in the stale sweep, as failed |
| `CommandInvariants.ResubmissionIsNoOp` | `server/src/postgres-store.ts:1562-1572` | the same submission again is idempotent, any other one conflicts or cannot be stored, and neither changes anything |
| `CommandInvariants.EventsFireOnce` | `server/src/postgres-store.ts:1610-1669` | a command writes at most one event, and none before it ended |
| `CommandInvariants.PurgeChangesNothing` | `server/src/postgres-store.ts:1821-1835` | purging log texts finds none left in the command rows |
| `PostgresStore.Store.ClaimCommands` | `server/src/postgres-store.ts:1530-1558` | the claim loop equals the claim transaction; every claimed row is leased to the agent for its kind's time |
| `PostgresStore.Store.ClaimCommand` | `server/src/postgres-store.ts:1546-1555` | one claimed row moves its own operation or connector row only |
| `PostgresStore.Store.CompleteCommand` | `server/src/postgres-store.ts:1560-1672` | exactly when a result is taken, recognised, in conflict, missing or not storable; a taken one is shown by its command, ends its operation, deployment or connector row and writes at most one event, and every other outcome changes nothing; the invariant is kept |
| `PostgresStore.FinishMeans` | `server/src/postgres-store.ts:1572-1672` | a taken result ends exactly its command and what follows from it, and keeps the invariant |
| `PostgresStore.Store.FailStaleCommands` | `server/src/postgres-store.ts:1742-1819` | the sweep loop equals the sweep transaction and keeps the invariant |
| `PostgresStore.Store.FailStaleCommand` | `server/src/postgres-store.ts:1754-1816` | one stale command ends as failed with the stale result, and so do its own operation, deployment or connector row and no other; the invariant is kept |
| `PostgresStore.FailMeans` | `server/src/postgres-store.ts:1754-1816` | so does the failure of a stale command |
| `PostgresStore.Store.CreateBackup` | `server/src/postgres-store.ts:1275-1292` | made exactly when stack and agent are enabled and the stack has no active backup or restore; then one command and operation are queued and the stack is active, otherwise nothing changes; the invariant is kept |
| `PostgresStore.Store.CreateRestore` | `server/src/postgres-store.ts:1307-1328` | made exactly when the source is a succeeded backup of a stack without an active operation; then one command and operation are queued at its agent, otherwise nothing changes; the invariant is kept |
| `PostgresStore.Store.CreateRuntimeOperation` | `server/src/postgres-store.ts:1192-1213` | refused exactly while an overlapping operation is active; afterwards every overlapping one would be refused; the invariant is kept |
| `PostgresStore.Store.CreateLogRequest` | `server/src/postgres-store.ts:1231-1246` | made exactly for enabled agents, without touching other rows; the invariant is kept |
| `PostgresStore.Store.InsertCommandAndOperation` | `server/src/postgres-store.ts:1281-1289` | one new pending command and one new pending operation point at each other, and all other rows are as before |
| `PostgresStore.Store.CreateDeploymentRun` | `server/src/postgres-store.ts:835-856` | made exactly when the deployment is enabled, the revision is its own, its agent is enrolled and no run is active; the run records the current revision as prior, the deployment is in progress and keeps its current revision; the invariant is kept |
| `PostgresStore.Store.QueueConnectorSync` | `server/src/postgres-store.ts:1863-1877` | afterwards exactly one sync waits for the connector at its agent, it carries the desired revision, and no other command changed |
| `PostgresStore.Store.CreateConnector` | `server/src/postgres-store.ts:301-321` | made exactly for an enrolled agent and, if one is named, an enabled matching account; a connector starts at revision one, with a sync queued if it is enabled; the invariant is kept |
| `PostgresStore.Store.UpdateConnector` | `server/src/postgres-store.ts:323-364` | made exactly for an existing connector, an enrolled agent and an acceptable identity; it raises the desired revision by one, removes the connector from an agent that loses it and queues a sync; the invariant is kept |
| `AgentProtocol.AgentStepInv` | `agent/internal/agent/agent.go:186-275` | every step of server and agent, every lost message, failed write and crash keeps the protocol invariant; the server may fail claimed commands by itself and deliver a part of what it claimed |
| `AgentProtocol.AtMostOnce` | `agent/internal/agent/agent.go:237-259` | over every run the executor starts at most once for a command, and every start is remembered on disk |
| `AgentProtocol.SuccessWasExecuted` | `agent/internal/agent/agent.go:241-258` | a stored success is what the executor returned, once, and is in the journal unless writing it failed |
| `AgentProtocol.OneOutcome` | `agent/internal/agent/agent.go:261-275` | without a failed journal write all submissions for a command carry one outcome |
| `AgentProtocol.SuccessOnlyBySubmission` | `server/src/postgres-store.ts:1560-1572` | only a submission makes a command succeed, and it stores its own result |
| `AgentProtocol.AcceptedIff` | `server/src/postgres-store.ts:1562-1572` | a waiting result is taken exactly if it is within the size limit and either its command is claimed and the result can be stored, or it is what is stored already |
| `AgentProtocol.WedgedForever` | `agent/internal/agent/agent.go:186-200` | one durable result that is never taken, and no run, with or without restarts, ever polls again |
| `AgentProtocol.OverlongExecutionWedges` | `agent/internal/agent/agent.go:251-258` | an execution that succeeds after the stale sweep ends in that state |
| `AgentProtocol.WedgeIsReachable` | `agent/internal/agent/agent.go:251-258` | a newly enrolled agent reaches it with its first command, a deployment it polls just before and finishes just after the window of a day |
| `AgentProtocol.UnstorableResultWedges` | `server/src/postgres-store.ts:1564-1572` | an execution whose result is too large or holds a NUL character ends in that state at once |
| `AgentProtocol.UnstorableIsReachable` | `agent/internal/executor/deployment.go:83-122` | a NUL character in the output of a newly enrolled agent's first deployment is enough |
| `AgentProtocol.PollsAgainIff` | `agent/internal/agent/agent.go:189-201` | the loop can reach its next poll exactly when every waiting result is taken |
| `AgentProtocol.Agent.HandleCommand` | `agent/internal/agent/agent.go:237-259` | executes exactly the commands without a record whose running record was persisted; all it does is a run of the protocol |
| `AgentProtocol.Agent.FinishCommand` | `agent/internal/agent/agent.go:255-258` | journals a result before delivering it |
| `AgentProtocol.Agent.DeliverPending` | `agent/internal/agent/agent.go:261-268` | a round that ends well leaves no undelivered result |
| `AgentProtocol.Agent.DeliverResult` | `agent/internal/agent/agent.go:270-275` | a result is marked delivered exactly when the server took it, and succeeds when the mark was persisted too |
| `DomainAccess.Access.Reconcile` | `server/src/app.ts:821-977` | for every script of failing calls and writes, deaths and changes: only own records are deleted, others are untouched, new ones are marked; a superseded attempt leaves rows and status alone; if every step it took was fair it succeeds exactly when its checks pass and nothing is foreign, and a success leaves exactly the desired records; a failed attempt that is current and was not cut short leaves a record that no row accounts for exactly if one was lost sight of, and then only that one |
| `DomainAccess.Access.Recover` | `server/src/app.ts:821-977` | from any state without a foreign record, under any script that is fair from some step on, repeated attempts end as the access was last asked for: exactly the desired records, or none of its own |
| `DomainAccess.LoseSight` | `server/src/app.ts:936-945` | a script on which the first attempt for an empty hostname leaves such a record |
| `DomainAccess.Access.LeftBehind` | `server/src/app.ts:934-967` | a new record stays unaccounted exactly if its create took effect without an answer and the look-up failed, or storing it failed and then its deletion failed; at most one does |
| `DomainAccess.Access.FrameNoForeign` | `server/src/app.ts:905-917` | no attempt makes a record foreign |
| `DomainAccess.Access.TryEnable` | `server/src/app.ts:901-954` | refuses exactly on a foreign record of a desired type; a success is exact |
| `DomainAccess.Access.TakeStock` | `server/src/app.ts:904-917` | holds exactly the stored and the marked records, and stops exactly at a foreign one |
| `DomainAccess.Access.Converge` | `server/src/app.ts:918-953` | stale records go, kept ones stay, missing ones are created and stored |
| `DomainAccess.Access.KeepGood` | `server/src/app.ts:918-926` | the records left are owned, wanted and at Cloudflare as stored |
| `DomainAccess.Access.Complete` | `server/src/app.ts:931-953` | with them, what is created makes the result exact |
| `DomainAccess.Access.EnableIngress` | `server/src/app.ts:927-930` | the rule list is the read one or its rewriting, and the read one is known for undoing |
| `DomainAccess.Access.DisableIngress` | `server/src/app.ts:894-897` | the rule list is the read one or its rewriting |
| `DomainAccess.Access.AdoptMarked` | `server/src/app.ts:905-914` | takes over exactly the unowned records with the marker that are wanted |
| `DomainAccess.Access.AdoptOne` | `server/src/app.ts:907-913` | an adopted record is stored under a desired item that it matches |
| `DomainAccess.Access.DeleteStale` | `server/src/app.ts:918-926` | deletes exactly the owned records that are not at Cloudflare as wanted |
| `DomainAccess.Access.DeleteOwned` | `server/src/app.ts:864-877` | a row is marked deleted only once its record is gone; if that or the deletion fails it is marked cleanup_pending, and the attempt fails |
| `DomainAccess.Access.DeleteTracked` | `server/src/app.ts:922-924` | a tracked record is deleted unless a call fails or the attempt is superseded |
| `DomainAccess.Access.CreateMissing` | `server/src/app.ts:931-953` | every desired item ends covered by a kept or a new, stored record |
| `DomainAccess.Access.CreateOne` | `server/src/app.ts:934-945` | a create whose answer is lost is recovered by its marker, or leaves its own record exactly if it took effect and the look-up failed |
| `DomainAccess.Access.CreateAndStore` | `server/src/app.ts:934-952` | a created record is known to the clean-up as soon as its identifier is, and stored while the revision is current |
| `DomainAccess.Access.CreateNext` | `server/src/app.ts:931-953` | one item without an owned record gets one of its own |
| `DomainAccess.Access.ExactNow` | `server/src/app.ts:914-953` | no foreign record, kept and created records together give exactly the desired pairs, stored as owned |
| `DomainAccess.Access.NothingMatches` | `server/src/app.ts:932-945` | an item without an owned record has no marked record at Cloudflare either, so a look-up can only find the new one |
| `DomainAccess.Access.CleanUp` | `server/src/app.ts:955-967` | every new record that is stored is gone or marked cleanup_pending while the revision is current; one that is not stored stays exactly if its deletion failed without an effect |
| `DomainAccess.Access.CleanUpOne` | `server/src/app.ts:957-966` | a failed deletion marks the row cleanup_pending, and a failed mark ends the clean-up |
| `DomainAccess.Access.Undo` | `server/src/app.ts:955-974` | the ingress is put back or left, the failure is noted unless superseded, and every new record that the attempt knows of and stored is gone or marked cleanup_pending; a failed write cuts it short |
| `DomainAccess.Access.TryDisable` | `server/src/app.ts:880-899` | a success leaves no owned or marked record, every row deleted, and the rule removed |
| `DomainAccess.Access.DeleteAll` | `server/src/app.ts:881` | every owned record goes, and then its row |
| `DomainAccess.Access.DeleteMarked` | `server/src/app.ts:882-893` | no record with the marker is left |
| `DomainAccess.Access.DeleteOneMarked` | `server/src/app.ts:890-892` | a marked record is stored before it is deleted |
| `DomainAccess.Access.Refuse` | `server/src/app.ts:848-858` | an attempt whose checks fail is noted as failed unless it is superseded or the write fails |
| `DomainAccess.Access.SaveRow` | `server/src/postgres-store.ts:692-702` | writes only at the current revision; a failed write may have taken effect |
| `DomainAccess.Access.MarkRow` | `server/src/postgres-store.ts:704-713` | writes only a stored row, only at the current revision; a failed write may have taken effect |
| `DomainAccess.Access.MarkOutcome` | `server/src/postgres-store.ts:715-724` | the status is written only at the current revision; a failed write may have taken effect |
| `Ingress.OwnRoute` | `server/src/app.ts:541-553` | an enabled hostname goes to the tunnel service, a disabled one where the catch-alls go |
| `Ingress.OtherRouteIff` | `server/src/app.ts:541-553` | another host keeps its target exactly when no catch-all with another target hides its first rule |
| `Ingress.OnlyOwnRouteChanges` | `server/src/app.ts:541-553` | with catch-alls last, only the own hostname's target changes |
| `Ingress.OrderKept` | `server/src/app.ts:541-553` | unrelated rules and existing catch-alls stay, in order, catch-alls last |
| `Ingress.RewritesCompose` | `server/src/app.ts:541-553` | both rewrites are idempotent, and either after the other gives what it gives alone |
| `Ingress.EnableIdempotentIff` | `server/src/app.ts:541-546` | enabling is idempotent exactly for lower-case hostnames |
| `Migrations.ValidateAppliedMigrations` | `server/src/migration-runner.ts:54-69` | accepts exactly the prefixes of the release whose checksums fit, and otherwise names the first row that does not and why |
| `Migrations.Database.RunMigrations` | `server/src/migration-runner.ts:71-104` | refuses exactly other histories without a change; otherwise, wherever it dies, the table names a longer prefix, each new row with its own commit time, and exactly the new scripts were committed in order; a completed run has all |
| `Migrations.Database.Baseline` | `server/src/migration-runner.ts:82-88` | fills missing checksums only, from the release |
| `Migrations.Database.Apply` | `server/src/migration-runner.ts:90-103` | commits each missing script once, in order, with its row and the time of the commit |
| `Migrations.Database.Commit` | `server/src/migration-runner.ts:92-96` | script and row become visible together |
| `Migrations.Restarts` | `server/src/migration-runner.ts:71-104` | over any number of runs from an empty database exactly the first scripts were committed, each once and in order |
| `Migrations.ReadBackIff` | `server/src/migration-runner.ts:78-80` | the table reads back as a prefix exactly when commit times never went back |
| `Migrations.AcceptedAgainIff` | `server/src/migration-runner.ts:78-80` | after any accepted run, even one that died while filling checksums, the next run accepts the history exactly then |
| `Migrations.LeftFits` | `server/src/migration-runner.ts:71-104` | what an accepted run leaves, wherever it died, fits its release |
| `Migrations.SetBackClock` | `server/src/migration-runner.ts:78-80` | a first run from an empty database completes, and the next one refuses its history |
| `Archive.SafeIff` | `agent/internal/backuphelper/helper.go:268-270` | a name is safe exactly when it is the root or a bounded path of proper elements below it |
| `Archive.PathsDistinct` | `agent/internal/backuphelper/helper.go:246-250` | safe names of one path are equal |
| `Archive.Walk.Admit` | `agent/internal/backuphelper/helper.go:238-256` | an entry passes exactly when the entries so far are safe together; the running total cannot wrap |
| `Archive.ValidateArchive` | `agent/internal/backuphelper/helper.go:214-259` | a walk ends well exactly on readable archives with safe, distinct names within the limits |
| `Archive.CreateArchive` | `agent/internal/backuphelper/helper.go:61-132` | writes every node, or nothing when one is special, unsafely named or over a limit |
| `Archive.AdmitNode` | `agent/internal/backuphelper/helper.go:84-108` | a node passes exactly when the nodes so far are within the limits and safely named |
| `Archive.WrittenIsAcceptable` | `agent/internal/backuphelper/helper.go:77-131` | whatever is written passes the walk |
| `Archive.WrittenIsUnblocked` | `agent/internal/backuphelper/helper.go:77-131` | and no entry of it stands in the way of another |
| `Archive.WrittenIsExtractableIff` | `agent/internal/backuphelper/helper.go:160-195` | it unpacks exactly where every path of the tree fits the file system |
| `Archive.RoundTrip` | `agent/internal/backuphelper/helper.go:160-211` | unpacking it rebuilds the same paths, contents, owners and recorded times, modes masked |
| `Archive.Target.ExtractArchive` | `agent/internal/backuphelper/helper.go:160-212` | after validation no check of the second walk fails; extraction succeeds exactly when no file blocks an entry and every path fits the file system, and then every entry is as recorded |
| `Archive.Target.Unpack` | `agent/internal/backuphelper/helper.go:162-195` | one entry is unpacked, or is blocked by an earlier one or too long |
| `Archive.Target.FinishDirectories` | `agent/internal/backuphelper/helper.go:198-211` | the reverse pass gives every directory its recorded mode, owner and time, and changes nothing else |
| `Archive.Target.FinishDirectory` | `agent/internal/backuphelper/helper.go:198-209` | mode, owner and time of one directory are as recorded |
| `Archive.Target.PlaceFile` | `agent/internal/backuphelper/helper.go:172-191` | a file is placed exactly when its path fits, nothing is there and everything above is a directory |
| `Archive.Target.MkdirAll` | `agent/internal/backuphelper/helper.go:166-174` | missing directories are made, unless a file is in the way or a path does not fit |
| `Archive.Helper.Backup` | `agent/internal/backuphelper/helper.go:61-154` | an archive appears under its name only when it is complete |
| `Archive.Helper.Restore` | `agent/internal/backuphelper/helper.go:38-47` | nothing is cleared unless the whole archive was accepted |
| `Archive.AcceptedButBlocked` | `agent/internal/backuphelper/helper.go:40-47` | an accepted archive that cannot be unpacked, with a file above another entry |
| `Archive.AcceptedButTooLong` | `agent/internal/backuphelper/helper.go:268-270` | another one, with one overlong element |
| `Ipv6.ParsingGivesMeaning` | `server/src/app.ts:284-293` | every text form of section 2.2 of RFC 4291, in any letter case and with or without a zone after its last group, parses to the eight words it denotes |
| `Ipv6.FindRun` | `server/src/app.ts:271-277` | finds the leftmost longest zero run of at least two words, if any |
| `Ipv6.PrintedDenotes` | `server/src/app.ts:278-281` | the printed text is an accepted text of the same address, in lower case |
| `Ipv6.PrintParse` | `server/src/app.ts:271-293` | parsing the printed text returns the address |
| `Ipv6.PrintEquallyIff` | `server/src/app.ts:271-281` | two addresses print equally exactly when they are equal |
| `Ipv6.DigitsRoundTrip` | `server/src/app.ts:278-280` | hexadecimal and decimal printing is read back and has no leading zero |
| `Ipv6.CanonicalIp` | `server/src/app.ts:243-282` | rejects exactly what the library rejects; for a text form, with or without a zone after its last group, returns the canonical text of the denoted address exactly if that is global; with a zone after `::` or an embedded IPv4 address, whatever it returns ends in NaN |
| `Ipv6.OpenZoneNaN` | `server/src/app.ts:284-293` | a zone after `::` or an embedded IPv4 address makes the last word no number |
| `Ipv6.NoNumber` | `server/src/app.ts:259-282` | such a text passes every check and a text that ends in NaN is returned |
| `Ipv6.ColonInZone` | `server/src/app.ts:284-293` | a zone that holds a colon adds a ninth word to an address written out in full |
| `Ipv6.NineGroups` | `server/src/app.ts:278-281` | and nine groups are printed when no word is zero |
| `Ipv6.CanonicalAll` | `server/src/app.ts:298` | every text of a list of such forms is canonical, unless one is not publishable |
| `Ipv6.CanonicalDecides` | `server/src/app.ts:298-299` | two inputs have one canonical text exactly when they denote one address |
| `Ipv6.CanonicalIsFixed` | `server/src/app.ts:259-282` | a canonical text is its own canonical text |
| `Ipv6.PublicIpArray` | `server/src/app.ts:295-301` | accepts at most four publishable addresses in such forms, exactly when no two are the same |
| `ComposePolicy.CanonicalIff` | `server/src/compose-policy.ts:149` | two documents have one canonical form exactly when they have the same content |
| `ComposePolicy.OrderDoesNotMatter` | `server/src/compose-policy.ts:31-71` | the normal form depends on content, not on key order |
| `ComposePolicy.KeysPassIff` | `server/src/compose-policy.ts:148` | the check of keys passes exactly if every unsupported key is the empty one, or no array index and after the empty one |
| `ComposePolicy.OrderMattersIff` | `server/src/compose-policy.ts:31-71` | whether a document is accepted depends on the order of its keys exactly if a checked mapping holds the empty key beside another unsupported one and nothing else is wrong |
| `ComposePolicy.IntendedIff` | `server/src/compose-policy.ts:14-15` | what is accepted meets the lists of supported keys exactly if no checked mapping holds the empty key |
| `ComposePolicy.SortedIff` | `server/src/compose-policy.ts:148-149` | in canonical order an empty key hides every other unsupported key of its mapping that is no array index |
| `ComposePolicy.TurnedIff` | `server/src/compose-policy.ts:148` | in reverse order it hides none |
| `ComposePolicy.EmptyKeyHides` | `server/src/compose-policy.ts:42` | one document in two orders of its top-level keys, one accepted and one refused |
| `ComposePolicy.NormalIsFixed` | `server/src/compose-policy.ts:68-70` | the normal form of an accepted document is accepted, needs no defaults, and is its own normal form |
| `ComposePolicy.InjectedIsAllowed` | `server/src/compose-policy.ts:127-137` | an accepted document is accepted with its defaults, and then every service names its resources |
| `ComposePolicy.OnlyResourcesAdded` | `server/src/compose-policy.ts:127-137` | nothing but missing deploy.resources is added |
| `ComposePolicy.ValidateDeploy` | `server/src/compose-policy.ts:127-143` | accepts exactly the deploy sections allowed as the checks are written, and injects defaults exactly where resources are missing |
| `ComposePolicy.ValidateService` | `server/src/compose-policy.ts:50-67` | accepts exactly the services allowed as the checks are written |
| `ComposePolicy.ValidateServices` | `server/src/compose-policy.ts:50-67` | accepts exactly lists of such services, and injects and reports for each |
| `ComposePolicy.EvaluateComposePolicy` | `server/src/compose-policy.ts:31-71` | accepts exactly the documents allowed as the checks are written, returns the normal form, and reports defaults for exactly the services that named no resources |

## Left out

- React pages, HTTP routing, sessions, roles, rate limits, cryptography, notification channels and telemetry.
- SQL text, isolation levels and advisory locks: a transaction is atomic, and reconciliation of one access is exclusive.
- The applier beside a live stager: the documented recovery procedure stops the control plane first.
- Liveness under permanent faults: safety and resumability are proved, not that a stuck lock is ever released.
- Restore staging: what happens before the lock is taken (decryption, archive and manifest checks) is the condition that an artifact exists; `lstat` is taken to answer truthfully; the reads at the start of an applier run are one step.
- Changes others make to the hostname's records during one attempt; errors of the read that begins an attempt.
- DNS record contents other than type, content, proxied flag and ownership comment; ingress rules' paths and extra fields.
- Status rows of stacks and routes, which entity syncs update; connector identity verification is a parameter of the update.
- Retry delays, heartbeats and enrolment of the agent; command identifiers are valid, as the server makes them.
- Times in agent results; the text of error messages; which error is reported where a contract only says that there is one.
- Tar and gzip encodings: an archive is a sequence of headers with contents. Disk errors while unpacking, and trees that change while they are read.
- Input and output of the migration files: a migration is a number, a script and a checksum; SQL errors are the run's death.
- IPv4 canonicalisation, and trimming of IPv6 texts.
- YAML parsing, alias limits and parameter substitution; regular expressions and number syntax are parameters. Keys are ordered by code unit instead of by locale.
- Compose documents are values: a mapping that two services share through a YAML alias is changed for both by the source, and only the first reports the defaults.
- The check of regular expressions against service, image and variable names.
- Ipv6.CanonicalIp: of a text whose zone holds a dot, a colon or another character than letters, digits and hyphens, nothing is promised beyond `ColonInZone` and `NineGroups`; signs, `0x`, exponents and numbers beyond 2^53 in such a zone are not modelled.
- Ipv6.CanonicalAll: promises nothing of lists that hold a text with a zone other than one of letters, digits and hyphens after a group of digits.
- Ipv6.PublicIpArray: the same for lists that hold such a text; the bound of four holds for every list.
