/**
 * Staging and applying a system restore: the files of the staging area, the database, the
 * stagers that publish a restore and the one-shot applier that drains it. One step is one
 * file-system or database operation, so a process may die between any two of them.
 */
module SystemRestore {
  import opened Common

  // ---------------------------------------------------------------- data

  datatype BackupStatus = Running | Succeeded | Failed

  datatype BackupRow = BackupRow(status: BackupStatus, sizeBytes: Option<nat>, checksum: Option<string>)

  /** `rest` stands for every row outside system_backups. */
  datatype Database = Database(backups: map<Id, BackupRow>, rest: string)

  /** An encrypted backup: the dump inside it, and the size and checksum recorded for it. */
  datatype Artifact = Artifact(snapshot: Database, sizeBytes: nat, checksum: string)

  datatype Marker = Marker(version: nat, restoreId: Id, backupId: Id, token: Id, sizeBytes: nat, checksum: string)

  datatype LockFile = EmptyLock | Holding(token: Id)
  datatype DumpFile = PartialDump | WholeDump(snapshot: Database)
  datatype TempFile = PartialTemp | WholeTemp(marker: Marker)

  /** The staging directory. A dump's name is its backup id and its stager's token. */
  datatype Stage = Stage(
    lock: Option<LockFile>,
    pending: Option<Marker>,
    applying: Option<Marker>,
    applied: Option<Marker>,
    dumps: map<(Id, Id), DumpFile>,
    temps: map<Id, TempFile>)

  /** Where a stager stands: the operation it does next. */
  datatype StagerPc =
    | OpenLock | WriteLock | CheckMarkers | OpenDump | CopyDump | RecordRestore
    | OpenTemp | WriteTemp | RenameTemp | ReportStaged
    | UndoMarker | UndoTemp | UndoDump | UndoLock

  datatype Stager = Stager(pc: StagerPc, backupId: Id, restoreId: Id, dumpCreated: bool, markerPublished: bool)

  /** Where a backup run stands after its `running` row was inserted. */
  datatype Creator = Dumping | Sealing(snapshot: Database)

  datatype Applier =
    | Off
    | RenamePending(m: Marker)
    | RestoreDump(m: Marker)
    | FinalizeRow(m: Marker)
    | RenameApplying(m: Marker)
    | RemoveLock(m: Marker)
    | RemoveMarker(m: Marker)
    | RemoveDump(m: Marker)
    | Finished(restored: bool)
    | Refused

  datatype World = World(
    db: Database,
    artifacts: map<Id, Artifact>,
    creators: map<Id, Creator>,
    stage: Stage,
    stagers: map<Id, Stager>,
    used: set<Id>,
    /** Tokens whose rollback failed to remove its own published marker and went on. */
    lost: set<Id>,
    applier: Applier)

  datatype Step =
    | AppWrite(rest: string)
    | BackupBegin(b: Id)
    | BackupDump(b: Id)
    | BackupSeal(b: Id, sizeBytes: nat, checksum: string)
    | BackupStop(b: Id, recorded: bool)
    | Spawn(token: Id, b: Id, restoreId: Id)
    | Advance(token: Id)
    | Fail(token: Id)
    | LoseMarker(token: Id)
    | Kill(token: Id)
    | ApplierStart
    | ApplierAdvance
    | ApplierCrash

  // ---------------------------------------------------------------- the applier

  function MarkerCount(s: Stage): nat
  {
    (if s.pending.Some? then 1 else 0) + (if s.applying.Some? then 1 else 0) + (if s.applied.Some? then 1 else 0)
  }

  function DumpKey(m: Marker): (Id, Id) { (m.backupId, m.token) }

  predicate DumpUsable(s: Stage, m: Marker)
  {
    DumpKey(m) in s.dumps
  }

  predicate LockNames(s: Stage, token: Id)
  {
    s.lock == Some(Holding(token))
  }

  /** The checks of one run before its first write; they read only. */
  function Inspect(s: Stage): Applier
  {
    if MarkerCount(s) == 0 then Finished(false)
    else if MarkerCount(s) != 1 then Refused
    else if s.applied.Some? then
      var m := s.applied.value;
      if s.lock.Some? && !LockNames(s, m.token) then Refused
      else if !DumpUsable(s, m) then Refused
      else if s.lock.Some? then RemoveLock(m) else RemoveMarker(m)
    else
      var m := if s.pending.Some? then s.pending.value else s.applying.value;
      if !LockNames(s, m.token) || !DumpUsable(s, m) then Refused
      else if s.pending.Some? then RenamePending(m) else RestoreDump(m)
  }

  /** `UPDATE system_backups SET status = 'succeeded', … WHERE id = … AND status = 'running'`. */
  function FinalizeBackup(db: Database, m: Marker): Option<Database>
  {
    if m.backupId in db.backups && db.backups[m.backupId].status == Running
    then Some(db.(backups := db.backups[m.backupId := BackupRow(Succeeded, Some(m.sizeBytes), Some(m.checksum))]))
    else None
  }

  /** The database a completed restore leaves behind. */
  function Restored(snapshot: Database, m: Marker): Database
  {
    if m.version != 2 then snapshot
    else match FinalizeBackup(snapshot, m)
      case Some(db) => db
      case None => snapshot
  }

  /** One fault-free operation of the applier. */
  function ApplierStep(w: World): World
  {
    var s := w.stage;
    match w.applier
    case Off => w.(applier := Inspect(s))
    case RenamePending(m) => w.(stage := s.(pending := None, applying := Some(m)), applier := RestoreDump(m))
    case RestoreDump(m) =>
      if DumpKey(m) in s.dumps && s.dumps[DumpKey(m)].WholeDump?
      then w.(db := s.dumps[DumpKey(m)].snapshot,
              applier := if m.version == 2 then FinalizeRow(m) else RenameApplying(m))
      else w.(applier := Refused)
    case FinalizeRow(m) =>
      (match FinalizeBackup(w.db, m)
       case Some(db) => w.(db := db, applier := RenameApplying(m))
       case None => w.(applier := Refused))
    case RenameApplying(m) =>
      w.(stage := s.(applying := None, applied := Some(m)),
         applier := if s.lock.Some? then RemoveLock(m) else RemoveMarker(m))
    case RemoveLock(m) => w.(stage := s.(lock := None), applier := RemoveMarker(m))
    case RemoveMarker(m) => w.(stage := s.(applied := None), applier := RemoveDump(m))
    case RemoveDump(m) => w.(stage := s.(dumps := s.dumps - {DumpKey(m)}), applier := Finished(true))
    case Finished(_) => w
    case Refused => w
  }

  predicate Stopped(a: Applier) { a.Off? || a.Finished? || a.Refused? }

  // ---------------------------------------------------------------- the stagers

  predicate AnyMarker(s: Stage) { MarkerCount(s) != 0 }

  function OwnMarker(w: World, t: Id): Marker
    requires t in w.stagers && w.stagers[t].backupId in w.artifacts
  {
    var st := w.stagers[t];
    var a := w.artifacts[st.backupId];
    Marker(2, st.restoreId, st.backupId, t, a.sizeBytes, a.checksum)
  }

  function MoveTo(w: World, t: Id, pc: StagerPc): World
    requires t in w.stagers
  {
    w.(stagers := w.stagers[t := w.stagers[t].(pc := pc)])
  }

  function Leave(w: World, t: Id): World
  {
    w.(stagers := w.stagers - {t})
  }

  /** Removing dump or lock of `t` now strands its marker, if that one is still pending. */
  function Stranded(w: World, t: Id): set<Id>
  {
    if w.stage.pending.Some? && w.stage.pending.value.token == t then w.lost + {t} else w.lost
  }

  /** The next operation of stager `t`, succeeding. */
  function StagerStep(w: World, t: Id): World
    requires t in w.stagers && w.stagers[t].backupId in w.artifacts
  {
    var st := w.stagers[t];
    var s := w.stage;
    var key := (st.backupId, t);
    match st.pc
    case OpenLock =>
      if s.lock.Some? then Leave(w, t)
      else MoveTo(w.(stage := s.(lock := Some(EmptyLock))), t, WriteLock)
    case WriteLock => MoveTo(w.(stage := s.(lock := Some(Holding(t)))), t, CheckMarkers)
    case CheckMarkers => MoveTo(w, t, if AnyMarker(s) then UndoMarker else OpenDump)
    case OpenDump =>
      var created := w.(stage := s.(dumps := s.dumps[key := PartialDump]));
      created.(stagers := w.stagers[t := st.(pc := CopyDump, dumpCreated := true)])
    case CopyDump =>
      MoveTo(w.(stage := s.(dumps := s.dumps[key := WholeDump(w.artifacts[st.backupId].snapshot)])), t, RecordRestore)
    case RecordRestore => MoveTo(w, t, OpenTemp)
    case OpenTemp => MoveTo(w.(stage := s.(temps := s.temps[t := PartialTemp])), t, WriteTemp)
    case WriteTemp => MoveTo(w.(stage := s.(temps := s.temps[t := WholeTemp(OwnMarker(w, t))])), t, RenameTemp)
    case RenameTemp =>
      if t in s.temps && s.temps[t].WholeTemp?
      then
        var renamed := w.(stage := s.(temps := s.temps - {t}, pending := Some(s.temps[t].marker)));
        renamed.(stagers := w.stagers[t := st.(pc := ReportStaged, markerPublished := true)])
      else MoveTo(w, t, UndoMarker)
    case ReportStaged => Leave(w, t)
    case UndoMarker =>
      if st.markerPublished && s.pending.Some? && s.pending.value.token == t
      then MoveTo(w.(stage := s.(pending := None)), t, UndoTemp)
      else MoveTo(w, t, UndoTemp)
    case UndoTemp => MoveTo(w.(stage := s.(temps := s.temps - {t})), t, UndoDump)
    case UndoDump =>
      if st.dumpCreated
      then MoveTo(w.(stage := s.(dumps := s.dumps - {key}), lost := Stranded(w, t)), t, UndoLock)
      else MoveTo(w, t, UndoLock)
    case UndoLock =>
      if LockNames(s, t) then Leave(w.(stage := s.(lock := None), lost := Stranded(w, t)), t) else Leave(w, t)
  }

  /** The next operation of stager `t`, throwing without effect. */
  function StagerFailure(w: World, t: Id): World
    requires t in w.stagers
  {
    match w.stagers[t].pc
    // Before the try block that rolls back: the error leaves the lock file as it is.
    case OpenLock => Leave(w, t)
    case WriteLock => Leave(w, t)
    // A rollback that throws is abandoned, and the lock is still released.
    case UndoTemp => MoveTo(w, t, UndoLock)
    case UndoDump => MoveTo(w, t, UndoLock)
    case UndoLock => Leave(w, t)
    case _ => MoveTo(w, t, UndoMarker)
  }

  // ---------------------------------------------------------------- all steps

  predicate Enabled(w: World, step: Step)
  {
    match step
    case AppWrite(_) => Stopped(w.applier)
    case BackupBegin(b) => Stopped(w.applier) && b !in w.used && b !in w.db.backups
    case BackupDump(b) => Stopped(w.applier) && b in w.creators && w.creators[b].Dumping?
    case BackupSeal(b, _, _) => Stopped(w.applier) && b in w.creators && w.creators[b].Sealing? && b !in w.artifacts
    case BackupStop(b, _) => Stopped(w.applier) && b in w.creators
    case Spawn(t, b, _) =>
      && Stopped(w.applier) && t !in w.used
      && b in w.artifacts && b in w.db.backups && w.db.backups[b].status == Succeeded
    case Advance(t) => Stopped(w.applier) && t in w.stagers && w.stagers[t].backupId in w.artifacts
    case Fail(t) => Stopped(w.applier) && t in w.stagers && w.stagers[t].pc != UndoMarker
    case LoseMarker(t) => Stopped(w.applier) && t in w.stagers && w.stagers[t].pc == UndoMarker
    case Kill(t) => t in w.stagers
    case ApplierStart => Stopped(w.applier) && w.stagers == map[] && w.creators == map[]
    case ApplierAdvance => !Stopped(w.applier)
    case ApplierCrash => !Stopped(w.applier)
  }

  function Do(w: World, step: Step): World
    requires Enabled(w, step)
  {
    match step
    case AppWrite(rest) => w.(db := w.db.(rest := rest))
    case BackupBegin(b) =>
      w.(db := w.db.(backups := w.db.backups[b := BackupRow(Running, None, None)]),
         creators := w.creators[b := Dumping], used := w.used + {b})
    case BackupDump(b) => w.(creators := w.creators[b := Sealing(w.db)])
    case BackupSeal(b, size, sum) =>
      // The artifact is renamed into place; the row is completed by BackupStop.
      w.(artifacts := w.artifacts[b := Artifact(w.creators[b].snapshot, size, sum)])
    case BackupStop(b, recorded) =>
      if !recorded || b !in w.db.backups || w.db.backups[b].status != Running then w.(creators := w.creators - {b})
      else if b in w.artifacts
      then w.(creators := w.creators - {b},
              db := w.db.(backups :=
                          w.db.backups[b := BackupRow(Succeeded, Some(w.artifacts[b].sizeBytes),
                                                      Some(w.artifacts[b].checksum))]))
      else w.(creators := w.creators - {b}, db := w.db.(backups := w.db.backups[b := BackupRow(Failed, None, None)]))
    case Spawn(t, b, r) => w.(stagers := w.stagers[t := Stager(OpenLock, b, r, false, false)], used := w.used + {t})
    case Advance(t) => StagerStep(w, t)
    case Fail(t) => StagerFailure(w, t)
    case LoseMarker(t) =>
      // The read or the removal fails; the catch block leaves the marker and rollback goes on.
      MoveTo(w, t, UndoTemp)
    case Kill(t) => Leave(w, t)
    case ApplierStart => ApplierStep(w.(applier := Off))
    case ApplierAdvance => ApplierStep(w)
    case ApplierCrash => w.(applier := Off)
  }

  predicate Legal(w: World, steps: seq<Step>)
    decreases |steps|
  {
    steps == [] || (Enabled(w, steps[0]) && Legal(Do(w, steps[0]), steps[1..]))
  }

  function Exec(w: World, steps: seq<Step>): World
    requires Legal(w, steps)
    decreases |steps|
  {
    if steps == [] then w else Exec(Do(w, steps[0]), steps[1..])
  }

  predicate Init(w: World)
  {
    && w.artifacts == map[] && w.creators == map[] && w.stagers == map[] && w.lost == {} && w.applier == Off
    && w.stage == Stage(None, None, None, None, map[], map[])
    && w.used == w.db.backups.Keys
  }

  // ---------------------------------------------------------------- the invariant

  predicate Holds(pc: StagerPc) { pc != OpenLock && pc != WriteLock }

  predicate HasDump(pc: StagerPc)
  {
    pc == RecordRestore || pc == OpenTemp || pc == WriteTemp || pc == RenameTemp || pc == ReportStaged
  }

  predicate BeforePublication(pc: StagerPc)
  {
    pc == OpenDump || pc == CopyDump || pc == RecordRestore || pc == OpenTemp || pc == WriteTemp || pc == RenameTemp
  }

  /** The marker was published from an artifact; its dump, while it exists, is that artifact's. */
  ghost predicate Published(w: World, m: Marker)
  {
    && m.version == 2 && m.backupId in w.artifacts
    && m.sizeBytes == w.artifacts[m.backupId].sizeBytes && m.checksum == w.artifacts[m.backupId].checksum
    && (DumpKey(m) in w.stage.dumps ==> w.stage.dumps[DumpKey(m)] == WholeDump(w.artifacts[m.backupId].snapshot))
  }

  /** Published, and the complete dump is in place. */
  ghost predicate Backed(w: World, m: Marker)
  {
    Published(w, m) && DumpKey(m) in w.stage.dumps
  }

  /** Every artifact was dumped while its own row was `running`. */
  ghost predicate ArtifactsSound(w: World)
  {
    && (forall b :: b in w.artifacts ==>
        b in w.artifacts[b].snapshot.backups && w.artifacts[b].snapshot.backups[b].status == Running)
    && (forall b :: b in w.creators ==> b in w.used && match w.creators[b]
          case Dumping => b in w.db.backups && w.db.backups[b].status == Running
          case Sealing(snapshot) => b in snapshot.backups && snapshot.backups[b].status == Running)
  }

  ghost predicate TokensUsed(w: World)
  {
    && (forall t :: t in w.stagers ==> t in w.used && w.stagers[t].backupId in w.artifacts)
    && (forall k :: k in w.stage.dumps ==> k.1 in w.used)
    && (forall t :: t in w.stage.temps ==> t in w.used)
    && (w.stage.lock.Some? && w.stage.lock.value.Holding? ==> w.stage.lock.value.token in w.used)
    && (w.stage.pending.Some? ==> w.stage.pending.value.token in w.used)
    && (w.stage.applying.Some? ==> w.stage.applying.value.token in w.used)
    && (w.stage.applied.Some? ==> w.stage.applied.value.token in w.used)
  }

  /** What one live stager may rely on. */
  ghost predicate StagerSound(w: World, t: Id)
    requires t in w.stagers && w.stagers[t].backupId in w.artifacts
  {
    var st := w.stagers[t];
    var key := (st.backupId, t);
    && (st.pc == WriteLock ==> w.stage.lock == Some(EmptyLock))
    && (Holds(st.pc) ==> LockNames(w.stage, t))
    && (!Holds(st.pc) || st.pc == CheckMarkers || st.pc == OpenDump ==> key !in w.stage.dumps && !st.dumpCreated)
    && (BeforePublication(st.pc) ==> !AnyMarker(w.stage))
    && (st.pc == CopyDump || HasDump(st.pc) ==> st.dumpCreated)
    && (HasDump(st.pc) ==> key in w.stage.dumps && w.stage.dumps[key] == WholeDump(w.artifacts[st.backupId].snapshot))
    && (st.pc == RenameTemp ==> t in w.stage.temps && w.stage.temps[t] == WholeTemp(OwnMarker(w, t)))
    && (st.pc == ReportStaged ==> st.markerPublished)
    && (st.markerPublished ==> st.dumpCreated)
    && (st.markerPublished ==>
        st.pc == ReportStaged || st.pc == UndoMarker || st.pc == UndoTemp || st.pc == UndoDump || st.pc == UndoLock)
    && (st.markerPublished && (st.pc == ReportStaged || st.pc == UndoMarker) ==>
          w.stage.pending == Some(OwnMarker(w, t)) && Backed(w, OwnMarker(w, t)))
  }

  ghost predicate StagersSound(w: World)
  {
    && (forall t :: t in w.stagers ==> w.stagers[t].backupId in w.artifacts && StagerSound(w, t))
    && (forall t, u ::
        t in w.stagers && u in w.stagers && w.stagers[t].pc == WriteLock && w.stagers[u].pc == WriteLock ==> t == u)
  }

  predicate AfterPublication(pc: StagerPc) { pc == ReportStaged || Undoing(pc) }

  /** A live stager is named by no marker but its own published one. */
  ghost predicate MarkersOwned(w: World)
  {
    && (w.stage.pending.Some? && w.stage.pending.value.token in w.stagers ==>
          var st := w.stagers[w.stage.pending.value.token];
          st.markerPublished && AfterPublication(st.pc) && st.backupId == w.stage.pending.value.backupId)
    && (w.stage.applying.Some? ==> w.stage.applying.value.token !in w.stagers)
    && (w.stage.applied.Some? ==> w.stage.applied.value.token !in w.stagers)
  }

  /** The pending marker has the lock that names it and its dump. */
  predicate PendingBacked(s: Stage)
  {
    s.pending.Some? && LockNames(s, s.pending.value.token) && DumpKey(s.pending.value) in s.dumps
  }

  /** Only at the end of a rollback is a marker lost, and then it lacks its lock or its dump for good. */
  ghost predicate LostSound(w: World)
  {
    && (forall t :: t in w.lost ==> t in w.used && (t in w.stagers ==> w.stagers[t].pc == UndoLock))
    && (w.stage.pending.Some? && w.stage.pending.value.token in w.lost ==> !PendingBacked(w.stage))
  }

  /** At most one marker; a pending or applying one has its lock and its dump; an applied one its dump. */
  ghost predicate MarkersSound(w: World)
  {
    && MarkerCount(w.stage) <= 1
    && (w.stage.pending.Some? ==> Published(w, w.stage.pending.value))
    && (w.stage.pending.Some? && w.stage.pending.value.token !in w.lost ==>
          LockNames(w.stage, w.stage.pending.value.token) && Backed(w, w.stage.pending.value))
    && (w.stage.applying.Some? ==>
        LockNames(w.stage, w.stage.applying.value.token) && Backed(w, w.stage.applying.value))
    && (w.stage.applied.Some? ==> Backed(w, w.stage.applied.value))
  }

  /** The applier's place agrees with the marker on disk. */
  ghost predicate ApplierSound(w: World)
  {
    && (!Stopped(w.applier) ==> w.stagers == map[] && w.creators == map[])
    && match w.applier
       case RenamePending(m) => w.stage.pending == Some(m) && LockNames(w.stage, m.token) && Backed(w, m)
       case RestoreDump(m) => w.stage.applying == Some(m)
       case FinalizeRow(m) => w.stage.applying == Some(m)
       case RenameApplying(m) => w.stage.applying == Some(m)
       case RemoveLock(m) => w.stage.applied == Some(m) && LockNames(w.stage, m.token)
       case RemoveMarker(m) => w.stage.applied == Some(m) && w.stage.lock == None
       case RemoveDump(m) => MarkerCount(w.stage) == 0 && w.stage.lock == None
       case _ => true
  }

  ghost predicate Inv(w: World)
  {
    && ArtifactsSound(w) && TokensUsed(w) && StagersSound(w) && MarkersOwned(w) && MarkersSound(w) && LostSound(w)
    && ApplierSound(w)
  }

  lemma InitInv(w: World)
    requires Init(w)
    ensures Inv(w)
  {
  }

  /** With the same files the other stagers are as sound as before. */
  lemma OthersStaySound(w: World, w': World, t: Id)
    requires StagersSound(w) && w'.stage == w.stage
    requires forall b :: b in w.artifacts ==> b in w'.artifacts && w'.artifacts[b] == w.artifacts[b]
    requires forall u :: u in w'.stagers && u != t ==> u in w.stagers && w'.stagers[u] == w.stagers[u]
    requires t in w'.stagers ==>
      w'.stagers[t].backupId in w'.artifacts && StagerSound(w', t) && w'.stagers[t].pc != WriteLock
    ensures StagersSound(w')
  {
    forall u | u in w'.stagers ensures w'.stagers[u].backupId in w'.artifacts && StagerSound(w', u) {
      if u != t { assert StagerSound(w, u); }
    }
  }

  /** With the same files the markers are as sound as before. */
  lemma MarkersStaySound(w: World, w': World)
    requires MarkersSound(w) && w'.stage == w.stage && w.lost <= w'.lost
    requires forall b :: b in w.artifacts ==> b in w'.artifacts && w'.artifacts[b] == w.artifacts[b]
    ensures MarkersSound(w')
  {
  }

  /** A stager that leaves, or dies, takes nothing with it. */
  lemma LeaveInv(w: World, t: Id)
    requires Inv(w)
    ensures Inv(Leave(w, t))
  {
    OthersStaySound(w, Leave(w, t), t);
  }

  lemma MoveStagers(w: World, t: Id, pc: StagerPc)
    requires StagersSound(w) && t in w.stagers && pc != WriteLock && StagerSound(MoveTo(w, t, pc), t)
    ensures StagersSound(MoveTo(w, t, pc))
  {
    OthersStaySound(w, MoveTo(w, t, pc), t);
  }

  lemma MoveTokens(w: World, t: Id, pc: StagerPc)
    requires TokensUsed(w) && t in w.stagers
    ensures TokensUsed(MoveTo(w, t, pc))
  {
  }

  /** A stager may move on without touching a file when its own next place is sound. */
  lemma MoveInv(w: World, t: Id, pc: StagerPc)
    requires Inv(w) && Stopped(w.applier) && t in w.stagers && pc != WriteLock && (t in w.lost ==> pc == UndoLock)
    requires StagerSound(MoveTo(w, t, pc), t)
    requires MarkersOwned(MoveTo(w, t, pc))
    ensures Inv(MoveTo(w, t, pc))
  {
    var w' := MoveTo(w, t, pc);
    MoveStagers(w, t, pc);
    MarkersStaySound(w, w');
    MoveTokens(w, t, pc);
    MoveRest(w, t, pc);
    MoveLost(w, t, pc);
  }

  lemma MoveRest(w: World, t: Id, pc: StagerPc)
    requires ArtifactsSound(w) && ApplierSound(w) && Stopped(w.applier) && t in w.stagers
    ensures ArtifactsSound(MoveTo(w, t, pc)) && ApplierSound(MoveTo(w, t, pc))
  {
  }

  lemma MoveLost(w: World, t: Id, pc: StagerPc)
    requires LostSound(w) && t in w.stagers && (t in w.lost ==> pc == UndoLock)
    ensures LostSound(MoveTo(w, t, pc))
  {
  }

  /** While one stager holds the lock every other one is still to try for it. */
  lemma HolderAlone(w: World, t: Id, u: Id)
    requires Inv(w) && t in w.stagers && u in w.stagers && u != t && Holds(w.stagers[t].pc)
    ensures w.stagers[u].pc == OpenLock
  {
    assert StagerSound(w, t) && StagerSound(w, u);
  }

  /** A holder of the lock that is still there still holds it, in a sound place. */
  ghost predicate StillSound(w: World, t: Id)
  {
    t in w.stagers ==> w.stagers[t].backupId in w.artifacts && Holds(w.stagers[t].pc) && StagerSound(w, t)
  }

  /** Any step of the lock's holder that keeps its own place and the markers sound. */
  lemma HolderStepInv(w: World, t: Id, w': World)
    requires Inv(w) && Stopped(w.applier) && t in w.stagers && Holds(w.stagers[t].pc)
    requires w' == w.(stage := w'.stage, stagers := w'.stagers, lost := w'.lost)
    requires forall u :: u in w'.stagers ==> u in w.stagers && (u != t ==> w'.stagers[u] == w.stagers[u])
    requires forall k :: k in w'.stage.dumps ==> k in w.stage.dumps || k.1 == t
    requires TokensUsed(w') && MarkersSound(w') && MarkersOwned(w') && LostSound(w')
    requires StillSound(w', t)
    ensures Inv(w')
  {
    forall u | u in w'.stagers ensures StagerSound(w', u) {
      assert StagerSound(w, u);
      if u != t { HolderAlone(w, t, u); }
    }
    forall u | u in w'.stagers ensures w'.stagers[u].pc != WriteLock {
      if u != t { HolderAlone(w, t, u); }
    }
  }

  /** Opening the lock: nobody held it, so nobody relied on it. */
  lemma OpenLockStagers(w: World, t: Id)
    requires StagersSound(w) && t in w.stagers && w.stagers[t].pc == OpenLock && w.stage.lock.None?
    ensures StagersSound(StagerStep(w, t))
  {
    var w' := StagerStep(w, t);
    forall u | u in w'.stagers ensures StagerSound(w', u) && (u != t ==> w.stagers[u].pc == OpenLock) {
      assert StagerSound(w, u);
    }
  }

  lemma OpenLockInv(w: World, t: Id)
    requires Inv(w) && Enabled(w, Advance(t)) && w.stagers[t].pc == OpenLock
    ensures Inv(StagerStep(w, t))
  {
    if w.stage.lock.Some? {
      LeaveInv(w, t);
    } else {
      OpenLockStagers(w, t);
      OpenLockMarkers(w, t);
      OpenLockTokens(w, t);
    }
  }

  lemma OpenLockMarkers(w: World, t: Id)
    requires Inv(w) && Enabled(w, Advance(t)) && w.stagers[t].pc == OpenLock && w.stage.lock.None?
    ensures MarkersSound(StagerStep(w, t)) && MarkersOwned(StagerStep(w, t))
  {
  }

  lemma OpenLockTokens(w: World, t: Id)
    requires TokensUsed(w) && LostSound(w) && Enabled(w, Advance(t)) && w.stagers[t].pc == OpenLock
      && w.stage.lock.None?
    ensures TokensUsed(StagerStep(w, t)) && LostSound(StagerStep(w, t))
  {
  }

  lemma WriteLockStagers(w: World, t: Id)
    requires StagersSound(w) && t in w.stagers && w.stagers[t].pc == WriteLock
    ensures StagersSound(StagerStep(w, t)) && w.stage.lock == Some(EmptyLock)
  {
    var w' := StagerStep(w, t);
    assert StagerSound(w, t);
    forall u | u in w'.stagers ensures StagerSound(w', u) && (u != t ==> w.stagers[u].pc == OpenLock) {
      assert StagerSound(w, u);
    }
  }

  lemma WriteLockInv(w: World, t: Id)
    requires Inv(w) && Enabled(w, Advance(t)) && w.stagers[t].pc == WriteLock
    ensures Inv(StagerStep(w, t))
  {
    WriteLockStagers(w, t);
    WriteLockMarkers(w, t);
    WriteLockTokens(w, t);
  }

  lemma WriteLockMarkers(w: World, t: Id)
    requires Inv(w) && Enabled(w, Advance(t)) && w.stagers[t].pc == WriteLock && w.stage.lock == Some(EmptyLock)
    ensures MarkersSound(StagerStep(w, t)) && MarkersOwned(StagerStep(w, t))
  {
  }

  lemma WriteLockTokens(w: World, t: Id)
    requires TokensUsed(w) && LostSound(w) && Enabled(w, Advance(t)) && w.stagers[t].pc == WriteLock
    requires w.stage.lock == Some(EmptyLock)
    ensures TokensUsed(StagerStep(w, t)) && LostSound(StagerStep(w, t))
  {
  }

  lemma PublishStepMarkers(w: World, t: Id)
    requires Inv(w) && Enabled(w, Advance(t)) && Holds(w.stagers[t].pc) && !Undoing(w.stagers[t].pc)
    ensures MarkersSound(StagerStep(w, t))
  {
    assert StagerSound(w, t);
    if w.stagers[t].pc == RenameTemp { RenameMarkers(w, t); } else { UnpublishedMarkers(w, t); }
  }

  lemma RenameMarkers(w: World, t: Id)
    requires MarkersSound(w) && t in w.stagers && w.stagers[t].backupId in w.artifacts && StagerSound(w, t)
    requires w.stagers[t].pc == RenameTemp
    ensures MarkersSound(StagerStep(w, t))
  {
  }

  lemma UnpublishedMarkers(w: World, t: Id)
    requires MarkersSound(w) && t in w.stagers && w.stagers[t].backupId in w.artifacts && StagerSound(w, t)
    requires Holds(w.stagers[t].pc) && !Undoing(w.stagers[t].pc) && w.stagers[t].pc != RenameTemp
    ensures MarkersSound(StagerStep(w, t))
  {
  }

  lemma UndoMarkerMarkers(w: World, t: Id)
    requires Inv(w) && Enabled(w, Advance(t)) && w.stagers[t].pc == UndoMarker
    ensures MarkersSound(StagerStep(w, t))
  {
    assert StagerSound(w, t);
  }

  lemma UndoStepMarkers(w: World, t: Id)
    requires Inv(w) && Enabled(w, Advance(t)) && Undoing(w.stagers[t].pc) && w.stagers[t].pc != UndoMarker
    ensures MarkersSound(StagerStep(w, t))
  {
    assert StagerSound(w, t);
    if w.stagers[t].pc == UndoDump { UndoDumpMarkers(w, t); }
    if w.stagers[t].pc == UndoLock { UndoLockMarkers(w, t); }
  }

  lemma UndoDumpMarkers(w: World, t: Id)
    requires MarkersSound(w) && t in w.stagers && w.stagers[t].backupId in w.artifacts && w.stagers[t].pc == UndoDump
    requires MarkersOwned(w) && StagerSound(w, t)
    ensures MarkersSound(StagerStep(w, t))
  {
  }

  lemma UndoLockMarkers(w: World, t: Id)
    requires MarkersSound(w) && t in w.stagers && w.stagers[t].backupId in w.artifacts && w.stagers[t].pc == UndoLock
    requires MarkersOwned(w) && StagerSound(w, t)
    ensures MarkersSound(StagerStep(w, t))
  {
  }

  lemma HolderStepMarkers(w: World, t: Id)
    requires Inv(w) && Enabled(w, Advance(t)) && Holds(w.stagers[t].pc)
    ensures MarkersSound(StagerStep(w, t))
  {
    if !Undoing(w.stagers[t].pc) {
      PublishStepMarkers(w, t);
    } else if w.stagers[t].pc == UndoMarker {
      UndoMarkerMarkers(w, t);
    } else {
      UndoStepMarkers(w, t);
    }
  }

  lemma PublishStepOwned(w: World, t: Id)
    requires Inv(w) && Enabled(w, Advance(t)) && Holds(w.stagers[t].pc) && !Undoing(w.stagers[t].pc)
    ensures MarkersOwned(StagerStep(w, t))
  {
    assert StagerSound(w, t);
  }

  lemma UndoMarkerOwned(w: World, t: Id)
    requires Inv(w) && Enabled(w, Advance(t)) && w.stagers[t].pc == UndoMarker
    ensures MarkersOwned(StagerStep(w, t))
  {
    assert StagerSound(w, t);
  }

  lemma UndoStepOwned(w: World, t: Id)
    requires Inv(w) && Enabled(w, Advance(t)) && Undoing(w.stagers[t].pc) && w.stagers[t].pc != UndoMarker
    ensures MarkersOwned(StagerStep(w, t))
  {
    assert StagerSound(w, t);
  }

  lemma HolderStepOwned(w: World, t: Id)
    requires Inv(w) && Enabled(w, Advance(t)) && Holds(w.stagers[t].pc)
    ensures MarkersOwned(StagerStep(w, t))
  {
    if !Undoing(w.stagers[t].pc) {
      PublishStepOwned(w, t);
    } else if w.stagers[t].pc == UndoMarker {
      UndoMarkerOwned(w, t);
    } else {
      UndoStepOwned(w, t);
    }
  }

  predicate Undoing(pc: StagerPc) { pc == UndoMarker || pc == UndoTemp || pc == UndoDump || pc == UndoLock }

  lemma PublishStepTokens(w: World, t: Id)
    requires TokensUsed(w) && t in w.stagers && Holds(w.stagers[t].pc) && !Undoing(w.stagers[t].pc)
      && w.stagers[t].pc != RenameTemp
    ensures TokensUsed(StagerStep(w, t))
  {
  }

  lemma RenameTokens(w: World, t: Id)
    requires Inv(w) && Enabled(w, Advance(t)) && w.stagers[t].pc == RenameTemp
    ensures TokensUsed(StagerStep(w, t))
  {
    assert StagerSound(w, t);
  }

  lemma UndoFirstTokens(w: World, t: Id)
    requires TokensUsed(w) && t in w.stagers && (w.stagers[t].pc == UndoMarker || w.stagers[t].pc == UndoTemp)
    ensures TokensUsed(StagerStep(w, t))
  {
  }

  lemma UndoLastTokens(w: World, t: Id)
    requires TokensUsed(w) && t in w.stagers && (w.stagers[t].pc == UndoDump || w.stagers[t].pc == UndoLock)
    ensures TokensUsed(StagerStep(w, t))
  {
  }

  lemma OpenStepSound(w: World, t: Id)
    requires t in w.stagers && w.stagers[t].backupId in w.artifacts && StagerSound(w, t)
    requires (w.stagers[t].pc == CheckMarkers || w.stagers[t].pc == OpenDump)
    ensures StillSound(StagerStep(w, t), t)
  {
  }

  lemma CopyStepSound(w: World, t: Id)
    requires Inv(w) && Enabled(w, Advance(t)) && w.stagers[t].pc == CopyDump
    ensures StillSound(StagerStep(w, t), t)
  {
    assert StagerSound(w, t);
  }

  lemma WriteStepSound(w: World, t: Id)
    requires t in w.stagers && w.stagers[t].backupId in w.artifacts && StagerSound(w, t)
    requires (w.stagers[t].pc == RecordRestore || w.stagers[t].pc == OpenTemp || w.stagers[t].pc == WriteTemp)
    ensures StillSound(StagerStep(w, t), t)
  {
  }

  lemma PublishStepSound(w: World, t: Id)
    requires Inv(w) && Enabled(w, Advance(t)) && (w.stagers[t].pc == RenameTemp || w.stagers[t].pc == ReportStaged)
    ensures StillSound(StagerStep(w, t), t)
  {
    assert StagerSound(w, t);
  }

  lemma UndoMarkerSound(w: World, t: Id)
    requires Inv(w) && Enabled(w, Advance(t)) && w.stagers[t].pc == UndoMarker
    ensures StillSound(StagerStep(w, t), t)
  {
    assert StagerSound(w, t);
  }

  lemma UndoTempSound(w: World, t: Id)
    requires t in w.stagers && w.stagers[t].backupId in w.artifacts && StagerSound(w, t)
    requires w.stagers[t].pc == UndoTemp
    ensures StillSound(StagerStep(w, t), t)
  {
  }

  lemma UndoDumpSound(w: World, t: Id)
    requires t in w.stagers && w.stagers[t].backupId in w.artifacts && StagerSound(w, t)
    requires w.stagers[t].pc == UndoDump
    ensures StillSound(StagerStep(w, t), t)
  {
  }

  lemma UndoLockLeaves(w: World, t: Id)
    requires t in w.stagers && w.stagers[t].backupId in w.artifacts && w.stagers[t].pc == UndoLock
    ensures t !in StagerStep(w, t).stagers
  {
  }

  lemma HolderStepSound(w: World, t: Id)
    requires Inv(w) && Enabled(w, Advance(t)) && Holds(w.stagers[t].pc)
    ensures StillSound(StagerStep(w, t), t)
  {
    assert StagerSound(w, t);
    match w.stagers[t].pc {
      case CheckMarkers | OpenDump => OpenStepSound(w, t);
      case CopyDump => CopyStepSound(w, t);
      case RecordRestore | OpenTemp | WriteTemp => WriteStepSound(w, t);
      case RenameTemp | ReportStaged => PublishStepSound(w, t);
      case UndoMarker => UndoMarkerSound(w, t);
      case UndoTemp => UndoTempSound(w, t);
      case UndoDump => UndoDumpSound(w, t);
      case _ => UndoLockLeaves(w, t);
    }
  }

  lemma HolderStepTokens(w: World, t: Id)
    requires Inv(w) && Enabled(w, Advance(t)) && Holds(w.stagers[t].pc)
    ensures TokensUsed(StagerStep(w, t))
  {
    match w.stagers[t].pc {
      case UndoMarker | UndoTemp => UndoFirstTokens(w, t);
      case UndoDump | UndoLock => UndoLastTokens(w, t);
      case RenameTemp => RenameTokens(w, t);
      case _ => PublishStepTokens(w, t);
    }
  }

  lemma PublishStepLost(w: World, t: Id)
    requires Inv(w) && Enabled(w, Advance(t)) && Holds(w.stagers[t].pc) && !Undoing(w.stagers[t].pc)
    ensures LostSound(StagerStep(w, t))
  {
    assert StagerSound(w, t);
  }

  lemma UndoStepLost(w: World, t: Id)
    requires Inv(w) && Enabled(w, Advance(t)) && Undoing(w.stagers[t].pc) && w.stagers[t].pc != UndoDump
    ensures LostSound(StagerStep(w, t))
  {
    assert StagerSound(w, t);
    if w.stagers[t].pc == UndoLock { UndoLockLost(w, t); } else { UndoFirstLost(w, t); }
  }

  lemma UndoLockLost(w: World, t: Id)
    requires t in w.stagers && w.stagers[t].backupId in w.artifacts && w.stagers[t].pc == UndoLock
    requires LostSound(w) && TokensUsed(w)
    ensures LostSound(StagerStep(w, t))
  {
  }

  lemma UndoFirstLost(w: World, t: Id)
    requires t in w.stagers && w.stagers[t].backupId in w.artifacts
    requires w.stagers[t].pc == UndoMarker || w.stagers[t].pc == UndoTemp
    requires LostSound(w)
    ensures LostSound(StagerStep(w, t))
  {
  }

  lemma UndoDumpLost(w: World, t: Id)
    requires Inv(w) && Enabled(w, Advance(t)) && w.stagers[t].pc == UndoDump
    ensures LostSound(StagerStep(w, t))
  {
    assert StagerSound(w, t);
  }

  lemma HolderStepLost(w: World, t: Id)
    requires Inv(w) && Enabled(w, Advance(t)) && Holds(w.stagers[t].pc)
    ensures LostSound(StagerStep(w, t))
  {
    if !Undoing(w.stagers[t].pc) {
      PublishStepLost(w, t);
    } else if w.stagers[t].pc == UndoDump {
      UndoDumpLost(w, t);
    } else {
      UndoStepLost(w, t);
    }
  }

  lemma StagerStepFrame(w: World, t: Id)
    requires t in w.stagers && w.stagers[t].backupId in w.artifacts
    ensures var w' := StagerStep(w, t);
      && w' == w.(stage := w'.stage, stagers := w'.stagers, lost := w'.lost)
      && (forall u :: u in w'.stagers ==> u in w.stagers && (u != t ==> w'.stagers[u] == w.stagers[u]))
      && (forall k :: k in w'.stage.dumps ==> k in w.stage.dumps || k.1 == t)
  {
    StagerStepOthers(w, t);
    StagerStepDumps(w, t);
  }

  lemma StagerStepOthers(w: World, t: Id)
    requires t in w.stagers && w.stagers[t].backupId in w.artifacts
    ensures var w' := StagerStep(w, t);
      forall u :: u in w'.stagers ==> u in w.stagers && (u != t ==> w'.stagers[u] == w.stagers[u])
  {
  }

  lemma StagerStepDumps(w: World, t: Id)
    requires t in w.stagers && w.stagers[t].backupId in w.artifacts
    ensures forall k :: k in StagerStep(w, t).stage.dumps ==> k in w.stage.dumps || k.1 == t
  {
  }

  lemma HolderAdvanceInv(w: World, t: Id)
    requires Inv(w) && Enabled(w, Advance(t)) && Holds(w.stagers[t].pc)
    ensures Inv(StagerStep(w, t))
  {
    StagerStepFrame(w, t);
    HolderStepMarkers(w, t);
    HolderStepOwned(w, t);
    HolderStepLost(w, t);
    HolderStepTokens(w, t);
    HolderStepSound(w, t);
    HolderStepInv(w, t, StagerStep(w, t));
  }

  lemma StagerStepInv(w: World, t: Id)
    requires Inv(w) && Enabled(w, Advance(t))
    ensures Inv(StagerStep(w, t))
  {
    match w.stagers[t].pc {
      case OpenLock => OpenLockInv(w, t);
      case WriteLock => WriteLockInv(w, t);
      case _ => HolderAdvanceInv(w, t);
    }
  }

  /** Where a failed operation of a lock holder leads. */
  function FailureTarget(pc: StagerPc): StagerPc
  {
    if pc == UndoTemp || pc == UndoDump then UndoLock else UndoMarker
  }

  /** The rollback that a failed operation starts, or cuts short, is itself sound. */
  lemma FailureTargetSound(w: World, t: Id)
    requires t in w.stagers && w.stagers[t].backupId in w.artifacts && StagerSound(w, t) && Holds(w.stagers[t].pc)
    requires w.stagers[t].pc != UndoMarker && w.stagers[t].pc != UndoLock
    ensures StagerSound(MoveTo(w, t, FailureTarget(w.stagers[t].pc)), t)
  {
  }

  lemma FailureTargetOwned(w: World, t: Id)
    requires Inv(w) && t in w.stagers && Holds(w.stagers[t].pc) && w.stagers[t].pc != UndoMarker
      && w.stagers[t].pc != UndoLock
    ensures MarkersOwned(MoveTo(w, t, FailureTarget(w.stagers[t].pc)))
  {
    assert StagerSound(w, t);
  }

  lemma FailMoves(w: World, t: Id)
    requires Inv(w) && t in w.stagers && Holds(w.stagers[t].pc) && w.stagers[t].pc != UndoMarker
      && w.stagers[t].pc != UndoLock
    ensures Inv(MoveTo(w, t, FailureTarget(w.stagers[t].pc)))
  {
    assert StagerSound(w, t);
    FailureTargetSound(w, t);
    FailureTargetOwned(w, t);
    MoveInv(w, t, FailureTarget(w.stagers[t].pc));
  }

  lemma FailIsMove(w: World, t: Id)
    requires t in w.stagers
    requires var pc := w.stagers[t].pc; pc != OpenLock && pc != WriteLock && pc != UndoLock
    ensures StagerFailure(w, t) == MoveTo(w, t, FailureTarget(w.stagers[t].pc))
  {
  }

  lemma FailLeaves(w: World, t: Id)
    requires t in w.stagers
      && (w.stagers[t].pc == OpenLock || w.stagers[t].pc == WriteLock || w.stagers[t].pc == UndoLock)
    ensures StagerFailure(w, t) == Leave(w, t)
  {
  }

  lemma FailInv(w: World, t: Id)
    requires Inv(w) && Enabled(w, Fail(t))
    ensures Inv(StagerFailure(w, t))
  {
    var pc := w.stagers[t].pc;
    if pc == OpenLock || pc == WriteLock || pc == UndoLock {
      FailLeaves(w, t);
      LeaveInv(w, t);
    } else {
      FailMoves(w, t);
      FailIsMove(w, t);
    }
  }

  lemma LoseMarkerInv(w: World, t: Id)
    requires Inv(w) && Enabled(w, LoseMarker(t))
    ensures Inv(Do(w, LoseMarker(t)))
  {
    assert StagerSound(w, t);
    MoveInv(w, t, UndoTemp);
  }

  lemma SpawnInv(w: World, t: Id, b: Id, r: Id)
    requires Inv(w) && Enabled(w, Spawn(t, b, r))
    ensures Inv(Do(w, Spawn(t, b, r)))
  {
    OthersStaySound(w, Do(w, Spawn(t, b, r)), t);
    MarkersStaySound(w, Do(w, Spawn(t, b, r)));
    SpawnTokens(w, t, b, r);
  }

  lemma SpawnTokens(w: World, t: Id, b: Id, r: Id)
    requires TokensUsed(w) && LostSound(w) && MarkersOwned(w) && Enabled(w, Spawn(t, b, r))
    ensures var w' := Do(w, Spawn(t, b, r));
      TokensUsed(w') && LostSound(w') && MarkersOwned(w')
  {
  }

  /** Only the database and the backup runs change. */
  lemma DatabaseOnlyInv(w: World, w': World)
    requires Inv(w) && Stopped(w.applier)
    requires w' == w.(db := w'.db, creators := w'.creators, used := w'.used) && w.used <= w'.used
    requires ArtifactsSound(w')
    ensures Inv(w')
  {
    forall u | u in w'.stagers ensures StagerSound(w', u) {
      assert StagerSound(w, u);
    }
  }

  lemma BackupRowInv(w: World, step: Step)
    requires Inv(w) && Enabled(w, step)
    requires step.AppWrite? || step.BackupBegin? || step.BackupDump? || step.BackupStop?
    ensures Inv(Do(w, step))
  {
    assert ArtifactsSound(Do(w, step));
    DatabaseOnlyInv(w, Do(w, step));
  }

  lemma BackupSealInv(w: World, b: Id, size: nat, sum: string)
    requires Inv(w) && Enabled(w, BackupSeal(b, size, sum))
    ensures Inv(Do(w, BackupSeal(b, size, sum)))
  {
    var w' := Do(w, BackupSeal(b, size, sum));
    assert StagersSound(w') by {
      forall u | u in w'.stagers ensures StagerSound(w', u) {
        assert StagerSound(w, u);
      }
    }
  }

  lemma ApplierStartInv(w: World)
    requires Inv(w) && Enabled(w, ApplierStart)
    ensures Inv(Do(w, ApplierStart))
  {
  }

  lemma ApplierRenamesInv(w: World)
    requires Inv(w) && (w.applier.RenamePending? || w.applier.RenameApplying?)
    ensures Inv(ApplierStep(w))
  {
    ApplierRenameTokens(w);
    ApplierRenameMarkers(w);
  }

  lemma ApplierRenameTokens(w: World)
    requires TokensUsed(w) && LostSound(w) && ApplierSound(w) && (w.applier.RenamePending? || w.applier.RenameApplying?)
    ensures var w' := ApplierStep(w);
      TokensUsed(w') && LostSound(w') && MarkersOwned(w') && StagersSound(w')
  {
  }

  lemma ApplierRenameMarkers(w: World)
    requires MarkersSound(w) && ApplierSound(w) && (w.applier.RenamePending? || w.applier.RenameApplying?)
    ensures MarkersSound(ApplierStep(w)) && ApplierSound(ApplierStep(w))
  {
  }

  lemma ApplierDatabaseInv(w: World)
    requires Inv(w) && (w.applier.RestoreDump? || w.applier.FinalizeRow?)
    ensures Inv(ApplierStep(w))
  {
    var w' := ApplierStep(w);
    assert w'.stage == w.stage && w'.stagers == w.stagers == map[];
  }

  lemma ApplierRemovalsInv(w: World)
    requires Inv(w) && (w.applier.RemoveLock? || w.applier.RemoveMarker? || w.applier.RemoveDump?)
    ensures Inv(ApplierStep(w))
  {
    ApplierRemovalOthers(w);
    ApplierRemovalTokens(w);
    ApplierRemovalMarkers(w);
  }

  lemma ApplierRemovalOthers(w: World)
    requires w.stagers == map[] && MarkersOwned(w) && LostSound(w)
    requires w.applier.RemoveLock? || w.applier.RemoveMarker? || w.applier.RemoveDump?
    ensures MarkersOwned(ApplierStep(w)) && StagersSound(ApplierStep(w))
  {
  }

  lemma ApplierRemovalTokens(w: World)
    requires TokensUsed(w) && (w.applier.RemoveLock? || w.applier.RemoveMarker? || w.applier.RemoveDump?)
    ensures TokensUsed(ApplierStep(w))
  {
  }

  lemma ApplierRemovalMarkers(w: World)
    requires MarkersSound(w) && ApplierSound(w)
      && (w.applier.RemoveLock? || w.applier.RemoveMarker? || w.applier.RemoveDump?)
    ensures MarkersSound(ApplierStep(w))
  {
  }

  /** Every operation of every process, and every way it can fail or die, keeps the invariant. */
  lemma StepInv(w: World, step: Step)
    requires Inv(w) && Enabled(w, step)
    ensures Inv(Do(w, step))
  {
    match step {
      case Advance(t) => StagerStepInv(w, t);
      case Fail(t) => FailInv(w, t);
      case LoseMarker(t) => LoseMarkerInv(w, t);
      case Kill(t) => LeaveInv(w, t);
      case Spawn(t, b, r) => SpawnInv(w, t, b, r);
      case BackupSeal(b, size, sum) => BackupSealInv(w, b, size, sum);
      case ApplierStart => ApplierStartInv(w);
      case ApplierAdvance =>
        if w.applier.RenamePending? || w.applier.RenameApplying? { ApplierRenamesInv(w); }
        else if w.applier.RestoreDump? || w.applier.FinalizeRow? { ApplierDatabaseInv(w); }
        else { ApplierRemovalsInv(w); }
      case ApplierCrash =>
      case _ => BackupRowInv(w, step);
    }
  }

  lemma {:induction false} RunInv(w: World, steps: seq<Step>)
    requires Inv(w) && Legal(w, steps)
    ensures Inv(Exec(w, steps))
    decreases |steps|
  {
    if steps != [] {
      StepInv(w, steps[0]);
      RunInv(Do(w, steps[0]), steps[1..]);
    }
  }

  // ---------------------------------------------------------------- staging is safe

  /**
   * Over every interleaving of stagers, backups, kills, failures and applier crashes: at most one
   * marker exists; an applying one has the lock that names it and its complete dump, and an applied
   * one still has its dump. A pending one has both exactly unless it was lost: its own rollback took
   * away dump or lock after it failed to remove the marker.
   */
  lemma StagingIsSafe(w0: World, steps: seq<Step>)
    requires Init(w0) && Legal(w0, steps)
    ensures var w := Exec(w0, steps); var s := w.stage;
      && MarkerCount(s) <= 1
      && (s.pending.Some? ==> (PendingBacked(s) <==> s.pending.value.token !in w.lost))
      && (PendingBacked(s) ==> s.dumps[DumpKey(s.pending.value)].WholeDump?)
      && (s.applying.Some? ==>
            s.lock == Some(Holding(s.applying.value.token)) && DumpKey(s.applying.value) in s.dumps
            && s.dumps[DumpKey(s.applying.value)].WholeDump?)
      && (s.applied.Some? ==> DumpKey(s.applied.value) in s.dumps && s.dumps[DumpKey(s.applied.value)].WholeDump?)
  {
    InitInv(w0);
    RunInv(w0, steps);
  }

  /** A stager that finds the lock taken changes nothing and is gone. */
  lemma LoserTouchesNothing(w: World, t: Id)
    requires Enabled(w, Advance(t)) && w.stagers[t].pc == OpenLock && w.stage.lock.Some?
    ensures StagerStep(w, t).stage == w.stage && t !in StagerStep(w, t).stagers
  {
  }

  /** Whatever a stager does, it touches only dumps that carry its own token, … */
  lemma StagerDumpFrame(w: World, t: Id, k: (Id, Id))
    requires Enabled(w, Advance(t)) && k.1 != t
    ensures var s, s' := w.stage, StagerStep(w, t).stage;
      (k in s.dumps <==> k in s'.dumps) && (k in s.dumps ==> s'.dumps[k] == s.dumps[k])
  {
  }

  /** … temporary files that carry it, … */
  lemma StagerTempFrame(w: World, t: Id, u: Id)
    requires Enabled(w, Advance(t)) && u != t
    ensures var s, s' := w.stage, StagerStep(w, t).stage;
      (u in s.temps <==> u in s'.temps) && (u in s.temps ==> s'.temps[u] == s.temps[u])
  {
  }

  lemma OtherFrame(w: World, t: Id)
    requires t in w.stagers && w.stagers[t].backupId in w.artifacts && w.stagers[t].pc != RenameTemp
    ensures var s, s' := w.stage, StagerStep(w, t).stage;
      s'.pending == s.pending || (s.pending.Some? && s'.pending.None? && s.pending.value.token == t)
  {
  }

  lemma RenameFrame(w: World, t: Id)
    requires Inv(w) && Enabled(w, Advance(t)) && w.stagers[t].pc == RenameTemp
    ensures w.stage.pending.None? && StagerStep(w, t).stage.pending.Some?
      && StagerStep(w, t).stage.pending.value.token == t
  {
    assert StagerSound(w, t);
  }

  lemma StagerLockFrame(w: World, t: Id)
    requires t in w.stagers && w.stagers[t].backupId in w.artifacts
      && (w.stagers[t].pc == WriteLock ==> w.stage.lock == Some(EmptyLock))
    ensures var s, s' := w.stage, StagerStep(w, t).stage;
      && s'.applying == s.applying && s'.applied == s.applied
      && (s.lock.Some? && s.lock.value.Holding? && s.lock.value.token != t ==> s'.lock == s.lock)
  {
  }

  /** … a pending marker that names it, and a lock no other token is written in. */
  lemma StagerMarkerFrame(w: World, t: Id)
    requires Inv(w) && Enabled(w, Advance(t))
    ensures var s, s' := w.stage, StagerStep(w, t).stage;
      && s'.applying == s.applying && s'.applied == s.applied
      && (s'.pending == s.pending
          || (s.pending.None? && s'.pending.value.token == t)
          || (s'.pending.None? && s.pending.value.token == t))
      && (s.lock.Some? && s.lock.value.Holding? && s.lock.value.token != t ==> s'.lock == s.lock)
  {
    assert StagerSound(w, t);
    StagerLockFrame(w, t);
    if w.stagers[t].pc == RenameTemp { RenameFrame(w, t); } else { OtherFrame(w, t); }
  }

  lemma ExecCons(w: World, step: Step, rest: seq<Step>)
    requires Enabled(w, step) && Legal(Do(w, step), rest)
    ensures Legal(w, [step] + rest) && Exec(w, [step] + rest) == Exec(Do(w, step), rest)
  {
    assert ([step] + rest)[1..] == rest;
  }

  /** What is left of a rollback once its marker has been dealt with. */
  lemma RollbackTail(w: World, t: Id)
    requires Enabled(w, Advance(t)) && w.stagers[t].pc == UndoTemp && w.stagers[t].dumpCreated && LockNames(w.stage, t)
    ensures var tail := [Advance(t)] + ([Advance(t)] + ([Advance(t)] + []));
      && Legal(w, tail)
      && Exec(w, tail).stage ==
           w.stage.(temps := w.stage.temps - {t}, dumps := w.stage.dumps - {(w.stagers[t].backupId, t)}, lock := None)
  {
    var w1 := StagerStep(w, t);
    var w2 := StagerStep(w1, t);
    ExecCons(w2, Advance(t), []);
    ExecCons(w1, Advance(t), [Advance(t)] + []);
    ExecCons(w, Advance(t), [Advance(t)] + ([Advance(t)] + []));
  }

  /**
   * A rollback that goes on. A stager that must take back its published marker leaves the staging area
   * sound if it removes the marker, and leaves a marker without lock or dump if that one removal
   * fails, because the failure is swallowed and the rollback goes on.
   */
  lemma FaultFreeRollbackIff(w: World, t: Id, removed: bool)
    requires Inv(w) && Enabled(w, Advance(t))
    requires w.stagers[t].pc == UndoMarker && w.stagers[t].markerPublished
    ensures
      var first := if removed then Advance(t) else LoseMarker(t);
      var steps := [first] + ([Advance(t)] + ([Advance(t)] + ([Advance(t)] + [])));
      && Legal(w, steps)
      && (removed <==>
            var s := Exec(w, steps).stage;
            s.pending.Some? ==> s.lock == Some(Holding(s.pending.value.token)) && DumpKey(s.pending.value) in s.dumps)
  {
    assert StagerSound(w, t);
    var first := if removed then Advance(t) else LoseMarker(t);
    var w1 := Do(w, first);
    assert w1.stage.pending == if removed then None else Some(OwnMarker(w, t));
    RollbackTail(w1, t);
    ExecCons(w, first, [Advance(t)] + ([Advance(t)] + ([Advance(t)] + [])));
  }

  /** The operation that strands a pending marker: its stager removes the dump, or the lock it holds. */
  predicate Strands(w: World, step: Step, t: Id)
  {
    && step == Advance(t) && t in w.stagers
    && ((w.stagers[t].pc == UndoDump && w.stagers[t].dumpCreated)
        || (w.stagers[t].pc == UndoLock && LockNames(w.stage, t)))
    && w.stage.pending.Some? && w.stage.pending.value.token == t
  }

  predicate StrandedDuring(w: World, steps: seq<Step>, t: Id)
    requires Legal(w, steps)
    decreases |steps|
  {
    steps != [] && (Strands(w, steps[0], t) || StrandedDuring(Do(w, steps[0]), steps[1..], t))
  }

  lemma LostStep(w: World, step: Step, t: Id)
    requires Enabled(w, step)
    ensures t in Do(w, step).lost <==> t in w.lost || Strands(w, step, t)
  {
    if step.Advance? { LostAdvance(w, step.token, t); }
    if step.ApplierStart? || step.ApplierAdvance? { LostApply(w, step, t); }
  }

  lemma LostAdvance(w: World, u: Id, t: Id)
    requires Enabled(w, Advance(u))
    ensures t in StagerStep(w, u).lost <==> t in w.lost || Strands(w, Advance(u), t)
  {
  }

  lemma LostApply(w: World, step: Step, t: Id)
    requires Enabled(w, step) && (step.ApplierStart? || step.ApplierAdvance?)
    ensures Do(w, step).lost == w.lost && !Strands(w, step, t)
  {
  }

  lemma {:induction false} LostDuring(w: World, steps: seq<Step>, t: Id)
    requires Legal(w, steps)
    ensures t in Exec(w, steps).lost <==> t in w.lost || StrandedDuring(w, steps, t)
    decreases |steps|
  {
    if steps != [] {
      LostStep(w, steps[0], t);
      LostDuring(Do(w, steps[0]), steps[1..], t);
    }
  }

  /**
   * The exception, over every continuation with its kills and failures: a marker that is still pending has its lock
   * and its dump exactly if its stager has since removed neither.
   */
  lemma RollbackSoundIff(w: World, t: Id, steps: seq<Step>)
    requires Inv(w) && Legal(w, steps) && t !in w.lost
    requires Exec(w, steps).stage.pending.Some? && Exec(w, steps).stage.pending.value.token == t
    ensures PendingBacked(Exec(w, steps).stage) <==> !StrandedDuring(w, steps, t)
  {
    RunInv(w, steps);
    LostDuring(w, steps, t);
  }

  // ---- the exception is reachable

  ghost predicate Reachable(w: World)
  {
    exists w0, steps :: Init(w0) && Legal(w0, steps) && Exec(w0, steps) == w
  }

  lemma {:induction false} ExecSnoc(w: World, steps: seq<Step>, step: Step)
    requires Legal(w, steps) && Enabled(Exec(w, steps), step)
    ensures Legal(w, steps + [step]) && Exec(w, steps + [step]) == Do(Exec(w, steps), step)
    decreases |steps|
  {
    if steps == [] {
      assert [] + [step] == [step] && [step][1..] == [];
    } else {
      assert (steps + [step])[1..] == steps[1..] + [step];
      ExecSnoc(Do(w, steps[0]), steps[1..], step);
    }
  }

  lemma ReachableStep(w: World, step: Step)
    requires Reachable(w) && Enabled(w, step)
    ensures Reachable(Do(w, step))
  {
    var w0, steps :| Init(w0) && Legal(w0, steps) && Exec(w0, steps) == w;
    ExecSnoc(w0, steps, step);
  }

  lemma ReachableAdvance(w: World, t: Id)
    requires Reachable(w) && Stopped(w.applier) && t in w.stagers && w.stagers[t].backupId in w.artifacts
    ensures Reachable(StagerStep(w, t))
  {
    ReachableStep(w, Advance(t));
  }

  lemma ReachableApply(w: World)
    requires Reachable(w) && !Stopped(w.applier)
    ensures Reachable(ApplierStep(w))
  {
    ReachableStep(w, ApplierAdvance);
  }

  const EMPTY_STAGE := Stage(None, None, None, None, map[], map[])

  /** A world that has one backup and nothing under way. */
  predicate OneBackup(w: World, b: Id)
  {
    && w.stage == EMPTY_STAGE && w.stagers == map[] && w.creators == map[] && w.used == {b} && w.lost == {}
    && w.applier == Off
    && b in w.artifacts && w.artifacts[b].snapshot.backups == map[b := BackupRow(Running, None, None)]
    && w.db.backups == map[b := BackupRow(Succeeded, Some(w.artifacts[b].sizeBytes), Some(w.artifacts[b].checksum))]
  }

  lemma BackupReachable(b: Id) returns (w: World)
    ensures Reachable(w) && OneBackup(w, b)
  {
    w := World(Database(map[], ""), map[], map[], EMPTY_STAGE, map[], {}, {}, Off);
    assert Legal(w, []) && Exec(w, []) == w;
    assert Reachable(w);
    ReachableStep(w, BackupBegin(b));
    w := Do(w, BackupBegin(b));
    ReachableStep(w, BackupDump(b));
    w := Do(w, BackupDump(b));
    ReachableStep(w, BackupSeal(b, 1, ""));
    w := Do(w, BackupSeal(b, 1, ""));
    ReachableStep(w, BackupStop(b, true));
    w := Do(w, BackupStop(b, true));
  }

  /** The staging area while stager `t` has published and not yet reported. */
  predicate JustPublished(w: World, b: Id, t: Id)
  {
    && OneBackup(w.(stage := EMPTY_STAGE, stagers := map[], used := {b}), b) && w.used == {b, t}
    && w.stagers == map[t := Stager(ReportStaged, b, 0, true, true)]
    && w.stage == Stage(Some(Holding(t)), Some(OwnMarker(w, t)), None, None,
                        map[(b, t) := WholeDump(w.artifacts[b].snapshot)], map[])
  }

  lemma PublishedReachable(b: Id, t: Id) returns (w: World)
    requires b != t
    ensures Reachable(w) && JustPublished(w, b, t)
  {
    var w0 := BackupReachable(b);
    ReachableStep(w0, Spawn(t, b, 0));
    var w1 := LockAndDump(Do(w0, Spawn(t, b, 0)), b, t);
    w := WriteAndRename(w1, b, t);
  }

  lemma LockAndDump(w0: World, b: Id, t: Id) returns (w: World)
    requires Reachable(w0) && w0.applier == Off && b in w0.artifacts && w0.stage == EMPTY_STAGE
    requires w0.stagers == map[t := Stager(OpenLock, b, 0, false, false)]
    ensures Reachable(w) && w == w0.(stage := w.stage, stagers := w.stagers)
    ensures w.stagers == map[t := Stager(RecordRestore, b, 0, true, false)]
    ensures w.stage == Stage(Some(Holding(t)), None, None, None, map[(b, t) := WholeDump(w.artifacts[b].snapshot)],
                             map[])
  {
    w := w0;
    for i := 0 to 5
      invariant Reachable(w) && w == w0.(stage := w.stage, stagers := w.stagers)
      invariant w.stagers == map[t := [Stager(OpenLock, b, 0, false, false), Stager(WriteLock, b, 0, false, false),
                                       Stager(CheckMarkers, b, 0, false, false), Stager(OpenDump, b, 0, false, false),
                                       Stager(CopyDump, b, 0, true, false),
                                         Stager(RecordRestore, b, 0, true, false)][i]]
      invariant w.stage == EMPTY_STAGE.(lock := if i == 0 then None else if i == 1 then Some(EmptyLock)
                                        else Some(Holding(t)),
                                        dumps := if i < 4 then map[] else
                                          map[(b, t) := if i == 4 then PartialDump
                                              else WholeDump(w.artifacts[b].snapshot)])
    {
      ReachableAdvance(w, t);
      w := StagerStep(w, t);
    }
  }

  lemma WriteAndRename(w0: World, b: Id, t: Id) returns (w: World)
    requires Reachable(w0) && w0.applier == Off && b in w0.artifacts
    requires w0.stagers == map[t := Stager(RecordRestore, b, 0, true, false)]
    requires w0.stage.pending == None && w0.stage.temps == map[]
    ensures Reachable(w) && w == w0.(stage := w.stage, stagers := w.stagers)
    ensures w.stagers == map[t := Stager(ReportStaged, b, 0, true, true)]
    ensures w.stage == w0.stage.(pending := Some(OwnMarker(w, t)))
  {
    w := WriteOnly(w0, b, t);
    ReachableAdvance(w, t);
    w := StagerStep(w, t);
    assert w.stage.temps == map[];
  }

  lemma WriteOnly(w0: World, b: Id, t: Id) returns (w: World)
    requires Reachable(w0) && w0.applier == Off && b in w0.artifacts
    requires w0.stagers == map[t := Stager(RecordRestore, b, 0, true, false)] && w0.stage.temps == map[]
    ensures Reachable(w) && w == w0.(stage := w.stage, stagers := w.stagers)
    ensures w.stagers == map[t := Stager(RenameTemp, b, 0, true, false)]
    ensures w.stage == w0.stage.(temps := map[t := WholeTemp(OwnMarker(w, t))])
  {
    w := w0;
    ReachableAdvance(w, t);
    w := StagerStep(w, t);
    assert w.stagers == map[t := Stager(OpenTemp, b, 0, true, false)];
    ReachableAdvance(w, t);
    w := StagerStep(w, t);
    assert w.stagers == map[t := Stager(WriteTemp, b, 0, true, false)];
    ReachableAdvance(w, t);
    w := StagerStep(w, t);
  }

  /** A staged restore whose record cannot be updated, and whose marker then cannot be removed, leaves it stranded. */
  lemma StrandedMarkerReachable(b: Id, t: Id) returns (w: World)
    requires b != t
    ensures Reachable(w) && w.stagers == map[] && w.stage.pending.Some? && w.stage.lock == None
      && w.stage.dumps == map[]
  {
    w := LostMarkerReachable(b, t);
    ReachableAdvance(w, t);
    w := StagerStep(w, t);
    assert w.stage.dumps == map[] && w.stagers[t].pc == UndoLock && LockNames(w.stage, t);
    ReachableAdvance(w, t);
    w := StagerStep(w, t);
  }

  /** The rollback of a published stage that has just failed to remove its marker. */
  lemma LostMarkerReachable(b: Id, t: Id) returns (w: World)
    requires b != t
    ensures Reachable(w) && w.stagers == map[t := Stager(UndoDump, b, 0, true, true)] && b in w.artifacts
    ensures w.applier == Off && w.stage.pending.Some? && LockNames(w.stage, t) && w.stage.dumps.Keys == {(b, t)}
  {
    w := PublishedReachable(b, t);
    ReachableStep(w, Fail(t));
    w := StagerFailure(w, t);
    assert w.stagers == map[t := Stager(UndoMarker, b, 0, true, true)];
    ReachableStep(w, LoseMarker(t));
    w := MoveTo(w, t, UndoTemp);
    ReachableAdvance(w, t);
    w := StagerStep(w, t);
  }

  // ---------------------------------------------------------------- the applier is crash-idempotent

  predicate ApplierOnly(steps: seq<Step>)
  {
    forall i :: 0 <= i < |steps| ==> steps[i].ApplierStart? || steps[i].ApplierAdvance? || steps[i].ApplierCrash?
  }

  /** Where a recovery of marker `m` can be, between any two operations and after any crash. */
  ghost predicate Recovering(w: World, m: Marker)
  {
    && w.stagers == map[] && w.creators == map[] && Published(w, m)
    && w.artifacts[m.backupId].snapshot.backups.Keys >= {m.backupId}
    && w.artifacts[m.backupId].snapshot.backups[m.backupId].status == Running
    && var s, snapshot, idle := w.stage, w.artifacts[m.backupId].snapshot, w.applier == Off
    || w.applier == Finished(false);
       || (&& s.pending == Some(m) && MarkerCount(s) == 1 && LockNames(s, m.token) && Backed(w, m)
           && (idle || w.applier == RenamePending(m)))
       || (&& s.applying == Some(m) && MarkerCount(s) == 1 && LockNames(s, m.token) && Backed(w, m)
           && (idle || w.applier == RestoreDump(m)
               || (w.applier == FinalizeRow(m) && w.db == snapshot)
               || (w.applier == RenameApplying(m) && w.db == Restored(snapshot, m))))
       || (&& s.applied == Some(m) && MarkerCount(s) == 1 && Backed(w, m) && w.db == Restored(snapshot, m)
           && (s.lock == None || LockNames(s, m.token))
           && (idle || (w.applier == RemoveLock(m) && s.lock.Some?)
               || (w.applier == RemoveMarker(m) && s.lock == None)))
       || (&& MarkerCount(s) == 0 && s.lock == None && w.db == Restored(snapshot, m)
           && (idle || w.applier == RemoveDump(m) || (w.applier == Finished(true) && DumpKey(m) !in s.dumps)))
  }

  lemma RecoveringStep(w: World, step: Step, m: Marker)
    requires Recovering(w, m) && Enabled(w, step)
    requires step.ApplierStart? || step.ApplierAdvance? || step.ApplierCrash?
    ensures Recovering(Do(w, step), m) && Do(w, step).artifacts == w.artifacts
  {
  }

  lemma {:induction false} RecoveringRun(w: World, steps: seq<Step>, m: Marker)
    requires Recovering(w, m) && Legal(w, steps) && ApplierOnly(steps)
    ensures Recovering(Exec(w, steps), m) && Exec(w, steps).artifacts == w.artifacts
    decreases |steps|
  {
    if steps != [] {
      RecoveringStep(w, steps[0], m);
      RecoveringRun(Do(w, steps[0]), steps[1..], m);
    }
  }

  /**
   * From any reachable staging state, however often and wherever the applier crashes and is started
   * again: it never refuses, and once a run has completed the database is exactly the staged snapshot
   * with its own backup row turned from `running` to `succeeded`, and marker, lock and dump are gone.
   */
  lemma RestoreIsCrashIdempotent(w: World, steps: seq<Step>, m: Marker)
    requires Inv(w) && w.applier == Off && w.stagers == map[] && w.creators == map[]
    requires (w.stage.pending == Some(m) && PendingBacked(w.stage)) || w.stage.applying == Some(m)
    requires Legal(w, steps) && ApplierOnly(steps)
    ensures Exec(w, steps).applier != Refused
    ensures m.backupId in w.artifacts
    ensures Exec(w, steps).applier == Finished(true) || MarkerCount(Exec(w, steps).stage) == 0 ==>
      var snapshot := w.artifacts[m.backupId].snapshot;
      && m.backupId in snapshot.backups && snapshot.backups[m.backupId].status == Running
      && Exec(w, steps).db == snapshot.(backups :=
                                        snapshot.backups[m.backupId :=
                                                         BackupRow(Succeeded, Some(m.sizeBytes), Some(m.checksum))])
      && Exec(w, steps).stage.lock == None && MarkerCount(Exec(w, steps).stage) == 0
    ensures Exec(w, steps).applier == Finished(true) ==> DumpKey(m) !in Exec(w, steps).stage.dumps
  {
    assert Recovering(w, m);
    RecoveringRun(w, steps, m);
  }

  /** While restore.applied exists no operation of any applier run writes to the database. */
  lemma AppliedIsNeverReplayed(w: World, step: Step)
    requires Inv(w) && w.stage.applied.Some? && Enabled(w, step)
    requires step.ApplierStart? || step.ApplierAdvance? || step.ApplierCrash?
    ensures Do(w, step).db == w.db
  {
  }

  /** At most `n` further operations of a running applier. */
  function ApplierRun(w: World, n: nat): World
    decreases n
  {
    if n == 0 || Stopped(w.applier) then w else ApplierRun(ApplierStep(w), n - 1)
  }

  /** A fault-free run: the checks, then every operation. */
  function CompleteRun(w: World): World
  {
    ApplierRun(ApplierStep(w.(applier := Off)), 7)
  }

  /** What an operator can look at before starting a run. */
  predicate Resumable(s: Stage)
  {
    || (s.pending.Some? && LockNames(s, s.pending.value.token) && DumpKey(s.pending.value) in s.dumps)
    || (s.applying.Some? && LockNames(s, s.applying.value.token) && DumpKey(s.applying.value) in s.dumps)
    || (s.applied.Some? && (s.lock == None || LockNames(s, s.applied.value.token))
        && DumpKey(s.applied.value) in s.dumps)
  }

  lemma RunFromRemoveMarker(w: World, m: Marker, n: nat)
    requires n >= 2 && w.applier == RemoveMarker(m)
    ensures ApplierRun(w, n).applier == Finished(true)
  {
    var w1 := ApplierStep(w);
    assert ApplierRun(w, n) == ApplierRun(w1, n - 1);
    assert ApplierRun(w1, n - 1) == ApplierRun(ApplierStep(w1), n - 2);
  }

  lemma RunFromRename(w: World, m: Marker, n: nat)
    requires n >= 4 && w.applier == RenameApplying(m)
    ensures ApplierRun(w, n).applier == Finished(true)
  {
    var w1 := ApplierStep(w);
    assert ApplierRun(w, n) == ApplierRun(w1, n - 1);
    if w1.applier.RemoveLock? {
      assert ApplierRun(w1, n - 1) == ApplierRun(ApplierStep(w1), n - 2);
      RunFromRemoveMarker(ApplierStep(w1), m, n - 2);
    } else {
      RunFromRemoveMarker(w1, m, n - 1);
    }
  }

  lemma RunFromRestore(w: World, m: Marker, n: nat)
    requires n >= 6 && w.applier == RestoreDump(m) && Backed(w, m) && ArtifactsSound(w)
    ensures ApplierRun(w, n).applier == Finished(true)
  {
    var w1 := ApplierStep(w);
    assert ApplierRun(w, n) == ApplierRun(w1, n - 1);
    assert w1.applier == FinalizeRow(m);
    var w2 := ApplierStep(w1);
    assert ApplierRun(w1, n - 1) == ApplierRun(w2, n - 2);
    RunFromRename(w2, m, n - 2);
  }

  /** A fault-free run completes exactly from the resumable states. */
  lemma RunCompletesIff(w: World)
    requires Inv(w) && Stopped(w.applier) && w.stagers == map[] && w.creators == map[]
    ensures CompleteRun(w).applier == Finished(true) <==> Resumable(w.stage)
  {
    var w1 := ApplierStep(w.(applier := Off));
    if w1.applier.RenamePending? {
      var m := w1.applier.m;
      assert Backed(w1, m);
      var w2 := ApplierStep(w1);
      assert ApplierRun(w1, 7) == ApplierRun(w2, 6);
      RunFromRestore(w2, m, 6);
    } else if w1.applier.RestoreDump? {
      RunFromRestore(w1, w1.applier.m, 7);
    } else if w1.applier.RemoveLock? {
      var m := w1.applier.m;
      assert ApplierRun(w1, 7) == ApplierRun(ApplierStep(w1), 6);
      RunFromRemoveMarker(ApplierStep(w1), m, 6);
    } else if w1.applier.RemoveMarker? {
      RunFromRemoveMarker(w1, w1.applier.m, 7);
    }
  }

  /** Staging never blocks a recovery that has not yet restored: unless its marker was lost, it completes. */
  lemma UnappliedAlwaysResumable(w: World)
    requires Inv(w)
    requires (w.stage.pending.Some? && w.stage.pending.value.token !in w.lost) || w.stage.applying.Some?
    ensures Resumable(w.stage)
  {
  }

  /**
   * A finished restore can be blocked, though: the applier dies after removing the lock, the control
   * plane comes back, and a new stager is killed right after it took the free lock. Every later
   * applier run then refuses, with restore.applied and the dump still there.
   */
  lemma ForeignLockBlocksCleanUp(w: World, t: Id, b: Id, r: Id)
    requires w.applier == Off && w.stage.applied.Some? && w.stage.lock == None
    requires t !in w.stagers && w.stage.applied.value.token != t && MarkerCount(w.stage) == 1
    requires Enabled(w, Spawn(t, b, r))
    ensures var steps := [Spawn(t, b, r)] + ([Advance(t)] + ([Advance(t)] + ([Kill(t)] + [])));
      && Legal(w, steps)
      && Exec(w, steps).stage == w.stage.(lock := Some(Holding(t)))
      && Inspect(Exec(w, steps).stage) == Refused
  {
    var w1 := Do(w, Spawn(t, b, r));
    var w2 := StagerStep(w1, t);
    var w3 := StagerStep(w2, t);
    ExecCons(w3, Kill(t), []);
    ExecCons(w2, Advance(t), [Kill(t)] + []);
    ExecCons(w1, Advance(t), [Advance(t)] + ([Kill(t)] + []));
    ExecCons(w, Spawn(t, b, r), [Advance(t)] + ([Advance(t)] + ([Kill(t)] + [])));
  }

  /** An applier that dies after it removed the lock. */
  lemma UnlockedReachable(b: Id, t: Id) returns (w: World)
    requires b != t
    ensures Reachable(w) && w.applier == Off && w.stagers == map[] && w.creators == map[] && w.used == {b, t}
    ensures w.stage.applied.Some? && w.stage.applied.value.token == t && w.stage.lock == None
      && MarkerCount(w.stage) == 1
    ensures b in w.artifacts && b in w.db.backups && w.db.backups[b].status == Succeeded
  {
    w := PublishedReachable(b, t);
    ReachableAdvance(w, t);
    w := StagerStep(w, t);
    ReachableStep(w, ApplierStart);
    w := Do(w, ApplierStart);
    w := ApplyUntilUnlocked(w, b);
    ReachableStep(w, ApplierCrash);
    w := Do(w, ApplierCrash);
  }

  lemma ApplyUntilUnlocked(w0: World, b: Id) returns (w: World)
    requires Reachable(w0) && w0.applier.RenamePending? && w0.applier.m.version == 2 && w0.applier.m.backupId == b
    requires w0.stage.pending == Some(w0.applier.m) && w0.stage.applying == None && w0.stage.applied == None
      && w0.stage.lock.Some?
    requires DumpKey(w0.applier.m) in w0.stage.dumps && w0.stage.dumps[DumpKey(w0.applier.m)].WholeDump?
    requires w0.stage.dumps[DumpKey(w0.applier.m)].snapshot.backups == map[b := BackupRow(Running, None, None)]
    ensures Reachable(w) && w == w0.(stage := w.stage, db := w.db, applier := RemoveMarker(w0.applier.m))
    ensures w.stage == w0.stage.(pending := None, applied := Some(w0.applier.m), lock := None)
    ensures b in w.db.backups && w.db.backups[b].status == Succeeded
  {
    w := ApplyDatabase(w0, b);
    ReachableApply(w);
    w := ApplierStep(w);
    ReachableApply(w);
    w := ApplierStep(w);
  }

  lemma ApplyDatabase(w0: World, b: Id) returns (w: World)
    requires Reachable(w0) && w0.applier.RenamePending? && w0.applier.m.version == 2 && w0.applier.m.backupId == b
    requires w0.stage.applying == None
    requires DumpKey(w0.applier.m) in w0.stage.dumps && w0.stage.dumps[DumpKey(w0.applier.m)].WholeDump?
    requires w0.stage.dumps[DumpKey(w0.applier.m)].snapshot.backups == map[b := BackupRow(Running, None, None)]
    ensures Reachable(w) && w == w0.(stage := w.stage, db := w.db, applier := RenameApplying(w0.applier.m))
    ensures w.stage == w0.stage.(pending := None, applying := Some(w0.applier.m))
    ensures b in w.db.backups && w.db.backups[b].status == Succeeded
  {
    var m := w0.applier.m;
    w := w0;
    ReachableApply(w);
    w := ApplierStep(w);
    ReachableApply(w);
    w := ApplierStep(w);
    assert w.applier == FinalizeRow(m) && w.db.backups == map[b := BackupRow(Running, None, None)];
    ReachableApply(w);
    w := ApplierStep(w);
  }

  /** So a restore can be staged and applied, and its clean-up then refused. */
  lemma BlockedCleanUpReachable(b: Id, t: Id, u: Id) returns (w: World)
    requires b != t && u != b && u != t
    ensures Reachable(w) && w.stagers == map[] && w.applier == Off && w.stage.applied.Some?
      && Inspect(w.stage) == Refused
  {
    w := UnlockedReachable(b, t);
    ForeignLockBlocksCleanUp(w, u, b, 0);
    ReachableStep(w, Spawn(u, b, 0));
    w := Do(w, Spawn(u, b, 0));
    ReachableStep(w, Advance(u));
    w := Do(w, Advance(u));
    ReachableStep(w, Advance(u));
    w := Do(w, Advance(u));
    ReachableStep(w, Kill(u));
    w := Do(w, Kill(u));
  }

  // ---------------------------------------------------------------- the two programs on the files

  /** Stager `t` alone: the operations whose places are in `failing` throw, the others succeed. */
  function Attempt(w: World, t: Id, failing: set<StagerPc>): World
    requires t in w.stagers && w.stagers[t].backupId in w.artifacts && Stopped(w.applier)
  {
    var pc := w.stagers[t].pc;
    if pc !in failing then StagerStep(w, t)
    else if pc == UndoMarker then Do(w, LoseMarker(t))
    else StagerFailure(w, t)
  }

  function Rank(pc: StagerPc): nat
  {
    match pc
    case OpenLock => 13 case WriteLock => 12 case CheckMarkers => 11 case OpenDump => 10 case CopyDump => 9
    case RecordRestore => 8 case OpenTemp => 7 case WriteTemp => 6 case RenameTemp => 5 case ReportStaged => 4
    case UndoMarker => 3 case UndoTemp => 2 case UndoDump => 1 case UndoLock => 0
  }

  predicate Progressed(w: World, w': World, t: Id)
    requires t in w.stagers
  {
    && w'.artifacts == w.artifacts && w'.applier == w.applier
    && (t in w'.stagers ==>
        Rank(w'.stagers[t].pc) < Rank(w.stagers[t].pc) && w'.stagers[t].backupId == w.stagers[t].backupId)
  }

  lemma StepProgress(w: World, t: Id)
    requires t in w.stagers && w.stagers[t].backupId in w.artifacts
    ensures Progressed(w, StagerStep(w, t), t)
  {
    if Undoing(w.stagers[t].pc) { UndoProgress(w, t); }
  }

  lemma UndoProgress(w: World, t: Id)
    requires t in w.stagers && w.stagers[t].backupId in w.artifacts && Undoing(w.stagers[t].pc)
    ensures Progressed(w, StagerStep(w, t), t)
  {
  }

  lemma AttemptProgress(w: World, t: Id, failing: set<StagerPc>)
    requires t in w.stagers && w.stagers[t].backupId in w.artifacts && Stopped(w.applier)
    ensures Progressed(w, Attempt(w, t, failing), t)
  {
    if w.stagers[t].pc !in failing { StepProgress(w, t); }
  }

  /** Stager `t` alone, until it is gone. */
  function AttemptAll(w: World, t: Id, failing: set<StagerPc>): World
    requires t in w.stagers ==> w.stagers[t].backupId in w.artifacts && Stopped(w.applier)
    decreases if t in w.stagers then Rank(w.stagers[t].pc) + 1 else 0
  {
    if t !in w.stagers then w
    else
      AttemptProgress(w, t, failing);
      AttemptAll(Attempt(w, t, failing), t, failing)
  }

  /** One attempt, and then the rest. */
  lemma AttemptFirst(w: World, t: Id, failing: set<StagerPc>)
    requires t in w.stagers && w.stagers[t].backupId in w.artifacts && Stopped(w.applier)
    ensures Progressed(w, Attempt(w, t, failing), t)
    ensures AttemptAll(w, t, failing) == AttemptAll(Attempt(w, t, failing), t, failing)
  {
    AttemptProgress(w, t, failing);
  }

  lemma LastStep(w: World, n: nat)
    requires n > 0 && !Stopped(w.applier) && Stopped(ApplierStep(w).applier)
    ensures ApplierRun(w, n) == ApplierStep(w)
  {
    assert ApplierRun(ApplierStep(w), n - 1) == ApplierStep(w);
  }

  /** The staging directory and the database, as the programs change them. */
  class RecoveryHost {
    var lock: Option<LockFile>
    var pending: Option<Marker>
    var applying: Option<Marker>
    var applied: Option<Marker>
    var dumps: map<(Id, Id), DumpFile>
    var temps: map<Id, TempFile>
    var db: Database

    ghost function Files(): Stage
      reads this
    {
      Stage(lock, pending, applying, applied, dumps, temps)
    }

    /** What an applier started on these files faces. */
    ghost function AsWorld(): World
      reads this
    {
      World(db, map[], map[], Files(), map[], {}, {}, Off)
    }

    /**
     * One applier run that dies after `budget` operations. It follows the step machine exactly, so
     * what is proved of crashing runs is proved of this program.
     */
    method ApplyStagedSystemRestore(budget: nat) returns (end: Applier)
      modifies this
      ensures var w := ApplierRun(ApplierStep(old(AsWorld())), budget);
        Files() == w.stage && db == w.db && end == w.applier
    {
      ghost var w0 := ApplierStep(AsWorld());
      ghost var w := w0;
      end := Inspect(Stage(lock, pending, applying, applied, dumps, temps));
      var left := budget;
      var lockSeen := lock.Some?;
      if Stopped(end) { return; }
      var m := end.m;
      if !end.RemoveLock? && !end.RemoveMarker? {
        if end.RenamePending? {
          if left == 0 { return; }
          pending, applying := None, Some(m);
          left, end := left - 1, RestoreDump(m);
          w := ApplierStep(w);
          assert ApplierRun(w0, budget) == ApplierRun(w, left);
        }
        end, left, w := Replay(m, left, w);
        assert ApplierRun(w0, budget) == ApplierRun(w, left);
        if !end.RenameApplying? { return; }
        if left == 0 { return; }
        applying, applied := None, Some(m);
        left, end := left - 1, if lockSeen then RemoveLock(m) else RemoveMarker(m);
        w := ApplierStep(w);
        assert ApplierRun(w0, budget) == ApplierRun(w, left);
      }
      end := CleanUp(m, lockSeen, left, w);
    }

    /** pg_restore, and for a version 2 marker the update of the backup's own row. */
    method Replay(m: Marker, budget: nat, ghost w0: World) returns (end: Applier, left: nat, ghost w: World)
      requires w0.stage == Files() && w0.db == db && w0.applier == RestoreDump(m)
      modifies this`db
      ensures w.stage == Files() && w.db == db && w.applier == end && left <= budget
      ensures ApplierRun(w0, budget) == ApplierRun(w, left)
      ensures end.RenameApplying? ==> end.m == m
      ensures !end.RenameApplying? ==> left == 0 || Stopped(end)
    {
      end, left, w := RestoreDump(m), budget, w0;
      if left == 0 { return; }
      left := left - 1;
      w := ApplierStep(w0);
      if DumpKey(m) !in dumps || !dumps[DumpKey(m)].WholeDump? {
        end := Refused;
        return;
      }
      db := dumps[DumpKey(m)].snapshot;
      end := if m.version == 2 then FinalizeRow(m) else RenameApplying(m);
      if m.version != 2 || left == 0 { return; }
      left := left - 1;
      w := ApplierStep(w);
      var finalized := FinalizeBackup(db, m);
      if finalized.None? {
        end := Refused;
        return;
      }
      db := finalized.value;
      end := RenameApplying(m);
    }

    /** The ordered clean-up: lock, marker, dump. */
    method CleanUp(m: Marker, lockSeen: bool, budget: nat, ghost w0: World) returns (end: Applier)
      requires w0.stage == Files() && w0.db == db
      requires lockSeen == lock.Some? && w0.applier == if lockSeen then RemoveLock(m) else RemoveMarker(m)
      modifies this
      ensures var w := ApplierRun(w0, budget); Files() == w.stage && db == w.db && end == w.applier
    {
      var left := budget;
      ghost var w := w0;
      end := if lockSeen then RemoveLock(m) else RemoveMarker(m);
      if lockSeen {
        if left == 0 { return; }
        lock := None;
        left, end := left - 1, RemoveMarker(m);
        w := ApplierStep(w);
        assert ApplierRun(w0, budget) == ApplierRun(w, left);
      }
      if left == 0 { return; }
      applied := None;
      left, end := left - 1, RemoveDump(m);
      w := ApplierStep(w);
      assert ApplierRun(w0, budget) == ApplierRun(w, left);
      if left == 0 { return; }
      dumps := dumps - {DumpKey(m)};
      end := Finished(true);
      LastStep(w, left);
      w := ApplierStep(w);
    }

    /** Stager `t` on its own files, with any set of its operations throwing. */
    method StageRestore(t: Id, b: Id, restoreId: Id, artifact: Artifact, failing: set<StagerPc>, ghost w0: World)
      returns (staged: bool)
      requires w0.stage == Files() && Stopped(w0.applier) && b in w0.artifacts && w0.artifacts[b] == artifact
      requires t in w0.stagers && w0.stagers[t] == Stager(OpenLock, b, restoreId, false, false)
      modifies this
      ensures Files() == AttemptAll(w0, t, failing).stage && db == old(db)
      ensures staged ==> pending.Some? && pending.value.token == t && lock == Some(Holding(t))
    {
      ghost var w;
      var taken, prepared, dumpCreated;
      taken, w := TakeLock(t, failing, w0);
      if !taken { return false; }
      prepared, dumpCreated, w := PrepareStage(t, b, artifact, failing, w);
      if !prepared || RecordRestore in failing {
        if prepared {
          AttemptFirst(w, t, failing);
          w := Attempt(w, t, failing);
        }
        Rollback(t, b, dumpCreated, false, failing, w);
        return false;
      }
      AttemptFirst(w, t, failing);
      w := Attempt(w, t, failing);
      staged := PublishStage(t, b, restoreId, artifact, failing, w);
    }

    /** Publishes a prepared stage, or takes it back. */
    method PublishStage(t: Id, b: Id, restoreId: Id, artifact: Artifact, failing: set<StagerPc>, ghost w0: World)
      returns (staged: bool)
      requires w0.stage == Files() && Stopped(w0.applier) && b in w0.artifacts && w0.artifacts[b] == artifact
      requires t in w0.stagers && w0.stagers[t] == Stager(OpenTemp, b, restoreId, true, false)
      modifies this
      ensures Files() == AttemptAll(w0, t, failing).stage && db == old(db)
      ensures staged ==> pending.Some? && pending.value.token == t && lock == old(lock)
    {
      ghost var w;
      var published;
      published, w := Publish(t, b, restoreId, artifact, failing, w0);
      if published {
        AttemptFirst(w, t, failing);
        w := Attempt(w, t, failing);
      }
      staged := published && ReportStaged !in failing;
      if !staged { Rollback(t, b, true, published, failing, w); }
    }

    /** The exclusive creation of the lock, then its token. */
    method TakeLock(t: Id, failing: set<StagerPc>, ghost w0: World) returns (taken: bool, ghost w: World)
      requires w0.stage == Files() && Stopped(w0.applier)
      requires t in w0.stagers && w0.stagers[t].pc == OpenLock && w0.stagers[t].backupId in w0.artifacts
      modifies this`lock
      ensures Files() == w.stage && w.artifacts == w0.artifacts && w.applier == w0.applier
      ensures if taken then t in w.stagers && w.stagers[t] == w0.stagers[t].(pc := CheckMarkers)
        && lock == Some(Holding(t)) else t !in w.stagers
      ensures AttemptAll(w0, t, failing) == AttemptAll(w, t, failing)
    {
      AttemptFirst(w0, t, failing);
      w := Attempt(w0, t, failing);
      if OpenLock in failing || lock.Some? { return false, w; }
      lock := Some(EmptyLock);
      AttemptFirst(w, t, failing);
      w := Attempt(w, t, failing);
      if WriteLock in failing { return false, w; }
      lock := Some(Holding(t));
      taken := true;
    }

    /** With the lock held: the marker check and the copy of the dump. */
    method PrepareStage(t: Id, b: Id, artifact: Artifact, failing: set<StagerPc>, ghost w0: World)
      returns (prepared: bool, dumpCreated: bool, ghost w: World)
      requires w0.stage == Files() && Stopped(w0.applier) && b in w0.artifacts && w0.artifacts[b] == artifact
      requires t in w0.stagers && w0.stagers[t].pc == CheckMarkers && w0.stagers[t].backupId == b
        && !w0.stagers[t].dumpCreated
      modifies this`dumps
      ensures Files() == w.stage && w.artifacts == w0.artifacts && w.applier == w0.applier
      ensures t in w.stagers
        && w.stagers[t] == w0.stagers[t].(pc := if prepared then RecordRestore
                                          else UndoMarker, dumpCreated := dumpCreated)
      ensures prepared ==> dumpCreated && (b, t) in dumps && dumps[(b, t)] == WholeDump(artifact.snapshot)
      ensures AttemptAll(w0, t, failing) == AttemptAll(w, t, failing)
    {
      prepared, dumpCreated := false, false;
      w := Attempt(w0, t, failing);
      if CheckMarkers in failing || pending.Some? || applying.Some? || applied.Some? { return; }
      if OpenDump !in failing {
        dumps := dumps[(b, t) := PartialDump];
        dumpCreated := true;
      }
      w := Attempt(w, t, failing);
      assert AttemptAll(w0, t, failing) == AttemptAll(w, t, failing);
      if !dumpCreated { return; }
      if CopyDump !in failing {
        dumps := dumps[(b, t) := WholeDump(artifact.snapshot)];
        prepared := true;
      }
      w := Attempt(w, t, failing);
      assert AttemptAll(w0, t, failing) == AttemptAll(w, t, failing);
    }

    /** The publish closure: the marker is written aside and renamed into place. */
    method Publish(t: Id, b: Id, restoreId: Id, artifact: Artifact, failing: set<StagerPc>, ghost w0: World)
      returns (published: bool, ghost w: World)
      requires w0.stage == Files() && Stopped(w0.applier) && b in w0.artifacts && w0.artifacts[b] == artifact
      requires t in w0.stagers && w0.stagers[t] == Stager(OpenTemp, b, restoreId, true, false)
      modifies this`temps, this`pending
      ensures Files() == w.stage && w.artifacts == w0.artifacts && w.applier == w0.applier
      ensures t in w.stagers
        && w.stagers[t] == Stager(if published then ReportStaged else UndoMarker, b, restoreId, true, published)
      ensures published ==> pending == Some(Marker(2, restoreId, b, t, artifact.sizeBytes, artifact.checksum))
      ensures AttemptAll(w0, t, failing) == AttemptAll(w, t, failing)
    {
      published := false;
      AttemptFirst(w0, t, failing);
      w := Attempt(w0, t, failing);
      if OpenTemp in failing { return; }
      temps := temps[t := PartialTemp];
      AttemptFirst(w, t, failing);
      w := Attempt(w, t, failing);
      if WriteTemp in failing { return; }
      temps := temps[t := WholeTemp(Marker(2, restoreId, b, t, artifact.sizeBytes, artifact.checksum))];
      AttemptFirst(w, t, failing);
      w := Attempt(w, t, failing);
      if RenameTemp in failing { return; }
      pending, temps := Some(temps[t].marker), temps - {t};
      published := true;
    }

    /** The rollback closure, then the release of an owned lock. */
    method Rollback(t: Id, b: Id, dumpCreated: bool, markerPublished: bool, failing: set<StagerPc>, ghost w0: World)
      requires w0.stage == Files() && Stopped(w0.applier) && b in w0.artifacts && t in w0.stagers
      requires w0.stagers[t] == Stager(UndoMarker, b, w0.stagers[t].restoreId, dumpCreated, markerPublished)
      modifies this
      ensures Files() == AttemptAll(w0, t, failing).stage && db == old(db)
    {
      ghost var w := RemoveMarkerFile(t, markerPublished, failing, w0);
      w := RemoveFiles(t, b, dumpCreated, failing, w);
      ReleaseLock(t, failing, w);
    }

    method ReleaseLock(t: Id, failing: set<StagerPc>, ghost w0: World)
      requires w0.stage == Files() && Stopped(w0.applier) && t in w0.stagers && w0.stagers[t].backupId in w0.artifacts
      requires w0.stagers[t].pc == UndoLock
      modifies this`lock
      ensures Files() == AttemptAll(w0, t, failing).stage
    {
      AttemptFirst(w0, t, failing);
      if UndoLock !in failing && lock == Some(Holding(t)) {
        lock := None;
      }
    }

    /** A marker that cannot be read or removed, or is not owned, is left behind. */
    method RemoveMarkerFile(t: Id, markerPublished: bool, failing: set<StagerPc>, ghost w0: World)
      returns (ghost w: World)
      requires w0.stage == Files() && Stopped(w0.applier) && t in w0.stagers && w0.stagers[t].backupId in w0.artifacts
      requires w0.stagers[t].pc == UndoMarker && w0.stagers[t].markerPublished == markerPublished
      modifies this`pending
      ensures Files() == w.stage && w.artifacts == w0.artifacts && w.applier == w0.applier
      ensures t in w.stagers && w.stagers[t] == w0.stagers[t].(pc := UndoTemp)
      ensures AttemptAll(w0, t, failing) == AttemptAll(w, t, failing)
    {
      AttemptFirst(w0, t, failing);
      w := Attempt(w0, t, failing);
      if markerPublished && UndoMarker !in failing && pending.Some? && pending.value.token == t {
        pending := None;
      }
    }

    method RemoveFiles(t: Id, b: Id, dumpCreated: bool, failing: set<StagerPc>, ghost w0: World)
      returns (ghost w: World)
      requires w0.stage == Files() && Stopped(w0.applier) && b in w0.artifacts && t in w0.stagers
      requires w0.stagers[t].pc == UndoTemp && w0.stagers[t].backupId == b && w0.stagers[t].dumpCreated == dumpCreated
      modifies this`temps, this`dumps
      ensures Files() == w.stage && w.artifacts == w0.artifacts && w.applier == w0.applier
      ensures t in w.stagers && w.stagers[t] == w0.stagers[t].(pc := UndoLock)
      ensures AttemptAll(w0, t, failing) == AttemptAll(w, t, failing)
    {
      w := Attempt(w0, t, failing);
      if UndoTemp !in failing {
        temps := temps - {t};
        assert w.stage == Files() && w.stagers[t] == w0.stagers[t].(pc := UndoDump);
        if UndoDump !in failing && dumpCreated {
          dumps := dumps - {(b, t)};
        }
        w := Attempt(w, t, failing);
      }
    }
  }
}
