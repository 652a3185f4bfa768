/**
 * The agent's command loop over its durable journal, run against the command store. The agent may die between any
 * two statements, a journal write may fail before or after the file is replaced, a request may be lost, and an
 * answer may be lost after the server has acted on the request.
 */
module AgentProtocol {
  import opened Common
  import opened CommandStore
  import opened CommandInvariants

  datatype Outcome = Outcome(ok: bool, result: Result)
  datatype Record = Running | Completed(outcome: Outcome, delivered: bool)
  type Journal = map<Id, Record>

  /** Where the loop stands. A `queue` is the rest of a polled batch, a `list` the rest of a delivery round. */
  datatype Doing =
    | Top
    | Listed(list: seq<(Id, Outcome)>)
    | ListAccepted(list: seq<(Id, Outcome)>)
    | Batch(queue: seq<Id>)
    | Starting(queue: seq<Id>)
    | Executing(queue: seq<Id>)
    | Saving(queue: seq<Id>, outcome: Outcome)
    | Delivering(queue: seq<Id>, outcome: Outcome)
    | BatchAccepted(queue: seq<Id>)

  /**
   * `mem` is the journal in memory, `disk` the one a restart reads. The last five components only record history:
   * submissions ever sent, executor starts, what the executor returned, the last result handed to SaveResult, and
   * the commands one of whose SaveResult writes did not reach the disk.
   */
  datatype World = World(
    me: Id, db: Db, mem: Journal, disk: Journal, at: Doing,
    sent: set<(Id, Outcome)>, starts: multiset<Id>, returned: map<Id, Outcome>, saved: map<Id, Outcome>,
      unsaved: set<Id>)

  /** A journal write that returns nil, fails after the rename, or fails before it. */
  datatype Write = Kept | KeptLate | Forgotten

  datatype AgentStep =
    | Server(step: Step)
    | ListPending(list: seq<(Id, Outcome)>)
    | Submit(answered: bool)
    | Confirm(write: Write)
    | PollFails
    | Poll(chosen: seq<Id>, delivered: seq<Id>, limit: nat, now: int)
    | EndBatch
    | Handle(write: Write, report: Result)
    | Start
    | Return(outcome: Outcome)
    | Save(write: Write)
    | Crash

  /** MarkDelivered keeps the tombstone without the bulky output. */
  function Trimmed(o: Outcome): Outcome
  {
    o.(result := o.result.(output := "", logs := ""))
  }

  /** PendingResults, in the arbitrary order of a Go map. */
  ghost predicate Lists(mem: Journal, list: seq<(Id, Outcome)>)
  {
    && (forall i :: 0 <= i < |list| ==> list[i].0 in mem && mem[list[i].0] == Completed(list[i].1, false))
    && (forall i, j :: 0 <= i < j < |list| ==> list[i].0 != list[j].0)
    && (forall c :: c in mem && mem[c].Completed? && !mem[c].delivered ==> (c, mem[c].outcome) in list)
  }

  function Written(w: World, c: Id, record: Record, write: Write): World
  {
    var mem' := w.mem[c := record];
    w.(mem := mem', disk := if write == Forgotten then w.disk else mem')
  }

  function SavedResult(w: World, c: Id, o: Outcome, write: Write): World
  {
    Written(w, c, Completed(o, false), write).(
      saved := w.saved[c := o], unsaved := if write == Forgotten then w.unsaved + {c} else w.unsaved)
  }

  predicate Accepted(completion: Completion) { completion == Updated || completion == Idempotent }

  /** The server's side of a submission that reaches it. */
  function Submitted(w: World, c: Id, o: Outcome, answered: bool): World
  {
    w.(sent := w.sent + {(c, o)}, db := if answered then CompleteCommand(w.db, w.me, c, o.ok, o.result) else w.db)
  }

  predicate Admitted(w: World, c: Id, o: Outcome, answered: bool)
  {
    answered && Accepted(CompletionOf(w.db, w.me, c, o.ok, o.result))
  }

  /**
   * The server may claim for the agent at any time (a poll whose answer is lost), may process a submission long
   * after it was sent, or again, and may fail a command itself; a success it accepts from the agent only.
   */
  ghost predicate ServerMay(w: World, step: Step)
  {
    && Enabled(w.db, step)
    && (step.Complete? && step.agent == w.me && step.ok ==> (step.cmd, Outcome(step.ok, step.result)) in w.sent)
  }

  /** The commands a poll answers with: some of those it claimed. The others the poll handler fails. */
  ghost predicate Delivers(chosen: seq<Id>, delivered: seq<Id>)
  {
    && (forall i :: 0 <= i < |delivered| ==> delivered[i] in chosen)
    && (forall i, j :: 0 <= i < j < |delivered| ==> delivered[i] != delivered[j])
  }

  ghost predicate Can(w: World, step: AgentStep)
  {
    match step
    case Server(s) => ServerMay(w, s)
    case ListPending(list) => w.at.Top? && Lists(w.mem, list)
    case Submit(_) => (w.at.Listed? && w.at.list != []) || (w.at.Delivering? && w.at.queue != [])
    case Confirm(_) => (w.at.ListAccepted? && w.at.list != []) || (w.at.BatchAccepted? && w.at.queue != [])
    case PollFails => w.at == Listed([])
    case Poll(chosen, delivered, limit, now) =>
      w.at == Listed([]) && ChosenForClaim(w.db, w.me, chosen, limit, now) && Delivers(chosen, delivered)
    case EndBatch => w.at == Batch([])
    case Handle(_, _) => w.at.Batch? && w.at.queue != []
    case Start => w.at.Starting? && w.at.queue != []
    case Return(_) => w.at.Executing? && w.at.queue != []
    case Save(_) => w.at.Saving? && w.at.queue != []
    case Crash => true
  }

  function SubmitStep(w: World, answered: bool): World
    requires Can(w, Submit(answered))
  {
    if w.at.Listed? then
      var (c, o) := w.at.list[0];
      Submitted(w, c, o, answered).(at := if Admitted(w, c, o, answered) then ListAccepted(w.at.list) else Top)
    else
      var c, o := w.at.queue[0], w.at.outcome;
      Submitted(w, c, o, answered).(at := if Admitted(w, c, o, answered) then BatchAccepted(w.at.queue)
                                    else Batch(w.at.queue[1..]))
  }

  function MarkDelivered(w: World, c: Id, write: Write): World
  {
    if c in w.mem && w.mem[c].Completed? then Written(w, c, Completed(Trimmed(w.mem[c].outcome), true), write) else w
  }

  function ConfirmStep(w: World, write: Write): World
    requires Can(w, Confirm(write))
  {
    if w.at.ListAccepted? then
      var c := w.at.list[0].0;
      var ok := c in w.mem && w.mem[c].Completed? && write == Kept;
      MarkDelivered(w, c, write).(at := if ok then Listed(w.at.list[1..]) else Top)
    else
      MarkDelivered(w, w.at.queue[0], write).(at := Batch(w.at.queue[1..]))
  }

  /** The head of handleCommand, up to the execution or the delivery. `report` fills the interrupted result. */
  function HandleStep(w: World, write: Write, report: Result): World
    requires Can(w, Handle(write, report))
  {
    var c, rest := w.at.queue[0], w.at.queue[1..];
    if c in w.mem then
      match w.mem[c]
      case Completed(o, _) => w.(at := Delivering(w.at.queue, o))
      case Running =>
        var interrupted := Outcome(false, report);
        SavedResult(w, c, interrupted, write).(at := if write == Kept then Delivering(w.at.queue, interrupted)
                                               else Batch(rest))
    else
      Written(w, c, Running, write).(at := if write == Kept then Starting(w.at.queue) else Batch(rest))
  }

  ghost function Next(w: World, step: AgentStep): World
    requires Can(w, step)
  {
    match step
    case Server(s) => w.(db := Do(w.db, s))
    case ListPending(list) => w.(at := Listed(list))
    case Submit(answered) => SubmitStep(w, answered)
    case Confirm(write) => ConfirmStep(w, write)
    case PollFails => w.(at := Top)
    case Poll(chosen, delivered, limit, now) => w.(db := ClaimAll(w.db, w.me, chosen, now), at := Batch(delivered))
    case EndBatch => w.(at := Top)
    case Handle(write, report) => HandleStep(w, write, report)
    case Start => w.(starts := w.starts + multiset{w.at.queue[0]}, at := Executing(w.at.queue))
    case Return(o) => w.(returned := w.returned[w.at.queue[0] := o], at := Saving(w.at.queue, o))
    case Save(write) =>
      SavedResult(w, w.at.queue[0], w.at.outcome, write).(
        at := if write == Kept then Delivering(w.at.queue, w.at.outcome) else Batch(w.at.queue[1..]))
    case Crash => w.(mem := w.disk, at := Top)
  }

  ghost predicate Possible(w: World, steps: seq<AgentStep>)
    decreases |steps|
  {
    steps == [] || (Can(w, steps[0]) && Possible(Next(w, steps[0]), steps[1..]))
  }

  ghost function Run(w: World, steps: seq<AgentStep>): World
    requires Possible(w, steps)
    decreases |steps|
  {
    if steps == [] then w else Run(Next(w, steps[0]), steps[1..])
  }

  /** A newly enrolled agent. */
  ghost predicate Begins(w: World)
  {
    && Init(w.db) && w.mem == map[] && w.disk == map[] && w.at == Top
    && w.sent == {} && w.starts == multiset{} && w.returned == map[] && w.saved == map[] && w.unsaved == {}
  }

  // ---------------------------------------------------------------- invariants

  /** Each start was preceded by a durable `running` record that outlives it, and no command starts twice. */
  ghost predicate StartsSound(disk: Journal, starts: multiset<Id>, returned: map<Id, Outcome>)
  {
    && (forall c :: starts[c] <= 1)
    && (forall c :: c in starts ==> c in disk)
    && (forall c :: c in returned ==> c in starts)
  }

  predicate Known(me: Id, commands: map<Id, Command>, c: Id)
  {
    c in commands && commands[c].agent == me && commands[c].status != Pending
  }

  /** What memory may hold over a record of the disk. */
  predicate Ahead(d: Record, m: Record)
  {
    d.Running? || m == d || (!d.delivered && m == Completed(Trimmed(d.outcome), true))
  }

  ghost predicate JournalsSound(me: Id, commands: map<Id, Command>, mem: Journal, disk: Journal)
  {
    && (forall c :: c in mem ==> Known(me, commands, c))
    && (forall c :: c in mem && mem[c].Completed? && mem[c].delivered ==> Terminal(commands[c].status))
    && (forall c :: c in disk ==> c in mem && Ahead(disk[c], mem[c]))
  }

  ghost predicate RecordsSaved(journal: Journal, saved: map<Id, Outcome>)
  {
    forall c :: c in journal && journal[c].Completed? ==>
      c in saved && journal[c].outcome == if journal[c].delivered then Trimmed(saved[c]) else saved[c]
  }

  ghost predicate SavedSound(mem: Journal, disk: Journal, saved: map<Id, Outcome>, unsaved: set<Id>)
  {
    && RecordsSaved(mem, saved) && RecordsSaved(disk, saved)
    && (forall c :: c in saved && c !in unsaved ==> c in disk && disk[c].Completed?)
  }

  /** A success is only ever what the executor returned. */
  predicate Genuine(returned: map<Id, Outcome>, c: Id, o: Outcome)
  {
    o.ok ==> c in returned && returned[c] == o
  }

  ghost predicate SentSound(sent: set<(Id, Outcome)>, returned: map<Id, Outcome>, saved: map<Id, Outcome>,
                            unsaved: set<Id>)
  {
    && (forall c :: c in saved ==> Genuine(returned, c, saved[c]))
    && (forall c, o :: (c, o) in sent ==> Genuine(returned, c, o) && c in saved && (c !in unsaved ==> saved[c] == o))
  }

  ghost predicate SuccessSent(me: Id, commands: map<Id, Command>, sent: set<(Id, Outcome)>)
  {
    forall c :: c in commands && commands[c].agent == me && commands[c].status == Succeeded ==>
      exists r :: (c, Outcome(true, r)) in sent && commands[c].result == Some(StoredResult(commands[c].kind, r))
  }

  ghost predicate QueueSound(me: Id, commands: map<Id, Command>, mem: Journal, queue: seq<Id>)
  {
    && (forall i :: 0 <= i < |queue| ==> Known(me, commands, queue[i]))
    && (forall i :: 0 <= i < |queue| && queue[i] in mem && mem[queue[i]].Completed? ==> !mem[queue[i]].delivered)
    && (forall i, j :: 0 <= i < j < |queue| ==> queue[i] != queue[j])
  }

  predicate HasRunning(journal: Journal, c: Id) { c in journal && journal[c].Running? }

  predicate Undelivered(mem: Journal, c: Id) { c in mem && mem[c].Completed? && !mem[c].delivered }

  /** The server's row shows exactly this outcome. */
  predicate Recorded(commands: map<Id, Command>, c: Id, o: Outcome)
  {
    c in commands && commands[c].status == Final(o.ok)
      && commands[c].result == Some(StoredResult(commands[c].kind, o.result))
  }

  /** … and would show it again if it were sent again. */
  predicate Settled(commands: map<Id, Command>, c: Id, o: Outcome)
  {
    Recorded(commands, c, o) && WithinSize(o.result) && CleanResult(StoredResult(commands[c].kind, o.result))
  }

  ghost predicate PlaceSound(me: Id, commands: map<Id, Command>, mem: Journal, disk: Journal,
                             starts: multiset<Id>, returned: map<Id, Outcome>, at: Doing)
  {
    match at
    case Top => true
    case Listed(list) => Lists(mem, list)
    case ListAccepted(list) => list != [] && Lists(mem, list) && Settled(commands, list[0].0, list[0].1)
    case Batch(queue) => QueueSound(me, commands, mem, queue)
    case Starting(queue) =>
      && queue != [] && QueueSound(me, commands, mem, queue)
      && HasRunning(mem, queue[0]) && HasRunning(disk, queue[0]) && queue[0] !in starts
    case Executing(queue) =>
      && queue != [] && QueueSound(me, commands, mem, queue)
      && HasRunning(mem, queue[0]) && queue[0] in starts && queue[0] !in returned
    case Saving(queue, o) =>
      && queue != [] && QueueSound(me, commands, mem, queue)
      && HasRunning(mem, queue[0]) && queue[0] in returned && returned[queue[0]] == o
    case Delivering(queue, o) =>
      && queue != [] && QueueSound(me, commands, mem, queue)
      && Undelivered(mem, queue[0]) && mem[queue[0]].outcome == o
    case BatchAccepted(queue) =>
      && queue != [] && QueueSound(me, commands, mem, queue)
      && Undelivered(mem, queue[0]) && Settled(commands, queue[0], mem[queue[0]].outcome)
  }

  ghost predicate AgentInv(w: World)
  {
    && StartsSound(w.disk, w.starts, w.returned)
    && JournalsSound(w.me, w.db.commands, w.mem, w.disk)
    && SavedSound(w.mem, w.disk, w.saved, w.unsaved)
    && SentSound(w.sent, w.returned, w.saved, w.unsaved)
    && SuccessSent(w.me, w.db.commands, w.sent)
    && PlaceSound(w.me, w.db.commands, w.mem, w.disk, w.starts, w.returned, w.at)
  }

  // ---------------------------------------------------------------- steps of the server

  lemma AdvanceKeeps(me: Id, commands: map<Id, Command>, commands': map<Id, Command>, mem: Journal, disk: Journal,
                     starts: multiset<Id>, returned: map<Id, Outcome>, at: Doing)
    requires Advanced(commands, commands')
    requires JournalsSound(me, commands, mem, disk) && PlaceSound(me, commands, mem, disk, starts, returned, at)
    ensures JournalsSound(me, commands', mem, disk) && PlaceSound(me, commands', mem, disk, starts, returned, at)
  {
    forall c | Known(me, commands, c) ensures Known(me, commands', c) {
    }
    if !at.Top? && !at.Listed? && !at.ListAccepted? {
      assert QueueSound(me, commands', mem, at.queue);
    }
  }

  predicate NewSuccess(db: Db, db': Db, c: Id)
  {
    c in db'.commands && db'.commands[c].status == Succeeded
      && !(c in db.commands && db.commands[c].status == Succeeded)
  }

  lemma CreateNeverSucceeds(db: Db, step: Step, c: Id)
    requires Enabled(db, step)
      && (step.NewBackup? || step.NewRestore? || step.NewRuntime? || step.NewLogRequest? || step.NewRun?)
    ensures !NewSuccess(db, Do(db, step), c)
  {
  }

  lemma ConnectorNeverSucceeds(db: Db, step: Step, c: Id)
    requires Enabled(db, step) && (step.NewConnector? || step.ChangeConnector?)
    ensures !NewSuccess(db, Do(db, step), c)
  {
  }

  lemma OtherNeverSucceeds(db: Db, step: Step, c: Id)
    requires Inv(db) && Enabled(db, step) && !step.Complete?
    ensures !NewSuccess(db, Do(db, step), c)
  {
    match step {
      case Claim(agent, chosen, limit, now) =>
        StepAdvances(db, step);
        if c in db.commands && !Terminal(db.commands[c].status) { ClaimLeavesLive(db, agent, chosen, limit, now, c); }
      case Sweep(rows, before, now) =>
        RowsKnown(db, rows, before, now);
        if c in db.commands && db.commands[c].status != Succeeded { SweepNeverSucceeds(db, rows, before, now, c); }
      case Purge(purged) => PurgeChangesNothing(db, purged);
      case NewConnector(_, _, _, _, _, _) => ConnectorNeverSucceeds(db, step, c);
      case ChangeConnector(_, _, _, _, _, _, _) => ConnectorNeverSucceeds(db, step, c);
      case SetInventory(_) =>
      case NewDeployment(_, _) =>
      case NewPlainCommand(_, _, _, _) =>
      case _ => CreateNeverSucceeds(db, step, c);
    }
  }

  /** Only a submission turns a command into a success, and it leaves its own result. */
  lemma SuccessOnlyBySubmission(db: Db, step: Step, c: Id)
    requires Inv(db) && Enabled(db, step) && NewSuccess(db, Do(db, step), c)
    ensures c in db.commands && step.Complete? && step.cmd == c && step.agent == db.commands[c].agent && step.ok
    ensures var row := Do(db, step).commands[c];
      row.result == Some(StoredResult(db.commands[c].kind, step.result)) && row.kind == db.commands[c].kind
        && row.agent == db.commands[c].agent
  {
    if !step.Complete? { OtherNeverSucceeds(db, step, c); }
  }

  lemma ServerSuccesses(w: World, step: Step)
    requires Inv(w.db) && ServerMay(w, step) && SuccessSent(w.me, w.db.commands, w.sent)
    ensures SuccessSent(w.me, Do(w.db, step).commands, w.sent)
  {
    var commands, commands' := w.db.commands, Do(w.db, step).commands;
    StepAdvances(w.db, step);
    forall c | c in commands' && commands'[c].agent == w.me && commands'[c].status == Succeeded
      ensures exists r ::
        (c, Outcome(true, r)) in w.sent && commands'[c].result == Some(StoredResult(commands'[c].kind, r))
    {
      if !(c in commands && commands[c].status == Succeeded) {
        SuccessOnlyBySubmission(w.db, step, c);
        assert (c, Outcome(true, step.result)) in w.sent;
      }
    }
  }

  lemma ServerKeeps(w: World, step: Step)
    requires Inv(w.db) && AgentInv(w) && ServerMay(w, step)
    ensures Inv(Do(w.db, step)) && AgentInv(w.(db := Do(w.db, step)))
  {
    StepInv(w.db, step);
    StepAdvances(w.db, step);
    AdvanceKeeps(w.me, w.db.commands, Do(w.db, step).commands, w.mem, w.disk, w.starts, w.returned, w.at);
    ServerSuccesses(w, step);
  }

  // ---------------------------------------------------------------- steps of the agent

  lemma ClaimedOne(db: Db, agent: Id, cmd: Id, now: int, c: Id)
    requires cmd in db.commands && db.commands[cmd].agent == agent
    requires c == cmd || Known(agent, db.commands, c)
    ensures Known(agent, ClaimOne(db, agent, cmd, now).commands, c)
  {
  }

  lemma {:induction false} ClaimedAll(db: Db, agent: Id, chosen: seq<Id>, limit: nat, now: int, i: nat)
    requires ChosenForClaim(db, agent, chosen, limit, now) && i < |chosen|
    ensures Known(agent, ClaimAll(db, agent, chosen, now).commands, chosen[i])
  {
    var last := |chosen| - 1;
    var before := ClaimAll(db, agent, chosen[..last], now);
    if i < last { ClaimedAll(db, agent, chosen[..last], limit, now, i); }
    ClaimAllFrame(db, agent, chosen[..last], now, chosen[last]);
    ClaimedOne(before, agent, chosen[last], now, chosen[i]);
  }

  lemma PolledSound(w: World, chosen: seq<Id>, delivered: seq<Id>, limit: nat, now: int)
    requires Inv(w.db) && AgentInv(w) && Can(w, Poll(chosen, delivered, limit, now))
    ensures QueueSound(w.me, ClaimAll(w.db, w.me, chosen, now).commands, w.mem, delivered)
  {
    forall i | 0 <= i < |delivered|
      ensures Known(w.me, ClaimAll(w.db, w.me, chosen, now).commands, delivered[i])
      ensures delivered[i] in w.mem && w.mem[delivered[i]].Completed? ==> !w.mem[delivered[i]].delivered
    {
      var k :| 0 <= k < |chosen| && chosen[k] == delivered[i];
      ClaimedAll(w.db, w.me, chosen, limit, now, k);
    }
  }

  lemma PollKeeps(w: World, chosen: seq<Id>, delivered: seq<Id>, limit: nat, now: int)
    requires Inv(w.db) && AgentInv(w) && Can(w, Poll(chosen, delivered, limit, now))
    ensures AgentInv(Next(w, Poll(chosen, delivered, limit, now)))
  {
    var claim := Claim(w.me, chosen, limit, now);
    assert Do(w.db, claim) == ClaimAll(w.db, w.me, chosen, now);
    ServerKeeps(w, claim);
    PolledSound(w, chosen, delivered, limit, now);
  }

  lemma ToldKeeps(w: World, c: Id, o: Outcome)
    requires AgentInv(w) && Undelivered(w.mem, c) && w.mem[c].outcome == o
    ensures AgentInv(w.(sent := w.sent + {(c, o)}))
  {
    assert SuccessSent(w.me, w.db.commands, w.sent + {(c, o)});
  }

  lemma AnswerKeeps(w: World, c: Id, o: Outcome)
    requires Inv(w.db) && AgentInv(w) && (c, o) in w.sent
    ensures var db' := CompleteCommand(w.db, w.me, c, o.ok, o.result);
      Inv(db') && AgentInv(w.(db := db'))
  {
    var complete := Complete(w.me, c, o.ok, o.result);
    ServerKeeps(w, complete);
    assert Do(w.db, complete) == CompleteCommand(w.db, w.me, c, o.ok, o.result);
  }

  lemma AcceptedIsSettled(db: Db, me: Id, c: Id, o: Outcome)
    requires Accepted(CompletionOf(db, me, c, o.ok, o.result))
    ensures Settled(CompleteCommand(db, me, c, o.ok, o.result).commands, c, o)
  {
  }

  lemma SubmitKeeps(w: World, answered: bool)
    requires Inv(w.db) && AgentInv(w) && Can(w, Submit(answered))
    ensures Inv(SubmitStep(w, answered).db) && AgentInv(SubmitStep(w, answered))
  {
    var (c, o) := if w.at.Listed? then w.at.list[0] else (w.at.queue[0], w.at.outcome);
    ToldKeeps(w, c, o);
    var told := w.(sent := w.sent + {(c, o)});
    if answered { AnswerKeeps(told, c, o); }
    var w' := Submitted(w, c, o, answered);
    assert AgentInv(w');
    if Admitted(w, c, o, answered) { AcceptedIsSettled(w.db, w.me, c, o); }
    SentKeeps(w', SubmitStep(w, answered).at);
  }

  /** After a submission the loop moves on, or to the write that notes the delivery. */
  lemma SentKeeps(w: World, at: Doing)
    requires AgentInv(w) && ((w.at.Listed? && w.at.list != []) || w.at.Delivering?)
    requires (match at
      case Top => true
      case ListAccepted(list) => w.at == Listed(list) && Settled(w.db.commands, list[0].0, list[0].1)
      case Batch(queue) => w.at.Delivering? && queue == w.at.queue[1..]
      case BatchAccepted(queue) =>
        w.at.Delivering? && queue == w.at.queue && Settled(w.db.commands, queue[0], w.at.outcome)
      case _ => false)
    ensures AgentInv(w.(at := at))
  {
    if at.Batch? { TailSound(w.me, w.db.commands, w.mem, w.mem, w.at.queue); }
  }

  lemma TailSound(me: Id, commands: map<Id, Command>, mem: Journal, mem': Journal, queue: seq<Id>)
    requires QueueSound(me, commands, mem, queue) && queue != []
    requires forall c :: c in mem' && c != queue[0] ==> c in mem && mem'[c] == mem[c]
    ensures QueueSound(me, commands, mem', queue[1..])
  {
  }

  lemma DeliveredJournals(w: World, c: Id, write: Write)
    requires JournalsSound(w.me, w.db.commands, w.mem, w.disk) && Undelivered(w.mem, c)
      && Terminal(w.db.commands[c].status)
    ensures JournalsSound(w.me, w.db.commands, MarkDelivered(w, c, write).mem, MarkDelivered(w, c, write).disk)
  {
  }

  lemma DeliveredKeeps(w: World, c: Id, write: Write)
    requires AgentInv(w) && Undelivered(w.mem, c) && Terminal(w.db.commands[c].status)
    ensures AgentInv(MarkDelivered(w, c, write).(at := Top))
  {
    DeliveredJournals(w, c, write);
  }

  lemma ConfirmListKeeps(w: World, write: Write)
    requires AgentInv(w) && Can(w, Confirm(write)) && w.at.ListAccepted?
    ensures AgentInv(ConfirmStep(w, write))
  {
    var w' := ConfirmStep(w, write);
    DeliveredKeeps(w, w.at.list[0].0, write);
    if write == Kept { assert Lists(w'.mem, w.at.list[1..]); }
  }

  lemma ConfirmKeeps(w: World, write: Write)
    requires AgentInv(w) && Can(w, Confirm(write))
    ensures AgentInv(ConfirmStep(w, write))
  {
    if w.at.ListAccepted? {
      ConfirmListKeeps(w, write);
    } else {
      DeliveredKeeps(w, w.at.queue[0], write);
      TailSound(w.me, w.db.commands, w.mem, ConfirmStep(w, write).mem, w.at.queue);
    }
  }

  lemma SaveRecords(w: World, c: Id, o: Outcome, write: Write)
    requires JournalsSound(w.me, w.db.commands, w.mem, w.disk) && SavedSound(w.mem, w.disk, w.saved, w.unsaved)
      && HasRunning(w.mem, c)
    ensures var w' := SavedResult(w, c, o, write);
      JournalsSound(w.me, w.db.commands, w'.mem, w'.disk) && SavedSound(w'.mem, w'.disk, w'.saved, w'.unsaved)
  {
  }

  lemma SaveSent(w: World, c: Id, o: Outcome, write: Write)
    requires JournalsSound(w.me, w.db.commands, w.mem, w.disk) && SavedSound(w.mem, w.disk, w.saved, w.unsaved)
      && HasRunning(w.mem, c)
    requires SentSound(w.sent, w.returned, w.saved, w.unsaved) && Genuine(w.returned, c, o)
    ensures var w' := SavedResult(w, c, o, write); SentSound(w'.sent, w'.returned, w'.saved, w'.unsaved)
  {
    assert c in w.saved ==> c in w.unsaved;
  }

  /** SaveResult on a record that is still `running`. */
  lemma SaveKeeps(w: World, c: Id, o: Outcome, write: Write)
    requires AgentInv(w) && HasRunning(w.mem, c) && Genuine(w.returned, c, o)
    ensures AgentInv(SavedResult(w, c, o, write).(at := Top))
  {
    SaveRecords(w, c, o, write);
    SaveSent(w, c, o, write);
  }

  lemma SavedKeeps(w: World, o: Outcome, write: Write, at: Doing)
    requires AgentInv(w) && (w.at.Batch? || w.at.Saving?) && w.at.queue != []
    requires HasRunning(w.mem, w.at.queue[0]) && Genuine(w.returned, w.at.queue[0], o)
    requires at == Delivering(w.at.queue, o) || at == Batch(w.at.queue[1..])
    ensures AgentInv(SavedResult(w, w.at.queue[0], o, write).(at := at))
  {
    var w' := SavedResult(w, w.at.queue[0], o, write);
    SaveKeeps(w, w.at.queue[0], o, write);
    TailSound(w.me, w.db.commands, w.mem, w'.mem, w.at.queue);
    if at.Delivering? { assert QueueSound(w.me, w.db.commands, w'.mem, w.at.queue); }
  }

  lemma MarkRunningKeeps(w: World, c: Id, write: Write)
    requires AgentInv(w) && c !in w.mem && Known(w.me, w.db.commands, c)
    ensures AgentInv(Written(w, c, Running, write).(at := Top))
  {
  }

  lemma NewCommandKeeps(w: World, write: Write, report: Result)
    requires AgentInv(w) && Can(w, Handle(write, report)) && w.at.queue[0] !in w.mem
    ensures AgentInv(HandleStep(w, write, report))
  {
    var c, w' := w.at.queue[0], HandleStep(w, write, report);
    MarkRunningKeeps(w, c, write);
    TailSound(w.me, w.db.commands, w.mem, w'.mem, w.at.queue);
    assert QueueSound(w.me, w.db.commands, w'.mem, w.at.queue);
  }

  lemma HandleKeeps(w: World, write: Write, report: Result)
    requires AgentInv(w) && Can(w, Handle(write, report))
    ensures AgentInv(HandleStep(w, write, report))
  {
    var c := w.at.queue[0];
    if c !in w.mem {
      NewCommandKeeps(w, write, report);
    } else if w.mem[c].Running? {
      SavedKeeps(w, Outcome(false, report), write, HandleStep(w, write, report).at);
    }
  }

  lemma StartKeeps(w: World)
    requires AgentInv(w) && Can(w, Start)
    ensures AgentInv(Next(w, Start))
  {
    assert w.starts[w.at.queue[0]] == 0;
  }

  lemma ReturnedSent(w: World, c: Id, o: Outcome)
    requires SentSound(w.sent, w.returned, w.saved, w.unsaved) && c !in w.returned
    ensures SentSound(w.sent, w.returned[c := o], w.saved, w.unsaved)
  {
  }

  lemma ReturnKeeps(w: World, o: Outcome)
    requires AgentInv(w) && Can(w, Return(o))
    ensures AgentInv(Next(w, Return(o)))
  {
    ReturnedSent(w, w.at.queue[0], o);
  }

  lemma CrashKeeps(w: World)
    requires AgentInv(w)
    ensures AgentInv(Next(w, Crash))
  {
  }

  lemma MessageKeeps(w: World, step: AgentStep)
    requires Inv(w.db) && AgentInv(w) && Can(w, step) && (step.Server? || step.Submit? || step.Poll?)
    ensures Inv(Next(w, step).db) && AgentInv(Next(w, step))
  {
    match step {
      case Server(s) => ServerKeeps(w, s);
      case Submit(answered) => SubmitKeeps(w, answered);
      case Poll(chosen, delivered, limit, now) =>
        StepInv(w.db, Claim(w.me, chosen, limit, now));
        PollKeeps(w, chosen, delivered, limit, now);
    }
  }

  lemma JournalKeeps(w: World, step: AgentStep)
    requires AgentInv(w) && Can(w, step) && !(step.Server? || step.Submit? || step.Poll?)
    ensures Next(w, step).db == w.db && AgentInv(Next(w, step))
  {
    match step {
      case Confirm(write) => ConfirmKeeps(w, write);
      case Handle(write, report) => HandleKeeps(w, write, report);
      case Save(write) => SavedKeeps(w, w.at.outcome, write, Next(w, step).at);
      case Crash => CrashKeeps(w);
      case Start => StartKeeps(w);
      case Return(o) => ReturnKeeps(w, o);
      case _ =>
    }
  }

  /** Every step of the server, the agent and the crash keeps the whole invariant. */
  lemma AgentStepInv(w: World, step: AgentStep)
    requires Inv(w.db) && AgentInv(w) && Can(w, step)
    ensures Inv(Next(w, step).db) && AgentInv(Next(w, step))
  {
    if step.Server? || step.Submit? || step.Poll? { MessageKeeps(w, step); } else { JournalKeeps(w, step); }
  }

  // ---------------------------------------------------------------- every run

  /** Whatever every allowed step keeps, every run of such steps keeps. */
  lemma {:induction false} AgentRunKeeps(keeps: World -> bool, allowed: AgentStep -> bool, w: World,
                                         steps: seq<AgentStep>)
    requires keeps(w) && Possible(w, steps) && forall i :: 0 <= i < |steps| ==> allowed(steps[i])
    requires forall v: World, step: AgentStep :: keeps(v) && Can(v, step) && allowed(step) ==> keeps(Next(v, step))
    ensures keeps(Run(w, steps))
    decreases |steps|
  {
    if steps != [] { AgentRunKeeps(keeps, allowed, Next(w, steps[0]), steps[1..]); }
  }

  lemma AgentRunInv(w: World, steps: seq<AgentStep>)
    requires Inv(w.db) && AgentInv(w) && Possible(w, steps)
    ensures Inv(Run(w, steps).db) && AgentInv(Run(w, steps))
  {
    forall v: World, step: AgentStep | Inv(v.db) && AgentInv(v) && Can(v, step)
      ensures Inv(Next(v, step).db) && AgentInv(Next(v, step))
    {
      AgentStepInv(v, step);
    }
    AgentRunKeeps((v: World) => Inv(v.db) && AgentInv(v), (step: AgentStep) => true, w, steps);
  }

  lemma BeginsInv(w: World)
    requires Begins(w)
    ensures Inv(w.db) && AgentInv(w)
  {
  }

  /**
   * However polls, lost answers, expired leases, journal failures and crashes interleave, the executor starts at
   * most once for a command, and every start is remembered on disk.
   */
  lemma AtMostOnce(w0: World, steps: seq<AgentStep>, c: Id)
    requires Begins(w0) && Possible(w0, steps)
    ensures Run(w0, steps).starts[c] <= 1
    ensures c in Run(w0, steps).starts ==> c in Run(w0, steps).disk
  {
    BeginsInv(w0);
    AgentRunInv(w0, steps);
  }

  /**
   * A stored success is what the executor returned, once. It is also in the journal on disk, whole or as a
   * delivered tombstone, unless writing it failed there.
   */
  lemma SuccessWasExecuted(w0: World, steps: seq<AgentStep>, c: Id)
    requires Begins(w0) && Possible(w0, steps)
    requires var row := Run(w0, steps).db.commands; c in row && row[c].agent == w0.me && row[c].status == Succeeded
    ensures var w := Run(w0, steps);
      && w.starts[c] == 1 && c in w.returned && w.returned[c].ok
      && w.db.commands[c].result == Some(StoredResult(w.db.commands[c].kind, w.returned[c].result))
      && (c in w.unsaved || (c in w.disk && (w.disk[c] == Completed(w.returned[c], false)
                                             || w.disk[c] == Completed(Trimmed(w.returned[c]), true))))
  {
    BeginsInv(w0);
    AgentRunInv(w0, steps);
    MeStays(w0, steps);
    var w := Run(w0, steps);
    var r :| (c, Outcome(true, r)) in w.sent && w.db.commands[c].result == Some(StoredResult(w.db.commands[c].kind, r));
  }

  lemma {:induction false} MeStays(w: World, steps: seq<AgentStep>)
    requires Possible(w, steps)
    ensures Run(w, steps).me == w.me
    decreases |steps|
  {
    if steps != [] { MeStays(Next(w, steps[0]), steps[1..]); }
  }

  /** Unless a journal write failed, every submission for a command, however often repeated, carries one outcome. */
  lemma OneOutcome(w0: World, steps: seq<AgentStep>, c: Id, o: Outcome, p: Outcome)
    requires Begins(w0) && Possible(w0, steps)
    requires (c, o) in Run(w0, steps).sent && (c, p) in Run(w0, steps).sent && c !in Run(w0, steps).unsaved
    ensures o == p
  {
    BeginsInv(w0);
    AgentRunInv(w0, steps);
  }

  // ---------------------------------------------------------------- refused results

  /** What the server needs to take a result: a size and characters it can store, and no other outcome before. */
  predicate Takes(commands: map<Id, Command>, c: Id, o: Outcome)
  {
    && c in commands && WithinSize(o.result)
    && if Terminal(commands[c].status) then Settled(commands, c, o) else Insertable(commands[c].kind, o.ok, o.result)
  }

  predicate KeepsLogsOnly(kind: CommandKind) { kind.ForOperation? && kind.operation == LogsKind }

  /** Never to be taken: it is too large, cannot be stored, or the command ended otherwise, as in the stale sweep. */
  predicate Refused(commands: map<Id, Command>, c: Id, o: Outcome)
  {
    && c in commands && commands[c].status != Pending
    && (!WithinSize(o.result)
        || (Terminal(commands[c].status) && !Recorded(commands, c, o))
        || (!KeepsLogsOnly(commands[c].kind) && !CleanResult(o.result)))
  }

  /** A waiting result the server does not take. */
  predicate Stuck(w: World, c: Id)
  {
    Undelivered(w.mem, c) && !Takes(w.db.commands, c, w.mem[c].outcome)
  }

  /** A waiting result it never takes, and which outlives a restart. */
  predicate Wedged(w: World, c: Id)
  {
    && Undelivered(w.mem, c) && Refused(w.db.commands, c, w.mem[c].outcome)
    && c in w.disk && w.disk[c] == w.mem[c]
  }

  /** The server takes a waiting result exactly then. */
  lemma AcceptedIff(w: World, c: Id)
    requires AgentInv(w) && Undelivered(w.mem, c)
    ensures Accepted(CompletionOf(w.db, w.me, c, w.mem[c].outcome.ok, w.mem[c].outcome.result)) <==> !Stuck(w, c)
    ensures Refused(w.db.commands, c, w.mem[c].outcome) ==> Stuck(w, c)
  {
    assert Known(w.me, w.db.commands, c);
  }

  lemma RefusedStays(commands: map<Id, Command>, commands': map<Id, Command>, c: Id, o: Outcome)
    requires Refused(commands, c, o) && Advanced(commands, commands')
    ensures Refused(commands', c, o)
  {
  }

  lemma RefusedServer(w: World, step: AgentStep, c: Id, o: Outcome)
    requires Inv(w.db) && Can(w, step) && Refused(w.db.commands, c, o)
    ensures Refused(Next(w, step).db.commands, c, o)
  {
    match step {
      case Server(s) => RefusedStep(w.db, s, c, o);
      case Poll(chosen, delivered, limit, now) => RefusedStep(w.db, Claim(w.me, chosen, limit, now), c, o);
      case Submit(answered) => RefusedSubmit(w, answered, c, o);
      case _ =>
    }
  }

  lemma RefusedSubmit(w: World, answered: bool, c: Id, o: Outcome)
    requires Inv(w.db) && Can(w, Submit(answered)) && Refused(w.db.commands, c, o)
    ensures Refused(SubmitStep(w, answered).db.commands, c, o)
  {
    var (d, p) := if w.at.Listed? then w.at.list[0] else (w.at.queue[0], w.at.outcome);
    RefusedStep(w.db, Complete(w.me, d, p.ok, p.result), c, o);
  }

  lemma RefusedStep(db: Db, step: Step, c: Id, o: Outcome)
    requires Inv(db) && Enabled(db, step) && Refused(db.commands, c, o)
    ensures Refused(Do(db, step).commands, c, o)
  {
    StepAdvances(db, step);
    RefusedStays(db.commands, Do(db, step).commands, c, o);
  }

  lemma StuckNeverPolls(w: World, step: AgentStep, c: Id)
    requires AgentInv(w) && Can(w, step) && Stuck(w, c)
    ensures !step.Poll?
  {
  }

  predicate SameRecord(w: World, w': World, c: Id)
  {
    && (c in w.mem ==> c in w'.mem && w'.mem[c] == w.mem[c])
    && (c in w.mem && c in w.disk && w.disk[c] == w.mem[c] ==> c in w'.disk && w'.disk[c] == w.mem[c])
  }

  lemma HandleElsewhere(w: World, write: Write, report: Result, c: Id)
    requires AgentInv(w) && Can(w, Handle(write, report)) && Stuck(w, c)
    ensures SameRecord(w, HandleStep(w, write, report), c)
  {
  }

  lemma ConfirmElsewhere(w: World, write: Write, c: Id)
    requires AgentInv(w) && Can(w, Confirm(write)) && Stuck(w, c)
    ensures SameRecord(w, ConfirmStep(w, write), c)
  {
    if w.at.ListAccepted? {
      MarkElsewhere(w, w.at.list[0].0, write, c);
    } else {
      MarkElsewhere(w, w.at.queue[0], write, c);
    }
  }

  /** Marking another result as delivered leaves this one's record. */
  lemma MarkElsewhere(w: World, d: Id, write: Write, c: Id)
    requires c != d
    ensures SameRecord(w, MarkDelivered(w, d, write), c)
  {
  }

  lemma StuckStep(w: World, step: AgentStep, c: Id)
    requires AgentInv(w) && Can(w, step) && Stuck(w, c) && !step.Crash?
    ensures SameRecord(w, Next(w, step), c)
  {
    match step {
      case Confirm(write) => ConfirmElsewhere(w, write, c);
      case Handle(write, report) => HandleElsewhere(w, write, report, c);
      case Save(_) =>
      case Submit(_) =>
      case _ =>
    }
  }

  /** While the agent is on its own, nothing happens to a command whose result is not taken. */
  lemma StuckCommand(w: World, step: AgentStep, c: Id)
    requires AgentInv(w) && Can(w, step) && Stuck(w, c) && !step.Server?
    ensures Next(w, step).db.commands == w.db.commands
         || (c in w.db.commands && c in Next(w, step).db.commands && Next(w, step).db.commands[c] == w.db.commands[c])
  {
    StuckNeverPolls(w, step, c);
    if step.Submit? {
      var (d, o) := if w.at.Listed? then w.at.list[0] else (w.at.queue[0], w.at.outcome);
      assert Undelivered(w.mem, d) && w.mem[d].outcome == o;
      if d == c { AcceptedIff(w, c); } else { OthersUntouched(w, d, o, c); }
    }
  }

  lemma OthersUntouched(w: World, c: Id, o: Outcome, e: Id)
    requires c != e
    ensures var commands' := CompleteCommand(w.db, w.me, c, o.ok, o.result).commands;
      (e in commands' <==> e in w.db.commands) && (e in commands' ==> commands'[e] == w.db.commands[e])
  {
  }

  lemma WedgedStep(w: World, step: AgentStep, c: Id)
    requires Inv(w.db) && AgentInv(w) && Can(w, step) && Wedged(w, c)
    ensures Inv(Next(w, step).db) && AgentInv(Next(w, step)) && Wedged(Next(w, step), c)
  {
    AgentStepInv(w, step);
    AcceptedIff(w, c);
    if !step.Crash? { StuckStep(w, step, c); }
    RefusedServer(w, step, c, w.mem[c].outcome);
  }

  /**
   * One durable result that the server refuses stops the agent for good: no run, not even one with restarts, ever
   * polls again.
   */
  lemma WedgedForever(w: World, steps: seq<AgentStep>, c: Id)
    requires Inv(w.db) && AgentInv(w) && Wedged(w, c) && Possible(w, steps)
    ensures Wedged(Run(w, steps), c)
    ensures forall i :: 0 <= i < |steps| ==> !steps[i].Poll?
  {
    forall v: World, step: AgentStep | (Inv(v.db) && AgentInv(v) && Wedged(v, c)) && Can(v, step)
      ensures Inv(Next(v, step).db) && AgentInv(Next(v, step)) && Wedged(Next(v, step), c) && !step.Poll?
    {
      AcceptedIff(v, c);
      StuckNeverPolls(v, step, c);
      WedgedStep(v, step, c);
    }
    RunAvoids((v: World) => Inv(v.db) && AgentInv(v) && Wedged(v, c), (step: AgentStep) => step.Poll?, w, steps);
  }

  lemma {:induction false} RunAvoids(keeps: World -> bool, bad: AgentStep -> bool, w: World, steps: seq<AgentStep>)
    requires keeps(w) && Possible(w, steps)
    requires forall v: World, step: AgentStep :: keeps(v) && Can(v, step) ==> keeps(Next(v, step)) && !bad(step)
    ensures keeps(Run(w, steps)) && forall i :: 0 <= i < |steps| ==> !bad(steps[i])
    decreases |steps|
  {
    if steps != [] { RunAvoids(keeps, bad, Next(w, steps[0]), steps[1..]); }
  }

  /** Any execution that outlives the completion window and then reports something new ends there. */
  lemma OverlongExecutionWedges(w: World, rows: seq<Id>, before: int, now: int, o: Outcome)
    requires Inv(w.db) && AgentInv(w) && w.at.Executing? && StaleRows(w.db, rows, before, now) && w.at.queue[0] in rows
    requires o.ok
    ensures var steps := [Server(Sweep(rows, before, now)), Return(o), Save(Kept)];
      Possible(w, steps) && Wedged(Run(w, steps), w.at.queue[0])
  {
    var c := w.at.queue[0];
    var swept := Next(w, Server(Sweep(rows, before, now)));
    SweptCommand(w.db, rows, before, now, c);
    ReturnAndSave(swept, o);
    assert Possible(swept, [Return(o), Save(Kept)]);
  }

  lemma ReturnAndSave(w: World, o: Outcome)
    requires w.at.Executing? && w.at.queue != []
    ensures Possible(w, [Return(o), Save(Kept)])
    ensures var w', c := Run(w, [Return(o), Save(Kept)]), w.at.queue[0];
      w'.db == w.db && w'.mem == w.mem[c := Completed(o, false)] && w'.disk == w'.mem
  {
    var returned := Next(w, Return(o));
    var saved := Next(returned, Save(Kept));
    assert Possible(saved, []) && Run(saved, []) == saved;
    assert Possible(returned, [Save(Kept)]) && Run(returned, [Save(Kept)]) == saved;
  }

  lemma {:induction false} RunConcat(w: World, first: seq<AgentStep>, rest: seq<AgentStep>)
    requires Possible(w, first) && Possible(Run(w, first), rest)
    ensures Possible(w, first + rest) && Run(w, first + rest) == Run(Run(w, first), rest)
    decreases |first|
  {
    if first == [] {
      assert first + rest == rest;
    } else {
      assert (first + rest)[1..] == first[1..] + rest;
      RunConcat(Next(w, first[0]), first[1..], rest);
    }
  }

  lemma ClaimOnly(db: Db, agent: Id, cmd: Id, now: int)
    requires cmd in db.commands
    ensures var after := ClaimAll(db, agent, [cmd], now).commands;
      && after.Keys == db.commands.Keys && after[cmd].status == Claimed
      && after[cmd].kind == db.commands[cmd].kind && after[cmd].createdAt == db.commands[cmd].createdAt
  {
    assert [cmd][..0] == [];
    assert ClaimAll(db, agent, [], now) == db;
    assert ClaimAll(db, agent, [cmd], now) == ClaimOne(db, agent, cmd, now);
  }

  lemma RunOne(w: World, step: AgentStep, w': World, rest: seq<AgentStep>)
    requires Can(w, step) && w' == Next(w, step) && Possible(w', rest)
    ensures Possible(w, [step] + rest) && Run(w, [step] + rest) == Run(w', rest)
  {
    assert ([step] + rest)[1..] == rest;
  }

  /** A deployment queued for a newly enrolled agent. */
  lemma QueuedReachable(me: Id) returns (w0: World, steps: seq<AgentStep>)
    ensures Begins(w0) && Possible(w0, steps)
    ensures Run(w0, steps) == w0.(db := Run(w0, steps).db) && w0.me == me
    ensures Run(w0, steps).db.commands == map[1 := NewCommand(me, ForOperation(RunKind, 2), 0)]
  {
    var db := Db(Inventory(map[me := true], map[], map[]), map[], map[], map[], map[], [], 0);
    w0 := World(me, db, map[], map[], Top, {}, multiset{}, map[], map[], {});
    var made, revised :=
      Server(NewDeployment(7, me)), Server(SetInventory(Inventory(map[me := true], map[], map[9 := 7])));
    var queued := Server(NewRun(7, 9, Deploy, 1, 2, 0));
    var w1 := Next(w0, made);
    var w2 := Next(w1, revised);
    var w3 := Next(w2, queued);
    RunOne(w2, queued, w3, []);
    RunOne(w1, revised, w2, [queued] + []);
    RunOne(w0, made, w1, [revised] + ([queued] + []));
    steps := [made] + ([revised] + ([queued] + []));
  }

  /** The agent is away for almost a day, and its next poll brings the deployment. */
  lemma PolledReachable(me: Id) returns (w0: World, steps: seq<AgentStep>)
    ensures Begins(w0) && Possible(w0, steps)
    ensures var w := Run(w0, steps);
      && w.at == Batch([1]) && w.mem == map[] && StaleRows(w.db, [1], 1, DAY + 1)
      && 1 in w.db.commands && w.db.commands[1].kind == ForOperation(RunKind, 2)
  {
    var first;
    w0, first := QueuedReachable(me);
    var w := Run(w0, first);
    var list, poll := ListPending([]), Poll([1], [1], 1, DAY - 1);
    var listed := Next(w, list);
    var polled := Next(listed, poll);
    ClaimOnly(listed.db, me, 1, DAY - 1);
    assert polled.db.commands[1].createdAt == 0 && Stale(polled.db.commands[1], 1, DAY + 1);
    RunOne(listed, poll, polled, []);
    RunOne(w, list, listed, [poll] + []);
    steps := first + ([list] + ([poll] + []));
    RunConcat(w0, first, [list] + ([poll] + []));
  }

  /** The completion window of operations. */
  const DAY := 86_400

  /** An agent that is executing it. */
  lemma ExecutingReachable(me: Id, report: Result) returns (w0: World, steps: seq<AgentStep>)
    ensures Begins(w0) && Possible(w0, steps)
    ensures Run(w0, steps).at == Executing([1]) && StaleRows(Run(w0, steps).db, [1], 1, DAY + 1)
    ensures 1 in Run(w0, steps).db.commands && Run(w0, steps).db.commands[1].kind == ForOperation(RunKind, 2)
  {
    var first;
    w0, first := PolledReachable(me);
    var w := Run(w0, first);
    var handled := Next(w, Handle(Kept, report));
    var started := Next(handled, Start);
    RunOne(handled, Start, started, []);
    RunOne(w, Handle(Kept, report), handled, [Start] + []);
    steps := first + ([Handle(Kept, report)] + ([Start] + []));
    RunConcat(w0, first, [Handle(Kept, report)] + ([Start] + []));
  }

  /** A newly enrolled agent can end up there: its first deployment outlives the window of a day, and then succeeds. */
  lemma WedgeIsReachable(me: Id, o: Outcome) returns (w0: World, steps: seq<AgentStep>)
    requires o.ok
    ensures Begins(w0) && Possible(w0, steps) && Wedged(Run(w0, steps), 1)
  {
    var first;
    w0, first := ExecutingReachable(me, o.result);
    BeginsInv(w0);
    AgentRunInv(w0, first);
    var w := Run(w0, first);
    assert 1 in [1];
    OverlongExecutionWedges(w, [1], 1, DAY + 1, o);
    var rest := [Server(Sweep([1], 1, DAY + 1)), Return(o), Save(Kept)];
    RunConcat(w0, first, rest);
    steps := first + rest;
  }

  /** So does an execution that returns what the server cannot store, without any delay. */
  lemma UnstorableResultWedges(w: World, o: Outcome)
    requires AgentInv(w) && w.at.Executing?
    requires !WithinSize(o.result) || (!KeepsLogsOnly(w.db.commands[w.at.queue[0]].kind) && !CleanResult(o.result))
    ensures Possible(w, [Return(o), Save(Kept)]) && Wedged(Run(w, [Return(o), Save(Kept)]), w.at.queue[0])
  {
    ReturnAndSave(w, o);
    assert Known(w.me, w.db.commands, w.at.queue[0]);
  }

  /** A NUL character in the output of a newly enrolled agent's first deployment is enough. */
  lemma UnstorableIsReachable(me: Id, o: Outcome) returns (w0: World, steps: seq<AgentStep>)
    requires '\0' in o.result.output
    ensures Begins(w0) && Possible(w0, steps) && Wedged(Run(w0, steps), 1)
    ensures Run(w0, steps).db.commands[1].kind == ForOperation(RunKind, 2)
  {
    var first;
    w0, first := ExecutingReachable(me, o.result);
    BeginsInv(w0);
    AgentRunInv(w0, first);
    var w := Run(w0, first);
    assert !Clean(o.result.output);
    UnstorableResultWedges(w, o);
    ReturnAndSave(w, o);
    RunConcat(w0, first, [Return(o), Save(Kept)]);
    steps := first + [Return(o), Save(Kept)];
  }

  lemma SweptCommand(db: Db, rows: seq<Id>, before: int, now: int, c: Id)
    requires StaleRows(db, rows, before, now) && c in rows
    ensures var row := Do(db, Sweep(rows, before, now)).commands; c in row && row[c].status == Failed
  {
    RowsKnown(db, rows, before, now);
    var i :| 0 <= i < |rows| && rows[i] == c;
    FailedAll(db, rows, i);
  }

  lemma {:induction false} FailedAll(db: Db, rows: seq<Id>, i: nat)
    requires forall i :: 0 <= i < |rows| ==> rows[i] in db.commands
    requires i < |rows|
    ensures FailAll(db, rows).commands[rows[i]].status == Failed
  {
    var last := |rows| - 1;
    if i < last { FailedAll(db, rows[..last], i); }
    FailOneFrame(FailAll(db, rows[..last]), rows[last]);
  }

  predicate Calm(step: AgentStep) { !step.Server? && !step.Crash? }

  lemma CalmStuckStep(w: World, step: AgentStep, c: Id)
    requires Inv(w.db) && AgentInv(w) && Can(w, step) && Stuck(w, c) && Calm(step)
    ensures Inv(Next(w, step).db) && AgentInv(Next(w, step)) && Stuck(Next(w, step), c)
  {
    AgentStepInv(w, step);
    StuckStep(w, step, c);
    StuckCommand(w, step, c);
    assert Known(w.me, w.db.commands, c);
  }

  lemma StuckStays(w: World, steps: seq<AgentStep>, c: Id)
    requires Inv(w.db) && AgentInv(w) && Stuck(w, c) && Possible(w, steps)
    requires forall i :: 0 <= i < |steps| ==> Calm(steps[i])
    ensures AgentInv(Run(w, steps)) && Stuck(Run(w, steps), c)
  {
    forall v: World, step: AgentStep | (Inv(v.db) && AgentInv(v) && Stuck(v, c)) && Can(v, step) && Calm(step)
      ensures Inv(Next(v, step).db) && AgentInv(Next(v, step)) && Stuck(Next(v, step), c)
    {
      CalmStuckStep(v, step, c);
    }
    AgentRunKeeps((v: World) => Inv(v.db) && AgentInv(v) && Stuck(v, c), (step: AgentStep) => Calm(step), w, steps);
  }

  ghost predicate PollsAgain(w: World, steps: seq<AgentStep>)
  {
    Possible(w, steps) && (forall i :: 0 <= i < |steps| ==> Calm(steps[i])) && Run(w, steps).at == Listed([])
  }

  /** The agent can get from the top of its loop to the next poll exactly when no waiting result is refused. */
  lemma PollsAgainIff(w: World)
    requires Inv(w.db) && AgentInv(w) && w.at == Top
    ensures (exists steps :: PollsAgain(w, steps)) <==> forall c :: !Stuck(w, c)
  {
    if steps :| PollsAgain(w, steps) {
      forall c ensures !Stuck(w, c) {
        if Stuck(w, c) { StuckStays(w, steps, c); }
      }
    }
    if forall c :: !Stuck(w, c) {
      var steps := Deliver(w);
    }
  }

  lemma Deliver(w: World) returns (steps: seq<AgentStep>)
    requires Inv(w.db) && AgentInv(w) && w.at == Top && forall c :: !Stuck(w, c)
    ensures PollsAgain(w, steps)
  {
    var list := PendingOf(w.mem);
    var w' := Next(w, ListPending(list));
    AgentStepInv(w, ListPending(list));
    forall c ensures !Stuck(w', c) {
      assert !Stuck(w, c);
    }
    var rest := Drain(w');
    steps := [ListPending(list)] + rest;
    Prefixed(w, ListPending(list), rest);
  }

  lemma Prefixed(w: World, step: AgentStep, rest: seq<AgentStep>)
    requires Can(w, step) && Calm(step) && PollsAgain(Next(w, step), rest)
    ensures PollsAgain(w, [step] + rest)
  {
    assert ([step] + rest)[1..] == rest;
  }

  ghost predicate ListsWithin(mem: Journal, list: seq<(Id, Outcome)>, within: set<Id>)
  {
    && (forall i :: 0 <= i < |list| ==>
        list[i].0 in within && list[i].0 in mem && mem[list[i].0] == Completed(list[i].1, false))
    && (forall i, j :: 0 <= i < j < |list| ==> list[i].0 != list[j].0)
    && (forall c :: c in within && Undelivered(mem, c) ==> (c, mem[c].outcome) in list)
  }

  lemma ListsOneMore(mem: Journal, list: seq<(Id, Outcome)>, within: set<Id>, c: Id)
    requires ListsWithin(mem, list, within) && c in mem && c !in within
    ensures ListsWithin(mem, if Undelivered(mem, c) then list + [(c, mem[c].outcome)] else list, within + {c})
  {
  }

  lemma PendingOf(mem: Journal) returns (list: seq<(Id, Outcome)>)
    ensures Lists(mem, list)
  {
    list := [];
    var left, within: set<Id> := mem.Keys, {};
    while left != {}
      invariant left !! within && left + within == mem.Keys && ListsWithin(mem, list, within)
      decreases |left|
    {
      var c :| c in left;
      ListsOneMore(mem, list, within, c);
      if Undelivered(mem, c) { list := list + [(c, mem[c].outcome)]; }
      left, within := left - {c}, within + {c};
    }
    assert within == mem.Keys;
  }

  lemma HeadDelivered(w: World)
    requires w.at.Listed? && w.at.list != [] && Undelivered(w.mem, w.at.list[0].0)
      && w.mem[w.at.list[0].0].outcome == w.at.list[0].1
    requires Admitted(w, w.at.list[0].0, w.at.list[0].1, true)
    ensures var (c, o) := w.at.list[0];
      && Can(SubmitStep(w, true), Confirm(Kept))
      && var noted := ConfirmStep(SubmitStep(w, true), Kept);
      && noted.at == Listed(w.at.list[1..]) && noted.mem == w.mem[c := Completed(Trimmed(o), true)]
      && noted.db == CompleteCommand(w.db, w.me, c, o.ok, o.result)
  {
  }

  /** One accepted delivery leaves a shorter round and no refused result. */
  lemma DeliverHead(w: World) returns (noted: World)
    requires Inv(w.db) && AgentInv(w) && w.at.Listed? && w.at.list != [] && forall c :: !Stuck(w, c)
    ensures Can(w, Submit(true)) && Can(Next(w, Submit(true)), Confirm(Kept))
    ensures noted == Next(Next(w, Submit(true)), Confirm(Kept))
    ensures Inv(noted.db) && AgentInv(noted) && noted.at == Listed(w.at.list[1..])
    ensures forall c :: !Stuck(noted, c)
  {
    var (c, o) := w.at.list[0];
    AcceptedIff(w, c);
    HeadDelivered(w);
    var told := SubmitStep(w, true);
    AgentStepInv(w, Submit(true));
    noted := ConfirmStep(told, Kept);
    AgentStepInv(told, Confirm(Kept));
    NoneStuck(w, c, o, noted);
  }

  lemma NoneStuck(w: World, c: Id, o: Outcome, noted: World)
    requires forall e :: !Stuck(w, e)
    requires noted.mem == w.mem[c := Completed(Trimmed(o), true)]
      && noted.db == CompleteCommand(w.db, w.me, c, o.ok, o.result)
    ensures forall e :: !Stuck(noted, e)
  {
    forall e ensures !Stuck(noted, e) {
      assert !Stuck(w, e);
      if e != c { OthersUntouched(w, c, o, e); }
    }
  }

  lemma Drain(w: World) returns (steps: seq<AgentStep>)
    requires Inv(w.db) && AgentInv(w) && w.at.Listed? && forall c :: !Stuck(w, c)
    ensures PollsAgain(w, steps)
    decreases if w.at.Listed? then |w.at.list| else 0
  {
    if w.at.list == [] { return []; }
    var noted := DeliverHead(w);
    var rest := Drain(noted);
    Prefixed(Next(w, Submit(true)), Confirm(Kept), rest);
    Prefixed(w, Submit(true), [Confirm(Kept)] + rest);
    steps := [Submit(true)] + ([Confirm(Kept)] + rest);
  }

  // ---------------------------------------------------------------- the loop's code

  /** What goes wrong while one command is handled, or one result delivered. */
  datatype Luck = Luck(mark: Write, report: Result, outcome: Outcome, save: Write, answered: bool, confirm: Write)

  lemma {:induction false} RunAppend(w: World, steps: seq<AgentStep>, step: AgentStep)
    requires Possible(w, steps) && Can(Run(w, steps), step)
    ensures Possible(w, steps + [step]) && Run(w, steps + [step]) == Next(Run(w, steps), step)
    decreases |steps|
  {
    if steps == [] {
      assert ([step] + [])[1..] == [];
      assert steps + [step] == [step];
    } else {
      RunAppend(Next(w, steps[0]), steps[1..], step);
      assert (steps + [step])[1..] == steps[1..] + [step];
    }
  }

  ghost predicate Reaches(w: World, w': World)
  {
    exists steps :: Possible(w, steps) && Run(w, steps) == w'
  }

  lemma ReachesNext(w: World, w': World, step: AgentStep)
    requires Reaches(w, w') && Can(w', step)
    ensures Reaches(w, Next(w', step))
  {
    var steps :| Possible(w, steps) && Run(w, steps) == w';
    RunAppend(w, steps, step);
  }

  lemma ReachesSelf(w: World)
    ensures Reaches(w, w)
  {
    assert Possible(w, []) && Run(w, []) == w;
  }

  lemma ReachesTrans(u: World, v: World, w: World)
    requires Reaches(u, v) && Reaches(v, w)
    ensures Reaches(u, w)
  {
    var steps :| Possible(v, steps) && Run(v, steps) == w;
    ReachesAll(u, v, steps);
  }

  lemma {:induction false} ReachesAll(u: World, v: World, steps: seq<AgentStep>)
    requires Reaches(u, v) && Possible(v, steps)
    ensures Reaches(u, Run(v, steps))
    decreases |steps|
  {
    if steps != [] {
      ReachesNext(u, v, steps[0]);
      ReachesAll(u, Next(v, steps[0]), steps[1..]);
    }
  }

  lemma RestListed(mem: Journal, mem': Journal, list: seq<(Id, Outcome)>)
    requires list != [] && Lists(mem, list)
    requires mem' == mem[list[0].0 := Completed(Trimmed(list[0].1), true)]
    ensures Lists(mem', list[1..])
  {
    forall c | c in mem' && mem'[c].Completed? && !mem'[c].delivered ensures (c, mem'[c].outcome) in list[1..] {
      assert (c, mem[c].outcome) in list;
    }
  }

  /** The agent process; `w` follows its journal, the server it talks to, and where its loop stands. */
  class Agent {
    const me: Id
    var mem: Journal
    var disk: Journal
    var db: Db
    ghost var w: World

    ghost predicate Valid()
      reads this
    {
      w.me == me && w.mem == mem && w.disk == disk && w.db == db
    }

    ghost method Follow(step: AgentStep)
      requires Can(w, step)
      modifies this`w
      ensures w == Next(old(w), step)
      ensures forall v :: Reaches(v, old(w)) ==> Reaches(v, w)
    {
      forall v | Reaches(v, w) ensures Reaches(v, Next(w, step)) {
        ReachesNext(v, w, step);
      }
      w := Next(w, step);
    }

    method Persist(c: Id, record: Record, write: Write) returns (ok: bool)
      modifies this`mem, this`disk
      ensures mem == old(mem)[c := record] && disk == (if write == Forgotten then old(disk) else mem)
        && ok == (write == Kept)
    {
      mem := mem[c := record];
      if write != Forgotten { disk := mem; }
      ok := write == Kept;
    }

    method SubmitResult(c: Id, o: Outcome, answered: bool) returns (ok: bool)
      modifies this`db
      ensures db == if answered then CompleteCommand(old(db), me, c, o.ok, o.result) else old(db)
      ensures ok == (answered && Accepted(CompletionOf(old(db), me, c, o.ok, o.result)))
    {
      ok := answered && Accepted(CompletionOf(db, me, c, o.ok, o.result));
      if answered { db := CompleteCommand(db, me, c, o.ok, o.result); }
    }

    /** True exactly when the server took the result and the journal noted it. */
    method DeliverResult(c: Id, o: Outcome, luck: Luck) returns (ok: bool)
      requires Valid() && c in mem && mem[c].Completed? && mem[c].outcome == o
      requires (w.at.Delivering? && w.at.queue != [] && w.at.queue[0] == c && w.at.outcome == o)
            || (w.at.Listed? && w.at.list != [] && w.at.list[0] == (c, o))
      modifies this
      ensures Valid() && Reaches(old(w), w) && w.starts == old(w).starts
      ensures var taken := luck.answered && Accepted(CompletionOf(old(db), me, c, o.ok, o.result));
        && (ok <==> taken && luck.confirm == Kept)
        && mem == if taken then old(mem)[c := Completed(Trimmed(o), true)] else old(mem)
      ensures db == if luck.answered then CompleteCommand(old(db), me, c, o.ok, o.result) else old(db)
      ensures w.at == if old(w).at.Delivering? then Batch(old(w).at.queue[1..])
        else if ok then Listed(old(w).at.list[1..]) else Top
    {
      ReachesSelf(w);
      var taken := SubmitResult(c, o, luck.answered);
      Follow(Submit(luck.answered));
      if !taken { return false; }
      ok := Persist(c, Completed(Trimmed(o), true), luck.confirm);
      Follow(Confirm(luck.confirm));
    }

    /** A delivery round: it ends at the next poll exactly when every waiting result was taken and noted. */
    method DeliverPending(list: seq<(Id, Outcome)>, luck: seq<Luck>) returns (ok: bool)
      requires Valid() && w.at == Top && Lists(mem, list) && |luck| == |list|
      modifies this
      ensures Valid() && Reaches(old(w), w) && w.starts == old(w).starts
      ensures w.at == if ok then Listed([]) else Top
      ensures ok ==> forall c :: !Undelivered(mem, c)
    {
      ReachesSelf(w);
      Follow(ListPending(list));
      var i := 0;
      while i < |list|
        invariant 0 <= i <= |list| && Valid() && w.at == Listed(list[i..]) && Lists(mem, list[i..])
        invariant Reaches(old(w), w) && w.starts == old(w).starts
      {
        ghost var before := w;
        var noted := DeliverResult(list[i].0, list[i].1, luck[i]);
        ReachesTrans(old(w), before, w);
        if !noted { return false; }
        assert list[i..][1..] == list[i + 1..];
        RestListed(before.mem, mem, list[i..]);
        i := i + 1;
      }
      ok := true;
    }

    /** Executes a new command; delivers, or fails as interrupted, one it has met before. */
    method HandleCommand(c: Id, luck: Luck) returns (executed: bool)
      requires Valid() && w.at.Batch? && w.at.queue != [] && c == w.at.queue[0]
      modifies this
      ensures Valid() && Reaches(old(w), w) && w.at == Batch(old(w).at.queue[1..])
      ensures executed <==> c !in old(mem) && luck.mark == Kept
      ensures w.starts == if executed then old(w).starts + multiset{c} else old(w).starts
    {
      ReachesSelf(w);
      if c in mem {
        executed := false;
        if mem[c].Completed? {
          var o := mem[c].outcome;
          Follow(Handle(luck.mark, luck.report));
          ghost var before := w;
          var ok := DeliverResult(c, o, luck);
          ReachesTrans(old(w), before, w);
        } else {
          FinishCommand(c, Outcome(false, luck.report), luck.mark, luck);
        }
      } else {
        executed := Persist(c, Running, luck.mark);
        Follow(Handle(luck.mark, luck.report));
        if executed {
          Follow(Start);
          Follow(Return(luck.outcome));
          ghost var before := w;
          FinishCommand(c, luck.outcome, luck.save, luck);
          ReachesTrans(old(w), before, w);
        }
      }
    }

    /** Journals a result, then delivers it. */
    method FinishCommand(c: Id, o: Outcome, write: Write, luck: Luck)
      requires Valid() && HasRunning(mem, c)
      requires (w.at.Saving? && w.at.outcome == o && write == luck.save)
        || (w.at.Batch? && o == Outcome(false, luck.report) && write == luck.mark)
      requires w.at.queue != [] && c == w.at.queue[0]
      modifies this
      ensures Valid() && Reaches(old(w), w) && w.at == Batch(old(w).at.queue[1..]) && w.starts == old(w).starts
    {
      ReachesSelf(w);
      var ok := Persist(c, Completed(o, false), write);
      if w.at.Saving? { Follow(Save(write)); } else { Follow(Handle(write, luck.report)); }
      ghost var before := w;
      if ok {
        ok := DeliverResult(c, o, luck);
        ReachesTrans(old(w), before, w);
      }
    }
  }
}
