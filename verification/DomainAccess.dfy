/**
 * Reconciling one hostname's DNS records and tunnel ingress with its domain access. Cloudflare calls and writes to the
 * store may fail before or after taking effect, the process may die at any of them, and the access may be changed in
 * between.
 */
module DomainAccess {
  import opened Common
  import Ingress

  datatype RecordKind = A | AAAA | CNAME

  /** A DNS record of the hostname; `marked` says its comment is this access's ownership marker. */
  datatype Record = Record(kind: RecordKind, content: string, proxied: bool, marked: bool)
  datatype Item = Item(kind: RecordKind, content: string)

  datatype RowStatus = ActiveRow | CleanupPending | DeletedRow
  datatype Row = Row(item: Item, status: RowStatus)

  datatype AccessStatus = Pending | Active | Failed | Disabled

  /** What becomes of a call or a write: it works, fails before or after its effect, or the process dies. */
  datatype Fate = Fine | LostBefore | LostAfter | DiesBefore | DiesAfter
  /** What others do to the access: setDomainAccessPending, or a verification of its HTTPS that stores the outcome. */
  datatype Change = Changed(enabled: bool) | Verified(ok: bool)

  /** What happens at one step of the attempts: the changes just before it, and what becomes of it. */
  datatype Moment = Moment(changes: seq<Change>, fate: Fate)

  /**
   * The steps: waiting for the next attempt, storing a record as owned, any other write to the store, a create, its
   * look-up, a deletion, any other call.
   */
  datatype Step = Wait | Save(id: Id) | Store | Create | LookUp | Delete(id: Id) | Remote

  datatype Reply = Ok | NotFound | Lost | Dead

  /** The answer of a revision-fenced write: written, refused for its revision or a missing row, failed, or none. */
  datatype Written = Saved | Refused | Broke | Stopped

  /** `Aborted`: a write failed while the attempt was being undone or refused, and the rest was left. */
  datatype Verdict = Done | Superseded | Conflict | Unreachable | Mismatch | Invalid | Aborted | Died

  /** How the undoing of an attempt ends. */
  datatype Ending = Finished | Abandoned | Killed

  /** The effect does not happen. */
  predicate Before(fate: Fate) { fate.LostBefore? || fate.DiesBefore? }

  function WrittenAs(fate: Fate, hit: bool): Written
  {
    match fate
    case Fine => if hit then Saved else Refused
    case LostBefore => Broke
    case LostAfter => Broke
    case _ => Stopped
  }

  type Records = map<Id, Record>
  type Rows = map<Id, Row>

  predicate Same(a: Item, b: Item) { a.kind == b.kind && Lower(a.content) == Lower(b.content) }

  predicate Live(rows: Rows, id: Id) { id in rows && rows[id].status != DeletedRow }

  /** Rows that are not deleted, as the attempt holds them. */
  ghost predicate Tracks(owned: map<Id, Item>, rows: Rows)
  {
    forall id :: (id in owned <==> Live(rows, id)) && (id in owned ==> owned[id] == rows[id].item)
  }

  function Owned(rows: Rows): (owned: map<Id, Item>)
    ensures Tracks(owned, rows) && (rows == map[] ==> owned == map[])
  {
    map id | id in rows && rows[id].status != DeletedRow :: rows[id].item
  }

  class Access {
    const proxied: bool
    const tunnel: bool
    const hostname: string
    const desired: seq<Item>
    const weather: nat -> Moment   // what happens at each step
    var log: seq<Step>
    var remote: Records
    var nextId: Id
    var ingress: seq<Ingress.Rule>
    var rows: Rows
    var revision: nat
    var enabled: bool
    var status: AccessStatus
    ghost var author: Option<nat>  // the revision whose attempt wrote the status, unless others wrote it last
    ghost var outside: AccessStatus  // the status others wrote last
    ghost var frozen: Rows         // the rows when the revision last changed

    constructor (proxied: bool, tunnel: bool, hostname: string, desired: seq<Item>, weather: nat -> Moment)
      ensures this.proxied == proxied && this.tunnel == tunnel && this.hostname == hostname && this.desired == desired
      ensures this.weather == weather && log == [] && remote == map[] && rows == map[] && revision == 1 && enabled
        && Between()
    {
      this.proxied, this.tunnel, this.hostname, this.desired, this.weather :=
        proxied, tunnel, hostname, desired, weather;
      log, remote, nextId, ingress, rows, revision, enabled := [], map[], 0, [], map[], 1, true;
      status, author, outside, frozen := Pending, None, Pending, map[];
    }

    function ItemOf(r: Record): Item { Item(r.kind, r.content) }

    /** An owned item that has a record's content has its type. */
    ghost predicate OwnedTyped(owned: map<Id, Item>, remote: Records)
    {
      forall id :: id in owned && id in remote && Lower(remote[id].content) == Lower(owned[id].content) ==>
        remote[id].kind == owned[id].kind
    }

    /** The record a create makes. */
    function Made(item: Item): Record { Record(item.kind, item.content, proxied, true) }

    predicate Wanted(item: Item) { exists d :: d in desired && Same(d, item) }
    predicate WantedKind(kind: RecordKind) { exists d :: d in desired && d.kind == kind }

    predicate Adoptable(r: Record)
    {
      Wanted(ItemOf(r)) && r.proxied == proxied && r.marked
    }

    /** Stored as owned, or recognised by its marker. */
    predicate Mine(remote: Records, rows: Rows, id: Id)
    {
      Live(rows, id) || (id in remote && Adoptable(remote[id]))
    }

    /** A record of a desired type that an attempt must not touch. */
    ghost predicate Foreign(remote: Records, rows: Rows, id: Id)
    {
      id in remote && WantedKind(remote[id].kind) && !Mine(remote, rows, id)
    }

    ghost predicate AnyForeign(remote: Records, rows: Rows) { exists id :: Foreign(remote, rows, id) }

    /**
     * What an attempt may have done to the records it found: only its own may be gone, the others are as they were,
     * what is new carries the marker, and nothing it owned has become foreign.
     */
    ghost predicate Frame(before: Records, rowsBefore: Rows, remote: Records, rows: Rows)
    {
      && (forall id {:trigger remote[id]} :: id in before && id in remote ==> remote[id] == before[id])
      && (forall id {:trigger Mine(before, rowsBefore, id)} :: id in before && id !in remote ==>
          Mine(before, rowsBefore, id))
      && (forall id {:trigger Adoptable(remote[id])} :: id in remote && id !in before ==> Adoptable(remote[id]))
      && (forall id {:trigger Mine(remote, rows, id)} ::
          id in remote && id in before && Mine(before, rowsBefore, id) ==> Mine(remote, rows, id))
    }

    /** A status that no attempt wrote was written by others; one that an attempt wrote is of the current revision. */
    ghost predicate Authored()
      reads this
    {
      if author.Some? then author.value == revision else status == outside
    }

    /** An attempt of revision `rev` that has been superseded has left rows and status alone since. */
    ghost predicate Fence(rev: nat)
      reads this
    {
      rev <= revision && Authored() && (rev < revision ==> rows == frozen && author.None?)
    }

    /** All an attempt keeps at every step. */
    ghost predicate Steady(rev: nat, before: Records, rowsBefore: Rows)
      reads this
    {
      Fence(rev) && Ids(remote, rows, nextId) && Typed(remote, rows) && Frame(before, rowsBefore, remote, rows)
    }

    /** Steps and revisions only grow, the revisions as the script says, and the access is only changed with them. */
    twostate predicate Onward()
      reads this
    {
      && old(log) <= log && Troubles(|old(log)|) <= Troubles(|log|)
      && old(revision) <= revision && revision - old(revision) == Turns(|log|) - Turns(|old(log)|)
      && (revision == old(revision) ==> enabled == old(enabled)) && (Calm() ==> revision == old(revision))
    }

    /** Onward, no record was lost sight of, and none failed to be stored. */
    twostate predicate Quiet()
      reads this
    {
      Onward() && Losses(log) == Losses(old(log)) && Unsaved(log) == Unsaved(old(log))
    }

    /** Only the last step may have failed to store a record, and then it is not done. */
    twostate predicate Storing(done: bool)
      reads this
    {
      Unsaved(log) == Unsaved(old(log))
      || (!done && Unsaved(log) == Unsaved(old(log)) + 1 && FailedSave(log, |log| - 1))
    }

    /** Onward, no record was lost sight of, and Storing. */
    twostate predicate Adopting(done: bool)
      reads this
    {
      Onward() && Losses(log) == Losses(old(log)) && Storing(done)
    }

    twostate predicate Calm()
      reads this
    {
      Troubles(|log|) == Troubles(|old(log)|)
    }

    // ------------------------------------------------------------ what the script says

    function Revisions(changes: seq<Change>): nat
    {
      if changes == [] then 0
      else Revisions(changes[..|changes| - 1]) + if changes[|changes| - 1].Changed? then 1 else 0
    }

    /** Neither a failure nor a new revision. */
    predicate Fair(k: nat) { weather(k).fate.Fine? && Revisions(weather(k).changes) == 0 }

    ghost predicate FairWithin(from: nat, to: nat) { forall k :: from <= k < to ==> Fair(k) }

    function Troubles(n: nat): nat
    {
      if n == 0 then 0 else Troubles(n - 1) + if Fair(n - 1) then 0 else 1
    }

    /** New revisions before step `n`. */
    function Turns(n: nat): nat
    {
      if n == 0 then 0 else Turns(n - 1) + Revisions(weather(n - 1).changes)
    }

    lemma {:induction false} CalmIff(from: nat, to: nat)
      requires from <= to
      ensures Troubles(from) <= Troubles(to) && (Troubles(from) == Troubles(to) <==> FairWithin(from, to))
    {
      if from < to { CalmIff(from, to - 1); }
    }

    predicate Failing(k: nat) { weather(k).fate.LostBefore? || weather(k).fate.LostAfter? }

    /** A create that took effect without an answer, and whose look-up failed as well. */
    predicate Orphaning(log: seq<Step>, k: nat)
    {
      0 < k < |log| && log[k - 1].Create? && weather(k - 1).fate.LostAfter? && log[k].LookUp? && Failing(k)
    }

    /** A record that is not stored because of a failure. */
    predicate FailedSave(log: seq<Step>, k: int)
    {
      0 <= k < |log| && log[k].Save? && weather(k).fate.LostBefore?
    }

    function Unsaved(log: seq<Step>): nat
    {
      if log == [] then 0 else Unsaved(log[..|log| - 1]) + if FailedSave(log, |log| - 1) then 1 else 0
    }

    lemma {:induction false} UnsavedIff(earlier: seq<Step>, log: seq<Step>)
      requires earlier <= log
      ensures Unsaved(earlier) <= Unsaved(log)
      ensures Unsaved(earlier) < Unsaved(log) <==> exists k :: |earlier| <= k < |log| && FailedSave(log, k)
    {
      if |earlier| < |log| {
        var shorter := log[..|log| - 1];
        UnsavedIff(earlier, shorter);
        assert forall k :: 0 <= k < |shorter| ==> (FailedSave(shorter, k) <==> FailedSave(log, k));
      } else {
        assert earlier == log;
      }
    }

    function Losses(log: seq<Step>): nat
    {
      if log == [] then 0 else Losses(log[..|log| - 1]) + if Orphaning(log, |log| - 1) then 1 else 0
    }

    lemma LossesNext(log: seq<Step>, step: Step)
      ensures Losses(log + [step]) == Losses(log) + if Orphaning(log + [step], |log|) then 1 else 0
      ensures Unsaved(log + [step]) == Unsaved(log) + if FailedSave(log + [step], |log|) then 1 else 0
    {
      assert (log + [step])[..|log|] == log;
    }

    lemma CalmFrom(from: nat)
      ensures forall to :: from <= to ==> (Troubles(from) == Troubles(to) <==> FairWithin(from, to))
    {
      forall to | from <= to ensures Troubles(from) == Troubles(to) <==> FairWithin(from, to) {
        CalmIff(from, to);
      }
    }

    lemma {:induction false} LossesIff(earlier: seq<Step>, log: seq<Step>)
      requires earlier <= log
      ensures Losses(earlier) <= Losses(log)
      ensures Losses(earlier) < Losses(log) <==> exists k :: |earlier| <= k < |log| && Orphaning(log, k)
    {
      if |earlier| < |log| {
        var shorter := log[..|log| - 1];
        LossesIff(earlier, shorter);
        assert forall k :: 0 <= k < |shorter| ==> (Orphaning(shorter, k) <==> Orphaning(log, k));
      } else {
        assert earlier == log;
      }
    }

    /** The process died at the last step. */
    ghost predicate Dying()
      reads this
    {
      log != [] && (weather(|log| - 1).fate.DiesBefore? || weather(|log| - 1).fate.DiesAfter?)
    }

    /** A write to the store failed at the last step. */
    ghost predicate Breaking()
      reads this
    {
      log != [] && log[|log| - 1].Store? && Failing(|log| - 1)
    }

    ghost predicate Ids(remote: Records, rows: Rows, nextId: Id)
    {
      (forall id :: id in remote ==> id < nextId) && (forall id :: id in rows ==> id < nextId)
    }

    /** A record's type follows from its content, so a row that names its content names its type. */
    ghost predicate Typed(remote: Records, rows: Rows)
    {
      forall id :: id in remote && id in rows && Lower(remote[id].content) == Lower(rows[id].item.content) ==>
        remote[id].kind == rows[id].item.kind
    }

    // ------------------------------------------------------------ the environment

    method Elsewhere(ghost rev: nat, changes: seq<Change>)
      requires Fence(rev)
      modifies this`revision, this`enabled, this`status, this`outside, this`author, this`frozen
      ensures Fence(rev) && revision == old(revision) + Revisions(changes)
      ensures revision == old(revision) ==> enabled == old(enabled)
    {
      for i := 0 to |changes|
        invariant Fence(rev) && revision == old(revision) + Revisions(changes[..i])
        invariant revision == old(revision) ==> enabled == old(enabled)
      {
        assert changes[..i + 1][..i] == changes[..i];
        match changes[i] {
          case Changed(on) =>
            revision, enabled, frozen := revision + 1, on, rows;
            status, author, outside := Pending, None, Pending;
          case Verified(ok) =>
            status := if ok then Active else Failed;
            author, outside := None, status;
        }
      }
      assert changes[..|changes|] == changes;
    }

    /** One step, with what happens at it. */
    method Pass(ghost rev: nat, step: Step) returns (fate: Fate)
      requires Fence(rev)
      modifies this`revision, this`enabled, this`status, this`outside, this`author, this`frozen, this`log
      ensures Fence(rev) && Onward() && log == old(log) + [step] && fate == weather(|old(log)|).fate
      ensures Losses(log) == old(Losses(log)) + (if Orphaning(log, |old(log)|) then 1 else 0)
      ensures Unsaved(log) == old(Unsaved(log)) + (if FailedSave(log, |old(log)|) then 1 else 0)
      ensures Calm() <==> Fair(|old(log)|)
    {
      var moment := weather(|log|);
      LossesNext(log, step);
      log := log + [step];
      Elsewhere(rev, moment.changes);
      fate := moment.fate;
    }

    method DeleteRecord(ghost rev: nat, id: Id) returns (reply: Reply)
      requires Fence(rev)
      modifies this`remote, this`revision, this`enabled, this`status, this`outside, this`author, this`frozen, this`log
      ensures Fence(rev) && Quiet() && (Calm() ==> reply.Ok? || reply.NotFound?) && (reply.Dead? ==> Dying())
      ensures log == old(log) + [Delete(id)]
      ensures remote == if Before(weather(|old(log)|).fate) then old(remote) else old(remote) - {id}
      ensures reply == if weather(|old(log)|).fate.Fine? && id !in old(remote) then NotFound
        else Answer(weather(|old(log)|).fate)
    {
      var fate := Pass(rev, Delete(id));
      reply := if fate == Fine && id !in remote then NotFound else Answer(fate);
      if !Before(fate) { remote := remote - {id}; }
    }

    function Answer(fate: Fate): Reply
    {
      match fate
      case Fine => Ok
      case LostBefore => Lost
      case LostAfter => Lost
      case _ => Dead
    }

    method ListRecords(ghost rev: nat, step: Step) returns (reply: Reply, listing: Records)
      requires Fence(rev) && !step.Save?
      modifies this`revision, this`enabled, this`status, this`outside, this`author, this`frozen, this`log
      ensures Fence(rev) && Onward() && log == old(log) + [step] && reply == Answer(weather(|old(log)|).fate)
      ensures (Calm() ==> reply.Ok?) && (reply.Dead? ==> Dying())
      ensures Losses(log) == old(Losses(log)) + (if Orphaning(log, |old(log)|) then 1 else 0)
      ensures Unsaved(log) == old(Unsaved(log))
      ensures listing == remote
    {
      var fate := Pass(rev, step);
      reply, listing := Answer(fate), remote;
    }

    method CreateRecord(ghost rev: nat, item: Item) returns (reply: Reply, id: Id)
      requires Fence(rev) && Ids(remote, rows, nextId)
      modifies this`remote, this`nextId, this`revision, this`enabled, this`status, this`outside, this`author,
        this`frozen, this`log
      ensures Fence(rev) && Ids(remote, rows, nextId) && Quiet() && log == old(log) + [Create]
        && reply == Answer(weather(|old(log)|).fate)
      ensures (Calm() ==> reply.Ok?) && (reply.Dead? ==> Dying())
      ensures id == old(nextId) && nextId >= id && id !in old(remote)
      ensures remote == if weather(|old(log)|).fate.LostBefore? || weather(|old(log)|).fate.DiesBefore?
        then old(remote) else old(remote)[id := Made(item)]
    {
      var fate := Pass(rev, Create);
      id, reply := nextId, Answer(fate);
      if fate != LostBefore && fate != DiesBefore {
        remote := remote[id := Made(item)];
        nextId := nextId + 1;
      }
    }

    method ReadRecord(ghost rev: nat, id: Id) returns (reply: Reply, record: Option<Record>)
      requires Fence(rev)
      modifies this`revision, this`enabled, this`status, this`outside, this`author, this`frozen, this`log
      ensures Fence(rev) && Quiet() && (Calm() ==> reply == if id in remote then Ok else NotFound)
        && (reply.Dead? ==> Dying())
      ensures reply.Ok? ==> id in remote && record == Some(remote[id])
      ensures log == old(log) + [Remote]
    {
      var fate := Pass(rev, Remote);
      record := if id in remote then Some(remote[id]) else None;
      reply := if fate == Fine && id !in remote then NotFound else Answer(fate);
    }

    method ReadIngress(ghost rev: nat) returns (reply: Reply, rules: seq<Ingress.Rule>)
      requires Fence(rev)
      modifies this`revision, this`enabled, this`status, this`outside, this`author, this`frozen, this`log
      ensures Fence(rev) && Quiet() && !reply.NotFound? && (Calm() ==> reply.Ok?) && (reply.Dead? ==> Dying())
      ensures rules == ingress
    {
      var fate := Pass(rev, Remote);
      reply, rules := Answer(fate), ingress;
    }

    method PutIngress(ghost rev: nat, rules: seq<Ingress.Rule>) returns (reply: Reply)
      requires Fence(rev)
      modifies this`ingress, this`revision, this`enabled, this`status, this`outside, this`author, this`frozen, this`log
      ensures Fence(rev) && Quiet() && !reply.NotFound? && (Calm() ==> reply.Ok?) && (reply.Dead? ==> Dying())
      ensures (ingress == old(ingress) || ingress == rules) && (reply.Ok? ==> ingress == rules)
      ensures log == old(log) + [Remote]
    {
      var fate := Pass(rev, Remote);
      if fate != LostBefore && fate != DiesBefore { ingress := rules; }
      reply := Answer(fate);
    }

    // ------------------------------------------------------------ revision-fenced store writes

    method SaveRow(rev: nat, id: Id, item: Item) returns (w: Written)
      requires Fence(rev)
      modifies this`rows, this`revision, this`enabled, this`status, this`outside, this`author, this`frozen, this`log
      ensures Fence(rev) && Onward() && log == old(log) + [Save(id)] && Losses(log) == old(Losses(log))
      ensures Unsaved(log) == old(Unsaved(log)) + (if FailedSave(log, |old(log)|) then 1 else 0)
      ensures w == WrittenAs(weather(|old(log)|).fate, revision == rev)
      ensures (Calm() ==> w.Saved? || w.Refused?) && (w.Stopped? ==> Dying())
      ensures rows == if revision == rev && !Before(weather(|old(log)|).fate)
        then old(rows)[id := Row(item, ActiveRow)] else old(rows)
    {
      var fate := Pass(rev, Save(id));
      w := WrittenAs(fate, revision == rev);
      if revision == rev && !Before(fate) { rows := rows[id := Row(item, ActiveRow)]; }
    }

    method MarkRow(rev: nat, id: Id, to: RowStatus) returns (w: Written)
      requires Fence(rev)
      modifies this`rows, this`revision, this`enabled, this`status, this`outside, this`author, this`frozen, this`log
      ensures Fence(rev) && Quiet() && log == old(log) + [Store]
      ensures w == WrittenAs(weather(|old(log)|).fate, revision == rev && id in old(rows))
      ensures (Calm() ==> w.Saved? || w.Refused?) && (w.Stopped? ==> Dying()) && (w.Broke? ==> Breaking())
      ensures rows == if revision == rev && id in old(rows) && !Before(weather(|old(log)|).fate)
        then old(rows)[id := old(rows)[id].(status := to)] else old(rows)
    {
      var fate := Pass(rev, Store);
      w := WrittenAs(fate, revision == rev && id in rows);
      if revision == rev && id in rows && !Before(fate) { rows := rows[id := rows[id].(status := to)]; }
    }

    method MarkOutcome(rev: nat, to: AccessStatus) returns (w: Written)
      requires Fence(rev)
      modifies this`revision, this`enabled, this`status, this`outside, this`author, this`frozen, this`log
      ensures Fence(rev) && Quiet() && log == old(log) + [Store]
      ensures w == WrittenAs(weather(|old(log)|).fate, revision == rev)
      ensures (Calm() ==> w.Saved? || w.Refused?) && (w.Stopped? ==> Dying()) && (w.Broke? ==> Breaking())
      ensures revision == rev && !Before(weather(|old(log)|).fate) ==> status == to && author == Some(rev)
    {
      var fate := Pass(rev, Store);
      w := WrittenAs(fate, revision == rev);
      if revision == rev && !Before(fate) { status, author := to, Some(rev); }
    }

    // ------------------------------------------------------------ the parts of an attempt

    /** A change that keeps what is not the attempt's and loses nothing it owns stays in the frame. */
    lemma FrameChange(before: Records, rowsBefore: Rows, remote: Records, rows: Rows, remote': Records, rows': Rows)
      requires Frame(before, rowsBefore, remote, rows)
      requires forall id :: id in remote' && id in remote ==> remote'[id] == remote[id]
      requires forall id :: id in before && id in remote && id !in remote' ==> Mine(before, rowsBefore, id)
      requires forall id :: id in remote' && id !in remote ==> id !in before && Adoptable(remote'[id])
      requires forall id :: id in remote' && id in remote && Mine(remote, rows, id) ==> Mine(remote', rows', id)
      ensures Frame(before, rowsBefore, remote', rows')
    {
      forall id | id in before && id !in remote' ensures Mine(before, rowsBefore, id) {
        if id !in remote { assert Mine(before, rowsBefore, id); }
      }
      forall id | id in remote' && id !in before ensures Adoptable(remote'[id]) {
        if id in remote { assert Adoptable(remote[id]); }
      }
      forall id | id in remote' && id in before && Mine(before, rowsBefore, id) ensures Mine(remote', rows', id) {
        assert Mine(remote, rows, id);
      }
    }

    lemma RowOfNew(unsaved: Rows, saved: Rows, before: Records, rowsBefore: Rows, id: Id, item: Item)
      requires Frame(before, rowsBefore, remote, unsaved)
        && (saved == unsaved || saved == unsaved[id := Row(item, ActiveRow)])
      ensures Frame(before, rowsBefore, remote, saved)
    {
      FrameChange(before, rowsBefore, remote, unsaved, remote, saved);
    }

    /** Removing an own record, or only changing its row while it is stored, keeps to the frame. */
    lemma FrameOwnGone(before: Records, rowsBefore: Rows, remote: Records, rows: Rows, id: Id, remote': Records,
                       rows': Rows)
      requires Frame(before, rowsBefore, remote, rows) && (id in before ==> Mine(before, rowsBefore, id))
      requires remote' == remote || remote' == remote - {id}
      requires rows' == rows
        || (id in rows && id in rows' && rows' == rows[id := rows'[id]]
            && (id in remote' ==> rows'[id].status != DeletedRow))
      ensures Frame(before, rowsBefore, remote', rows')
    {
      FrameChange(before, rowsBefore, remote, rows, remote', rows');
    }

    /** The row is marked deleted only once the record is gone. */
    method DeleteOwned(rev: nat, id: Id, ghost before: Records, ghost rowsBefore: Rows) returns (v: Verdict)
      requires Steady(rev, before, rowsBefore) && (id in before ==> Mine(before, rowsBefore, id))
      modifies this`remote, this`rows, this`revision, this`enabled, this`status, this`outside, this`author,
        this`frozen, this`log
      ensures Steady(rev, before, rowsBefore) && Quiet()
      ensures v.Done? || v.Superseded? || v.Unreachable? || (v.Died? && Dying())
      ensures v.Done? ==>
        && revision == rev && remote == old(remote) - {id} && id in old(rows)
        && rows == old(rows)[id := old(rows)[id].(status := DeletedRow)]
      ensures v.Superseded? && id in old(rows) ==> revision > rev
      ensures Calm() && revision == rev && id in old(rows) ==> v.Done?
      ensures forall i :: i in remote ==> i in old(remote)
    {
      ghost var remoteThen := remote;
      var reply := DeleteRecord(rev, id);
      FrameOwnGone(before, rowsBefore, remoteThen, rows, id, remote, rows);
      if reply.Dead? { return Died; }
      v := Unreachable;
      if !reply.Lost? {
        var w := MarkOwned(rev, id, DeletedRow, before, rowsBefore);
        if w.Stopped? { return Died; }
        if w.Saved? { return Done; }
        if w.Refused? { v := Superseded; }
        if reply.NotFound? { return; }
      }
      var noted := MarkOwned(rev, id, CleanupPending, before, rowsBefore);
      if noted.Stopped? { v := Died; } else if noted.Broke? { v := Unreachable; }
    }

    method MarkOwned(rev: nat, id: Id, to: RowStatus, ghost before: Records, ghost rowsBefore: Rows)
      returns (w: Written)
      requires Steady(rev, before, rowsBefore) && (id in before ==> Mine(before, rowsBefore, id))
      requires id in remote ==> to != DeletedRow
      modifies this`rows, this`revision, this`enabled, this`status, this`outside, this`author, this`frozen, this`log
      ensures Steady(rev, before, rowsBefore) && Quiet() && rows.Keys == old(rows).Keys
      ensures (Calm() ==> w.Saved? || w.Refused?) && (w.Stopped? ==> Dying())
      ensures w.Saved? ==> revision == rev && id in old(rows) && rows == old(rows)[id := old(rows)[id].(status := to)]
      ensures w.Refused? ==> revision > rev || id !in old(rows)
    {
      ghost var rowsThen := rows;
      w := MarkRow(rev, id, to);
      FrameOwnGone(before, rowsBefore, remote, rowsThen, id, remote, rows);
    }

    function VerdictOf(w: Written): Verdict
    {
      match w
      case Saved => Done
      case Refused => Superseded
      case Broke => Unreachable
      case Stopped => Died
    }

    /** Takes over a marked record whose create answer an earlier attempt never saw. */
    method AdoptOne(rev: nat, id: Id, owned: map<Id, Item>, ghost before: Records, ghost rowsBefore: Rows)
      returns (v: Verdict, adopted: map<Id, Item>)
      requires Steady(rev, before, rowsBefore) && id in remote && Adoptable(remote[id])
        && (revision == rev ==> Tracks(owned, rows))
      modifies this`rows, this`revision, this`enabled, this`status, this`outside, this`author, this`frozen, this`log
      ensures Steady(rev, before, rowsBefore) && Adopting(v.Done?)
      ensures v.Done? || (v.Superseded? && revision > rev) || v.Unreachable? || (v.Died? && Dying())
      ensures Calm() && revision == rev ==> v.Done?
      ensures v.Done? && revision == rev ==> Tracks(adopted, rows)
      ensures v.Done? ==> id in adopted && adopted == owned[id := adopted[id]] && Same(adopted[id], ItemOf(remote[id]))
    {
      var item :| item in desired && Same(item, ItemOf(remote[id]));
      ghost var rowsThen := rows;
      var w := SaveRow(rev, id, item);
      RowOfNew(rowsThen, rows, before, rowsBefore, id, item);
      adopted := if w.Saved? then owned[id := item] else owned;
      v := VerdictOf(w);
    }

    /** What the adoption has taken over once only `left` is still to be looked at. */
    ghost predicate AdoptedSoFar(listing: Records, owned: map<Id, Item>, adopted: map<Id, Item>, left: set<Id>)
    {
      && OwnedTyped(adopted, listing)
      && (forall id :: id in owned ==> id in adopted)
      && (forall id :: id in adopted && id !in owned ==> id in listing && Adoptable(listing[id]))
      && (forall id :: id in listing && id !in left && Adoptable(listing[id]) ==> id in adopted)
    }

    lemma AdoptedNext(listing: Records, owned: map<Id, Item>, adopted: map<Id, Item>, left: set<Id>, id: Id, item: Item)
      requires AdoptedSoFar(listing, owned, adopted, left + {id}) && id in listing && Adoptable(listing[id])
        && Same(item, ItemOf(listing[id]))
      ensures AdoptedSoFar(listing, owned, adopted[id := item], left)
    {
    }

    lemma AdoptedSkip(listing: Records, owned: map<Id, Item>, adopted: map<Id, Item>, left: set<Id>, id: Id)
      requires AdoptedSoFar(listing, owned, adopted, left) && id in left
      ensures id in adopted || id !in listing || !Adoptable(listing[id]) ==>
        AdoptedSoFar(listing, owned, adopted, left - {id})
    {
    }

    method AdoptMarked(rev: nat, listing: Records, owned: map<Id, Item>, ghost before: Records, ghost rowsBefore: Rows)
      returns (v: Verdict, adopted: map<Id, Item>)
      requires Steady(rev, before, rowsBefore) && listing == remote && (revision == rev ==> Tracks(owned, rows))
      requires OwnedTyped(owned, remote)
      modifies this`rows, this`revision, this`enabled, this`status, this`outside, this`author, this`frozen, this`log
      ensures Steady(rev, before, rowsBefore) && Adopting(v.Done?)
      ensures v.Done? || (v.Superseded? && revision > rev) || v.Unreachable? || (v.Died? && Dying())
      ensures Calm() && revision == rev ==> v.Done?
      ensures v.Done? && revision == rev ==> Tracks(adopted, rows)
      ensures listing == map[] ==> v.Done? && log == old(log) && adopted == owned
      ensures v.Done? ==> AdoptedSoFar(listing, owned, adopted, {})
    {
      var left := listing.Keys;
      adopted := owned;
      v := Done;
      while left != {}
        invariant left <= listing.Keys && listing == remote == old(remote) && v.Done?
        invariant Steady(rev, before, rowsBefore) && Quiet()
        invariant revision == rev ==> Tracks(adopted, rows)
        invariant listing == map[] ==> log == old(log) && adopted == owned
        invariant AdoptedSoFar(listing, owned, adopted, left)
        decreases |left|
      {
        var id :| id in left;
        left := left - {id};
        v, adopted := AdoptListed(rev, id, listing, owned, adopted, left, before, rowsBefore);
        if !v.Done? { return; }
      }
    }

    /** Takes over one listed record, if it is marked and not held yet. */
    method AdoptListed(rev: nat, id: Id, listing: Records, ghost owned: map<Id, Item>, held: map<Id, Item>,
                       ghost left: set<Id>, ghost before: Records, ghost rowsBefore: Rows)
      returns (v: Verdict, adopted: map<Id, Item>)
      requires Steady(rev, before, rowsBefore) && listing == remote && (revision == rev ==> Tracks(held, rows))
      requires id in listing && AdoptedSoFar(listing, owned, held, left + {id})
      modifies this`rows, this`revision, this`enabled, this`status, this`outside, this`author, this`frozen, this`log
      ensures Steady(rev, before, rowsBefore) && Adopting(v.Done?)
      ensures v.Done? || (v.Superseded? && revision > rev) || v.Unreachable? || (v.Died? && Dying())
      ensures Calm() && revision == rev ==> v.Done?
      ensures v.Done? && revision == rev ==> Tracks(adopted, rows)
      ensures v.Done? ==> AdoptedSoFar(listing, owned, adopted, left)
    {
      v, adopted := Done, held;
      AdoptedSkip(listing, owned, held, left + {id}, id);
      assert AdoptedSoFar(listing, owned, held, left + {id} - {id}) ==> AdoptedSoFar(listing, owned, held, left);
      if id !in held && Adoptable(listing[id]) {
        v, adopted := AdoptOne(rev, id, held, before, rowsBefore);
        if v.Done? { AdoptedNext(listing, owned, held, left, id, adopted[id]); }
      }
    }

    /** A stored record that is still wanted and is at Cloudflare as stored. */
    predicate Kept(item: Item, id: Id, listing: Records)
    {
      Wanted(item) && id in listing && Lower(listing[id].content) == Lower(item.content)
      && listing[id].proxied == proxied && listing[id].marked
    }

    /** The records left once every owned one that is not kept is gone. */
    ghost predicate Swept(listing: Records, owned: map<Id, Item>, kept: map<Id, Item>, remote: Records)
    {
      && (forall id :: id in kept ==> id in owned && kept[id] == owned[id])
      && (forall id :: id in remote <==> id in listing && (id in owned ==> id in kept))
      && (forall id :: id in remote ==> remote[id] == listing[id])
    }

    lemma SweptOne(listing: Records, owned: map<Id, Item>, kept: map<Id, Item>, remote: Records, id: Id)
      requires Swept(listing, owned, kept, remote) && id in owned
      ensures Swept(listing, owned, kept - {id}, remote - {id})
    {
    }

    lemma TracksOne(owned: map<Id, Item>, rows: Rows, id: Id)
      requires Tracks(owned, rows) && id in rows
      ensures Tracks(owned - {id}, rows[id := rows[id].(status := DeletedRow)])
    {
    }

    ghost predicate KeptSoFar(listing: Records, owned: map<Id, Item>, kept: map<Id, Item>, left: set<Id>)
    {
      forall id :: id in kept <==> id in owned && (id in left || Kept(owned[id], id, listing))
    }

    lemma KeptNext(listing: Records, owned: map<Id, Item>, kept: map<Id, Item>, left: set<Id>, id: Id)
      requires KeptSoFar(listing, owned, kept, left) && id in left && left <= owned.Keys
      ensures id in kept
      ensures KeptSoFar(listing, owned, if Kept(owned[id], id, listing) then kept else kept - {id}, left - {id})
    {
    }

    /** Deletes an owned record, which must still be tracked. */
    method DeleteTracked(rev: nat, id: Id, owned: map<Id, Item>, kept: map<Id, Item>, ghost listing: Records,
                         ghost before: Records, ghost rowsBefore: Rows)
      returns (v: Verdict, rest: map<Id, Item>)
      requires Steady(rev, before, rowsBefore) && (id in before ==> Mine(before, rowsBefore, id))
      requires (revision == rev ==> Tracks(kept, rows)) && id in kept && id in owned
        && Swept(listing, owned, kept, remote)
      modifies this`remote, this`rows, this`revision, this`enabled, this`status, this`outside, this`author,
        this`frozen, this`log
      ensures Steady(rev, before, rowsBefore) && Quiet() && rest == kept - {id}
      ensures v.Done? || (v.Superseded? && revision > rev) || v.Unreachable? || (v.Died? && Dying())
      ensures Calm() && revision == rev ==> v.Done?
      ensures forall i :: i in remote ==> i in old(remote)
      ensures v.Done? ==> Swept(listing, owned, rest, remote) && (revision == rev ==> Tracks(rest, rows))
    {
      SweptOne(listing, owned, kept, remote, id);
      ghost var rowsThen, was := rows, revision == rev;
      v := DeleteOwned(rev, id, before, rowsBefore);
      rest := kept - {id};
      if v.Done? && was { TracksOne(kept, rowsThen, id); }
    }

    method DeleteStale(rev: nat, listing: Records, owned: map<Id, Item>, ghost before: Records, ghost rowsBefore: Rows)
      returns (v: Verdict, kept: map<Id, Item>)
      requires Steady(rev, before, rowsBefore) && listing == remote && (revision == rev ==> Tracks(owned, rows))
      requires forall id :: id in owned && id in before ==> Mine(before, rowsBefore, id)
      modifies this`remote, this`rows, this`revision, this`enabled, this`status, this`outside, this`author,
        this`frozen, this`log
      ensures Steady(rev, before, rowsBefore) && Quiet()
      ensures v.Done? || (v.Superseded? && revision > rev) || v.Unreachable? || (v.Died? && Dying())
      ensures Calm() && revision == rev ==> v.Done?
      ensures forall id :: id in remote ==> id in listing
      ensures owned == map[] ==> v.Done? && log == old(log) && kept == owned
      ensures v.Done? ==>
        Swept(listing, owned, kept, remote) && (revision == rev ==> Tracks(kept, rows))
          && KeptSoFar(listing, owned, kept, {})
    {
      var left := owned.Keys;
      kept := owned;
      v := Done;
      while left != {}
        invariant left <= owned.Keys && v.Done?
        invariant Steady(rev, before, rowsBefore) && Quiet()
        invariant revision == rev ==> Tracks(kept, rows)
        invariant owned == map[] ==> log == old(log) && kept == owned
        invariant Swept(listing, owned, kept, remote) && KeptSoFar(listing, owned, kept, left)
        decreases |left|
      {
        var id :| id in left;
        KeptNext(listing, owned, kept, left, id);
        left := left - {id};
        if !Kept(owned[id], id, listing) {
          v, kept := DeleteTracked(rev, id, owned, kept, listing, before, rowsBefore);
          if !v.Done? { return; }
        }
      }
    }

    // ------------------------------------------------------------ creating

    predicate Matches(r: Record, item: Item) { Same(ItemOf(r), item) && r.proxied == proxied && r.marked }

    /** At step `n` a record was asked for, and looked up next if the answer was lost. */
    ghost predicate Asked(log: seq<Step>, n: nat)
    {
      n < |log| && log[n].Create? && (Failing(n) ==> n + 1 < |log| && log[n + 1].LookUp?)
    }

    lemma AskedStays(log: seq<Step>, log': seq<Step>, n: nat)
      requires log <= log' && Asked(log, n)
      ensures Asked(log', n)
    {
    }

    /** New records that no row names and no cleaning up knows of. */
    ghost predicate Unstored(orphans: set<Id>, made: set<Id>, before: Records, remote: Records, rows: Rows)
    {
      forall id :: id in orphans ==> id in remote && id !in before && id !in made && id !in rows
    }

    ghost predicate LastFailed(log: seq<Step>) { FailedSave(log, |log| - 1) }

    ghost predicate FailedFor(log: seq<Step>, id: Id) { LastFailed(log) && log[|log| - 1] == Save(id) }

    /** The made record that the last step failed to store. */
    ghost function Forgotten(log: seq<Step>, made: set<Id>): set<Id>
    {
      if LastFailed(log) && log[|log| - 1].id in made then {log[|log| - 1].id} else {}
    }

    /** Every new record is known as made or as an orphan; `current` says that the attempt is not superseded. */
    ghost predicate Remembered(current: bool, made: set<Id>, orphans: set<Id>, log: seq<Step>, before: Records,
                               remote: Records, rows: Rows)
    {
      var failed := Forgotten(log, made);
      && (forall id :: id in made ==> id in remote && id !in before && (current ==> id in rows || id in failed))
      && (forall id :: id in failed ==> id !in rows)
      && (forall id :: id in remote ==> id in before || id in made || id in orphans)
      && Unstored(orphans, made, before, remote, rows) && |orphans| <= 1 && (orphans == {} || failed == {})
    }

    ghost predicate ListsAll(listing: Records, remote: Records)
    {
      forall i :: i in remote ==> i in listing && listing[i] == remote[i]
    }

    /** A create whose answer is lost is looked up by its marker; otherwise its record may stay behind unknown. */
    method CreateOne(rev: nat, item: Item, listing: Records, ghost before: Records, ghost rowsBefore: Rows)
      returns (v: Verdict, id: Id, relisted: Records, ghost orphans: set<Id>)
      requires Steady(rev, before, rowsBefore) && item in desired
      requires forall i :: i in remote ==> !Matches(remote[i], item)
      requires Older(before, nextId)
      modifies this`remote, this`nextId, this`revision, this`enabled, this`status, this`outside, this`author,
        this`frozen, this`log
      ensures Steady(rev, before, rowsBefore) && Onward() && nextId >= old(nextId) && id == old(nextId)
      ensures remote == old(remote) || remote == old(remote)[id := Made(item)]
      ensures v.Done? || v.Unreachable? || (v.Died? && Dying())
      ensures v.Done? ==> id in remote && orphans == {}
      ensures relisted == listing || ListsAll(relisted, old(remote))
      ensures Calm() ==> v.Done?
      ensures orphans == {} || (orphans == {id} && id in remote)
      ensures !v.Died? ==> |orphans| == Losses(log) - old(Losses(log))
      ensures Unsaved(log) == old(Unsaved(log)) && !LastFailed(log)
      ensures Asked(log, |old(log)|)
      ensures id in remote ==> v.Done? || id in orphans
    {
      var reply;
      relisted := listing;
      reply, id := Ask(rev, item, before, rowsBefore);
      orphans := if id in remote then {id} else {};
      if reply.Dead? { return Died, id, relisted, orphans; }
      if reply.Ok? { return Done, id, relisted, {}; }
      var list, now := ListRecords(rev, LookUp);
      if list.Dead? { return Died, id, relisted, orphans; }
      if !list.Ok? { return Unreachable, id, relisted, orphans; }
      relisted := now;
      if recovered :| recovered in now && Matches(now[recovered], item) {
        id := recovered;
        return Done, id, relisted, {};
      }
      assert id in remote ==> Matches(remote[id], item);
      v := Unreachable;
    }

    method Ask(rev: nat, item: Item, ghost before: Records, ghost rowsBefore: Rows) returns (reply: Reply, id: Id)
      requires Steady(rev, before, rowsBefore) && item in desired && Older(before, nextId)
      modifies this`remote, this`nextId, this`revision, this`enabled, this`status, this`outside, this`author,
        this`frozen, this`log
      ensures Steady(rev, before, rowsBefore) && Quiet() && nextId >= old(nextId)
      ensures log == old(log) + [Create] && reply == Answer(weather(|old(log)|).fate)
      ensures (Calm() ==> reply.Ok?) && (reply.Dead? ==> Dying())
      ensures id == old(nextId) && id !in old(remote)
      ensures remote == if weather(|old(log)|).fate.LostBefore? || weather(|old(log)|).fate.DiesBefore?
        then old(remote) else old(remote)[id := Made(item)]
    {
      ghost var remoteThen := remote;
      reply, id := CreateRecord(rev, item);
      assert Same(item, item);
      FrameChange(before, rowsBefore, remoteThen, rows, remote, rows);
    }

    /** Creates a record, stores it as owned, and reads it back. `made` says that cleaning up knows of it. */
    method CreateAndStore(rev: nat, item: Item, listing: Records, ghost before: Records, ghost rowsBefore: Rows)
      returns (v: Verdict, id: Id, made: bool, relisted: Records, ghost orphans: set<Id>)
      requires Steady(rev, before, rowsBefore) && item in desired
      requires forall i :: i in remote ==> !Matches(remote[i], item)
      requires Older(before, nextId)
      modifies this`remote, this`nextId, this`rows, this`revision, this`enabled, this`status, this`outside,
        this`author, this`frozen, this`log
      ensures Steady(rev, before, rowsBefore) && Onward() && Storing(v.Done?) && nextId >= old(nextId)
        && id == old(nextId)
      ensures remote == old(remote) || remote == old(remote)[id := Made(item)]
      ensures rows == old(rows) || rows == old(rows)[id := Row(item, ActiveRow)]
      ensures v.Done? || (v.Superseded? && revision > rev) || v.Unreachable? || (v.Died? && Dying()) || v.Mismatch?
      ensures v.Done? ==> made
      ensures made ==> id in remote && (revision == rev && !v.Died? ==> Live(rows, id) || LastFailed(log))
      ensures LastFailed(log) ==> made && FailedFor(log, id) && rows == old(rows) && !v.Done?
      ensures id in remote ==> made || id in orphans
      ensures relisted == listing || ListsAll(relisted, old(remote))
      ensures Calm() && revision == rev ==> v.Done?
      ensures orphans == {} || (orphans == {id} && id in remote && rows == old(rows) && !made)
      ensures !v.Died? ==> |orphans| == Losses(log) - old(Losses(log))
      ensures Asked(log, |old(log)|)
      ensures orphans != {} ==> (v.Unreachable? || v.Died?) && !LastFailed(log)
    {
      v, id, relisted, orphans := CreateOne(rev, item, listing, before, rowsBefore);
      made := v.Done?;
      if !made { return; }
      ghost var asked := log;
      v := StoreAndRead(rev, id, item, before, rowsBefore);
      AskedStays(asked, log, |old(log)|);
    }

    /** Stores a record that is there as owned, and reads it back. */
    method StoreAndRead(rev: nat, id: Id, item: Item, ghost before: Records, ghost rowsBefore: Rows)
      returns (v: Verdict)
      requires Steady(rev, before, rowsBefore) && id in remote && Matches(remote[id], item)
      modifies this`rows, this`revision, this`enabled, this`status, this`outside, this`author, this`frozen, this`log
      ensures Steady(rev, before, rowsBefore) && Adopting(v.Done?)
      ensures rows == old(rows) || rows == old(rows)[id := Row(item, ActiveRow)]
      ensures v.Done? || (v.Superseded? && revision > rev) || v.Unreachable? || (v.Died? && Dying()) || v.Mismatch?
      ensures v.Died? || (revision == rev ==> Live(rows, id) || LastFailed(log))
      ensures LastFailed(log) ==> FailedFor(log, id) && rows == old(rows) && !v.Done?
      ensures Calm() && revision == rev ==> v.Done?
    {
      ghost var unsaved := rows;
      var w := SaveRow(rev, id, item);
      RowOfNew(unsaved, rows, before, rowsBefore, id, item);
      if !w.Saved? { return VerdictOf(w); }
      var reply, record := ReadRecord(rev, id);
      if reply.Dead? { return Died; }
      if !reply.Ok? { return Unreachable; }
      v := if Matches(record.value, item) then Done else Mismatch;
    }

    ghost predicate DistinctDesired()
    {
      forall i, j :: 0 <= i < j < |desired| ==> !Same(desired[i], desired[j])
    }

    /** Every record the markers would let an attempt take over is held under its own item. */
    ghost predicate Known(owned: map<Id, Item>, remote: Records)
    {
      forall id :: id in remote && Adoptable(remote[id]) ==> id in owned && Same(owned[id], ItemOf(remote[id]))
    }

    ghost predicate AllKept(owned: map<Id, Item>, listing: Records, remote: Records)
    {
      forall id :: id in owned ==>
        id in remote && id in listing && listing[id] == remote[id] && Kept(owned[id], id, listing)
    }

    ghost predicate ItemBefore(item: Item, n: nat)
      requires n <= |desired|
    {
      exists j :: 0 <= j < n && desired[j] == item
    }

    /** Records made in this attempt, on top of those that were there. */
    ghost predicate Added(earlier: Records, made: map<Id, Item>, remote: Records, n: nat)
      requires n <= |desired|
    {
      && (forall id :: id in earlier ==> id in remote && remote[id] == earlier[id])
      && (forall id :: id in remote ==> id in earlier || id in made)
      && (forall id :: id in made ==>
          id in remote && id !in earlier && remote[id] == Made(made[id]) && ItemBefore(made[id], n))
    }

    ghost predicate Covered(owned: map<Id, Item>, made: map<Id, Item>, item: Item)
    {
      (exists id :: id in owned && Same(owned[id], item)) || (exists id :: id in made && made[id] == item)
    }

    ghost predicate Stored(made: map<Id, Item>, failed: set<Id>, rowsEarlier: Rows, rows: Rows)
    {
      && (forall id :: id in made && id !in failed ==> Live(rows, id))
      && (forall id :: id in rowsEarlier ==> id in rows && rows[id] == rowsEarlier[id])
    }

    lemma NothingMatches(owned: map<Id, Item>, made: map<Id, Item>, earlier: Records, remote: Records, n: nat)
      requires n < |desired| && DistinctDesired() && Added(earlier, made, remote, n) && Known(owned, earlier)
      requires !(exists id :: id in owned && Same(owned[id], desired[n]))
      ensures forall id :: id in remote ==> !Matches(remote[id], desired[n])
    {
      forall id | id in remote ensures !Matches(remote[id], desired[n]) {
        if id in earlier {
          if Adoptable(remote[id]) {
            assert !Same(owned[id], desired[n]);
          } else {
            assert desired[n] in desired
              && (Same(ItemOf(remote[id]), desired[n]) ==> Same(desired[n], ItemOf(remote[id])));
          }
        } else {
          var j :| 0 <= j < n && desired[j] == made[id];
          assert !Same(desired[j], desired[n]);
        }
      }
    }

    lemma AddedOne(earlier: Records, made: map<Id, Item>, remote: Records, n: nat, id: Id, after: Records)
      requires n < |desired| && Added(earlier, made, remote, n) && id !in remote
      requires after == remote[id := Made(desired[n])]
      ensures Added(earlier, made[id := desired[n]], after, n + 1)
    {
      forall item | ItemBefore(item, n) ensures ItemBefore(item, n + 1) {
        ItemLater(item, n);
      }
      assert desired[n] == desired[n] && ItemBefore(desired[n], n + 1);
    }

    lemma ItemLater(item: Item, n: nat)
      requires n < |desired| && ItemBefore(item, n)
      ensures ItemBefore(item, n + 1)
    {
    }

    /** What is known of the new records; `current` says that the attempt is neither superseded nor dead. */
    ghost predicate Leftover(current: bool, made: map<Id, Item>, orphans: set<Id>, failed: set<Id>, before: Records,
                             earlier: Records, remote: Records, rowsEarlier: Rows, rows: Rows)
    {
      && (forall id :: id in made ==> id in remote && id !in before)
      && (forall id :: id in remote ==> id in earlier || id in made || id in orphans)
      && (forall id :: id in failed ==> id !in rows)
      && (current ==> Stored(made, failed, rowsEarlier, rows))
    }

    ghost predicate AllCovered(owned: map<Id, Item>, made: map<Id, Item>, n: nat)
      requires n <= |desired|
    {
      forall j :: 0 <= j < n ==> Covered(owned, made, desired[j])
    }

    /** The state of the loop before item `n`. */
    ghost predicate Creating(listing: Records, owned: map<Id, Item>, made: map<Id, Item>, earlier: Records,
                             remote: Records, n: nat)
      requires n <= |desired|
    {
      AllKept(owned, listing, remote) && Known(owned, earlier) && Added(earlier, made, remote, n)
        && AllCovered(owned, made, n)
    }

    lemma CoveredToo(owned: map<Id, Item>, made: map<Id, Item>, id: Id, n: nat)
      requires n < |desired| && id !in made && AllCovered(owned, made, n)
      ensures AllCovered(owned, made[id := desired[n]], n + 1)
    {
      var made' := made[id := desired[n]];
      assert id in made' && made'[id] == desired[n];
      forall j | 0 <= j < n ensures Covered(owned, made', desired[j]) {
        assert Covered(owned, made, desired[j]);
        if i :| i in made && made[i] == desired[j] { assert i in made' && made'[i] == desired[j]; }
      }
    }

    lemma CreatingNext(listing: Records, now: Records, owned: map<Id, Item>, made: map<Id, Item>, id: Id,
                       earlier: Records, remote: Records, after: Records, n: nat)
      requires n < |desired| && Creating(listing, owned, made, earlier, remote, n)
      requires id !in remote && after == remote[id := Made(desired[n])]
      requires now == listing || ListsAll(now, remote)
      ensures Creating(now, owned, made[id := desired[n]], earlier, after, n + 1)
    {
      AddedOne(earlier, made, remote, n, id, after);
      CoveredToo(owned, made, id, n);
    }

    lemma LeftoverNext(was: bool, current: bool, made: map<Id, Item>, kept: bool, orphans: set<Id>, failed: set<Id>,
                       id: Id, item: Item, before: Records, earlier: Records, remote: Records, after: Records,
                       rowsEarlier: Rows, rows: Rows, rowsAfter: Rows)
      requires Leftover(was, made, {}, {}, before, earlier, remote, rowsEarlier, rows) && (current ==> was)
      requires id !in remote && id !in rows && id !in before
      requires after == remote || after == remote[id := Made(item)]
      requires rowsAfter == rows || rowsAfter == rows[id := Row(item, ActiveRow)]
      requires (kept ==> id in after && (current ==> Live(rowsAfter, id) || id in failed))
        && (id in after ==> kept || id in orphans)
      requires failed == {} || (failed == {id} && rowsAfter == rows)
      ensures Leftover(current, if kept then made[id := item] else made, orphans, failed, before, earlier, after,
                       rowsEarlier, rowsAfter)
    {
    }

    method CreateNext(rev: nat, listing: Records, owned: map<Id, Item>, made: map<Id, Item>, n: nat,
                      ghost before: Records, ghost rowsBefore: Rows, ghost earlier: Records, ghost rowsEarlier: Rows)
      returns (v: Verdict, now: Records, made': map<Id, Item>, ghost orphans: set<Id>)
      requires Steady(rev, before, rowsBefore) && DistinctDesired() && n < |desired| && Older(before, nextId)
      requires Creating(listing, owned, made, earlier, remote, n)
      requires Leftover(revision == rev, made, {}, {}, before, earlier, remote, rowsEarlier, rows)
      requires !InPlace(owned, listing, desired[n])
      modifies this`remote, this`nextId, this`rows, this`revision, this`enabled, this`status, this`outside,
        this`author, this`frozen, this`log
      ensures Steady(rev, before, rowsBefore) && Onward() && Storing(v.Done?) && Older(before, nextId)
      ensures Leftover(revision == rev && !v.Died?, made', orphans, Forgotten(log, made'.Keys), before, earlier, remote,
                       rowsEarlier, rows)
      ensures v.Done? || (v.Superseded? && revision > rev) || v.Unreachable? || (v.Died? && Dying()) || v.Mismatch?
      ensures Calm() && revision == rev ==> v.Done?
      ensures !v.Died? ==> |orphans| == Losses(log) - old(Losses(log))
      ensures Unstored(orphans, made'.Keys, before, remote, rows)
      ensures Asked(log, |old(log)|)
      ensures |orphans| <= 1 && (orphans != {} ==> (v.Unreachable? || v.Died?) && !LastFailed(log))
      ensures v.Done? ==> Forgotten(log, made'.Keys) == {}
      ensures v.Done? ==> Creating(now, owned, made', earlier, remote, n + 1)
    {
      InPlaceIff(owned, listing, remote, desired[n]);
      NothingMatches(owned, made, earlier, remote, n);
      ghost var remoteBefore, rowsThen, was := remote, rows, revision == rev;
      var id, kept;
      v, id, kept, now, orphans := CreateAndStore(rev, desired[n], listing, before, rowsBefore);
      made' := if kept then made[id := desired[n]] else made;
      LeftoverNext(was, revision == rev && !v.Died?, made, kept, orphans, Forgotten(log, made'.Keys), id, desired[n],
                   before, earlier, remoteBefore, remote, rowsEarlier, rowsThen, rows);
      if v.Done? { CreatingNext(listing, now, owned, made, id, earlier, remoteBefore, remote, n); }
    }

    /** Everything the attempt found has an older identifier than what it creates. */
    ghost predicate Older(before: Records, nextId: Id)
    {
      forall i :: i in before ==> i < nextId
    }

    /** An owned record holds the item and is as wanted. */
    predicate InPlace(owned: map<Id, Item>, listing: Records, item: Item)
    {
      exists id ::
        id in owned && Same(owned[id], item) && id in listing && listing[id].proxied == proxied && listing[id].marked
    }

    lemma InPlaceIff(owned: map<Id, Item>, listing: Records, remote: Records, item: Item)
      requires AllKept(owned, listing, remote)
      ensures InPlace(owned, listing, item) <==> exists id :: id in owned && Same(owned[id], item)
    {
      if id :| id in owned && Same(owned[id], item) { assert Kept(owned[id], id, listing); }
    }

    /** One item: nothing to do, or a record of its own. */
    method CoverNext(rev: nat, listing: Records, owned: map<Id, Item>, made: map<Id, Item>, n: nat,
                      ghost before: Records, ghost rowsBefore: Rows, ghost earlier: Records, ghost rowsEarlier: Rows)
      returns (v: Verdict, now: Records, made': map<Id, Item>, ghost orphans: set<Id>)
      requires Steady(rev, before, rowsBefore) && DistinctDesired() && n < |desired| && Older(before, nextId)
      requires Creating(listing, owned, made, earlier, remote, n)
      requires Forgotten(log, made.Keys) == {}
      requires Leftover(revision == rev, made, {}, {}, before, earlier, remote, rowsEarlier, rows)
      modifies this`remote, this`nextId, this`rows, this`revision, this`enabled, this`status, this`outside,
        this`author, this`frozen, this`log
      ensures Steady(rev, before, rowsBefore) && Onward() && Storing(v.Done?) && Older(before, nextId)
      ensures Leftover(revision == rev && !v.Died?, made', orphans, Forgotten(log, made'.Keys), before, earlier, remote,
                       rowsEarlier, rows)
      ensures v.Done? || (v.Superseded? && revision > rev) || v.Unreachable? || (v.Died? && Dying()) || v.Mismatch?
      ensures Calm() && revision == rev ==> v.Done?
      ensures !v.Died? ==> |orphans| == Losses(log) - old(Losses(log))
      ensures Unstored(orphans, made'.Keys, before, remote, rows)
      ensures owned == map[] ==> Asked(log, |old(log)|)
      ensures |orphans| <= 1 && (orphans != {} ==> (v.Unreachable? || v.Died?) && !LastFailed(log))
      ensures v.Done? ==> Forgotten(log, made'.Keys) == {}
      ensures v.Done? ==> Creating(now, owned, made', earlier, remote, n + 1)
    {
      if InPlace(owned, listing, desired[n]) {
        SkipCovered(listing, owned, made, earlier, remote, n);
        return Done, listing, made, {};
      }
      v, now, made', orphans := CreateNext(rev, listing, owned, made, n, before, rowsBefore, earlier, rowsEarlier);
    }

    lemma CreatingFirst(listing: Records, owned: map<Id, Item>, before: Records, remote: Records, rows: Rows)
      requires AllKept(owned, listing, remote) && Known(owned, remote)
      ensures Creating(listing, owned, map[], remote, remote, 0)
      ensures forall current :: Leftover(current, map[], {}, {}, before, remote, remote, rows, rows)
    {
    }

    /** Every item not covered by an owned record gets a record of its own. */
    method CreateMissing(rev: nat, listing: Records, owned: map<Id, Item>, ghost before: Records,
                         ghost rowsBefore: Rows)
      returns (v: Verdict, made: map<Id, Item>, ghost orphans: set<Id>)
      requires Steady(rev, before, rowsBefore) && DistinctDesired() && Older(before, nextId)
      requires AllKept(owned, listing, remote) && Known(owned, remote)
      modifies this`remote, this`nextId, this`rows, this`revision, this`enabled, this`status, this`outside,
        this`author, this`frozen, this`log
      ensures Steady(rev, before, rowsBefore) && Onward() && Storing(v.Done?) && Older(before, nextId)
      ensures Leftover(revision == rev && !v.Died?, made, orphans, Forgotten(log, made.Keys), before, old(remote),
                       remote, old(rows), rows)
      ensures v.Done? || (v.Superseded? && revision > rev) || v.Unreachable? || (v.Died? && Dying()) || v.Mismatch?
      ensures Calm() && revision == rev ==> v.Done?
      ensures !v.Died? ==> |orphans| == Losses(log) - old(Losses(log))
      ensures Unstored(orphans, made.Keys, before, remote, rows)
      ensures owned == map[] && desired != [] ==> Asked(log, |old(log)|)
      ensures |orphans| <= 1 && (orphans != {} ==> (v.Unreachable? || v.Died?) && !LastFailed(log))
      ensures v.Done? ==> Forgotten(log, made.Keys) == {}
      ensures v.Done? ==> Added(old(remote), made, remote, |desired|) && AllCovered(owned, made, |desired|)
    {
      made, orphans, v := map[], {}, Done;
      var now := listing;
      CreatingFirst(listing, owned, before, remote, rows);
      for i := 0 to |desired|
        invariant Steady(rev, before, rowsBefore) && Quiet() && Older(before, nextId) && v.Done? && orphans == {}
        invariant Forgotten(log, made.Keys) == {} && (i == 0 ==> log == old(log))
        invariant owned == map[] && i > 0 ==> Asked(log, |old(log)|)
        invariant Creating(now, owned, made, old(remote), remote, i)
        invariant Leftover(revision == rev, made, {}, {}, before, old(remote), remote, old(rows), rows)
      {
        ghost var logThen := log;
        v, now, made, orphans := CoverNext(rev, now, owned, made, i, before, rowsBefore, old(remote), old(rows));
        if i > 0 && owned == map[] { AskedStays(logThen, log, |old(log)|); }
        if !v.Done? { return; }
      }
    }

    lemma SkipCovered(listing: Records, owned: map<Id, Item>, made: map<Id, Item>, earlier: Records, remote: Records,
                      n: nat)
      requires n < |desired| && Creating(listing, owned, made, earlier, remote, n)
        && InPlace(owned, listing, desired[n])
      ensures Creating(listing, owned, made, earlier, remote, n + 1)
    {
      InPlaceIff(owned, listing, remote, desired[n]);
      forall id | id in made ensures ItemBefore(made[id], n + 1) {
        assert ItemBefore(made[id], n);
      }
    }

    // ------------------------------------------------------------ an attempt to switch on

    /** `original` is what was read, once it was. */
    method EnableIngress(ghost rev: nat) returns (v: Verdict, original: Option<seq<Ingress.Rule>>)
      requires Fence(rev)
      modifies this`ingress, this`revision, this`enabled, this`status, this`outside, this`author, this`frozen, this`log
      ensures Fence(rev) && Quiet() && (v.Done? || v.Unreachable? || (v.Died? && Dying())) && (Calm() ==> v.Done?)
      ensures original.Some? ==> original.value == old(ingress)
      ensures ingress == old(ingress) || (original.Some? && ingress == Ingress.EnabledIngress(old(ingress), hostname))
      ensures v.Done? ==> ingress == Ingress.EnabledIngress(old(ingress), hostname)
    {
      original := None;
      var reply, rules := ReadIngress(rev);
      if !reply.Ok? { return if reply.Dead? then Died else Unreachable, None; }
      original := Some(rules);
      reply := PutIngress(rev, Ingress.EnabledIngress(rules, hostname));
      v := if reply.Ok? then Done else if reply.Dead? then Died else Unreachable;
    }

    /** What a successful attempt leaves of the records with a desired type. */
    ghost predicate Exact(remote: Records, rows: Rows)
    {
      && (forall id :: id in remote && WantedKind(remote[id].kind) ==> Adoptable(remote[id]) && Live(rows, id))
      && (forall d :: d in desired ==> exists id :: id in remote && Matches(remote[id], d) && Live(rows, id))
    }

    lemma KeptAreGood(listing: Records, owned: map<Id, Item>, kept: map<Id, Item>, remote: Records)
      requires OwnedTyped(owned, listing) && Swept(listing, owned, kept, remote)
      requires KeptSoFar(listing, owned, kept, {})
      requires forall id :: id in listing && Adoptable(listing[id]) ==> id in owned
      ensures AllKept(kept, listing, remote) && Known(kept, remote)
      ensures forall id :: id in kept ==> Adoptable(remote[id]) && Same(kept[id], ItemOf(remote[id]))
    {
      forall id | id in kept ensures Adoptable(remote[id]) && Same(kept[id], ItemOf(remote[id])) {
        var d :| d in desired && Same(d, kept[id]);
        assert Same(d, ItemOf(remote[id]));
      }
    }

    lemma ExactNow(listing: Records, owned: map<Id, Item>, kept: map<Id, Item>, swept: Records, made: map<Id, Item>,
                   remote: Records, rowsSwept: Rows, rows: Rows)
      requires !Conflicting(listing, owned)
      requires Swept(listing, owned, kept, swept) && AllKept(kept, listing, swept) && Tracks(kept, rowsSwept)
      requires forall id :: id in kept ==> Adoptable(swept[id]) && Same(kept[id], ItemOf(swept[id]))
      requires Added(swept, made, remote, |desired|) && AllCovered(kept, made, |desired|)
        && Stored(made, {}, rowsSwept, rows)
      ensures Exact(remote, rows)
    {
      forall id | id in remote && WantedKind(remote[id].kind) ensures Adoptable(remote[id]) && Live(rows, id) {
        if id in made {
          assert ItemBefore(made[id], |desired|) && Same(made[id], ItemOf(remote[id]));
        } else {
          assert id in kept && Live(rowsSwept, id);
        }
      }
      forall d | d in desired ensures exists id :: id in remote && Matches(remote[id], d) && Live(rows, id) {
        var j :| 0 <= j < |desired| && desired[j] == d;
        assert Covered(kept, made, desired[j]);
        if id :| id in kept && Same(kept[id], d) {
          assert id in remote && Matches(remote[id], d) && Live(rowsSwept, id);
        } else {
          var id :| id in made && made[id] == d;
          assert id in remote && Matches(remote[id], d);
        }
      }
    }

    /** Leaves only owned records that are at Cloudflare as wanted. */
    method KeepGood(rev: nat, listing: Records, owned: map<Id, Item>, ghost before: Records, ghost rowsBefore: Rows)
      returns (v: Verdict, kept: map<Id, Item>)
      requires Steady(rev, before, rowsBefore) && listing == remote
      requires (revision == rev ==> Tracks(owned, rows)) && OwnedTyped(owned, listing)
      requires forall id :: id in owned && id in before ==> Mine(before, rowsBefore, id)
      requires forall id :: id in listing && Adoptable(listing[id]) ==> id in owned
      modifies this`remote, this`rows, this`revision, this`enabled, this`status, this`outside, this`author,
        this`frozen, this`log
      ensures Steady(rev, before, rowsBefore) && Quiet()
      ensures v.Done? || (v.Superseded? && revision > rev) || v.Unreachable? || (v.Died? && Dying())
      ensures Calm() && revision == rev ==> v.Done?
      ensures forall id :: id in remote ==> id in listing
      ensures owned == map[] ==> v.Done? && log == old(log) && kept == owned
      ensures v.Done? ==> (revision == rev ==> Tracks(kept, rows)) && Kempt(listing, owned, kept, remote)
    {
      v, kept := DeleteStale(rev, listing, owned, before, rowsBefore);
      if v.Done? { KeptAreGood(listing, owned, kept, remote); }
    }

    /** Deletes what is stale, rewrites the ingress and creates what is missing, once no record is foreign. */
    method Converge(rev: nat, listing: Records, owned: map<Id, Item>, ghost before: Records, ghost rowsBefore: Rows)
      returns (v: Verdict, made: map<Id, Item>, original: Option<seq<Ingress.Rule>>, ghost orphans: set<Id>)
      requires Steady(rev, before, rowsBefore) && DistinctDesired() && Older(before, nextId) && listing == remote
      requires (revision == rev ==> Tracks(owned, rows)) && Stocked(before, rowsBefore, owned) && listing == before
      modifies this`remote, this`nextId, this`rows, this`ingress, this`revision, this`enabled, this`status,
        this`outside, this`author, this`frozen, this`log
      ensures Steady(rev, before, rowsBefore) && Onward() && Storing(v.Done?)
      ensures v.Done? || (v.Superseded? && revision > rev) || v.Unreachable? || (v.Died? && Dying()) || v.Mismatch?
      ensures Calm() && revision == rev ==> v.Done?
      ensures Remembered(revision == rev && !v.Died?, made.Keys, orphans, log, before, remote, rows)
      ensures !v.Died? ==> |orphans| == Losses(log) - old(Losses(log))
      ensures owned == map[] && !tunnel && desired != [] ==> Asked(log, |old(log)|)
      ensures orphans != {} ==> v.Unreachable? || v.Died?
      ensures v.Done? ==> Forgotten(log, made.Keys) == {}
      ensures original.Some? ==> tunnel && original.value == old(ingress)
      ensures ingress == old(ingress) || (original.Some? && ingress == Ingress.EnabledIngress(old(ingress), hostname))
      ensures v.Done? && tunnel ==> ingress == Ingress.EnabledIngress(old(ingress), hostname)
      ensures v.Done? && revision == rev ==> Exact(remote, rows)
    {
      made, orphans := map[], {};
      var kept;
      v, kept, original := Prepare(rev, listing, owned, before, rowsBefore);
      if v.Done? { v, made, orphans := Complete(rev, listing, owned, kept, before, rowsBefore); }
    }

    /** Deletes what is stale and rewrites the ingress. */
    method Prepare(rev: nat, listing: Records, owned: map<Id, Item>, ghost before: Records, ghost rowsBefore: Rows)
      returns (v: Verdict, kept: map<Id, Item>, original: Option<seq<Ingress.Rule>>)
      requires Steady(rev, before, rowsBefore) && listing == remote
      requires (revision == rev ==> Tracks(owned, rows)) && Stocked(before, rowsBefore, owned) && listing == before
      modifies this`remote, this`rows, this`ingress, this`revision, this`enabled, this`status, this`outside,
        this`author, this`frozen, this`log
      ensures Steady(rev, before, rowsBefore) && Quiet()
      ensures v.Done? || (v.Superseded? && revision > rev) || v.Unreachable? || (v.Died? && Dying())
      ensures Calm() && revision == rev ==> v.Done?
      ensures forall id :: id in remote ==> id in listing
      ensures owned == map[] && !tunnel ==> v.Done? && log == old(log) && kept == owned
      ensures v.Done? ==> (revision == rev ==> Tracks(kept, rows)) && Kempt(listing, owned, kept, remote)
      ensures original.Some? ==> tunnel && original.value == old(ingress)
      ensures ingress == old(ingress) || (original.Some? && ingress == Ingress.EnabledIngress(old(ingress), hostname))
      ensures v.Done? && tunnel ==> ingress == Ingress.EnabledIngress(old(ingress), hostname)
    {
      original := None;
      v, kept := KeepGood(rev, listing, owned, before, rowsBefore);
      if v.Done? && tunnel { v, original := EnableIngress(rev); }
    }

    /** The kept records are the owned ones that are at Cloudflare as wanted, and the other owned ones are gone. */
    ghost predicate Kempt(listing: Records, owned: map<Id, Item>, kept: map<Id, Item>, remote: Records)
    {
      && Swept(listing, owned, kept, remote) && AllKept(kept, listing, remote) && Known(kept, remote)
      && forall id :: id in kept ==> Adoptable(remote[id]) && Same(kept[id], ItemOf(remote[id]))
    }

    /** Creates what is missing next to the records that were kept. */
    method Complete(rev: nat, listing: Records, ghost owned: map<Id, Item>, kept: map<Id, Item>, ghost before: Records,
                    ghost rowsBefore: Rows)
      returns (v: Verdict, made: map<Id, Item>, ghost orphans: set<Id>)
      requires Steady(rev, before, rowsBefore) && DistinctDesired() && Older(before, nextId)
      requires listing == before && Kempt(listing, owned, kept, remote) && (revision == rev ==> Tracks(kept, rows))
      requires !Conflicting(listing, owned)
      modifies this`remote, this`nextId, this`rows, this`revision, this`enabled, this`status, this`outside,
        this`author, this`frozen, this`log
      ensures Steady(rev, before, rowsBefore) && Onward() && Storing(v.Done?)
      ensures v.Done? || (v.Superseded? && revision > rev) || v.Unreachable? || (v.Died? && Dying()) || v.Mismatch?
      ensures Calm() && revision == rev ==> v.Done?
      ensures Remembered(revision == rev && !v.Died?, made.Keys, orphans, log, before, remote, rows)
      ensures !v.Died? ==> |orphans| == Losses(log) - old(Losses(log))
      ensures kept == map[] && desired != [] ==> Asked(log, |old(log)|)
      ensures orphans != {} ==> v.Unreachable? || v.Died?
      ensures v.Done? ==> Forgotten(log, made.Keys) == {}
      ensures v.Done? && revision == rev ==> Exact(remote, rows)
    {
      ghost var swept, rowsSwept := remote, rows;
      v, made, orphans := CreateMissing(rev, listing, kept, before, rowsBefore);
      if v.Done? && revision == rev { ExactNow(listing, owned, kept, swept, made, remote, rowsSwept, rows); }
    }

    /** Where nothing is owned or found, the records are listed and the first create follows. */
    ghost predicate Started(log: seq<Step>, n: nat, before: Records, owned: map<Id, Item>)
    {
      n < |log|
      && (before == map[] && owned == map[] && !tunnel && desired != [] && weather(n).fate.Fine? ==> Asked(log, n + 1))
    }

    method TryEnable(rev: nat, httpsObserved: bool, owned: map<Id, Item>, ghost before: Records, ghost rowsBefore: Rows)
      returns (v: Verdict, made: map<Id, Item>, original: Option<seq<Ingress.Rule>>, ghost orphans: set<Id>)
      requires Fence(rev) && Ids(remote, rows, nextId) && Typed(remote, rows) && DistinctDesired() && revision == rev
        && Tracks(owned, rows)
      requires before == remote && rowsBefore == rows
      modifies this`remote, this`nextId, this`rows, this`ingress, this`revision, this`enabled, this`status,
        this`outside, this`author, this`frozen, this`log
      ensures Steady(rev, before, rowsBefore) && Onward() && Storing(v.Done? || v.Conflict?)
      ensures (v.Superseded? ==> revision > rev) && (v.Died? ==> Dying())
      ensures !v.Invalid? && !v.Aborted?
        && (v.Conflict? || v.Done? ==> (v.Conflict? <==> AnyForeign(before, rowsBefore)))
      ensures Calm() ==> v.Done? || v.Conflict?
      ensures Remembered(revision == rev && !v.Died?, made.Keys, orphans, log, before, remote, rows)
      ensures !v.Died? ==> |orphans| == Losses(log) - old(Losses(log))
      ensures Started(log, |old(log)|, before, owned)
      ensures orphans != {} ==> v.Unreachable? || v.Died?
      ensures original.Some? ==> tunnel && original.value == old(ingress)
      ensures ingress == old(ingress) || (original.Some? && ingress == Ingress.EnabledIngress(old(ingress), hostname))
      ensures v.Done? ==>
        && revision == rev && Exact(remote, rows) && author == Some(rev)
        && status == (if httpsObserved then Pending else Active)
        && (tunnel ==> ingress == Ingress.EnabledIngress(old(ingress), hostname))
    {
      made, original, orphans := map[], None, {};
      var listing, held;
      v, listing, held := TakeStock(rev, owned, before, rowsBefore);
      if !v.Done? { return; }
      v, made, original, orphans := EnableStocked(rev, httpsObserved, listing, held, before, rowsBefore);
    }

    /** Converges and notes the outcome. */
    method EnableStocked(rev: nat, httpsObserved: bool, listing: Records, held: map<Id, Item>, ghost before: Records,
                         ghost rowsBefore: Rows)
      returns (v: Verdict, made: map<Id, Item>, original: Option<seq<Ingress.Rule>>, ghost orphans: set<Id>)
      requires Steady(rev, before, rowsBefore) && DistinctDesired() && Older(before, nextId) && listing == remote
      requires (revision == rev ==> Tracks(held, rows)) && Stocked(before, rowsBefore, held) && listing == before
      modifies this`remote, this`nextId, this`rows, this`ingress, this`revision, this`enabled, this`status,
        this`outside, this`author, this`frozen, this`log
      ensures Steady(rev, before, rowsBefore) && Onward() && Storing(v.Done?)
      ensures v.Done? || (v.Superseded? && revision > rev) || v.Unreachable? || (v.Died? && Dying()) || v.Mismatch?
      ensures Calm() && revision == rev ==> v.Done?
      ensures Remembered(revision == rev && !v.Died?, made.Keys, orphans, log, before, remote, rows)
      ensures !v.Died? ==> |orphans| == Losses(log) - old(Losses(log))
      ensures held == map[] && !tunnel && desired != [] ==> Asked(log, |old(log)|)
      ensures orphans != {} ==> v.Unreachable? || v.Died?
      ensures original.Some? ==> tunnel && original.value == old(ingress)
      ensures ingress == old(ingress) || (original.Some? && ingress == Ingress.EnabledIngress(old(ingress), hostname))
      ensures v.Done? ==>
        && revision == rev && Exact(remote, rows) && author == Some(rev)
        && status == (if httpsObserved then Pending else Active)
        && (tunnel ==> ingress == Ingress.EnabledIngress(old(ingress), hostname))
    {
      v, made, original, orphans := Converge(rev, listing, held, before, rowsBefore);
      if v.Done? { v := Conclude(rev, if httpsObserved then Pending else Active); }
    }

    /** Lists the records of the hostname, takes over the marked ones, and looks for one that is not this access's. */
    method TakeStock(rev: nat, owned: map<Id, Item>, ghost before: Records, ghost rowsBefore: Rows)
      returns (v: Verdict, listing: Records, held: map<Id, Item>)
      requires Fence(rev) && Ids(remote, rows, nextId) && Typed(remote, rows) && revision == rev && Tracks(owned, rows)
      requires before == remote && rowsBefore == rows
      modifies this`rows, this`revision, this`enabled, this`status, this`outside, this`author, this`frozen, this`log
      ensures Steady(rev, before, rowsBefore) && Adopting(v.Done? || v.Conflict?) && |log| > |old(log)|
        && listing == before
      ensures v.Done? || v.Conflict? || (v.Superseded? && revision > rev) || v.Unreachable? || (v.Died? && Dying())
      ensures Calm() ==> v.Done? || v.Conflict?
      ensures v.Conflict? || v.Done? ==> (v.Conflict? <==> AnyForeign(before, rowsBefore))
      ensures v.Done? ==> (revision == rev ==> Tracks(held, rows)) && Stocked(before, rowsBefore, held)
      ensures before == map[] && owned == map[] && weather(|old(log)|).fate.Fine? ==>
        v.Done? && held == owned && |log| == |old(log)| + 1
    {
      var reply;
      held := owned;
      reply, listing := ListRecords(rev, Remote);
      if !reply.Ok? { return if reply.Dead? then Died else Unreachable, listing, held; }
      v, held := AdoptMarked(rev, listing, owned, before, rowsBefore);
      if !v.Done? { return; }
      HeldIsMine(before, rowsBefore, owned, held);
      ForeignIff(before, rowsBefore, held);
      if Conflicting(listing, held) { v := Conflict; }
    }

    /** What is held of a hostname without a foreign record. */
    ghost predicate Stocked(before: Records, rowsBefore: Rows, held: map<Id, Item>)
    {
      && OwnedTyped(held, before) && !Conflicting(before, held)
      && forall id :: id in before ==> (Mine(before, rowsBefore, id) <==> id in held)
    }

    /** Notes the outcome, unless the attempt was superseded. */
    method Conclude(rev: nat, to: AccessStatus) returns (v: Verdict)
      requires Fence(rev)
      modifies this`revision, this`enabled, this`status, this`outside, this`author, this`frozen, this`log
      ensures Fence(rev) && Quiet() && !LastFailed(log)
      ensures v.Done? || (v.Superseded? && revision > rev) || v.Unreachable? || (v.Died? && Dying())
      ensures Calm() && revision == rev ==> v.Done?
      ensures v.Done? ==> revision == rev && status == to && author == Some(rev)
    {
      var w := MarkOutcome(rev, to);
      v := VerdictOf(w);
    }

    /** A record of a desired type that is not held. */
    predicate Conflicting(listing: Records, held: map<Id, Item>)
    {
      exists id :: id in listing && WantedKind(listing[id].kind) && id !in held
    }

    lemma ForeignIff(before: Records, rowsBefore: Rows, held: map<Id, Item>)
      requires forall id :: id in before ==> (Mine(before, rowsBefore, id) <==> id in held)
      ensures Conflicting(before, held) <==> AnyForeign(before, rowsBefore)
    {
      if Conflicting(before, held) {
        var id :| id in before && WantedKind(before[id].kind) && id !in held;
        assert Foreign(before, rowsBefore, id);
      }
    }

    lemma HeldIsMine(before: Records, rowsBefore: Rows, owned: map<Id, Item>, held: map<Id, Item>)
      requires Tracks(owned, rowsBefore)
      requires AdoptedSoFar(before, owned, held, {})
      ensures forall id :: id in before ==> (Mine(before, rowsBefore, id) <==> id in held)
    {
    }

    // ------------------------------------------------------------ undoing a failed attempt

    lemma FrameWithoutNew(before: Records, rowsBefore: Rows, remote: Records, rows: Rows, id: Id, remote': Records,
                          rows': Rows)
      requires Frame(before, rowsBefore, remote, rows) && id !in before
      requires remote' == remote || remote' == remote - {id}
      requires rows' == rows || (id in rows' && rows' == rows[id := rows'[id]])
      ensures Frame(before, rowsBefore, remote', rows')
    {
      FrameChange(before, rowsBefore, remote, rows, remote', rows');
    }

    /** The step deletes the record, and fails without an effect. */
    predicate LostDelete(log: seq<Step>, k: nat, id: Id)
    {
      k < |log| && log[k] == Delete(id) && weather(k).fate.LostBefore?
    }

    ghost predicate DeletionLost(log: seq<Step>, from: nat, id: Id)
    {
      exists k :: from <= k < |log| && LostDelete(log, k, id)
    }

    ghost predicate DeletesOnly(log: seq<Step>, from: nat, ids: set<Id>)
    {
      forall k :: from <= k < |log| && log[k].Delete? ==> log[k].id in ids
    }

    method CleanUpOne(rev: nat, id: Id, ghost before: Records, ghost rowsBefore: Rows) returns (e: Ending)
      requires Steady(rev, before, rowsBefore) && id !in before
      modifies this`remote, this`rows, this`revision, this`enabled, this`status, this`outside, this`author,
        this`frozen, this`log
      ensures Steady(rev, before, rowsBefore) && Quiet() && (e.Killed? ==> Dying()) && (e.Abandoned? ==> Breaking())
      ensures remote == if Before(weather(|old(log)|).fate) then old(remote) else old(remote) - {id}
      ensures RowChanged(old(rows), rows, id)
      ensures |log| > |old(log)| && log[|old(log)|] == Delete(id) && DeletesOnly(log, |old(log)| + 1, {})
      ensures e.Finished? ==> !weather(|old(log)|).fate.DiesBefore?
      ensures e.Finished? && revision == rev && id in old(rows) ==> Accounted(remote, rows, id)
    {
      ghost var remoteThen := remote;
      var reply := DeleteRecord(rev, id);
      FrameWithoutNew(before, rowsBefore, remoteThen, rows, id, remote, rows);
      if reply.Dead? { return Killed; }
      e := NoteDeletion(rev, id, reply, before, rowsBefore);
    }

    /** At most the row of the record changes. */
    ghost predicate RowChanged(before: Rows, after: Rows, id: Id)
    {
      after == before || (id in before && id in after && after == before[id := after[id]])
    }

    /** Notes what became of a deletion. */
    method NoteDeletion(rev: nat, id: Id, reply: Reply, ghost before: Records, ghost rowsBefore: Rows)
      returns (e: Ending)
      requires Steady(rev, before, rowsBefore) && id !in before && !reply.Dead?
      modifies this`rows, this`revision, this`enabled, this`status, this`outside, this`author, this`frozen, this`log
      ensures Steady(rev, before, rowsBefore) && Quiet() && (e.Killed? ==> Dying()) && (e.Abandoned? ==> Breaking())
      ensures RowChanged(old(rows), rows, id) && DeletesOnly(log, |old(log)|, {})
      ensures e.Finished? && reply.Lost? && revision == rev && id in old(rows) ==> rows[id].status == CleanupPending
    {
      if !reply.Lost? {
        var w := MarkNew(rev, id, DeletedRow, before, rowsBefore);
        if w.Stopped? { return Killed; }
        if !w.Broke? { return Finished; }
        if reply.NotFound? { return Abandoned; }
      }
      var noted := MarkNew(rev, id, CleanupPending, before, rowsBefore);
      e := match noted case Broke => Abandoned case Stopped => Killed case _ => Finished;
    }

    method MarkNew(rev: nat, id: Id, to: RowStatus, ghost before: Records, ghost rowsBefore: Rows)
      returns (w: Written)
      requires Steady(rev, before, rowsBefore) && id !in before
      modifies this`rows, this`revision, this`enabled, this`status, this`outside, this`author, this`frozen, this`log
      ensures Steady(rev, before, rowsBefore) && Quiet() && log == old(log) + [Store]
      ensures (w.Stopped? ==> Dying()) && (w.Broke? ==> Breaking())
      ensures rows == old(rows) || (id in old(rows) && rows == old(rows)[id := old(rows)[id].(status := to)])
      ensures !w.Broke? && !w.Stopped? && revision == rev && id in old(rows) ==> rows[id].status == to
    {
      ghost var rowsThen := rows;
      w := MarkRow(rev, id, to);
      FrameWithoutNew(before, rowsBefore, remote, rowsThen, id, remote, rows);
    }

    predicate Accounted(remote: Records, rows: Rows, id: Id)
    {
      id !in remote || (id in rows && rows[id].status == CleanupPending)
    }

    /** The records dealt with so far: stored ones are accounted for, others are there if their deletion was lost. */
    ghost predicate Cleaned(current: bool, done: set<Id>, found: Records, remote: Records, rows: Rows, log: seq<Step>,
                            from: nat)
    {
      && (forall id :: id in done ==> (id in remote <==> id in found && DeletionLost(log, from, id)))
      && (current ==> forall id :: id in done && id in rows ==> Accounted(remote, rows, id))
      && DeletesOnly(log, from, done)
    }

    lemma CleanedNext(was: bool, current: bool, done: set<Id>, found: Records, remote: Records, rows: Rows,
                      log: seq<Step>, from: nat, id: Id, remote': Records, rows': Rows, log': seq<Step>)
      requires Cleaned(was, done, found, remote, rows, log, from) && id !in done && (current ==> was)
      requires from <= |log| < |log'| && log <= log' && log'[|log|] == Delete(id) && DeletesOnly(log', |log| + 1, {})
      requires id in remote <==> id in found
      requires remote' == if weather(|log|).fate.LostBefore? then remote else remote - {id}
      requires rows'.Keys == rows.Keys && forall i :: i in rows && i != id ==> rows'[i] == rows[i]
      requires current && id in rows ==> Accounted(remote', rows', id)
      ensures Cleaned(current, done + {id}, found, remote', rows', log', from)
    {
      NotYetLost(log, from, done, id);
      forall i | i in done + {id} ensures i in remote' <==> i in found && DeletionLost(log', from, i) {
        LostLater(log, log', from, id, i);
      }
    }

    lemma NotYetLost(log: seq<Step>, from: nat, done: set<Id>, id: Id)
      requires DeletesOnly(log, from, done) && id !in done
      ensures !DeletionLost(log, from, id)
    {
      forall k | from <= k < |log| ensures !LostDelete(log, k, id) {
      }
    }

    lemma LostLater(log: seq<Step>, log': seq<Step>, from: nat, id: Id, i: Id)
      requires from <= |log| < |log'| && log <= log' && log'[|log|] == Delete(id) && DeletesOnly(log', |log| + 1, {})
      ensures DeletionLost(log', from, i)
        <==> DeletionLost(log, from, i) || (i == id && weather(|log|).fate.LostBefore?)
    {
      if DeletionLost(log, from, i) {
        var k :| from <= k < |log| && LostDelete(log, k, i);
        assert LostDelete(log', k, i);
      }
      if i == id && weather(|log|).fate.LostBefore? { assert LostDelete(log', |log|, i); }
      if DeletionLost(log', from, i) {
        var k :| from <= k < |log'| && LostDelete(log', k, i);
        if k < |log| { assert LostDelete(log, k, i); }
      }
    }

    /** Every record known to be new is deleted, or marked for a later clean-up if it is stored. */
    method CleanUp(rev: nat, created: set<Id>, ghost before: Records, ghost rowsBefore: Rows) returns (e: Ending)
      requires Steady(rev, before, rowsBefore) && (forall id :: id in created ==> id !in before)
      modifies this`remote, this`rows, this`revision, this`enabled, this`status, this`outside, this`author,
        this`frozen, this`log
      ensures Steady(rev, before, rowsBefore) && Quiet() && (e.Killed? ==> Dying()) && (e.Abandoned? ==> Breaking())
      ensures rows.Keys == old(rows).Keys && Untouched(created, old(remote), remote)
      ensures e.Finished? ==> Cleaned(revision == rev, created, old(remote), remote, rows, log, |old(log)|)
    {
      var left := created;
      e := Finished;
      ghost var found, from := remote, |log|;
      while left != {}
        invariant left <= created && e.Finished?
        invariant Steady(rev, before, rowsBefore) && Quiet()
        invariant rows.Keys == old(rows).Keys && Untouched(created - left, found, remote)
        invariant Cleaned(revision == rev, created - left, found, remote, rows, log, from)
        decreases |left|
      {
        var id :| id in left;
        ghost var done := created - left;
        left := left - {id};
        e := CleanUpNext(rev, id, done, found, from, before, rowsBefore);
        assert done + {id} == created - left;
        if !e.Finished? { return; }
      }
      assert created - left == created;
    }

    /** Only these records may be gone. */
    ghost predicate Untouched(ids: set<Id>, found: Records, remote: Records)
    {
      forall id :: id !in ids ==> (id in remote <==> id in found)
    }

    method CleanUpNext(rev: nat, id: Id, ghost done: set<Id>, ghost found: Records, ghost from: nat,
                       ghost before: Records, ghost rowsBefore: Rows)
      returns (e: Ending)
      requires Steady(rev, before, rowsBefore) && id !in before && id !in done && from <= |log|
      requires Cleaned(revision == rev, done, found, remote, rows, log, from) && Untouched(done, found, remote)
      modifies this`remote, this`rows, this`revision, this`enabled, this`status, this`outside, this`author,
        this`frozen, this`log
      ensures Steady(rev, before, rowsBefore) && Quiet() && (e.Killed? ==> Dying()) && (e.Abandoned? ==> Breaking())
      ensures rows.Keys == old(rows).Keys && Untouched(done + {id}, found, remote)
      ensures e.Finished? ==> Cleaned(revision == rev, done + {id}, found, remote, rows, log, from)
    {
      ghost var remoteThen, rowsThen, logThen, was := remote, rows, log, revision == rev;
      e := CleanUpOne(rev, id, before, rowsBefore);
      if e.Finished? {
        CleanedNext(was, revision == rev, done, found, remoteThen, rowsThen, logThen, from, id, remote, rows, log);
      }
    }

    // ------------------------------------------------------------ an attempt to switch off

    method DeleteAll(rev: nat, owned: map<Id, Item>, ghost before: Records, ghost rowsBefore: Rows) returns (v: Verdict)
      requires Steady(rev, before, rowsBefore) && (revision == rev ==> Tracks(owned, rows))
      requires forall id :: id in owned && id in before ==> Mine(before, rowsBefore, id)
      modifies this`remote, this`rows, this`revision, this`enabled, this`status, this`outside, this`author,
        this`frozen, this`log
      ensures Steady(rev, before, rowsBefore) && Quiet()
      ensures v.Done? || (v.Superseded? && revision > rev) || v.Unreachable? || (v.Died? && Dying())
      ensures Calm() && revision == rev ==> v.Done?
      ensures forall id :: id in remote ==> id in old(remote)
      ensures v.Done? ==> Swept(old(remote), owned, map[], remote) && (revision == rev ==> Tracks(map[], rows))
    {
      var left := owned;
      v := Done;
      while left != map[]
        invariant v.Done? && Swept(old(remote), owned, left, remote)
        invariant Steady(rev, before, rowsBefore) && Quiet()
        invariant revision == rev ==> Tracks(left, rows)
        decreases |left|
      {
        var id :| id in left;
        v, left := DeleteTracked(rev, id, owned, left, old(remote), before, rowsBefore);
        if !v.Done? { return; }
      }
    }

    ghost predicate UnmarkedSoFar(listing: Records, left: set<Id>, remote: Records)
    {
      && (forall id :: id in remote ==>
          id in listing && remote[id] == listing[id] && (id in left || !Adoptable(remote[id])))
      && (forall id :: id in left ==> id in remote)
    }

    method DeleteOneMarked(rev: nat, id: Id, ghost before: Records, ghost rowsBefore: Rows) returns (v: Verdict)
      requires Steady(rev, before, rowsBefore) && (revision == rev ==> Tracks(map[], rows))
      requires id in remote && Adoptable(remote[id]) && id in before
      modifies this`remote, this`rows, this`revision, this`enabled, this`status, this`outside, this`author,
        this`frozen, this`log
      ensures Steady(rev, before, rowsBefore) && Adopting(v.Done?)
      ensures v.Done? || (v.Superseded? && revision > rev) || v.Unreachable? || (v.Died? && Dying())
      ensures Calm() && revision == rev ==> v.Done?
      ensures forall i :: i in remote ==> i in old(remote)
      ensures v.Done? ==> remote == old(remote) - {id} && (revision == rev ==> Tracks(map[], rows))
    {
      var one;
      assert Mine(before, rowsBefore, id);
      v, one := AdoptOne(rev, id, map[], before, rowsBefore);
      if !v.Done? { return; }
      v := DeleteOwned(rev, id, before, rowsBefore);
    }

    /** Takes over each marked record and deletes it. */
    method DeleteMarked(rev: nat, listing: Records, ghost before: Records, ghost rowsBefore: Rows) returns (v: Verdict)
      requires Steady(rev, before, rowsBefore) && listing == remote && (revision == rev ==> Tracks(map[], rows))
      requires forall id :: id in listing ==> id in before
      modifies this`remote, this`rows, this`revision, this`enabled, this`status, this`outside, this`author,
        this`frozen, this`log
      ensures Steady(rev, before, rowsBefore) && Adopting(v.Done?)
      ensures v.Done? || (v.Superseded? && revision > rev) || v.Unreachable? || (v.Died? && Dying())
      ensures Calm() && revision == rev ==> v.Done?
      ensures forall id :: id in remote ==> id in old(remote)
      ensures v.Done? ==>
        (forall id :: id in remote ==> !Adoptable(remote[id])) && (revision == rev ==> Tracks(map[], rows))
    {
      var left := listing.Keys;
      v := Done;
      while left != {}
        invariant left <= listing.Keys && v.Done?
        invariant Steady(rev, before, rowsBefore) && Quiet()
        invariant UnmarkedSoFar(listing, left, remote)
        invariant revision == rev ==> Tracks(map[], rows)
        decreases |left|
      {
        var id :| id in left;
        left := left - {id};
        if Adoptable(listing[id]) {
          v := DeleteOneMarked(rev, id, before, rowsBefore);
          if !v.Done? { return; }
        }
      }
    }

    method DisableIngress(ghost rev: nat) returns (v: Verdict)
      requires Fence(rev)
      modifies this`ingress, this`revision, this`enabled, this`status, this`outside, this`author, this`frozen, this`log
      ensures Fence(rev) && Quiet() && (v.Done? || v.Unreachable? || (v.Died? && Dying())) && (Calm() ==> v.Done?)
      ensures ingress == old(ingress) || ingress == Ingress.DisabledIngress(old(ingress), hostname)
      ensures v.Done? ==> ingress == Ingress.DisabledIngress(old(ingress), hostname)
    {
      var reply, rules := ReadIngress(rev);
      if !reply.Ok? { return if reply.Dead? then Died else Unreachable; }
      reply := PutIngress(rev, Ingress.DisabledIngress(rules, hostname));
      v := if reply.Ok? then Done else if reply.Dead? then Died else Unreachable;
    }

    lemma NothingMine(before: Records, rowsBefore: Rows, owned: map<Id, Item>, listing: Records, remote: Records)
      requires Tracks(owned, rowsBefore) && Swept(before, owned, map[], listing)
      requires forall id :: id in remote ==> id in listing && remote[id] == before[id] && !Adoptable(remote[id])
      ensures forall id :: id in remote ==> !Mine(before, rowsBefore, id)
    {
    }

    method TryDisable(rev: nat, owned: map<Id, Item>, ghost before: Records, ghost rowsBefore: Rows)
      returns (v: Verdict)
      requires Fence(rev) && Ids(remote, rows, nextId) && Typed(remote, rows) && revision == rev && Tracks(owned, rows)
      requires before == remote && rowsBefore == rows
      modifies this`remote, this`rows, this`ingress, this`revision, this`enabled, this`status, this`outside,
        this`author, this`frozen, this`log
      ensures Steady(rev, before, rowsBefore) && Adopting(v.Done?)
      ensures v.Done? || (v.Superseded? && revision > rev) || v.Unreachable? || (v.Died? && Dying())
      ensures Calm() ==> v.Done?
      ensures forall id :: id in remote ==> id in before
      ensures ingress == old(ingress) || (tunnel && ingress == Ingress.DisabledIngress(old(ingress), hostname))
      ensures v.Done? ==>
        && revision == rev && author == Some(rev) && status == Disabled
        && (forall id :: id in remote ==> !Mine(before, rowsBefore, id))
        && (forall id :: id in rows ==> rows[id].status == DeletedRow)
        && (tunnel ==> ingress == Ingress.DisabledIngress(old(ingress), hostname))
    {
      v := DeleteEverything(rev, owned, before, rowsBefore);
      if !v.Done? { return; }
      if tunnel {
        v := DisableIngress(rev);
        if !v.Done? { return; }
      }
      v := Conclude(rev, Disabled);
    }

    /** Deletes what is stored as owned and then what is marked. */
    method DeleteEverything(rev: nat, owned: map<Id, Item>, ghost before: Records, ghost rowsBefore: Rows)
      returns (v: Verdict)
      requires Fence(rev) && Ids(remote, rows, nextId) && Typed(remote, rows) && revision == rev && Tracks(owned, rows)
      requires before == remote && rowsBefore == rows
      modifies this`remote, this`rows, this`revision, this`enabled, this`status, this`outside, this`author,
        this`frozen, this`log
      ensures Steady(rev, before, rowsBefore) && Adopting(v.Done?)
      ensures v.Done? || (v.Superseded? && revision > rev) || v.Unreachable? || (v.Died? && Dying())
      ensures Calm() ==> v.Done?
      ensures forall id :: id in remote ==> id in before
      ensures v.Done? ==>
        (forall id :: id in remote ==> !Mine(before, rowsBefore, id)) && (revision == rev ==> Tracks(map[], rows))
    {
      v := DeleteAll(rev, owned, before, rowsBefore);
      if !v.Done? { return; }
      var reply, listing := ListRecords(rev, Remote);
      if !reply.Ok? { return if reply.Dead? then Died else Unreachable; }
      v := DeleteMarked(rev, listing, before, rowsBefore);
      if v.Done? { NothingMine(before, rowsBefore, owned, listing, remote); }
    }

    // ------------------------------------------------------------ one attempt

    /** What every attempt may rely on and leaves behind. */
    ghost predicate Between()
      reads this
    {
      Ids(remote, rows, nextId) && Typed(remote, rows) && Authored()
    }

    ghost predicate NoForeign()
      reads this
    {
      !AnyForeign(remote, rows)
    }

    method Refuse(rev: nat) returns (v: Verdict)
      requires Fence(rev)
      modifies this`revision, this`enabled, this`status, this`outside, this`author, this`frozen, this`log
      ensures Fence(rev) && Quiet()
      ensures v.Invalid? || (v.Superseded? && revision > rev) || (v.Aborted? && Breaking()) || (v.Died? && Dying())
      ensures v.Invalid? ==>
        revision == rev && status == Failed && author == Some(rev) && OnlyLostStay(remote, old(log), remote, rows, log)
    {
      var w := MarkOutcome(rev, Failed);
      LeftBehind(remote, old(log), log, remote, remote, rows, log, {}, {});
      v := match w case Saved => Invalid case Refused => Superseded case Broke => Aborted case Stopped => Died;
    }

    /** Undoes what it can of a failed attempt, and notes the failure unless it was superseded. */
    method Undo(rev: nat, why: Verdict, created: set<Id>, original: Option<seq<Ingress.Rule>>,
                ghost before: Records, ghost rowsBefore: Rows, ghost earlier: seq<Step>, ghost orphans: set<Id>)
      returns (e: Ending)
      requires Steady(rev, before, rowsBefore) && (why.Superseded? ==> revision > rev)
      requires Remembered(revision == rev, created, orphans, log, before, remote, rows)
      requires |earlier| < |log| || created == {}
      requires earlier <= log && |orphans| == Losses(log) - Losses(earlier) && SavedUpTo(earlier, log)
      modifies this`remote, this`rows, this`ingress, this`revision, this`enabled, this`status, this`outside,
        this`author, this`frozen, this`log
      ensures Steady(rev, before, rowsBefore) && Quiet() && (e.Killed? ==> Dying()) && (e.Abandoned? ==> Breaking())
      ensures ingress == old(ingress) || original == Some(ingress)
      ensures e.Finished? && revision == rev ==>
        status == Failed && author == Some(rev) && OnlyLostStay(before, earlier, remote, rows, log)
    {
      ghost var found, mid := remote, log;
      e := CleanUp(rev, created, before, rowsBefore);
      if !e.Finished? { return; }
      ghost var cleaned := log;
      e := NoteFailure(rev, why, original);
      if e.Finished? && revision == rev {
        CleanedLater(true, created, found, remote, rows, cleaned, |mid|, log);
        LeftBehind(before, earlier, mid, found, remote, rows, log, created, orphans);
      }
    }

    /** Puts the rules back that were read, and notes the failure unless the attempt was superseded. */
    method NoteFailure(rev: nat, why: Verdict, original: Option<seq<Ingress.Rule>>) returns (e: Ending)
      requires Fence(rev) && (why.Superseded? ==> revision > rev)
      modifies this`ingress, this`revision, this`enabled, this`status, this`outside, this`author, this`frozen, this`log
      ensures Fence(rev) && Quiet() && (e.Killed? ==> Dying()) && (e.Abandoned? ==> Breaking())
      ensures DeletesOnly(log, |old(log)|, {}) && (ingress == old(ingress) || original == Some(ingress))
      ensures e.Finished? && revision == rev ==> status == Failed && author == Some(rev)
    {
      if original.Some? {
        var put := PutIngress(rev, original.value);
        if put.Dead? { return Killed; }
      }
      if why.Superseded? { return Finished; }
      var w := MarkOutcome(rev, Failed);
      e := match w case Broke => Abandoned case Stopped => Killed case _ => Finished;
    }

    /** Only the last step may have failed to store a record. */
    ghost predicate SavedUpTo(earlier: seq<Step>, log: seq<Step>)
    {
      Unsaved(log) == Unsaved(earlier) || (Unsaved(log) == Unsaved(earlier) + 1 && LastFailed(log))
    }

    lemma CleanedLater(current: bool, done: set<Id>, found: Records, remote: Records, rows: Rows, log: seq<Step>,
                       from: nat, log': seq<Step>)
      requires Cleaned(current, done, found, remote, rows, log, from) && from <= |log| && log <= log'
      requires DeletesOnly(log', |log|, {})
      ensures Cleaned(current, done, found, remote, rows, log', from)
    {
      forall i ensures DeletionLost(log', from, i) <==> DeletionLost(log, from, i) {
        if k :| from <= k < |log| && LostDelete(log, k, i) { assert LostDelete(log', k, i); }
        if k :| from <= k < |log'| && LostDelete(log', k, i) { assert LostDelete(log, k, i); }
      }
    }

    /** A new record that is not marked for a later clean-up. */
    ghost predicate Unaccounted(before: Records, remote: Records, rows: Rows, id: Id)
    {
      id in remote && id !in before && !Accounted(remote, rows, id)
    }

    /** A record was not stored because of a failure, and then it was not deleted because of another one. */
    ghost predicate Stranding(log: seq<Step>, i: nat, k: nat)
    {
      i < k < |log| && FailedSave(log, i) && LostDelete(log, k, log[i].id)
    }

    ghost predicate StrandedSince(earlier: seq<Step>, log: seq<Step>)
    {
      exists i: nat, k: nat :: |earlier| <= i && Stranding(log, i, k)
    }

    /** Since `earlier` a create and its look-up were lost, or a record was stranded. */
    ghost predicate LostSight(earlier: seq<Step>, log: seq<Step>)
    {
      (exists k :: |earlier| <= k < |log| && Orphaning(log, k)) || StrandedSince(earlier, log)
    }

    /** A new record is unaccounted exactly when one was lost sight of, and then it is the only one. */
    ghost predicate OnlyLostStay(before: Records, earlier: seq<Step>, remote: Records, rows: Rows, log: seq<Step>)
    {
      && ((exists id :: Unaccounted(before, remote, rows, id)) <==> LostSight(earlier, log))
      && forall i, j :: Unaccounted(before, remote, rows, i) && Unaccounted(before, remote, rows, j) ==> i == j
    }

    /** `mid` is the log when the clean-up begins. */
    lemma LeftBehind(before: Records, earlier: seq<Step>, mid: seq<Step>, found: Records, remote: Records, rows: Rows,
                     log: seq<Step>, created: set<Id>, orphans: set<Id>)
      requires earlier <= mid <= log && SavedUpTo(earlier, mid) && Unsaved(log) == Unsaved(mid)
      requires |earlier| < |mid| || created == {}
      requires |orphans| == Losses(log) - Losses(earlier)
      requires Remembered(true, created, orphans, mid, before, found, rows)
      requires Untouched(created, found, remote)
      requires Cleaned(true, created, found, remote, rows, log, |mid|)
      ensures OnlyLostStay(before, earlier, remote, rows, log)
    {
      var failed := Forgotten(mid, created);
      forall id ensures Unaccounted(before, remote, rows, id)
        <==> id in orphans || (id in failed && DeletionLost(log, |mid|, id))
      {
        if id in created && id !in rows { assert id in failed; }
      }
      LossesIff(earlier, log);
      StrandedIff(earlier, mid, log, created);
      if id :| id in orphans { assert Unaccounted(before, remote, rows, id); }
      forall i, j | Unaccounted(before, remote, rows, i) && Unaccounted(before, remote, rows, j) ensures i == j {
        if i != j && i in orphans && j in orphans { SizeTwo(i, j, orphans); }
      }
    }

    /** A stranded record is the made one that the last step before the clean-up failed to store. */
    lemma StrandedIff(earlier: seq<Step>, mid: seq<Step>, log: seq<Step>, created: set<Id>)
      requires earlier <= mid <= log && SavedUpTo(earlier, mid) && Unsaved(log) == Unsaved(mid)
      requires |earlier| < |mid| || created == {}
      requires DeletesOnly(log, |mid|, created)
      ensures StrandedSince(earlier, log)
        <==> exists id :: id in Forgotten(mid, created) && DeletionLost(log, |mid|, id)
    {
      if StrandedSince(earlier, log) { StrandedIsForgotten(earlier, mid, log, created); }
      if id :| id in Forgotten(mid, created) && DeletionLost(log, |mid|, id) {
        var k: nat :| |mid| <= k < |log| && LostDelete(log, k, id);
        var i: nat := |mid| - 1;
        assert log[i] == mid[i] && |earlier| <= i && Stranding(log, i, k);
      }
    }

    lemma StrandedIsForgotten(earlier: seq<Step>, mid: seq<Step>, log: seq<Step>, created: set<Id>)
      requires earlier <= mid <= log && SavedUpTo(earlier, mid) && Unsaved(log) == Unsaved(mid)
      requires DeletesOnly(log, |mid|, created) && StrandedSince(earlier, log)
      ensures exists id :: id in Forgotten(mid, created) && DeletionLost(log, |mid|, id)
    {
      var i: nat, k: nat :| |earlier| <= i && Stranding(log, i, k);
      UnsavedIff(mid, log);
      assert i < |mid| && FailedSave(mid, i) && log[i] == mid[i];
      OnlyLastFailed(earlier, mid, i);
      assert k >= |mid| && log[k] == Delete(mid[i].id);
      assert mid[i].id in Forgotten(mid, created) && LostDelete(log, k, mid[i].id);
    }

    lemma OnlyLastFailed(earlier: seq<Step>, mid: seq<Step>, i: nat)
      requires earlier <= mid && SavedUpTo(earlier, mid) && |earlier| <= i && FailedSave(mid, i)
      ensures i == |mid| - 1
    {
      UnsavedIff(earlier, mid);
      var shorter := mid[..|mid| - 1];
      UnsavedIff(earlier, shorter);
      if i < |mid| - 1 { assert FailedSave(shorter, i); }
    }

    lemma SizeTwo(i: Id, j: Id, s: set<Id>)
      requires i != j && i in s && j in s
      ensures |s| >= 2
    {
      assert |s - {i} - {j}| == |s| - 2;
    }

    /**
     * One attempt, under the access's lock. `topologyValid` stands for the checks of account, zone, route and
     * connector, `tokenReadable` for the decryption of the account's credentials.
     */
    method Reconcile(topologyValid: bool, tokenReadable: bool, httpsObserved: bool) returns (v: Verdict)
      requires Between() && DistinctDesired()
      modifies this`remote, this`nextId, this`rows, this`ingress, this`revision, this`enabled, this`status,
        this`outside, this`author, this`frozen, this`log
      ensures Between() && Onward()
      ensures Fence(old(revision)) && Frame(old(remote), old(rows), remote, rows)
      ensures ingress == old(ingress) || (tunnel && ingress == Rewritten(old(enabled), old(ingress)))
      ensures v.Done? ==> revision == old(revision) && author == Some(revision)
      ensures v.Done? ==> Achieved(old(enabled), httpsObserved, old(remote), old(rows), old(ingress))
      ensures FairWithin(|old(log)|, |log|) ==>
        (v.Done? <==> tokenReadable && (old(enabled) ==> topologyValid && old(NoForeign())))
      ensures !v.Done? && !v.Aborted? && !v.Died? && revision == old(revision) ==>
        && status == Failed && author == Some(revision)
        && OnlyLostStay(old(remote), old(log), remote, rows, log)
      ensures v.Done? ==> Losses(log) == old(Losses(log))
      ensures (v.Died? ==> Dying()) && (v.Aborted? ==> Breaking())
      ensures old(enabled) && topologyValid && tokenReadable && old(rows) == map[] ==>
        Started(log, |old(log)|, old(remote), map[])
    {
      var rev, on := revision, enabled;
      ghost var before, rowsBefore := remote, rows;
      var owned := Owned(rows);
      CalmFrom(|log|);
      if (on && !topologyValid) || !tokenReadable {
        v := Refuse(rev);
        return;
      }
      var made, original;
      ghost var orphans;
      v, made, original, orphans := Try(rev, on, httpsObserved, owned, before, rowsBefore);
      if v.Done? || v.Died? { return; }
      var e := Undo(rev, v, made.Keys, original, before, rowsBefore, old(log), orphans);
      if e.Killed? { v := Died; } else if e.Abandoned? { v := Aborted; }
    }

    function Rewritten(on: bool, rules: seq<Ingress.Rule>): seq<Ingress.Rule>
    {
      if on then Ingress.EnabledIngress(rules, hostname) else Ingress.DisabledIngress(rules, hostname)
    }

    /** The access is as it was asked for: exactly the desired records, or nothing of it is left. */
    ghost predicate Achieved(on: bool, httpsObserved: bool, before: Records, rowsBefore: Rows, rules: seq<Ingress.Rule>)
      reads this
    {
      && (tunnel ==> ingress == Rewritten(on, rules))
      && if on then Exact(remote, rows) && status == (if httpsObserved then Pending else Active)
         else status == Disabled && (forall id :: id in remote <==> id in before && !Mine(before, rowsBefore, id))
              && (forall id :: id in rows ==> rows[id].status == DeletedRow)
    }

    /** The part of an attempt that is undone if it fails. */
    method Try(rev: nat, on: bool, httpsObserved: bool, owned: map<Id, Item>, ghost before: Records,
               ghost rowsBefore: Rows)
      returns (v: Verdict, made: map<Id, Item>, original: Option<seq<Ingress.Rule>>, ghost orphans: set<Id>)
      requires Fence(rev) && Ids(remote, rows, nextId) && Typed(remote, rows) && DistinctDesired() && revision == rev
        && Tracks(owned, rows)
      requires before == remote && rowsBefore == rows
      modifies this`remote, this`nextId, this`rows, this`ingress, this`revision, this`enabled, this`status,
        this`outside, this`author, this`frozen, this`log
      ensures Steady(rev, before, rowsBefore) && Onward() && Storing(v.Done? || v.Conflict?)
      ensures (v.Superseded? ==> revision > rev) && (v.Died? ==> Dying()) && !v.Invalid? && !v.Aborted?
      ensures Calm() ==> (v.Done? <==> on ==> !AnyForeign(before, rowsBefore))
      ensures v.Died? || Remembered(revision == rev, made.Keys, orphans, log, before, remote, rows)
      ensures !v.Died? ==> |orphans| == Losses(log) - old(Losses(log))
      ensures v.Done? ==> orphans == {}
      ensures made != map[] ==> |old(log)| < |log|
      ensures on ==> Started(log, |old(log)|, before, owned)
      ensures original.Some? ==> original.value == old(ingress)
      ensures ingress == old(ingress) || (tunnel && ingress == Rewritten(on, old(ingress)))
      ensures v.Done? ==>
        revision == rev && author == Some(rev) && Achieved(on, httpsObserved, before, rowsBefore, old(ingress))
    {
      if on {
        v, made, original, orphans := TryEnable(rev, httpsObserved, owned, before, rowsBefore);
      } else {
        v := TryDisable(rev, owned, before, rowsBefore);
        made, original, orphans := map[], None, {};
      }
    }

    /** No attempt, however it ends, makes a record foreign. */
    lemma FrameNoForeign(before: Records, rowsBefore: Rows, remote: Records, rows: Rows)
      requires Frame(before, rowsBefore, remote, rows)
      ensures AnyForeign(remote, rows) ==> AnyForeign(before, rowsBefore)
    {
      if id :| Foreign(remote, rows, id) { assert Foreign(before, rowsBefore, id); }
    }

    /** Nothing of this access is left: no record it owns or marked, and no row that is not deleted. */
    ghost predicate Gone()
      reads this
    {
      (forall id :: id in remote ==> !Mine(remote, rows, id)) && forall id :: id in rows ==>
        rows[id].status == DeletedRow
    }

    /**
     * Attempts are repeated whatever becomes of them, with the access changed between and during them. If the hostname
     * has no foreign record of a desired type, then once the weather is fair for good and topology and credentials are
     * in order, the access ends as it was last asked for.
     */
    method Recover(topologyValid: nat -> bool, tokenReadable: nat -> bool, httpsObserved: bool, clear: nat)
      returns (v: Verdict)
      requires Between() && DistinctDesired() && NoForeign()
      requires forall k :: k >= clear ==> Fair(k) && topologyValid(k) && tokenReadable(k)
      modifies this`remote, this`nextId, this`rows, this`ingress, this`revision, this`enabled, this`status,
        this`outside, this`author, this`frozen, this`log
      ensures Between() && NoForeign() && v.Done? && author == Some(revision)
      ensures if enabled then Exact(remote, rows) && status == (if httpsObserved then Pending else Active)
        else Gone() && status == Disabled
    {
      while |log| < clear
        invariant Between() && NoForeign()
        decreases clear - |log|
      {
        ghost var before, rowsBefore := remote, rows;
        var _ := Reconcile(topologyValid(|log|), tokenReadable(|log|), httpsObserved);
        FrameNoForeign(before, rowsBefore, remote, rows);
        var _ := Pass(revision, Wait);
      }
      ghost var before, rowsBefore, start := remote, rows, |log|;
      v := Reconcile(topologyValid(|log|), tokenReadable(|log|), httpsObserved);
      FrameNoForeign(before, rowsBefore, remote, rows);
      CalmIff(start, |log|);
    }
  }

  /**
   * The promise to clean up fails: on an empty hostname the first create takes effect without an answer, its look-up
   * fails, and the record stays behind with no row that names it.
   */
  method LoseSight(item: Item) returns (a: Access)
    ensures a.log != [] && a.revision == 1 && a.enabled && a.status == Failed && a.author == Some(1)
    ensures exists id :: a.Unaccounted(map[], a.remote, a.rows, id)
  {
    a := new Access(true, false, "app.example.org", [item],
                    k => Moment([], if k == 1 then LostAfter else if k == 2 then LostBefore else Fine));
    var v := a.Reconcile(true, true, false);
    Unchanged(a, |a.log|);
    assert a.Asked(a.log, 1);
    assert a.Orphaning(a.log, 2);
    a.LossesIff([], a.log);
  }

  lemma {:induction false} Unchanged(a: Access, n: nat)
    requires forall k :: 0 <= k < n ==> a.weather(k).changes == []
    ensures a.Turns(n) == 0
  {
    if n > 0 { Unchanged(a, n - 1); }
  }
}
