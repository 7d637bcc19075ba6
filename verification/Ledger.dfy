/**
  What every transaction keeps of leases and events, whatever batch a device
  sends: leases of a Run carry increasing epochs, an epoch's events are exactly
  1..ack, and events commit in (epoch, sequence) order.
*/
module Ledger {
  import opened Wrappers
  import opened RunTypes
  import opened EventLog
  import opened TerminalOutput
  import opened RunProtocol

  // ------------------------------------------------------------- invariant

  ghost predicate LeaseLinked(runs: seq<Run>, l: Lease) {
    l.grant.run < |runs| && 1 <= l.grant.epoch <= runs[l.grant.run].leaseEpoch
    && l.grant.owner == runs[l.grant.run].spec.owner
  }

  ghost predicate LeasesLinked(runs: seq<Run>, leases: seq<Lease>) {
    forall i :: 0 <= i < |leases| ==> LeaseLinked(runs, leases[i])
  }

  ghost predicate EpochsIncrease(leases: seq<Lease>) {
    forall i, j :: 0 <= i < j < |leases| && leases[i].grant.run == leases[j].grant.run ==>
      leases[i].grant.epoch < leases[j].grant.epoch
  }

  ghost predicate RowLinked(leases: seq<Lease>, e: Record) {
    e.lease < |leases| && 1 <= e.env.sequence <= leases[e.lease].ack
    && leases[e.lease].grant.run == e.env.run && leases[e.lease].grant.epoch == e.env.epoch
    && leases[e.lease].grant.device == e.env.device
  }

  ghost predicate RowsLinked(leases: seq<Lease>, events: seq<Record>) {
    forall j :: 0 <= j < |events| ==> RowLinked(leases, events[j])
  }

  function LeaseLog(l: Lease, events: seq<Record>): seq<Record> {
    EpochLog(events, l.grant.run, l.grant.epoch)
  }

  ghost predicate GapFree(l: Lease, events: seq<Record>) {
    |LeaseLog(l, events)| == l.ack && Numbered(LeaseLog(l, events))
  }

  ghost predicate LogsGapFree(leases: seq<Lease>, events: seq<Record>) {
    forall i :: 0 <= i < |leases| ==> GapFree(leases[i], events)
  }

  /** Lexicographic order on (epoch, sequence). */
  predicate Before(a: Envelope, b: Envelope) {
    a.epoch < b.epoch || (a.epoch == b.epoch && a.sequence < b.sequence)
  }

  ghost predicate InCommitOrder(events: seq<Record>) {
    forall j, k :: 0 <= j < k < |events| && events[j].env.run == events[k].env.run ==>
      Before(events[j].env, events[k].env)
  }

  ghost predicate IdsDistinct(events: seq<Record>) {
    forall j, k :: 0 <= j < k < |events| ==> events[j].id != events[k].id
  }

  ghost predicate Valid(s: Server) {
    LeasesLinked(s.runs, s.leases) && EpochsIncrease(s.leases) && RowsLinked(s.leases, s.events)
    && LogsGapFree(s.leases, s.events) && InCommitOrder(s.events) && IdsDistinct(s.events)
  }

  // ------------------------------------------------- what steps never undo

  ghost predicate RunKept(a: Run, b: Run) { a.spec == b.spec && a.leaseEpoch <= b.leaseEpoch }

  ghost predicate LeaseKept(a: Lease, b: Lease) {
    a.grant == b.grant && a.ack <= b.ack && (b.status.Active? ==> a.status.Active?)
    && (!a.status.Active? ==> a.status == b.status && a.expiresAt == b.expiresAt)
  }

  ghost predicate DevicesKept(a: map<DeviceId, Device>, b: map<DeviceId, Device>) {
    forall d :: d in a ==> d in b && b[d].owner == a[d].owner
  }

  /** Nothing committed is ever taken back. */
  ghost predicate Extends(s: Server, t: Server) {
    && |s.runs| <= |t.runs| && |s.leases| <= |t.leases| && s.events <= t.events
    && DevicesKept(s.devices, t.devices)
    && (forall r :: 0 <= r < |s.runs| ==> RunKept(s.runs[r], t.runs[r]))
    && (forall i :: 0 <= i < |s.leases| ==> LeaseKept(s.leases[i], t.leases[i]))
  }

  lemma ExtendsTransitive(s: Server, t: Server, u: Server)
    requires Extends(s, t) && Extends(t, u)
    ensures Extends(s, u)
  {
    forall r | 0 <= r < |s.runs| ensures RunKept(s.runs[r], u.runs[r]) {
      assert RunKept(s.runs[r], t.runs[r]) && RunKept(t.runs[r], u.runs[r]);
    }
    forall i | 0 <= i < |s.leases| ensures LeaseKept(s.leases[i], u.leases[i]) {
      assert LeaseKept(s.leases[i], t.leases[i]) && LeaseKept(t.leases[i], u.leases[i]);
    }
  }

  ghost predicate RunsQuiet(a: seq<Run>, b: seq<Run>) {
    |a| <= |b| && forall r :: 0 <= r < |a| ==> a[r].spec == b[r].spec && a[r].leaseEpoch == b[r].leaseEpoch
  }

  ghost predicate LeasesQuiet(a: seq<Lease>, b: seq<Lease>) {
    |a| == |b| && forall i :: 0 <= i < |a| ==> LeaseKept(a[i], b[i]) && a[i].ack == b[i].ack
  }

  /** A step that grants no lease and commits no event. */
  ghost predicate Quiet(s: Server, t: Server) {
    RunsQuiet(s.runs, t.runs) && LeasesQuiet(s.leases, t.leases) && s.events == t.events
    && DevicesKept(s.devices, t.devices)
  }

  lemma QuietTransitive(s: Server, t: Server, u: Server)
    requires Quiet(s, t) && Quiet(t, u)
    ensures Quiet(s, u)
  {
    forall i | 0 <= i < |s.leases|
      ensures LeaseKept(s.leases[i], u.leases[i]) && s.leases[i].ack == u.leases[i].ack
    {
      assert LeaseKept(s.leases[i], t.leases[i]) && LeaseKept(t.leases[i], u.leases[i]);
    }
  }

  lemma QuietExtends(s: Server, t: Server)
    requires Quiet(s, t)
    ensures Extends(s, t)
  {}

  lemma QuietKeepsValid(s: Server, t: Server)
    requires Valid(s) && Quiet(s, t)
    ensures Valid(t)
  {
    forall i | 0 <= i < |t.leases| ensures LeaseLinked(t.runs, t.leases[i]) && GapFree(t.leases[i], t.events) {
      assert LeaseKept(s.leases[i], t.leases[i]);
      assert LeaseLinked(s.runs, s.leases[i]) && GapFree(s.leases[i], s.events);
    }
    forall j | 0 <= j < |t.events| ensures RowLinked(t.leases, t.events[j]) {
      assert RowLinked(s.leases, s.events[j]);
      assert LeaseKept(s.leases[s.events[j].lease], t.leases[s.events[j].lease]);
    }
    forall i, j | 0 <= i < j < |t.leases| && t.leases[i].grant.run == t.leases[j].grant.run
      ensures t.leases[i].grant.epoch < t.leases[j].grant.epoch
    {
      assert LeaseKept(s.leases[i], t.leases[i]) && LeaseKept(s.leases[j], t.leases[j]);
    }
  }

  // ------------------------------------------------------------ quiet steps

  lemma ServerTerminalIsQuiet(s: Server, r: RunId, status: RunStatus, code: string, text: string, now: Time)
    requires r < |s.runs|
    ensures Quiet(s, ServerTerminal(s, r, status, code, text, now))
  {}

  lemma RecoverIsQuiet(s: Server, r: RunId, now: Time)
    ensures Quiet(s, RecoverRun(s, r, now)) && |RecoverRun(s, r, now).runs| == |s.runs|
  {
    if r < |s.runs| {
      ServerTerminalIsQuiet(s, r, Failed, "lease_recovery_exhausted", "Run lease recovery limit exceeded", now);
    }
  }

  lemma DropIsQuiet(s: Server, i: LeaseId, to: LeaseStatus, now: Time)
    requires i < |s.leases| && s.leases[i].status.Active? && !to.Active?
    ensures Quiet(s, DropLease(s, i, to, now)) && |DropLease(s, i, to, now).runs| == |s.runs|
  {
    var t := s.(leases := s.leases[i := s.leases[i].(status := to)]);
    assert Quiet(s, t);
    RecoverIsQuiet(t, s.leases[i].grant.run, now);
    QuietTransitive(s, t, DropLease(s, i, to, now));
  }

  lemma {:induction false} DropFromIsQuiet(s: Server, i: nat, doomed: Doomed, now: Time)
    ensures Quiet(s, DropFrom(s, i, doomed, now)) && |DropFrom(s, i, doomed, now).runs| == |s.runs|
    decreases |s.leases| - i
  {
    if i < |s.leases| {
      if doomed.Hits(s.leases[i]) {
        DropIsQuiet(s, i, doomed.Outcome(), now);
        var t := DropLease(s, i, doomed.Outcome(), now);
        DropFromIsQuiet(t, i + 1, doomed, now);
        QuietTransitive(s, t, DropFrom(s, i, doomed, now));
      } else {
        DropFromIsQuiet(s, i + 1, doomed, now);
      }
    }
  }

  lemma ApplyIsQuiet(s: Server, e: Envelope, now: Time)
    requires e.run < |s.runs|
    ensures Quiet(s, ApplyEvent(s, e, now)) && |ApplyEvent(s, e, now).runs| == |s.runs|
    ensures ApplyEvent(s, e, now).leases == s.leases
  {}

  // ---------------------------------------------------------------- grants

  /** No committed row mentions an epoch the Run has not reached. */
  lemma NothingBeyondEpoch(s: Server, r: RunId, epoch: nat)
    requires Valid(s) && r < |s.runs| && epoch > s.runs[r].leaseEpoch
    ensures EpochLog(s.events, r, epoch) == []
  {
    forall j | 0 <= j < |s.events| ensures !InEpoch(s.events[j], r, epoch) {
      assert RowLinked(s.leases, s.events[j]);
      assert LeaseLinked(s.runs, s.leases[s.events[j].lease]);
    }
    EpochLogNone(s.events, r, epoch);
  }

  lemma GrantKeepsValid(s: Server, p: Principal, r: RunId, seconds: int, now: Time)
    requires Valid(s) && r < |s.runs| && s.runs[r].spec.owner == p.owner
    ensures Valid(GrantLease(s, p, r, seconds, now)) && Extends(s, GrantLease(s, p, r, seconds, now))
  {
    var t := GrantLease(s, p, r, seconds, now);
    NothingBeyondEpoch(s, r, s.runs[r].leaseEpoch + 1);
    forall i | 0 <= i < |t.leases| ensures LeaseLinked(t.runs, t.leases[i]) && GapFree(t.leases[i], t.events) {
      if i < |s.leases| {
        assert LeaseLinked(s.runs, s.leases[i]) && GapFree(s.leases[i], s.events);
      }
    }
    forall i, j | 0 <= i < j < |t.leases| && t.leases[i].grant.run == t.leases[j].grant.run
      ensures t.leases[i].grant.epoch < t.leases[j].grant.epoch
    {
      assert LeaseLinked(s.runs, s.leases[i]);
    }
    forall j | 0 <= j < |t.events| ensures RowLinked(t.leases, t.events[j]) {
      assert RowLinked(s.leases, s.events[j]);
    }
  }

  // ---------------------------------------------------------------- events

  /** Within one lease, its id, its Run and epoch all name the same rows. */
  lemma SameEpochSameLease(leases: seq<Lease>, i: LeaseId, j: LeaseId)
    requires EpochsIncrease(leases) && i < |leases| && j < |leases|
    requires leases[i].grant.run == leases[j].grant.run && leases[i].grant.epoch == leases[j].grant.epoch
    ensures i == j
  {
    if i < j { assert false; }
    if j < i { assert false; }
  }

  /** The row a lease commits next. */
  ghost predicate NextRow(s: Server, row: Record) {
    && row.lease < |s.leases|
    && row.env.run == s.leases[row.lease].grant.run && row.env.epoch == s.leases[row.lease].grant.epoch
    && row.env.device == s.leases[row.lease].grant.device
    && row.env.sequence == s.leases[row.lease].ack + 1
    && row.env.run < |s.runs| && row.env.epoch == s.runs[row.env.run].leaseEpoch
    && forall j :: 0 <= j < |s.events| ==> s.events[j].id != row.id
  }

  function Append(s: Server, row: Record): Server
    requires row.lease < |s.leases|
  {
    SetAck(s.(events := s.events + [row]), row.lease, s.leases[row.lease].ack + 1)
  }

  lemma AppendKeepsOrder(s: Server, row: Record)
    requires Valid(s) && NextRow(s, row)
    ensures InCommitOrder(s.events + [row]) && IdsDistinct(s.events + [row])
  {
    forall j | 0 <= j < |s.events| && s.events[j].env.run == row.env.run
      ensures Before(s.events[j].env, row.env)
    {
      var e := s.events[j];
      assert RowLinked(s.leases, e);
      assert LeaseLinked(s.runs, s.leases[e.lease]);
      if e.env.epoch == row.env.epoch {
        SameEpochSameLease(s.leases, e.lease, row.lease);
      }
    }
  }

  lemma AppendKeepsLogs(s: Server, row: Record)
    requires Valid(s) && NextRow(s, row)
    ensures LogsGapFree(Append(s, row).leases, s.events + [row])
  {
    var t := Append(s, row);
    forall i | 0 <= i < |t.leases| ensures GapFree(t.leases[i], t.events) {
      assert GapFree(s.leases[i], s.events);
      EpochLogAppend(s.events, row, s.leases[i].grant.run, s.leases[i].grant.epoch);
      if InEpoch(row, s.leases[i].grant.run, s.leases[i].grant.epoch) {
        SameEpochSameLease(s.leases, i, row.lease);
      }
    }
  }

  lemma AppendKeepsLinks(s: Server, row: Record)
    requires Valid(s) && NextRow(s, row)
    ensures LeasesLinked(s.runs, Append(s, row).leases) && RowsLinked(Append(s, row).leases, s.events + [row])
  {
    var t := Append(s, row);
    forall i | 0 <= i < |t.leases| ensures LeaseLinked(t.runs, t.leases[i]) {
      assert LeaseLinked(s.runs, s.leases[i]);
    }
    forall j | 0 <= j < |t.events| ensures RowLinked(t.leases, t.events[j]) {
      if j < |s.events| { assert RowLinked(s.leases, s.events[j]); }
    }
  }

  lemma AppendKeepsValid(s: Server, row: Record)
    requires Valid(s) && NextRow(s, row)
    ensures Valid(Append(s, row)) && Extends(s, Append(s, row))
  {
    AppendKeepsOrder(s, row);
    AppendKeepsLogs(s, row);
    AppendKeepsLinks(s, row);
  }

  /** The tables a submission would commit if it stopped here. */
  function Commit(c: Cursor, i: LeaseId): Server
    requires i < |c.srv.leases|
  {
    SetAck(c.srv, i, c.ack)
  }

  ghost predicate CursorOk(c: Cursor, i: LeaseId, lease: Lease) {
    && i < |c.srv.leases| && c.srv.leases[i].grant == lease.grant && lease.grant.run < |c.srv.runs|
    && c.srv.runs[lease.grant.run].leaseEpoch == lease.grant.epoch
    && (lease.status.Active? ==> c.srv.leases[i].status.Active? || c.srv.leases[i].status.Closed?)
    && Valid(Commit(c, i))
  }

  /** Applying an event after appending it changes nothing the ledger reads. */
  lemma ApplyAfterAppend(c: Cursor, i: LeaseId, row: Record, now: Time)
    requires i < |c.srv.leases| && row.lease == i && row.env.run < |c.srv.runs| && row.env.sequence == c.ack + 1
    requires c.srv.leases[i].status.Active? || c.srv.leases[i].status.Closed?
    ensures InsertEvent(c, row, now).ack == c.ack + 1
    ensures InsertEvent(c, row, now).srv.events == c.srv.events + [row]
    ensures |InsertEvent(c, row, now).srv.leases| == |c.srv.leases|
    ensures Quiet(Append(Commit(c, i), row), Commit(InsertEvent(c, row, now), i))
    ensures LeaseAfterInsert(c.srv.leases[i], InsertEvent(c, row, now).srv.leases[i])
  {
    ApplyIsQuiet(c.srv.(events := c.srv.events + [row]), row.env, now);
  }

  ghost predicate LeaseAfterInsert(a: Lease, b: Lease) {
    a.grant == b.grant && (a.status.Active? || a.status.Closed? ==> b.status.Active? || b.status.Closed?)
  }

  lemma InsertKeepsValid(c: Cursor, i: LeaseId, lease: Lease, row: Record, now: Time)
    requires CursorOk(c, i, lease) && lease.status.Active?
    requires row.lease == i && row.env.run == lease.grant.run && row.env.epoch == lease.grant.epoch
    requires row.env.device == lease.grant.device && row.env.sequence == c.ack + 1
    requires forall j :: 0 <= j < |c.srv.events| ==> c.srv.events[j].id != row.id
    ensures CursorOk(InsertEvent(c, row, now), i, lease)
    ensures Extends(Commit(c, i), Commit(InsertEvent(c, row, now), i))
    ensures InsertEvent(c, row, now).srv.events == c.srv.events + [row]
  {
    var s, next := Commit(c, i), InsertEvent(c, row, now);
    AppendKeepsValid(s, row);
    ApplyAfterAppend(c, i, row, now);
    QuietKeepsValid(Append(s, row), Commit(next, i));
    QuietExtends(Append(s, row), Commit(next, i));
    ExtendsTransitive(s, Append(s, row), Commit(next, i));
  }

  lemma ExtendsSelf(s: Server)
    ensures Extends(s, s)
  {}

  lemma SubmitOneKeepsValid(c: Cursor, i: LeaseId, lease: Lease, m: EventMessage, now: Time)
    requires CursorOk(c, i, lease) && SubmitOne(c, i, lease, m, now).Success?
    ensures CursorOk(SubmitOne(c, i, lease, m, now).value, i, lease)
    ensures Extends(Commit(c, i), Commit(SubmitOne(c, i, lease, m, now).value, i))
  {
    var env := MessageEnvelope(lease, m);
    match FindExisting(c.srv.events, m.id, env.run, env.epoch, m.sequence)
    case Some(row) =>
      AlreadyCommitted(c, i, lease, row);
      ExtendsSelf(Commit(c, i));
    case None => InsertKeepsValid(c, i, lease, Record(m.id, i, env), now);
  }

  /** A committed row of this lease never lies above the high water. */
  lemma AlreadyCommitted(c: Cursor, i: LeaseId, lease: Lease, row: Record)
    requires CursorOk(c, i, lease) && row in c.srv.events
    requires row.env.run == lease.grant.run && row.env.epoch == lease.grant.epoch
    ensures 1 <= row.env.sequence <= c.ack && row.lease == i
  {
    var s := Commit(c, i);
    var j :| 0 <= j < |s.events| && s.events[j] == row;
    assert RowLinked(s.leases, s.events[j]);
    SameEpochSameLease(s.leases, i, row.lease);
  }

  lemma {:induction false} SubmitAllKeepsValid(c: Cursor, i: LeaseId, lease: Lease, ms: seq<EventMessage>, now: Time)
    requires CursorOk(c, i, lease) && SubmitAll(c, i, lease, ms, now).Success?
    ensures CursorOk(SubmitAll(c, i, lease, ms, now).value, i, lease)
    ensures Extends(Commit(c, i), Commit(SubmitAll(c, i, lease, ms, now).value, i))
    decreases |ms|
  {
    if |ms| == 0 {
      ExtendsSelf(Commit(c, i));
    } else {
      SubmitOneKeepsValid(c, i, lease, ms[0], now);
      var next := SubmitOne(c, i, lease, ms[0], now).value;
      SubmitAllKeepsValid(next, i, lease, ms[1..], now);
      ExtendsTransitive(Commit(c, i), Commit(next, i), Commit(SubmitAll(c, i, lease, ms, now).value, i));
    }
  }

  // -------------------------------------------------------------- one step

  lemma SubmitKeepsValid(s: Server, p: Principal, r: RunId, i: LeaseId, epoch: nat, ms: seq<EventMessage>, now: Time)
    requires Valid(s)
    ensures Valid(SubmitEvents(s, p, r, i, epoch, ms, now).0)
    ensures Extends(s, SubmitEvents(s, p, r, i, epoch, ms, now).0)
  {
    ExtendsSelf(s);
    match CurrentLease(s, p, r, i, epoch)
    case None =>
    case Some(lease) =>
      var c := Cursor(s, lease.ack, lease.terminal);
      assert Commit(c, i) == s;
      if SubmitAll(c, i, lease, ms, now).Success? {
        SubmitAllKeepsValid(c, i, lease, ms, now);
      }
  }

  lemma ClaimKeepsValid(s: Server, p: Principal, seconds: int, now: Time)
    requires Valid(s)
    ensures Valid(LeaseRun(s, p, seconds, now).0) && Extends(s, LeaseRun(s, p, seconds, now).0)
  {
    var swept := ExpireLeases(s, p.owner, now);
    DropFromIsQuiet(s, 0, ExpiredOf(p.owner, now), now);
    QuietKeepsValid(s, swept);
    QuietExtends(s, swept);
    match SelectRun(swept, p, now)
    case None =>
    case Some(r) =>
      GrantKeepsValid(swept, p, r, seconds, now);
      ExtendsTransitive(s, swept, GrantLease(swept, p, r, seconds, now));
  }

  lemma CancelIsQuiet(s: Server, r: RunId, owner: OwnerId, now: Time)
    ensures Quiet(s, RequestCancel(s, r, owner, now).0)
  {
    if Owns(s, r, owner) {
      ServerTerminalIsQuiet(s, r, Cancelled, "cancelled_by_user", "Run cancelled before local execution", now);
    }
  }

  lemma ResumeIsQuiet(s: Server, r: RunId, owner: OwnerId, now: Time)
    ensures Quiet(s, RequestResume(s, r, owner, now).0)
  {
    if Owns(s, r, owner) && s.runs[r].status.Paused? && !HasLiveLease(s, r, now) && s.runs[r].leaseEpoch != 0 {
      var t := s.(leases := ExpireHeld(s.leases, r));
      assert Quiet(s, t);
      var code := "resume_checkpoint_unavailable";
      ServerTerminalIsQuiet(t, r, Failed, code, RESUME_ERROR, now);
      QuietTransitive(s, t, ServerTerminal(t, r, Failed, code, RESUME_ERROR, now));
    }
  }

  lemma RevokeIsQuiet(s: Server, owner: OwnerId, device: DeviceId, now: Time)
    ensures Quiet(s, RevokeDevice(s, owner, device, now))
  {
    if device in s.devices && s.devices[device].owner == owner {
      var t := s.(devices := s.devices[device := s.devices[device].(status := DeviceRevoked)]);
      DropFromIsQuiet(t, 0, HeldBy(device), now);
      QuietTransitive(s, t, RevokeDevice(s, owner, device, now));
    }
  }

  lemma EnqueueIsQuiet(s: Server, a: AutomationId, key: string, t: Template)
    ensures Quiet(s, EnqueueAutomation(s, a, key, t).0)
  {}

  lemma PerformKeepsValid(s: Server, tx: Transaction, now: Time)
    requires Valid(s)
    ensures Valid(Perform(s, tx, now)) && Extends(s, Perform(s, tx, now))
  {
    match tx
    case Claim(who, seconds) => ClaimKeepsValid(s, who, seconds, now);
    case Submit(who, r, i, epoch, events) => SubmitKeepsValid(s, who, r, i, epoch, events, now);
    case _ =>
      OthersAreQuiet(s, tx, now);
      QuietKeepsValid(s, Perform(s, tx, now));
      QuietExtends(s, Perform(s, tx, now));
  }

  lemma RegistryIsQuiet(s: Server, tx: Transaction, now: Time)
    requires tx.Register? || tx.Beat? || tx.Turn? || tx.AddRun? || tx.Post? || tx.Ignore?
    ensures Quiet(s, Perform(s, tx, now))
  {}

  lemma SmallStepsAreQuiet(s: Server, tx: Transaction, now: Time)
    requires tx.Renew? || tx.Pause? || tx.Answer?
    ensures Quiet(s, Perform(s, tx, now))
  {}

  lemma OthersAreQuiet(s: Server, tx: Transaction, now: Time)
    requires !tx.Claim? && !tx.Submit?
    ensures Quiet(s, Perform(s, tx, now))
  {
    match tx
    case Cancel(r, owner) => CancelIsQuiet(s, r, owner, now);
    case Resume(r, owner) => ResumeIsQuiet(s, r, owner, now);
    case Revoke(device, owner) => RevokeIsQuiet(s, owner, device, now);
    case Enqueue(a, key, template) => EnqueueIsQuiet(s, a, key, template);
    case Renew(_, _, _, _, _) => SmallStepsAreQuiet(s, tx, now);
    case Pause(_, _) => SmallStepsAreQuiet(s, tx, now);
    case Answer(_, _, _) => SmallStepsAreQuiet(s, tx, now);
    case _ => RegistryIsQuiet(s, tx, now);
  }
}
