/**
  The Server's transactions in place, statement by statement, each proved to
  compute the function of `RunProtocol` that the invariants are about.
*/
module RunProtocolStore {
  import opened Wrappers
  import opened RunTypes
  import opened EventLog
  import opened TerminalOutput
  import opened RunProtocol
  import opened Database
  import AutomationScheduler

  // --------------------------------------------------------- terminal output

  /** The plan and todo items a new plan replaces. */
  method KeepCurrent(trace: seq<TraceItem>) returns (kept: seq<TraceItem>)
    ensures kept == DropSuperseded(trace)
  {
    kept := [];
    for k := 0 to |trace|
      invariant kept == DropSuperseded(trace[..k])
    {
      assert trace[..k + 1][..k] == trace[..k];
      if !Superseded(trace[k]) { kept := kept + [trace[k]]; }
    }
    assert trace[..|trace|] == trace;
  }

  /** Reads back one epoch's events and adds them up. */
  method ReadOutput(db: Database, r: RunId, epoch: nat) returns (out: Output)
    ensures out == Collect(EpochLog(db.events, r, epoch))
  {
    var rows := EpochLog(db.events, r, epoch);
    var content, trace, streamError := "", [], "";
    var usage: Option<Usage> := None;
    for k := 0 to |rows|
      invariant Output(content, trace, usage, streamError) == Collect(rows[..k])
    {
      assert rows[..k + 1][..k] == rows[..k];
      var e := rows[k].env;
      match e.kind
      case UiText => content := content + e.payload.md;
      case UiUsage => usage := Some(Usage(e.payload.promptTokens, e.payload.completionTokens));
      case UiError => streamError := Clip(e.payload.message, ERROR_LIMIT);
      case UiTrace(kind) =>
        if kind.IsPlan() { trace := KeepCurrent(trace); }
        if |trace| < TRACE_LIMIT { trace := trace + [TraceItem(kind, e.payload.body)]; }
      case _ =>
    }
    assert rows[..|rows|] == rows;
    out := Output(content, trace, usage, streamError);
  }

  method CommitTerminalOutput(db: Database, r: RunId, epoch: nat, errorMessage: string,
                              failed: bool, cancelled: bool, now: Time)
    requires r < |db.runs|
    modifies db`messages, db`fires
    ensures db.State() == CommitOutput(old(db.State()), r, epoch, errorMessage, failed, cancelled, now)
  {
    var out := ReadOutput(db, r, epoch);
    var error := Clip(if errorMessage != "" then errorMessage else out.streamError, ERROR_LIMIT);
    if !Answered(db.messages, r) {
      db.messages := db.messages + [Message(r, out.content, out.trace, out.usage, error)];
    }
    if db.runs[r].spec.automation.Some? {
      AutomationScheduler.FinishRun(db, r, db.runs[r].spec.owner, failed, cancelled, now);
    }
  }

  method ServerTerminal(db: Database, r: RunId, status: RunStatus, code: string, text: string, now: Time)
    requires r < |db.runs|
    modifies db`messages, db`fires, db`runs
    ensures db.State() == RunProtocol.ServerTerminal(old(db.State()), r, status, code, text, now)
  {
    CommitTerminalOutput(db, r, db.runs[r].leaseEpoch, text, !status.Completed?, status.Cancelled?, now);
    db.WriteRun(r, db.runs[r].(status := status, errorCode := code));
  }

  // --------------------------------------------------------------- recovery

  method RecoverRun(db: Database, r: RunId, now: Time)
    modifies db`messages, db`fires, db`runs
    ensures db.State() == RunProtocol.RecoverRun(old(db.State()), r, now)
  {
    if r >= |db.runs| || db.runs[r].status.IsTerminal() { return; }
    if db.runs[r].status.Paused? { return; }
    var count := db.runs[r].recoveryCount + 1;
    if count > db.runs[r].spec.maxRecoveries {
      ServerTerminal(db, r, Failed, "lease_recovery_exhausted", "Run lease recovery limit exceeded", now);
      db.WriteRun(r, db.runs[r].(recoveryCount := count));
    } else {
      db.WriteRun(r, db.runs[r].(status := Recoverable, recoveryCount := count));
    }
  }

  /** The rows a sweep's query returns, in table order. */
  function Hits(leases: seq<Lease>, from: nat, doomed: Doomed): (ids: seq<LeaseId>)
    ensures forall k :: 0 <= k < |ids| ==> from <= ids[k] < |leases|
    decreases |leases| - from
  {
    if from >= |leases| then []
    else if doomed.Hits(leases[from]) then [from] + Hits(leases, from + 1, doomed)
    else Hits(leases, from + 1, doomed)
  }

  lemma {:induction false} HitsLocal(a: seq<Lease>, b: seq<Lease>, from: nat, doomed: Doomed)
    requires |a| == |b| && forall k :: from <= k < |a| ==> a[k] == b[k]
    ensures Hits(a, from, doomed) == Hits(b, from, doomed)
    decreases |a| - from
  {
    if from < |a| { HitsLocal(a, b, from + 1, doomed); }
  }

  /** Drops the listed leases one after the other. */
  function DropListed(s: Server, ids: seq<LeaseId>, to: LeaseStatus, now: Time): Server
    requires forall k :: 0 <= k < |ids| ==> ids[k] < |s.leases|
    decreases |ids|
  {
    if |ids| == 0 then s else DropListed(DropLease(s, ids[0], to, now), ids[1..], to, now)
  }

  /** Testing each row as the sweep reaches it, or listing the rows first, is the same. */
  lemma {:induction false} SweepIsListed(s: Server, from: nat, doomed: Doomed, now: Time)
    ensures DropFrom(s, from, doomed, now) == DropListed(s, Hits(s.leases, from, doomed), doomed.Outcome(), now)
    decreases |s.leases| - from
  {
    if from < |s.leases| {
      if doomed.Hits(s.leases[from]) {
        var t := DropLease(s, from, doomed.Outcome(), now);
        HitsLocal(s.leases, t.leases, from + 1, doomed);
        SweepIsListed(t, from + 1, doomed, now);
        assert Hits(s.leases, from, doomed)[1..] == Hits(t.leases, from + 1, doomed);
      } else {
        SweepIsListed(s, from + 1, doomed, now);
      }
    }
  }

  /** The loop shared by the expiry sweep and by a device's revocation. */
  method Sweep(db: Database, doomed: Doomed, now: Time)
    modifies db`leases, db`messages, db`fires, db`runs
    ensures db.State() == DropFrom(old(db.State()), 0, doomed, now)
  {
    var rows := Hits(db.leases, 0, doomed);
    ghost var begun := db.State();
    SweepIsListed(begun, 0, doomed, now);
    for k := 0 to |rows|
      invariant |db.leases| == |begun.leases|
      invariant db.devices == begun.devices && db.events == begun.events && db.commands == begun.commands
      invariant DropListed(db.State(), rows[k..], doomed.Outcome(), now) == DropListed(begun, rows, doomed.Outcome(), now)
    {
      assert rows[k..][0] == rows[k] && rows[k..][1..] == rows[k + 1..];
      db.MarkLease(rows[k], doomed.Outcome());
      RecoverRun(db, db.leases[rows[k]].grant.run, now);
    }
  }

  method ExpireLeases(db: Database, owner: OwnerId, now: Time)
    modifies db`leases, db`messages, db`fires, db`runs
    ensures db.State() == RunProtocol.ExpireLeases(old(db.State()), owner, now)
  {
    Sweep(db, ExpiredOf(owner, now), now);
  }

  method RevokeDevice(db: Database, owner: OwnerId, device: DeviceId, now: Time) returns (known: bool)
    modifies db`devices, db`leases, db`messages, db`fires, db`runs
    ensures db.State() == RunProtocol.RevokeDevice(old(db.State()), owner, device, now)
    ensures known <==> device in old(db.devices) && old(db.devices)[device].owner == owner
  {
    if device !in db.devices || db.devices[device].owner != owner { return false; }
    db.devices := db.devices[device := db.devices[device].(status := DeviceRevoked)];
    Sweep(db, HeldBy(device), now);
    return true;
  }

  // ---------------------------------------------------------------- leasing

  method ScopeConflicts(db: Database, candidate: RunSpec, now: Time) returns (conflict: bool)
    ensures conflict == RunProtocol.ScopeConflicts(db.State(), candidate, now)
  {
    conflict := false;
    for k := 0 to |db.leases|
      invariant conflict == exists j :: 0 <= j < k && Occupies(db.State(), db.leases[j], candidate, now)
    {
      if Occupies(db.State(), db.leases[k], candidate, now) { conflict := true; }
    }
  }

  /** The first of the listed Runs this device is eligible for. */
  method PickRun(db: Database, p: Principal, rows: seq<RunId>, now: Time) returns (selected: Option<RunId>)
    requires forall k :: 0 <= k < |rows| ==> rows[k] < |db.runs|
    ensures selected == FirstEligible(db.State(), p, rows, now)
  {
    selected := None;
    var k := 0;
    while k < |rows|
      invariant k <= |rows|
      invariant FirstEligible(db.State(), p, rows, now) == FirstEligible(db.State(), p, rows[k..], now)
    {
      assert rows[k..][0] == rows[k] && rows[k..][1..] == rows[k + 1..];
      var spec := db.runs[rows[k]].spec;
      if (spec.target.None? || spec.target.value == p.device) && spec.required <= p.caps.names {
        var conflict := ScopeConflicts(db, spec, now);
        if !conflict { return Some(rows[k]); }
      }
      k := k + 1;
    }
  }

  method GrantLease(db: Database, p: Principal, r: RunId, seconds: int, now: Time) returns (lease: LeaseId)
    requires r < |db.runs|
    modifies db`runs, db`leases
    ensures db.State() == RunProtocol.GrantLease(old(db.State()), p, r, seconds, now) && lease == |old(db.leases)|
  {
    var epoch := db.runs[r].leaseEpoch + 1;
    lease := |db.leases|;
    db.WriteRun(r, db.runs[r].(status := Leased, leaseEpoch := epoch));
    db.leases := db.leases + [Lease(Grant(r, p.owner, p.device, epoch), Active, now + LeaseTerm(seconds), 0, None)];
  }

  method LeaseRun(db: Database, p: Principal, seconds: int, now: Time) returns (granted: Option<LeaseId>)
    modifies db`leases, db`messages, db`fires, db`runs
    ensures (db.State(), granted) == RunProtocol.LeaseRun(old(db.State()), p, seconds, now)
  {
    ExpireLeases(db, p.owner, now);
    if |ComputingLeases(db.State(), p, now)| >= ParallelCapacity(p.caps) { return None; }
    if |ResidentLeases(db.State(), p, now)| >= ResidentCapacity(p.caps) { return None; }
    var rows := Candidates(db.runs, p.owner);
    var selected := PickRun(db, p, if |rows| <= 100 then rows else rows[..100], now);
    if selected.None? { return None; }
    var lease := GrantLease(db, p, selected.value, seconds, now);
    return Some(lease);
  }

  method RenewLease(db: Database, p: Principal, r: RunId, i: LeaseId, epoch: nat, seconds: int, now: Time)
    returns (out: Result<nat, ProtocolError>)
    modifies db
    ensures (db.State(), out) == RunProtocol.RenewLease(old(db.State()), p, r, i, epoch, seconds, now)
  {
    var begun := db.State();
    var row := CurrentLease(db.State(), p, r, i, epoch);
    if row.None? { return Failure(StaleLease); }
    if !Live(row.value, now) {
      if row.value.status.Active? {
        db.MarkLease(i, Expired);
        RecoverRun(db, r, now);
      }
      db.Rollback(begun);
      return Failure(LeaseInactive);
    }
    db.leases := db.leases[i := db.leases[i].(expiresAt := now + LeaseTerm(seconds))];
    return Success(row.value.ack);
  }

  // ----------------------------------------------------------------- events

  /** Applies one committed event; true means the Run ended. */
  method ApplyEvent(db: Database, e: Envelope, now: Time) returns (terminal: bool)
    requires e.run < |db.runs|
    modifies db`messages, db`fires, db`runs, db`commands
    ensures db.State() == RunProtocol.ApplyEvent(old(db.State()), e, now)
    ensures terminal <==> e.kind.IsTerminal()
  {
    var r := e.run;
    terminal := false;
    match e.kind
    case RunStarted =>
      db.fires := StartFires(db.fires, r);
      db.WriteRun(r, db.runs[r].(status := Running));
    case RunWaitingUser =>
      db.WriteRun(r, db.runs[r].(status := WaitingUser));
    case RunPaused | RunPauseAck =>
      db.commands := AckKind(db.commands, r, PauseCommand);
      db.WriteRun(r, db.runs[r].(status := Paused));
    case RunCompleted =>
      CommitTerminalOutput(db, r, e.epoch, e.payload.errorMessage, false, false, now);
      db.WriteRun(r, db.runs[r].(status := Completed, errorCode := ""));
      terminal := true;
    case RunFailed =>
      CommitTerminalOutput(db, r, e.epoch, e.payload.errorMessage, true, false, now);
      var code := Clip(if e.payload.errorCode == "" then "run_failed" else e.payload.errorCode, 200);
      db.WriteRun(r, db.runs[r].(status := Failed, errorCode := code));
      terminal := true;
    case RunCancelled | RunCancelAck =>
      CommitTerminalOutput(db, r, e.epoch, e.payload.errorMessage, true, true, now);
      db.commands := AckKind(db.commands, r, CancelCommand);
      db.WriteRun(r, db.runs[r].(status := Cancelled));
      terminal := true;
    case CommandAck =>
      db.commands := AckCommand(db.commands, r, e.payload.commandId);
    case _ =>
  }

  /** Inserts one event row and applies it; `closed` is the terminal event it carried. */
  method CommitEvent(db: Database, row: Record, now: Time) returns (closed: Option<EventId>)
    requires row.env.run < |db.runs| && row.lease < |db.leases|
    modifies db
    ensures forall ack: nat, terminal :: row.env.sequence == ack + 1 ==>
      Cursor(db.State(), ack + 1, if closed.Some? then closed else terminal)
      == InsertEvent(Cursor(old(db.State()), ack, terminal), row, now)
  {
    db.events := db.events + [row];
    var terminal := ApplyEvent(db, row.env, now);
    closed := None;
    if terminal {
      closed := Some(row.id);
      db.leases := db.leases[row.lease := db.leases[row.lease].(status := Closed, terminal := Some(row.id))];
    }
  }

  /** One pass of the submission loop against the lease row read when the request began. */
  method SubmitEvent(db: Database, i: LeaseId, lease: Lease, m: EventMessage, ack: nat, terminal: Option<EventId>, now: Time)
    returns (out: Result<(nat, Option<EventId>), ProtocolError>)
    requires i < |db.leases| && lease.grant.run < |db.runs|
    modifies db
    ensures var spec := SubmitOne(Cursor(old(db.State()), ack, terminal), i, lease, m, now);
      if out.Success? then spec == Success(Cursor(db.State(), out.value.0, out.value.1)) else spec == Failure(out.error)
  {
    if m.payload.bytes > MAX_EVENT_BYTES { return Failure(PayloadTooLarge); }
    if m.payload.secret { return Failure(PayloadSecret); }
    var env := MessageEnvelope(lease, m);
    if m.hash != env { return Failure(HashMismatch); }
    var existing := FindExisting(db.events, m.id, env.run, env.epoch, m.sequence);
    if existing.Some? {
      if existing.value.id != m.id || existing.value.env != env { return Failure(EventReused); }
      if m.sequence > ack {
        if m.sequence != ack + 1 { return Failure(SequenceGap(ack + 1)); }
        return Success((m.sequence, terminal));
      }
      return Success((ack, terminal));
    }
    if !Live(lease, now) {
      if lease.status.Active? {
        db.MarkLease(i, Expired);
        RecoverRun(db, lease.grant.run, now);
      }
      return Failure(LeaseInactive);
    }
    if m.sequence != ack + 1 { return Failure(SequenceGap(ack + 1)); }
    var closed := CommitEvent(db, Record(m.id, i, env), now);
    return Success((m.sequence, if closed.Some? then closed else terminal));
  }

  method SubmitEvents(db: Database, p: Principal, r: RunId, i: LeaseId, epoch: nat, ms: seq<EventMessage>, now: Time)
    returns (out: Result<SubmitReply, ProtocolError>)
    modifies db
    ensures (db.State(), out) == RunProtocol.SubmitEvents(old(db.State()), p, r, i, epoch, ms, now)
  {
    var begun := db.State();
    var row := CurrentLease(db.State(), p, r, i, epoch);
    if row.None? { return Failure(StaleLease); }
    var lease := row.value;
    var ack, terminal := lease.ack, lease.terminal;
    ghost var start := Cursor(begun, ack, terminal);
    for k := 0 to |ms|
      invariant i < |db.leases| && lease.grant.run < |db.runs|
      invariant SubmitAll(Cursor(db.State(), ack, terminal), i, lease, ms[k..], now) == SubmitAll(start, i, lease, ms, now)
    {
      assert ms[k..][0] == ms[k] && ms[k..][1..] == ms[k + 1..];
      var one := SubmitEvent(db, i, lease, ms[k], ack, terminal, now);
      if one.Failure? {
        db.Rollback(begun);
        return Failure(one.error);
      }
      ack, terminal := one.value.0, one.value.1;
    }
    db.leases := db.leases[i := db.leases[i].(ack := ack)];
    return Success(SubmitReply(ack, terminal));
  }

  // ----------------------------------------------------------- user requests

  method RequestCancel(db: Database, r: RunId, owner: OwnerId, now: Time) returns (out: Result<(), ProtocolError>)
    modifies db
    ensures (db.State(), out) == RunProtocol.RequestCancel(old(db.State()), r, owner, now)
  {
    if !Owns(db.State(), r, owner) { return Failure(RunNotFound); }
    var run := db.runs[r];
    if run.status.IsTerminal() { return Success(()); }
    var live := HasLiveLease(db.State(), r, now);
    if (run.status.IsClaimable() || run.status.Paused?) && !live {
      ServerTerminal(db, r, Cancelled, "cancelled_by_user", "Run cancelled before local execution", now);
      return Success(());
    }
    var version := run.cancelVersion + 1;
    db.WriteRun(r, run.(cancelVersion := version));
    db.AddCommand(r, CancelCommand, version);
    return Success(());
  }

  method RequestPause(db: Database, r: RunId, owner: OwnerId) returns (out: Result<(), ProtocolError>)
    modifies db
    ensures (db.State(), out) == RunProtocol.RequestPause(old(db.State()), r, owner)
  {
    if !Owns(db.State(), r, owner) { return Failure(RunNotFound); }
    var status := db.runs[r].status;
    if status.IsTerminal() { return Failure(TerminalRun); }
    if status.Paused? { return Success(()); }
    if status.IsClaimable() {
      db.WriteRun(r, db.runs[r].(status := Paused));
    } else if status.IsComputing() {
      if !PendingOf(db.commands, r, PauseCommand) {
        db.AddCommand(r, PauseCommand, MaxVersion(db.commands, r) + 1);
      }
    } else {
      return Failure(WrongStatus);
    }
    return Success(());
  }

  method RequestResume(db: Database, r: RunId, owner: OwnerId, now: Time) returns (out: Result<(), ProtocolError>)
    modifies db
    ensures (db.State(), out) == RunProtocol.RequestResume(old(db.State()), r, owner, now)
  {
    if !Owns(db.State(), r, owner) { return Failure(RunNotFound); }
    if !db.runs[r].status.Paused? { return Failure(WrongStatus); }
    if HasLiveLease(db.State(), r, now) {
      if !PendingOf(db.commands, r, ResumeCommand) {
        db.AddCommand(r, ResumeCommand, MaxVersion(db.commands, r) + 1);
      }
      return Success(());
    }
    db.leases := ExpireHeld(db.leases, r);
    if db.runs[r].leaseEpoch == 0 {
      db.WriteRun(r, db.runs[r].(status := Recoverable));
    } else {
      ServerTerminal(db, r, Failed, "resume_checkpoint_unavailable", RESUME_ERROR, now);
    }
    return Success(());
  }

  method AnswerUser(db: Database, r: RunId, owner: OwnerId, question: EventId) returns (out: Result<nat, ProtocolError>)
    modifies db
    ensures (db.State(), out) == RunProtocol.AnswerUser(old(db.State()), r, owner, question)
  {
    if !Owns(db.State(), r, owner) { return Failure(RunNotFound); }
    var asked := exists k :: 0 <= k < |db.events| && db.events[k].id == question && db.events[k].env.run == r
                             && db.events[k].env.kind.RunWaitingUser?;
    if !asked || !db.runs[r].status.WaitingUser? { return Failure(WrongStatus); }
    var version := MaxVersion(db.commands, r) + 1;
    db.AddCommand(r, AnswerCommand, version);
    return Success(version);
  }
}
