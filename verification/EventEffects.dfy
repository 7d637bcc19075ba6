/**
  What each kind of event writes, and what a whole batch leaves in its Run's row,
  in the words of the protocol.
*/
module EventEffects {
  import opened Wrappers
  import opened RunTypes
  import opened EventLog
  import opened TerminalOutput
  import opened RunProtocol
  import Ledger
  import opened Landing

  /** The kind is the protocol's word for this status. */
  predicate Announces(kind: EventKind, status: RunStatus) {
    match status
    case Running => kind == RunStarted
    case WaitingUser => kind == RunWaitingUser
    case Paused => kind in {RunPaused, RunPauseAck}
    case Completed => kind == RunCompleted
    case Failed => kind == RunFailed
    case Cancelled => kind in {RunCancelled, RunCancelAck}
    case Queued | Leased | Recoverable | Succeeded => false
  }

  predicate Silent(kind: EventKind) {
    kind in {RunCheckpoint, CommandAck, UiText, UiUsage, UiError, UiOther} || kind.UiTrace?
  }

  /** The last message of the batch that is not silent, if there is one, announces the status. */
  ghost predicate StatusTold(news: seq<EventMessage>, before: RunStatus, after: RunStatus) {
    if forall k :: 0 <= k < |news| ==> Silent(news[k].kind) then after == before
    else exists k :: 0 <= k < |news| && Announces(news[k].kind, after) && forall j :: k < j < |news| ==> Silent(news[j].kind)
  }

  lemma {:induction false} LastIsTold(news: seq<EventMessage>, before: RunStatus)
    ensures StatusTold(news, before, LastWritten(news, before))
    decreases |news|
  {
    if |news| > 0 {
      var rest, mid := news[1..], StatusAfter(news[0].kind, before);
      LastIsTold(rest, mid);
      assert Silent(news[0].kind) || Announces(news[0].kind, mid);
      if forall k :: 0 <= k < |rest| ==> Silent(rest[k].kind) {
        forall j | 0 < j < |news| ensures Silent(news[j].kind) { assert news[j] == rest[j - 1]; }
      } else {
        var k :| 0 <= k < |rest| && Announces(rest[k].kind, LastWritten(rest, mid)) && forall j :: k < j < |rest| ==> Silent(rest[j].kind);
        forall j | k + 1 < j < |news| ensures Silent(news[j].kind) { assert news[j] == rest[j - 1]; }
        assert news[k + 1] == rest[k];
      }
    }
  }

  /** The status of a Run after an accepted batch is what the last telling message of the batch says. */
  lemma BatchTellsStatus(s: Server, p: Principal, r: RunId, i: LeaseId, epoch: nat, ms: seq<EventMessage>, now: Time)
    requires Ledger.Valid(s) && SubmitEvents(s, p, r, i, epoch, ms, now).1.Success?
    ensures var t := SubmitEvents(s, p, r, i, epoch, ms, now).0;
      r < |t.runs| && StatusTold(News(ms, s.leases[i].ack), s.runs[r].status, t.runs[r].status)
  {
    SubmitLands(s, p, r, i, epoch, ms, now);
    LastIsTold(News(ms, s.leases[i].ack), s.runs[r].status);
  }

  // ---------------------------------------------------------------- one event

  /** The error code an event leaves in the Run's row. */
  ghost predicate CodeTold(m: EventMessage, before: string, after: string) {
    if m.kind == RunCompleted then after == ""
    else if m.kind == RunFailed then
      if m.payload.errorCode == "" then after == "run_failed"
      else |after| <= 200 && after <= m.payload.errorCode && (|m.payload.errorCode| <= 200 ==> after == m.payload.errorCode)
           && (|m.payload.errorCode| > 200 ==> |after| == 200)
    else after == before
  }

  /** The event answers this pending command. */
  predicate Answers(m: EventMessage, c: Command, id: CommandId, r: RunId) {
    c.run == r
    && ((m.kind in {RunPaused, RunPauseAck} && c.kind == PauseCommand)
        || (m.kind in {RunCancelled, RunCancelAck} && c.kind == CancelCommand)
        || (m.kind == CommandAck && m.payload.commandId == id))
  }

  ghost predicate CommandsTold(m: EventMessage, r: RunId, before: seq<Command>, after: seq<Command>) {
    |after| == |before|
    && forall k: nat :: k < |before| ==> after[k] == before[k].(pending := before[k].pending && !Answers(m, before[k], k, r))
  }

  /** Everything but messages and fires after one new event. */
  ghost predicate OneTold(s: Server, t: Server, r: RunId, i: LeaseId, lease: Lease, m: EventMessage)
    requires r < |s.runs| && i < |s.leases|
  {
    var ended := m.kind in {RunCompleted, RunFailed, RunCancelled, RunCancelAck};
    && r < |t.runs| && t.runs == s.runs[r := s.runs[r].(status := t.runs[r].status, errorCode := t.runs[r].errorCode)]
    && (if Silent(m.kind) then t.runs[r].status == s.runs[r].status else Announces(m.kind, t.runs[r].status))
    && CodeTold(m, s.runs[r].errorCode, t.runs[r].errorCode) && CommandsTold(m, r, s.commands, t.commands)
    && t.leases == s.leases[i := lease.(ack := lease.ack + 1, status := if ended then Closed else lease.status,
                                         terminal := if ended then Some(m.id) else lease.terminal)]
    && t.events == s.events + [Record(m.id, i, Envelope(r, lease.grant.device, lease.grant.epoch, m.sequence, m.kind, m.occurredAt, m.payload))]
  }

  lemma InsertTells(c: Cursor, i: LeaseId, lease: Lease, m: EventMessage, now: Time)
    requires i < |c.srv.leases| && lease.grant.run < |c.srv.runs| && m.sequence == c.ack + 1 && c.srv.leases[i] == lease && c.ack == lease.ack
    ensures OneTold(c.srv, SetAck(InsertEvent(c, Row(i, lease, m), now).srv, i, c.ack + 1), lease.grant.run, i, lease, m)
  {
    CodeIsTold(c.srv.runs[lease.grant.run], i, lease, m);
    CommandsAreTold(c.srv.commands, i, lease, m);
  }

  lemma CodeIsTold(run: Run, i: LeaseId, lease: Lease, m: EventMessage)
    ensures var after := RunAfter(run, Row(i, lease, m).env);
      CodeTold(m, run.errorCode, after.errorCode) && after == run.(status := after.status, errorCode := after.errorCode)
      && if Silent(m.kind) then after.status == run.status else Announces(m.kind, after.status)
  {}

  lemma CommandsAreTold(commands: seq<Command>, i: LeaseId, lease: Lease, m: EventMessage)
    ensures CommandsTold(m, lease.grant.run, commands, CommandsAfter(commands, Row(i, lease, m).env))
  {}

  /** One new event, accepted: the status, the error code, the commands, the lease and the log. */
  lemma EventTells(s: Server, p: Principal, r: RunId, i: LeaseId, epoch: nat, m: EventMessage, now: Time)
    requires Ledger.Valid(s) && SubmitEvents(s, p, r, i, epoch, [m], now).1.Success? && m.sequence == s.leases[i].ack + 1
    ensures OneTold(s, SubmitEvents(s, p, r, i, epoch, [m], now).0, r, i, s.leases[i], m)
  {
    var lease := s.leases[i];
    var c := Cursor(s, lease.ack, lease.terminal);
    assert Ledger.Commit(c, i) == s;
    SubmitAllInserts(c, i, lease, [m], now);
    OneNew(m, lease.ack, s.runs[r].status);
    InsertRaisesAck(c, Row(i, lease, m), now);
    OneInsert(c, i, lease, m, now);
    InsertTells(c, i, lease, m, now);
  }

  lemma OneInsert(c: Cursor, i: LeaseId, lease: Lease, m: EventMessage, now: Time)
    requires i < |c.srv.leases| && lease.grant.run < |c.srv.runs| && m.sequence == c.ack + 1
    ensures InsertAll(c, i, lease, [m], now) == InsertEvent(c, Row(i, lease, m), now)
  {
    assert [m][1..] == [];
  }

  // -------------------------------------------------------- when it is accepted

  /** The table holds this very event: same id, same envelope. */
  ghost predicate Holds(s: Server, r: RunId, lease: Lease, m: EventMessage) {
    exists j :: 0 <= j < |s.events| && s.events[j].id == m.id
      && s.events[j].env == Envelope(r, lease.grant.device, lease.grant.epoch, m.sequence, m.kind, m.occurredAt, m.payload)
  }

  /** The table holds no event with this id, and none at this place of the epoch. */
  ghost predicate Unknown(s: Server, r: RunId, lease: Lease, m: EventMessage) {
    forall j :: 0 <= j < |s.events| ==>
      s.events[j].id != m.id
      && !(s.events[j].env.run == r && s.events[j].env.epoch == lease.grant.epoch && s.events[j].env.sequence == m.sequence)
  }

  /** The message is small enough, carries no secret, and its hash covers what it says. */
  predicate Intact(r: RunId, lease: Lease, m: EventMessage) {
    m.payload.bytes <= 262144 && !m.payload.secret
    && m.hash == Envelope(r, lease.grant.device, lease.grant.epoch, m.sequence, m.kind, m.occurredAt, m.payload)
  }

  /** Exactly when one event is accepted: its sender holds the Run's current lease, it is intact, and it is
      known already, or new, next in order and sent while the lease is live. */
  lemma AcceptedExactly(s: Server, p: Principal, r: RunId, i: LeaseId, epoch: nat, m: EventMessage, now: Time)
    requires Ledger.Valid(s)
    ensures SubmitEvents(s, p, r, i, epoch, [m], now).1.Success? <==>
      i < |s.leases| && r < |s.runs| && s.leases[i].grant == Grant(r, p.owner, p.device, epoch) && s.runs[r].leaseEpoch == epoch
      && Intact(r, s.leases[i], m)
      && (Holds(s, r, s.leases[i], m)
          || (Unknown(s, r, s.leases[i], m) && m.sequence == s.leases[i].ack + 1
              && s.leases[i].status == Active && s.leases[i].expiresAt > now))
  {
    if CurrentLease(s, p, r, i, epoch).Some? {
      var lease := s.leases[i];
      var c := Cursor(s, lease.ack, lease.terminal);
      assert Ledger.Commit(c, i) == s;
      assert [m][1..] == [];
      OneAccepted(c, i, lease, m, now);
      assert SubmitAll(c, i, lease, [m], now).Success? <==> SubmitOne(c, i, lease, m, now).Success?;
    }
  }

  lemma OneAccepted(c: Cursor, i: LeaseId, lease: Lease, m: EventMessage, now: Time)
    requires Ledger.CursorOk(c, i, lease)
    ensures SubmitOne(c, i, lease, m, now).Success? <==>
      Intact(lease.grant.run, lease, m)
      && (Holds(c.srv, lease.grant.run, lease, m)
          || (Unknown(c.srv, lease.grant.run, lease, m) && m.sequence == c.ack + 1 && lease.status == Active && lease.expiresAt > now))
  {
    var env := MessageEnvelope(lease, m);
    match FindExisting(c.srv.events, m.id, env.run, env.epoch, m.sequence)
    case Some(row) =>
      FoundDecides(c, i, lease, m, row);
      if row.id == m.id && row.env == env { Ledger.AlreadyCommitted(c, i, lease, row); }
    case None => assert Unknown(c.srv, env.run, lease, m);
  }

  /** The row found is this event, or stands in the way of it. */
  lemma FoundDecides(c: Cursor, i: LeaseId, lease: Lease, m: EventMessage, row: Record)
    requires Ledger.CursorOk(c, i, lease) && row in c.srv.events
    requires Matches(row, m.id, lease.grant.run, lease.grant.epoch, m.sequence)
    ensures !Unknown(c.srv, lease.grant.run, lease, m)
    ensures Holds(c.srv, lease.grant.run, lease, m) <==> row.id == m.id && row.env == MessageEnvelope(lease, m)
  {
    var j :| 0 <= j < |c.srv.events| && c.srv.events[j] == row;
    var s := Ledger.Commit(c, i);
    assert Ledger.IdsDistinct(s.events) && Ledger.InCommitOrder(s.events);
    if Holds(c.srv, lease.grant.run, lease, m) {
      var k :| 0 <= k < |c.srv.events| && c.srv.events[k].id == m.id && c.srv.events[k].env == MessageEnvelope(lease, m);
      assert j == k by {
        if row.id == m.id { assert s.events[j].id == s.events[k].id; }
      }
    }
  }
}
