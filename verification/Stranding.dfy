/**
  What a batch that goes on after its terminal event can do: leave its Run running
  without a lease, which no later transaction ever moves again; leave a message that is
  not what was streamed; or leave a fire ready for its next attempt beside the last one.
*/
module Stranding {
  import opened Wrappers
  import opened RunTypes
  import opened EventLog
  import opened TerminalOutput
  import opened RunProtocol
  import Ledger
  import opened Coupling
  import opened Tether
  import opened Landing
  import opened Outcomes
  import opened Verdict
  import opened History

  /** The Run waits for a device, but no lease is left to drive or to expire it. */
  ghost predicate Stranded(s: Server, r: RunId) {
    r < |s.runs| && s.runs[r].status.NeedsLease() && !HasLease(s.leases, r)
  }

  /** A well-formed new message for the given place in the epoch. */
  ghost predicate Fresh(s: Server, lease: Lease, m: EventMessage, sequence: nat) {
    m.sequence == sequence && m.payload.bytes <= MAX_EVENT_BYTES && !m.payload.secret
    && m.hash == MessageEnvelope(lease, m)
    && forall j :: 0 <= j < |s.events| ==> s.events[j].id != m.id
  }

  lemma FreshIsInserted(c: Cursor, i: LeaseId, lease: Lease, m: EventMessage, now: Time)
    requires Ledger.CursorOk(c, i, lease) && Live(lease, now) && Fresh(c.srv, lease, m, c.ack + 1)
    ensures SubmitOne(c, i, lease, m, now) == Success(InsertEvent(c, Record(m.id, i, MessageEnvelope(lease, m)), now))
    ensures InsertEvent(c, Record(m.id, i, MessageEnvelope(lease, m)), now).srv.events
         == c.srv.events + [Record(m.id, i, MessageEnvelope(lease, m))]
  {
    forall j | 0 <= j < |c.srv.events|
      ensures !Matches(c.srv.events[j], m.id, lease.grant.run, lease.grant.epoch, m.sequence)
    {
      if InEpoch(c.srv.events[j], lease.grant.run, lease.grant.epoch) {
        Ledger.AlreadyCommitted(c, i, lease, c.srv.events[j]);
      }
    }
  }

  lemma TwoFreshSucceed(c: Cursor, i: LeaseId, lease: Lease, a: EventMessage, b: EventMessage, now: Time)
    requires Ledger.CursorOk(c, i, lease) && Live(lease, now) && a.id != b.id
    requires Fresh(c.srv, lease, a, c.ack + 1) && Fresh(c.srv, lease, b, c.ack + 2)
    ensures SubmitAll(c, i, lease, [a, b], now).Success?
  {
    FreshIsInserted(c, i, lease, a, now);
    Ledger.SubmitOneKeepsValid(c, i, lease, a, now);
    var d := SubmitOne(c, i, lease, a, now).value;
    FreshIsInserted(d, i, lease, b, now);
    assert [a, b][1..] == [b];
    assert SubmitAll(d, i, lease, [b], now).Success?;
  }

  lemma TwoNews(a: EventMessage, b: EventMessage, ack: nat, status: RunStatus)
    requires a.sequence == ack + 1 && b.sequence == ack + 2 && a.kind.IsTerminal()
    ensures var news := News([a, b], ack);
      news == [a, b] && Ends(news) && ToEnd(news) == [a] && PastEnd(news) == [b]
      && LastWritten(news, status) == StatusAfter(b.kind, StatusAfter(a.kind, status))
  {
    assert [a, b][1..] == [b];
    OneNew(b, ack + 1, StatusAfter(a.kind, status));
  }

  /** A terminal event and one more, both new, sent under a live lease. */
  ghost predicate EndAndMore(s: Server, p: Principal, r: RunId, i: LeaseId, epoch: nat, a: EventMessage, b: EventMessage, now: Time) {
    CurrentLease(s, p, r, i, epoch).Some? && Live(s.leases[i], now) && a.id != b.id && a.kind.IsTerminal()
    && Fresh(s, s.leases[i], a, s.leases[i].ack + 1) && Fresh(s, s.leases[i], b, s.leases[i].ack + 2)
  }

  lemma EndAndMoreSucceeds(s: Server, p: Principal, r: RunId, i: LeaseId, epoch: nat, a: EventMessage, b: EventMessage, now: Time)
    requires Ledger.Valid(s) && EndAndMore(s, p, r, i, epoch, a, b, now)
    ensures SubmitEvents(s, p, r, i, epoch, [a, b], now).1.Success?
  {
    var c := Cursor(s, s.leases[i].ack, s.leases[i].terminal);
    assert Ledger.Commit(c, i) == s;
    TwoFreshSucceed(c, i, s.leases[i], a, b, now);
  }

  lemma EndAndMoreLands(s: Server, p: Principal, r: RunId, i: LeaseId, epoch: nat, a: EventMessage, b: EventMessage, now: Time)
    requires Ledger.Valid(s) && EndAndMore(s, p, r, i, epoch, a, b, now)
    ensures var (t, reply) := SubmitEvents(s, p, r, i, epoch, [a, b], now);
      reply.Success? && Lands(s, t, i, r, [a, b])
      && t.runs[r].status == StatusAfter(b.kind, StatusAfter(a.kind, s.runs[r].status))
  {
    EndAndMoreSucceeds(s, p, r, i, epoch, a, b, now);
    SubmitLands(s, p, r, i, epoch, [a, b], now);
    TwoNews(a, b, s.leases[i].ack, s.runs[r].status);
  }

  lemma EndAndMoreCoupled(s: Server, p: Principal, r: RunId, i: LeaseId, epoch: nat, a: EventMessage, b: EventMessage, now: Time)
    requires Ledger.Valid(s) && Coupled(s, now) && EndAndMore(s, p, r, i, epoch, a, b, now)
    requires r < |s.runs| && !StatusAfter(b.kind, StatusAfter(a.kind, s.runs[r].status)).NeedsLease()
    ensures Coupled(SubmitEvents(s, p, r, i, epoch, [a, b], now).0, now)
  {
    TwoNews(a, b, s.leases[i].ack, s.runs[r].status);
    StrandedExactly(s, p, r, i, epoch, [a, b], now);
  }

  /** Any live lease can strand its Run with `run.completed` followed by `run.started`. */
  lemma StrandingBatch(s: Server, p: Principal, r: RunId, i: LeaseId, epoch: nat, done: EventMessage, again: EventMessage, now: Time)
    requires Ledger.Valid(s) && Tethered(s, now) && EndAndMore(s, p, r, i, epoch, done, again, now)
    requires done.kind.RunCompleted? && again.kind.RunStarted?
    ensures SubmitEvents(s, p, r, i, epoch, [done, again], now).1.Success?
    ensures Stranded(SubmitEvents(s, p, r, i, epoch, [done, again], now).0, r)
  {
    var t := SubmitEvents(s, p, r, i, epoch, [done, again], now).0;
    EndAndMoreLands(s, p, r, i, epoch, done, again, now);
    TwoNews(done, again, s.leases[i].ack, s.runs[r].status);
    UnleaseMeansUnheld(s, i, t.leases[i], now);
    assert t.leases == s.leases[i := t.leases[i]];
  }

  /** `run.completed` followed by some text keeps the coupling, and leaves a message without that text. */
  lemma LateTextBatch(s: Server, p: Principal, r: RunId, i: LeaseId, epoch: nat, done: EventMessage, late: EventMessage, now: Time)
    requires Ledger.Valid(s) && Coupled(s, now) && Finalized(s) && EndAndMore(s, p, r, i, epoch, done, late, now)
    requires done.kind.RunCompleted? && late.kind.UiText? && late.payload.md != ""
    ensures SubmitEvents(s, p, r, i, epoch, [done, late], now).1.Success?
    ensures Coupled(SubmitEvents(s, p, r, i, epoch, [done, late], now).0, now)
    ensures !Finalized(SubmitEvents(s, p, r, i, epoch, [done, late], now).0)
  {
    EndAndMoreSucceeds(s, p, r, i, epoch, done, late, now);
    LateTextStrandsNothing(s, p, r, i, epoch, done, late, now);
    LateTextIsLost(s, p, r, i, epoch, done, late, now);
  }

  lemma LateTextStrandsNothing(s: Server, p: Principal, r: RunId, i: LeaseId, epoch: nat, done: EventMessage, late: EventMessage, now: Time)
    requires Ledger.Valid(s) && Coupled(s, now) && EndAndMore(s, p, r, i, epoch, done, late, now)
    requires done.kind.RunCompleted? && late.kind.UiText?
    ensures Coupled(SubmitEvents(s, p, r, i, epoch, [done, late], now).0, now)
  {
    EndAndMoreCoupled(s, p, r, i, epoch, done, late, now);
  }

  lemma LateTextIsLost(s: Server, p: Principal, r: RunId, i: LeaseId, epoch: nat, done: EventMessage, late: EventMessage, now: Time)
    requires Ledger.Valid(s) && Tethered(s, now) && Finalized(s) && EndAndMore(s, p, r, i, epoch, done, late, now)
    requires late.kind.UiText? && late.payload.md != ""
    ensures !Finalized(SubmitEvents(s, p, r, i, epoch, [done, late], now).0)
  {
    EndAndMoreSucceeds(s, p, r, i, epoch, done, late, now);
    LateTextIsRead(EpochLog(s.events, r, epoch), s.leases[i], s.runs[r].status, done, late);
    TwoNews(done, late, s.leases[i].ack, s.runs[r].status);
    FinalizedExactly(s, p, r, i, epoch, [done, late], now);
  }

  lemma LateTextIsRead(log: seq<Record>, lease: Lease, status: RunStatus, done: EventMessage, late: EventMessage)
    requires done.sequence == lease.ack + 1 && late.sequence == lease.ack + 2 && done.kind.IsTerminal()
    requires late.kind.UiText? && late.payload.md != ""
    ensures !Conclusive(log, lease, status, [done, late])
  {
    TwoNews(done, late, lease.ack, status);
    assert [late][0].kind.UiText?;
  }

  /** `run.failed` followed by `run.paused` keeps the coupling, and leaves the fire waiting for
      a retry while its attempt is only paused. */
  lemma UnsettlingBatch(s: Server, p: Principal, r: RunId, i: LeaseId, epoch: nat, failed: EventMessage, paused: EventMessage, now: Time)
    requires Ledger.Valid(s) && Coupled(s, now) && Fired(s) && EndAndMore(s, p, r, i, epoch, failed, paused, now)
    requires failed.kind.RunFailed? && paused.kind.RunPaused? && s.runs[r].spec.key.FireKey?
    requires var f := s.runs[r].spec.key.fire; f < |s.fires| && s.fires[f].attempt < s.fires[f].maxAttempts
    ensures var (t, reply) := SubmitEvents(s, p, r, i, epoch, [failed, paused], now);
      var f := s.runs[r].spec.key.fire;
      reply.Success? && Coupled(t, now) && !Fired(t) && Standing(t, r)
      && f < |t.fires| && t.runs[r].status.Paused?
      && t.fires[f] == s.fires[f].(status := FireRetryWait, nextAttemptAt := t.fires[f].nextAttemptAt)
  {
    EndAndMoreLands(s, p, r, i, epoch, failed, paused, now);
    TwoNews(failed, paused, s.leases[i].ack, s.runs[r].status);
    EndAndMoreCoupled(s, p, r, i, epoch, failed, paused, now);
    FiredExactly(s, p, r, i, epoch, [failed, paused], now);
    LiveMeansResident(s, i, now);
    OpenRunStands(s, r);
    SubmitStands(s, p, r, i, epoch, [failed, paused], now);
    FailedThenPaused(s, p, r, i, epoch, failed, paused, now);
  }

  lemma FailedThenPaused(s: Server, p: Principal, r: RunId, i: LeaseId, epoch: nat, failed: EventMessage, paused: EventMessage, now: Time)
    requires Ledger.Valid(s) && Standing(s, r) && EndAndMore(s, p, r, i, epoch, failed, paused, now)
    requires failed.kind.RunFailed? && paused.kind.RunPaused? && s.runs[r].spec.key.FireKey?
    requires var f := s.runs[r].spec.key.fire; f < |s.fires| && s.fires[f].attempt < s.fires[f].maxAttempts
    ensures var t, f := SubmitEvents(s, p, r, i, epoch, [failed, paused], now).0, s.runs[r].spec.key.fire;
      f < |t.fires| && t.fires[f] == s.fires[f].(status := FireRetryWait, nextAttemptAt := t.fires[f].nextAttemptAt)
  {
    var lease, f := s.leases[i], s.runs[r].spec.key.fire;
    var c := Cursor(s, lease.ack, lease.terminal);
    assert Ledger.Commit(c, i) == s;
    TwoFreshSucceed(c, i, lease, failed, paused, now);
    SubmitAllInserts(c, i, lease, [failed, paused], now);
    TwoNews(failed, paused, lease.ack, s.runs[r].status);
    var d := InsertEvent(c, Row(i, lease, failed), now);
    FireIsFound(s, r, f);
    InsertWritesFires(c, Row(i, lease, failed), now);
    InsertRaisesAck(c, Row(i, lease, failed), now);
    InsertWritesFires(d, Row(i, lease, paused), now);
    assert [failed, paused][1..] == [paused] && [paused][1..] == [];
    assert InsertAll(c, i, lease, [failed, paused], now) == InsertAll(d, i, lease, [paused], now);
    assert InsertAll(d, i, lease, [paused], now) == InsertEvent(d, Row(i, lease, paused), now);
  }

  /** The next enqueue then starts another attempt beside the paused one. */
  lemma OverlappingAttempts(t: Server, r: RunId, template: Template)
    requires Standing(t, r) && t.runs[r].status.Paused? && t.runs[r].spec.key.FireKey?
    requires t.fires[t.runs[r].spec.key.fire].status.FireRetryWait?
    ensures var f := t.runs[r].spec.key.fire;
      var (u, reply) := EnqueueAutomation(t, t.fires[f].automation, t.fires[f].key, template);
      reply == Success(Enqueued(f)) && |u.runs| == |t.runs| + 1 && u.runs[r] == t.runs[r]
      && u.runs[|t.runs|].spec.key == FireKey(f, t.runs[r].spec.key.attempt + 1) && u.runs[|t.runs|].status.Queued?
  {
    var f := t.runs[r].spec.key.fire;
    assert FireStands(t, f);
    assert FindFireByKey(t.fires, t.fires[f].automation, t.fires[f].key) == f;
    NextAttemptIsFree(t, t.fires[f].owner, f, t.fires[f].attempt + 1);
  }

  // ---------------------------------------------------------------- forever

  ghost predicate StillStranded(s: Server, t: Server, r: RunId) {
    Stranded(t, r) && r < |s.runs| && t.runs[r].status == s.runs[r].status
  }

  lemma {:induction false} DropFromSpares(s: Server, i: nat, doomed: Doomed, now: Time, r: RunId)
    requires Stranded(s, r)
    ensures StillStranded(s, DropFrom(s, i, doomed, now), r)
    decreases |s.leases| - i
  {
    if i < |s.leases| {
      if doomed.Hits(s.leases[i]) {
        assert !Held(s.leases[i], r);
        var t := DropLease(s, i, doomed.Outcome(), now);
        DropSpares(s, i, doomed.Outcome(), now, r);
        DropFromSpares(t, i + 1, doomed, now, r);
      } else {
        DropFromSpares(s, i + 1, doomed, now, r);
      }
    }
  }

  lemma DropSpares(s: Server, i: LeaseId, to: LeaseStatus, now: Time, r: RunId)
    requires Stranded(s, r) && i < |s.leases| && s.leases[i].grant.run != r && !to.Active?
    ensures StillStranded(s, DropLease(s, i, to, now), r)
  {}

  lemma SubmitSpares(s: Server, p: Principal, q: RunId, i: LeaseId, epoch: nat, ms: seq<EventMessage>, now: Time, r: RunId)
    requires Ledger.Valid(s) && Stranded(s, r)
    ensures StillStranded(s, SubmitEvents(s, p, q, i, epoch, ms, now).0, r)
  {
    var t := SubmitEvents(s, p, q, i, epoch, ms, now).0;
    match CurrentLease(s, p, q, i, epoch)
    case None =>
    case Some(lease) =>
      if SubmitEvents(s, p, q, i, epoch, ms, now).1.Success? {
        SubmitLands(s, p, q, i, epoch, ms, now);
        assert q == r ==> !Held(s.leases[i], r);
        forall k | 0 <= k < |t.leases| ensures !Held(t.leases[k], r) { assert !Held(s.leases[k], r); }
      }
  }

  lemma ClaimSpares(s: Server, p: Principal, seconds: int, now: Time, r: RunId)
    requires Stranded(s, r)
    ensures StillStranded(s, LeaseRun(s, p, seconds, now).0, r)
  {
    var swept := ExpireLeases(s, p.owner, now);
    DropFromSpares(s, 0, ExpiredOf(p.owner, now), now, r);
    match SelectRun(swept, p, now)
    case None =>
    case Some(q) =>
      var t := GrantLease(swept, p, q, seconds, now);
      forall k | 0 <= k < |t.leases| ensures !Held(t.leases[k], r) {
        if k < |swept.leases| { assert !Held(swept.leases[k], r); }
      }
  }

  lemma ResumeSpares(s: Server, q: RunId, owner: OwnerId, now: Time, r: RunId)
    requires Stranded(s, r)
    ensures StillStranded(s, RequestResume(s, q, owner, now).0, r)
  {}

  lemma RenewSpares(s: Server, p: Principal, q: RunId, i: LeaseId, epoch: nat, seconds: int, now: Time, r: RunId)
    requires Stranded(s, r)
    ensures StillStranded(s, RenewLease(s, p, q, i, epoch, seconds, now).0, r)
  {}

  lemma RegistrySpares(s: Server, tx: Transaction, now: Time, r: RunId)
    requires Stranded(s, r) && (tx.Register? || tx.Beat? || tx.Turn? || tx.AddRun? || tx.Post? || tx.Enqueue? || tx.Ignore?)
    ensures StillStranded(s, Perform(s, tx, now), r)
  {}

  lemma UserRequestsSpare(s: Server, tx: Transaction, now: Time, r: RunId)
    requires Stranded(s, r) && (tx.Cancel? || tx.Pause? || tx.Answer?)
    ensures StillStranded(s, Perform(s, tx, now), r)
  {}

  lemma PerformSpares(s: Server, tx: Transaction, now: Time, r: RunId)
    requires Ledger.Valid(s) && Stranded(s, r)
    ensures StillStranded(s, Perform(s, tx, now), r)
  {
    match tx
    case Claim(who, seconds) => ClaimSpares(s, who, seconds, now, r);
    case Renew(who, q, i, epoch, seconds) => RenewSpares(s, who, q, i, epoch, seconds, now, r);
    case Submit(who, q, i, epoch, events) => SubmitSpares(s, who, q, i, epoch, events, now, r);
    case Resume(q, owner) => ResumeSpares(s, q, owner, now, r);
    case Revoke(device, owner) =>
      if device in s.devices && s.devices[device].owner == owner {
        DropFromSpares(s.(devices := s.devices[device := s.devices[device].(status := DeviceRevoked)]),
                       0, HeldBy(device), now, r);
      }
    case Cancel(_, _) => UserRequestsSpare(s, tx, now, r);
    case Pause(_, _) => UserRequestsSpare(s, tx, now, r);
    case Answer(_, _, _) => UserRequestsSpare(s, tx, now, r);
    case _ => RegistrySpares(s, tx, now, r);
  }

  /** A stranded Run keeps its status in every later history: it is never claimed,
      recovered, failed or cancelled. */
  lemma {:induction false} StrandedForever(s: Server, h: seq<Timed>, r: RunId)
    requires Ledger.Valid(s) && Stranded(s, r)
    ensures StillStranded(s, Replay(s, h), r)
  {
    if |h| > 0 {
      StrandedForever(s, h[..|h| - 1], r);
      LedgerAlways(s, h[..|h| - 1]);
      PerformSpares(Replay(s, h[..|h| - 1]), h[|h| - 1].tx, h[|h| - 1].at, r);
    }
  }
}
