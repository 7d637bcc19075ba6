/**
  Leases and Run statuses move together: beyond the tether, a Run that waits for a
  device has an active lease.  Exactly one kind of batch breaks this.
*/
module Coupling {
  import opened Wrappers
  import opened RunTypes
  import opened TerminalOutput
  import opened RunProtocol
  import Ledger
  import opened Landing
  import opened Tether

  ghost predicate HasLease(leases: seq<Lease>, r: RunId) {
    exists i :: 0 <= i < |leases| && Held(leases[i], r)
  }

  ghost predicate Attended(runs: seq<Run>, leases: seq<Lease>) {
    forall r :: 0 <= r < |runs| && runs[r].status.NeedsLease() ==> HasLease(leases, r)
  }

  ghost predicate Coupled(s: Server, now: Time) { Tethered(s, now) && Attended(s.runs, s.leases) }

  /** What a status says about leases, in every coupled state. */
  lemma StatusTellsLease(s: Server, now: Time, r: RunId)
    requires Ledger.Valid(s) && Coupled(s, now) && r < |s.runs|
    ensures s.runs[r].status.IsClaimable() ==> !HasLease(s.leases, r)
    ensures s.runs[r].status.NeedsLease() ==>
      exists i :: 0 <= i < |s.leases| && Held(s.leases[i], r) && s.leases[i].grant.epoch == s.runs[r].leaseEpoch
    ensures s.runs[r].status.IsTerminal() ==> !HasLiveLease(s, r, now)
  {}

  // ----------------------------------------------------------- taking a lease

  lemma DropChangesOne(s: Server, i: LeaseId, to: LeaseStatus, now: Time)
    requires i < |s.leases| && s.leases[i].grant.run < |s.runs|
    ensures var t, r := DropLease(s, i, to, now), s.leases[i].grant.run;
      t.leases == s.leases[i := s.leases[i].(status := to)]
      && r < |t.runs| && t.runs == s.runs[r := t.runs[r]] && !t.runs[r].status.NeedsLease()
  {}

  lemma DropKeepsCoupled(s: Server, i: LeaseId, to: LeaseStatus, now: Time)
    requires Ledger.Valid(s) && Coupled(s, now) && i < |s.leases| && s.leases[i].status.Active? && !to.Active?
    ensures Coupled(DropLease(s, i, to, now), now)
  {
    var t, r := DropLease(s, i, to, now), s.leases[i].grant.run;
    DropKeepsTethered(s, i, to, now);
    assert HolderAgrees(s.runs, s.leases[i], now);
    DropChangesOne(s, i, to, now);
    forall q | 0 <= q < |t.runs| && t.runs[q].status.NeedsLease() ensures HasLease(t.leases, q) {
      var k :| 0 <= k < |s.leases| && Held(s.leases[k], q);
      assert Held(t.leases[k], q);
    }
  }

  lemma {:induction false} DropFromKeepsCoupled(s: Server, i: nat, doomed: Doomed, now: Time)
    requires Ledger.Valid(s) && Coupled(s, now)
    ensures Coupled(DropFrom(s, i, doomed, now), now)
    decreases |s.leases| - i
  {
    if i < |s.leases| {
      if doomed.Hits(s.leases[i]) {
        DropKeepsCoupled(s, i, doomed.Outcome(), now);
        DropKeepsValid(s, i, doomed.Outcome(), now);
        DropFromKeepsCoupled(DropLease(s, i, doomed.Outcome(), now), i + 1, doomed, now);
      } else {
        DropFromKeepsCoupled(s, i + 1, doomed, now);
      }
    }
  }

  lemma GrantKeepsCoupled(s: Server, p: Principal, r: RunId, seconds: int, now: Time)
    requires Ledger.Valid(s) && Coupled(s, now) && r < |s.runs| && s.runs[r].status.IsClaimable()
    ensures var t := GrantLease(s, p, r, seconds, now);
      Coupled(t, now) && !HasLease(s.leases, r) && Held(t.leases[|s.leases|], r)
  {
    var t := GrantLease(s, p, r, seconds, now);
    GrantKeepsTethered(s, p, r, seconds, now);
    StatusTellsLease(s, now, r);
    assert Held(t.leases[|s.leases|], r);
    forall q | 0 <= q < |t.runs| && q != r && t.runs[q].status.NeedsLease() ensures HasLease(t.leases, q) {
      var k :| 0 <= k < |s.leases| && Held(s.leases[k], q);
      assert Held(t.leases[k], q);
    }
  }

  /** Leases keep their grant and status, and no other Run comes to need one. */
  lemma SameHoldersKeepAttended(s: Server, t: Server)
    requires Attended(s.runs, s.leases) && |s.runs| <= |t.runs| && |t.leases| == |s.leases|
    requires forall k :: 0 <= k < |s.leases| ==> t.leases[k].grant == s.leases[k].grant && t.leases[k].status == s.leases[k].status
    requires forall r :: 0 <= r < |s.runs| && t.runs[r].status.NeedsLease() ==> s.runs[r].status.NeedsLease()
    requires forall r :: |s.runs| <= r < |t.runs| ==> !t.runs[r].status.NeedsLease()
    ensures Attended(t.runs, t.leases)
  {
    forall r | 0 <= r < |t.runs| && t.runs[r].status.NeedsLease() ensures HasLease(t.leases, r) {
      var k :| 0 <= k < |s.leases| && Held(s.leases[k], r);
      assert Held(t.leases[k], r);
    }
  }

  // ----------------------------------------------------------------- batches

  /** The batch is accepted, ends the Run, and then writes a status that needs a lease. */
  predicate Strands(s: Server, p: Principal, r: RunId, i: LeaseId, epoch: nat, ms: seq<EventMessage>, now: Time) {
    SubmitEvents(s, p, r, i, epoch, ms, now).1.Success?
    && Ends(News(ms, s.leases[i].ack)) && LastWritten(News(ms, s.leases[i].ack), s.runs[r].status).NeedsLease()
  }

  /** Exactly when a submission breaks the coupling. */
  lemma StrandedExactly(s: Server, p: Principal, r: RunId, i: LeaseId, epoch: nat, ms: seq<EventMessage>, now: Time)
    requires Ledger.Valid(s) && Coupled(s, now)
    ensures Coupled(SubmitEvents(s, p, r, i, epoch, ms, now).0, now) <==> !Strands(s, p, r, i, epoch, ms, now)
  {
    var (t, reply) := SubmitEvents(s, p, r, i, epoch, ms, now);
    SubmitKeepsTethered(s, p, r, i, epoch, ms, now);
    if reply.Success? {
      SubmitLands(s, p, r, i, epoch, ms, now);
      if News(ms, s.leases[i].ack) != [] { SubmitAttends(s, t, r, i, News(ms, s.leases[i].ack), now); }
    }
  }

  lemma SubmitAttends(s: Server, t: Server, r: RunId, i: LeaseId, news: seq<EventMessage>, now: Time)
    requires Ledger.Valid(s) && Coupled(s, now) && Lands(s, t, i, r, news)
    requires Live(s.leases[i], now) && s.leases[i].grant.run == r
    ensures Attended(t.runs, t.leases) <==> !(Ends(news) && t.runs[r].status.NeedsLease())
  {
    forall q | 0 <= q < |t.runs| && q != r && t.runs[q].status.NeedsLease() ensures HasLease(t.leases, q) {
      var k :| 0 <= k < |s.leases| && Held(s.leases[k], q);
      assert Held(t.leases[k], q);
    }
    if Ends(news) {
      forall k | 0 <= k < |t.leases| ensures !Held(t.leases[k], r) {
        if k != i && Held(s.leases[k], r) { OneActiveLease(s, now, r, i, k); }
      }
    } else {
      assert Held(t.leases[i], r);
    }
  }

  /** A terminal event closes the lease and ends the Run together. */
  lemma FinishKeepsCoupled(s: Server, p: Principal, r: RunId, i: LeaseId, epoch: nat, m: EventMessage, now: Time)
    requires Ledger.Valid(s) && Coupled(s, now) && SubmitEvents(s, p, r, i, epoch, [m], now).1.Success?
    requires m.kind.IsTerminal() && m.sequence == s.leases[i].ack + 1
    ensures var t := SubmitEvents(s, p, r, i, epoch, [m], now).0;
      Coupled(t, now) && r < |t.runs| && t.runs[r].status.IsTerminal() && i < |t.leases| && t.leases[i].status.Closed?
  {
    var t := SubmitEvents(s, p, r, i, epoch, [m], now).0;
    OneLands(s, p, r, i, epoch, m, now);
    SubmitKeepsTethered(s, p, r, i, epoch, [m], now);
    SubmitAttends(s, t, r, i, [m], now);
  }

  lemma OneLands(s: Server, p: Principal, r: RunId, i: LeaseId, epoch: nat, m: EventMessage, now: Time)
    requires Ledger.Valid(s) && SubmitEvents(s, p, r, i, epoch, [m], now).1.Success? && m.sequence == s.leases[i].ack + 1
    requires m.kind.IsTerminal()
    ensures var t := SubmitEvents(s, p, r, i, epoch, [m], now).0;
      Lands(s, t, i, r, [m]) && Live(s.leases[i], now) && s.leases[i].grant.run == r
      && t.runs[r].status.IsTerminal() && t.leases[i].status.Closed?
  {
    OneNew(m, s.leases[i].ack, s.runs[r].status);
    SubmitLands(s, p, r, i, epoch, [m], now);
  }

  // ------------------------------------------------------------- other steps

  lemma ClaimKeepsCoupled(s: Server, p: Principal, seconds: int, now: Time)
    requires Ledger.Valid(s) && Coupled(s, now)
    ensures Coupled(LeaseRun(s, p, seconds, now).0, now)
  {
    var swept := ExpireLeases(s, p.owner, now);
    DropFromKeepsCoupled(s, 0, ExpiredOf(p.owner, now), now);
    Ledger.DropFromIsQuiet(s, 0, ExpiredOf(p.owner, now), now);
    Ledger.QuietKeepsValid(s, swept);
    match SelectRun(swept, p, now)
    case None =>
    case Some(r) => GrantKeepsCoupled(swept, p, r, seconds, now);
  }

  /** Cancelling ends a Run only when nothing live could still drive it. */
  lemma CancelKeepsCoupled(s: Server, r: RunId, owner: OwnerId, now: Time)
    requires Coupled(s, now)
    ensures var t := RequestCancel(s, r, owner, now).0;
      Coupled(t, now)
      && (r < |s.runs| && t.runs[r].status.IsTerminal() && !s.runs[r].status.IsTerminal() ==> !HasLiveLease(s, r, now))
  {
    CancelKeepsTethered(s, r, owner, now);
    SameHoldersKeepAttended(s, RequestCancel(s, r, owner, now).0);
  }

  /** Without a live lease resuming leaves no active lease behind. */
  lemma ResumeKeepsCoupled(s: Server, r: RunId, owner: OwnerId, now: Time)
    requires Coupled(s, now)
    ensures var t := RequestResume(s, r, owner, now).0;
      Coupled(t, now)
      && (Owns(s, r, owner) && s.runs[r].status.Paused? && !HasLiveLease(s, r, now) ==>
            !HasLease(t.leases, r)
            && if s.runs[r].leaseEpoch == 0 then t.runs[r].status.IsClaimable() else t.runs[r].status.IsTerminal())
  {
    var t := RequestResume(s, r, owner, now).0;
    ResumeKeepsTethered(s, r, owner, now);
    forall q | 0 <= q < |t.runs| && t.runs[q].status.NeedsLease() ensures HasLease(t.leases, q) {
      var k :| 0 <= k < |s.leases| && Held(s.leases[k], q);
      assert Held(t.leases[k], q);
    }
  }

  lemma RevokeKeepsCoupled(s: Server, owner: OwnerId, device: DeviceId, now: Time)
    requires Ledger.Valid(s) && Coupled(s, now)
    ensures Coupled(RevokeDevice(s, owner, device, now), now)
  {
    if device in s.devices && s.devices[device].owner == owner {
      var t := s.(devices := s.devices[device := s.devices[device].(status := DeviceRevoked)]);
      Ledger.QuietKeepsValid(s, t);
      DropFromKeepsCoupled(t, 0, HeldBy(device), now);
    }
  }

  lemma SmallStepsKeepAttended(s: Server, tx: Transaction, now: Time)
    requires Attended(s.runs, s.leases)
    requires tx.Register? || tx.Beat? || tx.Turn? || tx.AddRun? || tx.Post? || tx.Renew? || tx.Pause? || tx.Answer? || tx.Enqueue? || tx.Ignore?
    ensures Attended(Perform(s, tx, now).runs, Perform(s, tx, now).leases)
  {
    SameHoldersKeepAttended(s, Perform(s, tx, now));
  }

  predicate StrandsBy(s: Server, tx: Transaction, now: Time) {
    tx.Submit? && Strands(s, tx.who, tx.run, tx.lease, tx.epoch, tx.events, now)
  }

  /** Every transaction keeps the coupling, but for a batch that strands its Run, which never does. */
  lemma PerformKeepsCoupled(s: Server, tx: Transaction, now: Time)
    requires Ledger.Valid(s) && Coupled(s, now)
    ensures Coupled(Perform(s, tx, now), now) <==> !StrandsBy(s, tx, now)
  {
    match tx
    case Claim(who, seconds) => ClaimKeepsCoupled(s, who, seconds, now);
    case Submit(who, r, i, epoch, events) => StrandedExactly(s, who, r, i, epoch, events, now);
    case Cancel(r, owner) => CancelKeepsCoupled(s, r, owner, now);
    case Resume(r, owner) => ResumeKeepsCoupled(s, r, owner, now);
    case Revoke(device, owner) => RevokeKeepsCoupled(s, owner, device, now);
    case _ =>
      PerformKeepsTethered(s, tx, now);
      SmallStepsKeepAttended(s, tx, now);
  }
}
