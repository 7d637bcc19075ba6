/**
  What ties leases to Runs whatever devices send: a Run's counters agree, an active
  lease is at its Run's epoch, and a Run that has ended stays exactly as it ended.
*/
module Tether {
  import opened Wrappers
  import opened RunTypes
  import opened TerminalOutput
  import opened RunProtocol
  import Ledger
  import opened Landing

  /** The lease count, the recovery count and the status of a Run agree. */
  predicate CountersAgree(run: Run) {
    run.leaseEpoch <= run.spec.maxRecoveries + 1
    && (run.leaseEpoch == run.recoveryCount || run.leaseEpoch == run.recoveryCount + 1)
    && (!run.status.IsTerminal() ==> run.recoveryCount <= run.spec.maxRecoveries)
    && (run.status.Queued? ==> run.leaseEpoch == 0)
    && (run.status.IsClaimable() ==> run.leaseEpoch == run.recoveryCount)
    && (run.status.NeedsLease() ==> run.leaseEpoch == run.recoveryCount + 1)
  }

  /** An active lease is at its Run's epoch, and its Run is resident unless both are over. */
  predicate HolderAgrees(runs: seq<Run>, l: Lease, now: Time) {
    l.grant.run < |runs| && l.grant.epoch == runs[l.grant.run].leaseEpoch
    && runs[l.grant.run].leaseEpoch == runs[l.grant.run].recoveryCount + 1
    && (runs[l.grant.run].status.IsResident() || (runs[l.grant.run].status.IsTerminal() && l.expiresAt <= now))
  }

  ghost predicate Counted(runs: seq<Run>) {
    forall r :: 0 <= r < |runs| ==> CountersAgree(runs[r])
  }

  ghost predicate HoldersAgree(runs: seq<Run>, leases: seq<Lease>, now: Time) {
    forall i :: 0 <= i < |leases| && leases[i].status.Active? ==> HolderAgrees(runs, leases[i], now)
  }

  ghost predicate Tethered(s: Server, now: Time) {
    Counted(s.runs) && HoldersAgree(s.runs, s.leases, now)
  }

  lemma TetheredLater(s: Server, now: Time, later: Time)
    requires Tethered(s, now) && now <= later
    ensures Tethered(s, later)
  {}

  /** The partial unique index on active leases is never violated. */
  lemma OneActiveLease(s: Server, now: Time, r: RunId, i: LeaseId, j: LeaseId)
    requires Ledger.Valid(s) && Tethered(s, now) && i < |s.leases| && j < |s.leases|
    requires Held(s.leases[i], r) && Held(s.leases[j], r)
    ensures i == j
  {}

  /** A live lease belongs to a Run that a device is working on, or that is paused. */
  lemma LiveMeansResident(s: Server, i: LeaseId, now: Time)
    requires Tethered(s, now) && i < |s.leases| && Live(s.leases[i], now)
    ensures s.leases[i].grant.run < |s.runs| && s.runs[s.leases[i].grant.run].status.IsResident()
  {
    assert HolderAgrees(s.runs, s.leases[i], now);
  }

  // ------------------------------------------------------ changing one Run

  /** Rewriting one Run keeps every other Run's tether. */
  lemma RewriteRun(s: Server, t: Server, r: RunId, run: Run, now: Time)
    requires Tethered(s, now) && r < |s.runs| && t.runs == s.runs[r := run] && t.leases == s.leases
    requires CountersAgree(run) && run.leaseEpoch == s.runs[r].leaseEpoch && run.recoveryCount == s.runs[r].recoveryCount
    requires forall i :: 0 <= i < |s.leases| && Held(s.leases[i], r) ==>
      run.status.IsResident() || (run.status.IsTerminal() && s.leases[i].expiresAt <= now)
    ensures Tethered(t, now)
  {}

  /** Ending one Run while nothing live holds it. */
  lemma ServerTerminalKeepsTethered(s: Server, r: RunId, status: RunStatus, code: string, text: string, now: Time)
    requires Tethered(s, now) && r < |s.runs| && status.IsTerminal() && !HasLiveLease(s, r, now)
    ensures Tethered(ServerTerminal(s, r, status, code, text, now), now)
  {}

  /** Writing lease columns other than status, while the Run is resident. */
  lemma TouchLease(s: Server, t: Server, i: LeaseId, lease: Lease, now: Time)
    requires Tethered(s, now) && i < |s.leases| && t.runs == s.runs && t.leases == s.leases[i := lease]
    requires lease.grant == s.leases[i].grant && lease.status == s.leases[i].status
    requires lease.grant.run < |s.runs| && s.runs[lease.grant.run].status.IsResident()
    ensures Tethered(t, now)
  {
    forall k | 0 <= k < |t.leases| && t.leases[k].status.Active? ensures HolderAgrees(t.runs, t.leases[k], now) {
      assert HolderAgrees(s.runs, s.leases[k], now);
    }
  }

  // ----------------------------------------------------- taking a lease away

  /** Tethered, and no active lease is left on the Run, which has been leased. */
  ghost predicate Unheld(s: Server, r: RunId, now: Time) {
    Tethered(s, now) && r < |s.runs| && (forall i :: 0 <= i < |s.leases| ==> !Held(s.leases[i], r))
    && !s.runs[r].status.IsClaimable() && s.runs[r].leaseEpoch == s.runs[r].recoveryCount + 1
  }

  lemma UnleaseMeansUnheld(s: Server, i: LeaseId, lease: Lease, now: Time)
    requires Ledger.EpochsIncrease(s.leases) && Tethered(s, now) && i < |s.leases| && s.leases[i].status.Active?
    requires lease.grant == s.leases[i].grant && !lease.status.Active?
    ensures Unheld(s.(leases := s.leases[i := lease]), lease.grant.run, now)
  {
    var t := s.(leases := s.leases[i := lease]);
    assert HolderAgrees(s.runs, s.leases[i], now);
    forall k | 0 <= k < |t.leases| && t.leases[k].status.Active?
      ensures HolderAgrees(t.runs, t.leases[k], now) && !Held(t.leases[k], lease.grant.run)
    {
      assert HolderAgrees(s.runs, s.leases[k], now);
    }
  }

  lemma RewriteUnheld(s: Server, t: Server, r: RunId, run: Run, now: Time)
    requires Unheld(s, r, now) && t.leases == s.leases && t.runs == s.runs[r := run] && CountersAgree(run)
    ensures Tethered(t, now)
  {}

  lemma RecoverKeepsTethered(s: Server, r: RunId, now: Time)
    requires Unheld(s, r, now)
    ensures Tethered(RecoverRun(s, r, now), now)
  {}

  lemma DropKeepsTethered(s: Server, i: LeaseId, to: LeaseStatus, now: Time)
    requires Ledger.Valid(s) && Tethered(s, now) && i < |s.leases| && s.leases[i].status.Active? && !to.Active?
    ensures Tethered(DropLease(s, i, to, now), now)
  {
    UnleaseMeansUnheld(s, i, s.leases[i].(status := to), now);
    RecoverKeepsTethered(s.(leases := s.leases[i := s.leases[i].(status := to)]), s.leases[i].grant.run, now);
  }

  lemma DropKeepsValid(s: Server, i: LeaseId, to: LeaseStatus, now: Time)
    requires Ledger.Valid(s) && i < |s.leases| && s.leases[i].status.Active? && !to.Active?
    ensures Ledger.Valid(DropLease(s, i, to, now)) && |DropLease(s, i, to, now).leases| == |s.leases|
  {
    Ledger.DropIsQuiet(s, i, to, now);
    Ledger.QuietKeepsValid(s, DropLease(s, i, to, now));
  }

  lemma {:induction false} DropFromKeepsTethered(s: Server, i: nat, doomed: Doomed, now: Time)
    requires Ledger.Valid(s) && Tethered(s, now)
    ensures Tethered(DropFrom(s, i, doomed, now), now)
    decreases |s.leases| - i
  {
    if i < |s.leases| {
      if doomed.Hits(s.leases[i]) {
        DropKeepsTethered(s, i, doomed.Outcome(), now);
        DropKeepsValid(s, i, doomed.Outcome(), now);
        DropFromKeepsTethered(DropLease(s, i, doomed.Outcome(), now), i + 1, doomed, now);
      } else {
        DropFromKeepsTethered(s, i + 1, doomed, now);
      }
    }
  }

  // ------------------------------------------------------------ each step

  lemma GrantKeepsTethered(s: Server, p: Principal, r: RunId, seconds: int, now: Time)
    requires Tethered(s, now) && r < |s.runs| && s.runs[r].status.IsClaimable()
    ensures Tethered(GrantLease(s, p, r, seconds, now), now)
  {
    var t := GrantLease(s, p, r, seconds, now);
    assert CountersAgree(s.runs[r]);
    forall i | 0 <= i < |t.leases| && t.leases[i].status.Active? ensures HolderAgrees(t.runs, t.leases[i], now) {
      if i < |s.leases| { assert HolderAgrees(s.runs, s.leases[i], now); }
    }
  }

  lemma ClaimKeepsTethered(s: Server, p: Principal, seconds: int, now: Time)
    requires Ledger.Valid(s) && Tethered(s, now)
    ensures Tethered(LeaseRun(s, p, seconds, now).0, now)
  {
    var swept := ExpireLeases(s, p.owner, now);
    DropFromKeepsTethered(s, 0, ExpiredOf(p.owner, now), now);
    match SelectRun(swept, p, now)
    case None =>
    case Some(r) => GrantKeepsTethered(swept, p, r, seconds, now);
  }

  lemma RenewKeepsTethered(s: Server, p: Principal, r: RunId, i: LeaseId, epoch: nat, seconds: int, now: Time)
    requires Tethered(s, now)
    ensures Tethered(RenewLease(s, p, r, i, epoch, seconds, now).0, now)
  {
    var t := RenewLease(s, p, r, i, epoch, seconds, now).0;
    if CurrentLease(s, p, r, i, epoch).Some? && Live(s.leases[i], now) {
      LiveMeansResident(s, i, now);
      TouchLease(s, t, i, t.leases[i], now);
    }
  }

  /** Whatever the batch: if it ends the Run, its lease is gone; if not, the Run stays resident. */
  lemma SubmitKeepsTethered(s: Server, p: Principal, r: RunId, i: LeaseId, epoch: nat, ms: seq<EventMessage>, now: Time)
    requires Ledger.Valid(s) && Tethered(s, now)
    ensures Tethered(SubmitEvents(s, p, r, i, epoch, ms, now).0, now)
  {
    var (t, reply) := SubmitEvents(s, p, r, i, epoch, ms, now);
    if reply.Success? {
      var news := News(ms, s.leases[i].ack);
      SubmitLands(s, p, r, i, epoch, ms, now);
      if news != [] {
        assert HolderAgrees(s.runs, s.leases[i], now) && CountersAgree(s.runs[r]);
        WrittenStatus(news, s.runs[r].status);
        if Ends(news) {
          UnleaseMeansUnheld(s, i, t.leases[i], now);
          RewriteUnheld(s.(leases := t.leases), t, r, t.runs[r], now);
        } else {
          TouchLease(s, s.(leases := t.leases), i, t.leases[i], now);
          RewriteRun(s.(leases := t.leases), t, r, t.runs[r], now);
        }
      }
    }
  }

  lemma CancelKeepsTethered(s: Server, r: RunId, owner: OwnerId, now: Time)
    requires Tethered(s, now)
    ensures Tethered(RequestCancel(s, r, owner, now).0, now)
  {
    if Owns(s, r, owner) {
      if (s.runs[r].status.IsClaimable() || s.runs[r].status.Paused?) && !HasLiveLease(s, r, now) {
        ServerTerminalKeepsTethered(s, r, Cancelled, "cancelled_by_user", "Run cancelled before local execution", now);
      }
    }
  }

  lemma PauseKeepsTethered(s: Server, r: RunId, owner: OwnerId, now: Time)
    requires Tethered(s, now)
    ensures Tethered(RequestPause(s, r, owner).0, now)
  {}

  lemma ResumeKeepsTethered(s: Server, r: RunId, owner: OwnerId, now: Time)
    requires Tethered(s, now)
    ensures Tethered(RequestResume(s, r, owner, now).0, now)
  {}

  lemma RevokeKeepsTethered(s: Server, owner: OwnerId, device: DeviceId, now: Time)
    requires Ledger.Valid(s) && Tethered(s, now)
    ensures Tethered(RevokeDevice(s, owner, device, now), now)
  {
    if device in s.devices && s.devices[device].owner == owner {
      var t := s.(devices := s.devices[device := s.devices[device].(status := DeviceRevoked)]);
      Ledger.QuietKeepsValid(s, t);
      DropFromKeepsTethered(t, 0, HeldBy(device), now);
    }
  }

  lemma EnqueueKeepsTethered(s: Server, a: AutomationId, key: string, template: Template, now: Time)
    requires Tethered(s, now)
    ensures Tethered(EnqueueAutomation(s, a, key, template).0, now)
  {}

  lemma NewRunKeepsTethered(s: Server, spec: RunSpec, now: Time)
    requires Tethered(s, now)
    ensures Tethered(CreateTurn(s, spec).0, now) && Tethered(CreateRun(s, spec).0, now)
  {}

  lemma AsideKeepsTethered(s: Server, t: Server, now: Time)
    requires Tethered(s, now) && t.runs == s.runs && t.leases == s.leases
    ensures Tethered(t, now)
  {}

  /** Every transaction, with any batch and under any key. */
  lemma PerformKeepsTethered(s: Server, tx: Transaction, now: Time)
    requires Ledger.Valid(s) && Tethered(s, now)
    ensures Tethered(Perform(s, tx, now), now)
  {
    match tx
    case Claim(who, seconds) => ClaimKeepsTethered(s, who, seconds, now);
    case Renew(who, r, i, epoch, seconds) => RenewKeepsTethered(s, who, r, i, epoch, seconds, now);
    case Submit(who, r, i, epoch, events) => SubmitKeepsTethered(s, who, r, i, epoch, events, now);
    case Cancel(r, owner) => CancelKeepsTethered(s, r, owner, now);
    case Pause(r, owner) => PauseKeepsTethered(s, r, owner, now);
    case Resume(r, owner) => ResumeKeepsTethered(s, r, owner, now);
    case Revoke(device, owner) => RevokeKeepsTethered(s, owner, device, now);
    case Enqueue(a, key, template) => EnqueueKeepsTethered(s, a, key, template, now);
    case Turn(spec) => NewRunKeepsTethered(s, spec, now);
    case AddRun(spec) => NewRunKeepsTethered(s, spec, now);
    case _ => AsideKeepsTethered(s, Perform(s, tx, now), now);
  }

  // ------------------------------------------------------------ ended Runs

  /** Ended Runs stay as they ended, and no message is taken back or changed. */
  ghost predicate EndedKept(s: Server, t: Server) {
    |s.runs| <= |t.runs| && s.messages <= t.messages
    && forall r :: 0 <= r < |s.runs| && s.runs[r].status.IsTerminal() ==> t.runs[r] == s.runs[r]
  }

  lemma EndedKeptTransitive(s: Server, t: Server, u: Server)
    requires EndedKept(s, t) && EndedKept(t, u)
    ensures EndedKept(s, u)
  {}

  lemma DropKeepsEnded(s: Server, i: LeaseId, to: LeaseStatus, now: Time)
    requires i < |s.leases|
    ensures EndedKept(s, DropLease(s, i, to, now)) && |DropLease(s, i, to, now).leases| == |s.leases|
  {}

  lemma {:induction false} DropFromKeepsEnded(s: Server, i: nat, doomed: Doomed, now: Time)
    ensures EndedKept(s, DropFrom(s, i, doomed, now))
    decreases |s.leases| - i
  {
    if i < |s.leases| {
      var t := if doomed.Hits(s.leases[i]) then DropLease(s, i, doomed.Outcome(), now) else s;
      DropKeepsEnded(s, i, doomed.Outcome(), now);
      DropFromKeepsEnded(t, i + 1, doomed, now);
      EndedKeptTransitive(s, t, DropFrom(s, i, doomed, now));
    }
  }

  /** No batch touches a Run that had ended: nothing live holds such a Run. */
  lemma SubmitKeepsEnded(s: Server, p: Principal, r: RunId, i: LeaseId, epoch: nat, ms: seq<EventMessage>, now: Time)
    requires Ledger.Valid(s) && Tethered(s, now)
    ensures EndedKept(s, SubmitEvents(s, p, r, i, epoch, ms, now).0)
  {
    if SubmitEvents(s, p, r, i, epoch, ms, now).1.Success? {
      SubmitLands(s, p, r, i, epoch, ms, now);
      if News(ms, s.leases[i].ack) != [] { LiveMeansResident(s, i, now); }
    }
  }

  lemma ClaimKeepsEnded(s: Server, p: Principal, seconds: int, now: Time)
    ensures EndedKept(s, LeaseRun(s, p, seconds, now).0)
  {
    DropFromKeepsEnded(s, 0, ExpiredOf(p.owner, now), now);
  }

  lemma RevokeKeepsEnded(s: Server, owner: OwnerId, device: DeviceId, now: Time)
    ensures EndedKept(s, RevokeDevice(s, owner, device, now))
  {
    if device in s.devices && s.devices[device].owner == owner {
      DropFromKeepsEnded(s.(devices := s.devices[device := s.devices[device].(status := DeviceRevoked)]), 0, HeldBy(device), now);
    }
  }

  lemma CancelKeepsEnded(s: Server, r: RunId, owner: OwnerId, now: Time)
    ensures EndedKept(s, RequestCancel(s, r, owner, now).0)
  {}

  lemma ResumeKeepsEnded(s: Server, r: RunId, owner: OwnerId, now: Time)
    ensures EndedKept(s, RequestResume(s, r, owner, now).0)
  {}

  lemma SmallStepKeepsEnded(s: Server, tx: Transaction, now: Time)
    requires tx.Pause? || tx.Answer? || tx.Renew?
    ensures EndedKept(s, Perform(s, tx, now))
  {}

  /** Whatever anyone sends, a Run that has ended is never written again. */
  lemma PerformKeepsEnded(s: Server, tx: Transaction, now: Time)
    requires Ledger.Valid(s) && Tethered(s, now)
    ensures EndedKept(s, Perform(s, tx, now))
  {
    match tx
    case Claim(who, seconds) => ClaimKeepsEnded(s, who, seconds, now);
    case Submit(who, r, i, epoch, events) => SubmitKeepsEnded(s, who, r, i, epoch, events, now);
    case Revoke(device, owner) => RevokeKeepsEnded(s, owner, device, now);
    case Cancel(r, owner) => CancelKeepsEnded(s, r, owner, now);
    case Resume(r, owner) => ResumeKeepsEnded(s, r, owner, now);
    case Pause(_, _) => SmallStepKeepsEnded(s, tx, now);
    case Answer(_, _, _) => SmallStepKeepsEnded(s, tx, now);
    case Renew(_, _, _, _, _) => SmallStepKeepsEnded(s, tx, now);
    case _ =>
  }
}
