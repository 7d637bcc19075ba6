/**
  The life of a Run and of a device identity over whole histories: every way a
  status can change, and what never comes back.
*/
module RunLife {
  import opened Wrappers
  import opened RunTypes
  import opened RunProtocol
  import Ledger
  import opened Landing
  import opened Tether
  import opened Recovery
  import opened EventEffects
  import opened Workspaces
  import opened Requests
  import opened Outcomes
  import opened History

  /** The moves of a Run's status, by the transaction that makes them. */
  predicate MayMove(tx: Transaction, a: RunStatus, b: RunStatus) {
    a == b || match tx
    case Claim(_, _) => (a in {Queued, Recoverable} && b == Leased) || (a in {Leased, Running, WaitingUser} && b in {Leased, Recoverable, Failed})
    case Revoke(_, _) => a in {Leased, Running, WaitingUser} && b in {Recoverable, Failed}
    case Submit(_, _, _, _, _) =>
      a in {Leased, Running, WaitingUser, Paused} && b in {Running, WaitingUser, Paused, Completed, Failed, Cancelled}
    case Cancel(_, _) => a in {Queued, Recoverable, Paused} && b == Cancelled
    case Pause(_, _) => a in {Queued, Recoverable} && b == Paused
    case Resume(_, _) => a == Paused && b in {Recoverable, Failed}
    case _ => false
  }

  lemma SweepMoves(s: Server, t: Server, r: RunId, lost: bool, now: Time)
    requires Tethered(s, now) && r < |s.runs| && Swept(s, t, r, lost)
    requires lost ==> exists k :: 0 <= k < |s.leases| && s.leases[k].status.Active? && s.leases[k].grant.run == r
    ensures t.runs[r].status == s.runs[r].status
         || (s.runs[r].status in {Leased, Running, WaitingUser} && t.runs[r].status in {Recoverable, Failed})
  {
    if lost {
      var k :| 0 <= k < |s.leases| && s.leases[k].status.Active? && s.leases[k].grant.run == r;
      assert HolderAgrees(s.runs, s.leases[k], now);
    }
  }

  lemma ClaimMoves(s: Server, p: Principal, seconds: int, now: Time, r: RunId)
    requires Ledger.Valid(s) && Tethered(s, now) && r < |s.runs|
    ensures var t := LeaseRun(s, p, seconds, now).0;
      r < |t.runs| && MayMove(Claim(p, seconds), s.runs[r].status, t.runs[r].status)
  {
    var swept := ExpireLeases(s, p.owner, now);
    ExpiryRecovers(s, p.owner, now, r);
    SweepMoves(s, swept, r, LapsedOn(s.leases, r, p.owner, now), now);
    match SelectRun(swept, p, now)
    case None =>
    case Some(q) => SelectedExactly(swept, p, q, now);
  }

  lemma SubmitMoves(s: Server, p: Principal, r: RunId, i: LeaseId, epoch: nat, ms: seq<EventMessage>, now: Time, q: RunId)
    requires Ledger.Valid(s) && Tethered(s, now) && q < |s.runs|
    ensures var t := SubmitEvents(s, p, r, i, epoch, ms, now).0;
      q < |t.runs| && MayMove(Submit(p, r, i, epoch, ms), s.runs[q].status, t.runs[q].status)
  {
    if SubmitEvents(s, p, r, i, epoch, ms, now).1.Success? {
      SubmitLands(s, p, r, i, epoch, ms, now);
      BatchTellsStatus(s, p, r, i, epoch, ms, now);
      if News(ms, s.leases[i].ack) != [] { LiveMeansResident(s, i, now); }
    }
  }

  lemma RevokeMoves(s: Server, owner: OwnerId, device: DeviceId, now: Time, r: RunId)
    requires Ledger.Valid(s) && Tethered(s, now) && r < |s.runs|
    ensures var t := RevokeDevice(s, owner, device, now);
      r < |t.runs| && MayMove(Revoke(device, owner), s.runs[r].status, t.runs[r].status)
  {
    RevocationRecovers(s, owner, device, now, r);
    SweepMoves(s, RevokeDevice(s, owner, device, now), r, Revocable(s, owner, device) && HeldOn(s.leases, r, device), now);
  }

  lemma SmallSteps(s: Server, tx: Transaction, now: Time, r: RunId)
    requires r < |s.runs|
    requires tx.Register? || tx.Beat? || tx.Turn? || tx.AddRun? || tx.Post? || tx.Renew? || tx.Answer? || tx.Enqueue? || tx.Ignore?
    ensures r < |Perform(s, tx, now).runs| && Perform(s, tx, now).runs[r] == s.runs[r]
  {}

  /** No transaction, whatever the batch, moves a status in any other way. */
  lemma MovesExactly(s: Server, tx: Transaction, now: Time, r: RunId)
    requires Ledger.Valid(s) && Tethered(s, now) && r < |s.runs|
    ensures var t := Perform(s, tx, now);
      r < |t.runs| && MayMove(tx, s.runs[r].status, t.runs[r].status)
  {
    match tx
    case Claim(who, seconds) => ClaimMoves(s, who, seconds, now, r);
    case Submit(who, q, i, epoch, events) => SubmitMoves(s, who, q, i, epoch, events, now, r);
    case Revoke(device, owner) => RevokeMoves(s, owner, device, now, r);
    case Cancel(q, owner) => CancelExactly(s, q, owner, now);
    case Pause(q, owner) => PauseExactly(s, q, owner);
    case Resume(q, owner) => ResumeExactly(s, q, owner, now);
    case _ => SmallSteps(s, tx, now, r);
  }

  lemma CreationsAreQueued(s: Server, tx: Transaction, now: Time, r: RunId)
    requires (tx.Turn? || tx.AddRun? || tx.Enqueue?) && |s.runs| <= r < |Perform(s, tx, now).runs|
    ensures Perform(s, tx, now).runs[r].status == Queued
  {}

  lemma SmallStepsAddNone(s: Server, tx: Transaction, now: Time)
    requires tx.Register? || tx.Beat? || tx.Post? || tx.Renew? || tx.Cancel? || tx.Pause? || tx.Resume? || tx.Answer? || tx.Ignore?
    ensures |Perform(s, tx, now).runs| == |s.runs|
  {}

  /** New Runs are queued and were never leased. */
  lemma NewRunsAreQueued(s: Server, tx: Transaction, now: Time, r: RunId)
    requires Ledger.Valid(s) && |s.runs| <= r < |Perform(s, tx, now).runs|
    ensures Perform(s, tx, now).runs[r].status == Queued
  {
    match tx
    case Claim(who, _) => Ledger.DropFromIsQuiet(s, 0, ExpiredOf(who.owner, now), now);
    case Submit(who, q, i, epoch, events) =>
      if SubmitEvents(s, who, q, i, epoch, events, now).1.Success? { SubmitLands(s, who, q, i, epoch, events, now); }
    case Revoke(device, owner) =>
      if Revocable(s, owner, device) {
        Ledger.DropFromIsQuiet(s.(devices := s.devices[device := s.devices[device].(status := DeviceRevoked)]), 0, HeldBy(device), now);
      }
    case Turn(_) => CreationsAreQueued(s, tx, now, r);
    case AddRun(_) => CreationsAreQueued(s, tx, now, r);
    case Enqueue(_, _, _) => CreationsAreQueued(s, tx, now, r);
    case _ => SmallStepsAddNone(s, tx, now);
  }

  /** Over every history with a monotone clock: a Run that has left the queue never enters it again,
      none ever shows the status `succeeded`, and one that has ended keeps its status. */
  lemma {:induction false} LivesOnce(s: Server, h: seq<Timed>, from: Time, r: RunId)
    requires Ledger.Valid(s) && Tethered(s, from) && Ticking(h, from) && r < |s.runs|
    ensures var a, t := s.runs[r].status, Replay(s, h);
      r < |t.runs|
      && (a != Queued ==> t.runs[r].status != Queued) && (a != Succeeded ==> t.runs[r].status != Succeeded)
      && (a in {Completed, Succeeded, Failed, Cancelled} ==> t.runs[r] == s.runs[r])
  {
    TetheredAlways(s, h, from);
    if |h| > 0 {
      var init, last := h[..|h| - 1], h[|h| - 1];
      LivesOnce(s, init, from, r);
      TetheredAlways(s, init, from);
      TetheredLater(Replay(s, init), EndOf(init, from), last.at);
      MovesExactly(Replay(s, init), last.tx, last.at, r);
    }
  }

  // ---------------------------------------------------------------- devices

  lemma SmallStepsSpareRevoked(s: Server, tx: Transaction, now: Time, d: DeviceId)
    requires d in s.devices && s.devices[d].status == DeviceRevoked && !tx.Claim? && !tx.Submit? && !tx.Revoke?
    ensures var t := Perform(s, tx, now); d in t.devices && t.devices[d].status == DeviceRevoked
  {}

  lemma SweepsSpareRevoked(s: Server, tx: Transaction, now: Time, d: DeviceId)
    requires d in s.devices && s.devices[d].status == DeviceRevoked && (tx.Claim? || tx.Revoke?)
    ensures var t := Perform(s, tx, now); d in t.devices && t.devices[d].status == DeviceRevoked
  {
    match tx
    case Claim(who, _) => SweepSparesDevices(s, 0, ExpiredOf(who.owner, now), now);
    case Revoke(device, owner) =>
      if Revocable(s, owner, device) {
        SweepSparesDevices(s.(devices := s.devices[device := s.devices[device].(status := DeviceRevoked)]), 0, HeldBy(device), now);
      }
  }

  lemma DevicesAfter(s: Server, tx: Transaction, now: Time, d: DeviceId)
    requires Ledger.Valid(s) && d in s.devices && s.devices[d].status == DeviceRevoked
    ensures var t := Perform(s, tx, now); d in t.devices && t.devices[d].status == DeviceRevoked
  {
    if tx.Submit? {
      if SubmitEvents(s, tx.who, tx.run, tx.lease, tx.epoch, tx.events, now).1.Success? {
        SubmitLands(s, tx.who, tx.run, tx.lease, tx.epoch, tx.events, now);
      }
    } else if tx.Claim? || tx.Revoke? {
      SweepsSpareRevoked(s, tx, now, d);
    } else {
      SmallStepsSpareRevoked(s, tx, now, d);
    }
  }

  /** A revoked identity is never revived. */
  lemma {:induction false} RevokedForever(s: Server, h: seq<Timed>, d: DeviceId)
    requires Ledger.Valid(s) && d in s.devices && s.devices[d].status == DeviceRevoked
    ensures var t := Replay(s, h); d in t.devices && t.devices[d].status == DeviceRevoked
  {
    if |h| > 0 {
      var init, last := h[..|h| - 1], h[|h| - 1];
      RevokedForever(s, init, d);
      LedgerAlways(s, init);
      DevicesAfter(Replay(s, init), last.tx, last.at, d);
    }
  }

  /** A device registers under its first owner for good, unless it was revoked. */
  lemma RegisterExactly(s: Server, device: DeviceId, owner: OwnerId, caps: Capabilities, now: Time)
    ensures var (t, reply) := RegisterDevice(s, device, owner, caps, now);
      if device in s.devices && (s.devices[device].owner != owner || s.devices[device].status == DeviceRevoked)
      then reply == Failure(WrongStatus) && t == s
      else reply == Success(()) && t == s.(devices := s.devices[device := Device(owner, caps, DeviceActive, now)])
  {}
}
