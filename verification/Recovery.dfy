/**
  What losing a lease does to its Run, read off the tables before and after a sweep
  or a revocation.
*/
module Recovery {
  import opened Wrappers
  import opened RunTypes
  import opened TerminalOutput
  import opened RunProtocol
  import Ledger
  import opened Tether

  /** The row of a Run that lost its active lease. */
  ghost predicate RowRecovered(a: Run, b: Run) {
    if a.status in {Paused, Completed, Succeeded, Failed, Cancelled} then b == a
    else if a.recoveryCount < a.spec.maxRecoveries then
      b == a.(status := Recoverable, recoveryCount := a.recoveryCount + 1)
    else
      b == a.(status := Failed, recoveryCount := a.recoveryCount + 1, errorCode := "lease_recovery_exhausted")
  }

  /** The Run is open, not paused, and was recovered as often as it may be. */
  predicate Exhausted(run: Run) {
    run.status in {Queued, Leased, Running, WaitingUser, Recoverable} && run.recoveryCount >= run.spec.maxRecoveries
  }

  /** No message about the Run is added, and no fire of it moves. */
  ghost predicate Quietly(s: Server, t: Server, r: RunId) {
    && s.messages <= t.messages && |t.fires| == |s.fires|
    && (forall k :: |s.messages| <= k < |t.messages| ==> t.messages[k].run != r)
    && forall f :: 0 <= f < |s.fires| && s.fires[f].run == r ==> t.fires[f] == s.fires[f]
  }

  lemma QuietlyTransitive(s: Server, t: Server, u: Server, r: RunId)
    requires Quietly(s, t, r) && Quietly(t, u, r)
    ensures Quietly(s, u, r)
  {}

  /** What becomes of a Run that did, or did not, lose its lease. */
  ghost predicate Swept(s: Server, t: Server, r: RunId, lost: bool)
    requires r < |s.runs|
  {
    && r < |t.runs|
    && (if lost then RowRecovered(s.runs[r], t.runs[r]) else t.runs[r] == s.runs[r])
    && (if lost && Exhausted(s.runs[r]) then Answered(t.messages, r) && s.messages <= t.messages else Quietly(s, t, r))
  }

  // --------------------------------------------------------------- one lease

  lemma DropRecovers(s: Server, i: LeaseId, to: LeaseStatus, now: Time)
    requires i < |s.leases| && s.leases[i].grant.run < |s.runs|
    ensures var t, r := DropLease(s, i, to, now), s.leases[i].grant.run;
      r < |t.runs| && RowRecovered(s.runs[r], t.runs[r]) && t.runs == s.runs[r := t.runs[r]]
      && t.leases == s.leases[i := s.leases[i].(status := to)]
  {}

  /** One step of a sweep. */
  lemma DoomedDrop(s: Server, i: LeaseId, doomed: Doomed, now: Time)
    requires Ledger.Valid(s) && Tethered(s, now) && i < |s.leases| && doomed.Hits(s.leases[i])
    ensures s.leases[i].grant.run < |s.runs|
    ensures var t, r := DropLease(s, i, doomed.Outcome(), now), s.leases[i].grant.run;
      Ledger.Valid(t) && Tethered(t, now) && r < |t.runs| && t.runs == s.runs[r := t.runs[r]] && RowRecovered(s.runs[r], t.runs[r])
      && t.leases == s.leases[i := s.leases[i].(status := doomed.Outcome())]
  {
    assert HolderAgrees(s.runs, s.leases[i], now);
    DropRecovers(s, i, doomed.Outcome(), now);
    DropKeepsTethered(s, i, doomed.Outcome(), now);
    DropKeepsValid(s, i, doomed.Outcome(), now);
  }

  lemma DropWritesOutput(s: Server, i: LeaseId, to: LeaseStatus, now: Time, q: RunId)
    requires i < |s.leases| && s.leases[i].grant.run < |s.runs|
    ensures var t, r := DropLease(s, i, to, now), s.leases[i].grant.run;
      s.messages <= t.messages
      && (if q == r && Exhausted(s.runs[r]) then Answered(t.messages, q) else Quietly(s, t, q))
  {
    var r := s.leases[i].grant.run;
    var messages := WithFinalMessage(s.messages, s.events, r, s.runs[r].leaseEpoch, "Run lease recovery limit exceeded");
    if !Answered(s.messages, r) { assert messages[|s.messages|].run == r; }
  }

  // ------------------------------------------------------------------ sweeps

  /** Some lease from i on is taken away from the Run. */
  ghost predicate LosesFrom(s: Server, i: nat, doomed: Doomed, r: RunId) {
    exists k :: i <= k < |s.leases| && doomed.Hits(s.leases[k]) && s.leases[k].grant.run == r
  }

  lemma SweptThen(s: Server, t: Server, u: Server, r: RunId, first: bool, second: bool)
    requires r < |s.runs| && Swept(s, t, r, first) && r < |t.runs| && Swept(t, u, r, second) && !(first && second)
    requires s.messages <= t.messages <= u.messages
    ensures Swept(s, u, r, first || second)
  {
    if first && Exhausted(s.runs[r]) {
      var k :| 0 <= k < |t.messages| && t.messages[k].run == r;
      assert u.messages[k].run == r;
    } else if second && Exhausted(t.runs[r]) {
    } else {
      QuietlyTransitive(s, t, u, r);
    }
  }

  lemma DropSweeps(s: Server, i: LeaseId, doomed: Doomed, now: Time, r: RunId)
    requires Ledger.Valid(s) && Tethered(s, now) && i < |s.leases| && doomed.Hits(s.leases[i]) && r < |s.runs|
    ensures var t := DropLease(s, i, doomed.Outcome(), now);
      s.messages <= t.messages && Swept(s, t, r, s.leases[i].grant.run == r)
  {
    DoomedDrop(s, i, doomed, now);
    DropWritesOutput(s, i, doomed.Outcome(), now, r);
  }

  lemma {:induction false} SweepRecovers(s: Server, i: nat, doomed: Doomed, now: Time, r: RunId)
    requires Ledger.Valid(s) && Tethered(s, now) && r < |s.runs|
    ensures var t := DropFrom(s, i, doomed, now);
      s.messages <= t.messages && Swept(s, t, r, LosesFrom(s, i, doomed, r))
    decreases |s.leases| - i
  {
    if i < |s.leases| {
      if doomed.Hits(s.leases[i]) {
        var t := DropLease(s, i, doomed.Outcome(), now);
        DoomedDrop(s, i, doomed, now);
        DropSweeps(s, i, doomed, now, r);
        SweepRecovers(t, i + 1, doomed, now, r);
        LosesNext(s, i, doomed, now, r);
        SweptThen(s, t, DropFrom(s, i, doomed, now), r, s.leases[i].grant.run == r, LosesFrom(t, i + 1, doomed, r));
      } else {
        SweepRecovers(s, i + 1, doomed, now, r);
        assert LosesFrom(s, i, doomed, r) <==> LosesFrom(s, i + 1, doomed, r);
      }
    }
  }

  /** A Run has one active lease, so what is lost is lost at i or after it, not both. */
  lemma LosesNext(s: Server, i: LeaseId, doomed: Doomed, now: Time, r: RunId)
    requires Ledger.Valid(s) && Tethered(s, now) && i < |s.leases| && doomed.Hits(s.leases[i]) && s.leases[i].grant.run < |s.runs|
    ensures var t := DropLease(s, i, doomed.Outcome(), now);
      (LosesFrom(s, i, doomed, r) <==> s.leases[i].grant.run == r || LosesFrom(t, i + 1, doomed, r))
      && !(s.leases[i].grant.run == r && LosesFrom(t, i + 1, doomed, r))
  {
    var t := DropLease(s, i, doomed.Outcome(), now);
    DropRecovers(s, i, doomed.Outcome(), now);
    forall k | i < k < |s.leases| ensures t.leases[k] == s.leases[k] {}
    if s.leases[i].grant.run == r && LosesFrom(t, i + 1, doomed, r) {
      var k :| i + 1 <= k < |t.leases| && doomed.Hits(t.leases[k]) && t.leases[k].grant.run == r;
      OneActiveLease(s, now, r, i, k);
    }
    if LosesFrom(t, i + 1, doomed, r) {
      var k :| i + 1 <= k < |t.leases| && doomed.Hits(t.leases[k]) && t.leases[k].grant.run == r;
      assert doomed.Hits(s.leases[k]);
    }
    if LosesFrom(s, i, doomed, r) && s.leases[i].grant.run != r {
      var k :| i <= k < |s.leases| && doomed.Hits(s.leases[k]) && s.leases[k].grant.run == r;
      assert doomed.Hits(t.leases[k]);
    }
  }

  /** A lease that was taken away is not taken away again. */
  lemma HitOnce(l: Lease, doomed: Doomed)
    ensures !doomed.Hits(l.(status := doomed.Outcome()))
  {}

  predicate EndedBy(a: Lease, b: Lease, doomed: Doomed, reached: bool) {
    b == if reached && doomed.Hits(a) then a.(status := doomed.Outcome()) else a
  }

  lemma EndedThen(s: Server, t: Server, u: Server, i: LeaseId, doomed: Doomed, k: LeaseId)
    requires i < |s.leases| && k < |s.leases| && t.leases == s.leases[i := s.leases[i].(status := doomed.Outcome())] && k < |u.leases|
    requires doomed.Hits(s.leases[i]) && EndedBy(t.leases[k], u.leases[k], doomed, i + 1 <= k)
    ensures EndedBy(s.leases[k], u.leases[k], doomed, i <= k)
  {
    HitOnce(s.leases[i], doomed);
  }

  lemma {:induction false} SweepEnds(s: Server, i: nat, doomed: Doomed, now: Time, k: LeaseId)
    requires Ledger.Valid(s) && Tethered(s, now) && k < |s.leases|
    ensures var t := DropFrom(s, i, doomed, now); |t.leases| == |s.leases| && EndedBy(s.leases[k], t.leases[k], doomed, i <= k)
    decreases |s.leases| - i
  {
    if i < |s.leases| {
      if doomed.Hits(s.leases[i]) {
        var t := DropLease(s, i, doomed.Outcome(), now);
        DoomedDrop(s, i, doomed, now);
        SweepEnds(t, i + 1, doomed, now, k);
        EndedThen(s, t, DropFrom(t, i + 1, doomed, now), i, doomed, k);
      } else {
        SweepEnds(s, i + 1, doomed, now, k);
      }
    }
  }

  // ------------------------------------------------- the two ways to lose one

  /** The lease is active, its owner's, and past its deadline. */
  predicate Lapsed(l: Lease, owner: OwnerId, now: Time) {
    l.status == Active && l.grant.owner == owner && l.expiresAt <= now
  }

  predicate OnDevice(l: Lease, device: DeviceId) { l.status == Active && l.grant.device == device }

  ghost predicate LapsedOn(leases: seq<Lease>, r: RunId, owner: OwnerId, now: Time) {
    exists k :: 0 <= k < |leases| && Lapsed(leases[k], owner, now) && leases[k].grant.run == r
  }

  ghost predicate HeldOn(leases: seq<Lease>, r: RunId, device: DeviceId) {
    exists k :: 0 <= k < |leases| && OnDevice(leases[k], device) && leases[k].grant.run == r
  }

  /** The sweep of an owner's expired leases.  A Run that loses its lease is paused or ended and
      stays as it is, or becomes recoverable with one more recovery and nothing else written, or,
      with no recovery left, fails and is answered. */
  lemma ExpiryRecovers(s: Server, owner: OwnerId, now: Time, r: RunId)
    requires Ledger.Valid(s) && Tethered(s, now) && r < |s.runs|
    ensures Swept(s, ExpireLeases(s, owner, now), r, LapsedOn(s.leases, r, owner, now))
  {
    SweepRecovers(s, 0, ExpiredOf(owner, now), now, r);
    assert forall l :: Lapsed(l, owner, now) <==> ExpiredOf(owner, now).Hits(l);
    assert LapsedOn(s.leases, r, owner, now) <==> LosesFrom(s, 0, ExpiredOf(owner, now), r);
  }

  /** Exactly the owner's lapsed leases become expired. */
  lemma ExpiryEnds(s: Server, owner: OwnerId, now: Time, k: LeaseId)
    requires Ledger.Valid(s) && Tethered(s, now) && k < |s.leases|
    ensures var t := ExpireLeases(s, owner, now);
      |t.leases| == |s.leases|
      && t.leases[k] == if Lapsed(s.leases[k], owner, now) then s.leases[k].(status := Expired) else s.leases[k]
  {
    SweepEnds(s, 0, ExpiredOf(owner, now), now, k);
  }

  predicate Revocable(s: Server, owner: OwnerId, device: DeviceId) { device in s.devices && s.devices[device].owner == owner }

  /** Revoking a device: the same, for its active leases. */
  lemma RevocationRecovers(s: Server, owner: OwnerId, device: DeviceId, now: Time, r: RunId)
    requires Ledger.Valid(s) && Tethered(s, now) && r < |s.runs|
    ensures var t := RevokeDevice(s, owner, device, now);
      Swept(s, t, r, Revocable(s, owner, device) && HeldOn(s.leases, r, device))
  {
    if Revocable(s, owner, device) {
      var u := s.(devices := s.devices[device := s.devices[device].(status := DeviceRevoked)]);
      Ledger.QuietKeepsValid(s, u);
      SweepRecovers(u, 0, HeldBy(device), now, r);
      assert forall l :: OnDevice(l, device) <==> HeldBy(device).Hits(l);
      assert HeldOn(s.leases, r, device) <==> LosesFrom(u, 0, HeldBy(device), r);
    }
  }

  lemma {:induction false} SweepSparesDevices(s: Server, i: nat, doomed: Doomed, now: Time)
    ensures DropFrom(s, i, doomed, now).devices == s.devices
    decreases |s.leases| - i
  {
    if i < |s.leases| {
      SweepSparesDevices(if doomed.Hits(s.leases[i]) then DropLease(s, i, doomed.Outcome(), now) else s, i + 1, doomed, now);
    }
  }

  lemma RevocationEnds(s: Server, owner: OwnerId, device: DeviceId, now: Time, k: LeaseId)
    requires Ledger.Valid(s) && Tethered(s, now) && k < |s.leases|
    ensures var t := RevokeDevice(s, owner, device, now);
      |t.leases| == |s.leases|
      && t.leases[k] == (if Revocable(s, owner, device) && OnDevice(s.leases[k], device)
                         then s.leases[k].(status := Revoked) else s.leases[k])
      && t.devices == (if Revocable(s, owner, device)
                       then s.devices[device := s.devices[device].(status := DeviceRevoked)] else s.devices)
  {
    if Revocable(s, owner, device) {
      var u := s.(devices := s.devices[device := s.devices[device].(status := DeviceRevoked)]);
      Ledger.QuietKeepsValid(s, u);
      SweepEnds(u, 0, HeldBy(device), now, k);
      SweepSparesDevices(u, 0, HeldBy(device), now);
    }
  }
}
