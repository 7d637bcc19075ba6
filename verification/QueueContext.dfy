/**
  Why a queued Run is not making progress, and that the explanation is true:
  a Run said to be blocked cannot be claimed by any device that was considered.
*/
module QueueContext {
  import opened Wrappers
  import opened RunTypes
  import opened TerminalOutput
  import opened RunProtocol
  import Ledger
  import opened Tether
  import opened Admission
  import opened Workspaces

  const ONLINE_WINDOW := 90

  datatype Reason =
    | Recovering | DeviceUnavailable | CapabilityMismatch | DeviceOffline
    | WaitingConfirmation | DeviceBusy | ResourceLockWait | AwaitingClaim

  datatype Explanation = Explanation(reason: Reason, blocking: Option<RunId>)

  /** The devices the Run could be sent to at all. */
  function Addressed(s: Server, spec: RunSpec): set<DeviceId> {
    set d | d in s.devices && s.devices[d].owner == spec.owner && s.devices[d].status.DeviceActive?
            && (spec.target.None? || spec.target.value == d)
  }

  function Compatible(s: Server, spec: RunSpec): set<DeviceId> {
    set d | d in Addressed(s, spec) && d in s.devices && spec.required <= s.devices[d].caps.names
  }

  function Online(s: Server, spec: RunSpec, now: Time): set<DeviceId> {
    set d | d in Compatible(s, spec) && d in s.devices && s.devices[d].lastSeen >= now - ONLINE_WINDOW
  }

  predicate Blocks(s: Server, l: Lease, r: RunId, devices: set<DeviceId>, now: Time) {
    l.grant.device in devices && Live(l, now) && l.grant.run != r && l.grant.run < |s.runs|
    && s.runs[l.grant.run].status.IsResident()
  }

  function Blockers(s: Server, r: RunId, devices: set<DeviceId>, now: Time): set<LeaseId> {
    set i: LeaseId | i < |s.leases| && Blocks(s, s.leases[i], r, devices, now)
  }

  predicate Computing(s: Server, i: LeaseId) {
    i < |s.leases| && s.leases[i].grant.run < |s.runs| && s.runs[s.leases[i].grant.run].status.IsComputing()
  }

  function ComputingOn(s: Server, blockers: set<LeaseId>, d: DeviceId): set<LeaseId> {
    set i | i in blockers && Computing(s, i) && s.leases[i].grant.device == d
  }

  predicate Saturated(s: Server, blockers: set<LeaseId>, d: DeviceId) {
    d in s.devices && |ComputingOn(s, blockers, d)| >= ParallelCapacity(s.devices[d].caps)
  }

  /** The first row of the ordered query that satisfies a condition. */
  function FirstComputing(s: Server, rows: seq<LeaseId>): (i: Option<LeaseId>)
    ensures i.Some? ==> i.value in rows && Computing(s, i.value)
    ensures i.None? ==> forall k :: 0 <= k < |rows| ==> !Computing(s, rows[k])
  {
    if |rows| == 0 then None
    else if Computing(s, rows[0]) then Some(rows[0])
    else FirstComputing(s, rows[1..])
  }

  predicate Clashes(s: Server, spec: RunSpec, i: LeaseId) {
    i < |s.leases| && s.leases[i].grant.run < |s.runs| && Clash(spec, s.runs[s.leases[i].grant.run].spec)
  }

  function FirstClashing(s: Server, spec: RunSpec, rows: seq<LeaseId>): (i: Option<LeaseId>)
    ensures i.Some? ==> i.value in rows && Clashes(s, spec, i.value)
  {
    if |rows| == 0 then None
    else if Clashes(s, spec, rows[0]) then Some(rows[0])
    else FirstClashing(s, spec, rows[1..])
  }

  /** The reason given for a clashing lease. */
  function ClashReason(s: Server, i: Option<LeaseId>): Option<Explanation>
    requires i.Some? ==> i.value < |s.leases| && s.leases[i.value].grant.run < |s.runs|
  {
    if i.None? then Some(Explanation(AwaitingClaim, None))
    else
      var waiting := s.runs[s.leases[i.value].grant.run].status.WaitingUser?;
      Some(Explanation(if waiting then WaitingConfirmation else ResourceLockWait, Some(s.leases[i.value].grant.run)))
  }

  /** The explanation shown for Run r, with the blockers in the order the query
      returned them.  Failure is the lookup running off the end of that list. */
  function Explain(s: Server, r: RunId, rows: seq<LeaseId>, now: Time): Result<Option<Explanation>, ()>
    requires r < |s.runs|
    requires forall i :: i in rows <==> i in Blockers(s, r, Online(s, s.runs[r].spec, now), now)
  {
    var spec := s.runs[r].spec;
    var online := Online(s, spec, now);
    var blockers := Blockers(s, r, online, now);
    if s.runs[r].status.Recoverable? then Success(Some(Explanation(Recovering, None)))
    else if !s.runs[r].status.Queued? then Success(None)
    else if Addressed(s, spec) == {} then Success(Some(Explanation(DeviceUnavailable, None)))
    else if Compatible(s, spec) == {} then Success(Some(Explanation(CapabilityMismatch, None)))
    else if online == {} then Success(Some(Explanation(DeviceOffline, None)))
    else if |rows| > 0 && forall d :: d in online ==> Saturated(s, blockers, d) then
      match FirstComputing(s, rows)
      case None => Failure(())
      case Some(i) => Success(Some(Explanation(DeviceBusy, Some(s.leases[i].grant.run))))
    else
      Success(ClashReason(s, FirstClashing(s, spec, rows)))
  }

  /** The blocker lookup never fails: a saturated device has a computing Run. */
  lemma LookupNeverFails(s: Server, r: RunId, rows: seq<LeaseId>, now: Time)
    requires r < |s.runs|
    requires forall i :: i in rows <==> i in Blockers(s, r, Online(s, s.runs[r].spec, now), now)
    ensures Explain(s, r, rows, now).Success?
  {
    var online := Online(s, s.runs[r].spec, now);
    var blockers := Blockers(s, r, online, now);
    if online != {} && forall d :: d in online ==> Saturated(s, blockers, d) {
      var d :| d in online;
      assert Saturated(s, blockers, d);
      assert ComputingOn(s, blockers, d) != {};
      var i :| i in ComputingOn(s, blockers, d);
      assert i in rows;
    }
  }

  // ------------------------------------------------------------ in plain words

  /** An active device of the owner that the Run may be sent to. */
  predicate Serves(s: Server, spec: RunSpec, d: DeviceId) {
    d in s.devices && s.devices[d].owner == spec.owner && s.devices[d].status == DeviceActive && spec.target in {None, Some(d)}
  }

  predicate Able(s: Server, spec: RunSpec, d: DeviceId) { Serves(s, spec, d) && spec.required <= s.devices[d].caps.names }

  /** Seen in the last ninety seconds. */
  predicate Seen(s: Server, spec: RunSpec, d: DeviceId, now: Time) { Able(s, spec, d) && s.devices[d].lastSeen >= now - 90 }

  /** The device's live leases on Runs that compute, other than this one. */
  function Busy(s: Server, r: RunId, d: DeviceId, now: Time): set<LeaseId> {
    set i: LeaseId | i < |s.leases| && s.leases[i].status == Active && s.leases[i].expiresAt > now && s.leases[i].grant.device == d
                     && s.leases[i].grant.run != r && s.leases[i].grant.run < |s.runs|
                     && s.runs[s.leases[i].grant.run].status in {Leased, Running}
  }

  predicate Full(s: Server, r: RunId, d: DeviceId, now: Time) {
    d in s.devices && |Busy(s, r, d, now)| >= Within(s.devices[d].caps.maxParallel, 1, 1, 8)
  }

  /** The listed lease is on a Run that would work in the same place, and one of the two may write. */
  predicate SameAndWrites(s: Server, spec: RunSpec, i: LeaseId) {
    i < |s.leases| && s.leases[i].grant.run < |s.runs| && Together(spec, s.runs[s.leases[i].grant.run].spec)
    && !(OnlyReads(spec) && OnlyReads(s.runs[s.leases[i].grant.run].spec))
  }

  /** The first listed lease with a property, if there is one. */
  ghost predicate FirstOf(rows: seq<LeaseId>, has: LeaseId -> bool, i: Option<LeaseId>) {
    if i.None? then forall k :: 0 <= k < |rows| ==> !has(rows[k])
    else exists k :: 0 <= k < |rows| && rows[k] == i.value && has(rows[k]) && forall j :: 0 <= j < k ==> !has(rows[j])
  }

  lemma {:induction false} FirstClashingIsFirst(s: Server, spec: RunSpec, rows: seq<LeaseId>)
    ensures FirstOf(rows, (i: LeaseId) => SameAndWrites(s, spec, i), FirstClashing(s, spec, rows))
  {
    if |rows| > 0 {
      if rows[0] < |s.leases| && s.leases[rows[0]].grant.run < |s.runs| { ClashExactly(spec, s.runs[s.leases[rows[0]].grant.run].spec); }
      assert Clashes(s, spec, rows[0]) <==> SameAndWrites(s, spec, rows[0]);
      FirstClashingIsFirst(s, spec, rows[1..]);
      if !Clashes(s, spec, rows[0]) {
        var i := FirstClashing(s, spec, rows[1..]);
        if i.None? {
          forall k | 0 <= k < |rows| ensures !SameAndWrites(s, spec, rows[k]) { if k > 0 { assert rows[k] == rows[1..][k - 1]; } }
        } else {
          var k :| 0 <= k < |rows[1..]| && rows[1..][k] == i.value && SameAndWrites(s, spec, rows[1..][k])
                   && forall j :: 0 <= j < k ==> !SameAndWrites(s, spec, rows[1..][j]);
          forall j | 0 <= j < k + 1 ensures !SameAndWrites(s, spec, rows[j]) { if j > 0 { assert rows[j] == rows[1..][j - 1]; } }
          assert rows[k + 1] == i.value;
        }
      }
    }
  }

  lemma FullExactly(s: Server, r: RunId, online: set<DeviceId>, d: DeviceId, now: Time)
    requires d in online
    ensures Saturated(s, Blockers(s, r, online, now), d) <==> Full(s, r, d, now)
  {
    assert ComputingOn(s, Blockers(s, r, online, now), d) == Busy(s, r, d, now);
    if d in s.devices { CapacitiesAreDeclared(s.devices[d].caps); }
  }

  lemma DevicesExactly(s: Server, spec: RunSpec, now: Time)
    ensures Addressed(s, spec) == {} <==> forall d :: d in s.devices ==> !Serves(s, spec, d)
    ensures Compatible(s, spec) == {} <==> forall d :: d in s.devices ==> !Able(s, spec, d)
    ensures Online(s, spec, now) == {} <==> forall d :: d in s.devices ==> !Seen(s, spec, d, now)
    ensures forall d :: d in Online(s, spec, now) <==> Seen(s, spec, d, now)
  {
    forall d ensures d in Addressed(s, spec) <==> Serves(s, spec, d) {}
    forall d ensures d in Compatible(s, spec) <==> Able(s, spec, d) {}
    forall d ensures d in Online(s, spec, now) <==> Seen(s, spec, d, now) {}
  }

  ghost predicate AllFull(s: Server, r: RunId, now: Time)
    requires r < |s.runs|
  {
    forall d :: d in s.devices && Seen(s, s.runs[r].spec, d, now) ==> Full(s, r, d, now)
  }

  lemma AllFullExactly(s: Server, r: RunId, rows: seq<LeaseId>, now: Time)
    requires r < |s.runs| && forall i :: i in rows <==> i in Blockers(s, r, Online(s, s.runs[r].spec, now), now)
    requires Online(s, s.runs[r].spec, now) != {}
    ensures var online := Online(s, s.runs[r].spec, now);
      (|rows| > 0 && forall d :: d in online ==> Saturated(s, Blockers(s, r, online, now), d)) <==> AllFull(s, r, now)
  {
    var online := Online(s, s.runs[r].spec, now);
    DevicesExactly(s, s.runs[r].spec, now);
    forall d | d in online ensures Saturated(s, Blockers(s, r, online, now), d) <==> Full(s, r, d, now) { FullExactly(s, r, online, d, now); }
    if AllFull(s, r, now) { RowsWhenFull(s, r, rows, online, now); }
  }

  /** What is said of the first listed lease that clashes, if any does. */
  ghost predicate ClashTold(s: Server, spec: RunSpec, rows: seq<LeaseId>, why: Option<Explanation>) {
    exists i: Option<LeaseId> :: FirstOf(rows, (l: LeaseId) => SameAndWrites(s, spec, l), i) && ClashTells(s, i, why)
  }

  ghost predicate ClashTells(s: Server, i: Option<LeaseId>, why: Option<Explanation>) {
    if i.None? then why == Some(Explanation(AwaitingClaim, None))
    else
      i.value < |s.leases| && s.leases[i.value].grant.run < |s.runs|
      && why == Some(Explanation(if s.runs[s.leases[i.value].grant.run].status == WaitingUser then WaitingConfirmation
                                 else ResourceLockWait, Some(s.leases[i.value].grant.run)))
  }

  /** The reason shown for a Run, and when. */
  lemma ExplainExactly(s: Server, r: RunId, rows: seq<LeaseId>, now: Time)
    requires r < |s.runs| && forall i :: i in rows <==> i in Blockers(s, r, Online(s, s.runs[r].spec, now), now)
    ensures Explain(s, r, rows, now).Success?
    ensures var spec, why := s.runs[r].spec, Explain(s, r, rows, now).value;
      if s.runs[r].status == Recoverable then why == Some(Explanation(Recovering, None))
      else if s.runs[r].status != Queued then why == None
      else if forall d :: d in s.devices ==> !Serves(s, spec, d) then why == Some(Explanation(DeviceUnavailable, None))
      else if forall d :: d in s.devices ==> !Able(s, spec, d) then why == Some(Explanation(CapabilityMismatch, None))
      else if forall d :: d in s.devices ==> !Seen(s, spec, d, now) then why == Some(Explanation(DeviceOffline, None))
      else if AllFull(s, r, now) then why.Some? && why.value.reason == DeviceBusy && why.value.blocking.Some?
      else ClashTold(s, spec, rows, why)
  {
    var spec := s.runs[r].spec;
    LookupNeverFails(s, r, rows, now);
    DevicesExactly(s, spec, now);
    if Online(s, spec, now) != {} { AllFullExactly(s, r, rows, now); }
    FirstClashingIsFirst(s, spec, rows);
    assert ClashTells(s, FirstClashing(s, spec, rows), ClashReason(s, FirstClashing(s, spec, rows)));
  }

  /** If every online device is full, some lease is listed. */
  lemma RowsWhenFull(s: Server, r: RunId, rows: seq<LeaseId>, online: set<DeviceId>, now: Time)
    requires forall i :: i in rows <==> i in Blockers(s, r, online, now)
    requires forall d :: d in online ==> Full(s, r, d, now)
    ensures online != {} ==> |rows| > 0
  {
    if online != {} {
      var d :| d in online;
      FullExactly(s, r, online, d, now);
      assert Busy(s, r, d, now) != {};
      var i :| i in Busy(s, r, d, now);
      assert i in rows;
    }
  }

  // -------------------------------------------------------------- soundness

  /** A sweep leaves a live lease and its Run alone. */
  lemma {:induction false} SweepSparesLive(s: Server, i: nat, owner: OwnerId, now: Time, l: LeaseId)
    requires Ledger.Valid(s) && Tethered(s, now) && l < |s.leases| && Live(s.leases[l], now)
    ensures var t := DropFrom(s, i, ExpiredOf(owner, now), now);
      l < |t.leases| && t.leases[l] == s.leases[l]
      && s.leases[l].grant.run < |t.runs| && s.leases[l].grant.run < |s.runs|
      && t.runs[s.leases[l].grant.run] == s.runs[s.leases[l].grant.run]
    decreases |s.leases| - i
  {
    assert HolderAgrees(s.runs, s.leases[l], now);
    var doomed := ExpiredOf(owner, now);
    if i < |s.leases| {
      if doomed.Hits(s.leases[i]) {
        var t := DropLease(s, i, Expired, now);
        DropSparesLive(s, i, now, l);
        DropKeepsTethered(s, i, Expired, now);
        Ledger.DropIsQuiet(s, i, Expired, now);
        Ledger.QuietKeepsValid(s, t);
        SweepSparesLive(t, i + 1, owner, now, l);
      } else {
        SweepSparesLive(s, i + 1, owner, now, l);
      }
    }
  }

  lemma DropSparesLive(s: Server, i: LeaseId, now: Time, l: LeaseId)
    requires Ledger.Valid(s) && Tethered(s, now) && l < |s.leases| && Live(s.leases[l], now)
    requires i < |s.leases| && s.leases[i].status.Active? && !Live(s.leases[i], now)
    ensures var t := DropLease(s, i, Expired, now);
      |t.leases| == |s.leases| && t.leases[l] == s.leases[l] && |t.runs| == |s.runs| && s.leases[l].grant.run < |s.runs|
      && t.runs[s.leases[l].grant.run] == s.runs[s.leases[l].grant.run]
  {
    assert HolderAgrees(s.runs, s.leases[l], now);
    assert s.leases[i].grant.run != s.leases[l].grant.run by {
      if s.leases[i].grant.run == s.leases[l].grant.run { OneActiveLease(s, now, s.leases[l].grant.run, i, l); }
    }
  }

  /** The principal a device would claim with right now. */
  function PrincipalOf(s: Server, d: DeviceId): Principal
    requires d in s.devices
  {
    Principal(d, s.devices[d].owner, s.devices[d].caps)
  }

  /** A device saturated by blockers finds its parallel capacity used up. */
  lemma SaturatedIsFull(s: Server, r: RunId, online: set<DeviceId>, d: DeviceId, now: Time)
    requires Ledger.Valid(s) && Tethered(s, now) && DevicesOwn(s)
    requires d in s.devices && Saturated(s, Blockers(s, r, online, now), d)
    ensures var p := PrincipalOf(s, d);
      |ComputingLeases(ExpireLeases(s, p.owner, now), p, now)| >= ParallelCapacity(p.caps)
  {
    var p := PrincipalOf(s, d);
    var t := ExpireLeases(s, p.owner, now);
    var busy := ComputingOn(s, Blockers(s, r, online, now), d);
    forall i | i in busy ensures i in ComputingLeases(t, p, now) {
      SweepSparesLive(s, 0, p.owner, now, i);
      assert s.devices[s.leases[i].grant.device].owner == s.leases[i].grant.owner;
    }
    SubsetSize(busy, ComputingLeases(t, p, now));
  }

  lemma ClashStaysInTheWay(s: Server, owner: OwnerId, spec: RunSpec, i: LeaseId, now: Time)
    requires Ledger.Valid(s) && Tethered(s, now) && i < |s.leases| && Occupies(s, s.leases[i], spec, now)
    ensures ScopeConflicts(ExpireLeases(s, owner, now), spec, now)
  {
    SweepSparesLive(s, 0, owner, now, i);
    assert Occupies(ExpireLeases(s, owner, now), ExpireLeases(s, owner, now).leases[i], spec, now);
  }

  /** A blocker in the same workspace keeps any device of the owner from claiming. */
  lemma ClashMeansUnclaimable(s: Server, r: RunId, devices: set<DeviceId>, i: LeaseId, now: Time, p: Principal)
    requires Ledger.Valid(s) && Tethered(s, now) && DevicesOwn(s) && r < |s.runs|
    requires forall d :: d in devices ==> d in s.devices && s.devices[d].owner == s.runs[r].spec.owner
    requires i in Blockers(s, r, devices, now) && Clashes(s, s.runs[r].spec, i)
    ensures SelectRun(ExpireLeases(s, s.runs[r].spec.owner, now), p, now) != Some(r)
  {
    assert s.devices[s.leases[i].grant.device].owner == s.leases[i].grant.owner;
    ClashStaysInTheWay(s, s.runs[r].spec.owner, s.runs[r].spec, i, now);
    Ledger.DropFromIsQuiet(s, 0, ExpiredOf(s.runs[r].spec.owner, now), now);
  }

  /** When a blocking Run is named, no online device that was considered can claim
      this Run at that instant. */
  lemma BlockedMeansUnclaimable(s: Server, r: RunId, rows: seq<LeaseId>, now: Time, d: DeviceId)
    requires Ledger.Valid(s) && Tethered(s, now) && DevicesOwn(s) && r < |s.runs|
    requires forall i :: i in rows <==> i in Blockers(s, r, Online(s, s.runs[r].spec, now), now)
    requires Explain(s, r, rows, now).Success? && Explain(s, r, rows, now).value.Some?
    requires Explain(s, r, rows, now).value.value.blocking.Some?
    requires d in Online(s, s.runs[r].spec, now)
    ensures SelectRun(ExpireLeases(s, s.runs[r].spec.owner, now), PrincipalOf(s, d), now) != Some(r)
  {
    var spec := s.runs[r].spec;
    var online := Online(s, spec, now);
    if |rows| > 0 && forall q :: q in online ==> Saturated(s, Blockers(s, r, online, now), q) {
      SaturatedIsFull(s, r, online, d, now);
    } else {
      ClashMeansUnclaimable(s, r, online, FirstClashing(s, spec, rows).value, now, PrincipalOf(s, d));
    }
  }

  /** In terms of the claim itself: it returns nothing, or a lease on another Run. */
  lemma BlockedRunIsNotLeased(s: Server, r: RunId, rows: seq<LeaseId>, now: Time, d: DeviceId, seconds: int)
    requires Ledger.Valid(s) && Tethered(s, now) && DevicesOwn(s) && r < |s.runs|
    requires forall i :: i in rows <==> i in Blockers(s, r, Online(s, s.runs[r].spec, now), now)
    requires Explain(s, r, rows, now).Success? && Explain(s, r, rows, now).value.Some?
    requires Explain(s, r, rows, now).value.value.blocking.Some?
    requires d in Online(s, s.runs[r].spec, now)
    ensures var (t, i) := LeaseRun(s, PrincipalOf(s, d), seconds, now);
      i.Some? ==> i.value < |t.leases| && t.leases[i.value].grant.run != r
  {
    BlockedMeansUnclaimable(s, r, rows, now, d);
  }
}
