/**
  Admission happens once, at the grant; these are the facts it buys for the
  whole life of a lease: bounded residency, and exclusive use of a workspace.
*/
module Admission {
  import opened Wrappers
  import opened RunTypes
  import opened TerminalOutput
  import opened RunProtocol
  import Ledger
  import opened Tether

  /** A principal speaks for a device its account owns. */
  predicate Authentic(s: Server, p: Principal) {
    p.device in s.devices && s.devices[p.device].owner == p.owner
  }

  predicate Authenticated(s: Server, tx: Transaction) {
    match tx
    case Claim(who, _) => Authentic(s, who)
    case Renew(who, _, _, _, _) => Authentic(s, who)
    case Submit(who, _, _, _, _) => Authentic(s, who)
    case _ => true
  }

  ghost predicate DevicesOwn(s: Server) {
    forall i :: 0 <= i < |s.leases| ==>
      s.leases[i].grant.device in s.devices && s.devices[s.leases[i].grant.device].owner == s.leases[i].grant.owner
  }

  function LiveOn(leases: seq<Lease>, d: DeviceId, now: Time): set<LeaseId> {
    set i: LeaseId | i < |leases| && Live(leases[i], now) && leases[i].grant.device == d
  }

  /** Two live leases of one account never share a workspace unless both only read. */
  ghost predicate Exclusive(s: Server, now: Time) {
    forall i, j :: 0 <= i < j < |s.leases| ==> !Conflict(s, s.leases[i], s.leases[j], now)
  }

  predicate Conflict(s: Server, a: Lease, b: Lease, now: Time) {
    Live(a, now) && Live(b, now) && a.grant.owner == b.grant.owner
    && a.grant.run < |s.runs| && b.grant.run < |s.runs| && Clash(s.runs[a.grant.run].spec, s.runs[b.grant.run].spec)
  }

  // ------------------------------------------------------- no lease revives

  /** Every live lease of t was live in s. */
  ghost predicate NoneRevived(a: seq<Lease>, b: seq<Lease>, now: Time) {
    |a| == |b| && forall i :: 0 <= i < |a| ==> a[i].grant == b[i].grant && (Live(b[i], now) ==> Live(a[i], now))
  }

  lemma {:induction false} DropFromRevivesNone(s: Server, i: nat, doomed: Doomed, now: Time)
    ensures NoneRevived(s.leases, DropFrom(s, i, doomed, now).leases, now)
    decreases |s.leases| - i
  {
    if i < |s.leases| {
      var t := if doomed.Hits(s.leases[i]) then DropLease(s, i, doomed.Outcome(), now) else s;
      RecoverKeepsLeases(s.(leases := s.leases[i := s.leases[i].(status := doomed.Outcome())]), s.leases[i].grant.run, now);
      assert NoneRevived(s.leases, t.leases, now);
      DropFromRevivesNone(t, i + 1, doomed, now);
    }
  }

  lemma RecoverKeepsLeases(s: Server, r: RunId, now: Time)
    ensures RecoverRun(s, r, now).leases == s.leases
  {}

  lemma {:induction false} SubmitAllRevivesNone(c: Cursor, i: LeaseId, lease: Lease, ms: seq<EventMessage>, now: Time)
    requires i < |c.srv.leases| && lease.grant.run < |c.srv.runs| && SubmitAll(c, i, lease, ms, now).Success?
    ensures NoneRevived(c.srv.leases, SubmitAll(c, i, lease, ms, now).value.srv.leases, now)
    decreases |ms|
  {
    if |ms| > 0 {
      var next := SubmitOne(c, i, lease, ms[0], now).value;
      assert NoneRevived(c.srv.leases, next.srv.leases, now);
      SubmitAllRevivesNone(next, i, lease, ms[1..], now);
    }
  }

  lemma SubmitRevivesNone(s: Server, p: Principal, r: RunId, i: LeaseId, epoch: nat, ms: seq<EventMessage>, now: Time)
    ensures NoneRevived(s.leases, SubmitEvents(s, p, r, i, epoch, ms, now).0.leases, now)
  {
    match CurrentLease(s, p, r, i, epoch)
    case None =>
    case Some(lease) =>
      var c := Cursor(s, lease.ack, lease.terminal);
      if SubmitAll(c, i, lease, ms, now).Success? { SubmitAllRevivesNone(c, i, lease, ms, now); }
  }

  lemma PerformRevivesNone(s: Server, tx: Transaction, now: Time)
    requires !tx.Claim?
    ensures NoneRevived(s.leases, Perform(s, tx, now).leases, now)
  {
    match tx
    case Submit(who, r, i, epoch, events) => SubmitRevivesNone(s, who, r, i, epoch, events, now);
    case Revoke(device, owner) =>
      if device in s.devices && s.devices[device].owner == owner {
        DropFromRevivesNone(s.(devices := s.devices[device := s.devices[device].(status := DeviceRevoked)]),
                            0, HeldBy(device), now);
      }
    case _ =>
  }

  // --------------------------------------------------------------- capacity

  lemma SubsetSize(a: set<LeaseId>, b: set<LeaseId>)
    requires a <= b
    ensures |a| <= |b|
  {
    assert a + (b - a) == b;
  }

  lemma ShrunkenCapacity(a: seq<Lease>, b: seq<Lease>, d: DeviceId, earlier: Time, now: Time)
    requires NoneRevived(a, b, now) && earlier <= now
    ensures |LiveOn(b, d, now)| <= |LiveOn(a, d, earlier)|
  {
    forall i | i in LiveOn(b, d, now) ensures i in LiveOn(a, d, earlier) {
      assert Live(a[i], now);
    }
    SubsetSize(LiveOn(b, d, now), LiveOn(a, d, earlier));
  }

  /** The resident query counts every live lease of the device. */
  lemma ResidentCountsAll(s: Server, p: Principal, now: Time)
    requires Tethered(s, now) && DevicesOwn(s) && Authentic(s, p)
    ensures ResidentLeases(s, p, now) == LiveOn(s.leases, p.device, now)
  {}

  lemma GrantAddsOne(s: Server, p: Principal, r: RunId, seconds: int, now: Time, d: DeviceId)
    requires r < |s.runs|
    ensures var t := GrantLease(s, p, r, seconds, now);
      |LiveOn(t.leases, d, now)| == |LiveOn(s.leases, d, now)| + if d == p.device then 1 else 0
  {
    var t := GrantLease(s, p, r, seconds, now);
    if d == p.device {
      assert LiveOn(t.leases, d, now) == LiveOn(s.leases, d, now) + {|s.leases|};
    } else {
      assert LiveOn(t.leases, d, now) == LiveOn(s.leases, d, now);
    }
  }

  lemma SweptIsSound(s: Server, p: Principal, now: Time)
    requires Ledger.Valid(s) && Tethered(s, now) && DevicesOwn(s) && Authentic(s, p)
    ensures var t := ExpireLeases(s, p.owner, now);
      Ledger.Valid(t) && Tethered(t, now) && DevicesOwn(t) && Authentic(t, p) && NoneRevived(s.leases, t.leases, now)
  {
    var doomed := ExpiredOf(p.owner, now);
    var t := ExpireLeases(s, p.owner, now);
    DropFromKeepsTethered(s, 0, doomed, now);
    Ledger.DropFromIsQuiet(s, 0, doomed, now);
    Ledger.QuietKeepsValid(s, t);
    DropFromRevivesNone(s, 0, doomed, now);
    forall i | 0 <= i < |t.leases|
      ensures t.leases[i].grant.device in t.devices && t.devices[t.leases[i].grant.device].owner == t.leases[i].grant.owner
    {
      assert s.leases[i].grant == t.leases[i].grant && s.leases[i].grant.device in s.devices;
    }
  }

  /** A device that always reports at most `cap` residents never holds more live leases. */
  lemma PerformKeepsCapacity(s: Server, tx: Transaction, earlier: Time, now: Time, d: DeviceId, cap: nat)
    requires Ledger.Valid(s) && Tethered(s, earlier) && DevicesOwn(s) && earlier <= now && Authenticated(s, tx)
    requires |LiveOn(s.leases, d, earlier)| <= cap
    requires tx.Claim? && tx.who.device == d ==> ResidentCapacity(tx.who.caps) <= cap
    ensures |LiveOn(Perform(s, tx, now).leases, d, now)| <= cap
  {
    if tx.Claim? {
      var p, swept := tx.who, ExpireLeases(s, tx.who.owner, now);
      TetheredLater(s, earlier, now);
      SweptIsSound(s, p, now);
      ShrunkenCapacity(s.leases, swept.leases, d, earlier, now);
      ResidentCountsAll(swept, p, now);
      match SelectRun(swept, p, now)
      case None =>
      case Some(r) => GrantAddsOne(swept, p, r, tx.seconds, now, d);
    } else {
      PerformRevivesNone(s, tx, now);
      ShrunkenCapacity(s.leases, Perform(s, tx, now).leases, d, earlier, now);
    }
  }

  // -------------------------------------------------------------- exclusion

  lemma ShrunkenExclusion(s: Server, t: Server, earlier: Time, now: Time)
    requires Exclusive(s, earlier) && earlier <= now && NoneRevived(s.leases, t.leases, now)
    requires Ledger.LeasesLinked(s.runs, s.leases) && Ledger.Extends(s, t)
    ensures Exclusive(t, now)
  {}

  lemma GrantKeepsExclusive(s: Server, p: Principal, r: RunId, seconds: int, now: Time)
    requires Exclusive(s, now) && Tethered(s, now) && Ledger.LeasesLinked(s.runs, s.leases)
    requires r < |s.runs| && s.runs[r].spec.owner == p.owner && !ScopeConflicts(s, s.runs[r].spec, now)
    ensures Exclusive(GrantLease(s, p, r, seconds, now), now)
  {}

  lemma PerformKeepsExclusive(s: Server, tx: Transaction, earlier: Time, now: Time)
    requires Ledger.Valid(s) && Tethered(s, earlier) && DevicesOwn(s) && earlier <= now && Authenticated(s, tx)
    requires Exclusive(s, earlier)
    ensures Exclusive(Perform(s, tx, now), now)
  {
    Ledger.PerformKeepsValid(s, tx, now);
    if tx.Claim? {
      var p, swept := tx.who, ExpireLeases(s, tx.who.owner, now);
      TetheredLater(s, earlier, now);
      SweptIsSound(s, p, now);
      Ledger.DropFromIsQuiet(s, 0, ExpiredOf(p.owner, now), now);
      Ledger.QuietExtends(s, swept);
      ShrunkenExclusion(s, swept, earlier, now);
      match SelectRun(swept, p, now)
      case None =>
      case Some(r) => GrantKeepsExclusive(swept, p, r, tx.seconds, now);
    } else {
      PerformRevivesNone(s, tx, now);
      ShrunkenExclusion(s, Perform(s, tx, now), earlier, now);
    }
  }

  lemma PerformKeepsDevicesOwn(s: Server, tx: Transaction, now: Time)
    requires Ledger.Valid(s) && DevicesOwn(s) && Authenticated(s, tx)
    ensures DevicesOwn(Perform(s, tx, now))
  {
    var t := Perform(s, tx, now);
    Ledger.PerformKeepsValid(s, tx, now);
    if tx.Claim? {
      Ledger.DropFromIsQuiet(s, 0, ExpiredOf(tx.who.owner, now), now);
    } else {
      PerformRevivesNone(s, tx, now);
    }
    forall i | 0 <= i < |t.leases|
      ensures t.leases[i].grant.device in t.devices && t.devices[t.leases[i].grant.device].owner == t.leases[i].grant.owner
    {
      if i < |s.leases| {
        assert Ledger.LeaseKept(s.leases[i], t.leases[i]) && s.leases[i].grant.device in s.devices;
      }
    }
  }
}
