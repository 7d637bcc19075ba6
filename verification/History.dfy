/**
  Whole histories: any finite interleaving of transactions from empty tables.
*/
module History {
  import opened Wrappers
  import opened RunTypes
  import opened EventLog
  import opened TerminalOutput
  import opened RunProtocol
  import Ledger
  import opened Tether
  import opened Coupling
  import opened Outcomes
  import opened Verdict
  import opened Admission

  datatype Timed = Timed(tx: Transaction, at: Time)

  function Initial(automations: map<AutomationId, Automation>): Server {
    Server(map[], [], [], [], [], [], automations, [])
  }

  function Replay(s: Server, h: seq<Timed>): Server {
    if |h| == 0 then s
    else Perform(Replay(s, h[..|h| - 1]), h[|h| - 1].tx, h[|h| - 1].at)
  }

  lemma {:induction false} ReplayConcat(s: Server, a: seq<Timed>, b: seq<Timed>)
    ensures Replay(s, a + b) == Replay(Replay(s, a), b)
  {
    if |b| == 0 {
      assert a + b == a;
    } else {
      assert (a + b)[..|a + b| - 1] == a + b[..|b| - 1];
      ReplayConcat(s, a, b[..|b| - 1]);
    }
  }

  // ------------------------------------------------ with no hypothesis at all

  /** Whatever devices send, the ledger stays valid and nothing committed is taken back. */
  lemma {:induction false} LedgerAlways(s: Server, h: seq<Timed>)
    requires Ledger.Valid(s)
    ensures Ledger.Valid(Replay(s, h)) && Ledger.Extends(s, Replay(s, h))
  {
    if |h| == 0 {
      Ledger.ExtendsSelf(s);
    } else {
      var mid := Replay(s, h[..|h| - 1]);
      LedgerAlways(s, h[..|h| - 1]);
      Ledger.PerformKeepsValid(mid, h[|h| - 1].tx, h[|h| - 1].at);
      Ledger.ExtendsTransitive(s, mid, Replay(s, h));
    }
  }

  // ------------------------------------------------------------------ fencing

  /** New rows carry their Run's current epoch; leases of earlier epochs do not move. */
  ghost predicate Fenced(s: Server, t: Server) {
    && s.events <= t.events && |s.leases| <= |t.leases|
    && (forall j :: |s.events| <= j < |t.events| ==> RowCurrent(s, t.events[j]))
    && (forall i :: 0 <= i < |s.leases| ==> LeaseFrozen(s, s.leases[i], t.leases[i]))
  }

  /** The row belongs to an epoch the Run had reached, or passed, in state s. */
  ghost predicate RowCurrent(s: Server, e: Record) {
    e.env.run < |s.runs| ==> e.env.epoch >= s.runs[e.env.run].leaseEpoch
  }

  ghost predicate LeaseFrozen(s: Server, a: Lease, b: Lease) {
    a.grant == b.grant
    && (a.grant.run < |s.runs| && a.grant.epoch < s.runs[a.grant.run].leaseEpoch ==>
          b.expiresAt == a.expiresAt && b.ack == a.ack)
  }

  lemma FencedTransitive(s: Server, t: Server, u: Server)
    requires Ledger.Extends(s, t) && Fenced(s, t) && Fenced(t, u)
    ensures Fenced(s, u)
  {}

  /** A sweep changes no expiry and no high water. */
  lemma {:induction false} DropFromFreezes(s: Server, i: nat, doomed: Doomed, now: Time)
    ensures var t := DropFrom(s, i, doomed, now);
      |t.leases| == |s.leases| && t.events == s.events
      && forall k :: 0 <= k < |s.leases| ==> t.leases[k] == s.leases[k].(status := t.leases[k].status)
    decreases |s.leases| - i
  {
    if i < |s.leases| {
      var t := if doomed.Hits(s.leases[i]) then DropLease(s, i, doomed.Outcome(), now) else s;
      Ledger.RecoverIsQuiet(s.(leases := s.leases[i := s.leases[i].(status := doomed.Outcome())]), s.leases[i].grant.run, now);
      RecoverKeepsLeases(s.(leases := s.leases[i := s.leases[i].(status := doomed.Outcome())]), s.leases[i].grant.run, now);
      DropFromFreezes(t, i + 1, doomed, now);
    }
  }

  predicate SameButStatus(a: Lease, b: Lease) {
    a.grant == b.grant && a.ack == b.ack && a.expiresAt == b.expiresAt
  }

  /** A submission appends rows of its own lease and touches no other lease. */
  lemma {:induction false} SubmitAllStaysInLease(c: Cursor, i: LeaseId, lease: Lease, ms: seq<EventMessage>, now: Time)
    requires i < |c.srv.leases| && lease.grant.run < |c.srv.runs| && c.srv.leases[i].grant == lease.grant
    requires SubmitAll(c, i, lease, ms, now).Success?
    ensures var t := SubmitAll(c, i, lease, ms, now).value.srv;
      c.srv.events <= t.events && |t.leases| == |c.srv.leases|
      && (forall j :: |c.srv.events| <= j < |t.events| ==> InEpoch(t.events[j], lease.grant.run, lease.grant.epoch))
      && forall k :: 0 <= k < |t.leases| ==> SameButStatus(c.srv.leases[k], t.leases[k])
    decreases |ms|
  {
    if |ms| > 0 {
      var next := SubmitOne(c, i, lease, ms[0], now).value;
      SubmitAllStaysInLease(next, i, lease, ms[1..], now);
    }
  }

  lemma SubmitFences(s: Server, p: Principal, r: RunId, i: LeaseId, epoch: nat, ms: seq<EventMessage>, now: Time)
    ensures Fenced(s, SubmitEvents(s, p, r, i, epoch, ms, now).0)
  {
    match CurrentLease(s, p, r, i, epoch)
    case None =>
    case Some(lease) =>
      var c := Cursor(s, lease.ack, lease.terminal);
      if SubmitAll(c, i, lease, ms, now).Success? {
        SubmitAllStaysInLease(c, i, lease, ms, now);
      }
  }

  lemma ClaimFences(s: Server, p: Principal, seconds: int, now: Time)
    ensures Fenced(s, LeaseRun(s, p, seconds, now).0)
  {
    DropFromFreezes(s, 0, ExpiredOf(p.owner, now), now);
  }

  lemma RevokeFences(s: Server, owner: OwnerId, device: DeviceId, now: Time)
    ensures Fenced(s, RevokeDevice(s, owner, device, now))
  {
    if device in s.devices && s.devices[device].owner == owner {
      DropFromFreezes(s.(devices := s.devices[device := s.devices[device].(status := DeviceRevoked)]), 0, HeldBy(device), now);
    }
  }

  lemma SmallStepsFence(s: Server, tx: Transaction, now: Time)
    requires !tx.Claim? && !tx.Submit? && !tx.Revoke? && !tx.Renew? && !tx.Resume?
    ensures Fenced(s, Perform(s, tx, now))
  {}

  lemma RowsFence(s: Server, tx: Transaction, now: Time)
    requires tx.Renew? || tx.Resume?
    ensures Fenced(s, Perform(s, tx, now))
  {}

  lemma PerformFences(s: Server, tx: Transaction, now: Time)
    ensures Fenced(s, Perform(s, tx, now))
  {
    match tx
    case Submit(who, r, i, epoch, events) => SubmitFences(s, who, r, i, epoch, events, now);
    case Claim(who, seconds) => ClaimFences(s, who, seconds, now);
    case Revoke(device, owner) => RevokeFences(s, owner, device, now);
    case Renew(_, _, _, _, _) => RowsFence(s, tx, now);
    case Resume(_, _) => RowsFence(s, tx, now);
    case _ => SmallStepsFence(s, tx, now);
  }

  /** Once epoch e + 1 is granted, no event and no renewal of epoch e or earlier ever commits again. */
  lemma {:induction false} FencedForever(s: Server, h: seq<Timed>)
    requires Ledger.Valid(s)
    ensures Fenced(s, Replay(s, h))
  {
    if |h| > 0 {
      var mid := Replay(s, h[..|h| - 1]);
      FencedForever(s, h[..|h| - 1]);
      LedgerAlways(s, h[..|h| - 1]);
      PerformFences(mid, h[|h| - 1].tx, h[|h| - 1].at);
      FencedTransitive(s, mid, Replay(s, h));
    }
  }

  // ------------------------------------------------------- a monotone clock

  function EndOf(h: seq<Timed>, from: Time): Time {
    if |h| == 0 then from else h[|h| - 1].at
  }

  /** The clock never goes back. */
  predicate Ticking(h: seq<Timed>, from: Time) {
    |h| > 0 ==> Ticking(h[..|h| - 1], from) && EndOf(h[..|h| - 1], from) <= h[|h| - 1].at
  }

  /** Whatever devices send: leases stay tied to their Runs, ended Runs stay as they ended,
      and each of them has an assistant message. */
  lemma {:induction false} TetheredAlways(s: Server, h: seq<Timed>, from: Time)
    requires Ledger.Valid(s) && Tethered(s, from) && Ticking(h, from)
    ensures Ledger.Valid(Replay(s, h)) && Tethered(Replay(s, h), EndOf(h, from)) && EndedKept(s, Replay(s, h))
  {
    LedgerAlways(s, h);
    if |h| > 0 {
      var mid, last := Replay(s, h[..|h| - 1]), h[|h| - 1];
      TetheredAlways(s, h[..|h| - 1], from);
      TetheredLater(mid, EndOf(h[..|h| - 1], from), last.at);
      PerformKeepsTethered(mid, last.tx, last.at);
      PerformKeepsEnded(mid, last.tx, last.at);
      EndedKeptTransitive(s, mid, Replay(s, h));
    }
  }

  lemma {:induction false} AnsweredAlways(s: Server, h: seq<Timed>)
    requires Ledger.Valid(s) && EndedAnswered(s.runs, s.messages)
    ensures EndedAnswered(Replay(s, h).runs, Replay(s, h).messages)
  {
    if |h| > 0 {
      LedgerAlways(s, h[..|h| - 1]);
      AnsweredAlways(s, h[..|h| - 1]);
      PerformKeepsAnswered(Replay(s, h[..|h| - 1]), h[|h| - 1].tx, h[|h| - 1].at);
    }
  }

  /** At most one lease of a Run is active, at any time. */
  lemma OneActiveLeaseAlways(automations: map<AutomationId, Automation>, h: seq<Timed>, from: Time, r: RunId, i: LeaseId, j: LeaseId)
    requires Ticking(h, from)
    ensures var s := Replay(Initial(automations), h);
      i < |s.leases| && j < |s.leases| && Held(s.leases[i], r) && Held(s.leases[j], r) ==> i == j
  {
    var s := Replay(Initial(automations), h);
    TetheredAlways(Initial(automations), h, from);
    if i < |s.leases| && j < |s.leases| && Held(s.leases[i], r) && Held(s.leases[j], r) {
      OneActiveLease(s, EndOf(h, from), r, i, j);
    }
  }

  // --------------------------------------------------- authentic principals

  /** Every claim, renewal and submission comes from a device of its account. */
  ghost predicate Genuine(s: Server, h: seq<Timed>) {
    |h| > 0 ==> Genuine(s, h[..|h| - 1]) && Authenticated(Replay(s, h[..|h| - 1]), h[|h| - 1].tx)
  }

  /** What holds between transactions, whatever batches devices send. */
  ghost predicate Safe(s: Server, now: Time) {
    Ledger.Valid(s) && Tethered(s, now) && DevicesOwn(s) && Exclusive(s, now)
  }

  lemma {:induction false} SafeAlways(s: Server, h: seq<Timed>, from: Time)
    requires Safe(s, from) && Ticking(h, from) && Genuine(s, h)
    ensures Safe(Replay(s, h), EndOf(h, from))
  {
    TetheredAlways(s, h, from);
    if |h| > 0 {
      var mid, last := Replay(s, h[..|h| - 1]), h[|h| - 1];
      SafeAlways(s, h[..|h| - 1], from);
      PerformKeepsDevicesOwn(mid, last.tx, last.at);
      PerformKeepsExclusive(mid, last.tx, EndOf(h[..|h| - 1], from), last.at);
    }
  }

  // ------------------------------------------------------- orderly histories

  /** Everything that holds between transactions of orderly histories. */
  ghost predicate Good(s: Server, now: Time) {
    Safe(s, now) && Attended(s.runs, s.leases) && Concluded(s)
  }

  /** Nobody but the schedulers uses their keys. */
  predicate Keyed(h: seq<Timed>) { forall k :: 0 <= k < |h| ==> KeyedByUser(h[k].tx) }

  /** Accepted batches are conclusive, and nobody posts an answer on a Run. */
  ghost predicate AllOrderly(s: Server, h: seq<Timed>) {
    |h| > 0 ==> AllOrderly(s, h[..|h| - 1]) && Orderly(Replay(s, h[..|h| - 1]), h[|h| - 1].tx, h[|h| - 1].at)
  }

  ghost predicate WellBehaved(s: Server, h: seq<Timed>, from: Time) {
    Ticking(h, from) && Genuine(s, h) && Keyed(h) && AllOrderly(s, h)
  }

  /** An orderly batch strands nothing. */
  lemma OrderlyDoesNotStrand(s: Server, tx: Transaction, now: Time)
    requires Orderly(s, tx, now)
    ensures !StrandsBy(s, tx, now)
  {}

  /** One transaction keeps every invariant exactly if it is orderly. */
  lemma PerformKeepsGood(s: Server, tx: Transaction, earlier: Time, now: Time)
    requires Good(s, earlier) && earlier <= now && KeyedByUser(tx) && Authenticated(s, tx)
    ensures Good(Perform(s, tx, now), now) <==> Orderly(s, tx, now)
  {
    TetheredLater(s, earlier, now);
    Ledger.PerformKeepsValid(s, tx, now);
    PerformKeepsTethered(s, tx, now);
    PerformKeepsDevicesOwn(s, tx, now);
    PerformKeepsExclusive(s, tx, earlier, now);
    PerformKeepsOutcomes(s, tx, now);
    PerformKeepsCoupled(s, tx, now);
    if Orderly(s, tx, now) { OrderlyDoesNotStrand(s, tx, now); }
  }

  /** Every invariant holds after every transaction of a history. */
  ghost predicate GoodThroughout(s: Server, h: seq<Timed>, from: Time) {
    Good(Replay(s, h), EndOf(h, from)) && (|h| > 0 ==> GoodThroughout(s, h[..|h| - 1], from))
  }

  /** All the way through a history every invariant holds, if and only if every
      transaction of it is orderly. */
  lemma {:induction false} GoodAlways(s: Server, h: seq<Timed>, from: Time)
    requires Good(s, from) && Ticking(h, from) && Genuine(s, h) && Keyed(h)
    ensures GoodThroughout(s, h, from) <==> AllOrderly(s, h)
  {
    if |h| > 0 {
      var init, last := h[..|h| - 1], h[|h| - 1];
      GoodAlways(s, init, from);
      if GoodThroughout(s, init, from) { PerformKeepsGood(Replay(s, init), last.tx, EndOf(init, from), last.at); }
    }
  }

  /** Every history from empty tables keeps every invariant. */
  lemma EveryHistoryIsGood(automations: map<AutomationId, Automation>, h: seq<Timed>, from: Time)
    requires WellBehaved(Initial(automations), h, from)
    ensures Good(Replay(Initial(automations), h), EndOf(h, from))
  {
    GoodAlways(Initial(automations), h, from);
  }

  // -------------------------------------------------------- bounded recovery

  function LeasesOf(leases: seq<Lease>, r: RunId): set<LeaseId> {
    set i: LeaseId | i < |leases| && leases[i].grant.run == r
  }

  /** The epochs 1..n. */
  function Epochs(n: nat): (es: set<nat>)
    ensures |es| == n && forall e: nat :: e in es <==> 1 <= e <= n
  {
    if n == 0 then {} else Epochs(n - 1) + {n}
  }

  /** A map without collisions does not enlarge a set. */
  lemma {:induction false} InjectionSize(leases: seq<Lease>, ids: set<LeaseId>, into: set<nat>)
    requires forall i :: i in ids ==> i < |leases| && leases[i].grant.epoch in into
    requires forall i, j :: i in ids && j in ids && i != j ==> leases[i].grant.epoch != leases[j].grant.epoch
    ensures |ids| <= |into|
    decreases ids
  {
    if ids != {} {
      var i :| i in ids;
      InjectionSize(leases, ids - {i}, into - {leases[i].grant.epoch});
    }
  }

  /** A Run is leased at most once per epoch. */
  lemma LeasedPerEpoch(s: Server, r: RunId)
    requires Ledger.Valid(s) && r < |s.runs|
    ensures |LeasesOf(s.leases, r)| <= s.runs[r].leaseEpoch
  {
    forall i | i in LeasesOf(s.leases, r) ensures s.leases[i].grant.epoch in Epochs(s.runs[r].leaseEpoch) {
      assert Ledger.LeaseLinked(s.runs, s.leases[i]);
    }
    forall i, j | i in LeasesOf(s.leases, r) && j in LeasesOf(s.leases, r) && i != j
      ensures s.leases[i].grant.epoch != s.leases[j].grant.epoch
    {}
    InjectionSize(s.leases, LeasesOf(s.leases, r), Epochs(s.runs[r].leaseEpoch));
  }

  /** Over any history, whatever devices send, a Run is leased at most max_recoveries + 1 times,
      at most once more than it was recovered, and recovered at most once per lease. */
  lemma BoundedRecovery(automations: map<AutomationId, Automation>, h: seq<Timed>, from: Time, r: RunId)
    requires Ticking(h, from) && r < |Replay(Initial(automations), h).runs|
    ensures var s := Replay(Initial(automations), h);
      |LeasesOf(s.leases, r)| <= s.runs[r].leaseEpoch
      && s.runs[r].leaseEpoch <= s.runs[r].recoveryCount + 1
      && s.runs[r].recoveryCount <= s.runs[r].leaseEpoch
      && s.runs[r].leaseEpoch <= s.runs[r].spec.maxRecoveries + 1
  {
    var s := Replay(Initial(automations), h);
    TetheredAlways(Initial(automations), h, from);
    LeasedPerEpoch(s, r);
    assert CountersAgree(s.runs[r]);
  }

  // ---------------------------------------------------------------- capacity

  /** Each claim by device d reports a resident capacity of at most cap. */
  predicate ClaimsWithin(h: seq<Timed>, d: DeviceId, cap: nat) {
    forall k :: 0 <= k < |h| && h[k].tx.Claim? && h[k].tx.who.device == d ==>
      ResidentCapacity(h[k].tx.who.caps) <= cap
  }

  lemma {:induction false} CapacityAlways(s: Server, h: seq<Timed>, from: Time, d: DeviceId, cap: nat)
    requires Safe(s, from) && Ticking(h, from) && Genuine(s, h) && ClaimsWithin(h, d, cap)
    requires |LiveOn(s.leases, d, from)| <= cap
    ensures |LiveOn(Replay(s, h).leases, d, EndOf(h, from))| <= cap
  {
    if |h| > 0 {
      var init := h[..|h| - 1];
      CapacityAlways(s, init, from, d, cap);
      SafeAlways(s, init, from);
      PerformKeepsCapacity(Replay(s, init), h[|h| - 1].tx, EndOf(init, from), h[|h| - 1].at, d, cap);
    }
  }

  /** However a device's capabilities change, it never holds more than 32 live leases. */
  lemma NeverMoreThan32(automations: map<AutomationId, Automation>, h: seq<Timed>, from: Time, d: DeviceId)
    requires Ticking(h, from) && Genuine(Initial(automations), h)
    ensures |LiveOn(Replay(Initial(automations), h).leases, d, EndOf(h, from))| <= 32
  {
    CapacityAlways(Initial(automations), h, from, d, 32);
  }
}
