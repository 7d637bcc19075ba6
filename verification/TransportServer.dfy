/**
  The Server's side of the transport: what other parties do, what a claim adds,
  and how a flush request lands whenever it arrives.
*/
module TransportServer {
  import opened Wrappers
  import opened RunTypes
  import opened EventLog
  import opened RunProtocol
  import opened LocalAgent
  import opened Transport
  import Ledger
  import History
  import Batches

  // --------------------------------------------------------------- elsewhere

  /** New rows carry ids that were in the batch. */
  lemma {:induction false} SubmitAllIds(c: Cursor, i: LeaseId, lease: Lease, ms: seq<EventMessage>, now: Time, d: DeviceId)
    requires i < |c.srv.leases| && lease.grant.run < |c.srv.runs| && SubmitAll(c, i, lease, ms, now).Success?
    requires forall k :: 0 <= k < |ms| ==> ms[k].id.drawnBy != d
    ensures var t := SubmitAll(c, i, lease, ms, now).value.srv;
      c.srv.events <= t.events && forall j :: |c.srv.events| <= j < |t.events| ==> t.events[j].id.drawnBy != d
    decreases |ms|
  {
    if |ms| > 0 {
      SubmitAllIds(SubmitOne(c, i, lease, ms[0], now).value, i, lease, ms[1..], now, d);
    }
  }

  lemma ForeignSubmit(s: Server, p: Principal, r: RunId, i: LeaseId, epoch: nat, ms: seq<EventMessage>, now: Time, d: DeviceId)
    requires p.device != d && forall k :: 0 <= k < |ms| ==> ms[k].id.drawnBy != d
    ensures ForeignStep(s, SubmitEvents(s, p, r, i, epoch, ms, now).0, d)
  {
    match CurrentLease(s, p, r, i, epoch)
    case None =>
    case Some(lease) =>
      var c := Cursor(s, lease.ack, lease.terminal);
      if SubmitAll(c, i, lease, ms, now).Success? {
        History.SubmitAllStaysInLease(c, i, lease, ms, now);
        SubmitAllIds(c, i, lease, ms, now, d);
      }
  }

  lemma ClaimIsForeignStep(s: Server, p: Principal, seconds: int, now: Time, d: DeviceId)
    ensures ForeignStep(s, LeaseRun(s, p, seconds, now).0, d)
    ensures LeaseRun(s, p, seconds, now).0.events == s.events
    ensures |LeaseRun(s, p, seconds, now).0.leases| == |s.leases| + if LeaseRun(s, p, seconds, now).1.Some? then 1 else 0
    ensures LeaseRun(s, p, seconds, now).1.Some? ==> LeaseRun(s, p, seconds, now).1.value == |s.leases|
  {
    History.DropFromFreezes(s, 0, ExpiredOf(p.owner, now), now);
  }

  lemma ElsewhereIsForeign(s: Server, tx: Transaction, now: Time, d: DeviceId)
    requires NotOurs(tx, d)
    ensures ForeignStep(s, Perform(s, tx, now), d)
  {
    match tx
    case Claim(who, seconds) => ClaimIsForeignStep(s, who, seconds, now, d);
    case Submit(who, r, i, epoch, events) => ForeignSubmit(s, who, r, i, epoch, events, now, d);
    case _ => Ledger.OthersAreQuiet(s, tx, now);
  }

  lemma ElsewhereKeepsInv(sys: System, tx: Transaction, now: Time)
    requires Inv(sys) && NotOurs(tx, sys.agent.device)
    ensures Inv(sys.(server := Perform(sys.server, tx, now)))
  {
    Ledger.PerformKeepsValid(sys.server, tx, now);
    ElsewhereIsForeign(sys.server, tx, now, sys.agent.device);
    ForeignStepMoves(sys, Perform(sys.server, tx, now));
    ServerMoveKeepsInv(sys, Perform(sys.server, tx, now));
  }

  // ------------------------------------------------------------------- claims

  lemma NewLeaseIsOurs(s: Server, p: Principal, seconds: int, now: Time)
    requires LeaseRun(s, p, seconds, now).1.Some?
    ensures var (t, i) := LeaseRun(s, p, seconds, now);
      i.value < |t.leases| && t.leases[i.value].grant.owner == p.owner && t.leases[i.value].grant.device == p.device
  {}

  lemma ClaimMoves(sys: System, caps: Capabilities, seconds: int, now: Time)
    requires Inv(sys)
    ensures var t := LeaseRun(sys.server, Me(sys, caps), seconds, now).0;
      ServerMoved(sys, t) && Ledger.Extends(sys.server, t)
  {
    var p := Me(sys, caps);
    Ledger.ClaimKeepsValid(sys.server, p, seconds, now);
    ClaimIsForeignStep(sys.server, p, seconds, now, sys.agent.device);
    ForeignStepMoves(sys, LeaseRun(sys.server, p, seconds, now).0);
  }

  lemma ClaimedKeepsInv(sys: System, t: Server, granted: Option<LeaseId>)
    requires Inv(sys) && ServerMoved(sys, t)
    requires granted.Some? ==> granted.value == |sys.server.leases|
    requires granted.Some? && granted.value < |t.leases| ==>
      t.leases[granted.value].grant.owner == sys.agent.owner && t.leases[granted.value].grant.device == sys.agent.device
    ensures Inv(Claimed(sys, t, granted))
  {
    ServerMoveKeepsInv(sys, t);
    if granted.Some? && granted.value < |t.leases| { AddGrant(sys, t, granted.value); }
  }

  lemma ClaimKeepsInv(sys: System, caps: Capabilities, seconds: int, now: Time)
    requires Inv(sys)
    ensures var out := LeaseRun(sys.server, Me(sys, caps), seconds, now); Inv(Claimed(sys, out.0, out.1))
  {
    var p := Me(sys, caps);
    var out := LeaseRun(sys.server, p, seconds, now);
    ClaimMoves(sys, caps, seconds, now);
    ClaimIsForeignStep(sys.server, p, seconds, now, sys.agent.device);
    if out.1.Some? { NewLeaseIsOurs(sys.server, p, seconds, now); }
    ClaimedKeepsInv(sys, out.0, out.1);
  }

  /** A grant just made is fresh: nothing was produced under it, and the agent does not hold it. */
  lemma NewGrantIsFresh(sys: System, t: Server, i: LeaseId)
    requires Inv(sys) && Inv(sys.(server := t)) && Ledger.Extends(sys.server, t)
    requires i == |sys.server.leases| && i < |t.leases|
    requires t.leases[i].grant.owner == sys.agent.owner && t.leases[i].grant.device == sys.agent.device
    ensures GrantFresh(sys.(server := t), LeaseReply(t.leases[i].grant.run, i, t.leases[i].grant.epoch, t.leases[i].expiresAt))
  {
    var r, epoch := t.leases[i].grant.run, t.leases[i].grant.epoch;
    UngrantedIsUnproduced(sys, t, i);
    if SameEpoch(sys.agent, r, epoch) {
      assert WalIsTail(sys, r) && WalIsTail(sys.(server := t), r);
      Ledger.SameEpochSameLease(t.leases, sys.agent.leases[r].lease, i);
      assert false;
    }
  }

  lemma AddGrant(sys: System, t: Server, i: LeaseId)
    requires Inv(sys) && Inv(sys.(server := t)) && Ledger.Extends(sys.server, t)
    requires i == |sys.server.leases| && i < |t.leases|
    requires t.leases[i].grant.owner == sys.agent.owner && t.leases[i].grant.device == sys.agent.device
    ensures var g := LeaseReply(t.leases[i].grant.run, i, t.leases[i].grant.epoch, t.leases[i].expiresAt);
      Inv(sys.(server := t, grants := sys.grants + {g}))
  {
    var g := LeaseReply(t.leases[i].grant.run, i, t.leases[i].grant.epoch, t.leases[i].expiresAt);
    NewGrantIsFresh(sys, t, i);
    forall f | f in sys.grants ensures f.lease != i { assert GrantFresh(sys, f); }
    MoreGrantsFresh(sys.(server := t), g);
    OnlyGrantsDiffer(sys.(server := t), sys.(server := t, grants := sys.grants + {g}));
  }

  lemma MoreGrantsFresh(mid: System, g: LeaseReply)
    requires GrantsFresh(mid) && GrantFresh(mid, g) && forall f :: f in mid.grants ==> f.lease != g.lease
    ensures GrantsFresh(mid.(grants := mid.grants + {g}))
  {}

  lemma OnlyGrantsDiffer(mid: System, next: System)
    requires Inv(mid) && next == mid.(grants := next.grants) && GrantsFresh(next)
    ensures Inv(next)
  {
    forall j | 0 <= j < |next.produced| ensures RowProduced(next, next.produced[j]) { assert RowProduced(mid, mid.produced[j]); }
    forall i | 0 <= i < |next.server.leases| ensures LeasePrefix(next, i) { assert LeasePrefix(mid, i); }
    forall r | r in next.agent.leases ensures WalIsTail(next, r) { assert WalIsTail(mid, r); }
    OnlyRequestsSame(mid, next);
  }

  /** The request bag is judged by the server, the agent and the history alone. */
  lemma OnlyRequestsSame(mid: System, next: System)
    requires FlushesSound(mid) && FlushRepliesSound(mid) && AllWaitingSound(mid) && RenewalsSound(mid)
    requires next.server == mid.server && next.agent == mid.agent && next.produced == mid.produced
    requires next.flushes == mid.flushes && next.flushReplies == mid.flushReplies && next.waiting == mid.waiting
    requires next.renewals == mid.renewals && next.renewReplies == mid.renewReplies
    ensures FlushesSound(next) && FlushRepliesSound(next) && AllWaitingSound(next) && RenewalsSound(next)
  {}

  // ------------------------------------------------------------------ flushes

  /** Everything a submission loop needs to know about this device. */
  ghost predicate LoopSound(sys: System, c: Cursor, i: LeaseId, lease: Lease) {
    && Ledger.CursorOk(c, i, lease) && Knows(sys, lease.grant.run, i, lease.grant.epoch)
    && lease.grant == sys.server.leases[i].grant
    && RowsProduced(sys) && Numbered(Produced(sys, lease.grant.run, lease.grant.epoch))
    && c.ack <= |Produced(sys, lease.grant.run, lease.grant.epoch)|
    && EpochLog(c.srv.events, lease.grant.run, lease.grant.epoch)
       == Produced(sys, lease.grant.run, lease.grant.epoch)[..c.ack]
    && (forall j :: 0 <= j < |c.srv.events| && c.srv.events[j].id.drawnBy == sys.agent.device ==>
          c.srv.events[j] in sys.produced)
  }

  /** The message rebuilt by the Server is the produced row. */
  lemma SameRow(sys: System, c: Cursor, i: LeaseId, lease: Lease, a: nat)
    requires LoopSound(sys, c, i, lease) && a < |Produced(sys, lease.grant.run, lease.grant.epoch)|
    requires Ledger.EpochsIncrease(sys.server.leases)
    ensures var x := Produced(sys, lease.grant.run, lease.grant.epoch)[a];
      x.lease == i && x.env == MessageEnvelope(lease, ToMessage(x)) && x.env.sequence == a + 1
      && x in sys.produced && RowProduced(sys, x)
  {
    var x := Produced(sys, lease.grant.run, lease.grant.epoch)[a];
    assert x in sys.produced;
    var j :| 0 <= j < |sys.produced| && sys.produced[j] == x;
    assert RowProduced(sys, sys.produced[j]);
    Ledger.SameEpochSameLease(sys.server.leases, x.lease, i);
  }

  lemma CommittedRowRepeats(sys: System, c: Cursor, i: LeaseId, lease: Lease, a: nat, now: Time)
    requires LoopSound(sys, c, i, lease) && a < c.ack && Ledger.EpochsIncrease(sys.server.leases)
    ensures SubmitOne(c, i, lease, ToMessage(Produced(sys, lease.grant.run, lease.grant.epoch)[a]), now) == Success(c)
  {
    var x := Produced(sys, lease.grant.run, lease.grant.epoch)[a];
    SameRow(sys, c, i, lease, a);
    assert EpochLog(c.srv.events, lease.grant.run, lease.grant.epoch)[a] == x;
    assert x in c.srv.events;
    var j :| 0 <= j < |c.srv.events| && c.srv.events[j] == x;
    assert Batches.Carries(c.srv.events[j], x.id, x.env);
    Batches.SubmitOneAgain(c, i, lease, ToMessage(x), now);
  }

  /** The next produced row is not committed yet, under either key. */
  lemma NextRowIsNew(sys: System, c: Cursor, i: LeaseId, lease: Lease)
    requires LoopSound(sys, c, i, lease) && c.ack < |Produced(sys, lease.grant.run, lease.grant.epoch)|
    requires Ledger.EpochsIncrease(sys.server.leases)
    ensures var x := Produced(sys, lease.grant.run, lease.grant.epoch)[c.ack];
      forall j :: 0 <= j < |c.srv.events| ==> !Matches(c.srv.events[j], x.id, lease.grant.run, lease.grant.epoch, x.env.sequence)
  {
    var x := Produced(sys, lease.grant.run, lease.grant.epoch)[c.ack];
    SameRow(sys, c, i, lease, c.ack);
    forall j | 0 <= j < |c.srv.events|
      ensures !Matches(c.srv.events[j], x.id, lease.grant.run, lease.grant.epoch, x.env.sequence)
    {
      var y := c.srv.events[j];
      assert y in c.srv.events;
      if InEpoch(y, lease.grant.run, lease.grant.epoch) { Ledger.AlreadyCommitted(c, i, lease, y); }
      assert y.id == x.id ==> y in sys.produced;
      assert y.id == x.id ==> y == x by { if y.id == x.id { SameIdSameRow(sys, x, y); } }
    }
  }

  lemma SameIdSameRow(sys: System, x: Record, y: Record)
    requires RowsProduced(sys) && x in sys.produced && y in sys.produced && x.id == y.id
    ensures x == y
  {}

  /** The next produced row, if the lease is live, is inserted as it is. */
  lemma NextRowInserts(sys: System, c: Cursor, i: LeaseId, lease: Lease, now: Time)
    requires LoopSound(sys, c, i, lease) && c.ack < |Produced(sys, lease.grant.run, lease.grant.epoch)|
    requires Ledger.EpochsIncrease(sys.server.leases) && Live(lease, now)
    ensures var x := Produced(sys, lease.grant.run, lease.grant.epoch)[c.ack];
      x.env.run < |c.srv.runs| && x.lease < |c.srv.leases| && x.env.sequence == c.ack + 1
      && SubmitOne(c, i, lease, ToMessage(x), now) == Success(InsertEvent(c, x, now))
  {
    var x := Produced(sys, lease.grant.run, lease.grant.epoch)[c.ack];
    SameRow(sys, c, i, lease, c.ack);
    NextRowIsNew(sys, c, i, lease);
    assert Record(x.id, i, MessageEnvelope(lease, ToMessage(x))) == x;
  }

  lemma NextRowKeepsCursor(sys: System, c: Cursor, i: LeaseId, lease: Lease, x: Record, now: Time)
    requires LoopSound(sys, c, i, lease) && c.ack < |Produced(sys, lease.grant.run, lease.grant.epoch)|
    requires Ledger.EpochsIncrease(sys.server.leases) && Live(lease, now)
    requires x == Produced(sys, lease.grant.run, lease.grant.epoch)[c.ack]
    requires x.env.run < |c.srv.runs| && x.lease < |c.srv.leases| && x.env.sequence == c.ack + 1
    ensures Ledger.CursorOk(InsertEvent(c, x, now), i, lease)
    ensures InsertEvent(c, x, now).srv.events == c.srv.events + [x] && InsertEvent(c, x, now).ack == c.ack + 1
  {
    SameRow(sys, c, i, lease, c.ack);
    NextRowIsNew(sys, c, i, lease);
    forall j | 0 <= j < |c.srv.events| ensures c.srv.events[j].id != x.id {
      assert !Matches(c.srv.events[j], x.id, lease.grant.run, lease.grant.epoch, x.env.sequence);
    }
    Ledger.InsertKeepsValid(c, i, lease, x, now);
  }

  lemma LogAdvances(events: seq<Record>, p: seq<Record>, n: nat, r: RunId, epoch: nat)
    requires n < |p| && EpochLog(events, r, epoch) == p[..n] && InEpoch(p[n], r, epoch)
    ensures EpochLog(events + [p[n]], r, epoch) == p[..n + 1]
  {}

  /** One more produced row at the end of the log keeps the loop sound. */
  lemma LoopAdvances(sys: System, c: Cursor, d: Cursor, i: LeaseId, lease: Lease, x: Record)
    requires LoopSound(sys, c, i, lease) && c.ack < |Produced(sys, lease.grant.run, lease.grant.epoch)|
    requires x == Produced(sys, lease.grant.run, lease.grant.epoch)[c.ack]
    requires Ledger.CursorOk(d, i, lease) && d.srv.events == c.srv.events + [x] && d.ack == c.ack + 1
    ensures LoopSound(sys, d, i, lease)
  {
    var p := Produced(sys, lease.grant.run, lease.grant.epoch);
    assert p[c.ack] in p;
    LogAdvances(c.srv.events, p, c.ack, lease.grant.run, lease.grant.epoch);
    forall j | 0 <= j < |d.srv.events| && d.srv.events[j].id.drawnBy == sys.agent.device
      ensures d.srv.events[j] in sys.produced
    {
      if j < |c.srv.events| { assert d.srv.events[j] == c.srv.events[j]; }
    }
  }

  lemma NextRowLands(sys: System, c: Cursor, i: LeaseId, lease: Lease, now: Time)
    requires LoopSound(sys, c, i, lease) && c.ack < |Produced(sys, lease.grant.run, lease.grant.epoch)|
    requires Ledger.EpochsIncrease(sys.server.leases) && Live(lease, now)
    ensures var out := SubmitOne(c, i, lease, ToMessage(Produced(sys, lease.grant.run, lease.grant.epoch)[c.ack]), now);
      out.Success? && LoopSound(sys, out.value, i, lease) && out.value.ack == c.ack + 1
  {
    var x := Produced(sys, lease.grant.run, lease.grant.epoch)[c.ack];
    NextRowInserts(sys, c, i, lease, now);
    NextRowKeepsCursor(sys, c, i, lease, x, now);
    LoopAdvances(sys, c, InsertEvent(c, x, now), i, lease, x);
  }

  /** One produced row that starts at or below the high water: repeated, committed, or refused with the lease. */
  lemma RowLands(sys: System, c: Cursor, i: LeaseId, lease: Lease, a: nat, now: Time)
    requires LoopSound(sys, c, i, lease) && a <= c.ack && Ledger.EpochsIncrease(sys.server.leases)
    requires a < |Produced(sys, lease.grant.run, lease.grant.epoch)|
    ensures var out := SubmitOne(c, i, lease, ToMessage(Produced(sys, lease.grant.run, lease.grant.epoch)[a]), now);
      if out.Success?
      then LoopSound(sys, out.value, i, lease) && out.value.ack == if a < c.ack then c.ack else c.ack + 1
      else out.error == LeaseInactive
  {
    if a < c.ack {
      CommittedRowRepeats(sys, c, i, lease, a, now);
    } else if Live(lease, now) {
      NextRowLands(sys, c, i, lease, now);
    } else {
      DeadLeaseRejects(sys, c, i, lease, now);
    }
  }

  lemma SliceSplits(p: seq<Record>, a: nat, rows: seq<Record>)
    requires |rows| > 0 && a + |rows| <= |p| && rows == p[a..a + |rows|]
    ensures rows[0] == p[a] && rows[1..] == p[a + 1..a + 1 + |rows[1..]|]
    ensures ToMessages(rows)[0] == ToMessage(p[a]) && ToMessages(rows)[1..] == ToMessages(rows[1..])
  {}

  /** However late it arrives, a slice of produced rows that starts inside the
      committed part either lands contiguously or meets a lease that is over. */
  lemma {:induction false} SliceLands(sys: System, c: Cursor, i: LeaseId, lease: Lease, a: nat, rows: seq<Record>, now: Time)
    requires LoopSound(sys, c, i, lease) && a <= c.ack && Ledger.EpochsIncrease(sys.server.leases)
    requires a + |rows| <= |Produced(sys, lease.grant.run, lease.grant.epoch)|
    requires rows == Produced(sys, lease.grant.run, lease.grant.epoch)[a..a + |rows|]
    ensures var out := SubmitAll(c, i, lease, ToMessages(rows), now);
      if out.Success?
      then LoopSound(sys, out.value, i, lease) && out.value.ack == if a + |rows| > c.ack then a + |rows| else c.ack
      else out.error == LeaseInactive
    decreases |rows|
  {
    if |rows| > 0 {
      var p := Produced(sys, lease.grant.run, lease.grant.epoch);
      SliceSplits(p, a, rows);
      RowLands(sys, c, i, lease, a, now);
      var out := SubmitOne(c, i, lease, ToMessage(rows[0]), now);
      if out.Success? { SliceLands(sys, out.value, i, lease, a + 1, rows[1..], now); }
    }
  }

  lemma DeadLeaseRejects(sys: System, c: Cursor, i: LeaseId, lease: Lease, now: Time)
    requires LoopSound(sys, c, i, lease) && c.ack < |Produced(sys, lease.grant.run, lease.grant.epoch)|
    requires Ledger.EpochsIncrease(sys.server.leases) && !Live(lease, now)
    ensures SubmitOne(c, i, lease, ToMessage(Produced(sys, lease.grant.run, lease.grant.epoch)[c.ack]), now)
         == Failure(LeaseInactive)
  {
    SameRow(sys, c, i, lease, c.ack);
    NextRowIsNew(sys, c, i, lease);
  }

  lemma LoopStarts(sys: System, q: FlushRequest)
    requires Inv(sys) && q in sys.flushes && CurrentLease(sys.server, Me(sys, NO_CAPS), q.run, q.lease, q.epoch).Some?
    ensures var lease := sys.server.leases[q.lease];
      LoopSound(sys, Cursor(sys.server, lease.ack, lease.terminal), q.lease, lease)
  {
    assert FlushSound(sys, q);
    var lease := sys.server.leases[q.lease];
    var c := Cursor(sys.server, lease.ack, lease.terminal);
    assert Ledger.Commit(c, q.lease) == sys.server;
    HighWaterIsLength(sys.server, q.lease);
    assert LeasePrefix(sys, q.lease);
  }

  /** The Server's only refusals of a request from this device: the lease was
      superseded, or it is over.  Never a gap, a mismatch or a reused sequence. */
  lemma CompliantNeverGaps(sys: System, q: FlushRequest, now: Time)
    requires Inv(sys) && q in sys.flushes
    ensures var out := Serve(sys, q, now).1;
      out.Success? || out.error == StaleLease || out.error == LeaseInactive
    ensures var (t, out) := Serve(sys, q, now);
      out.Success? ==> q.sent <= out.value.ack && q.rows[0].env.sequence - 1 + |q.rows| <= out.value.ack
  {
    if CurrentLease(sys.server, Me(sys, NO_CAPS), q.run, q.lease, q.epoch).Some? {
      var lease := sys.server.leases[q.lease];
      LoopStarts(sys, q);
      assert FlushSound(sys, q);
      SliceLands(sys, Cursor(sys.server, lease.ack, lease.terminal), q.lease, lease, q.rows[0].env.sequence - 1, q.rows, now);
    }
  }

  lemma ServedStaysInLease(sys: System, q: FlushRequest, now: Time)
    requires Inv(sys) && q in sys.flushes && Serve(sys, q, now).1.Success?
    ensures var t := Serve(sys, q, now).0;
      q.lease < |t.leases| && |t.leases| == |sys.server.leases| && t.leases[q.lease].grant == sys.server.leases[q.lease].grant
      && (forall k :: 0 <= k < |t.leases| && k != q.lease ==> SameWater(sys.server.leases[k], t.leases[k]))
  {
    var lease := sys.server.leases[q.lease];
    History.SubmitAllStaysInLease(Cursor(sys.server, lease.ack, lease.terminal), q.lease, lease, ToMessages(q.rows), now);
  }

  lemma ServedLogIsPrefix(sys: System, q: FlushRequest, now: Time)
    requires Inv(sys) && q in sys.flushes && Serve(sys, q, now).1.Success?
    ensures var t := Serve(sys, q, now).0;
      EpochLog(t.events, q.run, q.epoch) <= Produced(sys, q.run, q.epoch)
      && forall j :: 0 <= j < |t.events| && t.events[j].id.drawnBy == sys.agent.device ==> t.events[j] in sys.produced
  {
    var lease := sys.server.leases[q.lease];
    LoopStarts(sys, q);
    assert FlushSound(sys, q);
    SliceLands(sys, Cursor(sys.server, lease.ack, lease.terminal), q.lease, lease, q.rows[0].env.sequence - 1, q.rows, now);
  }

  predicate SameWater(a: Lease, b: Lease) { a.grant == b.grant && a.ack == b.ack }

  /** After serving a flush the committed logs of this device are still prefixes. */
  lemma ServedIsPrefix(sys: System, q: FlushRequest, now: Time)
    requires Inv(sys) && q in sys.flushes
    ensures ServerMoved(sys, Serve(sys, q, now).0)
  {
    var (t, out) := Serve(sys, q, now);
    Ledger.SubmitKeepsValid(sys.server, Me(sys, NO_CAPS), q.run, q.lease, q.epoch, ToMessages(q.rows), now);
    if out.Success? {
      ServedStaysInLease(sys, q, now);
      ServedLogIsPrefix(sys, q, now);
      var next := sys.(server := t);
      forall k | 0 <= k < |t.leases| ensures LeasePrefix(next, k) {
        assert LeasePrefix(sys, k);
        if k != q.lease {
          assert SameWater(sys.server.leases[k], t.leases[k]);
          StillLog(sys.server, t, k);
        } else {
          assert FlushSound(sys, q);
        }
      }
    } else {
      assert sys.(server := t) == sys;
    }
  }

  lemma ServedAnswers(sys: System, q: FlushRequest, now: Time)
    requires Inv(sys) && q in sys.flushes && Serve(sys, q, now).1.Success?
    ensures var (t, out) := Serve(sys, q, now);
      FlushReplySound(sys.(server := t), FlushReply(q, out.value.ack, out.value.terminal.Some?))
  {
    assert FlushSound(sys, q);
    CompliantNeverGaps(sys, q, now);
    Batches.ReplyIsLeaseRow(sys.server, Me(sys, NO_CAPS), q.run, q.lease, q.epoch, ToMessages(q.rows), now);
  }

  lemma AnsweredKeepsInv(sys: System, q: FlushRequest, t: Server, out: Result<SubmitReply, ProtocolError>)
    requires Inv(sys) && ServerMoved(sys, t)
    requires out.Success? ==> FlushReplySound(sys.(server := t), FlushReply(q, out.value.ack, out.value.terminal.Some?))
    ensures Inv(Answered(sys, q, t, out))
  {
    ServerMoveKeepsInv(sys, t);
    if out.Success? {
      AddFlushReply(sys.(server := t), FlushReply(q, out.value.ack, out.value.terminal.Some?));
    }
  }

  lemma ServeFlushKeepsInv(sys: System, q: FlushRequest, now: Time)
    requires Inv(sys) && q in sys.flushes
    ensures Inv(Answered(sys, q, Serve(sys, q, now).0, Serve(sys, q, now).1))
  {
    ServedIsPrefix(sys, q, now);
    if Serve(sys, q, now).1.Success? { ServedAnswers(sys, q, now); }
    AnsweredKeepsInv(sys, q, Serve(sys, q, now).0, Serve(sys, q, now).1);
  }

  lemma AddFlushReply(mid: System, reply: FlushReply)
    requires Inv(mid) && FlushReplySound(mid, reply)
    ensures Inv(mid.(flushReplies := mid.flushReplies + {reply}))
  {
    var next := mid.(flushReplies := mid.flushReplies + {reply});
    forall other | other in next.flushReplies ensures FlushReplySound(next, other) {
      assert other != reply ==> FlushReplySound(mid, other);
    }
    OnlyRepliesDiffer(mid, next);
  }

  /** Adding an answer changes no other clause. */
  lemma OnlyRepliesDiffer(mid: System, next: System)
    requires Inv(mid) && next == mid.(flushReplies := next.flushReplies, renewReplies := next.renewReplies, renewals := next.renewals)
    requires FlushRepliesSound(next) && RenewalsSound(next)
    ensures Inv(next)
  {
    forall j | 0 <= j < |next.produced| ensures RowProduced(next, next.produced[j]) { assert RowProduced(mid, mid.produced[j]); }
    forall i | 0 <= i < |next.server.leases| ensures LeasePrefix(next, i) { assert LeasePrefix(mid, i); }
    forall r | r in next.agent.leases ensures WalIsTail(next, r) { assert WalIsTail(mid, r); }
    forall g | g in next.grants ensures GrantFresh(next, g) { assert GrantFresh(mid, g); }
    forall q | q in next.flushes ensures FlushSound(next, q) { assert FlushSound(mid, q); }
    forall r | r in next.waiting ensures WaitingSound(next, r) { assert WaitingSound(mid, r); }
  }

  // ----------------------------------------------------------------- renewals

  lemma RenewIsQuiet(s: Server, p: Principal, r: RunId, i: LeaseId, epoch: nat, seconds: int, now: Time)
    ensures Ledger.Quiet(s, RenewLease(s, p, r, i, epoch, seconds, now).0)
  {}

  lemma QuietMoves(sys: System, t: Server)
    requires Inv(sys) && Ledger.Quiet(sys.server, t)
    ensures ServerMoved(sys, t)
  {
    Ledger.QuietKeepsValid(sys.server, t);
    Ledger.QuietExtends(sys.server, t);
    ForeignStepMoves(sys, t);
  }

  lemma AddRenewReply(mid: System, reply: RenewReply)
    requires Inv(mid) && Knows(mid, reply.to.run, reply.to.lease, reply.to.epoch) && reply.ack <= HighWater(mid, reply.to.lease)
    ensures Inv(mid.(renewReplies := mid.renewReplies + {reply}))
  {
    var next := mid.(renewReplies := mid.renewReplies + {reply});
    forall other | other in next.flushReplies ensures FlushReplySound(next, other) { assert FlushReplySound(mid, other); }
    OnlyRepliesDiffer(mid, next);
  }

  lemma RenewedKeepsInv(sys: System, q: RenewRequest, t: Server, out: Result<nat, ProtocolError>)
    requires Inv(sys) && ServerMoved(sys, t) && Knows(sys, q.run, q.lease, q.epoch)
    requires out.Success? && q.lease < |t.leases| ==> out.value <= t.leases[q.lease].ack
    ensures Inv(Renewed(sys, q, t, out))
  {
    ServerMoveKeepsInv(sys, t);
    ExtendsRaises(sys.server, t);
    if out.Success? && q.lease < |t.leases| {
      AddRenewReply(sys.(server := t), RenewReply(q, out.value, t.leases[q.lease].expiresAt));
    }
  }

  lemma ServeRenewalKeepsInv(sys: System, q: RenewRequest, seconds: int, now: Time)
    requires Inv(sys) && q in sys.renewals
    ensures Inv(Renewed(sys, q, ServeRenew(sys, q, seconds, now).0, ServeRenew(sys, q, seconds, now).1))
  {
    var out := ServeRenew(sys, q, seconds, now);
    RenewIsQuiet(sys.server, Me(sys, NO_CAPS), q.run, q.lease, q.epoch, seconds, now);
    QuietMoves(sys, out.0);
    RenewedKeepsInv(sys, q, out.0, out.1);
  }
}
