/**
  The Local Agent's side of the transport: every step of the agent keeps the
  WAL the contiguous tail of what it produced and loses no event.
*/
module TransportAgent {
  import opened Wrappers
  import opened RunTypes
  import opened EventLog
  import opened RunProtocol
  import opened LocalAgent
  import opened Transport
  import opened TransportServer
  import Ledger

  // ------------------------------------------------------------------ frames

  /** Same Server, same history, same requests: only the agent's rows moved. */
  ghost predicate AgentMoved(sys: System, next: System) {
    && next.server == sys.server && next.produced == sys.produced
    && next.agent.device == sys.agent.device && next.agent.owner == sys.agent.owner && next.agent.draws == sys.agent.draws
    && next.flushes == sys.flushes && next.flushReplies == sys.flushReplies
    && next.renewals == sys.renewals && next.renewReplies == sys.renewReplies
  }

  lemma AgentMoveKeepsInv(sys: System, next: System)
    requires Inv(sys) && AgentMoved(sys, next)
    requires WalsAreTails(next) && NothingLost(next) && GrantsFresh(next) && AllWaitingSound(next)
    ensures Inv(next)
  {
    forall j | 0 <= j < |next.produced| ensures RowProduced(next, next.produced[j]) { assert RowProduced(sys, sys.produced[j]); }
    forall i | 0 <= i < |next.server.leases| ensures LeasePrefix(next, i) { assert LeasePrefix(sys, i); }
    forall q | q in next.flushes ensures FlushSound(next, q) { assert FlushSound(sys, q); }
    forall reply | reply in next.flushReplies ensures FlushReplySound(next, reply) { assert FlushReplySound(sys, reply); }
  }

  /** The committed log of a known lease is the produced log up to the high water. */
  lemma WaterInProduced(sys: System, r: RunId, i: LeaseId, epoch: nat)
    requires Inv(sys) && Knows(sys, r, i, epoch)
    ensures HighWater(sys, i) <= |Produced(sys, r, epoch)|
    ensures EpochLog(sys.server.events, r, epoch) == Produced(sys, r, epoch)[..HighWater(sys, i)]
  {
    assert LeasePrefix(sys, i);
    HighWaterIsLength(sys.server, i);
  }

  lemma KnownOnce(sys: System, r: RunId, i: LeaseId, j: LeaseId, epoch: nat)
    requires Inv(sys) && Knows(sys, r, i, epoch) && Knows(sys, r, j, epoch)
    ensures i == j
  {}

  // ---------------------------------------------------------------- retiring

  lemma RetireLosesNothing(sys: System, r: RunId, epoch: nat)
    requires Inv(sys)
    ensures NothingLost(sys.(agent := Retire(sys.agent, r, epoch)))
  {
    var a, b := sys.agent, Retire(sys.agent, r, epoch);
    ArchiveKeeps(a.archive, a.wal, r, epoch);
    DropArchivedKeeps(a.wal, b.archive, r, epoch);
    forall e | e in sys.produced ensures e in b.wal || e in b.archive || e in sys.server.events {
      if e in a.wal && SupersededBy(e, r, epoch) {
        var k :| 0 <= k < |b.archive| && b.archive[k].id == e.id;
        assert b.archive[k] in b.archive;
        SameIdSameRow(sys, e, b.archive[k]);
      }
    }
  }

  /** Retiring below an epoch the Run's lease has reached touches no leased epoch. */
  lemma RetireKeepsTails(sys: System, r: RunId, epoch: nat)
    requires WalsAreTails(sys) && (r in sys.agent.leases ==> epoch <= sys.agent.leases[r].epoch)
    ensures WalsAreTails(sys.(agent := Retire(sys.agent, r, epoch)))
  {
    var next := sys.(agent := Retire(sys.agent, r, epoch));
    forall q | q in next.agent.leases ensures WalIsTail(next, q) {
      assert WalIsTail(sys, q);
      DropArchivedLog(sys.agent.wal, next.agent.archive, r, epoch, q, sys.agent.leases[q].epoch);
    }
  }

  lemma RetireKeepsWaiting(sys: System, r: RunId, epoch: nat)
    requires AllWaitingSound(sys) && r in sys.agent.leases && epoch == sys.agent.leases[r].epoch
    ensures AllWaitingSound(sys.(agent := Retire(sys.agent, r, epoch)))
  {
    var next := sys.(agent := Retire(sys.agent, r, epoch));
    forall q | q in next.waiting ensures WaitingSound(next, q) {
      assert WaitingSound(sys, q);
      if SameEpoch(next.agent, q, next.waiting[q].epoch) {
        DropArchivedLog(sys.agent.wal, next.agent.archive, r, epoch, q, next.waiting[q].epoch);
      }
    }
  }

  lemma SameLeasesKeepGrants(sys: System, next: System)
    requires GrantsFresh(sys) && next.server == sys.server && next.produced == sys.produced && next.grants == sys.grants
    requires next.agent.device == sys.agent.device && next.agent.owner == sys.agent.owner
    requires forall r :: r in next.agent.leases ==> r in sys.agent.leases && next.agent.leases[r].epoch == sys.agent.leases[r].epoch
    ensures GrantsFresh(next)
  {}

  lemma RetireKeepsInv(sys: System, r: RunId, epoch: nat)
    requires Inv(sys) && r in sys.agent.leases && epoch == sys.agent.leases[r].epoch
    ensures Inv(sys.(agent := Retire(sys.agent, r, epoch)))
  {
    var next := sys.(agent := Retire(sys.agent, r, epoch));
    RetireLosesNothing(sys, r, epoch);
    RetireKeepsTails(sys, r, epoch);
    RetireKeepsWaiting(sys, r, epoch);
    SameLeasesKeepGrants(sys, next);
    AgentMoveKeepsInv(sys, next);
  }

  lemma {:induction false} RetireAllKeepsInv(sys: System, order: seq<RunId>)
    requires Inv(sys)
    ensures Inv(sys.(agent := RetireAll(sys.agent, order)))
    ensures RetireAll(sys.agent, order).leases == sys.agent.leases
  {
    if |order| > 0 {
      var init, r := order[..|order| - 1], order[|order| - 1];
      RetireAllKeepsInv(sys, init);
      var mid := sys.(agent := RetireAll(sys.agent, init));
      if r in mid.agent.leases { RetireKeepsInv(mid, r, mid.agent.leases[r].epoch); }
    } else {
      assert sys.(agent := RetireAll(sys.agent, order)) == sys;
    }
  }

  /** Forgetting flushes in progress loses nothing. */
  lemma WaitForLess(sys: System, next: System)
    requires Inv(sys) && next == sys.(waiting := next.waiting)
    requires forall r :: r in next.waiting ==> r in sys.waiting && next.waiting[r] == sys.waiting[r]
    ensures Inv(next)
  {
    SameAgentKeepsTails(sys, next);
    SameLeasesKeepGrants(sys, next);
    LessWaiting(sys, next);
    AgentMoveKeepsInv(sys, next);
  }

  lemma SameAgentKeepsTails(sys: System, next: System)
    requires WalsAreTails(sys) && next.agent == sys.agent && next.server == sys.server && next.produced == sys.produced
    ensures WalsAreTails(next)
  {}

  lemma LessWaiting(sys: System, next: System)
    requires AllWaitingSound(sys) && next.flushes >= sys.flushes && next.agent == sys.agent
    requires forall r :: r in next.waiting ==> r in sys.waiting && next.waiting[r] == sys.waiting[r]
    ensures AllWaitingSound(next)
  {}

  // ------------------------------------------------------------- a new lease

  lemma UnproducedIsUnqueued(sys: System, r: RunId, epoch: nat)
    requires Inv(sys) && Produced(sys, r, epoch) == []
    ensures EpochLog(sys.agent.wal, r, epoch) == []
  {
    forall k | 0 <= k < |sys.agent.wal| ensures !InEpoch(sys.agent.wal[k], r, epoch) {
      assert sys.agent.wal[k] in sys.produced;
      var j :| 0 <= j < |sys.produced| && sys.produced[j] == sys.agent.wal[k];
      if InEpoch(sys.produced[j], r, epoch) { EpochLogComplete(sys.produced, j, r, epoch); }
    }
    EpochLogNone(sys.agent.wal, r, epoch);
  }

  /** The state after a recorded grant. */
  function Recorded(sys: System, g: LeaseReply): System {
    sys.(agent := Retire(sys.agent, g.run, g.epoch)
                  .(leases := sys.agent.leases[g.run := LocalLease(g.lease, g.epoch, g.expiresAt, 0, LocalActive)]),
         grants := sys.grants - {g})
  }

  lemma RecordKeepsTail(sys: System, g: LeaseReply, q: RunId)
    requires q != g.run && q in sys.agent.leases && WalIsTail(sys, q)
    ensures WalIsTail(Recorded(sys, g), q)
  {
    DropArchivedLog(sys.agent.wal, Recorded(sys, g).agent.archive, g.run, g.epoch, q, sys.agent.leases[q].epoch);
  }

  lemma RecordStartsTail(sys: System, g: LeaseReply)
    requires GrantFresh(sys, g) && Unsent(sys, g.run, g.epoch) == []
    ensures WalIsTail(Recorded(sys, g), g.run)
  {
    DropArchivedLog(sys.agent.wal, Recorded(sys, g).agent.archive, g.run, g.epoch, g.run, g.epoch);
  }

  lemma RecordKeepsTails(sys: System, g: LeaseReply)
    requires WalsAreTails(sys) && GrantFresh(sys, g) && Unsent(sys, g.run, g.epoch) == []
    ensures WalsAreTails(Recorded(sys, g))
  {
    RecordStartsTail(sys, g);
    forall q | q in Recorded(sys, g).agent.leases ensures WalIsTail(Recorded(sys, g), q) {
      if q != g.run { RecordKeepsTail(sys, g, q); }
    }
  }

  lemma RecordKeepsGrants(sys: System, g: LeaseReply)
    requires Inv(sys) && g in sys.grants
    ensures GrantsFresh(Recorded(sys, g))
  {}

  lemma RecordKeepsWaiting(sys: System, g: LeaseReply)
    requires Inv(sys) && g in sys.grants
    ensures AllWaitingSound(Recorded(sys, g))
  {
    var next := Recorded(sys, g);
    assert GrantFresh(sys, g);
    forall r | r in next.waiting ensures WaitingSound(next, r) {
      assert WaitingSound(sys, r) && FlushSound(sys, sys.waiting[r]);
      if r != g.run {
        DropArchivedLog(sys.agent.wal, next.agent.archive, g.run, g.epoch, r, sys.waiting[r].epoch);
      }
    }
  }

  lemma RecordedKeepsInv(sys: System, g: LeaseReply)
    requires Inv(sys) && g in sys.grants
    ensures Inv(Recorded(sys, g))
  {
    assert GrantFresh(sys, g);
    UnproducedIsUnqueued(sys, g.run, g.epoch);
    RetireLosesNothing(sys, g.run, g.epoch);
    RecordKeepsTails(sys, g);
    RecordKeepsGrants(sys, g);
    RecordKeepsWaiting(sys, g);
    AgentMoveKeepsInv(sys, Recorded(sys, g));
  }

  lemma RefusedKeepsInv(sys: System, g: LeaseReply)
    requires Inv(sys)
    ensures Inv(sys.(grants := sys.grants - {g}))
  {
    var next := sys.(grants := sys.grants - {g});
    forall f | f in next.grants ensures GrantFresh(next, f) { assert GrantFresh(sys, f); }
    OnlyGrantsDiffer(sys, next);
  }

  lemma GetLeaseKeepsInv(sys: System, g: LeaseReply)
    requires Inv(sys) && g in sys.grants
    ensures Inv(Taken(sys, g))
  {
    RecordedKeepsInv(sys, g);
    RefusedKeepsInv(sys, g);
  }

  // --------------------------------------------------------------- appending

  lemma {:induction false} MaxOfTail(log: seq<Record>, from: nat)
    requires Numbered(log) && from <= |log|
    ensures MaxSequence(log[from..]) == if from < |log| then |log| else 0
    decreases |log|
  {
    if from < |log| {
      var init := log[..|log| - 1];
      assert log[from..][..|log| - from - 1] == init[from..];
      MaxOfTail(init, from);
    }
  }

  /** Whatever was flushed, pruned or renewed before, the next sequence of a
      lease is one more than the number of events already produced under it. */
  lemma NextSequenceIsNext(sys: System, r: RunId)
    requires Inv(sys) && r in sys.agent.leases
    ensures NextSequence(sys.agent, r, sys.agent.leases[r]) == |Produced(sys, r, sys.agent.leases[r].epoch)| + 1
  {
    var lease := sys.agent.leases[r];
    assert WalIsTail(sys, r);
    WaterInProduced(sys, r, lease.lease, lease.epoch);
    var w, p := EpochLog(sys.agent.wal, r, lease.epoch), Produced(sys, r, lease.epoch);
    MaxOfTail(p, |p| - |w|);
  }

  /** The state after row x was appended to the WAL. */
  function Appended(sys: System, x: Record): System {
    sys.(agent := sys.agent.(wal := sys.agent.wal + [x], draws := sys.agent.draws + 1), produced := sys.produced + [x])
  }

  /** The row a lease of this agent produces next. */
  ghost predicate NextProduced(sys: System, x: Record) {
    && x.env.run in sys.agent.leases && x.env.epoch == sys.agent.leases[x.env.run].epoch
    && x.lease == sys.agent.leases[x.env.run].lease && x.env.device == sys.agent.device
    && x.id == EventId(sys.agent.device, sys.agent.draws)
    && x.env.payload.bytes <= MAX_EVENT_BYTES && !x.env.payload.secret
    && x.env.sequence == |Produced(sys, x.env.run, x.env.epoch)| + 1
  }

  lemma AppendKeepsRows(sys: System, x: Record)
    requires RowsProduced(sys) && NextProduced(sys, x) && Knows(sys, x.env.run, x.lease, x.env.epoch)
    ensures RowsProduced(Appended(sys, x))
  {}

  lemma AppendKeepsNumbers(sys: System, x: Record)
    requires AllNumbered(sys.produced) && x.env.sequence == |Produced(sys, x.env.run, x.env.epoch)| + 1
    ensures AllNumbered(sys.produced + [x])
  {}

  lemma AppendKeepsPrefixes(sys: System, x: Record)
    requires CommittedIsPrefix(sys)
    ensures CommittedIsPrefix(Appended(sys, x))
  {
    var next := Appended(sys, x);
    forall i | 0 <= i < |next.server.leases| ensures LeasePrefix(next, i) {
      assert LeasePrefix(sys, i);
      var g := sys.server.leases[i].grant;
      EpochLogAppend(sys.produced, x, g.run, g.epoch);
    }
  }

  lemma AppendKeepsFlushes(sys: System, x: Record)
    requires FlushesSound(sys)
    ensures FlushesSound(Appended(sys, x))
  {}

  lemma AppendKeepsTails(sys: System, x: Record)
    requires WalsAreTails(sys) && NextProduced(sys, x)
    ensures WalsAreTails(Appended(sys, x))
  {}

  lemma AppendKeepsRequests(sys: System, x: Record)
    requires GrantsFresh(sys) && AllWaitingSound(sys) && NextProduced(sys, x)
    ensures GrantsFresh(Appended(sys, x)) && AllWaitingSound(Appended(sys, x))
  {}

  lemma AppendKeepsRest(sys: System, x: Record)
    requires NothingLost(sys) && FlushRepliesSound(sys) && RenewalsSound(sys)
    ensures NothingLost(Appended(sys, x)) && FlushRepliesSound(Appended(sys, x)) && RenewalsSound(Appended(sys, x))
  {}

  lemma AppendedKeepsInv(sys: System, x: Record)
    requires Inv(sys) && NextProduced(sys, x)
    ensures Inv(Appended(sys, x))
  {
    assert WalIsTail(sys, x.env.run);
    AppendKeepsRows(sys, x);
    AppendKeepsNumbers(sys, x);
    AppendKeepsPrefixes(sys, x);
    AppendKeepsFlushes(sys, x);
    AppendKeepsTails(sys, x);
    AppendKeepsRequests(sys, x);
    AppendKeepsRest(sys, x);
  }

  lemma AppendKeepsInv(sys: System, r: RunId, kind: EventKind, payload: Payload, at: Time, limit: nat)
    requires Inv(sys)
    ensures Inv(Extended(sys, AppendEvent(sys.agent, r, kind, payload, at, limit)))
  {
    var out := AppendEvent(sys.agent, r, kind, payload, at, limit);
    if out.Success? {
      NextSequenceIsNext(sys, r);
      AppendedKeepsInv(sys, out.value.1);
    }
  }

  // ---------------------------------------------------------------- flushing

  /** The front of a tail is a slice that starts inside the committed part. */
  lemma FrontOfTail(w: seq<Record>, p: seq<Record>, ack: nat, water: nat, rows: seq<Record>)
    requires Tail(w, p, ack, water) && Numbered(p) && rows <= w && |rows| > 0
    ensures var from := rows[0].env.sequence - 1;
      from == |p| - |w| && 0 <= from <= water && from + |rows| <= |p| && rows == p[from..from + |rows|]
  {}

  lemma CutIsSound(sys: System, r: RunId, batch: int)
    requires WalsAreTails(sys) && AllNumbered(sys.produced) && Allowed(sys, SendFlush(r, batch))
    ensures FlushSound(sys, RequestFor(sys.agent, r, batch))
  {}

  /** Adding a sound request and waiting for it changes no other clause. */
  lemma AddFlush(sys: System, q: FlushRequest)
    requires Inv(sys) && FlushSound(sys, q) && q.rows <= Unsent(sys, q.run, q.epoch)
    ensures Inv(sys.(flushes := sys.flushes + {q}, waiting := sys.waiting[q.run := q]))
  {
    var mid := sys.(flushes := sys.flushes + {q});
    MoreFlushes(sys, mid, q);
    var next := mid.(waiting := sys.waiting[q.run := q]);
    forall k | k in next.waiting ensures WaitingSound(next, k) { assert k != q.run ==> WaitingSound(sys, k); }
    SameAgentKeepsTails(mid, next);
    SameLeasesKeepGrants(mid, next);
    AgentMoveKeepsInv(mid, next);
  }

  lemma MoreFlushes(sys: System, mid: System, q: FlushRequest)
    requires Inv(sys) && FlushSound(sys, q) && mid == sys.(flushes := sys.flushes + {q})
    ensures Inv(mid)
  {
    forall k | k in mid.flushes ensures FlushSound(mid, k) { assert FlushSound(sys, k); }
    forall reply | reply in mid.flushReplies ensures FlushReplySound(mid, reply) { assert FlushReplySound(sys, reply); }
    forall j | 0 <= j < |mid.produced| ensures RowProduced(mid, mid.produced[j]) { assert RowProduced(sys, sys.produced[j]); }
    forall i | 0 <= i < |mid.server.leases| ensures LeasePrefix(mid, i) { assert LeasePrefix(sys, i); }
    SameAgentKeepsTails(sys, mid);
    SameLeasesKeepGrants(sys, mid);
    LessWaiting(sys, mid);
  }

  lemma SendFlushKeepsInv(sys: System, r: RunId, batch: int)
    requires Inv(sys) && Allowed(sys, SendFlush(r, batch))
    ensures Inv(Sent(sys, RequestFor(sys.agent, r, batch)))
  {
    CutIsSound(sys, r, batch);
    AddFlush(sys, RequestFor(sys.agent, r, batch));
  }

  /** The state after an ACK at or above what the flush sent was recorded. */
  function Acknowledged(sys: System, r: RunId, ack: nat, status: LocalStatus): System
    requires r in sys.agent.leases
  {
    var lease := sys.agent.leases[r];
    sys.(agent := sys.agent.(wal := Prune(sys.agent.wal, r, lease.epoch, ack),
                             leases := sys.agent.leases[r := lease.(ack := ack, status := status)]),
         waiting := Without(sys.waiting, r))
  }

  /** In a numbered log, a row at or below n is among the first n. */
  lemma NumberedFront(log: seq<Record>, e: Record, n: nat)
    requires Numbered(log) && e in log && e.env.sequence <= n <= |log|
    ensures e in log[..n]
  {}

  /** Pruned rows are committed rows. */
  lemma PrunedIsCommitted(sys: System, e: Record, r: RunId, ack: nat)
    requires Inv(sys) && r in sys.agent.leases && e in sys.agent.wal
    requires ack <= HighWater(sys, sys.agent.leases[r].lease) && Acked(e, r, sys.agent.leases[r].epoch, ack)
    ensures e in sys.server.events
  {
    var l := sys.agent.leases[r];
    assert WalIsTail(sys, r) && Numbered(Produced(sys, r, l.epoch));
    WaterInProduced(sys, r, l.lease, l.epoch);
    ProducedIsLogged(sys, e);
    NumberedFront(Produced(sys, r, l.epoch), e, HighWater(sys, l.lease));
    assert e in EpochLog(sys.server.events, r, l.epoch);
  }

  lemma ProducedIsLogged(sys: System, e: Record)
    requires e in sys.produced
    ensures e in Produced(sys, e.env.run, e.env.epoch)
  {
    var j :| 0 <= j < |sys.produced| && sys.produced[j] == e;
    EpochLogComplete(sys.produced, j, e.env.run, e.env.epoch);
  }

  lemma AckLosesNothing(sys: System, r: RunId, ack: nat, status: LocalStatus)
    requires Inv(sys) && r in sys.agent.leases && ack <= HighWater(sys, sys.agent.leases[r].lease)
    ensures NothingLost(Acknowledged(sys, r, ack, status))
  {
    var epoch, next := sys.agent.leases[r].epoch, Acknowledged(sys, r, ack, status);
    PruneKeeps(sys.agent.wal, r, epoch, ack);
    forall e | e in sys.produced ensures e in next.agent.wal || e in next.agent.archive || e in sys.server.events {
      if e in sys.agent.wal && Acked(e, r, epoch, ack) { PrunedIsCommitted(sys, e, r, ack); }
    }
  }

  lemma {:induction false} TailPruned(w: seq<Record>, p: seq<Record>, sent: nat, water: nat, r: RunId, epoch: nat, ack: nat)
    requires Tail(w, p, sent, water) && Numbered(p) && (forall k :: 0 <= k < |p| ==> InEpoch(p[k], r, epoch))
    requires |p| - |w| <= ack <= water <= |p|
    ensures Tail(Prune(w, r, epoch, ack), p, ack, water)
  {
    PruneSuffix(p, |p| - |w|, r, epoch, ack);
  }

  /** The ACK lies between the front of what is queued and what is committed. */
  ghost predicate AckFits(sys: System, r: RunId, ack: nat)
    requires r in sys.agent.leases
  {
    var l := sys.agent.leases[r];
    && |Produced(sys, r, l.epoch)| - |Unsent(sys, r, l.epoch)| <= ack
    && ack <= HighWater(sys, l.lease) <= |Produced(sys, r, l.epoch)|
  }

  lemma AckCutsUnsent(sys: System, r: RunId, ack: nat, status: LocalStatus)
    requires r in sys.agent.leases
    ensures var l := sys.agent.leases[r];
      Unsent(Acknowledged(sys, r, ack, status), r, l.epoch) == Prune(Unsent(sys, r, l.epoch), r, l.epoch, ack)
  {
    PruneLog(sys.agent.wal, r, sys.agent.leases[r].epoch, ack, r, sys.agent.leases[r].epoch);
  }

  lemma AckMovesTail(sys: System, r: RunId, ack: nat, status: LocalStatus)
    requires AllNumbered(sys.produced) && r in sys.agent.leases && WalIsTail(sys, r) && AckFits(sys, r, ack)
    ensures WalIsTail(Acknowledged(sys, r, ack, status), r)
  {
    var l := sys.agent.leases[r];
    var p := Produced(sys, r, l.epoch);
    assert Numbered(p);
    forall k | 0 <= k < |p| ensures InEpoch(p[k], r, l.epoch) { assert p[k] in p; }
    TailPruned(Unsent(sys, r, l.epoch), p, l.ack, HighWater(sys, l.lease), r, l.epoch, ack);
    AckCutsUnsent(sys, r, ack, status);
    var next := Acknowledged(sys, r, ack, status);
    assert next.agent.leases[r] == l.(ack := ack, status := status);
    assert LeaseTail(next, r, next.agent.leases[r]);
  }

  lemma AckSparesTail(sys: System, r: RunId, ack: nat, status: LocalStatus, q: RunId)
    requires r in sys.agent.leases && q in sys.agent.leases && q != r && WalIsTail(sys, q)
    ensures WalIsTail(Acknowledged(sys, r, ack, status), q)
  {
    PruneLog(sys.agent.wal, r, sys.agent.leases[r].epoch, ack, q, sys.agent.leases[q].epoch);
  }

  lemma AckKeepsTails(sys: System, r: RunId, ack: nat, status: LocalStatus)
    requires WalsAreTails(sys) && AllNumbered(sys.produced) && r in sys.agent.leases && AckFits(sys, r, ack)
    ensures WalsAreTails(Acknowledged(sys, r, ack, status))
  {
    forall q | q in sys.agent.leases ensures WalIsTail(Acknowledged(sys, r, ack, status), q) {
      if q == r { AckMovesTail(sys, r, ack, status); } else { AckSparesTail(sys, r, ack, status, q); }
    }
  }

  lemma AckKeepsWaiting(sys: System, r: RunId, ack: nat, status: LocalStatus)
    requires AllWaitingSound(sys) && r in sys.agent.leases
    ensures AllWaitingSound(Acknowledged(sys, r, ack, status))
  {
    var next := Acknowledged(sys, r, ack, status);
    forall k | k in next.waiting ensures WaitingSound(next, k) {
      assert WaitingSound(sys, k);
      PruneLog(sys.agent.wal, r, sys.agent.leases[r].epoch, ack, k, sys.waiting[k].epoch);
    }
  }

  /** The flush in progress started at the front of the WAL, so its ACK reaches past that front. */
  lemma AckReachesFront(sys: System, reply: FlushReply)
    requires Inv(sys) && Allowed(sys, GetFlushReply(reply))
    ensures AckFits(sys, reply.to.run, reply.ack) && reply.to.sent <= reply.ack
  {
    var r, l := reply.to.run, sys.agent.leases[reply.to.run];
    assert FlushReplySound(sys, reply) && FlushSound(sys, reply.to) && WaitingSound(sys, r) && WalIsTail(sys, r);
    KnownOnce(sys, r, reply.to.lease, l.lease, l.epoch);
    WaterInProduced(sys, r, l.lease, l.epoch);
    assert Numbered(Produced(sys, r, l.epoch));
    FrontOfTail(Unsent(sys, r, l.epoch), Produced(sys, r, l.epoch), l.ack, HighWater(sys, l.lease), reply.to.rows);
  }

  lemma AcknowledgedKeepsInv(sys: System, r: RunId, ack: nat, status: LocalStatus)
    requires Inv(sys) && r in sys.agent.leases && AckFits(sys, r, ack)
    ensures Inv(Acknowledged(sys, r, ack, status))
  {
    var next := Acknowledged(sys, r, ack, status);
    AckLosesNothing(sys, r, ack, status);
    AckKeepsTails(sys, r, ack, status);
    AckKeepsWaiting(sys, r, ack, status);
    SameLeasesKeepGrants(sys, next);
    AgentMoveKeepsInv(sys, next);
  }

  lemma TookIsAcknowledged(sys: System, reply: FlushReply)
    requires SameEpoch(sys.agent, reply.to.run, reply.to.epoch) && reply.to.sent <= reply.ack
    ensures TookAck(sys, reply)
         == Acknowledged(sys, reply.to.run, reply.ack, if reply.terminal then LocalCompleted else LocalActive)
  {}

  lemma GetFlushReplyKeepsInv(sys: System, reply: FlushReply)
    requires Inv(sys) && Allowed(sys, GetFlushReply(reply))
    ensures Inv(TookAck(sys, reply))
  {
    AckReachesFront(sys, reply);
    TookIsAcknowledged(sys, reply);
    AcknowledgedKeepsInv(sys, reply.to.run, reply.ack, if reply.terminal then LocalCompleted else LocalActive);
  }

  // ---------------------------------------------------------------- renewals

  lemma AddRenewal(sys: System, q: RenewRequest)
    requires Inv(sys) && Knows(sys, q.run, q.lease, q.epoch)
    ensures Inv(sys.(renewals := sys.renewals + {q}))
  {
    var next := sys.(renewals := sys.renewals + {q});
    forall reply | reply in next.flushReplies ensures FlushReplySound(next, reply) { assert FlushReplySound(sys, reply); }
    OnlyRepliesDiffer(sys, next);
  }

  lemma SendRenewalKeepsInv(sys: System, r: RunId)
    requires Inv(sys) && r in sys.agent.leases
    ensures Inv(sys.(renewals := sys.renewals + {RenewRequest(r, sys.agent.leases[r].lease, sys.agent.leases[r].epoch)}))
  {
    var l := sys.agent.leases[r];
    assert WalIsTail(sys, r);
    AddRenewal(sys, RenewRequest(r, l.lease, l.epoch));
  }

  /** A change of lease columns other than id and epoch keeps all but the tails. */
  lemma RowsOfLeasesMove(sys: System, next: System)
    requires Inv(sys) && AgentMoved(sys, next) && next.agent == sys.agent.(leases := next.agent.leases)
    requires next.grants == sys.grants && next.waiting == sys.waiting && WalsAreTails(next)
    requires forall r :: r in next.agent.leases ==> r in sys.agent.leases && next.agent.leases[r].epoch == sys.agent.leases[r].epoch
    ensures Inv(next)
  {
    SameLeasesKeepGrants(sys, next);
    forall k | k in next.waiting ensures WaitingSound(next, k) { assert WaitingSound(sys, k); }
    AgentMoveKeepsInv(sys, next);
  }

  lemma RetouchKeepsTails(sys: System, r: RunId, l: LocalLease)
    requires WalsAreTails(sys) && r in sys.agent.leases && LeaseTail(sys, r, l)
    ensures WalsAreTails(sys.(agent := sys.agent.(leases := sys.agent.leases[r := l])))
  {}

  lemma RenewalIsBounded(sys: System, reply: RenewReply)
    requires Inv(sys) && reply in sys.renewReplies && SameEpoch(sys.agent, reply.to.run, reply.to.epoch)
    ensures WalIsTail(sys, reply.to.run) && reply.ack <= HighWater(sys, sys.agent.leases[reply.to.run].lease)
    ensures HighWater(sys, sys.agent.leases[reply.to.run].lease) <= |Produced(sys, reply.to.run, reply.to.epoch)|
  {
    var r := reply.to.run;
    assert WalIsTail(sys, r);
    KnownOnce(sys, r, reply.to.lease, sys.agent.leases[r].lease, reply.to.epoch);
    WaterInProduced(sys, r, reply.to.lease, reply.to.epoch);
  }

  lemma GetRenewReplyKeepsInv(sys: System, reply: RenewReply)
    requires Inv(sys) && Allowed(sys, GetRenewReply(reply))
    ensures Inv(sys.(agent := HandleRenewal(sys.agent, reply.to.run, reply.ack, reply.expiresAt)))
  {
    var r := reply.to.run;
    RenewalIsBounded(sys, reply);
    RetouchKeepsInv(sys, r, sys.agent.leases[r].(ack := reply.ack, expiresAt := reply.expiresAt));
  }

  /** What allocation needs of a local high water, exactly: it may not pass what was
      produced, and with nothing queued it must equal it. */
  lemma AllocationExactly(sys: System, r: RunId, ack: nat)
    requires Inv(sys) && r in sys.agent.leases
    ensures var l := sys.agent.leases[r];
      var n := |Produced(sys, r, l.epoch)|;
      NextSequence(sys.agent, r, l.(ack := ack)) == n + 1
      <==> ack <= n && (Unsent(sys, r, l.epoch) == [] ==> ack == n)
  {
    var l := sys.agent.leases[r];
    assert WalIsTail(sys, r) && Numbered(Produced(sys, r, l.epoch));
    MaxOfTail(Produced(sys, r, l.epoch), |Produced(sys, r, l.epoch)| - |Unsent(sys, r, l.epoch)|);
  }

  /** A flush answer of an older epoch that arrives after the Run was claimed again is written
      to the new lease all the same; allocation then is right exactly in the cases above. */
  lemma StaleAckExactly(sys: System, reply: FlushReply)
    requires Inv(sys) && reply in sys.flushReplies && reply.to.run in sys.agent.leases
    requires sys.agent.leases[reply.to.run].epoch != reply.to.epoch
    ensures var r, l := reply.to.run, sys.agent.leases[reply.to.run];
      var b := HandleAck(sys.agent, r, reply.to.epoch, reply.to.sent, reply.ack, reply.terminal);
      var n := |Produced(sys, r, l.epoch)|;
      r in b.leases && b.leases[r].ack == reply.ack && b.leases[r].epoch == l.epoch
      && (NextSequence(b, r, b.leases[r]) == n + 1
          <==> reply.ack <= n && (Unsent(sys, r, l.epoch) == [] ==> reply.ack == n))
  {
    var r, l := reply.to.run, sys.agent.leases[reply.to.run];
    assert FlushReplySound(sys, reply);
    PruneLog(sys.agent.wal, r, reply.to.epoch, reply.ack, r, l.epoch);
    AllocationExactly(sys, r, reply.ack);
  }

  /** Taking a renewal answer keeps allocation right exactly when no flush answer
      has overtaken it; otherwise the next event reuses a committed sequence. */
  lemma RenewalSafeExactly(sys: System, reply: RenewReply)
    requires Inv(sys) && reply in sys.renewReplies && SameEpoch(sys.agent, reply.to.run, reply.to.epoch)
    ensures var r, b := reply.to.run, HandleRenewal(sys.agent, reply.to.run, reply.ack, reply.expiresAt);
      var next := NextSequence(b, r, b.leases[r]);
      if NotOvertaken(sys.agent, r, reply.ack) then next == |Produced(sys, r, reply.to.epoch)| + 1
      else next <= HighWater(sys, sys.agent.leases[r].lease)
  {
    var r := reply.to.run;
    RenewalIsBounded(sys, reply);
    AllocationExactly(sys, r, reply.ack);
    assert Unsent(sys, r, reply.to.epoch) == [] ==> MaxSequence(Unsent(sys, r, reply.to.epoch)) == 0;
  }

  // ------------------------------------------------------- fencing, clearing

  lemma RetouchKeepsInv(sys: System, r: RunId, l: LocalLease)
    requires Inv(sys) && r in sys.agent.leases && l.epoch == sys.agent.leases[r].epoch && LeaseTail(sys, r, l)
    ensures Inv(sys.(agent := sys.agent.(leases := sys.agent.leases[r := l])))
  {
    RetouchKeepsTails(sys, r, l);
    RowsOfLeasesMove(sys, sys.(agent := sys.agent.(leases := sys.agent.leases[r := l])));
  }

  lemma FenceKeepsInv(sys: System, r: RunId)
    requires Inv(sys)
    ensures Inv(sys.(agent := Mark(sys.agent, r, LocalFenced)))
  {
    if r in sys.agent.leases {
      var l := sys.agent.leases[r];
      assert WalIsTail(sys, r) && LeaseTail(sys, r, l.(status := LocalFenced));
      RetouchKeepsInv(sys, r, l.(status := LocalFenced));
    } else {
      assert sys.(agent := Mark(sys.agent, r, LocalFenced)) == sys;
    }
  }

  lemma FewerLeasesKeepTails(sys: System, next: System)
    requires WalsAreTails(sys) && next == sys.(agent := sys.agent.(leases := next.agent.leases))
    requires forall r :: r in next.agent.leases ==> r in sys.agent.leases && next.agent.leases[r] == sys.agent.leases[r]
    ensures WalsAreTails(next)
  {}

  lemma ClearKeepsInv(sys: System)
    requires Inv(sys)
    ensures Inv(sys.(agent := ClearCompleted(sys.agent)))
  {
    FewerLeasesKeepTails(sys, sys.(agent := ClearCompleted(sys.agent)));
    RowsOfLeasesMove(sys, sys.(agent := ClearCompleted(sys.agent)));
  }

  lemma RestartKeepsInv(sys: System, order: seq<RunId>)
    requires Inv(sys)
    ensures Inv(sys.(agent := RetireAll(sys.agent, order), waiting := map[]))
  {
    var mid := sys.(waiting := map[]);
    WaitForLess(sys, mid);
    RetireAllKeepsInv(mid, order);
  }

  // ------------------------------------------------------------- every move

  lemma MoveKeepsInv(sys: System, m: Move, now: Time)
    requires Inv(sys) && Allowed(sys, m)
    ensures Inv(Do(sys, m, now))
  {
    match m
    case Elsewhere(tx) => ElsewhereKeepsInv(sys, tx, now);
    case ServeClaim(caps, seconds) => ClaimKeepsInv(sys, caps, seconds, now);
    case GetLease(g) => GetLeaseKeepsInv(sys, g);
    case Append(r, kind, payload, at, limit) => AppendKeepsInv(sys, r, kind, payload, at, limit);
    case SendFlush(r, batch) => SendFlushKeepsInv(sys, r, batch);
    case ServeFlush(q) => ServeFlushKeepsInv(sys, q, now);
    case GetFlushReply(reply) => GetFlushReplyKeepsInv(sys, reply);
    case GiveUp(r) => WaitForLess(sys, Do(sys, m, now));
    case SendRenewal(r) => SendRenewalKeepsInv(sys, r);
    case ServeRenewal(q, seconds) => ServeRenewalKeepsInv(sys, q, seconds, now);
    case GetRenewReply(reply) => GetRenewReplyKeepsInv(sys, reply);
    case Fence(r) => FenceKeepsInv(sys, r);
    case Clear => ClearKeepsInv(sys);
    case Restart(order) => RestartKeepsInv(sys, order);
  }
}
