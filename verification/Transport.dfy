/**
  One Local Agent against the Server and everything else the Server does.
  Requests sit in a bag: they may be lost, delayed, duplicated or reordered.
  Answers may be lost or delayed; the agent gives up on a flush at any time.
*/
module Transport {
  import opened Wrappers
  import opened RunTypes
  import opened EventLog
  import opened RunProtocol
  import opened LocalAgent
  import Ledger

  datatype FlushRequest = FlushRequest(run: RunId, lease: LeaseId, epoch: nat, sent: nat, rows: seq<Record>)

  datatype RenewRequest = RenewRequest(run: RunId, lease: LeaseId, epoch: nat)

  datatype LeaseReply = LeaseReply(run: RunId, lease: LeaseId, epoch: nat, expiresAt: Time)

  datatype FlushReply = FlushReply(to: FlushRequest, ack: nat, terminal: bool)

  datatype RenewReply = RenewReply(to: RenewRequest, ack: nat, expiresAt: Time)

  /** `produced` is the history of every row `append_event` ever returned. */
  datatype System = System(
    server: Server, agent: Agent, produced: seq<Record>,
    grants: set<LeaseReply>,
    flushes: set<FlushRequest>, flushReplies: set<FlushReply>, waiting: map<RunId, FlushRequest>,
    renewals: set<RenewRequest>, renewReplies: set<RenewReply>)

  datatype Move =
    | Elsewhere(tx: Transaction)
    | ServeClaim(caps: Capabilities, seconds: int)
    | GetLease(grant: LeaseReply)
    | Append(run: RunId, kind: EventKind, payload: Payload, at: Time, limit: nat)
    | SendFlush(run: RunId, batch: int)
    | ServeFlush(flush: FlushRequest)
    | GetFlushReply(reply: FlushReply)
    | GiveUp(run: RunId)
    | SendRenewal(run: RunId)
    | ServeRenewal(renewal: RenewRequest, seconds: int)
    | GetRenewReply(renewed: RenewReply)
    | Fence(run: RunId)
    | Clear
    | Restart(order: seq<RunId>)

  function Me(sys: System, caps: Capabilities): Principal {
    Principal(sys.agent.device, sys.agent.owner, caps)
  }

  const NO_CAPS := Capabilities({}, None, None)

  function ToMessage(row: Record): EventMessage {
    EventMessage(row.id, row.env.sequence, row.env.kind, row.env.occurredAt, row.env.payload, row.env)
  }

  function ToMessages(rows: seq<Record>): (ms: seq<EventMessage>)
    ensures |ms| == |rows|
    ensures forall k :: 0 <= k < |rows| ==> ms[k] == ToMessage(rows[k])
  {
    if |rows| == 0 then [] else [ToMessage(rows[0])] + ToMessages(rows[1..])
  }

  /** A transaction some other party runs: not this device, nor with its event ids. */
  predicate NotOurs(tx: Transaction, d: DeviceId) {
    match tx
    case Claim(who, _) => who.device != d
    case Submit(who, _, _, _, events) =>
      who.device != d && forall k :: 0 <= k < |events| ==> events[k].id.drawnBy != d
    case _ => true
  }

  /** The answer applies to the lease the agent still holds. */
  predicate SameEpoch(a: Agent, r: RunId, epoch: nat) { r in a.leases && a.leases[r].epoch == epoch }

  /** A renewal answer that no flush answer has overtaken. */
  predicate NotOvertaken(a: Agent, r: RunId, ack: nat) {
    r in a.leases && (EpochLog(a.wal, r, a.leases[r].epoch) == [] ==> ack >= a.leases[r].ack)
  }

  predicate Allowed(sys: System, m: Move) {
    var a := sys.agent;
    match m
    case Elsewhere(tx) => NotOurs(tx, a.device)
    case GetLease(g) => g in sys.grants
    case SendFlush(r, _) =>
      r in a.leases && a.leases[r].status.LocalActive? && r !in sys.waiting
      && EpochLog(a.wal, r, a.leases[r].epoch) != []
    case ServeFlush(q) => q in sys.flushes
    case GetFlushReply(reply) =>
      reply in sys.flushReplies && reply.to.run in sys.waiting && sys.waiting[reply.to.run] == reply.to
      && SameEpoch(a, reply.to.run, reply.to.epoch)
    case SendRenewal(r) => r in a.leases && a.leases[r].status.LocalActive?
    case ServeRenewal(q, _) => q in sys.renewals
    case GetRenewReply(reply) =>
      reply in sys.renewReplies && SameEpoch(a, reply.to.run, reply.to.epoch) && NotOvertaken(a, reply.to.run, reply.ack)
    case _ => true
  }

  function RequestFor(a: Agent, r: RunId, batch: int): FlushRequest
    requires r in a.leases
  {
    FlushRequest(r, a.leases[r].lease, a.leases[r].epoch, a.leases[r].ack, FlushRows(a, r, a.leases[r], batch))
  }

  function Serve(sys: System, q: FlushRequest, now: Time): (Server, Result<SubmitReply, ProtocolError>) {
    SubmitEvents(sys.server, Me(sys, NO_CAPS), q.run, q.lease, q.epoch, ToMessages(q.rows), now)
  }

  function Without<V>(m: map<RunId, V>, r: RunId): map<RunId, V> { map q | q in m && q != r :: m[q] }

  /** The Server answered a claim. */
  function Claimed(sys: System, t: Server, granted: Option<LeaseId>): System {
    if granted.Some? && granted.value < |t.leases|
    then sys.(server := t, grants := sys.grants + {ReplyFor(t, granted.value)})
    else sys.(server := t)
  }

  function ReplyFor(t: Server, i: LeaseId): LeaseReply
    requires i < |t.leases|
  {
    LeaseReply(t.leases[i].grant.run, i, t.leases[i].grant.epoch, t.leases[i].expiresAt)
  }

  /** The agent recorded a grant, or refused one that moves backwards. */
  function Taken(sys: System, g: LeaseReply): System {
    match RecordLease(sys.agent, g.run, g.lease, g.epoch, g.expiresAt, 0)
    case Success(b) => sys.(agent := b, grants := sys.grants - {g})
    case Failure(_) => sys.(grants := sys.grants - {g})
  }

  function Extended(sys: System, out: Result<(Agent, Record), AppendError>): System {
    if out.Success? then sys.(agent := out.value.0, produced := sys.produced + [out.value.1]) else sys
  }

  function Sent(sys: System, q: FlushRequest): System {
    sys.(flushes := sys.flushes + {q}, waiting := sys.waiting[q.run := q])
  }

  /** The Server answered a flush. */
  function Answered(sys: System, q: FlushRequest, t: Server, out: Result<SubmitReply, ProtocolError>): System {
    if out.Success?
    then sys.(server := t, flushReplies := sys.flushReplies + {FlushReply(q, out.value.ack, out.value.terminal.Some?)})
    else sys.(server := t)
  }

  /** The agent took in the answer to its flush. */
  function TookAck(sys: System, reply: FlushReply): System {
    sys.(agent := HandleAck(sys.agent, reply.to.run, reply.to.epoch, reply.to.sent, reply.ack, reply.terminal),
         waiting := Without(sys.waiting, reply.to.run))
  }

  /** The Server answered a renewal. */
  function Renewed(sys: System, q: RenewRequest, t: Server, out: Result<nat, ProtocolError>): System {
    if out.Success? && q.lease < |t.leases|
    then sys.(server := t, renewReplies := sys.renewReplies + {RenewReply(q, out.value, t.leases[q.lease].expiresAt)})
    else sys.(server := t)
  }

  function ServeRenew(sys: System, q: RenewRequest, seconds: int, now: Time): (Server, Result<nat, ProtocolError>) {
    RenewLease(sys.server, Me(sys, NO_CAPS), q.run, q.lease, q.epoch, seconds, now)
  }

  function Do(sys: System, m: Move, now: Time): System
    requires Allowed(sys, m)
  {
    var a := sys.agent;
    match m
    case Elsewhere(tx) => sys.(server := Perform(sys.server, tx, now))
    case ServeClaim(caps, seconds) =>
      var out := LeaseRun(sys.server, Me(sys, caps), seconds, now);
      Claimed(sys, out.0, out.1)
    case GetLease(g) => Taken(sys, g)
    case Append(r, kind, payload, at, limit) => Extended(sys, AppendEvent(a, r, kind, payload, at, limit))
    case SendFlush(r, batch) => Sent(sys, RequestFor(a, r, batch))
    case ServeFlush(q) => Answered(sys, q, Serve(sys, q, now).0, Serve(sys, q, now).1)
    case GetFlushReply(reply) => TookAck(sys, reply)
    case GiveUp(r) => sys.(waiting := Without(sys.waiting, r))
    case SendRenewal(r) => sys.(renewals := sys.renewals + {RenewRequest(r, a.leases[r].lease, a.leases[r].epoch)})
    case ServeRenewal(q, seconds) => Renewed(sys, q, ServeRenew(sys, q, seconds, now).0, ServeRenew(sys, q, seconds, now).1)
    case GetRenewReply(reply) => sys.(agent := HandleRenewal(a, reply.to.run, reply.ack, reply.expiresAt))
    case Fence(r) => sys.(agent := Mark(a, r, LocalFenced))
    case Clear => sys.(agent := ClearCompleted(a))
    case Restart(order) => sys.(agent := RetireAll(a, order), waiting := map[])
  }

  // ---------------------------------------------------------------- invariant

  /** The lease row the agent names is its own grant of that Run and epoch. */
  ghost predicate Knows(sys: System, r: RunId, i: LeaseId, epoch: nat) {
    i < |sys.server.leases| && sys.server.leases[i].grant == Grant(r, sys.agent.owner, sys.agent.device, epoch)
  }

  function Produced(sys: System, r: RunId, epoch: nat): seq<Record> { EpochLog(sys.produced, r, epoch) }

  /** The server's high water for a lease. */
  function HighWater(sys: System, i: LeaseId): nat {
    if i < |sys.server.leases| then sys.server.leases[i].ack else 0
  }

  ghost predicate RowProduced(sys: System, e: Record) {
    && e.env.device == sys.agent.device && e.id.drawnBy == sys.agent.device && e.id.draw < sys.agent.draws
    && e.env.payload.bytes <= MAX_EVENT_BYTES && !e.env.payload.secret
    && Knows(sys, e.env.run, e.lease, e.env.epoch)
  }

  ghost predicate RowsProduced(sys: System) {
    (forall j :: 0 <= j < |sys.produced| ==> RowProduced(sys, sys.produced[j]))
    && Ledger.IdsDistinct(sys.produced)
  }

  ghost predicate AllNumbered(produced: seq<Record>) {
    forall r, epoch :: Numbered(EpochLog(produced, r, epoch))
  }

  /** What the Server committed of this device is the front of what was produced. */
  ghost predicate LeasePrefix(sys: System, i: LeaseId)
    requires i < |sys.server.leases|
  {
    var g := sys.server.leases[i].grant;
    g.device == sys.agent.device ==>
      EpochLog(sys.server.events, g.run, g.epoch) <= Produced(sys, g.run, g.epoch)
  }

  ghost predicate CommittedIsPrefix(sys: System) {
    (forall i :: 0 <= i < |sys.server.leases| ==> LeasePrefix(sys, i))
    && (forall j :: 0 <= j < |sys.server.events| && sys.server.events[j].id.drawnBy == sys.agent.device ==>
          sys.server.events[j] in sys.produced)
  }

  /** w is the tail of p, starting at or below the Server's high water; the local
      high water is no higher, and with nothing queued it counts everything produced. */
  ghost predicate Tail(w: seq<Record>, p: seq<Record>, ack: nat, water: nat) {
    && ack <= water && |w| <= |p| && w == p[|p| - |w|..] && |p| - |w| <= water
    && (|w| == 0 ==> ack == |p|)
  }

  function Unsent(sys: System, r: RunId, epoch: nat): seq<Record> { EpochLog(sys.agent.wal, r, epoch) }

  ghost predicate LeaseTail(sys: System, r: RunId, l: LocalLease) {
    Knows(sys, r, l.lease, l.epoch) && Tail(Unsent(sys, r, l.epoch), Produced(sys, r, l.epoch), l.ack, HighWater(sys, l.lease))
  }

  ghost predicate WalIsTail(sys: System, r: RunId)
    requires r in sys.agent.leases
  {
    LeaseTail(sys, r, sys.agent.leases[r])
  }

  ghost predicate WalsAreTails(sys: System) {
    forall r :: r in sys.agent.leases ==> WalIsTail(sys, r)
  }

  /** Every produced row is still queued, archived, or committed as it was. */
  ghost predicate NothingLost(sys: System) {
    && (forall e :: e in sys.produced ==> e in sys.agent.wal || e in sys.agent.archive || e in sys.server.events)
    && (forall e :: e in sys.agent.wal ==> e in sys.produced)
    && (forall e :: e in sys.agent.archive ==> e in sys.produced)
  }

  ghost predicate GrantFresh(sys: System, g: LeaseReply) {
    Knows(sys, g.run, g.lease, g.epoch) && Produced(sys, g.run, g.epoch) == [] && !SameEpoch(sys.agent, g.run, g.epoch)
  }

  ghost predicate GrantsFresh(sys: System) {
    (forall g :: g in sys.grants ==> GrantFresh(sys, g))
    && (forall g, f :: g in sys.grants && f in sys.grants && g.lease == f.lease ==> g == f)
  }

  /** A request carries a slice of what was produced that starts inside what is committed. */
  ghost predicate FlushSound(sys: System, q: FlushRequest) {
    && Knows(sys, q.run, q.lease, q.epoch) && q.sent <= HighWater(sys, q.lease) && |q.rows| > 0
    && var p, from := Produced(sys, q.run, q.epoch), q.rows[0].env.sequence - 1;
       0 <= from <= HighWater(sys, q.lease) && from + |q.rows| <= |p| && q.rows == p[from..from + |q.rows|]
  }

  ghost predicate FlushesSound(sys: System) {
    forall q :: q in sys.flushes ==> FlushSound(sys, q)
  }

  ghost predicate FlushReplySound(sys: System, reply: FlushReply) {
    reply.to in sys.flushes && |reply.to.rows| > 0 && reply.ack <= HighWater(sys, reply.to.lease)
    && reply.to.sent <= reply.ack && reply.to.rows[0].env.sequence - 1 + |reply.to.rows| <= reply.ack
  }

  ghost predicate FlushRepliesSound(sys: System) {
    forall reply :: reply in sys.flushReplies ==> FlushReplySound(sys, reply)
  }

  /** The flush in progress was cut from the front of the WAL as it still is. */
  ghost predicate WaitingSound(sys: System, r: RunId)
    requires r in sys.waiting
  {
    var q := sys.waiting[r];
    q.run == r && q in sys.flushes
    && (SameEpoch(sys.agent, r, q.epoch) ==> q.rows <= Unsent(sys, r, q.epoch))
  }

  ghost predicate AllWaitingSound(sys: System) {
    forall r :: r in sys.waiting ==> WaitingSound(sys, r)
  }

  ghost predicate RenewalsSound(sys: System) {
    (forall q :: q in sys.renewals ==> Knows(sys, q.run, q.lease, q.epoch))
    && (forall reply :: reply in sys.renewReplies ==>
          Knows(sys, reply.to.run, reply.to.lease, reply.to.epoch) && reply.ack <= HighWater(sys, reply.to.lease))
  }

  ghost predicate Inv(sys: System) {
    && Ledger.Valid(sys.server) && RowsProduced(sys) && AllNumbered(sys.produced) && CommittedIsPrefix(sys)
    && WalsAreTails(sys) && NothingLost(sys) && GrantsFresh(sys)
    && FlushesSound(sys) && FlushRepliesSound(sys) && AllWaitingSound(sys) && RenewalsSound(sys)
  }

  // ------------------------------------------------- steps of the Server alone

  /** The Server moved, nothing of this device's was taken back, and its logs are prefixes again. */
  ghost predicate ServerMoved(sys: System, t: Server) {
    Ledger.Valid(t) && Ledger.Extends(sys.server, t) && CommittedIsPrefix(sys.(server := t))
  }

  /** Grants stand and high waters only rise. */
  ghost predicate WatersRise(s: Server, t: Server) {
    |s.leases| <= |t.leases|
    && forall i :: 0 <= i < |s.leases| ==> t.leases[i].grant == s.leases[i].grant && s.leases[i].ack <= t.leases[i].ack
  }

  lemma ExtendsRaises(s: Server, t: Server)
    requires Ledger.Extends(s, t)
    ensures WatersRise(s, t)
  {
    forall i | 0 <= i < |s.leases|
      ensures t.leases[i].grant == s.leases[i].grant && s.leases[i].ack <= t.leases[i].ack
    {
      assert Ledger.LeaseKept(s.leases[i], t.leases[i]);
    }
  }

  lemma RisingKeepsRows(sys: System, t: Server)
    requires WatersRise(sys.server, t) && RowsProduced(sys) && WalsAreTails(sys) && GrantsFresh(sys)
    ensures RowsProduced(sys.(server := t)) && WalsAreTails(sys.(server := t)) && GrantsFresh(sys.(server := t))
  {
    var next := sys.(server := t);
    forall j | 0 <= j < |next.produced| ensures RowProduced(next, next.produced[j]) {
      assert RowProduced(sys, sys.produced[j]);
    }
    forall r | r in next.agent.leases ensures WalIsTail(next, r) { assert WalIsTail(sys, r); }
    forall g | g in next.grants ensures GrantFresh(next, g) { assert GrantFresh(sys, g); }
  }

  lemma RisingKeepsRequests(sys: System, t: Server)
    requires WatersRise(sys.server, t)
    requires FlushesSound(sys) && FlushRepliesSound(sys) && AllWaitingSound(sys) && RenewalsSound(sys)
    ensures var next := sys.(server := t);
      FlushesSound(next) && FlushRepliesSound(next) && AllWaitingSound(next) && RenewalsSound(next)
  {
    var next := sys.(server := t);
    forall q | q in next.flushes ensures FlushSound(next, q) { assert FlushSound(sys, q); }
    forall reply | reply in next.flushReplies ensures FlushReplySound(next, reply) {
      assert FlushReplySound(sys, reply) && FlushSound(sys, reply.to);
    }
    forall r | r in next.waiting ensures WaitingSound(next, r) { assert WaitingSound(sys, r); }
  }

  lemma ServerMoveKeepsInv(sys: System, t: Server)
    requires Inv(sys) && ServerMoved(sys, t)
    ensures Inv(sys.(server := t))
  {
    ExtendsRaises(sys.server, t);
    RisingKeepsRows(sys, t);
    RisingKeepsRequests(sys, t);
    forall e | e in sys.server.events ensures e in t.events {
      var j :| 0 <= j < |sys.server.events| && sys.server.events[j] == e;
      assert t.events[j] == e;
    }
  }

  /** A lease row this device was never granted has nothing produced for it. */
  lemma UngrantedIsUnproduced(sys: System, t: Server, i: LeaseId)
    requires Inv(sys) && Ledger.Valid(t) && Ledger.Extends(sys.server, t)
    requires |sys.server.leases| <= i < |t.leases|
    ensures Produced(sys, t.leases[i].grant.run, t.leases[i].grant.epoch) == []
  {
    var g := t.leases[i].grant;
    forall j | 0 <= j < |sys.produced| ensures !InEpoch(sys.produced[j], g.run, g.epoch) {
      var e := sys.produced[j];
      assert RowProduced(sys, e);
      assert Ledger.LeaseKept(sys.server.leases[e.lease], t.leases[e.lease]);
    }
    EpochLogNone(sys.produced, g.run, g.epoch);
  }

  /** The high water of a lease is the length of its committed log. */
  lemma HighWaterIsLength(s: Server, i: LeaseId)
    requires Ledger.Valid(s) && i < |s.leases|
    ensures |EpochLog(s.events, s.leases[i].grant.run, s.leases[i].grant.epoch)| == s.leases[i].ack
  {
    assert Ledger.GapFree(s.leases[i], s.events);
  }

  /** If the high water of a lease did not move, neither did its log. */
  lemma StillLog(s: Server, t: Server, i: LeaseId)
    requires Ledger.Valid(s) && Ledger.Valid(t) && Ledger.Extends(s, t) && i < |s.leases|
    requires t.leases[i].ack == s.leases[i].ack
    ensures EpochLog(t.events, t.leases[i].grant.run, t.leases[i].grant.epoch)
         == EpochLog(s.events, s.leases[i].grant.run, s.leases[i].grant.epoch)
  {
    assert Ledger.LeaseKept(s.leases[i], t.leases[i]);
    HighWaterIsLength(s, i);
    HighWaterIsLength(t, i);
    EpochLogExtends(s.events, t.events, s.leases[i].grant.run, s.leases[i].grant.epoch);
  }

  /** A step of someone else: this device's high waters stand, new rows carry others' ids. */
  ghost predicate ForeignStep(s: Server, t: Server, d: DeviceId) {
    && (forall i :: 0 <= i < |s.leases| && i < |t.leases| && s.leases[i].grant.device == d ==> t.leases[i].ack == s.leases[i].ack)
    && (forall i :: |s.leases| <= i < |t.leases| ==> t.leases[i].ack == 0)
    && (forall j :: |s.events| <= j < |t.events| ==> t.events[j].id.drawnBy != d)
  }

  lemma ForeignStepMoves(sys: System, t: Server)
    requires Inv(sys) && Ledger.Valid(t) && Ledger.Extends(sys.server, t) && ForeignStep(sys.server, t, sys.agent.device)
    ensures ServerMoved(sys, t)
  {
    var next := sys.(server := t);
    forall i | 0 <= i < |t.leases| ensures LeasePrefix(next, i) {
      if i < |sys.server.leases| {
        assert LeasePrefix(sys, i) && Ledger.LeaseKept(sys.server.leases[i], t.leases[i]);
        if t.leases[i].grant.device == sys.agent.device { StillLog(sys.server, t, i); }
      } else {
        HighWaterIsLength(t, i);
      }
    }
    forall j | 0 <= j < |t.events| && t.events[j].id.drawnBy == sys.agent.device ensures t.events[j] in sys.produced {
      assert t.events[j] == sys.server.events[j];
    }
  }
}
