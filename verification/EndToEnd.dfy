/**
  Both ends together over whole runs: any interleaving of this device's steps,
  the Server's answers and everybody else's transactions.
*/
module EndToEnd {
  import opened Wrappers
  import opened RunTypes
  import opened EventLog
  import opened RunProtocol
  import opened LocalAgent
  import opened Transport
  import opened TransportServer
  import opened TransportAgent
  import Ledger

  datatype Act = Act(move: Move, at: Time)

  /** Nothing granted, appended or sent yet, against tables already in use. */
  function Fresh(server: Server, device: DeviceId, owner: OwnerId): System {
    System(server, Agent(device, owner, map[], [], [], 0), [], {}, {}, {}, map[], {}, {})
  }

  /** The device is new to the tables: it holds no lease there and wrote no event. */
  ghost predicate NewDevice(server: Server, device: DeviceId) {
    && (forall i :: 0 <= i < |server.leases| ==> server.leases[i].grant.device != device)
    && (forall j :: 0 <= j < |server.events| ==> server.events[j].id.drawnBy != device)
  }

  /** The state after the acts, unless one of them was not possible when it was taken. */
  ghost function Play(sys: System, acts: seq<Act>): Option<System> {
    if |acts| == 0 then Some(sys)
    else
      var last := acts[|acts| - 1];
      match Play(sys, acts[..|acts| - 1])
      case None => None
      case Some(before) => if Allowed(before, last.move) then Some(Do(before, last.move, last.at)) else None
  }

  /** `now` can be reached from a new device against tables already in use. */
  ghost predicate Reaches(server: Server, device: DeviceId, owner: OwnerId, acts: seq<Act>, now: System) {
    Ledger.Valid(server) && NewDevice(server, device) && Play(Fresh(server, device, owner), acts) == Some(now)
  }

  lemma FreshIsInv(server: Server, device: DeviceId, owner: OwnerId)
    requires Ledger.Valid(server) && NewDevice(server, device)
    ensures Inv(Fresh(server, device, owner))
  {}

  lemma {:induction false} InvAlways(sys: System, acts: seq<Act>)
    requires Inv(sys) && Play(sys, acts).Some?
    ensures Inv(Play(sys, acts).value)
  {
    if |acts| > 0 {
      var init, last := acts[..|acts| - 1], acts[|acts| - 1];
      InvAlways(sys, init);
      MoveKeepsInv(Play(sys, init).value, last.move, last.at);
    }
  }

  /** No event is ever lost, and what the Server holds of any Run and epoch of this
      device is the front of what `append_event` produced, row for row. */
  lemma NothingIsEverLost(server: Server, device: DeviceId, owner: OwnerId, acts: seq<Act>, sys: System)
    requires Reaches(server, device, owner, acts, sys)
    ensures Inv(sys) && NothingLost(sys) && CommittedIsPrefix(sys) && AllNumbered(sys.produced)
  {
    FreshIsInv(server, device, owner);
    InvAlways(Fresh(server, device, owner), acts);
  }

  /** Over any run the WAL of a leased epoch is a contiguous tail that starts at or
      below the Server's ACK + 1, and allocation continues it without a gap. */
  lemma WalIsContiguousAlways(server: Server, device: DeviceId, owner: OwnerId, acts: seq<Act>, sys: System, r: RunId)
    requires Reaches(server, device, owner, acts, sys) && r in sys.agent.leases
    ensures Contiguous(sys, r)
  {
    NothingIsEverLost(server, device, owner, acts, sys);
    TailIsContiguous(sys, r);
  }

  ghost predicate Contiguous(sys: System, r: RunId)
    requires r in sys.agent.leases
  {
    var l := sys.agent.leases[r];
    var w := Unsent(sys, r, l.epoch);
    (|w| > 0 ==> w[0].env.sequence <= HighWater(sys, l.lease) + 1)
    && (forall k :: 0 <= k < |w| ==> w[k].env.sequence == NextSequence(sys.agent, r, l) - |w| + k)
  }

  lemma TailIsContiguous(sys: System, r: RunId)
    requires Inv(sys) && r in sys.agent.leases
    ensures Contiguous(sys, r)
  {
    assert WalIsTail(sys, r) && Numbered(Produced(sys, r, sys.agent.leases[r].epoch));
    NextSequenceIsNext(sys, r);
  }

  /** Over any run, whenever a flush request reaches the Server it is accepted, or its
      lease is superseded or over: never a gap, never a reused sequence or id; and the
      ACK sent back is never below the one the device had when it sent the request. */
  lemma FlushesNeverGap(server: Server, device: DeviceId, owner: OwnerId, acts: seq<Act>, sys: System,
                        q: FlushRequest, now: Time)
    requires Reaches(server, device, owner, acts, sys) && q in sys.flushes
    ensures var out := Serve(sys, q, now).1;
      if out.Success? then q.sent <= out.value.ack else out.error == StaleLease || out.error == LeaseInactive
  {
    NothingIsEverLost(server, device, owner, acts, sys);
    CompliantNeverGaps(sys, q, now);
  }

  // ----------------------------------------------- when an answer is overtaken

  /** If the local high water is set where allocation cannot use it, the next event is
      one the Server can never accept: a reused sequence, or a gap. */
  lemma WrongWaterIsRefused(sys: System, r: RunId, ack: nat, x: Record, now: Time)
    requires Inv(sys) && r in sys.agent.leases && Unsent(sys, r, sys.agent.leases[r].epoch) == []
    requires x.id == EventId(sys.agent.device, sys.agent.draws)
    requires x.env.sequence == NextSequence(sys.agent, r, sys.agent.leases[r].(ack := ack))
    requires ack != |Produced(sys, r, sys.agent.leases[r].epoch)|
    ensures var l := sys.agent.leases[r];
      SubmitEvents(sys.server, Me(sys, NO_CAPS), r, l.lease, l.epoch, [ToMessage(x)], now).1.Failure?
  {
    var l := sys.agent.leases[r];
    assert WalIsTail(sys, r);
    WaterInProduced(sys, r, l.lease, l.epoch);
    AllocationExactly(sys, r, ack);
    if CurrentLease(sys.server, Me(sys, NO_CAPS), r, l.lease, l.epoch).Some? {
      var lease := sys.server.leases[l.lease];
      forall j | 0 <= j < |sys.server.events| ensures sys.server.events[j].id != x.id { NewIdIsNew(sys, j); }
      NewIdNeedsNextSequence(Cursor(sys.server, lease.ack, lease.terminal), l.lease, lease, ToMessage(x), now);
    }
  }

  lemma NewIdNeedsNextSequence(c: Cursor, i: LeaseId, lease: Lease, m: EventMessage, now: Time)
    requires i < |c.srv.leases| && lease.grant.run < |c.srv.runs| && m.sequence != c.ack + 1
    requires forall j :: 0 <= j < |c.srv.events| ==> c.srv.events[j].id != m.id
    ensures SubmitAll(c, i, lease, [m], now).Failure?
  {}

  lemma NewIdIsNew(sys: System, j: nat)
    requires Inv(sys) && j < |sys.server.events|
    ensures sys.server.events[j].id != EventId(sys.agent.device, sys.agent.draws)
  {}
}
