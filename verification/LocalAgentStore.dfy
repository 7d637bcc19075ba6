/**
  The Local Agent's tables in place: leases, the durable WAL and the archive of
  superseded events, each statement proved against the functions of `LocalAgent`.
*/
module LocalAgentStore {
  import opened Wrappers
  import opened RunTypes
  import opened EventLog
  import opened LocalAgent

  class LocalAgentStore {
    const device: DeviceId
    const owner: OwnerId
    var leases: map<RunId, LocalLease>
    var wal: seq<Record>
    var archive: seq<Record>
    var draws: nat

    function State(): Agent
      reads this
    {
      Agent(device, owner, leases, wal, archive, draws)
    }

    constructor (device: DeviceId, owner: OwnerId)
      ensures State() == Agent(device, owner, map[], [], [], 0)
    {
      this.device, this.owner := device, owner;
      leases, wal, archive, draws := map[], [], [], 0;
    }

    /** Moves rows fenced by a higher epoch out of the retry queue. */
    method RetireSupersededWal(r: RunId, epoch: nat) returns (moved: nat)
      modifies this`wal, this`archive
      ensures State() == Retire(old(State()), r, epoch)
      ensures moved == |old(wal)| - |wal|
    {
      archive := Archive(archive, wal, r, epoch);
      DropArchivedShrinks(wal, archive, r, epoch);
      var kept := DropArchived(wal, archive, r, epoch);
      moved := |wal| - |kept|;
      wal := kept;
    }

    method RecordLease(r: RunId, lease: LeaseId, epoch: nat, expiresAt: Time, ack: nat)
      returns (out: Result<(), AppendError>)
      modifies this`wal, this`archive, this`leases
      ensures var spec := LocalAgent.RecordLease(old(State()), r, lease, epoch, expiresAt, ack);
        if out.Success? then spec == Success(State()) else spec == Failure(out.error) && State() == old(State())
    {
      if r in leases && epoch < leases[r].epoch { return Failure(LeaseFenced); }
      var _ := RetireSupersededWal(r, epoch);
      leases := leases[r := LocalLease(lease, epoch, expiresAt, ack, LocalActive)];
      return Success(());
    }

    method AppendEvent(r: RunId, kind: EventKind, payload: Payload, at: Time, limit: nat)
      returns (out: Result<Record, AppendError>)
      modifies this`wal, this`draws
      ensures var spec := LocalAgent.AppendEvent(old(State()), r, kind, payload, at, limit);
        if out.Success? then spec == Success((State(), out.value))
        else spec == Failure(out.error) && State() == old(State())
    {
      if payload.bytes > MAX_EVENT_BYTES { return Failure(TooLarge); }
      if payload.secret { return Failure(HasSecret); }
      if r !in leases || !leases[r].status.LocalActive? { return Failure(LeaseFenced); }
      var lease := leases[r];
      var sequence := MaxSequence(EpochLog(wal, r, lease.epoch)) + 1;
      if sequence < lease.ack + 1 { sequence := lease.ack + 1; }
      var row := Record(EventId(device, draws), lease.lease,
                        Envelope(r, device, lease.epoch, sequence, kind, at, payload));
      if WalBytes(wal) + RowBytes(row) > limit { return Failure(WalFull); }
      wal, draws := wal + [row], draws + 1;
      return Success(row);
    }

    method MarkTransportError(r: RunId, status: LocalStatus)
      modifies this`leases
      ensures State() == Mark(old(State()), r, status)
    {
      if r in leases { leases := leases[r := leases[r].(status := status)]; }
    }

    /** Flushes every listed lease once.  The rows are the active leases in the order they were
        read; the network's answers are a parameter. */
    method FlushWal(due: seq<Due>, batch: int) returns (acknowledged: nat, pending: nat)
      modifies this`wal, this`leases
      ensures State() == FlushEach(old(State()), due, batch)
      ensures acknowledged == |old(wal)| - |wal| && pending == |wal|
    {
      acknowledged := 0;
      var k := 0;
      ghost var begun := State();
      while k < |due|
        invariant k <= |due| && |wal| + acknowledged == |begun.wal|
        invariant FlushEach(State(), due[k..], batch) == FlushEach(begun, due, batch)
      {
        var d := due[k];
        assert due[k..][0] == d && due[k..][1..] == due[k + 1..];
        k := k + 1;
        var rows := FlushRows(State(), d.run, d.lease, batch);
        if rows == [] { continue; }
        match d.answer
        case Unauthorized => break;
        case NoAnswer => continue;
        case Gap(expected) =>
          if !HasSequence(rows, expected) { MarkTransportError(d.run, LocalFenced); }
        case Rejected =>
          MarkTransportError(d.run, LocalFenced);
        case Accepted(ack, terminal) =>
          if ack < d.lease.ack {
            MarkTransportError(d.run, LocalFenced);
          } else {
            var kept := Prune(wal, d.run, d.lease.epoch, ack);
            acknowledged := acknowledged + |wal| - |kept|;
            wal := kept;
            if d.run in leases {
              var status := if terminal then LocalCompleted else LocalActive;
              leases := leases[d.run := leases[d.run].(ack := ack, status := status)];
            }
          }
      }
      pending := |wal|;
    }

    method RenewLease(r: RunId, answer: Option<(nat, Time)>, refused: bool, now: Time)
      returns (out: Result<(), AppendError>)
      modifies this`leases
      ensures r !in old(leases) || !old(leases)[r].status.LocalActive? ==> out.Failure? && State() == old(State())
      ensures r in old(leases) && old(leases)[r].status.LocalActive? ==>
        if answer.Some? && !refused
        then out.Success? && State() == HandleRenewal(old(State()), r, answer.value.0, answer.value.1)
        else if refused || old(leases)[r].expiresAt <= now + 5
        then out.Failure? && State() == Mark(old(State()), r, LocalFenced)
        else out.Success? && State() == old(State())
    {
      if r !in leases || !leases[r].status.LocalActive? { return Failure(LeaseFenced); }
      if answer.None? || refused {
        if refused || leases[r].expiresAt <= now + 5 {
          MarkTransportError(r, LocalFenced);
          return Failure(LeaseFenced);
        }
        return Success(());
      }
      leases := leases[r := leases[r].(ack := answer.value.0, expiresAt := answer.value.1)];
      return Success(());
    }

    /** Forgets leases that ended and have nothing left to send. */
    method ClearCompletedTransport()
      modifies this`leases
      ensures State() == ClearCompleted(old(State()))
    {
      leases := map r | r in leases && !Clearable(State(), r) :: leases[r];
    }

    /** The pass at start-up over the lease rows. */
    method InitDb(order: seq<RunId>)
      modifies this`wal, this`archive
      ensures State() == RetireAll(old(State()), order)
    {
      ghost var begun := State();
      for k := 0 to |order|
        invariant State() == RetireAll(begun, order[..k]) && leases == begun.leases
      {
        assert order[..k + 1][..k] == order[..k];
        if order[k] in leases {
          var _ := RetireSupersededWal(order[k], leases[order[k]].epoch);
        }
      }
      assert order[..|order|] == order;
    }
  }

  lemma {:induction false} DropArchivedShrinks(wal: seq<Record>, archive: seq<Record>, r: RunId, epoch: nat)
    ensures |DropArchived(wal, archive, r, epoch)| <= |wal|
  {
    if |wal| > 0 { DropArchivedShrinks(wal[..|wal| - 1], archive, r, epoch); }
  }
}
