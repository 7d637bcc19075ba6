/**
  The Local Agent's transport tables as functions: sequence allocation, the
  durable WAL, flushing, pruning on ACK, and the archive of superseded epochs.
*/
module LocalAgent {
  import opened Wrappers
  import opened RunTypes
  import opened EventLog

  datatype LocalStatus = LocalActive | LocalFenced | LocalCompleted

  datatype LocalLease = LocalLease(lease: LeaseId, epoch: nat, expiresAt: Time, ack: nat, status: LocalStatus)

  /** One device's store; `draws` counts the event ids it has drawn. */
  datatype Agent = Agent(
    device: DeviceId, owner: OwnerId, leases: map<RunId, LocalLease>,
    wal: seq<Record>, archive: seq<Record>, draws: nat)

  datatype AppendError = TooLarge | HasSecret | LeaseFenced | WalFull

  // --------------------------------------------------------------- allocation

  function MaxSequence(rows: seq<Record>): (max: nat)
    ensures forall k :: 0 <= k < |rows| ==> rows[k].env.sequence <= max
  {
    if |rows| == 0 then 0
    else
      var rest := MaxSequence(rows[..|rows| - 1]);
      var last := rows[|rows| - 1].env.sequence;
      if last > rest then last else rest
  }

  /** ACKed rows are deleted, so the high water counts as well. */
  function NextSequence(a: Agent, r: RunId, lease: LocalLease): nat {
    var fromWal := MaxSequence(EpochLog(a.wal, r, lease.epoch)) + 1;
    if fromWal < lease.ack + 1 then lease.ack + 1 else fromWal
  }

  function NameBytes(kind: EventKind): nat {
    match kind
    case RunStarted => 11 case RunWaitingUser => 16 case RunPaused => 10 case RunPauseAck => 13
    case RunCheckpoint => 14 case RunCompleted => 13 case RunFailed => 10 case RunCancelled => 13
    case RunCancelAck => 14 case CommandAck => 11 case UiText => 7 case UiUsage => 8 case UiError => 8
    case UiTrace(_) => 16 case UiOther => 8
  }

  function RowBytes(e: Record): nat { e.env.payload.bytes + NameBytes(e.env.kind) + 256 }

  function WalBytes(wal: seq<Record>): nat {
    if |wal| == 0 then 0 else WalBytes(wal[..|wal| - 1]) + RowBytes(wal[|wal| - 1])
  }

  function NewRow(a: Agent, r: RunId, lease: LocalLease, kind: EventKind, payload: Payload, at: Time): Record {
    Record(EventId(a.device, a.draws), lease.lease,
           Envelope(r, a.device, lease.epoch, NextSequence(a, r, lease), kind, at, payload))
  }

  function AppendEvent(a: Agent, r: RunId, kind: EventKind, payload: Payload, at: Time, limit: nat)
    : Result<(Agent, Record), AppendError>
  {
    if payload.bytes > MAX_EVENT_BYTES then Failure(TooLarge)
    else if payload.secret then Failure(HasSecret)
    else if r !in a.leases || !a.leases[r].status.LocalActive? then Failure(LeaseFenced)
    else
      var row := NewRow(a, r, a.leases[r], kind, payload, at);
      if WalBytes(a.wal) + RowBytes(row) > limit then Failure(WalFull)
      else Success((a.(wal := a.wal + [row], draws := a.draws + 1), row))
  }

  // ----------------------------------------------------------------- retiring

  predicate SupersededBy(e: Record, r: RunId, epoch: nat) { e.env.run == r && e.env.epoch < epoch }

  predicate HasId(rows: seq<Record>, id: EventId) { exists k :: 0 <= k < |rows| && rows[k].id == id }

  /** INSERT OR IGNORE of every superseded row. */
  function Archive(archive: seq<Record>, wal: seq<Record>, r: RunId, epoch: nat): (out: seq<Record>)
    ensures archive <= out
  {
    if |wal| == 0 then archive
    else
      var rest := Archive(archive, wal[..|wal| - 1], r, epoch);
      var last := wal[|wal| - 1];
      if SupersededBy(last, r, epoch) && !HasId(rest, last.id) then rest + [last] else rest
  }

  /** DELETE of the superseded rows the archive now holds. */
  function DropArchived(wal: seq<Record>, archive: seq<Record>, r: RunId, epoch: nat): seq<Record> {
    if |wal| == 0 then []
    else
      var rest := DropArchived(wal[..|wal| - 1], archive, r, epoch);
      var last := wal[|wal| - 1];
      if SupersededBy(last, r, epoch) && HasId(archive, last.id) then rest else rest + [last]
  }

  function Retire(a: Agent, r: RunId, epoch: nat): Agent {
    var archive := Archive(a.archive, a.wal, r, epoch);
    a.(archive := archive, wal := DropArchived(a.wal, archive, r, epoch))
  }

  function RecordLease(a: Agent, r: RunId, lease: LeaseId, epoch: nat, expiresAt: Time, ack: nat)
    : Result<Agent, AppendError>
  {
    if r in a.leases && epoch < a.leases[r].epoch then Failure(LeaseFenced)
    else
      Success(Retire(a, r, epoch).(leases := a.leases[r := LocalLease(lease, epoch, expiresAt, ack, LocalActive)]))
  }

  /** The pass at start-up, over the leases in the order the query returns them. */
  function RetireAll(a: Agent, order: seq<RunId>): Agent {
    if |order| == 0 then a
    else
      var b := RetireAll(a, order[..|order| - 1]);
      var r := order[|order| - 1];
      if r in b.leases then Retire(b, r, b.leases[r].epoch) else b
  }

  // ----------------------------------------------------------------- flushing

  function BatchLimit(n: int): (limit: nat)
    ensures 1 <= limit <= 100 && (1 <= n <= 100 ==> limit == n) && (n > 100 ==> limit == 100)
  {
    if n < 1 then 1 else if n > 100 then 100 else n
  }

  /** The rows a flush of this lease sends: the oldest of the leased epoch. */
  function FlushRows(a: Agent, r: RunId, lease: LocalLease, n: int): (rows: seq<Record>)
    ensures rows <= EpochLog(a.wal, r, lease.epoch) && |rows| <= BatchLimit(n)
    ensures |EpochLog(a.wal, r, lease.epoch)| > 0 ==> |rows| > 0
  {
    var log := EpochLog(a.wal, r, lease.epoch);
    if |log| <= BatchLimit(n) then log else log[..BatchLimit(n)]
  }

  predicate Acked(e: Record, r: RunId, epoch: nat, ack: nat) {
    InEpoch(e, r, epoch) && e.env.sequence <= ack
  }

  function Prune(wal: seq<Record>, r: RunId, epoch: nat, ack: nat): (kept: seq<Record>)
    ensures |kept| <= |wal|
  {
    if |wal| == 0 then []
    else
      var rest := Prune(wal[..|wal| - 1], r, epoch, ack);
      var last := wal[|wal| - 1];
      if Acked(last, r, epoch, ack) then rest else rest + [last]
  }

  function Mark(a: Agent, r: RunId, status: LocalStatus): Agent {
    if r in a.leases then a.(leases := a.leases[r := a.leases[r].(status := status)]) else a
  }

  /** A successful answer to a flush that read `sent` as the local high water. */
  function HandleAck(a: Agent, r: RunId, epoch: nat, sent: nat, ack: nat, terminal: bool): Agent {
    if ack < sent then Mark(a, r, LocalFenced)
    else
      var b := a.(wal := Prune(a.wal, r, epoch, ack));
      if r in b.leases then
        b.(leases := b.leases[r := b.leases[r].(ack := ack, status := if terminal then LocalCompleted else LocalActive)])
      else b
  }

  /** What the Server answered to one flush request. */
  datatype Answer = Accepted(ack: nat, terminal: bool) | Gap(expected: int) | Rejected | Unauthorized | NoAnswer

  predicate HasSequence(rows: seq<Record>, sequence: int) {
    exists k :: 0 <= k < |rows| && rows[k].env.sequence == sequence
  }

  /** The answer to a flush of `rows`, for the lease row read before the loop. */
  function AfterAnswer(a: Agent, r: RunId, lease: LocalLease, rows: seq<Record>, answer: Answer): Agent {
    match answer
    case Accepted(ack, terminal) => HandleAck(a, r, lease.epoch, lease.ack, ack, terminal)
    case Gap(expected) => if HasSequence(rows, expected) then a else Mark(a, r, LocalFenced)
    case Rejected => Mark(a, r, LocalFenced)
    case Unauthorized | NoAnswer => a
  }

  /** One lease row of the flush loop, as read before it, with the answer its request will get. */
  datatype Due = Due(run: RunId, lease: LocalLease, answer: Answer)

  /** The flush loop: one request per lease that has rows, stopping at an expired credential. */
  function FlushEach(a: Agent, due: seq<Due>, batch: int): Agent
    decreases |due|
  {
    if |due| == 0 then a
    else
      var d := due[0];
      var rows := FlushRows(a, d.run, d.lease, batch);
      if rows == [] then FlushEach(a, due[1..], batch)
      else if d.answer.Unauthorized? then a
      else FlushEach(AfterAnswer(a, d.run, d.lease, rows, d.answer), due[1..], batch)
  }

  /** A successful answer to a renewal; the row is found by Run only. */
  function HandleRenewal(a: Agent, r: RunId, ack: nat, expiresAt: Time): Agent {
    if r in a.leases then a.(leases := a.leases[r := a.leases[r].(ack := ack, expiresAt := expiresAt)]) else a
  }

  predicate Clearable(a: Agent, r: RunId) {
    r in a.leases && a.leases[r].status.LocalCompleted?
    && forall k :: 0 <= k < |a.wal| ==> a.wal[k].env.run != r
  }

  function ClearCompleted(a: Agent): Agent {
    a.(leases := map r | r in a.leases && !Clearable(a, r) :: a.leases[r])
  }

  // ------------------------------------------------------ what answers decide

  /** The lease row of the Run after an answer: fenced, or as the Server says, if there is a row at all. */
  ghost predicate RowAfter(a: Agent, b: Agent, r: RunId, status: LocalStatus, ack: Option<nat>) {
    b.leases == if r in a.leases
                then a.leases[r := a.leases[r].(status := status, ack := if ack.Some? then ack.value else a.leases[r].ack)]
                else a.leases
  }

  /** Every answer to a flush of an epoch: an ACK below what was read fences the Run; any other is recorded,
      completes the lease if the Server saw a terminal event, and deletes exactly what it acknowledges;
      a gap the queue can fill, a refused credential and silence change nothing; other refusals fence. */
  lemma AnswerExactly(a: Agent, r: RunId, lease: LocalLease, rows: seq<Record>, answer: Answer)
    ensures var b := AfterAnswer(a, r, lease, rows, answer);
      b == a.(wal := b.wal, leases := b.leases)
      && match answer
         case Accepted(ack, terminal) =>
           if ack < lease.ack then b.wal == a.wal && RowAfter(a, b, r, LocalFenced, None)
           else RowAfter(a, b, r, if terminal then LocalCompleted else LocalActive, Some(ack))
                && forall e :: e in b.wal <==> e in a.wal && !(e.env.run == r && e.env.epoch == lease.epoch && e.env.sequence <= ack)
         case Gap(expected) =>
           b.wal == a.wal
           && if exists k :: 0 <= k < |rows| && rows[k].env.sequence == expected then b == a else RowAfter(a, b, r, LocalFenced, None)
         case Rejected => b.wal == a.wal && RowAfter(a, b, r, LocalFenced, None)
         case Unauthorized | NoAnswer => b == a
  {
    if answer.Accepted? {
      PruneKeeps(a.wal, r, lease.epoch, answer.ack);
      PruneDrops(a.wal, r, lease.epoch, answer.ack);
    }
  }

  lemma {:induction false} PruneDrops(wal: seq<Record>, r: RunId, epoch: nat, ack: nat)
    ensures forall e :: e in Prune(wal, r, epoch, ack) ==> !Acked(e, r, epoch, ack)
  {
    if |wal| > 0 { PruneDrops(wal[..|wal| - 1], r, epoch, ack); }
  }

  /** Exactly when an event is taken into the queue, and what it becomes there. */
  lemma AppendExactly(a: Agent, r: RunId, kind: EventKind, payload: Payload, at: Time, limit: nat)
    ensures var out := AppendEvent(a, r, kind, payload, at, limit);
      (out.Success? <==>
         payload.bytes <= 262144 && !payload.secret && r in a.leases && a.leases[r].status == LocalActive
         && WalBytes(a.wal) + RowBytes(NewRow(a, r, a.leases[r], kind, payload, at)) <= limit)
      && (out.Success? ==>
            var (b, row) := out.value;
            r in a.leases && b == a.(wal := a.wal + [row], draws := a.draws + 1) && row.id == EventId(a.device, a.draws)
            && row.lease == a.leases[r].lease && row.env.run == r && row.env.epoch == a.leases[r].epoch
            && row.env.kind == kind && row.env.payload == payload && row.env.device == a.device && row.env.occurredAt == at
            && row.env.sequence > a.leases[r].ack
            && (forall e :: e in a.wal && e.env.run == r && e.env.epoch == a.leases[r].epoch ==> row.env.sequence > e.env.sequence))
  {
    if r in a.leases {
      forall e | e in a.wal && e.env.run == r && e.env.epoch == a.leases[r].epoch ensures e in EpochLog(a.wal, r, a.leases[r].epoch) {
        var j :| 0 <= j < |a.wal| && a.wal[j] == e;
        EpochLogComplete(a.wal, j, r, a.leases[r].epoch);
      }
    }
  }

  /** A grant is recorded as an active lease, unless a later epoch was; a renewal writes its two
      columns, an end of the transport removes exactly the completed leases with nothing queued. */
  lemma LeaseRowsExactly(a: Agent, r: RunId, lease: LeaseId, epoch: nat, expiresAt: Time, ack: nat)
    ensures RecordLease(a, r, lease, epoch, expiresAt, ack).Failure? <==> r in a.leases && a.leases[r].epoch > epoch
    ensures RecordLease(a, r, lease, epoch, expiresAt, ack).Success? ==>
      RecordLease(a, r, lease, epoch, expiresAt, ack).value.leases == a.leases[r := LocalLease(lease, epoch, expiresAt, ack, LocalActive)]
    ensures r in a.leases ==>
      HandleRenewal(a, r, ack, expiresAt) == a.(leases := a.leases[r := a.leases[r].(ack := ack, expiresAt := expiresAt)])
    ensures r in a.leases ==>
      (r in ClearCompleted(a).leases <==> a.leases[r].status != LocalCompleted || exists k :: 0 <= k < |a.wal| && a.wal[k].env.run == r)
  {}

  // -------------------------------------------------------- what filters keep

  /** Pruning one epoch cuts exactly that epoch's sub-log. */
  lemma {:induction false} PruneLog(wal: seq<Record>, r: RunId, epoch: nat, ack: nat, q: RunId, other: nat)
    ensures EpochLog(Prune(wal, r, epoch, ack), q, other)
         == if q == r && other == epoch then Prune(EpochLog(wal, q, other), r, epoch, ack) else EpochLog(wal, q, other)
  {
    if |wal| > 0 {
      var init, last := wal[..|wal| - 1], wal[|wal| - 1];
      PruneLog(init, r, epoch, ack, q, other);
      if !Acked(last, r, epoch, ack) {
        EpochLogAppend(Prune(init, r, epoch, ack), last, q, other);
      }
      if InEpoch(last, q, other) {
        assert (EpochLog(init, q, other) + [last])[..|EpochLog(init, q, other)|] == EpochLog(init, q, other);
      }
    }
  }

  /** Cutting a suffix of a numbered log at `ack` gives the suffix from there. */
  lemma {:induction false} PruneSuffix(log: seq<Record>, from: nat, r: RunId, epoch: nat, ack: nat)
    requires from <= |log| && Numbered(log)
    requires forall k :: 0 <= k < |log| ==> InEpoch(log[k], r, epoch)
    ensures Prune(log[from..], r, epoch, ack)
         == if ack <= from then log[from..] else if ack >= |log| then [] else log[ack..]
    decreases |log|
  {
    if from < |log| {
      var init := log[..|log| - 1];
      assert log[from..][..|log| - from - 1] == init[from..];
      PruneSuffix(init, from, r, epoch, ack);
      assert log[from..] == init[from..] + [log[|log| - 1]];
      if from < ack < |log| {
        assert init[ack..] + [log[|log| - 1]] == log[ack..];
      }
    }
  }

  lemma {:induction false} PruneKeeps(wal: seq<Record>, r: RunId, epoch: nat, ack: nat)
    ensures forall e :: e in Prune(wal, r, epoch, ack) ==> e in wal
    ensures forall e :: e in wal && !Acked(e, r, epoch, ack) ==> e in Prune(wal, r, epoch, ack)
  {
    if |wal| > 0 { PruneKeeps(wal[..|wal| - 1], r, epoch, ack); }
  }

  /** The row was acknowledged by one of the answers. */
  ghost predicate AckedBy(e: Record, due: seq<Due>) {
    exists k :: 0 <= k < |due| && due[k].answer.Accepted? && Acked(e, due[k].run, due[k].lease.epoch, due[k].answer.ack)
  }

  /** A flush deletes only rows the Server acknowledged for the epoch they belong to. */
  lemma {:induction false} FlushDeletesOnlyAcked(a: Agent, due: seq<Due>, batch: int)
    ensures var b := FlushEach(a, due, batch);
      b.archive == a.archive && b.draws == a.draws && |b.wal| <= |a.wal|
      && (forall e :: e in b.wal ==> e in a.wal) && (forall e :: e in a.wal && e !in b.wal ==> AckedBy(e, due))
    decreases |due|
  {
    if |due| > 0 {
      var d := due[0];
      var rows := FlushRows(a, d.run, d.lease, batch);
      var mid := if rows == [] || d.answer.Unauthorized? then a else AfterAnswer(a, d.run, d.lease, rows, d.answer);
      FlushDeletesOnlyAcked(mid, due[1..], batch);
      if d.answer.Accepted? { PruneKeeps(a.wal, d.run, d.lease.epoch, d.answer.ack); }
      var b := FlushEach(a, due, batch);
      forall e | e in a.wal && e !in b.wal ensures AckedBy(e, due) {
        if e in mid.wal {
          var k :| 0 <= k < |due[1..]| && due[1..][k].answer.Accepted?
                   && Acked(e, due[1..][k].run, due[1..][k].lease.epoch, due[1..][k].answer.ack);
          assert due[k + 1] == due[1..][k];
        } else {
          assert due[0].answer.Accepted?;
        }
      }
    }
  }

  lemma {:induction false} ArchiveKeeps(archive: seq<Record>, wal: seq<Record>, r: RunId, epoch: nat)
    ensures forall e :: e in Archive(archive, wal, r, epoch) ==> e in archive || e in wal
    ensures forall e :: e in wal && SupersededBy(e, r, epoch) ==> HasId(Archive(archive, wal, r, epoch), e.id)
  {
    if |wal| > 0 {
      var init, last := wal[..|wal| - 1], wal[|wal| - 1];
      ArchiveKeeps(archive, init, r, epoch);
      var rest, out := Archive(archive, init, r, epoch), Archive(archive, wal, r, epoch);
      forall e | e in wal && SupersededBy(e, r, epoch) ensures HasId(out, e.id) {
        if e in init {
          var k :| 0 <= k < |rest| && rest[k].id == e.id;
          assert out[k].id == e.id;
        } else if !HasId(rest, last.id) {
          assert out[|rest|].id == e.id;
        }
      }
    }
  }

  lemma {:induction false} DropArchivedKeeps(wal: seq<Record>, archive: seq<Record>, r: RunId, epoch: nat)
    ensures forall e :: e in DropArchived(wal, archive, r, epoch) ==> e in wal
    ensures forall e :: e in wal && !(SupersededBy(e, r, epoch) && HasId(archive, e.id)) ==>
      e in DropArchived(wal, archive, r, epoch)
  {
    if |wal| > 0 { DropArchivedKeeps(wal[..|wal| - 1], archive, r, epoch); }
  }

  /** Retiring leaves every other Run, and the current and later epochs, alone. */
  lemma {:induction false} DropArchivedLog(wal: seq<Record>, archive: seq<Record>, r: RunId, epoch: nat, q: RunId, other: nat)
    requires q != r || other >= epoch
    ensures EpochLog(DropArchived(wal, archive, r, epoch), q, other) == EpochLog(wal, q, other)
  {
    if |wal| > 0 {
      var init, last := wal[..|wal| - 1], wal[|wal| - 1];
      DropArchivedLog(init, archive, r, epoch, q, other);
      if !(SupersededBy(last, r, epoch) && HasId(archive, last.id)) {
        EpochLogAppend(DropArchived(init, archive, r, epoch), last, q, other);
      }
    }
  }
}
