/**
  Event batches: a retried batch changes nothing, and a batch may be cut
  anywhere before its terminal event.
*/
module Batches {
  import opened Wrappers
  import opened RunTypes
  import opened EventLog
  import opened TerminalOutput
  import opened RunProtocol
  import Ledger

  // ----------------------------------------------------------------- replay

  /** The message passes the checks and its envelope is committed under its id. */
  ghost predicate Committed(events: seq<Record>, lease: Lease, m: EventMessage) {
    && m.payload.bytes <= MAX_EVENT_BYTES && !m.payload.secret && m.hash == MessageEnvelope(lease, m)
    && exists j :: 0 <= j < |events| && Carries(events[j], m.id, m.hash)
  }

  predicate Carries(e: Record, id: EventId, env: Envelope) { e.id == id && e.env == env }

  lemma CommittedExtends(a: seq<Record>, b: seq<Record>, lease: Lease, m: EventMessage)
    requires Committed(a, lease, m) && a <= b
    ensures Committed(b, lease, m)
  {}

  lemma SubmitOneCommits(c: Cursor, i: LeaseId, lease: Lease, m: EventMessage, now: Time)
    requires i < |c.srv.leases| && lease.grant.run < |c.srv.runs| && SubmitOne(c, i, lease, m, now).Success?
    ensures Committed(SubmitOne(c, i, lease, m, now).value.srv.events, lease, m)
    ensures c.srv.events <= SubmitOne(c, i, lease, m, now).value.srv.events
  {
    var d := SubmitOne(c, i, lease, m, now).value;
    match FindExisting(c.srv.events, m.id, lease.grant.run, lease.grant.epoch, m.sequence)
    case Some(row) =>
      var j :| 0 <= j < |c.srv.events| && c.srv.events[j] == row;
      assert Carries(c.srv.events[j], m.id, m.hash);
    case None => assert Carries(d.srv.events[|c.srv.events|], m.id, m.hash);
  }

  /** Success means every message of the batch is committed. */
  lemma {:induction false} SubmitAllCommits(c: Cursor, i: LeaseId, lease: Lease, ms: seq<EventMessage>, now: Time)
    requires i < |c.srv.leases| && lease.grant.run < |c.srv.runs| && SubmitAll(c, i, lease, ms, now).Success?
    ensures c.srv.events <= SubmitAll(c, i, lease, ms, now).value.srv.events
    ensures forall k :: 0 <= k < |ms| ==> Committed(SubmitAll(c, i, lease, ms, now).value.srv.events, lease, ms[k])
    decreases |ms|
  {
    if |ms| > 0 {
      var d, out := SubmitOne(c, i, lease, ms[0], now).value, SubmitAll(c, i, lease, ms, now).value;
      SubmitOneCommits(c, i, lease, ms[0], now);
      SubmitAllCommits(d, i, lease, ms[1..], now);
      CommittedExtends(d.srv.events, out.srv.events, lease, ms[0]);
      forall k | 1 <= k < |ms| ensures Committed(out.srv.events, lease, ms[k]) { assert ms[k] == ms[1..][k - 1]; }
    }
  }

  /** The lookup finds the committed row, whichever of its two keys it goes by. */
  lemma FindsCommitted(s: Server, id: EventId, env: Envelope, row: Record)
    requires Ledger.IdsDistinct(s.events) && Ledger.InCommitOrder(s.events)
    requires exists j :: 0 <= j < |s.events| && Carries(s.events[j], id, env)
    requires row in s.events && Matches(row, id, env.run, env.epoch, env.sequence)
    ensures Carries(row, id, env)
  {}

  lemma SubmitOneAgain(c: Cursor, i: LeaseId, lease: Lease, m: EventMessage, now: Time)
    requires Ledger.CursorOk(c, i, lease) && Committed(c.srv.events, lease, m)
    ensures SubmitOne(c, i, lease, m, now) == Success(c)
  {
    var found := FindExisting(c.srv.events, m.id, lease.grant.run, lease.grant.epoch, m.sequence);
    var j :| 0 <= j < |c.srv.events| && Carries(c.srv.events[j], m.id, m.hash);
    assert Matches(c.srv.events[j], m.id, lease.grant.run, lease.grant.epoch, m.sequence);
    FindsCommitted(c.srv, m.id, m.hash, found.value);
    Ledger.AlreadyCommitted(c, i, lease, found.value);
  }

  lemma {:induction false} SubmitAllAgain(c: Cursor, i: LeaseId, lease: Lease, ms: seq<EventMessage>, now: Time)
    requires Ledger.CursorOk(c, i, lease)
    requires forall k :: 0 <= k < |ms| ==> Committed(c.srv.events, lease, ms[k])
    ensures SubmitAll(c, i, lease, ms, now) == Success(c)
    decreases |ms|
  {
    if |ms| > 0 {
      SubmitOneAgain(c, i, lease, ms[0], now);
      SubmitAllAgain(c, i, lease, ms[1..], now);
    }
  }

  /** A batch that once succeeded, sent again at any later time under the same
      lease, changes no table and reports the lease's own ACK and terminal event. */
  lemma RetryChangesNothing(s: Server, u: Server, p: Principal, r: RunId, i: LeaseId, epoch: nat,
                            ms: seq<EventMessage>, now: Time, later: Time)
    requires Ledger.Valid(s) && SubmitEvents(s, p, r, i, epoch, ms, now).1.Success?
    requires Ledger.Valid(u) && Ledger.Extends(SubmitEvents(s, p, r, i, epoch, ms, now).0, u)
    requires CurrentLease(u, p, r, i, epoch).Some?
    ensures SubmitEvents(u, p, r, i, epoch, ms, later)
         == (u, Success(SubmitReply(u.leases[i].ack, u.leases[i].terminal)))
  {
    var lease := s.leases[i];
    var c := Cursor(s, lease.ack, lease.terminal);
    SubmitAllCommits(c, i, lease, ms, now);
    var t := SubmitEvents(s, p, r, i, epoch, ms, now).0;
    var d := Cursor(u, u.leases[i].ack, u.leases[i].terminal);
    assert Ledger.Commit(d, i) == u;
    forall k | 0 <= k < |ms| ensures Committed(u.events, u.leases[i], ms[k]) {
      CommittedExtends(t.events, u.events, lease, ms[k]);
    }
    SubmitAllAgain(d, i, u.leases[i], ms, later);
  }

  /** The first answer already was the lease's own ACK and terminal event. */
  lemma {:induction false} SubmitAllTracksTerminal(c: Cursor, i: LeaseId, lease: Lease, ms: seq<EventMessage>, now: Time)
    requires i < |c.srv.leases| && lease.grant.run < |c.srv.runs| && c.srv.leases[i].terminal == c.terminal
    requires SubmitAll(c, i, lease, ms, now).Success?
    ensures SubmitAll(c, i, lease, ms, now).value.srv.leases[i].terminal == SubmitAll(c, i, lease, ms, now).value.terminal
    decreases |ms|
  {
    if |ms| > 0 {
      SubmitAllTracksTerminal(SubmitOne(c, i, lease, ms[0], now).value, i, lease, ms[1..], now);
    }
  }

  lemma ReplyIsLeaseRow(s: Server, p: Principal, r: RunId, i: LeaseId, epoch: nat, ms: seq<EventMessage>, now: Time)
    requires SubmitEvents(s, p, r, i, epoch, ms, now).1.Success?
    ensures var (t, reply) := SubmitEvents(s, p, r, i, epoch, ms, now);
      i < |t.leases| && reply.value == SubmitReply(t.leases[i].ack, t.leases[i].terminal)
  {
    var lease := s.leases[i];
    SubmitAllTracksTerminal(Cursor(s, lease.ack, lease.terminal), i, lease, ms, now);
  }

  // ---------------------------------------------------------------- cutting

  lemma {:induction false} SubmitAllConcat(c: Cursor, i: LeaseId, lease: Lease, xs: seq<EventMessage>, ys: seq<EventMessage>, now: Time)
    requires i < |c.srv.leases| && lease.grant.run < |c.srv.runs| && SubmitAll(c, i, lease, xs, now).Success?
    ensures var d := SubmitAll(c, i, lease, xs, now).value;
      lease.grant.run < |d.srv.runs| && SubmitAll(c, i, lease, xs + ys, now) == SubmitAll(d, i, lease, ys, now)
    decreases |xs|
  {
    if |xs| == 0 {
      assert xs + ys == ys;
    } else {
      assert (xs + ys)[1..] == xs[1..] + ys;
      SubmitAllConcat(SubmitOne(c, i, lease, xs[0], now).value, i, lease, xs[1..], ys, now);
    }
  }

  /** The cursor with the stored high water rewritten. */
  function Stored(c: Cursor, i: LeaseId, ack: nat): Cursor
    requires i < |c.srv.leases|
  {
    c.(srv := SetAck(c.srv, i, ack))
  }

  /** The loop never reads the high water stored in the lease row. */
  lemma SubmitOneIgnoresStored(c: Cursor, i: LeaseId, lease: Lease, m: EventMessage, now: Time, ack: nat)
    requires i < |c.srv.leases| && lease.grant.run < |c.srv.runs|
    ensures var out := SubmitOne(c, i, lease, m, now);
      SubmitOne(Stored(c, i, ack), i, lease.(ack := ack), m, now)
      == (if out.Success? then Success(Stored(out.value, i, ack)) else out)
  {
    var out := SubmitOne(c, i, lease, m, now);
    if out.Success? && out.value.srv.events != c.srv.events {
      var row := Record(m.id, i, MessageEnvelope(lease, m));
      InsertIgnoresStored(c, row, now, ack);
    }
  }

  lemma InsertIgnoresStored(c: Cursor, row: Record, now: Time, ack: nat)
    requires row.env.run < |c.srv.runs| && row.lease < |c.srv.leases| && row.env.sequence == c.ack + 1
    ensures InsertEvent(Stored(c, row.lease, ack), row, now) == Stored(InsertEvent(c, row, now), row.lease, ack)
  {}

  lemma {:induction false} SubmitAllIgnoresStored(c: Cursor, i: LeaseId, lease: Lease, ms: seq<EventMessage>, now: Time, ack: nat)
    requires i < |c.srv.leases| && lease.grant.run < |c.srv.runs|
    ensures var out := SubmitAll(c, i, lease, ms, now);
      SubmitAll(Stored(c, i, ack), i, lease.(ack := ack), ms, now)
      == (if out.Success? then Success(Stored(out.value, i, ack)) else out)
    decreases |ms|
  {
    if |ms| > 0 {
      SubmitOneIgnoresStored(c, i, lease, ms[0], now, ack);
      if SubmitOne(c, i, lease, ms[0], now).Success? {
        SubmitAllIgnoresStored(SubmitOne(c, i, lease, ms[0], now).value, i, lease, ms[1..], now, ack);
      }
    }
  }

  predicate NoTerminal(ms: seq<EventMessage>) { forall k :: 0 <= k < |ms| ==> !ms[k].kind.IsTerminal() }

  ghost predicate SameEpochs(a: seq<Run>, b: seq<Run>) {
    |a| == |b| && forall r :: 0 <= r < |a| ==> a[r].leaseEpoch == b[r].leaseEpoch
  }

  /** Without a terminal event the lease row keeps every column but its high water. */
  lemma {:induction false} SubmitAllLeavesOpen(c: Cursor, i: LeaseId, lease: Lease, ms: seq<EventMessage>, now: Time)
    requires i < |c.srv.leases| && lease.grant.run < |c.srv.runs| && NoTerminal(ms)
    requires SubmitAll(c, i, lease, ms, now).Success?
    ensures SubmitAll(c, i, lease, ms, now).value.srv.leases == c.srv.leases
    ensures SubmitAll(c, i, lease, ms, now).value.terminal == c.terminal
    ensures SameEpochs(c.srv.runs, SubmitAll(c, i, lease, ms, now).value.srv.runs)
    decreases |ms|
  {
    if |ms| > 0 {
      var d := SubmitOne(c, i, lease, ms[0], now).value;
      assert SameEpochs(c.srv.runs, d.srv.runs);
      SubmitAllLeavesOpen(d, i, lease, ms[1..], now);
    }
  }

  /** A batch cut before its terminal event: sending the two parts one after the
      other gives the same answer, and on success the same tables. */
  lemma CutAnywhere(s: Server, p: Principal, r: RunId, i: LeaseId, epoch: nat,
                    xs: seq<EventMessage>, ys: seq<EventMessage>, now: Time)
    requires SubmitEvents(s, p, r, i, epoch, xs, now).1.Success? && NoTerminal(xs)
    ensures var t := SubmitEvents(s, p, r, i, epoch, xs, now).0;
      SubmitEvents(t, p, r, i, epoch, ys, now).1 == SubmitEvents(s, p, r, i, epoch, xs + ys, now).1
      && (SubmitEvents(s, p, r, i, epoch, xs + ys, now).1.Success? ==>
            SubmitEvents(t, p, r, i, epoch, ys, now).0 == SubmitEvents(s, p, r, i, epoch, xs + ys, now).0)
  {
    var lease := s.leases[i];
    var c := Cursor(s, lease.ack, lease.terminal);
    var d := SubmitAll(c, i, lease, xs, now).value;
    SubmitAllConcat(c, i, lease, xs, ys, now);
    SubmitAllLeavesOpen(c, i, lease, xs, now);
    SubmitAllIgnoresStored(d, i, lease, ys, now, d.ack);
    var out := SubmitAll(d, i, lease, ys, now);
    if out.Success? {
      assert SetAck(Stored(out.value, i, d.ack).srv, i, out.value.ack) == SetAck(out.value.srv, i, out.value.ack);
    }
  }
}
