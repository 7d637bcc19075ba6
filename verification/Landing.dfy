/**
  What an accepted batch does, read off the batch itself: only the messages with
  the next expected sequence write anything, the last of them decides the status,
  and the first terminal one among them decides the message.
*/
module Landing {
  import opened Wrappers
  import opened RunTypes
  import opened EventLog
  import opened TerminalOutput
  import opened RunProtocol
  import Ledger

  // ----------------------------------------------------- reading a batch

  predicate Consecutive(news: seq<EventMessage>, ack: nat) {
    forall k :: 0 <= k < |news| ==> news[k].sequence == ack + 1 + k
  }

  /** The messages of a batch that are not repeats. */
  function News(ms: seq<EventMessage>, ack: nat): (news: seq<EventMessage>)
    ensures Consecutive(news, ack)
    decreases |ms|
  {
    if |ms| == 0 then []
    else if ms[0].sequence == ack + 1 then [ms[0]] + News(ms[1..], ack + 1)
    else News(ms[1..], ack)
  }

  /** The status new messages write last. */
  function LastWritten(news: seq<EventMessage>, status: RunStatus): RunStatus
    decreases |news|
  {
    if |news| == 0 then status else LastWritten(news[1..], StatusAfter(news[0].kind, status))
  }

  /** One of the new messages is terminal. */
  predicate Ends(news: seq<EventMessage>) {
    |news| > 0 && (news[0].kind.IsTerminal() || Ends(news[1..]))
  }

  /** The new messages up to the first terminal one, which is included. */
  function ToEnd(news: seq<EventMessage>): (init: seq<EventMessage>)
    ensures |init| <= |news|
  {
    if |news| == 0 then []
    else if news[0].kind.IsTerminal() then [news[0]]
    else [news[0]] + ToEnd(news[1..])
  }

  /** What follows the first terminal one. */
  function PastEnd(news: seq<EventMessage>): (tail: seq<EventMessage>)
    ensures |tail| <= |news|
  {
    if |news| == 0 then []
    else if news[0].kind.IsTerminal() then news[1..]
    else PastEnd(news[1..])
  }

  lemma {:induction false} EndSplits(news: seq<EventMessage>)
    ensures ToEnd(news) + PastEnd(news) == news
  {
    if |news| > 0 && !news[0].kind.IsTerminal() { EndSplits(news[1..]); }
  }

  /** The error text of the first terminal message. */
  function EndError(news: seq<EventMessage>): string
    requires Ends(news)
  {
    if news[0].kind.IsTerminal() then news[0].payload.errorMessage else EndError(news[1..])
  }

  /** Only a terminal message writes a terminal status, and none writes a claimable one. */
  lemma {:induction false} WrittenStatus(news: seq<EventMessage>, status: RunStatus)
    ensures !Ends(news) && !status.IsTerminal() ==> !LastWritten(news, status).IsTerminal()
    ensures !status.IsClaimable() ==> !LastWritten(news, status).IsClaimable()
    ensures !Ends(news) && status.IsResident() ==> LastWritten(news, status).IsResident()
    decreases |news|
  {
    if |news| > 0 { WrittenStatus(news[1..], StatusAfter(news[0].kind, status)); }
  }

  // -------------------------------------------------- the batch as inserts

  function Row(i: LeaseId, lease: Lease, m: EventMessage): Record { Record(m.id, i, MessageEnvelope(lease, m)) }

  function Rows(i: LeaseId, lease: Lease, news: seq<EventMessage>): (rows: seq<Record>)
    ensures |rows| == |news|
  {
    if |news| == 0 then [] else [Row(i, lease, news[0])] + Rows(i, lease, news[1..])
  }

  function InsertAll(c: Cursor, i: LeaseId, lease: Lease, news: seq<EventMessage>, now: Time): Cursor
    requires i < |c.srv.leases| && lease.grant.run < |c.srv.runs| && Consecutive(news, c.ack)
    decreases |news|
  {
    if |news| == 0 then c
    else InsertAll(InsertEvent(c, Row(i, lease, news[0]), now), i, lease, news[1..], now)
  }

  lemma SubmitOneInserts(c: Cursor, i: LeaseId, lease: Lease, m: EventMessage, now: Time)
    requires Ledger.CursorOk(c, i, lease) && SubmitOne(c, i, lease, m, now).Success?
    ensures SubmitOne(c, i, lease, m, now).value
         == if m.sequence == c.ack + 1 then InsertEvent(c, Row(i, lease, m), now) else c
  {
    match FindExisting(c.srv.events, m.id, lease.grant.run, lease.grant.epoch, m.sequence)
    case Some(row) => Ledger.AlreadyCommitted(c, i, lease, row);
    case None =>
  }

  lemma InsertRaisesAck(c: Cursor, row: Record, now: Time)
    requires row.env.run < |c.srv.runs| && row.lease < |c.srv.leases| && row.env.sequence == c.ack + 1
    ensures InsertEvent(c, row, now).ack == c.ack + 1
    ensures InsertEvent(c, row, now).srv.events == c.srv.events + [row]
  {}

  /** One message of a batch, then the others. */
  lemma InsertStep(c: Cursor, i: LeaseId, lease: Lease, ms: seq<EventMessage>, now: Time)
    requires i < |c.srv.leases| && lease.grant.run < |c.srv.runs| && |ms| > 0
    ensures ms[0].sequence != c.ack + 1 ==> News(ms, c.ack) == News(ms[1..], c.ack)
    ensures ms[0].sequence == c.ack + 1 ==>
      var d := InsertEvent(c, Row(i, lease, ms[0]), now);
      d.ack == c.ack + 1 && i < |d.srv.leases| && lease.grant.run < |d.srv.runs|
      && InsertAll(c, i, lease, News(ms, c.ack), now) == InsertAll(d, i, lease, News(ms[1..], c.ack + 1), now)
  {
    if ms[0].sequence == c.ack + 1 { assert News(ms, c.ack)[1..] == News(ms[1..], c.ack + 1); }
  }

  /** An accepted batch does nothing but insert its new messages. */
  lemma {:induction false} SubmitAllInserts(c: Cursor, i: LeaseId, lease: Lease, ms: seq<EventMessage>, now: Time)
    requires Ledger.CursorOk(c, i, lease) && SubmitAll(c, i, lease, ms, now).Success?
    ensures SubmitAll(c, i, lease, ms, now).value == InsertAll(c, i, lease, News(ms, c.ack), now)
    decreases |ms|
  {
    if |ms| > 0 {
      var d := SubmitOne(c, i, lease, ms[0], now).value;
      SubmitOneInserts(c, i, lease, ms[0], now);
      Ledger.SubmitOneKeepsValid(c, i, lease, ms[0], now);
      SubmitAllInserts(d, i, lease, ms[1..], now);
      InsertStep(c, i, lease, ms, now);
    }
  }

  /** Under a lease that is not live an accepted batch only repeats what is committed. */
  lemma {:induction false} DeadLeaseWritesNothing(c: Cursor, i: LeaseId, lease: Lease, ms: seq<EventMessage>, now: Time)
    requires Ledger.CursorOk(c, i, lease) && !Live(lease, now) && SubmitAll(c, i, lease, ms, now).Success?
    ensures SubmitAll(c, i, lease, ms, now).value == c && News(ms, c.ack) == []
    decreases |ms|
  {
    if |ms| > 0 {
      var row := FindExisting(c.srv.events, ms[0].id, lease.grant.run, lease.grant.epoch, ms[0].sequence).value;
      Ledger.AlreadyCommitted(c, i, lease, row);
      DeadLeaseWritesNothing(c, i, lease, ms[1..], now);
    }
  }

  // ------------------------------------------------------- where it lands

  /** Where inserts leave the Run and the lease. */
  ghost predicate Lands(s: Server, t: Server, i: LeaseId, r: RunId, news: seq<EventMessage>) {
    && i < |s.leases| && |t.leases| == |s.leases| && r < |s.runs| && |t.runs| == |s.runs|
    && t.runs == s.runs[r := t.runs[r]]
    && t.runs[r].spec == s.runs[r].spec && t.runs[r].leaseEpoch == s.runs[r].leaseEpoch
    && t.runs[r].recoveryCount == s.runs[r].recoveryCount
    && t.runs[r].status == LastWritten(news, s.runs[r].status)
    && t.leases == s.leases[i := t.leases[i]]
    && t.leases[i].grant == s.leases[i].grant && t.leases[i].expiresAt == s.leases[i].expiresAt
    && t.leases[i].status == (if Ends(news) then Closed else s.leases[i].status)
    && t.automations == s.automations && t.devices == s.devices
  }

  lemma OneNew(m: EventMessage, ack: nat, status: RunStatus)
    ensures LastWritten([m], status) == StatusAfter(m.kind, status) && (Ends([m]) <==> m.kind.IsTerminal())
    ensures m.sequence == ack + 1 ==> News([m], ack) == [m]
  {
    assert [m][1..] == [] && !Ends([]);
    assert LastWritten([m], status) == LastWritten([], StatusAfter(m.kind, status));
  }

  lemma InsertLands(c: Cursor, i: LeaseId, lease: Lease, m: EventMessage, now: Time)
    requires i < |c.srv.leases| && lease.grant.run < |c.srv.runs| && m.sequence == c.ack + 1
    ensures Lands(c.srv, InsertEvent(c, Row(i, lease, m), now).srv, i, lease.grant.run, [m])
  {
    OneNew(m, c.ack, c.srv.runs[lease.grant.run].status);
  }

  lemma {:induction false} InsertAllLands(c: Cursor, i: LeaseId, lease: Lease, news: seq<EventMessage>, now: Time)
    requires i < |c.srv.leases| && lease.grant.run < |c.srv.runs| && Consecutive(news, c.ack)
    ensures Lands(c.srv, InsertAll(c, i, lease, news, now).srv, i, lease.grant.run, news)
    decreases |news|
  {
    if |news| > 0 {
      var d := InsertEvent(c, Row(i, lease, news[0]), now);
      InsertLands(c, i, lease, news[0], now);
      InsertAllLands(d, i, lease, news[1..], now);
      LandsThen(c.srv, d.srv, InsertAll(c, i, lease, news, now).srv, i, lease.grant.run, news);
    }
  }

  lemma LandsThen(s: Server, t: Server, u: Server, i: LeaseId, r: RunId, news: seq<EventMessage>)
    requires |news| > 0 && Lands(s, t, i, r, [news[0]]) && Lands(t, u, i, r, news[1..])
    ensures Lands(s, u, i, r, news)
  {
    OneNew(news[0], 0, s.runs[r].status);
  }

  lemma {:induction false} InsertAllAppends(c: Cursor, i: LeaseId, lease: Lease, news: seq<EventMessage>, now: Time)
    requires i < |c.srv.leases| && lease.grant.run < |c.srv.runs| && Consecutive(news, c.ack)
    ensures InsertAll(c, i, lease, news, now).srv.events == c.srv.events + Rows(i, lease, news)
    decreases |news|
  {
    if |news| > 0 {
      var d := InsertEvent(c, Row(i, lease, news[0]), now);
      assert d.srv.events == c.srv.events + [Row(i, lease, news[0])];
      InsertAllAppends(d, i, lease, news[1..], now);
    }
  }

  /** The messages table after inserts: the first terminal message answers, the rest add nothing. */
  function AnsweredBy(s: Server, i: LeaseId, lease: Lease, news: seq<EventMessage>): seq<Message> {
    if Ends(news)
    then WithFinalMessage(s.messages, s.events + Rows(i, lease, ToEnd(news)), lease.grant.run, lease.grant.epoch, EndError(news))
    else s.messages
  }

  lemma InsertAnswers(c: Cursor, i: LeaseId, lease: Lease, m: EventMessage, now: Time)
    requires i < |c.srv.leases| && lease.grant.run < |c.srv.runs| && m.sequence == c.ack + 1
    ensures var t := InsertEvent(c, Row(i, lease, m), now).srv;
      t.events == c.srv.events + [Row(i, lease, m)]
      && t.messages == if m.kind.IsTerminal()
                       then WithFinalMessage(c.srv.messages, t.events, lease.grant.run, lease.grant.epoch, m.payload.errorMessage)
                       else c.srv.messages
  {}

  lemma {:induction false} InsertAllAnswers(c: Cursor, i: LeaseId, lease: Lease, news: seq<EventMessage>, now: Time)
    requires i < |c.srv.leases| && lease.grant.run < |c.srv.runs| && Consecutive(news, c.ack)
    ensures InsertAll(c, i, lease, news, now).srv.messages == AnsweredBy(c.srv, i, lease, news)
    decreases |news|
  {
    if |news| > 0 {
      var d := InsertEvent(c, Row(i, lease, news[0]), now);
      InsertRaisesAck(c, Row(i, lease, news[0]), now);
      InsertAnswers(c, i, lease, news[0], now);
      InsertAllAnswers(d, i, lease, news[1..], now);
      AnsweredStep(c.srv, d.srv, i, lease, news);
    }
  }

  /** Answering by a batch is answering by its first new message, then by the others. */
  lemma AnsweredStep(s: Server, t: Server, i: LeaseId, lease: Lease, news: seq<EventMessage>)
    requires |news| > 0 && t.events == s.events + [Row(i, lease, news[0])]
    requires t.messages == if news[0].kind.IsTerminal()
      then WithFinalMessage(s.messages, t.events, lease.grant.run, lease.grant.epoch, news[0].payload.errorMessage)
      else s.messages
    ensures AnsweredBy(t, i, lease, news[1..]) == AnsweredBy(s, i, lease, news)
  {
    var row := Row(i, lease, news[0]);
    if news[0].kind.IsTerminal() {
      assert [news[0]][1..] == [];
      assert Rows(i, lease, ToEnd(news)) == [row] + Rows(i, lease, []);
      AnswersOnce(t.messages, s, row, lease, EndError(news));
    } else {
      assert ToEnd(news)[1..] == ToEnd(news[1..]);
      assert Rows(i, lease, ToEnd(news)) == [row] + Rows(i, lease, ToEnd(news[1..]));
      assert s.events + Rows(i, lease, ToEnd(news)) == t.events + Rows(i, lease, ToEnd(news[1..]));
    }
  }

  lemma AnswersOnce(after: seq<Message>, s: Server, row: Record, lease: Lease, error: string)
    requires after == WithFinalMessage(s.messages, s.events + [row], lease.grant.run, lease.grant.epoch, error)
    ensures Answered(after, lease.grant.run)
  {
    if !Answered(s.messages, lease.grant.run) { assert after[|s.messages|].run == lease.grant.run; }
  }

  /** A submission as a whole. */
  lemma SubmitLands(s: Server, p: Principal, r: RunId, i: LeaseId, epoch: nat, ms: seq<EventMessage>, now: Time)
    requires Ledger.Valid(s) && SubmitEvents(s, p, r, i, epoch, ms, now).1.Success?
    ensures var t := SubmitEvents(s, p, r, i, epoch, ms, now).0;
      i < |s.leases| && var news := News(ms, s.leases[i].ack);
      Lands(s, t, i, r, news) && t.events == s.events + Rows(i, s.leases[i], news)
      && t.messages == AnsweredBy(s, i, s.leases[i], news)
      && (news != [] ==> Live(s.leases[i], now)) && (news == [] ==> t == s)
  {
    var lease := s.leases[i];
    var c := Cursor(s, lease.ack, lease.terminal);
    assert Ledger.Commit(c, i) == s;
    var news := News(ms, lease.ack);
    SubmitAllInserts(c, i, lease, ms, now);
    InsertAllLands(c, i, lease, news, now);
    InsertAllAppends(c, i, lease, news, now);
    InsertAllAnswers(c, i, lease, news, now);
    if !Live(lease, now) { DeadLeaseWritesNothing(c, i, lease, ms, now); }
  }
}
