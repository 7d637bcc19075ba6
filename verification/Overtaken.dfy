/**
  A run in which a renewal answer is overtaken by a flush answer: the local high
  water falls back and the next event reuses a sequence the Server has committed.
*/
module Overtaken {
  import opened Wrappers
  import opened RunTypes
  import opened EventLog
  import opened RunProtocol
  import opened LocalAgent
  import opened Transport
  import opened TransportServer
  import opened TransportAgent
  import opened EndToEnd
  import Ledger

  const SPEC := RunSpec(0, "", "default", "exec", None, {}, 3, TurnKey(""), 0, None, None)
  const TABLES := Server(map[], [NewRun(SPEC)], [], [], [], [], map[], [])
  const PAYLOAD := Payload(2, false, "hi", "", "", "", 0, 0, 0, "")

  const LEASED := TABLES.(runs := [NewRun(SPEC).(status := Leased, leaseEpoch := 1)],
                          leases := [Lease(Grant(0, 0, 0, 1), Active, 30, 0, None)])
  const GRANT := LeaseReply(0, 0, 1, 30)
  const HELD := LocalLease(0, 1, 30, 0, LocalActive)
  const ROW := Record(EventId(0, 0), 0, Envelope(0, 0, 1, 1, UiText, 0, PAYLOAD))
  const RENEWAL := RenewRequest(0, 0, 1)
  const FLUSH := FlushRequest(0, 0, 1, 0, [ROW])
  const LATE := RenewReply(RENEWAL, 0, 30)

  /** Claimed and recorded. */
  const S2 := Fresh(TABLES, 0, 0).(server := LEASED, agent := Agent(0, 0, map[0 := HELD], [], [], 0))
  /** A renewal was sent and answered, but its answer is still on the way. */
  const S4 := S2.(renewals := {RENEWAL}, renewReplies := {LATE})
  /** One event was appended and a flush sent. */
  const S6 := S4.(agent := Agent(0, 0, map[0 := HELD], [ROW], [], 1), produced := [ROW], flushes := {FLUSH}, waiting := map[0 := FLUSH])

  lemma ClaimStep()
    ensures LeaseRun(TABLES, Principal(0, 0, NO_CAPS), 30, 0) == (LEASED, Some(0))
  {
    var p := Principal(0, 0, NO_CAPS);
    assert ComputingLeases(TABLES, p, 0) == {} && ResidentLeases(TABLES, p, 0) == {};
    assert TABLES.runs[..0] == [];
    assert Candidates(TABLES.runs, 0) == [0];
    assert Eligible(TABLES, p, 0, 0);
    assert SelectRun(TABLES, p, 0) == Some(0);
    var run := NewRun(SPEC).(status := Leased, leaseEpoch := 1);
    assert TABLES.runs[0 := run] == [run] && TABLES.leases + LEASED.leases == LEASED.leases;
    assert GrantLease(TABLES, p, 0, 30, 0) == LEASED;
  }

  lemma ToS2()
    ensures Play(Fresh(TABLES, 0, 0), [Act(ServeClaim(NO_CAPS, 30), 0), Act(GetLease(GRANT), 0)]) == Some(S2)
  {
    ClaimStep();
    var s0, a, b := Fresh(TABLES, 0, 0), Act(ServeClaim(NO_CAPS, 30), 0), Act(GetLease(GRANT), 0);
    assert [a, b][..1] == [a] && [a][..0] == [];
    assert Play(s0, []) == Some(s0);
    assert Play(s0, [a]) == Some(Claimed(s0, LEASED, Some(0)));
    assert Claimed(s0, LEASED, Some(0)).grants == {GRANT};
    assert Taken(Claimed(s0, LEASED, Some(0)), GRANT) == S2;
  }

  lemma FromS2()
    ensures Do(Do(S2, SendRenewal(0), 0), ServeRenewal(RENEWAL, 30), 0) == S4
    ensures AppendEvent(S4.agent, 0, UiText, PAYLOAD, 0, 1000) == Success((Agent(0, 0, map[0 := HELD], [ROW], [], 1), ROW))
    ensures EpochLog([ROW], 0, 1) == [ROW]
  {
    assert ServeRenew(S2.(renewals := {RENEWAL}), RENEWAL, 30, 0).0 == LEASED;
    EpochLogAppend([], ROW, 0, 1);
    assert [] + [ROW] == [ROW];
  }

  const TWO: seq<Act> := [Act(ServeClaim(NO_CAPS, 30), 0), Act(GetLease(GRANT), 0)]
  const FOUR: seq<Act> := TWO + [Act(SendRenewal(0), 0)] + [Act(ServeRenewal(RENEWAL, 30), 0)]
  const SIX: seq<Act> := FOUR + [Act(Append(0, UiText, PAYLOAD, 0, 1000), 0)] + [Act(SendFlush(0, 100), 0)]

  lemma PlayOne(sys: System, acts: seq<Act>, act: Act, mid: System)
    requires Play(sys, acts) == Some(mid) && Allowed(mid, act.move)
    ensures Play(sys, acts + [act]) == Some(Do(mid, act.move, act.at))
  {
    assert (acts + [act])[..|acts|] == acts;
  }

  lemma ToS4()
    ensures Play(Fresh(TABLES, 0, 0), FOUR) == Some(S4)
  {
    var s0 := Fresh(TABLES, 0, 0);
    ToS2();
    FromS2();
    PlayOne(s0, TWO, Act(SendRenewal(0), 0), S2);
    PlayOne(s0, TWO + [Act(SendRenewal(0), 0)], Act(ServeRenewal(RENEWAL, 30), 0), S2.(renewals := {RENEWAL}));
  }

  lemma ToS6()
    ensures Play(Fresh(TABLES, 0, 0), SIX) == Some(S6)
  {
    var s0, append := Fresh(TABLES, 0, 0), Act(Append(0, UiText, PAYLOAD, 0, 1000), 0);
    var s5 := S4.(agent := Agent(0, 0, map[0 := HELD], [ROW], [], 1), produced := [ROW]);
    ToS4();
    FromS2();
    assert [] + [ROW] == [ROW];
    PlayOne(s0, FOUR, append, S4);
    assert Do(S4, append.move, 0) == s5;
    assert RequestFor(s5.agent, 0, 100) == FLUSH;
    PlayOne(s0, FOUR + [append], Act(SendFlush(0, 100), 0), s5);
    assert Do(s5, SendFlush(0, 100), 0) == S6;
  }

  lemma OneMessage(c: Cursor, i: LeaseId, lease: Lease, row: Record, now: Time)
    requires i < |c.srv.leases| && lease.grant.run < |c.srv.runs|
    ensures SubmitAll(c, i, lease, ToMessages([row]), now) == SubmitOne(c, i, lease, ToMessage(row), now)
  {
    assert ToMessages([row])[0] == ToMessage(row) && ToMessages([row])[1..] == [];
  }

  lemma RowIsProduced()
    ensures Produced(S6, 0, 1) == [ROW]
  {
    FromS2();
  }

  lemma RowIsAccepted()
    requires Inv(S6)
    ensures var out := SubmitOne(Cursor(LEASED, 0, None), 0, LEASED.leases[0], ToMessage(ROW), 0);
      out.Success? && out.value.ack == 1
  {
    var lease, c := LEASED.leases[0], Cursor(LEASED, 0, None);
    LoopStarts(S6, FLUSH);
    RowIsProduced();
    NextRowLands(S6, c, 0, lease, 0);
  }

  /** The flush is committed and acknowledged. */
  lemma FlushLands()
    requires Inv(S6)
    ensures Serve(S6, FLUSH, 0).1.Success? && Serve(S6, FLUSH, 0).1.value.ack == 1
  {
    RowIsAccepted();
    SubmitsOne(LEASED, Me(S6, NO_CAPS), ROW);
  }

  lemma SubmitsOne(s: Server, p: Principal, row: Record)
    requires CurrentLease(s, p, row.env.run, row.lease, row.env.epoch).Some?
    ensures var lease := s.leases[row.lease];
      var one := SubmitOne(Cursor(s, lease.ack, lease.terminal), row.lease, lease, ToMessage(row), 0);
      var out := SubmitEvents(s, p, row.env.run, row.lease, row.env.epoch, ToMessages([row]), 0).1;
      one.Success? ==> out.Success? && out.value.ack == one.value.ack
  {
    var lease := s.leases[row.lease];
    OneMessage(Cursor(s, lease.ack, lease.terminal), row.lease, lease, row, 0);
  }

  /** The witness: after this run the answer to the renewal is still in flight, and taking it in
      would make the device allocate sequence 1 again although the Server has committed it. */
  lemma OvertakenRenewalReusesSequence() returns (acts: seq<Act>, sys: System)
    ensures Reaches(TABLES, 0, 0, acts, sys) && LATE in sys.renewReplies && SameEpoch(sys.agent, 0, 1)
    ensures var b := HandleRenewal(sys.agent, 0, LATE.ack, LATE.expiresAt);
      NextSequence(b, 0, b.leases[0]) <= HighWater(sys, sys.agent.leases[0].lease)
  {
    ToS6();
    var s0 := Fresh(TABLES, 0, 0);
    FreshIsInv(TABLES, 0, 0);
    InvAlways(s0, SIX);
    FlushLands();
    var out := Serve(S6, FLUSH, 0);
    var s7 := Answered(S6, FLUSH, out.0, out.1);
    var reply := FlushReply(FLUSH, 1, out.1.value.terminal.Some?);
    PlayOne(s0, SIX, Act(ServeFlush(FLUSH), 0), S6);
    var seven := SIX + [Act(ServeFlush(FLUSH), 0)];
    PlayOne(s0, seven, Act(GetFlushReply(reply), 0), s7);
    acts, sys := seven + [Act(GetFlushReply(reply), 0)], TookAck(s7, reply);
    InvAlways(s0, acts);
    PruneLog([ROW], 0, 1, 1, 0, 1);
    assert Prune([ROW], 0, 1, 1) == [] by { assert [ROW][..0] == []; }
    RenewalSafeExactly(sys, LATE);
  }
}
