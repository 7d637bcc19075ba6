/**
  Exactly which transactions keep the outcomes of Runs: what a batch may send after
  its terminal event, and what an account may not post.
*/
module Verdict {
  import opened Wrappers
  import opened RunTypes
  import opened EventLog
  import opened TerminalOutput
  import opened RunProtocol
  import Ledger
  import opened Landing
  import opened Tether
  import opened Outcomes

  // ------------------------------------------------- reading on after the end

  function AbsorbAll(out: Output, lease: Lease, news: seq<EventMessage>): Output
    decreases |news|
  {
    if |news| == 0 then out else AbsorbAll(Absorb(out, MessageEnvelope(lease, news[0])), lease, news[1..])
  }

  lemma {:induction false} AbsorbConcat(out: Output, lease: Lease, xs: seq<EventMessage>, ys: seq<EventMessage>)
    ensures AbsorbAll(out, lease, xs + ys) == AbsorbAll(AbsorbAll(out, lease, xs), lease, ys)
    decreases |xs|
  {
    if |xs| == 0 {
      assert xs + ys == ys;
    } else {
      assert (xs + ys)[1..] == xs[1..] + ys;
      AbsorbConcat(Absorb(out, MessageEnvelope(lease, xs[0])), lease, xs[1..], ys);
    }
  }

  lemma {:induction false} CollectRows(log: seq<Record>, i: LeaseId, lease: Lease, news: seq<EventMessage>)
    ensures Collect(log + Rows(i, lease, news)) == AbsorbAll(Collect(log), lease, news)
    decreases |news|
  {
    if |news| == 0 {
      assert log + Rows(i, lease, news) == log;
    } else {
      var more := log + [Row(i, lease, news[0])];
      assert more[..|log|] == log;
      assert log + Rows(i, lease, news) == more + Rows(i, lease, news[1..]);
      CollectRows(more, i, lease, news[1..]);
    }
  }

  lemma {:induction false} RowsLog(events: seq<Record>, i: LeaseId, lease: Lease, news: seq<EventMessage>, r: RunId, epoch: nat)
    ensures EpochLog(events + Rows(i, lease, news), r, epoch)
         == EpochLog(events, r, epoch) + (if r == lease.grant.run && epoch == lease.grant.epoch then Rows(i, lease, news) else [])
    decreases |news|
  {
    if |news| == 0 {
      assert events + Rows(i, lease, news) == events;
    } else {
      var row := Row(i, lease, news[0]);
      assert events + Rows(i, lease, news) == (events + [row]) + Rows(i, lease, news[1..]);
      EpochLogAppend(events, row, r, epoch);
      RowsLog(events + [row], i, lease, news[1..], r, epoch);
    }
  }

  /** The parts of an output that the message keeps. */
  predicate SameOutput(a: Output, b: Output) { a.content == b.content && a.trace == b.trace && a.usage == b.usage }

  predicate NoText(tail: seq<EventMessage>) {
    forall k :: 0 <= k < |tail| && tail[k].kind.UiText? ==> tail[k].payload.md == ""
  }

  function LastUsage(tail: seq<EventMessage>, usage: Option<Usage>): Option<Usage>
    decreases |tail|
  {
    if |tail| == 0 then usage
    else
      var p := tail[0].payload;
      LastUsage(tail[1..], if tail[0].kind.UiUsage? then Some(Usage(p.promptTokens, p.completionTokens)) else usage)
  }

  function TraceAfter(tail: seq<EventMessage>, trace: seq<TraceItem>): seq<TraceItem>
    decreases |tail|
  {
    if |tail| == 0 then trace
    else
      TraceAfter(tail[1..], if tail[0].kind.UiTrace? then AddTrace(trace, TraceItem(tail[0].kind.trace, tail[0].payload.body)) else trace)
  }

  /** The events add nothing to an output: no text, the usage it has, and a trace that leads back to its own. */
  predicate Unread(out: Output, tail: seq<EventMessage>) {
    NoText(tail) && LastUsage(tail, out.usage) == out.usage && TraceAfter(tail, out.trace) == out.trace
  }

  lemma {:induction false} AbsorbAllReads(out: Output, lease: Lease, tail: seq<EventMessage>)
    ensures var after := AbsorbAll(out, lease, tail);
      after.usage == LastUsage(tail, out.usage) && after.trace == TraceAfter(tail, out.trace)
      && |out.content| <= |after.content| && (after.content == out.content <==> NoText(tail))
    decreases |tail|
  {
    if |tail| > 0 {
      AbsorbAllReads(Absorb(out, MessageEnvelope(lease, tail[0])), lease, tail[1..]);
      assert NoText(tail) <==> NoText(tail[..1]) && NoText(tail[1..]);
    }
  }

  /** A batch leaves its Run in peace once it has ended it: the last status it writes is
      terminal, and nothing after the first terminal event is read by the message. */
  predicate Conclusive(log: seq<Record>, lease: Lease, status: RunStatus, news: seq<EventMessage>) {
    Ends(news) ==>
      LastWritten(news, status).IsTerminal() && Unread(AbsorbAll(Collect(log), lease, ToEnd(news)), PastEnd(news))
  }

  // ------------------------------------------------------------- the message

  /** The answer the batch writes is the epoch's output exactly if the rest of the batch is unread. */
  lemma AnswerAgrees(events: seq<Record>, i: LeaseId, lease: Lease, news: seq<EventMessage>)
    requires Ends(news)
    ensures var (r, epoch) := (lease.grant.run, lease.grant.epoch);
      SameOutput(Collect(EpochLog(events + Rows(i, lease, ToEnd(news)), r, epoch)),
                 Collect(EpochLog(events + Rows(i, lease, news), r, epoch)))
      <==> Unread(AbsorbAll(Collect(EpochLog(events, r, epoch)), lease, ToEnd(news)), PastEnd(news))
  {
    var (r, epoch) := (lease.grant.run, lease.grant.epoch);
    var log := EpochLog(events, r, epoch);
    RowsLog(events, i, lease, ToEnd(news), r, epoch);
    RowsLog(events, i, lease, news, r, epoch);
    CollectRows(log, i, lease, ToEnd(news));
    CollectRows(log, i, lease, news);
    EndSplits(news);
    AbsorbConcat(Collect(log), lease, ToEnd(news), PastEnd(news));
    AbsorbAllReads(AbsorbAll(Collect(log), lease, ToEnd(news)), lease, PastEnd(news));
  }

  /** The tables that matter to messages, after new messages of an open Run. */
  ghost predicate Written(s: Server, t: Server, r: RunId, i: LeaseId, lease: Lease, news: seq<EventMessage>) {
    && Lands(s, t, i, r, news) && lease.grant.run == r && lease.grant.epoch == s.runs[r].leaseEpoch
    && s.runs[r].status.IsResident()
    && t.events == s.events + Rows(i, lease, news) && t.messages == AnsweredBy(s, i, lease, news)
  }

  lemma OtherMessagesAgree(s: Server, t: Server, r: RunId, i: LeaseId, lease: Lease, news: seq<EventMessage>, k: nat)
    requires Written(s, t, r, i, lease, news) && k < |s.messages| && MessageAgrees(s, s.messages[k])
    ensures MessageAgrees(t, s.messages[k]) && s.messages[k].run != r
  {
    var q := s.messages[k].run;
    RowsLog(s.events, i, lease, news, q, s.runs[q].leaseEpoch);
    assert q != r && t.runs[q] == s.runs[q];
    assert EpochLog(t.events, q, t.runs[q].leaseEpoch) == EpochLog(s.events, q, s.runs[q].leaseEpoch);
  }

  lemma WrittenKeepsFinalized(s: Server, t: Server, r: RunId, i: LeaseId, lease: Lease, news: seq<EventMessage>)
    requires Finalized(s) && Written(s, t, r, i, lease, news)
    ensures Finalized(t) <==> Conclusive(EpochLog(s.events, r, lease.grant.epoch), lease, s.runs[r].status, news)
  {
    forall k | 0 <= k < |s.messages| ensures MessageAgrees(t, s.messages[k]) && s.messages[k].run != r {
      OtherMessagesAgree(s, t, r, i, lease, news, k);
    }
    WrittenStatus(news, s.runs[r].status);
    OthersStayAnswered(s, t, r);
    if Ends(news) {
      var m := t.messages[|s.messages|];
      assert t.messages == s.messages + [m] && m.run == r;
      AnswerAgrees(s.events, i, lease, news);
      AnswerIsLast(s, t, r, i, lease, news);
      assert MessageAgrees(t, m) <==> Conclusive(EpochLog(s.events, r, lease.grant.epoch), lease, s.runs[r].status, news);
      AnsweredLast(s, t, r, m);
    }
  }

  lemma AnswerIsLast(s: Server, t: Server, r: RunId, i: LeaseId, lease: Lease, news: seq<EventMessage>)
    requires Finalized(s) && Written(s, t, r, i, lease, news) && Ends(news)
    ensures |t.messages| == |s.messages| + 1
    ensures var m, epoch := t.messages[|s.messages|], lease.grant.epoch;
      var same := SameOutput(Collect(EpochLog(s.events + Rows(i, lease, ToEnd(news)), r, epoch)), Collect(EpochLog(t.events, r, epoch)));
      m.run == r && (MessageAgrees(t, m) <==> t.runs[r].status.IsTerminal() && same)
  {
    forall k | 0 <= k < |s.messages| ensures s.messages[k].run != r { assert MessageAgrees(s, s.messages[k]); }
  }

  lemma OthersStayAnswered(s: Server, t: Server, r: RunId)
    requires EndedAnswered(s.runs, s.messages) && s.messages <= t.messages
    requires r < |s.runs| && r < |t.runs| && t.runs == s.runs[r := t.runs[r]]
    ensures forall q :: 0 <= q < |t.runs| && q != r && t.runs[q].status.IsTerminal() ==> Answered(t.messages, q)
  {
    forall q | 0 <= q < |t.runs| && q != r && t.runs[q].status.IsTerminal() ensures Answered(t.messages, q) {
      var k :| 0 <= k < |s.messages| && s.messages[k].run == q;
      assert t.messages[k].run == q;
    }
  }

  /** With every other message in order, everything hangs on the new one. */
  lemma AnsweredLast(s: Server, t: Server, r: RunId, m: Message)
    requires m.run == r && t.messages == s.messages + [m] && OneMessageEach(s.messages)
    requires forall k :: 0 <= k < |s.messages| ==> MessageAgrees(t, s.messages[k]) && s.messages[k].run != r
    requires forall q :: 0 <= q < |t.runs| && q != r && t.runs[q].status.IsTerminal() ==> Answered(t.messages, q)
    ensures Finalized(t) <==> MessageAgrees(t, m)
  {
    assert t.messages[|s.messages|] == m;
    assert Answered(t.messages, r);
  }

  /** Exactly when an accepted batch keeps "one message per ended Run, holding its epoch's output". */
  lemma FinalizedExactly(s: Server, p: Principal, r: RunId, i: LeaseId, epoch: nat, ms: seq<EventMessage>, now: Time)
    requires Ledger.Valid(s) && Tethered(s, now) && Finalized(s) && SubmitEvents(s, p, r, i, epoch, ms, now).1.Success?
    ensures Finalized(SubmitEvents(s, p, r, i, epoch, ms, now).0)
       <==> Conclusive(EpochLog(s.events, r, epoch), s.leases[i], s.runs[r].status, News(ms, s.leases[i].ack))
  {
    var t, news := SubmitEvents(s, p, r, i, epoch, ms, now).0, News(ms, s.leases[i].ack);
    SubmitLands(s, p, r, i, epoch, ms, now);
    if news != [] {
      LiveMeansResident(s, i, now);
      WrittenKeepsFinalized(s, t, r, i, s.leases[i], news);
    }
  }

  /** An account's own assistant message on any existing Run breaks it. */
  lemma PostedExactly(s: Server, m: Message)
    requires Finalized(s)
    ensures Finalized(PostMessage(s, m)) <==> m.run >= |s.runs|
  {
    if m.run < |s.runs| {
      var t := PostMessage(s, m);
      assert t.messages[|s.messages|] == m;
      if s.runs[m.run].status.IsTerminal() {
        var k :| 0 <= k < |s.messages| && s.messages[k].run == m.run;
        assert t.messages[k].run == t.messages[|s.messages|].run;
      } else {
        assert !MessageAgrees(t, t.messages[|s.messages|]);
      }
    }
  }

  /** Posted while the Run is open, it takes the place of whatever the Run streams. */
  lemma PostedFirstStays(s: Server, t: Server, r: RunId, errorMessage: string, failed: bool, cancelled: bool, now: Time)
    requires Answered(s.messages, r) && Ending(s, t, r, errorMessage, failed, cancelled, now)
    ensures t.messages == s.messages
  {}

  // ---------------------------------------------------------------- the fire

  /** The fire is active, or it is the one whose Run the batch is about. */
  predicate Busy(fire: Fire, r: RunId) { fire.status.IsActive() || fire.run == r }

  ghost predicate RivalsFor(s: Server, r: RunId, a: Fire, b: Fire) {
    a.automation == b.automation && Busy(a, r) && Busy(b, r)
    && a.automation in s.automations && s.automations[a.automation].skip
  }

  ghost predicate NoRivals(s: Server, r: RunId) {
    forall f, g :: 0 <= f < g < |s.fires| ==> !RivalsFor(s, r, s.fires[f], s.fires[g])
  }

  ghost predicate FiresStand(s: Server, r: RunId) {
    forall f :: 0 <= f < |s.fires| ==> FireStands(s, f) && (s.fires[f].run != r ==> FireAgrees(s, f))
  }

  /** All that holds of fires, but for the status of the fire of Run r, which is its current attempt. */
  ghost predicate Standing(s: Server, r: RunId) {
    && r < |s.runs| && FiresStand(s, r) && AttemptsAgree(s.fires, s.runs) && KeysDistinct(s.runs) && Chained(s.runs)
    && FireKeysDistinct(s.fires) && NoRivals(s, r)
    && (s.runs[r].spec.key.FireKey? ==> s.runs[r].spec.key.fire < |s.fires| && s.fires[s.runs[r].spec.key.fire].run == r)
  }

  lemma OpenRunStands(s: Server, r: RunId)
    requires Fired(s) && r < |s.runs| && !s.runs[r].status.IsTerminal()
    ensures Standing(s, r)
  {
    assert AttemptAgrees(s.fires, r, s.runs[r]);
    forall f | 0 <= f < |s.fires| ensures FireStands(s, f) && (s.fires[f].run == r ==> s.fires[f].status.IsActive()) {
      assert FireAgrees(s, f);
    }
    forall f, g | 0 <= f < g < |s.fires| ensures !RivalsFor(s, r, s.fires[f], s.fires[g]) {
      assert !Rivals(s, s.fires[f], s.fires[g]);
    }
  }

  /** What one insert does to the tables of Runs and fires. */
  ghost predicate Touches(s: Server, t: Server, r: RunId, kind: EventKind) {
    && r < |s.runs| && |t.runs| == |s.runs| && t.runs == s.runs[r := t.runs[r]] && t.runs[r].spec == s.runs[r].spec
    && t.automations == s.automations && |t.fires| == |s.fires|
    && forall f :: 0 <= f < |s.fires| ==> FireTouched(s.fires[f], t.fires[f], r, kind)
  }

  /** A terminal event settles the fire of the Run by its kind; any other only moves it while it is in flight. */
  predicate FireTouched(a: Fire, b: Fire, r: RunId, kind: EventKind) {
    b == a.(status := b.status, nextAttemptAt := b.nextAttemptAt) && (a.run != r ==> b == a)
    && (a.run == r && kind.IsTerminal() ==> Tells(b, StatusAfter(kind, Completed)))
    && (!kind.IsTerminal() ==> b == a || (a.status.InFlight() && b.status.InFlight()))
    && (b.status.FireRetryWait? && !a.status.FireRetryWait? ==> b.attempt < b.maxAttempts)
  }

  /** What one event writes to the fires. */
  function FiresAfter(s: Server, e: Envelope, now: Time): seq<Fire>
    requires e.run < |s.runs|
  {
    if e.kind.RunStarted? then StartFires(s.fires, e.run)
    else if e.kind.IsTerminal() && s.runs[e.run].spec.automation.Some? then
      FinishRun(s.fires, s.automations, e.run, s.runs[e.run].spec.owner, !e.kind.RunCompleted?,
                e.kind.RunCancelled? || e.kind.RunCancelAck?, now)
    else s.fires
  }

  lemma InsertWritesFires(c: Cursor, row: Record, now: Time)
    requires row.env.run < |c.srv.runs| && row.lease < |c.srv.leases| && row.env.sequence == c.ack + 1
    ensures var t, r := InsertEvent(c, row, now).srv, row.env.run;
      t.fires == FiresAfter(c.srv, row.env, now) && t.automations == c.srv.automations
      && |t.runs| == |c.srv.runs| && t.runs == c.srv.runs[r := t.runs[r]] && t.runs[r].spec == c.srv.runs[r].spec
  {}

  /** The fire of the Run is found, and has what settling it takes. */
  lemma FireIsFound(s: Server, r: RunId, f: FireId)
    requires Standing(s, r) && f < |s.fires| && s.fires[f].run == r
    ensures s.runs[r].spec.automation == Some(s.fires[f].automation) && s.fires[f].automation in s.automations
    ensures FindFire(s.fires, r, s.runs[r].spec.owner) == f
  {
    assert FireStands(s, f);
    var g := FindFire(s.fires, r, s.runs[r].spec.owner);
    assert g < |s.fires| ==> FireStands(s, g);
  }

  lemma FiresAreTouched(s: Server, e: Envelope, now: Time)
    requires Standing(s, e.run)
    ensures |FiresAfter(s, e, now)| == |s.fires|
    ensures forall f :: 0 <= f < |s.fires| ==> FireTouched(s.fires[f], FiresAfter(s, e, now)[f], e.run, e.kind)
  {
    forall f | 0 <= f < |s.fires| ensures FireTouched(s.fires[f], FiresAfter(s, e, now)[f], e.run, e.kind) {
      assert FireStands(s, f);
      if s.fires[f].run == e.run { FireIsFound(s, e.run, f); }
    }
  }

  lemma InsertTouches(c: Cursor, row: Record, now: Time)
    requires Standing(c.srv, row.env.run) && row.lease < |c.srv.leases| && row.env.sequence == c.ack + 1
    ensures Touches(c.srv, InsertEvent(c, row, now).srv, row.env.run, row.env.kind)
  {
    InsertWritesFires(c, row, now);
    FiresAreTouched(c.srv, row.env, now);
  }

  lemma TouchesKeepStanding(s: Server, t: Server, r: RunId, kind: EventKind)
    requires Standing(s, r) && Touches(s, t, r, kind)
    ensures Standing(t, r)
  {
    SpecsKeepChained(s.runs, t.runs);
    forall f | 0 <= f < |t.fires| ensures FireStands(t, f) && (t.fires[f].run != r ==> FireAgrees(t, f)) {
      assert FireStands(s, f) && FireTouched(s.fires[f], t.fires[f], r, kind);
      assert s.fires[f].run != r ==> FireAgrees(s, f);
    }
    forall q | 0 <= q < |t.runs| ensures AttemptAgrees(t.fires, q, t.runs[q]) {
      assert AttemptAgrees(s.fires, q, s.runs[q]);
    }
    forall f, g | 0 <= f < g < |t.fires|
      ensures !RivalsFor(t, r, t.fires[f], t.fires[g])
      ensures t.fires[f].automation == t.fires[g].automation ==> t.fires[f].key != t.fires[g].key
    {
      assert FireTouched(s.fires[f], t.fires[f], r, kind) && FireTouched(s.fires[g], t.fires[g], r, kind);
      assert !RivalsFor(s, r, s.fires[f], s.fires[g]);
    }
  }

  /** The fire after a batch: as it was while the batch does not end the Run; and if the status
      the batch writes last is terminal, settled as that status says. */
  ghost predicate SettledBy(a: Fire, b: Fire, news: seq<EventMessage>, status: RunStatus) {
    && b.run == a.run
    && (!Ends(news) ==> b == a || (a.status.InFlight() && b.status.InFlight()))
    && (Ends(news) && LastWritten(news, status).IsTerminal() ==> Tells(b, LastWritten(news, status)))
    && (Ends(news) ==> !b.status.InFlight())
  }

  /** One message, then the others. */
  lemma SettledThen(a: Fire, b: Fire, c: Fire, news: seq<EventMessage>, status: RunStatus, r: RunId)
    requires |news| > 0 && a.run == r && FireTouched(a, b, r, news[0].kind)
    requires SettledBy(b, c, news[1..], StatusAfter(news[0].kind, status))
    ensures SettledBy(a, c, news, status)
  {
    TerminalStays(news[1..], StatusAfter(news[0].kind, status));
  }

  /** Without a terminal message a terminal status is not overwritten by another one. */
  lemma {:induction false} TerminalStays(news: seq<EventMessage>, status: RunStatus)
    ensures !Ends(news) && LastWritten(news, status).IsTerminal() ==> LastWritten(news, status) == status
    decreases |news|
  {
    if |news| > 0 { TerminalStays(news[1..], StatusAfter(news[0].kind, status)); }
  }

  lemma {:induction false} InsertAllStands(c: Cursor, i: LeaseId, lease: Lease, news: seq<EventMessage>, now: Time)
    requires i < |c.srv.leases| && Consecutive(news, c.ack) && Standing(c.srv, lease.grant.run)
    ensures var s, t, r := c.srv, InsertAll(c, i, lease, news, now).srv, lease.grant.run;
      Standing(t, r) && |t.fires| == |s.fires|
      && forall f :: 0 <= f < |s.fires| && s.fires[f].run == r ==> SettledBy(s.fires[f], t.fires[f], news, s.runs[r].status)
    decreases |news|
  {
    if |news| > 0 {
      var s, r, row := c.srv, lease.grant.run, Row(i, lease, news[0]);
      var d := InsertEvent(c, row, now);
      InsertTouches(c, row, now);
      TouchesKeepStanding(s, d.srv, r, row.env.kind);
      InsertRaisesAck(c, row, now);
      InsertLands(c, i, lease, news[0], now);
      OneNew(news[0], c.ack, s.runs[r].status);
      InsertAllStands(d, i, lease, news[1..], now);
      var t := InsertAll(c, i, lease, news, now).srv;
      forall f | 0 <= f < |s.fires| && s.fires[f].run == r ensures SettledBy(s.fires[f], t.fires[f], news, s.runs[r].status) {
        assert FireTouched(s.fires[f], d.srv.fires[f], r, news[0].kind);
        SettledThen(s.fires[f], d.srv.fires[f], t.fires[f], news, s.runs[r].status, r);
      }
    }
  }

  lemma NoRivalsMeansExclusive(s: Server, r: RunId)
    requires NoRivals(s, r)
    ensures SkipExclusive(s)
  {
    forall g, h | 0 <= g < h < |s.fires| ensures !Rivals(s, s.fires[g], s.fires[h]) {
      assert !RivalsFor(s, r, s.fires[g], s.fires[h]);
    }
  }

  /** A fire names the Run only if the Run's key names the fire. */
  lemma NamedByKey(s: Server, r: RunId)
    requires Standing(s, r)
    ensures forall g :: 0 <= g < |s.fires| && s.fires[g].run == r ==> s.runs[r].spec.key == FireKey(g, s.fires[g].attempt)
  {
    forall g | 0 <= g < |s.fires| && s.fires[g].run == r ensures s.runs[r].spec.key == FireKey(g, s.fires[g].attempt) {
      assert FireStands(s, g);
    }
  }

  lemma StandingIsFired(s: Server, r: RunId, f: FireId)
    requires Standing(s, r) && f < |s.fires| && s.fires[f].run == r
    ensures Fired(s) <==> Tells(s.fires[f], s.runs[r].status)
  {
    NoRivalsMeansExclusive(s, r);
    NamedByKey(s, r);
    forall g | 0 <= g < |s.fires| && g != f ensures FireAgrees(s, g) { assert s.fires[g].run != r; }
    assert FireStands(s, f);
    assert FiresAgree(s) <==> FireAgrees(s, f);
  }

  lemma NoFireStanding(s: Server, r: RunId)
    requires Standing(s, r) && !s.runs[r].spec.key.FireKey?
    ensures Fired(s)
  {
    NoRivalsMeansExclusive(s, r);
    NamedByKey(s, r);
    forall g | 0 <= g < |s.fires| ensures FireAgrees(s, g) { assert s.fires[g].run != r; }
  }

  /** The batch ends the Run of a fire and then writes a status that is not terminal. */
  predicate Unsettles(s: Server, r: RunId, i: LeaseId, ms: seq<EventMessage>)
    requires r < |s.runs| && i < |s.leases|
  {
    var news := News(ms, s.leases[i].ack);
    s.runs[r].spec.key.FireKey? && Ends(news) && !LastWritten(news, s.runs[r].status).IsTerminal()
  }

  /** Exactly when an accepted batch keeps fires and the Runs of their attempts together. */
  lemma FiredExactly(s: Server, p: Principal, r: RunId, i: LeaseId, epoch: nat, ms: seq<EventMessage>, now: Time)
    requires Ledger.Valid(s) && Tethered(s, now) && Fired(s) && SubmitEvents(s, p, r, i, epoch, ms, now).1.Success?
    ensures Fired(SubmitEvents(s, p, r, i, epoch, ms, now).0) <==> !Unsettles(s, r, i, ms)
  {
    var t, lease := SubmitEvents(s, p, r, i, epoch, ms, now).0, s.leases[i];
    var c, news := Cursor(s, lease.ack, lease.terminal), News(ms, lease.ack);
    SubmitLands(s, p, r, i, epoch, ms, now);
    if news != [] {
      LiveMeansResident(s, i, now);
      OpenRunStands(s, r);
      SubmitStands(s, p, r, i, epoch, ms, now);
      WrittenStatus(news, s.runs[r].status);
      if s.runs[r].spec.key.FireKey? {
        var f := s.runs[r].spec.key.fire;
        assert FireAgrees(s, f);
        StandingIsFired(t, r, f);
      } else {
        NoFireStanding(t, r);
      }
    }
  }

  lemma SubmitStands(s: Server, p: Principal, r: RunId, i: LeaseId, epoch: nat, ms: seq<EventMessage>, now: Time)
    requires Ledger.Valid(s) && Standing(s, r) && SubmitEvents(s, p, r, i, epoch, ms, now).1.Success?
    ensures var t := SubmitEvents(s, p, r, i, epoch, ms, now).0;
      Standing(t, r) && |t.fires| == |s.fires|
      && forall f :: 0 <= f < |s.fires| && s.fires[f].run == r ==>
           SettledBy(s.fires[f], t.fires[f], News(ms, s.leases[i].ack), s.runs[r].status)
  {
    var lease := s.leases[i];
    var c := Cursor(s, lease.ack, lease.terminal);
    assert Ledger.Commit(c, i) == s;
    SubmitAllInserts(c, i, lease, ms, now);
    InsertAllStands(c, i, lease, News(ms, lease.ack), now);
    SameTablesStand(SubmitAll(c, i, lease, ms, now).value.srv, SubmitEvents(s, p, r, i, epoch, ms, now).0, r);
  }

  lemma SameTablesStand(s: Server, t: Server, r: RunId)
    requires Standing(s, r) && t.runs == s.runs && t.fires == s.fires && t.automations == s.automations
    ensures Standing(t, r)
  {
    forall f | 0 <= f < |t.fires| ensures FireStands(t, f) && (t.fires[f].run != r ==> FireAgrees(t, f)) { assert FireStands(s, f); }
    forall f, g | 0 <= f < g < |t.fires| ensures !RivalsFor(t, r, t.fires[f], t.fires[g]) { assert !RivalsFor(s, r, s.fires[f], s.fires[g]); }
  }

  // --------------------------------------------------------------- every step

  /** Accepted batches are conclusive, and accounts post no assistant message on a Run. */
  predicate Orderly(s: Server, tx: Transaction, now: Time) {
    match tx
    case Submit(p, r, i, epoch, ms) =>
      SubmitEvents(s, p, r, i, epoch, ms, now).1.Success? ==>
        Conclusive(EpochLog(s.events, r, epoch), s.leases[i], s.runs[r].status, News(ms, s.leases[i].ack))
    case Post(m) => m.run >= |s.runs|
    case _ => true
  }

  /** The outcomes survive a transaction exactly if it is orderly. */
  lemma PerformKeepsOutcomes(s: Server, tx: Transaction, now: Time)
    requires Ledger.Valid(s) && Tethered(s, now) && Concluded(s) && KeyedByUser(tx)
    ensures Concluded(Perform(s, tx, now)) <==> Orderly(s, tx, now)
  {
    match tx
    case Submit(p, r, i, epoch, ms) =>
      if SubmitEvents(s, p, r, i, epoch, ms, now).1.Success? {
        FinalizedExactly(s, p, r, i, epoch, ms, now);
        FiredExactly(s, p, r, i, epoch, ms, now);
      }
    case Post(m) => PostedExactly(s, m);
    case _ => OthersKeepOutcomes(s, tx, now);
  }

  /** A batch in which nothing follows a terminal event is always conclusive. */
  lemma TerminalLastIsConclusive(log: seq<Record>, lease: Lease, status: RunStatus, news: seq<EventMessage>)
    requires forall k :: 0 <= k < |news| - 1 ==> !news[k].kind.IsTerminal()
    ensures Conclusive(log, lease, status, news)
  {
    if Ends(news) { EndIsLast(news, status); }
  }

  lemma {:induction false} EndIsLast(news: seq<EventMessage>, status: RunStatus)
    requires forall k :: 0 <= k < |news| - 1 ==> !news[k].kind.IsTerminal()
    requires Ends(news)
    ensures PastEnd(news) == [] && LastWritten(news, status).IsTerminal()
    decreases |news|
  {
    if |news| == 1 {
      OneNew(news[0], 0, status);
      assert news == [news[0]];
    } else {
      EndIsLast(news[1..], StatusAfter(news[0].kind, status));
    }
  }

  // -------------------------------------------------- whatever anyone sends

  lemma StaysAnswered(s: Server, t: Server)
    requires EndedAnswered(s.runs, s.messages) && s.messages <= t.messages
    requires forall r :: 0 <= r < |t.runs| && t.runs[r].status.IsTerminal() ==>
      (r < |s.runs| && s.runs[r].status.IsTerminal()) || Answered(t.messages, r)
    ensures EndedAnswered(t.runs, t.messages)
  {
    forall r | 0 <= r < |t.runs| && t.runs[r].status.IsTerminal() ensures Answered(t.messages, r) {
      if r < |s.runs| && s.runs[r].status.IsTerminal() {
        var k :| 0 <= k < |s.messages| && s.messages[k].run == r;
        assert t.messages[k].run == r;
      }
    }
  }

  lemma FinalMessageAnswers(messages: seq<Message>, events: seq<Record>, r: RunId, epoch: nat, errorMessage: string)
    ensures messages <= WithFinalMessage(messages, events, r, epoch, errorMessage)
    ensures Answered(WithFinalMessage(messages, events, r, epoch, errorMessage), r)
  {
    if !Answered(messages, r) { assert WithFinalMessage(messages, events, r, epoch, errorMessage)[|messages|].run == r; }
  }

  lemma ServerTerminalAnswers(s: Server, r: RunId, status: RunStatus, code: string, text: string, now: Time)
    requires EndedAnswered(s.runs, s.messages) && r < |s.runs|
    ensures var t := ServerTerminal(s, r, status, code, text, now); EndedAnswered(t.runs, t.messages)
  {
    FinalMessageAnswers(s.messages, s.events, r, s.runs[r].leaseEpoch, text);
    StaysAnswered(s, ServerTerminal(s, r, status, code, text, now));
  }

  lemma DropAnswers(s: Server, i: LeaseId, to: LeaseStatus, now: Time)
    requires EndedAnswered(s.runs, s.messages) && i < |s.leases|
    ensures var t := DropLease(s, i, to, now); EndedAnswered(t.runs, t.messages) && |t.leases| == |s.leases|
  {
    var r, u := s.leases[i].grant.run, s.(leases := s.leases[i := s.leases[i].(status := to)]);
    if r < |s.runs| {
      ServerTerminalAnswers(u, r, Failed, "lease_recovery_exhausted", "Run lease recovery limit exceeded", now);
    }
  }

  lemma {:induction false} DropFromAnswers(s: Server, i: nat, doomed: Doomed, now: Time)
    requires EndedAnswered(s.runs, s.messages)
    ensures var t := DropFrom(s, i, doomed, now); EndedAnswered(t.runs, t.messages)
    decreases |s.leases| - i
  {
    if i < |s.leases| {
      DropAnswers(s, i, doomed.Outcome(), now);
      DropFromAnswers(if doomed.Hits(s.leases[i]) then DropLease(s, i, doomed.Outcome(), now) else s, i + 1, doomed, now);
    }
  }

  lemma SubmitAnswers(s: Server, p: Principal, r: RunId, i: LeaseId, epoch: nat, ms: seq<EventMessage>, now: Time)
    requires Ledger.Valid(s) && EndedAnswered(s.runs, s.messages)
    ensures var t := SubmitEvents(s, p, r, i, epoch, ms, now).0; EndedAnswered(t.runs, t.messages)
  {
    if SubmitEvents(s, p, r, i, epoch, ms, now).1.Success? {
      var lease, news := s.leases[i], News(ms, s.leases[i].ack);
      SubmitLands(s, p, r, i, epoch, ms, now);
      WrittenStatus(news, s.runs[r].status);
      if Ends(news) { FinalMessageAnswers(s.messages, s.events + Rows(i, lease, ToEnd(news)), r, epoch, EndError(news)); }
      StaysAnswered(s, SubmitEvents(s, p, r, i, epoch, ms, now).0);
    }
  }

  lemma CancelAnswers(s: Server, r: RunId, owner: OwnerId, now: Time)
    requires EndedAnswered(s.runs, s.messages)
    ensures var t := RequestCancel(s, r, owner, now).0; EndedAnswered(t.runs, t.messages)
  {
    if Owns(s, r, owner) {
      ServerTerminalAnswers(s, r, Cancelled, "cancelled_by_user", "Run cancelled before local execution", now);
    }
  }

  lemma ResumeAnswers(s: Server, r: RunId, owner: OwnerId, now: Time)
    requires EndedAnswered(s.runs, s.messages)
    ensures var t := RequestResume(s, r, owner, now).0; EndedAnswered(t.runs, t.messages)
  {
    if Owns(s, r, owner) {
      ServerTerminalAnswers(s.(leases := ExpireHeld(s.leases, r)), r, Failed, "resume_checkpoint_unavailable", RESUME_ERROR, now);
    }
  }

  lemma SmallStepAnswers(s: Server, tx: Transaction, now: Time)
    requires EndedAnswered(s.runs, s.messages)
    requires tx.Register? || tx.Beat? || tx.Turn? || tx.AddRun? || tx.Post? || tx.Renew? || tx.Pause? || tx.Answer? || tx.Enqueue? || tx.Ignore?
    ensures EndedAnswered(Perform(s, tx, now).runs, Perform(s, tx, now).messages)
  {
    StaysAnswered(s, Perform(s, tx, now));
  }

  /** Whatever batch or message comes, an ended Run has an assistant message. */
  lemma PerformKeepsAnswered(s: Server, tx: Transaction, now: Time)
    requires Ledger.Valid(s) && EndedAnswered(s.runs, s.messages)
    ensures EndedAnswered(Perform(s, tx, now).runs, Perform(s, tx, now).messages)
  {
    match tx
    case Claim(who, seconds) => DropFromAnswers(s, 0, ExpiredOf(who.owner, now), now);
    case Submit(p, r, i, epoch, ms) => SubmitAnswers(s, p, r, i, epoch, ms, now);
    case Revoke(device, owner) =>
      if device in s.devices && s.devices[device].owner == owner {
        DropFromAnswers(s.(devices := s.devices[device := s.devices[device].(status := DeviceRevoked)]), 0, HeldBy(device), now);
      }
    case Cancel(r, owner) => CancelAnswers(s, r, owner, now);
    case Resume(r, owner) => ResumeAnswers(s, r, owner, now);
    case _ => SmallStepAnswers(s, tx, now);
  }
}
