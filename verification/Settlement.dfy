/**
  How an automation fire ends with the Run of its current attempt, and what the
  message says of the error, in the words of the columns.
*/
module Settlement {
  import opened Wrappers
  import opened RunTypes
  import opened EventLog
  import opened TerminalOutput
  import opened RunProtocol
  import Ledger
  import opened Landing
  import opened Tether
  import opened Outcomes
  import opened Verdict
  import opened Recovery
  import opened History

  // ----------------------------------------------------------------- the fire

  function Doubled(n: nat, times: nat): nat { if times == 0 then n else 2 * Doubled(n, times - 1) }

  lemma {:induction false} DoubledIsPower(n: nat, times: nat)
    ensures Doubled(n, times) == n * Power2(times)
  {
    if times > 0 {
      DoubledIsPower(n, times - 1);
      assert n * (2 * Power2(times - 1)) == 2 * (n * Power2(times - 1));
    }
  }

  /** The fire after its Run ended: done, given up by the user, due again after a backoff that
      doubles with each attempt (30 seconds to begin with, if the automation says nothing), or dead. */
  ghost predicate SettledAs(before: Fire, after: Fire, backoff: nat, run: RunStatus, now: Time) {
    match run
    case Completed => after == before.(status := FireSucceeded, nextAttemptAt := None)
    case Cancelled => after == before.(status := FireIgnored, nextAttemptAt := None)
    case Failed =>
      if before.attempt < before.maxAttempts then
        before.attempt >= 1
        && after == before.(status := FireRetryWait,
                            nextAttemptAt := Some(now + Doubled(if backoff == 0 then 30 else backoff, before.attempt - 1)))
      else after == before.(status := FireDeadLetter, nextAttemptAt := None)
    case Queued | Leased | Running | WaitingUser | Paused | Recoverable | Succeeded => false
  }

  lemma SettleExactly(fire: Fire, backoff: nat, failed: bool, cancelled: bool, now: Time)
    requires fire.attempt >= 1
    ensures SettledAs(fire, Settle(fire, backoff, failed, cancelled, now), backoff,
                      if cancelled then Cancelled else if failed then Failed else Completed, now)
  {
    DoubledIsPower(if backoff == 0 then 30 else backoff, fire.attempt - 1);
  }

  /** The step that ends a fire's Run settles that fire by the Run's final status, and no other fire. */
  lemma EndingSettlesExactly(s: Server, t: Server, r: RunId, f: FireId, errorMessage: string, failed: bool, cancelled: bool, now: Time)
    requires Fired(s) && Ending(s, t, r, errorMessage, failed, cancelled, now) && f < |s.fires| && s.fires[f].run == r
    ensures |t.fires| == |s.fires| && s.fires[f].automation in s.automations
    ensures SettledAs(s.fires[f], t.fires[f], s.automations[s.fires[f].automation].backoff,
                      if cancelled then Cancelled else if failed then Failed else Completed, now)
    ensures forall g :: 0 <= g < |s.fires| && g != f ==> t.fires[g] == s.fires[g]
  {
    assert FireAgrees(s, f);
    FinishFindsFire(s, r, f);
    SettleExactly(s.fires[f], s.automations[s.fires[f].automation].backoff, failed, cancelled, now);
  }

  /** After any orderly history the status of each fire and that of its current Run tell each other. */
  lemma FiresTellTheirRuns(automations: map<AutomationId, Automation>, h: seq<Timed>, from: Time, f: FireId)
    requires WellBehaved(Initial(automations), h, from) && f < |Replay(Initial(automations), h).fires|
    ensures var s := Replay(Initial(automations), h);
      var fire := s.fires[f];
      fire.run < |s.runs| && s.runs[fire.run].spec.key == FireKey(f, fire.attempt) && 1 <= fire.attempt <= fire.maxAttempts
      && Tells(fire, s.runs[fire.run].status) && (fire.status == FireRetryWait ==> fire.attempt < fire.maxAttempts)
  {
    EveryHistoryIsGood(automations, h, from);
    assert FireAgrees(Replay(Initial(automations), h), f);
  }

  /** A started Run moves its own queued fire to running, and nothing else of any fire. */
  lemma StartedRunMovesFire(s: Server, p: Principal, r: RunId, i: LeaseId, epoch: nat, m: EventMessage, now: Time)
    requires Ledger.Valid(s) && SubmitEvents(s, p, r, i, epoch, [m], now).1.Success?
    requires m.sequence == s.leases[i].ack + 1 && m.kind == RunStarted
    ensures var t := SubmitEvents(s, p, r, i, epoch, [m], now).0;
      |t.fires| == |s.fires| && t.messages == s.messages
      && forall f :: 0 <= f < |s.fires| ==>
           t.fires[f] == (if s.fires[f].run == r && s.fires[f].status == FireQueued then s.fires[f].(status := FireRunning) else s.fires[f])
  {
    OneEvent(s, p, r, i, epoch, m, now);
  }

  /** A submission of one new event is its insert. */
  lemma OneEvent(s: Server, p: Principal, r: RunId, i: LeaseId, epoch: nat, m: EventMessage, now: Time)
    requires Ledger.Valid(s) && SubmitEvents(s, p, r, i, epoch, [m], now).1.Success? && m.sequence == s.leases[i].ack + 1
    ensures r < |s.runs| && s.leases[i].grant.run == r && s.leases[i].grant.epoch == s.runs[r].leaseEpoch && Live(s.leases[i], now)
    ensures var c := Cursor(s, s.leases[i].ack, s.leases[i].terminal);
      SubmitEvents(s, p, r, i, epoch, [m], now).0 == SetAck(InsertEvent(c, Row(i, s.leases[i], m), now).srv, i, s.leases[i].ack + 1)
  {
    var lease := s.leases[i];
    var c := Cursor(s, lease.ack, lease.terminal);
    assert Ledger.Commit(c, i) == s;
    SubmitAllInserts(c, i, lease, [m], now);
    OneNew(m, lease.ack, s.runs[r].status);
    InsertRaisesAck(c, Row(i, lease, m), now);
    SubmitLands(s, p, r, i, epoch, [m], now);
    assert [m][1..] == [];
  }

  /** An accepted terminal event settles the fire of its Run. */
  lemma EventSettles(s: Server, p: Principal, r: RunId, i: LeaseId, epoch: nat, m: EventMessage, f: FireId, now: Time)
    requires Ledger.Valid(s) && Tethered(s, now) && Fired(s) && SubmitEvents(s, p, r, i, epoch, [m], now).1.Success?
    requires m.sequence == s.leases[i].ack + 1 && m.kind in {RunCompleted, RunFailed, RunCancelled, RunCancelAck}
    requires f < |s.fires| && s.fires[f].run == r
    ensures var t := SubmitEvents(s, p, r, i, epoch, [m], now).0;
      |t.fires| == |s.fires| && s.fires[f].automation in s.automations
      && SettledAs(s.fires[f], t.fires[f], s.automations[s.fires[f].automation].backoff,
                   if m.kind == RunCompleted then Completed else if m.kind == RunFailed then Failed else Cancelled, now)
      && forall g :: 0 <= g < |s.fires| && g != f ==> t.fires[g] == s.fires[g]
  {
    OneEvent(s, p, r, i, epoch, m, now);
    LiveMeansResident(s, i, now);
    var c, row := Cursor(s, s.leases[i].ack, s.leases[i].terminal), Row(i, s.leases[i], m);
    InsertIsEnding(c, row, now);
    EndingSettlesExactly(s, InsertEvent(c, row, now).srv, r, f, m.payload.errorMessage, m.kind != RunCompleted,
                         m.kind in {RunCancelled, RunCancelAck}, now);
  }

  // ------------------------------------------------------- the Server's own ends

  /** A lease taken away from an exhausted Run settles its fire as failed; any other Run's fire stays. */
  lemma DropSettles(s: Server, i: LeaseId, to: LeaseStatus, now: Time, f: FireId)
    requires Concluded(s) && i < |s.leases| && s.leases[i].grant.run < |s.runs| && f < |s.fires|
    ensures var t, r := DropLease(s, i, to, now), s.leases[i].grant.run;
      |t.fires| == |s.fires| && Concluded(t) && t.automations == s.automations && s.fires[f].automation in s.automations
      && if s.fires[f].run == r && Exhausted(s.runs[r])
         then SettledAs(s.fires[f], t.fires[f], s.automations[s.fires[f].automation].backoff, Failed, now)
         else t.fires[f] == s.fires[f]
  {
    var r, u := s.leases[i].grant.run, s.(leases := s.leases[i := s.leases[i].(status := to)]);
    IgnoringLeases(s, u);
    RecoverKeeps(u, r, now);
    assert FireAgrees(s, f);
    if Exhausted(s.runs[r]) {
      ExhaustionIsEnding(u, r, now);
      if s.fires[f].run == r {
        EndingSettlesExactly(u, RecoverRun(u, r, now), r, f, "Run lease recovery limit exceeded", true, false, now);
      }
    }
  }

  lemma ExhaustionIsEnding(s: Server, r: RunId, now: Time)
    requires r < |s.runs| && Exhausted(s.runs[r])
    ensures Ending(s, RecoverRun(s, r, now), r, "Run lease recovery limit exceeded", true, false, now)
  {}

  /** A fire after a sweep: settled as failed exactly if its Run lost its lease with no recovery left. */
  ghost predicate FireSwept(s: Server, t: Server, f: FireId, lost: bool, now: Time)
    requires f < |s.fires|
  {
    var r := s.fires[f].run;
    |t.fires| == |s.fires| && r < |s.runs| && s.fires[f].automation in s.automations
    && if lost && Exhausted(s.runs[r])
       then SettledAs(s.fires[f], t.fires[f], s.automations[s.fires[f].automation].backoff, Failed, now)
       else t.fires[f] == s.fires[f]
  }

  lemma FireSweptThen(s: Server, t: Server, u: Server, f: FireId, first: bool, second: bool, now: Time)
    requires f < |s.fires| && FireSwept(s, t, f, first, now) && FireSwept(t, u, f, second, now) && !(first && second)
    requires t.automations == s.automations
    requires !first ==> s.fires[f].run < |t.runs| && t.runs[s.fires[f].run] == s.runs[s.fires[f].run]
    ensures FireSwept(s, u, f, first || second, now)
  {}

  /** One step of a sweep. */
  lemma DropSweepsFire(s: Server, i: LeaseId, doomed: Doomed, now: Time, f: FireId)
    requires Ledger.Valid(s) && Tethered(s, now) && Concluded(s) && f < |s.fires| && i < |s.leases| && doomed.Hits(s.leases[i])
    ensures var t := DropLease(s, i, doomed.Outcome(), now);
      FireSwept(s, t, f, s.leases[i].grant.run == s.fires[f].run, now) && Concluded(t) && t.automations == s.automations
      && t.fires[f].run == s.fires[f].run
  {
    assert FireAgrees(s, f);
    DoomedDrop(s, i, doomed, now);
    DropSettles(s, i, doomed.Outcome(), now, f);
  }

  lemma {:induction false} SweepSettles(s: Server, i: nat, doomed: Doomed, now: Time, f: FireId)
    requires Ledger.Valid(s) && Tethered(s, now) && Concluded(s) && f < |s.fires|
    ensures FireSwept(s, DropFrom(s, i, doomed, now), f, LosesFrom(s, i, doomed, s.fires[f].run), now)
    decreases |s.leases| - i
  {
    var r := s.fires[f].run;
    if i >= |s.leases| {
      assert FireAgrees(s, f);
    } else if doomed.Hits(s.leases[i]) {
      var t := DropLease(s, i, doomed.Outcome(), now);
      DoomedDrop(s, i, doomed, now);
      DropSweepsFire(s, i, doomed, now, f);
      SweepSettles(t, i + 1, doomed, now, f);
      LosesNext(s, i, doomed, now, r);
      FireSweptThen(s, t, DropFrom(s, i, doomed, now), f, s.leases[i].grant.run == r, LosesFrom(t, i + 1, doomed, r), now);
    } else {
      SweepSettles(s, i + 1, doomed, now, f);
      assert LosesFrom(s, i, doomed, r) <==> LosesFrom(s, i + 1, doomed, r);
    }
  }

  /** What an owner's expired leases do to a fire. */
  lemma ExpirySettles(s: Server, owner: OwnerId, now: Time, f: FireId)
    requires Ledger.Valid(s) && Tethered(s, now) && Concluded(s) && f < |s.fires|
    ensures FireSwept(s, ExpireLeases(s, owner, now), f, LapsedOn(s.leases, s.fires[f].run, owner, now), now)
  {
    SweepSettles(s, 0, ExpiredOf(owner, now), now, f);
    assert forall l :: Lapsed(l, owner, now) <==> ExpiredOf(owner, now).Hits(l);
    assert LapsedOn(s.leases, s.fires[f].run, owner, now) <==> LosesFrom(s, 0, ExpiredOf(owner, now), s.fires[f].run);
  }

  // --------------------------------------------------------------- the message

  predicate Absent(log: seq<Record>, kind: EventKind) { forall k :: 0 <= k < |log| ==> log[k].env.kind != kind }

  /** Row k is the last one of this kind. */
  predicate LastOf(log: seq<Record>, k: nat, kind: EventKind) { k < |log| && log[k].env.kind == kind && forall j :: k < j < |log| ==> log[j].env.kind != kind }

  lemma LastOfMore(init: seq<Record>, last: Record, k: nat, kind: EventKind)
    ensures Absent(init + [last], kind) <==> Absent(init, kind) && last.env.kind != kind
    ensures LastOf(init + [last], k, kind) <==> if last.env.kind == kind then k == |init| else LastOf(init, k, kind)
  {
    var log := init + [last];
    assert log[|init|] == last;
    assert forall j :: 0 <= j < |init| ==> log[j] == init[j];
  }

  /** The text, or its first 20000 characters. */
  predicate Cut(text: string, cut: string) {
    if |text| <= 20000 then cut == text else cut == text[..20000]
  }

  /** The last streamed error, if any. */
  ghost predicate LastError(log: seq<Record>, error: string) {
    (Absent(log, UiError) ==> error == "")
    && forall k: nat :: LastOf(log, k, UiError) ==> Cut(log[k].env.payload.message, error)
  }

  /** The usage the last usage event reported, if any. */
  ghost predicate LastUsed(log: seq<Record>, usage: Option<Usage>) {
    (Absent(log, UiUsage) ==> usage == None)
    && forall k: nat :: LastOf(log, k, UiUsage) ==>
         usage == Some(Usage(log[k].env.payload.promptTokens, log[k].env.payload.completionTokens))
  }

  lemma OneMore(log: seq<Record>)
    requires |log| > 0
    ensures var out, rest, last := Collect(log), Collect(log[..|log| - 1]), log[|log| - 1].env;
      (if last.kind == UiError then Cut(last.payload.message, out.streamError) else out.streamError == rest.streamError)
      && out.usage == if last.kind == UiUsage then Some(Usage(last.payload.promptTokens, last.payload.completionTokens)) else rest.usage
  {}

  lemma {:induction false} ErrorIsLast(log: seq<Record>)
    ensures LastError(log, Collect(log).streamError)
  {
    if |log| > 0 {
      var init, last := log[..|log| - 1], log[|log| - 1];
      ErrorIsLast(init);
      OneMore(log);
      assert log == init + [last];
      forall k: nat ensures LastOf(log, k, UiError) ==> Cut(log[k].env.payload.message, Collect(log).streamError) {
        LastOfMore(init, last, k, UiError);
      }
      LastOfMore(init, last, 0, UiError);
    }
  }

  lemma {:induction false} UsageIsLast(log: seq<Record>)
    ensures LastUsed(log, Collect(log).usage)
  {
    if |log| > 0 {
      var init, last := log[..|log| - 1], log[|log| - 1];
      UsageIsLast(init);
      OneMore(log);
      assert log == init + [last];
      forall k: nat
        ensures LastOf(log, k, UiUsage) ==>
          Collect(log).usage == Some(Usage(log[k].env.payload.promptTokens, log[k].env.payload.completionTokens))
      {
        LastOfMore(init, last, k, UiUsage);
      }
      LastOfMore(init, last, 0, UiUsage);
    }
  }

  /** The one message of the step that ends a Run: its error is the terminal event's own, or else the last
      one streamed, and its usage the last reported. */
  lemma EndingMessage(s: Server, t: Server, r: RunId, errorMessage: string, failed: bool, cancelled: bool, now: Time)
    requires Ending(s, t, r, errorMessage, failed, cancelled, now) && !Answered(s.messages, r)
    ensures |t.messages| == |s.messages| + 1 && t.messages[..|s.messages|] == s.messages
    ensures var m, log := t.messages[|s.messages|], EpochLog(t.events, r, s.runs[r].leaseEpoch);
      m.run == r && LastUsed(log, m.usage)
      && if errorMessage != "" then Cut(errorMessage, m.error) else LastError(log, m.error)
  {
    var log := EpochLog(t.events, r, s.runs[r].leaseEpoch);
    ErrorIsLast(log);
    UsageIsLast(log);
  }
}
