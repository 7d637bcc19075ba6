/**
  What a Run leaves behind when it ends: exactly one assistant message built
  from the terminal epoch's events, and a settled automation fire.
*/
module Outcomes {
  import opened Wrappers
  import opened RunTypes
  import opened EventLog
  import opened TerminalOutput
  import opened RunProtocol
  import Ledger

  // ------------------------------------------------------------- invariants

  /** The message holds the terminal epoch's text, trace and usage. */
  ghost predicate MessageAgrees(s: Server, m: Message) {
    m.run < |s.runs| && s.runs[m.run].status.IsTerminal()
    && var out := Collect(EpochLog(s.events, m.run, s.runs[m.run].leaseEpoch));
       m.content == out.content && m.trace == out.trace && m.usage == out.usage
  }

  ghost predicate MessagesAgree(s: Server) {
    forall k :: 0 <= k < |s.messages| ==> MessageAgrees(s, s.messages[k])
  }

  ghost predicate EndedAnswered(runs: seq<Run>, messages: seq<Message>) {
    forall r :: 0 <= r < |runs| && runs[r].status.IsTerminal() ==> Answered(messages, r)
  }

  ghost predicate OneMessageEach(messages: seq<Message>) {
    forall j, k :: 0 <= j < k < |messages| ==> messages[j].run != messages[k].run
  }

  ghost predicate Finalized(s: Server) {
    MessagesAgree(s) && EndedAnswered(s.runs, s.messages) && OneMessageEach(s.messages)
  }

  /** A fire names the Run of its current attempt. */
  ghost predicate FireStands(s: Server, f: FireId)
    requires f < |s.fires|
  {
    var fire := s.fires[f];
    && fire.run < |s.runs| && s.runs[fire.run].spec.key == FireKey(f, fire.attempt)
    && s.runs[fire.run].spec.automation == Some(fire.automation) && s.runs[fire.run].spec.owner == fire.owner
    && fire.automation in s.automations && s.automations[fire.automation].owner == fire.owner
    && 1 <= fire.attempt <= fire.maxAttempts
    && (fire.status.FireRetryWait? ==> fire.attempt < fire.maxAttempts)
  }

  /** What the status of a fire says about the Run of its current attempt, and the other way round. */
  predicate Tells(fire: Fire, run: RunStatus) {
    match run
    case Completed | Succeeded => fire.status == FireSucceeded
    case Cancelled => fire.status == FireIgnored
    case Failed => fire.status in {FireRetryWait, FireDeadLetter, FireIgnored}
                   && (fire.status == FireDeadLetter ==> fire.attempt == fire.maxAttempts)
    case Queued | Leased | Running | WaitingUser | Paused | Recoverable => fire.status in {FireQueued, FireRunning}
  }

  ghost predicate FireAgrees(s: Server, f: FireId)
    requires f < |s.fires|
  {
    FireStands(s, f) && Tells(s.fires[f], s.runs[s.fires[f].run].status)
  }

  /** A Run started by a fire is its current attempt, or an earlier one that ended. */
  ghost predicate AttemptAgrees(fires: seq<Fire>, r: RunId, run: Run) {
    run.spec.key.FireKey? ==>
      var f, k := run.spec.key.fire, run.spec.key.attempt;
      f < |fires| && 1 <= k <= fires[f].attempt && run.spec.owner == fires[f].owner
      && (if k == fires[f].attempt then fires[f].run == r else run.status.IsTerminal())
  }

  /** Each attempt but the first names the Run of the attempt before it. */
  ghost predicate RetriesOf(runs: seq<Run>, spec: RunSpec) {
    spec.key.FireKey? ==>
      if spec.key.attempt <= 1 then spec.retryOf == None
      else spec.retryOf.Some? && spec.retryOf.value < |runs|
           && runs[spec.retryOf.value].spec.key == FireKey(spec.key.fire, spec.key.attempt - 1)
           && runs[spec.retryOf.value].spec.owner == spec.owner
  }

  ghost predicate Chained(runs: seq<Run>) {
    forall r :: 0 <= r < |runs| ==> RetriesOf(runs, runs[r].spec)
  }

  ghost predicate KeysDistinct(runs: seq<Run>) {
    forall i, j :: 0 <= i < j < |runs| && runs[i].spec.owner == runs[j].spec.owner && !runs[i].spec.key.NoKey? ==>
      runs[i].spec.key != runs[j].spec.key
  }

  ghost predicate FireKeysDistinct(fires: seq<Fire>) {
    forall f, g :: 0 <= f < g < |fires| && fires[f].automation == fires[g].automation ==> fires[f].key != fires[g].key
  }

  /** Two active fires of one `skip` automation. */
  ghost predicate Rivals(s: Server, a: Fire, b: Fire) {
    a.automation == b.automation && a.status.IsActive() && b.status.IsActive()
    && a.automation in s.automations && s.automations[a.automation].skip
  }

  ghost predicate SkipExclusive(s: Server) {
    forall f, g :: 0 <= f < g < |s.fires| ==> !Rivals(s, s.fires[f], s.fires[g])
  }

  ghost predicate FiresAgree(s: Server) {
    forall f :: 0 <= f < |s.fires| ==> FireAgrees(s, f)
  }

  ghost predicate AttemptsAgree(fires: seq<Fire>, runs: seq<Run>) {
    forall r :: 0 <= r < |runs| ==> AttemptAgrees(fires, r, runs[r])
  }

  ghost predicate Fired(s: Server) {
    FiresAgree(s) && AttemptsAgree(s.fires, s.runs) && KeysDistinct(s.runs) && Chained(s.runs)
    && FireKeysDistinct(s.fires) && SkipExclusive(s)
  }

  ghost predicate Concluded(s: Server) { Finalized(s) && Fired(s) }

  // --------------------------------------------------- the two kinds of step

  /** Ended Runs are untouched, no Run ends, no event joins an ended Run. */
  ghost predicate RunsCalm(a: seq<Run>, b: seq<Run>) {
    |a| <= |b|
    && (forall r :: 0 <= r < |a| ==> a[r].spec == b[r].spec && a[r].leaseEpoch <= b[r].leaseEpoch
                                     && (if a[r].status.IsTerminal() then b[r] == a[r] else !b[r].status.IsTerminal()))
    && (forall r :: |a| <= r < |b| ==> !b[r].status.IsTerminal())
  }

  ghost predicate EventsCalm(runs: seq<Run>, a: seq<Record>, b: seq<Record>) {
    a == b
    || (|b| == |a| + 1 && b[..|a|] == a && b[|a|].env.run < |runs| && !runs[b[|a|].env.run].status.IsTerminal())
  }

  ghost predicate Calm(s: Server, t: Server) {
    RunsCalm(s.runs, t.runs) && EventsCalm(s.runs, s.events, t.events)
    && t.messages == s.messages && t.automations == s.automations
  }

  /** Run r ends, leaving its message and settling its fire. */
  ghost predicate Ending(s: Server, t: Server, r: RunId, errorMessage: string, failed: bool, cancelled: bool, now: Time) {
    && r < |s.runs| && !s.runs[r].status.IsTerminal()
    && r < |t.runs| && t.runs == s.runs[r := t.runs[r]]
    && t.runs[r].spec == s.runs[r].spec && t.runs[r].leaseEpoch == s.runs[r].leaseEpoch
    && t.runs[r].status == (if cancelled then Cancelled else if failed then Failed else Completed)
    && EventsCalm(s.runs, s.events, t.events) && t.automations == s.automations
    && t.messages == WithFinalMessage(s.messages, t.events, r, s.runs[r].leaseEpoch, errorMessage)
    && t.fires == (if s.runs[r].spec.automation.Some?
                   then FinishRun(s.fires, s.automations, r, s.runs[r].spec.owner, failed, cancelled, now) else s.fires)
  }

  // ------------------------------------------------------------- finalization

  lemma LogOfEndedRun(s: Server, events: seq<Record>, r: RunId, epoch: nat)
    requires r < |s.runs| && s.runs[r].status.IsTerminal() && EventsCalm(s.runs, s.events, events)
    ensures EpochLog(events, r, epoch) == EpochLog(s.events, r, epoch)
  {}

  lemma CalmKeepsFinalized(s: Server, t: Server)
    requires Finalized(s) && Calm(s, t)
    ensures Finalized(t)
  {}

  lemma EndingKeepsFinalized(s: Server, t: Server, r: RunId, errorMessage: string, failed: bool, cancelled: bool, now: Time)
    requires Finalized(s) && Ending(s, t, r, errorMessage, failed, cancelled, now)
    ensures Finalized(t)
  {
    forall k | 0 <= k < |s.messages| ensures s.messages[k].run != r && MessageAgrees(t, s.messages[k]) {
      assert MessageAgrees(s, s.messages[k]);
      LogOfEndedRun(s, t.events, s.messages[k].run, s.runs[s.messages[k].run].leaseEpoch);
    }
    assert t.messages == s.messages + [FinalMessage(t.events, r, s.runs[r].leaseEpoch, errorMessage)];
    forall q | 0 <= q < |t.runs| && t.runs[q].status.IsTerminal() ensures Answered(t.messages, q) {
      if q == r {
        assert t.messages[|s.messages|].run == r;
      } else {
        var k :| 0 <= k < |s.messages| && s.messages[k].run == q;
        assert t.messages[k].run == q;
      }
    }
  }

  // -------------------------------------------------------------------- fires

  lemma CalmKeepsAttempts(s: Server, t: Server)
    requires AttemptsAgree(s.fires, s.runs) && Calm(s, t) && |t.runs| == |s.runs| && |t.fires| == |s.fires|
    requires forall f :: 0 <= f < |s.fires| ==> t.fires[f] == s.fires[f].(status := t.fires[f].status, nextAttemptAt := t.fires[f].nextAttemptAt)
    ensures AttemptsAgree(t.fires, t.runs)
  {}

  /** Specs never change, so the retry chain only grows. */
  lemma SpecsKeepChained(a: seq<Run>, b: seq<Run>)
    requires Chained(a) && |a| <= |b| && forall r :: 0 <= r < |a| ==> b[r].spec == a[r].spec
    requires forall r :: |a| <= r < |b| ==> RetriesOf(a, b[r].spec)
    ensures Chained(b)
  {}

  lemma CalmKeepsFired(s: Server, t: Server)
    requires Fired(s) && Calm(s, t) && |t.runs| == |s.runs| && t.fires == s.fires
    ensures Fired(t)
  {
    SpecsKeepChained(s.runs, t.runs);
    CalmKeepsAttempts(s, t);
    forall f | 0 <= f < |t.fires| ensures FireAgrees(t, f) {
      assert FireAgrees(s, f);
    }
  }

  /** Changing one fire's status from active keeps exclusion. */
  lemma SettleKeepsExclusive(s: Server, t: Server, f: FireId)
    requires SkipExclusive(s) && f < |s.fires| && t.automations == s.automations && |t.fires| == |s.fires|
    requires forall g :: 0 <= g < |s.fires| && g != f ==> t.fires[g] == s.fires[g]
    requires t.fires[f].automation == s.fires[f].automation && (t.fires[f].status.IsActive() ==> s.fires[f].status.IsActive())
    ensures SkipExclusive(t)
  {}

  /** Only the fire whose current Run ends is settled. */
  lemma FinishFindsFire(s: Server, r: RunId, f: FireId)
    requires Fired(s) && r < |s.runs| && f < |s.fires| && s.fires[f].run == r
    ensures FindFire(s.fires, r, s.runs[r].spec.owner) == f
  {
    assert FireAgrees(s, f);
    var g := FindFire(s.fires, r, s.runs[r].spec.owner);
    assert g < |s.fires| ==> FireAgrees(s, g);
  }

  lemma EndingKeepsFired(s: Server, t: Server, r: RunId, errorMessage: string, failed: bool, cancelled: bool, now: Time)
    requires Fired(s) && Ending(s, t, r, errorMessage, failed, cancelled, now)
    ensures Fired(t)
  {
    SpecsKeepChained(s.runs, t.runs);
    assert AttemptAgrees(s.fires, r, s.runs[r]);
    if s.runs[r].spec.key.FireKey? {
      EndingSettles(s, t, r, errorMessage, failed, cancelled, now);
    } else {
      forall f | 0 <= f < |s.fires| ensures s.fires[f].run != r { assert FireAgrees(s, f); }
      assert t.fires == s.fires;
      forall f | 0 <= f < |t.fires| ensures FireAgrees(t, f) { assert FireAgrees(s, f); }
      forall q | 0 <= q < |t.runs| ensures AttemptAgrees(t.fires, q, t.runs[q]) { assert AttemptAgrees(s.fires, q, s.runs[q]); }
    }
  }

  lemma EndingSettlesFires(s: Server, t: Server, r: RunId, f: FireId, errorMessage: string, failed: bool, cancelled: bool, now: Time)
    requires Fired(s) && Ending(s, t, r, errorMessage, failed, cancelled, now)
    requires f < |s.fires| && s.fires[f].run == r
    ensures FiresAgree(t) && |t.fires| == |s.fires| && FireKeysDistinct(t.fires)
    ensures forall g :: 0 <= g < |s.fires| && g != f ==> t.fires[g] == s.fires[g]
    ensures t.fires[f] == s.fires[f].(status := t.fires[f].status, nextAttemptAt := t.fires[f].nextAttemptAt)
    ensures !t.fires[f].status.InFlight()
  {
    assert FireAgrees(s, f);
    FinishFindsFire(s, r, f);
    forall g | 0 <= g < |t.fires| ensures FireAgrees(t, g) { assert FireAgrees(s, g); }
  }

  lemma EndingSettles(s: Server, t: Server, r: RunId, errorMessage: string, failed: bool, cancelled: bool, now: Time)
    requires Fired(s) && Ending(s, t, r, errorMessage, failed, cancelled, now)
    requires s.runs[r].spec.key.FireKey?
    ensures Fired(t) && s.runs[r].spec.key.fire < |s.fires| == |t.fires|
    ensures !t.fires[s.runs[r].spec.key.fire].status.InFlight()
    ensures forall g :: 0 <= g < |s.fires| && g != s.runs[r].spec.key.fire ==> t.fires[g] == s.fires[g]
  {
    SpecsKeepChained(s.runs, t.runs);
    assert AttemptAgrees(s.fires, r, s.runs[r]);
    var f := s.runs[r].spec.key.fire;
    assert s.runs[r].spec.key.attempt == s.fires[f].attempt;
    EndingSettlesFires(s, t, r, f, errorMessage, failed, cancelled, now);
    forall q | 0 <= q < |t.runs| ensures AttemptAgrees(t.fires, q, t.runs[q]) { assert AttemptAgrees(s.fires, q, s.runs[q]); }
    assert FireAgrees(s, f);
    SettleKeepsExclusive(s, t, f);
  }

  // --------------------------------------------------- classifying the steps

  lemma ServerTerminalIsEnding(s: Server, r: RunId, status: RunStatus, code: string, text: string, now: Time)
    requires r < |s.runs| && !s.runs[r].status.IsTerminal() && status in {Completed, Failed, Cancelled}
    ensures Ending(s, ServerTerminal(s, r, status, code, text, now), r, text, !status.Completed?, status.Cancelled?, now)
  {}

  /** So is the insert of a terminal event. */
  lemma InsertIsEnding(c: Cursor, row: Record, now: Time)
    requires row.lease < |c.srv.leases| && row.env.run < |c.srv.runs| && row.env.sequence == c.ack + 1
    requires !c.srv.runs[row.env.run].status.IsTerminal() && row.env.epoch == c.srv.runs[row.env.run].leaseEpoch
    requires row.env.kind.IsTerminal()
    ensures Ending(c.srv, InsertEvent(c, row, now).srv, row.env.run, row.env.payload.errorMessage,
                   !row.env.kind.RunCompleted?, row.env.kind.RunCancelled? || row.env.kind.RunCancelAck?, now)
  {}

  /** Recovery ends a Run that is open, not paused and out of recoveries, and calmly does without in any other case. */
  lemma RecoverClassified(s: Server, r: RunId, now: Time)
    ensures var t := RecoverRun(s, r, now);
      if r < |s.runs| && s.runs[r].status in {Queued, Leased, Running, WaitingUser, Recoverable}
         && s.runs[r].recoveryCount >= s.runs[r].spec.maxRecoveries
      then Ending(s, t, r, "Run lease recovery limit exceeded", true, false, now)
      else Calm(s, t) && t.fires == s.fires && |t.runs| == |s.runs|
  {}

  lemma RecoverKeeps(s: Server, r: RunId, now: Time)
    requires Concluded(s)
    ensures Concluded(RecoverRun(s, r, now))
  {
    RecoverClassified(s, r, now);
    var t, text := RecoverRun(s, r, now), "Run lease recovery limit exceeded";
    if Ending(s, t, r, text, true, false, now) {
      EndingKeepsFinalized(s, t, r, text, true, false, now);
      EndingKeepsFired(s, t, r, text, true, false, now);
    } else {
      CalmKeepsFinalized(s, t);
      CalmKeepsFired(s, t);
    }
  }

  /** Leases are not part of these invariants. */
  lemma IgnoringLeases(s: Server, t: Server)
    requires Concluded(s)
    requires t.runs == s.runs && t.events == s.events && t.messages == s.messages
    requires t.fires == s.fires && t.automations == s.automations
    ensures Concluded(t)
  {
    CalmKeepsFinalized(s, t);
    CalmKeepsFired(s, t);
  }

  lemma {:induction false} DropFromKeeps(s: Server, i: nat, doomed: Doomed, now: Time)
    requires Concluded(s)
    ensures Concluded(DropFrom(s, i, doomed, now))
    decreases |s.leases| - i
  {
    if i < |s.leases| {
      if doomed.Hits(s.leases[i]) {
        var u := s.(leases := s.leases[i := s.leases[i].(status := doomed.Outcome())]);
        IgnoringLeases(s, u);
        RecoverKeeps(u, s.leases[i].grant.run, now);
        Ledger.RecoverIsQuiet(u, s.leases[i].grant.run, now);
        DropFromKeeps(DropLease(s, i, doomed.Outcome(), now), i + 1, doomed, now);
      } else {
        DropFromKeeps(s, i + 1, doomed, now);
      }
    }
  }

  // ------------------------------------------------------- creating new Runs

  lemma NewRunKeepsFinalized(s: Server, t: Server, run: Run)
    requires Finalized(s) && t.runs == s.runs + [run] && !run.status.IsTerminal()
    requires t.events == s.events && t.messages == s.messages && t.automations == s.automations
    ensures Finalized(t)
  {}

  /** A Run under a key of its own, which no fire uses, leaves the fires alone. */
  lemma NewRunKeepsFired(s: Server, t: Server, spec: RunSpec)
    requires Fired(s) && !spec.key.FireKey? && t == s.(runs := s.runs + [NewRun(spec)])
    requires spec.key.NoKey? || forall r :: 0 <= r < |s.runs| && s.runs[r].spec.owner == spec.owner ==> s.runs[r].spec.key != spec.key
    ensures Fired(t)
  {
    SpecsKeepChained(s.runs, t.runs);
    forall f | 0 <= f < |t.fires| ensures FireAgrees(t, f) { assert FireAgrees(s, f); }
    forall r | 0 <= r < |t.runs| ensures AttemptAgrees(t.fires, r, t.runs[r]) {
      if r < |s.runs| { assert AttemptAgrees(s.fires, r, s.runs[r]); }
    }
  }

  /** The next attempt's key is free, so its Run is new. */
  lemma NextAttemptIsFree(s: Server, owner: OwnerId, f: FireId, attempt: nat)
    requires AttemptsAgree(s.fires, s.runs) && f <= |s.fires| && (f < |s.fires| ==> attempt > s.fires[f].attempt)
    ensures FindRun(s.runs, owner, FireKey(f, attempt)) == |s.runs|
  {}

  /** The tables after fire f starts a new attempt. */
  ghost predicate Starts(s: Server, t: Server, f: FireId, fire: Fire, spec: RunSpec) {
    && f <= |s.fires| && t.runs == s.runs + [NewRun(spec)]
    && t.fires == (if f < |s.fires| then s.fires[f := fire] else s.fires + [fire])
    && t.events == s.events && t.messages == s.messages && t.automations == s.automations
    && spec.key == FireKey(f, fire.attempt) && spec.retryOf == (if f < |s.fires| then Some(s.fires[f].run) else None)
    && spec.automation == Some(fire.automation) && spec.owner == fire.owner
    && fire.automation in s.automations && s.automations[fire.automation].owner == fire.owner
    && fire.run == |s.runs| && fire.status.FireQueued? && 1 <= fire.attempt <= fire.maxAttempts
    && (if f < |s.fires|
        then s.fires[f].status.FireRetryWait? && fire.attempt == s.fires[f].attempt + 1
             && fire.automation == s.fires[f].automation && fire.key == s.fires[f].key
        else fire.attempt == 1 && FindFireByKey(s.fires, fire.automation, fire.key) == |s.fires|
             && (s.automations[fire.automation].skip ==> !HasActiveFire(s.fires, fire.automation)))
  }

  /** Starting an attempt: success, always, and the only effect an enqueue can have. */
  lemma EnqueueClassified(s: Server, a: AutomationId, key: string, template: Template)
    requires Fired(s) && a in s.automations
    ensures var (t, reply) := EnqueueAutomation(s, a, key, template);
      reply.Success? && (reply.value.Enqueued? || t == s)
      && (reply.value.Enqueued? ==>
            var f := reply.value.fire;
            f < |t.fires| && f <= |s.fires| && |t.runs| == |s.runs| + 1 && Starts(s, t, f, t.fires[f], t.runs[|s.runs|].spec))
  {
    var f := FindFireByKey(s.fires, a, key);
    if f < |s.fires| { assert FireAgrees(s, f); }
    var attempt := if f < |s.fires| then s.fires[f].attempt + 1 else 1;
    NextAttemptIsFree(s, s.automations[a].owner, f, attempt);
  }

  lemma StartsKeepsFires(s: Server, t: Server, f: FireId, fire: Fire, spec: RunSpec)
    requires Fired(s) && Starts(s, t, f, fire, spec)
    ensures FiresAgree(t) && FireKeysDistinct(t.fires)
  {
    forall g | 0 <= g < |t.fires| ensures FireAgrees(t, g) {
      if g != f { assert FireAgrees(s, g); }
    }
  }

  lemma StartsKeepsAttempts(s: Server, t: Server, f: FireId, fire: Fire, spec: RunSpec)
    requires Fired(s) && Starts(s, t, f, fire, spec)
    ensures AttemptsAgree(t.fires, t.runs) && KeysDistinct(t.runs) && Chained(t.runs)
  {
    if f < |s.fires| { assert FireAgrees(s, f); }
    SpecsKeepChained(s.runs, t.runs);
    forall r | 0 <= r < |t.runs| ensures AttemptAgrees(t.fires, r, t.runs[r]) {
      if r < |s.runs| { assert AttemptAgrees(s.fires, r, s.runs[r]); }
    }
    forall i | 0 <= i < |s.runs| ensures s.runs[i].spec.key != spec.key {
      assert AttemptAgrees(s.fires, i, s.runs[i]);
    }
  }

  lemma StartsKeepsExclusive(s: Server, t: Server, f: FireId, fire: Fire, spec: RunSpec)
    requires Fired(s) && Starts(s, t, f, fire, spec)
    ensures SkipExclusive(t)
  {}

  lemma EnqueueKeeps(s: Server, a: AutomationId, key: string, template: Template)
    requires Concluded(s)
    ensures Concluded(EnqueueAutomation(s, a, key, template).0)
  {
    if a in s.automations {
      EnqueueClassified(s, a, key, template);
      var (t, reply) := EnqueueAutomation(s, a, key, template);
      if reply.value.Enqueued? {
        var f := reply.value.fire;
        var spec := t.runs[|s.runs|].spec;
        StartsKeepsFires(s, t, f, t.fires[f], spec);
        StartsKeepsAttempts(s, t, f, t.fires[f], spec);
        StartsKeepsExclusive(s, t, f, t.fires[f], spec);
        NewRunKeepsFinalized(s, t, NewRun(spec));
      }
    }
  }

  /** The route checks the fire and writes it in two statements.  However late the write comes, it is
      harmless exactly if the fire is not in flight again and has not succeeded meanwhile. */
  lemma IgnoredLateExactly(s: Server, f: FireId)
    requires Concluded(s) && f < |s.fires|
    ensures Concluded(WriteIgnored(s, f)) <==> s.fires[f].status in {FireRetryWait, FireDeadLetter, FireIgnored}
  {
    var t := WriteIgnored(s, f);
    SpecsKeepChained(s.runs, t.runs);
    CalmKeepsFinalized(s, t);
    CalmKeepsAttempts(s, t);
    SettleKeepsExclusive(s, t, f);
    assert FireAgrees(s, f);
    if s.fires[f].status !in {FireRetryWait, FireDeadLetter, FireIgnored} {
      assert !FireAgrees(t, f);
    } else {
      forall g | 0 <= g < |t.fires| ensures FireAgrees(t, g) { assert FireAgrees(s, g); }
    }
  }

  lemma IgnoreKeeps(s: Server, f: FireId, owner: OwnerId)
    requires Concluded(s)
    ensures Concluded(IgnoreFire(s, f, owner).0)
  {
    if f < |s.fires| { IgnoredLateExactly(s, f); }
  }

  // --------------------------------------------------------------- every step

  lemma CalmStepKeeps(s: Server, t: Server)
    requires Concluded(s) && Calm(s, t) && |t.runs| == |s.runs| && t.fires == s.fires
    ensures Concluded(t)
  {
    CalmKeepsFinalized(s, t);
    CalmKeepsFired(s, t);
  }

  lemma GrantKeeps(s: Server, p: Principal, r: RunId, seconds: int, now: Time)
    requires Concluded(s) && r < |s.runs| && s.runs[r].status.IsClaimable()
    ensures Concluded(GrantLease(s, p, r, seconds, now))
  {
    CalmStepKeeps(s, GrantLease(s, p, r, seconds, now));
  }

  lemma ClaimKeeps(s: Server, p: Principal, seconds: int, now: Time)
    requires Concluded(s)
    ensures Concluded(LeaseRun(s, p, seconds, now).0)
  {
    var swept := ExpireLeases(s, p.owner, now);
    DropFromKeeps(s, 0, ExpiredOf(p.owner, now), now);
    match SelectRun(swept, p, now)
    case None =>
    case Some(r) => GrantKeeps(swept, p, r, seconds, now);
  }

  lemma ServerTerminalKeeps(s: Server, r: RunId, status: RunStatus, code: string, text: string, now: Time)
    requires Concluded(s) && r < |s.runs| && !s.runs[r].status.IsTerminal() && status in {Completed, Failed, Cancelled}
    ensures Concluded(ServerTerminal(s, r, status, code, text, now))
  {
    var t := ServerTerminal(s, r, status, code, text, now);
    ServerTerminalIsEnding(s, r, status, code, text, now);
    EndingKeepsFinalized(s, t, r, text, !status.Completed?, status.Cancelled?, now);
    EndingKeepsFired(s, t, r, text, !status.Completed?, status.Cancelled?, now);
  }

  lemma CancelKeeps(s: Server, r: RunId, owner: OwnerId, now: Time)
    requires Concluded(s)
    ensures Concluded(RequestCancel(s, r, owner, now).0)
  {
    if Owns(s, r, owner) && !s.runs[r].status.IsTerminal() {
      if (s.runs[r].status.IsClaimable() || s.runs[r].status.Paused?) && !HasLiveLease(s, r, now) {
        ServerTerminalKeeps(s, r, Cancelled, "cancelled_by_user", "Run cancelled before local execution", now);
      } else {
        CalmStepKeeps(s, RequestCancel(s, r, owner, now).0);
      }
    }
  }

  lemma ResumeKeeps(s: Server, r: RunId, owner: OwnerId, now: Time)
    requires Concluded(s)
    ensures Concluded(RequestResume(s, r, owner, now).0)
  {
    if Owns(s, r, owner) && s.runs[r].status.Paused? {
      var u := s.(leases := ExpireHeld(s.leases, r));
      IgnoringLeases(s, u);
      if HasLiveLease(s, r, now) || s.runs[r].leaseEpoch == 0 {
        CalmStepKeeps(s, RequestResume(s, r, owner, now).0);
      } else {
        ServerTerminalKeeps(u, r, Failed, "resume_checkpoint_unavailable", RESUME_ERROR, now);
      }
    }
  }

  lemma RevokeKeeps(s: Server, owner: OwnerId, device: DeviceId, now: Time)
    requires Concluded(s)
    ensures Concluded(RevokeDevice(s, owner, device, now))
  {
    if device in s.devices && s.devices[device].owner == owner {
      var u := s.(devices := s.devices[device := s.devices[device].(status := DeviceRevoked)]);
      IgnoringLeases(s, u);
      DropFromKeeps(u, 0, HeldBy(device), now);
    }
  }

  /** Users never choose a key that a scheduler builds. */
  predicate KeyedByUser(tx: Transaction) { tx.Turn? || tx.AddRun? ==> !tx.spec.key.FireKey? }

  lemma CreateKeeps(s: Server, spec: RunSpec)
    requires Concluded(s) && !spec.key.FireKey?
    ensures Concluded(CreateRun(s, spec).0) && (!spec.key.NoKey? ==> Concluded(CreateTurn(s, spec).0))
  {
    var t := CreateRun(s, spec).0;
    if t.runs != s.runs {
      NewRunKeepsFired(s, t, spec);
      NewRunKeepsFinalized(s, t, NewRun(spec));
    }
  }

  lemma QuietlyCalm(s: Server, tx: Transaction, now: Time)
    requires tx.Register? || tx.Beat? || tx.Renew? || tx.Pause? || tx.Answer?
    ensures var t := Perform(s, tx, now); Calm(s, t) && |t.runs| == |s.runs| && t.fires == s.fires
  {}

  /** Every transaction but a submission and a posted message. */
  lemma OthersKeepOutcomes(s: Server, tx: Transaction, now: Time)
    requires Concluded(s) && KeyedByUser(tx) && !tx.Submit? && !tx.Post?
    ensures Concluded(Perform(s, tx, now))
  {
    match tx
    case Claim(who, seconds) => ClaimKeeps(s, who, seconds, now);
    case Cancel(r, owner) => CancelKeeps(s, r, owner, now);
    case Resume(r, owner) => ResumeKeeps(s, r, owner, now);
    case Revoke(device, owner) => RevokeKeeps(s, owner, device, now);
    case Enqueue(a, key, template) => EnqueueKeeps(s, a, key, template);
    case Ignore(f, owner) => IgnoreKeeps(s, f, owner);
    case Turn(spec) => CreateKeeps(s, spec);
    case AddRun(spec) => CreateKeeps(s, spec);
    case _ =>
      QuietlyCalm(s, tx, now);
      CalmStepKeeps(s, Perform(s, tx, now));
  }
}
