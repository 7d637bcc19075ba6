/**
  What accounts ask of their Runs and automations, by what changes and what does not,
  and how a request and the device's answer to it fit together.
*/
module Requests {
  import opened Wrappers
  import opened RunTypes
  import opened EventLog
  import opened TerminalOutput
  import opened RunProtocol
  import Ledger
  import opened Landing
  import opened Tether
  import opened Outcomes
  import opened EventEffects
  import opened Settlement

  // ------------------------------------------------------------------- words

  predicate Mine(s: Server, r: RunId, owner: OwnerId) { r < |s.runs| && s.runs[r].spec.owner == owner }

  predicate Over(status: RunStatus) { status in {Completed, Succeeded, Failed, Cancelled} }

  /** Some active lease on the Run has not reached its deadline. */
  predicate Driven(s: Server, r: RunId, now: Time) {
    exists i :: 0 <= i < |s.leases| && s.leases[i].grant.run == r && s.leases[i].status == Active && s.leases[i].expiresAt > now
  }

  /** The version after all others of the Run's commands, without a gap. */
  ghost predicate NextVersion(commands: seq<Command>, r: RunId, v: nat) {
    && v >= 1 && (forall k :: 0 <= k < |commands| && commands[k].run == r ==> commands[k].version < v)
    && (v > 1 ==> exists k :: 0 <= k < |commands| && commands[k].run == r && commands[k].version == v - 1)
  }

  lemma {:induction false} MaxVersionIsReached(commands: seq<Command>, r: RunId)
    ensures MaxVersion(commands, r) > 0 ==>
      exists k :: 0 <= k < |commands| && commands[k].run == r && commands[k].version == MaxVersion(commands, r)
  {
    if |commands| > 0 {
      var init, last := commands[..|commands| - 1], commands[|commands| - 1];
      MaxVersionIsReached(init, r);
      if last.run == r && last.version > MaxVersion(init, r) {
        assert commands[|commands| - 1].version == MaxVersion(commands, r);
      } else if MaxVersion(init, r) > 0 {
        var k :| 0 <= k < |init| && init[k].run == r && init[k].version == MaxVersion(init, r);
        assert commands[k] == init[k];
      }
    }
  }

  /** A pending command of this kind is waiting for the Run. */
  predicate Waiting(commands: seq<Command>, r: RunId, kind: CommandKind) {
    exists k :: 0 <= k < |commands| && commands[k].run == r && commands[k].kind == kind && commands[k].pending
  }

  /** Nothing changes but that the device is asked, unless it has been already. */
  ghost predicate Asked(s: Server, t: Server, r: RunId, kind: CommandKind) {
    if Waiting(s.commands, r, kind) then t == s
    else exists v: nat :: NextVersion(s.commands, r, v) && t == s.(commands := s.commands + [Command(r, kind, v, true)])
  }

  lemma AskedOnce(s: Server, r: RunId, kind: CommandKind)
    ensures Asked(s, AskOnce(s, r, kind), r, kind)
  {
    MaxVersionIsReached(s.commands, r);
    assert NextVersion(s.commands, r, MaxVersion(s.commands, r) + 1);
  }

  /** The Server ends the Run itself: the row, the answer, and nothing but messages and fires besides. */
  ghost predicate EndedHere(s: Server, t: Server, r: RunId, status: RunStatus, code: string) {
    && r < |s.runs| && t == s.(runs := s.runs[r := s.runs[r].(status := status, errorCode := code)], messages := t.messages, fires := t.fires)
    && s.messages <= t.messages && Answered(t.messages, r)
  }

  lemma ServerEnds(s: Server, r: RunId, status: RunStatus, code: string, text: string, now: Time)
    requires r < |s.runs|
    ensures EndedHere(s, ServerTerminal(s, r, status, code, text, now), r, status, code)
  {
    var messages := WithFinalMessage(s.messages, s.events, r, s.runs[r].leaseEpoch, text);
    if !Answered(s.messages, r) { assert messages[|s.messages|].run == r; }
  }

  // ------------------------------------------------------------------ cancel

  /** Cancelling ends a Run nobody drives; otherwise it asks the device, with a new version each time. */
  lemma CancelExactly(s: Server, r: RunId, owner: OwnerId, now: Time)
    ensures var (t, reply) := RequestCancel(s, r, owner, now);
      if !Mine(s, r, owner) then reply == Failure(RunNotFound) && t == s
      else if Over(s.runs[r].status) then reply == Success(()) && t == s
      else if s.runs[r].status in {Queued, Recoverable, Paused} && !Driven(s, r, now)
      then reply == Success(()) && EndedHere(s, t, r, Cancelled, "cancelled_by_user")
      else
        var v := s.runs[r].cancelVersion + 1;
        reply == Success(())
        && t == s.(runs := s.runs[r := s.runs[r].(cancelVersion := v)], commands := s.commands + [Command(r, CancelCommand, v, true)])
  {
    if r < |s.runs| { ServerEnds(s, r, Cancelled, "cancelled_by_user", "Run cancelled before local execution", now); }
    assert Driven(s, r, now) <==> HasLiveLease(s, r, now);
  }

  /** No request of the Run is left pending. */
  predicate NothingWaits(commands: seq<Command>, r: RunId, kind: CommandKind) { !Waiting(commands, r, kind) }

  /** A cancelled Run is over as soon as its device says so: it is cancelled, no cancel request of it is
      left, and the fire it was started by is given up. */
  lemma CancelRoundTrip(s: Server, p: Principal, r: RunId, i: LeaseId, epoch: nat, m: EventMessage, f: FireId, now: Time)
    requires Ledger.Valid(s) && Tethered(s, now) && Fired(s) && SubmitEvents(s, p, r, i, epoch, [m], now).1.Success?
    requires m.sequence == s.leases[i].ack + 1 && m.kind in {RunCancelled, RunCancelAck}
    requires f < |s.fires| && s.fires[f].run == r
    ensures var t := SubmitEvents(s, p, r, i, epoch, [m], now).0;
      r < |t.runs| && t.runs[r].status == Cancelled && NothingWaits(t.commands, r, CancelCommand)
      && f < |t.fires| && t.fires[f] == s.fires[f].(status := FireIgnored, nextAttemptAt := None)
  {
    EventTells(s, p, r, i, epoch, m, now);
    EventSettles(s, p, r, i, epoch, m, f, now);
    var t := SubmitEvents(s, p, r, i, epoch, [m], now).0;
    forall k: nat | k < |t.commands| && t.commands[k].run == r && t.commands[k].kind == CancelCommand ensures !t.commands[k].pending {
      assert Answers(m, s.commands[k], k, r);
    }
  }

  // ---------------------------------------------------------- pause and resume

  lemma PauseExactly(s: Server, r: RunId, owner: OwnerId)
    ensures var (t, reply) := RequestPause(s, r, owner);
      if !Mine(s, r, owner) then reply == Failure(RunNotFound) && t == s
      else if Over(s.runs[r].status) then reply == Failure(TerminalRun) && t == s
      else if s.runs[r].status == WaitingUser then reply == Failure(WrongStatus) && t == s
      else if s.runs[r].status in {Leased, Running} then reply == Success(()) && Asked(s, t, r, PauseCommand)
      else reply == Success(()) && t == s.(runs := s.runs[r := s.runs[r].(status := Paused)])
  {
    AskedOnce(s, r, PauseCommand);
    if r < |s.runs| && s.runs[r].status.Paused? { assert s.runs == s.runs[r := s.runs[r].(status := Paused)]; }
  }

  /** A pause asked of a device is over when the device says it paused: the Run is paused, no pause
      request is left, its lease stays, and a resume then asks the device again, once. */
  lemma PauseRoundTrip(s: Server, p: Principal, r: RunId, i: LeaseId, epoch: nat, m: EventMessage, now: Time)
    requires Ledger.Valid(s) && Tethered(s, now) && SubmitEvents(s, p, r, i, epoch, [m], now).1.Success?
    requires m.sequence == s.leases[i].ack + 1 && m.kind in {RunPaused, RunPauseAck}
    ensures var t := SubmitEvents(s, p, r, i, epoch, [m], now).0;
      r < |t.runs| && t.runs[r].status == Paused && NothingWaits(t.commands, r, PauseCommand) && Driven(t, r, now)
      && t.messages == s.messages && t.fires == s.fires
      && var (u, reply) := RequestResume(t, r, p.owner, now); reply == Success(()) && Asked(t, u, r, ResumeCommand)
  {
    EventTells(s, p, r, i, epoch, m, now);
    OneEvent(s, p, r, i, epoch, m, now);
    var t := SubmitEvents(s, p, r, i, epoch, [m], now).0;
    forall k: nat | k < |t.commands| && t.commands[k].run == r && t.commands[k].kind == PauseCommand ensures !t.commands[k].pending {
      assert Answers(m, s.commands[k], k, r);
    }
    assert t.leases[i].grant.run == r && t.leases[i].status == Active && t.leases[i].expiresAt > now;
    assert Ledger.LeaseLinked(s.runs, s.leases[i]);
    ResumeExactly(t, r, p.owner, now);
  }

  lemma ResumeExactly(s: Server, r: RunId, owner: OwnerId, now: Time)
    ensures var (t, reply) := RequestResume(s, r, owner, now);
      if !Mine(s, r, owner) then reply == Failure(RunNotFound) && t == s
      else if s.runs[r].status != Paused then reply == Failure(WrongStatus) && t == s
      else if Driven(s, r, now) then reply == Success(()) && Asked(s, t, r, ResumeCommand)
      else
        reply == Success(()) && |t.leases| == |s.leases|
        && (forall k :: 0 <= k < |s.leases| ==>
              t.leases[k] == if s.leases[k].grant.run == r && s.leases[k].status == Active then s.leases[k].(status := Expired) else s.leases[k])
        && if s.runs[r].leaseEpoch == 0 then t == s.(runs := s.runs[r := s.runs[r].(status := Recoverable)], leases := t.leases)
           else EndedHere(s.(leases := t.leases), t, r, Failed, "resume_checkpoint_unavailable")
  {
    AskedOnce(s, r, ResumeCommand);
    assert Driven(s, r, now) <==> HasLiveLease(s, r, now);
    if r < |s.runs| {
      ServerEnds(s.(leases := ExpireHeld(s.leases, r)), r, Failed, "resume_checkpoint_unavailable", RESUME_ERROR, now);
    }
  }

  // ------------------------------------------------------------------ answers

  /** The Run asked this question. */
  predicate AskedBy(s: Server, r: RunId, question: EventId) {
    exists k :: 0 <= k < |s.events| && s.events[k].id == question && s.events[k].env.run == r && s.events[k].env.kind == RunWaitingUser
  }

  lemma AnswerExactly(s: Server, r: RunId, owner: OwnerId, question: EventId)
    ensures var (t, reply) := AnswerUser(s, r, owner, question);
      if !Mine(s, r, owner) then reply == Failure(RunNotFound) && t == s
      else if s.runs[r].status != WaitingUser || !AskedBy(s, r, question) then reply == Failure(WrongStatus) && t == s
      else reply.Success? && NextVersion(s.commands, r, reply.value)
           && t == s.(commands := s.commands + [Command(r, AnswerCommand, reply.value, true)])
  {
    MaxVersionIsReached(s.commands, r);
  }

  // ------------------------------------------------------------------- turns

  predicate SameKey(a: RunSpec, b: RunSpec) { a.owner == b.owner && a.key == b.key }

  /** The first Run created under a key is the answer to every later turn under it. */
  lemma TurnExactly(s: Server, spec: RunSpec)
    ensures var (t, reply) := CreateTurn(s, spec);
      if forall q :: 0 <= q < |s.runs| ==> !SameKey(s.runs[q].spec, spec)
      then reply == Success(|s.runs|) && t == s.(runs := s.runs + [Run(spec, Queued, 0, 0, 0, "")])
      else
        t == s
        && exists q :: 0 <= q < |s.runs| && SameKey(s.runs[q].spec, spec)
                       && reply == if s.runs[q].spec.requestHash == spec.requestHash then Success(q) else Failure(KeyConflict)
  {
    var i := FindRun(s.runs, spec.owner, spec.key);
    if i < |s.runs| { assert SameKey(s.runs[i].spec, spec); }
  }

  // ------------------------------------------------------------------- fires

  predicate KeyOf(fire: Fire, a: AutomationId, key: string) { fire.automation == a && fire.key == key }

  ghost predicate Busy(s: Server, a: AutomationId) {
    exists k :: 0 <= k < |s.fires| && s.fires[k].automation == a && s.fires[k].status in {FireQueued, FireRunning, FireRetryWait}
  }

  /** The Run an automation starts: its owner's, confined to its project, allowed to execute and to be
      recovered three times, routed as the template says. */
  ghost predicate StartedFor(run: Run, a: AutomationId, owner: OwnerId, template: Template, f: FireId, attempt: nat, retryOf: Option<RunId>) {
    run.status == Queued && run.leaseEpoch == 0 && run.recoveryCount == 0
    && run.spec.owner == owner && run.spec.automation == Some(a) && run.spec.key == FireKey(f, attempt) && run.spec.retryOf == retryOf
    && run.spec.project == template.project && run.spec.mode == "exec" && run.spec.maxRecoveries == 3
    && run.spec.target == template.target && run.spec.required == template.required
    && (if template.project == "" then run.spec.workspace == "default" else run.spec.workspace == "project:" + template.project)
  }

  /** The tables after fire f started this attempt on a new Run. */
  ghost predicate AttemptStarted(s: Server, t: Server, a: AutomationId, owner: OwnerId, template: Template, f: FireId,
                                 attempt: nat, budget: nat, key: string, retryOf: Option<RunId>) {
    && |t.runs| == |s.runs| + 1 && t.runs[..|s.runs|] == s.runs && f < |t.fires|
    && StartedFor(t.runs[|s.runs|], a, owner, template, f, attempt, retryOf)
    && t.fires[f] == Fire(a, owner, key, FireQueued, attempt, budget, |s.runs|, retryOf, None)
    && |s.fires| <= |t.fires| && (forall g :: 0 <= g < |s.fires| && g != f ==> t.fires[g] == s.fires[g])
    && t == s.(runs := t.runs, fires := t.fires)
  }

  /** What a key seen before leads to: the next attempt exactly while its fire waits for one. */
  ghost predicate SeenBefore(s: Server, t: Server, reply: Result<EnqueueReply, ProtocolError>, a: AutomationId, key: string, template: Template, f: FireId)
    requires a in s.automations
  {
    f < |s.fires| && KeyOf(s.fires[f], a, key)
    && if s.fires[f].status == FireRetryWait
       then reply == Success(Enqueued(f)) && |t.fires| == |s.fires|
            && AttemptStarted(s, t, a, s.automations[a].owner, template, f, s.fires[f].attempt + 1, s.fires[f].maxAttempts, key, Some(s.fires[f].run))
       else reply == Success(Duplicate(f)) && t == s
  }

  lemma EnqueueSeen(s: Server, a: AutomationId, key: string, template: Template, f: FireId)
    requires Fired(s) && a in s.automations && f == FindFireByKey(s.fires, a, key) && f < |s.fires|
    ensures var (t, reply) := EnqueueAutomation(s, a, key, template); SeenBefore(s, t, reply, a, key, template, f)
  {
    assert FireAgrees(s, f);
    NextAttemptIsFree(s, s.automations[a].owner, f, s.fires[f].attempt + 1);
  }

  lemma EnqueueNew(s: Server, a: AutomationId, key: string, template: Template)
    requires Fired(s) && a in s.automations && FindFireByKey(s.fires, a, key) == |s.fires|
    ensures var (t, reply) := EnqueueAutomation(s, a, key, template);
      var auto := s.automations[a];
      if auto.skip && Busy(s, a) then reply == Success(Skipped) && t == s
      else
        reply == Success(Enqueued(|s.fires|)) && |t.fires| == |s.fires| + 1
        && AttemptStarted(s, t, a, auto.owner, template, |s.fires|, 1, if auto.maxAttempts == 0 then 3 else auto.maxAttempts, key, None)
  {
    NextAttemptIsFree(s, s.automations[a].owner, |s.fires|, 1);
    assert HasActiveFire(s.fires, a) <==> Busy(s, a);
  }

  /** A key seen before starts the next attempt or nothing; a new key starts the first attempt,
      unless the automation skips while another of its fires is under way. */
  lemma EnqueueExactly(s: Server, a: AutomationId, key: string, template: Template)
    requires Fired(s) && a in s.automations
    ensures var (t, reply) := EnqueueAutomation(s, a, key, template);
      var auto := s.automations[a];
      if exists f :: 0 <= f < |s.fires| && KeyOf(s.fires[f], a, key)
      then exists f: FireId :: SeenBefore(s, t, reply, a, key, template, f)
      else if auto.skip && Busy(s, a) then reply == Success(Skipped) && t == s
      else
        reply == Success(Enqueued(|s.fires|)) && |t.fires| == |s.fires| + 1
        && AttemptStarted(s, t, a, auto.owner, template, |s.fires|, 1, if auto.maxAttempts == 0 then 3 else auto.maxAttempts, key, None)
  {
    var f := FindFireByKey(s.fires, a, key);
    if f < |s.fires| {
      EnqueueSeen(s, a, key, template, f);
      assert KeyOf(s.fires[f], a, key);
    } else {
      EnqueueNew(s, a, key, template);
    }
  }
}
