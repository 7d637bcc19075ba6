/**
  Automation fires in place: starting a fire's Run, and settling the fire in the
  transaction that ends its Run.
*/
module AutomationScheduler {
  import opened Wrappers
  import opened RunTypes
  import opened TerminalOutput
  import opened RunProtocol
  import opened Database
  import opened Outcomes

  method FinishRun(db: Database, r: RunId, owner: OwnerId, failed: bool, cancelled: bool, now: Time)
    modifies db`fires
    ensures db.fires == TerminalOutput.FinishRun(old(db.fires), db.automations, r, owner, failed, cancelled, now)
  {
    var i := FindFire(db.fires, r, owner);
    if i == |db.fires| || db.fires[i].automation !in db.automations { return; }
    var fire := db.fires[i];
    if cancelled {
      fire := fire.(status := FireIgnored, nextAttemptAt := None);
    } else if !failed {
      fire := fire.(status := FireSucceeded, nextAttemptAt := None);
    } else if fire.attempt < fire.maxAttempts {
      var backoff := db.automations[fire.automation].backoff;
      var delay := (if backoff == 0 then 30 else backoff) * Power2(if fire.attempt >= 1 then fire.attempt - 1 else 0);
      fire := fire.(status := FireRetryWait, nextAttemptAt := Some(now + delay));
    } else {
      fire := fire.(status := FireDeadLetter, nextAttemptAt := None);
    }
    db.fires := db.fires[i := fire];
  }

  /** Creates the Run of a turn, or finds the one already created under its key. */
  method CreateTurn(db: Database, spec: RunSpec) returns (out: Result<RunId, ProtocolError>)
    modifies db`runs
    ensures (db.State(), out) == RunProtocol.CreateTurn(old(db.State()), spec)
  {
    var i := FindRun(db.runs, spec.owner, spec.key);
    if i < |db.runs| {
      if db.runs[i].spec.requestHash != spec.requestHash { return Failure(KeyConflict); }
      return Success(i);
    }
    db.runs := db.runs + [NewRun(spec)];
    return Success(i);
  }

  method EnqueueAutomation(db: Database, a: AutomationId, key: string, t: Template)
    returns (out: Result<EnqueueReply, ProtocolError>)
    modifies db`fires, db`runs
    ensures (db.State(), out) == RunProtocol.EnqueueAutomation(old(db.State()), a, key, t)
  {
    if a !in db.automations { return Failure(UnknownAutomation); }
    var auto, begun := db.automations[a], db.State();
    var f := FindFireByKey(db.fires, a, key);
    var known := f < |db.fires|;
    if known && !db.fires[f].status.FireRetryWait? { return Success(Duplicate(f)); }
    if !known && auto.skip && HasActiveFire(db.fires, a) { return Success(Skipped); }
    if !known {
      var budget := if auto.maxAttempts == 0 then 3 else auto.maxAttempts;
      db.fires := db.fires + [Fire(a, auto.owner, key, FireQueued, 0, budget, 0, None, None)];
    }
    var attempt := db.fires[f].attempt + 1;
    if attempt > db.fires[f].maxAttempts {
      db.fires, db.runs := begun.fires, begun.runs;
      return Failure(RetriesExhausted);
    }
    var previous := if known then Some(db.fires[f].run) else None;
    var made := CreateTurn(db, FireSpec(a, auto.owner, t, f, attempt, previous));
    if made.Failure? {
      db.fires, db.runs := begun.fires, begun.runs;
      return Failure(made.error);
    }
    var fire := Fire(a, auto.owner, key, FireQueued, attempt, db.fires[f].maxAttempts, made.value, previous, None);
    db.fires := db.fires[f := fire];
    assert db.fires == if known then begun.fires[f := fire] else begun.fires + [fire];
    return Success(Enqueued(f));
  }

  method IgnoreFire(db: Database, f: FireId, owner: OwnerId) returns (out: Result<(), ProtocolError>)
    modifies db`fires
    ensures (db.State(), out) == RunProtocol.IgnoreFire(old(db.State()), f, owner)
  {
    if f >= |db.fires| || db.fires[f].owner != owner { return Failure(RunNotFound); }
    if !(db.fires[f].status.FireDeadLetter? || db.fires[f].status.FireRetryWait?) { return Failure(WrongStatus); }
    db.fires := db.fires[f := db.fires[f].(status := FireIgnored, nextAttemptAt := None)];
    return Success(());
  }

  // -------------------------------------------------------------------- scan

  /** One row of the due list or of the retry list. */
  datatype Call = Call(automation: AutomationId, key: string, template: Template)

  /** Enqueues every listed row; a row that fails does not stop the others. */
  function EnqueueEach(s: Server, calls: seq<Call>, retrying: bool): (Server, nat)
    decreases |calls|
  {
    if |calls| == 0 then (s, 0)
    else
      var (t, out) := RunProtocol.EnqueueAutomation(s, calls[0].automation, calls[0].key, calls[0].template);
      var (u, n) := EnqueueEach(t, calls[1..], retrying);
      (u, n + if out.Success? && (retrying || !out.value.Skipped?) then 1 else 0)
  }

  method EnqueueListed(db: Database, calls: seq<Call>, retrying: bool) returns (enqueued: nat)
    modifies db`fires, db`runs
    ensures (db.State(), enqueued) == EnqueueEach(old(db.State()), calls, retrying)
  {
    enqueued := 0;
    ghost var begun := db.State();
    for k := 0 to |calls|
      invariant var rest := EnqueueEach(db.State(), calls[k..], retrying);
        (rest.0, enqueued + rest.1) == EnqueueEach(begun, calls, retrying)
    {
      assert calls[k..][0] == calls[k] && calls[k..][1..] == calls[k + 1..];
      var out := EnqueueAutomation(db, calls[k].automation, calls[k].key, calls[k].template);
      if out.Failure? { continue; }
      if retrying || !out.value.Skipped? { enqueued := enqueued + 1; }
    }
  }

  /** The due automations first, then the fires whose retry is due. */
  method ScanOnce(db: Database, due: seq<Call>, retries: seq<Call>) returns (enqueued: nat)
    modifies db`fires, db`runs
    ensures var (t, n) := EnqueueEach(old(db.State()), due, false);
      var (u, m) := EnqueueEach(t, retries, true);
      db.State() == u && enqueued == n + m
  {
    var n := EnqueueListed(db, due, false);
    var m := EnqueueListed(db, retries, true);
    enqueued := n + m;
  }

  /** No scan ever meets an exhausted fire or a key conflict: every listed retry is served,
      and the fires stay coupled to their Runs. */
  lemma {:induction false} ScanNeverFails(s: Server, calls: seq<Call>)
    requires Concluded(s) && forall k :: 0 <= k < |calls| ==> calls[k].automation in s.automations
    ensures Concluded(EnqueueEach(s, calls, true).0) && EnqueueEach(s, calls, true).1 == |calls|
    decreases |calls|
  {
    if |calls| > 0 {
      var c := calls[0];
      var (t, out) := RunProtocol.EnqueueAutomation(s, c.automation, c.key, c.template);
      EnqueueClassified(s, c.automation, c.key, c.template);
      EnqueueKeeps(s, c.automation, c.key, c.template);
      ScanNeverFails(t, calls[1..]);
    }
  }
}
