/**
  The work item scheduler in place: policies are rewritten row by row, and a
  trigger creates its Run in the same transaction.
*/
module WorkItemAutoScheduler {
  import opened Wrappers
  import opened RunTypes
  import opened RunProtocol
  import opened Database
  import AutomationScheduler
  import opened AutoExecution

  class PolicyTable {
    const db: Database
    var policies: map<ItemId, Policy>
    ghost var terms: map<(ItemId, nat), Terms>

    ghost function State(): Board
      reads this, db
    {
      Board(db.State(), policies, terms)
    }

    constructor (db: Database)
      ensures this.db == db && State() == Board(db.State(), map[], map[])
    {
      this.db, policies, terms := db, map[], map[];
    }

    method ConfigurePolicy(item: ItemId, project: string, owner: OwnerId, values: Values) returns (changed: bool)
      modifies this
      ensures (State(), changed) == AutoExecution.ConfigurePolicy(old(State()), item, project, owner, values)
    {
      var normalized := Normalized(values);
      if normalized.None? { return false; }
      var rules := normalized.value;
      if !TargetOk(db.State(), owner, rules.target) { return false; }
      var version := 1;
      if item in policies {
        var existing := policies[item];
        if existing.rules == rules && existing.owner == owner && existing.project == project { return false; }
        version := existing.version + 1;
      }
      var state := if rules.auto then Evaluating else Manual;
      policies := policies[item := Policy(owner, project, rules, version, state, None, 0)];
      terms := terms[(item, version) := Terms(owner, rules.maxAttempts)];
      return true;
    }

    /** Starts an attempt unless the gate is closed. */
    method StartAttempt(item: ItemId, attempt: nat, retryOf: Option<RunId>, look: Look)
      requires item in policies
      modifies this`policies, db`runs
      ensures State() == AutoExecution.StartAttempt(old(State()), item, attempt, retryOf, look)
    {
      var policy := policies[item];
      if !look.gateOpen {
        policies := policies[item := policy.(state := Blocked)];
        return;
      }
      var run := AutomationScheduler.CreateTurn(db, PolicySpec(policy, item, attempt, retryOf, look.hash));
      if run.Failure? { return; }
      policies := policies[item := policy.(state := Waiting, lastRun := Some(run.value), lastAttempt := attempt)];
    }

    method TriggerOne(item: ItemId, look: Look, now: Time)
      modifies this`policies, db`runs
      ensures State() == AutoExecution.TriggerOne(old(State()), item, look, now)
    {
      if item !in policies || !look.known { return; }
      var policy := policies[item];
      if !policy.rules.auto {
        policies := policies[item := policy.(state := Manual)];
        return;
      }
      if look.done {
        if look.accepted.Some? {
          policies := policies[item := policy.(state := Accepted, lastRun := look.accepted)];
        } else {
          policies := policies[item := policy.(state := DoneUnaccepted)];
        }
        return;
      }
      var latest := LatestOf(db.runs, policy.owner, item, policy.version);
      var attempt, retryOf := 1, None;
      if latest < |db.runs| {
        var status := db.runs[latest].status;
        attempt := if policy.lastAttempt == 0 then 1 else policy.lastAttempt;
        if !status.IsTerminal() {
          var shown := if status.Queued? then Waiting else Working;
          policies := policies[item := policy.(state := shown, lastRun := Some(latest), lastAttempt := attempt)];
          return;
        }
        if (status.Completed? || status.Succeeded?) && look.verified > 0 {
          policies := policies[item := policy.(state := AwaitingAcceptance)];
          return;
        }
        if attempt >= policy.rules.maxAttempts {
          policies := policies[item := policy.(state := Exhausted)];
          return;
        }
        if !look.force && now < look.endedAt + policy.rules.backoff {
          policies := policies[item := policy.(state := Backoff)];
          return;
        }
        retryOf := Some(latest);
        attempt := attempt + 1;
      }
      StartAttempt(item, attempt, retryOf, look);
    }
  }
}
