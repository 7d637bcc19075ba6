/**
  What a trigger and a configuration do to a policy, told from the Runs of its current
  version rather than from its counter.
*/
module PolicyOutcomes {
  import opened Wrappers
  import opened RunTypes
  import opened RunProtocol
  import Workspaces
  import opened AutoExecution

  /** The Run belongs to this version of the item's policy. */
  predicate OfVersion(run: Run, owner: OwnerId, item: ItemId, version: nat) {
    run.spec.owner == owner && run.spec.key.PolicyKey? && run.spec.key.item == item && run.spec.key.version == version
  }

  ghost predicate NoRunYet(b: Board, item: ItemId)
    requires item in b.policies
  {
    forall q :: 0 <= q < |b.server.runs| ==> !OfVersion(b.server.runs[q], b.policies[item].owner, item, b.policies[item].version)
  }

  /** The newest Run of the current version. */
  ghost predicate Newest(b: Board, item: ItemId, r: RunId)
    requires item in b.policies
  {
    var p := b.policies[item];
    r < |b.server.runs| && OfVersion(b.server.runs[r], p.owner, item, p.version)
    && forall q :: r < q < |b.server.runs| ==> !OfVersion(b.server.runs[q], p.owner, item, p.version)
  }

  /** Only the policy's row changes, and of it only what is shown. */
  ghost predicate Shows(b: Board, next: Board, item: ItemId, state: ExecState, lastRun: Option<RunId>)
    requires item in b.policies
  {
    next == b.(policies := b.policies[item := b.policies[item].(state := state, lastRun := lastRun)])
  }

  /** One Run is created for this attempt, and the policy points at it. */
  ghost predicate Begins(b: Board, next: Board, item: ItemId, attempt: nat, retryOf: Option<RunId>, hash: nat)
    requires item in b.policies
  {
    var p, n := b.policies[item], |b.server.runs|;
    var spec := RunSpec(p.owner, p.project, "project:" + p.project, "exec", p.rules.target, p.rules.required, 3,
                        PolicyKey(item, p.version, attempt), hash, retryOf, None);
    next == b.(policies := b.policies[item := p.(state := Waiting, lastRun := Some(n), lastAttempt := attempt)],
               server := b.server.(runs := b.server.runs + [Run(spec, Queued, 0, 0, 0, "")]))
  }

  ghost predicate BeginsIfOpen(b: Board, next: Board, item: ItemId, attempt: nat, retryOf: Option<RunId>, look: Look)
    requires item in b.policies
  {
    if look.gateOpen then Begins(b, next, item, attempt, retryOf, look.hash)
    else Shows(b, next, item, Blocked, b.policies[item].lastRun)
  }

  lemma StartBegins(b: Board, item: ItemId, attempt: nat, retryOf: Option<RunId>, look: Look)
    requires Chain(b) && item in b.policies && IsNext(b, item, attempt, retryOf)
    ensures BeginsIfOpen(b, StartAttempt(b, item, attempt, retryOf, look), item, attempt, retryOf, look)
  {
    if look.gateOpen { StartIsNewRun(b, item, attempt, retryOf, look); }
  }

  /** What a trigger makes of the newest Run of the version. */
  ghost predicate AfterNewest(b: Board, next: Board, item: ItemId, r: RunId, look: Look, now: Time)
    requires item in b.policies && r < |b.server.runs| && b.server.runs[r].spec.key.PolicyKey?
  {
    var p, run := b.policies[item], b.server.runs[r];
    var attempt := run.spec.key.attempt;
    if run.status == Queued then Shows(b, next, item, Waiting, Some(r))
    else if run.status in {Leased, Running, WaitingUser, Paused, Recoverable} then Shows(b, next, item, Working, Some(r))
    else if run.status in {Completed, Succeeded} && look.verified > 0 then Shows(b, next, item, AwaitingAcceptance, p.lastRun)
    else if attempt >= p.rules.maxAttempts then Shows(b, next, item, Exhausted, p.lastRun)
    else if !look.force && now < look.endedAt + p.rules.backoff then Shows(b, next, item, Backoff, p.lastRun)
    else BeginsIfOpen(b, next, item, attempt + 1, Some(r), look)
  }

  lemma NewestOrNone(b: Board, item: ItemId) returns (r: nat)
    requires item in b.policies
    ensures r == LatestOf(b.server.runs, b.policies[item].owner, item, b.policies[item].version)
    ensures if r == |b.server.runs| then NoRunYet(b, item) else Newest(b, item, r)
  {
    r := LatestOf(b.server.runs, b.policies[item].owner, item, b.policies[item].version);
    assert forall run: Run :: OfVersion(run, b.policies[item].owner, item, b.policies[item].version)
                         <==> RunOf(run, b.policies[item].owner, item, b.policies[item].version);
  }

  /** Every outcome of a trigger of an automatic policy that keeps its attempt chain. */
  lemma TriggerExactly(b: Board, item: ItemId, look: Look, now: Time)
    requires Chain(b)
    ensures var next := TriggerOne(b, item, look, now);
      if item !in b.policies || !look.known then next == b
      else if !b.policies[item].rules.auto then Shows(b, next, item, Manual, b.policies[item].lastRun)
      else if look.done && look.accepted.Some? then Shows(b, next, item, Accepted, look.accepted)
      else if look.done then Shows(b, next, item, DoneUnaccepted, b.policies[item].lastRun)
      else if NoRunYet(b, item) then BeginsIfOpen(b, next, item, 1, None, look)
      else exists r: RunId :: Newest(b, item, r) && AfterNewest(b, next, item, r, look, now)
  {
    if item in b.policies && look.known && b.policies[item].rules.auto && !look.done {
      var r := NewestOrNone(b, item);
      DecisionIsSound(b, item, look, now);
      CounterIsAttempt(b, item);
      match Decide(b.policies[item], b.server.runs, r, look, now)
      case Show(shown) => ShownTells(b, item, r, shown, look, now);
      case Start(attempt, retryOf) =>
        StartBegins(b, item, attempt, retryOf, look);
        assert r < |b.server.runs| ==> AfterNewest(b, TriggerOne(b, item, look, now), item, r, look, now);
    }
  }

  lemma ShownTells(b: Board, item: ItemId, r: RunId, shown: Policy, look: Look, now: Time)
    requires Chain(b) && item in b.policies && r < |b.server.runs| && Newest(b, item, r) && !look.done
    requires r == LatestOf(b.server.runs, b.policies[item].owner, item, b.policies[item].version)
    requires Decide(b.policies[item], b.server.runs, r, look, now) == Show(shown)
    ensures AfterNewest(b, SetPolicy(b, item, shown), item, r, look, now)
  {
    CounterIsAttempt(b, item);
  }

  // ------------------------------------------------------------- configuring

  function OrDefault(required: set<string>): set<string> {
    if required == {} then {"run_events_v1", "llm.chat", "agent.tools"} else required
  }

  predicate Valid(v: Values) {
    v.mode in {"manual", "auto"} && v.routing in {"any_compatible", "specific"}
    && (v.mode == "auto" ==> {"run_events_v1", "llm.chat", "agent.tools"} <= OrDefault(v.required))
    && (v.routing == "specific" ==> v.target.Some?)
  }

  /** The numbers of a policy, with their defaults and their bounds. */
  predicate Bounded(v: Values, rules: Rules) {
    rules.timeout == Workspaces.Within(v.timeout, 300, 1, 3600) && rules.maxAttempts == Workspaces.Within(v.maxAttempts, 1, 1, 10)
    && rules.backoff == Workspaces.Within(v.backoff, 30, 1, 86400) && rules.tokens == Workspaces.Within(v.tokens, 0, 0, 10000000)
  }

  lemma NormalizedExactly(v: Values)
    ensures Normalized(v).Some? <==> Valid(v)
    ensures Valid(v) ==>
      var rules := Normalized(v).value;
      Bounded(v, rules) && rules.auto == (v.mode == "auto") && rules.required == OrDefault(v.required)
      && rules.target == (if v.routing == "specific" then v.target else None) && rules.model == v.model && rules.permissions == v.permissions
  {}

  /** The routed device is registered to the owner and active. */
  predicate Reachable(s: Server, owner: OwnerId, v: Values) {
    v.routing == "specific" && v.target.Some? ==>
      v.target.value in s.devices && s.devices[v.target.value].owner == owner && s.devices[v.target.value].status == DeviceActive
  }

  predicate Unchanged(b: Board, item: ItemId, project: string, owner: OwnerId, v: Values)
  {
    item in b.policies && Some(b.policies[item].rules) == Normalized(v) && b.policies[item].owner == owner && b.policies[item].project == project
  }

  /** A change makes a new version, one above the last, with no attempt of its own; anything else changes nothing. */
  lemma ConfigureExactly(b: Board, item: ItemId, project: string, owner: OwnerId, v: Values)
    ensures var (next, changed) := ConfigurePolicy(b, item, project, owner, v);
      changed == (Valid(v) && Reachable(b.server, owner, v) && !Unchanged(b, item, project, owner, v))
      && (!changed ==> next == b)
      && (changed ==>
            var version := if item in b.policies then b.policies[item].version + 1 else 1;
            Normalized(v).Some?
            && next == b.(policies := b.policies[item := Policy(owner, project, Normalized(v).value, version,
                                                                if v.mode == "auto" then Evaluating else Manual, None, 0)],
                          terms := next.terms)
            && next.terms == b.terms[(item, version) := Terms(owner, Workspaces.Within(v.maxAttempts, 1, 1, 10))])
  {
    NormalizedExactly(v);
  }
}
