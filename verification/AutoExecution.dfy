/**
  Automatic execution of work items: a policy per item starts one Run at a time
  and retries it a bounded number of times per policy version.
*/
module AutoExecution {
  import opened Wrappers
  import opened RunTypes
  import opened TerminalOutput
  import opened RunProtocol
  import Ledger
  import opened Tether
  import opened History

  type ItemId = nat

  // ---------------------------------------------------------------- policies

  /** A request body, before it is normalized. */
  datatype Values = Values(
    mode: string, routing: string, target: Option<DeviceId>, required: set<string>, model: string,
    timeout: Option<int>, maxAttempts: Option<int>, backoff: Option<int>, tokens: Option<int>,
    notify: string, permissions: set<string>)

  datatype Rules = Rules(
    auto: bool, target: Option<DeviceId>, required: set<string>, model: string,
    timeout: nat, maxAttempts: nat, backoff: nat, tokens: nat, notify: string, permissions: set<string>)

  const CORE := {"run_events_v1", "llm.chat", "agent.tools"}

  function Clamp(value: int, low: nat, high: nat): (n: nat)
    requires low <= high
    ensures low <= n <= high
  {
    if value < low then low else if value > high then high else value
  }

  function Normalized(v: Values): (rules: Option<Rules>)
    ensures rules.Some? ==> 1 <= rules.value.maxAttempts <= 10
    ensures rules.Some? ==> (rules.value.target.Some? <==> v.routing == "specific")
  {
    var required := if v.required == {} then CORE else v.required;
    if v.mode != "manual" && v.mode != "auto" then None
    else if v.routing != "any_compatible" && v.routing != "specific" then None
    else if v.mode == "auto" && !(CORE <= required) then None
    else if v.routing == "specific" && v.target.None? then None
    else
      Some(Rules(v.mode == "auto", if v.routing == "specific" then v.target else None, required, v.model,
                 Clamp(Truthy(v.timeout, 300), 1, 3600), Clamp(Truthy(v.maxAttempts, 1), 1, 10),
                 Clamp(Truthy(v.backoff, 30), 1, 86400), Clamp(Truthy(v.tokens, 0), 0, 10000000),
                 Clip(if v.notify == "" then "failure,recovery" else v.notify, 200), v.permissions))
  }

  datatype ExecState =
    | Manual | Evaluating | Accepted | DoneUnaccepted | Waiting | Working | AwaitingAcceptance | Exhausted | Backoff | Blocked

  datatype Policy = Policy(
    owner: OwnerId, project: string, rules: Rules, version: nat, state: ExecState,
    lastRun: Option<RunId>, lastAttempt: nat)

  /** What a policy version allows; kept for every version there ever was. */
  datatype Terms = Terms(owner: OwnerId, maxAttempts: nat)

  /** The Server's tables, the policies, and the history of their versions. */
  datatype Board = Board(server: Server, policies: map<ItemId, Policy>, terms: map<(ItemId, nat), Terms>)

  predicate TargetOk(s: Server, owner: OwnerId, target: Option<DeviceId>) {
    target.Some? ==>
      target.value in s.devices && s.devices[target.value].owner == owner && s.devices[target.value].status.DeviceActive?
  }

  function ConfigurePolicy(b: Board, item: ItemId, project: string, owner: OwnerId, v: Values): (Board, bool) {
    var rules := Normalized(v);
    if rules.None? || !TargetOk(b.server, owner, rules.value.target) then (b, false)
    else if item in b.policies && b.policies[item].rules == rules.value && b.policies[item].owner == owner
            && b.policies[item].project == project
    then (b, false)
    else
      var version := if item in b.policies then b.policies[item].version + 1 else 1;
      var state := if rules.value.auto then Evaluating else Manual;
      (b.(policies := b.policies[item := Policy(owner, project, rules.value, version, state, None, 0)],
          terms := b.terms[(item, version) := Terms(owner, rules.value.maxAttempts)]), true)
  }

  // ----------------------------------------------------------------- trigger

  predicate RunOf(run: Run, owner: OwnerId, item: ItemId, version: nat) {
    run.spec.owner == owner && run.spec.key.PolicyKey? && run.spec.key.item == item && run.spec.key.version == version
  }

  /** The latest Run of this policy version, or |runs|. */
  function LatestOf(runs: seq<Run>, owner: OwnerId, item: ItemId, version: nat): (r: nat)
    ensures r <= |runs| && (r < |runs| ==> RunOf(runs[r], owner, item, version))
    ensures forall q :: r < q < |runs| ==> !RunOf(runs[q], owner, item, version)
    ensures r == |runs| ==> forall q :: 0 <= q < |runs| ==> !RunOf(runs[q], owner, item, version)
  {
    if |runs| == 0 then 0
    else if RunOf(runs[|runs| - 1], owner, item, version) then |runs| - 1
    else
      var r := LatestOf(runs[..|runs| - 1], owner, item, version);
      if r < |runs| - 1 then r else |runs|
  }

  /** What the scheduler reads from tables that are not part of this model: the item,
      its acceptance, verified deliverables, when the last Run ended, the gate, the signature's hash. */
  datatype Look = Look(
    known: bool, done: bool, accepted: Option<RunId>, verified: nat, endedAt: Time, force: bool, gateOpen: bool, hash: nat)

  function PolicySpec(p: Policy, item: ItemId, attempt: nat, retryOf: Option<RunId>, hash: nat): RunSpec {
    RunSpec(p.owner, p.project, "project:" + p.project, "exec", p.rules.target, p.rules.required, 3,
            PolicyKey(item, p.version, attempt), hash, retryOf, None)
  }

  function SetPolicy(b: Board, item: ItemId, p: Policy): Board { b.(policies := b.policies[item := p]) }

  /** Starts the given attempt, if the gate lets it. */
  function StartAttempt(b: Board, item: ItemId, attempt: nat, retryOf: Option<RunId>, look: Look): Board
    requires item in b.policies
  {
    var p := b.policies[item];
    if !look.gateOpen then SetPolicy(b, item, p.(state := Blocked))
    else
      match CreateTurn(b.server, PolicySpec(p, item, attempt, retryOf, look.hash))
      case (_, Failure(_)) => b
      case (t, Success(r)) =>
        SetPolicy(b, item, p.(state := Waiting, lastRun := Some(r), lastAttempt := attempt)).(server := t)
  }

  datatype Decision = Show(policy: Policy) | Start(attempt: nat, retryOf: Option<RunId>)

  /** What to do about an automatic policy, given its version's latest Run. */
  function Decide(p: Policy, runs: seq<Run>, r: nat, look: Look, now: Time): Decision
    requires r <= |runs|
  {
    if look.done then
      Show(if look.accepted.Some? then p.(state := Accepted, lastRun := look.accepted) else p.(state := DoneUnaccepted))
    else if r == |runs| then Start(1, None)
    else
      var status, attempt := runs[r].status, if p.lastAttempt == 0 then 1 else p.lastAttempt;
      if !status.IsTerminal() then
        Show(p.(state := if status.Queued? then Waiting else Working, lastRun := Some(r), lastAttempt := attempt))
      else if (status.Completed? || status.Succeeded?) && look.verified > 0 then Show(p.(state := AwaitingAcceptance))
      else if attempt >= p.rules.maxAttempts then Show(p.(state := Exhausted))
      else if !look.force && now < look.endedAt + p.rules.backoff then Show(p.(state := Backoff))
      else Start(attempt + 1, Some(r))
  }

  function TriggerOne(b: Board, item: ItemId, look: Look, now: Time): Board {
    if item !in b.policies || !look.known then b
    else
      var p := b.policies[item];
      if !p.rules.auto then SetPolicy(b, item, p.(state := Manual))
      else
        match Decide(p, b.server.runs, LatestOf(b.server.runs, p.owner, item, p.version), look, now)
        case Show(shown) => SetPolicy(b, item, shown)
        case Start(attempt, retryOf) => StartAttempt(b, item, attempt, retryOf, look)
  }

  datatype Step =
    | Serve(tx: Transaction)
    | Configure(item: ItemId, project: string, owner: OwnerId, values: Values)
    | Trigger(item: ItemId, look: Look)

  function Do(b: Board, step: Step, now: Time): Board {
    match step
    case Serve(tx) => b.(server := Perform(b.server, tx, now))
    case Configure(item, project, owner, values) => ConfigurePolicy(b, item, project, owner, values).0
    case Trigger(item, look) => TriggerOne(b, item, look, now)
  }

  // --------------------------------------------------------------- invariant

  /** A Run started for a policy: inside the terms of its version, and a retry of the attempt
      before it, which had ended. */
  ghost predicate AttemptOk(b: Board, r: RunId)
    requires r < |b.server.runs|
  {
    var spec := b.server.runs[r].spec;
    spec.key.PolicyKey? ==>
      var item, version, k := spec.key.item, spec.key.version, spec.key.attempt;
      item in b.policies && 1 <= version <= b.policies[item].version
      && (item, version) in b.terms && spec.owner == b.terms[(item, version)].owner
      && 1 <= k <= b.terms[(item, version)].maxAttempts
      && (if k == 1 then spec.retryOf == None else RetriesEnded(b.server.runs, r))
  }

  /** The Run names, as the one it retries, the previous attempt of the same version, which has ended. */
  ghost predicate RetriesEnded(runs: seq<Run>, r: RunId)
    requires r < |runs| && runs[r].spec.key.PolicyKey?
  {
    var spec := runs[r].spec;
    spec.retryOf.Some? && spec.retryOf.value < r && runs[spec.retryOf.value].status.IsTerminal()
    && runs[spec.retryOf.value].spec.owner == spec.owner
    && runs[spec.retryOf.value].spec.key.PolicyKey?
    && runs[spec.retryOf.value].spec.key == spec.key.(attempt := runs[spec.retryOf.value].spec.key.attempt)
    && runs[spec.retryOf.value].spec.key.attempt + 1 == spec.key.attempt
  }

  /** The policy's counter is the attempt of its version's latest Run. */
  ghost predicate PolicyOk(b: Board, item: ItemId)
    requires item in b.policies
  {
    var p := b.policies[item];
    && p.version >= 1 && (item, p.version) in b.terms && b.terms[(item, p.version)] == Terms(p.owner, p.rules.maxAttempts)
    && p.rules.maxAttempts >= 1 && p.lastAttempt <= p.rules.maxAttempts
    && var r := LatestOf(b.server.runs, p.owner, item, p.version);
       if r == |b.server.runs| then p.lastAttempt == 0 else p.lastAttempt == b.server.runs[r].spec.key.attempt
  }

  /** Of one policy version, later Runs are later attempts. */
  ghost predicate AttemptsRise(runs: seq<Run>) {
    forall r, q :: 0 <= r < q < |runs| && SameVersion(runs[r].spec.key, runs[q].spec.key) ==>
      runs[r].spec.key.attempt < runs[q].spec.key.attempt
  }

  predicate SameVersion(a: RequestKey, b: RequestKey) {
    a.PolicyKey? && b.PolicyKey? && a.item == b.item && a.version == b.version
  }

  ghost predicate Chain(b: Board) {
    (forall r :: 0 <= r < |b.server.runs| ==> AttemptOk(b, r))
    && (forall item :: item in b.policies ==> PolicyOk(b, item))
    && AttemptsRise(b.server.runs)
  }

  // ------------------------------------------------------------ preservation

  /** Runs keep their specs, ended Runs stay as they are, and Runs that appear are of no other version. */
  ghost predicate RunsGrow(a: seq<Run>, b: seq<Run>) {
    |a| <= |b| && forall r :: 0 <= r < |a| ==> b[r].spec == a[r].spec && (a[r].status.IsTerminal() ==> b[r].status.IsTerminal())
  }

  /** Runs added for something else do not move a version's latest Run. */
  lemma LatestStays(a: seq<Run>, b: seq<Run>, owner: OwnerId, item: ItemId, version: nat)
    requires RunsGrow(a, b) && forall q :: |a| <= q < |b| ==> !RunOf(b[q], owner, item, version)
    ensures var r := LatestOf(a, owner, item, version);
      LatestOf(b, owner, item, version) == if r < |a| then r else |b|
  {}

  ghost predicate NoPolicyRuns(a: seq<Run>, b: seq<Run>) {
    forall q :: |a| <= q < |b| ==> !b[q].spec.key.PolicyKey?
  }

  lemma ServerStepKeepsChain(b: Board, t: Server)
    requires Chain(b) && RunsGrow(b.server.runs, t.runs) && NoPolicyRuns(b.server.runs, t.runs)
    ensures Chain(b.(server := t))
  {
    var next := b.(server := t);
    forall r | 0 <= r < |t.runs| ensures AttemptOk(next, r) { assert r < |b.server.runs| ==> AttemptOk(b, r); }
    forall item | item in next.policies ensures PolicyOk(next, item) {
      assert PolicyOk(b, item);
      var p := b.policies[item];
      LatestStays(b.server.runs, t.runs, p.owner, item, p.version);
    }
  }

  /** A new policy version starts with no Run of its own. */
  lemma NewVersionIsUnused(b: Board, item: ItemId, owner: OwnerId, version: nat)
    requires Chain(b) && (item in b.policies ==> version > b.policies[item].version)
    ensures LatestOf(b.server.runs, owner, item, version) == |b.server.runs|
  {
    forall q | 0 <= q < |b.server.runs| ensures !RunOf(b.server.runs[q], owner, item, version) { assert AttemptOk(b, q); }
  }

  lemma ConfigureKeepsAttempt(b: Board, item: ItemId, project: string, owner: OwnerId, v: Values, r: RunId)
    requires r < |b.server.runs| && AttemptOk(b, r)
    ensures AttemptOk(ConfigurePolicy(b, item, project, owner, v).0, r)
  {}

  lemma ConfigureKeepsPolicy(b: Board, item: ItemId, project: string, owner: OwnerId, v: Values, other: ItemId)
    requires Chain(b) && other in b.policies && other != item
    ensures PolicyOk(ConfigurePolicy(b, item, project, owner, v).0, other)
  {}

  lemma ConfigureKeepsChain(b: Board, item: ItemId, project: string, owner: OwnerId, v: Values)
    requires Chain(b)
    ensures Chain(ConfigurePolicy(b, item, project, owner, v).0)
  {
    var (next, changed) := ConfigurePolicy(b, item, project, owner, v);
    if changed {
      if item in b.policies { assert PolicyOk(b, item); }
      NewVersionIsUnused(b, item, owner, next.policies[item].version);
      forall r | 0 <= r < |next.server.runs| ensures AttemptOk(next, r) { ConfigureKeepsAttempt(b, item, project, owner, v, r); }
      forall other | other in next.policies ensures PolicyOk(next, other) {
        if other != item { ConfigureKeepsPolicy(b, item, project, owner, v, other); }
      }
    }
  }

  /** Changing only what the policy shows keeps the chain. */
  lemma ShowKeepsChain(b: Board, item: ItemId, p: Policy)
    requires Chain(b) && item in b.policies
    requires var old_ := b.policies[item];
      p == old_.(state := p.state, lastRun := p.lastRun)
    ensures Chain(SetPolicy(b, item, p))
  {
    var next := SetPolicy(b, item, p);
    forall r | 0 <= r < |next.server.runs| ensures AttemptOk(next, r) { assert AttemptOk(b, r); }
    forall other | other in next.policies ensures PolicyOk(next, other) { assert PolicyOk(b, other); }
  }

  /** The attempt about to start: the first, or the one after the version's latest, ended Run. */
  ghost predicate IsNext(b: Board, item: ItemId, attempt: nat, retryOf: Option<RunId>)
    requires item in b.policies
  {
    var p := b.policies[item];
    var r := LatestOf(b.server.runs, p.owner, item, p.version);
    && 1 <= attempt <= p.rules.maxAttempts
    && if r == |b.server.runs| then attempt == 1 && retryOf == None
       else retryOf == Some(r) && attempt == b.server.runs[r].spec.key.attempt + 1 && b.server.runs[r].status.IsTerminal()
  }

  /** No earlier Run of this version reaches the next attempt. */
  lemma NextIsBeyond(b: Board, item: ItemId, attempt: nat, retryOf: Option<RunId>, q: RunId)
    requires Chain(b) && item in b.policies && IsNext(b, item, attempt, retryOf) && q < |b.server.runs|
    requires b.server.runs[q].spec.key.PolicyKey? && b.server.runs[q].spec.key.item == item
    requires b.server.runs[q].spec.key.version == b.policies[item].version
    ensures b.server.runs[q].spec.key.attempt < attempt
  {
    var p := b.policies[item];
    assert AttemptOk(b, q) && PolicyOk(b, item);
    assert RunOf(b.server.runs[q], p.owner, item, p.version);
    var r := LatestOf(b.server.runs, p.owner, item, p.version);
    if q != r { assert SameVersion(b.server.runs[q].spec.key, b.server.runs[r].spec.key); }
  }

  lemma StartIsNewRun(b: Board, item: ItemId, attempt: nat, retryOf: Option<RunId>, look: Look)
    requires Chain(b) && item in b.policies && IsNext(b, item, attempt, retryOf)
    ensures var spec := PolicySpec(b.policies[item], item, attempt, retryOf, look.hash);
      CreateTurn(b.server, spec) == (b.server.(runs := b.server.runs + [NewRun(spec)]), Success(|b.server.runs|))
  {}

  lemma StartedAttempts(b: Board, item: ItemId, attempt: nat, retryOf: Option<RunId>, look: Look)
    requires Chain(b) && item in b.policies && IsNext(b, item, attempt, retryOf) && look.gateOpen
    ensures var next := StartAttempt(b, item, attempt, retryOf, look);
      (forall r :: 0 <= r < |next.server.runs| ==> AttemptOk(next, r)) && AttemptsRise(next.server.runs)
  {
    var next := StartAttempt(b, item, attempt, retryOf, look);
    StartIsNewRun(b, item, attempt, retryOf, look);
    assert PolicyOk(b, item);
    var n := |b.server.runs|;
    forall r | 0 <= r < |next.server.runs| ensures AttemptOk(next, r) {
      if r < n { assert AttemptOk(b, r); } else if retryOf.Some? { assert AttemptOk(b, retryOf.value); }
    }
    forall q | 0 <= q < n && SameVersion(b.server.runs[q].spec.key, next.server.runs[n].spec.key)
      ensures b.server.runs[q].spec.key.attempt < attempt
    {
      NextIsBeyond(b, item, attempt, retryOf, q);
    }
  }

  lemma StartedPolicies(b: Board, item: ItemId, attempt: nat, retryOf: Option<RunId>, look: Look)
    requires Chain(b) && item in b.policies && IsNext(b, item, attempt, retryOf) && look.gateOpen
    ensures var next := StartAttempt(b, item, attempt, retryOf, look);
      forall other :: other in next.policies ==> PolicyOk(next, other)
  {}

  lemma StartKeepsChain(b: Board, item: ItemId, attempt: nat, retryOf: Option<RunId>, look: Look)
    requires Chain(b) && item in b.policies && IsNext(b, item, attempt, retryOf)
    ensures Chain(StartAttempt(b, item, attempt, retryOf, look))
  {
    if look.gateOpen {
      StartedAttempts(b, item, attempt, retryOf, look);
      StartedPolicies(b, item, attempt, retryOf, look);
    } else {
      ShowKeepsChain(b, item, b.policies[item].(state := Blocked));
    }
  }

  /** The counter of a policy with a Run is that Run's attempt. */
  lemma CounterIsAttempt(b: Board, item: ItemId)
    requires Chain(b) && item in b.policies
    ensures var p := b.policies[item];
      var r := LatestOf(b.server.runs, p.owner, item, p.version);
      r < |b.server.runs| ==> 1 <= p.lastAttempt == b.server.runs[r].spec.key.attempt
  {
    var p := b.policies[item];
    var r := LatestOf(b.server.runs, p.owner, item, p.version);
    assert PolicyOk(b, item);
    if r < |b.server.runs| { assert AttemptOk(b, r); }
  }

  /** A decision either leaves the counter alone or starts exactly the next attempt. */
  lemma DecisionIsSound(b: Board, item: ItemId, look: Look, now: Time)
    requires Chain(b) && item in b.policies
    ensures var p := b.policies[item];
      var d := Decide(p, b.server.runs, LatestOf(b.server.runs, p.owner, item, p.version), look, now);
      if d.Show? then d.policy == p.(state := d.policy.state, lastRun := d.policy.lastRun)
      else IsNext(b, item, d.attempt, d.retryOf)
  {
    CounterIsAttempt(b, item);
    assert PolicyOk(b, item);
  }

  lemma TriggerKeepsChain(b: Board, item: ItemId, look: Look, now: Time)
    requires Chain(b)
    ensures Chain(TriggerOne(b, item, look, now))
  {
    if item in b.policies && look.known {
      var p := b.policies[item];
      if p.rules.auto {
        DecisionIsSound(b, item, look, now);
        match Decide(p, b.server.runs, LatestOf(b.server.runs, p.owner, item, p.version), look, now)
        case Show(shown) => ShowKeepsChain(b, item, shown);
        case Start(attempt, retryOf) => StartKeepsChain(b, item, attempt, retryOf, look);
      } else {
        ShowKeepsChain(b, item, p.(state := Manual));
      }
    }
  }

  // ------------------------------------------------------------ whole boards

  /** Users and automations do not use the scheduler's keys. */
  predicate LeavesPolicyKeys(tx: Transaction) { tx.Turn? || tx.AddRun? ==> !tx.spec.key.PolicyKey? }

  lemma {:induction false} SubmitAllAddsNoRun(c: Cursor, i: LeaseId, lease: Lease, ms: seq<EventMessage>, now: Time)
    requires i < |c.srv.leases| && lease.grant.run < |c.srv.runs| && SubmitAll(c, i, lease, ms, now).Success?
    ensures |SubmitAll(c, i, lease, ms, now).value.srv.runs| == |c.srv.runs|
    decreases |ms|
  {
    if |ms| > 0 { SubmitAllAddsNoRun(SubmitOne(c, i, lease, ms[0], now).value, i, lease, ms[1..], now); }
  }

  lemma SubmitAddsNoRun(s: Server, p: Principal, r: RunId, i: LeaseId, epoch: nat, ms: seq<EventMessage>, now: Time)
    ensures |SubmitEvents(s, p, r, i, epoch, ms, now).0.runs| == |s.runs|
  {
    match CurrentLease(s, p, r, i, epoch)
    case None =>
    case Some(lease) =>
      var c := Cursor(s, lease.ack, lease.terminal);
      if SubmitAll(c, i, lease, ms, now).Success? { SubmitAllAddsNoRun(c, i, lease, ms, now); }
  }

  lemma SmallStepsAddNoRun(s: Server, tx: Transaction, now: Time)
    requires tx.Register? || tx.Beat? || tx.Post? || tx.Renew? || tx.Cancel? || tx.Pause? || tx.Resume? || tx.Answer? || tx.Ignore?
    ensures |Perform(s, tx, now).runs| == |s.runs|
  {}

  lemma NewRunsLeaveKeys(s: Server, tx: Transaction, now: Time)
    requires LeavesPolicyKeys(tx)
    ensures NoPolicyRuns(s.runs, Perform(s, tx, now).runs)
  {
    match tx
    case Claim(who, _) => Ledger.DropFromIsQuiet(s, 0, ExpiredOf(who.owner, now), now);
    case Submit(who, r, i, epoch, events) => SubmitAddsNoRun(s, who, r, i, epoch, events, now);
    case Revoke(device, owner) =>
      if device in s.devices {
        Ledger.DropFromIsQuiet(s.(devices := s.devices[device := s.devices[device].(status := DeviceRevoked)]), 0, HeldBy(device), now);
      }
    case Turn(_) =>
    case AddRun(_) =>
    case Enqueue(_, _, _) =>
    case _ => SmallStepsAddNoRun(s, tx, now);
  }

  lemma ServeKeepsChain(b: Board, tx: Transaction, now: Time)
    requires Chain(b) && LeavesPolicyKeys(tx)
    requires Ledger.Extends(b.server, Perform(b.server, tx, now)) && EndedKept(b.server, Perform(b.server, tx, now))
    ensures Chain(b.(server := Perform(b.server, tx, now)))
  {
    NewRunsLeaveKeys(b.server, tx, now);
    var t := Perform(b.server, tx, now);
    forall r | 0 <= r < |b.server.runs| ensures t.runs[r].spec == b.server.runs[r].spec {
      assert Ledger.RunKept(b.server.runs[r], t.runs[r]);
    }
    ServerStepKeepsChain(b, t);
  }

  datatype TimedStep = TimedStep(step: Step, at: Time)

  ghost function Play(b: Board, h: seq<TimedStep>): Board {
    if |h| == 0 then b else Do(Play(b, h[..|h| - 1]), h[|h| - 1].step, h[|h| - 1].at)
  }

  function End(h: seq<TimedStep>, from: Time): Time { if |h| == 0 then from else h[|h| - 1].at }

  /** The clock never goes back, and nobody else uses the scheduler's keys. */
  predicate Civil(h: seq<TimedStep>, from: Time) {
    |h| > 0 ==>
      var init, last := h[..|h| - 1], h[|h| - 1];
      Civil(init, from) && End(init, from) <= last.at && (last.step.Serve? ==> LeavesPolicyKeys(last.step.tx))
  }

  ghost predicate Steady(s: Server, now: Time) { Ledger.Valid(s) && Tethered(s, now) }

  /** A trigger does to the Server's tables what a turn does, or nothing. */
  lemma TriggerIsTurn(b: Board, item: ItemId, look: Look, now: Time)
    ensures var t := TriggerOne(b, item, look, now).server;
      t == b.server || exists spec: RunSpec :: t == Perform(b.server, Turn(spec), now)
  {
    if item in b.policies && look.known && b.policies[item].rules.auto {
      var p := b.policies[item];
      match Decide(p, b.server.runs, LatestOf(b.server.runs, p.owner, item, p.version), look, now)
      case Show(_) =>
      case Start(attempt, retryOf) =>
        var spec := PolicySpec(p, item, attempt, retryOf, look.hash);
        assert look.gateOpen ==> TriggerOne(b, item, look, now).server == Perform(b.server, Turn(spec), now);
    }
  }

  lemma PerformKeepsSteady(s: Server, tx: Transaction, earlier: Time, now: Time)
    requires Steady(s, earlier) && earlier <= now
    ensures Steady(Perform(s, tx, now), now)
  {
    TetheredLater(s, earlier, now);
    Ledger.PerformKeepsValid(s, tx, now);
    PerformKeepsTethered(s, tx, now);
  }

  lemma StepKeepsSteady(b: Board, step: Step, earlier: Time, now: Time)
    requires Steady(b.server, earlier) && earlier <= now
    ensures Steady(Do(b, step, now).server, now)
  {
    TetheredLater(b.server, earlier, now);
    match step
    case Serve(tx) => PerformKeepsSteady(b.server, tx, earlier, now);
    case Configure(_, _, _, _) =>
    case Trigger(item, look) =>
      TriggerIsTurn(b, item, look, now);
      var t := TriggerOne(b, item, look, now).server;
      if t != b.server {
        var spec: RunSpec :| t == Perform(b.server, Turn(spec), now);
        PerformKeepsSteady(b.server, Turn(spec), earlier, now);
      }
  }

  lemma StepKeepsChain(b: Board, step: Step, earlier: Time, now: Time)
    requires Steady(b.server, earlier) && earlier <= now && Chain(b)
    requires step.Serve? ==> LeavesPolicyKeys(step.tx)
    ensures Chain(Do(b, step, now))
  {
    match step
    case Serve(tx) =>
      TetheredLater(b.server, earlier, now);
      PerformKeepsEnded(b.server, tx, now);
      Ledger.PerformKeepsValid(b.server, tx, now);
      ServeKeepsChain(b, tx, now);
    case Configure(item, project, owner, values) => ConfigureKeepsChain(b, item, project, owner, values);
    case Trigger(item, look) => TriggerKeepsChain(b, item, look, now);
  }

  lemma {:induction false} ChainAlways(b: Board, h: seq<TimedStep>, from: Time)
    requires Steady(b.server, from) && Chain(b) && Civil(h, from)
    ensures Steady(Play(b, h).server, End(h, from)) && Chain(Play(b, h))
  {
    if |h| > 0 {
      var init, last := h[..|h| - 1], h[|h| - 1];
      ChainAlways(b, init, from);
      StepKeepsSteady(Play(b, init), last.step, End(init, from), last.at);
      StepKeepsChain(Play(b, init), last.step, End(init, from), last.at);
    }
  }

  /** Attempt k of a version, if there is one. */
  ghost predicate IsAttempt(b: Board, item: ItemId, version: nat, k: nat, r: RunId) {
    r < |b.server.runs| && b.server.runs[r].spec.key == PolicyKey(item, version, k)
  }

  /** Below any attempt lies the whole chain of earlier ones, all ended. */
  lemma {:induction false} ChainBelow(b: Board, item: ItemId, version: nat, r: RunId, j: nat) returns (q: RunId)
    requires Chain(b) && r < |b.server.runs| && b.server.runs[r].spec.key.PolicyKey?
    requires b.server.runs[r].spec.key.item == item && b.server.runs[r].spec.key.version == version
    requires 1 <= j <= b.server.runs[r].spec.key.attempt
    ensures IsAttempt(b, item, version, j, q) && q <= r
    ensures j < b.server.runs[r].spec.key.attempt ==> b.server.runs[q].status.IsTerminal()
    decreases r
  {
    assert AttemptOk(b, r);
    q := r;
    if j < b.server.runs[r].spec.key.attempt {
      var previous := b.server.runs[r].spec.retryOf.value;
      q := ChainBelow(b, item, version, previous, j);
    }
  }

  /** The Runs of a version are distinct attempts: no attempt happens twice. */
  lemma AttemptOnce(b: Board, item: ItemId, version: nat, k: nat, r: RunId, q: RunId)
    requires Chain(b) && IsAttempt(b, item, version, k, r) && IsAttempt(b, item, version, k, q)
    ensures r == q
  {}

  /** The Runs of the policy's current version are exactly the attempts 1..last_attempt, at most
      max_attempts of them, each retrying the one before, and all but the last have ended. */
  ghost predicate CurrentAttempts(b: Board, item: ItemId, k: nat)
    requires item in b.policies
  {
    var p := b.policies[item];
    p.lastAttempt <= p.rules.maxAttempts
    && ((exists r: RunId :: IsAttempt(b, item, p.version, k, r)) <==> 1 <= k <= p.lastAttempt)
    && (forall r: RunId :: IsAttempt(b, item, p.version, k, r) ==>
          AttemptOk(b, r) && (k < p.lastAttempt ==> b.server.runs[r].status.IsTerminal()))
  }

  lemma StartIsChain(automations: map<AutomationId, Automation>, from: Time)
    ensures Chain(Board(Initial(automations), map[], map[])) && Steady(Initial(automations), from)
  {}

  /** For any policy, after any history from empty tables, whatever devices send. */
  lemma AttemptsOfCurrentVersion(h: seq<TimedStep>, automations: map<AutomationId, Automation>, from: Time, item: ItemId, k: nat)
    requires Civil(h, from)
    requires item in Play(Board(Initial(automations), map[], map[]), h).policies
    ensures CurrentAttempts(Play(Board(Initial(automations), map[], map[]), h), item, k)
  {
    StartIsChain(automations, from);
    ChainAlways(Board(Initial(automations), map[], map[]), h, from);
    AttemptsAreCurrent(Play(Board(Initial(automations), map[], map[]), h), item, k);
  }

  lemma AttemptsAreCurrent(b: Board, item: ItemId, k: nat)
    requires Chain(b) && item in b.policies
    ensures CurrentAttempts(b, item, k)
  {
    var p := b.policies[item];
    assert PolicyOk(b, item);
    var l := LatestOf(b.server.runs, p.owner, item, p.version);
    forall r: RunId | IsAttempt(b, item, p.version, k, r)
      ensures 1 <= k <= p.lastAttempt && AttemptOk(b, r) && (k < p.lastAttempt ==> b.server.runs[r].status.IsTerminal())
    {
      assert AttemptOk(b, r);
      assert RunOf(b.server.runs[r], p.owner, item, p.version);
      if r != l {
        assert SameVersion(b.server.runs[r].spec.key, b.server.runs[l].spec.key);
        var q := ChainBelow(b, item, p.version, l, k);
        AttemptOnce(b, item, p.version, k, r, q);
      }
    }
    if 1 <= k <= p.lastAttempt {
      var q := ChainBelow(b, item, p.version, l, k);
      assert IsAttempt(b, item, p.version, k, q);
    }
  }
}
