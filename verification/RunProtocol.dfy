/**
  The Server's Run protocol as functions from tables to tables.  A transaction
  that raises leaves the tables as they were, so a failure returns its argument.
*/
module RunProtocol {
  import opened Wrappers
  import opened RunTypes
  import opened EventLog
  import opened TerminalOutput

  datatype ProtocolError =
    | StaleLease | LeaseInactive | SequenceGap(expected: nat)
    | PayloadTooLarge | PayloadSecret | HashMismatch | EventReused
    | RunNotFound | TerminalRun | WrongStatus | KeyConflict | RetriesExhausted | UnknownAutomation

  // ---------------------------------------------------------------- devices

  function Truthy(value: Option<int>, fallback: int): int {
    if value.Some? && value.value != 0 then value.value else fallback
  }

  function ParallelCapacity(caps: Capabilities): (n: nat)
    ensures 1 <= n <= 8
  {
    var declared := Truthy(caps.maxParallel, 1);
    if declared < 1 then 1 else if declared > 8 then 8 else declared
  }

  function ResidentCapacity(caps: Capabilities): (n: nat)
    ensures ParallelCapacity(caps) <= n <= 32
  {
    var compute := ParallelCapacity(caps);
    var declared := Truthy(caps.maxResident, compute * 4);
    var capped := if declared > 32 then 32 else declared;
    if capped < compute then compute else capped
  }

  predicate ReadOnly(mode: string) { mode == "ask" || mode == "plan" }

  /** The workspace a Run is confined to. */
  function WorkspaceScope(spec: RunSpec): string {
    if spec.project != "" then "project:" + spec.project
    else if "project:" <= spec.workspace || "dedicated:" <= spec.workspace then spec.workspace
    else "default"
  }

  predicate Live(l: Lease, now: Time) { l.status.Active? && l.expiresAt > now }

  // --------------------------------------------------------------- recovery

  function SetStatus(s: Server, r: RunId, status: RunStatus): Server
    requires r < |s.runs|
  {
    s.(runs := s.runs[r := s.runs[r].(status := status)])
  }

  function SetStatusAndCode(s: Server, r: RunId, status: RunStatus, code: string): Server
    requires r < |s.runs|
  {
    s.(runs := s.runs[r := s.runs[r].(status := status, errorCode := code)])
  }

  /** Ends a Run that cannot receive a terminal event from a device. */
  function ServerTerminal(s: Server, r: RunId, status: RunStatus, code: string, text: string, now: Time): Server
    requires r < |s.runs|
  {
    SetStatusAndCode(
      CommitOutput(s, r, s.runs[r].leaseEpoch, text, !status.Completed?, status.Cancelled?, now), r, status, code)
  }

  function CountRecovery(s: Server, r: RunId): Server
    requires r < |s.runs|
  {
    s.(runs := s.runs[r := s.runs[r].(recoveryCount := s.runs[r].recoveryCount + 1)])
  }

  function RecoverRun(s: Server, r: RunId, now: Time): Server {
    if r >= |s.runs| || s.runs[r].status.IsTerminal() || s.runs[r].status.Paused? then s
    else if s.runs[r].recoveryCount + 1 > s.runs[r].spec.maxRecoveries then
      CountRecovery(
        ServerTerminal(s, r, Failed, "lease_recovery_exhausted", "Run lease recovery limit exceeded", now), r)
    else
      CountRecovery(SetStatus(s, r, Recoverable), r)
  }

  /** Which active leases a sweep takes away. */
  datatype Doomed = ExpiredOf(owner: OwnerId, now: Time) | HeldBy(device: DeviceId)
  {
    predicate Hits(l: Lease) {
      l.status.Active? && match this
        case ExpiredOf(owner, now) => l.expiresAt <= now && l.grant.owner == owner
        case HeldBy(device) => l.grant.device == device
    }

    function Outcome(): LeaseStatus { if ExpiredOf? then Expired else Revoked }
  }

  function DropLease(s: Server, i: LeaseId, to: LeaseStatus, now: Time): Server
    requires i < |s.leases|
  {
    RecoverRun(s.(leases := s.leases[i := s.leases[i].(status := to)]), s.leases[i].grant.run, now)
  }

  function DropFrom(s: Server, i: nat, doomed: Doomed, now: Time): Server
    decreases |s.leases| - i
  {
    if i >= |s.leases| then s
    else
      var t := if doomed.Hits(s.leases[i]) then DropLease(s, i, doomed.Outcome(), now) else s;
      DropFrom(t, i + 1, doomed, now)
  }

  function ExpireLeases(s: Server, owner: OwnerId, now: Time): Server {
    DropFrom(s, 0, ExpiredOf(owner, now), now)
  }

  // --------------------------------------------------------------- leasing

  predicate CountsFor(s: Server, l: Lease, p: Principal, now: Time) {
    l.grant.owner == p.owner && l.grant.device == p.device && Live(l, now) && l.grant.run < |s.runs|
  }

  function ComputingLeases(s: Server, p: Principal, now: Time): set<LeaseId> {
    set i: LeaseId | i < |s.leases| && CountsFor(s, s.leases[i], p, now)
                     && s.runs[s.leases[i].grant.run].status.IsComputing()
  }

  function ResidentLeases(s: Server, p: Principal, now: Time): set<LeaseId> {
    set i: LeaseId | i < |s.leases| && CountsFor(s, s.leases[i], p, now)
                     && s.runs[s.leases[i].grant.run].status.IsResident()
  }

  predicate Clash(a: RunSpec, b: RunSpec) {
    WorkspaceScope(a) == WorkspaceScope(b) && (!ReadOnly(a.mode) || !ReadOnly(b.mode))
  }

  /** The lease occupies the candidate's workspace. */
  predicate Occupies(s: Server, l: Lease, candidate: RunSpec, now: Time) {
    l.grant.owner == candidate.owner && Live(l, now) && l.grant.run < |s.runs|
    && s.runs[l.grant.run].status.IsResident() && Clash(candidate, s.runs[l.grant.run].spec)
  }

  predicate ScopeConflicts(s: Server, candidate: RunSpec, now: Time) {
    exists i :: 0 <= i < |s.leases| && Occupies(s, s.leases[i], candidate, now)
  }

  /** Claimable Runs of the owner, oldest first. */
  function Candidates(runs: seq<Run>, owner: OwnerId): (ids: seq<RunId>)
    ensures forall k :: 0 <= k < |ids| ==>
      ids[k] < |runs| && runs[ids[k]].spec.owner == owner && runs[ids[k]].status.IsClaimable()
  {
    if |runs| == 0 then []
    else
      var rest := Candidates(runs[..|runs| - 1], owner);
      var last := runs[|runs| - 1];
      if last.spec.owner == owner && last.status.IsClaimable() then rest + [|runs| - 1] else rest
  }

  predicate Eligible(s: Server, p: Principal, r: RunId, now: Time)
    requires r < |s.runs|
  {
    var spec := s.runs[r].spec;
    (spec.target.None? || spec.target.value == p.device) && spec.required <= p.caps.names
    && !ScopeConflicts(s, spec, now)
  }

  function FirstEligible(s: Server, p: Principal, ids: seq<RunId>, now: Time): (r: Option<RunId>)
    requires forall k :: 0 <= k < |ids| ==> ids[k] < |s.runs|
    ensures r.Some? ==> exists k :: 0 <= k < |ids| && ids[k] == r.value && Eligible(s, p, ids[k], now)
                                    && forall j :: 0 <= j < k ==> !Eligible(s, p, ids[j], now)
    ensures r.None? ==> forall k :: 0 <= k < |ids| ==> !Eligible(s, p, ids[k], now)
  {
    if |ids| == 0 then None
    else if Eligible(s, p, ids[0], now) then Some(ids[0])
    else FirstEligible(s, p, ids[1..], now)
  }

  /** The Run a device may claim: at capacity none, else the oldest eligible of the first hundred. */
  function SelectRun(s: Server, p: Principal, now: Time): (r: Option<RunId>)
    ensures r.Some? ==> r.value < |s.runs| && s.runs[r.value].spec.owner == p.owner
                        && s.runs[r.value].status.IsClaimable() && Eligible(s, p, r.value, now)
    ensures r.Some? ==> |ComputingLeases(s, p, now)| < ParallelCapacity(p.caps)
    ensures r.Some? ==> |ResidentLeases(s, p, now)| < ResidentCapacity(p.caps)
  {
    if |ComputingLeases(s, p, now)| >= ParallelCapacity(p.caps) then None
    else if |ResidentLeases(s, p, now)| >= ResidentCapacity(p.caps) then None
    else
      var ids := Candidates(s.runs, p.owner);
      FirstEligible(s, p, if |ids| <= 100 then ids else ids[..100], now)
  }

  function LeaseTerm(seconds: int): (term: int)
    ensures 5 <= term <= 300
  {
    if seconds < 5 then 5 else if seconds > 300 then 300 else seconds
  }

  function GrantLease(s: Server, p: Principal, r: RunId, seconds: int, now: Time): Server
    requires r < |s.runs|
  {
    var epoch := s.runs[r].leaseEpoch + 1;
    s.(runs := s.runs[r := s.runs[r].(status := Leased, leaseEpoch := epoch)],
       leases := s.leases + [Lease(Grant(r, p.owner, p.device, epoch), Active, now + LeaseTerm(seconds), 0, None)])
  }

  function LeaseRun(s: Server, p: Principal, seconds: int, now: Time): (Server, Option<LeaseId>) {
    var swept := ExpireLeases(s, p.owner, now);
    match SelectRun(swept, p, now)
    case None => (swept, None)
    case Some(r) => (GrantLease(swept, p, r, seconds, now), Some(|swept.leases|))
  }

  /** The lease row named by the caller, provided it is the caller's and the Run's latest. */
  function CurrentLease(s: Server, p: Principal, r: RunId, i: LeaseId, epoch: nat): (l: Option<Lease>)
    ensures l.Some? ==> i < |s.leases| && l.value == s.leases[i]
    ensures l.Some? ==> l.value.grant == Grant(r, p.owner, p.device, epoch)
    ensures l.Some? ==> r < |s.runs| && s.runs[r].leaseEpoch == epoch
  {
    if i < |s.leases| && r < |s.runs| && s.leases[i].grant == Grant(r, p.owner, p.device, epoch)
       && s.runs[r].leaseEpoch == epoch
    then Some(s.leases[i])
    else None
  }

  function RenewLease(s: Server, p: Principal, r: RunId, i: LeaseId, epoch: nat, seconds: int, now: Time)
    : (Server, Result<nat, ProtocolError>)
  {
    match CurrentLease(s, p, r, i, epoch)
    case None => (s, Failure(StaleLease))
    case Some(lease) =>
      if !Live(lease, now) then (s, Failure(LeaseInactive))
      else (s.(leases := s.leases[i := lease.(expiresAt := now + LeaseTerm(seconds))]), Success(lease.ack))
  }

  // ---------------------------------------------------------------- events

  /** The status an event writes, if it writes one. */
  function StatusAfter(kind: EventKind, status: RunStatus): RunStatus {
    match kind
    case RunStarted => Running
    case RunWaitingUser => WaitingUser
    case RunPaused | RunPauseAck => Paused
    case RunCompleted => Completed
    case RunFailed => Failed
    case RunCancelled | RunCancelAck => Cancelled
    case _ => status
  }

  function RunAfter(run: Run, e: Envelope): Run {
    var code :=
      if e.kind.RunCompleted? then ""
      else if e.kind.RunFailed? then Clip(if e.payload.errorCode == "" then "run_failed" else e.payload.errorCode, 200)
      else run.errorCode;
    run.(status := StatusAfter(e.kind, run.status), errorCode := code)
  }

  function CommandsAfter(commands: seq<Command>, e: Envelope): seq<Command> {
    match e.kind
    case RunPaused | RunPauseAck => AckKind(commands, e.run, PauseCommand)
    case RunCancelled | RunCancelAck => AckKind(commands, e.run, CancelCommand)
    case CommandAck => AckCommand(commands, e.run, e.payload.commandId)
    case _ => commands
  }

  /** Messages and fires after an event. */
  function OutputAfter(s: Server, e: Envelope, now: Time): (t: Server)
    requires e.run < |s.runs|
    ensures t == s.(messages := t.messages, fires := t.fires)
  {
    if e.kind.RunStarted? then s.(fires := StartFires(s.fires, e.run))
    else if e.kind.IsTerminal() then
      CommitOutput(s, e.run, e.epoch, e.payload.errorMessage, !e.kind.RunCompleted?,
                   e.kind.RunCancelled? || e.kind.RunCancelAck?, now)
    else s
  }

  function ApplyEvent(s: Server, e: Envelope, now: Time): Server
    requires e.run < |s.runs|
  {
    OutputAfter(s, e, now).(runs := s.runs[e.run := RunAfter(s.runs[e.run], e)],
                            commands := CommandsAfter(s.commands, e))
  }

  /** The loop state of a submission: the tables so far, the high water, the terminal event. */
  datatype Cursor = Cursor(srv: Server, ack: nat, terminal: Option<EventId>)

  function CloseLease(s: Server, i: LeaseId, id: EventId): Server
    requires i < |s.leases|
  {
    s.(leases := s.leases[i := s.leases[i].(status := Closed, terminal := Some(id))])
  }

  function InsertEvent(c: Cursor, row: Record, now: Time): Cursor
    requires row.env.run < |c.srv.runs| && row.lease < |c.srv.leases| && row.env.sequence == c.ack + 1
  {
    var t := ApplyEvent(c.srv.(events := c.srv.events + [row]), row.env, now);
    if row.env.kind.IsTerminal()
    then Cursor(CloseLease(t, row.lease, row.id), c.ack + 1, Some(row.id))
    else Cursor(t, c.ack + 1, c.terminal)
  }

  function MessageEnvelope(lease: Lease, m: EventMessage): Envelope {
    Envelope(lease.grant.run, lease.grant.device, lease.grant.epoch, m.sequence, m.kind, m.occurredAt, m.payload)
  }

  /** One event against the lease row as it was read when the request began. */
  function SubmitOne(c: Cursor, i: LeaseId, lease: Lease, m: EventMessage, now: Time): Result<Cursor, ProtocolError>
    requires i < |c.srv.leases| && lease.grant.run < |c.srv.runs|
  {
    var env := MessageEnvelope(lease, m);
    if m.payload.bytes > MAX_EVENT_BYTES then Failure(PayloadTooLarge)
    else if m.payload.secret then Failure(PayloadSecret)
    else if m.hash != env then Failure(HashMismatch)
    else
      match FindExisting(c.srv.events, m.id, env.run, env.epoch, m.sequence)
      case Some(row) =>
        if row.id != m.id || row.env != env then Failure(EventReused)
        else if m.sequence <= c.ack then Success(c)
        else if m.sequence != c.ack + 1 then Failure(SequenceGap(c.ack + 1))
        else Success(c.(ack := c.ack + 1))
      case None =>
        if !Live(lease, now) then Failure(LeaseInactive)
        else if m.sequence != c.ack + 1 then Failure(SequenceGap(c.ack + 1))
        else Success(InsertEvent(c, Record(m.id, i, env), now))
  }

  function SubmitAll(c: Cursor, i: LeaseId, lease: Lease, ms: seq<EventMessage>, now: Time)
    : (out: Result<Cursor, ProtocolError>)
    requires i < |c.srv.leases| && lease.grant.run < |c.srv.runs|
    ensures out.Success? ==> i < |out.value.srv.leases|
    decreases |ms|
  {
    if |ms| == 0 then Success(c)
    else
      match SubmitOne(c, i, lease, ms[0], now)
      case Failure(e) => Failure(e)
      case Success(next) => SubmitAll(next, i, lease, ms[1..], now)
  }

  function SetAck(s: Server, i: LeaseId, ack: nat): Server
    requires i < |s.leases|
  {
    s.(leases := s.leases[i := s.leases[i].(ack := ack)])
  }

  datatype SubmitReply = SubmitReply(ack: nat, terminal: Option<EventId>)

  function SubmitEvents(s: Server, p: Principal, r: RunId, i: LeaseId, epoch: nat, ms: seq<EventMessage>, now: Time)
    : (Server, Result<SubmitReply, ProtocolError>)
  {
    match CurrentLease(s, p, r, i, epoch)
    case None => (s, Failure(StaleLease))
    case Some(lease) =>
      match SubmitAll(Cursor(s, lease.ack, lease.terminal), i, lease, ms, now)
      case Failure(e) => (s, Failure(e))
      case Success(c) => (SetAck(c.srv, i, c.ack), Success(SubmitReply(c.ack, c.terminal)))
  }

  // -------------------------------------------------------------- commands

  function AddCommand(s: Server, r: RunId, kind: CommandKind, version: nat): Server {
    s.(commands := s.commands + [Command(r, kind, version, true)])
  }

  function MaxVersion(commands: seq<Command>, r: RunId): (v: nat)
    ensures forall k :: 0 <= k < |commands| && commands[k].run == r ==> commands[k].version <= v
  {
    if |commands| == 0 then 0
    else
      var rest := MaxVersion(commands[..|commands| - 1], r);
      var last := commands[|commands| - 1];
      if last.run == r && last.version > rest then last.version else rest
  }

  predicate PendingOf(commands: seq<Command>, r: RunId, kind: CommandKind) {
    exists k :: 0 <= k < |commands| && commands[k].run == r && commands[k].kind == kind && commands[k].pending
  }

  /** Asks the device once: a second request while one is pending adds nothing. */
  function AskOnce(s: Server, r: RunId, kind: CommandKind): Server {
    if PendingOf(s.commands, r, kind) then s
    else AddCommand(s, r, kind, MaxVersion(s.commands, r) + 1)
  }

  predicate Held(l: Lease, r: RunId) { l.grant.run == r && l.status.Active? }

  predicate HasLiveLease(s: Server, r: RunId, now: Time) {
    exists i :: 0 <= i < |s.leases| && Held(s.leases[i], r) && s.leases[i].expiresAt > now
  }

  predicate Owns(s: Server, r: RunId, owner: OwnerId) {
    r < |s.runs| && s.runs[r].spec.owner == owner
  }

  function RequestCancel(s: Server, r: RunId, owner: OwnerId, now: Time): (Server, Result<(), ProtocolError>) {
    if !Owns(s, r, owner) then (s, Failure(RunNotFound))
    else if s.runs[r].status.IsTerminal() then (s, Success(()))
    else if (s.runs[r].status.IsClaimable() || s.runs[r].status.Paused?) && !HasLiveLease(s, r, now) then
      (ServerTerminal(s, r, Cancelled, "cancelled_by_user", "Run cancelled before local execution", now), Success(()))
    else
      var version := s.runs[r].cancelVersion + 1;
      (AddCommand(s.(runs := s.runs[r := s.runs[r].(cancelVersion := version)]), r, CancelCommand, version),
       Success(()))
  }

  function RequestPause(s: Server, r: RunId, owner: OwnerId): (Server, Result<(), ProtocolError>) {
    if !Owns(s, r, owner) then (s, Failure(RunNotFound))
    else if s.runs[r].status.IsTerminal() then (s, Failure(TerminalRun))
    else if s.runs[r].status.Paused? then (s, Success(()))
    else if s.runs[r].status.IsClaimable() then (SetStatus(s, r, Paused), Success(()))
    else if s.runs[r].status.IsComputing() then (AskOnce(s, r, PauseCommand), Success(()))
    else (s, Failure(WrongStatus))
  }

  /** Marks every active lease of the Run expired. */
  function ExpireHeld(leases: seq<Lease>, r: RunId): (out: seq<Lease>)
    ensures |out| == |leases|
    ensures forall k :: 0 <= k < |leases| ==>
      out[k] == if Held(leases[k], r) then leases[k].(status := Expired) else leases[k]
  {
    seq(|leases|, k requires 0 <= k < |leases| =>
      if Held(leases[k], r) then leases[k].(status := Expired) else leases[k])
  }

  const RESUME_ERROR :=
    "Local Agent lease ended while paused; safe resume is unavailable. "
    + "Retry this Run explicitly to start a new execution."

  function RequestResume(s: Server, r: RunId, owner: OwnerId, now: Time): (Server, Result<(), ProtocolError>) {
    if !Owns(s, r, owner) then (s, Failure(RunNotFound))
    else if !s.runs[r].status.Paused? then (s, Failure(WrongStatus))
    else if HasLiveLease(s, r, now) then (AskOnce(s, r, ResumeCommand), Success(()))
    else
      var t := s.(leases := ExpireHeld(s.leases, r));
      if s.runs[r].leaseEpoch == 0 then (SetStatus(t, r, Recoverable), Success(()))
      else
        (ServerTerminal(t, r, Failed, "resume_checkpoint_unavailable", RESUME_ERROR, now), Success(()))
  }

  function AnswerUser(s: Server, r: RunId, owner: OwnerId, question: EventId): (Server, Result<nat, ProtocolError>) {
    if !Owns(s, r, owner) then (s, Failure(RunNotFound))
    else if !s.runs[r].status.WaitingUser?
            || !(exists k :: 0 <= k < |s.events| && s.events[k].id == question && s.events[k].env.run == r
                             && s.events[k].env.kind.RunWaitingUser?)
    then (s, Failure(WrongStatus))
    else
      var version := MaxVersion(s.commands, r) + 1;
      (AddCommand(s, r, AnswerCommand, version), Success(version))
  }

  function RevokeDevice(s: Server, owner: OwnerId, device: DeviceId, now: Time): Server {
    if device !in s.devices || s.devices[device].owner != owner then s
    else
      DropFrom(s.(devices := s.devices[device := s.devices[device].(status := DeviceRevoked)]),
               0, HeldBy(device), now)
  }

  // ------------------------------------------------- turns and automations

  /** The Run the owner already created under this key, or |runs|. */
  function FindRun(runs: seq<Run>, owner: OwnerId, key: RequestKey): (i: nat)
    ensures i <= |runs|
    ensures i < |runs| ==> runs[i].spec.owner == owner && runs[i].spec.key == key
    ensures i == |runs| ==> forall j :: 0 <= j < |runs| ==> !(runs[j].spec.owner == owner && runs[j].spec.key == key)
  {
    if |runs| == 0 then 0
    else
      var rest := FindRun(runs[..|runs| - 1], owner, key);
      var last := runs[|runs| - 1];
      if rest < |runs| - 1 then rest
      else if last.spec.owner == owner && last.spec.key == key then |runs| - 1
      else |runs|
  }

  function NewRun(spec: RunSpec): Run { Run(spec, Queued, 0, 0, 0, "") }

  function CreateTurn(s: Server, spec: RunSpec): (Server, Result<RunId, ProtocolError>) {
    var i := FindRun(s.runs, spec.owner, spec.key);
    if i < |s.runs| then
      (s, if s.runs[i].spec.requestHash == spec.requestHash then Success(i) else Failure(KeyConflict))
    else (s.(runs := s.runs + [NewRun(spec)]), Success(|s.runs|))
  }

  /** A Run posted on its own: like a turn, except that it needs no key. */
  function CreateRun(s: Server, spec: RunSpec): (Server, Result<RunId, ProtocolError>) {
    if spec.key.NoKey? then (s.(runs := s.runs + [NewRun(spec)]), Success(|s.runs|)) else CreateTurn(s, spec)
  }

  /** An assistant message an account posts on a Run, once access and idempotency are settled. */
  function PostMessage(s: Server, m: Message): Server {
    if m.run < |s.runs| then s.(messages := s.messages + [m]) else s
  }

  function FindFireByKey(fires: seq<Fire>, automation: AutomationId, key: string): (i: nat)
    ensures i <= |fires|
    ensures i < |fires| ==> fires[i].automation == automation && fires[i].key == key
    ensures i == |fires| ==> forall j :: 0 <= j < |fires| ==> !(fires[j].automation == automation && fires[j].key == key)
  {
    if |fires| == 0 then 0
    else
      var rest := FindFireByKey(fires[..|fires| - 1], automation, key);
      var last := fires[|fires| - 1];
      if rest < |fires| - 1 then rest
      else if last.automation == automation && last.key == key then |fires| - 1
      else |fires|
  }

  predicate HasActiveFire(fires: seq<Fire>, automation: AutomationId) {
    exists k :: 0 <= k < |fires| && fires[k].automation == automation && fires[k].status.IsActive()
  }

  /** The prompt, project, model and routing an automation gives the Runs it starts. */
  datatype Template = Template(project: string, target: Option<DeviceId>, required: set<string>, hash: nat)

  function FireSpec(a: AutomationId, owner: OwnerId, t: Template, f: FireId, attempt: nat, retryOf: Option<RunId>)
    : RunSpec
  {
    RunSpec(owner, t.project, if t.project == "" then "default" else "project:" + t.project, "exec",
            t.target, t.required, 3, FireKey(f, attempt), t.hash, retryOf, Some(a))
  }

  datatype EnqueueReply = Enqueued(fire: FireId) | Duplicate(fire: FireId) | Skipped

  function EnqueueAutomation(s: Server, a: AutomationId, key: string, t: Template)
    : (Server, Result<EnqueueReply, ProtocolError>)
  {
    if a !in s.automations then (s, Failure(UnknownAutomation))
    else
      var auto := s.automations[a];
      var f := FindFireByKey(s.fires, a, key);
      if f < |s.fires| && !s.fires[f].status.FireRetryWait? then (s, Success(Duplicate(f)))
      else if f == |s.fires| && auto.skip && HasActiveFire(s.fires, a) then (s, Success(Skipped))
      else
        var known := f < |s.fires|;
        var attempt := if known then s.fires[f].attempt + 1 else 1;
        var budget := if known then s.fires[f].maxAttempts else if auto.maxAttempts == 0 then 3 else auto.maxAttempts;
        if attempt > budget then (s, Failure(RetriesExhausted))
        else
          var previous := if known then Some(s.fires[f].run) else None;
          match CreateTurn(s, FireSpec(a, auto.owner, t, f, attempt, previous))
          case (_, Failure(e)) => (s, Failure(e))
          case (made, Success(r)) =>
            var fire := Fire(a, auto.owner, key, FireQueued, attempt, budget, r, previous, None);
            (made.(fires := if known then s.fires[f := fire] else s.fires + [fire]), Success(Enqueued(f)))
  }

  /** What ignoring a fire writes, whatever the row has become since it was checked. */
  function WriteIgnored(s: Server, f: FireId): Server
    requires f < |s.fires|
  {
    s.(fires := s.fires[f := s.fires[f].(status := FireIgnored, nextAttemptAt := None)])
  }

  function IgnoreFire(s: Server, f: FireId, owner: OwnerId): (Server, Result<(), ProtocolError>) {
    if f >= |s.fires| || s.fires[f].owner != owner then (s, Failure(RunNotFound))
    else if !(s.fires[f].status.FireDeadLetter? || s.fires[f].status.FireRetryWait?) then (s, Failure(WrongStatus))
    else (WriteIgnored(s, f), Success(()))
  }

  // ------------------------------------------------------- device registry

  /** A device id belongs to its first owner, and a revoked identity is never revived. */
  function RegisterDevice(s: Server, device: DeviceId, owner: OwnerId, caps: Capabilities, now: Time)
    : (Server, Result<(), ProtocolError>)
  {
    if device in s.devices
       && (s.devices[device].owner != owner || s.devices[device].status.DeviceRevoked?)
    then (s, Failure(WrongStatus))
    else (s.(devices := s.devices[device := Device(owner, caps, DeviceActive, now)]), Success(()))
  }

  function Heartbeat(s: Server, p: Principal, caps: Capabilities, now: Time): Server {
    if p.device in s.devices && s.devices[p.device].owner == p.owner
    then s.(devices := s.devices[p.device := s.devices[p.device].(caps := caps, lastSeen := now)])
    else s
  }

  // ----------------------------------------------------------------- steps

  /** The transactions modelled on these tables. */
  datatype Transaction =
    | Register(device: DeviceId, owner: OwnerId, caps: Capabilities)
    | Beat(who: Principal, caps: Capabilities)
    | Turn(spec: RunSpec)
    | AddRun(spec: RunSpec)
    | Post(message: Message)
    | Claim(who: Principal, seconds: int)
    | Renew(who: Principal, run: RunId, lease: LeaseId, epoch: nat, seconds: int)
    | Submit(who: Principal, run: RunId, lease: LeaseId, epoch: nat, events: seq<EventMessage>)
    | Cancel(run: RunId, owner: OwnerId)
    | Pause(run: RunId, owner: OwnerId)
    | Resume(run: RunId, owner: OwnerId)
    | Answer(run: RunId, owner: OwnerId, question: EventId)
    | Revoke(device: DeviceId, owner: OwnerId)
    | Enqueue(automation: AutomationId, key: string, template: Template)
    | Ignore(fire: FireId, owner: OwnerId)

  function Perform(s: Server, tx: Transaction, now: Time): Server {
    match tx
    case Register(device, owner, caps) => RegisterDevice(s, device, owner, caps, now).0
    case Beat(who, caps) => Heartbeat(s, who, caps, now)
    case Turn(spec) => if spec.key.NoKey? then s else CreateTurn(s, spec).0
    case AddRun(spec) => CreateRun(s, spec).0
    case Post(message) => PostMessage(s, message)
    case Claim(who, seconds) => LeaseRun(s, who, seconds, now).0
    case Renew(who, r, i, epoch, seconds) => RenewLease(s, who, r, i, epoch, seconds, now).0
    case Submit(who, r, i, epoch, events) => SubmitEvents(s, who, r, i, epoch, events, now).0
    case Cancel(r, owner) => RequestCancel(s, r, owner, now).0
    case Pause(r, owner) => RequestPause(s, r, owner).0
    case Resume(r, owner) => RequestResume(s, r, owner, now).0
    case Answer(r, owner, question) => AnswerUser(s, r, owner, question).0
    case Revoke(device, owner) => RevokeDevice(s, owner, device, now)
    case Enqueue(a, key, template) => EnqueueAutomation(s, a, key, template).0
    case Ignore(f, owner) => IgnoreFire(s, f, owner).0
  }
}
