/**
  The rows of the Server's run tables and the envelopes that travel between a
  Local Agent and the Server.

  A row's id is its position in its table, so ids are fresh by construction.
  An event digest is injective, so it is represented by the envelope it covers.
*/
module RunTypes {
  import opened Wrappers

  type Time = int
  type RunId = nat
  type LeaseId = nat
  type FireId = nat
  type CommandId = nat
  type OwnerId = nat
  type DeviceId = nat
  type AutomationId = nat

  const MAX_EVENT_BYTES := 256 * 1024
  const TRACE_LIMIT := 10000
  const ERROR_LIMIT := 20000

  /** A uuid4 drawn by a device: never drawn twice, and never by another device. */
  datatype EventId = EventId(drawnBy: DeviceId, draw: nat)

  datatype TraceKind =
    | Think | Step | FileRead | Diff | Todo | PlanSnapshot | PlanPatch
    | QaSummary | ContextDegraded | Artifact
  {
    predicate IsPlan() { PlanSnapshot? || PlanPatch? }
  }

  datatype EventKind =
    | RunStarted | RunWaitingUser | RunPaused | RunPauseAck | RunCheckpoint
    | RunCompleted | RunFailed | RunCancelled | RunCancelAck
    | CommandAck | UiText | UiUsage | UiError | UiTrace(trace: TraceKind) | UiOther
  {
    /** The kinds for which applying the event reports a terminal Run. */
    predicate IsTerminal() { RunCompleted? || RunFailed? || RunCancelled? || RunCancelAck? }
  }

  /** A decoded JSON payload: the keys the Server reads, its encoded size, and
      whether any key of it names a credential. */
  datatype Payload = Payload(
    bytes: nat, secret: bool,
    md: string, message: string, errorCode: string, errorMessage: string,
    promptTokens: nat, completionTokens: nat, commandId: CommandId, body: string)

  datatype Envelope = Envelope(
    run: RunId, device: DeviceId, epoch: nat, sequence: int,
    kind: EventKind, occurredAt: Time, payload: Payload)

  /** A row of `run_events`, of the local WAL, or of the local archive. */
  datatype Record = Record(id: EventId, lease: LeaseId, env: Envelope)

  /** One element of a request body; `hash` is whatever the sender claims. */
  datatype EventMessage = EventMessage(
    id: EventId, sequence: int, kind: EventKind, occurredAt: Time, payload: Payload, hash: Envelope)

  datatype RunStatus =
    | Queued | Leased | Running | WaitingUser | Paused | Recoverable
    | Completed | Succeeded | Failed | Cancelled
  {
    predicate IsTerminal() { Completed? || Succeeded? || Failed? || Cancelled? }
    /** The statuses a device is expected to be working on. */
    predicate NeedsLease() { Leased? || Running? || WaitingUser? }
    /** The statuses the resident-capacity and workspace queries select. */
    predicate IsResident() { NeedsLease() || Paused? }
    /** The statuses the parallel-capacity query selects. */
    predicate IsComputing() { Leased? || Running? }
    predicate IsClaimable() { Queued? || Recoverable? }
  }

  /** The Run's idempotency key, if any; keys built by the schedulers never collide
      with a key chosen by a user. */
  datatype RequestKey =
    | NoKey
    | TurnKey(text: string)
    | FireKey(fire: FireId, attempt: nat)
    | PolicyKey(item: nat, version: nat, attempt: nat)

  /** The columns of a Run that never change after it is created. */
  datatype RunSpec = RunSpec(
    owner: OwnerId, project: string, workspace: string, mode: string,
    target: Option<DeviceId>, required: set<string>, maxRecoveries: nat,
    key: RequestKey, requestHash: nat, retryOf: Option<RunId>, automation: Option<AutomationId>)

  datatype Run = Run(
    spec: RunSpec, status: RunStatus, leaseEpoch: nat, recoveryCount: nat,
    cancelVersion: nat, errorCode: string)

  datatype LeaseStatus = Active | Expired | Revoked | Closed

  /** The columns of a lease that never change after it is granted. */
  datatype Grant = Grant(run: RunId, owner: OwnerId, device: DeviceId, epoch: nat)

  datatype Lease = Lease(
    grant: Grant, status: LeaseStatus, expiresAt: Time, ack: nat, terminal: Option<EventId>)

  datatype Capabilities = Capabilities(names: set<string>, maxParallel: Option<int>, maxResident: Option<int>)

  datatype DeviceStatus = DeviceActive | DeviceRevoked

  datatype Device = Device(owner: OwnerId, caps: Capabilities, status: DeviceStatus, lastSeen: Time)

  /** An authenticated device; its capabilities are the ones read at authentication. */
  datatype Principal = Principal(device: DeviceId, owner: OwnerId, caps: Capabilities)

  datatype CommandKind = CancelCommand | PauseCommand | ResumeCommand | AnswerCommand

  datatype Command = Command(run: RunId, kind: CommandKind, version: nat, pending: bool)

  datatype TraceItem = TraceItem(kind: TraceKind, body: string)

  datatype Usage = Usage(prompt: nat, completion: nat)

  /** The assistant message a terminal Run leaves in its session. */
  datatype Message = Message(
    run: RunId, content: string, trace: seq<TraceItem>, usage: Option<Usage>, error: string)

  datatype Automation = Automation(owner: OwnerId, skip: bool, maxAttempts: nat, backoff: nat)

  datatype FireStatus = FireQueued | FireRunning | FireRetryWait | FireSucceeded | FireDeadLetter | FireIgnored
  {
    /** The statuses that block another fire of a `skip` automation. */
    predicate IsActive() { FireQueued? || FireRunning? || FireRetryWait? }
    predicate InFlight() { FireQueued? || FireRunning? }
  }

  datatype Fire = Fire(
    automation: AutomationId, owner: OwnerId, key: string, status: FireStatus,
    attempt: nat, maxAttempts: nat, run: RunId, retryOf: Option<RunId>, nextAttemptAt: Option<Time>)

  datatype Server = Server(
    devices: map<DeviceId, Device>,
    runs: seq<Run>,
    leases: seq<Lease>,
    events: seq<Record>,
    commands: seq<Command>,
    messages: seq<Message>,
    automations: map<AutomationId, Automation>,
    fires: seq<Fire>)
}
