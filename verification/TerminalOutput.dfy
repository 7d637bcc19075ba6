/**
  The assistant message a terminal Run leaves behind, and the settlement of the
  automation fire that started the Run, as functions of the tables.
*/
module TerminalOutput {
  import opened Wrappers
  import opened RunTypes
  import opened EventLog

  function Clip(text: string, limit: nat): string {
    if |text| <= limit then text else text[..limit]
  }

  datatype Output = Output(content: string, trace: seq<TraceItem>, usage: Option<Usage>, streamError: string)

  predicate Superseded(item: TraceItem) { item.kind.Todo? || item.kind.IsPlan() }

  function DropSuperseded(trace: seq<TraceItem>): (kept: seq<TraceItem>)
    ensures |kept| <= |trace|
    ensures forall k :: 0 <= k < |kept| ==> kept[k] in trace && !Superseded(kept[k])
  {
    if |trace| == 0 then []
    else
      var rest := DropSuperseded(trace[..|trace| - 1]);
      var last := trace[|trace| - 1];
      if Superseded(last) then rest else rest + [last]
  }

  /** A plan item replaces earlier plan and todo items; a full trace drops the newcomer. */
  function AddTrace(trace: seq<TraceItem>, item: TraceItem): seq<TraceItem> {
    var kept := if item.kind.IsPlan() then DropSuperseded(trace) else trace;
    if |kept| < TRACE_LIMIT then kept + [item] else kept
  }

  function Absorb(out: Output, e: Envelope): Output {
    match e.kind
    case UiText => out.(content := out.content + e.payload.md)
    case UiUsage => out.(usage := Some(Usage(e.payload.promptTokens, e.payload.completionTokens)))
    case UiError => out.(streamError := Clip(e.payload.message, ERROR_LIMIT))
    case UiTrace(kind) => out.(trace := AddTrace(out.trace, TraceItem(kind, e.payload.body)))
    case _ => out
  }

  const NOTHING := Output("", [], None, "")

  /** What the events of one epoch add up to. */
  function Collect(log: seq<Record>): Output {
    if |log| == 0 then NOTHING
    else Absorb(Collect(log[..|log| - 1]), log[|log| - 1].env)
  }

  /** The Run already has its assistant message. */
  predicate Answered(messages: seq<Message>, r: RunId) {
    exists k :: 0 <= k < |messages| && messages[k].run == r
  }

  function FinalMessage(events: seq<Record>, r: RunId, epoch: nat, errorMessage: string): Message {
    var out := Collect(EpochLog(events, r, epoch));
    var error := if errorMessage != "" then errorMessage else out.streamError;
    Message(r, out.content, out.trace, out.usage, Clip(error, ERROR_LIMIT))
  }

  function WithFinalMessage(messages: seq<Message>, events: seq<Record>, r: RunId, epoch: nat, errorMessage: string)
    : seq<Message>
  {
    if Answered(messages, r) then messages
    else messages + [FinalMessage(events, r, epoch, errorMessage)]
  }

  /** The fire whose current Run this is, or |fires|. */
  function FindFire(fires: seq<Fire>, r: RunId, owner: OwnerId): (i: nat)
    ensures i <= |fires|
    ensures i < |fires| ==> fires[i].run == r && fires[i].owner == owner
    ensures forall j :: 0 <= j < i ==> !(fires[j].run == r && fires[j].owner == owner)
  {
    if |fires| == 0 then 0
    else
      var rest := FindFire(fires[..|fires| - 1], r, owner);
      if rest < |fires| - 1 then rest
      else if fires[|fires| - 1].run == r && fires[|fires| - 1].owner == owner then |fires| - 1
      else |fires|
  }

  function Power2(n: nat): nat { if n == 0 then 1 else 2 * Power2(n - 1) }

  /** The fire after its Run ended: ignored, done, waiting for a retry, or dead. */
  function Settle(fire: Fire, backoff: nat, failed: bool, cancelled: bool, now: Time): Fire {
    if cancelled then fire.(status := FireIgnored, nextAttemptAt := None)
    else if !failed then fire.(status := FireSucceeded, nextAttemptAt := None)
    else if fire.attempt < fire.maxAttempts then
      var base := if backoff == 0 then 30 else backoff;
      var doublings := if fire.attempt >= 1 then fire.attempt - 1 else 0;
      fire.(status := FireRetryWait, nextAttemptAt := Some(now + base * Power2(doublings)))
    else fire.(status := FireDeadLetter, nextAttemptAt := None)
  }

  function FinishRun(fires: seq<Fire>, automations: map<AutomationId, Automation>,
                     r: RunId, owner: OwnerId, failed: bool, cancelled: bool, now: Time): (settled: seq<Fire>)
    ensures |settled| == |fires|
  {
    var i := FindFire(fires, r, owner);
    if i < |fires| && fires[i].automation in automations then
      fires[i := Settle(fires[i], automations[fires[i].automation].backoff, failed, cancelled, now)]
    else fires
  }

  /** A started Run moves its queued fire to running. */
  function StartFires(fires: seq<Fire>, r: RunId): (started: seq<Fire>)
    ensures |started| == |fires|
    ensures forall k :: 0 <= k < |fires| ==>
      started[k] == if fires[k].run == r && fires[k].status.FireQueued?
                    then fires[k].(status := FireRunning) else fires[k]
  {
    seq(|fires|, k requires 0 <= k < |fires| =>
      if fires[k].run == r && fires[k].status.FireQueued? then fires[k].(status := FireRunning) else fires[k])
  }

  /** Acknowledges the pending commands of one kind. */
  function AckKind(commands: seq<Command>, r: RunId, kind: CommandKind): (acked: seq<Command>)
    ensures |acked| == |commands|
    ensures forall k :: 0 <= k < |commands| ==>
      acked[k] == commands[k].(pending := commands[k].pending && !(commands[k].run == r && commands[k].kind == kind))
  {
    seq(|commands|, k requires 0 <= k < |commands| =>
      commands[k].(pending := commands[k].pending && !(commands[k].run == r && commands[k].kind == kind)))
  }

  function AckCommand(commands: seq<Command>, r: RunId, id: CommandId): (acked: seq<Command>)
    ensures |acked| == |commands|
  {
    if id < |commands| && commands[id].run == r then commands[id := commands[id].(pending := false)] else commands
  }

  /** Writes the terminal output of a Run: its message, and the settlement of its fire. */
  function CommitOutput(s: Server, r: RunId, epoch: nat, errorMessage: string,
                        failed: bool, cancelled: bool, now: Time): (t: Server)
    requires r < |s.runs|
    ensures t == s.(messages := t.messages, fires := t.fires)
  {
    var spec := s.runs[r].spec;
    s.(messages := WithFinalMessage(s.messages, s.events, r, epoch, errorMessage),
       fires := if spec.automation.Some?
                then FinishRun(s.fires, s.automations, r, spec.owner, failed, cancelled, now) else s.fires)
  }
}
