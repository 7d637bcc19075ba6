/**
  What the assistant message of an ended Run says, without reference to the loop
  that builds it.
*/
module Transcript {
  import opened Wrappers
  import opened RunTypes
  import opened EventLog
  import opened TerminalOutput
  import opened RunProtocol
  import opened Outcomes
  import opened History

  /** The texts of the `ui.text` events, in order. */
  function Texts(log: seq<Record>): seq<string> {
    if |log| == 0 then []
    else
      var e := log[|log| - 1].env;
      if e.kind.UiText? then Texts(log[..|log| - 1]) + [e.payload.md] else Texts(log[..|log| - 1])
  }

  function Join(parts: seq<string>): string { if |parts| == 0 then "" else parts[0] + Join(parts[1..]) }

  lemma {:induction false} JoinAppend(parts: seq<string>, part: string)
    ensures Join(parts + [part]) == Join(parts) + part
  {
    if |parts| > 0 {
      assert (parts + [part])[1..] == parts[1..] + [part];
      JoinAppend(parts[1..], part);
    }
  }

  /** The text is the concatenation of the streamed texts. */
  lemma {:induction false} ContentIsJoined(log: seq<Record>)
    ensures Collect(log).content == Join(Texts(log))
  {
    if |log| > 0 {
      var init := log[..|log| - 1];
      ContentIsJoined(init);
      if log[|log| - 1].env.kind.UiText? { JoinAppend(Texts(init), log[|log| - 1].env.payload.md); }
    }
  }

  // ------------------------------------------------------------------- trace

  function TraceItems(log: seq<Record>): seq<TraceItem> {
    if |log| == 0 then []
    else
      var e := log[|log| - 1].env;
      var rest := TraceItems(log[..|log| - 1]);
      if e.kind.UiTrace? then rest + [TraceItem(e.kind.trace, e.payload.body)] else rest
  }

  /** A plan or todo item is overwritten by any later plan. */
  ghost predicate Survives(items: seq<TraceItem>, j: nat)
    requires j < |items|
  {
    items[j].kind in {Todo, PlanSnapshot, PlanPatch} ==>
      forall k :: j < k < |items| ==> items[k].kind !in {PlanSnapshot, PlanPatch}
  }

  /** The surviving ones among the first n items. */
  ghost function Surviving(items: seq<TraceItem>, n: nat): seq<TraceItem>
    requires n <= |items|
  {
    if n == 0 then []
    else if Survives(items, n - 1) then Surviving(items, n - 1) + [items[n - 1]] else Surviving(items, n - 1)
  }

  lemma SurvivesAppend(items: seq<TraceItem>, item: TraceItem, j: nat)
    requires j < |items|
    ensures Survives(items + [item], j) <==> Survives(items, j) && !(Superseded(items[j]) && item.kind.IsPlan())
  {
    var more := items + [item];
    assert more[j] == items[j] && more[|items|] == item;
    assert forall k :: j < k < |items| ==> more[k] == items[k];
  }

  lemma DropOneMore(trace: seq<TraceItem>, item: TraceItem)
    ensures DropSuperseded(trace + [item]) == if Superseded(item) then DropSuperseded(trace) else DropSuperseded(trace) + [item]
  {
    assert (trace + [item])[..|trace|] == trace;
  }

  lemma {:induction false} SurvivingAppend(items: seq<TraceItem>, item: TraceItem, n: nat)
    requires n <= |items|
    ensures Surviving(items + [item], n)
         == if item.kind.IsPlan() then DropSuperseded(Surviving(items, n)) else Surviving(items, n)
  {
    if n > 0 {
      SurvivingAppend(items, item, n - 1);
      SurvivesAppend(items, item, n - 1);
      DropOneMore(Surviving(items, n - 1), items[n - 1]);
      assert (items + [item])[n - 1] == items[n - 1];
    }
  }

  lemma {:induction false} SurvivingSize(items: seq<TraceItem>, n: nat)
    requires n <= |items|
    ensures |Surviving(items, n)| <= n
  {
    if n > 0 { SurvivingSize(items, n - 1); }
  }

  /** One more item survives itself, and overwrites plans and todos if it is a plan. */
  lemma SurvivingLast(items: seq<TraceItem>, item: TraceItem)
    ensures Surviving(items + [item], |items| + 1)
         == (if item.kind.IsPlan() then DropSuperseded(Surviving(items, |items|)) else Surviving(items, |items|)) + [item]
  {
    SurvivingAppend(items, item, |items|);
    assert (items + [item])[|items|] == item;
  }

  /** Below the limit, the trace is exactly what no later plan overwrote, in order. */
  lemma {:induction false} TraceIsSurviving(log: seq<Record>)
    requires |TraceItems(log)| <= 10000
    ensures Collect(log).trace == Surviving(TraceItems(log), |TraceItems(log)|)
  {
    if |log| > 0 {
      var init, e := log[..|log| - 1], log[|log| - 1].env;
      TraceIsSurviving(init);
      if e.kind.UiTrace? {
        SurvivingLast(TraceItems(init), TraceItem(e.kind.trace, e.payload.body));
        SurvivingSize(TraceItems(init), |TraceItems(init)|);
      }
    }
  }

  predicate OnePlan(trace: seq<TraceItem>) {
    forall j, k :: 0 <= j < k < |trace| ==> !(trace[j].kind in {PlanSnapshot, PlanPatch} && trace[k].kind in {PlanSnapshot, PlanPatch})
  }

  /** Whatever was streamed, the trace is bounded and shows at most one plan. */
  lemma {:induction false} TraceIsBounded(log: seq<Record>)
    ensures |Collect(log).trace| <= 10000 && OnePlan(Collect(log).trace)
  {
    if |log| > 0 { TraceIsBounded(log[..|log| - 1]); }
  }

  // ----------------------------------------------------------------- message

  /** After any orderly history, a Run has ended exactly if it has its one assistant message. */
  lemma EndedIffAnswered(automations: map<AutomationId, Automation>, h: seq<Timed>, from: Time, r: RunId)
    requires WellBehaved(Initial(automations), h, from) && r < |Replay(Initial(automations), h).runs|
    ensures var s := Replay(Initial(automations), h);
      (s.runs[r].status.IsTerminal() <==> Answered(s.messages, r))
      && forall j, k :: 0 <= j < |s.messages| && 0 <= k < |s.messages| && s.messages[j].run == r && s.messages[k].run == r ==> j == k
  {
    var s := Replay(Initial(automations), h);
    EveryHistoryIsGood(automations, h, from);
    forall k | 0 <= k < |s.messages| ensures MessageAgrees(s, s.messages[k]) {}
  }

  /** Whatever batches and posts a history has, a Run that ended has an assistant message. */
  lemma EndedMeansAnswered(automations: map<AutomationId, Automation>, h: seq<Timed>, r: RunId)
    requires r < |Replay(Initial(automations), h).runs|
    ensures var s := Replay(Initial(automations), h);
      s.runs[r].status.IsTerminal() ==> Answered(s.messages, r)
  {
    AnsweredAlways(Initial(automations), h);
  }

  /** After any orderly history, every message carries its Run's terminal epoch. */
  lemma MessagesTellTheEpoch(automations: map<AutomationId, Automation>, h: seq<Timed>, from: Time, k: nat)
    requires WellBehaved(Initial(automations), h, from) && k < |Replay(Initial(automations), h).messages|
    ensures var s := Replay(Initial(automations), h);
      var m := s.messages[k];
      m.run < |s.runs| && s.runs[m.run].status.IsTerminal()
      && m.content == Join(Texts(EpochLog(s.events, m.run, s.runs[m.run].leaseEpoch)))
      && |m.trace| <= 10000 && OnePlan(m.trace)
  {
    EveryHistoryIsGood(automations, h, from);
    var s := Replay(Initial(automations), h);
    var m := s.messages[k];
    assert MessageAgrees(s, m);
    ContentIsJoined(EpochLog(s.events, m.run, s.runs[m.run].leaseEpoch));
    TraceIsBounded(EpochLog(s.events, m.run, s.runs[m.run].leaseEpoch));
  }
}
