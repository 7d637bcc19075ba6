/**
  The event table as a sequence in commit order, and the sub-logs the queries
  of the Server and of the Local Agent select from it.
*/
module EventLog {
  import opened Wrappers
  import opened RunTypes

  predicate InEpoch(e: Record, r: RunId, epoch: nat) {
    e.env.run == r && e.env.epoch == epoch
  }

  /** The rows of one Run and epoch, oldest first. */
  function EpochLog(events: seq<Record>, r: RunId, epoch: nat): (log: seq<Record>)
    ensures |log| <= |events|
    ensures forall e :: e in log ==> e in events && InEpoch(e, r, epoch)
  {
    if |events| == 0 then []
    else
      var last := events[|events| - 1];
      var rest := EpochLog(events[..|events| - 1], r, epoch);
      if InEpoch(last, r, epoch) then rest + [last] else rest
  }

  lemma EpochLogAppend(events: seq<Record>, e: Record, r: RunId, epoch: nat)
    ensures EpochLog(events + [e], r, epoch)
         == if InEpoch(e, r, epoch) then EpochLog(events, r, epoch) + [e] else EpochLog(events, r, epoch)
  {}

  /** Every row of the Run and epoch is selected. */
  lemma {:induction false} EpochLogComplete(events: seq<Record>, j: nat, r: RunId, epoch: nat)
    requires j < |events| && InEpoch(events[j], r, epoch)
    ensures events[j] in EpochLog(events, r, epoch)
  {
    if j < |events| - 1 {
      EpochLogComplete(events[..|events| - 1], j, r, epoch);
    }
  }

  /** No matching row, no log. */
  lemma {:induction false} EpochLogNone(events: seq<Record>, r: RunId, epoch: nat)
    requires forall j :: 0 <= j < |events| ==> !InEpoch(events[j], r, epoch)
    ensures EpochLog(events, r, epoch) == []
  {
    if |events| > 0 {
      EpochLogNone(events[..|events| - 1], r, epoch);
    }
  }

  /** A longer table only ever extends a sub-log. */
  lemma {:induction false} EpochLogExtends(events: seq<Record>, more: seq<Record>, r: RunId, epoch: nat)
    requires events <= more
    ensures EpochLog(events, r, epoch) <= EpochLog(more, r, epoch)
    decreases |more|
  {
    if |more| > |events| {
      EpochLogExtends(events, more[..|more| - 1], r, epoch);
    } else {
      assert events == more;
    }
  }

  /** Rows q of an epoch's log carry sequence q + 1. */
  ghost predicate Numbered(log: seq<Record>) {
    forall q :: 0 <= q < |log| ==> log[q].env.sequence == q + 1
  }

  /** The lookup by event id or by (run, epoch, sequence) that precedes an insert. */
  function FindExisting(events: seq<Record>, id: EventId, r: RunId, epoch: nat, sequence: int): (row: Option<Record>)
    ensures row.Some? ==> row.value in events && Matches(row.value, id, r, epoch, sequence)
    ensures row.None? ==> forall j :: 0 <= j < |events| ==> !Matches(events[j], id, r, epoch, sequence)
  {
    if |events| == 0 then None
    else if Matches(events[0], id, r, epoch, sequence) then Some(events[0])
    else FindExisting(events[1..], id, r, epoch, sequence)
  }

  predicate Matches(e: Record, id: EventId, r: RunId, epoch: nat, sequence: int) {
    e.id == id || (InEpoch(e, r, epoch) && e.env.sequence == sequence)
  }
}
