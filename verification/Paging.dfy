/**
  Reading a Run's events page by page with an (epoch, sequence) cursor while
  devices keep committing.
*/
module Paging {
  import opened Wrappers
  import opened RunTypes
  import opened RunProtocol
  import Ledger
  import opened History

  /** The rows of one Run in commit order. */
  function RunLog(events: seq<Record>, r: RunId): (log: seq<Record>)
    ensures forall e :: e in log ==> e in events && e.env.run == r
  {
    if |events| == 0 then []
    else
      var last := events[|events| - 1];
      var rest := RunLog(events[..|events| - 1], r);
      if last.env.run == r then rest + [last] else rest
  }

  /** The WHERE clause: without an epoch only the sequence is compared. */
  predicate AfterCursor(e: Record, epoch: nat, sequence: int) {
    var floor := if sequence < 0 then 0 else sequence;
    if epoch > 0 then e.env.epoch > epoch || (e.env.epoch == epoch && e.env.sequence > floor)
    else e.env.sequence > floor
  }

  function KeepAfter(log: seq<Record>, epoch: nat, sequence: int): seq<Record> {
    if |log| == 0 then []
    else
      var rest := KeepAfter(log[..|log| - 1], epoch, sequence);
      if AfterCursor(log[|log| - 1], epoch, sequence) then rest + [log[|log| - 1]] else rest
  }

  /** ORDER BY lease_epoch, sequence. */
  function InsertRow(sorted: seq<Record>, e: Record): seq<Record> {
    if |sorted| == 0 || !Ledger.Before(e.env, sorted[|sorted| - 1].env) then sorted + [e]
    else InsertRow(sorted[..|sorted| - 1], e) + [sorted[|sorted| - 1]]
  }

  function SortRows(rows: seq<Record>): seq<Record> {
    if |rows| == 0 then [] else InsertRow(SortRows(rows[..|rows| - 1]), rows[|rows| - 1])
  }

  function PageLimit(limit: int): (n: nat)
    ensures 1 <= n <= 1000 && (1 <= limit <= 1000 ==> n == limit) && (limit > 1000 ==> n == 1000)
  {
    if limit < 1 then 1 else if limit > 1000 then 1000 else limit
  }

  function Take(rows: seq<Record>, limit: nat): seq<Record> {
    if |rows| <= limit then rows else rows[..limit]
  }

  function ListEvents(events: seq<Record>, r: RunId, epoch: nat, sequence: int, limit: int): seq<Record> {
    Take(SortRows(KeepAfter(RunLog(events, r), epoch, sequence)), PageLimit(limit))
  }

  // ------------------------------------------------------------- properties

  ghost predicate Ascending(log: seq<Record>) {
    forall j, k :: 0 <= j < k < |log| ==> Ledger.Before(log[j].env, log[k].env)
  }

  lemma {:induction false} RunLogAscends(events: seq<Record>, r: RunId)
    requires Ledger.InCommitOrder(events)
    ensures Ascending(RunLog(events, r))
  {
    if |events| > 0 {
      var init, last := events[..|events| - 1], events[|events| - 1];
      RunLogAscends(init, r);
      if last.env.run == r {
        forall j | 0 <= j < |RunLog(init, r)| ensures Ledger.Before(RunLog(init, r)[j].env, last.env) {
          var e := RunLog(init, r)[j];
          assert e in init;
          var k :| 0 <= k < |init| && init[k] == e;
          assert events[k] == e;
        }
      }
    }
  }

  lemma {:induction false} RunLogExtends(a: seq<Record>, b: seq<Record>, r: RunId)
    requires a <= b
    ensures RunLog(a, r) <= RunLog(b, r)
    decreases |b|
  {
    if |b| > |a| {
      RunLogExtends(a, b[..|b| - 1], r);
    } else {
      assert a == b;
    }
  }

  /** Sorting an ascending log changes nothing: commit order is cursor order. */
  lemma {:induction false} SortedAlready(log: seq<Record>)
    requires Ascending(log)
    ensures SortRows(log) == log
  {
    if |log| > 0 {
      var init, last := log[..|log| - 1], log[|log| - 1];
      assert |init| > 0 ==> Ledger.Before(init[|init| - 1].env, last.env);
      assert InsertRow(init, last) == init + [last] == log;
      SortedAlready(init);
    }
  }

  /** A cursor that splits the log at n keeps exactly the rest. */
  lemma {:induction false} KeepsRest(log: seq<Record>, n: nat, epoch: nat, sequence: int)
    requires n <= |log| && forall k :: 0 <= k < |log| ==> (AfterCursor(log[k], epoch, sequence) <==> k >= n)
    ensures KeepAfter(log, epoch, sequence) == log[n..]
  {
    if |log| > 0 {
      var init := log[..|log| - 1];
      if n < |log| {
        KeepsRest(init, n, epoch, sequence);
        assert init[n..] + [log[|log| - 1]] == log[n..];
      } else {
        KeepsRest(init, n - 1, epoch, sequence);
      }
    }
  }

  function CursorEpoch(read: seq<Record>): nat { if |read| == 0 then 0 else read[|read| - 1].env.epoch }

  function CursorSequence(read: seq<Record>): int { if |read| == 0 then 0 else read[|read| - 1].env.sequence }

  function NextPage(events: seq<Record>, r: RunId, read: seq<Record>, limit: int): seq<Record> {
    ListEvents(events, r, CursorEpoch(read), CursorSequence(read), limit)
  }

  lemma RowsArePositive(s: Server, r: RunId)
    requires Ledger.Valid(s)
    ensures forall k :: 0 <= k < |RunLog(s.events, r)| ==>
      RunLog(s.events, r)[k].env.epoch >= 1 && RunLog(s.events, r)[k].env.sequence >= 1
  {}

  /** The cursor taken from the first n rows separates them from the rest. */
  lemma CursorSplits(log: seq<Record>, n: nat)
    requires Ascending(log) && n <= |log|
    requires forall k :: 0 <= k < |log| ==> log[k].env.epoch >= 1 && log[k].env.sequence >= 1
    ensures forall k :: 0 <= k < |log| ==>
      (AfterCursor(log[k], CursorEpoch(log[..n]), CursorSequence(log[..n])) <==> k >= n)
  {}

  lemma NextRows(log: seq<Record>, n: nat)
    requires Ascending(log) && n <= |log|
    requires forall k :: 0 <= k < |log| ==> log[k].env.epoch >= 1 && log[k].env.sequence >= 1
    ensures SortRows(KeepAfter(log, CursorEpoch(log[..n]), CursorSequence(log[..n]))) == log[n..]
  {
    CursorSplits(log, n);
    KeepsRest(log, n, CursorEpoch(log[..n]), CursorSequence(log[..n]));
    SortedAlready(log[n..]);
  }

  lemma FirstRows(log: seq<Record>, n: nat, limit: nat)
    requires n <= |log|
    ensures log[..n] + Take(log[n..], limit) <= log
    ensures |Take(log[n..], limit)| == limit || log[..n] + Take(log[n..], limit) == log
  {}

  /** A page is exactly the next rows of the log, as many as the limit allows. */
  lemma PageIsNext(s: Server, r: RunId, read: seq<Record>, limit: int)
    requires Ledger.Valid(s) && read <= RunLog(s.events, r)
    ensures read + NextPage(s.events, r, read, limit) <= RunLog(s.events, r)
    ensures |NextPage(s.events, r, read, limit)| == PageLimit(limit)
         || read + NextPage(s.events, r, read, limit) == RunLog(s.events, r)
  {
    var log, n := RunLog(s.events, r), |read|;
    RunLogAscends(s.events, r);
    RowsArePositive(s, r);
    assert read == log[..n];
    NextRows(log, n);
    FirstRows(log, n, PageLimit(limit));
  }

  /** A reader interleaved with transactions: before each page the Server runs some more. */
  datatype Visit = Visit(meanwhile: seq<Timed>, limit: int)

  function ServerAfter(s: Server, visits: seq<Visit>): Server {
    if |visits| == 0 then s
    else Replay(ServerAfter(s, visits[..|visits| - 1]), visits[|visits| - 1].meanwhile)
  }

  /** Everything the reader has seen, starting from the cursor (0, 0). */
  function ReadSoFar(s: Server, r: RunId, visits: seq<Visit>): seq<Record> {
    if |visits| == 0 then []
    else
      var read := ReadSoFar(s, r, visits[..|visits| - 1]);
      read + NextPage(ServerAfter(s, visits).events, r, read, visits[|visits| - 1].limit)
  }

  lemma {:induction false} VisitsKeepValid(s: Server, visits: seq<Visit>)
    requires Ledger.Valid(s)
    ensures Ledger.Valid(ServerAfter(s, visits))
  {
    if |visits| > 0 {
      VisitsKeepValid(s, visits[..|visits| - 1]);
      LedgerAlways(ServerAfter(s, visits[..|visits| - 1]), visits[|visits| - 1].meanwhile);
    }
  }

  /** Whatever commits between the pages, what was read is a prefix of the Run's
      log, in strictly ascending order: nothing is skipped and nothing repeats. */
  lemma {:induction false} PagingIsComplete(s: Server, r: RunId, visits: seq<Visit>)
    requires Ledger.Valid(s)
    ensures ReadSoFar(s, r, visits) <= RunLog(ServerAfter(s, visits).events, r)
    ensures Ascending(ReadSoFar(s, r, visits))
  {
    if |visits| > 0 {
      var init, last := visits[..|visits| - 1], visits[|visits| - 1];
      var before, after := ServerAfter(s, init), ServerAfter(s, visits);
      PagingIsComplete(s, r, init);
      VisitsKeepValid(s, init);
      LedgerAlways(before, last.meanwhile);
      RunLogExtends(before.events, after.events, r);
      PageIsNext(after, r, ReadSoFar(s, r, init), last.limit);
      RunLogAscends(after.events, r);
    }
  }

  /** A reader that comes back until the log stops growing has read all of it:
      a short page means the end. */
  lemma ShortPageMeansCaughtUp(s: Server, r: RunId, visits: seq<Visit>, limit: int)
    requires Ledger.Valid(s)
    requires |NextPage(ServerAfter(s, visits).events, r, ReadSoFar(s, r, visits), limit)| < PageLimit(limit)
    ensures ReadSoFar(s, r, visits) + NextPage(ServerAfter(s, visits).events, r, ReadSoFar(s, r, visits), limit)
         == RunLog(ServerAfter(s, visits).events, r)
  {
    PagingIsComplete(s, r, visits);
    VisitsKeepValid(s, visits);
    PageIsNext(ServerAfter(s, visits), r, ReadSoFar(s, r, visits), limit);
  }

  /** The old cursor without an epoch skips rows: a later epoch restarts at sequence 1. */
  lemma SequenceOnlyCursorSkips(events: seq<Record>, r: RunId, j: nat, sequence: nat, limit: int)
    requires Ledger.InCommitOrder(events) && j < |events| && events[j].env.run == r && 0 < events[j].env.sequence <= sequence
    ensures events[j] !in ListEvents(events, r, 0, sequence, limit)
  {
    OnlyAfter(RunLog(events, r), 0, sequence);
    SortKeepsOnly(KeepAfter(RunLog(events, r), 0, sequence), 0, sequence);
    assert forall e :: e in ListEvents(events, r, 0, sequence, limit) ==> AfterCursor(e, 0, sequence);
  }

  lemma {:induction false} OnlyAfter(log: seq<Record>, epoch: nat, sequence: int)
    ensures forall e :: e in KeepAfter(log, epoch, sequence) ==> AfterCursor(e, epoch, sequence)
  {
    if |log| > 0 { OnlyAfter(log[..|log| - 1], epoch, sequence); }
  }

  lemma {:induction false} SortKeepsOnly(rows: seq<Record>, epoch: nat, sequence: int)
    requires forall e :: e in rows ==> AfterCursor(e, epoch, sequence)
    ensures forall e :: e in SortRows(rows) ==> AfterCursor(e, epoch, sequence)
  {
    if |rows| > 0 {
      SortKeepsOnly(rows[..|rows| - 1], epoch, sequence);
      InsertKeepsOnly(SortRows(rows[..|rows| - 1]), rows[|rows| - 1], epoch, sequence);
    }
  }

  lemma {:induction false} InsertKeepsOnly(sorted: seq<Record>, row: Record, epoch: nat, sequence: int)
    requires AfterCursor(row, epoch, sequence) && forall e :: e in sorted ==> AfterCursor(e, epoch, sequence)
    ensures forall e :: e in InsertRow(sorted, row) ==> AfterCursor(e, epoch, sequence)
  {
    if |sorted| > 0 {
      InsertKeepsOnly(sorted[..|sorted| - 1], row, epoch, sequence);
    }
  }
}
