/**
  The single-claimant lock of a Local Agent database: one row with a holder and
  a deadline, and the snapshot its holder publishes.
*/
module RunWorkerLeader {
  import opened Wrappers
  import opened RunTypes

  type HolderId = nat

  /** `snapshot` remembers who published it. */
  datatype Published = Nothing | By(author: HolderId, text: string)

  datatype Leader = Leader(holder: HolderId, expiresAt: Time, snapshot: Published)

  function Term(ttl: int): int { if ttl < 5 then 5 else ttl }

  datatype Op = Acquire(who: HolderId, ttl: int) | Publish(who: HolderId, text: string) | Release(who: HolderId)

  predicate Refused(row: Option<Leader>, h: HolderId, now: Time) {
    row.Some? && row.value.holder != h && row.value.expiresAt > now
  }

  function Apply(row: Option<Leader>, op: Op, now: Time): Option<Leader> {
    match op
    case Acquire(h, ttl) =>
      if Refused(row, h, now) then row
      else if row.Some? && row.value.holder == h then Some(row.value.(expiresAt := now + Term(ttl)))
      else Some(Leader(h, now + Term(ttl), Nothing))
    case Publish(h, text) =>
      if row.Some? && row.value.holder == h && row.value.expiresAt > now
      then Some(row.value.(snapshot := By(h, text))) else row
    case Release(h) =>
      if row.Some? && row.value.holder == h then Some(row.value.(expiresAt := 0, snapshot := Nothing)) else row
  }

  datatype Timed = Timed(op: Op, at: Time)

  function Replay(row: Option<Leader>, h: seq<Timed>): Option<Leader> {
    if |h| == 0 then row else Apply(Replay(row, h[..|h| - 1]), h[|h| - 1].op, h[|h| - 1].at)
  }

  /** From a successful acquisition until its deadline, whatever other holders do, and
      as long as the holder neither renews nor lets go, every other attempt is refused. */
  lemma {:induction false} HolderKeepsLock(row: Option<Leader>, a: HolderId, ttl: int, t: Time, h: seq<Timed>, b: HolderId, at: Time)
    requires !Refused(row, a, t) && a != b && t <= at < t + Term(ttl)
    requires forall k :: 0 <= k < |h| ==> t <= h[k].at < t + Term(ttl) && (h[k].op.who == a ==> h[k].op.Publish?)
    ensures var now := Replay(Apply(row, Acquire(a, ttl), t), h);
      Refused(now, b, at) && now.value.holder == a && now.value.expiresAt == t + Term(ttl)
  {
    if |h| > 0 { HolderKeepsLock(row, a, ttl, t, h[..|h| - 1], b, at); }
  }

  /** The published snapshot always is the current holder's own. */
  lemma {:induction false} SnapshotIsHolders(h: seq<Timed>)
    ensures var now := Replay(None, h);
      now.Some? && now.value.snapshot.By? ==> now.value.snapshot.author == now.value.holder
  {
    if |h| > 0 { SnapshotIsHolders(h[..|h| - 1]); }
  }

  /** A holder gets the lock if nobody else's deadline is still ahead; it then has at least five seconds,
      and keeps its snapshot only if the lock was its own. */
  lemma AcquireExactly(row: Option<Leader>, h: HolderId, ttl: int, now: Time)
    ensures var after := Apply(row, Acquire(h, ttl), now);
      if row.Some? && row.value.holder != h && row.value.expiresAt > now then after == row && Refused(row, h, now)
      else
        !Refused(row, h, now) && after.Some? && after.value.holder == h
        && after.value.expiresAt == now + (if ttl < 5 then 5 else ttl)
        && after.value.snapshot == if row.Some? && row.value.holder == h then row.value.snapshot else Nothing
  {}

  /** A holder that lets go is in nobody's way. */
  lemma ReleasedIsFree(row: Option<Leader>, h: HolderId, b: HolderId, now: Time)
    requires row.Some? && row.value.holder == h && now >= 0
    ensures !Refused(Apply(row, Release(h), now), b, now)
  {}

  class LeaderRow {
    var row: Option<Leader>

    constructor ()
      ensures row == None
    {
      row := None;
    }

    method AcquireRunWorkerLeader(h: HolderId, ttl: int, now: Time) returns (held: bool)
      modifies this
      ensures row == Apply(old(row), Acquire(h, ttl), now) && held == !Refused(old(row), h, now)
    {
      if row.Some? && row.value.holder != h && row.value.expiresAt > now { return false; }
      if row.Some? && row.value.holder == h {
        row := Some(row.value.(expiresAt := now + Term(ttl)));
      } else {
        row := Some(Leader(h, now + Term(ttl), Nothing));
      }
      return true;
    }

    method PublishRunWorkerSnapshot(h: HolderId, text: string, now: Time) returns (updated: bool)
      modifies this
      ensures row == Apply(old(row), Publish(h, text), now)
      ensures updated <==> row.Some? && row.value.holder == h && row.value.expiresAt > now
    {
      updated := row.Some? && row.value.holder == h && row.value.expiresAt > now;
      if updated { row := Some(row.value.(snapshot := By(h, text))); }
    }

    method ReleaseRunWorkerLeader(h: HolderId)
      modifies this
      ensures row == Apply(old(row), Release(h), 0)
    {
      if row.Some? && row.value.holder == h { row := Some(row.value.(expiresAt := 0, snapshot := Nothing)); }
    }
  }
}
