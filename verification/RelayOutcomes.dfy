/**
  What one request does to each event of the relay, in the words of its columns.
*/
module RelayOutcomes {
  import opened Wrappers
  import opened Relay

  predicate Over(status: Status) { status in {Succeeded, Failed, DeadLetter} }

  // ---------------------------------------------------------- acknowledgement

  /** The event is leased to this device under this token, and the lease has not run out. */
  predicate HeldBy(e: Event, owner: OwnerId, device: nat, token: nat, now: Time) {
    e.owner == owner && e.device == device && e.status == Leased && e.token == Some(token)
    && e.leaseUntil.Some? && e.leaseUntil.value > now
  }

  /** Only the holder of the token, in time, ends an event, as it says. */
  lemma AckExactly(s: Store, id: EventId, owner: OwnerId, device: nat, token: nat, ok: bool, now: Time)
    ensures var (t, done) := Acknowledge(s, id, owner, device, token, ok, now);
      done == (id in s.rows && HeldBy(s.rows[id], owner, device, token, now))
      && t == (if done then s.(rows := s.rows[id := s.rows[id].(status := if ok then Succeeded else Failed, token := None,
                                                               leaseUntil := None, acknowledgedAt := Some(now), updatedAt := now)])
               else s)
  {}

  // ------------------------------------------------------------------ leasing

  /** The event is leased to the device past its time. */
  predicate RanOut(e: Event, owner: OwnerId, device: nat, now: Time) {
    e.owner == owner && e.device == device && e.status == Leased && e.leaseUntil.Some? && e.leaseUntil.value <= now
  }

  /** The device may be handed the event now: it is due, or its last lease ran out with attempts left. */
  predicate Ready(e: Event, owner: OwnerId, device: nat, now: Time) {
    (e.owner == owner && e.device == device && e.status == Pending && e.availableAt <= now)
    || (RanOut(e, owner, device, now) && e.attempt < e.maxAttempts)
  }

  predicate HandedOut(e: Event, f: Event, cfg: Settings, now: Time) {
    f.token.Some? && f.status == Leased && f.attempt == e.attempt + 1 && f.leaseUntil == Some(now + cfg.leaseSeconds)
    && f == e.(status := Leased, attempt := f.attempt, token := f.token, leaseUntil := f.leaseUntil, availableAt := f.availableAt, updatedAt := now)
  }

  /** One event after a lease request: handed out if it is on the page; else back to pending or dead
      if its lease ran out; else untouched. */
  predicate AfterLease(e: Event, f: Event, handed: bool, owner: OwnerId, device: nat, cfg: Settings, now: Time) {
    if handed then Ready(e, owner, device, now) && HandedOut(e, f, cfg, now)
    else if RanOut(e, owner, device, now) && e.attempt < e.maxAttempts then
      f == e.(status := Pending, token := None, leaseUntil := None, availableAt := now, updatedAt := now)
    else if RanOut(e, owner, device, now) then f == e.(status := DeadLetter, updatedAt := now)
    else f == e
  }

  function PageLimit(limit: int): int { if limit < 1 then 1 else if limit > 25 then 25 else limit }

  lemma LapseExactly(e: Event, owner: OwnerId, device: nat, now: Time)
    ensures Deliverable(Lapse(e, owner, device, now), owner, device, now) <==> Ready(e, owner, device, now)
    ensures Lapse(e, owner, device, now).createdAt == e.createdAt
    ensures AfterLease(e, Lapse(e, owner, device, now), false, owner, device, Settings(0, 0, 0, 0, 0), now)
  {}

  /** A lease request hands out the oldest ready events, at most a page of them, and settles every lease that ran out. */
  lemma LeaseExactly(s: Store, owner: OwnerId, device: nat, limit: int, ids: seq<EventId>, token: nat, cfg: Settings, now: Time, id: EventId)
    requires IsPage(LapseAll(s.rows, owner, device, now), owner, device, limit, now, ids) && id in s.rows
    ensures var t := LeaseEvents(s, owner, device, ids, token, cfg, now);
      id in t.rows && AfterLease(s.rows[id], t.rows[id], id in ids, owner, device, cfg, now)
      && |ids| <= PageLimit(limit)
      && (Ready(s.rows[id], owner, device, now) && id !in ids ==>
            |ids| == PageLimit(limit) && forall k :: 0 <= k < |ids| ==> ids[k] in s.rows && s.rows[ids[k]].createdAt <= s.rows[id].createdAt)
  {
    var op := Lease(owner, device, limit, ids, token);
    assert Possible(s, op, now);
    LeasedRow(s, op, cfg, now, id);
    LapseExactly(s.rows[id], owner, device, now);
    if Ready(s.rows[id], owner, device, now) && id !in ids {
      forall k | 0 <= k < |ids| ensures ids[k] in s.rows && s.rows[ids[k]].createdAt <= s.rows[id].createdAt {
        LapseExactly(s.rows[ids[k]], owner, device, now);
      }
    }
  }

  // ----------------------------------------------------------------- creation

  /** A key is accepted once per service; a repeat is answered with the first event, and says if it differs. */
  lemma CreateExactly(s: Store, d: Draft, known: Option<EventId>, cfg: Settings, now: Time)
    requires Finds(s.rows, d, known)
    ensures var (t, out) := CreateEvent(s, d, known, cfg, now);
      if (d.owner, d.device) !in s.devices then out == None && t == s
      else if exists id :: id in s.rows && s.rows[id].service == d.service && s.rows[id].key == d.key then
        t == s && out.Some? && !out.value.created && out.value.id in s.rows
        && var e := s.rows[out.value.id];
           e.service == d.service && e.key == d.key
           && out.value.conflict == !(e.payloadHash == d.payloadHash && e.device == d.device && e.automation == d.automation)
      else
        out == Some(Created(s.nextId, true, false)) && t.nextId == s.nextId + 1 && t.devices == s.devices && s.nextId in t.rows
        && t.rows == s.rows[s.nextId := t.rows[s.nextId]]
        && var e := t.rows[s.nextId];
           e.status == Pending && e.attempt == 0 && e.maxAttempts == cfg.maxAttempts && e.availableAt == now && e.payload == d.payload
           && e.owner == d.owner && e.device == d.device && e.service == d.service && e.key == d.key
  {
    assert forall e: Event :: SameKey(e, d) <==> e.service == d.service && e.key == d.key;
  }

  // ------------------------------------------------------------------ cleanup

  /** When the event ended, for retention. */
  function EndedAt(e: Event): Time { if e.acknowledgedAt.Some? then e.acknowledgedAt.value else e.updatedAt }

  /** Age alone: an event ended before the retention window is gone, and of one that stays only an old payload is dropped. */
  lemma CleanupByAge(s: Store, cfg: Settings, now: Time, id: EventId)
    requires id in s.rows && Over(s.rows[id].status)
    ensures var t, e := Cleanup(s, cfg, now), s.rows[id];
      (EndedAt(e) <= now - cfg.terminalRetention ==> id !in t.rows)
      && (id in t.rows ==>
            t.rows[id] == if EndedAt(e) <= now - cfg.payloadRetention && e.tombstonedAt == None
                          then e.(payload := "{}", tombstonedAt := Some(now), updatedAt := now) else e)
  {}
}
