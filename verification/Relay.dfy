/**
  The relay's delivery machine as functions: idempotent creation, leases with a
  bounded number of attempts, acknowledgement, and bounded retention.
*/
module Relay {
  import opened Wrappers

  type Time = int
  type EventId = nat
  type OwnerId = nat

  datatype Status = Pending | Leased | Succeeded | Failed | DeadLetter {
    predicate IsTerminal() { Succeeded? || Failed? || DeadLetter? }
  }

  datatype Event = Event(
    service: nat, owner: OwnerId, device: nat, automation: nat, key: string, payloadHash: nat,
    status: Status, attempt: nat, maxAttempts: nat, availableAt: Time, token: Option<nat>, leaseUntil: Option<Time>,
    createdAt: Time, updatedAt: Time, acknowledgedAt: Option<Time>, tombstonedAt: Option<Time>, payload: string)

  /** Deployment settings, at least their enforced minima. */
  datatype Settings = Settings(maxAttempts: nat, leaseSeconds: int, payloadRetention: int, terminalRetention: int, cap: nat) {
    predicate Ok() {
      maxAttempts >= 1 && leaseSeconds >= 10 && payloadRetention >= 60 && terminalRetention >= payloadRetention && cap >= 100
    }
  }

  /** The table, the device registry, and the ids handed out so far. */
  datatype Store = Store(rows: map<EventId, Event>, devices: set<(OwnerId, nat)>, nextId: EventId)

  // ---------------------------------------------------------------- creation

  datatype Draft = Draft(service: nat, owner: OwnerId, device: nat, automation: nat, key: string, payloadHash: nat, payload: string)

  datatype Created = Created(id: EventId, created: bool, conflict: bool)

  predicate SameKey(e: Event, d: Draft) { e.service == d.service && e.key == d.key }

  predicate Differs(e: Event, d: Draft) {
    e.payloadHash != d.payloadHash || e.device != d.device || e.automation != d.automation
  }

  function NewEvent(d: Draft, cfg: Settings, now: Time): Event {
    Event(d.service, d.owner, d.device, d.automation, d.key, d.payloadHash, Pending, 0, cfg.maxAttempts, now, None, None,
          now, now, None, None, d.payload)
  }

  /** The row a repeated key refers to; keys are unique per service. */
  ghost predicate KeysUnique(rows: map<EventId, Event>) {
    forall i, j :: i in rows && j in rows && rows[i].service == rows[j].service && rows[i].key == rows[j].key ==> i == j
  }

  function CreateEvent(s: Store, d: Draft, known: Option<EventId>, cfg: Settings, now: Time): (Store, Option<Created>) {
    if (d.owner, d.device) !in s.devices then (s, None)
    else
      match known
      case Some(id) => (s, Some(Created(id, false, id in s.rows && Differs(s.rows[id], d))))
      case None => (s.(rows := s.rows[s.nextId := NewEvent(d, cfg, now)], nextId := s.nextId + 1), Some(Created(s.nextId, true, false)))
  }

  /** What the unique index finds for this service and key. */
  predicate Finds(rows: map<EventId, Event>, d: Draft, known: Option<EventId>) {
    match known
    case Some(id) => id in rows && SameKey(rows[id], d)
    case None => forall id :: id in rows ==> !SameKey(rows[id], d)
  }

  // ----------------------------------------------------------------- leasing

  predicate Ours(e: Event, owner: OwnerId, device: nat) { e.owner == owner && e.device == device }

  predicate LapsedLease(e: Event, owner: OwnerId, device: nat, now: Time) {
    Ours(e, owner, device) && e.status.Leased? && e.leaseUntil.Some? && e.leaseUntil.value <= now
  }

  /** A lapsed lease goes back to pending while attempts are left, else it dies. */
  function Lapse(e: Event, owner: OwnerId, device: nat, now: Time): Event {
    if !LapsedLease(e, owner, device, now) then e
    else if e.attempt < e.maxAttempts then
      e.(status := Pending, token := None, leaseUntil := None, availableAt := now, updatedAt := now)
    else e.(status := DeadLetter, updatedAt := now)
  }

  function LapseAll(rows: map<EventId, Event>, owner: OwnerId, device: nat, now: Time): map<EventId, Event> {
    map id | id in rows :: Lapse(rows[id], owner, device, now)
  }

  predicate Deliverable(e: Event, owner: OwnerId, device: nat, now: Time) {
    Ours(e, owner, device) && e.status.Pending? && e.availableAt <= now
  }

  function PageSize(limit: int): (n: nat)
    ensures 1 <= n <= 25 && (1 <= limit <= 25 ==> n == limit) && (limit > 25 ==> n == 25)
  {
    if limit < 1 then 1 else if limit > 25 then 25 else limit
  }

  /** The oldest deliverable rows, at most a page of them, none of them twice. */
  ghost predicate IsPage(rows: map<EventId, Event>, owner: OwnerId, device: nat, limit: int, now: Time, ids: seq<EventId>) {
    && |ids| <= PageSize(limit)
    && (forall k :: 0 <= k < |ids| ==> ids[k] in rows && Deliverable(rows[ids[k]], owner, device, now))
    && (forall j, k :: 0 <= j < k < |ids| ==> ids[j] != ids[k])
    && (forall id :: id in rows && Deliverable(rows[id], owner, device, now) && id !in ids ==>
          |ids| == PageSize(limit) && forall k :: 0 <= k < |ids| ==> rows[ids[k]].createdAt <= rows[id].createdAt)
  }

  function LeaseOne(e: Event, token: nat, cfg: Settings, now: Time): Event {
    if !e.status.Pending? then e
    else e.(status := Leased, attempt := e.attempt + 1, token := Some(token), leaseUntil := Some(now + cfg.leaseSeconds), updatedAt := now)
  }

  /** Leases the listed rows in order, with fresh tokens. */
  function LeaseListed(rows: map<EventId, Event>, ids: seq<EventId>, token: nat, cfg: Settings, now: Time): map<EventId, Event>
    decreases |ids|
  {
    if |ids| == 0 then rows
    else
      var next := if ids[0] in rows then rows[ids[0] := LeaseOne(rows[ids[0]], token, cfg, now)] else rows;
      LeaseListed(next, ids[1..], token + 1, cfg, now)
  }

  function LeaseEvents(s: Store, owner: OwnerId, device: nat, ids: seq<EventId>, token: nat, cfg: Settings, now: Time): Store {
    s.(rows := LeaseListed(LapseAll(s.rows, owner, device, now), ids, token, cfg, now), devices := s.devices + {(owner, device)})
  }

  // ---------------------------------------------------------- acknowledgement

  function Acknowledge(s: Store, id: EventId, owner: OwnerId, device: nat, token: nat, ok: bool, now: Time): (Store, bool) {
    if id in s.rows && Ours(s.rows[id], owner, device) && s.rows[id].status.Leased?
       && s.rows[id].leaseUntil.Some? && s.rows[id].leaseUntil.value > now && s.rows[id].token == Some(token)
    then
      (s.(rows := s.rows[id := s.rows[id].(status := if ok then Succeeded else Failed, token := None, leaseUntil := None,
                                           acknowledgedAt := Some(now), updatedAt := now)]), true)
    else (s, false)
  }

  // ----------------------------------------------------------------- cleanup

  /** The retention clock of a row. */
  function Stamp(e: Event): Time { if e.acknowledgedAt.Some? then e.acknowledgedAt.value else e.updatedAt }

  function Tombstone(e: Event, cutoff: Time, now: Time): Event {
    if e.status.IsTerminal() && Stamp(e) <= cutoff && e.tombstonedAt.None?
    then e.(payload := "{}", tombstonedAt := Some(now), updatedAt := now) else e
  }

  /** The rows after old ones were deleted and old payloads dropped. */
  function Aged(rows: map<EventId, Event>, cfg: Settings, now: Time): map<EventId, Event> {
    map id | id in rows && !(rows[id].status.IsTerminal() && Stamp(rows[id]) <= now - cfg.terminalRetention)
      :: Tombstone(rows[id], now - cfg.payloadRetention, now)
  }

  /** Terminal rows of an owner. */
  function Terminals(rows: map<EventId, Event>, owner: OwnerId): set<EventId> {
    set id | id in rows && rows[id].owner == owner && rows[id].status.IsTerminal()
  }

  /** i comes before j in the retention order: newer stamp first, then larger id. */
  predicate Newer(rows: map<EventId, Event>, i: EventId, j: EventId) {
    i in rows && j in rows && (Stamp(rows[i]) > Stamp(rows[j]) || (Stamp(rows[i]) == Stamp(rows[j]) && i > j))
  }

  function NewerThan(rows: map<EventId, Event>, owner: OwnerId, j: EventId): set<EventId> {
    set i | i in Terminals(rows, owner) && Newer(rows, i, j)
  }

  /** The row is one of the `cap` newest terminal rows of its owner, or not terminal. */
  predicate WithinCap(rows: map<EventId, Event>, id: EventId, cap: nat)
    requires id in rows
  {
    rows[id].status.IsTerminal() ==> |NewerThan(rows, rows[id].owner, id)| < cap
  }

  function Capped(rows: map<EventId, Event>, cap: nat): map<EventId, Event> {
    map id | id in rows && WithinCap(rows, id, cap) :: rows[id]
  }

  function Cleanup(s: Store, cfg: Settings, now: Time): Store {
    s.(rows := Capped(Aged(s.rows, cfg, now), cfg.cap))
  }

  // ------------------------------------------------------------------- steps

  datatype Op =
    | Register(owner: OwnerId, device: nat)
    | Create(draft: Draft, known: Option<EventId>)
    | Lease(owner: OwnerId, device: nat, limit: int, ids: seq<EventId>, token: nat)
    | Ack(id: EventId, owner: OwnerId, device: nat, token: nat, ok: bool)
    | Clean

  datatype Timed = Timed(op: Op, at: Time)

  ghost predicate Possible(s: Store, op: Op, now: Time) {
    match op
    case Create(d, known) => Finds(s.rows, d, known)
    case Lease(owner, device, limit, ids, _) => IsPage(LapseAll(s.rows, owner, device, now), owner, device, limit, now, ids)
    case _ => true
  }

  function Perform(s: Store, op: Op, cfg: Settings, now: Time): Store {
    match op
    case Register(owner, device) => s.(devices := s.devices + {(owner, device)})
    case Create(d, known) => CreateEvent(s, d, known, cfg, now).0
    case Lease(owner, device, _, ids, token) => LeaseEvents(s, owner, device, ids, token, cfg, now)
    case Ack(id, owner, device, token, ok) => Acknowledge(s, id, owner, device, token, ok, now).0
    case Clean => Cleanup(s, cfg, now)
  }

  ghost function Play(s: Store, h: seq<Timed>, cfg: Settings): Option<Store> {
    if |h| == 0 then Some(s)
    else
      match Play(s, h[..|h| - 1], cfg)
      case None => None
      case Some(t) =>
        if Possible(t, h[|h| - 1].op, h[|h| - 1].at) then Some(Perform(t, h[|h| - 1].op, cfg, h[|h| - 1].at)) else None
  }

  /** How often an event was handed out. */
  function Handed(h: seq<Timed>, id: EventId): nat {
    if |h| == 0 then 0
    else
      var last := h[|h| - 1].op;
      Handed(h[..|h| - 1], id) + if last.Lease? && id in last.ids then 1 else 0
  }

  const EMPTY := Store(map[], {}, 0)

  // --------------------------------------------------------------- invariant

  ghost predicate EventOk(e: Event) {
    e.attempt <= e.maxAttempts && (e.status.Pending? ==> e.attempt < e.maxAttempts)
    && (e.status.Leased? ==> e.leaseUntil.Some? && e.token.Some?)
    && (e.tombstonedAt.Some? ==> e.status.IsTerminal())
  }

  ghost predicate Sound(s: Store, cfg: Settings) {
    (forall id :: id in s.rows ==> EventOk(s.rows[id]) && id < s.nextId && s.rows[id].maxAttempts == cfg.maxAttempts)
    && KeysUnique(s.rows)
  }

  lemma {:induction false} LeaseListedIs(rows: map<EventId, Event>, ids: seq<EventId>, token: nat, cfg: Settings, now: Time)
    requires forall k :: 0 <= k < |ids| ==> ids[k] in rows && rows[ids[k]].status.Pending?
    requires forall j, k :: 0 <= j < k < |ids| ==> ids[j] != ids[k]
    ensures var t := LeaseListed(rows, ids, token, cfg, now);
      t.Keys == rows.Keys && (forall id :: id in rows && id !in ids ==> t[id] == rows[id])
      && forall k :: 0 <= k < |ids| ==> t[ids[k]] == LeaseOne(rows[ids[k]], token + k, cfg, now)
    decreases |ids|
  {
    if |ids| > 0 {
      var next := rows[ids[0] := LeaseOne(rows[ids[0]], token, cfg, now)];
      forall k | 0 <= k < |ids[1..]| ensures ids[1..][k] in next && next[ids[1..][k]].status.Pending? {
        assert ids[1..][k] == ids[k + 1];
      }
      LeaseListedIs(next, ids[1..], token + 1, cfg, now);
      forall k | 0 <= k < |ids|
        ensures LeaseListed(rows, ids, token, cfg, now)[ids[k]] == LeaseOne(rows[ids[k]], token + k, cfg, now)
      {
        if k > 0 { assert ids[1..][k - 1] == ids[k]; } else { assert ids[0] !in ids[1..]; }
      }
    }
  }

  /** What one operation does to one row. */
  ghost predicate RowStep(s: Store, op: Op, now: Time, t: Store, id: EventId)
    requires id in s.rows && id in t.rows
  {
    var e, f := s.rows[id], t.rows[id];
    && f.service == e.service && f.key == e.key && f.owner == e.owner && f.maxAttempts == e.maxAttempts
    && f.attempt == e.attempt + (if op.Lease? && id in op.ids then 1 else 0)
    && (e.status.IsTerminal() ==> f.status == e.status && f.acknowledgedAt == e.acknowledgedAt
                                  && (f == e || (op.Clean? && Tombstoned(e, f, now))))
  }

  ghost predicate Tombstoned(e: Event, f: Event, now: Time) {
    e.tombstonedAt.None? && f == e.(payload := "{}", tombstonedAt := Some(now), updatedAt := now)
  }

  lemma LapseKeeps(e: Event, owner: OwnerId, device: nat, now: Time)
    requires EventOk(e)
    ensures var f := Lapse(e, owner, device, now);
      EventOk(f) && f.attempt == e.attempt && f.maxAttempts == e.maxAttempts && (e.status.IsTerminal() ==> f == e)
      && f.service == e.service && f.key == e.key && f.owner == e.owner
  {}

  /** The row after a lease request: lapsed if its lease had, and handed out if it is on the page. */
  lemma LeasedRow(s: Store, op: Op, cfg: Settings, now: Time, id: EventId)
    requires op.Lease? && Possible(s, op, now) && id in s.rows
    ensures id in Perform(s, op, cfg, now).rows
    ensures var e, f := Lapse(s.rows[id], op.owner, op.device, now), Perform(s, op, cfg, now).rows[id];
      if id in op.ids then e.status.Pending? && exists token :: f == LeaseOne(e, token, cfg, now) else f == e
  {
    var lapsed := LapseAll(s.rows, op.owner, op.device, now);
    LeaseListedIs(lapsed, op.ids, op.token, cfg, now);
    if id in op.ids {
      var k :| 0 <= k < |op.ids| && op.ids[k] == id;
      assert LeaseListed(lapsed, op.ids, op.token, cfg, now)[id] == LeaseOne(lapsed[id], op.token + k, cfg, now);
    }
  }

  lemma LeaseSteps(s: Store, op: Op, cfg: Settings, now: Time, id: EventId)
    requires Sound(s, cfg) && op.Lease? && Possible(s, op, now) && id in s.rows
    ensures id in Perform(s, op, cfg, now).rows
    ensures EventOk(Perform(s, op, cfg, now).rows[id]) && RowStep(s, op, now, Perform(s, op, cfg, now), id)
  {
    LeasedRow(s, op, cfg, now, id);
    LapseKeeps(s.rows[id], op.owner, op.device, now);
  }

  lemma OthersStep(s: Store, op: Op, cfg: Settings, now: Time, id: EventId)
    requires Sound(s, cfg) && !op.Lease? && Possible(s, op, now) && id in s.rows && id in Perform(s, op, cfg, now).rows
    ensures var t := Perform(s, op, cfg, now);
      EventOk(t.rows[id]) && RowStep(s, op, now, t, id)
  {}

  /** New rows have never been seen; rows that stay move by one step. */
  lemma StepRows(s: Store, op: Op, cfg: Settings, now: Time)
    requires Sound(s, cfg) && cfg.Ok() && Possible(s, op, now)
    ensures var t := Perform(s, op, cfg, now);
      s.nextId <= t.nextId && Sound(t, cfg)
      && (forall id :: id in t.rows && id !in s.rows ==> id >= s.nextId && t.rows[id].attempt == 0)
      && (forall id :: id in s.rows && id in t.rows ==> RowStep(s, op, now, t, id))
  {
    var t := Perform(s, op, cfg, now);
    forall id | id in s.rows && id in t.rows ensures EventOk(t.rows[id]) && RowStep(s, op, now, t, id) {
      if op.Lease? { LeaseSteps(s, op, cfg, now, id); } else { OthersStep(s, op, cfg, now, id); }
    }
    if op.Lease? {
      LeaseListedIs(LapseAll(s.rows, op.owner, op.device, now), op.ids, op.token, cfg, now);
    }
  }

  /** An event is handed out at most `max_attempts` times over any history. */
  lemma {:induction false} HandedAtMost(h: seq<Timed>, cfg: Settings, id: EventId)
    requires cfg.Ok() && Play(EMPTY, h, cfg).Some?
    ensures var s := Play(EMPTY, h, cfg).value;
      Sound(s, cfg) && Handed(h, id) <= cfg.maxAttempts
      && (id in s.rows ==> Handed(h, id) == s.rows[id].attempt)
      && (id >= s.nextId ==> Handed(h, id) == 0)
  {
    if |h| > 0 {
      var init, last := h[..|h| - 1], h[|h| - 1];
      HandedAtMost(init, cfg, id);
      var s := Play(EMPTY, init, cfg).value;
      StepRows(s, last.op, cfg, last.at);
      if last.op.Lease? && id in last.op.ids {
        var lapsed := LapseAll(s.rows, last.op.owner, last.op.device, last.at);
        assert id in lapsed;
        LeaseSteps(s, last.op, cfg, last.at, id);
      }
    }
  }

  /** Ended events stay as they ended; the retention clock of an acknowledged event never
      moves, and that of a dead letter is restarted at most once, by its tombstone. */
  lemma {:induction false} EndedStayEnded(s: Store, h: seq<Timed>, cfg: Settings, id: EventId)
    requires Sound(s, cfg) && cfg.Ok() && Play(s, h, cfg).Some?
    requires id in s.rows && s.rows[id].status.IsTerminal()
    ensures var t := Play(s, h, cfg).value;
      Sound(t, cfg) && s.nextId <= t.nextId
      && (id in t.rows ==>
            t.rows[id].status == s.rows[id].status
            && (s.rows[id].tombstonedAt.Some? ==> t.rows[id] == s.rows[id])
            && (s.rows[id].acknowledgedAt.Some? ==> Stamp(t.rows[id]) == Stamp(s.rows[id]))
            && (t.rows[id] == s.rows[id] || exists at :: Tombstoned(s.rows[id], t.rows[id], at)))
  {
    if |h| > 0 {
      var init, last := h[..|h| - 1], h[|h| - 1];
      EndedStayEnded(s, init, cfg, id);
      var mid, t := Play(s, init, cfg).value, Play(s, h, cfg).value;
      StepRows(mid, last.op, cfg, last.at);
      if id in t.rows {
        assert id in mid.rows;
        assert RowStep(mid, last.op, last.at, t, id);
        if t.rows[id] != mid.rows[id] { assert Tombstoned(s.rows[id], t.rows[id], last.at); }
      }
    }
  }

  // --------------------------------------------------------------- retention

  /** Cleanup never touches an event still to be delivered. */
  lemma CleanupSparesLive(s: Store, cfg: Settings, now: Time, id: EventId)
    requires id in s.rows && !s.rows[id].status.IsTerminal()
    ensures id in Cleanup(s, cfg, now).rows && Cleanup(s, cfg, now).rows[id] == s.rows[id]
  {}

  /** The oldest of a non-empty set of rows. */
  lemma {:induction false} Oldest(rows: map<EventId, Event>, ids: set<EventId>) returns (m: EventId)
    requires ids != {} && forall i :: i in ids ==> i in rows
    ensures m in ids && forall i :: i in ids && i != m ==> Newer(rows, i, m)
    decreases ids
  {
    m :| m in ids;
    if ids != {m} {
      var first := m;
      var rest := Oldest(rows, ids - {first});
      forall i | i in ids && i != first && i != rest && !Newer(rows, first, rest) ensures Newer(rows, i, first) {
        assert i in ids - {first} && Newer(rows, i, rest);
      }
      if Newer(rows, first, rest) { m := rest; }
    }
  }

  /** After cleanup an owner has at most `cap` ended events left. */
  lemma CleanupCaps(s: Store, cfg: Settings, now: Time, owner: OwnerId)
    requires cfg.Ok()
    ensures |Terminals(Cleanup(s, cfg, now).rows, owner)| <= cfg.cap
  {
    var aged := Aged(s.rows, cfg, now);
    var kept := Terminals(Capped(aged, cfg.cap), owner);
    if kept != {} {
      var m := Oldest(aged, kept);
      assert WithinCap(aged, m, cfg.cap);
      forall i | i in kept - {m} ensures i in NewerThan(aged, owner, m) {}
      SubsetSize(kept - {m}, NewerThan(aged, owner, m));
    }
  }

  lemma {:induction false} SubsetSize(a: set<EventId>, b: set<EventId>)
    requires a <= b
    ensures |a| <= |b|
    decreases a
  {
    if a != {} {
      var x :| x in a;
      SubsetSize(a - {x}, b - {x});
    }
  }

  /** What the cap removes is older than everything it keeps of the same owner. */
  lemma CleanupKeepsNewest(s: Store, cfg: Settings, now: Time, kept: EventId, gone: EventId)
    requires var aged, t := Aged(s.rows, cfg, now), Cleanup(s, cfg, now);
      kept in t.rows && gone in aged && gone !in t.rows && t.rows[kept].status.IsTerminal()
      && t.rows[kept].owner == aged[gone].owner
    ensures Newer(Aged(s.rows, cfg, now), kept, gone)
  {
    var aged := Aged(s.rows, cfg, now);
    if !Newer(aged, kept, gone) {
      forall i | i in NewerThan(aged, aged[gone].owner, gone) ensures i in NewerThan(aged, aged[kept].owner, kept) {}
      SubsetSize(NewerThan(aged, aged[gone].owner, gone), NewerThan(aged, aged[kept].owner, kept));
    }
  }
}
