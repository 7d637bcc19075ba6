/**
  The relay tables in place: the lease loop over a page of events and the
  retention loop over owners, proved against the functions of `Relay`.
*/
module RelayStore {
  import opened Wrappers
  import opened Relay

  class RelayStore {
    var rows: map<EventId, Event>
    var devices: set<(OwnerId, nat)>
    var nextId: EventId

    function State(): Store
      reads this
    {
      Store(rows, devices, nextId)
    }

    constructor ()
      ensures State() == EMPTY
    {
      rows, devices, nextId := map[], {}, 0;
    }

    method CreateEvent(d: Draft, known: Option<EventId>, cfg: Settings, now: Time) returns (out: Option<Created>)
      requires Finds(rows, d, known)
      modifies this
      ensures (State(), out) == Relay.CreateEvent(old(State()), d, known, cfg, now)
    {
      if (d.owner, d.device) !in devices { return None; }
      if known.Some? {
        var row := rows[known.value];
        var conflict := row.payloadHash != d.payloadHash || row.device != d.device || row.automation != d.automation;
        return Some(Created(known.value, false, conflict));
      }
      rows := rows[nextId := NewEvent(d, cfg, now)];
      nextId := nextId + 1;
      return Some(Created(nextId - 1, true, false));
    }

    /** `ids` is the page the query returns once lapsed leases were put back. */
    method LeaseEvents(owner: OwnerId, device: nat, ids: seq<EventId>, token: nat, cfg: Settings, now: Time)
      returns (leased: seq<EventId>)
      requires forall k :: 0 <= k < |ids| ==> ids[k] in rows && Deliverable(LapseAll(rows, owner, device, now)[ids[k]], owner, device, now)
      requires forall j, k :: 0 <= j < k < |ids| ==> ids[j] != ids[k]
      modifies this`rows, this`devices
      ensures State() == Relay.LeaseEvents(old(State()), owner, device, ids, token, cfg, now)
      ensures leased == ids
    {
      devices := devices + {(owner, device)};
      rows := LapseAll(rows, owner, device, now);
      ghost var lapsed := rows;
      leased := [];
      for k := 0 to |ids|
        invariant leased == ids[..k] && rows.Keys == lapsed.Keys && devices == old(devices) + {(owner, device)}
        invariant forall j :: k <= j < |ids| ==> rows[ids[j]] == lapsed[ids[j]]
        invariant LeaseListed(rows, ids[k..], token + k, cfg, now) == LeaseListed(lapsed, ids, token, cfg, now)
      {
        assert ids[k..][0] == ids[k] && ids[k..][1..] == ids[k + 1..];
        var row := rows[ids[k]];
        if row.status.Pending? {
          rows := rows[ids[k] := row.(status := Leased, attempt := row.attempt + 1, token := Some(token + k),
                                      leaseUntil := Some(now + cfg.leaseSeconds), updatedAt := now)];
          leased := leased + [ids[k]];
        }
      }
      assert ids[|ids|..] == [] && ids[..|ids|] == ids;
    }

    method Acknowledge(id: EventId, owner: OwnerId, device: nat, token: nat, ok: bool, now: Time) returns (done: bool)
      modifies this`rows
      ensures (State(), done) == Relay.Acknowledge(old(State()), id, owner, device, token, ok, now)
    {
      if id !in rows || !Ours(rows[id], owner, device) || !rows[id].status.Leased?
         || rows[id].leaseUntil.None? || rows[id].leaseUntil.value <= now { return false; }
      if rows[id].token != Some(token) { return false; }
      var target := if ok then Succeeded else Failed;
      rows := rows[id := rows[id].(status := target, token := None, leaseUntil := None, acknowledgedAt := Some(now), updatedAt := now)];
      return true;
    }

    /** One owner after the other loses its oldest ended events beyond the cap. */
    method CleanupTerminalEvents(cfg: Settings, now: Time)
      modifies this`rows
      ensures State() == Cleanup(old(State()), cfg, now)
    {
      rows := Aged(rows, cfg, now);
      ghost var aged := rows;
      var owners := set id | id in rows && rows[id].status.IsTerminal() :: rows[id].owner;
      ghost var all := owners;
      while owners != {}
        invariant owners <= all
        invariant rows == CappedBut(aged, owners, cfg.cap)
        decreases owners
      {
        var owner :| owner in owners;
        CapOneOwner(aged, owners, owner, cfg.cap);
        rows := map id | id in rows && (rows[id].owner != owner || WithinCap(rows, id, cfg.cap)) :: rows[id];
        owners := owners - {owner};
      }
      assert rows == Capped(aged, cfg.cap);
    }
  }

  /** Capped, except for the owners still to be visited. */
  function CappedBut(rows: map<EventId, Event>, owners: set<OwnerId>, cap: nat): map<EventId, Event> {
    map id | id in rows && (rows[id].owner in owners || WithinCap(rows, id, cap)) :: rows[id]
  }

  /** Other owners' deletions do not change an owner's own order. */
  lemma CapOneOwner(aged: map<EventId, Event>, owners: set<OwnerId>, owner: OwnerId, cap: nat)
    requires owner in owners
    ensures var rows := CappedBut(aged, owners, cap);
      (map id | id in rows && (rows[id].owner != owner || WithinCap(rows, id, cap)) :: rows[id])
      == CappedBut(aged, owners - {owner}, cap)
  {
    var rows := CappedBut(aged, owners, cap);
    forall id | id in rows && rows[id].owner == owner ensures WithinCap(rows, id, cap) == WithinCap(aged, id, cap) {
      assert NewerThan(rows, owner, id) == NewerThan(aged, owner, id);
    }
  }
}
