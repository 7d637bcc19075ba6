/**
  The Server's database as one object: each table is a field that statements
  update in place, and a transaction that raises restores what it began with.
*/
module Database {
  import opened RunTypes

  class Database {
    var devices: map<DeviceId, Device>
    var runs: seq<Run>
    var leases: seq<Lease>
    var events: seq<Record>
    var commands: seq<Command>
    var messages: seq<Message>
    var automations: map<AutomationId, Automation>
    var fires: seq<Fire>

    /** All rows as one value. */
    function State(): Server
      reads this
    {
      Server(devices, runs, leases, events, commands, messages, automations, fires)
    }

    constructor (rows: map<AutomationId, Automation>)
      ensures State() == Server(map[], [], [], [], [], [], rows, [])
    {
      devices, runs, leases, events, commands := map[], [], [], [], [];
      messages, automations, fires := [], rows, [];
    }

    method Rollback(begun: Server)
      modifies this
      ensures State() == begun
    {
      devices, runs, leases, events := begun.devices, begun.runs, begun.leases, begun.events;
      commands, messages, automations, fires := begun.commands, begun.messages, begun.automations, begun.fires;
    }

    /** UPDATE of one lease row's status. */
    method MarkLease(i: LeaseId, status: LeaseStatus)
      requires i < |leases|
      modifies this`leases
      ensures leases == old(leases)[i := old(leases)[i].(status := status)]
    {
      leases := leases[i := leases[i].(status := status)];
    }

    /** UPDATE of one Run row. */
    method WriteRun(r: RunId, run: Run)
      requires r < |runs|
      modifies this`runs
      ensures runs == old(runs)[r := run]
    {
      runs := runs[r := run];
    }

    /** INSERT of a pending command. */
    method AddCommand(r: RunId, kind: CommandKind, version: nat)
      modifies this`commands
      ensures commands == old(commands) + [Command(r, kind, version, true)]
    {
      commands := commands + [Command(r, kind, version, true)];
    }
  }
}
