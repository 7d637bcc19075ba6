/**
  Who may work where, in the words of the columns: which Runs share a workspace,
  which of two live Runs must be read-only, and which Run a claim takes.
*/
module Workspaces {
  import opened Wrappers
  import opened RunTypes
  import opened RunProtocol
  import Ledger
  import opened Tether
  import opened Admission
  import opened History

  // ------------------------------------------------------- one workspace

  predicate StartsWith(text: string, prefix: string) {
    |text| >= |prefix| && text[..|prefix|] == prefix
  }

  /** The workspace column names a project or a dedicated workspace by itself. */
  predicate Named(workspace: string) { StartsWith(workspace, "project:") || StartsWith(workspace, "dedicated:") }

  /** A Run of a project, and one whose workspace column names that project. */
  predicate NamesProjectOf(a: RunSpec, b: RunSpec) {
    a.project != "" && b.project == "" && b.workspace == "project:" + a.project
  }

  /** The two Runs would work in the same place. */
  predicate Together(a: RunSpec, b: RunSpec) {
    (a.project != "" && a.project == b.project)
    || (a.project == "" && b.project == "" && Named(a.workspace) && a.workspace == b.workspace)
    || (a.project == "" && b.project == "" && !Named(a.workspace) && !Named(b.workspace))
    || NamesProjectOf(a, b) || NamesProjectOf(b, a)
  }

  predicate OnlyReads(spec: RunSpec) { spec.mode in {"ask", "plan"} }

  lemma PrefixedIsNamed(project: string)
    ensures Named("project:" + project) && "project:" + project != "default"
    ensures ("project:" + project)[|"project:"|..] == project
  {
    assert ("project:" + project)[..|"project:"|] == "project:";
  }

  lemma ScopeIsNamed(spec: RunSpec)
    ensures spec.project != "" ==> WorkspaceScope(spec) == "project:" + spec.project
    ensures spec.project == "" ==> WorkspaceScope(spec) == if Named(spec.workspace) then spec.workspace else "default"
    ensures !Named("default")
  {}

  lemma ClashExactly(a: RunSpec, b: RunSpec)
    ensures Clash(a, b) <==> Together(a, b) && !(OnlyReads(a) && OnlyReads(b))
  {
    ScopeIsNamed(a);
    ScopeIsNamed(b);
    PrefixedIsNamed(a.project);
    PrefixedIsNamed(b.project);
  }

  // ------------------------------------------------------------- exclusion

  /** The lease is live and held for this owner. */
  predicate LiveFor(l: Lease, owner: OwnerId, now: Time) {
    l.status == Active && l.expiresAt > now && l.grant.owner == owner
  }

  /** A live lease of the owner on a Run that keeps its workspace, which is the candidate's too,
      and one of the two may write. */
  predicate InTheWay(s: Server, l: Lease, candidate: RunSpec, now: Time) {
    LiveFor(l, candidate.owner, now) && l.grant.run < |s.runs|
    && s.runs[l.grant.run].status in {Leased, Running, WaitingUser, Paused}
    && Together(candidate, s.runs[l.grant.run].spec)
    && !(OnlyReads(candidate) && OnlyReads(s.runs[l.grant.run].spec))
  }

  predicate SomethingInTheWay(s: Server, candidate: RunSpec, now: Time) {
    exists i :: 0 <= i < |s.leases| && InTheWay(s, s.leases[i], candidate, now)
  }

  /** Exactly which live leases keep a candidate out. */
  lemma ConflictsExactly(s: Server, candidate: RunSpec, now: Time)
    ensures ScopeConflicts(s, candidate, now) <==> SomethingInTheWay(s, candidate, now)
  {
    forall i | 0 <= i < |s.leases| ensures Occupies(s, s.leases[i], candidate, now) <==> InTheWay(s, s.leases[i], candidate, now) {
      if s.leases[i].grant.run < |s.runs| { ClashExactly(candidate, s.runs[s.leases[i].grant.run].spec); }
    }
  }

  /** Over every history, whatever devices send: two live leases of one owner whose Runs
      would work in the same place are both on read-only Runs. */
  lemma SharedMeansReadOnly(automations: map<AutomationId, Automation>, h: seq<Timed>, from: Time, owner: OwnerId, i: LeaseId, j: LeaseId)
    requires Ticking(h, from) && Genuine(Initial(automations), h)
    requires var s := Replay(Initial(automations), h); i < |s.leases| && j < |s.leases| && i != j
    ensures var s := Replay(Initial(automations), h);
      LiveFor(s.leases[i], owner, EndOf(h, from)) && LiveFor(s.leases[j], owner, EndOf(h, from)) ==>
        s.leases[i].grant.run < |s.runs| && s.leases[j].grant.run < |s.runs|
        && (Together(s.runs[s.leases[i].grant.run].spec, s.runs[s.leases[j].grant.run].spec) ==>
              OnlyReads(s.runs[s.leases[i].grant.run].spec) && OnlyReads(s.runs[s.leases[j].grant.run].spec))
  {
    var s := Replay(Initial(automations), h);
    SafeAlways(Initial(automations), h, from);
    assert Ledger.LeaseLinked(s.runs, s.leases[i]) && Ledger.LeaseLinked(s.runs, s.leases[j]);
    var a, b := s.runs[s.leases[i].grant.run].spec, s.runs[s.leases[j].grant.run].spec;
    ClashExactly(a, b);
    ClashExactly(b, a);
    if i < j {
      assert !Conflict(s, s.leases[i], s.leases[j], EndOf(h, from));
    } else {
      assert !Conflict(s, s.leases[j], s.leases[i], EndOf(h, from));
    }
  }

  // ------------------------------------------------------------ the claim

  predicate Waits(runs: seq<Run>, owner: OwnerId, q: RunId) {
    q < |runs| && runs[q].spec.owner == owner && runs[q].status in {Queued, Recoverable}
  }

  /** The device may take the Run: routed to it, within its capabilities, its workspace free. */
  predicate Fits(s: Server, p: Principal, q: RunId, now: Time)
    requires q < |s.runs|
  {
    var spec := s.runs[q].spec;
    spec.target in {None, Some(p.device)} && spec.required <= p.caps.names && !SomethingInTheWay(s, spec, now)
  }

  /** The device's live leases on Runs in one of these statuses. */
  function LivesIn(s: Server, p: Principal, statuses: set<RunStatus>, now: Time): set<LeaseId> {
    set i: LeaseId | i < |s.leases| && LiveFor(s.leases[i], p.owner, now) && s.leases[i].grant.device == p.device
                     && s.leases[i].grant.run < |s.runs| && s.runs[s.leases[i].grant.run].status in statuses
  }

  /** Waiting Runs of the owner created before r. */
  function Ahead(runs: seq<Run>, owner: OwnerId, r: RunId): set<RunId> {
    set q: RunId | q < r && Waits(runs, owner, q)
  }

  /** A declared number, none and zero standing for the fallback, kept within bounds. */
  function Within(declared: Option<int>, fallback: int, low: int, high: int): int {
    Between(if declared == None || declared == Some(0) then fallback else declared.value, low, high)
  }

  function Between(n: int, low: int, high: int): int { if n < low then low else if n > high then high else n }

  /** The Run a device may take: one of the first hundred waiting, the first of them that fits. */
  ghost predicate Next(s: Server, p: Principal, r: RunId, now: Time) {
    Waits(s.runs, p.owner, r) && Fits(s, p, r, now) && |Ahead(s.runs, p.owner, r)| < 100
    && forall q :: q in Ahead(s.runs, p.owner, r) ==> q < |s.runs| && !Fits(s, p, q, now)
  }

  /** Fewer computing and fewer resident Runs than the device declares it can take. */
  predicate HasRoom(s: Server, p: Principal, now: Time) {
    var compute := Within(p.caps.maxParallel, 1, 1, 8);
    |LivesIn(s, p, {Leased, Running}, now)| < compute
    && |LivesIn(s, p, {Leased, Running, WaitingUser, Paused}, now)| < Within(p.caps.maxResident, compute * 4, compute, 32)
  }

  ghost predicate Ascending(ids: seq<RunId>) { forall j, k :: 0 <= j < k < |ids| ==> ids[j] < ids[k] }

  lemma {:induction false} CandidatesAreWaiting(runs: seq<Run>, owner: OwnerId)
    ensures var ids := Candidates(runs, owner);
      Ascending(ids) && forall q: RunId :: q in ids <==> Waits(runs, owner, q)
  {
    if |runs| > 0 {
      var init := runs[..|runs| - 1];
      CandidatesAreWaiting(init, owner);
      forall q: RunId ensures q in Candidates(runs, owner) <==> Waits(runs, owner, q) {
        assert q < |init| ==> (Waits(runs, owner, q) <==> Waits(init, owner, q));
      }
    }
  }

  /** Of an ascending list, the elements below its k-th number exactly k. */
  lemma {:induction false} BelowCounts(ids: seq<RunId>, k: nat)
    requires Ascending(ids) && k < |ids|
    ensures |set q | q in ids && q < ids[k]| == k
  {
    var below := set q | q in ids && q < ids[k];
    if k == 0 {
      assert below == {};
    } else {
      BelowCounts(ids, k - 1);
      var fewer := set q | q in ids && q < ids[k - 1];
      assert below == fewer + {ids[k - 1]} by {
        forall q | q in below ensures q in fewer + {ids[k - 1]} {
          var j :| 0 <= j < |ids| && ids[j] == q;
          assert j < k;
        }
      }
    }
  }

  lemma FitsExactly(s: Server, p: Principal, q: RunId, now: Time)
    requires q < |s.runs|
    ensures Eligible(s, p, q, now) <==> Fits(s, p, q, now)
  {
    ConflictsExactly(s, s.runs[q].spec, now);
  }

  lemma CapacitiesAreDeclared(caps: Capabilities)
    ensures ParallelCapacity(caps) == Within(caps.maxParallel, 1, 1, 8)
    ensures ResidentCapacity(caps) == Within(caps.maxResident, ParallelCapacity(caps) * 4, ParallelCapacity(caps), 32)
  {}

  lemma RoomExactly(s: Server, p: Principal, now: Time)
    ensures HasRoom(s, p, now) <==>
      |ComputingLeases(s, p, now)| < ParallelCapacity(p.caps) && |ResidentLeases(s, p, now)| < ResidentCapacity(p.caps)
  {
    assert ComputingLeases(s, p, now) == LivesIn(s, p, {Leased, Running}, now);
    assert ResidentLeases(s, p, now) == LivesIn(s, p, {Leased, Running, WaitingUser, Paused}, now);
    CapacitiesAreDeclared(p.caps);
  }

  /** The first hundred candidates. */
  function Page(ids: seq<RunId>): seq<RunId> { if |ids| <= 100 then ids else ids[..100] }

  lemma AheadCounts(runs: seq<Run>, owner: OwnerId, k: nat)
    requires k < |Candidates(runs, owner)|
    ensures |Ahead(runs, owner, Candidates(runs, owner)[k])| == k
    ensures forall q :: q in Ahead(runs, owner, Candidates(runs, owner)[k]) <==> q in Candidates(runs, owner)[..k]
  {
    var ids := Candidates(runs, owner);
    CandidatesAreWaiting(runs, owner);
    BelowCounts(ids, k);
    assert Ahead(runs, owner, ids[k]) == set q | q in ids && q < ids[k];
    forall q ensures q in Ahead(runs, owner, ids[k]) <==> q in ids[..k] {
      if q in Ahead(runs, owner, ids[k]) {
        var j :| 0 <= j < |ids| && ids[j] == q;
        assert j < k && ids[..k][j] == q;
      }
    }
  }

  /** A Run selected from the page is the next one. */
  lemma SelectedIsNext(s: Server, p: Principal, r: RunId, now: Time)
    requires FirstEligible(s, p, Page(Candidates(s.runs, p.owner)), now) == Some(r)
    ensures Next(s, p, r, now)
  {
    var ids := Candidates(s.runs, p.owner);
    var k :| 0 <= k < |Page(ids)| && Page(ids)[k] == r && Eligible(s, p, ids[k], now)
             && forall j :: 0 <= j < k ==> !Eligible(s, p, Page(ids)[j], now);
    CandidatesAreWaiting(s.runs, p.owner);
    AheadCounts(s.runs, p.owner, k);
    FitsExactly(s, p, r, now);
    forall q | q in Ahead(s.runs, p.owner, r) ensures q < |s.runs| && !Fits(s, p, q, now) {
      var j :| 0 <= j < k && ids[..k][j] == q;
      assert Page(ids)[j] == q;
      FitsExactly(s, p, q, now);
    }
  }

  lemma OneNext(s: Server, p: Principal, r: RunId, q: RunId, now: Time)
    requires Next(s, p, r, now) && Next(s, p, q, now)
    ensures r == q
  {
    assert r < q ==> r in Ahead(s.runs, p.owner, q);
    assert q < r ==> q in Ahead(s.runs, p.owner, r);
  }

  /** If there is a next Run, the page holds it. */
  lemma NextIsOnPage(s: Server, p: Principal, r: RunId, now: Time)
    requires Next(s, p, r, now)
    ensures FirstEligible(s, p, Page(Candidates(s.runs, p.owner)), now) == Some(r)
  {
    var ids := Candidates(s.runs, p.owner);
    CandidatesAreWaiting(s.runs, p.owner);
    assert r in ids;
    var k :| 0 <= k < |ids| && ids[k] == r;
    AheadCounts(s.runs, p.owner, k);
    assert Page(ids)[k] == r;
    FitsExactly(s, p, r, now);
    var found := FirstEligible(s, p, Page(ids), now);
    assert found.Some?;
    SelectedIsNext(s, p, found.value, now);
    OneNext(s, p, r, found.value, now);
  }

  /** A claim selects a Run exactly if the device has room and it is the next one. */
  lemma SelectedExactly(s: Server, p: Principal, r: RunId, now: Time)
    ensures SelectRun(s, p, now) == Some(r) <==> HasRoom(s, p, now) && Next(s, p, r, now)
  {
    RoomExactly(s, p, now);
    var found := FirstEligible(s, p, Page(Candidates(s.runs, p.owner)), now);
    if found == Some(r) { SelectedIsNext(s, p, r, now); }
    if Next(s, p, r, now) { NextIsOnPage(s, p, r, now); }
  }

  /** The Run's row and the new lease after the device took it at this moment. */
  ghost predicate Taken(s: Server, t: Server, p: Principal, r: RunId, seconds: int, now: Time) {
    r < |s.runs|
    && t == s.(runs := s.runs[r := s.runs[r].(status := Leased, leaseEpoch := s.runs[r].leaseEpoch + 1)], leases := t.leases)
    && |t.leases| == |s.leases| + 1 && t.leases[..|s.leases|] == s.leases
    && t.leases[|s.leases|] == Lease(Grant(r, p.owner, p.device, s.runs[r].leaseEpoch + 1), Active,
                                     now + Between(seconds, 5, 300), 0, None)
  }

  /** The claim as a whole: after the sweep of the owner's expired leases, the next Run is taken,
      and if there is no room or no next Run nothing is. */
  lemma ClaimExactly(s: Server, p: Principal, seconds: int, now: Time, r: RunId)
    ensures var swept, (t, i) := ExpireLeases(s, p.owner, now), LeaseRun(s, p, seconds, now);
      if HasRoom(swept, p, now) && Next(swept, p, r, now) then i == Some(|swept.leases|) && Taken(swept, t, p, r, seconds, now)
      else i.Some? ==> i.value < |t.leases| && t.leases[i.value].grant.run != r
    ensures LeaseRun(s, p, seconds, now).1.None? ==> LeaseRun(s, p, seconds, now).0 == ExpireLeases(s, p.owner, now)
  {
    SelectedExactly(ExpireLeases(s, p.owner, now), p, r, now);
  }

  /** A renewal moves the deadline of a live lease named by its own device at its Run's epoch, and of no other. */
  lemma RenewExactly(s: Server, p: Principal, r: RunId, i: LeaseId, epoch: nat, seconds: int, now: Time)
    ensures var (t, reply) := RenewLease(s, p, r, i, epoch, seconds, now);
      if i < |s.leases| && r < |s.runs| && s.leases[i].grant == Grant(r, p.owner, p.device, epoch) && s.runs[r].leaseEpoch == epoch
         && s.leases[i].status == Active && s.leases[i].expiresAt > now
      then reply == Success(s.leases[i].ack)
           && t == s.(leases := s.leases[i := s.leases[i].(expiresAt := now + Between(seconds, 5, 300))])
      else reply.Failure? && t == s
  {}
}
