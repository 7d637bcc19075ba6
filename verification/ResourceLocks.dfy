/**
  Ordered acquisition of shared resources by concurrent Runs: first-come queues
  per key, sorted keys, release on every way out.
*/
module ResourceLocks {
  import opened Wrappers

  // -------------------------------------------------------------------- keys

  datatype Context = Context(run: string, owner: string, workspace: string)

  predicate EndsWith(text: string, suffix: string) {
    |text| >= |suffix| && text[|text| - |suffix|..] == suffix
  }

  predicate Writes(permissions: set<string>) {
    exists p :: p in permissions && (EndsWith(p, ".write") || EndsWith(p, ".manage"))
  }

  function WorkspaceKey(c: Context): string { "workspace:" + c.owner + ":" + c.workspace }
  function BrowserKey(c: Context): string { "browser-profile:" + c.owner }
  const HOST_KEY := "host:unrestricted"

  /** The keys a call with these permissions must hold. */
  function KeySet(c: Context, permissions: set<string>): set<string> {
    (if Writes(permissions) then {WorkspaceKey(c)} else {})
    + (if "browser.state" in permissions then {BrowserKey(c)} else {})
    + (if "host.unrestricted" in permissions then {HOST_KEY} else {})
  }

  /** The same keys in the order they are locked in. */
  function ResourceKeys(c: Context, permissions: set<string>): seq<string> {
    (if "browser.state" in permissions then [BrowserKey(c)] else [])
    + (if "host.unrestricted" in permissions then [HOST_KEY] else [])
    + (if Writes(permissions) then [WorkspaceKey(c)] else [])
  }

  /** Code-point order of strings. */
  predicate Below(a: string, b: string) {
    |b| > 0 && (|a| == 0 || a[0] < b[0] || (a[0] == b[0] && Below(a[1..], b[1..])))
  }

  predicate Sorted(keys: seq<string>) {
    forall j, k :: 0 <= j < k < |keys| ==> Below(keys[j], keys[k])
  }

  const LAST := 'w' as int

  function Rank(key: string): int { if |key| == 0 then 0 else key[0] as int }

  /** Each key belongs to a later class of resource than the one before it. */
  predicate Ranked(keys: seq<string>) {
    (forall k :: 0 <= k < |keys| ==> Rank(keys[k]) <= LAST)
    && forall j, k :: 0 <= j < k < |keys| ==> Rank(keys[j]) < Rank(keys[k])
  }

  /** The locking order is the sorted order of exactly the required keys. */
  lemma KeysAreSorted(c: Context, permissions: set<string>)
    ensures var keys := ResourceKeys(c, permissions);
      Sorted(keys) && Ranked(keys) && forall k :: k in keys <==> k in KeySet(c, permissions)
  {}

  // ------------------------------------------------------------------- steps

  datatype Phase = Stepping | Queued | Done

  /** One Run inside `acquire`: the keys it wants in order, and how many it holds. */
  datatype Acquirer = Acquirer(keys: seq<string>, got: nat, phase: Phase) {
    predicate Inside() { phase.Stepping? && got >= |keys| }
    predicate Trying() { phase.Stepping? && got < |keys| }
  }

  datatype Lock = Lock(holder: Option<nat>, queue: seq<nat>)

  /** `waiting` and `holding` are the tables shown to the user. */
  datatype Arbiter = Arbiter(
    runs: seq<Acquirer>, locks: map<string, Lock>, waiting: map<nat, set<string>>, holding: map<nat, set<string>>)

  function LockOf(locks: map<string, Lock>, key: string): Lock {
    if key in locks then locks[key] else Lock(None, [])
  }

  function SetState(target: map<nat, set<string>>, r: nat, key: string, present: bool): map<nat, set<string>> {
    var values := if r in target then target[r] else {};
    if present then target[r := values + {key}]
    else if values - {key} == {} then target - {r}
    else target[r := values - {key}]
  }

  /** The lock is free and nobody is ahead: it is taken at once. */
  function Take(s: Arbiter, r: nat, key: string, queue: seq<nat>): Arbiter
    requires r < |s.runs|
  {
    s.(locks := s.locks[key := Lock(Some(r), queue)],
       waiting := SetState(s.waiting, r, key, false), holding := SetState(s.holding, r, key, true),
       runs := s.runs[r := s.runs[r].(got := s.runs[r].got + 1, phase := Stepping)])
  }

  function Try(s: Arbiter, r: nat): Arbiter
    requires r < |s.runs| && s.runs[r].Trying()
  {
    var key := s.runs[r].keys[s.runs[r].got];
    var l := LockOf(s.locks, key);
    if l.holder.None? && l.queue == [] then Take(s, r, key, [])
    else
      s.(locks := s.locks[key := Lock(l.holder, l.queue + [r])],
         waiting := if l.holder.Some? then SetState(s.waiting, r, key, true) else s.waiting,
         runs := s.runs[r := s.runs[r].(phase := Queued)])
  }

  predicate CanWake(s: Arbiter, r: nat)
    requires r < |s.runs|
  {
    var a := s.runs[r];
    a.phase.Queued? && a.got < |a.keys|
    && var l := LockOf(s.locks, a.keys[a.got]); l.holder.None? && |l.queue| > 0 && l.queue[0] == r
  }

  function Wake(s: Arbiter, r: nat): Arbiter
    requires r < |s.runs| && CanWake(s, r)
  {
    var key := s.runs[r].keys[s.runs[r].got];
    Take(s, r, key, LockOf(s.locks, key).queue[1..])
  }

  /** Releases the first n acquired keys, last one first. */
  function ReleaseLocks(locks: map<string, Lock>, keys: seq<string>, n: nat): map<string, Lock>
    requires n <= |keys|
    decreases n
  {
    if n == 0 then locks
    else ReleaseLocks(locks[keys[n - 1] := Lock(None, LockOf(locks, keys[n - 1]).queue)], keys, n - 1)
  }

  function ReleaseShown(holding: map<nat, set<string>>, r: nat, keys: seq<string>, n: nat): map<nat, set<string>>
    requires n <= |keys|
    decreases n
  {
    if n == 0 then holding else ReleaseShown(SetState(holding, r, keys[n - 1], false), r, keys, n - 1)
  }

  function Finish(s: Arbiter, r: nat): Arbiter
    requires r < |s.runs| && s.runs[r].got <= |s.runs[r].keys|
  {
    var a := s.runs[r];
    s.(locks := ReleaseLocks(s.locks, a.keys, a.got), holding := ReleaseShown(s.holding, r, a.keys, a.got),
       runs := s.runs[r := a.(got := 0, phase := Done)])
  }

  function Without(queue: seq<nat>, r: nat): (rest: seq<nat>)
    ensures forall q :: q in rest <==> q in queue && q != r
  {
    if |queue| == 0 then []
    else
      var rest := Without(queue[..|queue| - 1], r);
      if queue[|queue| - 1] == r then rest else rest + [queue[|queue| - 1]]
  }

  /** A cancelled wait leaves the queue, then everything acquired is released. */
  function Cancel(s: Arbiter, r: nat): Arbiter
    requires r < |s.runs| && s.runs[r].phase.Queued? && s.runs[r].got < |s.runs[r].keys|
  {
    var key := s.runs[r].keys[s.runs[r].got];
    var l := LockOf(s.locks, key);
    Finish(s.(locks := s.locks[key := Lock(l.holder, Without(l.queue, r))],
              waiting := SetState(s.waiting, r, key, false)), r)
  }

  datatype Move = TryNext(run: nat) | WakeUp(run: nat) | Leave(run: nat) | Abandon(run: nat)

  predicate Enabled(s: Arbiter, m: Move) {
    m.run < |s.runs| && match m
      case TryNext(r) => s.runs[r].Trying()
      case WakeUp(r) => CanWake(s, r)
      case Leave(r) => s.runs[r].Inside() && s.runs[r].got <= |s.runs[r].keys|
      case Abandon(r) => s.runs[r].phase.Queued? && s.runs[r].got < |s.runs[r].keys|
  }

  function Do(s: Arbiter, m: Move): Arbiter
    requires Enabled(s, m)
  {
    match m
    case TryNext(r) => Try(s, r)
    case WakeUp(r) => Wake(s, r)
    case Leave(r) => Finish(s, r)
    case Abandon(r) => Cancel(s, r)
  }

  // --------------------------------------------------------------- invariant

  function KeysOf(keys: seq<string>, n: nat): set<string>
    requires n <= |keys|
  {
    set k | k in keys[..n]
  }

  ghost predicate AcquirerOk(a: Acquirer) {
    Ranked(a.keys) && a.got <= |a.keys| && (a.phase.Queued? ==> a.got < |a.keys|) && (a.phase.Done? ==> a.got == 0)
  }

  /** The Run holds exactly the locks of the first `got` keys of its list. */
  ghost predicate HoldsPrefix(s: Arbiter, r: nat)
    requires r < |s.runs|
  {
    var a := s.runs[r];
    a.got <= |a.keys| && forall key :: LockOf(s.locks, key).holder == Some(r) <==> key in a.keys[..a.got]
  }

  /** The Run stands in exactly the queue of its next key, and only while it waits. */
  ghost predicate QueuedOnce(s: Arbiter, r: nat)
    requires r < |s.runs|
  {
    var a := s.runs[r];
    forall key :: r in LockOf(s.locks, key).queue <==> a.phase.Queued? && a.got < |a.keys| && key == a.keys[a.got]
  }

  ghost predicate LockOk(s: Arbiter, key: string) {
    var l := LockOf(s.locks, key);
    (l.holder.Some? ==> l.holder.value < |s.runs|)
    && (forall q :: q in l.queue ==> q < |s.runs|)
    && (forall j, k :: 0 <= j < k < |l.queue| ==> l.queue[j] != l.queue[k])
  }

  /** What is shown: the keys held, and a key waited for only while it is. */
  ghost predicate Shown(s: Arbiter, r: nat)
    requires r < |s.runs|
  {
    var a := s.runs[r];
    && a.got <= |a.keys|
    && ShownHolding(s.holding, r, a.keys, a.got)
    && (r in s.waiting ==> a.phase.Queued? && a.got < |a.keys| && s.waiting[r] == {a.keys[a.got]})
  }

  ghost predicate RunOk(s: Arbiter, r: nat)
    requires r < |s.runs|
  {
    AcquirerOk(s.runs[r]) && HoldsPrefix(s, r) && QueuedOnce(s, r) && Shown(s, r)
  }

  ghost predicate Inv(s: Arbiter) {
    (forall r :: 0 <= r < |s.runs| ==> RunOk(s, r)) && forall key :: LockOk(s, key)
  }

  // ------------------------------------------------------------ preservation

  lemma PrefixGrows(keys: seq<string>, n: nat)
    requires n < |keys| && Ranked(keys)
    ensures keys[n] !in keys[..n] && forall k :: k in keys[..n + 1] <==> k in keys[..n] || k == keys[n]
    ensures KeysOf(keys, n + 1) == KeysOf(keys, n) + {keys[n]} && KeysOf(keys, n) == KeysOf(keys, n + 1) - {keys[n]}
    ensures KeysOf(keys, n) == {} <==> n == 0
  {
    assert keys[..n + 1] == keys[..n] + [keys[n]];
    if n > 0 { assert keys[0] in KeysOf(keys, n); }
  }

  /** A run takes its next key, which nobody held. */
  lemma TakeKeepsTaker(s: Arbiter, r: nat, queue: seq<nat>)
    requires Inv(s) && r < |s.runs| && s.runs[r].got < |s.runs[r].keys| && !s.runs[r].phase.Done?
    requires r !in queue
    ensures RunOk(Take(s, r, s.runs[r].keys[s.runs[r].got], queue), r)
  {
    var keys, n := s.runs[r].keys, s.runs[r].got;
    var t := Take(s, r, keys[n], queue);
    assert RunOk(s, r);
    PrefixGrows(keys, n);
    assert t.runs[r] == Acquirer(keys, n + 1, Stepping);
    assert r !in s.waiting || s.waiting[r] == {keys[n]};
    assert t.waiting.Keys == s.waiting.Keys - {r};
    forall k ensures LockOf(t.locks, k) == if k == keys[n] then Lock(Some(r), queue) else LockOf(s.locks, k) {}
  }

  lemma TakeKeepsOther(s: Arbiter, r: nat, queue: seq<nat>, q: nat)
    requires Inv(s) && r < |s.runs| && q < |s.runs| && q != r && s.runs[r].got < |s.runs[r].keys|
    requires var l := LockOf(s.locks, s.runs[r].keys[s.runs[r].got]);
      l.holder.None? && (q in queue <==> q in l.queue)
    ensures RunOk(Take(s, r, s.runs[r].keys[s.runs[r].got], queue), q)
  {
    assert RunOk(s, q);
  }

  lemma TakeKeepsInv(s: Arbiter, r: nat, queue: seq<nat>)
    requires Inv(s) && r < |s.runs| && s.runs[r].got < |s.runs[r].keys| && !s.runs[r].phase.Done?
    requires var l := LockOf(s.locks, s.runs[r].keys[s.runs[r].got]);
      l.holder.None? && (forall p :: p in queue <==> p in l.queue && p != r)
      && (forall j, k :: 0 <= j < k < |queue| ==> queue[j] != queue[k])
    ensures Inv(Take(s, r, s.runs[r].keys[s.runs[r].got], queue))
  {
    var t := Take(s, r, s.runs[r].keys[s.runs[r].got], queue);
    forall q | 0 <= q < |t.runs| ensures RunOk(t, q) {
      if q == r { TakeKeepsTaker(s, r, queue); } else { TakeKeepsOther(s, r, queue, q); }
    }
    forall key ensures LockOk(t, key) { assert LockOk(s, key); }
  }

  lemma QueueingKeepsRun(s: Arbiter, r: nat, q: nat)
    requires Inv(s) && r < |s.runs| && q < |s.runs| && s.runs[r].Trying() && Try(s, r).runs[r].phase.Queued?
    requires q < |Try(s, r).runs|
    ensures RunOk(Try(s, r), q)
  {
    assert RunOk(s, r) && RunOk(s, q);
  }

  lemma QueueingKeepsLock(s: Arbiter, r: nat, key: string)
    requires Inv(s) && r < |s.runs| && s.runs[r].Trying() && Try(s, r).runs[r].phase.Queued?
    ensures LockOk(Try(s, r), key)
  {
    assert RunOk(s, r) && LockOk(s, key);
  }

  lemma TryKeepsInv(s: Arbiter, r: nat)
    requires Inv(s) && r < |s.runs| && s.runs[r].Trying()
    ensures Inv(Try(s, r))
  {
    var l := LockOf(s.locks, s.runs[r].keys[s.runs[r].got]);
    if l.holder.None? && l.queue == [] {
      assert RunOk(s, r);
      TakeKeepsInv(s, r, []);
    } else {
      forall q | 0 <= q < |Try(s, r).runs| ensures RunOk(Try(s, r), q) { QueueingKeepsRun(s, r, q); }
      forall k ensures LockOk(Try(s, r), k) { QueueingKeepsLock(s, r, k); }
    }
  }

  lemma WakeKeepsInv(s: Arbiter, r: nat)
    requires Inv(s) && r < |s.runs| && CanWake(s, r)
    ensures Inv(Wake(s, r))
  {
    var key := s.runs[r].keys[s.runs[r].got];
    assert LockOk(s, key);
    TakeKeepsInv(s, r, LockOf(s.locks, key).queue[1..]);
  }

  /** Releasing frees exactly the listed keys and leaves every queue alone. */
  lemma {:induction false} ReleaseFrees(locks: map<string, Lock>, keys: seq<string>, n: nat, key: string)
    requires n <= |keys|
    ensures LockOf(ReleaseLocks(locks, keys, n), key)
         == if key in keys[..n] then Lock(None, LockOf(locks, key).queue) else LockOf(locks, key)
    decreases n
  {
    if n > 0 {
      ReleaseFrees(locks[keys[n - 1] := Lock(None, LockOf(locks, keys[n - 1]).queue)], keys, n - 1, key);
      assert keys[..n] == keys[..n - 1] + [keys[n - 1]];
    }
  }

  /** What is shown as held: the first n keys of the list. */
  ghost predicate ShownHolding(holding: map<nat, set<string>>, r: nat, keys: seq<string>, n: nat)
    requires n <= |keys|
  {
    if n == 0 then r !in holding else r in holding && holding[r] == KeysOf(keys, n)
  }

  lemma {:induction false} ReleaseForgets(holding: map<nat, set<string>>, r: nat, keys: seq<string>, n: nat)
    requires n <= |keys| && Ranked(keys) && ShownHolding(holding, r, keys, n)
    ensures ReleaseShown(holding, r, keys, n) == holding - {r}
    decreases n
  {
    if n > 0 {
      PrefixGrows(keys, n - 1);
      var next := SetState(holding, r, keys[n - 1], false);
      assert ShownHolding(next, r, keys, n - 1);
      assert next - {r} == holding - {r};
      ReleaseForgets(next, r, keys, n - 1);
    }
  }

  /** The Run stopped waiting, if it was; what it held is still held. */
  ghost predicate Stopped(s: Arbiter, r: nat) {
    && r < |s.runs| && Ranked(s.runs[r].keys) && HoldsPrefix(s, r) && r !in s.waiting
    && ShownHolding(s.holding, r, s.runs[r].keys, s.runs[r].got)
    && (forall key :: r !in LockOf(s.locks, key).queue)
    && (forall q :: 0 <= q < |s.runs| && q != r ==> RunOk(s, q)) && forall key :: LockOk(s, key)
  }

  lemma FinishKeepsInv(s: Arbiter, r: nat)
    requires Stopped(s, r)
    ensures Inv(Finish(s, r))
  {
    var t := Finish(s, r);
    var keys, n := s.runs[r].keys, s.runs[r].got;
    ReleaseForgets(s.holding, r, keys, n);
    forall key
      ensures LockOf(t.locks, key) == if key in keys[..n] then Lock(None, LockOf(s.locks, key).queue) else LockOf(s.locks, key)
    {
      ReleaseFrees(s.locks, keys, n, key);
    }
    forall q | 0 <= q < |t.runs| ensures RunOk(t, q) { assert q != r ==> RunOk(s, q); }
    forall key ensures LockOk(t, key) { assert LockOk(s, key); }
  }

  lemma {:induction false} WithoutDistinct(queue: seq<nat>, r: nat)
    requires forall j, k :: 0 <= j < k < |queue| ==> queue[j] != queue[k]
    ensures forall j, k :: 0 <= j < k < |Without(queue, r)| ==> Without(queue, r)[j] != Without(queue, r)[k]
  {
    if |queue| > 0 {
      var init, last := queue[..|queue| - 1], queue[|queue| - 1];
      WithoutDistinct(init, r);
      var rest := Without(init, r);
      forall j | 0 <= j < |rest| ensures rest[j] != last { assert rest[j] in init; }
    }
  }

  lemma CancelStops(s: Arbiter, r: nat)
    requires Inv(s) && Enabled(s, Abandon(r))
    ensures var key := s.runs[r].keys[s.runs[r].got];
      var l := LockOf(s.locks, key);
      Stopped(s.(locks := s.locks[key := Lock(l.holder, Without(l.queue, r))],
                 waiting := SetState(s.waiting, r, key, false)), r)
  {
    var key := s.runs[r].keys[s.runs[r].got];
    var l := LockOf(s.locks, key);
    var t := s.(locks := s.locks[key := Lock(l.holder, Without(l.queue, r))], waiting := SetState(s.waiting, r, key, false));
    assert RunOk(s, r);
    forall k ensures LockOf(t.locks, k) == if k == key then Lock(l.holder, Without(l.queue, r)) else LockOf(s.locks, k) {}
    assert r in s.waiting ==> s.waiting[r] - {key} == {};
    assert t.waiting == s.waiting - {r};
    forall q | 0 <= q < |t.runs| && q != r ensures RunOk(t, q) { assert RunOk(s, q); }
    forall k ensures LockOk(t, k) {
      assert LockOk(s, k);
      if k == key { WithoutDistinct(l.queue, r); }
    }
  }

  lemma MoveKeepsInv(s: Arbiter, m: Move)
    requires Inv(s) && Enabled(s, m)
    ensures Inv(Do(s, m))
  {
    match m
    case TryNext(r) => TryKeepsInv(s, r);
    case WakeUp(r) => WakeKeepsInv(s, r);
    case Leave(r) =>
      assert RunOk(s, r);
      FinishKeepsInv(s, r);
    case Abandon(r) =>
      CancelStops(s, r);
      var key := s.runs[r].keys[s.runs[r].got];
      FinishKeepsInv(s.(locks := s.locks[key := Lock(LockOf(s.locks, key).holder, Without(LockOf(s.locks, key).queue, r))],
                        waiting := SetState(s.waiting, r, key, false)), r);
  }

  // ---------------------------------------------------------------- progress

  /** How far the key a Run waits for is from the last class of keys. */
  function Climb(a: Acquirer): int {
    if a.phase.Queued? && a.got < |a.keys| then LAST + 1 - Rank(a.keys[a.got]) else 0
  }

  /** Following holders from a waiting Run climbs the order of keys, so it ends at a Run that can move. */
  lemma {:induction false} SomeoneMoves(s: Arbiter, r: nat) returns (m: Move)
    requires Inv(s) && r < |s.runs| && !s.runs[r].phase.Done?
    ensures Enabled(s, m) && !m.Abandon?
    decreases Climb(s.runs[r])
  {
    assert RunOk(s, r);
    if s.runs[r].Trying() { return TryNext(r); }
    if s.runs[r].Inside() { return Leave(r); }
    var key := s.runs[r].keys[s.runs[r].got];
    var l := LockOf(s.locks, key);
    assert LockOk(s, key) && r in l.queue;
    if l.holder.None? {
      var q := l.queue[0];
      assert q in l.queue;
      assert RunOk(s, q);
      return WakeUp(q);
    }
    var h := l.holder.value;
    assert RunOk(s, h);
    var a := s.runs[h];
    assert key in a.keys[..a.got];
    if a.phase.Queued? {
      var j :| 0 <= j < a.got && a.keys[j] == key;
      assert Rank(a.keys[j]) < Rank(a.keys[a.got]);
    }
    m := SomeoneMoves(s, h);
  }

  /** Deadlock freedom: while any Run is unfinished, one of them has a step other than giving up. */
  lemma NeverStuck(s: Arbiter)
    requires Inv(s) && exists r :: 0 <= r < |s.runs| && !s.runs[r].phase.Done?
    ensures exists m :: Enabled(s, m) && !m.Abandon?
  {
    var r :| 0 <= r < |s.runs| && !s.runs[r].phase.Done?;
    var m := SomeoneMoves(s, r);
    assert Enabled(s, m) && !m.Abandon?;
  }

  // --------------------------------------------------------- whole schedules

  datatype Request = Request(context: Context, permissions: set<string>)

  /** Each Run about to acquire the keys its call needs. */
  function Start(requests: seq<Request>): Arbiter {
    Arbiter(seq(|requests|, k requires 0 <= k < |requests| =>
              Acquirer(ResourceKeys(requests[k].context, requests[k].permissions), 0, Stepping)),
            map[], map[], map[])
  }

  function Play(s: Arbiter, moves: seq<Move>): Option<Arbiter> {
    if |moves| == 0 then Some(s)
    else
      match Play(s, moves[..|moves| - 1])
      case None => None
      case Some(t) => if Enabled(t, moves[|moves| - 1]) then Some(Do(t, moves[|moves| - 1])) else None
  }

  lemma StartIsInv(requests: seq<Request>)
    ensures Inv(Start(requests))
  {
    var s := Start(requests);
    forall r | 0 <= r < |s.runs| ensures RunOk(s, r) {
      KeysAreSorted(requests[r].context, requests[r].permissions);
    }
  }

  /** Steps a Run can still take: at most two per key, and its way out. */
  function Steps(a: Acquirer): nat {
    if a.phase.Done? || a.got > |a.keys| then 0
    else 1 + 2 * (|a.keys| - a.got) - if a.phase.Queued? && a.got < |a.keys| then 1 else 0
  }

  function Budget(runs: seq<Acquirer>): nat {
    if |runs| == 0 then 0 else Budget(runs[..|runs| - 1]) + Steps(runs[|runs| - 1])
  }

  lemma {:induction false} BudgetOfUpdate(runs: seq<Acquirer>, r: nat, a: Acquirer)
    requires r < |runs|
    ensures Budget(runs[r := a]) == Budget(runs) - Steps(runs[r]) + Steps(a)
  {
    var last := |runs| - 1;
    if r < last {
      BudgetOfUpdate(runs[..last], r, a);
      assert runs[r := a][..last] == runs[..last][r := a];
    } else {
      assert runs[r := a][..last] == runs[..last];
    }
  }

  lemma MoveSpends(s: Arbiter, m: Move)
    requires Inv(s) && Enabled(s, m)
    ensures Budget(Do(s, m).runs) < Budget(s.runs)
  {
    var t := Do(s, m);
    assert RunOk(s, m.run);
    assert t.runs == s.runs[m.run := t.runs[m.run]];
    BudgetOfUpdate(s.runs, m.run, t.runs[m.run]);
  }

  /** Any schedule keeps the invariant and is no longer than the budget it started with. */
  lemma {:induction false} EveryScheduleEnds(s: Arbiter, moves: seq<Move>)
    requires Inv(s) && Play(s, moves).Some?
    ensures Inv(Play(s, moves).value) && |moves| + Budget(Play(s, moves).value.runs) <= Budget(s.runs)
  {
    if |moves| > 0 {
      var init, last := moves[..|moves| - 1], moves[|moves| - 1];
      EveryScheduleEnds(s, init);
      MoveKeepsInv(Play(s, init).value, last);
      MoveSpends(Play(s, init).value, last);
    }
  }

  /** From any set of requests: schedules are bounded, a schedule that cannot go on has
      finished every Run, and then every lock is free and nothing is shown as held. */
  lemma EverybodyFinishes(requests: seq<Request>, moves: seq<Move>)
    requires Play(Start(requests), moves).Some?
    ensures |moves| <= Budget(Start(requests).runs)
    ensures var s := Play(Start(requests), moves).value;
      (forall m :: Enabled(s, m) ==> m.Abandon?) ==>
        (forall r :: 0 <= r < |s.runs| ==> s.runs[r].phase.Done? && r !in s.holding && r !in s.waiting)
        && forall key :: LockOf(s.locks, key) == Lock(None, [])
  {
    StartIsInv(requests);
    EveryScheduleEnds(Start(requests), moves);
    var s := Play(Start(requests), moves).value;
    if forall m :: Enabled(s, m) ==> m.Abandon? {
      if exists r :: 0 <= r < |s.runs| && !s.runs[r].phase.Done? { NeverStuck(s); }
      forall r | 0 <= r < |s.runs| ensures r !in s.holding && r !in s.waiting { assert RunOk(s, r); }
      forall key ensures LockOf(s.locks, key) == Lock(None, []) { DoneHoldsNothing(s, key); }
    }
  }

  lemma HeadIsMember(queue: seq<nat>)
    ensures |queue| > 0 ==> exists q :: q in queue
  {
    if |queue| > 0 { assert queue[0] in queue; }
  }

  lemma DoneHoldsNothing(s: Arbiter, key: string)
    requires Inv(s) && forall r :: 0 <= r < |s.runs| ==> s.runs[r].phase.Done?
    ensures LockOf(s.locks, key) == Lock(None, [])
  {
    var l := LockOf(s.locks, key);
    assert LockOk(s, key);
    forall r | 0 <= r < |s.runs| ensures l.holder != Some(r) && r !in l.queue { assert RunOk(s, r); }
    assert |l.queue| == 0 by { HeadIsMember(l.queue); }
  }

  /** At any moment of any schedule, what a Run holds is a prefix of its sorted list,
      and no key is held by two Runs. */
  lemma HeldIsPrefixAndExclusive(requests: seq<Request>, moves: seq<Move>, r: nat, q: nat)
    requires Play(Start(requests), moves).Some?
    requires var s := Play(Start(requests), moves).value; r < |s.runs| && q < |s.runs| && r != q
    ensures var s := Play(Start(requests), moves).value;
      HoldsPrefix(s, r) && HoldsPrefix(s, q)
      && forall key :: !(key in s.runs[r].keys[..s.runs[r].got] && key in s.runs[q].keys[..s.runs[q].got])
  {
    StartIsInv(requests);
    EveryScheduleEnds(Start(requests), moves);
    var s := Play(Start(requests), moves).value;
    assert RunOk(s, r) && RunOk(s, q);
    forall key ensures !(key in s.runs[r].keys[..s.runs[r].got] && key in s.runs[q].keys[..s.runs[q].got]) {
      assert LockOf(s.locks, key).holder == Some(r) ==> LockOf(s.locks, key).holder != Some(q);
    }
  }

  // ----------------------------------------------------------- in place

  /** The process-wide tables, updated between the await points of `acquire`. */
  class RunResources {
    var runs: seq<Acquirer>
    var locks: map<string, Lock>
    var waiting: map<nat, set<string>>
    var holding: map<nat, set<string>>

    function State(): Arbiter
      reads this
    {
      Arbiter(runs, locks, waiting, holding)
    }

    constructor (requests: seq<Request>)
      ensures State() == Start(requests)
    {
      runs := seq(|requests|, k requires 0 <= k < |requests| =>
                Acquirer(ResourceKeys(requests[k].context, requests[k].permissions), 0, Stepping));
      locks, waiting, holding := map[], map[], map[];
    }

    /** From one key to the next await: taken at once, or queued. */
    method TryNext(r: nat)
      requires r < |runs| && runs[r].Trying()
      modifies this
      ensures State() == Try(old(State()), r)
    {
      var key := runs[r].keys[runs[r].got];
      var lock := LockOf(locks, key);
      if lock.holder.Some? { waiting := SetState(waiting, r, key, true); }
      if lock.holder.None? && lock.queue == [] {
        locks := locks[key := Lock(Some(r), [])];
        Acquired(r, key);
      } else {
        locks := locks[key := Lock(lock.holder, lock.queue + [r])];
        runs := runs[r := runs[r].(phase := Queued)];
      }
    }

    /** The bookkeeping after `lock.acquire()` returned. */
    method Acquired(r: nat, key: string)
      requires r < |runs|
      modifies this`waiting, this`holding, this`runs
      ensures waiting == SetState(old(waiting), r, key, false) && holding == SetState(old(holding), r, key, true)
      ensures runs == old(runs)[r := old(runs)[r].(got := old(runs)[r].got + 1, phase := Stepping)]
    {
      waiting := SetState(waiting, r, key, false);
      holding := SetState(holding, r, key, true);
      runs := runs[r := runs[r].(got := runs[r].got + 1, phase := Stepping)];
    }

    method WakeUp(r: nat)
      requires r < |runs| && CanWake(State(), r)
      modifies this
      ensures State() == Wake(old(State()), r)
    {
      var key := runs[r].keys[runs[r].got];
      locks := locks[key := Lock(Some(r), LockOf(locks, key).queue[1..])];
      Acquired(r, key);
    }

    /** The `finally` clause: last acquired, first released. */
    method Leave(r: nat)
      requires r < |runs| && runs[r].got <= |runs[r].keys|
      modifies this
      ensures State() == Finish(old(State()), r)
    {
      var keys, n: nat := runs[r].keys, runs[r].got;
      while n > 0
        invariant n <= |keys| && runs == old(runs) && waiting == old(waiting)
        invariant ReleaseLocks(locks, keys, n) == ReleaseLocks(old(locks), keys, old(runs)[r].got)
        invariant ReleaseShown(holding, r, keys, n) == ReleaseShown(old(holding), r, keys, old(runs)[r].got)
      {
        n := n - 1;
        holding := SetState(holding, r, keys[n], false);
        locks := locks[keys[n] := Lock(None, LockOf(locks, keys[n]).queue)];
      }
      runs := runs[r := runs[r].(got := 0, phase := Done)];
    }

    method Abandon(r: nat)
      requires r < |runs| && runs[r].phase.Queued? && runs[r].got < |runs[r].keys|
      modifies this
      ensures State() == Cancel(old(State()), r)
    {
      var key := runs[r].keys[runs[r].got];
      var lock := LockOf(locks, key);
      locks := locks[key := Lock(lock.holder, Without(lock.queue, r))];
      waiting := SetState(waiting, r, key, false);
      Leave(r);
    }
  }
}
