/**
  What the resource locks are for: two tool calls that need the same thing are never
  inside at once, and calls that need nothing in common never wait for each other's keys.
*/
module ToolExclusion {
  import opened Wrappers
  import opened ResourceLocks

  // ------------------------------------------------------------------- needs

  predicate Writing(p: string) { (|p| >= 6 && p[|p| - 6..] == ".write") || (|p| >= 7 && p[|p| - 7..] == ".manage") }

  /** Some permission of the call ends in ".write" or ".manage". */
  predicate MayWrite(q: Request) {
    exists p :: p in q.permissions && Writing(p)
  }

  /** Both write in one workspace of one owner, both use one owner's browser, or both use the host. */
  predicate NeedInCommon(a: Request, b: Request) {
    (MayWrite(a) && MayWrite(b) && a.context.owner == b.context.owner && a.context.workspace == b.context.workspace)
    || ("browser.state" in a.permissions && "browser.state" in b.permissions && a.context.owner == b.context.owner)
    || ("host.unrestricted" in a.permissions && "host.unrestricted" in b.permissions)
  }

  function KeysFor(q: Request): seq<string> { ResourceKeys(q.context, q.permissions) }

  ghost predicate ShareKey(a: Request, b: Request) { exists key :: key in KeysFor(a) && key in KeysFor(b) }

  predicate NoColon(text: string) { ':' !in text }

  /** Up to its first colon a text is determined. */
  lemma {:induction false} FirstColon(a: string, x: string, b: string, y: string)
    requires NoColon(a) && NoColon(b) && a + ":" + x == b + ":" + y
    ensures a == b && x == y
  {
    var u, v := a + ":" + x, b + ":" + y;
    if |a| == 0 || |b| == 0 {
      assert u[0] == v[0];
      assert |a| == 0 && |b| == 0;
      assert x == u[1..] && y == v[1..];
    } else {
      assert a[0] == u[0] == v[0] == b[0];
      assert u[1..] == a[1..] + ":" + x && v[1..] == b[1..] + ":" + y;
      FirstColon(a[1..], x, b[1..], y);
    }
  }

  lemma SameTail(prefix: string, x: string, y: string)
    ensures prefix + x == prefix + y <==> x == y
  {
    assert (prefix + x)[|prefix|..] == x && (prefix + y)[|prefix|..] == y;
  }

  lemma SuffixExactly(p: string)
    ensures EndsWith(p, ".write") || EndsWith(p, ".manage") <==> Writing(p)
  {}

  lemma WritesExactly(q: Request)
    ensures Writes(q.permissions) <==> MayWrite(q)
  {
    if Writes(q.permissions) {
      var p :| p in q.permissions && (EndsWith(p, ".write") || EndsWith(p, ".manage"));
      SuffixExactly(p);
    }
    if MayWrite(q) {
      var p :| p in q.permissions && Writing(p);
      SuffixExactly(p);
    }
  }

  lemma InThree(x: seq<string>, y: seq<string>, z: seq<string>, key: string)
    ensures key in x + y + z <==> key in x || key in y || key in z
  {}

  lemma KeysAre(c: Context)
    ensures WorkspaceKey(c) == "workspace:" + (c.owner + ":" + c.workspace)
    ensures BrowserKey(c) == "browser-profile:" + c.owner && HOST_KEY == "host:unrestricted"
  {}

  /** The keys of a call, one per kind of need. */
  lemma KeysByNeed(q: Request, key: string)
    ensures key in KeysFor(q) <==>
      (MayWrite(q) && key == "workspace:" + (q.context.owner + ":" + q.context.workspace))
      || ("browser.state" in q.permissions && key == "browser-profile:" + q.context.owner)
      || ("host.unrestricted" in q.permissions && key == "host:unrestricted")
  {
    var c := q.context;
    WritesExactly(q);
    KeysAre(c);
    var browser := if "browser.state" in q.permissions then [BrowserKey(c)] else [];
    var host := if "host.unrestricted" in q.permissions then [HOST_KEY] else [];
    var writing := if Writes(q.permissions) then [WorkspaceKey(c)] else [];
    assert KeysFor(q) == browser + host + writing;
    InThree(browser, host, writing, key);
  }

  lemma KindsDiffer(x: string, y: string)
    ensures "workspace:" + x != "browser-profile:" + y && "workspace:" + x != "host:unrestricted" && "browser-profile:" + y != "host:unrestricted"
  {
    assert ("workspace:" + x)[0] == 'w' && ("browser-profile:" + y)[0] == 'b' && "host:unrestricted"[0] == 'h';
  }

  /** Calls that need something in common ask for a common key. */
  lemma NeedMeansKey(a: Request, b: Request)
    requires NeedInCommon(a, b)
    ensures ShareKey(a, b)
  {
    var w, p := "workspace:" + (a.context.owner + ":" + a.context.workspace), "browser-profile:" + a.context.owner;
    KeysByNeed(a, w);
    KeysByNeed(b, w);
    KeysByNeed(a, p);
    KeysByNeed(b, p);
    KeysByNeed(a, "host:unrestricted");
    KeysByNeed(b, "host:unrestricted");
  }

  /** Exactly then, if owners' names hold no colon. */
  lemma KeyMeansNeed(a: Request, b: Request)
    requires NoColon(a.context.owner) && NoColon(b.context.owner)
    ensures ShareKey(a, b) <==> NeedInCommon(a, b)
  {
    if NeedInCommon(a, b) { NeedMeansKey(a, b); }
    if ShareKey(a, b) {
      var key :| key in KeysFor(a) && key in KeysFor(b);
      KeysByNeed(a, key);
      KeysByNeed(b, key);
      var x, y := a.context.owner + ":" + a.context.workspace, b.context.owner + ":" + b.context.workspace;
      KindsDiffer(x, b.context.owner);
      KindsDiffer(y, a.context.owner);
      SameTail("workspace:", x, y);
      SameTail("browser-profile:", a.context.owner, b.context.owner);
      if x == y { FirstColon(a.context.owner, a.context.workspace, b.context.owner, b.context.workspace); }
    }
  }

  /** With a colon in an owner's name two workspaces of two owners can share a key. */
  lemma ColonMakesStrangersShare(a: Request, b: Request)
    requires MayWrite(a) && MayWrite(b)
    requires a.context.owner == "x:y" && a.context.workspace == "z" && b.context.owner == "x" && b.context.workspace == "y:z"
    ensures ShareKey(a, b)
  {
    var key := "workspace:" + "x:y:z";
    assert a.context.owner + ":" + a.context.workspace == "x:y:z" && b.context.owner + ":" + b.context.workspace == "x:y:z";
    KeysByNeed(a, key);
    KeysByNeed(b, key);
  }

  // --------------------------------------------------------------- exclusion

  lemma {:induction false} KeysStay(requests: seq<Request>, moves: seq<Move>)
    requires Play(Start(requests), moves).Some?
    ensures var s := Play(Start(requests), moves).value;
      |s.runs| == |requests| && forall r :: 0 <= r < |requests| ==> s.runs[r].keys == KeysFor(requests[r])
  {
    if |moves| > 0 { KeysStay(requests, moves[..|moves| - 1]); }
  }

  /** The call holds all it asked for and has not left yet. */
  predicate HasAll(a: Acquirer) { a.phase == Stepping && a.got == |a.keys| }

  /** At no moment of any schedule are two calls inside that need something in common. */
  lemma NeverTogether(requests: seq<Request>, moves: seq<Move>, r: nat, q: nat)
    requires Play(Start(requests), moves).Some? && r < |requests| && q < |requests| && r != q
    requires NeedInCommon(requests[r], requests[q])
    ensures var s := Play(Start(requests), moves).value;
      r < |s.runs| && q < |s.runs| && !(HasAll(s.runs[r]) && HasAll(s.runs[q]))
  {
    var s := Play(Start(requests), moves).value;
    KeysStay(requests, moves);
    NeedMeansKey(requests[r], requests[q]);
    var key :| key in KeysFor(requests[r]) && key in KeysFor(requests[q]);
    HeldIsPrefixAndExclusive(requests, moves, r, q);
    assert !(key in s.runs[r].keys[..s.runs[r].got] && key in s.runs[q].keys[..s.runs[q].got]);
    assert HasAll(s.runs[r]) ==> s.runs[r].keys[..s.runs[r].got] == s.runs[r].keys;
    assert HasAll(s.runs[q]) ==> s.runs[q].keys[..s.runs[q].got] == s.runs[q].keys;
  }
}
