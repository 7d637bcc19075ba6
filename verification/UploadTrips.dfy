/**
  Uploads from their first request to their last: how each of the three ways to begin
  ends, and what no later history of the store can repair.
*/
module UploadTrips {
  import opened Wrappers
  import opened AssetObjects

  // --------------------------------------------------------------- histories

  datatype TimedOp = TimedOp(op: Op, at: Time)

  function Play(s: Store, h: seq<TimedOp>, cfg: Settings): Store {
    if |h| == 0 then s else Perform(Play(s, h[..|h| - 1], cfg), h[|h| - 1].op, h[|h| - 1].at, cfg)
  }

  /** After any history every version row matches the object it names, and part rows their files. */
  lemma {:induction false} SoundAlways(s: Store, h: seq<TimedOp>, cfg: Settings)
    requires Sound(s) && cfg.Ok()
    ensures Sound(Play(s, h, cfg))
  {
    if |h| > 0 {
      SoundAlways(s, h[..|h| - 1], cfg);
      PerformKeepsSound(Play(s, h[..|h| - 1], cfg), h[|h| - 1].op, h[|h| - 1].at, cfg);
    }
  }

  // -------------------------------------------------------------- completion

  /** The upload was announced with this content. */
  predicate Announces(up: Upload, b: Bytes) { up.size == |b| && up.sha == Sha256(b) && up.partSize > 0 }

  /** The upload holds a part that is not the file's chunk of that number. */
  predicate Wrong(up: Upload, b: Bytes, k: nat)
    requires up.partSize > 0
  {
    k in up.parts && (k >= CompleteTotal(|b|, up.partSize) || up.parts[k].sha != Sha256(Slice(b, up.partSize, k)))
  }

  ghost predicate Spoiled(up: Upload, b: Bytes)
    requires up.partSize > 0
  {
    exists k: nat :: Wrong(up, b, k)
  }

  predicate Complete(up: Upload, b: Bytes)
    requires up.partSize > 0
  {
    forall k: nat :: k < CompleteTotal(|b|, up.partSize) ==> k in up.parts
  }

  predicate SizedAs(files: map<(UploadId, nat), Bytes>, u: UploadId, k: nat, chunk: Bytes) {
    (u, k) in files && |files[(u, k)]| == |chunk|
  }

  /** Files of the right sizes that add up to the file are its chunks. */
  lemma {:induction false} AssembledAreChunks(files: map<(UploadId, nat), Bytes>, u: UploadId, b: Bytes, part: nat, n: nat, k: nat)
    requires part > 0 && Assemble(files, u, n) == Front(b, part, n) && k < n
    requires forall j: nat :: j < n ==> SizedAs(files, u, j, Slice(b, part, j))
    ensures (u, k) in files && files[(u, k)] == Slice(b, part, k)
  {
    assert SizedAs(files, u, n - 1, Slice(b, part, n - 1));
    NextChunk(b, part, n - 1);
    SplitSame(Assemble(files, u, n - 1), files[(u, n - 1)], Front(b, part, n - 1), Slice(b, part, n - 1));
    if k < n - 1 { AssembledAreChunks(files, u, b, part, n - 1, k); }
  }

  lemma SplitSame(a: Bytes, x: Bytes, b: Bytes, y: Bytes)
    requires a + x == b + y && |x| == |y|
    ensures a == b && x == y
  {
    assert a == (a + x)[..|a|] && b == (b + y)[..|b|];
    assert x == (a + x)[|a|..] && y == (b + y)[|b|..];
  }

  lemma WholeFront(b: Bytes, part: nat)
    requires part > 0
    ensures Front(b, part, CompleteTotal(|b|, part)) == b
  {
    if |b| > 0 { CeilBounds(|b|, part); }
  }

  /** If completion goes through, what was held is the file, chunk by chunk. */
  lemma CompletedWasRight(s: Store, u: UploadId, owner: OwnerId, b: Bytes, now: Time)
    requires Sound(s) && u < |s.uploads| && s.uploads[u].state.Uploading? && Announces(s.uploads[u], b)
    requires CompleteUpload(s, u, owner, now).1.Success?
    ensures Complete(s.uploads[u], b) && !Spoiled(s.uploads[u], b)
  {
    var up := s.uploads[u];
    var n := CompleteTotal(|b|, up.partSize);
    assert UploadOk(s, u);
    WholeFront(b, up.partSize);
    forall k: nat | k < n ensures SizedAs(s.files, u, k, Slice(b, up.partSize, k)) {
      assert PartOk(s, u, k);
      ChunkFits(b, up.partSize, k);
    }
    forall k: nat ensures !Wrong(up, b, k) {
      if k in up.parts {
        assert PartOk(s, u, k);
        AssembledAreChunks(s.files, u, b, up.partSize, n, k);
      }
    }
  }

  lemma RightPartsAreChunks(s: Store, u: UploadId, b: Bytes)
    requires Sound(s) && u < |s.uploads| && s.uploads[u].state.Uploading? && Announces(s.uploads[u], b)
    requires !Spoiled(s.uploads[u], b)
    ensures HoldsChunks(s, u, b)
  {
    assert UploadOk(s, u);
    forall k | k in s.uploads[u].parts ensures ChunkOnDisk(s, u, b, k) {
      assert !Wrong(s.uploads[u], b, k) && PartOk(s, u, k);
    }
  }

  /** The upload ended in a version whose object is the file. */
  ghost predicate Delivered(s: Store, u: UploadId, b: Bytes) {
    u < |s.uploads| && s.uploads[u].state.Committed? && s.uploads[u].version.Some?
    && s.uploads[u].version.value < |s.versions|
    && var v := s.versions[s.uploads[u].version.value];
       v.asset == s.uploads[u].asset && v.size == |b| && v.key in s.objects && s.objects[v.key] == b
  }

  /** An active upload completes if and only if every part is there and every held part is
      the file's chunk; what it then delivers is the file.  This includes the empty file. */
  lemma CompletionExactly(s: Store, u: UploadId, owner: OwnerId, b: Bytes, now: Time)
    requires Sound(s) && u < |s.uploads| && s.uploads[u].owner == owner && Active(s.uploads[u], now)
    requires Announces(s.uploads[u], b) && s.uploads[u].asset in s.assets
    ensures var (t, out) := CompleteUpload(s, u, owner, now);
      (out.Success? <==> Complete(s.uploads[u], b) && !Spoiled(s.uploads[u], b))
      && (out.Success? ==> Delivered(t, u, b))
  {
    var up := s.uploads[u];
    if Complete(up, b) && !Spoiled(up, b) {
      RightPartsAreChunks(s, u, b);
      if |b| > 0 { CompletionStoresFile(s, u, owner, b, now); } else { EmptyCompletes(s, u, owner, now); }
    } else if CompleteUpload(s, u, owner, now).1.Success? {
      CompletedWasRight(s, u, owner, b, now);
    }
  }

  lemma EmptyCompletes(s: Store, u: UploadId, owner: OwnerId, now: Time)
    requires Sound(s) && u < |s.uploads| && s.uploads[u].owner == owner && Active(s.uploads[u], now)
    requires Announces(s.uploads[u], []) && s.uploads[u].asset in s.assets && !Spoiled(s.uploads[u], [])
    ensures var (t, out) := CompleteUpload(s, u, owner, now); out.Success? && Delivered(t, u, [])
  {
    var up := s.uploads[u];
    forall k | k in up.parts ensures false { assert Wrong(up, [], k); }
    assert HasAllParts(up) && Assemble(s.files, u, 0) == [];
  }

  /** An active upload of nothing completes if and only if no part was ever sent. */
  lemma EmptyUploadExactly(s: Store, u: UploadId, owner: OwnerId, now: Time)
    requires Sound(s) && u < |s.uploads| && s.uploads[u].owner == owner && Active(s.uploads[u], now)
    requires Announces(s.uploads[u], []) && s.uploads[u].asset in s.assets
    ensures CompleteUpload(s, u, owner, now).1.Success? <==> s.uploads[u].parts == map[]
  {
    CompletionExactly(s, u, owner, [], now);
    if s.uploads[u].parts != map[] {
      var k :| k in s.uploads[u].parts;
      assert Wrong(s.uploads[u], [], k);
    }
  }

  // ------------------------------------------------------------ the way there

  /** Beginning an upload of known content delivers it at once. */
  lemma DuplicateDelivers(s: Store, a: AssetId, actor: OwnerId, b: Bytes, now: Time, cfg: Settings)
    requires Sound(s) && cfg.Ok()
    ensures var (t, out) := BeginUpload(s, a, actor, |b|, Sha256(b), now, cfg);
      out.Success? && out.value.deduplicated ==>
        Delivered(t, out.value.upload, b) && a in t.assets && t.assets[a].current == t.uploads[out.value.upload].version
  {
    var (t, out) := BeginUpload(s, a, actor, |b|, Sha256(b), now, cfg);
    if out.Success? && out.value.deduplicated {
      var v := FindDuplicate(s.versions, s.assets[a].owner, |b|, Sha256(b));
      assert VersionOk(s, v);
    }
  }

  lemma BegunIsActive(s: Store, a: AssetId, actor: OwnerId, b: Bytes, now: Time, cfg: Settings)
    requires Sound(s) && cfg.Ok() && BeginUpload(s, a, actor, |b|, Sha256(b), now, cfg).1.Success?
    ensures var (t, out) := BeginUpload(s, a, actor, |b|, Sha256(b), now, cfg);
      !out.value.deduplicated ==>
        var u := out.value.upload;
        u < |t.uploads| && Announces(t.uploads[u], b) && Active(t.uploads[u], now) && t.uploads[u].owner == actor
        && t.uploads[u].asset == a && a in t.assets && (!out.value.resumed ==> t.uploads[u].parts == map[])
  {
    var (t, out) := BeginUpload(s, a, actor, |b|, Sha256(b), now, cfg);
    if out.value.resumed { assert UploadOk(s, out.value.upload); }
  }

  /** The rows of an upload that a transfer may not change. */
  ghost predicate PartsStay(a: Upload, b: Upload) {
    b == a.(parts := b.parts, expiresAt := b.expiresAt) && forall k :: k in a.parts ==> k in b.parts && b.parts[k] == a.parts[k]
  }

  /** A part that is held stays as it is, whatever is sent. */
  lemma {:induction false} SendsChangeNoPart(s: Store, u: UploadId, owner: OwnerId, b: Bytes, sends: seq<Transfer>, ttl: int)
    requires u < |s.uploads|
    ensures var t := SendAll(s, u, owner, b, sends, ttl);
      u < |t.uploads| && PartsStay(s.uploads[u], t.uploads[u]) && t.assets == s.assets
    decreases |sends|
  {
    if |sends| > 0 && s.uploads[u].partSize > 0 {
      var chunk := Slice(b, s.uploads[u].partSize, sends[0].part);
      var next := PutPart(s, u, owner, sends[0].part, chunk, Sha256(chunk), sends[0].at, ttl).0;
      SendsChangeNoPart(next, u, owner, b, sends[1..], ttl);
    }
  }

  lemma SpoiledStays(a: Upload, b: Upload, file: Bytes)
    requires a.partSize > 0 && PartsStay(a, b) && Spoiled(a, file)
    ensures Spoiled(b, file)
  {
    var k: nat :| Wrong(a, file, k);
    assert Wrong(b, file, k);
  }

  /** The transfers come in time and bring every part that is missing. */
  predicate BringsTheRest(up: Upload, b: Bytes, sends: seq<Transfer>, done: Time, ttl: int)
    requires up.partSize > 0
  {
    InTime(sends, up.expiresAt, ttl) && done < Deadline(sends, up.expiresAt, ttl)
    && (forall j :: 0 <= j < |sends| ==> sends[j].part < CompleteTotal(|b|, up.partSize))
    && forall k: nat :: k < CompleteTotal(|b|, up.partSize) ==> k in up.parts || k in PartsOf(sends)
  }

  /** From an active upload: sending the rest and completing succeeds exactly if no held part is wrong. */
  lemma RestDelivers(s: Store, u: UploadId, owner: OwnerId, b: Bytes, sends: seq<Transfer>, done: Time, ttl: int)
    requires Sound(s) && |b| > 0 && u < |s.uploads| && s.uploads[u].owner == owner && s.uploads[u].state.Uploading?
    requires Announces(s.uploads[u], b) && s.uploads[u].asset in s.assets && BringsTheRest(s.uploads[u], b, sends, done, ttl)
    ensures var (t, out) := CompleteUpload(SendAll(s, u, owner, b, sends, ttl), u, owner, done);
      (out.Success? <==> !Spoiled(s.uploads[u], b)) && (out.Success? ==> Delivered(t, u, b))
  {
    var mid := SendAll(s, u, owner, b, sends, ttl);
    SendsKeepSound(s, u, owner, b, sends, ttl);
    SendsChangeNoPart(s, u, owner, b, sends, ttl);
    if Spoiled(s.uploads[u], b) {
      SpoiledStays(s.uploads[u], mid.uploads[u], b);
      if CompleteUpload(mid, u, owner, done).1.Success? { CompletedWasRight(mid, u, owner, b, done); }
    } else {
      RightPartsAreChunks(s, u, b);
      SendsAccumulate(s, u, owner, b, sends, ttl);
      CompletionStoresFile(mid, u, owner, b, done);
    }
  }

  /** The whole trip of a non-empty file.  If its content is known, beginning delivers it.  If not,
      sending what is missing, in any order with any repeats, and completing delivers it exactly if the
      upload begun holds no wrong part; a fresh one holds none. */
  lemma UploadTrip(s: Store, a: AssetId, actor: OwnerId, b: Bytes, now: Time, cfg: Settings, sends: seq<Transfer>, done: Time)
    requires Sound(s) && cfg.Ok() && |b| > 0 && BeginUpload(s, a, actor, |b|, Sha256(b), now, cfg).1.Success?
    requires var (t, out) := BeginUpload(s, a, actor, |b|, Sha256(b), now, cfg);
      var u := out.value.upload;
      !out.value.deduplicated ==>
        u < |t.uploads| && t.uploads[u].partSize > 0 && BringsTheRest(t.uploads[u], b, sends, done, cfg.ttl)
    ensures var (t, begun) := BeginUpload(s, a, actor, |b|, Sha256(b), now, cfg);
      var u := begun.value.upload;
      if begun.value.deduplicated then Delivered(t, u, b)
      else
        var (w, out) := CompleteUpload(SendAll(t, u, actor, b, sends, cfg.ttl), u, actor, done);
        u < |t.uploads| && t.uploads[u].partSize > 0
        && (out.Success? <==> !Spoiled(t.uploads[u], b)) && (out.Success? ==> Delivered(w, u, b))
        && (!begun.value.resumed ==> out.Success?)
  {
    var (t, out) := BeginUpload(s, a, actor, |b|, Sha256(b), now, cfg);
    if out.value.deduplicated {
      DuplicateDelivers(s, a, actor, b, now, cfg);
    } else {
      BegunIsActive(s, a, actor, b, now, cfg);
      BeginKeeps(s, a, actor, |b|, Sha256(b), now, cfg);
      RestDelivers(t, out.value.upload, actor, b, sends, done, cfg.ttl);
    }
  }

  // ------------------------------------------------ what each request decides

  /** An upload of this content that its owner can go on with. */
  predicate GoesOn(up: Upload, a: AssetId, actor: OwnerId, size: nat, sha: Digest, now: Time) {
    up.asset == a && up.owner == actor && up.state == Uploading && up.size == size && up.sha == sha && up.expiresAt > now
  }

  predicate Known(v: Version, owner: OwnerId, size: nat, sha: Digest) { v.owner == owner && v.size == size && v.sha == sha }

  /** The asset has no size or digest yet, or these. */
  predicate Agrees(asset: Asset, size: nat, sha: Digest) {
    asset.size in {0, size} && (asset.sha == None || asset.sha == Some(sha))
  }

  /** Beginning resumes if it can, then reuses known content, and only then starts afresh. */
  lemma BeginExactly(s: Store, a: AssetId, actor: OwnerId, size: nat, sha: Digest, now: Time, cfg: Settings)
    requires Sound(s)
    ensures var (t, out) := BeginUpload(s, a, actor, size, sha, now, cfg);
      if a !in s.assets || !Agrees(s.assets[a], size, sha) then out.Failure? && t == s
      else if exists u :: 0 <= u < |s.uploads| && GoesOn(s.uploads[u], a, actor, size, sha, now) then
        out.Success? && out.value.resumed && !out.value.deduplicated && t == s && out.value.upload < |s.uploads|
        && GoesOn(s.uploads[out.value.upload], a, actor, size, sha, now)
        && forall u :: out.value.upload < u < |s.uploads| ==> !GoesOn(s.uploads[u], a, actor, size, sha, now)
      else
        out.Success? && !out.value.resumed && out.value.upload == |s.uploads|
        && (out.value.deduplicated <==> exists v :: 0 <= v < |s.versions| && Known(s.versions[v], s.assets[a].owner, size, sha))
        && (!out.value.deduplicated ==>
              t == s.(uploads := s.uploads + [Upload(a, actor, size, sha, cfg.partBytes, Uploading, None, now + cfg.ttl, map[])]))
  {
    FindActiveIsLatest(s.uploads, a, actor, size, sha, now);
    if a in s.assets { FindDuplicateExactly(s.versions, s.assets[a].owner, size, sha); }
    forall v | 0 <= v < |s.versions| ensures s.versions[v].key in s.objects { assert VersionOk(s, v); }
  }

  lemma {:induction false} FindActiveIsLatest(uploads: seq<Upload>, a: AssetId, actor: OwnerId, size: nat, sha: Digest, now: Time)
    ensures var i := FindActive(uploads, a, actor, size, sha, now);
      (i < |uploads| ==> GoesOn(uploads[i], a, actor, size, sha, now))
      && forall u :: 0 <= u < |uploads| && (i == |uploads| || u > i) ==> !GoesOn(uploads[u], a, actor, size, sha, now)
  {
    if |uploads| > 0 { FindActiveIsLatest(uploads[..|uploads| - 1], a, actor, size, sha, now); }
  }

  lemma {:induction false} FindDuplicateExactly(versions: seq<Version>, owner: OwnerId, size: nat, sha: Digest)
    ensures FindDuplicate(versions, owner, size, sha) < |versions| <==>
      exists v :: 0 <= v < |versions| && Known(versions[v], owner, size, sha)
  {
    if |versions| > 0 {
      var init, last := versions[..|versions| - 1], versions[|versions| - 1];
      FindDuplicateExactly(init, owner, size, sha);
      if Known(last, owner, size, sha) { assert Known(versions[|versions| - 1], owner, size, sha); }
      forall v | 0 <= v < |init| ensures versions[v] == init[v] {}
    }
  }

  /** The size part k must have: all parts are whole but the last, and an empty file has one empty part. */
  predicate SizeOk(up: Upload, k: int, size: nat)
    requires up.partSize > 0
  {
    k >= 0
    && if up.size == 0 then k == 0 && size == 0
       else if up.partSize * (k + 1) < up.size then size == up.partSize
       else up.partSize * k < up.size && size == up.size - up.partSize * k
  }

  lemma SizeExactly(up: Upload, k: int, size: nat)
    requires up.partSize > 0
    ensures SizeOk(up, k, size) <==> 0 <= k < PutTotal(up.size, up.partSize) && size == Required(up.size, up.partSize, k)
  {
    var part := up.partSize;
    if up.size > 0 {
      CeilBounds(up.size, part);
      var n := Ceil(up.size, part);
      assert part * (k + 1) == part * k + part;
      if 0 <= k < n - 1 { Monotone(part, k + 1, n - 1); }
      if k >= n { Monotone(part, n, k); }
      if k == n - 1 { assert part * (k + 1) == part * n; }
    } else {
      assert Ceil(0, part) == 0 by { assert (part - 1) / part == 0; }
    }
  }

  /** A part is accepted from the upload's owner while the upload is active, if it has the size its number
      requires, the digest it declares, and the content it had if it was sent before. */
  lemma PutExactly(s: Store, u: UploadId, owner: OwnerId, k: int, data: Bytes, declared: Digest, now: Time, ttl: int)
    requires Sound(s)
    ensures var (t, out) := PutPart(s, u, owner, k, data, declared, now, ttl);
      (out.Success? <==>
         u < |s.uploads| && s.uploads[u].owner == owner && s.uploads[u].state == Uploading && s.uploads[u].expiresAt > now
         && s.uploads[u].partSize > 0 && SizeOk(s.uploads[u], k, |data|) && declared == Sha256(data)
         && (k in s.uploads[u].parts ==> (u, k) in s.files && s.files[(u, k)] == data))
      && (out.Failure? ==> t == s)
      && (out.Success? ==>
            t == s.(files := s.files[(u, k) := data], uploads := t.uploads) && u < |t.uploads|
            && t.uploads == s.uploads[u := s.uploads[u].(parts := s.uploads[u].parts[k := PartRow(|data|, Sha256(data))], expiresAt := now + ttl)])
  {
    if u < |s.uploads| && s.uploads[u].partSize > 0 {
      SizeExactly(s.uploads[u], k, |data|);
      assert UploadOk(s, u);
      if k >= 0 && k in s.uploads[u].parts && s.uploads[u].state.Uploading? { assert PartOk(s, u, k); }
    }
  }

  lemma {:induction false} NumbersHaveNoGap(versions: seq<Version>, a: AssetId)
    ensures var n := NextNumber(versions, a);
      n > 1 ==> exists v :: 0 <= v < |versions| && versions[v].asset == a && versions[v].number == n - 1
  {
    if |versions| > 0 {
      var init, last := versions[..|versions| - 1], versions[|versions| - 1];
      NumbersHaveNoGap(init, a);
      if last.asset == a && last.number >= NextNumber(init, a) {
        assert versions[|versions| - 1].number == NextNumber(versions, a) - 1;
      } else if NextNumber(init, a) > 1 {
        var v :| 0 <= v < |init| && init[v].asset == a && init[v].number == NextNumber(init, a) - 1;
        assert versions[v] == init[v];
      }
    }
  }

  /** The number after all the asset's others. */
  ghost predicate NextVersion(versions: seq<Version>, a: AssetId, n: nat) {
    && n >= 1 && (forall v :: 0 <= v < |versions| && versions[v].asset == a ==> versions[v].number < n)
    && (n > 1 ==> exists v :: 0 <= v < |versions| && versions[v].asset == a && versions[v].number == n - 1)
  }

  /** What a completion writes: one version row, the asset's columns, the upload's end, and the part files away. */
  lemma CompletionWrites(s: Store, u: UploadId, owner: OwnerId, now: Time)
    requires CompleteUpload(s, u, owner, now).1.Success? && !CompleteUpload(s, u, owner, now).1.value.duplicate
    ensures var t, n := CompleteUpload(s, u, owner, now).0, |s.versions|;
      u < |s.uploads| && s.uploads[u].asset in s.assets && |t.versions| == n + 1 && t.versions[..n] == s.versions
      && var up, v, asset := s.uploads[u], t.versions[n], s.assets[s.uploads[u].asset];
      && NextVersion(s.versions, up.asset, v.number)
      && v == Version(up.asset, asset.owner, v.number, up.sha, up.size, up.sha)
      && t.assets == s.assets[up.asset := asset.(size := up.size, sha := Some(up.sha), current := Some(n))]
      && t.uploads == s.uploads[u := up.(state := Committed, version := Some(n))]
      && (forall f :: f in t.files <==> f in s.files && f.0 != u) && forall f :: f in t.files ==> t.files[f] == s.files[f]
  {
    NumbersHaveNoGap(s.versions, s.uploads[u].asset);
  }

  /** Exactly the stale uploads expire, and exactly their part files go; nothing else changes. */
  lemma CleanupExactly(s: Store, now: Time)
    ensures CleanedUpTo(s, CleanupExpired(s, |s.uploads|, now), |s.uploads|, now)
  {
    CleansUpTo(s, |s.uploads|, now);
  }

  predicate Forgotten(s: Store, u: UploadId, n: nat, now: Time) {
    u < n && u < |s.uploads| && s.uploads[u].state == Uploading && s.uploads[u].expiresAt <= now
  }

  ghost predicate CleanedUpTo(s: Store, t: Store, n: nat, now: Time) {
    && t == s.(uploads := t.uploads, files := t.files) && |t.uploads| == |s.uploads|
    && (forall u :: 0 <= u < |s.uploads| ==>
          t.uploads[u] == if Forgotten(s, u, n, now) then s.uploads[u].(state := Expired) else s.uploads[u])
    && (forall f :: f in t.files <==> f in s.files && !Forgotten(s, f.0, n, now))
    && forall f :: f in t.files ==> f in s.files && t.files[f] == s.files[f]
  }

  lemma {:induction false} CleansUpTo(s: Store, n: nat, now: Time)
    requires n <= |s.uploads|
    ensures CleanedUpTo(s, CleanupExpired(s, n, now), n, now)
  {
    if n > 0 {
      CleansUpTo(s, n - 1, now);
      var mid := CleanupExpired(s, n - 1, now);
      assert Forgotten(s, n - 1, n, now) <==> Stale(mid.uploads[n - 1], now);
      forall u ensures Forgotten(s, u, n, now) <==> Forgotten(s, u, n - 1, now) || (u == n - 1 && Forgotten(s, n - 1, n, now)) {}
    }
  }

  /** An owner may abort an upload that has not ended; its part files go, nothing else does. */
  lemma AbortExactly(s: Store, u: UploadId, owner: OwnerId, now: Time)
    ensures var (t, done) := AbortUpload(s, u, owner, now);
      done == (u < |s.uploads| && s.uploads[u].owner == owner && s.uploads[u].state == Uploading)
      && (!done ==> t == s)
      && (done ==>
            t == s.(uploads := s.uploads[u := s.uploads[u].(state := Aborted, expiresAt := now)], files := t.files)
            && (forall f :: f in t.files <==> f in s.files && f.0 != u)
            && forall f :: f in t.files ==> f in s.files && t.files[f] == s.files[f])
  {}

  // ---------------------------------------------------------- beyond repair

  /** Not committed, and spoiled for as long as it is open. */
  ghost predicate BeyondRepair(s: Store, u: UploadId, b: Bytes) {
    u < |s.uploads| && Announces(s.uploads[u], b) && !s.uploads[u].state.Committed?
    && (s.uploads[u].state.Uploading? ==> Spoiled(s.uploads[u], b))
  }

  lemma RefusedBeyondRepair(s: Store, u: UploadId, owner: OwnerId, b: Bytes, now: Time)
    requires Sound(s) && BeyondRepair(s, u, b)
    ensures CompleteUpload(s, u, owner, now).1.Failure? && CompleteUpload(s, u, owner, now).0.uploads == s.uploads
  {
    if s.uploads[u].state.Uploading? && CompleteUpload(s, u, owner, now).1.Success? { CompletedWasRight(s, u, owner, b, now); }
  }

  lemma {:induction false} CleanupMovesState(s: Store, upTo: nat, now: Time, u: UploadId)
    requires upTo <= |s.uploads| && u < |s.uploads|
    ensures var t := CleanupExpired(s, upTo, now);
      t.uploads[u] == s.uploads[u] || t.uploads[u] == s.uploads[u].(state := Expired)
  {
    if upTo > 0 { CleanupMovesState(s, upTo - 1, now, u); }
  }

  lemma StepKeepsBeyondRepair(s: Store, op: Op, now: Time, cfg: Settings, u: UploadId, b: Bytes)
    requires Sound(s) && cfg.Ok() && BeyondRepair(s, u, b)
    ensures BeyondRepair(Perform(s, op, now, cfg), u, b)
  {
    var t := Perform(s, op, now, cfg);
    match op
    case Complete(v, owner) => if v == u { RefusedBeyondRepair(s, u, owner, b, now); }
    case Put(_, _, _, _, _) =>
      if s.uploads[u].state.Uploading? { SpoiledStays(s.uploads[u], t.uploads[u], b); }
    case Cleanup => CleanupMovesState(s, |s.uploads|, now, u);
    case _ =>
  }

  /** Whatever is sent, expired, aborted or begun afterwards, such an upload never completes. */
  lemma {:induction false} NeverRepaired(s: Store, h: seq<TimedOp>, cfg: Settings, u: UploadId, b: Bytes, owner: OwnerId, later: Time)
    requires Sound(s) && cfg.Ok() && BeyondRepair(s, u, b)
    ensures BeyondRepair(Play(s, h, cfg), u, b) && CompleteUpload(Play(s, h, cfg), u, owner, later).1.Failure?
  {
    SoundAlways(s, h, cfg);
    if |h| > 0 {
      NeverRepaired(s, h[..|h| - 1], cfg, u, b, owner, later);
      SoundAlways(s, h[..|h| - 1], cfg);
      StepKeepsBeyondRepair(Play(s, h[..|h| - 1], cfg), h[|h| - 1].op, h[|h| - 1].at, cfg, u, b);
    }
    RefusedBeyondRepair(Play(s, h, cfg), u, owner, b, later);
  }

  /** An upload of nothing accepts an empty part 0, and from then on can never be completed. */
  lemma EmptyPartBlocksCompletion(s: Store, u: UploadId, owner: OwnerId, now: Time, h: seq<TimedOp>, cfg: Settings, later: Time)
    requires Sound(s) && cfg.Ok() && u < |s.uploads| && s.uploads[u].owner == owner && Active(s.uploads[u], now)
    requires Announces(s.uploads[u], []) && s.uploads[u].parts == map[]
    ensures var (t, out) := PutPart(s, u, owner, 0, [], Sha256([]), now, cfg.ttl);
      out.Success? && CompleteUpload(Play(t, h, cfg), u, owner, later).1.Failure?
  {
    var part := s.uploads[u].partSize;
    assert Ceil(0, part) == 0 by { assert (part - 1) / part == 0; }
    assert PutTotal(0, part) == 1 && Required(0, part, 0) == 0;
    var t := PutPart(s, u, owner, 0, [], Sha256([]), now, cfg.ttl).0;
    assert Wrong(t.uploads[u], [], 0);
    PutKeeps(s, u, owner, 0, [], Sha256([]), now, cfg.ttl);
    NeverRepaired(t, h, cfg, u, [], owner, later);
  }

  /** So does any wrong part of the right size. */
  lemma WrongPartBlocksCompletion(s: Store, u: UploadId, owner: OwnerId, k: nat, data: Bytes, b: Bytes, now: Time,
                                  h: seq<TimedOp>, cfg: Settings, later: Time)
    requires Sound(s) && cfg.Ok() && u < |s.uploads| && Active(s.uploads[u], now) && Announces(s.uploads[u], b)
    requires k < CompleteTotal(|b|, s.uploads[u].partSize) && data != Slice(b, s.uploads[u].partSize, k)
    requires PutPart(s, u, owner, k, data, Sha256(data), now, cfg.ttl).1.Success?
    ensures var t := PutPart(s, u, owner, k, data, Sha256(data), now, cfg.ttl).0;
      CompleteUpload(Play(t, h, cfg), u, owner, later).1.Failure?
  {
    var t := PutPart(s, u, owner, k, data, Sha256(data), now, cfg.ttl).0;
    assert Wrong(t.uploads[u], b, k);
    PutKeeps(s, u, owner, k, data, Sha256(data), now, cfg.ttl);
    NeverRepaired(t, h, cfg, u, b, owner, later);
  }
}
