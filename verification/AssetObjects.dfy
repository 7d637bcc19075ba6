/**
  Content-addressed asset objects and resumable chunked uploads: the rows, the
  part files of an upload, and the objects themselves.  Digests are injective.
*/
module AssetObjects {
  import opened Wrappers

  type Time = int
  type Bytes = seq<bv8>
  type UploadId = nat
  type AssetId = nat
  type OwnerId = nat
  type VersionId = nat

  datatype Digest = Sha256(of: Bytes)

  datatype UploadState = Uploading | Committed | Expired | Aborted

  datatype PartRow = PartRow(size: nat, sha: Digest)

  datatype Upload = Upload(
    asset: AssetId, owner: OwnerId, size: nat, sha: Digest, partSize: nat,
    state: UploadState, version: Option<VersionId>, expiresAt: Time, parts: map<nat, PartRow>)

  datatype Version = Version(asset: AssetId, owner: OwnerId, number: nat, key: Digest, size: nat, sha: Digest)

  datatype Asset = Asset(owner: OwnerId, size: nat, sha: Option<Digest>, current: Option<VersionId>)

  datatype Store = Store(
    uploads: seq<Upload>, files: map<(UploadId, nat), Bytes>, objects: map<Digest, Bytes>,
    versions: seq<Version>, assets: map<AssetId, Asset>)

  /** Deployment settings: part size and how long an untouched upload lives. */
  datatype Settings = Settings(partBytes: nat, ttl: int) {
    predicate Ok() { partBytes >= 256 * 1024 && ttl >= 60 }
  }

  datatype ObjectError =
    | NotFound | NotActive | OutOfRange | SizeMismatch | ShaMismatch | DifferentContent
    | MissingParts | ContentMismatch | InvalidObject | AssetMismatch

  // -------------------------------------------------------------- arithmetic

  function Ceil(size: nat, part: nat): nat
    requires part > 0
  {
    (size + part - 1) / part
  }

  /** How many part numbers an upload accepts: even an empty object accepts part 0. */
  function PutTotal(size: nat, part: nat): (n: nat)
    requires part > 0
    ensures n >= 1
  {
    if Ceil(size, part) < 1 then 1 else Ceil(size, part)
  }

  /** How many parts completion expects: none for an empty object. */
  function CompleteTotal(size: nat, part: nat): nat
    requires part > 0
  {
    if size == 0 then 0 else Ceil(size, part)
  }

  /** The exact size the part must have. */
  function Required(size: nat, part: nat, k: nat): int
    requires part > 0
  {
    if k < PutTotal(size, part) - 1 then part else size - part * k
  }

  /** The k-th chunk a client reads. */
  function Slice(b: Bytes, part: nat, k: nat): Bytes
    requires part > 0
  {
    var from, to := part * k, part * (k + 1);
    if |b| <= from then [] else if |b| <= to then b[from..] else b[from..to]
  }

  lemma CeilBounds(size: nat, part: nat)
    requires part > 0 && size > 0
    ensures var n := Ceil(size, part); n >= 1 && part * (n - 1) < size <= part * n
  {
    var q, r := (size + part - 1) / part, (size + part - 1) % part;
    assert size + part - 1 == part * q + r;
    assert q > 0;
    assert part * (q - 1) == part * q - part;
  }

  lemma Monotone(part: nat, a: nat, b: nat)
    requires a <= b
    ensures part * a <= part * b
  {}

  /** Every chunk of a non-empty file has exactly the size the Server requires of it. */
  lemma ChunkFits(b: Bytes, part: nat, k: nat)
    requires part > 0 && |b| > 0 && k < CompleteTotal(|b|, part)
    ensures CompleteTotal(|b|, part) == PutTotal(|b|, part)
    ensures |Slice(b, part, k)| == Required(|b|, part, k) && |Slice(b, part, k)| > 0
  {
    var n := Ceil(|b|, part);
    CeilBounds(|b|, part);
    assert part * (k + 1) == part * k + part;
    if k < n - 1 { Monotone(part, k + 1, n - 1); } else { assert k == n - 1; }
  }

  lemma NumberInRange(size: nat, part: nat, k: nat)
    requires part > 0 && part * k < size
    ensures k < CompleteTotal(size, part)
  {
    CeilBounds(size, part);
    if k >= Ceil(size, part) { Monotone(part, Ceil(size, part), k); }
  }

  lemma ReachedEnd(size: nat, part: nat, k: nat)
    requires part > 0 && size > 0 && part * k >= size
    ensures k >= CompleteTotal(size, part)
  {
    CeilBounds(size, part);
    if k < Ceil(size, part) { Monotone(part, k, Ceil(size, part) - 1); }
  }

  function SumRequired(size: nat, part: nat, n: nat): int
    requires part > 0
  {
    if n == 0 then 0 else SumRequired(size, part, n - 1) + Required(size, part, n - 1)
  }

  lemma {:induction false} SumOfWholeParts(size: nat, part: nat, n: nat)
    requires part > 0 && n <= PutTotal(size, part) - 1
    ensures SumRequired(size, part, n) == part * n
  {
    if n > 0 {
      SumOfWholeParts(size, part, n - 1);
      assert part * n == part * (n - 1) + part;
    }
  }

  /** The required part sizes add up to the expected size. */
  lemma PartSizesSumUp(size: nat, part: nat)
    requires part > 0
    ensures SumRequired(size, part, CompleteTotal(size, part)) == size
  {
    if size > 0 {
      var n := Ceil(size, part);
      CeilBounds(size, part);
      SumOfWholeParts(size, part, n - 1);
    }
  }

  // -------------------------------------------------------------- operations

  function NextNumber(versions: seq<Version>, a: AssetId): (n: nat)
    ensures n >= 1 && forall v :: 0 <= v < |versions| && versions[v].asset == a ==> versions[v].number < n
  {
    if |versions| == 0 then 1
    else
      var rest := NextNumber(versions[..|versions| - 1], a);
      var last := versions[|versions| - 1];
      if last.asset == a && last.number >= rest then last.number + 1 else rest
  }

  function CommitVersion(s: Store, a: AssetId, key: Digest, size: nat, sha: Digest): Store
    requires a in s.assets
  {
    s.(versions := s.versions + [Version(a, s.assets[a].owner, NextNumber(s.versions, a), key, size, sha)],
       assets := s.assets[a := s.assets[a].(size := size, sha := Some(sha), current := Some(|s.versions|))])
  }

  predicate Resumable(u: Upload, a: AssetId, actor: OwnerId, size: nat, sha: Digest, now: Time) {
    u.asset == a && u.owner == actor && u.state.Uploading? && u.size == size && u.sha == sha && u.expiresAt > now
  }

  /** The latest upload that can go on, or |uploads|. */
  function FindActive(uploads: seq<Upload>, a: AssetId, actor: OwnerId, size: nat, sha: Digest, now: Time): (i: nat)
    ensures i <= |uploads| && (i < |uploads| ==> Resumable(uploads[i], a, actor, size, sha, now))
  {
    if |uploads| == 0 then 0
    else if Resumable(uploads[|uploads| - 1], a, actor, size, sha, now) then |uploads| - 1
    else
      var i := FindActive(uploads[..|uploads| - 1], a, actor, size, sha, now);
      if i < |uploads| - 1 then i else |uploads|
  }

  /** The latest version of the owner with this content, or |versions|. */
  function FindDuplicate(versions: seq<Version>, owner: OwnerId, size: nat, sha: Digest): (v: nat)
    ensures v <= |versions|
    ensures v < |versions| ==> versions[v].owner == owner && versions[v].sha == sha && versions[v].size == size
  {
    if |versions| == 0 then 0
    else
      var last := versions[|versions| - 1];
      if last.owner == owner && last.sha == sha && last.size == size then |versions| - 1
      else
        var v := FindDuplicate(versions[..|versions| - 1], owner, size, sha);
        if v < |versions| - 1 then v else |versions|
  }

  datatype Begun = Begun(upload: UploadId, deduplicated: bool, resumed: bool)

  function BeginUpload(s: Store, a: AssetId, actor: OwnerId, size: nat, sha: Digest, now: Time, cfg: Settings)
    : (Store, Result<Begun, ObjectError>)
  {
    if a !in s.assets then (s, Failure(NotFound))
    else if s.assets[a].size != 0 && s.assets[a].size != size then (s, Failure(AssetMismatch))
    else if s.assets[a].sha.Some? && s.assets[a].sha.value != sha then (s, Failure(AssetMismatch))
    else
      var i := FindActive(s.uploads, a, actor, size, sha, now);
      var v := FindDuplicate(s.versions, s.assets[a].owner, size, sha);
      if i < |s.uploads| then (s, Success(Begun(i, false, true)))
      else if v < |s.versions| && s.versions[v].key in s.objects then
        var t := CommitVersion(s, a, s.versions[v].key, size, sha);
        (t.(uploads := s.uploads + [Upload(a, actor, size, sha, cfg.partBytes, Committed, Some(|s.versions|), now, map[])]),
         Success(Begun(|s.uploads|, true, false)))
      else
        (s.(uploads := s.uploads + [Upload(a, actor, size, sha, cfg.partBytes, Uploading, None, now + cfg.ttl, map[])]),
         Success(Begun(|s.uploads|, false, false)))
  }

  predicate Active(u: Upload, now: Time) { u.state.Uploading? && u.expiresAt > now }

  function PutPart(s: Store, u: UploadId, owner: OwnerId, k: int, data: Bytes, declared: Digest, now: Time, ttl: int)
    : (Store, Result<(), ObjectError>)
  {
    if u >= |s.uploads| || s.uploads[u].owner != owner then (s, Failure(NotFound))
    else
      var up := s.uploads[u];
      if !Active(up, now) || up.partSize == 0 then (s, Failure(NotActive))
      else if k < 0 || k >= PutTotal(up.size, up.partSize) then (s, Failure(OutOfRange))
      else if |data| != Required(up.size, up.partSize, k) then (s, Failure(SizeMismatch))
      else if declared != Sha256(data) then (s, Failure(ShaMismatch))
      else if k in up.parts && up.parts[k] != PartRow(|data|, Sha256(data)) then (s, Failure(DifferentContent))
      else
        (s.(files := s.files[(u, k) := data],
            uploads := s.uploads[u := up.(parts := up.parts[k := PartRow(|data|, Sha256(data))], expiresAt := now + ttl)]),
         Success(()))
  }

  /** The first n part files, one after the other. */
  function Assemble(files: map<(UploadId, nat), Bytes>, u: UploadId, n: nat): Bytes {
    if n == 0 then [] else Assemble(files, u, n - 1) + if (u, n - 1) in files then files[(u, n - 1)] else []
  }

  /** The part rows are exactly those completion expects. */
  predicate HasAllParts(up: Upload)
    requires up.partSize > 0
  {
    (forall k :: k in up.parts ==> k < CompleteTotal(up.size, up.partSize))
    && forall k: nat :: k < CompleteTotal(up.size, up.partSize) ==> k in up.parts
  }

  predicate FilesPresent(files: map<(UploadId, nat), Bytes>, u: UploadId, n: nat) {
    forall k: nat :: k < n ==> (u, k) in files
  }

  function DropFiles(files: map<(UploadId, nat), Bytes>, u: UploadId): map<(UploadId, nat), Bytes> {
    map f | f in files && f.0 != u :: files[f]
  }

  datatype Completed = Completed(version: VersionId, duplicate: bool)

  /** Where the assembled content goes: objects are never overwritten. */
  function Keep(objects: map<Digest, Bytes>, content: Bytes): map<Digest, Bytes> {
    if Sha256(content) in objects then objects else objects[Sha256(content) := content]
  }

  function CompleteUpload(s: Store, u: UploadId, owner: OwnerId, now: Time): (Store, Result<Completed, ObjectError>) {
    if u >= |s.uploads| || s.uploads[u].owner != owner then (s, Failure(NotFound))
    else
      var up := s.uploads[u];
      if up.state.Committed? && up.version.Some? then (s, Success(Completed(up.version.value, true)))
      else if !Active(up, now) || up.partSize == 0 then (s, Failure(NotActive))
      else if !HasAllParts(up) || !FilesPresent(s.files, u, CompleteTotal(up.size, up.partSize)) then
        (s, Failure(MissingParts))
      else
        var content := Assemble(s.files, u, CompleteTotal(up.size, up.partSize));
        if |content| != up.size || Sha256(content) != up.sha then (s, Failure(ContentMismatch))
        else if up.sha in s.objects && |s.objects[up.sha]| != up.size then (s, Failure(InvalidObject))
        else
          var stored := s.(objects := Keep(s.objects, content));
          if up.asset !in s.assets then (stored, Failure(NotFound))
          else
            var t := CommitVersion(stored, up.asset, up.sha, up.size, up.sha);
            (t.(uploads := s.uploads[u := up.(state := Committed, version := Some(|s.versions|))],
                files := DropFiles(s.files, u)),
             Success(Completed(|s.versions|, false)))
  }

  function AbortUpload(s: Store, u: UploadId, owner: OwnerId, now: Time): (Store, bool) {
    if u >= |s.uploads| || s.uploads[u].owner != owner || !s.uploads[u].state.Uploading? then (s, false)
    else
      (s.(uploads := s.uploads[u := s.uploads[u].(state := Aborted, expiresAt := now)], files := DropFiles(s.files, u)), true)
  }

  predicate Stale(u: Upload, now: Time) { u.state.Uploading? && u.expiresAt <= now }

  function ExpireOne(s: Store, u: UploadId, now: Time): Store
    requires u < |s.uploads|
  {
    if Stale(s.uploads[u], now)
    then s.(uploads := s.uploads[u := s.uploads[u].(state := Expired)], files := DropFiles(s.files, u)) else s
  }

  /** Every stale upload, oldest first. */
  function CleanupExpired(s: Store, upTo: nat, now: Time): (t: Store)
    requires upTo <= |s.uploads|
    ensures |t.uploads| == |s.uploads|
  {
    if upTo == 0 then s else ExpireOne(CleanupExpired(s, upTo - 1, now), upTo - 1, now)
  }

  datatype Op =
    | Begin(asset: AssetId, actor: OwnerId, size: nat, sha: Digest)
    | Put(upload: UploadId, owner: OwnerId, part: int, data: Bytes, declared: Digest)
    | Complete(upload: UploadId, owner: OwnerId)
    | Abort(upload: UploadId, owner: OwnerId)
    | Cleanup
    | AddAsset(asset: AssetId, owner: OwnerId, size: nat, known: Option<Digest>)
    | RemoveAsset(asset: AssetId)

  function Perform(s: Store, op: Op, now: Time, cfg: Settings): Store {
    match op
    case Begin(a, actor, size, sha) => BeginUpload(s, a, actor, size, sha, now, cfg).0
    case Put(u, owner, k, data, declared) => PutPart(s, u, owner, k, data, declared, now, cfg.ttl).0
    case Complete(u, owner) => CompleteUpload(s, u, owner, now).0
    case Abort(u, owner) => AbortUpload(s, u, owner, now).0
    case Cleanup => CleanupExpired(s, |s.uploads|, now)
    case AddAsset(a, owner, size, sha) => if a in s.assets then s else s.(assets := s.assets[a := Asset(owner, size, sha, None)])
    case RemoveAsset(a) => s.(assets := s.assets - {a})
  }

  // --------------------------------------------------------------- invariant

  ghost predicate VersionOk(s: Store, v: VersionId)
    requires v < |s.versions|
  {
    var row := s.versions[v];
    row.key in s.objects && |s.objects[row.key]| == row.size && Sha256(s.objects[row.key]) == row.sha == row.key
  }

  ghost predicate PartOk(s: Store, u: UploadId, k: nat)
    requires u < |s.uploads| && k in s.uploads[u].parts
  {
    var up := s.uploads[u];
    up.partSize > 0 && k < PutTotal(up.size, up.partSize)
    && (u, k) in s.files && up.parts[k] == PartRow(|s.files[(u, k)]|, Sha256(s.files[(u, k)]))
    && |s.files[(u, k)]| == Required(up.size, up.partSize, k)
  }

  ghost predicate Names(versions: seq<Version>, up: Upload) {
    up.version.Some? && up.version.value < |versions|
    && versions[up.version.value].sha == up.sha && versions[up.version.value].size == up.size
  }

  /** A live upload's part rows describe its part files; a committed one names its version. */
  ghost predicate UploadOk(s: Store, u: UploadId)
    requires u < |s.uploads|
  {
    var up := s.uploads[u];
    && up.partSize > 0
    && (up.state.Uploading? ==> forall k: nat :: k in up.parts ==> PartOk(s, u, k))
    && (up.state.Committed? ==> Names(s.versions, up))
  }

  ghost predicate ObjectsOk(objects: map<Digest, Bytes>) {
    forall d :: d in objects ==> objects[d] == d.of
  }

  ghost predicate NumbersRise(versions: seq<Version>) {
    forall v, w :: 0 <= v < w < |versions| && versions[v].asset == versions[w].asset ==> versions[v].number < versions[w].number
  }

  ghost predicate Sound(s: Store) {
    && (forall u :: 0 <= u < |s.uploads| ==> UploadOk(s, u))
    && (forall v :: 0 <= v < |s.versions| ==> VersionOk(s, v))
    && ObjectsOk(s.objects) && NumbersRise(s.versions)
  }

  lemma CommitKeeps(s: Store, a: AssetId, key: Digest, size: nat, sha: Digest)
    requires Sound(s) && a in s.assets && key in s.objects && sha == key && size == |key.of|
    ensures Sound(CommitVersion(s, a, key, size, sha))
  {
    var t := CommitVersion(s, a, key, size, sha);
    forall u | 0 <= u < |t.uploads| ensures UploadOk(t, u) {
      assert UploadOk(s, u);
      forall k: nat | k in t.uploads[u].parts && t.uploads[u].state.Uploading? ensures PartOk(t, u, k) { assert PartOk(s, u, k); }
    }
    forall v | 0 <= v < |t.versions| ensures VersionOk(t, v) { assert v < |s.versions| ==> VersionOk(s, v); }
  }

  ghost predicate SameUpload(s: Store, t: Store, q: UploadId) {
    q < |s.uploads| && q < |t.uploads| && t.uploads[q] == s.uploads[q]
  }

  /** A new upload row, or one row rewritten with the files of that upload alone. */
  lemma RowMoves(s: Store, t: Store, u: UploadId)
    requires Sound(s) && u < |t.uploads| && |s.uploads| <= |t.uploads| <= |s.uploads| + 1
    requires forall q :: 0 <= q < |t.uploads| && q != u ==> SameUpload(s, t, q)
    requires forall f :: f in s.files && f.0 != u ==> f in t.files && t.files[f] == s.files[f]
    requires t.objects == s.objects && t.versions == s.versions && UploadOk(t, u)
    ensures Sound(t)
  {
    forall q | 0 <= q < |t.uploads| ensures UploadOk(t, q) {
      if q != u {
        assert SameUpload(s, t, q) && UploadOk(s, q);
        forall k: nat | k in t.uploads[q].parts && t.uploads[q].state.Uploading? ensures PartOk(t, q, k) { assert PartOk(s, q, k); }
      }
    }
    forall v | 0 <= v < |t.versions| ensures VersionOk(t, v) { assert VersionOk(s, v); }
  }

  lemma BeginKeeps(s: Store, a: AssetId, actor: OwnerId, size: nat, sha: Digest, now: Time, cfg: Settings)
    requires Sound(s) && cfg.Ok()
    ensures Sound(BeginUpload(s, a, actor, size, sha, now, cfg).0)
  {
    var (t, out) := BeginUpload(s, a, actor, size, sha, now, cfg);
    if out.Success? && out.value.deduplicated {
      var v := FindDuplicate(s.versions, s.assets[a].owner, size, sha);
      assert VersionOk(s, v);
      var mid := CommitVersion(s, a, s.versions[v].key, size, sha);
      CommitKeeps(s, a, s.versions[v].key, size, sha);
      RowMoves(mid, t, |s.uploads|);
    } else if out.Success? && !out.value.resumed {
      RowMoves(s, t, |s.uploads|);
    }
  }

  lemma PutKeeps(s: Store, u: UploadId, owner: OwnerId, k: int, data: Bytes, declared: Digest, now: Time, ttl: int)
    requires Sound(s)
    ensures Sound(PutPart(s, u, owner, k, data, declared, now, ttl).0)
  {
    var (t, out) := PutPart(s, u, owner, k, data, declared, now, ttl);
    if out.Success? {
      assert UploadOk(s, u);
      forall j: nat | j in t.uploads[u].parts ensures PartOk(t, u, j) { assert j != k ==> PartOk(s, u, j); }
      RowMoves(s, t, u);
    }
  }

  lemma KeepKeeps(s: Store, content: Bytes)
    requires Sound(s)
    ensures Sound(s.(objects := Keep(s.objects, content)))
  {
    var t := s.(objects := Keep(s.objects, content));
    forall u | 0 <= u < |t.uploads| ensures UploadOk(t, u) {
      assert UploadOk(s, u);
      forall k: nat | k in t.uploads[u].parts && t.uploads[u].state.Uploading? ensures PartOk(t, u, k) { assert PartOk(s, u, k); }
    }
    forall v | 0 <= v < |t.versions| ensures VersionOk(t, v) { assert VersionOk(s, v); }
  }

  lemma CompleteKeeps(s: Store, u: UploadId, owner: OwnerId, now: Time)
    requires Sound(s)
    ensures Sound(CompleteUpload(s, u, owner, now).0)
  {
    var (t, out) := CompleteUpload(s, u, owner, now);
    if t != s {
      var up := s.uploads[u];
      var content := Assemble(s.files, u, CompleteTotal(up.size, up.partSize));
      var stored := s.(objects := Keep(s.objects, content));
      KeepKeeps(s, content);
      if up.asset in s.assets {
        CommitKeeps(stored, up.asset, up.sha, up.size, up.sha);
        assert UploadOk(s, u);
        RowMoves(CommitVersion(stored, up.asset, up.sha, up.size, up.sha), t, u);
      }
    }
  }

  lemma {:induction false} CleanupKeeps(s: Store, upTo: nat, now: Time)
    requires Sound(s) && upTo <= |s.uploads|
    ensures Sound(CleanupExpired(s, upTo, now))
  {
    if upTo > 0 {
      CleanupKeeps(s, upTo - 1, now);
      var mid := CleanupExpired(s, upTo - 1, now);
      assert UploadOk(mid, upTo - 1);
      RowMoves(mid, ExpireOne(mid, upTo - 1, now), upTo - 1);
    }
  }

  lemma AssetsAside(s: Store, t: Store)
    requires Sound(s) && t == s.(assets := t.assets)
    ensures Sound(t)
  {
    forall u | 0 <= u < |t.uploads| ensures UploadOk(t, u) {
      assert UploadOk(s, u);
      forall k: nat | k in t.uploads[u].parts && t.uploads[u].state.Uploading? ensures PartOk(t, u, k) { assert PartOk(s, u, k); }
    }
    forall v | 0 <= v < |t.versions| ensures VersionOk(t, v) { assert VersionOk(s, v); }
  }

  /** Every operation keeps every version row matching the object it names. */
  lemma PerformKeepsSound(s: Store, op: Op, now: Time, cfg: Settings)
    requires Sound(s) && cfg.Ok()
    ensures Sound(Perform(s, op, now, cfg))
  {
    match op
    case Begin(a, actor, size, sha) => BeginKeeps(s, a, actor, size, sha, now, cfg);
    case Put(u, owner, k, data, declared) => PutKeeps(s, u, owner, k, data, declared, now, cfg.ttl);
    case Complete(u, owner) => CompleteKeeps(s, u, owner, now);
    case Abort(u, owner) =>
      if AbortUpload(s, u, owner, now).1 {
        assert UploadOk(s, u);
        RowMoves(s, Perform(s, op, now, cfg), u);
      }
    case Cleanup => CleanupKeeps(s, |s.uploads|, now);
    case AddAsset(_, _, _, _) => AssetsAside(s, Perform(s, op, now, cfg));
    case RemoveAsset(_) => AssetsAside(s, Perform(s, op, now, cfg));
  }

  // -------------------------------------------------------------- round trip

  /** What is on disk for the upload so far are chunks of this file. */
  ghost predicate HoldsChunks(s: Store, u: UploadId, b: Bytes) {
    u < |s.uploads| && s.uploads[u].partSize > 0
    && s.uploads[u].size == |b| && s.uploads[u].sha == Sha256(b) && s.uploads[u].state.Uploading?
    && forall k :: k in s.uploads[u].parts ==> ChunkOnDisk(s, u, b, k)
  }

  ghost predicate ChunkOnDisk(s: Store, u: UploadId, b: Bytes, k: nat)
    requires u < |s.uploads| && s.uploads[u].partSize > 0 && k in s.uploads[u].parts
  {
    k < CompleteTotal(|b|, s.uploads[u].partSize)
    && var chunk := Slice(b, s.uploads[u].partSize, k);
       (u, k) in s.files && s.files[(u, k)] == chunk && s.uploads[u].parts[k] == PartRow(|chunk|, Sha256(chunk))
  }

  /** Sending chunk k of the file, whether or not it was sent before, succeeds. */
  lemma ChunkIsAccepted(s: Store, u: UploadId, owner: OwnerId, b: Bytes, k: nat, now: Time, ttl: int)
    requires HoldsChunks(s, u, b) && |b| > 0 && s.uploads[u].owner == owner && s.uploads[u].expiresAt > now
    requires k < CompleteTotal(|b|, s.uploads[u].partSize)
    ensures var chunk := Slice(b, s.uploads[u].partSize, k);
      var (t, out) := PutPart(s, u, owner, k, chunk, Sha256(chunk), now, ttl);
      out.Success? && HoldsChunks(t, u, b) && t.uploads[u].parts.Keys == s.uploads[u].parts.Keys + {k}
      && t.uploads[u] == s.uploads[u].(parts := t.uploads[u].parts, expiresAt := now + ttl)
      && t == s.(uploads := t.uploads, files := t.files)
  {
    var part := s.uploads[u].partSize;
    ChunkFits(b, part, k);
    var chunk := Slice(b, part, k);
    var t := PutPart(s, u, owner, k, chunk, Sha256(chunk), now, ttl).0;
    assert k in s.uploads[u].parts ==> ChunkOnDisk(s, u, b, k);
    forall j | j in t.uploads[u].parts ensures ChunkOnDisk(t, u, b, j) { assert j != k ==> ChunkOnDisk(s, u, b, j); }
  }

  /** One transfer: which part, and when it arrives. */
  datatype Transfer = Transfer(part: nat, at: Time)

  function SendAll(s: Store, u: UploadId, owner: OwnerId, b: Bytes, sends: seq<Transfer>, ttl: int): Store
    decreases |sends|
  {
    if |sends| == 0 || u >= |s.uploads| || s.uploads[u].partSize == 0 then s
    else
      var chunk := Slice(b, s.uploads[u].partSize, sends[0].part);
      SendAll(PutPart(s, u, owner, sends[0].part, chunk, Sha256(chunk), sends[0].at, ttl).0, u, owner, b, sends[1..], ttl)
  }

  /** No part waits longer than the upload lives. */
  predicate InTime(sends: seq<Transfer>, deadline: Time, ttl: int) {
    |sends| > 0 ==> sends[0].at < deadline && InTime(sends[1..], sends[0].at + ttl, ttl)
  }

  function Deadline(sends: seq<Transfer>, deadline: Time, ttl: int): Time {
    if |sends| == 0 then deadline else sends[|sends| - 1].at + ttl
  }

  function PartsOf(sends: seq<Transfer>): set<nat> { set j | 0 <= j < |sends| :: sends[j].part }

  /** Any order, any repeats: the parts sent are the parts held. */
  lemma {:induction false} SendsAccumulate(s: Store, u: UploadId, owner: OwnerId, b: Bytes, sends: seq<Transfer>, ttl: int)
    requires HoldsChunks(s, u, b) && |b| > 0 && s.uploads[u].owner == owner
    requires InTime(sends, s.uploads[u].expiresAt, ttl)
    requires forall j :: 0 <= j < |sends| ==> sends[j].part < CompleteTotal(|b|, s.uploads[u].partSize)
    ensures var t := SendAll(s, u, owner, b, sends, ttl);
      HoldsChunks(t, u, b) && t.uploads[u].parts.Keys == s.uploads[u].parts.Keys + PartsOf(sends)
      && t.uploads[u] == s.uploads[u].(parts := t.uploads[u].parts, expiresAt := Deadline(sends, s.uploads[u].expiresAt, ttl))
      && t == s.(uploads := t.uploads, files := t.files)
    decreases |sends|
  {
    if |sends| > 0 {
      var chunk := Slice(b, s.uploads[u].partSize, sends[0].part);
      ChunkIsAccepted(s, u, owner, b, sends[0].part, sends[0].at, ttl);
      SendsAccumulate(PutPart(s, u, owner, sends[0].part, chunk, Sha256(chunk), sends[0].at, ttl).0, u, owner, b, sends[1..], ttl);
      FirstPart(sends);
    }
  }

  lemma FirstPart(sends: seq<Transfer>)
    requires |sends| > 0
    ensures PartsOf(sends) == {sends[0].part} + PartsOf(sends[1..])
  {
    forall p | p in PartsOf(sends) ensures p == sends[0].part || p in PartsOf(sends[1..]) {
      var j :| 0 <= j < |sends| && sends[j].part == p;
      if j > 0 { assert sends[1..][j - 1].part == p; }
    }
    forall p | p in PartsOf(sends[1..]) ensures p in PartsOf(sends) {
      var j :| 0 <= j < |sends[1..]| && sends[1..][j].part == p;
      assert sends[j + 1].part == p;
    }
    assert sends[0].part in PartsOf(sends);
  }

  /** The first n chunks' worth of a file. */
  function Front(b: Bytes, part: nat, n: nat): Bytes { if |b| <= part * n then b else b[..part * n] }

  lemma NextChunk(b: Bytes, part: nat, k: nat)
    requires part > 0
    ensures Front(b, part, k) + Slice(b, part, k) == Front(b, part, k + 1)
  {
    assert part * (k + 1) == part * k + part;
  }

  /** Chunks 0..n put one after the other are the front of the file. */
  lemma {:induction false} ChunksAssemble(files: map<(UploadId, nat), Bytes>, u: UploadId, b: Bytes, part: nat, n: nat)
    requires part > 0 && forall k: nat :: k < n ==> (u, k) in files && files[(u, k)] == Slice(b, part, k)
    ensures Assemble(files, u, n) == Front(b, part, n)
  {
    if n > 0 {
      ChunksAssemble(files, u, b, part, n - 1);
      NextChunk(b, part, n - 1);
      assert (u, n - 1) in files && files[(u, n - 1)] == Slice(b, part, n - 1);
    }
  }

  /** With every chunk on disk, completion stores exactly the file. */
  lemma CompletionStoresFile(s: Store, u: UploadId, owner: OwnerId, b: Bytes, now: Time)
    requires Sound(s) && HoldsChunks(s, u, b) && |b| > 0 && s.uploads[u].owner == owner
    requires s.uploads[u].expiresAt > now && s.uploads[u].asset in s.assets
    requires forall k: nat :: k < CompleteTotal(|b|, s.uploads[u].partSize) ==> k in s.uploads[u].parts
    ensures var (t, out) := CompleteUpload(s, u, owner, now);
      out == Success(Completed(|s.versions|, false))
      && |t.versions| == |s.versions| + 1 && t.versions[|s.versions|].asset == s.uploads[u].asset
      && t.versions[|s.versions|].size == |b| && t.versions[|s.versions|].sha == Sha256(b)
      && t.versions[|s.versions|].key in t.objects && t.objects[t.versions[|s.versions|].key] == b
      && u < |t.uploads| && t.uploads[u].state.Committed? && t.uploads[u].version == Some(|s.versions|) && t.uploads[u].owner == owner
  {
    var up := s.uploads[u];
    var n := CompleteTotal(|b|, up.partSize);
    forall k | k in up.parts ensures k < n { assert ChunkOnDisk(s, u, b, k); }
    forall k: nat | k < n ensures (u, k) in s.files && s.files[(u, k)] == Slice(b, up.partSize, k) {
      assert k in up.parts;
      assert ChunkOnDisk(s, u, b, k);
    }
    CeilBounds(|b|, up.partSize);
    ChunksAssemble(s.files, u, b, up.partSize, n);
  }

  /** Completing again, at any later time, reports the same version and changes nothing. */
  lemma CompletionIsIdempotent(s: Store, u: UploadId, owner: OwnerId, now: Time, later: Time)
    requires CompleteUpload(s, u, owner, now).1.Success?
    ensures var (t, out) := CompleteUpload(s, u, owner, now);
      CompleteUpload(t, u, owner, later) == (t, Success(Completed(out.value.version, true)))
  {}

  lemma {:induction false} SendsKeepSound(s: Store, u: UploadId, owner: OwnerId, b: Bytes, sends: seq<Transfer>, ttl: int)
    requires Sound(s)
    ensures Sound(SendAll(s, u, owner, b, sends, ttl))
    decreases |sends|
  {
    if |sends| > 0 && u < |s.uploads| && s.uploads[u].partSize > 0 {
      var chunk := Slice(b, s.uploads[u].partSize, sends[0].part);
      PutKeeps(s, u, owner, sends[0].part, chunk, Sha256(chunk), sends[0].at, ttl);
      SendsKeepSound(PutPart(s, u, owner, sends[0].part, chunk, Sha256(chunk), sends[0].at, ttl).0, u, owner, b, sends[1..], ttl);
    }
  }
}
