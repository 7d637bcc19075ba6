/**
  The object store in place: each statement and loop of the upload path, proved
  against the functions of `AssetObjects`.
*/
module AssetObjectStore {
  import opened Wrappers
  import opened AssetObjects

  /** The object store of one Server: rows and files, updated statement by statement. */
  class ObjectStore {
    var uploads: seq<Upload>
    var files: map<(UploadId, nat), Bytes>
    var objects: map<Digest, Bytes>
    var versions: seq<Version>
    var assets: map<AssetId, Asset>

    function State(): Store
      reads this
    {
      Store(uploads, files, objects, versions, assets)
    }

    constructor ()
      ensures State() == Store([], map[], map[], [], map[]) && Sound(State())
    {
      uploads, files, objects, versions, assets := [], map[], map[], [], map[];
    }

    method PutPart(u: UploadId, owner: OwnerId, k: int, data: Bytes, declared: Digest, now: Time, ttl: int)
      returns (out: Result<(), ObjectError>)
      modifies this`files, this`uploads
      ensures (State(), out) == AssetObjects.PutPart(old(State()), u, owner, k, data, declared, now, ttl)
    {
      if u >= |uploads| || uploads[u].owner != owner { return Failure(NotFound); }
      var up := uploads[u];
      if !Active(up, now) || up.partSize == 0 { return Failure(NotActive); }
      var total := PutTotal(up.size, up.partSize);
      if k < 0 || k >= total { return Failure(OutOfRange); }
      var required := if k < total - 1 then up.partSize else up.size - up.partSize * k;
      if |data| != required { return Failure(SizeMismatch); }
      var actual := Sha256(data);
      if declared != actual { return Failure(ShaMismatch); }
      if k in up.parts && (up.parts[k].size != |data| || up.parts[k].sha != actual) { return Failure(DifferentContent); }
      files := files[(u, k) := data];
      uploads := uploads[u := up.(parts := up.parts[k := PartRow(|data|, actual)], expiresAt := now + ttl)];
      return Success(());
    }

    /** Copies the part files into one, a megabyte at a time, counting as it goes. */
    method AssembleParts(u: UploadId, total: nat) returns (output: Bytes, size: nat)
      requires FilesPresent(files, u, total)
      ensures output == Assemble(files, u, total) && size == |output|
    {
      output, size := [], 0;
      for number := 0 to total
        invariant output == Assemble(files, u, number) && size == |output|
      {
        ghost var before := output;
        var source, position := files[(u, number)], 0;
        while position < |source|
          invariant position <= |source| && output == before + source[..position] && size == |output|
        {
          var next := if position + 1024 * 1024 < |source| then position + 1024 * 1024 else |source|;
          var chunk := source[position..next];
          assert source[..position] + chunk == source[..next];
          output := output + chunk;
          size := size + |chunk|;
          position := next;
        }
        assert source[..position] == source;
      }
    }

    method CompleteUpload(u: UploadId, owner: OwnerId, now: Time) returns (out: Result<Completed, ObjectError>)
      modifies this
      ensures (State(), out) == AssetObjects.CompleteUpload(old(State()), u, owner, now)
    {
      if u >= |uploads| || uploads[u].owner != owner { return Failure(NotFound); }
      var up := uploads[u];
      if up.state.Committed? && up.version.Some? { return Success(Completed(up.version.value, true)); }
      if !Active(up, now) || up.partSize == 0 { return Failure(NotActive); }
      var total := CompleteTotal(up.size, up.partSize);
      if !HasAllParts(up) || !FilesPresent(files, u, total) { return Failure(MissingParts); }
      var content, size := AssembleParts(u, total);
      if size != up.size || Sha256(content) != up.sha { return Failure(ContentMismatch); }
      if up.sha in objects {
        if |objects[up.sha]| != size { return Failure(InvalidObject); }
      } else {
        objects := objects[up.sha := content];
      }
      if up.asset !in assets { return Failure(NotFound); }
      var version := CommitVersion(up.asset, up.sha, size, up.sha);
      uploads := uploads[u := up.(state := Committed, version := Some(version))];
      files := DropFiles(files, u);
      return Success(Completed(version, false));
    }

    method CommitVersion(a: AssetId, key: Digest, size: nat, sha: Digest) returns (version: VersionId)
      requires a in assets
      modifies this`versions, this`assets
      ensures State() == AssetObjects.CommitVersion(old(State()), a, key, size, sha) && version == |old(versions)|
    {
      version := |versions|;
      versions := versions + [Version(a, assets[a].owner, NextNumber(versions, a), key, size, sha)];
      assets := assets[a := assets[a].(size := size, sha := Some(sha), current := Some(version))];
    }

    /** The sweep over uploads nobody touched in time. */
    method CleanupExpired(now: Time)
      modifies this`uploads, this`files
      ensures State() == AssetObjects.CleanupExpired(old(State()), |old(uploads)|, now)
    {
      ghost var begun := State();
      for u := 0 to |uploads|
        invariant |uploads| == |begun.uploads| && State() == AssetObjects.CleanupExpired(begun, u, now)
      {
        if Stale(uploads[u], now) {
          files := DropFiles(files, u);
          uploads := uploads[u := uploads[u].(state := Expired)];
        }
      }
    }

    /** The request for one chunk, as the Server carries it out. */
    method UploadAssetPart(u: UploadId, owner: OwnerId, source: Bytes, number: nat, chunk: Bytes, now: Time, ttl: int)
      returns (sent: bool)
      requires HoldsChunks(State(), u, source) && |source| > 0 && uploads[u].owner == owner && uploads[u].expiresAt > now
      requires number < CompleteTotal(|source|, uploads[u].partSize) && chunk == Slice(source, uploads[u].partSize, number)
      modifies this`files, this`uploads
      ensures sent && HoldsChunks(State(), u, source)
      ensures uploads[u].parts.Keys == old(uploads)[u].parts.Keys + {number}
      ensures uploads[u] == old(uploads)[u].(parts := uploads[u].parts, expiresAt := now + ttl)
    {
      ChunkIsAccepted(State(), u, owner, source, number, now, ttl);
      var out := PutPart(u, owner, number, chunk, Sha256(chunk), now, ttl);
      sent := out.Success?;
    }

    /** The client's loop: reads the file chunk by chunk and sends what the Server does not
        have yet.  Whatever it was given to resume from, in the end nothing is missing. */
    method SendMissing(u: UploadId, owner: OwnerId, source: Bytes, received: set<nat>, now: Time, ttl: int)
      requires HoldsChunks(State(), u, source) && |source| > 0 && uploads[u].owner == owner
      requires received == uploads[u].parts.Keys && uploads[u].expiresAt > now && ttl > 0
      modifies this`files, this`uploads
      ensures HoldsChunks(State(), u, source) && uploads[u].expiresAt > now
      ensures uploads[u] == old(uploads)[u].(parts := uploads[u].parts, expiresAt := uploads[u].expiresAt)
      ensures forall k: nat :: k < CompleteTotal(|source|, uploads[u].partSize) ==> k in uploads[u].parts
    {
      var part := uploads[u].partSize;
      var position, number := 0, 0;
      while position < |source|
        invariant position == Position(|source|, part, number)
        invariant HoldsChunks(State(), u, source) && uploads[u].expiresAt > now
        invariant uploads[u] == old(uploads)[u].(parts := uploads[u].parts, expiresAt := uploads[u].expiresAt)
        invariant received <= uploads[u].parts.Keys && forall k: nat :: k < number ==> k in uploads[u].parts
        decreases |source| - position
      {
        ReadIsSlice(source, part, number);
        var next := if position + part < |source| then position + part else |source|;
        var chunk := source[position..next];
        if number !in received {
          var sent := UploadAssetPart(u, owner, source, number, chunk, now, ttl);
          if !sent { return; }
        }
        position, number := next, number + 1;
      }
      NothingLeft(|source|, part, number);
    }
  }

  /** Where the file position is after so many reads. */
  function Position(size: nat, part: nat, number: nat): (position: nat)
    ensures position <= size
  {
    if number == 0 then 0
    else
      var before := Position(size, part, number - 1);
      if before + part < size then before + part else size
  }

  lemma {:induction false} PositionIs(size: nat, part: nat, number: nat)
    requires part > 0
    ensures Position(size, part, number) == if part * number < size then part * number else size
  {
    if number > 0 {
      PositionIs(size, part, number - 1);
      assert part * number == part * (number - 1) + part;
    }
  }

  lemma ReadIsSlice(source: Bytes, part: nat, number: nat)
    requires part > 0 && Position(|source|, part, number) < |source|
    ensures source[Position(|source|, part, number)..Position(|source|, part, number + 1)] == Slice(source, part, number)
    ensures number < CompleteTotal(|source|, part)
  {
    PositionIs(|source|, part, number);
    PositionIs(|source|, part, number + 1);
    assert part * (number + 1) == part * number + part;
    NumberInRange(|source|, part, number);
  }

  lemma NothingLeft(size: nat, part: nat, number: nat)
    requires part > 0 && size > 0 && Position(size, part, number) == size
    ensures number >= CompleteTotal(size, part)
  {
    PositionIs(size, part, number);
    ReachedEnd(size, part, number);
  }
}
