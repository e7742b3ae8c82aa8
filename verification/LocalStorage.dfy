/**
 The file store: write-once staging files, content-addressed files that are never replaced or removed, and reads that
 refuse what is too large. Bytes arrive and are read back in chunks.
 */
module Storage {
  import opened Common
  import opened CaseModel

  function Joined(chunks: seq<Bytes>): Bytes {
    if chunks == [] then [] else Joined(chunks[..|chunks| - 1]) + chunks[|chunks| - 1]
  }

  lemma {:induction false} JoinedPrefix(chunks: seq<Bytes>, n: nat)
    requires n <= |chunks|
    ensures |Joined(chunks[..n])| <= |Joined(chunks)|
    decreases |chunks| - n
  {
    if n < |chunks| {
      assert chunks[..n + 1][..n] == chunks[..n];
      JoinedPrefix(chunks, n + 1);
    } else {
      assert chunks[..n] == chunks;
    }
  }

  class LocalStorage {
    const sha: Bytes -> Digest
    var staging: map<StageKey, Bytes>
    var contents: map<Digest, Bytes>
    /** The first bytes ever linked at each staging key. */
    ghost var first: map<StageKey, Bytes>

    constructor (sha: Bytes -> Digest)
      ensures this.sha == sha && staging == map[] && contents == map[] && first == map[]
    {
      this.sha := sha;
      staging, contents, first := map[], map[], map[];
    }

    /** Every content-addressed file holds bytes of its own hash. */
    ghost predicate Addressed()
      reads this
    {
      forall d | d in contents :: sha(contents[d]) == d
    }

    /** The stream loop of both writers: it stops as soon as the limit is passed. */
    method Receive(chunks: seq<Bytes>, limit: nat) returns (r: Result<Bytes>)
      ensures r == if |Joined(chunks)| <= limit then Ok(Joined(chunks)) else Err(StorageLimitExceeded)
    {
      var size: nat, bytes: Bytes := 0, [];
      for i := 0 to |chunks|
        invariant bytes == Joined(chunks[..i]) && size == |bytes| <= limit
      {
        assert chunks[..i + 1][..i] == chunks[..i];
        size := size + |chunks[i]|;
        if size > limit {
          JoinedPrefix(chunks, i + 1);
          return Err(StorageLimitExceeded);
        }
        bytes := bytes + chunks[i];
      }
      assert chunks[..|chunks|] == chunks;
      return Ok(bytes);
    }

    /** The first writer of a key decides its bytes for ever; a later one gets the hash of what is there. */
    method WriteOnce(chunks: seq<Bytes>, key: StageKey, limit: nat) returns (r: Result<Digest>)
      modifies this
      ensures contents == old(contents)
      ensures key in old(staging) ==>
        && staging == old(staging) && first == old(first)
        && r == if |staging[key]| <= limit then Ok(sha(staging[key])) else Err(StorageLimitExceeded)
      ensures key !in old(staging) && |Joined(chunks)| <= limit ==>
        && staging == old(staging)[key := Joined(chunks)] && r == Ok(sha(Joined(chunks)))
        && first == (if key in old(first) then old(first) else old(first)[key := Joined(chunks)])
      ensures key !in old(staging) && |Joined(chunks)| > limit ==>
        staging == old(staging) && first == old(first) && r == Err(StorageLimitExceeded)
    {
      if key in staging {
        return if |staging[key]| <= limit then Ok(sha(staging[key])) else Err(StorageLimitExceeded);
      }
      var received := Receive(chunks, limit);
      if received.Err? {
        return Err(received.error);
      }
      staging := staging[key := received.value];
      if key !in first {
        first := first[key := received.value];
      }
      return Ok(sha(received.value));
    }

    /** Bytes are stored under the hash they were announced with, or not at all. */
    method WriteContentAddressed(bytes: Bytes, expected: Digest) returns (r: Result<Digest>)
      modifies this
      ensures staging == old(staging) && first == old(first)
      ensures r.Ok? ==> r.value == expected == sha(bytes) && expected in contents
      ensures contents ==
        if sha(bytes) == expected && expected !in old(contents) then old(contents)[expected := bytes]
        else old(contents)
      ensures r.Err?
        <==> sha(bytes) != expected || (expected in old(contents) && sha(old(contents)[expected]) != expected)
      ensures old(Addressed()) ==> Addressed()
    {
      if sha(bytes) != expected {
        return Err(ContentAddressMismatch);
      }
      if expected in contents {
        return if sha(contents[expected]) == expected then Ok(expected) else Err(ContentAddressMismatch);
      }
      contents := contents[expected := bytes];
      return Ok(expected);
    }

    method ReadStaged(key: StageKey, limit: nat) returns (r: Result<Bytes>)
      ensures r == if key !in staging then Err(StorageMissing)
                   else if |staging[key]| > limit then Err(StorageLimitExceeded)
                   else Ok(staging[key])
    {
      if key !in staging {
        return Err(StorageMissing);
      }
      if |staging[key]| > limit {
        return Err(StorageLimitExceeded);
      }
      return Ok(staging[key]);
    }

    method ReadContent(d: Digest, limit: nat) returns (r: Result<Bytes>)
      ensures r == if d !in contents then Err(StorageMissing)
                   else if |contents[d]| > limit then Err(StorageLimitExceeded)
                   else Ok(contents[d])
    {
      if d !in contents {
        return Err(StorageMissing);
      }
      if |contents[d]| > limit {
        return Err(StorageLimitExceeded);
      }
      return Ok(contents[d]);
    }

    /** Staged files can be removed, as often as one likes; their first bytes stay on record. */
    method RemoveStaged(key: StageKey)
      modifies this`staging
      ensures staging == old(staging) - {key}
    {
      staging := staging - {key};
    }
  }
}
