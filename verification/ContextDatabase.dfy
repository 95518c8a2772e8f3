/**
 * The context database as the store updates it: tables changed row by row inside a
 * transaction that is rolled back on any error. Every operation is proved to compute
 * the transaction function of the context store.
 */
module ContextDatabase {
  import opened Wrappers
  import opened ContextStore

  lemma {:induction false} PagesOfError(s: Store, hs: seq<Hash>)
    ensures PagesOf(s, hs).Err? ==> PagesOf(s, hs) == Err(Corrupt)
    ensures PagesOf(s, hs).Ok? ==> |PagesOf(s, hs).value| == |hs|
  {
    if hs != [] {
      PagesOfError(s, hs[..|hs| - 1]);
    }
  }

  /** One unreadable or mis-sized page spoils the whole list. */
  lemma {:induction false} PagesOfSpoilt(s: Store, hs: seq<Hash>, i: nat)
    requires i < |hs|
    ensures PageOf(s, hs[i]).Err? ==> PagesOf(s, hs) == Err(Corrupt)
    ensures PageOf(s, hs[i]).Ok? && PagesOf(s, hs).Ok? ==>
              |PagesOf(s, hs).value| == |hs| && PagesOf(s, hs).value[i] == PageOf(s, hs[i]).value
  {
    PagesOfError(s, hs);
    PagesOfError(s, hs[..|hs| - 1]);
    if i < |hs| - 1 {
      PagesOfSpoilt(s, hs[..|hs| - 1], i);
    }
  }

  lemma PagesOfSnoc(s: Store, pages: seq<Page>, i: nat)
    requires i < |pages|
    ensures HashesOf(pages[..i + 1]) == HashesOf(pages[..i]) + [pages[i].hash]
    ensures PagesOf(s, HashesOf(pages[..i])) == Ok(pages[..i]) && PageOf(s, pages[i].hash) == Ok(pages[i]) ==>
              PagesOf(s, HashesOf(pages[..i + 1])) == Ok(pages[..i + 1])
  {
    assert HashesOf(pages[..i + 1])[..i] == HashesOf(pages[..i]);
    assert pages[..i + 1] == pages[..i] + [pages[i]];
  }

  class Database {
    const codec: Codec
    var blobs: map<Hash, Bytes>
    var contexts: map<ContextId, Context>
    var checkpoints: set<(ContextId, Hash)>
    var artifacts: set<(ContextId, Hash)>
    var operations: map<(ContextId, string), OpRow>
    var commits: seq<Commit>

    function Now(): Store
      reads this
    {
      Store(codec, blobs, contexts, checkpoints, artifacts, operations, commits)
    }

    constructor (codec: Codec)
      requires Sound(codec)
      ensures this.codec == codec && WF(Now())
      ensures View(Now()) == Abs(map[], map[], map[])
    {
      this.codec := codec;
      blobs, contexts, checkpoints, artifacts, operations, commits := map[], map[], {}, {}, map[], [];
    }

    method Rollback(s: Store)
      requires s.codec == codec
      modifies this
      ensures Now() == s
    {
      blobs, contexts, checkpoints := s.blobs, s.contexts, s.checkpoints;
      artifacts, operations, commits := s.artifacts, s.operations, s.commits;
    }

    method PutBlob(data: Bytes) returns (r: Result<Hash, Error>)
      modifies this`blobs
      ensures match r
              case Ok(h) => ContextStore.PutBlob(old(Now()), data) == Ok((Now(), h))
              case Err(e) => ContextStore.PutBlob(old(Now()), data) == Err(e)
    {
      var h := codec.hash(data);
      if h !in blobs {
        blobs := blobs[h := data];
      }
      if codec.hash(blobs[h]) != h {
        return Err(Corrupt);
      }
      return Ok(h);
    }

    method DoAppend(id: ContextId, data: Bytes) returns (r: Result<string, Error>)
      requires id in contexts
      modifies this`blobs, this`contexts
      ensures match r
              case Ok(h) => AppendEffect(old(Now()), id, data) == Ok((Now(), h))
              case Err(e) => AppendEffect(old(Now()), id, data) == Err(e)
    {
      var previous := "";
      if contexts[id].tail.Some? {
        previous :- Blob(Now(), contexts[id].tail.value);
      }
      var h :- PutBlob(previous + data);
      contexts := contexts[id := contexts[id].(tail := Some(h))];
      return Ok(h);
    }

    method DoFork(id: ContextId, childOwner: string, child: ContextId) returns (r: Result<string, Error>)
      requires id in contexts
      modifies this`contexts
      ensures match r
              case Ok(h) => ForkEffect(old(Now()), id, childOwner, child) == Ok((Now(), h))
              case Err(e) => ForkEffect(old(Now()), id, childOwner, child) == Err(e)
    {
      if child in contexts {
        return Err(IdTaken);
      }
      contexts := contexts[child := Context(childOwner, [], None)];
      var parent := contexts[id];
      if parent.tail.Some? {
        parent := parent.(pages := parent.pages + [parent.tail.value], tail := None);
      }
      contexts := contexts[id := parent];
      contexts := contexts[child := contexts[child].(pages := parent.pages)];
      assert contexts == old(contexts)[id := Sealed(old(contexts[id]))][child := Context(childOwner, parent.pages, None)];
      return Ok(child);
    }

    method Snapshot(id: ContextId) returns (r: Result<Snapshot, Error>)
      requires id in contexts
      ensures r == SnapshotOf(Now(), id)
    {
      var hashes := contexts[id].pages;
      var prefix: seq<Page> := [];
      for i := 0 to |hashes|
        invariant PagesOf(Now(), hashes[..i]) == Ok(prefix)
      {
        assert hashes[..i + 1][..i] == hashes[..i];
        var blob := Blob(Now(), hashes[i]);
        if blob.Err? {
          PagesOfSpoilt(Now(), hashes, i);
          return Err(Corrupt);
        }
        prefix := prefix + [Page(hashes[i], |blob.value|)];
      }
      assert hashes[..|hashes|] == hashes;
      if contexts[id].tail.None? {
        return Ok(ContextStore.Snapshot(id, prefix, None));
      }
      var last :- Blob(Now(), contexts[id].tail.value);
      return Ok(ContextStore.Snapshot(id, prefix, Some(Page(contexts[id].tail.value, |last|))));
    }

    method DoCheckpoint(id: ContextId) returns (r: Result<string, Error>)
      requires id in contexts
      modifies this`blobs, this`checkpoints
      ensures match r
              case Ok(h) => CheckpointEffect(old(Now()), id) == Ok((Now(), h))
              case Err(e) => CheckpointEffect(old(Now()), id) == Err(e)
    {
      var snap :- Snapshot(id);
      var h :- PutBlob(codec.encode(snap));
      checkpoints := checkpoints + {(id, h)};
      return Ok(h);
    }

    method DoRestore(id: ContextId, checkpoint: Hash) returns (r: Result<string, Error>)
      requires id in contexts
      modifies this`contexts
      ensures match r
              case Ok(h) => RestoreEffect(old(Now()), id, checkpoint) == Ok((Now(), h))
              case Err(e) => RestoreEffect(old(Now()), id, checkpoint) == Err(e)
    {
      ghost var s := Now();
      if (id, checkpoint) !in checkpoints {
        return Err(Access);
      }
      var data :- Blob(Now(), checkpoint);
      var decoded := codec.decode(data);
      if decoded.None? || decoded.value.contextId != id {
        return Err(Corrupt);
      }
      var snap := decoded.value;
      contexts := contexts[id := contexts[id].(pages := [])];
      var ok := InsertPages(id, snap.prefix, s);
      if !ok {
        return Err(Corrupt);
      }
      var tail: Option<Hash> := None;
      if snap.tail.Some? {
        var blob := Blob(Now(), snap.tail.value.hash);
        if blob.Err? || |blob.value| != snap.tail.value.bytes {
          return Err(Corrupt);
        }
        tail := Some(snap.tail.value.hash);
      }
      contexts := contexts[id := contexts[id].(tail := tail)];
      assert contexts == s.contexts[id := s.contexts[id].(pages := HashesOf(snap.prefix), tail := tail)];
      return Ok(checkpoint);
    }

    /** The page loop of a restore: each page is checked, then inserted. */
    method InsertPages(id: ContextId, pages: seq<Page>, ghost s: Store) returns (ok: bool)
      requires id in contexts && contexts[id].pages == [] && s.codec == codec && s.blobs == blobs
      modifies this`contexts
      ensures ok <==> PagesOf(s, HashesOf(pages)) == Ok(pages)
      ensures PagesOf(s, HashesOf(pages)).Err? ==> PagesOf(s, HashesOf(pages)) == Err(Corrupt)
      ensures ok ==> contexts == old(contexts)[id := old(contexts[id]).(pages := HashesOf(pages))]
    {
      PagesOfError(s, HashesOf(pages));
      for i := 0 to |pages|
        invariant contexts == old(contexts)[id := old(contexts[id]).(pages := HashesOf(pages[..i]))]
        invariant PagesOf(s, HashesOf(pages[..i])) == Ok(pages[..i])
      {
        PagesOfSnoc(s, pages, i);
        var blob := Blob(Now(), pages[i].hash);
        if blob.Err? || |blob.value| != pages[i].bytes {
          PagesOfSpoilt(s, HashesOf(pages), i);
          return false;
        }
        contexts := contexts[id := contexts[id].(pages := contexts[id].pages + [pages[i].hash])];
      }
      assert pages[..|pages|] == pages;
      return true;
    }

    method DoArtifact(id: ContextId, data: Bytes) returns (r: Result<string, Error>)
      modifies this`blobs, this`artifacts
      ensures match r
              case Ok(h) => ArtifactEffect(old(Now()), id, data) == Ok((Now(), h))
              case Err(e) => ArtifactEffect(old(Now()), id, data) == Err(e)
    {
      var h :- PutBlob(data);
      artifacts := artifacts + {(id, h)};
      return Ok(h);
    }

    method Perform(op: Op) returns (r: Result<string, Error>)
      requires !op.Create? && op.id in contexts
      modifies this
      ensures match r
              case Ok(h) => Effect(old(Now()), op) == Ok((Now(), h))
              case Err(e) => Effect(old(Now()), op) == Err(e)
    {
      match op
      case Append(_, id, _, data) => r := DoAppend(id, data);
      case Fork(_, id, childOwner, _, child) => r := DoFork(id, childOwner, child);
      case Checkpoint(_, id, _) => r := DoCheckpoint(id);
      case Restore(_, id, _, checkpoint) => r := DoRestore(id, checkpoint);
      case Artifact(_, id, _, data) => r := DoArtifact(id, data);
    }

    /** `mutate`: gate, effect, the two log rows, and rollback if the effect failed. */
    method Mutate(op: Op) returns (r: Result<string, Error>)
      requires !op.Create?
      modifies this
      ensures Now() == After(old(Now()), op)
      ensures r == var a := Apply(old(Now()), op); if a.Ok? then Ok(a.value.1) else Err(a.error)
    {
      if op.Fork? && IsBlank(op.childOwner) {
        return Err(Access);
      }
      var begun := Now();
      var gate :- Enter(begun, op.owner, op.id, op.key, op.Kind(), op.Input());
      if gate.Replay? {
        return Ok(gate.result);
      }
      r := Perform(op);
      if r.Err? {
        Rollback(begun);
        return;
      }
      operations := operations[(op.id, op.key) := OpRow(gate.digest, r.value)];
      commits := commits + [Commit(|commits| + 1, op.id, op.Kind(), r.value, op.key)];
    }

    method Commits(owner: string, id: ContextId, after: int, limit: int) returns (r: Result<seq<Commit>, Error>)
      ensures r == ContextStore.Commits(Now(), owner, id, after, limit)
    {
      if after < 0 || limit < 1 || limit > 1000 {
        return Err(BadCursor);
      }
      if owner == "" || id !in contexts || contexts[id].owner != owner {
        return Err(Access);
      }
      var page := [];
      for i := 0 to |commits|
        invariant page == Select(commits[..i], id, after) && |page| < limit
      {
        assert commits[..i + 1][..i] == commits[..i];
        if commits[i].context == id && commits[i].cursor > after {
          page := page + [commits[i]];
          if |page| == limit {
            assert page == Select(commits[..i + 1], id, after);
            SelectGrows(commits[..i + 1], commits, id, after);
            assert page == Select(commits, id, after)[..limit];
            return Ok(page);
          }
        }
      }
      assert commits[..|commits|] == commits;
      assert page == page[..|page|];
      return Ok(page);
    }
  }
}
