/**
 * The context store: content-addressed blobs, copy-on-write fork,
 * checkpoint and restore, idempotent mutation and the commit log.
 */
module ContextStore {
  import opened Wrappers

  /** One character per byte. */
  type Bytes = string
  type Hash = string
  type ContextId = string

  datatype Page = Page(hash: Hash, bytes: nat)

  /** A checkpoint's content: which pages a context had. */
  datatype Snapshot = Snapshot(contextId: ContextId, prefix: seq<Page>, tail: Option<Page>)

  /** SHA-256 and the JSON form of snapshots. */
  datatype Codec = Codec(hash: Bytes -> Hash, encode: Snapshot -> Bytes, decode: Bytes -> Option<Snapshot>)

  /** Collision resistance, and decoding undoes encoding. */
  ghost predicate Sound(c: Codec) {
    && (forall a, b {:trigger c.hash(a), c.hash(b)} :: c.hash(a) == c.hash(b) ==> a == b)
    && forall s :: c.decode(c.encode(s)) == Some(s)
  }

  datatype Context = Context(owner: string, pages: seq<Hash>, tail: Option<Hash>)

  datatype Kind = AppendKind | ForkKind | CheckpointKind | RestoreKind | ArtifactKind

  datatype OpRow = OpRow(digest: Hash, result: string)

  datatype Commit = Commit(cursor: nat, context: ContextId, kind: Kind, handle: string, key: string)

  datatype Store = Store(
    codec: Codec,
    blobs: map<Hash, Bytes>,
    contexts: map<ContextId, Context>,
    checkpoints: set<(ContextId, Hash)>,
    artifacts: set<(ContextId, Hash)>,
    operations: map<(ContextId, string), OpRow>,
    commits: seq<Commit>)

  datatype Error = BadKey | Access | Corrupt | IdempotencyReuse | IdTaken | BadCursor

  const MAX_KEY := 1024

  // ---- Blobs ----

  /** `contextBlob`: a blob is returned only if its content still matches its name. */
  function Blob(s: Store, h: Hash): Result<Bytes, Error> {
    if h in s.blobs && s.codec.hash(s.blobs[h]) == h then Ok(s.blobs[h]) else Err(Corrupt)
  }

  function WithBlob(s: Store, data: Bytes): Store {
    var h := s.codec.hash(data);
    if h in s.blobs then s else s.(blobs := s.blobs[h := data])
  }

  /** `putContextBlob`. */
  function PutBlob(s: Store, data: Bytes): Result<(Store, Hash), Error> {
    var h := s.codec.hash(data);
    var t := WithBlob(s, data);
    var _ :- Blob(t, h);
    Ok((t, h))
  }

  // ---- Idempotent transactions ----

  function KindName(k: Kind): Bytes {
    match k
    case AppendKind => "append"
    case ForkKind => "fork"
    case CheckpointKind => "checkpoint"
    case RestoreKind => "restore"
    case ArtifactKind => "artifact"
  }

  function Digest(s: Store, k: Kind, input: Bytes): Hash {
    s.codec.hash(KindName(k) + "\0" + input)
  }

  datatype Gate = Replay(result: string) | Proceed(digest: Hash)

  /** The checks `mutate` makes before running an operation. */
  function Enter(s: Store, owner: string, id: ContextId, key: string, k: Kind, input: Bytes): Result<Gate, Error> {
    if key == "" || |key| > MAX_KEY then Err(BadKey)
    else if owner == "" || id !in s.contexts || s.contexts[id].owner != owner then Err(Access)
    else
      var d := Digest(s, k, input);
      if (id, key) in s.operations then
        if s.operations[(id, key)].digest != d then Err(IdempotencyReuse) else Ok(Replay(s.operations[(id, key)].result))
      else Ok(Proceed(d))
  }

  /** Binds the key to its input and result and logs the commit. */
  function Seal(s: Store, id: ContextId, key: string, k: Kind, digest: Hash, result: string): Store {
    s.(operations := s.operations[(id, key) := OpRow(digest, result)],
       commits := s.commits + [Commit(|s.commits| + 1, id, k, result, key)])
  }

  // ---- Operations ----

  datatype Op =
    | Create(owner: string, prefix: Bytes, id: ContextId)
    | Append(owner: string, id: ContextId, key: string, data: Bytes)
    | Fork(owner: string, id: ContextId, childOwner: string, key: string, child: ContextId)
    | Checkpoint(owner: string, id: ContextId, key: string)
    | Restore(owner: string, id: ContextId, key: string, checkpoint: Hash)
    | Artifact(owner: string, id: ContextId, key: string, data: Bytes)
  {
    function Kind(): Kind
      requires !Create?
    {
      match this
      case Append(_, _, _, _) => AppendKind
      case Fork(_, _, _, _, _) => ForkKind
      case Checkpoint(_, _, _) => CheckpointKind
      case Restore(_, _, _, _) => RestoreKind
      case Artifact(_, _, _, _) => ArtifactKind
    }

    /** What the digest covers besides the kind. */
    function Input(): Bytes
      requires !Create?
    {
      match this
      case Append(_, _, _, data) => data
      case Restore(_, _, _, checkpoint) => checkpoint
      case Artifact(_, _, _, data) => data
      case _ => ""
    }
  }

  predicate IsBlank(s: string) {
    forall i | 0 <= i < |s| :: s[i] == ' ' || s[i] == '\t' || s[i] == '\n' || s[i] == '\r'
  }

  function TailBytes(s: Store, id: ContextId): Result<Bytes, Error>
    requires id in s.contexts
  {
    match s.contexts[id].tail
    case None => Ok("")
    case Some(h) => Blob(s, h)
  }

  function AppendEffect(s: Store, id: ContextId, data: Bytes): Result<(Store, string), Error>
    requires id in s.contexts
  {
    var previous :- TailBytes(s, id);
    var (t, h) :- PutBlob(s, previous + data);
    Ok((t.(contexts := t.contexts[id := s.contexts[id].(tail := Some(h))]), h))
  }

  /** The tail, if any, becomes the last page. */
  function Sealed(c: Context): Context {
    match c.tail
    case None => c
    case Some(h) => c.(pages := c.pages + [h], tail := None)
  }

  function ForkEffect(s: Store, id: ContextId, childOwner: string, child: ContextId): Result<(Store, string), Error>
    requires id in s.contexts
  {
    if child in s.contexts then Err(IdTaken)
    else
      var sealed := Sealed(s.contexts[id]);
      Ok((s.(contexts := s.contexts[id := sealed][child := Context(childOwner, sealed.pages, None)]), child))
  }

  function PageOf(s: Store, h: Hash): Result<Page, Error> {
    var data :- Blob(s, h);
    Ok(Page(h, |data|))
  }

  function PagesOf(s: Store, hs: seq<Hash>): Result<seq<Page>, Error> {
    if hs == [] then Ok([])
    else
      var rest :- PagesOf(s, hs[..|hs| - 1]);
      var last :- PageOf(s, hs[|hs| - 1]);
      Ok(rest + [last])
  }

  /** `snapshotContext`. */
  function SnapshotOf(s: Store, id: ContextId): Result<Snapshot, Error>
    requires id in s.contexts
  {
    var prefix :- PagesOf(s, s.contexts[id].pages);
    match s.contexts[id].tail
    case None => Ok(Snapshot(id, prefix, None))
    case Some(h) => var tail :- PageOf(s, h); Ok(Snapshot(id, prefix, Some(tail)))
  }

  function CheckpointEffect(s: Store, id: ContextId): Result<(Store, string), Error>
    requires id in s.contexts
  {
    var snap :- SnapshotOf(s, id);
    var (t, h) :- PutBlob(s, s.codec.encode(snap));
    Ok((t.(checkpoints := t.checkpoints + {(id, h)}), h))
  }

  function HashesOf(ps: seq<Page>): seq<Hash> {
    seq(|ps|, i requires 0 <= i < |ps| => ps[i].hash)
  }

  function RestoreEffect(s: Store, id: ContextId, checkpoint: Hash): Result<(Store, string), Error>
    requires id in s.contexts
  {
    if (id, checkpoint) !in s.checkpoints then Err(Access)
    else
      var data :- Blob(s, checkpoint);
      var decoded := s.codec.decode(data);
      if decoded.None? || decoded.value.contextId != id then Err(Corrupt)
      else
        var snap := decoded.value;
        var pages :- PagesOf(s, HashesOf(snap.prefix));
        if pages != snap.prefix then Err(Corrupt)
        else
          match snap.tail
          case None => Ok((s.(contexts := s.contexts[id := s.contexts[id].(pages := HashesOf(snap.prefix), tail := None)]), checkpoint))
          case Some(p) =>
            var tail :- PageOf(s, p.hash);
            if tail != p then Err(Corrupt)
            else Ok((s.(contexts := s.contexts[id := s.contexts[id].(pages := HashesOf(snap.prefix), tail := Some(p.hash))]), checkpoint))
  }

  function ArtifactEffect(s: Store, id: ContextId, data: Bytes): Result<(Store, string), Error> {
    var (t, h) :- PutBlob(s, data);
    Ok((t.(artifacts := t.artifacts + {(id, h)}), h))
  }

  function Effect(s: Store, op: Op): Result<(Store, string), Error>
    requires !op.Create? && op.id in s.contexts
  {
    match op
    case Append(_, id, _, data) => AppendEffect(s, id, data)
    case Fork(_, id, childOwner, _, child) => ForkEffect(s, id, childOwner, child)
    case Checkpoint(_, id, _) => CheckpointEffect(s, id)
    case Restore(_, id, _, checkpoint) => RestoreEffect(s, id, checkpoint)
    case Artifact(_, id, _, data) => ArtifactEffect(s, id, data)
  }

  function CreateContext(s: Store, owner: string, prefix: Bytes, id: ContextId): Result<(Store, string), Error> {
    if IsBlank(owner) then Err(Access)
    else if id in s.contexts then Err(IdTaken)
    else if prefix == "" then Ok((s.(contexts := s.contexts[id := Context(owner, [], None)]), id))
    else
      var (t, h) :- PutBlob(s, prefix);
      Ok((t.(contexts := t.contexts[id := Context(owner, [h], None)]), id))
  }

  /** One transaction. An error leaves the store as it was. */
  function Apply(s: Store, op: Op): Result<(Store, string), Error> {
    if op.Create? then CreateContext(s, op.owner, op.prefix, op.id)
    else if op.Fork? && IsBlank(op.childOwner) then Err(Access)
    else
      var gate :- Enter(s, op.owner, op.id, op.key, op.Kind(), op.Input());
      match gate
      case Replay(result) => Ok((s, result))
      case Proceed(digest) =>
        var (t, r) :- Effect(s, op);
        Ok((Seal(t, op.id, op.key, op.Kind(), digest, r), r))
  }

  // ---- Well-formed stores ----

  ghost predicate BlobsOk(c: Codec, blobs: map<Hash, Bytes>) {
    forall h | h in blobs :: c.hash(blobs[h]) == h
  }

  predicate Held(blobs: map<Hash, Bytes>, hs: seq<Hash>) {
    forall i | 0 <= i < |hs| :: hs[i] in blobs
  }

  predicate RefsOk(blobs: map<Hash, Bytes>, c: Context) {
    Held(blobs, c.pages) && (c.tail.Some? ==> c.tail.value in blobs)
  }

  ghost predicate ContextsOk(blobs: map<Hash, Bytes>, contexts: map<ContextId, Context>) {
    forall id {:trigger RefsOk(blobs, contexts[id])} | id in contexts :: RefsOk(blobs, contexts[id])
  }

  predicate PageOk(blobs: map<Hash, Bytes>, p: Page) {
    p.hash in blobs && |blobs[p.hash]| == p.bytes
  }

  /** The pages a snapshot names are all present with their recorded sizes. */
  ghost predicate SnapshotOk(blobs: map<Hash, Bytes>, snap: Snapshot) {
    && (forall i | 0 <= i < |snap.prefix| :: PageOk(blobs, snap.prefix[i]))
    && (snap.tail.Some? ==> PageOk(blobs, snap.tail.value))
  }

  ghost predicate CheckpointOk(c: Codec, blobs: map<Hash, Bytes>, id: ContextId, h: Hash) {
    && h in blobs && c.decode(blobs[h]).Some?
    && c.decode(blobs[h]).value.contextId == id
    && SnapshotOk(blobs, c.decode(blobs[h]).value)
  }

  ghost predicate CheckpointsOk(c: Codec, blobs: map<Hash, Bytes>, checkpoints: set<(ContextId, Hash)>) {
    forall p {:trigger CheckpointOk(c, blobs, p.0, p.1)} | p in checkpoints :: CheckpointOk(c, blobs, p.0, p.1)
  }

  /** Every reference in the store resolves. */
  ghost predicate Core(s: Store) {
    && Sound(s.codec) && BlobsOk(s.codec, s.blobs) && ContextsOk(s.blobs, s.contexts)
    && CheckpointsOk(s.codec, s.blobs, s.checkpoints)
  }

  // ---- What a context holds ----

  function Join(blobs: map<Hash, Bytes>, hs: seq<Hash>): Bytes
    requires Held(blobs, hs)
  {
    if hs == [] then "" else Join(blobs, hs[..|hs| - 1]) + blobs[hs[|hs| - 1]]
  }

  /** The bytes of a context: its pages followed by its tail. */
  function Content(blobs: map<Hash, Bytes>, c: Context): Bytes
    requires RefsOk(blobs, c)
  {
    Join(blobs, c.pages) + (if c.tail.Some? then blobs[c.tail.value] else "")
  }

  /** The context a snapshot describes. */
  function Recalled(owner: string, snap: Snapshot): Context {
    Context(owner, HashesOf(snap.prefix), if snap.tail.Some? then Some(snap.tail.value.hash) else None)
  }

  ghost predicate Extends(a: map<Hash, Bytes>, b: map<Hash, Bytes>) {
    forall h | h in a :: h in b && b[h] == a[h]
  }

  lemma {:induction false} JoinExtends(a: map<Hash, Bytes>, b: map<Hash, Bytes>, hs: seq<Hash>)
    requires Held(a, hs) && Extends(a, b)
    ensures Held(b, hs) && Join(b, hs) == Join(a, hs)
  {
    if hs != [] {
      JoinExtends(a, b, hs[..|hs| - 1]);
    }
  }

  /** Adding blobs changes no context. */
  lemma ContentExtends(a: map<Hash, Bytes>, b: map<Hash, Bytes>, c: Context)
    requires RefsOk(a, c) && Extends(a, b)
    ensures RefsOk(b, c) && Content(b, c) == Content(a, c)
  {
    JoinExtends(a, b, c.pages);
  }

  lemma SnapshotRefs(blobs: map<Hash, Bytes>, snap: Snapshot, owner: string)
    requires SnapshotOk(blobs, snap)
    ensures RefsOk(blobs, Recalled(owner, snap))
  {
    forall i | 0 <= i < |snap.prefix|
      ensures HashesOf(snap.prefix)[i] in blobs
    {
      assert PageOk(blobs, snap.prefix[i]);
    }
  }

  /** Sealing a tail into a page keeps the bytes. */
  lemma SealedContent(blobs: map<Hash, Bytes>, c: Context)
    requires RefsOk(blobs, c)
    ensures RefsOk(blobs, Sealed(c)) && Content(blobs, Sealed(c)) == Content(blobs, c)
    ensures Content(blobs, Sealed(c)) == Join(blobs, Sealed(c).pages)
  {
    if c.tail.Some? {
      assert (c.pages + [c.tail.value])[..|c.pages|] == c.pages;
    }
  }

  /** Storing a blob succeeds and only adds. */
  lemma PutBlobOk(s: Store, data: Bytes)
    requires Sound(s.codec) && BlobsOk(s.codec, s.blobs)
    ensures PutBlob(s, data) == Ok((WithBlob(s, data), s.codec.hash(data)))
    ensures var t := WithBlob(s, data);
            && t == s.(blobs := t.blobs) && Extends(s.blobs, t.blobs) && BlobsOk(t.codec, t.blobs)
            && s.codec.hash(data) in t.blobs && t.blobs[s.codec.hash(data)] == data
  {
  }

  // ---- The abstract store ----

  /** Contexts as plain byte strings, with the bytes saved under each checkpoint. */
  datatype Abs = Abs(
    owners: map<ContextId, string>,
    bytes: map<ContextId, Bytes>,
    saved: map<(ContextId, Hash), Bytes>)

  ghost function SavedBytes(c: Codec, blobs: map<Hash, Bytes>, id: ContextId, h: Hash): Bytes
    requires CheckpointOk(c, blobs, id, h)
  {
    var snap := c.decode(blobs[h]).value;
    SnapshotRefs(blobs, snap, "");
    Content(blobs, Recalled("", snap))
  }

  ghost function Owners(contexts: map<ContextId, Context>): map<ContextId, string> {
    map id | id in contexts :: contexts[id].owner
  }

  ghost function Texts(blobs: map<Hash, Bytes>, contexts: map<ContextId, Context>): map<ContextId, Bytes>
    requires ContextsOk(blobs, contexts)
  {
    map id | id in contexts :: assert RefsOk(blobs, contexts[id]); Content(blobs, contexts[id])
  }

  ghost function Saved(c: Codec, blobs: map<Hash, Bytes>, checkpoints: set<(ContextId, Hash)>): map<(ContextId, Hash), Bytes>
    requires CheckpointsOk(c, blobs, checkpoints)
  {
    map p | p in checkpoints :: assert CheckpointOk(c, blobs, p.0, p.1); SavedBytes(c, blobs, p.0, p.1)
  }

  ghost function View(s: Store): Abs
    requires Core(s)
  {
    Abs(Owners(s.contexts), Texts(s.blobs, s.contexts), Saved(s.codec, s.blobs, s.checkpoints))
  }

  /** What each operation means for plain byte strings; `r` is the name it returned. */
  ghost function AbsEffect(a: Abs, op: Op, r: string): Abs
    requires op.Create? || op.id in a.bytes
    requires op.Restore? ==> (op.id, op.checkpoint) in a.saved
  {
    match op
    case Create(owner, prefix, id) => a.(owners := a.owners[id := owner], bytes := a.bytes[id := prefix])
    case Append(_, id, _, data) => a.(bytes := a.bytes[id := a.bytes[id] + data])
    case Fork(_, id, childOwner, _, child) =>
      a.(owners := a.owners[child := childOwner], bytes := a.bytes[child := a.bytes[id]])
    case Checkpoint(_, id, _) => a.(saved := a.saved[(id, r) := a.bytes[id]])
    case Restore(_, id, _, checkpoint) => a.(bytes := a.bytes[id := a.saved[(id, checkpoint)]])
    case Artifact(_, _, _, _) => a
  }

  lemma TextsExtend(a: map<Hash, Bytes>, b: map<Hash, Bytes>, contexts: map<ContextId, Context>)
    requires Extends(a, b) && ContextsOk(a, contexts)
    ensures ContextsOk(b, contexts) && Texts(b, contexts) == Texts(a, contexts)
  {
    forall id | id in contexts
      ensures RefsOk(a, contexts[id]) && RefsOk(b, contexts[id]) && Content(b, contexts[id]) == Content(a, contexts[id])
    {
      ContentExtends(a, b, contexts[id]);
    }
  }

  lemma CheckpointExtends(c: Codec, a: map<Hash, Bytes>, b: map<Hash, Bytes>, id: ContextId, h: Hash)
    requires Extends(a, b) && CheckpointOk(c, a, id, h)
    ensures CheckpointOk(c, b, id, h) && SavedBytes(c, b, id, h) == SavedBytes(c, a, id, h)
  {
    var snap := c.decode(a[h]).value;
    assert forall i | 0 <= i < |snap.prefix| :: PageOk(a, snap.prefix[i]) ==> PageOk(b, snap.prefix[i]);
    SnapshotRefs(a, snap, "");
    ContentExtends(a, b, Recalled("", snap));
  }

  lemma SavedExtend(c: Codec, a: map<Hash, Bytes>, b: map<Hash, Bytes>, cs: set<(ContextId, Hash)>)
    requires Extends(a, b) && CheckpointsOk(c, a, cs)
    ensures CheckpointsOk(c, b, cs) && Saved(c, b, cs) == Saved(c, a, cs)
  {
    forall p | p in cs
      ensures CheckpointOk(c, a, p.0, p.1) && CheckpointOk(c, b, p.0, p.1)
      ensures SavedBytes(c, b, p.0, p.1) == SavedBytes(c, a, p.0, p.1)
    {
      CheckpointExtends(c, a, b, p.0, p.1);
    }
  }

  /** A larger blob table looks the same from above. */
  lemma ViewExtends(s: Store, blobs: map<Hash, Bytes>)
    requires Core(s) && Extends(s.blobs, blobs) && BlobsOk(s.codec, blobs)
    ensures Core(s.(blobs := blobs)) && View(s.(blobs := blobs)) == View(s)
  {
    TextsExtend(s.blobs, blobs, s.contexts);
    SavedExtend(s.codec, s.blobs, blobs, s.checkpoints);
  }

  lemma TextsRewrite(blobs: map<Hash, Bytes>, contexts: map<ContextId, Context>, id: ContextId, c: Context)
    requires ContextsOk(blobs, contexts) && RefsOk(blobs, c)
    ensures ContextsOk(blobs, contexts[id := c])
    ensures Texts(blobs, contexts[id := c]) == Texts(blobs, contexts)[id := Content(blobs, c)]
  {
    assert forall x | x in contexts :: RefsOk(blobs, contexts[x]);
  }

  /** Rewriting one context changes that context's bytes and nothing else. */
  lemma ViewRewrite(s: Store, id: ContextId, c: Context)
    requires Core(s) && RefsOk(s.blobs, c)
    ensures var t := s.(contexts := s.contexts[id := c]);
            && Core(t)
            && View(t) == View(s).(owners := View(s).owners[id := c.owner],
                                   bytes := View(s).bytes[id := Content(s.blobs, c)])
  {
    TextsRewrite(s.blobs, s.contexts, id, c);
    assert Owners(s.contexts[id := c]) == Owners(s.contexts)[id := c.owner];
  }

  // ---- Each operation does to the bytes what its abstract form says ----

  /** An effect adds blobs and leaves the two logs to `Seal`. */
  ghost predicate Quiet(s: Store, t: Store) {
    && t.codec == s.codec && t.operations == s.operations && t.commits == s.commits
    && Extends(s.blobs, t.blobs) && s.checkpoints <= t.checkpoints && s.artifacts <= t.artifacts
  }

  ghost predicate Refines(s: Store, op: Op, result: Result<(Store, string), Error>)
    requires Core(s) && (op.Create? || op.id in s.contexts)
    requires op.Restore? ==> (op.id, op.checkpoint) in s.checkpoints
  {
    && result.Ok?
    && Core(result.value.0) && Quiet(s, result.value.0)
    && View(result.value.0) == AbsEffect(View(s), op, result.value.1)
  }

  lemma FirstPage(blobs: map<Hash, Bytes>, owner: string, h: Hash)
    requires h in blobs
    ensures RefsOk(blobs, Context(owner, [h], None)) && Content(blobs, Context(owner, [h], None)) == blobs[h]
  {
    assert Join(blobs, [h]) == Join(blobs, []) + blobs[h];
  }

  lemma NoPages(blobs: map<Hash, Bytes>, owner: string)
    ensures RefsOk(blobs, Context(owner, [], None)) && Content(blobs, Context(owner, [], None)) == ""
  {
  }

  lemma CreateRefines(s: Store, op: Op)
    requires Core(s) && op.Create? && !IsBlank(op.owner) && op.id !in s.contexts
    ensures Refines(s, op, CreateContext(s, op.owner, op.prefix, op.id))
  {
    hide RefsOk, Held, Content, Sound, ContextsOk, CheckpointsOk, IsBlank, Join;
    if op.prefix == "" {
      NoPages(s.blobs, op.owner);
      ViewRewrite(s, op.id, Context(op.owner, [], None));
    } else {
      PutBlobOk(s, op.prefix);
      var t, h := WithBlob(s, op.prefix), s.codec.hash(op.prefix);
      ViewExtends(s, t.blobs);
      FirstPage(t.blobs, op.owner, h);
      ViewRewrite(t, op.id, Context(op.owner, [h], None));
    }
  }

  /** A longer tail is a longer context. */
  lemma AppendContent(blobs: map<Hash, Bytes>, c: Context, h: Hash, previous: Bytes, data: Bytes)
    requires RefsOk(blobs, c) && previous == (if c.tail.Some? then blobs[c.tail.value] else "")
    requires h in blobs && blobs[h] == previous + data
    ensures RefsOk(blobs, c.(tail := Some(h))) && Content(blobs, c.(tail := Some(h))) == Content(blobs, c) + data
  {
    assert Join(blobs, c.pages) + (previous + data) == Join(blobs, c.pages) + previous + data;
  }

  lemma TailRead(s: Store, id: ContextId)
    requires Core(s) && id in s.contexts
    ensures RefsOk(s.blobs, s.contexts[id])
    ensures TailBytes(s, id) == Ok(if s.contexts[id].tail.Some? then s.blobs[s.contexts[id].tail.value] else "")
  {
    assert RefsOk(s.blobs, s.contexts[id]);
  }

  lemma AppendRefines(s: Store, op: Op)
    requires Core(s) && op.Append? && op.id in s.contexts
    ensures Refines(s, op, AppendEffect(s, op.id, op.data))
  {
    hide RefsOk, Held, Content, Sound, ContextsOk, CheckpointsOk;
    var c := s.contexts[op.id];
    TailRead(s, op.id);
    var previous := if c.tail.Some? then s.blobs[c.tail.value] else "";
    PutBlobOk(s, previous + op.data);
    var t, h := WithBlob(s, previous + op.data), s.codec.hash(previous + op.data);
    ViewExtends(s, t.blobs);
    ContentExtends(s.blobs, t.blobs, c);
    AppendContent(t.blobs, c, h, previous, op.data);
    ViewRewrite(t, op.id, c.(tail := Some(h)));
    assert View(t).owners[op.id := c.owner] == View(t).owners;
  }

  lemma ForkRefines(s: Store, op: Op)
    requires Core(s) && op.Fork? && op.id in s.contexts && op.child !in s.contexts
    ensures Refines(s, op, ForkEffect(s, op.id, op.childOwner, op.child))
  {
    var c := s.contexts[op.id];
    assert RefsOk(s.blobs, c);
    SealedContent(s.blobs, c);
    ViewRewrite(s, op.id, Sealed(c));
    var t := s.(contexts := s.contexts[op.id := Sealed(c)]);
    assert View(t).owners == View(s).owners && View(t).bytes == View(s).bytes;
    ViewRewrite(t, op.child, Context(op.childOwner, Sealed(c).pages, None));
  }

  lemma {:induction false} PagesOfHeld(s: Store, hs: seq<Hash>)
    requires BlobsOk(s.codec, s.blobs) && Held(s.blobs, hs)
    ensures PagesOf(s, hs).Ok?
    ensures HashesOf(PagesOf(s, hs).value) == hs
    ensures forall i | 0 <= i < |hs| :: PageOk(s.blobs, PagesOf(s, hs).value[i])
  {
    if hs != [] {
      PagesOfHeld(s, hs[..|hs| - 1]);
      var rest := PagesOf(s, hs[..|hs| - 1]).value;
      assert |HashesOf(rest)| == |rest|;
      assert PagesOf(s, hs).value == rest + [Page(hs[|hs| - 1], |s.blobs[hs[|hs| - 1]]|)];
    }
  }

  /** A snapshot recalls the context it was taken of. */
  lemma SnapshotFaithful(s: Store, id: ContextId)
    requires Core(s) && id in s.contexts
    ensures SnapshotOf(s, id).Ok?
    ensures SnapshotOf(s, id).value.contextId == id
    ensures SnapshotOk(s.blobs, SnapshotOf(s, id).value)
    ensures Recalled(s.contexts[id].owner, SnapshotOf(s, id).value) == s.contexts[id]
  {
    assert RefsOk(s.blobs, s.contexts[id]);
    PagesOfHeld(s, s.contexts[id].pages);
  }

  lemma SavedAdd(c: Codec, blobs: map<Hash, Bytes>, cs: set<(ContextId, Hash)>, id: ContextId, h: Hash)
    requires CheckpointsOk(c, blobs, cs) && CheckpointOk(c, blobs, id, h)
    ensures CheckpointsOk(c, blobs, cs + {(id, h)})
    ensures Saved(c, blobs, cs + {(id, h)}) == Saved(c, blobs, cs)[(id, h) := SavedBytes(c, blobs, id, h)]
  {
    assert forall p | p in cs :: CheckpointOk(c, blobs, p.0, p.1);
  }

  lemma CheckpointRefines(s: Store, op: Op)
    requires Core(s) && op.Checkpoint? && op.id in s.contexts
    ensures Refines(s, op, CheckpointEffect(s, op.id))
  {
    SnapshotFaithful(s, op.id);
    var snap := SnapshotOf(s, op.id).value;
    PutBlobOk(s, s.codec.encode(snap));
    var t, h := WithBlob(s, s.codec.encode(snap)), s.codec.hash(s.codec.encode(snap));
    ViewExtends(s, t.blobs);
    assert RefsOk(s.blobs, s.contexts[op.id]);
    ContentExtends(s.blobs, t.blobs, s.contexts[op.id]);
    assert forall i | 0 <= i < |snap.prefix| :: PageOk(s.blobs, snap.prefix[i]) ==> PageOk(t.blobs, snap.prefix[i]);
    assert CheckpointOk(t.codec, t.blobs, op.id, h);
    SavedAdd(t.codec, t.blobs, t.checkpoints, op.id, h);
  }

  /** Reading back the pages a snapshot names gives the snapshot's own list. */
  lemma {:induction false} PagesOfSnapshot(s: Store, ps: seq<Page>)
    requires BlobsOk(s.codec, s.blobs)
    requires forall i | 0 <= i < |ps| :: PageOk(s.blobs, ps[i])
    ensures PagesOf(s, HashesOf(ps)) == Ok(ps)
  {
    if ps != [] {
      PagesOfSnapshot(s, ps[..|ps| - 1]);
      assert HashesOf(ps)[..|ps| - 1] == HashesOf(ps[..|ps| - 1]);
      assert PageOk(s.blobs, ps[|ps| - 1]);
      assert ps == ps[..|ps| - 1] + [ps[|ps| - 1]];
    }
  }

  lemma RestoreRefines(s: Store, op: Op)
    requires Core(s) && op.Restore? && op.id in s.contexts && (op.id, op.checkpoint) in s.checkpoints
    ensures Refines(s, op, RestoreEffect(s, op.id, op.checkpoint))
  {
    assert CheckpointOk(s.codec, s.blobs, op.id, op.checkpoint);
    var snap := s.codec.decode(s.blobs[op.checkpoint]).value;
    PagesOfSnapshot(s, snap.prefix);
    var c := s.contexts[op.id];
    SnapshotRefs(s.blobs, snap, "");
    SnapshotRefs(s.blobs, snap, c.owner);
    ViewRewrite(s, op.id, Recalled(c.owner, snap));
    assert View(s).owners[op.id := c.owner] == View(s).owners;
    assert Content(s.blobs, Recalled(c.owner, snap)) == Content(s.blobs, Recalled("", snap));
  }

  lemma ArtifactRefines(s: Store, op: Op)
    requires Core(s) && op.Artifact? && op.id in s.contexts
    ensures Refines(s, op, ArtifactEffect(s, op.id, op.data))
  {
    PutBlobOk(s, op.data);
    ViewExtends(s, WithBlob(s, op.data).blobs);
  }

  // ---- Idempotent transactions ----

  ghost predicate RowOf(operations: map<(ContextId, string), OpRow>, c: Commit) {
    (c.context, c.key) in operations && operations[(c.context, c.key)].result == c.handle
  }

  /** The commit that recorded an operation. */
  ghost predicate Logged(commits: seq<Commit>, k: (ContextId, string)) {
    exists i :: 0 <= i < |commits| && (commits[i].context, commits[i].key) == k
  }

  /** Operation rows and commit rows are two views of the same history, one row each, in cursor order. */
  ghost predicate LogOk(operations: map<(ContextId, string), OpRow>, commits: seq<Commit>) {
    && (forall i | 0 <= i < |commits| :: commits[i].cursor == i + 1 && RowOf(operations, commits[i]))
    && (forall i, j | 0 <= i < j < |commits| ::
          (commits[i].context, commits[i].key) != (commits[j].context, commits[j].key))
    && forall k | k in operations :: Logged(commits, k)
  }

  ghost predicate WF(s: Store) { Core(s) && LogOk(s.operations, s.commits) }

  lemma LogGrows(operations: map<(ContextId, string), OpRow>, commits: seq<Commit>, row: OpRow, c: Commit)
    requires LogOk(operations, commits) && (c.context, c.key) !in operations
    requires c.cursor == |commits| + 1 && c.handle == row.result
    ensures LogOk(operations[(c.context, c.key) := row], commits + [c])
  {
    var more, log := operations[(c.context, c.key) := row], commits + [c];
    forall i | 0 <= i < |log|
      ensures log[i].cursor == i + 1 && RowOf(more, log[i])
      ensures i < |commits| ==> (log[i].context, log[i].key) != (c.context, c.key)
    {
      assert i < |commits| ==> RowOf(operations, commits[i]);
    }
    forall k | k in more
      ensures Logged(log, k)
    {
      if k in operations {
        assert Logged(commits, k);
        var i :| 0 <= i < |commits| && (commits[i].context, commits[i].key) == k;
        assert (log[i].context, log[i].key) == k;
      } else {
        assert (log[|commits|].context, log[|commits|].key) == k;
      }
    }
  }

  lemma {:induction false} KindNamePrefix(a: Kind, b: Kind, x: Bytes, y: Bytes)
    requires KindName(a) + "\0" + x == KindName(b) + "\0" + y
    ensures a == b && x == y
  {
    var s, t := KindName(a) + "\0" + x, KindName(b) + "\0" + y;
    assert forall i | 0 <= i < |KindName(a)| :: s[i] == KindName(a)[i] != '\0';
    assert forall i | 0 <= i < |KindName(b)| :: t[i] == KindName(b)[i] != '\0';
    assert s[|KindName(a)|] == '\0' && t[|KindName(b)|] == '\0';
    assert |KindName(a)| == |KindName(b)|;
    assert s[..|KindName(a)|] == KindName(a) && t[..|KindName(b)|] == KindName(b);
    assert s[|KindName(a)| + 1..] == x && t[|KindName(b)| + 1..] == y;
    assert KindName(a)[0] == KindName(b)[0] && KindName(a)[|KindName(a)| - 1] == KindName(b)[|KindName(b)| - 1];
  }

  /** A digest stands for exactly one kind and input. */
  lemma DigestExact(s: Store, a: Kind, x: Bytes, b: Kind, y: Bytes)
    requires Sound(s.codec)
    ensures Digest(s, a, x) == Digest(s, b, y) <==> a == b && x == y
  {
    if Digest(s, a, x) == Digest(s, b, y) {
      KindNamePrefix(a, b, x, y);
    }
  }

  datatype Verdict = Refused(error: Error) | Replayed(result: string) | Fresh

  /** What a caller who knows the bytes and the used keys can predict. */
  ghost function Judge(a: Abs, s: Store, op: Op): Verdict {
    if op.Create? then
      if IsBlank(op.owner) then Refused(Access) else if op.id in a.owners then Refused(IdTaken) else Fresh
    else if op.Fork? && IsBlank(op.childOwner) then Refused(Access)
    else if op.key == "" || |op.key| > MAX_KEY then Refused(BadKey)
    else if op.owner == "" || op.id !in a.owners || a.owners[op.id] != op.owner then Refused(Access)
    else if (op.id, op.key) in s.operations then
      if s.operations[(op.id, op.key)].digest == Digest(s, op.Kind(), op.Input())
      then Replayed(s.operations[(op.id, op.key)].result)
      else Refused(IdempotencyReuse)
    else if op.Fork? && op.child in a.owners then Refused(IdTaken)
    else if op.Restore? && (op.id, op.checkpoint) !in a.saved then Refused(Access)
    else Fresh
  }

  lemma EffectRefines(s: Store, op: Op)
    requires Core(s) && !op.Create? && op.id in s.contexts
    requires op.Fork? ==> op.child !in s.contexts
    requires op.Restore? ==> (op.id, op.checkpoint) in s.checkpoints
    ensures Refines(s, op, Effect(s, op))
  {
    hide Refines, Core, AppendEffect, ForkEffect, CheckpointEffect, RestoreEffect, ArtifactEffect;
    match op
    case Append(_, _, _, _) => AppendRefines(s, op);
    case Fork(_, _, _, _, _) => ForkRefines(s, op);
    case Checkpoint(_, _, _) => CheckpointRefines(s, op);
    case Restore(_, _, _, _) => RestoreRefines(s, op);
    case Artifact(_, _, _, _) => ArtifactRefines(s, op);
  }

  ghost predicate Applied(s: Store, op: Op, t: Store, r: string)
    requires Core(s) && (op.Create? || op.id in s.contexts)
    requires op.Restore? ==> (op.id, op.checkpoint) in s.checkpoints
  {
    && WF(t) && t.codec == s.codec && s.checkpoints <= t.checkpoints && Extends(s.blobs, t.blobs)
    && View(t) == AbsEffect(View(s), op, r)
    && (if op.Create? then t.operations == s.operations && t.commits == s.commits
        else
          && t.operations == s.operations[(op.id, op.key) := OpRow(Digest(s, op.Kind(), op.Input()), r)]
          && t.commits == s.commits + [Commit(|s.commits| + 1, op.id, op.Kind(), r, op.key)])
  }

  lemma SealKeeps(s: Store, t: Store, op: Op, r: string)
    requires WF(s) && !op.Create? && op.id in s.contexts && (op.id, op.key) !in s.operations
    requires op.Restore? ==> (op.id, op.checkpoint) in s.checkpoints
    requires Refines(s, op, Ok((t, r)))
    ensures Applied(s, op, Seal(t, op.id, op.key, op.Kind(), Digest(s, op.Kind(), op.Input()), r), r)
  {
    LogGrows(s.operations, s.commits, OpRow(Digest(s, op.Kind(), op.Input()), r), Commit(|s.commits| + 1, op.id, op.Kind(), r, op.key));
  }

  lemma ViewDomains(s: Store)
    requires Core(s)
    ensures View(s).owners.Keys == View(s).bytes.Keys == s.contexts.Keys && View(s).saved.Keys == s.checkpoints
    ensures forall id | id in s.contexts :: View(s).owners[id] == s.contexts[id].owner
  {
  }

  lemma RefinesOk(s: Store, op: Op, result: Result<(Store, string), Error>)
    requires Core(s) && (op.Create? || op.id in s.contexts)
    requires op.Restore? ==> (op.id, op.checkpoint) in s.checkpoints
    requires Refines(s, op, result)
    ensures result.Ok?
  {
  }

  lemma CreateApplied(s: Store, op: Op)
    requires WF(s) && Judge(View(s), s, op) == Fresh && op.Create?
    ensures Apply(s, op).Ok? && Applied(s, op, Apply(s, op).value.0, Apply(s, op).value.1)
  {
    hide Core, LogOk, View, AbsEffect, CreateContext;
    ViewDomains(s);
    CreateRefines(s, op);
  }

  lemma EffectApplied(s: Store, op: Op)
    requires WF(s) && !op.Create? && op.id in s.contexts && (op.id, op.key) !in s.operations
    requires op.Restore? ==> (op.id, op.checkpoint) in s.checkpoints
    requires op.Fork? ==> !IsBlank(op.childOwner) && op.child !in s.contexts
    requires Enter(s, op.owner, op.id, op.key, op.Kind(), op.Input()) == Ok(Proceed(Digest(s, op.Kind(), op.Input())))
    ensures Apply(s, op).Ok? && Applied(s, op, Apply(s, op).value.0, Apply(s, op).value.1)
  {
    hide Core, LogOk, View, AbsEffect, Effect, Refines, Applied, Enter, Seal, IsBlank, Digest;
    EffectRefines(s, op);
    RefinesOk(s, op, Effect(s, op));
    var (t, r) := Effect(s, op).value;
    SealKeeps(s, t, op, r);
  }

  lemma Judged(s: Store, op: Op)
    requires Core(s)
    ensures Judge(View(s), s, op) == Fresh && !op.Create? ==>
              && op.id in s.contexts && (op.id, op.key) !in s.operations
              && (op.Restore? ==> (op.id, op.checkpoint) in s.checkpoints)
              && (op.Fork? ==> !IsBlank(op.childOwner) && op.child !in s.contexts)
              && Enter(s, op.owner, op.id, op.key, op.Kind(), op.Input()) == Ok(Proceed(Digest(s, op.Kind(), op.Input())))
    ensures Judge(View(s), s, op).Replayed? ==> Apply(s, op) == Ok((s, Judge(View(s), s, op).result))
    ensures Judge(View(s), s, op).Refused? ==> Apply(s, op) == Err(Judge(View(s), s, op).error)
  {
    hide Core, View, Seal, Digest, IsBlank, AppendEffect, CheckpointEffect, ArtifactEffect;
    ViewDomains(s);
  }

  /**
   * The refinement: every transaction does what its abstract form says, a replay returns the first
   * result and changes nothing, and a refusal is for the stated reason and no other.
   */
  lemma ApplyRefines(s: Store, op: Op)
    requires WF(s)
    ensures match Judge(View(s), s, op)
            case Refused(e) => Apply(s, op) == Err(e)
            case Replayed(r) => Apply(s, op) == Ok((s, r))
            case Fresh =>
              && (op.Create? || op.id in s.contexts)
              && (op.Restore? ==> (op.id, op.checkpoint) in s.checkpoints)
              && Apply(s, op).Ok? && Applied(s, op, Apply(s, op).value.0, Apply(s, op).value.1)
  {
    hide Core, LogOk, View, AbsEffect, Applied, Apply, Judge, Enter, IsBlank, Digest;
    Judged(s, op);
    if Judge(View(s), s, op) == Fresh {
      if op.Create? {
        CreateApplied(s, op);
      } else {
        EffectApplied(s, op);
      }
    }
  }

  // ---- Whole runs ----

  function After(s: Store, op: Op): Store {
    var result := Apply(s, op);
    if result.Ok? then result.value.0 else s
  }

  function Run(s: Store, ops: seq<Op>): Store {
    if ops == [] then s else After(Run(s, ops[..|ops| - 1]), ops[|ops| - 1])
  }

  /** What no later operation takes back. */
  ghost predicate Grows(s: Store, t: Store) {
    && t.codec == s.codec && Extends(s.blobs, t.blobs) && s.checkpoints <= t.checkpoints
    && (forall id | id in s.contexts :: id in t.contexts && t.contexts[id].owner == s.contexts[id].owner)
    && (forall k | k in s.operations :: k in t.operations && t.operations[k] == s.operations[k])
    && s.commits <= t.commits
  }

  lemma OwnersKept(s: Store, op: Op, t: Store, r: string)
    requires WF(s) && Judge(View(s), s, op) == Fresh
    requires op.Create? || op.id in s.contexts
    requires op.Restore? ==> (op.id, op.checkpoint) in s.checkpoints
    requires Applied(s, op, t, r)
    ensures forall id | id in s.contexts :: id in t.contexts && t.contexts[id].owner == s.contexts[id].owner
  {
    hide Core, View, LogOk;
    ViewDomains(s);
    ViewDomains(t);
    forall id | id in s.contexts
      ensures id in t.contexts && t.contexts[id].owner == s.contexts[id].owner
    {
      assert View(t).owners[id] == View(s).owners[id];
    }
  }

  lemma FreshGrows(s: Store, op: Op, t: Store, r: string)
    requires WF(s) && Judge(View(s), s, op) == Fresh
    requires op.Create? || op.id in s.contexts
    requires op.Restore? ==> (op.id, op.checkpoint) in s.checkpoints
    requires Applied(s, op, t, r)
    ensures WF(t) && Grows(s, t)
  {
    hide Core, View, LogOk, AbsEffect, Judge, Digest;
    OwnersKept(s, op, t, r);
    RowsKept(s, op, t, r);
  }

  lemma RowsKept(s: Store, op: Op, t: Store, r: string)
    requires WF(s) && Judge(View(s), s, op) == Fresh
    requires op.Create? || op.id in s.contexts
    requires op.Restore? ==> (op.id, op.checkpoint) in s.checkpoints
    requires Applied(s, op, t, r)
    ensures forall k | k in s.operations :: k in t.operations && t.operations[k] == s.operations[k]
    ensures s.commits <= t.commits
  {
    hide Core, View, LogOk, AbsEffect, Digest, IsBlank;
    if !op.Create? {
      assert (op.id, op.key) !in s.operations;
    }
  }

  lemma StepGrows(s: Store, op: Op)
    requires WF(s)
    ensures WF(After(s, op)) && Grows(s, After(s, op))
  {
    hide Core, LogOk, View, Judge, Apply, Applied;
    ApplyRefines(s, op);
    if Judge(View(s), s, op) == Fresh {
      FreshGrows(s, op, Apply(s, op).value.0, Apply(s, op).value.1);
    }
  }

  lemma GrowsTransitive(s: Store, t: Store, u: Store)
    requires Grows(s, t) && Grows(t, u)
    ensures Grows(s, u)
  {
  }

  /** Every run keeps the store well formed and takes nothing back. */
  lemma {:induction false} RunGrows(s: Store, ops: seq<Op>)
    requires WF(s)
    ensures WF(Run(s, ops)) && Grows(s, Run(s, ops))
  {
    hide WF, After;
    if ops == [] {
    } else {
      hide Grows;
      var mid := Run(s, ops[..|ops| - 1]);
      RunGrows(s, ops[..|ops| - 1]);
      StepGrows(mid, ops[|ops| - 1]);
      GrowsTransitive(s, mid, Run(s, ops));
    }
  }

  /** The bytes saved under a checkpoint never change. */
  lemma SavedStable(s: Store, t: Store, id: ContextId, h: Hash)
    requires Core(s) && Core(t) && Grows(s, t) && (id, h) in s.checkpoints
    ensures (id, h) in t.checkpoints && View(t).saved[(id, h)] == View(s).saved[(id, h)]
  {
    assert CheckpointOk(s.codec, s.blobs, id, h);
    CheckpointExtends(s.codec, s.blobs, t.blobs, id, h);
  }

  /** The data an operation adds to `id` when it is accepted. */
  ghost function Added(s: Store, op: Op, id: ContextId): Bytes
    requires Core(s)
  {
    if op.Append? && op.id == id && Judge(View(s), s, op) == Fresh then op.data else ""
  }

  ghost function AllAdded(s: Store, ops: seq<Op>, id: ContextId): Bytes
    requires WF(s)
  {
    if ops == [] then "" else
      RunGrows(s, ops[..|ops| - 1]);
      AllAdded(s, ops[..|ops| - 1], id) + Added(Run(s, ops[..|ops| - 1]), ops[|ops| - 1], id)
  }

  lemma StepBytes(s: Store, op: Op, id: ContextId)
    requires WF(s) && WF(After(s, op)) && id in s.contexts && id in After(s, op).contexts && !(op.Restore? && op.id == id)
    ensures id in View(s).bytes && id in View(After(s, op)).bytes
    ensures View(After(s, op)).bytes[id] == View(s).bytes[id] + Added(s, op, id)
  {
    hide Core, LogOk, View, Apply;
    ViewDomains(s);
    ViewDomains(After(s, op));
    ApplyRefines(s, op);
  }

  /**
   * Between restores, a context holds what it held plus every accepted append to it, in order. Nothing
   * done to another context, and no fork or checkpoint, changes a byte.
   */
  lemma {:induction false} RunAppends(s: Store, ops: seq<Op>, id: ContextId)
    requires WF(s) && id in s.contexts
    requires forall i | 0 <= i < |ops| :: !(ops[i].Restore? && ops[i].id == id)
    ensures WF(Run(s, ops)) && id in View(s).bytes && id in View(Run(s, ops)).bytes
    ensures View(Run(s, ops)).bytes[id] == View(s).bytes[id] + AllAdded(s, ops, id)
  {
    hide Core, LogOk, View, After, Added;
    ViewDomains(s);
    RunGrows(s, ops);
    if ops != [] {
      var mid, op := Run(s, ops[..|ops| - 1]), ops[|ops| - 1];
      RunGrows(s, ops[..|ops| - 1]);
      RunAppends(s, ops[..|ops| - 1], id);
      StepBytes(mid, op, id);
    }
  }

  lemma FreshCheckpoint(s: Store, op: Op)
    requires WF(s) && op.Checkpoint? && Judge(View(s), s, op) == Fresh
    ensures op.id in s.contexts && op.id in View(s).bytes && WF(After(s, op)) && Apply(s, op).Ok?
    ensures var p := (op.id, Apply(s, op).value.1);
            && p in After(s, op).checkpoints && p in View(After(s, op)).saved
            && View(After(s, op)).saved[p] == View(s).bytes[op.id]
  {
    hide Core, LogOk, View, Apply;
    ViewDomains(s);
    ApplyRefines(s, op);
    ViewDomains(After(s, op));
  }

  lemma FreshRestore(s: Store, op: Op)
    requires WF(s) && op.Restore? && (op.id, op.checkpoint) in s.checkpoints && Judge(View(s), s, op) == Fresh
    ensures (op.id, op.checkpoint) in View(s).saved
    ensures WF(After(s, op)) && op.id in View(After(s, op)).bytes
    ensures View(After(s, op)).bytes[op.id] == View(s).saved[(op.id, op.checkpoint)]
  {
    hide Core, LogOk, View, Apply;
    ViewDomains(s);
    ApplyRefines(s, op);
  }

  lemma OwnerMayRestore(s: Store, u: Store, take: Op, op: Op)
    requires Core(s) && Core(u) && Grows(s, u) && take.Checkpoint? && Judge(View(s), s, take) == Fresh
    requires op.Restore? && op.id == take.id && op.owner == take.owner && (op.id, op.checkpoint) in u.checkpoints
    requires 0 < |op.key| <= MAX_KEY && (op.id, op.key) !in u.operations
    ensures Judge(View(u), u, op) == Fresh
  {
    hide Core, View;
    ViewDomains(s);
    ViewDomains(u);
  }

  /**
   * A checkpoint, then any run at all, then a restore under an unused key: the restore is accepted and the
   * context holds exactly the bytes it held at the checkpoint.
   */
  lemma RestoreRecalls(s: Store, take: Op, ops: seq<Op>, back: Op)
    requires WF(s) && take.Checkpoint? && Judge(View(s), s, take) == Fresh
    requires back.Restore? && back.id == take.id && back.owner == take.owner
    requires Apply(s, take).Ok? ==> back.checkpoint == Apply(s, take).value.1
    requires 0 < |back.key| <= MAX_KEY && (back.id, back.key) !in Run(After(s, take), ops).operations
    ensures var u := Run(After(s, take), ops);
            && take.id in View(s).bytes && WF(u) && Judge(View(u), u, back) == Fresh
            && WF(After(u, back)) && take.id in View(After(u, back)).bytes
            && View(After(u, back)).bytes[take.id] == View(s).bytes[take.id]
  {
    FreshCheckpoint(s, take);
    StepGrows(s, take);
    hide Judge, View, Apply, LogOk, Core, Grows;
    var t := After(s, take);
    var u := Run(t, ops);
    RunGrows(t, ops);
    GrowsTransitive(s, t, u);
    SavedStable(t, u, take.id, back.checkpoint);
    OwnerMayRestore(s, u, take, back);
    FreshRestore(u, back);
  }

  /** A fork gives the child the parent's bytes, and from then on neither sees what is appended to the other. */
  lemma ForkDiverges(s: Store, op: Op, ops: seq<Op>)
    requires WF(s) && op.Fork? && Judge(View(s), s, op) == Fresh
    requires forall i | 0 <= i < |ops| :: ops[i].Restore? ==> ops[i].id != op.id && ops[i].id != op.child
    ensures var t := After(s, op);
            var u := Run(t, ops);
            && WF(t) && WF(u) && op.id in View(s).bytes && op.id in View(u).bytes && op.child in View(u).bytes
            && View(u).bytes[op.id] == View(s).bytes[op.id] + AllAdded(t, ops, op.id)
            && View(u).bytes[op.child] == View(s).bytes[op.id] + AllAdded(t, ops, op.child)
  {
    hide Judge, View, After, WF, AllAdded, Run;
    ForkBytes(s, op);
    var t := After(s, op);
    RunAppends(t, ops, op.id);
    RunAppends(t, ops, op.child);
  }

  lemma ForkBytes(s: Store, op: Op)
    requires WF(s) && op.Fork? && Judge(View(s), s, op) == Fresh
    ensures WF(After(s, op)) && op.id in View(s).bytes && op.id != op.child
    ensures op.id in After(s, op).contexts && op.child in After(s, op).contexts
    ensures op.id in View(After(s, op)).bytes && op.child in View(After(s, op)).bytes
    ensures View(After(s, op)).bytes[op.id] == View(After(s, op)).bytes[op.child] == View(s).bytes[op.id]
  {
    hide Core, LogOk, View, Apply;
    ViewDomains(s);
    ApplyRefines(s, op);
    ViewDomains(After(s, op));
  }

  lemma FreshRow(s: Store, op: Op)
    requires WF(s) && !op.Create? && Judge(View(s), s, op) == Fresh
    ensures Apply(s, op).Ok? && (op.id, op.key) in After(s, op).operations
    ensures After(s, op).operations[(op.id, op.key)] == OpRow(Digest(s, op.Kind(), op.Input()), Apply(s, op).value.1)
    ensures op.id in s.contexts && s.contexts[op.id].owner == op.owner != "" && 0 < |op.key| <= MAX_KEY
    ensures op.Fork? ==> !IsBlank(op.childOwner)
  {
    hide Core, LogOk, View, Apply, AbsEffect, Digest, IsBlank;
    ViewDomains(s);
    ApplyRefines(s, op);
  }

  lemma RowDecides(u: Store, op: Op, digest: Hash, result: string)
    requires Core(u) && !op.Create? && op.id in u.contexts && u.contexts[op.id].owner == op.owner != ""
    requires 0 < |op.key| <= MAX_KEY && (op.Fork? ==> !IsBlank(op.childOwner))
    requires (op.id, op.key) in u.operations && u.operations[(op.id, op.key)] == OpRow(digest, result)
    ensures Judge(View(u), u, op) ==
              if digest == Digest(u, op.Kind(), op.Input()) then Replayed(result) else Refused(IdempotencyReuse)
  {
    hide Core, View, IsBlank, Digest;
    ViewDomains(u);
  }

  /**
   * Idempotency over whole runs: once an operation is accepted, using its key again after any run returns the
   * first result and changes nothing if the kind and input are the same, and is refused otherwise.
   */
  lemma KeysAreFinal(s: Store, op: Op, ops: seq<Op>, again: Op)
    requires WF(s) && !op.Create? && Judge(View(s), s, op) == Fresh
    requires !again.Create? && again.id == op.id && again.key == op.key && again.owner == op.owner
    requires again.Fork? ==> !IsBlank(again.childOwner)
    ensures Apply(s, op).Ok?
    ensures var u := Run(After(s, op), ops);
            Apply(u, again) ==
              if again.Kind() == op.Kind() && again.Input() == op.Input()
              then Ok((u, Apply(s, op).value.1))
              else Err(IdempotencyReuse)
  {
    FreshRow(s, op);
    StepGrows(s, op);
    var t := After(s, op);
    hide Judge, View, Apply, LogOk, Core, IsBlank;
    var u := Run(t, ops);
    RunGrows(t, ops);
    GrowsTransitive(s, t, u);
    KeyStays(s, t, u, op);
    RowDecides(u, again, Digest(s, op.Kind(), op.Input()), Apply(s, op).value.1);
    SoundCodec(u);
    DigestExact(u, op.Kind(), op.Input(), again.Kind(), again.Input());
    ApplyRefines(u, again);
  }

  lemma KeyStays(s: Store, t: Store, u: Store, op: Op)
    requires Grows(s, t) && Grows(t, u) && !op.Create? && op.id in s.contexts && (op.id, op.key) in t.operations
    ensures (op.id, op.key) in u.operations && u.operations[(op.id, op.key)] == t.operations[(op.id, op.key)]
    ensures op.id in u.contexts && u.contexts[op.id].owner == s.contexts[op.id].owner
    ensures forall k: Kind, x: Bytes :: Digest(u, k, x) == Digest(s, k, x)
  {
  }

  lemma SoundCodec(s: Store)
    requires Core(s)
    ensures Sound(s.codec)
  {
  }

  // ---- The commit log ----

  /** The commits of one context past a cursor, oldest first. */
  function Select(commits: seq<Commit>, id: ContextId, after: nat): seq<Commit> {
    if commits == [] then []
    else
      var last := commits[|commits| - 1];
      Select(commits[..|commits| - 1], id, after) + if last.context == id && last.cursor > after then [last] else []
  }

  predicate Numbered(commits: seq<Commit>) {
    forall i | 0 <= i < |commits| :: commits[i].cursor == i + 1
  }

  lemma {:induction false} SelectBounds(commits: seq<Commit>, id: ContextId, after: nat)
    requires Numbered(commits)
    ensures forall i | 0 <= i < |Select(commits, id, after)| ::
              after < Select(commits, id, after)[i].cursor <= |commits| && Select(commits, id, after)[i].context == id
    ensures |commits| <= after ==> Select(commits, id, after) == []
  {
    if commits != [] {
      SelectBounds(commits[..|commits| - 1], id, after);
    }
  }

  /** Reading on from the cursor of the n-th selected commit gives what followed it. */
  lemma {:induction false} SelectResumes(commits: seq<Commit>, id: ContextId, after: nat, n: nat)
    requires Numbered(commits) && 0 < n <= |Select(commits, id, after)|
    ensures Select(commits, id, Select(commits, id, after)[n - 1].cursor) == Select(commits, id, after)[n..]
  {
    var all := Select(commits, id, after);
    var front, last := commits[..|commits| - 1], commits[|commits| - 1];
    var some := Select(front, id, after);
    SelectBounds(front, id, after);
    if n <= |some| {
      var c := some[n - 1].cursor;
      assert after < c <= |front| < last.cursor;
      SelectResumes(front, id, after, n);
      if last.context == id {
        assert all == some + [last] && (some + [last])[n..] == some[n..] + [last];
      }
    } else {
      SelectBounds(front, id, last.cursor);
      assert all == some + [last];
    }
  }

  lemma {:induction false} SelectGrows(short: seq<Commit>, long: seq<Commit>, id: ContextId, after: nat)
    requires short <= long
    ensures Select(short, id, after) <= Select(long, id, after)
    decreases |long|
  {
    if |short| < |long| {
      assert short <= long[..|long| - 1];
      SelectGrows(short, long[..|long| - 1], id, after);
    } else {
      assert short == long;
    }
  }

  /** `Commits`: one bounded page of a context's commits. */
  function Commits(s: Store, owner: string, id: ContextId, after: int, limit: int): Result<seq<Commit>, Error> {
    if after < 0 || limit < 1 || limit > 1000 then Err(BadCursor)
    else if owner == "" || id !in s.contexts || s.contexts[id].owner != owner then Err(Access)
    else Ok(PageAt(Call(s.commits, limit), id, after))
  }

  /** One call of `Commits`: the log as it stood then, and the page limit asked for. */
  datatype Call = Call(log: seq<Commit>, limit: nat)

  function PageAt(call: Call, id: ContextId, after: nat): seq<Commit> {
    var found := Select(call.log, id, after);
    found[..if call.limit < |found| then call.limit else |found|]
  }

  function NextCursor(page: seq<Commit>, after: nat): nat {
    if page == [] then after else page[|page| - 1].cursor
  }

  /** Everything a reader sees who always asks again from the last cursor it was given. */
  function Walk(calls: seq<Call>, id: ContextId, after: nat): seq<Commit> {
    if calls == [] then []
    else
      var page := PageAt(calls[0], id, after);
      page + Walk(calls[1..], id, NextCursor(page, after))
  }

  /** Calls against a log that only grows towards `final`. */
  ghost predicate Growing(calls: seq<Call>, final: seq<Commit>) {
    && (forall i | 0 <= i < |calls| :: calls[i].log <= final && 1 <= calls[i].limit)
    && forall i, j | 0 <= i < j < |calls| :: calls[i].log <= calls[j].log
  }

  lemma PageStep(call: Call, final: seq<Commit>, id: ContextId, after: nat)
    requires Numbered(final) && call.log <= final && 1 <= call.limit
    ensures var page := PageAt(call, id, after);
            && page <= Select(final, id, after)
            && Select(final, id, NextCursor(page, after)) == Select(final, id, after)[|page|..]
            && (page == [] <==> Select(call.log, id, after) == [])
  {
    var page := PageAt(call, id, after);
    SelectGrows(call.log, final, id, after);
    if page != [] {
      SelectResumes(final, id, after, |page|);
    }
  }

  /** How many calls were made after the log stopped growing. */
  function FinalCalls(calls: seq<Call>, final: seq<Commit>): nat {
    if calls == [] then 0 else (if calls[0].log == final then 1 else 0) + FinalCalls(calls[1..], final)
  }

  /**
   * Paging is complete: whatever limits are used, and however the log grows between calls, the pages put
   * together are a prefix of the context's commits, each once and in order; once as many of the calls were
   * made against the final log as it has commits to give, they are all of them.
   */
  lemma {:induction false} PagingIsComplete(calls: seq<Call>, final: seq<Commit>, id: ContextId, after: nat)
    requires Numbered(final) && Growing(calls, final)
    ensures Walk(calls, id, after) <= Select(final, id, after)
    ensures FinalCalls(calls, final) >= |Select(final, id, after)| ==> Walk(calls, id, after) == Select(final, id, after)
    decreases |calls|
  {
    hide Select, PageAt, NextCursor, Numbered;
    if calls != [] {
      var page, rest := PageAt(calls[0], id, after), calls[1..];
      var all := Select(final, id, after);
      PageStep(calls[0], final, id, after);
      GrowingRest(calls, final);
      PagingIsComplete(rest, final, id, NextCursor(page, after));
      assert all == page + all[|page|..];
      if calls[0].log == final {
        assert page == [] ==> all == [];
      }
    }
  }

  lemma GrowingRest(calls: seq<Call>, final: seq<Commit>)
    requires Growing(calls, final) && calls != []
    ensures Growing(calls[1..], final)
  {
  }
}
