/**
 * The audit log: a hash chain over the supervisor's decisions, anchored by
 * checkpoints that an outside witness has signed.
 */
module AuditChain {
  import opened Wrappers
  import opened Text

  /** What an operation asks to be recorded. */
  datatype Entry = Entry(
    principal: string, application: string, action: string, subject: string, decision: string, reason: string)

  /** Everything a record's hash covers. */
  datatype Body = Body(sequence: nat, time: int, entry: Entry, previous: string)

  datatype Record = Record(body: Body, hash: string)

  /** `auditHash`: SHA-256 of the record's JSON form. */
  type Hasher = Body -> string

  ghost predicate Injective(h: Hasher) {
    forall a, b {:trigger h(a), h(b)} :: h(a) == h(b) ==> a == b
  }

  function Head(records: seq<Record>): string {
    if records == [] then "" else records[|records| - 1].hash
  }

  function LastSequence(records: seq<Record>): nat {
    if records == [] then 0 else records[|records| - 1].body.sequence
  }

  /** Record `i` extends the records before it. */
  predicate Follows(h: Hasher, records: seq<Record>, i: nat)
    requires i < |records|
  {
    && LastSequence(records[..i]) < records[i].body.sequence
    && records[i].body.previous == Head(records[..i])
    && records[i].hash == h(records[i].body)
  }

  predicate Chain(h: Hasher, records: seq<Record>) {
    forall i | 0 <= i < |records| :: Follows(h, records, i)
  }

  lemma ChainPrefix(h: Hasher, records: seq<Record>, n: nat)
    requires Chain(h, records) && n <= |records|
    ensures Chain(h, records[..n])
  {
    forall i | 0 <= i < n
      ensures Follows(h, records[..n], i)
    {
      assert Follows(h, records, i) && records[..n][..i] == records[..i];
    }
  }

  /** `VerifyAudit`. */
  method VerifyAudit(h: Hasher, records: seq<Record>) returns (ok: bool)
    ensures ok <==> Chain(h, records)
  {
    var previous := "";
    var sequence := 0;
    for i := 0 to |records|
      invariant previous == Head(records[..i]) && sequence == LastSequence(records[..i])
      invariant forall j | 0 <= j < i :: Follows(h, records, j)
    {
      var r := records[i];
      if r.body.sequence <= sequence || r.body.previous != previous || r.hash != h(r.body) {
        assert !Follows(h, records, i);
        return false;
      }
      previous, sequence := r.hash, r.body.sequence;
      assert records[..i + 1][|records[..i + 1]| - 1] == r;
    }
    return true;
  }

  /** One shared hash pins the whole history before it. */
  lemma {:induction false} HashPinsHistory(h: Hasher, a: seq<Record>, b: seq<Record>, n: nat)
    requires Injective(h) && Chain(h, a) && Chain(h, b)
    requires 0 < n <= |a| && n <= |b| && a[n - 1].hash == b[n - 1].hash
    ensures a[..n] == b[..n]
  {
    assert Follows(h, a, n - 1) && Follows(h, b, n - 1);
    assert a[n - 1] == b[n - 1];
    if n > 1 {
      assert a[..n - 1][n - 2].hash == b[..n - 1][n - 2].hash;
      HashPinsHistory(h, a, b, n - 1);
    }
    assert a[..n] == a[..n - 1] + [a[n - 1]] && b[..n] == b[..n - 1] + [b[n - 1]];
  }

  lemma OnlyEmptyHasNoHead(h: Hasher, records: seq<Record>)
    requires Chain(h, records) && forall x :: h(x) != ""
    ensures Head(records) == "" <==> records == []
  {
    if records != [] {
      assert Follows(h, records, |records| - 1);
    }
  }

  /** With a retained head, truncation shows too: two accepted logs with the same head are the same log. */
  lemma {:induction false} HeadPinsLog(h: Hasher, a: seq<Record>, b: seq<Record>)
    requires Injective(h) && (forall x :: h(x) != "") && Chain(h, a) && Chain(h, b) && Head(a) == Head(b)
    ensures a == b
    decreases |a|
  {
    OnlyEmptyHasNoHead(h, a);
    OnlyEmptyHasNoHead(h, b);
    if a != [] {
      var m, n := |a| - 1, |b| - 1;
      assert Follows(h, a, m) && Follows(h, b, n);
      assert a[m] == b[n];
      ChainPrefix(h, a, m);
      ChainPrefix(h, b, n);
      HeadPinsLog(h, a[..m], b[..n]);
      assert a == a[..m] + [a[m]] && b == b[..n] + [b[n]];
    }
  }

  // ---- Witness checkpoints ----

  const MAX_CHECKPOINTS := 256
  const KEY_SIZE := 32
  const SIGNATURE_SIZE := 64

  datatype Checkpoint = Checkpoint(
    head: string, count: nat, time: int, key: seq<bv8>, signature: seq<bv8>, signer: string)

  /** `ed25519.Verify(key, message, signature)`. */
  type Verifier = (seq<bv8>, string, seq<bv8>) -> bool

  function CheckpointMessage(cp: Checkpoint): string {
    "aok-audit-checkpoint:v1|" + cp.head + "|" + Dec(cp.count) + "|" + DecInt(cp.time)
  }

  /** The audit part of the supervisor state, with the counter it draws sequence numbers from. */
  datatype Log = Log(records: seq<Record>, next: nat, checkpoints: seq<Checkpoint>)

  predicate Anchored(v: Verifier, records: seq<Record>, cp: Checkpoint) {
    && 0 < cp.count <= |records| && records[cp.count - 1].hash == cp.head
    && v(cp.key, CheckpointMessage(cp), cp.signature)
  }

  predicate AllAnchored(v: Verifier, records: seq<Record>, cps: seq<Checkpoint>) {
    forall i | 0 <= i < |cps| :: Anchored(v, records, cps[i])
  }

  predicate Witnessed(h: Hasher, v: Verifier, log: Log) {
    Chain(h, log.records) && AllAnchored(v, log.records, log.checkpoints)
  }

  /** `VerifyWitness`. */
  method VerifyWitness(h: Hasher, v: Verifier, log: Log) returns (ok: bool)
    ensures ok <==> Witnessed(h, v, log)
  {
    var sound := VerifyAudit(h, log.records);
    if !sound {
      return false;
    }
    for i := 0 to |log.checkpoints|
      invariant forall j | 0 <= j < i :: Anchored(v, log.records, log.checkpoints[j])
    {
      var cp := log.checkpoints[i];
      if cp.count == 0 || cp.count > |log.records| || log.records[cp.count - 1].hash != cp.head {
        assert !Anchored(v, log.records, cp);
        return false;
      }
      if !v(cp.key, CheckpointMessage(cp), cp.signature) {
        assert !Anchored(v, log.records, cp);
        return false;
      }
    }
    return true;
  }

  /** A rewritten history is caught: logs accepted with a common checkpoint agree up to it. */
  lemma CheckpointPinsHistory(h: Hasher, v: Verifier, a: Log, b: Log, i: nat, j: nat)
    requires Injective(h) && Witnessed(h, v, a) && Witnessed(h, v, b)
    requires i < |a.checkpoints| && j < |b.checkpoints| && a.checkpoints[i] == b.checkpoints[j]
    ensures a.checkpoints[i].count <= |a.records| && a.checkpoints[i].count <= |b.records|
    ensures a.records[..a.checkpoints[i].count] == b.records[..a.checkpoints[i].count]
  {
    var cp := a.checkpoints[i];
    assert Anchored(v, a.records, cp) && Anchored(v, b.records, b.checkpoints[j]);
    HashPinsHistory(h, a.records, b.records, cp.count);
  }

  /** `auditLocked`. */
  function Audited(h: Hasher, log: Log, entry: Entry, time: int): Log {
    var body := Body(log.next + 1, time, entry, Head(log.records));
    log.(records := log.records + [Record(body, h(body))], next := log.next + 1)
  }

  datatype WitnessError = Malformed | BadSignature | Mismatch | Stale

  /** The tail of a list that is kept when it outgrows its bound. */
  function Newest<T>(xs: seq<T>, bound: nat): seq<T> {
    if |xs| > bound then xs[|xs| - bound..] else xs
  }

  /** `RecordCosignature`. */
  function Cosigned(h: Hasher, v: Verifier, log: Log, cp: Checkpoint, entry: Entry, time: int): Result<Log, WitnessError> {
    if |cp.key| != KEY_SIZE || |cp.signature| != SIGNATURE_SIZE || cp.count == 0 || cp.head == "" || cp.time == 0 then
      Err(Malformed)
    else if !v(cp.key, CheckpointMessage(cp), cp.signature) then Err(BadSignature)
    else if cp.count > |log.records| || log.records[cp.count - 1].hash != cp.head then Err(Mismatch)
    else if log.checkpoints != [] && cp.count <= log.checkpoints[|log.checkpoints| - 1].count then Err(Stale)
    else Ok(Audited(h, log.(checkpoints := Newest(log.checkpoints + [cp], MAX_CHECKPOINTS)), entry, time))
  }

  predicate Advancing(cps: seq<Checkpoint>) {
    forall i, j | 0 <= i < j < |cps| :: cps[i].count < cps[j].count
  }

  /** What holds of the log in every reachable state. */
  ghost predicate LogOk(h: Hasher, v: Verifier, log: Log) {
    && Witnessed(h, v, log) && LastSequence(log.records) <= log.next
    && |log.checkpoints| <= MAX_CHECKPOINTS && Advancing(log.checkpoints)
  }

  /** What later states keep of a log. */
  predicate LogExtends(a: Log, b: Log) { a.records <= b.records && a.next <= b.next }

  lemma AuditedKeeps(h: Hasher, v: Verifier, log: Log, entry: Entry, time: int)
    requires LogOk(h, v, log)
    ensures LogOk(h, v, Audited(h, log, entry, time)) && LogExtends(log, Audited(h, log, entry, time))
  {
    var more := Audited(h, log, entry, time).records;
    assert more[..|log.records|] == log.records;
    forall i | 0 <= i < |more|
      ensures Follows(h, more, i)
    {
      if i < |log.records| {
        assert Follows(h, log.records, i) && more[..i] == log.records[..i];
      }
    }
    forall i | 0 <= i < |log.checkpoints|
      ensures Anchored(v, more, log.checkpoints[i])
    {
      assert Anchored(v, log.records, log.checkpoints[i]);
    }
  }

  lemma BumpKeeps(h: Hasher, v: Verifier, log: Log)
    requires LogOk(h, v, log)
    ensures LogOk(h, v, log.(next := log.next + 1)) && LogExtends(log, log.(next := log.next + 1))
  {
  }

  lemma SnocAnchored(v: Verifier, records: seq<Record>, cps: seq<Checkpoint>, cp: Checkpoint)
    requires AllAnchored(v, records, cps) && Advancing(cps) && Anchored(v, records, cp)
    requires cps != [] ==> cps[|cps| - 1].count < cp.count
    ensures AllAnchored(v, records, cps + [cp]) && Advancing(cps + [cp])
  {
    hide Anchored;
  }

  lemma SuffixAnchored(v: Verifier, records: seq<Record>, cps: seq<Checkpoint>, from: nat)
    requires AllAnchored(v, records, cps) && Advancing(cps) && from <= |cps|
    ensures AllAnchored(v, records, cps[from..]) && Advancing(cps[from..])
  {
    hide Anchored;
  }

  /** Adding an anchored checkpoint and dropping the oldest keeps what remains anchored and in order. */
  lemma TrimKeeps(v: Verifier, records: seq<Record>, cps: seq<Checkpoint>, cp: Checkpoint)
    requires AllAnchored(v, records, cps) && Advancing(cps) && Anchored(v, records, cp)
    requires cps != [] ==> cps[|cps| - 1].count < cp.count
    ensures AllAnchored(v, records, Newest(cps + [cp], MAX_CHECKPOINTS))
    ensures Advancing(Newest(cps + [cp], MAX_CHECKPOINTS)) && |Newest(cps + [cp], MAX_CHECKPOINTS)| <= MAX_CHECKPOINTS
  {
    hide Anchored, AllAnchored, Advancing;
    SnocAnchored(v, records, cps, cp);
    if |cps + [cp]| > MAX_CHECKPOINTS {
      SuffixAnchored(v, records, cps + [cp], |cps + [cp]| - MAX_CHECKPOINTS);
    }
  }

  lemma CosignedKeeps(h: Hasher, v: Verifier, log: Log, cp: Checkpoint, entry: Entry, time: int)
    requires LogOk(h, v, log) && Cosigned(h, v, log, cp, entry, time).Ok?
    ensures LogOk(h, v, Cosigned(h, v, log, cp, entry, time).value)
    ensures LogExtends(log, Cosigned(h, v, log, cp, entry, time).value)
  {
    hide Chain, AllAnchored, Advancing, Newest, CheckpointMessage;
    TrimKeeps(v, log.records, log.checkpoints, cp);
    AuditedKeeps(h, v, log.(checkpoints := Newest(log.checkpoints + [cp], MAX_CHECKPOINTS)), entry, time);
  }
}
