/**
 * The registry of revoked capability tokens.
 */
module Revocation {
  import opened Policy

  const MAX_REVOKED := 1024

  datatype Entry = Entry(digest: string, publicKey: string, subject: string, caveats: seq<string>)

  /** Collision resistance of the token digest. */
  ghost predicate Injective(digest: Token -> string) {
    forall s, t {:trigger digest(s), digest(t)} :: digest(s) == digest(t) ==> s == t
  }

  function EntryOf(digest: Token -> string, t: Token): Entry {
    Entry(digest(t), t.publicKey, t.subject, t.caveats)
  }

  /** The token itself, or one whose caveats strictly extend the entry's. */
  predicate RevokedBy(digest: Token -> string, e: Entry, t: Token) {
    && e.subject == t.subject && e.publicKey == t.publicKey
    && (digest(t) == e.digest || (|e.caveats| < |t.caveats| && e.caveats <= t.caveats))
  }

  predicate Revoked(digest: Token -> string, registry: seq<Entry>, t: Token) {
    exists e :: e in registry && RevokedBy(digest, e, t)
  }

  /** The prefix loop of `revokedBy`. */
  method MatchEntry(digest: Token -> string, e: Entry, t: Token) returns (r: bool)
    ensures r <==> RevokedBy(digest, e, t)
  {
    if e.subject != t.subject || e.publicKey != t.publicKey {
      return false;
    }
    if digest(t) == e.digest {
      return true;
    }
    if |e.caveats| >= |t.caveats| {
      return false;
    }
    for i := 0 to |e.caveats|
      invariant e.caveats[..i] == t.caveats[..i]
    {
      if t.caveats[i] != e.caveats[i] {
        assert !(e.caveats <= t.caveats);
        return false;
      }
    }
    return true;
  }

  /** An entry for link `k` hits that link and everything below, nothing above. */
  lemma RevocationCutsChain(digest: Token -> string, ts: seq<Token>, k: nat, j: nat)
    requires Injective(digest) && Chain(ts) && k < |ts| && j < |ts|
    ensures RevokedBy(digest, EntryOf(digest, ts[k]), ts[j]) <==> k <= j
  {
    if k <= j {
      ChainCaveats(ts, k, j);
    } else {
      ChainCaveats(ts, j, k);
    }
  }

  /** An entry hits exactly its own token and the tokens of its subject and key whose caveats strictly extend its. */
  lemma RevokedExactly(digest: Token -> string, t: Token, other: Token)
    requires Injective(digest)
    ensures RevokedBy(digest, EntryOf(digest, t), other) <==>
            && other.subject == t.subject && other.publicKey == t.publicKey
            && (other == t || t.caveats < other.caveats)
  {
  }

  /**
   * Two tokens attenuated to the same caveats: revoking one leaves the other
   * usable, but not what was attenuated from the other.
   */
  lemma SiblingScope(digest: Token -> string, t: Token, ts: seq<Token>, j: nat)
    requires Injective(digest) && Chain(ts) && j < |ts| && ts[0] != t
    requires ts[0].subject == t.subject && ts[0].publicKey == t.publicKey && ts[0].caveats == t.caveats
    ensures RevokedBy(digest, EntryOf(digest, t), ts[j]) <==> j > 0
  {
    ChainCaveats(ts, 0, j);
  }

  datatype RevokeResult = Recorded | AlreadyRevoked | NotVerifiable | ReasonTooLong | RegistryFull | WriteFailed

  /** An audit record of a revocation: which token, and whether it was admitted. */
  datatype Note = Note(principal: string, digest: string, allowed: bool, detail: string)

  function JoinCaveats(caveats: seq<string>): string {
    if caveats == [] then ""
    else if |caveats| == 1 then caveats[0]
    else JoinCaveats(caveats[..|caveats| - 1]) + "|" + caveats[|caveats| - 1]
  }

  class Registry {
    const digest: Token -> string
    var entries: seq<Entry>
    var notes: seq<Note>
    var committed: (seq<Entry>, seq<Note>)
    ghost var tokens: seq<Token>

    /** Between operations the live registry is the committed one, and each entry is that of a revoked token. */
    ghost predicate Valid()
      reads this
    {
      && Injective(digest) && committed == (entries, notes)
      && |entries| == |tokens| && |entries| <= MAX_REVOKED
      && forall i | 0 <= i < |entries| :: entries[i] == EntryOf(digest, tokens[i])
    }

    constructor (h: Token -> string)
      requires Injective(h)
      ensures Valid() && digest == h && entries == [] && notes == []
    {
      digest, entries, notes, tokens, committed := h, [], [], [], ([], []);
    }

    /** A write commits the live registry or restores the committed one. */
    method Persist(ok: bool)
      modifies this`entries, this`notes, this`committed
      ensures committed == (entries, notes) == if ok then old((entries, notes)) else old(committed)
    {
      if ok {
        committed := (entries, notes);
      } else {
        entries, notes := committed.0, committed.1;
      }
    }

    /**
     * Revocations are never evicted; a full registry refuses instead, and says
     * so in the audit log. `ok` is whether the write succeeds.
     */
    method Revoke(principal: string, t: Token, verified: bool, reasonLength: nat, ok: bool) returns (r: RevokeResult)
      requires Valid()
      modifies this
      ensures Valid() && old(entries) <= entries && old(notes) <= notes
      ensures r.Recorded? <==> entries == old(entries) + [EntryOf(digest, t)]
      ensures !r.Recorded? ==> entries == old(entries)
      ensures r.Recorded? || r.AlreadyRevoked? ==> EntryOf(digest, t) in entries
      ensures r.NotVerifiable? <==> !verified
      ensures r.ReasonTooLong? <==> verified && reasonLength > 256
      ensures r.AlreadyRevoked? <==> verified && reasonLength <= 256 && EntryOf(digest, t) in old(entries)
      ensures r.RegistryFull? ==> |entries| == MAX_REVOKED && ok
      ensures r.WriteFailed? ==> !ok
      ensures notes == old(notes) + (if r.Recorded? then [Note(principal, digest(t), true, JoinCaveats(t.caveats))]
                                     else if r.RegistryFull? then [Note(principal, digest(t), false, "registry full")] else [])
    {
      if !verified {
        return NotVerifiable;
      }
      if reasonLength > 256 {
        return ReasonTooLong;
      }
      for i := 0 to |entries|
        invariant forall j | 0 <= j < i :: entries[j].digest != digest(t)
      {
        if entries[i].digest == digest(t) {
          assert tokens[i] == t;
          return AlreadyRevoked;
        }
      }
      if |entries| >= MAX_REVOKED {
        notes := notes + [Note(principal, digest(t), false, "registry full")];
        Persist(ok);
        return if ok then RegistryFull else WriteFailed;
      }
      entries := entries + [EntryOf(digest, t)];
      notes := notes + [Note(principal, digest(t), true, JoinCaveats(t.caveats))];
      Persist(ok);
      if !ok {
        return WriteFailed;
      }
      tokens := tokens + [t];
      return Recorded;
    }

    method TokenRevoked(t: Token) returns (r: bool)
      ensures r <==> Revoked(digest, entries, t)
    {
      for i := 0 to |entries|
        invariant forall j | 0 <= j < i :: !RevokedBy(digest, entries[j], t)
      {
        var hit := MatchEntry(digest, entries[i], t);
        if hit {
          return true;
        }
      }
      return false;
    }
  }

  /**
   * Adding the entry of one link denies that link and its descendants, and
   * leaves ancestors and tokens of another subject or key as they were.
   */
  lemma RevocationScope(digest: Token -> string, registry: seq<Entry>, ts: seq<Token>, k: nat, j: nat, other: Token)
    requires Injective(digest) && Chain(ts) && k < |ts| && j < |ts|
    ensures var after := registry + [EntryOf(digest, ts[k])];
            && (k <= j ==> Revoked(digest, after, ts[j]))
            && (j < k ==> (Revoked(digest, after, ts[j]) <==> Revoked(digest, registry, ts[j])))
            && (other.subject != ts[k].subject || other.publicKey != ts[k].publicKey ==>
                  (Revoked(digest, after, other) <==> Revoked(digest, registry, other)))
  {
    var e := EntryOf(digest, ts[k]);
    var after := registry + [e];
    RevocationCutsChain(digest, ts, k, j);
    assert after[|registry|] == e;
    forall t: Token
      ensures Revoked(digest, after, t) <==> Revoked(digest, registry, t) || RevokedBy(digest, e, t)
    {
      if Revoked(digest, registry, t) {
        var f :| f in registry && RevokedBy(digest, f, t);
        assert f in after;
      }
    }
  }
}
