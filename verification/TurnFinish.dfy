/**
 * `finishTurn` as it runs, across the supervisor's state and the context database: the
 * answer is committed as prepared, written to the context under the message's keys, and
 * settled, with every write free to fail.
 */
module TurnFinish {
  import opened Wrappers
  import opened SupervisorState
  import opened Operations
  import opened System
  import opened Runs
  import opened SupervisorObject
  import ContextDatabase
  import CS = ContextStore

  /** The objects hold what the world says they hold. */
  ghost predicate Holding(s: Supervisor, db: ContextDatabase.Database, w: World)
    reads s, db
  {
    w.live == s.Now() && w.disk == s.committed && w.ctx == db.Now()
  }

  /** The worlds a finishing turn goes through: prepared, appended, checkpointed, settled. */
  ghost function Finished(e: Env, w: World, n: nat, prepares: bool, settles: bool, now: int): World {
    DoSettle(e, DoCheckpoint(DoAppend(e, DoFinish(e, w, n, prepares))), now, settles)
  }

  lemma FinishedKeeps(e: Env, w: World, n: nat, prepares: bool, settles: bool, now: int)
    requires Inv(e, w)
    ensures Inv(e, DoFinish(e, w, n, prepares)) && Inv(e, DoAppend(e, DoFinish(e, w, n, prepares)))
    ensures Inv(e, DoCheckpoint(DoAppend(e, DoFinish(e, w, n, prepares))))
    ensures Inv(e, Finished(e, w, n, prepares, settles, now)) && Forward(w.disk, Finished(e, w, n, prepares, settles, now).disk)
  {
    hide Inv, Forward, TimersServed, DoFinish, DoAppend, DoCheckpoint, DoSettle;
    var a := DoFinish(e, w, n, prepares);
    var b := DoAppend(e, a);
    var c := DoCheckpoint(b);
    FinishRun(e, w, n, prepares);
    AppendRun(e, a);
    CheckpointRun(e, b);
    SettleRun(e, c, now, settles);
    ForwardTransitive(w.disk, a.disk, b.disk);
    ForwardTransitive(w.disk, b.disk, c.disk);
    ForwardTransitive(w.disk, c.disk, DoSettle(e, c, now, settles).disk);
  }

  ghost predicate Finishable(w: World, n: nat, f: Flight) {
    Idle(w) && n in w.turns && w.turns[n] == f && f.phase.Answered? && f.app in w.live.main.apps && n !in w.live.main.results
  }

  /** The first write: the turn is prepared on disk, or the attempt is over. */
  method PrepareTurn(s: Supervisor, n: nat, f: Flight, prepares: bool, ghost w: World) returns (going: bool)
    requires Finishable(w, n, f) && w.live == s.Now() && w.disk == s.committed && w.live.main == w.disk.main
    modifies s
    ensures var v := DoFinish(s.e, w, n, prepares);
            && v.live == s.Now() && v.disk == s.committed && v.ctx == w.ctx && v.turns == w.turns && v.up
            && v.lock == (if going then Finishing(n, ToAppend) else Free)
    ensures going ==> n in s.prepared && s.apps == old(s.apps) && s.mail == old(s.mail)
    ensures going <==> n in old(s.prepared) || prepares
  {
    hide PreparedTurn;
    if n in s.prepared {
      return true;
    }
    s.prepared := s.prepared[n := PreparedTurn(f.app, f.phase.answer)];
    s.Persist(prepares);
    return prepares;
  }

  lemma AppendWorld(e: Env, w: World, n: nat, f: Flight)
    requires w.up && w.lock == Finishing(n, ToAppend) && n in w.turns && w.turns[n] == f && n in w.live.main.prepared && f.app in w.live.main.apps
    ensures var v := DoAppend(e, w);
            var op := CS.Append(w.live.main.apps[f.app].owner, w.live.main.apps[f.app].context, ResultKey(n), e.turnBytes(f.payload, w.live.main.prepared[n].text));
            && v == w.(ctx := v.ctx, lock := v.lock) && v.ctx == CS.After(w.ctx, op)
            && v.lock == if CS.Apply(w.ctx, op).Ok? then Finishing(n, ToCheckpoint) else Free
  {
    hide CS.Apply;
  }

  lemma CheckpointWorld(w: World, n: nat, f: Flight)
    requires w.up && w.lock == Finishing(n, ToCheckpoint) && n in w.turns && w.turns[n] == f && f.app in w.live.main.apps
    ensures var v := DoCheckpoint(w);
            var op := CS.Checkpoint(w.live.main.apps[f.app].owner, w.live.main.apps[f.app].context, CheckpointKey(n));
            && v == w.(ctx := v.ctx, lock := v.lock) && v.ctx == CS.After(w.ctx, op)
            && v.lock == if CS.Apply(w.ctx, op).Ok? then Finishing(n, ToSettle(CS.Apply(w.ctx, op).value.1)) else Free
  {
    hide CS.Apply;
  }

  lemma SettleWorld(e: Env, w: World, n: nat, checkpoint: string, now: int, ok: bool)
    requires w.up && w.lock == Finishing(n, ToSettle(checkpoint)) && SettleTurn(e, w.live, n, checkpoint, now).Some?
    ensures var v, st := DoSettle(e, w, now, ok), SettleTurn(e, w.live, n, checkpoint, now).value;
            v.live == v.disk == (if ok then st else w.disk) && v.ctx == w.ctx && Idle(v)
  {
    hide SettleTurn;
  }

  /** The two context writes, each idempotent under the message's own key. */
  method WriteContext(s: Supervisor, db: ContextDatabase.Database, n: nat, f: Flight, ghost w: World) returns (checkpoint: Option<string>)
    requires w.up && w.lock == Finishing(n, ToAppend) && n in w.turns && w.turns[n] == f && n in s.prepared && f.app in s.apps && Holding(s, db, w)
    modifies db
    ensures var v := DoCheckpoint(DoAppend(s.e, w));
            && v == w.(ctx := v.ctx, lock := v.lock) && Holding(s, db, v)
            && v.lock == if checkpoint.Some? then Finishing(n, ToSettle(checkpoint.value)) else Free
  {
    hide CS.Apply, CS.After, DoAppend, DoCheckpoint, ResultKey, CheckpointKey;
    AppendWorld(s.e, w, n, f);
    ghost var a := DoAppend(s.e, w);
    var app := s.apps[f.app];
    var op := CS.Append(app.owner, app.context, ResultKey(n), s.e.turnBytes(f.payload, s.prepared[n].text));
    var appended := db.Mutate(op);
    if appended.Err? {
      NoCheckpoint(a);
      return None;
    }
    CheckpointWorld(a, n, f);
    var taken := db.Mutate(CS.Checkpoint(app.owner, app.context, CheckpointKey(n)));
    return if taken.Err? then None else Some(taken.value);
  }

  lemma NoCheckpoint(w: World)
    requires w.lock == Free
    ensures DoCheckpoint(w) == w
  {
  }

  /** The last write: charge, result and acknowledgement together, or nothing. */
  method CommitTurn(s: Supervisor, n: nat, checkpoint: string, settles: bool, now: int, ghost w: World)
    requires Inv(s.e, w) && w.up && w.lock == Finishing(n, ToSettle(checkpoint)) && n in s.prepared && w.live == s.Now() && w.disk == s.committed
    modifies s
    ensures var v := DoSettle(s.e, w, now, settles);
            v.live == s.Now() && v.disk == s.committed && v.ctx == w.ctx && v.lock == Free
    ensures settles ==> n in s.committed.main.results && n !in s.committed.main.prepared
  {
    hide Inv, DoSettle, SettleTurn;
    PreparedHere(s.e, w, n);
    SettleSucceeds(s.e, w.live, n, checkpoint, now);
    SettleWorld(s.e, w, n, checkpoint, now, settles);
    s.Settle(n, checkpoint, now);
    s.Persist(settles);
  }

  /**
   * A turn is finished, or the attempt is given up; either way every invariant of the system holds, and a
   * settled turn has its result on disk.
   */
  method FinishTurn(s: Supervisor, db: ContextDatabase.Database, n: nat, f: Flight, prepares: bool, settles: bool, now: int, ghost w: World)
    returns (settled: bool, ghost v: World)
    requires Inv(s.e, w) && Holding(s, db, w) && Finishable(w, n, f)
    modifies s, db
    ensures Inv(s.e, v) && Holding(s, db, v) && Forward(w.disk, v.disk) && v.lock == Free
    ensures settled ==> n in s.committed.main.results && n !in s.committed.main.prepared
  {
    hide Inv, Forward, DoFinish, DoAppend, DoCheckpoint, DoSettle, SettleTurn, ResultKey, CheckpointKey, CS.After, CS.Apply;
    LiveGood(s.e, w);
    FinishedKeeps(s.e, w, n, prepares, settles, now);
    v := Finished(s.e, w, n, prepares, settles, now);
    ghost var a := DoFinish(s.e, w, n, prepares);
    var going := PrepareTurn(s, n, f, prepares, w);
    if !going {
      Stalled(s.e, a, now, settles);
      return false, v;
    }
    ghost var c := DoCheckpoint(DoAppend(s.e, a));
    var checkpoint := WriteContext(s, db, n, f, a);
    if checkpoint.None? {
      NoSettle(s.e, c, now, settles);
      return false, v;
    }
    CommitTurn(s, n, checkpoint.value, settles, now, c);
    return settles, v;
  }

  lemma Stalled(e: Env, w: World, now: int, ok: bool)
    requires w.lock == Free
    ensures DoSettle(e, DoCheckpoint(DoAppend(e, w)), now, ok) == w
  {
  }

  lemma NoSettle(e: Env, w: World, now: int, ok: bool)
    requires w.lock == Free
    ensures DoSettle(e, w, now, ok) == w
  {
  }

  lemma PreparedHere(e: Env, w: World, n: nat)
    requires Inv(e, w) && n in w.live.main.prepared
    ensures w.live.main.prepared[n].app in w.live.main.apps && w.live.main.prepared[n].app in w.live.main.mail
  {
    hide Inv;
    LiveGood(e, w);
    PreparedMail(e, w.live, n);
  }

  lemma PreparedMail(e: Env, st: State, n: nat)
    requires Good(e, st) && n in st.main.prepared
    ensures st.main.prepared[n].app in st.main.apps && st.main.prepared[n].app in st.main.mail
  {
    assert PreparedOk(e, st.main.apps, st.main.mail, n, st.main.prepared[n]);
  }

  lemma SettleSucceeds(e: Env, st: State, n: nat, checkpoint: string, now: int)
    requires n in st.main.prepared && st.main.prepared[n].app in st.main.apps
    ensures SettleTurn(e, st, n, checkpoint, now).Some?
    ensures n in SettleTurn(e, st, n, checkpoint, now).value.main.results && n !in SettleTurn(e, st, n, checkpoint, now).value.main.prepared
  {
  }
}
