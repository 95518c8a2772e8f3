/**
 * Turn settlement across the two stores: a provider's answer is fixed once, written to
 * the context once under the message's own keys, and charged once, whatever fails or
 * crashes in between.
 */
module TurnSettlement {
  import opened Text
  import opened Mailboxes
  import opened SupervisorState
  import opened Operations
  import opened System
  import opened Safety
  import CS = ContextStore

  // ---- Flights ----

  /** A message in flight is claimed, its taint is charged, and it has no result yet. */
  ghost predicate Flying(e: Env, m: Main, n: nat, f: Flight) {
    && Holds(m.mail, f.app, n) && f.app in m.apps && n !in m.results
    && Message(m.mail, f.app, n).payload == f.payload && Message(m.mail, f.app, n).status != Pending
    && e.taintOf(f.payload) <= m.apps[f.app].taint
  }

  ghost predicate FlightsOk(e: Env, m: Main, turns: map<nat, Flight>) {
    forall n {:trigger Flying(e, m, n, turns[n])} | n in turns :: Flying(e, m, n, turns[n])
  }

  /** The provider is only ever running for a message with nothing prepared. */
  ghost predicate CallsOk(m: Main, turns: map<nat, Flight>) {
    forall n | n in turns && turns[n].phase == Calling :: n !in m.prepared
  }

  lemma StatusStays(a: Mail, b: Mail, next: nat, id: AppId, n: nat)
    requires MailOnward(a, b) && MailOk(b, next) && NoneReturned(a, b) && Holds(a, id, n)
    ensures Holds(b, id, n) && Message(b, id, n).payload == Message(a, id, n).payload
    ensures Message(a, id, n).status != Pending ==> Message(b, id, n).status != Pending
  {
    HoldsOnward(a, b, next, id, n);
    assert Onward(a[id], b[id]) && BoxOk(b[id], next) && Unreturned(BoxOf(a, id), BoxOf(b, id));
    FindOnward(a[id], b[id], next, n);
  }

  lemma FlightFrame(e: Env, a: Main, b: Main, next: nat, turns: map<nat, Flight>)
    requires FlightsOk(e, a, turns) && MainOnward(a, b) && MailOk(b.mail, next) && NoneReturned(a.mail, b.mail)
    requires forall n | n in turns :: n !in b.results
    ensures FlightsOk(e, b, turns)
  {
    hide MailOk, NoneReturned, MailOnward, Holds, Message;
    forall n | n in turns
      ensures Flying(e, b, n, turns[n])
    {
      assert Flying(e, a, n, turns[n]);
      StatusStays(a.mail, b.mail, next, turns[n].app, n);
      assert AppOnward(a.apps[turns[n].app], b.apps[turns[n].app]);
    }
  }

  // ---- Keys ----

  lemma MessageIdInjective(m: nat, n: nat)
    requires MessageId(m) == MessageId(n)
    ensures m == n
  {
    assert Dec(m) == MessageId(m)[4..] && Dec(n) == MessageId(n)[4..];
    DecInjective(m, n);
  }

  lemma ResultKeyInjective(m: nat, n: nat)
    requires ResultKey(m) == ResultKey(n)
    ensures m == n
  {
    assert ResultKey(m) == MessageId(m) + ":" + "result" && ResultKey(n) == MessageId(n) + ":" + "result";
    SplitAtLastColon(MessageId(m), "result", MessageId(n), "result");
    MessageIdInjective(m, n);
  }

  lemma CheckpointKeyInjective(m: nat, n: nat)
    requires CheckpointKey(m) == CheckpointKey(n)
    ensures m == n
  {
    assert CheckpointKey(m) == MessageId(m) + ":" + "checkpoint" && CheckpointKey(n) == MessageId(n) + ":" + "checkpoint";
    SplitAtLastColon(MessageId(m), "checkpoint", MessageId(n), "checkpoint");
    MessageIdInjective(m, n);
  }

  lemma KeysDiffer(m: nat, n: nat)
    ensures ResultKey(m) != CheckpointKey(n)
  {
    var a, b := ResultKey(m), CheckpointKey(n);
    assert a[|a| - 2] == ":result"[5] && b[|b| - 2] == ":checkpoint"[9];
  }

  /** A key of the turn runner starts with the message id; forks and imports have their own tags. */
  predicate TurnKey(key: string) { HasPrefix(key, "msg-") }

  lemma TurnKeys(n: nat)
    ensures TurnKey(ResultKey(n)) && TurnKey(CheckpointKey(n))
    ensures 0 < |ResultKey(n)| && 0 < |CheckpointKey(n)|
  {
  }

  // ---- Rows in the context store ----

  /** The context's log holds this operation, with this kind. */
  ghost predicate Row(ctx: CS.Store, c: CS.ContextId, key: string, kind: CS.Kind) {
    && (c, key) in ctx.operations
    && exists i :: 0 <= i < |ctx.commits| && ctx.commits[i].context == c && ctx.commits[i].key == key && ctx.commits[i].kind == kind
  }

  lemma RowGrows(a: CS.Store, b: CS.Store, c: CS.ContextId, key: string, kind: CS.Kind)
    requires CS.Grows(a, b) && Row(a, c, key, kind)
    ensures Row(b, c, key, kind) && b.operations[(c, key)] == a.operations[(c, key)]
  {
    var i :| 0 <= i < |a.commits| && a.commits[i].context == c && a.commits[i].key == key && a.commits[i].kind == kind;
    assert b.commits[i] == a.commits[i];
  }

  /** Exactly one commit carries a key of a context. */
  lemma RowIsUnique(ctx: CS.Store, c: CS.ContextId, key: string, i: nat, j: nat)
    requires CS.WF(ctx) && i < |ctx.commits| && j < |ctx.commits|
    requires ctx.commits[i].context == ctx.commits[j].context == c && ctx.commits[i].key == ctx.commits[j].key == key
    ensures i == j
  {
    assert CS.LogOk(ctx.operations, ctx.commits);
  }

  function ContextOf(m: Main, id: AppId): CS.ContextId
    requires id in m.apps
  {
    m.apps[id].context
  }

  /** A settled turn's append and checkpoint are in its context's log, and its checkpoint is the one recorded. */
  ghost predicate SettledOk(m: Main, ctx: CS.Store, n: nat, t: Turn) {
    && t.app in m.apps
    && Row(ctx, ContextOf(m, t.app), ResultKey(n), CS.AppendKind)
    && Row(ctx, ContextOf(m, t.app), CheckpointKey(n), CS.CheckpointKind)
    && ctx.operations[(ContextOf(m, t.app), CheckpointKey(n))].result == t.checkpoint
  }

  /** The bytes the append of a prepared turn writes. */
  ghost function TurnBytes(e: Env, m: Main, n: nat): string
    requires n in m.prepared && Holds(m.mail, m.prepared[n].app, n)
  {
    e.turnBytes(Message(m.mail, m.prepared[n].app, n).payload, m.prepared[n].text)
  }

  /**
   * The append row of a settled turn is in the turn's own context and holds its message and its text; a turn
   * settled after its application was retired no longer shows the text it wrote.
   */
  ghost predicate AppendSettled(e: Env, m: Main, ctx: CS.Store, c: CS.ContextId, n: nat, t: Turn) {
    && t.app in m.apps && ContextOf(m, t.app) == c && Holds(m.mail, t.app, n)
    && Row(ctx, c, ResultKey(n), CS.AppendKind)
    && exists text :: WroteText(e, m, ctx, c, n, t, text)
  }

  ghost predicate WroteText(e: Env, m: Main, ctx: CS.Store, c: CS.ContextId, n: nat, t: Turn, text: string)
    requires Holds(m.mail, t.app, n) && (c, ResultKey(n)) in ctx.operations
  {
    && (t.outcome == WhenRetired || text == t.text)
    && ctx.operations[(c, ResultKey(n))].digest == CS.Digest(ctx, CS.AppendKind, e.turnBytes(Message(m.mail, t.app, n).payload, text))
  }

  /** An append row belongs to a settled turn or to a prepared one, and holds that turn's bytes. */
  ghost predicate AppendOwed(e: Env, m: Main, ctx: CS.Store, c: CS.ContextId, n: nat) {
    || (n in m.results && AppendSettled(e, m, ctx, c, n, m.results[n]))
    || (&& n in m.prepared && m.prepared[n].app in m.apps && ContextOf(m, m.prepared[n].app) == c
        && Holds(m.mail, m.prepared[n].app, n)
        && Row(ctx, c, ResultKey(n), CS.AppendKind)
        && ctx.operations[(c, ResultKey(n))].digest == CS.Digest(ctx, CS.AppendKind, TurnBytes(e, m, n)))
  }

  ghost predicate CheckpointOf(m: Main, ctx: CS.Store, c: CS.ContextId, n: nat, t: Turn) {
    && t.app in m.apps && ContextOf(m, t.app) == c
    && Row(ctx, c, CheckpointKey(n), CS.CheckpointKind)
    && ctx.operations[(c, CheckpointKey(n))].digest == CS.Digest(ctx, CS.CheckpointKind, "")
  }

  ghost predicate CheckpointOwed(m: Main, ctx: CS.Store, c: CS.ContextId, n: nat) {
    || (n in m.results && CheckpointOf(m, ctx, c, n, m.results[n]))
    || (n in m.prepared && CheckpointOf(m, ctx, c, n, m.prepared[n]))
  }

  /** Every application owns its context. */
  ghost predicate ContextsOwned(m: Main, ctx: CS.Store) {
    forall id | id in m.apps :: m.apps[id].context in ctx.contexts && ctx.contexts[m.apps[id].context].owner == m.apps[id].owner != ""
  }

  ghost predicate RowsOk(e: Env, m: Main, ctx: CS.Store) {
    && ContextsOwned(m, ctx)
    && (forall n {:trigger SettledOk(m, ctx, n, m.results[n])} | n in m.results :: SettledOk(m, ctx, n, m.results[n]))
    && (forall c, n: nat {:trigger AppendOwed(e, m, ctx, c, n)} | (c, ResultKey(n)) in ctx.operations :: AppendOwed(e, m, ctx, c, n))
    && (forall c, n: nat {:trigger CheckpointOwed(m, ctx, c, n)} | (c, CheckpointKey(n)) in ctx.operations :: CheckpointOwed(m, ctx, c, n))
  }

  /** Moves of the supervisor's state that settle nothing keep the rows explained. */
  lemma RowsFrame(e: Env, a: Main, b: Main, next: nat, ctx: CS.Store)
    requires RowsOk(e, a, ctx) && MainOnward(a, b) && MailOk(b.mail, next)
    requires b.results == a.results && b.prepared == a.prepared && ContextsOwned(b, ctx)
    ensures RowsOk(e, b, ctx)
  {
    hide MailOk, MailOnward, Holds, Message, Row, ContextsOwned, CS.Digest;
    forall n | n in b.results
      ensures SettledOk(b, ctx, n, b.results[n])
    {
      assert SettledOk(a, ctx, n, a.results[n]);
      assert AppOnward(a.apps[a.results[n].app], b.apps[a.results[n].app]);
    }
    forall c, n: nat | (c, ResultKey(n)) in ctx.operations
      ensures AppendOwed(e, b, ctx, c, n)
    {
      assert AppendOwed(e, a, ctx, c, n);
      AppendFrame(e, a, b, next, ctx, c, n);
    }
    forall c, n: nat | (c, CheckpointKey(n)) in ctx.operations
      ensures CheckpointOwed(b, ctx, c, n)
    {
      assert CheckpointOwed(a, ctx, c, n);
      CheckpointFrame(a, b, ctx, c, n);
    }
  }

  lemma AppendFrame(e: Env, a: Main, b: Main, next: nat, ctx: CS.Store, c: CS.ContextId, n: nat)
    requires AppendOwed(e, a, ctx, c, n) && MainOnward(a, b) && MailOk(b.mail, next)
    requires n in a.results ==> n in b.results && b.results[n] == a.results[n]
    requires n in a.prepared ==> n in b.prepared && b.prepared[n] == a.prepared[n]
    ensures AppendOwed(e, b, ctx, c, n)
  {
    hide MailOk, MailOnward, Holds, Message, Row, CS.Digest;
    var settled := n in a.results && AppendSettled(e, a, ctx, c, n, a.results[n]);
    var t := if settled then a.results[n] else a.prepared[n];
    assert AppOnward(a.apps[t.app], b.apps[t.app]);
    HoldsOnward(a.mail, b.mail, next, t.app, n);
    if settled {
      SettledFrame(e, a, b, ctx, c, n, t);
    }
  }

  lemma SettledFrame(e: Env, a: Main, b: Main, ctx: CS.Store, c: CS.ContextId, n: nat, t: Turn)
    requires AppendSettled(e, a, ctx, c, n, t) && t.app in b.apps && ContextOf(b, t.app) == c
    requires Holds(b.mail, t.app, n) && Message(b.mail, t.app, n).payload == Message(a.mail, t.app, n).payload
    ensures AppendSettled(e, b, ctx, c, n, t)
  {
    hide Holds, Message, CS.Digest;
    var text :| WroteText(e, a, ctx, c, n, t, text);
    assert WroteText(e, b, ctx, c, n, t, text);
  }

  lemma CheckpointFrame(a: Main, b: Main, ctx: CS.Store, c: CS.ContextId, n: nat)
    requires CheckpointOwed(a, ctx, c, n) && MainOnward(a, b)
    requires n in a.results ==> n in b.results && b.results[n] == a.results[n]
    requires n in a.prepared ==> n in b.prepared && b.prepared[n] == a.prepared[n]
    ensures CheckpointOwed(b, ctx, c, n)
  {
    hide Row, CS.Digest, MailOnward;
    var t := if n in a.results && CheckpointOf(a, ctx, c, n, a.results[n]) then a.results[n] else a.prepared[n];
    assert AppOnward(a.apps[t.app], b.apps[t.app]);
  }

  lemma OwnedOnward(a: Main, b: Main, ctx: CS.Store)
    requires ContextsOwned(a, ctx) && AppsOnward(a.apps, b.apps) && b.apps.Keys == a.apps.Keys
    ensures ContextsOwned(b, ctx)
  {
    forall id | id in b.apps
      ensures b.apps[id].context in ctx.contexts && ctx.contexts[b.apps[id].context].owner == b.apps[id].owner != ""
    {
      assert AppOnward(a.apps[id], b.apps[id]);
    }
  }

  // ---- Context operations ----

  /** What an accepted operation leaves in the logs of the context store. */
  ghost predicate LogsAfter(a: CS.Store, op: CS.Op, b: CS.Store, r: string)
    requires !op.Create?
  {
    && CS.WF(b) && CS.Grows(a, b)
    && (op.id, op.key) in b.operations && b.operations[(op.id, op.key)] == CS.OpRow(CS.Digest(a, op.Kind(), op.Input()), r)
    && (if (op.id, op.key) in a.operations then b == a
        else
          && b.operations == a.operations[(op.id, op.key) := b.operations[(op.id, op.key)]]
          && b.commits == a.commits + [CS.Commit(|a.commits| + 1, op.id, op.Kind(), r, op.key)])
  }

  lemma ApplyLogs(ctx: CS.Store, op: CS.Op)
    requires CS.WF(ctx) && !op.Create? && CS.Apply(ctx, op).Ok?
    ensures LogsAfter(ctx, op, CS.Apply(ctx, op).value.0, CS.Apply(ctx, op).value.1)
  {
    hide CS.Core, CS.LogOk, CS.View, CS.Apply, CS.AbsEffect, CS.Grows, CS.WF;
    CS.StepGrows(ctx, op);
    CS.ApplyRefines(ctx, op);
  }

  lemma CreateLogs(ctx: CS.Store, op: CS.Op)
    requires CS.WF(ctx) && op.Create? && CS.Apply(ctx, op).Ok?
    ensures var t := CS.Apply(ctx, op).value.0;
            CS.WF(t) && CS.Grows(ctx, t) && t.operations == ctx.operations && t.commits == ctx.commits
  {
    CS.StepGrows(ctx, op);
    CS.ApplyRefines(ctx, op);
    hide CS.Core, CS.LogOk, CS.View, CS.Apply, CS.AbsEffect, CS.Grows;
  }

  lemma OwnedGrows(m: Main, a: CS.Store, b: CS.Store)
    requires ContextsOwned(m, a) && CS.Grows(a, b)
    ensures ContextsOwned(m, b)
  {
  }

  /** New rows under other keys explain themselves away. */
  lemma RowsGrow(e: Env, m: Main, a: CS.Store, b: CS.Store)
    requires RowsOk(e, m, a) && CS.Grows(a, b)
    requires forall k | k in b.operations :: k in a.operations || !TurnKey(k.1)
    ensures RowsOk(e, m, b)
  {
    OwnedGrows(m, a, b);
    hide Holds, Message, Row, ContextsOwned, TurnKey, CS.Grows, TurnBytes;
    SameDigests(a, b);
    forall n | n in m.results
      ensures SettledOk(m, b, n, m.results[n])
    {
      assert SettledOk(m, a, n, m.results[n]);
      var c := ContextOf(m, m.results[n].app);
      RowGrows(a, b, c, ResultKey(n), CS.AppendKind);
      RowGrows(a, b, c, CheckpointKey(n), CS.CheckpointKind);
    }
    forall c, n: nat | (c, ResultKey(n)) in b.operations
      ensures AppendOwed(e, m, b, c, n)
    {
      TurnKeys(n);
      AppendGrows(e, m, a, b, c, n);
    }
    forall c, n: nat | (c, CheckpointKey(n)) in b.operations
      ensures CheckpointOwed(m, b, c, n)
    {
      TurnKeys(n);
      CheckpointGrows(e, m, a, b, c, n);
    }
  }

  lemma SameDigests(a: CS.Store, b: CS.Store)
    requires CS.Grows(a, b)
    ensures forall k: CS.Kind, x: string :: CS.Digest(b, k, x) == CS.Digest(a, k, x)
  {
  }

  lemma AppendGrows(e: Env, m: Main, a: CS.Store, b: CS.Store, c: CS.ContextId, n: nat)
    requires RowsOk(e, m, a) && CS.Grows(a, b) && (c, ResultKey(n)) in a.operations
    ensures AppendOwed(e, m, b, c, n)
  {
    hide Holds, Message, Row, ContextsOwned, CS.Grows, TurnBytes, CS.Digest;
    SameDigests(a, b);
    assert AppendOwed(e, m, a, c, n);
    RowGrows(a, b, c, ResultKey(n), CS.AppendKind);
    if n in m.results && AppendSettled(e, m, a, c, n, m.results[n]) {
      var text :| WroteText(e, m, a, c, n, m.results[n], text);
      assert WroteText(e, m, b, c, n, m.results[n], text);
    }
  }

  lemma CheckpointGrows(e: Env, m: Main, a: CS.Store, b: CS.Store, c: CS.ContextId, n: nat)
    requires RowsOk(e, m, a) && CS.Grows(a, b) && (c, CheckpointKey(n)) in a.operations
    ensures CheckpointOwed(m, b, c, n)
  {
    hide Holds, Message, Row, ContextsOwned, CS.Grows, TurnBytes, CS.Digest;
    SameDigests(a, b);
    assert CheckpointOwed(m, a, c, n);
    RowGrows(a, b, c, CheckpointKey(n), CS.CheckpointKind);
  }

  lemma SettledGrows(m: Main, a: CS.Store, b: CS.Store, n: nat, t: Turn)
    requires SettledOk(m, a, n, t) && CS.Grows(a, b)
    ensures SettledOk(m, b, n, t)
  {
    hide Row, CS.Grows;
    var c := ContextOf(m, t.app);
    RowGrows(a, b, c, ResultKey(n), CS.AppendKind);
    RowGrows(a, b, c, CheckpointKey(n), CS.CheckpointKind);
  }

  ghost predicate Preparing(m: Main, n: nat) {
    n in m.prepared && n !in m.results && m.prepared[n].app in m.apps && Holds(m.mail, m.prepared[n].app, n)
  }

  lemma FreshRow(a: CS.Store, op: CS.Op, b: CS.Store, r: string)
    requires !op.Create? && LogsAfter(a, op, b, r) && (op.id, op.key) !in a.operations
    ensures Row(b, op.id, op.key, op.Kind())
  {
    assert b.commits[|a.commits|] == CS.Commit(|a.commits| + 1, op.id, op.Kind(), r, op.key);
  }

  /** Appending a prepared turn leaves its row, whether this is the first attempt or a repeat. */
  lemma AppendRows(e: Env, m: Main, a: CS.Store, op: CS.Op, b: CS.Store, r: string, n: nat)
    requires RowsOk(e, m, a) && Preparing(m, n) && op.Append? && LogsAfter(a, op, b, r)
    requires op.id == ContextOf(m, m.prepared[n].app) && op.key == ResultKey(n) && op.data == TurnBytes(e, m, n)
    ensures RowsOk(e, m, b) && Row(b, op.id, ResultKey(n), CS.AppendKind)
  {
    if (op.id, op.key) in a.operations {
      assert AppendOwed(e, m, a, op.id, n);
    } else {
      FreshRow(a, op, b, r);
      OwnedGrows(m, a, b);
      SameDigests(a, b);
      hide Holds, Message, Row, ContextsOwned, CS.Grows, TurnBytes, CS.Digest;
      forall x | x in m.results
        ensures SettledOk(m, b, x, m.results[x])
      {
        assert SettledOk(m, a, x, m.results[x]);
        SettledGrows(m, a, b, x, m.results[x]);
      }
      forall c, x: nat | (c, ResultKey(x)) in b.operations
        ensures AppendOwed(e, m, b, c, x)
      {
        if (c, ResultKey(x)) in a.operations {
          AppendGrows(e, m, a, b, c, x);
        } else {
          ResultKeyInjective(x, n);
        }
      }
      forall c, x: nat | (c, CheckpointKey(x)) in b.operations
        ensures CheckpointOwed(m, b, c, x)
      {
        KeysDiffer(n, x);
        CheckpointGrows(e, m, a, b, c, x);
      }
    }
  }

  lemma CheckpointRows(e: Env, m: Main, a: CS.Store, op: CS.Op, b: CS.Store, r: string, n: nat)
    requires RowsOk(e, m, a) && Preparing(m, n) && op.Checkpoint? && LogsAfter(a, op, b, r)
    requires op.id == ContextOf(m, m.prepared[n].app) && op.key == CheckpointKey(n)
    ensures RowsOk(e, m, b) && Row(b, op.id, CheckpointKey(n), CS.CheckpointKind)
  {
    if (op.id, op.key) in a.operations {
      assert CheckpointOwed(m, a, op.id, n);
    } else {
      FreshRow(a, op, b, r);
      OwnedGrows(m, a, b);
      SameDigests(a, b);
      hide Holds, Message, Row, ContextsOwned, CS.Grows, TurnBytes, CS.Digest;
      forall x | x in m.results
        ensures SettledOk(m, b, x, m.results[x])
      {
        assert SettledOk(m, a, x, m.results[x]);
        SettledGrows(m, a, b, x, m.results[x]);
      }
      forall c, x: nat | (c, ResultKey(x)) in b.operations
        ensures AppendOwed(e, m, b, c, x)
      {
        KeysDiffer(x, n);
        AppendGrows(e, m, a, b, c, x);
      }
      forall c, x: nat | (c, CheckpointKey(x)) in b.operations
        ensures CheckpointOwed(m, b, c, x)
      {
        if (c, CheckpointKey(x)) in a.operations {
          CheckpointGrows(e, m, a, b, c, x);
        } else {
          CheckpointKeyInjective(x, n);
        }
      }
    }
  }

  // ---- The invariant ----

  /** How far the turn being finished has got, in both stores. */
  ghost predicate LockOk(w: World) {
    w.lock.Finishing? ==>
      var n, m := w.lock.n, w.disk.main;
      && n in w.turns && w.turns[n].phase.Answered? && n in m.prepared && m.prepared[n].app == w.turns[n].app && w.turns[n].app in m.apps
      && var c := ContextOf(m, w.turns[n].app);
         && (w.lock.stage != ToAppend ==> Row(w.ctx, c, ResultKey(n), CS.AppendKind))
         && (w.lock.stage.ToSettle? ==>
               && Row(w.ctx, c, CheckpointKey(n), CS.CheckpointKind)
               && w.ctx.operations[(c, CheckpointKey(n))].result == w.lock.stage.checkpoint)
  }

  ghost predicate TurnInv(e: Env, w: World) {
    && FlightsOk(e, w.disk.main, w.turns) && CallsOk(w.disk.main, w.turns)
    && RowsOk(e, w.disk.main, w.ctx) && LockOk(w)
  }

  /** A move that neither prepares, settles nor returns a turn. */
  ghost predicate Plain(a: Main, b: Main) {
    b.results == a.results && b.prepared == a.prepared && NoneReturned(a.mail, b.mail) && b.apps.Keys == a.apps.Keys
  }

  lemma MailIsOk(e: Env, st: State)
    requires Good(e, st)
    ensures MailOk(st.main.mail, st.log.next)
  {
  }

  lemma NoneReturnedRefl(mail: Mail)
    ensures NoneReturned(mail, mail)
  {
  }

  lemma PlainFrame(e: Env, a: Main, b: Main, next: nat, turns: map<nat, Flight>, ctx: CS.Store)
    requires FlightsOk(e, a, turns) && CallsOk(a, turns) && RowsOk(e, a, ctx)
    requires MainOnward(a, b) && MailOk(b.mail, next) && Plain(a, b)
    ensures FlightsOk(e, b, turns) && CallsOk(b, turns) && RowsOk(e, b, ctx)
  {
    forall n | n in turns
      ensures n !in b.results
    {
      assert Flying(e, a, n, turns[n]);
    }
    hide MailOk, NoneReturned, Holds, Message, Row, FlightsOk, AppendOwed, CheckpointOwed, SettledOk;
    FlightFrame(e, a, b, next, turns);
    OwnedOnward(a, b, ctx);
    RowsFrame(e, a, b, next, ctx);
  }

  /** Committing a plain move, or failing to. */
  lemma PlainStep(e: Env, w: World, v: World, st: State, ok: bool)
    requires StateInv(e, w) && TurnInv(e, w) && Good(e, st) && Forward(w.live, st) && Plain(w.live.main, st.main)
    requires v.live == Commit(w, st, ok).live && v.disk == Commit(w, st, ok).disk
    requires v.turns == w.turns && v.ctx == w.ctx && v.lock == Free
    ensures Keeps(e, w, v) && TurnInv(e, v)
  {
    CommitKeeps(e, w, v, st, ok);
    if ok {
      MailIsOk(e, st);
      hide Good, MailOk, NoneReturned, FlightsOk, CallsOk, RowsOk, Plain, MainOnward, CS.WF;
      PlainFrame(e, w.disk.main, st.main, st.log.next, w.turns, w.ctx);
    }
  }

  lemma SubFlights(e: Env, m: Main, turns: map<nat, Flight>, some: map<nat, Flight>)
    requires FlightsOk(e, m, turns) && CallsOk(m, turns) && forall n | n in some :: n in turns && some[n] == turns[n]
    ensures FlightsOk(e, m, some) && CallsOk(m, some)
  {
    hide Flying;
    forall n | n in some
      ensures Flying(e, m, n, some[n])
    {
      assert Flying(e, m, n, turns[n]);
    }
  }

  /** Nothing happens to either store; turns may end. */
  lemma StillStep(e: Env, w: World, v: World)
    requires StateInv(e, w) && TurnInv(e, w) && v.disk == w.disk && (v.live == w.live || v.live == w.disk) && v.ctx == w.ctx && v.lock == Free
    requires forall n | n in v.turns :: n in w.turns && v.turns[n] == w.turns[n]
    ensures Keeps(e, w, v) && TurnInv(e, v)
  {
    hide Good, CS.WF, FlightsOk, CallsOk, RowsOk;
    SameKeeps(e, w, v);
    SubFlights(e, w.disk.main, w.turns, v.turns);
  }

  lemma CalmPlain(a: Main, b: Main)
    requires Calm(a, b) && b.apps.Keys == a.apps.Keys
    ensures Plain(a, b)
  {
    hide SteadyMail, NoneReturned, TimersServed;
    SteadyBenign(a.mail, b.mail);
  }

  lemma SamePlain(a: Main, b: Main)
    requires b.results == a.results && b.prepared == a.prepared && b.mail == a.mail && b.apps.Keys == a.apps.Keys
    ensures Plain(a, b)
  {
    NoneReturnedRefl(a.mail);
  }
}
