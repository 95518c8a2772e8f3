/**
 * Every step of the turn runner keeps settlement exactly-once.
 */
module TurnRuns {
  import opened Wrappers
  import opened Mailboxes
  import opened AuditChain
  import opened SupervisorState
  import opened Operations
  import opened System
  import opened Safety
  import opened TurnSettlement
  import CS = ContextStore

  // ---- Claiming ----

  lemma ClaimTurnCalm(e: Env, st: State, id: AppId, now: int)
    requires Good(e, st) && ClaimTurn(e, st, id, now).Some?
    ensures CalmState(st, ClaimTurn(e, st, id, now).value)
  {
    hide Good, CalmState, Steady, Rewrite;
    var m, box := st.main, BoxOf(st.main.mail, id);
    var i := FirstPending(box);
    MarkSteady(box, i, Claimed, box[i].attempts + 1);
    CalmRewrite(e, st, id, m.apps[id].(taint := m.apps[id].taint + e.taintOf(box[i].payload)),
                box[i := box[i].(status := Claimed, attempts := box[i].attempts + 1)],
                Allow("supervisor", id, "turn.claim", MessageId(box[i].number)), now);
  }

  /** The claimed message is in flight with its taint charged. */
  lemma ClaimFlies(e: Env, st: State, id: AppId, now: int)
    requires Good(e, st) && ClaimTurn(e, st, id, now).Some?
    ensures var box := BoxOf(st.main.mail, id);
            var msg := box[FirstPending(box)];
            Flying(e, ClaimTurn(e, st, id, now).value.main, msg.number, Flight(id, msg.payload, Queued))
  {
    MailIsOk(e, st);
    BoxTainted(e, st, id);
    NotSettled(e, st, id, FirstPending(st.main.mail[id]));
    var box := st.main.mail[id];
    var i := FirstPending(box);
    assert BoxOk(box, st.log.next);
    hide Good, MailOk, Note, MessageId, Tainted;
    var after := box[i := box[i].(status := Claimed, attempts := box[i].attempts + 1)];
    FindIs(after, st.log.next, i);
  }

  /** A pending message has no result. */
  lemma NotSettled(e: Env, st: State, id: AppId, i: nat)
    requires Good(e, st) && id in st.main.mail && i < |st.main.mail[id]| && st.main.mail[id][i].status != Acked
    ensures st.main.mail[id][i].number !in st.main.results
  {
    var m := st.main;
    var n := m.mail[id][i].number;
    if n in m.results {
      assert ResultOk(m.mail, n, m.results[n]);
      OneHolder(m.mail, st.log.next, m.results[n].app, id, n, i);
    }
  }

  /** A number names one message of one application. */
  lemma OneHolder(mail: Mail, next: nat, x: AppId, id: AppId, n: nat, i: nat)
    requires MailOk(mail, next) && Holds(mail, x, n) && id in mail && i < |mail[id]| && mail[id][i].number == n
    ensures x == id && Find(mail[id], n) == i
  {
    assert BoxOk(mail[id], next);
    assert x != id ==> Apart(mail[x], mail[id]);
    FindIs(mail[id], next, i);
  }

  lemma AddFlight(e: Env, m: Main, turns: map<nat, Flight>, n: nat, f: Flight)
    requires FlightsOk(e, m, turns) && CallsOk(m, turns) && Flying(e, m, n, f) && (f.phase == Calling ==> n !in m.prepared)
    ensures FlightsOk(e, m, turns[n := f]) && CallsOk(m, turns[n := f])
  {
    hide Flying;
    var more := turns[n := f];
    forall x | x in more
      ensures Flying(e, m, x, more[x])
    {
      assert x != n ==> Flying(e, m, x, turns[x]);
    }
  }

  lemma TakeTurnStep(e: Env, w: World, id: AppId, now: int, ok: bool)
    requires StateInv(e, w) && TurnInv(e, w) && Idle(w)
    ensures Keeps(e, w, DoClaimTurn(e, w, id, now, ok)) && TurnInv(e, DoClaimTurn(e, w, id, now, ok))
  {
    hide Good, CalmState, NoneReturned, FlightsOk, CallsOk, RowsOk, Flying, ClaimTurn, CS.WF, Forward;
    var v := DoClaimTurn(e, w, id, now, ok);
    var r := ClaimTurn(e, w.live, id, now);
    if r.None? {
      StillStep(e, w, v);
    } else {
      ClaimTurnKeeps(e, w.live, id, now);
      ClaimTurnCalm(e, w.live, id, now);
      CalmStatePlain(w.live, r.value);
      PlainStep(e, w, v.(turns := w.turns), r.value, ok);
      if ok {
        ClaimFlies(e, w.live, id, now);
        ClaimedIndex(e, w.live, id, now);
        var box := BoxOf(w.live.main.mail, id);
        var msg := box[FirstPending(box)];
        AddFlight(e, r.value.main, w.turns, msg.number, Flight(id, msg.payload, Queued));
      }
    }
  }

  lemma ClaimedIndex(e: Env, st: State, id: AppId, now: int)
    requires ClaimTurn(e, st, id, now).Some?
    ensures FirstPending(BoxOf(st.main.mail, id)) < |BoxOf(st.main.mail, id)|
  {
  }

  lemma CalmStatePlain(a: State, b: State)
    requires CalmState(a, b)
    ensures Plain(a.main, b.main)
  {
    hide Calm;
    CalmPlain(a.main, b.main);
  }

  // ---- Calling the provider ----

  lemma FlyingNow(e: Env, m: Main, turns: map<nat, Flight>, n: nat)
    requires FlightsOk(e, m, turns) && n in turns
    ensures Flying(e, m, n, turns[n])
  {
  }

  /** The provider is called only for a message that is neither prepared nor settled on disk. */
  lemma StartStep(e: Env, w: World, n: nat)
    requires StateInv(e, w) && TurnInv(e, w) && Idle(w)
    ensures Keeps(e, w, DoStart(w, n)) && TurnInv(e, DoStart(w, n))
    ensures DoStart(w, n).past.called != w.past.called ==> n !in w.disk.main.prepared && n !in w.disk.main.results
  {
    var v := DoStart(w, n);
    if v == w {
      StillStep(e, w, v);
    } else {
      FlyingNow(e, w.disk.main, w.turns, n);
      hide Good, NoneReturned, FlightsOk, CallsOk, RowsOk, CS.WF, Forward, Holds, Message;
      SameKeeps(e, w, v);
      AddFlight(e, w.disk.main, w.turns, n, v.turns[n]);
    }
  }

  lemma LockSame(w: World, v: World)
    requires LockOk(w) && v.lock == w.lock && v.disk == w.disk && v.ctx == w.ctx
    requires w.lock.Finishing? && w.lock.n in w.turns ==> w.lock.n in v.turns && v.turns[w.lock.n] == w.turns[w.lock.n]
    ensures LockOk(v)
  {
    hide Row;
  }

  lemma AnswerFlights(e: Env, m: Main, turns: map<nat, Flight>, n: nat, answer: Answer)
    requires FlightsOk(e, m, turns) && CallsOk(m, turns) && n in turns
    ensures FlightsOk(e, m, turns[n := turns[n].(phase := Answered(answer))])
    ensures CallsOk(m, turns[n := turns[n].(phase := Answered(answer))])
  {
    hide Holds, Message;
    FlyingNow(e, m, turns, n);
    AddFlight(e, m, turns, n, turns[n].(phase := Answered(answer)));
  }

  lemma AnswerStep(e: Env, w: World, n: nat, answer: Answer)
    requires StateInv(e, w) && TurnInv(e, w)
    ensures Keeps(e, w, DoAnswer(w, n, answer)) && TurnInv(e, DoAnswer(w, n, answer))
  {
    var v := DoAnswer(w, n, answer);
    assert w.lock.Finishing? && w.lock.n == n ==> v == w;
    hide Good, FlightsOk, CallsOk, RowsOk, CS.WF, Forward, LockOk;
    SameKeeps(e, w, v);
    if v != w {
      AnswerFlights(e, w.disk.main, w.turns, n, answer);
      LockSame(w, v);
    }
  }

  // ---- Preparing ----

  lemma PreparedRows(e: Env, m: Main, ctx: CS.Store, n: nat, t: Turn)
    requires RowsOk(e, m, ctx) && n !in m.prepared && n !in m.results
    ensures RowsOk(e, m.(prepared := m.prepared[n := t]), ctx)
  {
    hide Row, Holds, Message, ContextsOwned, CS.Digest;
    var after := m.(prepared := m.prepared[n := t]);
    assert ContextsOwned(after, ctx) by { OwnedSame(m, after, ctx); }
    forall x | x in after.results
      ensures SettledOk(after, ctx, x, after.results[x])
    {
      assert SettledOk(m, ctx, x, m.results[x]);
    }
    forall c, x: nat | (c, ResultKey(x)) in ctx.operations
      ensures AppendOwed(e, after, ctx, c, x)
    {
      assert AppendOwed(e, m, ctx, c, x);
      if x in m.results && AppendSettled(e, m, ctx, c, x, m.results[x]) {
        SettledFrame(e, m, after, ctx, c, x, m.results[x]);
      }
    }
    forall c, x: nat | (c, CheckpointKey(x)) in ctx.operations
      ensures CheckpointOwed(after, ctx, c, x)
    {
      assert CheckpointOwed(m, ctx, c, x);
    }
  }

  lemma OwnedSame(a: Main, b: Main, ctx: CS.Store)
    requires ContextsOwned(a, ctx) && b.apps == a.apps
    ensures ContextsOwned(b, ctx)
  {
  }

  lemma PreparedFlights(e: Env, m: Main, turns: map<nat, Flight>, n: nat, t: Turn)
    requires FlightsOk(e, m, turns) && CallsOk(m, turns) && n in turns && turns[n].phase.Answered?
    ensures FlightsOk(e, m.(prepared := m.prepared[n := t]), turns) && CallsOk(m.(prepared := m.prepared[n := t]), turns)
  {
    hide Holds, Message;
    var after := m.(prepared := m.prepared[n := t]);
    forall x | x in turns
      ensures Flying(e, after, x, turns[x])
    {
      assert Flying(e, m, x, turns[x]);
    }
  }

  lemma SameApp(e: Env, st: State, n: nat, f: Flight)
    requires Good(e, st) && Flying(e, st.main, n, f) && n in st.main.prepared
    ensures st.main.prepared[n].app == f.app
  {
    var m := st.main;
    assert PreparedOk(e, m.apps, m.mail, n, m.prepared[n]);
    OneHolder(m.mail, st.log.next, m.prepared[n].app, f.app, n, Find(m.mail[f.app], n));
  }

  lemma FlyingPrepares(e: Env, m: Main, n: nat, f: Flight, t: Turn)
    requires Flying(e, m, n, f) && t.app == f.app
    ensures PreparedOk(e, m.apps, m.mail, n, t) && n !in m.results
  {
  }

  lemma FinishStep(e: Env, w: World, n: nat, ok: bool)
    requires StateInv(e, w) && TurnInv(e, w) && Idle(w)
    ensures Keeps(e, w, DoFinish(e, w, n, ok)) && TurnInv(e, DoFinish(e, w, n, ok))
  {
    var v := DoFinish(e, w, n, ok);
    var m := w.live.main;
    hide Good, FlightsOk, CallsOk, RowsOk, CS.WF, Forward, Flying, PreparedOk;
    if n !in w.turns || !w.turns[n].phase.Answered? || w.turns[n].app !in m.apps || n in m.results {
      StillStep(e, w, v);
    } else {
      FlyingNow(e, w.disk.main, w.turns, n);
      if n in m.prepared {
        SameApp(e, w.disk, n, w.turns[n]);
        SameKeeps(e, w, v);
      } else {
        var t := PreparedTurn(w.turns[n].app, w.turns[n].phase.answer);
        var st := Prepare(w.live, n, t);
        FlyingPrepares(e, m, n, w.turns[n], t);
        PrepareKeeps(e, w.live, n, t);
        CommitKeeps(e, w, v, st, ok);
        if ok {
          PreparedRows(e, m, w.ctx, n, t);
          PreparedFlights(e, m, w.turns, n, t);
        }
      }
    }
  }

  // ---- The two context writes ----

  lemma FlyingHolds(e: Env, m: Main, n: nat, f: Flight)
    requires Flying(e, m, n, f)
    ensures Holds(m.mail, f.app, n) && Message(m.mail, f.app, n).payload == f.payload && n !in m.results
  {
  }

  lemma AppendStep(e: Env, w: World)
    requires StateInv(e, w) && TurnInv(e, w)
    ensures Keeps(e, w, DoAppend(e, w)) && TurnInv(e, DoAppend(e, w))
  {
    var v := DoAppend(e, w);
    hide Good, FlightsOk, CallsOk, RowsOk, CS.WF, Forward, Flying, Holds, Message, Row, CS.Apply;
    if v == w || v.lock == Free {
      SameKeeps(e, w, v);
    } else {
      var n, m := w.lock.n, w.disk.main;
      FlyingNow(e, m, w.turns, n);
      FlyingHolds(e, m, n, w.turns[n]);
      var app := m.apps[w.turns[n].app];
      var op := CS.Append(app.owner, app.context, ResultKey(n), e.turnBytes(w.turns[n].payload, m.prepared[n].text));
      ApplyLogs(w.ctx, op);
      AppendRows(e, m, w.ctx, op, v.ctx, CS.Apply(w.ctx, op).value.1, n);
      LogsWF(w.ctx, op, v.ctx, CS.Apply(w.ctx, op).value.1);
      SameKeeps(e, w, v);
    }
  }

  lemma LogsWF(a: CS.Store, op: CS.Op, b: CS.Store, r: string)
    requires !op.Create? && LogsAfter(a, op, b, r)
    ensures CS.WF(b) && CS.Grows(a, b) && (op.id, op.key) in b.operations && b.operations[(op.id, op.key)].result == r
  {
  }

  lemma CheckpointStep(e: Env, w: World)
    requires StateInv(e, w) && TurnInv(e, w)
    ensures Keeps(e, w, DoCheckpoint(w)) && TurnInv(e, DoCheckpoint(w))
  {
    var v := DoCheckpoint(w);
    hide Good, FlightsOk, CallsOk, RowsOk, CS.WF, Forward, Flying, Holds, Message, Row, CS.Apply;
    if v == w || v.lock == Free {
      SameKeeps(e, w, v);
    } else {
      var n, m := w.lock.n, w.disk.main;
      FlyingNow(e, m, w.turns, n);
      FlyingHolds(e, m, n, w.turns[n]);
      var app := m.apps[w.turns[n].app];
      var op := CS.Checkpoint(app.owner, app.context, CheckpointKey(n));
      ApplyLogs(w.ctx, op);
      CheckpointRows(e, m, w.ctx, op, v.ctx, CS.Apply(w.ctx, op).value.1, n);
      LogsWF(w.ctx, op, v.ctx, CS.Apply(w.ctx, op).value.1);
      RowGrows(w.ctx, v.ctx, app.context, ResultKey(n), CS.AppendKind);
      SameKeeps(e, w, v);
    }
  }

  // ---- Settling ----

  lemma SettledReturns(m: Main, n: nat, t: Turn, app: App)
    ensures NoneReturned(m.mail, Settlement(m, n, t, app).mail)
  {
    var after := Settlement(m, n, t, app).mail;
    forall x
      ensures Unreturned(BoxOf(m.mail, x), BoxOf(after, x))
    {
    }
  }

  lemma SettledFlights(e: Env, a: Main, b: Main, next: nat, turns: map<nat, Flight>, n: nat, t: Turn)
    requires FlightsOk(e, a, turns) && CallsOk(a, turns) && MainOnward(a, b) && MailOk(b.mail, next) && NoneReturned(a.mail, b.mail)
    requires b.results == a.results[n := t] && b.prepared == a.prepared - {n}
    ensures FlightsOk(e, b, turns - {n}) && CallsOk(b, turns - {n})
  {
    hide MailOk, MainOnward, NoneReturned, Holds, Message;
    SubFlights(e, a, turns, turns - {n});
    forall x | x in turns - {n}
      ensures x !in b.results
    {
      assert Flying(e, a, x, turns[x]);
    }
    FlightFrame(e, a, b, next, turns - {n});
  }

  lemma SettledRows(e: Env, a: Main, b: Main, next: nat, ctx: CS.Store, n: nat, t: Turn)
    requires RowsOk(e, a, ctx) && MainOnward(a, b) && MailOk(b.mail, next) && ContextsOwned(b, ctx)
    requires n !in a.results && b.results == a.results[n := t] && b.prepared == a.prepared - {n}
    requires SettledOk(b, ctx, n, t)
    requires n in a.prepared && t.app == a.prepared[n].app && (t.outcome == WhenRetired || t.text == a.prepared[n].text)
    ensures RowsOk(e, b, ctx)
  {
    hide MailOk, MailOnward, Holds, Message, Row, ContextsOwned, CS.Digest;
    forall x | x in b.results
      ensures SettledOk(b, ctx, x, b.results[x])
    {
      if x != n {
        assert SettledOk(a, ctx, x, a.results[x]);
        assert AppOnward(a.apps[a.results[x].app], b.apps[a.results[x].app]);
      }
    }
    forall c, x: nat | (c, ResultKey(x)) in ctx.operations
      ensures AppendOwed(e, b, ctx, c, x)
    {
      assert AppendOwed(e, a, ctx, c, x);
      if x == n {
        AppendSettles(e, a, b, next, ctx, c, n, t);
      } else {
        AppendFrame(e, a, b, next, ctx, c, x);
      }
    }
    forall c, x: nat | (c, CheckpointKey(x)) in ctx.operations
      ensures CheckpointOwed(b, ctx, c, x)
    {
      assert CheckpointOwed(a, ctx, c, x);
      if x == n {
        assert AppOnward(a.apps[t.app], b.apps[t.app]);
      } else {
        CheckpointFrame(a, b, ctx, c, x);
      }
    }
  }

  /** The row of a prepared turn is the row of the turn it settles as. */
  lemma AppendSettles(e: Env, a: Main, b: Main, next: nat, ctx: CS.Store, c: CS.ContextId, n: nat, t: Turn)
    requires AppendOwed(e, a, ctx, c, n) && MainOnward(a, b) && MailOk(b.mail, next) && n !in a.results && n in a.prepared
    requires t.app == a.prepared[n].app && (t.outcome == WhenRetired || t.text == a.prepared[n].text)
    ensures AppendSettled(e, b, ctx, c, n, t)
  {
    hide MailOk, MailOnward, Holds, Message, CS.Digest;
    assert AppOnward(a.apps[t.app], b.apps[t.app]);
    HoldsOnward(a.mail, b.mail, next, t.app, n);
    assert WroteText(e, b, ctx, c, n, t, a.prepared[n].text);
  }

  /** What settling does to the main state, in the terms the settlement invariant needs. */
  lemma SettleShape(e: Env, st: State, n: nat, checkpoint: string, now: int)
    requires SettleTurn(e, st, n, checkpoint, now).Some?
    ensures var after := SettleTurn(e, st, n, checkpoint, now).value.main;
            && n in st.main.prepared && st.main.prepared[n].app in st.main.apps && n in after.results
            && after.results == st.main.results[n := after.results[n]] && after.prepared == st.main.prepared - {n}
            && NoneReturned(st.main.mail, after.mail)
            && after.results[n].app == st.main.prepared[n].app && after.results[n].checkpoint == checkpoint
            && (after.results[n].outcome == WhenRetired || after.results[n].text == st.main.prepared[n].text)
            && after.apps.Keys == st.main.apps.Keys
            && after.apps[st.main.prepared[n].app].context == st.main.apps[st.main.prepared[n].app].context
  {
    hide NoneReturned, Acknowledged, MessageId, OutcomeName;
    var t := st.main.prepared[n];
    var app := st.main.apps[t.app];
    SettledReturns(st.main, n, SettledTurn(app, t, checkpoint), ChargedApp(app, t, checkpoint));
  }

  lemma SettleRowsNow(w: World, b: Main)
    requires LockOk(w) && w.lock.Finishing? && w.lock.stage.ToSettle?
    requires var n, m := w.lock.n, w.disk.main;
             && n in m.prepared && m.prepared[n].app in b.apps && m.prepared[n].app in m.apps
             && b.apps[m.prepared[n].app].context == m.apps[m.prepared[n].app].context
    ensures forall t: Turn | t.app == w.disk.main.prepared[w.lock.n].app && t.checkpoint == w.lock.stage.checkpoint ::
              SettledOk(b, w.ctx, w.lock.n, t)
  {
    hide Row;
  }

  lemma SettleCommits(e: Env, w: World, st: State)
    requires StateInv(e, w) && TurnInv(e, w) && w.lock.Finishing? && w.lock.stage.ToSettle?
    requires LockHeld(w) && Good(e, st) && Forward(w.live, st)
    requires var n, a, b := w.lock.n, w.disk.main, st.main;
             && n in a.prepared && a.prepared[n].app in a.apps && n in b.results && n !in a.results
             && b.results == a.results[n := b.results[n]] && b.prepared == a.prepared - {n} && NoneReturned(a.mail, b.mail)
             && b.results[n].app == a.prepared[n].app && b.results[n].checkpoint == w.lock.stage.checkpoint
             && (b.results[n].outcome == WhenRetired || b.results[n].text == a.prepared[n].text)
             && b.apps.Keys == a.apps.Keys && b.apps[a.prepared[n].app].context == a.apps[a.prepared[n].app].context
    ensures RowsOk(e, st.main, w.ctx) && FlightsOk(e, st.main, w.turns - {w.lock.n}) && CallsOk(st.main, w.turns - {w.lock.n})
  {
    var n, a, b := w.lock.n, w.disk.main, st.main;
    MailIsOk(e, st);
    SettleRowsNow(w, b);
    OwnedOnward(a, b, w.ctx);
    hide Good, MailOk, MailOnward, NoneReturned, FlightsOk, CallsOk, RowsOk, SettledOk, ContextsOwned, LockOk, CS.WF;
    SettledFlights(e, a, b, st.log.next, w.turns, n, b.results[n]);
    SettledRows(e, a, b, st.log.next, w.ctx, n, b.results[n]);
  }

  predicate LockHeld(w: World) { w.lock.Finishing? && w.lock.n in w.turns }

  lemma SettleStep(e: Env, w: World, now: int, ok: bool)
    requires StateInv(e, w) && TurnInv(e, w)
    ensures Keeps(e, w, DoSettle(e, w, now, ok)) && TurnInv(e, DoSettle(e, w, now, ok))
  {
    var v := DoSettle(e, w, now, ok);
    if !w.up || !w.lock.Finishing? || !w.lock.stage.ToSettle? {
      hide Good, FlightsOk, CallsOk, RowsOk, CS.WF, Forward, LockOk;
      SameKeeps(e, w, v);
    } else {
      var n := w.lock.n;
      assert n in w.turns;
      hide Good, FlightsOk, CallsOk, RowsOk, CS.WF, Forward, SettleTurn, Flying, NoneReturned, LockOk;
      FlyingNow(e, w.disk.main, w.turns, n);
      FlyingHolds(e, w.disk.main, n, w.turns[n]);
      var r := SettleTurn(e, w.live, n, w.lock.stage.checkpoint, now);
      if r.None? {
        FreeLock(v);
        SameKeeps(e, w, v);
      } else {
        FreeLock(v);
        SettleTurnKeeps(e, w.live, n, w.lock.stage.checkpoint, now);
        CommitKeeps(e, w, v, r.value, ok);
        if ok {
          SettleShape(e, w.live, n, w.lock.stage.checkpoint, now);
          SettleCommits(e, w, r.value);
        }
      }
    }
  }

  lemma FreeLock(w: World)
    requires w.lock == Free
    ensures LockOk(w)
  {
  }

  lemma AbandonStep(e: Env, w: World)
    requires StateInv(e, w) && TurnInv(e, w)
    ensures Keeps(e, w, DoAbandon(w)) && TurnInv(e, DoAbandon(w))
  {
    hide Good, FlightsOk, CallsOk, RowsOk, CS.WF, Forward, LockOk;
    SameKeeps(e, w, DoAbandon(w));
    if DoAbandon(w) != w {
      FreeLock(DoAbandon(w));
    }
  }

  // ---- Requeueing ----

  lemma RequeueShape(e: Env, st: State, id: AppId, n: nat, now: int)
    requires Good(e, st) && Requeue(e, st, id, n, now).Some?
    ensures var after := Requeue(e, st, id, n, now).value.main;
            && id in st.main.mail && Find(st.main.mail[id], n) < |st.main.mail[id]|
            && after.mail == st.main.mail[id := st.main.mail[id][Find(st.main.mail[id], n) := st.main.mail[id][Find(st.main.mail[id], n)].(status := Pending)]]
            && after == st.main.(mail := after.mail) && Requeue(e, st, id, n, now).value.asks == st.asks
  {
    hide MessageId;
    assert st.main.apps[id := st.main.apps[id]] == st.main.apps;
  }

  /** Returning one message leaves every other flight as it was. */
  lemma ReturnedFlight(e: Env, a: Main, b: Main, next: nat, id: AppId, n: nat, x: nat, f: Flight)
    requires MailOk(a.mail, next) && MailOk(b.mail, next) && MailOnward(a.mail, b.mail) && b == a.(mail := b.mail)
    requires id in a.mail && Find(a.mail[id], n) < |a.mail[id]|
    requires b.mail == a.mail[id := a.mail[id][Find(a.mail[id], n) := a.mail[id][Find(a.mail[id], n)].(status := Pending)]]
    requires x != n && Flying(e, a, x, f)
    ensures Flying(e, b, x, f)
  {
    assert Onward(a.mail[f.app], b.mail[f.app]) && BoxOk(b.mail[f.app], next);
    FindOnward(a.mail[f.app], b.mail[f.app], next, x);
  }

  lemma ReturnedFlights(e: Env, a: Main, b: Main, next: nat, id: AppId, n: nat, turns: map<nat, Flight>)
    requires MailOk(a.mail, next) && MailOk(b.mail, next) && MailOnward(a.mail, b.mail) && b == a.(mail := b.mail)
    requires id in a.mail && Find(a.mail[id], n) < |a.mail[id]|
    requires b.mail == a.mail[id := a.mail[id][Find(a.mail[id], n) := a.mail[id][Find(a.mail[id], n)].(status := Pending)]]
    requires FlightsOk(e, a, turns) && CallsOk(a, turns)
    ensures FlightsOk(e, b, turns - {n}) && CallsOk(b, turns - {n})
  {
    hide MailOk, MailOnward, Flying;
    var left := turns - {n};
    forall x | x in left
      ensures Flying(e, b, x, left[x])
    {
      assert Flying(e, a, x, turns[x]);
      ReturnedFlight(e, a, b, next, id, n, x, turns[x]);
    }
  }

  lemma RequeueStep(e: Env, w: World, n: nat, now: int, ok: bool)
    requires StateInv(e, w) && TurnInv(e, w) && Idle(w)
    ensures Keeps(e, w, DoRequeue(e, w, n, now, ok)) && TurnInv(e, DoRequeue(e, w, n, now, ok))
  {
    var v := DoRequeue(e, w, n, now, ok);
    hide Good, FlightsOk, CallsOk, RowsOk, CS.WF, Forward, Requeue, Flying;
    if n !in w.turns || Requeue(e, w.live, w.turns[n].app, n, now).None? || !ok {
      if n in w.turns && Requeue(e, w.live, w.turns[n].app, n, now).Some? {
        RequeueKeeps(e, w.live, w.turns[n].app, n, now);
      }
      StillStep(e, w, v);
    } else {
      var id := w.turns[n].app;
      var st := Requeue(e, w.live, id, n, now).value;
      RequeueKeeps(e, w.live, id, n, now);
      CommitKeeps(e, w, v, st, ok);
      RequeueCommits(e, w, id, n, now);
    }
  }

  lemma RequeueCommits(e: Env, w: World, id: AppId, n: nat, now: int)
    requires StateInv(e, w) && TurnInv(e, w) && Requeue(e, w.live, id, n, now).Some?
    ensures var b := Requeue(e, w.live, id, n, now).value.main;
            RowsOk(e, b, w.ctx) && FlightsOk(e, b, w.turns - {n}) && CallsOk(b, w.turns - {n})
  {
    var st := Requeue(e, w.live, id, n, now).value;
    RequeueKeeps(e, w.live, id, n, now);
    RequeueShape(e, w.live, id, n, now);
    MailIsOk(e, w.live);
    MailIsOk(e, st);
    NextKeeps(w.live.main.mail, w.live.log.next, st.log.next);
    hide Good, MailOk, MailOnward, FlightsOk, CallsOk, RowsOk, Requeue, LockOk, CS.WF, AppsOnward, ContextsOwned;
    ReturnedFlights(e, w.live.main, st.main, st.log.next, id, n, w.turns);
    RowsParts(e, w.live.main, w.ctx);
    OwnedSame(w.live.main, st.main, w.ctx);
    RowsFrame(e, w.live.main, st.main, st.log.next, w.ctx);
  }

  lemma RowsParts(e: Env, m: Main, ctx: CS.Store)
    requires RowsOk(e, m, ctx)
    ensures ContextsOwned(m, ctx)
  {
  }

  // ---- New applications and imports ----

  lemma NewAppShape(e: Env, st: State, id: AppId, app: App, entry: Entry, now: int)
    requires id !in st.main.apps && id !in st.main.mail
    ensures var b := NewApp(e, st, id, app, entry, now).main;
            && b.results == st.main.results && b.prepared == st.main.prepared && NoneReturned(st.main.mail, b.mail)
            && b.apps == st.main.apps[id := app]
  {
    var b := NewApp(e, st, id, app, entry, now).main;
    forall x
      ensures Unreturned(BoxOf(st.main.mail, x), BoxOf(b.mail, x))
    {
    }
  }

  lemma NewAppOwned(a: Main, b: Main, was: CS.Store, ctx: CS.Store, id: AppId, app: App)
    requires ContextsOwned(a, was) && CS.Grows(was, ctx) && b.apps == a.apps[id := app]
    requires app.context in ctx.contexts && ctx.contexts[app.context].owner == app.owner != ""
    ensures ContextsOwned(b, ctx)
  {
  }

  /** A new application over a context store that only gained rows under other keys. */
  lemma NewAppInv(e: Env, a: Main, b: Main, next: nat, turns: map<nat, Flight>, was: CS.Store, ctx: CS.Store, id: AppId, app: App)
    requires FlightsOk(e, a, turns) && CallsOk(a, turns) && RowsOk(e, a, was) && CS.Grows(was, ctx)
    requires forall k | k in ctx.operations :: k in was.operations || !TurnKey(k.1)
    requires MainOnward(a, b) && MailOk(b.mail, next) && NoneReturned(a.mail, b.mail)
    requires b.results == a.results && b.prepared == a.prepared && b.apps == a.apps[id := app]
    requires app.context in ctx.contexts && ctx.contexts[app.context].owner == app.owner != ""
    ensures FlightsOk(e, b, turns) && CallsOk(b, turns) && RowsOk(e, b, ctx)
  {
    forall n | n in turns
      ensures n !in b.results
    {
      assert Flying(e, a, n, turns[n]);
    }
    RowsParts(e, a, was);
    hide MailOk, NoneReturned, Flying, FlightsOk, RowsOk, MainOnward, CS.Grows, TurnKey, ContextsOwned;
    FlightFrame(e, a, b, next, turns);
    RowsGrow(e, a, was, ctx);
    NewAppOwned(a, b, was, ctx, id, app);
    RowsFrame(e, a, b, next, ctx);
  }

  lemma CreateOwns(ctx: CS.Store, owner: string, prefix: string, id: CS.ContextId)
    requires CS.Apply(ctx, CS.Create(owner, prefix, id)).Ok?
    ensures var (t, r) := CS.Apply(ctx, CS.Create(owner, prefix, id)).value;
            r == id && id in t.contexts && t.contexts[id].owner == owner != ""
  {
    assert CS.IsBlank("");
  }

  lemma ForkOwns(ctx: CS.Store, parent: string, from: CS.ContextId, owner: string, key: string, child: CS.ContextId)
    requires CS.Apply(ctx, CS.Fork(parent, from, owner, key, child)).Ok? && (from, key) !in ctx.operations
    ensures var (t, r) := CS.Apply(ctx, CS.Fork(parent, from, owner, key, child)).value;
            r == child && child in t.contexts && t.contexts[child].owner == owner != ""
  {
    assert CS.IsBlank("");
    hide CS.Digest;
  }

  lemma OtherTags(id: string)
    ensures !TurnKey(FORK_TAG + id) && !TurnKey(IMPORT_TAG + id)
  {
    assert (FORK_TAG + id)[0] == 'f' && (IMPORT_TAG + id)[0] == 'a';
  }

  lemma CreateStep(e: Env, w: World, principal: string, id: AppId, owner: string, wake: Wake, context: CS.ContextId, now: int, ok: bool)
    requires StateInv(e, w) && TurnInv(e, w) && Idle(w)
    ensures Keeps(e, w, DoCreate(e, w, principal, id, owner, wake, context, now, ok))
    ensures TurnInv(e, DoCreate(e, w, principal, id, owner, wake, context, now, ok))
  {
    var v := DoCreate(e, w, principal, id, owner, wake, context, now, ok);
    hide Good, FlightsOk, CallsOk, RowsOk, CS.WF, Forward, CS.Apply, NewApp;
    var op := CS.Create(owner, "", context);
    if id in w.live.main.apps || owner == "" || |owner| > 256 || CS.Apply(w.ctx, op).Err? {
      StillStep(e, w, v);
    } else {
      var ctx := CS.Apply(w.ctx, op).value.0;
      CreateLogs(w.ctx, op);
      CreateOwns(w.ctx, owner, "", context);
      var app := App(owner, context, None, Serving, wake, now, 0, 0, 0, {}, 1, "");
      NewAppStep(e, w, v, ctx, id, app, Allow(principal, id, "application.create", id), now, ok);
    }
  }

  lemma ForkStep(e: Env, w: World, principal: string, parent: AppId, id: AppId, owner: string, wake: Wake, context: CS.ContextId, now: int, ok: bool)
    requires StateInv(e, w) && TurnInv(e, w) && Idle(w)
    ensures Keeps(e, w, DoFork(e, w, principal, parent, id, owner, wake, context, now, ok))
    ensures TurnInv(e, DoFork(e, w, principal, parent, id, owner, wake, context, now, ok))
  {
    var v := DoFork(e, w, principal, parent, id, owner, wake, context, now, ok);
    hide Good, FlightsOk, CallsOk, RowsOk, CS.WF, Forward, CS.Apply, NewApp, TurnKey;
    if v == w {
      StillStep(e, w, v);
    } else {
      var m := w.live.main;
      var op := CS.Fork(m.apps[parent].owner, m.apps[parent].context, owner, FORK_TAG + id, context);
      var (ctx, r) := CS.Apply(w.ctx, op).value;
      ApplyLogs(w.ctx, op);
      LogsWF(w.ctx, op, ctx, r);
      OtherTags(id);
      ForkOwns(w.ctx, op.owner, op.id, owner, FORK_TAG + id, context);
      var app := App(owner, context, Some(parent), Serving, wake, now, 0, 0, 0, m.apps[parent].taint, 1, "");
      NewAppStep(e, w, v, ctx, id, app, Allow(principal, id, "application.fork", parent), now, ok);
    }
  }

  lemma NewAppStep(e: Env, w: World, v: World, ctx: CS.Store, id: AppId, app: App, entry: Entry, now: int, ok: bool)
    requires StateInv(e, w) && TurnInv(e, w) && id !in w.live.main.apps && app.used == 0
    requires CS.WF(ctx) && CS.Grows(w.ctx, ctx) && forall k | k in ctx.operations :: k in w.ctx.operations || !TurnKey(k.1)
    requires app.context in ctx.contexts && ctx.contexts[app.context].owner == app.owner != ""
    requires var st := NewApp(e, w.live, id, app, entry, now);
             v.live == Commit(w, st, ok).live && v.disk == Commit(w, st, ok).disk
    requires v.turns == w.turns && v.ctx == ctx && v.lock == Free
    ensures Keeps(e, w, v) && TurnInv(e, v)
  {
    var st := NewApp(e, w.live, id, app, entry, now);
    SameDomain(e, w.live);
    NewAppShape(e, w.live, id, app, entry, now);
    hide Good, FlightsOk, CallsOk, RowsOk, CS.WF, NewApp, TurnKey, MailOk, NoneReturned, CS.Grows, MainOnward;
    NewAppKeeps(e, w.live, id, app, entry, now);
    CommitKeeps(e, w, v, st, ok);
    if ok {
      MailIsOk(e, st);
      NewAppInv(e, w.live.main, st.main, st.log.next, w.turns, w.ctx, ctx, id, app);
    } else {
      RowsGrow(e, w.disk.main, w.ctx, ctx);
    }
  }

  lemma SameDomain(e: Env, st: State)
    requires Good(e, st)
    ensures st.main.mail.Keys == st.main.apps.Keys
  {
  }

  lemma ImportStep(e: Env, w: World, principal: string, id: AppId, key: string, payload: string, now: int, ok: bool)
    requires StateInv(e, w) && TurnInv(e, w) && Idle(w)
    ensures Keeps(e, w, DoImport(e, w, principal, id, key, payload, now, ok))
    ensures TurnInv(e, DoImport(e, w, principal, id, key, payload, now, ok))
  {
    var v := DoImport(e, w, principal, id, key, payload, now, ok);
    hide Good, FlightsOk, CallsOk, RowsOk, CS.WF, Forward, CS.Apply, Note, TurnKey;
    var m := w.live.main;
    if id !in m.apps || m.apps[id].state == Tombstoned || key == "" || |key| > 256 || e.canon(payload).None? || |payload| > MAX_TEXT {
      StillStep(e, w, v);
    } else {
      var op := CS.Artifact(m.apps[id].owner, m.apps[id].context, IMPORT_TAG + key, payload);
      if CS.Apply(w.ctx, op).Err? {
        StillStep(e, w, v);
      } else {
        var (ctx, r) := CS.Apply(w.ctx, op).value;
        ApplyLogs(w.ctx, op);
        LogsWF(w.ctx, op, ctx, r);
        OtherTags(key);
        var st := Note(e, w.live, Allow(principal, id, "artifact.import", r), now);
        NoteKeeps(e, w.live, Allow(principal, id, "artifact.import", r), now);
        CommitKeeps(e, w, v, st, ok);
        RowsGrow(e, w.disk.main, w.ctx, ctx);
        NoteMain(e, w.live, Allow(principal, id, "artifact.import", r), now);
      }
    }
  }

  lemma NoteMain(e: Env, st: State, entry: Entry, now: int)
    ensures Note(e, st, entry, now).main == st.main && Note(e, st, entry, now).asks == st.asks
  {
  }

  // ---- Stopping and starting ----

  lemma StoppedStep(e: Env, w: World)
    requires StateInv(e, w) && TurnInv(e, w)
    ensures Keeps(e, w, Stopped(w)) && TurnInv(e, Stopped(w))
  {
    hide Good, FlightsOk, CallsOk, RowsOk, CS.WF;
    StillStep(e, w, Stopped(w));
  }

  lemma {:induction false} RecoverShape(e: Env, st: State, order: seq<AppId>, now: int)
    ensures var b := Recover(e, st, order, now);
            && b.main == st.main.(apps := b.main.apps, mail := b.main.mail) && b.main.apps.Keys == st.main.apps.Keys && b.asks == st.asks
  {
    hide RecoverApp;
    if order != [] {
      RecoverShape(e, st, order[..|order| - 1], now);
      RecoverAppShape(e, Recover(e, st, order[..|order| - 1], now), order[|order| - 1], now);
    }
  }

  /** After a restart nothing is in flight and every row in the context store is still explained. */
  lemma RestartStep(e: Env, w: World, order: seq<AppId>, now: int, ok: bool)
    requires StateInv(e, w) && TurnInv(e, w) && w.lock == Free && (w.up || w.turns == map[])
    ensures Keeps(e, w, DoRestart(e, w, order, now, ok)) && TurnInv(e, DoRestart(e, w, order, now, ok))
  {
    var v := DoRestart(e, w, order, now, ok);
    if w.up || !ok {
      StillStep(e, w, v);
    } else {
      var st := Recover(e, w.disk, order, now);
      RecoverKeeps(e, w.disk, order, now);
      RecoverShape(e, w.disk, order, now);
      MailIsOk(e, st);
      RowsParts(e, w.disk.main, w.ctx);
      hide Good, CallsOk, RowsOk, CS.WF, Recover, MailOk, ContextsOwned, MailOnward, AppsOnward, BindingsOnward, ResultsOnward;
      OwnedOnward(w.disk.main, st.main, w.ctx);
      RowsFrame(e, w.disk.main, st.main, st.log.next, w.ctx);
      assert CallsOk(st.main, map[]) by { NoCalls(st.main); }
    }
  }

  lemma NoCalls(m: Main)
    ensures CallsOk(m, map[])
  {
  }
}
