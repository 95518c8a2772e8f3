/**
 * Every run of the whole system, from an empty database: one invariant kept by every
 * step, and the guarantees it gives.
 */
module Runs {
  import opened Wrappers
  import opened Text
  import opened Mailboxes
  import opened AuditChain
  import opened Confirmations
  import opened SupervisorState
  import opened Operations
  import opened WakeBindings
  import opened System
  import opened Safety
  import opened TurnSettlement
  import opened TurnRuns
  import opened KernelRuns
  import CS = ContextStore

  /** Requests, live and committed, are justified by what was committed about them. */
  ghost predicate GateInv(w: World) {
    GateOk(w.past.gate, w.live.asks) && GateOk(w.past.gate, w.disk.asks) && ApprovedInTime(w.past.gate)
  }

  predicate DownOk(w: World) { !w.up ==> w.lock == Free && w.turns == map[] }

  ghost predicate Inv(e: Env, w: World) {
    && StateInv(e, w) && TurnInv(e, w) && KernelInv(w) && WakeOk(w.ctx.commits, w.disk.main)
    && GateInv(w) && DownOk(w)
  }

  /** What one step does to the committed state: it takes nothing back and moves no live timer without its message. */
  ghost predicate Advances(w: World, v: World) { Forward(w.disk, v.disk) && TimersServed(w.disk.main, v.disk.main) }

  // ---- Frames ----

  /** The sources stand still: no binding moves and no message comes from one. */
  ghost predicate SourcesStill(a: Main, b: Main) {
    SameCursors(a.bindings, b.bindings) && AllBenign(a.mail, b.mail) && TimersServed(a, b)
  }

  lemma CalmStill(a: Main, b: Main)
    requires Calm(a, b)
    ensures SourcesStill(a, b)
  {
    hide SteadyMail, TimersServed, AllBenign, NoneReturned;
    SteadyBenign(a.mail, b.mail);
  }

  lemma StillRefl(a: Main)
    ensures SourcesStill(a, a)
  {
    ServedRefl(a);
  }

  lemma NumberedLog(ctx: CS.Store)
    requires CS.WF(ctx)
    ensures CS.Numbered(ctx.commits)
  {
    assert CS.LogOk(ctx.operations, ctx.commits);
  }

  /** Kernel, history and requests are as before, or the requests were rolled back. */
  ghost predicate OthersStill(w: World, v: World) {
    && v.kernel == w.kernel && v.past == w.past.(called := v.past.called)
    && v.disk.main.pending == w.disk.main.pending
    && (v.live.asks == w.live.asks || v.live.asks == w.disk.asks) && (v.disk.asks == w.live.asks || v.disk.asks == w.disk.asks)
    && !w.lock.Acking? && !w.lock.Dropping? && !v.lock.Acking? && !v.lock.Dropping?
  }

  lemma ForwardParts(a: State, b: State)
    requires Forward(a, b)
    ensures MailOnward(a.main.mail, b.main.mail) && MainOnward(a.main, b.main)
  {
  }

  lemma Framed(e: Env, w: World, v: World)
    requires Inv(e, w) && Keeps(e, w, v) && TurnInv(e, v) && DownOk(v) && OthersStill(w, v)
    requires SourcesStill(w.disk.main, v.disk.main) && w.ctx.commits <= v.ctx.commits
    ensures Inv(e, v) && Advances(w, v)
  {
    ForwardParts(w.disk, v.disk);
    NumberedLog(v.ctx);
    hide Good, Forward, MailOnward, CS.WF, TurnInv, KernelInv, WakeOk, GateOk, AllBenign, TimersServed, ApprovedInTime, CS.Numbered, SameCursors;
    KernelFrame(w, v);
    WakeFrame(w.ctx.commits, v.ctx.commits, w.disk.main, v.disk.main);
  }

  lemma SameWorld(e: Env, w: World)
    requires Inv(e, w)
    ensures Advances(w, w)
  {
    hide Good, TurnInv, KernelInv, WakeOk, GateOk;
    ForwardRefl(w.disk);
    ServedRefl(w.disk.main);
  }

  /** A calm state committed, or rolled back. */
  lemma CalmCommit(e: Env, w: World, v: World, st: State, ok: bool)
    requires Inv(e, w) && Idle(w) && Good(e, st) && Forward(w.live, st) && CalmState(w.live, st)
    requires v == Commit(w, st, ok)
    ensures Inv(e, v) && Advances(w, v)
  {
    CalmStill(w.live.main, st.main);
    StillRefl(w.disk.main);
    hide Good, Forward, CS.WF, TurnInv, KernelInv, WakeOk, GateOk, SourcesStill, Calm, ApprovedInTime, Plain;
    CalmStatePlain(w.live, st);
    PlainStep(e, w, v, st, ok);
    Framed(e, w, v);
  }

  lemma CommandStep(e: Env, w: World, c: Command, now: int, ok: bool)
    requires Inv(e, w)
    ensures Inv(e, DoCommand(e, w, c, now, ok)) && Advances(w, DoCommand(e, w, c, now, ok))
  {
    hide Inv, Advances, Good, Forward, CalmState, Execute;
    if Idle(w) && Execute(e, w.live, c, now).Some? {
      LiveGood(e, w);
      CommandKeeps(e, w.live, c, now);
      CommandCalm(e, w.live, c, now);
      CalmCommit(e, w, DoCommand(e, w, c, now, ok), Execute(e, w.live, c, now).value, ok);
    } else {
      SameWorld(e, w);
    }
  }

  lemma LiveGood(e: Env, w: World)
    requires Inv(e, w)
    ensures Good(e, w.live) && Good(e, w.disk) && w.live.main == w.disk.main && CS.WF(w.ctx) && StateInv(e, w) && TurnInv(e, w)
  {
  }

  /** Nothing but the live state goes back to the committed one. */
  lemma RollbackStep(e: Env, w: World)
    requires Inv(e, w)
    ensures Inv(e, DoRollback(w)) && Advances(w, DoRollback(w))
  {
    var v := DoRollback(w);
    StillRefl(w.disk.main);
    hide Good, Forward, CS.WF, KernelInv, WakeOk, GateOk, SourcesStill, ApprovedInTime, FlightsOk, CallsOk, RowsOk;
    if Idle(w) {
      StillStep(e, w, v);
      hide TurnInv;
      Framed(e, w, v);
    } else {
      SameWorld(e, w);
    }
  }

  lemma NoteCalm(e: Env, st: State, entry: Entry, now: int)
    ensures CalmState(st, Note(e, st, entry, now))
  {
    CalmSides(st, Note(e, st, entry, now));
  }

  lemma ExportStep(e: Env, w: World, principal: string, id: AppId, text: string, confirm: bool, now: int, ok: bool)
    requires Inv(e, w)
    ensures Inv(e, DoExport(e, w, principal, id, text, confirm, now, ok)) && Advances(w, DoExport(e, w, principal, id, text, confirm, now, ok))
  {
    hide Inv, Advances, Good, Forward, CalmState, Note;
    if Idle(w) && MayExport(w.live, id, text) {
      LiveGood(e, w);
      var entry := ExportEntry(e, w.live, principal, id, text, confirm);
      NoteKeeps(e, w.live, entry, now);
      NoteCalm(e, w.live, entry, now);
      CalmCommit(e, w, DoExport(e, w, principal, id, text, confirm, now, ok), Note(e, w.live, entry, now), ok);
    } else {
      SameWorld(e, w);
    }
  }

  // ---- Retirement ----

  lemma ExpireSteady(ms: seq<Msg>)
    ensures Steady(ms, ExpireAll(ms))
  {
  }

  lemma DisableSame(bindings: map<BindingKey, Binding>, id: AppId)
    ensures SameCursors(bindings, DisableAll(bindings, id))
  {
  }

  lemma RetireCalm(e: Env, st: State, principal: string, id: AppId, now: int)
    requires Retire(e, st, principal, id, now).Some?
    ensures var b := Retire(e, st, principal, id, now).value;
            && Calm(st.main, b.main) && b.main.apps.Keys == st.main.apps.Keys && b.asks == st.asks
            && b.main.pending == st.main.pending - {id}
  {
    hide Steady, SteadyMail, SameCursors, ExpireAll, DisableAll;
    var b := Retire(e, st, principal, id, now).value;
    ExpireSteady(BoxOf(st.main.mail, id));
    SteadySet(st.main.mail, id, ExpireAll(BoxOf(st.main.mail, id)));
    DisableSame(st.main.bindings, id);
    CalmWhen(st.main, b.main);
  }

  lemma RetireRun(e: Env, w: World, principal: string, id: AppId, now: int, ok: bool)
    requires Inv(e, w)
    ensures Inv(e, DoRetire(e, w, principal, id, now, ok)) && Advances(w, DoRetire(e, w, principal, id, now, ok))
  {
    var v := DoRetire(e, w, principal, id, now, ok);
    hide Good, Forward, CS.WF, TurnInv, KernelInv, WakeOk, GateOk, Calm, ApprovedInTime, Plain, Retire, SourcesStill;
    if !Idle(w) || Retire(e, w.live, principal, id, now).None? {
      SameWorld(e, w);
    } else {
      var st := Retire(e, w.live, principal, id, now).value;
      RetireKeeps(e, w.live, principal, id, now);
      RetireCalm(e, w.live, principal, id, now);
      CalmPlain(w.live.main, st.main);
      PlainStep(e, w, v, st, ok);
      if ok {
        CalmStill(w.live.main, st.main);
        ForwardParts(w.disk, v.disk);
        RetireStep(w, v, id);
        StillWake(e, w, v);
      } else {
        StillRefl(w.disk.main);
        StillWake(e, w, v);
        SameKernel(w, v);
      }
    }
  }

  lemma StillWake(e: Env, w: World, v: World)
    requires WakeOk(w.ctx.commits, w.disk.main) && CS.WF(v.ctx) && Forward(w.disk, v.disk)
    requires SourcesStill(w.disk.main, v.disk.main) && w.ctx.commits <= v.ctx.commits
    ensures WakeOk(v.ctx.commits, v.disk.main) && Advances(w, v)
  {
    NumberedLog(v.ctx);
    hide Forward, CS.WF, WakeOk, AllBenign, TimersServed, CS.Numbered, SameCursors;
    WakeFrame(w.ctx.commits, v.ctx.commits, w.disk.main, v.disk.main);
  }

  // ---- Applications, imports and bindings ----

  lemma NewAppStill(e: Env, st: State, id: AppId, app: App, entry: Entry, now: int)
    requires id !in st.main.apps && id !in st.main.mail
    ensures SourcesStill(st.main, NewApp(e, st, id, app, entry, now).main)
    ensures NewApp(e, st, id, app, entry, now).main.pending == st.main.pending && NewApp(e, st, id, app, entry, now).asks == st.asks
  {
    var b := NewApp(e, st, id, app, entry, now).main;
    SteadySet(st.main.mail, id, []);
    CalmWhen(st.main, b);
    CalmStill(st.main, b);
  }

  /** What the two ways of making an application have in common. */
  lemma NewAppRun(e: Env, w: World, v: World, id: AppId, app: App, entry: Entry, now: int, ok: bool)
    requires Inv(e, w) && Idle(w) && id !in w.live.main.apps && Keeps(e, w, v) && TurnInv(e, v)
    requires v == Commit(w.(ctx := v.ctx), NewApp(e, w.live, id, app, entry, now), ok) && w.ctx.commits <= v.ctx.commits
    ensures Inv(e, v) && Advances(w, v)
  {
    SameDomain(e, w.live);
    NewAppStill(e, w.live, id, app, entry, now);
    StillRefl(w.disk.main);
    hide Good, Forward, CS.WF, TurnInv, KernelInv, WakeOk, GateOk, SourcesStill, ApprovedInTime, NewApp;
    Framed(e, w, v);
  }

  lemma CreateRun(e: Env, w: World, principal: string, id: AppId, owner: string, wake: Wake, context: CS.ContextId, now: int, ok: bool)
    requires Inv(e, w)
    ensures Inv(e, DoCreate(e, w, principal, id, owner, wake, context, now, ok))
    ensures Advances(w, DoCreate(e, w, principal, id, owner, wake, context, now, ok))
  {
    var v := DoCreate(e, w, principal, id, owner, wake, context, now, ok);
    hide Inv, Advances, Good, Forward, CS.WF, TurnInv, StateInv, NewApp, CS.Apply, Keeps;
    if v == w {
      SameWorld(e, w);
    } else {
      LiveGood(e, w);
      CreateStep(e, w, principal, id, owner, wake, context, now, ok);
      var op := CS.Create(owner, "", context);
      CreateLogs(w.ctx, op);
      CreateOwns(w.ctx, owner, "", context);
      var app := App(owner, context, None, Serving, wake, now, 0, 0, 0, {}, 1, "");
      NewAppRun(e, w, v, id, app, Allow(principal, id, "application.create", id), now, ok);
    }
  }

  lemma LogsGrow(a: CS.Store, op: CS.Op, b: CS.Store, r: string)
    requires !op.Create? && LogsAfter(a, op, b, r)
    ensures a.commits <= b.commits
  {
    hide CS.WF, CS.Grows;
  }

  lemma ForkRun(e: Env, w: World, principal: string, parent: AppId, id: AppId, owner: string, wake: Wake, context: CS.ContextId, now: int, ok: bool)
    requires Inv(e, w)
    ensures Inv(e, DoFork(e, w, principal, parent, id, owner, wake, context, now, ok))
    ensures Advances(w, DoFork(e, w, principal, parent, id, owner, wake, context, now, ok))
  {
    var v := DoFork(e, w, principal, parent, id, owner, wake, context, now, ok);
    hide Inv, Advances, Good, Forward, CS.WF, TurnInv, StateInv, NewApp, CS.Apply, Keeps, LogsAfter;
    if v == w {
      SameWorld(e, w);
    } else {
      LiveGood(e, w);
      ForkStep(e, w, principal, parent, id, owner, wake, context, now, ok);
      var m := w.live.main;
      var op := CS.Fork(m.apps[parent].owner, m.apps[parent].context, owner, FORK_TAG + id, context);
      ApplyLogs(w.ctx, op);
      LogsGrow(w.ctx, op, CS.Apply(w.ctx, op).value.0, CS.Apply(w.ctx, op).value.1);
      ForkOwns(w.ctx, op.owner, op.id, owner, FORK_TAG + id, context);
      var app := App(owner, context, Some(parent), Serving, wake, now, 0, 0, 0, m.apps[parent].taint, 1, "");
      NewAppRun(e, w, v, id, app, Allow(principal, id, "application.fork", parent), now, ok);
    }
  }

  lemma ImportShape(e: Env, w: World, principal: string, id: AppId, key: string, payload: string, now: int, ok: bool)
    requires Inv(e, w) && Idle(w)
    ensures var v := DoImport(e, w, principal, id, key, payload, now, ok);
            v.disk.main == w.disk.main && OthersStill(w, v) && DownOk(v) && w.ctx.commits <= v.ctx.commits
  {
    hide Inv, StateInv, TurnInv, CS.WF, CS.Apply, Note, LogsAfter, Good;
    LiveGood(e, w);
    var m := w.live.main;
    if id in m.apps {
      var op := CS.Artifact(m.apps[id].owner, m.apps[id].context, IMPORT_TAG + key, payload);
      if CS.Apply(w.ctx, op).Ok? {
        var r := CS.Apply(w.ctx, op).value;
        ApplyLogs(w.ctx, op);
        LogsGrow(w.ctx, op, r.0, r.1);
        NoteMain(e, w.live, Allow(principal, id, "artifact.import", r.1), now);
      }
    }
  }

  lemma ImportRun(e: Env, w: World, principal: string, id: AppId, key: string, payload: string, now: int, ok: bool)
    requires Inv(e, w)
    ensures Inv(e, DoImport(e, w, principal, id, key, payload, now, ok)) && Advances(w, DoImport(e, w, principal, id, key, payload, now, ok))
  {
    hide Inv, Advances, StateInv, TurnInv, CS.WF, Keeps, OthersStill, SourcesStill, CS.Apply, Note;
    if Idle(w) {
      LiveGood(e, w);
      ImportStep(e, w, principal, id, key, payload, now, ok);
      ImportShape(e, w, principal, id, key, payload, now, ok);
      StillRefl(w.disk.main);
      Framed(e, w, DoImport(e, w, principal, id, key, payload, now, ok));
    } else {
      SameWorld(e, w);
    }
  }

  lemma BindShape(e: Env, st: State, ctx: CS.Store, principal: string, id: AppId, binding: string, ref: CS.ContextId, after: int, now: int)
    requires Good(e, st) && WakeOk(ctx.commits, st.main) && AddBinding(e, st, ctx, principal, id, binding, ref, after, now).Some?
    ensures var b := AddBinding(e, st, ctx, principal, id, binding, ref, after, now).value;
            && Good(e, b) && Forward(st, b) && b.asks == st.asks && b.main == st.main.(bindings := b.main.bindings) && WakeOk(ctx.commits, b.main)
  {
    var m := st.main;
    var source := if ref == "" then m.apps[id].context else ref;
    var b := Binding(source, after, after, true);
    var more := m.bindings[(id, binding) := b];
    assert BindingsOnward(m, m.(bindings := more));
    hide Good, Forward, WakeOk, Note, BindingsOnward, CS.Commits;
    var entry := Allow(principal, id, "event_source.create", binding).(reason := "lsfs artifact commits");
    BindingsKeep(e, st, more, entry, now);
    NoteMain(e, st.(main := m.(bindings := more)), entry, now);
    WakeBind(ctx.commits, m, (id, binding), b);
  }

  lemma BindRun(e: Env, w: World, principal: string, id: AppId, binding: string, ref: CS.ContextId, after: int, now: int, ok: bool)
    requires Inv(e, w)
    ensures Inv(e, DoBind(e, w, principal, id, binding, ref, after, now, ok)) && Advances(w, DoBind(e, w, principal, id, binding, ref, after, now, ok))
  {
    hide Good, Forward, CS.WF, TurnInv, KernelInv, WakeOk, GateOk, ApprovedInTime, Plain, TimersServed, AddBinding;
    var v := DoBind(e, w, principal, id, binding, ref, after, now, ok);
    if !Idle(w) || AddBinding(e, w.live, w.ctx, principal, id, binding, ref, after, now).None? {
      SameWorld(e, w);
    } else {
      var st := AddBinding(e, w.live, w.ctx, principal, id, binding, ref, after, now).value;
      BindShape(e, w.live, w.ctx, principal, id, binding, ref, after, now);
      SamePlain(w.live.main, st.main);
      PlainStep(e, w, v, st, ok);
      ForwardParts(w.disk, v.disk);
      KernelFrame(w, v);
      ServedRefl(w.live.main);
      BoundServed(w.live.main, st.main);
    }
  }

  lemma BoundServed(a: Main, b: Main)
    requires b == a.(bindings := b.bindings)
    ensures TimersServed(a, b)
  {
    forall k | k in a.timers
      ensures TimerServed(a, b, k)
    {
    }
  }

  lemma ScanRun(e: Env, w: World, keys: seq<BindingKey>, now: int, ok: bool)
    requires Inv(e, w)
    ensures Inv(e, DoScan(e, w, keys, now, ok)) && Advances(w, DoScan(e, w, keys, now, ok))
  {
    var v := DoScan(e, w, keys, now, ok);
    if !Idle(w) {
      SameWorld(e, w);
    } else if AllBindings(e, w.live, w.ctx, keys, now).Err? {
      RollbackStep(e, w);
    } else {
      var st := AllBindings(e, w.live, w.ctx, keys, now).value;
      NumberedLog(w.ctx);
      hide Good, Forward, CS.WF, TurnInv, KernelInv, WakeOk, GateOk, ApprovedInTime, AllBindings, TimersServed, Scanned, CS.Numbered, NoneReturned;
      AllBindingsScanned(e, w.live, w.ctx, keys, now);
      ScannedIs(e, w.ctx.commits, w.live, st);
      PlainStep(e, w, v, st, ok);
      ForwardParts(w.disk, v.disk);
      KernelFrame(w, v);
      ServedRefl(w.disk.main);
      if ok {
        WakeServed(w.live.main, st.main);
      }
    }
  }

  lemma WakeServed(a: Main, b: Main)
    requires SameButWake(a, b)
    ensures TimersServed(a, b)
  {
    forall k | k in a.timers
      ensures TimerServed(a, b, k)
    {
    }
  }

  // ---- Turns ----

  lemma SameSources(a: Main, b: Main)
    requires b.mail == a.mail && b.timers == a.timers && b.bindings == a.bindings
    ensures SourcesStill(a, b)
  {
    forall k | k in a.timers
      ensures TimerServed(a, b, k)
    {
    }
  }

  /** The same messages under new statuses. */
  lemma BenignSources(a: Main, b: Main, id: AppId, ms: seq<Msg>)
    requires b.mail == a.mail[id := ms] && Benign(BoxOf(a.mail, id), ms) && b.timers == a.timers && b.bindings == a.bindings
    ensures SourcesStill(a, b)
  {
    forall x
      ensures Benign(BoxOf(a.mail, x), BoxOf(b.mail, x))
    {
    }
    forall k | k in a.timers
      ensures TimerServed(a, b, k)
    {
    }
  }

  lemma TakeTurnRun(e: Env, w: World, id: AppId, now: int, ok: bool)
    requires Inv(e, w)
    ensures Inv(e, DoClaimTurn(e, w, id, now, ok)) && Advances(w, DoClaimTurn(e, w, id, now, ok))
  {
    hide Good, Forward, CS.WF, TurnInv, KernelInv, WakeOk, GateOk, SourcesStill, ApprovedInTime, ClaimTurn, Calm;
    var v := DoClaimTurn(e, w, id, now, ok);
    if !Idle(w) {
      SameWorld(e, w);
    } else {
      TakeTurnStep(e, w, id, now, ok);
      StillRefl(w.disk.main);
      if ClaimTurn(e, w.live, id, now).Some? {
        ClaimTurnCalm(e, w.live, id, now);
        CalmStill(w.live.main, ClaimTurn(e, w.live, id, now).value.main);
      }
      Framed(e, w, v);
    }
  }

  /** A step of a turn that leaves both states and the context log alone. */
  lemma QuietRun(e: Env, w: World, v: World)
    requires Inv(e, w) && Keeps(e, w, v) && TurnInv(e, v) && DownOk(v)
    requires v.live == w.live && v.disk == w.disk && v.kernel == w.kernel && v.past == w.past.(called := v.past.called)
    requires w.ctx.commits <= v.ctx.commits && (v.lock == w.lock || (!w.lock.Acking? && !w.lock.Dropping? && !v.lock.Acking? && !v.lock.Dropping?))
    ensures Inv(e, v) && Advances(w, v)
  {
    NumberedLog(v.ctx);
    StillRefl(w.disk.main);
    hide Good, Forward, CS.WF, TurnInv, KernelInv, WakeOk, GateOk, AllBenign, TimersServed, ApprovedInTime, CS.Numbered, SameCursors;
    ForwardParts(w.disk, v.disk);
    KernelFrame(w, v);
    WakeFrame(w.ctx.commits, v.ctx.commits, w.disk.main, v.disk.main);
  }

  lemma StartRun(e: Env, w: World, n: nat)
    requires Inv(e, w)
    ensures Inv(e, DoStart(w, n)) && Advances(w, DoStart(w, n))
  {
    hide Inv, StateInv, TurnInv, Keeps, Advances, CS.WF, Good;
    LiveGood(e, w);
    if Idle(w) {
      StartStep(e, w, n);
      QuietRun(e, w, DoStart(w, n));
    } else {
      SameWorld(e, w);
    }
  }

  lemma DownNow(e: Env, w: World)
    requires Inv(e, w)
    ensures DownOk(w)
  {
  }

  lemma AnswerRun(e: Env, w: World, n: nat, answer: Answer)
    requires Inv(e, w)
    ensures Inv(e, DoAnswer(w, n, answer)) && Advances(w, DoAnswer(w, n, answer))
  {
    hide Inv, StateInv, TurnInv, Keeps, Advances, CS.WF, Good;
    LiveGood(e, w);
    DownNow(e, w);
    AnswerStep(e, w, n, answer);
    QuietRun(e, w, DoAnswer(w, n, answer));
  }

  lemma FinishShape(e: Env, w: World, n: nat, ok: bool)
    requires Idle(w) && w.live.main == w.disk.main
    ensures var v := DoFinish(e, w, n, ok);
            OthersStill(w, v) && DownOk(v) && v.ctx == w.ctx && v.disk.main == w.disk.main.(prepared := v.disk.main.prepared)
  {
    hide PreparedTurn, OthersStill;
    FinishStill(e, w, n, ok);
  }

  lemma FinishStill(e: Env, w: World, n: nat, ok: bool)
    requires Idle(w) && w.live.main == w.disk.main
    ensures OthersStill(w, DoFinish(e, w, n, ok))
  {
    hide PreparedTurn;
  }

  lemma FinishRun(e: Env, w: World, n: nat, ok: bool)
    requires Inv(e, w)
    ensures Inv(e, DoFinish(e, w, n, ok)) && Advances(w, DoFinish(e, w, n, ok))
  {
    hide Inv, StateInv, TurnInv, Keeps, Advances, CS.WF, Good, SourcesStill, OthersStill, PreparedTurn;
    LiveGood(e, w);
    if Idle(w) {
      FinishStep(e, w, n, ok);
      FinishShape(e, w, n, ok);
      SameSources(w.disk.main, DoFinish(e, w, n, ok).disk.main);
      Framed(e, w, DoFinish(e, w, n, ok));
    } else {
      SameWorld(e, w);
    }
  }

  lemma AppendCommits(e: Env, w: World)
    requires Inv(e, w)
    ensures w.ctx.commits <= DoAppend(e, w).ctx.commits && w.ctx.commits <= DoCheckpoint(w).ctx.commits
  {
    hide Inv, StateInv, TurnInv, CS.WF, Good, CS.Apply, LogsAfter;
    LiveGood(e, w);
    if w.lock.Finishing? && w.lock.n in w.turns && w.turns[w.lock.n].app in w.live.main.apps {
      var n, app := w.lock.n, w.live.main.apps[w.turns[w.lock.n].app];
      if n in w.live.main.prepared {
        var op := CS.Append(app.owner, app.context, ResultKey(n), e.turnBytes(w.turns[n].payload, w.live.main.prepared[n].text));
        AppliedCommits(w.ctx, op);
      }
      AppliedCommits(w.ctx, CS.Checkpoint(app.owner, app.context, CheckpointKey(n)));
    }
  }

  lemma AppliedCommits(ctx: CS.Store, op: CS.Op)
    requires CS.WF(ctx) && !op.Create?
    ensures CS.Apply(ctx, op).Ok? ==> ctx.commits <= CS.Apply(ctx, op).value.0.commits
  {
    hide CS.WF, CS.Apply, LogsAfter;
    if CS.Apply(ctx, op).Ok? {
      ApplyLogs(ctx, op);
      LogsGrow(ctx, op, CS.Apply(ctx, op).value.0, CS.Apply(ctx, op).value.1);
    }
  }

  lemma AppendRun(e: Env, w: World)
    requires Inv(e, w)
    ensures Inv(e, DoAppend(e, w)) && Advances(w, DoAppend(e, w))
  {
    hide Inv, StateInv, TurnInv, Keeps, Advances, CS.WF, Good, CS.Apply;
    LiveGood(e, w);
    DownNow(e, w);
    AppendStep(e, w);
    AppendCommits(e, w);
    QuietRun(e, w, DoAppend(e, w));
  }

  lemma CheckpointRun(e: Env, w: World)
    requires Inv(e, w)
    ensures Inv(e, DoCheckpoint(w)) && Advances(w, DoCheckpoint(w))
  {
    hide Inv, StateInv, TurnInv, Keeps, Advances, CS.WF, Good, CS.Apply;
    LiveGood(e, w);
    DownNow(e, w);
    CheckpointStep(e, w);
    AppendCommits(e, w);
    QuietRun(e, w, DoCheckpoint(w));
  }

  lemma AcknowledgedBenign(ms: seq<Msg>, n: nat)
    ensures Benign(ms, Acknowledged(ms, n))
  {
  }

  lemma SettleStill(e: Env, st: State, n: nat, checkpoint: string, now: int)
    requires SettleTurn(e, st, n, checkpoint, now).Some?
    ensures var b := SettleTurn(e, st, n, checkpoint, now).value;
            SourcesStill(st.main, b.main) && b.main.pending == st.main.pending && b.asks == st.asks
  {
    hide Acknowledged, MessageId, OutcomeName, SourcesStill, Benign;
    var t := st.main.prepared[n];
    AcknowledgedBenign(BoxOf(st.main.mail, t.app), n);
    BenignSources(st.main, SettleTurn(e, st, n, checkpoint, now).value.main, t.app, Acknowledged(BoxOf(st.main.mail, t.app), n));
  }

  lemma SettleRun(e: Env, w: World, now: int, ok: bool)
    requires Inv(e, w)
    ensures Inv(e, DoSettle(e, w, now, ok)) && Advances(w, DoSettle(e, w, now, ok))
  {
    hide Inv, StateInv, TurnInv, Keeps, Advances, CS.WF, Good, SourcesStill, SettleTurn;
    LiveGood(e, w);
    DownNow(e, w);
    SettleStep(e, w, now, ok);
    var v := DoSettle(e, w, now, ok);
    if w.up && w.lock.Finishing? && w.lock.stage.ToSettle? {
      StillRefl(w.disk.main);
      if SettleTurn(e, w.live, w.lock.n, w.lock.stage.checkpoint, now).Some? {
        SettleStill(e, w.live, w.lock.n, w.lock.stage.checkpoint, now);
      }
      Framed(e, w, v);
    } else {
      SameWorld(e, w);
    }
  }

  lemma AbandonRun(e: Env, w: World)
    requires Inv(e, w)
    ensures Inv(e, DoAbandon(w)) && Advances(w, DoAbandon(w))
  {
    hide Inv, StateInv, TurnInv, Keeps, Advances, CS.WF, Good;
    LiveGood(e, w);
    DownNow(e, w);
    AbandonStep(e, w);
    QuietRun(e, w, DoAbandon(w));
  }

  lemma MarkBenign(ms: seq<Msg>, i: nat, status: Status)
    requires i < |ms|
    ensures Benign(ms, ms[i := ms[i].(status := status)])
  {
  }

  lemma RequeueStill(e: Env, st: State, id: AppId, n: nat, now: int)
    requires Good(e, st) && Requeue(e, st, id, n, now).Some?
    ensures var b := Requeue(e, st, id, n, now).value;
            SourcesStill(st.main, b.main) && b.main.pending == st.main.pending && b.asks == st.asks
  {
    hide Good, Requeue, SourcesStill, Benign;
    RequeueShape(e, st, id, n, now);
    var box := st.main.mail[id];
    MarkBenign(box, Find(box, n), Pending);
    BenignSources(st.main, Requeue(e, st, id, n, now).value.main, id, box[Find(box, n) := box[Find(box, n)].(status := Pending)]);
  }

  lemma RequeueRun(e: Env, w: World, n: nat, now: int, ok: bool)
    requires Inv(e, w)
    ensures Inv(e, DoRequeue(e, w, n, now, ok)) && Advances(w, DoRequeue(e, w, n, now, ok))
  {
    hide Inv, StateInv, TurnInv, Keeps, Advances, CS.WF, Good, SourcesStill, Requeue;
    LiveGood(e, w);
    if Idle(w) && n in w.turns {
      RequeueStep(e, w, n, now, ok);
      StillRefl(w.disk.main);
      if Requeue(e, w.live, w.turns[n].app, n, now).Some? {
        RequeueStill(e, w.live, w.turns[n].app, n, now);
      }
      Framed(e, w, DoRequeue(e, w, n, now, ok));
    } else {
      SameWorld(e, w);
    }
  }

  // ---- Requests ----

  /** New requests and an audit record, nothing else. */
  lemma AsksKeep(e: Env, st: State, asks: Asks, entry: Entry, now: int)
    requires Good(e, st) && AsksOk(asks)
    ensures Good(e, Note(e, st.(asks := asks), entry, now)) && Forward(st, Note(e, st.(asks := asks), entry, now))
  {
    hide MainOk, LogOk, AsksOk, Note, Forward;
    var moved := st.(asks := asks);
    ForwardRefl(st);
    NoteKeeps(e, moved, entry, now);
    AsksForward(st, moved, Note(e, moved, entry, now));
  }

  lemma AsksForward(a: State, b: State, c: State)
    requires b == a.(asks := b.asks) && Forward(b, c)
    ensures Forward(a, c)
  {
  }

  lemma AsksNow(e: Env, st: State)
    requires Good(e, st)
    ensures AsksOk(st.asks)
  {
  }

  lemma LapseKeeps(e: Env, st: State, asks: Asks)
    requires Good(e, st) && AsksOk(asks)
    ensures Good(e, st.(asks := asks)) && Forward(st, st.(asks := asks))
  {
    hide MainOk, LogOk, AsksOk;
    OnwardRefl(st.main);
  }

  /** A committed change of requests; only the gate's history may grow with it. */
  lemma GateCommit(e: Env, w: World, v: World, st: State, ok: bool)
    requires Inv(e, w) && Idle(w) && Good(e, st) && Forward(w.live, st) && st.main == w.live.main
    requires v == Commit(w, st, ok).(past := w.past.(gate := v.past.gate))
    requires GateInv(v)
    ensures Inv(e, v) && Advances(w, v)
  {
    StillRefl(w.disk.main);
    hide Good, Forward, CS.WF, TurnInv, KernelInv, WakeOk, GateOk, SourcesStill, ApprovedInTime, Plain, GateInv;
    SamePlain(w.live.main, st.main);
    PlainStep(e, w, v, st, ok);
    ForwardParts(w.disk, v.disk);
    KernelFrame(w, v);
    StillWake(e, w, v);
  }

  lemma GateNow(e: Env, w: World)
    requires Inv(e, w)
    ensures GateInv(w) && GateOk(w.past.gate, w.live.asks) && GateOk(w.past.gate, w.disk.asks) && ApprovedInTime(w.past.gate)
  {
  }

  lemma EscalateInTime(h: History, id: string, ask: Ask)
    requires ApprovedInTime(h) && id !in h.escalated
    ensures ApprovedInTime(h.(escalated := h.escalated[id := ask]))
  {
  }

  lemma EscalateRun(e: Env, w: World, principal: string, id: AppId, text: string, request: string, drop: set<string>, now: int, ok: bool)
    requires Inv(e, w)
    ensures Inv(e, DoEscalate(e, w, principal, id, text, request, drop, now, ok))
    ensures Advances(w, DoEscalate(e, w, principal, id, text, request, drop, now, ok))
  {
    hide Inv, Advances, Good, Forward, GateInv, GateOk, ApprovedInTime, AsksOk, OldestSettled, Lapse, Waitings, Note, StateInv, TurnInv, CS.WF;
    var v := DoEscalate(e, w, principal, id, text, request, drop, now, ok);
    if !Idle(w) || !MayExport(w.live, id, text) || w.live.main.apps[id].taint <= e.exportMask
       || request in w.past.gate.escalated || !OldestSettled(Lapse(w.live.asks, now), drop) {
      SameWorld(e, w);
    } else {
      LiveGood(e, w);
      GateNow(e, w);
      AsksNow(e, w.live);
      var swept, ask := Lapse(w.live.asks, now) - drop, Request(id, text, now);
      EscalateKeeps(w.live.asks, now, drop, request, ask);
      SweepGate(w.past.gate, w.live.asks, now, drop);
      if |Waitings(swept)| >= MAX_WAITING {
        var entry := Entry(principal, id, "confirmation.create", "rejected", "deny", "slow-path queue full");
        AsksKeep(e, w.live, swept, entry, now);
        NoteMain(e, w.live.(asks := swept), entry, now);
        DriftStep(e, w, v);
      } else {
        EscalateCommit(e, w, principal, id, request, swept, ask, now, ok);
      }
    }
  }

  lemma EscalateCommit(e: Env, w: World, principal: string, id: AppId, request: string, swept: Asks, ask: Ask, now: int, ok: bool)
    requires Inv(e, w) && Idle(w) && AsksOk(swept[request := ask]) && GateOk(w.past.gate, swept)
    requires request !in w.past.gate.escalated && ask.status == Waiting
    ensures var st := Note(e, w.live.(asks := swept[request := ask]), Entry(principal, id, "confirmation.create", request, "allow", "taint.export"), now);
            var next := Commit(w, st, ok);
            var v := if ok then next.(past := w.past.(gate := w.past.gate.(escalated := w.past.gate.escalated[request := ask]))) else next;
            Inv(e, v) && Advances(w, v)
  {
    hide Inv, Advances, Good, Forward, GateOk, ApprovedInTime, AsksOk, Note, StateInv, TurnInv, CS.WF;
    LiveGood(e, w);
    GateNow(e, w);
    var entry := Entry(principal, id, "confirmation.create", request, "allow", "taint.export");
    var st := Note(e, w.live.(asks := swept[request := ask]), entry, now);
    AsksKeep(e, w.live, swept[request := ask], entry, now);
    NoteMain(e, w.live.(asks := swept[request := ask]), entry, now);
    EscalateGate(w.past.gate, swept, request, ask);
    EscalateInTime(w.past.gate, request, ask);
    var next := Commit(w, st, ok);
    var v := if ok then next.(past := w.past.(gate := w.past.gate.(escalated := w.past.gate.escalated[request := ask]))) else next;
    GateCommit(e, w, v, st, ok);
  }

  /** The one path that changes the live state without committing it: a refused escalation. */
  lemma DriftStep(e: Env, w: World, v: World)
    requires Inv(e, w) && Idle(w) && v == w.(live := v.live) && Good(e, v.live) && Forward(w.live, v.live) && v.live.main == w.live.main
    requires GateOk(w.past.gate, v.live.asks)
    ensures Inv(e, v) && Advances(w, v)
  {
    hide Good, CS.WF, KernelInv, WakeOk, GateOk, ApprovedInTime, FlightsOk, CallsOk, RowsOk, MainOnward, TimersServed, LockOk;
    SameWorld(e, w);
    NotFinishing(v);
    DriftKernel(w, v);
  }

  lemma DriftKernel(w: World, v: World)
    requires KernelInv(w) && v == w.(live := v.live)
    ensures KernelInv(v)
  {
    hide SnappedOk, RecordsOk, QueuesOk, AckedOk, PostedOk, IsDelivered, KeptOnceOk, CopiesOk;
  }

  lemma ApproveInTime(h: History, asks: Asks, id: string, now: int)
    requires ApprovedInTime(h) && GateOk(h, asks) && id in asks && now <= asks[id].expires
    ensures ApprovedInTime(h.(approved := h.approved[id := now]))
  {
    assert Justified(h, id, asks[id]);
  }

  lemma LapseRun(e: Env, w: World, request: string, ok: bool)
    requires Inv(e, w) && Idle(w) && request in w.live.asks && (w.live.asks[request].status == Waiting || w.live.asks[request].status == Approved)
    ensures Inv(e, Commit(w, LapseOne(w.live, request), ok)) && Advances(w, Commit(w, LapseOne(w.live, request), ok))
  {
    hide Inv, Advances, Good, Forward, GateOk, ApprovedInTime, AsksOk, StateInv, TurnInv, CS.WF;
    LiveGood(e, w);
    GateNow(e, w);
    AsksNow(e, w.live);
    var asks := w.live.asks[request := w.live.asks[request].(status := Lapsed)];
    UpdateKeeps(w.live.asks, request, w.live.asks[request].(status := Lapsed));
    LapseKeeps(e, w.live, asks);
    LapseOneGate(w.past.gate, w.live.asks, request);
    GateCommit(e, w, Commit(w, LapseOne(w.live, request), ok), LapseOne(w.live, request), ok);
  }

  lemma SettleAskRun(e: Env, w: World, principal: string, request: string, approve: bool, now: int, ok: bool)
    requires Inv(e, w)
    ensures Inv(e, DoSettleAsk(e, w, principal, request, approve, now, ok)) && Advances(w, DoSettleAsk(e, w, principal, request, approve, now, ok))
  {
    hide Inv, Advances, Good, Forward, GateOk, ApprovedInTime, AsksOk, StateInv, TurnInv, CS.WF, Note;
    var v := DoSettleAsk(e, w, principal, request, approve, now, ok);
    var r := Settle(w.live.asks, request, approve, now, principal);
    if !Idle(w) || (r.Err? && r.error != TooLate) {
      SameWorld(e, w);
    } else if r.Err? {
      LapseRun(e, w, request, ok);
    } else {
      LiveGood(e, w);
      GateNow(e, w);
      AsksNow(e, w.live);
      var asks, entry := w.live.asks[request := r.value],
        Entry(principal, r.value.application, if approve then "confirmation.approve" else "confirmation.deny", request, "allow", "taint.export");
      UpdateKeeps(w.live.asks, request, r.value);
      AsksKeep(e, w.live, asks, entry, now);
      NoteMain(e, w.live.(asks := asks), entry, now);
      SettleGate(w.past.gate, w.live.asks, request, approve, now, principal);
      ApproveInTime(w.past.gate, w.live.asks, request, now);
      GateCommit(e, w, v, Note(e, w.live.(asks := asks), entry, now), ok);
    }
  }

  lemma ReleaseInTime(h: History, r: Release)
    requires ApprovedInTime(h)
    ensures ApprovedInTime(h.(released := h.released + [r]))
  {
  }

  lemma RedeemRun(e: Env, w: World, principal: string, id: AppId, text: string, request: string, now: int, ok: bool)
    requires Inv(e, w)
    ensures Inv(e, DoRedeem(e, w, principal, id, text, request, now, ok)) && Advances(w, DoRedeem(e, w, principal, id, text, request, now, ok))
  {
    hide Inv, Advances, Good, Forward, GateOk, ApprovedInTime, AsksOk, StateInv, TurnInv, CS.WF, Note;
    var v := DoRedeem(e, w, principal, id, text, request, now, ok);
    var r := Redeem(w.live.asks, request, id, text, now);
    if !Idle(w) || !MayExport(w.live, id, text) || (r.Err? && r.error != TooLate) {
      SameWorld(e, w);
    } else if r.Err? {
      LapseRun(e, w, request, ok);
    } else {
      LiveGood(e, w);
      GateNow(e, w);
      AsksNow(e, w.live);
      var asks, entry := w.live.asks[request := r.value], Entry(principal, id, "taint.export.confirm", text, "allow", "one-shot via " + request);
      UpdateKeeps(w.live.asks, request, r.value);
      AsksKeep(e, w.live, asks, entry, now);
      NoteMain(e, w.live.(asks := asks), entry, now);
      RedeemGate(w.past.gate, w.live.asks, request, id, text, now);
      ReleaseInTime(w.past.gate, Release(request, text, now));
      GateCommit(e, w, v, Note(e, w.live.(asks := asks), entry, now), ok);
    }
  }

  // ---- Kernel events ----

  /** Both states and the context store stand still. */
  lemma KernelOnly(e: Env, w: World, v: World)
    requires Inv(e, w) && KernelInv(v) && v == w.(kernel := v.kernel, past := v.past, lock := v.lock)
    requires v.past.gate == w.past.gate && (v.lock == w.lock || (!w.lock.Finishing? && !v.lock.Finishing? && w.up))
    ensures Inv(e, v) && Advances(w, v)
  {
    hide Good, CS.WF, KernelInv, WakeOk, GateOk, ApprovedInTime, FlightsOk, CallsOk, RowsOk, Forward, TimersServed, LockOk;
    SameWorld(e, w);
    if v.lock == w.lock {
      LockSame(w, v);
    } else {
      NotFinishing(v);
    }
  }

  lemma NotFinishing(w: World)
    requires !w.lock.Finishing?
    ensures LockOk(w)
  {
  }

  lemma KernelNow(e: Env, w: World)
    requires Inv(e, w)
    ensures KernelInv(w)
  {
  }

  lemma PostRun(e: Env, w: World, id: AppId, content: Event)
    requires Inv(e, w)
    ensures Inv(e, DoPost(w, id, content)) && Advances(w, DoPost(w, id, content))
  {
    hide Inv, Advances, KernelInv;
    KernelNow(e, w);
    PostStep(w, id, content);
    KernelOnly(e, w, DoPost(w, id, content));
  }

  lemma AttachRun(e: Env, w: World, id: AppId)
    requires Inv(e, w)
    ensures Inv(e, DoAttach(w, id)) && Advances(w, DoAttach(w, id))
  {
    hide Inv, Advances, KernelInv, Records;
    KernelNow(e, w);
    LiveGood(e, w);
    AttachStep(w, id);
    KernelOnly(e, w, DoAttach(w, id));
  }

  lemma ReinjectRun(e: Env, w: World, id: AppId)
    requires Inv(e, w)
    ensures Inv(e, DoReinject(w, id)) && Advances(w, DoReinject(w, id))
  {
    hide Inv, Advances, KernelInv, Records, EventsOf;
    KernelNow(e, w);
    ReinjectStep(w, id);
    KernelOnly(e, w, DoReinject(w, id));
  }

  lemma AckRun(e: Env, w: World, result: AckResult)
    requires Inv(e, w)
    ensures Inv(e, DoAck(w, result)) && Advances(w, DoAck(w, result))
  {
    hide Inv, Advances, KernelInv, RemoveEvent;
    KernelNow(e, w);
    AckStep(w, result);
    KernelOnly(e, w, DoAck(w, result));
  }

  lemma KernelDeliveryStill(e: Env, st: State, id: AppId, boot: string, event: nat, raw: string, pending: map<AppId, seq<Saved>>, now: int)
    ensures var b := Delivered(e, st, id, KernelKey(id, boot, event), raw, st.main.timers, st.main.bindings, pending, now);
            && SourcesStill(st.main, b.main) && Plain(st.main, b.main) && b.asks == st.asks
  {
    hide SteadyMail, Delivered, HasPrefix, NoneReturned, AllBenign;
    KeyTag("kernel:", id + ":" + boot, event);
    DeliveredCalm(e, st, id, KernelKey(id, boot, event), raw, st.main.timers, st.main.bindings, pending, now);
    var b := Delivered(e, st, id, KernelKey(id, boot, event), raw, st.main.timers, st.main.bindings, pending, now).main;
    SteadyBenign(st.main.mail, b.mail);
    forall k | k in st.main.timers
      ensures TimerServed(st.main, b, k)
    {
    }
  }

  /** Committing a delivery from the kernel, whatever it does to the drain itself. */
  lemma KernelCommit(e: Env, w: World, v: World, st: State, ok: bool)
    requires Inv(e, w) && Idle(w) && Good(e, st) && Forward(w.live, st)
    requires SourcesStill(w.live.main, st.main) && Plain(w.live.main, st.main) && st.asks == w.live.asks
    requires v.live == Commit(w, st, ok).live && v.disk == Commit(w, st, ok).disk && v.up == w.up
    requires v.turns == w.turns && v.ctx == w.ctx && !v.lock.Finishing? && v.past.gate == w.past.gate && KernelInv(v)
    ensures Inv(e, v) && Advances(w, v)
  {
    StillRefl(w.disk.main);
    hide Good, Forward, CS.WF, KernelInv, WakeOk, GateOk, ApprovedInTime, FlightsOk, CallsOk, RowsOk, Plain, SourcesStill;
    PlainStep(e, w, v.(lock := Free), st, ok);
    StillWake(e, w, v);
  }

  lemma RecoverRecordRun(e: Env, w: World, id: AppId, now: int, ok: bool)
    requires Inv(e, w)
    ensures Inv(e, DoRecoverRecord(e, w, id, now, ok)) && Advances(w, DoRecoverRecord(e, w, id, now, ok))
  {
    hide Inv, Advances, KernelInv, Good, Forward, SourcesStill, Plain, MailOnward, StateInv, TurnInv, CS.WF, RecoverFirst;
    LiveGood(e, w);
    KernelNow(e, w);
    var v := DoRecoverRecord(e, w, id, now, ok);
    if !Idle(w) {
      SameWorld(e, w);
    } else if RecoverFirst(e, w.live, id, now).None? {
      RecoveringStep(e, w, v);
    } else {
      var st := RecoverFirst(e, w.live, id, now).value;
      RecoverFirstKeeps(e, w.live, id, now);
      ForwardParts(w.live, st);
      RecoverFirstStill(e, w.live, id, now);
      RecoverRecordStep(e, w, id, now, ok);
      KernelCommit(e, w, v, st, ok);
    }
  }

  lemma RecoverFirstStill(e: Env, st: State, id: AppId, now: int)
    requires RecoverFirst(e, st, id, now).Some?
    ensures var b := RecoverFirst(e, st, id, now).value;
            SourcesStill(st.main, b.main) && Plain(st.main, b.main) && b.asks == st.asks
  {
    hide SourcesStill, Plain, Delivered, Enqueue, KernelKey;
    var records := Records(st.main, id);
    KernelDeliveryStill(e, st, id, records[0].boot, records[0].event.id, e.kernelWake(id, records[0].event),
                        WithRecords(st.main.pending, id, records[1..]), now);
  }

  /** Only the process-local marks change. */
  lemma RecoveringStep(e: Env, w: World, v: World)
    requires Inv(e, w) && v == w.(recovering := v.recovering)
    ensures Inv(e, v) && Advances(w, v)
  {
    hide Good, CS.WF, WakeOk, GateOk, ApprovedInTime, FlightsOk, CallsOk, RowsOk, Forward, TimersServed, LockOk,
      SnappedOk, RecordsOk, QueuesOk, AckedOk, PostedOk, IsDelivered;
    SameWorld(e, w);
    LockSame(w, v);
  }

  lemma StageStill(e: Env, st: State, id: AppId, event: Event, boot: string, now: int)
    requires StageEvent(e, st, id, event, boot, now).Some?
    ensures var b := StageEvent(e, st, id, event, boot, now).value;
            SourcesStill(st.main, b.main) && Plain(st.main, b.main) && b.asks == st.asks
  {
    hide SourcesStill, Plain, Delivered, Enqueue, KernelKey, Identify, Without;
    var saved := Identify(Records(st.main, id), event, boot);
    var records := Without(Records(st.main, id), saved.boot, event.id) + [saved];
    KernelDeliveryStill(e, st, id, saved.boot, event.id, e.kernelWake(id, event), st.main.pending[id := records], now);
  }

  lemma StageRun(e: Env, w: World, id: AppId, now: int, ok: bool)
    requires Inv(e, w)
    ensures Inv(e, DoStage(e, w, id, now, ok)) && Advances(w, DoStage(e, w, id, now, ok))
  {
    hide Inv, Advances, KernelInv, Good, Forward, SourcesStill, Plain, MailOnward, StateInv, TurnInv, CS.WF, StageEvent;
    LiveGood(e, w);
    KernelNow(e, w);
    var m, k := w.live.main, w.kernel;
    if !Idle(w) || id !in m.apps || m.apps[id].state == Tombstoned || Records(m, id) != [] || CursorAt(k, id) >= |QueueOf(k, id)| {
      SameWorld(e, w);
    } else {
      HandlesNow(w, id);
      StageCases(e, w, id, now, ok);
    }
  }

  lemma StageCases(e: Env, w: World, id: AppId, now: int, ok: bool)
    requires Inv(e, w) && Idle(w) && id in w.live.main.apps && w.live.main.apps[id].state != Tombstoned
    requires Records(w.live.main, id) == [] && CursorAt(w.kernel, id) == 0 && QueueOf(w.kernel, id) != []
    ensures Inv(e, DoStage(e, w, id, now, ok)) && Advances(w, DoStage(e, w, id, now, ok))
  {
    hide Inv, Advances, KernelInv, Good, Forward, SourcesStill, Plain, MailOnward, StateInv, TurnInv, CS.WF, StageEvent, Identify, Records;
    LiveGood(e, w);
    KernelNow(e, w);
    var v := DoStage(e, w, id, now, ok);
    var event := QueueOf(w.kernel, id)[0];
    if StageEvent(e, w.live, id, event, w.kernel.boot, now).None? {
      StageStep(e, w, id, now, ok);
      KernelOnly(e, w, v);
    } else {
      var st := StageEvent(e, w.live, id, event, w.kernel.boot, now).value;
      StageEventKeeps(e, w.live, id, event, w.kernel.boot, now);
      ForwardParts(w.live, st);
      StageStill(e, w.live, id, event, w.kernel.boot, now);
      StageStep(e, w, id, now, ok);
      KernelCommit(e, w, v, st, ok);
    }
  }

  lemma PendingStill(a: Main, b: Main)
    requires b == a.(pending := b.pending)
    ensures SourcesStill(a, b) && Plain(a, b)
  {
    hide NoneReturned, AllBenign, TimersServed;
    SameSources(a, b);
    SamePlain(a, b);
  }

  lemma DropRun(e: Env, w: World, ok: bool)
    requires Inv(e, w)
    ensures Inv(e, DoDrop(w, ok)) && Advances(w, DoDrop(w, ok))
  {
    hide Inv, Advances, KernelInv, Good, Forward, SourcesStill, Plain, StateInv, TurnInv, CS.WF, Without, WithRecords, Records;
    LiveGood(e, w);
    KernelNow(e, w);
    var v := DoDrop(w, ok);
    if w.up && w.lock.Dropping? {
      var st := DropEvent(w.live, w.lock.id, w.lock.saved);
      PendingKeeps(e, w.live, st.main.pending);
      PendingStill(w.live.main, st.main);
      DropStep(w, ok);
      FreeFirst(e, w);
      KernelCommit(e, w.(lock := Free), v, st, ok);
      SameDisk(w, w.(lock := Free), v);
    } else {
      SameWorld(e, w);
    }
  }

  /** Letting the drain lock go keeps the invariant. */
  lemma FreeFirst(e: Env, w: World)
    requires Inv(e, w) && w.lock.Dropping? && w.up
    ensures Inv(e, w.(lock := Free))
  {
    hide Inv, KernelInv;
    KernelNow(e, w);
    FreeKernel(w);
    KernelOnly(e, w, w.(lock := Free));
  }

  lemma FreeKernel(w: World)
    requires KernelInv(w) && w.lock.Dropping?
    ensures KernelInv(w.(lock := Free))
  {
    hide SnappedOk, RecordsOk, QueuesOk, AckedOk, PostedOk, IsDelivered, KeptOnceOk, CopiesOk;
  }

  // ---- Stopping and starting ----

  lemma StoppedRun(e: Env, w: World)
    requires Inv(e, w)
    ensures Inv(e, Stopped(w)) && Advances(w, Stopped(w))
  {
    SameWorld(e, w);
    hide Good, CS.WF, KernelInv, WakeOk, GateOk, ApprovedInTime, Forward, TimersServed, TurnInv, StateInv;
    LiveGood(e, w);
    StoppedStep(e, w);
    StoppedKernel(w);
    hide Keeps;
    KeepsState(e, w, Stopped(w));
  }

  lemma KeepsState(e: Env, w: World, v: World)
    requires Keeps(e, w, v)
    ensures StateInv(e, v)
  {
  }

  lemma ShutdownRun(e: Env, w: World, ids: seq<AppId>, ok: bool)
    requires Inv(e, w)
    ensures Inv(e, DoShutdown(w, ids, ok)) && Advances(w, DoShutdown(w, ids, ok))
  {
    hide Inv, Advances, KernelInv, Good, Forward, SourcesStill, Plain, StateInv, TurnInv, CS.WF, SnapAll, AllNames;
    LiveGood(e, w);
    KernelNow(e, w);
    if !Idle(w) {
      SameWorld(e, w);
    } else {
      SnappedShape(w, ids);
      var st := SnapAll(w, ids).live;
      PendingKeeps(e, w.live, st.main.pending);
      PendingStill(w.live.main, st.main);
      ShutdownKernel(w, ids, ok);
      ShutdownCommit(e, w, DoShutdown(w, ids, ok), st, ok);
    }
  }

  lemma SnappedShape(w: World, ids: seq<AppId>)
    requires KernelInv(w) && w.live.main == w.disk.main
    ensures var v := SnapAll(w, ids);
            v == w.(live := w.live.(main := w.live.main.(pending := v.live.main.pending)), recovering := v.recovering)
  {
    hide SnappedOk, RecordsOk, QueuesOk, AckedOk, IsDelivered, KeptOnceOk, CopiesOk;
    SnapAllKeeps(w, ids);
  }

  lemma ShutdownCommit(e: Env, w: World, v: World, st: State, ok: bool)
    requires Inv(e, w) && Idle(w) && Good(e, st) && Forward(w.live, st) && st.asks == w.live.asks
    requires SourcesStill(w.live.main, st.main) && Plain(w.live.main, st.main)
    requires v.disk == Commit(w, st, ok).disk && v.live == v.disk && !v.up && v.turns == map[] && v.ctx == w.ctx && v.lock == Free
    requires v.past.gate == w.past.gate && KernelInv(v)
    ensures Inv(e, v) && Advances(w, v)
  {
    StillRefl(w.disk.main);
    hide Good, Forward, CS.WF, KernelInv, WakeOk, GateOk, ApprovedInTime, FlightsOk, CallsOk, RowsOk, Plain, SourcesStill;
    PlainStep(e, w, v.(turns := w.turns), st, ok);
    SubFlights(e, v.disk.main, w.turns, map[]);
    StillWake(e, w, v);
  }

  lemma ReclaimBenign(ms: seq<Msg>)
    ensures Benign(ms, ReclaimAll(ms)) && Benign(ms, ExpireAll(ms))
  {
  }

  lemma BenignTransitive(a: Mail, b: Mail, c: Mail)
    requires AllBenign(a, b) && AllBenign(b, c)
    ensures AllBenign(a, c)
  {
    forall id
      ensures Benign(BoxOf(a, id), BoxOf(c, id))
    {
      assert Benign(BoxOf(a, id), BoxOf(b, id)) && Benign(BoxOf(b, id), BoxOf(c, id));
    }
  }

  lemma BenignSet(mail: Mail, id: AppId, ms: seq<Msg>)
    requires Benign(BoxOf(mail, id), ms)
    ensures AllBenign(mail, mail[id := ms])
  {
    forall x
      ensures Benign(BoxOf(mail, x), BoxOf(mail[id := ms], x))
    {
    }
  }

  lemma RecoverAppBenign(e: Env, st: State, id: AppId, now: int)
    ensures AllBenign(st.main.mail, RecoverApp(e, st, id, now).main.mail)
  {
    hide ReclaimAll, ExpireAll, AllBenign, Benign;
    ReclaimBenign(BoxOf(st.main.mail, id));
    BenignSet(st.main.mail, id, ReclaimAll(BoxOf(st.main.mail, id)));
    BenignSet(st.main.mail, id, ExpireAll(BoxOf(st.main.mail, id)));
    SteadyRefl(st.main.mail);
    SteadyBenign(st.main.mail, st.main.mail);
  }

  lemma {:induction false} RecoverBenign(e: Env, st: State, order: seq<AppId>, now: int)
    ensures AllBenign(st.main.mail, Recover(e, st, order, now).main.mail)
  {
    hide AllBenign, RecoverApp;
    if order == [] {
      SteadyRefl(st.main.mail);
      SteadyBenign(st.main.mail, st.main.mail);
    } else {
      var before := Recover(e, st, order[..|order| - 1], now);
      RecoverBenign(e, st, order[..|order| - 1], now);
      RecoverAppBenign(e, before, order[|order| - 1], now);
      BenignTransitive(st.main.mail, before.main.mail, Recover(e, st, order, now).main.mail);
    }
  }

  lemma RecoverStill(e: Env, st: State, order: seq<AppId>, now: int)
    ensures SourcesStill(st.main, Recover(e, st, order, now).main)
    ensures Recover(e, st, order, now).main.pending == st.main.pending && Recover(e, st, order, now).asks == st.asks
  {
    hide AllBenign, Recover;
    RecoverShape(e, st, order, now);
    RecoverBenign(e, st, order, now);
    var b := Recover(e, st, order, now).main;
    forall k | k in st.main.timers
      ensures TimerServed(st.main, b, k)
    {
    }
  }

  lemma RestartRun(e: Env, w: World, order: seq<AppId>, now: int, ok: bool)
    requires Inv(e, w)
    ensures Inv(e, DoRestart(e, w, order, now, ok)) && Advances(w, DoRestart(e, w, order, now, ok))
  {
    hide Inv, StateInv, TurnInv, Keeps, Advances, CS.WF, Good, SourcesStill, Recover;
    LiveGood(e, w);
    DownNow(e, w);
    if w.up || !ok {
      SameWorld(e, w);
    } else {
      RestartStep(e, w, order, now, ok);
      RecoverStill(e, w.disk, order, now);
      Framed(e, w, DoRestart(e, w, order, now, ok));
    }
  }

  lemma RebootRun(e: Env, w: World, boot: string)
    requires Inv(e, w)
    ensures Inv(e, DoReboot(w, boot)) && Advances(w, DoReboot(w, boot))
  {
    hide Inv, Advances, KernelInv;
    StoppedRun(e, w);
    KernelNow(e, w);
    RebootKernel(w, boot);
    if boot in w.past.boots || boot == "" {
      SameWorld(e, w);
    } else {
      KernelOnly(e, Stopped(w), DoReboot(w, boot));
      SameDisk(w, Stopped(w), DoReboot(w, boot));
    }
  }

  lemma SameDisk(w: World, mid: World, v: World)
    requires mid.disk == w.disk && Advances(mid, v)
    ensures Advances(w, v)
  {
  }

  // ---- Every step, every run ----

  lemma AppsKeep(e: Env, w: World, step: AppStep)
    requires Inv(e, w)
    ensures Inv(e, NextApps(e, w, step)) && Advances(w, NextApps(e, w, step))
  {
    hide Inv, Advances, DoCommand, DoRollback, DoRetire, DoCreate, DoFork, DoImport, DoBind, DoScan;
    match step
    case Do(c, now, ok) => CommandStep(e, w, c, now, ok);
    case RollBack => RollbackStep(e, w);
    case RetireApp(principal, id, now, ok) => RetireRun(e, w, principal, id, now, ok);
    case NewApplication(principal, id, owner, wake, context, now, ok) => CreateRun(e, w, principal, id, owner, wake, context, now, ok);
    case ForkApplication(principal, parent, id, owner, wake, context, now, ok) => ForkRun(e, w, principal, parent, id, owner, wake, context, now, ok);
    case Import(principal, id, key, payload, now, ok) => ImportRun(e, w, principal, id, key, payload, now, ok);
    case Bind(principal, id, binding, ref, after, now, ok) => BindRun(e, w, principal, id, binding, ref, after, now, ok);
    case ScanBindings(keys, now, ok) => ScanRun(e, w, keys, now, ok);
  }

  lemma TurnsKeep(e: Env, w: World, step: TurnStep)
    requires Inv(e, w)
    ensures Inv(e, NextTurns(e, w, step)) && Advances(w, NextTurns(e, w, step))
  {
    hide Inv, Advances, DoClaimTurn, DoStart, DoAnswer, DoFinish, DoAppend, DoCheckpoint, DoSettle, DoAbandon, DoRequeue;
    match step
    case TakeTurn(id, now, ok) => TakeTurnRun(e, w, id, now, ok);
    case StartTurn(n) => StartRun(e, w, n);
    case AnswerTurn(n, answer) => AnswerRun(e, w, n, answer);
    case FinishTurn(n, ok) => FinishRun(e, w, n, ok);
    case AppendResult => AppendRun(e, w);
    case CheckpointResult => CheckpointRun(e, w);
    case CommitResult(now, ok) => SettleRun(e, w, now, ok);
    case AbandonFinish => AbandonRun(e, w);
    case RequeueTurn(n, now, ok) => RequeueRun(e, w, n, now, ok);
  }

  lemma GateKeeps(e: Env, w: World, step: GateStep)
    requires Inv(e, w)
    ensures Inv(e, NextGate(e, w, step)) && Advances(w, NextGate(e, w, step))
  {
    hide Inv, Advances, DoExport, DoEscalate, DoSettleAsk, DoRedeem;
    match step
    case Export(principal, id, text, confirm, now, ok) => ExportStep(e, w, principal, id, text, confirm, now, ok);
    case Escalate(principal, id, text, request, drop, now, ok) => EscalateRun(e, w, principal, id, text, request, drop, now, ok);
    case SettleAsk(principal, request, approve, now, ok) => SettleAskRun(e, w, principal, request, approve, now, ok);
    case RedeemAsk(principal, id, text, request, now, ok) => RedeemRun(e, w, principal, id, text, request, now, ok);
  }

  lemma KernelKeeps(e: Env, w: World, step: KernelStep)
    requires Inv(e, w)
    ensures Inv(e, NextKernel(e, w, step)) && Advances(w, NextKernel(e, w, step))
  {
    hide Inv, Advances, DoPost, DoRecoverRecord, DoStage, DoAck, DoDrop, DoAttach, DoReinject;
    match step
    case Post(id, content) => PostRun(e, w, id, content);
    case RecoverRecord(id, now, ok) => RecoverRecordRun(e, w, id, now, ok);
    case StageNext(id, now, ok) => StageRun(e, w, id, now, ok);
    case AckEvent(result) => AckRun(e, w, result);
    case DropRecord(ok) => DropRun(e, w, ok);
    case AttachRecords(id) => AttachRun(e, w, id);
    case Reinject(id) => ReinjectRun(e, w, id);
  }

  lemma BootKeeps(e: Env, w: World, step: BootStep)
    requires Inv(e, w)
    ensures Inv(e, NextBoot(e, w, step)) && Advances(w, NextBoot(e, w, step))
  {
    hide Inv, Advances, DoShutdown, Stopped, DoRestart, DoReboot;
    match step
    case Shutdown(ids, ok) => ShutdownRun(e, w, ids, ok);
    case Crash => StoppedRun(e, w);
    case Restart(order, now, ok) => RestartRun(e, w, order, now, ok);
    case Reboot(boot) => RebootRun(e, w, boot);
  }

  /** Every step keeps the invariant and only adds to what is committed. */
  lemma StepKeeps(e: Env, w: World, step: Step)
    requires Inv(e, w)
    ensures Inv(e, Next(e, w, step)) && Advances(w, Next(e, w, step))
  {
    hide Inv, Advances, NextApps, NextTurns, NextGate, NextKernel, NextBoot;
    match step
    case OnApps(s) => AppsKeep(e, w, s);
    case OnTurns(s) => TurnsKeep(e, w, s);
    case OnGate(s) => GateKeeps(e, w, s);
    case OnKernel(s) => KernelKeeps(e, w, s);
    case OnBoot(s) => BootKeeps(e, w, s);
  }

  /** Over any run the invariant holds throughout and nothing committed on the way is taken back. */
  lemma {:induction false} RunKeeps(e: Env, trace: seq<World>, steps: seq<Step>, i: nat, j: nat)
    requires IsRun(e, trace, steps) && i <= j < |trace| && Inv(e, trace[i])
    ensures Inv(e, trace[j]) && Forward(trace[i].disk, trace[j].disk)
  {
    hide Inv, Forward, Next, TimersServed;
    if i == j {
      ForwardRefl(trace[i].disk);
    } else {
      RunKeeps(e, trace, steps, i, j - 1);
      assert System.Follows(e, trace, steps, j - 1);
      StepKeeps(e, trace[j - 1], steps[j - 1]);
      ForwardTransitive(trace[i].disk, trace[j - 1].disk, trace[j].disk);
    }
  }
}
