/**
 * What the whole system guarantees in every state it can reach from an empty database.
 */
module Guarantees {
  import opened Sums
  import opened Text
  import opened Mailboxes
  import opened AuditChain
  import opened Confirmations
  import opened SupervisorState
  import opened Operations
  import opened WakeBindings
  import opened System
  import opened Safety
  import opened TurnSettlement
  import opened TurnRuns
  import opened KernelRuns
  import opened Runs
  import UsageLedger
  import CS = ContextStore

  /** A world some run leads to, whatever happened on the way. */
  ghost predicate Reachable(e: Env, w: World) {
    exists trace: seq<World>, steps: seq<Step> ::
      IsRun(e, trace, steps) && Initial(trace[0]) && CS.Sound(trace[0].ctx.codec) && w == trace[|steps|]
  }

  lemma EmptyGood(e: Env, st: State)
    requires st == State(Main(map[], map[], map[], map[], map[], map[], map[]), Log([], 0, []), map[])
    ensures Good(e, st)
  {
    assert Loads(Messages, map[]) == map[] && Loads(PayloadBytes, map[]) == map[];
    assert Total<AppId>(map[]) == 0;
    assert Waitings(map[]) == {};
  }

  lemma EmptyStore(ctx: CS.Store)
    requires CS.Sound(ctx.codec) && ctx == CS.Store(ctx.codec, map[], map[], {}, {}, map[], [])
    ensures CS.WF(ctx)
  {
  }

  lemma InitialInv(e: Env, w: World)
    requires Initial(w) && CS.Sound(w.ctx.codec)
    ensures Inv(e, w)
  {
    EmptyGood(e, w.live);
    EmptyStore(w.ctx);
    InitialTurns(e, w);
    InitialKernel(w);
    InitialWake(w.ctx.commits, w.disk.main);
    hide Good, CS.WF, TurnInv, KernelInv, WakeOk;
  }

  lemma InitialTurns(e: Env, w: World)
    requires Initial(w)
    ensures TurnInv(e, w)
  {
  }

  lemma InitialKernel(w: World)
    requires Initial(w)
    ensures KernelInv(w)
  {
    forall id
      ensures QueueOk(w.kernel, w.past, id, QueueOf(w.kernel, id))
    {
    }
  }

  lemma InitialWake(commits: seq<CS.Commit>, m: Main)
    requires m.mail == map[] && m.bindings == map[]
    ensures WakeOk(commits, m)
  {
  }

  /** The invariant holds in every reachable state. */
  lemma ReachableInv(e: Env, w: World)
    requires Reachable(e, w)
    ensures Inv(e, w)
  {
    hide Inv, Initial, System.Follows;
    var trace: seq<World>, steps: seq<Step> :| IsRun(e, trace, steps) && Initial(trace[0]) && CS.Sound(trace[0].ctx.codec) && w == trace[|steps|];
    InitialInv(e, trace[0]);
    RunKeeps(e, trace, steps, 0, |steps|);
  }

  // ---- Mail ----

  /**
   * Mailbox admission: in the live and the committed state, outstanding messages and bytes stay within both
   * limits, keys are unique per application, and message numbers grow strictly and are never shared.
   */
  lemma MailboxesStayBounded(e: Env, w: World, st: State, id: AppId)
    requires Reachable(e, w) && (st == w.live || st == w.disk) && id in st.main.mail
    ensures var ms := st.main.mail[id];
            && (forall k: Measure :: Load(k, ms) <= AppLimit(k) && TotalLoad(k, st.main.mail) <= SystemLimit(k))
            && KeysUnique(ms) && Numbered(ms, st.log.next)
    ensures forall other | other in st.main.mail && other != id :: Apart(st.main.mail[id], st.main.mail[other])
  {
    hide Reachable;
    hide Inv, Good, BoxOk, KeysUnique, Numbered, Apart, Load, TotalLoad, IsRun;
    ReachableInv(e, w);
    LiveGood(e, w);
    MailBounds(e, st, id);
  }

  lemma MailBounds(e: Env, st: State, id: AppId)
    requires Good(e, st) && id in st.main.mail
    ensures var ms := st.main.mail[id];
            && (forall k: Measure :: Load(k, ms) <= AppLimit(k) && TotalLoad(k, st.main.mail) <= SystemLimit(k))
            && KeysUnique(ms) && Numbered(ms, st.log.next)
    ensures forall other | other in st.main.mail && other != id :: Apart(st.main.mail[id], st.main.mail[other])
  {
    MailIsOk(e, st);
    hide Good, Load, TotalLoad, KeysUnique, Numbered, Apart;
    assert BoxOk(st.main.mail[id], st.log.next);
  }

  // ---- Settlement ----

  /** Of the commits of all contexts exactly one carries the key; it is of the kind, and in the context. */
  ghost predicate ExactlyOne(ctx: CS.Store, c: CS.ContextId, key: string, kind: CS.Kind) {
    exists i :: 0 <= i < |ctx.commits| && ctx.commits[i].context == c && ctx.commits[i].key == key && ctx.commits[i].kind == kind
      && forall j | 0 <= j < |ctx.commits| && ctx.commits[j].key == key :: j == i
  }

  lemma RowExactlyOne(ctx: CS.Store, c: CS.ContextId, key: string, kind: CS.Kind)
    requires CS.WF(ctx) && Row(ctx, c, key, kind) && forall x | (x, key) in ctx.operations :: x == c
    ensures ExactlyOne(ctx, c, key, kind)
  {
    var i :| 0 <= i < |ctx.commits| && ctx.commits[i].context == c && ctx.commits[i].key == key && ctx.commits[i].kind == kind;
    forall j | 0 <= j < |ctx.commits| && ctx.commits[j].key == key
      ensures j == i
    {
      CommitHasRow(ctx, j);
      RowIsUnique(ctx, c, key, i, j);
    }
  }

  lemma CommitHasRow(ctx: CS.Store, i: nat)
    requires CS.WF(ctx) && i < |ctx.commits|
    ensures (ctx.commits[i].context, ctx.commits[i].key) in ctx.operations
  {
    assert CS.LogOk(ctx.operations, ctx.commits);
  }

  /** The rows of a settled turn are in its own context only. */
  lemma OwnContextOnly(e: Env, w: World, n: nat, c: CS.ContextId)
    requires Good(e, w.disk) && RowsOk(e, w.disk.main, w.ctx) && n in w.disk.main.results && w.disk.main.results[n].app in w.disk.main.apps
    ensures (c, ResultKey(n)) in w.ctx.operations || (c, CheckpointKey(n)) in w.ctx.operations ==>
              c == w.disk.main.apps[w.disk.main.results[n].app].context
  {
    var m := w.disk.main;
    assert m.results.Keys !! m.prepared.Keys;
    hide Row, Holds, Message, CS.Digest, ResultKey, CheckpointKey;
    if (c, ResultKey(n)) in w.ctx.operations {
      assert AppendOwed(e, m, w.ctx, c, n);
    }
    if (c, CheckpointKey(n)) in w.ctx.operations {
      assert CheckpointOwed(m, w.ctx, c, n);
    }
  }

  /** What settlement leaves in the context store for one turn. */
  ghost predicate SettledOnce(m: Main, ctx: CS.Store, n: nat, t: Turn) {
    && t.app in m.apps
    && ExactlyOne(ctx, m.apps[t.app].context, ResultKey(n), CS.AppendKind)
    && ExactlyOne(ctx, m.apps[t.app].context, CheckpointKey(n), CS.CheckpointKind)
    && (m.apps[t.app].context, CheckpointKey(n)) in ctx.operations
    && ctx.operations[(m.apps[t.app].context, CheckpointKey(n))].result == t.checkpoint
  }

  lemma SettledIsOnce(e: Env, w: World, n: nat)
    requires Good(e, w.disk) && RowsOk(e, w.disk.main, w.ctx) && CS.WF(w.ctx) && n in w.disk.main.results
    ensures SettledOnce(w.disk.main, w.ctx, n, w.disk.main.results[n])
  {
    var m, t := w.disk.main, w.disk.main.results[n];
    assert SettledOk(m, w.ctx, n, t);
    hide Good, RowsOk, ExactlyOne, CS.WF, ResultKey, CheckpointKey;
    forall c
      ensures (c, ResultKey(n)) in w.ctx.operations || (c, CheckpointKey(n)) in w.ctx.operations ==> c == m.apps[t.app].context
    {
      OwnContextOnly(e, w, n, c);
    }
    RowExactlyOne(w.ctx, m.apps[t.app].context, ResultKey(n), CS.AppendKind);
    RowExactlyOne(w.ctx, m.apps[t.app].context, CheckpointKey(n), CS.CheckpointKind);
  }

  /**
   * Settlement is exactly-once: an application is charged the saturating sum of its committed results, each
   * settled message has exactly one append and one checkpoint in all contexts together, in its application's
   * context, and the result names that checkpoint.
   */
  lemma SettlementIsExactlyOnce(e: Env, w: World)
    requires Reachable(e, w)
    ensures forall id | id in w.disk.main.apps ::
              w.disk.main.apps[id].used == UsageLedger.Min(UsageLedger.MAX_UINT64, Spent(w.disk.main.results, id))
    ensures forall n | n in w.disk.main.results :: SettledOnce(w.disk.main, w.ctx, n, w.disk.main.results[n])
  {
    hide Reachable, Inv, Good, Spent, SettledOnce, CS.WF, RowsOk;
    ReachableInv(e, w);
    LiveGood(e, w);
    RowsNow(e, w);
    TokensNow(e, w.disk);
    forall n | n in w.disk.main.results
      ensures SettledOnce(w.disk.main, w.ctx, n, w.disk.main.results[n])
    {
      SettledIsOnce(e, w, n);
    }
  }

  lemma RowsNow(e: Env, w: World)
    requires Inv(e, w)
    ensures RowsOk(e, w.disk.main, w.ctx) && CS.WF(w.ctx)
  {
    hide Good, KernelInv, WakeOk, GateOk, CS.WF, RowsOk, FlightsOk, CallsOk;
  }

  lemma TokensNow(e: Env, st: State)
    requires Good(e, st)
    ensures forall id | id in st.main.apps :: st.main.apps[id].used == UsageLedger.Min(UsageLedger.MAX_UINT64, Spent(st.main.results, id))
  {
    forall id | id in st.main.apps
      ensures st.main.apps[id].used == UsageLedger.Min(UsageLedger.MAX_UINT64, Spent(st.main.results, id))
    {
      assert Charged(st.main.results, id, st.main.apps[id]);
    }
  }

  /** While the provider runs for a message, nothing about that message is prepared or settled. */
  lemma NoCallOncePrepared(e: Env, w: World, n: nat)
    requires Reachable(e, w) && n in w.turns && w.turns[n].phase == Calling
    ensures n !in w.disk.main.prepared && n !in w.disk.main.results
  {
    hide Reachable;
    ReachableInv(e, w);
    hide Inv;
    LiveGood(e, w);
    FlyingNow(e, w.disk.main, w.turns, n);
  }

  /**
   * A result appears in a context only if its turn is prepared or settled, and then it is that turn's own context and
   * holds its bytes; so a recovered turn repeats its own bytes.
   */
  lemma ContextHoldsOnlyPrepared(e: Env, w: World, c: CS.ContextId, n: nat)
    requires Reachable(e, w) && (c, ResultKey(n)) in w.ctx.operations
    ensures var m := w.disk.main;
            || (n in m.results && AppendSettled(e, m, w.ctx, c, n, m.results[n]))
            || (&& n in m.prepared && m.prepared[n].app in m.apps && m.apps[m.prepared[n].app].context == c
                && Holds(m.mail, m.prepared[n].app, n)
                && w.ctx.operations[(c, ResultKey(n))].digest == CS.Digest(w.ctx, CS.AppendKind, TurnBytes(e, m, n)))
  {
    hide Reachable, Inv, AppendSettled, Holds, Message, CS.Digest, ResultKey;
    ReachableInv(e, w);
    RowsNow(e, w);
    assert AppendOwed(e, w.disk.main, w.ctx, c, n);
  }

  // ---- Kernel events ----

  /**
   * The drain loses and duplicates nothing: an acknowledged event is in the committed mailbox, an event a
   * committed snapshot kept is in the committed mailbox or still kept (unless its application was retired),
   * and every event of this boot that was not acknowledged is still queued.
   */
  lemma DrainLosesNothing(e: Env, w: World)
    requires Reachable(e, w)
    ensures forall x | x in w.past.acked :: HasKey(w.disk.main.mail, x.0, KernelKey(x.0, x.1, x.2))
    ensures forall x | x in w.past.snapped && x.0 !in w.past.retired ::
              HasKey(w.disk.main.mail, x.0, KernelKey(x.0, x.1, x.2)) || IsKept(Records(w.disk.main, x.0), x.1, x.2)
    ensures forall x | x in w.past.posted && x.1 == w.kernel.boot && x !in w.past.acked ::
              InQueue(QueueOf(w.kernel, x.0), w.past.posted[x])
  {
    hide Reachable;
    ReachableInv(e, w);
    hide Inv;
    KernelNow(e, w);
    forall x | x in w.past.posted && x.1 == w.kernel.boot && x !in w.past.acked
      ensures InQueue(QueueOf(w.kernel, x.0), w.past.posted[x])
    {
      assert StillQueued(w.kernel, w.past, x);
    }
    forall x | x in w.past.acked
      ensures HasKey(w.disk.main.mail, x.0, KernelKey(x.0, x.1, x.2))
    {
      assert IsDelivered(w.disk.main.mail, x);
    }
    forall x | x in w.past.snapped && x.0 !in w.past.retired
      ensures HasKey(w.disk.main.mail, x.0, KernelKey(x.0, x.1, x.2)) || IsKept(Records(w.disk.main, x.0), x.1, x.2)
    {
      assert IsDelivered(w.disk.main.mail, x) || IsKept(Records(w.disk.main, x.0), x.1, x.2);
    }
  }

  lemma AppsSnap(e: Env, w: World, step: AppStep)
    ensures NextApps(e, w, step).past.snapped == w.past.snapped
  {
    hide Execute, Note, Retire, CreateApp, ForkApp, CS.Apply, AddBinding, AllBindings, Commit;
    CommitPast();
  }

  lemma CommitPast()
    ensures forall w: World, st: State, ok: bool :: Commit(w, st, ok).past == w.past
  {
  }

  lemma TurnsSnap(e: Env, w: World, step: TurnStep)
    ensures NextTurns(e, w, step).past.snapped == w.past.snapped
  {
    hide ClaimTurn, Prepare, PreparedTurn, CS.Apply, SettleTurn, Requeue, MessageId, FirstPending;
  }

  lemma GateSnap(e: Env, w: World, step: GateStep)
    ensures NextGate(e, w, step).past.snapped == w.past.snapped
  {
    hide Note, Settle, Redeem, Commit, OldestSettled, Lapse, Waitings, LapseOne, MayExport;
    CommitPast();
  }

  lemma KernelSnap(e: Env, w: World, step: KernelStep)
    ensures w.past.snapped <= NextKernel(e, w, step).past.snapped
  {
    hide RecoverFirst, StageEvent, Identify, RemoveEvent, DropEvent, EventsOf, Commit, Records;
    CommitPast();
  }

  lemma BootSnap(e: Env, w: World, step: BootStep)
    ensures w.past.snapped <= NextBoot(e, w, step).past.snapped
  {
    hide SnapAll, AllNames, Recover;
    if step.Shutdown? {
      SnapAllPast(w, step.ids);
    }
  }

  /** What was once committed as kept stays on record. */
  lemma SnapGrows(e: Env, w: World, step: Step)
    ensures w.past.snapped <= Next(e, w, step).past.snapped
  {
    hide NextApps, NextTurns, NextGate, NextKernel, NextBoot;
    match step
    case OnApps(s) => AppsSnap(e, w, s);
    case OnTurns(s) => TurnsSnap(e, w, s);
    case OnGate(s) => GateSnap(e, w, s);
    case OnKernel(s) => KernelSnap(e, w, s);
    case OnBoot(s) => BootSnap(e, w, s);
  }

  lemma {:induction false} SnapStays(e: Env, trace: seq<World>, steps: seq<Step>, i: nat, j: nat)
    requires IsRun(e, trace, steps) && i <= j < |trace|
    ensures trace[i].past.snapped <= trace[j].past.snapped
  {
    hide Next;
    if i < j {
      SnapStays(e, trace, steps, i, j - 1);
      assert System.Follows(e, trace, steps, j - 1);
      SnapGrows(e, trace[j - 1], steps[j - 1]);
    }
  }

  /**
   * An orderly shutdown loses no queued event: whatever follows, reboots included, the event of an application
   * that recovery did not own and that is never retired is in the committed mailbox or still kept.
   */
  lemma OrderlyShutdownLosesNothing(e: Env, trace: seq<World>, steps: seq<Step>, ids: seq<AppId>, k: nat, i: nat, j: nat)
    requires IsRun(e, trace, steps) && Reachable(e, trace[0]) && Idle(trace[0])
    requires steps != [] && steps[0] == OnBoot(Shutdown(ids, true)) && 1 <= j < |trace|
    requires k < |ids| && Snappable(trace[0], ids[k]) && i < |QueueOf(trace[0].kernel, ids[k])|
    ensures var w, v, id := trace[0], trace[j], ids[k];
            id in v.past.retired
            || HasKey(v.disk.main.mail, id, KernelKey(id, w.kernel.boot, QueueOf(w.kernel, id)[i].id))
            || IsKept(Records(v.disk.main, id), w.kernel.boot, QueueOf(w.kernel, id)[i].id)
  {
    hide Reachable, IsRun, Inv, Good, SnapAll, KernelInv, StateInv, TurnInv, CS.WF, HasKey, IsKept, KernelKey, Records;
    var w, v, id := trace[0], trace[j], ids[k];
    ReachableInv(e, w);
    LiveGood(e, w);
    KernelNow(e, w);
    ShutdownCaptures(w, ids, k, i);
    FirstStep(e, trace, steps, ids);
    SnapStays(e, trace, steps, 1, j);
    RunKeeps(e, trace, steps, 0, j);
    KernelNow(e, v);
    if id !in v.past.retired {
      SnappedIs(v, (id, w.kernel.boot, QueueOf(w.kernel, id)[i].id));
    }
  }

  lemma FirstStep(e: Env, trace: seq<World>, steps: seq<Step>, ids: seq<AppId>)
    requires IsRun(e, trace, steps) && steps != [] && steps[0] == OnBoot(Shutdown(ids, true))
    ensures trace[1] == DoShutdown(trace[0], ids, true)
  {
    hide DoShutdown;
    assert System.Follows(e, trace, steps, 0);
  }

  lemma SnappedIs(w: World, x: EventName)
    requires KernelInv(w) && x in w.past.snapped && x.0 !in w.past.retired
    ensures HasKey(w.disk.main.mail, x.0, KernelKey(x.0, x.1, x.2)) || IsKept(Records(w.disk.main, x.0), x.1, x.2)
  {
    hide RecordsOk, QueuesOk, AckedOk, PostedOk, HasKey, IsKept;
    assert IsDelivered(w.disk.main.mail, x) || IsKept(Records(w.disk.main, x.0), x.1, x.2);
  }

  lemma OneMessage(e: Env, w: World, id: AppId, boot: string, event: nat, i: nat, j: nat)
    requires Reachable(e, w) && id in w.disk.main.mail && i < |w.disk.main.mail[id]| && j < |w.disk.main.mail[id]|
    requires w.disk.main.mail[id][i].key == w.disk.main.mail[id][j].key == KernelKey(id, boot, event)
    ensures i == j
  {
    hide Reachable;
    ReachableInv(e, w);
    LiveGood(e, w);
    hide Inv, Good, KernelKey;
    OneMessagePerEvent(e, w.disk, id, boot, event, boot, event, i, j);
  }

  // ---- Sources ----

  /**
   * Source progress and delivery commit together: for every binding the delivered cursors are exactly the
   * artifact commits between its start and its cursor, in order.
   */
  lemma DeliveriesMatchCommits(e: Env, w: World, k: BindingKey)
    requires Reachable(e, w) && k in w.disk.main.bindings
    ensures var b := w.disk.main.bindings[k];
            Delivers(BoxOf(w.disk.main.mail, k.0), k.1) == Artifacts(w.ctx.commits, b.ref, b.start, b.cursor)
  {
    hide Reachable;
    ReachableInv(e, w);
    assert BindingOk(w.ctx.commits, w.disk.main.mail, k, w.disk.main.bindings[k]);
  }

  /** A live application's timer moves or goes only in the commit that holds its message. */
  lemma TimersMoveWithTheirMessage(e: Env, w: World, step: Step, k: (AppId, string))
    requires Reachable(e, w) && k in w.disk.main.timers
    requires k.0 in w.disk.main.apps && w.disk.main.apps[k.0].state != Tombstoned
    ensures var m, v := w.disk.main, Next(e, w, step).disk.main;
            (k in v.timers && v.timers[k] == m.timers[k]) || HasKey(v.mail, k.0, TimerKey(k.1, m.timers[k].due))
  {
    hide Reachable, Inv, Next, HasKey, TimerKey, TimersServed, Forward;
    ReachableInv(e, w);
    StepKeeps(e, w, step);
    ServedIs(w.disk.main, Next(e, w, step).disk.main, k);
  }

  lemma ServedIs(a: Main, b: Main, k: (AppId, string))
    requires TimersServed(a, b) && k in a.timers && k.0 in a.apps && a.apps[k.0].state != Tombstoned
    ensures (k in b.timers && b.timers[k] == a.timers[k]) || HasKey(b.mail, k.0, TimerKey(k.1, a.timers[k].due))
  {
    hide TimerKey;
    assert TimerServed(a, b, k);
  }

  /** Both key formats name their source exactly. */
  lemma SourceKeysAreInjective(a: string, m: int, b: string, n: int)
    ensures TimerKey(a, m) == TimerKey(b, n) <==> a == b && m == n
    ensures LsfsKey(a, m) == LsfsKey(b, n) <==> a == b && m == n
  {
    if TimerKey(a, m) == TimerKey(b, n) {
      KeyInjective("timer:", a, m, b, n);
    }
    if LsfsKey(a, m) == LsfsKey(b, n) {
      KeyInjective("lsfs:", a, m, b, n);
    }
  }

  // ---- Taint ----

  /** Every claimed or acknowledged message's declared taint is in its application's committed bits. */
  lemma ConsumedTaintIsCharged(e: Env, w: World, id: AppId, i: nat)
    requires Reachable(e, w) && id in w.disk.main.mail && i < |w.disk.main.mail[id]| && Used(w.disk.main.mail[id][i])
    ensures id in w.disk.main.apps && e.taintOf(w.disk.main.mail[id][i].payload) <= w.disk.main.apps[id].taint
  {
    hide Reachable;
    ReachableInv(e, w);
    LiveGood(e, w);
    SameDomain(e, w.disk);
    BoxTainted(e, w.disk, id);
  }

  /** An export passes unconfirmed only if every bit the application consumed is in the mask. */
  lemma CleanExportsAreClean(e: Env, w: World, principal: string, id: AppId, text: string, i: nat)
    requires Reachable(e, w) && id in w.live.main.apps && id in w.live.main.mail
    requires ExportEntry(e, w.live, principal, id, text, false).decision == "allow"
    requires i < |w.live.main.mail[id]| && Used(w.live.main.mail[id][i])
    ensures e.taintOf(w.live.main.mail[id][i].payload) <= e.exportMask
  {
    hide Reachable;
    ReachableInv(e, w);
    LiveGood(e, w);
    hide Inv;
    ConsumedTaintIsCharged(e, w, id, i);
  }

  /** A forked child starts with all its parent's taint. */
  lemma ForkInheritsTaint(e: Env, w: World, principal: string, parent: AppId, id: AppId, owner: string, wake: Wake, context: CS.ContextId, now: int)
    requires id !in w.disk.main.apps && w.live.main == w.disk.main
    ensures var v := DoFork(e, w, principal, parent, id, owner, wake, context, now, true);
            id in v.disk.main.apps ==> parent in w.disk.main.apps && v.disk.main.apps[id].taint == w.disk.main.apps[parent].taint
  {
    hide CS.Apply, Note;
    NoteMainIs(e);
  }

  lemma NoteMainIs(e: Env)
    ensures forall st: State, entry: Entry, now: int :: Note(e, st, entry, now).main == st.main
  {
  }

  /** Nothing committed is ever taken back: records, messages, acknowledgements, results, charges and taint only accumulate. */
  lemma CommittedStateOnlyAccumulates(e: Env, trace: seq<World>, steps: seq<Step>, i: nat, j: nat)
    requires IsRun(e, trace, steps) && Reachable(e, trace[0]) && i <= j < |trace|
    ensures MainOnward(trace[i].disk.main, trace[j].disk.main)
    ensures trace[i].disk.log.records <= trace[j].disk.log.records
  {
    hide Reachable, Inv, MainOnward, IsRun, System.Follows, Next;
    ReachableInv(e, trace[0]);
    RunKeeps(e, trace, steps, 0, i);
    RunKeeps(e, trace, steps, i, j);
  }

  // ---- Audit and witnesses ----

  /** The audit chain and every recorded checkpoint verify in the live and in the committed state. */
  lemma AuditAlwaysVerifies(e: Env, w: World)
    requires Reachable(e, w)
    ensures Witnessed(e.hash, e.verifies, w.live.log) && Witnessed(e.hash, e.verifies, w.disk.log)
    ensures |w.disk.log.checkpoints| <= MAX_CHECKPOINTS && LogExtends(w.disk.log, w.live.log)
  {
    hide Reachable;
    ReachableInv(e, w);
    LiveGood(e, w);
    hide MainOk, Witnessed, Inv;
  }

  // ---- Requests ----

  /**
   * A request releases at most one export, only its own escalated text, only after approval and before expiry;
   * waiting requests stay within the bound and stored ones within one more.
   */
  lemma RequestsReleaseOnce(e: Env, w: World)
    requires Reachable(e, w)
    ensures |Waitings(w.live.asks)| <= MAX_WAITING && |w.live.asks| <= MAX_WAITING + 1
    ensures |Waitings(w.disk.asks)| <= MAX_WAITING && |w.disk.asks| <= MAX_WAITING + 1
    ensures forall i, j | 0 <= i < j < |w.past.gate.released| :: w.past.gate.released[i].id != w.past.gate.released[j].id
    ensures forall i | 0 <= i < |w.past.gate.released| ::
              var r, h := w.past.gate.released[i], w.past.gate;
              && r.id in h.escalated && r.text == h.escalated[r.id].text && r.time <= h.escalated[r.id].expires
              && r.id in h.approved && h.approved[r.id] <= h.escalated[r.id].expires
  {
    hide Reachable;
    ReachableInv(e, w);
    LiveGood(e, w);
    hide Inv, MainOk, LogOk;
    AsksNow(e, w.live);
    AsksNow(e, w.disk);
    GateNow(e, w);
    forall i | 0 <= i < |w.past.gate.released|
      ensures Earned(w.past.gate, w.past.gate.released[i])
    {
    }
  }
}
