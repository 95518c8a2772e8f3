/**
 * The whole system as a step machine: the supervisor's live and committed state, the
 * context store, the kernel's queues and the turns in flight. Any step may follow any
 * other; a crash may come between any two. The mutex shows as `lock`: while a turn is
 * being finished or a kernel event acknowledged, no other supervisor step is enabled.
 */
module System {
  import opened Wrappers
  import opened Text
  import opened Mailboxes
  import opened AuditChain
  import opened Confirmations
  import opened SupervisorState
  import opened Operations
  import opened WakeBindings
  import CS = ContextStore

  // ---- State ----

  /** A turn in flight, from its claim to its end. */
  datatype Phase = Queued | Calling | Answered(answer: Answer)

  datatype Flight = Flight(app: AppId, payload: string, phase: Phase)

  /** How far `finishTurn` has got with a prepared turn. */
  datatype Stage = ToAppend | ToCheckpoint | ToSettle(checkpoint: string)

  datatype Lock = Free | Finishing(n: nat, stage: Stage) | Acking(id: AppId, saved: Saved) | Dropping(id: AppId, saved: Saved)

  /**
   * The kernel's queues in the current boot; the supervisor's open handles with their cursors; and the record
   * lists `attachKernel` holds while it recovers them.
   */
  datatype Kernel = Kernel(
    boot: string, queues: map<AppId, seq<Event>>, minted: map<AppId, nat>, handles: map<AppId, nat>, copies: map<AppId, seq<Saved>>)

  type EventName = (AppId, string, nat)

  /** What has happened so far, for stating properties of whole runs. */
  datatype Past = Past(
    boots: set<string>,
    posted: map<EventName, Event>,
    acked: set<EventName>,
    snapped: set<EventName>,
    retired: set<AppId>,
    called: set<nat>,
    gate: History)

  datatype World = World(
    live: State, disk: State, up: bool, ctx: CS.Store, lock: Lock, turns: map<nat, Flight>,
    kernel: Kernel, recovering: set<AppId>, past: Past)

  /** `persistLocked`: all or nothing; a failed write rolls the live state back. */
  function Commit(w: World, st: State, ok: bool): World {
    if ok then w.(live := st, disk := st) else w.(live := w.disk, recovering := {})
  }

  function Idle(w: World): bool { w.up && w.lock == Free }

  // ---- Operations that touch only the state ----

  datatype Command =
    | Send(principal: string, id: AppId, key: string, raw: string)
    | Claim(principal: string, id: AppId)
    | Acknowledge(principal: string, id: AppId, n: nat)
    | Target(principal: string, id: AppId, state: AppState)
    | Limit(principal: string, id: AppId, limit: Word)
    | SetTimer(principal: string, id: AppId, timer: string, delay: int, interval: int, payload: string)
    | RunTimers(keys: seq<(AppId, string)>)
    | Enable(principal: string, id: AppId, binding: string, enabled: bool)
    | Fold(id: AppId, bits: Bits)
    | Cosign(principal: string, checkpoint: Checkpoint)
    | Record(entry: Entry)

  predicate Reserved(key: string) { HasPrefix(key, "lsfs:") || HasPrefix(key, "timer:") || HasPrefix(key, "kernel:") }

  function CosignEntry(principal: string, cp: Checkpoint): Entry {
    Entry(principal, "", "witness.cosign", (if |cp.head| > 12 then cp.head[..12] else cp.head) + "@" + Dec(cp.count), "allow", cp.signer)
  }

  /** The state a command commits, if it is accepted and changes anything. */
  ghost function Execute(e: Env, st: State, c: Command, now: int): Option<State> {
    match c
    case Send(principal, id, key, raw) =>
      if Reserved(key) || |raw| > MAX_TEXT then None
      else (match Enqueue(e, st, principal, id, key, raw, now) case Added(after, _) => Some(after) case _ => None)
    case Claim(principal, id) => ClaimMailbox(e, st, principal, id, now)
    case Acknowledge(principal, id, n) => AckMailbox(e, st, principal, id, n, now)
    case Target(principal, id, state) => SetState(e, st, principal, id, state, now)
    case Limit(principal, id, limit) => SetLimit(e, st, principal, id, limit, now)
    case SetTimer(principal, id, timer, delay, interval, payload) => AddTimer(e, st, principal, id, timer, delay, interval, payload, now)
    case RunTimers(keys) => (match AllTimers(e, st, keys, now) case Ok(after) => Some(after) case Err(_) => None)
    case Enable(principal, id, binding, enabled) => EnableBinding(e, st, principal, id, binding, enabled, now)
    case Fold(id, bits) => FoldTaint(st, id, bits)
    case Cosign(principal, cp) =>
      (match Cosigned(e.hash, e.verifies, st.log, cp, CosignEntry(principal, cp), now) case Ok(log) => Some(st.(log := log)) case Err(_) => None)
    case Record(entry) => Some(Note(e, st, entry, now))
  }

  ghost function DoCommand(e: Env, w: World, c: Command, now: int, ok: bool): World {
    if !Idle(w) then w
    else match Execute(e, w.live, c, now) case None => w case Some(st) => Commit(w, st, ok)
  }

  /** `restoreLocked` on an error path. */
  function DoRollback(w: World): World { if Idle(w) then w.(live := w.disk, recovering := {}) else w }

  function DoRetire(e: Env, w: World, principal: string, id: AppId, now: int, ok: bool): World {
    if !Idle(w) then w
    else
      match Retire(e, w.live, principal, id, now)
      case None => w
      case Some(st) =>
        var closed := Commit(w.(kernel := w.kernel.(handles := w.kernel.handles - {id})), st, ok);
        if ok then closed.(past := w.past.(retired := w.past.retired + {id})) else closed
  }

  // ---- Operations that also use the context store ----

  const FORK_TAG := "fork:"
  const IMPORT_TAG := "artifact.import:"

  function DoCreate(e: Env, w: World, principal: string, id: AppId, owner: string, wake: Wake, context: CS.ContextId, now: int, ok: bool): World {
    if !Idle(w) || id in w.live.main.apps || owner == "" || |owner| > 256 then w
    else
      match CS.Apply(w.ctx, CS.Create(owner, "", context))
      case Err(_) => w
      case Ok((ctx, handle)) =>
        match CreateApp(e, w.live, principal, id, owner, wake, handle, now)
        case None => w.(ctx := ctx)
        case Some(st) => Commit(w.(ctx := ctx), st, ok)
  }

  function DoFork(e: Env, w: World, principal: string, parent: AppId, id: AppId, owner: string, wake: Wake,
                  context: CS.ContextId, now: int, ok: bool): World
  {
    var m := w.live.main;
    if !Idle(w) || id in m.apps || parent !in m.apps || m.apps[parent].state == Tombstoned || owner == "" || |owner| > 256 then w
    else if (m.apps[parent].context, FORK_TAG + id) in w.ctx.operations then w // application ids are fresh
    else
      match CS.Apply(w.ctx, CS.Fork(m.apps[parent].owner, m.apps[parent].context, owner, FORK_TAG + id, context))
      case Err(_) => w
      case Ok((ctx, handle)) =>
        match ForkApp(e, w.live, principal, parent, id, owner, wake, handle, now)
        case None => w.(ctx := ctx)
        case Some(st) => Commit(w.(ctx := ctx), st, ok)
  }

  /** `ImportArtifact`: the artifact's commit is durable even if the audit write fails. */
  function DoImport(e: Env, w: World, principal: string, id: AppId, key: string, payload: string, now: int, ok: bool): World {
    var m := w.live.main;
    if !Idle(w) || id !in m.apps || m.apps[id].state == Tombstoned then w
    else if key == "" || |key| > 256 || e.canon(payload).None? || |payload| > MAX_TEXT then w
    else
      match CS.Apply(w.ctx, CS.Artifact(m.apps[id].owner, m.apps[id].context, IMPORT_TAG + key, payload))
      case Err(_) => w
      case Ok((ctx, handle)) =>
        Commit(w.(ctx := ctx), Note(e, w.live, Allow(principal, id, "artifact.import", handle), now), ok)
  }

  function DoBind(e: Env, w: World, principal: string, id: AppId, binding: string, ref: CS.ContextId, after: int, now: int, ok: bool): World {
    if !Idle(w) then w
    else
      match AddBinding(e, w.live, w.ctx, principal, id, binding, ref, after, now)
      case None => w
      case Some(st) => Commit(w, st, ok)
  }

  ghost function DoScan(e: Env, w: World, keys: seq<BindingKey>, now: int, ok: bool): World {
    if !Idle(w) then w
    else
      match AllBindings(e, w.live, w.ctx, keys, now)
      case Err(_) => DoRollback(w)
      case Ok(st) => Commit(w, st, ok)
  }

  // ---- Turns ----

  function ResultKey(n: nat): string { MessageId(n) + ":result" }

  function CheckpointKey(n: nat): string { MessageId(n) + ":checkpoint" }

  /** `claimTurn`: on commit the message is in flight. */
  function DoClaimTurn(e: Env, w: World, id: AppId, now: int, ok: bool): World {
    if !Idle(w) then w
    else
      match ClaimTurn(e, w.live, id, now)
      case None => w
      case Some(st) =>
        var msg := BoxOf(w.live.main.mail, id)[FirstPending(BoxOf(w.live.main.mail, id))];
        if ok then Commit(w.(turns := w.turns[msg.number := Flight(id, msg.payload, Queued)]), st, true) else Commit(w, st, false)
  }

  const NO_ANSWER := Answer("", Usage(0, 0), true)

  /** The start of `executeTurn`: the provider is called unless a prepared result is waiting. */
  function DoStart(w: World, n: nat): World {
    if !Idle(w) || n !in w.turns || w.turns[n].phase != Queued then w
    else if n in w.live.main.prepared then w.(turns := w.turns[n := w.turns[n].(phase := Answered(NO_ANSWER))])
    else w.(turns := w.turns[n := w.turns[n].(phase := Calling)], past := w.past.(called := w.past.called + {n}))
  }

  function DoAnswer(w: World, n: nat, answer: Answer): World {
    if !w.up || n !in w.turns || w.turns[n].phase != Calling then w
    else w.(turns := w.turns[n := w.turns[n].(phase := Answered(answer))])
  }

  /** `finishTurn` up to the prepared result's commit. */
  function DoFinish(e: Env, w: World, n: nat, ok: bool): World {
    if !Idle(w) || n !in w.turns || !w.turns[n].phase.Answered? || w.turns[n].app !in w.live.main.apps then w
    else if n in w.live.main.results then w.(turns := w.turns - {n})
    else if n in w.live.main.prepared then w.(lock := Finishing(n, ToAppend))
    else
      var st := Prepare(w.live, n, PreparedTurn(w.turns[n].app, w.turns[n].phase.answer));
      if ok then Commit(w, st, true).(lock := Finishing(n, ToAppend)) else Commit(w, st, false)
  }

  /** The context append of the prepared result, under the message's own key. */
  function DoAppend(e: Env, w: World): World {
    if !w.up || !w.lock.Finishing? || w.lock.stage != ToAppend then w
    else
      var n := w.lock.n;
      if n !in w.turns || n !in w.live.main.prepared || w.turns[n].app !in w.live.main.apps then w
      else
        var app := w.live.main.apps[w.turns[n].app];
        var bytes := e.turnBytes(w.turns[n].payload, w.live.main.prepared[n].text);
        match CS.Apply(w.ctx, CS.Append(app.owner, app.context, ResultKey(n), bytes))
        case Err(_) => w.(lock := Free)
        case Ok((ctx, _)) => w.(ctx := ctx, lock := Finishing(n, ToCheckpoint))
  }

  function DoCheckpoint(w: World): World {
    if !w.up || !w.lock.Finishing? || w.lock.stage != ToCheckpoint then w
    else
      var n := w.lock.n;
      if n !in w.turns || w.turns[n].app !in w.live.main.apps then w
      else
        var app := w.live.main.apps[w.turns[n].app];
        match CS.Apply(w.ctx, CS.Checkpoint(app.owner, app.context, CheckpointKey(n)))
        case Err(_) => w.(lock := Free)
        case Ok((ctx, handle)) => w.(ctx := ctx, lock := Finishing(n, ToSettle(handle)))
  }

  function DoSettle(e: Env, w: World, now: int, ok: bool): World {
    if !w.up || !w.lock.Finishing? || !w.lock.stage.ToSettle? then w
    else
      var n := w.lock.n;
      match SettleTurn(e, w.live, n, w.lock.stage.checkpoint, now)
      case None => w.(lock := Free)
      case Some(st) =>
        if ok then Commit(w.(turns := w.turns - {n}, lock := Free), st, true) else Commit(w.(lock := Free), st, false)
  }

  /** A context write that reports an error, whether or not it took effect, ends the attempt. */
  function DoAbandon(w: World): World { if w.up && w.lock.Finishing? then w.(lock := Free) else w }

  /** `requeueClaim`, after a failed or cancelled attempt; the turn is over either way. */
  function DoRequeue(e: Env, w: World, n: nat, now: int, ok: bool): World {
    if !Idle(w) || n !in w.turns then w
    else
      var over := w.(turns := w.turns - {n});
      match Requeue(e, w.live, w.turns[n].app, n, now)
      case None => over
      case Some(st) => Commit(over, st, ok)
  }

  // ---- Exports ----

  /** `exportApplication` when no request is involved: clean, confirmed or denied, each audited. */
  function ExportEntry(e: Env, st: State, principal: string, id: AppId, text: string, confirm: bool): Entry
    requires id in st.main.apps
  {
    if st.main.apps[id].taint <= e.exportMask then Entry(principal, id, "taint.export", text, "allow", "clean")
    else if confirm then Entry(principal, id, "taint.export.confirm", text, "allow", "human-confirmed unmasked taint")
    else Entry(principal, id, "taint.export", text, "deny", "unmasked taint")
  }

  predicate MayExport(st: State, id: AppId, text: string) {
    id in st.main.apps && st.main.apps[id].state != Tombstoned && text != "" && |text| <= MAX_TEXT
  }

  function DoExport(e: Env, w: World, principal: string, id: AppId, text: string, confirm: bool, now: int, ok: bool): World {
    if !Idle(w) || !MayExport(w.live, id, text) then w
    else Commit(w, Note(e, w.live, ExportEntry(e, w.live, principal, id, text, confirm), now), ok)
  }

  /** `escalateExportLocked`. A full queue leaves its sweep and its audit record uncommitted. */
  function DoEscalate(e: Env, w: World, principal: string, id: AppId, text: string, request: string, drop: set<string>, now: int, ok: bool): World {
    if !Idle(w) || !MayExport(w.live, id, text) || w.live.main.apps[id].taint <= e.exportMask then w
    else if request in w.past.gate.escalated || !OldestSettled(Lapse(w.live.asks, now), drop) then w
    else
      var swept := Lapse(w.live.asks, now) - drop;
      if |Waitings(swept)| >= MAX_WAITING then
        w.(live := Note(e, w.live.(asks := swept), Entry(principal, id, "confirmation.create", "rejected", "deny", "slow-path queue full"), now))
      else
        var ask := Request(id, text, now);
        var st := Note(e, w.live.(asks := swept[request := ask]), Entry(principal, id, "confirmation.create", request, "allow", "taint.export"), now);
        var next := Commit(w, st, ok);
        if ok then next.(past := w.past.(gate := w.past.gate.(escalated := w.past.gate.escalated[request := ask]))) else next
  }

  function DoSettleAsk(e: Env, w: World, principal: string, request: string, approve: bool, now: int, ok: bool): World {
    if !Idle(w) then w
    else
      match Settle(w.live.asks, request, approve, now, principal)
      case Err(error) => if error == TooLate then Commit(w, LapseOne(w.live, request), ok) else w
      case Ok(ask) =>
        var action := if approve then "confirmation.approve" else "confirmation.deny";
        var st := Note(e, w.live.(asks := w.live.asks[request := ask]), Entry(principal, ask.application, action, request, "allow", "taint.export"), now);
        var next := Commit(w, st, ok);
        if ok && approve then next.(past := w.past.(gate := w.past.gate.(approved := w.past.gate.approved[request := now]))) else next
  }

  function LapseOne(st: State, request: string): State {
    if request in st.asks then st.(asks := st.asks[request := st.asks[request].(status := Lapsed)]) else st
  }

  /** `exportViaRequestLocked`: the text goes out once the use of the request is committed. */
  function DoRedeem(e: Env, w: World, principal: string, id: AppId, text: string, request: string, now: int, ok: bool): World {
    if !Idle(w) || !MayExport(w.live, id, text) then w
    else
      match Redeem(w.live.asks, request, id, text, now)
      case Err(error) => if error == TooLate then Commit(w, LapseOne(w.live, request), ok) else w
      case Ok(ask) =>
        var st := Note(e, w.live.(asks := w.live.asks[request := ask]), Entry(principal, id, "taint.export.confirm", text, "allow", "one-shot via " + request), now);
        var next := Commit(w, st, ok);
        if ok then next.(past := w.past.(gate := w.past.gate.(released := w.past.gate.released + [Release(request, text, now)]))) else next
  }

  // ---- Kernel queues ----

  function QueueOf(k: Kernel, id: AppId): seq<Event> { if id in k.queues then k.queues[id] else [] }

  function MintedOf(k: Kernel, id: AppId): nat { if id in k.minted then k.minted[id] else 0 }

  function CursorAt(k: Kernel, id: AppId): nat { if id in k.handles then k.handles[id] else 0 }

  /** A producer posts: the kernel mints the next event id of this boot. */
  function DoPost(w: World, id: AppId, content: Event): World {
    var k := w.kernel;
    var event := content.(id := MintedOf(k, id) + 1);
    w.(kernel := k.(queues := k.queues[id := QueueOf(k, id) + [event]], minted := k.minted[id := event.id]),
       past := w.past.(posted := w.past.posted[(id, k.boot, event.id) := event]))
  }

  /** One round of `deliverPersistedKernelLocked`; the records of `id` are marked as being recovered. */
  ghost function DoRecoverRecord(e: Env, w: World, id: AppId, now: int, ok: bool): World {
    if !Idle(w) then w
    else
      match RecoverFirst(e, w.live, id, now)
      case None => if Records(w.live.main, id) == [] then w else w.(recovering := w.recovering + {id})
      case Some(st) =>
        var next := Commit(w, st, ok);
        next.(recovering := if ok && Records(st.main, id) == [] then next.recovering - {id} else next.recovering + {id})
  }

  /** The drain loop up to the first commit. A refusal or a failed write drops the handle and its cursor. */
  ghost function DoStage(e: Env, w: World, id: AppId, now: int, ok: bool): World {
    var m, k := w.live.main, w.kernel;
    if !Idle(w) || id !in m.apps || m.apps[id].state == Tombstoned || Records(m, id) != [] || CursorAt(k, id) >= |QueueOf(k, id)| then w
    else
      var event := QueueOf(k, id)[CursorAt(k, id)];
      var dropped := w.(kernel := k.(handles := k.handles - {id}));
      match StageEvent(e, w.live, id, event, k.boot, now)
      case None => dropped
      case Some(st) =>
        if !ok then Commit(dropped, st, false)
        else
          var saved := Identify(Records(m, id), event, k.boot);
          var read := w.(kernel := k.(handles := k.handles[id := CursorAt(k, id) + 1]), lock := Acking(id, saved),
                         past := w.past.(snapped := w.past.snapped + {(id, saved.boot, event.id)}));
          Commit(read, st, true)
  }

  function RemoveEvent(queue: seq<Event>, event: nat): seq<Event> {
    if queue == [] then []
    else if queue[0].id == event then queue[1..] else [queue[0]] + RemoveEvent(queue[1..], event)
  }

  function Retired(w: World, id: AppId, saved: Saved): World {
    w.(kernel := w.kernel.(queues := w.kernel.queues[id := RemoveEvent(QueueOf(w.kernel, id), saved.event.id)]),
       past := w.past.(acked := w.past.acked + {(id, w.kernel.boot, saved.event.id)}))
  }

  datatype AckResult = AckOk | AckLost | AckRefused

  /** `Ack`: it may succeed, take effect but report an error, or fail. An error drops the handle. */
  function DoAck(w: World, result: AckResult): World {
    if !w.up || !w.lock.Acking? then w
    else
      var id, saved := w.lock.id, w.lock.saved;
      match result
      case AckOk =>
        var next := Retired(w, id, saved);
        next.(kernel := next.kernel.(handles := next.kernel.handles[id := CursorAt(w.kernel, id) - if CursorAt(w.kernel, id) > 0 then 1 else 0]),
              lock := Dropping(id, saved))
      case AckLost =>
        var next := Retired(w, id, saved);
        next.(kernel := next.kernel.(handles := next.kernel.handles - {id}), lock := Free)
      case AckRefused => w.(kernel := w.kernel.(handles := w.kernel.handles - {id}), lock := Free)
  }

  function DoDrop(w: World, ok: bool): World {
    if !w.up || !w.lock.Dropping? then w
    else Commit(w.(lock := Free), DropEvent(w.live, w.lock.id, w.lock.saved), ok)
  }

  /** `attachKernel` takes a copy of an application's records if they are all of this boot's queue. */
  function DoAttach(w: World, id: AppId): World {
    var records, k := Records(w.live.main, id), w.kernel;
    if Idle(w) && records != [] && (forall i | 0 <= i < |records| :: records[i].queueBoot == k.boot)
    then w.(kernel := k.(copies := k.copies[id := records])) else w
  }

  function EventsOf(records: seq<Saved>): seq<Event> { seq(|records|, i requires 0 <= i < |records| => records[i].event) }

  /** `Restore` of the copy once its records are recovered; the kernel takes it into an empty queue only. */
  function DoReinject(w: World, id: AppId): World {
    var k := w.kernel;
    if !Idle(w) || id !in k.copies || Records(w.live.main, id) != [] then w
    else
      var done := k.(copies := k.copies - {id});
      w.(kernel := if QueueOf(k, id) == [] then done.(queues := k.queues[id := EventsOf(k.copies[id])]) else done)
  }

  predicate HasKey(mail: Mail, id: AppId, key: string) { FindKey(BoxOf(mail, id), key) < |BoxOf(mail, id)| }

  /** A record that recovery still owns keeps the shutdown snapshot away. */
  predicate Protected(w: World, id: AppId) {
    var records := Records(w.live.main, id);
    || (id in w.recovering && records != [])
    || exists i :: 0 <= i < |records| && records[i].queueBoot != w.kernel.boot
  }

  predicate Snappable(w: World, id: AppId) {
    id in w.live.main.apps && w.live.main.apps[id].state != Tombstoned && !Protected(w, id)
  }

  /** `snapshotKernel`, one application at a time; handles that cannot be read are skipped. */
  function SnapAll(w: World, ids: seq<AppId>): World {
    if ids == [] then w
    else
      var before := SnapAll(w, ids[..|ids| - 1]);
      var id := ids[|ids| - 1];
      if !Snappable(before, id) then before
      else before.(live := SnapOne(before.live, id, QueueOf(before.kernel, id), before.kernel.boot), recovering := before.recovering - {id})
  }

  function AllNames(m: Main): set<EventName> {
    set id, i | id in m.pending && 0 <= i < |m.pending[id]| :: (id, m.pending[id][i].boot, m.pending[id][i].event.id)
  }

  /** An orderly shutdown: snapshot, commit, stop. */
  function DoShutdown(w: World, ids: seq<AppId>, ok: bool): World {
    if !Idle(w) then w
    else
      var snapped := SnapAll(w, ids);
      var next := Commit(snapped, snapped.live, ok);
      Stopped(if ok then next.(past := w.past.(snapped := w.past.snapped + AllNames(snapped.live.main))) else next)
  }

  // ---- Stopping and starting ----

  /** Everything in the process is gone; the stores and the kernel's queues remain. */
  function Stopped(w: World): World {
    w.(live := w.disk, up := false, lock := Free, turns := map[], recovering := {}, kernel := w.kernel.(handles := map[], copies := map[]))
  }

  /** `load`, over the applications in any order; a failed first write leaves the supervisor down. */
  function DoRestart(e: Env, w: World, order: seq<AppId>, now: int, ok: bool): World {
    if w.up || !ok then w
    else
      var st := Recover(e, w.disk, order, now);
      w.(live := st, disk := st, up := true)
  }

  /** A new boot: the kernel's queues are gone and its identity is new. */
  function DoReboot(w: World, boot: string): World {
    if boot in w.past.boots || boot == "" then w
    else
      var down := Stopped(w);
      down.(kernel := Kernel(boot, map[], map[], map[], map[]), past := down.past.(boots := down.past.boots + {boot}))
  }

  // ---- Steps ----

  /** Applications, mail, timers and bindings. */
  datatype AppStep =
    | Do(command: Command, now: int, ok: bool)
    | RollBack
    | RetireApp(principal: string, id: AppId, now: int, ok: bool)
    | NewApplication(principal: string, id: AppId, owner: string, wake: Wake, context: CS.ContextId, now: int, ok: bool)
    | ForkApplication(principal: string, parent: AppId, id: AppId, owner: string, wake: Wake, context: CS.ContextId, now: int, ok: bool)
    | Import(principal: string, id: AppId, key: string, payload: string, now: int, ok: bool)
    | Bind(principal: string, id: AppId, binding: string, ref: CS.ContextId, after: int, now: int, ok: bool)
    | ScanBindings(keys: seq<BindingKey>, now: int, ok: bool)

  /** The turn runner. */
  datatype TurnStep =
    | TakeTurn(id: AppId, now: int, ok: bool)
    | StartTurn(n: nat)
    | AnswerTurn(n: nat, answer: Answer)
    | FinishTurn(n: nat, ok: bool)
    | AppendResult
    | CheckpointResult
    | CommitResult(now: int, ok: bool)
    | AbandonFinish
    | RequeueTurn(n: nat, now: int, ok: bool)

  /** The export gate. */
  datatype GateStep =
    | Export(principal: string, id: AppId, text: string, confirm: bool, now: int, ok: bool)
    | Escalate(principal: string, id: AppId, text: string, request: string, drop: set<string>, now: int, ok: bool)
    | SettleAsk(principal: string, request: string, approve: bool, now: int, ok: bool)
    | RedeemAsk(principal: string, id: AppId, text: string, request: string, now: int, ok: bool)

  /** The kernel's queues and their drain. */
  datatype KernelStep =
    | Post(id: AppId, content: Event)
    | RecoverRecord(id: AppId, now: int, ok: bool)
    | StageNext(id: AppId, now: int, ok: bool)
    | AckEvent(result: AckResult)
    | DropRecord(ok: bool)
    | AttachRecords(id: AppId)
    | Reinject(id: AppId)

  /** Stopping and starting. */
  datatype BootStep =
    | Shutdown(ids: seq<AppId>, ok: bool)
    | Crash
    | Restart(order: seq<AppId>, now: int, ok: bool)
    | Reboot(boot: string)

  datatype Step = OnApps(apps: AppStep) | OnTurns(turns: TurnStep) | OnGate(gate: GateStep) | OnKernel(kernel: KernelStep) | OnBoot(boot: BootStep)

  ghost function NextApps(e: Env, w: World, step: AppStep): World {
    match step
    case Do(c, now, ok) => DoCommand(e, w, c, now, ok)
    case RollBack => DoRollback(w)
    case RetireApp(principal, id, now, ok) => DoRetire(e, w, principal, id, now, ok)
    case NewApplication(principal, id, owner, wake, context, now, ok) => DoCreate(e, w, principal, id, owner, wake, context, now, ok)
    case ForkApplication(principal, parent, id, owner, wake, context, now, ok) =>
      DoFork(e, w, principal, parent, id, owner, wake, context, now, ok)
    case Import(principal, id, key, payload, now, ok) => DoImport(e, w, principal, id, key, payload, now, ok)
    case Bind(principal, id, binding, ref, after, now, ok) => DoBind(e, w, principal, id, binding, ref, after, now, ok)
    case ScanBindings(keys, now, ok) => DoScan(e, w, keys, now, ok)
  }

  function NextTurns(e: Env, w: World, step: TurnStep): World {
    match step
    case TakeTurn(id, now, ok) => DoClaimTurn(e, w, id, now, ok)
    case StartTurn(n) => DoStart(w, n)
    case AnswerTurn(n, answer) => DoAnswer(w, n, answer)
    case FinishTurn(n, ok) => DoFinish(e, w, n, ok)
    case AppendResult => DoAppend(e, w)
    case CheckpointResult => DoCheckpoint(w)
    case CommitResult(now, ok) => DoSettle(e, w, now, ok)
    case AbandonFinish => DoAbandon(w)
    case RequeueTurn(n, now, ok) => DoRequeue(e, w, n, now, ok)
  }

  function NextGate(e: Env, w: World, step: GateStep): World {
    match step
    case Export(principal, id, text, confirm, now, ok) => DoExport(e, w, principal, id, text, confirm, now, ok)
    case Escalate(principal, id, text, request, drop, now, ok) => DoEscalate(e, w, principal, id, text, request, drop, now, ok)
    case SettleAsk(principal, request, approve, now, ok) => DoSettleAsk(e, w, principal, request, approve, now, ok)
    case RedeemAsk(principal, id, text, request, now, ok) => DoRedeem(e, w, principal, id, text, request, now, ok)
  }

  ghost function NextKernel(e: Env, w: World, step: KernelStep): World {
    match step
    case Post(id, content) => DoPost(w, id, content)
    case RecoverRecord(id, now, ok) => DoRecoverRecord(e, w, id, now, ok)
    case StageNext(id, now, ok) => DoStage(e, w, id, now, ok)
    case AckEvent(result) => DoAck(w, result)
    case DropRecord(ok) => DoDrop(w, ok)
    case AttachRecords(id) => DoAttach(w, id)
    case Reinject(id) => DoReinject(w, id)
  }

  function NextBoot(e: Env, w: World, step: BootStep): World {
    match step
    case Shutdown(ids, ok) => DoShutdown(w, ids, ok)
    case Crash => Stopped(w)
    case Restart(order, now, ok) => DoRestart(e, w, order, now, ok)
    case Reboot(boot) => DoReboot(w, boot)
  }

  /** One step. A step that is not enabled changes nothing. */
  ghost function Next(e: Env, w: World, step: Step): World {
    match step
    case OnApps(s) => NextApps(e, w, s)
    case OnTurns(s) => NextTurns(e, w, s)
    case OnGate(s) => NextGate(e, w, s)
    case OnKernel(s) => NextKernel(e, w, s)
    case OnBoot(s) => NextBoot(e, w, s)
  }

  /** A run: each world follows from the one before by some step. */
  ghost predicate IsRun(e: Env, trace: seq<World>, steps: seq<Step>) {
    |trace| == |steps| + 1 && forall i | 0 <= i < |steps| :: Follows(e, trace, steps, i)
  }

  ghost predicate Follows(e: Env, trace: seq<World>, steps: seq<Step>, i: nat)
    requires i < |steps| && |trace| == |steps| + 1
  {
    trace[i + 1] == Next(e, trace[i], steps[i])
  }

  /** An empty database at the first boot. */
  ghost predicate Initial(w: World) {
    && w.live == w.disk == State(Main(map[], map[], map[], map[], map[], map[], map[]), Log([], 0, []), map[])
    && w.lock == Free && w.turns == map[] && w.recovering == {}
    && w.ctx == CS.Store(w.ctx.codec, map[], map[], {}, {}, map[], [])
    && w.kernel == Kernel(w.kernel.boot, map[], map[], map[], map[]) && w.kernel.boot != ""
    && w.past == Past({w.kernel.boot}, map[], {}, {}, {}, {}, History(map[], map[], []))
  }
}
