/**
 * What every step of the system keeps of the supervisor's state: mailbox limits and
 * keys, the audit chain, taint, charges and settled results, both in the live state
 * and on disk, and what it never takes back.
 */
module Safety {
  import opened Text
  import opened Mailboxes
  import opened AuditChain
  import opened Confirmations
  import opened SupervisorState
  import opened Operations
  import opened WakeBindings
  import opened System
  import CS = ContextStore

  /** The live state and the committed one are both good; they differ at most in uncommitted audit records and sweeps. */
  ghost predicate StateInv(e: Env, w: World) {
    && Good(e, w.live) && Good(e, w.disk) && w.live.main == w.disk.main && LogExtends(w.disk.log, w.live.log)
    && CS.WF(w.ctx)
  }

  /** A step keeps the invariant and takes nothing back on disk. */
  ghost predicate Keeps(e: Env, w: World, v: World) { StateInv(e, v) && Forward(w.disk, v.disk) }

  lemma ForwardFromDisk(w: World, st: State)
    requires w.live.main == w.disk.main && LogExtends(w.disk.log, w.live.log) && Forward(w.live, st)
    ensures Forward(w.disk, st)
  {
  }

  lemma CommitKeeps(e: Env, w: World, v: World, st: State, ok: bool)
    requires StateInv(e, w) && Good(e, st) && Forward(w.live, st) && CS.WF(v.ctx)
    requires v.live == Commit(w, st, ok).live && v.disk == Commit(w, st, ok).disk
    ensures Keeps(e, w, v)
  {
    ForwardFromDisk(w, st);
    ForwardRefl(w.disk);
    hide Good, Forward, CS.WF;
  }

  lemma SameKeeps(e: Env, w: World, v: World)
    requires StateInv(e, w) && CS.WF(v.ctx) && v.disk == w.disk && (v.live == w.live || v.live == w.disk)
    ensures Keeps(e, w, v)
  {
    hide Good, CS.WF;
    ForwardRefl(w.disk);
  }

  lemma LogOnlyKeeps(e: Env, st: State, log: Log)
    requires Good(e, st) && LogOk(e.hash, e.verifies, log) && LogExtends(st.log, log)
    ensures Good(e, st.(log := log)) && Forward(st, st.(log := log))
  {
    hide MainOk, LogOk;
    NextMain(e, st.main, st.log.next, log.next);
    OnwardRefl(st.main);
  }

  lemma AddTimerKeeps(e: Env, st: State, timers: map<(AppId, string), Timer>, entry: Entry, now: int)
    requires Good(e, st)
    ensures var after := Note(e, st.(main := st.main.(timers := timers)), entry, now);
            Good(e, after) && Forward(st, after)
  {
    hide Good, Forward, Note;
    SideKeeps(e, st, timers, st.main.bindings, st.main.pending);
    var moved := st.(main := st.main.(timers := timers));
    NoteKeeps(e, moved, entry, now);
    ForwardTransitive(st, moved, Note(e, moved, entry, now));
  }

  lemma BindingsKeep(e: Env, st: State, bindings: map<BindingKey, Binding>, entry: Entry, now: int)
    requires Good(e, st) && BindingsOnward(st.main, st.main.(bindings := bindings))
    ensures var after := Note(e, st.(main := st.main.(bindings := bindings)), entry, now);
            Good(e, after) && Forward(st, after)
  {
    hide Good, Forward, Note, BindingsOnward;
    SideKeeps(e, st, st.main.timers, bindings, st.main.pending);
    var moved := st.(main := st.main.(bindings := bindings));
    NoteKeeps(e, moved, entry, now);
    ForwardTransitive(st, moved, Note(e, moved, entry, now));
  }

  lemma AdminKeeps(e: Env, st: State, c: Command, now: int)
    requires Good(e, st) && Execute(e, st, c, now).Some? && (c.Target? || c.Limit? || c.SetTimer? || c.Enable? || c.Cosign?)
    ensures Good(e, Execute(e, st, c, now).value) && Forward(st, Execute(e, st, c, now).value)
  {
    hide Good, Forward, Note, Rewrite, Cosigned;
    var m := st.main;
    match c
    case Target(principal, id, state) =>
      AppKeeps(e, st, id, m.apps[id].(state := state), Allow(principal, id, "application." + StateName(state), id), now);
    case Limit(principal, id, limit) =>
      var app := m.apps[id].(limit := limit);
      AppKeeps(e, st, id, if limit > 0 && app.used >= limit then app.(state := Frozen) else app, Allow(principal, id, "budget.set", id), now);
    case SetTimer(principal, id, timer, delay, interval, payload) =>
      AddTimerKeeps(e, st, m.timers[(id, timer) := Timer(now + delay, interval, payload)], Allow(principal, id, "timer.create", timer), now);
    case Enable(principal, id, binding, enabled) =>
      BindingsKeep(e, st, m.bindings[(id, binding) := m.bindings[(id, binding)].(enabled := enabled)],
                   Allow(principal, id, if enabled then "event_source.bind" else "event_source.disable", binding), now);
    case Cosign(principal, cp) =>
      CosignedState(e, st, principal, cp, now);
  }

  lemma CosignedState(e: Env, st: State, principal: string, cp: Checkpoint, now: int)
    requires Good(e, st) && Cosigned(e.hash, e.verifies, st.log, cp, CosignEntry(principal, cp), now).Ok?
    ensures var after := st.(log := Cosigned(e.hash, e.verifies, st.log, cp, CosignEntry(principal, cp), now).value);
            Good(e, after) && Forward(st, after)
  {
    hide MainOk, LogOk, Forward, Cosigned, AsksOk;
    CosignedKeeps(e.hash, e.verifies, st.log, cp, CosignEntry(principal, cp), now);
    LogOnlyKeeps(e, st, Cosigned(e.hash, e.verifies, st.log, cp, CosignEntry(principal, cp), now).value);
  }

  lemma CommandKeeps(e: Env, st: State, c: Command, now: int)
    requires Good(e, st) && Execute(e, st, c, now).Some?
    ensures Good(e, Execute(e, st, c, now).value) && Forward(st, Execute(e, st, c, now).value)
  {
    hide Good, Forward, Note, Rewrite, Cosigned, ClaimMailbox, AckMailbox, SetState, SetLimit, AddTimer, EnableBinding, FoldTaint,
      AllTimers, Enqueue, Reserved;
    match c
    case Send(principal, id, key, raw) => EnqueueKeeps(e, st, principal, id, key, raw, now);
    case Claim(principal, id) => ClaimMailboxKeeps(e, st, principal, id, now);
    case Acknowledge(principal, id, n) => AckMailboxKeeps(e, st, principal, id, n, now);
    case RunTimers(keys) => AllTimersKeep(e, st, keys, now);
    case Fold(id, bits) => FoldTaintKeeps(e, st, id, bits);
    case Record(entry) => NoteKeeps(e, st, entry, now);
    case _ => AdminKeeps(e, st, c, now);
  }

  // ---- Calm moves: no turn is settled, no claim undone, no commit scanned, no timer cheated ----

  predicate Steady(a: seq<Msg>, b: seq<Msg>) {
    Benign(a, b) && Unreturned(a, b)
  }

  ghost predicate SteadyMail(a: Mail, b: Mail) {
    forall id {:trigger Steady(BoxOf(a, id), BoxOf(b, id))} :: Steady(BoxOf(a, id), BoxOf(b, id))
  }

  ghost predicate Calm(a: Main, b: Main) {
    && b.results == a.results && b.prepared == a.prepared && SameCursors(a.bindings, b.bindings)
    && SteadyMail(a.mail, b.mail) && TimersServed(a, b)
  }

  lemma SteadyBenign(a: Mail, b: Mail)
    requires SteadyMail(a, b)
    ensures AllBenign(a, b) && NoneReturned(a, b)
  {
    forall id
      ensures Benign(BoxOf(a, id), BoxOf(b, id)) && Unreturned(BoxOf(a, id), BoxOf(b, id))
    {
      assert Steady(BoxOf(a, id), BoxOf(b, id));
    }
  }

  lemma SteadyTransitive(a: Mail, b: Mail, c: Mail)
    requires SteadyMail(a, b) && SteadyMail(b, c)
    ensures SteadyMail(a, c)
  {
    forall id
      ensures Steady(BoxOf(a, id), BoxOf(c, id))
    {
      assert Steady(BoxOf(a, id), BoxOf(b, id)) && Steady(BoxOf(b, id), BoxOf(c, id));
    }
  }

  lemma SteadyRefl(a: Mail)
    ensures SteadyMail(a, a)
  {
  }

  lemma SteadySet(mail: Mail, id: AppId, ms: seq<Msg>)
    requires Steady(BoxOf(mail, id), ms)
    ensures SteadyMail(mail, mail[id := ms])
  {
    forall x
      ensures Steady(BoxOf(mail, x), BoxOf(mail[id := ms], x))
    {
    }
  }

  /** Timers may be added freely. */
  predicate TimersKept(a: Main, b: Main) { forall k | k in a.timers :: k in b.timers && b.timers[k] == a.timers[k] }

  lemma CalmWhen(a: Main, b: Main)
    requires b.results == a.results && b.prepared == a.prepared && SameCursors(a.bindings, b.bindings)
    requires SteadyMail(a.mail, b.mail) && TimersKept(a, b)
    ensures Calm(a, b)
  {
    hide SteadyMail;
    forall k | k in a.timers
      ensures TimerServed(a, b, k)
    {
    }
  }

  /** One box in steady new statuses, with anything done to its application's record. */
  lemma CalmSet(m: Main, id: AppId, app: App, ms: seq<Msg>)
    requires Steady(BoxOf(m.mail, id), ms)
    ensures Calm(m, m.(apps := m.apps[id := app], mail := m.mail[id := ms]))
  {
    hide Steady;
    SteadySet(m.mail, id, ms);
    CalmWhen(m, m.(apps := m.apps[id := app], mail := m.mail[id := ms]));
  }

  lemma PushSteady(ms: seq<Msg>, m: Msg)
    requires !HasPrefix(m.key, "lsfs:")
    ensures Steady(ms, ms + [m])
  {
  }

  lemma EnqueueCalm(e: Env, st: State, principal: string, id: AppId, key: string, raw: string, now: int)
    requires !HasPrefix(key, "lsfs:")
    ensures var after := Enqueued(e, st, principal, id, key, raw, now);
            && SteadyMail(st.main.mail, after.main.mail)
            && after.main == st.main.(mail := after.main.mail) && after.asks == st.asks
  {
    hide Admits, SteadyMail, Steady, HasPrefix;
    SteadyRefl(st.main.mail);
    match Enqueue(e, st, principal, id, key, raw, now)
    case Added(after, msg) =>
      PushSteady(BoxOf(st.main.mail, id), msg);
      SteadySet(st.main.mail, id, BoxOf(st.main.mail, id) + [msg]);
    case _ =>
  }

  lemma KeyTag(tag: string, name: string, n: int)
    requires tag == "timer:" || tag == "kernel:"
    ensures !HasPrefix(Key(tag, name, n), "lsfs:")
  {
    assert Key(tag, name, n)[0] == tag[0];
  }

  lemma DeliveredCalm(e: Env, st: State, id: AppId, key: string, raw: string, timers: map<(AppId, string), Timer>,
                      bindings: map<BindingKey, Binding>, pending: map<AppId, seq<Saved>>, now: int)
    requires !HasPrefix(key, "lsfs:")
    ensures var after := Delivered(e, st, id, key, raw, timers, bindings, pending, now);
            && SteadyMail(st.main.mail, after.main.mail) && after.asks == st.asks
            && after.main == st.main.(mail := after.main.mail, timers := timers, bindings := bindings, pending := pending)
  {
    hide SteadyMail, HasPrefix, Enqueued;
    EnqueueCalm(e, st, "supervisor", id, key, raw, now);
  }

  lemma OneTimerSteady(e: Env, st: State, k: (AppId, string), now: int)
    requires OneTimer(e, st, k, now).Fired?
    ensures SteadyMail(st.main.mail, OneTimer(e, st, k, now).state.main.mail)
  {
    hide SteadyMail, HasPrefix, Enqueue, Delivered;
    SteadyRefl(st.main.mail);
    var m := st.main;
    if k.0 in m.apps && m.apps[k.0].state != Tombstoned {
      var timer := m.timers[k];
      KeyTag("timer:", k.1, timer.due);
      var timers := if timer.interval == 0 then m.timers - {k} else m.timers[k := timer.(due := now + timer.interval)];
      DeliveredCalm(e, st, k.0, TimerKey(k.1, timer.due), timer.payload, timers, m.bindings, m.pending, now);
    }
  }

  lemma {:induction false} AllTimersSteady(e: Env, st: State, keys: seq<(AppId, string)>, now: int)
    requires AllTimers(e, st, keys, now).Ok?
    ensures SteadyMail(st.main.mail, AllTimers(e, st, keys, now).value.main.mail)
  {
    hide SteadyMail, OneTimer;
    if keys == [] {
      SteadyRefl(st.main.mail);
    } else {
      AllTimersSteady(e, st, keys[..|keys| - 1], now);
      var before := AllTimers(e, st, keys[..|keys| - 1], now).value;
      if OneTimer(e, before, keys[|keys| - 1], now).Fired? {
        OneTimerSteady(e, before, keys[|keys| - 1], now);
        SteadyTransitive(st.main.mail, before.main.mail, AllTimers(e, st, keys, now).value.main.mail);
      }
    }
  }

  ghost predicate CalmState(a: State, b: State) {
    Calm(a.main, b.main) && b.main.apps.Keys == a.main.apps.Keys && b.main.pending == a.main.pending && b.asks == a.asks
  }

  lemma CalmRewrite(e: Env, st: State, id: AppId, app: App, ms: seq<Msg>, entry: Entry, now: int)
    requires Steady(BoxOf(st.main.mail, id), ms) && id in st.main.apps
    ensures CalmState(st, Rewrite(e, st, id, app, ms, entry, now))
  {
    hide Steady, Calm;
    CalmSet(st.main, id, app, ms);
  }

  lemma CalmSides(st: State, b: State)
    requires b.main == st.main.(timers := b.main.timers, bindings := b.main.bindings) && b.asks == st.asks
    requires SameCursors(st.main.bindings, b.main.bindings) && TimersKept(st.main, b.main)
    ensures CalmState(st, b)
  {
    hide SteadyMail;
    SteadyRefl(st.main.mail);
    CalmWhen(st.main, b.main);
  }

  lemma CommandCalm(e: Env, st: State, c: Command, now: int)
    requires Good(e, st) && Execute(e, st, c, now).Some?
    ensures CalmState(st, Execute(e, st, c, now).value)
  {
    hide Good, CalmState, Steady, Note, Rewrite, AllTimers, Enqueue, Cosigned, TimersServed, SteadyMail, HasPrefix;
    var m := st.main;
    match c
    case Send(principal, id, key, raw) =>
      EnqueueCalm(e, st, principal, id, key, raw, now);
      CalmMail(st, Execute(e, st, c, now).value);
    case Claim(principal, id) =>
      ClaimSteady(BoxOf(m.mail, id));
      CalmRewrite(e, st, id, m.apps[id].(taint := m.apps[id].taint + PendingTaint(e, BoxOf(m.mail, id))), ClaimAll(BoxOf(m.mail, id)),
                  Allow(principal, id, "mailbox.claim", id), now);
    case Acknowledge(principal, id, n) =>
      var box := BoxOf(m.mail, id);
      MarkSteady(box, Find(box, n), Status.Acked, box[Find(box, n)].attempts);
      CalmRewrite(e, st, id, m.apps[id], box[Find(box, n) := box[Find(box, n)].(status := Status.Acked)], Allow(principal, id, "mailbox.ack", MessageId(n)), now);
    case RunTimers(keys) =>
      AllTimersKeep(e, st, keys, now);
      AllTimersSteady(e, st, keys, now);
      CalmTimers(st, Execute(e, st, c, now).value);
    case _ => AdminCalm(e, st, c, now);
  }

  lemma CalmMail(st: State, b: State)
    requires SteadyMail(st.main.mail, b.main.mail) && b.main == st.main.(mail := b.main.mail) && b.asks == st.asks
    ensures CalmState(st, b)
  {
    hide SteadyMail;
    CalmWhen(st.main, b.main);
  }

  lemma CalmTimers(st: State, b: State)
    requires SteadyMail(st.main.mail, b.main.mail) && SameButTimers(st.main, b.main) && TimersServed(st.main, b.main) && b.asks == st.asks
    ensures CalmState(st, b)
  {
    hide SteadyMail, TimersServed;
  }

  lemma ClaimSteady(ms: seq<Msg>)
    ensures Steady(ms, ClaimAll(ms))
  {
  }

  lemma MarkSteady(ms: seq<Msg>, i: nat, status: Status, attempts: nat)
    requires i < |ms| && status != Pending
    ensures Steady(ms, ms[i := ms[i].(status := status, attempts := attempts)])
  {
  }

  lemma SteadySame(ms: seq<Msg>)
    ensures Steady(ms, ms)
  {
  }

  lemma AdminCalm(e: Env, st: State, c: Command, now: int)
    requires Execute(e, st, c, now).Some?
    requires c.Target? || c.Limit? || c.SetTimer? || c.Enable? || c.Fold? || c.Cosign? || c.Record?
    ensures CalmState(st, Execute(e, st, c, now).value)
  {
    hide CalmState, Steady, Cosigned, Audited;
    var m, after := st.main, Execute(e, st, c, now).value;
    match c
    case Target(principal, id, state) =>
      SteadySame(BoxOf(m.mail, id));
      CalmRewrite(e, st, id, m.apps[id].(state := state), BoxOf(m.mail, id), Allow(principal, id, "application." + StateName(state), id), now);
    case Limit(principal, id, limit) =>
      SteadySame(BoxOf(m.mail, id));
      var app := m.apps[id].(limit := limit);
      CalmRewrite(e, st, id, if limit > 0 && app.used >= limit then app.(state := Frozen) else app, BoxOf(m.mail, id), Allow(principal, id, "budget.set", id), now);
    case Fold(id, bits) => CalmApps(st, after);
    case _ => CalmSides(st, after);
  }

  lemma CalmApps(st: State, b: State)
    requires b.main == st.main.(apps := b.main.apps) && b.asks == st.asks && b.main.apps.Keys == st.main.apps.Keys
    ensures CalmState(st, b)
  {
    hide SteadyMail;
    SteadyRefl(st.main.mail);
    CalmWhen(st.main, b.main);
  }
}
