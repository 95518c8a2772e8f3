/**
 * The supervisor's operations on its state, each as the state it would commit.
 * `None` means the operation was refused or had nothing to do.
 */
module Operations {
  import opened Wrappers
  import opened Text
  import opened Mailboxes
  import opened AuditChain
  import opened Confirmations
  import opened SupervisorState
  import UsageLedger
  import ContextStore

  function Allow(principal: string, id: AppId, action: string, subject: string): Entry {
    Entry(principal, id, action, subject, "allow", "")
  }

  function MessageId(n: nat): string { "msg-" + Dec(n) }

  function Note(e: Env, st: State, entry: Entry, now: int): State {
    st.(log := Audited(e.hash, st.log, entry, now))
  }

  predicate Forward(a: State, b: State) { MainOnward(a.main, b.main) && LogExtends(a.log, b.log) }

  lemma ForwardTransitive(a: State, b: State, c: State)
    requires Forward(a, b) && Forward(b, c)
    ensures Forward(a, c)
  {
    OnwardTransitive(a.main, b.main, c.main);
  }

  /** An operation that only leaves an audit record. */
  lemma NoteKeeps(e: Env, st: State, entry: Entry, now: int)
    requires Good(e, st)
    ensures Good(e, Note(e, st, entry, now)) && Forward(st, Note(e, st, entry, now))
  {
    hide MainOk, LogOk, MainOnward, Audited;
    AuditedKeeps(e.hash, e.verifies, st.log, entry, now);
    NextMain(e, st.main, st.log.next, Note(e, st, entry, now).log.next);
    OnwardRefl(st.main);
  }

  /** A move of the main state followed by its audit record. */
  lemma MoveKeeps(e: Env, st: State, main: Main, entry: Entry, now: int)
    requires Good(e, st) && MainOk(e, main, st.log.next) && MainOnward(st.main, main)
    ensures Good(e, Note(e, st.(main := main), entry, now)) && Forward(st, Note(e, st.(main := main), entry, now))
  {
    hide MainOk, LogOk, MainOnward, Audited;
    AuditedKeeps(e.hash, e.verifies, st.log, entry, now);
    NextMain(e, main, st.log.next, st.log.next + 1);
    NextOf(e, st.log, entry, now);
  }

  lemma NextOf(e: Env, log: Log, entry: Entry, now: int)
    ensures Audited(e.hash, log, entry, now).next == log.next + 1
  {
  }

  // ---- Enqueue ----

  datatype MailError = NoApp | AppRetired | BadKey | BadPayload | KeyReused | Full | NotWritten

  datatype Admission = Refused(error: MailError) | Existing(msg: Msg) | Added(state: State, msg: Msg)

  const MAX_MAIL_KEY := 256

  /** `enqueueLocked`. */
  ghost function Enqueue(e: Env, st: State, principal: string, id: AppId, key: string, raw: string, now: int): Admission {
    var m := st.main;
    if id !in m.apps then Refused(NoApp)
    else if m.apps[id].state == Tombstoned then Refused(AppRetired)
    else if key == "" || |key| > MAX_MAIL_KEY then Refused(BadKey)
    else if e.canon(raw).None? || |raw| > 6 * MAX_TEXT then Refused(BadPayload)
    else
      var payload, box := e.canon(raw).value, BoxOf(m.mail, id);
      var i := FindKey(box, key);
      if i < |box| then if box[i].payload != payload then Refused(KeyReused) else Existing(box[i])
      else if !Admits(m.mail, id, payload) then Refused(Full)
      else
        var msg := Msg(key, payload, Pending, st.log.next + 1, now, 0);
        var posted := st.(main := m.(mail := m.mail[id := box + [msg]]), log := st.log.(next := st.log.next + 1));
        Added(Note(e, posted, Allow(principal, id, "mailbox.enqueue", key), now), msg)
  }

  /** The state after an accepted message, new or already there. */
  ghost function Enqueued(e: Env, st: State, principal: string, id: AppId, key: string, raw: string, now: int): State {
    match Enqueue(e, st, principal, id, key, raw, now)
    case Added(after, _) => after
    case _ => st
  }

  lemma BumpMove(e: Env, st: State, main: Main)
    requires Good(e, st) && MainOk(e, main, st.log.next + 1) && MainOnward(st.main, main)
    ensures var after := st.(main := main, log := st.log.(next := st.log.next + 1));
            Good(e, after) && Forward(st, after)
  {
    hide MainOk, LogOk, MainOnward;
    BumpKeeps(e.hash, e.verifies, st.log);
  }

  lemma EnqueueKeeps(e: Env, st: State, principal: string, id: AppId, key: string, raw: string, now: int)
    requires Good(e, st)
    ensures Good(e, Enqueued(e, st, principal, id, key, raw, now))
    ensures Forward(st, Enqueued(e, st, principal, id, key, raw, now))
  {
    OnwardRefl(st.main);
    var r := Enqueue(e, st, principal, id, key, raw, now);
    if r.Added? {
      var m := st.main;
      assert id in m.mail && r.msg.number == st.log.next + 1;
      var main := m.(mail := m.mail[id := m.mail[id] + [r.msg]]);
      PushMain(e, m, st.log.next, id, r.msg);
      hide MainOk, LogOk, MainOnward, Admits;
      BumpMove(e, st, main);
      var posted := st.(main := main, log := st.log.(next := st.log.next + 1));
      NoteKeeps(e, posted, Allow(principal, id, "mailbox.enqueue", key), now);
      ForwardTransitive(st, posted, r.state);
    }
  }

  /** The key of an accepted message is in the mailbox afterwards, with its payload; other boxes are untouched. */
  lemma EnqueueDelivers(e: Env, st: State, principal: string, id: AppId, key: string, raw: string, now: int)
    requires !Enqueue(e, st, principal, id, key, raw, now).Refused?
    ensures var after := Enqueued(e, st, principal, id, key, raw, now).main;
            && FindKey(BoxOf(after.mail, id), key) < |BoxOf(after.mail, id)|
            && e.canon(raw) == Some(BoxOf(after.mail, id)[FindKey(BoxOf(after.mail, id), key)].payload)
            && after == st.main.(mail := after.mail)
            && (forall x | x != id :: BoxOf(after.mail, x) == BoxOf(st.main.mail, x))
            && BoxOf(st.main.mail, id) <= BoxOf(after.mail, id)
            && (forall i | |BoxOf(st.main.mail, id)| <= i < |BoxOf(after.mail, id)| :: BoxOf(after.mail, id)[i].key == key)
  {
    hide Admits;
    var r := Enqueue(e, st, principal, id, key, raw, now);
    if r.Added? {
      var box := BoxOf(st.main.mail, id);
      assert (box + [r.msg])[..|box|] == box;
    }
  }

  // ---- Claims, acknowledgements and requeues ----

  function ClaimAll(ms: seq<Msg>): seq<Msg> {
    seq(|ms|, i requires 0 <= i < |ms| => if ms[i].status == Pending then ms[i].(status := Claimed) else ms[i])
  }

  function PendingTaint(e: Env, ms: seq<Msg>): Bits {
    if ms == [] then {}
    else PendingTaint(e, ms[..|ms| - 1]) + if ms[|ms| - 1].status == Pending then e.taintOf(ms[|ms| - 1].payload) else {}
  }

  lemma {:induction false} PendingTaintCovers(e: Env, ms: seq<Msg>, i: nat)
    requires i < |ms| && ms[i].status == Pending
    ensures e.taintOf(ms[i].payload) <= PendingTaint(e, ms)
  {
    if i < |ms| - 1 {
      PendingTaintCovers(e, ms[..|ms| - 1], i);
    }
  }

  /** One mailbox and its application changed together, then audited. */
  function Rewrite(e: Env, st: State, id: AppId, app: App, ms: seq<Msg>, entry: Entry, now: int): State {
    Note(e, st.(main := st.main.(apps := st.main.apps[id := app], mail := st.main.mail[id := ms])), entry, now)
  }

  lemma RewriteKeeps(e: Env, st: State, id: AppId, app: App, ms: seq<Msg>, entry: Entry, now: int)
    requires Good(e, st) && id in st.main.apps && id in st.main.mail
    requires Restatus(st.main.mail[id], ms) && Kept(st.main.apps[id], app) && Tainted(e, app.taint, ms)
    ensures Good(e, Rewrite(e, st, id, app, ms, entry, now)) && Forward(st, Rewrite(e, st, id, app, ms, entry, now))
  {
    hide MainOk, LogOk, MainOnward, Restatus, Kept, Tainted, Note;
    SetMain(e, st.main, st.log.next, id, app, ms);
    MoveKeeps(e, st, st.main.(apps := st.main.apps[id := app], mail := st.main.mail[id := ms]), entry, now);
  }

  lemma BoxTainted(e: Env, st: State, id: AppId)
    requires Good(e, st) && id in st.main.apps
    ensures id in st.main.mail && Tainted(e, st.main.apps[id].taint, st.main.mail[id])
  {
    assert Tainted(e, st.main.apps[id].taint, st.main.mail[id]);
  }

  /** `ClaimMailbox`: claims every pending message and folds in what each declares. */
  function ClaimMailbox(e: Env, st: State, principal: string, id: AppId, now: int): Option<State> {
    var m, box := st.main, BoxOf(st.main.mail, id);
    if id !in m.apps || m.apps[id].state == Tombstoned || FirstPending(box) == |box| then None
    else
      var app := m.apps[id].(taint := m.apps[id].taint + PendingTaint(e, box));
      Some(Rewrite(e, st, id, app, ClaimAll(box), Allow(principal, id, "mailbox.claim", id), now))
  }

  lemma ClaimAllIs(e: Env, bits: Bits, ms: seq<Msg>)
    requires Tainted(e, bits, ms)
    ensures Restatus(ms, ClaimAll(ms)) && Tainted(e, bits + PendingTaint(e, ms), ClaimAll(ms))
  {
    forall i | 0 <= i < |ms| && ms[i].status == Pending
      ensures e.taintOf(ms[i].payload) <= PendingTaint(e, ms)
    {
      PendingTaintCovers(e, ms, i);
    }
  }

  lemma ClaimMailboxKeeps(e: Env, st: State, principal: string, id: AppId, now: int)
    requires Good(e, st) && ClaimMailbox(e, st, principal, id, now).Some?
    ensures Good(e, ClaimMailbox(e, st, principal, id, now).value)
    ensures Forward(st, ClaimMailbox(e, st, principal, id, now).value)
  {
    BoxTainted(e, st, id);
    hide MainOk, LogOk, AsksOk, Note, MainOnward, ClaimAll, PendingTaint, Tainted, Rewrite;
    var box := st.main.mail[id];
    var app := st.main.apps[id].(taint := st.main.apps[id].taint + PendingTaint(e, box));
    ClaimAllIs(e, st.main.apps[id].taint, box);
    RewriteKeeps(e, st, id, app, ClaimAll(box), Allow(principal, id, "mailbox.claim", id), now);
  }

  /** One message in a new status; a claim brings its taint with it. */
  lemma MarkIs(e: Env, bits: Bits, more: Bits, ms: seq<Msg>, i: nat, status: Status, attempts: nat)
    requires Tainted(e, bits, ms) && bits <= more && i < |ms| && Outstanding(ms[i])
    requires status == Pending || e.taintOf(ms[i].payload) <= more
    ensures Restatus(ms, ms[i := ms[i].(status := status, attempts := attempts)])
    ensures Tainted(e, more, ms[i := ms[i].(status := status, attempts := attempts)])
  {
  }

  /** `AckMailbox`. */
  function AckMailbox(e: Env, st: State, principal: string, id: AppId, n: nat, now: int): Option<State> {
    var box := BoxOf(st.main.mail, id);
    var i := Find(box, n);
    if id !in st.main.apps || i == |box| || box[i].status != Claimed then None
    else
      var ms := box[i := box[i].(status := Acked)];
      Some(Rewrite(e, st, id, st.main.apps[id], ms, Allow(principal, id, "mailbox.ack", MessageId(n)), now))
  }

  lemma AckMailboxKeeps(e: Env, st: State, principal: string, id: AppId, n: nat, now: int)
    requires Good(e, st) && AckMailbox(e, st, principal, id, n, now).Some?
    ensures Good(e, AckMailbox(e, st, principal, id, n, now).value)
    ensures Forward(st, AckMailbox(e, st, principal, id, n, now).value)
  {
    BoxTainted(e, st, id);
    hide MainOk, LogOk, AsksOk, Note, MainOnward, MessageId;
    var box := st.main.mail[id];
    var i := Find(box, n);
    assert e.taintOf(box[i].payload) <= st.main.apps[id].taint;
    hide Tainted, Rewrite, Restatus;
    MarkIs(e, st.main.apps[id].taint, st.main.apps[id].taint, box, i, Acked, box[i].attempts);
    RewriteKeeps(e, st, id, st.main.apps[id], box[i := box[i].(status := Acked)], Allow(principal, id, "mailbox.ack", MessageId(n)), now);
  }

  /** `claimTurn`, once the scheduler has chosen `id`: its first pending message is claimed. */
  function ClaimTurn(e: Env, st: State, id: AppId, now: int): Option<State> {
    var m, box := st.main, BoxOf(st.main.mail, id);
    var i := FirstPending(box);
    if id !in m.apps || m.apps[id].state != Serving || m.apps[id].wake == Manual || i == |box| then None
    else
      var app := m.apps[id].(taint := m.apps[id].taint + e.taintOf(box[i].payload));
      var ms := box[i := box[i].(status := Claimed, attempts := box[i].attempts + 1)];
      Some(Rewrite(e, st, id, app, ms, Allow("supervisor", id, "turn.claim", MessageId(box[i].number)), now))
  }

  lemma ClaimTurnKeeps(e: Env, st: State, id: AppId, now: int)
    requires Good(e, st) && ClaimTurn(e, st, id, now).Some?
    ensures Good(e, ClaimTurn(e, st, id, now).value) && Forward(st, ClaimTurn(e, st, id, now).value)
  {
    BoxTainted(e, st, id);
    hide MainOk, LogOk, AsksOk, Note, MainOnward, MessageId;
    var box := st.main.mail[id];
    var i := FirstPending(box);
    var app := st.main.apps[id].(taint := st.main.apps[id].taint + e.taintOf(box[i].payload));
    var ms := box[i := box[i].(status := Claimed, attempts := box[i].attempts + 1)];
    hide Tainted, Rewrite, Restatus;
    MarkIs(e, st.main.apps[id].taint, app.taint, box, i, Claimed, box[i].attempts + 1);
    RewriteKeeps(e, st, id, app, ms, Allow("supervisor", id, "turn.claim", MessageId(box[i].number)), now);
  }

  /** `requeueClaim`. */
  function Requeue(e: Env, st: State, id: AppId, n: nat, now: int): Option<State> {
    var box := BoxOf(st.main.mail, id);
    var i := Find(box, n);
    if id !in st.main.apps || i == |box| || box[i].status != Claimed then None
    else
      var ms := box[i := box[i].(status := Pending)];
      var entry := Entry("supervisor", id, "turn.requeue", MessageId(n), "allow", "runner stopped before commit");
      Some(Rewrite(e, st, id, st.main.apps[id], ms, entry, now))
  }

  lemma RequeueKeeps(e: Env, st: State, id: AppId, n: nat, now: int)
    requires Good(e, st) && Requeue(e, st, id, n, now).Some?
    ensures Good(e, Requeue(e, st, id, n, now).value) && Forward(st, Requeue(e, st, id, n, now).value)
  {
    BoxTainted(e, st, id);
    hide MainOk, LogOk, AsksOk, Note, MainOnward, MessageId;
    var box := st.main.mail[id];
    var i := Find(box, n);
    var entry := Entry("supervisor", id, "turn.requeue", MessageId(n), "allow", "runner stopped before commit");
    hide Tainted, Rewrite, Restatus;
    MarkIs(e, st.main.apps[id].taint, st.main.apps[id].taint, box, i, Pending, box[i].attempts);
    RewriteKeeps(e, st, id, st.main.apps[id], box[i := box[i].(status := Pending)], entry, now);
  }

  // ---- Application lifecycle ----

  function ExpireAll(ms: seq<Msg>): seq<Msg> {
    seq(|ms|, i requires 0 <= i < |ms| => if Outstanding(ms[i]) then ms[i].(status := Expired) else ms[i])
  }

  function DisableAll(bindings: map<(AppId, string), Binding>, id: AppId): map<(AppId, string), Binding> {
    map k | k in bindings :: if k.0 == id then bindings[k].(enabled := false) else bindings[k]
  }

  /** `RetireApplication`: outstanding messages expire, kernel records go, bindings are disabled. */
  function Retire(e: Env, st: State, principal: string, id: AppId, now: int): Option<State> {
    var m := st.main;
    if id !in m.apps || m.apps[id].state == Tombstoned then None
    else
      var app := m.apps[id].(state := Tombstoned, retired := now);
      var main := m.(apps := m.apps[id := app], mail := m.mail[id := ExpireAll(BoxOf(m.mail, id))],
                     bindings := DisableAll(m.bindings, id), pending := m.pending - {id});
      Some(Note(e, st.(main := main), Allow(principal, id, "application.retire", id), now))
  }

  lemma ExpireIs(e: Env, bits: Bits, ms: seq<Msg>)
    requires Tainted(e, bits, ms)
    ensures Restatus(ms, ExpireAll(ms)) && Tainted(e, bits, ExpireAll(ms))
  {
  }

  lemma DisableIs(m: Main, id: AppId)
    ensures BindingsOnward(m, m.(bindings := DisableAll(m.bindings, id)))
  {
  }

  lemma RetireMain(e: Env, m: Main, next: nat, id: AppId, app: App)
    requires MainOk(e, m, next) && id in m.apps && id in m.mail && Kept(m.apps[id], app) && Tainted(e, app.taint, m.mail[id])
    ensures var main := m.(apps := m.apps[id := app], mail := m.mail[id := ExpireAll(m.mail[id])],
                           bindings := DisableAll(m.bindings, id), pending := m.pending - {id});
            MainOk(e, main, next) && MainOnward(m, main)
  {
    hide MainOk, MainOnward, ExpireAll, DisableAll, Restatus, Tainted, Kept, BindingsOnward;
    ExpireIs(e, app.taint, m.mail[id]);
    var moved := m.(apps := m.apps[id := app], mail := m.mail[id := ExpireAll(m.mail[id])]);
    SetMain(e, m, next, id, app, ExpireAll(m.mail[id]));
    DisableIs(moved, id);
    SideMain(e, moved, next, m.timers, DisableAll(m.bindings, id), m.pending - {id});
    OnwardTransitive(m, moved, moved.(bindings := DisableAll(m.bindings, id), pending := m.pending - {id}));
  }

  lemma RetireKeeps(e: Env, st: State, principal: string, id: AppId, now: int)
    requires Good(e, st) && Retire(e, st, principal, id, now).Some?
    ensures Good(e, Retire(e, st, principal, id, now).value) && Forward(st, Retire(e, st, principal, id, now).value)
  {
    BoxTainted(e, st, id);
    hide MainOk, LogOk, AsksOk, Note, MainOnward, ExpireAll, DisableAll, Tainted;
    var m := st.main;
    var app := m.apps[id].(state := Tombstoned, retired := now);
    RetireMain(e, m, st.log.next, id, app);
    var main := m.(apps := m.apps[id := app], mail := m.mail[id := ExpireAll(m.mail[id])],
                   bindings := DisableAll(m.bindings, id), pending := m.pending - {id});
    MoveKeeps(e, st, main, Allow(principal, id, "application.retire", id), now);
  }

  function StateName(s: AppState): string {
    match s
    case Serving => "serving"
    case Frozen => "frozen"
    case Tombstoned => "tombstoned"
  }

  /** `SetApplicationState`. */
  function SetState(e: Env, st: State, principal: string, id: AppId, target: AppState, now: int): Option<State> {
    var m := st.main;
    if id !in m.apps || m.apps[id].state == Tombstoned || target == Tombstoned then None
    else if target == Serving && m.apps[id].limit > 0 && m.apps[id].used >= m.apps[id].limit then None
    else Some(Rewrite(e, st, id, m.apps[id].(state := target), BoxOf(m.mail, id),
                      Allow(principal, id, "application." + StateName(target), id), now))
  }

  /** `SetTokenLimit`: a budget only narrows, and freezes what it no longer covers. */
  function SetLimit(e: Env, st: State, principal: string, id: AppId, limit: Word, now: int): Option<State> {
    var m := st.main;
    if id !in m.apps || m.apps[id].state == Tombstoned then None
    else if m.apps[id].limit != 0 && (limit == 0 || limit > m.apps[id].limit) then None
    else
      var app := m.apps[id].(limit := limit);
      var frozen := if limit > 0 && app.used >= limit then app.(state := Frozen) else app;
      Some(Rewrite(e, st, id, frozen, BoxOf(m.mail, id), Allow(principal, id, "budget.set", id), now))
  }

  /** Changing only an application's own record. */
  lemma AppKeeps(e: Env, st: State, id: AppId, app: App, entry: Entry, now: int)
    requires Good(e, st) && id in st.main.apps && Kept(st.main.apps[id], app)
    ensures Good(e, Rewrite(e, st, id, app, BoxOf(st.main.mail, id), entry, now))
    ensures Forward(st, Rewrite(e, st, id, app, BoxOf(st.main.mail, id), entry, now))
  {
    BoxTainted(e, st, id);
    hide MainOk, LogOk, AsksOk, Note, MainOnward;
    RewriteKeeps(e, st, id, app, st.main.mail[id], entry, now);
  }

  /** `foldTaint`: taint a provider reports for its output. */
  function FoldTaint(st: State, id: AppId, bits: Bits): Option<State> {
    if bits == {} || id !in st.main.apps then None
    else Some(st.(main := st.main.(apps := st.main.apps[id := st.main.apps[id].(taint := st.main.apps[id].taint + bits)])))
  }

  lemma FoldTaintKeeps(e: Env, st: State, id: AppId, bits: Bits)
    requires Good(e, st) && FoldTaint(st, id, bits).Some?
    ensures Good(e, FoldTaint(st, id, bits).value) && Forward(st, FoldTaint(st, id, bits).value)
  {
    BoxTainted(e, st, id);
    hide MainOk, LogOk, AsksOk, MainOnward;
    var m := st.main;
    var app := m.apps[id].(taint := m.apps[id].taint + bits);
    SetMain(e, m, st.log.next, id, app, m.mail[id]);
    assert m.mail[id := m.mail[id]] == m.mail;
  }

  /** `CreateApplication`, given the context the store created for it. */
  function CreateApp(e: Env, st: State, principal: string, id: AppId, owner: string, wake: Wake,
                     context: ContextStore.ContextId, now: int): Option<State>
  {
    if id in st.main.apps || owner == "" || |owner| > 256 then None
    else Some(NewApp(e, st, id, App(owner, context, None, Serving, wake, now, 0, 0, 0, {}, 1, ""),
                     Allow(principal, id, "application.create", id), now))
  }

  /** `ForkApplication`: the child starts with all its parent's taint. */
  function ForkApp(e: Env, st: State, principal: string, parent: AppId, id: AppId, owner: string, wake: Wake,
                   context: ContextStore.ContextId, now: int): Option<State>
  {
    var m := st.main;
    if id in m.apps || parent !in m.apps || m.apps[parent].state == Tombstoned || owner == "" || |owner| > 256 then None
    else Some(NewApp(e, st, id, App(owner, context, Some(parent), Serving, wake, now, 0, 0, 0, m.apps[parent].taint, 1, ""),
                     Allow(principal, id, "application.fork", parent), now))
  }

  function NewApp(e: Env, st: State, id: AppId, app: App, entry: Entry, now: int): State {
    Note(e, st.(main := st.main.(apps := st.main.apps[id := app], mail := st.main.mail[id := []])), entry, now)
  }

  lemma NewAppKeeps(e: Env, st: State, id: AppId, app: App, entry: Entry, now: int)
    requires Good(e, st) && id !in st.main.apps && app.used == 0
    ensures Good(e, NewApp(e, st, id, app, entry, now)) && Forward(st, NewApp(e, st, id, app, entry, now))
  {
    hide MainOk, LogOk, AsksOk, Note, MainOnward;
    CreateMain(e, st.main, st.log.next, id, app);
    MoveKeeps(e, st, st.main.(apps := st.main.apps[id := app], mail := st.main.mail[id := []]), entry, now);
  }

  // ---- Turns ----

  /** The first half of `finishTurn`: the provider's answer is fixed before any context write. */
  function Prepare(st: State, n: nat, t: Turn): State { st.(main := st.main.(prepared := st.main.prepared[n := t])) }

  /** What the provider returned: a text, or nothing if it failed. */
  datatype Answer = Answer(text: string, usage: Usage, failed: bool)

  function PreparedTurn(id: AppId, a: Answer): Turn {
    if a.failed || |a.text| > MAX_TEXT then Turn(id, "", a.usage, Failed, "") else Turn(id, a.text, a.usage, Completed, "")
  }

  function OutcomeName(o: Outcome): string {
    match o
    case Completed => "completed"
    case Failed => "failed"
    case BudgetExhausted => "budget_exhausted"
    case WhenRetired => "retired"
  }

  /** The application record after a turn is charged. */
  function ChargedApp(app: App, t: Turn, checkpoint: string): App {
    var cost := UsageLedger.SaturatingAdd(t.usage.input, t.usage.output);
    var used := UsageLedger.SaturatingAdd(app.used, cost);
    app.(used := used, checkpoint := checkpoint, state := if app.limit > 0 && used >= app.limit then Frozen else app.state)
  }

  /** The result recorded for a prepared turn. */
  function SettledTurn(app: App, t: Turn, checkpoint: string): Turn {
    var after := ChargedApp(app, t, checkpoint);
    if after.state == Tombstoned then t.(outcome := WhenRetired, text := "", checkpoint := checkpoint)
    else if app.limit > 0 && after.used >= app.limit then t.(outcome := BudgetExhausted, checkpoint := checkpoint)
    else t.(checkpoint := checkpoint)
  }

  /** The second half of `finishTurn`: charge, result and acknowledgement; the routing record takes a number. */
  function SettleTurn(e: Env, st: State, n: nat, checkpoint: string, now: int): Option<State> {
    var m := st.main;
    if n !in m.prepared || m.prepared[n].app !in m.apps then None
    else
      var t := m.prepared[n];
      var app := m.apps[t.app];
      var result := SettledTurn(app, t, checkpoint);
      var after := st.(main := Settlement(m, n, result, ChargedApp(app, t, checkpoint)), log := st.log.(next := st.log.next + 1));
      Some(Note(e, after, Allow("supervisor", t.app, "turn." + OutcomeName(result.outcome), MessageId(n)), now))
  }

  lemma PrepareKeeps(e: Env, st: State, n: nat, t: Turn)
    requires Good(e, st) && n !in st.main.results && n !in st.main.prepared
    requires PreparedOk(e, st.main.apps, st.main.mail, n, t)
    ensures Good(e, Prepare(st, n, t)) && Forward(st, Prepare(st, n, t))
  {
    hide MainOk, LogOk, MainOnward, PreparedOk;
    PrepareMain(e, st.main, st.log.next, n, t);
  }

  lemma ChargeIsExact(app: App, t: Turn, checkpoint: string)
    ensures ChargedApp(app, t, checkpoint).used == UsageLedger.Min(UsageLedger.MAX_UINT64, app.used + Cost(t))
    ensures AppOnward(app, ChargedApp(app, t, checkpoint))
    ensures SettledTurn(app, t, checkpoint).app == t.app && SettledTurn(app, t, checkpoint).usage == t.usage
  {
  }

  lemma SettleTurnKeeps(e: Env, st: State, n: nat, checkpoint: string, now: int)
    requires Good(e, st) && SettleTurn(e, st, n, checkpoint, now).Some?
    ensures Good(e, SettleTurn(e, st, n, checkpoint, now).value) && Forward(st, SettleTurn(e, st, n, checkpoint, now).value)
  {
    hide MainOk, LogOk, AsksOk, Note, MainOnward, Settlement, ChargedApp, SettledTurn, AppOnward, MessageId, OutcomeName;
    var m := st.main;
    var t := m.prepared[n];
    var app := m.apps[t.app];
    var result := SettledTurn(app, t, checkpoint);
    ChargeIsExact(app, t, checkpoint);
    SettleMain(e, m, st.log.next, n, result, ChargedApp(app, t, checkpoint));
    var main := Settlement(m, n, result, ChargedApp(app, t, checkpoint));
    NextMain(e, main, st.log.next, st.log.next + 1);
    BumpMove(e, st, main);
    var after := st.(main := main, log := st.log.(next := st.log.next + 1));
    var entry := Allow("supervisor", t.app, "turn." + OutcomeName(result.outcome), MessageId(n));
    NoteKeeps(e, after, entry, now);
    ForwardTransitive(st, after, Note(e, after, entry, now));
  }

  // ---- Timers ----

  /** `AddTimer`. */
  function AddTimer(e: Env, st: State, principal: string, id: AppId, timer: string, delay: int, interval: int,
                    payload: string, now: int): Option<State>
  {
    var m := st.main;
    if id !in m.apps || m.apps[id].state == Tombstoned then None
    else if timer == "" || |timer| > 128 || delay <= 0 || interval < 0 || e.canon(payload).None? || |payload| > MAX_TEXT then None
    else if (id, timer) in m.timers then None
    else
      var main := m.(timers := m.timers[(id, timer) := Timer(now + delay, interval, payload)]);
      Some(Note(e, st.(main := main), Allow(principal, id, "timer.create", timer), now))
  }

  /** Side tables changed, then audited. */
  lemma SideKeeps(e: Env, st: State, timers: map<(AppId, string), Timer>, bindings: map<(AppId, string), Binding>,
                  pending: map<AppId, seq<Saved>>)
    requires Good(e, st) && BindingsOnward(st.main, st.main.(bindings := bindings))
    ensures var after := st.(main := st.main.(timers := timers, bindings := bindings, pending := pending));
            Good(e, after) && Forward(st, after)
  {
    hide MainOk, LogOk, AsksOk, MainOnward, BindingsOnward;
    SideMain(e, st.main, st.log.next, timers, bindings, pending);
  }

  /** A delivery together with the progress of its source: one state to commit. */
  ghost function Delivered(e: Env, st: State, id: AppId, key: string, raw: string,
                           timers: map<(AppId, string), Timer>, bindings: map<(AppId, string), Binding>,
                           pending: map<AppId, seq<Saved>>, now: int): State
  {
    var posted := Enqueued(e, st, "supervisor", id, key, raw, now);
    posted.(main := posted.main.(timers := timers, bindings := bindings, pending := pending))
  }

  lemma EnqueuedSides(e: Env, st: State, id: AppId, key: string, raw: string, now: int)
    ensures var posted := Enqueued(e, st, "supervisor", id, key, raw, now);
            posted.main == st.main.(mail := posted.main.mail) && posted.asks == st.asks
  {
  }

  lemma DeliveredKeeps(e: Env, st: State, id: AppId, key: string, raw: string,
                       timers: map<(AppId, string), Timer>, bindings: map<(AppId, string), Binding>,
                       pending: map<AppId, seq<Saved>>, now: int)
    requires Good(e, st) && BindingsOnward(st.main, st.main.(bindings := bindings))
    ensures var after := Delivered(e, st, id, key, raw, timers, bindings, pending, now);
            Good(e, after) && Forward(st, after) && after.asks == st.asks
  {
    hide Good, MainOnward, Enqueued, LogExtends;
    EnqueueKeeps(e, st, "supervisor", id, key, raw, now);
    EnqueuedSides(e, st, id, key, raw, now);
    var posted := Enqueued(e, st, "supervisor", id, key, raw, now);
    SideKeeps(e, posted, timers, bindings, pending);
    ForwardTransitive(st, posted, Delivered(e, st, id, key, raw, timers, bindings, pending, now));
  }

  function TimerKey(timer: string, due: int): string { Key("timer:", timer, due) }

  /** What one timer does in a delivery pass. */
  datatype Tick = Quiet | Fired(state: State) | Fault(error: MailError)

  /** One round of the loop in `deliverTimers`. */
  ghost function OneTimer(e: Env, st: State, k: (AppId, string), now: int): Tick {
    var m := st.main;
    if k !in m.timers then Quiet
    else if k.0 !in m.apps || m.apps[k.0].state == Tombstoned then Fired(st.(main := m.(timers := m.timers - {k})))
    else if m.timers[k].due > now then Quiet
    else
      var timer := m.timers[k];
      var key := TimerKey(k.1, timer.due);
      var r := Enqueue(e, st, "supervisor", k.0, key, timer.payload, now);
      if r == Refused(Full) then Quiet
      else if r.Refused? then Fault(r.error)
      else
        var timers := if timer.interval == 0 then m.timers - {k} else m.timers[k := timer.(due := now + timer.interval)];
        var moved := Delivered(e, st, k.0, key, timer.payload, timers, m.bindings, m.pending, now);
        Fired(Note(e, moved, Allow("supervisor", k.0, "timer.deliver", key), now))
  }

  /** `deliverTimers` over its sorted keys: the state to commit, or the fault that rolls everything back. */
  ghost function AllTimers(e: Env, st: State, keys: seq<(AppId, string)>, now: int): Result<State, MailError> {
    if keys == [] then Ok(st)
    else
      var before :- AllTimers(e, st, keys[..|keys| - 1], now);
      match OneTimer(e, before, keys[|keys| - 1], now)
      case Quiet => Ok(before)
      case Fired(after) => Ok(after)
      case Fault(error) => Err(error)
  }

  /** A timer of a live application moved only if the message it owed is in the mailbox. */
  ghost predicate TimerServed(a: Main, b: Main, k: (AppId, string)) {
    && k in a.timers
    && ((k in b.timers && b.timers[k] == a.timers[k])
        || k.0 !in a.apps || a.apps[k.0].state == Tombstoned
        || FindKey(BoxOf(b.mail, k.0), TimerKey(k.1, a.timers[k].due)) < |BoxOf(b.mail, k.0)|)
  }

  ghost predicate TimersServed(a: Main, b: Main) {
    forall k {:trigger TimerServed(a, b, k)} | k in a.timers :: TimerServed(a, b, k)
  }

  lemma OneTimerKeeps(e: Env, st: State, k: (AppId, string), now: int)
    requires Good(e, st) && OneTimer(e, st, k, now).Fired?
    ensures Good(e, OneTimer(e, st, k, now).state) && Forward(st, OneTimer(e, st, k, now).state)
  {
    hide Good, Forward, Note, Enqueue, Delivered, TimerKey;
    var m := st.main;
    if k.0 !in m.apps || m.apps[k.0].state == Tombstoned {
      SideKeeps(e, st, m.timers - {k}, m.bindings, m.pending);
    } else {
      var timer := m.timers[k];
      var key := TimerKey(k.1, timer.due);
      var timers := if timer.interval == 0 then m.timers - {k} else m.timers[k := timer.(due := now + timer.interval)];
      DeliveredKeeps(e, st, k.0, key, timer.payload, timers, m.bindings, m.pending, now);
      var moved := Delivered(e, st, k.0, key, timer.payload, timers, m.bindings, m.pending, now);
      NoteKeeps(e, moved, Allow("supervisor", k.0, "timer.deliver", key), now);
      ForwardTransitive(st, moved, OneTimer(e, st, k, now).state);
    }
  }

  /** The parts of the state a timer pass leaves alone. */
  predicate SameButTimers(a: Main, b: Main) { b == a.(mail := b.mail, timers := b.timers) }

  lemma OneTimerServes(e: Env, st: State, k: (AppId, string), now: int)
    requires OneTimer(e, st, k, now).Fired?
    ensures var after := OneTimer(e, st, k, now).state.main;
            SameButTimers(st.main, after) && TimersServed(st.main, after)
  {
    var m := st.main;
    var after := OneTimer(e, st, k, now).state.main;
    if k.0 in m.apps && m.apps[k.0].state != Tombstoned {
      hide Enqueue, Enqueued, TimerKey;
      EnqueueDelivers(e, st, "supervisor", k.0, TimerKey(k.1, m.timers[k].due), m.timers[k].payload, now);
    }
    assert SameButTimers(st.main, after);
    assert TimerServed(m, after, k);
    forall x | x in m.timers
      ensures TimerServed(m, after, x)
    {
    }
  }

  lemma ServedTransitive(a: Main, b: Main, c: Main)
    requires SameButTimers(a, b) && TimersServed(a, b) && TimersServed(b, c) && MailOnward(b.mail, c.mail)
    ensures TimersServed(a, c)
  {
    forall k | k in a.timers
      ensures TimerServed(a, c, k)
    {
      assert TimerServed(a, b, k);
      if k in b.timers {
        assert TimerServed(b, c, k);
      }
      if k.0 in b.mail && k.0 in c.mail {
        assert Onward(b.mail[k.0], c.mail[k.0]);
        var key := TimerKey(k.1, a.timers[k].due);
        if FindKey(b.mail[k.0], key) < |b.mail[k.0]| {
          FindKeyOnward(b.mail[k.0], c.mail[k.0], key);
        }
      }
    }
  }

  /** A whole pass keeps the invariant, takes nothing back and moves no live timer without its message. */
  lemma {:induction false} AllTimersKeep(e: Env, st: State, keys: seq<(AppId, string)>, now: int)
    requires Good(e, st) && AllTimers(e, st, keys, now).Ok?
    ensures var after := AllTimers(e, st, keys, now).value;
            && Good(e, after) && Forward(st, after) && after.asks == st.asks
            && SameButTimers(st.main, after.main) && TimersServed(st.main, after.main)
  {
    hide Good, MainOnward, TimersServed, OneTimer, MailOnward, Note;
    if keys == [] {
      OnwardRefl(st.main);
      ServedRefl(st.main);
    } else {
      var k := keys[|keys| - 1];
      AllTimersKeep(e, st, keys[..|keys| - 1], now);
      var before := AllTimers(e, st, keys[..|keys| - 1], now).value;
      if OneTimer(e, before, k, now).Fired? {
        var after := OneTimer(e, before, k, now).state;
        OneTimerKeeps(e, before, k, now);
        OneTimerServes(e, before, k, now);
        OneTimerAsks(e, before, k, now);
        ForwardTransitive(st, before, after);
        ForwardMail(before, after);
        ServedTransitive(st.main, before.main, after.main);
      }
    }
  }

  lemma ServedRefl(a: Main)
    ensures TimersServed(a, a)
  {
  }

  lemma ForwardMail(a: State, b: State)
    requires Forward(a, b)
    ensures MailOnward(a.main.mail, b.main.mail)
  {
  }

  lemma OneTimerAsks(e: Env, st: State, k: (AppId, string), now: int)
    requires OneTimer(e, st, k, now).Fired?
    ensures OneTimer(e, st, k, now).state.asks == st.asks
  {
  }

  // ---- Kernel records ----

  function KernelKey(id: AppId, boot: string, event: nat): string { Key("kernel:", id + ":" + boot, event) }

  function Records(m: Main, id: AppId): seq<Saved> { if id in m.pending then m.pending[id] else [] }

  function WithRecords(pending: map<AppId, seq<Saved>>, id: AppId, records: seq<Saved>): map<AppId, seq<Saved>> {
    if records == [] then pending - {id} else pending[id := records]
  }

  /** One round of `deliverPersistedKernelLocked`: the oldest kept record moves into the mailbox. */
  ghost function RecoverFirst(e: Env, st: State, id: AppId, now: int): Option<State> {
    var records := Records(st.main, id);
    if records == [] then None
    else
      var key, raw := KernelKey(id, records[0].boot, records[0].event.id), e.kernelWake(id, records[0].event);
      if Enqueue(e, st, "supervisor", id, key, raw, now).Refused? then None
      else Some(Delivered(e, st, id, key, raw, st.main.timers, st.main.bindings, WithRecords(st.main.pending, id, records[1..]), now))
  }

  /** `identifyKernelEventLocked`: a queue record seen before keeps the boot it was first stamped with. */
  function Identify(records: seq<Saved>, event: Event, boot: string): Saved {
    if records == [] then Saved(boot, boot, event)
    else if records[0].queueBoot == boot && records[0].event == event then Saved(records[0].boot, boot, event)
    else Identify(records[1..], event, boot)
  }

  /** The kept records other than those of one event. */
  function Without(records: seq<Saved>, boot: string, event: nat): seq<Saved> {
    if records == [] then []
    else
      var rest := Without(records[..|records| - 1], boot, event);
      var last := records[|records| - 1];
      if last.boot == boot && last.event.id == event then rest else rest + [last]
  }

  /** The delivery half of the drain loop: message and kept record in one commit, before the acknowledgement. */
  ghost function StageEvent(e: Env, st: State, id: AppId, event: Event, boot: string, now: int): Option<State> {
    var saved := Identify(Records(st.main, id), event, boot);
    var key, raw := KernelKey(id, saved.boot, event.id), e.kernelWake(id, event);
    if Enqueue(e, st, "supervisor", id, key, raw, now).Refused? then None
    else
      var records := Without(Records(st.main, id), saved.boot, event.id) + [saved];
      Some(Delivered(e, st, id, key, raw, st.main.timers, st.main.bindings, st.main.pending[id := records], now))
  }

  /** After the acknowledgement the kept record goes. */
  function DropEvent(st: State, id: AppId, saved: Saved): State {
    st.(main := st.main.(pending :=
      WithRecords(st.main.pending, id, Without(Records(st.main, id), saved.boot, saved.event.id))))
  }

  function IdentifyAll(records: seq<Saved>, events: seq<Event>, boot: string): seq<Saved> {
    seq(|events|, i requires 0 <= i < |events| => Identify(records, events[i], boot))
  }

  /** One application of `snapshotKernel`: its kept records become its queue. */
  function SnapOne(st: State, id: AppId, events: seq<Event>, boot: string): State {
    st.(main := st.main.(pending := WithRecords(st.main.pending, id, IdentifyAll(Records(st.main, id), events, boot))))
  }

  lemma RecoverFirstKeeps(e: Env, st: State, id: AppId, now: int)
    requires Good(e, st) && RecoverFirst(e, st, id, now).Some?
    ensures Good(e, RecoverFirst(e, st, id, now).value) && Forward(st, RecoverFirst(e, st, id, now).value)
    ensures RecoverFirst(e, st, id, now).value.asks == st.asks
  {
    hide Good, Forward, Enqueue, Delivered, KernelKey;
    var records := Records(st.main, id);
    DeliveredKeeps(e, st, id, KernelKey(id, records[0].boot, records[0].event.id), e.kernelWake(id, records[0].event),
                   st.main.timers, st.main.bindings, WithRecords(st.main.pending, id, records[1..]), now);
  }

  lemma StageEventKeeps(e: Env, st: State, id: AppId, event: Event, boot: string, now: int)
    requires Good(e, st) && StageEvent(e, st, id, event, boot, now).Some?
    ensures Good(e, StageEvent(e, st, id, event, boot, now).value) && Forward(st, StageEvent(e, st, id, event, boot, now).value)
    ensures StageEvent(e, st, id, event, boot, now).value.asks == st.asks
  {
    hide Good, Forward, Enqueue, Delivered, KernelKey, Identify, Without;
    var saved := Identify(Records(st.main, id), event, boot);
    var records := Without(Records(st.main, id), saved.boot, event.id) + [saved];
    DeliveredKeeps(e, st, id, KernelKey(id, saved.boot, event.id), e.kernelWake(id, event),
                   st.main.timers, st.main.bindings, st.main.pending[id := records], now);
  }

  lemma PendingKeeps(e: Env, st: State, pending: map<AppId, seq<Saved>>)
    requires Good(e, st)
    ensures Good(e, st.(main := st.main.(pending := pending))) && Forward(st, st.(main := st.main.(pending := pending)))
  {
    hide Good, Forward;
    SideKeeps(e, st, st.main.timers, st.main.bindings, pending);
  }

  // ---- Recovery ----

  function ReclaimAll(ms: seq<Msg>): seq<Msg> {
    seq(|ms|, i requires 0 <= i < |ms| => if ms[i].status == Claimed then ms[i].(status := Pending) else ms[i])
  }

  /** What `load` does for one application: claims of the previous incarnation are void. */
  function RecoverApp(e: Env, st: State, id: AppId, now: int): State {
    var m := st.main;
    if id !in m.apps then st
    else if m.apps[id].state == Tombstoned then
      st.(main := m.(mail := m.mail[id := ExpireAll(BoxOf(m.mail, id))]))
    else
      var app := m.apps[id].(generation := m.apps[id].generation + 1);
      var entry := Entry("supervisor", id, "application.recover", id, "allow", "new worker incarnation");
      Rewrite(e, st, id, app, ReclaimAll(BoxOf(m.mail, id)), entry, now)
  }

  /** Recovery of one application leaves everything but applications and mail, and no application appears or goes. */
  lemma RecoverAppShape(e: Env, st: State, id: AppId, now: int)
    ensures var b := RecoverApp(e, st, id, now);
            && b.main == st.main.(apps := b.main.apps, mail := b.main.mail) && b.main.apps.Keys == st.main.apps.Keys && b.asks == st.asks
  {
    hide ExpireAll, ReclaimAll, Rewrite;
    var m := st.main;
    if id in m.apps && m.apps[id].state != Tombstoned {
      RewriteShape(e, st, id, m.apps[id].(generation := m.apps[id].generation + 1), ReclaimAll(BoxOf(m.mail, id)),
                   Entry("supervisor", id, "application.recover", id, "allow", "new worker incarnation"), now);
    }
  }

  lemma RewriteShape(e: Env, st: State, id: AppId, app: App, ms: seq<Msg>, entry: Entry, now: int)
    requires id in st.main.apps
    ensures var b := Rewrite(e, st, id, app, ms, entry, now);
            && b.main == st.main.(apps := b.main.apps, mail := b.main.mail) && b.main.apps.Keys == st.main.apps.Keys && b.asks == st.asks
  {
    hide Audited;
  }

  function Recover(e: Env, st: State, order: seq<AppId>, now: int): State {
    if order == [] then st else RecoverApp(e, Recover(e, st, order[..|order| - 1], now), order[|order| - 1], now)
  }

  lemma ReclaimIs(e: Env, bits: Bits, ms: seq<Msg>)
    requires Tainted(e, bits, ms)
    ensures Restatus(ms, ReclaimAll(ms)) && Tainted(e, bits, ReclaimAll(ms))
  {
  }

  lemma SetKeeps(e: Env, st: State, id: AppId, ms: seq<Msg>)
    requires Good(e, st) && id in st.main.apps && id in st.main.mail
    requires Restatus(st.main.mail[id], ms) && Tainted(e, st.main.apps[id].taint, ms)
    ensures var after := st.(main := st.main.(mail := st.main.mail[id := ms]));
            Good(e, after) && Forward(st, after)
  {
    hide MainOk, LogOk, AsksOk, MainOnward, Tainted, Restatus;
    var m := st.main;
    SetMain(e, m, st.log.next, id, m.apps[id], ms);
    assert m.apps[id := m.apps[id]] == m.apps;
  }

  lemma ExpireKeeps(e: Env, st: State, id: AppId)
    requires Good(e, st) && id in st.main.apps
    ensures var after := st.(main := st.main.(mail := st.main.mail[id := ExpireAll(BoxOf(st.main.mail, id))]));
            Good(e, after) && Forward(st, after)
  {
    hide Good, Forward, ExpireAll, Tainted, Restatus;
    BoxTainted(e, st, id);
    ExpireIs(e, st.main.apps[id].taint, st.main.mail[id]);
    SetKeeps(e, st, id, ExpireAll(st.main.mail[id]));
  }

  lemma ReclaimKeeps(e: Env, st: State, id: AppId, app: App, entry: Entry, now: int)
    requires Good(e, st) && id in st.main.apps && Kept(st.main.apps[id], app) && app.taint == st.main.apps[id].taint
    ensures var after := Rewrite(e, st, id, app, ReclaimAll(BoxOf(st.main.mail, id)), entry, now);
            Good(e, after) && Forward(st, after)
  {
    BoxTainted(e, st, id);
    hide Good, Forward, Rewrite, ReclaimAll, Tainted, Restatus, Kept;
    ReclaimIs(e, app.taint, st.main.mail[id]);
    RewriteKeeps(e, st, id, app, ReclaimAll(st.main.mail[id]), entry, now);
  }

  lemma RecoverAppKeeps(e: Env, st: State, id: AppId, now: int)
    requires Good(e, st)
    ensures Good(e, RecoverApp(e, st, id, now)) && Forward(st, RecoverApp(e, st, id, now))
  {
    hide Good, Forward, Rewrite, ReclaimAll, ExpireAll;
    ForwardRefl(st);
    var m := st.main;
    if id in m.apps {
      if m.apps[id].state == Tombstoned {
        ExpireKeeps(e, st, id);
      } else {
        ReclaimKeeps(e, st, id, m.apps[id].(generation := m.apps[id].generation + 1),
                     Entry("supervisor", id, "application.recover", id, "allow", "new worker incarnation"), now);
      }
    }
  }

  lemma {:induction false} RecoverKeeps(e: Env, st: State, order: seq<AppId>, now: int)
    requires Good(e, st)
    ensures Good(e, Recover(e, st, order, now)) && Forward(st, Recover(e, st, order, now))
  {
    hide Good, Forward, RecoverApp;
    if order == [] {
      ForwardRefl(st);
    } else {
      var before := Recover(e, st, order[..|order| - 1], now);
      RecoverKeeps(e, st, order[..|order| - 1], now);
      RecoverAppKeeps(e, before, order[|order| - 1], now);
      ForwardTransitive(st, before, Recover(e, st, order, now));
    }
  }

  lemma ForwardRefl(st: State)
    ensures Forward(st, st)
  {
    OnwardRefl(st.main);
  }
}
