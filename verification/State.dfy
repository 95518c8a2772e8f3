/**
 * The supervisor's durable state and what holds of it in every committed state.
 */
module SupervisorState {
  import opened Wrappers
  import opened Mailboxes
  import opened AuditChain
  import opened Confirmations
  import opened Sums
  import UsageLedger
  import ContextStore

  /** The bit numbers set in a 64-bit mask. */
  type Bits = set<nat>

  type Word = n: nat | n <= UsageLedger.MAX_UINT64

  const MAX_TEXT := 0x4_0000

  datatype AppState = Serving | Frozen | Tombstoned

  datatype Wake = OnEvent | Manual | OnQuiescent

  datatype App = App(
    owner: string, context: ContextStore.ContextId, parent: Option<AppId>, state: AppState, wake: Wake,
    created: int, retired: int, used: Word, limit: Word, taint: Bits, generation: nat, checkpoint: string)

  datatype Usage = Usage(input: Word, output: Word)

  datatype Outcome = Completed | Failed | BudgetExhausted | WhenRetired

  /** A turn's result, first prepared and then settled. */
  datatype Turn = Turn(app: AppId, text: string, usage: Usage, outcome: Outcome, checkpoint: string)

  datatype Timer = Timer(due: int, interval: int, payload: string)

  /** An LSFS binding. `start` remembers the cursor it was created with. */
  datatype Binding = Binding(ref: ContextStore.ContextId, start: nat, cursor: nat, enabled: bool)

  /** A record of the kernel's queue. */
  datatype Event = Event(application: nat, id: nat, order: nat, kind: nat, coalesced: nat, data: nat)

  /** A queue record kept by the supervisor, stamped with the boot that minted it. */
  datatype Saved = Saved(boot: string, queueBoot: string, event: Event)

  datatype Main = Main(
    apps: map<AppId, App>,
    mail: Mail,
    results: map<nat, Turn>,
    prepared: map<nat, Turn>,
    timers: map<(AppId, string), Timer>,
    bindings: map<(AppId, string), Binding>,
    pending: map<AppId, seq<Saved>>)

  datatype State = State(main: Main, log: Log, asks: Asks)

  /** JSON, hashing and signatures, and the manifest's export mask. */
  datatype Env = Env(
    canon: string -> Option<string>,
    taintOf: string -> Bits,
    prefixOf: string -> string,
    kernelWake: (AppId, Event) -> string,
    lsfsWake: (string, ContextStore.Commit) -> string,
    turnBytes: (string, string) -> string,
    hash: Hasher,
    verifies: Verifier,
    exportMask: Bits)

  // ---- Invariants ----

  predicate Used(m: Msg) { m.status == Claimed || m.status == Acked }

  /** Every claimed or acknowledged message's declared taint is in the application's bits. */
  ghost predicate Tainted(e: Env, bits: Bits, ms: seq<Msg>) {
    forall i | 0 <= i < |ms| :: Used(ms[i]) ==> e.taintOf(ms[i].payload) <= bits
  }

  ghost predicate TaintOk(e: Env, apps: map<AppId, App>, mail: Mail) {
    forall id {:trigger Tainted(e, apps[id].taint, mail[id])} | id in mail && id in apps ::
      Tainted(e, apps[id].taint, mail[id])
  }

  function Cost(t: Turn): nat { t.usage.input + t.usage.output }

  ghost function Costs(results: map<nat, Turn>, id: AppId): map<nat, nat> {
    map n | n in results :: if results[n].app == id then Cost(results[n]) else 0
  }

  /** The exact total usage of an application's committed results. */
  ghost function Spent(results: map<nat, Turn>, id: AppId): nat { Total(Costs(results, id)) }

  ghost predicate Charged(results: map<nat, Turn>, id: AppId, app: App) {
    app.used == UsageLedger.Min(UsageLedger.MAX_UINT64, Spent(results, id))
  }

  ghost predicate TokensOk(apps: map<AppId, App>, results: map<nat, Turn>) {
    forall id {:trigger Charged(results, id, apps[id])} | id in apps :: Charged(results, id, apps[id])
  }

  /** The message a number names in its application's mailbox. */
  predicate Holds(mail: Mail, id: AppId, n: nat) { id in mail && Find(mail[id], n) < |mail[id]| }

  function Message(mail: Mail, id: AppId, n: nat): Msg
    requires Holds(mail, id, n)
  {
    mail[id][Find(mail[id], n)]
  }

  /** A settled message is acknowledged. */
  ghost predicate ResultOk(mail: Mail, n: nat, t: Turn) { Holds(mail, t.app, n) && Message(mail, t.app, n).status == Acked }

  /** A prepared message has been consumed, so its taint is already charged. */
  ghost predicate PreparedOk(e: Env, apps: map<AppId, App>, mail: Mail, n: nat, t: Turn) {
    && Holds(mail, t.app, n) && t.app in apps
    && e.taintOf(Message(mail, t.app, n).payload) <= apps[t.app].taint
  }

  ghost predicate ResultsOk(mail: Mail, results: map<nat, Turn>) {
    forall n {:trigger ResultOk(mail, n, results[n])} | n in results :: ResultOk(mail, n, results[n])
  }

  ghost predicate PreparedsOk(e: Env, apps: map<AppId, App>, mail: Mail, prepared: map<nat, Turn>) {
    forall n {:trigger PreparedOk(e, apps, mail, n, prepared[n])} | n in prepared :: PreparedOk(e, apps, mail, n, prepared[n])
  }

  ghost predicate MainOk(e: Env, m: Main, next: nat) {
    && m.mail.Keys == m.apps.Keys && MailOk(m.mail, next)
    && TaintOk(e, m.apps, m.mail) && TokensOk(m.apps, m.results)
    && ResultsOk(m.mail, m.results) && PreparedsOk(e, m.apps, m.mail, m.prepared)
    && m.results.Keys !! m.prepared.Keys
  }

  ghost predicate Good(e: Env, st: State) {
    MainOk(e, st.main, st.log.next) && LogOk(e.hash, e.verifies, st.log) && AsksOk(st.asks)
  }

  // ---- What later states keep ----

  predicate AppOnward(a: App, b: App) {
    && b.owner == a.owner && b.context == a.context && b.parent == a.parent && b.created == a.created
    && a.taint <= b.taint && a.used <= b.used && a.generation <= b.generation
  }

  predicate AppsOnward(a: map<AppId, App>, b: map<AppId, App>) {
    && a.Keys <= b.Keys
    && forall id {:trigger AppOnward(a[id], b[id])} | id in a && id in b :: AppOnward(a[id], b[id])
  }

  predicate MailOnward(a: Mail, b: Mail) {
    && a.Keys <= b.Keys
    && forall id {:trigger Onward(a[id], b[id])} | id in a && id in b :: Onward(a[id], b[id])
  }

  predicate ResultsOnward(a: Main, b: Main) {
    && (forall n | n in a.results :: n in b.results && b.results[n] == a.results[n])
    && forall n | n in a.prepared :: n in b.results || (n in b.prepared && b.prepared[n] == a.prepared[n])
  }

  predicate BindingsOnward(a: Main, b: Main) {
    forall k | k in a.bindings :: k in b.bindings && a.bindings[k].cursor <= b.bindings[k].cursor &&
      b.bindings[k] == a.bindings[k].(cursor := b.bindings[k].cursor, enabled := b.bindings[k].enabled)
  }

  /**
   * Nothing durable is taken back: audit records, messages, acknowledgements, settled results, charged tokens
   * and taint bits only accumulate, and a prepared result is replaced only by its settlement.
   */
  predicate MainOnward(a: Main, b: Main) {
    AppsOnward(a.apps, b.apps) && MailOnward(a.mail, b.mail) && ResultsOnward(a, b) && BindingsOnward(a, b)
  }

  lemma OnwardTransitive(a: Main, b: Main, c: Main)
    requires MainOnward(a, b) && MainOnward(b, c)
    ensures MainOnward(a, c)
  {
    forall id | id in a.apps
      ensures id in c.apps && AppOnward(a.apps[id], c.apps[id])
    {
      assert AppOnward(a.apps[id], b.apps[id]);
      assert AppOnward(b.apps[id], c.apps[id]);
    }
    forall id | id in a.mail
      ensures id in c.mail && Onward(a.mail[id], c.mail[id])
    {
      assert Onward(a.mail[id], b.mail[id]);
      assert Onward(b.mail[id], c.mail[id]);
    }
  }

  lemma OnwardRefl(a: Main)
    ensures MainOnward(a, a)
  {
  }

  lemma HoldsOnward(a: Mail, b: Mail, next: nat, id: AppId, n: nat)
    requires MailOnward(a, b) && MailOk(b, next) && Holds(a, id, n)
    ensures Holds(b, id, n)
    ensures Message(b, id, n) == Message(a, id, n).(status := Message(b, id, n).status, attempts := Message(b, id, n).attempts)
    ensures Message(a, id, n).status == Acked ==> Message(b, id, n).status == Acked
  {
    assert Onward(a[id], b[id]) && BoxOk(b[id], next);
    FindOnward(a[id], b[id], next, n);
  }

  lemma ResultsCarry(a: Mail, b: Mail, next: nat, results: map<nat, Turn>)
    requires ResultsOk(a, results) && MailOnward(a, b) && MailOk(b, next)
    ensures ResultsOk(b, results)
  {
    hide MailOk, MailOnward, Holds, Message;
    forall n | n in results
      ensures ResultOk(b, n, results[n])
    {
      assert ResultOk(a, n, results[n]);
      HoldsOnward(a, b, next, results[n].app, n);
    }
  }

  lemma PreparedsCarry(e: Env, aa: map<AppId, App>, bb: map<AppId, App>, a: Mail, b: Mail, next: nat, prepared: map<nat, Turn>)
    requires PreparedsOk(e, aa, a, prepared) && AppsOnward(aa, bb) && MailOnward(a, b) && MailOk(b, next)
    ensures PreparedsOk(e, bb, b, prepared)
  {
    hide MailOk, MailOnward, Holds, Message;
    forall n | n in prepared
      ensures PreparedOk(e, bb, b, n, prepared[n])
    {
      assert PreparedOk(e, aa, a, n, prepared[n]);
      HoldsOnward(a, b, next, prepared[n].app, n);
      assert AppOnward(aa[prepared[n].app], bb[prepared[n].app]);
    }
  }

  // ---- Moves on the main state ----

  lemma NextMain(e: Env, m: Main, next: nat, more: nat)
    requires MainOk(e, m, next) && next <= more
    ensures MainOk(e, m, more)
  {
    NextKeeps(m.mail, next, more);
  }

  lemma PushOnward(mail: Mail, id: AppId, msg: Msg)
    requires id in mail
    ensures MailOnward(mail, mail[id := mail[id] + [msg]])
  {
    var after := mail[id := mail[id] + [msg]];
    forall x | x in mail
      ensures Onward(mail[x], after[x])
    {
    }
  }

  lemma PushTaint(e: Env, apps: map<AppId, App>, mail: Mail, id: AppId, msg: Msg)
    requires TaintOk(e, apps, mail) && id in mail && msg.status == Pending
    ensures TaintOk(e, apps, mail[id := mail[id] + [msg]])
  {
    var after := mail[id := mail[id] + [msg]];
    forall x | x in after && x in apps
      ensures Tainted(e, apps[x].taint, after[x])
    {
      assert Tainted(e, apps[x].taint, mail[x]);
    }
  }

  /** A new message. */
  lemma PushMain(e: Env, m: Main, next: nat, id: AppId, msg: Msg)
    requires MainOk(e, m, next) && id in m.mail && msg.number == next + 1 && msg.status == Pending
    requires forall i | 0 <= i < |m.mail[id]| :: m.mail[id][i].key != msg.key
    requires Admits(m.mail, id, msg.payload)
    ensures var after := m.(mail := m.mail[id := m.mail[id] + [msg]]);
            MainOk(e, after, next + 1) && MainOnward(m, after)
  {
    PushKeeps(m.mail, id, msg, next);
    PushOnward(m.mail, id, msg);
    PushTaint(e, m.apps, m.mail, id, msg);
    hide MailOk, TaintOk, MailOnward, ResultsOk, PreparedsOk, TokensOk, Admits;
    var mail := m.mail[id := m.mail[id] + [msg]];
    ResultsCarry(m.mail, mail, next + 1, m.results);
    PreparedsCarry(e, m.apps, m.apps, m.mail, mail, next + 1, m.prepared);
  }

  /** An application's record may change as long as its identity stays and nothing it accumulated shrinks. */
  predicate Kept(a: App, b: App) { AppOnward(a, b) && b.used == a.used }

  lemma SetAppOnward(apps: map<AppId, App>, id: AppId, app: App)
    requires id in apps && AppOnward(apps[id], app)
    ensures AppsOnward(apps, apps[id := app])
  {
  }

  lemma SetBoxOnward(mail: Mail, id: AppId, ms: seq<Msg>)
    requires id in mail && Restatus(mail[id], ms)
    ensures MailOnward(mail, mail[id := ms])
  {
    var after := mail[id := ms];
    forall x | x in mail
      ensures Onward(mail[x], after[x])
    {
    }
  }

  lemma SetTaint(e: Env, apps: map<AppId, App>, mail: Mail, id: AppId, app: App, ms: seq<Msg>)
    requires TaintOk(e, apps, mail) && id in apps && Tainted(e, app.taint, ms)
    ensures TaintOk(e, apps[id := app], mail[id := ms])
  {
    var boxes, all := mail[id := ms], apps[id := app];
    forall x | x in boxes && x in all
      ensures Tainted(e, all[x].taint, boxes[x])
    {
      assert x != id ==> Tainted(e, apps[x].taint, mail[x]);
    }
  }

  lemma SetTokens(apps: map<AppId, App>, results: map<nat, Turn>, id: AppId, app: App)
    requires TokensOk(apps, results) && id in apps && app.used == apps[id].used
    ensures TokensOk(apps[id := app], results)
  {
    var all := apps[id := app];
    forall x | x in all
      ensures Charged(results, x, all[x])
    {
      assert Charged(results, x, apps[x]);
    }
  }

  /** New statuses in one mailbox, with its application's record brought along. */
  lemma SetMain(e: Env, m: Main, next: nat, id: AppId, app: App, ms: seq<Msg>)
    requires MainOk(e, m, next) && id in m.mail && id in m.apps
    requires Restatus(m.mail[id], ms) && Kept(m.apps[id], app) && Tainted(e, app.taint, ms)
    ensures var after := m.(apps := m.apps[id := app], mail := m.mail[id := ms]);
            MainOk(e, after, next) && MainOnward(m, after)
  {
    RestatusKeeps(m.mail, id, ms, next);
    SetAppOnward(m.apps, id, app);
    SetBoxOnward(m.mail, id, ms);
    SetTaint(e, m.apps, m.mail, id, app, ms);
    SetTokens(m.apps, m.results, id, app);
    hide MailOk, TaintOk, MailOnward, AppsOnward, ResultsOk, PreparedsOk, TokensOk, Restatus, Tainted;
    var mail, apps := m.mail[id := ms], m.apps[id := app];
    ResultsCarry(m.mail, mail, next, m.results);
    PreparedsCarry(e, m.apps, apps, m.mail, mail, next, m.prepared);
  }

  /** Timers, bindings and kernel records are outside the invariant. */
  lemma SideMain(e: Env, m: Main, next: nat, timers: map<(AppId, string), Timer>,
                 bindings: map<(AppId, string), Binding>, pending: map<AppId, seq<Saved>>)
    requires MainOk(e, m, next) && BindingsOnward(m, m.(bindings := bindings))
    ensures var after := m.(timers := timers, bindings := bindings, pending := pending);
            MainOk(e, after, next) && MainOnward(m, after)
  {
  }

  lemma NothingSpent(mail: Mail, results: map<nat, Turn>, id: AppId)
    requires ResultsOk(mail, results) && id !in mail
    ensures Spent(results, id) == 0
  {
    forall n | n in results
      ensures Costs(results, id)[n] == 0
    {
      assert ResultOk(mail, n, results[n]);
    }
    TotalZero(Costs(results, id));
  }

  lemma CreateTokens(apps: map<AppId, App>, mail: Mail, results: map<nat, Turn>, id: AppId, app: App)
    requires TokensOk(apps, results) && ResultsOk(mail, results) && id !in mail && app.used == 0
    ensures TokensOk(apps[id := app], results)
  {
    NothingSpent(mail, results, id);
    var all := apps[id := app];
    forall x | x in all
      ensures Charged(results, x, all[x])
    {
      assert x != id ==> Charged(results, x, apps[x]);
    }
  }

  lemma CreateOnward(apps: map<AppId, App>, mail: Mail, id: AppId, app: App)
    requires id !in apps && id !in mail
    ensures AppsOnward(apps, apps[id := app]) && MailOnward(mail, mail[id := []])
  {
    forall x | x in mail
      ensures Onward(mail[x], mail[id := []][x])
    {
    }
  }

  /** A new application with an empty mailbox. */
  lemma CreateMain(e: Env, m: Main, next: nat, id: AppId, app: App)
    requires MainOk(e, m, next) && id !in m.apps && app.used == 0
    ensures var after := m.(apps := m.apps[id := app], mail := m.mail[id := []]);
            MainOk(e, after, next) && MainOnward(m, after)
  {
    OpenKeeps(m.mail, next, id);
    CreateOnward(m.apps, m.mail, id, app);
    CreateTokens(m.apps, m.mail, m.results, id, app);
    var mail, apps := m.mail[id := []], m.apps[id := app];
    assert TaintOk(e, apps, mail) by {
      forall x | x in mail && x in apps
        ensures Tainted(e, apps[x].taint, mail[x])
      {
        assert x != id ==> Tainted(e, m.apps[x].taint, m.mail[x]);
      }
    }
    hide MailOk, TaintOk, MailOnward, AppsOnward, ResultsOk, PreparedsOk, TokensOk;
    ResultsCarry(m.mail, mail, next, m.results);
    PreparedsCarry(e, m.apps, apps, m.mail, mail, next, m.prepared);
  }

  /** Fixing a turn's result before it is settled. */
  lemma PrepareMain(e: Env, m: Main, next: nat, n: nat, t: Turn)
    requires MainOk(e, m, next) && n !in m.results && n !in m.prepared && PreparedOk(e, m.apps, m.mail, n, t)
    ensures var after := m.(prepared := m.prepared[n := t]);
            MainOk(e, after, next) && MainOnward(m, after)
  {
    hide MailOk, TaintOk, TokensOk, ResultsOk, PreparedOk;
    var after := m.prepared[n := t];
    forall x | x in after
      ensures PreparedOk(e, m.apps, m.mail, x, after[x])
    {
      assert x != n ==> PreparedOk(e, m.apps, m.mail, x, m.prepared[x]);
    }
  }

  lemma SpentAdds(results: map<nat, Turn>, n: nat, t: Turn, id: AppId)
    requires n !in results
    ensures Spent(results[n := t], id) == Spent(results, id) + if t.app == id then Cost(t) else 0
  {
    var c := if t.app == id then Cost(t) else 0;
    assert Costs(results[n := t], id) == Costs(results, id)[n := c];
    TotalUpdate(Costs(results, id), n, c);
  }

  lemma SettleTokens(apps: map<AppId, App>, results: map<nat, Turn>, n: nat, t: Turn, app: App)
    requires TokensOk(apps, results) && n !in results && t.app in apps
    requires app.used == UsageLedger.Min(UsageLedger.MAX_UINT64, apps[t.app].used + Cost(t))
    ensures TokensOk(apps[t.app := app], results[n := t])
  {
    var all := apps[t.app := app];
    forall x | x in all
      ensures Charged(results[n := t], x, all[x])
    {
      assert Charged(results, x, apps[x]);
      SpentAdds(results, n, t, x);
    }
  }

  /** Marks every message with the number acknowledged. */
  function Acknowledged(ms: seq<Msg>, n: nat): seq<Msg> {
    seq(|ms|, i requires 0 <= i < |ms| => if ms[i].number == n then ms[i].(status := Acked) else ms[i])
  }

  lemma AcknowledgedIs(e: Env, ms: seq<Msg>, next: nat, n: nat, bits: Bits)
    requires Numbered(ms, next) && Find(ms, n) < |ms| && Tainted(e, bits, ms)
    requires e.taintOf(ms[Find(ms, n)].payload) <= bits
    ensures Restatus(ms, Acknowledged(ms, n)) && Tainted(e, bits, Acknowledged(ms, n))
    ensures Find(Acknowledged(ms, n), n) == Find(ms, n) && Acknowledged(ms, n)[Find(ms, n)].status == Acked
  {
    var f := Find(ms, n);
    forall i | 0 <= i < |ms| && ms[i].number == n
      ensures i == f
    {
      FindIs(ms, next, i);
    }
    FindIs(Acknowledged(ms, n), next, f);
  }

  ghost predicate Settles(m: Main, n: nat, t: Turn, app: App) {
    && n in m.prepared && t.app == m.prepared[n].app && t.usage == m.prepared[n].usage && t.app in m.apps
    && AppOnward(m.apps[t.app], app)
    && app.used == UsageLedger.Min(UsageLedger.MAX_UINT64, m.apps[t.app].used + Cost(t))
  }

  function Settlement(m: Main, n: nat, t: Turn, app: App): Main {
    m.(apps := m.apps[t.app := app], mail := m.mail[t.app := Acknowledged(BoxOf(m.mail, t.app), n)],
       results := m.results[n := t], prepared := m.prepared - {n})
  }

  lemma SettleMail(e: Env, m: Main, next: nat, n: nat, t: Turn, app: App)
    requires MainOk(e, m, next) && Settles(m, n, t, app)
    ensures var after := Settlement(m, n, t, app);
            && MailOk(after.mail, next) && TaintOk(e, after.apps, after.mail) && MailOnward(m.mail, after.mail)
            && after.mail.Keys == m.mail.Keys && ResultOk(after.mail, n, t)
  {
    var id := t.app;
    assert PreparedOk(e, m.apps, m.mail, n, m.prepared[n]) && BoxOk(m.mail[id], next);
    assert Tainted(e, m.apps[id].taint, m.mail[id]);
    AcknowledgedIs(e, m.mail[id], next, n, m.apps[id].taint);
    var ms := Acknowledged(m.mail[id], n);
    assert Tainted(e, app.taint, ms);
    hide MailOk, TaintOk, MailOnward, Restatus, Tainted, AppsOnward;
    RestatusKeeps(m.mail, id, ms, next);
    SetBoxOnward(m.mail, id, ms);
    SetTaint(e, m.apps, m.mail, id, app, ms);
  }

  lemma ResultsAdd(mail: Mail, results: map<nat, Turn>, n: nat, t: Turn)
    requires ResultsOk(mail, results) && ResultOk(mail, n, t)
    ensures ResultsOk(mail, results[n := t])
  {
    hide ResultOk;
    assert forall x | x in results :: ResultOk(mail, x, results[x]);
  }

  lemma PreparedsDrop(e: Env, apps: map<AppId, App>, mail: Mail, prepared: map<nat, Turn>, n: nat)
    requires PreparedsOk(e, apps, mail, prepared)
    ensures PreparedsOk(e, apps, mail, prepared - {n})
  {
    hide PreparedOk;
    assert forall x | x in prepared :: PreparedOk(e, apps, mail, x, prepared[x]);
  }

  /** Settling a prepared turn: charge, result, acknowledgement and the end of the prepared record in one move. */
  lemma SettleMain(e: Env, m: Main, next: nat, n: nat, t: Turn, app: App)
    requires MainOk(e, m, next) && Settles(m, n, t, app)
    ensures var after := Settlement(m, n, t, app);
            MainOk(e, after, next) && MainOnward(m, after)
  {
    hide MailOk, TaintOk, TokensOk, MailOnward, AppsOnward, ResultOk, PreparedOk, ResultsOk, PreparedsOk, AppOnward, Acknowledged;
    var after := Settlement(m, n, t, app);
    SettleMail(e, m, next, n, t, app);
    SetAppOnward(m.apps, t.app, app);
    SettleTokens(m.apps, m.results, n, t, app);
    ResultsCarry(m.mail, after.mail, next, m.results);
    ResultsAdd(after.mail, m.results, n, t);
    PreparedsCarry(e, m.apps, after.apps, m.mail, after.mail, next, m.prepared);
    PreparedsDrop(e, after.apps, after.mail, m.prepared, n);
  }
}
