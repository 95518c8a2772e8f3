/**
 * The supervisor as an object: its maps are updated in place by loops, and a failed
 * write restores the last committed state. Every method is proved to do what the
 * corresponding operation on states says.
 */
module SupervisorObject {
  import opened Wrappers
  import opened Mailboxes
  import opened AuditChain
  import opened Confirmations
  import opened SupervisorState
  import opened Operations
  import opened WakeBindings
  import opened System
  import opened Scheduler
  import ContextDatabase
  import CS = ContextStore

  /** Part of the mail, while it is being counted. */
  ghost function Part(mail: Mail, ids: set<AppId>): Mail { map id | id in mail && id in ids :: mail[id] }

  lemma PartGrows(k: Measure, mail: Mail, ids: set<AppId>, id: AppId)
    requires id in mail && id !in ids
    ensures TotalLoad(k, Part(mail, ids + {id})) == TotalLoad(k, Part(mail, ids)) + Load(k, mail[id])
  {
    assert Part(mail, ids + {id}) == Part(mail, ids)[id := mail[id]];
    ReplaceTotal(k, Part(mail, ids), id, mail[id]);
  }

  lemma PartBounds(mail: Mail)
    ensures Part(mail, mail.Keys) == mail && (forall k: Measure :: TotalLoad(k, Part(mail, {})) == 0)
  {
    assert Part(mail, {}) == map[];
    assert forall k: Measure :: Loads(k, map[]) == map[];
  }

  /** What a mailbox, or all of them, hold outstanding. */
  datatype Occupancy = Occupancy(messages: nat, bytes: nat) {
    /** `accepts`. */
    predicate Accepts(size: nat, maxMessages: nat, maxBytes: nat) { messages < maxMessages && bytes + size <= maxBytes }
  }

  method Outstandings(ms: seq<Msg>) returns (u: Occupancy)
    ensures u == Occupancy(Load(Messages, ms), Load(PayloadBytes, ms))
  {
    u := Occupancy(0, 0);
    for i := 0 to |ms|
      invariant u == Occupancy(Load(Messages, ms[..i]), Load(PayloadBytes, ms[..i]))
    {
      assert ms[..i + 1][..i] == ms[..i];
      if ms[i].status == Pending || ms[i].status == Claimed {
        u := Occupancy(u.messages + 1, u.bytes + |ms[i].payload|);
      }
    }
    assert ms[..|ms|] == ms;
  }

  /** The running total over part of the mail. */
  ghost function Counted(mail: Mail, left: set<AppId>): Occupancy {
    Occupancy(TotalLoad(Messages, Part(mail, mail.Keys - left)), TotalLoad(PayloadBytes, Part(mail, mail.Keys - left)))
  }

  lemma CountOne(mail: Mail, left: set<AppId>, x: AppId)
    requires left <= mail.Keys && x in left
    ensures Counted(mail, left - {x}) ==
              Occupancy(Counted(mail, left).messages + Load(Messages, mail[x]), Counted(mail, left).bytes + Load(PayloadBytes, mail[x]))
  {
    hide TotalLoad, Part;
    PartGrows(Messages, mail, mail.Keys - left, x);
    PartGrows(PayloadBytes, mail, mail.Keys - left, x);
    assert mail.Keys - (left - {x}) == mail.Keys - left + {x};
  }

  lemma CountBounds(mail: Mail)
    ensures Counted(mail, mail.Keys) == Occupancy(0, 0)
    ensures Counted(mail, {}) == Occupancy(TotalLoad(Messages, mail), TotalLoad(PayloadBytes, mail))
  {
    PartBounds(mail);
    assert mail.Keys - mail.Keys == {} && mail.Keys - {} == mail.Keys;
  }

  /** `mailboxCapacityLocked`: usage is derived from the statuses, one application and all together. */
  method Capacity(mail: Mail, id: AppId) returns (app: Occupancy, all: Occupancy)
    ensures app == Occupancy(Load(Messages, BoxOf(mail, id)), Load(PayloadBytes, BoxOf(mail, id)))
    ensures all == Occupancy(TotalLoad(Messages, mail), TotalLoad(PayloadBytes, mail))
  {
    hide Counted, Load, TotalLoad;
    app, all := Occupancy(0, 0), Occupancy(0, 0);
    EmptyLoad();
    CountBounds(mail);
    var left := mail.Keys;
    while left != {}
      invariant left <= mail.Keys && all == Counted(mail, left)
      invariant app == if id in mail && id !in left then Occupancy(Load(Messages, mail[id]), Load(PayloadBytes, mail[id])) else Occupancy(0, 0)
      decreases |left|
    {
      var x :| x in left;
      var u := Outstandings(mail[x]);
      CountOne(mail, left, x);
      all := Occupancy(all.messages + u.messages, all.bytes + u.bytes);
      if x == id {
        app := u;
      }
      left := left - {x};
    }
  }

  lemma EmptyLoad()
    ensures Load(Messages, []) == 0 && Load(PayloadBytes, []) == 0
  {
  }

  lemma AcceptsIsAdmits(mail: Mail, id: AppId, payload: string, app: Occupancy, all: Occupancy)
    requires app == Occupancy(Load(Messages, BoxOf(mail, id)), Load(PayloadBytes, BoxOf(mail, id)))
    requires all == Occupancy(TotalLoad(Messages, mail), TotalLoad(PayloadBytes, mail))
    ensures app.Accepts(|payload|, 256, 0x20_0000) && all.Accepts(|payload|, 1024, 0x100_0000) <==> Admits(mail, id, payload)
  {
    if app.Accepts(|payload|, 256, 0x20_0000) && all.Accepts(|payload|, 1024, 0x100_0000) {
      forall k: Measure
        ensures Load(k, BoxOf(mail, id)) + Size(k, payload) <= AppLimit(k) && TotalLoad(k, mail) + Size(k, payload) <= SystemLimit(k)
      {
        match k
        case Messages =>
        case PayloadBytes =>
      }
    }
    if Admits(mail, id, payload) {
      assert Load(Messages, BoxOf(mail, id)) + Size(Messages, payload) <= AppLimit(Messages);
      assert Load(PayloadBytes, BoxOf(mail, id)) + Size(PayloadBytes, payload) <= AppLimit(PayloadBytes);
      assert TotalLoad(Messages, mail) + Size(Messages, payload) <= SystemLimit(Messages);
      assert TotalLoad(PayloadBytes, mail) + Size(PayloadBytes, payload) <= SystemLimit(PayloadBytes);
    }
  }

  /** The search loop of `enqueueLocked`. */
  method SearchKey(ms: seq<Msg>, key: string) returns (i: nat)
    ensures i == FindKey(ms, key)
  {
    i := 0;
    while i < |ms|
      invariant i <= |ms| && forall j | 0 <= j < i :: ms[j].key != key
    {
      if ms[i].key == key {
        return;
      }
      i := i + 1;
    }
  }

  method Search(ms: seq<Msg>, number: nat) returns (i: nat)
    ensures i == Find(ms, number)
  {
    i := 0;
    while i < |ms|
      invariant i <= |ms| && forall j | 0 <= j < i :: ms[j].number != number
    {
      if ms[i].number == number {
        return;
      }
      i := i + 1;
    }
  }

  /** The pending messages, oldest first, as a claim hands them out. */
  function Handed(ms: seq<Msg>): (out: seq<Msg>)
    ensures out == [] <==> forall i | 0 <= i < |ms| :: ms[i].status != Pending
    ensures forall m | m in out :: m.status == Claimed && m.(status := Pending) in ms
    ensures forall i | 0 <= i < |ms| && ms[i].status == Pending :: ms[i].(status := Claimed) in out
  {
    if ms == [] then []
    else
      var front, last := Handed(ms[..|ms| - 1]), ms[|ms| - 1];
      assert forall i | 0 <= i < |ms| - 1 :: ms[..|ms| - 1][i] == ms[i];
      if last.status == Pending then front + [last.(status := Claimed)] else front
  }

  lemma HandedNone(ms: seq<Msg>)
    ensures Handed(ms) == [] <==> FirstPending(ms) == |ms|
  {
  }

  lemma HandedSnoc(ms: seq<Msg>, i: nat)
    requires i < |ms|
    ensures Handed(ms[..i + 1]) == Handed(ms[..i]) + (if ms[i].status == Pending then [ms[i].(status := Claimed)] else [])
  {
    assert ms[..i + 1][..i] == ms[..i];
  }

  /** The claim loop: one pass over the mailbox, folding in each claimed message's taint. */
  method ClaimPending(e: Env, ms: seq<Msg>, taint: Bits) returns (box: seq<Msg>, bits: Bits, claimed: seq<Msg>)
    ensures box == ClaimAll(ms) && bits == taint + PendingTaint(e, ms)
    ensures claimed == Handed(ms)
  {
    box, bits, claimed := ms, taint, [];
    hide ClaimAll, PendingTaint, FirstPending;
    ClaimStart(e, ms, taint);
    for i := 0 to |ms|
      invariant claimed == Handed(ms[..i])
      invariant box == ClaimAll(ms[..i]) + ms[i..] && bits == taint + PendingTaint(e, ms[..i])
    {
      ClaimAllSnoc(ms, i);
      HandedSnoc(ms, i);
      TaintSnoc(e, ms, taint, i);
      if box[i].status == Pending {
        box := box[i := box[i].(status := Claimed)];
        bits := bits + e.taintOf(box[i].payload);
        claimed := claimed + [box[i]];
      }
    }
    ClaimEnd(e, ms, taint);
  }

  class Supervisor {
    const e: Env
    var apps: map<AppId, App>
    var mail: Mail
    var results: map<nat, Turn>
    var prepared: map<nat, Turn>
    var timers: map<(AppId, string), Timer>
    var bindings: map<(AppId, string), Binding>
    var pending: map<AppId, seq<Saved>>
    var log: Log
    var asks: Asks
    var committed: State

    function Now(): State
      reads this
    {
      State(Main(apps, mail, results, prepared, timers, bindings, pending), log, asks)
    }

    constructor (e: Env)
      ensures this.e == e && Now() == committed == State(Main(map[], map[], map[], map[], map[], map[], map[]), Log([], 0, []), map[])
    {
      this.e := e;
      apps, mail, results, prepared := map[], map[], map[], map[];
      timers, bindings, pending, log, asks := map[], map[], map[], Log([], 0, []), map[];
      committed := State(Main(map[], map[], map[], map[], map[], map[], map[]), Log([], 0, []), map[]);
    }

    /** `restoreLocked`. */
    method Restore()
      modifies this
      ensures committed == old(committed) && Now() == committed
    {
      var m := committed.main;
      apps, mail, results, prepared := m.apps, m.mail, m.results, m.prepared;
      timers, bindings, pending := m.timers, m.bindings, m.pending;
      log, asks := committed.log, committed.asks;
    }

    /** `persistLocked`: all or nothing. */
    method Persist(ok: bool)
      modifies this
      ensures if ok then Now() == old(Now()) && committed == old(Now()) else Now() == committed == old(committed)
    {
      if ok {
        committed := Now();
      } else {
        Restore();
      }
    }

    method Audit(entry: Entry, now: int)
      modifies this`log
      ensures Now() == Note(e, old(Now()), entry, now)
    {
      var body := Body(log.next + 1, now, entry, Head(log.records));
      log := log.(next := log.next + 1);
      log := log.(records := log.records + [AuditChain.Record(body, e.hash(body))]);
    }

    /** `enqueueLocked`: stages a message; a refused one changes nothing. */
    method EnqueueLocked(principal: string, id: AppId, key: string, raw: string, now: int) returns (r: Result<Msg, MailError>)
      modifies this`mail, this`log
      ensures match Enqueue(e, old(Now()), principal, id, key, raw, now)
              case Refused(error) => r == Err(error) && Now() == old(Now())
              case Existing(msg) => r == Ok(msg) && Now() == old(Now())
              case Added(after, msg) => r == Ok(msg) && Now() == after
    {
      hide Admits, Note;
      if id !in apps {
        return Err(NoApp);
      }
      if apps[id].state == Tombstoned {
        return Err(AppRetired);
      }
      if key == "" || |key| > MAX_MAIL_KEY {
        return Err(BadKey);
      }
      var encoded := e.canon(raw);
      if encoded.None? || |raw| > 6 * MAX_TEXT {
        return Err(BadPayload);
      }
      var payload, box := encoded.value, BoxOf(mail, id);
      var i := SearchKey(box, key);
      if i < |box| {
        if box[i].payload != payload {
          return Err(KeyReused);
        }
        return Ok(box[i]);
      }
      var app, all := Capacity(mail, id);
      AcceptsIsAdmits(mail, id, payload, app, all);
      if !app.Accepts(|payload|, 256, 0x20_0000) || !all.Accepts(|payload|, 1024, 0x100_0000) {
        return Err(Full);
      }
      var msg := Push(principal, id, key, payload, now);
      return Ok(msg);
    }

    /** Appends an admitted message, with the next number, and its audit record. */
    method Push(principal: string, id: AppId, key: string, payload: string, now: int) returns (msg: Msg)
      modifies this`mail, this`log
      ensures msg == Msg(key, payload, Pending, old(log.next) + 1, now, 0)
      ensures var was := old(Now());
              var pushed := was.(main := was.main.(mail := was.main.mail[id := BoxOf(was.main.mail, id) + [msg]]), log := was.log.(next := was.log.next + 1));
              Now() == Note(e, pushed, Allow(principal, id, "mailbox.enqueue", key), now)
    {
      hide Note;
      log := log.(next := log.next + 1);
      msg := Msg(key, payload, Pending, log.next, now, 0);
      mail := mail[id := BoxOf(mail, id) + [msg]];
      Audit(Allow(principal, id, "mailbox.enqueue", key), now);
    }

    /** What a write attempt leaves behind. */
    predicate Wrote(st: State, was: State, ok: bool)
      reads this
    {
      if ok then Now() == st && committed == st else Now() == was && committed == was
    }

    /** `Enqueue`: the three source prefixes are reserved; only a new message is written. */
    method Send(principal: string, id: AppId, key: string, raw: string, now: int, ok: bool) returns (r: Result<Msg, MailError>)
      modifies this
      ensures if Reserved(key) || |raw| > MAX_TEXT then r.Err? && Now() == old(Now()) && committed == old(committed)
              else match Enqueue(e, old(Now()), principal, id, key, raw, now)
                   case Refused(error) => r == Err(error) && Now() == old(Now()) && committed == old(committed)
                   case Existing(msg) => r == Ok(msg) && Now() == old(Now()) && committed == old(committed)
                   case Added(after, msg) => Wrote(after, old(committed), ok) && r == if ok then Ok(msg) else Err(NotWritten)
    {
      if Reserved(key) {
        return Err(BadKey);
      }
      if |raw| > MAX_TEXT {
        return Err(BadPayload);
      }
      var before := log.next;
      r := EnqueueLocked(principal, id, key, raw, now);
      EnqueueNumbers(e, old(Now()), principal, id, key, raw, now);
      if r.Err? {
        return;
      }
      if log.next != before {
        Persist(ok);
        if !ok {
          return Err(NotWritten);
        }
      }
    }

    /** `ClaimMailbox`: hands out what is pending, once the claim is written. */
    method ClaimMailbox(principal: string, id: AppId, now: int, ok: bool) returns (r: Result<seq<Msg>, MailError>)
      modifies this
      ensures match Operations.ClaimMailbox(e, old(Now()), principal, id, now)
              case None => Now() == old(Now()) && committed == old(committed)
              case Some(st) => Wrote(st, old(committed), ok)
      ensures r == if id !in old(apps) then Err(NoApp)
                   else if old(apps)[id].state == Tombstoned then Err(AppRetired)
                   else if ok || Handed(BoxOf(old(mail), id)) == [] then Ok(Handed(BoxOf(old(mail), id))) else Err(NotWritten)
    {
      hide ClaimAll, PendingTaint, Audited, Handed;
      if id !in apps {
        return Err(NoApp);
      }
      if apps[id].state == Tombstoned {
        return Err(AppRetired);
      }
      HandedNone(BoxOf(mail, id));
      var box, bits, claimed := ClaimPending(e, BoxOf(mail, id), apps[id].taint);
      ClaimEnd(e, BoxOf(mail, id), apps[id].taint);
      if claimed != [] {
        mail := mail[id := box];
        apps := apps[id := apps[id].(taint := bits)];
        Audit(Allow(principal, id, "mailbox.claim", id), now);
        Persist(ok);
        if !ok {
          return Err(NotWritten);
        }
      }
      return Ok(claimed);
    }

    /** `AckMailbox`. */
    method AckMailbox(principal: string, id: AppId, n: nat, now: int, ok: bool) returns (done: bool)
      requires mail.Keys == apps.Keys
      modifies this
      ensures match Operations.AckMailbox(e, old(Now()), principal, id, n, now)
              case None => Now() == old(Now()) && committed == old(committed)
              case Some(st) => Wrote(st, old(committed), ok)
      ensures done <==> (ok && Operations.AckMailbox(e, old(Now()), principal, id, n, now).Some?)
                        || (var box := BoxOf(old(mail), id); Find(box, n) < |box| && box[Find(box, n)].status == Acked)
    {
      var box := BoxOf(mail, id);
      var i := Search(box, n);
      if i == |box| {
        return false;
      }
      if box[i].status == Acked {
        return true;
      }
      if box[i].status != Claimed {
        return false;
      }
      mail := mail[id := mail[id][i := mail[id][i].(status := Acked)]];
      assert apps[id := apps[id]] == apps;
      Audit(Allow(principal, id, "mailbox.ack", MessageId(n)), now);
      Persist(ok);
      return ok;
    }

    /** `expireMailboxLocked`. */
    method ExpireMailbox(id: AppId)
      requires id in mail
      modifies this`mail
      ensures mail == old(mail)[id := ExpireAll(old(mail)[id])]
    {
      ghost var box := mail[id];
      assert ExpireAll(box[..0]) + box[0..] == box;
      for i := 0 to |mail[id]|
        invariant id in mail && mail == old(mail)[id := ExpireAll(box[..i]) + box[i..]]
      {
        ExpireAllSnoc(box, i);
        if Outstanding(mail[id][i]) {
          mail := mail[id := mail[id][i := mail[id][i].(status := Expired)]];
        }
      }
      assert box[..|box|] == box && ExpireAll(box) + box[|box|..] == ExpireAll(box);
    }

    method DisableBindings(id: AppId)
      modifies this`bindings
      ensures bindings == DisableAll(old(bindings), id)
    {
      var left := bindings.Keys;
      while left != {}
        invariant left <= old(bindings).Keys == bindings.Keys
        invariant forall k | k in bindings ::
                    bindings[k] == if k.0 == id && k !in left then old(bindings)[k].(enabled := false) else old(bindings)[k]
        decreases |left|
      {
        var k :| k in left;
        if k.0 == id {
          bindings := bindings[k := bindings[k].(enabled := false)];
        }
        left := left - {k};
      }
    }

    /** `RetireApplication`. */
    method Retire(principal: string, id: AppId, now: int, ok: bool)
      requires mail.Keys == apps.Keys
      modifies this
      ensures match Operations.Retire(e, old(Now()), principal, id, now)
              case None => Now() == old(Now()) && committed == old(committed)
              case Some(st) => Wrote(st, old(committed), ok)
    {
      hide ExpireAll, DisableAll, Note;
      if id !in apps || apps[id].state == Tombstoned {
        return;
      }
      Tombstone(principal, id, now);
      Persist(ok);
    }

    method Tombstone(principal: string, id: AppId, now: int)
      requires id in apps && id in mail && apps[id].state != Tombstoned
      modifies this`apps, this`mail, this`bindings, this`pending, this`log
      ensures Operations.Retire(e, old(Now()), principal, id, now) == Some(Now())
    {
      hide ExpireAll, DisableAll, Audited;
      apps := apps[id := apps[id].(retired := now)];
      Audit(Allow(principal, id, "application.retire", id), now);
      apps := apps[id := apps[id].(state := Tombstoned)];
      ExpireMailbox(id);
      pending := pending - {id};
      DisableBindings(id);
      assert apps == old(apps)[id := old(apps)[id].(state := Tombstoned, retired := now)];
    }

    // ---- Sources ----

    /** One round of the timer loop. */
    method FireTimer(k: (AppId, string), now: int) returns (r: Result<bool, MailError>)
      modifies this`mail, this`timers, this`log
      ensures match OneTimer(e, old(Now()), k, now)
              case Quiet => r == Ok(false) && Now() == old(Now())
              case Fired(after) => r == Ok(true) && Now() == after
              case Fault(error) => r == Err(error)
    {
      hide Enqueue, Audited, TimerKey;
      if k !in timers {
        return Ok(false);
      }
      if k.0 !in apps || apps[k.0].state == Tombstoned {
        timers := timers - {k};
        return Ok(true);
      }
      var timer := timers[k];
      if timer.due > now {
        return Ok(false);
      }
      var key := TimerKey(k.1, timer.due);
      EnqueuedSides(e, Now(), k.0, key, timer.payload, now);
      var posted := EnqueueLocked("supervisor", k.0, key, timer.payload, now);
      if posted == Err(Full) {
        return Ok(false);
      }
      if posted.Err? {
        return Err(posted.error);
      }
      timers := if timer.interval == 0 then timers - {k} else timers[k := timer.(due := now + timer.interval)];
      Audit(Allow("supervisor", k.0, "timer.deliver", key), now);
      return Ok(true);
    }

    /** `deliverTimers` over its keys in due order: one commit for all of them, or none. */
    method DeliverTimers(keys: seq<(AppId, string)>, now: int, ok: bool) returns (r: Result<bool, MailError>)
      modifies this
      ensures match AllTimers(e, old(Now()), keys, now)
              case Err(error) => r == Err(error) && Now() == committed == old(committed)
              case Ok(st) => r.Ok? && (if r.value then Wrote(st, old(committed), ok) else Now() == st == old(Now()) && committed == old(committed))
    {
      hide OneTimer;
      var changed := false;
      for i := 0 to |keys|
        invariant AllTimers(e, old(Now()), keys[..i], now) == Ok(Now()) && committed == old(committed)
        invariant !changed ==> Now() == old(Now())
      {
        assert keys[..i + 1][..i] == keys[..i];
        var fired := FireTimer(keys[i], now);
        if fired.Err? {
          FaultStays(e, old(Now()), keys, now, i + 1);
          Restore();
          return Err(fired.error);
        }
        changed := changed || fired.value;
      }
      assert keys[..|keys|] == keys;
      if changed {
        Persist(ok);
      }
      return Ok(changed);
    }

    /** One commit of a scan: `Ok(false)` is a full mailbox, which keeps the cursor. */
    method PassCommit(k: BindingKey, c: CS.Commit, now: int) returns (r: Result<bool, MailError>)
      requires k in bindings
      modifies this`mail, this`bindings, this`log
      ensures match OneCommit(e, old(Now()), k, c, now)
              case Moved(after) => r == Ok(true) && Now() == after
              case Blocked => r == Ok(false) && Now() == old(Now())
              case Broken(error) => r.Err? && error == MailFault(r.error)
      ensures k in bindings
    {
      hide Enqueue, Audited, LsfsKey;
      if c.kind == CS.ArtifactKind {
        EnqueuedSides(e, Now(), k.0, LsfsKey(k.1, c.cursor), e.lsfsWake(k.1, c), now);
        var posted := EnqueueLocked("supervisor", k.0, LsfsKey(k.1, c.cursor), e.lsfsWake(k.1, c), now);
        if posted == Err(Full) {
          return Ok(false);
        }
        if posted.Err? {
          return Err(posted.error);
        }
      }
      bindings := bindings[k := bindings[k].(cursor := c.cursor)];
      return Ok(true);
    }

    /** The commit loop of a scan. */
    method PassCommits(k: BindingKey, cs: seq<CS.Commit>, now: int) returns (r: Result<bool, MailError>)
      requires k in bindings
      modifies this`mail, this`bindings, this`log
      ensures match Scan(e, old(Now()), k, cs, now)
              case Ok(after) => r.Ok? && Now() == after && (!r.value ==> after == old(Now()))
              case Err(error) => r.Err? && error == MailFault(r.error)
    {
      hide OneCommit;
      var changed := false;
      for i := 0 to |cs|
        invariant k in bindings && Scan(e, old(Now()), k, cs, now) == Scan(e, Now(), k, cs[i..], now)
        invariant !changed ==> Now() == old(Now())
      {
        assert cs[i..][0] == cs[i] && cs[i..][1..] == cs[i + 1..];
        var moved := PassCommit(k, cs[i], now);
        if moved.Err? {
          return Err(moved.error);
        }
        if !moved.value {
          return Ok(changed);
        }
        changed := true;
      }
      return Ok(changed);
    }

    /** One binding of `deliverLSFS`. */
    method ScanBinding(db: ContextDatabase.Database, k: BindingKey, now: int) returns (r: Result<bool, ScanError>)
      modifies this`mail, this`bindings, this`log
      ensures match OneBinding(e, old(Now()), db.Now(), k, now)
              case Ok(after) => r.Ok? && Now() == after && (!r.value ==> after == old(Now()))
              case Err(error) => r == Err(error)
    {
      hide Scan;
      if k !in bindings || !bindings[k].enabled {
        return Ok(false);
      }
      if k.0 !in apps || apps[k.0].state == Tombstoned {
        bindings := bindings[k := bindings[k].(enabled := false)];
        return Ok(true);
      }
      var cs := db.Commits(apps[k.0].owner, bindings[k].ref, bindings[k].cursor, SCAN_BATCH);
      if cs.Err? {
        return Err(ContextFault(cs.error));
      }
      var passed := PassCommits(k, cs.value, now);
      if passed.Err? {
        return Err(MailFault(passed.error));
      }
      return Ok(passed.value);
    }

    /** `deliverLSFS` over its sorted keys: messages and cursors in one commit, or neither. */
    method DeliverLsfs(db: ContextDatabase.Database, keys: seq<BindingKey>, now: int, ok: bool) returns (r: Result<bool, ScanError>)
      modifies this
      ensures match AllBindings(e, old(Now()), old(db.Now()), keys, now)
              case Err(error) => r == Err(error) && Now() == committed == old(committed)
              case Ok(st) => r.Ok? && (if r.value then Wrote(st, old(committed), ok) else Now() == st == old(Now()) && committed == old(committed))
    {
      hide OneBinding;
      var changed := false;
      for i := 0 to |keys|
        invariant AllBindings(e, old(Now()), db.Now(), keys[..i], now) == Ok(Now()) && committed == old(committed)
        invariant !changed ==> Now() == old(Now())
        invariant db.Now() == old(db.Now())
      {
        assert keys[..i + 1][..i] == keys[..i];
        var scanned := ScanBinding(db, keys[i], now);
        if scanned.Err? {
          ScanFaultStays(e, old(Now()), db.Now(), keys, now, i + 1);
          Restore();
          return Err(scanned.error);
        }
        changed := changed || scanned.value;
      }
      assert keys[..|keys|] == keys;
      if changed {
        Persist(ok);
      }
      return Ok(changed);
    }

    // ---- Turns ----

    method Lineup(r: Recent, now: int) returns (rs: seq<Runnable>)
      ensures forall i | 0 <= i < |rs| :: rs[i].id in apps && rs[i] == Look(e, Now().main, rs[i].id, r, now)
      ensures forall id | id in apps :: Look(e, Now().main, id, r, now) in rs
    {
      rs := [];
      var left := apps.Keys;
      while left != {}
        invariant left <= apps.Keys
        invariant forall i | 0 <= i < |rs| :: rs[i].id in apps && rs[i] == Look(e, Now().main, rs[i].id, r, now)
        invariant forall id | id in apps && id !in left :: Look(e, Now().main, id, r, now) in rs
        decreases |left|
      {
        var id :| id in left;
        rs := rs + [Look(e, Now().main, id, r, now)];
        left := left - {id};
      }
    }

    /** `claimTurn`: some application with work is claimed, and none is charged less by more than the band. */
    method ClaimTurn(r: Recent, now: int, ok: bool) returns (chosen: Option<AppId>)
      modifies this
      ensures chosen.None? ==> Now() == old(Now()) && committed == old(committed)
      ensures chosen.None? <==> forall id | id in old(apps) :: !Ready(Look(e, old(Now()).main, id, r, now))
      ensures chosen.Some? ==>
                && Operations.ClaimTurn(e, old(Now()), chosen.value, now).Some?
                && Wrote(Operations.ClaimTurn(e, old(Now()), chosen.value, now).value, old(committed), ok)
                && chosen.value in old(apps) && Ready(Look(e, old(Now()).main, chosen.value, r, now))
      ensures chosen.Some? ==>
                forall id | id in old(apps) && Ready(Look(e, old(Now()).main, id, r, now)) ::
                  old(apps)[chosen.value].used <= Reach(old(apps)[id].used)
    {
      var rs := Lineup(r, now);
      var sorted := SortByCharge(rs);
      SameElements(rs, sorted);
      var choice := Choose(sorted);
      if choice.None? {
        NoneReady(e, Now().main, r, now, sorted);
        return None;
      }
      var id := sorted[choice.value].id;
      ChosenIsFair(e, Now().main, r, now, sorted, choice.value);
      LookIs(e, Now().main, id, r, now);
      TakeFirst(id, now);
      Persist(ok);
      return Some(id);
    }

    /** The claim itself. */
    method TakeFirst(id: AppId, now: int)
      requires id in apps && apps[id].state == Serving && apps[id].wake != Manual && FirstPending(BoxOf(mail, id)) < |BoxOf(mail, id)|
      modifies this`apps, this`mail, this`log
      ensures Operations.ClaimTurn(e, old(Now()), id, now) == Some(Now())
    {
      hide Audited, MessageId;
      var i := FirstPending(mail[id]);
      var msg := mail[id][i];
      apps := apps[id := apps[id].(taint := apps[id].taint + e.taintOf(msg.payload))];
      mail := mail[id := mail[id][i := msg.(status := Claimed, attempts := msg.attempts + 1)]];
      Audit(Allow("supervisor", id, "turn.claim", MessageId(msg.number)), now);
    }

    /** The second half of `finishTurn`: charge, result, acknowledgement and the end of the prepared record. */
    method Settle(n: nat, checkpoint: string, now: int)
      requires n in prepared && prepared[n].app in apps && prepared[n].app in mail
      modifies this`apps, this`mail, this`results, this`prepared, this`log
      ensures SettleTurn(e, old(Now()), n, checkpoint, now) == Some(Now())
    {
      hide Audited, Acknowledged, MessageId, OutcomeName;
      var t := prepared[n];
      var app := apps[t.app];
      var result := SettledTurn(app, t, checkpoint);
      SettledNames(app, t, checkpoint);
      apps := apps[t.app := ChargedApp(app, t, checkpoint)];
      results := results[n := result];
      prepared := prepared - {n};
      var box := MarkAcked(mail[t.app], n);
      mail := mail[t.app := box];
      log := log.(next := log.next + 1);
      Audit(Allow("supervisor", t.app, "turn." + OutcomeName(result.outcome), MessageId(n)), now);
    }

    // ---- Kernel records ----

    /** `identifyKernelEventLocked`: the search for a kept record of the same event. */
    method IdentifyEvent(id: AppId, event: Event, boot: string) returns (saved: Saved)
      ensures saved == Identify(Records(Now().main, id), event, boot)
    {
      saved := Saved(boot, boot, event);
      var records := Records(Now().main, id);
      for i := 0 to |records|
        invariant Identify(records, event, boot) == Identify(records[i..], event, boot)
      {
        assert records[i..][0] == records[i] && records[i..][1..] == records[i + 1..];
        if records[i].queueBoot == boot && records[i].event == event {
          return saved.(boot := records[i].boot);
        }
      }
    }

    /** The records that stay when one event's go. */
    method KeepOthers(records: seq<Saved>, boot: string, event: nat) returns (kept: seq<Saved>)
      ensures kept == Without(records, boot, event)
    {
      kept := [];
      for i := 0 to |records|
        invariant kept == Without(records[..i], boot, event)
      {
        assert records[..i + 1][..i] == records[..i];
        if records[i].boot != boot || records[i].event.id != event {
          kept := kept + [records[i]];
        }
      }
      assert records[..|records|] == records;
    }

    /** The drain loop up to its first write: the message and the kept record together. */
    method Stage(id: AppId, event: Event, boot: string, now: int) returns (saved: Saved, r: Result<Msg, MailError>)
      modifies this`mail, this`pending, this`log
      ensures saved == Identify(Records(old(Now()).main, id), event, boot)
      ensures match StageEvent(e, old(Now()), id, event, boot, now)
              case None => r.Err? && Now() == old(Now())
              case Some(st) => r.Ok? && Now() == st
      ensures r.Err? ==> Enqueue(e, old(Now()), "supervisor", id, KernelKey(id, saved.boot, event.id), e.kernelWake(id, event), now) == Refused(r.error)
    {
      hide Enqueue, Audited, KernelKey, Identify, Without;
      saved := IdentifyEvent(id, event, boot);
      var key, raw := KernelKey(id, saved.boot, event.id), e.kernelWake(id, event);
      EnqueuedSides(e, Now(), id, key, raw, now);
      r := EnqueueLocked("supervisor", id, key, raw, now);
      if r.Ok? {
        var kept := KeepOthers(Records(Now().main, id), saved.boot, event.id);
        pending := pending[id := kept + [saved]];
      }
    }

    /** The drain loop after the acknowledgement: the kept record goes. */
    method Unkeep(id: AppId, saved: Saved)
      modifies this`pending
      ensures Now() == DropEvent(old(Now()), id, saved)
    {
      var kept := KeepOthers(Records(Now().main, id), saved.boot, saved.event.id);
      pending := if kept == [] then pending - {id} else pending[id := kept];
    }

    /** One round of `deliverPersistedKernelLocked` before its write. */
    method RecoverRecord(id: AppId, now: int) returns (r: Result<Msg, MailError>)
      requires Records(Now().main, id) != []
      modifies this`mail, this`pending, this`log
      ensures match RecoverFirst(e, old(Now()), id, now)
              case None => r.Err? && Now() == old(Now())
              case Some(st) => r.Ok? && Now() == st
    {
      hide Enqueue, Audited, KernelKey;
      var records := Records(Now().main, id);
      var key, raw := KernelKey(id, records[0].boot, records[0].event.id), e.kernelWake(id, records[0].event);
      EnqueuedSides(e, Now(), id, key, raw, now);
      r := EnqueueLocked("supervisor", id, key, raw, now);
      if r.Ok? {
        pending := if records[1..] == [] then pending - {id} else pending[id := records[1..]];
      }
    }

    // ---- Requests ----

    /** `sweepConfirmationsLocked`: stale requests lapse, then the oldest settled ones past the bound go. */
    method Sweep(now: int) returns (ghost drop: set<string>)
      modifies this`asks
      ensures OldestSettled(Lapse(old(asks), now), drop) && asks == Lapse(old(asks), now) - drop
    {
      LapseStale(now);
      var kept;
      kept, drop := DropOldest(asks);
      asks := kept;
    }

    method LapseStale(now: int)
      modifies this`asks
      ensures asks == Lapse(old(asks), now)
    {
      var left := asks.Keys;
      while left != {}
        invariant left <= old(asks).Keys == asks.Keys
        invariant forall id | id in asks :: asks[id] == if id in left then old(asks)[id] else Lapse(old(asks), now)[id]
        decreases |left|
      {
        var id :| id in left;
        if asks[id].status == Waiting && now > asks[id].expires {
          asks := asks[id := asks[id].(status := Lapsed)];
        }
        left := left - {id};
      }
    }

    // ---- Recovery ----

    /** The recovery loops of `load`, over the applications in some order. */
    method Load(order: seq<AppId>, now: int, ok: bool)
      requires forall i | 0 <= i < |order| :: order[i] in mail && order[i] in apps
      modifies this
      ensures Wrote(Recover(e, old(Now()), order, now), old(committed), ok)
    {
      hide Audited, ExpireAll, ReclaimAll;
      for i := 0 to |order|
        invariant Now() == Recover(e, old(Now()), order[..i], now) && committed == old(committed)
        invariant mail.Keys == old(mail).Keys && apps.Keys == old(apps).Keys
      {
        assert order[..i + 1][..i] == order[..i];
        RecoverOne(order[i], now);
      }
      assert order[..|order|] == order;
      Persist(ok);
    }

    method RecoverOne(id: AppId, now: int)
      requires id in mail && id in apps
      modifies this`apps, this`mail, this`log
      ensures Now() == RecoverApp(e, old(Now()), id, now)
      ensures mail.Keys == old(mail).Keys && apps.Keys == old(apps).Keys
    {
      hide Audited, ExpireAll, ReclaimAll;
      if apps[id].state == Tombstoned {
        ExpireMailbox(id);
        return;
      }
      var box := Unclaim(mail[id]);
      mail := mail[id := box];
      apps := apps[id := apps[id].(generation := apps[id].generation + 1)];
      Audit(Entry("supervisor", id, "application.recover", id, "allow", "new worker incarnation"), now);
    }
  }

  lemma SettledNames(app: App, t: Turn, checkpoint: string)
    ensures SettledTurn(app, t, checkpoint).app == t.app
  {
  }

  /** The acknowledgement loop of `finishTurn`. */
  method MarkAcked(ms: seq<Msg>, n: nat) returns (box: seq<Msg>)
    ensures box == Acknowledged(ms, n)
  {
    box := ms;
    for i := 0 to |ms|
      invariant |box| == |ms| && forall j | 0 <= j < |ms| :: box[j] == if j < i then Acknowledged(ms, n)[j] else ms[j]
    {
      if box[i].number == n {
        box := box[i := box[i].(status := Acked)];
      }
    }
  }

  method OldestSettledOf(asks: Asks) returns (oldest: Option<string>)
    ensures oldest.None? ==> asks.Keys <= Waitings(asks)
    ensures oldest.Some? ==> IsOldest(asks, oldest.value)
  {
    oldest := None;
    var left := asks.Keys;
    while left != {}
      invariant left <= asks.Keys
      invariant oldest.None? ==> forall k | k in asks && k !in left :: asks[k].status == Waiting
      invariant oldest.Some? ==>
                  && oldest.value in asks && asks[oldest.value].status != Waiting
                  && forall k | k in asks && k !in left && asks[k].status != Waiting :: asks[oldest.value].created <= asks[k].created
      decreases |left|
    {
      var k :| k in left;
      if asks[k].status != Waiting && (oldest.None? || asks[k].created < asks[oldest.value].created) {
        oldest := Some(k);
      }
      left := left - {k};
    }
  }

  /** `drop` holds the oldest settled requests, taken out of `lapsed` one by one down to the bound. */
  ghost predicate Dropping(lapsed: Asks, kept: Asks, drop: set<string>) {
    && kept == lapsed - drop && drop <= lapsed.Keys - Waitings(lapsed) && |kept| + |drop| == |lapsed|
    && (drop != {} ==> |kept| >= MAX_WAITING)
    && forall d, k | d in drop && k in kept && kept[k].status != Waiting :: lapsed[d].created <= kept[k].created
  }

  method DropOldest(lapsed: Asks) returns (kept: Asks, ghost drop: set<string>)
    ensures OldestSettled(lapsed, drop) && kept == lapsed - drop
  {
    hide IsOldest, OldestSettled, Waitings;
    kept, drop := lapsed, {};
    var oldest := OldestSettledOf(kept);
    while |kept| > MAX_WAITING && oldest.Some?
      invariant Dropping(lapsed, kept, drop)
      invariant oldest.None? ==> kept.Keys <= Waitings(kept)
      invariant oldest.Some? ==> IsOldest(kept, oldest.value)
      decreases |kept|
    {
      DropNext(lapsed, kept, drop, oldest.value);
      kept := kept - {oldest.value};
      drop := drop + {oldest.value};
      oldest := OldestSettledOf(kept);
    }
    SweptAll(lapsed, kept, drop);
  }

  ghost predicate IsOldest(asks: Asks, id: string) {
    && id in asks && asks[id].status != Waiting
    && forall k | k in asks && asks[k].status != Waiting :: asks[id].created <= asks[k].created
  }

  lemma DropNext(lapsed: Asks, kept: Asks, drop: set<string>, id: string)
    requires Dropping(lapsed, kept, drop) && IsOldest(kept, id) && |kept| > MAX_WAITING
    ensures Dropping(lapsed, kept - {id}, drop + {id}) && |kept - {id}| == |kept| - 1
  {
    SizeIsKeys(kept);
    SizeIsKeys(kept - {id});
    assert kept.Keys == (kept - {id}).Keys + {id};
    assert kept - {id} == lapsed - (drop + {id});
  }

  lemma SweptAll(lapsed: Asks, kept: Asks, drop: set<string>)
    requires Dropping(lapsed, kept, drop) && (|kept| <= MAX_WAITING || kept.Keys <= Waitings(kept))
    ensures OldestSettled(lapsed, drop)
  {
    forall d, k | d in drop && k in lapsed.Keys - Waitings(lapsed) - drop
      ensures lapsed[d].created <= lapsed[k].created
    {
      assert k in kept && kept[k] == lapsed[k];
    }
    if |kept| > MAX_WAITING {
      forall k | k in lapsed.Keys - Waitings(lapsed)
        ensures k in drop
      {
        assert k !in drop ==> k in kept && k in Waitings(kept);
      }
    }
  }

  method Unclaim(ms: seq<Msg>) returns (box: seq<Msg>)
    ensures box == ReclaimAll(ms)
  {
    box := ms;
    for i := 0 to |ms|
      invariant |box| == |ms| && forall j | 0 <= j < |ms| :: box[j] == if j < i then ReclaimAll(ms)[j] else ms[j]
    {
      if box[i].status == Claimed {
        box := box[i := box[i].(status := Pending)];
      }
    }
  }

  /** What the runner remembers between claims: the last prompt prefix, turns in flight and recent claim times. */
  datatype Recent = Recent(prefix: string, inflight: set<AppId>, claims: map<AppId, int>)

  /** One second in nanoseconds. */
  const CLAIM_INTERVAL := 1_000_000_000

  /** In the pressure band at most one turn per interval is admitted. */
  predicate Throttled(app: App, id: AppId, r: Recent, now: int) {
    && app.limit > 0 && app.used < app.limit && app.used >= app.limit - app.limit / 5
    && id in r.claims && now - r.claims[id] < CLAIM_INTERVAL
  }

  /** What `claimTurn` gathers about an application. */
  function Look(e: Env, m: Main, id: AppId, r: Recent, now: int): Runnable
    requires id in m.apps
  {
    var app, box := m.apps[id], BoxOf(m.mail, id);
    var i := FirstPending(box);
    var work := if i < |box| then Some(Work(box[i].number, r.prefix != "" && e.prefixOf(box[i].payload) == r.prefix)) else None;
    Runnable(id, app.used, app.created, app.state == Serving && app.wake != Manual && id !in r.inflight && !Throttled(app, id, r, now), work)
  }

  lemma LookIs(e: Env, m: Main, id: AppId, r: Recent, now: int)
    requires id in m.apps && Ready(Look(e, m, id, r, now))
    ensures m.apps[id].state == Serving && m.apps[id].wake != Manual && FirstPending(BoxOf(m.mail, id)) < |BoxOf(m.mail, id)|
  {
  }

  lemma SameElements(a: seq<Runnable>, b: seq<Runnable>)
    requires multiset(a) == multiset(b)
    ensures forall x :: x in a <==> x in b
  {
    forall x
      ensures x in a <==> x in b
    {
      assert x in multiset(a) <==> x in multiset(b);
    }
  }

  lemma NoneReady(e: Env, m: Main, r: Recent, now: int, sorted: seq<Runnable>)
    requires forall id | id in m.apps :: Look(e, m, id, r, now) in sorted
    requires forall i | 0 <= i < |sorted| :: !Ready(sorted[i])
    ensures forall id | id in m.apps :: !Ready(Look(e, m, id, r, now))
  {
  }

  lemma ChosenIsFair(e: Env, m: Main, r: Recent, now: int, sorted: seq<Runnable>, i: nat)
    requires Ordered(sorted) && IsPick(sorted, i)
    requires forall x | x in sorted :: x.id in m.apps && x == Look(e, m, x.id, r, now)
    requires forall id | id in m.apps :: Look(e, m, id, r, now) in sorted
    ensures sorted[i].id in m.apps && Ready(Look(e, m, sorted[i].id, r, now))
    ensures forall id | id in m.apps && Ready(Look(e, m, id, r, now)) :: m.apps[sorted[i].id].used <= Reach(m.apps[id].used)
  {
    assert sorted[i] in sorted;
    forall id | id in m.apps && Ready(Look(e, m, id, r, now))
      ensures m.apps[sorted[i].id].used <= Reach(m.apps[id].used)
    {
      var j :| 0 <= j < |sorted| && sorted[j] == Look(e, m, id, r, now);
      ChoiceIsWithinBand(sorted, i, j);
    }
  }

  lemma {:induction false} ScanFaultStays(e: Env, st: State, ctx: CS.Store, keys: seq<BindingKey>, now: int, i: nat)
    requires i <= |keys| && AllBindings(e, st, ctx, keys[..i], now).Err?
    ensures AllBindings(e, st, ctx, keys, now) == AllBindings(e, st, ctx, keys[..i], now)
    decreases |keys|
  {
    hide OneBinding;
    if i == |keys| {
      assert keys[..i] == keys;
    } else {
      assert keys[..|keys| - 1][..i] == keys[..i];
      ScanFaultStays(e, st, ctx, keys[..|keys| - 1], now, i);
    }
  }

  lemma {:induction false} FaultStays(e: Env, st: State, keys: seq<(AppId, string)>, now: int, i: nat)
    requires i <= |keys| && AllTimers(e, st, keys[..i], now).Err?
    ensures AllTimers(e, st, keys, now) == AllTimers(e, st, keys[..i], now)
    decreases |keys|
  {
    hide OneTimer;
    if i == |keys| {
      assert keys[..i] == keys;
    } else {
      assert keys[..|keys| - 1][..i] == keys[..i];
      FaultStays(e, st, keys[..|keys| - 1], now, i);
    }
  }

  lemma EnqueueNumbers(e: Env, st: State, principal: string, id: AppId, key: string, raw: string, now: int)
    ensures match Enqueue(e, st, principal, id, key, raw, now)
            case Added(after, _) => after.log.next == st.log.next + 2
            case _ => true
  {
    hide Admits;
  }

  lemma ClaimAllSnoc(box: seq<Msg>, i: nat)
    requires i < |box|
    ensures |ClaimAll(box[..i]) + box[i..]| == |box| && (ClaimAll(box[..i]) + box[i..])[i] == box[i]
    ensures ClaimAll(box[..i + 1]) + box[i + 1..] ==
              if box[i].status == Pending then (ClaimAll(box[..i]) + box[i..])[i := box[i].(status := Claimed)] else ClaimAll(box[..i]) + box[i..]
  {
  }

  lemma TaintSnoc(e: Env, box: seq<Msg>, bits: Bits, i: nat)
    requires i < |box|
    ensures bits + PendingTaint(e, box[..i + 1]) ==
              if box[i].status == Pending then bits + PendingTaint(e, box[..i]) + e.taintOf(box[i].payload) else bits + PendingTaint(e, box[..i])
  {
    assert box[..i + 1][..i] == box[..i];
  }

  lemma ClaimStart(e: Env, box: seq<Msg>, bits: Bits)
    ensures ClaimAll(box[..0]) + box[0..] == box && bits + PendingTaint(e, box[..0]) == bits
  {
  }

  lemma ClaimEnd(e: Env, box: seq<Msg>, bits: Bits)
    ensures box[..|box|] == box && ClaimAll(box) + box[|box|..] == ClaimAll(box)
    ensures FirstPending(box) == |box| ==> ClaimAll(box) == box && bits + PendingTaint(e, box) == bits
  {
    if FirstPending(box) == |box| {
      NothingPending(e, box);
    }
  }

  lemma {:induction false} NothingPending(e: Env, ms: seq<Msg>)
    requires forall j | 0 <= j < |ms| :: ms[j].status != Pending
    ensures PendingTaint(e, ms) == {} && ClaimAll(ms) == ms
  {
    if ms != [] {
      NothingPending(e, ms[..|ms| - 1]);
    }
  }

  lemma ExpireAllSnoc(box: seq<Msg>, i: nat)
    requires i < |box|
    ensures (ExpireAll(box[..i]) + box[i..])[i] == box[i]
    ensures ExpireAll(box[..i + 1]) + box[i + 1..] ==
              if Outstanding(box[i]) then (ExpireAll(box[..i]) + box[i..])[i := box[i].(status := Expired)] else ExpireAll(box[..i]) + box[i..]
  {
  }
}
