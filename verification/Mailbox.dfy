/**
 * Application mailboxes: bounded admission, idempotency keys and delivery status.
 */
module Mailboxes {
  import opened Sums

  type AppId = string

  datatype Status = Pending | Claimed | Acked | Expired

  /** A message is identified by its sequence number, which its id prints. */
  datatype Msg = Msg(key: string, payload: string, status: Status, number: nat, created: int, attempts: nat)

  type Mail = map<AppId, seq<Msg>>

  /** What admission counts. */
  datatype Measure = Messages | PayloadBytes

  function AppLimit(k: Measure): nat { if k == Messages then 256 else 0x20_0000 }

  function SystemLimit(k: Measure): nat { if k == Messages then 1024 else 0x100_0000 }

  predicate Outstanding(m: Msg) { m.status == Pending || m.status == Claimed }

  function Size(k: Measure, payload: string): nat { if k == Messages then 1 else |payload| }

  /** What a message is charged while it is outstanding. */
  function Weight(k: Measure, m: Msg): nat { if Outstanding(m) then Size(k, m.payload) else 0 }

  function Load(k: Measure, ms: seq<Msg>): nat {
    if ms == [] then 0 else Load(k, ms[..|ms| - 1]) + Weight(k, ms[|ms| - 1])
  }

  ghost function Loads(k: Measure, mail: Mail): map<AppId, nat> {
    map id | id in mail :: Load(k, mail[id])
  }

  ghost function TotalLoad(k: Measure, mail: Mail): nat { Total(Loads(k, mail)) }

  // ---- Invariants ----

  predicate KeysUnique(ms: seq<Msg>) {
    forall i, j | 0 <= i < j < |ms| :: ms[i].key != ms[j].key
  }

  /** Numbers grow strictly and stay below the supervisor's counter. */
  predicate Numbered(ms: seq<Msg>, next: nat) {
    && (forall i, j | 0 <= i < j < |ms| :: ms[i].number < ms[j].number)
    && forall i | 0 <= i < |ms| :: 0 < ms[i].number <= next
  }

  predicate BoxOk(ms: seq<Msg>, next: nat) {
    && KeysUnique(ms) && Numbered(ms, next)
    && Load(Messages, ms) <= AppLimit(Messages) && Load(PayloadBytes, ms) <= AppLimit(PayloadBytes)
  }

  predicate Apart(a: seq<Msg>, b: seq<Msg>) {
    forall i, j | 0 <= i < |a| && 0 <= j < |b| :: a[i].number != b[j].number
  }

  ghost predicate BoxesOk(mail: Mail, next: nat) {
    forall id {:trigger BoxOk(mail[id], next)} | id in mail :: BoxOk(mail[id], next)
  }

  /** No number is used twice anywhere. */
  ghost predicate NumbersApart(mail: Mail) {
    forall x, y {:trigger Apart(mail[x], mail[y])} | x in mail && y in mail && x != y :: Apart(mail[x], mail[y])
  }

  ghost predicate MailOk(mail: Mail, next: nat) {
    && BoxesOk(mail, next) && NumbersApart(mail)
    && TotalLoad(Messages, mail) <= SystemLimit(Messages) && TotalLoad(PayloadBytes, mail) <= SystemLimit(PayloadBytes)
  }

  // ---- Changing statuses ----

  /** The same messages with other statuses: none is outstanding again and none is unacknowledged. */
  predicate Restatus(a: seq<Msg>, b: seq<Msg>) {
    && |a| == |b|
    && forall i | 0 <= i < |a| ::
         && b[i] == a[i].(status := b[i].status, attempts := b[i].attempts)
         && (Outstanding(b[i]) ==> Outstanding(a[i])) && (a[i].status == Acked ==> b[i].status == Acked)
  }

  lemma {:induction false} RestatusLoad(k: Measure, a: seq<Msg>, b: seq<Msg>)
    requires Restatus(a, b)
    ensures Load(k, b) <= Load(k, a)
  {
    if a != [] {
      assert forall i | 0 <= i < |a| - 1 :: a[..|a| - 1][i] == a[i] && b[..|a| - 1][i] == b[i];
      RestatusLoad(k, a[..|a| - 1], b[..|a| - 1]);
    }
  }

  lemma RestatusBox(a: seq<Msg>, b: seq<Msg>, next: nat)
    requires BoxOk(a, next) && Restatus(a, b)
    ensures BoxOk(b, next)
  {
    RestatusLoad(Messages, a, b);
    RestatusLoad(PayloadBytes, a, b);
  }

  lemma ReplaceTotal(k: Measure, mail: Mail, id: AppId, ms: seq<Msg>)
    ensures TotalLoad(k, mail[id := ms]) ==
              TotalLoad(k, mail) + Load(k, ms) - (if id in mail then Load(k, mail[id]) else 0)
  {
    assert Loads(k, mail[id := ms]) == Loads(k, mail)[id := Load(k, ms)];
    TotalUpdate(Loads(k, mail), id, Load(k, ms));
  }

  lemma ReplaceApart(mail: Mail, id: AppId, ms: seq<Msg>)
    requires NumbersApart(mail) && id in mail && Restatus(mail[id], ms)
    ensures NumbersApart(mail[id := ms])
  {
    var after := mail[id := ms];
    forall x, y | x in after && y in after && x != y
      ensures Apart(after[x], after[y])
    {
      assert Apart(mail[x], mail[y]);
    }
  }

  /** Claims, acknowledgements, requeues, settlement and expiry all keep the mailbox invariant. */
  lemma RestatusKeeps(mail: Mail, id: AppId, ms: seq<Msg>, next: nat)
    requires MailOk(mail, next) && id in mail && Restatus(mail[id], ms)
    ensures MailOk(mail[id := ms], next)
  {
    assert BoxOk(mail[id], next);
    RestatusBox(mail[id], ms, next);
    hide BoxOk, Restatus, Apart;
    assert forall x | x in mail :: BoxOk(mail[x], next);
    ReplaceApart(mail, id, ms);
    forall k: Measure
      ensures TotalLoad(k, mail[id := ms]) <= TotalLoad(k, mail)
    {
      ReplaceTotal(k, mail, id, ms);
      RestatusLoad(k, mail[id], ms);
    }
  }

  lemma NextKeeps(mail: Mail, next: nat, more: nat)
    requires MailOk(mail, next) && next <= more
    ensures MailOk(mail, more)
  {
    forall id | id in mail
      ensures BoxOk(mail[id], more)
    {
      assert BoxOk(mail[id], next);
    }
  }

  lemma OpenKeeps(mail: Mail, next: nat, id: AppId)
    requires MailOk(mail, next) && id !in mail
    ensures MailOk(mail[id := []], next)
  {
    var after := mail[id := []];
    ReplaceTotal(Messages, mail, id, []);
    ReplaceTotal(PayloadBytes, mail, id, []);
    forall x | x in after
      ensures BoxOk(after[x], next)
    {
      assert x != id ==> BoxOk(mail[x], next);
    }
    forall x, y | x in after && y in after && x != y
      ensures Apart(after[x], after[y])
    {
      assert x != id && y != id ==> Apart(mail[x], mail[y]);
    }
  }

  // ---- Admission ----

  /** The mailbox of an application; a missing one is empty. */
  function BoxOf(mail: Mail, id: AppId): seq<Msg> { if id in mail then mail[id] else [] }

  /** `accepts`, for both measures at once. */
  ghost predicate Admits(mail: Mail, id: AppId, payload: string) {
    && (forall k: Measure :: Load(k, BoxOf(mail, id)) + Size(k, payload) <= AppLimit(k))
    && forall k: Measure :: TotalLoad(k, mail) + Size(k, payload) <= SystemLimit(k)
  }

  lemma PushBox(ms: seq<Msg>, m: Msg, next: nat)
    requires BoxOk(ms, next) && m.number == next + 1 && m.status == Pending
    requires forall i | 0 <= i < |ms| :: ms[i].key != m.key
    requires forall k: Measure :: Load(k, ms) + Size(k, m.payload) <= AppLimit(k)
    ensures BoxOk(ms + [m], next + 1)
  {
    assert (ms + [m])[..|ms|] == ms;
    assert Load(Messages, ms + [m]) == Load(Messages, ms) + Size(Messages, m.payload);
    assert Load(PayloadBytes, ms + [m]) == Load(PayloadBytes, ms) + Size(PayloadBytes, m.payload);
  }

  lemma PushApart(mail: Mail, id: AppId, m: Msg, next: nat)
    requires BoxesOk(mail, next) && NumbersApart(mail) && id in mail && m.number == next + 1
    ensures NumbersApart(mail[id := mail[id] + [m]])
  {
    var after := mail[id := mail[id] + [m]];
    forall x, y | x in after && y in after && x != y
      ensures Apart(after[x], after[y])
    {
      assert Apart(mail[x], mail[y]) && BoxOk(mail[x], next) && BoxOk(mail[y], next);
    }
  }

  lemma LoadSnoc(k: Measure, ms: seq<Msg>, m: Msg)
    ensures Load(k, ms + [m]) == Load(k, ms) + Weight(k, m)
  {
    assert (ms + [m])[..|ms|] == ms;
  }

  lemma PushTotal(k: Measure, mail: Mail, id: AppId, m: Msg)
    requires id in mail && Admits(mail, id, m.payload) && m.status == Pending
    ensures TotalLoad(k, mail[id := mail[id] + [m]]) <= SystemLimit(k)
  {
    hide Load, TotalLoad;
    ReplaceTotal(k, mail, id, mail[id] + [m]);
    LoadSnoc(k, mail[id], m);
  }

  lemma PushBoxes(mail: Mail, id: AppId, m: Msg, next: nat)
    requires BoxesOk(mail, next) && id in mail && BoxOk(mail[id] + [m], next + 1)
    ensures BoxesOk(mail[id := mail[id] + [m]], next + 1)
  {
    var after := mail[id := mail[id] + [m]];
    forall x | x in after
      ensures BoxOk(after[x], next + 1)
    {
      if x != id {
        assert BoxOk(mail[x], next);
      }
    }
  }

  /** An admitted message keeps every limit, key and number in order. */
  lemma PushKeeps(mail: Mail, id: AppId, m: Msg, next: nat)
    requires MailOk(mail, next) && id in mail && m.number == next + 1 && m.status == Pending
    requires forall i | 0 <= i < |mail[id]| :: mail[id][i].key != m.key
    requires Admits(mail, id, m.payload)
    ensures MailOk(mail[id := mail[id] + [m]], next + 1)
  {
    assert BoxOk(mail[id], next);
    hide BoxOk, NumbersApart, Load, TotalLoad;
    PushBox(mail[id], m, next);
    PushApart(mail, id, m, next);
    PushTotal(Messages, mail, id, m);
    PushTotal(PayloadBytes, mail, id, m);
    PushBoxes(mail, id, m, next);
  }

  // ---- Finding messages ----

  /** The position of a key, or the length if it is absent. */
  function FindKey(ms: seq<Msg>, key: string): (i: nat)
    ensures i <= |ms|
    ensures i < |ms| ==> ms[i].key == key
    ensures forall j | 0 <= j < i :: ms[j].key != key
  {
    if ms == [] then 0
    else
      var i := FindKey(ms[..|ms| - 1], key);
      if i < |ms| - 1 || ms[|ms| - 1].key == key then i else |ms|
  }

  /** The position of a message, or the length if it is absent. */
  function Find(ms: seq<Msg>, number: nat): (i: nat)
    ensures i <= |ms|
    ensures i < |ms| ==> ms[i].number == number
    ensures forall j | 0 <= j < i :: ms[j].number != number
  {
    if ms == [] then 0
    else
      var i := Find(ms[..|ms| - 1], number);
      if i < |ms| - 1 || ms[|ms| - 1].number == number then i else |ms|
  }

  /** The first pending message, or the length if there is none. */
  function FirstPending(ms: seq<Msg>): (i: nat)
    ensures i <= |ms|
    ensures i < |ms| ==> ms[i].status == Pending
    ensures forall j | 0 <= j < i :: ms[j].status != Pending
  {
    if ms == [] then 0
    else
      var i := FirstPending(ms[..|ms| - 1]);
      if i < |ms| - 1 || ms[|ms| - 1].status == Pending then i else |ms|
  }

  /** The same messages, possibly more, with acknowledgements kept. */
  predicate Onward(a: seq<Msg>, b: seq<Msg>) {
    && |a| <= |b|
    && forall i | 0 <= i < |a| ::
         && b[i] == a[i].(status := b[i].status, attempts := b[i].attempts)
         && (a[i].status == Acked ==> b[i].status == Acked)
  }

  lemma {:induction false} FindIs(ms: seq<Msg>, next: nat, i: nat)
    requires Numbered(ms, next) && i < |ms|
    ensures Find(ms, ms[i].number) == i
  {
    var n := Find(ms, ms[i].number);
    assert n <= i;
  }

  lemma FindOnward(a: seq<Msg>, b: seq<Msg>, next: nat, number: nat)
    requires Onward(a, b) && Numbered(b, next) && Find(a, number) < |a|
    ensures Find(b, number) == Find(a, number)
  {
    FindIs(b, next, Find(a, number));
  }

  lemma FindKeyOnward(a: seq<Msg>, b: seq<Msg>, key: string)
    requires Onward(a, b) && FindKey(a, key) < |a|
    ensures FindKey(b, key) == FindKey(a, key)
  {
    var i, j := FindKey(a, key), FindKey(b, key);
    assert b[i].key == key;
    assert j <= i;
    assert a[j].key == b[j].key;
  }

  /** No message that was claimed or done is pending again. */
  predicate Unreturned(a: seq<Msg>, b: seq<Msg>) {
    |a| <= |b| && forall i | 0 <= i < |a| :: b[i].status == Pending ==> a[i].status == Pending
  }

  ghost predicate NoneReturned(a: Mail, b: Mail) {
    forall id {:trigger Unreturned(BoxOf(a, id), BoxOf(b, id))} :: Unreturned(BoxOf(a, id), BoxOf(b, id))
  }

  lemma ReturnedTransitive(a: Mail, b: Mail, c: Mail)
    requires NoneReturned(a, b) && NoneReturned(b, c)
    ensures NoneReturned(a, c)
  {
    forall id
      ensures Unreturned(BoxOf(a, id), BoxOf(c, id))
    {
      assert Unreturned(BoxOf(a, id), BoxOf(b, id)) && Unreturned(BoxOf(b, id), BoxOf(c, id));
    }
  }

  lemma PushReturned(mail: Mail, id: AppId, m: Msg)
    ensures NoneReturned(mail, mail[id := BoxOf(mail, id) + [m]])
  {
    var after := mail[id := BoxOf(mail, id) + [m]];
    forall x
      ensures Unreturned(BoxOf(mail, x), BoxOf(after, x))
    {
    }
  }
}
