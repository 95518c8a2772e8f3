/**
 * When a mailbox has room for a whole kernel queue: then no event of the queue is refused,
 * however many of them are already delivered.
 */
module KernelRoom {
  import opened Text
  import opened Mailboxes
  import opened SupervisorState
  import opened Operations

  /** The payload an event is delivered with. */
  function Payload(e: Env, id: AppId, event: Event): string {
    if e.canon(e.kernelWake(id, event)).Some? then e.canon(e.kernelWake(id, event)).value else ""
  }

  predicate Deliverable(e: Env, id: AppId, boot: string, event: Event) {
    && |KernelKey(id, boot, event.id)| <= MAX_MAIL_KEY
    && e.canon(e.kernelWake(id, event)).Some? && |e.kernelWake(id, event)| <= 6 * MAX_TEXT
  }

  /** What the events of a queue are charged together. */
  function Need(k: Measure, e: Env, id: AppId, queue: seq<Event>): nat {
    if queue == [] then 0 else Size(k, Payload(e, id, queue[0])) + Need(k, e, id, queue[1..])
  }

  ghost predicate Fits(k: Measure, e: Env, mail: Mail, id: AppId, queue: seq<Event>) {
    && Load(k, BoxOf(mail, id)) + Need(k, e, id, queue) <= AppLimit(k)
    && TotalLoad(k, mail) + Need(k, e, id, queue) <= SystemLimit(k)
  }

  /** A message already there under the event's key is the event's own. */
  ghost predicate Agrees(e: Env, box: seq<Msg>, id: AppId, boot: string, event: Event) {
    forall j | 0 <= j < |box| && box[j].key == KernelKey(id, boot, event.id) :: box[j].payload == Payload(e, id, event)
  }

  predicate Distinct(queue: seq<Event>) { forall i, j | 0 <= i < j < |queue| :: queue[i].id != queue[j].id }

  /** Room for the whole queue, by messages and by bytes, in the application and in all. */
  ghost predicate Room(e: Env, mail: Mail, id: AppId, boot: string, queue: seq<Event>) {
    && Distinct(queue) && (forall k: Measure :: Fits(k, e, mail, id, queue))
    && forall i | 0 <= i < |queue| :: Deliverable(e, id, boot, queue[i]) && Agrees(e, BoxOf(mail, id), id, boot, queue[i])
  }

  /** The next event of a queue there is room for is accepted. */
  lemma FirstFits(e: Env, st: State, id: AppId, boot: string, queue: seq<Event>, now: int)
    requires queue != [] && Room(e, st.main.mail, id, boot, queue)
    requires id in st.main.apps && st.main.apps[id].state != Tombstoned
    ensures !Enqueue(e, st, "supervisor", id, KernelKey(id, boot, queue[0].id), e.kernelWake(id, queue[0]), now).Refused?
  {
    hide KernelKey, Load, TotalLoad;
    assert Deliverable(e, id, boot, queue[0]) && Agrees(e, BoxOf(st.main.mail, id), id, boot, queue[0]);
    KeyIsThere(id, boot, queue[0].id);
    forall k: Measure
      ensures Load(k, BoxOf(st.main.mail, id)) + Size(k, Payload(e, id, queue[0])) <= AppLimit(k)
      ensures TotalLoad(k, st.main.mail) + Size(k, Payload(e, id, queue[0])) <= SystemLimit(k)
    {
      assert Fits(k, e, st.main.mail, id, queue);
    }
  }

  lemma KeyIsThere(id: AppId, boot: string, event: nat)
    ensures KernelKey(id, boot, event) != ""
  {
  }

  lemma KeysDistinct(id: AppId, boot: string, m: nat, n: nat)
    requires m != n
    ensures KernelKey(id, boot, m) != KernelKey(id, boot, n)
  {
    if KernelKey(id, boot, m) == KernelKey(id, boot, n) {
      KeyInjective("kernel:", id + ":" + boot, m, id + ":" + boot, n);
    }
  }

  /** A message pushed, or already there, for the first event leaves room for the rest. */
  lemma RestFits(e: Env, a: Mail, b: Mail, id: AppId, boot: string, queue: seq<Event>, m: Msg)
    requires queue != [] && Room(e, a, id, boot, queue) && id in a
    requires b == a || (b == a[id := a[id] + [m]] && m.key == KernelKey(id, boot, queue[0].id) && m.payload == Payload(e, id, queue[0]))
    ensures Room(e, b, id, boot, queue[1..])
  {
    hide KernelKey, Load, TotalLoad, Payload;
    var rest := queue[1..];
    forall k: Measure
      ensures Fits(k, e, b, id, rest)
    {
      assert Fits(k, e, a, id, queue);
      if b != a {
        ReplaceTotal(k, a, id, a[id] + [m]);
        LoadSnoc(k, a[id], m);
      }
    }
    forall i | 0 <= i < |rest|
      ensures Deliverable(e, id, boot, rest[i]) && Agrees(e, BoxOf(b, id), id, boot, rest[i])
    {
      assert rest[i] == queue[i + 1];
      KeysDistinct(id, boot, queue[0].id, rest[i].id);
      assert Agrees(e, BoxOf(a, id), id, boot, queue[i + 1]);
    }
  }

  /** Enqueueing the first event leaves room for the rest. */
  lemma EnqueuedLeavesRoom(e: Env, st: State, id: AppId, boot: string, queue: seq<Event>, now: int)
    requires queue != [] && Room(e, st.main.mail, id, boot, queue) && id in st.main.mail
    requires !Enqueue(e, st, "supervisor", id, KernelKey(id, boot, queue[0].id), e.kernelWake(id, queue[0]), now).Refused?
    ensures Room(e, Enqueued(e, st, "supervisor", id, KernelKey(id, boot, queue[0].id), e.kernelWake(id, queue[0]), now).main.mail, id, boot, queue[1..])
  {
    hide KernelKey, Room, Admits;
    var r := Enqueue(e, st, "supervisor", id, KernelKey(id, boot, queue[0].id), e.kernelWake(id, queue[0]), now);
    var b := Enqueued(e, st, "supervisor", id, KernelKey(id, boot, queue[0].id), e.kernelWake(id, queue[0]), now).main.mail;
    RestFits(e, st.main.mail, b, id, boot, queue, r.msg);
  }
}
