/**
 * The kernel drain loses and duplicates nothing: an event is acknowledged only once its
 * message is on disk, and what a committed snapshot kept is in the mailbox or still kept,
 * over every run of posts, failed writes, failed acknowledgements, crashes and reboots.
 */
module KernelRuns {
  import opened Text
  import opened Mailboxes
  import opened SupervisorState
  import opened Operations
  import opened System

  // ---- The invariant ----

  predicate IsDelivered(mail: Mail, x: EventName) { HasKey(mail, x.0, KernelKey(x.0, x.1, x.2)) }

  /** The record of an event is among those kept for its application. */
  predicate IsKept(records: seq<Saved>, boot: string, event: nat) {
    exists i :: 0 <= i < |records| && records[i].boot == boot && records[i].event.id == event
  }

  predicate InQueue(queue: seq<Event>, event: Event) { exists i :: 0 <= i < |queue| && queue[i] == event }

  /** An event is acknowledged only once its message is committed. */
  ghost predicate AckedOk(mail: Mail, past: Past) {
    forall x {:trigger IsDelivered(mail, x)} | x in past.acked :: IsDelivered(mail, x)
  }

  /** What a commit ever kept is delivered or still kept, unless its application was retired. */
  ghost predicate SnappedOk(m: Main, past: Past) {
    forall x {:trigger IsDelivered(m.mail, x)} | x in past.snapped && x.0 !in past.retired ::
      IsDelivered(m.mail, x) || IsKept(Records(m, x.0), x.1, x.2)
  }

  /** A kept record is of a posted event; one of this boot is delivered or still queued. */
  ghost predicate RecordOk(mail: Mail, k: Kernel, past: Past, id: AppId, s: Saved) {
    && s.boot == s.queueBoot && s.boot in past.boots
    && (id, s.boot, s.event.id) in past.posted && past.posted[(id, s.boot, s.event.id)] == s.event
    && (s.queueBoot == k.boot ==> IsDelivered(mail, (id, s.boot, s.event.id)) || InQueue(QueueOf(k, id), s.event))
  }

  ghost predicate RecordsOk(m: Main, k: Kernel, past: Past) {
    forall id, i {:trigger RecordOk(m.mail, k, past, id, Records(m, id)[i])} | 0 <= i < |Records(m, id)| ::
      RecordOk(m.mail, k, past, id, Records(m, id)[i])
  }

  ghost predicate QueueOk(k: Kernel, past: Past, id: AppId, queue: seq<Event>) {
    && (forall i | 0 <= i < |queue| ::
          (id, k.boot, queue[i].id) in past.posted && past.posted[(id, k.boot, queue[i].id)] == queue[i])
    && forall i, j | 0 <= i < j < |queue| :: queue[i].id != queue[j].id
  }

  ghost predicate QueuesOk(k: Kernel, past: Past) {
    forall id {:trigger QueueOk(k, past, id, QueueOf(k, id))} :: QueueOk(k, past, id, QueueOf(k, id))
  }

  ghost predicate StillQueued(k: Kernel, past: Past, x: EventName) {
    x in past.posted && InQueue(QueueOf(k, x.0), past.posted[x])
  }

  /** Ids are minted once per boot, boots are never reused, and an event leaves its queue only when acknowledged. */
  ghost predicate PostedOk(k: Kernel, past: Past) {
    && k.boot in past.boots
    && (forall x: EventName | x in past.posted :: past.posted[x].id == x.2 && x.1 in past.boots && (x.1 == k.boot ==> x.2 <= MintedOf(k, x.0)))
    && forall x {:trigger StillQueued(k, past, x)} | x in past.posted && x.1 == k.boot && x !in past.acked :: StillQueued(k, past, x)
  }

  /** A handle that is not in the middle of an event stands at the head of its queue: nothing was skipped. */
  predicate HandlesOk(k: Kernel, lock: Lock) {
    forall id | id in k.handles :: k.handles[id] == if lock.Acking? && lock.id == id then 1 else 0
  }

  /** Between the first commit and the last, the event's message is already on disk. */
  ghost predicate DrainOk(w: World) {
    && (w.lock.Acking? || w.lock.Dropping? ==>
          && w.lock.saved.boot == w.lock.saved.queueBoot == w.kernel.boot
          && IsDelivered(w.disk.main.mail, (w.lock.id, w.lock.saved.boot, w.lock.saved.event.id)))
    && (w.lock.Acking? ==> QueueOf(w.kernel, w.lock.id) != [] && QueueOf(w.kernel, w.lock.id)[0] == w.lock.saved.event)
  }

  /** No event is kept twice. */
  predicate KeptOnce(records: seq<Saved>) {
    forall i, j | 0 <= i < j < |records| :: records[i].boot != records[j].boot || records[i].event.id != records[j].event.id
  }

  ghost predicate KeptOnceOk(m: Main) {
    forall id {:trigger KeptOnce(Records(m, id))} :: KeptOnce(Records(m, id))
  }

  /** The records held while they are recovered are of different events of this boot. */
  ghost predicate CopyOk(k: Kernel, past: Past, id: AppId, records: seq<Saved>) {
    && KeptOnce(records)
    && forall i | 0 <= i < |records| :: records[i].boot == k.boot
         && (id, k.boot, records[i].event.id) in past.posted && past.posted[(id, k.boot, records[i].event.id)] == records[i].event
  }

  ghost predicate CopiesOk(k: Kernel, past: Past) {
    forall id {:trigger CopyOk(k, past, id, k.copies[id])} | id in k.copies :: CopyOk(k, past, id, k.copies[id])
  }

  ghost predicate KernelInv(w: World) {
    && KeptOnceOk(w.disk.main) && CopiesOk(w.kernel, w.past)
    && AckedOk(w.disk.main.mail, w.past) && SnappedOk(w.disk.main, w.past) && RecordsOk(w.disk.main, w.kernel, w.past)
    && QueuesOk(w.kernel, w.past) && PostedOk(w.kernel, w.past) && HandlesOk(w.kernel, w.lock) && DrainOk(w)
  }

  // ---- Frames ----

  lemma DeliveredOnward(a: Mail, b: Mail, x: EventName)
    requires MailOnward(a, b) && IsDelivered(a, x)
    ensures IsDelivered(b, x)
  {
    assert Onward(a[x.0], b[x.0]);
    FindKeyOnward(a[x.0], b[x.0], KernelKey(x.0, x.1, x.2));
  }

  lemma AckedFrame(a: Mail, b: Mail, past: Past)
    requires AckedOk(a, past) && MailOnward(a, b)
    ensures AckedOk(b, past)
  {
    hide MailOnward, IsDelivered;
    forall x | x in past.acked
      ensures IsDelivered(b, x)
    {
      assert IsDelivered(a, x);
      DeliveredOnward(a, b, x);
    }
  }

  lemma SnappedFrame(a: Main, b: Main, p: Past, q: Past)
    requires SnappedOk(a, p) && MailOnward(a.mail, b.mail) && q.snapped == p.snapped && p.retired <= q.retired
    requires forall id | id !in q.retired :: Records(b, id) == Records(a, id)
    ensures SnappedOk(b, q)
  {
    hide MailOnward, IsDelivered;
    forall x | x in q.snapped && x.0 !in q.retired
      ensures IsDelivered(b.mail, x) || IsKept(Records(b, x.0), x.1, x.2)
    {
      assert IsDelivered(a.mail, x) || IsKept(Records(a, x.0), x.1, x.2);
      if IsDelivered(a.mail, x) {
        DeliveredOnward(a.mail, b.mail, x);
      }
    }
  }

  lemma RecordFrame(a: Mail, b: Mail, k: Kernel, past: Past, id: AppId, s: Saved)
    requires RecordOk(a, k, past, id, s) && MailOnward(a, b)
    ensures RecordOk(b, k, past, id, s)
  {
    hide MailOnward, IsDelivered;
    if IsDelivered(a, (id, s.boot, s.event.id)) {
      DeliveredOnward(a, b, (id, s.boot, s.event.id));
    }
  }

  /** Every record of the second list is in the first. */
  predicate Fewer(a: seq<Saved>, b: seq<Saved>) { forall i | 0 <= i < |b| :: b[i] in a }

  ghost predicate AllFewer(a: Main, b: Main) {
    forall id {:trigger Fewer(Records(a, id), Records(b, id))} :: Fewer(Records(a, id), Records(b, id))
  }

  lemma RecordsFrame(a: Main, b: Main, k: Kernel, past: Past)
    requires RecordsOk(a, k, past) && MailOnward(a.mail, b.mail) && AllFewer(a, b)
    ensures RecordsOk(b, k, past)
  {
    hide MailOnward, RecordOk;
    forall id, i | 0 <= i < |Records(b, id)|
      ensures RecordOk(b.mail, k, past, id, Records(b, id)[i])
    {
      assert Fewer(Records(a, id), Records(b, id));
      assert Records(b, id)[i] in Records(a, id);
      var j :| 0 <= j < |Records(a, id)| && Records(a, id)[j] == Records(b, id)[i];
      assert RecordOk(a.mail, k, past, id, Records(a, id)[j]);
      RecordFrame(a.mail, b.mail, k, past, id, Records(a, id)[j]);
    }
  }

  /** A supervisor step that leaves kept records and the kernel alone. */
  lemma KernelFrame(w: World, v: World)
    requires KernelInv(w) && MailOnward(w.disk.main.mail, v.disk.main.mail) && v.disk.main.pending == w.disk.main.pending
    requires v.kernel == w.kernel && v.past.boots == w.past.boots && v.past.posted == w.past.posted
    requires v.past.acked == w.past.acked && v.past.snapped == w.past.snapped && w.past.retired <= v.past.retired
    requires v.lock == w.lock || (!w.lock.Acking? && !w.lock.Dropping? && !v.lock.Acking? && !v.lock.Dropping?)
    ensures KernelInv(v)
  {
    AckedFrame(w.disk.main.mail, v.disk.main.mail, w.past);
    SnappedFrame(w.disk.main, v.disk.main, w.past, v.past);
    SameRecords(w.disk.main, v.disk.main);
    RecordsFrame(w.disk.main, v.disk.main, w.kernel, w.past);
    if w.lock.Acking? || w.lock.Dropping? {
      DeliveredOnward(w.disk.main.mail, v.disk.main.mail, (w.lock.id, w.lock.saved.boot, w.lock.saved.event.id));
    }
    SameOnce(w.disk.main, v.disk.main);
    CopiesFrame(w.kernel, v.kernel, w.past, v.past);
    hide MailOnward, IsDelivered, Records, KeptOnceOk, CopiesOk;
    PastParts(w.disk.main, v.disk.main, w.kernel, w.past, v.past);
  }

  lemma SameRecords(a: Main, b: Main)
    requires b.pending == a.pending
    ensures AllFewer(a, b)
  {
  }

  /** The invariant reads only part of the history. */
  lemma PastParts(a: Main, b: Main, k: Kernel, p: Past, q: Past)
    requires q.boots == p.boots && q.posted == p.posted && q.acked == p.acked
    ensures AckedOk(b.mail, p) ==> AckedOk(b.mail, q)
    ensures RecordsOk(b, k, p) ==> RecordsOk(b, k, q)
    ensures QueuesOk(k, p) ==> QueuesOk(k, q)
    ensures PostedOk(k, p) ==> PostedOk(k, q)
  {
    hide IsDelivered, Records;
    if RecordsOk(b, k, p) {
      forall id, i | 0 <= i < |Records(b, id)|
        ensures RecordOk(b.mail, k, q, id, Records(b, id)[i])
      {
        assert RecordOk(b.mail, k, p, id, Records(b, id)[i]);
      }
    }
    if QueuesOk(k, p) {
      forall id
        ensures QueueOk(k, q, id, QueueOf(k, id))
      {
        assert QueueOk(k, p, id, QueueOf(k, id));
      }
    }
    if PostedOk(k, p) {
      forall x | x in q.posted && x.1 == k.boot && x !in q.acked
        ensures StillQueued(k, q, x)
      {
        assert StillQueued(k, p, x);
      }
    }
  }

  lemma CopiesFrame(k: Kernel, q: Kernel, p: Past, r: Past)
    requires CopiesOk(k, p) && q.boot == k.boot && (q.copies == k.copies || q.copies == map[])
    requires forall x | x in p.posted :: x in r.posted && r.posted[x] == p.posted[x]
    ensures CopiesOk(q, r)
  {
    forall id | id in q.copies
      ensures CopyOk(q, r, id, q.copies[id])
    {
      assert CopyOk(k, p, id, k.copies[id]);
    }
  }

  lemma OnceFrame(a: Main, b: Main, id: AppId)
    requires KeptOnceOk(a) && KeptOnce(Records(b, id)) && forall x | x != id :: Records(b, x) == Records(a, x)
    ensures KeptOnceOk(b)
  {
    hide KeptOnce, Records;
    forall x
      ensures KeptOnce(Records(b, x))
    {
      assert x != id ==> KeptOnce(Records(a, x));
    }
  }

  lemma SameOnce(a: Main, b: Main)
    requires KeptOnceOk(a) && b.pending == a.pending
    ensures KeptOnceOk(b)
  {
    forall x
      ensures KeptOnce(Records(b, x))
    {
      assert KeptOnce(Records(a, x));
    }
  }

  // ---- Steps of the kernel ----

  lemma QueueGrows(k: Kernel, q: Kernel, p: Past, r: Past, m: Main)
    requires RecordsOk(m, k, p) && q.boot == k.boot && r.boots == p.boots
    requires forall x | x in p.posted :: x in r.posted && r.posted[x] == p.posted[x]
    requires forall id :: QueueOf(k, id) <= QueueOf(q, id)
    ensures RecordsOk(m, q, r)
  {
    hide IsDelivered, Records;
    forall id, i | 0 <= i < |Records(m, id)|
      ensures RecordOk(m.mail, q, r, id, Records(m, id)[i])
    {
      var s := Records(m, id)[i];
      assert RecordOk(m.mail, k, p, id, s);
      if InQueue(QueueOf(k, id), s.event) {
        var j :| 0 <= j < |QueueOf(k, id)| && QueueOf(k, id)[j] == s.event;
        assert QueueOf(k, id) <= QueueOf(q, id);
        assert QueueOf(q, id)[j] == s.event;
      }
    }
  }

  lemma PostQueues(k: Kernel, q: Kernel, p: Past, r: Past, id: AppId, event: Event)
    requires QueuesOk(k, p) && PostedOk(k, p) && event.id == MintedOf(k, id) + 1
    requires q == k.(queues := k.queues[id := QueueOf(k, id) + [event]], minted := k.minted[id := event.id])
    requires r == p.(posted := p.posted[(id, k.boot, event.id) := event])
    ensures QueuesOk(q, r) && PostedOk(q, r)
    ensures forall x | x in p.posted :: x in r.posted && r.posted[x] == p.posted[x]
    ensures forall x :: QueueOf(k, x) <= QueueOf(q, x)
  {
    assert (id, k.boot, event.id) !in p.posted;
    forall x
      ensures QueueOk(q, r, x, QueueOf(q, x))
    {
      assert QueueOk(k, p, x, QueueOf(k, x));
    }
    forall x | x in r.posted && x.1 == q.boot && x !in r.acked
      ensures StillQueued(q, r, x)
    {
      PostQueued(k, q, p, r, id, event, x);
    }
  }

  lemma PostQueued(k: Kernel, q: Kernel, p: Past, r: Past, id: AppId, event: Event, x: EventName)
    requires q.queues == k.queues[id := QueueOf(k, id) + [event]] && q.boot == k.boot
    requires r == p.(posted := p.posted[(id, k.boot, event.id) := event]) && x in r.posted
    requires x != (id, k.boot, event.id) ==> StillQueued(k, p, x)
    ensures StillQueued(q, r, x)
  {
    var queue := QueueOf(q, x.0);
    if x == (id, k.boot, event.id) {
      assert queue[|QueueOf(k, id)|] == event;
    } else {
      var j :| 0 <= j < |QueueOf(k, x.0)| && QueueOf(k, x.0)[j] == p.posted[x];
      assert queue[j] == p.posted[x];
    }
  }

  lemma PostStep(w: World, id: AppId, content: Event)
    requires KernelInv(w)
    ensures KernelInv(DoPost(w, id, content))
  {
    var v := DoPost(w, id, content);
    var event := content.(id := MintedOf(w.kernel, id) + 1);
    PostQueues(w.kernel, v.kernel, w.past, v.past, id, event);
    QueueGrows(w.kernel, v.kernel, w.past, v.past, w.disk.main);
    CopiesFrame(w.kernel, v.kernel, w.past, v.past);
    assert DrainOk(v) by {
      if w.lock.Acking? {
        assert QueueOf(w.kernel, w.lock.id) <= QueueOf(v.kernel, w.lock.id);
      }
    }
    hide QueuesOk, RecordsOk, PostedOk, IsDelivered, DrainOk, Records, KeptOnceOk, CopiesOk;
  }

  lemma AttachStep(w: World, id: AppId)
    requires KernelInv(w) && w.live.main == w.disk.main
    ensures KernelInv(DoAttach(w, id))
  {
    var v := DoAttach(w, id);
    if v.kernel.copies != w.kernel.copies {
      var records := Records(w.disk.main, id);
      AttachCopy(w, id);
      forall x | x in v.kernel.copies
        ensures CopyOk(v.kernel, v.past, x, v.kernel.copies[x])
      {
        assert x != id ==> CopyOk(w.kernel, w.past, x, w.kernel.copies[x]);
      }
      assert CopiesOk(v.kernel, v.past);
      hide SnappedOk, AckedOk, IsDelivered, Records, KeptOnceOk, CopiesOk, RecordsOk, QueuesOk, PostedOk;
      QueuesOnly(w.disk.main, w.kernel, v.kernel, w.past);
    }
  }

  /** The records of an application, all of this boot, make a good copy. */
  lemma AttachCopy(w: World, id: AppId)
    requires KeptOnceOk(w.disk.main) && RecordsOk(w.disk.main, w.kernel, w.past)
    requires forall i | 0 <= i < |Records(w.disk.main, id)| :: Records(w.disk.main, id)[i].queueBoot == w.kernel.boot
    ensures CopyOk(w.kernel, w.past, id, Records(w.disk.main, id))
  {
    var records := Records(w.disk.main, id);
    assert KeptOnce(records);
    hide IsDelivered, Records, KeptOnceOk;
    forall i | 0 <= i < |records|
      ensures records[i].boot == w.kernel.boot && (id, w.kernel.boot, records[i].event.id) in w.past.posted
      ensures w.past.posted[(id, w.kernel.boot, records[i].event.id)] == records[i].event
    {
      assert RecordOk(w.disk.main.mail, w.kernel, w.past, id, records[i]);
    }
  }

  /** What the invariants of records and queues read of the kernel. */
  lemma QueuesOnly(m: Main, k: Kernel, q: Kernel, p: Past)
    requires q == k.(handles := q.handles, copies := q.copies)
    ensures RecordsOk(m, k, p) ==> RecordsOk(m, q, p)
    ensures QueuesOk(k, p) ==> QueuesOk(q, p)
    ensures PostedOk(k, p) ==> PostedOk(q, p)
  {
    StagePast(m, m, k, q, p, p);
  }

  lemma ReinjectStep(w: World, id: AppId)
    requires KernelInv(w)
    ensures KernelInv(DoReinject(w, id))
  {
    var v := DoReinject(w, id);
    if Idle(w) && id in w.kernel.copies && Records(w.live.main, id) == [] {
      CopiesDrop(w.kernel, v.kernel, w.past, id);
      ReinjectQueues(w, v, id);
      hide AckedOk, SnappedOk, RecordsOk, QueuesOk, PostedOk, IsDelivered, Records, KeptOnceOk, CopiesOk;
      QueueGrows(w.kernel, v.kernel, w.past, v.past, w.disk.main);
    }
  }

  /** What comes back into an empty queue has all been delivered. */
  lemma ReinjectedIsDelivered(w: World, id: AppId, i: nat)
    requires KernelInv(w) && id in w.kernel.copies && QueueOf(w.kernel, id) == [] && i < |w.kernel.copies[id]|
    ensures IsDelivered(w.disk.main.mail, (id, w.kernel.boot, w.kernel.copies[id][i].event.id))
  {
    hide SnappedOk, RecordsOk, IsDelivered, Records, KeptOnceOk;
    assert CopyOk(w.kernel, w.past, id, w.kernel.copies[id]);
    var x := (id, w.kernel.boot, w.kernel.copies[id][i].event.id);
    assert !StillQueued(w.kernel, w.past, x);
    assert x in w.past.acked;
  }

  lemma CopiesDrop(k: Kernel, q: Kernel, p: Past, id: AppId)
    requires CopiesOk(k, p) && q.boot == k.boot && q.copies == k.copies - {id}
    ensures CopiesOk(q, p)
  {
    forall x | x in q.copies
      ensures CopyOk(q, p, x, q.copies[x])
    {
      assert CopyOk(k, p, x, k.copies[x]);
    }
  }

  /** Only events the kernel posted in this boot come back, each once. */
  lemma ReinjectQueues(w: World, v: World, id: AppId)
    requires CopiesOk(w.kernel, w.past) && QueuesOk(w.kernel, w.past) && PostedOk(w.kernel, w.past) && id in w.kernel.copies
    requires v.past == w.past && v.kernel == w.kernel.(queues := v.kernel.queues, copies := v.kernel.copies)
    requires v.kernel.queues == w.kernel.queues
             || (QueueOf(w.kernel, id) == [] && v.kernel.queues == w.kernel.queues[id := EventsOf(w.kernel.copies[id])])
    ensures QueuesOk(v.kernel, v.past) && PostedOk(v.kernel, v.past)
    ensures forall x :: QueueOf(w.kernel, x) <= QueueOf(v.kernel, x)
  {
    assert CopyOk(w.kernel, w.past, id, w.kernel.copies[id]);
    forall x
      ensures QueueOk(v.kernel, v.past, x, QueueOf(v.kernel, x)) && QueueOf(w.kernel, x) <= QueueOf(v.kernel, x)
    {
      assert QueueOk(w.kernel, w.past, x, QueueOf(w.kernel, x));
    }
    forall x | x in v.past.posted && x.1 == v.kernel.boot && x !in v.past.acked
      ensures StillQueued(v.kernel, v.past, x)
    {
      assert StillQueued(w.kernel, w.past, x);
    }
  }

  // ---- Recovery of kept records ----

  lemma DeliveredShape(e: Env, st: State, id: AppId, key: string, raw: string, pending: map<AppId, seq<Saved>>, now: int)
    requires !Enqueue(e, st, "supervisor", id, key, raw, now).Refused?
    ensures var after := Delivered(e, st, id, key, raw, st.main.timers, st.main.bindings, pending, now).main;
            HasKey(after.mail, id, key) && after.pending == pending
  {
    hide Enqueue, Enqueued;
    EnqueueDelivers(e, st, "supervisor", id, key, raw, now);
  }

  lemma RecoverRecordShape(e: Env, st: State, id: AppId, now: int)
    requires RecoverFirst(e, st, id, now).Some?
    ensures var records := Records(st.main, id);
            var after := RecoverFirst(e, st, id, now).value.main;
            && records != [] && IsDelivered(after.mail, (id, records[0].boot, records[0].event.id))
            && after.pending == WithRecords(st.main.pending, id, records[1..])
  {
    hide Enqueue, Delivered, KernelKey;
    var records := Records(st.main, id);
    DeliveredShape(e, st, id, KernelKey(id, records[0].boot, records[0].event.id), e.kernelWake(id, records[0].event),
                   WithRecords(st.main.pending, id, records[1..]), now);
  }

  lemma WithRecordsIs(m: Main, b: Main, id: AppId, records: seq<Saved>)
    requires b.pending == WithRecords(m.pending, id, records)
    ensures Records(b, id) == records && forall x | x != id :: Records(b, x) == Records(m, x)
  {
  }

  /** Dropping records whose messages are delivered. */
  lemma DropDelivered(a: Main, b: Main, k: Kernel, p: Past, id: AppId)
    requires SnappedOk(a, p) && RecordsOk(a, k, p) && MailOnward(a.mail, b.mail)
    requires (forall x | x != id :: Records(b, x) == Records(a, x)) && Fewer(Records(a, id), Records(b, id))
    requires forall i | 0 <= i < |Records(a, id)| ::
               Records(a, id)[i] in Records(b, id) || IsDelivered(b.mail, (id, Records(a, id)[i].boot, Records(a, id)[i].event.id))
    ensures SnappedOk(b, p) && RecordsOk(b, k, p)
  {
    hide MailOnward, IsDelivered;
    forall x | x in p.snapped && x.0 !in p.retired
      ensures IsDelivered(b.mail, x) || IsKept(Records(b, x.0), x.1, x.2)
    {
      assert IsDelivered(a.mail, x) || IsKept(Records(a, x.0), x.1, x.2);
      if IsDelivered(a.mail, x) {
        DeliveredOnward(a.mail, b.mail, x);
      } else {
        var i :| 0 <= i < |Records(a, x.0)| && Records(a, x.0)[i].boot == x.1 && Records(a, x.0)[i].event.id == x.2;
        if Records(a, x.0)[i] in Records(b, x.0) {
          var j :| 0 <= j < |Records(b, x.0)| && Records(b, x.0)[j] == Records(a, x.0)[i];
        }
      }
    }
    forall x
      ensures Fewer(Records(a, x), Records(b, x))
    {
    }
    RecordsFrame(a, b, k, p);
  }

  lemma RecoverRecordStep(e: Env, w: World, id: AppId, now: int, ok: bool)
    requires KernelInv(w) && w.live.main == w.disk.main && Idle(w)
    requires RecoverFirst(e, w.live, id, now).Some? ==> MailOnward(w.live.main.mail, RecoverFirst(e, w.live, id, now).value.main.mail)
    ensures KernelInv(DoRecoverRecord(e, w, id, now, ok))
  {
    var v := DoRecoverRecord(e, w, id, now, ok);
    hide MailOnward, IsDelivered, RecoverFirst;
    if RecoverFirst(e, w.live, id, now).Some? && ok {
      var a, b := w.disk.main, v.disk.main;
      RecoverRecordShape(e, w.live, id, now);
      var records := Records(a, id);
      WithRecordsIs(a, b, id, records[1..]);
      RestOf(records);
      AckedFrame(a.mail, b.mail, w.past);
      forall i | 0 <= i < |records|
        ensures records[i] in records[1..] || IsDelivered(b.mail, (id, records[i].boot, records[i].event.id))
      {
        assert i > 0 ==> records[1..][i - 1] == records[i];
      }
      DropDelivered(a, b, w.kernel, w.past, id);
      assert KeptOnce(records);
      OnceFrame(a, b, id);
      hide SnappedOk, RecordsOk, Records, KeptOnceOk, CopiesOk;
    }
  }

  lemma RestOf(records: seq<Saved>)
    requires records != []
    ensures Fewer(records, records[1..])
  {
  }

  // ---- The drain loop ----

  lemma StageShape(e: Env, st: State, id: AppId, event: Event, boot: string, now: int)
    requires StageEvent(e, st, id, event, boot, now).Some? && Records(st.main, id) == []
    ensures var after := StageEvent(e, st, id, event, boot, now).value.main;
            && Identify(Records(st.main, id), event, boot) == Saved(boot, boot, event)
            && IsDelivered(after.mail, (id, boot, event.id)) && after.pending == st.main.pending[id := [Saved(boot, boot, event)]]
  {
    hide Enqueue, Delivered, KernelKey;
    assert Without(Records(st.main, id), boot, event.id) + [Saved(boot, boot, event)] == [Saved(boot, boot, event)];
    DeliveredShape(e, st, id, KernelKey(id, boot, event.id), e.kernelWake(id, event), st.main.pending[id := [Saved(boot, boot, event)]], now);
  }

  lemma StageRecords(a: Main, b: Main, k: Kernel, p: Past, id: AppId, event: Event)
    requires SnappedOk(a, p) && RecordsOk(a, k, p) && MailOnward(a.mail, b.mail) && QueuesOk(k, p) && PostedOk(k, p)
    requires Records(a, id) == [] && b.pending == a.pending[id := [Saved(k.boot, k.boot, event)]]
    requires IsDelivered(b.mail, (id, k.boot, event.id)) && InQueue(QueueOf(k, id), event)
    ensures SnappedOk(b, p.(snapped := p.snapped + {(id, k.boot, event.id)})) && RecordsOk(b, k, p)
  {
    hide MailOnward, IsDelivered, InQueue;
    forall x | x in p.snapped + {(id, k.boot, event.id)} && x.0 !in p.retired
      ensures IsDelivered(b.mail, x) || IsKept(Records(b, x.0), x.1, x.2)
    {
      if x in p.snapped {
        assert IsDelivered(a.mail, x) || IsKept(Records(a, x.0), x.1, x.2);
        if IsDelivered(a.mail, x) {
          DeliveredOnward(a.mail, b.mail, x);
        }
      }
    }
    PostedInQueue(k, p, id, event);
    forall x, i | 0 <= i < |Records(b, x)|
      ensures RecordOk(b.mail, k, p, x, Records(b, x)[i])
    {
      if x != id {
        assert RecordOk(a.mail, k, p, x, Records(a, x)[i]);
        RecordFrame(a.mail, b.mail, k, p, x, Records(a, x)[i]);
      }
    }
  }

  lemma PostedInQueue(k: Kernel, p: Past, id: AppId, event: Event)
    requires QueuesOk(k, p) && InQueue(QueueOf(k, id), event)
    ensures (id, k.boot, event.id) in p.posted && p.posted[(id, k.boot, event.id)] == event
  {
    assert QueueOk(k, p, id, QueueOf(k, id));
  }

  lemma HeadOfQueue(w: World, id: AppId)
    requires HandlesOk(w.kernel, w.lock) && w.lock == Free
    ensures CursorAt(w.kernel, id) == 0
  {
  }

  lemma StageCommits(w: World, v: World, id: AppId, event: Event)
    requires KernelInv(w) && w.lock == Free && QueueOf(w.kernel, id) != [] && event == QueueOf(w.kernel, id)[0]
    requires MailOnward(w.disk.main.mail, v.disk.main.mail) && Records(w.disk.main, id) == []
    requires v.disk.main.pending == w.disk.main.pending[id := [Saved(w.kernel.boot, w.kernel.boot, event)]]
    requires IsDelivered(v.disk.main.mail, (id, w.kernel.boot, event.id))
    requires v.lock == Acking(id, Saved(w.kernel.boot, w.kernel.boot, event))
    requires v.kernel == w.kernel.(handles := w.kernel.handles[id := 1])
    requires v.past == w.past.(snapped := w.past.snapped + {(id, w.kernel.boot, event.id)})
    ensures KernelInv(v)
  {
    var a, b := w.disk.main, v.disk.main;
    assert InQueue(QueueOf(w.kernel, id), event);
    hide MailOnward, IsDelivered, InQueue, SnappedOk, RecordsOk, QueuesOk, AckedOk, PostedOk;
    AckedFrame(a.mail, b.mail, w.past);
    StageRecords(a, b, w.kernel, w.past, id, event);
    StagePast(a, b, w.kernel, v.kernel, w.past, v.past);
    CopiesFrame(w.kernel, v.kernel, w.past, v.past);
    OnceFrame(a, b, id);
  }

  lemma StageStep(e: Env, w: World, id: AppId, now: int, ok: bool)
    requires KernelInv(w) && w.live.main == w.disk.main && Idle(w)
    requires QueueOf(w.kernel, id) != [] && StageEvent(e, w.live, id, QueueOf(w.kernel, id)[0], w.kernel.boot, now).Some? ==>
               MailOnward(w.live.main.mail, StageEvent(e, w.live, id, QueueOf(w.kernel, id)[0], w.kernel.boot, now).value.main.mail)
    ensures KernelInv(DoStage(e, w, id, now, ok))
  {
    hide KernelInv, MailOnward, IsDelivered, StageEvent;
    var v := DoStage(e, w, id, now, ok);
    HandlesNow(w, id);
    if v.lock.Acking? {
      var event := QueueOf(w.kernel, id)[0];
      StageShape(e, w.live, id, event, w.kernel.boot, now);
      StageCommits(w, v, id, event);
    } else {
      SameKernel(w, v);
    }
  }

  lemma HandlesNow(w: World, id: AppId)
    requires KernelInv(w) && w.lock == Free
    ensures CursorAt(w.kernel, id) == 0
  {
    hide SnappedOk, RecordsOk, QueuesOk, AckedOk, PostedOk, IsDelivered;
    HeadOfQueue(w, id);
  }

  lemma StagePast(a: Main, b: Main, k: Kernel, q: Kernel, p: Past, r: Past)
    requires r == p.(snapped := r.snapped) && q == k.(handles := q.handles, copies := q.copies)
    ensures AckedOk(b.mail, p) ==> AckedOk(b.mail, r)
    ensures RecordsOk(b, k, p) ==> RecordsOk(b, q, r)
    ensures QueuesOk(k, p) ==> QueuesOk(q, r)
    ensures PostedOk(k, p) ==> PostedOk(q, r)
  {
    hide IsDelivered, Records;
    if RecordsOk(b, k, p) {
      forall id, i | 0 <= i < |Records(b, id)|
        ensures RecordOk(b.mail, q, r, id, Records(b, id)[i])
      {
        assert RecordOk(b.mail, k, p, id, Records(b, id)[i]);
      }
    }
    if QueuesOk(k, p) {
      forall id
        ensures QueueOk(q, r, id, QueueOf(q, id))
      {
        assert QueueOk(k, p, id, QueueOf(k, id));
      }
    }
    if PostedOk(k, p) {
      forall x | x in r.posted && x.1 == q.boot && x !in r.acked
        ensures StillQueued(q, r, x)
      {
        assert StillQueued(k, p, x);
      }
    }
  }

  /** Closing handles changes nothing else. */
  lemma SameKernel(w: World, v: World)
    requires KernelInv(w) && v.disk == w.disk && v.past == w.past && v.kernel == w.kernel.(handles := v.kernel.handles)
    requires forall id | id in v.kernel.handles :: id in w.kernel.handles && v.kernel.handles[id] == w.kernel.handles[id]
    requires w.lock == v.lock || (!w.lock.Acking? && v.lock == Free)
    ensures KernelInv(v)
  {
    StagePast(w.disk.main, v.disk.main, w.kernel, v.kernel, w.past, v.past);
    CopiesFrame(w.kernel, v.kernel, w.past, v.past);
    hide SnappedOk, RecordsOk, QueuesOk, AckedOk, PostedOk, IsDelivered, KeptOnceOk, CopiesOk;
  }

  lemma RemoveHead(queue: seq<Event>)
    requires queue != []
    ensures RemoveEvent(queue, queue[0].id) == queue[1..]
  {
  }

  lemma AckedQueues(k: Kernel, q: Kernel, p: Past, id: AppId)
    requires QueuesOk(k, p) && QueueOf(k, id) != [] && q == k.(queues := k.queues[id := QueueOf(k, id)[1..]], handles := q.handles)
    ensures QueuesOk(q, p)
  {
    forall x
      ensures QueueOk(q, p, x, QueueOf(q, x))
    {
      assert QueueOk(k, p, x, QueueOf(k, x));
    }
  }

  lemma AckedRecords(m: Main, k: Kernel, q: Kernel, p: Past, id: AppId)
    requires RecordsOk(m, k, p) && QueueOf(k, id) != [] && q == k.(queues := k.queues[id := QueueOf(k, id)[1..]], handles := q.handles)
    requires IsDelivered(m.mail, (id, k.boot, QueueOf(k, id)[0].id))
    ensures RecordsOk(m, q, p)
  {
    hide IsDelivered, Records;
    forall x, i | 0 <= i < |Records(m, x)|
      ensures RecordOk(m.mail, q, p, x, Records(m, x)[i])
    {
      var s := Records(m, x)[i];
      assert RecordOk(m.mail, k, p, x, s);
      if InQueue(QueueOf(k, x), s.event) && x == id && s.event != QueueOf(k, id)[0] {
        var j :| 0 <= j < |QueueOf(k, id)| && QueueOf(k, id)[j] == s.event;
        assert QueueOf(q, id)[j - 1] == s.event;
      }
    }
  }

  lemma AckStep(w: World, result: AckResult)
    requires KernelInv(w)
    ensures KernelInv(DoAck(w, result))
  {
    var v := DoAck(w, result);
    if w.up && w.lock.Acking? {
      var id := w.lock.id;
      var queue := QueueOf(w.kernel, id);
      RemoveHead(queue);
      if result == AckRefused {
        hide SnappedOk, RecordsOk, QueuesOk, AckedOk, PostedOk, IsDelivered;
        StageKernel(w, v);
      } else {
        AckedQueues(w.kernel, v.kernel, w.past, id);
        AckedRecords(w.disk.main, w.kernel, v.kernel, w.past, id);
        hide SnappedOk, RecordsOk, QueuesOk, PostedOk, IsDelivered, KeptOnceOk, CopiesOk;
        AckedPast(w, v);
      }
    }
  }

  lemma StageKernel(w: World, v: World)
    requires KernelInv(w) && w.lock.Acking? && v.lock == Free && v.disk == w.disk && v.past == w.past
    requires v.kernel == w.kernel.(handles := w.kernel.handles - {w.lock.id})
    ensures KernelInv(v)
  {
    StagePast(w.disk.main, v.disk.main, w.kernel, v.kernel, w.past, v.past);
    CopiesFrame(w.kernel, v.kernel, w.past, v.past);
    hide SnappedOk, RecordsOk, QueuesOk, AckedOk, PostedOk, IsDelivered, KeptOnceOk, CopiesOk;
  }

  lemma AckedPast(w: World, v: World)
    requires KernelInv(w) && w.lock.Acking? && v.disk == w.disk
    requires v.past == w.past.(acked := w.past.acked + {(w.lock.id, w.kernel.boot, w.lock.saved.event.id)})
    requires v.kernel == w.kernel.(queues := w.kernel.queues[w.lock.id := QueueOf(w.kernel, w.lock.id)[1..]], handles := v.kernel.handles)
    requires QueuesOk(v.kernel, w.past) && RecordsOk(w.disk.main, v.kernel, w.past)
    requires v.lock == Free || (v.lock == Dropping(w.lock.id, w.lock.saved))
    requires forall id | id in v.kernel.handles && id != w.lock.id :: id in w.kernel.handles && v.kernel.handles[id] == w.kernel.handles[id]
    requires w.lock.id in v.kernel.handles ==> v.kernel.handles[w.lock.id] == 0
    ensures KernelInv(v)
  {
    var a := w.disk.main;
    forall id
      ensures QueueOk(v.kernel, v.past, id, QueueOf(v.kernel, id))
    {
      assert QueueOk(v.kernel, w.past, id, QueueOf(v.kernel, id));
    }
    hide IsDelivered, Records;
    forall id, i | 0 <= i < |Records(a, id)|
      ensures RecordOk(a.mail, v.kernel, v.past, id, Records(a, id)[i])
    {
      assert RecordOk(a.mail, v.kernel, w.past, id, Records(a, id)[i]);
    }
    assert SnappedOk(a, v.past) by { SnappedSame(a, w.past, v.past); }
    CopiesFrame(w.kernel, v.kernel, w.past, v.past);
    forall x | x in v.past.posted && x.1 == v.kernel.boot && x !in v.past.acked
      ensures StillQueued(v.kernel, v.past, x)
    {
      assert StillQueued(w.kernel, w.past, x);
      AckQueued(w.kernel, v.kernel, w.past, v.past, w.lock.id, x);
    }
  }

  lemma AckQueued(k: Kernel, q: Kernel, p: Past, r: Past, id: AppId, x: EventName)
    requires QueuesOk(k, p) && QueueOf(k, id) != [] && q == k.(queues := k.queues[id := QueueOf(k, id)[1..]], handles := q.handles)
    requires r.posted == p.posted && StillQueued(k, p, x) && p.posted[x].id == x.2 && x.1 == k.boot && x != (id, k.boot, QueueOf(k, id)[0].id)
    ensures StillQueued(q, r, x)
  {
    var queue := QueueOf(k, x.0);
    assert QueueOk(k, p, x.0, queue);
    var j :| 0 <= j < |queue| && queue[j] == p.posted[x];
    if x.0 == id {
      assert QueueOf(q, id)[j - 1] == queue[j];
    }
  }

  lemma SnappedSame(m: Main, p: Past, q: Past)
    requires SnappedOk(m, p) && q.snapped == p.snapped && q.retired == p.retired
    ensures SnappedOk(m, q)
  {
  }

  lemma {:induction false} WithoutIs(records: seq<Saved>, boot: string, event: nat)
    ensures Fewer(records, Without(records, boot, event))
    ensures forall i | 0 <= i < |records| ::
              records[i] in Without(records, boot, event) || (records[i].boot == boot && records[i].event.id == event)
  {
    if records != [] {
      var front := records[..|records| - 1];
      WithoutIs(front, boot, event);
      forall i | 0 <= i < |records|
        ensures records[i] in Without(records, boot, event) || (records[i].boot == boot && records[i].event.id == event)
      {
        if i < |front| {
          assert front[i] == records[i];
        }
      }
    }
  }

  lemma {:induction false} WithoutOnce(records: seq<Saved>, boot: string, event: nat)
    requires KeptOnce(records)
    ensures KeptOnce(Without(records, boot, event))
  {
    if records != [] {
      var front, last := records[..|records| - 1], records[|records| - 1];
      assert KeptOnce(front);
      WithoutOnce(front, boot, event);
      WithoutIs(front, boot, event);
      assert front + [last] == records;
      OnceMore(front, Without(front, boot, event), last);
    }
  }

  lemma OnceMore(front: seq<Saved>, some: seq<Saved>, last: Saved)
    requires KeptOnce(some) && Fewer(front, some) && KeptOnce(front + [last])
    ensures KeptOnce(some + [last])
  {
    forall i | 0 <= i < |some|
      ensures some[i].boot != last.boot || some[i].event.id != last.event.id
    {
      var j :| 0 <= j < |front| && front[j] == some[i];
      assert (front + [last])[j] == some[i] && (front + [last])[|front|] == last;
    }
  }

  lemma DropStep(w: World, ok: bool)
    requires KernelInv(w) && w.live.main == w.disk.main
    ensures KernelInv(DoDrop(w, ok))
  {
    var v := DoDrop(w, ok);
    if w.up && w.lock.Dropping? {
      var id, saved := w.lock.id, w.lock.saved;
      var a, b := w.disk.main, v.disk.main;
      hide IsDelivered;
      if ok {
        var records := Records(a, id);
        WithoutIs(records, saved.boot, saved.event.id);
        WithRecordsIs(a, b, id, Without(records, saved.boot, saved.event.id));
        SameMail(a, b);
        DropDelivered(a, b, w.kernel, w.past, id);
        assert KeptOnce(records);
        WithoutOnce(records, saved.boot, saved.event.id);
        OnceFrame(a, b, id);
      }
      hide SnappedOk, RecordsOk, Records, Without, KeptOnceOk, CopiesOk;
    }
  }

  lemma SameMail(a: Main, b: Main)
    requires b.mail == a.mail
    ensures MailOnward(a.mail, b.mail)
  {
  }

  // ---- Retirement, snapshots and boots ----

  lemma RetireStep(w: World, v: World, id: AppId)
    requires KernelInv(w) && w.lock == Free && v.lock == Free && MailOnward(w.disk.main.mail, v.disk.main.mail)
    requires v.disk.main.pending == w.disk.main.pending - {id} && v.past == w.past.(retired := w.past.retired + {id})
    requires v.kernel == w.kernel.(handles := w.kernel.handles - {id})
    ensures KernelInv(v)
  {
    var a, b := w.disk.main, v.disk.main;
    AckedFrame(a.mail, b.mail, w.past);
    SnappedFrame(a, b, w.past, v.past);
    RetiredFewer(a, b, id);
    RecordsFrame(a, b, w.kernel, w.past);
    CopiesFrame(w.kernel, v.kernel, w.past, v.past);
    OnceFrame(a, b, id);
    hide SnappedOk, RecordsOk, QueuesOk, AckedOk, PostedOk, IsDelivered, MailOnward, KeptOnceOk, CopiesOk;
    RetirePast(b, w.kernel, v.kernel, w.past, v.past);
  }

  lemma RetiredFewer(a: Main, b: Main, id: AppId)
    requires b.pending == a.pending - {id}
    ensures AllFewer(a, b)
  {
  }

  lemma RetirePast(b: Main, k: Kernel, q: Kernel, p: Past, r: Past)
    requires r == p.(retired := r.retired) && q == k.(handles := q.handles)
    ensures AckedOk(b.mail, p) ==> AckedOk(b.mail, r)
    ensures RecordsOk(b, k, p) ==> RecordsOk(b, q, r)
    ensures QueuesOk(k, p) ==> QueuesOk(q, r)
    ensures PostedOk(k, p) ==> PostedOk(q, r)
  {
    hide IsDelivered, Records;
    if RecordsOk(b, k, p) {
      forall id, i | 0 <= i < |Records(b, id)|
        ensures RecordOk(b.mail, q, r, id, Records(b, id)[i])
      {
        assert RecordOk(b.mail, k, p, id, Records(b, id)[i]);
      }
    }
    if QueuesOk(k, p) {
      forall id
        ensures QueueOk(q, r, id, QueueOf(q, id))
      {
        assert QueueOk(k, p, id, QueueOf(k, id));
      }
    }
    if PostedOk(k, p) {
      forall x | x in r.posted && x.1 == q.boot && x !in r.acked
        ensures StillQueued(q, r, x)
      {
        assert StillQueued(k, p, x);
      }
    }
  }

  /** A record of this boot is stamped with this boot. */
  lemma {:induction false} IdentifyIs(boot: string, records: seq<Saved>, event: Event)
    requires forall i | 0 <= i < |records| :: records[i].boot == records[i].queueBoot
    ensures Identify(records, event, boot) == Saved(boot, boot, event)
  {
    if records != [] {
      assert records[0].boot == records[0].queueBoot;
      IdentifyIs(boot, records[1..], event);
    }
  }

  /** An application may be snapped without losing what it already kept. */
  lemma SnapOneKeeps(a: Main, b: Main, k: Kernel, p: Past, id: AppId)
    requires SnappedOk(a, p) && RecordsOk(a, k, p) && QueuesOk(k, p) && k.boot in p.boots
    requires forall i | 0 <= i < |Records(a, id)| :: Records(a, id)[i].queueBoot == k.boot
    requires b == a.(pending := WithRecords(a.pending, id, IdentifyAll(Records(a, id), QueueOf(k, id), k.boot)))
    ensures SnappedOk(b, p) && RecordsOk(b, k, p)
    ensures forall i | 0 <= i < |QueueOf(k, id)| :: IsKept(Records(b, id), k.boot, QueueOf(k, id)[i].id)
  {
    var were, queue := Records(a, id), QueueOf(k, id);
    WithRecordsIs(a, b, id, IdentifyAll(were, queue, k.boot));
    forall i | 0 <= i < |were|
      ensures RecordOk(a.mail, k, p, id, were[i])
    {
    }
    forall i | 0 <= i < |queue|
      ensures Records(b, id)[i] == Saved(k.boot, k.boot, queue[i])
    {
      IdentifyIs(k.boot, were, queue[i]);
    }
    hide IsDelivered;
    forall i | 0 <= i < |queue|
      ensures IsKept(Records(b, id), k.boot, queue[i].id)
    {
      assert Records(b, id)[i].event.id == queue[i].id;
    }
    SnapSnapped(a, b, k, p, id);
    SnapRecords(a, b, k, p, id);
  }

  lemma SnapSnapped(a: Main, b: Main, k: Kernel, p: Past, id: AppId)
    requires SnappedOk(a, p) && RecordsOk(a, k, p) && b.mail == a.mail && (forall x | x != id :: Records(b, x) == Records(a, x))
    requires forall i | 0 <= i < |Records(a, id)| :: Records(a, id)[i].queueBoot == k.boot
    requires forall i | 0 <= i < |QueueOf(k, id)| :: IsKept(Records(b, id), k.boot, QueueOf(k, id)[i].id)
    ensures SnappedOk(b, p)
  {
    hide IsDelivered;
    forall x | x in p.snapped && x.0 !in p.retired
      ensures IsDelivered(b.mail, x) || IsKept(Records(b, x.0), x.1, x.2)
    {
      assert IsDelivered(a.mail, x) || IsKept(Records(a, x.0), x.1, x.2);
      if !IsDelivered(a.mail, x) && x.0 == id {
        var i :| 0 <= i < |Records(a, id)| && Records(a, id)[i].boot == x.1 && Records(a, id)[i].event.id == x.2;
        assert RecordOk(a.mail, k, p, id, Records(a, id)[i]);
        var j :| 0 <= j < |QueueOf(k, id)| && QueueOf(k, id)[j] == Records(a, id)[i].event;
        assert IsKept(Records(b, id), k.boot, QueueOf(k, id)[j].id);
      }
    }
  }

  lemma SnapRecords(a: Main, b: Main, k: Kernel, p: Past, id: AppId)
    requires RecordsOk(a, k, p) && QueuesOk(k, p) && k.boot in p.boots && b.mail == a.mail && (forall x | x != id :: Records(b, x) == Records(a, x))
    requires |Records(b, id)| == |QueueOf(k, id)|
    requires forall i | 0 <= i < |QueueOf(k, id)| :: Records(b, id)[i] == Saved(k.boot, k.boot, QueueOf(k, id)[i])
    ensures RecordsOk(b, k, p)
  {
    hide IsDelivered;
    assert QueueOk(k, p, id, QueueOf(k, id));
    forall x, i | 0 <= i < |Records(b, x)|
      ensures RecordOk(b.mail, k, p, x, Records(b, x)[i])
    {
      if x != id {
        assert RecordOk(a.mail, k, p, x, Records(a, x)[i]);
      } else {
        assert InQueue(QueueOf(k, id), QueueOf(k, id)[i]);
      }
    }
  }

  /** What a shutdown snapshot promises about an application it could take. */
  ghost predicate Captured(m: Main, k: Kernel, id: AppId) {
    forall i | 0 <= i < |QueueOf(k, id)| :: IsKept(Records(m, id), k.boot, QueueOf(k, id)[i].id)
  }

  lemma {:induction false} SnapAllKeeps(w: World, ids: seq<AppId>)
    requires SnappedOk(w.live.main, w.past) && RecordsOk(w.live.main, w.kernel, w.past) && QueuesOk(w.kernel, w.past) && w.kernel.boot in w.past.boots
    ensures var v := SnapAll(w, ids);
            && v == w.(live := w.live.(main := w.live.main.(pending := v.live.main.pending)), recovering := v.recovering)
            && SnappedOk(v.live.main, w.past) && RecordsOk(v.live.main, w.kernel, w.past)
    ensures var v := SnapAll(w, ids);
            forall i | 0 <= i < |ids| && Snappable(w, ids[i]) :: Snappable(v, ids[i]) && Captured(v.live.main, w.kernel, ids[i])
  {
    hide SnappedOk, RecordsOk, QueuesOk, Captured;
    if ids != [] {
      var front, id := ids[..|ids| - 1], ids[|ids| - 1];
      SnapAllKeeps(w, front);
      var before, v := SnapAll(w, front), SnapAll(w, ids);
      if Snappable(before, id) {
        SnapStep(before, v, id);
      }
      forall i | 0 <= i < |ids| && Snappable(w, ids[i])
        ensures Snappable(v, ids[i]) && Captured(v.live.main, w.kernel, ids[i])
      {
        if i < |front| {
          assert front[i] == ids[i];
          assert Snappable(before, ids[i]) && Captured(before.live.main, w.kernel, ids[i]);
          if Snappable(before, id) {
            CapturedStays(before, v, id, ids[i]);
          }
        } else {
          SnapOthers(w, front, id);
        }
      }
    }
  }

  lemma {:induction false} SnapAllOnce(w: World, ids: seq<AppId>)
    requires KeptOnceOk(w.live.main) && SnappedOk(w.live.main, w.past) && RecordsOk(w.live.main, w.kernel, w.past)
    requires QueuesOk(w.kernel, w.past) && w.kernel.boot in w.past.boots
    ensures KeptOnceOk(SnapAll(w, ids).live.main)
  {
    hide SnappedOk, RecordsOk, QueuesOk, KeptOnceOk;
    if ids != [] {
      var front, id := ids[..|ids| - 1], ids[|ids| - 1];
      SnapAllOnce(w, front);
      SnapAllKeeps(w, front);
      var before := SnapAll(w, front);
      if Snappable(before, id) {
        SnapOnce(before, SnapAll(w, ids), id);
      }
    }
  }

  lemma SnapOnce(w: World, v: World, id: AppId)
    requires KeptOnceOk(w.live.main) && RecordsOk(w.live.main, w.kernel, w.past) && QueuesOk(w.kernel, w.past)
    requires v == w.(live := SnapOne(w.live, id, QueueOf(w.kernel, id), w.kernel.boot), recovering := w.recovering - {id})
    ensures KeptOnceOk(v.live.main)
  {
    var a, b := w.live.main, v.live.main;
    var records, queue := Records(a, id), QueueOf(w.kernel, id);
    WithRecordsIs(a, b, id, IdentifyAll(records, queue, w.kernel.boot));
    forall i | 0 <= i < |records|
      ensures records[i].boot == records[i].queueBoot
    {
      assert RecordOk(a.mail, w.kernel, w.past, id, records[i]);
    }
    forall i | 0 <= i < |queue|
      ensures Records(b, id)[i] == Saved(w.kernel.boot, w.kernel.boot, queue[i])
    {
      IdentifyIs(w.kernel.boot, records, queue[i]);
    }
    assert QueueOk(w.kernel, w.past, id, queue);
    OnceFrame(a, b, id);
  }

  /** Snapping one application does not make another unsnappable. */
  lemma {:induction false} SnapOthers(w: World, ids: seq<AppId>, id: AppId)
    requires Snappable(w, id) && SnappedOk(w.live.main, w.past) && RecordsOk(w.live.main, w.kernel, w.past) && QueuesOk(w.kernel, w.past)
    requires w.kernel.boot in w.past.boots
    ensures Snappable(SnapAll(w, ids), id)
  {
    hide SnappedOk, RecordsOk, QueuesOk;
    if ids != [] {
      var front, last := ids[..|ids| - 1], ids[|ids| - 1];
      SnapOthers(w, front, id);
      SnapAllKeeps(w, front);
      var before, v := SnapAll(w, front), SnapAll(w, ids);
      if Snappable(before, last) {
        SnapStep(before, v, last);
      }
    }
  }

  lemma SnapStep(w: World, v: World, id: AppId)
    requires SnappedOk(w.live.main, w.past) && RecordsOk(w.live.main, w.kernel, w.past) && QueuesOk(w.kernel, w.past) && w.kernel.boot in w.past.boots
    requires Snappable(w, id) && v == w.(live := SnapOne(w.live, id, QueueOf(w.kernel, id), w.kernel.boot), recovering := w.recovering - {id})
    ensures SnappedOk(v.live.main, w.past) && RecordsOk(v.live.main, w.kernel, w.past)
    ensures Captured(v.live.main, w.kernel, id)
    ensures forall x | Snappable(w, x) :: Snappable(v, x)
    ensures forall x | x != id :: Records(v.live.main, x) == Records(w.live.main, x)
  {
    var a, b := w.live.main, v.live.main;
    assert !Protected(w, id);
    forall i | 0 <= i < |Records(a, id)|
      ensures Records(a, id)[i].queueBoot == w.kernel.boot
    {
    }
    SnapOneKeeps(a, b, w.kernel, w.past, id);
    WithRecordsIs(a, b, id, IdentifyAll(Records(a, id), QueueOf(w.kernel, id), w.kernel.boot));
    hide SnappedOk, RecordsOk, QueuesOk, Records, WithRecords;
    forall x | Snappable(w, x)
      ensures Snappable(v, x)
    {
      if x == id {
        SnappedBoots(w, v, id);
      }
    }
  }

  lemma SnappedBoots(w: World, v: World, id: AppId)
    requires Snappable(w, id) && RecordsOk(w.live.main, w.kernel, w.past) && QueuesOk(w.kernel, w.past)
    requires v == w.(live := SnapOne(w.live, id, QueueOf(w.kernel, id), w.kernel.boot), recovering := w.recovering - {id})
    ensures !Protected(v, id)
  {
    var a, b := w.live.main, v.live.main;
    var records, queue := Records(a, id), QueueOf(w.kernel, id);
    WithRecordsIs(a, b, id, IdentifyAll(records, queue, w.kernel.boot));
    forall i | 0 <= i < |records|
      ensures records[i].boot == records[i].queueBoot
    {
      assert RecordOk(a.mail, w.kernel, w.past, id, records[i]);
    }
    forall i | 0 <= i < |queue|
      ensures Records(b, id)[i].queueBoot == w.kernel.boot
    {
      IdentifyIs(w.kernel.boot, records, queue[i]);
    }
  }

  lemma CapturedStays(w: World, v: World, id: AppId, x: AppId)
    requires v.kernel == w.kernel && Captured(w.live.main, w.kernel, x) && Captured(v.live.main, w.kernel, id)
    requires x != id ==> Records(v.live.main, x) == Records(w.live.main, x)
    ensures Captured(v.live.main, w.kernel, x)
  {
  }

  lemma NamesKept(m: Main, p: Past)
    requires SnappedOk(m, p)
    ensures SnappedOk(m, p.(snapped := p.snapped + AllNames(m)))
  {
    hide IsDelivered;
    var q := p.(snapped := p.snapped + AllNames(m));
    forall x | x in q.snapped && x.0 !in q.retired
      ensures IsDelivered(m.mail, x) || IsKept(Records(m, x.0), x.1, x.2)
    {
      if x in p.snapped {
        assert IsDelivered(m.mail, x) || IsKept(Records(m, x.0), x.1, x.2);
      } else {
        var id, i :| id in m.pending && 0 <= i < |m.pending[id]| && x == (id, m.pending[id][i].boot, m.pending[id][i].event.id);
      }
    }
  }

  lemma StoppedKernel(w: World)
    requires KernelInv(w)
    ensures KernelInv(Stopped(w))
  {
    StagePast(w.disk.main, w.disk.main, w.kernel, Stopped(w).kernel, w.past, w.past);
    CopiesFrame(w.kernel, Stopped(w).kernel, w.past, w.past);
    hide SnappedOk, RecordsOk, QueuesOk, AckedOk, PostedOk, IsDelivered, KeptOnceOk, CopiesOk;
  }

  lemma ShutdownKernel(w: World, ids: seq<AppId>, ok: bool)
    requires KernelInv(w) && w.live.main == w.disk.main && Idle(w)
    ensures KernelInv(DoShutdown(w, ids, ok))
  {
    var v := SnapAll(w, ids);
    SnapAllKeeps(w, ids);
    NamesKept(v.live.main, w.past);
    SnapAllOnce(w, ids);
    hide SnappedOk, RecordsOk, QueuesOk, AckedOk, PostedOk, IsDelivered, SnapAll, AllNames, KeptOnceOk, CopiesOk;
    if ok {
      var next := Commit(v, v.live, true).(past := w.past.(snapped := w.past.snapped + AllNames(v.live.main)));
      StagePast(w.disk.main, v.live.main, w.kernel, w.kernel, w.past, next.past);
      CopiesFrame(w.kernel, w.kernel, w.past, next.past);
      assert KernelInv(next);
      StoppedKernel(next);
    } else {
      StoppedKernel(w);
    }
  }

  /** A new boot starts with empty queues; what was kept belongs to earlier boots. */
  lemma RebootKernel(w: World, boot: string)
    requires KernelInv(w)
    ensures KernelInv(DoReboot(w, boot))
  {
    var v := DoReboot(w, boot);
    if boot !in w.past.boots && boot != "" {
      var m := w.disk.main;
      hide IsDelivered, Records;
      forall id, i | 0 <= i < |Records(m, id)|
        ensures RecordOk(m.mail, v.kernel, v.past, id, Records(m, id)[i])
      {
        assert RecordOk(m.mail, w.kernel, w.past, id, Records(m, id)[i]);
      }
      forall id
        ensures QueueOk(v.kernel, v.past, id, QueueOf(v.kernel, id))
      {
      }
      assert SnappedOk(m, v.past) by { SnappedSame(m, w.past, v.past); }
    }
  }

  // ---- Consequences ----

  /** A drain that has read to the end of a queue has emptied it. */
  lemma DrainedToTheEnd(w: World, id: AppId)
    requires KernelInv(w) && w.lock == Free && CursorAt(w.kernel, id) >= |QueueOf(w.kernel, id)|
    ensures QueueOf(w.kernel, id) == []
  {
    HandlesNow(w, id);
  }

  /** At most one message stands for an event of a boot. */
  lemma OneMessagePerEvent(e: Env, st: State, id: AppId, boot: string, event: nat, other: string, twin: nat, i: nat, j: nat)
    requires Good(e, st) && id in st.main.mail && i < |st.main.mail[id]| && j < |st.main.mail[id]|
    requires st.main.mail[id][i].key == KernelKey(id, boot, event) && st.main.mail[id][j].key == KernelKey(id, other, twin)
    ensures i == j <==> boot == other && event == twin
  {
    assert BoxOk(st.main.mail[id], st.log.next);
    if i == j {
      KeyInjective("kernel:", id + ":" + boot, event, id + ":" + other, twin);
      assert boot == (id + ":" + boot)[|id| + 1..] && other == (id + ":" + other)[|id| + 1..];
    }
  }

  /** An orderly shutdown records every queued event of every application that recovery does not still own. */
  lemma ShutdownCaptures(w: World, ids: seq<AppId>, k: nat, i: nat)
    requires KernelInv(w) && w.live.main == w.disk.main && Idle(w)
    requires k < |ids| && Snappable(w, ids[k]) && i < |QueueOf(w.kernel, ids[k])|
    ensures var v := DoShutdown(w, ids, true);
            (ids[k], w.kernel.boot, QueueOf(w.kernel, ids[k])[i].id) in v.past.snapped
  {
    var id := ids[k];
    SnapAllKeeps(w, ids);
    var m := SnapAll(w, ids).live.main;
    assert Captured(m, w.kernel, id);
    assert IsKept(Records(m, id), w.kernel.boot, QueueOf(w.kernel, id)[i].id);
    var j :| 0 <= j < |Records(m, id)| && Records(m, id)[j].boot == w.kernel.boot && Records(m, id)[j].event.id == QueueOf(w.kernel, id)[i].id;
    assert id in m.pending && m.pending[id][j] == Records(m, id)[j];
    assert (id, w.kernel.boot, QueueOf(w.kernel, id)[i].id) in AllNames(m);
  }

  /** What a snapshot does not take, because recovery still owns it or its handle cannot be read, is left exactly as it was. */
  lemma {:induction false} ProtectedIsLeft(w: World, ids: seq<AppId>, id: AppId)
    requires !Snappable(w, id) || id !in ids
    ensures Records(SnapAll(w, ids).live.main, id) == Records(w.live.main, id)
    ensures !Snappable(w, id) ==> !Snappable(SnapAll(w, ids), id)
  {
    if ids != [] {
      ProtectedIsLeft(w, ids[..|ids| - 1], id);
    }
  }

  /** The event can still reach its application: its message is in the mailbox or its record is kept. */
  predicate OnRecord(m: Main, id: AppId, boot: string, event: nat) {
    HasKey(m.mail, id, KernelKey(id, boot, event)) || IsKept(Records(m, id), boot, event)
  }

  lemma SnapKeepsExactly(w: World, ids: seq<AppId>, id: AppId, i: nat)
    requires KernelInv(w) && w.live.main == w.disk.main && i < |QueueOf(w.kernel, id)|
    ensures var event := QueueOf(w.kernel, id)[i].id;
            OnRecord(SnapAll(w, ids).live.main, id, w.kernel.boot, event) <==>
            (id in ids && Snappable(w, id)) || OnRecord(w.disk.main, id, w.kernel.boot, event)
  {
    hide SnappedOk, RecordsOk, QueuesOk, AckedOk, IsDelivered, KeptOnceOk, CopiesOk, SnapAll, KernelKey, Records, HasKey, IsKept, Snappable;
    SnapAllKeeps(w, ids);
    var m := SnapAll(w, ids).live.main;
    if id in ids && Snappable(w, id) {
      var k :| 0 <= k < |ids| && ids[k] == id;
      assert Captured(m, w.kernel, ids[k]);
    } else {
      ProtectedIsLeft(w, ids, id);
    }
  }

  lemma AfterReboot(w: World, ids: seq<AppId>, boot: string)
    requires Idle(w) && boot != "" && boot !in w.past.boots
    ensures var v := DoReboot(DoShutdown(w, ids, true), boot); v.disk.main == SnapAll(w, ids).live.main && v.kernel.queues == map[]
  {
    hide AllNames;
    SnapAllPast(w, ids);
  }

  lemma {:induction false} SnapAllPast(w: World, ids: seq<AppId>)
    ensures SnapAll(w, ids).past == w.past
  {
    if ids != [] {
      SnapAllPast(w, ids[..|ids| - 1]);
    }
  }

  /**
   * A queued event survives an orderly shutdown and the boot that follows exactly if the snapshot could take its
   * application's queue or the event was on record before. The queue itself is gone.
   */
  lemma ShutdownKeepsExactly(w: World, ids: seq<AppId>, boot: string, id: AppId, i: nat)
    requires KernelInv(w) && w.live.main == w.disk.main && Idle(w) && i < |QueueOf(w.kernel, id)|
    requires boot !in w.past.boots && boot != ""
    ensures var v, event := DoReboot(DoShutdown(w, ids, true), boot), QueueOf(w.kernel, id)[i].id;
            && QueueOf(v.kernel, id) == []
            && (OnRecord(v.disk.main, id, w.kernel.boot, event) <==>
                  (id in ids && Snappable(w, id)) || OnRecord(w.disk.main, id, w.kernel.boot, event))
  {
    hide KernelInv, OnRecord, SnapAll, Snappable, DoShutdown, DoReboot;
    SnapKeepsExactly(w, ids, id, i);
    AfterReboot(w, ids, boot);
  }
}
