/**
 * The drain loop of `deliverKernel` as it runs, against a kernel queue with a private
 * read cursor: each event is read, staged and committed, acknowledged, and forgotten.
 */
module KernelDrain {
  import opened Wrappers
  import opened Mailboxes
  import opened SupervisorState
  import opened Operations
  import opened System
  import opened KernelRuns
  import opened KernelRoom
  import opened Runs
  import opened SupervisorObject

  /** The kernel's side: a queue per application and a cursor per open handle. */
  class Bridge {
    var k: Kernel

    constructor (boot: string)
      ensures k == Kernel(boot, map[], map[], map[], map[])
    {
      k := Kernel(boot, map[], map[], map[], map[]);
    }

    /** A producer posts: the queue grows by an event with the next id. */
    method Post(id: AppId, content: Event)
      modifies this
      ensures forall w: World | w.kernel == old(k) :: DoPost(w, id, content).kernel == k
    {
      var event := content.(id := MintedOf(k, id) + 1);
      k := k.(queues := k.queues[id := QueueOf(k, id) + [event]], minted := k.minted[id := event.id]);
    }

    /** The next unacknowledged event past the cursor, or nothing at the end. */
    method Read(id: AppId) returns (event: Option<Event>)
      modifies this
      ensures var c, queue := CursorAt(old(k), id), QueueOf(old(k), id);
              if c < |queue| then event == Some(queue[c]) && k == old(k).(handles := old(k).handles[id := c + 1])
              else event == None && k == old(k)
    {
      var c, queue := CursorAt(k, id), QueueOf(k, id);
      if c >= |queue| {
        return None;
      }
      k := k.(handles := k.handles[id := c + 1]);
      return Some(queue[c]);
    }

    /** The event leaves the queue, and the cursor steps back over it. */
    method Acknowledge(id: AppId, event: nat)
      modifies this
      ensures k == old(k).(queues := old(k).queues[id := RemoveEvent(QueueOf(old(k), id), event)],
                           handles := old(k).handles[id := CursorAt(old(k), id) - if CursorAt(old(k), id) > 0 then 1 else 0])
    {
      var c := CursorAt(k, id);
      var left := Remaining(QueueOf(k, id), event);
      k := k.(queues := k.queues[id := left], handles := k.handles[id := if c > 0 then c - 1 else 0]);
    }

    method Remaining(queue: seq<Event>, event: nat) returns (left: seq<Event>)
      ensures left == RemoveEvent(queue, event)
    {
      for i := 0 to |queue|
        invariant RemoveEvent(queue, event) == queue[..i] + RemoveEvent(queue[i..], event)
      {
        assert queue[i..][0] == queue[i] && queue[i..][1..] == queue[i + 1..];
        if queue[i].id == event {
          return queue[..i] + queue[i + 1..];
        }
        assert queue[..i] + ([queue[i]] + RemoveEvent(queue[i + 1..], event)) == queue[..i + 1] + RemoveEvent(queue[i + 1..], event);
      }
      assert RemoveEvent(queue, event) == queue;
      return queue;
    }

    /** Dropping a handle drops its cursor. */
    method Close(id: AppId)
      modifies this
      ensures k == old(k).(handles := old(k).handles - {id})
    {
      k := k.(handles := k.handles - {id});
    }
  }

  /** What the outside does to one event: whether each write succeeds, and the acknowledgement. */
  datatype Luck = Luck(staged: bool, ack: AckResult, dropped: bool)

  /** The objects hold what the world says they hold. */
  ghost predicate Mirrors(s: Supervisor, q: Bridge, w: World)
    reads s, q
  {
    w.live == s.Now() && w.disk == s.committed && w.kernel == q.k
  }

  /** The drain may go on: nothing is kept back and the application is live. */
  predicate Drainable(m: Main, id: AppId) { id in m.apps && m.apps[id].state != Tombstoned && Records(m, id) == [] }

  /** A staged event leaves its application drainable once its record goes. */
  lemma StillDrainable(e: Env, w: World, id: AppId, now: int)
    requires Idle(w) && Drainable(w.live.main, id) && DoStage(e, w, id, now, true).lock.Acking?
    ensures var v := DoStage(e, w, id, now, true);
            && v.lock.id == id && Drainable(DropEvent(v.live, id, v.lock.saved).main, id)
            && v.live.main.apps == w.live.main.apps
  {
    var k := w.kernel;
    var event := QueueOf(k, id)[CursorAt(k, id)];
    StageShape(e, w.live, id, event, k.boot, now);
    StagedApps(e, w.live, id, event, k.boot, now);
    hide StageEvent, IsDelivered;
    var saved := Saved(k.boot, k.boot, event);
    assert Without([saved], saved.boot, saved.event.id) == [] by { assert [saved][..0] == []; }
  }

  lemma StagedApps(e: Env, st: State, id: AppId, event: Event, boot: string, now: int)
    requires StageEvent(e, st, id, event, boot, now).Some?
    ensures StageEvent(e, st, id, event, boot, now).value.main.apps == st.main.apps
  {
    hide Enqueue, Identify, Without;
    var saved := Identify(Records(st.main, id), event, boot);
    EnqueuedSides(e, st, id, KernelKey(id, saved.boot, event.id), e.kernelWake(id, event), now);
  }

  /** A refusal that is not backpressure; it rolls the live state back. */
  ghost predicate Faulty(e: Env, st: State, id: AppId, event: Event, boot: string, now: int) {
    var saved := Identify(Records(st.main, id), event, boot);
    var r := Enqueue(e, st, "supervisor", id, KernelKey(id, saved.boot, event.id), e.kernelWake(id, event), now);
    r.Refused? && r.error != Full
  }

  lemma FaultyIs(e: Env, st: State, id: AppId, event: Event, boot: string, now: int)
    ensures var saved := Identify(Records(st.main, id), event, boot);
            Faulty(e, st, id, event, boot, now) <==>
              var r := Enqueue(e, st, "supervisor", id, KernelKey(id, saved.boot, event.id), e.kernelWake(id, event), now);
              r.Refused? && r.error != Full
  {
    hide Enqueue, Identify;
  }

  /** Where one event leads: staged, acknowledged and forgotten, or given up on the way. */
  ghost function Drained(e: Env, w: World, id: AppId, event: Event, luck: Luck, now: int): World {
    var v := DoDrop(DoAck(DoStage(e, w, id, now, luck.staged), luck.ack), luck.dropped);
    if Faulty(e, w.live, id, event, w.kernel.boot, now) then DoRollback(v) else v
  }

  lemma FaultsAreRefusals(e: Env, st: State, id: AppId, event: Event, boot: string, now: int)
    ensures Faulty(e, st, id, event, boot, now) ==> StageEvent(e, st, id, event, boot, now).None?
  {
    hide Enqueue, Identify;
  }

  ghost predicate AtEvent(w: World, id: AppId, event: Event) {
    && Idle(w) && Drainable(w.live.main, id)
    && CursorAt(w.kernel, id) < |QueueOf(w.kernel, id)| && event == QueueOf(w.kernel, id)[CursorAt(w.kernel, id)]
  }

  /** A refused or unwritten event leaves the queue as it was and drops the handle. */
  lemma NotStaged(e: Env, w: World, id: AppId, event: Event, luck: Luck, now: int)
    requires AtEvent(w, id, event) && (StageEvent(e, w.live, id, event, w.kernel.boot, now).None? || !luck.staged)
    ensures var v := Drained(e, w, id, event, luck, now);
            && Idle(v) && v.kernel == w.kernel.(handles := w.kernel.handles - {id}) && v.disk == w.disk
            && v.live == if StageEvent(e, w.live, id, event, w.kernel.boot, now).None? && !Faulty(e, w.live, id, event, w.kernel.boot, now) then w.live else w.disk
  {
    hide StageEvent, Identify, Records, Faulty;
  }

  /** A staged event: what the acknowledgement and the last write then do. */
  lemma OnceStaged(e: Env, w: World, id: AppId, event: Event, luck: Luck, now: int)
    requires AtEvent(w, id, event) && StageEvent(e, w.live, id, event, w.kernel.boot, now).Some? && luck.staged
    ensures var v, st := Drained(e, w, id, event, luck, now), StageEvent(e, w.live, id, event, w.kernel.boot, now).value;
            var c, k, saved := CursorAt(w.kernel, id), w.kernel, Identify(Records(w.live.main, id), event, w.kernel.boot);
            && Idle(v)
            && (luck.ack == AckRefused ==> v.live == v.disk == st && v.kernel == k.(handles := k.handles[id := c + 1] - {id}))
            && (luck.ack == AckLost ==>
                  v.live == v.disk == st && v.kernel.boot == k.boot && v.kernel.minted == k.minted && v.kernel.copies == k.copies && v.kernel.handles == k.handles[id := c + 1] - {id}
                  && v.kernel.queues == k.queues[id := RemoveEvent(QueueOf(k, id), saved.event.id)])
            && (luck.ack == AckOk ==>
                  && v.disk == (if luck.dropped then DropEvent(st, id, saved) else st) && v.live == v.disk
                  && v.kernel == k.(queues := k.queues[id := RemoveEvent(QueueOf(k, id), saved.event.id)], handles := k.handles[id := c + 1][id := c]))
  {
    hide Faulty, StageEvent, Identify, Records, RemoveEvent, DropEvent;
    FaultsAreRefusals(e, w.live, id, event, w.kernel.boot, now);
  }

  /** The first write: staged and committed, or given up with the handle dropped. */
  method StageOne(s: Supervisor, q: Bridge, id: AppId, event: Event, luck: Luck, now: int, ghost w: World) returns (staged: bool, saved: Saved)
    requires AtEvent(w, id, event)
    requires w.live == s.Now() && w.disk == s.committed && q.k == w.kernel.(handles := w.kernel.handles[id := CursorAt(w.kernel, id) + 1])
    modifies s, q
    ensures staged <==> luck.staged && StageEvent(s.e, w.live, id, event, w.kernel.boot, now).Some?
    ensures staged ==> StageEvent(s.e, w.live, id, event, w.kernel.boot, now) == Some(s.Now()) && s.committed == s.Now() && q.k == old(q.k)
    ensures saved == Identify(Records(w.live.main, id), event, w.kernel.boot)
    ensures !staged ==> Mirrors(s, q, Drained(s.e, w, id, event, luck, now)) && Idle(Drained(s.e, w, id, event, luck, now))
  {
    hide Faulty, StageEvent, Identify, Drained, AtEvent, Records, Enqueue, KernelKey;
    FaultyIs(s.e, w.live, id, event, w.kernel.boot, now);
    var r;
    saved, r := s.Stage(id, event, q.k.boot, now);
    staged := r.Ok? && luck.staged;
    if r.Ok? {
      s.Persist(luck.staged);
    } else if r.error != Full {
      s.Restore();
    }
    if !staged {
      NotStaged(s.e, w, id, event, luck, now);
      q.Close(id);
      assert q.k == w.kernel.(handles := w.kernel.handles - {id});
    }
  }

  /** The acknowledgement and the last write, once the event is staged and committed. */
  method FinishOne(s: Supervisor, q: Bridge, id: AppId, saved: Saved, luck: Luck) returns (more: bool)
    requires s.committed == s.Now() && id in q.k.handles && q.k.handles[id] > 0
    modifies s, q
    ensures luck.ack == AckRefused ==> q.k == old(q.k).(handles := old(q.k).handles - {id})
    ensures luck.ack == AckLost ==>
              q.k == old(q.k).(queues := old(q.k).queues[id := RemoveEvent(QueueOf(old(q.k), id), saved.event.id)], handles := old(q.k).handles - {id})
    ensures luck.ack == AckOk ==>
              q.k == old(q.k).(queues := old(q.k).queues[id := RemoveEvent(QueueOf(old(q.k), id), saved.event.id)],
                               handles := old(q.k).handles[id := old(q.k).handles[id] - 1])
    ensures s.Now() == s.committed == if luck.ack == AckOk && luck.dropped then DropEvent(old(s.Now()), id, saved) else old(s.Now())
    ensures more == (luck.ack == AckOk && luck.dropped)
  {
    hide RemoveEvent, DropEvent;
    if luck.ack != AckRefused {
      q.Acknowledge(id, saved.event.id);
    }
    if luck.ack != AckOk {
      q.Close(id);
      return false;
    }
    s.Unkeep(id, saved);
    s.Persist(luck.dropped);
    return luck.dropped;
  }

  /** One event, read to forgotten; `more` is false when the drain has to stop. */
  method DrainOne(s: Supervisor, q: Bridge, id: AppId, event: Event, luck: Luck, now: int, ghost w: World) returns (more: bool)
    requires AtEvent(w, id, event)
    requires w.live == s.Now() && w.disk == s.committed && q.k == w.kernel.(handles := w.kernel.handles[id := CursorAt(w.kernel, id) + 1])
    modifies s, q
    ensures Mirrors(s, q, Drained(s.e, w, id, event, luck, now)) && Idle(Drained(s.e, w, id, event, luck, now))
    ensures more ==> Drainable(Drained(s.e, w, id, event, luck, now).live.main, id)
    ensures more <==> luck == Luck(true, AckOk, true) && StageEvent(s.e, w.live, id, event, w.kernel.boot, now).Some?
  {
    hide Faulty, StageEvent, Identify, Drained, AtEvent, Records, Drainable, DropEvent, RemoveEvent;
    var staged, saved := StageOne(s, q, id, event, luck, now, w);
    if !staged {
      return false;
    }
    OnceStaged(s.e, w, id, event, luck, now);
    more := FinishOne(s, q, id, saved, luck);
    if more {
      AfterDrop(s.e, w, id, event, luck, now);
    }
  }

  lemma AfterDrop(e: Env, w: World, id: AppId, event: Event, luck: Luck, now: int)
    requires AtEvent(w, id, event) && StageEvent(e, w.live, id, event, w.kernel.boot, now).Some? && luck == Luck(true, AckOk, true)
    ensures Drainable(Drained(e, w, id, event, luck, now).live.main, id)
  {
    OnceStaged(e, w, id, event, luck, now);
    hide StageEvent, Identify, Without, RemoveEvent, Records, DropEvent;
    StillDrainable(e, w, id, now);
  }

  lemma DrainedKeeps(e: Env, w: World, id: AppId, event: Event, luck: Luck, now: int)
    requires Inv(e, w)
    ensures Inv(e, Drained(e, w, id, event, luck, now)) && Forward(w.disk, Drained(e, w, id, event, luck, now).disk)
  {
    hide Inv, Forward, TimersServed, DoStage, DoAck, DoDrop, DoRollback, Faulty;
    var a := DoStage(e, w, id, now, luck.staged);
    var b := DoAck(a, luck.ack);
    StageRun(e, w, id, now, luck.staged);
    AckRun(e, a, luck.ack);
    DropRun(e, b, luck.dropped);
    ForwardTransitive(w.disk, a.disk, b.disk);
    var c := DoDrop(b, luck.dropped);
    ForwardTransitive(w.disk, b.disk, c.disk);
    RollbackStep(e, c);
    ForwardTransitive(w.disk, c.disk, DoRollback(c).disk);
  }

  /** A round of the drain loop: what the kernel posts before the read, and what happens to the event read. */
  datatype Round = Round(posts: seq<Event>, luck: Luck)

  ghost function Posted(w: World, id: AppId, posts: seq<Event>): World {
    if posts == [] then w else DoPost(Posted(w, id, posts[..|posts| - 1]), id, posts[|posts| - 1])
  }

  lemma {:induction false} PostedKeeps(e: Env, w: World, id: AppId, posts: seq<Event>)
    requires Inv(e, w)
    ensures var v := Posted(w, id, posts); Inv(e, v) && v == w.(kernel := v.kernel, past := v.past)
  {
    hide Inv, Advances;
    if posts != [] {
      PostedKeeps(e, w, id, posts[..|posts| - 1]);
      PostRun(e, Posted(w, id, posts[..|posts| - 1]), id, posts[|posts| - 1]);
    }
  }

  method Arrive(q: Bridge, id: AppId, posts: seq<Event>, ghost w: World)
    requires q.k == w.kernel
    modifies q
    ensures q.k == Posted(w, id, posts).kernel
  {
    hide DoPost;
    for i := 0 to |posts|
      invariant q.k == Posted(w, id, posts[..i]).kernel
    {
      assert posts[..i + 1][..i] == posts[..i];
      q.Post(id, posts[i]);
    }
    assert posts[..|posts|] == posts;
  }

  /** Nothing fails and nothing arrives. */
  predicate Quiet(rounds: seq<Round>) {
    forall i | 0 <= i < |rounds| :: rounds[i] == Round([], Luck(true, AckOk, true))
  }

  /** Staging in an application without kept records enqueues the event under the current boot. */
  lemma StageIs(e: Env, st: State, id: AppId, event: Event, boot: string, now: int)
    requires Records(st.main, id) == []
    ensures var key, raw := KernelKey(id, boot, event.id), e.kernelWake(id, event);
            && (StageEvent(e, st, id, event, boot, now).Some? <==> !Enqueue(e, st, "supervisor", id, key, raw, now).Refused?)
            && (StageEvent(e, st, id, event, boot, now).Some? ==>
                  StageEvent(e, st, id, event, boot, now).value.main.mail == Enqueued(e, st, "supervisor", id, key, raw, now).main.mail)
  {
    hide Enqueue, Enqueued, KernelKey;
  }

  /** With room in the mailbox a round that meets no failure takes the head off the queue, and there is room for the rest. */
  lemma RoundSucceeds(e: Env, w: World, id: AppId, now: int)
    requires Idle(w) && Drainable(w.live.main, id) && id in w.live.main.mail && CursorAt(w.kernel, id) == 0
    requires QueueOf(w.kernel, id) != [] && Room(e, w.live.main.mail, id, w.kernel.boot, QueueOf(w.kernel, id))
    ensures var queue := QueueOf(w.kernel, id); var v := Drained(e, w, id, queue[0], Luck(true, AckOk, true), now);
            && StageEvent(e, w.live, id, queue[0], w.kernel.boot, now).Some?
            && QueueOf(v.kernel, id) == queue[1..] && v.kernel.boot == w.kernel.boot
            && Room(e, v.live.main.mail, id, w.kernel.boot, queue[1..])
  {
    var queue, boot := QueueOf(w.kernel, id), w.kernel.boot;
    var event := queue[0];
    FirstFits(e, w.live, id, boot, queue, now);
    hide Room, Enqueue, Enqueued, StageEvent, Drained, KernelKey;
    StageIs(e, w.live, id, event, boot, now);
    EnqueuedLeavesRoom(e, w.live, id, boot, queue, now);
    IdentifyIs(boot, [], event);
    RemoveHead(queue);
    OnceStaged(e, w, id, event, Luck(true, AckOk, true), now);
  }

  /**
   * The drain of one application's queue: whatever fails or arrives on the way, every invariant of the system
   * holds afterwards and nothing committed is lost; a drain that reads to the end has emptied the queue; and
   * if nothing fails, nothing arrives and the mailbox has room, it does read to the end.
   */
  method Drain(s: Supervisor, q: Bridge, id: AppId, rounds: seq<Round>, now: int, ghost w: World) returns (emptied: bool, ghost v: World)
    requires Inv(s.e, w) && Idle(w) && Mirrors(s, q, w) && Drainable(w.live.main, id)
    modifies s, q
    ensures Inv(s.e, v) && Idle(v) && Mirrors(s, q, v) && Forward(w.disk, v.disk)
    ensures emptied ==> QueueOf(q.k, id) == []
    ensures Quiet(rounds) && |rounds| > |QueueOf(w.kernel, id)| && Room(s.e, w.live.main.mail, id, w.kernel.boot, QueueOf(w.kernel, id)) ==> emptied
  {
    hide Inv, Forward, Drained, Drainable, Room, Posted, StageEvent;
    v := w;
    ForwardRefl(w.disk);
    ghost var smooth := Quiet(rounds) && Room(s.e, w.live.main.mail, id, w.kernel.boot, QueueOf(w.kernel, id));
    for i := 0 to |rounds|
      invariant Inv(s.e, v) && Idle(v) && Mirrors(s, q, v) && Forward(w.disk, v.disk) && Drainable(v.live.main, id)
      invariant smooth ==> Smooth(s.e, w, v, id, i)
    {
      PostedKeeps(s.e, v, id, rounds[i].posts);
      Arrive(q, id, rounds[i].posts, v);
      PostedNone(v, id);
      v := Posted(v, id, rounds[i].posts);
      KernelNow(s.e, v);
      HandlesNow(v, id);
      var event := q.Read(id);
      if event.None? {
        DrainedToTheEnd(v, id);
        return true, v;
      }
      ghost var next := Drained(s.e, v, id, event.value, rounds[i].luck, now);
      DrainedKeeps(s.e, v, id, event.value, rounds[i].luck, now);
      if smooth {
        SmoothRound(s.e, w, v, id, i, now);
      }
      var more := DrainOne(s, q, id, event.value, rounds[i].luck, now, v);
      ForwardTransitive(w.disk, v.disk, next.disk);
      v := next;
      if !more {
        return false, v;
      }
    }
    return false, v;
  }

  lemma PostedNone(w: World, id: AppId)
    ensures Posted(w, id, []) == w
  {
  }

  /** After i rounds without failure: i events are gone and there is room for the others. */
  ghost predicate Smooth(e: Env, w: World, v: World, id: AppId, i: nat) {
    && v.kernel.boot == w.kernel.boot && |QueueOf(v.kernel, id)| + i == |QueueOf(w.kernel, id)|
    && Room(e, v.live.main.mail, id, v.kernel.boot, QueueOf(v.kernel, id))
  }

  lemma SmoothRound(e: Env, w: World, v: World, id: AppId, i: nat, now: int)
    requires Inv(e, v) && Idle(v) && Drainable(v.live.main, id) && CursorAt(v.kernel, id) == 0 && QueueOf(v.kernel, id) != []
    requires Smooth(e, w, v, id, i)
    ensures StageEvent(e, v.live, id, QueueOf(v.kernel, id)[0], v.kernel.boot, now).Some?
    ensures Smooth(e, w, Drained(e, v, id, QueueOf(v.kernel, id)[0], Luck(true, AckOk, true), now), id, i + 1)
  {
    hide Inv, Room, Drained, StageEvent, Good;
    LiveGood(e, v);
    BoxesMatch(e, v.live);
    RoundSucceeds(e, v, id, now);
  }

  lemma BoxesMatch(e: Env, st: State)
    requires Good(e, st)
    ensures st.main.mail.Keys == st.main.apps.Keys
  {
  }

  /** What recovering one kept record leads to. */
  lemma RecoveredIs(e: Env, w: World, id: AppId, now: int, ok: bool)
    requires Idle(w) && Records(w.live.main, id) != []
    ensures var v := DoRecoverRecord(e, w, id, now, ok);
            && Idle(v) && v.kernel == w.kernel
            && match RecoverFirst(e, w.live, id, now)
               case None => v.live == w.live && v.disk == w.disk
               case Some(st) => v.live == v.disk == if ok then st else w.disk
  {
    hide RecoverFirst;
  }

  lemma RecoverKeepsAll(e: Env, w: World, id: AppId, now: int, ok: bool)
    requires Inv(e, w)
    ensures Inv(e, DoRecoverRecord(e, w, id, now, ok)) && Forward(w.disk, DoRecoverRecord(e, w, id, now, ok).disk)
    ensures var v := DoRecoverRecord(e, w, id, now, ok);
            Inv(e, DoRollback(v)) && Forward(w.disk, DoRollback(v).disk)
  {
    hide Inv, Forward, TimersServed, DoRecoverRecord, DoRollback;
    var v := DoRecoverRecord(e, w, id, now, ok);
    RecoverRecordRun(e, w, id, now, ok);
    RollbackStep(e, v);
    ForwardTransitive(w.disk, v.disk, DoRollback(v).disk);
  }

  /** `deliverPersistedKernelLocked`: kept records move to the mailbox one commit at a time, oldest first. */
  method RecoverRecords(s: Supervisor, q: Bridge, id: AppId, oks: seq<bool>, now: int, ghost w: World) returns (recovered: bool, ghost v: World)
    requires Inv(s.e, w) && Idle(w) && Mirrors(s, q, w)
    modifies s
    ensures Inv(s.e, v) && Idle(v) && Mirrors(s, q, v) && Forward(w.disk, v.disk)
    ensures recovered <==> Records(s.Now().main, id) == []
  {
    hide Inv, Forward, RecoverFirst, DoRecoverRecord, Records, Good;
    v := w;
    ForwardRefl(w.disk);
    for i := 0 to |oks|
      invariant Inv(s.e, v) && Idle(v) && Mirrors(s, q, v) && Forward(w.disk, v.disk) && q.k == old(q.k)
    {
      if Records(s.Now().main, id) == [] {
        return true, v;
      }
      LiveGood(s.e, v);
      RecoveredIs(s.e, v, id, now, oks[i]);
      RecoverKeepsAll(s.e, v, id, now, oks[i]);
      ghost var next := DoRecoverRecord(s.e, v, id, now, oks[i]);
      ForwardTransitive(w.disk, v.disk, next.disk);
      ForwardTransitive(w.disk, v.disk, DoRollback(next).disk);
      var r := s.RecoverRecord(id, now);
      v := next;
      if r.Err? {
        if r.error != Full {
          s.Restore();
          v := DoRollback(next);
        }
        return false, v;
      }
      s.Persist(oks[i]);
      if !oks[i] {
        return false, v;
      }
    }
    return Records(s.Now().main, id) == [], v;
  }
}
