/**
 * How far the shutdown snapshot reaches: when a queued event survives an orderly shutdown
 * and the boot after it, and a run in which one does not.
 */
module ShutdownReach {
  import opened Mailboxes
  import opened SupervisorState
  import opened Operations
  import opened System
  import opened KernelRuns
  import opened Runs
  import opened Guarantees
  import CS = ContextStore

  /** In every reachable state, a queued event survives exactly if the snapshot takes it or it is on record already. */
  lemma ShutdownReach(e: Env, w: World, ids: seq<AppId>, boot: string, id: AppId, i: nat)
    requires Reachable(e, w) && Idle(w) && i < |QueueOf(w.kernel, id)| && boot !in w.past.boots && boot != ""
    ensures var v := Next(e, Next(e, w, OnBoot(Shutdown(ids, true))), OnBoot(Reboot(boot)));
            var event := QueueOf(w.kernel, id)[i].id;
            && QueueOf(v.kernel, id) == []
            && (OnRecord(v.disk.main, id, w.kernel.boot, event) <==>
                  (id in ids && Snappable(w, id)) || OnRecord(w.disk.main, id, w.kernel.boot, event))
  {
    hide Reachable, Inv, KernelInv, Good, OnRecord, Snappable, DoShutdown, DoReboot, Next;
    BootIs(e, w, Shutdown(ids, true));
    BootIs(e, DoShutdown(w, ids, true), Reboot(boot));
    ReachableInv(e, w);
    LiveGood(e, w);
    KernelNow(e, w);
    ShutdownKeepsExactly(w, ids, boot, id, i);
  }

  lemma BootIs(e: Env, w: World, step: BootStep)
    ensures Next(e, w, OnBoot(step)) == NextBoot(e, w, step)
  {
    hide NextBoot;
  }

  lemma AppsIs(e: Env, w: World, step: AppStep)
    ensures Next(e, w, OnApps(step)) == NextApps(e, w, step)
  {
    hide NextApps;
  }

  lemma KernelIs(e: Env, w: World, step: KernelStep)
    ensures Next(e, w, OnKernel(step)) == NextKernel(e, w, step)
  {
    hide NextKernel;
  }

  lemma ReachNext(e: Env, w: World, step: Step)
    requires Reachable(e, w)
    ensures Reachable(e, Next(e, w, step))
  {
    hide Next, Initial, CS.Sound;
    var trace: seq<World>, steps: seq<Step> :| IsRun(e, trace, steps) && Initial(trace[0]) && CS.Sound(trace[0].ctx.codec) && w == trace[|steps|];
    var more, taken := trace + [Next(e, w, step)], steps + [step];
    forall i | 0 <= i < |taken|
      ensures Follows(e, more, taken, i)
    {
      assert i < |steps| ==> Follows(e, trace, steps, i);
    }
    assert IsRun(e, more, taken) && more[0] == trace[0] && more[|taken|] == Next(e, w, step);
  }

  // ---- A run that loses an event ----

  const ID: AppId := "app"

  /** One serving application with an empty mailbox; nothing is uncommitted. */
  ghost predicate Scene(w: World, up: bool, boots: set<string>, boot: string, records: seq<Saved>, queue: seq<Event>) {
    && w.live == w.disk && w.up == up && w.lock == Free
    && ID in w.live.main.apps && w.live.main.apps[ID].state == Serving && BoxOf(w.live.main.mail, ID) == []
    && Records(w.live.main, ID) == records && w.kernel.boot == boot && QueueOf(w.kernel, ID) == queue
    && w.past.boots == boots
  }

  lemma SceneOpens(e: Env, w: World) returns (v: World)
    requires Initial(w) && !w.up && w.kernel.boot == "a" && CS.Sound(w.ctx.codec)
    ensures Reachable(e, v) && Scene(v, true, {"a"}, "a", [], [])
  {
    hide Next, Reachable;
    InitialReachable(e, w);
    var start, create := OnBoot(Restart([], 0, true)), OnApps(NewApplication("root", ID, "owner", Manual, "context", 0, true));
    ReachNext(e, w, start);
    ReachNext(e, Next(e, w, start), create);
    v := Next(e, Next(e, w, start), create);
    FirstRestart(e, w);
    FirstApplication(e, Next(e, w, start));
  }

  lemma InitialReachable(e: Env, w: World)
    requires Initial(w) && CS.Sound(w.ctx.codec)
    ensures Reachable(e, w)
  {
    hide Next, Initial, CS.Sound;
    var trace: seq<World>, steps: seq<Step> := [w], [];
    assert IsRun(e, trace, steps) && w == trace[|steps|];
  }

  lemma FirstRestart(e: Env, w: World)
    requires Initial(w) && !w.up
    ensures Next(e, w, OnBoot(Restart([], 0, true))) == w.(up := true)
  {
    hide Next;
    BootIs(e, w, Restart([], 0, true));
  }

  lemma FirstApplication(e: Env, w: World)
    requires w.up && Initial(w.(up := false)) && w.kernel.boot == "a"
    ensures Scene(Next(e, w, OnApps(NewApplication("root", ID, "owner", Manual, "context", 0, true))), true, {"a"}, "a", [], [])
  {
    hide Next;
    AppsIs(e, w, NewApplication("root", ID, "owner", Manual, "context", 0, true));
    assert !CS.IsBlank("owner") by { assert "owner"[0] == 'o'; }
  }

  lemma ScenePosts(e: Env, w: World, boots: set<string>, boot: string, records: seq<Saved>, content: Event) returns (v: World, event: Event)
    requires Reachable(e, w) && Scene(w, true, boots, boot, records, [])
    ensures Reachable(e, v) && Scene(v, true, boots, boot, records, [event])
    ensures (ID, boot, event.id) in v.past.posted
  {
    hide Reachable, Next;
    var step := OnKernel(Post(ID, content));
    KernelIs(e, w, step.kernel);
    ReachNext(e, w, step);
    v, event := Next(e, w, step), content.(id := MintedOf(w.kernel, ID) + 1);
  }

  /** The first shutdown takes the queue; the next boot starts with the record of its event. */
  lemma SceneRestarts(e: Env, w: World, event: Event) returns (v: World)
    requires Reachable(e, w) && Scene(w, true, {"a"}, "a", [], [event])
    ensures Reachable(e, v) && Scene(v, true, {"a", "b"}, "b", [Saved("a", "a", event)], [])
  {
    hide Reachable, Next, Scene;
    var stop, boot, start := OnBoot(Shutdown([ID], true)), OnBoot(Reboot("b")), OnBoot(Restart([ID], 0, true));
    var down := Next(e, w, stop);
    var booted := Next(e, down, boot);
    v := Next(e, booted, start);
    ReachNext(e, w, stop);
    ReachNext(e, down, boot);
    ReachNext(e, booted, start);
    SceneStops(e, w, event);
    SceneBoots(e, down, event);
    SceneStarts(e, booted, event);
  }

  lemma SceneStops(e: Env, w: World, event: Event)
    requires Scene(w, true, {"a"}, "a", [], [event])
    ensures Scene(Next(e, w, OnBoot(Shutdown([ID], true))), false, {"a"}, "a", [Saved("a", "a", event)], [event])
  {
    hide AllNames, Next;
    BootIs(e, w, Shutdown([ID], true));
    assert [ID][..0] == [];
    assert SnapAll(w, []) == w;
    assert Snappable(w, ID);
    assert IdentifyAll([], [event], "a") == [Saved("a", "a", event)];
    assert SnapAll(w, [ID]).live == SnapOne(w.live, ID, [event], "a");
  }

  lemma SceneBoots(e: Env, w: World, event: Event)
    requires Scene(w, false, {"a"}, "a", [Saved("a", "a", event)], [event])
    ensures Scene(Next(e, w, OnBoot(Reboot("b"))), false, {"a", "b"}, "b", [Saved("a", "a", event)], [])
  {
    hide Records, Next;
    BootIs(e, w, Reboot("b"));
  }

  lemma SceneStarts(e: Env, w: World, event: Event)
    requires Scene(w, false, {"a", "b"}, "b", [Saved("a", "a", event)], [])
    ensures Scene(Next(e, w, OnBoot(Restart([ID], 0, true))), true, {"a", "b"}, "b", [Saved("a", "a", event)], [])
  {
    hide Next, Recover;
    BootIs(e, w, Restart([ID], 0, true));
    RecoveredScene(e, w.disk);
  }

  lemma RecoveredScene(e: Env, st: State)
    requires ID in st.main.apps && st.main.apps[ID].state == Serving && BoxOf(st.main.mail, ID) == []
    ensures var m := Recover(e, st, [ID], 0).main;
            ID in m.apps && m.apps[ID].state == Serving && BoxOf(m.mail, ID) == [] && m.pending == st.main.pending
  {
    hide Note;
    NoteMainIs(e);
    assert [ID][..0] == [];
    assert Recover(e, st, [ID], 0) == RecoverApp(e, st, ID, 0);
  }

  /** `attachKernel` fails to write: the record stays, and recovery still owns it. */
  lemma SceneFails(e: Env, w: World, first: Event, second: Event) returns (v: World)
    requires Reachable(e, w) && Scene(w, true, {"a", "b"}, "b", [Saved("a", "a", first)], [second])
    ensures Reachable(e, v) && Scene(v, true, {"a", "b"}, "b", [Saved("a", "a", first)], [second]) && v.past == w.past
  {
    hide Reachable, RecoverFirst, Next;
    var step := OnKernel(RecoverRecord(ID, 0, false));
    KernelIs(e, w, step.kernel);
    ReachNext(e, w, step);
    v := Next(e, w, step);
  }

  /**
   * After one orderly shutdown and a boot, an event posted before the kept record is recovered is in no mailbox, in
   * no record and in no queue once the supervisor has shut down again and the machine has booted again.
   */
  lemma ShutdownCanLose(e: Env, start: World, content: Event) returns (w: World, event: Event)
    requires Initial(start) && !start.up && start.kernel.boot == "a" && CS.Sound(start.ctx.codec)
    ensures Reachable(e, w) && Idle(w) && QueueOf(w.kernel, ID) == [event] && (ID, w.kernel.boot, event.id) in w.past.posted
    ensures ID in w.disk.main.apps && w.disk.main.apps[ID].state == Serving && !Snappable(w, ID)
    ensures var v := Next(e, Next(e, w, OnBoot(Shutdown([ID], true))), OnBoot(Reboot("c")));
            QueueOf(v.kernel, ID) == [] && !OnRecord(v.disk.main, ID, w.kernel.boot, event.id)
  {
    hide Reachable, Next, Scene;
    var created := SceneOpens(e, start);
    var posted, first := ScenePosts(e, created, {"a"}, "a", [], content);
    var again := SceneRestarts(e, posted, first);
    w, event := ScenePosts(e, again, {"a", "b"}, "b", [Saved("a", "a", first)], content);
    w := SceneFails(e, w, first, event);
    SceneLoses(w, first, event);
    ShutdownReach(e, w, [ID], "c", ID, 0);
  }

  lemma SceneLoses(w: World, first: Event, event: Event)
    requires Scene(w, true, {"a", "b"}, "b", [Saved("a", "a", first)], [event])
    ensures Idle(w) && QueueOf(w.kernel, ID) == [event] && w.kernel.boot == "b" && w.past.boots == {"a", "b"}
    ensures ID in w.disk.main.apps && w.disk.main.apps[ID].state == Serving && !Snappable(w, ID)
    ensures !OnRecord(w.disk.main, ID, "b", event.id)
  {
    hide KernelKey;
    assert Records(w.live.main, ID)[0].queueBoot == "a";
  }
}
